/** The service's admission methods, each with the lock held throughout, against the machine. */
module Gate {
  import opened Records
  import opened Admission

  /** What containerd says about one container. */
  datatype Status = NoTask | Stopped | Live | QueryFailed

  function LiveOnes(containers: seq<Id>, status: Id -> Status): set<Id> {
    set id | id in containers && status(id) == Live
  }

  class Gate {
    const cfg: Config
    var pendingCreates: int
    var pendingMiB: nat

    constructor (cfg: Config)
      ensures this.cfg == cfg && pendingCreates == 0 && pendingMiB == 0
    {
      this.cfg := cfg;
      pendingCreates, pendingMiB := 0, 0;
    }

    /** The host of the machine whose two counters these are. */
    predicate Mirrors(h: Host)
      reads this
    {
      pendingCreates == h.pendingCreates && pendingMiB == h.pendingMiB
    }

    /** One query per container; a failed query fails the count. */
    method RunningCount(containers: seq<Id>, status: Id -> Status) returns (n: Option<nat>)
      requires forall i, j :: 0 <= i < j < |containers| ==> containers[i] != containers[j]
      ensures n.None? <==> exists i :: 0 <= i < |containers| && status(containers[i]) == QueryFailed
      ensures n.Some? ==> n.value == |LiveOnes(containers, status)|
    {
      var running := 0;
      for i := 0 to |containers|
        invariant running == |LiveOnes(containers[..i], status)|
        invariant forall j :: 0 <= j < i ==> status(containers[j]) != QueryFailed
      {
        var id := containers[i];
        assert containers[..i + 1] == containers[..i] + [id];
        assert id !in LiveOnes(containers[..i], status);
        if status(id) == QueryFailed {
          return None;
        }
        if status(id) == Live {
          assert LiveOnes(containers[..i + 1], status) == LiveOnes(containers[..i], status) + {id};
          running := running + 1;
        } else {
          assert LiveOnes(containers[..i + 1], status) == LiveOnes(containers[..i], status);
        }
      }
      assert containers[..|containers|] == containers;
      return Some(running);
    }

    /** Admits exactly when the machine's Count and Decide admit, and then moves the two counters as
        the machine does; an unreadable count or memory refuses and changes nothing. */
    method Admit(running: Option<nat>, available: Option<nat>, id: Id, want: nat, ghost h: Host)
      returns (admitted: bool)
      requires Mirrors(h) && h.check.Scanning? && h.check.todo == {} && h.check.id == id && h.check.want == want
      requires running.Some? ==> running.value == |h.check.counted|
      requires available.Some? ==> available.value == h.available
      modifies this
      ensures admitted ==> running.Some? && available.Some?
      ensures running.Some? && available.Some? ==>
        var counted := Next(cfg, h, Count);
        var decided := if counted.check.Measured? then Next(cfg, counted, Decide) else counted;
        && Mirrors(decided)
        && (admitted <==>
              decided.pending == h.pending[id := Budget(cfg, want)] && decided.pendingCreates > h.pendingCreates)
      ensures running.None? || available.None? ==> !admitted && Mirrors(Next(cfg, h, GiveUp))
      // and, where the sums fit 64 bits, in numbers
      ensures var budget := if want >= cfg.vmMiB then want else cfg.vmMiB;
        cfg.reserveMiB + old(pendingMiB) + budget < TWO64 ==>
          && (admitted <==>
                && running.Some? && running.value + old(pendingCreates) < cfg.maxVMs
                && available.Some? && available.value >= cfg.reserveMiB + old(pendingMiB) + budget)
          && pendingCreates == old(pendingCreates) + (if admitted then 1 else 0)
          && pendingMiB == old(pendingMiB) + (if admitted then budget else 0)
    {
      if running.None? {
        return false;
      }
      if running.value + pendingCreates >= cfg.maxVMs {
        return false;
      }
      if available.None? {
        return false;
      }
      var vmMiB := Max(want, cfg.vmMiB);
      var required := Add64(Add64(cfg.reserveMiB, pendingMiB), vmMiB);
      if available.value < required {
        return false;
      }
      pendingCreates := pendingCreates + 1;
      pendingMiB := Add64(pendingMiB, vmMiB);
      return true;
    }

    method ReleaseSlot(id: Id, budget: nat, ghost h: Host)
      requires Mirrors(h) && Enabled(h, Action.ReleaseSlot(id)) && h.pending[id] == budget
      modifies this
      ensures Mirrors(Next(cfg, h, Action.ReleaseSlot(id)))
    {
      pendingCreates := pendingCreates - 1;
      pendingMiB := Sub64(pendingMiB, budget);
    }
  }
}
