/** Where the host-wide maximum is first exceeded, and a run that exceeds it under every configuration. */
module Overcommit {
  import opened Records
  import opened Admission
  import opened AdmissionProofs

  /** The VMs that are running or admitted and pending. */
  function Vms(h: Host): set<nat> {
    h.running + h.pending.Keys
  }

  predicate Over(cfg: Config, h: Host) {
    |Vms(h)| > cfg.maxVMs
  }

  predicate Full(cfg: Config, h: Host) {
    |Vms(h)| == cfg.maxVMs
  }

  predicate Admits(cfg: Config, h: Host, a: Action) {
    a.Decide? && h.check.Measured? && h.check.available >= Required(cfg, h, h.check.want)
  }

  lemma OneMoreVm(vms: set<nat>, id: nat)
    requires id !in vms
    ensures |vms + {id}| == |vms| + 1
  {}

  lemma AskerIsNew(cfg: Config, h: Host)
    requires CountInv(cfg, h)
    ensures h.check.Measured? ==> h.check.id !in Vms(h)
    ensures forall id :: Enabled(h, LateStart(id)) ==> id !in Vms(h)
  {}

  lemma LateStartAddsVm(cfg: Config, h: Host, id: nat)
    requires Enabled(h, LateStart(id)) && id !in Vms(h)
    ensures |Vms(Next(cfg, h, LateStart(id)))| == |Vms(h)| + 1
  {
    assert Vms(Next(cfg, h, LateStart(id))) == Vms(h) + {id};
    OneMoreVm(Vms(h), id);
  }

  lemma AdmissionAddsVm(cfg: Config, h: Host, id: nat, want: nat)
    requires id !in Vms(h)
    ensures |Vms(Admit(cfg, h, id, want))| == |Vms(h)| + 1
  {
    assert h.pending[id := Budget(cfg, want)].Keys == h.pending.Keys + {id};
    assert Vms(Admit(cfg, h, id, want)) == Vms(h) + {id};
    OneMoreVm(Vms(h), id);
  }

  lemma OthersAddNoVm(cfg: Config, h: Host, a: Action)
    requires Enabled(h, a) && !a.LateStart? && !Admits(cfg, h, a)
    ensures |Vms(Next(cfg, h, a))| <= |Vms(h)|
  {
    assert Vms(Next(cfg, h, a)) <= Vms(h);
    SubsetSize(Vms(Next(cfg, h, a)), Vms(h));
  }

  lemma MissedOne(cfg: Config, h: Host)
    requires CountInv(cfg, h) && h.check.Measured?
    ensures Full(cfg, h) ==> h.running * h.late != {}
  {
    if h.running * h.late == {} {
      forall id | id in Vms(h) ensures id !in h.late {
        assert id in h.running && id in h.late ==> id in h.running * h.late;
      }
      assert Counted(h) == Vms(h);
    }
  }

  /** The maximum is first exceeded exactly when a start that outlived its manager completes on a full
      host, or when a check that missed such a VM, since it started behind the scan, admits one more. */
  lemma OvercommitBeginsExactly(cfg: Config, h: Host, a: Action)
    requires CountInv(cfg, h) && Enabled(h, a) && !Over(cfg, h)
    ensures Over(cfg, Next(cfg, h, a)) <==> Full(cfg, h) && (a.LateStart? || Admits(cfg, h, a))
    ensures Full(cfg, h) && Admits(cfg, h, a) ==> h.running * h.late != {}
  {
    AskerIsNew(cfg, h);
    if a.LateStart? {
      LateStartAddsVm(cfg, h, a.id);
    } else if Admits(cfg, h, a) {
      AdmissionAddsVm(cfg, h, h.check.id, h.check.want);
      MissedOne(cfg, h);
    } else {
      OthersAddNoVm(cfg, h, a);
    }
  }

  predicate EverOver(cfg: Config, h: Host, actions: seq<Action>)
    requires Runs(cfg, h, actions)
    decreases |actions|
  {
    Over(cfg, h) || (actions != [] && EverOver(cfg, Next(cfg, h, actions[0]), actions[1..]))
  }

  predicate EverOvercommits(cfg: Config, h: Host, actions: seq<Action>)
    requires Runs(cfg, h, actions)
    decreases |actions|
  {
    && actions != []
    && (|| (Full(cfg, h) && (actions[0].LateStart? || Admits(cfg, h, actions[0])))
        || EverOvercommits(cfg, Next(cfg, h, actions[0]), actions[1..]))
  }

  lemma {:induction false} RunOvercommits(cfg: Config, h: Host, actions: seq<Action>)
    requires CountInv(cfg, h) && !Over(cfg, h) && Runs(cfg, h, actions)
    ensures EverOver(cfg, h, actions) <==> EverOvercommits(cfg, h, actions)
    decreases |actions|
  {
    if actions == [] {
    } else {
      var h' := Next(cfg, h, actions[0]);
      StepKeepsCount(cfg, h, actions[0]);
      OvercommitBeginsExactly(cfg, h, actions[0]);
      if !Over(cfg, h') {
        RunOvercommits(cfg, h', actions[1..]);
      }
    }
  }

  /** Over every run from the start the maximum is ever exceeded if and only if one of these happens on
      a full host. */
  lemma MaximumHolds(cfg: Config, available: int, actions: seq<Action>)
    requires cfg.maxVMs >= 0 && Runs(cfg, Booted(available), actions)
    ensures EverOver(cfg, Booted(available), actions) <==> EverOvercommits(cfg, Booted(available), actions)
  {
    RunOvercommits(cfg, Booted(available), actions);
  }

  // ---- a run that exceeds it ----

  lemma {:induction false} RunsOn(cfg: Config, h: Host, first: seq<Action>, second: seq<Action>)
    requires Runs(cfg, h, first) && Runs(cfg, After(cfg, h, first), second)
    ensures Runs(cfg, h, first + second)
    ensures After(cfg, h, first + second) == After(cfg, After(cfg, h, first), second)
    decreases |first|
  {
    if first == [] {
      assert first + second == second;
    } else {
      RunsOn(cfg, Next(cfg, h, first[0]), first[1..], second);
      assert (first + second)[1..] == first[1..] + second;
    }
  }

  /** The three steps of an admission that meets no container. */
  function AdmissionSteps(id: nat, size: Size, res: Resources): seq<Action> {
    [Ask(id, size, res, {}), Count, Decide]
  }

  /** Nothing runs, nobody checks, and there is memory for `n` more VMs of any size. */
  predicate RoomFor(cfg: Config, h: Host, n: nat) {
    && h.check.Idle? && h.running == {} && h.pendingCreates == |h.pending| && |h.pending| + n <= cfg.maxVMs
    && h.pendingMiB <= Copies(|h.pending|, Cap(cfg))
    && cfg.reserveMiB + Copies(|h.pending| + n, Cap(cfg)) < TWO64
    && h.available >= cfg.reserveMiB + Copies(|h.pending| + n, Cap(cfg))
  }

  lemma RequirementFits(cfg: Config, h: Host, n: nat, want: nat)
    requires RoomFor(cfg, h, n) && n > 0 && want <= MAX_MEMORY_MIB
    ensures Required(cfg, h, want) == cfg.reserveMiB + h.pendingMiB + Budget(cfg, want) <= h.available
    ensures Add64(h.pendingMiB, Budget(cfg, want)) <= Copies(|h.pending| + 1, Cap(cfg))
  {
    CopiesMonotone(|h.pending| + 1, |h.pending| + n, Cap(cfg));
    Add64Exact(cfg.reserveMiB, h.pendingMiB);
    Add64Exact(cfg.reserveMiB + h.pendingMiB, Budget(cfg, want));
    Add64Exact(h.pendingMiB, Budget(cfg, want));
  }

  lemma AdmitsOne(cfg: Config, h: Host, id: nat, n: nat, size: Size, res: Resources)
    requires RoomFor(cfg, h, n) && n > 0 && id !in h.drawn
    ensures Runs(cfg, h, AdmissionSteps(id, size, res))
    ensures var want := MemoryFor(size, Clamp(res));
      After(cfg, h, AdmissionSteps(id, size, res)) == Admit(cfg, h.(drawn := h.drawn[id := want]), id, want)
  {
    var want := MemoryFor(size, Clamp(res));
    AllocationWithinBudget(cfg, size, res);
    var steps := AdmissionSteps(id, size, res);
    var asked := Next(cfg, h, steps[0]);
    assert asked.check == Scanning(id, want, {}, {});
    var measured := Next(cfg, asked, Count);
    assert measured.check == Measured(id, want, h.available);
    RequirementFits(cfg, h, n, want);
    assert steps[1..] == [Count, Decide] && steps[1..][1..] == [Decide];
    assert Runs(cfg, measured, [Decide]) && After(cfg, measured, [Decide]) == Next(cfg, measured, Decide);
  }

  /** What filling up leaves as it is, with new ids from `first` on. */
  predicate FilledFrom(h: Host, h': Host, first: nat) {
    && h'.check.Idle? && h'.running == {} && h'.late == h.late && h'.memory == h.memory
    && (forall id :: id in h.drawn ==> id in h'.drawn)
    && (forall id :: id in h'.pending ==> id in h.pending || id >= first)
  }

  lemma AdmitKeepsRoom(cfg: Config, h: Host, h': Host, id: nat, n: nat, want: nat)
    requires RoomFor(cfg, h, n) && n > 0 && want <= MAX_MEMORY_MIB && id !in h.pending
    requires h' == Admit(cfg, h.(drawn := h.drawn[id := want]), id, want)
    ensures RoomFor(cfg, h', n - 1) && |h'.pending| == |h.pending| + 1
    ensures h'.pending.Keys == h.pending.Keys + {id}
  {
    RequirementFits(cfg, h, n, want);
    assert h'.pending.Keys == h.pending.Keys + {id};
    assert |h'.pending| == |h'.pending.Keys|;
    OneMoreVm(h.pending.Keys, id);
  }

  lemma AdmitsInto(cfg: Config, h: Host, id: nat, n: nat, size: Size, res: Resources) returns (h': Host)
    requires RoomFor(cfg, h, n) && n > 0 && id !in h.drawn && id !in h.pending
    ensures Runs(cfg, h, AdmissionSteps(id, size, res)) && h' == After(cfg, h, AdmissionSteps(id, size, res))
    ensures RoomFor(cfg, h', n - 1) && |h'.pending| == |h.pending| + 1 && FilledFrom(h, h', id)
    ensures h'.drawn.Keys == h.drawn.Keys + {id} && h'.pending.Keys == h.pending.Keys + {id}
  {
    var want := MemoryFor(size, Clamp(res));
    AdmitsOne(cfg, h, id, n, size, res);
    AllocationWithinBudget(cfg, size, res);
    h' := Admit(cfg, h.(drawn := h.drawn[id := want]), id, want);
    AdmitKeepsRoom(cfg, h, h', id, n, want);
  }

  lemma {:induction false} FillsUp(cfg: Config, h: Host, first: nat, n: nat, size: Size, res: Resources)
    returns (actions: seq<Action>)
    requires RoomFor(cfg, h, n) && h.pending.Keys <= h.drawn.Keys && forall id :: id in h.drawn ==> id < first
    ensures Runs(cfg, h, actions)
    ensures |After(cfg, h, actions).pending| == |h.pending| + n && FilledFrom(h, After(cfg, h, actions), first)
    decreases n
  {
    if n == 0 {
      actions := [];
    } else {
      var h' := AdmitsInto(cfg, h, first, n, size, res);
      var rest := FillsUp(cfg, h', first + 1, n - 1, size, res);
      actions := AdmissionSteps(first, size, res) + rest;
      RunsOn(cfg, h, AdmissionSteps(first, size, res), rest);
    }
  }

  /** The manager is replaced in the middle of the first start. */
  lemma ReplacedMidStart(cfg: Config, available: int, size: Size, res: Resources) returns (h: Host)
    requires cfg.maxVMs >= 1 && RoomFor(cfg, Booted(available), cfg.maxVMs)
    ensures Runs(cfg, Booted(available), AdmissionSteps(0, size, res) + [Restart({0})])
    ensures h == After(cfg, Booted(available), AdmissionSteps(0, size, res) + [Restart({0})])
    ensures h == Booted(available).(drawn := h.drawn, late := {0}) && h.drawn.Keys == {0}
  {
    AdmitsOne(cfg, Booted(available), 0, cfg.maxVMs, size, res);
    var admitted := After(cfg, Booted(available), AdmissionSteps(0, size, res));
    assert admitted.pending.Keys == {0} && admitted.memory == map[];
    h := Next(cfg, admitted, Restart({0}));
    assert Runs(cfg, admitted, [Restart({0})]) && After(cfg, admitted, [Restart({0})]) == h;
    RunsOn(cfg, Booted(available), AdmissionSteps(0, size, res), [Restart({0})]);
    assert h.late == {0};
  }

  /** The start completes on a host that is full by then. */
  lemma LateStartOnFullHost(cfg: Config, h: Host)
    requires cfg.maxVMs >= 1 && h.running == {} && |h.pending| == cfg.maxVMs
    requires 0 in h.late && 0 in h.drawn && 0 !in h.memory && 0 !in h.pending
    ensures Runs(cfg, h, [LateStart(0)])
    ensures var h' := After(cfg, h, [LateStart(0)]); |Vms(h')| == cfg.maxVMs + 1
  {
    var h' := Next(cfg, h, LateStart(0));
    assert [LateStart(0)][1..] == [];
    assert h'.running + h'.pending.Keys == h.pending.Keys + {0};
    OneMoreVm(h.pending.Keys, 0);
  }

  /** The excess is real under every configuration with room for a VM and memory to fill it: a start
      that is under way when the manager is replaced is in neither the scan nor the new manager's
      counter, so the new manager fills all places, and then the start completes. */
  lemma RestartOvercommits(cfg: Config, available: int, size: Size, res: Resources) returns (actions: seq<Action>)
    requires cfg.maxVMs >= 1 && Bounded(cfg) && available >= cfg.reserveMiB + cfg.maxVMs * Cap(cfg)
    ensures Runs(cfg, Booted(available), actions)
    ensures var h := After(cfg, Booted(available), actions); |Vms(h)| == cfg.maxVMs + 1
  {
    CopiesIsProduct(cfg.maxVMs, Cap(cfg));
    var h := ReplacedMidStart(cfg, available, size, res);
    var filling := FillsUp(cfg, h, 1, cfg.maxVMs, size, res);
    LateStartOnFullHost(cfg, After(cfg, h, filling));
    RunsOn(cfg, h, filling, [LateStart(0)]);
    var before := AdmissionSteps(0, size, res) + [Restart({0})];
    actions := before + (filling + [LateStart(0)]);
    RunsOn(cfg, Booted(available), before, filling + [LateStart(0)]);
  }
}
