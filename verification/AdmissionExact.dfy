/** When exactly a create is admitted: not only that no more are than should be. */
module AdmissionExact {
  import opened Records
  import opened Admission
  import opened AdmissionProofs
  import opened Overcommit

  /** No VM starts or dies: containers are read, and memory is taken and given back. */
  predicate Calm(a: Action) {
    a.Look? || a.Fault? || a.Freed?
  }

  predicate MemoryOnly(a: Action) {
    a.Fault? || a.Freed?
  }

  /** A check of `id` that began in `start`; what it has counted are the running VMs it has read. */
  ghost predicate Checking(start: Host, h: Host, id: nat, want: nat) {
    && h.check.Scanning? && h.check.id == id && h.check.want == want
    && h.running == start.running && h.pending == start.pending
    && h.pendingCreates == start.pendingCreates && h.pendingMiB == start.pendingMiB
    && (forall x :: x in h.check.counted <==> x in start.running && x !in h.check.todo)
  }

  lemma {:induction false} CalmScan(cfg: Config, start: Host, h: Host, id: nat, want: nat, actions: seq<Action>)
    requires Checking(start, h, id, want) && Runs(cfg, h, actions) && forall a :: a in actions ==> Calm(a)
    ensures Checking(start, After(cfg, h, actions), id, want)
    decreases |actions|
  {
    if actions == [] {
    } else {
      var a := actions[0];
      assert Calm(a);
      assert Checking(start, Next(cfg, h, a), id, want);
      CalmScan(cfg, start, Next(cfg, h, a), id, want, actions[1..]);
    }
  }

  lemma {:induction false} CalmWait(cfg: Config, h: Host, actions: seq<Action>)
    requires h.check.Measured? && Runs(cfg, h, actions) && forall a :: a in actions ==> MemoryOnly(a)
    ensures var h' := After(cfg, h, actions);
      h'.check == h.check && h'.pending == h.pending && h'.pendingMiB == h.pendingMiB
    decreases |actions|
  {
    if actions == [] {
    } else {
      assert MemoryOnly(actions[0]);
      CalmWait(cfg, Next(cfg, h, actions[0]), actions[1..]);
    }
  }

  /** A create asks in h, and its scan ends in `read` without any VM starting or dying. */
  ghost predicate ScanEnds(cfg: Config, h: Host, ask: Action, looks: seq<Action>, read: Host) {
    && ask.Ask? && Enabled(h, ask) && Runs(cfg, Next(cfg, h, ask), looks) && (forall a :: a in looks ==> Calm(a))
    && read == After(cfg, Next(cfg, h, ask), looks) && read.check.Scanning? && read.check.todo == {}
  }

  lemma ScanCountsRunning(cfg: Config, h: Host, ask: Action, looks: seq<Action>, read: Host)
    requires CountInv(cfg, h) && ScanEnds(cfg, h, ask, looks, read)
    ensures Checking(h, read, ask.id, MemoryFor(ask.size, Clamp(ask.res))) && read.check.counted == h.running
  {
    CalmScan(cfg, h, Next(cfg, h, ask), ask.id, MemoryFor(ask.size, Clamp(ask.res)), looks);
  }

  /** The slot half: a check during which no VM starts or dies goes on to the memory exactly if the
      running VMs and the outstanding admissions, counted separately, are fewer than the maximum. */
  lemma SlotsExactly(cfg: Config, h: Host, ask: Action, looks: seq<Action>, read: Host)
    requires CountInv(cfg, h) && ScanEnds(cfg, h, ask, looks, read)
    ensures Next(cfg, read, Count).check ==
      if |h.running| + |h.pending| < cfg.maxVMs
      then Measured(ask.id, MemoryFor(ask.size, Clamp(ask.res)), read.available) else Idle
    ensures Next(cfg, read, Count).pending == h.pending && Next(cfg, read, Count).pendingMiB == h.pendingMiB
  {
    ScanCountsRunning(cfg, h, ask, looks, read);
  }

  /** From the memory read on, memory may go up and down before the verdict. */
  ghost predicate WaitEnds(cfg: Config, measured: Host, waits: seq<Action>, last: Host) {
    && Runs(cfg, measured, waits) && (forall a :: a in waits ==> MemoryOnly(a))
    && last == After(cfg, measured, waits) && last.check.Measured?
  }

  /** A create is admitted exactly if the running VMs and the outstanding admissions are fewer than the
      maximum, and the memory read then covers the reserve, every outstanding budget, and its own memory
      or the per-VM default, whichever is more. */
  lemma AdmittedExactly(cfg: Config, h: Host, ask: Action, looks: seq<Action>, read: Host,
    waits: seq<Action>, last: Host)
    requires CountInv(cfg, h) && BudgetInv(cfg, h) && Bounded(cfg)
    requires ScanEnds(cfg, h, ask, looks, read)
    requires Next(cfg, read, Count).check.Measured? && WaitEnds(cfg, Next(cfg, read, Count), waits, last)
    ensures |h.running| + |h.pending| < cfg.maxVMs
    ensures var budget := Max(MemoryFor(ask.size, Clamp(ask.res)), cfg.vmMiB);
      Next(cfg, last, Decide).pending ==
        if read.available >= cfg.reserveMiB + Sum(h.pending) + budget then h.pending[ask.id := budget] else h.pending
  {
    var want := MemoryFor(ask.size, Clamp(ask.res));
    SlotsExactly(cfg, h, ask, looks, read);
    CalmWait(cfg, Next(cfg, read, Count), waits);
    AllocationWithinBudget(cfg, ask.size, ask.res);
    PendingFits(cfg, h, want);
    SameRequirement(cfg, h, last, want);
  }

  lemma SameRequirement(cfg: Config, h: Host, h': Host, want: nat)
    requires h'.pendingMiB == h.pendingMiB
    ensures Required(cfg, h', want) == Required(cfg, h, want)
  {}

  lemma PendingFits(cfg: Config, h: Host, want: nat)
    requires CountInv(cfg, h) && BudgetInv(cfg, h) && Bounded(cfg) && want <= MAX_MEMORY_MIB
    requires |h.running| + |h.pending| < cfg.maxVMs
    ensures Required(cfg, h, want) == cfg.reserveMiB + Sum(h.pending) + Max(want, cfg.vmMiB)
  {
    OneMoreFits(cfg, h, want);
    Add64Exact(cfg.reserveMiB, h.pendingMiB);
    Add64Exact(cfg.reserveMiB + h.pendingMiB, Budget(cfg, want));
  }

  /** Counted separately, a VM that has started and not given up its admission yet counts twice; only
      while there is none is the test the one for distinct VMs. */
  lemma CountedTwice(h: Host)
    ensures |h.running| + |h.pending| == |Vms(h)| + |h.running * h.pending.Keys|
    ensures h.running !! h.pending.Keys <==> |h.running| + |h.pending| == |Vms(h)|
  {
    UnionAndCommon(h.running, h.pending.Keys);
    assert |h.pending| == |h.pending.Keys|;
    if h.running !! h.pending.Keys {
      assert h.running * h.pending.Keys == {};
    } else {
      var both :| both in h.running && both in h.pending.Keys;
      assert both in h.running * h.pending.Keys;
    }
  }

  lemma UnionAndCommon(a: set<nat>, b: set<nat>)
    ensures |a| + |b| == |a + b| + |a * b|
  {
    assert a == (a - b) + a * b;
    assert b == (b - a) + a * b;
    assert a + b == (a - b) + (b - a) + a * b;
  }

  /** So a host with two places and one VM refuses a second create while that VM's own is still open. */
  lemma StartedVmCountsTwice(cfg: Config, available: int, size: Size, res: Resources) returns (h: Host)
    requires cfg.maxVMs == 2 && RoomFor(cfg, Booted(available), 2)
    ensures Runs(cfg, Booted(available), AdmissionSteps(0, size, res) + [Start(0)])
    ensures h == After(cfg, Booted(available), AdmissionSteps(0, size, res) + [Start(0)])
    ensures |Vms(h)| == 1 && |h.running| + |h.pending| == 2
  {
    AdmitsOne(cfg, Booted(available), 0, 2, size, res);
    var admitted := After(cfg, Booted(available), AdmissionSteps(0, size, res));
    assert admitted.pending.Keys == {0};
    h := Next(cfg, admitted, Start(0));
    assert Runs(cfg, admitted, [Start(0)]) && After(cfg, admitted, [Start(0)]) == h;
    RunsOn(cfg, Booted(available), AdmissionSteps(0, size, res), [Start(0)]);
    assert h.running == {0} && Vms(h) == {0};
    assert |h.pending| == |h.pending.Keys|;
  }

  /** What a VM gets, in MiB: the memory of its size, or the request up to 16 GiB if that is more. And
      what it is budgeted at. */
  lemma MemoryExactly(cfg: Config, size: Size, r: Resources)
    ensures var own := if size.Small? then 256 else if size.Large? then 1024 else if size.XLarge? then 2048 else 512;
      var asked := if r.memoryMiB <= 16384 then r.memoryMiB else 16384;
      var memory := MemoryFor(size, Clamp(r));
      && memory >= own && memory >= asked && (memory == own || memory == asked)
      && Budget(cfg, memory) >= memory && Budget(cfg, memory) >= cfg.vmMiB
      && (Budget(cfg, memory) == memory || Budget(cfg, memory) == cfg.vmMiB)
    ensures Clamp(r).vCPUs == (if r.vCPUs <= 4 then r.vCPUs else 4)
    ensures Clamp(r).diskMiB == (if r.diskMiB <= 51200 then r.diskMiB else 51200)
  {}
}
