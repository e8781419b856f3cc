/** The capacity and memory bounds of admission, over every run. */
module AdmissionProofs {
  import opened Records
  import opened Admission

  // ---- sums over maps ----

  ghost function Sum(m: map<nat, nat>): nat {
    if m == map[] then 0
    else
      var k :| k in m;
      m[k] + Sum(m - {k})
  }

  /** Any entry may be counted first. */
  lemma {:induction false} SumSplits(m: map<nat, nat>, k: nat)
    requires k in m
    ensures Sum(m) == m[k] + Sum(m - {k})
    decreases |m|
  {
    var first :| first in m && Sum(m) == m[first] + Sum(m - {first});
    if first != k {
      SumSplits(m - {first}, k);
      SumSplits(m - {k}, first);
      assert m - {first} - {k} == m - {k} - {first};
    }
  }

  lemma SumGrows(m: map<nat, nat>, k: nat, v: nat)
    requires k !in m
    ensures Sum(m[k := v]) == Sum(m) + v
  {
    SumSplits(m[k := v], k);
    assert m[k := v] - {k} == m;
  }

  /** n copies of cap, without the solver's multiplication. */
  function Copies(n: nat, cap: nat): nat {
    if n == 0 then 0 else cap + Copies(n - 1, cap)
  }

  lemma {:induction false} CopiesIsProduct(n: nat, cap: nat)
    ensures Copies(n, cap) == n * cap
  {
    if n == 0 {
    } else {
      CopiesIsProduct(n - 1, cap);
      assert n * cap == (n - 1) * cap + cap;
    }
  }

  lemma {:induction false} CopiesMonotone(m: nat, n: nat, cap: nat)
    requires m <= n
    ensures Copies(m, cap) <= Copies(n, cap)
  {
    if m == n {
    } else {
      CopiesMonotone(m, n - 1, cap);
    }
  }

  lemma {:induction false} SumBounded(m: map<nat, nat>, cap: nat)
    requires forall k :: k in m ==> m[k] <= cap
    ensures Sum(m) <= Copies(|m|, cap)
    decreases |m|
  {
    if m == map[] {
    } else {
      var k :| k in m;
      SumSplits(m, k);
      SumBounded(m - {k}, cap);
      assert (m - {k}).Keys == m.Keys - {k};
      assert |m| == |m - {k}| + 1;
    }
  }

  lemma {:induction false} SumMonotone(m: map<nat, nat>, n: map<nat, nat>)
    requires m.Keys == n.Keys && forall k :: k in m ==> m[k] <= n[k]
    ensures Sum(m) <= Sum(n)
    decreases |m|
  {
    if m == map[] {
      assert n == map[];
    } else {
      var k :| k in m;
      SumSplits(m, k);
      SumSplits(n, k);
      SumMonotone(m - {k}, n - {k});
    }
  }

  // ---- the number of VMs ----

  lemma {:induction false} SubsetSize(a: set<nat>, b: set<nat>)
    requires a <= b
    ensures |a| <= |b|
    decreases |a|
  {
    if a == {} {
    } else {
      var x :| x in a;
      SubsetSize(a - {x}, b - {x});
    }
  }

  lemma UnionSize(a: set<nat>, b: set<nat>)
    ensures |a + b| <= |a| + |b|
  {}

  /** The VMs that are running or admitted and pending, but for starts that outlived their manager. */
  function Counted(h: Host): set<nat> {
    h.running + h.pending.Keys - h.late
  }

  ghost predicate CountInv(cfg: Config, h: Host) {
    && h.pendingCreates == |h.pending|
    && |Counted(h)| <= cfg.maxVMs
    && h.pending.Keys <= h.drawn.Keys && h.running <= h.memory.Keys <= h.drawn.Keys
    && h.late <= h.drawn.Keys && h.late !! h.pending.Keys
    && match h.check
       case Idle => true
       case Scanning(id, want, todo, counted) =>
         && h.running - h.pending.Keys - h.late <= counted + todo
         && id in h.drawn && h.drawn[id] == want && id !in h.pending && id !in h.memory && id !in h.late
       case Measured(id, want, _) =>
         && |Counted(h)| < cfg.maxVMs
         && id in h.drawn && h.drawn[id] == want && id !in h.pending && id !in h.memory && id !in h.late
  }

  /** Every VM that runs without a pending slot was running when the scan began, because a slot
      cannot be released while the scan holds the lock; so the scan counts it. */
  lemma ScanCountsTheRest(h: Host)
    requires h.check.Scanning? && h.check.todo == {} && h.running - h.pending.Keys - h.late <= h.check.counted
    ensures |Counted(h)| <= |h.check.counted| + |h.pending|
  {
    UnionSize(h.check.counted, h.pending.Keys);
    SubsetSize(Counted(h), h.check.counted + h.pending.Keys);
  }

  lemma OneMoreCounted(running: set<nat>, pending: set<nat>, late: set<nat>, id: nat)
    requires id !in running && id !in pending && id !in late
    ensures |running + (pending + {id}) - late| == |running + pending - late| + 1
  {
    var all := running + pending - late;
    assert running + (pending + {id}) - late == all + {id};
  }

  lemma OneMorePending(running: set<nat>, pending: map<nat, nat>, late: set<nat>, id: nat, budget: nat)
    requires id !in running && id !in pending && id !in late
    ensures |pending[id := budget]| == |pending| + 1
    ensures |running + pending[id := budget].Keys - late| == |running + pending.Keys - late| + 1
  {
    assert pending[id := budget].Keys == pending.Keys + {id};
    assert |pending[id := budget]| == |pending.Keys + {id}|;
    OneMoreCounted(running, pending.Keys, late, id);
  }

  lemma AdmissionKeepsCount(cfg: Config, h: Host)
    requires CountInv(cfg, h) && h.check.Measured?
    ensures CountInv(cfg, Admit(cfg, h, h.check.id, h.check.want))
  {
    OneMorePending(h.running, h.pending, h.late, h.check.id, Budget(cfg, h.check.want));
  }

  lemma VmsKeepCount(cfg: Config, h: Host, a: Action)
    requires CountInv(cfg, h) && Enabled(h, a) && (a.Start? || a.LateStart? || a.Die? || a.Fault? || a.Freed?)
    ensures CountInv(cfg, Next(cfg, h, a))
  {
    SubsetSize(Counted(Next(cfg, h, a)), Counted(h));
  }

  lemma ReleaseKeepsCount(cfg: Config, h: Host, a: Action)
    requires CountInv(cfg, h) && Enabled(h, a) && (a.ReleaseSlot? || a.Restart?)
    ensures CountInv(cfg, Next(cfg, h, a))
  {
    var h' := Next(cfg, h, a);
    if a.ReleaseSlot? {
      assert h'.pending.Keys == h.pending.Keys - {a.id};
      assert |h'.pending.Keys| == |h.pending.Keys| - 1;
    }
    SubsetSize(Counted(h'), Counted(h));
  }

  lemma ScanKeepsCount(cfg: Config, h: Host, a: Action)
    requires CountInv(cfg, h) && Enabled(h, a) && (a.Ask? || a.Look? || a.GiveUp?)
    ensures CountInv(cfg, Next(cfg, h, a))
  {}

  lemma VerdictKeepsCount(cfg: Config, h: Host)
    requires CountInv(cfg, h) && Enabled(h, Count)
    ensures CountInv(cfg, Next(cfg, h, Count))
  {
    var h' := Next(cfg, h, Count);
    if h'.check.Measured? {
      assert |Counted(h)| < cfg.maxVMs by { ScanCountsTheRest(h); }
    }
  }

  lemma StepKeepsCount(cfg: Config, h: Host, a: Action)
    requires CountInv(cfg, h) && Enabled(h, a)
    ensures CountInv(cfg, Next(cfg, h, a))
  {
    if a.Decide? {
      AdmissionKeepsCount(cfg, h);
    } else if a.Start? || a.LateStart? || a.Die? || a.Fault? || a.Freed? {
      VmsKeepCount(cfg, h, a);
    } else if a.ReleaseSlot? || a.Restart? {
      ReleaseKeepsCount(cfg, h, a);
    } else if a.Count? {
      VerdictKeepsCount(cfg, h);
    } else {
      ScanKeepsCount(cfg, h, a);
    }
  }

  lemma {:induction false} RunKeepsCount(cfg: Config, h: Host, actions: seq<Action>)
    requires CountInv(cfg, h) && Runs(cfg, h, actions)
    ensures CountInv(cfg, After(cfg, h, actions))
    decreases |actions|
  {
    if actions == [] {
    } else {
      StepKeepsCount(cfg, h, actions[0]);
      RunKeepsCount(cfg, Next(cfg, h, actions[0]), actions[1..]);
    }
  }

  /** In every run the VMs that are running or admitted and pending never exceed the maximum by more
      than the running ones whose start outlived their manager, although the scan is not atomic; and
      the counter counts exactly the outstanding admissions. */
  lemma CapacityNeverExceeded(cfg: Config, available: int, actions: seq<Action>)
    requires cfg.maxVMs >= 0 && Runs(cfg, Booted(available), actions)
    ensures var h := After(cfg, Booted(available), actions);
      && |h.running + h.pending.Keys - h.late| <= cfg.maxVMs
      && |h.running + h.pending.Keys| <= cfg.maxVMs + |h.running * h.late|
      && h.pendingCreates == |h.pending|
  {
    RunKeepsCount(cfg, Booted(available), actions);
    var h := After(cfg, Booted(available), actions);
    UnionSize(Counted(h), h.running * h.late);
    SubsetSize(h.running + h.pending.Keys, Counted(h) + h.running * h.late);
  }

  // ---- memory ----

  function Cap(cfg: Config): nat {
    Max(MAX_MEMORY_MIB, cfg.vmMiB)
  }

  /** The sums of admission fit 64 bits. */
  predicate Bounded(cfg: Config) {
    cfg.maxVMs >= 0 && cfg.reserveMiB + cfg.maxVMs * Cap(cfg) < TWO64
  }

  function Faulted(h: Host, id: nat): nat {
    if id in h.memory then h.memory[id].faulted else 0
  }

  /** What each pending VM may still take from the host, at its full budget. */
  function Owed(h: Host): map<nat, nat> {
    map id | id in h.pending :: if h.pending[id] >= Faulted(h, id) then h.pending[id] - Faulted(h, id) else 0
  }

  ghost function Debt(h: Host): nat {
    Sum(Owed(h))
  }

  ghost predicate BudgetInv(cfg: Config, h: Host) {
    && h.pendingMiB == Sum(h.pending) < TWO64
    && (forall id :: id in h.drawn ==> h.drawn[id] <= MAX_MEMORY_MIB)
    && (forall id :: id in h.pending ==> id in h.drawn && h.pending[id] == Budget(cfg, h.drawn[id]))
    && (forall id :: id in h.memory ==>
          id in h.drawn && h.memory[id].alloc == h.drawn[id] && h.memory[id].faulted <= h.memory[id].alloc)
  }

  /** A running VM that gave up its slot has touched all its memory. */
  predicate Quiet(h: Host) {
    forall id :: id in h.running && id !in h.pending && id in h.memory ==> h.memory[id].faulted == h.memory[id].alloc
  }

  ghost predicate MemoryInv(cfg: Config, h: Host) {
    && Quiet(h)
    && (h.check.Measured? ==> h.available + Sum(h.pending) >= h.check.available + Debt(h))
    && ((h.pending == map[] && h.memory == map[]) || h.available >= cfg.reserveMiB + Debt(h))
  }

  /** A slot is given up only once its VM, if it still runs, has touched all its memory; and no start
      outlives its manager. */
  predicate Settled(h: Host, a: Action) {
    match a
    case ReleaseSlot(id) => id in h.running && id in h.memory ==> h.memory[id].faulted == h.memory[id].alloc
    case Restart(_) => forall id :: id in h.running && id in h.memory ==> h.memory[id].faulted == h.memory[id].alloc
    case LateStart(_) => false
    case _ => true
  }

  /** Memory sizes after clamping never exceed the budget, so never the per-VM cap. */
  lemma AllocationWithinBudget(cfg: Config, size: Size, r: Resources)
    ensures MemoryFor(size, Clamp(r)) <= MAX_MEMORY_MIB
    ensures MemoryFor(size, Clamp(r)) <= Budget(cfg, MemoryFor(size, Clamp(r))) <= Cap(cfg)
  {}

  lemma Add64Exact(a: nat, b: nat)
    requires a + b < TWO64
    ensures Add64(a, b) == a + b
  {}

  /** What the outstanding budgets, and one more, can come to. */
  lemma OneMoreFits(cfg: Config, h: Host, want: nat)
    requires BudgetInv(cfg, h) && Bounded(cfg) && |h.pending| < cfg.maxVMs && want <= MAX_MEMORY_MIB
    ensures cfg.reserveMiB + Sum(h.pending) + Budget(cfg, want) < TWO64
  {
    var n := |h.pending|;
    SumBounded(h.pending, Cap(cfg));
    assert Copies(n + 1, Cap(cfg)) == Copies(n, Cap(cfg)) + Cap(cfg);
    CopiesMonotone(n + 1, cfg.maxVMs, Cap(cfg));
    CopiesIsProduct(cfg.maxVMs, Cap(cfg));
  }

  /** With a bounded configuration the requirement is the plain sum: nothing wraps. */
  lemma RequirementExact(cfg: Config, h: Host)
    requires CountInv(cfg, h) && BudgetInv(cfg, h) && Bounded(cfg) && h.check.Measured?
    ensures Required(cfg, h, h.check.want) == cfg.reserveMiB + Sum(h.pending) + Budget(cfg, h.check.want) < TWO64
  {
    SubsetSize(h.pending.Keys, Counted(h));
    OneMoreFits(cfg, h, h.check.want);
    Add64Exact(cfg.reserveMiB, h.pendingMiB);
    Add64Exact(cfg.reserveMiB + h.pendingMiB, Budget(cfg, h.check.want));
  }

  lemma AdmissionKeepsBudget(cfg: Config, h: Host)
    requires CountInv(cfg, h) && BudgetInv(cfg, h) && Bounded(cfg) && h.check.Measured?
    ensures BudgetInv(cfg, Admit(cfg, h, h.check.id, h.check.want))
  {
    RequirementExact(cfg, h);
    SumGrows(h.pending, h.check.id, Budget(cfg, h.check.want));
    Add64Exact(h.pendingMiB, Budget(cfg, h.check.want));
  }

  lemma ReleaseKeepsBudget(cfg: Config, h: Host, id: nat)
    requires BudgetInv(cfg, h) && Enabled(h, ReleaseSlot(id))
    ensures BudgetInv(cfg, Next(cfg, h, ReleaseSlot(id)))
  {
    SumSplits(h.pending, id);
  }

  lemma VmsKeepBudget(cfg: Config, h: Host, a: Action)
    requires BudgetInv(cfg, h) && Enabled(h, a) && (a.Start? || a.LateStart? || a.Fault? || a.Ask?)
    ensures BudgetInv(cfg, Next(cfg, h, a))
  {}

  lemma OthersKeepBudget(cfg: Config, h: Host, a: Action)
    requires BudgetInv(cfg, h) && Enabled(h, a)
    requires a.Look? || a.Count? || a.GiveUp? || a.Die? || a.Freed? || a.Restart?
    ensures BudgetInv(cfg, Next(cfg, h, a))
  {}

  lemma RefusalKeepsBudget(cfg: Config, h: Host)
    requires BudgetInv(cfg, h) && h.check.Measured? && h.check.available < Required(cfg, h, h.check.want)
    ensures BudgetInv(cfg, Next(cfg, h, Decide))
  {}

  lemma StepKeepsBudget(cfg: Config, h: Host, a: Action)
    requires CountInv(cfg, h) && BudgetInv(cfg, h) && Bounded(cfg) && Enabled(h, a)
    ensures BudgetInv(cfg, Next(cfg, h, a))
  {
    if a.Decide? {
      if h.check.available < Required(cfg, h, h.check.want) {
        RefusalKeepsBudget(cfg, h);
      } else {
        AdmissionKeepsBudget(cfg, h);
      }
    } else if a.ReleaseSlot? {
      ReleaseKeepsBudget(cfg, h, a.id);
    } else if a.Start? || a.LateStart? || a.Fault? || a.Ask? {
      VmsKeepBudget(cfg, h, a);
    } else {
      OthersKeepBudget(cfg, h, a);
    }
  }

  // What each step does to the debt.

  lemma DebtWithinPending(h: Host)
    ensures Debt(h) <= Sum(h.pending)
  {
    SumMonotone(Owed(h), h.pending);
  }

  lemma SameDebt(h: Host, h': Host)
    requires h'.pending == h.pending && forall id :: id in h.pending ==> Faulted(h', id) == Faulted(h, id)
    ensures Debt(h') == Debt(h)
  {
    assert Owed(h') == Owed(h);
  }

  /** Memory touched by a pending VM is memory it no longer owes. */
  lemma FaultPaysDebt(cfg: Config, h: Host, id: nat, n: nat)
    requires BudgetInv(cfg, h) && Enabled(h, Fault(id, n)) && id in h.pending
    ensures Debt(Next(cfg, h, Fault(id, n))) + n == Debt(h)
  {
    var before, after := Owed(h), Owed(Next(cfg, h, Fault(id, n)));
    assert before[id] == after[id] + n;
    assert after - {id} == before - {id};
    SumSplits(before, id);
    SumSplits(after, id);
  }

  lemma DebtAfterAdmission(cfg: Config, h: Host, id: nat, want: nat)
    requires id !in h.pending && id !in h.memory
    ensures Debt(Admit(cfg, h, id, want)) == Debt(h) + Budget(cfg, want)
  {
    var h' := Admit(cfg, h, id, want);
    assert Owed(h').Keys == Owed(h).Keys + {id};
    assert Owed(h') == Owed(h)[id := Budget(cfg, want)];
    SumGrows(Owed(h), id, Budget(cfg, want));
  }

  lemma DebtAfterRelease(cfg: Config, h: Host, id: nat)
    requires Enabled(h, ReleaseSlot(id))
    ensures Debt(Next(cfg, h, ReleaseSlot(id))) <= Debt(h)
  {
    SumSplits(Owed(h), id);
    assert Owed(Next(cfg, h, ReleaseSlot(id))) == Owed(h) - {id};
  }

  lemma MeasuringKeepsMemory(cfg: Config, h: Host)
    requires MemoryInv(cfg, h) && Enabled(h, Count)
    ensures MemoryInv(cfg, Next(cfg, h, Count))
  {
    DebtWithinPending(h);
    SameDebt(h, Next(cfg, h, Count));
  }

  lemma AdmissionKeepsMemory(cfg: Config, h: Host)
    requires CountInv(cfg, h) && BudgetInv(cfg, h) && Bounded(cfg) && MemoryInv(cfg, h) && h.check.Measured?
    requires h.check.available >= Required(cfg, h, h.check.want)
    ensures MemoryInv(cfg, Admit(cfg, h, h.check.id, h.check.want))
  {
    RequirementExact(cfg, h);
    DebtAfterAdmission(cfg, h, h.check.id, h.check.want);
  }

  lemma FaultKeepsQuiet(cfg: Config, h: Host, id: nat, n: nat)
    requires Quiet(h) && Enabled(h, Fault(id, n))
    ensures Quiet(Next(cfg, h, Fault(id, n)))
    ensures id !in h.pending ==> n == 0
  {}

  lemma FaultKeepsMemory(cfg: Config, h: Host, id: nat, n: nat)
    requires BudgetInv(cfg, h) && MemoryInv(cfg, h) && Enabled(h, Fault(id, n))
    ensures MemoryInv(cfg, Next(cfg, h, Fault(id, n)))
  {
    FaultKeepsQuiet(cfg, h, id, n);
    if id in h.pending {
      FaultPaysDebt(cfg, h, id, n);
    } else {
      SameDebt(h, Next(cfg, h, Fault(id, n)));
    }
  }

  lemma ReleaseKeepsMemory(cfg: Config, h: Host, id: nat)
    requires CountInv(cfg, h) && MemoryInv(cfg, h) && Enabled(h, ReleaseSlot(id)) && Settled(h, ReleaseSlot(id))
    ensures MemoryInv(cfg, Next(cfg, h, ReleaseSlot(id)))
  {
    DebtAfterRelease(cfg, h, id);
    assert Quiet(Next(cfg, h, ReleaseSlot(id)));
  }

  lemma RestartKeepsMemory(cfg: Config, h: Host, starting: set<nat>)
    requires MemoryInv(cfg, h) && Enabled(h, Restart(starting)) && Settled(h, Restart(starting))
    ensures MemoryInv(cfg, Next(cfg, h, Restart(starting)))
  {}

  lemma OthersKeepMemory(cfg: Config, h: Host, a: Action)
    requires MemoryInv(cfg, h) && Enabled(h, a)
    requires a.Ask? || a.Look? || a.GiveUp? || a.Start? || a.Die? || a.Freed? || a.Decide?
    requires a.Decide? ==> h.check.available < Required(cfg, h, h.check.want)
    ensures MemoryInv(cfg, Next(cfg, h, a))
  {
    SameDebt(h, Next(cfg, h, a));
    assert Quiet(Next(cfg, h, a));
  }

  lemma StepKeepsMemory(cfg: Config, h: Host, a: Action)
    requires CountInv(cfg, h) && BudgetInv(cfg, h) && Bounded(cfg) && MemoryInv(cfg, h)
    requires Enabled(h, a) && Settled(h, a)
    ensures MemoryInv(cfg, Next(cfg, h, a))
  {
    if a.Count? {
      MeasuringKeepsMemory(cfg, h);
    } else if a.Decide? && h.check.available >= Required(cfg, h, h.check.want) {
      AdmissionKeepsMemory(cfg, h);
    } else if a.Fault? {
      FaultKeepsMemory(cfg, h, a.id, a.n);
    } else if a.ReleaseSlot? {
      ReleaseKeepsMemory(cfg, h, a.id);
    } else if a.Restart? {
      RestartKeepsMemory(cfg, h, a.starting);
    } else {
      OthersKeepMemory(cfg, h, a);
    }
  }

  /** Every slot given up along a run is settled. */
  predicate AllSettled(cfg: Config, h: Host, actions: seq<Action>)
    requires Runs(cfg, h, actions)
    decreases |actions|
  {
    actions == [] || (Settled(h, actions[0]) && AllSettled(cfg, Next(cfg, h, actions[0]), actions[1..]))
  }

  lemma {:induction false} RunKeepsBudget(cfg: Config, h: Host, actions: seq<Action>)
    requires CountInv(cfg, h) && BudgetInv(cfg, h) && Bounded(cfg) && Runs(cfg, h, actions)
    ensures CountInv(cfg, After(cfg, h, actions)) && BudgetInv(cfg, After(cfg, h, actions))
    ensures MemoryInv(cfg, h) && AllSettled(cfg, h, actions) ==> MemoryInv(cfg, After(cfg, h, actions))
    decreases |actions|
  {
    if actions == [] {
    } else {
      StepKeepsCount(cfg, h, actions[0]);
      StepKeepsBudget(cfg, h, actions[0]);
      if MemoryInv(cfg, h) && Settled(h, actions[0]) {
        StepKeepsMemory(cfg, h, actions[0]);
      }
      RunKeepsBudget(cfg, Next(cfg, h, actions[0]), actions[1..]);
    }
  }

  lemma BootedIsSound(cfg: Config, available: int)
    requires cfg.maxVMs >= 0
    ensures var h := Booted(available); CountInv(cfg, h) && BudgetInv(cfg, h) && MemoryInv(cfg, h)
  {
    assert Owed(Booted(available)) == map[];
  }

  /** In every run pendingMiB is the exact sum of the outstanding budgets, so no release underflows
      it, each outstanding VM's real allocation is within its budget, and the requirement a check
      compares against never wraps. */
  lemma BudgetIsExact(cfg: Config, available: int, actions: seq<Action>)
    requires Bounded(cfg) && Runs(cfg, Booted(available), actions)
    ensures var h := After(cfg, Booted(available), actions);
      && h.pendingMiB == Sum(h.pending)
      && (forall id :: id in h.pending ==> h.pending[id] <= h.pendingMiB)
      && (forall id :: id in h.pending && id in h.memory ==> h.memory[id].alloc <= h.pending[id])
      && (h.check.Measured? ==>
            Required(cfg, h, h.check.want) == cfg.reserveMiB + h.pendingMiB + Budget(cfg, h.check.want))
  {
    var h0 := Booted(available);
    BootedIsSound(cfg, available);
    RunKeepsBudget(cfg, h0, actions);
    var h := After(cfg, h0, actions);
    forall id | id in h.pending ensures h.pending[id] <= h.pendingMiB {
      SumSplits(h.pending, id);
    }
    if h.check.Measured? { RequirementExact(cfg, h); }
  }

  /** If every slot is given up only once its VM has touched its memory, and no start outlives its
      manager, admitted boots never push the host below its reserve: from the first admission on, what
      is available covers the reserve and everything the pending VMs may still take. */
  lemma ReserveNeverTouched(cfg: Config, available: int, actions: seq<Action>)
    requires Bounded(cfg) && Runs(cfg, Booted(available), actions) && AllSettled(cfg, Booted(available), actions)
    ensures var h := After(cfg, Booted(available), actions);
      h.pending != map[] || h.memory != map[] ==> h.available >= cfg.reserveMiB + Debt(h)
  {
    var h0 := Booted(available);
    BootedIsSound(cfg, available);
    RunKeepsBudget(cfg, h0, actions);
  }
}
