/** What the machine guarantees in every reachable state and over every run. */
module LifecycleTheorems {
  import opened Records
  import opened StoreSpec
  import opened Lifecycle
  import opened LifecycleInvariant
  import opened LifecycleEffects

  /** In every reachable state the indexes are exact, a held slot names a record of its user, and
      every subscriber that replays a channel sees exactly the user's records. */
  lemma ProjectionCoherent(w: World)
    requires Reachable(w)
    ensures IndexesAgree(w.db) && SlotsNameRecords(w.db)
    ensures forall u :: Replay(w.db.log, u) == RecordsOf(w.db, u)
  {
    ReachableInv(w);
  }

  // ---- what a run ever comes to, and what it ever does ----

  ghost predicate Ever(p: World -> bool, w: World, actions: seq<Action>)
    requires Runs(w, actions)
    decreases |actions|
  {
    p(w) || (actions != [] && Ever(p, Next(w, actions[0]), actions[1..]))
  }

  ghost predicate EverDone(q: (World, Action) -> bool, w: World, actions: seq<Action>)
    requires Runs(w, actions)
    decreases |actions|
  {
    actions != [] && (q(w, actions[0]) || EverDone(q, Next(w, actions[0]), actions[1..]))
  }

  /** Where p does not hold, exactly the actions q bring it about. */
  ghost predicate BeginsExactly(p: World -> bool, q: (World, Action) -> bool) {
    forall w, a :: Inv(w) && Enabled(w, a) && !p(w) ==> (p(Next(w, a)) <==> q(w, a))
  }

  lemma {:induction false} RunBegins(p: World -> bool, q: (World, Action) -> bool, w: World, actions: seq<Action>)
    requires BeginsExactly(p, q) && Inv(w) && Runs(w, actions) && !p(w)
    ensures Ever(p, w, actions) <==> EverDone(q, w, actions)
    ensures p(After(w, actions)) ==> Ever(p, w, actions)
    decreases |actions|
  {
    if actions == [] {
      assert After(w, actions) == w;
    } else {
      var w' := Next(w, actions[0]);
      NextKeepsInv(w, actions[0]);
      if !p(w') {
        RunBegins(p, q, w', actions[1..]);
      }
    }
  }

  // ---- live VMs and slots ----

  predicate SameUser(w: World, a: Id, b: Id) {
    a in w.born && b in w.born && w.born[a].user == w.born[b].user
  }

  ghost function IsOrphan(id: Id): World -> bool {
    (w: World) => Orphan(w, id)
  }

  ghost function MakesOrphan(id: Id): (World, Action) -> bool {
    (w: World, a: Action) => Orphans(w, a, id)
  }

  /** A live VM outside its Create loses its slot exactly when a refused commit's teardown leaves it
      behind slotless, the delete script runs over it, the manager crashes while it is slotless and in
      flight, or its start outlives the manager and the slot. */
  lemma OrphanBeginsExactly(w: World, a: Action, id: Id)
    requires Inv(w) && Enabled(w, a) && !Orphan(w, id)
    ensures Orphan(Next(w, a), id) <==> Orphans(w, a, id)
    ensures a == Crash && Orphans(w, a, id) ==> id in w.flights
    ensures ErasesLive(w, a, id) ==> Holds(w, id) && (id in w.marks.left || id in w.marks.stale)
  {
    assert CoreFor(w, id);
    if a.Go? {
      assert ThreadOk(w, w.threads[a.t]);
      StepSlotEffects(w, a.t, a.ans, id);
    }
  }

  /** Over every run from the start, a live VM whose Create is over owns its user's slot, if and only
      if no action of the run makes it an orphan in one of these ways. */
  lemma LiveVmsKeepSlots(actions: seq<Action>, id: Id)
    requires Runs(INITIAL, actions)
    ensures Ever(IsOrphan(id), INITIAL, actions) <==> EverDone(MakesOrphan(id), INITIAL, actions)
  {
    forall w, a | Inv(w) && Enabled(w, a) && !IsOrphan(id)(w)
      ensures IsOrphan(id)(Next(w, a)) <==> MakesOrphan(id)(w, a)
    {
      OrphanBeginsExactly(w, a, id);
    }
    InitialInv();
    RunBegins(IsOrphan(id), MakesOrphan(id), INITIAL, actions);
  }

  /** A live VM owns its user's slot, unless its own Create call is still in flight or it is an orphan,
      which only VMs left behind or set back by an attach become; and of two live VMs of one user one
      is in flight or an orphan. */
  lemma LiveVmsOwnSlots(w: World)
    requires Reachable(w)
    ensures forall id :: Orphan(w, id) ==> id in w.marks.left || id in w.marks.stale
    ensures forall id :: id in w.flights ==> exists t :: InFlight(w, t, id)
    ensures forall a, b :: a in w.vms && b in w.vms && SameUser(w, a, b) && a != b ==>
      a in w.flights || Orphan(w, a) || b in w.flights || Orphan(w, b)
  {
    ReachableInv(w);
    forall id | Orphan(w, id) ensures id in w.marks.left || id in w.marks.stale {
      assert CoreFor(w, id);
    }
    forall id | id in w.flights ensures exists t :: InFlight(w, t, id) {
      assert CoreFor(w, id);
      assert InFlight(w, w.flights[id], id);
    }
  }

  // ---- where the exceptions come from ----

  /** A VM is left behind exactly by a Create that could not confirm the death of the VM whose commit
      was refused, by a crash that finds it slotless, or by a start that outlives the manager. */
  lemma LeftExplained(w: World, a: Action, id: Id)
    requires Inv(w) && Enabled(w, a) && id !in w.marks.left
    ensures id in Next(w, a).marks.left <==>
      CannotUndo(w, a, id) || (a == Crash && id in w.vms && !Holds(w, id)) || a == LateBoot(id)
    ensures a == Crash && id in Next(w, a).marks.left ==> id in w.flights || id in w.marks.stale
  {
    assert CoreFor(w, id);
    if a.Go? { StepEffects(w, a.t, a.ans, id); }
  }

  /** A record is stranded exactly by a failed Create that frees its slot after its Put failed; an id
      is unpersisted exactly from the failed Put of a reaper that went on regardless, unsure from a
      mark or commit whose success went unreported, and stale from the Put that sets it back. */
  lemma OtherExceptionsExplained(w: World, a: Action, id: Id)
    requires Inv(w) && Enabled(w, a)
    ensures id !in w.marks.stranded ==> (id in Next(w, a).marks.stranded <==> Strands(w, a, id))
    ensures id !in w.marks.unpersisted ==> (id in Next(w, a).marks.unpersisted <==> CannotPersist(w, a, id))
    ensures id !in w.marks.unsure ==> (id in Next(w, a).marks.unsure <==> HidesMark(w, a, id) || HidesCommit(w, a, id))
    ensures id !in w.marks.stale ==> (id in Next(w, a).marks.stale <==> SetsBack(w, a, id))
  {
    if a.Go? { StepEffects(w, a.t, a.ans, id); }
  }

  // ---- records ----

  ghost function IsSlotless(id: Id): World -> bool {
    (w: World) => Slotless(w, id)
  }

  ghost function MakesSlotless(id: Id): (World, Action) -> bool {
    (w: World, a: Action) => Unslots(w, a, id)
  }

  /** A live record loses its slot exactly when a failed Create frees it under the record, or an attach
      brings a dead record back whose slot is gone. */
  lemma SlotlessBeginsExactly(w: World, a: Action, id: Id)
    requires Inv(w) && Enabled(w, a) && !Slotless(w, id)
    ensures Slotless(Next(w, a), id) <==> Unslots(w, a, id)
  {
    if a.Go? { StepSlotEffects(w, a.t, a.ans, id); }
  }

  /** Over every run from the start, a `creating` or `running` record owns its user's slot, if and only
      if no action of the run does one of these two; and without, each user has at most one. */
  lemma LiveRecordsKeepSlots(actions: seq<Action>, id: Id)
    requires Runs(INITIAL, actions)
    ensures Ever(IsSlotless(id), INITIAL, actions) <==> EverDone(MakesSlotless(id), INITIAL, actions)
  {
    forall w, a | Inv(w) && Enabled(w, a) && !IsSlotless(id)(w)
      ensures IsSlotless(id)(Next(w, a)) <==> MakesSlotless(id)(w, a)
    {
      SlotlessBeginsExactly(w, a, id);
    }
    InitialInv();
    RunBegins(IsSlotless(id), MakesSlotless(id), INITIAL, actions);
  }

  /** Of two live records of one user one is slotless. Unless an attach has set it back, a live record
      is slotless exactly when it is stranded, and a stranded id never has a slot. */
  lemma OneLiveRecordPerUser(w: World)
    requires Reachable(w)
    ensures forall a, b ::
      LiveRecord(w.db, a) && LiveRecord(w.db, b) && w.db.records[a].user == w.db.records[b].user && a != b ==>
      Slotless(w, a) || Slotless(w, b)
    ensures forall id :: LiveRecord(w.db, id) && id !in w.marks.stale ==> (Slotless(w, id) <==> id in w.marks.stranded)
    ensures forall id, u :: id in w.marks.stranded ==> !HoldsSlot(w.db, u, id)
  {
    ReachableInv(w);
    forall id, u | id in w.marks.stranded ensures !HoldsSlot(w.db, u, id) {
      assert CoreFor(w, id);
    }
    forall id | LiveRecord(w.db, id) && id !in w.marks.stale ensures Slotless(w, id) <==> id in w.marks.stranded {
      assert CoreFor(w, id);
    }
  }

  /** Nothing but the Put of an attach whose copy is behind ever sets a record back, and such a Put
      always does. */
  lemma SetBackExactly(w: World, a: Action, id: Id)
    requires Reachable(w) && Enabled(w, a) && id in w.reserved
    ensures RankOf(Next(w, a).db, id) < RankOf(w.db, id) <==> SetsBack(w, a, id)
  {
    ReachableInv(w);
    if a.Go? { StepEffects(w, a.t, a.ans, id); }
  }

  /** Over any run a record whose id is not set back only moves onward: from `creating` to `running`
      to its end. */
  lemma {:induction false} RecordsMoveOnward(w: World, actions: seq<Action>, id: Id)
    requires Inv(w) && Runs(w, actions) && id in w.reserved
    ensures id in w.marks.stale ==> id in After(w, actions).marks.stale
    ensures id !in After(w, actions).marks.stale ==> RankOf(w.db, id) <= RankOf(After(w, actions).db, id)
    decreases |actions|
  {
    if actions == [] {
      assert After(w, actions) == w;
    } else {
      NextKeepsInv(w, actions[0]);
      assert OnwardFor(w, Next(w, actions[0]), id);
      RecordsMoveOnward(Next(w, actions[0]), actions[1..], id);
    }
  }

  lemma RevivedExactly(w: World, a: Action, id: Id)
    requires Inv(w) && Enabled(w, a) && id in w.reserved && !LiveRecord(w.db, id)
    ensures LiveRecord(Next(w, a).db, id) <==> Revives(w, a, id)
  {
    if a.Go? { StepEffects(w, a.t, a.ans, id); }
  }

  ghost function IsLive(id: Id): World -> bool {
    (w: World) => LiveRecord(w.db, id)
  }

  ghost function BringsBack(id: Id): (World, Action) -> bool {
    (w: World, a: Action) => Revives(w, a, id)
  }

  lemma {:induction false} RunRevives(w: World, actions: seq<Action>, id: Id)
    requires Inv(w) && Runs(w, actions) && id in w.reserved && !LiveRecord(w.db, id)
    ensures Ever(IsLive(id), w, actions) <==> EverDone(BringsBack(id), w, actions)
    decreases |actions|
  {
    if actions == [] {
      assert !IsLive(id)(w);
    } else {
      var w' := Next(w, actions[0]);
      NextKeepsInv(w, actions[0]);
      assert OnwardFor(w, w', id);
      RevivedExactly(w, actions[0], id);
      if !LiveRecord(w'.db, id) {
        RunRevives(w', actions[1..], id);
      }
    }
  }

  /** Once an id has been deleted, or has left `creating` without committing, it is never `creating`
      or `running` again, over any run, if and only if no attach in that run stores a live copy over
      it; the stale Puts of a Delete or of a failed Create bring it back as terminating or error at
      most. */
  lemma NeverRunsAgain(w: World, actions: seq<Action>, id: Id)
    requires Reachable(w) && Runs(w, actions) && id in w.reserved && !LiveRecord(w.db, id)
    ensures Ever(IsLive(id), w, actions) <==> EverDone(BringsBack(id), w, actions)
  {
    ReachableInv(w);
    RunRevives(w, actions, id);
  }

  // ---- reapers and deadlines ----

  /** A reaper goes on to tear down exactly a sandbox whose VM is definitely not live and whose copy was
      `running`, or `creating` or `terminating` and last active at least five minutes ago. */
  lemma ReaperPassesExactly(w: World, t: nat, sb: Sandbox, ans: Answer)
    requires t in w.threads && w.threads[t] == RCheck(sb) && sb.state != Error
    ensures Step(w, t, ans) == (
      if ans.ok && sb.id !in w.vms
         && (sb.state == Running
             || ((sb.state == Creating || sb.state == Terminating) && w.now - sb.lastActivity >= 300000))
      then To(w, t, RMark(sb)) else End(w, t))
  {}

  /** The sweep goes on to delete exactly a container at least ten minutes old whose VM is not running. */
  lemma SweepPassesExactly(w: World, t: nat, id: Id, ans: Answer)
    requires t in w.threads && w.threads[t] == KCheck(id)
    ensures Step(w, t, ans) == (
      if ans.ok && id in w.boxes && w.now - w.boxes[id] >= 600000 && id !in w.vms
      then To(w, t, KDelete(id)) else End(w, t))
  {}

  /** So a reaper acts on a record it read as `creating`, and the sweep deletes a container, only when
      the five minutes of that sandbox's Create are over. */
  lemma ReapersWaitForDeadlines(w: World, t: nat, ans: Answer)
    requires Reachable(w) && t in w.threads
    ensures w.threads[t].RCheck? && w.threads[t].sb.state == Creating
      && t in Step(w, t, ans).threads && Step(w, t, ans).threads[t].RMark?
      ==> w.threads[t].sb.id in w.born && w.now >= w.born[w.threads[t].sb.id].start + 300000
    ensures w.threads[t].KDelete? ==> w.threads[t].id in w.born && w.now >= w.born[w.threads[t].id].start + 300000
  {
    ReachableInv(w);
    assert ThreadOk(w, w.threads[t]);
    if w.threads[t].RCheck? && w.threads[t].sb.state != Error { ReaperPassesExactly(w, t, w.threads[t].sb, ans); }
  }

  /** The sandbox a thread is tearing down. */
  function TearsDown(th: Thread): Option<Id> {
    match th
    case DClose(id) => Some(id)
    case RMark(sb) => Some(sb.id)
    case RClose(id) => Some(id)
    case TVm(id) => Some(id)
    case TRead(id) => Some(id)
    case TErase(id) => Some(id)
    case _ => None
  }

  /** No teardown, once past its check, races a commit: whatever happens afterwards, the sandbox
      does not start to run, unless an attach sets its record back. */
  lemma TeardownNeverRacesCommit(w: World, t: nat, actions: seq<Action>, id: Id)
    requires Reachable(w) && t in w.threads && TearsDown(w.threads[t]) == Some(id)
    requires Runs(w, actions) && !StateIs(w.db, id, Running)
    ensures id !in After(w, actions).marks.stale ==> !StateIs(After(w, actions).db, id, Running)
  {
    ReachableInv(w);
    assert ThreadOk(w, w.threads[t]);
    assert CoreFor(w, id);
    NoCommitForever(w, actions, id);
  }

  lemma {:induction false} NoCommitForever(w: World, actions: seq<Action>, id: Id)
    requires Inv(w) && Runs(w, actions) && NoCommit(w, id)
    requires id in w.marks.stale || !StateIs(w.db, id, Running)
    ensures NoCommit(After(w, actions), id)
    ensures id in After(w, actions).marks.stale || !StateIs(After(w, actions).db, id, Running)
    decreases |actions|
  {
    if actions == [] {
      assert After(w, actions) == w;
    } else {
      NextKeepsInv(w, actions[0]);
      assert OnwardFor(w, Next(w, actions[0]), id);
      NoCommitForever(Next(w, actions[0]), actions[1..], id);
    }
  }

  // ---- listeners ----

  /** A listener that should not be there. */
  predicate Stray(w: World, id: Id) {
    id in w.listeners && !StateIs(w.db, id, Running)
  }

  ghost predicate Attended(w: World, id: Id) {
    exists t :: AttendedBy(w, t, id)
  }

  /** A listener that should not be there and that nobody is about to close. */
  ghost predicate Leaked(w: World, id: Id) {
    Stray(w, id) && !Attended(w, id)
  }

  /** It drops a running record under an open listener that nobody attends. */
  ghost predicate Leaks(w: World, a: Action, id: Id) {
    Drops(w, a, id) && id in w.listeners && !Attended(w, id)
  }

  lemma OthersStillAttend(w: World, w': World, t: nat, id: Id)
    requires w'.threads - {t} == w.threads - {t}
    ensures forall t0 :: t0 != t ==> (AttendedBy(w', t0, id) <==> AttendedBy(w, t0, id))
  {
    forall t0 | t0 != t ensures AttendedBy(w', t0, id) <==> AttendedBy(w, t0, id) {
      assert t0 in w.threads <==> t0 in w.threads - {t};
      assert t0 in w'.threads <==> t0 in w'.threads - {t};
      if t0 in w.threads { assert (w'.threads - {t})[t0] == (w.threads - {t})[t0]; }
    }
  }

  /** A drop leaves the thread that made it, and every listener, out of the matter. */
  lemma DropEffect(w: World, t: nat, ans: Answer, id: Id)
    requires Inv(w) && t in w.threads && Drops(w, Go(t, ans), id)
    ensures var w' := Step(w, t, ans);
      w'.listeners == w.listeners && !StateIs(w'.db, id, Running) && t !in w'.threads
    ensures !AttendedBy(w, t, id)
  {
    assert ThreadOk(w, w.threads[t]);
  }

  lemma StepLeaks(w: World, w': World, t: nat, ans: Answer, id: Id)
    requires Effects(w, w', t, ans, id)
    requires Drops(w, Go(t, ans), id) ==>
      w'.listeners == w.listeners && !StateIs(w'.db, id, Running) && t !in w'.threads && !AttendedBy(w, t, id)
    requires !Leaked(w, id)
    ensures Leaked(w', id) <==> Leaks(w, Go(t, ans), id)
  {
    OthersStillAttend(w, w', t, id);
    if Attended(w, id) {
      var t0 :| AttendedBy(w, t0, id);
      if t0 != t { assert AttendedBy(w', t0, id); }
    }
  }

  /** An action that moves no thread leaves the records, the listeners and those who attend them. */
  lemma AsideLeaks(w: World, a: Action, id: Id)
    requires Enabled(w, a) && !a.Go? && !Leaked(w, id)
    ensures !Leaked(Next(w, a), id)
  {
    var w' := Next(w, a);
    assert w'.db == w.db;
    if Attended(w, id) && !a.Crash? {
      var t :| AttendedBy(w, t, id);
      assert AttendedBy(w', t, id);
    }
  }

  /** A listener leaks exactly at an action that drops its running record while nobody attends it. */
  lemma LeakBeginsExactly(w: World, a: Action, id: Id)
    requires Inv(w) && Enabled(w, a) && !Leaked(w, id)
    ensures Leaked(Next(w, a), id) <==> Leaks(w, a, id)
  {
    if a.Go? {
      StepEffects(w, a.t, a.ans, id);
      if Drops(w, a, id) { DropEffect(w, a.t, a.ans, id); }
      StepLeaks(w, Step(w, a.t, a.ans), a.t, a.ans, id);
    } else {
      AsideLeaks(w, a, id);
    }
  }

  ghost function IsLeaked(id: Id): World -> bool {
    (w: World) => Leaked(w, id)
  }

  ghost function MakesLeak(id: Id): (World, Action) -> bool {
    (w: World, a: Action) => Leaks(w, a, id)
  }

  /** Over every run from the start, a listener of a sandbox that is not `running` is attended by a
      thread that will close it or re-read the record, if and only if no action of the run drops the
      running record under an unattended listener. So a run without such an action that ends with no
      thread left ends with listeners only for running sandboxes. */
  lemma ListenersOnlyForRunning(actions: seq<Action>, id: Id)
    requires Runs(INITIAL, actions)
    ensures Ever(IsLeaked(id), INITIAL, actions) <==> EverDone(MakesLeak(id), INITIAL, actions)
    ensures After(INITIAL, actions).threads == map[] && Stray(After(INITIAL, actions), id) ==>
      EverDone(MakesLeak(id), INITIAL, actions)
  {
    forall w, a | Inv(w) && Enabled(w, a) && !IsLeaked(id)(w)
      ensures IsLeaked(id)(Next(w, a)) <==> MakesLeak(id)(w, a)
    {
      LeakBeginsExactly(w, a, id);
    }
    InitialInv();
    RunBegins(IsLeaked(id), MakesLeak(id), INITIAL, actions);
  }

  /** A running record is dropped only in the teardown of a dead VM whose error could not be stored,
      once an attach has set the record back, or after a mark or commit whose success went
      unreported. */
  lemma DropsExplained(w: World, a: Action, id: Id)
    requires Inv(w) && Enabled(w, a) && Drops(w, a, id)
    ensures id in w.marks.unpersisted || id in Next(w, a).marks.unsure || id in Next(w, a).marks.stale
  {
    assert ThreadOk(w, w.threads[a.t]);
  }

  ghost predicate LeaksExcused(w: World) {
    forall id :: Leaked(w, id) ==> id in w.marks.unpersisted || id in w.marks.unsure || id in w.marks.stale
  }

  lemma {:induction false} RunExcusesLeaks(w: World, actions: seq<Action>)
    requires Inv(w) && LeaksExcused(w) && Runs(w, actions)
    ensures LeaksExcused(After(w, actions))
    decreases |actions|
  {
    if actions == [] {
      assert After(w, actions) == w;
    } else {
      var w' := Next(w, actions[0]);
      NextKeepsInv(w, actions[0]);
      forall id | Leaked(w', id) ensures id in w'.marks.unpersisted || id in w'.marks.unsure || id in w'.marks.stale {
        assert OnwardFor(w, w', id);
        if !Leaked(w, id) {
          LeakBeginsExactly(w, actions[0], id);
          DropsExplained(w, actions[0], id);
        }
      }
      RunExcusesLeaks(w', actions[1..]);
    }
  }

  /** Where every reaper could store its error, no success went unreported and no attach set a record
      back, no listener leaks. */
  lemma LeaksHaveThreeCauses(w: World)
    requires Reachable(w)
    ensures forall id :: Leaked(w, id) ==> id in w.marks.unpersisted || id in w.marks.unsure || id in w.marks.stale
  {
    var actions :| Runs(INITIAL, actions) && After(INITIAL, actions) == w;
    InitialInv();
    RunExcusesLeaks(INITIAL, actions);
  }
}
