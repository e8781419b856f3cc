/** What every step of the machine keeps. Each step is shown to obey a relation, Later, that every
    other thread can rely on; what a thread knows survives every Later step of the others. A sandbox
    whose record an attach has set back keeps its shape but loses the guarantees about its state. */
module LifecycleInvariant {
  import opened Records
  import opened StoreSpec
  import opened Lifecycle

  // ---- facts about one sandbox ----

  predicate Holds(w: World, id: Id) {
    id in w.born && HoldsSlot(w.db, w.born[id].user, id)
  }

  /** Reserved once, and by now deleted, terminating or failed. */
  predicate Past(w: World, id: Id) {
    id in w.reserved && (id in w.marks.stale || RankOf(w.db, id) == 2)
  }

  /** The commit of this id's Create can no longer succeed. */
  predicate NoCommit(w: World, id: Id) {
    && id in w.born && id in w.reserved
    && (id in w.marks.stale || (StateIs(w.db, id, Creating) ==> w.now >= Deadline(w, id) || id !in w.flights))
  }

  predicate Ours(w: World, sb: Sandbox) {
    sb.id in w.born && w.born[sb.id].user == sb.user
  }

  predicate Flies(w: World, id: Id, t: nat) {
    id in w.flights && w.flights[id] == t
  }

  /** The Create of this id stands at a stage. */
  predicate FliesAt(w: World, id: Id, at: Stage) {
    && id in w.flights && w.flights[id] in w.threads
    && w.threads[w.flights[id]].Create? && w.threads[w.flights[id]].at == at
  }

  /** Its Create call is over, or has had its say on the record. */
  predicate Landing(w: World, id: Id) {
    id !in w.flights || FliesAt(w, id, Undo)
  }

  // ---- the invariant ----

  ghost predicate ShapeFor(w: World, id: Id) {
    && (id in w.reserved ==> id in w.born)
    && (id in w.vms || id in w.db.records || id in w.starting || id in w.marks.stale ==> id in w.reserved)
    && (id in w.db.records ==> w.db.records[id].id == id && Ours(w, w.db.records[id]))
    && (StateIs(w.db, id, Creating) ==> w.db.records[id].lastActivity >= w.born[id].start)
    && (id in w.boxes ==> id in w.born && w.boxes[id] >= w.born[id].start)
    && (id in w.born ==> w.born[id].start <= w.now)
    && (forall u :: HoldsSlot(w.db, u, id) ==> id in w.db.records && w.db.records[id].user == u)
    && (id in w.flights ==>
          id in w.born && w.flights[id] in w.threads
          && w.threads[w.flights[id]].Create? && w.threads[w.flights[id]].sb.id == id
          && (StateIs(w.db, id, Running) ==> FliesAt(w, id, Undo)))
    && (id in w.starting ==> id !in w.flights)
    && (id in w.marks.stranded ==> id in w.reserved && !Holds(w, id))
  }

  /** A live VM owns its user's slot, unless its Create is in flight or it was left behind. */
  predicate LiveVmHolds(w: World, id: Id) {
    id in w.vms ==> Holds(w, id) || id in w.flights || id in w.marks.left
  }

  /** A `creating` or `running` record owns its user's slot, unless it is stranded. */
  predicate LiveRecordHolds(w: World, id: Id) {
    LiveRecord(w.db, id) && id !in w.marks.stranded ==> Holds(w, id)
  }

  ghost predicate CoreFor(w: World, id: Id) {
    ShapeFor(w, id) && (id in w.marks.stale || (LiveVmHolds(w, id) && LiveRecordHolds(w, id)))
  }

  ghost predicate Core(w: World) {
    && (forall id :: CoreFor(w, id))
    && (forall t :: t in w.threads && w.threads[t].Create? ==> Flies(w, w.threads[t].sb.id, t))
  }

  predicate CreateOk(w: World, sb: Sandbox, at: Stage) {
    && sb.state == Creating && Ours(w, sb) && sb.lastActivity >= w.born[sb.id].start
    && (at.Begin? || at.Claim? || at.Retry? <==> sb.id !in w.reserved)
    && (at.Booted? || at.Undo? || sb.id !in w.vms)
    && (at == Free(true) ==> Past(w, sb.id))
    && (StateIs(w.db, sb.id, Running) ==> sb.id in w.marks.unsure || sb.id in w.marks.stale)
  }

  /** What is true of a record read some time ago: it can only have moved on since. */
  predicate CopyOk(w: World, sb: Sandbox) {
    && sb.id in w.reserved && Ours(w, sb)
    && (sb.state == Creating ==> sb.lastActivity >= w.born[sb.id].start)
    && (sb.state == Running ==> Landing(w, sb.id))
    && (sb.id in w.marks.stale || Rank(sb.state) <= RankOf(w.db, sb.id))
  }

  predicate TeardownOk(w: World, id: Id) {
    && NoCommit(w, id)
    && (StateIs(w.db, id, Running) ==> id in w.marks.unpersisted || id in w.marks.unsure || id in w.marks.stale)
  }

  /** No VM will outlive this teardown but one that is accounted for. */
  predicate VmSettled(w: World, id: Id) {
    id in w.vms ==> id in w.flights || id in w.marks.left || id in w.marks.stale
  }

  predicate ThreadOk(w: World, th: Thread) {
    match th
    case Create(sb, at) => CreateOk(w, sb, at)
    case DMark(sb) => sb.id in w.reserved && Ours(w, sb) && sb.state == Terminating
    case DClose(id) => id in w.born && Past(w, id)
    case RRead(id) => id in w.reserved
    case RCheck(sb) => CopyOk(w, sb)
    case RMark(sb) => Ours(w, sb) && NoCommit(w, sb.id)
    case RClose(id) => TeardownOk(w, id)
    case RMissing(id) => id in w.born && id in w.reserved && !Holds(w, id)
    case RRelease(id) => id in w.born && id in w.reserved && !Holds(w, id)
    case TVm(id) => TeardownOk(w, id)
    case TRead(id) => TeardownOk(w, id) && VmSettled(w, id)
    case TErase(id) => TeardownOk(w, id) && VmSettled(w, id)
    case AWrite(sb) => CopyOk(w, sb)
    case KDelete(id) => id in w.born && w.now >= Deadline(w, id)
    case _ => true
  }

  ghost predicate ThreadsOk(w: World) {
    forall t :: t in w.threads ==> ThreadOk(w, w.threads[t])
  }

  ghost predicate Inv(w: World) {
    Coherent(w.db) && Core(w) && ThreadsOk(w)
  }

  // ---- what a step may do to the sandboxes of others ----

  ghost predicate OnwardFor(w: World, w': World, id: Id) {
    && (id in w.born ==> id in w'.born && w'.born[id] == w.born[id])
    && (id in w.born && id in w'.flights ==> id in w.flights && w'.flights[id] == w.flights[id])
    && (id in w.reserved ==> id in w'.reserved)
    && (id in w.born && Landing(w, id) ==> Landing(w', id))
    && (id in w'.reserved && id !in w.reserved ==> FliesAt(w', id, Prep) || id !in w'.flights)
    && (id in w.marks.stale ==> id in w'.marks.stale)
    && (id in w.reserved && id !in w'.marks.stale ==> RankOf(w.db, id) <= RankOf(w'.db, id))
    && (StateIs(w'.db, id, Running) && !StateIs(w.db, id, Running) && id !in w'.marks.stale ==>
          StateIs(w.db, id, Creating) && !Landing(w, id) && Landing(w', id)
          && id in w.born && w.now < Deadline(w, id))
    && (id in w.reserved && !Holds(w, id) ==> !Holds(w', id))
    && (id in w.marks.unpersisted ==> id in w'.marks.unpersisted)
    && (id in w.marks.unsure ==> id in w'.marks.unsure)
    && (id in w.marks.stranded ==> id in w'.marks.stranded)
    && (id in w.marks.left ==> id in w'.marks.left)
    && (id in w'.vms && id !in w.vms ==> FliesAt(w', id, Booted) || (id in w.starting && id in w'.marks.left))
  }

  /** A crash drops every thread, so only then may a flight end without a verdict on its VM. */
  ghost predicate LaterFor(w: World, w': World, id: Id) {
    && OnwardFor(w, w', id)
    && (id in w'.vms && id in w.flights && id !in w'.flights ==>
          id in w'.marks.left || (StateIs(w.db, id, Creating) && id in w.born && w.now < Deadline(w, id)))
  }

  ghost predicate Onward(w: World, w': World) {
    w.now <= w'.now && forall id :: OnwardFor(w, w', id)
  }

  ghost predicate Later(w: World, w': World) {
    w.now <= w'.now && forall id :: LaterFor(w, w', id)
  }

  lemma KnowledgeKept(w: World, w': World, th: Thread)
    requires Later(w, w') && !th.Create? && ThreadOk(w, th)
    ensures ThreadOk(w', th)
  {
    if th.DMark? || th.RCheck? || th.RMark? || th.AWrite? {
      assert LaterFor(w, w', th.sb.id);
    } else if !th.Pass? {
      assert LaterFor(w, w', th.id);
    }
  }

  /** A thread that did not move keeps what it knows. */
  lemma ThreadKept(w: World, w': World, t: nat)
    requires Core(w) && Core(w') && Later(w, w')
    requires t in w.threads && t in w'.threads && w.threads[t] == w'.threads[t]
    requires ThreadOk(w, w.threads[t])
    ensures ThreadOk(w', w.threads[t])
  {
    var th := w.threads[t];
    if th.Create? {
      assert Flies(w', th.sb.id, t) && CoreFor(w, th.sb.id);
      assert LaterFor(w, w', th.sb.id);
    } else {
      KnowledgeKept(w, w', th);
    }
  }

  // ---- each step ----

  /** The slots stand still, except that of sandbox id. */
  ghost predicate SlotsAside(db: Db, db': Db, id: Id) {
    forall u, x :: x != id ==> (HoldsSlot(db', u, x) <==> HoldsSlot(db, u, x))
  }

  ghost predicate DbAside(db: Db, db': Db, id: Id) {
    && db'.records - {id} == db.records - {id}
    && SlotsAside(db, db', id)
  }

  lemma PutAside(db: Db, sb: Sandbox)
    ensures DbAside(db, Put(db, sb), sb.id) && DbAside(db, PutRunning(db, sb), sb.id)
    ensures forall u :: HoldsSlot(Put(db, sb), u, sb.id) <==> HoldsSlot(db, u, sb.id)
    ensures forall u :: HoldsSlot(PutRunning(db, sb), u, sb.id) <==> HoldsSlot(db, u, sb.id)
  {}

  lemma ReserveAside(db: Db, sb: Sandbox)
    requires sb.user !in db.slots
    ensures DbAside(db, Reserve(db, sb), sb.id)
    ensures forall u :: HoldsSlot(Reserve(db, sb), u, sb.id) <==> u == sb.user || HoldsSlot(db, u, sb.id)
  {}

  lemma ReleaseAside(db: Db, user: User, id: Id)
    ensures DbAside(db, Release(db, user, id), id)
    ensures forall u :: HoldsSlot(Release(db, user, id), u, id) <==> u != user && HoldsSlot(db, u, id)
  {}

  lemma EraseAside(db: Db, user: User, id: Id)
    ensures DbAside(db, Erase(db, user, id), id)
    ensures forall u :: HoldsSlot(Erase(db, user, id), u, id) <==> u != user && HoldsSlot(db, u, id)
  {}

  /** Nothing but sandbox id and thread t differs. */
  ghost predicate Aside(w: World, w': World, id: Id, t: nat) {
    && w'.now == w.now && w'.born == w.born
    && DbAside(w.db, w'.db, id)
    && w'.vms - {id} == w.vms - {id}
    && w'.boxes - {id} == w.boxes - {id}
    && w'.reserved - {id} == w.reserved - {id}
    && w'.flights - {id} == w.flights - {id}
    && w'.starting - {id} == w.starting - {id}
    && w'.marks.left - {id} == w.marks.left - {id}
    && w'.marks.stranded - {id} == w.marks.stranded - {id}
    && w'.marks.unpersisted - {id} == w.marks.unpersisted - {id}
    && w'.marks.unsure - {id} == w.marks.unsure - {id}
    && w'.marks.stale - {id} == w.marks.stale - {id}
    && w'.threads - {t} == w.threads - {t}
    && (t in w.threads && w.threads[t].Create? ==> w.threads[t].sb.id == id)
    && (t in w'.threads && w'.threads[t].Create? ==> Flies(w', id, t) && w'.threads[t].sb.id == id)
  }

  lemma OthersAside(w: World, w': World, id: Id, t: nat, x: Id)
    requires Core(w) && Aside(w, w', id, t) && x != id
    ensures CoreFor(w', x) && LaterFor(w, w', x)
    ensures forall f :: Flies(w', x, f) <==> Flies(w, x, f)
  {
    assert CoreFor(w, x);
    assert x in w'.db.records <==> x in w'.db.records - {id};
    assert x in w.db.records <==> x in w.db.records - {id};
    assert x in w.db.records ==> (w'.db.records - {id})[x] == (w.db.records - {id})[x];
    assert x in w'.vms <==> x in w'.vms - {id};
    assert x in w.vms <==> x in w.vms - {id};
    assert x in w'.boxes <==> x in w'.boxes - {id};
    assert x in w.boxes <==> x in w.boxes - {id};
    assert x in w.boxes ==> (w'.boxes - {id})[x] == (w.boxes - {id})[x];
    assert x in w'.reserved <==> x in w'.reserved - {id};
    assert x in w.reserved <==> x in w.reserved - {id};
    assert x in w'.flights <==> x in w'.flights - {id};
    assert x in w.flights <==> x in w.flights - {id};
    assert x in w.flights ==> (w'.flights - {id})[x] == (w.flights - {id})[x];
    assert x in w'.starting <==> x in w'.starting - {id};
    assert x in w.starting <==> x in w.starting - {id};
    assert x in w'.marks.left <==> x in w'.marks.left - {id};
    assert x in w.marks.left <==> x in w.marks.left - {id};
    assert x in w'.marks.unsure <==> x in w'.marks.unsure - {id};
    assert x in w.marks.unsure <==> x in w.marks.unsure - {id};
    assert x in w'.marks.stale <==> x in w'.marks.stale - {id};
    assert x in w.marks.stale <==> x in w.marks.stale - {id};
    assert x in w'.marks.stranded <==> x in w'.marks.stranded - {id};
    assert x in w.marks.stranded <==> x in w.marks.stranded - {id};
    assert x in w'.marks.unpersisted <==> x in w'.marks.unpersisted - {id};
    assert x in w.marks.unpersisted <==> x in w.marks.unpersisted - {id};
    if x in w.flights {
      var f := w.flights[x];
      assert f != t;
      assert f in w.threads - {t};
      assert (w'.threads - {t})[f] == (w.threads - {t})[f];
    }
  }

  /** A step beside which everything else stands still has only its own sandbox to account for. */
  lemma AsideSuffices(w: World, w': World, id: Id, t: nat)
    requires Core(w) && Aside(w, w', id, t)
    requires CoreFor(w', id) && LaterFor(w, w', id)
    requires w'.flights == w.flights || id !in w.flights || Flies(w, id, t)
    ensures Core(w') && Later(w, w')
  {
    forall x ensures CoreFor(w', x) && LaterFor(w, w', x) {
      if x != id {
        OthersAside(w, w', id, t, x);
      }
    }
    forall t' | t' in w'.threads && w'.threads[t'].Create? ensures Flies(w', w'.threads[t'].sb.id, t') {
      if t' != t {
        assert t' in w'.threads - {t};
        assert (w'.threads - {t})[t'] == (w.threads - {t})[t'];
        var x := w.threads[t'].sb.id;
        assert Flies(w, x, t');
        if x != id {
          OthersAside(w, w', id, t, x);
        }
      }
    }
  }

  /** What one step of thread t establishes. */
  ghost predicate Moved(w: World, w': World, t: nat) {
    && Core(w') && Later(w, w')
    && (t in w'.threads ==> ThreadOk(w', w'.threads[t]))
    && w'.threads - {t} == w.threads - {t}
  }

  /** A step that only reads, or only touches listeners and remembered ports. */
  lemma QuietMoves(w: World, w': World, t: nat)
    requires Core(w) && w' == w.(threads := w'.threads, listeners := w'.listeners, db := w.db.(ports := w'.db.ports))
    requires w'.threads - {t} == w.threads - {t}
    requires t in w.threads ==> !w.threads[t].Create?
    requires t in w'.threads ==> !w'.threads[t].Create?
    ensures Core(w') && Later(w, w')
  {
    forall x ensures CoreFor(w', x) && LaterFor(w, w', x) {
      assert CoreFor(w, x);
      assert forall u :: HoldsSlot(w'.db, u, x) <==> HoldsSlot(w.db, u, x);
      if x in w.flights {
        assert w.flights[x] in w.threads - {t};
        assert (w'.threads - {t})[w.flights[x]] == (w.threads - {t})[w.flights[x]];
      }
    }
    forall t' | t' in w'.threads && w'.threads[t'].Create? ensures Flies(w', w'.threads[t'].sb.id, t') {
      assert t' in w'.threads - {t};
      assert (w'.threads - {t})[t'] == (w.threads - {t})[t'];
    }
  }

  /** And goes on with what it knew before. */
  lemma QuietStep(w: World, w': World, t: nat)
    requires Core(w) && w' == w.(threads := w'.threads, listeners := w'.listeners, db := w.db.(ports := w'.db.ports))
    requires w'.threads - {t} == w.threads - {t}
    requires t in w.threads ==> !w.threads[t].Create?
    requires t in w'.threads ==> !w'.threads[t].Create? && ThreadOk(w, w'.threads[t])
    ensures Moved(w, w', t)
  {
    QuietMoves(w, w', t);
    if t in w'.threads { KnowledgeKept(w, w', w'.threads[t]); }
  }

  /** A Create goes from one stage to another without touching anything else. */
  lemma StageMoves(w: World, t: nat, sb: Sandbox, at: Stage, sb': Sandbox, at': Stage)
    requires Core(w) && t in w.threads && w.threads[t] == Create(sb, at) && at != Undo
    requires sb'.id == sb.id && CreateOk(w, sb', at') && (at' == Undo || !StateIs(w.db, sb.id, Running))
    ensures Moved(w, To(w, t, Create(sb', at')), t)
  {
    var w' := To(w, t, Create(sb', at'));
    assert Flies(w, sb.id, t) && CoreFor(w, sb.id);
    assert Aside(w, w', sb.id, t);
    assert CoreFor(w', sb.id);
    AsideSuffices(w, w', sb.id, t);
  }

  /** A Create without a VM returns. */
  lemma CreateReturns(w: World, t: nat, sb: Sandbox, at: Stage)
    requires Core(w) && t in w.threads && w.threads[t] == Create(sb, at) && sb.id !in w.vms
    ensures Moved(w, Land(w, t, sb.id), t)
  {
    var w' := Land(w, t, sb.id);
    assert Flies(w, sb.id, t) && CoreFor(w, sb.id);
    assert Aside(w, w', sb.id, t);
    assert CoreFor(w', sb.id);
    AsideSuffices(w, w', sb.id, t);
  }

  lemma CreateBegins(w: World, t: nat, sb: Sandbox, ans: Answer)
    requires Core(w) && t in w.threads && w.threads[t] == Create(sb, Begin) && CreateOk(w, sb, Begin)
    ensures Moved(w, StepCreate(w, t, sb, Begin, ans), t)
  {
    assert CoreFor(w, sb.id);
    StageMoves(w, t, sb, Begin, sb.(lastActivity := w.now), Claim);
  }

  lemma SlotIsTaken(w: World, t: nat, sb: Sandbox, at: Stage, ans: Answer)
    requires Core(w) && t in w.threads && w.threads[t] == Create(sb, at) && CreateOk(w, sb, at)
    requires (at.Claim? || at.Retry?) && sb.user !in w.db.slots && Took(ans)
    ensures Moved(w, Reserving(w, t, sb, ans), t)
  {
    var w' := Reserving(w, t, sb, ans);
    assert Flies(w, sb.id, t) && CoreFor(w, sb.id);
    ReserveAside(w.db, sb);
    assert Aside(w, w', sb.id, t);
    assert CoreFor(w', sb.id);
    AsideSuffices(w, w', sb.id, t);
  }

  lemma CreateIsRefused(w: World, t: nat, sb: Sandbox, at: Stage, ans: Answer)
    requires Core(w) && t in w.threads && w.threads[t] == Create(sb, at) && CreateOk(w, sb, at)
    requires (at.Claim? || at.Retry?) && (!Took(ans) || sb.user in w.db.slots)
    ensures Moved(w, StepCreate(w, t, sb, at, ans), t)
  {
    assert CoreFor(w, sb.id);
    if at.Claim? && ans.ok {
      StageMoves(w, t, sb, at, sb, Retry);
    } else {
      CreateReturns(w, t, sb, at);
    }
  }

  lemma CreateReserves(w: World, t: nat, sb: Sandbox, at: Stage, ans: Answer)
    requires Core(w) && t in w.threads && w.threads[t] == Create(sb, at) && CreateOk(w, sb, at)
    requires at.Claim? || at.Retry?
    ensures Moved(w, StepCreate(w, t, sb, at, ans), t)
  {
    if !Took(ans) || sb.user in w.db.slots {
      CreateIsRefused(w, t, sb, at, ans);
    } else {
      SlotIsTaken(w, t, sb, at, ans);
    }
  }

  lemma CreatePrepares(w: World, t: nat, sb: Sandbox, ans: Answer)
    requires Core(w) && t in w.threads && w.threads[t] == Create(sb, Prep) && CreateOk(w, sb, Prep)
    ensures Moved(w, StepCreate(w, t, sb, Prep, ans), t)
  {
    assert Flies(w, sb.id, t) && CoreFor(w, sb.id);
    if ans.ok {
      var w' := StepCreate(w, t, sb, Prep, ans);
      assert Aside(w, w', sb.id, t);
      assert CoreFor(w', sb.id);
      AsideSuffices(w, w', sb.id, t);
    } else {
      StageMoves(w, t, sb, Prep, sb, Fail);
    }
  }

  lemma CreateBoots(w: World, t: nat, sb: Sandbox, ans: Answer)
    requires Core(w) && t in w.threads && w.threads[t] == Create(sb, Boot) && CreateOk(w, sb, Boot)
    ensures Moved(w, StepCreate(w, t, sb, Boot, ans), t)
  {
    assert Flies(w, sb.id, t) && CoreFor(w, sb.id);
    if ans.ok {
      var w' := StepCreate(w, t, sb, Boot, ans);
      assert Aside(w, w', sb.id, t);
      assert CoreFor(w', sb.id);
      AsideSuffices(w, w', sb.id, t);
    } else {
      StageMoves(w, t, sb, Boot, sb, Fail);
    }
  }

  lemma CommitLands(w: World, t: nat, sb: Sandbox, ans: Answer)
    requires Core(w) && t in w.threads && w.threads[t] == Create(sb, Booted) && CreateOk(w, sb, Booted)
    requires w.now < Deadline(w, sb.id) && MayCommit(w.db, sb) && Took(ans)
    ensures Moved(w, Committing(w, t, sb, ans), t)
  {
    var w' := Committing(w, t, sb, ans);
    assert Flies(w, sb.id, t) && CoreFor(w, sb.id);
    PutAside(w.db, sb.(state := Running, lastActivity := w.now));
    assert Aside(w, w', sb.id, t);
    assert CoreFor(w', sb.id);
    AsideSuffices(w, w', sb.id, t);
  }

  /** vm.Create failed after all. */
  lemma BootFails(w: World, t: nat, sb: Sandbox, ans: Answer)
    requires Core(w) && t in w.threads && w.threads[t] == Create(sb, Booted) && CreateOk(w, sb, Booted) && ans.alt
    ensures Moved(w, StepCreate(w, t, sb, Booted, ans), t)
  {
    var w' := StepCreate(w, t, sb, Booted, ans);
    assert Flies(w, sb.id, t) && CoreFor(w, sb.id);
    assert Aside(w, w', sb.id, t);
    assert CoreFor(w', sb.id);
    AsideSuffices(w, w', sb.id, t);
  }

  lemma CommitIsRefused(w: World, t: nat, sb: Sandbox, ans: Answer)
    requires Core(w) && t in w.threads && w.threads[t] == Create(sb, Booted) && CreateOk(w, sb, Booted) && !ans.alt
    requires !Took(ans) || w.now >= Deadline(w, sb.id) || !MayCommit(w.db, sb)
    ensures Moved(w, StepCreate(w, t, sb, Booted, ans), t)
  {
    assert CoreFor(w, sb.id);
    StageMoves(w, t, sb, Booted, sb, Undo);
  }

  lemma CreateCommits(w: World, t: nat, sb: Sandbox, ans: Answer)
    requires Core(w) && t in w.threads && w.threads[t] == Create(sb, Booted) && CreateOk(w, sb, Booted)
    ensures Moved(w, StepCreate(w, t, sb, Booted, ans), t)
  {
    if ans.alt {
      BootFails(w, t, sb, ans);
    } else if !Took(ans) || w.now >= Deadline(w, sb.id) || !MayCommit(w.db, sb) {
      CommitIsRefused(w, t, sb, ans);
    } else {
      CommitLands(w, t, sb, ans);
    }
  }

  lemma CreateUndoes(w: World, t: nat, sb: Sandbox, at: Stage, ans: Answer)
    requires Core(w) && t in w.threads && w.threads[t] == Create(sb, at) && CreateOk(w, sb, at)
    requires at.Undo?
    ensures Moved(w, StepCreate(w, t, sb, at, ans), t)
  {
    var w' := StepCreate(w, t, sb, at, ans);
    assert Flies(w, sb.id, t) && CoreFor(w, sb.id);
    assert Aside(w, w', sb.id, t);
    assert CoreFor(w', sb.id);
    AsideSuffices(w, w', sb.id, t);
  }

  lemma CreateFails(w: World, t: nat, sb: Sandbox, ans: Answer)
    requires Core(w) && t in w.threads && w.threads[t] == Create(sb, Fail) && CreateOk(w, sb, Fail)
    ensures Moved(w, StepCreate(w, t, sb, Fail, ans), t)
  {
    var w' := StepCreate(w, t, sb, Fail, ans);
    assert Flies(w, sb.id, t) && CoreFor(w, sb.id);
    PutAside(w.db, sb.(state := Error));
    assert Aside(w, w', sb.id, t);
    assert CoreFor(w', sb.id);
    AsideSuffices(w, w', sb.id, t);
  }

  lemma CreateFrees(w: World, t: nat, sb: Sandbox, at: Stage, ans: Answer)
    requires Core(w) && t in w.threads && w.threads[t] == Create(sb, at) && CreateOk(w, sb, at)
    requires at.Free?
    ensures Moved(w, StepCreate(w, t, sb, at, ans), t)
  {
    var w' := StepCreate(w, t, sb, at, ans);
    assert Flies(w, sb.id, t) && CoreFor(w, sb.id);
    ReleaseAside(w.db, sb.user, sb.id);
    assert Aside(w, w', sb.id, t);
    assert CoreFor(w', sb.id);
    AsideSuffices(w, w', sb.id, t);
  }

  lemma DeleteReads(w: World, t: nat, ans: Answer)
    requires Core(w) && t in w.threads && ThreadOk(w, w.threads[t])
    requires w.threads[t].DRead? || w.threads[t].DClose?
    ensures Moved(w, StepDelete(w, t, w.threads[t], ans), t)
  {
    assert CoreFor(w, w.threads[t].id);
    QuietStep(w, StepDelete(w, t, w.threads[t], ans), t);
  }

  lemma DeleteMarks(w: World, t: nat, ans: Answer)
    requires Core(w) && t in w.threads && ThreadOk(w, w.threads[t]) && w.threads[t].DMark?
    ensures Moved(w, StepDelete(w, t, w.threads[t], ans), t)
  {
    var w' := StepDelete(w, t, w.threads[t], ans);
    var sb := w.threads[t].sb;
    assert CoreFor(w, sb.id);
    PutAside(w.db, sb);
    assert Aside(w, w', sb.id, t);
    assert CoreFor(w', sb.id);
    AsideSuffices(w, w', sb.id, t);
  }

  lemma ReapReads(w: World, t: nat, ans: Answer)
    requires Core(w) && t in w.threads && ThreadOk(w, w.threads[t])
    requires w.threads[t].RRead? || w.threads[t].RClose?
    ensures Moved(w, StepReap(w, t, w.threads[t], ans), t)
  {
    var id := match w.threads[t] case RRead(id) => id case RClose(id) => id;
    assert CoreFor(w, id);
    QuietStep(w, StepReap(w, t, w.threads[t], ans), t);
  }

  /** A dead sandbox past its grace is past every commit; so is one that failed. */
  lemma DeadKnows(w: World, sb: Sandbox)
    requires CoreFor(w, sb.id) && CopyOk(w, sb)
    ensures sb.state == Error && !HoldsSlot(w.db, sb.user, sb.id) ==> TeardownOk(w, sb.id) && VmSettled(w, sb.id)
    ensures Active(sb.state) && !InGrace(sb, w.now) ==> NoCommit(w, sb.id)
  {}

  lemma ReapChecks(w: World, t: nat, ans: Answer)
    requires Core(w) && t in w.threads && ThreadOk(w, w.threads[t]) && w.threads[t].RCheck?
    ensures Moved(w, StepReap(w, t, w.threads[t], ans), t)
  {
    var sb := w.threads[t].sb;
    var w' := StepReap(w, t, w.threads[t], ans);
    assert CoreFor(w, sb.id);
    DeadKnows(w, sb);
    assert w' == End(w, t) || w' == To(w, t, DRead(sb.id)) || w' == To(w, t, TRead(sb.id)) || w' == To(w, t, RMark(sb));
    QuietStep(w, w', t);
  }

  lemma ReapMarks(w: World, t: nat, ans: Answer)
    requires Core(w) && t in w.threads && ThreadOk(w, w.threads[t]) && w.threads[t].RMark?
    ensures Moved(w, StepReap(w, t, w.threads[t], ans), t)
  {
    var w' := StepReap(w, t, w.threads[t], ans);
    var sb := w.threads[t].sb;
    assert CoreFor(w, sb.id);
    PutAside(w.db, sb.(state := Error, lastActivity := w.now));
    assert Aside(w, w', sb.id, t);
    assert CoreFor(w', sb.id);
    AsideSuffices(w, w', sb.id, t);
  }

  lemma MissingIsCleared(w: World, t: nat, ans: Answer)
    requires Core(w) && t in w.threads && ThreadOk(w, w.threads[t]) && w.threads[t].RMissing?
    ensures Moved(w, StepReap(w, t, w.threads[t], ans), t)
  {
    var w' := StepReap(w, t, w.threads[t], ans);
    var id := w.threads[t].id;
    assert CoreFor(w, id);
    assert Aside(w, w', id, t);
    assert CoreFor(w', id);
    AsideSuffices(w, w', id, t);
  }

  lemma NothingToRelease(w: World, t: nat, ans: Answer)
    requires Core(w) && t in w.threads && ThreadOk(w, w.threads[t]) && w.threads[t].RRelease?
    ensures StepReap(w, t, w.threads[t], ans) == End(w, t)
  {}

  /** The missing-record branch: the slot is no longer this id's, so nothing is released. */
  lemma MissingMoves(w: World, t: nat, ans: Answer)
    requires Core(w) && t in w.threads && ThreadOk(w, w.threads[t])
    requires w.threads[t].RMissing? || w.threads[t].RRelease?
    ensures Moved(w, StepReap(w, t, w.threads[t], ans), t)
    ensures StepReap(w, t, w.threads[t], ans).db == w.db
  {
    if w.threads[t].RMissing? {
      MissingIsCleared(w, t, ans);
    } else {
      NothingToRelease(w, t, ans);
      QuietStep(w, End(w, t), t);
    }
  }

  lemma TeardownKills(w: World, t: nat, ans: Answer)
    requires Core(w) && t in w.threads && ThreadOk(w, w.threads[t]) && w.threads[t].TVm?
    ensures Moved(w, StepTeardown(w, t, w.threads[t], ans), t)
  {
    var w' := StepTeardown(w, t, w.threads[t], ans);
    var id := w.threads[t].id;
    assert CoreFor(w, id);
    assert Aside(w, w', id, t);
    assert CoreFor(w', id);
    AsideSuffices(w, w', id, t);
  }

  lemma TeardownReads(w: World, t: nat, ans: Answer)
    requires Core(w) && t in w.threads && ThreadOk(w, w.threads[t]) && w.threads[t].TRead?
    ensures Moved(w, StepTeardown(w, t, w.threads[t], ans), t)
  {
    QuietStep(w, StepTeardown(w, t, w.threads[t], ans), t);
  }

  lemma TeardownErases(w: World, t: nat, ans: Answer)
    requires Core(w) && t in w.threads && ThreadOk(w, w.threads[t]) && w.threads[t].TErase?
    ensures Moved(w, StepTeardown(w, t, w.threads[t], ans), t)
  {
    var w' := StepTeardown(w, t, w.threads[t], ans);
    var id := w.threads[t].id;
    assert CoreFor(w, id);
    EraseAside(w.db, w.born[id].user, id);
    assert Aside(w, w', id, t);
    assert CoreFor(w', id);
    AsideSuffices(w, w', id, t);
  }

  lemma SshReads(w: World, t: nat, ans: Answer)
    requires Core(w) && t in w.threads
    requires var th := w.threads[t]; th.SRead? || th.SRecheck? || th.SClose?
    ensures Moved(w, StepSsh(w, t, w.threads[t], ans), t)
  {
    QuietStep(w, StepSsh(w, t, w.threads[t], ans), t);
  }

  lemma SshOpens(w: World, t: nat, ans: Answer)
    requires Core(w) && t in w.threads
    requires var th := w.threads[t]; th.SOpen? || th.SPort? || th.Pass?
    ensures Moved(w, StepSsh(w, t, w.threads[t], ans), t)
  {
    QuietStep(w, StepSsh(w, t, w.threads[t], ans), t);
  }

  lemma AttachReads(w: World, t: nat, ans: Answer)
    requires Core(w) && t in w.threads && w.threads[t].ARead?
    ensures Moved(w, StepAttach(w, t, w.threads[t], ans), t)
  {
    assert CoreFor(w, w.threads[t].id);
    QuietStep(w, StepAttach(w, t, w.threads[t], ans), t);
  }

  /** A copy that is not behind the stored record is at the same point, for it was never ahead. */
  lemma AttachWrites(w: World, t: nat, ans: Answer)
    requires Core(w) && t in w.threads && ThreadOk(w, w.threads[t]) && w.threads[t].AWrite?
    ensures Moved(w, StepAttach(w, t, w.threads[t], ans), t)
  {
    var w' := StepAttach(w, t, w.threads[t], ans);
    var sb := w.threads[t].sb;
    assert CoreFor(w, sb.id);
    PutAside(w.db, sb);
    assert Aside(w, w', sb.id, t);
    assert CoreFor(w', sb.id);
    AsideSuffices(w, w', sb.id, t);
  }

  lemma SweepChecks(w: World, t: nat, ans: Answer)
    requires Core(w) && t in w.threads && w.threads[t].KCheck?
    ensures Moved(w, StepSweep(w, t, w.threads[t], ans), t)
  {
    assert CoreFor(w, w.threads[t].id);
    QuietStep(w, StepSweep(w, t, w.threads[t], ans), t);
  }

  /** The sweep reaps a container only once the deadline of its Create has passed. */
  lemma SweepDeletes(w: World, t: nat, ans: Answer)
    requires Core(w) && t in w.threads && ThreadOk(w, w.threads[t]) && w.threads[t].KDelete?
    ensures Moved(w, StepSweep(w, t, w.threads[t], ans), t)
  {
    var w' := StepSweep(w, t, w.threads[t], ans);
    var id := w.threads[t].id;
    assert CoreFor(w, id);
    assert Aside(w, w', id, t);
    assert CoreFor(w', id);
    AsideSuffices(w, w', id, t);
  }

  lemma CreateMoves(w: World, t: nat, sb: Sandbox, at: Stage, ans: Answer)
    requires Core(w) && t in w.threads && w.threads[t] == Create(sb, at) && CreateOk(w, sb, at)
    ensures Moved(w, StepCreate(w, t, sb, at, ans), t)
  {
    match at
    case Begin => CreateBegins(w, t, sb, ans);
    case Claim => CreateReserves(w, t, sb, at, ans);
    case Retry => CreateReserves(w, t, sb, at, ans);
    case Prep => CreatePrepares(w, t, sb, ans);
    case Boot => CreateBoots(w, t, sb, ans);
    case Booted => CreateCommits(w, t, sb, ans);
    case Undo => CreateUndoes(w, t, sb, at, ans);
    case Fail => CreateFails(w, t, sb, ans);
    case Free(_) => CreateFrees(w, t, sb, at, ans);
  }

  lemma DeleteMoves(w: World, t: nat, th: Thread, ans: Answer)
    requires Core(w) && t in w.threads && w.threads[t] == th && ThreadOk(w, th)
    requires th.DRead? || th.DMark? || th.DClose?
    ensures Moved(w, StepDelete(w, t, th, ans), t)
  {
    if th.DMark? { DeleteMarks(w, t, ans); } else { DeleteReads(w, t, ans); }
  }

  lemma ReapMoves(w: World, t: nat, th: Thread, ans: Answer)
    requires Core(w) && t in w.threads && w.threads[t] == th && ThreadOk(w, th)
    requires th.RRead? || th.RCheck? || th.RMark? || th.RClose? || th.RMissing? || th.RRelease?
    ensures Moved(w, StepReap(w, t, th, ans), t)
  {
    if th.RMark? {
      ReapMarks(w, t, ans);
    } else if th.RMissing? || th.RRelease? {
      MissingMoves(w, t, ans);
    } else if th.RCheck? {
      ReapChecks(w, t, ans);
    } else {
      ReapReads(w, t, ans);
    }
  }

  lemma TeardownMoves(w: World, t: nat, th: Thread, ans: Answer)
    requires Core(w) && t in w.threads && w.threads[t] == th && ThreadOk(w, th)
    requires th.TVm? || th.TRead? || th.TErase?
    ensures Moved(w, StepTeardown(w, t, th, ans), t)
  {
    if th.TVm? {
      TeardownKills(w, t, ans);
    } else if th.TRead? {
      TeardownReads(w, t, ans);
    } else {
      TeardownErases(w, t, ans);
    }
  }

  lemma StepMoves(w: World, t: nat, ans: Answer)
    requires Core(w) && t in w.threads && ThreadOk(w, w.threads[t])
    ensures Moved(w, Step(w, t, ans), t)
  {
    var th := w.threads[t];
    if th.Create? {
      CreateMoves(w, t, th.sb, th.at, ans);
    } else if th.DRead? || th.DMark? || th.DClose? {
      DeleteMoves(w, t, th, ans);
    } else if th.RRead? || th.RCheck? || th.RMark? || th.RClose? || th.RMissing? || th.RRelease? {
      ReapMoves(w, t, th, ans);
    } else if th.TVm? || th.TRead? || th.TErase? {
      TeardownMoves(w, t, th, ans);
    } else if th.ARead? {
      AttachReads(w, t, ans);
    } else if th.AWrite? {
      AttachWrites(w, t, ans);
    } else if th.KCheck? {
      SweepChecks(w, t, ans);
    } else if th.KDelete? {
      SweepDeletes(w, t, ans);
    } else if th.SRead? || th.SRecheck? || th.SClose? {
      SshReads(w, t, ans);
    } else {
      SshOpens(w, t, ans);
    }
  }

  lemma CreateCoherent(w: World, t: nat, sb: Sandbox, at: Stage, ans: Answer)
    requires Coherent(w.db) && CoreFor(w, sb.id) && CreateOk(w, sb, at)
    ensures Coherent(StepCreate(w, t, sb, at, ans).db)
  {
    match at
    case Claim => ReserveCoherent(w.db, sb);
    case Retry => ReserveCoherent(w.db, sb);
    case Booted => PutRunningCoherent(w.db, sb.(state := Running, lastActivity := w.now));
    case Fail => PutCoherent(w.db, sb.(state := Error));
    case Free(_) => ReleaseCoherent(w.db, sb.user, sb.id);
    case _ =>
  }

  lemma DeleteCoherent(w: World, t: nat, th: Thread, ans: Answer)
    requires Coherent(w.db) && Core(w) && ThreadOk(w, th)
    requires th.DRead? || th.DMark? || th.DClose?
    ensures Coherent(StepDelete(w, t, th, ans).db)
  {
    if th.DMark? {
      assert CoreFor(w, th.sb.id);
      PutCoherent(w.db, th.sb);
    }
  }

  lemma ReapCoherent(w: World, t: nat, th: Thread, ans: Answer)
    requires Coherent(w.db) && Core(w) && ThreadOk(w, th)
    requires th.RRead? || th.RCheck? || th.RMark? || th.RClose? || th.RMissing? || th.RRelease?
    ensures Coherent(StepReap(w, t, th, ans).db)
  {
    if th.RMark? {
      assert CoreFor(w, th.sb.id);
      PutCoherent(w.db, th.sb.(state := Error, lastActivity := w.now));
    } else if th.RRelease? {
      ReleaseCoherent(w.db, w.born[th.id].user, th.id);
    }
  }

  lemma TeardownCoherent(w: World, t: nat, th: Thread, ans: Answer)
    requires Coherent(w.db) && Core(w) && ThreadOk(w, th)
    requires th.TVm? || th.TRead? || th.TErase?
    ensures Coherent(StepTeardown(w, t, th, ans).db)
  {
    if th.TErase? {
      assert CoreFor(w, th.id);
      EraseCoherent(w.db, w.born[th.id].user, th.id);
    }
  }

  lemma SshCoherent(w: World, t: nat, th: Thread, ans: Answer)
    requires Coherent(w.db)
    requires th.SRead? || th.SOpen? || th.SPort? || th.SRecheck? || th.SClose? || th.Pass?
    ensures Coherent(StepSsh(w, t, th, ans).db)
  {
    if th.SPort? { SetPortCoherent(w.db, th.id, th.port); }
  }

  lemma AttachCoherent(w: World, t: nat, th: Thread, ans: Answer)
    requires Coherent(w.db) && Core(w) && ThreadOk(w, th)
    requires th.ARead? || th.AWrite?
    ensures Coherent(StepAttach(w, t, th, ans).db)
  {
    if th.AWrite? {
      assert CoreFor(w, th.sb.id);
      PutCoherent(w.db, th.sb);
    }
  }

  lemma StepCoherent(w: World, t: nat, ans: Answer)
    requires Coherent(w.db) && Core(w) && t in w.threads && ThreadOk(w, w.threads[t])
    ensures Coherent(Step(w, t, ans).db)
  {
    var th := w.threads[t];
    if th.Create? {
      assert CoreFor(w, th.sb.id);
      CreateCoherent(w, t, th.sb, th.at, ans);
    } else if th.DRead? || th.DMark? || th.DClose? {
      DeleteCoherent(w, t, th, ans);
    } else if th.RRead? || th.RCheck? || th.RMark? || th.RClose? || th.RMissing? || th.RRelease? {
      ReapCoherent(w, t, th, ans);
    } else if th.TVm? || th.TRead? || th.TErase? {
      TeardownCoherent(w, t, th, ans);
    } else if th.ARead? || th.AWrite? {
      AttachCoherent(w, t, th, ans);
    } else if th.KCheck? || th.KDelete? {
      assert Step(w, t, ans).db == w.db;
    } else {
      SshCoherent(w, t, th, ans);
    }
  }

  lemma StepKeepsInv(w: World, t: nat, ans: Answer)
    requires Inv(w) && t in w.threads
    ensures Inv(Step(w, t, ans)) && Onward(w, Step(w, t, ans))
  {
    var w' := Step(w, t, ans);
    StepMoves(w, t, ans);
    StepCoherent(w, t, ans);
    forall x ensures OnwardFor(w, w', x) { assert LaterFor(w, w', x); }
    forall t' | t' in w'.threads ensures ThreadOk(w', w'.threads[t']) {
      if t' != t {
        assert t' in w'.threads - {t};
        assert (w'.threads - {t})[t'] == (w.threads - {t})[t'];
        ThreadKept(w, w', t');
      }
    }
  }

  // ---- the environment ----

  /** The threads that stand still in a Later step keep the invariant. */
  lemma StandingThreads(w: World, w': World)
    requires Inv(w) && Core(w') && Later(w, w') && Coherent(w'.db) && w'.threads == w.threads
    ensures Inv(w')
  {
    forall t | t in w'.threads ensures ThreadOk(w', w'.threads[t]) {
      ThreadKept(w, w', t);
    }
  }

  lemma TimeAndDeath(w: World, a: Action)
    requires Inv(w) && (a.Tick? || a.Dies?)
    ensures Inv(Next(w, a)) && Onward(w, Next(w, a))
  {
    var w' := Next(w, a);
    forall x ensures CoreFor(w', x) && LaterFor(w, w', x) {
      assert CoreFor(w, x);
    }
    StandingThreads(w, w');
  }

  lemma LateBootKeepsInv(w: World, id: Id)
    requires Inv(w) && Enabled(w, LateBoot(id))
    ensures Inv(Next(w, LateBoot(id))) && Onward(w, Next(w, LateBoot(id)))
  {
    var w' := Next(w, LateBoot(id));
    forall x ensures CoreFor(w', x) && LaterFor(w, w', x) {
      assert CoreFor(w, x);
    }
    StandingThreads(w, w');
  }

  lemma CrashKeepsInv(w: World)
    requires Inv(w)
    ensures Inv(Next(w, Crash)) && Onward(w, Next(w, Crash))
  {
    var w' := Next(w, Crash);
    forall x ensures CoreFor(w', x) && OnwardFor(w, w', x) {
      assert CoreFor(w, x);
    }
  }

  lemma NewCreateMoves(w: World, t: nat, id: Id, user: User)
    requires Inv(w) && Enabled(w, NewCreate(t, id, user))
    ensures var w' := Next(w, NewCreate(t, id, user)); Core(w') && Later(w, w') && ThreadOk(w', w'.threads[t])
  {
    var w' := Next(w, NewCreate(t, id, user));
    assert CoreFor(w, id);
    forall x ensures CoreFor(w', x) && LaterFor(w, w', x) {
      assert CoreFor(w, x);
    }
  }

  lemma NewCreateKeepsInv(w: World, t: nat, id: Id, user: User)
    requires Inv(w) && Enabled(w, NewCreate(t, id, user))
    ensures Inv(Next(w, NewCreate(t, id, user))) && Onward(w, Next(w, NewCreate(t, id, user)))
  {
    var w' := Next(w, NewCreate(t, id, user));
    NewCreateMoves(w, t, id, user);
    assert Onward(w, w') by {
      forall x ensures OnwardFor(w, w', x) { assert LaterFor(w, w', x); }
    }
    forall t' | t' in w'.threads ensures ThreadOk(w', w'.threads[t']) {
      if t' != t { ThreadKept(w, w', t'); }
    }
  }

  lemma SpawnKeepsInv(w: World, t: nat, th: Thread)
    requires Inv(w) && t !in w.threads && !th.Create? && ThreadOk(w, th)
    ensures Inv(To(w, t, th)) && Onward(w, To(w, t, th))
  {
    var w' := To(w, t, th);
    assert w'.threads - {t} == w.threads - {t};
    QuietMoves(w, w', t);
    forall t' | t' in w'.threads ensures ThreadOk(w', w'.threads[t']) {
      if t' != t { ThreadKept(w, w', t'); }
    }
  }

  lemma ArrivalKeepsInv(w: World, a: Action)
    requires Inv(w) && Enabled(w, a)
    requires a.NewDelete? || a.NewReap? || a.NewSsh? || a.NewPass? || a.NewAttach? || a.NewSweep?
    ensures Inv(Next(w, a)) && Onward(w, Next(w, a))
  {
    SpawnKeepsInv(w, a.t, match a
      case NewDelete(_, id) => DRead(id)
      case NewReap(_, id) => RRead(id)
      case NewSsh(_, id) => SRead(id)
      case NewPass(_) => Pass({})
      case NewAttach(_, id, device) => ARead(id, device)
      case NewSweep(_, id) => KCheck(id));
  }

  /** Every action keeps the invariant and moves every sandbox onward. */
  lemma NextKeepsInv(w: World, a: Action)
    requires Inv(w) && Enabled(w, a)
    ensures Inv(Next(w, a)) && Onward(w, Next(w, a))
  {
    if a.Tick? || a.Dies? {
      TimeAndDeath(w, a);
    } else if a.LateBoot? {
      LateBootKeepsInv(w, a.id);
    } else if a.Crash? {
      CrashKeepsInv(w);
    } else if a.NewCreate? {
      NewCreateKeepsInv(w, a.t, a.id, a.user);
    } else if a.Go? {
      StepKeepsInv(w, a.t, a.ans);
    } else {
      ArrivalKeepsInv(w, a);
    }
  }

  lemma InitialInv()
    ensures Inv(INITIAL)
  {}

  lemma {:induction false} RunKeepsInv(w: World, actions: seq<Action>)
    requires Inv(w) && Runs(w, actions)
    ensures Inv(After(w, actions))
    decreases |actions|
  {
    if actions == [] {
      assert After(w, actions) == w;
    } else {
      NextKeepsInv(w, actions[0]);
      RunKeepsInv(Next(w, actions[0]), actions[1..]);
    }
  }
}
