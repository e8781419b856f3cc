/** The reconcile and heal paths without concurrent callers, as functions of the store and of what
    the clock and containerd answer meanwhile; and what a whole pass amounts to. */
module ReconcileSpec {
  import opened Records
  import opened StoreSpec
  import opened Stores

  /** The answers that stay the same during one pass. */
  datatype Env = Env(now: int, live: Id -> Liveness, deleteOk: Id -> bool)

  /** finishTeardown goes on to the store. */
  predicate Confirmed(env: Env, id: Id) {
    env.deleteOk(id) || env.live(id) == LiveNo
  }

  function FinishTeardown(env: Env, db: Db, id: Id): Db {
    if Confirmed(env, id) then Delete(db, id) else db
  }

  function DeleteSandbox(env: Env, db: Db, id: Id): Db {
    if id !in db.records then db
    else FinishTeardown(env, Put(db, db.records[id].(state := Terminating, lastActivity := env.now)), id)
  }

  predicate Dead(env: Env, sb: Sandbox) {
    StaleDead(sb, env.now, env.live(sb.id) == LiveNo)
  }

  function TeardownDead(env: Env, db: Db, sb: Sandbox): Db {
    FinishTeardown(env, Put(db, sb.(state := Error, lastActivity := env.now)), sb.id)
  }

  function ReconcileRecord(env: Env, db: Db, sb: Sandbox): Db {
    if sb.state == Error then
      if HoldsSlot(db, sb.user, sb.id) then DeleteSandbox(env, db, sb.id)
      else if env.now - sb.lastActivity > ERROR_GC then Delete(db, sb.id)
      else db
    else if Dead(env, sb) then TeardownDead(env, db, sb)
    else db
  }

  function ReconcileList(env: Env, db: Db, list: seq<Sandbox>): Db {
    if list == [] then db
    else ReconcileRecord(env, ReconcileList(env, db, list[..|list| - 1]), list[|list| - 1])
  }

  // ---- what a pass amounts to, record by record ----

  datatype Verdict = Keep | Drop | Stuck

  function Judge(env: Env, db: Db, sb: Sandbox): Verdict {
    if sb.state == Error then
      if HoldsSlot(db, sb.user, sb.id) then if Confirmed(env, sb.id) then Drop else Stuck
      else if env.now - sb.lastActivity > ERROR_GC then Drop
      else Keep
    else if Dead(env, sb) then Drop
    else Keep
  }

  predicate Dropped(env: Env, db: Db, ids: set<Id>, id: Id) {
    id in ids && id in db.records && Judge(env, db, db.records[id]) == Drop
  }

  function Settled(env: Env, db: Db, ids: set<Id>, id: Id): Sandbox
    requires id in db.records
  {
    var sb := db.records[id];
    if id in ids && Judge(env, db, sb) == Stuck then sb.(state := Terminating, lastActivity := env.now) else sb
  }

  /** The store once the verdicts on `ids` have been carried out. */
  function Judged(env: Env, db: Db, ids: set<Id>): Db {
    Db(map id | id in db.records && !Dropped(env, db, ids, id) :: Settled(env, db, ids, id),
       set m | m in db.members && !Dropped(env, db, ids, m.1),
       set id | id in db.all && !Dropped(env, db, ids, id),
       set id | id in db.records && !Dropped(env, db, ids, id) && Active(Settled(env, db, ids, id).state),
       map u | u in db.slots && !Dropped(env, db, ids, db.slots[u]) :: db.slots[u],
       map id | id in db.ports && !Dropped(env, db, ids, id) :: db.ports[id],
       db.log)
  }

  /** Equal but for the order of what was published. */
  predicate SameStore(a: Db, b: Db) {
    a.(log := []) == b.(log := [])
  }

  /** What one record's reconcile does, whichever path it takes. */
  lemma RecordEffect(env: Env, db: Db, sb: Sandbox)
    requires sb.id in db.records && db.records[sb.id] == sb
    ensures SameStore(ReconcileRecord(env, db, sb),
      match Judge(env, db, sb)
      case Drop => Erase(db, sb.user, sb.id)
      case Stuck => Put(db, sb.(state := Terminating, lastActivity := env.now))
      case Keep => db)
  {}

  lemma DropIsJudgedIndexes(env: Env, db: Db, ids: set<Id>, id: Id)
    requires IndexesAgree(db)
    requires id in db.records && id !in ids && Judge(env, db, db.records[id]) == Drop
    ensures var next := Erase(Judged(env, db, ids), db.records[id].user, id); var goal := Judged(env, db, ids + {id});
      next.members == goal.members && next.all == goal.all && next.active == goal.active
  {}

  lemma DropIsJudged(env: Env, db: Db, ids: set<Id>, id: Id)
    requires IndexesAgree(db) && SlotsNameRecords(db)
    requires id in db.records && id !in ids && Judge(env, db, db.records[id]) == Drop
    ensures Erase(Judged(env, db, ids), db.records[id].user, id).(log := []) == Judged(env, db, ids + {id}).(log := [])
  {
    var user := db.records[id].user;
    var next := Erase(Judged(env, db, ids), user, id);
    var goal := Judged(env, db, ids + {id});
    DropIsJudgedIndexes(env, db, ids, id);
    forall x ensures Dropped(env, db, ids + {id}, x) <==> Dropped(env, db, ids, x) || x == id {}
    assert next.records == goal.records;
    assert next.slots == goal.slots by {
      assert forall u :: u in db.slots && db.slots[u] == id ==> u == user;
    }
    assert next.ports == goal.ports;
  }

  lemma StuckIsJudged(env: Env, db: Db, ids: set<Id>, id: Id)
    requires IndexesAgree(db)
    requires id in db.records && id !in ids && Judge(env, db, db.records[id]) == Stuck
    ensures Put(Judged(env, db, ids), db.records[id].(state := Terminating, lastActivity := env.now)).(log := [])
         == Judged(env, db, ids + {id}).(log := [])
  {
    var next := Put(Judged(env, db, ids), db.records[id].(state := Terminating, lastActivity := env.now));
    var goal := Judged(env, db, ids + {id});
    forall x ensures Dropped(env, db, ids + {id}, x) <==> Dropped(env, db, ids, x) {}
    assert next.records == goal.records;
    assert next.members == goal.members;
    assert next.all == goal.all;
    assert next.active == goal.active;
    assert next.slots == goal.slots;
    assert next.ports == goal.ports;
  }

  lemma KeepIsJudged(env: Env, db: Db, ids: set<Id>, id: Id)
    requires id in db.records && id !in ids && Judge(env, db, db.records[id]) == Keep
    ensures Judged(env, db, ids) == Judged(env, db, ids + {id})
  {}

  /** A reconcile of one record carries out its verdict, judged on the store before the pass, and
      does nothing to any other record. */
  lemma RecordIsJudged(env: Env, db: Db, cur: Db, ids: set<Id>, id: Id)
    requires IndexesAgree(db) && SlotsNameRecords(db)
    requires SameStore(cur, Judged(env, db, ids))
    requires id in db.records && id !in ids
    ensures Judge(env, cur, db.records[id]) == Judge(env, db, db.records[id])
    ensures SameStore(ReconcileRecord(env, cur, db.records[id]), Judged(env, db, ids + {id}))
  {
    var sb := db.records[id];
    assert !Dropped(env, db, ids, id) && Settled(env, db, ids, id) == sb;
    assert cur.records[id] == sb;
    assert HoldsSlot(cur, sb.user, id) <==> HoldsSlot(db, sb.user, id);
    RecordEffect(env, cur, sb);
    match Judge(env, db, sb)
    case Drop => DropIsJudged(env, db, ids, id);
    case Stuck => StuckIsJudged(env, db, ids, id);
    case Keep => KeepIsJudged(env, db, ids, id);
  }

  // ---- a whole pass ----

  function Ids(list: seq<Sandbox>): set<Id> {
    set sb | sb in list :: sb.id
  }

  /** A listing: each element is a stored record, and none comes twice. */
  ghost predicate Lists(db: Db, list: seq<Sandbox>) {
    && (forall sb :: sb in list ==> sb.id in db.records && db.records[sb.id] == sb)
    && (forall i, j :: 0 <= i < j < |list| ==> list[i].id != list[j].id)
  }

  lemma {:induction false} PassIsJudged(env: Env, db: Db, list: seq<Sandbox>)
    requires IndexesAgree(db) && SlotsNameRecords(db) && Lists(db, list)
    ensures SameStore(ReconcileList(env, db, list), Judged(env, db, Ids(list)))
  {
    if list == [] {
      var none := Judged(env, db, {});
      assert Ids(list) == {};
      assert none.records == db.records;
      assert none.members == db.members;
      assert none.all == db.all;
      assert none.active == db.active;
      assert none.slots == db.slots;
      assert none.ports == db.ports;
    } else {
      var front, sb := list[..|list| - 1], list[|list| - 1];
      PassIsJudged(env, db, front);
      assert sb.id !in Ids(front);
      RecordIsJudged(env, db, ReconcileList(env, db, front), Ids(front), sb.id);
      assert list == front + [sb];
      assert Ids(list) == Ids(front) + {sb.id};
    }
  }

  /** The store a pass leaves behind. */
  function Reconciled(env: Env, db: Db): Db {
    Judged(env, db, db.records.Keys)
  }

  /** Whatever order SMEMBERS returns the ids in, a pass carries out every record's verdict. */
  lemma EveryOrderReconciles(env: Env, db: Db, order: seq<Id>)
    requires Coherent(db) && Enumerates(order, db.all)
    ensures SameStore(ReconcileList(env, db, Found(db, order)), Reconciled(env, db))
  {
    FoundIsExact(db, order);
    PassIsJudged(env, db, Found(db, order));
    forall id ensures id in Ids(Found(db, order)) <==> id in db.records {
      if id in db.records {
        assert db.records[id] in Found(db, order);
      }
    }
    assert Ids(Found(db, order)) == db.records.Keys;
  }

  /** The record's index entries and its remembered port are as before. */
  predicate Listed(db: Db, db': Db, sb: Sandbox) {
    && sb.id in db'.all && (sb.user, sb.id) in db'.members
    && (sb.id in db'.ports <==> sb.id in db.ports)
    && (sb.id in db.ports ==> db'.ports[sb.id] == db.ports[sb.id])
  }

  /** What a pass means for each record: dropped ones are gone with their slot, indexes and port; a
      held error whose VM may still live is left `terminating` with its slot; the rest is untouched. */
  lemma RecordByRecord(env: Env, db: Db, id: Id)
    requires Coherent(db) && id in db.records
    ensures var db' := Reconciled(env, db); var sb := db.records[id];
      match Judge(env, db, sb)
      case Drop =>
        && id !in db'.records && id !in db'.all && id !in db'.active && id !in db'.ports
        && (sb.user, id) !in db'.members && !HoldsSlot(db', sb.user, id)
      case Stuck =>
        && id in db'.records && db'.records[id] == sb.(state := Terminating, lastActivity := env.now)
        && id in db'.active && HoldsSlot(db', sb.user, id) && Listed(db, db', sb)
      case Keep =>
        && id in db'.records && db'.records[id] == sb && (id in db'.active <==> id in db.active)
        && (HoldsSlot(db', sb.user, id) <==> HoldsSlot(db, sb.user, id)) && Listed(db, db', sb)
  {}

  lemma RecordKeepsCoherent(env: Env, db: Db, sb: Sandbox)
    requires Coherent(db) && sb.id in db.records && db.records[sb.id] == sb
    ensures Coherent(ReconcileRecord(env, db, sb))
  {
    var marked := sb.(state := if sb.state == Error then Terminating else Error, lastActivity := env.now);
    PutCoherent(db, marked);
    EraseCoherent(Put(db, marked), sb.user, sb.id);
    EraseCoherent(db, sb.user, sb.id);
  }

  lemma {:induction false} PassKeepsCoherent(env: Env, db: Db, list: seq<Sandbox>)
    requires Coherent(db) && Lists(db, list)
    ensures Coherent(ReconcileList(env, db, list))
  {
    if list == [] {
      assert ReconcileList(env, db, list) == db;
    } else {
      var front, sb := list[..|list| - 1], list[|list| - 1];
      PassKeepsCoherent(env, db, front);
      PassIsJudged(env, db, front);
      assert sb.id !in Ids(front);
      assert !Dropped(env, db, Ids(front), sb.id) && Settled(env, db, Ids(front), sb.id) == sb;
      RecordKeepsCoherent(env, ReconcileList(env, db, front), sb);
    }
  }

  /** What a pass leaves needs nothing done, and reconciling it does nothing. */
  lemma SettledStaysSettled(env: Env, db: Db, after: Db, sb: Sandbox)
    requires IndexesAgree(db) && SlotsNameRecords(db) && SameStore(after, Reconciled(env, db))
    requires sb.id in after.records && after.records[sb.id] == sb
    ensures Judge(env, after, sb) == Keep && ReconcileRecord(env, after, sb) == after
  {
    var id := sb.id;
    assert !Dropped(env, db, db.records.Keys, id) && sb == Settled(env, db, db.records.Keys, id);
    assert HoldsSlot(after, sb.user, id) <==> HoldsSlot(db, db.records[id].user, id);
  }

  lemma {:induction false} IdlePass(env: Env, db: Db, list: seq<Sandbox>)
    requires forall sb :: sb in list ==> ReconcileRecord(env, db, sb) == db
    ensures ReconcileList(env, db, list) == db
  {
    if list == [] {
      assert ReconcileList(env, db, list) == db;
    } else {
      IdlePass(env, db, list[..|list| - 1]);
      assert list[|list| - 1] in list;
    }
  }

  /** A second pass with the same answers, in whatever order its own listing comes, does nothing at
      all: it neither changes the store nor publishes an event. */
  lemma ReconcileIdempotent(env: Env, db: Db, order: seq<Id>, again: seq<Id>)
    requires Coherent(db) && Enumerates(order, db.all)
    requires Enumerates(again, ReconcileList(env, db, Found(db, order)).all)
    ensures var once := ReconcileList(env, db, Found(db, order));
      ReconcileList(env, once, Found(once, again)) == once
  {
    var once := ReconcileList(env, db, Found(db, order));
    EveryOrderReconciles(env, db, order);
    FoundIsExact(db, order);
    PassKeepsCoherent(env, db, Found(db, order));
    FoundIsExact(once, again);
    forall sb | sb in Found(once, again) ensures ReconcileRecord(env, once, sb) == once {
      SettledStaysSettled(env, db, once, sb);
    }
    IdlePass(env, once, Found(once, again));
  }

  /** No slot leaks: if the holder's VM is definitely not live and its grace is over, one pass in
      any order removes the record and frees the slot, whatever vm.Delete answers. */
  lemma DeadHolderIsFreed(env: Env, db: Db, order: seq<Id>, user: User)
    requires Coherent(db) && Enumerates(order, db.all) && user in db.slots
    requires env.live(db.slots[user]) == LiveNo
    requires env.now >= db.records[db.slots[user]].lastActivity + RECONCILE_GRACE
    ensures var db' := ReconcileList(env, db, Found(db, order));
      db.slots[user] !in db'.records && user !in db'.slots
  {
    EveryOrderReconciles(env, db, order);
    assert Dropped(env, db, db.records.Keys, db.slots[user]);
  }

  // ---- the heal inside Create ----

  function Heal(env: Env, db: Db, user: User): Db {
    if user !in db.slots then db
    else
      var id := db.slots[user];
      if id !in db.records then
        if env.live(id) == LiveNo then Release(db, user, id) else db
      else if db.records[id].state == Error then DeleteSandbox(env, db, id)
      else if Dead(env, db.records[id]) then TeardownDead(env, db, db.records[id])
      else db
  }

  /** The holder cannot be shown to be dead, or is inside its grace window. */
  predicate HolderStands(env: Env, db: Db, id: Id) {
    if id !in db.records then env.live(id) != LiveNo
    else if db.records[id].state == Error then !Confirmed(env, id)
    else InGrace(db.records[id], env.now) || env.live(id) != LiveNo
  }

  /** Reserve, and after a refusal heal the slot and reserve once more. */
  function ReserveHealing(env: Env, db: Db, sb: Sandbox): Db {
    if sb.user !in db.slots then Reserve(db, sb) else Reserve(Heal(env, db, sb.user), sb)
  }

  predicate WinsSlot(env: Env, db: Db, sb: Sandbox) {
    sb.user !in db.slots || sb.user !in Heal(env, db, sb.user).slots
  }

  /** Create is refused for quota exactly when the slot's holder stands; a refused Create leaves no
      record, and one that wins owns the slot with a `creating` record. Also for a slot whose
      record is missing, as older versions could leave behind. */
  lemma QuotaIsExact(env: Env, db: Db, sb: Sandbox)
    requires IndexesAgree(db) && sb.state == Creating && sb.id !in db.records
    requires forall u :: u in db.slots ==> db.slots[u] != sb.id
    requires forall u :: u in db.slots && db.slots[u] in db.records ==> db.records[db.slots[u]].user == u
    ensures !WinsSlot(env, db, sb) <==> sb.user in db.slots && HolderStands(env, db, db.slots[sb.user])
    ensures !WinsSlot(env, db, sb) ==>
      && sb.id !in ReserveHealing(env, db, sb).records
      && HoldsSlot(ReserveHealing(env, db, sb), sb.user, db.slots[sb.user])
    ensures WinsSlot(env, db, sb) ==>
      HoldsSlot(ReserveHealing(env, db, sb), sb.user, sb.id) && StateIs(ReserveHealing(env, db, sb), sb.id, Creating)
  {}

  // ---- what List reports ----

  function Reported(env: Env, sb: Sandbox): Sandbox {
    if Dead(env, sb) then sb.(state := Error) else sb
  }

  /** A record that is not an error is shown as one exactly when a pass would tear it down. */
  lemma ListAgreesWithReconcile(env: Env, db: Db, id: Id)
    requires Coherent(db) && id in db.records && db.records[id].state != Error
    ensures Reported(env, db.records[id]).state == Error <==> id !in Reconciled(env, db).records
    ensures Reported(env, db.records[id]).state != Error ==>
      id in Reconciled(env, db).records && Reconciled(env, db).records[id] == Reported(env, db.records[id])
  {}
}
