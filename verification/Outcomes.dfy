/** What the sequential service does, written out in states, times and answers: which records a pass
    removes, what List shows, when a Create is refused, and what a Delete leaves. */
module Outcomes {
  import opened Records
  import opened StoreSpec
  import opened Stores
  import opened ReconcileSpec

  /** Last active at least five minutes ago, in milliseconds. */
  predicate GraceIsOver(env: Env, sb: Sandbox) {
    env.now - sb.lastActivity >= 300000
  }

  /** Its VM is definitely not live, and nothing says that it is only just booting or stopping. */
  predicate KnownDead(env: Env, sb: Sandbox) {
    && env.live(sb.id) == LiveNo
    && (sb.state == Running || ((sb.state == Creating || sb.state == Terminating) && GraceIsOver(env, sb)))
  }

  predicate HeldError(db: Db, sb: Sandbox) {
    sb.state == Error && sb.user in db.slots && db.slots[sb.user] == sb.id
  }

  predicate OldUnheldError(env: Env, db: Db, sb: Sandbox) {
    && sb.state == Error && !(sb.user in db.slots && db.slots[sb.user] == sb.id)
    && env.now - sb.lastActivity > 86400000
  }

  /** vm.Delete succeeded, or the VM is definitely not live. */
  predicate Gone(env: Env, id: Id) {
    env.deleteOk(id) || env.live(id) == LiveNo
  }

  lemma VerdictExactly(env: Env, db: Db, sb: Sandbox)
    ensures Judge(env, db, sb) == Drop <==>
      KnownDead(env, sb) || OldUnheldError(env, db, sb) || (HeldError(db, sb) && Gone(env, sb.id))
    ensures Judge(env, db, sb) == Stuck <==> HeldError(db, sb) && !Gone(env, sb.id)
  {}

  /** A pass, in whatever order its listing comes, removes exactly the records of sandboxes known to be
      dead, the unheld errors older than a day, and the held errors whose VM is gone. A held error whose
      VM may still live is marked terminating as of now. Every other record stays as it is. */
  lemma PassExactly(env: Env, db: Db, order: seq<Id>, id: Id)
    requires Coherent(db) && Enumerates(order, db.all) && id in db.records
    ensures var sb := db.records[id]; var db' := ReconcileList(env, db, Found(db, order));
      && (id !in db'.records <==>
            KnownDead(env, sb) || OldUnheldError(env, db, sb) || (HeldError(db, sb) && Gone(env, id)))
      && (id in db'.records ==>
            db'.records[id] == if HeldError(db, sb) then sb.(state := Terminating, lastActivity := env.now) else sb)
  {
    EveryOrderReconciles(env, db, order);
    VerdictExactly(env, db, db.records[id]);
    RecordByRecord(env, db, id);
  }

  /** A pass frees exactly the slots whose holder it removes, and adds no record. */
  lemma PassFreesExactly(env: Env, db: Db, order: seq<Id>, user: User)
    requires Coherent(db) && Enumerates(order, db.all)
    ensures var db' := ReconcileList(env, db, Found(db, order));
      && db'.records.Keys <= db.records.Keys
      && (user in db'.slots <==> user in db.slots && db.slots[user] in db'.records)
      && (user in db'.slots ==> db'.slots[user] == db.slots[user])
  {
    EveryOrderReconciles(env, db, order);
  }

  /** A sandbox that began to boot or to stop less than five minutes ago comes out of a pass as it was,
      with its slot, is listed as it is, and still counts against its user's quota. */
  lemma GraceProtects(env: Env, db: Db, order: seq<Id>, id: Id, next: Sandbox)
    requires Coherent(db) && Enumerates(order, db.all) && id in db.records
    requires db.records[id].state == Creating || db.records[id].state == Terminating
    requires env.now - db.records[id].lastActivity < 300000
    ensures var sb := db.records[id]; var db' := ReconcileList(env, db, Found(db, order));
      && id in db'.records && db'.records[id] == sb && Reported(env, sb) == sb
      && (HoldsSlot(db, sb.user, id) ==> HoldsSlot(db', sb.user, id))
      && (HoldsSlot(db, sb.user, id) && next.user == sb.user ==> !WinsSlot(env, db, next))
  {
    PassExactly(env, db, order, id);
    PassFreesExactly(env, db, order, db.records[id].user);
  }

  /** A running sandbox whose VM is definitely not live is removed at once. */
  lemma DeadRunningIsDropped(env: Env, db: Db, order: seq<Id>, id: Id)
    requires Coherent(db) && Enumerates(order, db.all)
    requires StateIs(db, id, Running) && env.live(id) == LiveNo
    ensures id !in ReconcileList(env, db, Found(db, order)).records
  {
    PassExactly(env, db, order, id);
  }

  /** List changes the state alone, and shows `error` exactly for errors and for the known dead. */
  lemma ListExactly(env: Env, sb: Sandbox)
    ensures Reported(env, sb) == if KnownDead(env, sb) then sb.(state := Error) else sb
  {}

  /** A Create is refused for quota exactly when the slot is held and its holder is an error whose VM may
      still live, a record that is not known to be dead, or, without a record, not definitely gone. */
  lemma QuotaExactly(env: Env, db: Db, sb: Sandbox)
    requires IndexesAgree(db) && sb.state == Creating && sb.id !in db.records
    requires forall u :: u in db.slots ==> db.slots[u] != sb.id
    requires forall u :: u in db.slots && db.slots[u] in db.records ==> db.records[db.slots[u]].user == u
    ensures !WinsSlot(env, db, sb) <==>
      && sb.user in db.slots
      && var holder := db.slots[sb.user];
         if holder !in db.records then env.live(holder) != LiveNo
         else if db.records[holder].state == Error then !Gone(env, holder)
         else !KnownDead(env, db.records[holder])
  {
    QuotaIsExact(env, db, sb);
  }

  /** What the heal of a slot leaves: a holder that is known dead, or an error whose VM is gone, is removed
      with its slot; an error whose VM may still live is marked terminating as of now and keeps the slot;
      a slot without a record is freed exactly if the VM is definitely not live; nothing else changes. */
  lemma HealExactly(env: Env, db: Db, user: User)
    requires IndexesAgree(db) && user in db.slots
    requires db.slots[user] in db.records ==> db.records[db.slots[user]].user == user
    ensures var db' := Heal(env, db, user); var id := db.slots[user];
      if id !in db.records then
        db'.records == db.records && db'.slots == if env.live(id) == LiveNo then db.slots - {user} else db.slots
      else
        var sb := db.records[id];
        if KnownDead(env, sb) || (sb.state == Error && Gone(env, id)) then
          db'.records == db.records - {id} && db'.slots == db.slots - {user}
        else if sb.state == Error then
          && db'.records == db.records[id := sb.(state := Terminating, lastActivity := env.now)]
          && db'.slots == db.slots
        else db' == db
  {}

  /** What a Delete leaves: nothing, if the VM is gone; else the record, terminating as of now, with its
      slot. No other record, and no other user's slot, is touched. */
  lemma DeleteExactly(env: Env, db: Db, id: Id)
    requires Coherent(db) && id in db.records
    ensures var sb := db.records[id]; var db' := DeleteSandbox(env, db, id);
      && db'.records == (if Gone(env, id) then db.records - {id}
                         else db.records[id := sb.(state := Terminating, lastActivity := env.now)])
      && db'.slots == (if Gone(env, id) && HoldsSlot(db, sb.user, id) then db.slots - {sb.user} else db.slots)
      && (id in db'.active <==> !Gone(env, id)) && (id in db'.all <==> !Gone(env, id))
      && db'.log == db.log + [(sb.user, Stored(sb.(state := Terminating, lastActivity := env.now)))]
                           + (if Gone(env, id) then [(sb.user, Removed(id))] else [])
  {}

  /** A dead sandbox's teardown publishes its error before anything else, and then leaves nothing. */
  lemma TeardownPublishes(env: Env, db: Db, sb: Sandbox)
    requires Coherent(db) && sb.id in db.records && db.records[sb.id] == sb && env.live(sb.id) == LiveNo
    ensures var db' := TeardownDead(env, db, sb);
      && db'.records == db.records - {sb.id}
      && db'.log == db.log + [(sb.user, Stored(sb.(state := Error, lastActivity := env.now)))]
                           + [(sb.user, Removed(sb.id))]
  {}
}
