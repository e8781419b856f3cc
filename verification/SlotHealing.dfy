/** The sequential pass meets the concurrent machine: what a pass repairs, wherever it starts. */
module SlotHealing {
  import opened Records
  import opened StoreSpec
  import opened Stores
  import opened ReconcileSpec
  import opened Lifecycle
  import opened LifecycleInvariant
  import opened LifecycleEffects

  /** No slot leaks: take any state any interleaving reaches, crash the manager there, and run one
      pass. A held slot names a listed record; and if that sandbox's VM is definitely not live and
      its grace is over, the record is gone after the pass and the slot free, whatever vm.Delete
      answers and in whatever order the ids come. */
  lemma NoSlotLeaks(w: World, env: Env, order: seq<Id>, user: User)
    requires Reachable(w) && user in w.db.slots
    requires Enumerates(order, w.db.all)
    ensures Reachable(Next(w, Crash)) && Next(w, Crash).db == w.db
    ensures w.db.slots[user] in w.db.records && w.db.slots[user] in order
    ensures (env.live(w.db.slots[user]) == LiveNo
             && env.now >= w.db.records[w.db.slots[user]].lastActivity + RECONCILE_GRACE) ==>
      var db := ReconcileList(env, Next(w, Crash).db, Found(w.db, order));
      Coherent(db) && w.db.slots[user] !in db.records && user !in db.slots
  {
    ReachableInv(w);
    ReachableNext(w, Crash);
    FoundIsExact(w.db, order);
    PassKeepsCoherent(env, w.db, Found(w.db, order));
    var holder := w.db.slots[user];
    if env.live(holder) == LiveNo && env.now >= w.db.records[holder].lastActivity + RECONCILE_GRACE {
      DeadHolderIsFreed(env, w.db, order, user);
    }
  }
}
