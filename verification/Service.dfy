/** The service object, called by one caller at a time: each method against ReconcileSpec and
    SshPassSpec. The interleavings of its calls are the subject of Lifecycle. */
module Services {
  import opened Records
  import opened StoreSpec
  import opened Stores
  import opened RelaySpec
  import opened Relays
  import opened ReconcileSpec
  import opened SshPassSpec
  import opened Outcomes

  /** A pass hands this record's VM to vm.Delete, and closes its listener. */
  predicate TouchesVm(env: Env, db: Db, sb: Sandbox) {
    HeldError(db, sb) || KnownDead(env, sb)
  }

  /** The sandboxes of a list that a pass touches, in the order of the list. */
  function Touched(env: Env, db: Db, list: seq<Sandbox>): seq<Id> {
    if list == [] then []
    else
      var last := list[|list| - 1];
      Touched(env, db, list[..|list| - 1]) + if TouchesVm(env, db, last) then [last.id] else []
  }

  lemma {:induction false} TouchedAmong(env: Env, db: Db, list: seq<Sandbox>, id: Id)
    ensures id in Touched(env, db, list) <==> exists sb :: sb in list && sb.id == id && TouchesVm(env, db, sb)
  {
    if list == [] {
    } else {
      var front, last := list[..|list| - 1], list[|list| - 1];
      TouchedAmong(env, db, front, id);
      assert list == front + [last];
    }
  }

  function Without(t: Table, ids: seq<Id>): Table {
    t - (set id | id in ids)
  }

  lemma WithoutOneMore(t: Table, ids: seq<Id>, id: Id)
    ensures Without(t, ids + [id]) == Without(t, ids) - {id}
    ensures Without(t, ids + []) == Without(t, ids)
  {
    assert ids + [] == ids;
  }

  /** Exactly the held errors and the sandboxes known to be dead. */
  lemma TouchedExactly(env: Env, db: Db, order: seq<Id>, id: Id)
    requires Coherent(db) && Enumerates(order, db.all)
    ensures id in Touched(env, db, Found(db, order)) <==>
      id in db.records && (HeldError(db, db.records[id]) || KnownDead(env, db.records[id]))
  {
    FoundIsExact(db, order);
    TouchedAmong(env, db, Found(db, order), id);
    if id in db.records { assert db.records[id] in Found(db, order); }
  }

  /** Whether a later record's slot is held does not depend on the records treated before it. */
  lemma HeldAlike(env: Env, db: Db, list: seq<Sandbox>, i: nat)
    requires Coherent(db) && Lists(db, list) && i < |list|
    ensures var cur := ReconcileList(env, db, list[..i]);
      list[i].id in cur.records && cur.records[list[i].id] == list[i]
      && (HoldsSlot(cur, list[i].user, list[i].id) <==> HoldsSlot(db, list[i].user, list[i].id))
  {
    assert Lists(db, list[..i]);
    PassIsJudged(env, db, list[..i]);
    var id := list[i].id;
    assert id !in Ids(list[..i]);
    assert !Dropped(env, db, Ids(list[..i]), id) && Settled(env, db, Ids(list[..i]), id) == list[i];
  }

  lemma TouchedOneMore(env: Env, db: Db, list: seq<Sandbox>, i: nat)
    requires i < |list|
    ensures Touched(env, db, list[..i + 1])
      == Touched(env, db, list[..i]) + (if TouchesVm(env, db, list[i]) then [list[i].id] else [])
  {
    assert list[..i + 1][..i] == list[..i];
  }

  /** One more record of the pass, judged on the store before the pass. */
  lemma OneMoreTouched(env: Env, db: Db, order: seq<Id>, i: nat)
    requires Enumerates(order, db.all) && i < |Found(db, order)|
    ensures var list := Found(db, order);
      Coherent(db) ==>
        && list[i].id in ReconcileList(env, db, list[..i]).records
        && (TouchesVm(env, ReconcileList(env, db, list[..i]), list[i]) <==> TouchesVm(env, db, list[i]))
        && Touched(env, db, list[..i + 1])
           == Touched(env, db, list[..i]) + (if TouchesVm(env, db, list[i]) then [list[i].id] else [])
  {
    TouchedOneMore(env, db, Found(db, order), i);
    if Coherent(db) {
      FoundIsExact(db, order);
      HeldAlike(env, db, Found(db, order), i);
    }
  }

  lemma AnyOrderReconciles(env: Env, db: Db, order: seq<Id>)
    requires Enumerates(order, db.all)
    ensures Coherent(db) ==> SameStore(ReconcileList(env, db, Found(db, order)), Reconciled(env, db))
  {
    if Coherent(db) { EveryOrderReconciles(env, db, order); }
  }

  function ListedAddrs(list: seq<Sandbox>): map<Id, Addr> {
    if list == [] then map[]
    else
      var before, sb := ListedAddrs(list[..|list| - 1]), list[|list| - 1];
      if sb.state == Running && sb.ip != NoAddr then before[sb.id := sb.ip] else before
  }

  lemma {:induction false} ListedAddrsOf(db: Db, list: seq<Sandbox>)
    requires forall id :: id in db.records ==> db.records[id].id == id
    requires forall sb :: sb in list ==> sb.id in db.records && db.records[sb.id] == sb
    ensures forall id :: id in ListedAddrs(list) <==> id in RunningAddrs(db) && db.records[id] in list
    ensures forall id :: id in ListedAddrs(list) ==> ListedAddrs(list)[id] == RunningAddrs(db)[id]
  {
    if list == [] {
    } else {
      var front, sb := list[..|list| - 1], list[|list| - 1];
      ListedAddrsOf(db, front);
      assert list == front + [sb];
      forall id | id in RunningAddrs(db)
        ensures db.records[id] in list <==> db.records[id] in front || db.records[id] == sb
      {}
    }
  }

  lemma ListedAddrsAreRunning(db: Db, order: seq<Id>)
    requires Coherent(db) && Enumerates(order, db.all)
    ensures ListedAddrs(Found(db, order)) == RunningAddrs(db)
  {
    FoundIsExact(db, order);
    ListedAddrsOf(db, Found(db, order));
  }

  /** Every record is stored under its own id. */
  ghost predicate Keyed(db: Db) {
    forall id :: id in db.records ==> db.records[id].id == id
  }

  /** The slot's holder is an error or known to be dead. */
  predicate HealsHolder(env: Env, db: Db, user: User) {
    && user in db.slots && db.slots[user] in db.records
    && var sb := db.records[db.slots[user]]; sb.state == Error || KnownDead(env, sb)
  }

  /** It has no record, and its VM is definitely not live. */
  predicate GhostHolder(env: Env, db: Db, user: User) {
    user in db.slots && db.slots[user] !in db.records && env.live(db.slots[user]) == LiveNo
  }

  /** What a heal hands to vm.Delete: the holder, if it is one of these, and else nothing. */
  function HandedOver(env: Env, db: Db, user: User): seq<Id> {
    if HealsHolder(env, db, user) || GhostHolder(env, db, user) then [db.slots[user]] else []
  }

  class Service {
    const store: Store
    const relay: Relay
    const env: Env
    const host: Host
    var vmCalls: seq<Id>      // every id handed to vm.Delete

    ghost predicate Valid()
      reads this, relay
    {
      relay.Valid() && relay.range == host.range
    }

    constructor (store: Store, relay: Relay, env: Env, host: Host)
      requires relay.Valid() && relay.range == host.range
      ensures Valid() && vmCalls == []
      ensures this.store == store && this.relay == relay && this.env == env && this.host == host
    {
      this.store, this.relay, this.env, this.host := store, relay, env, host;
      vmCalls := [];
    }

    method VmDelete(id: Id) returns (ok: bool)
      modifies this
      ensures ok == env.deleteOk(id) && vmCalls == old(vmCalls) + [id]
    {
      vmCalls := vmCalls + [id];
      ok := env.deleteOk(id);
    }

    method FinishTeardown(id: Id)
      modifies this, store
      ensures store.View() == ReconcileSpec.FinishTeardown(env, old(store.View()), id)
      ensures vmCalls == old(vmCalls) + [id]
    {
      var ok := VmDelete(id);
      if !ok && env.live(id) != LiveNo {
        return;
      }
      store.Delete(id);
    }

    method Delete(id: Id)
      requires Valid()
      modifies this, store, relay
      ensures Valid() && store.View() == DeleteSandbox(env, old(store.View()), id)
      ensures relay.byID == if id in old(store.View()).records then old(relay.byID) - {id} else old(relay.byID)
      ensures vmCalls == old(vmCalls) + if id in old(store.View()).records then [id] else []
    {
      var sb := store.Get(id);
      if sb.None? {
        return;
      }
      store.Put(sb.value.(state := Terminating, lastActivity := env.now));
      relay.Close(id);
      FinishTeardown(id);
    }

    method TeardownDead(sb: Sandbox)
      requires Valid()
      modifies this, store, relay
      ensures Valid() && store.View() == ReconcileSpec.TeardownDead(env, old(store.View()), sb)
      ensures relay.byID == old(relay.byID) - {sb.id}
      ensures vmCalls == old(vmCalls) + [sb.id]
    {
      store.Put(sb.(state := Error, lastActivity := env.now));
      relay.Close(sb.id);
      FinishTeardown(sb.id);
    }

    /** Heals one user's slot: finishes an interrupted teardown, removes a dead or missing holder. */
    method ReconcileUserSlot(user: User)
      requires Valid()
      modifies this, store, relay
      ensures Valid() && store.View() == Heal(env, old(store.View()), user)
      ensures Keyed(old(store.View())) ==>
        var db := old(store.View());
        && relay.byID == (if HealsHolder(env, db, user) then old(relay.byID) - {db.slots[user]} else old(relay.byID))
        && vmCalls == old(vmCalls) + HandedOver(env, db, user)
    {
      var holder := store.UserSlot(user);
      if holder.None? {
        return;
      }
      var id := holder.value;
      var sb := store.Get(id);
      if sb.None? {
        if env.live(id) != LiveNo {
          return;
        }
        var ok := VmDelete(id);
        if !ok && env.live(id) != LiveNo {
          return;
        }
        store.ReleaseUserSlot(user, id);
      } else if sb.value.state == Error {
        Delete(id);
      } else if Dead(env, sb.value) {
        TeardownDead(sb.value);
      }
    }

    /** The one-per-user gate of Create: reserve, and on a refusal heal and try once more. */
    method ReserveSlot(sb: Sandbox) returns (ok: bool)
      requires Valid()
      modifies this, store, relay
      ensures Valid() && ok == WinsSlot(env, old(store.View()), sb)
      ensures store.View() == ReserveHealing(env, old(store.View()), sb)
      ensures Keyed(old(store.View())) ==>
        var db := old(store.View()); var user := sb.user;
        && relay.byID == (if HealsHolder(env, db, user) then old(relay.byID) - {db.slots[user]} else old(relay.byID))
        && vmCalls == old(vmCalls) + HandedOver(env, db, user)
    {
      ok := store.ReserveUserSlot(sb);
      if !ok {
        ReconcileUserSlot(sb.user);
        ok := store.ReserveUserSlot(sb);
      }
    }

    /** A user's sandboxes, or all of them, with dead VMs shown as errors; nothing is changed. */
    method List(user: Option<User>) returns (out: seq<Sandbox>, ghost order: seq<Id>)
      ensures Enumerates(order, MemberIds(store.View(), user))
      ensures |out| == |Found(store.View(), order)|
      ensures forall i :: 0 <= i < |out| ==> out[i] == Reported(env, Found(store.View(), order)[i])
      ensures Coherent(store.View()) ==> forall i :: 0 <= i < |out| ==>
        out[i].id in MemberIds(store.View(), user) && out[i].id in store.View().records
        && out[i] == Reported(env, store.View().records[out[i].id])
    {
      out, order := store.List(user, id => true);
      assert Readable(MemberIds(store.View(), user), id => true) == MemberIds(store.View(), user);
      ghost var list := out;
      for i := 0 to |out|
        invariant |out| == |list|
        invariant forall j :: 0 <= j < i ==> out[j] == Reported(env, list[j])
        invariant forall j :: i <= j < |out| ==> out[j] == list[j]
      {
        if Dead(env, out[i]) {
          out := out[i := out[i].(state := Error)];
        }
      }
    }

    /** What a pass works from, when no read fails. */
    method ListAll() returns (list: seq<Sandbox>, ghost order: seq<Id>)
      ensures Enumerates(order, store.View().all) && list == Found(store.View(), order)
    {
      list, order := store.List(None, id => true);
      assert Readable(store.View().all, id => true) == store.View().all;
    }

    /** One record of a pass, as listed when the pass began. */
    method ReconcileOne(sb: Sandbox)
      requires Valid()
      modifies this, store, relay
      ensures Valid() && store.View() == ReconcileRecord(env, old(store.View()), sb)
      ensures sb.id in old(store.View()).records ==>
        var touched := TouchesVm(env, old(store.View()), sb);
        && vmCalls == old(vmCalls) + (if touched then [sb.id] else [])
        && relay.byID == if touched then old(relay.byID) - {sb.id} else old(relay.byID)
    {
      if sb.state == Error {
        var holder := store.UserSlot(sb.user);
        if holder == Some(sb.id) {
          Delete(sb.id);
        } else if env.now - sb.lastActivity > ERROR_GC {
          store.Delete(sb.id);
        }
      } else if Dead(env, sb) {
        TeardownDead(sb);
      }
    }

    /** The first i records of the list have been treated. */
    ghost predicate PartDone(db: Db, table: Table, calls: seq<Id>, list: seq<Sandbox>, i: nat)
      requires i <= |list|
      reads this, store, relay
    {
      && store.View() == ReconcileList(env, db, list[..i])
      && (Coherent(db) ==>
            && vmCalls == calls + Touched(env, db, list[..i])
            && relay.byID == Without(table, Touched(env, db, list[..i])))
    }

    method ReconcileNext(ghost db: Db, ghost table: Table, ghost calls: seq<Id>, ghost order: seq<Id>,
      list: seq<Sandbox>, i: nat)
      requires Valid() && i < |list| && PartDone(db, table, calls, list, i)
      requires Enumerates(order, db.all) && list == Found(db, order)
      modifies this, store, relay
      ensures Valid() && PartDone(db, table, calls, list, i + 1)
    {
      assert list[..i + 1][..i] == list[..i];
      OneMoreTouched(env, db, order, i);
      WithoutOneMore(table, Touched(env, db, list[..i]), list[i].id);
      ReconcileOne(list[i]);
    }

    /** The record half of a pass. A coherent store ends as every record's verdict says, in whatever
        order the server lists it; no VM is touched but those of held errors and of the dead. */
    method ReconcileRecords() returns (ghost order: seq<Id>)
      requires Valid()
      modifies this, store, relay
      ensures Valid() && Enumerates(order, old(store.View()).all)
      ensures store.View() == ReconcileList(env, old(store.View()), Found(old(store.View()), order))
      ensures Coherent(old(store.View())) ==> SameStore(store.View(), Reconciled(env, old(store.View())))
      ensures Coherent(old(store.View())) ==>
        var touched := Touched(env, old(store.View()), Found(old(store.View()), order));
        vmCalls == old(vmCalls) + touched && relay.byID == Without(old(relay.byID), touched)
    {
      ghost var db, table, calls := store.View(), relay.byID, vmCalls;
      var list: seq<Sandbox>;
      list, order := ListAll();
      assert Without(table, []) == table;
      for i := 0 to |list|
        invariant Valid() && PartDone(db, table, calls, list, i)
      {
        ReconcileNext(db, table, calls, order, list, i);
      }
      assert list[..|list|] == list;
      AnyOrderReconciles(env, db, order);
    }

    /** Re-reads the record after opening a listener. */
    method CloseSSHUnlessRunning(id: Id) returns (running: bool)
      requires Valid()
      modifies relay
      ensures Valid() && running == StateIs(store.View(), id, Running)
      ensures relay.byID == if running then old(relay.byID) else old(relay.byID) - {id}
    {
      var cur := store.Get(id);
      if cur.Some? && cur.value.state == Running {
        return true;
      }
      relay.Close(id);
      return false;
    }

    /** The running sandboxes that have an address, from one listing. */
    method RunningSandboxes() returns (running: map<Id, Addr>)
      ensures Coherent(store.View()) ==> running == RunningAddrs(store.View())
    {
      ghost var order;
      var list: seq<Sandbox>;
      list, order := ListAll();
      running := map[];
      for i := 0 to |list|
        invariant running == ListedAddrs(list[..i])
      {
        assert list[..i + 1][..i] == list[..i];
        if list[i].state == Running && list[i].ip != NoAddr {
          running := running[list[i].id := list[i].ip];
        }
      }
      assert list[..|list|] == list;
      if Coherent(store.View()) {
        ListedAddrsAreRunning(store.View(), order);
      }
    }

    method ReopenListener(id: Id, ip: Addr)
      requires Valid()
      modifies store, relay
      ensures Valid()
      ensures Ssh(relay.byID, store.View()) == Reopen(host, old(Ssh(relay.byID, store.View())), id, ip)
    {
      var port := store.SSHPort(id);
      if port <= 0 {
        return;
      }
      var out := relay.Ensure(id, ip, port, host.bindable);
      if !out.Opened? {
        return;
      }
      if out.port != port {
        if !host.portSaved(id) {
          relay.Close(id);
          return;
        }
        store.SetSSHPort(id, out.port);
      }
      var running := CloseSSHUnlessRunning(id);
    }

    /** Visits the running sandboxes in whatever order the map yields them. */
    method ReopenListeners(running: map<Id, Addr>) returns (ghost order: seq<Id>)
      requires Valid()
      modifies store, relay
      ensures Valid() && Enumerates(order, running.Keys)
      ensures Ssh(relay.byID, store.View()) == ReopenAll(host, old(Ssh(relay.byID, store.View())), order, running)
    {
      ghost var start := Ssh(relay.byID, store.View());
      var todo := running.Keys;
      order := [];
      while todo != {}
        invariant Valid() && todo <= running.Keys
        invariant Enumerates(order, running.Keys - todo)
        invariant Ssh(relay.byID, store.View()) == ReopenAll(host, start, order, running)
        decreases |todo|
      {
        var id :| id in todo;
        todo := todo - {id};
        ghost var longer := order + [id];
        assert longer[..|longer| - 1] == order;
        order := longer;
        ReopenListener(id, running[id]);
      }
    }

    /** Keeps listeners only for running sandboxes and reopens those a restart dropped. */
    method ReconcileSSH() returns (ghost order: seq<Id>)
      requires Valid() && Coherent(store.View())
      modifies store, relay
      ensures Valid() && Enumerates(order, RunningAddrs(old(store.View())).Keys)
      ensures Ssh(relay.byID, store.View()) == SshPass(host, old(Ssh(relay.byID, store.View())), order)
    {
      var running := RunningSandboxes();
      relay.Retain(running);
      order := ReopenListeners(running);
    }

    /** A whole pass: records first, then listeners. */
    method Reconcile()
      requires Valid() && Coherent(store.View())
      modifies this, store, relay
      ensures Valid()
      ensures SameStore(store.View().(ports := map[]), Reconciled(env, old(store.View())).(ports := map[]))
      ensures forall id :: id in relay.byID ==>
        id in RunningAddrs(store.View()) && relay.byID[id].target == RunningAddrs(store.View())[id]
      // exactly the held errors and the sandboxes known to be dead are handed to vm.Delete
      ensures old(vmCalls) <= vmCalls
      ensures var db := old(store.View());
        forall id :: id in vmCalls[|old(vmCalls)|..] <==>
          id in db.records && (HeldError(db, db.records[id]) || KnownDead(env, db.records[id]))
    {
      ghost var db := store.View();
      ghost var order := ReconcileRecords();
      forall id ensures id in Touched(env, db, Found(db, order)) <==>
          id in db.records && (HeldError(db, db.records[id]) || KnownDead(env, db.records[id]))
      {
        TouchedExactly(env, db, order, id);
      }
      FoundIsExact(db, order);
      PassKeepsCoherent(env, db, Found(db, order));
      ghost var mid := Ssh(relay.byID, store.View());
      ghost var visited := ReconcileSSH();
      PassAgreesWithStore(host, mid, visited);
      PassTouchesPortsOnly(host, mid, visited);
    }
  }
}
