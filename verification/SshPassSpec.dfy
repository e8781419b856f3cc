/** reconcileSSH without concurrent callers: the relay table and the remembered ports together. */
module SshPassSpec {
  import opened Records
  import opened StoreSpec
  import opened RelaySpec

  /** Relay table, store, and what the operating system and Redis answer during the pass. */
  datatype Ssh = Ssh(table: Table, db: Db)
  datatype Host = Host(range: Range, bindable: int -> bool, portSaved: Id -> bool)

  function Remembered(db: Db, id: Id): int {
    if id in db.ports then db.ports[id] else 0
  }

  /** Reopen one sandbox's listener, remember a new port, and re-read the record. */
  function Reopen(h: Host, s: Ssh, id: Id, ip: Addr): Ssh {
    var port := Remembered(s.db, id);
    if port <= 0 then s
    else
      var table := EnsureTable(h.range, s.table, id, ip, port, h.bindable);
      match EnsureOutcome(h.range, s.table, id, ip, port, h.bindable)
      case Opened(got) =>
        if got != port && !h.portSaved(id) then Ssh(table - {id}, s.db)
        else
          var db := if got != port then SetPort(s.db, id, got) else s.db;
          if StateIs(db, id, Running) then Ssh(table, db) else Ssh(table - {id}, db)
      case Refused => Ssh(table, s.db)
      case Exhausted => Ssh(table, s.db)
  }

  function ReopenAll(h: Host, s: Ssh, order: seq<Id>, running: map<Id, Addr>): Ssh
    requires forall id :: id in order ==> id in running
  {
    if order == [] then s
    else
      var id := order[|order| - 1];
      Reopen(h, ReopenAll(h, s, order[..|order| - 1], running), id, running[id])
  }

  /** The running sandboxes that have an address. */
  function RunningAddrs(db: Db): map<Id, Addr> {
    map id | id in db.records && db.records[id].state == Running && db.records[id].ip != NoAddr :: db.records[id].ip
  }

  function SshPass(h: Host, s: Ssh, order: seq<Id>): Ssh
    requires forall id :: id in order ==> id in RunningAddrs(s.db)
  {
    ReopenAll(h, Ssh(RetainTable(s.table, RunningAddrs(s.db)), s.db), order, RunningAddrs(s.db))
  }

  predicate Distinct(order: seq<Id>) {
    forall i, j :: 0 <= i < j < |order| ==> order[i] != order[j]
  }

  /** A listener on the remembered port and the current address. */
  predicate OnRecord(s: Ssh, id: Id, ip: Addr) {
    id in s.table && s.table[id] == Listener(Remembered(s.db, id), ip)
  }

  lemma ReopenIsLocal(h: Host, s: Ssh, id: Id, ip: Addr)
    requires Legal(h.range, s.table)
    requires id in s.table ==> s.table[id].target == ip
    ensures var s' := Reopen(h, s, id, ip);
      && Legal(h.range, s'.table)
      && s'.table - {id} == s.table - {id}
      && s'.db == s.db.(ports := s'.db.ports) && s'.db.ports - {id} == s.db.ports - {id}
      && (Remembered(s.db, id) > 0 ==> id !in s'.table || OnRecord(s', id, ip))
      && (Remembered(s.db, id) <= 0 ==> s' == s)
  {
    EnsureMeetsPromise(h.range, s.table, id, ip, Remembered(s.db, id), h.bindable);
  }

  lemma UnlessAsked(s: Ssh, s': Ssh, id: Id, x: Id)
    requires s'.table - {id} == s.table - {id} && s'.db.ports - {id} == s.db.ports - {id} && x != id
    ensures Remembered(s'.db, x) == Remembered(s.db, x)
    ensures x in s'.table <==> x in s.table
    ensures x in s.table ==> s'.table[x] == s.table[x]
  {
    assert x in s.table <==> x in s.table - {id};
    assert x in s'.table <==> x in s'.table - {id};
    assert x in s.table ==> (s'.table - {id})[x] == (s.table - {id})[x];
    assert x in s.db.ports <==> x in s.db.ports - {id};
    assert x in s'.db.ports <==> x in s'.db.ports - {id};
    assert x in s.db.ports ==> (s'.db.ports - {id})[x] == (s.db.ports - {id})[x];
  }

  /** What holds after any part of the pass. */
  ghost predicate PartWay(h: Host, s0: Ssh, s: Ssh, done: seq<Id>, running: map<Id, Addr>)
    requires forall id :: id in done ==> id in running
  {
    && Legal(h.range, s.table)
    && (forall id :: id in s.table ==> id in running && s.table[id].target == running[id])
    && (forall id :: id in done && Remembered(s0.db, id) > 0 ==> id !in s.table || OnRecord(s, id, running[id]))
    && (forall id :: id !in done ==> Remembered(s.db, id) == Remembered(s0.db, id))
    && s.db.records == s0.db.records
  }

  lemma {:induction false} ReopenAllPartWay(h: Host, s: Ssh, order: seq<Id>, running: map<Id, Addr>)
    requires Legal(h.range, s.table) && Distinct(order)
    requires forall id :: id in order ==> id in running
    requires forall id :: id in s.table ==> id in running && s.table[id].target == running[id]
    ensures PartWay(h, s, ReopenAll(h, s, order, running), order, running)
  {
    if order == [] {
    } else {
      var front, id := order[..|order| - 1], order[|order| - 1];
      ReopenAllPartWay(h, s, front, running);
      var cur := ReopenAll(h, s, front, running);
      var next := Reopen(h, cur, id, running[id]);
      assert order == front + [id];
      assert id !in front;
      ReopenIsLocal(h, cur, id, running[id]);
      forall x | x != id
        ensures Remembered(next.db, x) == Remembered(cur.db, x)
        ensures x in next.table <==> x in cur.table
        ensures x in cur.table ==> next.table[x] == cur.table[x]
      {
        UnlessAsked(cur, next, id, x);
      }
    }
  }

  lemma {:induction false} ReopenAllTouchesPortsOnly(h: Host, s: Ssh, order: seq<Id>, running: map<Id, Addr>)
    requires forall id :: id in order ==> id in running
    ensures ReopenAll(h, s, order, running).db.(ports := map[]) == s.db.(ports := map[])
  {
    if order == [] {
    } else {
      ReopenAllTouchesPortsOnly(h, s, order[..|order| - 1], running);
    }
  }

  lemma PassTouchesPortsOnly(h: Host, s: Ssh, order: seq<Id>)
    requires forall id :: id in order ==> id in RunningAddrs(s.db)
    ensures SshPass(h, s, order).db.(ports := map[]) == s.db.(ports := map[])
  {
    ReopenAllTouchesPortsOnly(h, Ssh(RetainTable(s.table, RunningAddrs(s.db)), s.db), order, RunningAddrs(s.db));
  }

  /** After a pass, in any order: a listener exists only for a running sandbox, at its current
      address; and every sandbox with a remembered port either listens on exactly the port that is
      remembered now, or has no listener. */
  lemma PassAgreesWithStore(h: Host, s: Ssh, order: seq<Id>)
    requires Legal(h.range, s.table) && Distinct(order)
    requires forall id :: id in order <==> id in RunningAddrs(s.db)
    ensures var s' := SshPass(h, s, order);
      && Legal(h.range, s'.table)
      && (forall id :: id in s'.table ==> id in RunningAddrs(s.db) && s'.table[id].target == RunningAddrs(s.db)[id])
      && (forall id :: id in s'.table ==>
            StateIs(s.db, id, Running) && s.db.records[id].ip == s'.table[id].target && s'.table[id].target != NoAddr)
      && (forall id :: id in RunningAddrs(s.db) && Remembered(s.db, id) > 0 ==>
            id !in s'.table || s'.table[id].port == Remembered(s'.db, id))
  {
    var running := RunningAddrs(s.db);
    ReopenAllPartWay(h, Ssh(RetainTable(s.table, running), s.db), order, running);
  }

  /** A pass cuts nothing: a listener on the current address of a running sandbox, on its remembered
      port or with none remembered, is there unchanged after the Retain and after every part of the
      reopening. */
  lemma {:induction false} PassCutsNothing(h: Host, s: Ssh, order: seq<Id>, id: Id)
    requires Legal(h.range, s.table) && Distinct(order)
    requires forall x :: x in order ==> x in RunningAddrs(s.db)
    requires id in s.table && id in RunningAddrs(s.db) && s.table[id].target == RunningAddrs(s.db)[id]
    requires Remembered(s.db, id) <= 0 || s.table[id].port == Remembered(s.db, id)
    ensures var kept := RetainTable(s.table, RunningAddrs(s.db)); id in kept && kept[id] == s.table[id]
    ensures id in SshPass(h, s, order).table && SshPass(h, s, order).table[id] == s.table[id]
    decreases |order|
  {
    var running := RunningAddrs(s.db);
    var kept := Ssh(RetainTable(s.table, running), s.db);
    if order == [] {
    } else {
      var front, x := order[..|order| - 1], order[|order| - 1];
      PassCutsNothing(h, s, front, id);
      ReopenAllPartWay(h, kept, front, running);
      var cur := ReopenAll(h, kept, front, running);
      ReopenAllTouchesPortsOnly(h, kept, front, running);
      ReopenIsLocal(h, cur, x, running[x]);
      if x == id {
        assert Remembered(cur.db, id) == Remembered(s.db, id);
      } else {
        UnlessAsked(cur, Reopen(h, cur, x, running[x]), x, id);
      }
    }
  }

  /** A running sandbox without a listener gets its remembered port if that can be had. */
  lemma ReopenPrefersRemembered(h: Host, s: Ssh, id: Id, ip: Addr)
    requires id !in s.table && StateIs(s.db, id, Running) && Dialable(ip)
    requires var p := Remembered(s.db, id); p > 0 && InRange(h.range, p) && Free(s.table, h.bindable, p)
    ensures Reopen(h, s, id, ip) == Ssh(s.table[id := Listener(Remembered(s.db, id), ip)], s.db)
  {
    assert s.table - {id} == s.table;
  }

  /** If it cannot, and q is the least free port, it listens on q, and q is remembered in place of the
      old port; if q cannot be stored there is no listener, and the old port stays remembered. */
  lemma ReopenTakesLeast(h: Host, s: Ssh, id: Id, ip: Addr, q: int)
    requires id !in s.table && StateIs(s.db, id, Running) && Dialable(ip)
    requires var p := Remembered(s.db, id); p > 0 && !(InRange(h.range, p) && Free(s.table, h.bindable, p))
    requires InRange(h.range, q) && Free(s.table, h.bindable, q)
    requires forall x :: h.range.start <= x < q ==> !Free(s.table, h.bindable, x)
    ensures Reopen(h, s, id, ip) ==
      if h.portSaved(id) then Ssh(s.table[id := Listener(q, ip)], s.db.(ports := s.db.ports[id := q])) else s
  {
    assert s.table - {id} == s.table;
    LeastFromIsLeast(h.range, s.table, h.bindable, h.range.start);
    if h.portSaved(id) {
      assert StateIs(SetPort(s.db, id, q), id, Running);
    } else {
      assert s.table[id := Listener(q, ip)] - {id} == s.table;
    }
  }

  /** A listener opened for a sandbox that has stopped running meanwhile is closed at once. */
  lemma ReopenRechecks(h: Host, s: Ssh, id: Id, ip: Addr)
    requires !StateIs(s.db, id, Running) && Dialable(ip) && Remembered(s.db, id) > 0
    ensures id !in Reopen(h, s, id, ip).table
  {}

  /** With no port of the range free, and for a sandbox without a remembered port, nothing happens. */
  lemma ReopenLeavesAlone(h: Host, s: Ssh, id: Id, ip: Addr)
    requires id !in s.table
    requires Remembered(s.db, id) <= 0 || forall x :: InRange(h.range, x) ==> !Free(s.table, h.bindable, x)
    ensures Reopen(h, s, id, ip) == s
  {
    assert s.table - {id} == s.table;
    LeastFromIsLeast(h.range, s.table, h.bindable, h.range.start);
  }

  // ---- after a restart ----

  /** The remembered ports can all be taken: distinct, in the range, not held by other processes. */
  ghost predicate Restorable(h: Host, db: Db, running: map<Id, Addr>) {
    && (forall id :: id in running && Remembered(db, id) > 0 ==>
          Dialable(running[id]) && InRange(h.range, Remembered(db, id)) && h.bindable(Remembered(db, id)))
    && (forall a, b :: a in running && b in running && Remembered(db, a) > 0 ==>
          Remembered(db, a) == Remembered(db, b) ==> a == b)
  }

  /** The table that gives each of the sandboxes seen so far its own port back. */
  function Restored(db: Db, done: seq<Id>, running: map<Id, Addr>): Table
    requires forall id :: id in done ==> id in running
  {
    map id | id in done && Remembered(db, id) > 0 :: Listener(Remembered(db, id), running[id])
  }

  lemma ReopenRestores(h: Host, db: Db, table: Table, id: Id, ip: Addr)
    requires id !in table && StateIs(db, id, Running) && Remembered(db, id) > 0
    requires Dialable(ip) && InRange(h.range, Remembered(db, id)) && h.bindable(Remembered(db, id))
    requires Remembered(db, id) !in Used(table)
    ensures Reopen(h, Ssh(table, db), id, ip) == Ssh(table[id := Listener(Remembered(db, id), ip)], db)
  {}

  lemma RestoredGrows(h: Host, db: Db, front: seq<Id>, id: Id, running: map<Id, Addr>)
    requires id !in front && id in running && Restorable(h, db, running)
    requires forall x :: x in front ==> x in running
    ensures Remembered(db, id) > 0 ==>
      && id !in Restored(db, front, running) && Remembered(db, id) !in Used(Restored(db, front, running))
      && Restored(db, front + [id], running)
         == Restored(db, front, running)[id := Listener(Remembered(db, id), running[id])]
    ensures Remembered(db, id) <= 0 ==> Restored(db, front + [id], running) == Restored(db, front, running)
  {}

  lemma {:induction false} EveryOrderRestores(h: Host, db: Db, order: seq<Id>, running: map<Id, Addr>)
    requires Distinct(order) && Restorable(h, db, running)
    requires forall id :: id in order ==> id in running && StateIs(db, id, Running)
    ensures ReopenAll(h, Ssh(map[], db), order, running) == Ssh(Restored(db, order, running), db)
  {
    if order == [] {
    } else {
      var front, id := order[..|order| - 1], order[|order| - 1];
      EveryOrderRestores(h, db, front, running);
      assert order == front + [id];
      assert id !in front;
      RestoredGrows(h, db, front, id, running);
      if Remembered(db, id) > 0 {
        ReopenRestores(h, db, Restored(db, front, running), id, running[id]);
      }
    }
  }

  /** A restarted manager, its relay empty, gives every running sandbox its own port back, whatever
      order it visits them in, and leaves the store as it was. */
  lemma RestartRestoresPorts(h: Host, db: Db, order: seq<Id>)
    requires Distinct(order) && Restorable(h, db, RunningAddrs(db))
    requires forall id :: id in order <==> id in RunningAddrs(db)
    ensures SshPass(h, Ssh(map[], db), order).db == db
    ensures var table := SshPass(h, Ssh(map[], db), order).table;
      && (forall id :: id in table <==> id in RunningAddrs(db) && Remembered(db, id) > 0)
      && (forall id :: id in table ==> table[id] == Listener(Remembered(db, id), RunningAddrs(db)[id]))
  {
    assert RetainTable(map[], RunningAddrs(db)) == map[];
    EveryOrderRestores(h, db, order, RunningAddrs(db));
  }
}
