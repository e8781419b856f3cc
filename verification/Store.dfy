/** The store object: fields that its methods update in place, each method tied to its script. */
module Stores {
  import opened Records
  import opened StoreSpec

  /** An order in which SMEMBERS may return a set. */
  ghost predicate Enumerates(order: seq<Id>, s: set<Id>) {
    && (forall id :: id in order <==> id in s)
    && (forall i, j :: 0 <= i < j < |order| ==> order[i] != order[j])
  }

  /** The records found for a sequence of ids, missing ones skipped. */
  function Found(db: Db, order: seq<Id>): seq<Sandbox> {
    if order == [] then []
    else
      var before := Found(db, order[..|order| - 1]);
      var id := order[|order| - 1];
      if id in db.records then before + [db.records[id]] else before
  }

  function MemberIds(db: Db, user: Option<User>): set<Id> {
    match user
    case None => db.all
    case Some(u) => set m | m in db.members && m.0 == u :: m.1
  }

  function Readable(ids: set<Id>, readable: Id -> bool): set<Id> {
    set id | id in ids && readable(id)
  }

  /** A listing of a coherent store returns each wanted record once and nothing else. */
  lemma {:induction false} FoundIsExact(db: Db, order: seq<Id>)
    requires Coherent(db)
    requires forall i, j :: 0 <= i < j < |order| ==> order[i] != order[j]
    ensures forall sb :: sb in Found(db, order) <==> sb.id in order && sb.id in db.records && db.records[sb.id] == sb
    ensures forall i, j :: 0 <= i < j < |Found(db, order)| ==> Found(db, order)[i].id != Found(db, order)[j].id
  {
    if order == [] {
    } else {
      var front := order[..|order| - 1];
      var id := order[|order| - 1];
      FoundIsExact(db, front);
      assert order == front + [id];
      assert id !in front;
      forall sb ensures sb in Found(db, order) <==> sb.id in order && sb.id in db.records && db.records[sb.id] == sb {
        assert sb.id in order <==> sb.id in front || sb.id == id;
      }
    }
  }

  lemma FoundWhenCoherent(db: Db, order: seq<Id>)
    requires forall i, j :: 0 <= i < j < |order| ==> order[i] != order[j]
    ensures Coherent(db) ==>
      && (forall sb :: sb in Found(db, order) <==> sb.id in order && sb.id in db.records && db.records[sb.id] == sb)
      && (forall i, j :: 0 <= i < j < |Found(db, order)| ==> Found(db, order)[i].id != Found(db, order)[j].id)
  {
    if Coherent(db) { FoundIsExact(db, order); }
  }

  /** A user's set lists exactly the user's records. */
  lemma ListedForUser(db: Db, user: User, sb: Sandbox)
    requires Coherent(db)
    ensures sb.id in MemberIds(db, Some(user)) <==> sb.id in db.records && db.records[sb.id].user == user
  {
    assert (user, sb.id) in db.members <==> sb.id in MemberIds(db, Some(user)) by {
      if (user, sb.id) in db.members {
        assert (user, sb.id).1 in MemberIds(db, Some(user));
      }
    }
  }

  class Store {
    var records: map<Id, Sandbox>
    var members: set<(User, Id)>
    var all: set<Id>
    var active: set<Id>
    var slots: map<User, Id>
    var ports: map<Id, int>
    var log: seq<(User, Event)>

    function View(): Db
      reads this
    {
      Db(records, members, all, active, slots, ports, log)
    }

    constructor ()
      ensures View() == EMPTY
    {
      records, members, all, active, slots, ports, log := map[], {}, {}, {}, map[], map[], [];
    }

    method Put(sb: Sandbox)
      modifies this
      ensures View() == StoreSpec.Put(old(View()), sb)
    {
      records := records[sb.id := sb];
      members := members + {(sb.user, sb.id)};
      all := all + {sb.id};
      if Active(sb.state) {
        active := active + {sb.id};
      } else {
        active := active - {sb.id};
      }
      log := log + [(sb.user, Stored(sb))];
    }

    method PutRunning(sb: Sandbox) returns (committed: bool)
      modifies this
      ensures committed <==> MayCommit(old(View()), sb)
      ensures View() == StoreSpec.PutRunning(old(View()), sb)
    {
      if sb.user !in slots || slots[sb.user] != sb.id {
        return false;
      }
      if sb.id !in records || records[sb.id].state != Creating {
        return false;
      }
      records := records[sb.id := sb];
      log := log + [(sb.user, Stored(sb))];
      return true;
    }

    method Get(id: Id) returns (sb: Option<Sandbox>)
      ensures sb == if id in View().records then Some(View().records[id]) else None
    {
      sb := if id in records then Some(records[id]) else None;
    }

    method Delete(id: Id)
      modifies this
      ensures View() == StoreSpec.Delete(old(View()), id)
    {
      var sb := Get(id);
      if sb.None? {
        return;
      }
      var user := sb.value.user;
      records := records - {id};
      ports := ports - {id};
      active := active - {id};
      members := members - {(user, id)};
      all := all - {id};
      if user in slots && slots[user] == id {
        slots := slots - {user};
      }
      log := log + [(user, Removed(id))];
    }

    method ReserveUserSlot(sb: Sandbox) returns (ok: bool)
      modifies this
      ensures ok <==> sb.user !in old(View()).slots
      ensures View() == Reserve(old(View()), sb)
    {
      if sb.user in slots {
        return false;
      }
      slots := slots[sb.user := sb.id];
      records := records[sb.id := sb];
      members := members + {(sb.user, sb.id)};
      all := all + {sb.id};
      active := active + {sb.id};
      log := log + [(sb.user, Stored(sb))];
      return true;
    }

    method UserSlot(user: User) returns (holder: Option<Id>)
      ensures holder == if user in View().slots then Some(View().slots[user]) else None
    {
      holder := if user in slots then Some(slots[user]) else None;
    }

    method ReleaseUserSlot(user: User, id: Id)
      modifies this
      ensures View() == Release(old(View()), user, id)
    {
      if user in slots && slots[user] == id {
        slots := slots - {user};
      }
    }

    method SetSSHPort(id: Id, port: int)
      modifies this
      ensures View() == SetPort(old(View()), id, port)
    {
      ports := ports[id := port];
    }

    /** The remembered port, 0 when there is none. */
    method SSHPort(id: Id) returns (port: int)
      ensures port == if id in View().ports then View().ports[id] else 0
    {
      port := if id in ports then ports[id] else 0;
    }

    method PurgeUserIndexes(user: User)
      modifies this
      ensures View() == Purge(old(View()), user)
    {
      members := set m | m in members && m.0 != user;
      slots := slots - {user};
    }

    /** Reads one record per id, in an order of the server's choosing; `order` is that of the ids whose
        read does not fail. */
    method Read(wanted: set<Id>, readable: Id -> bool) returns (out: seq<Sandbox>, ghost order: seq<Id>)
      ensures Enumerates(order, Readable(wanted, readable))
      ensures out == Found(View(), order)
    {
      out, order := [], [];
      var ids := wanted;
      while ids != {}
        invariant ids <= wanted
        invariant Enumerates(order, Readable(wanted - ids, readable))
        invariant out == Found(View(), order)
        decreases |ids|
      {
        var id :| id in ids;
        assert id !in order;
        ids := ids - {id};
        if readable(id) {
          ghost var longer := order + [id];
          assert longer[..|longer| - 1] == order;
          var sb := Get(id);
          if sb.Some? {
            out := out + [sb.value];
          }
          order := longer;
        }
      }
      assert wanted - {} == wanted;
    }

    /** One SMEMBERS, then the reads; a record whose read fails is passed over. */
    method List(user: Option<User>, readable: Id -> bool) returns (out: seq<Sandbox>, ghost order: seq<Id>)
      ensures Enumerates(order, Readable(MemberIds(View(), user), readable))
      ensures out == Found(View(), order)
      ensures Coherent(View()) ==>
        && (forall sb :: sb in out <==>
              sb.id in MemberIds(View(), user) && readable(sb.id)
              && sb.id in View().records && View().records[sb.id] == sb)
        && (forall i, j :: 0 <= i < j < |out| ==> out[i].id != out[j].id)
    {
      var ids := all;
      if user.Some? {
        ids := set m | m in members && m.0 == user.value :: m.1;
      }
      out, order := Read(ids, readable);
      FoundWhenCoherent(View(), order);
    }
  }
}
