/** The Redis projection as a value, and every store script as a function on it.
    A script is one atomic step of the server, so one function. */
module StoreSpec {
  import opened Records

  datatype Event = Stored(sb: Sandbox) | Removed(id: Id)

  datatype Db = Db(
    records: map<Id, Sandbox>,     // sandbox:<id>
    members: set<(User, Id)>,      // sandbox:user:<user>, as a relation
    all: set<Id>,                  // sandbox:all
    active: set<Id>,               // sandbox:active
    slots: map<User, Id>,          // sandbox:user-slot:<user>
    ports: map<Id, int>,           // sandbox:ssh-port:<id>
    log: seq<(User, Event)>        // everything published, with its channel
  )

  const EMPTY: Db := Db(map[], {}, {}, {}, map[], map[], [])

  // ---- the scripts ----

  function Put(db: Db, sb: Sandbox): Db {
    db.(records := db.records[sb.id := sb],
        members := db.members + {(sb.user, sb.id)},
        all := db.all + {sb.id},
        active := if Active(sb.state) then db.active + {sb.id} else db.active - {sb.id},
        log := db.log + [(sb.user, Stored(sb))])
  }

  predicate HoldsSlot(db: Db, user: User, id: Id) {
    user in db.slots && db.slots[user] == id
  }

  predicate StateIs(db: Db, id: Id, state: State) {
    id in db.records && db.records[id].state == state
  }

  /** The guard of the commit script. */
  predicate MayCommit(db: Db, sb: Sandbox) {
    HoldsSlot(db, sb.user, sb.id) && StateIs(db, sb.id, Creating)
  }

  function PutRunning(db: Db, sb: Sandbox): Db {
    if MayCommit(db, sb)
    then db.(records := db.records[sb.id := sb], log := db.log + [(sb.user, Stored(sb))])
    else db
  }

  function Reserve(db: Db, sb: Sandbox): Db {
    if sb.user in db.slots then db
    else db.(slots := db.slots[sb.user := sb.id],
             records := db.records[sb.id := sb],
             members := db.members + {(sb.user, sb.id)},
             all := db.all + {sb.id},
             active := db.active + {sb.id},
             log := db.log + [(sb.user, Stored(sb))])
  }

  function Release(db: Db, user: User, id: Id): Db {
    if HoldsSlot(db, user, id) then db.(slots := db.slots - {user}) else db
  }

  /** The delete script; its keys name the user read from the record beforehand. */
  function Erase(db: Db, user: User, id: Id): Db {
    Release(db, user, id).(
      records := db.records - {id},
      ports := db.ports - {id},
      active := db.active - {id},
      members := db.members - {(user, id)},
      all := db.all - {id},
      log := db.log + [(user, Removed(id))])
  }

  function Delete(db: Db, id: Id): Db {
    if id in db.records then Erase(db, db.records[id].user, id) else db
  }

  function SetPort(db: Db, id: Id, port: int): Db {
    db.(ports := db.ports[id := port])
  }

  /** Drops the membership set and the slot, whoever holds it. */
  function Purge(db: Db, user: User): Db {
    db.(members := (set m | m in db.members && m.0 != user), slots := db.slots - {user})
  }

  function Attach(db: Db, id: Id, device: nat, now: int): Db {
    if id in db.records
    then Put(db, db.records[id].(device := Some(device), lastActivity := now))
    else db
  }

  // ---- what a subscriber sees ----

  function Apply(view: map<Id, Sandbox>, event: Event): map<Id, Sandbox> {
    match event
    case Stored(sb) => view[sb.id := sb]
    case Removed(id) => view - {id}
  }

  /** The map a subscriber of one user's channel builds from the whole history. */
  function Replay(log: seq<(User, Event)>, user: User): map<Id, Sandbox> {
    if log == [] then map[]
    else
      var last := |log| - 1;
      var before := Replay(log[..last], user);
      if log[last].0 == user then Apply(before, log[last].1) else before
  }

  function RecordsOf(db: Db, user: User): map<Id, Sandbox> {
    map id | id in db.records && db.records[id].user == user :: db.records[id]
  }

  // ---- agreement of the projection with itself ----

  ghost predicate IndexesAgree(db: Db) {
    && (forall id :: id in db.records ==> db.records[id].id == id)
    && db.all == db.records.Keys
    && (forall id :: id in db.active <==> id in db.records && Active(db.records[id].state))
    && (forall u, id :: (u, id) in db.members <==> id in db.records && db.records[id].user == u)
  }

  ghost predicate SlotsNameRecords(db: Db) {
    forall u :: u in db.slots ==> db.slots[u] in db.records && db.records[db.slots[u]].user == u
  }

  ghost predicate ChannelsReplay(db: Db) {
    forall u :: Replay(db.log, u) == RecordsOf(db, u)
  }

  ghost predicate Coherent(db: Db) {
    IndexesAgree(db) && SlotsNameRecords(db) && ChannelsReplay(db)
  }

  /** A record never changes hands. */
  predicate UserFits(db: Db, sb: Sandbox) {
    sb.id in db.records ==> db.records[sb.id].user == sb.user
  }

  /** Storing a record and publishing the same bytes moves every subscriber with the store. */
  lemma StoredReplays(db: Db, db': Db, sb: Sandbox)
    requires IndexesAgree(db) && ChannelsReplay(db) && UserFits(db, sb)
    requires db'.records == db.records[sb.id := sb]
    requires db'.log == db.log + [(sb.user, Stored(sb))]
    ensures ChannelsReplay(db')
  {}

  /** A Put keeps the projection coherent exactly when it does not move the record to another user. */
  lemma PutCoherent(db: Db, sb: Sandbox)
    requires Coherent(db)
    ensures Coherent(Put(db, sb)) <==> UserFits(db, sb)
  {
    var db' := Put(db, sb);
    if UserFits(db, sb) {
      StoredReplays(db, db', sb);
    } else {
      var other := db.records[sb.id].user;
      assert (other, sb.id) in db'.members;
    }
  }

  /** The commit script touches no index, and none needs touching. */
  lemma PutRunningCoherent(db: Db, sb: Sandbox)
    requires Coherent(db) && sb.state == Running
    ensures Coherent(PutRunning(db, sb))
    ensures StateIs(PutRunning(db, sb), sb.id, Running) || PutRunning(db, sb) == db
  {}

  lemma ReserveCoherent(db: Db, sb: Sandbox)
    requires Coherent(db) && sb.state == Creating && UserFits(db, sb)
    ensures Coherent(Reserve(db, sb))
  {
    if sb.user !in db.slots {
      StoredReplays(db, Reserve(db, sb), sb);
    }
  }

  lemma ReleaseCoherent(db: Db, user: User, id: Id)
    requires Coherent(db)
    ensures Coherent(Release(db, user, id))
  {}

  /** Also when the record is already gone: the event is then a second, harmless removal. */
  lemma EraseCoherent(db: Db, user: User, id: Id)
    requires Coherent(db)
    requires id in db.records ==> db.records[id].user == user
    ensures Coherent(Erase(db, user, id))
  {}

  lemma SetPortCoherent(db: Db, id: Id, port: int)
    requires Coherent(db)
    ensures Coherent(SetPort(db, id, port))
  {}

  /** Purging the indexes of a user is safe exactly when that user has no record left. */
  lemma PurgeCoherent(db: Db, user: User)
    requires Coherent(db)
    ensures Coherent(Purge(db, user)) <==> RecordsOf(db, user) == map[]
  {
    var db' := Purge(db, user);
    if RecordsOf(db, user) == map[] {
      forall id | id in db.records ensures db.records[id].user != user {
        assert id !in RecordsOf(db, user);
      }
      assert db'.members == db.members;
      assert db' == db;
    } else {
      var id :| id in RecordsOf(db, user);
      assert (user, id) !in db'.members;
    }
  }

  /** Whatever the store looked like: the user's set and slot are gone, and nothing else. */
  lemma PurgeRemoves(db: Db, user: User)
    ensures var db' := Purge(db, user);
      && db' == db.(members := db'.members, slots := db'.slots) && user !in db'.slots
      && (forall u :: u in db'.slots <==> u in db.slots && u != user)
      && (forall u :: u in db'.slots ==> db'.slots[u] == db.slots[u])
      && (forall u, id :: (u, id) in db'.members <==> (u, id) in db.members && u != user)
  {}

  /** The active index of a coherent store is exactly the sandboxes that are booting, up or stopping. */
  lemma ActiveIndexExactly(db: Db, id: Id)
    requires Coherent(db)
    ensures id in db.active <==> StateIs(db, id, Creating) || StateIs(db, id, Running) || StateIs(db, id, Terminating)
  {}

  /** An attach that nothing interrupts changes the device and the activity time of one record. */
  lemma AttachExactly(db: Db, id: Id, device: nat, now: int)
    requires Coherent(db) && id in db.records
    ensures var db' := Attach(db, id, device, now); var sb := db.records[id];
      && db'.records == db.records[id := Sandbox(id, sb.user, sb.state, sb.ip, Some(device), now)]
      && db'.slots == db.slots && db'.ports == db.ports && Coherent(db')
  {
    PutCoherent(db, db.records[id].(device := Some(device), lastActivity := now));
  }

  // ---- every history of store calls ----

  datatype Call =
    | CallPut(sb: Sandbox)
    | CallPutRunning(sb: Sandbox)
    | CallReserve(sb: Sandbox)
    | CallRelease(user: User, id: Id)
    | CallErase(user: User, id: Id)   // the script of a Delete, whatever happened since its read
    | CallSetPort(id: Id, port: int)
    | CallPurge(user: User)

  function Do(db: Db, call: Call): Db {
    match call
    case CallPut(sb) => Put(db, sb)
    case CallPutRunning(sb) => PutRunning(db, sb)
    case CallReserve(sb) => Reserve(db, sb)
    case CallRelease(user, id) => Release(db, user, id)
    case CallErase(user, id) => Erase(db, user, id)
    case CallSetPort(id, port) => SetPort(db, id, port)
    case CallPurge(user) => Purge(db, user)
  }

  function DoAll(db: Db, calls: seq<Call>): Db {
    if calls == [] then db else Do(DoAll(db, calls[..|calls| - 1]), calls[|calls| - 1])
  }

  /** What the service promises about the records it writes: an id keeps its user, the commit
      writes `running` and a reservation writes `creating`. */
  predicate WellFormed(owner: Id -> User, call: Call) {
    match call
    case CallPut(sb) => sb.user == owner(sb.id)
    case CallPutRunning(sb) => sb.user == owner(sb.id) && sb.state == Running
    case CallReserve(sb) => sb.user == owner(sb.id) && sb.state == Creating
    case CallErase(user, id) => user == owner(id)
    case _ => true
  }

  /** Indexes are only purged for a user without records. */
  predicate PurgesNothing(db: Db, call: Call) {
    call.CallPurge? ==> RecordsOf(db, call.user) == map[]
  }

  ghost predicate Owned(owner: Id -> User, db: Db) {
    forall id :: id in db.records ==> db.records[id].user == owner(id)
  }

  lemma CallCoherent(owner: Id -> User, db: Db, call: Call)
    requires Coherent(db) && Owned(owner, db) && WellFormed(owner, call)
    ensures Coherent(Do(db, call)) <==> PurgesNothing(db, call)
    ensures Owned(owner, Do(db, call))
  {
    match call
    case CallPut(sb) => PutCoherent(db, sb);
    case CallPutRunning(sb) => PutRunningCoherent(db, sb);
    case CallReserve(sb) => ReserveCoherent(db, sb);
    case CallRelease(user, id) => ReleaseCoherent(db, user, id);
    case CallErase(user, id) => EraseCoherent(db, user, id);
    case CallSetPort(id, port) => SetPortCoherent(db, id, port);
    case CallPurge(user) => PurgeCoherent(db, user);
  }

  /** After any history of store calls in which no purge meets a user with records, the indexes, the
      slots and every subscriber's view agree with the records. */
  lemma {:induction false} EveryHistoryCoherent(owner: Id -> User, calls: seq<Call>)
    requires forall c :: c in calls ==> WellFormed(owner, c)
    requires forall i :: 0 <= i < |calls| ==> PurgesNothing(DoAll(EMPTY, calls[..i]), calls[i])
    ensures Coherent(DoAll(EMPTY, calls)) && Owned(owner, DoAll(EMPTY, calls))
  {
    if calls == [] {
      assert forall u :: RecordsOf(EMPTY, u) == map[];
    } else {
      var front := calls[..|calls| - 1];
      forall i | 0 <= i < |front| ensures PurgesNothing(DoAll(EMPTY, front[..i]), front[i]) {
        assert front[..i] == calls[..i];
      }
      EveryHistoryCoherent(owner, front);
      CallCoherent(owner, DoAll(EMPTY, front), calls[|calls| - 1]);
    }
  }

  // ---- a Put of a stale copy ----

  /** How far a sandbox has come in its life. */
  function Rank(state: State): nat {
    match state
    case Creating => 0
    case Running => 1
    case Terminating => 2
    case Error => 2
  }

  /** The same for a stored id; one that is gone has come to the end. */
  function RankOf(db: Db, id: Id): nat {
    if id in db.records then Rank(db.records[id].state) else 2
  }

  /** Storing this copy sets its record back. */
  predicate Behind(db: Db, copy: Sandbox) {
    Rank(copy.state) < RankOf(db, copy.id)
  }

  predicate LiveState(state: State) {
    state == Creating || state == Running
  }

  predicate LiveRecord(db: Db, id: Id) {
    id in db.records && LiveState(db.records[id].state)
  }

  /** What the read-then-write of attaching a device does not check: storing a `creating` or `running`
      copy makes no dead record live if and only if the stored record is still there and live. */
  lemma StalePutRevives(db: Db, copy: Sandbox)
    requires LiveState(copy.state)
    ensures (forall id :: LiveRecord(Put(db, copy), id) ==> LiveRecord(db, id)) <==> LiveRecord(db, copy.id)
  {
    var db' := Put(db, copy);
    assert LiveRecord(db', copy.id);
    forall id | LiveRecord(db', id) && id != copy.id ensures LiveRecord(db, id) {
      assert db'.records[id] == db.records[id];
    }
  }

  /** Nor does it set any record back if and only if the stored state is not past the copy's. */
  lemma StalePutSetsBack(db: Db, copy: Sandbox)
    ensures (forall id :: RankOf(db, id) <= RankOf(Put(db, copy), id)) <==> !Behind(db, copy)
  {
    assert RankOf(Put(db, copy), copy.id) == Rank(copy.state);
  }

  /** `creating` and `running` records own their user's slot. */
  ghost predicate LiveRecordsHoldSlots(db: Db) {
    forall id :: LiveRecord(db, id) ==> HoldsSlot(db, db.records[id].user, id)
  }

  /** Slots and live records stay in agreement if and only if the copy's id still owns the slot: a
      weaker demand, met by a record that a Delete has marked and not yet erased. */
  lemma StalePutKeepsSlots(db: Db, copy: Sandbox)
    requires Coherent(db) && LiveRecordsHoldSlots(db) && UserFits(db, copy)
    requires LiveState(copy.state)
    ensures LiveRecordsHoldSlots(Put(db, copy)) <==> HoldsSlot(db, copy.user, copy.id)
  {
    var db' := Put(db, copy);
    assert db'.records[copy.id] == copy;
  }

  /** Owning the slot is not enough: a device attached from a copy read before a Delete marked the
      record turns it from `terminating` back to `running`, and every slot still fits. */
  lemma SlotDoesNotProtect(copy: Sandbox, device: nat)
    requires copy.state == Running
    ensures
      var before := PutRunning(Reserve(EMPTY, copy.(state := Creating)), copy);
      var marked := Put(before, copy.(state := Terminating));
      var after := Put(marked, copy.(device := Some(device)));
      && StateIs(before, copy.id, Running) && HoldsSlot(marked, copy.user, copy.id)
      && StateIs(marked, copy.id, Terminating) && StateIs(after, copy.id, Running)
      && LiveRecordsHoldSlots(after)
  {}

  /** One attached from a copy read before a delete brings the record back as `running` although
      another sandbox of the same user owns the slot by then. */
  lemma StaleAttachRevives(copy: Sandbox, next: Sandbox, device: nat)
    requires copy.id != next.id && copy.user == next.user
    requires copy.state == Running && next.state == Creating
    ensures
      var before := PutRunning(Reserve(EMPTY, copy.(state := Creating)), copy);
      var after := Put(Reserve(Delete(before, copy.id), next), copy.(device := Some(device)));
      && before.records == map[copy.id := copy]
      && StateIs(after, copy.id, Running)
      && HoldsSlot(after, copy.user, next.id)
      && !LiveRecordsHoldSlots(after)
  {}
}
