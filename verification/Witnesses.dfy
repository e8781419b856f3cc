/** Runs that show the exceptions are real: listeners that outlive their sandbox, live VMs without a
    slot or a record, two live VMs of one user, and a `creating` record without its slot. */
module Witnesses {
  import opened Records
  import opened StoreSpec
  import opened Lifecycle
  import opened LifecycleInvariant
  import opened LifecycleEffects
  import opened LifecycleTheorems

  const YES: Answer := Answer(true, false, false, V4(10, 88, 0, 2), 40000, 0)
  const NO: Answer := Answer(false, false, false, NoAddr, 0, 0)
  const HIDDEN: Answer := Answer(false, true, false, NoAddr, 0, 0) // took effect, reported an error

  lemma GoCreate(w: World, t: nat, sb: Sandbox, at: Stage, ans: Answer) returns (w': World)
    requires Reachable(w) && t in w.threads && w.threads[t] == Create(sb, at)
    ensures w' == StepCreate(w, t, sb, at, ans) && Reachable(w')
  {
    w' := Next(w, Go(t, ans));
    ReachableNext(w, Go(t, ans));
  }

  lemma GoDelete(w: World, t: nat, ans: Answer) returns (w': World)
    requires Reachable(w) && t in w.threads && (w.threads[t].DRead? || w.threads[t].DMark? || w.threads[t].DClose?)
    ensures w' == StepDelete(w, t, w.threads[t], ans) && Reachable(w')
  {
    w' := Next(w, Go(t, ans));
    ReachableNext(w, Go(t, ans));
  }

  lemma GoReap(w: World, t: nat, ans: Answer) returns (w': World)
    requires Reachable(w) && t in w.threads
    requires var th := w.threads[t]; th.RRead? || th.RCheck? || th.RMark? || th.RClose?
    ensures w' == StepReap(w, t, w.threads[t], ans) && Reachable(w')
  {
    w' := Next(w, Go(t, ans));
    ReachableNext(w, Go(t, ans));
  }

  lemma GoTeardown(w: World, t: nat, ans: Answer) returns (w': World)
    requires Reachable(w) && t in w.threads && (w.threads[t].TVm? || w.threads[t].TRead? || w.threads[t].TErase?)
    ensures w' == StepTeardown(w, t, w.threads[t], ans) && Reachable(w')
  {
    w' := Next(w, Go(t, ans));
    ReachableNext(w, Go(t, ans));
  }

  lemma GoAttach(w: World, t: nat, ans: Answer) returns (w': World)
    requires Reachable(w) && t in w.threads && (w.threads[t].ARead? || w.threads[t].AWrite?)
    ensures w' == StepAttach(w, t, w.threads[t], ans) && Reachable(w')
  {
    w' := Next(w, Go(t, ans));
    ReachableNext(w, Go(t, ans));
  }

  lemma GoSsh(w: World, t: nat, ans: Answer) returns (w': World)
    requires Reachable(w) && t in w.threads
    requires var th := w.threads[t]; th.SRead? || th.SOpen? || th.SPort? || th.SRecheck?
    ensures w' == StepSsh(w, t, w.threads[t], ans) && Reachable(w')
  {
    w' := Next(w, Go(t, ans));
    ReachableNext(w, Go(t, ans));
  }

  lemma ReachableDo(w: World, a: Action) returns (w': World)
    requires Reachable(w) && Enabled(w, a)
    ensures w' == Next(w, a) && Reachable(w')
  {
    w' := Next(w, a);
    ReachableNext(w, a);
  }

  lemma InitialReachable()
    ensures Reachable(INITIAL)
  {
    assert Runs(INITIAL, []) && After(INITIAL, []) == INITIAL;
  }

  /** The run between the two states needed no exception. */
  predicate SameExceptions(w: World, w': World) {
    w'.marks == w.marks.(stale := w'.marks.stale)
  }

  predicate OtherRecordsStand(w: World, w': World, id: Id) {
    w'.db.records - {id} == w.db.records - {id}
  }

  /** A Create that has reserved its slot in time and meets no obstacle commits. */
  lemma BootSucceeds(w: World, t: nat, sb: Sandbox) returns (w': World)
    requires Reachable(w) && t in w.threads && w.threads[t] == Create(sb, Boot)
    requires sb.id in w.born && w.now < Deadline(w, sb.id) && MayCommit(w.db, sb)
    ensures Reachable(w') && w'.threads == w.threads - {t} && w'.reserved == w.reserved && w'.born == w.born
    ensures StateIs(w'.db, sb.id, Running) && w'.db.slots == w.db.slots && w'.vms == w.vms + {sb.id}
    ensures w'.flights == w.flights - {sb.id}
    ensures SameExceptions(w, w') && OtherRecordsStand(w, w', sb.id)
  {
    w' := GoCreate(w, t, sb, Boot, YES);
    var booted := sb.(ip := YES.ip);
    assert w'.threads[t] == Create(booted, Booted) && w'.db == w.db;
    w' := GoCreate(w', t, booted, Booted, YES);
  }

  lemma CreateBegins(w: World, t: nat, id: Id, user: User) returns (w': World, sb: Sandbox)
    requires Reachable(w) && t !in w.threads && id !in w.born
    ensures Reachable(w') && w'.threads == w.threads[t := Create(sb, Claim)] && sb.id == id && sb.user == user
    ensures w'.db == w.db && w'.born == w.born[id := Birth(user, w.now)] && w'.now == w.now
    ensures sb.state == Creating && w'.vms == w.vms && SameExceptions(w, w')
  {
    sb := Sandbox(id, user, Creating, NoAddr, None, w.now);
    w' := ReachableDo(w, NewCreate(t, id, user));
    w' := GoCreate(w', t, sb, Begin, YES);
  }

  lemma CreateReserves(w: World, t: nat, id: Id, user: User) returns (w': World, sb: Sandbox)
    requires Reachable(w) && t !in w.threads && id !in w.born && user !in w.db.slots
    ensures Reachable(w') && w'.threads == w.threads[t := Create(sb, Prep)] && sb.id == id && sb.user == user
    ensures MayCommit(w'.db, sb) && w'.db.records[id] == sb && w'.db.slots == w.db.slots[user := id]
    ensures id in w'.reserved && w'.born == w.born[id := Birth(user, w.now)] && w'.now == w.now
    ensures w'.vms == w.vms && SameExceptions(w, w') && OtherRecordsStand(w, w', id)
  {
    w', sb := CreateBegins(w, t, id, user);
    w' := GoCreate(w', t, sb, Claim, YES);
  }

  lemma ContainerIsMade(w: World, t: nat, sb: Sandbox) returns (w': World)
    requires Reachable(w) && t in w.threads && w.threads[t] == Create(sb, Prep)
    ensures Reachable(w') && w'.threads == w.threads[t := Create(sb, Boot)] && w'.db == w.db
    ensures w'.reserved == w.reserved && w'.born == w.born && w'.now == w.now
    ensures w'.vms == w.vms && SameExceptions(w, w')
  {
    w' := GoCreate(w, t, sb, Prep, YES);
  }

  lemma CreateReachesBoot(w: World, t: nat, id: Id, user: User) returns (w': World, sb: Sandbox)
    requires Reachable(w) && t !in w.threads && id !in w.born && user !in w.db.slots
    ensures Reachable(w') && w'.threads == w.threads[t := Create(sb, Boot)] && sb.id == id && sb.user == user
    ensures MayCommit(w'.db, sb) && w'.db.slots == w.db.slots[user := id]
    ensures id in w'.reserved && w'.born == w.born[id := Birth(user, w.now)] && w'.now == w.now
    ensures w'.vms == w.vms && SameExceptions(w, w') && OtherRecordsStand(w, w', id)
  {
    w', sb := CreateReserves(w, t, id, user);
    w' := ContainerIsMade(w', t, sb);
    assert w'.threads == w.threads[t := Create(sb, Boot)];
  }

  lemma CreateSucceeds(w: World, t: nat, id: Id, user: User) returns (w': World)
    requires Reachable(w) && t !in w.threads && id !in w.born && user !in w.db.slots
    ensures Reachable(w') && w'.threads == w.threads && id in w'.reserved
    ensures StateIs(w'.db, id, Running) && HoldsSlot(w'.db, user, id) && w'.vms == w.vms + {id}
    ensures w'.born == w.born[id := Birth(user, w.now)]
    ensures SameExceptions(w, w') && OtherRecordsStand(w, w', id)
  {
    var booting, sb := CreateReachesBoot(w, t, id, user);
    w' := BootSucceeds(booting, t, sb);
    assert w'.threads == w.threads;
  }

  lemma BornAndKeyed(w: World, id: Id)
    requires Reachable(w) && id in w.db.records
    ensures id in w.born && w.db.records[id].id == id
  {
    ReachableInv(w);
    assert CoreFor(w, id);
  }

  lemma MarkCloses(w: World, t: nat, sb: Sandbox) returns (w': World)
    requires Reachable(w) && t in w.threads && w.threads[t] == DMark(sb)
    ensures Reachable(w') && w'.threads == w.threads[t := TVm(sb.id)] && w'.db == Put(w.db, sb)
    ensures w'.born == w.born && w'.now == w.now && w'.vms == w.vms && SameExceptions(w, w')
  {
    w' := GoDelete(w, t, YES);
    assert w'.threads == w.threads[t := DClose(sb.id)];
    w' := GoDelete(w', t, YES);
  }

  lemma DeleteMarks(w: World, t: nat, id: Id) returns (w': World)
    requires Reachable(w) && t !in w.threads && id in w.db.records
    ensures Reachable(w') && w'.threads == w.threads[t := TVm(id)]
    ensures StateIs(w'.db, id, Terminating) && w'.db.slots == w.db.slots
    ensures w'.born == w.born && w'.now == w.now && w'.vms == w.vms && SameExceptions(w, w')
  {
    BornAndKeyed(w, id);
    var marked := w.db.records[id].(state := Terminating, lastActivity := w.now);
    w' := ReachableDo(w, NewDelete(t, id));
    w' := GoDelete(w', t, YES);
    assert w'.threads == w.threads[t := DMark(marked)];
    w' := MarkCloses(w', t, marked);
    assert w'.threads == w.threads[t := TVm(id)];
  }

  lemma TeardownErases(w: World, t: nat, id: Id) returns (w': World)
    requires Reachable(w) && t in w.threads && w.threads[t] == TRead(id) && id in w.db.records && id in w.born
    ensures Reachable(w') && w'.threads == w.threads - {t} && id !in w'.db.records && w'.born == w.born
    ensures w'.db.slots == Release(w.db, w.born[id].user, id).slots
    ensures w'.vms == w.vms && w'.listeners == w.listeners && w'.flights == w.flights && SameExceptions(w, w')
  {
    w' := GoTeardown(w, t, YES);
    assert w'.threads[t] == TErase(id) && w'.db == w.db;
    w' := GoTeardown(w', t, YES);
  }

  lemma TeardownRuns(w: World, t: nat, id: Id) returns (w': World)
    requires Reachable(w) && t in w.threads && w.threads[t] == TVm(id) && id in w.db.records && id in w.born
    ensures Reachable(w') && w'.threads == w.threads - {t} && id !in w'.db.records && w'.born == w.born
    ensures w'.listeners == w.listeners && SameExceptions(w, w')
  {
    w' := GoTeardown(w, t, YES);
    assert w'.threads[t] == TRead(id) && w'.db == w.db;
    w' := TeardownErases(w', t, id);
  }

  /** The reaper of a dead VM reaches its teardown even when it cannot persist the error. */
  lemma FailedPutIsIgnored(w: World, id: Id) returns (w': World)
    requires Reachable(w) && w.threads == map[0 := RRead(id)] && id !in w.vms
    requires StateIs(w.db, id, Running) && w.db.records[id].id == id
    ensures Reachable(w') && w'.threads == map[0 := TVm(id)] && w'.db == w.db && w'.born == w.born
  {
    w' := GoReap(w, 0, YES);
    assert w'.threads[0] == RCheck(w.db.records[id]) && w'.vms == w.vms && w'.db == w.db;
    w' := GoReap(w', 0, YES);
    assert w'.threads[0] == RMark(w.db.records[id]);
    w' := GoReap(w', 0, NO);
    assert w'.threads[0] == RClose(id);
    w' := GoReap(w', 0, NO);
  }

  lemma DeadVmIsReaped(w: World, id: Id) returns (w': World)
    requires Reachable(w) && w.threads == map[] && StateIs(w.db, id, Running) && id in w.reserved
    ensures Reachable(w') && w'.threads == map[0 := TVm(id)] && w'.db == w.db && id in w'.born
  {
    BornAndKeyed(w, id);
    w' := ReachableDo(w, Dies(id));
    w' := ReachableDo(w', NewReap(0, id));
    w' := FailedPutIsIgnored(w', id);
  }

  lemma SessionOpens(w: World, id: Id) returns (w': World)
    requires Reachable(w) && 1 in w.threads && w.threads[1] == SOpen(id) && StateIs(w.db, id, Running)
    ensures Reachable(w') && w'.threads == w.threads - {1} && id in w'.listeners
    ensures w'.db.records == w.db.records && w'.born == w.born && w'.marks == w.marks
  {
    w' := GoSsh(w, 1, YES);
    assert w'.threads[1].SPort?;
    w' := GoSsh(w', 1, YES);
    assert w'.threads[1] == SRecheck(id) && w'.db.records == w.db.records;
    w' := GoSsh(w', 1, YES);
  }

  lemma SessionIsPrepared(w: World, id: Id) returns (w': World)
    requires Reachable(w) && 1 !in w.threads && StateIs(w.db, id, Running)
    ensures Reachable(w') && w'.threads == w.threads && id in w'.listeners
    ensures w'.db.records == w.db.records && w'.born == w.born && w'.marks == w.marks
  {
    w' := ReachableDo(w, NewSsh(1, id));
    w' := GoSsh(w', 1, YES);
    w' := SessionOpens(w', id);
    assert w'.threads == w.threads;
  }

  // ---- a listener that outlives its sandbox ----

  /** From every quiescent state with a running sandbox: its VM dies, the Put of its error fails,
      and the system comes to rest with an open listener for a record that is gone. */
  lemma FailedPutLeavesListener(w: World, id: Id) returns (w': World)
    requires Reachable(w) && w.threads == map[] && StateIs(w.db, id, Running) && id in w.reserved
    ensures Reachable(w') && w'.threads == map[]
    ensures Leaked(w', id) && id !in w'.db.records
  {
    w' := DeadVmIsReaped(w, id);
    w' := SessionIsPrepared(w', id);
    w' := TeardownRuns(w', 0, id);
  }

  lemma StrayListenerExists()
    ensures exists w, id :: Reachable(w) && w.threads == map[] && Leaked(w, id)
  {
    InitialReachable();
    var running := CreateSucceeds(INITIAL, 0, 0, 0);
    var w := FailedPutLeavesListener(running, 0);
    assert Reachable(w) && Leaked(w, 0);
  }

  // ---- a success that went unreported ----

  /** From every quiescent state with a running sandbox: a session opens, and the mark of a Delete
      takes effect but is reported as failed, so that the Delete returns before its Close. */
  lemma HiddenMarkLeavesListener(w: World, id: Id) returns (w': World)
    requires Reachable(w) && w.threads == map[] && StateIs(w.db, id, Running)
    ensures Reachable(w') && w'.threads == map[] && w'.marks == w.marks.(unsure := w'.marks.unsure)
    ensures Leaked(w', id) && StateIs(w'.db, id, Terminating)
  {
    w' := SessionIsPrepared(w, id);
    BornAndKeyed(w', id);
    var marked := w'.db.records[id].(state := Terminating, lastActivity := w'.now);
    w' := ReachableDo(w', NewDelete(2, id));
    w' := GoDelete(w', 2, YES);
    assert w'.threads[2] == DMark(marked);
    w' := GoDelete(w', 2, HIDDEN);
  }

  // ---- a live VM without a slot ----

  lemma VmStarts(w: World, t: nat, sb: Sandbox) returns (w': World)
    requires Reachable(w) && t in w.threads && w.threads[t] == Create(sb, Boot)
    ensures Reachable(w') && w'.threads == w.threads[t := Create(sb.(ip := YES.ip), Booted)]
    ensures w'.db == w.db && w'.born == w.born && w'.vms == w.vms + {sb.id}
  {
    w' := GoCreate(w, t, sb, Boot, YES);
  }

  /** A VM that starts after its record is gone is refused its commit; if its teardown then fails,
      it is left live and without a slot. */
  lemma RefusedBootIsLeft(w: World, t: nat, sb: Sandbox) returns (w': World)
    requires Reachable(w) && t in w.threads && w.threads[t] == Create(sb, Boot) && sb.id !in w.db.records
    ensures Reachable(w') && w'.threads == w.threads - {t} && w'.db == w.db && w'.born == w.born
    ensures sb.id in w'.vms && sb.id in w'.marks.left
  {
    w' := VmStarts(w, t, sb);
    var late := sb.(ip := YES.ip);
    w' := GoCreate(w', t, late, Booted, YES);
    assert w'.threads[t] == Create(late, Undo) && w'.db == w.db && sb.id in w'.vms;
    w' := GoCreate(w', t, late, Undo, NO);
  }

  /** Delete racing a late boot whose own cleanup fails leaves a live VM that owns no slot. */
  lemma OrphanExists()
    ensures exists w, id :: Reachable(w) && w.threads == map[] && Orphan(w, id) && id !in w.db.records
  {
    InitialReachable();
    var w, sb := CreateReachesBoot(INITIAL, 0, 0, 0);
    w := DeleteMarks(w, 1, 0);
    w := TeardownRuns(w, 1, 0);
    assert w.threads[0] == Create(sb, Boot);
    w := RefusedBootIsLeft(w, 0, sb);
    ReachableInv(w);
    assert CoreFor(w, 0);
    assert w.threads == map[];
    assert Reachable(w) && 0 in w.vms && !Holds(w, 0);
    assert Orphan(w, 0);
  }

  // ---- an attach that stores a stale copy, with every answer a success ----

  lemma AttachReads(w: World, t: nat, id: Id, device: nat) returns (w': World, copy: Sandbox)
    requires Reachable(w) && t !in w.threads && id in w.db.records
    ensures Reachable(w') && w'.threads == w.threads[t := AWrite(copy)] && w'.db == w.db
    ensures copy == w.db.records[id].(device := Some(device), lastActivity := w.now) && copy.id == id
    ensures w'.born == w.born && w'.now == w.now && w'.vms == w.vms && SameExceptions(w, w')
  {
    BornAndKeyed(w, id);
    copy := w.db.records[id].(device := Some(device), lastActivity := w.now);
    w' := ReachableDo(w, NewAttach(t, id, device));
    w' := GoAttach(w', t, YES);
    assert w'.threads == w.threads[t := AWrite(copy)];
  }

  /** Its Put undoes whatever was stored meanwhile. */
  lemma AttachStores(w: World, t: nat, copy: Sandbox) returns (w': World)
    requires Reachable(w) && t in w.threads && w.threads[t] == AWrite(copy)
    ensures Reachable(w') && w'.threads == w.threads - {t} && w'.db == Put(w.db, copy)
    ensures w'.born == w.born && w'.now == w.now && w'.vms == w.vms && SameExceptions(w, w')
  {
    w' := GoAttach(w, t, YES);
  }

  /** An attach reads, a Delete marks the record and closes, the attach stores its copy. */
  lemma AttachUnmarks(w: World, id: Id, device: nat) returns (w': World, copy: Sandbox)
    requires Reachable(w) && 2 !in w.threads && 3 !in w.threads && id in w.db.records
    ensures Reachable(w') && w'.threads == w.threads[2 := TVm(id)] && copy.id == id
    ensures copy.state == w.db.records[id].state && copy.user == w.db.records[id].user
    ensures id in w'.db.records && w'.db.records[id] == copy && w'.db.slots == w.db.slots
    ensures w'.born == w.born && w'.now == w.now && w'.vms == w.vms && SameExceptions(w, w')
  {
    w', copy := AttachReads(w, 3, id, device);
    w' := DeleteMarks(w', 2, id);
    assert w'.threads[3] == AWrite(copy);
    w' := AttachStores(w', 3, copy);
    assert w'.threads == w.threads[2 := TVm(id)];
  }

  /** From every quiescent state with a running sandbox: after such an attach a session opens, and
      the delete script then erases the record. */
  lemma StaleAttachLeavesListener(w: World, id: Id, device: nat) returns (w': World)
    requires Reachable(w) && w.threads == map[] && StateIs(w.db, id, Running)
    ensures Reachable(w') && w'.threads == map[] && SameExceptions(w, w')
    ensures Leaked(w', id) && id !in w'.db.records
  {
    var copy;
    w', copy := AttachUnmarks(w, id, device);
    w' := SessionIsPrepared(w', id);
    BornAndKeyed(w', id);
    w' := TeardownRuns(w', 2, id);
  }

  /** A teardown that comes before there is a container finds nothing to delete, and goes on. */
  lemma TeardownFindsNothing(w: World, t: nat, id: Id) returns (w': World)
    requires Reachable(w) && t in w.threads && w.threads[t] == TVm(id)
    ensures Reachable(w') && w'.threads == w.threads[t := TRead(id)] && w'.db == w.db
    ensures w'.born == w.born && w'.now == w.now && w'.vms == w.vms - {id} && SameExceptions(w, w')
  {
    w' := GoTeardown(w, t, YES);
  }

  /** An attach stores its `creating` copy over the mark of a Delete that came before the boot. */
  lemma AttachUnmarksBoot(w: World, id: Id, user: User, device: nat) returns (w': World, sb: Sandbox)
    requires Reachable(w) && w.threads == map[] && id !in w.born && user !in w.db.slots
    ensures Reachable(w') && w'.threads == map[0 := Create(sb, Prep), 2 := TRead(id)] && SameExceptions(w, w')
    ensures sb.id == id && sb.user == user && MayCommit(w'.db, sb) && w'.db.slots == w.db.slots[user := id]
    ensures w'.born == w.born[id := Birth(user, w.now)] && w'.now == w.now
  {
    var copy;
    w', sb := CreateReserves(w, 0, id, user);
    w', copy := AttachUnmarks(w', id, device);
    w' := TeardownFindsNothing(w', 2, id);
  }

  /** The boot commits after all, and the Delete then erases the record of a live VM. */
  lemma CommitIsErased(w: World, sb: Sandbox) returns (w': World)
    requires Reachable(w) && w.threads == map[0 := Create(sb, Prep), 2 := TRead(sb.id)] && MayCommit(w.db, sb)
    requires sb.id in w.born && w.born[sb.id].user == sb.user && w.now < Deadline(w, sb.id)
    ensures Reachable(w') && w'.threads == map[] && SameExceptions(w, w') && w'.born == w.born
    ensures sb.id in w'.vms && sb.id !in w'.flights && sb.id !in w'.db.records
    ensures w'.db.slots == w.db.slots - {sb.user}
  {
    w' := ContainerIsMade(w, 0, sb);
    w' := BootSucceeds(w', 0, sb);
    assert w'.threads == map[2 := TRead(sb.id)];
    w' := TeardownErases(w', 2, sb.id);
  }

  /** From every quiescent state in which a user's slot is free: a run that ends with a live VM whose
      record and slot are gone. */
  lemma StaleAttachLeavesVm(w: World, id: Id, user: User, device: nat) returns (w': World)
    requires Reachable(w) && w.threads == map[] && id !in w.born && user !in w.db.slots
    ensures Reachable(w') && w'.threads == map[] && SameExceptions(w, w')
    ensures Orphan(w', id) && id !in w'.db.records && w'.db.slots == w.db.slots
    ensures w'.born == w.born[id := Birth(user, w.now)]
  {
    var sb;
    w', sb := AttachUnmarksBoot(w, id, user, device);
    w' := CommitIsErased(w', sb);
    assert w'.db.slots == w.db.slots;
    assert !Holds(w', id);
  }

  /** So one user can come to have two live VMs. */
  lemma TwoLiveVms(w: World, a: Id, b: Id, user: User, device: nat) returns (w': World)
    requires Reachable(w) && w.threads == map[] && user !in w.db.slots
    requires a !in w.born && b !in w.born && a != b
    ensures Reachable(w') && w'.threads == map[] && SameExceptions(w, w')
    ensures a in w'.vms && b in w'.vms && SameUser(w', a, b)
  {
    w' := StaleAttachLeavesVm(w, a, user, device);
    w' := CreateSucceeds(w', 0, b, user);
  }

  // ---- a live record without its slot ----

  /** A Create whose disk or token failed cannot store its error. */
  lemma FailedPut(w: World, t: nat, sb: Sandbox) returns (w': World)
    requires Reachable(w) && t in w.threads && w.threads[t] == Create(sb, Prep)
    ensures Reachable(w') && w'.threads == w.threads[t := Create(sb, Free(false))]
    ensures w'.db == w.db && w'.born == w.born
  {
    w' := GoCreate(w, t, sb, Prep, NO);
    assert w'.threads == w.threads[t := Create(sb, Fail)];
    w' := GoCreate(w', t, sb, Fail, NO);
  }

  lemma FailedCreateStrands(w: World, id: Id, user: User) returns (w': World)
    requires Reachable(w) && w.threads == map[] && id !in w.born && user !in w.db.slots
    ensures Reachable(w') && w'.threads == map[] && w'.db.slots == w.db.slots
    ensures StateIs(w'.db, id, Creating) && w'.db.records[id].user == user && id in w'.marks.stranded
    ensures w'.born == w.born[id := Birth(user, w.now)]
  {
    var sb;
    w', sb := CreateReserves(w, 0, id, user);
    w' := FailedPut(w', 0, sb);
    w' := GoCreate(w', 0, sb, Free(false), YES);
    assert w'.threads == map[] && w'.db.slots == w.db.slots;
  }

  /** From every quiescent state in which a user's slot is free: a Create fails, cannot store its
      error and frees the slot; the user's next Create succeeds beside the `creating` record. */
  lemma StrandedBesideAnother(w: World, a: Id, b: Id, user: User) returns (w': World)
    requires Reachable(w) && w.threads == map[] && user !in w.db.slots
    requires a !in w.born && b !in w.born && a != b
    ensures Reachable(w') && w'.threads == map[]
    ensures StateIs(w'.db, a, Creating) && w'.db.records[a].user == user && !HoldsSlot(w'.db, user, a)
    ensures StateIs(w'.db, b, Running) && HoldsSlot(w'.db, user, b)
  {
    w' := FailedCreateStrands(w, a, user);
    var before := w';
    w' := CreateSucceeds(w', 0, b, user);
    assert a in before.db.records - {b} && (before.db.records - {b})[a] == before.db.records[a];
    assert a in w'.db.records - {b} && (w'.db.records - {b})[a] == w'.db.records[a];
  }
}
