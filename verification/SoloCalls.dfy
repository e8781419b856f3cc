/** What whole calls come to when nothing interrupts them, written out: a Create, a prepared session,
    the listener half of a pass, and a sweep. */
module SoloCalls {
  import opened Records
  import opened StoreSpec
  import opened Lifecycle
  import opened LifecycleInvariant
  import opened LifecycleEffects
  import opened SoloRuns

  lemma LeadsBy(w0: World, w: World, a: Action)
    requires Leads(w0, w) && Enabled(w, a)
    ensures Leads(w0, Next(w, a))
  {
    var actions :| Runs(w0, actions) && After(w0, actions) == w;
    RunExtends(w0, actions, a);
  }

  function Gets(ip: Addr): Answer {
    Answer(true, false, false, ip, 0, 0)
  }

  // ---- Create ----

  function Newborn(w: World, id: Id, user: User): Sandbox {
    Sandbox(id, user, Creating, NoAddr, None, w.now)
  }

  /** The call as it arrives, its record built. */
  function Arrived(w: World, t: nat, id: Id, user: User): World {
    w.(born := w.born[id := Birth(user, w.now)], flights := w.flights[id := t],
       threads := w.threads[t := Create(Newborn(w, id, user), Claim)])
  }

  lemma SoloArrive(w: World, t: nat, id: Id, user: User)
    requires t !in w.threads && id !in w.born
    ensures Leads(w, Arrived(w, t, id, user))
  {
    LeadsNowhere(w);
    LeadsBy(w, w, NewCreate(t, id, user));
    var w' := Next(w, NewCreate(t, id, user));
    assert w'.threads[t] == Create(Newborn(w, id, user), Begin);
    LeadsCreate(w, w', t, Newborn(w, id, user), Begin, Says(true));
    w' := StepCreate(w', t, Newborn(w, id, user), Begin, Says(true));
    assert w'.threads == Arrived(w, t, id, user).threads;
  }

  /** A Create that finds the slot free holds it, with its record, before anything slow begins. */
  lemma SoloReserve(w: World, t: nat, id: Id, user: User) returns (w': World)
    requires t !in w.threads && id !in w.born && user !in w.db.slots
    ensures Leads(w, w') && w'.threads == w.threads[t := Create(Newborn(w, id, user), Prep)]
    ensures w'.db.records == w.db.records[id := Newborn(w, id, user)] && w'.db.slots == w.db.slots[user := id]
    ensures w'.vms == w.vms && w'.now == w.now && w'.born == w.born[id := Birth(user, w.now)]
  {
    SoloArrive(w, t, id, user);
    w' := Arrived(w, t, id, user);
    LeadsCreate(w, w', t, Newborn(w, id, user), Claim, Says(true));
    w' := StepCreate(w', t, Newborn(w, id, user), Claim, Says(true));
  }

  lemma SoloBoot(w0: World, w: World, t: nat, sb: Sandbox, ip: Addr) returns (w': World)
    requires Leads(w0, w) && t in w.threads && w.threads[t] == Create(sb, Prep)
    ensures Leads(w0, w') && w'.threads == w.threads[t := Create(sb.(ip := ip), Booted)]
    ensures w'.db == w.db && w'.vms == w.vms + {sb.id} && w'.now == w.now && w'.born == w.born
  {
    LeadsCreate(w0, w, t, sb, Prep, Says(true));
    w' := StepCreate(w, t, sb, Prep, Says(true));
    assert w'.threads == w.threads[t := Create(sb, Boot)];
    LeadsCreate(w0, w', t, sb, Boot, Gets(ip));
    w' := StepCreate(w', t, sb, Boot, Gets(ip));
  }

  lemma SoloCommit(w0: World, w: World, t: nat, sb: Sandbox) returns (w': World)
    requires Leads(w0, w) && t in w.threads && w.threads[t] == Create(sb, Booted)
    requires sb.id in w.born && w.now < w.born[sb.id].start + 300000
    requires sb.user in w.db.slots && w.db.slots[sb.user] == sb.id && StateIs(w.db, sb.id, Creating)
    ensures Leads(w0, w') && w'.threads == w.threads - {t} && w'.vms == w.vms
    ensures w'.db.records == w.db.records[sb.id := sb.(state := Running, lastActivity := w.now)]
    ensures w'.db.slots == w.db.slots
  {
    LeadsCreate(w0, w, t, sb, Booted, Says(true));
    w' := StepCreate(w, t, sb, Booted, Says(true));
  }

  lemma ComesAndGoes<T, U>(m: map<T, U>, k: T, a: U, b: U)
    ensures m[k := a][k := b] == m[k := b]
    ensures k !in m ==> m[k := a] - {k} == m && m[k := a][k := b] - {k} == m
  {}

  /** A Create that meets no obstacle ends with the user's slot, a live VM and this record. */
  lemma SoloCreate(w: World, t: nat, id: Id, user: User, ip: Addr) returns (w': World)
    requires t !in w.threads && id !in w.born && user !in w.db.slots
    ensures Leads(w, w') && w'.threads == w.threads && w'.vms == w.vms + {id}
    ensures w'.db.records == w.db.records[id := Sandbox(id, user, Running, ip, None, w.now)]
    ensures w'.db.slots == w.db.slots[user := id]
  {
    var held := SoloReserve(w, t, id, user);
    var booted := SoloBoot(w, held, t, Newborn(w, id, user), ip);
    w' := SoloCommit(w, booted, t, Newborn(w, id, user).(ip := ip));
    ComesAndGoes(w.threads, t, held.threads[t], booted.threads[t]);
    ComesAndGoes(w.db.records, id, Newborn(w, id, user), Sandbox(id, user, Running, ip, None, w.now));
  }

  /** The disk, the token or the boot fails. */
  lemma SoloTrouble(w0: World, w: World, t: nat, sb: Sandbox, made: bool) returns (w': World)
    requires Leads(w0, w) && t in w.threads && w.threads[t] == Create(sb, Prep)
    ensures Leads(w0, w') && w'.threads == w.threads[t := Create(sb, Fail)] && w'.db == w.db && w'.vms == w.vms
  {
    if made {
      LeadsCreate(w0, w, t, sb, Prep, Says(true));
      w' := StepCreate(w, t, sb, Prep, Says(true));
      assert w'.threads == w.threads[t := Create(sb, Boot)];
      LeadsCreate(w0, w', t, sb, Boot, Says(false));
      w' := StepCreate(w', t, sb, Boot, Says(false));
    } else {
      LeadsCreate(w0, w, t, sb, Prep, Says(false));
      w' := StepCreate(w, t, sb, Prep, Says(false));
    }
  }

  /** A Create that runs into trouble ends with an error record and the slot free again. */
  lemma SoloCreateFails(w: World, t: nat, id: Id, user: User, made: bool) returns (w': World)
    requires t !in w.threads && id !in w.born && user !in w.db.slots
    ensures Leads(w, w') && w'.threads == w.threads && w'.vms == w.vms
    ensures w'.db.records == w.db.records[id := Sandbox(id, user, Error, NoAddr, None, w.now)]
    ensures w'.db.slots == w.db.slots
  {
    var held := SoloReserve(w, t, id, user);
    var failing := SoloTrouble(w, held, t, Newborn(w, id, user), made);
    w' := SoloFail(w, failing, t, Newborn(w, id, user));
    ComesAndGoes(w.threads, t, held.threads[t], failing.threads[t]);
    ComesAndGoes(w.db.records, id, Newborn(w, id, user), Newborn(w, id, user).(state := Error));
    ComesAndGoes(w.db.slots, user, id, id);
  }

  lemma SoloFail(w0: World, w: World, t: nat, sb: Sandbox) returns (w': World)
    requires Leads(w0, w) && t in w.threads && w.threads[t] == Create(sb, Fail)
    requires sb.user in w.db.slots && w.db.slots[sb.user] == sb.id
    ensures Leads(w0, w') && w'.threads == w.threads - {t} && w'.vms == w.vms
    ensures w'.db.records == w.db.records[sb.id := sb.(state := Error)] && w'.db.slots == w.db.slots - {sb.user}
  {
    LeadsCreate(w0, w, t, sb, Fail, Says(true));
    w' := StepCreate(w, t, sb, Fail, Says(true));
    assert w'.threads == w.threads[t := Create(sb, Free(true))];
    LeadsCreate(w0, w', t, sb, Free(true), Says(true));
    w' := StepCreate(w', t, sb, Free(true), Says(true));
  }

  /** A Create whose slot stays held, also after the heal it asks for, ends without a trace. */
  lemma SoloCreateRefused(w: World, t: nat, id: Id, user: User) returns (w': World)
    requires t !in w.threads && id !in w.born && user in w.db.slots
    ensures Leads(w, w') && w'.threads == w.threads && w'.vms == w.vms && w'.db == w.db && w'.boxes == w.boxes
  {
    SoloArrive(w, t, id, user);
    w' := SoloRefused(w, Arrived(w, t, id, user), t, Newborn(w, id, user));
    assert w'.threads == w.threads;
  }

  lemma SoloRefused(w0: World, w: World, t: nat, sb: Sandbox) returns (w': World)
    requires Leads(w0, w) && t in w.threads && w.threads[t] == Create(sb, Claim) && sb.user in w.db.slots
    ensures Leads(w0, w') && w'.threads == w.threads - {t} && w'.vms == w.vms && w'.db == w.db && w'.boxes == w.boxes
  {
    LeadsCreate(w0, w, t, sb, Claim, Says(true));
    w' := StepCreate(w, t, sb, Claim, Says(true));
    assert w'.threads == w.threads[t := Create(sb, Retry)];
    LeadsCreate(w0, w', t, sb, Retry, Says(true));
    w' := StepCreate(w', t, sb, Retry, Says(true));
  }

  /** A Create whose commit was refused, and that can tear its VM down, leaves neither VM nor record nor
      slot behind. */
  lemma SoloUndo(w: World, t: nat, sb: Sandbox) returns (w': World)
    requires t in w.threads && w.threads[t] == Create(sb, Undo)
    requires sb.id in w.db.records ==> Ours(w, w.db.records[sb.id]) && w.db.records[sb.id].id == sb.id
    ensures Leads(w, w') && w' == w.(threads := w.threads - {t}, vms := w.vms - {sb.id},
      flights := w.flights - {sb.id}, db := Delete(w.db, sb.id))
  {
    LeadsNowhere(w);
    LeadsCreate(w, w, t, sb, Undo, Says(true));
    var gone := StepCreate(w, t, sb, Undo, Says(true));
    w' := SoloErased(w, gone, t, sb.id);
    assert w'.threads == w.threads - {t};
  }

  lemma SoloErased(w0: World, w: World, t: nat, id: Id) returns (w': World)
    requires Leads(w0, w) && t in w.threads && w.threads[t] == TRead(id)
    requires id in w.db.records ==> Ours(w, w.db.records[id]) && w.db.records[id].id == id
    ensures Leads(w0, w') && w' == Ended(w, t, Delete(w.db, id))
  {
    if id in w.db.records {
      w' := SoloErase(w0, w, t, id);
    } else {
      LeadsTeardown(w0, w, t, TRead(id), Says(true));
      w' := StepTeardown(w, t, TRead(id), Says(true));
    }
  }

  /** The record of a Create is stamped as it is built, just before the slot is asked for. A Create that
      finds the slot held asks for a heal and comes back; if the slot is free by then it
      reserves it, as at the first try. */
  lemma FirstAndSecondTry(w: World, t: nat, sb: Sandbox)
    requires t in w.threads
    ensures w.threads[t] == Create(sb, Begin) ==>
      Step(w, t, Says(true)) ==
        To(w, t, Create(Sandbox(sb.id, sb.user, sb.state, sb.ip, sb.device, w.now), Claim))
    ensures w.threads[t] == Create(sb, Claim) && sb.user in w.db.slots ==>
      Step(w, t, Says(true)) == To(w, t, Create(sb, Retry))
    ensures w.threads[t] == Create(sb, Retry) && sb.user !in w.db.slots ==>
      Step(w, t, Says(true)) ==
        To(w.(db := Reserve(w.db, sb), reserved := w.reserved + {sb.id}), t, Create(sb, Prep))
  {}

  // ---- a session ----

  /** A session prepared for a running sandbox opens its listener and remembers the port it got. */
  lemma SoloSession(w: World, t: nat, id: Id, port: int) returns (w': World)
    requires t !in w.threads && StateIs(w.db, id, Running)
    ensures Leads(w, w') && w'.threads == w.threads && w'.listeners == w.listeners + {id}
    ensures w'.db == w.db.(ports := w.db.ports[id := port])
  {
    LeadsNowhere(w);
    LeadsBy(w, w, NewSsh(t, id));
    w' := Next(w, NewSsh(t, id));
    LeadsSsh(w, w', t, SRead(id), Says(true));
    w' := StepSsh(w', t, SRead(id), Says(true));
    assert w'.threads == w.threads[t := SOpen(id)];
    w' := SoloOpen(w, w', t, id, port);
    assert w'.threads == w.threads;
  }

  lemma SoloOpen(w0: World, w: World, t: nat, id: Id, port: int) returns (w': World)
    requires Leads(w0, w) && t in w.threads && w.threads[t] == SOpen(id) && StateIs(w.db, id, Running)
    ensures Leads(w0, w') && w'.threads == w.threads - {t} && w'.listeners == w.listeners + {id}
    ensures w'.db == w.db.(ports := w.db.ports[id := port])
  {
    var got := Answer(true, false, false, NoAddr, port, 0);
    LeadsSsh(w0, w, t, SOpen(id), got);
    w' := StepSsh(w, t, SOpen(id), got);
    assert w'.threads == w.threads[t := SPort(id, port)];
    LeadsSsh(w0, w', t, SPort(id, port), Says(true));
    w' := StepSsh(w', t, SPort(id, port), Says(true));
    assert w'.threads == w.threads[t := SRecheck(id)];
    LeadsSsh(w0, w', t, SRecheck(id), Says(true));
    w' := StepSsh(w', t, SRecheck(id), Says(true));
  }

  /** A session prepared for any other sandbox ends without a trace. */
  lemma SoloSessionRefused(w: World, t: nat, id: Id) returns (w': World)
    requires t !in w.threads && !StateIs(w.db, id, Running)
    ensures Leads(w, w') && w'.threads == w.threads && w'.listeners == w.listeners && w'.db == w.db
  {
    LeadsNowhere(w);
    LeadsBy(w, w, NewSsh(t, id));
    w' := Next(w, NewSsh(t, id));
    LeadsSsh(w, w', t, SRead(id), Says(true));
    w' := StepSsh(w', t, SRead(id), Says(true));
    assert w'.threads == w.threads;
  }

  // ---- the listener half of a pass ----

  function RunningListeners(w: World): set<Id> {
    set id | id in w.listeners && StateIs(w.db, id, Running)
  }

  lemma SoloPick(w0: World, w: World, t: nat, keep: set<Id>, id: Id) returns (w': World)
    requires Leads(w0, w) && t in w.threads && w.threads[t] == Pass(keep) && StateIs(w.db, id, Running)
    ensures Leads(w0, w') && w' == w.(threads := w.threads[t := Pass(keep + {id})])
  {
    var pick := Answer(true, false, true, NoAddr, 0, id);
    LeadsSsh(w0, w, t, Pass(keep), pick);
    w' := StepSsh(w, t, Pass(keep), pick);
  }

  lemma {:induction false} SoloPicks(w0: World, w: World, t: nat, keep: set<Id>, rest: set<Id>) returns (w': World)
    requires Leads(w0, w) && t in w.threads && w.threads[t] == Pass(keep)
    requires forall id :: id in rest ==> StateIs(w.db, id, Running)
    ensures Leads(w0, w') && w' == w.(threads := w.threads[t := Pass(keep + rest)])
    decreases |rest|
  {
    if rest == {} {
      w' := w;
      assert keep + rest == keep && w.threads[t := Pass(keep)] == w.threads;
    } else {
      var id :| id in rest;
      w' := SoloPick(w0, w, t, keep, id);
      w' := SoloPicks(w0, w', t, keep + {id}, rest - {id});
      assert keep + {id} + (rest - {id}) == keep + rest;
    }
  }

  /** An uninterrupted pass closes exactly the listeners of sandboxes that are not running, also those
      that leaked and that nobody attends. */
  lemma SoloPassHeals(w: World, t: nat) returns (w': World)
    requires t !in w.threads
    ensures Leads(w, w') && w'.threads == w.threads && w'.db == w.db
    ensures forall id :: id in w'.listeners <==> id in w.listeners && StateIs(w.db, id, Running)
  {
    LeadsNowhere(w);
    LeadsBy(w, w, NewPass(t));
    var begun := Next(w, NewPass(t));
    var picked := SoloPicks(w, begun, t, {}, RunningListeners(w));
    assert {} + RunningListeners(w) == RunningListeners(w);
    LeadsSsh(w, picked, t, Pass(RunningListeners(w)), Says(true));
    w' := StepSsh(picked, t, Pass(RunningListeners(w)), Says(true));
    assert w'.threads == w.threads;
  }

  // ---- a slot holder without a record ----

  /** The heal of a holder without a record, as older versions could leave behind: if its VM is
      definitely not live, its container goes, and its slot if it still has it. */
  lemma SoloMissing(w: World, t: nat, id: Id) returns (w': World)
    requires t in w.threads && w.threads[t] == RRead(id) && id !in w.db.records && id in w.born
    ensures Leads(w, w') && w' == w.(threads := w.threads - {t},
      boxes := if id in w.vms then w.boxes else w.boxes - {id},
      db := if id in w.vms then w.db else Release(w.db, w.born[id].user, id))
  {
    LeadsNowhere(w);
    LeadsReap(w, w, t, RRead(id), Says(true));
    w' := StepReap(w, t, RRead(id), Says(true));
    assert w'.threads == w.threads[t := RMissing(id)];
    LeadsReap(w, w', t, RMissing(id), Says(true));
    w' := StepReap(w', t, RMissing(id), Says(true));
    if id !in w.vms {
      assert w'.threads == w.threads[t := RRelease(id)];
      LeadsReap(w, w', t, RRelease(id), Says(true));
      w' := StepReap(w', t, RRelease(id), Says(true));
    }
    assert w'.threads == w.threads - {t};
  }

  // ---- a sweep ----

  /** An uninterrupted sweep of a container removes it, with whatever is left of its VM, if it is at
      least ten minutes old and its VM does not run, and does nothing otherwise. */
  lemma SoloSweep(w: World, t: nat, id: Id) returns (w': World)
    requires t !in w.threads
    ensures Leads(w, w') && w'.threads == w.threads && w'.db == w.db && w'.listeners == w.listeners
    ensures id in w.boxes && w.now - w.boxes[id] >= 600000 && id !in w.vms ==>
      w'.boxes == w.boxes - {id} && w'.vms == w.vms
    ensures !(id in w.boxes && w.now - w.boxes[id] >= 600000 && id !in w.vms) ==>
      w'.boxes == w.boxes && w'.vms == w.vms
  {
    LeadsNowhere(w);
    LeadsBy(w, w, NewSweep(t, id));
    w' := Next(w, NewSweep(t, id));
    LeadsSweep(w, w', t, KCheck(id), Says(true));
    w' := StepSweep(w', t, KCheck(id), Says(true));
    if t in w'.threads {
      assert w'.threads == w.threads[t := KDelete(id)];
      LeadsSweep(w, w', t, KDelete(id), Says(true));
      w' := StepSweep(w', t, KDelete(id), Says(true));
    }
    assert w'.threads == w.threads;
  }
}
