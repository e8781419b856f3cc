/** What one action has to do with each way the machine can go wrong: VMs and records without their
    slot, records set back or brought back to life, listeners that nobody will close. */
module LifecycleEffects {
  import opened Records
  import opened StoreSpec
  import opened Lifecycle
  import opened LifecycleInvariant

  ghost predicate Reachable(w: World) {
    exists actions :: Runs(INITIAL, actions) && After(INITIAL, actions) == w
  }

  lemma {:induction false} RunExtends(w: World, actions: seq<Action>, a: Action)
    requires Runs(w, actions) && Enabled(After(w, actions), a)
    ensures Runs(w, actions + [a]) && After(w, actions + [a]) == Next(After(w, actions), a)
    decreases |actions|
  {
    if actions == [] {
      assert (actions + [a])[1..] == [];
    } else {
      RunExtends(Next(w, actions[0]), actions[1..], a);
      assert (actions + [a])[1..] == actions[1..] + [a];
    }
  }

  lemma ReachableNext(w: World, a: Action)
    requires Reachable(w) && Enabled(w, a)
    ensures Reachable(Next(w, a))
  {
    var actions :| Runs(INITIAL, actions) && After(INITIAL, actions) == w;
    RunExtends(INITIAL, actions, a);
  }

  lemma ReachableInv(w: World)
    requires Reachable(w)
    ensures Inv(w)
  {
    var actions :| Runs(INITIAL, actions) && After(INITIAL, actions) == w;
    InitialInv();
    RunKeepsInv(INITIAL, actions);
  }

  predicate InFlight(w: World, t: nat, id: Id) {
    t in w.threads && w.threads[t].Create? && w.threads[t].sb.id == id
  }

  predicate CreateAt(w: World, a: Action, id: Id, at: Stage) {
    a.Go? && InFlight(w, a.t, id) && w.threads[a.t].at == at
  }

  // ---- where the tracked exceptions come from ----

  /** The teardown of a refused commit neither succeeds nor shows the VM to be dead. */
  predicate CannotUndo(w: World, a: Action, id: Id) {
    CreateAt(w, a, id, Undo) && !a.ans.ok && !a.ans.alt && id in w.vms
  }

  /** A failed Create frees its slot although its error was never stored. */
  predicate Strands(w: World, a: Action, id: Id) {
    CreateAt(w, a, id, Free(false)) && Took(a.ans)
  }

  /** A reaper cannot store the error of a dead VM, and goes on. */
  predicate CannotPersist(w: World, a: Action, id: Id) {
    a.Go? && a.t in w.threads && w.threads[a.t].RMark? && w.threads[a.t].sb.id == id && !Took(a.ans)
  }

  /** The mark of a Delete takes effect and is reported as failed. */
  predicate HidesMark(w: World, a: Action, id: Id) {
    && a.Go? && a.t in w.threads && w.threads[a.t].DMark? && w.threads[a.t].sb.id == id
    && !a.ans.ok && a.ans.lands
  }

  /** So does the commit of a Create. */
  predicate HidesCommit(w: World, a: Action, id: Id) {
    && CreateAt(w, a, id, Booted) && !a.ans.ok && a.ans.lands && !a.ans.alt
    && id in w.born && w.now < Deadline(w, id) && MayCommit(w.db, w.threads[a.t].sb)
  }

  /** The Put of an attach takes effect. */
  predicate Attaches(w: World, a: Action, id: Id) {
    a.Go? && a.t in w.threads && w.threads[a.t].AWrite? && w.threads[a.t].sb.id == id && Took(a.ans)
  }

  /** And its copy is behind the stored record. */
  predicate SetsBack(w: World, a: Action, id: Id) {
    Attaches(w, a, id) && Behind(w.db, w.threads[a.t].sb)
  }

  predicate Excused(w: World, w': World, a: Action, id: Id) {
    && (id !in w.marks.left ==> (id in w'.marks.left <==> CannotUndo(w, a, id)))
    && (id !in w.marks.stranded ==> (id in w'.marks.stranded <==> Strands(w, a, id)))
    && (id !in w.marks.unpersisted ==> (id in w'.marks.unpersisted <==> CannotPersist(w, a, id)))
    && (id !in w.marks.unsure ==> (id in w'.marks.unsure <==> HidesMark(w, a, id) || HidesCommit(w, a, id)))
    && (id !in w.marks.stale ==> (id in w'.marks.stale <==> SetsBack(w, a, id)))
  }

  // ---- records ----

  /** The Put of an attach stores a `creating` or `running` copy over a record that is gone,
      terminating or failed. */
  predicate Revives(w: World, a: Action, id: Id) {
    Attaches(w, a, id) && LiveState(w.threads[a.t].sb.state) && !LiveRecord(w.db, id)
  }

  predicate RecordMoves(w: World, w': World, a: Action, id: Id) {
    id in w.reserved ==>
      && (RankOf(w'.db, id) < RankOf(w.db, id) <==> SetsBack(w, a, id))
      && (!LiveRecord(w.db, id) ==> (LiveRecord(w'.db, id) <==> Revives(w, a, id)))
  }

  // ---- listeners ----

  /** The remaining steps of this thread close the listener of id, or re-read its record. */
  predicate Attends(th: Thread, id: Id) {
    match th
    case DClose(x) => x == id
    case RClose(x) => x == id
    case SPort(x, _) => x == id
    case SRecheck(x) => x == id
    case SClose(x) => x == id
    case _ => false
  }

  predicate AttendedBy(w: World, t: nat, id: Id) {
    t in w.threads && Attends(w.threads[t], id)
  }

  /** This action takes the record of id out of `running` with no Close ahead of it: the delete
      script erases it while it still reads `running`, an attach stores a copy read in another state,
      or the mark of a Delete takes effect but makes the Delete return. */
  predicate Drops(w: World, a: Action, id: Id) {
    && a.Go? && a.t in w.threads && StateIs(w.db, id, Running)
    && (|| (w.threads[a.t] == TErase(id) && Took(a.ans))
        || (Attaches(w, a, id) && w.threads[a.t].sb.state != Running)
        || HidesMark(w, a, id))
  }

  /** Whatever else takes a record out of `running` has its Close ahead of it. */
  predicate LeavingAttended(w: World, w': World, t: nat, ans: Answer, id: Id) {
    StateIs(w.db, id, Running) && !StateIs(w'.db, id, Running) ==> Drops(w, Go(t, ans), id) || AttendedBy(w', t, id)
  }

  /** An opened listener is attended by the thread that opened it; a thread that attends one either
      goes on attending it, or has closed it, or has seen its record running. */
  predicate AttendanceGoesOn(w: World, w': World, t: nat, id: Id) {
    id in w'.listeners && (id !in w.listeners || AttendedBy(w, t, id)) ==>
      StateIs(w'.db, id, Running) || AttendedBy(w', t, id)
  }

  predicate Effects(w: World, w': World, t: nat, ans: Answer, id: Id) {
    && t in w.threads && w'.threads - {t} == w.threads - {t}
    && Excused(w, w', Go(t, ans), id) && RecordMoves(w, w', Go(t, ans), id)
    && LeavingAttended(w, w', t, ans, id) && AttendanceGoesOn(w, w', t, id)
  }

  lemma ReserveEffects(w: World, t: nat, sb: Sandbox, at: Stage, ans: Answer, id: Id)
    requires t in w.threads && w.threads[t] == Create(sb, at) && CreateOk(w, sb, at)
    requires CoreFor(w, sb.id) && Flies(w, sb.id, t)
    requires at.Claim? || at.Retry?
    ensures Effects(w, StepCreate(w, t, sb, at, ans), t, ans, id)
  {}

  lemma BootEffects(w: World, t: nat, sb: Sandbox, at: Stage, ans: Answer, id: Id)
    requires t in w.threads && w.threads[t] == Create(sb, at) && CreateOk(w, sb, at)
    requires CoreFor(w, sb.id) && Flies(w, sb.id, t)
    requires at.Begin? || at.Prep? || at.Boot?
    ensures Effects(w, StepCreate(w, t, sb, at, ans), t, ans, id)
  {}

  lemma CommitEffects(w: World, t: nat, sb: Sandbox, at: Stage, ans: Answer, id: Id)
    requires t in w.threads && w.threads[t] == Create(sb, at) && CreateOk(w, sb, at)
    requires CoreFor(w, sb.id) && Flies(w, sb.id, t)
    requires at.Booted?
    ensures Effects(w, StepCreate(w, t, sb, at, ans), t, ans, id)
  {}

  lemma FailEffects(w: World, t: nat, sb: Sandbox, at: Stage, ans: Answer, id: Id)
    requires t in w.threads && w.threads[t] == Create(sb, at) && CreateOk(w, sb, at)
    requires CoreFor(w, sb.id) && Flies(w, sb.id, t)
    requires at.Undo? || at.Fail? || at.Free?
    ensures Effects(w, StepCreate(w, t, sb, at, ans), t, ans, id)
  {}

  lemma CreateEffects(w: World, t: nat, sb: Sandbox, at: Stage, ans: Answer, id: Id)
    requires t in w.threads && w.threads[t] == Create(sb, at) && CreateOk(w, sb, at)
    requires CoreFor(w, sb.id) && Flies(w, sb.id, t)
    ensures Effects(w, StepCreate(w, t, sb, at, ans), t, ans, id)
  {
    if at.Booted? {
      CommitEffects(w, t, sb, at, ans, id);
    } else if at.Undo? || at.Fail? || at.Free? {
      FailEffects(w, t, sb, at, ans, id);
    } else if at.Claim? || at.Retry? {
      ReserveEffects(w, t, sb, at, ans, id);
    } else {
      BootEffects(w, t, sb, at, ans, id);
    }
  }

  lemma DeleteEffects(w: World, t: nat, th: Thread, ans: Answer, id: Id)
    requires t in w.threads && w.threads[t] == th && ThreadOk(w, th)
    requires th.DRead? || th.DMark? || th.DClose?
    ensures Effects(w, StepDelete(w, t, th, ans), t, ans, id)
  {}

  lemma MarkEffects(w: World, t: nat, th: Thread, ans: Answer, id: Id)
    requires t in w.threads && w.threads[t] == th && ThreadOk(w, th)
    requires th.RMark?
    ensures Effects(w, StepReap(w, t, th, ans), t, ans, id)
  {}

  lemma ReapEffects(w: World, t: nat, th: Thread, ans: Answer, id: Id)
    requires t in w.threads && w.threads[t] == th && ThreadOk(w, th)
    requires th.RRead? || th.RCheck? || th.RClose?
    ensures Effects(w, StepReap(w, t, th, ans), t, ans, id)
  {}

  lemma MissingEffects(w: World, t: nat, th: Thread, ans: Answer, id: Id)
    requires t in w.threads && w.threads[t] == th && ThreadOk(w, th)
    requires th.RMissing? || th.RRelease?
    ensures Effects(w, StepReap(w, t, th, ans), t, ans, id)
  {}

  lemma TeardownEffects(w: World, t: nat, th: Thread, ans: Answer, id: Id)
    requires t in w.threads && w.threads[t] == th && ThreadOk(w, th)
    requires th.TVm? || th.TRead? || th.TErase?
    ensures Effects(w, StepTeardown(w, t, th, ans), t, ans, id)
  {}

  lemma SshReadEffects(w: World, t: nat, th: Thread, ans: Answer, id: Id)
    requires t in w.threads && w.threads[t] == th
    requires th.SRead? || th.SRecheck? || th.SClose?
    ensures Effects(w, StepSsh(w, t, th, ans), t, ans, id)
  {}

  lemma SshOpenEffects(w: World, t: nat, th: Thread, ans: Answer, id: Id)
    requires t in w.threads && w.threads[t] == th
    requires th.SOpen? || th.SPort?
    ensures Effects(w, StepSsh(w, t, th, ans), t, ans, id)
  {}

  lemma PassEffects(w: World, t: nat, th: Thread, ans: Answer, id: Id)
    requires t in w.threads && w.threads[t] == th && th.Pass?
    ensures Effects(w, StepSsh(w, t, th, ans), t, ans, id)
  {}

  lemma AttachEffects(w: World, t: nat, th: Thread, ans: Answer, id: Id)
    requires t in w.threads && w.threads[t] == th && ThreadOk(w, th)
    requires th.ARead? || th.AWrite?
    ensures Effects(w, StepAttach(w, t, th, ans), t, ans, id)
  {}

  lemma SweepEffects(w: World, t: nat, th: Thread, ans: Answer, id: Id)
    requires t in w.threads && w.threads[t] == th
    requires th.KCheck? || th.KDelete?
    ensures Effects(w, StepSweep(w, t, th, ans), t, ans, id)
  {}

  /** Of every step: each exception has exactly its named causes; a record is set back, and a dead one
      comes to life, exactly by an attach; whatever takes a record out of `running` has its Close ahead
      or is a drop; and every opened listener stays attended until it is closed or its record is seen
      running. */
  lemma StepEffects(w: World, t: nat, ans: Answer, id: Id)
    requires Inv(w) && t in w.threads
    ensures Effects(w, Step(w, t, ans), t, ans, id)
  {
    var th := w.threads[t];
    assert ThreadOk(w, th);
    if th.Create? {
      assert CoreFor(w, th.sb.id);
      CreateEffects(w, t, th.sb, th.at, ans, id);
    } else if th.DRead? || th.DMark? || th.DClose? {
      DeleteEffects(w, t, th, ans, id);
    } else if th.RMark? {
      MarkEffects(w, t, th, ans, id);
    } else if th.RRead? || th.RCheck? || th.RClose? {
      ReapEffects(w, t, th, ans, id);
    } else if th.RMissing? || th.RRelease? {
      MissingEffects(w, t, th, ans, id);
    } else if th.TVm? || th.TRead? || th.TErase? {
      TeardownEffects(w, t, th, ans, id);
    } else if th.SRead? || th.SRecheck? || th.SClose? {
      SshReadEffects(w, t, th, ans, id);
    } else if th.ARead? || th.AWrite? {
      AttachEffects(w, t, th, ans, id);
    } else if th.KCheck? || th.KDelete? {
      SweepEffects(w, t, th, ans, id);
    } else if th.Pass? {
      PassEffects(w, t, th, ans, id);
    } else {
      SshOpenEffects(w, t, th, ans, id);
    }
  }

  // ---- slots ----

  /** A live VM, no longer in the hands of its Create, without its user's slot. */
  predicate Orphan(w: World, id: Id) {
    id in w.vms && id !in w.flights && !Holds(w, id)
  }

  /** The delete script runs over a live VM that no Create will look after. */
  predicate ErasesLive(w: World, a: Action, id: Id) {
    && a.Go? && a.t in w.threads && w.threads[a.t] == TErase(id) && Took(a.ans)
    && id in w.vms && id !in w.flights
  }

  /** What makes a live VM an orphan. */
  predicate Orphans(w: World, a: Action, id: Id) {
    || (CannotUndo(w, a, id) && !Holds(w, id))
    || ErasesLive(w, a, id)
    || (a == Crash && id in w.vms && !Holds(w, id))
    || (a == LateBoot(id) && !Holds(w, id))
  }

  /** A `creating` or `running` record without its user's slot. */
  predicate Slotless(w: World, id: Id) {
    LiveRecord(w.db, id) && !HoldsSlot(w.db, w.db.records[id].user, id)
  }

  /** What makes a live record slotless: an attach stores a live copy of an id that has lost the slot,
      or a failed Create frees the slot of a record that is still, or again, live. */
  predicate Unslots(w: World, a: Action, id: Id) {
    || (Revives(w, a, id) && !HoldsSlot(w.db, w.threads[a.t].sb.user, id))
    || (a.Go? && InFlight(w, a.t, id) && w.threads[a.t].at.Free? && Took(a.ans) && LiveRecord(w.db, id))
  }

  predicate SlotEffects(w: World, w': World, t: nat, ans: Answer, id: Id) {
    && (!Orphan(w, id) ==> (Orphan(w', id) <==> Orphans(w, Go(t, ans), id)))
    && (!Slotless(w, id) ==> (Slotless(w', id) <==> Unslots(w, Go(t, ans), id)))
  }

  lemma ClaimSlotEffects(w: World, t: nat, sb: Sandbox, at: Stage, ans: Answer, id: Id)
    requires t in w.threads && w.threads[t] == Create(sb, at) && CreateOk(w, sb, at)
    requires CoreFor(w, id) && CoreFor(w, sb.id) && Flies(w, sb.id, t)
    requires at.Claim? || at.Retry?
    ensures SlotEffects(w, StepCreate(w, t, sb, at, ans), t, ans, id)
  {}

  lemma CreateSlotEffects(w: World, t: nat, sb: Sandbox, at: Stage, ans: Answer, id: Id)
    requires t in w.threads && w.threads[t] == Create(sb, at) && CreateOk(w, sb, at)
    requires CoreFor(w, id) && CoreFor(w, sb.id) && Flies(w, sb.id, t)
    requires !at.Claim? && !at.Retry?
    ensures SlotEffects(w, StepCreate(w, t, sb, at, ans), t, ans, id)
  {}

  lemma DeleteSlotEffects(w: World, t: nat, th: Thread, ans: Answer, id: Id)
    requires t in w.threads && w.threads[t] == th && ThreadOk(w, th) && CoreFor(w, id)
    requires th.DRead? || th.DMark? || th.DClose?
    ensures SlotEffects(w, StepDelete(w, t, th, ans), t, ans, id)
  {}

  lemma MarkSlotEffects(w: World, t: nat, th: Thread, ans: Answer, id: Id)
    requires t in w.threads && w.threads[t] == th && ThreadOk(w, th) && CoreFor(w, id)
    requires th.RMark?
    ensures SlotEffects(w, StepReap(w, t, th, ans), t, ans, id)
  {}

  lemma ReapSlotEffects(w: World, t: nat, th: Thread, ans: Answer, id: Id)
    requires t in w.threads && w.threads[t] == th && ThreadOk(w, th) && CoreFor(w, id)
    requires th.RRead? || th.RCheck? || th.RClose? || th.RMissing? || th.RRelease?
    ensures SlotEffects(w, StepReap(w, t, th, ans), t, ans, id)
  {}

  lemma TeardownSlotEffects(w: World, t: nat, th: Thread, ans: Answer, id: Id)
    requires t in w.threads && w.threads[t] == th && ThreadOk(w, th) && CoreFor(w, id)
    requires th.TVm? || th.TRead? || th.TErase?
    ensures SlotEffects(w, StepTeardown(w, t, th, ans), t, ans, id)
  {}

  lemma SshReadSlotEffects(w: World, t: nat, th: Thread, ans: Answer, id: Id)
    requires t in w.threads && w.threads[t] == th && CoreFor(w, id)
    requires th.SRead? || th.SRecheck? || th.SClose?
    ensures SlotEffects(w, StepSsh(w, t, th, ans), t, ans, id)
  {}

  lemma SshOpenSlotEffects(w: World, t: nat, th: Thread, ans: Answer, id: Id)
    requires t in w.threads && w.threads[t] == th && CoreFor(w, id)
    requires th.SOpen? || th.SPort? || th.Pass?
    ensures SlotEffects(w, StepSsh(w, t, th, ans), t, ans, id)
  {}

  lemma AttachSlotEffects(w: World, t: nat, th: Thread, ans: Answer, id: Id)
    requires t in w.threads && w.threads[t] == th && ThreadOk(w, th) && CoreFor(w, id)
    requires th.ARead? || th.AWrite?
    ensures SlotEffects(w, StepAttach(w, t, th, ans), t, ans, id)
  {}

  lemma SweepSlotEffects(w: World, t: nat, th: Thread, ans: Answer, id: Id)
    requires t in w.threads && w.threads[t] == th && CoreFor(w, id)
    requires th.KCheck? || th.KDelete?
    ensures SlotEffects(w, StepSweep(w, t, th, ans), t, ans, id)
  {}

  /** Of every step: an orphan, and a live record without its slot, come about exactly so. */
  lemma StepSlotEffects(w: World, t: nat, ans: Answer, id: Id)
    requires Inv(w) && t in w.threads
    ensures SlotEffects(w, Step(w, t, ans), t, ans, id)
  {
    assert CoreFor(w, id);
    var th := w.threads[t];
    assert ThreadOk(w, th);
    if th.Create? {
      assert CoreFor(w, th.sb.id);
      if th.at.Claim? || th.at.Retry? {
        ClaimSlotEffects(w, t, th.sb, th.at, ans, id);
      } else {
        CreateSlotEffects(w, t, th.sb, th.at, ans, id);
      }
    } else if th.DRead? || th.DMark? || th.DClose? {
      DeleteSlotEffects(w, t, th, ans, id);
    } else if th.RMark? {
      MarkSlotEffects(w, t, th, ans, id);
    } else if th.RRead? || th.RCheck? || th.RClose? || th.RMissing? || th.RRelease? {
      ReapSlotEffects(w, t, th, ans, id);
    } else if th.TVm? || th.TRead? || th.TErase? {
      TeardownSlotEffects(w, t, th, ans, id);
    } else if th.SRead? || th.SRecheck? || th.SClose? {
      SshReadSlotEffects(w, t, th, ans, id);
    } else if th.ARead? || th.AWrite? {
      AttachSlotEffects(w, t, th, ans, id);
    } else if th.KCheck? || th.KDelete? {
      SweepSlotEffects(w, t, th, ans, id);
    } else {
      SshOpenSlotEffects(w, t, th, ans, id);
    }
  }
}
