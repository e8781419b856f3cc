/** The two views of the service agree: a Delete or a reap that runs with no other thread between its
    steps does to the store exactly what the sequential specification says, and to the VM, its container
    and its listener what goes with it. */
module SoloRuns {
  import opened Records
  import opened StoreSpec
  import opened ReconcileSpec
  import opened Outcomes
  import opened Lifecycle
  import opened LifecycleInvariant
  import opened LifecycleEffects
  import opened LifecycleTheorems

  ghost predicate Leads(w: World, w': World) {
    exists actions :: Runs(w, actions) && After(w, actions) == w'
  }

  lemma LeadsNowhere(w: World)
    ensures Leads(w, w)
  {
    assert Runs(w, []) && After(w, []) == w;
  }

  lemma LeadsOn(w0: World, w: World, t: nat, ans: Answer)
    requires Leads(w0, w) && t in w.threads
    ensures Leads(w0, Step(w, t, ans))
  {
    var actions :| Runs(w0, actions) && After(w0, actions) == w;
    RunExtends(w0, actions, Go(t, ans));
  }

  lemma LeadsCreate(w0: World, w: World, t: nat, sb: Sandbox, at: Stage, ans: Answer)
    requires Leads(w0, w) && t in w.threads && w.threads[t] == Create(sb, at)
    ensures Leads(w0, StepCreate(w, t, sb, at, ans))
  {
    LeadsOn(w0, w, t, ans);
  }

  lemma LeadsDelete(w0: World, w: World, t: nat, th: Thread, ans: Answer)
    requires Leads(w0, w) && t in w.threads && w.threads[t] == th && (th.DRead? || th.DMark? || th.DClose?)
    ensures Leads(w0, StepDelete(w, t, th, ans))
  {
    LeadsOn(w0, w, t, ans);
  }

  lemma LeadsReap(w0: World, w: World, t: nat, th: Thread, ans: Answer)
    requires Leads(w0, w) && t in w.threads && w.threads[t] == th
    requires th.RRead? || th.RCheck? || th.RMark? || th.RClose? || th.RMissing? || th.RRelease?
    ensures Leads(w0, StepReap(w, t, th, ans))
  {
    LeadsOn(w0, w, t, ans);
  }

  lemma LeadsTeardown(w0: World, w: World, t: nat, th: Thread, ans: Answer)
    requires Leads(w0, w) && t in w.threads && w.threads[t] == th && (th.TVm? || th.TRead? || th.TErase?)
    ensures Leads(w0, StepTeardown(w, t, th, ans))
  {
    LeadsOn(w0, w, t, ans);
  }

  lemma LeadsSsh(w0: World, w: World, t: nat, th: Thread, ans: Answer)
    requires Leads(w0, w) && t in w.threads && w.threads[t] == th
    requires th.SRead? || th.SOpen? || th.SPort? || th.SRecheck? || th.SClose? || th.Pass?
    ensures Leads(w0, StepSsh(w, t, th, ans))
  {
    LeadsOn(w0, w, t, ans);
  }

  lemma LeadsAttach(w0: World, w: World, t: nat, th: Thread, ans: Answer)
    requires Leads(w0, w) && t in w.threads && w.threads[t] == th && (th.ARead? || th.AWrite?)
    ensures Leads(w0, StepAttach(w, t, th, ans))
  {
    LeadsOn(w0, w, t, ans);
  }

  lemma LeadsSweep(w0: World, w: World, t: nat, th: Thread, ans: Answer)
    requires Leads(w0, w) && t in w.threads && w.threads[t] == th && (th.KCheck? || th.KDelete?)
    ensures Leads(w0, StepSweep(w, t, th, ans))
  {
    LeadsOn(w0, w, t, ans);
  }

  function Says(ok: bool): Answer {
    Answer(ok, false, false, NoAddr, 0, 0)
  }

  /** A definite no from containerd is the truth. */
  predicate Truthful(env: Env, w: World, id: Id) {
    env.now == w.now && (env.live(id) == LiveNo ==> id !in w.vms)
  }

  /** The call is over, and the store is db. */
  function Ended(w: World, t: nat, db: Db): World {
    w.(db := db, threads := w.threads - {t})
  }

  /** So it is, the listener is closed, and VM and container are gone if that could be confirmed. */
  function TornDown(env: Env, w: World, t: nat, id: Id, db: Db): World {
    Killed(env, Ended(w, t, db).(listeners := w.listeners - {id}), id)
  }

  function Killed(env: Env, w: World, id: Id): World {
    if Confirmed(env, id) then w.(vms := w.vms - {id}, boxes := w.boxes - {id}) else w
  }

  lemma EndedAlike(w: World, t: nat, th: Thread, db: Db)
    ensures Ended(To(w, t, th), t, db) == Ended(w, t, db)
  {
    assert w.threads[t := th] - {t} == w.threads - {t};
  }

  lemma SoloErase(w0: World, w: World, t: nat, id: Id) returns (w': World)
    requires Leads(w0, w) && t in w.threads && w.threads[t] == TRead(id)
    requires id in w.db.records && Ours(w, w.db.records[id]) && w.db.records[id].id == id
    ensures Leads(w0, w') && w' == Ended(w, t, Delete(w.db, id))
  {
    LeadsTeardown(w0, w, t, w.threads[t], Says(true));
    w' := StepTeardown(w, t, w.threads[t], Says(true));
    assert w'.threads == w.threads[t := TErase(id)];
    LeadsTeardown(w0, w', t, w'.threads[t], Says(true));
    w' := StepTeardown(w', t, w'.threads[t], Says(true));
    assert w'.threads == w.threads - {t};
  }

  lemma SoloTeardown(env: Env, w0: World, w: World, t: nat, id: Id) returns (w': World)
    requires Leads(w0, w) && t in w.threads && w.threads[t] == TVm(id)
    requires id in w.db.records && Ours(w, w.db.records[id]) && w.db.records[id].id == id
    ensures Leads(w0, w') && w' == Killed(env, Ended(w, t, FinishTeardown(env, w.db, id)), id)
  {
    LeadsTeardown(w0, w, t, w.threads[t], Says(Confirmed(env, id)));
    w' := StepTeardown(w, t, w.threads[t], Says(Confirmed(env, id)));
    if Confirmed(env, id) {
      assert w'.threads == w.threads[t := TRead(id)];
      w' := SoloErase(w0, w', t, id);
      assert w'.threads == w.threads - {t};
    }
  }

  lemma SoloPut(w0: World, w: World, t: nat, sb: Sandbox) returns (w': World)
    requires Leads(w0, w) && t in w.threads && w.threads[t] == DMark(sb)
    ensures Leads(w0, w') && w' == To(w.(db := Put(w.db, sb)), t, DClose(sb.id))
  {
    LeadsDelete(w0, w, t, w.threads[t], Says(true));
    w' := StepDelete(w, t, w.threads[t], Says(true));
  }

  lemma SoloClose(w0: World, w: World, t: nat, id: Id) returns (w': World)
    requires Leads(w0, w) && t in w.threads && (w.threads[t] == DClose(id) || w.threads[t] == RClose(id))
    ensures Leads(w0, w') && w' == To(w.(listeners := w.listeners - {id}), t, TVm(id))
  {
    LeadsOn(w0, w, t, Says(true));
    w' := Step(w, t, Says(true));
  }

  lemma SoloMarked(env: Env, w0: World, w: World, t: nat, sb: Sandbox) returns (w': World)
    requires Leads(w0, w) && t in w.threads && w.threads[t] == DMark(sb) && Ours(w, sb)
    ensures Leads(w0, w') && w' == TornDown(env, w, t, sb.id, FinishTeardown(env, Put(w.db, sb), sb.id))
  {
    w' := SoloPut(w0, w, t, sb);
    w' := SoloClose(w0, w', t, sb.id);
    w' := SoloTeardown(env, w0, w', t, sb.id);
    assert w'.threads == w.threads - {t};
  }

  lemma SoloDeleteFrom(env: Env, w0: World, w: World, t: nat, id: Id) returns (w': World)
    requires Leads(w0, w) && t in w.threads && w.threads[t] == DRead(id) && env.now == w.now
    requires id in w.db.records && Ours(w, w.db.records[id]) && w.db.records[id].id == id
    ensures Leads(w0, w') && w' == TornDown(env, w, t, id, DeleteSandbox(env, w.db, id))
  {
    var marked := w.db.records[id].(state := Terminating, lastActivity := w.now);
    LeadsDelete(w0, w, t, w.threads[t], Says(true));
    w' := StepDelete(w, t, w.threads[t], Says(true));
    assert w'.threads == w.threads[t := DMark(marked)];
    w' := SoloMarked(env, w0, w', t, marked);
    assert w'.threads == w.threads - {t};
  }

  lemma SoloPublish(w0: World, w: World, t: nat, sb: Sandbox) returns (w': World)
    requires Leads(w0, w) && t in w.threads && w.threads[t] == RMark(sb)
    ensures Leads(w0, w') && w' == To(w.(db := Put(w.db, sb.(state := Error, lastActivity := w.now))), t, RClose(sb.id))
  {
    LeadsReap(w0, w, t, w.threads[t], Says(true));
    w' := StepReap(w, t, w.threads[t], Says(true));
  }

  lemma SoloDead(env: Env, w0: World, w: World, t: nat, sb: Sandbox) returns (w': World)
    requires Leads(w0, w) && t in w.threads && w.threads[t] == RMark(sb) && Ours(w, sb) && env.now == w.now
    ensures Leads(w0, w') && w' == TornDown(env, w, t, sb.id, TeardownDead(env, w.db, sb))
  {
    w' := SoloPublish(w0, w, t, sb);
    w' := SoloClose(w0, w', t, sb.id);
    w' := SoloTeardown(env, w0, w', t, sb.id);
    assert w'.threads == w.threads - {t};
  }

  /** A reap of this record: VM and listener are touched exactly for held errors and the known dead. */
  function Reaped(env: Env, w: World, t: nat, sb: Sandbox): World {
    if HeldError(w.db, sb) || KnownDead(env, sb)
    then TornDown(env, w, t, sb.id, ReconcileRecord(env, w.db, sb))
    else Ended(w, t, ReconcileRecord(env, w.db, sb))
  }

  lemma SoloHeldError(env: Env, w0: World, w: World, t: nat, sb: Sandbox) returns (w': World)
    requires Leads(w0, w) && t in w.threads && w.threads[t] == RCheck(sb) && env.now == w.now && HeldError(w.db, sb)
    requires sb.id in w.db.records && w.db.records[sb.id] == sb && Ours(w, sb)
    ensures Leads(w0, w') && w' == TornDown(env, w, t, sb.id, DeleteSandbox(env, w.db, sb.id))
  {
    LeadsReap(w0, w, t, w.threads[t], Says(true));
    w' := StepReap(w, t, w.threads[t], Says(true));
    assert w' == To(w, t, DRead(sb.id));
    EndedAlike(w, t, DRead(sb.id), DeleteSandbox(env, w.db, sb.id));
    w' := SoloDeleteFrom(env, w0, w', t, sb.id);
  }

  lemma SoloUnheldError(env: Env, w0: World, w: World, t: nat, sb: Sandbox) returns (w': World)
    requires Leads(w0, w) && t in w.threads && w.threads[t] == RCheck(sb) && env.now == w.now
    requires sb.id in w.db.records && w.db.records[sb.id] == sb && Ours(w, sb)
    requires sb.state == Error && !HeldError(w.db, sb)
    ensures Leads(w0, w') && w' == Ended(w, t, ReconcileRecord(env, w.db, sb))
  {
    LeadsReap(w0, w, t, w.threads[t], Says(true));
    w' := StepReap(w, t, w.threads[t], Says(true));
    if w.now - sb.lastActivity > ERROR_GC {
      assert w' == To(w, t, TRead(sb.id));
      EndedAlike(w, t, TRead(sb.id), Delete(w.db, sb.id));
      w' := SoloErase(w0, w', t, sb.id);
    }
  }

  lemma SoloJudged(env: Env, w0: World, w: World, t: nat, sb: Sandbox) returns (w': World)
    requires Leads(w0, w) && t in w.threads && w.threads[t] == RCheck(sb) && Truthful(env, w, sb.id)
    requires sb.id in w.db.records && w.db.records[sb.id] == sb && Ours(w, sb) && sb.state != Error
    ensures Leads(w0, w')
    ensures w' == if Dead(env, sb) then TornDown(env, w, t, sb.id, TeardownDead(env, w.db, sb)) else Ended(w, t, w.db)
  {
    var ans := Says(env.live(sb.id) == LiveNo);
    LeadsReap(w0, w, t, w.threads[t], ans);
    w' := StepReap(w, t, w.threads[t], ans);
    if Dead(env, sb) {
      assert w' == To(w, t, RMark(sb));
      EndedAlike(w, t, RMark(sb), TeardownDead(env, w.db, sb));
      w' := SoloDead(env, w0, w', t, sb);
    }
  }

  lemma SoloCheck(env: Env, w0: World, w: World, t: nat, sb: Sandbox) returns (w': World)
    requires Leads(w0, w) && t in w.threads && w.threads[t] == RCheck(sb) && Truthful(env, w, sb.id)
    requires sb.id in w.db.records && w.db.records[sb.id] == sb && Ours(w, sb)
    ensures Leads(w0, w') && w' == Reaped(env, w, t, sb)
  {
    if sb.state != Error {
      w' := SoloJudged(env, w0, w, t, sb);
    } else if HeldError(w.db, sb) {
      w' := SoloHeldError(env, w0, w, t, sb);
    } else {
      w' := SoloUnheldError(env, w0, w, t, sb);
    }
  }

  /** A Delete that nothing interrupts is DeleteSandbox; the listener is closed, and the VM and its
      container are gone if that could be confirmed. */
  lemma SoloDelete(env: Env, w: World, t: nat, id: Id) returns (w': World)
    requires Inv(w) && t in w.threads && w.threads[t] == DRead(id) && id in w.db.records && env.now == w.now
    ensures Leads(w, w') && w' == TornDown(env, w, t, id, DeleteSandbox(env, w.db, id))
  {
    assert CoreFor(w, id);
    LeadsNowhere(w);
    w' := SoloDeleteFrom(env, w, w, t, id);
  }

  lemma SoloLook(w: World, t: nat, id: Id) returns (w': World)
    requires t in w.threads && w.threads[t] == RRead(id) && id in w.db.records
    ensures Leads(w, w') && w' == To(w, t, RCheck(w.db.records[id]))
  {
    LeadsNowhere(w);
    LeadsReap(w, w, t, w.threads[t], Says(true));
    w' := StepReap(w, t, w.threads[t], Says(true));
  }

  /** A reap that nothing interrupts is ReconcileRecord, and so on. */
  lemma SoloReap(env: Env, w: World, t: nat, id: Id) returns (w': World)
    requires Inv(w) && t in w.threads && w.threads[t] == RRead(id) && id in w.db.records && Truthful(env, w, id)
    ensures Leads(w, w') && w' == Reaped(env, w, t, w.db.records[id])
  {
    assert CoreFor(w, id);
    var sb := w.db.records[id];
    w' := SoloLook(w, t, id);
    EndedAlike(w, t, RCheck(sb), ReconcileRecord(env, w.db, sb));
    w' := SoloCheck(env, w, w', t, sb);
  }

  lemma SoloStore(w0: World, w: World, t: nat, copy: Sandbox) returns (w': World)
    requires Leads(w0, w) && t in w.threads && w.threads[t] == AWrite(copy) && !Behind(w.db, copy)
    ensures Leads(w0, w') && w'.db == Put(w.db, copy) && w'.threads == w.threads - {t} && w'.marks == w.marks
  {
    LeadsAttach(w0, w, t, w.threads[t], Says(true));
    w' := StepAttach(w, t, w.threads[t], Says(true));
  }

  lemma SoloCopy(w: World, t: nat, id: Id, device: nat) returns (w': World)
    requires t in w.threads && w.threads[t] == ARead(id, device)
    ensures Leads(w, w') && w' == StepAttach(w, t, ARead(id, device), Says(true))
  {
    LeadsNowhere(w);
    LeadsAttach(w, w, t, w.threads[t], Says(true));
    w' := StepAttach(w, t, w.threads[t], Says(true));
  }

  /** An attach that nothing interrupts is Attach: it sets nothing back. */
  lemma SoloAttach(w: World, t: nat, id: Id, device: nat) returns (w': World)
    requires Inv(w) && t in w.threads && w.threads[t] == ARead(id, device)
    ensures Leads(w, w') && w'.db == Attach(w.db, id, device, w.now) && w'.threads == w.threads - {t}
    ensures w'.marks == w.marks
  {
    assert CoreFor(w, id);
    w' := SoloCopy(w, t, id, device);
    if id in w.db.records {
      var copy := w.db.records[id].(device := Some(device), lastActivity := w.now);
      assert w'.threads == w.threads[t := AWrite(copy)];
      w' := SoloStore(w, w', t, copy);
    }
  }
}
