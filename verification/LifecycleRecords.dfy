/** What a `running` record says, in every interleaving: the address its VM got, the user of its Create,
    and a time since that Create began; and what exactly a commit stores. */
module LifecycleRecords {
  import opened Records
  import opened StoreSpec
  import opened Lifecycle
  import opened LifecycleInvariant
  import opened LifecycleEffects
  import SshPassSpec

  /** True of the VM and of the Create. */
  predicate Truthful(w: World, sb: Sandbox) {
    && sb.id in w.booted && sb.ip == w.booted[sb.id]
    && sb.id in w.born && sb.user == w.born[sb.id].user
    && w.born[sb.id].start <= sb.lastActivity <= w.now
  }

  predicate TruthfulThread(w: World, th: Thread) {
    match th
    case Create(sb, at) =>
      && (at.Booted? ==> sb.id in w.booted && w.booted[sb.id] == sb.ip)
      && (sb.id in w.booted ==> at.Booted? || at.Undo? || at.Fail? || at.Free?)
      && sb.device == None
    case AWrite(sb) => sb.state == Running ==> Truthful(w, sb)
    case _ => true
  }

  predicate TruthfulRecord(w: World, id: Id) {
    && (StateIs(w.db, id, Running) ==> Truthful(w, w.db.records[id]))
    && (id in w.booted ==> id in w.born)
  }

  ghost predicate AllTruthful(w: World) {
    && (forall id :: TruthfulRecord(w, id))
    && (forall t :: t in w.threads ==> TruthfulThread(w, w.threads[t]))
  }

  /** What others may do: addresses, births and the clock only grow. */
  ghost predicate Growing(w: World, w': World) {
    && w.now <= w'.now
    && (forall id :: id in w.booted ==> id in w'.booted && w'.booted[id] == w.booted[id])
    && (forall id :: id in w.born ==> id in w'.born && w'.born[id] == w.born[id])
  }

  /** The step starts no VM and makes no record `running` or changes one that is. */
  ghost predicate RunsNothing(w: World, w': World) {
    && w'.booted == w.booted && w'.born == w.born && w'.now == w.now
    && forall id :: StateIs(w'.db, id, Running) ==> StateIs(w.db, id, Running) && w'.db.records[id] == w.db.records[id]
  }

  // ---- single steps ----

  /** The stages of a Create around the boot, apart. */
  lemma EarlyRunsNothing(w: World, t: nat, sb: Sandbox, at: Stage, ans: Answer)
    requires t in w.threads && w.threads[t] == Create(sb, at) && CreateOk(w, sb, at)
    requires TruthfulThread(w, Create(sb, at))
    requires at.Begin? || at.Claim? || at.Retry? || at.Prep?
    ensures var w' := StepCreate(w, t, sb, at, ans);
      RunsNothing(w, w') && (t in w'.threads ==> TruthfulThread(w', w'.threads[t]))
  {}

  lemma LateRunsNothing(w: World, t: nat, sb: Sandbox, at: Stage, ans: Answer)
    requires t in w.threads && w.threads[t] == Create(sb, at) && CreateOk(w, sb, at)
    requires TruthfulThread(w, Create(sb, at))
    requires at.Undo? || at.Fail? || at.Free?
    ensures var w' := StepCreate(w, t, sb, at, ans);
      RunsNothing(w, w') && (t in w'.threads ==> TruthfulThread(w', w'.threads[t]))
  {}

  lemma BootTellsAddress(w: World, t: nat, sb: Sandbox, ans: Answer)
    requires t in w.threads && w.threads[t] == Create(sb, Boot) && CreateOk(w, sb, Boot)
    requires TruthfulThread(w, Create(sb, Boot))
    ensures var w' := StepCreate(w, t, sb, Boot, ans);
      && w'.db == w.db && w'.born == w.born && w'.now == w.now && w'.booted - {sb.id} == w.booted && sb.id !in w.booted
      && (t in w'.threads ==> TruthfulThread(w', w'.threads[t]))
  {}

  /** The record of a successful commit, field by field: also a device attached before it is gone. */
  lemma CommitStores(w: World, t: nat, sb: Sandbox, ans: Answer)
    requires t in w.threads && w.threads[t] == Create(sb, Booted) && CreateOk(w, sb, Booted)
    requires TruthfulThread(w, Create(sb, Booted))
    ensures var w' := StepCreate(w, t, sb, Booted, ans);
      && w'.booted == w.booted && w'.born == w.born && w'.now == w.now
      && (t in w'.threads ==> TruthfulThread(w', w'.threads[t]))
      && (forall x :: StateIs(w'.db, x, Running) ==>
            || (StateIs(w.db, x, Running) && w'.db.records[x] == w.db.records[x])
            || (x == sb.id && x in w.born && x in w.booted
                && w'.db.records[x] == Sandbox(x, w.born[x].user, Running, w.booted[x], None, w.now)))
  {}

  lemma DeleteRunsNothing(w: World, t: nat, th: Thread, ans: Answer)
    requires t in w.threads && w.threads[t] == th && ThreadOk(w, th)
    requires th.DRead? || th.DMark? || th.DClose?
    ensures var w' := StepDelete(w, t, th, ans);
      RunsNothing(w, w') && (t in w'.threads ==> TruthfulThread(w', w'.threads[t]))
  {}

  lemma ReapRunsNothing(w: World, t: nat, th: Thread, ans: Answer)
    requires t in w.threads && w.threads[t] == th && ThreadOk(w, th)
    requires th.RRead? || th.RCheck? || th.RMark? || th.RClose? || th.RMissing? || th.RRelease?
    ensures var w' := StepReap(w, t, th, ans);
      RunsNothing(w, w') && (t in w'.threads ==> TruthfulThread(w', w'.threads[t]))
  {}

  lemma TeardownRunsNothing(w: World, t: nat, th: Thread, ans: Answer)
    requires t in w.threads && w.threads[t] == th && ThreadOk(w, th)
    requires th.TVm? || th.TRead? || th.TErase?
    ensures var w' := StepTeardown(w, t, th, ans);
      RunsNothing(w, w') && (t in w'.threads ==> TruthfulThread(w', w'.threads[t]))
  {}

  lemma SshRunsNothing(w: World, t: nat, th: Thread, ans: Answer)
    requires t in w.threads && w.threads[t] == th && ThreadOk(w, th)
    requires th.SRead? || th.SOpen? || th.SPort? || th.SRecheck? || th.SClose? || th.Pass?
    ensures var w' := StepSsh(w, t, th, ans);
      RunsNothing(w, w') && (t in w'.threads ==> TruthfulThread(w', w'.threads[t]))
  {}

  lemma SweepRunsNothing(w: World, t: nat, th: Thread, ans: Answer)
    requires t in w.threads && w.threads[t] == th && ThreadOk(w, th)
    requires th.KCheck? || th.KDelete?
    ensures var w' := StepSweep(w, t, th, ans);
      RunsNothing(w, w') && (t in w'.threads ==> TruthfulThread(w', w'.threads[t]))
  {}

  lemma OthersRunNothing(w: World, t: nat, ans: Answer)
    requires t in w.threads && ThreadOk(w, w.threads[t])
    requires !w.threads[t].Create? && !w.threads[t].ARead? && !w.threads[t].AWrite?
    ensures var w' := Step(w, t, ans);
      RunsNothing(w, w') && (t in w'.threads ==> TruthfulThread(w', w'.threads[t]))
  {
    var th := w.threads[t];
    if th.DRead? || th.DMark? || th.DClose? {
      DeleteRunsNothing(w, t, th, ans);
    } else if th.RRead? || th.RCheck? || th.RMark? || th.RClose? || th.RMissing? || th.RRelease? {
      ReapRunsNothing(w, t, th, ans);
    } else if th.TVm? || th.TRead? || th.TErase? {
      TeardownRunsNothing(w, t, th, ans);
    } else if th.KCheck? || th.KDelete? {
      SweepRunsNothing(w, t, th, ans);
    } else {
      SshRunsNothing(w, t, th, ans);
    }
  }

  lemma AttachTellsTruth(w: World, t: nat, ans: Answer)
    requires t in w.threads && ThreadOk(w, w.threads[t]) && TruthfulThread(w, w.threads[t])
    requires w.threads[t].ARead? || w.threads[t].AWrite?
    requires forall id :: id in w.db.records ==> w.db.records[id].id == id
    requires forall id :: TruthfulRecord(w, id) && (id in w.db.records ==> id in w.born && w.born[id].start <= w.now)
    ensures var w' := StepAttach(w, t, w.threads[t], ans);
      && w'.booted == w.booted && w'.born == w.born && w'.now == w.now
      && (forall id :: TruthfulRecord(w', id))
      && (t in w'.threads ==> TruthfulThread(w', w'.threads[t]))
  {}

  /** A step that leaves births alone and only adds addresses keeps what other threads say. */
  lemma OthersStayTruthful(w: World, w': World, t: nat, id: Id)
    requires Inv(w) && AllTruthful(w) && w'.threads - {t} == w.threads - {t}
    requires w'.born == w.born && w'.now == w.now && w'.booted - {id} == w.booted - {id}
    requires w'.booted == w.booted || (id !in w.booted && InFlight(w, t, id))
    ensures forall t0 :: t0 in w'.threads && t0 != t ==> TruthfulThread(w', w'.threads[t0])
  {
    forall t0 | t0 in w'.threads && t0 != t ensures TruthfulThread(w', w'.threads[t0]) {
      assert t0 in w'.threads - {t};
      assert (w'.threads - {t})[t0] == (w.threads - {t})[t0];
      assert TruthfulThread(w, w.threads[t0]);
      if w.threads[t0].Create? {
        var x := w.threads[t0].sb.id;
        assert Flies(w, x, t0);
        assert w'.booted != w.booted ==> Flies(w, id, t) && x != id;
        assert x in w'.booted <==> x in w'.booted - {id} || (x == id && x in w'.booted);
        assert x in w.booted ==> (w'.booted - {id} == w.booted - {id});
        if x != id {
          assert x in w.booted <==> x in w.booted - {id};
          assert x in w.booted ==> (w'.booted - {id})[x] == (w.booted - {id})[x];
        }
      } else if w.threads[t0].AWrite? {
        var x := w.threads[t0].sb.id;
        if x != id {
          assert x in w.booted <==> x in w.booted - {id};
          assert x in w.booted ==> (w'.booted - {id})[x] == (w.booted - {id})[x];
        }
      }
    }
  }

  lemma CreateTellsTruth(w: World, t: nat, sb: Sandbox, at: Stage, ans: Answer)
    requires Inv(w) && AllTruthful(w) && t in w.threads && w.threads[t] == Create(sb, at)
    ensures AllTruthful(StepCreate(w, t, sb, at, ans))
  {
    var w' := StepCreate(w, t, sb, at, ans);
    assert ThreadOk(w, w.threads[t]) && TruthfulThread(w, w.threads[t]) && CoreFor(w, sb.id);
    assert Step(w, t, ans) == w';
    StepMoves(w, t, ans);
    forall x ensures TruthfulRecord(w, x) && CoreFor(w, x) {}
    if at.Boot? {
      BootTellsAddress(w, t, sb, ans);
      forall x ensures x != sb.id && x in w.booted ==> x in w'.booted && w'.booted[x] == w.booted[x] {
        if x != sb.id && x in w.booted { assert x in w'.booted - {sb.id}; }
      }
    } else if at.Booted? {
      CommitStores(w, t, sb, ans);
    } else if at.Undo? || at.Fail? || at.Free? {
      LateRunsNothing(w, t, sb, at, ans);
    } else {
      EarlyRunsNothing(w, t, sb, at, ans);
    }
    forall x ensures TruthfulRecord(w', x) {
      assert TruthfulRecord(w, x) && CoreFor(w, x);
      if at.Boot? && x != sb.id { assert x in w'.booted <==> x in w'.booted - {sb.id}; }
    }
    OthersStayTruthful(w, w', t, sb.id);
  }

  lemma RunsNothingKeeps(w: World, w': World, t: nat)
    requires Inv(w) && AllTruthful(w) && RunsNothing(w, w') && w'.threads - {t} == w.threads - {t}
    requires t in w'.threads ==> TruthfulThread(w', w'.threads[t])
    ensures AllTruthful(w')
  {
    forall x ensures TruthfulRecord(w', x) {
      assert TruthfulRecord(w, x);
    }
    OthersStayTruthful(w, w', t, 0);
  }

  lemma StepTellsTruth(w: World, t: nat, ans: Answer)
    requires Inv(w) && AllTruthful(w) && t in w.threads
    ensures AllTruthful(Step(w, t, ans))
  {
    var th := w.threads[t];
    assert ThreadOk(w, th) && TruthfulThread(w, th);
    StepMoves(w, t, ans);
    if th.Create? {
      CreateTellsTruth(w, t, th.sb, th.at, ans);
    } else if th.ARead? || th.AWrite? {
      forall x ensures TruthfulRecord(w, x) && (x in w.db.records ==> x in w.born && w.born[x].start <= w.now) {
        assert CoreFor(w, x);
      }
      AttachTellsTruth(w, t, ans);
      OthersStayTruthful(w, StepAttach(w, t, th, ans), t, 0);
    } else {
      OthersRunNothing(w, t, ans);
      RunsNothingKeeps(w, Step(w, t, ans), t);
    }
  }

  lemma AsideTellsTruth(w: World, a: Action)
    requires Inv(w) && AllTruthful(w) && Enabled(w, a) && !a.Go?
    ensures AllTruthful(Next(w, a))
  {
    var w' := Next(w, a);
    forall x ensures TruthfulRecord(w', x) {
      assert TruthfulRecord(w, x) && CoreFor(w, x);
    }
    forall t | t in w'.threads ensures TruthfulThread(w', w'.threads[t]) {
      if t in w.threads { assert TruthfulThread(w, w.threads[t]) && ThreadOk(w, w.threads[t]); }
      if a.NewCreate? { assert TruthfulRecord(w, a.id); }
    }
  }

  lemma {:induction false} RunTellsTruth(w: World, actions: seq<Action>)
    requires Inv(w) && AllTruthful(w) && Runs(w, actions)
    ensures AllTruthful(After(w, actions))
    decreases |actions|
  {
    if actions == [] {
      assert After(w, actions) == w;
    } else {
      NextKeepsInv(w, actions[0]);
      if actions[0].Go? {
        StepTellsTruth(w, actions[0].t, actions[0].ans);
      } else {
        AsideTellsTruth(w, actions[0]);
      }
      RunTellsTruth(Next(w, actions[0]), actions[1..]);
    }
  }

  lemma ReachableTruthful(w: World)
    requires Reachable(w)
    ensures AllTruthful(w)
  {
    var actions :| Runs(INITIAL, actions) && After(INITIAL, actions) == w;
    InitialInv();
    RunTellsTruth(INITIAL, actions);
  }

  // ---- the results ----

  /** In every reachable state a `running` record has the address its VM booted with, belongs to the
      user of its Create, and was last active between the start of that Create and now. */
  lemma RunningRecordsTellTruth(w: World, id: Id)
    requires Reachable(w) && StateIs(w.db, id, Running)
    ensures id in w.booted && w.db.records[id].ip == w.booted[id]
    ensures id in w.born && w.db.records[id].user == w.born[id].user
    ensures w.born[id].start <= w.db.records[id].lastActivity <= w.now
  {
    ReachableTruthful(w);
    ReachableInv(w);
    assert TruthfulRecord(w, id) && CoreFor(w, id);
  }

  /** So reconcileSSH sees every running sandbox whose VM got an address, at that address. */
  lemma RunningSandboxesAreSeen(w: World, id: Id)
    requires Reachable(w) && StateIs(w.db, id, Running) && id in w.booted && w.booted[id] != NoAddr
    ensures id in SshPassSpec.RunningAddrs(w.db) && SshPassSpec.RunningAddrs(w.db)[id] == w.booted[id]
  {
    RunningRecordsTellTruth(w, id);
  }

  lemma CreateCommitsOnly(w: World, t: nat, sb: Sandbox, at: Stage, ans: Answer, id: Id)
    requires t in w.threads && w.threads[t] == Create(sb, at) && CreateOk(w, sb, at)
    requires TruthfulThread(w, Create(sb, at))
    requires !StateIs(w.db, id, Running) && StateIs(StepCreate(w, t, sb, at, ans).db, id, Running)
    ensures at == Booted && sb.id == id && id in w.booted && id in w.born
    ensures StepCreate(w, t, sb, at, ans).db.records[id]
         == Sandbox(id, w.born[id].user, Running, w.booted[id], None, w.now)
  {
    if at.Booted? {
      CommitStores(w, t, sb, ans);
    } else if at.Undo? || at.Fail? || at.Free? {
      LateRunsNothing(w, t, sb, at, ans);
    } else if at.Boot? {
      BootTellsAddress(w, t, sb, ans);
    } else {
      EarlyRunsNothing(w, t, sb, at, ans);
    }
  }

  lemma AttachCommitsNothing(w: World, t: nat, ans: Answer, id: Id)
    requires t in w.threads && (w.threads[t].ARead? || w.threads[t].AWrite?)
    requires !Attaches(w, Go(t, ans), id) && !StateIs(w.db, id, Running)
    ensures !StateIs(Step(w, t, ans).db, id, Running)
  {}

  lemma GoCommitsOnly(w: World, t: nat, ans: Answer, id: Id)
    requires Inv(w) && AllTruthful(w) && t in w.threads
    requires !w.threads[t].ARead? && !w.threads[t].AWrite?
    requires !StateIs(w.db, id, Running) && StateIs(Step(w, t, ans).db, id, Running)
    ensures InFlight(w, t, id) && w.threads[t].at == Booted && id in w.booted && id in w.born
    ensures Step(w, t, ans).db.records[id] == Sandbox(id, w.born[id].user, Running, w.booted[id], None, w.now)
  {
    var th := w.threads[t];
    assert ThreadOk(w, th) && TruthfulThread(w, th);
    if th.Create? {
      CreateCommitsOnly(w, t, th.sb, th.at, ans, id);
    } else {
      OthersRunNothing(w, t, ans);
    }
  }

  /** A record that becomes `running` other than through an attach is that of its Create's commit, field
      by field: the address of the boot, the time of the commit, and no device, whatever an attach has
      stored before. */
  lemma CommitStoresExactly(w: World, t: nat, ans: Answer, id: Id)
    requires Reachable(w) && t in w.threads && !Attaches(w, Go(t, ans), id)
    requires !StateIs(w.db, id, Running) && StateIs(Step(w, t, ans).db, id, Running)
    ensures CreateAt(w, Go(t, ans), id, Booted) && id in w.booted && id in w.born
    ensures Step(w, t, ans).db.records[id] == Sandbox(id, w.born[id].user, Running, w.booted[id], None, w.now)
  {
    ReachableTruthful(w);
    ReachableInv(w);
    var th := w.threads[t];
    if th.ARead? || th.AWrite? {
      AttachCommitsNothing(w, t, ans, id);
    } else {
      GoCommitsOnly(w, t, ans, id);
    }
  }
}
