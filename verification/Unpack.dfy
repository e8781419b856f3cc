/** The shared rootfs unpack: any number of callers, each of which may give up, and one background
    job per unpack, cut at every lock section, channel operation and containerd call. */
module Unpack {
  import opened Records

  type Caller = nat
  type Job = nat

  datatype Verdict = Done | Failed(code: nat)

  /** The background goroutine: unpacking, then recording its error, clearing the field, closing
      the channel. */
  datatype Phase = Unpacking | Recorded | Cleared | Closed

  datatype JobState = JobState(phase: Phase, err: Verdict)

  /** Where a call of ensureUnpacked stands. */
  datatype Call =
    | Check                         // about to ask whether the image is unpacked
    | Join                          // it is not; about to take the lock
    | Wait(job: Job)
    | Back(job: Job, err: Verdict)  // returned the job's error
    | AlreadyThere                  // returned nil at once
    | CheckFailed
    | Cancelled(job: Job)           // gave up waiting

  datatype Machine = Machine(
    unpacked: bool,
    field: Option<Job>,             // m.unpacking
    jobs: map<Job, JobState>,
    calls: map<Caller, Call>
  )

  datatype Action =
    | Enter(c: Caller)
    | Look(c: Caller, fails: bool)
    | TakeJob(c: Caller, next: Job)
    | Receive(c: Caller)
    | Cancel(c: Caller)
    | Finish(j: Job, result: Verdict)   // the unpack itself returned
    | ClearField(j: Job)
    | CloseDone(j: Job)

  const START: Machine := Machine(false, None, map[], map[])

  predicate At(m: Machine, c: Caller, call: Call) {
    c in m.calls && m.calls[c] == call
  }

  predicate JobAt(m: Machine, j: Job, phase: Phase) {
    j in m.jobs && m.jobs[j].phase == phase
  }

  predicate Enabled(m: Machine, a: Action) {
    match a
    case Enter(c) => c !in m.calls
    case Look(c, _) => At(m, c, Check)
    case TakeJob(c, next) => At(m, c, Join) && next !in m.jobs
    case Receive(c) => c in m.calls && m.calls[c].Wait? && JobAt(m, m.calls[c].job, Closed)
    case Cancel(c) => c in m.calls && m.calls[c].Wait?
    case Finish(j, _) => JobAt(m, j, Unpacking)
    case ClearField(j) => JobAt(m, j, Recorded)
    case CloseDone(j) => JobAt(m, j, Cleared)
  }

  function Next(m: Machine, a: Action): Machine
    requires Enabled(m, a)
  {
    match a
    case Enter(c) => m.(calls := m.calls[c := Check])
    case Look(c, fails) =>
      m.(calls := m.calls[c := if fails then CheckFailed else if m.unpacked then AlreadyThere else Join])
    case TakeJob(c, next) =>
      if m.field.None?
      then m.(field := Some(next), jobs := m.jobs[next := JobState(Unpacking, Done)], calls := m.calls[c := Wait(next)])
      else m.(calls := m.calls[c := Wait(m.field.value)])
    case Receive(c) => m.(calls := m.calls[c := Back(m.calls[c].job, m.jobs[m.calls[c].job].err)])
    case Cancel(c) => m.(calls := m.calls[c := Cancelled(m.calls[c].job)])
    case Finish(j, result) =>
      m.(jobs := m.jobs[j := JobState(Recorded, result)], unpacked := m.unpacked || result == Done)
    case ClearField(j) => m.(jobs := m.jobs[j := m.jobs[j].(phase := Cleared)], field := None)
    case CloseDone(j) => m.(jobs := m.jobs[j := m.jobs[j].(phase := Closed)])
  }

  predicate Runs(m: Machine, actions: seq<Action>)
    decreases |actions|
  {
    actions == [] || (Enabled(m, actions[0]) && Runs(Next(m, actions[0]), actions[1..]))
  }

  function After(m: Machine, actions: seq<Action>): Machine
    requires Runs(m, actions)
    decreases |actions|
  {
    if actions == [] then m else After(Next(m, actions[0]), actions[1..])
  }

  // ---- the invariant ----

  predicate Busy(m: Machine, j: Job) {
    JobAt(m, j, Unpacking) || JobAt(m, j, Recorded)
  }

  predicate JobOk(m: Machine, j: Job) {
    && (Busy(m, j) <==> m.field == Some(j))
    && (j in m.jobs && m.jobs[j].phase != Unpacking && m.jobs[j].err == Done ==> m.unpacked)
  }

  predicate CallOk(m: Machine, c: Caller) {
    c in m.calls ==>
      match m.calls[c]
      case Wait(j) => j in m.jobs
      case Cancelled(j) => j in m.jobs
      case Back(j, err) => JobAt(m, j, Closed) && m.jobs[j].err == err
      case AlreadyThere => m.unpacked
      case _ => true
  }

  ghost predicate Inv(m: Machine) {
    (forall j :: JobOk(m, j)) && (forall c :: CallOk(m, c))
  }

  lemma StepKeepsInv(m: Machine, a: Action)
    requires Inv(m) && Enabled(m, a)
    ensures Inv(Next(m, a))
  {
    var m' := Next(m, a);
    forall j ensures JobOk(m', j) {
      assert JobOk(m, j);
      match a
      case TakeJob(_, next) => assert JobOk(m, next);
      case Finish(k, _) => assert JobOk(m, k);
      case ClearField(k) => assert JobOk(m, k);
      case CloseDone(k) => assert JobOk(m, k);
      case _ =>
    }
    forall c ensures CallOk(m', c) {
      assert CallOk(m, c);
      match a
      case TakeJob(_, _) => if m.field.Some? { assert JobOk(m, m.field.value); }
      case _ =>
    }
  }

  lemma {:induction false} RunKeepsInv(m: Machine, actions: seq<Action>)
    requires Inv(m) && Runs(m, actions)
    ensures Inv(After(m, actions))
    decreases |actions|
  {
    if actions == [] {
    } else {
      StepKeepsInv(m, actions[0]);
      RunKeepsInv(Next(m, actions[0]), actions[1..]);
    }
  }

  /** Returned nil: found the image unpacked, or was told so by the job it waited for. */
  predicate ReturnedNil(m: Machine, c: Caller) {
    c in m.calls && (m.calls[c].AlreadyThere? || (m.calls[c].Back? && m.calls[c].err == Done))
  }

  /** In every interleaving of callers, cancellations and completions at most one unpack runs at a
      time, and a caller that got nil can rely on the image. */
  lemma OneUnpackAtATime(actions: seq<Action>)
    requires Runs(START, actions)
    ensures var m := After(START, actions);
      && (forall j, k :: JobAt(m, j, Unpacking) && JobAt(m, k, Unpacking) ==> j == k)
      && (forall c :: ReturnedNil(m, c) ==> m.unpacked)
  {
    RunKeepsInv(START, actions);
    var m := After(START, actions);
    forall j, k | JobAt(m, j, Unpacking) && JobAt(m, k, Unpacking) ensures j == k {
      assert JobOk(m, j) && JobOk(m, k);
    }
    forall c | ReturnedNil(m, c) ensures m.unpacked {
      assert CallOk(m, c);
      if m.calls[c].Back? { assert JobOk(m, m.calls[c].job); }
    }
  }

  /** What a waiter is told later is the error of the job it joined, however the run goes on. */
  lemma {:induction false} WaiterHearsItsJob(m: Machine, actions: seq<Action>, c: Caller, j: Job)
    requires Inv(m) && Runs(m, actions) && At(m, c, Wait(j))
    ensures var m' := After(m, actions);
      && c in m'.calls && j in m'.jobs
      && (m'.calls[c] == Wait(j) || m'.calls[c] == Cancelled(j)
          || (m'.calls[c] == Back(j, m'.jobs[j].err) && JobAt(m', j, Closed)))
    decreases |actions|
  {
    assert CallOk(m, c);
    if actions == [] {
    } else {
      var m' := Next(m, actions[0]);
      StepKeepsInv(m, actions[0]);
      if At(m', c, Wait(j)) {
        WaiterHearsItsJob(m', actions[1..], c, j);
      } else {
        VerdictStands(m', actions[1..], c, j);
      }
    }
  }

  lemma {:induction false} VerdictStands(m: Machine, actions: seq<Action>, c: Caller, j: Job)
    requires Inv(m) && Runs(m, actions) && c in m.calls && j in m.jobs
    requires m.calls[c] == Cancelled(j) || (m.calls[c] == Back(j, m.jobs[j].err) && JobAt(m, j, Closed))
    ensures var m' := After(m, actions);
      && c in m'.calls && j in m'.jobs && m'.calls[c] == m.calls[c]
      && (m.calls[c].Back? ==> m'.jobs[j] == m.jobs[j])
    decreases |actions|
  {
    if actions == [] {
    } else {
      StepKeepsInv(m, actions[0]);
      VerdictStands(Next(m, actions[0]), actions[1..], c, j);
    }
  }

  /** What an unpack returned is what its job says from then on, and what every caller that waits for
      it is told: nil exactly if it returned nil. */
  lemma VerdictIsTheUnpacks(m: Machine, j: Job, result: Verdict, actions: seq<Action>, c: Caller)
    requires Inv(m) && Enabled(m, Finish(j, result)) && Runs(Next(m, Finish(j, result)), actions)
    ensures var m' := After(Next(m, Finish(j, result)), actions);
      && j in m'.jobs && m'.jobs[j].err == result
      && (c in m'.calls && m'.calls[c].Back? && m'.calls[c].job == j ==> m'.calls[c].err == result)
  {
    var recorded := Next(m, Finish(j, result));
    StepKeepsInv(m, Finish(j, result));
    ResultStands(recorded, actions, j);
    RunKeepsInv(recorded, actions);
    assert CallOk(After(recorded, actions), c);
  }

  lemma {:induction false} ResultStands(m: Machine, actions: seq<Action>, j: Job)
    requires Inv(m) && Runs(m, actions) && j in m.jobs && !JobAt(m, j, Unpacking)
    ensures var m' := After(m, actions);
      j in m'.jobs && !JobAt(m', j, Unpacking) && m'.jobs[j].err == m.jobs[j].err
    decreases |actions|
  {
    if actions == [] {
    } else {
      StepKeepsInv(m, actions[0]);
      ResultStands(Next(m, actions[0]), actions[1..], j);
    }
  }

  /** The image is unpacked from the first unpack that succeeds on; a caller that comes after that is
      answered at once, unless its look fails, and starts no unpack. */
  lemma {:induction false} LaterCallersAreAnswered(m: Machine, actions: seq<Action>, c: Caller)
    requires m.unpacked && (c !in m.calls || m.calls[c] == Check) && Runs(m, actions)
    ensures var m' := After(m, actions);
      m'.unpacked && (c !in m'.calls || m'.calls[c] == Check || Answered(m', c))
    decreases |actions|
  {
    if actions == [] {
    } else if Answered(Next(m, actions[0]), c) {
      AnswerStands(Next(m, actions[0]), actions[1..], c);
    } else {
      LaterCallersAreAnswered(Next(m, actions[0]), actions[1..], c);
    }
  }

  predicate Answered(m: Machine, c: Caller) {
    c in m.calls && (m.calls[c] == AlreadyThere || m.calls[c] == CheckFailed)
  }

  lemma {:induction false} AnswerStands(m: Machine, actions: seq<Action>, c: Caller)
    requires m.unpacked && Answered(m, c) && Runs(m, actions)
    ensures After(m, actions).unpacked && Answered(After(m, actions), c)
    decreases |actions|
  {
    if actions == [] {
    } else {
      AnswerStands(Next(m, actions[0]), actions[1..], c);
    }
  }

  /** Nothing but an unpack that succeeds makes the image unpacked, and nothing undoes it. */
  lemma OnlySuccessUnpacks(m: Machine, a: Action)
    requires Enabled(m, a)
    ensures Next(m, a).unpacked <==> m.unpacked || (a.Finish? && a.result == Done)
  {}

  /** A look at an unpacked image that does not fail returns nil; at any other it joins the running job,
      or starts the only one. */
  lemma LookExactly(m: Machine, c: Caller, next: Job)
    requires At(m, c, Check) && next !in m.jobs
    ensures m.unpacked ==> Next(m, Look(c, false)) == m.(calls := m.calls[c := AlreadyThere])
    ensures !m.unpacked ==>
      var joined := Next(Next(m, Look(c, false)), TakeJob(c, next));
      if m.field.Some? then joined == m.(calls := m.calls[c := Wait(m.field.value)])
      else joined == m.(field := Some(next), jobs := m.jobs[next := JobState(Unpacking, Done)],
                        calls := m.calls[c := Wait(next)])
  {
    var looked := Next(m, Look(c, false));
    if !m.unpacked { assert At(looked, c, Join); }
  }

  /** The run without the cancellation of caller c. */
  function Patient(actions: seq<Action>, c: Caller): seq<Action> {
    if actions == [] then []
    else if actions[0] == Cancel(c) then Patient(actions[1..], c)
    else [actions[0]] + Patient(actions[1..], c)
  }

  predicate CallAlike(m: Machine, n: Machine, x: Caller, c: Caller) {
    && (x in m.calls <==> x in n.calls)
    && (x in m.calls ==>
          || m.calls[x] == n.calls[x]
          || (x == c && n.calls[c].Wait? && m.calls[c] == Cancelled(n.calls[c].job)))
  }

  /** The two machines differ at most in that caller c has given up in m and still waits in n. */
  ghost predicate OnlyGaveUp(m: Machine, n: Machine, c: Caller) {
    && m.unpacked == n.unpacked && m.field == n.field && m.jobs == n.jobs
    && forall x :: CallAlike(m, n, x, c)
  }

  lemma StepsAlike(m: Machine, n: Machine, a: Action, c: Caller)
    requires OnlyGaveUp(m, n, c) && Enabled(m, a)
    ensures a == Cancel(c) ==> OnlyGaveUp(Next(m, a), n, c)
    ensures a != Cancel(c) ==> Enabled(n, a) && OnlyGaveUp(Next(m, a), Next(n, a), c)
  {
    if a.Enter? || a.Look? || a.TakeJob? || a.Receive? || a.Cancel? {
      assert CallAlike(m, n, a.c, c);
    }
    var m', n' := Next(m, a), if a == Cancel(c) then n else Next(n, a);
    forall x ensures CallAlike(m', n', x, c) {
      assert CallAlike(m, n, x, c);
    }
  }

  /** A cancelled caller stops nothing: without its cancellation the same run is possible to the end,
      and ends with the same jobs, the same image and every other caller where it was. */
  lemma {:induction false} CancelStopsNothing(m: Machine, n: Machine, actions: seq<Action>, c: Caller)
    requires OnlyGaveUp(m, n, c) && Runs(m, actions)
    ensures Runs(n, Patient(actions, c))
    ensures OnlyGaveUp(After(m, actions), After(n, Patient(actions, c)), c)
    decreases |actions|
  {
    if actions == [] {
    } else {
      var a := actions[0];
      StepsAlike(m, n, a, c);
      if a == Cancel(c) {
        CancelStopsNothing(Next(m, a), n, actions[1..], c);
      } else {
        CancelStopsNothing(Next(m, a), Next(n, a), actions[1..], c);
        assert ([a] + Patient(actions[1..], c))[1..] == Patient(actions[1..], c);
      }
    }
  }

  /** The steps a job still has to make. */
  function Ahead(m: Machine, j: Job): nat
    requires j in m.jobs
  {
    match m.jobs[j].phase
    case Unpacking => 3
    case Recorded => 2
    case Cleared => 1
    case Closed => 0
  }

  /** Nobody waits for a dead job: until it is closed the job can move, whoever has given up, and no
      step of anyone else sets it back. */
  lemma JobsComplete(m: Machine, j: Job)
    requires j in m.jobs
    ensures Ahead(m, j) > 0 ==> exists a :: Enabled(m, a) && Ahead(Next(m, a), j) < Ahead(m, j)
    ensures forall a :: Enabled(m, a) ==> j in Next(m, a).jobs && Ahead(Next(m, a), j) <= Ahead(m, j)
  {
    if Ahead(m, j) > 0 {
      var a := match m.jobs[j].phase
        case Unpacking => Finish(j, Done)
        case Recorded => ClearField(j)
        case _ => CloseDone(j);
      assert Enabled(m, a) && Ahead(Next(m, a), j) < Ahead(m, j);
    }
  }
}
