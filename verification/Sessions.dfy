/** One relay listener: its accept loop, a pipe goroutine per session and the one close, cut at
    every lock section, dial and socket close. Connections are kept as open/closed flags. */
module Sessions {

  type Sid = nat

  const MAX_SESSIONS: nat := 8

  /** Where a session's pipe goroutine stands. */
  datatype Pipe =
    | Dial           // about to dial the guest
    | Publish        // dialled; about to publish the upstream under the lock
    | DropUp         // found the listener closed; about to close the unpublished upstream
    | Copy           // copying both ways
    | Drop           // about to unregister under the lock
    | DropClient     // unregistered; about to close the client
    | DropBoth       // client closed; about to close the published upstream

  /** Where the accept loop stands. */
  datatype Serve = Accepting | Got(sid: Sid) | Reject(sid: Sid) | Stopped

  datatype Closer = NotCalled | LnClosed | Returned

  datatype Listener = Listener(
    lnOpen: bool,
    closed: bool,
    sessions: set<Sid>,          // registered sessions
    published: set<Sid>,         // sessions whose upstream field is set
    clients: set<Sid>,           // accepted connections that are still open
    upstreams: set<Sid>,         // dialled connections that are still open
    seen: set<Sid>,              // every connection ever accepted
    serve: Serve,
    pipes: map<Sid, Pipe>,
    closer: Closer
  )

  datatype Action =
    | Accept(sid: Sid)
    | AcceptFails                // closed listener, or a transient error
    | Register                   // the accept loop's lock section
    | CloseRejected
    | Run(sid: Sid, ok: bool)    // one step of a pipe; ok: the dial succeeded
    | CallClose                  // close the listening socket
    | CloseAll                   // close's lock section

  const FRESH: Listener := Listener(true, false, {}, {}, {}, {}, {}, Accepting, map[], NotCalled)

  predicate Enabled(l: Listener, a: Action) {
    match a
    case Accept(sid) => l.serve.Accepting? && l.lnOpen && sid !in l.seen
    case AcceptFails => l.serve.Accepting?
    case Register => l.serve.Got?
    case CloseRejected => l.serve.Reject?
    case Run(sid, _) => sid in l.pipes
    case CallClose => l.closer.NotCalled?
    case CloseAll => l.closer.LnClosed?
  }

  function To(l: Listener, sid: Sid, p: Pipe): Listener {
    l.(pipes := l.pipes[sid := p])
  }

  function StepPipe(l: Listener, sid: Sid, ok: bool): Listener
    requires sid in l.pipes
  {
    match l.pipes[sid]
    case Dial =>
      if ok then To(l.(upstreams := l.upstreams + {sid}), sid, Publish) else To(l, sid, Drop)
    case Publish =>
      if l.closed then To(l, sid, DropUp) else To(l.(published := l.published + {sid}), sid, Copy)
    case DropUp => To(l.(upstreams := l.upstreams - {sid}), sid, Drop)
    case Copy => To(l, sid, Drop)
    case Drop => To(l.(sessions := l.sessions - {sid}), sid, DropClient)
    case DropClient => To(l.(clients := l.clients - {sid}), sid, DropBoth)
    case DropBoth =>
      l.(upstreams := if sid in l.published then l.upstreams - {sid} else l.upstreams,
         pipes := l.pipes - {sid})
  }

  function Next(l: Listener, a: Action): Listener
    requires Enabled(l, a)
  {
    match a
    case Accept(sid) =>
      l.(serve := Got(sid), seen := l.seen + {sid}, clients := l.clients + {sid})
    case AcceptFails => if l.lnOpen then l else l.(serve := Stopped)
    case Register =>
      var sid := l.serve.sid;
      if !l.closed && |l.sessions| < MAX_SESSIONS
      then l.(serve := Accepting, sessions := l.sessions + {sid}, pipes := l.pipes[sid := Dial])
      else l.(serve := Reject(sid))
    case CloseRejected => l.(serve := Accepting, clients := l.clients - {l.serve.sid})
    case Run(sid, ok) => StepPipe(l, sid, ok)
    case CallClose => l.(lnOpen := false, closer := LnClosed)
    case CloseAll =>
      l.(closed := true, closer := Returned,
         clients := l.clients - l.sessions,
         upstreams := l.upstreams - (l.sessions * l.published))
  }

  predicate Runs(l: Listener, actions: seq<Action>)
    decreases |actions|
  {
    actions == [] || (Enabled(l, actions[0]) && Runs(Next(l, actions[0]), actions[1..]))
  }

  function After(l: Listener, actions: seq<Action>): Listener
    requires Runs(l, actions)
    decreases |actions|
  {
    if actions == [] then l else After(Next(l, actions[0]), actions[1..])
  }

  // ---- the invariant, one session at a time ----

  predicate Registered(p: Pipe) {
    p.Dial? || p.Publish? || p.DropUp? || p.Copy? || p.Drop?
  }

  /** The accept loop holds the connection. */
  predicate Serving(l: Listener, sid: Sid) {
    (l.serve.Got? || l.serve.Reject?) && l.serve.sid == sid
  }

  predicate PipeAt(l: Listener, sid: Sid, p: Pipe) {
    sid in l.pipes && l.pipes[sid] == p
  }

  /** Some thread's remaining steps close this client. */
  predicate ClientHeld(l: Listener, sid: Sid) {
    Serving(l, sid) || sid in l.pipes
  }

  ghost predicate SessionOk(l: Listener, sid: Sid) {
    && (sid in l.pipes || Serving(l, sid) ==> sid in l.seen)
    && (sid in l.clients || sid in l.upstreams || sid in l.published ==> sid in l.seen)
    && !(sid in l.pipes && Serving(l, sid))
    && (sid in l.sessions <==> sid in l.pipes && Registered(l.pipes[sid]))
    // an open client is held by the accept loop or by its pipe, before the pipe's own close
    && (sid in l.clients ==> ClientHeld(l, sid) && !PipeAt(l, sid, DropBoth))
    // an open upstream is held by its pipe, which will close it
    && (sid in l.upstreams ==> sid in l.pipes && !PipeAt(l, sid, Dial))
    && (sid in l.upstreams && sid !in l.published ==> PipeAt(l, sid, Publish) || PipeAt(l, sid, DropUp))
    && (PipeAt(l, sid, Dial) || PipeAt(l, sid, Publish) || PipeAt(l, sid, DropUp) ==> sid !in l.published)
    && (Serving(l, sid) ==> sid !in l.published)
    // once close has been through, what it could see is closed
    && (l.closed && sid in l.sessions ==> sid !in l.clients)
    && (l.closed && sid in l.sessions && sid in l.upstreams ==> sid !in l.published)
    && (PipeAt(l, sid, DropUp) ==> l.closed)
  }

  ghost predicate Inv(l: Listener) {
    && |l.sessions| <= MAX_SESSIONS
    && (l.closed <==> l.closer.Returned?)
    && (l.lnOpen <==> l.closer.NotCalled?)
    && (l.serve.Stopped? ==> !l.lnOpen)
    && forall sid :: SessionOk(l, sid)
  }

  lemma PipeKeepsOwn(l: Listener, sid: Sid, ok: bool)
    requires sid in l.pipes && SessionOk(l, sid)
    ensures SessionOk(StepPipe(l, sid, ok), sid)
  {}

  lemma PipeKeepsOthers(l: Listener, sid: Sid, ok: bool, x: Sid)
    requires sid in l.pipes && SessionOk(l, x) && x != sid
    ensures SessionOk(StepPipe(l, sid, ok), x)
  {}

  lemma PipeKeepsFlags(l: Listener, sid: Sid, ok: bool)
    requires sid in l.pipes
    ensures var l' := StepPipe(l, sid, ok);
      l'.closed == l.closed && l'.closer == l.closer && l'.lnOpen == l.lnOpen && |l'.sessions| <= |l.sessions|
  {}

  lemma PipeKeepsInv(l: Listener, sid: Sid, ok: bool)
    requires Inv(l) && sid in l.pipes
    ensures Inv(StepPipe(l, sid, ok))
  {
    var l' := StepPipe(l, sid, ok);
    assert SessionOk(l, sid);
    PipeKeepsOwn(l, sid, ok);
    forall x ensures SessionOk(l', x) {
      if x != sid {
        assert SessionOk(l, x);
        PipeKeepsOthers(l, sid, ok, x);
      }
    }
    PipeKeepsFlags(l, sid, ok);
  }

  lemma StepKeepsInv(l: Listener, a: Action)
    requires Inv(l) && Enabled(l, a)
    ensures Inv(Next(l, a))
  {
    if a.Run? {
      PipeKeepsInv(l, a.sid, a.ok);
    } else {
      forall x ensures SessionOk(Next(l, a), x) {
        assert SessionOk(l, x);
      }
    }
  }

  lemma {:induction false} RunKeepsInv(l: Listener, actions: seq<Action>)
    requires Inv(l) && Runs(l, actions)
    ensures Inv(After(l, actions))
    decreases |actions|
  {
    if actions == [] {
    } else {
      StepKeepsInv(l, actions[0]);
      RunKeepsInv(Next(l, actions[0]), actions[1..]);
    }
  }

  /** Its pipe goroutine is at a point from which it closes the upstream. */
  predicate UpstreamHeld(l: Listener, sid: Sid) {
    PipeAt(l, sid, Publish) || PipeAt(l, sid, DropUp) || PipeAt(l, sid, DropClient) || PipeAt(l, sid, DropBoth)
  }

  /** In every interleaving at most eight sessions are registered; and once close has returned,
      every connection ever accepted or dialled is closed or held by a thread that will close it. */
  lemma SessionsBoundedAndHeld(actions: seq<Action>)
    requires Runs(FRESH, actions)
    ensures var l := After(FRESH, actions);
      && |l.sessions| <= MAX_SESSIONS
      && (l.closer.Returned? ==>
            && (forall sid :: sid in l.clients ==>
                  Serving(l, sid) || PipeAt(l, sid, DropClient))
            && (forall sid :: sid in l.upstreams ==>
                  UpstreamHeld(l, sid)))
  {
    forall sid ensures SessionOk(FRESH, sid) {}
    RunKeepsInv(FRESH, actions);
    var l := After(FRESH, actions);
    forall sid | l.closer.Returned? && sid in l.clients ensures Serving(l, sid) || PipeAt(l, sid, DropClient) {
      assert SessionOk(l, sid);
    }
    forall sid | l.closer.Returned? && sid in l.upstreams
      ensures UpstreamHeld(l, sid)
    {
      assert SessionOk(l, sid);
    }
  }

  /** The accept loop goes on as long as its socket is open, whatever transient errors it meets. */
  lemma AcceptsWhileOpen(actions: seq<Action>)
    requires Runs(FRESH, actions)
    ensures After(FRESH, actions).lnOpen ==> !After(FRESH, actions).serve.Stopped?
  {
    forall sid ensures SessionOk(FRESH, sid) {}
    RunKeepsInv(FRESH, actions);
  }

  /** Others may move meanwhile, but not this session's pipe, and the listener is not closed. */
  predicate Leaves(actions: seq<Action>, sid: Sid) {
    forall a :: a in actions ==> a != CloseAll && (a.Run? ==> a.sid != sid) && (a.Accept? ==> a.sid != sid)
  }

  lemma {:induction false} SessionWaits(l: Listener, actions: seq<Action>, sid: Sid)
    requires sid in l.pipes && !l.closed && !Serving(l, sid) && sid in l.seen
    requires Runs(l, actions) && Leaves(actions, sid)
    ensures var l' := After(l, actions);
      && !l'.closed && sid in l'.pipes && l'.pipes[sid] == l.pipes[sid] && !Serving(l', sid) && sid in l'.seen
      && (sid in l'.upstreams <==> sid in l.upstreams) && (sid in l'.published <==> sid in l.published)
      && (sid in l'.clients <==> sid in l.clients) && (sid in l'.sessions <==> sid in l.sessions)
    decreases |actions|
  {
    if actions == [] {
    } else {
      var a := actions[0];
      assert a in actions;
      WaitsOneStep(l, a, sid);
      SessionWaits(Next(l, a), actions[1..], sid);
    }
  }

  lemma WaitsOneStep(l: Listener, a: Action, sid: Sid)
    requires sid in l.pipes && !l.closed && !Serving(l, sid) && sid in l.seen && Enabled(l, a) && Leaves([a], sid)
    ensures var l' := Next(l, a);
      && !l'.closed && sid in l'.pipes && l'.pipes[sid] == l.pipes[sid] && !Serving(l', sid) && sid in l'.seen
      && (sid in l'.upstreams <==> sid in l.upstreams) && (sid in l'.published <==> sid in l.published)
      && (sid in l'.clients <==> sid in l.clients) && (sid in l'.sessions <==> sid in l.sessions)
  {
    assert a in [a];
  }

  /** On an open listener with fewer than eight sessions an accepted connection is registered and its
      guest dialled; if the dial succeeds its upstream is published and the two are joined, whatever
      others do in between, as long as the listener is not closed. */
  lemma SessionIsServed(l: Listener, sid: Sid, first: seq<Action>, second: seq<Action>, x: bool)
    requires Inv(l) && l.serve == Got(sid) && !l.closed && |l.sessions| < 8 && sid in l.clients
    requires Leaves(first, sid) && Leaves(second, sid)
    requires Runs(l, [Register] + first)
    requires var l1 := After(l, [Register] + first); sid in l1.pipes && Runs(l1, [Run(sid, true)] + second)
    ensures var l2 := After(After(l, [Register] + first), [Run(sid, true)] + second);
      && sid in l2.pipes && sid in l2.sessions
      && var l3 := Next(l2, Run(sid, x));
         PipeAt(l3, sid, Copy) && sid in l3.published && sid in l3.upstreams && sid in l3.clients
  {
    assert SessionOk(l, sid);
    assert ([Register] + first)[1..] == first;
    var l0 := Next(l, Register);
    SessionWaits(l0, first, sid);
    var l1 := After(l0, first);
    assert ([Run(sid, true)] + second)[1..] == second;
    SessionWaits(Next(l1, Run(sid, true)), second, sid);
  }

  /** A connection that finds eight sessions, or the listener closed, is closed without a session. */
  lemma SessionIsRejected(l: Listener, sid: Sid)
    requires Inv(l) && l.serve == Got(sid) && (l.closed || |l.sessions| == 8)
    ensures var l' := Next(Next(l, Register), CloseRejected);
      sid !in l'.clients && sid !in l'.pipes && l'.sessions == l.sessions && l'.serve == Accepting
  {
    assert SessionOk(l, sid);
  }

  /** Once the listener is closed no upstream is published, however the run goes on. */
  lemma {:induction false} NothingPublishedAfterClose(l: Listener, actions: seq<Action>)
    requires Runs(l, actions) && l.closed
    ensures After(l, actions).published == l.published && After(l, actions).closed
    decreases |actions|
  {
    if actions == [] {
    } else {
      NothingPublishedAfterClose(Next(l, actions[0]), actions[1..]);
    }
  }

  // ---- after close everything comes to rest ----

  function PipeRest(p: Pipe): nat {
    match p
    case Dial => 6
    case Publish => 5
    case DropUp => 4
    case Copy => 4
    case Drop => 3
    case DropClient => 2
    case DropBoth => 1
  }

  ghost function PipesRest(pipes: map<Sid, Pipe>): nat {
    if pipes == map[] then 0
    else
      var sid :| sid in pipes;
      PipeRest(pipes[sid]) + PipesRest(pipes - {sid})
  }

  lemma {:induction false} PipesRestSplits(pipes: map<Sid, Pipe>, sid: Sid)
    requires sid in pipes
    ensures PipesRest(pipes) == PipeRest(pipes[sid]) + PipesRest(pipes - {sid})
    decreases |pipes|
  {
    var first :| first in pipes && PipesRest(pipes) == PipeRest(pipes[first]) + PipesRest(pipes - {first});
    if first != sid {
      PipesRestSplits(pipes - {first}, sid);
      PipesRestSplits(pipes - {sid}, first);
      assert pipes - {first} - {sid} == pipes - {sid} - {first};
    }
  }

  /** The steps still ahead of the threads of a closed listener. */
  ghost function Rest(l: Listener): nat {
    PipesRest(l.pipes) + match l.serve
      case Got(_) => 3
      case Reject(_) => 2
      case Accepting => 1
      case Stopped => 0
  }

  /** After close every step of any thread brings the end nearer, and until the end some thread can
      move; at the end every connection is closed. So no schedule leaves one open for good. */
  lemma ClosedListenerComesToRest(l: Listener)
    requires Inv(l) && l.closer.Returned?
    ensures forall a :: Enabled(l, a) ==> Rest(Next(l, a)) < Rest(l)
    ensures Rest(l) > 0 ==> exists a :: Enabled(l, a)
    ensures Rest(l) == 0 ==> l.clients == {} && l.upstreams == {} && l.sessions == {}
  {
    forall a | Enabled(l, a) ensures Rest(Next(l, a)) < Rest(l) {
      StepBringsEndNearer(l, a);
    }
    if Rest(l) > 0 {
      if l.pipes != map[] {
        var sid :| sid in l.pipes;
        assert Enabled(l, Run(sid, true));
      } else {
        assert l.serve.Got? || l.serve.Reject? || l.serve.Accepting?;
        assert Enabled(l, if l.serve.Got? then Register else if l.serve.Reject? then CloseRejected else AcceptFails);
      }
    } else {
      forall sid ensures sid !in l.pipes && sid !in l.clients && sid !in l.upstreams && sid !in l.sessions {
        if sid in l.pipes { PipesRestSplits(l.pipes, sid); }
        assert SessionOk(l, sid);
      }
    }
  }

  lemma StepBringsEndNearer(l: Listener, a: Action)
    requires Inv(l) && l.closer.Returned? && Enabled(l, a)
    ensures Rest(Next(l, a)) < Rest(l)
  {
    if a.Run? {
      PipesRestSplits(l.pipes, a.sid);
      var pipes := Next(l, a).pipes;
      if a.sid in pipes {
        PipesRestSplits(pipes, a.sid);
        assert pipes - {a.sid} == l.pipes - {a.sid};
      } else {
        assert pipes == l.pipes - {a.sid};
      }
    } else if a.Register? {
      assert SessionOk(l, l.serve.sid);
    }
  }
}
