/** The manager as a machine: any number of Create, Delete, Reconcile, SSH and sweep calls, cut at
    every Redis, containerd and relay call, beside VMs that die, boots that outlive the manager, a
    clock and a manager crash. */
module Lifecycle {
  import opened Records
  import opened StoreSpec

  /** Where a Create call stands. */
  datatype Stage =
    | Begin                    // deadline armed, record not built yet
    | Claim                    // about to reserve the user's slot
    | Retry                    // slot was held; a heal has been asked for
    | Prep                     // slot held; home disk and token come next
    | Boot                     // container exists, VM not started
    | Booted                   // VM started; about to commit
    | Undo                     // commit refused; about to tear its VM down
    | Fail                     // about to persist the error
    | Free(marked: bool)       // about to release the slot; marked: the error has been stored

  datatype Thread =
    | Create(sb: Sandbox, at: Stage)
    // Delete
    | DRead(id: Id)
    | DMark(sb: Sandbox)
    | DClose(id: Id)
    // one record of a Reconcile pass, or the slot holder in reconcileUserSlot
    | RRead(id: Id)
    | RCheck(sb: Sandbox)
    | RMark(sb: Sandbox)
    | RClose(id: Id)
    | RMissing(id: Id)
    | RRelease(id: Id)
    // finishTeardown, then the read and the script of the store's Delete
    | TVm(id: Id)
    | TRead(id: Id)
    | TErase(id: Id)
    // PrepareSSH, or one sandbox of reconcileSSH
    | SRead(id: Id)
    | SOpen(id: Id)
    | SPort(id: Id, port: int)
    | SRecheck(id: Id)
    | SClose(id: Id)
    // the listing and the Retain of reconcileSSH
    | Pass(keep: set<Id>)
    // AttachDevice
    | ARead(id: Id, device: nat)
    | AWrite(sb: Sandbox)      // the copy, device and time set, is about to be stored
    // CleanupStopped, one container
    | KCheck(id: Id)
    | KDelete(id: Id)

  datatype Birth = Birth(user: User, start: int)

  /** What went wrong so far, kept for the statements alone: no step looks at it. */
  datatype Marks = Marks(
    left: set<Id>,                // VMs left behind by a late-boot cleanup or a crash
    stranded: set<Id>,            // failed creates that freed the slot but could not persist the error
    unpersisted: set<Id>,         // dead sandboxes whose error state could not be persisted
    unsure: set<Id>,              // commits and delete marks that took effect but reported an error
    stale: set<Id>                // records an attach set back to an earlier state
  )

  datatype World = World(
    db: Db,
    vms: set<Id>,                 // VMs whose process is running
    boxes: map<Id, int>,          // containers, with their creation time
    listeners: set<Id>,           // sandboxes with an open relay listener
    threads: map<nat, Thread>,
    now: int,
    born: map<Id, Birth>,         // every id ever drawn, its user and the start of its Create
    reserved: set<Id>,            // ids whose reservation succeeded
    booted: map<Id, Addr>,        // ids whose VM has started for its Create, and the address it got
    flights: map<Id, nat>,        // ids whose Create call is still in flight, and its thread
    starting: set<Id>,            // VM starts that were under way when the manager crashed
    marks: Marks
  )

  /** What the outside world answers to one step. `lands`: a Redis write took effect although its
      reply was an error. */
  datatype Answer = Answer(ok: bool, lands: bool, alt: bool, ip: Addr, port: int, pick: Id)

  /** A write took effect, whatever was reported. */
  predicate Took(ans: Answer) {
    ans.ok || ans.lands
  }

  datatype Action =
    | Tick(elapsed: nat)
    | Dies(id: Id)
    | LateBoot(id: Id)           // containerd finishes a start the crashed manager had asked for
    | Crash
    | NewCreate(t: nat, id: Id, user: User)
    | NewDelete(t: nat, id: Id)
    | NewReap(t: nat, id: Id)
    | NewSsh(t: nat, id: Id)
    | NewPass(t: nat)
    | NewAttach(t: nat, id: Id, device: nat)
    | NewSweep(t: nat, id: Id)
    | Go(t: nat, ans: Answer)

  const INITIAL: World := World(EMPTY, {}, map[], {}, map[], 0, map[], {}, map[], map[], {}, Marks({}, {}, {}, {}, {}))

  function Deadline(w: World, id: Id): int
    requires id in w.born
  {
    w.born[id].start + CREATE_TIMEOUT
  }

  function To(w: World, t: nat, th: Thread): World {
    w.(threads := w.threads[t := th])
  }

  function End(w: World, t: nat): World {
    w.(threads := w.threads - {t})
  }

  /** A Create call returns. */
  function Land(w: World, t: nat, id: Id): World {
    w.(threads := w.threads - {t}, flights := w.flights - {id})
  }

  /** The reservation, and the thread's place after it. */
  function Reserving(w: World, t: nat, sb: Sandbox, ans: Answer): World {
    var taken := w.(db := Reserve(w.db, sb), reserved := w.reserved + {sb.id});
    if ans.ok then To(taken, t, Create(sb, Prep))
    else if ans.lands then Land(taken, t, sb.id)
    else Land(w, t, sb.id)
  }

  function Committing(w: World, t: nat, sb: Sandbox, ans: Answer): World {
    var running := PutRunning(w.db, sb.(state := Running, lastActivity := w.now));
    if ans.ok then Land(w.(db := running), t, sb.id)
    else if ans.lands then
      To(w.(db := running, marks := w.marks.(unsure := w.marks.unsure + {sb.id})), t, Create(sb, Undo))
    else To(w, t, Create(sb, Undo))
  }

  function StepCreate(w: World, t: nat, sb: Sandbox, at: Stage, ans: Answer): World {
    var id := sb.id;
    match at
    case Begin =>
      To(w, t, Create(sb.(lastActivity := w.now), Claim))
    case Claim =>
      if sb.user !in w.db.slots then Reserving(w, t, sb, ans)
      else if ans.ok then To(w, t, Create(sb, Retry))
      else Land(w, t, id)
    case Retry =>
      if sb.user !in w.db.slots then Reserving(w, t, sb, ans) else Land(w, t, id)
    case Prep =>
      if ans.ok then To(w.(boxes := w.boxes[id := w.now]), t, Create(sb, Boot))
      else To(w, t, Create(sb, Fail))
    case Boot =>
      if ans.ok then
        To(w.(vms := w.vms + {id}, booted := w.booted[id := ans.ip]), t, Create(sb.(ip := ans.ip), Booted))
      else To(w, t, Create(sb, Fail))
    case Booted =>
      if ans.alt then // vm.Create failed after all; its rollback killed the VM
        To(w.(vms := w.vms - {id}), t, Create(sb, Fail))
      else if id in w.born && w.now < Deadline(w, id) && MayCommit(w.db, sb) then Committing(w, t, sb, ans)
      else To(w, t, Create(sb, Undo))
    case Undo =>
      if ans.ok then To(w.(vms := w.vms - {id}, flights := w.flights - {id}), t, TRead(id))
      else
        var vms := if ans.alt then w.vms - {id} else w.vms;
        Land(w.(vms := vms, marks := if id in vms then w.marks.(left := w.marks.left + {id}) else w.marks), t, id)
    case Fail =>
      if Took(ans) then To(w.(db := Put(w.db, sb.(state := Error))), t, Create(sb, Free(true)))
      else To(w, t, Create(sb, Free(false)))
    case Free(marked) =>
      if Took(ans) then
        Land(w.(db := Release(w.db, sb.user, id),
                marks := if marked then w.marks else w.marks.(stranded := w.marks.stranded + {id})), t, id)
      else Land(w, t, id)
  }

  function StepDelete(w: World, t: nat, th: Thread, ans: Answer): World
    requires th.DRead? || th.DMark? || th.DClose?
  {
    match th
    case DRead(id) =>
      if ans.ok && id in w.db.records
      then To(w, t, DMark(w.db.records[id].(state := Terminating, lastActivity := w.now)))
      else End(w, t)
    case DMark(sb) =>
      if ans.ok then To(w.(db := Put(w.db, sb)), t, DClose(sb.id))
      else if ans.lands then End(w.(db := Put(w.db, sb), marks := w.marks.(unsure := w.marks.unsure + {sb.id})), t)
      else End(w, t)
    case DClose(id) =>
      To(w.(listeners := w.listeners - {id}), t, TVm(id))
  }

  function StepReap(w: World, t: nat, th: Thread, ans: Answer): World
    requires th.RRead? || th.RCheck? || th.RMark? || th.RClose? || th.RMissing? || th.RRelease?
  {
    match th
    case RRead(id) =>
      if !ans.ok then End(w, t)
      else if id in w.db.records then To(w, t, RCheck(w.db.records[id]))
      else To(w, t, RMissing(id))
    case RCheck(sb) =>
      if sb.state == Error then
        if !ans.ok then End(w, t)
        else if HoldsSlot(w.db, sb.user, sb.id) then To(w, t, DRead(sb.id))
        else if w.now - sb.lastActivity > ERROR_GC then To(w, t, TRead(sb.id))
        else End(w, t)
      else if StaleDead(sb, w.now, ans.ok && sb.id !in w.vms) then To(w, t, RMark(sb))
      else End(w, t)
    case RMark(sb) =>
      var dead := sb.(state := Error, lastActivity := w.now);
      if Took(ans) then To(w.(db := Put(w.db, dead)), t, RClose(sb.id))
      else To(w.(marks := w.marks.(unpersisted := w.marks.unpersisted + {sb.id})), t, RClose(sb.id))
    case RClose(id) =>
      To(w.(listeners := w.listeners - {id}), t, TVm(id))
    case RMissing(id) =>
      if ans.ok && id !in w.vms then To(w.(boxes := w.boxes - {id}), t, RRelease(id)) else End(w, t)
    case RRelease(id) =>
      if Took(ans) && id in w.born
      then End(w.(db := Release(w.db, w.born[id].user, id)), t)
      else End(w, t)
  }

  /** `ok`: vm.Delete succeeded, or failed with the VM definitely not live. */
  function StepTeardown(w: World, t: nat, th: Thread, ans: Answer): World
    requires th.TVm? || th.TRead? || th.TErase?
  {
    match th
    case TVm(id) =>
      if ans.ok then To(w.(vms := w.vms - {id}, boxes := w.boxes - {id}), t, TRead(id))
      else if ans.alt then End(w.(vms := w.vms - {id}), t)
      else End(w, t)
    case TRead(id) =>
      if ans.ok && id in w.db.records then To(w, t, TErase(id)) else End(w, t)
    case TErase(id) =>
      if Took(ans) && id in w.born
      then End(w.(db := Erase(w.db, w.born[id].user, id)), t)
      else End(w, t)
  }

  function StepSsh(w: World, t: nat, th: Thread, ans: Answer): World
    requires th.SRead? || th.SOpen? || th.SPort? || th.SRecheck? || th.SClose? || th.Pass?
  {
    match th
    case SRead(id) =>
      if ans.ok && StateIs(w.db, id, Running) then To(w, t, SOpen(id)) else End(w, t)
    case SOpen(id) =>
      if ans.ok then To(w.(listeners := w.listeners + {id}), t, SPort(id, ans.port))
      else if ans.alt then End(w.(listeners := w.listeners - {id}), t) // moved target, no port left
      else End(w, t)
    case SPort(id, port) =>
      if ans.alt then To(w, t, SRecheck(id)) // already the remembered port
      else if ans.ok then To(w.(db := SetPort(w.db, id, port)), t, SRecheck(id))
      else if ans.lands then To(w.(db := SetPort(w.db, id, port)), t, SClose(id))
      else To(w, t, SClose(id))
    case SRecheck(id) =>
      if ans.ok && StateIs(w.db, id, Running) then End(w, t) else To(w, t, SClose(id))
    case SClose(id) =>
      End(w.(listeners := w.listeners - {id}), t)
    case Pass(keep) =>
      if ans.alt then
        if StateIs(w.db, ans.pick, Running) then To(w, t, Pass(keep + {ans.pick})) else w
      else End(w.(listeners := w.listeners * keep), t)
  }

  /** The Put of an attach does not look at what is stored by now. */
  function StepAttach(w: World, t: nat, th: Thread, ans: Answer): World
    requires th.ARead? || th.AWrite?
  {
    match th
    case ARead(id, device) =>
      if ans.ok && id in w.db.records
      then To(w, t, AWrite(w.db.records[id].(device := Some(device), lastActivity := w.now)))
      else End(w, t)
    case AWrite(sb) =>
      if Took(ans) then
        End(w.(db := Put(w.db, sb),
               marks := if Behind(w.db, sb) then w.marks.(stale := w.marks.stale + {sb.id}) else w.marks), t)
      else End(w, t)
  }

  function StepSweep(w: World, t: nat, th: Thread, ans: Answer): World
    requires th.KCheck? || th.KDelete?
  {
    match th
    case KCheck(id) =>
      if ans.ok && id in w.boxes && w.now - w.boxes[id] >= CLEANUP_GRACE && id !in w.vms
      then To(w, t, KDelete(id))
      else End(w, t)
    case KDelete(id) =>
      End(w.(vms := w.vms - {id}, boxes := w.boxes - {id}), t)
  }

  function Step(w: World, t: nat, ans: Answer): World
    requires t in w.threads
  {
    var th := w.threads[t];
    match th
    case Create(sb, at) => StepCreate(w, t, sb, at, ans)
    case DRead(_) | DMark(_) | DClose(_) => StepDelete(w, t, th, ans)
    case RRead(_) | RCheck(_) | RMark(_) | RClose(_) | RMissing(_) | RRelease(_) => StepReap(w, t, th, ans)
    case TVm(_) | TRead(_) | TErase(_) => StepTeardown(w, t, th, ans)
    case SRead(_) | SOpen(_) | SPort(_, _) | SRecheck(_) | SClose(_) | Pass(_) => StepSsh(w, t, th, ans)
    case ARead(_, _) | AWrite(_) => StepAttach(w, t, th, ans)
    case KCheck(_) | KDelete(_) => StepSweep(w, t, th, ans)
  }

  predicate Enabled(w: World, a: Action) {
    match a
    case NewCreate(t, id, _) => t !in w.threads && id !in w.born
    case NewReap(t, id) => t !in w.threads && id in w.reserved // read from an index or a slot
    case NewDelete(t, _) => t !in w.threads
    case NewSsh(t, _) => t !in w.threads
    case NewPass(t) => t !in w.threads
    case NewAttach(t, _, _) => t !in w.threads
    case NewSweep(t, _) => t !in w.threads
    case LateBoot(id) => id in w.starting
    case Go(t, _) => t in w.threads
    case _ => true
  }

  function SlotlessVms(w: World): set<Id> {
    set id | id in w.vms && !(id in w.born && HoldsSlot(w.db, w.born[id].user, id))
  }

  /** The VMs whose start a Create call is waiting for. */
  function Starting(w: World): set<Id> {
    set t | t in w.threads && w.threads[t].Create? && w.threads[t].at == Boot :: w.threads[t].sb.id
  }

  function Next(w: World, a: Action): World
    requires Enabled(w, a)
  {
    match a
    case Tick(elapsed) => w.(now := w.now + elapsed)
    case Dies(id) => w.(vms := w.vms - {id})
    case LateBoot(id) =>
      w.(vms := w.vms + {id}, starting := w.starting - {id}, marks := w.marks.(left := w.marks.left + {id}))
    case Crash =>
      w.(threads := map[], flights := map[], listeners := {},
         starting := w.starting + Starting(w), marks := w.marks.(left := w.marks.left + SlotlessVms(w)))
    case NewCreate(t, id, user) =>
      To(w.(born := w.born[id := Birth(user, w.now)], flights := w.flights[id := t]), t,
         Create(Sandbox(id, user, Creating, NoAddr, None, w.now), Begin))
    case NewDelete(t, id) => To(w, t, DRead(id))
    case NewReap(t, id) => To(w, t, RRead(id))
    case NewSsh(t, id) => To(w, t, SRead(id))
    case NewPass(t) => To(w, t, Pass({}))
    case NewAttach(t, id, device) => To(w, t, ARead(id, device))
    case NewSweep(t, id) => To(w, t, KCheck(id))
    case Go(t, ans) => Step(w, t, ans)
  }

  /** A run: every action was enabled where it happened. */
  predicate Runs(w: World, actions: seq<Action>)
    decreases |actions|
  {
    actions == [] || (Enabled(w, actions[0]) && Runs(Next(w, actions[0]), actions[1..]))
  }

  function After(w: World, actions: seq<Action>): World
    requires Runs(w, actions)
    decreases |actions|
  {
    if actions == [] then w else After(Next(w, actions[0]), actions[1..])
  }
}
