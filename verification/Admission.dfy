/** Host-wide admission: a counter under a lock beside a scan that reads containers one by one while
    admitted VMs go on booting, dying and faulting in their memory. */
module Admission {
  import opened Records

  // ---- machine sizes ----

  const MAX_MEMORY_MIB: nat := 16 * 1024
  const MAX_VCPUS: nat := 4
  const MAX_DISK_MIB: nat := 50 * 1024
  const TWO64: nat := 0x1_0000_0000_0000_0000

  datatype Size = Small | Medium | Large | XLarge | Other
  datatype Resources = Resources(memoryMiB: nat, vCPUs: nat, diskMiB: nat)

  function Clamp(r: Resources): Resources {
    Resources(Min(r.memoryMiB, MAX_MEMORY_MIB), Min(r.vCPUs, MAX_VCPUS), Min(r.diskMiB, MAX_DISK_MIB))
  }

  function SizeMemory(size: Size): nat {
    match size
    case Small => 256
    case Large => 1024
    case XLarge => 2048
    case _ => 512
  }

  function MemoryFor(size: Size, r: Resources): nat {
    Max(SizeMemory(size), r.memoryMiB)
  }

  /** Unsigned 64-bit addition and subtraction of values that fit 64 bits. */
  function Add64(a: nat, b: nat): nat {
    if a + b < TWO64 then a + b else a + b - TWO64
  }

  function Sub64(a: nat, b: nat): nat {
    if b <= a then a - b else (a - b) % TWO64
  }

  // ---- the host ----

  datatype Config = Config(maxVMs: int, reserveMiB: nat, vmMiB: nat)

  /** Real allocation of a VM and the part of it the guest has touched so far. */
  datatype Memory = Memory(alloc: nat, faulted: nat)

  /** Who holds admissionMu, and how far its check has come. */
  datatype Check =
    | Idle
    | Scanning(id: Id, want: nat, todo: set<Id>, counted: set<Id>)
    | Measured(id: Id, want: nat, available: int)

  datatype Host = Host(
    running: set<Id>,
    pending: map<Id, nat>,        // admitted creates that have not released yet, with their budget
    pendingCreates: int,          // the two counters of the service
    pendingMiB: nat,
    check: Check,
    memory: map<Id, Memory>,      // every VM that was ever started
    drawn: map<Id, nat>,          // every id that ever asked, with the memory its VM will get
    late: set<Id>,                // VMs whose start was under way when a manager was replaced
    available: int                // MemAvailable, in MiB
  )

  datatype Action =
    | Ask(id: Id, size: Size, res: Resources, others: set<Id>) // takes the lock, lists containers
    | Look(id: Id)                // reads one container's status
    | Count                       // all read: compare with the maximum, read the host's memory
    | Decide                      // compare memory, admit or refuse, unlock
    | GiveUp                      // a read failed: refuse, unlock
    | Start(id: Id)
    | Fault(id: Id, n: nat)
    | Die(id: Id, freed: nat)
    | Freed(n: nat)               // anything else on the host gives memory back
    | ReleaseSlot(id: Id)         // the create is over; takes the lock for the update
    | Restart(starting: set<Id>)  // the manager process is replaced, in the middle of these starts
    | LateStart(id: Id)           // containerd finishes one of them

  function Budget(cfg: Config, want: nat): nat {
    Max(want, cfg.vmMiB)
  }

  function Required(cfg: Config, h: Host, want: nat): nat {
    Add64(Add64(cfg.reserveMiB, h.pendingMiB), Budget(cfg, want))
  }

  function Admit(cfg: Config, h: Host, id: Id, want: nat): Host {
    h.(check := Idle,
       pending := h.pending[id := Budget(cfg, want)],
       pendingCreates := h.pendingCreates + 1,
       pendingMiB := Add64(h.pendingMiB, Budget(cfg, want)))
  }

  predicate Enabled(h: Host, a: Action) {
    match a
    case Ask(id, _, _, _) => h.check.Idle? && id !in h.drawn
    case Look(id) => h.check.Scanning? && id in h.check.todo
    case Count => h.check.Scanning? && h.check.todo == {}
    case Decide => h.check.Measured?
    case GiveUp => !h.check.Idle?
    case Start(id) => id in h.pending && id !in h.memory && id in h.drawn
    case Fault(id, n) => id in h.running && id in h.memory && h.memory[id].faulted + n <= h.memory[id].alloc
    case Die(id, _) => id in h.running
    case Freed(_) => true
    case ReleaseSlot(id) => h.check.Idle? && id in h.pending
    case Restart(starting) => starting <= h.pending.Keys && starting !! h.memory.Keys
    case LateStart(id) => id in h.late && id !in h.memory && id in h.drawn
  }

  function Next(cfg: Config, h: Host, a: Action): Host
    requires Enabled(h, a)
  {
    match a
    case Ask(id, size, res, others) =>
      var want := MemoryFor(size, Clamp(res));
      h.(check := Scanning(id, want, h.running + others, {}), drawn := h.drawn[id := want])
    case Look(id) =>
      h.(check := h.check.(todo := h.check.todo - {id},
                           counted := if id in h.running then h.check.counted + {id} else h.check.counted))
    case Count =>
      if |h.check.counted| + h.pendingCreates >= cfg.maxVMs then h.(check := Idle)
      else h.(check := Measured(h.check.id, h.check.want, h.available))
    case Decide =>
      var Measured(id, want, available) := h.check;
      if available < Required(cfg, h, want) then h.(check := Idle) else Admit(cfg, h, id, want)
    case GiveUp => h.(check := Idle)
    case Start(id) =>
      h.(running := h.running + {id}, memory := h.memory[id := Memory(h.drawn[id], 0)])
    case Fault(id, n) =>
      h.(memory := h.memory[id := h.memory[id].(faulted := h.memory[id].faulted + n)],
         available := h.available - n)
    case Die(id, freed) => h.(running := h.running - {id}, available := h.available + freed)
    case Freed(n) => h.(available := h.available + n)
    case ReleaseSlot(id) =>
      h.(pending := h.pending - {id},
         pendingCreates := h.pendingCreates - 1,
         pendingMiB := Sub64(h.pendingMiB, h.pending[id]))
    case Restart(starting) =>
      h.(check := Idle, pending := map[], pendingCreates := 0, pendingMiB := 0, late := h.late + starting)
    case LateStart(id) =>
      h.(running := h.running + {id}, memory := h.memory[id := Memory(h.drawn[id], 0)])
  }

  predicate Runs(cfg: Config, h: Host, actions: seq<Action>)
    decreases |actions|
  {
    actions == [] || (Enabled(h, actions[0]) && Runs(cfg, Next(cfg, h, actions[0]), actions[1..]))
  }

  function After(cfg: Config, h: Host, actions: seq<Action>): Host
    requires Runs(cfg, h, actions)
    decreases |actions|
  {
    if actions == [] then h else After(cfg, Next(cfg, h, actions[0]), actions[1..])
  }

  function Booted(available: int): Host {
    Host({}, map[], 0, 0, Idle, map[], map[], {}, available)
  }
}
