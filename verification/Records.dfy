/** The inventory record of a sandbox and the small types every other module shares. */
module Records {

  datatype Option<+T> = None | Some(value: T)

  /** Sandbox and user ids are opaque keys; numbers stand for the hexadecimal strings. */
  type Id = nat
  type User = nat

  datatype State = Creating | Running | Terminating | Error

  /** The answer of a liveness query; Unknown when the query itself failed. */
  datatype Liveness = LiveUnknown | LiveYes | LiveNo

  /** A guest address: absent, or a dotted quad. */
  datatype Addr = NoAddr | V4(a: nat, b: nat, c: nat, d: nat)

  datatype Sandbox = Sandbox(
    id: Id,
    user: User,
    state: State,
    ip: Addr,
    device: Option<nat>,
    lastActivity: int
  )

  // All times are in milliseconds.
  const CREATE_TIMEOUT: int := 5 * 60 * 1000
  const RECONCILE_GRACE: int := 5 * 60 * 1000
  const CLEANUP_GRACE: int := 10 * 60 * 1000
  const ERROR_GC: int := 24 * 60 * 60 * 1000

  /** Holds resources, counts against quota. */
  predicate Active(state: State) {
    state == Running || state == Creating || state == Terminating
  }

  /** Still inside the window in which an unbooted or half-deleted VM is normal. */
  predicate InGrace(sb: Sandbox, now: int) {
    (sb.state == Creating || sb.state == Terminating) && now - sb.lastActivity < RECONCILE_GRACE
  }

  /** An active record outside its grace window whose VM is gone. */
  predicate StaleDead(sb: Sandbox, now: int, gone: bool) {
    Active(sb.state) && !InGrace(sb, now) && gone
  }

  function Min(a: nat, b: nat): nat { if a < b then a else b }
  function Max(a: nat, b: nat): nat { if a < b then b else a }
}
