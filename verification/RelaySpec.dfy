/** Which port a listener gets: the relay's table as a value. */
module RelaySpec {
  import opened Records

  datatype Listener = Listener(port: int, target: Addr)

  /** The public port range. */
  datatype Range = Range(start: int, end: int)

  datatype Outcome = Opened(port: int) | Refused | Exhausted

  type Table = map<Id, Listener>

  /** Private or loopback IPv4 only. */
  predicate Dialable(ip: Addr) {
    && ip.V4? && ip.a < 256 && ip.b < 256 && ip.c < 256 && ip.d < 256
    && (ip.a == 10 || ip.a == 127 || (ip.a == 172 && 16 <= ip.b < 32) || (ip.a == 192 && ip.b == 168))
  }

  predicate InRange(r: Range, p: int) {
    r.start <= p <= r.end
  }

  function Used(t: Table): set<int> {
    set id | id in t :: t[id].port
  }

  /** Free in the table, and not held by another process. */
  predicate Free(t: Table, bindable: int -> bool, p: int) {
    p !in Used(t) && bindable(p)
  }

  /** The least free port at or above p. */
  function LeastFrom(r: Range, t: Table, bindable: int -> bool, p: int): Option<int>
    decreases r.end - p
  {
    if p > r.end then None
    else if Free(t, bindable, p) then Some(p)
    else LeastFrom(r, t, bindable, p + 1)
  }

  function Pick(r: Range, t: Table, bindable: int -> bool, preferred: int): Option<int> {
    if InRange(r, preferred) && Free(t, bindable, preferred) then Some(preferred)
    else LeastFrom(r, t, bindable, r.start)
  }

  predicate Reusable(t: Table, id: Id, ip: Addr) {
    id in t && t[id].target == ip
  }

  function EnsureOutcome(r: Range, t: Table, id: Id, ip: Addr, preferred: int, bindable: int -> bool): Outcome {
    if !Dialable(ip) then Refused
    else if Reusable(t, id, ip) then Opened(t[id].port)
    else match Pick(r, t - {id}, bindable, preferred)
      case Some(p) => Opened(p)
      case None => Exhausted
  }

  function EnsureTable(r: Range, t: Table, id: Id, ip: Addr, preferred: int, bindable: int -> bool): Table {
    if !Dialable(ip) || Reusable(t, id, ip) then t
    else match Pick(r, t - {id}, bindable, preferred)
      case Some(p) => (t - {id})[id := Listener(p, ip)]
      case None => t - {id}
  }

  function RetainTable(t: Table, keep: map<Id, Addr>): Table {
    map id | id in t && id in keep && t[id].target == keep[id] :: t[id]
  }

  ghost predicate Legal(r: Range, t: Table) {
    && (forall id :: id in t ==> InRange(r, t[id].port) && Dialable(t[id].target))
    && (forall a, b :: a in t && b in t && t[a].port == t[b].port ==> a == b)
  }

  // ---- the conditions, in numbers ----

  function AsNumber(a: nat, b: nat, c: nat, d: nat): nat {
    ((a * 256 + b) * 256 + c) * 256 + d
  }

  /** The private and loopback blocks as ranges of 32-bit numbers: 10.0.0.0/8, 127.0.0.0/8,
      172.16.0.0/12 and 192.168.0.0/16. */
  lemma DialableExactly(a: nat, b: nat, c: nat, d: nat)
    requires a < 256 && b < 256 && c < 256 && d < 256
    ensures var n := AsNumber(a, b, c, d);
      Dialable(V4(a, b, c, d)) <==>
        0x0A00_0000 <= n <= 0x0AFF_FFFF || 0x7F00_0000 <= n <= 0x7FFF_FFFF
        || 0xAC10_0000 <= n <= 0xAC1F_FFFF || 0xC0A8_0000 <= n <= 0xC0A8_FFFF
  {}

  lemma FreeExactly(t: Table, bindable: int -> bool, p: int)
    ensures Free(t, bindable, p) <==> bindable(p) && forall id :: id in t ==> t[id].port != p
  {
    forall id | id in t ensures t[id].port in Used(t) {}
  }

  /** A listener survives Retain, unchanged, exactly if its sandbox is kept at the same target; so a
      table all of whose entries are kept is returned as it is. */
  lemma RetainKeepsExactly(t: Table, keep: map<Id, Addr>)
    ensures forall id :: id in RetainTable(t, keep) <==> id in t && id in keep && t[id].target == keep[id]
    ensures forall id :: id in RetainTable(t, keep) ==> RetainTable(t, keep)[id] == t[id]
    ensures (forall id :: id in t ==> id in keep && t[id].target == keep[id]) ==> RetainTable(t, keep) == t
  {}

  // ---- the choice ----

  lemma {:induction false} LeastFromIsLeast(r: Range, t: Table, bindable: int -> bool, p: int)
    ensures match LeastFrom(r, t, bindable, p)
      case Some(q) => p <= q <= r.end && Free(t, bindable, q) && forall x :: p <= x < q ==> !Free(t, bindable, x)
      case None => forall x :: p <= x <= r.end ==> !Free(t, bindable, x)
    decreases r.end - p
  {
    if p > r.end || Free(t, bindable, p) {
    } else {
      LeastFromIsLeast(r, t, bindable, p + 1);
    }
  }

  /** The preferred port if it is in range and free, else the least free port of the range; and
      none exactly when no port of the range is free. */
  lemma PickIsBest(r: Range, t: Table, bindable: int -> bool, preferred: int)
    ensures match Pick(r, t, bindable, preferred)
      case Some(p) =>
        && r.start <= p <= r.end && Free(t, bindable, p)
        && (r.start <= preferred <= r.end && Free(t, bindable, preferred) ==> p == preferred)
        && (p != preferred ==> forall x :: r.start <= x < p ==> !Free(t, bindable, x))
      case None => forall x :: r.start <= x <= r.end ==> !Free(t, bindable, x)
  {
    LeastFromIsLeast(r, t, bindable, r.start);
  }

  /** Ensure's whole promise: it refuses a target that is not a private address, keeps a listener
      whose target is unchanged, otherwise opens the best free port, and fails exactly when the
      range has none; no other sandbox's listener is touched. */
  lemma EnsureMeetsPromise(r: Range, t: Table, id: Id, ip: Addr, preferred: int, bindable: int -> bool)
    requires Legal(r, t)
    ensures Legal(r, EnsureTable(r, t, id, ip, preferred, bindable))
    ensures EnsureTable(r, t, id, ip, preferred, bindable) - {id} == t - {id}
    ensures var t' := EnsureTable(r, t, id, ip, preferred, bindable);
      match EnsureOutcome(r, t, id, ip, preferred, bindable)
      case Refused => !Dialable(ip) && t' == t
      case Opened(p) =>
        && id in t' && t'[id] == Listener(p, ip)
        && var same := id in t && t[id].target == ip;
           if same then t' == t
           else
             && (r.start <= preferred <= r.end && Free(t - {id}, bindable, preferred) ==> p == preferred)
             && (p != preferred ==> forall x :: r.start <= x < p ==> !Free(t - {id}, bindable, x))
      case Exhausted =>
        Dialable(ip) && id !in t' && forall x :: r.start <= x <= r.end ==> !Free(t - {id}, bindable, x)
  {
    var others := t - {id};
    PickIsBest(r, others, bindable, preferred);
    forall x | x in others ensures others[x].port in Used(others) {}
  }

  // ---- every run ----

  datatype Op =
    | OpEnsure(id: Id, ip: Addr, preferred: int, bindable: int -> bool)
    | OpClose(id: Id)
    | OpRetain(keep: map<Id, Addr>)

  function Do(r: Range, t: Table, op: Op): Table {
    match op
    case OpEnsure(id, ip, preferred, bindable) => EnsureTable(r, t, id, ip, preferred, bindable)
    case OpClose(id) => t - {id}
    case OpRetain(keep) => RetainTable(t, keep)
  }

  function DoAll(r: Range, t: Table, ops: seq<Op>): Table {
    if ops == [] then t else Do(r, DoAll(r, t, ops[..|ops| - 1]), ops[|ops| - 1])
  }

  /** After any run all ports are distinct and in range, whatever other processes hold when. */
  lemma {:induction false} EveryRunLegal(r: Range, ops: seq<Op>)
    ensures Legal(r, DoAll(r, map[], ops))
  {
    if ops == [] {
    } else {
      EveryRunLegal(r, ops[..|ops| - 1]);
      var t := DoAll(r, map[], ops[..|ops| - 1]);
      match ops[|ops| - 1]
      case OpEnsure(id, ip, preferred, bindable) => EnsureMeetsPromise(r, t, id, ip, preferred, bindable);
      case _ =>
    }
  }
}
