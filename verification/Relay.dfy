/** The relay object. Its lock makes each method one step, so each is a sequential method. */
module Relays {
  import opened Records
  import opened RelaySpec

  class Relay {
    const range: Range
    var byID: Table

    ghost predicate Valid()
      reads this
    {
      Legal(range, byID)
    }

    constructor (range: Range)
      ensures Valid() && byID == map[] && this.range == range
    {
      this.range := range;
      byID := map[];
    }

    /** The preferred port first, if it is in range, then every port of the range in order. */
    method Candidates(preferred: int) returns (ports: seq<int>)
      ensures |ports| == Head(preferred) + Span()
      ensures Head(preferred) == 1 ==> ports[0] == preferred
      ensures forall k :: Head(preferred) <= k < |ports| ==> ports[k] == range.start + (k - Head(preferred))
    {
      ports := [];
      if InRange(range, preferred) {
        ports := [preferred];
      }
      var p := range.start;
      while p <= range.end
        invariant p == range.start + (|ports| - Head(preferred))
        invariant Head(preferred) <= |ports| <= Head(preferred) + Span()
        invariant Head(preferred) == 1 ==> ports[0] == preferred
        invariant forall k :: Head(preferred) <= k < |ports| ==> ports[k] == range.start + (k - Head(preferred))
        decreases range.end - p
      {
        ports := ports + [p];
        p := p + 1;
      }
    }

    function Head(preferred: int): nat {
      if InRange(range, preferred) then 1 else 0
    }

    function Span(): nat {
      if range.start <= range.end then range.end - range.start + 1 else 0
    }

    /** The first candidate that no listener uses and that can be bound. */
    method FirstFree(preferred: int, ports: seq<int>, bindable: int -> bool) returns (port: Option<int>)
      requires |ports| == Head(preferred) + Span()
      requires Head(preferred) == 1 ==> ports[0] == preferred
      requires forall k :: Head(preferred) <= k < |ports| ==> ports[k] == range.start + (k - Head(preferred))
      ensures port == Pick(range, byID, bindable, preferred)
    {
      var used := set x | x in byID :: byID[x].port;
      var k := 0;
      while k < |ports|
        invariant 0 <= k <= |ports|
        invariant k > 0 && Head(preferred) == 1 ==> !Free(byID, bindable, preferred)
        invariant k >= Head(preferred) ==>
          LeastFrom(range, byID, bindable, range.start)
            == LeastFrom(range, byID, bindable, range.start + (k - Head(preferred)))
      {
        if ports[k] !in used && bindable(ports[k]) {
          assert Free(byID, bindable, ports[k]);
          return Some(ports[k]);
        }
        assert !Free(byID, bindable, ports[k]);
        k := k + 1;
      }
      return None;
    }

    /** `bindable` says which ports the operating system would let this process listen on. */
    method Ensure(id: Id, ip: Addr, preferred: int, bindable: int -> bool) returns (out: Outcome)
      requires Valid()
      modifies this
      ensures Valid()
      ensures out == EnsureOutcome(range, old(byID), id, ip, preferred, bindable)
      ensures byID == EnsureTable(range, old(byID), id, ip, preferred, bindable)
    {
      EnsureMeetsPromise(range, byID, id, ip, preferred, bindable);
      if !Dialable(ip) {
        return Refused;
      }
      if id in byID {
        if byID[id].target == ip {
          return Opened(byID[id].port);
        }
        byID := byID - {id};
      }
      assert byID == old(byID) - {id};
      var ports := Candidates(preferred);
      var port := FirstFree(preferred, ports, bindable);
      if port.None? {
        return Exhausted;
      }
      byID := byID[id := Listener(port.value, ip)];
      return Opened(port.value);
    }

    method Close(id: Id)
      requires Valid()
      modifies this
      ensures Valid() && byID == old(byID) - {id}
    {
      byID := byID - {id};
    }

    /** Drops every listener whose sandbox is not in `keep` or has moved. */
    method Retain(keep: map<Id, Addr>)
      requires Valid()
      modifies this
      ensures Valid() && byID == RetainTable(old(byID), keep)
    {
      var todo := byID.Keys;
      while todo != {}
        invariant todo <= old(byID).Keys && todo <= byID.Keys <= old(byID).Keys
        invariant forall id :: id in byID ==> byID[id] == old(byID)[id]
        invariant forall id :: id in old(byID) && id !in todo ==>
          (id in byID <==> id in keep && old(byID)[id].target == keep[id])
        decreases |todo|
      {
        var id :| id in todo;
        todo := todo - {id};
        if id !in keep || byID[id].target != keep[id] {
          byID := byID - {id};
        }
      }
    }
  }
}
