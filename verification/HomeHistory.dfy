/** What becomes of a home image over any sequence of calls, each of which may fail in any of its tools
    or be cut short by a crash at any step boundary. */
module HomeHistory {
  import opened Records
  import opened HomeDisk

  datatype Call =
    | Ensure(mib: nat, tools: Tools)
    | Shrink(mib: nat, tools: Tools)
    | Use(data: nat)               // a VM runs and leaves files of this size behind, if they fit
    | Remove                       // the user's data is deleted

  /** A call, and the number of its steps that a crash lets it take; all of them if there are fewer. */
  datatype Event = Event(call: Call, stop: nat)

  function Steps(d: Disk, c: Call): seq<Disk> {
    match c
    case Ensure(mib, t) => EnsureSteps(d, mib, t)
    case Shrink(mib, t) => ShrinkSteps(d, mib, t)
    case Use(data) => if d.Present? && d.formatted then [d.(data := Min(data, d.fs))] else []
    case Remove => [Absent]
  }

  /** The steps taken. */
  function Taken(d: Disk, e: Event): nat {
    Min(e.stop, |Steps(d, e.call)|)
  }

  function Happens(d: Disk, e: Event): Disk {
    At(d, Steps(d, e.call)[..Taken(d, e)])
  }

  function Life(d: Disk, es: seq<Event>): Disk {
    if es == [] then d else Happens(Life(d, es[..|es| - 1]), es[|es| - 1])
  }

  // ---- files never lose their filesystem, nor the filesystem its file ----

  /** What resize2fs reports is true whenever it is asked. */
  ghost predicate Honest(d: Disk, es: seq<Event>) {
    forall i :: 0 <= i < |es| && es[i].call.Shrink? ==> Truthful(es[i].call.tools, Life(d, es[..i]))
  }

  lemma EventKeepsSound(d: Disk, e: Event)
    requires Sound(d) && (e.call.Shrink? ==> Truthful(e.call.tools, d))
    ensures Sound(Happens(d, e))
  {
    if e.call.Shrink? && d.Present? && DiskMiB(d) > e.call.mib { WholeMiBs(d.file, e.call.mib); }
  }

  lemma {:induction false} SoundForLife(d: Disk, es: seq<Event>)
    requires Sound(d) && Honest(d, es)
    ensures Sound(Life(d, es))
  {
    if es == [] {
    } else {
      var front := es[..|es| - 1];
      forall i | 0 <= i < |front| && front[i].call.Shrink?
        ensures Truthful(front[i].call.tools, Life(d, front[..i]))
      {
        assert front[..i] == es[..i];
      }
      SoundForLife(d, front);
      EventKeepsSound(Life(d, front), es[|es| - 1]);
    }
  }

  // ---- what begins at one event and lasts until another ----

  predicate FitsFile(d: Disk) {
    d.Present? && d.formatted ==> d.fs <= d.file
  }

  lemma EventKeepsFit(d: Disk, e: Event)
    requires FitsFile(d)
    ensures FitsFile(Happens(d, e))
  {
    if e.call.Shrink? && d.Present? && DiskMiB(d) > e.call.mib { WholeMiBs(d.file, e.call.mib); }
  }

  lemma {:induction false} FitsForLife(d: Disk, es: seq<Event>)
    requires FitsFile(d)
    ensures FitsFile(Life(d, es))
  {
    if es == [] {
    } else {
      FitsForLife(d, es[..|es| - 1]);
      EventKeepsFit(Life(d, es[..|es| - 1]), es[|es| - 1]);
    }
  }

  ghost predicate NeverFrom(d: Disk, es: seq<Event>, from: nat, ends: (Disk, Event) -> bool) {
    forall j :: from <= j < |es| ==> !ends(Life(d, es[..j]), es[j])
  }

  /** Some event begins it and none after that ends it. */
  ghost predicate BegunAndNotEnded(d: Disk, es: seq<Event>,
    begins: (Disk, Event) -> bool, ends: (Disk, Event) -> bool)
  {
    exists i :: 0 <= i < |es| && begins(Life(d, es[..i]), es[i]) && NeverFrom(d, es, i + 1, ends)
  }

  ghost predicate Governs(p: Disk -> bool, begins: (Disk, Event) -> bool, ends: (Disk, Event) -> bool) {
    forall d, e :: FitsFile(d) ==> (p(Happens(d, e)) <==> begins(d, e) || (p(d) && !ends(d, e)))
  }

  lemma NeverFromGrows(d: Disk, front: seq<Event>, e: Event, from: nat, ends: (Disk, Event) -> bool)
    ensures NeverFrom(d, front + [e], from, ends) <==>
      NeverFrom(d, front, from, ends) && (from <= |front| ==> !ends(Life(d, front), e))
  {
    var es := front + [e];
    assert es[..|front|] == front;
    forall j | 0 <= j < |front| ensures es[..j] == front[..j] && es[j] == front[j] {}
    if NeverFrom(d, es, from, ends) {
      forall j | from <= j < |front| ensures !ends(Life(d, front[..j]), front[j]) {
        assert !ends(Life(d, es[..j]), es[j]);
      }
      if from <= |front| { assert !ends(Life(d, es[..|front|]), es[|front|]); }
    }
  }

  lemma BegunGrows(d: Disk, front: seq<Event>, e: Event, begins: (Disk, Event) -> bool, ends: (Disk, Event) -> bool)
    ensures BegunAndNotEnded(d, front + [e], begins, ends) <==>
      begins(Life(d, front), e) || (BegunAndNotEnded(d, front, begins, ends) && !ends(Life(d, front), e))
  {
    var es := front + [e];
    assert es[..|front|] == front;
    forall i | 0 <= i < |front| ensures es[..i] == front[..i] && es[i] == front[i] {}
    if BegunAndNotEnded(d, es, begins, ends) {
      var i :| 0 <= i < |es| && begins(Life(d, es[..i]), es[i]) && NeverFrom(d, es, i + 1, ends);
      if i < |front| {
        NeverFromGrows(d, front, e, i + 1, ends);
        assert begins(Life(d, front[..i]), front[i]);
      }
    }
    if begins(Life(d, front), e) {
      assert begins(Life(d, es[..|front|]), es[|front|]) && NeverFrom(d, es, |front| + 1, ends);
    }
    if BegunAndNotEnded(d, front, begins, ends) && !ends(Life(d, front), e) {
      var i :| 0 <= i < |front| && begins(Life(d, front[..i]), front[i]) && NeverFrom(d, front, i + 1, ends);
      NeverFromGrows(d, front, e, i + 1, ends);
      assert begins(Life(d, es[..i]), es[i]);
    }
  }

  lemma {:induction false} HoldsSince(p: Disk -> bool, begins: (Disk, Event) -> bool, ends: (Disk, Event) -> bool,
    d: Disk, es: seq<Event>)
    requires Governs(p, begins, ends) && FitsFile(d)
    ensures p(Life(d, es)) <==> BegunAndNotEnded(d, es, begins, ends) || (p(d) && NeverFrom(d, es, 0, ends))
  {
    if es == [] {
    } else {
      var front, e := es[..|es| - 1], es[|es| - 1];
      assert es == front + [e];
      HoldsSince(p, begins, ends, d, front);
      FitsForLife(d, front);
      BegunGrows(d, front, e, begins, ends);
      NeverFromGrows(d, front, e, 0, ends);
    }
  }

  // ---- unformatted images ----

  predicate Unformatted(d: Disk) {
    d.Present? && !d.formatted
  }

  /** The creation of an image stops after the file exists and before it has been formatted or removed. */
  predicate StopsUnformatted(d: Disk, e: Event) {
    d.Absent? && e.call.Ensure? && 0 < Taken(d, e) < 3
  }

  predicate Removes(d: Disk, e: Event) {
    e.call.Remove? && e.stop > 0
  }

  lemma UnformattedBeginsAndEnds(d: Disk, e: Event)
    ensures Unformatted(Happens(d, e)) <==> StopsUnformatted(d, e) || (Unformatted(d) && !Removes(d, e))
  {}

  /** Over every history from the first call on, an image is there unformatted if and only if some
      creation stopped half-way and the user's data has not been deleted since: no later call, of any
      size and with any luck, heals it. */
  lemma UnformattedExactly(es: seq<Event>)
    ensures Unformatted(Life(Absent, es)) <==> BegunAndNotEnded(Absent, es, StopsUnformatted, Removes)
  {
    forall d, e ensures Unformatted(Happens(d, e)) <==> StopsUnformatted(d, e) || (Unformatted(d) && !Removes(d, e)) {
      UnformattedBeginsAndEnds(d, e);
    }
    HoldsSince(Unformatted, StopsUnformatted, Removes, Absent, es);
  }

  const LUCK: Tools := Tools(true, true, true, true, 0, true, true, true, true, true, true)

  /** Without a deletion, some sequence of calls makes an image formatted if and only if it is not a
      present unformatted one. */
  lemma OnlyRemovalHeals(d: Disk)
    requires FitsFile(d)
    ensures (exists es :: NeverFrom(d, es, 0, Removes) && Life(d, es).Present? && Life(d, es).formatted)
       <==> !Unformatted(d)
  {
    forall x, e ensures Unformatted(Happens(x, e)) <==> StopsUnformatted(x, e) || (Unformatted(x) && !Removes(x, e)) {
      UnformattedBeginsAndEnds(x, e);
    }
    forall es | NeverFrom(d, es, 0, Removes) && Unformatted(d) ensures Unformatted(Life(d, es)) {
      HoldsSince(Unformatted, StopsUnformatted, Removes, d, es);
    }
    if d.Absent? {
      var es := [Event(Ensure(0, LUCK), 3)];
      assert es[..0] == [] && Life(d, es[..0]) == d;
      assert Life(d, es) == Happens(d, es[0]) == Present(true, 0, 0, 0);
      assert NeverFrom(d, es, 0, Removes);
    } else if d.formatted {
      assert Life(d, []) == d && NeverFrom(d, [], 0, Removes);
    }
  }

  /** Every successful call hands an unformatted image out as it is; and after any call that got as far
      as truncate, successful or not, the next one of that size succeeds if it can look at all. */
  lemma UnformattedIsHandedOut(d: Disk, mib: nat, t: Tools, next: Tools)
    requires Unformatted(d)
    ensures EnsureOk(d, mib, t) <==> t.mkdirs && d.file >= mib * MIB
    ensures EnsureOk(d, mib, t) ==> Ensured(d, mib, t) == d
    ensures t.mkdirs && t.truncates ==>
      (EnsureOk(Ensured(d, mib, t), mib, next) <==> next.mkdirs) && Unformatted(Ensured(d, mib, t))
  {}

  // ---- filesystems smaller than their file ----

  predicate Small(d: Disk) {
    d.Present? && d.formatted && d.fs < d.file
  }

  /** A grow stops between truncate and resize2fs, or a shrink between resize2fs and truncate. */
  predicate StopsHalfSized(d: Disk, e: Event) {
    && d.Present? && d.formatted && Taken(d, e) == 1
    && (e.call.Shrink? || (e.call.Ensure? && d.file < e.call.mib * MIB))
  }

  /** A grow or a shrink goes through, or the user's data is deleted. */
  predicate SizesOrRemoves(d: Disk, e: Event) {
    Removes(d, e) || (d.Present? && d.formatted && (e.call.Shrink? || e.call.Ensure?) && Taken(d, e) == 2)
  }

  lemma SmallBeginsAndEnds(d: Disk, e: Event)
    requires FitsFile(d)
    ensures Small(Happens(d, e)) <==> StopsHalfSized(d, e) || (Small(d) && !SizesOrRemoves(d, e))
  {
    if e.call.Shrink? && d.Present? && DiskMiB(d) > e.call.mib { WholeMiBs(d.file, e.call.mib); }
  }

  /** Over every history from the first call on, a filesystem is smaller than its file if and only if
      some grow or shrink stopped half-way and none has gone through, and no deletion happened, since:
      a later call for the size the file already has does not complete it. */
  lemma SmallExactly(es: seq<Event>)
    ensures Small(Life(Absent, es)) <==> BegunAndNotEnded(Absent, es, StopsHalfSized, SizesOrRemoves)
  {
    forall d, e | FitsFile(d)
      ensures Small(Happens(d, e)) <==> StopsHalfSized(d, e) || (Small(d) && !SizesOrRemoves(d, e))
    {
      SmallBeginsAndEnds(d, e);
    }
    HoldsSince(Small, StopsHalfSized, SizesOrRemoves, Absent, es);
  }

  /** A successful call hands a formatted image out with a small filesystem exactly when it was so and
      the file already large enough. */
  lemma SmallIsHandedOut(d: Disk, mib: nat, t: Tools)
    requires FitsFile(d) && EnsureOk(d, mib, t)
    ensures Small(Ensured(d, mib, t)) <==> Small(d) && d.file >= mib * MIB
  {}

  /** Each of the half-way stops can happen, whenever the tools do their work. */
  lemma EveryStopPossible(d: Disk, mib: nat)
    ensures StopsUnformatted(Absent, Event(Ensure(mib, LUCK), 1))
    ensures StopsUnformatted(Absent, Event(Ensure(mib, LUCK), 2))
    ensures d.Present? && d.formatted && d.file < mib * MIB ==> StopsHalfSized(d, Event(Ensure(mib, LUCK), 1))
    ensures d.Present? && d.formatted && DiskMiB(d) > mib ==> StopsHalfSized(d, Event(Shrink(mib, LUCK), 1))
  {}
}
