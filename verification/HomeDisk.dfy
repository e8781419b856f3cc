/** A user's home image: a sparse file and the filesystem inside it, changed step by step by foreign
    tools any of which may fail. `trace` holds the image at every step boundary, which is every
    state a crash can leave behind. */
module HomeDisk {
  import opened Records

  const MIB: nat := 1024 * 1024

  /** Sizes in bytes. `data` is what the files in the filesystem need. */
  datatype Disk = Absent | Present(formatted: bool, file: nat, fs: nat, data: nat)

  /** The filesystem fits its file and the files fit their filesystem. */
  predicate Sound(d: Disk) {
    d.Present? && d.formatted ==> d.data <= d.fs <= d.file
  }

  /** What truncate, e2fsck, resize2fs, dumpe2fs and mkfs answer this time. `minimum` is the size
      resize2fs reports as the least possible, so never below what the files need. */
  datatype Tools = Tools(
    truncates: bool, checks: bool, grows: bool,
    reports: bool, minimum: nat, shrinks: bool, cuts: bool,
    mkdirs: bool, creates: bool, formats: bool, removes: bool
  )

  predicate Truthful(t: Tools, d: Disk) {
    d.Present? && d.formatted ==> d.data <= t.minimum
  }

  /** 1.2 times the minimum still fits. */
  predicate Headroom(minimum: nat, size: nat) {
    6 * minimum <= 5 * size
  }

  ghost predicate AllSound(trace: seq<Disk>) {
    forall i :: 0 <= i < |trace| ==> Sound(trace[i])
  }

  function DiskMiB(d: Disk): nat {
    if d.Absent? then 0 else d.file / MIB
  }

  /** ShrinkDisk does more than look. */
  predicate ShrinkGoesThrough(t: Tools, d: Disk, mib: nat) {
    && DiskMiB(d) > mib && d.Present? && d.formatted
    && t.checks && t.reports && Headroom(t.minimum, mib * MIB) && t.shrinks && t.cuts
  }

  // ---- the boundaries a call passes through, in order ----

  function GrowSteps(d: Disk, size: nat, t: Tools): seq<Disk>
    requires d.Present?
  {
    if !t.truncates then []
    else [d.(file := size)] + if t.checks && d.formatted && t.grows then [d.(file := size, fs := size)] else []
  }

  function EnsureSteps(d: Disk, mib: nat, t: Tools): seq<Disk> {
    if !t.mkdirs then []
    else if d.Present? then (if d.file < mib * MIB then GrowSteps(d, mib * MIB, t) else [])
    else if !t.creates then []
    else [Present(false, 0, 0, 0)] + if t.truncates then FormatSteps(mib, t) else []
  }

  function FormatSteps(mib: nat, t: Tools): seq<Disk> {
    [Present(false, mib * MIB, 0, 0)]
    + if t.formats then [Present(true, mib * MIB, mib * MIB, 0)] else if t.removes then [Absent] else []
  }

  function CutSteps(d: Disk, size: nat, t: Tools): seq<Disk>
    requires d.Present?
  {
    if !d.formatted || !t.checks || !t.reports || !Headroom(t.minimum, size) || !t.shrinks then []
    else [d.(fs := size)] + if t.cuts then [d.(file := size, fs := size)] else []
  }

  function ShrinkSteps(d: Disk, mib: nat, t: Tools): seq<Disk> {
    if DiskMiB(d) <= mib then [] else CutSteps(d, mib * MIB, t)
  }

  predicate EnsureOk(d: Disk, mib: nat, t: Tools) {
    && t.mkdirs
    && (d.Present? ==> d.file >= mib * MIB || (t.truncates && t.checks && d.formatted && t.grows))
    && (d.Absent? ==> t.creates && t.truncates && t.formats)
  }

  /** The image after these steps. */
  function At(d: Disk, steps: seq<Disk>): Disk {
    if steps == [] then d else steps[|steps| - 1]
  }

  function Ensured(d: Disk, mib: nat, t: Tools): Disk {
    At(d, EnsureSteps(d, mib, t))
  }

  class HomeImage {
    var disk: Disk
    ghost var trace: seq<Disk>

    constructor (disk: Disk)
      ensures this.disk == disk && trace == [disk]
    {
      this.disk := disk;
      trace := [disk];
    }

    method Change(d: Disk)
      modifies this
      ensures disk == d && trace == old(trace) + [d]
    {
      disk := d;
      trace := trace + [d];
    }

    /** Extends the file, then the filesystem in it. */
    method GrowDisk(size: nat, t: Tools) returns (ok: bool)
      requires disk.Present? && disk.file < size
      requires Sound(disk) && AllSound(trace)
      modifies this
      ensures Sound(disk) && AllSound(trace) && old(trace) <= trace
      ensures disk.Present? && disk.formatted == old(disk.formatted) && disk.data == old(disk.data)
      ensures ok ==> disk.formatted && disk.file == size && disk.fs == size
      ensures !ok ==> disk.fs == old(disk.fs) && (disk.file == size || disk.file == old(disk.file))
      ensures trace == old(trace) + GrowSteps(old(disk), size, t)
      ensures disk == At(old(disk), GrowSteps(old(disk), size, t))
      ensures ok == (t.truncates && t.checks && old(disk).formatted && t.grows)
    {
      if !t.truncates {
        return false;
      }
      Change(disk.(file := size));
      if !t.checks || !disk.formatted {
        return false;
      }
      if !t.grows {
        return false;
      }
      Change(disk.(fs := disk.file));
      return true;
    }

    /** Shrinks the filesystem, then the file, if the files fit with headroom. */
    method ShrinkImage(size: nat, t: Tools) returns (ok: bool)
      requires disk.Present? && size < disk.file && size % 1024 == 0
      requires Sound(disk) && AllSound(trace) && Truthful(t, disk)
      modifies this
      ensures Sound(disk) && AllSound(trace) && old(trace) <= trace
      ensures disk.Present? && disk.formatted == old(disk.formatted) && disk.data == old(disk.data)
      ensures disk.file == old(disk.file) || disk.file == size
      ensures disk != old(disk) ==> disk.fs == size && 5 * disk.fs >= 6 * t.minimum
      ensures disk.file == size <==>
        old(disk.formatted) && t.checks && t.reports && Headroom(t.minimum, size) && t.shrinks && t.cuts
      ensures ok && disk.file != size ==> disk == old(disk)
      ensures trace == old(trace) + CutSteps(old(disk), size, t)
      ensures disk == At(old(disk), CutSteps(old(disk), size, t))
    {
      if !t.checks || !disk.formatted {
        return false;
      }
      if !t.reports {
        return false;
      }
      if !Headroom(t.minimum, size) {
        return true;
      }
      if !t.shrinks {
        return false;
      }
      Change(disk.(fs := size / 1024 * 1024)); // the tool is told kibibytes
      if !t.cuts {
        return false;
      }
      Change(disk.(file := size));
      return true;
    }

    method ShrinkDisk(mib: nat, t: Tools) returns (ok: bool)
      requires Sound(disk) && AllSound(trace) && Truthful(t, disk)
      modifies this
      ensures Sound(disk) && AllSound(trace) && old(trace) <= trace
      ensures disk.Present? == old(disk.Present?)
      ensures disk.Present? ==>
        && disk.formatted == old(disk.formatted) && disk.data == old(disk.data)
        && disk.file == (if ShrinkGoesThrough(t, old(disk), mib) then mib * MIB else old(disk.file))
        && (disk != old(disk) ==> disk.fs == mib * MIB && 5 * disk.fs >= 6 * t.minimum)
        && (ok && disk.file == old(disk.file) ==> disk == old(disk))
      ensures trace == old(trace) + ShrinkSteps(old(disk), mib, t)
      ensures disk == At(old(disk), ShrinkSteps(old(disk), mib, t))
    {
      if DiskMiB(disk) <= mib {
        return true;
      }
      WholeMiBs(disk.file, mib);
      ok := ShrinkImage(mib * MIB, t);
    }

    /** Creates the image on the first call; grows an existing one that is too small. */
    method EnsureDisk(mib: nat, t: Tools) returns (ok: bool)
      requires Sound(disk) && AllSound(trace)
      modifies this
      ensures Sound(disk) && AllSound(trace) && old(trace) <= trace
      ensures old(disk).Present? ==>
        && disk.Present? && disk.formatted == old(disk.formatted) && disk.data == old(disk.data)
        && (ok ==> disk.file == Max(old(disk.file), mib * MIB))
        && (ok && old(disk.file) < mib * MIB ==> disk.fs == disk.file)
        && (old(disk.file) >= mib * MIB ==> disk == old(disk) && ok == t.mkdirs)
      ensures old(disk).Absent? && ok ==> disk == Present(true, mib * MIB, mib * MIB, 0)
      // success hands out an unformatted image exactly when one was already lying there, large enough
      ensures ok ==> disk.Present?
      ensures ok && !disk.formatted <==>
        t.mkdirs && old(disk).Present? && !old(disk.formatted) && old(disk.file) >= mib * MIB
      // and a filesystem smaller than its file exactly when it was so and the file already large enough
      ensures ok && disk.formatted ==>
        (disk.fs == disk.file <==>
           old(disk).Absent? || old(disk.file) < mib * MIB || old(disk.fs) == old(disk.file))
      ensures trace == old(trace) + EnsureSteps(old(disk), mib, t) && disk == Ensured(old(disk), mib, t)
      ensures ok == EnsureOk(old(disk), mib, t)
    {
      if !t.mkdirs {
        return false;
      }
      var want := mib * MIB;
      if disk.Present? {
        if disk.file < want {
          ok := GrowDisk(want, t);
          return;
        }
        return true;
      }
      if !t.creates {
        return false;
      }
      Change(Present(false, 0, 0, 0));
      if !t.truncates {
        return false;
      }
      Change(Present(false, want, 0, 0));
      if !t.formats {
        if t.removes {
          Change(Absent);
        }
        return false;
      }
      Change(Present(true, want, want, 0));
      return true;
    }

    /** What Create does with the home disk: an explicit size may shrink it, and a failed shrink is
        only logged; then the image is made or grown. */
    method PrepareHome(tierMiB: nat, requestedMiB: nat, s: Tools, t: Tools) returns (ok: bool)
      requires Sound(disk) && AllSound(trace) && Truthful(s, disk)
      modifies this
      ensures Sound(disk) && AllSound(trace) && old(trace) <= trace
      ensures old(disk).Present? ==>
        disk.Present? && disk.formatted == old(disk.formatted) && disk.data == old(disk.data)
      ensures var target := Max(tierMiB, requestedMiB);
        ok && old(disk).Present? ==>
          disk.file == if requestedMiB > 0 && ShrinkGoesThrough(s, old(disk), target)
                       then target * MIB else Max(old(disk.file), target * MIB)
    {
      if requestedMiB > 0 {
        var shrunk := ShrinkDisk(Max(tierMiB, requestedMiB), s);
      }
      ok := EnsureDisk(Max(tierMiB, requestedMiB), t);
    }
  }

  /** With working tools a shrink goes through exactly if the image is a whole MiB or more larger than
      asked and 1.2 times what resize2fs reports as its minimum fits the size asked for. */
  lemma ShrinksExactly(d: Disk, mib: nat, t: Tools)
    requires d.Present? && d.formatted && t.checks && t.reports && t.shrinks && t.cuts
    ensures var after := At(d, ShrinkSteps(d, mib, t));
      if d.file >= (mib + 1) * 1048576 && t.minimum * 12 <= mib * 1048576 * 10
      then after == d.(file := mib * 1048576, fs := mib * 1048576) else after == d
  {}

  /** With working tools EnsureDisk succeeds, and leaves a formatted image of at least the size asked. */
  lemma EnsuresExactly(d: Disk, mib: nat, t: Tools)
    requires t.mkdirs && t.truncates && t.checks && t.grows && t.creates && t.formats
    requires d.Present? ==> d.formatted
    ensures EnsureOk(d, mib, t)
    ensures var after := Ensured(d, mib, t);
      if d.Absent? then after == Present(true, mib * 1048576, mib * 1048576, 0)
      else if d.file < mib * 1048576 then after == d.(file := mib * 1048576, fs := mib * 1048576)
      else after == d
  {}

  lemma WholeMiBs(file: nat, mib: nat)
    requires file / MIB > mib
    ensures mib * MIB < file && mib * MIB % 1024 == 0 && mib * MIB / 1024 * 1024 == mib * MIB
  {}
}
