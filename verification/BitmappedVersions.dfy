/** BitmappedVersion as the source updates it, and its delta iterator (src/version_vector.rs:51-163),
    against the functions of Clocks. */
module BitmappedVersions {
  import opened Basics
  import opened Clocks

  lemma RunEndUnique(base: Version, bitmap: set<Version>, end: Version)
    requires base <= end && end + 1 !in bitmap && forall v :: base < v <= end ==> v in bitmap
    ensures end == RunEnd(base, bitmap)
  {
    var other := RunEnd(base, bitmap);
    assert end < other ==> end + 1 in bitmap;
    assert other < end ==> other + 1 in bitmap;
  }

  class BitmappedVersion {
    var base: Version
    var bitmap: set<Version>

    ghost function Now(): BV
      reads this
    {
      BV(base, bitmap)
    }

    constructor ()
      ensures Now() == EMPTY_BV
    {
      base, bitmap := 0, {};
    }

    method NormInPlace()
      modifies this
      ensures Now() == Norm(old(Now()))
    {
      while base + 1 in bitmap
        invariant bitmap == old(bitmap) && old(base) <= base
        invariant forall v :: old(base) < v <= base ==> v in bitmap
        decreases set v | v in bitmap && v > base
      {
        ghost var above := set v | v in bitmap && v > base;
        base := base + 1;
        assert base in above;
      }
      RunEndUnique(old(base), bitmap, base);
      bitmap := set v | v in bitmap && base < v;
    }

    method AddInPlace(version: Version) returns (added: bool)
      modifies this
      ensures (Now(), added) == Add(old(Now()), version)
    {
      if version == base + 1 {
        base := base + 1;
      } else if version > base {
        if version in bitmap { return false; }
        bitmap := bitmap + {version};
      } else {
        return false;
      }
      NormInPlace();
      return true;
    }

    method AddAllInPlace(version: Version) returns (grown: bool)
      modifies this
      ensures (Now(), grown) == AddAll(old(Now()), version)
    {
      if version > base {
        base := version;
        NormInPlace();
        return true;
      }
      return false;
    }

    method MergeInPlace(other: BV)
      modifies this
      ensures Now() == Merge(old(Now()), other)
    {
      bitmap := bitmap + other.bitmap;
      if base < other.base {
        base := other.base;
      }
      NormInPlace();
    }
  }

  /** The versions still to come are those of the delta after the ones already returned. */
  class BitmappedVersionDelta {
    const start: BV
    const end: BV
    const len: nat
    var pos: nat

    ghost function Rest(): seq<Version>
      requires pos <= len
      reads this
    {
      DeltaFrom(start, end, pos, len)
    }

    constructor (self: BV, other: BV)
      ensures pos <= len && Rest() == Delta(self, other)
    {
      if self.base < other.base {
        start, end, len, pos := EMPTY_BV, EMPTY_BV, 0, 0;
      } else {
        var m := MaxOf(self.bitmap);
        start, end, len, pos := other, self, (if m < self.base then self.base else m) - other.base, 0;
      }
    }

    method Next() returns (r: Option<Version>)
      requires pos <= len
      modifies this
      ensures pos <= len
      ensures old(Rest()) == if r.Some? then [r.value] + Rest() else []
      ensures r.None? ==> pos == len
    {
      while pos < len
        invariant pos <= len && Rest() == old(Rest())
      {
        pos := pos + 1;
        var version := start.base + pos;
        if version !in start.bitmap && end.Contains(version) {
          return Some(version);
        }
      }
      return None;
    }
  }

  // ---------------------------------------------------------------- any sequence of updates

  datatype Update = Adds(v: Version) | AddsAll(v: Version) | Merges(other: BV) {
    /** v is among the versions the update brings. */
    predicate Brings(v: Version) {
      match this
      case Adds(x) => v == x
      case AddsAll(x) => v <= x
      case Merges(other) => other.Contains(v)
    }

    function Apply(a: BV): BV {
      match this
      case Adds(x) => Add(a, x).0
      case AddsAll(x) => AddAll(a, x).0
      case Merges(other) => Merge(a, other)
    }
  }

  function ApplyAll(updates: seq<Update>): (r: BV) {
    if updates == [] then EMPTY_BV else updates[|updates| - 1].Apply(ApplyAll(updates[..|updates| - 1]))
  }

  ghost predicate Brought(updates: seq<Update>, v: Version) {
    v == 0 || exists u :: u in updates && u.Brings(v)
  }

  lemma ApplyBrings(a: BV, u: Update)
    requires a.Normal()
    ensures u.Apply(a).Normal() && forall v: Version :: u.Apply(a).Contains(v) <==> a.Contains(v) || u.Brings(v)
  {
    match u
    case Adds(x) => AddInserts(a, x);
    case AddsAll(x) => AddAllInserts(a, x);
    case Merges(other) => MergeUnites(a, other);
  }

  /** After any updates the clock is in normal form and has exactly the versions they brought. */
  lemma {:induction false} UpdatesAccumulate(updates: seq<Update>)
    ensures ApplyAll(updates).Normal()
    ensures forall v: Version :: ApplyAll(updates).Contains(v) <==> Brought(updates, v)
  {
    if updates != [] {
      var n := |updates| - 1;
      var before, last := updates[..n], updates[n];
      UpdatesAccumulate(before);
      ApplyBrings(ApplyAll(before), last);
      assert updates == before + [last];
      forall v: Version
        ensures Brought(updates, v) <==> Brought(before, v) || last.Brings(v)
      {
        assert last in updates;
      }
    }
  }

  /** Updates that bring the same versions, in any order and grouping, give the same clock. */
  lemma SameVersionsSameClock(a: seq<Update>, b: seq<Update>)
    requires forall v: Version :: Brought(a, v) <==> Brought(b, v)
    ensures ApplyAll(a) == ApplyAll(b)
  {
    UpdatesAccumulate(a);
    UpdatesAccumulate(b);
    NormalFormUnique(ApplyAll(a), ApplyAll(b));
  }
}
