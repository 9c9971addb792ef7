/** Node clocks and causal contexts (src/version_vector.rs).

    A node clock maps every node id to an interval plus a bitmap of exceptions
    (`BV`); a causal context (`VV`) keeps only an upper bound for each id.
    Versions start at 1, so version 0 belongs to every interval. */
module Clocks {

  type Id = nat
  type Version = nat

  /** The version-th event coordinated by node id. */
  datatype Dot = Dot(id: Id, version: Version)

  // ---------------------------------------------------------------- BitmappedVersion

  /** base stands for all versions up to it, bitmap for the scattered ones above. */
  datatype BV = BV(base: Version, bitmap: set<Version>) {

    predicate Contains(v: Version) {
      v <= base || v in bitmap
    }

    /** No exception touches or precedes the interval. */
    ghost predicate Normal() {
      forall v :: v in bitmap ==> base + 1 < v
    }

    /** The interval is everything. */
    predicate Solid() {
      bitmap == {}
    }
  }

  const EMPTY_BV := BV(0, {})

  ghost predicate SameVersions(a: BV, b: BV) {
    forall v: Version :: a.Contains(v) <==> b.Contains(v)
  }

  /** Every version of a is a version of b. */
  ghost predicate Within(a: BV, b: BV) {
    forall v: Version :: a.Contains(v) ==> b.Contains(v)
  }

  /** The end of the run of versions that starts at base. */
  function RunEnd(base: Version, bitmap: set<Version>): (end: Version)
    ensures base <= end
    ensures end + 1 !in bitmap
    ensures forall v :: base < v <= end ==> v in bitmap
    decreases |bitmap|
  {
    if base + 1 in bitmap then
      var rest := bitmap - {base + 1};
      var end := RunEnd(base + 1, rest);
      assert forall v {:trigger v in bitmap} :: base < v <= end ==> v == base + 1 || v in rest;
      end
    else base
  }

  function Norm(a: BV): (r: BV)
    ensures r.Normal()
    ensures SameVersions(r, a)
  {
    var end := RunEnd(a.base, a.bitmap);
    BV(end, set v | v in a.bitmap && end < v)
  }

  function Add(a: BV, version: Version): (r: (BV, bool))
  {
    if version == a.base + 1 then (Norm(BV(a.base + 1, a.bitmap)), true)
    else if version > a.base then
      if version in a.bitmap then (a, false) else (Norm(BV(a.base, a.bitmap + {version})), true)
    else (a, false)
  }

  function AddAll(a: BV, version: Version): (r: (BV, bool))
  {
    if version > a.base then (Norm(BV(version, a.bitmap)), true) else (a, false)
  }

  function Merge(a: BV, b: BV): (r: BV)
  {
    Norm(BV(if a.base < b.base then b.base else a.base, a.bitmap + b.bitmap))
  }

  /** base + bitmap is a unique representation of a set of versions. */
  lemma NormalFormUnique(a: BV, b: BV)
    requires a.Normal() && b.Normal() && SameVersions(a, b)
    ensures a == b
  {
    if a.base < b.base {
      assert b.Contains(a.base + 1) && !a.Contains(a.base + 1);
    } else if b.base < a.base {
      assert a.Contains(b.base + 1) && !b.Contains(b.base + 1);
    } else {
      forall v ensures v in a.bitmap <==> v in b.bitmap {
        assert a.Contains(v) <==> b.Contains(v);
      }
    }
  }

  /** add inserts one version, and reports whether it was new. */
  lemma AddInserts(a: BV, version: Version)
    requires a.Normal()
    ensures Add(a, version).0.Normal()
    ensures Add(a, version).1 <==> !a.Contains(version)
    ensures forall v: Version :: Add(a, version).0.Contains(v) <==> a.Contains(v) || v == version
  {
    if version == a.base + 1 {
      var b := BV(a.base + 1, a.bitmap);
      assert SameVersions(Norm(b), b);
    } else if version > a.base && version !in a.bitmap {
      var b := BV(a.base, a.bitmap + {version});
      assert SameVersions(Norm(b), b);
    }
  }

  /** add_all inserts a prefix, and reports whether the interval grew. */
  lemma AddAllInserts(a: BV, version: Version)
    requires a.Normal()
    ensures AddAll(a, version).0.Normal()
    ensures AddAll(a, version).1 <==> a.base < version
    ensures forall v: Version :: AddAll(a, version).0.Contains(v) <==> a.Contains(v) || v <= version
  {
    if version > a.base {
      var b := BV(version, a.bitmap);
      assert SameVersions(Norm(b), b);
    }
  }

  /** merge is set union. */
  lemma MergeUnites(a: BV, b: BV)
    ensures Merge(a, b).Normal()
    ensures forall v: Version :: Merge(a, b).Contains(v) <==> a.Contains(v) || b.Contains(v)
  {
    var c := BV(if a.base < b.base then b.base else a.base, a.bitmap + b.bitmap);
    assert SameVersions(Norm(c), c);
  }

  /** Merging what is already inside changes nothing, down to the representation. */
  lemma MergeWithin(a: BV, b: BV)
    requires a.Normal() && Within(b, a)
    ensures Merge(a, b) == a
  {
    MergeUnites(a, b);
    NormalFormUnique(Merge(a, b), a);
  }

  // ---------------------------------------------------------------- delta

  /** The versions of to that the iterator yields after pos of len steps from from. */
  function DeltaFrom(from: BV, to: BV, pos: nat, len: nat): (r: seq<Version>)
    requires pos <= len
    decreases len - pos
  {
    if pos == len then []
    else
      var v := from.base + pos + 1;
      (if v !in from.bitmap && to.Contains(v) then [v] else []) + DeltaFrom(from, to, pos + 1, len)
  }

  predicate IsMax(s: set<Version>, m: Version) {
    m in s && forall v :: v in s ==> v <= m
  }

  function MaxOf(s: set<Version>): (m: Version)
    ensures if s == {} then m == 0 else IsMax(s, m)
  {
    if s == {} then 0
    else
      MaxExists(s);
      var m: Version :| IsMax(s, m);
      m
  }

  lemma {:induction false} MaxExists(s: set<Version>)
    requires s != {}
    ensures exists m: Version :: IsMax(s, m)
  {
    var x :| x in s;
    var rest := s - {x};
    if rest != {} {
      MaxExists(rest);
      var m: Version :| IsMax(rest, m);
      assert s == rest + {x};
      assert IsMax(s, if m < x then x else m);
    } else {
      assert IsMax(s, x) by {
        assert s == {x};
      }
    }
  }

  /** self - other, as the source enumerates it: nothing at all when self is behind. */
  function Delta(self: BV, other: BV): (r: seq<Version>)
  {
    if self.base < other.base then []
    else
      var m := MaxOf(self.bitmap);
      var last := if m < self.base then self.base else m;
      DeltaFrom(other, self, 0, last - other.base)
  }

  lemma {:induction false} DeltaFromIsDifference(from: BV, to: BV, pos: nat, len: nat)
    requires pos <= len
    ensures forall v :: v in DeltaFrom(from, to, pos, len) <==>
                        from.base + pos < v <= from.base + len && !from.Contains(v) && to.Contains(v)
    ensures forall i, j :: 0 <= i < j < |DeltaFrom(from, to, pos, len)| ==>
                           DeltaFrom(from, to, pos, len)[i] < DeltaFrom(from, to, pos, len)[j]
    decreases len - pos
  {
    if pos < len {
      DeltaFromIsDifference(from, to, pos + 1, len);
      var rest := DeltaFrom(from, to, pos + 1, len);
      assert forall i :: 0 <= i < |rest| ==> rest[i] in rest;
    }
  }

  /** delta lists the set difference in ascending order when self is not behind,
      and nothing outside the difference otherwise. */
  lemma DeltaIsDifference(self: BV, other: BV)
    ensures forall v :: v in Delta(self, other) ==> self.Contains(v) && !other.Contains(v)
    ensures self.base >= other.base ==>
              forall v: Version :: self.Contains(v) && !other.Contains(v) ==> v in Delta(self, other)
    ensures forall i, j :: 0 <= i < j < |Delta(self, other)| ==> Delta(self, other)[i] < Delta(self, other)[j]
  {
    if self.base >= other.base {
      var m := MaxOf(self.bitmap);
      var last := if m < self.base then self.base else m;
      DeltaFromIsDifference(other, self, 0, last - other.base);
    }
  }

  /** delta misses something exactly when self is behind and owns an exception other lacks. */
  lemma DeltaCompleteIff(self: BV, other: BV)
    requires self.Normal() && other.Normal()
    ensures (forall v: Version :: self.Contains(v) && !other.Contains(v) ==> v in Delta(self, other)) <==>
            (self.base >= other.base || forall v :: v in self.bitmap ==> other.Contains(v))
  {
    DeltaIsDifference(self, other);
    if self.base < other.base && exists v :: v in self.bitmap && !other.Contains(v) {
      var v :| v in self.bitmap && !other.Contains(v);
      assert self.Contains(v) && v !in Delta(self, other);
    }
  }

  // ---------------------------------------------------------------- BitmappedVersionVector

  type Clock = map<Id, BV>

  predicate Has(c: Clock, d: Dot) {
    d.id in c && c[d.id].Contains(d.version)
  }

  function Slice(c: Clock, id: Id): BV {
    if id in c then c[id] else EMPTY_BV
  }

  ghost predicate NormalClock(c: Clock) {
    forall i :: i in c ==> c[i].Normal()
  }

  /** Every dot of a is a dot of b. */
  ghost predicate ClockWithin(a: Clock, b: Clock) {
    forall i :: i in a ==> i in b && Within(a[i], b[i])
  }

  function ClockAdd(c: Clock, d: Dot): (r: (Clock, bool)) {
    var (bv, isNew) := Add(Slice(c, d.id), d.version);
    (c[d.id := bv], isNew)
  }

  function ClockMerge(c: Clock, o: Clock): (r: Clock) {
    map i | i in c.Keys + o.Keys ::
      if i !in c then o[i] else if i !in o then c[i] else Merge(c[i], o[i])
  }

  /** The next version of id. The source asserts that id's own bitmap is empty. */
  function Event(c: Clock, id: Id): (r: (Clock, Version))
    requires Slice(c, id).Solid()
  {
    var v := Slice(c, id).base + 1;
    (c[id := BV(v, {})], v)
  }

  lemma ClockAddInserts(c: Clock, d: Dot)
    requires NormalClock(c) && d.version != 0
    ensures NormalClock(ClockAdd(c, d).0)
    ensures ClockAdd(c, d).1 <==> !Has(c, d)
    ensures forall e: Dot :: e.version != 0 ==> (Has(ClockAdd(c, d).0, e) <==> Has(c, e) || e == d)
    ensures ClockWithin(c, ClockAdd(c, d).0)
  {
    AddInserts(Slice(c, d.id), d.version);
  }

  lemma ClockMergeUnites(c: Clock, o: Clock)
    requires NormalClock(c) && NormalClock(o)
    ensures NormalClock(ClockMerge(c, o))
    ensures forall e: Dot :: Has(ClockMerge(c, o), e) <==> Has(c, e) || Has(o, e)
    ensures ClockWithin(c, ClockMerge(c, o))
  {
    forall i | i in c && i in o { MergeUnites(c[i], o[i]); }
    forall e: Dot ensures Has(ClockMerge(c, o), e) <==> Has(c, e) || Has(o, e) {
      if e.id in c && e.id in o { MergeUnites(c[e.id], o[e.id]); }
    }
  }

  /** The dots of c that o lacks, id by id in the iteration order ids. */
  function ClockDelta(c: Clock, o: Clock, ids: seq<Id>): (r: seq<Dot>) {
    if ids == [] then []
    else
      var vs := Delta(Slice(c, ids[0]), Slice(o, ids[0]));
      seq(|vs|, i requires 0 <= i < |vs| => Dot(ids[0], vs[i])) + ClockDelta(c, o, ids[1..])
  }

  lemma {:induction false} ClockDeltaMembers(c: Clock, o: Clock, ids: seq<Id>)
    ensures forall d: Dot :: d in ClockDelta(c, o, ids) <==>
                             d.id in ids && d.version in Delta(Slice(c, d.id), Slice(o, d.id))
  {
    if ids != [] {
      ClockDeltaMembers(c, o, ids[1..]);
      var vs := Delta(Slice(c, ids[0]), Slice(o, ids[0]));
      var head := seq(|vs|, i requires 0 <= i < |vs| => Dot(ids[0], vs[i]));
      forall d: Dot ensures d in head <==> d.id == ids[0] && d.version in vs {
        if d.id == ids[0] && d.version in vs {
          var i :| 0 <= i < |vs| && vs[i] == d.version;
          assert head[i] == d;
        }
      }
    }
  }

  // ---------------------------------------------------------------- VersionVector

  type VV = map<Id, Version>

  predicate Covers(vv: VV, d: Dot) {
    d.id in vv && d.version <= vv[d.id]
  }

  function VVAdd(vv: VV, id: Id, v: Version): (r: VV) {
    if id in vv && v <= vv[id] then vv else vv[id := v]
  }

  function VVMerge(a: VV, b: VV): (r: VV)
    ensures forall d: Dot :: Covers(r, d) <==> Covers(a, d) || Covers(b, d)
  {
    map i | i in a.Keys + b.Keys ::
      if i !in a then b[i] else if i !in b then a[i] else if a[i] < b[i] then b[i] else a[i]
  }

  /** a descends b. */
  predicate Descends(a: VV, b: VV) {
    forall i :: i in b ==> i in a && b[i] <= a[i]
  }

  /** contained: the interval parts of the clock cover the whole context. */
  predicate Contained(vv: VV, c: Clock) {
    forall i :: i in vv ==> i in c && vv[i] <= c[i].base
  }

  /** The context a Void cube is seeded with (Cube::new). */
  function Bases(c: Clock): (r: VV) {
    map i | i in c :: c[i].base
  }
}
