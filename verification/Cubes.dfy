/** The stored data types (src/cubes.rs) and the dot stores they are built on
    (src/version_vector.rs). */
module Cubes {
  import opened Basics
  import opened Clocks

  // ---------------------------------------------------------------- dot stores

  /** The dot is on both sides, or on one side and unseen by the other. */
  predicate Survives(a: set<Dot>, b: set<Dot>, aVV: VV, bVV: VV, d: Dot) {
    if d in a then d in b || !Covers(bVV, d) else d in b && !Covers(aVV, d)
  }

  function DotSetMerge(a: set<Dot>, b: set<Dot>, aVV: VV, bVV: VV): (r: set<Dot>) {
    set d | d in a + b && Survives(a, b, aVV, bVV, d)
  }

  function DotMapMerge<T>(a: map<Dot, T>, b: map<Dot, T>, aVV: VV, bVV: VV): (r: map<Dot, T>) {
    map d | d in a.Keys + b.Keys && Survives(a.Keys, b.Keys, aVV, bVV, d) :: if d in a then a[d] else b[d]
  }

  /** DotMap as the source updates it: a map merged in place. */
  class DotMap<T> {
    var dots: map<Dot, T>

    constructor (dots: map<Dot, T>)
      ensures this.dots == dots
    {
      this.dots := dots;
    }

    /** retain what other also holds (removing it there) or has not seen. */
    method Retain(other: DotMap<T>, oVV: VV)
      requires this != other
      modifies this, other
      ensures dots == map d | d in old(dots) && (d in old(other.dots) || !Covers(oVV, d)) :: old(dots)[d]
      ensures other.dots == old(other.dots) - old(dots).Keys
    {
      ghost var a, b := dots, other.dots;
      var todo := dots.Keys;
      while todo != {}
        invariant todo <= a.Keys
        invariant other.dots == b - (a.Keys - todo)
        invariant forall d :: d in dots <==> d in a && (d in todo || d in b || !Covers(oVV, d))
        invariant forall d :: d in dots ==> dots[d] == a[d]
        decreases todo
      {
        var d :| d in todo;
        todo := todo - {d};
        if d in other.dots {
          other.dots := other.dots - {d};
        } else if Covers(oVV, d) {
          dots := dots - {d};
        }
      }
    }

    /** drain other into self, dropping what self has already seen. */
    method Drain(other: DotMap<T>, sVV: VV)
      requires this != other
      requires dots.Keys !! other.dots.Keys
      modifies this, other
      ensures dots == old(dots) + map d | d in old(other.dots) && !Covers(sVV, d) :: old(other.dots)[d]
      ensures other.dots == map[]
    {
      ghost var a, b := dots, other.dots;
      while other.dots != map[]
        invariant other.dots.Keys <= b.Keys
        invariant forall d :: d in other.dots ==> other.dots[d] == b[d]
        invariant forall d :: d in dots <==> d in a || (d in b && d !in other.dots && !Covers(sVV, d))
        invariant forall d :: d in dots ==> dots[d] == if d in a then a[d] else b[d]
        decreases other.dots.Keys
      {
        var d :| d in other.dots;
        var value := other.dots[d];
        other.dots := other.dots - {d};
        if !Covers(sVV, d) {
          dots := dots[d := value];
        }
      }
    }

    method Merge(other: DotMap<T>, sVV: VV, oVV: VV)
      requires this != other
      modifies this, other
      ensures dots == DotMapMerge(old(dots), old(other.dots), sVV, oVV)
      ensures other.dots == map[]
    {
      Retain(other, oVV);
      Drain(other, sVV);
    }
  }

  // ---------------------------------------------------------------- MultiRegister

  /** Siblings by dot (None is a deleted value) and the history they stand in. */
  datatype Value = Value(values: map<Dot, Option<Bytes>>, vv: VV) {

    /** Every sibling is part of the history. */
    ghost predicate Owned() {
      forall d :: d in values ==> Covers(vv, d)
    }

    /** Known, and no longer a sibling. */
    ghost predicate Dead(d: Dot) {
      Covers(vv, d) && d !in values
    }

    function Set(id: Id, version: Version, value: Option<Bytes>, ctx: VV): (r: Value) {
      var kept := map d | d in values && !Covers(ctx, d) :: values[d];
      Value(kept[Dot(id, version) := value], VVAdd(vv, id, version))
    }

    function Merge(other: Value): (r: Value) {
      Value(DotMapMerge(values, other.values, vv, other.vv), VVMerge(vv, other.vv))
    }
  }

  /** Equal dots carry equal values. */
  ghost predicate Agree(a: Value, b: Value) {
    forall d :: d in a.values && d in b.values ==> a.values[d] == b.values[d]
  }

  /** Information order: more history, and what was dead stays dead. */
  ghost predicate Leq(a: Value, b: Value) {
    && Descends(b.vv, a.vv)
    && (forall d: Dot :: a.Dead(d) ==> b.Dead(d))
    && Agree(a, b)
  }

  lemma MergeIsUpperBound(a: Value, b: Value)
    requires a.Owned() && b.Owned() && Agree(a, b)
    ensures a.Merge(b).Owned()
    ensures Leq(a, a.Merge(b)) && Leq(b, a.Merge(b))
  {
  }

  lemma MergeIsLeast(a: Value, b: Value, c: Value)
    requires a.Owned() && b.Owned() && Agree(a, b) && Leq(a, c) && Leq(b, c)
    ensures Leq(a.Merge(b), c)
  {
    forall d: Dot | a.Merge(b).Dead(d) ensures c.Dead(d) {
      assert a.Dead(d) || b.Dead(d);
    }
  }

  /** Merge is the least upper bound of the information order, and stays inside its history. */
  lemma MergeIsJoin(a: Value, b: Value)
    requires a.Owned() && b.Owned() && Agree(a, b)
    ensures a.Merge(b).Owned()
    ensures Leq(a, a.Merge(b)) && Leq(b, a.Merge(b))
    ensures forall c: Value :: Leq(a, c) && Leq(b, c) ==> Leq(a.Merge(b), c)
  {
    MergeIsUpperBound(a, b);
    forall c: Value | Leq(a, c) && Leq(b, c) ensures Leq(a.Merge(b), c) {
      MergeIsLeast(a, b, c);
    }
  }

  /** The information order is a partial order, so the join is unique. */
  lemma LeqAntisymmetric(a: Value, b: Value)
    requires a.Owned() && b.Owned() && Leq(a, b) && Leq(b, a)
    ensures a == b
  {
    assert a.vv.Keys == b.vv.Keys;
    assert forall d: Dot :: Covers(a.vv, d) <==> Covers(b.vv, d);
    assert forall d :: d in a.values <==> Covers(a.vv, d) && !a.Dead(d);
    assert a.values.Keys == b.values.Keys;
  }

  lemma MergeCommutes(a: Value, b: Value)
    requires a.Owned() && b.Owned() && Agree(a, b)
    ensures a.Merge(b) == b.Merge(a)
  {
  }

  lemma MergeIdempotent(a: Value)
    ensures a.Merge(a) == a
  {
  }

  lemma LeqTransitive(a: Value, b: Value, c: Value)
    requires a.Owned() && b.Owned() && c.Owned() && Leq(a, b) && Leq(b, c)
    ensures Leq(a, c)
  {
    forall d | d in a.values && d in c.values ensures a.values[d] == c.values[d] {
      assert Covers(b.vv, d) && !b.Dead(d);
    }
  }

  ghost predicate UpperBound(a: Value, b: Value, c: Value, r: Value) {
    r.Owned() && Leq(a, r) && Leq(b, r) && Leq(c, r)
  }

  lemma AgreeMerged(a: Value, b: Value, c: Value)
    requires Agree(a, c) && Agree(b, c)
    ensures Agree(a.Merge(b), c)
  {
  }

  lemma LeftIsUpperBound(a: Value, b: Value, c: Value)
    requires a.Owned() && b.Owned() && c.Owned() && Agree(a, b) && Agree(a.Merge(b), c)
    ensures UpperBound(a, b, c, a.Merge(b).Merge(c))
  {
    MergeIsUpperBound(a, b);
    MergeIsUpperBound(a.Merge(b), c);
    LeqTransitive(a, a.Merge(b), a.Merge(b).Merge(c));
    LeqTransitive(b, a.Merge(b), a.Merge(b).Merge(c));
  }

  lemma RightIsUpperBound(a: Value, b: Value, c: Value)
    requires a.Owned() && b.Owned() && c.Owned() && Agree(b, c) && Agree(a, b.Merge(c))
    ensures UpperBound(a, b, c, a.Merge(b.Merge(c)))
  {
    MergeIsUpperBound(b, c);
    MergeIsUpperBound(a, b.Merge(c));
    LeqTransitive(b, b.Merge(c), a.Merge(b.Merge(c)));
    LeqTransitive(c, b.Merge(c), a.Merge(b.Merge(c)));
  }

  lemma BelowUpperBound(a: Value, b: Value, c: Value, r: Value)
    requires a.Owned() && b.Owned() && c.Owned() && Agree(a, b) && Agree(b, c) && UpperBound(a, b, c, r)
    ensures Agree(a.Merge(b), c) ==> Leq(a.Merge(b).Merge(c), r)
    ensures Agree(a, b.Merge(c)) ==> Leq(a.Merge(b.Merge(c)), r)
  {
    MergeIsUpperBound(a, b);
    MergeIsUpperBound(b, c);
    MergeIsLeast(a, b, r);
    MergeIsLeast(b, c, r);
    if Agree(a.Merge(b), c) { MergeIsLeast(a.Merge(b), c, r); }
    if Agree(a, b.Merge(c)) { MergeIsLeast(a, b.Merge(c), r); }
  }

  /** Both sides are the least upper bound of the three. */
  lemma MergeAssociates(a: Value, b: Value, c: Value)
    requires a.Owned() && b.Owned() && c.Owned()
    requires Agree(a, b) && Agree(b, c) && Agree(a, c)
    ensures a.Merge(b).Merge(c) == a.Merge(b.Merge(c))
  {
    AgreeMerged(a, b, c);
    AgreeMerged(b, c, a);
    LeftIsUpperBound(a, b, c);
    RightIsUpperBound(a, b, c);
    BelowUpperBound(a, b, c, a.Merge(b).Merge(c));
    BelowUpperBound(a, b, c, a.Merge(b.Merge(c)));
    LeqAntisymmetric(a.Merge(b).Merge(c), a.Merge(b.Merge(c)));
  }

  // ---------------------------------------------------------------- CausalMap

  /** What CausalMap asks of its values (the CausalValue trait). */
  datatype CausalOps<!V> = CausalOps(merge: (V, V, VV, VV) -> V, isEmpty: V -> bool, default: V)

  /** The entry of k after merging, if any. An entry found only in a is kept as it is. */
  function CausalEntry<K(==), V>(ops: CausalOps<V>, a: map<K, V>, b: map<K, V>, aVV: VV, bVV: VV, k: K): (r: Option<V>)
  {
    if k in a && k in b then
      var m := ops.merge(a[k], b[k], aVV, bVV);
      if ops.isEmpty(m) then None else Some(m)
    else if k in a then Some(a[k])
    else if k in b then
      var m := ops.merge(b[k], ops.default, bVV, aVV);
      if ops.isEmpty(m) then None else Some(m)
    else None
  }

  function CausalMerge<K(==), V>(ops: CausalOps<V>, a: map<K, V>, b: map<K, V>, aVV: VV, bVV: VV): (r: map<K, V>) {
    map k | k in a.Keys + b.Keys && CausalEntry(ops, a, b, aVV, bVV, k).Some? ::
      CausalEntry(ops, a, b, aVV, bVV, k).value
  }

  /** CausalMap as the source updates it, merged in place like a DotMap. */
  class CausalMap<K(==), V> {
    var entries: map<K, V>

    constructor (entries: map<K, V>)
      ensures this.entries == entries
    {
      this.entries := entries;
    }

    /** Entries on both sides are merged and dropped if nothing is left; entries of other go. */
    method Retain(ops: CausalOps<V>, other: CausalMap<K, V>, sVV: VV, oVV: VV)
      requires this != other
      modifies this, other
      ensures forall k :: k in entries <==>
        k in old(entries) && CausalEntry(ops, old(entries), old(other.entries), sVV, oVV, k).Some?
      ensures forall k :: k in entries ==> Some(entries[k]) == CausalEntry(ops, old(entries), old(other.entries), sVV, oVV, k)
      ensures other.entries == old(other.entries) - old(entries).Keys
    {
      ghost var a, b := entries, other.entries;
      var todo := entries.Keys;
      while todo != {}
        invariant todo <= a.Keys && entries.Keys <= a.Keys && todo <= entries.Keys
        invariant other.entries == b - (a.Keys - todo)
        invariant forall k :: k in todo ==> entries[k] == a[k]
        invariant forall k :: k in a && k !in todo ==>
          (k in entries <==> CausalEntry(ops, a, b, sVV, oVV, k).Some?)
        invariant forall k :: k in entries && k !in todo ==> Some(entries[k]) == CausalEntry(ops, a, b, sVV, oVV, k)
        decreases todo
      {
        var k :| k in todo;
        todo := todo - {k};
        if k in other.entries {
          var merged := ops.merge(entries[k], other.entries[k], sVV, oVV);
          other.entries := other.entries - {k};
          entries := if ops.isEmpty(merged) then entries - {k} else entries[k := merged];
        }
      }
    }

    /** What is left of other is taken over, unless self has seen it all. */
    method Drain(ops: CausalOps<V>, other: CausalMap<K, V>, sVV: VV, oVV: VV)
      requires this != other && entries.Keys !! other.entries.Keys
      modifies this, other
      ensures forall k :: k in entries <==>
        k in old(entries) || (k in old(other.entries) && !ops.isEmpty(ops.merge(old(other.entries)[k], ops.default, oVV, sVV)))
      ensures forall k :: k in entries ==>
        entries[k] == if k in old(entries) then old(entries)[k] else ops.merge(old(other.entries)[k], ops.default, oVV, sVV)
      ensures other.entries == map[]
    {
      ghost var a, b := entries, other.entries;
      while other.entries != map[]
        invariant other.entries.Keys <= b.Keys && forall k :: k in other.entries ==> other.entries[k] == b[k]
        invariant forall k :: k in entries <==>
          k in a || (k in b && k !in other.entries && !ops.isEmpty(ops.merge(b[k], ops.default, oVV, sVV)))
        invariant forall k :: k in entries ==> entries[k] == if k in a then a[k] else ops.merge(b[k], ops.default, oVV, sVV)
        decreases other.entries.Keys
      {
        var k :| k in other.entries;
        var merged := ops.merge(other.entries[k], ops.default, oVV, sVV);
        other.entries := other.entries - {k};
        if !ops.isEmpty(merged) {
          entries := entries[k := merged];
        }
      }
    }

    method Merge(ops: CausalOps<V>, other: CausalMap<K, V>, sVV: VV, oVV: VV)
      requires this != other
      modifies this, other
      ensures entries == CausalMerge(ops, old(entries), old(other.entries), sVV, oVV)
      ensures other.entries == map[]
    {
      Retain(ops, other, sVV, oVV);
      Drain(ops, other, sVV, oVV);
    }
  }

  const DOT_SET_OPS: CausalOps<set<Dot>> := CausalOps(DotSetMerge, (s: set<Dot>) => s == {}, {})

  /** A hash field: the dots that wrote it and the value of the latest one. */
  datatype MapValue = MapValue(dots: set<Dot>, value: Bytes, timestamp: nat)

  /** Byte strings in lexicographic order. */
  predicate Less(a: Bytes, b: Bytes) {
    if b == [] then false
    else if a == [] then true
    else a[0] < b[0] || (a[0] == b[0] && Less(a[1..], b[1..]))
  }

  /** The first byte that differs decides; a prefix comes first. */
  lemma {:induction false} LessIff(a: Bytes, b: Bytes)
    ensures Less(a, b) <==> a < b || exists k :: 0 <= k < |a| && k < |b| && a[..k] == b[..k] && a[k] < b[k]
  {
    if a != [] && b != [] && a[0] == b[0] {
      LessIff(a[1..], b[1..]);
      assert a == [a[0]] + a[1..] && b == [b[0]] + b[1..];
      if k :| 0 <= k < |a| && k < |b| && a[..k] == b[..k] && a[k] < b[k] {
        assert k > 0 && a[1..][..k - 1] == a[..k][1..] && b[1..][..k - 1] == b[..k][1..];
        assert a[1..][k - 1] < b[1..][k - 1];
      }
      if k :| 0 <= k < |a| - 1 && k < |b| - 1 && a[1..][..k] == b[1..][..k] && a[1..][k] < b[1..][k] {
        assert a[..k + 1] == [a[0]] + a[1..][..k] && b[..k + 1] == [b[0]] + b[1..][..k];
        assert a[k + 1] < b[k + 1];
      }
    } else if a != [] && b != [] {
      assert a[..0] == b[..0];
      assert forall k :: 0 < k < |a| && k < |b| && a[..k] == b[..k] ==> a[..k][0] == b[..k][0];
    }
  }

  lemma {:induction false} LessIsTotal(a: Bytes, b: Bytes)
    ensures Less(a, b) || a == b || Less(b, a)
    ensures !(Less(a, b) && Less(b, a)) && !Less(a, a)
  {
    if a != [] && b != [] {
      LessIsTotal(a[1..], b[1..]);
      LessIsTotal(a[1..], a[1..]);
      assert a == [a[0]] + a[1..] && b == [b[0]] + b[1..];
    } else if a != [] {
      LessIsTotal(a[1..], a[1..]);
    }
  }

  function MapValueMerge(a: MapValue, b: MapValue, aVV: VV, bVV: VV): (r: MapValue) {
    var dots := DotSetMerge(a.dots, b.dots, aVV, bVV);
    if a.timestamp > b.timestamp then MapValue(dots, a.value, a.timestamp)
    else if b.timestamp > a.timestamp || Less(a.value, b.value) then MapValue(dots, b.value, b.timestamp)
    else MapValue(dots, a.value, a.timestamp)
  }

  const MAP_VALUE_OPS: CausalOps<MapValue> := CausalOps(MapValueMerge, (m: MapValue) => m.dots == {}, MapValue({}, [], 0))

  /** (timestamp, value) of a does not precede that of b. */
  predicate AtLeast(a: MapValue, b: MapValue) {
    a.timestamp > b.timestamp || (a.timestamp == b.timestamp && !Less(a.value, b.value))
  }

  /** Add wins: an item with a dot the other side has not seen survives, whichever side
      holds it; an item on both sides keeps exactly its common and its unseen dots; an item
      the other side has seen and dropped goes away only when it comes from the argument. */
  lemma SetAddWins(a: map<Bytes, set<Dot>>, b: map<Bytes, set<Dot>>, aVV: VV, bVV: VV, item: Bytes)
    ensures var m := CausalMerge(DOT_SET_OPS, a, b, aVV, bVV);
            && (item in a && (exists d :: d in a[item] && !Covers(bVV, d)) ==> item in m)
            && (item in b && (exists d :: d in b[item] && !Covers(aVV, d)) ==> item in m)
            && (item in a && item in b && item in m ==>
                  forall d :: d in m[item] <==> || (d in a[item] && d in b[item])
                                                || (d in a[item] && !Covers(bVV, d))
                                                || (d in b[item] && !Covers(aVV, d)))
            && (item in a && item !in b ==> item in m && m[item] == a[item])
            && (item !in a && item in b ==> (item in m <==> exists d :: d in b[item] && !Covers(aVV, d)))
  {
    if item in a && item in b {
      var m := DotSetMerge(a[item], b[item], aVV, bVV);
      assert forall d :: d in a[item] && !Covers(bVV, d) ==> d in m;
      assert forall d :: d in b[item] && !Covers(aVV, d) ==> d in a[item] || d in m;
      if d :| d in b[item] && !Covers(aVV, d) {
        assert d in m;
      }
    } else if item in b {
      var m := DotSetMerge(b[item], {}, bVV, aVV);
      assert forall d :: d in m <==> d in b[item] && !Covers(aVV, d);
    }
  }

  /** A merged hash field holds the greatest of both values by (timestamp, value), in either
      order of merging, and survives by the same dots as a set item. */
  lemma MapLatestWins(a: MapValue, b: MapValue, aVV: VV, bVV: VV)
    ensures var m := MapValueMerge(a, b, aVV, bVV);
            && AtLeast(m, a) && AtLeast(m, b)
            && m.dots == DotSetMerge(a.dots, b.dots, aVV, bVV)
            && ((m.value, m.timestamp) == (a.value, a.timestamp) || (m.value, m.timestamp) == (b.value, b.timestamp))
            && m == MapValueMerge(b, a, bVV, aVV)
    ensures MapValueMerge(a, MAP_VALUE_OPS.default, aVV, bVV) == a.(dots := set d | d in a.dots && !Covers(bVV, d))
  {
    LessIsTotal(a.value, b.value);
    LessIsTotal(a.value, a.value);
    LessIsTotal(b.value, b.value);
    assert DotSetMerge(a.dots, b.dots, aVV, bVV) == DotSetMerge(b.dots, a.dots, bVV, aVV);
    assert DotSetMerge(a.dots, {}, aVV, bVV) == set d | d in a.dots && !Covers(bVV, d);
  }

  // ---------------------------------------------------------------- Cube

  datatype SetCube = SetCube(values: map<Bytes, set<Dot>>, dots: VV, vv: VV) {
    function Insert(id: Id, version: Version, item: Bytes): (r: SetCube) {
      SetCube(values[item := {Dot(id, version)}], VVAdd(dots, id, version), VVAdd(vv, id, version))
    }
    function Remove(id: Id, version: Version, item: Bytes): (r: SetCube) {
      SetCube(values - {item}, VVAdd(dots, id, version), VVAdd(vv, id, version))
    }
    function Clear(id: Id, version: Version): (r: SetCube) {
      SetCube(map[], VVAdd(dots, id, version), VVAdd(vv, id, version))
    }
    function Merge(other: SetCube): (r: SetCube) {
      SetCube(CausalMerge(DOT_SET_OPS, values, other.values, vv, other.vv),
              VVMerge(dots, other.dots), VVMerge(vv, other.vv))
    }
  }

  datatype MapCube = MapCube(values: map<Bytes, MapValue>, dots: VV, vv: VV) {
    function Insert(id: Id, version: Version, field: Bytes, value: Bytes, timestamp: nat): (r: MapCube) {
      MapCube(values[field := MapValue({Dot(id, version)}, value, timestamp)],
              VVAdd(dots, id, version), VVAdd(vv, id, version))
    }
    function Remove(id: Id, version: Version, field: Bytes): (r: MapCube) {
      MapCube(values - {field}, VVAdd(dots, id, version), VVAdd(vv, id, version))
    }
    function Clear(id: Id, version: Version): (r: MapCube) {
      MapCube(map[], VVAdd(dots, id, version), VVAdd(vv, id, version))
    }
    function Merge(other: MapCube): (r: MapCube) {
      MapCube(CausalMerge(MAP_VALUE_OPS, values, other.values, vv, other.vv),
              VVMerge(dots, other.dots), VVMerge(vv, other.vv))
    }
  }

  /** An item inserted by an event the other side has not seen survives the merge, in either order. */
  lemma InsertSurvives(s: SetCube, o: SetCube, id: Id, version: Version, item: Bytes)
    requires !Covers(o.vv, Dot(id, version))
    ensures var s' := s.Insert(id, version, item);
            item in s'.Merge(o).values && item in o.Merge(s').values
            && Dot(id, version) in s'.Merge(o).values[item] && Dot(id, version) in o.Merge(s').values[item]
  {
    var s' := s.Insert(id, version, item);
    assert Dot(id, version) in s'.values[item];
    SetAddWins(s'.values, o.values, s'.vv, o.vv, item);
    SetAddWins(o.values, s'.values, o.vv, s'.vv, item);
    if item !in o.values {
      assert DotSetMerge(s'.values[item], {}, s'.vv, o.vv) == {Dot(id, version)};
    }
  }

  /** A removed item stays away from a merge that brings it in exactly when all its dots were seen;
      a merge the other way round keeps it. */
  lemma RemoveMerged(s: SetCube, o: SetCube, id: Id, version: Version, item: Bytes)
    requires item in o.values
    ensures var s' := s.Remove(id, version, item);
            && (item !in s'.Merge(o).values <==> forall d :: d in o.values[item] ==> Covers(s'.vv, d))
            && item in o.Merge(s').values
  {
    var s' := s.Remove(id, version, item);
    SetAddWins(s'.values, o.values, s'.vv, o.vv, item);
    SetAddWins(o.values, s'.values, o.vv, s'.vv, item);
  }

  lemma LaterValueWins(x: MapValue, y: MapValue, d: Dot, xVV: VV, yVV: VV)
    requires x.dots == {d} && !Covers(yVV, d) && y.timestamp < x.timestamp
    ensures var m, w := MapValueMerge(x, y, xVV, yVV), MapValueMerge(y, x, yVV, xVV);
            m.value == w.value == x.value && !MAP_VALUE_OPS.isEmpty(m) && !MAP_VALUE_OPS.isEmpty(w)
  {
    assert d in DotSetMerge({d}, y.dots, xVV, yVV);
    assert d in DotSetMerge(y.dots, {d}, yVV, xVV);
  }

  lemma UnseenValueStays(x: MapValue, d: Dot, xVV: VV, yVV: VV)
    requires x.dots == {d} && !Covers(yVV, d)
    ensures var m := MapValueMerge(x, MAP_VALUE_OPS.default, xVV, yVV); m.value == x.value && !MAP_VALUE_OPS.isEmpty(m)
  {
    LaterThanDefault(x, xVV, yVV);
    assert d in DotSetMerge({d}, {}, xVV, yVV);
  }

  lemma LaterThanDefault(x: MapValue, xVV: VV, yVV: VV)
    ensures MapValueMerge(x, MAP_VALUE_OPS.default, xVV, yVV) == x.(dots := DotSetMerge(x.dots, {}, xVV, yVV))
  {
  }

  /** A field set later than the other side's wins, in either order, if the other side has not seen it. */
  lemma LaterFieldWins(m: MapCube, o: MapCube, id: Id, version: Version, field: Bytes, value: Bytes, timestamp: nat)
    requires !Covers(o.vv, Dot(id, version))
    requires field in o.values ==> o.values[field].timestamp < timestamp
    ensures var m' := m.Insert(id, version, field, value, timestamp);
            && field in m'.Merge(o).values && m'.Merge(o).values[field].value == value
            && field in o.Merge(m').values && o.Merge(m').values[field].value == value
  {
    var m' := m.Insert(id, version, field, value, timestamp);
    if field in o.values {
      LaterValueWins(m'.values[field], o.values[field], Dot(id, version), m'.vv, o.vv);
    } else {
      UnseenValueStays(m'.values[field], Dot(id, version), m'.vv, o.vv);
    }
  }

  datatype Counter = Counter(values: map<Id, (Version, int)>, vv: VV) {
    function Inc(id: Id, version: Version, amount: int): (r: Counter) {
      var n := if id in values then values[id].1 else 0;
      Counter(values[id := (version, n + amount)], VVAdd(vv, id, version))
    }
    function Clear(id: Id, version: Version): (r: Counter) {
      Counter(map[], VVAdd(vv, id, version))
    }
    /** The context is not joined. */
    function Merge(other: Counter): (r: Counter) {
      Counter(map i | i in values.Keys + other.values.Keys ::
                if i !in values || (i in other.values && other.values[i].0 > values[i].0)
                then other.values[i] else values[i], vv)
    }
  }

  datatype Cube =
    | Cnt(counter: Counter)
    | Val(value: Value)
    | Hash(hash: MapCube)
    | Items(items: SetCube)
    | Void(void: VV)
  {
    function Context(): VV {
      match this
      case Cnt(c) => c.vv
      case Val(v) => v.vv
      case Hash(m) => m.vv
      case Items(s) => s.vv
      case Void(vv) => vv
    }

    predicate NoValues() {
      match this
      case Cnt(c) => c.values == map[]
      case Val(v) => v.values == map[]
      case Hash(m) => m.values == map[]
      case Items(s) => s.values == map[]
      case Void(_) => true
    }

    /** The source has no answer for a Void. */
    predicate IsSubsumed(clock: Clock)
      requires !Void?
    {
      NoValues() && Contained(Context(), clock)
    }

    /** The least dots needed to rebuild the cube (for_each_dot); none is defined for a Void. */
    function Dots(): (r: set<Dot>)
      requires !Void?
    {
      match this
      case Cnt(c) => set i | i in c.values :: Dot(i, c.values[i].0)
      case Val(v) => v.values.Keys
      case Hash(m) => set i | i in m.dots :: Dot(i, m.dots[i])
      case Items(s) => set i | i in s.dots :: Dot(i, s.dots[i])
    }

    function Merge(other: Cube): (r: Cube) {
      match (this, other)
      case (Cnt(a), Cnt(b)) => Cnt(a.Merge(b))
      case (Val(a), Val(b)) => Val(a.Merge(b))
      case (Hash(a), Hash(b)) => Hash(a.Merge(b))
      case (Items(a), Items(b)) => Items(a.Merge(b))
      case (Void(vv), a) => a.MergeVoid(vv)
      case (a, Void(vv)) => a.MergeVoid(vv)
      // cubes of different types: the first in declaration order wins
      case (Cnt(_), _) => this
      case (_, Cnt(_)) => other
      case (Val(_), _) => this
      case (_, Val(_)) => other
      case (Hash(_), _) => this
      case (_, Hash(_)) => other
    }

    function MergeVoid(vv: VV): (r: Cube) {
      match this
      case Cnt(c) => Cnt(c.Merge(Counter(map[], vv)))
      case Val(v) => Val(v.Merge(Value(map[], vv)))
      case Hash(m) => Hash(m.Merge(MapCube(map[], map[], vv)))
      case Items(s) => Items(s.Merge(SetCube(map[], map[], vv)))
      case Void(o) => Void(VVMerge(o, vv))
    }
  }

  // ---------------------------------------------------------------- what a cube holds

  function Members(c: Cube): map<Bytes, set<Dot>> {
    if c.Items? then c.items.values else map[]
  }

  function Fields(c: Cube): map<Bytes, MapValue> {
    if c.Hash? then c.hash.values else map[]
  }

  function Counts(c: Cube): map<Id, (Version, int)> {
    if c.Cnt? then c.counter.values else map[]
  }

  function Siblings(c: Cube): map<Dot, Option<Bytes>> {
    if c.Val? then c.value.values else map[]
  }
}
