/** What merging and replicating does to what clients read (src/cubes.rs:90-131, src/version_vector.rs:765-784,
    src/vnode.rs:1024-1067): for all types, with a Void on either side, through Cube::merge,
    storage_set_remote and storage_get. */
module MergeEffects {
  import opened Basics
  import opened Clocks
  import opened Cubes
  import opened Replicas
  import opened CommandEffects

  // ---------------------------------------------------------------- merging

  predicate SetOrVoid(c: Cube) { c.Items? || c.Void? }

  predicate MapOrVoid(c: Cube) { c.Hash? || c.Void? }

  predicate CounterOrVoid(c: Cube) { c.Cnt? || c.Void? }

  predicate ValueOrVoid(c: Cube) { c.Val? || c.Void? }

  /** Contexts are joined, but not those of counters: there the counter's, or the left one's, stays. */
  lemma MergedContext(a: Cube, b: Cube, d: Dot)
    requires (SetOrVoid(a) && SetOrVoid(b)) || (MapOrVoid(a) && MapOrVoid(b)) || (ValueOrVoid(a) && ValueOrVoid(b))
    ensures Covers(a.Merge(b).Context(), d) <==> Covers(a.Context(), d) || Covers(b.Context(), d)
  {
  }

  /** The dot is one of both, or one of x that the other context has not. */
  ghost predicate Lives(x: set<Dot>, y: set<Dot>, xVV: VV, yVV: VV, d: Dot) {
    (d in x && d in y) || (d in x && !Covers(yVV, d)) || (d in y && !Covers(xVV, d))
  }

  /** Items of both keep their common and unseen dots, and go when none is left. Items of the left one stay
      as they are. Items of the right one come with their unseen dots, or as they are into a Void. */
  lemma SetsMerge(a: Cube, b: Cube, item: Bytes)
    requires SetOrVoid(a) && SetOrVoid(b) && !(a.Void? && b.Void?)
    ensures a.Merge(b).Items?
    ensures var l, r, m := Members(a), Members(b), Members(a.Merge(b));
            && (item !in l && item !in r ==> item !in m)
            && (item in l && item !in r ==> item in m && m[item] == l[item])
            && (item !in l && item in r && a.Void? ==> item in m && m[item] == r[item])
            && (item !in l && item in r && !a.Void? ==>
                  && (item in m <==> exists d :: d in r[item] && !Covers(a.Context(), d))
                  && (item in m ==> forall d :: d in m[item] <==> d in r[item] && !Covers(a.Context(), d)))
            && (item in l && item in r ==>
                  && (item in m <==> exists d :: Lives(l[item], r[item], a.Context(), b.Context(), d))
                  && (item in m ==> forall d :: d in m[item] <==> Lives(l[item], r[item], a.Context(), b.Context(), d)))
  {
    if item in Members(a) && item in Members(b) {
      var x, y := Members(a)[item], Members(b)[item];
      var m := DotSetMerge(x, y, a.Context(), b.Context());
      assert forall d :: d in m <==> Lives(x, y, a.Context(), b.Context(), d);
      if d :| Lives(x, y, a.Context(), b.Context(), d) {
        assert d in m;
      }
    } else if item in Members(b) {
      assert forall d :: d in DotSetMerge(Members(b)[item], {}, b.Context(), a.Context())
                         <==> d in Members(b)[item] && !Covers(a.Context(), d);
    }
  }

  /** Fields live by the same dots, and a field of both has the greatest of the two by time, then value. */
  lemma MapsMerge(a: Cube, b: Cube, field: Bytes)
    requires MapOrVoid(a) && MapOrVoid(b) && !(a.Void? && b.Void?)
    ensures a.Merge(b).Hash?
    ensures var l, r, m := Fields(a), Fields(b), Fields(a.Merge(b));
            && (field !in l && field !in r ==> field !in m)
            && (field in l && field !in r ==> field in m && m[field] == l[field])
            && (field !in l && field in r && a.Void? ==> field in m && m[field] == r[field])
            && (field !in l && field in r && !a.Void? ==>
                  && (field in m <==> exists d :: d in r[field].dots && !Covers(a.Context(), d))
                  && (field in m ==> m[field].value == r[field].value && m[field].timestamp == r[field].timestamp
                                     && forall d :: d in m[field].dots <==> d in r[field].dots && !Covers(a.Context(), d)))
            && (field in l && field in r ==>
                  && (field in m <==> exists d :: Lives(l[field].dots, r[field].dots, a.Context(), b.Context(), d))
                  && (field in m ==> IsLatest(l[field], r[field], m[field])
                                     && forall d :: d in m[field].dots <==>
                                                      Lives(l[field].dots, r[field].dots, a.Context(), b.Context(), d)))
  {
    if field in Fields(a) && field in Fields(b) {
      var x, y := Fields(a)[field], Fields(b)[field];
      MapLatestWins(x, y, a.Context(), b.Context());
      assert forall d :: d in DotSetMerge(x.dots, y.dots, a.Context(), b.Context())
                         <==> Lives(x.dots, y.dots, a.Context(), b.Context(), d);
    } else if field in Fields(b) {
      MapLatestWins(Fields(b)[field], Fields(b)[field], b.Context(), a.Context());
    }
  }

  ghost predicate IsLatest(x: MapValue, y: MapValue, m: MapValue) {
    && (m.timestamp, m.value) in {(x.timestamp, x.value), (y.timestamp, y.value)}
    && NotAfter(x, m) && NotAfter(y, m)
  }

  /** x was not written after m; at the same time the greater value counts as the later one. */
  predicate NotAfter(x: MapValue, m: MapValue) {
    x.timestamp < m.timestamp || (x.timestamp == m.timestamp && (x.value == m.value || Less(x.value, m.value)))
  }

  /** Of each node the count with the greatest version. */
  lemma CountersMerge(a: Cube, b: Cube, i: Id)
    requires CounterOrVoid(a) && CounterOrVoid(b) && !(a.Void? && b.Void?)
    ensures a.Merge(b).Cnt?
    ensures var l, r, m := Counts(a), Counts(b), Counts(a.Merge(b));
            && (i in m <==> i in l || i in r)
            && (i in m ==> || (i in l && m[i] == l[i] && (i in r ==> r[i].0 <= l[i].0))
                           || (i in r && m[i] == r[i] && (i in l ==> l[i].0 < r[i].0)))
    ensures a.Merge(b).Context() == if a.Cnt? then a.Context() else b.Context()
  {
  }

  /** Siblings of both stay, and those of one that the other has not seen. */
  lemma ValuesMerge(a: Cube, b: Cube, d: Dot)
    requires ValueOrVoid(a) && ValueOrVoid(b) && !(a.Void? && b.Void?)
    ensures a.Merge(b).Val?
    ensures var l, r, m := Siblings(a), Siblings(b), Siblings(a.Merge(b));
            && (d in m <==> (d in l && (d in r || !Covers(b.Context(), d))) || (d in r && d !in l && !Covers(a.Context(), d)))
            && (d in m ==> m[d] == if d in l then l[d] else r[d])
  {
  }

  function Rank(c: Cube): nat {
    match c
    case Cnt(_) => 0
    case Val(_) => 1
    case Hash(_) => 2
    case Items(_) => 3
    case Void(_) => 4
  }

  /** Cubes of different types are not merged: the one of the first type stays, in either order. */
  lemma TypesMerge(a: Cube, b: Cube)
    requires !a.Void? && !b.Void? && Rank(a) < Rank(b)
    ensures a.Merge(b) == a && b.Merge(a) == a
  {
  }

  lemma VoidsMerge(a: Cube, b: Cube, d: Dot)
    requires a.Void? && b.Void?
    ensures a.Merge(b).Void? && (Covers(a.Merge(b).Context(), d) <==> Covers(a.Context(), d) || Covers(b.Context(), d))
  {
  }

  // ---------------------------------------------------------------- replicating

  ghost predicate HasNew(clock: Clock, cube: Cube)
    requires !cube.Void?
  {
    exists d :: d in cube.Dots() && IsNew(clock, d)
  }

  lemma RemoteStores(st: State, key: Key, cube: Cube, reply: bool)
    requires !cube.Void?
    ensures var st', merged := SetRemote(st, key, cube, reply).0, Get(st, key).Merge(cube);
            && !merged.Void? && st'.clock == ClockAddSet(st.clock, cube.Dots())
            && st'.store == if HasNew(st.clock, cube) then Put(st.store, st'.clock, key, merged) else st.store
  {
    MergeNotVoid(Get(st, key), cube);
    if d :| d in cube.Dots() && IsNew(st.clock, d) {
      assert d in (set e | e in cube.Dots() && IsNew(st.clock, e));
    }
  }

  /** A cube with a dot that is new here is merged into what the key reads as; any other is skipped. Other
      keys are left alone. */
  lemma RemoteReads(st: State, key: Key, cube: Cube, reply: bool, k: Key)
    requires !cube.Void?
    ensures var st' := SetRemote(st, key, cube, reply).0;
            && (HasNew(st.clock, cube) ==> SameValues(Get(st', key), Get(st, key).Merge(cube)))
            && (!HasNew(st.clock, cube) ==> st'.store == st.store)
            && (k != key ==> (k in st'.store <==> k in st.store) && (k in st.store ==> st'.store[k] == st.store[k]))
  {
    RemoteStores(st, key, cube, reply);
    MergeNotVoid(Get(st, key), cube);
    var st' := SetRemote(st, key, cube, reply).0;
    PutShows(st.store, st'.clock, st'.log, key, Get(st, key).Merge(cube));
  }

  /** The clock gains its dots, the new ones are logged under the key, and the merged cube goes back if it
      was asked for. */
  lemma RemoteLogs(st: State, key: Key, cube: Cube, reply: bool, d: Dot)
    requires !cube.Void? && NormalClock(st.clock) && d.version != 0
    ensures var (st', back) := SetRemote(st, key, cube, reply);
            && (Has(st'.clock, d) <==> Has(st.clock, d) || d in cube.Dots())
            && (d in st'.log <==> d in st.log || (d in cube.Dots() && IsNew(st.clock, d)))
            && (d in st'.log ==> st'.log[d] == if d in cube.Dots() && IsNew(st.clock, d) then key else st.log[d])
            && (back.Some? <==> reply) && (reply ==> back.value == Get(st, key).Merge(cube))
  {
    ClockAddSetInserts(st.clock, cube.Dots());
    assert d in (set e | e in cube.Dots() && IsNew(st.clock, e)) <==> d in cube.Dots() && IsNew(st.clock, d);
  }

  // ---------------------------------------------------------------- the dots of what is stored

  /** The dots of every stored cube are in the clock. */
  ghost predicate DotsKnown(st: State) {
    NormalClock(st.clock) && forall k :: k in st.store ==> !st.store[k].Void? && AllKnown(st.clock, st.store[k])
  }

  ghost predicate AllKnown(clock: Clock, cube: Cube)
    requires !cube.Void?
  {
    forall d :: d in cube.Dots() ==> Slice(clock, d.id).Contains(d.version)
  }

  lemma KnownGrows(clock: Clock, clock': Clock, cube: Cube)
    requires !cube.Void? && AllKnown(clock, cube) && ClockWithin(clock, clock')
    ensures AllKnown(clock', cube)
  {
    forall d | d in cube.Dots() ensures Slice(clock', d.id).Contains(d.version) {
      assert Slice(clock, d.id).Contains(d.version);
    }
  }

  lemma MergedDots(a: Cube, b: Cube, d: Dot)
    requires !b.Void? && d in a.Merge(b).Dots()
    ensures d in b.Dots() || (!a.Void? && d in a.Dots())
  {
  }

  /** The dots of merged sets and maps are the latest of each node on either side. */
  lemma MergedDotsCover(a: Cube, b: Cube, d: Dot)
    ensures a.Items? && b.Items? ==>
              (Covers(a.Merge(b).items.dots, d) <==> Covers(a.items.dots, d) || Covers(b.items.dots, d))
    ensures a.Hash? && b.Hash? ==>
              (Covers(a.Merge(b).hash.dots, d) <==> Covers(a.hash.dots, d) || Covers(b.hash.dots, d))
    ensures a.Void? && b.Items? ==> a.Merge(b).items.dots == b.items.dots == b.Merge(a).items.dots
    ensures a.Void? && b.Hash? ==> a.Merge(b).hash.dots == b.hash.dots == b.Merge(a).hash.dots
  {
  }

  lemma MutatedDots(cmd: Command, node: Id, version: Version, cube: Cube, d: Dot)
    requires Mutate(cmd, node, version, cube).Some? && !Mutate(cmd, node, version, cube).value.Void?
    requires d in Mutate(cmd, node, version, cube).value.Dots()
    ensures d == Dot(node, version) || (!cube.Void? && d in cube.Dots())
  {
  }
}
