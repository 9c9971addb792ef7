/** What do_flush does with a batch of any commands (src/vnode.rs:376-431, src/vnode.rs:1000-1022): every write
    takes effect as if it came alone, with the version that is its turn. */
module BatchEffects {
  import opened Clocks
  import opened Cubes
  import opened Replicas
  import opened CommandEffects

  /** st's clock after n versions were given out at node. */
  ghost predicate Later(st: State, node: Id, n: nat, clock: Clock) {
    && Slice(clock, node) == BV(Slice(st.clock, node).base + n, {})
    && forall i :: i != node ==> Slice(clock, i) == Slice(st.clock, i)
  }

  lemma {:induction false} PrefixPrepared(st: State, node: Id, writes: seq<LocalWrite>)
    requires Slice(st.clock, node).Solid() && |Prepare(st, node, writes).1| == |writes|
    ensures Later(st, node, |writes|, Prepare(st, node, writes).0)
    ensures writes != [] ==> var n := |writes| - 1;
              && |Prepare(st, node, writes[..n]).1| == n && Prepare(st, node, writes).1[..n] == Prepare(st, node, writes[..n]).1
  {
    if writes != [] {
      PrefixPrepared(st, node, writes[..|writes| - 1]);
    }
  }

  /** Write i alone, where the writes before it have been given their versions. */
  ghost function Alone(st: State, node: Id, w: LocalWrite, clock: Clock): Flushed
    requires Slice(clock, node).Solid()
  {
    Flush(st.(clock := clock), node, w.key, w.cmd)
  }

  ghost predicate AloneGives(st: State, node: Id, w: LocalWrite, clock: Clock, cube: Cube)
    requires Slice(clock, node).Solid()
  {
    Alone(st, node, w, clock).Stored? && Alone(st, node, w, clock).cube == cube
  }

  lemma SamePrefix(cubes: seq<Cube>, rest: seq<Cube>, i: nat)
    requires i < |rest| <= |cubes| && cubes[..|rest|] == rest
    ensures cubes[i] == rest[i]
  {
  }

  lemma {:induction false} PreparedAlone(st: State, node: Id, writes: seq<LocalWrite>, i: nat) returns (clock: Clock)
    requires Slice(st.clock, node).Solid() && |Prepare(st, node, writes).1| == |writes| && i < |writes|
    requires !Prepare(st, node, writes).1[i].Void?
    ensures Later(st, node, i, clock) && AloneGives(st, node, writes[i], clock, Prepare(st, node, writes).1[i])
    decreases |writes|
  {
    var n := |writes| - 1;
    PrefixPrepared(st, node, writes);
    if i < n {
      SamePrefix(Prepare(st, node, writes).1, Prepare(st, node, writes[..n]).1, i);
      clock := PreparedAlone(st, node, writes[..n], i);
    } else {
      clock := LastTurn(st, node, writes);
    }
  }

  lemma LastTurn(st: State, node: Id, writes: seq<LocalWrite>) returns (clock: Clock)
    requires Slice(st.clock, node).Solid() && writes != [] && |Prepare(st, node, writes).1| == |writes|
    requires !Prepare(st, node, writes).1[|writes| - 1].Void?
    ensures var n := |writes| - 1;
            Later(st, node, n, clock) && AloneGives(st, node, writes[n], clock, Prepare(st, node, writes).1[n])
  {
    PrefixPrepared(st, node, writes);
    PrefixPrepared(st, node, writes[..|writes| - 1]);
    LastAlone(st, node, writes);
    clock := Prepare(st, node, writes[..|writes| - 1]).0;
  }

  lemma LastAlone(st: State, node: Id, writes: seq<LocalWrite>)
    requires Slice(st.clock, node).Solid() && writes != [] && |Prepare(st, node, writes).1| == |writes|
    requires !Prepare(st, node, writes).1[|writes| - 1].Void?
    ensures var n := |writes| - 1;
            var alone := Alone(st, node, writes[n], Prepare(st, node, writes[..n]).0);
            alone.Stored? && alone.cube == Prepare(st, node, writes).1[n]
  {
    var n := |writes| - 1;
    var clock := Prepare(st, node, writes[..n]).0;
    var after := Mutate(writes[n].cmd, node, Event(clock, node).1, Get(st.(clock := clock), writes[n].key));
    assert after.Some? && after.value == Prepare(st, node, writes).1[n];
  }

  lemma PutElsewhere(store: map<Key, Cube>, clock: Clock, key: Key, cube: Cube, k: Key)
    requires !cube.Void? && k != key
    ensures var store' := Put(store, clock, key, cube); (k in store' <==> k in store) && (k in store ==> store'[k] == store[k])
  {
  }

  /** Every key of the batch reads as its cube, and every dot is logged under its key. */
  lemma {:induction false} CommittedShows(st: State, clock: Clock, node: Id, writes: seq<LocalWrite>, cubes: seq<Cube>, i: nat)
    requires |cubes| == |writes| && (forall c :: c in cubes ==> !c.Void?) && DistinctTargets(writes) && i < |writes|
    ensures var end, d := Commit(st, clock, node, writes, cubes), Dot(node, Slice(st.clock, node).base + i + 1);
            && end.clock == clock && SameValues(Get(end, writes[i].key), cubes[i])
            && d in end.log && end.log[d] == writes[i].key
    decreases |writes|
  {
    var n := |writes| - 1;
    var mid := Commit(st, clock, node, writes[..n], cubes[..n]);
    var end := Commit(st, clock, node, writes, cubes);
    if i < n {
      CommittedShows(st, clock, node, writes[..n], cubes[..n], i);
      PutElsewhere(mid.store, clock, writes[n].key, cubes[n], writes[i].key);
    } else {
      PutShows(mid.store, clock, end.log, writes[n].key, cubes[n]);
    }
  }

  /** Each write of a batch that is stored reads back as if it had come alone, in its turn. */
  lemma BatchShows(st: State, node: Id, writes: seq<LocalWrite>, i: nat)
    requires Slice(st.clock, node).Solid() && DistinctTargets(writes) && i < |writes|
    requires |Prepare(st, node, writes).1| == |writes| && forall c :: c in Prepare(st, node, writes).1 ==> !c.Void?
    ensures var (clock, cubes) := Prepare(st, node, writes);
            var end, d := Commit(st, clock, node, writes, cubes), Dot(node, Slice(st.clock, node).base + i + 1);
            && d in end.log && end.log[d] == writes[i].key && Later(st, node, |writes|, end.clock)
            && exists turn :: Later(st, node, i, turn) && Alone(st, node, writes[i], turn).Stored?
                              && SameValues(Get(end, writes[i].key), Alone(st, node, writes[i], turn).cube)
  {
    var (clock, cubes) := Prepare(st, node, writes);
    assert cubes[i] in cubes;
    var turn := PreparedAlone(st, node, writes, i);
    CommittedShows(st, clock, node, writes, cubes, i);
    PrefixPrepared(st, node, writes);
  }

  /** Keys that the batch does not name are left alone. */
  lemma {:induction false} BatchElsewhere(st: State, clock: Clock, node: Id, writes: seq<LocalWrite>, cubes: seq<Cube>, k: Key)
    requires |cubes| == |writes| && (forall c :: c in cubes ==> !c.Void?) && forall w :: w in writes ==> w.key != k
    ensures var store := Commit(st, clock, node, writes, cubes).store;
            (k in store <==> k in st.store) && (k in st.store ==> store[k] == st.store[k])
    decreases |writes|
  {
    if writes != [] {
      var n := |writes| - 1;
      assert writes[n] in writes && cubes[n] in cubes;
      BatchElsewhere(st, clock, node, writes[..n], cubes[..n], k);
      PutElsewhere(Commit(st, clock, node, writes[..n], cubes[..n]).store, clock, writes[n].key, cubes[n], k);
    }
  }

  ghost predicate IsTypeError(st: State, w: LocalWrite) {
    !Get(st, w.key).Void? && !Only(Get(st, w.key), w.cmd)
  }

  ghost predicate AnyTypeError(st: State, writes: seq<LocalWrite>) {
    exists i :: 0 <= i < |writes| && IsTypeError(st, writes[i])
  }

  /** A batch fails exactly when one of its commands does not go with the type of its key. */
  lemma {:induction false} BatchFailsIff(st: State, node: Id, writes: seq<LocalWrite>)
    requires Slice(st.clock, node).Solid()
    ensures |Prepare(st, node, writes).1| < |writes| <==> AnyTypeError(st, writes)
    decreases |writes|
  {
    if writes != [] {
      BatchFailsIff(st, node, writes[..|writes| - 1]);
      LastFailsIff(st, node, writes);
      AnyButLast(st, writes);
    }
  }

  lemma AnyButLast(st: State, writes: seq<LocalWrite>)
    requires writes != []
    ensures var n := |writes| - 1; AnyTypeError(st, writes) <==> AnyTypeError(st, writes[..n]) || IsTypeError(st, writes[n])
  {
    var n := |writes| - 1;
    if i :| 0 <= i < n && IsTypeError(st, writes[..n][i]) {
      assert IsTypeError(st, writes[i]);
    }
    if i :| 0 <= i < |writes| && IsTypeError(st, writes[i]) {
      assert i < n ==> writes[..n][i] == writes[i];
    }
  }

  lemma MutateFailsIff(st: State, clock: Clock, node: Id, version: Version, w: LocalWrite)
    ensures Mutate(w.cmd, node, version, Get(st.(clock := clock), w.key)).None? <==> IsTypeError(st, w)
  {
  }

  lemma LastFailsIff(st: State, node: Id, writes: seq<LocalWrite>)
    requires Slice(st.clock, node).Solid() && writes != []
    ensures var n := |writes| - 1;
            |Prepare(st, node, writes).1| < |writes| <==>
              |Prepare(st, node, writes[..n]).1| < n || IsTypeError(st, writes[n])
  {
    var n := |writes| - 1;
    var clock := Prepare(st, node, writes[..n]).0;
    MutateFailsIff(st, clock, node, Event(clock, node).1, writes[n]);
  }
}
