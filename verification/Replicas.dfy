/** The storage layer of one replica (VNodeState in src/vnode.rs): a node clock, a store of
    cubes and a log from dots to keys. */
module Replicas {
  import opened Basics
  import opened Clocks
  import opened Cubes

  type Key = Bytes

  datatype State = State(clock: Clock, store: map<Key, Cube>, log: map<Dot, Key>)

  const BLANK := State(map[], map[], map[])

  /** storage_get: a missing key reads as a Void seeded with the clock's intervals. */
  function Get(st: State, key: Key): (r: Cube) {
    if key in st.store then st.store[key] else Void(Bases(st.clock))
  }

  /** What clocks.add would report. */
  predicate IsNew(c: Clock, d: Dot) {
    !Slice(c, d.id).Contains(d.version)
  }

  /** The clock after adding dots one by one. */
  function AddDots(c: Clock, dots: seq<Dot>): (r: Clock) {
    if dots == [] then c else ClockAdd(AddDots(c, dots[..|dots| - 1]), dots[|dots| - 1]).0
  }

  /** The ids a clock has an entry for after adding dots. */
  ghost predicate HasEntry(c: Clock, dots: seq<Dot>, i: Id) {
    i in c || exists d :: d in dots && d.id == i
  }

  lemma {:induction false} AddDotsInserts(c: Clock, dots: seq<Dot>)
    requires NormalClock(c)
    ensures NormalClock(AddDots(c, dots))
    ensures forall i, v: Version :: Slice(AddDots(c, dots), i).Contains(v) <==> Slice(c, i).Contains(v) || Dot(i, v) in dots
    ensures forall i :: i in AddDots(c, dots) <==> HasEntry(c, dots, i)
  {
    if dots != [] {
      var n := |dots| - 1;
      var rest, last := dots[..n], dots[n];
      AddDotsInserts(c, rest);
      AddInserts(Slice(AddDots(c, rest), last.id), last.version);
      assert dots == rest + [last];
    }
  }

  /** The order of the additions does not show in the clock. */
  lemma AddDotsAnyOrder(c: Clock, a: seq<Dot>, b: seq<Dot>)
    requires NormalClock(c)
    requires forall d :: d in a <==> d in b
    ensures AddDots(c, a) == AddDots(c, b)
  {
    AddDotsInserts(c, a);
    AddDotsInserts(c, b);
    var l, r := AddDots(c, a), AddDots(c, b);
    assert forall i :: HasEntry(c, a, i) <==> HasEntry(c, b, i);
    assert l.Keys == r.Keys;
    forall i | i in l ensures l[i] == r[i] {
      assert Slice(l, i) == l[i] && Slice(r, i) == r[i];
      NormalFormUnique(l[i], r[i]);
    }
  }

  ghost function Enumerate(dots: set<Dot>): (r: seq<Dot>)
    ensures forall d :: d in r <==> d in dots
  {
    if dots == {} then []
    else
      var d :| d in dots;
      Enumerate(dots - {d}) + [d]
  }

  /** The clock after adding a set of dots. */
  ghost function ClockAddSet(c: Clock, dots: set<Dot>): (r: Clock) {
    AddDots(c, Enumerate(dots))
  }

  lemma ClockAddSetInserts(c: Clock, dots: set<Dot>)
    requires NormalClock(c)
    ensures NormalClock(ClockAddSet(c, dots))
    ensures forall e: Dot :: Has(c, e) || e in dots ==> Has(ClockAddSet(c, dots), e)
    ensures forall e: Dot :: Has(ClockAddSet(c, dots), e) ==> Has(c, e) || e in dots || e.version == 0
    ensures ClockWithin(c, ClockAddSet(c, dots))
  {
    var r := ClockAddSet(c, dots);
    AddDotsInserts(c, Enumerate(dots));
    forall e: Dot ensures Slice(r, e.id).Contains(e.version) <==> Slice(c, e.id).Contains(e.version) || e in dots {
      assert e == Dot(e.id, e.version);
    }
    forall i | i in c ensures i in r && Within(c[i], r[i]) {
      assert HasEntry(c, Enumerate(dots), i);
      assert Slice(c, i) == c[i] && Slice(r, i) == r[i];
    }
  }

  lemma {:induction false} AddDotsKnown(c: Clock, dots: seq<Dot>)
    requires NormalClock(c) && forall d :: d in dots ==> Has(c, d)
    ensures AddDots(c, dots) == c
  {
    if dots != [] {
      AddDotsKnown(c, dots[..|dots| - 1]);
      assert dots[|dots| - 1] in dots;
    }
  }

  function Put(store: map<Key, Cube>, clock: Clock, key: Key, cube: Cube): (r: map<Key, Cube>)
    requires !cube.Void?
  {
    if cube.IsSubsumed(clock) then store - {key} else store[key := cube]
  }

  lemma MergeNotVoid(a: Cube, b: Cube)
    requires !b.Void?
    ensures !a.Merge(b).Void?
  {
  }

  /** storage_set_remote for one write: the dots not seen yet are added and logged, and only
      then is the merged cube stored. */
  ghost function SetRemote(st: State, key: Key, proposed: Cube, reply: bool): (r: (State, Option<Cube>))
    requires !proposed.Void?
  {
    var before := Get(st, key);
    var unseen := set d | d in proposed.Dots() && IsNew(st.clock, d);
    var clock := ClockAddSet(st.clock, proposed.Dots());
    var merged := before.Merge(proposed);
    MergeNotVoid(before, proposed);
    if unseen == {} then (st.(clock := clock), if reply then Some(merged) else None)
    else (State(clock, Put(st.store, clock, key, merged), st.log + map d | d in unseen :: key),
          if reply then Some(merged) else None)
  }

  datatype RemoteWrite = RemoteWrite(key: Key, cube: Cube, reply: bool)

  ghost predicate DistinctKeys(writes: seq<RemoteWrite>) {
    forall i, j :: 0 <= i < j < |writes| ==> writes[i].key != writes[j].key
  }

  /** A batch, one write after the other. */
  ghost function SetRemoteAll(st: State, writes: seq<RemoteWrite>): (r: (State, seq<Option<Cube>>))
    requires forall w :: w in writes ==> !w.cube.Void?
  {
    if writes == [] then (st, [])
    else
      var n := |writes| - 1;
      var (mid, results) := SetRemoteAll(st, writes[..n]);
      var (end, result) := SetRemote(mid, writes[n].key, writes[n].cube, writes[n].reply);
      (end, results + [result])
  }

  // ---------------------------------------------------------------- local writes

  /** The mutators of src/command.rs. HSet carries the coordinator's wall clock. */
  datatype Command =
    | Assign(value: Bytes, ctx: VV)
    | Delete(ctx: VV)
    | SAdd(item: Bytes)
    | SRem(item: Bytes)
    | HSet(field: Bytes, content: Bytes, timestamp: nat)
    | HDel(field: Bytes)
    | IncrBy(amount: int)
    | CSet(total: int)

  /** The cube after the command, or None for a type error. */
  function Mutate(cmd: Command, id: Id, version: Version, cube: Cube): (r: Option<Cube>) {
    match cmd
    case Assign(value, ctx) => (
      match cube
      case Val(v) => Some(Val(v.Set(id, version, Some(value), ctx)))
      case Void(vv) => Some(Val(Value(map[], vv).Set(id, version, Some(value), ctx)))
      case _ => None)
    case Delete(ctx) => (
      match cube
      case Cnt(c) => Some(Cnt(c.Clear(id, version)))
      case Val(v) => Some(Val(v.Set(id, version, None, ctx)))
      case Hash(m) => Some(Hash(m.Clear(id, version)))
      case Items(s) => Some(Items(s.Clear(id, version)))
      case Void(_) => Some(cube))
    case SAdd(item) => (
      match cube
      case Items(s) => Some(Items(s.Insert(id, version, item)))
      case Void(vv) => Some(Items(SetCube(map[], map[], vv).Insert(id, version, item)))
      case _ => None)
    case SRem(item) => (
      match cube
      case Items(s) => Some(Items(s.Remove(id, version, item)))
      case Void(vv) => Some(Items(SetCube(map[], map[], vv).Remove(id, version, item)))
      case _ => None)
    case HSet(field, content, timestamp) => (
      match cube
      case Hash(m) => Some(Hash(m.Insert(id, version, field, content, timestamp)))
      case Void(vv) => Some(Hash(MapCube(map[], map[], vv).Insert(id, version, field, content, timestamp)))
      case _ => None)
    case HDel(field) => (
      match cube
      case Hash(m) => Some(Hash(m.Remove(id, version, field)))
      case Void(vv) => Some(Hash(MapCube(map[], map[], vv).Remove(id, version, field)))
      case _ => None)
    case IncrBy(amount) => (
      match cube
      case Cnt(c) => Some(Cnt(c.Inc(id, version, amount)))
      case Void(vv) => Some(Cnt(Counter(map[], vv).Inc(id, version, amount)))
      case _ => None)
    case CSet(total) => (
      match cube
      case Cnt(c) => Some(Cnt(c.Clear(id, version).Inc(id, version, total)))
      case Void(vv) => Some(Cnt(Counter(map[], vv).Clear(id, version).Inc(id, version, total)))
      case _ => None)
  }

  datatype Flushed =
    | Stored(state: State, cube: Cube)
    | Rejected(state: State)  // type error: the version is spent, nothing is stored
    | Panicked                // the cube is still a Void: is_subsumed is unreachable!()

  /** do_flush and storage_set_local for one write on node. */
  function Flush(st: State, node: Id, key: Key, cmd: Command): (r: Flushed)
    requires Slice(st.clock, node).Solid()
  {
    var (clock, version) := Event(st.clock, node);
    match Mutate(cmd, node, version, Get(st, key))
    case None => Rejected(st.(clock := clock))
    case Some(cube) =>
      if cube.Void? then Panicked
      else Stored(State(clock, Put(st.store, clock, key, cube), st.log[Dot(node, version) := key]), cube)
  }

  /** DEL of a key that reads as absent is the one command that trips the unreachable!(). */
  lemma FlushPanicsIff(st: State, node: Id, key: Key, cmd: Command)
    requires Slice(st.clock, node).Solid()
    ensures Flush(st, node, key, cmd).Panicked? <==> cmd.Delete? && Get(st, key).Void?
  {
  }

  datatype LocalWrite = LocalWrite(key: Key, cmd: Command)

  ghost predicate DistinctTargets(writes: seq<LocalWrite>) {
    forall i, j :: 0 <= i < j < |writes| ==> writes[i].key != writes[j].key
  }

  /** do_flush's first loop: a version and a cube for each write, reading the store as it was,
      up to the first type error. */
  function Prepare(st: State, node: Id, writes: seq<LocalWrite>): (r: (Clock, seq<Cube>))
    requires Slice(st.clock, node).Solid()
    ensures Slice(r.0, node).Solid() && |r.1| <= |writes|
    ensures Slice(r.0, node).base == Slice(st.clock, node).base + if |r.1| < |writes| then |r.1| + 1 else |writes|
  {
    if writes == [] then (st.clock, [])
    else
      var last := writes[|writes| - 1];
      var (clock, cubes) := Prepare(st, node, writes[..|writes| - 1]);
      if |cubes| < |writes| - 1 then (clock, cubes)
      else
        var (clock', version) := Event(clock, node);
        match Mutate(last.cmd, node, version, Get(st.(clock := clock), last.key))
        case None => (clock', cubes)
        case Some(cube) => (clock', cubes + [cube])
  }

  lemma PrepareStep(st: State, node: Id, writes: seq<LocalWrite>, i: nat)
    requires Slice(st.clock, node).Solid() && i < |writes| && |Prepare(st, node, writes[..i]).1| == i
    ensures var (clock, cubes) := Prepare(st, node, writes[..i]);
            var (clock', version) := Event(clock, node);
            var after := Mutate(writes[i].cmd, node, version, Get(st.(clock := clock), writes[i].key));
            Prepare(st, node, writes[..i + 1]) == (clock', if after.None? then cubes else cubes + [after.value])
  {
    assert writes[..i + 1][..i] == writes[..i];
  }

  /** storage_set_local: one batch, checked against the final clock. */
  function Commit(st: State, clock: Clock, node: Id, writes: seq<LocalWrite>, cubes: seq<Cube>): (r: State)
    requires |cubes| == |writes| && forall c :: c in cubes ==> !c.Void?
  {
    if writes == [] then st.(clock := clock)
    else
      var n := |writes| - 1;
      var mid := Commit(st, clock, node, writes[..n], cubes[..n]);
      State(clock, Put(mid.store, clock, writes[n].key, cubes[n]),
            mid.log[Dot(node, Slice(st.clock, node).base + |writes|) := writes[n].key])
  }

  /** The same writes one by one, as long as each is stored. */
  ghost predicate FlushesTo(st: State, node: Id, writes: seq<LocalWrite>, end: State, cubes: seq<Cube>) {
    if writes == [] then end == st && cubes == []
    else
      var n := |writes| - 1;
      exists mid ::
        && cubes != [] && FlushesTo(st, node, writes[..n], mid, cubes[..|cubes| - 1])
        && Slice(mid.clock, node).Solid()
        && Flush(mid, node, writes[n].key, writes[n].cmd) == Stored(end, cubes[|cubes| - 1])
  }

  lemma ValueFlush(st: State, node: Id, w: LocalWrite, end: State, cube: Cube)
    requires w.cmd.Assign? || w.cmd.Delete?
    requires Slice(st.clock, node).Solid() && Flush(st, node, w.key, w.cmd) == Stored(end, cube)
    requires Get(st, w.key).Val? || Get(st, w.key).Void?
    ensures cube.Val? && !cube.NoValues()
    ensures var (clock, version) := Event(st.clock, node);
            end == State(clock, st.store[w.key := cube], st.log[Dot(node, version) := w.key])
  {
    assert Dot(node, Event(st.clock, node).1) in cube.value.values;
  }

  /** The writes did not touch key k. */
  ghost predicate Untouched(st: State, end: State, writes: seq<LocalWrite>, k: Key) {
    (forall w :: w in writes ==> w.key != k) ==>
      (k in end.store <==> k in st.store) && (k in st.store ==> end.store[k] == st.store[k])
  }

  ghost predicate BatchGives(st: State, node: Id, writes: seq<LocalWrite>, end: State, cubes: seq<Cube>)
    requires Slice(st.clock, node).Solid()
  {
    && Prepare(st, node, writes) == (end.clock, cubes)
    && |cubes| == |writes| && (forall c :: c in cubes ==> c.Val? && !c.NoValues())
    && (forall clock :: Commits(st, clock, node, writes, cubes, end))
  }

  /** Whatever clock the batch is checked against. */
  ghost predicate Commits(st: State, clock: Clock, node: Id, writes: seq<LocalWrite>, cubes: seq<Cube>, end: State)
    requires |cubes| == |writes| && forall c :: c in cubes ==> !c.Void?
  {
    var r := Commit(st, clock, node, writes, cubes);
    r.clock == clock && r.store == end.store && r.log == end.log
  }

  ghost predicate Follows(st: State, node: Id, writes: seq<LocalWrite>, end: State) {
    && Slice(end.clock, node) == BV(Slice(st.clock, node).base + |writes|, {})
    && (forall k :: k in end.store ==> end.store[k].Val?)
    && (forall k :: Untouched(st, end, writes, k))
  }

  /** A batch of Value writes on distinct keys is the same as its writes one after the other,
      so single writes are all the replication protocol has to look at. */
  lemma {:induction false} BatchIsSequence(st: State, node: Id, writes: seq<LocalWrite>, end: State, cubes: seq<Cube>)
    requires Slice(st.clock, node).Solid() && DistinctTargets(writes)
    requires forall k :: k in st.store ==> st.store[k].Val?
    requires forall w :: w in writes ==> w.cmd.Assign? || w.cmd.Delete?
    requires FlushesTo(st, node, writes, end, cubes)
    ensures BatchGives(st, node, writes, end, cubes) && Follows(st, node, writes, end)
  {
    if writes != [] {
      var n := |writes| - 1;
      var init, w, rest, cube := writes[..n], writes[n], cubes[..|cubes| - 1], cubes[|cubes| - 1];
      SplitLast(writes);
      SplitLast(cubes);
      var mid := BeforeLast(st, node, writes, end, cubes);
      BatchIsSequence(st, node, init, mid, rest);
      SequenceStep(st, node, init, mid, rest, w, end, cube);
    }
  }

  lemma BeforeLast(st: State, node: Id, writes: seq<LocalWrite>, end: State, cubes: seq<Cube>) returns (mid: State)
    requires writes != [] && FlushesTo(st, node, writes, end, cubes)
    ensures cubes != [] && FlushesTo(st, node, writes[..|writes| - 1], mid, cubes[..|cubes| - 1])
    ensures Slice(mid.clock, node).Solid()
    ensures var w := writes[|writes| - 1]; Flush(mid, node, w.key, w.cmd) == Stored(end, cubes[|cubes| - 1])
  {
    var n := |writes| - 1;
    mid :| && FlushesTo(st, node, writes[..n], mid, cubes[..|cubes| - 1])
           && Slice(mid.clock, node).Solid()
           && Flush(mid, node, writes[n].key, writes[n].cmd) == Stored(end, cubes[|cubes| - 1]);
  }

  lemma SequenceStep(st: State, node: Id, init: seq<LocalWrite>, mid: State, rest: seq<Cube>,
    w: LocalWrite, end: State, cube: Cube)
    requires Slice(st.clock, node).Solid() && DistinctTargets(init + [w]) && (w.cmd.Assign? || w.cmd.Delete?)
    requires BatchGives(st, node, init, mid, rest) && Follows(st, node, init, mid)
    requires Flush(mid, node, w.key, w.cmd) == Stored(end, cube)
    ensures BatchGives(st, node, init + [w], end, rest + [cube]) && Follows(st, node, init + [w], end)
  {
    LastUntouched(st, mid, init, w);
    ValueFlush(mid, node, w, end, cube);
    BatchStep(st, node, init, mid, rest, w, end, cube);
    FollowsStep(st, node, init, mid, w, end, cube);
  }

  lemma SplitLast<T>(s: seq<T>)
    requires s != []
    ensures s == s[..|s| - 1] + [s[|s| - 1]]
  {
  }

  lemma AppendLast<T>(s: seq<T>, x: T)
    ensures (s + [x])[..|s|] == s && (s + [x])[|s|] == x
  {
  }

  lemma LastUntouched(st: State, mid: State, init: seq<LocalWrite>, w: LocalWrite)
    requires DistinctTargets(init + [w]) && Untouched(st, mid, init, w.key)
    ensures Get(mid, w.key) == Get(st.(clock := mid.clock), w.key)
  {
    forall v | v in init ensures v.key != w.key {
      var i :| 0 <= i < |init| && init[i] == v;
      assert (init + [w])[i] == v && (init + [w])[|init|] == w;
    }
  }

  lemma BatchStep(st: State, node: Id, init: seq<LocalWrite>, mid: State, rest: seq<Cube>,
    w: LocalWrite, end: State, cube: Cube)
    requires Slice(st.clock, node).Solid() && BatchGives(st, node, init, mid, rest)
    requires Slice(mid.clock, node) == BV(Slice(st.clock, node).base + |init|, {})
    requires Flush(mid, node, w.key, w.cmd) == Stored(end, cube)
    requires Get(mid, w.key) == Get(st.(clock := mid.clock), w.key)
    requires cube.Val? && !cube.NoValues()
    requires end.store == mid.store[w.key := cube]
    requires end.log == mid.log[Dot(node, Slice(st.clock, node).base + |init| + 1) := w.key]
    ensures BatchGives(st, node, init + [w], end, rest + [cube])
  {
    PrepareLast(st, node, init, mid, rest, w, end, cube);
    forall clock ensures Commits(st, clock, node, init + [w], rest + [cube], end) {
      CommitStep(st, clock, node, init, rest, mid, w, cube, end);
    }
  }

  lemma PrepareLast(st: State, node: Id, init: seq<LocalWrite>, mid: State, rest: seq<Cube>,
    w: LocalWrite, end: State, cube: Cube)
    requires Slice(st.clock, node).Solid() && Slice(mid.clock, node).Solid()
    requires Prepare(st, node, init) == (mid.clock, rest) && |rest| == |init|
    requires Flush(mid, node, w.key, w.cmd) == Stored(end, cube)
    requires Get(mid, w.key) == Get(st.(clock := mid.clock), w.key)
    ensures Prepare(st, node, init + [w]) == (end.clock, rest + [cube])
  {
    AppendLast(init, w);
    assert (init + [w])[..|init| + 1] == init + [w];
    PrepareStep(st, node, init + [w], |init|);
  }

  lemma CommitStep(st: State, clock: Clock, node: Id, init: seq<LocalWrite>, rest: seq<Cube>, mid: State,
    w: LocalWrite, cube: Cube, end: State)
    requires |init| == |rest| && (forall c :: c in rest ==> !c.Void?) && cube.Val? && !cube.NoValues()
    requires Commits(st, clock, node, init, rest, mid)
    requires end.store == mid.store[w.key := cube]
    requires end.log == mid.log[Dot(node, Slice(st.clock, node).base + |init| + 1) := w.key]
    ensures Commits(st, clock, node, init + [w], rest + [cube], end)
  {
    var writes, cubes := init + [w], rest + [cube];
    AppendLast(init, w);
    AppendLast(rest, cube);
  }

  lemma FollowsStep(st: State, node: Id, init: seq<LocalWrite>, mid: State, w: LocalWrite, end: State, cube: Cube)
    requires Follows(st, node, init, mid) && cube.Val?
    requires var (clock, version) := Event(mid.clock, node);
             end == State(clock, mid.store[w.key := cube], mid.log[Dot(node, version) := w.key])
    ensures Follows(st, node, init + [w], end)
  {
    forall k ensures Untouched(st, end, init + [w], k) {
      assert Untouched(st, mid, init, k);
      assert w in init + [w];
      assert forall v :: v in init ==> v in init + [w];
    }
  }
}