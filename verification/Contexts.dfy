/** The context a key reads with never goes back on a replica, although cubes without values are
    deleted and read back as a Void made from the clock (src/cubes.rs:43-78, src/vnode.rs:990-1067,
    src/version_vector.rs:629-631). */
module Contexts {
  import opened Clocks
  import opened Cubes
  import opened Replicas

  /** What can happen to a replica: a command, a replicated cube, the clock of a success fin. */
  datatype Op =
    | Local(key: Key, cmd: Command)
    | Remote(key: Key, cube: Cube, reply: bool)
    | Fin(clocks: Clock)

  /** The merge of b into what the key reads as keeps the context: cubes of one type, or a Void and
      not a counter, whose merge does not join contexts. */
  predicate Joins(a: Cube, b: Cube) {
    match b
    case Cnt(_) => a.Cnt?
    case Val(_) => a.Val? || a.Void?
    case Hash(_) => a.Hash? || a.Void?
    case Items(_) => a.Items? || a.Void?
    case Void(_) => false
  }

  ghost predicate Possible(st: State, node: Id, op: Op) {
    match op
    case Local(key, cmd) => Slice(st.clock, node).Solid() && !Flush(st, node, key, cmd).Panicked?
    case Remote(key, cube, _) => Joins(Get(st, key), cube)
    case Fin(clocks) => NormalClock(clocks)
  }

  ghost function Next(st: State, node: Id, op: Op): State
    requires Possible(st, node, op)
  {
    match op
    case Local(key, cmd) => Flush(st, node, key, cmd).state
    case Remote(key, cube, reply) => SetRemote(st, key, cube, reply).0
    case Fin(clocks) => st.(clock := ClockMerge(st.clock, clocks))
  }

  ghost predicate AllPossible(st: State, node: Id, ops: seq<Op>)
    decreases |ops|
  {
    ops == [] || (Possible(st, node, ops[0]) && AllPossible(Next(st, node, ops[0]), node, ops[1..]))
  }

  ghost function After(st: State, node: Id, ops: seq<Op>): State
    requires AllPossible(st, node, ops)
    decreases |ops|
  {
    if ops == [] then st else After(Next(st, node, ops[0]), node, ops[1..])
  }

  // ---------------------------------------------------------------- clocks

  /** A clock that knows more has no smaller interval. */
  lemma BasesGrow(c: Clock, c': Clock)
    requires NormalClock(c) && NormalClock(c') && ClockWithin(c, c')
    ensures Descends(Bases(c'), Bases(c))
  {
    forall i | i in c
      ensures i in c' && c[i].base <= c'[i].base
    {
      assert !c'[i].Contains(c'[i].base + 1);
    }
  }

  lemma EventGrows(c: Clock, node: Id)
    requires NormalClock(c) && Slice(c, node).Solid()
    ensures NormalClock(Event(c, node).0) && ClockWithin(c, Event(c, node).0)
  {
    AddInserts(Slice(c, node), Slice(c, node).base + 1);
  }

  lemma MergeGrows(c: Clock, clocks: Clock)
    requires NormalClock(c) && NormalClock(clocks)
    ensures NormalClock(ClockMerge(c, clocks)) && ClockWithin(c, ClockMerge(c, clocks))
  {
    ClockMergeUnites(c, clocks);
  }

  // ---------------------------------------------------------------- cubes

  lemma DescendsTrans(a: VV, b: VV, c: VV)
    requires Descends(a, b) && Descends(b, c)
    ensures Descends(a, c)
  {
  }

  lemma MutateGrows(cmd: Command, id: Id, version: Version, cube: Cube)
    requires Mutate(cmd, id, version, cube).Some?
    ensures Descends(Mutate(cmd, id, version, cube).value.Context(), cube.Context())
  {
  }

  lemma JoinGrows(a: Cube, b: Cube)
    requires Joins(a, b)
    ensures Descends(a.Merge(b).Context(), a.Context())
  {
  }

  /** A cube that is stored or stripped reads back with its values and no smaller context. */
  lemma StrippingIsLossless(st: State, clock: Clock, key: Key, cube: Cube)
    requires !cube.Void?
    ensures var read := Get(st.(clock := clock, store := Put(st.store, clock, key, cube)), key);
            && Descends(read.Context(), cube.Context())
            && (read == cube || (read.Void? && cube.NoValues()))
  {
  }

  // ---------------------------------------------------------------- one step

  /** The key was written: what is stored came from a context that grew. */
  lemma WrittenGrows(st: State, st': State, clock: Clock, key: Key, cube: Cube, k: Key)
    requires !cube.Void? && st'.clock == clock && st'.store == Put(st.store, clock, key, cube)
    requires Descends(cube.Context(), Get(st, key).Context()) && Descends(Bases(clock), Bases(st.clock))
    ensures Descends(Get(st', k).Context(), Get(st, k).Context())
  {
    if k == key {
      StrippingIsLossless(st, clock, key, cube);
      DescendsTrans(Get(st', k).Context(), cube.Context(), Get(st, k).Context());
    }
  }

  lemma LocalGrows(st: State, node: Id, key: Key, cmd: Command, k: Key)
    requires NormalClock(st.clock) && Possible(st, node, Local(key, cmd))
    ensures var st' := Next(st, node, Local(key, cmd));
            NormalClock(st'.clock) && Descends(Get(st', k).Context(), Get(st, k).Context())
  {
    var (clock, version) := Event(st.clock, node);
    EventGrows(st.clock, node);
    BasesGrow(st.clock, clock);
    var f := Flush(st, node, key, cmd);
    if f.Stored? {
      MutateGrows(cmd, node, version, Get(st, key));
      WrittenGrows(st, f.state, clock, key, f.cube, k);
    }
  }

  lemma RemoteShape(st: State, key: Key, cube: Cube, reply: bool)
    requires !cube.Void?
    ensures var st', merged := SetRemote(st, key, cube, reply).0, Get(st, key).Merge(cube);
            && st'.clock == ClockAddSet(st.clock, cube.Dots()) && !merged.Void?
            && if exists d :: d in cube.Dots() && IsNew(st.clock, d) then st'.store == Put(st.store, st'.clock, key, merged)
               else st'.store == st.store
  {
    MergeNotVoid(Get(st, key), cube);
    if d :| d in cube.Dots() && IsNew(st.clock, d) {
      assert d in (set e | e in cube.Dots() && IsNew(st.clock, e));
    }
  }

  lemma RemoteGrows(st: State, key: Key, cube: Cube, reply: bool, k: Key)
    requires NormalClock(st.clock) && Joins(Get(st, key), cube)
    ensures var st' := SetRemote(st, key, cube, reply).0;
            NormalClock(st'.clock) && Descends(Get(st', k).Context(), Get(st, k).Context())
  {
    var st', merged := SetRemote(st, key, cube, reply).0, Get(st, key).Merge(cube);
    RemoteShape(st, key, cube, reply);
    ClockAddSetInserts(st.clock, cube.Dots());
    BasesGrow(st.clock, st'.clock);
    JoinGrows(Get(st, key), cube);
    if st'.store != st.store {
      WrittenGrows(st, st', st'.clock, key, merged, k);
    }
  }

  lemma StepGrows(st: State, node: Id, op: Op, k: Key)
    requires NormalClock(st.clock) && Possible(st, node, op)
    ensures var st' := Next(st, node, op);
            NormalClock(st'.clock) && Descends(Get(st', k).Context(), Get(st, k).Context())
  {
    match op
    case Local(key, cmd) => LocalGrows(st, node, key, cmd, k);
    case Remote(key, cube, reply) => RemoteGrows(st, key, cube, reply, k);
    case Fin(clocks) =>
      MergeGrows(st.clock, clocks);
      BasesGrow(st.clock, ClockMerge(st.clock, clocks));
  }

  // ---------------------------------------------------------------- every run

  /** Whatever happens in between, a key never reads with a smaller context than before. */
  lemma {:induction false} ContextsNeverRegress(st: State, node: Id, ops: seq<Op>, k: Key)
    requires NormalClock(st.clock) && AllPossible(st, node, ops)
    ensures Descends(Get(After(st, node, ops), k).Context(), Get(st, k).Context())
    decreases |ops|
  {
    if ops != [] {
      var st' := Next(st, node, ops[0]);
      StepGrows(st, node, ops[0], k);
      ContextsNeverRegress(st', node, ops[1..], k);
      DescendsTrans(Get(After(st, node, ops), k).Context(), Get(st', k).Context(), Get(st, k).Context());
    }
  }

  /** A counter that arrives where the key is missing: the context read before is kept exactly when
      the counter's own context covers it. */
  lemma NewCounterKeepsContextIff(st: State, key: Key, counter: Counter, reply: bool)
    requires NormalClock(st.clock) && key !in st.store && counter.values != map[]
    requires exists i :: i in counter.values && IsNew(st.clock, Dot(i, counter.values[i].0))
    ensures var st' := SetRemote(st, key, Cnt(counter), reply).0;
            Descends(Get(st', key).Context(), Get(st, key).Context()) <==> Descends(counter.vv, Bases(st.clock))
  {
    var i :| i in counter.values && IsNew(st.clock, Dot(i, counter.values[i].0));
    assert Dot(i, counter.values[i].0) in Cnt(counter).Dots();
    RemoteShape(st, key, Cnt(counter), reply);
    assert i in Get(st, key).Merge(Cnt(counter)).counter.values;
  }

  /** It need not. */
  lemma NewCounterLosesContext() returns (st: State, key: Key, counter: Counter)
    ensures NormalClock(st.clock)
    ensures !Descends(Get(SetRemote(st, key, Cnt(counter), false).0, key).Context(), Get(st, key).Context())
  {
    st, key := State(map[1 := BV(1, {})], map[], map[]), [];
    counter := Counter(map[2 := (1, 5)], map[2 := 1]);
    assert 2 in counter.values && IsNew(st.clock, Dot(2, counter.values[2].0));
    NewCounterKeepsContextIff(st, key, counter, false);
    assert 1 in Bases(st.clock) && 1 !in counter.vv;
  }
}
