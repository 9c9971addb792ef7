/** The storage methods of VNodeState (src/vnode.rs) as they run: the clock is updated in
    place, writes to the store and the log are collected in a batch and applied at the end. */
module VNodeStates {
  import opened Basics
  import opened Clocks
  import opened Cubes
  import opened Replicas

  datatype BatchOutcome = Written | TypeError | Panicked

  /** What a batch does to the store; None deletes the key. */
  function WithPuts(store: map<Key, Cube>, puts: map<Key, Option<Cube>>): (r: map<Key, Cube>) {
    map k | k in store.Keys + puts.Keys && (k in puts ==> puts[k].Some?) ::
      if k in puts then puts[k].value else store[k]
  }

  lemma WithPutsStep(store: map<Key, Cube>, puts: map<Key, Option<Cube>>, clock: Clock, key: Key, cube: Cube)
    requires !cube.Void?
    ensures WithPuts(store, puts[key := if cube.IsSubsumed(clock) then None else Some(cube)]) ==
            Put(WithPuts(store, puts), clock, key, cube)
  {
  }

  lemma WithLogsStep(log: map<Dot, Key>, logs: map<Dot, Key>, dots: set<Dot>, key: Key)
    ensures log + (logs + map d | d in dots :: key) == (log + logs) + map d | d in dots :: key
  {
  }

  /** A key the batch has not touched reads as before. */
  lemma WithPutsGet(st: State, puts: map<Key, Option<Cube>>, log: map<Dot, Key>, key: Key)
    requires key !in puts
    ensures Get(st, key) == Get(State(st.clock, WithPuts(st.store, puts), log), key)
  {
  }

  function NewOf(clock: Clock, dots: set<Dot>): set<Dot> {
    set d | d in dots && IsNew(clock, d)
  }

  lemma NewOfNext(clock: Clock, dots: set<Dot>, d: Dot)
    ensures NewOf(clock, dots + {d}) == NewOf(clock, dots) + if IsNew(clock, d) then {d} else {}
  {
  }

  /** A dot not added before is reported as new exactly when the first clock did not have it. */
  lemma AddsNext(start: Clock, order: seq<Dot>, d: Dot)
    requires NormalClock(start) && d !in order
    ensures var clock := AddDots(start, order);
            var (bv, isNew) := Add(Slice(clock, d.id), d.version);
            AddDots(start, order + [d]) == clock[d.id := bv] && (isNew <==> IsNew(start, d))
  {
    AddDotsInserts(start, order);
    AddInserts(Slice(AddDots(start, order), d.id), d.version);
    assert Dot(d.id, d.version) == d;
    assert (order + [d])[..|order|] == order;
  }

  /** What set_flush makes of a batch. */
  datatype Checked = Accepted(vnode: Option<nat>) | MultiplePartitions | MultipleKeyMutations

  /** The writes before i are on one vnode, and their keys do not come again. */
  ghost predicate FineBefore(writes: seq<LocalWrite>, vnodeOf: Key -> nat, i: nat)
    requires i <= |writes|
  {
    && (forall j :: 0 <= j < i ==> vnodeOf(writes[j].key) == vnodeOf(writes[0].key))
    && (forall j, k :: 0 <= j < i && j < k < |writes| ==> writes[j].key != writes[k].key)
  }

  /** A batch goes to do_flush exactly when its keys are distinct and on one vnode; otherwise the
      error is that of the first write that has one. */
  method SetFlush(writes: seq<LocalWrite>, vnodeOf: Key -> nat) returns (r: Checked)
    ensures r.Accepted? <==>
      DistinctTargets(writes) && forall i :: 0 <= i < |writes| ==> vnodeOf(writes[i].key) == vnodeOf(writes[0].key)
    ensures r.Accepted? ==> r.vnode == if writes == [] then None else Some(vnodeOf(writes[0].key))
    ensures r.MultiplePartitions? ==> exists i ::
      0 <= i < |writes| && FineBefore(writes, vnodeOf, i) && vnodeOf(writes[i].key) != vnodeOf(writes[0].key)
    ensures r.MultipleKeyMutations? ==> exists i, k ::
      0 <= i < k < |writes| && FineBefore(writes, vnodeOf, i) && writes[i].key == writes[k].key
  {
    var vnode: Option<nat> := None;
    for i := 0 to |writes|
      invariant FineBefore(writes, vnodeOf, i)
      invariant vnode == if i == 0 then None else Some(vnodeOf(writes[0].key))
    {
      var at := vnodeOf(writes[i].key);
      if vnode.None? {
        vnode := Some(at);
      } else if vnode != Some(at) {
        return MultiplePartitions;
      }
      for k := i + 1 to |writes|
        invariant forall j :: i < j < k ==> writes[i].key != writes[j].key
      {
        if writes[i].key == writes[k].key {
          return MultipleKeyMutations;
        }
      }
    }
    return Accepted(vnode);
  }

  class VNodeState {
    const node: Id
    var clock: Clock
    var store: map<Key, Cube>
    var log: map<Dot, Key>

    constructor (node: Id)
      ensures this.node == node && Model() == BLANK
    {
      this.node, clock, store, log := node, map[], map[], map[];
    }

    ghost function Model(): (st: State)
      reads this
    {
      State(clock, store, log)
    }

    method StorageGet(key: Key) returns (cube: Cube)
      ensures cube == Get(Model(), key)
    {
      if key in store {
        cube := store[key];
      } else {
        cube := Void(Bases(clock));
      }
    }

    /** Adds the dots of a proposed cube to the clock; unseen collects the new ones. */
    method AddAllDots(dots: set<Dot>) returns (unseen: set<Dot>)
      requires NormalClock(clock)
      modifies this`clock
      ensures clock == ClockAddSet(old(clock), dots) && NormalClock(clock)
      ensures unseen == NewOf(old(clock), dots)
    {
      ghost var start, order := clock, [];
      var todo := dots;
      unseen := {};
      while todo != {}
        invariant todo <= dots && NormalClock(start)
        invariant forall d :: d in order <==> d in dots && d !in todo
        invariant clock == AddDots(start, order)
        invariant unseen == NewOf(start, dots - todo)
        decreases todo
      {
        var d :| d in todo;
        AddsNext(start, order, d);
        NewOfNext(start, dots - todo, d);
        assert dots - (todo - {d}) == dots - todo + {d};
        todo := todo - {d};
        var (bv, isNew) := Add(Slice(clock, d.id), d.version);
        clock := clock[d.id := bv];
        if isNew {
          unseen := unseen + {d};
        }
        order := order + [d];
      }
      AddDotsInserts(start, order);
      AddDotsAnyOrder(start, order, Enumerate(dots));
    }

    /** One write of storage_set_remote: the clock moves on, the batch collects the rest. */
    method Stage(w: RemoteWrite, puts: map<Key, Option<Cube>>, logs: map<Dot, Key>)
      returns (puts': map<Key, Option<Cube>>, logs': map<Dot, Key>, result: Option<Cube>)
      requires NormalClock(clock) && !w.cube.Void? && w.key !in puts
      modifies this`clock
      ensures NormalClock(clock)
      ensures puts'.Keys <= puts.Keys + {w.key}
      ensures (State(clock, WithPuts(store, puts'), log + logs'), result) ==
              SetRemote(State(old(clock), WithPuts(store, puts), log + logs), w.key, w.cube, w.reply)
    {
      var before := StorageGet(w.key);
      WithPutsGet(Model(), puts, log + logs, w.key);
      var unseen := AddAllDots(w.cube.Dots());
      var merged := before.Merge(w.cube);
      MergeNotVoid(before, w.cube);
      puts', logs' := puts, logs;
      if unseen != {} {
        WithPutsStep(store, puts, clock, w.key, merged);
        puts' := puts[w.key := if merged.IsSubsumed(clock) then None else Some(merged)];
        WithLogsStep(log, logs, unseen, w.key);
        logs' := logs + map d | d in unseen :: w.key;
      }
      result := if w.reply then Some(merged) else None;
    }

    /** storage_set_remote. The keys of a batch are distinct: set_flush sees to that, and a sync
        sends one key at a time. */
    method StorageSetRemote(writes: seq<RemoteWrite>) returns (results: seq<Option<Cube>>)
      requires NormalClock(clock) && DistinctKeys(writes) && forall w :: w in writes ==> !w.cube.Void?
      modifies this
      ensures (Model(), results) == SetRemoteAll(old(Model()), writes)
      ensures NormalClock(clock)
    {
      ghost var start := Model();
      var puts: map<Key, Option<Cube>> := map[];
      var logs: map<Dot, Key> := map[];
      results := [];
      assert WithPuts(store, puts) == store && log + logs == log;
      for i := 0 to |writes|
        invariant store == start.store && log == start.log && NormalClock(clock)
        invariant forall k :: k in puts ==> exists j :: 0 <= j < i && writes[j].key == k
        invariant SetRemoteAll(start, writes[..i]) == (State(clock, WithPuts(store, puts), log + logs), results)
      {
        var result;
        puts, logs, result := Stage(writes[i], puts, logs);
        results := results + [result];
        assert writes[..i + 1][..i] == writes[..i];
      }
      assert writes[..|writes|] == writes;
      store, log := WithPuts(store, puts), log + logs;
    }

    /** do_flush of a batch: cubes are prepared against the store as it is, then written together; a
        type error spends the versions and writes nothing. A DEL of a key that is not there, in a batch
        without a type error, is the unreachable!() of is_subsumed: nothing is written either. */
    method DoFlush(writes: seq<LocalWrite>) returns (cubes: seq<Cube>, outcome: BatchOutcome)
      requires Slice(clock, node).Solid()
      requires forall k :: k in store ==> !store[k].Void?
      modifies this
      ensures cubes == Prepare(old(Model()), node, writes).1
      ensures outcome.TypeError? <==> |cubes| < |writes|
      ensures outcome.Panicked? <==> |cubes| == |writes| && exists w :: w in writes && w.cmd.Delete? && w.key !in old(store)
      ensures outcome.Written? ==> forall c :: c in cubes ==> !c.Void?
      ensures var clock' := Prepare(old(Model()), node, writes).0;
              Model() == if outcome.Written? then Commit(old(Model()), clock', node, writes, cubes)
                         else old(Model()).(clock := clock')
    {
      ghost var start := Model();
      var ok;
      cubes, ok := PrepareAll(writes);
      if !ok { return cubes, TypeError; }
      PreparedVoids(start, node, writes);
      if j :| 0 <= j < |cubes| && cubes[j].Void? {
        assert writes[j] in writes;
        return cubes, BatchOutcome.Panicked;
      }
      outcome := Written;
      StorageSetLocal(writes, cubes, start);
    }

    /** The first loop of do_flush. */
    method PrepareAll(writes: seq<LocalWrite>) returns (cubes: seq<Cube>, ok: bool)
      requires Slice(clock, node).Solid()
      modifies this`clock
      ensures (clock, cubes) == Prepare(old(Model()), node, writes) && ok == (|cubes| == |writes|)
    {
      ghost var start := Model();
      cubes, ok := [], true;
      var i := 0;
      while i < |writes| && ok
        invariant 0 <= i <= |writes|
        invariant (clock, cubes) == Prepare(start, node, writes[..i])
        invariant |cubes| == if ok then i else i - 1
      {
        PrepareStep(start, node, writes, i);
        var after := PrepareOne(writes[i]);
        if after.None? {
          ok := false;
        } else {
          cubes := cubes + [after.value];
        }
        i := i + 1;
      }
      if ok {
        assert writes[..|writes|] == writes;
      } else {
        PrepareStops(start, node, writes, i);
      }
    }

    /** One write of do_flush: read, take a version, mutate. */
    method PrepareOne(w: LocalWrite) returns (after: Option<Cube>)
      requires Slice(clock, node).Solid()
      modifies this`clock
      ensures clock == Event(old(clock), node).0
      ensures after == Mutate(w.cmd, node, Event(old(clock), node).1, Get(old(Model()), w.key))
    {
      var before := StorageGet(w.key);
      var (clock', version) := Event(clock, node);
      clock := clock';
      after := Mutate(w.cmd, node, version, before);
    }

    /** storage_set_local. */
    method StorageSetLocal(writes: seq<LocalWrite>, cubes: seq<Cube>, ghost start: State)
      requires |cubes| == |writes| && (forall c :: c in cubes ==> !c.Void?)
      requires store == start.store && log == start.log
      requires Slice(clock, node).base == Slice(start.clock, node).base + |writes|
      modifies this`store, this`log
      ensures Model() == Commit(start, clock, node, writes, cubes)
    {
      var first := Slice(clock, node).base - |writes|;
      for i := 0 to |writes|
        invariant State(clock, store, log) == Commit(start, clock, node, writes[..i], cubes[..i])
      {
        assert cubes[i] in cubes;
        CommitNext(start, clock, node, writes, cubes, i);
        store := Put(store, clock, writes[i].key, cubes[i]);
        log := log[Dot(node, first + i + 1) := writes[i].key];
      }
      assert writes[..|writes|] == writes && cubes[..|cubes|] == cubes;
    }
  }

  lemma CommitNext(st: State, clock: Clock, node: Id, writes: seq<LocalWrite>, cubes: seq<Cube>, i: nat)
    requires |cubes| == |writes| && i < |writes| && (forall c :: c in cubes ==> !c.Void?)
    ensures cubes[i] in cubes
    ensures var mid := Commit(st, clock, node, writes[..i], cubes[..i]);
            Commit(st, clock, node, writes[..i + 1], cubes[..i + 1])
            == State(clock, Put(mid.store, clock, writes[i].key, cubes[i]),
                     mid.log[Dot(node, Slice(st.clock, node).base + i + 1) := writes[i].key])
  {
    assert writes[..i + 1][..i] == writes[..i] && cubes[..i + 1][..i] == cubes[..i];
  }

  /** A cube is still a Void exactly when its write deletes a key that is not there. */
  lemma {:induction false} PreparedVoids(st: State, node: Id, writes: seq<LocalWrite>)
    requires Slice(st.clock, node).Solid() && forall k :: k in st.store ==> !st.store[k].Void?
    ensures var cubes := Prepare(st, node, writes).1;
            forall j :: 0 <= j < |cubes| ==> (cubes[j].Void? <==> writes[j].cmd.Delete? && writes[j].key !in st.store)
  {
    if writes != [] {
      var n := |writes| - 1;
      PreparedVoids(st, node, writes[..n]);
      if |Prepare(st, node, writes[..n]).1| < n {
        PrepareStops(st, node, writes, n);
      } else {
        PreparedVoid(st, node, writes, n);
      }
    }
  }

  lemma PreparedVoid(st: State, node: Id, writes: seq<LocalWrite>, n: nat)
    requires Slice(st.clock, node).Solid() && n + 1 == |writes| && |Prepare(st, node, writes[..n]).1| == n
    requires writes[n].key in st.store ==> !st.store[writes[n].key].Void?
    ensures var before, after := Prepare(st, node, writes[..n]).1, Prepare(st, node, writes).1;
            || after == before
            || (after == before + [after[n]] && (after[n].Void? <==> writes[n].cmd.Delete? && writes[n].key !in st.store))
  {
    PrepareStep(st, node, writes, n);
    assert writes[..n + 1] == writes;
  }

  /** After a type error Prepare goes no further. */
  lemma {:induction false} PrepareStops(st: State, node: Id, writes: seq<LocalWrite>, n: nat)
    requires Slice(st.clock, node).Solid() && n <= |writes|
    requires |Prepare(st, node, writes[..n]).1| < n
    ensures Prepare(st, node, writes) == Prepare(st, node, writes[..n])
    decreases |writes| - n
  {
    if n == |writes| {
      assert writes[..n] == writes;
    } else {
      assert writes[..n + 1][..n] == writes[..n];
      PrepareStops(st, node, writes, n + 1);
    }
  }
}