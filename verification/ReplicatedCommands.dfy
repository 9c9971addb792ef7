/** Commands on sets, maps and counters at one replica, and what another shows of them when the cube
    arrives (src/vnode.rs:376-466, src/vnode.rs:1024-1067, src/cubes.rs:61-70). What is added travels. What
    is taken away does not: merge keeps every item, field and count that is here and not in the cube. */
module ReplicatedCommands {
  import opened Basics
  import opened Clocks
  import opened Cubes
  import opened Replicas
  import opened CommandEffects
  import opened MergeEffects

  // ---------------------------------------------------------------- the dots of every run

  /** A command at node, a cube from elsewhere, or the clock of a fin. */
  ghost predicate Step(st: State, node: Id, st': State) {
    Writes(st, node, st') || Receives(st, st') || Joins(st, st')
  }

  ghost predicate Writes(st: State, node: Id, st': State) {
    && Slice(st.clock, node).Solid()
    && exists key, cmd :: !Flush(st, node, key, cmd).Panicked? && Flush(st, node, key, cmd).state == st'
  }

  ghost predicate Receives(st: State, st': State) {
    exists key, cube: Cube, reply :: !cube.Void? && SetRemote(st, key, cube, reply).0 == st'
  }

  ghost predicate Joins(st: State, st': State) {
    exists clocks :: NormalClock(clocks) && st' == st.(clock := ClockMerge(st.clock, clocks))
  }

  lemma EventWithin(c: Clock, node: Id)
    requires NormalClock(c) && Slice(c, node).Solid()
    ensures NormalClock(Event(c, node).0) && ClockWithin(c, Event(c, node).0)
  {
  }

  lemma PutKnown(st: State, clock: Clock, log: map<Dot, Key>, key: Key, cube: Cube)
    requires DotsKnown(st) && NormalClock(clock) && ClockWithin(st.clock, clock) && !cube.Void? && AllKnown(clock, cube)
    ensures DotsKnown(State(clock, Put(st.store, clock, key, cube), log))
  {
    forall k | k in st.store && k != key ensures AllKnown(clock, st.store[k]) {
      KnownGrows(st.clock, clock, st.store[k]);
    }
  }

  lemma SameStoreKnown(st: State, clock: Clock)
    requires DotsKnown(st) && NormalClock(clock) && ClockWithin(st.clock, clock)
    ensures DotsKnown(st.(clock := clock))
  {
    forall k | k in st.store ensures AllKnown(clock, st.store[k]) {
      KnownGrows(st.clock, clock, st.store[k]);
    }
  }

  lemma FlushKnown(st: State, node: Id, key: Key, cmd: Command)
    requires DotsKnown(st) && Slice(st.clock, node).Solid() && !Flush(st, node, key, cmd).Panicked?
    ensures DotsKnown(Flush(st, node, key, cmd).state)
  {
    var f := Flush(st, node, key, cmd);
    var (clock, version) := Event(st.clock, node);
    EventWithin(st.clock, node);
    if f.Rejected? {
      SameStoreKnown(st, clock);
    } else {
      forall d | d in f.cube.Dots() ensures Slice(clock, d.id).Contains(d.version) {
        MutatedDots(cmd, node, version, Get(st, key), d);
      }
      PutKnown(st, clock, f.state.log, key, f.cube);
    }
  }

  lemma RemoteKnown(st: State, key: Key, cube: Cube, reply: bool)
    requires DotsKnown(st) && !cube.Void?
    ensures DotsKnown(SetRemote(st, key, cube, reply).0)
  {
    var st', merged := SetRemote(st, key, cube, reply).0, Get(st, key).Merge(cube);
    RemoteStores(st, key, cube, reply);
    ClockAddSetInserts(st.clock, cube.Dots());
    SameStoreKnown(st, st'.clock);
    if HasNew(st.clock, cube) {
      forall d | d in merged.Dots() ensures Slice(st'.clock, d.id).Contains(d.version) {
        MergedDots(Get(st, key), cube, d);
        if d in cube.Dots() {
          assert Has(st'.clock, d);
        } else {
          KnownGrows(st.clock, st'.clock, Get(st, key));
        }
      }
      PutKnown(st, st'.clock, st'.log, key, merged);
    }
  }

  lemma StepKnown(st: State, node: Id, st': State)
    requires DotsKnown(st) && Step(st, node, st')
    ensures DotsKnown(st')
  {
    if Writes(st, node, st') {
      var key, cmd :| !Flush(st, node, key, cmd).Panicked? && Flush(st, node, key, cmd).state == st';
      FlushKnown(st, node, key, cmd);
    } else if Receives(st, st') {
      var key, cube: Cube, reply :| !cube.Void? && SetRemote(st, key, cube, reply).0 == st';
      RemoteKnown(st, key, cube, reply);
    } else {
      var clocks :| NormalClock(clocks) && st' == st.(clock := ClockMerge(st.clock, clocks));
      ClockMergeUnites(st.clock, clocks);
      SameStoreKnown(st, st'.clock);
    }
  }

  /** What happened to a replica, state by state. */
  ghost predicate IsHistory(node: Id, states: seq<State>) {
    states != [] && states[0] == BLANK && forall i :: 0 <= i < |states| - 1 ==> Step(states[i], node, states[i + 1])
  }

  lemma {:induction false} HistoryKnown(node: Id, states: seq<State>, i: nat)
    requires IsHistory(node, states) && i < |states|
    ensures DotsKnown(states[i])
  {
    if i > 0 {
      HistoryKnown(node, states, i - 1);
      assert Step(states[i - 1], node, states[i - 1 + 1]);
      StepKnown(states[i - 1], node, states[i]);
    }
  }

  // ---------------------------------------------------------------- what is added travels

  lemma OwnDotsBelow(st: State, node: Id, key: Key)
    requires DotsKnown(st) && Slice(st.clock, node).Solid()
    ensures var before := Get(st, key);
            && (before.Items? && node in before.items.dots ==> before.items.dots[node] <= Slice(st.clock, node).base)
            && (before.Hash? && node in before.hash.dots ==> before.hash.dots[node] <= Slice(st.clock, node).base)
            && (before.Cnt? && node in before.counter.values ==> before.counter.values[node].0 <= Slice(st.clock, node).base)
  {
    var before := Get(st, key);
    if before.Items? && node in before.items.dots {
      assert Dot(node, before.items.dots[node]) in before.Dots();
    } else if before.Hash? && node in before.hash.dots {
      assert Dot(node, before.hash.dots[node]) in before.Dots();
    } else if before.Cnt? && node in before.counter.values {
      assert Dot(node, before.counter.values[node].0) in before.Dots();
    }
  }

  /** The cube of a command tells of its dot, unless it empties a counter. */
  lemma NewDotIsSentIff(st: State, node: Id, key: Key, cmd: Command)
    requires DotsKnown(st) && Slice(st.clock, node).Solid() && Flush(st, node, key, cmd).Stored?
    ensures NewDot(st, node) in Flush(st, node, key, cmd).cube.Dots() <==> !(cmd.Delete? && Get(st, key).Cnt?)
  {
    var cube, d := Flush(st, node, key, cmd).cube, NewDot(st, node);
    StoredShows(st, node, key, cmd);
    OwnDotsBelow(st, node, key);
    if cube.Items? {
      assert node in cube.items.dots && cube.items.dots[node] == d.version;
    } else if cube.Hash? {
      assert node in cube.hash.dots && cube.hash.dots[node] == d.version;
    } else if cube.Cnt? && !cmd.Delete? {
      assert node in cube.counter.values && cube.counter.values[node].0 == d.version;
    } else if cube.Val? {
      assert d in cube.value.values;
    }
  }

  /** The dot of a command at node is new at st2, whose context of the key does not have it either. */
  ghost predicate NewAt(st: State, node: Id, key: Key, st2: State) {
    IsNew(st2.clock, NewDot(st, node)) && !Covers(Get(st2, key).Context(), NewDot(st, node))
  }

  /** An item is shown after its cube has arrived, by every dot of it that was not known. */
  lemma ItemArrives(st2: State, key: Key, cube: Cube, reply: bool, item: Bytes, d: Dot)
    requires cube.Items? && SetOrVoid(Get(st2, key)) && HasNew(st2.clock, cube)
    requires item in Members(cube) && d in Members(cube)[item] && !Covers(Get(st2, key).Context(), d)
    ensures var m := Members(Get(SetRemote(st2, key, cube, reply).0, key)); item in m && d in m[item]
  {
    var before := Get(st2, key);
    RemoteReads(st2, key, cube, reply, key);
    SetsMerge(before, cube, item);
    if item in Members(before) {
      assert Lives(Members(before)[item], Members(cube)[item], before.Context(), cube.Context(), d);
    }
  }

  lemma FieldArrives(st2: State, key: Key, cube: Cube, reply: bool, field: Bytes, d: Dot)
    requires cube.Hash? && MapOrVoid(Get(st2, key)) && HasNew(st2.clock, cube)
    requires field in Fields(cube) && d in Fields(cube)[field].dots && !Covers(Get(st2, key).Context(), d)
    ensures var before, sent := Fields(Get(st2, key)), Fields(cube)[field];
            var m := Fields(Get(SetRemote(st2, key, cube, reply).0, key));
            && field in m && d in m[field].dots
            && if field in before then IsLatest(before[field], sent, m[field])
               else m[field].value == sent.value && m[field].timestamp == sent.timestamp
  {
    var before := Get(st2, key);
    RemoteReads(st2, key, cube, reply, key);
    MapsMerge(before, cube, field);
    if field in Fields(before) {
      assert Lives(Fields(before)[field].dots, Fields(cube)[field].dots, before.Context(), cube.Context(), d);
    }
  }

  lemma CountArrives(st2: State, key: Key, cube: Cube, reply: bool, i: Id)
    requires cube.Cnt? && CounterOrVoid(Get(st2, key)) && HasNew(st2.clock, cube)
    ensures var before, sent, m := Counts(Get(st2, key)), Counts(cube), Counts(Get(SetRemote(st2, key, cube, reply).0, key));
            && (i in before || i in sent <==> i in m)
            && (i in sent && (i !in before || before[i].0 < sent[i].0) ==> m[i] == sent[i])
            && (i in before && (i !in sent || sent[i].0 <= before[i].0) ==> m[i] == before[i])
  {
    RemoteReads(st2, key, cube, reply, key);
    CountersMerge(Get(st2, key), cube, i);
  }

  lemma SentIsNew(st: State, node: Id, key: Key, cmd: Command, st2: State)
    requires DotsKnown(st) && Slice(st.clock, node).Solid() && Flush(st, node, key, cmd).Stored? && !cmd.Delete?
    requires IsNew(st2.clock, NewDot(st, node))
    ensures HasNew(st2.clock, Flush(st, node, key, cmd).cube)
  {
    NewDotIsSentIff(st, node, key, cmd);
  }

  /** An item that was added is shown where its cube arrives. */
  lemma SAddTravels(st: State, node: Id, key: Key, item: Bytes, st2: State, reply: bool)
    requires DotsKnown(st) && Slice(st.clock, node).Solid() && Flush(st, node, key, SAdd(item)).Stored?
    requires NewAt(st, node, key, st2) && SetOrVoid(Get(st2, key))
    ensures var m := Members(Get(SetRemote(st2, key, Flush(st, node, key, SAdd(item)).cube, reply).0, key));
            item in m && NewDot(st, node) in m[item]
  {
    SentIsNew(st, node, key, SAdd(item), st2);
    StoredShows(st, node, key, SAdd(item));
    ItemArrives(st2, key, Flush(st, node, key, SAdd(item)).cube, reply, item, NewDot(st, node));
  }

  /** So is a field that was set, and with its value unless the other replica has a later one. */
  lemma HSetTravels(st: State, node: Id, key: Key, cmd: Command, st2: State, reply: bool)
    requires DotsKnown(st) && Slice(st.clock, node).Solid() && cmd.HSet? && Flush(st, node, key, cmd).Stored?
    requires NewAt(st, node, key, st2) && MapOrVoid(Get(st2, key))
    ensures var sent := MapValue({NewDot(st, node)}, cmd.content, cmd.timestamp);
            var before := Fields(Get(st2, key));
            var m := Fields(Get(SetRemote(st2, key, Flush(st, node, key, cmd).cube, reply).0, key));
            && cmd.field in m && NewDot(st, node) in m[cmd.field].dots
            && if cmd.field in before then IsLatest(before[cmd.field], sent, m[cmd.field])
               else m[cmd.field].value == cmd.content && m[cmd.field].timestamp == cmd.timestamp
  {
    SentIsNew(st, node, key, cmd, st2);
    StoredShows(st, node, key, cmd);
    assert Fields(Flush(st, node, key, cmd).cube)[cmd.field] == MapValue({NewDot(st, node)}, cmd.content, cmd.timestamp);
    FieldArrives(st2, key, Flush(st, node, key, cmd).cube, reply, cmd.field, NewDot(st, node));
  }

  lemma IncrBySends(st: State, node: Id, key: Key, amount: int)
    requires Slice(st.clock, node).Solid() && Flush(st, node, key, IncrBy(amount)).Stored?
    ensures var cube := Flush(st, node, key, IncrBy(amount)).cube;
            && cube.Cnt? && node in Counts(cube)
            && Counts(cube)[node] == (NewDot(st, node).version, CountOf(Counts(Get(st, key)))(node) + amount)
  {
  }

  /** The node's count arrives, unless a later one is there. */
  lemma IncrByTravels(st: State, node: Id, key: Key, amount: int, st2: State, reply: bool)
    requires DotsKnown(st) && Slice(st.clock, node).Solid() && Flush(st, node, key, IncrBy(amount)).Stored?
    requires IsNew(st2.clock, NewDot(st, node)) && CounterOrVoid(Get(st2, key))
    ensures var before := Counts(Get(st2, key));
            var m := Counts(Get(SetRemote(st2, key, Flush(st, node, key, IncrBy(amount)).cube, reply).0, key));
            && node in m
            && m[node] == if node in before && before[node].0 >= NewDot(st, node).version then before[node]
                          else (NewDot(st, node).version, CountOf(Counts(Get(st, key)))(node) + amount)
  {
    SentIsNew(st, node, key, IncrBy(amount), st2);
    IncrBySends(st, node, key, amount);
    CountArrives(st2, key, Flush(st, node, key, IncrBy(amount)).cube, reply, node);
  }

  // ---------------------------------------------------------------- what is taken away does not

  /** An item, field or count that the cube does not have is gone when it has arrived exactly if it was not
      there before: no SREM, HDEL or DEL of a set, a map or a counter takes anything away elsewhere. */
  lemma RemovalTravelsIff(st2: State, key: Key, cube: Cube, reply: bool, x: Bytes, i: Id)
    requires !cube.Void? && !cube.Val?
    ensures var before, after := Get(st2, key), Get(SetRemote(st2, key, cube, reply).0, key);
            && (cube.Items? && SetOrVoid(before) && x !in Members(cube) ==> (x !in Members(after) <==> x !in Members(before)))
            && (cube.Hash? && MapOrVoid(before) && x !in Fields(cube) ==> (x !in Fields(after) <==> x !in Fields(before)))
            && (cube.Cnt? && CounterOrVoid(before) && i !in Counts(cube) ==> (i !in Counts(after) <==> i !in Counts(before)))
  {
    var before := Get(st2, key);
    RemoteReads(st2, key, cube, reply, key);
    if HasNew(st2.clock, cube) {
      if cube.Items? && SetOrVoid(before) {
        SetsMerge(before, cube, x);
      } else if cube.Hash? && MapOrVoid(before) {
        MapsMerge(before, cube, x);
      } else if cube.Cnt? && CounterOrVoid(before) {
        CountersMerge(before, cube, i);
      }
    }
  }

  /** An item is added at 1, its cube arrives at 2, it is removed at 1, and that arrives at 2. */
  datatype Story = Story(key: Key, item: Bytes, added: State, sent: Cube, mid: State, removed: State, rest: Cube, end: State)

  ghost predicate Happens(t: Story) {
    && Flush(BLANK, 1, t.key, SAdd(t.item)) == Stored(t.added, t.sent) && !t.sent.Void?
    && t.mid == SetRemote(BLANK, t.key, t.sent, false).0
    && Slice(t.added.clock, 1).Solid() && Flush(t.added, 1, t.key, SRem(t.item)) == Stored(t.removed, t.rest) && !t.rest.Void?
    && t.end == SetRemote(t.mid, t.key, t.rest, false).0
  }

  lemma StoryDots(t: Story)
    requires Happens(t)
    ensures t.sent.Items? && t.sent.Dots() == {Dot(1, 1)}
    ensures t.rest.Items? && t.rest.Dots() == {Dot(1, 2)} && t.item !in Members(t.rest)
  {
    FirstDots(t.key, t.item, Flush(BLANK, 1, t.key, SAdd(t.item)), Flush(t.added, 1, t.key, SRem(t.item)));
  }

  lemma StoryClocks(t: Story, d: Dot)
    requires Happens(t) && d.version != 0
    ensures Has(t.removed.clock, d) <==> Has(t.end.clock, d)
  {
    StoryDots(t);
    RemoteKnown(BLANK, t.key, t.sent, false);
    RemoteLogs(BLANK, t.key, t.sent, false, d);
    RemoteLogs(t.mid, t.key, t.rest, false, d);
    StoredElsewhere(BLANK, 1, t.key, SAdd(t.item));
    StoredElsewhere(t.added, 1, t.key, SRem(t.item));
  }

  lemma StoryArrives(t: Story)
    requires Happens(t)
    ensures t.item in Members(Get(t.mid, t.key)) && SetOrVoid(Get(t.mid, t.key))
  {
    SAddTravels(BLANK, 1, t.key, t.item, BLANK, false);
  }

  /** Then both have the same dots in their clocks, so no sync has anything to tell, and 2 shows the item. */
  lemma RemovedItemStays(t: Story)
    requires Happens(t)
    ensures forall d: Dot :: d.version != 0 ==> (Has(t.removed.clock, d) <==> Has(t.end.clock, d))
    ensures t.item !in Members(Get(t.removed, t.key)) && t.item in Members(Get(t.end, t.key))
  {
    forall d: Dot | d.version != 0 ensures Has(t.removed.clock, d) <==> Has(t.end.clock, d) {
      StoryClocks(t, d);
    }
    StoryDots(t);
    StoryArrives(t);
    SRemRemoves(t.added, 1, t.key, t.item);
    RemovalTravelsIff(t.mid, t.key, t.rest, false, t.item, 1);
  }

  /** It can happen for every key and item. */
  lemma CanHappen(key: Key, item: Bytes) returns (t: Story)
    ensures t.key == key && t.item == item && Happens(t)
  {
    var f := Flush(BLANK, 1, key, SAdd(item));
    var g := Flush(f.state, 1, key, SRem(item));
    assert item in f.cube.items.values && Get(f.state, key) == f.cube;
    var mid := SetRemote(BLANK, key, f.cube, false).0;
    t := Story(key, item, f.state, f.cube, mid, g.state, g.cube, SetRemote(mid, key, g.cube, false).0);
  }

  lemma FirstDots(key: Key, item: Bytes, f: Flushed, g: Flushed)
    requires f == Flush(BLANK, 1, key, SAdd(item)) && f.Stored? && Slice(f.state.clock, 1).Solid()
    requires g == Flush(f.state, 1, key, SRem(item)) && g.Stored?
    ensures f.cube.Items? && f.cube.Dots() == {Dot(1, 1)}
    ensures g.cube.Items? && g.cube.Dots() == {Dot(1, 2)} && item !in Members(g.cube)
  {
    assert f.cube.items.dots == map[1 := 1] && item in f.cube.items.values;
    assert Get(f.state, key) == f.cube;
    assert g.cube.items.dots == map[1 := 2];
  }
}
