/** What commands do to what clients read (src/command.rs:236-463, src/cubes.rs:138-345), through do_flush
    and storage_get: item by item, field by field, and against a plain data structure server. */
module CommandEffects {
  import opened Basics
  import opened Clocks
  import opened Cubes
  import opened Replicas

  // ---------------------------------------------------------------- what a cube shows

  ghost function CountOf(counts: map<Id, (Version, int)>): Id -> int {
    (i: Id) => if i in counts then counts[i].1 else 0
  }

  /** What CGET answers. */
  ghost function Total(c: Cube): int {
    Sum(Counts(c).Keys, CountOf(Counts(c)))
  }

  /** The cubes hold the same. */
  predicate SameValues(a: Cube, b: Cube) {
    Members(a) == Members(b) && Fields(a) == Fields(b) && Counts(a) == Counts(b) && Siblings(a) == Siblings(b)
  }

  /** A cube holds nothing of another type. */
  predicate Only(c: Cube, cmd: Command) {
    match cmd
    case Assign(_, _) => c.Val?
    case Delete(_) => !c.Void?
    case SAdd(_) => c.Items?
    case SRem(_) => c.Items?
    case HSet(_, _, _) => c.Hash?
    case HDel(_) => c.Hash?
    case IncrBy(_) => c.Cnt?
    case CSet(_) => c.Cnt?
  }

  // ---------------------------------------------------------------- what every command does

  function NewDot(st: State, node: Id): Dot {
    Dot(node, Slice(st.clock, node).base + 1)
  }

  lemma PutShows(store: map<Key, Cube>, clock: Clock, log: map<Dot, Key>, key: Key, cube: Cube)
    requires !cube.Void?
    ensures var read := Get(State(clock, Put(store, clock, key, cube), log), key);
            SameValues(read, cube) && forall d: Dot :: Covers(cube.Context(), d) ==> Covers(read.Context(), d)
  {
  }

  /** A command is a type error exactly on a key of another type; then only a version is spent. */
  lemma RejectedIff(st: State, node: Id, key: Key, cmd: Command)
    requires Slice(st.clock, node).Solid()
    ensures var f := Flush(st, node, key, cmd);
            && (f.Rejected? <==> !Get(st, key).Void? && !Only(Get(st, key), cmd))
            && (f.Rejected? ==> f.state.store == st.store && f.state.log == st.log
                                && Slice(f.state.clock, node).base == Slice(st.clock, node).base + 1)
  {
  }

  /** A command that is stored is logged under its key by a new dot, which the clock has from then on, and
      other keys are left alone. */
  lemma StoredElsewhere(st: State, node: Id, key: Key, cmd: Command)
    requires Slice(st.clock, node).Solid() && Flush(st, node, key, cmd).Stored?
    ensures var st', d := Flush(st, node, key, cmd).state, NewDot(st, node);
            && st'.log == st.log[d := key]
            && (forall e: Dot :: e.version != 0 ==> (Has(st'.clock, e) <==> Has(st.clock, e) || e == d))
            && (forall k :: k != key ==> (k in st'.store <==> k in st.store) && (k in st.store ==> st'.store[k] == st.store[k]))
  {
  }

  /** The key reads as the cube that is sent around. */
  lemma StoredShows(st: State, node: Id, key: Key, cmd: Command)
    requires Slice(st.clock, node).Solid() && Flush(st, node, key, cmd).Stored?
    ensures var f := Flush(st, node, key, cmd);
            && SameValues(Get(f.state, key), f.cube)
            && f.cube == Mutate(cmd, node, NewDot(st, node).version, Get(st, key)).value
            && forall d: Dot :: Covers(f.cube.Context(), d) ==> Covers(Get(f.state, key).Context(), d)
  {
    var f := Flush(st, node, key, cmd);
    PutShows(st.store, f.state.clock, f.state.log, key, f.cube);
  }

  lemma MutateCovers(cmd: Command, node: Id, version: Version, cube: Cube, e: Dot)
    requires Mutate(cmd, node, version, cube).Some? && !Mutate(cmd, node, version, cube).value.Void?
    ensures Covers(Mutate(cmd, node, version, cube).value.Context(), e) <==>
              Covers(cube.Context(), e) || (e.id == node && e.version <= version)
  {
  }

  /** Its context has the new dot and all it had before. */
  lemma StoredContext(st: State, node: Id, key: Key, cmd: Command, e: Dot)
    requires Slice(st.clock, node).Solid() && Flush(st, node, key, cmd).Stored?
    requires e == NewDot(st, node) || Covers(Get(st, key).Context(), e)
    ensures Covers(Get(Flush(st, node, key, cmd).state, key).Context(), e)
    ensures Covers(Flush(st, node, key, cmd).cube.Context(), e)
  {
    StoredShows(st, node, key, cmd);
    MutateCovers(cmd, node, NewDot(st, node).version, Get(st, key), e);
  }

  // ---------------------------------------------------------------- command by command

  lemma SAddAdds(st: State, node: Id, key: Key, item: Bytes)
    requires Slice(st.clock, node).Solid() && Flush(st, node, key, SAdd(item)).Stored?
    ensures var st' := Flush(st, node, key, SAdd(item)).state;
            Members(Get(st', key)) == Members(Get(st, key))[item := {NewDot(st, node)}]
  {
    StoredShows(st, node, key, SAdd(item));
  }

  lemma SRemRemoves(st: State, node: Id, key: Key, item: Bytes)
    requires Slice(st.clock, node).Solid() && Flush(st, node, key, SRem(item)).Stored?
    ensures var st' := Flush(st, node, key, SRem(item)).state;
            Members(Get(st', key)) == Members(Get(st, key)) - {item}
  {
    StoredShows(st, node, key, SRem(item));
  }

  lemma HSetSets(st: State, node: Id, key: Key, field: Bytes, content: Bytes, timestamp: nat)
    requires Slice(st.clock, node).Solid() && Flush(st, node, key, HSet(field, content, timestamp)).Stored?
    ensures var st' := Flush(st, node, key, HSet(field, content, timestamp)).state;
            Fields(Get(st', key)) == Fields(Get(st, key))[field := MapValue({NewDot(st, node)}, content, timestamp)]
  {
    StoredShows(st, node, key, HSet(field, content, timestamp));
  }

  lemma HDelDeletes(st: State, node: Id, key: Key, field: Bytes)
    requires Slice(st.clock, node).Solid() && Flush(st, node, key, HDel(field)).Stored?
    ensures var st' := Flush(st, node, key, HDel(field)).state;
            Fields(Get(st', key)) == Fields(Get(st, key)) - {field}
  {
    StoredShows(st, node, key, HDel(field));
  }

  /** The node's own count goes up by the amount, the counts of others stay, and so the total goes up. */
  lemma IncrByCounts(st: State, node: Id, key: Key, amount: int)
    requires Slice(st.clock, node).Solid() && Flush(st, node, key, IncrBy(amount)).Stored?
    ensures var before, after := Counts(Get(st, key)), Counts(Get(Flush(st, node, key, IncrBy(amount)).state, key));
            after == before[node := (NewDot(st, node).version, CountOf(before)(node) + amount)]
    ensures Total(Get(Flush(st, node, key, IncrBy(amount)).state, key)) == Total(Get(st, key)) + amount
  {
    StoredShows(st, node, key, IncrBy(amount));
    var before, after := Counts(Get(st, key)), Counts(Get(Flush(st, node, key, IncrBy(amount)).state, key));
    TotalChanges(before, after, node, amount);
  }

  lemma TotalChanges(before: map<Id, (Version, int)>, after: map<Id, (Version, int)>, node: Id, amount: int)
    requires node in after && after == before[node := after[node]] && after[node].1 == CountOf(before)(node) + amount
    ensures Sum(after.Keys, CountOf(after)) == Sum(before.Keys, CountOf(before)) + amount
  {
    SumTakes(after.Keys, CountOf(after), node);
    SumSame(after.Keys - {node}, CountOf(after), CountOf(before));
    if node in before {
      SumTakes(before.Keys, CountOf(before), node);
      assert after.Keys == before.Keys;
    } else {
      assert after.Keys - {node} == before.Keys;
    }
  }

  lemma CSetSets(st: State, node: Id, key: Key, total: int)
    requires Slice(st.clock, node).Solid() && Flush(st, node, key, CSet(total)).Stored?
    ensures var st' := Flush(st, node, key, CSet(total)).state;
            Counts(Get(st', key)) == map[node := (NewDot(st, node).version, total)] && Total(Get(st', key)) == total
  {
    StoredShows(st, node, key, CSet(total));
    var after := Counts(Get(Flush(st, node, key, CSet(total)).state, key));
    assert after == map[node := (NewDot(st, node).version, total)];
    SumTakes(after.Keys, CountOf(after), node);
    assert after.Keys - {node} == {};
  }

  /** SET leaves the siblings its context does not have, beside the new value. */
  lemma SetReplaces(st: State, node: Id, key: Key, value: Bytes, ctx: VV)
    requires Slice(st.clock, node).Solid() && Flush(st, node, key, Assign(value, ctx)).Stored?
    ensures var before, after := Siblings(Get(st, key)), Siblings(Get(Flush(st, node, key, Assign(value, ctx)).state, key));
            && NewDot(st, node) in after && after[NewDot(st, node)] == Some(value)
            && forall d :: d != NewDot(st, node) ==>
                 (d in after <==> d in before && !Covers(ctx, d)) && (d in after ==> after[d] == before[d])
  {
    StoredShows(st, node, key, Assign(value, ctx));
  }

  /** DEL does the same to a Value, with no value, and empties all others. */
  lemma DelDeletes(st: State, node: Id, key: Key, ctx: VV)
    requires Slice(st.clock, node).Solid() && Flush(st, node, key, Delete(ctx)).Stored?
    ensures var before, after := Siblings(Get(st, key)), Siblings(Get(Flush(st, node, key, Delete(ctx)).state, key));
            if Get(st, key).Val? then
              && NewDot(st, node) in after && after[NewDot(st, node)] == None
              && forall d :: d != NewDot(st, node) ==>
                   (d in after <==> d in before && !Covers(ctx, d)) && (d in after ==> after[d] == before[d])
            else SameValues(Get(Flush(st, node, key, Delete(ctx)).state, key), Void(map[]))
  {
    StoredShows(st, node, key, Delete(ctx));
  }
}
