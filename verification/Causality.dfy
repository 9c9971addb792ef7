/** What the writes of a run did to each other, and what a cube, a clock and a replica have
    to remember about them. Value cubes only. */
module Causality {
  import opened Basics
  import opened Clocks
  import opened Cubes
  import opened Replicas

  /** A stored write: its key and value, the siblings Value::set discarded, and its place in
      the run. */
  datatype Write = Write(key: Key, value: Option<Bytes>, over: set<Dot>, at: nat)

  /** Every write that was ever stored, by dot. */
  type History = map<Dot, Write>

  /** The last version each replica gave out. */
  type Issued = map<Id, Version>

  /** Writes have issued dots and overwrite earlier writes of the same key. */
  ghost predicate HistoryOk(W: History, B: Issued) {
    && (forall w :: w in W ==> w.version != 0 && w.id in B && w.version <= B[w.id])
    && (forall w, d {:trigger d in W[w].over} :: w in W && d in W[w].over ==> d in W && W[d].key == W[w].key && W[d].at < W[w].at)
  }

  /** A time after every write of the history. */
  ghost function Now(W: History): (t: nat)
    ensures forall w :: w in W ==> W[w].at < t
  {
    if W == map[] then 0
    else
      var w :| w in W;
      var rest := W - {w};
      var t := Now(rest);
      assert forall x {:trigger W[x]} :: x in W ==> x == w || x in rest;
      if t <= W[w].at then W[w].at + 1 else t
  }

  /** A write of key k that the context covers. */
  ghost predicate Knows(W: History, k: Key, vv: VV, d: Dot) {
    d in W && W[d].key == k && Covers(vv, d)
  }

  /** Some write in the context discarded d. */
  ghost predicate Overwritten(W: History, k: Key, vv: VV, d: Dot) {
    exists w :: Knows(W, k, vv, w) && d in W[w].over
  }

  /** The siblings of a cube of key k are exactly the writes its context covers and has not
      seen overwritten, with the values they were written with, and the context is closed
      under "discarded". */
  ghost predicate Faithful(W: History, k: Key, c: Value) {
    && (forall d {:trigger d in c.values} :: d in c.values ==> Knows(W, k, c.vv, d) && W[d].value == c.values[d])
    && (forall d {:trigger d in c.values} :: Knows(W, k, c.vv, d) ==> (d in c.values <==> !Overwritten(W, k, c.vv, d)))
    && (forall w, d {:trigger d in W[w].over} :: Knows(W, k, c.vv, w) && d in W[w].over ==> Covers(c.vv, d))
  }

  ghost predicate Bounded(B: Issued, vv: VV) {
    forall i {:trigger i in vv} {:trigger vv[i]} :: i in vv ==> i in B && vv[i] <= B[i]
  }

  ghost predicate CubeOk(W: History, B: Issued, k: Key, c: Cube) {
    c.Val? && Faithful(W, k, c.value) && Bounded(B, c.value.vv)
  }

  ghost predicate ClockOk(B: Issued, c: Clock) {
    NormalClock(c) && forall i, v: Version :: i in c && c[i].Contains(v) ==> i in B && v <= B[i]
  }

  /** The replica's cube for d's key has d in its context. */
  ghost predicate Seen(W: History, st: State, d: Dot)
    requires d in W
  {
    W[d].key in st.store && Covers(st.store[W[d].key].Context(), d)
  }

  /** Stored cubes are faithful, and a dot enters the node clock only when the cube of its key
      accounts for it. */
  ghost predicate StoreOk(W: History, B: Issued, st: State) {
    && (forall k :: k in st.store ==> CubeOk(W, B, k, st.store[k]))
    && (forall d {:trigger Has(st.clock, d)} :: d in W && Has(st.clock, d) ==> Seen(W, st, d))
  }

  /** The log is right about the dots it has, and has all dots of its own node. */
  ghost predicate LogOk(W: History, n: Id, st: State) {
    && (forall d {:trigger d in st.log} :: d in st.log ==> d in W && W[d].key == st.log[d] && Has(st.clock, d))
    && (forall d :: d in W && d.id == n ==> d in st.log)
  }

  /** The invariant of replica n. Its own slice of the clock has no exceptions. */
  ghost predicate StateOk(W: History, B: Issued, n: Id, st: State) {
    && ClockOk(B, st.clock)
    && n in B && Slice(st.clock, n) == BV(B[n], {})
    && StoreOk(W, B, st)
    && LogOk(W, n, st)
  }

  /** Everything cube c tells about key k is in the replica's context. */
  ghost predicate Absorbed(W: History, st: State, k: Key, vv: VV) {
    forall d :: Knows(W, k, vv, d) ==> Seen(W, st, d)
  }

  /** What a replica has seen, its keys and its clock only grow. */
  ghost predicate Advances(W: History, st: State, st': State) {
    && st.store.Keys <= st'.store.Keys
    && (forall d :: d in W && Seen(W, st, d) ==> Seen(W, st', d))
    && ClockWithin(st.clock, st'.clock)
  }

  // ---------------------------------------------------------------- cubes

  /** Merging faithful cubes gives a faithful cube: merge implements union of histories. */
  lemma MergeFaithful(W: History, k: Key, a: Value, b: Value)
    requires Faithful(W, k, a) && Faithful(W, k, b)
    ensures Faithful(W, k, a.Merge(b))
  {
    var m := a.Merge(b);
    forall d: Dot ensures Knows(W, k, m.vv, d) <==> Knows(W, k, a.vv, d) || Knows(W, k, b.vv, d) {
    }
    forall d | Knows(W, k, m.vv, d) ensures d in m.values <==> !Overwritten(W, k, m.vv, d) {
      MergeFaithfulAt(W, k, a, b, d);
    }
    forall d | d in m.values ensures Knows(W, k, m.vv, d) && W[d].value == m.values[d] {
      assert d in a.values || d in b.values;
    }
  }

  lemma MergeFaithfulAt(W: History, k: Key, a: Value, b: Value, d: Dot)
    requires Faithful(W, k, a) && Faithful(W, k, b)
    requires Knows(W, k, a.Merge(b).vv, d)
    ensures d in a.Merge(b).values <==> !Overwritten(W, k, a.Merge(b).vv, d)
  {
    var m := a.Merge(b);
    if Overwritten(W, k, m.vv, d) {
      var w :| Knows(W, k, m.vv, w) && d in W[w].over;
      if Knows(W, k, a.vv, w) {
        assert Overwritten(W, k, a.vv, d) && Knows(W, k, a.vv, d);
      } else {
        assert Knows(W, k, b.vv, w);
        assert Overwritten(W, k, b.vv, d) && Knows(W, k, b.vv, d);
      }
    }
    if d !in m.values {
      var c := if Knows(W, k, a.vv, d) && d !in a.values then a else b;
      var w :| Knows(W, k, c.vv, w) && d in W[w].over;
      assert Knows(W, k, m.vv, w);
    }
  }

  /** Strong convergence: cubes that agree on the key's writes have the same siblings. */
  lemma FaithfulConverges(W: History, k: Key, a: Value, b: Value)
    requires Faithful(W, k, a) && Faithful(W, k, b)
    requires forall d :: Knows(W, k, a.vv, d) <==> Knows(W, k, b.vv, d)
    ensures a.values == b.values
  {
    assert forall d :: Overwritten(W, k, a.vv, d) <==> Overwritten(W, k, b.vv, d);
    assert forall d :: d in a.values <==> d in b.values;
  }

  /** A cube with no writes of the key in its context is faithful when it is empty. */
  lemma VoidFaithful(W: History, k: Key, vv: VV)
    requires forall d :: d in W && W[d].key == k ==> !Covers(vv, d)
    ensures Faithful(W, k, Value(map[], vv))
  {
  }

  /** d leads to s by overwrites, every step of which the context has seen. */
  ghost predicate LeadsTo(W: History, k: Key, vv: VV, d: Dot, s: Dot, path: seq<Dot>) {
    && |path| > 0 && path[0] == d && path[|path| - 1] == s
    && (forall i :: 0 <= i < |path| ==> Knows(W, k, vv, path[i]))
    && (forall i :: 0 <= i < |path| - 1 ==> path[i] in W[path[i + 1]].over)
  }

  /** Every write in the context is a sibling, or a chain of overwrites leads from it to one. */
  lemma {:induction false} FaithfulChain(W: History, B: Issued, k: Key, c: Value, d: Dot) returns (s: Dot, path: seq<Dot>)
    requires HistoryOk(W, B) && Faithful(W, k, c) && Knows(W, k, c.vv, d)
    ensures s in c.values && LeadsTo(W, k, c.vv, d, s, path)
    decreases Now(W) - W[d].at
  {
    if d in c.values {
      s, path := d, [d];
    } else {
      var w :| Knows(W, k, c.vv, w) && d in W[w].over;
      s, path := FaithfulChain(W, B, k, c, w);
      LeadsToCons(W, k, c.vv, d, w, s, path);
      path := [d] + path;
    }
  }

  lemma LeadsToCons(W: History, k: Key, vv: VV, d: Dot, w: Dot, s: Dot, path: seq<Dot>)
    requires Knows(W, k, vv, d) && w in W && d in W[w].over && LeadsTo(W, k, vv, w, s, path)
    ensures LeadsTo(W, k, vv, d, s, [d] + path)
  {
    var longer := [d] + path;
    forall i | 0 <= i < |longer| - 1 ensures longer[i] in W[longer[i + 1]].over {
      assert longer[i + 1] == path[i];
    }
  }

  // ---------------------------------------------------------------- histories

  /** A later history: old writes unchanged, new ones beyond what had been issued. */
  ghost predicate Extends(W: History, B: Issued, W': History, B': Issued) {
    && (forall d :: d in W ==> d in W' && W'[d] == W[d])
    && (forall i :: i in B ==> i in B' && B[i] <= B'[i])
    && (forall d :: d in W' && d !in W && d.id in B ==> B[d.id] < d.version)
  }

  lemma CubeOkStable(W: History, B: Issued, W': History, B': Issued, k: Key, c: Cube)
    requires HistoryOk(W, B) && Extends(W, B, W', B') && CubeOk(W, B, k, c)
    ensures CubeOk(W', B', k, c)
  {
    var vv := c.value.vv;
    assert forall d :: Knows(W', k, vv, d) <==> Knows(W, k, vv, d);
    forall d ensures Overwritten(W', k, vv, d) <==> Overwritten(W, k, vv, d) {
      if Overwritten(W, k, vv, d) {
        var w :| Knows(W, k, vv, w) && d in W[w].over;
        assert Knows(W', k, vv, w) && d in W'[w].over;
      }
    }
  }

  /** Nothing a bounded clock has is a new write. */
  lemma ClockOkStable(W: History, B: Issued, W': History, B': Issued, c: Clock)
    requires Extends(W, B, W', B') && ClockOk(B, c)
    ensures ClockOk(B', c)
    ensures forall d :: d in W' && Has(c, d) ==> d in W
  {
  }

  /** A replica that takes no part in a step is as good as before. */
  lemma StateOkStable(W: History, B: Issued, W': History, B': Issued, n: Id, st: State)
    requires HistoryOk(W, B) && Extends(W, B, W', B') && StateOk(W, B, n, st)
    requires n in B' && B'[n] == B[n]
    requires forall d :: d in W' && d.id == n ==> d in W
    ensures StateOk(W', B', n, st)
  {
    ClockOkStable(W, B, W', B', st.clock);
    StoreOkStable(W, B, W', B', st);
  }

  // ---------------------------------------------------------------- replicas

  /** A key that reads as a Void has no known write, so the seeded context is harmless. */
  lemma GetOk(W: History, B: Issued, n: Id, st: State, k: Key)
    requires StateOk(W, B, n, st)
    ensures k !in st.store ==>
              && Get(st, k).Void?
              && (forall d :: d in W && W[d].key == k ==> !Covers(Bases(st.clock), d))
              && CubeOk(W, B, k, Val(Value(map[], Bases(st.clock))))
    ensures k in st.store ==> CubeOk(W, B, k, Get(st, k))
  {
    if k !in st.store {
      forall d | d in W && W[d].key == k ensures !Covers(Bases(st.clock), d) {
        assert Covers(Bases(st.clock), d) ==> Has(st.clock, d);
      }
      VoidFaithful(W, k, Bases(st.clock));
      forall i | i in st.clock ensures i in B && st.clock[i].base <= B[i] {
        assert st.clock[i].Contains(st.clock[i].base);
      }
    }
  }

  lemma ClockAddSetOk(B: Issued, n: Id, c: Clock, dots: set<Dot>)
    requires ClockOk(B, c) && n in B && Slice(c, n) == BV(B[n], {})
    requires forall d :: d in dots ==> d.id in B && d.version <= B[d.id]
    ensures ClockOk(B, ClockAddSet(c, dots)) && Slice(ClockAddSet(c, dots), n) == BV(B[n], {})
  {
    var r := ClockAddSet(c, dots);
    AddDotsInserts(c, Enumerate(dots));
    forall i, v: Version | i in r && r[i].Contains(v) ensures i in B && v <= B[i] {
      assert HasEntry(c, Enumerate(dots), i);
      assert i in c ==> c[i].Contains(0);
      assert Slice(r, i) == r[i];
    }
    NormalFormUnique(Slice(r, n), BV(B[n], {}));
  }

  /** Merging a cube with what the key reads as, a Void included. */
  lemma MergedOk(W: History, B: Issued, n: Id, st: State, k: Key, c: Cube)
    requires StateOk(W, B, n, st) && CubeOk(W, B, k, c)
    ensures CubeOk(W, B, k, Get(st, k).Merge(c))
    ensures forall d: Dot :: Covers(Get(st, k).Merge(c).Context(), d) <==>
                             Covers(Get(st, k).Context(), d) || Covers(c.Context(), d)
  {
    GetOk(W, B, n, st, k);
    if k in st.store {
      MergeFaithful(W, k, st.store[k].value, c.value);
    } else {
      MergeFaithful(W, k, c.value, Value(map[], Bases(st.clock)));
    }
  }

  /** A cube whose siblings are all in the clock tells the replica nothing new: skipping it, as
      storage_set_remote does, loses nothing. */
  lemma {:induction false} KnownDotsAbsorbed(W: History, B: Issued, n: Id, st: State, k: Key, c: Value, d: Dot)
    requires HistoryOk(W, B) && StateOk(W, B, n, st) && Faithful(W, k, c) && Knows(W, k, c.vv, d)
    requires forall e :: e in c.values ==> Has(st.clock, e)
    ensures Seen(W, st, d)
    decreases Now(W) - W[d].at
  {
    if d !in c.values {
      var w :| Knows(W, k, c.vv, w) && d in W[w].over;
      KnownDotsAbsorbed(W, B, n, st, k, c, w);
      assert Knows(W, k, st.store[k].value.vv, w);
    }
  }

  /** The same, seen from the reader: the merged cube would have shown the same siblings. */
  lemma SkipIsLossless(W: History, B: Issued, n: Id, st: State, k: Key, c: Cube)
    requires HistoryOk(W, B) && StateOk(W, B, n, st) && CubeOk(W, B, k, c) && k in st.store
    requires forall e :: e in c.value.values ==> Has(st.clock, e)
    ensures st.store[k].value.Merge(c.value).values == st.store[k].value.values
  {
    var a, m := st.store[k].value, st.store[k].value.Merge(c.value);
    MergeFaithful(W, k, a, c.value);
    forall d ensures Knows(W, k, m.vv, d) <==> Knows(W, k, a.vv, d) {
      if Knows(W, k, c.value.vv, d) {
        KnownDotsAbsorbed(W, B, n, st, k, c.value, d);
      }
    }
    FaithfulConverges(W, k, m, a);
  }

  /** A cube that knows a write of its key shows a sibling, so it is never stripped. */
  lemma NotSubsumed(W: History, B: Issued, k: Key, c: Cube, d: Dot, clock: Clock)
    requires HistoryOk(W, B) && CubeOk(W, B, k, c) && Knows(W, k, c.Context(), d)
    ensures !c.IsSubsumed(clock)
  {
    var s, path := FaithfulChain(W, B, k, c.value, d);
  }

  lemma DotsKnown(W: History, B: Issued, k: Key, c: Cube)
    requires CubeOk(W, B, k, c)
    ensures forall d :: d in c.Dots() ==> Knows(W, k, c.Context(), d)
  {
  }

  /** Storing a remote cube keeps the invariant, and afterwards the cube is accounted for. */
  lemma RemoteKeeps(W: History, B: Issued, n: Id, st: State, k: Key, c: Cube, reply: bool)
    requires HistoryOk(W, B) && StateOk(W, B, n, st) && CubeOk(W, B, k, c)
    ensures var st' := SetRemote(st, k, c, reply).0;
            && StateOk(W, B, n, st')
            && Advances(W, st, st')
            && Absorbed(W, st', k, c.Context())
  {
    if forall d :: d in c.Dots() ==> !IsNew(st.clock, d) {
      RemoteSkipped(W, B, n, st, k, c, reply);
    } else {
      RemoteStored(W, B, n, st, k, c, reply);
    }
  }

  lemma RemoteSkipped(W: History, B: Issued, n: Id, st: State, k: Key, c: Cube, reply: bool)
    requires HistoryOk(W, B) && StateOk(W, B, n, st) && CubeOk(W, B, k, c)
    requires forall d :: d in c.Dots() ==> !IsNew(st.clock, d)
    ensures SetRemote(st, k, c, reply).0 == st
    ensures Absorbed(W, st, k, c.Context())
  {
    assert forall d :: d in c.Dots() ==> Has(st.clock, d);
    AddDotsKnown(st.clock, Enumerate(c.Dots()));
    forall d | Knows(W, k, c.Context(), d) ensures Seen(W, st, d) {
      KnownDotsAbsorbed(W, B, n, st, k, c.value, d);
    }
  }

  /** A cube that accounts for the old one and for every dot the clock gains may be stored. */
  lemma StoreKeeps(W: History, B: Issued, st: State, st': State, k: Key, cube: Cube)
    requires StoreOk(W, B, st)
    requires CubeOk(W, B, k, cube) && st'.store == st.store[k := cube]
    requires k in st.store ==> forall d: Dot :: Covers(st.store[k].Context(), d) ==> Covers(cube.Context(), d)
    requires forall d :: d in W && Has(st'.clock, d) ==> Has(st.clock, d) || Knows(W, k, cube.Context(), d)
    ensures StoreOk(W, B, st')
    ensures forall d :: d in W && Seen(W, st, d) ==> Seen(W, st', d)
  {
  }

  /** What storage_set_remote does to the three maps when a dot is new. */
  lemma RemoteShape(st: State, k: Key, c: Cube, reply: bool)
    requires c.Val?
    requires exists d :: d in c.Dots() && IsNew(st.clock, d)
    ensures var st', merged := SetRemote(st, k, c, reply).0, Get(st, k).Merge(c);
            && st'.clock == ClockAddSet(st.clock, c.Dots())
            && !merged.Void? && st'.store == Put(st.store, st'.clock, k, merged)
            && (forall d :: d in st'.log <==> d in st.log || (d in c.Dots() && IsNew(st.clock, d)))
            && (forall d :: d in st'.log ==> st'.log[d] == if d in c.Dots() && IsNew(st.clock, d) then k else st.log[d])
  {
    MergeNotVoid(Get(st, k), c);
  }

  lemma RemoteStored(W: History, B: Issued, n: Id, st: State, k: Key, c: Cube, reply: bool)
    requires HistoryOk(W, B) && StateOk(W, B, n, st) && CubeOk(W, B, k, c)
    requires exists d :: d in c.Dots() && IsNew(st.clock, d)
    ensures var st' := SetRemote(st, k, c, reply).0;
            && StateOk(W, B, n, st')
            && Advances(W, st, st')
            && Absorbed(W, st', k, c.Context())
  {
    var st', merged := SetRemote(st, k, c, reply).0, Get(st, k).Merge(c);
    RemoteShape(st, k, c, reply);
    MergedOk(W, B, n, st, k, c);
    RemoteNotDropped(W, B, n, st, k, c, merged, st'.clock);
    RemoteStoredKeeps(W, B, n, st, st', k, c, merged);
  }

  lemma RemoteNotDropped(W: History, B: Issued, n: Id, st: State, k: Key, c: Cube, merged: Cube, clock: Clock)
    requires HistoryOk(W, B) && StateOk(W, B, n, st) && CubeOk(W, B, k, c)
    requires exists d :: d in c.Dots() && IsNew(st.clock, d)
    requires CubeOk(W, B, k, merged)
    requires forall d: Dot :: Covers(merged.Context(), d) <==> Covers(Get(st, k).Context(), d) || Covers(c.Context(), d)
    ensures Put(st.store, clock, k, merged) == st.store[k := merged]
  {
    var x :| x in c.Dots() && IsNew(st.clock, x);
    DotsKnown(W, B, k, c);
    NotSubsumed(W, B, k, merged, x, clock);
  }

  lemma RemoteStoredKeeps(W: History, B: Issued, n: Id, st: State, st': State, k: Key, c: Cube, merged: Cube)
    requires HistoryOk(W, B) && StateOk(W, B, n, st) && CubeOk(W, B, k, c) && CubeOk(W, B, k, merged)
    requires forall d: Dot :: Covers(merged.Context(), d) <==> Covers(Get(st, k).Context(), d) || Covers(c.Context(), d)
    requires st'.clock == ClockAddSet(st.clock, c.Dots()) && st'.store == st.store[k := merged]
    requires forall d :: d in st'.log <==> d in st.log || (d in c.Dots() && IsNew(st.clock, d))
    requires forall d :: d in st'.log ==> st'.log[d] == if d in c.Dots() && IsNew(st.clock, d) then k else st.log[d]
    ensures StateOk(W, B, n, st') && Advances(W, st, st') && Absorbed(W, st', k, c.Context())
  {
    ClockAddSetOk(B, n, st.clock, c.Dots());
    ClockAddSetInserts(st.clock, c.Dots());
    StoreKeeps(W, B, st, st', k, merged);
  }

  // ---------------------------------------------------------------- local writes

  /** The write a SET or DEL with context ctx records when the key reads as c. */
  ghost function Recorded(W: History, k: Key, cmd: Command, c: Cube): (r: Write)
    requires cmd.Assign? || cmd.Delete?
  {
    Write(k, if cmd.Assign? then Some(cmd.value) else None, (set d | d in Siblings(c) && Covers(cmd.ctx, d)), Now(W))
  }

  /** The history after n stores the write w. */
  function After(W: History, x: Dot, w: Write): History {
    W[x := w]
  }

  lemma AfterExtends(W: History, B: Issued, n: Id, w: Write)
    requires HistoryOk(W, B) && n in B && w.at == Now(W)
    requires forall d :: d in w.over ==> d in W && W[d].key == w.key
    ensures Dot(n, B[n] + 1) !in W
    ensures HistoryOk(After(W, Dot(n, B[n] + 1), w), B[n := B[n] + 1])
    ensures Extends(W, B, After(W, Dot(n, B[n] + 1), w), B[n := B[n] + 1])
  {
    assert Dot(n, B[n] + 1) !in W;
  }

  /** Value::set on a faithful cube, whatever the client sent as context. */
  lemma SetFaithful(W: History, B: Issued, k: Key, c: Value, n: Id, cmd: Command)
    requires cmd.Assign? || cmd.Delete?
    requires HistoryOk(W, B) && Faithful(W, k, c) && Bounded(B, c.vv) && n in B
    requires forall d :: d in W && W[d].key == k && d.id == n ==> Covers(c.vv, d)
    ensures var x, w := Dot(n, B[n] + 1), Recorded(W, k, cmd, Val(c));
            && Faithful(After(W, x, w), k, c.Set(n, x.version, w.value, cmd.ctx))
            && (forall d :: Covers(c.vv, d) || d == x ==> Covers(c.Set(n, x.version, w.value, cmd.ctx).vv, d))
            && Bounded(B[n := B[n] + 1], c.Set(n, x.version, w.value, cmd.ctx).vv)
  {
    var x, w := Dot(n, B[n] + 1), Recorded(W, k, cmd, Val(c));
    var c' := c.Set(n, x.version, w.value, cmd.ctx);
    assert x !in W;
    forall d ensures Knows(After(W, x, w), k, c'.vv, d) <==> d == x || Knows(W, k, c.vv, d) {
    }
    SetSiblings(W, B, k, c, x, cmd.ctx, w, c');
  }

  lemma SetSiblings(W: History, B: Issued, k: Key, c: Value, x: Dot, ctx: VV, w: Write, c': Value)
    requires HistoryOk(W, B) && Faithful(W, k, c) && x !in W
    requires w.key == k && w.over == set d | d in c.values && Covers(ctx, d)
    requires forall d :: d in c'.values <==> d == x || (d in c.values && !Covers(ctx, d))
    requires forall d :: d in c'.values ==> c'.values[d] == if d == x then w.value else c.values[d]
    requires forall d :: Covers(c.vv, d) ==> Covers(c'.vv, d)
    requires forall d :: Knows(After(W, x, w), k, c'.vv, d) <==> d == x || Knows(W, k, c.vv, d)
    ensures Faithful(After(W, x, w), k, c')
  {
    var W' := After(W, x, w);
    forall d | Knows(W', k, c'.vv, d) ensures d in c'.values <==> !Overwritten(W', k, c'.vv, d) {
      SetSiblingsAt(W, B, k, c, x, ctx, w, c', d);
    }
    forall y, d | Knows(W', k, c'.vv, y) && d in W'[y].over ensures Covers(c'.vv, d) {
      assert y == x ==> d in c.values;
    }
  }

  lemma SetSiblingsAt(W: History, B: Issued, k: Key, c: Value, x: Dot, ctx: VV, w: Write, c': Value, d: Dot)
    requires HistoryOk(W, B) && Faithful(W, k, c) && x !in W
    requires w.key == k && w.over == set d | d in c.values && Covers(ctx, d)
    requires forall d :: d in c'.values <==> d == x || (d in c.values && !Covers(ctx, d))
    requires forall d :: Knows(After(W, x, w), k, c'.vv, d) <==> d == x || Knows(W, k, c.vv, d)
    requires Knows(After(W, x, w), k, c'.vv, d)
    ensures d in c'.values <==> !Overwritten(After(W, x, w), k, c'.vv, d)
  {
    var W' := After(W, x, w);
    if Overwritten(W', k, c'.vv, d) {
      var y :| Knows(W', k, c'.vv, y) && d in W'[y].over;
      assert y == x ==> d in c.values && Covers(ctx, d);
      assert y != x ==> Knows(W, k, c.vv, y) && Overwritten(W, k, c.vv, d);
    }
    if d in c.values && d !in c'.values {
      assert Knows(W', k, c'.vv, x) && d in W'[x].over;
    }
    if d !in c.values && d !in c'.values {
      var y :| Knows(W, k, c.vv, y) && d in W[y].over;
      assert Knows(W', k, c'.vv, y) && d in W'[y].over;
    }
  }

  /** n's next version: only that dot enters the clock. */
  lemma EventKeeps(B: Issued, n: Id, c: Clock)
    requires ClockOk(B, c) && n in B && Slice(c, n) == BV(B[n], {})
    ensures Event(c, n) == (c[n := BV(B[n] + 1, {})], B[n] + 1)
    ensures ClockOk(B[n := B[n] + 1], Event(c, n).0)
    ensures Slice(Event(c, n).0, n) == BV(B[n] + 1, {})
    ensures ClockWithin(c, Event(c, n).0)
    ensures forall d: Dot :: d.version != 0 ==> (Has(Event(c, n).0, d) <==> Has(c, d) || d == Dot(n, B[n] + 1))
  {
  }

  /** What do_flush does to the three maps for a SET or DEL that is stored. */
  lemma FlushShape(B: Issued, n: Id, st: State, k: Key, cmd: Command, c: Value)
    requires cmd.Assign? || cmd.Delete?
    requires n in B && Slice(st.clock, n) == BV(B[n], {}) && Flush(st, n, k, cmd).Stored?
    requires Get(st, k) == if k in st.store then Val(c) else Void(c.vv)
    requires k !in st.store ==> c.values == map[]
    ensures var f := Flush(st, n, k, cmd);
            && f.cube == Val(c.Set(n, B[n] + 1, if cmd.Assign? then Some(cmd.value) else None, cmd.ctx))
            && f.state == State(Event(st.clock, n).0, st.store[k := f.cube], st.log[Dot(n, B[n] + 1) := k])
  {
    var f := Flush(st, n, k, cmd);
    assert Dot(n, B[n] + 1) in f.cube.value.values;
  }

  /** A SET or DEL stored by n extends the history by one write and keeps the invariant. */
  lemma FlushKeeps(W: History, B: Issued, n: Id, st: State, k: Key, cmd: Command)
    requires cmd.Assign? || cmd.Delete?
    requires HistoryOk(W, B) && StateOk(W, B, n, st)
    requires Flush(st, n, k, cmd).Stored?
    ensures var x, w, f := Dot(n, B[n] + 1), Recorded(W, k, cmd, Get(st, k)), Flush(st, n, k, cmd);
            var W', B' := After(W, x, w), B[n := B[n] + 1];
            && HistoryOk(W', B') && Extends(W, B, W', B')
            && StateOk(W', B', n, f.state) && CubeOk(W', B', k, f.cube)
            && Advances(W, st, f.state)
  {
    var c := if k in st.store then st.store[k].value else Value(map[], Bases(st.clock));
    GetOk(W, B, n, st, k);
    FlushShape(B, n, st, k, cmd, c);
    assert Recorded(W, k, cmd, Get(st, k)) == Recorded(W, k, cmd, Val(c));
    FlushCubeOk(W, B, n, st, k, cmd, c);
    FlushStateKeeps(W, B, n, st, k, c, Recorded(W, k, cmd, Val(c)), Flush(st, n, k, cmd).cube);
  }

  lemma FlushCubeOk(W: History, B: Issued, n: Id, st: State, k: Key, cmd: Command, c: Value)
    requires cmd.Assign? || cmd.Delete?
    requires HistoryOk(W, B) && StateOk(W, B, n, st)
    requires Faithful(W, k, c) && Bounded(B, c.vv)
    requires k in st.store ==> st.store[k] == Val(c)
    ensures var x, w := Dot(n, B[n] + 1), Recorded(W, k, cmd, Val(c));
            var W', B', cube := After(W, x, w), B[n := B[n] + 1], Val(c.Set(n, x.version, w.value, cmd.ctx));
            && HistoryOk(W', B') && Extends(W, B, W', B') && CubeOk(W', B', k, cube)
            && (forall d :: Covers(c.vv, d) || d == x ==> Covers(cube.Context(), d))
  {
    var w := Recorded(W, k, cmd, Val(c));
    SetFaithful(W, B, k, c, n, cmd);
    assert forall d :: d in w.over ==> d in c.values;
    AfterExtends(W, B, n, w);
  }

  lemma FlushStateKeeps(W: History, B: Issued, n: Id, st: State, k: Key, c: Value, w: Write, cube: Cube)
    requires HistoryOk(W, B) && StateOk(W, B, n, st) && w.key == k
    requires k in st.store ==> st.store[k] == Val(c)
    requires forall d :: Covers(c.vv, d) || d == Dot(n, B[n] + 1) ==> Covers(cube.Context(), d)
    requires var W', B' := After(W, Dot(n, B[n] + 1), w), B[n := B[n] + 1];
             HistoryOk(W', B') && Extends(W, B, W', B') && CubeOk(W', B', k, cube)
    ensures var st' := State(Event(st.clock, n).0, st.store[k := cube], st.log[Dot(n, B[n] + 1) := k]);
            && StateOk(After(W, Dot(n, B[n] + 1), w), B[n := B[n] + 1], n, st')
            && Advances(W, st, st')
  {
    var x := Dot(n, B[n] + 1);
    var W', B' := After(W, x, w), B[n := B[n] + 1];
    var st' := State(Event(st.clock, n).0, st.store[k := cube], st.log[x := k]);
    EventKeeps(B, n, st.clock);
    StoreOkStable(W, B, W', B', st);
    assert forall d :: d in W' && Has(st'.clock, d) ==> Has(st.clock, d) || Knows(W', k, cube.Context(), d);
    StoreKeeps(W', B', st, st', k, cube);
    FlushLogKeeps(W, B, n, st, k, w, st'.store);
    assert forall d :: d in W && Seen(W, st, d) ==> Seen(W, st', d) by {
      assert forall d :: d in W ==> (Seen(W, st, d) <==> Seen(W', st, d)) && (Seen(W, st', d) <==> Seen(W', st', d));
    }
  }

  lemma FlushLogKeeps(W: History, B: Issued, n: Id, st: State, k: Key, w: Write, store: map<Key, Cube>)
    requires HistoryOk(W, B) && StateOk(W, B, n, st) && w.key == k
    ensures LogOk(After(W, Dot(n, B[n] + 1), w), n,
                  State(Event(st.clock, n).0, store, st.log[Dot(n, B[n] + 1) := k]))
  {
    EventKeeps(B, n, st.clock);
  }

  lemma StoreOkStable(W: History, B: Issued, W': History, B': Issued, st: State)
    requires HistoryOk(W, B) && Extends(W, B, W', B') && ClockOk(B, st.clock) && StoreOk(W, B, st)
    ensures StoreOk(W', B', st)
  {
    forall j | j in st.store ensures CubeOk(W', B', j, st.store[j]) {
      CubeOkStable(W, B, W', B', j, st.store[j]);
    }
    ClockOkStable(W, B, W', B', st.clock);
  }

  /** A version given out and never stored leaves no trace but in the clock. */
  lemma FailedFlushKeeps(W: History, B: Issued, n: Id, st: State)
    requires HistoryOk(W, B) && StateOk(W, B, n, st)
    ensures var st', B' := st.(clock := Event(st.clock, n).0), B[n := B[n] + 1];
            && HistoryOk(W, B') && Extends(W, B, W, B')
            && StateOk(W, B', n, st') && Advances(W, st, st')
  {
    EventKeeps(B, n, st.clock);
    StoreOkStable(W, B, W, B[n := B[n] + 1], st);
  }

  /** Merging a clock whose writes are all accounted for. */
  lemma ClockMergeKeeps(W: History, B: Issued, n: Id, st: State, clocks: Clock)
    requires StateOk(W, B, n, st) && ClockOk(B, clocks)
    requires forall d :: d in W && Has(clocks, d) ==> Seen(W, st, d)
    ensures var st' := st.(clock := ClockMerge(st.clock, clocks));
            StateOk(W, B, n, st') && Advances(W, st, st')
  {
    var merged := ClockMerge(st.clock, clocks);
    ClockMergeUnites(st.clock, clocks);
    forall i, v: Version | i in merged && merged[i].Contains(v) ensures i in B && v <= B[i] {
      assert Has(merged, Dot(i, v));
    }
    if n in st.clock && n in clocks {
      MergeWithin(st.clock[n], clocks[n]);
    } else if n in clocks {
      OwnSliceFromPeer(B, n, clocks);
    }
  }

  lemma OwnSliceFromPeer(B: Issued, n: Id, clocks: Clock)
    requires ClockOk(B, clocks) && n in clocks && n in B && B[n] == 0
    ensures clocks[n] == EMPTY_BV
  {
    NormalFormUnique(clocks[n], EMPTY_BV);
  }
}
