/** Why runs have to be orderly. handler_sync_start refuses a cookie only while its sync is under
    way. If a sender times out and a duplicate of the start message arrives late, the session
    starts over with the same cookie and the numbers from 0, and an acknowledgement of the first
    session counts for the second. The run below loses a write that way. */
module RestartedSync {
  import opened Basics
  import opened Clocks
  import opened Cubes
  import opened Replicas
  import opened Protocol

  const A: Key := [0]
  const B: Key := [1]
  const SET := Assign([], map[])
  const START := SyncStart(1, 2, 0, true, map[])

  /** Node 1 is in state st with the given syncs, node 2 waits for the bootstrap with cookie 0
      and stores at most B; msgs were sent; wrote lists keys of writes. */
  ghost predicate Scene(s: System, st: State, syncs: map<Cookie, Sync>, msgs: set<Msg>, wrote: map<Dot, Key>) {
    && s.replicas.Keys == {1, 2} && s.issued.Keys == {1, 2} && s.issued[1] == Slice(st.clock, 1).base
    && s.replicas[1] == Replica(true, st, syncs)
    && IsReceiver(s, 2, 0) && s.replicas[2].state.store.Keys <= {B} && NormalClock(s.replicas[2].state.clock)
    && msgs <= s.net
    && (forall d :: d in wrote ==> d in s.writes && s.writes[d].key == wrote[d])
  }

  function Start(): System {
    System(map[1 := Replica(true, BLANK, map[]), 2 := Replica(false, BLANK, map[])], {}, map[],
           map[1 := 0, 2 := 0], map[], {})
  }

  // ---------------------------------------------------------------- one action each

  lemma Opens(s: System)
    requires s == Start()
    ensures Init(s) && Allowed(s, OpenSync(2, 1, 0))
    ensures Scene(Apply(s, OpenSync(2, 1, 0)), BLANK, map[], {START}, map[])
  {
  }

  lemma WriteShape(s: System, st: State, key: Key, st': State, cube: Cube)
    requires 1 in s.replicas && 1 in s.issued && s.replicas[1] == Replica(true, st, map[])
    requires Slice(st.clock, 1).Solid() && Flush(st, 1, key, SET) == Stored(st', cube)
    ensures Allowed(s, ClientWrite(1, key, SET))
    ensures var s', d := Apply(s, ClientWrite(1, key, SET)), Dot(1, s.issued[1] + 1);
            && s'.replicas == s.replicas[1 := Replica(true, st', map[])] && s.net <= s'.net
            && s'.issued == s.issued[1 := s.issued[1] + 1]
            && d in s'.writes && s'.writes == s.writes[d := s'.writes[d]] && s'.writes[d].key == key
  {
  }

  lemma Wrote(s: System, s': System, st: State, msgs: set<Msg>, wrote: map<Dot, Key>, key: Key, st': State)
    requires Scene(s, st, map[], msgs, wrote) && forall d :: d in wrote ==> d.version <= s.issued[1]
    requires s'.replicas == s.replicas[1 := Replica(true, st', map[])] && s.net <= s'.net
    requires s'.issued == s.issued[1 := s.issued[1] + 1] && Slice(st'.clock, 1).base == s.issued[1] + 1
    requires var d := Dot(1, s.issued[1] + 1);
             d in s'.writes && s'.writes == s.writes[d := s'.writes[d]] && s'.writes[d].key == key
    ensures Scene(s', st', map[], msgs, wrote[Dot(1, s.issued[1] + 1) := key])
  {
  }

  lemma Writes(s: System, st: State, msgs: set<Msg>, wrote: map<Dot, Key>, key: Key, st': State, cube: Cube)
    requires Scene(s, st, map[], msgs, wrote) && Slice(st.clock, 1).Solid()
    requires Flush(st, 1, key, SET) == Stored(st', cube)
    requires forall d :: d in wrote ==> d.version <= s.issued[1]
    ensures Allowed(s, ClientWrite(1, key, SET))
    ensures Scene(Apply(s, ClientWrite(1, key, SET)), st', map[], msgs, wrote[Dot(1, s.issued[1] + 1) := key])
  {
    WriteShape(s, st, key, st', cube);
    Wrote(s, Apply(s, ClientWrite(1, key, SET)), st, msgs, wrote, key, st');
  }

  lemma Starts(s: System, st: State, msgs: set<Msg>, wrote: map<Dot, Key>)
    requires Scene(s, st, map[], msgs, wrote) && START in msgs && st.clock.Keys <= {1}
    ensures Allowed(s, DeliverStart(START, [1]))
    ensures Scene(Apply(s, DeliverStart(START, [1])), st,
                  map[0 := Sender(2, st.clock, Snapshot(st.store), map[], 0)], msgs, wrote)
  {
  }

  /** Only the syncs of node 1 changed, and more was sent. */
  lemma Moved(s: System, s': System, st: State, syncs: map<Cookie, Sync>, syncs': map<Cookie, Sync>,
              msgs: set<Msg>, sent: set<Msg>, wrote: map<Dot, Key>)
    requires Scene(s, st, syncs, msgs, wrote)
    requires s'.replicas == s.replicas[1 := Replica(true, st, syncs')]
    requires s'.net == s.net + sent && s'.writes == s.writes && s'.issued == s.issued
    ensures Scene(s', st, syncs', msgs + sent, wrote)
  {
  }

  lemma Sends(s: System, st: State, sync: Sync, msgs: set<Msg>, wrote: map<Dot, Key>, key: Key)
    requires Scene(s, st, map[0 := sync], msgs, wrote)
    requires sync.Sender? && sync.peer == 2 && sync.pending.Snapshot? && key in sync.pending.rest
    ensures Allowed(s, SendKey(1, 0, key))
    ensures var cube := sync.pending.rest[key];
            Scene(Apply(s, SendKey(1, 0, key)), st,
                  map[0 := Sender(2, sync.clocks, Snapshot(sync.pending.rest - {key}),
                                  sync.inflight[sync.count := (key, cube)], sync.count + 1)],
                  msgs + {SyncSend(2, 1, 0, sync.count, key, cube)}, wrote)
  {
    var cube := sync.pending.rest[key];
    var sync' := Sender(2, sync.clocks, Snapshot(sync.pending.rest - {key}),
                        sync.inflight[sync.count := (key, cube)], sync.count + 1);
    assert map[0 := sync][0 := sync'] == map[0 := sync'];
    Moved(s, Apply(s, SendKey(1, 0, key)), st, map[0 := sync], map[0 := sync'],
          msgs, {SyncSend(2, 1, 0, sync.count, key, cube)}, wrote);
  }

  /** Only the state of node 2 changed, and more was sent. */
  lemma NodeTwoMoved(s: System, s': System, st: State, syncs: map<Cookie, Sync>, msgs: set<Msg>, sent: set<Msg>,
               wrote: map<Dot, Key>, st': State)
    requires Scene(s, st, syncs, msgs, wrote)
    requires s'.replicas == s.replicas[2 := s.replicas[2].(state := st')] && st'.store.Keys <= {B} && NormalClock(st'.clock)
    requires s'.net == s.net + sent && s'.writes == s.writes && s'.issued == s.issued
    ensures Scene(s', st, syncs, msgs + sent, wrote)
  {
  }

  lemma StoresAtMostB(st: State, cube: Cube)
    requires st.store.Keys <= {B} && NormalClock(st.clock) && !cube.Void?
    ensures var st' := SetRemote(st, B, cube, false).0; st'.store.Keys <= {B} && NormalClock(st'.clock)
  {
    ClockAddSetInserts(st.clock, cube.Dots());
  }

  lemma Receives(s: System, st: State, syncs: map<Cookie, Sync>, msgs: set<Msg>, wrote: map<Dot, Key>, q: nat, cube: Cube)
    requires Scene(s, st, syncs, msgs, wrote) && SyncSend(2, 1, 0, q, B, cube) in msgs && !cube.Void?
    ensures var a := DeliverSend(SyncSend(2, 1, 0, q, B, cube));
            Allowed(s, a) && Scene(Apply(s, a), st, syncs, msgs + {SyncAck(1, 0, q)}, wrote)
  {
    var a := DeliverSend(SyncSend(2, 1, 0, q, B, cube));
    StoresAtMostB(s.replicas[2].state, cube);
    NodeTwoMoved(s, Apply(s, a), st, syncs, msgs, {SyncAck(1, 0, q)}, wrote, SetRemote(s.replicas[2].state, B, cube, false).0);
  }

  lemma Acks(s: System, st: State, sync: Sync, msgs: set<Msg>, wrote: map<Dot, Key>, q: nat)
    requires Scene(s, st, map[0 := sync], msgs, wrote) && sync.Sender? && SyncAck(1, 0, q) in msgs
    ensures Allowed(s, DeliverAck(SyncAck(1, 0, q)))
    ensures Scene(Apply(s, DeliverAck(SyncAck(1, 0, q))), st,
                  map[0 := Sender(sync.peer, sync.clocks, sync.pending, sync.inflight - {q}, sync.count)], msgs, wrote)
  {
    var sync' := Sender(sync.peer, sync.clocks, sync.pending, sync.inflight - {q}, sync.count);
    assert map[0 := sync][0 := sync'] == map[0 := sync'];
    Moved(s, Apply(s, DeliverAck(SyncAck(1, 0, q))), st, map[0 := sync], map[0 := sync'], msgs, {}, wrote);
    assert msgs + {} == msgs;
  }

  lemma TimesOut(s: System, st: State, sync: Sync, msgs: set<Msg>, wrote: map<Dot, Key>)
    requires Scene(s, st, map[0 := sync], msgs, wrote)
    ensures Allowed(s, DropSync(1, 0)) && Scene(Apply(s, DropSync(1, 0)), st, map[], msgs, wrote)
  {
    assert map[0 := sync] - {0} == map[];
  }

  lemma Finishes(s: System, st: State, sync: Sync, msgs: set<Msg>, wrote: map<Dot, Key>)
    requires Scene(s, st, map[0 := sync], msgs, wrote)
    requires sync.Sender? && sync.peer == 2 && sync.pending == Snapshot(map[]) && sync.inflight == map[]
    ensures Allowed(s, SendFin(1, 0))
    ensures Scene(Apply(s, SendFin(1, 0)), st, map[0 := sync], msgs + {SyncFin(2, 1, 0, sync.clocks)}, wrote)
  {
  }

  /** The clock is merged, the store stays as it was. */
  lemma Concludes(s: System, st: State, syncs: map<Cookie, Sync>, msgs: set<Msg>, wrote: map<Dot, Key>, clocks: Clock)
    requires Scene(s, st, syncs, msgs, wrote) && SyncFin(2, 1, 0, clocks) in msgs && NormalClock(clocks)
    ensures var a := DeliverFin(SyncFin(2, 1, 0, clocks));
            && Allowed(s, a)
            && var s' := Apply(s, a);
               && 2 in s'.replicas && s'.replicas[2].state.store.Keys <= {B} && s'.writes == s.writes
               && forall d :: Has(clocks, d) ==> Has(s'.replicas[2].state.clock, d)
  {
    ClockMergeUnites(s.replicas[2].state.clock, clocks);
  }

  // ---------------------------------------------------------------- the run, last action first

  /** The second write is in node 2's clock and its key is not in node 2's store. */
  ghost predicate Lost(s: System) {
    && 2 in s.replicas && Dot(1, 2) in s.writes && Has(s.replicas[2].state.clock, Dot(1, 2))
    && s.writes[Dot(1, 2)].key !in s.replicas[2].state.store
  }

  ghost predicate Loses(s: System, run: seq<Action>) {
    CanRun(s, run) && Lost(Run(s, run)) && forall a :: a in run ==> !Fails(a)
  }

  ghost predicate CanLose(s: System) {
    exists run :: Loses(s, run)
  }

  lemma Before(s: System, a: Action)
    requires Allowed(s, a) && !Fails(a) && CanLose(Apply(s, a))
    ensures CanLose(s)
  {
    var run :| Loses(Apply(s, a), run);
    var all := [a] + run;
    assert all[0] == a && all[1..] == run;
    assert Loses(s, all);
  }

  lemma Goes(s: System, a: Action) returns (s': System)
    requires Allowed(s, a) && !Fails(a)
    ensures s' == Apply(s, a) && (CanLose(s') ==> CanLose(s))
  {
    s' := Apply(s, a);
    if CanLose(s') { Before(s, a); }
  }

  lemma BeforeSend(s: System, st: State, sync: Sync, msgs: set<Msg>, wrote: map<Dot, Key>, key: Key) returns (s': System)
    requires Scene(s, st, map[0 := sync], msgs, wrote)
    requires sync.Sender? && sync.peer == 2 && sync.pending.Snapshot? && key in sync.pending.rest
    ensures var cube := sync.pending.rest[key];
            Scene(s', st, map[0 := Sender(2, sync.clocks, Snapshot(sync.pending.rest - {key}),
                                          sync.inflight[sync.count := (key, cube)], sync.count + 1)],
                  msgs + {SyncSend(2, 1, 0, sync.count, key, cube)}, wrote)
    ensures CanLose(s') ==> CanLose(s)
  {
    Sends(s, st, sync, msgs, wrote, key);
    s' := Goes(s, SendKey(1, 0, key));
  }

  lemma BeforeAck(s: System, st: State, sync: Sync, msgs: set<Msg>, wrote: map<Dot, Key>, q: nat) returns (s': System)
    requires Scene(s, st, map[0 := sync], msgs, wrote) && sync.Sender? && SyncAck(1, 0, q) in msgs
    ensures Scene(s', st, map[0 := Sender(sync.peer, sync.clocks, sync.pending, sync.inflight - {q}, sync.count)], msgs, wrote)
    ensures CanLose(s') ==> CanLose(s)
  {
    Acks(s, st, sync, msgs, wrote, q);
    s' := Goes(s, DeliverAck(SyncAck(1, 0, q)));
  }

  lemma BeforeWrite(s: System, st: State, msgs: set<Msg>, wrote: map<Dot, Key>, key: Key, st': State, cube: Cube)
    returns (s': System)
    requires Scene(s, st, map[], msgs, wrote) && Slice(st.clock, 1).Solid()
    requires Flush(st, 1, key, SET) == Stored(st', cube)
    requires forall d :: d in wrote ==> d.version <= s.issued[1]
    ensures Scene(s', st', map[], msgs, wrote[Dot(1, s.issued[1] + 1) := key])
    ensures CanLose(s') ==> CanLose(s)
  {
    Writes(s, st, msgs, wrote, key, st', cube);
    s' := Goes(s, ClientWrite(1, key, SET));
  }

  const CUBE_B := Val(Value(map[Dot(1, 1) := Some([])], map[1 := 1]))
  const CUBE_A := Val(Value(map[Dot(1, 2) := Some([])], map[1 := 2]))
  const AFTER_B := State(map[1 := BV(1, {})], map[B := CUBE_B], map[Dot(1, 1) := B])
  const AFTER_A := State(map[1 := BV(2, {})], map[B := CUBE_B, A := CUBE_A], map[Dot(1, 1) := B, Dot(1, 2) := A])
  const WROTE_B := map[Dot(1, 1) := B]
  const WROTE_A := map[Dot(1, 1) := B, Dot(1, 2) := A]

  lemma FinArrives(s: System, syncs: map<Cookie, Sync>, msgs: set<Msg>)
    requires Scene(s, AFTER_A, syncs, msgs, WROTE_A) && SyncFin(2, 1, 0, AFTER_A.clock) in msgs
    ensures CanLose(s)
  {
    var a := DeliverFin(SyncFin(2, 1, 0, AFTER_A.clock));
    Concludes(s, AFTER_A, syncs, msgs, WROTE_A, AFTER_A.clock);
    assert Has(AFTER_A.clock, Dot(1, 2));
    assert Loses(Apply(s, a), []);
    Before(s, a);
  }

  lemma FinSent(s: System, msgs: set<Msg>)
    requires Scene(s, AFTER_A, map[0 := Sender(2, AFTER_A.clock, Snapshot(map[]), map[], 2)], msgs, WROTE_A)
    ensures CanLose(s)
  {
    var sync := Sender(2, AFTER_A.clock, Snapshot(map[]), map[], 2);
    Finishes(s, AFTER_A, sync, msgs, WROTE_A);
    FinArrives(Apply(s, SendFin(1, 0)), map[0 := sync], msgs + {SyncFin(2, 1, 0, AFTER_A.clock)});
    Before(s, SendFin(1, 0));
  }

  lemma LastAck(s: System, msgs: set<Msg>)
    requires Scene(s, AFTER_A, map[0 := Sender(2, AFTER_A.clock, Snapshot(map[]), map[1 := (B, CUBE_B)], 2)], msgs, WROTE_A)
    requires SyncAck(1, 0, 1) in msgs
    ensures CanLose(s)
  {
    var s' := BeforeAck(s, AFTER_A, Sender(2, AFTER_A.clock, Snapshot(map[]), map[1 := (B, CUBE_B)], 2), msgs, WROTE_A, 1);
    assert map[1 := (B, CUBE_B)] - {1} == map[];
    FinSent(s', msgs);
  }

  lemma SecondArrival(s: System, msgs: set<Msg>)
    requires Scene(s, AFTER_A, map[0 := Sender(2, AFTER_A.clock, Snapshot(map[]), map[1 := (B, CUBE_B)], 2)], msgs, WROTE_A)
    requires SyncSend(2, 1, 0, 1, B, CUBE_B) in msgs
    ensures CanLose(s)
  {
    var a := DeliverSend(SyncSend(2, 1, 0, 1, B, CUBE_B));
    Receives(s, AFTER_A, map[0 := Sender(2, AFTER_A.clock, Snapshot(map[]), map[1 := (B, CUBE_B)], 2)], msgs, WROTE_A, 1, CUBE_B);
    LastAck(Apply(s, a), msgs + {SyncAck(1, 0, 1)});
    Before(s, a);
  }

  lemma SentAgain(s: System, msgs: set<Msg>)
    requires Scene(s, AFTER_A, map[0 := Sender(2, AFTER_A.clock, Snapshot(map[B := CUBE_B]), map[], 1)], msgs, WROTE_A)
    ensures CanLose(s)
  {
    var s' := BeforeSend(s, AFTER_A, Sender(2, AFTER_A.clock, Snapshot(map[B := CUBE_B]), map[], 1), msgs, WROTE_A, B);
    assert map[B := CUBE_B] - {B} == map[];
    SecondArrival(s', msgs + {SyncSend(2, 1, 0, 1, B, CUBE_B)});
  }

  /** Number 0 is A now. It never arrives, but an acknowledgement of number 0 does. */
  lemma StaleAck(s: System, msgs: set<Msg>)
    requires Scene(s, AFTER_A, map[0 := Sender(2, AFTER_A.clock, Snapshot(map[B := CUBE_B]), map[0 := (A, CUBE_A)], 1)],
                   msgs, WROTE_A)
    requires SyncAck(1, 0, 0) in msgs
    ensures CanLose(s)
  {
    var s' := BeforeAck(s, AFTER_A, Sender(2, AFTER_A.clock, Snapshot(map[B := CUBE_B]), map[0 := (A, CUBE_A)], 1),
                        msgs, WROTE_A, 0);
    assert map[0 := (A, CUBE_A)] - {0} == map[];
    SentAgain(s', msgs);
  }

  lemma SentA(s: System, msgs: set<Msg>)
    requires Scene(s, AFTER_A, map[0 := Sender(2, AFTER_A.clock, Snapshot(AFTER_A.store), map[], 0)], msgs, WROTE_A)
    requires SyncAck(1, 0, 0) in msgs
    ensures CanLose(s)
  {
    var s' := BeforeSend(s, AFTER_A, Sender(2, AFTER_A.clock, Snapshot(AFTER_A.store), map[], 0), msgs, WROTE_A, A);
    assert AFTER_A.store - {A} == map[B := CUBE_B];
    StaleAck(s', msgs + {SyncSend(2, 1, 0, 0, A, CUBE_A)});
  }

  lemma Restarted(s: System, msgs: set<Msg>)
    requires Scene(s, AFTER_A, map[], msgs, WROTE_A) && START in msgs && SyncAck(1, 0, 0) in msgs
    ensures CanLose(s)
  {
    Starts(s, AFTER_A, msgs, WROTE_A);
    SentA(Apply(s, DeliverStart(START, [1])), msgs);
    Before(s, DeliverStart(START, [1]));
  }

  lemma WrittenA(s: System, msgs: set<Msg>)
    requires Scene(s, AFTER_B, map[], msgs, WROTE_B) && START in msgs && SyncAck(1, 0, 0) in msgs
    ensures CanLose(s)
  {
    WriteA();
    var s' := BeforeWrite(s, AFTER_B, msgs, WROTE_B, A, AFTER_A, CUBE_A);
    assert WROTE_B[Dot(1, 2) := A] == WROTE_A;
    Restarted(s', msgs);
  }

  lemma WriteA()
    ensures Flush(AFTER_B, 1, A, SET) == Stored(AFTER_A, CUBE_A)
  {
    assert Bases(AFTER_B.clock) == map[1 := 1];
    SetA();
    assert Dot(1, 2) in CUBE_A.value.values;
  }

  lemma SetA()
    ensures Value(map[], map[1 := 1]).Set(1, 2, Some([]), map[]) == CUBE_A.value
  {
  }

  lemma TimedOut(s: System, sync: Sync, msgs: set<Msg>)
    requires Scene(s, AFTER_B, map[0 := sync], msgs, WROTE_B) && START in msgs && SyncAck(1, 0, 0) in msgs
    ensures CanLose(s)
  {
    TimesOut(s, AFTER_B, sync, msgs, WROTE_B);
    WrittenA(Apply(s, DropSync(1, 0)), msgs);
    Before(s, DropSync(1, 0));
  }

  lemma FirstArrival(s: System, sync: Sync, msgs: set<Msg>)
    requires Scene(s, AFTER_B, map[0 := sync], msgs, WROTE_B) && START in msgs && SyncSend(2, 1, 0, 0, B, CUBE_B) in msgs
    ensures CanLose(s)
  {
    var a := DeliverSend(SyncSend(2, 1, 0, 0, B, CUBE_B));
    Receives(s, AFTER_B, map[0 := sync], msgs, WROTE_B, 0, CUBE_B);
    TimedOut(Apply(s, a), sync, msgs + {SyncAck(1, 0, 0)});
    Before(s, a);
  }

  lemma SentB(s: System)
    requires Scene(s, AFTER_B, map[0 := Sender(2, AFTER_B.clock, Snapshot(AFTER_B.store), map[], 0)], {START}, WROTE_B)
    ensures CanLose(s)
  {
    Sends(s, AFTER_B, Sender(2, AFTER_B.clock, Snapshot(AFTER_B.store), map[], 0), {START}, WROTE_B, B);
    FirstArrival(Apply(s, SendKey(1, 0, B)),
                 Sender(2, AFTER_B.clock, Snapshot(AFTER_B.store - {B}), map[0 := (B, CUBE_B)], 1),
                 {START} + {SyncSend(2, 1, 0, 0, B, CUBE_B)});
    Before(s, SendKey(1, 0, B));
  }

  lemma Started(s: System)
    requires Scene(s, AFTER_B, map[], {START}, WROTE_B)
    ensures CanLose(s)
  {
    Starts(s, AFTER_B, {START}, WROTE_B);
    SentB(Apply(s, DeliverStart(START, [1])));
    Before(s, DeliverStart(START, [1]));
  }

  lemma WrittenB(s: System)
    requires Scene(s, BLANK, map[], {START}, map[])
    ensures CanLose(s)
  {
    WriteB();
    var s' := BeforeWrite(s, BLANK, {START}, map[], B, AFTER_B, CUBE_B);
    assert map[][Dot(1, 1) := B] == WROTE_B;
    Started(s');
  }

  lemma WriteB()
    ensures Flush(BLANK, 1, B, SET) == Stored(AFTER_B, CUBE_B)
  {
    assert Bases(BLANK.clock) == map[];
    assert Value(map[], map[]).Set(1, 1, Some([]), map[]) == CUBE_B.value;
    assert Dot(1, 1) in CUBE_B.value.values;
  }

  /** From two blank replicas, with only actions the handlers allow and none that fails, a write gets
      lost. */
  lemma RestartLosesAWrite()
    ensures Init(Start()) && CanLose(Start())
  {
    Opens(Start());
    WrittenB(Apply(Start(), OpenSync(2, 1, 0)));
    Before(Start(), OpenSync(2, 1, 0));
  }
}
