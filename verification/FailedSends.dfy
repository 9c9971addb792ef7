/** Why senders must not fail. send_next takes a key from its iterator before it sends it. When there is
    no route to the peer it returns an error, and the key is neither sent nor in flight; the same goes
    for dots and keys when the log cannot be read. On a tick the error ends the sync, but on_start and
    on_msg_ack ignore it (src/vnode_sync.rs:415-440, 523-528, 597-615): the sender goes on without the
    key, and its fin claims the writes of it. */
module FailedSends {
  import opened Clocks
  import opened Cubes
  import opened Replicas
  import opened Causality
  import opened Protocol
  import opened ProtocolInvariant
  import opened ProtocolTheorems
  import opened AntiEntropy
  import RS = RestartedSync

  /** n serves m, nothing is in flight, and when a has failed nothing is left to send. */
  ghost predicate LastFails(s: System, m: Id, n: Id, cookie: Cookie, a: Action) {
    && IsReceiver(s, m, cookie) && IsSender(s, n, cookie) && m != n
    && s.replicas[n].syncs[cookie].peer == m && s.replicas[n].syncs[cookie].inflight == map[]
    && Fails(a) && a.n == n && a.cookie == cookie && Allowed(s, a)
    && Exhausted(Apply(s, a).replicas[n].syncs[cookie].pending)
  }

  function TheFin(s: System, m: Id, n: Id, cookie: Cookie): Msg
    requires IsSender(s, n, cookie)
  {
    SyncFin(m, n, cookie, s.replicas[n].syncs[cookie].clocks)
  }

  function Ending(s: System, m: Id, n: Id, cookie: Cookie, a: Action): seq<Action>
    requires IsSender(s, n, cookie)
  {
    [a, SendFin(n, cookie), DeliverFin(TheFin(s, m, n, cookie))]
  }

  lemma FinIsSent(s: System, m: Id, n: Id, cookie: Cookie, a: Action) returns (s': System)
    requires LastFails(s, m, n, cookie, a)
    ensures CanFinish(Apply(s, a), n, cookie) && s' == AfterSendFin(Apply(s, a), n, cookie)
    ensures CanConclude(s', TheFin(s, m, n, cookie)) && s'.writes == s.writes
    ensures s'.replicas[m].state == s.replicas[m].state
  {
    s' := AfterSendFin(Apply(s, a), n, cookie);
  }

  lemma RunOne(s: System, a: Action, s': System)
    requires Allowed(s, a) && Apply(s, a) == s'
    ensures CanRun(s, [a]) && Run(s, [a]) == s' && (InOrder(s, a) ==> Orderly(s, [a]))
  {
    assert CanRun(s', []) && Run(s', []) == s' && Orderly(s', []);
    RunThen(s, a, s', []);
    assert [a] + [] == [a];
  }

  lemma ThreeSteps(s: System, a: Action, s1: System, b: Action, s2: System, c: Action, s3: System)
    requires Allowed(s, a) && Apply(s, a) == s1 && Allowed(s1, b) && Apply(s1, b) == s2
    requires Allowed(s2, c) && Apply(s2, c) == s3
    ensures CanRun(s, [a, b, c]) && Run(s, [a, b, c]) == s3
  {
    RunOne(s2, c, s3);
    RunThen(s1, b, s2, [c]);
    assert [b] + [c] == [b, c];
    RunThen(s, a, s1, [b, c]);
    assert [a] + [b, c] == [a, b, c];
  }

  /** In every such state the peer ends with every claimed write in its clock, and has seen of them
      exactly those it had seen before: the others are lost. */
  lemma FailureLosesIff(s: System, m: Id, n: Id, cookie: Cookie, a: Action, d: Dot)
    requires Reachable(s) && LastFails(s, m, n, cookie, a)
    requires d in s.writes && Has(s.replicas[n].syncs[cookie].clocks, d)
    ensures CanRun(s, Ending(s, m, n, cookie, a))
    ensures var s' := Run(s, Ending(s, m, n, cookie, a));
            && s'.writes == s.writes && m in s'.replicas && Has(s'.replicas[m].state.clock, d)
            && (Seen(s'.writes, s'.replicas[m].state, d) <==> Seen(s.writes, s.replicas[m].state, d))
  {
    var s1 := FinIsSent(s, m, n, cookie, a);
    NormalClocks(s, m, n, cookie);
    ClockMergeUnites(s1.replicas[m].state.clock, TheFin(s, m, n, cookie).clocks);
    var fin := TheFin(s, m, n, cookie);
    ThreeSteps(s, a, Apply(s, a), SendFin(n, cookie), s1, DeliverFin(fin), AfterFin(s1, fin));
  }

  lemma NormalClocks(s: System, m: Id, n: Id, cookie: Cookie)
    requires Reachable(s) && m in s.replicas && IsSender(s, n, cookie)
    ensures NormalClock(s.replicas[m].state.clock) && NormalClock(s.replicas[n].syncs[cookie].clocks)
  {
    ReachableInv(s);
    assert StateOk(s.writes, s.issued, m, s.replicas[m].state);
    assert SyncOk(s, n, cookie);
  }

  // ---------------------------------------------------------------- an instance

  const OPEN := OpenSync(2, 1, 0)
  const WRITE := ClientWrite(1, RS.B, RS.SET)
  const SERVE := DeliverStart(RS.START, [1])

  lemma Opens() returns (s: System)
    ensures Reachable(s) && RS.Scene(s, BLANK, map[], {RS.START}, map[]) && s.replicas[2].state == BLANK && s.started == {}
  {
    var s0 := RS.Start();
    RS.Opens(s0);
    assert IsRun(s0, [], s0);
    s := Apply(s0, OPEN);
    ReachableNext(s0, OPEN, s);
  }

  lemma Writes(s: System) returns (s': System)
    requires RS.Scene(s, BLANK, map[], {RS.START}, map[]) && s.replicas[2].state == BLANK && s.started == {} && Reachable(s)
    ensures RS.Scene(s', RS.AFTER_B, map[], {RS.START}, RS.WROTE_B)
    ensures s'.replicas[2].state == BLANK && s'.started == {} && Reachable(s')
  {
    RS.WriteB();
    RS.Writes(s, BLANK, {RS.START}, map[], RS.B, RS.AFTER_B, RS.CUBE_B);
    assert map[][Dot(1, 1) := RS.B] == RS.WROTE_B;
    WriteLeaves(s);
    s' := Apply(s, WRITE);
    ReachableNext(s, WRITE, s');
  }

  lemma WriteLeaves(s: System)
    requires Allowed(s, WRITE) && 2 in s.replicas
    ensures 2 in Apply(s, WRITE).replicas && Apply(s, WRITE).replicas[2] == s.replicas[2] && Apply(s, WRITE).started == s.started
  {
  }

  lemma Serves(s: System) returns (s': System)
    requires RS.Scene(s, RS.AFTER_B, map[], {RS.START}, RS.WROTE_B)
    requires s.replicas[2].state == BLANK && s.started == {} && Reachable(s)
    ensures RS.Scene(s', RS.AFTER_B, map[0 := Sender(2, RS.AFTER_B.clock, Snapshot(RS.AFTER_B.store), map[], 0)],
                     {RS.START}, RS.WROTE_B)
    ensures s'.replicas[2].state == BLANK && Reachable(s')
  {
    RS.Starts(s, RS.AFTER_B, {RS.START}, RS.WROTE_B);
    s' := Apply(s, SERVE);
    ReachableNext(s, SERVE, s');
  }

  lemma Reaches() returns (s: System)
    ensures Reachable(s) && s.replicas.Keys == {1, 2} && s.replicas[2].state == BLANK
    ensures RS.Scene(s, RS.AFTER_B, map[0 := Sender(2, RS.AFTER_B.clock, Snapshot(RS.AFTER_B.store), map[], 0)],
                     {RS.START}, RS.WROTE_B)
  {
    var s1 := Opens();
    var s2 := Writes(s1);
    s := Serves(s2);
  }

  lemma ReachableNext(s: System, a: Action, s': System)
    requires Reachable(s) && Allowed(s, a) && InOrder(s, a) && Apply(s, a) == s'
    ensures Reachable(s')
  {
    RunOne(s, a, s');
    ReachableRun(s, [a]);
  }

  lemma Failing(s: System, a: Action)
    requires RS.Scene(s, RS.AFTER_B, map[0 := Sender(2, RS.AFTER_B.clock, Snapshot(RS.AFTER_B.store), map[], 0)],
                      {RS.START}, RS.WROTE_B)
    requires s.replicas[2].state == BLANK && a == FailSend(1, 0, RS.B)
    ensures LastFails(s, 2, 1, 0, a) && Dot(1, 1) in s.writes && Has(s.replicas[1].syncs[0].clocks, Dot(1, 1))
    ensures !Seen(s.writes, s.replicas[2].state, Dot(1, 1))
  {
    assert RS.AFTER_B.store - {RS.B} == map[];
    assert Dot(1, 1) in RS.WROTE_B;
  }

  /** From a reachable state: a key of the snapshot cannot be sent, and its write is lost. */
  lemma FailedSendLosesAWrite() returns (s: System, run: seq<Action>)
    ensures Reachable(s) && CanRun(s, run) && |run| == 3 && Fails(run[0]) && !Fails(run[1]) && !Fails(run[2])
    ensures var s' := Run(s, run);
            && 2 in s'.replicas && Dot(1, 1) in s'.writes && Has(s'.replicas[2].state.clock, Dot(1, 1))
            && !Seen(s'.writes, s'.replicas[2].state, Dot(1, 1))
  {
    s := Reaches();
    var a := FailSend(1, 0, RS.B);
    Failing(s, a);
    FailureLosesIff(s, 2, 1, 0, a, Dot(1, 1));
    run := Ending(s, 2, 1, 0, a);
  }
}
