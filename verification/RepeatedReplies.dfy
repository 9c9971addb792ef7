/** What repeated replies do to the counting. process_get and process_set count every reply that
    comes for a cookie and do not look at its sender (src/vnode.rs:469-561, src/vnode.rs:564-566,
    src/vnode.rs:643-645). */
module RepeatedReplies {
  import opened Basics
  import opened Clocks
  import opened Cubes
  import opened Replicas
  import opened Protocol
  import opened QuorumSystem
  import opened Quorum
  import R = Requests

  // ---------------------------------------------------------------- each reply comes once

  predicate Repeats(a: Op, b: Op) {
    (a.CountSet? && a == b) || (a.CountGet? && b.CountGet? && a.c == b.c && a.m == b.m)
  }

  /** No reply of a replica to a cookie comes twice. */
  predicate NoRepeats(ops: seq<Op>) {
    forall i, j :: 0 <= i < j < |ops| ==> !Repeats(ops[i], ops[j])
  }

  /** A coordinator does not write to itself. */
  ghost predicate Foreign(c: Cluster) {
    && (forall a :: a in c.setAcks ==> a.from != a.dot.id)
    && (forall a :: a in c.getAcks ==> a.cookie in c.asked && c.asked[a.cookie].coordinator != Some(a.from))
  }

  ghost predicate ReadOnce(read: Read) {
    read.request.CountedOnce() && forall d :: d in read.answered ==> read.answered[d].CountedOnce()
  }

  ghost predicate AllOnce(c: Cluster) {
    && (forall d :: d in c.sets ==> c.sets[d].CountedOnce())
    && (forall cookie :: cookie in c.asked ==> ReadOnce(c.asked[cookie]))
  }

  /** The reply has not been counted yet. */
  ghost predicate Unused(c: Cluster, op: Op) {
    && (op.CountSet? && op.d in c.sets && op.m in c.sets[op.d].repliers ==> op.m == op.d.id)
    && (op.CountGet? && op.c in c.asked && op.m in c.asked[op.c].request.repliers ==>
          c.asked[op.c].coordinator == Some(op.m))
  }

  lemma StaysForeign(c: Cluster, op: Op)
    requires Enabled(c, op) && Foreign(c)
    ensures Foreign(Do(c, op))
  {
  }

  lemma StaysUnused(c: Cluster, op: Op, later: Op)
    requires Enabled(c, op) && Unused(c, later) && !Repeats(op, later)
    ensures Unused(Do(c, op), later)
  {
  }

  lemma ProcessOnce(r: Request, from: Option<Id>)
    requires r.CountedOnce() && (from.Some? ==> from.value !in r.repliers)
    ensures Process(r, from).CountedOnce()
  {
  }

  lemma SetOnce(c: Cluster, op: Op)
    requires Enabled(c, op) && Foreign(c) && AllOnce(c) && Unused(c, op)
    ensures forall d :: d in Do(c, op).sets ==> Do(c, op).sets[d].CountedOnce()
  {
    match op
    case CountOwn(d) => ProcessOnce(c.sets[d], Some(d.id));
    case CountSet(d, m) => ProcessOnce(c.sets[d], Some(m));
    case SetFails(d) => ProcessOnce(c.sets[d], None);
    case _ =>
  }

  lemma GetOnce(c: Cluster, op: Op)
    requires Enabled(c, op) && Foreign(c) && AllOnce(c) && Unused(c, op)
    ensures forall cookie :: cookie in Do(c, op).asked ==> ReadOnce(Do(c, op).asked[cookie])
  {
    match op
    case CountGet(cookie, m, _) => ProcessOnce(c.asked[cookie].request, Some(m));
    case GetFails(cookie) => ProcessOnce(c.asked[cookie].request, None);
    case _ =>
  }

  lemma {:induction false} RunOnce(c: Cluster, ops: seq<Op>)
    requires CanDo(c, ops) && Foreign(c) && AllOnce(c) && NoRepeats(ops)
    requires forall i :: 0 <= i < |ops| ==> Unused(c, ops[i])
    ensures AllOnce(DoAll(c, ops))
    decreases |ops|
  {
    if ops != [] {
      var c', rest := Do(c, ops[0]), ops[1..];
      StaysForeign(c, ops[0]);
      SetOnce(c, ops[0]);
      GetOnce(c, ops[0]);
      forall i | 0 <= i < |rest| ensures Unused(c', rest[i]) {
        StaysUnused(c, ops[0], ops[i + 1]);
      }
      RunOnce(c', rest);
    }
  }

  /** Where no reply comes twice, reads and writes at levels that have to meet do. */
  lemma NoRepeatsReadsSeeWrites(c0: Cluster, ops: seq<Op>, cookie: Cookie, d: Dot)
    requires Fresh(c0) && CanDo(c0, ops) && NoRepeats(ops)
    requires var c := DoAll(c0, ops); cookie in c.asked && HaveToMeet(c.sys, c.asked[cookie], d)
    ensures var c := DoAll(c0, ops); ShowsWrite(c.sys.writes, c.asked[cookie].key, c.asked[cookie].cube, d)
  {
    RunOnce(c0, ops);
    QuorumReadsSeeQuorumWrites(c0, ops, cookie, d);
  }

  // ---------------------------------------------------------------- one reply comes twice

  const K: Key := []
  const SET := Assign([], map[])
  const WRITE := Dot(1, 1)

  const NEW := Replica(true, BLANK, map[])

  function Start(): Cluster {
    Cluster(System(map[1 := NEW, 2 := NEW, 3 := NEW, 4 := NEW, 5 := NEW], {}, map[],
                   map[1 := 0, 2 := 0, 3 := 0, 4 := 0, 5 := 0], map[], {}),
            map[], {}, map[], map[], {})
  }

  lemma FreshStart() returns (c: Cluster)
    ensures c == Start() && Fresh(c)
  {
    c := Start();
  }

  /** Five replicas, the last three of them blank, and the write of WRITE. */
  ghost predicate Scene(s: System) {
    && s.replicas.Keys == {1, 2, 3, 4, 5} && |s.replicas| == 5
    && s.replicas[3].state == BLANK && s.replicas[4].state == BLANK && s.replicas[5].state == BLANK
    && WRITE in s.writes && s.writes[WRITE].key == K
  }

  /** A request at quorum with n successes. */
  function Counted(n: nat, repliers: seq<Id>): Request {
    Request(R.ReqState(3, 5, n, n), repliers, if n < 3 then None else Some(R.Success))
  }

  lemma CountedNext(n: nat, repliers: seq<Id>, m: Id, more: seq<Id>)
    requires n < 3 && more == repliers + [m]
    ensures Process(Counted(n, repliers), Some(m)) == Counted(n + 1, more)
  {
  }

  ghost predicate Reaches(c: Cluster, c': Cluster) {
    exists ops :: CanDo(c, ops) && DoAll(c, ops) == c'
  }

  lemma Then(c: Cluster, op: Op, c': Cluster, rest: seq<Op>)
    requires Enabled(c, op) && Do(c, op) == c' && CanDo(c', rest)
    ensures CanDo(c, [op] + rest) && DoAll(c, [op] + rest) == DoAll(c', rest)
  {
    assert ([op] + rest)[1..] == rest;
  }

  lemma ReachesNext(c: Cluster, op: Op, c': Cluster)
    requires Enabled(c, op) && Do(c, op) == c'
    ensures Reaches(c, c')
  {
    assert CanDo(c', []) && DoAll(c', []) == c';
    Then(c, op, c', []);
  }

  lemma {:induction false} DoMore(c: Cluster, ops: seq<Op>, more: seq<Op>)
    requires CanDo(c, ops) && CanDo(DoAll(c, ops), more)
    ensures CanDo(c, ops + more) && DoAll(c, ops + more) == DoAll(DoAll(c, ops), more)
    decreases |ops|
  {
    if ops == [] {
      assert ops + more == more;
    } else {
      var c' := Do(c, ops[0]);
      DoMore(c', ops[1..], more);
      Then(c, ops[0], c', ops[1..] + more);
      FirstOut(ops, more);
    }
  }

  lemma ReachesTrans(c: Cluster, c': Cluster, c'': Cluster)
    requires Reaches(c, c') && Reaches(c', c'')
    ensures Reaches(c, c'')
  {
    var ops :| CanDo(c, ops) && DoAll(c, ops) == c';
    var more :| CanDo(c', more) && DoAll(c', more) == c'';
    DoMore(c, ops, more);
  }

  // The write, acknowledged twice by replica 2.

  ghost predicate Writable(s: System, cube: Cube) {
    && Scene(s) && cube.Val? && Covers(cube.Context(), WRITE) && Has(s.replicas[1].state.clock, WRITE)
    && RemoteSet(1, K, cube) in s.net && RemoteSet(2, K, cube) in s.net
  }

  lemma FirstFlush() returns (st: State, cube: Cube)
    ensures Flush(BLANK, 1, K, SET) == Stored(st, cube)
    ensures cube.Val? && Covers(cube.Context(), WRITE) && Has(st.clock, WRITE)
  {
    var f := Flush(BLANK, 1, K, SET);
    assert Bases(BLANK.clock) == map[];
    assert f.Stored? && WRITE in f.cube.value.values;
    st, cube := f.state, f.cube;
  }

  lemma WriteIsStored(s: System, st: State, cube: Cube)
    requires 1 in s.replicas && s.replicas[1] == NEW && 1 in s.issued && s.issued[1] == 0
    requires Flush(BLANK, 1, K, SET) == Stored(st, cube)
    ensures Allowed(s, ClientWrite(1, K, SET))
    ensures var s' := Apply(s, ClientWrite(1, K, SET));
            && s'.replicas == s.replicas[1 := Replica(true, st, map[])]
            && WRITE in s'.writes && s'.writes[WRITE].key == K
  {
  }

  lemma WriteIsSent(s: System, st: State, cube: Cube, m: Id)
    requires 1 in s.replicas && m in s.replicas && Allowed(s, ClientWrite(1, K, SET))
    requires Flush(s.replicas[1].state, 1, K, SET) == Stored(st, cube)
    ensures RemoteSet(m, K, cube) in Apply(s, ClientWrite(1, K, SET)).net
  {
  }

  lemma FirstScene(s: System, st: State)
    requires s.replicas == Start().sys.replicas[1 := Replica(true, st, map[])]
    requires WRITE in s.writes && s.writes[WRITE].key == K
    ensures Scene(s)
  {
    assert s.replicas.Keys == {1, 2, 3, 4, 5};
    assert |s.replicas| == |s.replicas.Keys|;
  }

  lemma Writes() returns (c: Cluster, cube: Cube)
    ensures c == Start().(sys := c.sys) && Writable(c.sys, cube) && Reaches(Start(), c)
  {
    var st, written := FirstFlush();
    cube := written;
    c := Written(Start(), st, cube);
  }

  lemma ReachesByProtocol(c: Cluster, a: Action, s: System)
    requires Allowed(c.sys, a) && InOrder(c.sys, a) && Apply(c.sys, a) == s
    ensures Reaches(c, c.(sys := s))
  {
    ReachesNext(c, Protocol(a), c.(sys := s));
  }

  lemma Written(c: Cluster, st: State, cube: Cube) returns (c': Cluster)
    requires c == Start() && Flush(BLANK, 1, K, SET) == Stored(st, cube)
    requires cube.Val? && Covers(cube.Context(), WRITE) && Has(st.clock, WRITE)
    ensures c' == c.(sys := c'.sys) && Reaches(c, c') && Writable(c'.sys, cube)
  {
    WriteIsStored(c.sys, st, cube);
    WriteIsSent(c.sys, st, cube, 1);
    WriteIsSent(c.sys, st, cube, 2);
    c' := c.(sys := Apply(c.sys, ClientWrite(1, K, SET)));
    FirstScene(c'.sys, st);
    ReachesByProtocol(c, ClientWrite(1, K, SET), c'.sys);
  }

  lemma Coordinates(c: Cluster, cube: Cube, c': Cluster)
    requires Writable(c.sys, cube) && c.sets == map[] && c.sent == map[]
    requires c' == c.(sent := map[WRITE := cube], sets := map[WRITE := Counted(0, [])])
    ensures Reaches(c, c')
  {
    ReachesNext(c, Coordinate(WRITE, cube, R.Quorum), c');
  }

  lemma CountsOwn(c: Cluster, cube: Cube)
    requires Writable(c.sys, cube) && c.sets == map[WRITE := Counted(0, [])]
    ensures Reaches(c, c.(sets := map[WRITE := Counted(1, [1])]))
  {
    CountedNext(0, [], 1, [1]);
    ReachesNext(c, CountOwn(WRITE), c.(sets := map[WRITE := Counted(1, [1])]));
  }

  lemma SceneStays(s: System, s': System)
    requires Scene(s) && s'.writes == s.writes && 2 in s'.replicas && s'.replicas == s.replicas[2 := s'.replicas[2]]
    ensures Scene(s')
  {
    assert s'.replicas.Keys == s.replicas.Keys;
    assert |s'.replicas| == |s'.replicas.Keys|;
  }

  lemma Replicates(c: Cluster, cube: Cube) returns (c': Cluster)
    requires Writable(c.sys, cube) && c.sent == map[WRITE := cube] && c.setAcks == {}
    ensures c' == c.(sys := c'.sys, setAcks := {SetAck(WRITE, 2)}) && Scene(c'.sys) && Reaches(c, c')
  {
    var s := AfterSet(c.sys, 2, K, cube, false);
    SceneStays(c.sys, s);
    c' := c.(sys := s, setAcks := {SetAck(WRITE, 2)});
    ReachesNext(c, Replicate(WRITE, 2, false), c');
  }

  lemma Acknowledges(c: Cluster, n: nat, repliers: seq<Id>, more: seq<Id>)
    requires SetAck(WRITE, 2) in c.setAcks && n < 3 && c.sets == map[WRITE := Counted(n, repliers)]
    requires more == repliers + [2]
    ensures Reaches(c, c.(sets := map[WRITE := Counted(n + 1, more)]))
  {
    CountedNext(n, repliers, 2, more);
    ReachesNext(c, CountSet(WRITE, 2), c.(sets := map[WRITE := Counted(n + 1, more)]));
  }

  lemma Succeeds(c: Cluster)
    requires SetAck(WRITE, 2) in c.setAcks && c.sets == map[WRITE := Counted(1, [1])]
    ensures Reaches(c, c.(sets := map[WRITE := Counted(3, [1, 2, 2])]))
  {
    var c1 := c.(sets := map[WRITE := Counted(2, [1, 2])]);
    Acknowledges(c, 1, [1], [1, 2]);
    Acknowledges(c1, 2, [1, 2], [1, 2, 2]);
    ReachesTrans(c, c1, c.(sets := map[WRITE := Counted(3, [1, 2, 2])]));
  }

  /** The write has succeeded, but only its coordinator and replica 2 have it. */
  lemma WriteSucceeds() returns (c: Cluster)
    ensures Reaches(Start(), c) && Scene(c.sys) && c.sets == map[WRITE := Counted(3, [1, 2, 2])]
    ensures c.asked == map[] && c.getAcks == {}
  {
    var c1, cube := Writes();
    var c2 := c1.(sent := map[WRITE := cube], sets := map[WRITE := Counted(0, [])]);
    var c3 := c2.(sets := map[WRITE := Counted(1, [1])]);
    Coordinates(c1, cube, c2);
    CountsOwn(c2, cube);
    var c4 := Replicates(c3, cube);
    Succeeds(c4);
    c := c4.(sets := map[WRITE := Counted(3, [1, 2, 2])]);
    ReachesTrans(Start(), c1, c2);
    ReachesTrans(Start(), c2, c3);
    ReachesTrans(Start(), c3, c4);
    ReachesTrans(Start(), c4, c);
  }

  // The read, from the other three.

  function Under(c: Cluster, n: nat, repliers: seq<Id>): Cluster {
    c.(asked := map[0 := Read(K, Some(3), c.sets, Counted(n, repliers), Void(map[]))])
  }

  function Reply(m: Id): GetAck {
    GetAck(0, m, Void(map[]))
  }

  lemma Begins(c: Cluster)
    requires Scene(c.sys) && c.sets == map[WRITE := Counted(3, [1, 2, 2])] && c.asked == map[]
    ensures Reaches(c, Under(c, 1, [3]))
  {
    assert SucceededWrites(c.sys, c.sets, K) == c.sets;
    assert Bases(BLANK.clock) == map[];
    CountedNext(0, [], 3, [3]);
    ReachesNext(c, BeginRead(0, Some(3), K, R.Quorum), Under(c, 1, [3]));
  }

  lemma ServesVoid(c: Cluster, n: nat, repliers: seq<Id>, m: Id)
    requires Scene(c.sys) && m in {4, 5}
    ensures Reaches(Under(c, n, repliers), Under(c.(getAcks := c.getAcks + {Reply(m)}), n, repliers))
  {
    assert Bases(BLANK.clock) == map[];
    ReachesNext(Under(c, n, repliers), Serve(0, m), Under(c.(getAcks := c.getAcks + {Reply(m)}), n, repliers));
  }

  lemma CountsVoid(c: Cluster, n: nat, repliers: seq<Id>, m: Id, more: seq<Id>)
    requires Reply(m) in c.getAcks && n < 3 && more == repliers + [m]
    ensures Reaches(Under(c, n, repliers), Under(c, n + 1, more))
  {
    CountedNext(n, repliers, m, more);
    ReachesNext(Under(c, n, repliers), CountGet(0, m, Void(map[])), Under(c, n + 1, more));
  }

  lemma BothServe(c: Cluster)
    requires Scene(c.sys) && c.getAcks == {}
    ensures Reaches(Under(c, 1, [3]), Under(c.(getAcks := {Reply(4), Reply(5)}), 1, [3]))
  {
    var c1, c2 := c.(getAcks := {Reply(4)}), c.(getAcks := {Reply(4), Reply(5)});
    ServesVoid(c, 1, [3], 4);
    ServesVoid(c1, 1, [3], 5);
    assert c.getAcks + {Reply(4)} == c1.getAcks && c1.getAcks + {Reply(5)} == c2.getAcks;
    ReachesTrans(Under(c, 1, [3]), Under(c1, 1, [3]), Under(c2, 1, [3]));
  }

  lemma BothCount(c: Cluster)
    requires Reply(4) in c.getAcks && Reply(5) in c.getAcks
    ensures Reaches(Under(c, 1, [3]), Under(c, 3, [3, 4, 5]))
  {
    CountsVoid(c, 1, [3], 4, [3, 4]);
    CountsVoid(c, 2, [3, 4], 5, [3, 4, 5]);
    ReachesTrans(Under(c, 1, [3]), Under(c, 2, [3, 4]), Under(c, 3, [3, 4, 5]));
  }

  /** Read 0 and the write had to meet, no replica was counted twice for the read, and it does not
      have the write. */
  ghost predicate ReadMisses(c: Cluster) {
    && 0 in c.asked && HaveToMeet(c.sys, c.asked[0], WRITE) && c.asked[0].request.CountedOnce()
    && !Covers(c.asked[0].cube.Context(), WRITE)
  }

  lemma Misses(c: Cluster) returns (c': Cluster)
    requires Scene(c.sys) && c.sets == map[WRITE := Counted(3, [1, 2, 2])] && c.asked == map[] && c.getAcks == {}
    ensures Reaches(c, c') && ReadMisses(c')
  {
    var c2 := c.(getAcks := {Reply(4), Reply(5)});
    Begins(c);
    BothServe(c);
    BothCount(c2);
    c' := Under(c2, 3, [3, 4, 5]);
    ReachesTrans(c, Under(c, 1, [3]), Under(c2, 1, [3]));
    ReachesTrans(c, Under(c2, 1, [3]), c');
  }

  /** Five replicas, a write and a read at quorum, and one acknowledgement of the write comes twice: the
      write succeeds with two replicas, the read asks the other three, succeeds and misses the write. */
  lemma RepeatedReplyHidesWrite() returns (c0: Cluster, c: Cluster)
    ensures Fresh(c0) && Reaches(c0, c) && ReadMisses(c)
  {
    var written := WriteSucceeds();
    c := Misses(written);
    ReachesTrans(Start(), written, c);
    c0 := FreshStart();
  }
}
