/** Requests are counted as the client asked (src/types.rs:64-72, src/vnode.rs:107-125, 287-348, 418-466): the
    level of a read or a write decides how many of the replicas it needs, to the end. */
module QuorumLevels {
  import opened Basics
  import opened Clocks
  import opened Cubes
  import opened Replicas
  import opened Protocol
  import opened ProtocolInvariant
  import opened ProtocolTheorems
  import opened QuorumSystem
  import opened Quorum
  import opened RepeatedReplies
  import R = Requests

  /** The request needs what the level asks for, of all replicas. */
  predicate AskedAt(r: Request, level: R.ConsistencyLevel, nodes: nat) {
    r.req.required == R.Required(level, nodes) && r.req.total == nodes
  }

  /** A write starts with nobody counted, not even its coordinator. */
  lemma WriteBegins(c: Cluster, d: Dot, cube: Cube, level: R.ConsistencyLevel)
    requires Enabled(c, Coordinate(d, cube, level))
    ensures var c' := Do(c, Coordinate(d, cube, level));
            && d in c'.sets && AskedAt(c'.sets[d], level, |c.sys.replicas|) && c'.sets[d].repliers == []
            && c'.sets[d].req.replies == c'.sets[d].req.successful == 0 && c'.sets[d].outcome == None
  {
  }

  /** A read on a replica starts with its cube and one success, any other with an empty cube and no reply. */
  lemma ReadBeginsAs(c: Cluster, cookie: Cookie, n: Option<Id>, key: Key, level: R.ConsistencyLevel)
    requires Enabled(c, BeginRead(cookie, n, key, level))
    ensures var c' := Do(c, BeginRead(cookie, n, key, level));
            && cookie in c'.asked && c'.asked[cookie].key == key
            && var r := c'.asked[cookie].request;
               && AskedAt(r, level, |c.sys.replicas|)
               && r.req.replies == r.req.successful == (if n.Some? then 1 else 0)
               && r.repliers == (if n.Some? then [n.value] else [])
               && c'.asked[cookie].cube == if n.Some? then Get(c.sys.replicas[n.value].state, key) else Void(map[])
  {
  }

  /** A reply from m, or an error: one reply more, a success only for the former, and nothing once answered. */
  lemma Counts(r: Request, from: Option<Id>)
    ensures var r' := Process(r, from);
            if r.outcome.Some? then r' == r
            else
              && r'.req.replies == r.req.replies + 1 && r'.req.required == r.req.required && r'.req.total == r.req.total
              && r'.req.successful == r.req.successful + (if from.Some? then 1 else 0)
              && r'.repliers == r.repliers + (if from.Some? then [from.value] else [])
              && (r'.outcome == Some(R.Success) <==> r'.req.successful >= r'.req.required)
              && (r'.outcome == Some(R.Unavailable) <==>
                    r'.req.successful < r'.req.required && r'.req.replies == r'.req.total)
    ensures Expire(r) == if r.outcome.Some? then r else r.(outcome := Some(R.Timeout))
  {
  }

  /** The coordinator of a write counts itself and then whoever acknowledges, that of a read whoever replies, as
      a success each while the request is under way; the reply's cube is merged in. */
  lemma CountsWhom(c: Cluster, op: Op)
    requires Enabled(c, op)
    ensures (op.CountOwn? || op.CountSet?) && c.sets[op.d].outcome.None? ==>
              var r := Do(c, op).sets[op.d];
              && r.repliers == c.sets[op.d].repliers + [if op.CountOwn? then op.d.id else op.m]
              && r.req.successful == c.sets[op.d].req.successful + 1
    ensures op.CountGet? && c.asked[op.c].request.outcome.None? ==>
              var read := Do(c, op).asked[op.c];
              && read.request.repliers == c.asked[op.c].request.repliers + [op.m]
              && read.request.req.successful == c.asked[op.c].request.req.successful + 1
              && read.cube == c.asked[op.c].cube.Merge(op.cube)
  {
  }

  predicate SameNeed(r: Request, r': Request) {
    r'.req.required == r.req.required && r'.req.total == r.req.total
  }

  lemma StepKeepsSet(c: Cluster, op: Op, d: Dot)
    requires Enabled(c, op) && d in c.sets
    ensures d in Do(c, op).sets && SameNeed(c.sets[d], Do(c, op).sets[d])
  {
  }

  lemma StepKeepsRead(c: Cluster, op: Op, cookie: Cookie)
    requires Enabled(c, op) && cookie in c.asked
    ensures cookie in Do(c, op).asked && SameNeed(c.asked[cookie].request, Do(c, op).asked[cookie].request)
    ensures Do(c, op).asked[cookie].answered == c.asked[cookie].answered
  {
  }

  lemma {:induction false} RunKeepsSet(c: Cluster, ops: seq<Op>, d: Dot)
    requires CanDo(c, ops) && d in c.sets
    ensures d in DoAll(c, ops).sets && SameNeed(c.sets[d], DoAll(c, ops).sets[d])
    decreases |ops|
  {
    if ops != [] {
      StepKeepsSet(c, ops[0], d);
      RunKeepsSet(Do(c, ops[0]), ops[1..], d);
    }
  }

  lemma {:induction false} RunKeepsRead(c: Cluster, ops: seq<Op>, cookie: Cookie)
    requires CanDo(c, ops) && cookie in c.asked
    ensures cookie in DoAll(c, ops).asked && SameNeed(c.asked[cookie].request, DoAll(c, ops).asked[cookie].request)
    ensures DoAll(c, ops).asked[cookie].answered == c.asked[cookie].answered
    decreases |ops|
  {
    if ops != [] {
      StepKeepsRead(c, ops[0], cookie);
      RunKeepsRead(Do(c, ops[0]), ops[1..], cookie);
    }
  }

  lemma StepKeepsReplicas(c: Cluster, op: Op)
    requires Inv(c.sys) && Enabled(c, op)
    ensures Do(c, op).sys.replicas.Keys == c.sys.replicas.Keys
  {
    if op.Protocol? {
      StepInv(c.sys, op.a);
    }
  }

  lemma {:induction false} RunKeepsReplicas(c: Cluster, ops: seq<Op>)
    requires ClusterInv(c) && CanDo(c, ops)
    ensures |DoAll(c, ops).sys.replicas| == |c.sys.replicas|
    decreases |ops|
  {
    if ops != [] {
      StepKeepsReplicas(c, ops[0]);
      OpKeeps(c, ops[0]);
      assert |Do(c, ops[0]).sys.replicas| == |Do(c, ops[0]).sys.replicas.Keys| && |c.sys.replicas| == |c.sys.replicas.Keys|;
      RunKeepsReplicas(Do(c, ops[0]), ops[1..]);
    }
  }

  lemma {:induction false} Splits(c: Cluster, ops: seq<Op>, i: nat)
    requires CanDo(c, ops) && i < |ops|
    ensures CanDo(c, ops[..i])
    ensures var mid := DoAll(c, ops[..i]);
            && Enabled(mid, ops[i]) && CanDo(Do(mid, ops[i]), ops[i + 1..])
            && DoAll(c, ops) == DoAll(Do(mid, ops[i]), ops[i + 1..])
    decreases |ops|
  {
    if i > 0 {
      var rest := ops[1..];
      Splits(Do(c, ops[0]), rest, i - 1);
      assert ops[..i][0] == ops[0] && ops[..i][1..] == rest[..i - 1] && rest[i - 1] == ops[i] && rest[i..] == ops[i + 1..];
    }
  }

  lemma FreshInv(c0: Cluster)
    requires Fresh(c0)
    ensures ClusterInv(c0)
  {
    InitInv(c0.sys);
  }

  /** A write counts at the level it was asked for, to the end. */
  lemma WriteAsAsked(c0: Cluster, ops: seq<Op>, i: nat)
    requires Fresh(c0) && CanDo(c0, ops) && i < |ops| && ops[i].Coordinate?
    ensures var c := DoAll(c0, ops); ops[i].d in c.sets && AskedAt(c.sets[ops[i].d], ops[i].level, |c0.sys.replicas|)
  {
    FreshInv(c0);
    Splits(c0, ops, i);
    var mid := DoAll(c0, ops[..i]);
    RunKeepsReplicas(c0, ops[..i]);
    WriteBegins(mid, ops[i].d, ops[i].cube, ops[i].level);
    RunKeepsSet(Do(mid, ops[i]), ops[i + 1..], ops[i].d);
  }

  /** So does a read, and so do the writes that had succeeded when it began. */
  lemma ReadAsAsked(c0: Cluster, ops: seq<Op>, j: nat, d: Dot)
    requires Fresh(c0) && CanDo(c0, ops) && j < |ops| && ops[j].BeginRead?
    ensures var c := DoAll(c0, ops);
            && ops[j].c in c.asked && AskedAt(c.asked[ops[j].c].request, ops[j].level, |c0.sys.replicas|)
            && (d in c.asked[ops[j].c].answered ==> d in c.sets && SameNeed(c.sets[d], c.asked[ops[j].c].answered[d]))
  {
    FreshInv(c0);
    Splits(c0, ops, j);
    var mid := DoAll(c0, ops[..j]);
    RunKeepsReplicas(c0, ops[..j]);
    ReadBeginsAs(mid, ops[j].c, ops[j].n, ops[j].key, ops[j].level);
    RunKeepsRead(Do(mid, ops[j]), ops[j + 1..], ops[j].c);
    if d in DoAll(c0, ops).asked[ops[j].c].answered {
      AnsweredWas(mid, ops[j], d);
      RunKeepsSet(Do(mid, ops[j]), ops[j + 1..], d);
    }
  }

  lemma AnsweredWas(c: Cluster, op: Op, d: Dot)
    requires Enabled(c, op) && op.BeginRead? && d in Do(c, op).asked[op.c].answered
    ensures d in Do(c, op).sets && Do(c, op).asked[op.c].answered[d] == Do(c, op).sets[d]
  {
  }

  /** Over every orderly run in which no reply comes twice: a read that succeeded has a write that had succeeded
      before it began, whenever one of the two was at All or both at Quorum. */
  lemma LevelsReadsSeeWrites(c0: Cluster, ops: seq<Op>, i: nat, j: nat)
    requires Fresh(c0) && CanDo(c0, ops) && NoRepeats(ops) && i < |ops| && j < |ops| && ops[i].Coordinate? && ops[j].BeginRead?
    requires ops[i].level.All? || ops[j].level.All? || (ops[i].level.Quorum? && ops[j].level.Quorum?)
    requires |c0.sys.replicas| > 0
    requires var c := DoAll(c0, ops);
             ops[j].c in c.asked && c.asked[ops[j].c].request.Succeeded() && ops[i].d in c.asked[ops[j].c].answered
    ensures var c := DoAll(c0, ops); ShowsWrite(c.sys.writes, c.asked[ops[j].c].key, c.asked[ops[j].c].cube, ops[i].d)
  {
    FreshInv(c0);
    WriteAsAsked(c0, ops, i);
    ReadAsAsked(c0, ops, j, ops[i].d);
    RunKeepsReplicas(c0, ops);
    NoRepeatsReadsSeeWrites(c0, ops, ops[j].c, ops[i].d);
  }
}
