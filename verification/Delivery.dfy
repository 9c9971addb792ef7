/** A write is sent to every replica, whatever the command, and takes effect wherever and whenever it
    arrives (src/vnode.rs:433-466, src/vnode.rs:597-641). */
module Delivery {
  import opened Basics
  import opened Clocks
  import opened Cubes
  import opened Replicas
  import opened Causality
  import opened Protocol
  import opened ProtocolInvariant
  import opened ProtocolTheorems
  import AntiEntropy
  import CommandEffects

  /** The dot the next write of n gets. */
  function NextDot(s: System, n: Id): Dot
    requires n in s.replicas
  {
    CommandEffects.NewDot(s.replicas[n].state, n)
  }

  /** The cube has the write d: a sibling with the value of a SET, or with none for a DEL, and no other
      sibling that the client had read. */
  ghost predicate HasWrite(c: Cube, d: Dot, cmd: Command)
    requires cmd.Assign? || cmd.Delete?
  {
    && c.Val? && d in c.value.values && Covers(c.Context(), d)
    && c.value.values[d] == (if cmd.Assign? then Some(cmd.value) else None)
    && forall e :: e in c.value.values && e != d ==> !Covers(cmd.ctx, e)
  }

  lemma FlushHasWrite(W: History, B: Issued, n: Id, st: State, key: Key, cmd: Command)
    requires StateOk(W, B, n, st) && (cmd.Assign? || cmd.Delete?) && Flush(st, n, key, cmd).Stored?
    ensures var f := Flush(st, n, key, cmd);
            && key in f.state.store && f.state.store[key] == f.cube && HasWrite(f.cube, CommandEffects.NewDot(st, n), cmd)
  {
    GetOk(W, B, n, st, key);
    var c := if key in st.store then st.store[key].value else Value(map[], Bases(st.clock));
    FlushShape(B, n, st, key, cmd, c);
    SetHasWrite(c, CommandEffects.NewDot(st, n), cmd);
  }

  lemma SetHasWrite(c: Value, d: Dot, cmd: Command)
    requires cmd.Assign? || cmd.Delete?
    ensures HasWrite(Val(c.Set(d.id, d.version, if cmd.Assign? then Some(cmd.value) else None, cmd.ctx)), d, cmd)
  {
  }

  lemma WriteShape(s: System, n: Id, key: Key, cmd: Command)
    requires Allowed(s, ClientWrite(n, key, cmd))
    ensures var s', f := Apply(s, ClientWrite(n, key, cmd)), Flush(s.replicas[n].state, n, key, cmd);
            && n in s'.replicas && s'.replicas[n].state == f.state
            && s'.writes == s.writes[Dot(n, s.issued[n] + 1) := Recorded(s.writes, key, cmd, Get(s.replicas[n].state, key))]
  {
  }

  lemma WriteSends(s: System, n: Id, key: Key, cmd: Command, m: Id)
    requires Allowed(s, ClientWrite(n, key, cmd)) && m in s.replicas
    ensures RemoteSet(m, key, Flush(s.replicas[n].state, n, key, cmd).cube) in Apply(s, ClientWrite(n, key, cmd)).net
  {
  }

  lemma StateIsOk(s: System, n: Id)
    requires Reachable(s) && n in s.replicas
    ensures HistoryOk(s.writes, s.issued) && StateOk(s.writes, s.issued, n, s.replicas[n].state)
  {
    ReachableInv(s);
  }

  /** The write is recorded and stored at n under a new dot. */
  lemma WriteIsStored(s: System, n: Id, key: Key, cmd: Command)
    requires Reachable(s) && Allowed(s, ClientWrite(n, key, cmd))
    ensures var s', d := Apply(s, ClientWrite(n, key, cmd)), NextDot(s, n);
            && d !in s.writes && d in s'.writes && s'.writes == s.writes[d := s'.writes[d]] && s'.writes[d].key == key
            && s'.writes[d].value == (if cmd.Assign? then Some(cmd.value) else None)
            && n in s'.replicas && key in s'.replicas[n].state.store && HasWrite(s'.replicas[n].state.store[key], d, cmd)
  {
    StateIsOk(s, n);
    WriteShape(s, n, key, cmd);
    FlushHasWrite(s.writes, s.issued, n, s.replicas[n].state, key, cmd);
  }

  /** What n has stored then is on its way to every replica. */
  lemma WriteIsSent(s: System, n: Id, key: Key, cmd: Command, m: Id)
    requires Reachable(s) && Allowed(s, ClientWrite(n, key, cmd)) && m in s.replicas
    ensures var s' := Apply(s, ClientWrite(n, key, cmd));
            && n in s'.replicas && key in s'.replicas[n].state.store
            && RemoteSet(m, key, s'.replicas[n].state.store[key]) in s'.net
  {
    StateIsOk(s, n);
    WriteShape(s, n, key, cmd);
    WriteSends(s, n, key, cmd, m);
    FlushHasWrite(s.writes, s.issued, n, s.replicas[n].state, key, cmd);
  }

  lemma StaysSent(s: System, a: Action, msg: Msg)
    requires Allowed(s, a) && msg in s.net
    ensures msg in Apply(s, a).net
  {
  }

  /** What was sent can arrive at any time. */
  lemma {:induction false} StaysOnItsWay(s: System, run: seq<Action>, msg: Msg)
    requires CanRun(s, run) && msg in s.net
    ensures msg in Run(s, run).net
    decreases |run|
  {
    if run != [] {
      StaysSent(s, run[0], msg);
      StaysOnItsWay(Apply(s, run[0]), run[1..], msg);
    }
  }

  /** The replica has seen the write, and shows nothing that it overwrote. */
  ghost predicate InEffect(W: History, st: State, d: Dot)
    requires d in W
  {
    Seen(W, st, d) && forall e :: e in W[d].over ==> e !in Siblings(Get(st, W[d].key))
  }

  lemma SeenInEffect(W: History, B: Issued, n: Id, st: State, d: Dot)
    requires d in W && StateOk(W, B, n, st) && Seen(W, st, d)
    ensures InEffect(W, st, d)
  {
    var k := W[d].key;
    assert CubeOk(W, B, k, st.store[k]);
    forall e | e in W[d].over ensures e !in st.store[k].value.values {
      assert Overwritten(W, k, st.store[k].value.vv, e);
    }
  }

  /** Every write of its key that a cube tells of is in effect where the cube arrives. */
  lemma ArrivesAt(W: History, B: Issued, n: Id, st: State, key: Key, cube: Cube, reply: bool, d: Dot)
    requires HistoryOk(W, B) && StateOk(W, B, n, st) && CubeOk(W, B, key, cube)
    requires d in W && W[d].key == key && Covers(cube.Context(), d)
    ensures InEffect(W, SetRemote(st, key, cube, reply).0, d)
  {
    RemoteKeeps(W, B, n, st, key, cube, reply);
    assert Knows(W, key, cube.Context(), d);
    SeenInEffect(W, B, n, SetRemote(st, key, cube, reply).0, d);
  }

  lemma Arrives(s: System, msg: Msg, reply: bool, d: Dot)
    requires Reachable(s) && msg in s.net && msg.RemoteSet? && msg.to in s.replicas
    requires d in s.writes && s.writes[d].key == msg.key && Covers(msg.cube.Context(), d)
    ensures Allowed(s, DeliverSet(msg, reply))
    ensures var s' := Apply(s, DeliverSet(msg, reply));
            d in s'.writes && msg.to in s'.replicas && InEffect(s'.writes, s'.replicas[msg.to].state, d)
  {
    StateIsOk(s, msg.to);
    CubesAreOk(s, msg);
    ArrivesAt(s.writes, s.issued, msg.to, s.replicas[msg.to].state, msg.key, msg.cube, reply, d);
  }

  lemma CubesAreOk(s: System, msg: Msg)
    requires Reachable(s) && msg in s.net && msg.RemoteSet?
    ensures CubeOk(s.writes, s.issued, msg.key, msg.cube)
  {
    ReachableInv(s);
    assert MsgOk(s, msg);
  }

  lemma RecordedOver(W: History, key: Key, cmd: Command, c: Cube, e: Dot)
    requires cmd.Assign? || cmd.Delete?
    ensures e in Recorded(W, key, cmd, c).over <==> e in Siblings(c) && Covers(cmd.ctx, e)
  {
  }

  lemma NextIsNext(s: System, n: Id)
    requires Reachable(s) && n in s.replicas
    ensures n in s.issued && NextDot(s, n) == Dot(n, s.issued[n] + 1)
  {
    StateIsOk(s, n);
  }

  /** What the write overwrites is what n showed and the client had read. */
  lemma Overwrites(s: System, n: Id, key: Key, cmd: Command, e: Dot)
    requires Reachable(s) && Allowed(s, ClientWrite(n, key, cmd))
    ensures var s' := Apply(s, ClientWrite(n, key, cmd));
            && NextDot(s, n) in s'.writes
            && (e in s'.writes[NextDot(s, n)].over <==>
                  e in Siblings(Get(s.replicas[n].state, key)) && Covers(cmd.ctx, e))
  {
    NextIsNext(s, n);
    WriteShape(s, n, key, cmd);
    RecordedOver(s.writes, key, cmd, Get(s.replicas[n].state, key), e);
  }

  lemma StaysWritten(s: System, run: seq<Action>, d: Dot)
    requires Reachable(s) && CanRun(s, run) && Orderly(s, run) && d in s.writes
    ensures Reachable(Run(s, run)) && d in Run(s, run).writes && Run(s, run).writes[d] == s.writes[d]
    ensures Run(s, run).replicas.Keys == s.replicas.Keys
  {
    AntiEntropy.ReachableRun(s, run);
    ReachableInv(s);
    RunInv(s, run);
  }

  lemma ReachableAfter(s: System, a: Action)
    requires Reachable(s) && Allowed(s, a) && InOrder(s, a)
    ensures Reachable(Apply(s, a)) && Apply(s, a).replicas.Keys == s.replicas.Keys
  {
    AntiEntropy.RunThen(s, a, Apply(s, a), []);
    assert [a] + [] == [a];
    StepInvKeys(s, a);
    AntiEntropy.ReachableRun(s, [a]);
  }

  lemma StepInvKeys(s: System, a: Action)
    requires Reachable(s) && Allowed(s, a) && InOrder(s, a)
    ensures Apply(s, a).replicas.Keys == s.replicas.Keys
  {
    ReachableInv(s);
    StepInv(s, a);
  }

  /** Every SET and every DEL can take effect at every replica, after whatever else happens. */
  lemma WriteTakesEffect(s: System, n: Id, key: Key, cmd: Command, run: seq<Action>, m: Id, reply: bool)
    requires Reachable(s) && Allowed(s, ClientWrite(n, key, cmd)) && m in s.replicas
    requires CanRun(Apply(s, ClientWrite(n, key, cmd)), run) && Orderly(Apply(s, ClientWrite(n, key, cmd)), run)
    ensures var s1 := Apply(s, ClientWrite(n, key, cmd));
            && n in s1.replicas && key in s1.replicas[n].state.store
            && var arrival, s2 := DeliverSet(RemoteSet(m, key, s1.replicas[n].state.store[key]), reply), Run(s1, run);
               && Allowed(s2, arrival) && NextDot(s, n) in Apply(s2, arrival).writes && m in Apply(s2, arrival).replicas
               && InEffect(Apply(s2, arrival).writes, Apply(s2, arrival).replicas[m].state, NextDot(s, n))
  {
    var s1, d := Apply(s, ClientWrite(n, key, cmd)), NextDot(s, n);
    WriteIsStored(s, n, key, cmd);
    WriteIsSent(s, n, key, cmd, m);
    ReachableAfter(s, ClientWrite(n, key, cmd));
    var msg := RemoteSet(m, key, s1.replicas[n].state.store[key]);
    StaysOnItsWay(s1, run, msg);
    StaysWritten(s1, run, d);
    Arrives(Run(s1, run), msg, reply, d);
  }
}
