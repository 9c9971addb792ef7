/** The guarantees of replication and anti-entropy, over every run of the protocol. */
module ProtocolTheorems {
  import opened Clocks
  import opened Cubes
  import opened Replicas
  import opened Causality
  import opened Protocol
  import opened ProtocolInvariant
  import opened ProtocolSafety

  /** Actions that change what a replica stores or knows. */
  predicate OnStates(a: Action) {
    a.ClientWrite? || a.FailedWrite? || a.DeliverSet? || a.DeliverSend? || a.DeliverFin?
  }

  lemma StateActionInv(s: System, a: Action)
    requires Inv(s) && Allowed(s, a) && OnStates(a)
    ensures Inv(Apply(s, a)) && Evolves(s, Apply(s, a))
  {
    if a.ClientWrite? {
      WriteInv(s, a.n, a.key, a.cmd);
    } else if a.FailedWrite? {
      FailedWriteInv(s, a.n);
    } else {
      DeliveryInv(s, a);
    }
  }

  lemma DeliveryInv(s: System, a: Action)
    requires Inv(s) && Allowed(s, a) && (a.DeliverSet? || a.DeliverSend? || a.DeliverFin?)
    ensures Inv(Apply(s, a)) && Evolves(s, Apply(s, a))
  {
    if a.DeliverSet? {
      DeliverSetInv(s, a.msg, a.reply);
    } else if a.DeliverSend? {
      DeliverSendInv(s, a.msg);
    } else {
      FinInv(s, a.msg);
    }
  }

  lemma SyncActionInv(s: System, a: Action)
    requires Inv(s) && Allowed(s, a) && InOrder(s, a) && !OnStates(a)
    ensures Inv(Apply(s, a)) && Evolves(s, Apply(s, a))
  {
    if a.OpenSync? {
      OpenInv(s, a.n, a.peer, a.cookie);
    } else if a.DeliverStart? {
      StartInv(s, a.msg, a.ids);
    } else if a.DropSync? {
      DropInv(s, a.n, a.cookie);
    } else {
      SenderActionInv(s, a);
    }
  }

  lemma SenderActionInv(s: System, a: Action)
    requires Inv(s) && Allowed(s, a) && (a.FetchKeys? || a.SendKey? || a.SendFin? || a.DeliverAck?)
    ensures Inv(Apply(s, a)) && Evolves(s, Apply(s, a))
  {
    if a.FetchKeys? || a.SendKey? {
      KeyActionInv(s, a);
    } else if a.SendFin? {
      SendFinInv(s, a.n, a.cookie);
    } else {
      AckInv(s, a.msg);
    }
  }

  lemma KeyActionInv(s: System, a: Action)
    requires Inv(s) && Allowed(s, a) && (a.FetchKeys? || a.SendKey?)
    ensures Inv(Apply(s, a)) && Evolves(s, Apply(s, a))
  {
    if a.FetchKeys? {
      FetchInv(s, a.n, a.cookie, a.taken);
    } else {
      SendKeyInv(s, a.n, a.cookie, a.key);
    }
  }

  lemma StepInv(s: System, a: Action)
    requires Inv(s) && Allowed(s, a) && InOrder(s, a)
    ensures Inv(Apply(s, a)) && Evolves(s, Apply(s, a))
  {
    if OnStates(a) {
      StateActionInv(s, a);
    } else {
      SyncActionInv(s, a);
    }
  }

  /** The invariant holds in every state of every run, and no run forgets anything. */
  lemma {:induction false} RunInv(s: System, run: seq<Action>)
    requires Inv(s) && CanRun(s, run) && Orderly(s, run)
    ensures Inv(Run(s, run)) && Evolves(s, Run(s, run))
    decreases |run|
  {
    if run != [] {
      StepInv(s, run[0]);
      RunInv(Apply(s, run[0]), run[1..]);
      EvolvesTrans(s, Apply(s, run[0]), Run(s, run));
    }
  }

  /** s is a state of some orderly run. */
  ghost predicate Reachable(s: System) {
    exists s0, run :: IsRun(s0, run, s)
  }

  ghost predicate IsRun(s0: System, run: seq<Action>, s: System) {
    Init(s0) && CanRun(s0, run) && Orderly(s0, run) && Run(s0, run) == s
  }

  lemma ReachableInv(s: System)
    requires Reachable(s)
    ensures Inv(s)
  {
    var s0, run :| IsRun(s0, run, s);
    InitInv(s0);
    RunInv(s0, run);
  }

  /** No lost write: every stored write that a replica's clock has is a sibling under its key at
      that replica, or a chain of overwrites, all of them known there, leads from it to one. */
  lemma NoLostWrite(s: System, n: Id, d: Dot)
    requires Reachable(s) && n in s.replicas && d in s.writes && Has(s.replicas[n].state.clock, d)
    ensures var k, store := s.writes[d].key, s.replicas[n].state.store;
            && k in store && store[k].Val?
            && exists sibling, path ::
                 && LeadsTo(s.writes, k, store[k].value.vv, d, sibling, path)
                 && sibling in store[k].value.values
                 && store[k].value.values[sibling] == s.writes[sibling].value
  {
    ReachableInv(s);
    var k, st := s.writes[d].key, s.replicas[n].state;
    assert Seen(s.writes, st, d);
    var sibling, path := FaithfulChain(s.writes, s.issued, k, st.store[k].value, d);
  }

  /** c is a cube of key k somewhere: stored, replicated or synced. */
  ghost predicate IsCubeOf(s: System, k: Key, c: Cube) {
    || (exists n :: n in s.replicas && k in s.replicas[n].state.store && s.replicas[n].state.store[k] == c)
    || (exists msg :: msg in s.net && (msg.RemoteSet? || msg.SyncSend?) && msg.key == k && msg.cube == c)
  }

  /** No Void is ever replicated or synced, so the unreachable!() in for_each_dot is. */
  lemma CubesAreValues(s: System, k: Key, c: Cube)
    requires Reachable(s) && IsCubeOf(s, k, c)
    ensures c.Val? && Faithful(s.writes, k, c.value)
  {
    ReachableInv(s);
    InvCubes(s, k, c);
  }

  lemma InvCubes(s: System, k: Key, c: Cube)
    requires StatesOk(s) && MsgsOk(s, s.net) && IsCubeOf(s, k, c)
    ensures CubeOk(s.writes, s.issued, k, c)
  {
    if n :| n in s.replicas && k in s.replicas[n].state.store && s.replicas[n].state.store[k] == c {
      assert StateOk(s.writes, s.issued, n, s.replicas[n].state);
    } else {
      var msg :| msg in s.net && (msg.RemoteSet? || msg.SyncSend?) && msg.key == k && msg.cube == c;
      assert MsgOk(s, msg);
    }
  }

  /** No resurrection: a context that has an overwriting write has the overwritten one too, and
      not as a sibling. */
  lemma NoResurrection(s: System, k: Key, c: Cube, w: Dot, d: Dot)
    requires Reachable(s) && IsCubeOf(s, k, c)
    requires w in s.writes && s.writes[w].key == k && d in s.writes[w].over && Covers(c.Context(), w)
    ensures c.Val? && Covers(c.Context(), d) && d !in c.value.values
  {
    ReachableInv(s);
    CubesAreValues(s, k, c);
    assert Knows(s.writes, k, c.value.vv, w) && Overwritten(s.writes, k, c.value.vv, d);
    assert Knows(s.writes, k, c.value.vv, d);
  }

  /** Strong convergence: cubes of a key whose contexts agree on that key's writes show the same
      siblings with the same values, whatever else the contexts picked up from node clocks. */
  lemma Convergence(s: System, k: Key, a: Cube, b: Cube)
    requires Reachable(s) && IsCubeOf(s, k, a) && IsCubeOf(s, k, b)
    requires forall d :: d in s.writes && s.writes[d].key == k ==> (Covers(a.Context(), d) <==> Covers(b.Context(), d))
    ensures a.Val? && b.Val? && a.value.values == b.value.values
  {
    CubesAreValues(s, k, a);
    CubesAreValues(s, k, b);
    FaithfulConverges(s.writes, k, a.value, b.value);
  }

  /** Replicas whose clocks have all writes of a key show the same siblings for it. */
  lemma CaughtUpReplicasAgree(s: System, k: Key, n: Id, m: Id, x: Dot)
    requires Reachable(s) && n in s.replicas && m in s.replicas && x in s.writes && s.writes[x].key == k
    requires forall d :: d in s.writes && s.writes[d].key == k ==>
                           Has(s.replicas[n].state.clock, d) && Has(s.replicas[m].state.clock, d)
    ensures var a, b := Get(s.replicas[n].state, k), Get(s.replicas[m].state, k);
            a.Val? && b.Val? && a.value.values == b.value.values
  {
    ReachableInv(s);
    var st, st' := s.replicas[n].state, s.replicas[m].state;
    assert Seen(s.writes, st, x) && Seen(s.writes, st', x);
    forall d | d in s.writes && s.writes[d].key == k
      ensures Covers(st.store[k].Context(), d) && Covers(st'.store[k].Context(), d)
    {
      assert Seen(s.writes, st, d) && Seen(s.writes, st', d);
    }
    Convergence(s, k, st.store[k], st'.store[k]);
  }

  /** A key that is stored stays stored, with at least the writes it had. */
  lemma StoredKeysStay(s: System, run: seq<Action>, n: Id, k: Key)
    requires Reachable(s) && CanRun(s, run) && Orderly(s, run)
    requires n in s.replicas && k in s.replicas[n].state.store
    ensures n in Run(s, run).replicas && k in Run(s, run).replicas[n].state.store
    ensures forall d :: d in s.writes && Seen(s.writes, s.replicas[n].state, d) ==>
                          Seen(s.writes, Run(s, run).replicas[n].state, d)
  {
    ReachableInv(s);
    RunInv(s, run);
  }

  /** Every success fin, sync or bootstrap, claims only what its receiver has seen. */
  lemma FinsAreHonest(s: System, msg: Msg, d: Dot)
    requires Reachable(s) && msg in s.net && msg.SyncFin? && IsReceiver(s, msg.to, msg.cookie)
    requires d in s.writes && Has(msg.clocks, d)
    ensures Seen(s.writes, s.replicas[msg.to].state, d)
  {
    ReachableInv(s);
    assert MsgOk(s, msg);
    assert SyncOk(s, msg.to, msg.cookie);
  }

  /** No replica gets a sync message meant for the other side, so the unreachable!() in on_msg_send
      and on_msg_ack are. */
  lemma MessagesMeetTheirSide(s: System, msg: Msg)
    requires Reachable(s) && msg in s.net
    ensures msg.SyncSend? ==> !IsSender(s, msg.to, msg.cookie)
    ensures msg.SyncAck? ==> !IsReceiver(s, msg.to, msg.cookie)
  {
    ReachableInv(s);
    OneSide(s, msg);
  }

  lemma OneSide(s: System, msg: Msg)
    requires SyncsOk(s) && SessionsOk(s) && MsgOk(s, msg)
    ensures msg.SyncSend? ==> !IsSender(s, msg.to, msg.cookie)
    ensures msg.SyncAck? ==> !IsReceiver(s, msg.to, msg.cookie)
  {
    if (msg.SyncSend? || msg.SyncAck?) && HasSync(s, msg.to, msg.cookie) {
      assert SyncOk(s, msg.to, msg.cookie);
    }
  }

  /** event's debug assertion: a replica's own slice of the clock never has exceptions. */
  lemma OwnSliceIsSolid(s: System, n: Id)
    requires Reachable(s) && n in s.replicas
    ensures Slice(s.replicas[n].state.clock, n).Solid()
  {
    ReachableInv(s);
  }
}
