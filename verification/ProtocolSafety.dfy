/** Every action keeps the invariant, so it holds in every state of every run; and what that
    means for the users of the store. */
module ProtocolSafety {
  import opened Clocks
  import opened Cubes
  import opened Replicas
  import opened Causality
  import opened Protocol
  import opened ProtocolInvariant

  // ---------------------------------------------------------------- actions on the state

  /** n's state becomes st. */
  function Changed(s: System, n: Id, st: State, net: set<Msg>, W: History, B: Issued): System
    requires n in s.replicas
  {
    System(s.replicas[n := s.replicas[n].(state := st)], net, W, B, s.sessions, s.started)
  }

  lemma ChangedOnlyState(s: System, n: Id, st: State, net: set<Msg>, W: History, B: Issued, cookie: Cookie)
    requires n in s.replicas && n in s.issued && cookie !in s.replicas[n].syncs
    requires B.Keys == s.issued.Keys && forall m :: m in s.issued && m != n ==> B[m] == s.issued[m]
    requires forall d :: d in W && d !in s.writes ==> d.id == n
    ensures var s' := Changed(s, n, st, net, W, B);
            OnlyState(s, s', n) && SyncsFrom(s, s', n, cookie) && !HasSync(s', n, cookie)
  {
  }

  /** Only the state of n changes, to one that is ok, and what is written and sent is ok. */
  ghost predicate Moves(s: System, s': System, n: Id, st: State) {
    && n in s.replicas && s' == Changed(s, n, st, s'.net, s'.writes, s'.issued)
    && s'.issued.Keys == s.issued.Keys && (forall m :: m in s.issued && m != n ==> s'.issued[m] == s.issued[m])
    && (forall d :: d in s'.writes && d !in s.writes ==> d.id == n)
    && HistoryOk(s'.writes, s'.issued) && Extends(s.writes, s.issued, s'.writes, s'.issued)
    && StateOk(s'.writes, s'.issued, n, st) && Advances(s.writes, s.replicas[n].state, st)
    && MsgsOk(s', s'.net - s.net)
  }

  /** No sync changes, and only the new messages are left to check. */
  lemma ChangedInv(s: System, s': System, n: Id, st: State)
    requires Inv(s) && Moves(s, s', n, st)
    ensures Inv(s') && Evolves(s, s')
  {
    var cookie := MaxOf(s.replicas[n].syncs.Keys) + 1;
    assert cookie !in s.replicas[n].syncs;
    ChangedOnlyState(s, n, st, s'.net, s'.writes, s'.issued, cookie);
    StateStep(s, s', n, cookie);
  }

  lemma WriteInv(s: System, n: Id, key: Key, cmd: Command)
    requires Inv(s) && CanStore(s, n, key, cmd)
    ensures Inv(AfterWrite(s, n, key, cmd)) && Evolves(s, AfterWrite(s, n, key, cmd))
  {
    assert StateOk(s.writes, s.issued, n, s.replicas[n].state);
    var f := Flush(s.replicas[n].state, n, key, cmd);
    WriteMoves(s, AfterWrite(s, n, key, cmd), n, key, cmd, f);
    ChangedInv(s, AfterWrite(s, n, key, cmd), n, f.state);
  }

  lemma WriteMoves(s: System, s': System, n: Id, key: Key, cmd: Command, f: Flushed)
    requires CanStore(s, n, key, cmd) && HistoryOk(s.writes, s.issued) && StateOk(s.writes, s.issued, n, s.replicas[n].state)
    requires s' == AfterWrite(s, n, key, cmd) && f == Flush(s.replicas[n].state, n, key, cmd)
    ensures Moves(s, s', n, f.state)
  {
    WriteHistory(s, s', n, key, cmd, f);
    WriteShape(s, s', n, key, cmd, f);
  }

  lemma WriteHistory(s: System, s': System, n: Id, key: Key, cmd: Command, f: Flushed)
    requires CanStore(s, n, key, cmd) && HistoryOk(s.writes, s.issued) && StateOk(s.writes, s.issued, n, s.replicas[n].state)
    requires s' == AfterWrite(s, n, key, cmd) && f == Flush(s.replicas[n].state, n, key, cmd)
    ensures HistoryOk(s'.writes, s'.issued) && Extends(s.writes, s.issued, s'.writes, s'.issued)
    ensures StateOk(s'.writes, s'.issued, n, f.state) && CubeOk(s'.writes, s'.issued, key, f.cube)
    ensures Advances(s.writes, s.replicas[n].state, f.state)
  {
    FlushKeeps(s.writes, s.issued, n, s.replicas[n].state, key, cmd);
  }

  lemma WriteShape(s: System, s': System, n: Id, key: Key, cmd: Command, f: Flushed)
    requires CanStore(s, n, key, cmd) && s' == AfterWrite(s, n, key, cmd)
    requires f == Flush(s.replicas[n].state, n, key, cmd) && CubeOk(s'.writes, s'.issued, key, f.cube)
    ensures s' == Changed(s, n, f.state, s'.net, s'.writes, s'.issued)
    ensures s'.issued.Keys == s.issued.Keys && forall m :: m in s.issued && m != n ==> s'.issued[m] == s.issued[m]
    ensures forall d :: d in s'.writes && d !in s.writes ==> d.id == n
    ensures MsgsOk(s', s'.net - s.net)
  {
  }

  lemma FailedWriteInv(s: System, n: Id)
    requires Inv(s) && CanWrite(s, n)
    ensures Inv(AfterFailedWrite(s, n)) && Evolves(s, AfterFailedWrite(s, n))
  {
    FailedWriteShape(s, n);
    ChangedInv(s, AfterFailedWrite(s, n), n, AfterFailedWrite(s, n).replicas[n].state);
  }

  lemma FailedWriteShape(s: System, n: Id)
    requires CanWrite(s, n) && HistoryOk(s.writes, s.issued) && StateOk(s.writes, s.issued, n, s.replicas[n].state)
    ensures var s', st := AfterFailedWrite(s, n), AfterFailedWrite(s, n).replicas[n].state;
            && s' == Changed(s, n, st, s'.net, s'.writes, s'.issued) && s'.writes == s.writes && s'.net == s.net
            && s'.issued.Keys == s.issued.Keys && (forall m :: m in s.issued && m != n ==> s'.issued[m] == s.issued[m])
            && HistoryOk(s'.writes, s'.issued) && Extends(s.writes, s.issued, s'.writes, s'.issued)
            && StateOk(s'.writes, s'.issued, n, st) && Advances(s.writes, s.replicas[n].state, st)
  {
    FailedFlushKeeps(s.writes, s.issued, n, s.replicas[n].state);
  }

  lemma SetInv(s: System, n: Id, key: Key, cube: Cube, reply: bool, net: set<Msg>)
    requires Inv(s) && n in s.replicas && CubeOk(s.writes, s.issued, key, cube)
    ensures var s' := AfterSet(s, n, key, cube, reply).(net := net);
            && (MsgsOk(s', net - s.net) ==> Inv(s') && Evolves(s, s'))
            && Absorbed(s'.writes, s'.replicas[n].state, key, cube.Context())
  {
    var st := s.replicas[n].state;
    RemoteKeeps(s.writes, s.issued, n, st, key, cube, reply);
    if MsgsOk(AfterSet(s, n, key, cube, reply).(net := net), net - s.net) {
      ChangedInv(s, AfterSet(s, n, key, cube, reply).(net := net), n, SetRemote(st, key, cube, reply).0);
    }
  }

  lemma DeliverSetInv(s: System, msg: Msg, reply: bool)
    requires Inv(s) && msg in s.net && msg.RemoteSet? && msg.to in s.replicas
    ensures !msg.cube.Void?
    ensures Inv(AfterSet(s, msg.to, msg.key, msg.cube, reply)) && Evolves(s, AfterSet(s, msg.to, msg.key, msg.cube, reply))
  {
    assert MsgOk(s, msg);
    SetInv(s, msg.to, msg.key, msg.cube, reply, s.net);
  }

  lemma DeliverSendInv(s: System, msg: Msg)
    requires Inv(s) && msg in s.net && msg.SyncSend? && IsReceiver(s, msg.to, msg.cookie)
    ensures !msg.cube.Void? && Inv(AfterSend(s, msg)) && Evolves(s, AfterSend(s, msg))
  {
    assert MsgOk(s, msg);
    SetInv(s, msg.to, msg.key, msg.cube, false, AfterSend(s, msg).net);
    AckOfSend(s, msg);
  }

  lemma AckOfSend(s: System, msg: Msg)
    requires CanReceive(s, msg) && SendOk(s, msg.to, msg.from, msg.cookie, msg.number, msg.key, msg.cube)
    requires Absorbed(s.writes, AfterSend(s, msg).replicas[msg.to].state, msg.key, msg.cube.Context())
    ensures MsgsOk(AfterSend(s, msg), AfterSend(s, msg).net - s.net)
  {
    assert AckOk(AfterSend(s, msg), msg.from, msg.cookie, msg.number);
  }

  lemma FinInv(s: System, msg: Msg)
    requires Inv(s) && CanConclude(s, msg)
    ensures Inv(AfterFin(s, msg)) && Evolves(s, AfterFin(s, msg))
  {
    assert MsgOk(s, msg);
    assert SyncOk(s, msg.to, msg.cookie);
    ClockMergeKeeps(s.writes, s.issued, msg.to, s.replicas[msg.to].state, msg.clocks);
    FinOnlyState(s, msg);
    EchoOk(s, msg);
    StateStep(s, AfterFin(s, msg), msg.to, msg.cookie);
  }

  lemma FinOnlyState(s: System, msg: Msg)
    requires CanConclude(s, msg) && msg.to in s.issued
    ensures var s' := AfterFin(s, msg);
            OnlyState(s, s', msg.to) && SyncsFrom(s, s', msg.to, msg.cookie) && !HasSync(s', msg.to, msg.cookie)
  {
  }

  lemma EchoOk(s: System, msg: Msg)
    requires CanConclude(s, msg) && msg.to in s.issued && FinOk(s, msg.cookie, msg.clocks)
    requires HistoryOk(s.writes, s.issued)
    requires Advances(s.writes, s.replicas[msg.to].state, AfterFin(s, msg).replicas[msg.to].state)
    ensures MsgsOk(AfterFin(s, msg), AfterFin(s, msg).net - s.net)
  {
    FinOnlyState(s, msg);
    OnlyStateEvolves(s, AfterFin(s, msg), msg.to);
    FinStable(s, AfterFin(s, msg), msg.cookie, msg.clocks);
  }

  // ---------------------------------------------------------------- actions on the syncs

  lemma OpenInv(s: System, n: Id, peer: Id, cookie: Cookie)
    requires Inv(s) && CanOpen(s, n, peer, cookie)
    ensures Inv(AfterOpen(s, n, peer, cookie)) && Evolves(s, AfterOpen(s, n, peer, cookie))
  {
    OpenOnlySync(s, n, peer, cookie);
    OpenMsgs(s, n, peer, cookie);
    SyncStep(s, AfterOpen(s, n, peer, cookie), n, cookie);
  }

  lemma OpenOnlySync(s: System, n: Id, peer: Id, cookie: Cookie)
    requires CanOpen(s, n, peer, cookie) && SessionsOk(s)
    ensures var s' := AfterOpen(s, n, peer, cookie);
            OnlySync(s, s', n, cookie) && SessionsOk(s') && SyncOk(s', n, cookie)
  {
  }

  lemma OpenMsgs(s: System, n: Id, peer: Id, cookie: Cookie)
    requires CanOpen(s, n, peer, cookie) && ClockOk(s.issued, s.replicas[n].state.clock) && MsgsOk(s, s.net)
    ensures var s' := AfterOpen(s, n, peer, cookie);
            MsgsOk(s', s'.net - s.net) && CookieMsgs(s, cookie) == {}
  {
    forall msg | msg in s.net ensures !Concerns(msg, cookie) {
      assert MsgOk(s, msg);
    }
  }

  lemma DropInv(s: System, n: Id, cookie: Cookie)
    requires Inv(s) && HasSync(s, n, cookie)
    ensures Inv(WithoutSync(s, n, cookie)) && Evolves(s, WithoutSync(s, n, cookie))
  {
    var s' := WithoutSync(s, n, cookie);
    DropOnlySync(s, n, cookie);
    OnlySyncEvolves(s, s', n, cookie);
    OldMsgsStable(s, s', n, cookie);
    SyncStep(s, s', n, cookie);
  }

  lemma DropOnlySync(s: System, n: Id, cookie: Cookie)
    requires HasSync(s, n, cookie) && SessionsOk(s)
    ensures var s' := WithoutSync(s, n, cookie);
            OnlySync(s, s', n, cookie) && SessionsOk(s') && !HasSync(s', n, cookie) && s'.net - s.net == {}
  {
  }

  /** A sender may go on sending and be acknowledged. */
  ghost predicate Progress(sync: Sync, sync': Sync) {
    && sync.Sender? && sync'.Sender? && sync.count <= sync'.count
    && forall q :: q in sync'.inflight && q < sync.count ==> q in sync.inflight && sync.inflight[q] == sync'.inflight[q]
  }

  /** s' differs from s in a sender's progress and in new messages. */
  ghost predicate Progressed(s: System, s': System, n: Id, cookie: Cookie, sync: Sync) {
    && IsSender(s, n, cookie) && Progress(s.replicas[n].syncs[cookie], sync) && s.net <= s'.net
    && s' == WithSync(s, n, cookie, sync).(net := s'.net)
  }

  lemma ProgressOnlySync(s: System, s': System, n: Id, cookie: Cookie, sync: Sync)
    requires Progressed(s, s', n, cookie, sync) && SessionsOk(s)
    ensures OnlySync(s, s', n, cookie) && SessionsOk(s') && Evolves(s, s')
  {
    ProgressIsOnlySync(s, s', n, cookie, sync);
    OnlySyncEvolves(s, s', n, cookie);
  }

  lemma ProgressIsOnlySync(s: System, s': System, n: Id, cookie: Cookie, sync: Sync)
    requires Progressed(s, s', n, cookie, sync) && SessionsOk(s)
    ensures OnlySync(s, s', n, cookie) && SessionsOk(s')
  {
  }

  lemma ProgressMsg(s: System, s': System, n: Id, cookie: Cookie, sync: Sync, msg: Msg)
    requires Progressed(s, s', n, cookie, sync) && Evolves(s, s')
    requires MsgOk(s, msg) && Concerns(msg, cookie) && cookie in s.sessions && s.sessions[cookie].sender == n
    ensures MsgOk(s', msg)
  {
    match msg
    case SyncStart(to, from, c, _, inPeer) => StartStable(s, s', to, from, c, inPeer);
    case SyncSend(to, from, c, q, key, cube) => ProgressSend(s, s', n, c, sync, to, q, key, cube);
    case SyncAck(_, c, q) => ProgressAck(s, s', n, c, sync, q);
    case SyncFin(_, _, c, clocks) => FinStable(s, s', c, clocks);
  }

  lemma ProgressSend(s: System, s': System, n: Id, cookie: Cookie, sync: Sync, to: Id, q: nat, key: Key, cube: Cube)
    requires Progressed(s, s', n, cookie, sync) && SendOk(s, to, n, cookie, q, key, cube)
    ensures SendOk(s', to, n, cookie, q, key, cube)
  {
  }

  lemma ProgressAck(s: System, s': System, n: Id, cookie: Cookie, sync: Sync, q: nat)
    requires Progressed(s, s', n, cookie, sync) && AckOk(s, n, cookie, q)
    ensures AckOk(s', n, cookie, q)
  {
  }

  /** What a sender's action leaves to check: its own sync and the new messages. */
  lemma ProgressInv(s: System, s': System, n: Id, cookie: Cookie, sync: Sync)
    requires Inv(s) && Progressed(s, s', n, cookie, sync)
    requires SyncOk(s', n, cookie) && MsgsOk(s', s'.net - s.net)
    ensures Inv(s') && Evolves(s, s')
  {
    ProgressOnlySync(s, s', n, cookie, sync);
    assert SyncOk(s, n, cookie);
    forall msg | msg in CookieMsgs(s, cookie) ensures MsgOk(s', msg) {
      assert MsgOk(s, msg);
      ProgressMsg(s, s', n, cookie, sync, msg);
    }
    SyncStep(s, s', n, cookie);
  }

  // ---------------------------------------------------------------- a sender's promise

  /** A bootstrap sender starts from a clock and a store taken together. */
  lemma NewBootstrapOk(W: History, B: Issued, n: Id, st: State, peer: Id, peerSt: State, inPeer: Clock, ids: seq<Id>)
    requires StateOk(W, B, n, st)
    ensures SenderOk(W, B, st, peerSt, NewSender(st, n, peer, true, inPeer, ids))
  {
  }

  /** A sync sender promises its own dots: the peer had them when it asked, or they are in the
      delta. The delta is complete because nobody is ahead of n on n's own dots. */
  lemma NewSyncOk(W: History, B: Issued, n: Id, st: State, peer: Id, peerSt: State, inPeer: Clock, ids: seq<Id>)
    requires HistoryOk(W, B) && StateOk(W, B, n, st) && StateOk(W, B, peer, peerSt)
    requires ClockOk(B, inPeer) && ClockWithin(inPeer, peerSt.clock)
    requires forall i :: i in st.clock ==> i in ids
    ensures SenderOk(W, B, st, peerSt, NewSender(st, n, peer, false, inPeer, ids))
  {
    var own := map i | i in st.clock && i == n :: st.clock[i];
    forall d | d in W && Has(own, d) ensures Seen(W, peerSt, d) || d in ClockDelta(st.clock, inPeer, ids) {
      OwnDotPromised(W, B, n, st, peer, peerSt, inPeer, ids, d);
    }
  }

  lemma OwnDotPromised(W: History, B: Issued, n: Id, st: State, peer: Id, peerSt: State, inPeer: Clock, ids: seq<Id>, d: Dot)
    requires HistoryOk(W, B) && StateOk(W, B, n, st) && StateOk(W, B, peer, peerSt)
    requires ClockOk(B, inPeer) && ClockWithin(inPeer, peerSt.clock)
    requires d in W && d.id == n && n in ids && Has(st.clock, d)
    ensures Seen(W, peerSt, d) || d in ClockDelta(st.clock, inPeer, ids)
  {
    if Has(inPeer, d) {
      assert Has(peerSt.clock, d);
    } else {
      OwnDelta(B, n, st.clock, inPeer, ids, d);
    }
  }

  lemma OwnDelta(B: Issued, n: Id, clock: Clock, inPeer: Clock, ids: seq<Id>, d: Dot)
    requires n in B && Slice(clock, n) == BV(B[n], {}) && ClockOk(B, inPeer)
    requires d.id == n && n in ids && d.version != 0 && Has(clock, d) && !Has(inPeer, d)
    ensures d in ClockDelta(clock, inPeer, ids)
  {
    ClockDeltaMembers(clock, inPeer, ids);
    DeltaIsDifference(Slice(clock, n), Slice(inPeer, n));
    assert n in inPeer ==> inPeer[n].Contains(inPeer[n].base);
  }

  /** Looking dots up in the log loses none of the sender's own. */
  lemma FetchOk(W: History, B: Issued, n: Id, st: State, peerSt: State, sync: Sync, taken: nat)
    requires StateOk(W, B, n, st) && sync.Sender? && SenderOk(W, B, st, peerSt, sync)
    requires sync.pending.Keys? && sync.pending.keys == {} && taken <= |sync.pending.dots|
    requires forall i :: i in sync.clocks ==> i == n
    ensures var dots := sync.pending.dots;
            SenderOk(W, B, st, peerSt, sync.(pending := Keys(dots[taken..], LoggedKeys(st.log, dots[..taken]))))
  {
    FetchedKeys(W, B, n, st, sync.pending.dots, taken);
  }

  lemma FetchedKeys(W: History, B: Issued, n: Id, st: State, dots: seq<Dot>, taken: nat)
    requires StateOk(W, B, n, st) && taken <= |dots|
    ensures forall d :: d in W && d.id == n && d in dots ==> d in dots[taken..] || W[d].key in LoggedKeys(st.log, dots[..taken])
    ensures forall k :: k in LoggedKeys(st.log, dots[..taken]) ==> k in st.store
  {
    forall d | d in W && d.id == n && d in dots
      ensures d in dots[taken..] || W[d].key in LoggedKeys(st.log, dots[..taken])
    {
      assert d in st.log && st.log[d] == W[d].key;
      assert dots == dots[..taken] + dots[taken..];
    }
    forall k | k in LoggedKeys(st.log, dots[..taken]) ensures k in st.store {
      var d :| d in dots[..taken] && d in st.log && st.log[d] == k;
      assert Has(st.clock, d);
    }
  }

  /** The key may leave the list once a cube that accounts for its writes is in flight. */
  lemma SendKeyOk(W: History, B: Issued, n: Id, st: State, peerSt: State, sync: Sync, key: Key)
    requires StateOk(W, B, n, st) && sync.Sender? && SenderOk(W, B, st, peerSt, sync) && CanSend(sync.pending, key)
    ensures var cube := CubeToSend(sync.pending, st, key);
            && CubeOk(W, B, key, cube)
            && SenderOk(W, B, st, peerSt, sync.(pending := Sent(sync.pending, key),
                                                inflight := sync.inflight[sync.count := (key, cube)],
                                                count := sync.count + 1))
  {
    var cube := CubeToSend(sync.pending, st, key);
    var inflight := sync.inflight[sync.count := (key, cube)];
    forall d | d in W && Has(sync.clocks, d)
      ensures Seen(W, peerSt, d) || ToSend(W, Sent(sync.pending, key), d) || OnItsWay(W, inflight, d)
    {
      SendKeyKeepsPromise(W, B, n, st, sync, key, d);
    }
  }

  lemma SendKeyKeepsPromise(W: History, B: Issued, n: Id, st: State, sync: Sync, key: Key, d: Dot)
    requires StateOk(W, B, n, st) && sync.Sender? && CanSend(sync.pending, key) && PendingOk(W, B, st, sync.pending)
    requires d in W && Has(st.clock, d)
    requires forall q :: q in sync.inflight ==> q < sync.count
    ensures var inflight := sync.inflight[sync.count := (key, CubeToSend(sync.pending, st, key))];
            ToSend(W, sync.pending, d) || OnItsWay(W, sync.inflight, d) ==>
              ToSend(W, Sent(sync.pending, key), d) || OnItsWay(W, inflight, d)
  {
    var cube := CubeToSend(sync.pending, st, key);
    var inflight := sync.inflight[sync.count := (key, cube)];
    if OnItsWay(W, sync.inflight, d) {
      var q :| q in sync.inflight && sync.inflight[q].0 == W[d].key && Covers(sync.inflight[q].1.Context(), d);
      assert inflight[q] == sync.inflight[q];
    }
    if W[d].key == key {
      assert Seen(W, st, d);
      assert inflight[sync.count] == (key, cube);
      assert ToSend(W, sync.pending, d) ==> Covers(cube.Context(), d);
    }
  }

  /** An acknowledged message may be forgotten: the peer has seen what it told. */
  lemma AckedOk(W: History, B: Issued, st: State, peerSt: State, sync: Sync, q: nat)
    requires sync.Sender? && SenderOk(W, B, st, peerSt, sync)
    requires q in sync.inflight ==> Absorbed(W, peerSt, sync.inflight[q].0, sync.inflight[q].1.Context())
    ensures SenderOk(W, B, st, peerSt, sync.(inflight := sync.inflight - {q}))
  {
    var inflight := sync.inflight - {q};
    forall d | d in W && Has(sync.clocks, d)
      ensures Seen(W, peerSt, d) || ToSend(W, sync.pending, d) || OnItsWay(W, inflight, d)
    {
      if OnItsWay(W, sync.inflight, d) {
        var p :| p in sync.inflight && sync.inflight[p].0 == W[d].key && Covers(sync.inflight[p].1.Context(), d);
        assert p != q ==> p in inflight;
        assert p == q ==> Knows(W, sync.inflight[q].0, sync.inflight[q].1.Context(), d);
      }
    }
  }

  /** SyncFin is honest: with nothing left to send and nothing unacknowledged, the peer has
      seen every write the clock it is about to merge claims. */
  lemma FinIsHonest(W: History, B: Issued, st: State, peerSt: State, sync: Sync)
    requires sync.Sender? && SenderOk(W, B, st, peerSt, sync)
    requires Exhausted(sync.pending) && sync.inflight == map[]
    ensures forall d :: d in W && Has(sync.clocks, d) ==> Seen(W, peerSt, d)
  {
  }

  // ---------------------------------------------------------------- actions of a sender

  lemma StartInv(s: System, msg: Msg, ids: seq<Id>)
    requires Inv(s) && CanServe(s, msg, ids) && msg.cookie !in s.started
    ensures Inv(AfterStart(s, msg, ids)) && Evolves(s, AfterStart(s, msg, ids))
  {
    assert MsgOk(s, msg);
    var st, peerSt := s.replicas[msg.to].state, s.replicas[msg.from].state;
    if msg.bootstrap {
      NewBootstrapOk(s.writes, s.issued, msg.to, st, msg.from, peerSt, msg.inPeer, ids);
    } else {
      NewSyncOk(s.writes, s.issued, msg.to, st, msg.from, peerSt, msg.inPeer, ids);
    }
    StartOnlySync(s, msg, ids);
    OnlySyncEvolves(s, AfterStart(s, msg, ids), msg.to, msg.cookie);
    forall m | m in CookieMsgs(s, msg.cookie) ensures MsgOk(AfterStart(s, msg, ids), m) {
      assert MsgOk(s, m);
      BeforeStart(s, AfterStart(s, msg, ids), m);
    }
    SyncStep(s, AfterStart(s, msg, ids), msg.to, msg.cookie);
  }

  lemma StartOnlySync(s: System, msg: Msg, ids: seq<Id>)
    requires CanServe(s, msg, ids) && SessionsOk(s) && StartOk(s, msg.to, msg.from, msg.cookie, msg.inPeer)
    requires SenderOk(s.writes, s.issued, s.replicas[msg.to].state, s.replicas[msg.from].state,
                      NewSender(s.replicas[msg.to].state, msg.to, msg.from, msg.bootstrap, msg.inPeer, ids))
    ensures var s' := AfterStart(s, msg, ids);
            && OnlySync(s, s', msg.to, msg.cookie) && SessionsOk(s') && SyncOk(s', msg.to, msg.cookie)
            && s'.net - s.net == {}
  {
  }

  /** Before a session is served there are no sends and no acks of it. */
  lemma BeforeStart(s: System, s': System, msg: Msg)
    requires Evolves(s, s') && MsgOk(s, msg) && !msg.RemoteSet? && msg.cookie !in s.started
    ensures MsgOk(s', msg)
  {
    match msg
    case SyncStart(to, from, c, _, inPeer) => StartStable(s, s', to, from, c, inPeer);
    case SyncFin(_, _, c, clocks) => FinStable(s, s', c, clocks);
    case _ =>
  }

  lemma FetchInv(s: System, n: Id, cookie: Cookie, taken: nat)
    requires Inv(s) && CanFetch(s, n, cookie, taken)
    ensures Inv(AfterFetch(s, n, cookie, taken)) && Evolves(s, AfterFetch(s, n, cookie, taken))
  {
    assert SyncOk(s, n, cookie);
    var s', sync := AfterFetch(s, n, cookie, taken), s.replicas[n].syncs[cookie];
    FetchOk(s.writes, s.issued, n, s.replicas[n].state, s.replicas[sync.peer].state, sync, taken);
    SenderChanged(s, s', n, cookie, s'.replicas[n].syncs[cookie]);
    ProgressInv(s, s', n, cookie, s'.replicas[n].syncs[cookie]);
  }

  /** The bookkeeping of a sync is unchanged while its sender works. */
  lemma SenderChanged(s: System, s': System, n: Id, cookie: Cookie, sync: Sync)
    requires IsSender(s, n, cookie) && SyncOk(s, n, cookie)
    requires Progressed(s, s', n, cookie, sync)
    requires var old' := s.replicas[n].syncs[cookie];
             && sync.peer == old'.peer && sync.clocks == old'.clocks && sync.pending.Keys? == old'.pending.Keys?
             && SenderOk(s.writes, s.issued, s.replicas[n].state, s.replicas[sync.peer].state, sync)
    ensures SyncOk(s', n, cookie)
  {
  }

  lemma SendKeyInv(s: System, n: Id, cookie: Cookie, key: Key)
    requires Inv(s) && CanSendKey(s, n, cookie, key)
    ensures Inv(AfterSendKey(s, n, cookie, key)) && Evolves(s, AfterSendKey(s, n, cookie, key))
  {
    assert SyncOk(s, n, cookie);
    var s', sync := AfterSendKey(s, n, cookie, key), s.replicas[n].syncs[cookie];
    SendKeyOk(s.writes, s.issued, n, s.replicas[n].state, s.replicas[sync.peer].state, sync, key);
    SentMsgOk(s, n, cookie, key);
    SenderChanged(s, s', n, cookie, s'.replicas[n].syncs[cookie]);
    ProgressInv(s, s', n, cookie, s'.replicas[n].syncs[cookie]);
  }

  lemma SentMsgOk(s: System, n: Id, cookie: Cookie, key: Key)
    requires CanSendKey(s, n, cookie, key) && SyncOk(s, n, cookie)
    requires CubeOk(s.writes, s.issued, key, CubeToSend(s.replicas[n].syncs[cookie].pending, s.replicas[n].state, key))
    ensures var s' := AfterSendKey(s, n, cookie, key);
            Progressed(s, s', n, cookie, s'.replicas[n].syncs[cookie]) && MsgsOk(s', s'.net - s.net)
  {
  }

  lemma AckInv(s: System, msg: Msg)
    requires Inv(s) && CanAck(s, msg)
    ensures Inv(AfterAck(s, msg)) && Evolves(s, AfterAck(s, msg))
  {
    assert MsgOk(s, msg);
    assert SyncOk(s, msg.to, msg.cookie);
    var s', sync := AfterAck(s, msg), s.replicas[msg.to].syncs[msg.cookie];
    AckedOk(s.writes, s.issued, s.replicas[msg.to].state, s.replicas[sync.peer].state, sync, msg.number);
    SenderChanged(s, s', msg.to, msg.cookie, s'.replicas[msg.to].syncs[msg.cookie]);
    ProgressInv(s, s', msg.to, msg.cookie, s'.replicas[msg.to].syncs[msg.cookie]);
  }

  lemma SendFinInv(s: System, n: Id, cookie: Cookie)
    requires Inv(s) && CanFinish(s, n, cookie)
    ensures Inv(AfterSendFin(s, n, cookie)) && Evolves(s, AfterSendFin(s, n, cookie))
  {
    assert SyncOk(s, n, cookie);
    var s', sync := AfterSendFin(s, n, cookie), s.replicas[n].syncs[cookie];
    FinIsHonest(s.writes, s.issued, s.replicas[n].state, s.replicas[sync.peer].state, sync);
    SentFinOk(s, n, cookie);
    SenderChanged(s, s', n, cookie, sync);
    ProgressInv(s, s', n, cookie, sync);
  }

  lemma SentFinOk(s: System, n: Id, cookie: Cookie)
    requires CanFinish(s, n, cookie) && SyncOk(s, n, cookie)
    requires var sync := s.replicas[n].syncs[cookie];
             forall d :: d in s.writes && Has(sync.clocks, d) ==> Seen(s.writes, s.replicas[sync.peer].state, d)
    ensures var s' := AfterSendFin(s, n, cookie);
            Progressed(s, s', n, cookie, s.replicas[n].syncs[cookie]) && MsgsOk(s', s'.net - s.net)
  {
    var s', sync := AfterSendFin(s, n, cookie), s.replicas[n].syncs[cookie];
    assert FinOk(s', cookie, sync.clocks);
    assert s.replicas[n].syncs[cookie := sync] == s.replicas[n].syncs;
    assert s.replicas[n := s.replicas[n]] == s.replicas;
  }
}
