/** What every action of the replication protocol keeps. */
module ProtocolInvariant {
  import opened Clocks
  import opened Cubes
  import opened Replicas
  import opened Causality
  import opened Protocol

  // ---------------------------------------------------------------- the invariant

  /** The sender still has to send something that accounts for d. */
  ghost predicate ToSend(W: History, pending: Pending, d: Dot)
    requires d in W
  {
    match pending
    case Keys(dots, keys) => d in dots || W[d].key in keys
    case Snapshot(rest) => W[d].key in rest && Covers(rest[W[d].key].Context(), d)
  }

  /** A message not acknowledged yet accounts for d. */
  ghost predicate OnItsWay(W: History, inflight: map<nat, (Key, Cube)>, d: Dot)
    requires d in W
  {
    exists q :: q in inflight && inflight[q].0 == W[d].key && Covers(inflight[q].1.Context(), d)
  }

  ghost predicate PendingOk(W: History, B: Issued, st: State, pending: Pending) {
    match pending
    case Keys(_, keys) => forall k :: k in keys ==> k in st.store
    case Snapshot(rest) => forall k :: k in rest ==> CubeOk(W, B, k, rest[k])
  }

  /** Every write the final message will claim has been seen by the peer, or is still on
      its way there. */
  ghost predicate SenderOk(W: History, B: Issued, st: State, peer: State, sync: Sync)
    requires sync.Sender?
  {
    && ClockOk(B, sync.clocks) && ClockWithin(sync.clocks, st.clock)
    && PendingOk(W, B, st, sync.pending)
    && (forall q :: q in sync.inflight ==> q < sync.count && CubeOk(W, B, sync.inflight[q].0, sync.inflight[q].1))
    && forall d :: d in W && Has(sync.clocks, d) ==>
         Seen(W, peer, d) || ToSend(W, sync.pending, d) || OnItsWay(W, sync.inflight, d)
  }

  ghost predicate SyncOk(s: System, n: Id, cookie: Cookie)
    requires HasSync(s, n, cookie)
  {
    var sync := s.replicas[n].syncs[cookie];
    && cookie in s.sessions
    && if sync.Receiver? then s.sessions[cookie].receiver == n
       else
         && s.sessions[cookie] == Session(sync.peer, n) && cookie in s.started && sync.peer in s.replicas
         && (sync.pending.Keys? ==> forall i :: i in sync.clocks ==> i == n)
         && SenderOk(s.writes, s.issued, s.replicas[n].state, s.replicas[sync.peer].state, sync)
  }

  /** If the sender of the session is still at work, message q is numbered below count and, if
      not acknowledged yet, is (key, cube). */
  ghost predicate SentBy(s: System, n: Id, cookie: Cookie, q: nat, key: Key, cube: Cube) {
    IsSender(s, n, cookie) ==>
      var sync := s.replicas[n].syncs[cookie];
      q < sync.count && (q in sync.inflight ==> sync.inflight[q] == (key, cube))
  }

  /** If the sender of the session still waits for q, its peer has what q told it. */
  ghost predicate AckedTo(s: System, n: Id, cookie: Cookie, q: nat, peer: Id)
    requires peer in s.replicas
  {
    IsSender(s, n, cookie) ==>
      var sync := s.replicas[n].syncs[cookie];
      q < sync.count &&
      (q in sync.inflight ==>
         Absorbed(s.writes, s.replicas[peer].state, sync.inflight[q].0, sync.inflight[q].1.Context()))
  }

  ghost predicate StartOk(s: System, to: Id, from: Id, cookie: Cookie, inPeer: Clock) {
    && cookie in s.sessions && s.sessions[cookie] == Session(from, to) && from in s.replicas
    && ClockOk(s.issued, inPeer) && ClockWithin(inPeer, s.replicas[from].state.clock)
  }

  ghost predicate SendOk(s: System, to: Id, from: Id, cookie: Cookie, q: nat, key: Key, cube: Cube) {
    && cookie in s.sessions && s.sessions[cookie] == Session(to, from) && cookie in s.started
    && CubeOk(s.writes, s.issued, key, cube) && SentBy(s, from, cookie, q, key, cube)
  }

  ghost predicate AckOk(s: System, to: Id, cookie: Cookie, q: nat) {
    && cookie in s.sessions && s.sessions[cookie].sender == to && cookie in s.started
    && s.sessions[cookie].receiver in s.replicas && AckedTo(s, to, cookie, q, s.sessions[cookie].receiver)
  }

  /** The receiver has seen every write the final message claims. */
  ghost predicate FinOk(s: System, cookie: Cookie, clocks: Clock) {
    && cookie in s.sessions && s.sessions[cookie].receiver in s.replicas && cookie in s.started && ClockOk(s.issued, clocks)
    && forall d :: d in s.writes && Has(clocks, d) ==>
         Seen(s.writes, s.replicas[s.sessions[cookie].receiver].state, d)
  }

  ghost predicate MsgOk(s: System, msg: Msg) {
    match msg
    case RemoteSet(_, key, cube) => CubeOk(s.writes, s.issued, key, cube)
    case SyncStart(to, from, cookie, _, inPeer) => StartOk(s, to, from, cookie, inPeer)
    case SyncSend(to, from, cookie, q, key, cube) => SendOk(s, to, from, cookie, q, key, cube)
    case SyncAck(to, cookie, q) => AckOk(s, to, cookie, q)
    case SyncFin(_, _, cookie, clocks) => FinOk(s, cookie, clocks)
  }

  ghost predicate StatesOk(s: System) {
    forall n :: n in s.replicas ==> StateOk(s.writes, s.issued, n, s.replicas[n].state)
  }

  ghost predicate SyncsOk(s: System) {
    forall n, cookie :: HasSync(s, n, cookie) ==> SyncOk(s, n, cookie)
  }

  ghost predicate MsgsOk(s: System, msgs: set<Msg>) {
    forall msg :: msg in msgs ==> MsgOk(s, msg)
  }

  ghost predicate SessionsOk(s: System) {
    forall cookie :: cookie in s.sessions ==>
      var Session(receiver, sender) := s.sessions[cookie];
      receiver in s.replicas && sender in s.replicas && receiver != sender
  }

  ghost predicate Inv(s: System) {
    && s.issued.Keys == s.replicas.Keys && HistoryOk(s.writes, s.issued)
    && StatesOk(s) && SyncsOk(s) && MsgsOk(s, s.net) && SessionsOk(s)
  }

  lemma InitInv(s: System)
    requires Init(s)
    ensures Inv(s)
  {
  }

  // ---------------------------------------------------------------- frames

  /** Nothing is forgotten between s and s'. */
  ghost predicate Evolves(s: System, s': System) {
    && s'.replicas.Keys == s.replicas.Keys
    && Extends(s.writes, s.issued, s'.writes, s'.issued)
    && (forall n :: n in s.replicas ==> Advances(s.writes, s.replicas[n].state, s'.replicas[n].state))
    && (forall cookie :: cookie in s.sessions ==> cookie in s'.sessions && s'.sessions[cookie] == s.sessions[cookie])
    && s.started <= s'.started
  }

  /** No replica serves the cookie differently than before. */
  ghost predicate SameSenders(s: System, s': System, cookie: Cookie) {
    forall n :: IsSender(s', n, cookie) ==>
                  IsSender(s, n, cookie) && s'.replicas[n].syncs[cookie] == s.replicas[n].syncs[cookie]
  }

  lemma SeenStable(s: System, s': System, n: Id, d: Dot)
    requires Evolves(s, s') && n in s.replicas && d in s.writes
    requires Seen(s.writes, s.replicas[n].state, d)
    ensures Seen(s'.writes, s'.replicas[n].state, d)
  {
    assert Seen(s.writes, s'.replicas[n].state, d);
  }

  lemma EvolvesTrans(a: System, b: System, c: System)
    requires Evolves(a, b) && Evolves(b, c)
    ensures Evolves(a, c)
  {
    forall n | n in a.replicas ensures Advances(a.writes, a.replicas[n].state, c.replicas[n].state) {
      WithinTrans(a.replicas[n].state.clock, b.replicas[n].state.clock, c.replicas[n].state.clock);
      forall d | d in a.writes && Seen(a.writes, a.replicas[n].state, d) ensures Seen(a.writes, c.replicas[n].state, d) {
        SeenStable(a, b, n, d);
        SeenStable(b, c, n, d);
      }
    }
  }

  lemma WithinTrans(a: Clock, b: Clock, c: Clock)
    requires ClockWithin(a, b) && ClockWithin(b, c)
    ensures ClockWithin(a, c)
  {
  }

  lemma AbsorbedStable(s: System, s': System, n: Id, k: Key, c: Cube)
    requires HistoryOk(s.writes, s.issued) && Evolves(s, s') && n in s.replicas
    requires CubeOk(s.writes, s.issued, k, c) && Absorbed(s.writes, s.replicas[n].state, k, c.Context())
    ensures Absorbed(s'.writes, s'.replicas[n].state, k, c.Context())
  {
    forall d | Knows(s'.writes, k, c.Context(), d) ensures Seen(s'.writes, s'.replicas[n].state, d) {
      assert d in s.writes;
      SeenStable(s, s', n, d);
    }
  }

  lemma SyncStable(s: System, s': System, n: Id, cookie: Cookie)
    requires Inv(s) && Evolves(s, s')
    requires HasSync(s, n, cookie) && HasSync(s', n, cookie)
    requires s'.replicas[n].syncs[cookie] == s.replicas[n].syncs[cookie]
    ensures SyncOk(s', n, cookie)
  {
    assert SyncOk(s, n, cookie);
    var sync := s.replicas[n].syncs[cookie];
    if sync.Sender? {
      SenderStable(s, s', n, sync);
    }
  }

  lemma SenderStable(s: System, s': System, n: Id, sync: Sync)
    requires HistoryOk(s.writes, s.issued) && Evolves(s, s') && sync.Sender? && n in s.replicas && sync.peer in s.replicas
    requires SenderOk(s.writes, s.issued, s.replicas[n].state, s.replicas[sync.peer].state, sync)
    ensures SenderOk(s'.writes, s'.issued, s'.replicas[n].state, s'.replicas[sync.peer].state, sync)
  {
    ClockOkStable(s.writes, s.issued, s'.writes, s'.issued, sync.clocks);
    WithinTrans(sync.clocks, s.replicas[n].state.clock, s'.replicas[n].state.clock);
    PendingStable(s, s', n, sync.pending);
    forall q | q in sync.inflight
      ensures q < sync.count && CubeOk(s'.writes, s'.issued, sync.inflight[q].0, sync.inflight[q].1)
    {
      CubeOkStable(s.writes, s.issued, s'.writes, s'.issued, sync.inflight[q].0, sync.inflight[q].1);
    }
    forall d | d in s'.writes && Has(sync.clocks, d)
      ensures Seen(s'.writes, s'.replicas[sync.peer].state, d)
           || ToSend(s'.writes, sync.pending, d) || OnItsWay(s'.writes, sync.inflight, d)
    {
      if Seen(s.writes, s.replicas[sync.peer].state, d) {
        SeenStable(s, s', sync.peer, d);
      } else {
        assert ToSend(s.writes, sync.pending, d) || OnItsWay(s.writes, sync.inflight, d);
      }
    }
  }

  lemma PendingStable(s: System, s': System, n: Id, pending: Pending)
    requires HistoryOk(s.writes, s.issued) && Evolves(s, s') && n in s.replicas
    requires PendingOk(s.writes, s.issued, s.replicas[n].state, pending)
    ensures PendingOk(s'.writes, s'.issued, s'.replicas[n].state, pending)
  {
    if pending.Snapshot? {
      forall k | k in pending.rest ensures CubeOk(s'.writes, s'.issued, k, pending.rest[k]) {
        CubeOkStable(s.writes, s.issued, s'.writes, s'.issued, k, pending.rest[k]);
      }
    }
  }

  lemma StartStable(s: System, s': System, to: Id, from: Id, cookie: Cookie, inPeer: Clock)
    requires Evolves(s, s') && StartOk(s, to, from, cookie, inPeer)
    ensures StartOk(s', to, from, cookie, inPeer)
  {
    ClockOkStable(s.writes, s.issued, s'.writes, s'.issued, inPeer);
    WithinTrans(inPeer, s.replicas[from].state.clock, s'.replicas[from].state.clock);
  }

  lemma SendStable(s: System, s': System, to: Id, from: Id, cookie: Cookie, q: nat, key: Key, cube: Cube)
    requires HistoryOk(s.writes, s.issued) && Evolves(s, s') && SameSenders(s, s', cookie)
    requires SendOk(s, to, from, cookie, q, key, cube)
    ensures SendOk(s', to, from, cookie, q, key, cube)
  {
    CubeOkStable(s.writes, s.issued, s'.writes, s'.issued, key, cube);
  }

  lemma AckStable(s: System, s': System, n: Id, cookie: Cookie, q: nat)
    requires HistoryOk(s.writes, s.issued) && Evolves(s, s') && SameSenders(s, s', cookie)
    requires IsSender(s, n, cookie) ==> SyncOk(s, n, cookie)
    requires AckOk(s, n, cookie, q)
    ensures AckOk(s', n, cookie, q)
  {
    if IsSender(s', n, cookie) {
      var sync := s.replicas[n].syncs[cookie];
      if q in sync.inflight {
        AbsorbedStable(s, s', s.sessions[cookie].receiver, sync.inflight[q].0, sync.inflight[q].1);
      }
    }
  }

  lemma FinStable(s: System, s': System, cookie: Cookie, clocks: Clock)
    requires Evolves(s, s') && FinOk(s, cookie, clocks)
    ensures FinOk(s', cookie, clocks)
  {
    ClockOkStable(s.writes, s.issued, s'.writes, s'.issued, clocks);
    var n := s.sessions[cookie].receiver;
    forall d | d in s'.writes && Has(clocks, d) ensures Seen(s'.writes, s'.replicas[n].state, d) {
      SeenStable(s, s', n, d);
    }
  }

  lemma MsgStable(s: System, s': System, msg: Msg)
    requires HistoryOk(s.writes, s.issued) && Evolves(s, s') && MsgOk(s, msg)
    requires msg.RemoteSet? || SameSenders(s, s', msg.cookie)
    requires msg.SyncAck? && IsSender(s, msg.to, msg.cookie) ==> SyncOk(s, msg.to, msg.cookie)
    ensures MsgOk(s', msg)
  {
    match msg
    case RemoteSet(_, key, cube) => CubeOkStable(s.writes, s.issued, s'.writes, s'.issued, key, cube);
    case SyncStart(to, from, cookie, _, inPeer) => StartStable(s, s', to, from, cookie, inPeer);
    case SyncSend(to, from, cookie, q, key, cube) => SendStable(s, s', to, from, cookie, q, key, cube);
    case SyncAck(to, cookie, q) => AckStable(s, s', to, cookie, q);
    case SyncFin(_, _, cookie, clocks) => FinStable(s, s', cookie, clocks);
  }

  /** Every sync of s' but the one with cookie at n was there before. */
  ghost predicate SyncsFrom(s: System, s': System, n: Id, cookie: Cookie) {
    forall m, c :: HasSync(s', m, c) && !(m == n && c == cookie) ==>
                     HasSync(s, m, c) && s'.replicas[m].syncs[c] == s.replicas[m].syncs[c]
  }

  lemma SameSendersFrom(s: System, s': System, n: Id, cookie: Cookie, c: Cookie)
    requires SyncsFrom(s, s', n, cookie) && (c != cookie || !HasSync(s', n, cookie))
    ensures SameSenders(s, s', c)
  {
  }

  ghost predicate Concerns(msg: Msg, cookie: Cookie) {
    !msg.RemoteSet? && msg.cookie == cookie
  }

  /** The messages of a session. */
  ghost function CookieMsgs(s: System, cookie: Cookie): set<Msg> {
    set msg | msg in s.net && Concerns(msg, cookie)
  }

  lemma OldSyncsStable(s: System, s': System, n: Id, cookie: Cookie)
    requires Inv(s) && Evolves(s, s') && SyncsFrom(s, s', n, cookie)
    ensures forall m, c :: HasSync(s', m, c) && !(m == n && c == cookie) ==> SyncOk(s', m, c)
  {
    forall m, c | HasSync(s', m, c) && !(m == n && c == cookie) ensures SyncOk(s', m, c) {
      SyncStable(s, s', m, c);
    }
  }

  lemma OldMsgsStable(s: System, s': System, n: Id, cookie: Cookie)
    requires Inv(s) && Evolves(s, s') && SyncsFrom(s, s', n, cookie)
    ensures MsgsOk(s', s.net - CookieMsgs(s, cookie))
    ensures !HasSync(s', n, cookie) ==> MsgsOk(s', s.net)
  {
    forall msg | msg in s.net && (!Concerns(msg, cookie) || !HasSync(s', n, cookie)) ensures MsgOk(s', msg) {
      if !msg.RemoteSet? {
        SameSendersFrom(s, s', n, cookie, msg.cookie);
      }
      OldMsgStable(s, s', msg);
    }
  }

  lemma OldMsgStable(s: System, s': System, msg: Msg)
    requires Inv(s) && Evolves(s, s') && msg in s.net
    requires msg.RemoteSet? || SameSenders(s, s', msg.cookie)
    ensures MsgOk(s', msg)
  {
    if msg.SyncAck? && IsSender(s, msg.to, msg.cookie) {
      assert SyncOk(s, msg.to, msg.cookie);
    }
    MsgStable(s, s', msg);
  }

  /** Only n's state, the history and the network differ. */
  ghost predicate OnlyState(s: System, s': System, n: Id) {
    && s'.replicas.Keys == s.replicas.Keys && s'.issued.Keys == s.issued.Keys
    && s'.sessions == s.sessions && s'.started == s.started
    && (forall m :: m in s.replicas && m != n ==> s'.replicas[m] == s.replicas[m])
    && (forall m :: m in s.issued && m != n ==> s'.issued[m] == s.issued[m])
    && (forall d :: d in s'.writes && d !in s.writes ==> d.id == n)
  }

  lemma OtherStatesStable(s: System, s': System, n: Id)
    requires Inv(s) && n in s.replicas && OnlyState(s, s', n)
    requires Extends(s.writes, s.issued, s'.writes, s'.issued)
    requires StateOk(s'.writes, s'.issued, n, s'.replicas[n].state)
    ensures StatesOk(s')
  {
    forall m | m in s'.replicas && m != n ensures StateOk(s'.writes, s'.issued, m, s'.replicas[m].state) {
      StateOkStable(s.writes, s.issued, s'.writes, s'.issued, m, s.replicas[m].state);
    }
  }

  lemma OnlyStateEvolves(s: System, s': System, n: Id)
    requires n in s.replicas && OnlyState(s, s', n)
    requires Extends(s.writes, s.issued, s'.writes, s'.issued)
    requires Advances(s.writes, s.replicas[n].state, s'.replicas[n].state)
    ensures Evolves(s, s')
  {
  }

  /** An action that changes the state of n and at most removes syncs: only the new messages
      are left to check. */
  lemma StateStep(s: System, s': System, n: Id, cookie: Cookie)
    requires Inv(s) && n in s.replicas && OnlyState(s, s', n)
    requires SyncsFrom(s, s', n, cookie) && !HasSync(s', n, cookie)
    requires HistoryOk(s'.writes, s'.issued) && Extends(s.writes, s.issued, s'.writes, s'.issued)
    requires StateOk(s'.writes, s'.issued, n, s'.replicas[n].state)
    requires Advances(s.writes, s.replicas[n].state, s'.replicas[n].state)
    requires MsgsOk(s', s'.net - s.net)
    ensures Inv(s') && Evolves(s, s')
  {
    OnlyStateEvolves(s, s', n);
    OtherStatesStable(s, s', n);
    OldSyncsStable(s, s', n, cookie);
    OldMsgsStable(s, s', n, cookie);
    assert forall msg :: msg in s'.net ==> msg in s.net || msg in s'.net - s.net;
  }

  /** Only the sync with cookie at n, the sessions and the network differ. */
  ghost predicate OnlySync(s: System, s': System, n: Id, cookie: Cookie) {
    && s'.replicas.Keys == s.replicas.Keys && s'.issued == s.issued && s'.writes == s.writes
    && (forall m :: m in s.replicas ==> s'.replicas[m].state == s.replicas[m].state)
    && SyncsFrom(s, s', n, cookie)
    && (forall c :: c in s.sessions ==> c in s'.sessions && s'.sessions[c] == s.sessions[c])
    && s.started <= s'.started && s.net <= s'.net
  }

  lemma OnlySyncEvolves(s: System, s': System, n: Id, cookie: Cookie)
    requires OnlySync(s, s', n, cookie)
    ensures Evolves(s, s')
  {
  }

  /** An action that changes the sync with one cookie at n: that sync, the messages of that
      cookie and the new messages are left to check. */
  lemma SyncStep(s: System, s': System, n: Id, cookie: Cookie)
    requires Inv(s) && OnlySync(s, s', n, cookie) && SessionsOk(s')
    requires HasSync(s', n, cookie) ==> SyncOk(s', n, cookie)
    requires MsgsOk(s', CookieMsgs(s, cookie)) && MsgsOk(s', s'.net - s.net)
    ensures Inv(s') && Evolves(s, s')
  {
    OnlySyncEvolves(s, s', n, cookie);
    OldSyncsStable(s, s', n, cookie);
    OldMsgsStable(s, s', n, cookie);
    MsgsTogether(s, s', cookie);
    assert StatesOk(s');
  }

  lemma MsgsTogether(s: System, s': System, cookie: Cookie)
    requires MsgsOk(s', s.net - CookieMsgs(s, cookie)) && MsgsOk(s', CookieMsgs(s, cookie)) && MsgsOk(s', s'.net - s.net)
    ensures MsgsOk(s', s'.net)
  {
    forall msg | msg in s'.net ensures MsgOk(s', msg) {
      assert msg in s.net - CookieMsgs(s, cookie) || msg in CookieMsgs(s, cookie) || msg in s'.net - s.net;
    }
  }
}
