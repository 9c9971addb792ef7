/** Syncs do their work: once every replica has concluded a sync or a bootstrap from every other,
    each served after some moment, all replicas have all writes of that moment; and if none was
    added since, they show the same siblings (src/vnode_sync.rs:218-267, 530-543). */
module AntiEntropy {
  import opened Basics
  import opened Clocks
  import opened Replicas
  import opened Causality
  import opened Protocol
  import opened ProtocolInvariant
  import opened ProtocolTheorems

  /** The clock has all of n's own writes in W. */
  ghost predicate HasOwn(W: History, n: Id, clock: Clock) {
    forall d :: d in W && d.id == n ==> Has(clock, d)
  }

  /** Senders that began after s0 claim all their own writes of s0. */
  ghost predicate SendersClaim(s0: System, s: System) {
    forall n, cookie :: IsSender(s, n, cookie) && cookie !in s0.started ==>
      HasOwn(s0.writes, n, s.replicas[n].syncs[cookie].clocks)
  }

  /** So do the fins of sessions served after s0. */
  ghost predicate FinsClaim(s0: System, s: System) {
    forall msg :: msg in s.net && msg.SyncFin? && msg.cookie !in s0.started ==>
      msg.cookie in s.sessions && HasOwn(s0.writes, s.sessions[msg.cookie].sender, msg.clocks)
  }

  ghost predicate Later(s0: System, s: System) {
    Inv(s) && Evolves(s0, s) && SendersClaim(s0, s) && FinsClaim(s0, s)
  }

  lemma LaterStarts(s0: System)
    requires Inv(s0)
    ensures Later(s0, s0)
  {
    forall n, cookie | IsSender(s0, n, cookie) ensures cookie in s0.started {
      assert SyncOk(s0, n, cookie);
    }
    forall msg | msg in s0.net && msg.SyncFin? ensures msg.cookie in s0.started {
      assert MsgOk(s0, msg);
    }
  }

  /** A replica's clock has its own writes, so a new sender claims them. */
  lemma OwnWrites(s0: System, s: System, n: Id)
    requires StatesOk(s) && Evolves(s0, s) && n in s.replicas
    ensures HasOwn(s0.writes, n, s.replicas[n].state.clock)
  {
    assert StateOk(s.writes, s.issued, n, s.replicas[n].state);
    forall d | d in s0.writes && d.id == n ensures Has(s.replicas[n].state.clock, d) {
      assert d in s.replicas[n].state.log;
    }
  }

  lemma NewSenderClaims(W: History, st: State, n: Id, peer: Id, bootstrap: bool, inPeer: Clock, ids: seq<Id>)
    requires HasOwn(W, n, st.clock)
    ensures HasOwn(W, n, NewSender(st, n, peer, bootstrap, inPeer, ids).clocks)
  {
  }

  lemma StartShape(s: System, msg: Msg, ids: seq<Id>, n: Id, cookie: Cookie)
    requires CanServe(s, msg, ids) && IsSender(AfterStart(s, msg, ids), n, cookie)
    ensures var clocks := AfterStart(s, msg, ids).replicas[n].syncs[cookie].clocks;
            if n == msg.to && cookie == msg.cookie
            then clocks == NewSender(s.replicas[n].state, n, msg.from, msg.bootstrap, msg.inPeer, ids).clocks
            else IsSender(s, n, cookie) && clocks == s.replicas[n].syncs[cookie].clocks
  {
  }

  lemma StartClaims(s0: System, s: System, msg: Msg, ids: seq<Id>)
    requires StatesOk(s) && Evolves(s0, s) && SendersClaim(s0, s) && CanServe(s, msg, ids)
    ensures SendersClaim(s0, AfterStart(s, msg, ids))
  {
    var s' := AfterStart(s, msg, ids);
    OwnWrites(s0, s, msg.to);
    forall n, cookie | IsSender(s', n, cookie) && cookie !in s0.started
      ensures HasOwn(s0.writes, n, s'.replicas[n].syncs[cookie].clocks)
    {
      StartShape(s, msg, ids, n, cookie);
      if n == msg.to && cookie == msg.cookie {
        NewSenderClaims(s0.writes, s.replicas[n].state, n, msg.from, msg.bootstrap, msg.inPeer, ids);
      }
    }
  }

  lemma SendersStep(s0: System, s: System, a: Action)
    requires StatesOk(s) && Evolves(s0, s) && SendersClaim(s0, s) && Allowed(s, a)
    ensures SendersClaim(s0, Apply(s, a))
  {
    if a.DeliverStart? {
      StartClaims(s0, s, a.msg, a.ids);
    } else {
      forall n, cookie | IsSender(Apply(s, a), n, cookie)
        ensures SameClaim(s, Apply(s, a), n, cookie)
      {
        if OnStates(a) {
          StatesSame(s, a, n, cookie);
        } else {
          SyncsSame(s, a, n, cookie);
        }
      }
    }
  }

  /** The sender was there before and claims the same. */
  ghost predicate SameClaim(s: System, s': System, n: Id, cookie: Cookie)
    requires IsSender(s', n, cookie)
  {
    IsSender(s, n, cookie) && s'.replicas[n].syncs[cookie].clocks == s.replicas[n].syncs[cookie].clocks
  }

  lemma StatesSame(s: System, a: Action, n: Id, cookie: Cookie)
    requires Allowed(s, a) && OnStates(a) && IsSender(Apply(s, a), n, cookie)
    ensures SameClaim(s, Apply(s, a), n, cookie)
  {
  }

  lemma SyncsSame(s: System, a: Action, n: Id, cookie: Cookie)
    requires Allowed(s, a) && !OnStates(a) && !a.DeliverStart? && IsSender(Apply(s, a), n, cookie)
    ensures SameClaim(s, Apply(s, a), n, cookie)
  {
  }

  lemma FinsStep(s0: System, s: System, a: Action)
    requires SyncsOk(s) && MsgsOk(s, s.net) && SendersClaim(s0, s) && FinsClaim(s0, s) && Allowed(s, a)
    requires Evolves(s, Apply(s, a))
    ensures FinsClaim(s0, Apply(s, a))
  {
    var s' := Apply(s, a);
    forall msg | msg in s'.net && msg.SyncFin? && msg.cookie !in s0.started
      ensures msg.cookie in s'.sessions && HasOwn(s0.writes, s'.sessions[msg.cookie].sender, msg.clocks)
    {
      if msg !in s.net {
        NewFin(s, a, msg);
      }
    }
  }

  /** A fin is sent by a sender with the clock it claims, or echoes one. */
  lemma NewFin(s: System, a: Action, msg: Msg)
    requires SyncsOk(s) && Allowed(s, a) && msg in Apply(s, a).net && msg !in s.net && msg.SyncFin?
    ensures || (a.SendFin? && a.cookie == msg.cookie && IsSender(s, a.n, a.cookie)
                && a.cookie in s.sessions && s.sessions[a.cookie].sender == a.n
                && msg.clocks == s.replicas[a.n].syncs[a.cookie].clocks)
            || (a.DeliverFin? && a.msg in s.net && a.msg.SyncFin? && a.msg.cookie == msg.cookie && a.msg.clocks == msg.clocks)
  {
    if a.SendFin? {
      assert SyncOk(s, a.n, a.cookie);
    }
  }

  lemma StepLater(s0: System, s: System, a: Action)
    requires Later(s0, s) && Allowed(s, a) && InOrder(s, a)
    ensures Later(s0, Apply(s, a))
  {
    StepInv(s, a);
    EvolvesTrans(s0, s, Apply(s, a));
    SendersStep(s0, s, a);
    FinsStep(s0, s, a);
  }

  // ---------------------------------------------------------------- over a run

  /** m has all of n's writes of s0. */
  ghost predicate CaughtUp(s0: System, s: System, m: Id, n: Id) {
    m in s.replicas && HasOwn(s0.writes, n, s.replicas[m].state.clock)
  }

  lemma CaughtUpStays(s0: System, s: System, s': System, m: Id, n: Id)
    requires CaughtUp(s0, s, m, n) && Evolves(s, s')
    ensures CaughtUp(s0, s', m, n)
  {
    assert Advances(s.writes, s.replicas[m].state, s'.replicas[m].state);
  }

  /** Concluding a session served after s0 catches up with its sender. */
  lemma Concluded(s0: System, s: System, msg: Msg)
    requires Later(s0, s) && CanConclude(s, msg) && msg.cookie !in s0.started
    ensures msg.cookie in s.sessions
    ensures var Session(m, n) := s.sessions[msg.cookie]; CaughtUp(s0, AfterFin(s, msg), m, n)
  {
    assert MsgOk(s, msg) && SyncOk(s, msg.to, msg.cookie);
    assert StateOk(s.writes, s.issued, msg.to, s.replicas[msg.to].state);
    ClockMergeUnites(s.replicas[msg.to].state.clock, msg.clocks);
  }

  lemma {:induction false} RunLater(s0: System, s: System, run: seq<Action>)
    requires Later(s0, s) && CanRun(s, run) && Orderly(s, run)
    ensures Later(s0, Run(s, run))
    decreases |run|
  {
    if run != [] {
      StepLater(s0, s, run[0]);
      RunLater(s0, Apply(s, run[0]), run[1..]);
    }
  }

  lemma {:induction false} RunSplits(s: System, run: seq<Action>, i: nat)
    requires CanRun(s, run) && Orderly(s, run) && i < |run|
    ensures CanRun(s, run[..i]) && Orderly(s, run[..i])
    ensures var mid := Run(s, run[..i]);
            && Allowed(mid, run[i]) && InOrder(mid, run[i])
            && CanRun(Apply(mid, run[i]), run[i + 1..]) && Orderly(Apply(mid, run[i]), run[i + 1..])
            && Run(s, run) == Run(Apply(mid, run[i]), run[i + 1..])
    decreases |run|
  {
    if i > 0 {
      var rest := run[1..];
      RunSplits(Apply(s, run[0]), rest, i - 1);
      assert run[..i][0] == run[0] && run[..i][1..] == rest[..i - 1] && rest[i - 1] == run[i] && rest[i..] == run[i + 1..];
    }
  }

  /** The run concludes the session with the cookie. */
  ghost predicate Concludes(run: seq<Action>, cookie: Cookie) {
    exists i :: 0 <= i < |run| && run[i].DeliverFin? && run[i].msg.SyncFin? && run[i].msg.cookie == cookie
  }

  lemma StaysCaughtUp(s0: System, s: System, rest: seq<Action>, m: Id, n: Id, cookie: Cookie)
    requires Inv(s) && CanRun(s, rest) && Orderly(s, rest)
    requires cookie in s.sessions && s.sessions[cookie] == Session(m, n) && CaughtUp(s0, s, m, n)
    ensures var s' := Run(s, rest);
            cookie in s'.sessions && s'.sessions[cookie] == Session(m, n) && CaughtUp(s0, s', m, n)
  {
    RunInv(s, rest);
    CaughtUpStays(s0, s, Run(s, rest), m, n);
  }

  lemma FinCatchesUp(s0: System, s: System, msg: Msg, rest: seq<Action>)
    requires Later(s0, s) && CanConclude(s, msg) && msg.cookie !in s0.started
    requires CanRun(AfterFin(s, msg), rest) && Orderly(AfterFin(s, msg), rest) && Inv(AfterFin(s, msg))
    ensures var s' := Run(AfterFin(s, msg), rest);
            && msg.cookie in s'.sessions
            && CaughtUp(s0, s', s'.sessions[msg.cookie].receiver, s'.sessions[msg.cookie].sender)
  {
    Concluded(s0, s, msg);
    StaysCaughtUp(s0, AfterFin(s, msg), rest, s.sessions[msg.cookie].receiver, s.sessions[msg.cookie].sender, msg.cookie);
  }

  lemma RunCatchesUp(s0: System, run: seq<Action>, cookie: Cookie)
    requires Later(s0, s0) && CanRun(s0, run) && Orderly(s0, run)
    requires cookie !in s0.started && Concludes(run, cookie)
    ensures var s' := Run(s0, run);
            cookie in s'.sessions && CaughtUp(s0, s', s'.sessions[cookie].receiver, s'.sessions[cookie].sender)
  {
    var i :| 0 <= i < |run| && run[i].DeliverFin? && run[i].msg.SyncFin? && run[i].msg.cookie == cookie;
    RunSplits(s0, run, i);
    RunLater(s0, s0, run[..i]);
    StepLater(s0, Run(s0, run[..i]), run[i]);
    FinCatchesUp(s0, Run(s0, run[..i]), run[i].msg, run[i + 1..]);
  }

  /** For every two replicas the run concludes a session between them that was served after s0. */
  ghost predicate SyncsAll(s0: System, run: seq<Action>)
    requires CanRun(s0, run)
  {
    forall m, n :: m in s0.replicas && n in s0.replicas && m != n ==>
      exists cookie :: SyncedBy(s0, run, m, n, cookie)
  }

  ghost predicate SyncedBy(s0: System, run: seq<Action>, m: Id, n: Id, cookie: Cookie)
    requires CanRun(s0, run)
  {
    cookie !in s0.started && Concludes(run, cookie)
    && cookie in Run(s0, run).sessions && Run(s0, run).sessions[cookie] == Session(m, n)
  }

  /** After it, every replica has seen every write of s0. */
  lemma AllCatchUp(s0: System, run: seq<Action>, m: Id, d: Dot)
    requires Reachable(s0) && CanRun(s0, run) && Orderly(s0, run) && SyncsAll(s0, run)
    requires m in s0.replicas && d in s0.writes
    ensures var s := Run(s0, run); m in s.replicas && d in s.writes && Has(s.replicas[m].state.clock, d)
  {
    ReachableInv(s0);
    LaterStarts(s0);
    RunLater(s0, s0, run);
    assert d.id in s0.replicas;
    if d.id == m {
      OwnWrites(s0, Run(s0, run), m);
    } else {
      var cookie :| SyncedBy(s0, run, m, d.id, cookie);
      RunCatchesUp(s0, run, cookie);
    }
  }

  /** Anti-entropy converges: if nothing was written meanwhile, all replicas show the same siblings
      for every key. */
  lemma AntiEntropyConverges(s0: System, run: seq<Action>, k: Key, m: Id, n: Id, x: Dot)
    requires Reachable(s0) && CanRun(s0, run) && Orderly(s0, run) && SyncsAll(s0, run)
    requires Run(s0, run).writes == s0.writes && x in s0.writes && s0.writes[x].key == k
    requires m in s0.replicas && n in s0.replicas
    ensures var s := Run(s0, run);
            && m in s.replicas && n in s.replicas
            && var a, b := Get(s.replicas[m].state, k), Get(s.replicas[n].state, k);
               a.Val? && b.Val? && a.value.values == b.value.values
  {
    var s := Run(s0, run);
    ReachableRun(s0, run);
    AllCatchUp(s0, run, m, x);
    AllCatchUp(s0, run, n, x);
    forall d | d in s.writes && s.writes[d].key == k
      ensures Has(s.replicas[m].state.clock, d) && Has(s.replicas[n].state.clock, d)
    {
      AllCatchUp(s0, run, m, d);
      AllCatchUp(s0, run, n, d);
    }
    CaughtUpReplicasAgree(s, k, m, n, x);
  }

  lemma ReachableRun(s0: System, run: seq<Action>)
    requires Reachable(s0) && CanRun(s0, run) && Orderly(s0, run)
    ensures Reachable(Run(s0, run))
  {
    var start, before :| IsRun(start, before, s0);
    RunJoins(start, before, run);
    assert IsRun(start, before + run, Run(s0, run));
  }

  lemma {:induction false} RunJoins(s: System, a: seq<Action>, b: seq<Action>)
    requires CanRun(s, a) && Orderly(s, a) && CanRun(Run(s, a), b) && Orderly(Run(s, a), b)
    ensures CanRun(s, a + b) && Orderly(s, a + b) && Run(s, a + b) == Run(Run(s, a), b)
    decreases |a|
  {
    if a == [] {
      assert a + b == b;
    } else {
      var s' := Apply(s, a[0]);
      RunJoins(s', a[1..], b);
      RunThen(s, a[0], s', a[1..] + b);
      FirstOut(a, b);
    }
  }

  lemma RunThen(s: System, a: Action, s': System, rest: seq<Action>)
    requires Allowed(s, a) && Apply(s, a) == s' && CanRun(s', rest)
    ensures CanRun(s, [a] + rest) && Run(s, [a] + rest) == Run(s', rest)
    ensures InOrder(s, a) && Orderly(s', rest) ==> Orderly(s, [a] + rest)
  {
    assert ([a] + rest)[1..] == rest;
  }
}
