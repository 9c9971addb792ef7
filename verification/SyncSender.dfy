/** The sending side of a sync as it runs (src/vnode_sync.rs): an iterator over dots and keys,
    and a loop that keeps a bounded number of messages in flight. A call of send_next is a run
    of the protocol, and so is one of on_msg_ack, whether sending succeeds or not. */
module SyncSenders {
  import opened Basics
  import opened Clocks
  import opened Cubes
  import opened Replicas
  import opened Protocol

  /** The keys of the log entries of dots, as a loop collects them. */
  lemma LoggedKeysStep(log: map<Dot, Key>, dots: seq<Dot>, i: nat)
    requires i < |dots|
    ensures LoggedKeys(log, dots[..i + 1]) == LoggedKeys(log, dots[..i]) + if dots[i] in log then {log[dots[i]]} else {}
  {
    assert dots[..i + 1] == dots[..i] + [dots[i]];
    var l, r := LoggedKeys(log, dots[..i + 1]), LoggedKeys(log, dots[..i]) + if dots[i] in log then {log[dots[i]]} else {};
    forall k | k in l ensures k in r {
      var d :| d in dots[..i + 1] && d in log && log[d] == k;
      assert d in dots[..i] || d == dots[i];
    }
    forall k | k in r ensures k in l {
      if k in LoggedKeys(log, dots[..i]) {
        var d :| d in dots[..i] && d in log && log[d] == k;
        assert d in dots[..i + 1];
      } else {
        assert dots[i] in dots[..i + 1];
      }
    }
  }

  /** SyncKeysIterator: keys are fetched from the log in batches of about limit. */
  class SyncKeysIterator {
    var dots: seq<Dot>
    var keys: set<Key>

    constructor (dots: seq<Dot>)
      ensures this.dots == dots && keys == {}
    {
      this.dots, keys := dots, {};
    }

    ghost function Model(): (p: Pending)
      reads this
    {
      Keys(dots, keys)
    }

    /** Looks dots up until limit keys are found or no dot is left; the log may fail at some dots. */
    static method FetchBatch(dots: seq<Dot>, log: map<Dot, Key>, bad: set<Dot>, limit: nat)
      returns (taken: nat, found: set<Key>, ok: bool)
      requires limit > 0
      ensures taken <= |dots| && (ok ==> found == LoggedKeys(log, dots[..taken]))
      ensures ok && found == {} ==> taken == |dots|
      ensures !ok ==> taken > 0 && dots[taken - 1] in bad
      ensures ok ==> forall i :: 0 <= i < taken ==> dots[i] !in bad
    {
      taken, found, ok := 0, {}, true;
      while taken < |dots| && |found| < limit
        invariant taken <= |dots| && found == LoggedKeys(log, dots[..taken])
        invariant forall i :: 0 <= i < taken ==> dots[i] !in bad
      {
        var d := dots[taken];
        LoggedKeysStep(log, dots, taken);
        taken := taken + 1;
        if d in bad { return taken, {}, false; }
        if d in log {
          found := found + {log[d]};
        }
      }
    }

    /** The next key, after looking up taken dots when no key was left. What was taken when the log
        failed is gone. */
    method Next(log: map<Dot, Key>, bad: set<Dot>, limit: nat) returns (key: Option<Key>, ok: bool, ghost taken: nat)
      requires limit > 0
      modifies this
      ensures old(keys) == {} ==> taken <= |old(dots)|
      ensures ok ==>
        var fetched := if old(keys) != {} then old(Model())
                       else Keys(old(dots)[taken..], LoggedKeys(log, old(dots)[..taken]));
        && (key.Some? ==> key.value in fetched.keys && Model() == Sent(fetched, key.value))
        && (key.None? ==> Model() == fetched && Exhausted(fetched))
      ensures !ok ==> old(keys) == {} && Model() == Keys(old(dots)[taken..], {})
      ensures !ok ==> exists d :: d in old(dots)[..taken] && d in bad
    {
      taken, ok := 0, true;
      if keys == {} {
        var n, found, read := FetchBatch(dots, log, bad, limit);
        assert !read ==> dots[n - 1] in dots[..n];
        taken := n;
        dots, keys := dots[n..], found;
        if !read {
          keys := {};
          return None, false, taken;
        }
        if found == {} {
          return None, true, taken;
        }
      }
      var k :| k in keys;
      keys := keys - {k};
      key := Some(k);
    }
  }

  // ---------------------------------------------------------------- steps of a sender

  /** One step of a sender whose replica is in state st, and the messages it sends. */
  datatype Work = Fetch(taken: nat) | Send(key: Key) | LoseKey(key: Key) | LoseDots(taken: nat) {
    predicate Fails() { LoseKey? || LoseDots? }
  }

  predicate CanWork(sync: Sync, w: Work) {
    && sync.Sender?
    && match w
       case Fetch(taken) => sync.pending.Keys? && sync.pending.keys == {} && taken <= |sync.pending.dots|
       case Send(key) => CanSend(sync.pending, key)
       case LoseKey(key) => CanSend(sync.pending, key)
       case LoseDots(taken) => sync.pending.Keys? && sync.pending.keys == {} && taken <= |sync.pending.dots|
  }

  function Worked(st: State, sync: Sync, w: Work): (r: Sync)
    requires CanWork(sync, w)
  {
    match w
    case Fetch(taken) =>
      sync.(pending := Keys(sync.pending.dots[taken..], LoggedKeys(st.log, sync.pending.dots[..taken])))
    case Send(key) =>
      sync.(pending := Sent(sync.pending, key),
            inflight := sync.inflight[sync.count := (key, CubeToSend(sync.pending, st, key))],
            count := sync.count + 1)
    case LoseKey(key) => sync.(pending := Sent(sync.pending, key))
    case LoseDots(taken) => sync.(pending := Keys(sync.pending.dots[taken..], {}))
  }

  ghost predicate Works(st: State, sync: Sync, work: seq<Work>, sync': Sync)
    decreases |work|
  {
    if work == [] then sync == sync'
    else CanWork(sync, work[0]) && Works(st, Worked(st, sync, work[0]), work[1..], sync')
  }

  lemma {:induction false} WorksThen(st: State, sync: Sync, work: seq<Work>, mid: Sync, w: Work)
    requires Works(st, sync, work, mid) && CanWork(mid, w)
    ensures Works(st, sync, work + [w], Worked(st, mid, w))
    decreases |work|
  {
    if work != [] {
      WorksThen(st, Worked(st, sync, work[0]), work[1..], mid, w);
      assert (work + [w])[1..] == work[1..] + [w];
    }
  }

  lemma WorksOne(st: State, sync: Sync, w: Work)
    requires CanWork(sync, w)
    ensures Works(st, sync, [w], Worked(st, sync, w))
  {
    assert [w][1..] == [];
  }

  lemma {:induction false} WorksOn(st: State, sync: Sync, work: seq<Work>, mid: Sync, more: seq<Work>, end: Sync)
    requires Works(st, sync, work, mid) && Works(st, mid, more, end)
    ensures Works(st, sync, work + more, end)
    decreases |work|
  {
    if work == [] {
      assert work + more == more;
    } else {
      WorksOn(st, Worked(st, sync, work[0]), work[1..], mid, more, end);
      assert (work + more)[1..] == work[1..] + more;
    }
  }

  /** The actions of the protocol a sender's work stands for. */
  function Actions(n: Id, cookie: Cookie, work: seq<Work>): (r: seq<Action>) {
    seq(|work|, i requires 0 <= i < |work| =>
      match work[i]
      case Fetch(taken) => FetchKeys(n, cookie, taken)
      case Send(key) => SendKey(n, cookie, key)
      case LoseKey(key) => FailSend(n, cookie, key)
      case LoseDots(taken) => FailFetch(n, cookie, taken))
  }

  /** Work is a run of the protocol that changes the sender and sends messages, nothing else. */
  lemma {:induction false} WorkIsARun(s: System, n: Id, cookie: Cookie, work: seq<Work>, sync': Sync)
    requires IsSender(s, n, cookie) && Works(s.replicas[n].state, s.replicas[n].syncs[cookie], work, sync')
    ensures CanRun(s, Actions(n, cookie, work))
    ensures var s' := Run(s, Actions(n, cookie, work));
            && IsSender(s', n, cookie) && s'.replicas[n].syncs[cookie] == sync'
            && s' == WithSync(s, n, cookie, sync').(net := s'.net)
    decreases |work|
  {
    var sync, acts := s.replicas[n].syncs[cookie], Actions(n, cookie, work);
    if work == [] {
      assert s.replicas[n].syncs[cookie := sync] == s.replicas[n].syncs;
      assert s.replicas[n := s.replicas[n]] == s.replicas;
    } else {
      OneStep(s, n, cookie, work[0]);
      assert acts[0] == Actions(n, cookie, [work[0]])[0] && acts[1..] == Actions(n, cookie, work[1..]);
      WorkIsARun(Apply(s, acts[0]), n, cookie, work[1..], sync');
      SyncTwice(s, n, cookie, Worked(s.replicas[n].state, sync, work[0]), sync');
    }
  }

  lemma OneStep(s: System, n: Id, cookie: Cookie, w: Work)
    requires IsSender(s, n, cookie) && CanWork(s.replicas[n].syncs[cookie], w)
    ensures var a := Actions(n, cookie, [w])[0];
            && Allowed(s, a)
            && var s' := Apply(s, a);
               s' == WithSync(s, n, cookie, Worked(s.replicas[n].state, s.replicas[n].syncs[cookie], w)).(net := s'.net)
  {
  }

  function Acked(sync: Sync, number: nat): Sync
    requires sync.Sender?
  {
    sync.(inflight := sync.inflight - {number})
  }

  /** An acknowledgement and the work after it are a run of the protocol. */
  lemma AckIsARun(s: System, n: Id, cookie: Cookie, number: nat, work: seq<Work>, sync': Sync)
    requires IsSender(s, n, cookie) && SyncAck(n, cookie, number) in s.net
    requires Works(s.replicas[n].state, Acked(s.replicas[n].syncs[cookie], number), work, sync')
    ensures var run := [DeliverAck(SyncAck(n, cookie, number))] + Actions(n, cookie, work);
            && CanRun(s, run)
            && var s' := Run(s, run);
               && IsSender(s', n, cookie) && s'.replicas[n].syncs[cookie] == sync'
               && s' == WithSync(s, n, cookie, sync').(net := s'.net)
  {
    var ack, rest := DeliverAck(SyncAck(n, cookie, number)), Actions(n, cookie, work);
    var sync := Acked(s.replicas[n].syncs[cookie], number);
    var s1 := WithSync(s, n, cookie, sync);
    assert Apply(s, ack) == s1;
    WorkIsARun(s1, n, cookie, work, sync');
    assert ([ack] + rest)[1..] == rest;
    SyncTwice(s, n, cookie, sync, sync');
  }

  lemma SyncTwice(s: System, n: Id, cookie: Cookie, a: Sync, b: Sync)
    requires n in s.replicas
    ensures WithSync(WithSync(s, n, cookie, a), n, cookie, b) == WithSync(s, n, cookie, b)
  {
    var t := WithSync(s, n, cookie, a);
    assert t.replicas[n].syncs[cookie := b] == s.replicas[n].syncs[cookie := b];
    assert WithSync(t, n, cookie, b).replicas == WithSync(s, n, cookie, b).replicas;
  }

  // ---------------------------------------------------------------- SyncSender

  class SyncSender {
    const peer: Id
    const clocks: Clock
    const keys: SyncKeysIterator
    var inflight: map<nat, (Key, Cube)>
    var count: nat

    ghost function Model(): (sync: Sync)
      reads this, keys
    {
      Sender(peer, clocks, keys.Model(), inflight, count)
    }

    /** Messages in flight have been numbered. */
    ghost predicate Valid()
      reads this
    {
      forall q :: q in inflight ==> q < count
    }

    /** new_sync_sender. */
    constructor (st: State, n: Id, peer: Id, inPeer: Clock, ids: seq<Id>)
      ensures Valid() && Model() == NewSender(st, n, peer, false, inPeer, ids) && fresh(keys)
    {
      this.peer := peer;
      clocks := map i | i in st.clock && i == n :: st.clock[i];
      keys := new SyncKeysIterator(ClockDelta(st.clock, inPeer, ids));
      inflight, count := map[], 0;
    }

    /** send_next, without resends: messages until limit of them are in flight or the iterator is
        exhausted, and a fin when nothing is in flight then. It ends at the first message that cannot
        be sent and the first dot that cannot be looked up. */
    method SendNext(st: State, limit: nat, batch: nat, route: nat -> bool, bad: set<Dot>)
      returns (result: SendResult, ghost work: seq<Work>)
      requires Valid() && batch > 0
      modifies this, keys
      ensures Valid() && Works(st, old(Model()), work, Model())
      ensures result == Failed <==> work != [] && work[|work| - 1].Fails()
      ensures result == Finishes <==> result != Failed && inflight == map[]
      ensures forall i :: 0 <= i < |work| - 1 ==> !work[i].Fails()
      ensures result != Failed && |inflight| < limit ==> Exhausted(Model().pending)
      ensures limit == 0 ==> Model() == old(Model())
      ensures |inflight| <= if limit < |old(inflight)| then |old(inflight)| else limit
      ensures (forall q :: route(q)) && bad == {} ==> result != Failed
    {
      work := [];
      var exhausted := false;
      while |inflight| < limit && !exhausted
        invariant Valid() && Works(st, old(Model()), work, Model())
        invariant forall w :: w in work ==> !w.Fails()
        invariant exhausted ==> Exhausted(Model().pending)
        invariant limit == 0 ==> Model() == old(Model())
        invariant |inflight| <= if limit < |old(inflight)| then |old(inflight)| else limit
        decreases !exhausted, limit - |inflight|
      {
        ghost var before := Model();
        var sent, more := SendOne(st, batch, route, bad);
        WorksOn(st, old(Model()), work, before, more, Model());
        work := work + more;
        if sent == Failed { return Failed, work; }
        exhausted := sent == Finishes;
      }
      result := if inflight == map[] then Finishes else Waits;
    }

    /** One turn of its loop: a message, or nothing left to send. */
    method SendOne(st: State, batch: nat, route: nat -> bool, bad: set<Dot>)
      returns (sent: SendResult, ghost work: seq<Work>)
      requires Valid() && batch > 0
      modifies this, keys
      ensures Valid() && Works(st, old(Model()), work, Model())
      ensures forall i :: 0 <= i < |work| ==> (work[i].Fails() <==> sent == Failed && i == |work| - 1)
      ensures sent == Failed ==> work != []
      ensures sent == Finishes ==> Exhausted(Model().pending)
      ensures |inflight| == |old(inflight)| + if sent == Waits then 1 else 0
      ensures (forall q :: route(q)) && bad == {} ==> sent != Failed
    {
      work := [];
      ghost var before := Model();
      var key, ok, taken := keys.Next(st.log, bad, batch);
      if !ok {
        WorksOne(st, before, LoseDots(taken));
        return Failed, [LoseDots(taken)];
      }
      if before.pending.keys == {} {
        work := [Fetch(taken)];
        WorksOne(st, before, Fetch(taken));
        before := Worked(st, before, Fetch(taken));
      }
      if key.None? { return Finishes, work; }
      if !route(count) {
        WorksThen(st, old(Model()), work, before, LoseKey(key.value));
        return Failed, work + [LoseKey(key.value)];
      }
      WorksThen(st, old(Model()), work, before, Send(key.value));
      work := work + [Send(key.value)];
      inflight := inflight[count := (key.value, Get(st, key.value))];
      count := count + 1;
      sent := Waits;
    }

    /** on_msg_ack. What send_next returns is ignored there. */
    method OnMsgAck(number: nat, st: State, limit: nat, batch: nat, route: nat -> bool, bad: set<Dot>)
      returns (ghost result: SendResult, ghost work: seq<Work>)
      requires Valid() && batch > 0
      modifies this, keys
      ensures Valid() && Works(st, Acked(old(Model()), number), work, Model())
      ensures result == Failed <==> work != [] && work[|work| - 1].Fails()
      ensures result == Finishes <==> result != Failed && inflight == map[]
      ensures result != Failed && |inflight| < limit ==> Exhausted(Model().pending)
      ensures (forall q :: route(q)) && bad == {} ==> result != Failed
    {
      inflight := inflight - {number};
      result, work := SendNext(st, limit, batch, route, bad);
    }
  }

  /** A fin is sent when nothing is in flight, unless something failed. */
  datatype SendResult = Waits | Finishes | Failed
}
