/** Syncs can always be brought to an end (src/vnode_sync.rs:152-307, 356-460, 530-615): from every
    reachable state, any replica can conclude a sync or a bootstrap from any ready one, whatever else
    is under way. So the replicas can always be made to converge. */
module SyncProgress {
  import opened Clocks
  import opened Cubes
  import opened Replicas
  import opened Causality
  import opened Protocol
  import opened ProtocolInvariant
  import opened ProtocolTheorems
  import opened AntiEntropy

  ghost predicate Ready(s: System, n: Id) {
    n in s.replicas && s.replicas[n].ready
  }

  /** Nothing was written, and who was ready still is. */
  ghost predicate Quiet(s: System, s': System) {
    && s'.writes == s.writes && s'.replicas.Keys == s.replicas.Keys
    && forall n :: Ready(s, n) ==> Ready(s', n)
  }

  /** A run leads from s to s' quietly and concludes the given sessions. */
  ghost predicate Leads(s: System, s': System, concluded: set<Cookie>) {
    Quiet(s, s') && exists run :: IsQuietRun(s, run, s', concluded)
  }

  ghost predicate IsQuietRun(s: System, run: seq<Action>, s': System, concluded: set<Cookie>) {
    && CanRun(s, run) && Orderly(s, run) && Run(s, run) == s'
    && forall cookie :: cookie in concluded ==> Concludes(run, cookie)
  }

  lemma LeadsNowhere(s: System)
    ensures Leads(s, s, {})
  {
    assert IsQuietRun(s, [], s, {});
  }

  lemma LeadsOne(s: System, a: Action, s': System, concluded: set<Cookie>)
    requires Allowed(s, a) && InOrder(s, a) && Apply(s, a) == s' && Quiet(s, s')
    requires concluded == if a.DeliverFin? && a.msg.SyncFin? then {a.msg.cookie} else {}
    ensures Leads(s, s', concluded)
  {
    assert [a][1..] == [] && [a][0] == a;
    assert CanRun(s', []) && Orderly(s', []) && Run(s', []) == s';
    assert forall cookie :: cookie in concluded ==> Concludes([a], cookie);
    assert IsQuietRun(s, [a], s', concluded);
  }

  lemma ConcludesEither(a: seq<Action>, b: seq<Action>, cookie: Cookie)
    requires Concludes(a, cookie) || Concludes(b, cookie)
    ensures Concludes(a + b, cookie)
  {
    if Concludes(a, cookie) {
      var i :| 0 <= i < |a| && a[i].DeliverFin? && a[i].msg.SyncFin? && a[i].msg.cookie == cookie;
      assert (a + b)[i] == a[i];
    } else {
      var i :| 0 <= i < |b| && b[i].DeliverFin? && b[i].msg.SyncFin? && b[i].msg.cookie == cookie;
      assert (a + b)[|a| + i] == b[i];
    }
  }

  lemma LeadsBoth(s: System, s1: System, s2: System, c1: set<Cookie>, c2: set<Cookie>)
    requires Leads(s, s1, c1) && Leads(s1, s2, c2)
    ensures Leads(s, s2, c1 + c2)
  {
    var a :| IsQuietRun(s, a, s1, c1);
    var b :| IsQuietRun(s1, b, s2, c2);
    RunJoins(s, a, b);
    forall cookie | cookie in c1 + c2 ensures Concludes(a + b, cookie) {
      ConcludesEither(a, b, cookie);
    }
    assert IsQuietRun(s, a + b, s2, c1 + c2);
  }

  lemma LeadsOn(s: System, s1: System, s2: System, concluded: set<Cookie>)
    requires Leads(s, s1, {}) && Leads(s1, s2, concluded)
    ensures Leads(s, s2, concluded)
  {
    LeadsBoth(s, s1, s2, {}, concluded);
    assert {} + concluded == concluded;
  }

  lemma LeadsEvolves(s: System, s': System, concluded: set<Cookie>)
    requires Reachable(s) && Leads(s, s', concluded)
    ensures Reachable(s') && Evolves(s, s')
  {
    var run :| IsQuietRun(s, run, s', concluded);
    ReachableInv(s);
    ReachableRun(s, run);
    RunInv(s, run);
  }

  // ---------------------------------------------------------------- a session is opened and served

  lemma {:induction false} FreshCookie(used: set<Cookie>) returns (cookie: Cookie)
    ensures forall c :: c in used ==> c < cookie
  {
    if used == {} {
      cookie := 0;
    } else {
      var c :| c in used;
      var rest := FreshCookie(used - {c});
      cookie := if c < rest then rest else c + 1;
      assert forall d :: d in used ==> d == c || d in used - {c};
    }
  }

  ghost function Ids(clock: Clock): seq<Id> {
    var dots := Enumerate(set i | i in clock :: Dot(i, 0));
    seq(|dots|, i requires 0 <= i < |dots| => dots[i].id)
  }

  lemma IdsAll(clock: Clock, i: Id)
    requires i in clock
    ensures i in Ids(clock)
  {
    var dots := Enumerate(set i | i in clock :: Dot(i, 0));
    assert Dot(i, 0) in dots;
    var k :| 0 <= k < |dots| && dots[k] == Dot(i, 0);
    assert Ids(clock)[k] == i;
  }

  ghost predicate Receiving(s: System, m: Id, n: Id, cookie: Cookie) {
    && m != n && IsReceiver(s, m, cookie) && (s.replicas[m].ready || s.replicas[m].syncs[cookie].bootstrap)
    && cookie in s.sessions && s.sessions[cookie] == Session(m, n)
  }

  ghost predicate Asked(s: System, m: Id, n: Id, cookie: Cookie, msg: Msg) {
    && Receiving(s, m, n, cookie) && Ready(s, n) && cookie !in s.replicas[n].syncs && cookie !in s.started
    && msg in s.net && msg.SyncStart? && msg.to == n && msg.from == m && msg.cookie == cookie
  }

  lemma Opens(s: System, m: Id, n: Id, cookie: Cookie) returns (s': System, msg: Msg)
    requires m in s.replicas && Ready(s, n) && m != n
    requires cookie !in s.sessions && cookie !in s.started && cookie !in s.replicas[n].syncs
    ensures Leads(s, s', {}) && Asked(s', m, n, cookie, msg) && s'.replicas[n].state == s.replicas[n].state
  {
    s' := AfterOpen(s, m, n, cookie);
    msg := SyncStart(n, m, cookie, !s.replicas[m].ready, if s.replicas[m].ready then s.replicas[m].state.clock else map[]);
    LeadsOne(s, OpenSync(m, n, cookie), s', {});
  }

  /** No Void is stored, and what is logged is stored. */
  ghost predicate Sound(st: State) {
    (forall k :: k in st.store ==> !st.store[k].Void?) && (forall d :: d in st.log ==> st.log[d] in st.store)
  }

  /** No Void will be sent. */
  ghost predicate Sendable(st: State, pending: Pending) {
    forall key :: CanSend(pending, key) ==> !CubeToSend(pending, st, key).Void?
  }

  /** m waits for the messages of n, which is in state st, has pending left, and inflight in flight. */
  ghost predicate InSession(s: System, m: Id, n: Id, cookie: Cookie, st: State, pending: Pending,
                            inflight: map<nat, (Key, Cube)>) {
    && Receiving(s, m, n, cookie) && IsSender(s, n, cookie) && s.replicas[n].syncs[cookie].peer == m
    && s.replicas[n].state == st
    && s.replicas[n].syncs[cookie].pending == pending && s.replicas[n].syncs[cookie].inflight == inflight
  }

  lemma SendableAtFirst(st: State, n: Id, m: Id, bootstrap: bool, inPeer: Clock, ids: seq<Id>)
    requires Sound(st)
    ensures Sendable(st, NewSender(st, n, m, bootstrap, inPeer, ids).pending)
  {
  }

  lemma Serves(s: System, m: Id, n: Id, cookie: Cookie, msg: Msg, st: State) returns (s': System, pending: Pending)
    requires Asked(s, m, n, cookie, msg) && s.replicas[n].state == st && Sound(st)
    ensures Leads(s, s', {}) && InSession(s', m, n, cookie, st, pending, map[]) && Sendable(st, pending)
  {
    var ids := Ids(st.clock);
    forall i | i in st.clock ensures i in ids {
      IdsAll(st.clock, i);
    }
    s' := AfterStart(s, msg, ids);
    pending := NewSender(st, n, m, msg.bootstrap, msg.inPeer, ids).pending;
    SendableAtFirst(st, n, m, msg.bootstrap, msg.inPeer, ids);
    LeadsOne(s, DeliverStart(msg, ids), s', {});
  }

  // ---------------------------------------------------------------- everything is sent

  lemma Sends(s: System, m: Id, n: Id, cookie: Cookie, st: State, pending: Pending, key: Key, cube: Cube)
    returns (s': System, q: nat)
    requires InSession(s, m, n, cookie, st, pending, map[]) && CanSend(pending, key) && cube == CubeToSend(pending, st, key)
    ensures Leads(s, s', {}) && InSession(s', m, n, cookie, st, Sent(pending, key), map[q := (key, cube)])
    ensures SyncSend(m, n, cookie, q, key, cube) in s'.net
  {
    q, s' := s.replicas[n].syncs[cookie].count, AfterSendKey(s, n, cookie, key);
    LeadsOne(s, SendKey(n, cookie, key), s', {});
  }

  lemma Receives(s: System, m: Id, n: Id, cookie: Cookie, st: State, pending: Pending, q: nat, key: Key, cube: Cube)
    returns (s': System)
    requires InSession(s, m, n, cookie, st, pending, map[q := (key, cube)]) && !cube.Void?
    requires SyncSend(m, n, cookie, q, key, cube) in s.net
    ensures Leads(s, s', {}) && InSession(s', m, n, cookie, st, pending, map[q := (key, cube)])
    ensures SyncAck(n, cookie, q) in s'.net
  {
    var msg := SyncSend(m, n, cookie, q, key, cube);
    s' := AfterSend(s, msg);
    LeadsOne(s, DeliverSend(msg), s', {});
  }

  lemma Acks(s: System, m: Id, n: Id, cookie: Cookie, st: State, pending: Pending, q: nat, x: (Key, Cube)) returns (s': System)
    requires InSession(s, m, n, cookie, st, pending, map[q := x]) && SyncAck(n, cookie, q) in s.net
    ensures Leads(s, s', {}) && InSession(s', m, n, cookie, st, pending, map[])
  {
    assert map[q := x] - {q} == map[];
    s' := AfterAck(s, SyncAck(n, cookie, q));
    LeadsOne(s, DeliverAck(SyncAck(n, cookie, q)), s', {});
  }

  /** One key is sent, stored and acknowledged. */
  lemma RoundTrip(s: System, m: Id, n: Id, cookie: Cookie, st: State, pending: Pending, key: Key) returns (s': System)
    requires InSession(s, m, n, cookie, st, pending, map[]) && Sendable(st, pending) && CanSend(pending, key)
    ensures Leads(s, s', {}) && InSession(s', m, n, cookie, st, Sent(pending, key), map[])
  {
    var cube := CubeToSend(pending, st, key);
    var s1, q := Sends(s, m, n, cookie, st, pending, key, cube);
    var s2 := Receives(s1, m, n, cookie, st, Sent(pending, key), q, key, cube);
    s' := Acks(s2, m, n, cookie, st, Sent(pending, key), q, (key, cube));
    LeadsOn(s, s1, s2, {});
    LeadsOn(s, s2, s', {});
  }

  /** The dots are looked up in the log. */
  lemma Fetches(s: System, m: Id, n: Id, cookie: Cookie, st: State, pending: Pending) returns (s': System, fetched: Pending)
    requires InSession(s, m, n, cookie, st, pending, map[]) && pending.Keys? && pending.keys == {} && Sound(st)
    ensures Leads(s, s', {}) && InSession(s', m, n, cookie, st, fetched, map[])
    ensures DotsLeft(fetched) == 0 && Sendable(st, fetched)
  {
    s' := AfterFetch(s, n, cookie, |pending.dots|);
    fetched := s'.replicas[n].syncs[cookie].pending;
    LeadsOne(s, FetchKeys(n, cookie, |pending.dots|), s', {});
  }

  function KeysLeft(pending: Pending): set<Key> {
    if pending.Keys? then pending.keys else pending.rest.Keys
  }

  function DotsLeft(pending: Pending): nat {
    if pending.Keys? then |pending.dots| else 0
  }

  lemma SentLeaves(st: State, pending: Pending, key: Key)
    requires Sendable(st, pending)
    ensures KeysLeft(Sent(pending, key)) == KeysLeft(pending) - {key} && DotsLeft(Sent(pending, key)) == DotsLeft(pending)
    ensures Sendable(st, Sent(pending, key))
  {
    forall k | CanSend(Sent(pending, key), k) ensures !CubeToSend(Sent(pending, key), st, k).Void? {
      assert CanSend(pending, k) && CubeToSend(Sent(pending, key), st, k) == CubeToSend(pending, st, k);
    }
  }

  lemma {:induction false} Drains(s: System, m: Id, n: Id, cookie: Cookie, st: State, pending: Pending)
    returns (s': System, none: Pending)
    requires InSession(s, m, n, cookie, st, pending, map[]) && Sound(st) && Sendable(st, pending)
    ensures Leads(s, s', {}) && InSession(s', m, n, cookie, st, none, map[]) && Exhausted(none)
    decreases DotsLeft(pending), |KeysLeft(pending)|
  {
    if KeysLeft(pending) == {} && DotsLeft(pending) == 0 {
      s', none := s, pending;
      LeadsNowhere(s);
    } else {
      var s1, left;
      if KeysLeft(pending) == {} {
        s1, left := Fetches(s, m, n, cookie, st, pending);
      } else {
        var key :| key in KeysLeft(pending);
        left := Sent(pending, key);
        SentLeaves(st, pending, key);
        s1 := RoundTrip(s, m, n, cookie, st, pending, key);
      }
      s', none := Drains(s1, m, n, cookie, st, left);
      LeadsOn(s, s1, s', {});
    }
  }

  // ---------------------------------------------------------------- it is concluded

  lemma SendsFin(s: System, m: Id, n: Id, cookie: Cookie, st: State, none: Pending) returns (s': System, fin: Msg)
    requires InSession(s, m, n, cookie, st, none, map[]) && Exhausted(none)
    ensures Leads(s, s', {}) && Receiving(s', m, n, cookie)
    ensures fin in s'.net && fin.SyncFin? && fin.to == m && fin.cookie == cookie
  {
    s', fin := AfterSendFin(s, n, cookie), SyncFin(m, n, cookie, s.replicas[n].syncs[cookie].clocks);
    LeadsOne(s, SendFin(n, cookie), s', {});
  }

  lemma Ends(s: System, m: Id, n: Id, cookie: Cookie, fin: Msg) returns (s': System)
    requires Receiving(s, m, n, cookie) && fin in s.net && fin.SyncFin? && fin.to == m && fin.cookie == cookie
    ensures Leads(s, s', {cookie}) && Ready(s', m) && cookie in s'.sessions && s'.sessions[cookie] == Session(m, n)
  {
    s' := AfterFin(s, fin);
    LeadsOne(s, DeliverFin(fin), s', {cookie});
  }

  lemma Concluding(s: System, m: Id, n: Id, cookie: Cookie, st: State, pending: Pending) returns (s': System)
    requires InSession(s, m, n, cookie, st, pending, map[]) && Sound(st) && Sendable(st, pending)
    ensures Leads(s, s', {cookie}) && Ready(s', m) && cookie in s'.sessions && s'.sessions[cookie] == Session(m, n)
  {
    var s1, none := Drains(s, m, n, cookie, st, pending);
    var s2, fin := SendsFin(s1, m, n, cookie, st, none);
    s' := Ends(s2, m, n, cookie, fin);
    LeadsOn(s, s1, s2, {});
    LeadsOn(s, s2, s', {cookie});
  }

  /** A replica can conclude a session from any ready one. */
  lemma CanSync(s: System, m: Id, n: Id) returns (s': System, cookie: Cookie)
    requires m in s.replicas && Ready(s, n) && m != n && Sound(s.replicas[n].state)
    ensures cookie !in s.started && Leads(s, s', {cookie}) && Ready(s', m)
    ensures cookie in s'.sessions && s'.sessions[cookie] == Session(m, n)
  {
    var st := s.replicas[n].state;
    cookie := FreshCookie(s.sessions.Keys + s.started + s.replicas[n].syncs.Keys);
    var s1, msg := Opens(s, m, n, cookie);
    var s2, pending := Serves(s1, m, n, cookie, msg, st);
    s' := Concluding(s2, m, n, cookie, st, pending);
    LeadsOn(s, s1, s2, {});
    LeadsOn(s, s2, s', {cookie});
  }

  // ---------------------------------------------------------------- all of them

  lemma SoundNow(s: System, n: Id)
    requires StatesOk(s) && n in s.replicas
    ensures Sound(s.replicas[n].state)
  {
    assert StateOk(s.writes, s.issued, n, s.replicas[n].state);
  }

  lemma SoundThen(s: System, s': System, concluded: set<Cookie>, n: Id)
    requires Reachable(s) && Leads(s, s', concluded) && n in s'.replicas
    ensures Sound(s'.replicas[n].state)
  {
    LeadsEvolves(s, s', concluded);
    ReachableInv(s');
    SoundNow(s', n);
  }

  lemma LeadsAnyway(s: System, s': System, concluded: set<Cookie>)
    requires Leads(s, s', concluded)
    ensures Leads(s, s', {})
  {
    var run :| IsQuietRun(s, run, s', concluded);
    assert IsQuietRun(s, run, s', {});
  }

  /** Every replica can become ready once one is. */
  lemma {:induction false} GetReady(s: System, r: Id, ids: set<Id>) returns (s': System)
    requires Reachable(s) && Ready(s, r) && ids <= s.replicas.Keys
    ensures Leads(s, s', {}) && forall m :: m in ids ==> Ready(s', m)
  {
    if ids == {} {
      s' := s;
      LeadsNowhere(s);
    } else {
      var m :| m in ids;
      var s1 := GetReady(s, r, ids - {m});
      s' := s1;
      if m != r {
        s' := GetsReady(s, s1, m, r);
      }
      assert forall k :: k in ids ==> k == m || k in ids - {m};
    }
  }

  lemma GetsReady(s: System, s1: System, m: Id, r: Id) returns (s': System)
    requires Reachable(s) && Leads(s, s1, {}) && m in s.replicas && Ready(s, r) && m != r
    ensures Leads(s, s', {}) && Ready(s', m) && forall k :: Ready(s1, k) ==> Ready(s', k)
  {
    SoundThen(s, s1, {}, r);
    var cookie;
    s', cookie := CanSync(s1, m, r);
    LeadsAnyway(s1, s', {cookie});
    LeadsOn(s, s1, s', {});
  }

  /** One of the sessions brought m what n had, and was served after s. */
  ghost predicate Synced(s: System, s': System, concluded: set<Cookie>, m: Id, n: Id) {
    exists cookie ::
      cookie in concluded && cookie !in s.started && cookie in s'.sessions && s'.sessions[cookie] == Session(m, n)
  }

  /** No cookie is forgotten. */
  ghost predicate Remembers(s: System, s': System) {
    && s.started <= s'.started
    && forall cookie :: cookie in s.sessions ==> cookie in s'.sessions && s'.sessions[cookie] == s.sessions[cookie]
  }

  lemma LeadsRemembers(s: System, s': System, concluded: set<Cookie>)
    requires Reachable(s) && Leads(s, s', concluded)
    ensures Remembers(s, s')
  {
    LeadsEvolves(s, s', concluded);
  }

  lemma ThenReachable(s: System, s': System, concluded: set<Cookie>)
    requires Reachable(s) && Leads(s, s', concluded)
    ensures Reachable(s')
  {
    LeadsEvolves(s, s', concluded);
  }

  lemma SyncedStays(s: System, s1: System, s2: System, c1: set<Cookie>, c2: set<Cookie>, m: Id, n: Id)
    requires Synced(s, s1, c1, m, n) && Remembers(s1, s2) && c1 <= c2
    ensures Synced(s, s2, c2, m, n)
  {
    var cookie :| cookie in c1 && cookie !in s.started && cookie in s1.sessions && s1.sessions[cookie] == Session(m, n);
    assert cookie in c2 && s2.sessions[cookie] == Session(m, n);
  }

  ghost predicate CanAll(s: System, pairs: set<(Id, Id)>) {
    forall p :: p in pairs ==> p.0 in s.replicas && Ready(s, p.1) && p.0 != p.1
  }

  /** Any set of pairs can be synced. */
  lemma {:induction false} SyncEach(s: System, pairs: set<(Id, Id)>) returns (s': System, concluded: set<Cookie>)
    requires Reachable(s) && CanAll(s, pairs)
    ensures Leads(s, s', concluded) && forall p :: p in pairs ==> Synced(s, s', concluded, p.0, p.1)
  {
    if pairs == {} {
      s', concluded := s, {};
      LeadsNowhere(s);
    } else {
      var p :| p in pairs;
      var s1, before := SyncEach(s, pairs - {p});
      s', concluded := SyncOne(s, s1, before, p.0, p.1, pairs - {p});
      assert forall k :: k in pairs ==> k == p || k in pairs - {p};
    }
  }

  lemma SyncOne(s: System, s1: System, before: set<Cookie>, m: Id, n: Id, pairs: set<(Id, Id)>)
    returns (s': System, concluded: set<Cookie>)
    requires Reachable(s) && Leads(s, s1, before) && m in s.replicas && Ready(s, n) && m != n
    requires forall p :: p in pairs ==> Synced(s, s1, before, p.0, p.1)
    ensures Leads(s, s', concluded) && Synced(s, s', concluded, m, n)
    ensures forall p :: p in pairs ==> Synced(s, s', concluded, p.0, p.1)
  {
    SoundThen(s, s1, before, n);
    LeadsRemembers(s, s1, before);
    ThenReachable(s, s1, before);
    var cookie;
    s', cookie := CanSync(s1, m, n);
    concluded := before + {cookie};
    LeadsBoth(s, s1, s', before, {cookie});
    LeadsRemembers(s1, s', {cookie});
    assert Synced(s, s', concluded, m, n);
    forall p | p in pairs ensures Synced(s, s', concluded, p.0, p.1) {
      SyncedStays(s, s1, s', before, concluded, p.0, p.1);
    }
  }

  lemma IsSynced(s: System, run: seq<Action>, s': System, concluded: set<Cookie>, m: Id, n: Id)
    requires IsQuietRun(s, run, s', concluded) && Synced(s, s', concluded, m, n)
    ensures exists cookie :: SyncedBy(s, run, m, n, cookie)
  {
    var cookie :| && cookie in concluded && cookie !in s.started
                  && cookie in s'.sessions && s'.sessions[cookie] == Session(m, n);
    assert SyncedBy(s, run, m, n, cookie);
  }

  /** Where all are ready, a quiet run syncs everyone with everyone. */
  lemma CanSyncAll(s: System) returns (run: seq<Action>)
    requires Reachable(s) && forall n :: n in s.replicas ==> Ready(s, n)
    ensures CanRun(s, run) && Orderly(s, run) && SyncsAll(s, run) && Run(s, run).writes == s.writes
  {
    var pairs := set m, n | m in s.replicas && n in s.replicas && m != n :: (m, n);
    var s', concluded := SyncEach(s, pairs);
    run :| IsQuietRun(s, run, s', concluded);
    forall m, n | m in s.replicas && n in s.replicas && m != n
      ensures exists cookie :: SyncedBy(s, run, m, n, cookie)
    {
      assert (m, n) in pairs;
      IsSynced(s, run, s', concluded, m, n);
    }
  }

  ghost predicate Agree(s: System, k: Key, m: Id, n: Id) {
    && m in s.replicas && n in s.replicas
    && var a, b := Get(s.replicas[m].state, k), Get(s.replicas[n].state, k);
       a.Val? && b.Val? && a.value.values == b.value.values
  }

  /** All replicas show the same siblings for every key that was written. */
  ghost predicate Converged(s: System) {
    forall x, m, n :: x in s.writes && m in s.replicas && n in s.replicas ==> Agree(s, s.writes[x].key, m, n)
  }

  lemma SameReplicas(s: System, run: seq<Action>)
    requires Reachable(s) && CanRun(s, run) && Orderly(s, run)
    ensures Run(s, run).replicas.Keys == s.replicas.Keys
  {
    ReachableInv(s);
    RunInv(s, run);
  }

  lemma SyncedConverges(s: System, run: seq<Action>)
    requires Reachable(s) && CanRun(s, run) && Orderly(s, run) && SyncsAll(s, run) && Run(s, run).writes == s.writes
    ensures Converged(Run(s, run))
  {
    var s' := Run(s, run);
    SameReplicas(s, run);
    forall x, m, n | x in s'.writes && m in s'.replicas && n in s'.replicas ensures Agree(s', s'.writes[x].key, m, n) {
      AntiEntropyConverges(s, run, s.writes[x].key, m, n, x);
    }
  }

  /** From every reachable state with a ready replica a run leads, without a write, to a state in which
      all replicas show the same siblings. */
  lemma CanConverge(s: System, r: Id) returns (run: seq<Action>)
    requires Reachable(s) && Ready(s, r)
    ensures CanRun(s, run) && Orderly(s, run) && Run(s, run).writes == s.writes && Converged(Run(s, run))
  {
    var s1 := GetReady(s, r, s.replicas.Keys);
    var first :| IsQuietRun(s, first, s1, {});
    ReachableRun(s, first);
    var rest := CanSyncAll(s1);
    SyncedConverges(s1, rest);
    RunJoins(s, first, rest);
    run := first + rest;
  }
}
