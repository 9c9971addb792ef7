/** Replication and anti-entropy of one vnode over a network that loses, duplicates and
    reorders messages (src/vnode.rs, src/vnode_sync.rs). The network is the set of messages
    ever sent; delivering one leaves it there. */
module Protocol {
  import opened Clocks
  import opened Cubes
  import opened Replicas
  import opened Causality

  type Cookie = nat

  /** What a sender still has to send: dots to look up in the log and keys found there, or the
      rest of a snapshot of the store. */
  datatype Pending =
    | Keys(dots: seq<Dot>, keys: set<Key>)
    | Snapshot(rest: map<Key, Cube>)

  datatype Sync =
    | Receiver(peer: Id, bootstrap: bool)
    | Sender(peer: Id, clocks: Clock, pending: Pending, inflight: map<nat, (Key, Cube)>, count: nat)

  datatype Msg =
    | RemoteSet(to: Id, key: Key, cube: Cube)
    | SyncStart(to: Id, from: Id, cookie: Cookie, bootstrap: bool, inPeer: Clock)
    | SyncSend(to: Id, from: Id, cookie: Cookie, number: nat, key: Key, cube: Cube)
    | SyncAck(to: Id, cookie: Cookie, number: nat)
    | SyncFin(to: Id, from: Id, cookie: Cookie, clocks: Clock)

  datatype Replica = Replica(ready: bool, state: State, syncs: map<Cookie, Sync>)

  /** Who opened a sync and who serves it. */
  datatype Session = Session(receiver: Id, sender: Id)

  /** writes, issued, sessions and started are history. No handler reads them; a new sync draws a
      cookie that is not in sessions. */
  datatype System = System(
    replicas: map<Id, Replica>,
    net: set<Msg>,
    writes: History,
    issued: Issued,
    sessions: map<Cookie, Session>,
    started: set<Cookie>)

  datatype Action =
    | ClientWrite(n: Id, key: Key, cmd: Command)      // do_flush
    | FailedWrite(n: Id)                              // do_flush, mutator error
    | DeliverSet(msg: Msg, reply: bool)               // handler_set_remote
    | OpenSync(n: Id, peer: Id, cookie: Cookie)       // do_start_sync, start_bootstrap
    | DeliverStart(msg: Msg, ids: seq<Id>)            // handler_sync_start
    | FetchKeys(n: Id, cookie: Cookie, taken: nat)    // SyncKeysIterator::next, log lookups
    | SendKey(n: Id, cookie: Cookie, key: Key)        // send_next, one message
    | FailSend(n: Id, cookie: Cookie, key: Key)       // send_next ignored by its caller, no route to the peer
    | FailFetch(n: Id, cookie: Cookie, taken: nat)    // send_next ignored by its caller, log cannot be read
    | SendFin(n: Id, cookie: Cookie)                  // send_next, success fin
    | DeliverSend(msg: Msg)                           // on_msg_send
    | DeliverAck(msg: Msg)                            // on_msg_ack
    | DeliverFin(msg: Msg)                            // on_msg_fin of a receiver
    | DropSync(n: Id, cookie: Cookie)                 // timeouts, errors, cancels, a sender's fin

  /** All replicas blank; those not ready have to bootstrap first. */
  ghost predicate Init(s: System) {
    && (forall n :: n in s.replicas ==> s.replicas[n].state == BLANK && s.replicas[n].syncs == map[])
    && s.net == {} && s.writes == map[] && s.sessions == map[] && s.started == {}
    && s.issued == map n | n in s.replicas :: 0
  }

  predicate HasSync(s: System, n: Id, cookie: Cookie) {
    n in s.replicas && cookie in s.replicas[n].syncs
  }

  predicate IsSender(s: System, n: Id, cookie: Cookie) {
    HasSync(s, n, cookie) && s.replicas[n].syncs[cookie].Sender?
  }

  predicate IsReceiver(s: System, n: Id, cookie: Cookie) {
    HasSync(s, n, cookie) && s.replicas[n].syncs[cookie].Receiver?
  }

  function WithState(s: System, n: Id, state: State): System
    requires n in s.replicas
  {
    s.(replicas := s.replicas[n := s.replicas[n].(state := state)])
  }

  function WithSync(s: System, n: Id, cookie: Cookie, sync: Sync): System
    requires n in s.replicas
  {
    s.(replicas := s.replicas[n := s.replicas[n].(syncs := s.replicas[n].syncs[cookie := sync])])
  }

  function WithoutSync(s: System, n: Id, cookie: Cookie): System
    requires n in s.replicas
  {
    s.(replicas := s.replicas[n := s.replicas[n].(syncs := s.replicas[n].syncs - {cookie})])
  }

  function WithMsgs(s: System, msgs: set<Msg>): System {
    s.(net := s.net + msgs)
  }

  /** The keys the log has for dots. */
  function LoggedKeys(log: map<Dot, Key>, dots: seq<Dot>): (r: set<Key>) {
    set d | d in dots && d in log :: log[d]
  }

  /** What a new sender promises and has to send. A bootstrap takes the whole clock and the
      whole store; a sync only its own slice of the clock, and the dots the peer lacks. */
  function NewSender(st: State, n: Id, peer: Id, bootstrap: bool, inPeer: Clock, ids: seq<Id>): (r: Sync) {
    if bootstrap then Sender(peer, st.clock, Snapshot(st.store), map[], 0)
    else Sender(peer, map i | i in st.clock && i == n :: st.clock[i],
                Keys(ClockDelta(st.clock, inPeer, ids), {}), map[], 0)
  }

  /** The key can be sent next. */
  predicate CanSend(pending: Pending, key: Key) {
    match pending
    case Keys(_, keys) => key in keys
    case Snapshot(rest) => key in rest
  }

  /** What is sent for it: the current cube, or the one in the snapshot. */
  function CubeToSend(pending: Pending, st: State, key: Key): Cube
    requires CanSend(pending, key)
  {
    if pending.Keys? then Get(st, key) else pending.rest[key]
  }

  function Sent(pending: Pending, key: Key): Pending {
    match pending
    case Keys(dots, keys) => Keys(dots, keys - {key})
    case Snapshot(rest) => Snapshot(rest - {key})
  }

  predicate Exhausted(pending: Pending) {
    match pending
    case Keys(dots, keys) => dots == [] && keys == {}
    case Snapshot(rest) => rest == map[]
  }

  // ---------------------------------------------------------------- the handlers

  predicate CanWrite(s: System, n: Id) {
    && n in s.replicas && n in s.issued && s.replicas[n].ready
    && Slice(s.replicas[n].state.clock, n).Solid()
  }

  predicate CanStore(s: System, n: Id, key: Key, cmd: Command) {
    CanWrite(s, n) && (cmd.Assign? || cmd.Delete?) && Flush(s.replicas[n].state, n, key, cmd).Stored?
  }

  /** do_flush: the cube goes to every replica. */
  ghost function AfterWrite(s: System, n: Id, key: Key, cmd: Command): System
    requires CanStore(s, n, key, cmd)
  {
    var st := s.replicas[n].state;
    var flushed := Flush(st, n, key, cmd);
    WithMsgs(WithState(s, n, flushed.state), set m | m in s.replicas :: RemoteSet(m, key, flushed.cube))
    .(writes := After(s.writes, Dot(n, s.issued[n] + 1), Recorded(s.writes, key, cmd, Get(st, key))),
      issued := s.issued[n := s.issued[n] + 1])
  }

  function AfterFailedWrite(s: System, n: Id): System
    requires CanWrite(s, n)
  {
    var st := s.replicas[n].state;
    WithState(s, n, st.(clock := Event(st.clock, n).0)).(issued := s.issued[n := s.issued[n] + 1])
  }

  ghost function AfterSet(s: System, n: Id, key: Key, cube: Cube, reply: bool): System
    requires n in s.replicas && !cube.Void?
  {
    WithState(s, n, SetRemote(s.replicas[n].state, key, cube, reply).0)
  }

  predicate CanOpen(s: System, n: Id, peer: Id, cookie: Cookie) {
    n in s.replicas && peer in s.replicas && n != peer && cookie !in s.sessions
  }

  function AfterOpen(s: System, n: Id, peer: Id, cookie: Cookie): System
    requires CanOpen(s, n, peer, cookie)
  {
    var bootstrap := !s.replicas[n].ready;
    var inPeer := if bootstrap then map[] else s.replicas[n].state.clock;
    WithMsgs(WithSync(s, n, cookie, Receiver(peer, bootstrap)), {SyncStart(peer, n, cookie, bootstrap, inPeer)})
    .(sessions := s.sessions[cookie := Session(n, peer)])
  }

  ghost predicate CanServe(s: System, msg: Msg, ids: seq<Id>) {
    && msg in s.net && msg.SyncStart? && msg.to in s.replicas && s.replicas[msg.to].ready
    && msg.cookie !in s.replicas[msg.to].syncs
    && (forall i :: i in s.replicas[msg.to].state.clock ==> i in ids)
  }

  function AfterStart(s: System, msg: Msg, ids: seq<Id>): System
    requires msg.SyncStart? && msg.to in s.replicas
  {
    WithSync(s, msg.to, msg.cookie,
             NewSender(s.replicas[msg.to].state, msg.to, msg.from, msg.bootstrap, msg.inPeer, ids))
    .(started := s.started + {msg.cookie})
  }

  predicate CanFetch(s: System, n: Id, cookie: Cookie, taken: nat) {
    && IsSender(s, n, cookie)
    && var pending := s.replicas[n].syncs[cookie].pending;
       pending.Keys? && pending.keys == {} && taken <= |pending.dots|
  }

  function AfterFetch(s: System, n: Id, cookie: Cookie, taken: nat): System
    requires CanFetch(s, n, cookie, taken)
  {
    var sync := s.replicas[n].syncs[cookie];
    var keys := LoggedKeys(s.replicas[n].state.log, sync.pending.dots[..taken]);
    WithSync(s, n, cookie, sync.(pending := Keys(sync.pending.dots[taken..], keys)))
  }

  predicate CanSendKey(s: System, n: Id, cookie: Cookie, key: Key) {
    IsSender(s, n, cookie) && CanSend(s.replicas[n].syncs[cookie].pending, key)
  }

  function AfterSendKey(s: System, n: Id, cookie: Cookie, key: Key): System
    requires CanSendKey(s, n, cookie, key)
  {
    var sync := s.replicas[n].syncs[cookie];
    var cube := CubeToSend(sync.pending, s.replicas[n].state, key);
    WithMsgs(WithSync(s, n, cookie, sync.(pending := Sent(sync.pending, key),
                                          inflight := sync.inflight[sync.count := (key, cube)],
                                          count := sync.count + 1)),
             {SyncSend(sync.peer, n, cookie, sync.count, key, cube)})
  }

  /** The key was taken from the iterator and goes nowhere. */
  function AfterFailSend(s: System, n: Id, cookie: Cookie, key: Key): System
    requires CanSendKey(s, n, cookie, key)
  {
    var sync := s.replicas[n].syncs[cookie];
    WithSync(s, n, cookie, sync.(pending := Sent(sync.pending, key)))
  }

  /** So were the dots, and the keys found for them. */
  function AfterFailFetch(s: System, n: Id, cookie: Cookie, taken: nat): System
    requires CanFetch(s, n, cookie, taken)
  {
    var sync := s.replicas[n].syncs[cookie];
    WithSync(s, n, cookie, sync.(pending := Keys(sync.pending.dots[taken..], {})))
  }

  predicate CanFinish(s: System, n: Id, cookie: Cookie) {
    && IsSender(s, n, cookie)
    && Exhausted(s.replicas[n].syncs[cookie].pending)
    && s.replicas[n].syncs[cookie].inflight == map[]
  }

  function AfterSendFin(s: System, n: Id, cookie: Cookie): System
    requires CanFinish(s, n, cookie)
  {
    var sync := s.replicas[n].syncs[cookie];
    WithMsgs(s, {SyncFin(sync.peer, n, cookie, sync.clocks)})
  }

  predicate CanReceive(s: System, msg: Msg) {
    msg in s.net && msg.SyncSend? && IsReceiver(s, msg.to, msg.cookie) && !msg.cube.Void?
  }

  ghost function AfterSend(s: System, msg: Msg): System
    requires CanReceive(s, msg)
  {
    WithMsgs(AfterSet(s, msg.to, msg.key, msg.cube, false), {SyncAck(msg.from, msg.cookie, msg.number)})
  }

  predicate CanAck(s: System, msg: Msg) {
    msg in s.net && msg.SyncAck? && IsSender(s, msg.to, msg.cookie)
  }

  function AfterAck(s: System, msg: Msg): System
    requires CanAck(s, msg)
  {
    var sync := s.replicas[msg.to].syncs[msg.cookie];
    WithSync(s, msg.to, msg.cookie, sync.(inflight := sync.inflight - {msg.number}))
  }

  predicate CanConclude(s: System, msg: Msg) {
    msg in s.net && msg.SyncFin? && IsReceiver(s, msg.to, msg.cookie)
  }

  /** The clock is merged, a bootstrapped replica becomes ready, the fin is echoed. */
  function AfterFin(s: System, msg: Msg): System
    requires CanConclude(s, msg)
  {
    var r := s.replicas[msg.to];
    WithMsgs(s.(replicas := s.replicas[msg.to :=
                  Replica(r.ready || r.syncs[msg.cookie].bootstrap,
                          r.state.(clock := ClockMerge(r.state.clock, msg.clocks)),
                          r.syncs - {msg.cookie})]),
             {SyncFin(msg.from, msg.to, msg.cookie, msg.clocks)})
  }

  // ---------------------------------------------------------------- runs

  /** What the handlers check before they act. */
  ghost predicate Allowed(s: System, a: Action) {
    match a
    case ClientWrite(n, key, cmd) => CanStore(s, n, key, cmd)
    case FailedWrite(n) => CanWrite(s, n)
    case DeliverSet(msg, _) => msg in s.net && msg.RemoteSet? && msg.to in s.replicas && !msg.cube.Void?
    case OpenSync(n, peer, cookie) => CanOpen(s, n, peer, cookie)
    case DeliverStart(msg, ids) => CanServe(s, msg, ids)
    case FetchKeys(n, cookie, taken) => CanFetch(s, n, cookie, taken)
    case SendKey(n, cookie, key) => CanSendKey(s, n, cookie, key)
    case FailSend(n, cookie, key) => CanSendKey(s, n, cookie, key)
    case FailFetch(n, cookie, taken) => CanFetch(s, n, cookie, taken)
    case SendFin(n, cookie) => CanFinish(s, n, cookie)
    case DeliverSend(msg) => CanReceive(s, msg)
    case DeliverAck(msg) => CanAck(s, msg)
    case DeliverFin(msg) => CanConclude(s, msg)
    case DropSync(n, cookie) => HasSync(s, n, cookie)
  }

  ghost function Apply(s: System, a: Action): (s': System)
    requires Allowed(s, a)
  {
    match a
    case ClientWrite(n, key, cmd) => AfterWrite(s, n, key, cmd)
    case FailedWrite(n) => AfterFailedWrite(s, n)
    case DeliverSet(msg, reply) => AfterSet(s, msg.to, msg.key, msg.cube, reply)
    case OpenSync(n, peer, cookie) => AfterOpen(s, n, peer, cookie)
    case DeliverStart(msg, ids) => AfterStart(s, msg, ids)
    case FetchKeys(n, cookie, taken) => AfterFetch(s, n, cookie, taken)
    case SendKey(n, cookie, key) => AfterSendKey(s, n, cookie, key)
    case FailSend(n, cookie, key) => AfterFailSend(s, n, cookie, key)
    case FailFetch(n, cookie, taken) => AfterFailFetch(s, n, cookie, taken)
    case SendFin(n, cookie) => AfterSendFin(s, n, cookie)
    case DeliverSend(msg) => AfterSend(s, msg)
    case DeliverAck(msg) => AfterAck(s, msg)
    case DeliverFin(msg) => AfterFin(s, msg)
    case DropSync(n, cookie) => WithoutSync(s, n, cookie)
  }

  /** Every action is allowed when its turn comes. */
  ghost predicate CanRun(s: System, run: seq<Action>)
    decreases |run|
  {
    run == [] || (Allowed(s, run[0]) && CanRun(Apply(s, run[0]), run[1..]))
  }

  ghost function Run(s: System, run: seq<Action>): (s': System)
    requires CanRun(s, run)
    decreases |run|
  {
    if run == [] then s else Run(Apply(s, run[0]), run[1..])
  }

  /** No sender serves the same cookie twice. handler_sync_start only looks at the syncs under
      way, so a late duplicate of a start message can make it. */
  predicate ServesOnce(s: System, a: Action) {
    a.DeliverStart? && a.msg.SyncStart? ==> a.msg.cookie !in s.started
  }

  /** on_start and on_msg_ack ignore what send_next returns, so a sender goes on after it failed. On
      a tick a failure ends the sync. */
  predicate Fails(a: Action) {
    a.FailSend? || a.FailFetch?
  }

  predicate InOrder(s: System, a: Action) {
    ServesOnce(s, a) && !Fails(a)
  }

  ghost predicate Orderly(s: System, run: seq<Action>)
    requires CanRun(s, run)
    decreases |run|
  {
    run == [] || (InOrder(s, run[0]) && Orderly(Apply(s, run[0]), run[1..]))
  }
}
