/** Quorum reads see quorum writes (src/types.rs:64-72, src/vnode.rs:107-125, src/vnode.rs:287-348,
    src/vnode.rs:376-561). On top of the replication protocol, coordinators count the replies to
    their writes and reads, one by one as they come, and merge the cubes returned for a read. Replies
    may be lost, and may come more than once. */
module QuorumSystem {
  import opened Basics
  import opened Clocks
  import opened Cubes
  import opened Replicas
  import opened Causality
  import opened Protocol
  import opened ProtocolInvariant
  import R = Requests

  /** A request, answered or not. repliers is history: who sent the replies counted as successes. */
  datatype Request = Request(req: R.ReqState, repliers: seq<Id>, outcome: Option<R.Outcome>) {
    predicate Succeeded() { outcome == Some(R.Success) }

    /** No replica was counted twice. */
    predicate CountedOnce() {
      forall i, j :: 0 <= i < j < |repliers| ==> repliers[i] != repliers[j]
    }

    function Repliers(): set<Id> {
      set m | m in repliers
    }
  }

  function NewRequest(level: R.ConsistencyLevel, nodes: nat): Request {
    Request(R.ReqState(R.Required(level, nodes), nodes, 0, 0), [], None)
  }

  /** process_get and process_set: a reply from some replica, or an error. */
  function Process(r: Request, from: Option<Id>): Request {
    if r.outcome.Some? then r
    else
      var req := R.Replied(r.req, from.Some?);
      Request(req, r.repliers + if from.Some? then [from.value] else [], R.Verdict(req))
  }

  function Expire(r: Request): Request {
    if r.outcome.Some? then r else r.(outcome := Some(R.Timeout))
  }

  /** A read, and the replica that coordinates it, if one does. answered is history: the writes of the
      key whose client had been told of success when the read began. */
  datatype Read = Read(key: Key, coordinator: Option<Id>, answered: map<Dot, Request>, request: Request, cube: Cube)

  datatype SetAck = SetAck(dot: Dot, from: Id)
  datatype GetAck = GetAck(cookie: Cookie, from: Id, cube: Cube)

  /** The protocol, the cube sent around for each write, the acknowledgements sent and the requests
      that count them, the reads and the cubes sent for them. */
  datatype Cluster = Cluster(
    sys: System,
    sent: map<Dot, Cube>,
    setAcks: set<SetAck>,
    sets: map<Dot, Request>,
    asked: map<Cookie, Read>,
    getAcks: set<GetAck>)

  datatype Op =
    | Protocol(a: Action)                                       // the replication protocol
    | Coordinate(d: Dot, cube: Cube, level: R.ConsistencyLevel) // do_flush, the request
    | CountOwn(d: Dot)                                          // do_flush, its last process_set
    | Replicate(d: Dot, m: Id, reply: bool)                     // handler_set_remote, with an acknowledgement
    | CountSet(d: Dot, m: Id)                                   // process_set, a reply
    | SetFails(d: Dot)                                          // process_set, an error
    | SetExpires(d: Dot)                                        // handler_tick
    | BeginRead(c: Cookie, n: Option<Id>, key: Key, level: R.ConsistencyLevel) // do_get, on a replica or not
    | Serve(c: Cookie, m: Id)                                   // handler_get_remote
    | CountGet(c: Cookie, m: Id, cube: Cube)                    // process_get, a reply
    | GetFails(c: Cookie)                                       // process_get, an error
    | GetExpires(c: Cookie)                                     // handler_tick

  ghost predicate Enabled(c: Cluster, op: Op) {
    match op
    case Protocol(a) => Allowed(c.sys, a) && InOrder(c.sys, a)
    case Coordinate(d, cube, _) =>
      && d in c.sys.writes && d !in c.sets && RemoteSet(d.id, c.sys.writes[d].key, cube) in c.sys.net
      && Covers(cube.Context(), d)
    case CountOwn(d) =>
      && d in c.sets && d.id !in c.sets[d].repliers && d in c.sys.writes && d.id in c.sys.replicas
      && Has(c.sys.replicas[d.id].state.clock, d)
    case Replicate(d, m, _) =>
      && d in c.sent && d in c.sys.writes && !c.sent[d].Void? && m != d.id
      && RemoteSet(m, c.sys.writes[d].key, c.sent[d]) in c.sys.net && m in c.sys.replicas
    case CountSet(d, m) => SetAck(d, m) in c.setAcks && d in c.sets
    case SetFails(d) => d in c.sets
    case SetExpires(d) => d in c.sets
    case BeginRead(cookie, n, _, _) =>
      cookie !in c.asked && c.sys.replicas != map[] && (n.Some? ==> n.value in c.sys.replicas)
    case Serve(cookie, m) => cookie in c.asked && m in c.sys.replicas && c.asked[cookie].coordinator != Some(m)
    case CountGet(cookie, m, cube) => GetAck(cookie, m, cube) in c.getAcks && cookie in c.asked
    case GetFails(cookie) => cookie in c.asked
    case GetExpires(cookie) => cookie in c.asked
  }

  /** The writes of a key that succeeded. */
  ghost function SucceededWrites(s: System, sets: map<Dot, Request>, key: Key): map<Dot, Request> {
    map d | d in sets && d in s.writes && s.writes[d].key == key && sets[d].Succeeded() :: sets[d]
  }

  /** A coordinator that is a replica starts with its own cube and counts itself; any other with none. */
  ghost function NewRead(c: Cluster, n: Option<Id>, key: Key, level: R.ConsistencyLevel): Read
    requires n.Some? ==> n.value in c.sys.replicas
  {
    var answered, request := SucceededWrites(c.sys, c.sets, key), NewRequest(level, |c.sys.replicas|);
    if n.Some? then Read(key, n, answered, Process(request, n), Get(c.sys.replicas[n.value].state, key))
    else Read(key, None, answered, request, Void(map[]))
  }

  /** A reply to a request under way is merged into what the read has. */
  ghost function WithReply(read: Read, m: Id, cube: Cube): Read {
    if read.request.outcome.Some? then read
    else read.(request := Process(read.request, Some(m)), cube := read.cube.Merge(cube))
  }

  ghost function Do(c: Cluster, op: Op): Cluster
    requires Enabled(c, op)
  {
    match op
    case Protocol(a) => c.(sys := Apply(c.sys, a))
    case Coordinate(d, cube, level) =>
      c.(sent := c.sent[d := cube], sets := c.sets[d := NewRequest(level, |c.sys.replicas|)])
    case CountOwn(d) => c.(sets := c.sets[d := Process(c.sets[d], Some(d.id))])
    case Replicate(d, m, reply) =>
      c.(sys := AfterSet(c.sys, m, c.sys.writes[d].key, c.sent[d], reply), setAcks := c.setAcks + {SetAck(d, m)})
    case CountSet(d, m) => c.(sets := c.sets[d := Process(c.sets[d], Some(m))])
    case SetFails(d) => c.(sets := c.sets[d := Process(c.sets[d], None)])
    case SetExpires(d) => c.(sets := c.sets[d := Expire(c.sets[d])])
    case BeginRead(cookie, n, key, level) => c.(asked := c.asked[cookie := NewRead(c, n, key, level)])
    case Serve(cookie, m) =>
      c.(getAcks := c.getAcks + {GetAck(cookie, m, Get(c.sys.replicas[m].state, c.asked[cookie].key))})
    case CountGet(cookie, m, cube) => c.(asked := c.asked[cookie := WithReply(c.asked[cookie], m, cube)])
    case GetFails(cookie) =>
      c.(asked := c.asked[cookie := c.asked[cookie].(request := Process(c.asked[cookie].request, None))])
    case GetExpires(cookie) =>
      c.(asked := c.asked[cookie := c.asked[cookie].(request := Expire(c.asked[cookie].request))])
  }

  ghost predicate CanDo(c: Cluster, ops: seq<Op>)
    decreases |ops|
  {
    ops == [] || (Enabled(c, ops[0]) && CanDo(Do(c, ops[0]), ops[1..]))
  }

  ghost function DoAll(c: Cluster, ops: seq<Op>): Cluster
    requires CanDo(c, ops)
    decreases |ops|
  {
    if ops == [] then c else DoAll(Do(c, ops[0]), ops[1..])
  }

  ghost predicate Fresh(c: Cluster) {
    Init(c.sys) && c.sent == map[] && c.setAcks == {} && c.sets == map[] && c.asked == map[] && c.getAcks == {}
  }

  // ---------------------------------------------------------------- the invariant

  /** A cube a replica returned: faithful, when a Void stands for no siblings. */
  ghost predicate ReplyOk(W: History, B: Issued, k: Key, c: Cube) {
    CubeOk(W, B, k, if c.Void? then Val(Value(map[], c.void)) else c)
  }

  ghost predicate HasSeen(s: System, n: Id, d: Dot) {
    n in s.replicas && d in s.writes && Seen(s.writes, s.replicas[n].state, d)
  }

  ghost predicate SentOk(W: History, sent: map<Dot, Cube>) {
    forall d :: d in sent ==> d in W && Covers(sent[d].Context(), d)
  }

  /** The counter counts the repliers, and a request succeeds with the last success it needs. */
  predicate RequestOk(r: Request) {
    && r.req.successful == |r.repliers|
    && (r.outcome.None? ==> r.req.successful < r.req.required)
    && (r.Succeeded() ==> r.req.successful == r.req.required)
  }

  /** Whoever was counted for a write has seen it. */
  ghost predicate SetOk(s: System, d: Dot, r: Request) {
    RequestOk(r) && forall m :: m in r.repliers ==> HasSeen(s, m, d)
  }

  ghost predicate AcksOk(s: System, acks: set<SetAck>, sets: map<Dot, Request>) {
    && (forall a :: a in acks ==> HasSeen(s, a.from, a.dot))
    && (forall d :: d in sets ==> SetOk(s, d, sets[d]))
  }

  /** The cube has every answered write that one of those who replied had been counted for. */
  ghost predicate Includes(read: Read, replies: set<Id>, cube: Cube) {
    forall d, m :: d in read.answered && m in read.answered[d].repliers && m in replies ==> Covers(cube.Context(), d)
  }

  ghost predicate AnsweredOk(s: System, read: Read) {
    forall d :: d in read.answered ==>
      d in s.writes && s.writes[d].key == read.key && read.answered[d].Succeeded() && SetOk(s, d, read.answered[d])
  }

  ghost predicate ReadOk(s: System, read: Read) {
    && RequestOk(read.request) && read.request.Repliers() <= s.replicas.Keys
    && ReplyOk(s.writes, s.issued, read.key, read.cube)
    && Includes(read, read.request.Repliers(), read.cube) && AnsweredOk(s, read)
  }

  ghost predicate GetAckOk(s: System, asked: map<Cookie, Read>, a: GetAck) {
    && a.cookie in asked && a.from in s.replicas
    && ReplyOk(s.writes, s.issued, asked[a.cookie].key, a.cube) && Includes(asked[a.cookie], {a.from}, a.cube)
  }

  ghost predicate ReadsOk(s: System, asked: map<Cookie, Read>, acks: set<GetAck>) {
    && (forall cookie :: cookie in asked ==> ReadOk(s, asked[cookie]))
    && (forall a :: a in acks ==> GetAckOk(s, asked, a))
  }

  ghost predicate ClusterInv(c: Cluster) {
    && Inv(c.sys) && SentOk(c.sys.writes, c.sent) && AcksOk(c.sys, c.setAcks, c.sets)
    && ReadsOk(c.sys, c.asked, c.getAcks)
  }
}

/** What the coordinators' counting guarantees, over every run. */
module Quorum {
  import opened Basics
  import opened Clocks
  import opened Cubes
  import opened Replicas
  import opened Causality
  import opened Protocol
  import opened ProtocolInvariant
  import opened ProtocolSafety
  import opened ProtocolTheorems
  import opened QuorumSystem
  import R = Requests

  // ---------------------------------------------------------------- the protocol moves on

  lemma ReplyStable(s: System, s': System, k: Key, c: Cube)
    requires HistoryOk(s.writes, s.issued) && Evolves(s, s') && ReplyOk(s.writes, s.issued, k, c)
    ensures ReplyOk(s'.writes, s'.issued, k, c)
  {
    CubeOkStable(s.writes, s.issued, s'.writes, s'.issued, k, if c.Void? then Val(Value(map[], c.void)) else c);
  }

  lemma HasSeenStable(s: System, s': System, n: Id, d: Dot)
    requires Evolves(s, s') && HasSeen(s, n, d)
    ensures HasSeen(s', n, d)
  {
    SeenStable(s, s', n, d);
  }

  lemma SetStable(s: System, s': System, d: Dot, r: Request)
    requires Evolves(s, s') && SetOk(s, d, r)
    ensures SetOk(s', d, r)
  {
    forall m | m in r.repliers ensures HasSeen(s', m, d) {
      HasSeenStable(s, s', m, d);
    }
  }

  lemma ReadStable(s: System, s': System, read: Read)
    requires HistoryOk(s.writes, s.issued) && Evolves(s, s') && ReadOk(s, read)
    ensures ReadOk(s', read)
  {
    ReplyStable(s, s', read.key, read.cube);
    forall d | d in read.answered ensures SetOk(s', d, read.answered[d]) {
      SetStable(s, s', d, read.answered[d]);
    }
  }

  lemma ReadsStable(s: System, s': System, asked: map<Cookie, Read>, acks: set<GetAck>)
    requires HistoryOk(s.writes, s.issued) && Evolves(s, s') && ReadsOk(s, asked, acks)
    ensures ReadsOk(s', asked, acks)
  {
    forall cookie | cookie in asked ensures ReadOk(s', asked[cookie]) {
      ReadStable(s, s', asked[cookie]);
    }
    forall a | a in acks ensures GetAckOk(s', asked, a) {
      ReplyStable(s, s', asked[a.cookie].key, a.cube);
    }
  }

  lemma AcksStable(s: System, s': System, acks: set<SetAck>, sets: map<Dot, Request>)
    requires AcksOk(s, acks, sets) && Evolves(s, s')
    ensures AcksOk(s', acks, sets)
  {
    forall a | a in acks ensures HasSeen(s', a.from, a.dot) {
      HasSeenStable(s, s', a.from, a.dot);
    }
    forall d | d in sets ensures SetOk(s', d, sets[d]) {
      SetStable(s, s', d, sets[d]);
    }
  }

  lemma MovesOn(c: Cluster, s': System)
    requires ClusterInv(c) && Inv(s') && Evolves(c.sys, s')
    ensures ClusterInv(c.(sys := s'))
  {
    AcksStable(c.sys, s', c.setAcks, c.sets);
    ReadsStable(c.sys, s', c.asked, c.getAcks);
  }

  lemma ProtocolKeeps(c: Cluster, a: Action)
    requires ClusterInv(c) && Enabled(c, Protocol(a))
    ensures ClusterInv(Do(c, Protocol(a)))
  {
    StepInv(c.sys, a);
    MovesOn(c, Apply(c.sys, a));
  }

  // ---------------------------------------------------------------- writes

  /** A reply, an error or the deadline keeps the counting right. */
  lemma ProcessKeeps(r: Request, from: Option<Id>)
    requires RequestOk(r)
    ensures RequestOk(Process(r, from)) && RequestOk(Expire(r))
    ensures Process(r, from).Repliers() <= r.Repliers() + if from.Some? then {from.value} else {}
    ensures Expire(r).repliers == r.repliers
  {
  }

  lemma NewRequestOk(s: System, n: Id, level: R.ConsistencyLevel)
    requires n in s.replicas
    ensures RequestOk(NewRequest(level, |s.replicas|))
  {
    assert s.replicas.Keys != {};
  }

  lemma OneMoreAck(s: System, acks: set<SetAck>, sets: map<Dot, Request>, d: Dot, m: Id)
    requires AcksOk(s, acks, sets) && HasSeen(s, m, d)
    ensures AcksOk(s, acks + {SetAck(d, m)}, sets)
  {
  }

  lemma OneMoreReply(s: System, d: Dot, r: Request, from: Option<Id>)
    requires SetOk(s, d, r) && (from.Some? ==> HasSeen(s, from.value, d))
    ensures SetOk(s, d, Process(r, from)) && SetOk(s, d, Expire(r))
  {
    ProcessKeeps(r, from);
    assert forall m :: m in Process(r, from).repliers ==> m in Process(r, from).Repliers();
  }

  lemma OneMoreSet(s: System, acks: set<SetAck>, sets: map<Dot, Request>, d: Dot, r: Request)
    requires AcksOk(s, acks, sets) && SetOk(s, d, r)
    ensures AcksOk(s, acks, sets[d := r])
  {
  }

  lemma OneMoreSent(W: History, sent: map<Dot, Cube>, d: Dot, cube: Cube)
    requires SentOk(W, sent) && d in W && Covers(cube.Context(), d)
    ensures SentOk(W, sent[d := cube])
  {
  }

  lemma CoordinateKeeps(c: Cluster, d: Dot, cube: Cube, level: R.ConsistencyLevel)
    requires ClusterInv(c) && Enabled(c, Coordinate(d, cube, level))
    ensures ClusterInv(Do(c, Coordinate(d, cube, level)))
  {
    NewRequestOk(c.sys, d.id, level);
    OneMoreSent(c.sys.writes, c.sent, d, cube);
    OneMoreSet(c.sys, c.setAcks, c.sets, d, NewRequest(level, |c.sys.replicas|));
  }

  /** The coordinator has what it wrote. */
  lemma CountOwnKeeps(c: Cluster, d: Dot)
    requires ClusterInv(c) && Enabled(c, CountOwn(d))
    ensures ClusterInv(Do(c, CountOwn(d)))
  {
    assert StateOk(c.sys.writes, c.sys.issued, d.id, c.sys.replicas[d.id].state);
    OneMoreReply(c.sys, d, c.sets[d], Some(d.id));
    OneMoreSet(c.sys, c.setAcks, c.sets, d, Process(c.sets[d], Some(d.id)));
  }

  /** Whoever stored the cube of a write has seen the write. */
  lemma ReceiverHasIt(s: System, d: Dot, m: Id, cube: Cube, reply: bool)
    requires HistoryOk(s.writes, s.issued) && StatesOk(s) && m in s.replicas && d in s.writes && Covers(cube.Context(), d)
    requires CubeOk(s.writes, s.issued, s.writes[d].key, cube)
    ensures HasSeen(AfterSet(s, m, s.writes[d].key, cube, reply), m, d)
  {
    assert StateOk(s.writes, s.issued, m, s.replicas[m].state);
    RemoteKeeps(s.writes, s.issued, m, s.replicas[m].state, s.writes[d].key, cube, reply);
    assert Knows(s.writes, s.writes[d].key, cube.Context(), d);
  }

  lemma ReplicateKeeps(c: Cluster, d: Dot, m: Id, reply: bool)
    requires ClusterInv(c) && Enabled(c, Replicate(d, m, reply))
    ensures ClusterInv(Do(c, Replicate(d, m, reply)))
  {
    var key, cube := c.sys.writes[d].key, c.sent[d];
    var msg, s' := RemoteSet(m, key, cube), AfterSet(c.sys, m, key, cube, reply);
    assert MsgOk(c.sys, msg);
    DeliverSetInv(c.sys, msg, reply);
    ReceiverHasIt(c.sys, d, m, cube, reply);
    MovesOn(c, s');
    OneMoreAck(s', c.setAcks, c.sets, d, m);
  }

  lemma CountSetKeeps(c: Cluster, d: Dot, m: Id)
    requires ClusterInv(c) && Enabled(c, CountSet(d, m))
    ensures ClusterInv(Do(c, CountSet(d, m)))
  {
    assert HasSeen(c.sys, SetAck(d, m).from, SetAck(d, m).dot);
    OneMoreReply(c.sys, d, c.sets[d], Some(m));
    OneMoreSet(c.sys, c.setAcks, c.sets, d, Process(c.sets[d], Some(m)));
  }

  lemma SetEndsKeeps(c: Cluster, d: Dot)
    requires ClusterInv(c) && d in c.sets
    ensures ClusterInv(Do(c, SetFails(d))) && ClusterInv(Do(c, SetExpires(d)))
  {
    OneMoreReply(c.sys, d, c.sets[d], None);
    OneMoreSet(c.sys, c.setAcks, c.sets, d, Process(c.sets[d], None));
    OneMoreSet(c.sys, c.setAcks, c.sets, d, Expire(c.sets[d]));
  }

  // ---------------------------------------------------------------- reads

  /** What a replica returns for a key has every write of it that the replica has seen. */
  lemma GetReply(s: System, n: Id, k: Key)
    requires StatesOk(s) && n in s.replicas
    ensures ReplyOk(s.writes, s.issued, k, Get(s.replicas[n].state, k))
    ensures forall d :: HasSeen(s, n, d) && s.writes[d].key == k ==> Covers(Get(s.replicas[n].state, k).Context(), d)
  {
    assert StateOk(s.writes, s.issued, n, s.replicas[n].state);
    GetOk(s.writes, s.issued, n, s.replicas[n].state, k);
  }

  lemma SucceededOk(s: System, acks: set<SetAck>, sets: map<Dot, Request>, key: Key, request: Request)
    requires AcksOk(s, acks, sets)
    ensures AnsweredOk(s, Read(key, None, SucceededWrites(s, sets, key), request, Void(map[])))
  {
  }

  /** A replica's cube includes what it has seen, and a coordinator with no cube counts nobody. */
  lemma IncludesOwn(s: System, read: Read, n: Id)
    requires StatesOk(s) && n in s.replicas && AnsweredOk(s, read)
    ensures Includes(read, {n}, Get(s.replicas[n].state, read.key))
  {
    GetReply(s, n, read.key);
    forall d | d in read.answered && n in read.answered[d].repliers
      ensures Covers(Get(s.replicas[n].state, read.key).Context(), d)
    {
      assert SetOk(s, d, read.answered[d]);
    }
  }

  lemma ReadBeginsHere(s: System, answered: map<Dot, Request>, request: Request, n: Id, key: Key)
    requires StatesOk(s) && n in s.replicas && RequestOk(request) && request.repliers == []
    requires AnsweredOk(s, Read(key, None, answered, request, Void(map[])))
    ensures ReadOk(s, Read(key, Some(n), answered, Process(request, Some(n)), Get(s.replicas[n].state, key)))
  {
    var read := Read(key, Some(n), answered, Process(request, Some(n)), Get(s.replicas[n].state, key));
    GetReply(s, n, key);
    ProcessKeeps(request, Some(n));
    IncludesOwn(s, read, n);
    assert read.request.Repliers() <= {n};
  }

  lemma ReadBeginsElsewhere(s: System, answered: map<Dot, Request>, request: Request, key: Key)
    requires RequestOk(request) && request.repliers == []
    requires AnsweredOk(s, Read(key, None, answered, request, Void(map[])))
    ensures ReadOk(s, Read(key, None, answered, request, Void(map[])))
  {
    assert request.Repliers() == {};
  }

  lemma ReadBegins(c: Cluster, n: Option<Id>, key: Key, level: R.ConsistencyLevel)
    requires StatesOk(c.sys) && c.sys.replicas != map[] && (n.Some? ==> n.value in c.sys.replicas)
    requires AcksOk(c.sys, c.setAcks, c.sets)
    ensures ReadOk(c.sys, NewRead(c, n, key, level))
  {
    var m :| m in c.sys.replicas;
    NewRequestOk(c.sys, m, level);
    var answered, request := SucceededWrites(c.sys, c.sets, key), NewRequest(level, |c.sys.replicas|);
    SucceededOk(c.sys, c.setAcks, c.sets, key, request);
    if n.Some? {
      ReadBeginsHere(c.sys, answered, request, n.value, key);
    } else {
      ReadBeginsElsewhere(c.sys, answered, request, key);
    }
  }

  lemma OneMoreRead(s: System, asked: map<Cookie, Read>, acks: set<GetAck>, cookie: Cookie, read: Read)
    requires ReadsOk(s, asked, acks) && ReadOk(s, read)
    requires cookie in asked ==> read.key == asked[cookie].key && read.answered == asked[cookie].answered
    ensures ReadsOk(s, asked[cookie := read], acks)
  {
    forall a | a in acks ensures GetAckOk(s, asked[cookie := read], a) {
      assert GetAckOk(s, asked, a);
    }
  }

  lemma BeginReadKeeps(c: Cluster, cookie: Cookie, n: Option<Id>, key: Key, level: R.ConsistencyLevel)
    requires ClusterInv(c) && Enabled(c, BeginRead(cookie, n, key, level))
    ensures ClusterInv(Do(c, BeginRead(cookie, n, key, level)))
  {
    ReadBegins(c, n, key, level);
    OneMoreRead(c.sys, c.asked, c.getAcks, cookie, NewRead(c, n, key, level));
  }

  lemma Serves(s: System, asked: map<Cookie, Read>, acks: set<GetAck>, cookie: Cookie, m: Id)
    requires StatesOk(s) && ReadsOk(s, asked, acks) && cookie in asked && m in s.replicas
    ensures ReadsOk(s, asked, acks + {GetAck(cookie, m, Get(s.replicas[m].state, asked[cookie].key))})
  {
    GetReply(s, m, asked[cookie].key);
    assert ReadOk(s, asked[cookie]);
  }

  lemma ServeKeeps(c: Cluster, cookie: Cookie, m: Id)
    requires ClusterInv(c) && Enabled(c, Serve(cookie, m))
    ensures ClusterInv(Do(c, Serve(cookie, m)))
  {
    Serves(c.sys, c.asked, c.getAcks, cookie, m);
  }

  /** Merging replies keeps every write either of them has. */
  lemma MergeReplies(W: History, B: Issued, k: Key, a: Cube, b: Cube)
    requires ReplyOk(W, B, k, a) && ReplyOk(W, B, k, b)
    ensures ReplyOk(W, B, k, a.Merge(b))
    ensures forall d: Dot :: Covers(a.Merge(b).Context(), d) <==> Covers(a.Context(), d) || Covers(b.Context(), d)
  {
    var x := if a.Void? then Value(map[], a.void) else a.value;
    var y := if b.Void? then Value(map[], b.void) else b.value;
    if a.Void? {
      MergeFaithful(W, k, y, x);
    } else {
      MergeFaithful(W, k, x, y);
    }
  }

  lemma IncludesBoth(W: History, B: Issued, read: Read, replies: set<Id>, m: Id, cube: Cube)
    requires ReplyOk(W, B, read.key, read.cube) && ReplyOk(W, B, read.key, cube)
    requires Includes(read, replies, read.cube) && Includes(read, {m}, cube)
    ensures Includes(read, replies + {m}, read.cube.Merge(cube))
  {
    MergeReplies(W, B, read.key, read.cube, cube);
  }

  lemma IncludesFewer(read: Read, read': Read, fewer: set<Id>, replies: set<Id>, cube: Cube)
    requires Includes(read, replies, cube) && fewer <= replies && read'.answered == read.answered
    ensures Includes(read', fewer, cube)
  {
  }

  lemma ReplyCounts(s: System, read: Read, m: Id, cube: Cube)
    requires ReadOk(s, read) && m in s.replicas
    requires ReplyOk(s.writes, s.issued, read.key, cube) && Includes(read, {m}, cube)
    ensures ReadOk(s, WithReply(read, m, cube))
  {
    var read' := WithReply(read, m, cube);
    MergeReplies(s.writes, s.issued, read.key, read.cube, cube);
    ProcessKeeps(read.request, Some(m));
    IncludesBoth(s.writes, s.issued, read, read.request.Repliers(), m, cube);
    if read.request.outcome.None? {
      IncludesFewer(read, read', read'.request.Repliers(), read.request.Repliers() + {m}, read'.cube);
    }
  }

  lemma ReadEnds(s: System, read: Read, request: Request)
    requires ReadOk(s, read) && RequestOk(request) && request.Repliers() <= read.request.Repliers()
    ensures ReadOk(s, read.(request := request))
  {
    IncludesFewer(read, read.(request := request), request.Repliers(), read.request.Repliers(), read.cube);
  }

  lemma CountsGet(s: System, asked: map<Cookie, Read>, acks: set<GetAck>, a: GetAck)
    requires ReadsOk(s, asked, acks) && a in acks && a.cookie in asked
    ensures ReadsOk(s, asked[a.cookie := WithReply(asked[a.cookie], a.from, a.cube)], acks)
  {
    assert GetAckOk(s, asked, a);
    ReplyCounts(s, asked[a.cookie], a.from, a.cube);
    OneMoreRead(s, asked, acks, a.cookie, WithReply(asked[a.cookie], a.from, a.cube));
  }

  lemma CountGetKeeps(c: Cluster, cookie: Cookie, m: Id, cube: Cube)
    requires ClusterInv(c) && Enabled(c, CountGet(cookie, m, cube))
    ensures ClusterInv(Do(c, CountGet(cookie, m, cube)))
  {
    CountsGet(c.sys, c.asked, c.getAcks, GetAck(cookie, m, cube));
  }

  lemma EndsGet(s: System, asked: map<Cookie, Read>, acks: set<GetAck>, cookie: Cookie, request: Request)
    requires ReadsOk(s, asked, acks) && cookie in asked
    requires RequestOk(request) && request.Repliers() <= asked[cookie].request.Repliers()
    ensures ReadsOk(s, asked[cookie := asked[cookie].(request := request)], acks)
  {
    ReadEnds(s, asked[cookie], request);
    OneMoreRead(s, asked, acks, cookie, asked[cookie].(request := request));
  }

  lemma GetEndsKeeps(c: Cluster, cookie: Cookie)
    requires ClusterInv(c) && cookie in c.asked
    ensures ClusterInv(Do(c, GetFails(cookie))) && ClusterInv(Do(c, GetExpires(cookie)))
  {
    var request := c.asked[cookie].request;
    assert ReadOk(c.sys, c.asked[cookie]);
    ProcessKeeps(request, None);
    EndsGet(c.sys, c.asked, c.getAcks, cookie, Process(request, None));
    EndsGet(c.sys, c.asked, c.getAcks, cookie, Expire(request));
  }

  // ---------------------------------------------------------------- over every run

  lemma WriteOpKeeps(c: Cluster, op: Op)
    requires ClusterInv(c) && Enabled(c, op)
    requires op.Coordinate? || op.CountOwn? || op.Replicate? || op.CountSet? || op.SetFails? || op.SetExpires?
    ensures ClusterInv(Do(c, op))
  {
    match op
    case Coordinate(d, cube, level) => CoordinateKeeps(c, d, cube, level);
    case CountOwn(d) => CountOwnKeeps(c, d);
    case Replicate(d, m, reply) => ReplicateKeeps(c, d, m, reply);
    case CountSet(d, m) => CountSetKeeps(c, d, m);
    case SetFails(d) => SetEndsKeeps(c, d);
    case SetExpires(d) => SetEndsKeeps(c, d);
  }

  lemma ReadOpKeeps(c: Cluster, op: Op)
    requires ClusterInv(c) && Enabled(c, op)
    requires op.BeginRead? || op.Serve? || op.CountGet? || op.GetFails? || op.GetExpires?
    ensures ClusterInv(Do(c, op))
  {
    match op
    case BeginRead(cookie, n, key, level) => BeginReadKeeps(c, cookie, n, key, level);
    case Serve(cookie, m) => ServeKeeps(c, cookie, m);
    case CountGet(cookie, m, cube) => CountGetKeeps(c, cookie, m, cube);
    case GetFails(cookie) => GetEndsKeeps(c, cookie);
    case GetExpires(cookie) => GetEndsKeeps(c, cookie);
  }

  lemma OpKeeps(c: Cluster, op: Op)
    requires ClusterInv(c) && Enabled(c, op)
    ensures ClusterInv(Do(c, op))
  {
    if op.Protocol? {
      ProtocolKeeps(c, op.a);
    } else if op.BeginRead? || op.Serve? || op.CountGet? || op.GetFails? || op.GetExpires? {
      ReadOpKeeps(c, op);
    } else {
      WriteOpKeeps(c, op);
    }
  }

  lemma {:induction false} OpsKeep(c: Cluster, ops: seq<Op>)
    requires ClusterInv(c) && CanDo(c, ops)
    ensures ClusterInv(DoAll(c, ops))
    decreases |ops|
  {
    if ops != [] {
      OpKeeps(c, ops[0]);
      OpsKeep(Do(c, ops[0]), ops[1..]);
    }
  }

  // ---------------------------------------------------------------- how many replicas replied

  /** A sequence has as many members as places exactly when no member has two. */
  lemma {:induction false} MembersIff(r: Request)
    ensures |r.Repliers()| <= |r.repliers|
    ensures |r.Repliers()| == |r.repliers| <==> r.CountedOnce()
    decreases |r.repliers|
  {
    if r.repliers != [] {
      var m, r' := r.repliers[|r.repliers| - 1], r.(repliers := r.repliers[..|r.repliers| - 1]);
      MembersIff(r');
      assert r.repliers == r'.repliers + [m];
      assert r.Repliers() == r'.Repliers() + {m};
      OneMoreMember(r', m);
    }
  }

  lemma OneMoreMember(r: Request, m: Id)
    ensures r.(repliers := r.repliers + [m]).CountedOnce() <==> r.CountedOnce() && m !in r.Repliers()
  {
    var r' := r.(repliers := r.repliers + [m]);
    if r'.CountedOnce() {
      forall i, j | 0 <= i < j < |r.repliers| ensures r.repliers[i] != r.repliers[j] {
        assert r'.repliers[i] != r'.repliers[j];
      }
      forall i | 0 <= i < |r.repliers| ensures r.repliers[i] != m {
        assert r'.repliers[i] != r'.repliers[|r.repliers|];
      }
    }
  }

  /** A write or read that succeeded had the replicas it needs behind it exactly when no replica
      was counted twice. */
  lemma SuccessIsEnoughIff(c0: Cluster, ops: seq<Op>, r: Request)
    requires Fresh(c0) && CanDo(c0, ops) && IsRequest(DoAll(c0, ops), r) && r.Succeeded()
    ensures |r.Repliers()| >= r.req.required <==> r.CountedOnce()
  {
    InitInv(c0.sys);
    OpsKeep(c0, ops);
    MembersIff(r);
  }

  ghost predicate IsRequest(c: Cluster, r: Request) {
    || (exists d :: d in c.sets && c.sets[d] == r)
    || (exists cookie :: cookie in c.asked && c.asked[cookie].request == r)
  }

  /** The levels at which a read and a write have to have a replica in common, among three or more. */
  lemma LevelsMeetIff(write: R.ConsistencyLevel, read: R.ConsistencyLevel, nodes: nat)
    requires nodes >= 3
    ensures R.Required(write, nodes) + R.Required(read, nodes) > nodes <==>
              write.All? || read.All? || (write.Quorum? && read.Quorum?)
  {
  }

  lemma QuorumsMeet(s: System, a: set<Id>, b: set<Id>)
    requires a <= s.replicas.Keys && b <= s.replicas.Keys && |a| + |b| > |s.replicas|
    ensures exists m :: m in a && m in b
  {
    Subset(a + b, s.replicas.Keys);
    assert |a + b| + |a * b| == |a| + |b|;
    assert a * b != {};
    var m :| m in a * b;
  }

  /** A read that succeeded, of a key with a write that had succeeded before the read began, both at
      levels that have to meet, and no replica counted twice for either: its cube has the write, as a
      sibling or overwritten by a chain of writes that ends in one. */
  lemma QuorumReadsSeeQuorumWrites(c0: Cluster, ops: seq<Op>, cookie: Cookie, d: Dot)
    requires Fresh(c0) && CanDo(c0, ops)
    requires var c := DoAll(c0, ops);
             && cookie in c.asked && d in c.asked[cookie].answered && HaveToMeet(c.sys, c.asked[cookie], d)
             && c.asked[cookie].request.CountedOnce() && c.asked[cookie].answered[d].CountedOnce()
    ensures var c := DoAll(c0, ops); ShowsWrite(c.sys.writes, c.asked[cookie].key, c.asked[cookie].cube, d)
  {
    InitInv(c0.sys);
    OpsKeep(c0, ops);
    var c := DoAll(c0, ops);
    ReadShows(c.sys, c.asked[cookie], d);
  }

  /** The read succeeded, after the write did, and they need more replicas than there are. */
  ghost predicate HaveToMeet(s: System, read: Read, d: Dot) {
    && read.request.Succeeded() && d in read.answered
    && read.request.req.required + read.answered[d].req.required > |s.replicas|
  }

  /** The cube's context has d, and d or what overwrote it, at the end of a chain, is a sibling. */
  ghost predicate ShowsWrite(W: History, k: Key, c: Cube, d: Dot) {
    && c.Val? && Covers(c.Context(), d)
    && exists sibling, path :: LeadsTo(W, k, c.value.vv, d, sibling, path) && sibling in c.value.values
  }

  lemma ReadShows(s: System, read: Read, d: Dot)
    requires HistoryOk(s.writes, s.issued) && ReadOk(s, read) && HaveToMeet(s, read, d)
    requires read.request.CountedOnce() && read.answered[d].CountedOnce()
    ensures ShowsWrite(s.writes, read.key, read.cube, d)
  {
    var write := read.answered[d];
    assert SetOk(s, d, write);
    MembersIff(read.request);
    MembersIff(write);
    QuorumsMeet(s, write.Repliers(), read.request.Repliers());
    var value := if read.cube.Void? then Value(map[], read.cube.void) else read.cube.value;
    var sibling, path := FaithfulChain(s.writes, s.issued, read.key, value, d);
  }
}
