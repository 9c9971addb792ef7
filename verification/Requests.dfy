/** Client requests a vnode coordinates (src/vnode.rs:55-61, src/vnode.rs:107-125,
    src/vnode.rs:243-272, src/vnode.rs:287-348, src/vnode.rs:376-561) and the replies a consistency
    level asks for (src/types.rs:64-72). */
module Requests {
  import opened Basics
  import opened Cubes
  import opened InFlight

  type Cookie = nat

  datatype ConsistencyLevel = One | Quorum | All

  function Required(level: ConsistencyLevel, replicas: nat): (r: nat) {
    match level
    case One => 1
    case Quorum => replicas / 2 + 1
    case All => replicas
  }

  /** One success is enough at One; at Quorum more than half of the nodes, at All each of them. */
  lemma RequiredIff(level: ConsistencyLevel, nodes: nat, successes: nat)
    ensures successes >= Required(level, nodes) <==>
              match level
              case One => successes >= 1
              case Quorum => 2 * successes > nodes
              case All => successes >= nodes
  {
  }

  datatype ReqState = ReqState(required: nat, total: nat, replies: nat, successful: nat) {
    predicate Satisfied() { successful >= required }

    predicate Done() { Satisfied() || replies == total }
  }

  function Replied(req: ReqState, ok: bool): ReqState {
    req.(replies := req.replies + 1, successful := req.successful + if ok then 1 else 0)
  }

  datatype Outcome = Success | Unavailable | Timeout

  /** The answer the replies so far allow. */
  function Verdict(req: ReqState): Option<Outcome> {
    if req.Satisfied() then Some(Success) else if req.Done() then Some(Unavailable) else None
  }

  /** A request with the cubes of its keys. */
  datatype Entry = Entry(req: ReqState, cubes: seq<Cube>)

  /** The cubes a replica replied with; for writes only those that were asked for. */
  type Reply = seq<Option<Cube>>

  /** The reply is merged in key by key, as far as it goes. */
  function Merged(cubes: seq<Cube>, reply: Reply): (r: seq<Cube>) {
    if cubes == [] || reply == [] then cubes
    else [if reply[0].Some? then cubes[0].Merge(reply[0].value) else cubes[0]] + Merged(cubes[1..], reply[1..])
  }

  lemma {:induction false} MergedAt(cubes: seq<Cube>, reply: Reply, i: nat)
    requires i < |cubes|
    ensures |Merged(cubes, reply)| == |cubes|
    ensures Merged(cubes, reply)[i] == if i < |reply| && reply[i].Some? then cubes[i].Merge(reply[i].value) else cubes[i]
  {
    if reply != [] && |cubes| > 1 {
      MergedAt(cubes[1..], reply[1..], if i > 0 then i - 1 else 0);
    }
  }

  /** The replies in the order they came. */
  function MergedAll(cubes: seq<Cube>, replies: seq<Reply>): (r: seq<Cube>) {
    if replies == [] then cubes else Merged(MergedAll(cubes, replies[..|replies| - 1]), replies[|replies| - 1])
  }

  lemma MergedNext(cubes: seq<Cube>, replies: seq<Reply>, reply: Reply)
    ensures MergedAll(cubes, replies + [reply]) == Merged(MergedAll(cubes, replies), reply)
  {
    assert (replies + [reply])[..|replies|] == replies;
  }

  /** What the client is told, with what cubes, and the state of the request then. */
  datatype Response = Response(cookie: Cookie, outcome: Outcome, req: ReqState, cubes: seq<Cube>)

  /** How often cookie was answered. */
  function Answers(responses: seq<Response>, cookie: Cookie): (r: nat) {
    if responses == [] then 0
    else Answers(responses[..|responses| - 1], cookie) + if responses[|responses| - 1].cookie == cookie then 1 else 0
  }

  /** The outcome fits the replies. */
  predicate Justified(x: Response) {
    match x.outcome
    case Success => x.req.Satisfied()
    case Unavailable => x.req.replies == x.req.total && !x.req.Satisfied()
    case Timeout => true
  }

  /** A request under way has had no more successes than replies, and was not done at any of them. */
  predicate UnderWay(req: ReqState) {
    && req.successful <= req.replies && (req.replies > 0 ==> !req.Done())
    && (req.total > 0 ==> req.replies < req.total)
  }

  /** However often replies come, the counters do not pass the number of nodes, for which the source
      has 8 bits. */
  predicate Fits(req: ReqState) {
    req.total > 0 ==> req.successful <= req.replies <= req.total
  }

  ghost predicate AllUnderWay(entries: map<Cookie, Entry>) {
    forall c :: c in entries ==> UnderWay(entries[c].req)
  }

  ghost predicate TimedOut(x: Response, now: Time, registered: map<Cookie, Time>, entries: map<Cookie, Entry>) {
    && x.cookie in entries && x.cookie in registered && registered[x.cookie] <= now
    && x == Response(x.cookie, Timeout, entries[x.cookie].req, [])
  }

  ghost predicate Timed(deadline: map<Cookie, Time>, heap: multiset<Pair<Cookie>>, registered: map<Cookie, Time>) {
    && (forall c :: c in deadline ==> c in registered && deadline[c] == registered[c])
    && (forall x :: x in heap ==> x.key in registered)
  }

  ghost predicate ExpiredOne(x: Response, now: Time, registered: map<Cookie, Time>,
                             entries: map<Cookie, Entry>, left: map<Cookie, Entry>) {
    TimedOut(x, now, registered, entries) && left == entries - {x.cookie}
  }

  /** Some requests that were due have been answered since, and are gone. */
  ghost predicate Expired(before: seq<Response>, responses: seq<Response>, now: Time, registered: map<Cookie, Time>,
                          entries: map<Cookie, Entry>, left: map<Cookie, Entry>) {
    && before <= responses
    && (forall i :: |before| <= i < |responses| ==> TimedOut(responses[i], now, registered, entries))
    && (forall c :: c in left ==> c in entries && left[c] == entries[c])
    && (forall c :: c in entries && c in registered && registered[c] > now ==> c in left)
  }

  lemma ExpiredNext(before: seq<Response>, responses: seq<Response>, now: Time, registered: map<Cookie, Time>,
                    entries: map<Cookie, Entry>, left: map<Cookie, Entry>, x: Response, left': map<Cookie, Entry>)
    requires Expired(before, responses, now, registered, entries, left) && ExpiredOne(x, now, registered, left, left')
    ensures Expired(before, responses + [x], now, registered, entries, left')
  {
  }

  /** The cubes a request began with and the replies counted as successes since. */
  datatype Gathered = Gathered(begun: seq<Cube>, replies: seq<Reply>)

  predicate Holds(g: Gathered, req: ReqState, cubes: seq<Cube>) {
    req.successful == |g.replies| && cubes == MergedAll(g.begun, g.replies)
  }

  /** Every request under way, and every one that succeeded, has the cubes it began with, merged with
      those of the replies it counted, and no others. */
  ghost predicate AllHold(gathered: map<Cookie, Gathered>, entries: map<Cookie, Entry>, responses: seq<Response>) {
    && (forall c :: c in entries ==> c in gathered && Holds(gathered[c], entries[c].req, entries[c].cubes))
    && (forall x :: x in responses && x.outcome == Success ==>
          x.cookie !in entries && x.cookie in gathered && Holds(gathered[x.cookie], x.req, x.cubes))
  }

  /** Every request is either waiting or has been answered, exactly once and rightly. */
  ghost predicate Answered(responses: seq<Response>, registered: set<Cookie>, waiting: set<Cookie>) {
    && waiting <= registered
    && (forall c {:trigger Answers(responses, c)} :: Answers(responses, c) == if c in registered - waiting then 1 else 0)
    && (forall x :: x in responses ==> Justified(x))
  }

  lemma AnsweredNow(responses: seq<Response>, registered: set<Cookie>, waiting: set<Cookie>, x: Response)
    requires Answered(responses, registered, waiting) && x.cookie in waiting && Justified(x)
    ensures Answered(responses + [x], registered, waiting - {x.cookie})
  {
    assert (responses + [x])[..|responses|] == responses;
  }

  /** Nobody who was answered is waiting. */
  lemma AnsweredCookies(responses: seq<Response>, registered: set<Cookie>, waiting: set<Cookie>)
    requires Answered(responses, registered, waiting)
    ensures forall x :: x in responses ==> x.cookie in registered && x.cookie !in waiting
  {
    forall x | x in responses ensures x.cookie in registered && x.cookie !in waiting {
      IsAnswer(responses, x);
    }
  }

  lemma {:induction false} IsAnswer(responses: seq<Response>, x: Response)
    requires x in responses
    ensures Answers(responses, x.cookie) > 0
  {
    if responses[|responses| - 1].cookie != x.cookie {
      IsAnswer(responses[..|responses| - 1], x);
    }
  }

  lemma Asked(responses: seq<Response>, registered: set<Cookie>, waiting: set<Cookie>, cookie: Cookie)
    requires Answered(responses, registered, waiting) && cookie !in registered
    ensures Answered(responses, registered + {cookie}, waiting + {cookie})
  {
  }

  /** The answer to a request that is done. */
  function AnswerOf(cookie: Cookie, e: Entry): Response
    requires e.req.Done()
  {
    Response(cookie, Verdict(e.req).value, e.req, if e.req.Satisfied() then e.cubes else [])
  }

  /** What is left of the request after a reply or an error. */
  function Handled(e: Entry, reply: Option<Reply>): Entry {
    Entry(Replied(e.req, reply.Some?), if reply.Some? then Merged(e.cubes, reply.value) else e.cubes)
  }

  function Counted(g: Gathered, reply: Option<Reply>): Gathered {
    if reply.Some? then g.(replies := g.replies + [reply.value]) else g
  }

  lemma HandledHolds(g: Gathered, e: Entry, reply: Option<Reply>)
    requires Holds(g, e.req, e.cubes)
    ensures Holds(Counted(g, reply), Handled(e, reply).req, Handled(e, reply).cubes)
  {
    if reply.Some? {
      MergedNext(g.begun, g.replies, reply.value);
    }
  }

  lemma HoldsAgain(gathered: map<Cookie, Gathered>, entries: map<Cookie, Entry>, responses: seq<Response>,
                   cookie: Cookie, g: Gathered, e: Entry)
    requires AllHold(gathered, entries, responses) && Holds(g, e.req, e.cubes)
    requires forall x :: x in responses ==> x.cookie != cookie
    ensures AllHold(gathered[cookie := g], entries[cookie := e], responses)
  {
  }

  lemma HoldsAnswered(gathered: map<Cookie, Gathered>, entries: map<Cookie, Entry>, responses: seq<Response>, x: Response)
    requires AllHold(gathered, entries, responses)
    requires x.outcome == Success ==> x.cookie in gathered && Holds(gathered[x.cookie], x.req, x.cubes)
    ensures AllHold(gathered, entries - {x.cookie}, responses + [x])
  {
  }

  class Coordinator {
    var requests: InFlightMap<Cookie, Entry>
    var responses: seq<Response>
    /** The cookies used so far and when their requests expire. */
    ghost var registered: map<Cookie, Time>
    ghost var gathered: map<Cookie, Gathered>

    ghost predicate Counting()
      reads this, requests
    {
      && requests.Valid() && AllUnderWay(requests.entries) && Timed(requests.deadline, requests.heap, registered)
      && Answered(responses, registered.Keys, requests.entries.Keys) && gathered.Keys == registered.Keys
    }

    ghost predicate Valid()
      reads this, requests
    {
      Counting() && AllHold(gathered, requests.entries, responses)
    }

    constructor ()
      ensures Valid() && fresh(requests) && registered == map[] && responses == []
    {
      requests := new InFlightMap();
      responses, registered, gathered := [], map[], map[];
    }

    /** do_get and do_flush; a cookie is never drawn twice. */
    method Register(cookie: Cookie, level: ConsistencyLevel, nodes: nat, cubes: seq<Cube>, expire: Time)
      requires Valid() && cookie !in registered
      modifies this`registered, this`gathered, requests
      ensures Valid() && registered == old(registered)[cookie := expire]
      ensures gathered == old(gathered)[cookie := Gathered(cubes, [])]
      ensures cookie in requests.entries
      ensures requests.entries[cookie] == Entry(ReqState(Required(level, nodes), nodes, 0, 0), cubes)
    {
      Asked(responses, registered.Keys, requests.entries.Keys, cookie);
      AnsweredCookies(responses, registered.Keys, requests.entries.Keys);
      HoldsAgain(gathered, requests.entries, responses, cookie, Gathered(cubes, []),
                 Entry(ReqState(Required(level, nodes), nodes, 0, 0), cubes));
      requests.Insert(cookie, Entry(ReqState(Required(level, nodes), nodes, 0, 0), cubes), expire);
      registered, gathered := registered[cookie := expire], gathered[cookie := Gathered(cubes, [])];
    }

    /** process_get and process_set. The answer says if the caller can stop sending. */
    method Process(cookie: Cookie, reply: Option<Reply>) returns (done: bool)
      requires Valid()
      modifies this`responses, this`gathered, requests
      ensures Valid()
      ensures done <==> cookie !in old(requests.entries) || Verdict(Handled(old(requests.entries)[cookie], reply).req).Some?
      ensures cookie in old(requests.entries) ==> Fits(Handled(old(requests.entries)[cookie], reply).req)
      ensures gathered == if cookie !in old(requests.entries) then old(gathered)
                          else old(gathered)[cookie := Counted(old(gathered[cookie]), reply)]
      ensures cookie !in old(requests.entries) ==> responses == old(responses) && requests.entries == old(requests.entries)
      ensures cookie in old(requests.entries) && !done ==>
        responses == old(responses)
        && requests.entries == old(requests.entries)[cookie := Handled(old(requests.entries)[cookie], reply)]
      ensures cookie in old(requests.entries) && done ==>
        responses == old(responses) + [AnswerOf(cookie, Handled(old(requests.entries)[cookie], reply))]
        && requests.entries == old(requests.entries) - {cookie}
    {
      if cookie !in requests.entries { return true; }
      var e := Handled(requests.entries[cookie], reply);
      Gathers(cookie, reply, e);
      done := e.req.Done();
      if done {
        Finish(cookie, e);
      } else {
        Await(cookie, e);
      }
    }

    method Await(cookie: Cookie, e: Entry)
      requires Counting() && cookie in requests.entries && UnderWay(e.req)
      requires AllHold(gathered, requests.entries[cookie := e], responses)
      modifies requests
      ensures Valid() && requests.entries == old(requests.entries)[cookie := e]
    {
      assert requests.entries[cookie := e].Keys == requests.entries.Keys;
      requests.Replace(cookie, e);
    }

    method Finish(cookie: Cookie, e: Entry)
      requires Counting() && cookie in requests.entries && e.req.Done()
      requires AllHold(gathered, requests.entries[cookie := e], responses)
      modifies this`responses, requests
      ensures Valid() && responses == old(responses) + [AnswerOf(cookie, e)]
      ensures requests.entries == old(requests.entries) - {cookie}
    {
      HoldsAnswered(gathered, requests.entries[cookie := e], responses, AnswerOf(cookie, e));
      assert requests.entries[cookie := e] - {cookie} == requests.entries - {cookie};
      AnsweredNow(responses, registered.Keys, requests.entries.Keys, AnswerOf(cookie, e));
      var _ := requests.Remove(cookie);
      responses := responses + [AnswerOf(cookie, e)];
    }

    ghost method Gathers(cookie: Cookie, reply: Option<Reply>, e: Entry)
      requires Valid() && cookie in requests.entries && e == Handled(requests.entries[cookie], reply)
      modifies this`gathered
      ensures Counting()
      ensures gathered == old(gathered)[cookie := Counted(old(gathered[cookie]), reply)]
      ensures AllHold(gathered, requests.entries[cookie := e], responses)
    {
      HandledHolds(gathered[cookie], requests.entries[cookie], reply);
      AnsweredCookies(responses, registered.Keys, requests.entries.Keys);
      HoldsAgain(gathered, requests.entries, responses, cookie, Counted(gathered[cookie], reply), e);
      gathered := gathered[cookie := Counted(gathered[cookie], reply)];
    }

    /** The earliest request that has expired, if any, is answered. */
    method ExpireOne(now: Time) returns (found: bool)
      requires Valid()
      modifies this`responses, requests
      ensures Valid()
      ensures !found ==> responses == old(responses) && requests.entries == old(requests.entries)
      ensures !found ==> forall c :: c in requests.entries ==> registered[c] > now
      ensures found ==> exists x :: ExpiredOne(x, now, registered, old(requests.entries), requests.entries)
                                    && responses == old(responses) + [x]
    {
      ghost var entries, due := requests.entries, DueKeys(requests.deadline, now);
      var r := requests.PopExpired(now);
      if r.None? {
        assert forall c :: c in requests.deadline && requests.deadline[c] <= now ==> c in due;
        return false;
      }
      var x := Response(r.value.0, Timeout, r.value.1.req, []);
      AnsweredNow(responses, registered.Keys, entries.Keys, x);
      HoldsAnswered(gathered, entries, responses, x);
      responses := responses + [x];
      assert requests.entries.Keys == entries.Keys - {x.cookie};
      assert ExpiredOne(x, now, registered, entries, requests.entries);
      found := true;
    }

    /** After a tick every request that has expired has been answered. */
    method Tick(now: Time)
      requires Valid()
      modifies this`responses, requests
      ensures Valid() && old(responses) <= responses
      ensures forall c :: c in registered && registered[c] <= now ==> Answers(responses, c) == 1
      ensures forall c :: c in requests.entries <==> c in old(requests.entries) && registered[c] > now
      ensures forall i :: |old(responses)| <= i < |responses| ==>
        TimedOut(responses[i], now, registered, old(requests.entries))
    {
      var found := true;
      while found
        invariant Valid() && Expired(old(responses), responses, now, registered, old(requests.entries), requests.entries)
        invariant !found ==> forall c :: c in requests.entries ==> registered[c] > now
        decreases requests.entries.Keys, found
      {
        ghost var before, entries := responses, requests.entries;
        found := ExpireOne(now);
        if found {
          ghost var x :| ExpiredOne(x, now, registered, entries, requests.entries) && responses == before + [x];
          ExpiredNext(old(responses), before, now, registered, old(requests.entries), entries, x, requests.entries);
          assert x.cookie in entries.Keys && requests.entries.Keys < entries.Keys;
        }
      }
    }
  }
}
