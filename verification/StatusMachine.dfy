/** The status of a vnode, its syncs, and the sync counters all vnodes share (src/vnode.rs:20-54,
    src/vnode.rs:158-284, src/vnode.rs:643-857, src/vnode.rs:883-909, src/database.rs:445-477).
    What a handler learns from clocks, random numbers, the ring or the network is a parameter. */
module StatusMachine {
  import opened Basics

  type NodeId = nat
  type Cookie = nat
  type VNodeId = nat

  datatype Status = Ready | Bootstrap | Zombie | Absent

  datatype Direction = Incoming | Outgoing

  datatype Sync = SyncSender | SyncReceiver(peer: NodeId) | BootstrapSender | BootstrapReceiver {
    function Way(): Direction {
      if SyncReceiver? || BootstrapReceiver? then Incoming else Outgoing
    }
  }

  type Syncs = map<Cookie, Sync>

  datatype SyncResult = Continue | Done | Error

  /** What a fin message says. */
  datatype Fin = Success | NotReady | Failure

  /** The other connected owners, in the order tried, and whether the ring takes the promotion. */
  datatype Surroundings = Surroundings(peers: seq<NodeId>, promoted: bool, cookie: Cookie)

  function Cookies(syncs: Syncs, direction: Direction): (r: set<Cookie>) {
    set c | c in syncs && syncs[c].Way() == direction
  }

  function Count(syncs: Syncs, direction: Direction): nat {
    |Cookies(syncs, direction)|
  }

  lemma CountAdds(syncs: Syncs, c: Cookie, sync: Sync, direction: Direction)
    requires c !in syncs
    ensures Count(syncs[c := sync], direction) == Count(syncs, direction) + if sync.Way() == direction then 1 else 0
  {
    assert Cookies(syncs[c := sync], direction)
        == Cookies(syncs, direction) + if sync.Way() == direction then {c} else {};
  }

  lemma CountDrops(syncs: Syncs, c: Cookie, direction: Direction)
    requires c in syncs
    ensures Count(syncs - {c}, direction) == Count(syncs, direction) - if syncs[c].Way() == direction then 1 else 0
  {
    var was := Cookies(syncs, direction);
    assert Cookies(syncs - {c}, direction) == was - {c};
    assert c in was <==> syncs[c].Way() == direction;
  }

  /** signal_sync_start and signal_sync_end. Ending more syncs than were started is a failed unwrap. */
  class Stats {
    var incoming: nat
    var outgoing: nat
    const incomingMax: nat
    const outgoingMax: nat

    constructor (incomingMax: nat, outgoingMax: nat)
      ensures incoming == outgoing == 0 && this.incomingMax == incomingMax && this.outgoingMax == outgoingMax
    {
      incoming, outgoing, this.incomingMax, this.outgoingMax := 0, 0, incomingMax, outgoingMax;
    }

    function Of(direction: Direction): nat
      reads this
    {
      if direction == Incoming then incoming else outgoing
    }

    function Max(direction: Direction): nat {
      if direction == Incoming then incomingMax else outgoingMax
    }

    method SignalSyncStart(direction: Direction) returns (ok: bool)
      modifies this
      ensures ok <==> old(Of(direction)) < Max(direction)
      ensures forall d :: Of(d) == old(Of(d)) + if ok && d == direction then 1 else 0
    {
      ok := Of(direction) < Max(direction);
      if ok {
        if direction == Incoming { incoming := incoming + 1; } else { outgoing := outgoing + 1; }
      }
    }

    method SignalSyncEnd(direction: Direction)
      requires Of(direction) > 0
      modifies this
      ensures forall d :: Of(d) == old(Of(d)) - if d == direction then 1 else 0
    {
      if direction == Incoming { incoming := incoming - 1; } else { outgoing := outgoing - 1; }
    }
  }

  // ---------------------------------------------------------------- a vnode

  /** What holds between handlers. */
  ghost predicate StatusOk(status: Status, pending: bool, syncs: Syncs, syncNodes: set<NodeId>) {
    && (pending ==> status == Bootstrap && syncs == map[])
    && (status == Absent ==> syncs == map[])
    && (status == Bootstrap ==> forall c, k :: c in syncs && k in syncs ==> syncs[c].BootstrapReceiver? && c == k)
    && (status == Zombie ==> Cookies(syncs, Incoming) == {})
    && (status == Ready ==> forall c :: c in syncs ==> !syncs[c].BootstrapReceiver?)
    && PeersOk(syncs, syncNodes)
  }

  /** A sync is under way with every node in syncNodes. */
  ghost predicate PeersOk(syncs: Syncs, syncNodes: set<NodeId>) {
    forall p :: p in syncNodes ==> SyncReceiver(p) in syncs.Values
  }

  /** A vnode's fields at one moment. */
  datatype View = View(status: Status, pending: bool, syncs: Syncs, syncNodes: set<NodeId>)

  // ---------------------------------------------------------------- what handlers make of it

  /** The peers the ended receivers synced with. */
  function PeersOf(syncs: Syncs, ended: set<Cookie>): set<NodeId> {
    set c | c in ended && c in syncs && syncs[c].SyncReceiver? :: syncs[c].peer
  }

  function Without(v: View, ended: set<Cookie>): View {
    v.(syncs := v.syncs - ended, syncNodes := v.syncNodes - PeersOf(v.syncs, ended))
  }

  lemma WithoutOneMore(v: View, ended: set<Cookie>, c: Cookie)
    requires c in v.syncs && c !in ended
    ensures Without(Without(v, ended), {c}) == Without(v, ended + {c})
  {
    assert PeersOf(v.syncs, ended + {c}) == PeersOf(v.syncs, ended) + PeersOf(v.syncs - ended, {c});
  }

  /** The ring was asked to promote the node. */
  function Promoted(v: View, env: Surroundings): View {
    v.(status := if env.promoted then Ready else Absent, pending := false)
  }

  /** start_bootstrap: ready at once with nobody to bootstrap from, else a receiver if there is room
      for one, else waiting. */
  function Booted(v: View, room: bool, env: Surroundings): View {
    if env.peers == [] then Promoted(v, env)
    else if room then v.(pending := false, syncs := v.syncs[env.cookie := BootstrapReceiver])
    else v.(pending := true)
  }

  /** handler_dht_change. */
  function Changed(v: View, want: Status, room: bool, env: Surroundings): View {
    match (v.status, want)
    case (Ready, Absent) => Without(v, Cookies(v.syncs, Incoming)).(status := Zombie)
    case (Bootstrap, Absent) => Without(v, Cookies(v.syncs, Incoming)).(status := Absent, pending := false)
    case (Zombie, Ready) => v.(status := Ready)
    case (Absent, Ready) => Booted(v.(status := Bootstrap), room, env)
    case (Bootstrap, Ready) => if v.pending then Booted(v, room, env) else v
    case _ => v
  }

  /** handler_tick. A bootstrap that ended leaves room for the next one. */
  function Ticked(v: View, ended: set<Cookie>, late: bool, room: bool, env: Surroundings, again: Surroundings): View {
    if v.status == Bootstrap then
      if ended != {} then Booted(Without(v, ended), true, env)
      else if v.pending then Booted(v, room, again)
      else v
    else if v.status == Zombie && ended == v.syncs.Keys && late then Without(v, ended).(status := Absent)
    else Without(v, ended)
  }

  /** handler_sync_fin. */
  function Finished(v: View, cookie: Cookie, fin: Fin, env: Surroundings): View {
    if v.status == Absent || cookie !in v.syncs then v
    else if v.syncs[cookie].Way() == Incoming && fin == NotReady then v
    else if v.status != Bootstrap then Without(v, {cookie})
    else if fin == Success then Promoted(Without(v, {cookie}), env)
    else Booted(Without(v, {cookie}), true, env)
  }

  /** What can happen to a vnode. */
  datatype Event =
    | Load(env: Surroundings)
    | DhtChange(want: Status, env: Surroundings)
    | Tick(ended: set<Cookie>, late: bool, env: Surroundings, again: Surroundings)
    | SyncStart(cookie: Cookie, sync: Sync, recent: bool)
    | SyncFin(cookie: Cookie, fin: Fin, env: Surroundings)
    | StartSync(peers: seq<NodeId>, cookie: Cookie)

  /** Loading starts a bootstrap, ticks end registered syncs, peers ask for senders, cookies are new. */
  ghost predicate Possible(status: Status, syncs: Syncs, e: Event) {
    match e
    case Load(_) => status == Bootstrap && syncs == map[]
    case DhtChange(want, _) => want == Ready || want == Absent
    case Tick(ended, _, _, _) => ended <= syncs.Keys
    case SyncStart(_, sync, _) => sync.Way() == Outgoing
    case SyncFin(_, _, _) => true
    case StartSync(_, cookie) => cookie !in syncs
  }

  /** What an event makes of a vnode, given what room there is for receivers and senders. */
  ghost predicate Moves(v: View, e: Event, room: bool, sendRoom: bool, v': View) {
    match e
    case Load(env) => v' == Booted(v, room, env)
    case DhtChange(want, env) => v' == Changed(v, want, room, env)
    case Tick(ended, late, env, again) => v' == Ticked(v, ended, late, room, env, again)
    case SyncStart(cookie, sync, recent) =>
      v' == if (v.status == Ready || (v.status == Zombie && recent)) && cookie !in v.syncs && sendRoom
            then v.(syncs := v.syncs[cookie := sync]) else v
    case SyncFin(cookie, fin, env) => v' == Finished(v, cookie, fin, env)
    case StartSync(peers, cookie) =>
      if v.status == Ready && peers != [] && room then
        exists p :: p in peers
          && v' == v.(syncs := v.syncs[cookie := SyncReceiver(p)], syncNodes := v.syncNodes + {p})
      else v' == v
  }

  class VNode {
    var status: Status
    var pending: bool
    var syncs: Syncs
    var syncNodes: set<NodeId>

    constructor (status: Status)
      requires status != Zombie
      ensures this.status == status && IsNew(status, pending, syncs, syncNodes)
    {
      this.status, pending, syncs, syncNodes := status, false, map[], {};
    }

    ghost predicate Ok()
      reads this
    {
      StatusOk(status, pending, syncs, syncNodes)
    }

    ghost function Now(): View
      reads this
    {
      View(status, pending, syncs, syncNodes)
    }

    /** The counters cover this vnode's syncs and are within bounds. */
    ghost predicate Fits(stats: Stats)
      reads this`syncs, stats
    {
      forall d :: Count(syncs, d) <= stats.Of(d) <= stats.Max(d)
    }

    /** The part of the counter that belongs to the other vnodes. */
    ghost function Others(stats: Stats, d: Direction): int
      reads this`syncs, stats
    {
      stats.Of(d) - Count(syncs, d)
    }

    /** The preconditions are the assertions of set_status. */
    method SetStatus(new': Status)
      requires new' == Bootstrap && status != new' ==> !pending
      requires (new' == Bootstrap || new' == Absent) && status != new' ==> syncNodes == {}
      modifies this`status, this`pending
      ensures status == new' && pending == (old(pending) && old(status) == new')
    {
      if new' == status { return; }
      pending := false;
      status := new';
    }

    method Unregister(c: Cookie, stats: Stats)
      requires c in syncs && PeersOk(syncs, syncNodes) && Fits(stats)
      modifies this`syncs, this`syncNodes, stats
      ensures Now() == Without(old(Now()), {c}) && PeersOk(syncs, syncNodes)
      ensures Fits(stats) && forall d :: Others(stats, d) == old(Others(stats, d))
      ensures old(syncs)[c].Way() == Incoming ==> stats.incoming < stats.incomingMax
    {
      var sync := syncs[c];
      CountDrops(syncs, c, Incoming);
      CountDrops(syncs, c, Outgoing);
      assert PeersOf(syncs, {c}) == if sync.SyncReceiver? then {sync.peer} else {};
      syncs := syncs - {c};
      if sync.SyncReceiver? {
        syncNodes := syncNodes - {sync.peer};
      }
      forall p | p in syncNodes
        ensures SyncReceiver(p) in syncs.Values
      {
        var k :| k in old(syncs) && old(syncs)[k] == SyncReceiver(p);
        assert k in syncs && syncs[k] == SyncReceiver(p);
      }
      assert c in Cookies(old(syncs), sync.Way());
      stats.SignalSyncEnd(sync.Way());
    }

    method Register(c: Cookie, sync: Sync, stats: Stats) returns (ok: bool)
      requires c !in syncs && PeersOk(syncs, syncNodes) && Fits(stats)
      modifies this`syncs, stats
      ensures ok <==> old(stats.Of(sync.Way())) < stats.Max(sync.Way())
      ensures syncs == (if ok then old(syncs)[c := sync] else old(syncs)) && PeersOk(syncs, syncNodes)
      ensures Fits(stats) && forall d :: Others(stats, d) == old(Others(stats, d))
    {
      ok := stats.SignalSyncStart(sync.Way());
      if ok {
        CountAdds(syncs, c, sync, Incoming);
        CountAdds(syncs, c, sync, Outgoing);
        syncs := syncs[c := sync];
        forall p | p in syncNodes
          ensures SyncReceiver(p) in syncs.Values
        {
          var k :| k in old(syncs) && old(syncs)[k] == SyncReceiver(p);
          assert k in syncs && syncs[k] == SyncReceiver(p);
        }
      }
    }

    /** The assertions of start_bootstrap are preconditions here, met at every call. */
    method StartBootstrap(stats: Stats, env: Surroundings)
      requires status == Bootstrap && syncs == map[] && PeersOk(syncs, syncNodes) && Fits(stats)
      modifies this, stats
      ensures Now() == Booted(old(Now()), old(stats.incoming) < stats.incomingMax, env)
      ensures Ok() && Fits(stats) && forall d :: Others(stats, d) == old(Others(stats, d))
      decreases 1
    {
      NoPeers(syncs, syncNodes);
      pending := false;
      if env.peers == [] {
        HandleBootstrapResult(stats, Done, env);
        return;
      }
      var ok := Register(env.cookie, BootstrapReceiver, stats);
      if !ok {
        pending := true;
      }
    }

    method HandleBootstrapResult(stats: Stats, result: SyncResult, env: Surroundings)
      requires Ok() && status == Bootstrap && (result != Continue ==> syncs == map[]) && Fits(stats)
      modifies this, stats
      ensures result == Error ==> Now() == Booted(old(Now()), old(stats.incoming) < stats.incomingMax, env)
      ensures result == Done ==> Now() == Promoted(old(Now()), env) && status == if env.promoted then Ready else Absent
      ensures result == Continue ==> Now() == old(Now())
      ensures Ok() && Fits(stats) && forall d :: Others(stats, d) == old(Others(stats, d))
      decreases if result == Error then 2 else 0
    {
      match result
      case Error => StartBootstrap(stats, env);
      case Done =>
        NoPeers(syncs, syncNodes);
        SetStatus(if env.promoted then Ready else Absent);
      case Continue =>
    }

    method CancelIncoming(stats: Stats)
      requires PeersOk(syncs, syncNodes) && Fits(stats)
      modifies this`syncs, this`syncNodes, stats
      ensures Now() == Without(old(Now()), Cookies(old(syncs), Incoming))
      ensures syncNodes == {} && Cookies(syncs, Incoming) == {} && PeersOk(syncs, syncNodes)
      ensures Fits(stats) && forall d :: Others(stats, d) == old(Others(stats, d))
    {
      ghost var before, all := Now(), Cookies(syncs, Incoming);
      var rest := Cookies(syncs, Incoming);
      assert PeersOf(syncs, {}) == {} && syncs - {} == syncs;
      while rest != {}
        invariant rest == Cookies(syncs, Incoming) && rest <= all && PeersOk(syncs, syncNodes)
        invariant Now() == Without(before, all - rest)
        invariant Fits(stats) && forall d :: Others(stats, d) == old(Others(stats, d))
        decreases rest
      {
        var c :| c in rest;
        WithoutOneMore(before, all - rest, c);
        assert all - (rest - {c}) == all - rest + {c};
        Unregister(c, stats);
        rest := rest - {c};
      }
      assert all - {} == all;
      assert forall c :: c in syncs ==> c !in Cookies(syncs, Incoming);
      assert forall p :: SyncReceiver(p) !in syncs.Values;
    }

    /** The ring says whether the node should have this vnode (Ready) or not (Absent). */
    method HandlerDhtChange(stats: Stats, want: Status, env: Surroundings)
      requires Ok() && Fits(stats) && (want == Ready || want == Absent)
      modifies this, stats
      ensures Now() == Changed(old(Now()), want, old(stats.incoming) < stats.incomingMax, env)
      ensures Ok() && Fits(stats) && forall d :: Others(stats, d) == old(Others(stats, d))
    {
      if want == Absent {
        if status == Ready || status == Bootstrap {
          var was := status;
          CancelIncoming(stats);
          SetStatus(if was == Bootstrap then Absent else Zombie);
          assert was == Bootstrap ==> forall c :: c in syncs ==> c in Cookies(syncs, Incoming);
        }
      } else if status == Zombie {
        assert forall c :: c in syncs && syncs[c].BootstrapReceiver? ==> c in Cookies(syncs, Incoming);
        SetStatus(Ready);
      } else if status == Absent {
        NoPeers(syncs, syncNodes);
        SetStatus(Bootstrap);
        StartBootstrap(stats, env);
      } else if status == Bootstrap && pending {
        StartBootstrap(stats, env);
      }
    }

    /** ended are the syncs whose own tick reports an error; late says that the zombie timeout passed
        and no request is in flight. */
    method HandlerTick(stats: Stats, ended: set<Cookie>, late: bool, env: Surroundings, again: Surroundings)
      requires Ok() && Fits(stats) && ended <= syncs.Keys
      modifies this, stats
      ensures Now() == Ticked(old(Now()), ended, late, old(stats.incoming) < stats.incomingMax, env, again)
      ensures Ok() && Fits(stats) && forall d :: Others(stats, d) == old(Others(stats, d))
    {
      EndSyncs(stats, ended, env);
      assert old(status) == Zombie ==> syncs.Keys == old(syncs).Keys - ended;
      assert syncs == map[] <==> syncs.Keys == {};
      NothingLeft(old(syncs).Keys, ended);
      if pending {
        StartBootstrap(stats, again);
      } else if status == Zombie && syncs == map[] && late {
        NoPeers(syncs, syncNodes);
        SetStatus(Absent);
      }
    }

    method EndSyncs(stats: Stats, ended: set<Cookie>, env: Surroundings)
      requires Ok() && Fits(stats) && ended <= syncs.Keys
      modifies this, stats
      ensures Now() == if old(status) == Bootstrap && ended != {} then Booted(Without(old(Now()), ended), true, env)
                       else Without(old(Now()), ended)
      ensures ended == {} ==> Now() == old(Now()) && stats.incoming == old(stats.incoming)
      ensures Ok() && Fits(stats) && forall d :: Others(stats, d) == old(Others(stats, d))
    {
      ghost var before := Now();
      assert PeersOf(syncs, {}) == {} && syncs - {} == syncs;
      var rest := ended;
      while rest != {}
        invariant Ok() && Fits(stats) && rest <= ended && rest <= syncs.Keys
        invariant rest == ended ==> Now() == before && stats.incoming == old(stats.incoming)
        invariant rest != ended ==> Now() == if before.status == Bootstrap then Booted(Without(before, ended), true, env)
                                             else Without(before, ended - rest)
        invariant before.status == Bootstrap ==> rest == {} || rest == ended
        invariant forall d :: Others(stats, d) == old(Others(stats, d))
        decreases rest
      {
        var c :| c in rest;
        WithoutOneMore(before, ended - rest, c);
        assert ended - (rest - {c}) == ended - rest + {c};
        Unregister(c, stats);
        rest := rest - {c};
        if status == Bootstrap {
          assert syncs == map[] && ended == {c};
          HandleBootstrapResult(stats, Error, env);
        }
      }
      assert ended - {} == ended;
    }

    /** A peer asks for the data. Only a ready vnode or a recent zombie sends. */
    method HandlerSyncStart(stats: Stats, cookie: Cookie, sync: Sync, recent: bool)
      requires Ok() && Fits(stats) && sync.Way() == Outgoing
      modifies this, stats
      ensures Ok() && Fits(stats) && forall d :: Others(stats, d) == old(Others(stats, d))
      ensures status == old(status) && pending == old(pending) && syncNodes == old(syncNodes)
      ensures syncs == if (status == Ready || (status == Zombie && recent)) && cookie !in old(syncs)
                          && old(stats.outgoing) < stats.outgoingMax
                       then old(syncs)[cookie := sync] else old(syncs)
    {
      if !(status == Ready || (status == Zombie && recent)) { return; }
      if cookie !in syncs {
        var _ := Register(cookie, sync, stats);
      }
    }

    method HandlerSyncFin(stats: Stats, cookie: Cookie, fin: Fin, env: Surroundings)
      requires Ok() && Fits(stats)
      modifies this, stats
      ensures Now() == Finished(old(Now()), cookie, fin, env)
      ensures Ok() && Fits(stats) && forall d :: Others(stats, d) == old(Others(stats, d))
    {
      if status == Absent || cookie !in syncs { return; }
      var result := if syncs[cookie].Way() == Outgoing || fin == Success then Done
                    else if fin == NotReady then Continue else Error;
      if result != Continue {
        Unregister(cookie, stats);
      }
      if status == Bootstrap {
        assert result != Continue ==> syncs == map[];
        HandleBootstrapResult(stats, result, env);
      }
    }

    method StartSyncIfReady(stats: Stats, peers: seq<NodeId>, cookie: Cookie) returns (started: bool)
      requires Ok() && Fits(stats) && cookie !in syncs
      modifies this, stats
      ensures Ok() && Fits(stats) && status == old(status) && pending == old(pending)
      ensures forall d :: Others(stats, d) == old(Others(stats, d))
      ensures started <==> status == Ready && peers != [] && old(stats.incoming) < stats.incomingMax
      ensures started ==> exists p ::
        p in peers && syncs == old(syncs)[cookie := SyncReceiver(p)] && syncNodes == old(syncNodes) + {p}
      ensures !started ==> syncs == old(syncs) && syncNodes == old(syncNodes)
    {
      if status != Ready { return false; }
      for k := 0 to |peers|
        invariant Ok() && Fits(stats) && Now() == old(Now()) && stats.incoming == old(stats.incoming)
        invariant forall d :: Others(stats, d) == old(Others(stats, d))
        invariant k > 0 ==> stats.incoming >= stats.incomingMax
      {
        var ok := Register(cookie, SyncReceiver(peers[k]), stats);
        assert Others(stats, Incoming) == old(Others(stats, Incoming));
        if ok {
          assert syncs[cookie] == SyncReceiver(peers[k]);
          syncNodes := syncNodes + {peers[k]};
          return true;
        }
      }
      return false;
    }

    method HandleEvent(stats: Stats, e: Event)
      requires Ok() && Fits(stats) && Possible(status, syncs, e)
      modifies this, stats
      ensures Moves(old(Now()), e, old(stats.incoming) < stats.incomingMax, old(stats.outgoing) < stats.outgoingMax, Now())
      ensures Ok() && Fits(stats) && forall d :: Others(stats, d) == old(Others(stats, d))
    {
      match e {
        case Load(env) => StartBootstrap(stats, env);
        case DhtChange(want, env) => HandlerDhtChange(stats, want, env);
        case Tick(ended, late, env, again) => HandlerTick(stats, ended, late, env, again);
        case SyncStart(cookie, sync, recent) => HandlerSyncStart(stats, cookie, sync, recent);
        case SyncFin(cookie, fin, env) => HandlerSyncFin(stats, cookie, fin, env);
        case StartSync(peers, cookie) => var _ := StartSyncIfReady(stats, peers, cookie);
      }
    }
  }

  lemma NoPeers(syncs: Syncs, syncNodes: set<NodeId>)
    requires PeersOk(syncs, syncNodes) && syncs == map[]
    ensures syncNodes == {}
  {
    assert syncs.Values == {};
  }

  // ---------------------------------------------------------------- all vnodes

  type Views = map<VNodeId, View>

  ghost predicate AllOk(views: Views) {
    forall i :: i in views ==> StatusOk(views[i].status, views[i].pending, views[i].syncs, views[i].syncNodes)
  }

  lemma StillOk(views: Views, i: VNodeId, view: View)
    requires AllOk(views) && StatusOk(view.status, view.pending, view.syncs, view.syncNodes)
    ensures AllOk(views[i := view])
  {
  }

  ghost function CountIn(views: Views, d: Direction): VNodeId -> int {
    (i: VNodeId) => if i in views then Count(views[i].syncs, d) else 0
  }

  /** The registered syncs of all vnodes. */
  ghost function Total(views: Views, d: Direction): int {
    Sum(views.Keys, CountIn(views, d))
  }

  lemma TotalChanges(views: Views, i: VNodeId, view: View, d: Direction)
    requires i in views
    ensures Total(views[i := view], d) == Total(views, d) + Count(view.syncs, d) - Count(views[i].syncs, d)
  {
    var views' := views[i := view];
    assert views'.Keys == views.Keys;
    SumTakes(views.Keys, CountIn(views, d), i);
    SumTakes(views.Keys, CountIn(views', d), i);
    SumSame(views.Keys - {i}, CountIn(views', d), CountIn(views, d));
  }

  lemma TotalCovers(views: Views, i: VNodeId, d: Direction)
    requires i in views
    ensures Count(views[i].syncs, d) <= Total(views, d)
  {
    SumTakes(views.Keys, CountIn(views, d), i);
    SumNonNegative(views.Keys - {i}, CountIn(views, d));
  }

  /** The counters are exactly the registered syncs. */
  ghost predicate Agree(views: Views, incoming: nat, outgoing: nat) {
    incoming == Total(views, Incoming) && outgoing == Total(views, Outgoing)
  }

  lemma AgreeCovers(views: Views, i: VNodeId, incoming: nat, outgoing: nat)
    requires Agree(views, incoming, outgoing) && i in views
    ensures Count(views[i].syncs, Incoming) <= incoming && Count(views[i].syncs, Outgoing) <= outgoing
  {
    TotalCovers(views, i, Incoming);
    TotalCovers(views, i, Outgoing);
  }

  lemma AgreeChanges(views: Views, i: VNodeId, view: View,
                     incoming: nat, outgoing: nat, incoming': nat, outgoing': nat)
    requires Agree(views, incoming, outgoing) && i in views
    requires incoming' - Count(view.syncs, Incoming) == incoming - Count(views[i].syncs, Incoming)
    requires outgoing' - Count(view.syncs, Outgoing) == outgoing - Count(views[i].syncs, Outgoing)
    ensures Agree(views[i := view], incoming', outgoing')
  {
    TotalChanges(views, i, view, Incoming);
    TotalChanges(views, i, view, Outgoing);
  }

  lemma StaysValid(views: Views, i: VNodeId, view: View, incoming: nat, outgoing: nat, incoming': nat, outgoing': nat)
    requires AllOk(views) && Agree(views, incoming, outgoing) && i in views
    requires StatusOk(view.status, view.pending, view.syncs, view.syncNodes)
    requires incoming' - Count(view.syncs, Incoming) == incoming - Count(views[i].syncs, Incoming)
    requires outgoing' - Count(view.syncs, Outgoing) == outgoing - Count(views[i].syncs, Outgoing)
    ensures AllOk(views[i := view]) && Agree(views[i := view], incoming', outgoing')
  {
    StillOk(views, i, view);
    AgreeChanges(views, i, view, incoming, outgoing, incoming', outgoing');
  }

  ghost predicate IsNew(status: Status, pending: bool, syncs: Syncs, syncNodes: set<NodeId>) {
    status != Zombie && !pending && syncs == map[] && syncNodes == {}
  }

  lemma NoSyncs(views: Views, d: Direction)
    requires forall i :: i in views ==> views[i].syncs == map[]
    ensures Total(views, d) == 0
  {
    assert Cookies(map[], d) == {};
    SumSame(views.Keys, CountIn(views, d), (i: VNodeId) => 0);
    SumOfZeros(views.Keys);
  }

  lemma {:induction false} SumOfZeros(ids: set<VNodeId>)
    ensures Sum(ids, (i: VNodeId) => 0) == 0
  {
    if ids != {} {
      var n :| n in ids;
      SumTakes(ids, (i: VNodeId) => 0, n);
      SumOfZeros(ids - {n});
    }
  }

  class Database {
    var vnodes: map<VNodeId, VNode>
    var stats: Stats

    ghost function All(): Views
      reads this, vnodes.Values
    {
      map i | i in vnodes :: vnodes[i].Now()
    }

    ghost predicate Distinct()
      reads this
    {
      forall i, k :: i in vnodes && k in vnodes && vnodes[i] == vnodes[k] ==> i == k
    }

    /** Every vnode is ok and the counters are exactly the registered syncs, within their bounds. */
    ghost predicate Valid()
      reads this, stats, vnodes.Values
    {
      && Distinct()
      && AllOk(All())
      && Agree(All(), stats.incoming, stats.outgoing)
      && stats.incoming <= stats.incomingMax && stats.outgoing <= stats.outgoingMax
    }

    /** From new vnodes. Those in Bootstrap start it next. */
    constructor (vnodes: map<VNodeId, VNode>, incomingMax: nat, outgoingMax: nat)
      requires forall i, k :: i in vnodes && k in vnodes && vnodes[i] == vnodes[k] ==> i == k
      requires forall i :: i in vnodes ==> IsNew(vnodes[i].status, vnodes[i].pending, vnodes[i].syncs, vnodes[i].syncNodes)
      ensures Valid() && fresh(stats) && this.vnodes == vnodes
    {
      this.vnodes := vnodes;
      stats := new Stats(incomingMax, outgoingMax);
      new;
      NoSyncs(All(), Incoming);
      NoSyncs(All(), Outgoing);
    }

    method Dispatch(i: VNodeId, e: Event)
      requires Distinct() && i in vnodes && Possible(vnodes[i].status, vnodes[i].syncs, e)
      requires vnodes[i].Ok() && vnodes[i].Fits(stats)
      modifies stats, vnodes[i]
      ensures vnodes[i].Ok() && vnodes[i].Fits(stats) && All() == old(All())[i := vnodes[i].Now()]
      ensures Moves(old(vnodes[i].Now()), e, old(stats.incoming) < stats.incomingMax,
                    old(stats.outgoing) < stats.outgoingMax, vnodes[i].Now())
      ensures forall d :: vnodes[i].Others(stats, d) == old(vnodes[i].Others(stats, d))
    {
      vnodes[i].HandleEvent(stats, e);
    }

    /** Whatever happens, in whatever order, no assertion fails and no counter underflows. */
    method Handle(i: VNodeId, e: Event)
      requires Valid() && i in vnodes && Possible(vnodes[i].status, vnodes[i].syncs, e)
      modifies stats, vnodes[i]
      ensures Valid() && All() == old(All())[i := vnodes[i].Now()]
      ensures Moves(old(All())[i], e, old(stats.incoming) < stats.incomingMax, old(stats.outgoing) < stats.outgoingMax, All()[i])
    {
      ghost var before, vnode := All(), vnodes[i];
      assert before[i] == vnode.Now();
      AgreeCovers(before, i, stats.incoming, stats.outgoing);
      ghost var mine := before[i].syncs;
      Dispatch(i, e);
      assert vnode.Others(stats, Incoming) == old(stats.incoming) - Count(mine, Incoming);
      assert vnode.Others(stats, Outgoing) == old(stats.outgoing) - Count(mine, Outgoing);
      StaysValid(before, i, vnode.Now(), old(stats.incoming), old(stats.outgoing), stats.incoming, stats.outgoing);
    }
  }
}
