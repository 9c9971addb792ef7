/** Who tells whom what in a sync or a bootstrap, message by message (src/vnode_sync.rs:152-307, 356-460,
    530-615, src/vnode.rs:648-681). */
module SyncEffects {
  import opened Clocks
  import opened Replicas
  import opened Protocol

  /** A ready replica tells its peer what its clock has; one that is not asks for everything. */
  lemma Asks(s: System, n: Id, peer: Id, cookie: Cookie) returns (msg: Msg)
    requires Allowed(s, OpenSync(n, peer, cookie))
    ensures msg in Apply(s, OpenSync(n, peer, cookie)).net
    ensures msg.SyncStart? && msg.to == peer && msg.from == n && msg.cookie == cookie && msg.bootstrap == !s.replicas[n].ready
    ensures forall d: Dot :: Has(msg.inPeer, d) <==> s.replicas[n].ready && Has(s.replicas[n].state.clock, d)
  {
    var inPeer := if s.replicas[n].ready then s.replicas[n].state.clock else map[];
    msg := SyncStart(peer, n, cookie, !s.replicas[n].ready, inPeer);
  }

  /** Nobody but a ready replica coordinates a write or serves a sync; none serves a session under way again,
      and messages of a session that is not under way do nothing. */
  lemma Refuses(s: System, a: Action)
    requires Allowed(s, a)
    ensures a.ClientWrite? || a.FailedWrite? ==> a.n in s.replicas && s.replicas[a.n].ready
    ensures a.DeliverStart? ==> a.msg.to in s.replicas && s.replicas[a.msg.to].ready && !HasSync(s, a.msg.to, a.msg.cookie)
    ensures a.DeliverSend? || a.DeliverFin? ==> IsReceiver(s, a.msg.to, a.msg.cookie)
    ensures a.DeliverAck? ==> IsSender(s, a.msg.to, a.msg.cookie)
    ensures a.OpenSync? ==> a.n != a.peer && a.cookie !in s.sessions
  {
  }

  /** The sender that a start message brings about. */
  ghost function Served(s: System, msg: Msg, ids: seq<Id>): Sync
    requires Allowed(s, DeliverStart(msg, ids))
  {
    Apply(s, DeliverStart(msg, ids)).replicas[msg.to].syncs[msg.cookie]
  }

  /** A bootstrap sender has all keys to send, as they are now, and claims all its clock has. */
  lemma OffersAll(s: System, msg: Msg, ids: seq<Id>)
    requires Allowed(s, DeliverStart(msg, ids)) && msg.bootstrap
    ensures var sync, st := Served(s, msg, ids), s.replicas[msg.to].state;
            && sync.Sender? && sync.peer == msg.from && sync.inflight == map[] && sync.pending.Snapshot?
            && (forall k :: k in sync.pending.rest <==> k in st.store)
            && (forall k :: k in st.store ==> sync.pending.rest[k] == st.store[k])
            && forall d: Dot :: Has(sync.clocks, d) <==> Has(st.clock, d)
  {
  }

  /** A sync sender has to send the dots of all nodes that its clock has and the peer's has not, unless the
      peer's interval of that node is longer, and claims those of its own node. */
  lemma OffersMissing(s: System, msg: Msg, ids: seq<Id>, d: Dot)
    requires Allowed(s, DeliverStart(msg, ids)) && !msg.bootstrap && d.version != 0
    ensures var sync, st := Served(s, msg, ids), s.replicas[msg.to].state;
            && sync.Sender? && sync.peer == msg.from && sync.inflight == map[] && sync.pending.Keys? && sync.pending.keys == {}
            && (d in sync.pending.dots ==> Has(st.clock, d) && !Has(msg.inPeer, d))
            && (Has(st.clock, d) && !Has(msg.inPeer, d) && Slice(msg.inPeer, d.id).base <= Slice(st.clock, d.id).base ==>
                  d in sync.pending.dots)
            && (Has(sync.clocks, d) <==> d.id == msg.to && Has(st.clock, d))
  {
    var st := s.replicas[msg.to].state;
    ClockDeltaMembers(st.clock, msg.inPeer, ids);
    DeltaIsDifference(Slice(st.clock, d.id), Slice(msg.inPeer, d.id));
  }

  /** What is sent for a key is what it reads as, or what it was when the snapshot was taken; it is in flight
      under the number it was sent with. */
  lemma Tells(s: System, n: Id, cookie: Cookie, key: Key)
    requires Allowed(s, SendKey(n, cookie, key))
    ensures var s', sync := Apply(s, SendKey(n, cookie, key)), s.replicas[n].syncs[cookie];
            var cube := if sync.pending.Snapshot? then sync.pending.rest[key] else Get(s.replicas[n].state, key);
            && SyncSend(sync.peer, n, cookie, sync.count, key, cube) in s'.net && HasSync(s', n, cookie)
            && var sync' := s'.replicas[n].syncs[cookie];
               && sync'.Sender? && sync'.count > sync.count && sync'.inflight == sync.inflight[sync.count := (key, cube)]
               && !CanSend(sync'.pending, key)
               && forall k :: k != key ==> (CanSend(sync'.pending, k) <==> CanSend(sync.pending, k))
  {
  }

  /** Every cube that arrives is acknowledged to who sent it, by its number. */
  lemma Acknowledges(s: System, msg: Msg)
    requires Allowed(s, DeliverSend(msg))
    ensures SyncAck(msg.from, msg.cookie, msg.number) in Apply(s, DeliverSend(msg)).net
  {
  }

  /** A fin that arrives brings its clock, ends the session, makes a bootstrapped replica ready, and goes back
      to its sender. */
  lemma Concludes(s: System, msg: Msg, d: Dot)
    requires Allowed(s, DeliverFin(msg)) && NormalClock(msg.clocks) && NormalClock(s.replicas[msg.to].state.clock)
    ensures var s' := Apply(s, DeliverFin(msg));
            && SyncFin(msg.from, msg.to, msg.cookie, msg.clocks) in s'.net
            && msg.to in s'.replicas && !HasSync(s', msg.to, msg.cookie)
            && (Has(s'.replicas[msg.to].state.clock, d) <==> Has(s.replicas[msg.to].state.clock, d) || Has(msg.clocks, d))
            && s'.replicas[msg.to].state.store == s.replicas[msg.to].state.store
            && s'.replicas[msg.to].ready == (s.replicas[msg.to].ready || s.replicas[msg.to].syncs[msg.cookie].bootstrap)
  {
    ClockMergeUnites(s.replicas[msg.to].state.clock, msg.clocks);
  }
}
