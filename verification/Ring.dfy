/** The ring and its operations (src/dht.rs:97-615). Version vectors are not part of this model. */
module Rings {
  import opened Basics
  import opened RingLoads

  function Retire(owners: Owners, n: NodeId): Owners {
    if n in owners then owners[n := Retiring] else owners
  }

  function Replaced(owners: Owners, gone: NodeId, n: NodeId): Owners {
    if gone in owners then (owners - {gone})[n := owners[gone]] else owners
  }

  /** The upper half of a node id names the machine. */
  function Physical(n: NodeId): nat {
    n / 0x1_0000_0000
  }

  function ValidOn(nodes: map<NodeId, Node>, physical: nat): set<NodeId> {
    set n | n in nodes && Physical(n) == physical && nodes[n].status == Valid
  }

  /** A node that joins again keeps its status. */
  function NodeJoined(nodes: map<NodeId, Node>, n: NodeId, info: string): map<NodeId, Node> {
    nodes[n := Node(info, if n in nodes then nodes[n].status else Valid)]
  }

  predicate CanJoin(nodes: map<NodeId, Node>, n: NodeId, info: string) {
    (n in nodes && nodes[n].info == info) || |ValidOn(NodeJoined(nodes, n, info), Physical(n))| <= 1
  }

  function Marked(nodes: map<NodeId, Node>, n: NodeId, status: NodeStatus): map<NodeId, Node> {
    if n in nodes then nodes[n := nodes[n].(status := status)] else nodes
  }

  function NodeReplaced(nodes: map<NodeId, Node>, gone: NodeId, n: NodeId, info: string): map<NodeId, Node> {
    Marked(nodes[n := Node(info, Valid)], gone, Invalid)
  }

  /** replace_node looks for the old node after it has put in the new one. */
  predicate CanReplace(nodes: map<NodeId, Node>, gone: NodeId, n: NodeId, info: string) {
    n !in nodes && (gone in nodes || gone == n) && |ValidOn(NodeReplaced(nodes, gone, n, info), Physical(n))| <= 1
  }

  /** n owns the vnode; the last pending owner to be promoted sends the retiring ones away. */
  ghost predicate Promoted(owners: Owners, owners': Owners, n: NodeId)
    requires n in owners
  {
    && Active(owners') == Active(owners) && n in owners' && owners'[n] == Owner
    && (forall k :: k in owners' ==> k in owners && (k == n || owners'[k] == owners[k]))
    && (owners[n] == Pending ==> owners'.Keys == if Pending in owners'.Values then owners.Keys else Active(owners))
  }

  /** No machine runs two valid nodes. */
  ghost predicate OnePerMachine(nodes: map<NodeId, Node>) {
    forall n, k :: n in ValidNodes(nodes) && k in ValidNodes(nodes) && Physical(n) == Physical(k) ==> n == k
  }

  /** Vnodes per node, rounded up. */
  function Ceiling(a: nat, b: nat): (r: nat)
    requires b > 0
  {
    (a + b - 1) / b
  }

  lemma CeilingCovers(a: nat, b: nat)
    requires b > 0
    ensures a <= b * Ceiling(a, b)
  {
    var x := a + b - 1;
    assert x == b * (x / b) + x % b;
  }

  /** A vnode's owner above the limit stays its owner only where every node below the limit owns it
      too, or is retiring from it. */
  ghost predicate Shed(owners: Owners, m: NodeMap, limit: nat) {
    forall f, t :: f in m && t in m && |m[f]| > limit > |m[t]| && f in Active(owners) ==> t in owners
  }

  /** Loads above the limit went down, no further than to it; the others up, no further either. */
  ghost predicate Shifted(m: NodeMap, m': NodeMap, limit: nat) {
    && m'.Keys == m.Keys
    && forall n :: n in m ==> if |m[n]| > limit then limit <= |m'[n]| <= |m[n]| else |m[n]| <= |m'[n]| <= limit
  }

  /** Whoever is retiring now was retiring before or is not below the limit. */
  ghost predicate RetiredFull(owners: Owners, owners': Owners, m: NodeMap, limit: nat) {
    forall n :: n in m && n in owners' && owners'[n] == Retiring && |m[n]| < limit
      ==> n in owners && owners[n] == Retiring
  }

  lemma ShiftedTrans(m: NodeMap, m1: NodeMap, m2: NodeMap, limit: nat)
    requires Shifted(m, m1, limit) && Shifted(m1, m2, limit)
    ensures Shifted(m, m2, limit)
  {
  }

  lemma ShiftKeeps(owners: Owners, owners': Owners, m: NodeMap, m': NodeMap, limit: nat)
    requires Shifted(m, m', limit)
    ensures Shed(owners, m, limit) ==> Shed(owners, m', limit)
    ensures RetiredFull(owners, owners', m, limit) ==> RetiredFull(owners, owners', m', limit)
  {
  }

  /** Nobody is dropped, only valid nodes are added; who had the data still counts as having it, and
      nobody becomes an owner who had not. */
  ghost predicate Kept(owners: Owners, owners': Owners, valid: set<NodeId>) {
    && owners.Keys <= owners'.Keys <= owners.Keys + valid
    && (forall n :: n in owners && owners[n] != Pending ==> owners'[n] != Pending)
    && (forall n :: n in owners' && owners'[n] == Owner ==> n in owners && owners[n] != Pending)
  }

  /** Only valid nodes are added, as pending ones, and retiring ones made owners again. */
  ghost predicate Filled(owners: Owners, owners': Owners, valid: set<NodeId>) {
    && owners.Keys <= owners'.Keys <= owners.Keys + valid
    && (forall n :: n in owners' && n !in owners ==> owners'[n] == Pending)
    && (forall n :: n in owners ==> owners'[n] == owners[n] || (owners[n] == Retiring && owners'[n] == Owner))
  }

  /** Owners above the limit retire, others stay, and nodes below it are added as pending ones. */
  ghost predicate Handed(owners: Owners, owners': Owners, m: NodeMap, limit: nat) {
    && owners.Keys <= owners'.Keys <= owners.Keys + m.Keys
    && (forall n :: n in owners' && n !in owners ==> owners'[n] == Pending && |m[n]| < limit)
    && (forall n :: n in owners ==> owners'[n] == owners[n] || (owners'[n] == Retiring && n in m && |m[n]| > limit))
  }

  lemma HandedKept(owners: Owners, owners': Owners, m: NodeMap, limit: nat)
    requires Handed(owners, owners', m, limit)
    ensures Kept(owners, owners', m.Keys)
  {
  }

  lemma HandedToNobody(owners: Owners, owners': Owners, m: NodeMap, limit: nat)
    requires Handed(owners, owners', m, limit) && |Active(owners')| == |Active(owners)| && m.Keys <= owners.Keys
    ensures owners' == owners
  {
    SubsetSame(Active(owners'), Active(owners));
    assert owners'.Keys == owners.Keys;
    forall n | n in owners
      ensures owners'[n] == owners[n]
    {
      assert n in Active(owners) <==> n in Active(owners');
    }
  }

  lemma FilledThenKept(owners: Owners, owners': Owners, owners'': Owners, valid: set<NodeId>)
    requires Filled(owners, owners', valid) && Kept(owners', owners'', valid)
    ensures Kept(owners, owners'', valid)
  {
  }

  lemma KeptOk(owners: Owners, owners': Owners, nodes: map<NodeId, Node>, rf: nat)
    requires OwnersOk(owners, nodes, rf) && Kept(owners, owners', ValidNodes(nodes))
    requires Active(owners') <= ValidNodes(nodes) && |Active(owners')| <= rf
    ensures OwnersOk(owners', nodes, rf)
  {
  }

  /** In the middle of sharing out a vnode: the givers and takers left are as they were, and all
      other owners above the limit and other nodes below it have swapped. */
  ghost predicate Sharing(owners: Owners, m: NodeMap, m': NodeMap, limit: nat, givers: set<NodeId>, takers: set<NodeId>) {
    && givers <= Active(owners) && takers <= m.Keys && m'.Keys == m.Keys
    && (forall n :: n in givers ==> n in m && m'[n] == m[n] && |m[n]| > limit)
    && (forall n :: n in takers ==> n !in owners && m'[n] == m[n] && |m[n]| < limit)
    && (forall n :: n in m && n in Active(owners) && |m[n]| > limit ==> n in givers)
    && (forall n :: n in m && n !in owners && |m[n]| < limit ==> n in takers)
  }

  function Swapped(owners: Owners, giver: NodeId, taker: NodeId): Owners {
    With(With(owners, taker, Pending), giver, Retiring)
  }

  /** One vnode less for the giver, one more for the taker. */
  ghost predicate Moved(m: NodeMap, m': NodeMap, giver: NodeId, taker: NodeId)
    requires giver in m && taker in m
  {
    && m'.Keys == m.Keys && |m'[giver]| == |m[giver]| - 1 && |m'[taker]| == |m[taker]| + 1
    && forall n :: n in m && n != giver && n != taker ==> m'[n] == m[n]
  }

  lemma SwapOk(vnodes: seq<Owners>, m: NodeMap, v: nat, giver: NodeId, taker: NodeId)
    requires v < |vnodes| && Inverse(vnodes, m) && giver in Active(vnodes[v]) && taker in m && taker !in vnodes[v]
    ensures v in m[giver] && v !in m[taker]
    ensures |Active(Swapped(vnodes[v], giver, taker))| == |Active(vnodes[v])|
    ensures var m' := m[giver := m[giver] - {v}][taker := m[taker] + {v}];
            Inverse(vnodes[v := Swapped(vnodes[v], giver, taker)], m') && Moved(m, m', giver, taker)
  {
    Joined(vnodes, m, v, taker, Pending);
    var vnodes1, m1 := vnodes[v := With(vnodes[v], taker, Pending)], m[taker := m[taker] + {v}];
    Retired(vnodes1, m1, v, giver);
    UpdateTwice(vnodes, v, vnodes1[v], Swapped(vnodes[v], giver, taker));
    UpdatesCommute(m, giver, m[giver] - {v}, taker, m[taker] + {v});
  }

  lemma SharingStep(owners: Owners, m: NodeMap, m': NodeMap, m'': NodeMap, limit: nat,
                    givers: set<NodeId>, takers: set<NodeId>, giver: NodeId, taker: NodeId)
    requires Sharing(owners, m, m', limit, givers, takers) && giver in givers && taker in takers
    requires Moved(m', m'', giver, taker)
    ensures Sharing(Swapped(owners, giver, taker), m, m'', limit, givers - {giver}, takers - {taker})
  {
    assert Active(Swapped(owners, giver, taker)) == Active(owners) - {giver} + {taker};
  }

  lemma SwapKeeps(owners: Owners, owners': Owners, m: NodeMap, limit: nat, giver: NodeId, taker: NodeId)
    requires Handed(owners, owners', m, limit) && giver in owners && giver in m && |m[giver]| > limit
    requires taker in m.Keys - owners'.Keys && |m[taker]| < limit
    ensures Handed(owners, Swapped(owners', giver, taker), m, limit)
  {
  }

  lemma SwapShifts(owners: Owners, owners': Owners, m: NodeMap, m': NodeMap, m'': NodeMap, limit: nat,
                   giver: NodeId, taker: NodeId)
    requires Shifted(m, m', limit) && RetiredFull(owners, owners', m', limit)
    requires giver in m && taker in m && Moved(m', m'', giver, taker)
    requires m'[giver] == m[giver] && m'[taker] == m[taker] && |m[giver]| > limit > |m[taker]|
    ensures Shifted(m, m'', limit) && RetiredFull(owners, Swapped(owners', giver, taker), m'', limit)
  {
  }

  lemma SharingStart(owners: Owners, m: NodeMap, limit: nat, givers: set<NodeId>, takers: set<NodeId>)
    requires Active(owners) <= m.Keys
    requires givers == set n | n in owners && owners[n] != Retiring && |m[n]| > limit
    requires takers == set n | n in m && |m[n]| < limit && n !in owners
    ensures Sharing(owners, m, m, limit, givers, takers)
  {
  }

  lemma SharingEnd(owners: Owners, m: NodeMap, m': NodeMap, limit: nat, givers: set<NodeId>, takers: set<NodeId>)
    requires Sharing(owners, m, m', limit, givers, takers) && Shifted(m, m', limit) && (givers == {} || takers == {})
    ensures Shed(owners, m', limit)
  {
  }

  lemma HeldGrows(vnodes: seq<Owners>, v: nat, n: NodeId)
    requires v < |vnodes|
    ensures |Held(vnodes, v + 1, n)| == |Held(vnodes, v, n)| + if n in Active(vnodes[v]) then 1 else 0
  {
    HeldNext(vnodes, v);
    assert v !in Held(vnodes, v, n);
  }

  lemma HeldNext(vnodes: seq<Owners>, v: nat)
    requires v < |vnodes|
    ensures forall n :: Held(vnodes, v + 1, n) == Held(vnodes, v, n) + if n in Active(vnodes[v]) then {v} else {}
  {
  }

  /** The given nodes own the vnode: with status, unless they did before. */
  function Everyone(owners: Owners, valid: set<NodeId>, status: Ownership): Owners {
    map n | n in owners.Keys + valid ::
      if n in valid && (n !in owners || owners[n] == Retiring) then status else owners[n]
  }

  lemma EveryoneMore(owners: Owners, valid: set<NodeId>, n: NodeId, status: Ownership)
    requires n !in valid
    ensures var r := Everyone(owners, valid, status);
            Everyone(owners, valid + {n}, status) == if n !in r || r[n] == Retiring then r[n := status] else r
  {
  }

  lemma EveryoneOwns(owners: Owners, nodes: map<NodeId, Node>, rf: nat, status: Ownership)
    requires OwnersOk(owners, nodes, rf) && |ValidNodes(nodes)| <= rf && status != Retiring
    ensures var owners' := Everyone(owners, ValidNodes(nodes), status);
            OwnersOk(owners', nodes, rf) && Active(owners') == ValidNodes(nodes) && owners.Keys <= owners'.Keys
  {
    assert Active(Everyone(owners, ValidNodes(nodes), status)) == ValidNodes(nodes);
  }

  function Min(a: nat, b: nat): nat {
    if a < b then a else b
  }

  /** A retiring node is made an owner again only where every valid node is among the owners. */
  ghost predicate LastResort(owners: Owners, owners': Owners, valid: set<NodeId>) {
    forall n :: n in owners && n in owners' && owners'[n] != owners[n] ==> valid <= owners'.Keys
  }

  /** What the first pass leaves of a vnode: nothing changes where nobody is missing. */
  ghost predicate Completed(owners: Owners, owners': Owners, valid: set<NodeId>, rf: nat) {
    && |Active(owners')| == rf && Filled(owners, owners', valid) && LastResort(owners, owners', valid)
    && (|Active(owners)| == rf ==> owners' == owners)
  }

  /** What the second pass leaves of it: as many owners, new ones pending; where every valid node owns
      it or is retiring from it, it has nobody to go to. */
  ghost predicate HandedOn(owners: Owners, owners': Owners, valid: set<NodeId>) {
    && |Active(owners')| == |Active(owners)| && Kept(owners, owners', valid)
    && (forall n :: n in owners' && n !in owners ==> owners'[n] == Pending)
    && (valid <= owners.Keys ==> owners' == owners)
  }

  ghost predicate PassedOn(owners: Owners, owners': Owners, m: NodeMap, limit: nat) {
    HandedOn(owners, owners', m.Keys) && Shed(owners', m, limit) && RetiredFull(owners, owners', m, limit)
  }

  /** What both leave of it. */
  ghost predicate Rebuilt(owners: Owners, owners': Owners, valid: set<NodeId>, rf: nat) {
    exists complete :: Completed(owners, complete, valid, rf) && HandedOn(complete, owners', valid)
  }

  /** Every valid node that is retiring before has at least this load after. */
  ghost predicate RetireLoaded(before: seq<Owners>, after: seq<Owners>, valid: set<NodeId>, load: nat) {
    forall v, n :: 0 <= v < |before| && n in valid && n in before[v] && before[v][n] == Retiring ==> Load(after, n) >= load
  }

  /** Nobody's load falls below the limit. */
  ghost predicate LoadsHold(before: seq<Owners>, after: seq<Owners>, valid: set<NodeId>, limit: nat) {
    forall n :: n in valid ==> Load(after, n) >= Min(Load(before, n), limit)
  }

  /** Every vnode has all its replicas and no node has too many vnodes. */
  ghost predicate Balanced(vnodes: seq<Owners>, replicas: nat, most: nat) {
    && (forall v :: 0 <= v < |vnodes| ==> |Active(vnodes[v])| == replicas)
    && (forall n :: Load(vnodes, n) <= most)
  }

  /** The load is_valid accepts. */
  function MostLoad(total: nat, count: nat): nat
    requires count > 0
  {
    Ceiling(total, count) + total % count
  }

  /** The replicas of all vnodes together. */
  function Replicas(vnodes: seq<Owners>, rf: nat): nat {
    |vnodes| * rf
  }

  /** What rebalance makes of the vnodes, and when it takes that for valid. Where no valid node that was
      retiring ends below its share, every node ends with at most its share. */
  ghost predicate Rebalanced(before: seq<Owners>, after: seq<Owners>, nodes: map<NodeId, Node>, rf: nat, ok: bool) {
    && |after| == |before|
    && if |ValidNodes(nodes)| <= rf then
         ok && forall v :: 0 <= v < |after| ==>
           after[v] == Everyone(before[v], ValidNodes(nodes), if |nodes| == 1 then Owner else Pending)
       else RebalancedMany(before, after, ValidNodes(nodes), rf, ok)
  }

  ghost predicate RebalancedMany(before: seq<Owners>, after: seq<Owners>, valid: set<NodeId>, rf: nat, ok: bool)
    requires |after| == |before| && |valid| > 0
  {
    && (forall v :: 0 <= v < |after| ==> Rebuilt(before[v], after[v], valid, rf))
    && (ok <==> Balanced(after, rf, MostLoad(Replicas(after, rf), |valid|)))
    && LoadsHold(before, after, valid, Ceiling(Replicas(after, rf), |valid|))
    && (RetireLoaded(before, after, valid, Ceiling(Replicas(after, rf), |valid|)) ==>
          ok && Balanced(after, rf, Ceiling(Replicas(after, rf), |valid|)))
  }

  /** Rebalance succeeds from every ring in which the valid nodes that are retiring somewhere have their
      share of other vnodes, so from every ring in which none is. */
  lemma RebalanceSucceeds(before: seq<Owners>, after: seq<Owners>, nodes: map<NodeId, Node>, rf: nat, ok: bool)
    requires Rebalanced(before, after, nodes, rf, ok) && |ValidNodes(nodes)| > rf
    requires RetireLoaded(before, before, ValidNodes(nodes), Ceiling(Replicas(before, rf), |ValidNodes(nodes)|))
    ensures ok && Balanced(after, rf, Ceiling(Replicas(after, rf), |ValidNodes(nodes)|))
  {
    var valid, limit := ValidNodes(nodes), Ceiling(Replicas(before, rf), |ValidNodes(nodes)|);
    forall v, n | 0 <= v < |before| && n in valid && n in before[v] && before[v][n] == Retiring
      ensures Load(after, n) >= limit
    {
      assert Load(before, n) >= limit;
    }
  }

  lemma FilledHolds(before: seq<Owners>, complete: seq<Owners>, valid: set<NodeId>, n: NodeId)
    requires |complete| == |before| && forall v :: 0 <= v < |before| ==> Filled(before[v], complete[v], valid)
    ensures Load(complete, n) >= Load(before, n)
  {
    Subset(Held(before, |before|, n), Held(complete, |complete|, n));
  }

  lemma LoadsHeld(before: seq<Owners>, complete: seq<Owners>, vnodes: seq<Owners>, m: NodeMap, m': NodeMap, limit: nat)
    requires |before| == |complete| == |vnodes| && Inverse(complete, m) && Inverse(vnodes, m') && Shifted(m, m', limit)
    requires forall v :: 0 <= v < |before| ==> Filled(before[v], complete[v], m.Keys)
    ensures LoadsHold(before, vnodes, m.Keys, limit)
  {
    forall n | n in m ensures Load(vnodes, n) >= Min(Load(before, n), limit) {
      FilledHolds(before, complete, m.Keys, n);
    }
  }

  /** Who is below the limit and retiring has been retiring before. */
  lemma RetiredBefore(owners: Owners, complete: Owners, owners': Owners, m: NodeMap, rf: nat, limit: nat, n: NodeId)
    requires Completed(owners, complete, m.Keys, rf) && PassedOn(complete, owners', m, limit)
    requires n in m && n in owners' && |m[n]| < limit && owners'[n] == Retiring
    ensures n in owners && owners[n] == Retiring
  {
  }

  /** Nobody below the limit is retiring. */
  ghost predicate NoneBelowRetires(vnodes: seq<Owners>, m: NodeMap, limit: nat) {
    forall v, t :: 0 <= v < |vnodes| && t in m && t in vnodes[v] && |m[t]| < limit ==> vnodes[v][t] != Retiring
  }

  lemma LoadedBelow(before: seq<Owners>, complete: seq<Owners>, vnodes: seq<Owners>, m: NodeMap, rf: nat, limit: nat)
    requires |before| == |complete| == |vnodes| && RetireLoaded(before, vnodes, m.Keys, limit) && Inverse(vnodes, m)
    requires forall v :: 0 <= v < |vnodes| ==> Completed(before[v], complete[v], m.Keys, rf)
    requires forall v :: 0 <= v < |vnodes| ==> PassedOn(complete[v], vnodes[v], m, limit)
    ensures NoneBelowRetires(vnodes, m, limit)
  {
    forall v, t | 0 <= v < |vnodes| && t in m && t in vnodes[v] && |m[t]| < limit
      ensures vnodes[v][t] != Retiring
    {
      if vnodes[v][t] == Retiring {
        RetiredBefore(before[v], complete[v], vnodes[v], m, rf, limit, t);
        IsLoaded(before, vnodes, m, limit, v, t);
      }
    }
  }

  lemma IsLoaded(before: seq<Owners>, vnodes: seq<Owners>, m: NodeMap, limit: nat, v: nat, n: NodeId)
    requires RetireLoaded(before, vnodes, m.Keys, limit) && Inverse(vnodes, m)
    requires v < |before| && n in m && n in before[v] && before[v][n] == Retiring
    ensures |m[n]| >= limit
  {
    assert m[n] == Held(vnodes, |vnodes|, n);
  }

  lemma AllBalanced(vnodes: seq<Owners>, m: NodeMap, rf: nat, limit: nat)
    requires Inverse(vnodes, m) && |vnodes| * rf <= |m| * limit && NoneBelowRetires(vnodes, m, limit)
    requires forall v :: 0 <= v < |vnodes| ==> |Active(vnodes[v])| == rf && Shed(vnodes[v], m, limit)
    ensures Balanced(vnodes, rf, limit)
  {
    forall n
      ensures Load(vnodes, n) <= limit
    {
      if n in m {
        ShedIsBalanced(vnodes, m, rf, limit, n);
      } else {
        assert Held(vnodes, |vnodes|, n) == {};
      }
    }
  }

  lemma LoadedIsBalanced(before: seq<Owners>, complete: seq<Owners>, vnodes: seq<Owners>, m: NodeMap, rf: nat, limit: nat)
    requires |before| == |complete| == |vnodes| && RetireLoaded(before, vnodes, m.Keys, limit)
    requires Inverse(vnodes, m) && |vnodes| * rf <= |m| * limit
    requires forall v :: 0 <= v < |vnodes| ==> Completed(before[v], complete[v], m.Keys, rf)
    requires forall v :: 0 <= v < |vnodes| ==> PassedOn(complete[v], vnodes[v], m, limit)
    ensures Balanced(vnodes, rf, limit)
  {
    LoadedBelow(before, complete, vnodes, m, rf, limit);
    AllBalanced(vnodes, m, rf, limit);
  }

  function CountOf(load: map<NodeId, nat>, n: NodeId): nat {
    if n in load then load[n] else 0
  }

  ghost predicate Counted(vnodes: seq<Owners>, k: nat, load: map<NodeId, nat>)
    requires k <= |vnodes|
  {
    forall n :: |Held(vnodes, k, n)| == CountOf(load, n)
  }

  lemma CountedNext(vnodes: seq<Owners>, k: nat, load: map<NodeId, nat>, load': map<NodeId, nat>)
    requires k < |vnodes| && Counted(vnodes, k, load)
    requires forall n :: CountOf(load', n) == CountOf(load, n) + if n in Active(vnodes[k]) then 1 else 0
    ensures Counted(vnodes, k + 1, load')
  {
    HeldNext(vnodes, k);
  }

  method CountIn(ids: set<NodeId>, load: map<NodeId, nat>) returns (load': map<NodeId, nat>)
    ensures forall n :: CountOf(load', n) == CountOf(load, n) + if n in ids then 1 else 0
  {
    load' := load;
    var rest := ids;
    while rest != {}
      invariant rest <= ids
      invariant forall n :: CountOf(load', n) == CountOf(load, n) + if n in ids - rest then 1 else 0
    {
      var n :| n in rest;
      rest := rest - {n};
      load' := load'[n := CountOf(load', n) + 1];
    }
  }

  method OwnersAndPending(owners: Owners) returns (owner: set<NodeId>, pending: set<NodeId>)
    ensures owner + pending == Active(owners) && |owner| + |pending| == |Active(owners)|
  {
    owner := set n | n in owners && owners[n] == Owner;
    pending := set n | n in owners && owners[n] == Pending;
    assert owner + pending == Active(owners) && owner !! pending;
  }

  method CheckLoads(vnodes: seq<Owners>, replicas: nat, most: nat) returns (ok: bool)
    ensures ok <==> Balanced(vnodes, replicas, most)
  {
    var load: map<NodeId, nat> := map[];
    assert forall n :: Held(vnodes, 0, n) == {};
    for v := 0 to |vnodes|
      invariant forall u :: 0 <= u < v ==> |Active(vnodes[u])| == replicas
      invariant Counted(vnodes, v, load)
    {
      var owner, pending := OwnersAndPending(vnodes[v]);
      if |owner| + |pending| != replicas { return false; }
      ghost var load0 := load;
      load := CountIn(owner + pending, load);
      CountedNext(vnodes, v, load0, load);
    }
    ok := forall n :: n in load ==> load[n] <= most;
    CountedBalanced(vnodes, replicas, most, load);
  }

  lemma CountedBalanced(vnodes: seq<Owners>, replicas: nat, most: nat, load: map<NodeId, nat>)
    requires Counted(vnodes, |vnodes|, load) && forall v :: 0 <= v < |vnodes| ==> |Active(vnodes[v])| == replicas
    ensures (forall n :: n in load ==> load[n] <= most) <==> Balanced(vnodes, replicas, most)
  {
    forall n ensures Load(vnodes, n) == CountOf(load, n) {
    }
    if n :| n in load && load[n] > most {
      assert Load(vnodes, n) > most;
    }
  }

  /** Averaging: where nobody below the limit is retiring, shedding leaves nobody above it. */
  lemma ShedIsBalanced(vnodes: seq<Owners>, m: NodeMap, rf: nat, limit: nat, n: NodeId)
    requires Inverse(vnodes, m) && n in m && |vnodes| * rf <= |m| * limit
    requires forall v :: 0 <= v < |vnodes| ==> |Active(vnodes[v])| == rf && Shed(vnodes[v], m, limit)
    requires NoneBelowRetires(vnodes, m, limit)
    ensures |m[n]| <= limit
  {
    if |m[n]| > limit {
      if t :| t in m && |m[t]| < limit {
        assert m[n] <= m[t];
        Subset(m[n], m[t]);
      } else {
        LoadsAddUp(vnodes, m.Keys, rf, |vnodes|);
        SumPigeonhole(m.Keys, HeldBy(vnodes, |vnodes|), limit, n);
        OneTimesMore(|m|, limit);
      }
    }
  }

  lemma {:induction false} LeastExists(ids: set<NodeId>, m: NodeMap) returns (n: NodeId)
    requires ids != {} && ids <= m.Keys
    ensures n in ids && forall k :: k in ids ==> |m[n]| < |m[k]| || (|m[n]| == |m[k]| && n <= k)
  {
    n :| n in ids;
    if ids != {n} {
      var k := LeastExists(ids - {n}, m);
      if !(|m[n]| < |m[k]| || (|m[n]| == |m[k]| && n <= k)) { n := k; }
    }
  }

  /** A vnode short of replicas has a valid node that does not own it or is retiring from it. */
  lemma SomeoneIsLeft(owners: Owners, m: NodeMap, rf: nat)
    requires |Active(owners)| < rf < |m|
    ensures exists n :: n in m && (n !in owners || owners[n] == Retiring)
  {
    if forall n :: n in m ==> n in Active(owners) {
      Subset(m.Keys, Active(owners));
    }
  }

  // ---------------------------------------------------------------- membership changes keep the ring ok

  lemma FewerOk(owners: Owners, owners': Owners, nodes: map<NodeId, Node>, nodes': map<NodeId, Node>, rf: nat, n: NodeId)
    requires OwnersOk(owners, nodes, rf) && owners'.Keys <= owners.Keys && nodes'.Keys == nodes.Keys
    requires Active(owners') == Active(owners) - {n} && ValidNodes(nodes') == ValidNodes(nodes) - {n}
    ensures OwnersOk(owners', nodes', rf)
  {
    Subset(Active(owners'), Active(owners));
  }

  /** A node that is no longer valid and no longer active anywhere. */
  lemma LeftOk(vnodes: seq<Owners>, vnodes': seq<Owners>, nodes: map<NodeId, Node>, nodes': map<NodeId, Node>, rf: nat,
               n: NodeId, status: NodeStatus)
    requires RingOk(vnodes, nodes, rf) && OnePerMachine(nodes) && |vnodes'| == |vnodes| && status != Valid
    requires nodes' == Marked(nodes, n, status)
    requires forall v :: 0 <= v < |vnodes| ==> vnodes'[v] == vnodes[v] - {n} || vnodes'[v] == Retire(vnodes[v], n)
    ensures RingOk(vnodes', nodes', rf) && OnePerMachine(nodes')
  {
    assert ValidNodes(nodes') == ValidNodes(nodes) - {n};
    forall v | 0 <= v < |vnodes'|
      ensures OwnersOk(vnodes'[v], nodes', rf)
    {
      assert OwnersOk(vnodes[v], nodes, rf);
      assert Active(vnodes'[v]) == Active(vnodes[v]) - {n};
      FewerOk(vnodes[v], vnodes'[v], nodes, nodes', rf, n);
    }
  }

  lemma ReplacedOk(owners: Owners, nodes: map<NodeId, Node>, nodes': map<NodeId, Node>, rf: nat, gone: NodeId, n: NodeId)
    requires OwnersOk(owners, nodes, rf) && n !in nodes && nodes'.Keys == nodes.Keys + {n}
    requires ValidNodes(nodes') == ValidNodes(nodes) + {n} - {gone}
    ensures OwnersOk(Replaced(owners, gone, n), nodes', rf)
  {
    if gone in owners {
      ReplacedActive(owners, gone, n);
      if gone in Active(owners) { Exchanged(Active(owners), gone, n); }
    }
  }

  lemma ReplacedActive(owners: Owners, gone: NodeId, n: NodeId)
    requires gone in owners && n !in owners
    ensures var active := Active(owners);
            Active(Replaced(owners, gone, n)) == if gone in active then active - {gone} + {n} else active
  {
  }

  lemma MachinesOk(nodes: map<NodeId, Node>, nodes': map<NodeId, Node>, n: NodeId)
    requires OnePerMachine(nodes) && ValidNodes(nodes') <= ValidNodes(nodes) + {n}
    requires |ValidOn(nodes', Physical(n))| <= 1
    ensures OnePerMachine(nodes')
  {
    forall a, b | a in ValidNodes(nodes') && b in ValidNodes(nodes') && Physical(a) == Physical(b)
      ensures a == b
    {
      if a != b {
        Subset({a, b}, ValidOn(nodes', Physical(a)));
      }
    }
  }

  method IndexOne(v: nat, owners: Owners, m: NodeMap) returns (m': NodeMap)
    requires Active(owners) <= m.Keys
    ensures m'.Keys == m.Keys
    ensures forall n :: n in m ==> m'[n] == m[n] + if n in Active(owners) then {v} else {}
  {
    m' := m;
    var rest := owners.Keys;
    while rest != {}
      invariant m'.Keys == m.Keys && rest <= owners.Keys
      invariant forall n :: n in m ==> m'[n] == m[n] + if n in Active(owners) - rest then {v} else {}
    {
      var n :| n in rest;
      rest := rest - {n};
      if owners[n] != Retiring {
        m' := m'[n := m'[n] + {v}];
      }
    }
  }

  method PickReplica(owners: Owners, m: NodeMap, rf: nat) returns (n: NodeId, status: Ownership)
    requires |Active(owners)| < rf < |m|
    ensures n in m && n !in Active(owners) && status == if n in owners then Owner else Pending
    ensures n in owners ==> m.Keys <= owners.Keys
    ensures forall k :: k in m && (k !in owners || (n in owners && owners[k] == Retiring)) ==> |m[n]| <= |m[k]|
  {
    var candidates := set k | k in m && k !in owners;
    if candidates != {} {
      ghost var _ := LeastExists(candidates, m);
      n :| n in candidates && forall k :: k in candidates ==> |m[n]| <= |m[k]|;
      return n, Pending;
    }
    var retiring := set k | k in owners && owners[k] == Retiring && k in m;
    assert forall k :: k in m && k !in owners ==> k in candidates;
    assert retiring != {} by {
      SomeoneIsLeft(owners, m, rf);
      var k :| k in m && (k !in owners || owners[k] == Retiring);
      assert k in retiring;
    }
    ghost var _ := LeastExists(retiring, m);
    n :| n in retiring && forall k :: k in retiring ==> |m[n]| < |m[k]| || (|m[n]| == |m[k]| && n <= k);
    return n, Owner;
  }

  /** What holds of vnode v after some swaps, with the givers and takers that are left. */
  ghost predicate Shared(vnodes: seq<Owners>, v: nat, owners: Owners, m: NodeMap, m': NodeMap, limit: nat,
                         givers: set<NodeId>, takers: set<NodeId>, swaps: nat)
    requires v < |vnodes|
  {
    && Inverse(vnodes[v := owners], m') && |Active(owners)| == |Active(vnodes[v])|
    && Handed(vnodes[v], owners, m, limit) && givers <= vnodes[v].Keys
    && Shifted(m, m', limit) && RetiredFull(vnodes[v], owners, m', limit)
    && Sharing(owners, m, m', limit, givers, takers)
    && Excess(m', limit) == Excess(m, limit) - swaps
  }

  lemma ShareStep(vnodes: seq<Owners>, v: nat, owners: Owners, m: NodeMap, m': NodeMap, m'': NodeMap, limit: nat,
                  givers: set<NodeId>, takers: set<NodeId>, swaps: nat, giver: NodeId, taker: NodeId)
    requires v < |vnodes| && Shared(vnodes, v, owners, m, m', limit, givers, takers, swaps)
    requires giver in givers && taker in takers && Moved(m', m'', giver, taker)
    requires |Active(Swapped(owners, giver, taker))| == |Active(owners)|
    requires Inverse(vnodes[v := Swapped(owners, giver, taker)], m'') && Excess(m'', limit) == Excess(m', limit) - 1
    ensures Shared(vnodes, v, Swapped(owners, giver, taker), m, m'', limit, givers - {giver}, takers - {taker}, swaps + 1)
  {
    SharingStep(owners, m, m', m'', limit, givers, takers, giver, taker);
    SwapKeeps(vnodes[v], owners, m, limit, giver, taker);
    SwapShifts(vnodes[v], owners, m, m', m'', limit, giver, taker);
  }

  /** Owners of vnode v above the limit hand it to nodes below it, one to one. */
  method ShareOut(vnodes: seq<Owners>, v: nat, m: NodeMap, limit: nat) returns (owners: Owners, m': NodeMap, ghost swaps: nat)
    requires v < |vnodes| && Inverse(vnodes, m)
    ensures Inverse(vnodes[v := owners], m') && Shifted(m, m', limit)
    ensures |Active(owners)| == |Active(vnodes[v])| && Handed(vnodes[v], owners, m, limit)
    ensures Shed(owners, m', limit) && RetiredFull(vnodes[v], owners, m', limit)
    ensures Excess(m', limit) == Excess(m, limit) - swaps
  {
    owners, m', swaps := vnodes[v], m, 0;
    assert vnodes[v := owners] == vnodes;
    var givers := set n | n in owners && owners[n] != Retiring && |m[n]| > limit;
    var takers := set n | n in m && |m[n]| < limit && n !in owners;
    SharingStart(owners, m, limit, givers, takers);
    while givers != {} && takers != {}
      invariant Shared(vnodes, v, owners, m, m', limit, givers, takers, swaps)
      decreases givers
    {
      var giver :| giver in givers;
      var taker :| taker in takers;
      ghost var owners0, m0 := owners, m';
      owners, m' := Swap(vnodes[v := owners], v, m', giver, taker, limit);
      UpdateTwice(vnodes, v, owners0, owners);
      ShareStep(vnodes, v, owners0, m, m0, m', limit, givers, takers, swaps, giver, taker);
      givers, takers, swaps := givers - {giver}, takers - {taker}, swaps + 1;
    }
    SharingEnd(owners, m, m', limit, givers, takers);
  }

  method Swap(vnodes: seq<Owners>, v: nat, m: NodeMap, giver: NodeId, taker: NodeId, limit: nat)
    returns (owners: Owners, m': NodeMap)
    requires v < |vnodes| && Inverse(vnodes, m) && giver in Active(vnodes[v]) && taker in m && taker !in vnodes[v]
    requires |m[giver]| > limit > |m[taker]|
    ensures owners == Swapped(vnodes[v], giver, taker) && |Active(owners)| == |Active(vnodes[v])|
    ensures Inverse(vnodes[v := owners], m') && Moved(m, m', giver, taker)
    ensures Excess(m', limit) == Excess(m, limit) - 1
  {
    SwapOk(vnodes, m, v, giver, taker);
    owners := With(vnodes[v], taker, Pending);
    assert giver in owners;
    owners := With(owners, giver, Retiring);
    m' := m[giver := m[giver] - {v}];
    assert v !in m'[taker];
    m' := m'[taker := m'[taker] + {v}];
    SwapLowersExcess(m, m', limit, giver, taker);
  }

  class Ring {
    var vnodes: seq<Owners>
    var nodes: map<NodeId, Node>
    const rf: nat

    ghost predicate Ok()
      reads this
    {
      RingOk(vnodes, nodes, rf) && OnePerMachine(nodes)
    }

    constructor (partitions: nat, rf: nat)
      ensures this.rf == rf && nodes == map[] && |vnodes| == partitions
      ensures Ok() && forall v :: 0 <= v < |vnodes| ==> vnodes[v] == map[]
    {
      this.rf := rf;
      nodes := map[];
      vnodes := seq(partitions, _ => map[]);
      new;
      assert Active(map[]) == {};
    }

    constructor Clone(ring: Ring)
      ensures rf == ring.rf && nodes == ring.nodes && vnodes == ring.vnodes
    {
      rf, nodes, vnodes := ring.rf, ring.nodes, ring.vnodes;
    }

    method LeaveNode(n: NodeId)
      requires Ok()
      modifies this
      ensures Ok() && |vnodes| == |old(vnodes)|
      ensures nodes == Marked(old(nodes), n, Leaving)
      ensures forall v :: 0 <= v < |vnodes| ==>
        vnodes[v].Keys == old(vnodes)[v].Keys && (n in vnodes[v] ==> vnodes[v][n] == Retiring)
      ensures forall v :: 0 <= v < |vnodes| ==> vnodes[v] == Retire(old(vnodes)[v], n)
    {
      if n in nodes {
        nodes := nodes[n := nodes[n].(status := Leaving)];
      }
      for v := 0 to |vnodes|
        modifies this`vnodes
        invariant |vnodes| == |old(vnodes)|
        invariant forall u :: 0 <= u < |vnodes| ==> vnodes[u] == if u < v then Retire(old(vnodes)[u], n) else old(vnodes)[u]
      {
        if n in vnodes[v] {
          vnodes := vnodes[v := With(vnodes[v], n, Retiring)];
        }
      }
      LeftOk(old(vnodes), vnodes, old(nodes), nodes, rf, n, Leaving);
    }

    method RemoveNode(n: NodeId)
      requires Ok()
      modifies this
      ensures Ok() && |vnodes| == |old(vnodes)|
      ensures nodes == Marked(old(nodes), n, Invalid)
      ensures forall v :: 0 <= v < |vnodes| ==> vnodes[v] == old(vnodes)[v] - {n}
    {
      if n in nodes {
        nodes := nodes[n := nodes[n].(status := Invalid)];
      }
      for v := 0 to |vnodes|
        modifies this`vnodes
        invariant |vnodes| == |old(vnodes)|
        invariant forall u :: 0 <= u < |vnodes| ==> vnodes[u] == if u < v then old(vnodes)[u] - {n} else old(vnodes)[u]
      {
        vnodes := vnodes[v := vnodes[v] - {n}];
      }
      LeftOk(old(vnodes), vnodes, old(nodes), nodes, rf, n, Invalid);
    }

    /** An error leaves a ring that is thrown away. */
    method JoinNode(n: NodeId, info: string) returns (ok: bool)
      requires Ok()
      modifies this
      ensures vnodes == old(vnodes)
      ensures nodes == NodeJoined(old(nodes), n, info) && (ok <==> CanJoin(old(nodes), n, info))
      ensures ok ==> Ok()
    {
      if n in nodes {
        if nodes[n].info == info {
          assert nodes == nodes[n := Node(info, nodes[n].status)];
          return true;
        }
        nodes := nodes[n := Node(info, nodes[n].status)];
      } else {
        nodes := nodes[n := Node(info, Valid)];
      }
      ok := |ValidOn(nodes, Physical(n))| <= 1;
      if ok {
        MachinesOk(old(nodes), nodes, n);
      }
    }

    method ReplaceNode(gone: NodeId, n: NodeId, info: string) returns (ok: bool)
      requires Ok()
      modifies this
      ensures |vnodes| == |old(vnodes)| && (ok <==> CanReplace(old(nodes), gone, n, info))
      ensures ok ==> Ok() && nodes == NodeReplaced(old(nodes), gone, n, info)
      ensures ok ==> forall v :: 0 <= v < |vnodes| ==> vnodes[v] == Replaced(old(vnodes)[v], gone, n)
    {
      var taken := n in nodes;
      nodes := nodes[n := Node(info, Valid)];
      if taken { return false; }
      if gone !in nodes { return false; }
      nodes := nodes[gone := nodes[gone].(status := Invalid)];
      for v := 0 to |vnodes|
        modifies this`vnodes
        invariant |vnodes| == |old(vnodes)|
        invariant forall u :: 0 <= u < |vnodes| ==>
          vnodes[u] == if u < v then Replaced(old(vnodes)[u], gone, n) else old(vnodes)[u]
      {
        vnodes := vnodes[v := Replaced(vnodes[v], gone, n)];
      }
      ok := |ValidOn(nodes, Physical(n))| <= 1;
      if ok {
        MachinesOk(old(nodes), nodes, n);
        forall v | 0 <= v < |vnodes|
          ensures OwnersOk(vnodes[v], nodes, rf)
        {
          ReplacedOk(old(vnodes)[v], old(nodes), nodes, rf, gone, n);
        }
      }
    }

    method PromotePending(n: NodeId, v: nat) returns (ok: bool)
      requires Ok() && v < |vnodes|
      modifies this
      ensures ok <==> n in Active(old(vnodes)[v])
      ensures Ok() && nodes == old(nodes) && |vnodes| == |old(vnodes)|
      ensures vnodes == if ok then old(vnodes)[v := vnodes[v]] else old(vnodes)
      ensures ok ==> Promoted(old(vnodes)[v], vnodes[v], n)
    {
      var owners: Owners := vnodes[v];
      if n !in owners || owners[n] == Retiring { return false; }
      if owners[n] == Owner { return true; }
      owners := With(owners, n, Owner);
      if Pending !in owners.Values {
        owners := map k | k in owners && owners[k] != Retiring :: owners[k];
      }
      vnodes := vnodes[v := owners];
      assert Active(owners) == Active(old(vnodes)[v]);
      ok := true;
    }

    /** With no more valid nodes than the replication factor everyone owns everything. */
    method RebalanceFew()
      requires Ok() && |ValidNodes(nodes)| <= rf
      modifies this`vnodes
      ensures |vnodes| == |old(vnodes)|
      ensures forall v :: 0 <= v < |vnodes| ==>
        vnodes[v] == Everyone(old(vnodes)[v], ValidNodes(nodes), if |nodes| == 1 then Owner else Pending)
    {
      var status := if |nodes| == 1 then Owner else Pending;
      for v := 0 to |vnodes|
        invariant |vnodes| == |old(vnodes)|
        invariant forall u :: 0 <= u < v ==> vnodes[u] == Everyone(old(vnodes)[u], ValidNodes(nodes), status)
        invariant forall u :: v <= u < |vnodes| ==> vnodes[u] == old(vnodes)[u]
      {
        var owners := AddAll(vnodes[v], status);
        vnodes := vnodes[v := owners];
      }
    }

    method AddAll(owners: Owners, status: Ownership) returns (r: Owners)
      requires status != Retiring
      ensures r == Everyone(owners, ValidNodes(nodes), status)
    {
      r := owners;
      var rest := nodes.Keys;
      ghost var done: set<NodeId> := {};
      while rest != {}
        invariant rest <= nodes.Keys && done == ValidNodes(nodes) - rest && r == Everyone(owners, done, status)
      {
        var n :| n in rest;
        rest := rest - {n};
        if nodes[n].status == Valid {
          EveryoneMore(owners, done, n, status);
          done := done + {n};
          if n !in r || r[n] == Retiring { r := r[n := status]; }
        }
      }
    }

    /** The vnodes of every valid node. */
    method Index() returns (m: NodeMap)
      requires Ok()
      ensures m.Keys == ValidNodes(nodes) && Inverse(vnodes, m)
    {
      m := map n | n in ValidNodes(nodes) :: {};
      for v := 0 to |vnodes|
        invariant m.Keys == ValidNodes(nodes)
        invariant forall n :: n in m ==> m[n] == Held(vnodes, v, n)
      {
        assert OwnersOk(vnodes[v], nodes, rf);
        m := IndexOne(v, vnodes[v], m);
        HeldNext(vnodes, v);
      }
    }

    /** The least loaded valid node that does not own the vnode; when all do, one that was retiring. */
    method AddReplica(v: nat, m: NodeMap) returns (m': NodeMap)
      requires v < |vnodes| && Inverse(vnodes, m) && |Active(vnodes[v])| < rf < |m|
      modifies this`vnodes
      ensures |vnodes| == |old(vnodes)| && m'.Keys == m.Keys && Inverse(vnodes, m')
      ensures forall u :: 0 <= u < |vnodes| && u != v ==> vnodes[u] == old(vnodes)[u]
      ensures |Active(vnodes[v])| == |Active(old(vnodes)[v])| + 1
      ensures Filled(old(vnodes)[v], vnodes[v], m.Keys) && LastResort(old(vnodes)[v], vnodes[v], m.Keys)
    {
      var n, status := PickReplica(vnodes[v], m, rf);
      Joined(vnodes, m, v, n, status);
      vnodes := vnodes[v := With(vnodes[v], n, status)];
      assert v !in m[n];
      m' := m[n := m[n] + {v}];
    }

    /** Every vnode gets as many replicas as the replication factor. */
    method CompleteReplicas(m: NodeMap) returns (m': NodeMap)
      requires Ok() && Inverse(vnodes, m) && rf < |m|
      modifies this`vnodes
      ensures |vnodes| == |old(vnodes)| && m'.Keys == m.Keys && Inverse(vnodes, m')
      ensures forall v :: 0 <= v < |vnodes| ==> Completed(old(vnodes)[v], vnodes[v], m.Keys, rf)
    {
      m' := m;
      for v := 0 to |vnodes|
        invariant |vnodes| == |old(vnodes)| && m'.Keys == m.Keys && Inverse(vnodes, m')
        invariant forall u :: 0 <= u < v ==> Completed(old(vnodes)[u], vnodes[u], m.Keys, rf)
        invariant forall u :: v <= u < |vnodes| ==> vnodes[u] == old(vnodes)[u]
      {
        assert OwnersOk(vnodes[v], nodes, rf);
        m' := FillUp(v, m');
      }
    }

    method FillUp(v: nat, m: NodeMap) returns (m': NodeMap)
      requires v < |vnodes| && Inverse(vnodes, m) && |Active(vnodes[v])| <= rf < |m|
      modifies this`vnodes
      ensures |vnodes| == |old(vnodes)| && m'.Keys == m.Keys && Inverse(vnodes, m')
      ensures forall u :: 0 <= u < |vnodes| && u != v ==> vnodes[u] == old(vnodes)[u]
      ensures Completed(old(vnodes)[v], vnodes[v], m.Keys, rf)
    {
      m' := m;
      for i := |Active(vnodes[v])| to rf
        invariant |vnodes| == |old(vnodes)| && m'.Keys == m.Keys && Inverse(vnodes, m')
        invariant forall u :: 0 <= u < |vnodes| && u != v ==> vnodes[u] == old(vnodes)[u]
        invariant |Active(vnodes[v])| == i
        invariant Filled(old(vnodes)[v], vnodes[v], m.Keys) && LastResort(old(vnodes)[v], vnodes[v], m.Keys)
        invariant i == |Active(old(vnodes)[v])| ==> vnodes[v] == old(vnodes)[v]
      {
        m' := AddReplica(v, m');
      }
    }

    /** One pass over the vnodes. Nothing about the retiring owners is needed for what it ensures. */
    method RobinHood(m: NodeMap, limit: nat) returns (m': NodeMap, ghost swaps: nat)
      requires Inverse(vnodes, m)
      modifies this`vnodes
      ensures |vnodes| == |old(vnodes)| && Inverse(vnodes, m') && Shifted(m, m', limit)
      ensures forall v :: 0 <= v < |vnodes| ==> PassedOn(old(vnodes)[v], vnodes[v], m', limit)
      ensures Excess(m', limit) == Excess(m, limit) - swaps
    {
      m', swaps := m, 0;
      for v := 0 to |vnodes|
        invariant |vnodes| == |old(vnodes)| && Inverse(vnodes, m') && Shifted(m, m', limit)
        invariant forall u :: 0 <= u < v ==> PassedOn(old(vnodes)[u], vnodes[u], m', limit)
        invariant forall u :: v <= u < |vnodes| ==> vnodes[u] == old(vnodes)[u]
        invariant Excess(m', limit) == Excess(m, limit) - swaps
      {
        ghost var m0 := m';
        ghost var more;
        var owners;
        owners, m', more := ShareOut(vnodes, v, m', limit);
        HandedKept(vnodes[v], owners, m0, limit);
        if m0.Keys <= vnodes[v].Keys { HandedToNobody(vnodes[v], owners, m0, limit); }
        vnodes, swaps := vnodes[v := owners], swaps + more;
        ShiftedTrans(m, m0, m', limit);
        forall u | 0 <= u < v
          ensures PassedOn(old(vnodes)[u], vnodes[u], m', limit)
        {
          ShiftKeeps(old(vnodes)[u], vnodes[u], m0, m', limit);
        }
      }
    }

    /** Dividing by the number of valid nodes, the source fails without one. */
    method IsValid() returns (ok: bool)
      requires ValidNodes(nodes) != {}
      ensures var count := |ValidNodes(nodes)|;
              ok <==> Balanced(vnodes, Min(count, rf), MostLoad(Replicas(vnodes, rf), count))
    {
      var count := |ValidNodes(nodes)|;
      ok := CheckLoads(vnodes, Min(count, rf), MostLoad(Replicas(vnodes, rf), count));
    }

    /** Two passes: complete the replicas, then take from who is doing too much. */
    method RebalanceMany(limit: nat)
      requires Ok() && rf < |ValidNodes(nodes)|
      modifies this`vnodes
      ensures Ok() && |vnodes| == |old(vnodes)|
      ensures forall v :: 0 <= v < |vnodes| ==> |Active(vnodes[v])| == rf && Kept(old(vnodes)[v], vnodes[v], ValidNodes(nodes))
      ensures forall v :: 0 <= v < |vnodes| ==> Rebuilt(old(vnodes)[v], vnodes[v], ValidNodes(nodes), rf)
      ensures LoadsHold(old(vnodes), vnodes, ValidNodes(nodes), limit)
      ensures RetireLoaded(old(vnodes), vnodes, ValidNodes(nodes), limit) ==>
        Replicas(vnodes, rf) <= |ValidNodes(nodes)| * limit ==> Balanced(vnodes, rf, limit)
    {
      var m := Index();
      m := CompleteReplicas(m);
      ghost var complete := vnodes;
      ghost var m0 := m;
      ghost var swaps;
      m, swaps := RobinHood(m, limit);
      LoadsHeld(old(vnodes), complete, vnodes, m0, m, limit);
      forall v | 0 <= v < |vnodes|
        ensures |Active(vnodes[v])| == rf && Kept(old(vnodes)[v], vnodes[v], m.Keys) && OwnersOk(vnodes[v], nodes, rf)
      {
        assert OwnersOk(old(vnodes)[v], nodes, rf);
        FilledThenKept(old(vnodes)[v], complete[v], vnodes[v], m.Keys);
        assert Active(vnodes[v]) <= m.Keys;
        KeptOk(old(vnodes)[v], vnodes[v], nodes, rf);
      }
      forall v | 0 <= v < |vnodes|
        ensures Rebuilt(old(vnodes)[v], vnodes[v], m.Keys, rf)
      {
        assert PassedOn(complete[v], vnodes[v], m, limit);
      }
      if RetireLoaded(old(vnodes), vnodes, m.Keys, limit) && Replicas(vnodes, rf) <= |m| * limit {
        LoadedIsBalanced(old(vnodes), complete, vnodes, m, rf, limit);
      }
    }

    method Rebalance() returns (ok: bool)
      requires Ok()
      modifies this`vnodes
      ensures Ok() && Rebalanced(old(vnodes), vnodes, nodes, rf, ok)
      ensures forall v :: 0 <= v < |vnodes| ==>
        |Active(vnodes[v])| == Min(|ValidNodes(nodes)|, rf) && old(vnodes)[v].Keys <= vnodes[v].Keys
    {
      if |ValidNodes(nodes)| <= rf {
        RebalanceFew();
        forall v | 0 <= v < |vnodes|
          ensures OwnersOk(vnodes[v], nodes, rf) && Active(vnodes[v]) == ValidNodes(nodes)
          ensures old(vnodes)[v].Keys <= vnodes[v].Keys
        {
          assert OwnersOk(old(vnodes)[v], nodes, rf);
          EveryoneOwns(old(vnodes)[v], nodes, rf, if |nodes| == 1 then Owner else Pending);
        }
        return true;
      }
      var total, count := Replicas(vnodes, rf), |ValidNodes(nodes)|;
      CeilingCovers(total, count);
      RebalanceMany(Ceiling(total, count));
      ok := IsValid();
    }
  }

  datatype Proposal =
    | Join(n: NodeId, info: string)
    | Leave(n: NodeId)
    | Remove(n: NodeId)
    | Replace(gone: NodeId, n: NodeId, info: string)
    | Promote(n: NodeId, v: nat)
    | Rebalance

  /** What a proposal makes of the ring, and when it is accepted. */
  ghost predicate Effect(p: Proposal, vnodes: seq<Owners>, nodes: map<NodeId, Node>, rf: nat,
                         vnodes': seq<Owners>, nodes': map<NodeId, Node>, ok: bool) {
    && |vnodes'| == |vnodes|
    && match p
       case Join(n, info) => vnodes' == vnodes && nodes' == NodeJoined(nodes, n, info) && (ok <==> CanJoin(nodes, n, info))
       case Leave(n) =>
         ok && nodes' == Marked(nodes, n, Leaving) && forall v :: 0 <= v < |vnodes| ==> vnodes'[v] == Retire(vnodes[v], n)
       case Remove(n) =>
         ok && nodes' == Marked(nodes, n, Invalid) && forall v :: 0 <= v < |vnodes| ==> vnodes'[v] == vnodes[v] - {n}
       case Replace(gone, n, info) =>
         (ok <==> CanReplace(nodes, gone, n, info)) &&
         (ok ==> nodes' == NodeReplaced(nodes, gone, n, info) &&
                 forall v :: 0 <= v < |vnodes| ==> vnodes'[v] == Replaced(vnodes[v], gone, n))
       case Promote(n, u) =>
         nodes' == nodes && u < |vnodes| && (ok <==> n in Active(vnodes[u])) && vnodes' == vnodes[u := vnodes'[u]] &&
         if ok then Promoted(vnodes[u], vnodes'[u], n) else vnodes' == vnodes
       case Rebalance => nodes' == nodes && Rebalanced(vnodes, vnodes', nodes, rf, ok)
  }

  /** Changes are tried on a copy. Whatever is proposed, in whatever order, the ring stays ok. */
  class Dht {
    var ring: Ring

    ghost predicate Valid()
      reads this, ring
    {
      ring.Ok()
    }

    constructor (partitions: nat, rf: nat)
      ensures Valid() && fresh(ring) && ring.rf == rf && |ring.vnodes| == partitions
      ensures ring.nodes == map[] && forall v :: 0 <= v < |ring.vnodes| ==> ring.vnodes[v] == map[]
    {
      ring := new Ring(partitions, rf);
    }

    method Propose(p: Proposal) returns (ok: bool, ghost tried: Ring)
      requires Valid() && (p.Promote? ==> p.v < |ring.vnodes|)
      modifies this
      ensures Valid() && ring.rf == old(ring.rf) && |ring.vnodes| == old(|ring.vnodes|)
      ensures Effect(p, old(ring.vnodes), old(ring.nodes), ring.rf, tried.vnodes, tried.nodes, ok)
      ensures if ok then ring == tried && fresh(ring) else ring == old(ring)
      ensures ok && p.Rebalance? ==> forall v :: 0 <= v < |ring.vnodes| ==>
        |Active(ring.vnodes[v])| == Min(|ValidNodes(ring.nodes)|, ring.rf)
    {
      var copy := new Ring.Clone(ring);
      match p {
        case Join(n, info) => ok := copy.JoinNode(n, info);
        case Leave(n) => copy.LeaveNode(n); ok := true;
        case Remove(n) => copy.RemoveNode(n); ok := true;
        case Replace(gone, n, info) => ok := copy.ReplaceNode(gone, n, info);
        case Promote(n, v) => ok := copy.PromotePending(n, v);
        case Rebalance => ok := copy.Rebalance();
      }
      tried := copy;
      if ok {
        ring := copy;
      }
    }
  }
}
