/** Why rebalance wants a settled ring (src/dht.rs:429-545). A node that is removed while others still
    retire in its favour strands its vnodes: they can only go to nodes that do not own them, and those
    get more than is_valid accepts. The run below needs nothing but proposals. */
module StrandedRing {
  import opened Basics
  import opened RingLoads
  import opened Rings

  /** Three machines. */
  const FIRST: NodeId := 0x1_0000_0000
  const SECOND: NodeId := 0x2_0000_0000
  const THIRD: NodeId := 0x3_0000_0000

  const WHOLE: Owners := map[SECOND := Owner]
  const PARTED: Owners := map[SECOND := Retiring, FIRST := Pending]
  const STRANDED: Owners := map[SECOND := Retiring]

  function Nodes(third: NodeStatus): map<NodeId, Node> {
    map[SECOND := Node("b", Valid), FIRST := Node("a", Valid), THIRD := Node("c", third)]
  }

  lemma NodesValid()
    ensures ValidNodes(Nodes(Valid)) == {FIRST, SECOND, THIRD} && |ValidNodes(Nodes(Valid))| == 3
    ensures ValidNodes(Nodes(Invalid)) == {FIRST, SECOND} && |ValidNodes(Nodes(Invalid))| == 2
  {
    assert ValidNodes(Nodes(Valid)) == {FIRST, SECOND, THIRD};
    assert ValidNodes(Nodes(Invalid)) == {FIRST, SECOND};
  }

  // ---------------------------------------------------------------- one node, then three

  lemma OwnsAll(before: seq<Owners>, after: seq<Owners>, ok: bool)
    requires Rebalanced(before, after, map[SECOND := Node("b", Valid)], 1, ok)
    requires forall v :: 0 <= v < |before| ==> before[v] == map[]
    ensures ok && forall v :: 0 <= v < |after| ==> after[v] == WHOLE
  {
    assert ValidNodes(map[SECOND := Node("b", Valid)]) == {SECOND};
  }

  /** What a vnode of the second node becomes. */
  lemma Hands(owners: Owners, valid: set<NodeId>)
    requires Rebuilt(WHOLE, owners, valid, 1)
    ensures SECOND in owners && (SECOND in Active(owners) ==> owners == WHOLE)
    ensures SECOND !in Active(owners) ==>
      exists n :: n in valid && n != SECOND && owners == map[SECOND := Retiring, n := Pending]
  {
    assert Active(WHOLE) == {SECOND};
    assert HandedOn(WHOLE, owners, valid);
    var n :| Active(owners) == {n} by {
      OnlyOne(Active(owners));
    }
    assert forall k :: k in owners && k != SECOND ==> k in Active(owners);
  }

  lemma OnlyOne(ids: set<NodeId>)
    requires |ids| == 1
    ensures exists n :: ids == {n}
  {
    var n :| n in ids;
    SubsetSame({n}, ids);
  }

  ghost predicate AfterRemoval(vnodes: seq<Owners>) {
    forall v :: 0 <= v < |vnodes| ==> vnodes[v] == WHOLE || vnodes[v] == PARTED || vnodes[v] == STRANDED
  }

  lemma RemovesOne(owners: Owners)
    requires Rebuilt(WHOLE, owners, {FIRST, SECOND, THIRD}, 1)
    ensures var owners' := owners - {THIRD};
            && (owners' == WHOLE || owners' == PARTED || owners' == STRANDED)
            && (SECOND in Active(owners') <==> SECOND in Active(owners))
  {
    Hands(owners, {FIRST, SECOND, THIRD});
  }

  lemma Spreads(before: seq<Owners>, after: seq<Owners>, ok: bool)
    requires Rebalanced(before, after, Nodes(Valid), 1, ok)
    requires forall v :: 0 <= v < |before| ==> before[v] == WHOLE
    ensures ok && Balanced(after, 1, Ceiling(Replicas(after, 1), 3))
  {
    NodesValid();
    RebalanceSucceeds(before, after, Nodes(Valid), 1, ok);
  }

  lemma Removes(before: seq<Owners>, after: seq<Owners>, vnodes: seq<Owners>)
    requires Rebalanced(before, after, Nodes(Valid), 1, true) && |vnodes| == |after|
    requires forall v :: 0 <= v < |before| ==> before[v] == WHOLE
    requires forall v :: 0 <= v < |vnodes| ==> vnodes[v] == after[v] - {THIRD}
    ensures AfterRemoval(vnodes) && Load(vnodes, SECOND) <= Ceiling(|vnodes|, 3)
  {
    NodesValid();
    Spreads(before, after, true);
    forall v | 0 <= v < |vnodes|
      ensures vnodes[v] == WHOLE || vnodes[v] == PARTED || vnodes[v] == STRANDED
      ensures SECOND in Active(vnodes[v]) <==> SECOND in Active(after[v])
    {
      RemovesOne(after[v]);
    }
    assert Held(vnodes, |vnodes|, SECOND) == Held(after, |after|, SECOND);
    assert Load(after, SECOND) <= Ceiling(Replicas(after, 1), 3);
  }

  // ---------------------------------------------------------------- the third is gone

  /** A vnode the second node retires from is the first one's, whatever rebalance chooses. */
  lemma Stays(owners: Owners, owners': Owners)
    requires owners == PARTED || owners == STRANDED
    requires Rebuilt(owners, owners', {FIRST, SECOND}, 1)
    ensures FIRST in Active(owners')
  {
    var complete :| Completed(owners, complete, {FIRST, SECOND}, 1) && HandedOn(complete, owners', {FIRST, SECOND});
    Parts();
    if owners == STRANDED { Fills(complete); }
    assert complete == PARTED;
  }

  lemma Parts()
    ensures Active(PARTED) == {FIRST} && PARTED.Keys == {FIRST, SECOND}
  {
  }

  lemma Fills(owners: Owners)
    requires Completed(STRANDED, owners, {FIRST, SECOND}, 1)
    ensures owners == PARTED
  {
    OnlyOne(Active(owners));
    var n :| Active(owners) == {n};
    assert owners.Keys <= {FIRST, SECOND} && n in owners;
    assert SECOND in Active(owners) ==> FIRST in Active(owners);
  }

  lemma TooMuch(before: seq<Owners>, after: seq<Owners>, ok: bool)
    requires Rebalanced(before, after, Nodes(Invalid), 1, ok)
    requires AfterRemoval(before) && Load(before, SECOND) <= Ceiling(|before|, 3) && |before| >= 32
    ensures !ok
  {
    NodesValid();
    forall v | 0 <= v < |before|
      ensures SECOND in Active(before[v]) || FIRST in Active(after[v])
    {
      if before[v] != WHOLE { Stays(before[v], after[v]); }
    }
    OneOrOther(before, after, |before|);
    assert Replicas(after, 1) == |before|;
    assert Load(after, FIRST) > MostLoad(|before|, 2);
  }

  lemma {:induction false} OneOrOther(before: seq<Owners>, after: seq<Owners>, k: nat)
    requires k <= |before| == |after|
    requires forall v :: 0 <= v < |before| ==> SECOND in Active(before[v]) || FIRST in Active(after[v])
    ensures |Held(before, k, SECOND)| + |Held(after, k, FIRST)| >= k
  {
    if k != 0 {
      OneOrOther(before, after, k - 1);
      HeldGrows(before, k - 1, SECOND);
      HeldGrows(after, k - 1, FIRST);
    }
  }

  // ---------------------------------------------------------------- the run

  ghost predicate IsRing(dht: Dht, partitions: nat, nodes: map<NodeId, Node>)
    reads dht, dht.ring
  {
    dht.Valid() && dht.ring.rf == 1 && |dht.ring.vnodes| == partitions && dht.ring.nodes == nodes
  }

  /** The second node owns everything. */
  method Found(partitions: nat) returns (dht: Dht)
    ensures fresh(dht) && IsRing(dht, partitions, map[SECOND := Node("b", Valid)])
    ensures forall v :: 0 <= v < partitions ==> dht.ring.vnodes[v] == WHOLE
  {
    dht := new Dht(partitions, 1);
    assert ValidOn(NodeJoined(map[], SECOND, "b"), Physical(SECOND)) == {SECOND};
    var ok, _ := dht.Propose(Join(SECOND, "b"));
    ghost var before := dht.ring.vnodes;
    ghost var tried;
    ok, tried := dht.Propose(Proposal.Rebalance);
    OwnsAll(before, tried.vnodes, ok);
  }

  /** The first and the third join. */
  method Grow(dht: Dht, partitions: nat)
    requires IsRing(dht, partitions, map[SECOND := Node("b", Valid)])
    modifies dht
    ensures IsRing(dht, partitions, Nodes(Valid)) && dht.ring.vnodes == old(dht.ring.vnodes)
  {
    ghost var nodes := dht.ring.nodes;
    assert ValidOn(NodeJoined(nodes, FIRST, "a"), Physical(FIRST)) == {FIRST};
    var _, _ := dht.Propose(Join(FIRST, "a"));
    assert ValidOn(NodeJoined(NodeJoined(nodes, FIRST, "a"), THIRD, "c"), Physical(THIRD)) == {THIRD};
    var _, _ := dht.Propose(Join(THIRD, "c"));
  }

  method Spread(dht: Dht, partitions: nat)
    requires IsRing(dht, partitions, Nodes(Valid)) && forall v :: 0 <= v < partitions ==> dht.ring.vnodes[v] == WHOLE
    modifies dht
    ensures IsRing(dht, partitions, Nodes(Valid))
    ensures Rebalanced(old(dht.ring.vnodes), dht.ring.vnodes, Nodes(Valid), 1, true)
  {
    ghost var before := dht.ring.vnodes;
    var ok, tried := dht.Propose(Proposal.Rebalance);
    Spreads(before, tried.vnodes, ok);
  }

  method Discard(dht: Dht, partitions: nat, ghost nodes: map<NodeId, Node>, n: NodeId)
    requires IsRing(dht, partitions, nodes)
    modifies dht
    ensures IsRing(dht, partitions, Marked(nodes, n, Invalid))
    ensures forall v :: 0 <= v < partitions ==> dht.ring.vnodes[v] == old(dht.ring.vnodes)[v] - {n}
  {
    var _, _ := dht.Propose(Remove(n));
  }

  /** The ring is rebalanced, and the third is removed before it has taken anything over. */
  method Shrink(dht: Dht, partitions: nat)
    requires IsRing(dht, partitions, Nodes(Valid)) && forall v :: 0 <= v < partitions ==> dht.ring.vnodes[v] == WHOLE
    modifies dht
    ensures IsRing(dht, partitions, Nodes(Invalid)) && AfterRemoval(dht.ring.vnodes)
    ensures Load(dht.ring.vnodes, SECOND) <= Ceiling(partitions, 3)
  {
    ghost var before := dht.ring.vnodes;
    Spread(dht, partitions);
    ghost var after := dht.ring.vnodes;
    Discard(dht, partitions, Nodes(Valid), THIRD);
    Removes(before, after, dht.ring.vnodes);
  }

  /** With a replication factor of 1 and any number of partitions the source allows, a ring that
      proposals lead to and that cannot be rebalanced. */
  method UnsettledRingFails(partitions: nat) returns (dht: Dht, ok: bool)
    requires partitions >= 32
    ensures IsRing(dht, partitions, Nodes(Invalid)) && !ok
  {
    dht := Found(partitions);
    Grow(dht, partitions);
    Shrink(dht, partitions);
    ghost var before := dht.ring.vnodes;
    ghost var tried;
    ok, tried := dht.Propose(Proposal.Rebalance);
    TooMuch(before, tried.vnodes, ok);
  }

  // ---------------------------------------------------------------- a vnode nobody has

  function Pair(first: NodeStatus): map<NodeId, Node> {
    map[SECOND := Node("b", Valid), FIRST := Node("a", first)]
  }

  lemma PairValid()
    ensures ValidNodes(Pair(Valid)) == {FIRST, SECOND} && |ValidNodes(Pair(Valid))| == 2
    ensures ValidNodes(Pair(Invalid)) == {SECOND} && |ValidNodes(Pair(Invalid))| == 1 && |Pair(Invalid)| == 2
  {
    assert ValidNodes(Pair(Valid)) == {FIRST, SECOND};
    assert ValidNodes(Pair(Invalid)) == {SECOND};
    assert Pair(Invalid).Keys == {FIRST, SECOND};
  }

  /** Some vnode is handed over by its owner. */
  lemma SomeHanded(before: seq<Owners>, after: seq<Owners>, ok: bool) returns (v: nat)
    requires Rebalanced(before, after, Pair(Valid), 1, ok) && |before| >= 32
    requires forall u :: 0 <= u < |before| ==> before[u] == WHOLE
    ensures ok && v < |after| && after[v] == PARTED
  {
    PairValid();
    RebalanceSucceeds(before, after, Pair(Valid), 1, ok);
    assert Load(after, SECOND) <= Ceiling(Replicas(after, 1), 2);
    v := SomeIdle(after, |after|);
    assert Rebuilt(before[v], after[v], {FIRST, SECOND}, 1);
    Hands(after[v], {FIRST, SECOND});
  }

  lemma {:induction false} SomeIdle(vnodes: seq<Owners>, k: nat) returns (v: nat)
    requires k <= |vnodes| && |Held(vnodes, k, SECOND)| < k
    ensures v < k && SECOND !in Active(vnodes[v])
  {
    v := k - 1;
    if SECOND in Active(vnodes[v]) {
      HeldGrows(vnodes, k - 1, SECOND);
      v := SomeIdle(vnodes, k - 1);
    }
  }

  /** The second node has everything, the first joins and is removed before it has taken anything over, and
      the ring is rebalanced with the one node that is left: for some vnode that has its data, the second
      node counts as one that has yet to get it, and nobody else is there. */
  method DataForgotten(partitions: nat) returns (dht: Dht, ghost v: nat)
    requires partitions >= 32
    ensures IsRing(dht, partitions, Pair(Invalid)) && v < partitions && dht.ring.vnodes[v] == map[SECOND := Pending]
  {
    dht := Found(partitions);
    JoinFirst(dht, partitions);
    v := HandOver(dht, partitions);
    PairValid();
    var _, tried := dht.Propose(Proposal.Rebalance);
    assert tried.vnodes[v] == Everyone(STRANDED, {SECOND}, Pending);
  }

  method JoinFirst(dht: Dht, partitions: nat)
    requires IsRing(dht, partitions, map[SECOND := Node("b", Valid)])
    modifies dht
    ensures IsRing(dht, partitions, Pair(Valid)) && dht.ring.vnodes == old(dht.ring.vnodes)
  {
    assert ValidOn(NodeJoined(dht.ring.nodes, FIRST, "a"), Physical(FIRST)) == {FIRST};
    var _, _ := dht.Propose(Join(FIRST, "a"));
  }

  method HandOver(dht: Dht, partitions: nat) returns (ghost v: nat)
    requires IsRing(dht, partitions, Pair(Valid)) && partitions >= 32
    requires forall u :: 0 <= u < partitions ==> dht.ring.vnodes[u] == WHOLE
    modifies dht
    ensures IsRing(dht, partitions, Pair(Invalid)) && v < partitions && dht.ring.vnodes[v] == STRANDED
  {
    v := SpreadPair(dht, partitions);
    Discard(dht, partitions, Pair(Valid), FIRST);
    assert PARTED - {FIRST} == STRANDED;
  }

  method SpreadPair(dht: Dht, partitions: nat) returns (ghost v: nat)
    requires IsRing(dht, partitions, Pair(Valid)) && partitions >= 32
    requires forall u :: 0 <= u < partitions ==> dht.ring.vnodes[u] == WHOLE
    modifies dht
    ensures IsRing(dht, partitions, Pair(Valid)) && v < partitions && dht.ring.vnodes[v] == PARTED
  {
    ghost var before := dht.ring.vnodes;
    var ok, tried := dht.Propose(Proposal.Rebalance);
    v := SomeHanded(before, tried.vnodes, ok);
  }
}
