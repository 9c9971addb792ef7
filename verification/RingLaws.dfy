/** What each proposal does to the ring, owner by owner (src/dht.rs:163-310, 428-458, 1037-1048), and who is
    left with the data of a vnode. Pending owners do not have it yet; owners and retiring ones do. */
module RingLaws {
  import opened Basics
  import opened RingLoads
  import opened Rings

  /** A ring, as a value. */
  datatype View = View(vnodes: seq<Owners>, nodes: map<NodeId, Node>)

  ghost predicate Becomes(a: View, p: Proposal, rf: nat, b: View, ok: bool) {
    Effect(p, a.vnodes, a.nodes, rf, b.vnodes, b.nodes, ok)
  }

  /** Nothing changes of the owners but n. */
  ghost predicate OthersStay(owners: Owners, owners': Owners, n: NodeId) {
    forall k :: k != n ==> (k in owners' <==> k in owners) && (k in owners ==> owners'[k] == owners[k])
  }

  ghost predicate OtherNodesStay(nodes: map<NodeId, Node>, nodes': map<NodeId, Node>, n: NodeId) {
    forall k :: k != n ==> (k in nodes' <==> k in nodes) && (k in nodes ==> nodes'[k] == nodes[k])
  }

  /** A node that leaves retires where it owned and stays to hand over. */
  lemma Leaves(a: View, n: NodeId, rf: nat, b: View, ok: bool, v: nat)
    requires Becomes(a, Leave(n), rf, b, ok) && v < |a.vnodes|
    ensures ok && |b.vnodes| == |a.vnodes|
    ensures b.vnodes[v].Keys == a.vnodes[v].Keys && OthersStay(a.vnodes[v], b.vnodes[v], n)
    ensures n in a.vnodes[v] ==> b.vnodes[v][n] == Retiring
    ensures b.nodes.Keys == a.nodes.Keys && OtherNodesStay(a.nodes, b.nodes, n)
    ensures n in a.nodes ==> b.nodes[n].status == Leaving && b.nodes[n].info == a.nodes[n].info
  {
  }

  /** A node that is removed owns nothing and is remembered as invalid. */
  lemma Removes(a: View, n: NodeId, rf: nat, b: View, ok: bool, v: nat)
    requires Becomes(a, Remove(n), rf, b, ok) && v < |a.vnodes|
    ensures ok && |b.vnodes| == |a.vnodes|
    ensures n !in b.vnodes[v] && OthersStay(a.vnodes[v], b.vnodes[v], n)
    ensures b.nodes.Keys == a.nodes.Keys && OtherNodesStay(a.nodes, b.nodes, n)
    ensures n in a.nodes ==> b.nodes[n].status == Invalid && b.nodes[n].info == a.nodes[n].info
  {
  }

  /** k is valid and on the same machine as n, by the upper halves of their ids. */
  predicate Beside(nodes: map<NodeId, Node>, k: NodeId, n: NodeId) {
    k in nodes && nodes[k].status == Valid && k / 0x1_0000_0000 == n / 0x1_0000_0000
  }

  ghost predicate AloneOn(nodes: map<NodeId, Node>, n: NodeId) {
    forall k, l :: Beside(nodes, k, n) && Beside(nodes, l, n) ==> k == l
  }

  lemma AloneIff(nodes: map<NodeId, Node>, n: NodeId)
    ensures |ValidOn(nodes, Physical(n))| <= 1 <==> AloneOn(nodes, n)
  {
    var on := ValidOn(nodes, Physical(n));
    if |on| <= 1 {
      forall k: NodeId, l: NodeId | Beside(nodes, k, n) && Beside(nodes, l, n) ensures k == l {
        if k != l { Subset({k, l}, on); }
      }
    } else {
      var k :| k in on;
      assert |on - {k}| > 0;
      var l :| l in on - {k};
      assert Beside(nodes, k, n) && Beside(nodes, l, n);
    }
  }

  /** A new node is valid and owns nothing; one that is known keeps its status. A change is refused exactly
      when the machine would have two valid nodes. */
  lemma JoinsRing(a: View, n: NodeId, info: string, rf: nat, b: View, ok: bool)
    requires Becomes(a, Join(n, info), rf, b, ok)
    ensures b.vnodes == a.vnodes && b.nodes.Keys == a.nodes.Keys + {n} && OtherNodesStay(a.nodes, b.nodes, n)
    ensures b.nodes[n].info == info && b.nodes[n].status == if n in a.nodes then a.nodes[n].status else Valid
    ensures ok <==> (n in a.nodes && a.nodes[n].info == info) || AloneOn(b.nodes, n)
  {
    AloneIff(b.nodes, n);
  }

  /** The new node takes the place of the old one, with its status, wherever that was an owner. */
  lemma Replaces(a: View, gone: NodeId, n: NodeId, info: string, rf: nat, b: View, ok: bool, v: nat)
    requires Becomes(a, Replace(gone, n, info), rf, b, ok) && ok && v < |a.vnodes| && gone != n
    ensures |b.vnodes| == |a.vnodes| && n !in a.nodes && gone in a.nodes
    ensures gone !in b.vnodes[v]
    ensures n !in a.vnodes[v] ==> (n in b.vnodes[v] <==> gone in a.vnodes[v])
    ensures gone in a.vnodes[v] ==> n in b.vnodes[v] && b.vnodes[v][n] == a.vnodes[v][gone]
    ensures forall k :: k != gone && k != n ==>
              (k in b.vnodes[v] <==> k in a.vnodes[v]) && (k in a.vnodes[v] ==> b.vnodes[v][k] == a.vnodes[v][k])
    ensures b.nodes.Keys == a.nodes.Keys + {n} && b.nodes[n] == Node(info, Valid)
    ensures b.nodes[gone].status == Invalid && b.nodes[gone].info == a.nodes[gone].info && AloneOn(b.nodes, n)
    ensures forall k :: k in a.nodes && k != gone ==> b.nodes[k] == a.nodes[k]
  {
    AloneIff(b.nodes, n);
  }

  /** A replacement is refused exactly for a known node, for nobody to replace, and for a machine in use. */
  lemma ReplacesIff(a: View, gone: NodeId, n: NodeId, info: string, rf: nat, b: View, ok: bool)
    requires Becomes(a, Replace(gone, n, info), rf, b, ok) && gone != n
    ensures ok <==> n !in a.nodes && gone in a.nodes && forall k :: Beside(a.nodes, k, n) ==> k == gone
  {
    var nodes := NodeReplaced(a.nodes, gone, n, info);
    AloneIff(nodes, n);
    if n !in a.nodes && gone in a.nodes {
      assert Beside(nodes, n, n);
      forall k ensures Beside(nodes, k, n) <==> k == n || (k != gone && Beside(a.nodes, k, n)) {
      }
    }
  }

  /** With few valid nodes, each of them that did not own a vnode, or was retiring from it, becomes pending, or
      the owner if it is the only node ever known; all others keep their status. */
  lemma FewRebalance(a: View, rf: nat, b: View, ok: bool, v: nat, n: NodeId)
    requires Becomes(a, Rebalance, rf, b, ok) && |ValidNodes(a.nodes)| <= rf && v < |a.vnodes|
    ensures ok && b.nodes == a.nodes && |b.vnodes| == |a.vnodes|
    ensures var valid := n in a.nodes && a.nodes[n].status == Valid;
            && (n in b.vnodes[v] <==> n in a.vnodes[v] || valid)
            && (valid && (n !in a.vnodes[v] || a.vnodes[v][n] == Retiring) ==>
                  b.vnodes[v][n] == if |a.nodes| == 1 then Owner else Pending)
            && (n in a.vnodes[v] && (!valid || a.vnodes[v][n] != Retiring) ==> b.vnodes[v][n] == a.vnodes[v][n])
  {
  }

  lemma Quotient(a: nat, b: nat, q: nat, r: nat)
    requires a == q * b + r && r < b
    ensures a / b == q && a % b == r && Ceiling(a, b) == q + if r > 0 then 1 else 0
  {
    Unique(a, b, q, r, a / b, a % b);
    if r > 0 {
      Unique(a + b - 1, b, q + 1, r - 1, (a + b - 1) / b, (a + b - 1) % b);
    } else {
      Unique(a + b - 1, b, q, b - 1, (a + b - 1) / b, (a + b - 1) % b);
    }
  }

  lemma Unique(a: nat, b: nat, q: nat, r: nat, q': nat, r': nat)
    requires a == q * b + r == q' * b + r' && r < b && r' < b
    ensures q == q' && r == r'
  {
    MoreTimes(q, q', b);
    MoreTimes(q', q, b);
  }

  lemma {:induction false} MoreTimes(q: nat, q': nat, b: nat)
    ensures q < q' ==> q' * b >= q * b + b
    decreases q'
  {
    if q < q' {
      assert q' * b == (q' - 1) * b + b;
      MoreTimes(q, q' - 1, b);
    }
  }

  /** With more valid nodes than replicas, the new ring is taken exactly when every vnode has all its replicas
      and no node more vnodes than its rounded-up share and all that does not divide. */
  lemma ManyRebalanceIff(a: View, rf: nat, b: View, ok: bool, q: nat, r: nat)
    requires Becomes(a, Rebalance, rf, b, ok) && |ValidNodes(a.nodes)| > rf
    requires |a.vnodes| * rf == q * |ValidNodes(a.nodes)| + r && r < |ValidNodes(a.nodes)|
    ensures ok <==> && (forall v :: 0 <= v < |b.vnodes| ==> |Active(b.vnodes[v])| == rf)
                    && forall n :: Load(b.vnodes, n) <= q + (if r > 0 then 1 else 0) + r
  {
    Quotient(|a.vnodes| * rf, |ValidNodes(a.nodes)|, q, r);
  }

  // ---------------------------------------------------------------- who has the data

  ghost predicate Holder(owners: Owners, n: NodeId) {
    n in owners && owners[n] != Pending
  }

  ghost predicate HasData(owners: Owners) {
    exists n :: Holder(owners, n)
  }

  /** What would leave a vnode with nobody who has its data: the last holder is removed, or all holders are
      valid and retiring when few valid nodes are left. */
  ghost predicate Forgets(owners: Owners, nodes: map<NodeId, Node>, rf: nat, p: Proposal) {
    match p
    case Remove(n) => forall k :: Holder(owners, k) ==> k == n
    case Rebalance => && |ValidNodes(nodes)| <= rf && |nodes| != 1
                      && forall k :: Holder(owners, k) ==> owners[k] == Retiring && k in ValidNodes(nodes)
    case _ => false
  }

  lemma PromotedHas(owners: Owners, owners': Owners, n: NodeId)
    requires n in owners && Promoted(owners, owners', n)
    ensures Holder(owners', n)
  {
  }

  lemma RebuiltHas(owners: Owners, owners': Owners, valid: set<NodeId>, rf: nat, n: NodeId)
    requires Rebuilt(owners, owners', valid, rf) && Holder(owners, n)
    ensures Holder(owners', n)
  {
    var complete :| Completed(owners, complete, valid, rf) && HandedOn(complete, owners', valid);
  }

  lemma EveryoneHas(owners: Owners, nodes: map<NodeId, Node>, n: NodeId)
    requires Holder(owners, n) && owners.Keys <= nodes.Keys
    ensures var owners' := Everyone(owners, ValidNodes(nodes), if |nodes| == 1 then Owner else Pending);
            Holder(owners', n) <==> |nodes| == 1 || !(owners[n] == Retiring && n in ValidNodes(nodes))
  {
  }

  /** With |nodes| > 1, who holds the data after the branch for few nodes held it before. */
  lemma EveryoneOnly(owners: Owners, nodes: map<NodeId, Node>, n: NodeId)
    requires |nodes| != 1 && Holder(Everyone(owners, ValidNodes(nodes), Pending), n)
    ensures Holder(owners, n) && !(owners[n] == Retiring && n in ValidNodes(nodes))
  {
  }

  /** Someone is left with the data of a vnode exactly unless the proposal makes it forgotten. */
  lemma DataStaysIff(a: View, p: Proposal, rf: nat, b: View, v: nat)
    requires Becomes(a, p, rf, b, true) && v < |a.vnodes| && a.vnodes[v].Keys <= a.nodes.Keys && HasData(a.vnodes[v])
    ensures |b.vnodes| == |a.vnodes| && (HasData(b.vnodes[v]) <==> !Forgets(a.vnodes[v], a.nodes, rf, p))
  {
    var owners, owners' := a.vnodes[v], b.vnodes[v];
    var n :| Holder(owners, n);
    match p
    case Join(_, _) =>
    case Leave(k) => assert Holder(owners', n);
    case Remove(k) =>
      assert forall m :: Holder(owners', m) ==> Holder(owners, m) && m != k;
      if m :| Holder(owners, m) && m != k { assert Holder(owners', m); }
    case Replace(gone, k, _) =>
      assert if n == gone then Holder(owners', k) else n != k ==> Holder(owners', n);
    case Promote(k, u) =>
      if u == v { PromotedHas(owners, owners', k); }
    case Rebalance =>
      if |ValidNodes(a.nodes)| > rf {
        RebuiltHas(owners, owners', ValidNodes(a.nodes), rf, n);
      } else {
        FewKeep(owners, owners', a.nodes, n);
      }
  }

  lemma FewKeep(owners: Owners, owners': Owners, nodes: map<NodeId, Node>, n: NodeId)
    requires Holder(owners, n) && owners.Keys <= nodes.Keys
    requires owners' == Everyone(owners, ValidNodes(nodes), if |nodes| == 1 then Owner else Pending)
    ensures HasData(owners') <==>
              |nodes| == 1 || exists k :: Holder(owners, k) && !(owners[k] == Retiring && k in ValidNodes(nodes))
  {
    EveryoneHas(owners, nodes, n);
    if k :| Holder(owners, k) && !(owners[k] == Retiring && k in ValidNodes(nodes)) {
      EveryoneHas(owners, nodes, k);
    } else if |nodes| != 1 {
      forall k ensures !Holder(owners', k) {
        if Holder(owners', k) { EveryoneOnly(owners, nodes, k); }
      }
    }
  }

  // ---------------------------------------------------------------- over any sequence of proposals

  /** The rings that accepted proposals lead through. */
  ghost predicate IsTrace(views: seq<View>, proposals: seq<Proposal>, rf: nat) {
    && |views| == |proposals| + 1 && (forall i :: 0 <= i < |views| ==> RingOk(views[i].vnodes, views[i].nodes, rf))
    && forall i :: 0 <= i < |proposals| ==> Accepted(views, proposals, rf, i)
  }

  ghost predicate Accepted(views: seq<View>, proposals: seq<Proposal>, rf: nat, i: nat)
    requires i < |proposals| && |views| == |proposals| + 1
  {
    Becomes(views[i], proposals[i], rf, views[i + 1], true)
  }

  /** Once someone has the data of a vnode, someone has it as long as no proposal makes it forgotten. */
  lemma {:induction false} DataSurvives(views: seq<View>, proposals: seq<Proposal>, rf: nat, v: nat, i: nat)
    requires IsTrace(views, proposals, rf) && i <= |proposals| && v < |views[0].vnodes| && HasData(views[0].vnodes[v])
    requires forall j :: 0 <= j < i && v < |views[j].vnodes| ==> !Forgets(views[j].vnodes[v], views[j].nodes, rf, proposals[j])
    ensures |views[i].vnodes| == |views[0].vnodes| && HasData(views[i].vnodes[v])
  {
    if i > 0 {
      DataSurvives(views, proposals, rf, v, i - 1);
      assert Accepted(views, proposals, rf, i - 1);
      assert OwnersOk(views[i - 1].vnodes[v], views[i - 1].nodes, rf);
      DataStaysIff(views[i - 1], proposals[i - 1], rf, views[i], v);
    }
  }
}
