/** Who owns what in a ring (src/dht.rs:64-108), the derived index from nodes to vnodes, and how
    moving an owner changes the loads. */
module RingLoads {
  import opened Basics

  type NodeId = nat

  datatype NodeStatus = Valid | Leaving | Invalid

  datatype Ownership = Owner | Pending | Retiring

  /** info stands for the address and the metadata. */
  datatype Node = Node(info: string, status: NodeStatus)

  type Owners = map<NodeId, Ownership>

  type NodeMap = map<NodeId, set<nat>>

  function ValidNodes(nodes: map<NodeId, Node>): (r: set<NodeId>) {
    set n | n in nodes && nodes[n].status == Valid
  }

  /** The owners that are not retiring. */
  function Active(owners: Owners): (r: set<NodeId>) {
    set n | n in owners && owners[n] != Retiring
  }

  /** Of the first k vnodes, those n is active in. */
  function Held(vnodes: seq<Owners>, k: nat, n: NodeId): (r: set<nat>)
    requires k <= |vnodes|
  {
    set v: nat | v < k && n in Active(vnodes[v])
  }

  function Load(vnodes: seq<Owners>, n: NodeId): nat {
    |Held(vnodes, |vnodes|, n)|
  }

  function With(owners: Owners, n: NodeId, o: Ownership): Owners {
    owners[n := o]
  }

  ghost predicate OwnersOk(owners: Owners, nodes: map<NodeId, Node>, rf: nat) {
    && owners.Keys <= nodes.Keys
    && Active(owners) <= ValidNodes(nodes)
    && |Active(owners)| <= rf
  }

  /** What every operation keeps: active owners are valid, and no more than the replication factor. */
  ghost predicate RingOk(vnodes: seq<Owners>, nodes: map<NodeId, Node>, rf: nat) {
    forall v :: 0 <= v < |vnodes| ==> OwnersOk(vnodes[v], nodes, rf)
  }

  /** m is the exact inverse of the active owners. */
  ghost predicate Inverse(vnodes: seq<Owners>, m: NodeMap) {
    && (forall v :: 0 <= v < |vnodes| ==> Active(vnodes[v]) <= m.Keys)
    && (forall n :: n in m ==> m[n] == Held(vnodes, |vnodes|, n))
  }

  // ---------------------------------------------------------------- one owner more or less

  lemma Joined(vnodes: seq<Owners>, m: NodeMap, v: nat, n: NodeId, o: Ownership)
    requires v < |vnodes| && Inverse(vnodes, m) && n in m && n !in Active(vnodes[v]) && o != Retiring
    ensures v !in m[n]
    ensures Active(With(vnodes[v], n, o)) == Active(vnodes[v]) + {n}
    ensures Inverse(vnodes[v := With(vnodes[v], n, o)], m[n := m[n] + {v}])
  {
    assert Active(With(vnodes[v], n, o)) == Active(vnodes[v]) + {n};
    var vnodes' := vnodes[v := With(vnodes[v], n, o)];
    forall k | k in m
      ensures Held(vnodes', |vnodes|, k) == if k == n then m[k] + {v} else m[k]
    {
    }
  }

  lemma Retired(vnodes: seq<Owners>, m: NodeMap, v: nat, n: NodeId)
    requires v < |vnodes| && Inverse(vnodes, m) && n in Active(vnodes[v])
    ensures v in m[n]
    ensures Active(With(vnodes[v], n, Retiring)) == Active(vnodes[v]) - {n}
    ensures Inverse(vnodes[v := With(vnodes[v], n, Retiring)], m[n := m[n] - {v}])
  {
    assert Active(With(vnodes[v], n, Retiring)) == Active(vnodes[v]) - {n};
    var vnodes' := vnodes[v := With(vnodes[v], n, Retiring)];
    forall k | k in m
      ensures Held(vnodes', |vnodes|, k) == if k == n then m[k] - {v} else m[k]
    {
    }
  }

  // ---------------------------------------------------------------- counting

  ghost function Member(chosen: set<NodeId>): NodeId -> int {
    (n: NodeId) => if n in chosen then 1 else 0
  }

  lemma {:induction false} SumCounts(ids: set<NodeId>, chosen: set<NodeId>)
    requires chosen <= ids
    ensures Sum(ids, Member(chosen)) == |chosen|
  {
    if ids == {} {
      assert chosen == {};
    } else {
      var n :| n in ids;
      SumTakes(ids, Member(chosen), n);
      SumCounts(ids - {n}, chosen - {n});
      SumSame(ids - {n}, Member(chosen), Member(chosen - {n}));
      assert n !in chosen ==> chosen - {n} == chosen;
    }
  }

  // ---------------------------------------------------------------- loads

  ghost function HeldBy(vnodes: seq<Owners>, k: nat): NodeId -> int
    requires k <= |vnodes|
  {
    (n: NodeId) => |Held(vnodes, k, n)|
  }

  lemma OneMoreVNode(vnodes: seq<Owners>, ids: set<NodeId>, k: nat)
    requires k < |vnodes| && Active(vnodes[k]) <= ids
    ensures Sum(ids, HeldBy(vnodes, k + 1)) == Sum(ids, HeldBy(vnodes, k)) + |Active(vnodes[k])|
  {
    var last := Active(vnodes[k]);
    forall n | n in ids
      ensures HeldBy(vnodes, k + 1)(n) == HeldBy(vnodes, k)(n) + Member(last)(n)
    {
      assert Held(vnodes, k + 1, n) == Held(vnodes, k, n) + if n in last then {k} else {};
    }
    SumOfSum(ids, HeldBy(vnodes, k), Member(last), HeldBy(vnodes, k + 1));
    SumCounts(ids, last);
  }

  /** Double counting: with rf active owners in every vnode, the loads add up to vnodes * rf. */
  lemma {:induction false} LoadsAddUp(vnodes: seq<Owners>, ids: set<NodeId>, rf: nat, k: nat)
    requires k <= |vnodes|
    requires forall v :: 0 <= v < |vnodes| ==> Active(vnodes[v]) <= ids && |Active(vnodes[v])| == rf
    ensures Sum(ids, HeldBy(vnodes, k)) == k * rf
  {
    if k == 0 {
      forall n | n in ids
        ensures HeldBy(vnodes, 0)(n) == Member({})(n)
      {
        assert Held(vnodes, 0, n) == {};
      }
      SumSame(ids, HeldBy(vnodes, 0), Member({}));
      SumCounts(ids, {});
    } else {
      calc {
        Sum(ids, HeldBy(vnodes, k));
        { OneMoreVNode(vnodes, ids, k - 1); }
        Sum(ids, HeldBy(vnodes, k - 1)) + rf;
        { LoadsAddUp(vnodes, ids, rf, k - 1); }
        (k - 1) * rf + rf;
        { OneTimesMore(k, rf); }
        k * rf;
      }
    }
  }

  lemma OneTimesMore(k: int, rf: int)
    ensures k * rf == (k - 1) * rf + rf
  {
  }

  /** How far the loads are above the limit, all together. */
  ghost function Excess(m: NodeMap, limit: nat): int {
    Sum(m.Keys, Over(m, limit))
  }

  ghost function Over(m: NodeMap, limit: nat): NodeId -> int {
    (n: NodeId) => if n in m && |m[n]| > limit then |m[n]| - limit else 0
  }

  /** A swap lowers the excess by exactly one. */
  lemma SwapLowersExcess(m: NodeMap, m': NodeMap, limit: nat, giver: NodeId, taker: NodeId)
    requires giver in m && taker in m && |m[giver]| > limit > |m[taker]| && m'.Keys == m.Keys
    requires |m'[giver]| == |m[giver]| - 1 && |m'[taker]| == |m[taker]| + 1
    requires forall n :: n in m && n != giver && n != taker ==> m'[n] == m[n]
    ensures Excess(m', limit) == Excess(m, limit) - 1
  {
    var f, f' := Over(m, limit), Over(m', limit);
    SumTakes(m.Keys, f, giver);
    SumTakes(m.Keys, f', giver);
    SumSame(m.Keys - {giver}, f, f');
  }
}
