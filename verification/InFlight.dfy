/** A map whose entries expire (src/inflightmap.rs). The heap may also hold pairs of entries that
    are gone; of pairs with the same deadline any may be on top. */
module InFlight {
  import opened Basics

  type Time = int

  datatype Pair<K> = Pair(at: Time, key: K)

  type Heap<K(==)> = multiset<Pair<K>>

  predicate IsTop<K(==)>(heap: Heap<K>, x: Pair<K>) {
    x in heap && forall y :: y in heap ==> x.at <= y.at
  }

  lemma {:induction false} TopExists<K(!new)>(heap: Heap<K>) returns (x: Pair<K>)
    requires heap != multiset{}
    ensures IsTop(heap, x)
  {
    x :| x in heap;
    var rest := heap - multiset{x};
    assert forall y :: y in heap ==> y == x || y in rest;
    if rest != multiset{} {
      var y := TopExists(rest);
      if y.at < x.at { x := y; }
    }
  }

  ghost function DueKeys<K(!new)>(deadline: map<K, Time>, now: Time): set<K> {
    set k | k in deadline && deadline[k] <= now
  }

  /** Exactly one pair for each entry, with its deadline. */
  ghost predicate Exact<K(!new)>(heap: Heap<K>, deadline: map<K, Time>) {
    forall x: Pair<K> {:trigger heap[x]} :: x.key in deadline ==> heap[x] == if x.at == deadline[x.key] then 1 else 0
  }

  lemma TopIsEarliest<K(!new)>(heap: Heap<K>, deadline: map<K, Time>, x: Pair<K>)
    requires Exact(heap, deadline) && IsTop(heap, x)
    ensures x.key in deadline ==> deadline[x.key] == x.at
    ensures forall k :: k in deadline ==> x.at <= deadline[k]
  {
    assert heap[x] > 0;
    forall k | k in deadline
      ensures x.at <= deadline[k]
    {
      EntryInHeap(heap, deadline, k);
    }
  }

  lemma EntryInHeap<K(!new)>(heap: Heap<K>, deadline: map<K, Time>, k: K)
    requires Exact(heap, deadline) && k in deadline
    ensures Pair(deadline[k], k) in heap
  {
    assert heap[Pair(deadline[k], k)] == 1;
  }

  lemma DropKeeps<K(!new)>(heap: Heap<K>, deadline: map<K, Time>, x: Pair<K>)
    requires Exact(heap, deadline) && x in heap
    ensures Exact(heap - multiset{x}, deadline - {x.key})
  {
  }

  lemma TouchKeeps<K(!new)>(heap: Heap<K>, deadline: map<K, Time>, x: Pair<K>, expire: Time)
    requires Exact(heap, deadline) && x in heap && x.key in deadline && x.at == deadline[x.key]
    ensures Exact(heap - multiset{x} + multiset{Pair(expire, x.key)}, deadline[x.key := expire])
  {
  }

  lemma NothingDue<K(!new)>(heap: Heap<K>, deadline: map<K, Time>)
    requires Exact(heap, deadline) && heap == multiset{}
    ensures deadline == map[]
  {
    if k :| k in deadline {
      EntryInHeap(heap, deadline, k);
    }
  }

  class InFlightMap<K(==, !new), V(!new)> {
    var entries: map<K, V>
    var heap: Heap<K>
    /** When each entry expires. */
    ghost var deadline: map<K, Time>

    ghost predicate Valid()
      reads this
    {
      deadline.Keys == entries.Keys && Exact(heap, deadline)
    }

    /** The key was not used before, or is not in the heap any more. */
    ghost predicate Unused(key: K)
      reads this
    {
      key !in entries && forall e :: Pair(e, key) !in heap
    }

    constructor ()
      ensures Valid() && entries == map[] && heap == multiset{} && deadline == map[]
    {
      entries, heap, deadline := map[], multiset{}, map[];
    }

    /** Inserting a key that is present is a panic. */
    method Insert(key: K, value: V, expire: Time)
      requires key !in entries
      modifies this
      ensures entries == old(entries)[key := value] && deadline == old(deadline)[key := expire]
      ensures heap == old(heap) + multiset{Pair(expire, key)}
      ensures old(Valid() && Unused(key)) ==> Valid()
    {
      heap := heap + multiset{Pair(expire, key)};
      entries, deadline := entries[key := value], deadline[key := expire];
    }

    /** The pair stays in the heap. */
    method Remove(key: K) returns (r: Option<V>)
      modifies this`entries, this`deadline
      ensures r == if key in old(entries) then Some(old(entries)[key]) else None
      ensures entries == old(entries) - {key} && deadline == old(deadline) - {key}
      ensures old(Valid()) ==> Valid()
    {
      r := if key in entries then Some(entries[key]) else None;
      entries, deadline := entries - {key}, deadline - {key};
    }

    /** Through an occupied entry. */
    method Replace(key: K, value: V)
      requires key in entries
      modifies this`entries
      ensures entries == old(entries)[key := value]
      ensures old(Valid()) ==> Valid()
    {
      entries := entries[key := value];
    }

    /** The loop of pop_expired and touch_expired: pairs of entries that are gone are dropped until
        the pair on top belongs to an entry or is not due. */
    method NextExpired(now: Time) returns (x: Option<Pair<K>>)
      requires Valid()
      modifies this`heap
      ensures Valid() && heap <= old(heap)
      ensures x.None? <==> DueKeys(deadline, now) == {}
      ensures x.Some? ==> var Pair(at, key) := x.value;
                          && x.value in heap && key in entries && at == deadline[key] <= now
                          && forall k :: k in entries ==> at <= deadline[k]
    {
      while heap != multiset{}
        invariant Valid() && heap <= old(heap)
        decreases |heap|
      {
        ghost var _ := TopExists(heap);
        var top :| IsTop(heap, top);
        TopIsEarliest(heap, deadline, top);
        if now < top.at { return None; }
        if top.key in entries {
          assert top.key in DueKeys(deadline, now);
          return Some(top);
        }
        DropKeeps(heap, deadline, top);
        heap := heap - multiset{top};
        assert deadline - {top.key} == deadline;
      }
      NothingDue(heap, deadline);
      return None;
    }

    /** The entry with the earliest deadline if that has come; none only if nothing is due. */
    method PopExpired(now: Time) returns (r: Option<(K, V)>)
      requires Valid()
      modifies this
      ensures Valid() && heap <= old(heap)
      ensures r.None? <==> DueKeys(old(deadline), now) == {}
      ensures r.None? ==> entries == old(entries) && deadline == old(deadline)
      ensures r.Some? ==> var (k, v) := r.value;
                          && k in old(entries) && old(entries)[k] == v && old(deadline)[k] <= now
                          && entries == old(entries) - {k} && deadline == old(deadline) - {k}
                          && forall k' :: k' in entries ==> old(deadline)[k] <= deadline[k']
    {
      var x := NextExpired(now);
      if x.None? { return None; }
      var key := x.value.key;
      DropKeeps(heap, deadline, x.value);
      heap := heap - multiset{x.value};
      r := Some((key, entries[key]));
      entries, deadline := entries - {key}, deadline - {key};
    }

    /** Like PopExpired, but the entry stays and gets a new deadline. */
    method TouchExpired(now: Time, expire: Time) returns (r: Option<(K, V)>)
      requires Valid()
      modifies this`heap, this`deadline
      ensures Valid()
      ensures r.None? <==> DueKeys(old(deadline), now) == {}
      ensures r.None? ==> deadline == old(deadline)
      ensures r.Some? ==> var (k, v) := r.value;
                          && k in entries && entries[k] == v && old(deadline)[k] <= now
                          && deadline == old(deadline)[k := expire]
    {
      var x := NextExpired(now);
      if x.None? { return None; }
      var key := x.value.key;
      TouchKeeps(heap, deadline, x.value, expire);
      heap := heap - multiset{x.value} + multiset{Pair(expire, key)};
      deadline := deadline[key := expire];
      r := Some((key, entries[key]));
    }

    /** The resend loop of send_next: every entry that is due is sent again, once. */
    method ResendExpired(now: Time, expire: Time) returns (sent: seq<K>)
      requires Valid() && expire > now
      modifies this`heap, this`deadline
      ensures Valid() && deadline == map k | k in entries :: if old(deadline)[k] <= now then expire else old(deadline)[k]
      ensures forall k :: k in sent <==> k in entries && old(deadline)[k] <= now
      ensures forall i, j :: 0 <= i < j < |sent| ==> sent[i] != sent[j]
    {
      sent := [];
      while true
        invariant Valid()
        invariant forall k :: k in entries ==> deadline[k] == if k in sent then expire else old(deadline)[k]
        invariant forall k :: k in sent ==> k in entries && old(deadline)[k] <= now
        invariant forall i, j :: 0 <= i < j < |sent| ==> sent[i] != sent[j]
        decreases DueKeys(deadline, now)
      {
        ghost var before := DueKeys(deadline, now);
        var r := TouchExpired(now, expire);
        if r.None? {
          assert forall k :: k in entries && deadline[k] <= now ==> k in before;
          return;
        }
        sent := sent + [r.value.0];
        assert DueKeys(deadline, now) == before - {r.value.0} && r.value.0 in before;
      }
    }
  }
}
