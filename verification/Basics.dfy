module Basics {
  newtype byte = b: int | 0 <= b < 256
  type Bytes = seq<byte>

  datatype Option<+T> = None | Some(value: T)

  lemma Associative<T>(a: seq<T>, b: seq<T>, c: seq<T>)
    ensures (a + b) + c == a + (b + c)
    ensures a + b <= a + (b + c)
  {
  }

  lemma FirstOut<T>(a: seq<T>, b: seq<T>)
    requires a != []
    ensures [a[0]] + (a[1..] + b) == a + b
  {
  }

  lemma UpdateTwice<T>(s: seq<T>, i: nat, x: T, y: T)
    requires i < |s|
    ensures s[i := x][i := y] == s[i := y]
  {
  }

  lemma UpdatesCommute<K, V>(m: map<K, V>, a: K, x: V, b: K, y: V)
    requires a != b
    ensures m[a := x][b := y] == m[b := y][a := x]
  {
  }

  lemma {:induction false} Subset<T>(a: set<T>, b: set<T>)
    requires a <= b
    ensures |a| <= |b|
  {
    if a != {} {
      var x :| x in a;
      Subset(a - {x}, b - {x});
    }
  }

  lemma SubsetSame<T>(a: set<T>, b: set<T>)
    requires a <= b && |a| == |b|
    ensures a == b
  {
    assert |b - a| == |b| - |a|;
  }

  lemma NothingLeft<T>(all: set<T>, some: set<T>)
    requires some <= all
    ensures all - some == {} <==> some == all
  {
    if all - some == {} {
      assert forall x :: x in all ==> x in some || x in all - some;
    }
  }

  lemma Exchanged<T>(a: set<T>, x: T, y: T)
    requires x in a && y !in a
    ensures |a - {x} + {y}| == |a|
  {
  }

  // ---------------------------------------------------------------- sums

  ghost function Sum<K(!new)>(ids: set<K>, f: K -> int): int {
    if ids == {} then 0 else var n :| n in ids; f(n) + Sum(ids - {n}, f)
  }

  lemma {:induction false} SumTakes<K(!new)>(ids: set<K>, f: K -> int, n: K)
    requires n in ids
    ensures Sum(ids, f) == f(n) + Sum(ids - {n}, f)
  {
    var k :| k in ids && Sum(ids, f) == f(k) + Sum(ids - {k}, f);
    if k != n {
      SumTakes(ids - {k}, f, n);
      SumTakes(ids - {n}, f, k);
      assert ids - {k} - {n} == ids - {n} - {k};
    }
  }

  lemma {:induction false} SumOfSum<K(!new)>(ids: set<K>, f: K -> int, g: K -> int, h: K -> int)
    requires forall n :: n in ids ==> h(n) == f(n) + g(n)
    ensures Sum(ids, h) == Sum(ids, f) + Sum(ids, g)
  {
    if ids != {} {
      var n :| n in ids;
      SumTakes(ids, f, n);
      SumTakes(ids, g, n);
      SumTakes(ids, h, n);
      SumOfSum(ids - {n}, f, g, h);
    }
  }

  lemma {:induction false} SumSame<K(!new)>(ids: set<K>, f: K -> int, g: K -> int)
    requires forall n :: n in ids ==> f(n) == g(n)
    ensures Sum(ids, f) == Sum(ids, g)
  {
    if ids != {} {
      var n :| n in ids;
      SumTakes(ids, f, n);
      SumTakes(ids, g, n);
      SumSame(ids - {n}, f, g);
    }
  }

  lemma {:induction false} SumNonNegative<K(!new)>(ids: set<K>, f: K -> int)
    requires forall n :: n in ids ==> f(n) >= 0
    ensures Sum(ids, f) >= 0
  {
    if ids != {} {
      var n :| n in ids;
      SumTakes(ids, f, n);
      SumNonNegative(ids - {n}, f);
    }
  }

  /** The sum is at least one term and low for each of the others. */
  lemma {:induction false} SumPigeonhole<K(!new)>(ids: set<K>, f: K -> int, low: int, n: K)
    requires n in ids && forall k :: k in ids ==> f(k) >= low
    ensures Sum(ids, f) >= f(n) + (|ids| - 1) * low
  {
    SumTakes(ids, f, n);
    if ids - {n} != {} {
      var k :| k in ids - {n};
      SumPigeonhole(ids - {n}, f, low, k);
      assert |ids - {n}| == |ids| - 1;
      assert (|ids| - 2) * low + low == (|ids| - 1) * low;
    } else {
      assert ids == {n};
    }
  }
}
