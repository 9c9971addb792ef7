/** DeltaVersionVector: intervals and exceptions of all ids in one flat vector
    (src/version_vector.rs:436-541). */
module DeltaVectors {
  import opened Clocks

  type Vec = seq<Dot>

  /** The entries of one id: base stands for all versions up to it, more for single ones. */
  datatype Run = Run(id: Id, base: Version, more: seq<Version>)

  /** Strictly ascending, with a gap after the base. */
  ghost predicate RunOk(r: Run) {
    && (forall i :: 0 <= i < |r.more| ==> r.base + 1 < r.more[i])
    && (forall i, j :: 0 <= i < j < |r.more| ==> r.more[i] < r.more[j])
  }

  ghost predicate RunsOk(runs: seq<Run>) {
    && (forall k :: 0 <= k < |runs| ==> RunOk(runs[k]))
    && (forall i, j :: 0 <= i < j < |runs| ==> runs[i].id != runs[j].id)
  }

  function Dots(id: Id, versions: seq<Version>): (r: Vec) {
    seq(|versions|, i requires 0 <= i < |versions| => Dot(id, versions[i]))
  }

  function FlatRun(r: Run): Vec {
    [Dot(r.id, r.base)] + Dots(r.id, r.more)
  }

  function Flat(runs: seq<Run>): (r: Vec) {
    if runs == [] then [] else FlatRun(runs[0]) + Flat(runs[1..])
  }

  ghost predicate RunHas(r: Run, x: Version) {
    x <= r.base || x in r.more
  }

  ghost predicate InSome(runs: seq<Run>, d: Dot) {
    exists k :: 0 <= k < |runs| && runs[k].id == d.id && RunHas(runs[k], d.version)
  }

  /** The set of dots a vector stands for. */
  ghost function Denoted(runs: seq<Run>): iset<Dot> {
    iset d: Dot | d.version != 0 && InSome(runs, d)
  }

  ghost function RunDots(r: Run): iset<Dot> {
    iset d: Dot | d.version != 0 && d.id == r.id && RunHas(r, d.version)
  }

  /** The versions of id from low to high. */
  ghost function Between(id: Id, low: Version, high: Version): iset<Dot> {
    iset d: Dot | d.version != 0 && d.id == id && low <= d.version <= high
  }

  // ---------------------------------------------------------------- runs in the vector

  lemma {:induction false} FlatJoins(a: seq<Run>, b: seq<Run>)
    ensures Flat(a + b) == Flat(a) + Flat(b)
  {
    if a == [] {
      assert a + b == b;
    } else {
      assert (a + b)[1..] == a[1..] + b;
      FlatJoins(a[1..], b);
    }
  }

  lemma FlatAt(runs: seq<Run>, k: nat, r: Run)
    requires k < |runs|
    ensures Flat(runs[k := r]) == Flat(runs[..k]) + FlatRun(r) + Flat(runs[k + 1..])
  {
    var rest := [r] + runs[k + 1..];
    assert runs[k := r] == runs[..k] + rest;
    FlatJoins(runs[..k], rest);
    assert rest[1..] == runs[k + 1..];
  }

  lemma FlatAppends(runs: seq<Run>, r: Run)
    ensures Flat(runs + [r]) == Flat(runs) + FlatRun(r)
  {
    FlatJoins(runs, [r]);
    assert [r][1..] == [];
  }

  /** The run of an id starts where the id occurs first. */
  lemma {:induction false} FindRun(runs: seq<Run>, id: Id, p: nat) returns (k: nat)
    requires p < |Flat(runs)| && Flat(runs)[p].id == id && forall i :: 0 <= i < p ==> Flat(runs)[i].id != id
    ensures k < |runs| && runs[k].id == id && |Flat(runs[..k])| == p
  {
    var head, tail := FlatRun(runs[0]), Flat(runs[1..]);
    if p < |head| {
      assert Flat(runs)[0].id == runs[0].id && Flat(runs)[p].id == runs[0].id;
      k := 0;
    } else {
      assert forall i :: 0 <= i < |tail| ==> tail[i] == Flat(runs)[|head| + i];
      k := FindRun(runs[1..], id, p - |head|);
      k := k + 1;
      assert runs[..k][1..] == runs[1..][..k - 1];
    }
  }

  lemma {:induction false} NoRun(runs: seq<Run>, id: Id, k: nat)
    requires k < |runs| && forall i :: 0 <= i < |Flat(runs)| ==> Flat(runs)[i].id != id
    ensures runs[k].id != id
  {
    assert Flat(runs)[0].id == runs[0].id;
    if k > 0 {
      var head, tail := FlatRun(runs[0]), Flat(runs[1..]);
      assert forall i :: 0 <= i < |tail| ==> tail[i] == Flat(runs)[|head| + i];
      NoRun(runs[1..], id, k - 1);
    }
  }

  /** The run stands at b in v, and what follows belongs to another id. */
  ghost predicate StandsAt(v: Vec, b: nat, r: Run) {
    && b + 1 + |r.more| <= |v|
    && v[b] == Dot(r.id, r.base)
    && (forall t :: 0 <= t < |r.more| ==> v[b + 1 + t] == Dot(r.id, r.more[t]))
    && (b + 1 + |r.more| < |v| ==> v[b + 1 + |r.more|].id != r.id)
  }

  lemma RunStandsAt(runs: seq<Run>, k: nat)
    requires RunsOk(runs) && k < |runs|
    ensures StandsAt(Flat(runs), |Flat(runs[..k])|, runs[k])
    ensures Flat(runs) == Flat(runs[..k]) + FlatRun(runs[k]) + Flat(runs[k + 1..])
  {
    assert runs[k := runs[k]] == runs;
    FlatAt(runs, k, runs[k]);
    AnotherFollows(runs, k);
    StandsBetween(Flat(runs[..k]), runs[k], Flat(runs[k + 1..]));
  }

  lemma AnotherFollows(runs: seq<Run>, k: nat)
    requires RunsOk(runs) && k < |runs|
    ensures Flat(runs[k + 1..]) != [] ==> Flat(runs[k + 1..])[0].id != runs[k].id
  {
    if k + 1 < |runs| {
      assert Flat(runs[k + 1..])[0].id == runs[k + 1].id;
    }
  }

  lemma StandsBetween(a: Vec, r: Run, b: Vec)
    requires b != [] ==> b[0].id != r.id
    ensures StandsAt(a + FlatRun(r) + b, |a|, r)
  {
  }

  // ---------------------------------------------------------------- changing one run

  lemma RunChanges(runs: seq<Run>, k: nat, r: Run)
    requires RunsOk(runs) && k < |runs| && RunOk(r) && r.id == runs[k].id
    ensures RunsOk(runs[k := r])
    ensures Denoted(runs[k := r]) == Denoted(runs) - RunDots(runs[k]) + RunDots(r)
  {
    var runs' := runs[k := r];
    forall d: Dot
      ensures InSome(runs', d) <==> if d.id == r.id then RunHas(r, d.version) else InSome(runs, d)
    {
      if d.id == r.id {
        assert runs'[k] == r;
      } else {
        assert forall i :: 0 <= i < |runs| && runs[i].id == d.id ==> runs'[i] == runs[i];
        assert forall i :: 0 <= i < |runs| && runs'[i].id == d.id ==> runs'[i] == runs[i];
      }
    }
    RunIsIn(runs, k);
  }

  lemma RunIsIn(runs: seq<Run>, k: nat)
    requires RunsOk(runs) && k < |runs|
    ensures RunDots(runs[k]) <= Denoted(runs)
    ensures forall d :: d in Denoted(runs) && d.id == runs[k].id ==> d in RunDots(runs[k])
  {
  }

  /** If a run gains versions from low to high, so does the vector. */
  lemma RunGains(runs: seq<Run>, k: nat, r: Run, low: Version, high: Version)
    requires RunsOk(runs) && k < |runs| && RunOk(r) && r.id == runs[k].id
    requires RunDots(r) == RunDots(runs[k]) + Between(r.id, low, high)
    ensures RunsOk(runs[k := r]) && Denoted(runs[k := r]) == Denoted(runs) + Between(r.id, low, high)
  {
    RunChanges(runs, k, r);
    RunIsIn(runs, k);
  }

  lemma RunAppended(runs: seq<Run>, r: Run)
    requires RunsOk(runs) && RunOk(r) && forall k :: 0 <= k < |runs| ==> runs[k].id != r.id
    ensures RunsOk(runs + [r]) && Denoted(runs + [r]) == Denoted(runs) + RunDots(r)
  {
    var runs' := runs + [r];
    forall d: Dot
      ensures InSome(runs', d) <==> InSome(runs, d) || (d.id == r.id && RunHas(r, d.version))
    {
      assert forall i :: 0 <= i < |runs| ==> runs'[i] == runs[i];
      assert runs'[|runs|] == r;
    }
  }

  lemma OneDot(id: Id, version: Version)
    requires version != 0
    ensures Between(id, version, version) == iset{Dot(id, version)}
    ensures RunDots(if version == 1 then Run(id, 1, []) else Run(id, 0, [version])) == iset{Dot(id, version)}
  {
  }

  lemma NextVersion(runs: seq<Run>, k: nat)
    requires RunsOk(runs) && k < |runs|
    ensures var r := runs[k];
            Denoted(runs) + Between(r.id, 0, r.base + 1) == Denoted(runs) + iset{Dot(r.id, r.base + 1)}
  {
    RunIsIn(runs, k);
    var r := runs[k];
    assert forall d :: d in Between(r.id, 0, r.base + 1) ==> d in RunDots(r) || d == Dot(r.id, r.base + 1);
  }

  /** A version the run has is no news. */
  lemma Known(runs: seq<Run>, k: nat, version: Version)
    requires RunsOk(runs) && k < |runs| && RunHas(runs[k], version) && version != 0
    ensures Denoted(runs) == Denoted(runs) + iset{Dot(runs[k].id, version)}
  {
    RunIsIn(runs, k);
    assert Dot(runs[k].id, version) in RunDots(runs[k]);
  }

  ghost function ExceptionDots(id: Id, more: seq<Version>): iset<Dot> {
    iset d: Dot | d.version != 0 && d.id == id && d.version in more
  }

  lemma RunInParts(r: Run)
    ensures RunDots(r) == Between(r.id, 0, r.base) + ExceptionDots(r.id, r.more)
  {
  }

  lemma OneMoreException(id: Id, more: seq<Version>, t: nat, others: iset<Dot>)
    requires t < |more| && more[t] != 0
    ensures others + ExceptionDots(id, more[..t]) + iset{Dot(id, more[t])} == others + ExceptionDots(id, more[..t + 1])
  {
    assert more[..t + 1] == more[..t] + [more[t]];
  }

  lemma OneMoreRun(runs: seq<Run>, k: nat)
    requires RunsOk(runs) && k < |runs|
    ensures Denoted(runs[..k]) + RunDots(runs[k]) == Denoted(runs[..k + 1])
  {
    assert runs[..k + 1] == runs[..k] + [runs[k]];
    RunAppended(runs[..k], runs[k]);
  }

  lemma DotsSplit(id: Id, versions: seq<Version>, t: nat)
    requires t <= |versions|
    ensures Dots(id, versions) == Dots(id, versions[..t]) + Dots(id, versions[t..])
  {
  }

  lemma CollapseAt(pre: Vec, x: Dot, a: Vec, c: Vec, post: Vec, y: Dot)
    ensures var v, b := pre + ([x] + (a + c)) + post, |pre|;
            v[..b] + [y] + v[b + 1 + |a|..] == pre + ([y] + c) + post
  {
    var v, b := pre + ([x] + (a + c)) + post, |pre|;
    assert v[..b] == pre && v[b + 1 + |a|..] == c + post;
  }

  lemma InsertAt(pre: Vec, x: Dot, a: Vec, c: Vec, post: Vec, y: Dot)
    ensures var v, p := pre + ([x] + (a + c)) + post, |pre| + 1 + |a|;
            v[..p] + [y] + v[p..] == pre + ([x] + (a + [y] + c)) + post
  {
    var v, p := pre + ([x] + (a + c)) + post, |pre| + 1 + |a|;
    assert v[..p] == pre + ([x] + a) && v[p..] == c + post;
  }

  /** The base moves up and takes in the first t exceptions. */
  lemma Collapses(runs: seq<Run>, k: nat, t: nat, base: Version)
    requires k < |runs| && t <= |runs[k].more|
    ensures var v, b, r := Flat(runs), |Flat(runs[..k])|, runs[k];
            && b + 1 + t <= |v|
            && v[..b] + [Dot(r.id, base)] + v[b + 1 + t..] == Flat(runs[k := Run(r.id, base, r.more[t..])])
  {
    var r, pre, post := runs[k], Flat(runs[..k]), Flat(runs[k + 1..]);
    var a, c := Dots(r.id, r.more[..t]), Dots(r.id, r.more[t..]);
    RunSplit(runs, k, t);
    FlatAt(runs, k, Run(r.id, base, r.more[t..]));
    CollapseAt(pre, Dot(r.id, r.base), a, c, post, Dot(r.id, base));
  }

  lemma RunSplit(runs: seq<Run>, k: nat, t: nat)
    requires k < |runs| && t <= |runs[k].more|
    ensures var r := runs[k];
            Flat(runs) == Flat(runs[..k])
                          + ([Dot(r.id, r.base)] + (Dots(r.id, r.more[..t]) + Dots(r.id, r.more[t..])))
                          + Flat(runs[k + 1..])
  {
    assert runs[k := runs[k]] == runs;
    FlatAt(runs, k, runs[k]);
    DotsSplit(runs[k].id, runs[k].more, t);
  }

  lemma CollapsedHas(r: Run, t: nat, base: Version, version: Version)
    requires RunOk(r) && t <= |r.more| && r.base < version <= base
    requires forall i :: 0 <= i < t ==> r.more[i] <= base
    requires t < |r.more| ==> base + 1 < r.more[t]
    requires forall x :: version < x <= base ==> x in r.more
    ensures var r' := Run(r.id, base, r.more[t..]);
            RunOk(r') && RunDots(r') == RunDots(r) + Between(r.id, 0, version)
  {
    var r' := Run(r.id, base, r.more[t..]);
    forall i | 0 <= i < |r'.more|
      ensures r'.base + 1 < r'.more[i]
    {
      assert r'.more[i] == r.more[t + i];
    }
    assert r.more == r.more[..t] + r'.more;
  }

  lemma DotsJoin(id: Id, a: seq<Version>, x: Version, c: seq<Version>)
    ensures Dots(id, a + [x] + c) == Dots(id, a) + [Dot(id, x)] + Dots(id, c)
  {
  }

  /** A single version above the base goes in order among the exceptions. */
  lemma Inserts(runs: seq<Run>, k: nat, t: nat, version: Version)
    requires k < |runs| && t <= |runs[k].more|
    ensures var v, p, r := Flat(runs), |Flat(runs[..k])| + 1 + t, runs[k];
            && p <= |v|
            && v[..p] + [Dot(r.id, version)] + v[p..]
               == Flat(runs[k := Run(r.id, r.base, r.more[..t] + [version] + r.more[t..])])
  {
    var r, pre, post := runs[k], Flat(runs[..k]), Flat(runs[k + 1..]);
    var a, c := Dots(r.id, r.more[..t]), Dots(r.id, r.more[t..]);
    RunSplit(runs, k, t);
    DotsJoin(r.id, r.more[..t], version, r.more[t..]);
    FlatAt(runs, k, Run(r.id, r.base, r.more[..t] + [version] + r.more[t..]));
    InsertAt(pre, Dot(r.id, r.base), a, c, post, Dot(r.id, version));
  }

  lemma InsertedHas(r: Run, t: nat, version: Version)
    requires RunOk(r) && t <= |r.more| && r.base + 1 < version
    requires forall i :: 0 <= i < t ==> r.more[i] < version
    requires t < |r.more| ==> version < r.more[t]
    ensures var r' := Run(r.id, r.base, r.more[..t] + [version] + r.more[t..]);
            RunOk(r') && RunDots(r') == RunDots(r) + Between(r.id, version, version)
  {
    assert r.more == r.more[..t] + r.more[t..];
  }

  lemma InsertsOne(runs: seq<Run>, k: nat, t: nat, version: Version)
    requires RunsOk(runs) && k < |runs| && t <= |runs[k].more| && runs[k].base + 1 < version
    requires forall i :: 0 <= i < t ==> runs[k].more[i] < version
    requires t < |runs[k].more| ==> version < runs[k].more[t]
    ensures var v, p, r := Flat(runs), |Flat(runs[..k])| + 1 + t, runs[k];
            var runs' := runs[k := Run(r.id, r.base, r.more[..t] + [version] + r.more[t..])];
            && RunsOk(runs') && Denoted(runs') == Denoted(runs) + iset{Dot(r.id, version)}
            && p <= |v| && v[..p] + [Dot(r.id, version)] + v[p..] == Flat(runs')
  {
    var r := runs[k];
    OneDot(r.id, version);
    InsertedHas(r, t, version);
    RunGains(runs, k, Run(r.id, r.base, r.more[..t] + [version] + r.more[t..]), version, version);
    Inserts(runs, k, t, version);
  }

  // ---------------------------------------------------------------- the vector

  /** From p on, entries of the run that are at most limit. */
  method SkipUpTo(v: Vec, b: nat, ghost r: Run, limit: Version) returns (p: nat, ghost t: nat)
    requires RunOk(r) && StandsAt(v, b, r)
    ensures t <= |r.more| && p == b + 1 + t
    ensures (forall i :: 0 <= i < t ==> r.more[i] <= limit) && (t < |r.more| ==> r.more[t] > limit)
  {
    p, t := b + 1, 0;
    while p < |v| && v[p].id == v[b].id && v[p].version <= limit
      invariant t <= |r.more| && p == b + 1 + t
      invariant forall i :: 0 <= i < t ==> r.more[i] <= limit
    {
      p, t := p + 1, t + 1;
    }
  }

  /** From p on, entries of the run that continue from version without a gap. */
  method SkipNext(v: Vec, b: nat, ghost r: Run, p: nat, ghost t: nat, version: Version)
    returns (p': nat, ghost t': nat, base: Version)
    requires RunOk(r) && StandsAt(v, b, r) && t <= |r.more| && p == b + 1 + t
    requires (forall i :: 0 <= i < t ==> r.more[i] <= version) && (t < |r.more| ==> r.more[t] > version)
    ensures t' <= |r.more| && p' == b + 1 + t' && version <= base
    ensures (forall i :: 0 <= i < t' ==> r.more[i] <= base) && (t' < |r.more| ==> base + 1 < r.more[t'])
    ensures forall x :: version < x <= base ==> x in r.more
  {
    p', t', base := p, t, version;
    while p' < |v| && v[p'].id == v[b].id && v[p'].version == base + 1
      invariant t' <= |r.more| && p' == b + 1 + t' && version <= base
      invariant (forall i :: 0 <= i < t' ==> r.more[i] <= base) && (t' < |r.more| ==> base < r.more[t'])
      invariant forall x :: version < x <= base ==> x in r.more
    {
      assert r.more[t'] == base + 1;
      p', t', base := p' + 1, t' + 1, base + 1;
    }
  }

  class DeltaVersionVector {
    var v: Vec
    ghost var runs: seq<Run>

    ghost predicate Valid()
      reads this
    {
      RunsOk(runs) && v == Flat(runs)
    }

    constructor ()
      ensures Valid() && v == [] && runs == []
    {
      v, runs := [], [];
    }

    method Position(id: Id) returns (p: nat)
      ensures p <= |v| && (forall i :: 0 <= i < p ==> v[i].id != id) && (p < |v| ==> v[p].id == id)
    {
      p := 0;
      while p < |v| && v[p].id != id
        invariant p <= |v| && forall i :: 0 <= i < p ==> v[i].id != id
      {
        p := p + 1;
      }
    }

    method Push(id: Id, base: Version, more: seq<Version>)
      requires Valid() && RunOk(Run(id, base, more)) && forall i :: 0 <= i < |v| ==> v[i].id != id
      modifies this
      ensures Valid() && Denoted(runs) == old(Denoted(runs)) + RunDots(Run(id, base, more))
    {
      forall k | 0 <= k < |runs| ensures runs[k].id != id {
        NoRun(runs, id, k);
      }
      RunAppended(runs, Run(id, base, more));
      FlatAppends(runs, Run(id, base, more));
      v := v + [Dot(id, base)] + Dots(id, more);
      runs := runs + [Run(id, base, more)];
    }

    /** Every version up to the given one. */
    method AddAll(id: Id, version: Version)
      requires Valid()
      modifies this
      ensures Valid() && Denoted(runs) == old(Denoted(runs)) + Between(id, 0, version)
    {
      var b := Position(id);
      if b == |v| {
        Push(id, version, []);
        return;
      }
      ghost var k := FindRun(runs, id, b);
      RunStandsAt(runs, k);
      if v[b].version >= version {
        RunIsIn(runs, k);
        return;
      }
      var p, t := SkipUpTo(v, b, runs[k], version);
      Raise(b, k, p, t, version);
    }

    /** Both add and add_all end like this. */
    method Raise(b: nat, ghost k: nat, p0: nat, ghost t0: nat, version: Version)
      requires Valid() && k < |runs| && b == |Flat(runs[..k])| && StandsAt(v, b, runs[k]) && runs[k].base < version
      requires t0 <= |runs[k].more| && p0 == b + 1 + t0
      requires (forall i :: 0 <= i < t0 ==> runs[k].more[i] <= version) && (t0 < |runs[k].more| ==> runs[k].more[t0] > version)
      modifies this
      ensures Valid() && Denoted(runs) == old(Denoted(runs)) + Between(old(runs[k].id), 0, version)
    {
      var p, t, base := SkipNext(v, b, runs[k], p0, t0, version);
      ghost var r' := Run(runs[k].id, base, runs[k].more[t..]);
      CollapsedHas(runs[k], t, base, version);
      RunGains(runs, k, r', 0, version);
      Collapses(runs, k, t, base);
      v := v[..b] + [Dot(v[b].id, base)] + v[p..];
      runs := runs[k := r'];
    }

    /** One version. Version 0 is refused. */
    method Add(id: Id, version: Version)
      requires Valid() && version != 0
      modifies this
      ensures Valid() && Denoted(runs) == old(Denoted(runs)) + iset{Dot(id, version)}
    {
      OneDot(id, version);
      var b := Position(id);
      if b == |v| {
        if version != 1 {
          Push(id, 0, [version]);
        } else {
          Push(id, version, []);
        }
        return;
      }
      ghost var k := FindRun(runs, id, b);
      RunStandsAt(runs, k);
      if v[b].version >= version {
        Known(runs, k, version);
      } else if v[b].version + 1 == version {
        NextVersion(runs, k);
        Raise(b, k, b + 1, 0, version);
      } else {
        InsertOne(b, k, version);
      }
    }

    method InsertOne(b: nat, ghost k: nat, version: Version)
      requires Valid() && k < |runs| && b == |Flat(runs[..k])| && StandsAt(v, b, runs[k]) && runs[k].base + 1 < version
      modifies this
      ensures Valid() && Denoted(runs) == old(Denoted(runs)) + iset{Dot(old(runs[k].id), version)}
    {
      var p, t := SkipUpTo(v, b, runs[k], version - 1);
      if p < |v| && v[p].id == v[b].id && v[p].version == version {
        assert runs[k].more[t] == version;
        Known(runs, k, version);
      } else {
        InsertBefore(p, v[b].id, k, t, version);
      }
    }

    method InsertBefore(p: nat, id: Id, ghost k: nat, ghost t: nat, version: Version)
      requires Valid() && k < |runs| && t <= |runs[k].more| && p == |Flat(runs[..k])| + 1 + t && id == runs[k].id
      requires runs[k].base + 1 < version && (forall i :: 0 <= i < t ==> runs[k].more[i] < version)
      requires t < |runs[k].more| ==> version < runs[k].more[t]
      modifies this
      ensures Valid() && Denoted(runs) == old(Denoted(runs)) + iset{Dot(id, version)}
    {
      InsertsOne(runs, k, t, version);
      v := v[..p] + [Dot(id, version)] + v[p..];
      runs := runs[k := Run(id, runs[k].base, runs[k].more[..t] + [version] + runs[k].more[t..])];
    }

    /** The union of both sets. */
    method MergeWith(other: Vec, ghost theirs: seq<Run>)
      requires Valid() && RunsOk(theirs) && other == Flat(theirs)
      modifies this
      ensures Valid() && Denoted(runs) == old(Denoted(runs)) + Denoted(theirs)
    {
      var p := 0;
      ghost var k := 0;
      while p < |other|
        invariant Valid() && k <= |theirs| && p == |Flat(theirs[..k])| && p <= |other|
        invariant Denoted(runs) == old(Denoted(runs)) + Denoted(theirs[..k])
        decreases |other| - p
      {
        p := MergeRun(other, theirs, k, p);
        OneMoreRun(theirs, k);
        k := k + 1;
      }
      AllMerged(theirs, k);
    }

    method MergeRun(other: Vec, ghost theirs: seq<Run>, ghost k: nat, b: nat) returns (p: nat)
      requires Valid() && RunsOk(theirs) && other == Flat(theirs) && k <= |theirs|
      requires b == |Flat(theirs[..k])| && b < |other|
      modifies this
      ensures k < |theirs| && p == |Flat(theirs[..k + 1])| && b < p <= |other|
      ensures Valid() && Denoted(runs) == old(Denoted(runs)) + RunDots(theirs[k])
    {
      MoreToMerge(theirs, k);
      RunStandsAt(theirs, k);
      FlatPrefix(theirs, k);
      AddAll(other[b].id, other[b].version);
      p := AddExceptions(other, b, theirs[k]);
      RunInParts(theirs[k]);
    }

    method AddException(d: Dot, ghost r: Run, ghost t: nat, ghost before: iset<Dot>)
      requires Valid() && t < |r.more| && d == Dot(r.id, r.more[t]) && d.version != 0
      requires Denoted(runs) == before + ExceptionDots(r.id, r.more[..t])
      modifies this
      ensures Valid() && Denoted(runs) == before + ExceptionDots(r.id, r.more[..t + 1])
    {
      Add(d.id, d.version);
      OneMoreException(r.id, r.more, t, before);
    }

    method AddExceptions(other: Vec, b: nat, ghost r: Run) returns (p: nat)
      requires Valid() && RunOk(r) && StandsAt(other, b, r)
      modifies this
      ensures p == b + 1 + |r.more|
      ensures Valid() && Denoted(runs) == old(Denoted(runs)) + ExceptionDots(r.id, r.more)
    {
      p := b + 1;
      ghost var t := 0;
      while p < |other| && other[p].id == other[b].id
        invariant t <= |r.more| && p == b + 1 + t && (t < |r.more| ==> other[p] == Dot(r.id, r.more[t]))
        invariant Valid() && Denoted(runs) == old(Denoted(runs)) + ExceptionDots(r.id, r.more[..t])
      {
        AddException(other[p], r, t, old(Denoted(runs)));
        p, t := p + 1, t + 1;
        assert t < |r.more| ==> other[b + 1 + t] == Dot(r.id, r.more[t]);
      }
      assert r.more[..t] == r.more;
    }
  }

  lemma FlatPrefix(runs: seq<Run>, k: nat)
    requires k < |runs|
    ensures |Flat(runs[..k + 1])| == |Flat(runs[..k])| + 1 + |runs[k].more|
  {
    assert runs[..k + 1] == runs[..k] + [runs[k]];
    FlatAppends(runs[..k], runs[k]);
  }

  lemma MoreToMerge(runs: seq<Run>, k: nat)
    requires k <= |runs| && |Flat(runs[..k])| < |Flat(runs)|
    ensures k < |runs|
  {
    assert runs[..|runs|] == runs;
  }

  lemma AllMerged(runs: seq<Run>, k: nat)
    requires k <= |runs| && |Flat(runs[..k])| == |Flat(runs)|
    ensures runs[..k] == runs
  {
    assert runs == runs[..k] + runs[k..];
    FlatJoins(runs[..k], runs[k..]);
  }
}
