/** What an unclean shutdown leaves of the node clock (src/vnode.rs:967-987, src/vnode.rs:1000-1067,
    src/vnode_sync.rs:538-541). The clock lives in memory and is saved between operations; store and
    log are written in atomic batches. Here are the operations of one replica, cut into steps. */
module Recovery {
  import opened Basics
  import opened Clocks
  import opened Cubes
  import opened Replicas

  // ---------------------------------------------------------------- replaying the log

  /** For every id of the saved clock: the saved versions and the logged ones. */
  ghost predicate IsRecovered(saved: Clock, log: map<Dot, Key>, r: Clock) {
    && r.Keys == saved.Keys && NormalClock(r)
    && forall i, v: Version :: i in saved ==> (r[i].Contains(v) <==> saved[i].Contains(v) || Dot(i, v) in log)
  }

  /** recover_dots: for each id, the log from the end of its interval on. */
  method RecoverDots(saved: Clock, log: map<Dot, Key>) returns (r: Clock)
    requires NormalClock(saved)
    ensures IsRecovered(saved, log, r)
  {
    r := saved;
    var ids := saved.Keys;
    while ids != {}
      invariant ids <= saved.Keys == r.Keys && NormalClock(r)
      invariant forall i :: i in ids ==> r[i] == saved[i]
      invariant forall i, v: Version :: i in saved.Keys - ids ==>
        (r[i].Contains(v) <==> saved[i].Contains(v) || Dot(i, v) in log)
    {
      var i :| i in ids;
      ids := ids - {i};
      var entry := RecoverOne(i, saved[i], log);
      r := r[i := entry];
    }
  }

  method RecoverOne(i: Id, saved: BV, log: map<Dot, Key>) returns (r: BV)
    requires saved.Normal()
    ensures r.Normal() && forall v: Version :: r.Contains(v) <==> saved.Contains(v) || Dot(i, v) in log
  {
    r := saved;
    var dots := set d | d in log && d.id == i && d.version > saved.base;
    while dots != {}
      invariant r.Normal()
      invariant forall d :: d in dots ==> d in log && d.id == i
      invariant forall v: Version :: r.Contains(v) || Dot(i, v) in dots <==> saved.Contains(v) || Dot(i, v) in log
    {
      var d :| d in dots;
      dots := dots - {d};
      AddInserts(r, d.version);
      r := Add(r, d.version).0;
      assert d == Dot(i, d.version);
    }
  }

  // ---------------------------------------------------------------- memory and disk

  datatype Disk = Disk(saved: Clock, store: map<Key, Cube>, log: map<Dot, Key>)

  datatype Machine = Machine(clock: Clock, disk: Disk) {
    function State(): State {
      Replicas.State(clock, disk.store, disk.log)
    }
  }

  function MachineOf(st: State, saved: Clock): Machine {
    Machine(st.clock, Disk(saved, st.store, st.log))
  }

  /** The process can die between any two of these. */
  datatype Step =
    | Reserve(node: Id)                                // clocks.event
    | Learn(d: Dot)                                    // clocks.add
    | Commit(key: Key, cube: Cube, dots: set<Dot>)     // a batch with the log entries of dots
    | Join(clocks: Clock)                              // clocks.merge
    | Save                                             // save

  function Logged(log: map<Dot, Key>, dots: set<Dot>, key: Key): map<Dot, Key> {
    log + map d | d in dots :: key
  }

  predicate CanStep(m: Machine, step: Step) {
    match step
    case Reserve(node) => Slice(m.clock, node).Solid()
    case Commit(_, cube, _) => !cube.Void?
    case _ => true
  }

  function DoStep(m: Machine, step: Step): Machine
    requires CanStep(m, step)
  {
    match step
    case Reserve(node) => m.(clock := Event(m.clock, node).0)
    case Learn(d) => m.(clock := ClockAdd(m.clock, d).0)
    case Commit(key, cube, dots) =>
      m.(disk := m.disk.(store := Put(m.disk.store, m.clock, key, cube), log := Logged(m.disk.log, dots, key)))
    case Join(clocks) => m.(clock := ClockMerge(m.clock, clocks))
    case Save => m.(disk := m.disk.(saved := m.clock))
  }

  predicate CanRun(m: Machine, steps: seq<Step>)
    decreases |steps|, 0
  {
    steps == [] || (CanRun(m, steps[..|steps| - 1]) && CanStep(Run(m, steps[..|steps| - 1]), steps[|steps| - 1]))
  }

  function Run(m: Machine, steps: seq<Step>): Machine
    requires CanRun(m, steps)
    decreases |steps|, 1
  {
    if steps == [] then m else DoStep(Run(m, steps[..|steps| - 1]), steps[|steps| - 1])
  }

  lemma RunThen(m: Machine, steps: seq<Step>, last: Step)
    requires CanRun(m, steps) && CanStep(Run(m, steps), last)
    ensures CanRun(m, steps + [last]) && Run(m, steps + [last]) == DoStep(Run(m, steps), last)
  {
    assert (steps + [last])[..|steps|] == steps;
  }

  // ---------------------------------------------------------------- operations

  /** What a replica does in one go, under the vnode's lock: store a command, spend a version on a
      type error, store a replicated or synced cube whose dots come in some order, take over the clock
      of a success fin, save. */
  datatype Op =
    | Stores(key: Key, cmd: Command)
    | Fails
    | Receives(key: Key, cube: Cube, reply: bool, order: seq<Dot>)
    | Concludes(clocks: Clock)
    | Saves
    | Rests

  ghost predicate Possible(st: State, n: Id, op: Op) {
    match op
    case Stores(key, cmd) => Slice(st.clock, n).Solid() && Flush(st, n, key, cmd).Stored?
    case Fails => Slice(st.clock, n).Solid()
    case Receives(_, cube, _, order) => !cube.Void? && forall d :: d in order <==> d in cube.Dots()
    case _ => true
  }

  ghost function After(m: Machine, n: Id, op: Op): Machine
    requires Possible(m.State(), n, op)
  {
    match op
    case Stores(key, cmd) => MachineOf(Flush(m.State(), n, key, cmd).state, m.disk.saved)
    case Fails => m.(clock := Event(m.clock, n).0)
    case Receives(key, cube, reply, _) => MachineOf(SetRemote(m.State(), key, cube, reply).0, m.disk.saved)
    case Concludes(clocks) => var clock := ClockMerge(m.clock, clocks); Machine(clock, m.disk.(saved := clock))
    case Saves => m.(disk := m.disk.(saved := m.clock))
    case Rests => m
  }

  function Learns(order: seq<Dot>): (r: seq<Step>) {
    seq(|order|, i requires 0 <= i < |order| => Learn(order[i]))
  }

  /** The steps of an operation. */
  ghost function StepsOf(st: State, n: Id, op: Op): seq<Step>
    requires Possible(st, n, op)
  {
    match op
    case Stores(key, cmd) =>
      [Reserve(n), Commit(key, Flush(st, n, key, cmd).cube, {Dot(n, Event(st.clock, n).1)})]
    case Fails => [Reserve(n)]
    case Receives(key, cube, _, order) =>
      var unseen := set d | d in cube.Dots() && IsNew(st.clock, d);
      Learns(order) + if unseen == {} then [] else [Commit(key, Get(st, key).Merge(cube), unseen)]
    case Concludes(clocks) => [Join(clocks), Save]
    case Saves => [Save]
    case Rests => []
  }

  /** The steps lead from m to end, and the disk changes at most with the last of them. */
  ghost predicate Takes(m: Machine, steps: seq<Step>, end: Machine) {
    && CanRun(m, steps) && Run(m, steps) == end
    && forall k {:trigger steps[..k]} :: 0 <= k < |steps| ==> CanRun(m, steps[..k]) && Run(m, steps[..k]).disk == m.disk
  }

  lemma TakesMore(m: Machine, steps: seq<Step>, mid: Machine, last: Step)
    requires Takes(m, steps, mid) && mid.disk == m.disk && CanStep(mid, last)
    ensures Takes(m, steps + [last], DoStep(mid, last))
  {
    RunThen(m, steps, last);
    var longer := steps + [last];
    forall k | 0 <= k < |longer| ensures CanRun(m, longer[..k]) && Run(m, longer[..k]).disk == m.disk {
      if k < |steps| {
        assert longer[..k] == steps[..k];
      } else {
        assert longer[..k] == steps;
      }
    }
  }

  lemma TakesNone(m: Machine)
    ensures Takes(m, [], m)
  {
  }

  lemma {:induction false} LearnsTake(m: Machine, order: seq<Dot>)
    ensures Takes(m, Learns(order), m.(clock := AddDots(m.clock, order)))
  {
    if order == [] {
      TakesNone(m);
    } else {
      var n := |order| - 1;
      LearnsTake(m, order[..n]);
      TakesMore(m, Learns(order[..n]), m.(clock := AddDots(m.clock, order[..n])), Learn(order[n]));
      assert Learns(order) == Learns(order[..n]) + [Learn(order[n])];
    }
  }

  lemma LoggedOne(log: map<Dot, Key>, d: Dot, key: Key)
    ensures Logged(log, {d}, key) == log[d := key]
  {
  }

  lemma StoreTakes(m: Machine, n: Id, key: Key, cmd: Command)
    requires Possible(m.State(), n, Stores(key, cmd))
    ensures Takes(m, StepsOf(m.State(), n, Stores(key, cmd)), After(m, n, Stores(key, cmd)))
  {
    var f, d := Flush(m.State(), n, key, cmd), Dot(n, Event(m.clock, n).1);
    TakesNone(m);
    TakesMore(m, [], m, Reserve(n));
    assert [] + [Reserve(n)] == [Reserve(n)];
    TakesMore(m, [Reserve(n)], m.(clock := Event(m.clock, n).0), Commit(key, f.cube, {d}));
    assert [Reserve(n)] + [Commit(key, f.cube, {d})] == StepsOf(m.State(), n, Stores(key, cmd));
    LoggedOne(m.disk.log, d, key);
  }

  lemma ReceiveTakes(m: Machine, n: Id, op: Op)
    requires op.Receives? && NormalClock(m.clock) && Possible(m.State(), n, op)
    ensures Takes(m, StepsOf(m.State(), n, op), After(m, n, op))
  {
    var Receives(key, cube, reply, order) := op;
    var unseen := set d | d in cube.Dots() && IsNew(m.clock, d);
    var merged, mid := Get(m.State(), key).Merge(cube), m.(clock := AddDots(m.clock, order));
    MergeNotVoid(Get(m.State(), key), cube);
    LearnsTake(m, order);
    AddDotsAnyOrder(m.clock, order, Enumerate(cube.Dots()));
    if unseen == {} {
      assert Learns(order) + [] == Learns(order);
    } else {
      TakesMore(m, Learns(order), mid, Commit(key, merged, unseen));
    }
  }

  /** An operation is its steps, and the disk changes at most with the last of them: whoever dies
      inside finds the disk as it was before. */
  lemma OpTakes(m: Machine, n: Id, op: Op)
    requires NormalClock(m.clock) && Possible(m.State(), n, op)
    ensures Takes(m, StepsOf(m.State(), n, op), After(m, n, op))
  {
    TakesNone(m);
    match op
    case Stores(key, cmd) => StoreTakes(m, n, key, cmd);
    case Fails =>
      TakesMore(m, [], m, Reserve(n));
      assert [] + [Reserve(n)] == [Reserve(n)];
    case Receives(_, _, _, _) => ReceiveTakes(m, n, op);
    case Concludes(clocks) =>
      TakesMore(m, [], m, Join(clocks));
      assert [] + [Join(clocks)] == [Join(clocks)];
      TakesMore(m, [Join(clocks)], m.(clock := ClockMerge(m.clock, clocks)), Save);
      assert [Join(clocks)] + [Save] == [Join(clocks), Save];
    case Saves =>
      TakesMore(m, [], m, Save);
      assert [] + [Save] == [Save];
    case Rests =>
  }

  /** The process dies after k steps of the operation and leaves this disk. */
  ghost predicate Dies(m: Machine, n: Id, op: Op, k: nat, disk: Disk) {
    && Possible(m.State(), n, op) && k <= |StepsOf(m.State(), n, op)|
    && CanRun(m, StepsOf(m.State(), n, op)[..k]) && Run(m, StepsOf(m.State(), n, op)[..k]).disk == disk
  }

  /** It may die after any of them, with the disk of before or of after the operation. */
  lemma DiesAnywhere(m: Machine, n: Id, op: Op, k: nat)
    requires NormalClock(m.clock) && Possible(m.State(), n, op) && k <= |StepsOf(m.State(), n, op)|
    ensures Dies(m, n, op, k, if k < |StepsOf(m.State(), n, op)| then m.disk else After(m, n, op).disk)
  {
    OpTakes(m, n, op);
    var steps := StepsOf(m.State(), n, op);
    assert steps[..|steps|] == steps;
  }

  // ---------------------------------------------------------------- nodes the saved clock does not have

  /** A logged write is in the recovered clock exactly when its node was in the saved one. */
  lemma LoggedRecoveredIff(disk: Disk, r: Clock, d: Dot)
    requires IsRecovered(disk.saved, disk.log, r) && d in disk.log
    ensures Has(r, d) <==> d.id in disk.saved
  {
    assert d == Dot(d.id, d.version);
  }

  /** So the first write of a new vnode, which has saved its empty clock, is stored and logged, its dot
      is forgotten, and the next write gets it again. */
  lemma FirstWriteForgotten(n: Id, key: Key, value: Bytes)
    ensures Possible(BLANK, n, Stores(key, Assign(value, map[])))
    ensures var disk := After(MachineOf(BLANK, map[]), n, Stores(key, Assign(value, map[]))).disk;
            && Dot(n, 1) in disk.log && disk.log[Dot(n, 1)] == key && key in disk.store
            && (forall r :: IsRecovered(disk.saved, disk.log, r) ==> r == map[]) && Event(map[], n).1 == 1
  {
    var f := Flush(BLANK, n, key, Assign(value, map[]));
    assert Bases(BLANK.clock) == map[];
    assert f.Stored? && Dot(n, 1) in f.cube.value.values;
  }

  // ---------------------------------------------------------------- gaps

  /** A command that fails after the clock was saved, and one that is stored: the recovered clock has a
      gap where the failed one spent its version, and event asserts that there is none. */
  lemma FailureLeavesGap(st: State, n: Id, key: Key, cmd: Command, r: Clock)
    requires n in st.clock && Slice(st.clock, n).Solid() && Possible(st.(clock := Event(st.clock, n).0), n, Stores(key, cmd))
    requires forall d :: d in st.log ==> Has(st.clock, d)
    requires var m := After(After(After(MachineOf(st, map[]), n, Saves), n, Fails), n, Stores(key, cmd));
             IsRecovered(m.disk.saved, m.disk.log, r)
    ensures !Slice(r, n).Solid()
  {
    var v := Slice(st.clock, n).base;
    assert Has(st.clock, Dot(n, v + 1)) <==> false;
    assert r[n].Contains(v + 2) && !r[n].Contains(v + 1);
  }
}
