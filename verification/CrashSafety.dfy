/** A process may die at any step of any operation, in any run of the replication protocol. What it
    recovers is safe: every write in the recovered clock is accounted for in the store, and no stored
    write of a node in the saved clock is forgotten (src/vnode.rs:128-148, 929-987). */
module CrashSafety {
  import opened Clocks
  import opened Cubes
  import opened Replicas
  import opened Causality
  import opened Protocol
  import opened ProtocolInvariant
  import opened ProtocolTheorems
  import R = Recovery

  // ---------------------------------------------------------------- one replica

  /** What the clock has beyond the saved one is logged, or a version of n's own that was never stored. */
  ghost predicate Persisted(W: History, n: Id, st: State, saved: Clock) {
    && NormalClock(saved) && ClockWithin(saved, st.clock) && Slice(saved, n).Solid()
    && forall d: Dot {:trigger Has(st.clock, d)} :: d.version != 0 && Has(st.clock, d) ==>
         Has(saved, d) || d in st.log || (d.id == n && d !in W)
  }

  lemma PersistedStable(W: History, B: Issued, W': History, B': Issued, n: Id, st: State, saved: Clock)
    requires Persisted(W, n, st, saved) && ClockOk(B, st.clock) && Extends(W, B, W', B')
    ensures Persisted(W', n, st, saved)
  {
    ClockOkStable(W, B, W', B', st.clock);
  }

  lemma StorePersists(W: History, B: Issued, n: Id, st: State, saved: Clock, key: Key, cmd: Command)
    requires cmd.Assign? || cmd.Delete?
    requires HistoryOk(W, B) && StateOk(W, B, n, st) && Persisted(W, n, st, saved) && Flush(st, n, key, cmd).Stored?
    ensures Persisted(After(W, Dot(n, B[n] + 1), Recorded(W, key, cmd, Get(st, key))), n,
                      Flush(st, n, key, cmd).state, saved)
  {
    GetOk(W, B, n, st, key);
    FlushShape(B, n, st, key, cmd, if key in st.store then st.store[key].value else Value(map[], Bases(st.clock)));
    EventKeeps(B, n, st.clock);
    WithinTrans(saved, st.clock, Event(st.clock, n).0);
  }

  lemma FailPersists(W: History, B: Issued, n: Id, st: State, saved: Clock)
    requires HistoryOk(W, B) && StateOk(W, B, n, st) && Persisted(W, n, st, saved)
    ensures Persisted(W, n, st.(clock := Event(st.clock, n).0), saved)
  {
    EventKeeps(B, n, st.clock);
    WithinTrans(saved, st.clock, Event(st.clock, n).0);
  }

  lemma ReceiveLogs(st: State, key: Key, cube: Cube, reply: bool, d: Dot)
    requires !cube.Void?
    ensures var st' := SetRemote(st, key, cube, reply).0;
            && st'.clock == ClockAddSet(st.clock, cube.Dots())
            && (d in st.log || (d in cube.Dots() && IsNew(st.clock, d)) ==> d in st'.log)
  {
    var unseen := set x | x in cube.Dots() && IsNew(st.clock, x);
    if d in unseen {
      var st' := SetRemote(st, key, cube, reply).0;
      assert unseen != {} && st'.log == st.log + map x | x in unseen :: key;
    }
  }

  lemma ReceivePersists(W: History, n: Id, st: State, saved: Clock, key: Key, cube: Cube, reply: bool)
    requires NormalClock(st.clock) && Persisted(W, n, st, saved) && !cube.Void?
    ensures Persisted(W, n, SetRemote(st, key, cube, reply).0, saved)
  {
    var st' := SetRemote(st, key, cube, reply).0;
    ClockAddSetInserts(st.clock, cube.Dots());
    ReceiveLogs(st, key, cube, reply, Dot(n, 0));
    WithinTrans(saved, st.clock, st'.clock);
    forall d: Dot | d.version != 0 && Has(st'.clock, d)
      ensures Has(saved, d) || d in st'.log || (d.id == n && d !in W)
    {
      ReceiveLogs(st, key, cube, reply, d);
      if !Has(st.clock, d) {
        assert d in cube.Dots() && IsNew(st.clock, d);
      }
    }
  }

  // ---------------------------------------------------------------- what is recovered

  /** Every own version below a stored one was stored too, or saved. */
  ghost predicate NoGap(W: History, n: Id, saved: Clock) {
    forall u: Version, v: Version {:trigger Dot(n, u), Dot(n, v)} ::
      0 < v < u && Dot(n, u) in W ==> Has(saved, Dot(n, v)) || Dot(n, v) in W
  }

  /** event where debug assertions are off: exceptions stay as they are. */
  function UncheckedEvent(c: Clock, n: Id): (r: (Clock, Version))
    ensures Slice(c, n).Solid() ==> r == Event(c, n)
  {
    var v := Slice(c, n).base + 1;
    (c[n := BV(v, Slice(c, n).bitmap)], v)
  }

  /** The version that the event after k others gives out. */
  function GivenOut(c: Clock, n: Id, k: nat): Version
    decreases k
  {
    if k == 0 then UncheckedEvent(c, n).1 else GivenOut(UncheckedEvent(c, n).0, n, k - 1)
  }

  lemma {:induction false} GivenOutInOrder(c: Clock, n: Id, k: nat)
    ensures GivenOut(c, n, k) == Slice(c, n).base + 1 + k
    decreases k
  {
    if k != 0 {
      GivenOutInOrder(UncheckedEvent(c, n).0, n, k - 1);
    }
  }

  /** No version that n gives out next is that of a stored write. */
  ghost predicate GivesOutNew(W: History, n: Id, r: Clock) {
    forall k: nat :: Dot(n, GivenOut(r, n, k)) !in W
  }

  ghost predicate OwnStored(W: History, n: Id) {
    exists v: Version :: Dot(n, v) in W
  }

  /** What r is in place of st's clock: what it has is stored, and of the nodes it knows it lacks no
      stored write, only versions of n's own that were never stored. Its own slice is as event wants it
      exactly when those leave no gap. n goes on with versions it has not used exactly when they leave
      none and n itself was saved, or when n has stored nothing yet. */
  ghost predicate SafeClock(W: History, n: Id, st: State, saved: Clock, r: Clock) {
    && r.Keys == saved.Keys && ClockWithin(r, st.clock)
    && (forall d: Dot {:trigger Has(r, d)} :: d in W && Has(r, d) ==> Seen(W, st.(clock := r), d))
    && (forall d: Dot {:trigger Has(r, d)} :: d in W && d.id in saved ==> (Has(r, d) <==> Has(st.clock, d)))
    && (forall d: Dot {:trigger Has(r, d)} :: d.id in saved && Has(st.clock, d) && !Has(r, d) ==> d.id == n && d !in W)
    && (n in saved ==> (Slice(r, n).Solid() <==> NoGap(W, n, saved)))
    && (GivesOutNew(W, n, r) <==> (n in saved && NoGap(W, n, saved)) || !OwnStored(W, n))
  }

  lemma ReachesStored(W: History, n: Id, r: Clock, v: Version)
    requires Dot(n, v) in W && v > Slice(r, n).base
    ensures !GivesOutNew(W, n, r)
  {
    GivenOutInOrder(r, n, v - Slice(r, n).base - 1);
  }

  lemma GivesOutNewIff(W: History, B: Issued, n: Id, st: State, saved: Clock, r: Clock)
    requires HistoryOk(W, B) && LogOk(W, n, st) && Slice(saved, n).Solid() && R.IsRecovered(saved, st.log, r)
    ensures GivesOutNew(W, n, r) <==> (n in saved && NoGap(W, n, saved)) || !OwnStored(W, n)
  {
    if OwnStored(W, n) {
      var v: Version :| Dot(n, v) in W;
      if n !in saved {
        ReachesStored(W, n, r, v);
      } else {
        RecoveredSolidIff(W, n, st, saved, r);
        if Slice(r, n).Solid() {
          AllBelow(W, n, st, saved, r);
        } else {
          var u :| u in r[n].bitmap;
          StoredAbove(W, n, st, saved, r, u);
          ReachesStored(W, n, r, u);
        }
      }
    }
  }

  lemma AllBelow(W: History, n: Id, st: State, saved: Clock, r: Clock)
    requires LogOk(W, n, st) && R.IsRecovered(saved, st.log, r) && n in saved && Slice(r, n).Solid()
    ensures GivesOutNew(W, n, r)
  {
    forall k: nat ensures Dot(n, GivenOut(r, n, k)) !in W {
      GivenOutInOrder(r, n, k);
      assert Dot(n, GivenOut(r, n, k)) in st.log ==> r[n].Contains(GivenOut(r, n, k));
    }
  }

  lemma StoredAbove(W: History, n: Id, st: State, saved: Clock, r: Clock, u: Version)
    requires LogOk(W, n, st) && R.IsRecovered(saved, st.log, r) && n in saved && Slice(saved, n).Solid()
    requires u in r[n].bitmap
    ensures Dot(n, u) in W && u > Slice(r, n).base
  {
    assert r[n].Contains(u) && !r[n].Contains(r[n].base + 1);
  }

  lemma RecoveredSolidIff(W: History, n: Id, st: State, saved: Clock, r: Clock)
    requires LogOk(W, n, st) && Slice(saved, n).Solid() && n in saved && R.IsRecovered(saved, st.log, r)
    ensures Slice(r, n).Solid() <==> NoGap(W, n, saved)
  {
    if Slice(r, n).Solid() {
      forall u: Version, v: Version | 0 < v < u && Dot(n, u) in W
        ensures Has(saved, Dot(n, v)) || Dot(n, v) in W
      {
        assert r[n].Contains(u) && r[n].Contains(v);
      }
    } else {
      var u :| u in r[n].bitmap;
      var v := r[n].base + 1;
      assert r[n].Contains(u) && !r[n].Contains(v);
      assert Dot(n, u) in W && Dot(n, v) !in W && !Has(saved, Dot(n, v));
    }
  }

  lemma RecoversSafely(W: History, B: Issued, n: Id, st: State, saved: Clock, r: Clock)
    requires HistoryOk(W, B) && StateOk(W, B, n, st) && Persisted(W, n, st, saved) && R.IsRecovered(saved, st.log, r)
    ensures SafeClock(W, n, st, saved, r)
  {
    forall d: Dot | d.id in saved
      ensures Has(r, d) <==> Has(saved, d) || d in st.log
      ensures Has(r, d) ==> Has(st.clock, d)
      ensures Has(st.clock, d) && !Has(r, d) ==> d.id == n && d !in W
    {
      assert d == Dot(d.id, d.version);
      assert Within(saved[d.id], st.clock[d.id]);
      assert saved[d.id].Contains(0);
    }
    RecoveredWithin(n, st, saved, r);
    if n in saved {
      RecoveredSolidIff(W, n, st, saved, r);
    }
    GivesOutNewIff(W, B, n, st, saved, r);
  }

  lemma RecoveredWithin(n: Id, st: State, saved: Clock, r: Clock)
    requires R.IsRecovered(saved, st.log, r) && ClockWithin(saved, st.clock) && forall d :: d in st.log ==> Has(st.clock, d)
    ensures ClockWithin(r, st.clock)
  {
    forall i | i in r ensures i in st.clock && Within(r[i], st.clock[i]) {
      assert Within(saved[i], st.clock[i]);
      forall v: Version | r[i].Contains(v) ensures st.clock[i].Contains(v) {
        assert Dot(i, v) in st.log ==> Has(st.clock, Dot(i, v));
      }
    }
  }

  // ---------------------------------------------------------------- all replicas

  /** The protocol with what each replica has saved of its clock. */
  datatype Durable = Durable(sys: System, saved: map<Id, Clock>)

  datatype Happening = Act(a: Action) | Saved(n: Id)

  ghost predicate Enabled(s: Durable, e: Happening) {
    match e
    case Act(a) => Allowed(s.sys, a) && InOrder(s.sys, a)
    case Saved(n) => n in s.sys.replicas && n in s.saved
  }

  /** on_msg_fin saves the clock it merged; set_status, load and shutdown save between operations. */
  ghost function Next(s: Durable, e: Happening): Durable
    requires Enabled(s, e)
  {
    match e
    case Saved(n) => s.(saved := s.saved[n := s.sys.replicas[n].state.clock])
    case Act(a) =>
      var sys := Apply(s.sys, a);
      Durable(sys, if a.DeliverFin? && a.msg.SyncFin? && a.msg.to in sys.replicas
                   then s.saved[a.msg.to := sys.replicas[a.msg.to].state.clock] else s.saved)
  }

  ghost predicate CanHappen(s: Durable, events: seq<Happening>)
    decreases |events|
  {
    events == [] || (Enabled(s, events[0]) && CanHappen(Next(s, events[0]), events[1..]))
  }

  ghost function Happens(s: Durable, events: seq<Happening>): Durable
    requires CanHappen(s, events)
    decreases |events|
  {
    if events == [] then s else Happens(Next(s, events[0]), events[1..])
  }

  /** A new vnode saves its empty clock. */
  ghost predicate Starts(s: Durable) {
    Init(s.sys) && s.saved == map n | n in s.sys.replicas :: map[]
  }

  ghost predicate AllPersisted(s: System, saved: map<Id, Clock>) {
    saved.Keys == s.replicas.Keys && forall n :: n in s.replicas ==> Persisted(s.writes, n, s.replicas[n].state, saved[n])
  }

  ghost predicate DurableInv(s: Durable) {
    Inv(s.sys) && AllPersisted(s.sys, s.saved)
  }

  // ---------------------------------------------------------------- actions are operations

  /** What the action is for replica n. */
  ghost predicate IsFor(e: Happening, n: Id, op: R.Op) {
    match e
    case Saved(m) => op == if m == n then R.Saves else R.Rests
    case Act(a) => ActionIsFor(a, n, op)
  }

  ghost predicate ActionIsFor(a: Action, n: Id, op: R.Op) {
    match a
    case ClientWrite(m, key, cmd) => op == if m == n then R.Stores(key, cmd) else R.Rests
    case FailedWrite(m) => op == if m == n then R.Fails else R.Rests
    case DeliverSet(msg, reply) => ReceiptIsFor(msg, reply, n, op)
    case DeliverSend(msg) => ReceiptIsFor(msg, false, n, op)
    case DeliverFin(msg) => op == if msg.to == n && msg.SyncFin? then R.Concludes(msg.clocks) else R.Rests
    case _ => op == R.Rests
  }

  ghost predicate ReceiptIsFor(msg: Msg, reply: bool, n: Id, op: R.Op) {
    if msg.to == n && (msg.RemoteSet? || msg.SyncSend?) && !msg.cube.Void? then
      && op.Receives? && op.key == msg.key && op.cube == msg.cube && op.reply == reply
      && forall d :: d in op.order <==> d in msg.cube.Dots()
    else op == R.Rests
  }

  /** The action does at n what the operation does. */
  ghost predicate DoesOp(s: System, saved: map<Id, Clock>, a: Action, n: Id, op: R.Op)
    requires Allowed(s, a) && n in s.replicas && n in saved
  {
    && R.Possible(s.replicas[n].state, n, op) && n in Apply(s, a).replicas
    && var m := R.After(R.MachineOf(s.replicas[n].state, saved[n]), n, op);
       && Apply(s, a).replicas[n].state == m.State()
       && m.disk.saved == if a.DeliverFin? && a.msg.SyncFin? && a.msg.to == n then m.clock else saved[n]
  }

  lemma WriteIsOp(s: System, saved: map<Id, Clock>, a: Action, n: Id, op: R.Op)
    requires Allowed(s, a) && n in s.replicas && n in saved && ActionIsFor(a, n, op) && (a.ClientWrite? || a.FailedWrite?)
    ensures DoesOp(s, saved, a, n, op)
  {
  }

  lemma ReceiptIsOp(s: System, saved: map<Id, Clock>, a: Action, n: Id, op: R.Op)
    requires Allowed(s, a) && n in s.replicas && n in saved && ActionIsFor(a, n, op) && (a.DeliverSet? || a.DeliverSend?)
    ensures DoesOp(s, saved, a, n, op)
  {
  }

  lemma FinIsOp(s: System, saved: map<Id, Clock>, a: Action, n: Id, op: R.Op)
    requires Allowed(s, a) && n in s.replicas && n in saved && ActionIsFor(a, n, op) && a.DeliverFin?
    ensures DoesOp(s, saved, a, n, op)
  {
  }

  /** All other actions leave states and writes alone. */
  lemma OnlySyncs(s: System, a: Action)
    requires Allowed(s, a) && !OnStates(a)
    ensures Apply(s, a).writes == s.writes
  {
  }

  lemma StateStays(s: System, a: Action, n: Id)
    requires Allowed(s, a) && !OnStates(a) && n in s.replicas
    ensures n in Apply(s, a).replicas && Apply(s, a).replicas[n].state == s.replicas[n].state
  {
  }

  lemma RestIsOp(s: System, saved: map<Id, Clock>, a: Action, n: Id, op: R.Op)
    requires Allowed(s, a) && n in s.replicas && n in saved && ActionIsFor(a, n, op) && !OnStates(a)
    ensures DoesOp(s, saved, a, n, op)
  {
    StateStays(s, a, n);
  }

  lemma ActionIsOp(s: System, saved: map<Id, Clock>, a: Action, n: Id, op: R.Op)
    requires Allowed(s, a) && n in s.replicas && n in saved && ActionIsFor(a, n, op)
    ensures DoesOp(s, saved, a, n, op)
  {
    if a.ClientWrite? || a.FailedWrite? {
      WriteIsOp(s, saved, a, n, op);
    } else if a.DeliverSet? || a.DeliverSend? {
      ReceiptIsOp(s, saved, a, n, op);
    } else if a.DeliverFin? {
      FinIsOp(s, saved, a, n, op);
    } else {
      RestIsOp(s, saved, a, n, op);
    }
  }

  // ---------------------------------------------------------------- over every run

  /** The history grows by the write n stores; another replica's write is none of its operations. */
  ghost predicate HistoryFits(W: History, B: Issued, W': History, n: Id, st: State, op: R.Op) {
    if op.Stores? then
      && (op.cmd.Assign? || op.cmd.Delete?) && n in B
      && W' == Causality.After(W, Dot(n, B[n] + 1), Recorded(W, op.key, op.cmd, Get(st, op.key)))
    else op.Rests? || W' == W
  }

  /** Every operation keeps what has to be on disk there. */
  lemma OpPersists(W: History, B: Issued, W': History, n: Id, st: State, saved: Clock, op: R.Op)
    requires HistoryOk(W, B) && StateOk(W, B, n, st) && Persisted(W, n, st, saved) && R.Possible(st, n, op)
    requires HistoryFits(W, B, W', n, st, op) && (op.Rests? ==> Persisted(W', n, st, saved))
    requires var clock := R.After(R.MachineOf(st, saved), n, op).clock; NormalClock(clock) && Slice(clock, n).Solid()
    ensures var m := R.After(R.MachineOf(st, saved), n, op); Persisted(W', n, m.State(), m.disk.saved)
  {
    match op
    case Stores(key, cmd) => StorePersists(W, B, n, st, saved, key, cmd);
    case Fails => FailPersists(W, B, n, st, saved);
    case Receives(key, cube, reply, _) => ReceivePersists(W, n, st, saved, key, cube, reply);
    case Concludes(_) =>
    case Saves =>
    case Rests =>
  }

  /** What the action is for n, its dots in some order. */
  ghost function OpFor(e: Happening, n: Id): (op: R.Op)
    ensures IsFor(e, n, op)
  {
    match e
    case Saved(m) => if m == n then R.Saves else R.Rests
    case Act(a) =>
      match a
      case ClientWrite(m, key, cmd) => if m == n then R.Stores(key, cmd) else R.Rests
      case FailedWrite(m) => if m == n then R.Fails else R.Rests
      case DeliverSet(msg, reply) => OpForReceipt(msg, reply, n)
      case DeliverSend(msg) => OpForReceipt(msg, false, n)
      case DeliverFin(msg) => if msg.to == n && msg.SyncFin? then R.Concludes(msg.clocks) else R.Rests
      case _ => R.Rests
  }

  ghost function OpForReceipt(msg: Msg, reply: bool, n: Id): (op: R.Op)
    ensures ReceiptIsFor(msg, reply, n, op)
  {
    if msg.to == n && (msg.RemoteSet? || msg.SyncSend?) && !msg.cube.Void?
    then R.Receives(msg.key, msg.cube, reply, Enumerate(msg.cube.Dots())) else R.Rests
  }

  lemma HistoryNext(s: System, a: Action)
    requires Allowed(s, a)
    ensures if a.ClientWrite? then
              && (a.cmd.Assign? || a.cmd.Delete?)
              && Apply(s, a).writes == Causality.After(s.writes, Dot(a.n, s.issued[a.n] + 1),
                                                       Recorded(s.writes, a.key, a.cmd, Get(s.replicas[a.n].state, a.key)))
            else Apply(s, a).writes == s.writes
  {
    if !OnStates(a) {
      OnlySyncs(s, a);
    }
  }

  lemma HistoryFor(s: Durable, e: Happening, n: Id)
    requires Enabled(s, e) && n in s.sys.replicas
    ensures HistoryFits(s.sys.writes, s.sys.issued, Next(s, e).sys.writes, n, s.sys.replicas[n].state, OpFor(e, n))
  {
    if e.Act? {
      HistoryNext(s.sys, e.a);
    }
  }

  lemma OnePersists(s: Durable, e: Happening, n: Id)
    requires Enabled(s, e) && n in s.sys.replicas && n in s.saved
    requires HistoryOk(s.sys.writes, s.sys.issued) && StateOk(s.sys.writes, s.sys.issued, n, s.sys.replicas[n].state)
    requires Persisted(s.sys.writes, n, s.sys.replicas[n].state, s.saved[n])
    requires Extends(s.sys.writes, s.sys.issued, Next(s, e).sys.writes, Next(s, e).sys.issued)
    requires n in Next(s, e).sys.replicas
    requires var clock := Next(s, e).sys.replicas[n].state.clock; NormalClock(clock) && Slice(clock, n).Solid()
    ensures n in Next(s, e).saved
    ensures Persisted(Next(s, e).sys.writes, n, Next(s, e).sys.replicas[n].state, Next(s, e).saved[n])
  {
    var W, B, st := s.sys.writes, s.sys.issued, s.sys.replicas[n].state;
    EndsAsNext(s, e, n, OpFor(e, n));
    HistoryFor(s, e, n);
    PersistedStable(W, B, Next(s, e).sys.writes, Next(s, e).sys.issued, n, st, s.saved[n]);
    OpPersists(W, B, Next(s, e).sys.writes, n, st, s.saved[n], OpFor(e, n));
  }

  lemma NextInv(s: Durable, e: Happening)
    requires DurableInv(s) && Enabled(s, e)
    ensures Inv(Next(s, e).sys) && Evolves(s.sys, Next(s, e).sys) && Next(s, e).saved.Keys == s.saved.Keys
  {
    if e.Act? {
      StepInv(s.sys, e.a);
    } else {
      EvolvesSame(s.sys);
    }
  }

  lemma EvolvesSame(s: System)
    ensures Evolves(s, s)
  {
  }

  lemma NextKeeps(s: Durable, e: Happening)
    requires DurableInv(s) && Enabled(s, e)
    ensures DurableInv(Next(s, e))
  {
    NextInv(s, e);
    var s' := Next(s, e);
    forall n | n in s'.sys.replicas
      ensures Persisted(s'.sys.writes, n, s'.sys.replicas[n].state, s'.saved[n])
    {
      assert StateOk(s'.sys.writes, s'.sys.issued, n, s'.sys.replicas[n].state);
      assert StateOk(s.sys.writes, s.sys.issued, n, s.sys.replicas[n].state);
      OnePersists(s, e, n);
    }
  }

  lemma {:induction false} HappensKeeps(s: Durable, events: seq<Happening>)
    requires DurableInv(s) && CanHappen(s, events)
    ensures DurableInv(Happens(s, events))
    decreases |events|
  {
    if events != [] {
      NextKeeps(s, events[0]);
      HappensKeeps(Next(s, events[0]), events[1..]);
    }
  }

  lemma StartInv(s: Durable)
    requires Starts(s)
    ensures DurableInv(s)
  {
    InitInv(s.sys);
  }

  /** The disk is that of replica n in s, and what is recovered from it is safe there. */
  ghost predicate RecoversTo(s: Durable, n: Id, disk: R.Disk, r: Clock) {
    && n in s.sys.replicas && n in s.saved && disk == R.MachineOf(s.sys.replicas[n].state, s.saved[n]).disk
    && SafeClock(s.sys.writes, n, s.sys.replicas[n].state, s.saved[n], r)
  }

  lemma RecoversAt(s: Durable, n: Id, r: Clock)
    requires DurableInv(s) && n in s.sys.replicas && R.IsRecovered(s.saved[n], s.sys.replicas[n].state.log, r)
    ensures RecoversTo(s, n, R.MachineOf(s.sys.replicas[n].state, s.saved[n]).disk, r)
  {
    assert StateOk(s.sys.writes, s.sys.issued, n, s.sys.replicas[n].state);
    RecoversSafely(s.sys.writes, s.sys.issued, n, s.sys.replicas[n].state, s.saved[n], r);
  }

  /** The process at n dies after k steps of the operation and leaves this disk. */
  ghost predicate DiesWith(s: Durable, n: Id, op: R.Op, k: nat, disk: R.Disk) {
    n in s.sys.replicas && n in s.saved && R.Dies(R.MachineOf(s.sys.replicas[n].state, s.saved[n]), n, op, k, disk)
  }

  /** After any run, at any of the steps of whatever happens next, at any replica: what is recovered
      from the disk is safe, for the state before what was happening or for the one after it. */
  lemma CrashRecovery(s0: Durable, events: seq<Happening>, e: Happening, n: Id, op: R.Op, k: nat, disk: R.Disk, r: Clock)
    requires Starts(s0) && CanHappen(s0, events) && Enabled(Happens(s0, events), e) && IsFor(e, n, op)
    requires DiesWith(Happens(s0, events), n, op, k, disk) && R.IsRecovered(disk.saved, disk.log, r)
    ensures RecoversTo(Happens(s0, events), n, disk, r) || RecoversTo(Next(Happens(s0, events), e), n, disk, r)
  {
    StartInv(s0);
    HappensKeeps(s0, events);
    CrashesSafely(Happens(s0, events), e, n, op, k, disk, r);
  }

  lemma CrashesSafely(s: Durable, e: Happening, n: Id, op: R.Op, k: nat, disk: R.Disk, r: Clock)
    requires DurableInv(s) && Enabled(s, e) && IsFor(e, n, op)
    requires DiesWith(s, n, op, k, disk) && R.IsRecovered(disk.saved, disk.log, r)
    ensures RecoversTo(s, n, disk, r) || RecoversTo(Next(s, e), n, disk, r)
  {
    var m := R.MachineOf(s.sys.replicas[n].state, s.saved[n]);
    ClockIsNormal(s.sys, n);
    R.DiesAnywhere(m, n, op, k);
    if disk == m.disk {
      RecoversAt(s, n, r);
    } else {
      EndsAsNext(s, e, n, op);
      RecoversNext(s, e, n, r);
    }
  }

  lemma ClockIsNormal(s: System, n: Id)
    requires StatesOk(s) && n in s.replicas
    ensures NormalClock(s.replicas[n].state.clock)
  {
    assert StateOk(s.writes, s.issued, n, s.replicas[n].state);
  }

  lemma RecoversNext(s: Durable, e: Happening, n: Id, r: Clock)
    requires DurableInv(s) && Enabled(s, e) && n in Next(s, e).sys.replicas && n in Next(s, e).saved
    requires R.IsRecovered(Next(s, e).saved[n], Next(s, e).sys.replicas[n].state.log, r)
    ensures RecoversTo(Next(s, e), n, R.MachineOf(Next(s, e).sys.replicas[n].state, Next(s, e).saved[n]).disk, r)
  {
    NextKeeps(s, e);
    RecoversAt(Next(s, e), n, r);
  }

  /** After its last step an operation has done what the action does. */
  lemma EndsAsNext(s: Durable, e: Happening, n: Id, op: R.Op)
    requires Enabled(s, e) && n in s.sys.replicas && n in s.saved && IsFor(e, n, op)
    ensures R.Possible(s.sys.replicas[n].state, n, op) && n in Next(s, e).sys.replicas && n in Next(s, e).saved
    ensures R.After(R.MachineOf(s.sys.replicas[n].state, s.saved[n]), n, op)
         == R.MachineOf(Next(s, e).sys.replicas[n].state, Next(s, e).saved[n])
  {
    if e.Act? {
      ActionIsOp(s.sys, s.saved, e.a, n, op);
    }
  }
}
