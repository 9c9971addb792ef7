/** One replica is a plain data structure server (src/command.rs:236-463, src/vnode.rs:376-431): as long
    as all commands go to it and clients send back the context they read, its dots, clocks and cubes do
    not show. A key then holds nothing, a text, a set, a map or a number, and empty collections are gone. */
module PlainServer {
  import opened Basics
  import opened Clocks
  import opened Cubes
  import opened Replicas
  import opened CommandEffects

  /** A text that was deleted stays a text, with no value. */
  datatype Object =
    | Nothing
    | Text(value: Option<Bytes>)
    | Members(items: set<Bytes>)
    | Table(fields: map<Bytes, Bytes>)
    | Number(n: int)

  datatype Request =
    | Set(value: Bytes)
    | Del
    | Add(item: Bytes)
    | Rem(item: Bytes)
    | PutField(field: Bytes, content: Bytes, timestamp: nat)
    | DropField(field: Bytes)
    | Incr(amount: int)
    | SetNumber(total: int)

  datatype Outcome = Done(now: Object) | WrongType | Crash

  function Items(o: Object): set<Bytes>
    requires o.Nothing? || o.Members?
  {
    if o.Nothing? then {} else o.items
  }

  function Rows(o: Object): map<Bytes, Bytes>
    requires o.Nothing? || o.Table?
  {
    if o.Nothing? then map[] else o.fields
  }

  function MembersOf(items: set<Bytes>): Object {
    if items == {} then Nothing else Members(items)
  }

  function TableOf(fields: map<Bytes, Bytes>): Object {
    if fields == map[] then Nothing else Table(fields)
  }

  /** The plain server. A DEL of nothing brings the vnode down. */
  function Serve(o: Object, r: Request): Outcome {
    match r
    case Set(value) => if o.Nothing? || o.Text? then Done(Text(Some(value))) else WrongType
    case Del => if o.Nothing? then Crash else if o.Text? then Done(Text(None)) else Done(Nothing)
    case Add(item) => if o.Nothing? || o.Members? then Done(Members(Items(o) + {item})) else WrongType
    case Rem(item) => if o.Nothing? || o.Members? then Done(MembersOf(Items(o) - {item})) else WrongType
    case PutField(field, content, _) =>
      if o.Nothing? || o.Table? then Done(Table(Rows(o)[field := content])) else WrongType
    case DropField(field) => if o.Nothing? || o.Table? then Done(TableOf(Rows(o) - {field})) else WrongType
    case Incr(amount) =>
      if o.Nothing? then Done(Number(amount)) else if o.Number? then Done(Number(o.n + amount)) else WrongType
    case SetNumber(total) => if o.Nothing? || o.Number? then Done(Number(total)) else WrongType
  }

  /** The command a client sends that has read ctx. */
  function CommandFor(r: Request, ctx: VV): Command {
    match r
    case Set(value) => Assign(value, ctx)
    case Del => Delete(ctx)
    case Add(item) => SAdd(item)
    case Rem(item) => SRem(item)
    case PutField(field, content, timestamp) => HSet(field, content, timestamp)
    case DropField(field) => HDel(field)
    case Incr(amount) => IncrBy(amount)
    case SetNumber(total) => CSet(total)
  }

  function Contents(m: map<Bytes, MapValue>): map<Bytes, Bytes> {
    map f | f in m :: m[f].value
  }

  /** The cube shows the object. */
  ghost predicate Shows(c: Cube, o: Object) {
    match o
    case Nothing => c.Void?
    case Text(value) => c.Val? && exists d :: c.value.values == map[d := value] && Covers(c.value.vv, d)
    case Members(items) => c.Items? && c.items.values.Keys == items && items != {}
    case Table(fields) => c.Hash? && Contents(c.hash.values) == fields && fields != map[]
    case Number(n) => c.Cnt? && c.counter.values != map[] && Total(c) == n
  }

  /** All cubes were written by what the clock has. */
  ghost predicate Sole(st: State) {
    && (forall i :: i in st.clock ==> st.clock[i].Solid())
    && forall k :: k in st.store ==> !st.store[k].Void? && Contained(st.store[k].Context(), st.clock)
  }

  lemma ContextGrows(st: State, node: Id, cmd: Command, cube: Cube)
    requires (forall i :: i in st.clock ==> st.clock[i].Solid()) && Contained(cube.Context(), st.clock)
    requires var after := Mutate(cmd, node, Slice(st.clock, node).base + 1, cube); after.Some? && !after.value.Void?
    ensures var (clock, version) := Event(st.clock, node);
            Contained(Mutate(cmd, node, version, cube).value.Context(), clock)
  {
  }

  lemma ReadContained(st: State, key: Key)
    requires Sole(st)
    ensures Contained(Get(st, key).Context(), st.clock)
  {
  }

  /** The cube stays or goes, depending on whether it holds anything. */
  lemma StoredReads(st: State, node: Id, key: Key, cmd: Command)
    requires Sole(st) && Flush(st, node, key, cmd).Stored?
    ensures var f := Flush(st, node, key, cmd);
            && f.cube == Mutate(cmd, node, NewDot(st, node).version, Get(st, key)).value
            && (if f.cube.NoValues() then Get(f.state, key).Void? else Get(f.state, key) == f.cube)
            && Sole(f.state)
  {
    var f := Flush(st, node, key, cmd);
    ReadContained(st, key);
    ContextGrows(st, node, cmd, Get(st, key));
    StaysSole(st, f.state.clock, f.state.log, node, key, f.cube);
  }

  lemma StaysSole(st: State, clock: Clock, log: map<Dot, Key>, node: Id, key: Key, cube: Cube)
    requires Sole(st) && clock == Event(st.clock, node).0 && !cube.Void? && Contained(cube.Context(), clock)
    ensures Sole(State(clock, Put(st.store, clock, key, cube), log))
  {
  }

  /** The replica does what the plain server does. */
  ghost predicate Agree(f: Flushed, key: Key, o: Object, served: Outcome) {
    && (f.Rejected? <==> served.WrongType?) && (f.Panicked? <==> served.Crash?)
    && (f.Stored? ==> Sole(f.state) && Shows(Get(f.state, key), served.now))
    && (f.Rejected? ==> Sole(f.state) && Shows(Get(f.state, key), o))
  }

  lemma Rejects(st: State, node: Id, key: Key, o: Object, cmd: Command)
    requires Sole(st) && Shows(Get(st, key), o) && Flush(st, node, key, cmd).Rejected?
    ensures Sole(Flush(st, node, key, cmd).state) && Shows(Get(Flush(st, node, key, cmd).state, key), o)
  {
  }

  lemma ServesText(st: State, node: Id, key: Key, o: Object, value: Option<Bytes>, cmd: Command, ctx: VV)
    requires Sole(st) && Shows(Get(st, key), o) && (o.Text? || (o.Nothing? && value.Some?)) && ctx == Get(st, key).Context()
    requires cmd == if value.Some? then Assign(value.value, ctx) else Delete(ctx)
    ensures Agree(Flush(st, node, key, cmd), key, o, Done(Text(value)))
  {
    var f, d := Flush(st, node, key, cmd), NewDot(st, node);
    StoredReads(st, node, key, cmd);
    assert f.cube.value.values == map[d := value] && d in f.cube.value.values;
  }

  lemma ServesSet(st: State, node: Id, key: Key, o: Object, r: Request)
    requires Sole(st) && Shows(Get(st, key), o) && (r.Add? || r.Rem?) && (o.Nothing? || o.Members?)
    ensures Agree(Flush(st, node, key, CommandFor(r, Get(st, key).Context())), key, o, Serve(o, r))
  {
    var cmd := CommandFor(r, Get(st, key).Context());
    var f := Flush(st, node, key, cmd);
    StoredReads(st, node, key, cmd);
    assert f.cube.items.values.Keys == if r.Add? then Items(o) + {r.item} else Items(o) - {r.item};
  }

  lemma ServesTable(st: State, node: Id, key: Key, o: Object, r: Request)
    requires Sole(st) && Shows(Get(st, key), o) && (r.PutField? || r.DropField?) && (o.Nothing? || o.Table?)
    ensures Agree(Flush(st, node, key, CommandFor(r, Get(st, key).Context())), key, o, Serve(o, r))
  {
    var cmd := CommandFor(r, Get(st, key).Context());
    var f := Flush(st, node, key, cmd);
    StoredReads(st, node, key, cmd);
    assert Contents(Fields(Get(st, key))) == Rows(o);
    TableChanges(Fields(Get(st, key)), r, NewDot(st, node), Fields(f.cube));
    assert r.PutField? ==> r.field in f.cube.hash.values && r.field in Rows(o)[r.field := r.content];
  }

  lemma TableChanges(m: map<Bytes, MapValue>, r: Request, d: Dot, m': map<Bytes, MapValue>)
    requires r.PutField? || r.DropField?
    requires m' == if r.PutField? then m[r.field := MapValue({d}, r.content, r.timestamp)] else m - {r.field}
    ensures Contents(m') == if r.PutField? then Contents(m)[r.field := r.content] else Contents(m) - {r.field}
    ensures m' == map[] <==> Contents(m') == map[]
  {
    assert m'.Keys == Contents(m').Keys;
  }

  lemma ServesIncr(st: State, node: Id, key: Key, o: Object, amount: int)
    requires Sole(st) && (o.Nothing? || o.Number?) && Shows(Get(st, key), o)
    ensures Agree(Flush(st, node, key, IncrBy(amount)), key, o, Serve(o, Incr(amount)))
  {
    IncrServes(st, node, key, o, amount);
    AgreeDone(Flush(st, node, key, IncrBy(amount)), key, o, Number((if o.Nothing? then 0 else o.n) + amount));
  }

  lemma ServesSetNumber(st: State, node: Id, key: Key, o: Object, total: int)
    requires Sole(st) && (o.Nothing? || o.Number?) && Shows(Get(st, key), o)
    ensures Agree(Flush(st, node, key, CSet(total)), key, o, Serve(o, SetNumber(total)))
  {
    SetServes(st, node, key, total);
    AgreeDone(Flush(st, node, key, CSet(total)), key, o, Number(total));
  }

  lemma AgreeDone(f: Flushed, key: Key, o: Object, now: Object)
    requires f.Stored? && Sole(f.state) && Shows(Get(f.state, key), now)
    ensures Agree(f, key, o, Done(now))
  {
  }

  lemma IncrServes(st: State, node: Id, key: Key, o: Object, amount: int)
    requires Sole(st) && (o.Nothing? || o.Number?) && Shows(Get(st, key), o)
    ensures var f := Flush(st, node, key, IncrBy(amount));
            f.Stored? && Sole(f.state) && Shows(Get(f.state, key), Number((if o.Nothing? then 0 else o.n) + amount))
  {
    NumberStored(st, node, key, IncrBy(amount));
    IncrByCounts(st, node, key, amount);
  }

  lemma SetServes(st: State, node: Id, key: Key, total: int)
    requires Sole(st) && (Get(st, key).Void? || Get(st, key).Cnt?)
    ensures var f := Flush(st, node, key, CSet(total)); f.Stored? && Sole(f.state) && Shows(Get(f.state, key), Number(total))
  {
    NumberStored(st, node, key, CSet(total));
    CSetSets(st, node, key, total);
  }

  lemma NumberStored(st: State, node: Id, key: Key, cmd: Command)
    requires Sole(st) && (cmd.IncrBy? || cmd.CSet?) && (Get(st, key).Void? || Get(st, key).Cnt?)
    ensures var f := Flush(st, node, key, cmd);
            f.Stored? && Sole(f.state) && Get(f.state, key).Cnt? && Get(f.state, key).counter.values != map[]
  {
    StoredReads(st, node, key, cmd);
    assert node in Flush(st, node, key, cmd).cube.counter.values;
  }

  lemma ServesDel(st: State, node: Id, key: Key, o: Object, ctx: VV)
    requires Sole(st) && Shows(Get(st, key), o) && !o.Nothing? && !o.Text?
    ensures Agree(Flush(st, node, key, Delete(ctx)), key, o, Done(Nothing))
  {
    StoredReads(st, node, key, Delete(ctx));
  }

  /** One request. */
  lemma ServesOne(st: State, node: Id, key: Key, o: Object, r: Request)
    requires Sole(st) && Shows(Get(st, key), o)
    ensures Agree(Flush(st, node, key, CommandFor(r, Get(st, key).Context())), key, o, Serve(o, r))
  {
    var ctx := Get(st, key).Context();
    if Flush(st, node, key, CommandFor(r, ctx)).Rejected? {
      Rejects(st, node, key, o, CommandFor(r, ctx));
    } else if r.Set? {
      ServesText(st, node, key, o, Some(r.value), CommandFor(r, ctx), ctx);
    } else if r.Del? {
      if o.Text? {
        ServesText(st, node, key, o, None, CommandFor(r, ctx), ctx);
      } else if !o.Nothing? {
        ServesDel(st, node, key, o, ctx);
      }
    } else if r.Add? || r.Rem? {
      ServesSet(st, node, key, o, r);
    } else if r.PutField? || r.DropField? {
      ServesTable(st, node, key, o, r);
    } else if r.Incr? {
      ServesIncr(st, node, key, o, r.amount);
    } else {
      ServesSetNumber(st, node, key, o, r.total);
    }
  }

  // ---------------------------------------------------------------- many requests

  datatype Call = Call(key: Key, r: Request)

  function At(objects: map<Key, Object>, key: Key): Object {
    if key in objects then objects[key] else Nothing
  }

  /** Every key reads as its object. */
  ghost predicate ShowsAll(st: State, objects: map<Key, Object>) {
    Sole(st) && forall k :: Shows(Get(st, k), At(objects, k))
  }

  /** What the plain server makes of its objects, and what it says to whom, until it crashes. */
  function ServeAll(objects: map<Key, Object>, calls: seq<Call>): (map<Key, Object>, seq<bool>)
    decreases |calls|
  {
    if calls == [] then (objects, [])
    else
      match Serve(At(objects, calls[0].key), calls[0].r)
      case Done(now) =>
        var (end, rest) := ServeAll(objects[calls[0].key := now], calls[1..]);
        (end, [true] + rest)
      case WrongType =>
        var (end, rest) := ServeAll(objects, calls[1..]);
        (end, [false] + rest)
      case Crash => (objects, [])
  }

  /** The same calls to the replica. */
  function FlushAll(st: State, node: Id, calls: seq<Call>): (State, seq<bool>)
    requires Slice(st.clock, node).Solid()
    decreases |calls|
  {
    if calls == [] then (st, [])
    else
      match Flush(st, node, calls[0].key, CommandFor(calls[0].r, Get(st, calls[0].key).Context()))
      case Stored(st', _) =>
        var (end, rest) := FlushAll(st', node, calls[1..]);
        (end, [true] + rest)
      case Rejected(st') =>
        var (end, rest) := FlushAll(st', node, calls[1..]);
        (end, [false] + rest)
      case Panicked => (st, [])
  }

  lemma OthersShow(st: State, node: Id, key: Key, cmd: Command, k: Key, o: Object)
    requires Sole(st) && k != key && Shows(Get(st, k), o) && !Flush(st, node, key, cmd).Panicked?
    ensures Shows(Get(Flush(st, node, key, cmd).state, k), o)
  {
    if Flush(st, node, key, cmd).Stored? {
      StoredElsewhere(st, node, key, cmd);
    }
  }

  lemma ServesNext(st: State, node: Id, objects: map<Key, Object>, call: Call)
    requires ShowsAll(st, objects)
    ensures var f := Flush(st, node, call.key, CommandFor(call.r, Get(st, call.key).Context()));
            var served := Serve(At(objects, call.key), call.r);
            && (f.Rejected? <==> served.WrongType?) && (f.Panicked? <==> served.Crash?)
            && (f.Stored? ==> ShowsAll(f.state, objects[call.key := served.now]))
            && (f.Rejected? ==> ShowsAll(f.state, objects))
  {
    var cmd := CommandFor(call.r, Get(st, call.key).Context());
    var f := Flush(st, node, call.key, cmd);
    ServesOne(st, node, call.key, At(objects, call.key), call.r);
    if !f.Panicked? {
      forall k | k != call.key ensures Shows(Get(f.state, k), At(objects, k)) {
        OthersShow(st, node, call.key, cmd, k, At(objects, k));
      }
    }
  }

  /** Whatever is asked in whatever order, the replica answers like the plain server, and every key reads
      like its object. */
  lemma {:induction false} ServesAll(st: State, node: Id, objects: map<Key, Object>, calls: seq<Call>)
    requires ShowsAll(st, objects)
    ensures FlushAll(st, node, calls).1 == ServeAll(objects, calls).1
    ensures ShowsAll(FlushAll(st, node, calls).0, ServeAll(objects, calls).0)
    decreases |calls|
  {
    if calls != [] {
      ServesNext(st, node, objects, calls[0]);
      var f := Flush(st, node, calls[0].key, CommandFor(calls[0].r, Get(st, calls[0].key).Context()));
      if f.Stored? {
        ServesAll(f.state, node, objects[calls[0].key := Serve(At(objects, calls[0].key), calls[0].r).now], calls[1..]);
      } else if f.Rejected? {
        ServesAll(f.state, node, objects, calls[1..]);
      }
    }
  }

  /** From the start. */
  lemma IsPlainServer(node: Id, calls: seq<Call>)
    ensures FlushAll(BLANK, node, calls).1 == ServeAll(map[], calls).1
    ensures ShowsAll(FlushAll(BLANK, node, calls).0, ServeAll(map[], calls).0)
  {
    ServesAll(BLANK, node, map[], calls);
  }
}
