/** What becomes of a vnode, event by event and over every run (src/vnode.rs:181-284, src/vnode.rs:648-800). */
module StatusLaws {
  import opened StatusMachine

  ghost predicate Ok(v: View) {
    StatusOk(v.status, v.pending, v.syncs, v.syncNodes)
  }

  /** An event that the vnode can have, and what comes of it. */
  ghost predicate Step(v: View, e: Event, v': View) {
    Ok(v) && Ok(v') && Possible(v.status, v.syncs, e) && exists room, sendRoom :: Moves(v, e, room, sendRoom, v')
  }

  /** v' has the syncs of v but the ended ones. */
  ghost predicate Ends(v: View, v': View, ended: set<Cookie>) {
    forall c :: (c in v'.syncs <==> c in v.syncs && c !in ended) && (c in v'.syncs ==> v'.syncs[c] == v.syncs[c])
  }

  // ---------------------------------------------------------------- event by event

  /** A bootstrap that succeeds makes the vnode ready exactly when the ring takes the promotion, and absent
      otherwise. */
  lemma BootstrapSucceeds(v: View, cookie: Cookie, env: Surroundings, v': View)
    requires Step(v, SyncFin(cookie, Success, env), v') && v.status == Bootstrap && cookie in v.syncs
    ensures v'.status == (if env.promoted then Ready else Absent) && v'.syncs == map[] && !v'.pending
  {
    assert forall c :: c in v.syncs ==> c == cookie;
  }

  /** One that fails starts over. */
  lemma BootstrapFails(v: View, cookie: Cookie, env: Surroundings, v': View)
    requires Step(v, SyncFin(cookie, Failure, env), v') && v.status == Bootstrap && cookie in v.syncs
    ensures Restarts(v', true, env)
  {
    assert forall c :: c in v.syncs ==> c == cookie;
    assert v.syncs - {cookie} == map[];
  }

  /** With somebody to bootstrap from, one receiver if there is room, waiting otherwise; with nobody, ready
      exactly when the ring takes the promotion, and absent otherwise. */
  ghost predicate Restarts(v: View, room: bool, env: Surroundings) {
    if env.peers != [] then
      && v.status == Bootstrap && v.pending == !room
      && v.syncs == if room then map[env.cookie := BootstrapReceiver] else map[]
    else v.status == (if env.promoted then Ready else Absent) && v.syncs == map[] && !v.pending
  }

  /** A ready vnode that the node should not have any more becomes a zombie and goes on sending. */
  lemma ReadyToldAbsent(v: View, env: Surroundings, v': View)
    requires Step(v, DhtChange(Absent, env), v') && v.status == Ready
    ensures v'.status == Zombie && !v'.pending
    ensures forall c :: (c in v'.syncs <==> c in v.syncs && (v.syncs[c].SyncSender? || v.syncs[c].BootstrapSender?))
                        && (c in v'.syncs ==> v'.syncs[c] == v.syncs[c])
  {
  }

  /** A bootstrapping one is given up at once. */
  lemma BootstrapToldAbsent(v: View, env: Surroundings, v': View)
    requires Step(v, DhtChange(Absent, env), v') && v.status == Bootstrap
    ensures v'.status == Absent && v'.syncs == map[] && !v'.pending
  {
    assert forall c :: c in v.syncs ==> c in Cookies(v.syncs, Incoming);
  }

  /** A zombie that is wanted again is ready at once, with all it has. */
  lemma ZombieToldReady(v: View, env: Surroundings, v': View)
    requires Step(v, DhtChange(Ready, env), v') && v.status == Zombie
    ensures v'.status == Ready && v'.syncs == v.syncs && v'.syncNodes == v.syncNodes && v'.pending == v.pending
  {
  }

  /** An absent vnode that is wanted bootstraps; it stays absent exactly when there is nobody to bootstrap from
      and the ring refuses the promotion. */
  lemma AbsentToldReady(v: View, env: Surroundings, room: bool, v': View)
    requires Ok(v) && Moves(v, DhtChange(Ready, env), room, true, v') && v.status == Absent
    ensures Restarts(v', room, env)
    ensures v'.status == Absent <==> env.peers == [] && !env.promoted
  {
  }

  /** So does one that was loaded to bootstrap, and one that waits to. */
  lemma WaitingStarts(v: View, e: Event, env: Surroundings, room: bool, v': View)
    requires Ok(v) && Moves(v, e, room, true, v') && v.status == Bootstrap && v.syncs == map[]
    requires e == Load(env) || (v.pending && e == DhtChange(Ready, env))
    ensures Restarts(v', room, env)
  {
  }

  /** What is as it should be stays as it is. */
  lemma NothingToDo(v: View, want: Status, env: Surroundings, v': View)
    requires Step(v, DhtChange(want, env), v')
    requires want == v.status || (v.status == Zombie && want == Absent) || (v.status == Bootstrap && want == Ready && !v.pending)
    ensures v' == v
  {
  }

  /** A tick takes away the syncs that ended; a zombie that has none left and is late becomes absent, and no
      other status changes but that of a bootstrap. */
  lemma Ticks(v: View, ended: set<Cookie>, late: bool, env: Surroundings, again: Surroundings, v': View)
    requires Step(v, Tick(ended, late, env, again), v') && v.status != Bootstrap
    ensures Ends(v, v', ended)
    ensures v'.status == if v.status == Zombie && late && (forall c :: c in v.syncs ==> c in ended) then Absent else v.status
  {
    if forall c :: c in v.syncs ==> c in ended {
      assert v.syncs.Keys == ended;
    }
  }

  /** A bootstrap that ended or waits starts over, and one under way goes on. */
  lemma BootstrapTicks(v: View, e: Event, room: bool, v': View)
    requires Ok(v) && e.Tick? && e.ended <= v.syncs.Keys && Moves(v, e, room, true, v') && v.status == Bootstrap
    ensures if e.ended != {} then Restarts(v', true, e.env)
            else if v.pending then Restarts(v', room, e.again)
            else v' == v
  {
    if e.ended != {} {
      var c :| c in e.ended;
      assert forall k :: k in v.syncs ==> k == c;
      assert v.syncs - e.ended == map[];
    }
  }

  /** A fin ends its sync and no other, unless the peer was not ready to send. */
  lemma FinEnds(v: View, cookie: Cookie, fin: Fin, env: Surroundings, v': View)
    requires Step(v, SyncFin(cookie, fin, env), v') && v.status != Bootstrap
    ensures v'.status == v.status
    ensures Ends(v, v', if cookie in v.syncs && fin == NotReady && v.syncs[cookie].SyncReceiver? then {} else {cookie})
  {
  }

  // ---------------------------------------------------------------- over every run

  /** The ring took a promotion in the event. */
  predicate TookPromotion(e: Event) {
    match e
    case Load(env) => env.promoted
    case DhtChange(_, env) => env.promoted
    case Tick(_, _, env, again) => env.promoted || again.promoted
    case SyncFin(_, _, env) => env.promoted
    case _ => false
  }

  /** Why a vnode may become ready. */
  predicate MayBeReady(v: View, e: Event) {
    || (v.status == Zombie && e.DhtChange? && e.want == Ready)
    || (v.status == Bootstrap && TookPromotion(e))
    || (v.status == Absent && e.DhtChange? && e.want == Ready && TookPromotion(e))
  }

  /** Why it may lose its data: set_status clears it on the way to Bootstrap and Absent. */
  predicate MayBeCleared(v: View, e: Event) {
    || (v.status == Absent && e.DhtChange? && e.want == Ready)
    || v.status == Bootstrap
    || (v.status == Zombie && e.Tick? && e.late)
  }

  lemma StepHasReason(v: View, e: Event, v': View)
    requires Step(v, e, v') && v'.status != v.status
    ensures v'.status == Ready ==> MayBeReady(v, e)
    ensures v'.status == Bootstrap || v'.status == Absent ==> MayBeCleared(v, e)
    ensures v'.status == Zombie ==> v.status == Ready && e.DhtChange? && e.want == Absent
  {
  }

  ghost predicate IsRun(views: seq<View>, events: seq<Event>) {
    |views| == |events| + 1 && forall i :: 0 <= i < |events| ==> StepAt(views, events, i)
  }

  ghost predicate StepAt(views: seq<View>, events: seq<Event>, i: nat)
    requires i < |events| && |views| == |events| + 1
  {
    Step(views[i], events[i], views[i + 1])
  }

  /** A vnode is ready only if it began so, or became so as a wanted zombie or by a promotion. */
  lemma {:induction false} ReadyForAReason(views: seq<View>, events: seq<Event>, n: nat)
    requires IsRun(views, events) && n < |views| && views[n].status == Ready
    ensures views[0].status == Ready || exists i :: 0 <= i < n && views[i].status != Ready && MayBeReady(views[i], events[i])
  {
    if n > 0 {
      assert StepAt(views, events, n - 1);
      if views[n - 1].status == Ready {
        ReadyForAReason(views, events, n - 1);
      } else {
        StepHasReason(views[n - 1], events[n - 1], views[n]);
      }
    }
  }

  /** A vnode that was ready has lost its data only if it was a zombie in between, told that the node should
      not have it. */
  lemma {:induction false} NoDataLostWhileWanted(views: seq<View>, events: seq<Event>, m: nat, n: nat)
    requires IsRun(views, events) && m < n < |views| && views[m].status == Ready
    requires views[n].status == Absent || views[n].status == Bootstrap
    ensures exists i :: m <= i < n && views[i].status == Ready && events[i].DhtChange? && events[i].want == Absent
    decreases n
  {
    assert StepAt(views, events, n - 1);
    if views[n - 1].status == Absent || views[n - 1].status == Bootstrap {
      NoDataLostWhileWanted(views, events, m, n - 1);
    } else {
      StepHasReason(views[n - 1], events[n - 1], views[n]);
      ZombieFromReady(views, events, m, n - 1);
    }
  }

  lemma {:induction false} ZombieFromReady(views: seq<View>, events: seq<Event>, m: nat, n: nat)
    requires IsRun(views, events) && m < n < |views| && views[m].status == Ready && views[n].status == Zombie
    ensures exists i :: m <= i < n && views[i].status == Ready && events[i].DhtChange? && events[i].want == Absent
    decreases n
  {
    assert StepAt(views, events, n - 1);
    if views[n - 1].status == Zombie {
      ZombieFromReady(views, events, m, n - 1);
    } else {
      StepHasReason(views[n - 1], events[n - 1], views[n]);
    }
  }
}
