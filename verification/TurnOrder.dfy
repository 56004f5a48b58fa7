/** Runs of the wire, turn by turn: serialisation in a session, and the order in which turns begin. */
module TurnOrder {
  import opened Sequences
  import opened Options
  import opened Turns
  import opened TurnInvariants
  import opened TurnRuns

  // ---------------------------------------------------------------- serialisation

  /** Per session at most one turn runs, and it is the one that attach lands on. */
  lemma OneRunning(s: State, a: Id, b: Id)
    requires Reachable(s) && a in s.turns && s.turns[a].status == Running
    ensures Active(s, s.turns[a].at) == Some(a)
    ensures b in s.turns && s.turns[b].status == Running && s.turns[b].at == s.turns[a].at ==> b == a
  {
    ReachableInv(s);
    RunningIsHead(s, a);
    RunningIsHead(s, b);
  }

  lemma RunningIsHead(s: State, a: Id)
    requires Inv(s)
    ensures a in s.turns && s.turns[a].status == Running ==> Active(s, s.turns[a].at) == Some(a)
  {
    if a in s.turns {
      assert TurnOk(s, a) && SessionOk(s, s.turns[a].at);
    }
  }

  /** A session that begins a turn runs none: neither a thunk of a chain that has been dropped nor an
      adoption can overlap a turn already running. */
  lemma NoOverlap(s: State, a: Action, at: Session, x: Id)
    requires Reachable(s) && Enabled(s, a) && Begins(s, a, at).Some?
    requires x in s.turns && s.turns[x].at == at
    ensures s.turns[x].status == Queued
  {
    ReachableInv(s);
    RunningIsHead(s, x);
    if a.DoStart? {
      StartInv(s, a.chain);
    } else {
      assert TurnOk(s, x);
    }
  }

  predicate Stands(s: State, a: Action) {
    a.DoEnqueue? || (a.DoAdopt? && a.id !in s.turns && Active(s, a.at).None?)
  }

  /** The turn of this session that the step sets running. */
  ghost function Begins(s: State, a: Action, at: Session): Option<Id>
    requires Enabled(s, a)
  {
    if a.DoAdopt? && Stands(s, a) && a.at == at then Some(a.id)
    else if a.DoStart? && s.turns[s.thunks[a.chain][0]].at == at then Some(s.thunks[a.chain][0])
    else None
  }

  /** The turn that the step stands up in this session. */
  ghost function Comes(s: State, a: Action, at: Session): Option<Id> {
    if Stands(s, a) && a.at == at then Some(a.id) else None
  }

  function One(o: Option<Id>): seq<Id> {
    if o.Some? then [o.value] else []
  }

  /** The turns that stood up in a session, in order of arrival. */
  ghost function Arrivals(s: State, run: seq<Action>, at: Session): seq<Id>
    requires Legal(s, run)
    decreases |run|
  {
    if run == [] then [] else One(Comes(s, run[0], at)) + Arrivals(Apply(s, run[0]), run[1..], at)
  }

  /** The turns of a session that began to run, in order. */
  ghost function Starts(s: State, run: seq<Action>, at: Session): seq<Id>
    requires Legal(s, run)
    decreases |run|
  {
    if run == [] then [] else One(Begins(s, run[0], at)) + Starts(Apply(s, run[0]), run[1..], at)
  }

  /** The queue without its running head. */
  function Waiting(s: State, at: Session): seq<Id> {
    var q := Queue(s, at);
    if q != [] && q[0] in s.turns && s.turns[q[0]].status == Running then q[1..] else q
  }

  /** Turns leave a queue in place: what remains keeps its order and its status. */
  ghost predicate Shrinks(s: State, r: State, at: Session) {
    && r.turns.Keys <= s.turns.Keys
    && r.recorded == s.recorded
    && Queue(r, at) == Filter(Queue(s, at), r.turns.Keys)
    && (forall id :: id in r.turns ==> r.turns[id].status == s.turns[id].status)
  }

  lemma SameShrinks(s: State, r: State, at: Session)
    requires QInv(s)
    requires r.queues == s.queues && r.recorded == s.recorded && r.turns.Keys == s.turns.Keys
    requires forall id :: id in s.turns ==> r.turns[id].status == s.turns[id].status
    ensures Shrinks(s, r, at)
  {
    assert SessionOk(s, at);
    FilterAll(Queue(s, at), s.turns.Keys);
  }

  lemma ShrinksTwice(s: State, m: State, r: State, at: Session)
    requires Shrinks(s, m, at) && Shrinks(m, r, at)
    ensures Shrinks(s, r, at)
  {
    FilterTwice(Queue(s, at), m.turns.Keys, r.turns.Keys);
    assert m.turns.Keys * r.turns.Keys == r.turns.Keys;
  }

  lemma LeaveShrinks(s: State, id: Id, at: Session)
    requires QInv(s) && id in s.turns
    ensures Shrinks(s, Leave(s, id), at)
  {
    assert SessionOk(s, at) && TurnOk(s, id);
    assert Leave(s, id).turns.Keys == s.turns.Keys - {id};
    if at != s.turns[id].at {
      FilterAll(Queue(s, at), s.turns.Keys - {id});
    }
  }

  lemma SettleShrinks(s: State, id: Id, ok: bool, at: Session)
    requires QInv(s) && id in s.turns
    ensures Shrinks(s, Settle(s, id, ok), at)
  {
    var m := Append(s, id, Settled(id, ok));
    SameShrinks(s, m, at);
    AppendQueues(s, id, Settled(id, ok));
    LeaveShrinks(m, id, at);
    ShrinksTwice(s, m, Settle(s, id, ok), at);
  }

  lemma AbortShrinks(s: State, id: Id, message: string, at: Session)
    requires QInv(s) && id in s.turns
    ensures Shrinks(s, Abort(s, id, message), at)
  {
    var m := Append(s, id, Env(Failure(message)));
    SameShrinks(s, m, at);
    AppendQueues(s, id, Env(Failure(message)));
    SettleShrinks(m, id, false, at);
    ShrinksTwice(s, m, Abort(s, id, message), at);
  }

  lemma {:induction false} DeleteShrinks(s: State, ids: seq<Id>, at: Session)
    requires Inv(s)
    ensures Shrinks(s, AbortQueued(s, ids), at)
    decreases |ids|
  {
    if ids == [] {
      SameShrinks(s, s, at);
    } else if ids[0] in s.turns && s.turns[ids[0]].status == Queued {
      var m := Abort(s, ids[0], DELETED);
      AbortInv(s, ids[0], DELETED);
      AbortShrinks(s, ids[0], DELETED, at);
      DeleteShrinks(m, ids[1..], at);
      ShrinksTwice(s, m, AbortQueued(s, ids), at);
    } else {
      DeleteShrinks(s, ids[1..], at);
    }
  }

  lemma {:induction false} AppendFilesShrinks(s: State, id: Id, files: seq<string>, at: Session)
    requires QInv(s) && id in s.turns
    ensures QInv(AppendFiles(s, id, files))
    ensures Shrinks(s, AppendFiles(s, id, files), at)
    decreases |files|
  {
    if files == [] {
      SameShrinks(s, s, at);
    } else if files[0] in s.turns[id].announced {
      AppendFilesShrinks(s, id, files[1..], at);
    } else {
      var m := Append(s, id, Env(File(files[0])));
      SameShrinks(s, m, at);
      AppendQueues(s, id, Env(File(files[0])));
      AppendFilesShrinks(m, id, files[1..], at);
      ShrinksTwice(s, m, AppendFiles(s, id, files), at);
    }
  }

  lemma ConcludeShrinks(s: State, id: Id, e: Envelope, ok: bool, at: Session)
    requires QInv(s) && id in s.turns
    ensures Shrinks(s, Settle(Conclude(s, id, e), id, ok), at)
  {
    hide QInv, Shrinks, Settle;
    var m := Conclude(s, id, e);
    SameShrinks(s, m, at);
    if !s.turns[id].envelope {
      AppendQueues(s, id, Env(e));
    }
    SettleShrinks(m, id, ok, at);
    ShrinksTwice(s, m, Settle(m, id, ok), at);
  }

  lemma FinishShrinks(s: State, id: Id, outcome: Outcome, at: Session)
    requires QInv(s) && id in s.turns
    ensures Shrinks(s, Finish(s, id, outcome), at)
  {
    match outcome
    case Done(files, reply) =>
      var m := AppendFiles(s, id, files);
      AppendFilesShrinks(s, id, files, at);
      ConcludeShrinks(m, id, Reply(reply), true, at);
      ShrinksTwice(s, m, Finish(s, id, outcome), at);
    case Failed(message) =>
      ConcludeShrinks(s, id, Failure(message), false, at);
  }

  lemma StepShrinks(s: State, a: Action, at: Session)
    requires Inv(s) && Enabled(s, a) && !a.DoStart? && !Stands(s, a)
    ensures Shrinks(s, Apply(s, a), at)
  {
    if a.DoFinish? {
      FinishShrinks(s, a.id, a.outcome, at);
    } else if a.DoInterrupt? && a.id in s.turns && s.turns[a.id].status == Queued {
      AbortShrinks(s, a.id, INTERRUPTED, at);
    } else if a.DoDelete? {
      DeleteShrinks(s, Queue(s, a.at), at);
    } else {
      QuietQueues(s, a);
      SameShrinks(s, Apply(s, a), at);
    }
  }

  /** No other step moves a queue. */
  lemma QuietQueues(s: State, a: Action)
    requires Enabled(s, a) && !a.DoStart? && !Stands(s, a) && !a.DoFinish? && !a.DoDelete?
    requires a.DoInterrupt? ==> !(a.id in s.turns && s.turns[a.id].status == Queued)
    ensures var r := Apply(s, a);
      && r.queues == s.queues && r.recorded == s.recorded && r.turns.Keys == s.turns.Keys
      && forall id :: id in s.turns ==> r.turns[id].status == s.turns[id].status
  {
    hide OpenStream, DropStream, OpenObserver, Subscribe, Unsubscribe, CloseObserver, SessionEvent;
    if a.DoDropStream? {
      DropSinks(s, a.k);
    } else if a.DoOpenStream? {
      OpenSinks(s, a.k, a.id);
    } else if a.DoOpenObserver? || a.DoSubscribe? || a.DoUnsubscribe? || a.DoCloseObserver? {
      QuietObservers(s, a);
    } else if a.DoEvent? {
      EventKeeps(s, a.at, a.file, a.e);
    }
  }

  predicate SameTurns(s: State, r: State) {
    && r.queues == s.queues && r.recorded == s.recorded && r.turns.Keys == s.turns.Keys
    && forall id :: id in s.turns ==> r.turns[id].status == s.turns[id].status
  }

  lemma RelayKeeps(s: State, id: Id, line: Line)
    requires id in s.turns
    ensures var r := Relay(s, id, line);
      SameTurns(s, r) && r.ledger == s.ledger && r.mixed == s.mixed && r.strayed == s.strayed
  {
  }

  /** A harness event moves no queue and writes one line into one ledger. */
  lemma EventKeeps(s: State, at: Session, file: Id, e: Envelope)
    ensures var r := SessionEvent(s, at, file, e);
      && SameTurns(s, r) && r.ledger == s.ledger[file := Log(s.ledger, file) + [Env(e)]]
      && r.mixed == s.mixed + Parted(s, at, file) && r.strayed == s.strayed + Stray(s, at, file)
  {
    hide Parted, Stray, Relay;
    if Tapped(s, at).Some? {
      RelayKeeps(Written(s, at, file, e), Tapped(s, at).value, Env(e));
    }
  }

  lemma QuietObservers(s: State, a: Action)
    requires Enabled(s, a) && (a.DoOpenObserver? || a.DoSubscribe? || a.DoUnsubscribe? || a.DoCloseObserver?)
    ensures SinksOnly(s, Apply(s, a)) && Apply(s, a).ledger == s.ledger
  {
    hide OpenObserver, CloseObserver, Subscribe, SinksOnly;
    if a.DoOpenObserver? {
      OpenObserverSinks(s, a.o, a.pkg, a.name);
    } else if a.DoCloseObserver? {
      CloseSinks(s, a.o);
    } else if a.DoUnsubscribe? {
      DetachSinks(s, a.o, {a.slot});
    } else {
      SubscribeSinks(s, a.o, a.slot);
    }
  }

  lemma OpenObserverSinks(s: State, o: nat, pkg: string, name: string)
    ensures SinksOnly(s, OpenObserver(s, o, pkg, name)) && OpenObserver(s, o, pkg, name).ledger == s.ledger
  {
    var key := (pkg, name);
    if key in s.named && s.named[key] in s.observers {
      CloseSinks(s, s.named[key]);
    }
    hide CloseObserver;
  }

  lemma SubscribeSinks(s: State, o: nat, slot: string)
    requires o in s.observers
    ensures SinksOnly(s, Subscribe(s, o, slot)) && Subscribe(s, o, slot).ledger == s.ledger
  {
    DetachSinks(s, o, {slot});
    ObserveSinks(s, o, slot);
    ObserveSinks(Detach(s, o, {slot}), o, slot);
  }

  lemma WaitingShrinks(s: State, r: State, at: Session)
    requires Inv(s) && Inv(r) && Shrinks(s, r, at)
    ensures Waiting(r, at) == Filter(Waiting(s, at), r.turns.Keys)
  {
    var q := Queue(s, at);
    assert SessionOk(s, at) && SessionOk(r, at);
    if q != [] {
      assert Filter(q, r.turns.Keys) == (if q[0] in r.turns then [q[0]] else []) + Filter(q[1..], r.turns.Keys);
      if s.turns[q[0]].status == Running && q[0] in r.turns {
        assert Queue(r, at)[1..] == Filter(q[1..], r.turns.Keys);
      } else if Queue(r, at) != [] {
        assert Queue(r, at)[0] in q;
      }
    }
  }

  lemma RecordedGrows(s: State, a: Action)
    requires Inv(s) && Enabled(s, a)
    ensures s.recorded <= Apply(s, a).recorded
  {
    if !a.DoStart? && !Stands(s, a) {
      StepShrinks(s, a, Session("", ""));
    }
  }

  lemma {:induction false} ArrivalsFresh(s: State, run: seq<Action>, at: Session, x: Id)
    requires Inv(s) && Legal(s, run) && x in s.recorded
    ensures x !in Arrivals(s, run, at)
    decreases |run|
  {
    if run != [] {
      StepInv(s, run[0]);
      RecordedGrows(s, run[0]);
      ArrivalsFresh(Apply(s, run[0]), run[1..], at, x);
    }
  }

  /** `k` is `all` with some of its ids left out. */
  predicate Ordered(all: seq<Id>, k: seq<Id>) {
    k == Filter(all, Elems(k))
  }

  lemma OrderedCons(id: Id, all: seq<Id>, k: seq<Id>)
    requires Ordered(all, k) && id !in all
    ensures Ordered([id] + all, [id] + k)
  {
    assert ([id] + all)[1..] == all;
    assert Elems([id] + k) == Elems(k) + {id};
    FilterSame(all, Elems([id] + k), Elems(k));
  }

  lemma OrderedMore(before: seq<Id>, after: seq<Id>, later: seq<Id>, keys: set<Id>, k: seq<Id>)
    requires after == Filter(before, keys) && Ordered(after + later, k)
    requires forall x :: x in before ==> x !in later
    ensures Ordered(before + later, k)
  {
    FilterAppend(before, later, Elems(k));
    FilterAppend(after, later, Elems(k));
    FilterTwice(before, keys, Elems(k));
    forall x | x in before ensures x in Elems(k) <==> x in keys * Elems(k) {
      assert x in k ==> x in after + later;
    }
    FilterSame(before, Elems(k), keys * Elems(k));
  }

  /** Turns begin to run in order of arrival, and one that has waited is passed over only if it left
      the queue unrun. */
  lemma {:induction false} StartsFollowArrivals(s: State, run: seq<Action>, at: Session)
    requires Inv(s) && Legal(s, run)
    ensures Ordered(Waiting(s, at) + Arrivals(s, run, at), Starts(s, run, at) + Waiting(Exec(s, run), at))
    decreases |run|
  {
    if run == [] {
      assert Waiting(s, at) + [] == Waiting(s, at) == [] + Waiting(s, at);
      FilterAll(Waiting(s, at), Elems(Waiting(s, at)));
    } else {
      StepInv(s, run[0]);
      StartsFollowArrivals(Apply(s, run[0]), run[1..], at);
      OrderStep(s, run, at);
    }
  }

  lemma OrderStep(s: State, run: seq<Action>, at: Session)
    requires Inv(s) && Legal(s, run) && run != [] && Inv(Apply(s, run[0]))
    requires var r := Apply(s, run[0]);
      Ordered(Waiting(r, at) + Arrivals(r, run[1..], at), Starts(r, run[1..], at) + Waiting(Exec(r, run[1..]), at))
    ensures Ordered(Waiting(s, at) + Arrivals(s, run, at), Starts(s, run, at) + Waiting(Exec(s, run), at))
  {
    hide Inv, Ordered, Moved, Waiting, Enabled, Apply, Begins, Comes;
    var r := Apply(s, run[0]);
    var starts := Starts(r, run[1..], at);
    var end := Waiting(Exec(r, run[1..]), at);
    LaterFresh(s, run, at);
    StepMoves(s, run[0], at);
    OrderMoved(Waiting(s, at), Waiting(r, at), Begins(s, run[0], at), Comes(s, run[0], at), Arrivals(r, run[1..], at), starts + end);
    assert One(Begins(s, run[0], at)) + starts + end == One(Begins(s, run[0], at)) + (starts + end);
  }

  lemma LaterFresh(s: State, run: seq<Action>, at: Session)
    requires Inv(s) && Legal(s, run) && run != [] && Inv(Apply(s, run[0]))
    ensures var later := Arrivals(Apply(s, run[0]), run[1..], at);
      && (Begins(s, run[0], at).Some? ==> Begins(s, run[0], at).value !in later)
      && (forall x :: x in Waiting(s, at) ==> x !in later)
  {
    var r := Apply(s, run[0]);
    RecordedGrows(s, run[0]);
    WaitingRecorded(s, at);
    StepMoves(s, run[0], at);
    if Begins(s, run[0], at).Some? {
      ArrivalsFresh(r, run[1..], at, Begins(s, run[0], at).value);
    }
    forall x | x in Waiting(s, at) ensures x !in Arrivals(r, run[1..], at) { ArrivalsFresh(r, run[1..], at, x); }
  }

  lemma WaitingRecorded(s: State, at: Session)
    requires Inv(s)
    ensures forall x :: x in Waiting(s, at) ==> x in s.recorded
  {
    forall x | x in Waiting(s, at) ensures x in s.recorded {
      assert SessionOk(s, at) && TurnOk(s, x);
    }
  }

  lemma BeginStep(s: State, a: Action, at: Session, id: Id)
    requires Inv(s) && Enabled(s, a) && Inv(Apply(s, a)) && Begins(s, a, at) == Some(id)
    ensures id in Apply(s, a).recorded
    ensures id !in Waiting(Apply(s, a), at)
    ensures a.DoAdopt? ==> Waiting(s, at) == [] == Waiting(Apply(s, a), at)
    ensures a.DoStart? ==> Waiting(s, at) == [id] + Waiting(Apply(s, a), at)
  {
    hide Adopt, Start, Inv, Waiting;
    if a.DoAdopt? {
      BeginAdopt(s, id, at);
    } else {
      BeginStart(s, a.chain);
    }
  }

  lemma BeginAdopt(s: State, id: Id, at: Session)
    requires id !in s.turns && Active(s, at).None?
    ensures id in Adopt(s, id, at).recorded
    ensures Waiting(s, at) == [] == Waiting(Adopt(s, id, at), at)
  {
  }

  lemma BeginStart(s: State, c: Id)
    requires Inv(s) && Enabled(s, DoStart(c)) && Inv(Start(s, c))
    ensures var id := s.thunks[c][0];
      var at := s.turns[id].at;
      && id in Start(s, c).recorded
      && id !in Waiting(Start(s, c), at)
      && Waiting(s, at) == [id] + Waiting(Start(s, c), at)
  {
    var id := s.thunks[c][0];
    var at := s.turns[id].at;
    hide Start;
    StartInv(s, c);
    assert TurnOk(s, id) && SessionOk(s, at) && Distinct(Queue(s, at));
    StartRuns(s, c);
    hide Inv, TurnOk, SessionOk;
    assert id !in Queue(s, at)[1..];
  }

  lemma StartRuns(s: State, c: Id)
    requires Enabled(s, DoStart(c))
    ensures var id := s.thunks[c][0]; var r := Start(s, c);
      r.queues == s.queues && r.recorded == s.recorded && id in r.turns && r.turns[id].status == Running
  {
  }

  lemma ArriveStep(s: State, id: Id, at: Session)
    requires Inv(s) && id !in s.ledger
    ensures Waiting(Enqueue(s, id, at), at) == Waiting(s, at) + [id]
  {
    assert SessionOk(s, at);
  }

  lemma PassStep(s: State, a: Action, at: Session)
    requires Inv(s) && Enabled(s, a) && Inv(Apply(s, a)) && Begins(s, a, at).None? && !(Stands(s, a) && a.at == at)
    ensures exists keys :: Waiting(Apply(s, a), at) == Filter(Waiting(s, at), keys)
  {
    var r := Apply(s, a);
    if a.DoStart? || Stands(s, a) {
      OtherSession(s, a, at);
      FilterAll(Waiting(s, at), Elems(Waiting(s, at)));
    } else {
      StepShrinks(s, a, at);
      WaitingShrinks(s, r, at);
    }
  }

  lemma OtherSession(s: State, a: Action, at: Session)
    requires Inv(s) && Enabled(s, a) && Inv(Apply(s, a)) && Begins(s, a, at).None? && !(Stands(s, a) && a.at == at)
    requires a.DoStart? || Stands(s, a)
    ensures Waiting(Apply(s, a), at) == Waiting(s, at)
  {
    if a.DoStart? {
      assert SessionOk(s, at) && TurnOk(s, s.thunks[a.chain][0]);
      hide Inv, SessionOk;
    } else if a.DoAdopt? {
      AdoptOther(s, a.id, a.at, at);
    } else {
      EnqueueOther(s, a.id, a.at, at);
    }
  }

  lemma AdoptOther(s: State, id: Id, a: Session, at: Session)
    requires Inv(s) && id !in s.ledger && Active(s, a).None? && at != a
    ensures Waiting(Adopt(s, id, a), at) == Waiting(s, at)
  {
    assert SessionOk(s, at);
    hide Inv, SessionOk;
  }

  lemma EnqueueOther(s: State, id: Id, a: Session, at: Session)
    requires Inv(s) && id !in s.ledger && at != a
    ensures Waiting(Enqueue(s, id, a), at) == Waiting(s, at)
  {
    assert SessionOk(s, at);
    hide Inv, SessionOk;
  }

  /** How one step moves the waiting turns of a session: a turn begins, a turn comes, or some leave. */
  ghost predicate Moved(before: seq<Id>, after: seq<Id>, begins: Option<Id>, comes: Option<Id>) {
    match (begins, comes)
    case (Some(id), Some(x)) => id == x && before == [] && after == []
    case (Some(id), None) => before == [id] + after && id !in after
    case (None, Some(x)) => after == before + [x]
    case (None, None) => exists keys :: after == Filter(before, keys)
  }

  lemma StepMoves(s: State, a: Action, at: Session)
    requires Inv(s) && Enabled(s, a) && Inv(Apply(s, a))
    ensures Moved(Waiting(s, at), Waiting(Apply(s, a), at), Begins(s, a, at), Comes(s, a, at))
    ensures Begins(s, a, at).Some? ==> Begins(s, a, at).value in Apply(s, a).recorded
  {
    if Begins(s, a, at).Some? {
      BeginStep(s, a, at, Begins(s, a, at).value);
    } else if Comes(s, a, at).Some? {
      ArriveStep(s, a.id, at);
    } else {
      PassStep(s, a, at);
    }
  }

  lemma OrderMoved(before: seq<Id>, after: seq<Id>, begins: Option<Id>, comes: Option<Id>, later: seq<Id>, k: seq<Id>)
    requires Moved(before, after, begins, comes) && Ordered(after + later, k)
    requires begins.Some? ==> begins.value !in later
    requires forall x :: x in before ==> x !in later
    ensures Ordered(before + (One(comes) + later), One(begins) + k)
  {
    hide Ordered;
    assert [] + later == later && [] + k == k;
    match (begins, comes)
    case (Some(id), Some(x)) =>
      OrderedCons(id, after + later, k);
      assert before + ([id] + later) == [id] + (after + later);
    case (Some(id), None) =>
      OrderedCons(id, after + later, k);
      assert before + later == [id] + (after + later);
    case (None, Some(x)) =>
      assert before + ([x] + later) == after + later;
    case (None, None) =>
      var keys :| after == Filter(before, keys);
      OrderedMore(before, after, later, keys, k);
  }

  // ---------------------------------------------------------------- ledgers over a run

  /** The turns that a step parts from their ledgers, and those whose ledger gets an event not relayed to
      them */
  ghost function Crosses(s: State, a: Action): set<Id> {
    if a.DoEvent? then Parted(s, a.at, a.file) else {}
  }

  ghost function Strays(s: State, a: Action): set<Id> {
    if a.DoEvent? then Stray(s, a.at, a.file) else {}
  }

  lemma {:induction false} DeleteMixed(s: State, ids: seq<Id>)
    ensures SameMixed(s, AbortQueued(s, ids))
    decreases |ids|
  {
    if ids != [] {
      DeleteMixed(if ids[0] in s.turns && s.turns[ids[0]].status == Queued then Abort(s, ids[0], DELETED) else s, ids[1..]);
    }
  }

  lemma StepMixed(s: State, a: Action)
    requires Enabled(s, a)
    ensures Apply(s, a).mixed == s.mixed + Crosses(s, a) && Apply(s, a).strayed == s.strayed + Strays(s, a)
  {
    hide Finish, AbortQueued, OpenStream, DropStream, OpenObserver, Subscribe, Unsubscribe, CloseObserver, SessionEvent, Enqueue, Adopt, Start, Pop, Interrupt, Tapped;
    if a.DoFinish? {
      FinishMixed(s, a.id, a.outcome);
    } else if a.DoDelete? {
      DeleteMixed(s, Queue(s, a.at));
    } else if a.DoOpenStream? {
      OpenSinks(s, a.k, a.id);
    } else if a.DoDropStream? {
      DropSinks(s, a.k);
    } else if a.DoOpenObserver? || a.DoSubscribe? || a.DoUnsubscribe? || a.DoCloseObserver? {
      QuietObservers(s, a);
    } else if a.DoEvent? {
      EventKeeps(s, a.at, a.file, a.e);
    } else {
      TurnMixed(s, a);
    }
  }

  lemma TurnMixed(s: State, a: Action)
    requires Enabled(s, a) && (a.DoEnqueue? || a.DoAdopt? || a.DoStart? || a.DoPop? || a.DoInterrupt?)
    ensures Apply(s, a).mixed == s.mixed && Apply(s, a).strayed == s.strayed
  {
  }

  ghost function Crossed(s: State, run: seq<Action>): set<Id>
    requires Legal(s, run)
    decreases |run|
  {
    if run == [] then {} else Crosses(s, run[0]) + Crossed(Apply(s, run[0]), run[1..])
  }

  ghost function Strayed(s: State, run: seq<Action>): set<Id>
    requires Legal(s, run)
    decreases |run|
  {
    if run == [] then {} else Strays(s, run[0]) + Strayed(Apply(s, run[0]), run[1..])
  }

  /** The turns that a run mixes are exactly those that one of its events crosses, and their ledgers get
      an event not relayed to them exactly when one strays. */
  lemma {:induction false} MixedExactly(s: State, run: seq<Action>)
    requires Legal(s, run)
    ensures Exec(s, run).mixed == s.mixed + Crossed(s, run)
    ensures Exec(s, run).strayed == s.strayed + Strayed(s, run)
    decreases |run|
  {
    if run != [] {
      StepMixed(s, run[0]);
      MixedExactly(Apply(s, run[0]), run[1..]);
    }
  }

  /** Ledgers only grow, and a settled turn's ledger never changes again unless an event strays into it. */
  ghost predicate LogKept(s: State, r: State, id: Id) {
    id in s.recorded ==>
      && id in r.recorded
      && Log(s.ledger, id) <= Log(r.ledger, id)
      && (id !in s.turns ==> id !in r.turns)
      && (id in s.strayed ==> id in r.strayed)
      && (id !in s.turns && id !in r.strayed ==> Log(r.ledger, id) == Log(s.ledger, id))
  }

  lemma AbortLogs(s: State, x: Id, message: string, id: Id)
    requires Inv(s) && x in s.turns && s.turns[x].status == Queued
    ensures var r := Abort(s, x, message);
      && Inv(r) && LogKept(s, r, id) && r.strayed == s.strayed
      && (id in s.turns && id != x ==> id in r.turns && r.turns[id].status == s.turns[id].status)
      && (id == x && id !in s.strayed ==> Unrun(Log(r.ledger, id), id))
  {
    AbortInv(s, x, message);
    AbortShrinks(s, x, message, Session("", ""));
    assert LedgerOk(s, x);
    hide QInv, SInv, OInv;
  }

  lemma {:induction false} DeleteLogs(s: State, ids: seq<Id>, id: Id)
    requires Inv(s)
    ensures LogKept(s, AbortQueued(s, ids), id)
    ensures AbortQueued(s, ids).strayed == s.strayed
    ensures id in s.turns && s.turns[id].status == Queued && id !in AbortQueued(s, ids).turns && id !in s.strayed ==>
      Unrun(Log(AbortQueued(s, ids).ledger, id), id)
    decreases |ids|
  {
    if ids != [] {
      if ids[0] in s.turns && s.turns[ids[0]].status == Queued {
        AbortLogs(s, ids[0], DELETED, id);
        DeleteLogs(Abort(s, ids[0], DELETED), ids[1..], id);
      } else {
        DeleteLogs(s, ids[1..], id);
      }
    }
  }

  /** The ledger of a turn that left the queue before it ran. */
  predicate Unrun(log: seq<Line>, id: Id) {
    |log| == 2 && log[0].Env? && log[0].e.Failure? && log[1] == Settled(id, false)
  }

  lemma StepLogs(s: State, a: Action, id: Id)
    requires Inv(s) && Enabled(s, a)
    ensures LogKept(s, Apply(s, a), id)
    ensures id in s.turns && s.turns[id].status == Queued && id !in Apply(s, a).turns && id !in s.strayed ==>
      Unrun(Log(Apply(s, a).ledger, id), id)
  {
    StepMixed(s, a);
    if id in s.recorded {
      if a.DoFinish? {
        FinishLogs(s, a.id, a.outcome, id);
      } else if a.DoInterrupt? && a.id in s.turns && s.turns[a.id].status == Queued {
        AbortLogs(s, a.id, INTERRUPTED, id);
      } else if a.DoDelete? {
        DeleteLogs(s, Queue(s, a.at), id);
      } else {
        QuietLogs(s, a, id);
      }
    }
  }

  lemma FinishLogs(s: State, x: Id, outcome: Outcome, id: Id)
    requires Inv(s) && Enabled(s, DoFinish(x, outcome))
    ensures var r := Finish(s, x, outcome);
      && LogKept(s, r, id) && (id in s.turns && s.turns[id].status == Queued ==> id in r.turns)
  {
    StepMixed(s, DoFinish(x, outcome));
    FinishInv(s, x, outcome);
    FinishShrinks(s, x, outcome, Session("", ""));
  }

  lemma QuietLogs(s: State, a: Action, id: Id)
    requires Inv(s) && Enabled(s, a) && !a.DoFinish? && !a.DoDelete? && id in s.recorded
    requires a.DoInterrupt? ==> !(a.id in s.turns && s.turns[a.id].status == Queued)
    ensures LogKept(s, Apply(s, a), id)
    ensures id in s.turns ==> id in Apply(s, a).turns
  {
    StepMixed(s, a);
    if a.DoStart? {
      assert Log(Start(s, a.chain).ledger, id) == Log(s.ledger, id) || id == s.thunks[a.chain][0];
    } else if Stands(s, a) {
      StandLogs(s, a, id);
    } else {
      QuietQueues(s, a);
      SilentLedger(s, a, id);
    }
  }

  lemma StandLogs(s: State, a: Action, id: Id)
    requires Inv(s) && Enabled(s, a) && Stands(s, a) && id in s.recorded
    ensures var r := Apply(s, a);
      id in r.recorded && Log(r.ledger, id) == Log(s.ledger, id) && (id in s.turns <==> id in r.turns)
  {
    if a.DoAdopt? {
      AdoptLogs(s, a.id, a.at, id);
    } else {
      EnqueueLogs(s, a.id, a.at, id);
    }
  }

  lemma AdoptLogs(s: State, id: Id, at: Session, x: Id)
    requires id !in s.turns && Active(s, at).None? && x != id
    ensures var r := Adopt(s, id, at);
      (x in s.recorded ==> x in r.recorded) && Log(r.ledger, x) == Log(s.ledger, x) && (x in s.turns <==> x in r.turns)
  {
    var c := Chain(Stand(s, id, at, Running), id, at);
    AnnounceLogs(c, id, x);
    AppendLogs(Announce(c, id), id, Started(id), x);
    hide Announce, Append;
  }

  lemma AnnounceLogs(s: State, id: Id, x: Id)
    requires id in s.turns
    ensures var r := Announce(s, id); r.recorded == s.recorded && r.ledger == s.ledger && r.turns.Keys == s.turns.Keys
  {
  }

  lemma AppendLogs(s: State, id: Id, line: Line, x: Id)
    requires id in s.turns && x != id
    ensures var r := Append(s, id, line);
      r.recorded == s.recorded && Log(r.ledger, x) == Log(s.ledger, x) && r.turns.Keys == s.turns.Keys
  {
  }

  lemma EnqueueLogs(s: State, id: Id, at: Session, x: Id)
    requires x != id
    ensures var r := Enqueue(s, id, at);
      (x in s.recorded ==> x in r.recorded) && Log(r.ledger, x) == Log(s.ledger, x) && (x in s.turns <==> x in r.turns)
  {
    var c := Stand(s, id, at, Queued);
    AnnounceLogs(c, id, x);
    hide Announce;
  }

  lemma SilentLedger(s: State, a: Action, id: Id)
    requires Enabled(s, a) && !a.DoStart? && !Stands(s, a) && !a.DoFinish? && !a.DoDelete?
    requires a.DoInterrupt? ==> !(a.id in s.turns && s.turns[a.id].status == Queued)
    ensures (a.DoEvent? && id == a.file) || Log(Apply(s, a).ledger, id) == Log(s.ledger, id)
    ensures a.DoEvent? && id == a.file ==> Log(Apply(s, a).ledger, id) == Log(s.ledger, id) + [Env(a.e)]
  {
    hide OpenObserver, CloseObserver, Subscribe, Unsubscribe, SessionEvent;
    if a.DoOpenObserver? || a.DoSubscribe? || a.DoUnsubscribe? || a.DoCloseObserver? {
      QuietObservers(s, a);
    } else if a.DoEvent? {
      EventKeeps(s, a.at, a.file, a.e);
    }
  }

  lemma {:induction false} RunLogs(s: State, run: seq<Action>, id: Id)
    requires Inv(s) && Legal(s, run)
    ensures LogKept(s, Exec(s, run), id)
    decreases |run|
  {
    if run != [] {
      StepInv(s, run[0]);
      StepLogs(s, run[0], id);
      RunLogs(Apply(s, run[0]), run[1..], id);
    }
  }

  /** Every turn this daemon ever recorded and settled: at most one `started`, first; exactly one
      `settled`, last, if no event strayed into its ledger; and a reply or an error before it, if no
      foreign event was relayed to it either. */
  lemma SettledLedger(s: State, id: Id)
    requires Reachable(s) && id in s.recorded && id !in s.turns
    ensures var log := Log(s.ledger, id);
      id !in s.strayed ==>
      && log != [] && log[|log| - 1].Settled? && log[|log| - 1].turn == id
      && (forall i :: 0 <= i < |log| ==> (log[i].Settled? <==> i == |log| - 1))
      && (forall i :: 0 <= i < |log| && log[i].Started? ==> i == 0 && log[0] == Started(id))
      && (id !in s.mixed ==> exists i :: 0 <= i < |log| - 1 && Terminal(log[i]))
    ensures forall at :: id !in Queue(s, at)
    ensures forall c :: c in s.thunks && s.thunks[c] != [] && s.thunks[c][0] == id ==> Enabled(s, DoPop(c))
    ensures forall k :: k in s.streams && s.streams[k].turn == id ==> s.streams[k].phase != Open
    ensures forall o :: o in s.observers ==> id !in s.observers[o].held
  {
    ReachableInv(s);
    assert LedgerOk(s, id);
    if id !in s.strayed {
      ClosedShape(Log(s.ledger, id), id);
    }
    forall at ensures id !in Queue(s, at) { assert SessionOk(s, at); }
    forall k | k in s.streams && s.streams[k].turn == id ensures s.streams[k].phase != Open { assert StreamOk(s, k); }
    forall o | o in s.observers ensures id !in s.observers[o].held { assert HeldOk(s, o, id); }
  }

  lemma ClosedShape(log: seq<Line>, id: Id)
    requires Closed(log, id)
    ensures Complete(log, id) ==> exists i :: 0 <= i < |log| - 1 && Terminal(log[i])
    ensures forall i :: 0 <= i < |log| ==> (log[i].Settled? <==> i == |log| - 1)
    ensures forall i :: 0 <= i < |log| && log[i].Started? ==> i == 0 && log[0] == Started(id)
  {
    var body := log[..|log| - 1];
    if Complete(log, id) {
      var i :| 0 <= i < |body| && Terminal(body[i]);
      assert Terminal(log[i]);
    }
    forall j | 0 < j < |body| ensures log[j].Env? {
      assert log[j] == body[j];
      assert !AllEnv(body) ==> body[j] == body[1..][j - 1];
    }
    assert body != [] ==> log[0] == body[0];
  }

  /** A turn still in memory whose ledger no event strayed into: nothing is written before it runs, and no
      `settled` line yet. Its flags say exactly what the ledger holds, or at least that much once foreign
      events were relayed to it. */
  lemma StandingLedger(s: State, id: Id)
    requires Reachable(s) && id in s.turns && id !in s.strayed
    ensures var log := Log(s.ledger, id);
      && (s.turns[id].status == Queued <==> log == [])
      && (s.turns[id].status == Running ==> log[0] == Started(id) && forall i :: 0 < i < |log| ==> log[i].Env?)
      && (HasTerminal(log) ==> s.turns[id].envelope)
      && Paths(log) <= s.turns[id].announced
      && (id !in s.mixed ==> (s.turns[id].envelope ==> HasTerminal(log)) && s.turns[id].announced == Paths(log))
  {
    ReachableInv(s);
    assert LedgerOk(s, id);
    if s.turns[id].status == Running {
      var log := Log(s.ledger, id);
      forall i | 0 < i < |log| ensures log[i].Env? { assert log[i] == log[1..][i - 1]; }
    }
  }

  /** An arrival that neither began to run nor still waits has settled without a `started` line. */
  lemma {:induction false} PassedOver(s: State, run: seq<Action>, at: Session, x: Id)
    requires Inv(s) && Legal(s, run)
    requires x in Waiting(s, at) || x in Arrivals(s, run, at)
    requires x !in Starts(s, run, at) && x !in Waiting(Exec(s, run), at)
    ensures x !in Exec(s, run).turns && (x !in Exec(s, run).strayed ==> Unrun(Log(Exec(s, run).ledger, x), x))
    decreases |run|
  {
    var a := run[0];
    var r := Apply(s, a);
    StepInv(s, a);
    StepMoves(s, a, at);
    assert One(Comes(s, a, at)) + Arrivals(r, run[1..], at) == Arrivals(s, run, at);
    assert One(Begins(s, a, at)) + Starts(r, run[1..], at) == Starts(s, run, at);
    if x in Waiting(r, at) || x in Arrivals(r, run[1..], at) {
      PassedOver(r, run[1..], at, x);
    } else {
      assert x in Waiting(s, at);
      WaitingQueued(s, at, x);
      WaitingQueued(r, at, x);
      StepLogs(s, a, x);
      StaysPut(s, a, at, x);
      RunLogs(r, run[1..], x);
    }
  }

  lemma WaitingQueued(s: State, at: Session, x: Id)
    requires Inv(s)
    ensures x in Waiting(s, at) <==> x in s.turns && s.turns[x].at == at && s.turns[x].status == Queued
    ensures x in s.turns ==> x in s.recorded
  {
    assert SessionOk(s, at) && TurnOk(s, x);
  }

  lemma StaysPut(s: State, a: Action, at: Session, x: Id)
    requires Inv(s) && Enabled(s, a) && Inv(Apply(s, a)) && x in Waiting(s, at)
    requires Begins(s, a, at) != Some(x) && x !in Waiting(Apply(s, a), at)
    ensures x !in Apply(s, a).turns
  {
    StepMoves(s, a, at);
    if Begins(s, a, at).None? && Comes(s, a, at).None? && !a.DoStart? && !Stands(s, a) {
      StepShrinks(s, a, at);
      WaitingShrinks(s, Apply(s, a), at);
    } else if Begins(s, a, at).None? && Comes(s, a, at).None? {
      OtherSession(s, a, at);
    }
  }
}
