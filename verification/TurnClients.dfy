/** What streams and observers get when they come, leave, or ask again: what a client was sent stays what it
    was, at most one observer is open under an id, and a subscription replays from the start. */
module TurnClients {
  import opened Sequences
  import opened Options
  import opened Turns
  import opened TurnInvariants
  import opened TurnRuns
  import opened TurnOrder

  // ---------------------------------------------------------------- streams

  /** A stream that is no longer open is left alone. */
  ghost predicate Still(s: State, r: State, k: nat) {
    k in s.streams && s.streams[k].phase != Open ==> k in r.streams && r.streams[k] == s.streams[k]
  }

  /** The same observers, as open as before, under the same ids. */
  ghost predicate SameNames(s: State, r: State) {
    && r.named == s.named && r.observers.Keys == s.observers.Keys
    && (forall o :: o in s.observers ==> SameName(s.observers[o], r.observers[o]))
  }

  predicate SameName(a: Observer, b: Observer) {
    b.open == a.open && b.pkg == a.pkg && b.name == a.name
  }

  ghost predicate Aside(s: State, r: State, k: nat) {
    Still(s, r, k) && SameNames(s, r)
  }

  lemma AppendStill(s: State, id: Id, line: Line, k: nat)
    requires id in s.turns
    ensures Aside(s, Append(s, id, line), k)
  {
  }

  lemma RelayStill(s: State, id: Id, line: Line, k: nat)
    requires id in s.turns
    ensures Aside(s, Relay(s, id, line), k)
  {
  }

  lemma LeaveStill(s: State, id: Id, k: nat)
    requires id in s.turns
    ensures Aside(s, Leave(s, id), k)
  {
  }

  lemma SettleStill(s: State, id: Id, ok: bool, k: nat)
    requires id in s.turns
    ensures Aside(s, Settle(s, id, ok), k)
  {
    AppendStill(s, id, Settled(id, ok), k);
    LeaveStill(Append(s, id, Settled(id, ok)), id, k);
    hide Append, Leave;
  }

  lemma AbortStill(s: State, id: Id, message: string, k: nat)
    requires id in s.turns
    ensures Aside(s, Abort(s, id, message), k)
  {
    AppendStill(s, id, Env(Failure(message)), k);
    SettleStill(Append(s, id, Env(Failure(message))), id, false, k);
    hide Settle;
  }

  lemma {:induction false} DeleteStill(s: State, ids: seq<Id>, k: nat)
    ensures Aside(s, AbortQueued(s, ids), k)
    decreases |ids|
  {
    hide Abort;
    if ids != [] {
      if ids[0] in s.turns && s.turns[ids[0]].status == Queued {
        AbortStill(s, ids[0], DELETED, k);
        DeleteStill(Abort(s, ids[0], DELETED), ids[1..], k);
      } else {
        DeleteStill(s, ids[1..], k);
      }
    }
  }

  lemma {:induction false} FilesStill(s: State, id: Id, files: seq<string>, k: nat)
    requires id in s.turns
    ensures Aside(s, AppendFiles(s, id, files), k)
    decreases |files|
  {
    if files != [] {
      if files[0] in s.turns[id].announced {
        FilesStill(s, id, files[1..], k);
      } else {
        AppendStill(s, id, Env(File(files[0])), k);
        FilesStill(Append(s, id, Env(File(files[0]))), id, files[1..], k);
      }
    }
  }

  lemma FinishStill(s: State, id: Id, outcome: Outcome, k: nat)
    requires id in s.turns
    ensures Aside(s, Finish(s, id, outcome), k)
  {
    hide AppendFiles, Append, Settle;
    var m := if outcome.Done? then AppendFiles(s, id, outcome.files) else s;
    var e := if outcome.Done? then Reply(outcome.reply) else Failure(outcome.message);
    if outcome.Done? {
      FilesStill(s, id, outcome.files, k);
    }
    AppendStill(m, id, Env(e), k);
    SettleStill(Conclude(m, id, e), id, outcome.Done?, k);
  }

  lemma StandStill(s: State, id: Id, at: Session, status: Status, k: nat)
    ensures Aside(s, Announce(Chain(Stand(s, id, at, status), id, at), id), k)
  {
  }

  lemma EnqueueStill(s: State, id: Id, at: Session, k: nat)
    ensures Aside(s, Enqueue(s, id, at), k)
  {
  }

  predicate Observing(a: Action) {
    a.DoOpenObserver? || a.DoSubscribe? || a.DoUnsubscribe? || a.DoCloseObserver?
  }

  lemma ObserversStill(s: State, a: Action)
    requires Enabled(s, a) && Observing(a)
    ensures Apply(s, a).streams == s.streams
  {
  }

  lemma AdoptStill(s: State, id: Id, at: Session, k: nat)
    ensures Aside(s, Adopt(s, id, at), k)
  {
    if id !in s.turns && Active(s, at).None? {
      var m := Announce(Chain(Stand(s, id, at, Running), id, at), id);
      StandStill(s, id, at, Running, k);
      assert id in m.turns;
      hide Announce, Chain, Stand;
      AppendStill(m, id, Started(id), k);
      hide Append;
    }
  }

  lemma StartStill(s: State, c: Id, k: nat)
    requires Enabled(s, DoStart(c))
    ensures Aside(s, Start(s, c), k)
  {
    var id := s.thunks[c][0];
    AppendStill(s.(turns := s.turns[id := s.turns[id].(status := Running)]), id, Started(id), k);
    hide Append;
  }

  lemma EventStill(s: State, at: Session, file: Id, e: Envelope, k: nat)
    ensures Aside(s, SessionEvent(s, at, file, e), k)
  {
    if Tapped(s, at).Some? {
      RelayStill(Written(s, at, file, e), Tapped(s, at).value, Env(e), k);
    }
    hide Relay;
  }

  lemma PopStill(s: State, c: Id, k: nat)
    requires c in s.thunks && s.thunks[c] != []
    ensures Aside(s, Pop(s, c), k)
  {
  }

  lemma OpenStill(s: State, j: nat, id: Id, k: nat)
    requires j !in s.streams
    ensures Aside(s, OpenStream(s, j, id), k)
  {
    hide Aside, EndsSettled;
    var log := Log(s.ledger, id);
    if id in s.turns {
      MoreStreams(s, s.turns[id := s.turns[id].(sinks := s.turns[id].sinks + {ToStream(j)})], j, Stream(id, log, Open), k);
    } else {
      MoreStreams(s, s.turns, j, Stream(id, if EndsSettled(log) then log else log + [Settled(id, false)], Ended), k);
    }
  }

  lemma MoreStreams(s: State, turns: map<Id, Turn>, j: nat, stream: Stream, k: nat)
    requires j !in s.streams
    ensures Aside(s, s.(streams := s.streams[j := stream], turns := turns), k)
  {
  }

  lemma DropStill(s: State, j: nat, k: nat)
    requires j in s.streams
    ensures Aside(s, DropStream(s, j), k)
  {
    hide Aside;
    if s.streams[j].phase == Open {
      DroppedStreams(s, DropStream(s, j).turns, j, k);
    } else {
      NothingStill(s, k);
    }
  }

  lemma DroppedStreams(s: State, turns: map<Id, Turn>, j: nat, k: nat)
    requires j in s.streams && s.streams[j].phase == Open
    ensures Aside(s, s.(streams := s.streams[j := s.streams[j].(phase := Dropped)], turns := turns), k)
  {
  }

  lemma StepStill(s: State, a: Action, k: nat)
    requires Enabled(s, a)
    ensures Still(s, Apply(s, a), k)
    ensures !Observing(a) ==> SameNames(s, Apply(s, a))
  {
    if Observing(a) {
      ObserversStill(s, a);
    } else {
      StepAside(s, a, k);
    }
    hide Apply, SameNames;
  }

  lemma StepAside(s: State, a: Action, k: nat)
    requires Enabled(s, a) && !Observing(a)
    ensures Aside(s, Apply(s, a), k)
  {
    hide Aside, Adopt, Start, Enqueue, Abort, SessionEvent, Finish, AbortQueued, Pop, OpenStream, DropStream;
    match a
    case DoEnqueue(id, at) => EnqueueStill(s, id, at, k);
    case DoAdopt(id, at) => AdoptStill(s, id, at, k);
    case DoStart(c) => StartStill(s, c, k);
    case DoEvent(at, file, e) => EventStill(s, at, file, e, k);
    case DoFinish(id, outcome) => FinishStill(s, id, outcome, k);
    case DoInterrupt(id) =>
      if id in s.turns && s.turns[id].status == Queued {
        AbortStill(s, id, INTERRUPTED, k);
      } else {
        NothingStill(s, k);
      }
    case DoDelete(at) => DeleteStill(s, Queue(s, at), k);
    case DoPop(c) => PopStill(s, c, k);
    case DoOpenStream(j, id) => OpenStill(s, j, id, k);
    case DoDropStream(j) => DropStill(s, j, k);
    case _ =>
  }

  lemma NothingStill(s: State, k: nat)
    ensures Aside(s, s, k)
  {
  }

  lemma {:induction false} RunStill(s: State, run: seq<Action>, k: nat)
    requires Legal(s, run)
    ensures Still(s, Exec(s, run), k)
    decreases |run|
  {
    if run != [] {
      StepStill(s, run[0], k);
      RunStill(Apply(s, run[0]), run[1..], k);
    }
  }

  /** A client that leaves has what it was sent until then, nothing more is ever sent to it, and its turn
      goes on without it. */
  lemma DroppedForGood(s: State, k: nat, run: seq<Action>)
    requires Reachable(s) && k in s.streams && s.streams[k].phase == Open && Legal(Apply(s, DoDropStream(k)), run)
    ensures var r := Apply(s, DoDropStream(k));
      && r.turns.Keys == s.turns.Keys && r.queues == s.queues && r.ledger == s.ledger
      && (forall id :: id in r.turns ==> ToStream(k) !in r.turns[id].sinks)
      && k in Exec(r, run).streams && Exec(r, run).streams[k] == Stream(s.streams[k].turn, s.streams[k].sent, Dropped)
  {
    ReachableInv(s);
    assert StreamOk(s, k);
    DropSinks(s, k);
    var r := Apply(s, DoDropStream(k));
    forall id | id in r.turns ensures ToStream(k) !in r.turns[id].sinks { assert SinkOk(s, id, k); }
    RunStill(r, run, k);
    hide Inv, Exec, Legal;
  }

  /** Likewise a stream that the server has ended. */
  lemma EndedForGood(s: State, k: nat, run: seq<Action>)
    requires Legal(s, run) && k in s.streams && s.streams[k].phase == Ended
    ensures k in Exec(s, run).streams && Exec(s, run).streams[k] == s.streams[k]
  {
    RunStill(s, run, k);
  }

  /** A stream on a turn that is not in memory replays its ledger and ends there; it has a `settled` line,
      and one that the ledger lacks is a failure at the end. */
  lemma Replayed(s: State, k: nat, id: Id)
    requires Enabled(s, DoOpenStream(k, id)) && id !in s.turns
    ensures var r := Apply(s, DoOpenStream(k, id)); var log := s.ledger[id];
      && k in r.streams && r.streams[k].turn == id && r.streams[k].phase == Ended
      && (exists i :: 0 <= i < |r.streams[k].sent| && r.streams[k].sent[i].Settled?)
      && (if exists i :: 0 <= i < |log| && log[i].Settled? then r.streams[k].sent == log else r.streams[k].sent == log + [Settled(id, false)])
      && r == s.(streams := r.streams) && r.streams - {k} == s.streams
  {
    var r, log := Apply(s, DoOpenStream(k, id)), s.ledger[id];
    assert r.streams - {k} == s.streams;
    assert (log + [Settled(id, false)])[|log|].Settled?;
  }

  // ---------------------------------------------------------------- observers

  /** An open observer stands under its own id. */
  ghost predicate Named(s: State, o: nat) {
    o in s.observers && s.observers[o].open ==> Holds(s.named, (s.observers[o].pkg, s.observers[o].name), o)
  }

  predicate Holds(named: map<(string, string), nat>, key: (string, string), o: nat) {
    key in named && named[key] == o
  }

  ghost predicate AllNamed(s: State) {
    forall o {:trigger Named(s, o)} :: Named(s, o)
  }

  lemma SameNamed(s: State, r: State)
    requires AllNamed(s) && SameNames(s, r)
    ensures AllNamed(r)
  {
    forall o ensures Named(r, o) { assert Named(s, o); }
  }

  lemma SubscribeNames(s: State, o: nat, slot: string)
    requires o in s.observers
    ensures SameNames(s, Subscribe(s, o, slot)) && SameNames(s, Unsubscribe(s, o, slot))
  {
    DetachNames(s, o, slot);
    ObserveNames(s, o, slot);
    ObserveNames(Detach(s, o, {slot}), o, slot);
    hide Detach, Observe;
  }

  lemma DetachNames(s: State, o: nat, slot: string)
    requires o in s.observers
    ensures SameNames(s, Detach(s, o, {slot}))
  {
  }

  lemma ObserveNames(s: State, o: nat, slot: string)
    requires o in s.observers
    ensures SameNames(s, Observe(s, o, slot))
  {
    hide Replay;
  }

  lemma CloseNames(s: State, o: nat)
    requires o in s.observers
    ensures var r := CloseObserver(s, o);
      && r.observers.Keys == s.observers.Keys && !r.observers[o].open
      && (forall p :: p in s.observers && p != o ==> SameName(s.observers[p], r.observers[p]))
      && r.named == (if s.observers[o].open then Shut(s, o).named else s.named)
  {
  }

  lemma CloseNamed(s: State, o: nat)
    requires AllNamed(s) && o in s.observers
    ensures AllNamed(CloseObserver(s, o))
  {
    CloseNames(s, o);
    hide CloseObserver;
    forall p ensures Named(CloseObserver(s, o), p) { assert Named(s, p) && Named(s, o); }
  }

  lemma OpenNamed(s: State, o: nat, pkg: string, name: string)
    requires AllNamed(s) && OInv(s) && o !in s.observers
    ensures AllNamed(OpenObserver(s, o, pkg, name))
  {
    var key := (pkg, name);
    assert NamedOk(s, key);
    if key in s.named {
      CloseNames(s, s.named[key]);
      CloseNamed(s, s.named[key]);
      WelcomeNamed(CloseObserver(s, s.named[key]), o, pkg, name);
    } else {
      WelcomeNamed(s, o, pkg, name);
    }
  }

  lemma WelcomeNamed(s: State, o: nat, pkg: string, name: string)
    requires AllNamed(s) && o !in s.observers
    requires (pkg, name) in s.named ==> s.named[(pkg, name)] in s.observers && !s.observers[s.named[(pkg, name)]].open
    ensures AllNamed(Welcome(s, o, pkg, name))
  {
    forall p ensures Named(Welcome(s, o, pkg, name), p) { assert Named(s, p); }
  }

  lemma StepNamed(s: State, a: Action)
    requires AllNamed(s) && Inv(s) && Enabled(s, a)
    ensures AllNamed(Apply(s, a))
  {
    if a.DoOpenObserver? {
      OpenNamed(s, a.o, a.pkg, a.name);
    } else if a.DoCloseObserver? {
      CloseNamed(s, a.o);
    } else {
      RestNames(s, a);
      SameNamed(s, Apply(s, a));
    }
    hide AllNamed, SameNames, OpenObserver, CloseObserver, Inv;
  }

  lemma RestNames(s: State, a: Action)
    requires Enabled(s, a) && !a.DoOpenObserver? && !a.DoCloseObserver?
    ensures SameNames(s, Apply(s, a))
  {
    StepStill(s, a, 0);
    if a.DoSubscribe? || a.DoUnsubscribe? {
      SubscribeNames(s, a.o, a.slot);
    }
    hide SameNames, Still, Subscribe, Unsubscribe;
  }

  lemma {:induction false} RunNamed(s: State, run: seq<Action>)
    requires AllNamed(s) && Inv(s) && Legal(s, run)
    ensures AllNamed(Exec(s, run))
    decreases |run|
  {
    if run != [] {
      StepInv(s, run[0]);
      StepNamed(s, run[0]);
      RunNamed(Apply(s, run[0]), run[1..]);
    }
  }

  /** However many come and go, at most one observer is open under an id. */
  lemma OneObserver(s: State, o: nat, p: nat)
    requires Reachable(s) && o in s.observers && p in s.observers && s.observers[o].open && s.observers[p].open
    requires s.observers[o].pkg == s.observers[p].pkg && s.observers[o].name == s.observers[p].name
    ensures o == p
  {
    var disk, run :| Legal(Boot(disk), run) && s == Exec(Boot(disk), run);
    BootInv(disk);
    RunNamed(Boot(disk), run);
    assert Named(s, o) && Named(s, p);
  }

  /** One that arrives under an id in use puts the other out: it is closed, without subscriptions. */
  lemma Replaces(s: State, o: nat, pkg: string, name: string, p: nat)
    requires Reachable(s) && o !in s.observers
    requires p in s.observers && s.observers[p].open && s.observers[p].pkg == pkg && s.observers[p].name == name
    ensures var r := Apply(s, DoOpenObserver(o, pkg, name));
      && o in r.observers && r.observers[o] == Observer(pkg, name, [Ready], true, {}, {})
      && p in r.observers && !r.observers[p].open && r.observers[p].sessions == {}
      && (forall x :: x in s.observers && x != p ==> x in r.observers && r.observers[x] == s.observers[x])
  {
    var disk, run :| Legal(Boot(disk), run) && s == Exec(Boot(disk), run);
    ReachableInv(s);
    BootInv(disk);
    RunNamed(Boot(disk), run);
    assert Named(s, p);
    hide *;
    ReplacedIs(s, o, pkg, name, p);
  }

  lemma ReplacedIs(s: State, o: nat, pkg: string, name: string, p: nat)
    requires o !in s.observers && p in s.observers && s.observers[p].open && Holds(s.named, (pkg, name), p)
    ensures Enabled(s, DoOpenObserver(o, pkg, name))
    ensures var r := Apply(s, DoOpenObserver(o, pkg, name));
      && o in r.observers && r.observers[o] == Observer(pkg, name, [Ready], true, {}, {})
      && p in r.observers && !r.observers[p].open && r.observers[p].sessions == {}
      && (forall x :: x in s.observers && x != p ==> x in r.observers && r.observers[x] == s.observers[x])
  {
    ClosedAlone(s, p);
    assert OpenObserver(s, o, pkg, name) == Welcome(CloseObserver(s, p), o, pkg, name);
    hide CloseObserver;
  }

  lemma ClosedAlone(s: State, p: nat)
    requires p in s.observers && s.observers[p].open
    ensures var r := CloseObserver(s, p);
      && p in r.observers && !r.observers[p].open && r.observers[p].sessions == {}
      && (forall x :: x in s.observers && x != p ==> x in r.observers && r.observers[x] == s.observers[x])
  {
  }

  /** The session's queue was sent, then each ledger of it in its order; the observer has this session
      besides those it had, and no other observer got anything. */
  ghost predicate Joined(s: State, r: State, o: nat, slot: string)
    requires o in s.observers
  {
    var ob := s.observers[o];
    var q := Queue(s, Session(ob.pkg, slot));
    && o in r.observers && r.observers[o].open && r.observers[o].sessions == ob.sessions + {slot}
    && |ob.sent| < |r.observers[o].sent| && r.observers[o].sent[..|ob.sent| + 1] == ob.sent + [Subscribed(slot, q)]
    && (forall x {:trigger Lines(r.observers[o].sent, slot, x)} ::
          Lines(r.observers[o].sent, slot, x) == if x in q then Log(s.ledger, x) else [])
    && (forall p :: p in s.observers && p != o ==> p in r.observers && r.observers[p] == s.observers[p])
  }

  /** Whether it is the first subscription to the session or another. */
  lemma Subscribes(s: State, o: nat, slot: string)
    requires Reachable(s) && o in s.observers && s.observers[o].open
    ensures Joined(s, Apply(s, DoSubscribe(o, slot)), o, slot)
  {
    hide *;
    ReachableInv(s);
    QueueDistinct(s, Session(s.observers[o].pkg, slot));
    SubscribedIs(s, o, slot);
    SubscribesIs(s, o, slot);
  }

  lemma QueueDistinct(s: State, at: Session)
    requires Inv(s)
    ensures Distinct(Queue(s, at))
  {
    assert SessionOk(s, at);
  }

  lemma SubscribesIs(s: State, o: nat, slot: string)
    requires o in s.observers
    ensures Enabled(s, DoSubscribe(o, slot)) && Apply(s, DoSubscribe(o, slot)) == Subscribe(s, o, slot)
  {
  }

  lemma SubscribedIs(s: State, o: nat, slot: string)
    requires o in s.observers && s.observers[o].open && Distinct(Queue(s, Session(s.observers[o].pkg, slot)))
    ensures Joined(s, Subscribe(s, o, slot), o, slot)
  {
    hide Lines, Seen, Replay;
    var ob := s.observers[o];
    var q := Queue(s, Session(ob.pkg, slot));
    ReplayedIs(s, o, slot);
    hide Subscribe, Distinct;
    forall x ensures Lines(ob.sent + ([Subscribed(slot, q)] + Replay(s.ledger, slot, q)), slot, x) == if x in q then Log(s.ledger, x) else [] {
      SubscribedSent(ob.sent, s.ledger, slot, q, slot, x);
    }
  }

  lemma ReplayedIs(s: State, o: nat, slot: string)
    requires o in s.observers && s.observers[o].open
    ensures var ob := s.observers[o]; var r := Subscribe(s, o, slot); var q := Queue(s, Session(ob.pkg, slot));
      && o in r.observers && r.observers[o].open && r.observers[o].sessions == ob.sessions + {slot}
      && r.observers[o].sent == ob.sent + ([Subscribed(slot, q)] + Replay(s.ledger, slot, q))
      && (forall p :: p in s.observers && p != o ==> p in r.observers && r.observers[p] == s.observers[p])
  {
    hide Replay;
    if slot in s.observers[o].sessions {
      DetachedIs(s, o, slot);
      ObservedIs(Detach(s, o, {slot}), o, slot);
      hide Detach, Observe;
    } else {
      ObservedIs(s, o, slot);
      hide Observe;
    }
  }

  lemma DetachedIs(s: State, o: nat, slot: string)
    requires o in s.observers
    ensures var ob := s.observers[o]; var r := Detach(s, o, {slot});
      && o in r.observers && r.observers[o].open == ob.open && r.observers[o].pkg == ob.pkg
      && r.observers[o].sent == ob.sent && r.observers[o].sessions == ob.sessions - {slot}
      && r.ledger == s.ledger && r.queues == s.queues
      && (forall p :: p in s.observers && p != o ==> p in r.observers && r.observers[p] == s.observers[p])
  {
  }

  lemma ObservedIs(s: State, o: nat, slot: string)
    requires o in s.observers && s.observers[o].open
    ensures var ob := s.observers[o]; var r := Observe(s, o, slot); var q := Queue(s, Session(ob.pkg, slot));
      && o in r.observers && r.observers[o].open && r.observers[o].sessions == ob.sessions + {slot}
      && r.observers[o].sent == ob.sent + ([Subscribed(slot, q)] + Replay(s.ledger, slot, q))
      && (forall p :: p in s.observers && p != o ==> p in r.observers && r.observers[p] == s.observers[p])
  {
    hide Replay;
  }

  /** Dropping a subscription ends it and no other, and sends nothing. */
  lemma Unsubscribes(s: State, o: nat, slot: string)
    requires Reachable(s) && o in s.observers
    ensures var ob := s.observers[o]; var r := Apply(s, DoUnsubscribe(o, slot));
      && o in r.observers && r.observers[o].sessions == ob.sessions - {slot}
      && r.observers[o].sent == ob.sent && r.observers[o].open == ob.open
      && (forall id :: id in r.turns && r.turns[id].at == Session(ob.pkg, slot) ==> ToObserver(o) !in r.turns[id].sinks)
      && (forall p :: p in s.observers && p != o ==> p in r.observers && r.observers[p] == s.observers[p])
  {
    ReachableInv(s);
    var r := Apply(s, DoUnsubscribe(o, slot));
    StepInv(s, DoUnsubscribe(o, slot));
    forall id | id in r.turns && r.turns[id].at == Session(s.observers[o].pkg, slot) ensures ToObserver(o) !in r.turns[id].sinks {
      assert HeldOk(r, o, id);
    }
  }
}
