/** What a client sees of a turn: replay followed by live lines, on one turn's stream and on an
    observer's stream of many. */
module TurnViews {
  import opened Options
  import opened Turns
  import opened TurnInvariants
  import opened TurnRuns
  import opened TurnOrder

  // ---------------------------------------------------------------- streams

  /** Whenever a stream is opened and whatever happens afterwards, unless an event crosses its turn: what
      it was sent is the turn's ledger so far while it stays open, the complete ledger once the server
      ended it, and a prefix of it if the client left early. */
  lemma StreamSeesTheTurn(s: State, k: nat)
    requires Reachable(s) && k in s.streams && s.streams[k].turn in s.recorded && s.streams[k].turn !in s.mixed
    ensures var st := s.streams[k]; var log := Log(s.ledger, st.turn);
      match st.phase
      case Open => st.turn in s.turns && st.sent == log
      case Ended => st.turn !in s.turns && st.sent == log && Complete(log, st.turn)
      case Dropped => st.sent <= log
  {
    ReachableInv(s);
    assert StreamOk(s, k) && LedgerOk(s, s.streams[k].turn);
  }

  /** Once ended, a stream equals the ledger for good, and so equals any other stream that is ever
      ended on the same turn, opened before or after it settled. */
  lemma EndedStreamsAgree(s: State, later: seq<Action>, j: nat, k: nat)
    requires Reachable(s) && Legal(s, later)
    requires j in s.streams && s.streams[j].phase == Ended && s.streams[j].turn in s.recorded
    requires var r := Exec(s, later); k in r.streams && r.streams[k].phase == Ended && r.streams[k].turn == s.streams[j].turn
    requires s.streams[j].turn !in Exec(s, later).mixed
    ensures Exec(s, later).streams[k].sent == s.streams[j].sent
  {
    ReachableInv(s);
    RunInv(s, later);
    MixedExactly(s, later);
    assert StreamOk(s, j) && StreamOk(Exec(s, later), k);
    RunLogs(s, later, s.streams[j].turn);
  }

  // ---------------------------------------------------------------- observers

  /** For every subscribed session, an open observer has the whole ledger so far of each turn that
      stood when it subscribed or was announced since, unless an event crosses that turn; and every
      standing turn is among them. */
  lemma ObserverSeesItsSessions(s: State, o: nat, slot: string, id: Id)
    requires Reachable(s) && o in s.observers && s.observers[o].open && slot in s.observers[o].sessions
    ensures var ob := s.observers[o];
      && (id in Seen(ob.sent, slot) && id !in s.mixed ==> Lines(ob.sent, slot, id) == Log(s.ledger, id))
      && (id !in Seen(ob.sent, slot) ==> Lines(ob.sent, slot, id) == [])
      && (id in Queue(s, Session(ob.pkg, slot)) ==> id in Seen(ob.sent, slot))
  {
    ReachableInv(s);
    assert NoteOk(s, o, slot, id) && SessionOk(s, Session(s.observers[o].pkg, slot));
  }

  /** An observer holds a sink of a turn exactly when the turn holds that sink, which is exactly when
      the turn stands in a session the observer subscribes to. */
  lemma SinksAgree(s: State, o: nat, id: Id)
    requires Reachable(s) && o in s.observers
    ensures var ob := s.observers[o];
      && (id in ob.held <==> id in s.turns && ToObserver(o) in s.turns[id].sinks)
      && (id in ob.held <==> id in s.turns && s.turns[id].at.pkg == ob.pkg && s.turns[id].at.slot in ob.sessions)
  {
    ReachableInv(s);
    assert HeldOk(s, o, id);
  }

  /** A closed observer with nothing left: no subscription, and no turn holds its sink. */
  ghost predicate Quiet(s: State, o: nat) {
    o in s.observers && !s.observers[o].open && s.observers[o].sessions == {}
      && forall id :: id in s.turns ==> ToObserver(o) !in s.turns[id].sinks
  }

  lemma CloseIsQuiet(s: State, o: nat)
    requires Inv(s) && o in s.observers && s.observers[o].open
    ensures Quiet(CloseObserver(s, o), o)
  {
    CloseInv(s, o);
    CloseObservers(s, o);
    forall id ensures id in CloseObserver(s, o).turns ==> ToObserver(o) !in CloseObserver(s, o).turns[id].sinks {
      assert HeldOk(CloseObserver(s, o), o, id);
    }
  }

  lemma QuietIff(s: State, o: nat)
    requires Inv(s) && o in s.observers && !s.observers[o].open
    ensures Quiet(s, o) <==> s.observers[o].sessions == {}
  {
    forall id ensures s.observers[o].sessions == {} ==> id in s.turns ==> ToObserver(o) !in s.turns[id].sinks {
      assert HeldOk(s, o, id);
    }
  }

  /** A closed observer stays quiet through any step but one: the subscription handler looks an
      observer up before it awaits the request body, so it may subscribe one that closed meanwhile. */
  lemma QuietUnlessSubscribed(s: State, a: Action, o: nat)
    requires Inv(s) && Enabled(s, a) && Quiet(s, o)
    ensures Quiet(Apply(s, a), o) <==> !(a.DoSubscribe? && a.o == o)
  {
    StepInv(s, a);
    SessionsKept(s, a, o);
    QuietIff(Apply(s, a), o);
  }

  lemma SessionsKept(s: State, a: Action, o: nat)
    requires Inv(s) && Enabled(s, a) && o in s.observers && !s.observers[o].open && s.observers[o].sessions == {}
    ensures var r := Apply(s, a);
      o in r.observers && !r.observers[o].open && r.observers[o].sessions == (if a.DoSubscribe? && a.o == o then {a.slot} else {})
  {
    if a.DoDelete? {
      DeleteObserver(s, Queue(s, a.at), o);
    } else if a.DoFinish? {
      FinishObserver(s, a.id, a.outcome, o);
    } else if a.DoEnqueue? || a.DoAdopt? || a.DoStart? || a.DoInterrupt? {
      TurnObserver(s, a, o);
    } else {
      EditObserver(s, a, o);
    }
  }

  lemma EditObserver(s: State, a: Action, o: nat)
    requires Inv(s) && Enabled(s, a) && o in s.observers && !s.observers[o].open && s.observers[o].sessions == {}
    requires !a.DoDelete? && !a.DoFinish? && !a.DoEnqueue? && !a.DoAdopt? && !a.DoStart? && !a.DoInterrupt?
    ensures var r := Apply(s, a);
      o in r.observers && !r.observers[o].open && r.observers[o].sessions == (if a.DoSubscribe? && a.o == o then {a.slot} else {})
  {
    if a.DoOpenObserver? {
      assert NamedOk(s, (a.pkg, a.name));
      OpenBeside(s, a.o, a.pkg, a.name, o);
    } else if a.DoSubscribe? {
      SubscribeBeside(s, a.o, a.slot, o);
    } else if a.DoCloseObserver? {
      DetachBeside(s, a.o, s.observers[a.o].sessions, o);
    } else if a.DoUnsubscribe? {
      DetachBeside(s, a.o, {a.slot}, o);
    }
    hide Inv, OpenObserver, Subscribe, Detach;
  }

  /** Closed and without a subscription */
  predicate Idle(s: State, o: nat) {
    o in s.observers && !s.observers[o].open && s.observers[o].sessions == {}
  }

  lemma DetachBeside(s: State, p: nat, slots: set<string>, o: nat)
    requires p in s.observers && Idle(s, o)
    ensures Idle(Detach(s, p, slots), o)
    ensures Idle(Detach(Shut(s, p), p, slots), o)
  {
  }

  lemma OpenBeside(s: State, p: nat, pkg: string, name: string, o: nat)
    requires p !in s.observers && Idle(s, o)
    ensures Idle(OpenObserver(s, p, pkg, name), o)
  {
    var key := (pkg, name);
    if key in s.named && s.named[key] in s.observers {
      DetachBeside(s, s.named[key], s.observers[s.named[key]].sessions, o);
    }
    hide Detach;
  }

  lemma SubscribeBeside(s: State, p: nat, slot: string, o: nat)
    requires p in s.observers && Idle(s, o)
    ensures var r := Subscribe(s, p, slot);
      o in r.observers && !r.observers[o].open && r.observers[o].sessions == if p == o then {slot} else {}
  {
  }

  lemma WriteObserver(s: State, id: Id, line: Line, o: nat)
    requires id in s.turns && o in s.observers
    ensures SameAsBefore(s, Append(s, id, line), o)
  {
  }

  lemma LeaveObserver(s: State, id: Id, o: nat)
    requires id in s.turns && o in s.observers
    ensures SameAsBefore(s, Leave(s, id), o)
  {
  }

  lemma AnnounceObserver(s: State, id: Id, o: nat)
    requires id in s.turns && o in s.observers
    ensures SameAsBefore(s, Announce(s, id), o)
  {
  }

  lemma SettleObserver(s: State, id: Id, ok: bool, o: nat)
    requires id in s.turns && o in s.observers
    ensures SameAsBefore(s, Settle(s, id, ok), o)
  {
    var line := Settled(id, ok);
    WriteObserver(s, id, line, o);
    LeaveObserver(Append(s, id, line), id, o);
  }

  lemma AbortObserver(s: State, id: Id, message: string, o: nat)
    requires id in s.turns && o in s.observers
    ensures SameAsBefore(s, Abort(s, id, message), o)
  {
    var line := Env(Failure(message));
    WriteObserver(s, id, line, o);
    SettleObserver(Append(s, id, line), id, false, o);
  }

  lemma TurnObserver(s: State, a: Action, o: nat)
    requires Enabled(s, a) && o in s.observers && (a.DoEnqueue? || a.DoAdopt? || a.DoStart? || a.DoInterrupt?)
    ensures SameAsBefore(s, Apply(s, a), o)
  {
    if a.DoInterrupt? && Apply(s, a) != s {
      AbortObserver(s, a.id, INTERRUPTED, o);
    } else if a.DoEnqueue? {
      AnnounceObserver(Stand(s, a.id, a.at, Queued), a.id, o);
    } else if a.DoAdopt? && Apply(s, a) != s {
      var m := Chain(Stand(s, a.id, a.at, Running), a.id, a.at);
      AnnounceObserver(m, a.id, o);
      WriteObserver(Announce(m, a.id), a.id, Started(a.id), o);
    }
  }

  lemma FinishObserver(s: State, id: Id, outcome: Outcome, o: nat)
    requires id in s.turns && o in s.observers
    ensures SameAsBefore(s, Finish(s, id, outcome), o)
  {
    var m := if outcome.Done? then AppendFiles(s, id, outcome.files) else s;
    var e := if outcome.Done? then Reply(outcome.reply) else Failure(outcome.message);
    if outcome.Done? {
      FilesObserver(s, id, outcome.files, o);
    }
    WriteObserver(m, id, Env(e), o);
    SettleObserver(Conclude(m, id, e), id, outcome.Done?, o);
  }

  ghost predicate SameAsBefore(s: State, r: State, o: nat)
    requires o in s.observers
  {
    o in r.observers && r.observers[o].open == s.observers[o].open && r.observers[o].sessions == s.observers[o].sessions
  }

  lemma {:induction false} DeleteObserver(s: State, ids: seq<Id>, o: nat)
    requires o in s.observers
    ensures SameAsBefore(s, AbortQueued(s, ids), o)
    decreases |ids|
  {
    if ids != [] {
      if ids[0] in s.turns && s.turns[ids[0]].status == Queued {
        AbortObserver(s, ids[0], DELETED, o);
        DeleteObserver(Abort(s, ids[0], DELETED), ids[1..], o);
      } else {
        DeleteObserver(s, ids[1..], o);
      }
    }
  }

  lemma {:induction false} FilesObserver(s: State, id: Id, files: seq<string>, o: nat)
    requires id in s.turns && o in s.observers
    ensures SameAsBefore(s, AppendFiles(s, id, files), o)
    decreases |files|
  {
    if files != [] {
      FilesObserver(if files[0] in s.turns[id].announced then s else Append(s, id, Env(File(files[0]))), id, files[1..], o);
    }
  }

  /** Such a late subscription leaves a dead observer's sink on every turn standing in the session. */
  lemma LateSubscription(s: State, o: nat, slot: string, id: Id)
    requires Inv(s) && Quiet(s, o) && id in s.turns && s.turns[id].at == Session(s.observers[o].pkg, slot)
    ensures var r := Subscribe(s, o, slot); !r.observers[o].open && id in r.turns && ToObserver(o) in r.turns[id].sinks
  {
    StepInv(s, DoSubscribe(o, slot));
    SessionsKept(s, DoSubscribe(o, slot), o);
    SubscribeSinks(s, o, slot);
    assert HeldOk(Subscribe(s, o, slot), o, id);
  }

  lemma LateSubscriptionReachable(pkg: string, name: string, slot: string) returns (s: State)
    ensures Reachable(s) && Quiet(s, 7) && s.observers[7].pkg == pkg
    ensures 1 in s.turns && s.turns[1].at == Session(pkg, slot)
  {
    s := Boot(map[]);
    ReachableBoot(map[]);
    ReachableStep(s, DoEnqueue(1, Session(pkg, slot)));
    s := Enqueue(s, 1, Session(pkg, slot));
    ReachableStep(s, DoOpenObserver(7, pkg, name));
    s := OpenObserver(s, 7, pkg, name);
    ReachableInv(s);
    CloseIsQuiet(s, 7);
    CloseSinks(s, 7);
    ReachableStep(s, DoCloseObserver(7));
    s := CloseObserver(s, 7);
  }
}
