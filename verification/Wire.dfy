/** The handlers of runner/runtime/wire.ts over its module-level maps. Each is proved to be one step
    of `Turns`, so that everything proved of runs of steps holds of any run of handlers. The loops
    over sinks, watchers, queues and subscriptions are proved to add up to that step. */
module Wire {
  import opened Sequences
  import opened Options
  import opened Turns
  import opened TurnInvariants
  import opened TurnRuns

  class Wire {
    var turns: map<Id, Turn>
    var ledger: map<Id, seq<Line>>
    var queues: map<Session, seq<Id>>
    var chain: map<Session, Id>
    var thunks: map<Id, seq<Id>>
    var streams: map<nat, Stream>
    var observers: map<nat, Observer>
    var named: map<(string, string), nat>
    var watching: map<Session, set<nat>>
    ghost var recorded: set<Id>
    ghost var mixed: set<Id>
    ghost var strayed: set<Id>

    ghost function View(): State
      reads this
    {
      State(turns, ledger, queues, chain, thunks, streams, observers, named, watching, recorded, mixed, strayed)
    }

    ghost predicate Valid()
      reads this
    {
      Inv(View())
    }

    constructor (disk: map<Id, seq<Line>>)
      ensures View() == Boot(disk)
      ensures Valid()
    {
      turns, ledger, queues, chain, thunks := map[], disk, map[], map[], map[];
      streams, observers, named, watching, recorded := map[], map[], map[], map[], {};
      mixed, strayed := {}, {};
      new;
      BootInv(disk);
    }

    // -------------------------------------------------------------- writing

    /** relayTurnEvent */
    method RelayTurnEvent(id: Id, line: Line)
      requires id in turns
      modifies this`turns, this`streams, this`observers
      ensures View() == old(Relay(View(), id, line))
    {
      var t := turns[id];
      turns := turns[id := t.Mark(line)];
      var left := t.sinks;
      while left != {}
        invariant left <= t.sinks
        invariant turns == old(turns)[id := t.Mark(line)]
        invariant streams == SendAll(old(streams), t.sinks - left, line)
        invariant observers == TellAll(old(observers), t.sinks - left, Tagged(t.at.slot, id, line))
        decreases |left|
      {
        var sink :| sink in left;
        left := left - {sink};
        match sink
        case ToStream(k) =>
          if k in streams {
            streams := streams[k := streams[k].Send(line)];
          }
        case ToObserver(o) =>
          if o in observers {
            observers := observers[o := observers[o].Send([Tagged(t.at.slot, id, line)])];
          }
      }
      assert t.sinks - left == t.sinks;
    }

    /** appendTurnEvent */
    method AppendTurnEvent(id: Id, line: Line)
      requires id in turns
      modifies this`turns, this`ledger, this`streams, this`observers
      ensures View() == old(Append(View(), id, line))
    {
      ledger := ledger[id := Log(ledger, id) + [line]];
      RelayTurnEvent(id, line);
    }

    /** Several lines of one turn, replayed to one observer. */
    method ReplayLines(o: nat, slot: string, id: Id, lines: seq<Line>)
      requires o in observers
      modifies this`observers
      ensures observers == old(observers)[o := old(observers[o]).Send(Tags(slot, id, lines))]
    {
      var i := 0;
      ghost var sent := observers[o].sent;
      assert sent + Tags(slot, id, lines[..0]) == sent;
      while i < |lines|
        invariant i <= |lines|
        invariant observers == old(observers)[o := old(observers[o]).Send(Tags(slot, id, lines[..i]))]
      {
        observers := observers[o := observers[o].Send([Tagged(slot, id, lines[i])])];
        assert sent + Tags(slot, id, lines[..i]) + [Tagged(slot, id, lines[i])] == sent + Tags(slot, id, lines[..i + 1]);
        i := i + 1;
      }
      assert lines[..i] == lines;
    }

    /** Notes for one observer, a turn's ledger, then observerSink */
    method AttachTurn(o: nat, slot: string, id: Id, notes: seq<Note>)
      requires o in observers && id in turns
      modifies this`observers, this`turns
      ensures View() == old(Attach(View(), o, slot, id, notes))
    {
      ghost var ob := observers[o];
      observers := observers[o := observers[o].Send(notes)];
      ReplayLines(o, slot, id, Log(ledger, id));
      assert ob.sent + notes + Tags(slot, id, Log(ledger, id)) == ob.sent + (notes + Tags(slot, id, Log(ledger, id)));
      if id !in observers[o].held {
        observers := observers[o := observers[o].(held := observers[o].held + {id})];
        turns := turns[id := turns[id].(sinks := turns[id].sinks + {ToObserver(o)})];
      } else {
        assert ob.held + {id} == ob.held;
      }
    }

    // -------------------------------------------------------------- opening turns

    /** announceTurn */
    method AnnounceTurn(id: Id)
      requires id in turns
      modifies this`turns, this`observers
      ensures View() == old(Announce(View(), id))
      ensures id in turns
    {
      ghost var s := View();
      var t := turns[id];
      var watchers := if t.at in watching then watching[t.at] else {};
      var left := watchers;
      AnnounceNone(s, id);
      assert watchers - left == {};
      while left != {}
        invariant left <= watchers
        invariant View() == AnnounceTo(s, id, watchers - left)
        decreases |left|
      {
        var o :| o in left;
        assert watchers - (left - {o}) == watchers - left + {o};
        AnnounceMore(s, id, watchers - left, o);
        if o in observers {
          AttachTurn(o, t.at.slot, id, [Announced(t.at.slot, id)]);
        }
        left := left - {o};
      }
      assert watchers - left == watchers;
    }

    /** A new record joins its session's queue. */
    method StandUp(id: Id, at: Session, status: Status)
      requires id !in ledger
      modifies this`turns, this`ledger, this`queues, this`recorded
      ensures View() == old(Stand(View(), id, at, status))
    {
      turns := turns[id := Turn(at, status, false, {}, {})];
      ledger := ledger[id := []];
      queues := queues[at := (if at in queues then queues[at] else []) + [id]];
      recorded := recorded + {id};
    }

    /** One more `then` on the session's promise chain. */
    method Link(id: Id, at: Session)
      modifies this`chain, this`thunks
      ensures View() == old(Chain(View(), id, at))
    {
      if at in chain {
        var c := chain[at];
        thunks := thunks[c := (if c in thunks then thunks[c] else []) + [id]];
        chain := chain[at := c];
      } else {
        chain := chain[at := id];
        thunks := thunks[id := [id]];
        assert [] + [id] == [id];
      }
    }

    /** enqueueTurn */
    method EnqueueTurn(id: Id, at: Session)
      requires Valid() && id !in ledger
      modifies this
      ensures View() == old(Enqueue(View(), id, at))
      ensures Valid()
    {
      ghost var s := View();
      StandUp(id, at, Queued);
      AnnounceTurn(id);
      Link(id, at);
      EnqueueInv(s, id, at);
    }

    /** adoptSessionTurn */
    method AdoptSessionTurn(id: Id, at: Session)
      requires Valid() && (id in turns || id !in ledger)
      modifies this
      ensures View() == old(Adopt(View(), id, at))
      ensures Valid()
    {
      hide Inv, Announce, Append, Stand, Chain;
      AdoptInv(View(), id, at);
      if id in turns {
        return;
      }
      if at in queues && queues[at] != [] {
        return;
      }
      BeginAdopted(id, at);
    }

    /** What the two guards of adoptSessionTurn protect. */
    method BeginAdopted(id: Id, at: Session)
      requires id !in ledger
      modifies this
      ensures View() == old(Append(Announce(Chain(Stand(View(), id, at, Running), id, at), id), id, Started(id)))
    {
      StandUp(id, at, Running);
      Link(id, at);
      hide Stand, Chain, Append;
      AnnounceTurn(id);
      hide Announce;
      AppendTurnEvent(id, Started(id));
    }

    // -------------------------------------------------------------- the chain

    /** The front thunk of a promise chain runs: runTurn up to its first await, or nothing at all when
        the turn settled while it waited. */
    method RunThunk(c: Id)
      requires Valid() && c in thunks && thunks[c] != []
      requires thunks[c][0] in turns ==> turns[thunks[c][0]].status == Queued
      modifies this
      ensures View() == old(if thunks[c][0] in turns then Start(View(), c) else Pop(View(), c))
      ensures Valid()
    {
      var id := thunks[c][0];
      if id !in turns {
        PopInv(View(), c);
        thunks := thunks[c := thunks[c][1..]];
        return;
      }
      StartInv(View(), c);
      turns := turns[id := turns[id].(status := Running)];
      AppendTurnEvent(id, Started(id));
    }

    // -------------------------------------------------------------- settling

    /** `q.indexOf(t)` and the splice: the turn out of its session's queue. */
    method Dequeue(id: Id, at: Session)
      requires QInv(View()) && id in turns && turns[id].at == at
      modifies this`queues, this`chain
      ensures queues == old(Leave(View(), id).queues) && chain == old(Leave(View(), id).chain)
    {
      assert TurnOk(View(), id) && SessionOk(View(), at);
      var q := queues[at];
      var i := 0;
      while q[i] != id
        invariant i < |q|
        invariant id !in q[..i]
        decreases |q| - i
      {
        i := i + 1;
        assert id in q[i..];
      }
      FilterWithout(q, i, turns.Keys);
      q := q[..i] + q[i + 1..];
      if q == [] {
        queues := queues - {at};
        chain := chain - {at};
      } else {
        queues := queues[at := q];
      }
    }

    /** settleTurn */
    method SettleTurn(id: Id, ok: bool)
      requires QInv(View()) && id in turns
      modifies this
      ensures View() == old(Settle(View(), id, ok))
    {
      hide QInv;
      AppendQueues(View(), id, Settled(id, ok));
      AppendTurnEvent(id, Settled(id, ok));
      var t := turns[id];
      Dequeue(id, t.at);
      EndSinks(id, t.sinks);
      turns := turns - {id};
    }

    method EndSinks(id: Id, sinks: set<Sink>)
      modifies this`streams, this`observers
      ensures streams == map k | k in old(streams) :: if ToStream(k) in sinks then old(streams)[k].End() else old(streams)[k]
      ensures observers == map o | o in old(observers) ::
        if ToObserver(o) in sinks then old(observers)[o].(held := old(observers)[o].held - {id}) else old(observers)[o]
    {
      var left := sinks;
      while left != {}
        invariant left <= sinks
        invariant streams == map k | k in old(streams) :: if ToStream(k) in sinks - left then old(streams)[k].End() else old(streams)[k]
        invariant observers == map o | o in old(observers) ::
          if ToObserver(o) in sinks - left then old(observers)[o].(held := old(observers)[o].held - {id}) else old(observers)[o]
        decreases |left|
      {
        var sink :| sink in left;
        left := left - {sink};
        match sink
        case ToStream(k) =>
          if k in streams {
            streams := streams[k := streams[k].End()];
          }
        case ToObserver(o) =>
          if o in observers {
            observers := observers[o := observers[o].(held := observers[o].held - {id})];
          }
      }
    }

    /** Announces the result files that no line has announced. */
    method AppendResultFiles(id: Id, files: seq<string>)
      requires QInv(View()) && id in turns
      modifies this`turns, this`ledger, this`streams, this`observers
      ensures View() == old(AppendFiles(View(), id, files))
      ensures QInv(View()) && id in turns
    {
      ghost var s := View();
      var i := 0;
      while i < |files|
        invariant i <= |files| && id in turns
        invariant QInv(View())
        invariant AppendFiles(View(), id, files[i..]) == AppendFiles(s, id, files)
      {
        assert files[i..][1..] == files[i + 1..];
        if files[i] !in turns[id].announced {
          AppendQueues(View(), id, Env(File(files[i])));
          AppendTurnEvent(id, Env(File(files[i])));
        }
        i := i + 1;
      }
    }

    /** The closing envelope, when none was relayed, and settleTurn */
    method ConcludeTurn(id: Id, e: Envelope, ok: bool)
      requires QInv(View()) && id in turns
      modifies this
      ensures View() == old(Settle(Conclude(View(), id, e), id, ok))
    {
      if !turns[id].envelope {
        AppendQueues(View(), id, Env(e));
        AppendTurnEvent(id, Env(e));
      }
      SettleTurn(id, ok);
    }

    /** The end of runTurn, and releaseSessionTurn: a turn that is gone, or of another session, is left alone. */
    method FinishTurn(id: Id, at: Session, outcome: Outcome)
      requires Valid()
      modifies this
      ensures View() == old(if id in turns && turns[id].at == at then Finish(View(), id, outcome) else View())
      ensures Valid()
    {
      if id !in turns || turns[id].at != at {
        return;
      }
      FinishInv(View(), id, outcome);
      match outcome
      case Done(files, reply) =>
        AppendResultFiles(id, files);
        ConcludeTurn(id, Reply(reply), true);
      case Failed(message) =>
        ConcludeTurn(id, Failure(message), false);
    }

    /** Ends a turn that never ran. */
    method AbortTurn(id: Id, message: string)
      requires Valid() && id in turns && turns[id].status == Queued
      modifies this
      ensures View() == old(Abort(View(), id, message))
      ensures Valid()
    {
      AbortInv(View(), id, message);
      AppendQueues(View(), id, Env(Failure(message)));
      AppendTurnEvent(id, Env(Failure(message)));
      SettleTurn(id, false);
    }

    /** The interrupt handler */
    method InterruptTurn(id: Id)
      requires Valid()
      modifies this
      ensures View() == old(Interrupt(View(), id))
      ensures Valid()
    {
      if id in turns && turns[id].status == Queued {
        AbortTurn(id, INTERRUPTED);
      }
    }

    /** The delete handler */
    method DeleteSession(at: Session)
      requires Valid()
      modifies this
      ensures View() == old(AbortQueued(View(), Queue(View(), at)))
      ensures Valid()
    {
      var copy := if at in queues then queues[at] else [];
      ghost var s := View();
      var i := 0;
      while i < |copy|
        invariant i <= |copy|
        invariant Valid()
        invariant AbortQueued(View(), copy[i..]) == AbortQueued(s, copy)
      {
        assert copy[i..][1..] == copy[i + 1..];
        if copy[i] in turns && turns[copy[i]].status == Queued {
          AbortTurn(copy[i], DELETED);
        }
        i := i + 1;
      }
    }

    // -------------------------------------------------------------- harness events

    /** appendEvent of harness.ts, then tapSessionEvent */
    method HarnessEvent(at: Session, file: Id, e: Envelope)
      requires Valid()
      modifies this
      ensures View() == old(SessionEvent(View(), at, file, e))
      ensures Valid()
    {
      hide Inv, Relay, Written;
      EventInv(View(), at, file, e);
      SameTapped(View(), at, file, e);
      WriteEvent(at, file, e);
      TapSessionEvent(at, e);
    }

    /** appendEvent of harness.ts */
    method WriteEvent(at: Session, file: Id, e: Envelope)
      modifies this`ledger, this`mixed, this`strayed
      ensures View() == old(Written(View(), at, file, e))
    {
      hide Parted, Stray, Tapped;
      mixed, strayed := mixed + Parted(View(), at, file), strayed + Stray(View(), at, file);
      ledger := ledger[file := Log(ledger, file) + [Env(e)]];
    }

    /** tapSessionEvent: to the running turn of the session, if there is one. */
    method TapSessionEvent(at: Session, e: Envelope)
      modifies this`turns, this`streams, this`observers
      ensures View() == old(var t := Tapped(View(), at); if t.Some? then Relay(View(), t.value, Env(e)) else View())
    {
      hide Relay;
      if at in queues && queues[at] != [] {
        var id := queues[at][0];
        if id in turns && turns[id].status == Running {
          RelayTurnEvent(id, Env(e));
        }
      }
    }

    // -------------------------------------------------------------- streams

    /** The replay of one ledger, and whether a settled line went by. */
    method ReplayLedger(log: seq<Line>) returns (sent: seq<Line>, settled: bool)
      ensures sent == log
      ensures settled <==> EndsSettled(log)
    {
      sent, settled := [], false;
      var i := 0;
      while i < |log|
        invariant i <= |log|
        invariant sent == log[..i]
        invariant settled <==> exists j :: 0 <= j < i && log[j].Settled?
      {
        sent := sent + [log[i]];
        settled := settled || log[i].Settled?;
        i := i + 1;
      }
    }

    /** openLiveStream and replaySettledFile */
    method OpenTurnStream(k: nat, id: Id)
      requires Valid() && k !in streams && id in ledger
      modifies this
      ensures View() == old(OpenStream(View(), k, id))
      ensures Valid()
    {
      hide Inv, EndsSettled, Log;
      OpenStreamInv(View(), k, id);
      if id in turns {
        OpenLive(k, id);
      } else {
        ReplaySettled(k, id);
      }
    }

    /** openLiveStream: the ledger so far, then whatever the new sink is sent. */
    method OpenLive(k: nat, id: Id)
      requires id in turns
      modifies this`streams, this`turns
      ensures View() == old(OpenStream(View(), k, id))
    {
      var sent, _ := ReplayLedger(Log(ledger, id));
      streams := streams[k := Stream(id, sent, Open)];
      turns := turns[id := turns[id].(sinks := turns[id].sinks + {ToStream(k)})];
    }

    /** replaySettledFile: a ledger without a settled line is closed by a failure of its own. */
    method ReplaySettled(k: nat, id: Id)
      requires id !in turns
      modifies this`streams
      ensures View() == old(OpenStream(View(), k, id))
    {
      hide EndsSettled;
      var sent, settled := ReplayLedger(Log(ledger, id));
      if !settled {
        sent := sent + [Settled(id, false)];
      }
      streams := streams[k := Stream(id, sent, Ended)];
    }

    /** The client of a stream goes away. */
    method DropTurnStream(k: nat)
      requires Valid() && k in streams
      modifies this
      ensures View() == old(DropStream(View(), k))
      ensures Valid()
    {
      DropStreamInv(View(), k);
      var st := streams[k];
      if st.phase == Open {
        streams := streams[k := st.(phase := Dropped)];
        if st.turn in turns {
          turns := turns[st.turn := turns[st.turn].(sinks := turns[st.turn].sinks - {ToStream(k)})];
        }
      }
    }

    // -------------------------------------------------------------- observers

    /** observeSession */
    method ObserveSession(o: nat, slot: string)
      requires QInv(View()) && o in observers
      modifies this`watching, this`observers, this`turns
      ensures View() == old(Observe(View(), o, slot))
    {
      hide ObserveSome, Attach;
      ghost var s := View();
      assert SessionOk(s, Session(observers[o].pkg, slot));
      hide QInv, Replay;
      var at := Session(observers[o].pkg, slot);
      var q := if at in queues then queues[at] else [];
      WatchSession(o, slot, q);
      ObserveNone(s, o, slot);
      var i := 0;
      while i < |q|
        invariant i <= |q|
        invariant View() == ObserveSome(s, o, slot, q[..i])
      {
        ObserveMore(s, o, slot, q, i);
        AttachTurn(o, slot, q[i], []);
        i := i + 1;
      }
      assert q[..i] == q;
    }

    /** The observer joins the session's watch list and is told which turns stand. */
    method WatchSession(o: nat, slot: string, q: seq<Id>)
      requires o in observers
      modifies this`watching, this`observers
      ensures View() == old(var ob := observers[o]; var at := Session(ob.pkg, slot);
        View().(watching := watching[at := Watchers(View(), at) + {o}],
                observers := observers[o := ob.Send([Subscribed(slot, q)]).(sessions := ob.sessions + {slot})]))
    {
      var ob := observers[o];
      var at := Session(ob.pkg, slot);
      watching := watching[at := (if at in watching then watching[at] else {}) + {o}];
      observers := observers[o := ob.Send([Subscribed(slot, q)]).(sessions := ob.sessions + {slot})];
    }

    /** unobserveSession */
    method UnobserveSession(o: nat, slot: string)
      requires o in observers
      modifies this`observers, this`turns, this`watching
      ensures View() == old(Detach(View(), o, {slot}))
    {
      hide Detach, Unhook, UnhookOne;
      ghost var s := View();
      UnhookNone(s, o, slot);
      var ob := observers[o];
      var at := Session(ob.pkg, slot);
      Unwatch(o, at);
      observers := observers[o := ob.(sessions := ob.sessions - {slot})];
      var left := ob.held;
      assert ob.held - left == {};
      while left != {}
        invariant left <= ob.held
        invariant View() == Unhook(s, o, slot, ob.held - left)
        decreases |left|
      {
        var id :| id in left;
        assert ob.held - (left - {id}) == ob.held - left + {id};
        UnhookMore(s, o, slot, ob.held - left, id);
        UnhookTurn(o, slot, id);
        left := left - {id};
      }
      assert ob.held - left == ob.held;
      UnhookAll(s, o, slot);
    }

    /** The observer out of the session's watch list, and an empty list out of the map. */
    method Unwatch(o: nat, at: Session)
      modifies this`watching
      ensures watching == old(if at !in watching then watching
                              else if watching[at] - {o} == {} then watching - {at} else watching[at := watching[at] - {o}])
    {
      if at in watching {
        var rest := watching[at] - {o};
        watching := if rest == {} then watching - {at} else watching[at := rest];
      }
    }

    method UnhookTurn(o: nat, slot: string, id: Id)
      requires o in observers
      modifies this`observers, this`turns
      ensures View() == old(UnhookOne(View(), o, slot, id))
    {
      if id in turns && turns[id].at.slot == slot {
        turns := turns[id := turns[id].(sinks := turns[id].sinks - {ToObserver(o)})];
        observers := observers[o := observers[o].(held := observers[o].held - {id})];
      }
    }

    /** One session added by the subscription handler; `o` was looked up before the body was read. */
    method SubscribeObserver(o: nat, slot: string)
      requires Valid() && o in observers
      modifies this
      ensures View() == old(Subscribe(View(), o, slot))
      ensures Valid()
    {
      SubscribeInv(View(), o, slot);
      if slot in observers[o].sessions {
        DetachInv(View(), o, {slot});
        UnobserveSession(o, slot);
      }
      ObserveSession(o, slot);
    }

    /** One session removed by the subscription handler */
    method UnsubscribeObserver(o: nat, slot: string)
      requires Valid() && o in observers
      modifies this
      ensures View() == old(Unsubscribe(View(), o, slot))
      ensures Valid()
    {
      DetachInv(View(), o, {slot});
      UnobserveSession(o, slot);
    }

    /** closeObserver, behind the guard of the response's `shut` */
    method Close(o: nat)
      requires Valid() && o in observers
      modifies this
      ensures View() == old(CloseObserver(View(), o))
      ensures Valid()
    {
      hide Inv, Detach, Shut;
      CloseInv(View(), o);
      if observers[o].open {
        ShutDown(o);
        UnobserveAll(o);
      }
    }

    /** The response ends, and the id is free for another observer. */
    method ShutDown(o: nat)
      requires o in observers
      modifies this`observers, this`named
      ensures View() == old(Shut(View(), o))
      ensures o in observers && observers[o].sessions == old(observers[o].sessions)
    {
      var ob := observers[o];
      var key := (ob.pkg, ob.name);
      observers := observers[o := ob.(open := false)];
      if key in named && named[key] == o {
        named := named - {key};
      }
    }

    method UnobserveAll(o: nat)
      requires o in observers
      modifies this`observers, this`turns, this`watching
      ensures View() == old(Detach(View(), o, observers[o].sessions))
    {
      ghost var s := View();
      var all := observers[o].sessions;
      var left := all;
      DetachNothing(s, o);
      assert all - left == {};
      while left != {}
        invariant left <= all
        invariant View() == Detach(s, o, all - left)
        decreases |left|
      {
        var slot :| slot in left;
        DetachMore(s, o, all - left, slot);
        assert all - left + {slot} == all - (left - {slot});
        UnobserveSession(o, slot);
        left := left - {slot};
      }
      assert all - left == all;
    }

    /** The observe handler */
    method OpenObserverStream(o: nat, pkg: string, name: string)
      requires Valid() && o !in observers
      modifies this
      ensures View() == old(OpenObserver(View(), o, pkg, name))
      ensures Valid()
    {
      hide Inv, CloseObserver, Welcome;
      OpenObserverInv(View(), o, pkg, name);
      var key := (pkg, name);
      if key in named && named[key] in observers {
        Close(named[key]);
      }
      WelcomeObserver(o, pkg, name);
    }

    /** A new observer stands under its id. */
    method WelcomeObserver(o: nat, pkg: string, name: string)
      modifies this`observers, this`named
      ensures View() == old(Welcome(View(), o, pkg, name))
    {
      observers := observers[o := Observer(pkg, name, [Ready], true, {}, {})];
      named := named[(pkg, name) := o];
    }
  }

  lemma {:induction false} FilterWithout(q: seq<Id>, i: nat, keys: set<Id>)
    requires Distinct(q) && i < |q| && forall x :: x in q ==> x in keys
    ensures Filter(q, keys - {q[i]}) == q[..i] + q[i + 1..]
  {
    var others := keys - {q[i]};
    assert q == q[..i] + ([q[i]] + q[i + 1..]);
    FilterAppend(q[..i], [q[i]] + q[i + 1..], others);
    FilterAppend([q[i]], q[i + 1..], others);
    FilterAll(q[..i], others);
    FilterAll(q[i + 1..], others);
    assert Filter([q[i]], others) == [];
  }

  lemma SameTapped(s: State, at: Session, file: Id, e: Envelope)
    ensures Tapped(Written(s, at, file, e), at) == Tapped(s, at)
  {
  }

  lemma DetachNothing(s: State, o: nat)
    requires o in s.observers
    ensures Detach(s, o, {}) == s
  {
    var r := Detach(s, o, {});
    assert r.watching == s.watching;
    assert r.turns == s.turns;
    assert r.observers[o] == s.observers[o];
    assert r.observers == s.observers;
  }

  lemma DetachMore(s: State, o: nat, slots: set<string>, slot: string)
    requires o in s.observers
    ensures Detach(Detach(s, o, slots), o, {slot}) == Detach(s, o, slots + {slot})
  {
    var m := Detach(s, o, slots);
    var r := Detach(m, o, {slot});
    var d := Detach(s, o, slots + {slot});
    forall at ensures at in r.watching <==> at in d.watching {
      assert Hit(s.observers[o], at, slots + {slot}) <==> Hit(s.observers[o], at, slots) || Hit(m.observers[o], at, {slot});
      assert at in s.watching ==> s.watching[at] - {o} - {o} == s.watching[at] - {o};
    }
    forall at | at in r.watching ensures r.watching[at] == d.watching[at] {
      assert s.watching[at] - {o} - {o} == s.watching[at] - {o};
    }
    assert r.watching == d.watching;
    assert r.turns == d.turns;
    assert r.observers[o] == d.observers[o];
    assert r.observers == d.observers;
  }

  // ---------------------------------------------------------------- one turn of a loop, on values

  /** An observer gets notes and a turn's ledger, and holds a sink of the turn. */
  function Attach(s: State, o: nat, slot: string, id: Id, notes: seq<Note>): State
    requires o in s.observers && id in s.turns
  {
    var ob := s.observers[o];
    s.(observers := s.observers[o := ob.Send(notes + Tags(slot, id, Log(s.ledger, id))).(held := ob.held + {id})],
       turns := if id in ob.held then s.turns else s.turns[id := s.turns[id].(sinks := s.turns[id].sinks + {ToObserver(o)})])
  }

  lemma AnnounceNone(s: State, id: Id)
    requires id in s.turns
    ensures AnnounceTo(s, id, {}) == s
  {
    var r := AnnounceTo(s, id, {});
    assert r.turns[id].sinks == s.turns[id].sinks;
    assert r.turns == s.turns && r.observers == s.observers;
  }

  lemma AnnounceMore(s: State, id: Id, to: set<nat>, o: nat)
    requires id in s.turns && o !in to
    ensures var m := AnnounceTo(s, id, to);
      AnnounceTo(s, id, to + {o})
        == if o in m.observers then Attach(m, o, s.turns[id].at.slot, id, [Announced(s.turns[id].at.slot, id)]) else m
  {
    var m := AnnounceTo(s, id, to);
    var d := AnnounceTo(s, id, to + {o});
    if o in s.observers {
      var r := Attach(m, o, s.turns[id].at.slot, id, [Announced(s.turns[id].at.slot, id)]);
      assert m.observers[o] == s.observers[o];
      assert d.observers == r.observers;
      assert d.turns[id].sinks == r.turns[id].sinks;
      assert d.turns == r.turns;
    } else {
      assert d.observers == m.observers;
      assert d.turns[id].sinks == m.turns[id].sinks;
      assert d.turns == m.turns;
    }
  }

  lemma ObserveNone(s: State, o: nat, slot: string)
    requires o in s.observers
    ensures var ob := s.observers[o]; var at := Session(ob.pkg, slot);
      ObserveSome(s, o, slot, [])
        == s.(watching := s.watching[at := Watchers(s, at) + {o}],
              observers := s.observers[o := ob.Send([Subscribed(slot, Queue(s, at))]).(sessions := ob.sessions + {slot})])
  {
    var ob := s.observers[o];
    var q := Queue(s, Session(ob.pkg, slot));
    assert [Subscribed(slot, q)] + [] == [Subscribed(slot, q)];
    assert ob.held + Elems([]) == ob.held;
    assert ObserveSome(s, o, slot, []).turns == s.turns;
  }

  lemma ObserveMore(s: State, o: nat, slot: string, q: seq<Id>, i: nat)
    requires o in s.observers && i < |q| && Distinct(q) && q[i] in s.turns
    ensures o in ObserveSome(s, o, slot, q[..i]).observers && q[i] in ObserveSome(s, o, slot, q[..i]).turns
    ensures ObserveSome(s, o, slot, q[..i + 1]) == Attach(ObserveSome(s, o, slot, q[..i]), o, slot, q[i], [])
  {
    var m := ObserveSome(s, o, slot, q[..i]);
    var d := ObserveSome(s, o, slot, q[..i + 1]);
    var r := Attach(m, o, slot, q[i], []);
    assert q[..i + 1] == q[..i] + [q[i]];
    ObserveMoreNotes(s, o, slot, q, i);
    ObserveMoreSinks(s, o, slot, q, i);
    hide Replay, Tags, Distinct, Queue, Elems, Log;
  }

  /** What an observer was sent and holds once part of a queue was replayed to it. */
  function Subscribing(ob: Observer, ledger: map<Id, seq<Line>>, slot: string, queue: seq<Id>, some: seq<Id>): Observer {
    ob.Send([Subscribed(slot, queue)] + Replay(ledger, slot, some)).(sessions := ob.sessions + {slot}, held := ob.held + Elems(some))
  }

  lemma ObserveMoreNotes(s: State, o: nat, slot: string, q: seq<Id>, i: nat)
    requires o in s.observers && i < |q| && q[i] in s.turns
    ensures ObserveSome(s, o, slot, q[..i + 1]).observers == Attach(ObserveSome(s, o, slot, q[..i]), o, slot, q[i], []).observers
  {
    var ob := s.observers[o];
    var queue := Queue(s, Session(ob.pkg, slot));
    SubscribingMore(ob, s.ledger, slot, queue, q, i);
    SubscribingIs(s, o, slot, q[..i]);
    SubscribingIs(s, o, slot, q[..i + 1]);
    hide *;
    AttachIs(ObserveSome(s, o, slot, q[..i]), o, slot, q[i]);
  }

  lemma AttachIs(s: State, o: nat, slot: string, id: Id)
    requires o in s.observers && id in s.turns
    ensures var m := s.observers[o].Send(Tags(slot, id, Log(s.ledger, id)));
      Attach(s, o, slot, id, []).observers == s.observers[o := m.(held := m.held + {id})]
  {
    assert [] + Tags(slot, id, Log(s.ledger, id)) == Tags(slot, id, Log(s.ledger, id));
  }

  lemma SubscribingIs(s: State, o: nat, slot: string, some: seq<Id>)
    requires o in s.observers
    ensures var ob := s.observers[o]; var r := ObserveSome(s, o, slot, some);
      && r.observers == s.observers[o := Subscribing(ob, s.ledger, slot, Queue(s, Session(ob.pkg, slot)), some)]
      && r.ledger == s.ledger && r.turns.Keys == s.turns.Keys
  {
  }

  lemma SubscribingMore(ob: Observer, ledger: map<Id, seq<Line>>, slot: string, queue: seq<Id>, q: seq<Id>, i: nat)
    requires i < |q|
    ensures var m := Subscribing(ob, ledger, slot, queue, q[..i]).Send(Tags(slot, q[i], Log(ledger, q[i])));
      Subscribing(ob, ledger, slot, queue, q[..i + 1]) == m.(held := m.held + {q[i]})
  {
    var first := [Subscribed(slot, queue)];
    ReplayMore(first, ledger, slot, q, i);
    assert q[..i + 1] == q[..i] + [q[i]];
    assert ob.held + Elems(q[..i]) + {q[i]} == ob.held + Elems(q[..i + 1]);
    hide Replay, Tags, Elems, Log;
    SendTwice(ob, first + Replay(ledger, slot, q[..i]), Tags(slot, q[i], Log(ledger, q[i])));
  }

  lemma SendTwice(ob: Observer, a: seq<Note>, b: seq<Note>)
    ensures ob.Send(a).Send(b) == ob.Send(a + b)
  {
    assert ob.sent + a + b == ob.sent + (a + b);
  }

  lemma ObserveMoreSinks(s: State, o: nat, slot: string, q: seq<Id>, i: nat)
    requires o in s.observers && i < |q| && Distinct(q) && q[i] in s.turns
    ensures ObserveSome(s, o, slot, q[..i + 1]).turns == Attach(ObserveSome(s, o, slot, q[..i]), o, slot, q[i], []).turns
  {
    var d := ObserveSome(s, o, slot, q[..i + 1]);
    var r := Attach(ObserveSome(s, o, slot, q[..i]), o, slot, q[i], []);
    assert q[i] !in q[..i];
    hide Replay, Tags, Queue, Log;
    forall id | id in s.turns ensures d.turns[id] == r.turns[id] {
      assert id in q[..i + 1] <==> id in q[..i] || id == q[i];
    }
  }

  lemma ReplayMore(first: seq<Note>, ledger: map<Id, seq<Line>>, slot: string, q: seq<Id>, i: nat)
    requires i < |q|
    ensures first + Replay(ledger, slot, q[..i]) + Tags(slot, q[i], Log(ledger, q[i]))
      == first + Replay(ledger, slot, q[..i + 1])
  {
    assert q[..i + 1][..i] == q[..i];
    assert Replay(ledger, slot, q[..i + 1]) == Replay(ledger, slot, q[..i]) + Tags(slot, q[i], Log(ledger, q[i]));
  }

  /** unobserveSession after some of the held turns were looked at. */
  function Unhook(s: State, o: nat, slot: string, some: set<Id>): State
    requires o in s.observers
  {
    var ob := s.observers[o];
    var at := Session(ob.pkg, slot);
    var gone := set id | id in some && id in s.turns && s.turns[id].at.slot == slot;
    s.(watching := if at !in s.watching then s.watching
                   else if s.watching[at] - {o} == {} then s.watching - {at} else s.watching[at := s.watching[at] - {o}],
       turns := map id | id in s.turns ::
         if id in gone then s.turns[id].(sinks := s.turns[id].sinks - {ToObserver(o)}) else s.turns[id],
       observers := s.observers[o := ob.(sessions := ob.sessions - {slot}, held := ob.held - gone)])
  }

  function UnhookOne(s: State, o: nat, slot: string, id: Id): State
    requires o in s.observers
  {
    if id in s.turns && s.turns[id].at.slot == slot then
      s.(turns := s.turns[id := s.turns[id].(sinks := s.turns[id].sinks - {ToObserver(o)})],
         observers := s.observers[o := s.observers[o].(held := s.observers[o].held - {id})])
    else s
  }

  lemma UnhookNone(s: State, o: nat, slot: string)
    requires o in s.observers
    ensures Unhook(s, o, slot, {})
      == var at := Session(s.observers[o].pkg, slot);
         s.(watching := if at !in s.watching then s.watching
                        else if s.watching[at] - {o} == {} then s.watching - {at} else s.watching[at := s.watching[at] - {o}],
            observers := s.observers[o := s.observers[o].(sessions := s.observers[o].sessions - {slot})])
  {
    var u := Unhook(s, o, slot, {});
    assert u.observers[o].held == s.observers[o].held;
    assert u.turns == s.turns;
  }

  lemma UnhookMore(s: State, o: nat, slot: string, some: set<Id>, id: Id)
    requires o in s.observers && id !in some
    ensures o in Unhook(s, o, slot, some).observers
    ensures Unhook(s, o, slot, some + {id}) == UnhookOne(Unhook(s, o, slot, some), o, slot, id)
  {
    var m := Unhook(s, o, slot, some);
    var d := Unhook(s, o, slot, some + {id});
    var ob := s.observers[o];
    if id in s.turns && s.turns[id].at.slot == slot {
      assert d.observers[o].held == m.observers[o].held - {id};
      assert d.turns == m.turns[id := m.turns[id].(sinks := m.turns[id].sinks - {ToObserver(o)})];
    } else {
      assert d.observers[o].held == m.observers[o].held;
      assert d.turns == m.turns;
    }
  }

  lemma UnhookAll(s: State, o: nat, slot: string)
    requires o in s.observers
    ensures Unhook(s, o, slot, s.observers[o].held) == Detach(s, o, {slot})
  {
    var u := Unhook(s, o, slot, s.observers[o].held);
    var d := Detach(s, o, {slot});
    forall a ensures (a in u.watching <==> a in d.watching) && (a in u.watching ==> u.watching[a] == d.watching[a]) {
      assert Hit(s.observers[o], a, {slot}) <==> a == Session(s.observers[o].pkg, slot);
    }
    assert u.watching == d.watching;
    assert u.observers[o].held == d.observers[o].held;
    assert u.turns == d.turns;
  }
}
