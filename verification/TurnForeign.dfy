/** Events of a session that was refused adoption: relayed to the turn that stands in its slot. */
module TurnForeign {
  import opened Options
  import opened Turns
  import opened TurnInvariants
  import opened TurnRuns
  import opened TurnOrder

  // ---------------------------------------------------------------- which turns an event crosses

  /** This turn runs at the head of the session's queue. */
  predicate RunsAt(s: State, at: Session, id: Id) {
    Queue(s, at) != [] && Queue(s, at)[0] == id && id in s.turns && s.turns[id].status == Running
  }

  /** An event of the turn that runs in its session crosses nothing. Any other crosses the turn whose file
      it goes to, and the one that runs. */
  lemma EventCrosses(s: State, at: Session, file: Id, e: Envelope, id: Id)
    ensures var r := Apply(s, DoEvent(at, file, e));
      && (id in r.mixed <==> id in s.mixed || (!RunsAt(s, at, file) && (id == file || RunsAt(s, at, id))))
      && (id in r.strayed <==> id in s.strayed || (!RunsAt(s, at, file) && id == file))
      && Log(r.ledger, id) == Log(s.ledger, id) + (if id == file then [Env(e)] else [])
  {
    EventKeeps(s, at, file, e);
    assert Log(s.ledger, id) + [] == Log(s.ledger, id);
    hide SessionEvent;
  }

  /** Every event of the run is one of the turn that runs in its session. */
  ghost predicate OwnOnly(s: State, run: seq<Action>)
    requires Legal(s, run)
    decreases |run|
  {
    run == [] || ((run[0].DoEvent? ==> RunsAt(s, run[0].at, run[0].file)) && OwnOnly(Apply(s, run[0]), run[1..]))
  }

  /** So a run without foreign events crosses no turn. */
  lemma {:induction false} OwnCrossNothing(s: State, run: seq<Action>)
    requires Legal(s, run) && OwnOnly(s, run)
    ensures Exec(s, run).mixed == s.mixed && Exec(s, run).strayed == s.strayed
    decreases |run|
  {
    if run != [] {
      var a := run[0];
      StepMixed(s, a);
      if a.DoEvent? {
        forall id ensures id in Apply(s, a).mixed <==> id in s.mixed { EventCrosses(s, a.at, a.file, a.e, id); }
        forall id ensures id in Apply(s, a).strayed <==> id in s.strayed { EventCrosses(s, a.at, a.file, a.e, id); }
      }
      assert Apply(s, a).mixed == s.mixed && Apply(s, a).strayed == s.strayed;
      OwnCrossNothing(Apply(s, a), run[1..]);
    }
  }

  // ---------------------------------------------------------------- what clients see

  /** A stream that shows the running turn's ledger goes on to show it exactly when the event is that
      turn's own. */
  lemma ForeignEvent(s: State, at: Session, file: Id, e: Envelope, k: nat)
    requires Inv(s) && k in s.streams && s.streams[k].phase == Open && Tapped(s, at) == Some(s.streams[k].turn)
    requires s.streams[k].sent == Log(s.ledger, s.streams[k].turn)
    ensures var r := SessionEvent(s, at, file, e);
      r.streams[k].sent == Log(r.ledger, r.streams[k].turn) <==> file == s.streams[k].turn
  {
    assert StreamOk(s, k);
    var log := Log(s.ledger, s.streams[k].turn);
    assert |log + [Env(e)]| == |log| + 1;
  }

  /** So does an observer of the turn's session. */
  lemma ForeignNote(s: State, at: Session, file: Id, e: Envelope, o: nat)
    requires Inv(s) && o in s.observers && s.observers[o].open && s.observers[o].pkg == at.pkg && at.slot in s.observers[o].sessions
    requires Tapped(s, at).Some?
    requires Lines(s.observers[o].sent, at.slot, Tapped(s, at).value) == Log(s.ledger, Tapped(s, at).value)
    ensures var x := Tapped(s, at).value; var r := SessionEvent(s, at, file, e);
      o in r.observers && (Lines(r.observers[o].sent, at.slot, x) == Log(r.ledger, x) <==> file == x)
  {
    var x := Tapped(s, at).value;
    assert SessionOk(s, at) && HeldOk(s, o, x);
    TaggedSent(s.observers[o].sent, at.slot, x, Env(e), at.slot, x);
    assert |Log(s.ledger, x) + [Env(e)]| == |Log(s.ledger, x)| + 1;
    hide Lines, Inv, SessionOk;
  }

  // ---------------------------------------------------------------- what the turn's record says

  /** An envelope that changes no flag of the turn it is relayed to */
  predicate Harmless(t: Turn, e: Envelope) {
    match e
    case Reply(_) => t.envelope
    case Failure(_) => t.envelope
    case File(p) => p in t.announced
    case Other(_) => true
  }

  /** Flags that said what the ledger holds go on to do so exactly when the event is the turn's own, or
      one that changes no flag. */
  lemma RelayedFlags(s: State, at: Session, file: Id, e: Envelope)
    requires Tapped(s, at).Some? && FlagsOk(s.turns[Tapped(s, at).value], Log(s.ledger, Tapped(s, at).value))
    ensures var x := Tapped(s, at).value; var r := SessionEvent(s, at, file, e);
      x in r.turns && (FlagsOk(r.turns[x], Log(r.ledger, x)) <==> file == x || Harmless(s.turns[x], e))
  {
    var x := Tapped(s, at).value;
    FlagsFollow(s.turns[x], Log(s.ledger, x), Env(e));
    hide HasTerminal, Paths;
  }

  /** A turn ends with a complete ledger exactly when its flag does not claim an envelope that the ledger
      lacks. */
  lemma FinishCompletes(s: State, id: Id, outcome: Outcome)
    requires Inv(s) && id in s.turns && id !in s.strayed
    ensures Complete(Log(Finish(s, id, outcome).ledger, id), id)
      <==> !s.turns[id].envelope || HasTerminal(Log(s.ledger, id))
  {
    var t, log := s.turns[id], s.ledger[id];
    var r := Finish(s, id, outcome);
    FinishInv(s, id, outcome);
    FinishMixed(s, id, outcome);
    assert LedgerOk(r, id);
    var closed := Log(r.ledger, id);
    assert closed == log + Closing(t.announced, t.envelope, id, outcome);
    hide Inv, Finish;
    ClosingTerminal(log, t, id, outcome);
  }

  lemma ClosingTerminal(log: seq<Line>, t: Turn, id: Id, outcome: Outcome)
    ensures var all := log + Closing(t.announced, t.envelope, id, outcome);
      all != [] && (HasTerminal(all[..|all| - 1]) <==> HasTerminal(log) || !t.envelope)
  {
    var all := log + Closing(t.announced, t.envelope, id, outcome);
    match outcome
    case Done(files, reply) =>
      var owed := FileLines(t.announced, files);
      FilesNotTerminal(log, t.announced, files);
      TerminalMore(log + owed, Env(Reply(reply)));
      assert all[..|all| - 1] == if t.envelope then log + owed else log + owed + [Env(Reply(reply))];
    case Failed(message) =>
      TerminalMore(log, Env(Failure(message)));
      assert all[..|all| - 1] == if t.envelope then log else log + [Env(Failure(message))];
  }

  /** A result's file is in the turn's ledger in the end exactly when it was there or was not marked as
      announced. */
  lemma FilesAnnounced(s: State, id: Id, files: seq<string>, reply: string, p: string)
    requires Inv(s) && id in s.turns && p in files
    ensures p in Paths(Log(Finish(s, id, Done(files, reply)).ledger, id))
      <==> p in Paths(Log(s.ledger, id)) || p !in s.turns[id].announced
  {
    var t, log := s.turns[id], s.ledger[id];
    FinishInv(s, id, Done(files, reply));
    var owed := FileLines(t.announced, files);
    FilePaths(log, t.announced, files);
    var more := if t.envelope then [] else [Env(Reply(reply))];
    hide Inv, Finish, Paths, FileLines;
    PathsMore(log + owed, Env(Reply(reply)));
    PathsMore(log + owed + more, Settled(id, true));
    assert log + owed + [] == log + owed;
    assert log + (owed + more + [Settled(id, true)]) == log + owed + more + [Settled(id, true)];
  }

  lemma {:induction false} FilePaths(log: seq<Line>, announced: set<string>, files: seq<string>)
    ensures Paths(log + FileLines(announced, files)) == Paths(log) + (set p | p in files && p !in announced)
    decreases |files|
  {
    if files == [] {
      assert log + [] == log;
    } else {
      var rest := files[1..];
      assert files == [files[0]] + rest;
      if files[0] in announced {
        FilePaths(log, announced, rest);
      } else {
        var line := Env(File(files[0]));
        FilePaths(log + [line], announced + {files[0]}, rest);
        PathsMore(log, line);
        assert log + [line] + FileLines(announced + {files[0]}, rest) == log + ([line] + FileLines(announced + {files[0]}, rest));
      }
    }
  }

  // ---------------------------------------------------------------- it happens

  lemma RunningTurn(at: Session) returns (s: State)
    ensures Reachable(s) && Queue(s, at) == [1] && 1 in s.turns && s.turns[1].status == Running && s.turns[1].at == at
    ensures s.streams == map[] && s.recorded == {1} && 1 in s.ledger && s.ledger[1] == [Started(1)]
    ensures !s.turns[1].envelope && s.turns[1].announced == {}
  {
    hide Reachable;
    var s0 := Boot(map[]);
    var s1 := Enqueue(s0, 1, at);
    ReachableBoot(map[]);
    ReachableStep(s0, DoEnqueue(1, at));
    assert Queue(s1, at) == [1] && s1.thunks[1] == [1];
    ReachableStep(s1, DoStart(1));
    s := Start(s1, 1);
  }

  /** A session that was refused adoption writes while the turn at the head runs, and a stream on that
      turn gets a line its ledger does not have. */
  lemma ForeignEventReachable(at: Session, e: Envelope) returns (s: State)
    ensures Reachable(s) && Tapped(s, at) == Some(1) && Adopt(s, 2, at) == s
    ensures var r := SessionEvent(s, at, 2, e);
      Reachable(r) && 0 in r.streams && r.streams[0].turn == 1 && r.streams[0].phase == Open && r.streams[0].sent != Log(r.ledger, 1)
  {
    s := RunningTurn(at);
    hide Reachable;
    ReachableStep(s, DoOpenStream(0, 1));
    s := OpenStream(s, 0, 1);
    ReachableInv(s);
    ForeignEvent(s, at, 2, e, 0);
    ReachableStep(s, DoEvent(at, 2, e));
  }

  /** Its reply closes the running turn in everybody's eyes: when that turn then fails, its ledger ends with
      neither a reply nor an error. */
  lemma LostAnswer(at: Session, text: string, message: string) returns (r: State)
    ensures Reachable(r) && 1 in r.recorded && 1 !in r.turns
    ensures Log(r.ledger, 1) == [Started(1), Settled(1, false)]
  {
    var s := RunningTurn(at);
    hide Reachable;
    var e := Reply(text);
    ReachableStep(s, DoEvent(at, 2, e));
    var m := SessionEvent(s, at, 2, e);
    assert Log(m.ledger, 1) == [Started(1)] && m.turns[1].envelope && m.turns[1].status == Running;
    ReachableStep(m, DoFinish(1, Failed(message)));
    ReachableInv(m);
    FinishInv(m, 1, Failed(message));
    r := Finish(m, 1, Failed(message));
    FinishMixed(m, 1, Failed(message));
    assert [Started(1)] + ([] + [Settled(1, false)]) == [Started(1), Settled(1, false)];
  }
}
