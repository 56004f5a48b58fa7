/** Whole runs of the wire: any interleaving of handlers, thunks, harness events and disconnecting
    clients, from a daemon that has just started with whatever ledgers are on disk. Every step keeps the
    invariant of queues, chains, ledgers, streams and observers. */
module TurnRuns {
  import opened Options
  import opened Turns
  import opened TurnInvariants

  // ---------------------------------------------------------------- ledgers

  predicate Terminal(line: Line) {
    line.Env? && (line.e.Reply? || line.e.Failure?)
  }

  ghost predicate HasTerminal(log: seq<Line>) {
    exists i :: 0 <= i < |log| && Terminal(log[i])
  }

  ghost predicate AllEnv(log: seq<Line>) {
    forall i :: 0 <= i < |log| ==> log[i].Env?
  }

  ghost function Paths(log: seq<Line>): set<string> {
    set i | 0 <= i < |log| && log[i].Env? && log[i].e.File? :: log[i].e.path
  }

  /** Envelopes only, after a first `started` line if the turn ever ran. */
  ghost predicate Body(log: seq<Line>, id: Id) {
    AllEnv(log) || (log != [] && log[0] == Started(id) && AllEnv(log[1..]))
  }

  /** A finished ledger: one `settled` line closes its body. */
  ghost predicate Closed(log: seq<Line>, id: Id) {
    log != [] && log[|log| - 1].Settled? && log[|log| - 1].turn == id && Body(log[..|log| - 1], id)
  }

  /** A finished ledger whose body holds a reply or an error */
  ghost predicate Complete(log: seq<Line>, id: Id) {
    Closed(log, id) && HasTerminal(log[..|log| - 1])
  }

  ghost predicate FlagsOk(t: Turn, log: seq<Line>) {
    (t.envelope <==> HasTerminal(log)) && t.announced == Paths(log)
  }

  /** What the flags still say of a turn to which foreign events were relayed */
  ghost predicate FlagsCover(t: Turn, log: seq<Line>) {
    (HasTerminal(log) ==> t.envelope) && Paths(log) <= t.announced
  }

  /** The record of a turn whose ledger is its own. */
  ghost predicate RecordOk(t: Turn, log: seq<Line>, id: Id, mixed: bool) {
    && FlagsCover(t, log) && (!mixed ==> FlagsOk(t, log))
    && (t.status == Queued ==> log == [] && FlagsOk(t, log))
    && (t.status == Running ==> log != [] && Body(log, id) && log[0] == Started(id))
  }

  ghost predicate LedgerOk(s: State, id: Id) {
    id in s.recorded && id !in s.strayed ==>
      && (id in s.turns ==> RecordOk(s.turns[id], Log(s.ledger, id), id, id in s.mixed))
      && (id !in s.turns ==> Closed(Log(s.ledger, id), id) && (id !in s.mixed ==> Complete(Log(s.ledger, id), id)))
  }

  /** As LedgerOk, for a turn whose handler is in the middle of its step. */
  ghost predicate MidOk(s: State, id: Id) {
    id in s.turns &&
    (id !in s.strayed ==>
      var t, log := s.turns[id], Log(s.ledger, id);
      && Body(log, id) && FlagsCover(t, log) && (id !in s.mixed ==> FlagsOk(t, log))
      && (t.status == Running ==> log != [] && log[0] == Started(id)))
  }

  ghost predicate Views(s: State) {
    s.turns.Keys <= s.recorded <= s.ledger.Keys && s.strayed <= s.mixed && QInv(s) && SInv(s) && OInv(s)
  }

  ghost predicate Inv(s: State) {
    Views(s) && forall id {:trigger LedgerOk(s, id)} :: LedgerOk(s, id)
  }

  ghost predicate MidInv(s: State, id: Id) {
    Views(s) && MidOk(s, id) && forall x {:trigger LedgerOk(s, x)} :: x != id ==> LedgerOk(s, x)
  }

  // ---------------------------------------------------------------- lines and flags

  lemma TerminalMore(log: seq<Line>, line: Line)
    ensures HasTerminal(log + [line]) <==> HasTerminal(log) || Terminal(line)
  {
    var longer := log + [line];
    assert longer[|log|] == line;
    if HasTerminal(longer) {
      var i :| 0 <= i < |longer| && Terminal(longer[i]);
      assert i < |log| ==> longer[i] == log[i];
    }
    if HasTerminal(log) {
      var i :| 0 <= i < |log| && Terminal(log[i]);
      assert Terminal(longer[i]);
    }
  }

  function PathOf(line: Line): set<string> {
    if line.Env? && line.e.File? then {line.e.path} else {}
  }

  lemma PathsMore(log: seq<Line>, line: Line)
    ensures Paths(log + [line]) == Paths(log) + PathOf(line)
  {
    var longer := log + [line];
    assert longer[|log|] == line;
    forall p ensures p in Paths(longer) <==> p in Paths(log) + PathOf(line) {
      if p in Paths(log) {
        var i :| 0 <= i < |log| && log[i].Env? && log[i].e.File? && log[i].e.path == p;
        assert longer[i].e.path == p;
      }
    }
  }

  lemma FlagsFollow(t: Turn, log: seq<Line>, line: Line)
    ensures FlagsOk(t, log) ==> FlagsOk(t.Mark(line), log + [line])
    ensures FlagsCover(t, log) ==> FlagsCover(t.Mark(line), log + [line])
    ensures FlagsCover(t, log) ==> FlagsCover(t.Mark(line), log)
  {
    TerminalMore(log, line);
    PathsMore(log, line);
    hide HasTerminal, Paths;
  }

  lemma BodyGrows(log: seq<Line>, id: Id, e: Envelope)
    requires Body(log, id)
    ensures Body(log + [Env(e)], id)
    ensures log != [] ==> (log + [Env(e)])[0] == log[0]
  {
    if !AllEnv(log) {
      assert (log + [Env(e)])[1..] == log[1..] + [Env(e)];
    }
  }

  // ---------------------------------------------------------------- one turn's step

  lemma AppendViews(s: State, id: Id, line: Line)
    requires Views(s) && id in s.turns
    ensures Views(Append(s, id, line))
    ensures Append(s, id, line).ledger == s.ledger[id := Log(s.ledger, id) + [line]]
  {
    AppendQueues(s, id, line);
    AppendStreams(s, id, line);
    AppendObservers(s, id, line);
  }

  lemma AppendMid(s: State, id: Id, e: Envelope)
    requires MidInv(s, id)
    ensures MidInv(Append(s, id, Env(e)), id)
  {
    var r := Append(s, id, Env(e));
    AppendViews(s, id, Env(e));
    FlagsFollow(s.turns[id], Log(s.ledger, id), Env(e));
    if id !in s.strayed {
      BodyGrows(Log(s.ledger, id), id, e);
    }
    forall x | x != id ensures LedgerOk(r, x) { assert LedgerOk(s, x); }
  }

  lemma IntoMid(s: State, id: Id)
    requires Inv(s) && id in s.turns
    ensures MidInv(s, id)
  {
    assert LedgerOk(s, id);
  }

  lemma SettleInv(s: State, id: Id, ok: bool)
    requires MidInv(s, id) && s.turns[id].envelope
    ensures Inv(Settle(s, id, ok))
    ensures Settle(s, id, ok).ledger == s.ledger[id := Log(s.ledger, id) + [Settled(id, ok)]]
    ensures Settle(s, id, ok).turns.Keys == s.turns.Keys - {id}
  {
    var m := Append(s, id, Settled(id, ok));
    var r := Leave(m, id);
    AppendViews(s, id, Settled(id, ok));
    LeaveQueues(m, id);
    LeaveStreams(m, id);
    LeaveObservers(m, id);
    var log := Log(s.ledger, id);
    assert (log + [Settled(id, ok)])[..|log|] == log;
    forall x ensures LedgerOk(r, x) {
      assert x != id ==> LedgerOk(s, x);
    }
  }

  /** The file lines that a finished turn still owes. */
  function FileLines(announced: set<string>, files: seq<string>): seq<Line>
    decreases |files|
  {
    if files == [] then []
    else if files[0] in announced then FileLines(announced, files[1..])
    else [Env(File(files[0]))] + FileLines(announced + {files[0]}, files[1..])
  }

  lemma {:induction false} AppendFilesLog(s: State, id: Id, files: seq<string>)
    requires id in s.turns
    ensures AppendFiles(s, id, files).turns.Keys == s.turns.Keys
    ensures AppendFiles(s, id, files).turns[id].envelope == s.turns[id].envelope
    ensures Log(AppendFiles(s, id, files).ledger, id) == Log(s.ledger, id) + FileLines(s.turns[id].announced, files)
    ensures AppendFiles(s, id, files).ledger - {id} == s.ledger - {id}
    decreases |files|
  {
    if files == [] {
      assert Log(s.ledger, id) + [] == Log(s.ledger, id);
    } else if files[0] in s.turns[id].announced {
      AppendFilesLog(s, id, files[1..]);
    } else {
      var line := Env(File(files[0]));
      var m := Append(s, id, line);
      AppendFilesLog(m, id, files[1..]);
      assert m.ledger - {id} == s.ledger - {id};
      var rest := FileLines(s.turns[id].announced + {files[0]}, files[1..]);
      assert Log(s.ledger, id) + [line] + rest == Log(s.ledger, id) + ([line] + rest);
    }
  }

  lemma {:induction false} AppendFilesMid(s: State, id: Id, files: seq<string>)
    requires MidInv(s, id)
    ensures MidInv(AppendFiles(s, id, files), id)
    decreases |files|
  {
    if files != [] {
      if files[0] in s.turns[id].announced {
        AppendFilesMid(s, id, files[1..]);
      } else {
        AppendMid(s, id, File(files[0]));
        AppendFilesMid(Append(s, id, Env(File(files[0]))), id, files[1..]);
      }
    }
  }

  lemma ConcludeMid(s: State, id: Id, e: Envelope)
    requires MidInv(s, id) && (e.Reply? || e.Failure?)
    ensures MidInv(Conclude(s, id, e), id) && Conclude(s, id, e).turns[id].envelope
    ensures Conclude(s, id, e).turns.Keys == s.turns.Keys
    ensures Conclude(s, id, e).ledger == s.ledger[id := Log(s.ledger, id) + (if s.turns[id].envelope then [] else [Env(e)])]
  {
    if !s.turns[id].envelope {
      AppendMid(s, id, e);
    } else {
      assert Log(s.ledger, id) + [] == Log(s.ledger, id);
    }
  }

  /** What wire.ts itself adds to the ledger of a turn that ends. */
  function Closing(announced: set<string>, relayed: bool, id: Id, outcome: Outcome): seq<Line> {
    match outcome
    case Done(files, reply) => FileLines(announced, files) + (if relayed then [] else [Env(Reply(reply))]) + [Settled(id, true)]
    case Failed(message) => (if relayed then [] else [Env(Failure(message))]) + [Settled(id, false)]
  }

  lemma FilesNotTerminal(log: seq<Line>, announced: set<string>, files: seq<string>)
    ensures HasTerminal(log + FileLines(announced, files)) <==> HasTerminal(log)
    decreases |files|
  {
    if files == [] {
      assert log + [] == log;
    } else if files[0] in announced {
      FilesNotTerminal(log, announced, files[1..]);
    } else {
      var line := Env(File(files[0]));
      var rest := FileLines(announced + {files[0]}, files[1..]);
      FilesNotTerminal(log + [line], announced + {files[0]}, files[1..]);
      assert log + [line] + rest == log + ([line] + rest);
      if HasTerminal(log) {
        var i :| 0 <= i < |log| && Terminal(log[i]);
        assert Terminal((log + [line])[i]);
      }
    }
  }

  lemma SameButOne(a: map<Id, seq<Line>>, b: map<Id, seq<Line>>, id: Id)
    requires a - {id} == b - {id} && id in a
    ensures a == b[id := a[id]]
  {
    forall x | x in a && x != id ensures x in b && a[x] == b[x] { assert x in a - {id}; }
    forall x | x in b && x != id ensures x in a { assert x in b - {id}; }
  }

  /** A turn ends with the files still owed, a synthesised envelope exactly when none was relayed,
      and one settled line; every other ledger stays as it was. */
  lemma FinishInv(s: State, id: Id, outcome: Outcome)
    requires Inv(s) && id in s.turns
    ensures Inv(Finish(s, id, outcome))
    ensures Finish(s, id, outcome).ledger
      == s.ledger[id := s.ledger[id] + Closing(s.turns[id].announced, s.turns[id].envelope, id, outcome)]
    ensures Finish(s, id, outcome).turns.Keys == s.turns.Keys - {id}
  {
    var log := s.ledger[id];
    IntoMid(s, id);
    match outcome
    case Done(files, reply) =>
      FinishDone(s, id, files, reply);
    case Failed(message) =>
      ConcludeMid(s, id, Failure(message));
      SettleInv(Conclude(s, id, Failure(message)), id, false);
      var more := if s.turns[id].envelope then [] else [Env(Failure(message))];
      assert log + more + [Settled(id, false)] == log + (more + [Settled(id, false)]);
  }

  lemma FinishDone(s: State, id: Id, files: seq<string>, reply: string)
    requires MidInv(s, id)
    ensures var r := Finish(s, id, Done(files, reply)); var log := s.ledger[id];
      && Inv(r) && r.turns.Keys == s.turns.Keys - {id}
      && r.ledger == s.ledger[id := log + Closing(s.turns[id].announced, s.turns[id].envelope, id, Done(files, reply))]
  {
    var m := AppendFiles(s, id, files);
    var n := Conclude(m, id, Reply(reply));
    AppendFilesMid(s, id, files);
    AppendFilesLog(s, id, files);
    ConcludeMid(m, id, Reply(reply));
    SettleInv(n, id, true);
    FinishLedger(s.ledger, m.ledger, n.ledger, s.turns[id], id, files, reply);
  }

  lemma FinishLedger(s: map<Id, seq<Line>>, m: map<Id, seq<Line>>, n: map<Id, seq<Line>>, t: Turn, id: Id, files: seq<string>, reply: string)
    requires id in s && id in m && m - {id} == s - {id}
    requires m[id] == s[id] + FileLines(t.announced, files)
    requires n == m[id := m[id] + (if t.envelope then [] else [Env(Reply(reply))])]
    ensures n[id := n[id] + [Settled(id, true)]]
      == s[id := s[id] + Closing(t.announced, t.envelope, id, Done(files, reply))]
  {
    SameButOne(m, s, id);
    var owed := FileLines(t.announced, files);
    var more := if t.envelope then [] else [Env(Reply(reply))];
    assert s[id] + owed + more + [Settled(id, true)] == s[id] + (owed + more + [Settled(id, true)]);
  }

  /** Only harness events part a turn from its ledger. */
  predicate SameMixed(s: State, r: State) {
    r.mixed == s.mixed && r.strayed == s.strayed && r.recorded == s.recorded
  }

  lemma SettleMixed(s: State, id: Id, ok: bool)
    requires id in s.turns
    ensures SameMixed(s, Settle(s, id, ok))
  {
  }

  lemma ConcludeMixed(s: State, id: Id, e: Envelope)
    requires id in s.turns
    ensures SameMixed(s, Conclude(s, id, e))
  {
  }

  lemma {:induction false} FilesMixed(s: State, id: Id, files: seq<string>)
    requires id in s.turns
    ensures SameMixed(s, AppendFiles(s, id, files))
    decreases |files|
  {
    if files != [] {
      FilesMixed(if files[0] in s.turns[id].announced then s else Append(s, id, Env(File(files[0]))), id, files[1..]);
    }
  }

  lemma FinishMixed(s: State, id: Id, outcome: Outcome)
    requires id in s.turns
    ensures SameMixed(s, Finish(s, id, outcome))
  {
    hide Settle, Conclude, AppendFiles;
    match outcome
    case Done(files, reply) =>
      FilesMixed(s, id, files);
      ConcludeMixed(AppendFiles(s, id, files), id, Reply(reply));
      SettleMixed(Conclude(AppendFiles(s, id, files), id, Reply(reply)), id, true);
    case Failed(message) =>
      ConcludeMixed(s, id, Failure(message));
      SettleMixed(Conclude(s, id, Failure(message)), id, false);
  }

  /** A turn aborted in the queue gets exactly two lines, and they are its whole ledger unless events
      strayed into it. */
  lemma AbortInv(s: State, id: Id, message: string)
    requires Inv(s) && id in s.turns && s.turns[id].status == Queued
    ensures Inv(Abort(s, id, message))
    ensures Abort(s, id, message).ledger == s.ledger[id := s.ledger[id] + [Env(Failure(message)), Settled(id, false)]]
    ensures id !in s.strayed ==> s.ledger[id] == []
    ensures Abort(s, id, message).turns.Keys == s.turns.Keys - {id}
    ensures Abort(s, id, message).strayed == s.strayed
  {
    assert LedgerOk(s, id);
    IntoMid(s, id);
    AppendMid(s, id, Failure(message));
    SettleInv(Append(s, id, Env(Failure(message))), id, false);
    assert s.ledger[id] + [Env(Failure(message))] + [Settled(id, false)] == s.ledger[id] + [Env(Failure(message)), Settled(id, false)];
  }

  // ---------------------------------------------------------------- actions

  datatype Action =
    | DoEnqueue(id: Id, at: Session)
    | DoAdopt(id: Id, at: Session)
    | DoStart(chain: Id)
    | DoPop(chain: Id)
    | DoEvent(at: Session, file: Id, e: Envelope)
    | DoFinish(id: Id, outcome: Outcome)
    | DoInterrupt(id: Id)
    | DoDelete(at: Session)
    | DoOpenStream(k: nat, id: Id)
    | DoDropStream(k: nat)
    | DoOpenObserver(o: nat, pkg: string, name: string)
    | DoSubscribe(o: nat, slot: string)
    | DoUnsubscribe(o: nat, slot: string)
    | DoCloseObserver(o: nat)

  ghost predicate Enabled(s: State, a: Action) {
    match a
    case DoEnqueue(id, _) => id !in s.ledger
    case DoAdopt(id, _) => id in s.turns || id !in s.ledger
    case DoStart(c) => c in s.thunks && s.thunks[c] != [] && s.thunks[c][0] in s.turns && s.turns[s.thunks[c][0]].status == Queued
    case DoPop(c) => c in s.thunks && s.thunks[c] != [] && s.thunks[c][0] !in s.turns
    case DoFinish(id, _) => id in s.turns && s.turns[id].status == Running
    case DoOpenStream(k, id) => k !in s.streams && id in s.ledger
    case DoDropStream(k) => k in s.streams
    case DoOpenObserver(o, _, _) => o !in s.observers
    case DoSubscribe(o, _) => o in s.observers
    case DoUnsubscribe(o, _) => o in s.observers
    case DoCloseObserver(o) => o in s.observers
    case _ => true
  }

  ghost function Apply(s: State, a: Action): State
    requires Enabled(s, a)
  {
    match a
    case DoEnqueue(id, at) => Enqueue(s, id, at)
    case DoAdopt(id, at) => Adopt(s, id, at)
    case DoStart(c) => Start(s, c)
    case DoPop(c) => Pop(s, c)
    case DoEvent(at, file, e) => SessionEvent(s, at, file, e)
    case DoFinish(id, outcome) => Finish(s, id, outcome)
    case DoInterrupt(id) => Interrupt(s, id)
    case DoDelete(at) => AbortQueued(s, Queue(s, at))
    case DoOpenStream(k, id) => OpenStream(s, k, id)
    case DoDropStream(k) => DropStream(s, k)
    case DoOpenObserver(o, pkg, name) => OpenObserver(s, o, pkg, name)
    case DoSubscribe(o, slot) => Subscribe(s, o, slot)
    case DoUnsubscribe(o, slot) => Unsubscribe(s, o, slot)
    case DoCloseObserver(o) => CloseObserver(s, o)
  }

  ghost predicate Legal(s: State, run: seq<Action>)
    decreases |run|
  {
    run == [] || (Enabled(s, run[0]) && Legal(Apply(s, run[0]), run[1..]))
  }

  ghost function Exec(s: State, run: seq<Action>): State
    requires Legal(s, run)
    decreases |run|
  {
    if run == [] then s else Exec(Apply(s, run[0]), run[1..])
  }

  /** A daemon that has just started: nothing but the ledgers of earlier daemons on disk. */
  function Boot(disk: map<Id, seq<Line>>): State {
    State(map[], disk, map[], map[], map[], map[], map[], map[], map[], {}, {}, {})
  }

  lemma BootInv(disk: map<Id, seq<Line>>)
    ensures Inv(Boot(disk))
  {
  }

  // ---------------------------------------------------------------- one step

  ghost predicate SameButSinks(t: Turn, u: Turn) {
    u.at == t.at && u.status == t.status && u.envelope == t.envelope && u.announced == t.announced
  }

  /** Only sinks changed in the turn records, and nothing in queues, chains and recorded ledgers. */
  ghost predicate SinksOnly(s: State, r: State) {
    && r.queues == s.queues && r.chain == s.chain && r.thunks == s.thunks && r.recorded == s.recorded
    && r.turns.Keys == s.turns.Keys && r.mixed == s.mixed && r.strayed == s.strayed
    && (forall id :: id in s.turns ==> SameButSinks(s.turns[id], r.turns[id]))
    && (forall id :: id in s.recorded ==> Log(r.ledger, id) == Log(s.ledger, id))
  }

  lemma SinksFrame(s: State, r: State)
    requires Inv(s) && SinksOnly(s, r)
    ensures QInv(r)
    ensures forall id {:trigger LedgerOk(r, id)} :: LedgerOk(r, id)
  {
    QFrame(s, r);
    forall id ensures LedgerOk(r, id) { assert LedgerOk(s, id); }
  }

  lemma StandViews(s: State, id: Id, at: Session, status: Status)
    requires Inv(s) && id !in s.ledger
    requires status == Running ==> at !in s.queues
    ensures Views(Announce(Chain(Stand(s, id, at, status), id, at), id))
  {
    var m := Announce(Stand(s, id, at, status), id);
    var c := Chain(Stand(s, id, at, status), id, at);
    StandFrame(s, id, at, status);
    hide QInv, SInv, OInv, LedgerOk, Announce, Chain, Stand, SameQueues, SameViews;
    StandQueues(s, id, at, status);
    QFrame(c, Announce(c, id));
    AnnounceStreams(s, id, at, status);
    AnnounceObservers(s, id, at, status);
    ViewFrame(m, Announce(c, id));
  }

  lemma StandFrame(s: State, id: Id, at: Session, status: Status)
    requires s.turns.Keys <= s.recorded <= s.ledger.Keys && s.strayed <= s.mixed
    ensures var m := Announce(Stand(s, id, at, status), id);
      var c := Chain(Stand(s, id, at, status), id, at); var r := Announce(c, id);
      && SameQueues(c, r) && SameViews(m, r) && m.turns.Keys <= m.recorded
      && r.turns.Keys <= r.recorded <= r.ledger.Keys && r.strayed <= r.mixed
  {
  }

  lemma StandInv(s: State, id: Id, at: Session, status: Status)
    requires Inv(s) && id !in s.ledger
    requires status == Running ==> at !in s.queues
    ensures Views(Announce(Chain(Stand(s, id, at, status), id, at), id))
    ensures forall x {:trigger LedgerOk(Announce(Chain(Stand(s, id, at, status), id, at), id), x)} ::
      x != id ==> LedgerOk(Announce(Chain(Stand(s, id, at, status), id, at), id), x)
  {
    StandViews(s, id, at, status);
    forall x | x != id ensures LedgerOk(Announce(Chain(Stand(s, id, at, status), id, at), id), x) {
      assert LedgerOk(s, x);
      StandLedger(s, id, at, status, x);
    }
  }

  lemma StandLedger(s: State, id: Id, at: Session, status: Status, x: Id)
    requires LedgerOk(s, x) && x != id
    ensures LedgerOk(Announce(Chain(Stand(s, id, at, status), id, at), id), x)
  {
  }

  lemma EnqueueInv(s: State, id: Id, at: Session)
    requires Inv(s) && id !in s.ledger
    ensures Inv(Enqueue(s, id, at))
  {
    var r := Announce(Chain(Stand(s, id, at, Queued), id, at), id);
    StandInv(s, id, at, Queued);
    assert Enqueue(s, id, at) == r;
    forall x ensures LedgerOk(r, x) { assert x != id ==> LedgerOk(r, x); }
  }

  lemma AdoptInv(s: State, id: Id, at: Session)
    requires Inv(s) && (id in s.turns || id !in s.ledger)
    ensures Inv(Adopt(s, id, at))
  {
    hide SInv, OInv;
    if id !in s.turns && Active(s, at).None? {
      var n := Announce(Chain(Stand(s, id, at, Running), id, at), id);
      assert SessionOk(s, at);
      StandInv(s, id, at, Running);
      AppendViews(n, id, Started(id));
      AdoptLedgers(n, id);
    }
  }

  lemma AdoptLedgers(n: State, id: Id)
    requires forall x {:trigger LedgerOk(n, x)} :: x != id ==> LedgerOk(n, x)
    requires id in n.turns && Log(n.ledger, id) == [] && n.turns[id].status == Running
    requires !n.turns[id].envelope && n.turns[id].announced == {}
    ensures forall x {:trigger LedgerOk(Append(n, id, Started(id)), x)} :: LedgerOk(Append(n, id, Started(id)), x)
  {
    FlagsFollow(n.turns[id], [], Started(id));
    assert [] + [Started(id)] == [Started(id)];
    assert LedgerOk(Append(n, id, Started(id)), id);
    hide LedgerOk;
    forall x ensures LedgerOk(Append(n, id, Started(id)), x) {
      if x != id {
        OtherLedger(n, id, Started(id), x);
      }
    }
  }

  lemma OtherLedger(s: State, id: Id, line: Line, x: Id)
    requires id in s.turns && x != id && LedgerOk(s, x)
    ensures LedgerOk(Append(s, id, line), x)
  {
  }

  lemma StartInv(s: State, c: Id)
    requires Inv(s) && Enabled(s, DoStart(c))
    ensures Inv(Start(s, c))
    ensures Active(s, s.turns[s.thunks[c][0]].at) == Some(s.thunks[c][0])
  {
    var id := s.thunks[c][0];
    var m := s.(turns := s.turns[id := s.turns[id].(status := Running)]);
    StartQueues(s, c);
    ViewFrame(s, m);
    AppendViews(m, id, Started(id));
    assert LedgerOk(s, id);
    FlagsFollow(s.turns[id], [], Started(id));
    forall x ensures LedgerOk(Start(s, c), x) { assert LedgerOk(s, x); }
  }

  lemma PopInv(s: State, c: Id)
    requires Inv(s) && Enabled(s, DoPop(c))
    ensures Inv(Pop(s, c))
  {
    PopQueues(s, c);
    ViewFrame(s, Pop(s, c));
    forall x ensures LedgerOk(Pop(s, c), x) { assert LedgerOk(s, x); }
  }

  /** Any event of any session: its own turn's, or one that parts the running turn from its ledger. */
  lemma EventInv(s: State, at: Session, file: Id, e: Envelope)
    requires Inv(s)
    ensures Inv(SessionEvent(s, at, file, e))
  {
    if Tapped(s, at) == Some(file) {
      OwnEventInv(s, at, file, e);
    } else {
      StrayEventInv(s, at, file, e);
    }
  }

  lemma OwnEventInv(s: State, at: Session, file: Id, e: Envelope)
    requires Inv(s) && Tapped(s, at) == Some(file)
    ensures Inv(SessionEvent(s, at, file, e))
  {
    var r := SessionEvent(s, at, file, e);
    assert s.mixed + {} == s.mixed && s.strayed + {} == s.strayed;
    assert r == Append(s, file, Env(e));
    IntoMid(s, file);
    AppendMid(s, file, e);
    forall x ensures LedgerOk(r, x) {
      assert LedgerOk(s, file);
      assert x != file ==> LedgerOk(r, x);
    }
  }

  lemma StrayEventInv(s: State, at: Session, file: Id, e: Envelope)
    requires Inv(s) && Tapped(s, at) != Some(file)
    ensures Inv(SessionEvent(s, at, file, e))
  {
    var r := SessionEvent(s, at, file, e);
    var t := Tapped(s, at);
    QFrame(s, r);
    StrayStreams(s, at, file, e);
    StrayObservers(s, at, file, e);
    forall x ensures LedgerOk(r, x) {
      assert LedgerOk(s, x);
      if t == Some(x) {
        FlagsFollow(s.turns[x], Log(s.ledger, x), Env(e));
      }
    }
  }

  lemma {:induction false} DeleteInv(s: State, ids: seq<Id>)
    requires Inv(s)
    ensures Inv(AbortQueued(s, ids))
    decreases |ids|
  {
    if ids != [] {
      if ids[0] in s.turns && s.turns[ids[0]].status == Queued {
        AbortInv(s, ids[0], DELETED);
        DeleteInv(Abort(s, ids[0], DELETED), ids[1..]);
      } else {
        DeleteInv(s, ids[1..]);
      }
    }
  }

  lemma OpenStreamInv(s: State, k: nat, id: Id)
    requires Inv(s) && k !in s.streams && id in s.ledger
    ensures Inv(OpenStream(s, k, id))
  {
    assert LedgerOk(s, id);
    OpenStreamViews(s, k, id);
    OpenSinks(s, k, id);
    SinksFrame(s, OpenStream(s, k, id));
  }

  lemma DropStreamInv(s: State, k: nat)
    requires Inv(s) && k in s.streams
    ensures Inv(DropStream(s, k))
  {
    DropStreamViews(s, k);
    DropSinks(s, k);
    SinksFrame(s, DropStream(s, k));
  }

  lemma OpenSinks(s: State, k: nat, id: Id)
    ensures SinksOnly(s, OpenStream(s, k, id))
  {
    if id in s.turns {
      assert OpenStream(s, k, id).turns.Keys == s.turns.Keys;
    }
  }

  lemma DetachSinks(s: State, o: nat, slots: set<string>)
    requires o in s.observers
    ensures SinksOnly(s, Detach(s, o, slots))
  {
  }

  lemma ObserveSinks(s: State, o: nat, slot: string)
    requires o in s.observers
    ensures SinksOnly(s, Observe(s, o, slot))
  {
  }

  lemma CloseSinks(s: State, o: nat)
    requires o in s.observers
    ensures SinksOnly(s, CloseObserver(s, o)) && CloseObserver(s, o).ledger == s.ledger
  {
    if s.observers[o].open {
      DetachSinks(Shut(s, o), o, s.observers[o].sessions);
    }
  }

  lemma DropSinks(s: State, k: nat)
    requires k in s.streams
    ensures SinksOnly(s, DropStream(s, k))
  {
    hide Log;
    var r, st := DropStream(s, k), s.streams[k];
    if st.phase == Open && st.turn in s.turns {
      OtherSinks(s.turns, st.turn, s.turns[st.turn].sinks - {ToStream(k)});
    }
    assert r == s.(streams := r.streams, turns := r.turns);
    assert r.turns.Keys == s.turns.Keys && forall x :: x in s.turns ==> SameButSinks(s.turns[x], r.turns[x]);
    hide *;
    TurnsOnly(s, r.streams, r.turns);
  }

  lemma TurnsOnly(s: State, streams: map<nat, Stream>, turns: map<Id, Turn>)
    requires turns.Keys == s.turns.Keys && forall x :: x in s.turns ==> SameButSinks(s.turns[x], turns[x])
    ensures SinksOnly(s, s.(streams := streams, turns := turns))
  {
  }

  lemma OtherSinks(turns: map<Id, Turn>, id: Id, sinks: set<Sink>)
    requires id in turns
    ensures var now := turns[id := turns[id].(sinks := sinks)];
      now.Keys == turns.Keys && forall x :: x in turns ==> SameButSinks(turns[x], now[x])
  {
  }

  lemma DetachInv(s: State, o: nat, slots: set<string>)
    requires Inv(s) && o in s.observers
    ensures Inv(Detach(s, o, slots))
  {
    var r := Detach(s, o, slots);
    SinksFrame(s, r);
    SubscriptionStreams(s, r);
    DetachObservers(s, o, slots);
  }

  lemma ObserveInv(s: State, o: nat, slot: string)
    requires Inv(s) && o in s.observers && slot !in s.observers[o].sessions
    ensures Inv(Observe(s, o, slot))
  {
    var r := Observe(s, o, slot);
    SinksFrame(s, r);
    SubscriptionStreams(s, r);
    ObserveObservers(s, o, slot);
  }

  lemma SubscribeInv(s: State, o: nat, slot: string)
    requires Inv(s) && o in s.observers
    ensures Inv(Subscribe(s, o, slot))
  {
    if slot in s.observers[o].sessions {
      DetachInv(s, o, {slot});
      ObserveInv(Detach(s, o, {slot}), o, slot);
    } else {
      ObserveInv(s, o, slot);
    }
  }

  lemma CloseInv(s: State, o: nat)
    requires Inv(s) && o in s.observers
    ensures Inv(CloseObserver(s, o))
  {
    if s.observers[o].open {
      var m := Shut(s, o);
      ShutObservers(s, o);
      SubscriptionStreams(s, m);
      SinksFrame(s, m);
      DetachInv(m, o, s.observers[o].sessions);
    }
  }

  lemma OpenObserverInv(s: State, o: nat, pkg: string, name: string)
    requires Inv(s) && o !in s.observers
    ensures Inv(OpenObserver(s, o, pkg, name))
  {
    var key := (pkg, name);
    if key in s.named && s.named[key] in s.observers {
      CloseInv(s, s.named[key]);
      CloseObservers(s, s.named[key]);
      NewObserverInv(CloseObserver(s, s.named[key]), o, pkg, name);
    } else {
      NewObserverInv(s, o, pkg, name);
    }
  }

  lemma NewObserverInv(s: State, o: nat, pkg: string, name: string)
    requires Inv(s) && o !in s.observers
    ensures Inv(s.(observers := s.observers[o := Observer(pkg, name, [Ready], true, {}, {})], named := s.named[(pkg, name) := o]))
  {
    var r := s.(observers := s.observers[o := Observer(pkg, name, [Ready], true, {}, {})], named := s.named[(pkg, name) := o]);
    SinksFrame(s, r);
    SubscriptionStreams(s, r);
    forall p, x ensures HeldOk(r, p, x) { assert HeldOk(s, p, x); }
    forall p, at ensures WatchOk(r, p, at) { assert WatchOk(s, p, at); }
    forall p, slot, x ensures NoteOk(r, p, slot, x) { assert NoteOk(s, p, slot, x); }
    forall k ensures NamedOk(r, k) { assert NamedOk(s, k); }
  }

  lemma StepInv(s: State, a: Action)
    requires Inv(s) && Enabled(s, a)
    ensures Inv(Apply(s, a))
  {
    match a
    case DoEnqueue(id, at) => EnqueueInv(s, id, at);
    case DoAdopt(id, at) => AdoptInv(s, id, at);
    case DoStart(c) => StartInv(s, c);
    case DoPop(c) => PopInv(s, c);
    case DoEvent(at, file, e) => EventInv(s, at, file, e);
    case DoFinish(id, outcome) => FinishInv(s, id, outcome);
    case DoInterrupt(id) => if id in s.turns && s.turns[id].status == Queued { AbortInv(s, id, INTERRUPTED); }
    case DoDelete(at) => DeleteInv(s, Queue(s, at));
    case DoOpenStream(k, id) => OpenStreamInv(s, k, id);
    case DoDropStream(k) => DropStreamInv(s, k);
    case DoOpenObserver(o, pkg, name) => OpenObserverInv(s, o, pkg, name);
    case DoSubscribe(o, slot) => SubscribeInv(s, o, slot);
    case DoUnsubscribe(o, slot) => DetachInv(s, o, {slot});
    case DoCloseObserver(o) => CloseInv(s, o);
  }

  lemma {:induction false} RunInv(s: State, run: seq<Action>)
    requires Inv(s) && Legal(s, run)
    ensures Inv(Exec(s, run))
    decreases |run|
  {
    if run != [] {
      StepInv(s, run[0]);
      RunInv(Apply(s, run[0]), run[1..]);
    }
  }

  // ---------------------------------------------------------------- reachable states

  ghost predicate Reachable(s: State) {
    exists disk, run :: Legal(Boot(disk), run) && s == Exec(Boot(disk), run)
  }

  lemma ReachableInv(s: State)
    requires Reachable(s)
    ensures Inv(s)
  {
    var disk, run :| Legal(Boot(disk), run) && s == Exec(Boot(disk), run);
    BootInv(disk);
    RunInv(Boot(disk), run);
  }

  lemma ReachableBoot(disk: map<Id, seq<Line>>)
    ensures Reachable(Boot(disk))
  {
    assert Legal(Boot(disk), []) && Boot(disk) == Exec(Boot(disk), []);
  }

  lemma {:induction false} ExecMore(s: State, run: seq<Action>, a: Action)
    requires Legal(s, run) && Enabled(Exec(s, run), a)
    ensures Legal(s, run + [a]) && Exec(s, run + [a]) == Apply(Exec(s, run), a)
    decreases |run|
  {
    if run == [] {
      assert (run + [a])[1..] == [];
      assert Legal(Apply(s, a), []);
    } else {
      assert (run + [a])[1..] == run[1..] + [a];
      ExecMore(Apply(s, run[0]), run[1..], a);
    }
  }

  lemma ReachableStep(s: State, a: Action)
    requires Reachable(s) && Enabled(s, a)
    ensures Reachable(Apply(s, a))
  {
    var disk, run :| Legal(Boot(disk), run) && s == Exec(Boot(disk), run);
    ExecMore(Boot(disk), run, a);
  }
}
