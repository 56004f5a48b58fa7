/** What ends a turn, what that leaves of it, and that nothing else is touched; and that a turn at the head of
    its session can always begin. */
module TurnEnds {
  import opened Sequences
  import opened Options
  import opened Turns
  import opened TurnInvariants
  import opened TurnRuns
  import opened TurnOrder

  // ---------------------------------------------------------------- turns that end in their queue

  /** Some turns are gone. Their ledgers have some lines more; everything else about turns, queues,
      ledgers and chains is as it was. */
  ghost predicate Gone(s: State, r: State, gone: set<Id>) {
    && r.turns == s.turns - gone && gone <= s.turns.Keys
    && (forall at {:trigger Queue(r, at)} :: Queue(r, at) == Filter(Queue(s, at), s.turns.Keys - gone))
    && (forall x :: x !in gone ==> Log(r.ledger, x) == Log(s.ledger, x))
    && r.thunks == s.thunks && r.recorded == s.recorded && r.mixed == s.mixed && r.strayed == s.strayed
  }

  /** They never ran: their ledgers got an error and `settled`. */
  ghost predicate Dismissed(s: State, r: State, gone: set<Id>, message: string) {
    && Gone(s, r, gone)
    && (forall x :: x in gone ==> Log(r.ledger, x) == Log(s.ledger, x) + [Env(Failure(message)), Settled(x, false)])
  }

  lemma AbortDismisses(s: State, id: Id, message: string)
    requires Inv(s) && id in s.turns && s.turns[id].status == Queued
    ensures Dismissed(s, Abort(s, id, message), {id}, message)
  {
    var r := Abort(s, id, message);
    AbortInv(s, id, message);
    AbortRecords(s, id, message);
    forall at ensures Queue(r, at) == Filter(Queue(s, at), s.turns.Keys - {id}) {
      AbortShrinks(s, id, message, at);
    }
  }

  lemma AbortRecords(s: State, id: Id, message: string)
    requires id in s.turns
    ensures var r := Abort(s, id, message);
      r.turns == s.turns - {id} && r.thunks == s.thunks && r.recorded == s.recorded && r.mixed == s.mixed && r.strayed == s.strayed
  {
  }

  lemma NobodyGone(s: State)
    requires Inv(s)
    ensures forall message :: Dismissed(s, s, {}, message)
  {
    assert s.turns - {} == s.turns;
    forall at ensures Queue(s, at) == Filter(Queue(s, at), s.turns.Keys - {}) {
      assert SessionOk(s, at);
      FilterAll(Queue(s, at), s.turns.Keys - {});
    }
  }

  lemma DismissedTwice(s: State, m: State, r: State, a: set<Id>, b: set<Id>, message: string)
    requires Dismissed(s, m, a, message) && Dismissed(m, r, b, message)
    ensures Dismissed(s, r, a + b, message)
  {
    assert s.turns - (a + b) == s.turns - a - b;
    forall at ensures Queue(r, at) == Filter(Queue(s, at), s.turns.Keys - (a + b)) {
      assert Queue(m, at) == Filter(Queue(s, at), s.turns.Keys - a);
      FilterTwice(Queue(s, at), s.turns.Keys - a, m.turns.Keys - b);
      assert (s.turns.Keys - a) * (m.turns.Keys - b) == s.turns.Keys - (a + b);
    }
  }

  /** The queued turns among some ids */
  ghost function QueuedOf(s: State, ids: seq<Id>): set<Id> {
    set x | x in ids && x in s.turns && s.turns[x].status == Queued
  }

  lemma QueuedMore(s: State, m: State, ids: seq<Id>)
    requires ids != [] && ids[0] in s.turns && s.turns[ids[0]].status == Queued && Dismissed(s, m, {ids[0]}, DELETED)
    ensures QueuedOf(s, ids) == {ids[0]} + QueuedOf(m, ids[1..])
  {
    assert ids == [ids[0]] + ids[1..];
  }

  lemma {:induction false} DeleteDismisses(s: State, ids: seq<Id>)
    requires Inv(s)
    ensures Dismissed(s, AbortQueued(s, ids), QueuedOf(s, ids), DELETED)
    decreases |ids|
  {
    if ids == [] {
      NobodyGone(s);
      assert QueuedOf(s, ids) == {};
    } else {
      assert ids == [ids[0]] + ids[1..];
      if ids[0] in s.turns && s.turns[ids[0]].status == Queued {
        var m := Abort(s, ids[0], DELETED);
        AbortInv(s, ids[0], DELETED);
        AbortDismisses(s, ids[0], DELETED);
        DeleteDismisses(m, ids[1..]);
        QueuedMore(s, m, ids);
        hide Dismissed, Abort, Inv, QueuedOf;
        DismissedTwice(s, m, AbortQueued(s, ids), {ids[0]}, QueuedOf(m, ids[1..]), DELETED);
      } else {
        DeleteDismisses(s, ids[1..]);
        assert QueuedOf(s, ids) == QueuedOf(s, ids[1..]);
      }
    }
  }

  /** An interrupted turn that has not begun is gone, with an error and `settled` in its ledger, and no
      other turn, queue or ledger is touched; interrupting any other turn changes nothing here. */
  lemma Interrupted(s: State, id: Id)
    requires Reachable(s)
    ensures var r := Apply(s, DoInterrupt(id));
      if id in s.turns && s.turns[id].status == Queued then
        && Dismissed(s, r, {id}, INTERRUPTED)
        && (forall at :: id !in Queue(r, at))
        && (id !in s.strayed ==> Log(r.ledger, id) == [Env(Failure(INTERRUPTED)), Settled(id, false)])
      else r == s
  {
    ReachableInv(s);
    if id in s.turns && s.turns[id].status == Queued {
      AbortInv(s, id, INTERRUPTED);
      AbortDismisses(s, id, INTERRUPTED);
      GoneFromQueues(s, Apply(s, DoInterrupt(id)), {id});
    }
  }

  lemma GoneFromQueues(s: State, r: State, gone: set<Id>)
    requires Gone(s, r, gone)
    ensures forall at, x :: x in gone ==> x !in Queue(r, at)
  {
    forall at, x | x in gone ensures x !in Queue(r, at) {
      assert Queue(r, at) == Filter(Queue(s, at), s.turns.Keys - gone);
    }
  }

  /** Deleting a session ends its queued turns so, exactly those; its running turn and the turns of other
      sessions stand as before. */
  lemma Deleted(s: State, at: Session)
    requires Reachable(s)
    ensures var r := Apply(s, DoDelete(at));
      var gone := set x | x in s.turns && s.turns[x].at == at && s.turns[x].status == Queued;
      && Dismissed(s, r, gone, DELETED)
      && (forall x :: x in Queue(r, at) ==> x in s.turns && s.turns[x].status == Running)
      && (forall a :: a != at ==> Queue(r, a) == Queue(s, a))
      && (forall x :: x in gone && x !in s.strayed ==> Log(r.ledger, x) == [Env(Failure(DELETED)), Settled(x, false)])
  {
    ReachableInv(s);
    var q := Queue(s, at);
    var r := Apply(s, DoDelete(at));
    var gone := set x | x in s.turns && s.turns[x].at == at && s.turns[x].status == Queued;
    DeleteDismisses(s, q);
    QueuedIs(s, at);
    hide QueuedOf, AbortQueued;
    forall x | x in gone && x !in s.strayed ensures Log(s.ledger, x) == [] { assert LedgerOk(s, x) && TurnOk(s, x); }
    DeletedQueues(s, r, at, gone);
    hide Inv;
  }

  lemma QueuedIs(s: State, at: Session)
    requires QInv(s)
    ensures QueuedOf(s, Queue(s, at)) == set x | x in s.turns && s.turns[x].at == at && s.turns[x].status == Queued
  {
    assert SessionOk(s, at);
    forall x ensures x in s.turns && s.turns[x].at == at ==> x in Queue(s, at) { assert TurnOk(s, x); }
  }

  lemma DeletedQueues(s: State, r: State, at: Session, gone: set<Id>)
    requires QInv(s) && Gone(s, r, gone)
    requires gone == set x | x in s.turns && s.turns[x].at == at && s.turns[x].status == Queued
    ensures forall x :: x in Queue(r, at) ==> x in s.turns && s.turns[x].status == Running
    ensures forall a :: a != at ==> Queue(r, a) == Queue(s, a)
  {
    assert SessionOk(s, at);
    assert Queue(r, at) == Filter(Queue(s, at), s.turns.Keys - gone);
    forall a | a != at ensures Queue(r, a) == Queue(s, a) {
      assert SessionOk(s, a);
      FilterAll(Queue(s, a), s.turns.Keys - gone);
    }
  }

  /** Whatever ended a turn, no run begins it again. */
  lemma {:induction false} NeverBegins(s: State, run: seq<Action>, at: Session, id: Id)
    requires Inv(s) && Legal(s, run) && id in s.recorded && id !in s.turns
    ensures id !in Starts(s, run, at)
    decreases |run|
  {
    if run != [] {
      StepInv(s, run[0]);
      StepLogs(s, run[0], id);
      NeverBegins(Apply(s, run[0]), run[1..], at, id);
    }
  }

  lemma InterruptedNeverBegins(s: State, id: Id, run: seq<Action>, at: Session)
    requires Reachable(s) && id in s.turns && s.turns[id].status == Queued && Legal(Apply(s, DoInterrupt(id)), run)
    ensures id !in Starts(Apply(s, DoInterrupt(id)), run, at)
  {
    ReachableInv(s);
    StepInv(s, DoInterrupt(id));
    Interrupted(s, id);
    assert TurnOk(s, id);
    NeverBegins(Apply(s, DoInterrupt(id)), run, at, id);
  }

  lemma DeletedNeverBegin(s: State, at: Session, id: Id, run: seq<Action>)
    requires Reachable(s) && id in s.turns && s.turns[id].at == at && s.turns[id].status == Queued
    requires Legal(Apply(s, DoDelete(at)), run)
    ensures id !in Starts(Apply(s, DoDelete(at)), run, at)
  {
    ReachableInv(s);
    StepInv(s, DoDelete(at));
    Deleted(s, at);
    assert TurnOk(s, id);
    NeverBegins(Apply(s, DoDelete(at)), run, at, id);
  }

  // ---------------------------------------------------------------- turns that ran

  /** `owed` are the files of a result that no line announced yet, each once, in order of their first
      mention. */
  ghost predicate Owed(owed: seq<string>, announced: set<string>, files: seq<string>) {
    && Distinct(owed)
    && (forall p :: p in owed <==> p in files && p !in announced)
    && (forall i, j :: 0 <= i < j < |owed| ==> exists k :: 0 <= k < |files| && files[k] == owed[i] && owed[j] !in files[..k])
  }

  function FileTags(paths: seq<string>): (lines: seq<Line>)
    ensures |lines| == |paths| && forall i :: 0 <= i < |lines| ==> lines[i] == Env(File(paths[i]))
  {
    seq(|paths|, i requires 0 <= i < |paths| => Env(File(paths[i])))
  }

  lemma {:induction false} FilesOwed(announced: set<string>, files: seq<string>) returns (owed: seq<string>)
    ensures Owed(owed, announced, files) && FileLines(announced, files) == FileTags(owed)
    decreases |files|
  {
    if files == [] {
      owed := [];
    } else {
      var p, rest := files[0], files[1..];
      assert files == [p] + rest;
      if p in announced {
        owed := FilesOwed(announced, rest);
        OwedSkips(owed, announced, files);
      } else {
        var more := FilesOwed(announced + {p}, rest);
        owed := [p] + more;
        OwedFirst(more, announced, files);
        assert FileTags(owed) == [Env(File(p))] + FileTags(more);
      }
    }
  }

  lemma OwedSkips(owed: seq<string>, announced: set<string>, files: seq<string>)
    requires files != [] && files[0] in announced && Owed(owed, announced, files[1..])
    ensures Owed(owed, announced, files)
  {
    var rest := files[1..];
    assert files == [files[0]] + rest;
    forall i, j | 0 <= i < j < |owed| ensures exists k :: 0 <= k < |files| && files[k] == owed[i] && owed[j] !in files[..k] {
      var k :| 0 <= k < |rest| && rest[k] == owed[i] && owed[j] !in rest[..k];
      assert owed[j] in owed;
      assert files[k + 1] == owed[i] && files[..k + 1] == [files[0]] + rest[..k];
    }
  }

  lemma OwedFirst(more: seq<string>, announced: set<string>, files: seq<string>)
    requires files != [] && files[0] !in announced && Owed(more, announced + {files[0]}, files[1..])
    ensures Owed([files[0]] + more, announced, files)
  {
    var p, rest := files[0], files[1..];
    var owed := [p] + more;
    assert files == [p] + rest;
    assert p !in more;
    forall i, j | 0 <= i < j < |owed| ensures exists k :: 0 <= k < |files| && files[k] == owed[i] && owed[j] !in files[..k] {
      if i == 0 {
        assert files[0] == owed[i] && owed[j] !in files[..0];
      } else {
        assert owed[i] == more[i - 1] && owed[j] == more[j - 1];
        var k :| 0 <= k < |rest| && rest[k] == more[i - 1] && more[j - 1] !in rest[..k];
        assert more[j - 1] in more;
        assert files[k + 1] == owed[i] && files[..k + 1] == [p] + rest[..k];
      }
    }
  }

  /** The envelope of an outcome */
  function Answer(outcome: Outcome): Envelope {
    match outcome
    case Done(_, reply) => Reply(reply)
    case Failed(message) => Failure(message)
  }

  /** A turn that ends leaves the files still owed, its own answer unless one was relayed, and `settled`
      with the outcome; it is gone, and nothing else is touched. */
  lemma Finished(s: State, id: Id, outcome: Outcome) returns (owed: seq<string>)
    requires Reachable(s) && id in s.turns && s.turns[id].status == Running
    ensures var r := Apply(s, DoFinish(id, outcome));
      && Gone(s, r, {id})
      && Owed(owed, s.turns[id].announced, if outcome.Done? then outcome.files else [])
      && Log(r.ledger, id) == Log(s.ledger, id) + FileTags(owed)
           + (if s.turns[id].envelope then [] else [Env(if outcome.Done? then Reply(outcome.reply) else Failure(outcome.message))])
           + [Settled(id, outcome.Done?)]
  {
    assert Enabled(s, DoFinish(id, outcome));
    assert Answer(outcome) == if outcome.Done? then Reply(outcome.reply) else Failure(outcome.message);
    hide *;
    ReachableInv(s);
    FinishGone(s, id, outcome);
    owed := ClosingIs(Log(s.ledger, id), s.turns[id].announced, s.turns[id].envelope, id, outcome);
  }

  lemma FinishGone(s: State, id: Id, outcome: Outcome)
    requires Inv(s) && id in s.turns
    ensures Gone(s, Finish(s, id, outcome), {id})
    ensures Log(Finish(s, id, outcome).ledger, id)
      == Log(s.ledger, id) + Closing(s.turns[id].announced, s.turns[id].envelope, id, outcome)
    ensures Enabled(s, DoFinish(id, outcome)) ==> Apply(s, DoFinish(id, outcome)) == Finish(s, id, outcome)
  {
    hide Finish, Closing;
    FinishInv(s, id, outcome);
    FinishRecords(s, id, outcome);
    var r := Finish(s, id, outcome);
    forall at ensures Queue(r, at) == Filter(Queue(s, at), s.turns.Keys - {id}) {
      FinishShrinks(s, id, outcome, at);
    }
    hide QInv, SInv, OInv;
  }

  lemma ClosingIs(log: seq<Line>, announced: set<string>, relayed: bool, id: Id, outcome: Outcome) returns (owed: seq<string>)
    ensures Owed(owed, announced, if outcome.Done? then outcome.files else [])
    ensures log + Closing(announced, relayed, id, outcome)
      == log + FileTags(owed) + (if relayed then [] else [Env(Answer(outcome))]) + [Settled(id, outcome.Done?)]
  {
    var answer := if relayed then [] else [Env(Answer(outcome))];
    var last := [Settled(id, outcome.Done?)];
    owed := FilesOwed(announced, if outcome.Done? then outcome.files else []);
    hide Owed;
    if outcome.Done? {
      assert log + (FileTags(owed) + answer + last) == log + FileTags(owed) + answer + last;
    } else {
      assert FileTags(owed) == [] && log + [] == log;
      assert log + (answer + last) == log + answer + last;
    }
  }

  /** Of turn records, only this turn's may have changed. */
  ghost predicate OthersKept(s: State, r: State, id: Id) {
    && r.turns - {id} == s.turns - {id} && id in r.turns
    && r.thunks == s.thunks && r.recorded == s.recorded && r.mixed == s.mixed && r.strayed == s.strayed
  }

  lemma AppendKeeps(s: State, id: Id, line: Line)
    requires id in s.turns
    ensures OthersKept(s, Append(s, id, line), id)
  {
    assert Append(s, id, line).turns - {id} == s.turns - {id};
  }

  lemma SettleRecords(s: State, id: Id, ok: bool)
    requires id in s.turns
    ensures var r := Settle(s, id, ok);
      r.turns == s.turns - {id} && r.thunks == s.thunks && r.recorded == s.recorded && r.mixed == s.mixed && r.strayed == s.strayed
  {
    AppendKeeps(s, id, Settled(id, ok));
    hide Append;
  }

  lemma FinishRecords(s: State, id: Id, outcome: Outcome)
    requires id in s.turns
    ensures var r := Finish(s, id, outcome);
      r.turns == s.turns - {id} && r.thunks == s.thunks && r.recorded == s.recorded && r.mixed == s.mixed && r.strayed == s.strayed
  {
    hide AppendFiles, Append, Settle;
    var m := if outcome.Done? then AppendFiles(s, id, outcome.files) else s;
    if outcome.Done? {
      FilesRecords(s, id, outcome.files);
    }
    if !m.turns[id].envelope {
      AppendKeeps(m, id, Env(Answer(outcome)));
    }
    SettleRecords(Conclude(m, id, Answer(outcome)), id, outcome.Done?);
  }

  lemma {:induction false} FilesRecords(s: State, id: Id, files: seq<string>)
    requires id in s.turns
    ensures OthersKept(s, AppendFiles(s, id, files), id)
    decreases |files|
  {
    hide Append;
    if files != [] {
      if files[0] in s.turns[id].announced {
        FilesRecords(s, id, files[1..]);
      } else {
        AppendKeeps(s, id, Env(File(files[0])));
        FilesRecords(Append(s, id, Env(File(files[0]))), id, files[1..]);
      }
    }
  }

  // ---------------------------------------------------------------- no session is stuck

  function Pops(c: Id, n: nat): seq<Action> {
    seq(n, i => DoPop(c))
  }

  /** The turn at the head of a queue, if it has not begun, begins once its chain has passed over what
      settled before it. */
  lemma HeadCanBegin(s: State, at: Session) returns (n: nat)
    requires Reachable(s) && Active(s, at).Some? && Active(s, at).value in s.turns
    requires s.turns[Active(s, at).value].status == Queued
    ensures at in s.chain
    ensures var id := Active(s, at).value; var run := Pops(s.chain[at], n) + [DoStart(s.chain[at])];
      Legal(s, run) && id in Exec(s, run).turns && Exec(s, run).turns[id].status == Running
  {
    ReachableInv(s);
    n := HeadBegins(s, at);
  }

  lemma {:induction false} HeadBegins(s: State, at: Session) returns (n: nat)
    requires Inv(s) && at in s.queues && s.queues[at] != [] && s.queues[at][0] in s.turns
    requires s.turns[s.queues[at][0]].status == Queued
    ensures at in s.chain && s.chain[at] in s.thunks
    ensures var id := s.queues[at][0]; var run := Pops(s.chain[at], n) + [DoStart(s.chain[at])];
      Legal(s, run) && id in Exec(s, run).turns && Exec(s, run).turns[id].status == Running
    decreases if at in s.chain && s.chain[at] in s.thunks then |s.thunks[s.chain[at]]| else 0
  {
    assert SessionOk(s, at);
    var id, c := s.queues[at][0], s.chain[at];
    if s.thunks[c][0] in s.turns {
      n := 0;
      assert s.thunks[c][0] == id;
      StartRuns(s, c);
    } else {
      var r := Pop(s, c);
      StepInv(s, DoPop(c));
      var m := HeadBegins(r, at);
      n := m + 1;
      var rest := Pops(c, m) + [DoStart(c)];
      assert Pops(c, n) + [DoStart(c)] == [DoPop(c)] + rest;
      OneMore(s, DoPop(c), rest);
    }
  }

  lemma StartRuns(s: State, c: Id)
    requires Enabled(s, DoStart(c))
    ensures var id := s.thunks[c][0]; var run := Pops(c, 0) + [DoStart(c)];
      Legal(s, run) && id in Exec(s, run).turns && Exec(s, run).turns[id].status == Running
  {
    var run := [DoStart(c)];
    assert Pops(c, 0) + run == run && run[1..] == [];
    assert Legal(Apply(s, run[0]), []);
    assert Exec(s, run) == Start(s, c);
  }

  lemma OneMore(s: State, a: Action, rest: seq<Action>)
    requires Enabled(s, a) && Legal(Apply(s, a), rest)
    ensures Legal(s, [a] + rest) && Exec(s, [a] + rest) == Exec(Apply(s, a), rest)
  {
    assert ([a] + rest)[1..] == rest;
  }
}
