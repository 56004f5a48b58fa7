/** What holds of every run of the steps in `Residents`. */
module ResidentRuns {
  import opened Options
  import opened Residents

  /** But for late closes, two open turns of one slot are one, its process is the slot's entry, and an entry
      has such a turn. */
  lemma OneTurn(s: State, t: Tid, u: Tid)
    requires ReachableInTime(s) && t in s.turns && s.turns[t].outcome == None
    ensures s.turns[t].key in s.live && s.live[s.turns[t].key] == s.turns[t].pid
    ensures u in s.turns && s.turns[u].outcome == None && s.turns[u].key == s.turns[t].key ==> u == t
  {
    ReachableInv(s);
    assert TurnOk(s, t) && TurnOk(s, u) && OpenOk(s, t) && OpenOk(s, u);
    assert HeldOk(s, s.turns[t].pid) && (u in s.turns ==> HeldOk(s, s.turns[u].pid));
  }

  lemma LiveHasTurn(s: State, key: Key)
    requires ReachableInTime(s)
    ensures key in s.live <==> exists t :: t in s.turns && s.turns[t].key == key && s.turns[t].outcome == None
  {
    ReachableInv(s);
    assert LiveOk(s, key);
    if key in s.live {
      var q := s.live[key];
      assert ProcOk(s, q);
      assert s.turns[s.procs[q].sink.value].outcome == None;
    }
    forall t | t in s.turns && s.turns[t].key == key && s.turns[t].outcome == None ensures key in s.live {
      OneTurn(s, t, t);
    }
  }

  /** No turn is ever written to a process that was told to cancel or to leave, and the processes that
      stand have been told neither. */
  lemma NeverFedCondemned(s: State, q: Pid, i: nat, j: nat)
    requires Reachable(s) && q in s.procs && i < j < |s.procs[q].told| && s.procs[q].told[j].TurnMsg?
    ensures s.procs[q].told[i].TurnMsg?
  {
    ReachableInv(s);
    assert ProcOk(s, q);
    assert Turnish(s.procs[q].told[j]);
  }

  lemma StandingIsClean(s: State, key: Key)
    requires Reachable(s) && key in s.residents
    ensures s.residents[key] in s.procs
    ensures var p := s.procs[s.residents[key]]; CancelMsg !in p.told && Eof !in p.told && !p.closed && p.key == key
  {
    ReachableInv(s);
    assert StandOk(s, key);
    var told := s.procs[s.residents[key]].told;
    forall i | 0 <= i < |told| ensures told[i] != CancelMsg && told[i] != Eof {
      assert Turnish(told[i]);
    }
  }

  /** Once settled, a turn keeps its outcome, whatever happens. */
  lemma SettledStays(s: State, a: Action, t: Tid)
    requires Base(s) && Possible(s, a) && t in s.turns
    ensures t in Step(s, a).turns && Step(s, a).turns[t].key == s.turns[t].key
    ensures s.turns[t].outcome.Some? ==> Step(s, a).turns[t] == s.turns[t]
  {
    match a
    case DoBegin(_, key, fp, p, _) =>
      if key !in s.live {
        AcquireInv(s, key, fp, p);
      }
    case DoLine(q, _) => assert ProcOk(s, q);
    case DoServeError(q) => assert ProcOk(s, q);
    case DoServeClose(q) => assert ProcOk(s, q);
    case DoOnceEnds(q, _, _) => assert ProcOk(s, q);
    case DoCancel(_) =>
    case DoStall(_) =>
    case DoRetire(_) =>
    case DoIdle(_) =>
    case DoBeginOnce(_, _, _) =>
    case DoExit(_, _) =>
  }

  /** The step that settles a turn frees its slot. */
  lemma SettlingFrees(s: State, a: Action, t: Tid)
    requires ReachableInTime(s) && Possible(s, a) && InTime(s, a)
    requires t in s.turns && s.turns[t].outcome == None && t in Step(s, a).turns && Step(s, a).turns[t].outcome.Some?
    ensures s.turns[t].key !in Step(s, a).live
  {
    ReachableInv(s);
    StepInv(s, a);
    SettledStays(s, a, t);
    var r := Step(s, a);
    var key := s.turns[t].key;
    assert LiveOk(r, key) && TurnOk(r, t);
    if key in r.live {
      assert ProcOk(r, r.live[key]);
      OneOpened(s, a, t, r.procs[r.live[key]].sink.value);
    }
  }

  /** While a turn is open no other turn of its slot opens. */
  lemma OneOpened(s: State, a: Action, t: Tid, u: Tid)
    requires Inv(s) && Possible(s, a) && InTime(s, a) && t in s.turns && s.turns[t].outcome == None
    requires u in Step(s, a).turns && Step(s, a).turns[u].key == s.turns[t].key && Step(s, a).turns[u].outcome == None
    ensures u == t
  {
    assert TurnOk(s, t) && OpenOk(s, t) && HeldOk(s, s.turns[t].pid);
    var key := s.turns[t].key;
    assert key in s.live;
    if u in s.turns {
      SettledStays(s, a, u);
      assert s.turns[u].outcome == None;
      assert TurnOk(s, u) && OpenOk(s, u) && HeldOk(s, s.turns[u].pid);
    } else {
      NewTurn(s, a, u);
    }
  }

  lemma NewTurn(s: State, a: Action, u: Tid)
    requires Base(s) && Possible(s, a) && u !in s.turns && u in Step(s, a).turns
    ensures Step(s, a).turns[u].key !in s.live
  {
    if a.DoBegin? && a.key !in s.live {
      AcquireInv(s, a.key, a.fp, a.p);
    }
  }

  /** A turn that waited on a process that closes is settled; and but for late closes every turn on it is. */
  lemma ClosedSettles(s: State, a: Action, t: Tid)
    requires Reachable(s) && Possible(s, a)
    requires a.DoServeClose? || a.DoOnceEnds?
    requires t in Step(s, a).turns && Step(s, a).turns[t].pid == a.q
    ensures s.procs[a.q].sink == Some(t) || (ReachableInTime(s) && InTime(s, a)) ==> Step(s, a).turns[t].outcome.Some?
  {
    ReachableInv(s);
    StepInv(s, a);
    var r := Step(s, a);
    assert ProcOk(s, a.q) && TurnOk(r, t) && ProcOk(r, a.q);
    if a.DoServeClose? {
      CloseInv(s, a.q);
    }
    if ReachableInTime(s) && InTime(s, a) {
      assert OpenOk(r, t);
    }
  }

  /** The idle clock never takes a process on which a turn waits, or one with background work. */
  lemma IdleSpares(s: State, q: Pid)
    requires Reachable(s) && q in s.procs && s.procs[q].idle
    ensures IdleFires(s, q).procs[q].told != s.procs[q].told ==> s.procs[q].sink == None && s.procs[q].tasks == {}
  {
    ReachableInv(s);
    assert ProcOk(s, q);
  }

  /** After a cancel of a turn on a serving process the slot's next turn gets a new process. */
  lemma CancelThenFresh(s: State, key: Key, fp: string, p: Pid)
    requires Reachable(s) && key in s.live && s.live[key] in s.procs && s.procs[s.live[key]].serve
    ensures key !in Cancel(s, key).residents && Acquired(Cancel(s, key), key, fp, p) == p
  {
    ReachableInv(s);
    assert StandOk(s, key) && LiveOk(s, key);
  }

  /** The standing process of the slot fits, and a signal has ended it. */
  predicate SignalDead(s: State, key: Key, fp: string) {
    Reuses(s, key, fp) && s.procs[s.residents[key]].exited
  }

  /** A turn goes to a process without an exit code that was told nothing but turns; the process has
      exited exactly when it is the standing one, its fingerprint fits, and a signal ended it. */
  lemma FedProcess(s: State, t: Tid, key: Key, fp: string, p: Pid)
    requires Reachable(s) && t !in s.turns && p !in s.procs && key !in s.live
    ensures var r := Begin(s, t, key, fp, p, false); var q := Acquired(s, key, fp, p);
      && q in r.procs && r.turns[t] == Turn(key, q, None)
      && OnlyTurns(r.procs[q].told) && r.procs[q].told[|r.procs[q].told| - 1..] == [TurnMsg(t)]
      && r.procs[q].code == None && !r.procs[q].closed
      && (r.procs[q].exited <==> SignalDead(s, key, fp))
  {
    ReachableInv(s);
    AcquireInv(s, key, fp, p);
    var s1, q := Acquire(s, key, fp, p), Acquired(s, key, fp, p);
    CleanMore(s1.procs[q].told, TurnMsg(t)) by { assert ProcOk(s1, q); }
  }

  // ---------------------------------------------------------------- two runs that go wrong

  /** A resident that a signal ended is reused until it closes. */
  lemma SignalReuse()
    ensures exists s :: ReachableInTime(s) && "k" !in s.live && SignalDead(s, "k", "f")
  {
    var run := [DoBegin(0, "k", "f", 0, false), DoLine(0, Reply), DoExit(0, None)];
    Unfold3(BOOT, run);
    var s := Exec(BOOT, run);
    assert ReachableInTime(s);
  }

  ghost predicate May(s: State, a: Action) {
    Possible(s, a) && InTime(s, a)
  }

  lemma Unfold3(s: State, run: seq<Action>)
    requires |run| == 3 && May(s, run[0]) && May(Step(s, run[0]), run[1]) && May(Step(Step(s, run[0]), run[1]), run[2])
    ensures Legal(s, run) && Punctual(s, run) && Exec(s, run) == Step(Step(Step(s, run[0]), run[1]), run[2])
  {
    var s1 := Step(s, run[0]);
    var s2 := Step(s1, run[1]);
    var s3 := Step(s2, run[2]);
    assert run[1..][0] == run[1] && run[1..][1..][0] == run[2] && run[1..][1..][1..] == [];
    assert Legal(s3, []) && Punctual(s3, []) && Exec(s3, []) == s3;
    assert Legal(s2, run[1..][1..]) && Punctual(s2, run[1..][1..]) && Exec(s2, run[1..][1..]) == s3;
    assert Legal(s1, run[1..]) && Punctual(s1, run[1..]) && Exec(s1, run[1..]) == s3;
  }

  ghost predicate BothOpen(s: State, t: Tid, u: Tid) {
    && t != u && t in s.turns && u in s.turns && s.turns[t].key == s.turns[u].key
    && s.turns[t].outcome == None && s.turns[u].outcome == None
  }

  /** A step that takes another turn's entry, and the turn that then begins beside it */
  ghost predicate OpensBoth(s: State, a: Action, b: Action) {
    Possible(s, a) && !InTime(s, a) && Possible(Step(s, a), b) && BothOpen(Step(Step(s, a), b), 1, 2)
  }

  /** A process of one turn that fails and only then closes, after the slot's next turn began, takes that
      turn's entry with it, and a second turn begins beside it. */
  lemma LateClose()
    ensures exists s, a, b :: ReachableInTime(s) && OpensBoth(s, a, b)
  {
    var run := [DoBeginOnce(0, "k", 0), DoOnceEnds(0, Failed, false), DoBeginOnce(1, "k", 1)];
    Unfold3(BOOT, run);
    var s := Exec(BOOT, run);
    assert ReachableInTime(s);
    OpensBothHere(s);
  }

  lemma OpensBothHere(s: State)
    requires 1 in s.turns && s.turns[1] == Turn("k", 1, None) && 2 !in s.turns && s.live == map["k" := 1]
    requires 0 in s.procs && !s.procs[0].serve && !s.procs[0].closed && s.procs[0].sink == None && s.procs[0].key == "k" && 2 !in s.procs
    ensures OpensBoth(s, DoOnceEnds(0, Failed, true), DoBeginOnce(2, "k", 2))
  {
  }
}
