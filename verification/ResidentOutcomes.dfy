/** How turns end, and what processes are told, in every run of `Residents`: who settles a turn and how, which
    process a turn is fed to, and that none is forgotten. */
module ResidentOutcomes {
  import opened Options
  import opened Residents

  // ---------------------------------------------------------------- outcomes

  /** A turn without an outcome that its process will report on. */
  predicate Waits(s: State, t: Tid) {
    && t in s.turns && s.turns[t].outcome == None
    && s.turns[t].pid in s.procs && s.procs[s.turns[t].pid].sink == Some(t)
  }

  predicate Serves(s: State, t: Tid) {
    t in s.turns && s.turns[t].pid in s.procs && s.procs[s.turns[t].pid].serve
  }

  /** The step is the reply of the process it waits on. */
  predicate Answers(s: State, a: Action, t: Tid) {
    Waits(s, t) && a == DoLine(s.turns[t].pid, Reply)
  }

  /** The step is an error, a failure or the end of the process it waits on. */
  predicate Breaks(s: State, a: Action, t: Tid) {
    Waits(s, t) && (a == DoLine(s.turns[t].pid, Error) || a == DoServeError(s.turns[t].pid) || a == DoServeClose(s.turns[t].pid))
  }

  /** Steps at which no process answers, breaks or ends settle nothing. */
  predicate Silent(a: Action) {
    !a.DoLine? && !a.DoServeError? && !a.DoServeClose? && !a.DoOnceEnds?
  }

  predicate KeptTurn(s: State, r: State, t: Tid) {
    t in s.turns && t in r.turns && r.turns[t] == s.turns[t] && (Serves(r, t) <==> Serves(s, t))
  }

  lemma SilentKeeps(s: State, a: Action, t: Tid)
    requires Base(s) && Possible(s, a) && t in s.turns && Silent(a)
    ensures KeptTurn(s, Step(s, a), t)
  {
    assert TurnOk(s, t);
    match a
    case DoBegin(u, key, fp, p, broken) => BeginKeeps(s, u, key, fp, p, broken, t);
    case DoBeginOnce(_, _, _) =>
    case DoCancel(_) =>
    case DoStall(u) => assert TurnOk(s, u);
    case DoRetire(_) =>
    case DoIdle(_) =>
    case DoExit(_, _) =>
    case _ =>
  }

  lemma BeginKeeps(s: State, u: Tid, key: Key, fp: string, p: Pid, broken: bool, t: Tid)
    requires Base(s) && t in s.turns && u !in s.turns && p !in s.procs && s.turns[t].pid in s.procs
    ensures KeptTurn(s, Begin(s, u, key, fp, p, broken), t)
  {
    if key !in s.live {
      AcquireInv(s, key, fp, p);
    }
  }

  /** What a line of a process makes of a turn */
  lemma LineOutcome(s: State, q: Pid, ev: Event, t: Tid)
    requires Base(s) && q in s.procs && t in s.turns
    ensures var r := ServeLine(s, q, ev);
      && (!(s.procs[q].sink == Some(t) && (ev.Reply? || ev.Error?)) ==> KeptTurn(s, r, t))
      && (s.procs[q].sink == Some(t) && (ev.Reply? || ev.Error?) ==>
            t in r.turns && r.turns[t] == s.turns[t].(outcome := Some(if ev.Reply? then Replied else Failed)) && (Serves(r, t) <==> Serves(s, t)))
  {
    assert ProcOk(s, q) && TurnOk(s, t);
  }

  lemma ErrorOutcome(s: State, q: Pid, t: Tid)
    requires Base(s) && q in s.procs && s.procs[q].serve && t in s.turns
    ensures s.procs[q].sink != Some(t) ==> KeptTurn(s, ServeError(s, q), t) && KeptTurn(s, ServeClose(s, q), t)
    ensures s.procs[q].sink == Some(t) ==>
      && ServeError(s, q).turns[t] == s.turns[t].(outcome := Some(Failed)) && Serves(ServeError(s, q), t)
      && ServeClose(s, q).turns[t] == s.turns[t].(outcome := Some(Failed)) && Serves(ServeClose(s, q), t)
  {
    assert ProcOk(s, q) && TurnOk(s, t);
  }

  lemma OnceOutcome(s: State, q: Pid, o: Outcome, close: bool, t: Tid)
    requires Base(s) && q in s.procs && !s.procs[q].serve && t in s.turns
    ensures var r := OnceEnds(s, q, o, close);
      && (s.procs[q].sink != Some(t) ==> KeptTurn(s, r, t))
      && (s.procs[q].sink == Some(t) ==> t in r.turns && r.turns[t] == s.turns[t].(outcome := Some(o)) && !Serves(r, t))
  {
    assert ProcOk(s, q) && TurnOk(s, t);
  }

  /** A turn on a serving process is replied exactly by a reply of that process while it waits there, and
      fails exactly with an error, a failure or the end of it. */
  lemma ServedOutcome(s: State, a: Action, t: Tid)
    requires Base(s) && Possible(s, a) && Serves(s, t) && s.turns[t].outcome == None
    ensures var r := Step(s, a);
      && Serves(r, t) && r.turns[t].pid == s.turns[t].pid && r.turns[t].key == s.turns[t].key
      && (r.turns[t].outcome == Some(Replied) <==> Answers(s, a, t))
      && (r.turns[t].outcome == Some(Failed) <==> Breaks(s, a, t))
  {
    hide Finish, ServeLine, ServeError, ServeClose, OnceEnds, Begin;
    if Silent(a) {
      SilentKeeps(s, a, t);
    } else {
      assert ProcOk(s, a.q);
      if a.DoLine? {
        LineOutcome(s, a.q, a.ev, t);
      } else if a.DoOnceEnds? {
        OnceOutcome(s, a.q, a.o, a.close, t);
      } else {
        ErrorOutcome(s, a.q, t);
      }
    }
  }

  /** A turn on a process of its own ends exactly with that process, as that one ends. */
  lemma OwnOutcome(s: State, a: Action, t: Tid, o: Outcome)
    requires Base(s) && Possible(s, a) && t in s.turns && !Serves(s, t) && s.turns[t].outcome == None
    ensures var r := Step(s, a);
      && t in r.turns && !Serves(r, t)
      && (r.turns[t].outcome == Some(o) <==> Waits(s, t) && a.DoOnceEnds? && a.q == s.turns[t].pid && a.o == o)
  {
    hide Finish, ServeLine, ServeError, ServeClose, OnceEnds, Begin;
    assert TurnOk(s, t);
    if Silent(a) {
      SilentKeeps(s, a, t);
    } else {
      assert ProcOk(s, a.q);
      if a.DoLine? {
        LineOutcome(s, a.q, a.ev, t);
      } else if a.DoOnceEnds? {
        OnceOutcome(s, a.q, a.o, a.close, t);
      } else {
        ErrorOutcome(s, a.q, t);
      }
    }
  }

  /** Where a slot is free a new turn waits on its process, and one whose first write throws has failed;
      where it is busy nothing happens. */
  lemma BeginOutcome(s: State, t: Tid, key: Key, fp: string, p: Pid, broken: bool)
    requires Base(s) && Possible(s, DoBegin(t, key, fp, p, broken))
    ensures var r := Step(s, DoBegin(t, key, fp, p, broken));
      && (key in s.live ==> r == s)
      && (key !in s.live ==> Serves(r, t) && r.turns == s.turns[t := r.turns[t]] && r.turns[t].key == key)
      && (key !in s.live && broken ==> r.turns[t].outcome == Some(Failed) && key !in r.live)
      && (key !in s.live && !broken ==> Waits(r, t) && key in r.live && r.live[key] == r.turns[t].pid)
  {
    if key !in s.live {
      AcquireInv(s, key, fp, p);
    }
  }

  lemma BeginOnceOutcome(s: State, t: Tid, key: Key, p: Pid)
    requires Base(s) && Possible(s, DoBeginOnce(t, key, p))
    ensures var r := Step(s, DoBeginOnce(t, key, p));
      && (key in s.live ==> r == s)
      && (key !in s.live ==>
            Waits(r, t) && !Serves(r, t) && r.turns == s.turns[t := Turn(key, p, None)] && r.live == s.live[key := p])
  {
  }

  /** At some step of the run the turn is answered, or its process breaks. */
  ghost predicate Heard(s: State, run: seq<Action>, t: Tid, answered: bool)
    requires Legal(s, run)
    decreases |run|
  {
    run != [] && ((if answered then Answers(s, run[0], t) else Breaks(s, run[0], t)) || Heard(Step(s, run[0]), run[1..], t, answered))
  }

  lemma {:induction false} SettledHears(s: State, run: seq<Action>, t: Tid, answered: bool)
    requires Base(s) && Legal(s, run) && t in s.turns && s.turns[t].outcome.Some?
    ensures t in Exec(s, run).turns && Exec(s, run).turns[t] == s.turns[t] && !Heard(s, run, t, answered)
    decreases |run|
  {
    if run != [] {
      StepInv(s, run[0]);
      SettledKeeps(s, run[0], t);
      SettledHears(Step(s, run[0]), run[1..], t, answered);
    }
  }

  lemma SettledKeeps(s: State, a: Action, t: Tid)
    requires Base(s) && Possible(s, a) && t in s.turns && s.turns[t].outcome.Some?
    ensures t in Step(s, a).turns && Step(s, a).turns[t] == s.turns[t]
  {
    hide Finish, ServeLine, ServeError, ServeClose, OnceEnds, Begin;
    if Silent(a) {
      SilentKeeps(s, a, t);
    } else {
      assert ProcOk(s, a.q);
      if a.DoLine? {
        LineOutcome(s, a.q, a.ev, t);
      } else if a.DoOnceEnds? {
        OnceOutcome(s, a.q, a.o, a.close, t);
      } else {
        ErrorOutcome(s, a.q, t);
      }
    }
  }

  /** Over any run: a turn on a serving process has been replied exactly if its process answered while it
      waited, and has failed exactly if the process broke while it waited. */
  lemma {:induction false} OutcomeOfRun(s: State, run: seq<Action>, t: Tid)
    requires Base(s) && Legal(s, run) && Serves(s, t) && s.turns[t].outcome == None
    ensures var r := Exec(s, run);
      && t in r.turns
      && (r.turns[t].outcome == Some(Replied) <==> Heard(s, run, t, true))
      && (r.turns[t].outcome == Some(Failed) <==> Heard(s, run, t, false))
    decreases |run|
  {
    if run != [] {
      var m := Step(s, run[0]);
      StepInv(s, run[0]);
      ServedOutcome(s, run[0], t);
      hide Base, Step, Possible, Answers, Breaks;
      if m.turns[t].outcome == None {
        OutcomeOfRun(m, run[1..], t);
      } else {
        SettledHears(m, run[1..], t, true);
        SettledHears(m, run[1..], t, false);
      }
    }
  }

  // ---------------------------------------------------------------- what processes are told

  /** Only this process was told anything, and it one thing more; no turn was settled. */
  predicate Told(s: State, r: State, q: Pid, m: Msg) {
    && q in s.procs && r.procs.Keys == s.procs.Keys && r.live == s.live && r.turns == s.turns
    && r.procs[q].told == s.procs[q].told + [m] && r.procs[q].sink == s.procs[q].sink
    && (forall x :: x in s.procs && x != q ==> r.procs[x] == s.procs[x])
  }

  /** A cancel is written to the process of the slot's turn; if that one stands it stands no more. A slot
      without a turn is left alone. */
  lemma CancelTells(s: State, key: Key)
    requires Base(s)
    ensures var r := Step(s, DoCancel(key));
      if key in s.live then
        && Told(s, r, s.live[key], CancelMsg)
        && r.residents == (if Stands(s, key, s.live[key]) then s.residents - {key} else s.residents)
      else r == s
  {
    assert LiveOk(s, key);
  }

  /** So is one of a turn that stalls. */
  lemma StallTells(s: State, t: Tid)
    requires Base(s) && Possible(s, DoStall(t))
    ensures var r := Step(s, DoStall(t));
      && Told(s, r, s.turns[t].pid, CancelMsg) && !Stands(r, s.turns[t].key, s.turns[t].pid)
      && (forall key :: key != s.turns[t].key ==> Same(s.residents, r.residents, key))
  {
    assert TurnOk(s, t) && StandOk(s, s.turns[t].key);
  }

  predicate Same(a: map<Key, Pid>, b: map<Key, Pid>, key: Key) {
    (key in a <==> key in b) && (key in a ==> a[key] == b[key])
  }

  /** Retiring a slot tells its standing process to leave, which then stands no more. */
  lemma RetireTells(s: State, key: Key)
    requires Base(s)
    ensures var r := Step(s, DoRetire(key));
      if key in s.residents then Told(s, r, s.residents[key], Eof) && r.residents == s.residents - {key} else r == s
  {
    assert StandOk(s, key);
  }

  /** The idle clock tells a process to leave exactly when it stands and has no background task. One with
      tasks keeps its clock. */
  lemma IdleTells(s: State, q: Pid)
    requires Base(s) && Possible(s, DoIdle(q))
    ensures var r := Step(s, DoIdle(q)); var key := s.procs[q].key;
      && (Stands(s, key, q) && s.procs[q].tasks == {} ==> Told(s, r, q, Eof) && r.residents == s.residents - {key} && s.procs[q].sink == None)
      && (Stands(s, key, q) && s.procs[q].tasks != {} ==> r == s && r.procs[q].idle)
      && (!Stands(s, key, q) ==> r == s.(procs := s.procs[q := s.procs[q].(idle := false)]))
  {
    assert ProcOk(s, q);
  }

  /** A turn is fed to the slot's standing process exactly when that one's fingerprint fits and it has no
      exit code. Any other standing process is told to leave, and the turn gets a new one. */
  lemma FedWhere(s: State, t: Tid, key: Key, fp: string, p: Pid)
    requires Base(s) && Possible(s, DoBegin(t, key, fp, p, false)) && key !in s.live
    ensures key in s.residents ==> s.residents[key] in s.procs
    ensures var r := Step(s, DoBegin(t, key, fp, p, false));
      var fits := key in s.residents && s.procs[s.residents[key]].fp == fp && s.procs[s.residents[key]].code == None;
      && key in r.residents && r.turns[t].pid == r.residents[key]
      && (fits ==> r.residents == s.residents && r.procs.Keys == s.procs.Keys && r.procs[s.residents[key]].told == s.procs[s.residents[key]].told + [TurnMsg(t)])
      && (!fits ==> r.residents[key] == p && r.procs[p] == Proc(key, true, fp, [TurnMsg(t)], Some(t), false, None, false, false, {}))
      && (!fits && key in s.residents ==> r.procs[s.residents[key]].told == s.procs[s.residents[key]].told + [Eof])
  {
    assert StandOk(s, key);
  }

  // ---------------------------------------------------------------- background tasks

  /** A process has exactly the tasks it said it started and did not say it ended. */
  lemma TasksTold(s: State, a: Action, q: Pid, id: string)
    requires Base(s) && Possible(s, a) && q in s.procs
    ensures q in Step(s, a).procs
    ensures id in Step(s, a).procs[q].tasks
      <==> a == DoLine(q, Task(id, true)) || (id in s.procs[q].tasks && a != DoLine(q, Task(id, false)))
  {
    match a
    case DoBegin(u, key, fp, p, broken) => BeginTasks(s, u, key, fp, p, broken, q);
    case DoCancel(key) => assert LiveOk(s, key);
    case DoRetire(key) => assert StandOk(s, key);
    case DoLine(x, _) => assert ProcOk(s, x);
    case DoServeError(x) => DeadTasks(s, x, q);
    case DoServeClose(x) => DeadTasks(s, x, q);
    case _ =>
  }

  lemma BeginTasks(s: State, t: Tid, key: Key, fp: string, p: Pid, broken: bool, q: Pid)
    requires Base(s) && p !in s.procs && q in s.procs
    ensures var r := Begin(s, t, key, fp, p, broken); q in r.procs && r.procs[q].tasks == s.procs[q].tasks
  {
    if key !in s.live {
      AcquireTasks(s, key, fp, p, q);
      AcquireInv(s, key, fp, p);
      hide Acquire, Acquired, Base;
    }
  }

  lemma AcquireTasks(s: State, key: Key, fp: string, p: Pid, q: Pid)
    requires Base(s) && p !in s.procs && q in s.procs
    ensures var r := Acquire(s, key, fp, p); q in r.procs && r.procs[q].tasks == s.procs[q].tasks
  {
    assert StandOk(s, key);
  }

  lemma DeadTasks(s: State, x: Pid, q: Pid)
    requires Base(s) && x in s.procs && q in s.procs
    ensures q in ServeError(s, x).procs && ServeError(s, x).procs[q].tasks == s.procs[q].tasks
    ensures q in ServeClose(s, x).procs && ServeClose(s, x).procs[q].tasks == s.procs[q].tasks
  {
    assert ProcOk(s, x);
  }

  /** The last word of the run on a task, or what was known before */
  ghost function Runs(known: bool, run: seq<Action>, q: Pid, id: string): bool {
    if run == [] then known
    else
      var a := run[|run| - 1];
      if a == DoLine(q, Task(id, true)) then true
      else if a == DoLine(q, Task(id, false)) then false
      else Runs(known, run[..|run| - 1], q, id)
  }

  lemma {:induction false} TasksOfRun(s: State, run: seq<Action>, q: Pid, id: string)
    requires Base(s) && Legal(s, run) && q in s.procs
    ensures q in Exec(s, run).procs && (id in Exec(s, run).procs[q].tasks <==> Runs(id in s.procs[q].tasks, run, q, id))
    decreases |run|
  {
    if run != [] {
      var m := Step(s, run[0]);
      StepInv(s, run[0]);
      TasksTold(s, run[0], q, id);
      hide Base, Step, Possible;
      TasksOfRun(m, run[1..], q, id);
      RunsFirst(id in s.procs[q].tasks, run, q, id);
    }
  }

  lemma {:induction false} RunsFirst(known: bool, run: seq<Action>, q: Pid, id: string)
    requires run != []
    ensures Runs(known, run, q, id) == Runs(Runs(known, run[..1], q, id), run[1..], q, id)
    decreases |run|
  {
    if |run| == 1 {
      assert run[..1] == run;
    } else {
      var init := run[..|run| - 1];
      assert init[..1] == run[..1] && init[1..] == run[1..][..|run| - 2];
      RunsFirst(known, init, q, id);
    }
  }

  // ---------------------------------------------------------------- no process is forgotten

  /** A standing process without a turn and without an exit code has its idle clock running. */
  ghost predicate Clocked(s: State, key: Key) {
    key in s.residents && s.residents[key] in s.procs && s.procs[s.residents[key]].sink == None && s.procs[s.residents[key]].code == None ==>
      s.procs[s.residents[key]].idle
  }

  ghost predicate CodeOk(s: State, q: Pid) {
    q in s.procs && s.procs[q].code.Some? ==> s.procs[q].exited
  }

  ghost predicate AllClocked(s: State) {
    && (forall key {:trigger Clocked(s, key)} :: Clocked(s, key))
    && (forall q {:trigger CodeOk(s, q)} :: CodeOk(s, q))
  }

  lemma StepClocked(s: State, a: Action)
    requires Base(s) && AllClocked(s) && Possible(s, a)
    ensures AllClocked(Step(s, a))
  {
    hide Base, Step, Possible;
    forall key ensures Clocked(Step(s, a), key) { KeyClocked(s, a, key); }
    forall q ensures CodeOk(Step(s, a), q) { CodeKept(s, a, q); }
  }

  lemma CodeKept(s: State, a: Action, q: Pid)
    requires Base(s) && CodeOk(s, q) && Possible(s, a)
    ensures CodeOk(Step(s, a), q)
  {
    match a
    case DoBegin(u, k, fp, p, broken) => BeginCode(s, u, k, fp, p, broken, q);
    case DoStall(t) => assert TurnOk(s, t);
    case DoLine(x, ev) => LineCode(s, x, ev, q);
    case DoServeError(x) => DeadCode(s, x, q);
    case DoServeClose(x) => DeadCode(s, x, q);
    case _ =>
  }

  lemma BeginCode(s: State, t: Tid, k: Key, fp: string, p: Pid, broken: bool, q: Pid)
    requires Base(s) && CodeOk(s, q) && p !in s.procs
    ensures CodeOk(Begin(s, t, k, fp, p, broken), q)
  {
  }

  lemma LineCode(s: State, x: Pid, ev: Event, q: Pid)
    requires CodeOk(s, q) && x in s.procs
    ensures CodeOk(ServeLine(s, x, ev), q)
  {
  }

  lemma DeadCode(s: State, x: Pid, q: Pid)
    requires CodeOk(s, q) && x in s.procs
    ensures CodeOk(ServeError(s, x), q) && CodeOk(ServeClose(s, x), q)
  {
  }

  lemma KeyClocked(s: State, a: Action, key: Key)
    requires Base(s) && AllClocked(s) && Possible(s, a)
    ensures Clocked(Step(s, a), key)
  {
    assert StandOk(s, key) && Clocked(s, key);
    match a
    case DoBegin(u, k, fp, p, broken) => BeginClocked(s, u, k, fp, p, broken, key);
    case DoCancel(k) => assert LiveOk(s, k);
    case DoStall(t) => assert TurnOk(s, t) && StandOk(s, s.turns[t].key);
    case DoRetire(k) => assert StandOk(s, k);
    case DoLine(x, ev) => LineClocked(s, x, ev, key);
    case DoServeError(x) => ErrorClocked(s, x, key);
    case DoServeClose(x) => CloseClocked(s, x, key);
    case DoOnceEnds(x, _, _) => assert ProcOk(s, x);
    case DoExit(x, _) => assert CodeOk(s, x);
    case _ =>
  }

  lemma BeginClocked(s: State, t: Tid, k: Key, fp: string, p: Pid, broken: bool, key: Key)
    requires Base(s) && Clocked(s, key) && t !in s.turns && p !in s.procs
    ensures Clocked(Begin(s, t, k, fp, p, broken), key)
  {
    assert StandOk(s, k) && StandOk(s, key);
  }

  lemma LineClocked(s: State, q: Pid, ev: Event, key: Key)
    requires Base(s) && Clocked(s, key) && q in s.procs
    ensures Clocked(ServeLine(s, q, ev), key)
  {
    assert StandOk(s, key) && ProcOk(s, q);
  }

  lemma ErrorClocked(s: State, q: Pid, key: Key)
    requires Base(s) && Clocked(s, key) && q in s.procs && s.procs[q].serve
    ensures Clocked(ServeError(s, q), key)
  {
    assert StandOk(s, key) && ProcOk(s, q);
  }

  lemma CloseClocked(s: State, q: Pid, key: Key)
    requires Base(s) && Clocked(s, key) && q in s.procs && s.procs[q].serve
    ensures Clocked(ServeClose(s, q), key)
  {
    assert StandOk(s, key) && ProcOk(s, q);
  }

  lemma {:induction false} RunClocked(s: State, run: seq<Action>)
    requires Base(s) && AllClocked(s) && Legal(s, run)
    ensures AllClocked(Exec(s, run))
    decreases |run|
  {
    if run != [] {
      StepInv(s, run[0]);
      StepClocked(s, run[0]);
      RunClocked(Step(s, run[0]), run[1..]);
    }
  }

  /** In every run. */
  lemma NoneForgotten(s: State, key: Key)
    requires Reachable(s) && key in s.residents
    ensures s.residents[key] in s.procs
    ensures var p := s.procs[s.residents[key]]; p.sink == None && p.code == None ==> p.idle
  {
    var run :| Legal(BOOT, run) && Exec(BOOT, run) == s;
    BootInv();
    RunClocked(BOOT, run);
    ReachableInv(s);
    assert Clocked(s, key) && StandOk(s, key);
  }

  // ---------------------------------------------------------------- processes that have ended

  /** Nothing is fed to it: no new turn is on it, and no turn is written to it. */
  predicate Unfed(s: State, r: State, q: Pid) {
    && q in s.procs && q in r.procs && NoMoreTurns(s.procs[q].told, r.procs[q].told)
    && (forall t :: t in s.turns ==> t in r.turns && r.turns[t].pid == s.turns[t].pid)
    && (forall t :: t in r.turns && r.turns[t].pid == q ==> t in s.turns)
  }

  predicate NoMoreTurns(before: seq<Msg>, after: seq<Msg>) {
    before <= after && forall i :: |before| <= i < |after| ==> !after[i].TurnMsg?
  }

  /** It has an exit code, or stands no more. */
  predicate Over(s: State, q: Pid) {
    q in s.procs && ((s.procs[q].exited && s.procs[q].code.Some?) || !Stands(s, s.procs[q].key, q))
  }

  /** Whatever ends a serving process puts it out of use: its own exit with a code, its failure, its close,
      a cancel, a stall, and the order to leave. */
  lemma PutOut(s: State, a: Action, q: Pid)
    requires Base(s) && Possible(s, a) && q in s.procs
    requires || (a.DoExit? && a.q == q && a.code.Some?)
      || (a.DoServeError? && a.q == q) || (a.DoServeClose? && a.q == q)
      || (a.DoCancel? && a.key in s.live && s.live[a.key] == q) || (a.DoStall? && s.turns[a.t].pid == q)
      || (a.DoRetire? && a.key in s.residents && s.residents[a.key] == q)
    ensures Over(Step(s, a), q)
  {
    assert ProcOk(s, q) && StandOk(s, s.procs[q].key);
    match a
    case DoCancel(key) => assert LiveOk(s, key);
    case DoStall(t) => assert TurnOk(s, t);
    case DoRetire(key) => assert StandOk(s, key);
    case _ =>
  }

  lemma StepOver(s: State, a: Action, q: Pid)
    requires Base(s) && Possible(s, a) && Over(s, q)
    ensures Over(Step(s, a), q) && Unfed(s, Step(s, a), q)
  {
    hide Begin, BeginOnce, Cancel, Stall, Retire, IdleFires, Exit, ServeLine, ServeError, ServeClose, OnceEnds, Over, Unfed, Base;
    match a
    case DoBegin(u, key, fp, p, broken) => BeginOver(s, u, key, fp, p, broken, q);
    case DoBeginOnce(u, key, p) => BeginOnceOver(s, u, key, p, q);
    case DoCancel(key) => CancelOver(s, key, q);
    case DoStall(t) => StallOver(s, t, q);
    case DoRetire(key) => RetireOver(s, key, q);
    case DoIdle(x) => IdleOver(s, x, q);
    case DoLine(x, ev) => LineOver(s, x, ev, q);
    case DoExit(x, code) => IdleOver(s, x, q);
    case DoServeError(x) => ErrorOver(s, x, q);
    case DoServeClose(x) => CloseOver(s, x, q);
    case DoOnceEnds(x, o, close) => OnceOver(s, x, o, close, q);
  }

  lemma BeginOnceOver(s: State, t: Tid, key: Key, p: Pid, q: Pid)
    requires Over(s, q) && t !in s.turns && p !in s.procs
    ensures Over(BeginOnce(s, t, key, p), q) && Unfed(s, BeginOnce(s, t, key, p), q)
  {
  }

  lemma CancelOver(s: State, key: Key, q: Pid)
    requires Over(s, q)
    ensures Over(Cancel(s, key), q) && Unfed(s, Cancel(s, key), q)
  {
  }

  lemma StallOver(s: State, t: Tid, q: Pid)
    requires Over(s, q) && t in s.turns && s.turns[t].pid in s.procs
    ensures Over(Stall(s, t), q) && Unfed(s, Stall(s, t), q)
  {
  }

  lemma RetireOver(s: State, key: Key, q: Pid)
    requires Over(s, q)
    ensures Over(Retire(s, key), q) && Unfed(s, Retire(s, key), q)
  {
  }

  lemma IdleOver(s: State, x: Pid, q: Pid)
    requires Over(s, q) && x in s.procs
    ensures Over(IdleFires(s, x), q) && Unfed(s, IdleFires(s, x), q)
    ensures forall code {:trigger Exit(s, x, code)} :: !s.procs[x].exited ==> Over(Exit(s, x, code), q) && Unfed(s, Exit(s, x, code), q)
  {
  }

  lemma BeginOver(s: State, t: Tid, key: Key, fp: string, p: Pid, broken: bool, q: Pid)
    requires Base(s) && Over(s, q) && t !in s.turns && p !in s.procs
    ensures var r := Begin(s, t, key, fp, p, broken); Over(r, q) && Unfed(s, r, q)
  {
    if key in s.live {
      UnfedNow(s, q);
    } else {
      AcquireOver(s, key, fp, p, q);
      AcquireInv(s, key, fp, p);
      hide Acquire, Base;
      FeedOver(Acquire(s, key, fp, p), t, key, Acquired(s, key, fp, p), broken, q);
      UnfedTwice(s, Acquire(s, key, fp, p), Begin(s, t, key, fp, p, broken), q);
    }
  }

  lemma UnfedNow(s: State, q: Pid)
    requires q in s.procs
    ensures Unfed(s, s, q)
  {
  }

  lemma AcquireOver(s: State, key: Key, fp: string, p: Pid, q: Pid)
    requires Base(s) && Over(s, q) && p !in s.procs
    ensures var r := Acquire(s, key, fp, p); Over(r, q) && Unfed(s, r, q) && Acquired(s, key, fp, p) != q
  {
    assert StandOk(s, key);
  }

  /** The turn goes to another process. */
  lemma FeedOver(s: State, t: Tid, key: Key, x: Pid, broken: bool, q: Pid)
    requires Over(s, q) && t !in s.turns && x in s.procs && x != q
    ensures var s2 := s.(live := s.live[key := x], turns := s.turns[t := Turn(key, x, None)], procs := s.procs[x := s.procs[x].(sink := Some(t))]);
      var r := if broken then Finish(s2, t, Failed) else Tell(s2, x, TurnMsg(t));
      Over(r, q) && Unfed(s, r, q)
  {
  }

  lemma LineOver(s: State, x: Pid, ev: Event, q: Pid)
    requires Base(s) && Over(s, q) && x in s.procs
    ensures var r := ServeLine(s, x, ev); Over(r, q) && Unfed(s, r, q)
  {
    assert ProcOk(s, x);
  }

  lemma OnceOver(s: State, x: Pid, o: Outcome, close: bool, q: Pid)
    requires Base(s) && Over(s, q) && x in s.procs && !s.procs[x].serve
    ensures var r := OnceEnds(s, x, o, close); Over(r, q) && Unfed(s, r, q)
  {
    assert ProcOk(s, x);
  }

  lemma ErrorOver(s: State, x: Pid, q: Pid)
    requires Base(s) && Over(s, q) && x in s.procs
    ensures var r := ServeError(s, x); Over(r, q) && Unfed(s, r, q)
  {
    assert ProcOk(s, x);
  }

  lemma CloseOver(s: State, x: Pid, q: Pid)
    requires Base(s) && Over(s, q) && x in s.procs
    ensures var r := ServeClose(s, x); Over(r, q) && Unfed(s, r, q)
  {
    assert ProcOk(s, x);
  }

  /** And out of use it stays: over any run nothing is fed to it again. */
  lemma {:induction false} OverForGood(s: State, run: seq<Action>, q: Pid)
    requires Base(s) && Legal(s, run) && Over(s, q)
    ensures Over(Exec(s, run), q) && Unfed(s, Exec(s, run), q)
    decreases |run|
  {
    if run != [] {
      var m := Step(s, run[0]);
      StepInv(s, run[0]);
      StepOver(s, run[0], q);
      hide Base, Step, Possible, Over, Unfed;
      OverForGood(m, run[1..], q);
      UnfedTwice(s, m, Exec(m, run[1..]), q);
    }
  }

  lemma UnfedTwice(s: State, m: State, r: State, q: Pid)
    requires Unfed(s, m, q) && Unfed(m, r, q)
    ensures Unfed(s, r, q)
  {
  }
}
