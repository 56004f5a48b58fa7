/** The turns of runner/runtime/harness.ts: the gate of one turn per slot, processes that serve many
    turns, and what retires, condemns or ends them. One step is what the program does between two
    awaits or callbacks. */
module Residents {
  import opened Options

  type Key = string  // package/slot
  type Pid = nat
  type Tid = nat

  datatype Outcome = Replied | Failed

  datatype Msg = TurnMsg(t: Tid) | CancelMsg | Eof

  /** A child process: `told` is what was written to its stdin, `sink` the turn that waits for it.
      `code` is exitCode, which stays null for a process that a signal ended. A serving process has the
      fields of a Resident besides. */
  datatype Proc = Proc(
    key: Key, serve: bool, fp: string, told: seq<Msg>, sink: Option<Tid>,
    exited: bool, code: Option<int>, closed: bool, idle: bool, tasks: set<string>)

  datatype Turn = Turn(key: Key, pid: Pid, outcome: Option<Outcome>)

  datatype State = State(live: map<Key, Pid>, residents: map<Key, Pid>, procs: map<Pid, Proc>, turns: map<Tid, Turn>)

  const BOOT := State(map[], map[], map[], map[])

  // ---------------------------------------------------------------- helpers

  function Tell(s: State, q: Pid, m: Msg): State
    requires q in s.procs
  {
    s.(procs := s.procs[q := s.procs[q].(told := s.procs[q].told + [m])])
  }

  predicate Stands(s: State, key: Key, q: Pid) {
    key in s.residents && s.residents[key] == q
  }

  /** Out of the map, if it is the one standing there, with its idle clock stopped. */
  function Dismiss(s: State, key: Key, q: Pid): State
    requires q in s.procs
  {
    s.(residents := if Stands(s, key, q) then s.residents - {key} else s.residents,
       procs := s.procs[q := s.procs[q].(idle := false)])
  }

  /** retireEntry: EOF is the order to leave. */
  function RetireEntry(s: State, key: Key, q: Pid): State
    requires q in s.procs
  {
    Tell(Dismiss(s, key, q), q, Eof)
  }

  /** condemnResident */
  function Condemn(s: State, key: Key, q: Pid): State
    requires q in s.procs
  {
    if Stands(s, key, q) then Dismiss(s, key, q) else s
  }

  function Clear(live: map<Key, Pid>, key: Key, q: Pid): map<Key, Pid> {
    if key in live && live[key] == q then live - {key} else live
  }

  /** finish of residentTurn */
  function Finish(s: State, t: Tid, o: Outcome): State
    requires t in s.turns && s.turns[t].pid in s.procs
  {
    var key, q := s.turns[t].key, s.turns[t].pid;
    var p := s.procs[q];
    State(
      Clear(s.live, key, q), s.residents,
      s.procs[q := p.(sink := None, idle := p.idle || (Stands(s, key, q) && p.code == None))],
      s.turns[t := s.turns[t].(outcome := Some(o))])
  }

  // ---------------------------------------------------------------- turns begin

  function Reuses(s: State, key: Key, fp: string): bool {
    key in s.residents && s.residents[key] in s.procs
      && s.procs[s.residents[key]].fp == fp && s.procs[s.residents[key]].code == None
  }

  /** acquireResident: the standing process when its fingerprint fits and it has no exit code; else that
      one retires and `p` is spawned. */
  function Acquire(s: State, key: Key, fp: string, p: Pid): State {
    if Reuses(s, key, fp) then
      var q := s.residents[key];
      s.(procs := s.procs[q := s.procs[q].(idle := false)])
    else
      var s1 := if key in s.residents && s.residents[key] in s.procs then RetireEntry(s, key, s.residents[key]) else s;
      s1.(procs := s1.procs[p := Proc(key, true, fp, [], None, false, None, false, false, {})], residents := s1.residents[key := p])
  }

  function Acquired(s: State, key: Key, fp: string, p: Pid): Pid {
    if Reuses(s, key, fp) then s.residents[key] else p
  }

  /** runSession past its gate, on a serving process; `broken` is a write that throws. */
  function Begin(s: State, t: Tid, key: Key, fp: string, p: Pid, broken: bool): State
    requires p !in s.procs
  {
    if key in s.live then s
    else
      var q := Acquired(s, key, fp, p);
      var s1 := Acquire(s, key, fp, p);
      var s2 := s1.(live := s1.live[key := q], turns := s1.turns[t := Turn(key, q, None)],
                    procs := s1.procs[q := s1.procs[q].(sink := Some(t))]);
      if broken then Finish(s2, t, Failed) else Tell(s2, q, TurnMsg(t))
  }

  /** runSession past its gate, on a process of its own */
  function BeginOnce(s: State, t: Tid, key: Key, p: Pid): State {
    if key in s.live then s
    else s.(live := s.live[key := p], turns := s.turns[t := Turn(key, p, None)],
            procs := s.procs[p := Proc(key, false, "", [], Some(t), false, None, false, false, {})])
  }

  // ---------------------------------------------------------------- cancelling and retiring

  /** cancelSession */
  function Cancel(s: State, key: Key): State {
    if key in s.live && s.live[key] in s.procs then Tell(Condemn(s, key, s.live[key]), s.live[key], CancelMsg) else s
  }

  /** The stall watchdog of a turn that has not settled */
  function Stall(s: State, t: Tid): State
    requires t in s.turns && s.turns[t].pid in s.procs
  {
    var key, q := s.turns[t].key, s.turns[t].pid;
    Tell(if s.procs[q].serve then Condemn(s, key, q) else s, q, CancelMsg)
  }

  /** retireResident, and retireResidents for one entry */
  function Retire(s: State, key: Key): State {
    if key in s.residents && s.residents[key] in s.procs then RetireEntry(s, key, s.residents[key]) else s
  }

  /** The idle clock: a resident with background tasks gets another round. */
  function IdleFires(s: State, q: Pid): State
    requires q in s.procs
  {
    var p := s.procs[q];
    if !Stands(s, p.key, q) then s.(procs := s.procs[q := p.(idle := false)])
    else if p.tasks != {} then s
    else RetireEntry(s, p.key, q)
  }

  // ---------------------------------------------------------------- what processes do

  datatype Event = Task(id: string, started: bool) | Reply | Error | Other

  /** A line of a serving process */
  function ServeLine(s: State, q: Pid, ev: Event): State
    requires q in s.procs
  {
    var p := s.procs[q];
    match ev
    case Task(id, started) => s.(procs := s.procs[q := p.(tasks := if started then p.tasks + {id} else p.tasks - {id})])
    case Other => s
    case _ =>
      if p.sink.Some? && p.sink.value in s.turns && s.turns[p.sink.value].pid in s.procs
      then Finish(s, p.sink.value, if ev.Reply? then Replied else Failed) else s
  }

  /** The process is gone; Node sets exitCode unless a signal ended it. */
  function Exit(s: State, q: Pid, code: Option<int>): State
    requires q in s.procs
  {
    s.(procs := s.procs[q := s.procs[q].(exited := true, code := code)])
  }

  /** The turn that waits on a serving process fails with it. */
  function Dying(s: State, q: Pid): State
    requires q in s.procs
  {
    ServeLine(s, q, Error)
  }

  /** 'error' of a serving process */
  function ServeError(s: State, q: Pid): State
    requires q in s.procs
  {
    var key := s.procs[q].key;
    Dying(s.(residents := if Stands(s, key, q) then s.residents - {key} else s.residents), q)
  }

  /** 'close' of a serving process */
  function ServeClose(s: State, q: Pid): State
    requires q in s.procs
  {
    var s1 := Dismiss(s, s.procs[q].key, q);
    Dying(s1.(procs := s1.procs[q := s1.procs[q].(exited := true, closed := true)]), q)
  }

  /** 'error' or 'close' of a process of one turn: the slot's entry goes, whosever it is by now. */
  function OnceEnds(s: State, q: Pid, o: Outcome, close: bool): State
    requires q in s.procs
  {
    var p := s.procs[q];
    State(
      s.live - {p.key}, s.residents,
      s.procs[q := p.(sink := None, exited := p.exited || close, closed := p.closed || close)],
      if p.sink.Some? && p.sink.value in s.turns then s.turns[p.sink.value := s.turns[p.sink.value].(outcome := Some(o))] else s.turns)
  }

  // ---------------------------------------------------------------- runs

  datatype Action =
    | DoBegin(t: Tid, key: Key, fp: string, p: Pid, broken: bool)
    | DoBeginOnce(t: Tid, key: Key, p: Pid)
    | DoCancel(key: Key)
    | DoStall(t: Tid)
    | DoRetire(key: Key)
    | DoIdle(q: Pid)
    | DoLine(q: Pid, ev: Event)
    | DoExit(q: Pid, code: Option<int>)
    | DoServeError(q: Pid)
    | DoServeClose(q: Pid)
    | DoOnceEnds(q: Pid, o: Outcome, close: bool)

  /** What Node and the timers can bring about. */
  ghost predicate Possible(s: State, a: Action) {
    match a
    case DoBegin(t, _, _, p, _) => t !in s.turns && p !in s.procs
    case DoBeginOnce(t, _, p) => t !in s.turns && p !in s.procs
    case DoCancel(_) => true
    case DoStall(t) => t in s.turns && s.turns[t].outcome == None && s.turns[t].pid in s.procs
    case DoRetire(_) => true
    case DoIdle(q) => q in s.procs && s.procs[q].idle
    case DoLine(q, _) => q in s.procs && s.procs[q].serve && !s.procs[q].closed
    case DoExit(q, _) => q in s.procs && !s.procs[q].exited
    case DoServeError(q) => q in s.procs && s.procs[q].serve && !s.procs[q].closed
    case DoServeClose(q) => q in s.procs && s.procs[q].serve && !s.procs[q].closed
    case DoOnceEnds(q, _, _) => q in s.procs && !s.procs[q].serve && !s.procs[q].closed
  }

  /** What the gate of one turn per slot asks of Node: a process of one turn that has failed does not close
      once another turn of its slot has begun. */
  ghost predicate InTime(s: State, a: Action) {
    a.DoOnceEnds? && a.q in s.procs && s.procs[a.q].key in s.live ==> s.live[s.procs[a.q].key] == a.q
  }

  ghost function Step(s: State, a: Action): State
    requires Possible(s, a)
  {
    match a
    case DoBegin(t, key, fp, p, broken) => Begin(s, t, key, fp, p, broken)
    case DoBeginOnce(t, key, p) => BeginOnce(s, t, key, p)
    case DoCancel(key) => Cancel(s, key)
    case DoStall(t) => Stall(s, t)
    case DoRetire(key) => Retire(s, key)
    case DoIdle(q) => IdleFires(s, q)
    case DoLine(q, ev) => ServeLine(s, q, ev)
    case DoExit(q, code) => Exit(s, q, code)
    case DoServeError(q) => ServeError(s, q)
    case DoServeClose(q) => ServeClose(s, q)
    case DoOnceEnds(q, o, close) => OnceEnds(s, q, o, close)
  }

  ghost predicate Legal(s: State, run: seq<Action>)
    decreases |run|
  {
    run == [] || (Possible(s, run[0]) && Legal(Step(s, run[0]), run[1..]))
  }

  /** No one-turn process of the run closes late. */
  ghost predicate Punctual(s: State, run: seq<Action>)
    requires Legal(s, run)
    decreases |run|
  {
    run == [] || (InTime(s, run[0]) && Punctual(Step(s, run[0]), run[1..]))
  }

  ghost function Exec(s: State, run: seq<Action>): State
    requires Legal(s, run)
    decreases |run|
  {
    if run == [] then s else Exec(Step(s, run[0]), run[1..])
  }

  // ---------------------------------------------------------------- the invariant

  predicate Turnish(m: Msg) {
    m.TurnMsg?
  }

  /** Nothing but turns was written, or nothing but turns before the first cancel or EOF and no turn after. */
  predicate Clean(told: seq<Msg>) {
    forall i, j :: 0 <= i < j < |told| && Turnish(told[j]) ==> Turnish(told[i])
  }

  predicate OnlyTurns(told: seq<Msg>) {
    forall i :: 0 <= i < |told| ==> Turnish(told[i])
  }

  /** A slot's entry names a process of the slot on which a turn waits. */
  ghost predicate LiveOk(s: State, key: Key) {
    key in s.live ==>
      && s.live[key] in s.procs
      && s.procs[s.live[key]].key == key
      && s.procs[s.live[key]].sink.Some?
  }

  ghost predicate ProcOk(s: State, q: Pid) {
    q in s.procs ==>
      var p := s.procs[q];
      && Clean(p.told)
      && (p.idle ==> p.serve && p.sink == None)
      && (p.closed ==> p.sink == None && p.exited)
      && (p.sink.Some? ==> p.sink.value in s.turns && s.turns[p.sink.value] == Turn(p.key, q, None))
  }

  ghost predicate TurnOk(s: State, t: Tid) {
    t in s.turns ==>
      && s.turns[t].pid in s.procs
      && s.procs[s.turns[t].pid].key == s.turns[t].key
  }

  /** The standing process of a slot has been told nothing but turns; and a turn in flight on a serving
      process is on the standing one, or on one that no longer stands and has no successor. */
  ghost predicate StandOk(s: State, key: Key) {
    key in s.residents ==>
      && s.residents[key] in s.procs
      && var p := s.procs[s.residents[key]];
      && p.key == key && p.serve && !p.closed && OnlyTurns(p.told)
      && (key in s.live && s.live[key] in s.procs && s.procs[s.live[key]].serve ==> s.live[key] == s.residents[key])
  }

  /** What every step keeps. */
  ghost predicate Base(s: State) {
    && (forall key {:trigger LiveOk(s, key)} :: LiveOk(s, key))
    && (forall q {:trigger ProcOk(s, q)} :: ProcOk(s, q))
    && (forall t {:trigger TurnOk(s, t)} :: TurnOk(s, t))
    && (forall key {:trigger StandOk(s, key)} :: StandOk(s, key))
  }

  /** A process on which a turn waits is its slot's entry. */
  ghost predicate HeldOk(s: State, q: Pid) {
    q in s.procs && s.procs[q].sink.Some? ==> s.procs[q].key in s.live && s.live[s.procs[q].key] == q
  }

  /** An open turn waits on its process. */
  ghost predicate OpenOk(s: State, t: Tid) {
    t in s.turns && s.turns[t].outcome == None && s.turns[t].pid in s.procs ==> s.procs[s.turns[t].pid].sink == Some(t)
  }

  /** What every step keeps but a late close. */
  ghost predicate Gate(s: State) {
    && (forall q {:trigger HeldOk(s, q)} :: HeldOk(s, q))
    && (forall t {:trigger OpenOk(s, t)} :: OpenOk(s, t))
  }

  ghost predicate Inv(s: State) {
    Base(s) && Gate(s)
  }

  // ---------------------------------------------------------------- steps keep it

  lemma CleanMore(told: seq<Msg>, m: Msg)
    requires Clean(told) && (m.TurnMsg? ==> OnlyTurns(told))
    ensures Clean(told + [m]) && (m.TurnMsg? ==> OnlyTurns(told + [m]))
  {
  }

  lemma TellInv(s: State, q: Pid, m: Msg)
    requires Base(s) && q in s.procs
    requires if m.TurnMsg? then OnlyTurns(s.procs[q].told) else !Stands(s, s.procs[q].key, q)
    ensures Base(Tell(s, q, m)) && (Gate(s) ==> Gate(Tell(s, q, m)))
  {
    var r := Tell(s, q, m);
    CleanMore(s.procs[q].told, m) by { assert ProcOk(s, q); }
    forall k ensures LiveOk(r, k) { assert LiveOk(s, k); }
    forall x ensures ProcOk(r, x) { assert ProcOk(s, x); }
    forall t ensures TurnOk(r, t) { assert TurnOk(s, t); }
    forall k ensures StandOk(r, k) { assert StandOk(s, k); }
    if Gate(s) {
      forall x ensures HeldOk(r, x) { assert HeldOk(s, x); }
      forall t ensures OpenOk(r, t) { assert OpenOk(s, t); }
    }
  }

  lemma DismissInv(s: State, q: Pid)
    requires Base(s) && q in s.procs
    ensures Base(Dismiss(s, s.procs[q].key, q)) && (Gate(s) ==> Gate(Dismiss(s, s.procs[q].key, q)))
    ensures !Stands(Dismiss(s, s.procs[q].key, q), s.procs[q].key, q)
  {
    var r := Dismiss(s, s.procs[q].key, q);
    forall k ensures LiveOk(r, k) { assert LiveOk(s, k); }
    forall x ensures ProcOk(r, x) { assert ProcOk(s, x); }
    forall t ensures TurnOk(r, t) { assert TurnOk(s, t); }
    forall k ensures StandOk(r, k) { assert StandOk(s, k); }
    if Gate(s) {
      forall x ensures HeldOk(r, x) { assert HeldOk(s, x); }
      forall t ensures OpenOk(r, t) { assert OpenOk(s, t); }
    }
  }

  lemma RetireEntryInv(s: State, q: Pid)
    requires Base(s) && q in s.procs
    ensures Base(RetireEntry(s, s.procs[q].key, q)) && (Gate(s) ==> Gate(RetireEntry(s, s.procs[q].key, q)))
  {
    DismissInv(s, q);
    TellInv(Dismiss(s, s.procs[q].key, q), q, Eof);
  }

  lemma CancelInv(s: State, q: Pid)
    requires Base(s) && q in s.procs
    ensures Base(Tell(Condemn(s, s.procs[q].key, q), q, CancelMsg)) && (Gate(s) ==> Gate(Tell(Condemn(s, s.procs[q].key, q), q, CancelMsg)))
  {
    DismissInv(s, q);
    TellInv(Condemn(s, s.procs[q].key, q), q, CancelMsg);
  }

  lemma FinishInv(s: State, t: Tid, o: Outcome)
    requires Base(s) && t in s.turns && s.turns[t].pid in s.procs && s.procs[s.turns[t].pid].sink == Some(t) && s.procs[s.turns[t].pid].serve
    ensures Base(Finish(s, t, o)) && (Gate(s) ==> Gate(Finish(s, t, o)))
  {
    var q := s.turns[t].pid;
    assert TurnOk(s, t) && ProcOk(s, q);
    var r := Finish(s, t, o);
    forall k ensures LiveOk(r, k) { assert LiveOk(s, k); }
    forall x ensures ProcOk(r, x) { assert ProcOk(s, x); }
    forall u ensures TurnOk(r, u) { assert TurnOk(s, u); }
    forall k ensures StandOk(r, k) { assert StandOk(s, k); }
    if Gate(s) {
      forall x ensures HeldOk(r, x) { assert HeldOk(s, x); }
      forall u ensures OpenOk(r, u) { assert OpenOk(s, u); }
    }
  }

  /** The process a turn goes to: serving, standing, of the slot, told nothing but turns, and free if nothing
      has closed late. */
  lemma AcquireInv(s: State, key: Key, fp: string, p: Pid)
    requires Base(s) && key !in s.live && p !in s.procs
    ensures var r := Acquire(s, key, fp, p); var q := Acquired(s, key, fp, p);
      && Base(r) && r.live == s.live && r.turns == s.turns && q in r.procs && Stands(r, key, q)
      && (Gate(s) ==> Gate(r) && r.procs[q].sink == None)
      && r.procs[q].key == key && r.procs[q].serve && !r.procs[q].idle
      && !r.procs[q].closed && OnlyTurns(r.procs[q].told) && r.procs[q].code == None
      && forall x :: x in s.procs ==> x in r.procs
  {
    assert StandOk(s, key);
    if Reuses(s, key, fp) {
      var q := s.residents[key];
      var r := Acquire(s, key, fp, p);
      assert ProcOk(s, q);
      forall k ensures LiveOk(r, k) { assert LiveOk(s, k); }
      forall x ensures ProcOk(r, x) { assert ProcOk(s, x); }
      forall t ensures TurnOk(r, t) { assert TurnOk(s, t); }
      forall k ensures StandOk(r, k) { assert StandOk(s, k); }
      if Gate(s) {
        assert HeldOk(s, q);
        forall x ensures HeldOk(r, x) { assert HeldOk(s, x); }
        forall t ensures OpenOk(r, t) { assert OpenOk(s, t); }
      }
    } else {
      if key in s.residents {
        RetireEntryInv(s, s.residents[key]);
      }
      var m := if key in s.residents then RetireEntry(s, key, s.residents[key]) else s;
      SpawnInv(m, key, fp, p);
    }
  }

  lemma SpawnInv(s: State, key: Key, fp: string, p: Pid)
    requires Base(s) && key !in s.live && key !in s.residents && p !in s.procs
    ensures var r := s.(procs := s.procs[p := Proc(key, true, fp, [], None, false, None, false, false, {})], residents := s.residents[key := p]);
      Base(r) && (Gate(s) ==> Gate(r))
  {
    var r := s.(procs := s.procs[p := Proc(key, true, fp, [], None, false, None, false, false, {})], residents := s.residents[key := p]);
    forall k ensures LiveOk(r, k) { assert LiveOk(s, k); }
    forall x ensures ProcOk(r, x) { assert ProcOk(s, x); }
    forall t ensures TurnOk(r, t) { assert TurnOk(s, t); }
    forall k ensures StandOk(r, k) { assert StandOk(s, k) && LiveOk(s, k); }
    if Gate(s) {
      forall x ensures HeldOk(r, x) { assert HeldOk(s, x); }
      forall t ensures OpenOk(r, t) { assert OpenOk(s, t) && TurnOk(s, t); }
    }
  }

  /** A process takes a new turn of its slot. */
  lemma TakeInv(s: State, t: Tid, key: Key, q: Pid)
    requires Base(s) && key !in s.live && t !in s.turns && Stands(s, key, q)
    requires q in s.procs && s.procs[q].key == key && s.procs[q].serve && !s.procs[q].idle && !s.procs[q].closed
    ensures var r := s.(live := s.live[key := q], turns := s.turns[t := Turn(key, q, None)], procs := s.procs[q := s.procs[q].(sink := Some(t))]);
      Base(r) && (Gate(s) && s.procs[q].sink == None ==> Gate(r))
  {
    var r := s.(live := s.live[key := q], turns := s.turns[t := Turn(key, q, None)], procs := s.procs[q := s.procs[q].(sink := Some(t))]);
    forall k ensures LiveOk(r, k) { assert LiveOk(s, k); }
    forall x ensures ProcOk(r, x) { assert ProcOk(s, x); }
    forall u ensures TurnOk(r, u) { assert TurnOk(s, u); }
    forall k ensures StandOk(r, k) { assert StandOk(s, k); }
    if Gate(s) && s.procs[q].sink == None {
      forall x ensures HeldOk(r, x) { assert HeldOk(s, x); }
      forall t ensures OpenOk(r, t) { assert OpenOk(s, t); }
    }
  }

  lemma BeginInv(s: State, t: Tid, key: Key, fp: string, p: Pid, broken: bool)
    requires Base(s) && t !in s.turns && p !in s.procs
    ensures Base(Begin(s, t, key, fp, p, broken)) && (Gate(s) ==> Gate(Begin(s, t, key, fp, p, broken)))
  {
    if key !in s.live {
      AcquireInv(s, key, fp, p);
      var q := Acquired(s, key, fp, p);
      var s1 := Acquire(s, key, fp, p);
      hide Base, Gate, Acquire, Acquired;
      TakeInv(s1, t, key, q);
      var s2 := s1.(live := s1.live[key := q], turns := s1.turns[t := Turn(key, q, None)], procs := s1.procs[q := s1.procs[q].(sink := Some(t))]);
      if broken {
        FinishInv(s2, t, Failed);
      } else {
        TellInv(s2, q, TurnMsg(t));
      }
    }
  }

  lemma BeginOnceInv(s: State, t: Tid, key: Key, p: Pid)
    requires Base(s) && t !in s.turns && p !in s.procs
    ensures Base(BeginOnce(s, t, key, p)) && (Gate(s) ==> Gate(BeginOnce(s, t, key, p)))
  {
    if key !in s.live {
      var r := BeginOnce(s, t, key, p);
      forall k ensures LiveOk(r, k) { assert LiveOk(s, k); }
      forall x ensures ProcOk(r, x) { assert ProcOk(s, x); }
      forall u ensures TurnOk(r, u) { assert TurnOk(s, u); }
      forall k ensures StandOk(r, k) { assert StandOk(s, k) && LiveOk(s, k); }
      if Gate(s) {
        forall x ensures HeldOk(r, x) { assert HeldOk(s, x); }
        forall u ensures OpenOk(r, u) { assert OpenOk(s, u) && TurnOk(s, u); }
      }
    }
  }

  /** A change of a process that no other part looks at */
  lemma EditInv(s: State, q: Pid, p: Proc)
    requires Base(s) && q in s.procs
    requires p == s.procs[q].(tasks := p.tasks, exited := p.exited, code := p.code, idle := p.idle)
    requires p.idle ==> s.procs[q].idle
    requires s.procs[q].closed ==> p.exited
    ensures Base(s.(procs := s.procs[q := p])) && (Gate(s) ==> Gate(s.(procs := s.procs[q := p])))
  {
    var r := s.(procs := s.procs[q := p]);
    forall k ensures LiveOk(r, k) { assert LiveOk(s, k); }
    forall x ensures ProcOk(r, x) { assert ProcOk(s, x); }
    forall t ensures TurnOk(r, t) { assert TurnOk(s, t); }
    forall k ensures StandOk(r, k) { assert StandOk(s, k); }
    if Gate(s) {
      forall x ensures HeldOk(r, x) { assert HeldOk(s, x); }
      forall t ensures OpenOk(r, t) { assert OpenOk(s, t); }
    }
  }

  lemma LineInv(s: State, q: Pid, ev: Event)
    requires Base(s) && q in s.procs && s.procs[q].serve
    ensures Base(ServeLine(s, q, ev)) && (Gate(s) ==> Gate(ServeLine(s, q, ev)))
    ensures ev.Error? ==> q in ServeLine(s, q, ev).procs && ServeLine(s, q, ev).procs[q].sink == None
    ensures ev.Error? ==> ServeLine(s, q, ev).residents == s.residents
  {
    var p := s.procs[q];
    assert ProcOk(s, q);
    match ev
    case Task(id, started) => EditInv(s, q, p.(tasks := if started then p.tasks + {id} else p.tasks - {id}));
    case Other =>
    case _ =>
      if p.sink.Some? {
        FinishInv(s, p.sink.value, if ev.Reply? then Replied else Failed);
      }
  }

  lemma ErrorInv(s: State, q: Pid)
    requires Base(s) && q in s.procs && s.procs[q].serve
    ensures Base(ServeError(s, q)) && (Gate(s) ==> Gate(ServeError(s, q)))
  {
    var key := s.procs[q].key;
    var m := s.(residents := if Stands(s, key, q) then s.residents - {key} else s.residents);
    forall k ensures LiveOk(m, k) { assert LiveOk(s, k); }
    forall x ensures ProcOk(m, x) { assert ProcOk(s, x); }
    forall t ensures TurnOk(m, t) { assert TurnOk(s, t); }
    forall k ensures StandOk(m, k) { assert StandOk(s, k); }
    if Gate(s) {
      forall x ensures HeldOk(m, x) { assert HeldOk(s, x); }
      forall t ensures OpenOk(m, t) { assert OpenOk(s, t); }
    }
    LineInv(m, q, Error);
  }

  /** What closes has failed the turn that waited on it: the same two things in the other order. */
  lemma CloseInv(s: State, q: Pid)
    requires Base(s) && q in s.procs && s.procs[q].serve
    ensures Base(ServeClose(s, q)) && (Gate(s) ==> Gate(ServeClose(s, q)))
    ensures ServeClose(s, q).procs[q].sink == None
  {
    var key := s.procs[q].key;
    DismissInv(s, q);
    var d := Dismiss(s, key, q);
    LineInv(d, q, Error);
    var e := ServeLine(d, q, Error);
    var r := ServeClose(s, q);
    assert ProcOk(d, q) && ProcOk(e, q);
    assert r == e.(procs := e.procs[q := e.procs[q].(exited := true, closed := true)]);
    hide ServeLine, ServeClose, Dismiss;
    ClosedInv(e, q);
  }

  lemma ClosedInv(s: State, q: Pid)
    requires Base(s) && q in s.procs && s.procs[q].sink == None && !Stands(s, s.procs[q].key, q)
    ensures var r := s.(procs := s.procs[q := s.procs[q].(exited := true, closed := true)]);
      Base(r) && (Gate(s) ==> Gate(r))
  {
    var r := s.(procs := s.procs[q := s.procs[q].(exited := true, closed := true)]);
    forall k ensures LiveOk(r, k) { assert LiveOk(s, k); }
    forall x ensures ProcOk(r, x) { assert ProcOk(s, x); }
    forall t ensures TurnOk(r, t) { assert TurnOk(s, t); }
    forall k ensures StandOk(r, k) { assert StandOk(s, k); }
    if Gate(s) {
      forall x ensures HeldOk(r, x) { assert HeldOk(s, x); }
      forall t ensures OpenOk(r, t) { assert OpenOk(s, t); }
    }
  }

  lemma OnceEndsBase(s: State, q: Pid, o: Outcome, close: bool)
    requires Base(s) && q in s.procs && !s.procs[q].serve
    ensures Base(OnceEnds(s, q, o, close))
  {
    var r := OnceEnds(s, q, o, close);
    assert ProcOk(s, q);
    forall k ensures LiveOk(r, k) { assert LiveOk(s, k); }
    forall x ensures ProcOk(r, x) { assert ProcOk(s, x); }
    forall t ensures TurnOk(r, t) { assert TurnOk(s, t); }
    forall k ensures StandOk(r, k) { assert StandOk(s, k); }
  }

  /** The end of a process of one turn keeps the gate exactly when the slot's entry is its own, or there is
      none. */
  lemma OnceEndsInv(s: State, q: Pid, o: Outcome, close: bool)
    requires Inv(s) && q in s.procs && !s.procs[q].serve
    ensures Inv(OnceEnds(s, q, o, close)) <==> (s.procs[q].key in s.live ==> s.live[s.procs[q].key] == q)
  {
    var r := OnceEnds(s, q, o, close);
    var key := s.procs[q].key;
    OnceEndsBase(s, q, o, close);
    assert ProcOk(s, q) && LiveOk(s, key) && HeldOk(s, q);
    if key in s.live && s.live[key] != q {
      assert !HeldOk(r, s.live[key]);
    } else {
      forall x ensures HeldOk(r, x) { assert HeldOk(s, x); }
      forall t ensures OpenOk(r, t) { assert OpenOk(s, t) && TurnOk(s, t); }
    }
  }

  /** Every step keeps the base, and but for a late close the gate. */
  lemma StepInv(s: State, a: Action)
    requires Base(s) && Possible(s, a)
    ensures Base(Step(s, a))
    ensures Gate(s) && InTime(s, a) ==> Gate(Step(s, a))
  {
    match a
    case DoBegin(t, key, fp, p, broken) => BeginInv(s, t, key, fp, p, broken);
    case DoBeginOnce(t, key, p) => BeginOnceInv(s, t, key, p);
    case DoCancel(key) =>
      assert LiveOk(s, key);
      if key in s.live { CancelInv(s, s.live[key]); }
    case DoStall(t) =>
      assert TurnOk(s, t);
      StallInv(s, s.turns[t].pid);
    case DoRetire(key) =>
      assert StandOk(s, key);
      if key in s.residents { RetireEntryInv(s, s.residents[key]); }
    case DoIdle(q) => IdleInv(s, q);
    case DoLine(q, ev) => LineInv(s, q, ev);
    case DoExit(q, code) => EditInv(s, q, s.procs[q].(exited := true, code := code));
    case DoServeError(q) => ErrorInv(s, q);
    case DoServeClose(q) => CloseInv(s, q);
    case DoOnceEnds(q, o, close) =>
      OnceEndsBase(s, q, o, close);
      if Gate(s) { OnceEndsInv(s, q, o, close); }
  }

  lemma StallInv(s: State, q: Pid)
    requires Base(s) && q in s.procs
    ensures var r := Tell(if s.procs[q].serve then Condemn(s, s.procs[q].key, q) else s, q, CancelMsg);
      Base(r) && (Gate(s) ==> Gate(r))
  {
    if s.procs[q].serve {
      CancelInv(s, q);
    } else {
      assert StandOk(s, s.procs[q].key);
      TellInv(s, q, CancelMsg);
    }
  }

  lemma IdleInv(s: State, q: Pid)
    requires Base(s) && q in s.procs
    ensures Base(IdleFires(s, q)) && (Gate(s) ==> Gate(IdleFires(s, q)))
  {
    EditInv(s, q, s.procs[q].(idle := false)) by { assert ProcOk(s, q); }
    RetireEntryInv(s, q);
  }

  lemma {:induction false} ExecInv(s: State, run: seq<Action>)
    requires Base(s) && Legal(s, run)
    ensures Base(Exec(s, run))
    ensures Gate(s) && Punctual(s, run) ==> Gate(Exec(s, run))
    decreases |run|
  {
    if run != [] {
      StepInv(s, run[0]);
      ExecInv(Step(s, run[0]), run[1..]);
    }
  }

  lemma BootInv()
    ensures Inv(BOOT)
  {
  }

  ghost predicate Reachable(s: State) {
    exists run :: Legal(BOOT, run) && Exec(BOOT, run) == s
  }

  /** Reached without a late close */
  ghost predicate ReachableInTime(s: State) {
    exists run :: Legal(BOOT, run) && Punctual(BOOT, run) && Exec(BOOT, run) == s
  }

  lemma ReachableInv(s: State)
    ensures Reachable(s) ==> Base(s)
    ensures ReachableInTime(s) ==> Reachable(s) && Inv(s)
  {
    BootInv();
    forall run | Legal(BOOT, run) && Exec(BOOT, run) == s ensures Base(s) && (Punctual(BOOT, run) ==> Gate(s)) {
      ExecInv(BOOT, run);
    }
  }
}
