/** One worker of runner/runtime/script-pool.ts: its calls in flight and the settlements it made. */
module ScriptRuns {
  import opened Options

  const KEEP_RUNS: nat := 256
  const KEEP_RUN_MS: int := 3600000
  const RETIRE_GRACE_MS: int := 900000

  /** Runs and metas are numbered by one counter. */
  datatype Call = RunCall(n: nat) | MetaCall(n: nat)

  datatype Outcome = Value(v: string) | Thrown(error: string) | Gone(error: string)

  /** A run's record; `done` is when it returned. */
  datatype Run = Run(n: nat, done: Option<int>)

  /** `runs` and `metas` in insertion order. `issued` and `log` are the promises handed out and the
      settlements made, in order. */
  datatype Worker = Worker(
    next: nat, runs: seq<Run>, metas: seq<nat>, live: int, dead: Option<string>,
    retiring: bool, lastDone: int, refd: bool, issued: set<Call>, log: seq<(Call, Outcome)>)

  const FRESH := Worker(0, [], [], 0, None, false, 0, false, {}, [])

  // ---------------------------------------------------------------- records

  predicate Pending(w: Worker, c: Call) {
    match c
    case RunCall(n) => Run(n, None) in w.runs
    case MetaCall(n) => n in w.metas
  }

  function PendingRuns(runs: seq<Run>): nat {
    if runs == [] then 0 else (if runs[0].done.None? then 1 else 0) + PendingRuns(runs[1..])
  }

  function Finished(runs: seq<Run>): nat {
    if runs == [] then 0 else (if runs[0].done.Some? then 1 else 0) + Finished(runs[1..])
  }

  function MarkDone(runs: seq<Run>, n: nat, now: int): (r: seq<Run>)
    ensures |r| == |runs|
  {
    if runs == [] then [] else [if runs[0] == Run(n, None) then Run(n, Some(now)) else runs[0]] + MarkDone(runs[1..], n, now)
  }

  function Without(metas: seq<nat>, n: nat): seq<nat> {
    if metas == [] then [] else if metas[0] == n then metas[1..] else [metas[0]] + Without(metas[1..], n)
  }

  /** Records of runs that returned over an hour ago go. */
  function Unexpired(runs: seq<Run>, now: int): seq<Run> {
    if runs == [] then []
    else if runs[0].done.Some? && now - runs[0].done.value > KEEP_RUN_MS then Unexpired(runs[1..], now)
    else [runs[0]] + Unexpired(runs[1..], now)
  }

  /** The first k finished records go. */
  function DropFinished(runs: seq<Run>, k: nat): seq<Run> {
    if runs == [] || k == 0 then runs
    else if runs[0].done.Some? then DropFinished(runs[1..], k - 1)
    else [runs[0]] + DropFinished(runs[1..], k)
  }

  function Excess(runs: seq<Run>): nat {
    if Finished(runs) > KEEP_RUNS then Finished(runs) - KEEP_RUNS else 0
  }

  /** sweep */
  function Swept(runs: seq<Run>, now: int): seq<Run> {
    var still := Unexpired(runs, now);
    DropFinished(still, Excess(still))
  }

  // ---------------------------------------------------------------- steps

  function Hold(w: Worker): Worker {
    w.(live := w.live + 1, refd := if w.live == 0 then true else w.refd)
  }

  function RunRejections(runs: seq<Run>, e: string): seq<(Call, Outcome)> {
    if runs == [] then []
    else (if runs[0].done.None? then [(RunCall(runs[0].n), Gone(e))] else []) + RunRejections(runs[1..], e)
  }

  function MetaRejections(metas: seq<nat>, e: string): (r: seq<(Call, Outcome)>)
    ensures |r| == |metas| && forall i :: 0 <= i < |r| ==> r[i] == (MetaCall(metas[i]), Gone(e))
  {
    seq(|metas|, i requires 0 <= i < |metas| => (MetaCall(metas[i]), Gone(e)))
  }

  /** The worker is gone: everything in flight is rejected. */
  function Collapse(w: Worker, e: string): Worker {
    if w.dead.Some? then w
    else w.(dead := Some(e), runs := [], metas := [], live := 0,
            log := w.log + RunRejections(w.runs, e) + MetaRejections(w.metas, e))
  }

  const RETIRED := "retired"

  function RetireIfQuiet(w: Worker, now: int): Worker {
    if w.live > 0 || now - w.lastDone < RETIRE_GRACE_MS then w else Collapse(w, RETIRED)
  }

  function Release(w: Worker, now: int): Worker {
    var r := w.(live := w.live - 1, refd := if w.live - 1 == 0 then false else w.refd);
    if w.retiring then RetireIfQuiet(r, now) else r
  }

  /** run; a dead worker hands out a promise that is already rejected. */
  function Start(w: Worker, now: int): Worker {
    if w.dead.Some? then w
    else
      var n := w.next + 1;
      Hold(w.(next := n, runs := Swept(w.runs, now) + [Run(n, None)], issued := w.issued + {RunCall(n)}))
  }

  /** meta */
  function StartMeta(w: Worker): Worker {
    if w.dead.Some? then w
    else
      var n := w.next + 1;
      Hold(w.(next := n, metas := w.metas + [n], issued := w.issued + {MetaCall(n)}))
  }

  /** The records of a worker once a pending call has returned. */
  function Returned(w: Worker, c: Call, now: int): Worker {
    match c
    case MetaCall(n) => w.(metas := Without(w.metas, n))
    case RunCall(n) => w.(runs := MarkDone(w.runs, n, now), lastDone := now)
  }

  /** A `done` message: the hold is let go, which may retire the worker, before the promise settles. */
  function Receive(w: Worker, c: Call, o: Outcome, now: int): Worker {
    if !Pending(w, c) then w
    else
      var r := Release(Returned(w, c, now), now);
      r.(log := r.log + [(c, o)])
  }

  /** retireScriptWorkers, for one worker */
  function Retire(w: Worker, now: int): Worker {
    RetireIfQuiet(w.(retiring := true), now)
  }

  datatype Event =
    | DoRun(now: int)
    | DoMeta
    | DoDone(c: Call, o: Outcome, now: int)  // a message, whatever its id
    | DoLost(e: string)                      // error, exit, a run's deadline, the retirement cap, shutdown
    | DoRetire(now: int)
    | DoPoll(now: int)

  function Step(w: Worker, v: Event): Worker {
    match v
    case DoRun(now) => Start(w, now)
    case DoMeta => StartMeta(w)
    case DoDone(c, o, now) => Receive(w, c, o, now)
    case DoLost(e) => Collapse(w, e)
    case DoRetire(now) => Retire(w, now)
    case DoPoll(now) => RetireIfQuiet(w, now)
  }

  function Exec(w: Worker, run: seq<Event>): Worker
    decreases |run|
  {
    if run == [] then w else Exec(Step(w, run[0]), run[1..])
  }

  // ---------------------------------------------------------------- the invariant

  function Count(log: seq<(Call, Outcome)>, c: Call): nat {
    if log == [] then 0 else Count(log[..|log| - 1], c) + (if log[|log| - 1].0 == c then 1 else 0)
  }

  ghost predicate Numbered(w: Worker) {
    && (forall i :: 0 <= i < |w.runs| ==> w.runs[i].n <= w.next)
    && (forall i, j :: 0 <= i < j < |w.runs| ==> w.runs[i].n < w.runs[j].n)
    && (forall i :: 0 <= i < |w.metas| ==> w.metas[i] <= w.next)
    && (forall i, j :: 0 <= i < j < |w.metas| ==> w.metas[i] < w.metas[j])
  }

  /** A promise is settled once when its call is no longer pending, and never before. */
  ghost predicate Once(w: Worker, c: Call) {
    && (Pending(w, c) ==> c in w.issued)
    && (c in w.issued ==> c.n <= w.next)
    && Count(w.log, c) == if c in w.issued && !Pending(w, c) then 1 else 0
  }

  ghost predicate Inv(w: Worker) {
    && Numbered(w)
    && w.live == PendingRuns(w.runs) + |w.metas|
    && (w.dead.Some? ==> w.runs == [] && w.metas == [])
    && (w.dead.None? ==> (w.refd <==> w.live > 0))
    && forall c {:trigger Once(w, c)} :: Once(w, c)
  }

  // ---------------------------------------------------------------- lemmas on records

  lemma {:induction false} PendingSome(runs: seq<Run>, r: Run)
    requires r in runs && r.done.None?
    ensures PendingRuns(runs) > 0
  {
    if runs[0] != r {
      PendingSome(runs[1..], r);
    }
  }

  lemma {:induction false} NonePending(runs: seq<Run>, e: string)
    requires PendingRuns(runs) == 0
    ensures RunRejections(runs, e) == []
  {
    if runs != [] {
      NonePending(runs[1..], e);
    }
  }

  lemma {:induction false} PendingAppend(a: seq<Run>, b: seq<Run>)
    ensures PendingRuns(a + b) == PendingRuns(a) + PendingRuns(b)
  {
    if a == [] {
      assert a + b == b;
    } else {
      assert (a + b)[1..] == a[1..] + b;
      PendingAppend(a[1..], b);
    }
  }

  ghost predicate Ascending(runs: seq<Run>) {
    forall i, j :: 0 <= i < j < |runs| ==> runs[i].n < runs[j].n
  }

  lemma {:induction false} MarkDoneIs(runs: seq<Run>, n: nat, now: int)
    requires Ascending(runs) && Run(n, None) in runs
    ensures var r := MarkDone(runs, n, now);
      && PendingRuns(r) == PendingRuns(runs) - 1
      && (forall i :: 0 <= i < |r| ==> r[i].n == runs[i].n)
      && (forall m :: Run(m, None) in r <==> m != n && Run(m, None) in runs)
  {
    var rest := runs[1..];
    var r := MarkDone(runs, n, now);
    assert runs == [runs[0]] + rest && r == [r[0]] + MarkDone(rest, n, now);
    if runs[0] == Run(n, None) {
      MarkNone(rest, n, now);
    } else {
      MarkDoneIs(rest, n, now);
    }
  }

  lemma {:induction false} MarkNone(runs: seq<Run>, n: nat, now: int)
    requires Run(n, None) !in runs
    ensures MarkDone(runs, n, now) == runs
  {
    if runs != [] {
      MarkNone(runs[1..], n, now);
    }
  }

  lemma {:induction false} WithoutIs(metas: seq<nat>, n: nat)
    requires n in metas && forall i, j :: 0 <= i < j < |metas| ==> metas[i] < metas[j]
    ensures var r := Without(metas, n);
      && |r| == |metas| - 1
      && (forall m :: m in r <==> m != n && m in metas)
      && (forall i, j :: 0 <= i < j < |r| ==> r[i] < r[j])
  {
    assert metas == [metas[0]] + metas[1..];
    if metas[0] != n {
      WithoutIs(metas[1..], n);
      var rest := Without(metas[1..], n);
      forall j | 0 <= j < |rest| ensures metas[0] < rest[j] {
        assert rest[j] in metas[1..];
      }
    }
  }

  // ---------------------------------------------------------------- sweep

  /** The records that stay are in order, every pending one among them, at most 256 finished ones,
      none of them over an hour old. */
  lemma SweepKeeps(runs: seq<Run>, now: int)
    requires Ascending(runs)
    ensures var r := Swept(runs, now);
      && Ascending(r) && (forall x :: x in r ==> x in runs)
      && (forall x :: x in runs && x.done.None? ==> x in r)
      && PendingRuns(r) == PendingRuns(runs)
      && Finished(r) <= KEEP_RUNS
      && (forall x :: x in r && x.done.Some? ==> now - x.done.value <= KEEP_RUN_MS)
  {
    UnexpiredIs(runs, now);
    var still := Unexpired(runs, now);
    DropIs(still, Excess(still));
  }

  lemma {:induction false} UnexpiredIs(runs: seq<Run>, now: int)
    requires Ascending(runs)
    ensures var r := Unexpired(runs, now);
      && Ascending(r) && (forall x :: x in r <==> x in runs && (x.done.None? || now - x.done.value <= KEEP_RUN_MS))
      && PendingRuns(r) == PendingRuns(runs)
  {
    if runs != [] {
      HeadLeast(runs);
      UnexpiredIs(runs[1..], now);
      var rest := Unexpired(runs[1..], now);
      ConsIs(runs[0], rest);
      ConsIs(runs[0], runs[1..]);
      assert runs == [runs[0]] + runs[1..];
      hide Ascending;
    }
  }

  lemma ConsIs(r: Run, rest: seq<Run>)
    ensures forall x :: x in [r] + rest <==> x == r || x in rest
    ensures Ascending(rest) && (forall x :: x in rest ==> r.n < x.n) ==> Ascending([r] + rest)
    ensures PendingRuns([r] + rest) == PendingRuns(rest) + if r.done.None? then 1 else 0
  {
  }

  lemma HeadLeast(runs: seq<Run>)
    requires Ascending(runs) && runs != []
    ensures Ascending(runs[1..]) && forall x :: x in runs[1..] ==> runs[0].n < x.n
  {
  }

  lemma {:induction false} DropIs(runs: seq<Run>, k: nat)
    requires Ascending(runs)
    ensures var r := DropFinished(runs, k);
      && Ascending(r) && (forall x :: x in r ==> x in runs)
      && (forall x :: x in runs && x.done.None? ==> x in r)
      && PendingRuns(r) == PendingRuns(runs)
      && Finished(r) == if k <= Finished(runs) then Finished(runs) - k else 0
  {
    if runs != [] {
      assert runs == [runs[0]] + runs[1..];
      HeadLeast(runs);
      DropIs(runs[1..], if runs[0].done.Some? && k > 0 then k - 1 else k);
    }
  }

  /** Only the oldest finished records go to make room: every one that is dropped was started before
      every finished one that stays. */
  lemma {:induction false} OldestGo(runs: seq<Run>, k: nat, x: Run, y: Run)
    requires Ascending(runs) && k > 0 && x in runs && x !in DropFinished(runs, k) && y in DropFinished(runs, k) && y.done.Some?
    ensures x.n < y.n
  {
    HeadLeast(runs);
    var rest := runs[1..];
    Behind(runs, x);
    if runs[0].done.Some? {
      DropIs(rest, k - 1);
      assert k == 1 ==> DropFinished(rest, k - 1) == rest;
      hide DropFinished, Ascending;
      if x != runs[0] && k > 1 {
        OldestGo(rest, k - 1, x, y);
      }
    } else {
      Behind(DropFinished(runs, k), y);
      hide Ascending;
      OldestGo(rest, k, x, y);
    }
  }

  lemma Behind<T>(s: seq<T>, x: T)
    requires x in s
    ensures x == s[0] || x in s[1..]
  {
  }

  // ---------------------------------------------------------------- settlements

  lemma {:induction false} CountAppend(a: seq<(Call, Outcome)>, b: seq<(Call, Outcome)>, c: Call)
    ensures Count(a + b, c) == Count(a, c) + Count(b, c)
  {
    if b == [] {
      assert a + b == a;
    } else {
      assert (a + b)[..|a + b| - 1] == a + b[..|b| - 1];
      CountAppend(a, b[..|b| - 1], c);
    }
  }

  lemma CountNone(c: Call)
    ensures Count([], c) == 0
  {
  }

  lemma CountOne(log: seq<(Call, Outcome)>, c: Call, o: Outcome, d: Call)
    ensures Count(log + [(c, o)], d) == Count(log, d) + if c == d then 1 else 0
  {
    assert (log + [(c, o)])[..|log|] == log;
  }

  lemma {:induction false} RunRejectionsCount(runs: seq<Run>, e: string, c: Call)
    requires Ascending(runs)
    ensures Count(RunRejections(runs, e), c) == if c.RunCall? && Run(c.n, None) in runs then 1 else 0
  {
    if runs != [] {
      HeadLeast(runs);
      RunRejectionsCount(runs[1..], e, c);
      assert runs == [runs[0]] + runs[1..];
      CountAppend(if runs[0].done.None? then [(RunCall(runs[0].n), Gone(e))] else [], RunRejections(runs[1..], e), c);
      CountOne([], RunCall(runs[0].n), Gone(e), c);
      assert [] + [(RunCall(runs[0].n), Gone(e))] == [(RunCall(runs[0].n), Gone(e))];
    }
  }

  lemma {:induction false} MetaRejectionsCount(metas: seq<nat>, e: string, c: Call)
    requires forall i, j :: 0 <= i < j < |metas| ==> metas[i] < metas[j]
    ensures Count(MetaRejections(metas, e), c) == if c.MetaCall? && c.n in metas then 1 else 0
  {
    CountNone(c);
    hide Count;
    if metas != [] {
      var init, last := metas[..|metas| - 1], metas[|metas| - 1];
      MetaRejectionsCount(init, e, c);
      assert metas == init + [last] && last !in init;
      assert MetaRejections(metas, e) == MetaRejections(init, e) + [(MetaCall(last), Gone(e))];
      hide MetaRejections;
      CountOne(MetaRejections(init, e), MetaCall(last), Gone(e), c);
    }
  }

  // ---------------------------------------------------------------- every step keeps the invariant

  lemma CollapseInv(w: Worker, e: string)
    requires Inv(w)
    ensures Inv(Collapse(w, e))
  {
    var r := Collapse(w, e);
    if w.dead.None? {
      forall c ensures Once(r, c) {
        assert Once(w, c);
        CountAppend(w.log + RunRejections(w.runs, e), MetaRejections(w.metas, e), c);
        CountAppend(w.log, RunRejections(w.runs, e), c);
        RunRejectionsCount(w.runs, e, c);
        MetaRejectionsCount(w.metas, e, c);
      }
    }
  }

  lemma StartInv(w: Worker, now: int)
    requires Inv(w)
    ensures Inv(Start(w, now))
  {
    if w.dead.None? {
      var r := Start(w, now);
      AddedRun(w, now);
      hide Swept, Numbered, PendingRuns;
      forall c ensures Once(r, c) {
        assert Once(w, c);
        assert c.RunCall? ==> (Run(c.n, None) in r.runs <==> c.n == w.next + 1 || Run(c.n, None) in w.runs);
      }
    }
  }

  lemma AddedRun(w: Worker, now: int)
    requires Numbered(w) && w.dead.None?
    ensures var r := Start(w, now);
      && Numbered(r) && PendingRuns(r.runs) == PendingRuns(w.runs) + 1
      && forall n :: Run(n, None) in r.runs <==> n == w.next + 1 || Run(n, None) in w.runs
  {
    SweepKeeps(w.runs, now);
    var kept := Swept(w.runs, now);
    hide Swept;
    PendingAppend(kept, [Run(w.next + 1, None)]);
    assert PendingRuns([Run(w.next + 1, None)]) == 1;
    forall i | 0 <= i < |kept| ensures kept[i].n <= w.next {
      assert kept[i] in w.runs;
    }
  }

  lemma StartMetaInv(w: Worker)
    requires Inv(w)
    ensures Inv(StartMeta(w))
  {
    if w.dead.None? {
      var r := StartMeta(w);
      forall c ensures Once(r, c) { assert Once(w, c); }
    }
  }

  /** Nothing in flight, so a quiet retirement rejects nobody. */
  lemma QuietRejectsNobody(w: Worker, now: int)
    requires w.live == PendingRuns(w.runs) + |w.metas|
    ensures RetireIfQuiet(w, now).log == w.log
  {
    if w.live <= 0 {
      NonePending(w.runs, RETIRED);
    }
  }

  lemma ReturnedIs(w: Worker, c: Call, now: int)
    requires Inv(w) && Pending(w, c)
    ensures var m := Returned(w, c, now);
      && Numbered(m) && w.live - 1 == PendingRuns(m.runs) + |m.metas|
      && forall d :: Pending(m, d) <==> d != c && Pending(w, d)
  {
    match c
    case MetaCall(n) =>
      WithoutIs(w.metas, n);
      var left := Without(w.metas, n);
      forall i | 0 <= i < |left| ensures left[i] <= w.next {
        assert left[i] in w.metas;
      }
    case RunCall(n) => MarkDoneIs(w.runs, n, now);
  }

  lemma NothingPending(w: Worker)
    requires PendingRuns(w.runs) + |w.metas| == 0
    ensures forall c :: !Pending(w, c)
  {
    forall c: Call | c.RunCall? && Run(c.n, None) in w.runs ensures false {
      PendingSome(w.runs, Run(c.n, None));
    }
  }

  /** The hold let go, and the worker retired if that left it quiet. */
  lemma ReleasedIs(w: Worker, c: Call, now: int)
    requires Inv(w) && Pending(w, c)
    ensures var r := Release(Returned(w, c, now), now);
      && r.log == w.log && r.issued == w.issued && r.next == w.next && Numbered(r)
      && r.live == PendingRuns(r.runs) + |r.metas|
      && (r.dead.Some? ==> r.runs == [] && r.metas == [])
      && (r.dead.None? ==> (r.refd <==> r.live > 0))
      && forall d :: Pending(r, d) <==> d != c && Pending(w, d)
  {
    var m := Returned(w, c, now);
    ReturnedIs(w, c, now);
    var held := m.(live := m.live - 1, refd := if m.live - 1 == 0 then false else m.refd);
    QuietRejectsNobody(held, now);
    SamePending(m, held);
    if held.live == 0 {
      NothingPending(m);
    }
    Cleared(held.(runs := [], metas := []));
    var r := Release(m, now);
    if r.dead != held.dead {
      SamePending(held.(runs := [], metas := []), r);
    }
    hide Returned, Pending, PendingRuns;
  }

  lemma Cleared(w: Worker)
    requires w.runs == [] && w.metas == []
    ensures PendingRuns(w.runs) == 0 && forall c :: !Pending(w, c)
  {
  }

  lemma SamePending(v: Worker, w: Worker)
    requires v.runs == w.runs && v.metas == w.metas
    ensures forall c :: Pending(v, c) <==> Pending(w, c)
  {
  }

  lemma ReceiveInv(w: Worker, c: Call, o: Outcome, now: int)
    requires Inv(w)
    ensures Inv(Receive(w, c, o, now))
    ensures Receive(w, c, o, now).log == if Pending(w, c) then w.log + [(c, o)] else w.log
  {
    if Pending(w, c) {
      ReleasedIs(w, c, now);
      assert forall d: Call {:trigger Once(w, d)} :: Once(w, d);
      hide Inv, Release, PendingRuns, Numbered, Count;
      var released := Release(Returned(w, c, now), now);
      var r := Receive(w, c, o, now);
      assert r == released.(log := released.log + [(c, o)]);
      Settled(w, released, c, o);
      assert Inv(r) by {
        SameRecords(released, r);
      }
    }
  }

  lemma Settled(w: Worker, released: Worker, c: Call, o: Outcome)
    requires forall d: Call {:trigger Once(w, d)} :: Once(w, d)
    requires Pending(w, c) && released.log == w.log && released.issued == w.issued && released.next == w.next
    requires forall d :: Pending(released, d) <==> d != c && Pending(w, d)
    ensures forall d: Call {:trigger Once(released.(log := released.log + [(c, o)]), d)} :: Once(released.(log := released.log + [(c, o)]), d)
  {
    var r := released.(log := released.log + [(c, o)]);
    assert Once(w, c);
    forall d: Call ensures Once(r, d) {
      assert Once(w, d);
      CountOne(w.log, c, o, d);
      assert Pending(r, d) <==> Pending(released, d);
    }
  }

  lemma SameRecords(released: Worker, r: Worker)
    requires r == released.(log := r.log) && Numbered(released)
    requires released.live == PendingRuns(released.runs) + |released.metas|
    requires released.dead.Some? ==> released.runs == [] && released.metas == []
    requires released.dead.None? ==> (released.refd <==> released.live > 0)
    requires forall d: Call {:trigger Once(r, d)} :: Once(r, d)
    ensures Inv(r)
  {
  }

  lemma QuietInv(w: Worker, now: int)
    requires Inv(w)
    ensures Inv(RetireIfQuiet(w, now))
  {
    CollapseInv(w, RETIRED);
  }

  lemma RetireInv(w: Worker, now: int)
    requires Inv(w)
    ensures Inv(Retire(w, now))
  {
    var r := w.(retiring := true);
    forall c ensures Once(r, c) { assert Once(w, c); }
    QuietInv(r, now);
  }

  lemma StepInv(w: Worker, v: Event)
    requires Inv(w)
    ensures Inv(Step(w, v))
  {
    match v
    case DoRun(now) => StartInv(w, now);
    case DoMeta => StartMetaInv(w);
    case DoDone(c, o, now) => ReceiveInv(w, c, o, now);
    case DoLost(e) => CollapseInv(w, e);
    case DoRetire(now) => RetireInv(w, now);
    case DoPoll(now) => QuietInv(w, now);
  }

  lemma {:induction false} ExecInv(w: Worker, run: seq<Event>)
    requires Inv(w)
    ensures Inv(Exec(w, run))
    decreases |run|
  {
    if run != [] {
      StepInv(w, run[0]);
      ExecInv(Step(w, run[0]), run[1..]);
    }
  }

  lemma FreshInv()
    ensures Inv(FRESH)
  {
  }

  /** In every run, each promise handed out is settled exactly once or its call is still in flight; a
      dead worker has nothing in flight; and `live` counts what is. */
  lemma ExactlyOnce(run: seq<Event>, c: Call)
    ensures var w := Exec(FRESH, run);
      && Count(w.log, c) <= 1
      && (c in w.issued ==> (Count(w.log, c) == 1 <==> !Pending(w, c)))
      && (c !in w.issued ==> Count(w.log, c) == 0 && !Pending(w, c))
      && (w.dead.Some? ==> !Pending(w, c))
      && w.live == PendingRuns(w.runs) + |w.metas|
      && (w.dead.None? ==> (w.refd <==> w.live > 0))
  {
    FreshInv();
    ExecInv(FRESH, run);
    assert Once(Exec(FRESH, run), c);
  }

  // ---------------------------------------------------------------- who settles what

  /** One more settlement of a message's own call, the rejection of everything in flight, or none. */
  lemma StepSettles(w: Worker, v: Event)
    requires Inv(w)
    ensures w.log <= Step(w, v).log
    ensures v.DoDone? ==> Step(w, v).log == if Pending(w, v.c) then w.log + [(v.c, v.o)] else w.log
    ensures v.DoRun? || v.DoMeta? || v.DoRetire? || v.DoPoll? ==> Step(w, v).log == w.log
    ensures v.DoLost? && w.dead.None? ==>
      forall c :: Count(Step(w, v).log, c) == Count(w.log, c) + if Pending(w, c) then 1 else 0
  {
    match v
    case DoRun(_) =>
    case DoMeta =>
    case DoDone(c, o, now) => ReceiveInv(w, c, o, now);
    case DoRetire(now) => QuietRejectsNobody(w.(retiring := true), now);
    case DoPoll(now) => QuietRejectsNobody(w, now);
    case DoLost(e) =>
      if w.dead.None? {
        forall c ensures Count(Collapse(w, e).log, c) == Count(w.log, c) + if Pending(w, c) then 1 else 0 {
          CountAppend(w.log + RunRejections(w.runs, e), MetaRejections(w.metas, e), c);
          CountAppend(w.log, RunRejections(w.runs, e), c);
          RunRejectionsCount(w.runs, e, c);
          MetaRejectionsCount(w.metas, e, c);
        }
      }
  }

  /** Only a loss takes a worker down with calls in flight. */
  lemma DeathSpares(w: Worker, v: Event, c: Call)
    requires Inv(w) && w.dead.None? && Step(w, v).dead.Some? && !v.DoLost?
    ensures Pending(w, c) ==> v.DoDone? && v.c == c
  {
    StepInv(w, v);
    StepSettles(w, v);
    assert Once(w, c) && Once(Step(w, v), c);
    if v.DoDone? && Pending(w, v.c) {
      CountOne(w.log, v.c, v.o, c);
    }
  }

  /** Death and retirement are for good. */
  lemma StepMonotone(w: Worker, v: Event)
    ensures w.dead.Some? ==> Step(w, v).dead == w.dead
    ensures w.retiring ==> Step(w, v).retiring
  {
  }
}
