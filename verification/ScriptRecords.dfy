/** Which records a worker keeps, when it goes, and with what its calls are rejected. */
module ScriptRecords {
  import opened Options
  import opened ScriptRuns

  // ---------------------------------------------------------------- what a sweep keeps

  /** Returned at most an hour ago */
  predicate Recent(x: Run, now: int) {
    x.done.Some? && now - x.done.value <= 3600000
  }

  /** The recent records of runs started after the n-th */
  ghost function Later(runs: seq<Run>, now: int, n: int): set<Run> {
    set x | x in runs && Recent(x, now) && x.n > n
  }

  function FinishedAfter(runs: seq<Run>, n: int): nat {
    if runs == [] then 0 else (if runs[0].done.Some? && runs[0].n > n then 1 else 0) + FinishedAfter(runs[1..], n)
  }

  ghost function DoneAfter(runs: seq<Run>, n: int): set<Run> {
    set x | x in runs && x.done.Some? && x.n > n
  }

  lemma DoneAfterMore(x: Run, tail: seq<Run>, n: int)
    ensures DoneAfter([x] + tail, n) == DoneAfter(tail, n) + if x.done.Some? && x.n > n then {x} else {}
    ensures x in DoneAfter(tail, n) ==> x in tail
    ensures DoneAfter([], n) == {}
  {
  }

  lemma {:induction false} CountLater(runs: seq<Run>, n: int)
    requires Ascending(runs)
    ensures |DoneAfter(runs, n)| == FinishedAfter(runs, n)
  {
    if runs == [] {
      DoneAfterMore(Run(0, None), [], n);
    } else {
      var x, tail := runs[0], runs[1..];
      HeadLeast(runs);
      CountLater(tail, n);
      DoneAfterMore(x, tail, n);
      assert runs == [x] + tail;
      hide DoneAfter, Ascending;
    }
  }

  lemma {:induction false} AllAfter(runs: seq<Run>, n: int)
    requires forall x :: x in runs ==> x.n > n
    ensures FinishedAfter(runs, n) == Finished(runs)
  {
    if runs != [] {
      AllAfter(runs[1..], n);
    }
  }

  /** A finished record is dropped exactly when fewer than the finished records left over come after it. */
  lemma {:induction false} DropRank(runs: seq<Run>, k: nat, x: Run)
    requires Ascending(runs) && x in runs && x.done.Some?
    ensures x in DropFinished(runs, k) <==> k + FinishedAfter(runs, x.n) < Finished(runs)
  {
    HeadLeast(runs);
    var rest := runs[1..];
    assert runs == [runs[0]] + rest;
    if x == runs[0] {
      AllAfter(rest, x.n);
      if k > 0 {
        DropIs(rest, k - 1);
        assert x !in rest;
      }
    } else if k == 0 {
      DropRank(rest, 0, x);
    } else {
      DropRank(rest, if runs[0].done.Some? then k - 1 else k, x);
    }
  }

  lemma {:induction false} LaterIs(runs: seq<Run>, now: int, n: int)
    requires Ascending(runs)
    ensures |Later(runs, now, n)| == FinishedAfter(Unexpired(runs, now), n)
  {
    UnexpiredIs(runs, now);
    var still := Unexpired(runs, now);
    assert Later(runs, now, n) == DoneAfter(still, n);
    CountLater(still, n);
  }

  /** A sweep keeps a finished record exactly when it is recent and fewer than 256 recent ones were started
      after it. So of the recent ones it keeps all, or 256. */
  lemma SweepExact(runs: seq<Run>, now: int, x: Run)
    requires Ascending(runs)
    ensures x.done.Some? ==> (x in Swept(runs, now) <==> x in runs && Recent(x, now) && |Later(runs, now, x.n)| < 256)
    ensures x.done.None? ==> (x in Swept(runs, now) <==> x in runs)
    ensures Finished(Swept(runs, now)) == if |Later(runs, now, -1)| <= 256 then |Later(runs, now, -1)| else 256
  {
    UnexpiredIs(runs, now);
    SweepKeeps(runs, now);
    var still := Unexpired(runs, now);
    DropIs(still, Excess(still));
    LaterIs(runs, now, -1);
    AllAfter(still, -1);
    if x.done.Some? && x in still {
      DropRank(still, Excess(still), x);
      LaterIs(runs, now, x.n);
    }
  }

  /** The records once a run has started: the new one, those in flight, and the finished ones a sweep keeps. */
  lemma StartRecords(w: Worker, now: int, x: Run)
    requires Inv(w) && w.dead.None?
    ensures var r := Step(w, DoRun(now));
      x in r.runs <==> x == Run(w.next + 1, None) || (x in w.runs && (x.done.None? || (Recent(x, now) && |Later(w.runs, now, x.n)| < 256)))
  {
    SweepExact(w.runs, now, x);
  }

  /** A message leaves its run a record with the time of its return, or takes the worker down with it; other
      records stay as they are. */
  lemma ReturnRecords(w: Worker, n: nat, o: Outcome, now: int, x: Run)
    requires Inv(w) && Pending(w, RunCall(n))
    ensures var r := Step(w, DoDone(RunCall(n), o, now));
      r.dead.None? ==> (x in r.runs <==> x == Run(n, Some(now)) || (x in w.runs && x.n != n))
  {
    MarkedIs(w.runs, n, now, x);
  }

  lemma {:induction false} MarkedIs(runs: seq<Run>, n: nat, now: int, x: Run)
    requires Ascending(runs) && Run(n, None) in runs
    ensures x in MarkDone(runs, n, now) <==> x == Run(n, Some(now)) || (x in runs && x.n != n)
  {
    HeadLeast(runs);
    var rest := runs[1..];
    assert runs == [runs[0]] + rest;
    if runs[0] == Run(n, None) {
      MarkNone(rest, n, now);
    } else {
      MarkedIs(rest, n, now, x);
      assert Run(n, None) in rest;
    }
  }

  // ---------------------------------------------------------------- doors stay open

  /** No sweep of the run comes over an hour after this time. */
  predicate Within(run: seq<Event>, done: int) {
    forall i :: 0 <= i < |run| && run[i].DoRun? ==> run[i].now - done <= 3600000
  }

  lemma LaterBound(runs: seq<Run>, now: int, n: nat, next: nat)
    requires forall x :: x in runs ==> x.n <= next
    requires Ascending(runs) && n <= next
    ensures |Later(runs, now, n)| <= next - n
  {
    var all := Later(runs, now, n);
    var ids := set x | x in all :: x.n;
    OneEach(runs, all, ids);
    assert ids <= UpTo(n, next);
    Fewer(ids, UpTo(n, next));
  }

  lemma {:induction false} OneEach(runs: seq<Run>, all: set<Run>, ids: set<nat>)
    requires Ascending(runs) && (forall x :: x in all ==> x in runs) && ids == set x | x in all :: x.n
    ensures |ids| == |all|
    decreases |all|
  {
    if all != {} {
      var x :| x in all;
      forall y | y in all && y.n == x.n ensures y == x {
        var i :| 0 <= i < |runs| && runs[i] == x;
        var j :| 0 <= j < |runs| && runs[j] == y;
      }
      OneEach(runs, all - {x}, ids - {x.n});
    } else {
      assert ids == {};
    }
  }

  function UpTo(n: nat, next: nat): (s: set<nat>)
    requires n <= next
    ensures |s| == next - n && forall m :: m in s <==> n < m <= next
    decreases next - n
  {
    if n < next then UpTo(n, next - 1) + {next} else {}
  }

  lemma {:induction false} Fewer(a: set<nat>, b: set<nat>)
    requires a <= b
    ensures |a| <= |b|
    decreases |a|
  {
    if a != {} {
      var x :| x in a;
      Fewer(a - {x}, b - {x});
    }
  }

  /** The record of a run that has returned stays, and its doors with it, over any run of an hour in which
      at most 256 calls start after it and the worker stays up. */
  lemma {:induction false} DoorsOpen(w: Worker, run: seq<Event>, x: Run)
    requires Inv(w) && x in w.runs && x.done.Some? && Within(run, x.done.value)
    requires Exec(w, run).next <= x.n + 256 && Exec(w, run).dead.None?
    ensures x in Exec(w, run).runs
    decreases |run|
  {
    if run != [] {
      var m := Step(w, run[0]);
      StepInv(w, run[0]);
      UpAndNext(m, run[1..]);
      OneDoor(w, run[0], x);
      assert Within(run[1..], x.done.value) by {
        assert forall i :: 0 <= i < |run[1..]| ==> run[1..][i] == run[i + 1];
      }
      DoorsOpen(m, run[1..], x);
    }
  }

  lemma OneDoor(w: Worker, v: Event, x: Run)
    requires Inv(w) && x in w.runs && x.done.Some? && (v.DoRun? ==> v.now - x.done.value <= 3600000)
    requires Step(w, v).dead.None? && Step(w, v).next <= x.n + 256
    ensures x in Step(w, v).runs
  {
    assert w.dead.None?;
    match v
    case DoRun(now) =>
      StartRecords(w, now, x);
      var i :| 0 <= i < |w.runs| && w.runs[i] == x;
      LaterBound(w.runs, now, x.n, w.next);
    case DoDone(c, o, now) =>
      if Pending(w, c) && c.RunCall? {
        ReturnRecords(w, c.n, o, now, x);
        NotBoth(w.runs, x, Run(c.n, None));
      }
    case _ =>
  }

  lemma NotBoth(runs: seq<Run>, x: Run, y: Run)
    requires Ascending(runs) && x in runs && y in runs && x != y
    ensures x.n != y.n
  {
    var i :| 0 <= i < |runs| && runs[i] == x;
    var j :| 0 <= j < |runs| && runs[j] == y;
  }

  lemma {:induction false} UpAndNext(w: Worker, run: seq<Event>)
    ensures w.next <= Exec(w, run).next && (w.dead.Some? ==> Exec(w, run).dead.Some?)
    decreases |run|
  {
    if run != [] {
      UpAndNext(Step(w, run[0]), run[1..]);
    }
  }

  // ---------------------------------------------------------------- when a worker goes

  ghost predicate Quiet(w: Worker) {
    forall c {:trigger Pending(w, c)} :: !Pending(w, c)
  }

  lemma QuietIs(w: Worker)
    requires Inv(w)
    ensures Quiet(w) <==> w.live == 0
  {
    if w.live == 0 {
      NothingPending(w);
    } else {
      var d := Another(w);
    }
  }

  lemma Another(w: Worker) returns (d: Call)
    requires PendingRuns(w.runs) + |w.metas| > 0
    ensures Pending(w, d)
  {
    if w.metas != [] {
      d := MetaCall(w.metas[0]);
    } else {
      SomePending(w.runs);
      var n :| Run(n, None) in w.runs;
      d := RunCall(n);
    }
  }

  lemma {:induction false} SomePending(runs: seq<Run>)
    requires PendingRuns(runs) > 0
    ensures exists n :: Run(n, None) in runs
  {
    if runs[0].done.None? {
      assert Run(runs[0].n, None) in runs;
    } else {
      SomePending(runs[1..]);
      var n :| Run(n, None) in runs[1..];
    }
  }

  /** The step is the return of the only call in flight. */
  ghost predicate LastReturn(w: Worker, v: Event) {
    v.DoDone? && Pending(w, v.c) && forall d {:trigger Pending(w, d)} :: Pending(w, d) ==> d == v.c
  }

  /** A worker goes when it is lost; when it is asked to retire, or asked again, with nothing in flight
      and fifteen minutes after the last run returned; and when it is retiring and its last call, one for
      metadata, comes back that late. At no other step. */
  lemma GoesIff(w: Worker, v: Event)
    requires Inv(w) && w.dead.None?
    ensures Step(w, v).dead.Some? <==>
      || v.DoLost?
      || ((v.DoRetire? || v.DoPoll?) && Quiet(w) && v.now - w.lastDone >= 900000)
      || (w.retiring && LastReturn(w, v) && v.c.MetaCall? && v.now - w.lastDone >= 900000)
  {
    QuietIs(w);
    if v.DoDone? && Pending(w, v.c) {
      LastIs(w, v.c, v.o, v.now);
    }
  }

  lemma LastIs(w: Worker, c: Call, o: Outcome, now: int)
    requires Inv(w) && w.dead.None? && Pending(w, c)
    ensures LastReturn(w, DoDone(c, o, now)) <==> w.live == 1
  {
    var m := Returned(w, c, now);
    ReturnedIs(w, c, now);
    if w.live == 1 {
      NothingPending(m);
    } else {
      var d := Another(m);
      assert Pending(w, d);
    }
  }

  /** The time of the last return moves only with the return of a run. */
  lemma LastDoneIs(w: Worker, v: Event)
    ensures Step(w, v).lastDone == if v.DoDone? && Pending(w, v.c) && v.c.RunCall? then v.now else w.lastDone
  {
  }

  /** The event's clock, where it has one */
  function Clock(v: Event): Option<int> {
    match v
    case DoRun(now) => Some(now)
    case DoDone(_, _, now) => Some(now)
    case DoRetire(now) => Some(now)
    case DoPoll(now) => Some(now)
    case _ => None
  }

  /** The clock of the run stays in the fifteen minutes after a time, and nothing is lost. */
  predicate Grace(run: seq<Event>, at: int) {
    forall i :: 0 <= i < |run| ==> !run[i].DoLost? && (Clock(run[i]).Some? ==> at <= Clock(run[i]).value < at + 900000)
  }

  /** A worker that is not lost stays up for fifteen minutes after any run of its returned. */
  lemma {:induction false} GraceKept(w: Worker, run: seq<Event>, at: int)
    requires Inv(w) && w.dead.None? && at <= w.lastDone && Grace(run, at)
    ensures Exec(w, run).dead.None?
    decreases |run|
  {
    if run != [] {
      StepInv(w, run[0]);
      GoesIff(w, run[0]);
      LastDoneIs(w, run[0]);
      assert Grace(run[1..], at) by {
        assert forall i :: 0 <= i < |run[1..]| ==> run[1..][i] == run[i + 1];
      }
      GraceKept(Step(w, run[0]), run[1..], at);
    }
  }

  lemma ReturnGrace(w: Worker, n: nat, o: Outcome, at: int, run: seq<Event>)
    requires Inv(w) && w.dead.None? && Pending(w, RunCall(n)) && Grace(run, at)
    ensures Exec(Step(w, DoDone(RunCall(n), o, at)), run).dead.None?
  {
    var v := DoDone(RunCall(n), o, at);
    StepInv(w, v);
    GoesIff(w, v);
    LastDoneIs(w, v);
    GraceKept(Step(w, v), run, at);
  }

  // ---------------------------------------------------------------- promises

  /** A call on a live worker is a promise under a new number, in flight; on a dead one it is none. */
  lemma CallIssues(w: Worker, now: int)
    requires Inv(w)
    ensures var r := Step(w, DoRun(now)); var c := RunCall(w.next + 1);
      if w.dead.Some? then r == w else c !in w.issued && r.issued == w.issued + {c} && Pending(r, c) && r.live == w.live + 1 && r.refd
    ensures var r := Step(w, DoMeta); var c := MetaCall(w.next + 1);
      if w.dead.Some? then r == w else c !in w.issued && r.issued == w.issued + {c} && Pending(r, c) && r.live == w.live + 1 && r.refd
  {
    assert Once(w, RunCall(w.next + 1)) && Once(w, MetaCall(w.next + 1));
    assert w.dead.None? ==> Step(w, DoRun(now)).runs[|Step(w, DoRun(now)).runs| - 1] == Run(w.next + 1, None);
    hide Swept;
  }

  /** A loss rejects with its own reason, and nothing is in flight afterwards. */
  lemma LossRejects(w: Worker, e: string)
    requires Inv(w) && w.dead.None?
    ensures var r := Step(w, DoLost(e));
      && w.log <= r.log && (forall i :: |w.log| <= i < |r.log| ==> r.log[i].1 == Gone(e))
      && Quiet(r) && r.dead == Some(e) && r.live == 0
  {
    RejectedWith(w.runs, e);
  }

  lemma {:induction false} RejectedWith(runs: seq<Run>, e: string)
    ensures forall i :: 0 <= i < |RunRejections(runs, e)| ==> RunRejections(runs, e)[i].1 == Gone(e)
  {
    if runs != [] {
      RejectedWith(runs[1..], e);
    }
  }
}
