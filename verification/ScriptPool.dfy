/** The classes of runner/runtime/script-pool.ts: a worker whose handlers change its own fields, each
    proved to be one step of `ScriptRuns`, and the pool of the workers that take new calls. */
module ScriptPool {
  import opened Options
  import opened ScriptRuns

  class PkgWorker {
    const root: string
    const pkg: string
    var next: nat
    var runs: seq<Run>
    var metas: seq<nat>
    var live: int
    var dead: Option<string>
    var retiring: bool
    var lastDone: int
    var refd: bool
    ghost var issued: set<Call>
    ghost var log: seq<(Call, Outcome)>

    ghost function View(): Worker
      reads this
    {
      Worker(next, runs, metas, live, dead, retiring, lastDone, refd, issued, log)
    }

    ghost predicate Valid()
      reads this
    {
      Inv(View())
    }

    constructor (root: string, pkg: string)
      ensures View() == FRESH && Valid()
      ensures this.root == root && this.pkg == pkg
    {
      this.root, this.pkg := root, pkg;
      next, runs, metas, live, dead, retiring, lastDone, refd := 0, [], [], 0, None, false, 0, false;
      issued, log := {}, [];
      new;
      FreshInv();
    }

    /** hold */
    method HoldWorker()
      modifies this`live, this`refd
      ensures View() == old(Hold(View()))
    {
      if live == 0 {
        refd := true;
      }
      live := live + 1;
    }

    /** release */
    method ReleaseWorker(now: int)
      modifies this
      ensures View() == old(Release(View(), now))
    {
      live := live - 1;
      if live == 0 {
        refd := false;
      }
      if retiring {
        var _ := RetireWhenQuiet(now);
      }
    }

    /** retireIfQuiet */
    method RetireWhenQuiet(now: int) returns (gone: bool)
      modifies this
      ensures View() == old(RetireIfQuiet(View(), now))
      ensures gone <==> old(!(live > 0 || now - lastDone < RETIRE_GRACE_MS))
    {
      if live > 0 || now - lastDone < RETIRE_GRACE_MS {
        return false;
      }
      CollapseWorker(RETIRED);
      gone := true;
    }

    /** The promise of a call settles. */
    ghost method Settle(c: Call, o: Outcome)
      modifies this`log
      ensures log == old(log) + [(c, o)]
    {
      log := log + [(c, o)];
    }

    /** collapse */
    method CollapseWorker(e: string)
      modifies this
      ensures View() == old(Collapse(View(), e))
    {
      if dead.Some? {
        return;
      }
      dead := Some(e);
      ghost var was := log;
      var i := 0;
      while i < |runs|
        invariant i <= |runs|
        invariant log == was + RunRejections(runs[..i], e)
        invariant View() == old(View()).(dead := Some(e), log := log)
      {
        RejectionsMore(runs, i, e);
        if runs[i].done.None? {
          assert was + RunRejections(runs[..i], e) + [(RunCall(runs[i].n), Gone(e))]
            == was + (RunRejections(runs[..i], e) + [(RunCall(runs[i].n), Gone(e))]);
          Settle(RunCall(runs[i].n), Gone(e));
        }
        i := i + 1;
      }
      assert runs[..i] == runs;
      ghost var mid := log;
      runs := [];
      i := 0;
      while i < |metas|
        invariant i <= |metas|
        invariant log == mid + MetaRejections(metas[..i], e)
        invariant View() == old(View()).(dead := Some(e), runs := [], log := log)
      {
        assert MetaRejections(metas[..i + 1], e) == MetaRejections(metas[..i], e) + [(MetaCall(metas[i]), Gone(e))];
        Settle(MetaCall(metas[i]), Gone(e));
        i := i + 1;
      }
      assert metas[..i] == metas;
      metas := [];
      live := 0;
    }

    /** sweep: the expired records go, then the oldest finished ones over the limit. */
    method SweepRuns(now: int)
      modifies this`runs
      ensures runs == old(Swept(runs, now))
    {
      var still, finished := Keep(now);
      runs := DropOldest(still, if finished > KEEP_RUNS then finished - KEEP_RUNS else 0);
    }

    method DropOldest(still: seq<Run>, k: nat) returns (kept: seq<Run>)
      ensures kept == DropFinished(still, k)
    {
      kept := [];
      var left: nat := k;
      var i := 0;
      while i < |still|
        invariant i <= |still|
        invariant kept + DropFinished(still[i..], left) == DropFinished(still, k)
      {
        DropRest(still, i, left);
        if still[i].done.Some? && left > 0 {
          left := left - 1;
        } else {
          OneAhead(kept, still[i], DropFinished(still[i + 1..], left));
          kept := kept + [still[i]];
        }
        i := i + 1;
      }
      DropNone(kept, left);
    }

    method Keep(now: int) returns (still: seq<Run>, finished: nat)
      ensures still == Unexpired(runs, now) && finished == Finished(still)
    {
      still, finished := [], 0;
      var i := 0;
      while i < |runs|
        invariant i <= |runs|
        invariant still + Unexpired(runs[i..], now) == Unexpired(runs, now)
        invariant finished == Finished(still)
      {
        assert runs[i..][1..] == runs[i + 1..];
        if runs[i].done.None? || now - runs[i].done.value <= KEEP_RUN_MS {
          FinishedAppend(still, runs[i]);
          assert still + ([runs[i]] + Unexpired(runs[i + 1..], now)) == still + [runs[i]] + Unexpired(runs[i + 1..], now);
          still := still + [runs[i]];
          finished := finished + if runs[i].done.Some? then 1 else 0;
        }
        i := i + 1;
      }
      assert still + [] == still;
    }

    /** run; None is a promise that is rejected at once. */
    method StartRun(now: int) returns (call: Option<Call>)
      requires Valid()
      modifies this
      ensures View() == old(Start(View(), now)) && Valid()
      ensures call == if old(dead.Some?) then None else Some(RunCall(old(next) + 1))
    {
      StartInv(View(), now);
      if dead.Some? {
        return None;
      }
      next := next + 1;
      SweepRuns(now);
      runs := runs + [Run(next, None)];
      issued := issued + {RunCall(next)};
      HoldWorker();
      call := Some(RunCall(next));
    }

    /** meta */
    method StartMetaCall() returns (call: Option<Call>)
      requires Valid()
      modifies this
      ensures View() == old(StartMeta(View())) && Valid()
      ensures call == if old(dead.Some?) then None else Some(MetaCall(old(next) + 1))
    {
      StartMetaInv(View());
      if dead.Some? {
        return None;
      }
      next := next + 1;
      metas := metas + [next];
      issued := issued + {MetaCall(next)};
      HoldWorker();
      call := Some(MetaCall(next));
    }

    /** receive, for a `done` message */
    method ReceiveDone(c: Call, o: Outcome, now: int)
      requires Valid()
      modifies this
      ensures View() == old(Receive(View(), c, o, now)) && Valid()
    {
      ReceiveInv(View(), c, o, now);
      match c {
        case MetaCall(n) =>
          if n !in metas {
            return;
          }
          metas := Without(metas, n);
        case RunCall(n) =>
          if Run(n, None) !in runs {
            return;
          }
          runs := MarkDone(runs, n, now);
          lastDone := now;
      }
      hide Inv;
      ReleaseWorker(now);
      Settle(c, o);
    }

    /** One thing that happens to the worker. */
    method Handle(v: Event)
      requires Valid()
      modifies this
      ensures View() == old(Step(View(), v)) && Valid()
    {
      hide Inv;
      StepInv(View(), v);
      match v
      case DoRun(now) =>
        var _ := StartRun(now);
      case DoMeta =>
        var _ := StartMetaCall();
      case DoDone(c, o, now) =>
        ReceiveDone(c, o, now);
      case DoLost(e) =>
        CollapseWorker(e);
      case DoRetire(now) =>
        retiring := true;
        var _ := RetireWhenQuiet(now);
      case DoPoll(now) =>
        var _ := RetireWhenQuiet(now);
    }
  }

  lemma {:induction false} RejectionsMore(runs: seq<Run>, i: nat, e: string)
    requires i < |runs|
    ensures RunRejections(runs[..i + 1], e)
      == RunRejections(runs[..i], e) + if runs[i].done.None? then [(RunCall(runs[i].n), Gone(e))] else []
  {
    if i == 0 {
      assert runs[..1][1..] == [];
    } else {
      RejectionsMore(runs[1..], i - 1, e);
      assert runs[..i + 1][1..] == runs[1..][..i] && runs[..i][1..] == runs[1..][..i - 1];
    }
  }

  lemma DropRest(still: seq<Run>, i: nat, left: nat)
    requires i < |still|
    ensures DropFinished(still[i..], left)
      == if still[i].done.Some? && left > 0 then DropFinished(still[i + 1..], left - 1)
         else [still[i]] + DropFinished(still[i + 1..], left)
  {
    assert still[i..][1..] == still[i + 1..];
    assert still[i..] == [still[i]] + still[i + 1..];
  }

  lemma DropNone(runs: seq<Run>, left: nat)
    ensures runs + DropFinished([], left) == runs
  {
  }

  lemma OneAhead<T>(a: seq<T>, x: T, b: seq<T>)
    ensures a + ([x] + b) == a + [x] + b
  {
  }

  lemma {:induction false} FinishedAppend(a: seq<Run>, r: Run)
    ensures Finished(a + [r]) == Finished(a) + if r.done.Some? then 1 else 0
  {
    if a == [] {
      assert [] + [r] == [r] && [r][1..] == [];
    } else {
      assert (a + [r])[1..] == a[1..] + [r];
      FinishedAppend(a[1..], r);
    }
  }

  lemma InvLive(w: Worker)
    requires Inv(w)
    ensures w.live == PendingRuns(w.runs) + |w.metas|
  {
  }

  /** The module-level map of workers, one per package root. */
  class Pool {
    var pool: map<string, PkgWorker>
    ghost var workers: set<PkgWorker>  // every worker ever started

    /** No worker in the pool is dead, and a worker outside it takes no new call: it is dead or on its
        way out. */
    ghost predicate Valid()
      reads this, workers
    {
      && (forall r :: r in pool ==> pool[r] in workers && pool[r].root == r && pool[r].dead.None?)
      && (forall w :: w in workers ==> w.Valid())
      && (forall w :: w in workers && w.dead.None? && !w.retiring ==> w.root in pool && pool[w.root] == w)
    }

    constructor ()
      ensures Valid() && pool == map[]
    {
      pool, workers := map[], {};
    }

    /** workerFor: the standing worker of a root, or a new one in the place of one that is retiring. */
    method WorkerFor(root: string, pkg: string) returns (w: PkgWorker)
      requires Valid()
      modifies this
      ensures Valid() && w in workers && old(workers) <= workers && fresh(workers - old(workers))
      ensures w.dead.None? && !w.retiring && w.root == root
      ensures pool == old(pool)[root := w]
      ensures old(root in pool && !pool[root].retiring) ==> w == old(pool)[root]
      ensures old(root !in pool || pool[root].retiring) ==> fresh(w) && w.View() == FRESH && w.pkg == pkg
    {
      hide Inv;
      if root in pool && !pool[root].retiring {
        return pool[root];
      }
      w := new PkgWorker(root, pkg);
      pool := pool[root := w];
      workers := workers + {w};
    }

    /** The callback a worker gets: it leaves the pool when it is the one standing there. */
    method OnGone(w: PkgWorker)
      modifies this`pool
      ensures pool == old(if w.root in pool && pool[w.root] == w then pool - {w.root} else pool)
    {
      if w.root in pool && pool[w.root] == w {
        pool := pool - {w.root};
      }
    }

    /** One thing happens to one worker, in the pool or not. */
    method Deliver(w: PkgWorker, v: Event)
      requires Valid() && w in workers
      modifies this`pool, w
      ensures Valid()
      ensures w.View() == old(Step(w.View(), v))
      ensures pool.Keys <= old(pool.Keys) && forall r :: r in pool ==> pool[r] == old(pool)[r]
      ensures forall r :: r in old(pool) && r !in pool ==> old(pool)[r] == w && w.dead.Some?
    {
      hide Inv, Step;
      StepMonotone(w.View(), v);
      w.Handle(v);
      if w.dead.Some? {
        OnGone(w);
      }
    }

    /** runInWorker: the call is taken by a worker that is neither dead nor retiring. */
    method RunInWorker(root: string, pkg: string, now: int) returns (w: PkgWorker, call: Option<Call>)
      requires Valid()
      modifies this, workers
      ensures Valid() && w in workers && w.root == root
      ensures call.Some? && Pending(w.View(), call.value)
    {
      w := WorkerFor(root, pkg);
      call := StartOn(w, now);
    }

    method StartOn(w: PkgWorker, now: int) returns (call: Option<Call>)
      requires Valid() && w in workers && w.dead.None?
      modifies w
      ensures Valid() && call.Some? && Pending(w.View(), call.value)
    {
      call := w.StartRun(now);
      assert w.runs[|w.runs| - 1] == Run(w.next, None);
      hide Inv, Swept;
    }

    method RetireOne(w: PkgWorker, now: int)
      requires Valid() && w in workers
      modifies this`pool, w
      ensures Valid() && w.retiring && w.log == old(w.log)
      ensures pool.Keys <= old(pool.Keys) && forall r :: r in pool ==> pool[r] == old(pool)[r]
    {
      hide Inv;
      assert w.Valid();
      QuietRejectsNobody(w.View().(retiring := true), now) by {
        InvLive(w.View());
      }
      Deliver(w, DoRetire(now));
    }

    /** Asks a worker of the package to retire, unless it was asked before. */
    method RetireIfOf(w: PkgWorker, pkg: string, now: int) returns (asked: bool)
      requires Valid() && w in workers
      modifies this`pool, w
      ensures Valid() && w.log == old(w.log)
      ensures pool.Values <= old(pool.Values)
      ensures asked == (w.pkg == pkg && !old(w.retiring)) && w.retiring == (old(w.retiring) || asked)
    {
      asked := w.pkg == pkg && !w.retiring;
      if asked {
        RetireOne(w, now);
      }
    }

    /** The loop of retireScriptWorkers */
    method RetireAll(all: set<PkgWorker>, pkg: string, now: int) returns (n: nat)
      requires Valid() && all <= workers
      modifies this`pool, workers
      ensures Valid() && pool.Values <= old(pool.Values)
      ensures forall w :: w in all && w.pkg == pkg ==> w.retiring
      ensures forall w :: w in workers ==> w.log == old(w.log)
      ensures n == |old(set w | w in all && w.pkg == pkg && !w.retiring)|
    {
      hide *;
      n := 0;
      var left := all;
      ghost var asked: set<PkgWorker> := {};
      while left != {}
        invariant left <= all && Valid() && pool.Values <= old(pool.Values)
        invariant forall w :: w in left ==> w.retiring == old(w.retiring)
        invariant forall w :: w in all - left && w.pkg == pkg ==> w.retiring
        invariant forall w :: w in workers ==> w.log == old(w.log)
        invariant forall w :: w in asked <==> w in all && w !in left && w.pkg == pkg && !old(w.retiring)
        invariant n == |asked|
        decreases |left|
      {
        var w :| w in left;
        left := left - {w};
        var due := RetireIfOf(w, pkg, now);
        if due {
          n := n + 1;
          asked := asked + {w};
        }
      }
      assert asked == old(set w | w in all && w.pkg == pkg && !w.retiring);
    }

    /** retireScriptWorkers: every standing worker of the package is retiring, and nobody is rejected. */
    method RetireScriptWorkers(pkg: string, now: int) returns (n: nat)
      requires Valid()
      modifies this`pool, workers
      ensures Valid()
      ensures forall r :: r in pool && pool[r].pkg == pkg ==> pool[r].retiring
      ensures forall w :: w in workers ==> w.log == old(w.log)
      ensures n == |old(set w | w in pool.Values && w.pkg == pkg && !w.retiring)|
    {
      n := RetireAll(pool.Values, pkg, now);
    }
  }
}
