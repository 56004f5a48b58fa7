/** The functions of runner/runtime/harness.ts over its maps of live turns and standing processes. Each
    is proved to be one step of `Residents`, so that `ResidentRuns` holds of any run of them. Methods
    change the fields where the source changes its maps, helper by helper. */
module Harness {
  import opened Options
  import opened Residents

  class Sessions {
    var live: map<Key, Pid>
    var residents: map<Key, Pid>
    var procs: map<Pid, Proc>
    var turns: map<Tid, Turn>

    ghost function View(): State
      reads this
    {
      State(live, residents, procs, turns)
    }

    ghost predicate Valid()
      reads this
    {
      Base(View())
    }

    constructor ()
      ensures View() == BOOT && Valid()
    {
      live, residents, procs, turns := map[], map[], map[], map[];
      new;
      BootInv();
    }

    /** A line on a process's stdin */
    method WriteLine(q: Pid, m: Msg)
      requires q in procs
      modifies this`procs
      ensures View() == old(Tell(View(), q, m))
    {
      procs := procs[q := procs[q].(told := procs[q].told + [m])];
    }

    /** The head that retireEntry and condemnResident share */
    method DismissProc(key: Key, q: Pid)
      requires q in procs
      modifies this`residents, this`procs
      ensures View() == old(Dismiss(View(), key, q))
    {
      if key in residents && residents[key] == q {
        residents := residents - {key};
      }
      procs := procs[q := procs[q].(idle := false)];
    }

    /** retireEntry */
    method RetireProc(key: Key, q: Pid)
      requires q in procs
      modifies this`residents, this`procs
      ensures View() == old(RetireEntry(View(), key, q))
      ensures procs.Keys == old(procs.Keys)
    {
      DismissProc(key, q);
      WriteLine(q, Eof);
    }

    /** condemnResident */
    method CondemnProc(key: Key, q: Pid)
      requires q in procs
      modifies this`residents, this`procs
      ensures View() == old(Condemn(View(), key, q))
      ensures procs.Keys == old(procs.Keys)
    {
      if key !in residents || residents[key] != q {
        return;
      }
      DismissProc(key, q);
    }

    /** cancelSession */
    method CancelSession(key: Key) returns (found: bool)
      requires Valid()
      modifies this
      ensures View() == old(Cancel(View(), key)) && Valid()
      ensures found <==> key in old(live)
    {
      assert LiveOk(View(), key);
      StepInv(View(), DoCancel(key));
      hide Base, LiveOk;
      if key !in live {
        return false;
      }
      CondemnProc(key, live[key]);
      WriteLine(live[key], CancelMsg);
      found := true;
    }

    /** retireResident */
    method RetireResident(key: Key) returns (found: bool)
      requires Valid()
      modifies this
      ensures View() == old(Retire(View(), key)) && Valid()
      ensures found <==> key in old(residents)
    {
      assert StandOk(View(), key);
      StepInv(View(), DoRetire(key));
      hide Base, StandOk;
      if key !in residents {
        return false;
      }
      RetireProc(key, residents[key]);
      found := true;
    }

    /** retireResidents and retireAllResidents: every standing process of some slots is told to leave, and
        no other process is told anything. */
    method RetireSlots(keys: set<Key>)
      requires Valid()
      modifies this
      ensures Valid() && live == old(live) && turns == old(turns)
      ensures residents == old(residents) - keys && procs.Keys == old(procs.Keys)
      ensures forall q :: q in procs ==> procs[q].told == old(procs[q].told + if Among(View(), q, keys) then [Eof] else [])
    {
      ghost var s := View();
      LeavingNone(s, keys);
      hide Base, Leaving, Retire;
      var left := residents.Keys * keys;
      while left != {}
        invariant left == residents.Keys * keys
        invariant Valid() && live == old(live) && turns == old(turns)
        invariant residents - keys == old(residents) - keys
        invariant Leaving(s, View(), keys)
        decreases |left|
      {
        var key :| key in left;
        RetireLeaves(s, View(), key, keys);
        var _ := RetireResident(key);
        left := left - {key};
      }
      NoneLeft(s, View(), keys);
    }

    /** acquireResident */
    method AcquireProc(key: Key, fp: string, p: Pid) returns (q: Pid)
      requires p !in procs && (key in residents ==> residents[key] in procs)
      modifies this`residents, this`procs
      ensures View() == old(Acquire(View(), key, fp, p)) && q == old(Acquired(View(), key, fp, p))
      ensures q in procs
    {
      if key in residents && procs[residents[key]].fp == fp && procs[residents[key]].code == None {
        q := residents[key];
        procs := procs[q := procs[q].(idle := false)];
        return;
      }
      if key in residents {
        RetireProc(key, residents[key]);
      }
      q := p;
      procs := procs[p := Proc(key, true, fp, [], None, false, None, false, false, {})];
      residents := residents[key := p];
    }

    /** runSession from its gate, then residentTurn; a busy slot refuses. */
    method ResidentTurn(t: Tid, key: Key, fp: string, p: Pid, broken: bool) returns (busy: bool)
      requires Valid() && t !in turns && p !in procs
      modifies this
      ensures View() == old(Begin(View(), t, key, fp, p, broken)) && Valid()
      ensures busy <==> key in old(live)
    {
      StepInv(View(), DoBegin(t, key, fp, p, broken));
      assert StandOk(View(), key);
      hide Base, StandOk, Acquire, Acquired;
      busy := key in live;
      if !busy {
        var q := AcquireProc(key, fp, p);
        live := live[key := q];
        turns := turns[t := Turn(key, q, None)];
        procs := procs[q := procs[q].(sink := Some(t))];
        if broken {
          FinishTurn(t, Failed);
        } else {
          WriteLine(q, TurnMsg(t));
        }
      }
    }

    /** finish */
    method FinishTurn(t: Tid, o: Outcome)
      requires t in turns && turns[t].pid in procs
      modifies this
      ensures View() == old(Finish(View(), t, o))
    {
      var key, q := turns[t].key, turns[t].pid;
      var p := procs[q].(sink := None);
      if key in live && live[key] == q {
        live := live - {key};
      }
      if key in residents && residents[key] == q && p.code == None {
        p := p.(idle := true);
      }
      procs := procs[q := p];
      turns := turns[t := turns[t].(outcome := Some(o))];
    }

    /** runSession from its gate, on a process of its own */
    method OneShotTurn(t: Tid, key: Key, p: Pid) returns (busy: bool)
      requires Valid() && t !in turns && p !in procs
      modifies this
      ensures View() == old(BeginOnce(View(), t, key, p)) && Valid()
      ensures busy <==> key in old(live)
    {
      BeginOnceInv(View(), t, key, p);
      busy := key in live;
      if !busy {
        procs := procs[p := Proc(key, false, "", [], Some(t), false, None, false, false, {})];
        live := live[key := p];
        turns := turns[t := Turn(key, p, None)];
      }
    }

    /** 'error' and 'close' of such a process */
    method OneShotEnds(q: Pid, o: Outcome, close: bool)
      requires Valid() && Possible(View(), DoOnceEnds(q, o, close))
      modifies this
      ensures View() == old(OnceEnds(View(), q, o, close)) && Valid()
    {
      StepInv(View(), DoOnceEnds(q, o, close));
      hide Base;
      var p := procs[q];
      live := live - {p.key};
      if p.sink.Some? && p.sink.value in turns {
        turns := turns[p.sink.value := turns[p.sink.value].(outcome := Some(o))];
      }
      procs := procs[q := p.(sink := None, exited := p.exited || close, closed := p.closed || close)];
    }

    /** The stall watchdog of a turn that is still open */
    method StallTick(t: Tid)
      requires Valid() && Possible(View(), DoStall(t))
      modifies this
      ensures View() == old(Residents.Stall(View(), t)) && Valid()
    {
      StepInv(View(), DoStall(t));
      hide Base;
      var q := turns[t].pid;
      if procs[q].serve {
        CondemnProc(turns[t].key, q);
      }
      WriteLine(q, CancelMsg);
    }

    /** armIdle's clock */
    method IdleClock(q: Pid)
      requires Valid() && q in procs && procs[q].idle
      modifies this
      ensures View() == old(IdleFires(View(), q)) && Valid()
    {
      IdleInv(View(), q);
      hide Base;
      var p := procs[q];
      if p.key !in residents || residents[p.key] != q {
        procs := procs[q := p.(idle := false)];
      } else if p.tasks == {} {
        RetireProc(p.key, q);
      }
    }

    /** A line of a serving process */
    method OnLine(q: Pid, ev: Event)
      requires Valid() && q in procs && procs[q].serve
      modifies this
      ensures View() == old(ServeLine(View(), q, ev)) && Valid()
    {
      LineInv(View(), q, ev);
      hide Base, Finish;
      Dispatch(q, ev);
    }

    method Dispatch(q: Pid, ev: Event)
      requires q in procs
      modifies this
      ensures View() == old(ServeLine(View(), q, ev))
    {
      var p := procs[q];
      match ev
      case Task(id, started) =>
        procs := procs[q := p.(tasks := if started then p.tasks + {id} else p.tasks - {id})];
      case Other =>
      case _ =>
        if p.sink.Some? && p.sink.value in turns && turns[p.sink.value].pid in procs {
          FinishTurn(p.sink.value, if ev.Reply? then Replied else Failed);
        }
    }

    /** 'error' of a serving process */
    method OnServeError(q: Pid)
      requires Valid() && q in procs && procs[q].serve
      modifies this
      ensures View() == old(ServeError(View(), q)) && Valid()
    {
      ErrorInv(View(), q);
      hide Base, ServeLine;
      var key := procs[q].key;
      if key in residents && residents[key] == q {
        residents := residents - {key};
      }
      Dispatch(q, Error);
    }

    /** 'close' of a serving process */
    method OnServeClose(q: Pid)
      requires Valid() && q in procs && procs[q].serve
      modifies this
      ensures View() == old(ServeClose(View(), q)) && Valid()
    {
      CloseInv(View(), q);
      hide Base, ServeLine;
      DismissProc(procs[q].key, q);
      procs := procs[q := procs[q].(exited := true, closed := true)];
      Dispatch(q, Error);
    }
  }

  /** A process that stands in one of these slots */
  ghost predicate Among(s: State, q: Pid, keys: set<Key>) {
    q in s.procs && s.procs[q].key in keys && Stands(s, s.procs[q].key, q)
  }

  /** Some of the processes that stood in these slots were told to leave, and stand no more. */
  ghost predicate Leaving(s: State, r: State, keys: set<Key>) {
    && r.procs.Keys == s.procs.Keys
    && forall q :: q in s.procs ==>
         && r.procs[q].key == s.procs[q].key
         && (Among(r, q, keys) ==> Among(s, q, keys))
         && r.procs[q].told == s.procs[q].told + if Among(s, q, keys) && !Among(r, q, keys) then [Eof] else []
  }

  lemma RetireLeaves(s: State, m: State, key: Key, keys: set<Key>)
    requires Base(m) && key in m.residents && key in keys && Leaving(s, m, keys)
    ensures var r := Retire(m, key);
      r.residents == m.residents - {key} && r.live == m.live && r.turns == m.turns && Leaving(s, r, keys)
  {
    assert StandOk(m, key);
    var r := Retire(m, key);
    forall q | q in s.procs ensures Among(r, q, keys) <==> Among(m, q, keys) && q != m.residents[key] {
    }
  }

  lemma LeavingNone(s: State, keys: set<Key>)
    ensures Leaving(s, s, keys)
  {
  }

  lemma NoneLeft(s: State, r: State, keys: set<Key>)
    requires Leaving(s, r, keys) && r.residents.Keys * keys == {}
    ensures r.residents - keys == r.residents && r.procs.Keys == s.procs.Keys
    ensures forall q :: q in r.procs ==> r.procs[q].told == s.procs[q].told + if Among(s, q, keys) then [Eof] else []
  {
    assert forall k :: k in r.residents ==> k !in keys by {
      assert forall k :: k in r.residents && k in keys ==> k in r.residents.Keys * keys;
    }
    assert r.residents - keys == r.residents;
    assert forall q :: !Among(r, q, keys);
  }
}
