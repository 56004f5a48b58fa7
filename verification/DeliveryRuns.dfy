/** What holds of every run of the steps in `Deliveries`, with crashes anywhere. */
module DeliveryRuns {
  import opened Options
  import opened Deliveries

  predicate WasSent(s: State, id: Id) {
    exists i :: 0 <= i < |s.sent| && s.sent[i].id == id
  }

  /** A record, on disk or read by the sweep, is the promise's own with at most three attempts. */
  ghost predicate RecOk(s: State, id: Id, rec: Rec) {
    id in s.promised && rec.attempts <= MAX_ATTEMPTS && rec == s.promised[id].(attempts := rec.attempts)
  }

  ghost predicate Kept(s: State, id: Id) {
    && (id in s.promised ==> id in s.disk || WasSent(s, id) || id in s.dropped)
    && (id in s.disk ==> RecOk(s, id, s.disk[id]))
    && (id in s.dropped ==> id in s.promised && (s.dropped[id].0 > TTL_MS || s.dropped[id].1 == MAX_ATTEMPTS))
    && (id in s.memory.waiting ==> id in s.promised && s.memory.waiting[id] == s.promised[id].to)
    && (id in s.memory.clearing ==> WasSent(s, id))
  }

  /** The delegation's own line, and later than the promise */
  predicate AnswerTo(rec: Rec, m: Message) {
    m.bot && m.t > rec.since
  }

  ghost predicate SentOk(s: State, d: Delivery) {
    d.id in s.promised && d.to == s.promised[d.id].to && (d.via.BySweep? ==> AnswerTo(s.promised[d.id], d.via.answer))
  }

  ghost predicate StageOk(s: State) {
    match s.memory.stage
    case Next => true
    case Delivering(id, rec, answer) => RecOk(s, id, rec) && rec.attempts < MAX_ATTEMPTS && AnswerTo(rec, answer)
    case Clearing(id) => WasSent(s, id)
  }

  ghost predicate Inv(s: State) {
    && (forall id {:trigger Kept(s, id)} :: Kept(s, id))
    && (forall i :: 0 <= i < |s.sent| ==> SentOk(s, s.sent[i]))
    && (forall i :: 0 <= i < |s.memory.rest| ==> RecOk(s, s.memory.rest[i].0, s.memory.rest[i].1))
    && StageOk(s)
  }

  lemma SentMore(s: State, r: State, d: Delivery)
    requires r.sent == s.sent + [d]
    ensures forall id :: WasSent(r, id) <==> WasSent(s, id) || id == d.id
  {
    forall id ensures WasSent(r, id) <==> WasSent(s, id) || id == d.id {
      if WasSent(s, id) {
        var i :| 0 <= i < |s.sent| && s.sent[i].id == id;
        assert r.sent[i].id == id;
      }
      assert r.sent[|s.sent|] == d;
    }
  }

  lemma SentSame(s: State, r: State)
    requires r.sent == s.sent
    ensures forall id :: WasSent(r, id) <==> WasSent(s, id)
  {
  }

  lemma PromiseInv(s: State, a: Action)
    requires Inv(s) && Possible(s, a) && a.DoPromise?
    ensures Inv(Step(s, a))
  {
    var r := Step(s, a);
    SentSame(s, r);
    forall id ensures Kept(r, id) { assert Kept(s, id) && Kept(s, a.id); }
    forall i | 0 <= i < |r.sent| ensures SentOk(r, r.sent[i]) { assert SentOk(s, s.sent[i]); }
    forall i | 0 <= i < |r.memory.rest| ensures RecOk(r, r.memory.rest[i].0, r.memory.rest[i].1) {
      assert RecOk(s, s.memory.rest[i].0, s.memory.rest[i].1);
    }
  }

  lemma NotifyInv(s: State, id: Id, reached: bool, ok: bool)
    requires Inv(s) && id in s.memory.waiting
    ensures Inv(Notify(s, id, reached, ok))
  {
    var r := Notify(s, id, reached, ok);
    if reached || ok {
      SentMore(s, r, Delivery(id, s.memory.waiting[id], Direct));
    } else {
      SentSame(s, r);
    }
    assert Kept(s, id);
    hide WasSent;
    forall x ensures Kept(r, x) { assert Kept(s, x); }
    forall i | 0 <= i < |r.sent| ensures SentOk(r, r.sent[i]) { assert i < |s.sent| ==> SentOk(s, s.sent[i]); }
    forall i | 0 <= i < |r.memory.rest| ensures RecOk(r, r.memory.rest[i].0, r.memory.rest[i].1) {
      assert RecOk(s, s.memory.rest[i].0, s.memory.rest[i].1);
    }
  }

  lemma ClearInv(s: State, id: Id)
    requires Inv(s) && id in s.memory.clearing
    ensures Inv(ClearDirect(s, id))
  {
    var r := ClearDirect(s, id);
    SentSame(s, r);
    assert Kept(s, id);
    hide WasSent;
    forall x ensures Kept(r, x) { assert Kept(s, x); }
    forall i | 0 <= i < |r.sent| ensures SentOk(r, r.sent[i]) { assert SentOk(s, s.sent[i]); }
    forall i | 0 <= i < |r.memory.rest| ensures RecOk(r, r.memory.rest[i].0, r.memory.rest[i].1) {
      assert RecOk(s, s.memory.rest[i].0, s.memory.rest[i].1);
    }
  }

  lemma SweepInv(s: State, order: seq<Id>)
    requires Inv(s) && Possible(s, DoSweep(order))
    ensures Inv(Step(s, DoSweep(order)))
  {
    var r := Step(s, DoSweep(order));
    SentSame(s, r);
    hide WasSent;
    forall x ensures Kept(r, x) { assert Kept(s, x); }
    forall i | 0 <= i < |r.sent| ensures SentOk(r, r.sent[i]) { assert SentOk(s, s.sent[i]); }
    forall i | 0 <= i < |r.memory.rest| ensures RecOk(r, r.memory.rest[i].0, r.memory.rest[i].1) {
      assert Kept(s, order[i]);
    }
  }

  lemma LookInv(s: State, now: int, last: Option<Message>)
    requires Inv(s) && s.memory.rest != [] && s.memory.stage == Next
    ensures Inv(Look(s, now, last))
  {
    var r := Look(s, now, last);
    SentSame(s, r);
    assert RecOk(s, s.memory.rest[0].0, s.memory.rest[0].1);
    hide WasSent;
    forall x ensures Kept(r, x) { assert Kept(s, x); }
    forall i | 0 <= i < |r.sent| ensures SentOk(r, r.sent[i]) { assert SentOk(s, s.sent[i]); }
    forall i | 0 <= i < |r.memory.rest| ensures RecOk(r, r.memory.rest[i].0, r.memory.rest[i].1) {
      assert RecOk(s, s.memory.rest[i + 1].0, s.memory.rest[i + 1].1);
    }
  }

  lemma NotifySweptInv(s: State, reached: bool, ok: bool)
    requires Inv(s) && s.memory.stage.Delivering?
    ensures Inv(NotifySwept(s, reached, ok))
  {
    var r := NotifySwept(s, reached, ok);
    var Delivering(id, rec, answer) := s.memory.stage;
    if reached || ok {
      SentMore(s, r, Delivery(id, rec.to, BySweep(answer)));
    } else {
      SentSame(s, r);
    }
    assert RecOk(s, id, rec) && Kept(s, id);
    hide WasSent;
    forall x ensures Kept(r, x) { assert Kept(s, x); }
    forall i | 0 <= i < |r.sent| ensures SentOk(r, r.sent[i]) { assert i < |s.sent| ==> SentOk(s, s.sent[i]); }
    forall i | 0 <= i < |r.memory.rest| ensures RecOk(r, r.memory.rest[i].0, r.memory.rest[i].1) {
      assert RecOk(s, s.memory.rest[i].0, s.memory.rest[i].1);
    }
  }

  lemma ClearSweptInv(s: State)
    requires Inv(s) && s.memory.stage.Clearing?
    ensures Inv(ClearSwept(s))
  {
    var r := ClearSwept(s);
    SentSame(s, r);
    assert WasSent(s, s.memory.stage.id);
    hide WasSent;
    forall x ensures Kept(r, x) { assert Kept(s, x); }
    forall i | 0 <= i < |r.sent| ensures SentOk(r, r.sent[i]) { assert SentOk(s, s.sent[i]); }
    forall i | 0 <= i < |r.memory.rest| ensures RecOk(r, r.memory.rest[i].0, r.memory.rest[i].1) {
      assert RecOk(s, s.memory.rest[i].0, s.memory.rest[i].1);
    }
  }

  lemma CrashInv(s: State)
    requires Inv(s)
    ensures Inv(s.(memory := FRESH))
  {
    var r := s.(memory := FRESH);
    SentSame(s, r);
    hide WasSent;
    forall x ensures Kept(r, x) { assert Kept(s, x); }
    forall i | 0 <= i < |r.sent| ensures SentOk(r, r.sent[i]) { assert SentOk(s, s.sent[i]); }
  }

  lemma StepInv(s: State, a: Action)
    requires Inv(s) && Possible(s, a)
    ensures Inv(Step(s, a))
  {
    match a
    case DoPromise(_, _, _, _) => PromiseInv(s, a);
    case DoNotify(id, reached, ok) => NotifyInv(s, id, reached, ok);
    case DoClear(id) => ClearInv(s, id);
    case DoSweep(order) => SweepInv(s, order);
    case DoLook(now, last) => LookInv(s, now, last);
    case DoNotifySwept(reached, ok) => NotifySweptInv(s, reached, ok);
    case DoClearSwept => ClearSweptInv(s);
    case DoCrash => CrashInv(s);
  }

  lemma {:induction false} ExecInv(s: State, run: seq<Action>)
    requires Inv(s) && Legal(s, run)
    ensures Inv(Exec(s, run))
    decreases |run|
  {
    if run != [] {
      StepInv(s, run[0]);
      ExecInv(Step(s, run[0]), run[1..]);
    }
  }

  /** After any run, with crashes anywhere: a promise is on disk, or was delivered, or was given up under
      the rule; no record has over three attempts; every delivery went where its promise says; and what the
      sweep delivered was the delegation's own line, later than the promise. */
  lemma NothingLost(run: seq<Action>, id: Id)
    requires Legal(BOOT, run)
    ensures var s := Exec(BOOT, run);
      && (id in s.promised ==> id in s.disk || WasSent(s, id) || id in s.dropped)
      && (id in s.disk ==> id in s.promised && s.disk[id].attempts <= 3 && s.disk[id] == s.promised[id].(attempts := s.disk[id].attempts))
      && (id in s.dropped ==> s.dropped[id].0 > 604800000 || s.dropped[id].1 == 3)
      && (forall i :: 0 <= i < |s.sent| ==> s.sent[i].id in s.promised && s.sent[i].to == s.promised[s.sent[i].id].to)
      && (forall i :: 0 <= i < |s.sent| && s.sent[i].via.BySweep? ==>
            s.sent[i].via.answer.bot && s.sent[i].via.answer.t > s.promised[s.sent[i].id].since)
  {
    assert Inv(BOOT);
    ExecInv(BOOT, run);
    var s := Exec(BOOT, run);
    assert Kept(s, id);
    forall i | 0 <= i < |s.sent| ensures s.sent[i].id in s.promised && s.sent[i].to == s.promised[s.sent[i].id].to {
      assert SentOk(s, s.sent[i]);
    }
    forall i | 0 <= i < |s.sent| && s.sent[i].via.BySweep?
      ensures s.sent[i].via.answer.bot && s.sent[i].via.answer.t > s.promised[s.sent[i].id].since
    {
      assert SentOk(s, s.sent[i]);
    }
  }

  /** The sweep gives a record up exactly when it is over a week old or has failed three times; it sets out to
      deliver exactly when not, and the conversation's last line is the delegation's own and later than the
      promise; and it leaves every other record alone. */
  lemma LookDoes(s: State, now: int, last: Option<Message>)
    requires Possible(s, DoLook(now, last))
    ensures var (id, rec) := s.memory.rest[0]; var r := Step(s, DoLook(now, last));
      var over := now - rec.since > 604800000 || rec.attempts >= 3;
      var answered := last.Some? && last.value.bot && last.value.t > rec.since;
      && r.sent == s.sent && r.promised == s.promised && r.memory.rest == s.memory.rest[1..]
      && r.disk == (if over then s.disk - {id} else s.disk)
      && r.dropped.Keys == s.dropped.Keys + (if over then {id} else {})
      && r.memory.stage == if !over && answered then Delivering(id, rec, last.value) else Next
  {
  }

  /** A delivery by the promise's own process goes where the promise says; one that succeeds is cleared
      next, one that fails leaves the record as it is. */
  lemma DirectNotice(s: State, id: Id, reached: bool, ok: bool)
    requires Inv(s) && Possible(s, DoNotify(id, reached, ok))
    ensures id in s.promised
    ensures var r := Step(s, DoNotify(id, reached, ok));
      && r.disk == s.disk && r.sent == s.sent + (if reached || ok then [Delivery(id, s.promised[id].to, Direct)] else [])
      && (ok ==> Possible(r, DoClear(id)) && Step(r, DoClear(id)).disk == s.disk - {id})
  {
    assert Kept(s, id) && s.sent + [] == s.sent;
  }

  /** A delivery of the sweep that succeeds is cleared next, and one that fails costs the record an attempt. */
  lemma SweptNotice(s: State, reached: bool, ok: bool)
    requires Possible(s, DoNotifySwept(reached, ok))
    ensures var r := Step(s, DoNotifySwept(reached, ok)); var Delivering(id, rec, answer) := s.memory.stage;
      && r.sent == s.sent + (if reached || ok then [Delivery(id, rec.to, BySweep(answer))] else [])
      && (!ok ==> r.disk == s.disk[id := rec.(attempts := rec.attempts + 1)] && r.memory.stage == Next)
      && (ok ==> r.disk == s.disk && Possible(r, DoClearSwept))
      && (ok ==> Step(r, DoClearSwept).disk == s.disk - {id} && Step(r, DoClearSwept).memory.stage == Next)
  {
    assert s.sent + [] == s.sent;
  }

  /** A record leaves the disk only after its delivery, or by the rule on the record the sweep read. */
  lemma RecordLeaves(s: State, a: Action, id: Id)
    requires Inv(s) && Possible(s, a) && id in s.disk && id !in Step(s, a).disk
    ensures WasSent(s, id) || (a.DoLook? && s.memory.rest[0].0 == id && GivenUp(s.memory.rest[0].1, a.now))
  {
    assert Kept(s, id);
  }

  // ---------------------------------------------------------------- once without a crash

  function Count(sent: seq<Delivery>, id: Id): nat {
    if sent == [] then 0 else Count(sent[..|sent| - 1], id) + if sent[|sent| - 1].id == id then 1 else 0
  }

  /** A step of a process that does not sweep, does not crash, and whose failed deliveries reached nobody */
  predicate Quiet(a: Action) {
    !a.DoCrash? && !a.DoSweep? && (a.DoNotify? && !a.ok ==> !a.reached)
  }

  ghost predicate OnceOk(s: State, id: Id) {
    && Count(s.sent, id) <= 1
    && (id in s.memory.waiting ==> id in s.promised && Count(s.sent, id) == 0)
    && (id !in s.promised ==> Count(s.sent, id) == 0)
  }

  /** So a second delivery takes a crash, a sweep, or a failure that came after the answer had arrived. */
  lemma {:induction false} OnceWithoutCrash(s: State, run: seq<Action>, id: Id)
    requires Legal(s, run) && (forall i :: 0 <= i < |run| ==> Quiet(run[i]))
    requires OnceOk(s, id) && s.memory.rest == [] && s.memory.stage == Next
    ensures OnceOk(Exec(s, run), id)
    decreases |run|
  {
    if run != [] {
      var r := Step(s, run[0]);
      assert Quiet(run[0]);
      if run[0].DoNotify? && run[0].ok {
        assert (s.sent + [Delivery(run[0].id, s.memory.waiting[run[0].id], Direct)])[..|s.sent|] == s.sent;
      }
      forall i | 0 <= i < |run[1..]| ensures Quiet(run[1..][i]) { assert run[1..][i] == run[i + 1]; }
      OnceWithoutCrash(r, run[1..], id);
    }
  }
}
