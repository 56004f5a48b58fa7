/** What holds of every run of the steps in `Rotation`. */
module RotationRuns {
  import opened Options
  import opened Rotation

  /** Where a process starts */
  ghost predicate Start(s: State) {
    && s.refreshing == map[] && s.flights == map[] && s.consumers == map[] && s.replaced == {} && s.stale == 0
    && (forall k :: k in s.stored ==> Known(s, k, s.stored[k]))
  }

  // ---------------------------------------------------------------- the invariant

  predicate Known(s: State, key: Key, b: Bundle) {
    b.refresh.Some? ==> (key, b.refresh.value) in s.issued
  }

  /** A refresh token in somebody's hand is the stored one or out of use, and not both. */
  predicate Traced(s: State, key: Key, b: Bundle) {
    b.refresh.Some? ==> ((key, b.refresh.value) in s.replaced <==> !(key in s.stored && s.stored[key].refresh == b.refresh))
  }

  /** A flight under way is the map's entry; a refresh token it set out with gives way only to another. */
  ghost predicate Entered(s: State, f: Fid) {
    InFlight(s, f) ==>
      var fl := s.flights[f];
      && fl.key in s.refreshing && s.refreshing[fl.key] == f && fl.key in s.stored
      && (fl.stage.Writing? && fl.from.refresh.Some? ==> fl.stage.next.refresh.Some?)
  }

  ghost predicate Entry(s: State, key: Key) {
    key in s.refreshing ==> InFlight(s, s.refreshing[key]) && s.flights[s.refreshing[key]].key == key
  }

  ghost predicate Waiting(s: State, c: Cid) {
    c in s.consumers ==>
      match s.consumers[c].phase
      case Holding(_) => s.consumers[c].key in s.stored
      case Sharing(f) => f in s.flights && s.flights[f].key == s.consumers[c].key
      case _ => true
  }

  /** What every step keeps. */
  ghost predicate Base(s: State) {
    && (forall f {:trigger Entered(s, f)} :: Entered(s, f))
    && (forall key {:trigger Entry(s, key)} :: Entry(s, key))
    && (forall c {:trigger Waiting(s, c)} :: Waiting(s, c))
  }

  /** A flight under way set out with the stored refresh token. */
  ghost predicate FlightOk(s: State, f: Fid) {
    InFlight(s, f) && s.flights[f].key in s.stored ==>
      var fl := s.flights[f];
      && (!fl.stage.Written? ==> s.stored[fl.key].refresh == fl.from.refresh)
      && (fl.stage.Writing? ==> Known(s, fl.key, fl.stage.next))
      && (fl.stage.Written? ==> s.stored[fl.key] == fl.stage.next)
  }

  /** A token just issued is not out of use. */
  ghost predicate NextOk(s: State, f: Fid) {
    InFlight(s, f) && s.flights[f].stage.Writing? && s.flights[f].stage.next.refresh.Some? ==>
      (s.flights[f].key, s.flights[f].stage.next.refresh.value) !in s.replaced
  }

  /** Nobody holds a token that is issued and not yet stored. */
  ghost predicate HandOk(s: State, c: Cid, f: Fid) {
    c in s.consumers && s.consumers[c].phase.Holding? && InFlight(s, f) && s.flights[f].stage.Writing? && s.flights[f].key == s.consumers[c].key
    && s.flights[f].stage.next.refresh != s.flights[f].from.refresh ==>
      s.consumers[c].phase.b.refresh != s.flights[f].stage.next.refresh || s.consumers[c].phase.b.refresh == None
  }

  ghost predicate ConsumerOk(s: State, c: Cid) {
    c in s.consumers && s.consumers[c].phase.Holding? ==>
      Known(s, s.consumers[c].key, s.consumers[c].phase.b) && Traced(s, s.consumers[c].key, s.consumers[c].phase.b)
  }

  ghost predicate KeyOk(s: State, key: Key) {
    key in s.stored ==> Known(s, key, s.stored[key]) && Traced(s, key, s.stored[key])
  }

  /** What every step keeps but a start from a bundle that was replaced after it was read. */
  ghost predicate Inv(s: State) {
    && Base(s) && s.replaced <= s.issued
    && (forall f {:trigger FlightOk(s, f)} :: FlightOk(s, f))
    && (forall f {:trigger NextOk(s, f)} :: NextOk(s, f))
    && (forall c, f {:trigger HandOk(s, c, f)} :: HandOk(s, c, f))
    && (forall c {:trigger ConsumerOk(s, c)} :: ConsumerOk(s, c))
    && (forall key {:trigger KeyOk(s, key)} :: KeyOk(s, key))
  }

  lemma StepBase(s: State, a: Action)
    requires Base(s) && Possible(s, a)
    ensures Base(Step(s, a))
  {
    var r := Step(s, a);
    if a.DoArrive? || a.DoAwake? || a.DoRead? || a.DoDecide? || a.DoTake? {
      assert Waiting(s, a.c);
      assert a.DoDecide? ==> Entry(s, s.consumers[a.c].key);
    } else {
      assert Entered(s, a.f);
    }
    forall f ensures Entered(r, f) { assert Entered(s, f); }
    forall key ensures Entry(r, key) { assert Entry(s, key); }
    forall c ensures Waiting(r, c) { assert Waiting(s, c); }
  }

  lemma StartInv(s: State)
    requires Start(s)
    ensures Inv(s)
  {
  }

  /** Steps of a consumer that start no flight */
  lemma ConsumerInv(s: State, a: Action)
    requires Inv(s) && Possible(s, a) && !Starts(s, a)
    requires a.DoArrive? || a.DoAwake? || a.DoRead? || a.DoDecide? || a.DoTake?
    ensures Inv(Step(s, a))
  {
    var r := Step(s, a);
    StepBase(s, a);
    assert ConsumerOk(s, a.c) && Waiting(s, a.c);
    var key := r.consumers[a.c].key;
    assert KeyOk(s, key) && Entry(s, key);
    forall f ensures FlightOk(r, f) { assert FlightOk(s, f); }
    forall f ensures NextOk(r, f) { assert NextOk(s, f); }
    forall c, f ensures HandOk(r, c, f) {
      assert HandOk(s, c, f) && NextOk(s, f) && FlightOk(s, f);
    }
    forall c ensures ConsumerOk(r, c) { assert ConsumerOk(s, c); }
    forall k ensures KeyOk(r, k) { assert KeyOk(s, k); }
  }

  lemma StartFlightInv(s: State, a: Action)
    requires Inv(s) && Possible(s, a) && Starts(s, a) && InTime(s, a)
    ensures Inv(Step(s, a))
  {
    var r := Step(s, a);
    StepBase(s, a);
    assert ConsumerOk(s, a.c) && Waiting(s, a.c);
    forall f ensures FlightOk(r, f) { assert FlightOk(s, f); }
    forall f ensures NextOk(r, f) { assert NextOk(s, f); }
    forall c, f ensures HandOk(r, c, f) { assert HandOk(s, c, f); }
    forall c ensures ConsumerOk(r, c) { assert ConsumerOk(s, c); }
    forall k ensures KeyOk(r, k) { assert KeyOk(s, k); }
  }

  lemma AnswerInv(s: State, f: Fid, tok: Response, now: int)
    requires Inv(s) && f in s.flights && s.flights[f].stage.Asking? && NewToken(s, s.flights[f].key, tok)
    ensures Inv(Answer(s, f, Some(tok), now))
  {
    var r := Answer(s, f, Some(tok), now);
    var key := s.flights[f].key;
    StepBase(s, DoAnswer(f, Some(tok), now));
    assert FlightOk(s, f) && Entered(s, f) && KeyOk(s, key);
    forall g ensures FlightOk(r, g) { assert FlightOk(s, g); }
    forall g ensures NextOk(r, g) { assert NextOk(s, g); }
    forall c, g ensures HandOk(r, c, g) { assert HandOk(s, c, g) && ConsumerOk(s, c); }
    forall c ensures ConsumerOk(r, c) { assert ConsumerOk(s, c); }
    forall k ensures KeyOk(r, k) { assert KeyOk(s, k); }
  }

  lemma WriteInv(s: State, f: Fid)
    requires Inv(s) && f in s.flights && s.flights[f].stage.Writing?
    ensures Inv(Write(s, f))
  {
    var r := Write(s, f);
    var key := s.flights[f].key;
    StepBase(s, DoWrite(f));
    assert FlightOk(s, f) && Entered(s, f) && NextOk(s, f) && KeyOk(s, key);
    forall g ensures FlightOk(r, g) { assert FlightOk(s, g) && Entered(s, g); }
    forall g ensures NextOk(r, g) { assert NextOk(s, g) && FlightOk(s, g) && Entered(s, g); }
    forall c, g ensures HandOk(r, c, g) { assert HandOk(s, c, g); }
    forall c ensures ConsumerOk(r, c) { assert ConsumerOk(s, c) && HandOk(s, c, f); }
    forall k ensures KeyOk(r, k) { assert KeyOk(s, k); }
  }

  lemma EndBase(s: State, f: Fid, result: Option<Bundle>)
    requires Base(s) && InFlight(s, f)
    ensures Base(End(s, f, result))
  {
    var r := End(s, f, result);
    assert Entered(s, f);
    forall g ensures Entered(r, g) { assert Entered(s, g); }
    forall key ensures Entry(r, key) { assert Entry(s, key); }
    forall c ensures Waiting(r, c) { assert Waiting(s, c); }
  }

  lemma EndInv(s: State, f: Fid, result: Option<Bundle>)
    requires Inv(s) && InFlight(s, f)
    ensures Inv(End(s, f, result))
  {
    var r := End(s, f, result);
    EndBase(s, f, result);
    assert FlightOk(s, f);
    forall g ensures FlightOk(r, g) { assert FlightOk(s, g); }
    forall g ensures NextOk(r, g) { assert NextOk(s, g); }
    forall c, g ensures HandOk(r, c, g) { assert HandOk(s, c, g); }
    forall c ensures ConsumerOk(r, c) { assert ConsumerOk(s, c); }
    forall k ensures KeyOk(r, k) { assert KeyOk(s, k); }
  }

  lemma StepInv(s: State, a: Action)
    requires Inv(s) && Possible(s, a) && InTime(s, a)
    ensures Inv(Step(s, a))
  {
    match a
    case DoArrive(_, _) => ConsumerInv(s, a);
    case DoAwake(_) => ConsumerInv(s, a);
    case DoRead(_) => ConsumerInv(s, a);
    case DoTake(_) => ConsumerInv(s, a);
    case DoDecide(_, _, _, _) => if Starts(s, a) { StartFlightInv(s, a); } else { ConsumerInv(s, a); }
    case DoAnswer(f, tok, now) => if tok.Some? { AnswerInv(s, f, tok.value, now); } else { EndInv(s, f, None); }
    case DoWrite(f) => WriteInv(s, f);
    case DoWriteFails(f) => EndInv(s, f, None);
    case DoLand(f) => EndInv(s, f, Some(s.flights[f].stage.next));
  }

  lemma {:induction false} ExecInv(s: State, run: seq<Action>)
    requires Base(s) && Legal(s, run)
    ensures Base(Exec(s, run))
    ensures Inv(s) && Punctual(s, run) ==> Inv(Exec(s, run))
    decreases |run|
  {
    if run != [] {
      StepBase(s, run[0]);
      if Inv(s) && InTime(s, run[0]) {
        StepInv(s, run[0]);
      }
      ExecInv(Step(s, run[0]), run[1..]);
    }
  }

  ghost predicate Reachable(s: State) {
    exists s0, run :: Start(s0) && Legal(s0, run) && Exec(s0, run) == s
  }

  lemma ReachableBase(s: State)
    requires Reachable(s)
    ensures Base(s)
  {
    var s0, run :| Start(s0) && Legal(s0, run) && Exec(s0, run) == s;
    StartInv(s0);
    ExecInv(s0, run);
  }

  // ---------------------------------------------------------------- what it means

  /** One refresh at a time for each credential. */
  lemma SingleFlight(s: State, f: Fid, g: Fid)
    requires Reachable(s) && InFlight(s, f) && InFlight(s, g) && s.flights[f].key == s.flights[g].key
    ensures f == g
  {
    ReachableBase(s);
    assert Entered(s, f) && Entered(s, g);
  }

  /** A consumer that finds one under way sends nothing and gets its result. */
  lemma Shares(s: State, a: Action)
    requires Reachable(s) && Possible(s, a) && a.DoDecide? && s.consumers[a.c].key in s.refreshing
    ensures Step(s, a).flights == s.flights && Step(s, a).stale == s.stale
    ensures Due(s.consumers[a.c].phase.b, a.endpoint, a.now) ==>
      Step(s, a).consumers[a.c].phase == Sharing(s.refreshing[s.consumers[a.c].key]) && InFlight(s, s.refreshing[s.consumers[a.c].key])
  {
    ReachableBase(s);
    assert Entry(s, s.consumers[a.c].key);
  }

  lemma SharedResult(s: State, a: Action)
    requires Reachable(s) && Possible(s, a) && a.DoTake?
    ensures var c := s.consumers[a.c]; var fl := s.flights[c.phase.f];
      && fl.key == c.key
      && Step(s, a).consumers[a.c].phase == if fl.stage.result.Some? then Got(Some(fl.stage.result.value.access)) else Threw
  {
    ReachableBase(s);
    assert Waiting(s, a.c);
  }

  /** A refresh token that a rotation has replaced is presented exactly when the stored one changed between
      the consumer's read and its start of a rotation. */
  lemma StaleIff(s: State, a: Action)
    requires Inv(s) && Possible(s, a) && Starts(s, a) && s.consumers[a.c].phase.b.refresh.Some?
    ensures s.consumers[a.c].key in s.stored
    ensures Step(s, a).stale == s.stale + 1 <==> s.stored[s.consumers[a.c].key].refresh != s.consumers[a.c].phase.b.refresh
  {
    assert ConsumerOk(s, a.c) && Waiting(s, a.c);
  }

  /** A stored refresh token is lost exactly when a flight that set out without one, at a server that
      issues none, is written over it; and never while no rotation started from a replaced bundle. */
  lemma KeepsRefresh(s: State, a: Action, key: Key)
    requires Base(s) && Possible(s, a) && key in s.stored && s.stored[key].refresh.Some?
    ensures key in Step(s, a).stored
    ensures Step(s, a).stored[key].refresh == None
      <==> a.DoWrite? && s.flights[a.f].key == key && s.flights[a.f].stage.next.refresh == None
    ensures Step(s, a).stored[key].refresh == None ==> s.flights[a.f].from.refresh == None && !Inv(s)
  {
    if a.DoWrite? {
      assert Entered(s, a.f);
      assert Inv(s) ==> FlightOk(s, a.f);
    }
  }

  /** A rotation at a server that issues no refresh token stores the one it set out with. That is the stored
      one while no rotation started from a replaced bundle, and otherwise may be one put out of use. */
  lemma NonIssuing(s: State, f: Fid, tok: Response, now: int)
    requires Base(s) && f in s.flights && s.flights[f].stage.Asking? && tok.refresh == None
    ensures var key := s.flights[f].key;
      var r := Write(Answer(s, f, Some(tok), now), f);
      && key in s.stored && r.stored == s.stored[key := r.stored[key]] && r.replaced == s.replaced
      && r.stored[key].access == tok.access
      && r.stored[key].refresh == s.flights[f].from.refresh
      && (Inv(s) ==> r.stored[key].refresh == s.stored[key].refresh)
  {
    assert Entered(s, f);
    assert Inv(s) ==> FlightOk(s, f);
  }

  // ---------------------------------------------------------------- read and start in one step

  /** A step, or a read and what follows it at once. */
  datatype Move = One(a: Action) | Consume(c: Cid, f: Fid, endpoint: bool, now: int)

  ghost predicate MayMove(s: State, m: Move) {
    match m
    case One(a) => Possible(s, a) && !a.DoRead? && !a.DoDecide?
    case Consume(c, f, _, _) => Possible(s, DoRead(c)) && f !in s.flights
  }

  ghost function Moved(s: State, m: Move): State
    requires MayMove(s, m)
  {
    match m
    case One(a) => Step(s, a)
    case Consume(c, f, endpoint, now) =>
      var r := Read(s, c);
      if r.consumers[c].phase.Holding? then Decide(r, c, f, endpoint, now) else r
  }

  ghost predicate AllMay(s: State, run: seq<Move>)
    decreases |run|
  {
    run == [] || (MayMove(s, run[0]) && AllMay(Moved(s, run[0]), run[1..]))
  }

  ghost function MoveAll(s: State, run: seq<Move>): State
    requires AllMay(s, run)
    decreases |run|
  {
    if run == [] then s else MoveAll(Moved(s, run[0]), run[1..])
  }

  lemma MoveInv(s: State, m: Move)
    requires Inv(s) && MayMove(s, m)
    ensures Inv(Moved(s, m)) && Moved(s, m).stale == s.stale
  {
    match m
    case One(a) => StepInv(s, a);
    case Consume(c, f, endpoint, now) =>
      StepInv(s, DoRead(c));
      var r := Read(s, c);
      if r.consumers[c].phase.Holding? {
        var a := DoDecide(c, f, endpoint, now);
        StepInv(r, a);
        if Starts(r, a) && r.consumers[c].phase.b.refresh.Some? {
          StaleIff(r, a);
        }
      }
  }

  /** Then no replaced refresh token is ever presented again. */
  lemma {:induction false} NeverStale(s: State, run: seq<Move>)
    requires Inv(s) && AllMay(s, run)
    ensures Inv(MoveAll(s, run)) && MoveAll(s, run).stale == s.stale
    decreases |run|
  {
    if run != [] {
      MoveInv(s, run[0]);
      NeverStale(Moved(s, run[0]), run[1..]);
    }
  }

  // ---------------------------------------------------------------- the gap

  lemma {:induction false} LegalMore(s: State, run: seq<Action>, a: Action)
    requires Legal(s, run) && Possible(Exec(s, run), a)
    ensures Legal(s, run + [a]) && Exec(s, run + [a]) == Step(Exec(s, run), a)
    decreases |run|
  {
    if run == [] {
      assert [] + [a] == [a] && [a][1..] == [];
    } else {
      assert (run + [a])[0] == run[0] && (run + [a])[1..] == run[1..] + [a];
      LegalMore(Step(s, run[0]), run[1..], a);
    }
  }

  lemma ReachStep(s: State, a: Action)
    requires Reachable(s) && Possible(s, a)
    ensures Reachable(Step(s, a))
  {
    var s0, run :| Start(s0) && Legal(s0, run) && Exec(s0, run) == s;
    LegalMore(s0, run, a);
    assert Legal(s0, run + [a]);
  }

  lemma InitReachable(s: State)
    requires Start(s)
    ensures Reachable(s)
  {
    assert Legal(s, []) && Exec(s, []) == s;
  }

  /** A bundle that is due at time 0, with or without a refresh token, and the one that replaces it */
  function Old(refresh: Option<Token>): Bundle {
    Bundle(1, refresh, Some(0), "")
  }

  const NEW := Bundle(2, Some(11), Some(3600000), "")

  predicate Early(refresh: Option<Token>) {
    refresh == None || refresh == Some(10)
  }

  function Callers(refresh: Option<Token>, consumers: map<Cid, Consumer>): State {
    State(map["k" := Old(refresh)], map[], map[], consumers, {}, 0, {("k", 10)})
  }

  function BothHold(refresh: Option<Token>): State {
    Callers(refresh, map[0 := Consumer("k", Holding(Old(refresh))), 1 := Consumer("k", Holding(Old(refresh)))])
  }

  function OneRotated(refresh: Option<Token>): State {
    var b := Old(refresh);
    State(map["k" := NEW], map[], map[0 := Flight("k", b, Ended(Some(NEW)))],
          map[0 := Consumer("k", Sharing(0)), 1 := Consumer("k", Holding(b))],
          if refresh.Some? then {("k", refresh.value)} else {}, 0, {("k", 10), ("k", 11)})
  }

  lemma OneMoreArrives(refresh: Option<Token>, cs: map<Cid, Consumer>, c: Cid)
    requires Reachable(Callers(refresh, cs)) && c !in cs
    ensures Reachable(Callers(refresh, cs[c := Consumer("k", Reading)]))
  {
    hide Reachable;
    ReachStep(Callers(refresh, cs), DoArrive(c, "k"));
  }

  lemma OneMoreReads(refresh: Option<Token>, cs: map<Cid, Consumer>, c: Cid)
    requires Reachable(Callers(refresh, cs)) && c in cs && cs[c] == Consumer("k", Reading)
    ensures Reachable(Callers(refresh, cs[c := Consumer("k", Holding(Old(refresh)))]))
  {
    hide Reachable;
    ReachStep(Callers(refresh, cs), DoRead(c));
  }

  lemma TwoRead(refresh: Option<Token>)
    requires Early(refresh)
    ensures Reachable(BothHold(refresh))
  {
    InitReachable(Callers(refresh, map[]));
    hide Reachable, Callers;
    OneMoreArrives(refresh, map[], 0);
    var one := map[0 := Consumer("k", Reading)];
    OneMoreArrives(refresh, one, 1);
    var two := one[1 := Consumer("k", Reading)];
    OneMoreReads(refresh, two, 0);
    var half := two[0 := Consumer("k", Holding(Old(refresh)))];
    OneMoreReads(refresh, half, 1);
    assert half[1 := Consumer("k", Holding(Old(refresh)))]
        == map[0 := Consumer("k", Holding(Old(refresh))), 1 := Consumer("k", Holding(Old(refresh)))];
  }

  lemma OneRotates(refresh: Option<Token>)
    requires Early(refresh)
    ensures Reachable(OneRotated(refresh))
  {
    hide Reachable;
    TwoRead(refresh);
    var s0, a0 := BothHold(refresh), DoDecide(0, 0, true, 0);
    ReachStep(s0, a0);
    var s1, a1 := Step(s0, a0), DoAnswer(0, Some(Response(2, Some(11), Some(3600))), 0);
    ReachStep(s1, a1);
    var s2 := Step(s1, a1);
    assert s2.flights == map[0 := Flight("k", Old(refresh), Writing(NEW))];
    ReachStep(s2, DoWrite(0));
    var s3 := Step(s2, DoWrite(0));
    ReachStep(s3, DoLand(0));
    assert Step(s3, DoLand(0)) == OneRotated(refresh);
  }

  /** Two consumers read; one rotates to the end before the other goes on; and the other presents the
      token that was replaced. */
  lemma Gap()
    ensures exists s, a :: Reachable(s) && Possible(s, a) && Starts(s, a) && Step(s, a).stale == s.stale + 1
  {
    OneRotates(Some(10));
    hide Reachable;
    var s, a := OneRotated(Some(10)), DoDecide(1, 1, true, 0);
    assert Possible(s, a) && Starts(s, a) && Step(s, a).stale == s.stale + 1;
  }

  /** If its server then issues no refresh token, what is stored over the newer one is the token that was
      replaced, or none at all. */
  lemma OldOverNew(refresh: Option<Token>) returns (s: State, r: State)
    requires Early(refresh)
    ensures Reachable(s) && Possible(s, DoWrite(1)) && r == Step(s, DoWrite(1))
    ensures "k" in s.stored && "k" in r.stored && s.stored["k"].refresh == Some(11) && r.stored["k"].refresh == refresh
    ensures refresh.Some? ==> ("k", refresh.value) in r.replaced
  {
    OneRotates(refresh);
    hide Reachable;
    var s0, a0 := OneRotated(refresh), DoDecide(1, 1, true, 0);
    ReachStep(s0, a0);
    var s1 := Step(s0, a0);
    assert s1.flights[1] == Flight("k", Old(refresh), Asking) && s1.stored == map["k" := NEW];
    assert refresh.Some? ==> ("k", refresh.value) in s1.replaced;
    hide Due, OneRotated;
    var a1 := DoAnswer(1, Some(Response(3, None, None)), 0);
    ReachStep(s1, a1);
    s := Step(s1, a1);
    assert s.flights[1] == Flight("k", Old(refresh), Writing(Bundle(3, refresh, None, "")));
    r := Step(s, DoWrite(1));
  }
}
