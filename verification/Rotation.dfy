/** Token rotation in runner/runtime/oauth.ts: many consumers of one stored credential, one refresh in
    flight for each, and a server that may make every refresh token good for one use. A step is what
    runs between two awaits. */
module Rotation {
  import opened Options

  type Key = string
  type Token = nat
  type Fid = nat
  type Cid = nat

  /** `rest` stands for the fields that every rotation carries over. */
  datatype Bundle = Bundle(access: Token, refresh: Option<Token>, expires: Option<int>, rest: string)

  datatype Response = Response(access: Token, refresh: Option<Token>, expiresIn: Option<int>)

  /** toBundle, with the bundle before it */
  function ToBundle(tok: Response, prev: Bundle, now: int): Bundle {
    Bundle(tok.access, if tok.refresh.Some? then tok.refresh else prev.refresh,
           if tok.expiresIn.Some? then Some(now + tok.expiresIn.value * 1000) else None, prev.rest)
  }

  const MINUTE: int := 60000
  const WEEK: int := 604800000

  /** dueForRotation; `endpoint` is a declared exchange of tokens for longer ones. */
  predicate Due(b: Bundle, endpoint: bool, now: int) {
    b.expires.Some? && (if b.refresh.Some? then b.expires.value - now < MINUTE else endpoint && b.expires.value - now < WEEK)
  }

  /** A refresh: sent with a bundle, answered, its result written, over. */
  datatype Flight = Flight(key: Key, from: Bundle, stage: Stage)
  datatype Stage = Asking | Writing(next: Bundle) | Written(next: Bundle) | Ended(result: Option<Bundle>)

  /** A call of oauthToken: behind a flight, about to read, with what it read, behind the flight whose
      result it takes, over. */
  datatype Consumer = Consumer(key: Key, phase: Phase)
  datatype Phase = Behind(f: Fid) | Reading | Holding(b: Bundle) | Sharing(f: Fid) | Got(token: Option<Token>) | Threw

  /** `refreshing` is the module's map; `replaced` are the refresh tokens a stored rotation has put out of
      use, `stale` the presentations of such a token, `issued` every refresh token there has been. */
  datatype State = State(
    stored: map<Key, Bundle>, refreshing: map<Key, Fid>, flights: map<Fid, Flight>, consumers: map<Cid, Consumer>,
    replaced: set<(Key, Token)>, stale: nat, issued: set<(Key, Token)>)

  function InFlight(s: State, f: Fid): bool {
    f in s.flights && !s.flights[f].stage.Ended?
  }

  // ---------------------------------------------------------------- steps

  /** oauthToken up to its first await */
  function Arrive(s: State, c: Cid, key: Key): State {
    s.(consumers := s.consumers[c := Consumer(key, if key in s.refreshing then Behind(s.refreshing[key]) else Reading)])
  }

  function Awake(s: State, c: Cid): State
    requires c in s.consumers
  {
    s.(consumers := s.consumers[c := s.consumers[c].(phase := Reading)])
  }

  /** The storage is read. */
  function Read(s: State, c: Cid): State
    requires c in s.consumers
  {
    var key := s.consumers[c].key;
    s.(consumers := s.consumers[c := s.consumers[c].(phase := if key in s.stored then Holding(s.stored[key]) else Got(None))])
  }

  /** The rest of oauthToken up to the await of rotate, and rotate up to its own. */
  function Decide(s: State, c: Cid, f: Fid, endpoint: bool, now: int): State
    requires c in s.consumers && s.consumers[c].phase.Holding?
  {
    var key, b := s.consumers[c].key, s.consumers[c].phase.b;
    if !Due(b, endpoint, now) then s.(consumers := s.consumers[c := Consumer(key, Got(Some(b.access)))])
    else if key in s.refreshing then s.(consumers := s.consumers[c := Consumer(key, Sharing(s.refreshing[key]))])
    else
      s.(consumers := s.consumers[c := Consumer(key, Sharing(f))],
         refreshing := s.refreshing[key := f], flights := s.flights[f := Flight(key, b, Asking)],
         stale := s.stale + if b.refresh.Some? && (key, b.refresh.value) in s.replaced then 1 else 0)
  }

  /** The server's answer; a failure ends the flight. */
  function Answer(s: State, f: Fid, tok: Option<Response>, now: int): State
    requires f in s.flights
  {
    if tok.None? then End(s, f, None)
    else s.(flights := s.flights[f := s.flights[f].(stage := Writing(ToBundle(tok.value, s.flights[f].from, now)))],
            issued := s.issued + if tok.value.refresh.Some? then {(s.flights[f].key, tok.value.refresh.value)} else {})
  }

  /** The new bundle reaches the storage. */
  function Write(s: State, f: Fid): State
    requires f in s.flights && s.flights[f].stage.Writing?
  {
    var fl := s.flights[f];
    var next := fl.stage.next;
    s.(stored := s.stored[fl.key := next], flights := s.flights[f := fl.(stage := Written(next))],
       replaced := if fl.from.refresh.Some? && next.refresh != fl.from.refresh then s.replaced + {(fl.key, fl.from.refresh.value)} else s.replaced)
  }

  /** The flight's promise settles, its entry deleted in the same step. */
  function End(s: State, f: Fid, result: Option<Bundle>): State
    requires f in s.flights
  {
    s.(flights := s.flights[f := s.flights[f].(stage := Ended(result))], refreshing := s.refreshing - {s.flights[f].key})
  }

  function Land(s: State, f: Fid): State
    requires f in s.flights && s.flights[f].stage.Written?
  {
    End(s, f, Some(s.flights[f].stage.next))
  }

  /** A consumer takes the result of the flight it shares. */
  function Take(s: State, c: Cid): State
    requires c in s.consumers && s.consumers[c].phase.Sharing? && s.consumers[c].phase.f in s.flights
    requires s.flights[s.consumers[c].phase.f].stage.Ended?
  {
    var result := s.flights[s.consumers[c].phase.f].stage.result;
    s.(consumers := s.consumers[c := s.consumers[c].(phase := if result.Some? then Got(Some(result.value.access)) else Threw)])
  }

  // ---------------------------------------------------------------- runs

  datatype Action =
    | DoArrive(c: Cid, key: Key)
    | DoAwake(c: Cid)
    | DoRead(c: Cid)
    | DoDecide(c: Cid, f: Fid, endpoint: bool, now: int)
    | DoAnswer(f: Fid, tok: Option<Response>, now: int)
    | DoWrite(f: Fid)
    | DoWriteFails(f: Fid)
    | DoLand(f: Fid)
    | DoTake(c: Cid)

  /** A server never issues a refresh token of one credential twice. */
  ghost predicate Possible(s: State, a: Action) {
    match a
    case DoArrive(c, _) => c !in s.consumers
    case DoAwake(c) => c in s.consumers && s.consumers[c].phase.Behind? && !InFlight(s, s.consumers[c].phase.f)
    case DoRead(c) => c in s.consumers && s.consumers[c].phase.Reading?
    case DoDecide(c, f, _, _) => c in s.consumers && s.consumers[c].phase.Holding? && f !in s.flights
    case DoAnswer(f, tok, _) => f in s.flights && s.flights[f].stage.Asking? && (tok.Some? ==> NewToken(s, s.flights[f].key, tok.value))
    case DoWrite(f) => f in s.flights && s.flights[f].stage.Writing?
    case DoWriteFails(f) => f in s.flights && s.flights[f].stage.Writing?
    case DoLand(f) => f in s.flights && s.flights[f].stage.Written?
    case DoTake(c) => c in s.consumers && Landed(s, s.consumers[c].phase)
  }

  predicate NewToken(s: State, key: Key, tok: Response) {
    tok.refresh.Some? ==> (key, tok.refresh.value) !in s.issued
  }

  predicate Landed(s: State, p: Phase) {
    p.Sharing? && p.f in s.flights && s.flights[p.f].stage.Ended?
  }

  ghost function Step(s: State, a: Action): State
    requires Possible(s, a)
  {
    match a
    case DoArrive(c, key) => Arrive(s, c, key)
    case DoAwake(c) => Awake(s, c)
    case DoRead(c) => Read(s, c)
    case DoDecide(c, f, endpoint, now) => Decide(s, c, f, endpoint, now)
    case DoAnswer(f, tok, now) => Answer(s, f, tok, now)
    case DoWrite(f) => Write(s, f)
    case DoWriteFails(f) => End(s, f, None)
    case DoLand(f) => Land(s, f)
    case DoTake(c) => Take(s, c)
  }

  /** Between the read and the start of a rotation nobody has replaced the stored refresh token. */
  ghost predicate InTime(s: State, a: Action) {
    a.DoDecide? && a.c in s.consumers && Starts(s, a) ==>
      s.consumers[a.c].key in s.stored && s.stored[s.consumers[a.c].key].refresh == s.consumers[a.c].phase.b.refresh
  }

  /** The step sends a refresh. */
  ghost predicate Starts(s: State, a: Action) {
    a.DoDecide? && a.c in s.consumers && s.consumers[a.c].phase.Holding?
    && Due(s.consumers[a.c].phase.b, a.endpoint, a.now) && s.consumers[a.c].key !in s.refreshing
  }

  ghost predicate Legal(s: State, run: seq<Action>)
    decreases |run|
  {
    run == [] || (Possible(s, run[0]) && Legal(Step(s, run[0]), run[1..]))
  }

  /** No rotation of the run starts from a bundle that was replaced after it was read. */
  ghost predicate Punctual(s: State, run: seq<Action>)
    requires Legal(s, run)
    decreases |run|
  {
    run == [] || (InTime(s, run[0]) && Punctual(Step(s, run[0]), run[1..]))
  }

  ghost function Exec(s: State, run: seq<Action>): State
    requires Legal(s, run)
    decreases |run|
  {
    if run == [] then s else Exec(Step(s, run[0]), run[1..])
  }
}
