/** The turn lifecycle of runner/runtime/wire.ts: turns queued per session, the promise chain that
    serialises them, one append-only ledger per turn, live streams on one turn and observers that
    multiplex several sessions.

    JavaScript runs one handler at a time between awaits, so every handler is one atomic step on a
    `State`, and an interleaving is any sequence of steps. */
module Turns {
  import opened Sequences
  import opened Options

  /** A server-issued turn id. The turn's ledger file is found by the same id. */
  type Id = nat

  datatype Session = Session(pkg: string, slot: string)

  /** What a harness session writes into a ledger. */
  datatype Envelope = Reply(text: string) | Failure(message: string) | File(path: string) | Other(body: string)

  /** One ledger line, without its time stamp: the two lifecycle events of wire.ts, or an envelope. */
  datatype Line = Started(turn: Id) | Settled(turn: Id, ok: bool) | Env(e: Envelope)

  datatype Status = Queued | Running

  datatype Sink = ToStream(stream: nat) | ToObserver(observer: nat)

  /** A TurnRecord that has not settled; settling removes it from the `turns` map in the same step. */
  datatype Turn = Turn(at: Session, status: Status, envelope: bool, announced: set<string>, sinks: set<Sink>) {
    /** The flags that follow a line written for this turn. */
    function Mark(line: Line): Turn {
      match line
      case Env(Reply(_)) => this.(envelope := true)
      case Env(Failure(_)) => this.(envelope := true)
      case Env(File(p)) => this.(announced := announced + {p})
      case _ => this
    }
  }

  datatype Phase = Open | Ended | Dropped

  /** One SSE response on one turn: what was sent, and whether it is open, ended by the server or
      dropped by the client. */
  datatype Stream = Stream(turn: Id, sent: seq<Line>, phase: Phase) {
    function Send(line: Line): Stream {
      if phase == Open then this.(sent := sent + [line]) else this
    }
    function End(): Stream {
      if phase == Open then this.(phase := Ended) else this
    }
  }

  datatype Note =
    | Ready
    | Subscribed(slot: string, turns: seq<Id>)
    | Announced(slot: string, turn: Id)
    | Tagged(slot: string, turn: Id, line: Line)

  datatype Observer = Observer(pkg: string, name: string, sent: seq<Note>, open: bool, sessions: set<string>, held: set<Id>) {
    function Send(notes: seq<Note>): Observer {
      if open then this.(sent := sent + notes) else this
    }
  }

  datatype State = State(
    turns: map<Id, Turn>,
    ledger: map<Id, seq<Line>>,
    queues: map<Session, seq<Id>>,
    chain: map<Session, Id>,            // sessionChains: which promise chain a session appends to
    thunks: map<Id, seq<Id>>,           // the pending thunks of every promise chain, detached ones too
    streams: map<nat, Stream>,
    observers: map<nat, Observer>,      // every Observer object
    named: map<(string, string), nat>,  // the `observers` map: the standing observer of an id
    watching: map<Session, set<nat>>,   // sessionObservers
    recorded: set<Id>,                  // every turn id this process recorded
    mixed: set<Id>,                     // turns for which ledger and relayed events have parted
    strayed: set<Id>)                   // those of them whose ledger got an event not relayed to them

  // ---------------------------------------------------------------- lookups

  function Log(ledger: map<Id, seq<Line>>, id: Id): seq<Line> {
    if id in ledger then ledger[id] else []
  }

  function Queue(s: State, at: Session): seq<Id> {
    if at in s.queues then s.queues[at] else []
  }

  /** The running turn of a session, or the one that runs next. */
  function Active(s: State, at: Session): Option<Id> {
    if Queue(s, at) == [] then None else Some(Queue(s, at)[0])
  }

  function Watchers(s: State, at: Session): set<nat> {
    if at in s.watching then s.watching[at] else {}
  }

  function Filter(q: seq<Id>, keep: set<Id>): (r: seq<Id>)
    ensures forall x :: x in r <==> x in q && x in keep
    ensures |r| <= |q|
  {
    if q == [] then []
    else if q[0] in keep then [q[0]] + Filter(q[1..], keep)
    else Filter(q[1..], keep)
  }

  function Tags(slot: string, id: Id, lines: seq<Line>): (r: seq<Note>)
    ensures |r| == |lines| && forall i :: 0 <= i < |r| ==> r[i] == Tagged(slot, id, lines[i])
  {
    seq(|lines|, i requires 0 <= i < |lines| => Tagged(slot, id, lines[i]))
  }

  // ---------------------------------------------------------------- writing

  function SendAll(streams: map<nat, Stream>, sinks: set<Sink>, line: Line): map<nat, Stream> {
    map k | k in streams :: if ToStream(k) in sinks then streams[k].Send(line) else streams[k]
  }

  function TellAll(observers: map<nat, Observer>, sinks: set<Sink>, note: Note): map<nat, Observer> {
    map o | o in observers :: if ToObserver(o) in sinks then observers[o].Send([note]) else observers[o]
  }

  /** relayTurnEvent: live sinks and flags, no ledger. */
  function Relay(s: State, id: Id, line: Line): State
    requires id in s.turns
  {
    var t := s.turns[id];
    s.(turns := s.turns[id := t.Mark(line)],
       streams := SendAll(s.streams, t.sinks, line),
       observers := TellAll(s.observers, t.sinks, Tagged(t.at.slot, id, line)))
  }

  /** appendTurnEvent: the ledger first, then as Relay. */
  function Append(s: State, id: Id, line: Line): State
    requires id in s.turns
  {
    Relay(s.(ledger := s.ledger[id := Log(s.ledger, id) + [line]]), id, line)
  }

  // ---------------------------------------------------------------- opening turns

  function Announcement(o: Observer, slot: string, id: Id, lines: seq<Line>): Observer {
    var told := o.Send([Announced(slot, id)] + Tags(slot, id, lines));
    told.(held := told.held + {id})
  }

  /** The turn is announced to a set of observers: each hears of it, replays its ledger and holds a sink. */
  function AnnounceTo(s: State, id: Id, to: set<nat>): State
    requires id in s.turns
  {
    var t := s.turns[id];
    s.(turns := s.turns[id := t.(sinks := t.sinks + (set o | o in to && o in s.observers && id !in s.observers[o].held :: ToObserver(o)))],
       observers := map o | o in s.observers ::
         if o in to then Announcement(s.observers[o], t.at.slot, id, Log(s.ledger, id)) else s.observers[o])
  }

  /** announceTurn: to every observer of the session. */
  function Announce(s: State, id: Id): State
    requires id in s.turns
  {
    AnnounceTo(s, id, Watchers(s, s.turns[id].at))
  }

  /** A fresh record at the end of its session's queue. */
  function Stand(s: State, id: Id, at: Session, status: Status): State {
    s.(turns := s.turns[id := Turn(at, status, false, {}, {})],
       ledger := s.ledger[id := Log(s.ledger, id)],
       queues := s.queues[at := Queue(s, at) + [id]],
       recorded := s.recorded + {id})
  }

  /** Chaining one more thunk: onto the session's chain, or onto a new one named after the turn. */
  function Chain(s: State, id: Id, at: Session): State {
    var c := if at in s.chain then s.chain[at] else id;
    s.(chain := s.chain[at := c], thunks := s.thunks[c := (if at in s.chain && c in s.thunks then s.thunks[c] else []) + [id]])
  }

  function Enqueue(s: State, id: Id, at: Session): State {
    Chain(Announce(Stand(s, id, at, Queued), id), id, at)
  }

  /** adoptSessionTurn: refused while the session already has a turn standing. */
  function Adopt(s: State, id: Id, at: Session): State {
    if id in s.turns || Active(s, at).Some? then s
    else Append(Announce(Chain(Stand(s, id, at, Running), id, at), id), id, Started(id))
  }

  // ---------------------------------------------------------------- the chain

  /** The front thunk of a chain runs: runTurn up to its first await. */
  function Start(s: State, c: Id): State
    requires c in s.thunks && s.thunks[c] != [] && s.thunks[c][0] in s.turns
  {
    var id := s.thunks[c][0];
    Append(s.(turns := s.turns[id := s.turns[id].(status := Running)]), id, Started(id))
  }

  /** The front thunk's promise resolves: its turn has settled (or had before the thunk ran). */
  function Pop(s: State, c: Id): State
    requires c in s.thunks && s.thunks[c] != []
  {
    s.(thunks := s.thunks[c := s.thunks[c][1..]])
  }

  // ---------------------------------------------------------------- settling

  /** What settleTurn does after its last line: out of the queue, the chain dropped with an empty
      queue, sinks ended, the record gone. */
  function Leave(s: State, id: Id): State
    requires id in s.turns
  {
    var t := s.turns[id];
    var q := Filter(Queue(s, t.at), s.turns.Keys - {id});
    s.(turns := s.turns - {id},
       queues := if q == [] then s.queues - {t.at} else s.queues[t.at := q],
       chain := if q == [] then s.chain - {t.at} else s.chain,
       streams := map k | k in s.streams :: if ToStream(k) in t.sinks then s.streams[k].End() else s.streams[k],
       observers := map o | o in s.observers ::
         if ToObserver(o) in t.sinks then s.observers[o].(held := s.observers[o].held - {id}) else s.observers[o])
  }

  /** settleTurn */
  function Settle(s: State, id: Id, ok: bool): State
    requires id in s.turns
  {
    Leave(Append(s, id, Settled(id, ok)), id)
  }

  datatype Outcome = Done(files: seq<string>, reply: string) | Failed(message: string)

  /** File lines for the result files no line has announced yet. */
  function AppendFiles(s: State, id: Id, files: seq<string>): (r: State)
    requires id in s.turns
    ensures id in r.turns
    decreases |files|
  {
    if files == [] then s
    else AppendFiles(if files[0] in s.turns[id].announced then s else Append(s, id, Env(File(files[0]))), id, files[1..])
  }

  /** The closing envelope: synthesised only when none was relayed. */
  function Conclude(s: State, id: Id, e: Envelope): (r: State)
    requires id in s.turns
    ensures id in r.turns
  {
    if s.turns[id].envelope then s else Append(s, id, Env(e))
  }

  /** The end of runTurn, and releaseSessionTurn for an adopted turn. */
  function Finish(s: State, id: Id, outcome: Outcome): State
    requires id in s.turns
  {
    match outcome
    case Done(files, reply) => Settle(Conclude(AppendFiles(s, id, files), id, Reply(reply)), id, true)
    case Failed(message) => Settle(Conclude(s, id, Failure(message)), id, false)
  }

  const INTERRUPTED := "interrupted before it started"
  const DELETED := "the session was deleted"

  /** A queued turn ends without ever running. */
  function Abort(s: State, id: Id, message: string): State
    requires id in s.turns
  {
    Settle(Append(s, id, Env(Failure(message))), id, false)
  }

  /** The interrupt handler: a queued turn is aborted, a running one is only asked to cancel. */
  function Interrupt(s: State, id: Id): State {
    if id in s.turns && s.turns[id].status == Queued then Abort(s, id, INTERRUPTED) else s
  }

  /** The delete handler's sweep over a copy of the queue. */
  function AbortQueued(s: State, ids: seq<Id>): State
    decreases |ids|
  {
    if ids == [] then s
    else AbortQueued(if ids[0] in s.turns && s.turns[ids[0]].status == Queued then Abort(s, ids[0], DELETED) else s, ids[1..])
  }

  // ---------------------------------------------------------------- harness events

  /** The running turn that a harness event of this session would be relayed to. */
  function Tapped(s: State, at: Session): (t: Option<Id>)
    ensures t.Some? ==> t.value in s.turns
  {
    var a := Active(s, at);
    if a.Some? && a.value in s.turns && s.turns[a.value].status == Running then a else None
  }

  /** The turns that an event parts from their ledgers: none when its file is the running turn's, else its
      file's and the running turn. */
  function Parted(s: State, at: Session, file: Id): set<Id> {
    var t := Tapped(s, at);
    if t == None then {file} else if t == Some(file) then {} else {file, t.value}
  }

  function Stray(s: State, at: Session, file: Id): set<Id> {
    if Tapped(s, at) == Some(file) then {} else {file}
  }

  /** A session appends an event to its own ledger file. */
  function Written(s: State, at: Session, file: Id, e: Envelope): State {
    s.(ledger := s.ledger[file := Log(s.ledger, file) + [Env(e)]],
       mixed := s.mixed + Parted(s, at, file),
       strayed := s.strayed + Stray(s, at, file))
  }

  /** One harness event: the session writes it, then taps the wire, which relays it to whatever turn of
      that session is running. */
  function SessionEvent(s: State, at: Session, file: Id, e: Envelope): State {
    var t := Tapped(s, at);
    if t.Some? then Relay(Written(s, at, file, e), t.value, Env(e)) else Written(s, at, file, e)
  }

  // ---------------------------------------------------------------- streams

  predicate EndsSettled(log: seq<Line>) {
    exists i :: 0 <= i < |log| && log[i].Settled?
  }

  /** openLiveStream for a standing turn; replaySettledFile for a ledger whose turn is gone. */
  function OpenStream(s: State, k: nat, id: Id): State {
    var log := Log(s.ledger, id);
    if id in s.turns then
      s.(streams := s.streams[k := Stream(id, log, Open)],
         turns := s.turns[id := s.turns[id].(sinks := s.turns[id].sinks + {ToStream(k)})])
    else
      s.(streams := s.streams[k := Stream(id, if EndsSettled(log) then log else log + [Settled(id, false)], Ended)])
  }

  /** The client goes away. */
  function DropStream(s: State, k: nat): State
    requires k in s.streams
  {
    var st := s.streams[k];
    if st.phase != Open then s
    else
      s.(streams := s.streams[k := st.(phase := Dropped)],
         turns := if st.turn in s.turns then s.turns[st.turn := s.turns[st.turn].(sinks := s.turns[st.turn].sinks - {ToStream(k)})] else s.turns)
  }

  // ---------------------------------------------------------------- observers

  /** unobserveSession for a set of sessions at once. */
  function Detach(s: State, o: nat, slots: set<string>): State
    requires o in s.observers
  {
    var ob := s.observers[o];
    var gone := set id | id in ob.held && id in s.turns && s.turns[id].at.slot in slots;
    s.(watching := map at | at in s.watching && (!Hit(ob, at, slots) || s.watching[at] - {o} != {}) ::
         if Hit(ob, at, slots) then s.watching[at] - {o} else s.watching[at],
       turns := map id | id in s.turns ::
         if id in gone then s.turns[id].(sinks := s.turns[id].sinks - {ToObserver(o)}) else s.turns[id],
       observers := s.observers[o := ob.(sessions := ob.sessions - slots, held := ob.held - gone)])
  }

  predicate Hit(ob: Observer, at: Session, slots: set<string>) {
    at.pkg == ob.pkg && at.slot in slots
  }

  function Unsubscribe(s: State, o: nat, slot: string): State
    requires o in s.observers
  {
    Detach(s, o, {slot})
  }

  /** The response is shut: nothing more is sent, and the id no longer names this observer. */
  function Shut(s: State, o: nat): State
    requires o in s.observers
  {
    var ob := s.observers[o];
    var key := (ob.pkg, ob.name);
    s.(observers := s.observers[o := ob.(open := false)],
       named := if key in s.named && s.named[key] == o then s.named - {key} else s.named)
  }

  /** An observer's stream closes, and every subscription and sink goes with it. */
  function CloseObserver(s: State, o: nat): State
    requires o in s.observers
  {
    if s.observers[o].open then Detach(Shut(s, o), o, s.observers[o].sessions) else s
  }

  /** A new observer; one standing under the same id is closed first. */
  function OpenObserver(s: State, o: nat, pkg: string, name: string): State {
    var key := (pkg, name);
    var s1 := if key in s.named && s.named[key] in s.observers then CloseObserver(s, s.named[key]) else s;
    Welcome(s1, o, pkg, name)
  }

  function Welcome(s: State, o: nat, pkg: string, name: string): State {
    s.(observers := s.observers[o := Observer(pkg, name, [Ready], true, {}, {})], named := s.named[(pkg, name) := o])
  }

  /** The ledgers of a queue, replayed in queue order. */
  function Replay(ledger: map<Id, seq<Line>>, slot: string, q: seq<Id>): seq<Note> {
    if q == [] then [] else Replay(ledger, slot, q[..|q| - 1]) + Tags(slot, q[|q| - 1], Log(ledger, q[|q| - 1]))
  }

  /** The observer subscribes and has replayed some turns of the session's queue. */
  function ObserveSome(s: State, o: nat, slot: string, some: seq<Id>): State
    requires o in s.observers
  {
    var ob := s.observers[o];
    var at := Session(ob.pkg, slot);
    var told := ob.Send([Subscribed(slot, Queue(s, at))] + Replay(s.ledger, slot, some));
    s.(watching := s.watching[at := Watchers(s, at) + {o}],
       observers := s.observers[o := told.(sessions := ob.sessions + {slot}, held := ob.held + Elems(some))],
       turns := map id | id in s.turns ::
         if id in some && id !in ob.held then s.turns[id].(sinks := s.turns[id].sinks + {ToObserver(o)}) else s.turns[id])
  }

  /** observeSession */
  function Observe(s: State, o: nat, slot: string): State
    requires o in s.observers
  {
    ObserveSome(s, o, slot, Queue(s, Session(s.observers[o].pkg, slot)))
  }

  /** One added session of the subscription handler: a standing subscription is replayed from the start. */
  function Subscribe(s: State, o: nat, slot: string): State
    requires o in s.observers
  {
    Observe(if slot in s.observers[o].sessions then Unsubscribe(s, o, slot) else s, o, slot)
  }
}
