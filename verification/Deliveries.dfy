/** The promised deliveries of delegated work in runner/runtime/tools.ts: a record on disk for each
    promise, delivered by the process that made it or by the sweep of a later one, with a crash possible
    between any two steps. A step is one synchronous file operation or one awaited session. */
module Deliveries {
  import opened Options

  type Id = nat

  const MAX_ATTEMPTS: nat := 3
  const TTL_MS: int := 604800000

  /** A promise's record: where to, where the answer sits, when it was made. */
  datatype Rec = Rec(to: string, from: string, since: int, attempts: nat)

  /** The last message of the conversation the delegation runs in. */
  datatype Message = Message(bot: bool, t: int)

  /** Who put an answer into which conversation, and the line that the sweep took for it. */
  datatype Source = Direct | BySweep(answer: Message)
  datatype Delivery = Delivery(id: Id, to: string, via: Source)

  datatype Stage = Next | Delivering(id: Id, rec: Rec, answer: Message) | Clearing(id: Id)

  /** What a process holds in memory: where promises go whose delegation still runs, deliveries made but not
      yet cleared, and a sweep over the records it read. */
  datatype Memory = Memory(waiting: map<Id, string>, clearing: set<Id>, rest: seq<(Id, Rec)>, stage: Stage)

  const FRESH := Memory(map[], {}, [], Next)

  /** `promised`, `sent` and `dropped` are the history; a crash leaves them and the disk. */
  datatype State = State(disk: map<Id, Rec>, memory: Memory, promised: map<Id, Rec>, sent: seq<Delivery>, dropped: map<Id, (int, nat)>)

  const BOOT := State(map[], FRESH, map[], [], map[])

  // ---------------------------------------------------------------- the promise

  /** deliverOnSettle: the record first. */
  function Promise(s: State, id: Id, to: string, from: string, now: int): State {
    var rec := Rec(to, from, now, 0);
    s.(disk := s.disk[id := rec], promised := s.promised[id := rec], memory := s.memory.(waiting := s.memory.waiting[id := to]))
  }

  /** deliver's awaited deliverNotice: on success the record is about to be cleared; on failure it stays,
      though the answer may have reached the conversation. */
  function Notify(s: State, id: Id, reached: bool, ok: bool): State
    requires id in s.memory.waiting
  {
    s.(sent := if reached || ok then s.sent + [Delivery(id, s.memory.waiting[id], Direct)] else s.sent,
       memory := s.memory.(waiting := s.memory.waiting - {id},
                           clearing := if ok then s.memory.clearing + {id} else s.memory.clearing))
  }

  /** clearPending after it */
  function ClearDirect(s: State, id: Id): State {
    s.(disk := s.disk - {id}, memory := s.memory.(clearing := s.memory.clearing - {id}))
  }

  // ---------------------------------------------------------------- the sweep

  /** Over the records in the order the directory lists them */
  function Records(disk: map<Id, Rec>, order: seq<Id>): (r: seq<(Id, Rec)>)
    requires forall i :: 0 <= i < |order| ==> order[i] in disk
    ensures |r| == |order| && forall i :: 0 <= i < |r| ==> r[i] == (order[i], disk[order[i]])
  {
    seq(|order|, i requires 0 <= i < |order| => (order[i], disk[order[i]]))
  }

  predicate GivenUp(rec: Rec, now: int) {
    now - rec.since > TTL_MS || rec.attempts >= MAX_ATTEMPTS
  }

  /** An answer that came after the promise */
  predicate Answered(rec: Rec, last: Option<Message>) {
    last.Some? && last.value.bot && last.value.t > rec.since
  }

  /** The next record: given up, left alone, or to be delivered. */
  function Look(s: State, now: int, last: Option<Message>): State
    requires s.memory.rest != []
  {
    var (id, rec) := s.memory.rest[0];
    var m := s.memory.(rest := s.memory.rest[1..]);
    if GivenUp(rec, now) then
      s.(disk := s.disk - {id}, dropped := s.dropped[id := (now - rec.since, rec.attempts)], memory := m)
    else if Answered(rec, last) then s.(memory := m.(stage := Delivering(id, rec, last.value)))
    else s.(memory := m)
  }

  /** The awaited deliverNotice of the sweep: on failure the record is written with one more attempt. */
  function NotifySwept(s: State, reached: bool, ok: bool): State
    requires s.memory.stage.Delivering?
  {
    var Delivering(id, rec, answer) := s.memory.stage;
    var s1 := s.(sent := if reached || ok then s.sent + [Delivery(id, rec.to, BySweep(answer))] else s.sent);
    if ok then s1.(memory := s.memory.(stage := Clearing(id)))
    else s1.(disk := s.disk[id := rec.(attempts := rec.attempts + 1)], memory := s.memory.(stage := Next))
  }

  function ClearSwept(s: State): State
    requires s.memory.stage.Clearing?
  {
    s.(disk := s.disk - {s.memory.stage.id}, memory := s.memory.(stage := Next))
  }

  // ---------------------------------------------------------------- runs

  datatype Action =
    | DoPromise(id: Id, to: string, from: string, now: int)
    | DoNotify(id: Id, reached: bool, ok: bool)
    | DoClear(id: Id)
    | DoSweep(order: seq<Id>)
    | DoLook(now: int, last: Option<Message>)
    | DoNotifySwept(reached: bool, ok: bool)
    | DoClearSwept
    | DoCrash

  ghost predicate Possible(s: State, a: Action) {
    match a
    case DoPromise(id, _, _, _) => id !in s.promised
    case DoNotify(id, _, _) => id in s.memory.waiting
    case DoClear(id) => id in s.memory.clearing
    case DoSweep(order) => s.memory.rest == [] && s.memory.stage == Next && (forall i :: 0 <= i < |order| ==> order[i] in s.disk)
    case DoLook(_, _) => s.memory.rest != [] && s.memory.stage == Next
    case DoNotifySwept(_, _) => s.memory.stage.Delivering?
    case DoClearSwept => s.memory.stage.Clearing?
    case DoCrash => true
  }

  ghost function Step(s: State, a: Action): State
    requires Possible(s, a)
  {
    match a
    case DoPromise(id, to, from, now) => Promise(s, id, to, from, now)
    case DoNotify(id, reached, ok) => Notify(s, id, reached, ok)
    case DoClear(id) => ClearDirect(s, id)
    case DoSweep(order) => s.(memory := s.memory.(rest := Records(s.disk, order)))
    case DoLook(now, last) => Look(s, now, last)
    case DoNotifySwept(reached, ok) => NotifySwept(s, reached, ok)
    case DoClearSwept => ClearSwept(s)
    case DoCrash => s.(memory := FRESH)
  }

  ghost predicate Legal(s: State, run: seq<Action>)
    decreases |run|
  {
    run == [] || (Possible(s, run[0]) && Legal(Step(s, run[0]), run[1..]))
  }

  ghost function Exec(s: State, run: seq<Action>): State
    requires Legal(s, run)
    decreases |run|
  {
    if run == [] then s else Exec(Step(s, run[0]), run[1..])
  }
}
