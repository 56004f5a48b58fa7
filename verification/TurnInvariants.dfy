/** What every step on a turn `State` keeps: the queues and chains, the ledgers, the streams and the
    observers. Each part is proved for the few primitive updates of which the handlers are built.

    A queue is what is left of its promise chain once settled turns are passed over. An open stream has
    been sent its turn's ledger so far. An open observer has been sent, for every turn it was told of since
    it subscribed, that turn's ledger so far, and it holds a sink of exactly the standing turns of its
    sessions. */
module TurnInvariants {
  import opened Sequences
  import opened Options
  import opened Turns

  // ---------------------------------------------------------------- sequences

  lemma {:induction false} FilterSame(q: seq<Id>, k1: set<Id>, k2: set<Id>)
    requires forall x :: x in q ==> (x in k1 <==> x in k2)
    ensures Filter(q, k1) == Filter(q, k2)
  {
    if q != [] {
      FilterSame(q[1..], k1, k2);
    }
  }

  lemma {:induction false} FilterAppend(p: seq<Id>, q: seq<Id>, keep: set<Id>)
    ensures Filter(p + q, keep) == Filter(p, keep) + Filter(q, keep)
  {
    if p == [] {
      assert p + q == q;
    } else {
      assert (p + q)[1..] == p[1..] + q;
      FilterAppend(p[1..], q, keep);
    }
  }

  lemma {:induction false} FilterTwice(q: seq<Id>, k1: set<Id>, k2: set<Id>)
    ensures Filter(Filter(q, k1), k2) == Filter(q, k1 * k2)
  {
    if q != [] {
      FilterTwice(q[1..], k1, k2);
      if q[0] in k1 {
        assert ([q[0]] + Filter(q[1..], k1))[1..] == Filter(q[1..], k1);
      }
    }
  }

  lemma {:induction false} FilterDistinct(q: seq<Id>, keep: set<Id>)
    requires Distinct(q)
    ensures Distinct(Filter(q, keep))
  {
    if q != [] {
      FilterDistinct(q[1..], keep);
      assert q[0] !in q[1..];
    }
  }

  lemma {:induction false} FilterAll(q: seq<Id>, keep: set<Id>)
    requires forall x :: x in q ==> x in keep
    ensures Filter(q, keep) == q
  {
    if q != [] {
      FilterAll(q[1..], keep);
    }
  }

  /** Only the head of a filtered queue can come from the front of the original. */
  lemma {:induction false} FilterTail(q: seq<Id>, keep: set<Id>, i: nat)
    requires Distinct(q) && 0 < i < |Filter(q, keep)|
    ensures exists j :: 0 < j < |q| && q[j] == Filter(q, keep)[i]
  {
    if q[0] in keep {
      assert Filter(q, keep)[i] == Filter(q[1..], keep)[i - 1];
      var x := Filter(q[1..], keep)[i - 1];
      assert x in q[1..];
      var j :| 0 <= j < |q[1..]| && q[1..][j] == x;
      assert q[j + 1] == x;
    } else {
      FilterTail(q[1..], keep, i);
      var j :| 0 < j < |q[1..]| && q[1..][j] == Filter(q, keep)[i];
      assert q[j + 1] == Filter(q, keep)[i];
    }
  }

  // ---------------------------------------------------------------- queues and chains

  ghost predicate TurnOk(s: State, id: Id) {
    id in s.turns ==> id in s.recorded && s.turns[id].at in s.queues && id in s.queues[s.turns[id].at]
  }

  /** A session's queue is distinct, holds its own turns, and only its head can be running; it is what
      is left of the session's promise chain once settled turns are passed over. */
  ghost predicate SessionOk(s: State, at: Session) {
    && (at in s.chain <==> at in s.queues)
    && (at in s.queues ==>
      && s.queues[at] != []
      && Distinct(s.queues[at])
      && (forall i :: 0 <= i < |s.queues[at]| ==> s.queues[at][i] in s.turns && s.turns[s.queues[at][i]].at == at)
      && (forall i :: 0 < i < |s.queues[at]| ==> s.turns[s.queues[at][i]].status == Queued)
      && s.chain[at] in s.thunks
      && Filter(s.thunks[s.chain[at]], s.turns.Keys) == s.queues[at])
  }

  ghost predicate ChainOk(s: State, c: Id) {
    c in s.thunks ==> c in s.recorded && Distinct(s.thunks[c]) && forall i :: 0 <= i < |s.thunks[c]| ==> s.thunks[c][i] in s.recorded
  }

  /** A standing turn's thunk sits in its session's chain, and only a front thunk has begun. */
  ghost predicate ThunkOk(s: State, c: Id, i: nat) {
    c in s.thunks && i < |s.thunks[c]| && s.thunks[c][i] in s.turns ==>
      && s.turns[s.thunks[c][i]].at in s.chain && s.chain[s.turns[s.thunks[c][i]].at] == c
      && (i > 0 ==> s.turns[s.thunks[c][i]].status == Queued)
  }

  ghost predicate QInv(s: State) {
    && (forall id {:trigger TurnOk(s, id)} :: TurnOk(s, id))
    && (forall at {:trigger SessionOk(s, at)} :: SessionOk(s, at))
    && (forall c {:trigger ChainOk(s, c)} :: ChainOk(s, c))
    && (forall c, i: nat {:trigger ThunkOk(s, c, i)} :: ThunkOk(s, c, i))
  }

  ghost predicate SameQueues(s: State, r: State) {
    && r.queues == s.queues && r.chain == s.chain && r.thunks == s.thunks && r.recorded == s.recorded
    && r.turns.Keys == s.turns.Keys
    && (forall id :: id in s.turns ==> r.turns[id].at == s.turns[id].at && r.turns[id].status == s.turns[id].status)
  }

  lemma QFrame(s: State, r: State)
    requires QInv(s) && SameQueues(s, r)
    ensures QInv(r)
  {
    forall id ensures TurnOk(r, id) { assert TurnOk(s, id); }
    forall at ensures SessionOk(r, at) { assert SessionOk(s, at); }
    forall c ensures ChainOk(r, c) { assert ChainOk(s, c); }
    forall c, i: nat ensures ThunkOk(r, c, i) { assert ThunkOk(s, c, i); }
  }

  /** A fresh turn at the end of its queue and of its chain. A turn that stands up running finds both empty. */
  lemma StandQueues(s: State, id: Id, at: Session, status: Status)
    requires QInv(s) && id !in s.recorded
    requires status == Running ==> at !in s.queues
    ensures QInv(Chain(Stand(s, id, at, status), id, at))
  {
    var r := Chain(Stand(s, id, at, status), id, at);
    assert SessionOk(s, at);
    assert TurnOk(s, id);
    assert ChainOk(s, id);
    forall x ensures TurnOk(r, x) {
      assert TurnOk(s, x);
    }
    forall a ensures SessionOk(r, a) {
      if a == at {
        StandOwnSession(s, id, at, status);
      } else {
        StandOtherSession(s, id, at, status, a);
      }
    }
    forall c ensures ChainOk(r, c) {
      assert ChainOk(s, c);
    }
    forall c, i: nat ensures ThunkOk(r, c, i) {
      StandThunk(s, id, at, status, c, i);
    }
  }

  lemma StandThunk(s: State, id: Id, at: Session, status: Status, c: Id, i: nat)
    requires QInv(s) && id !in s.recorded
    requires status == Running ==> at !in s.queues
    ensures ThunkOk(Chain(Stand(s, id, at, status), id, at), c, i)
  {
    assert ThunkOk(s, c, i) && ChainOk(s, c) && SessionOk(s, at) && ChainOk(s, id);
  }

  lemma FilterLonger(thunks: seq<Id>, q: seq<Id>, id: Id, keys: set<Id>)
    requires Filter(thunks, keys) == q && Distinct(q) && id !in keys && id !in thunks
    ensures Filter(thunks + [id], keys + {id}) == q + [id] && Distinct(q + [id])
  {
    FilterAppend(thunks, [id], keys + {id});
    FilterSame(thunks, keys + {id}, keys);
    assert [id][1..] == [];
  }

  lemma StandOwnSession(s: State, id: Id, at: Session, status: Status)
    requires QInv(s) && id !in s.recorded
    requires status == Running ==> at !in s.queues
    ensures SessionOk(Chain(Stand(s, id, at, status), id, at), at)
  {
    assert SessionOk(s, at) && TurnOk(s, id);
    if at in s.chain {
      assert ChainOk(s, s.chain[at]);
      hide QInv;
      StandBehind(s, id, at, status);
    } else {
      assert Chain(Stand(s, id, at, status), id, at).queues[at] == [id];
      assert [id][1..] == [];
    }
  }

  lemma StandBehind(s: State, id: Id, at: Session, status: Status)
    requires id !in s.turns && id !in s.recorded && status == Queued
    requires SessionOk(s, at) && at in s.chain && ChainOk(s, s.chain[at])
    ensures SessionOk(Chain(Stand(s, id, at, status), id, at), at)
  {
    var r := Chain(Stand(s, id, at, status), id, at);
    FilterLonger(s.thunks[s.chain[at]], s.queues[at], id, s.turns.Keys);
    hide Filter, Distinct;
    QueueLonger(s.queues[at], s.turns, at, id, r.turns[id]);
    assert r.turns == s.turns[id := r.turns[id]] && r.turns.Keys == s.turns.Keys + {id};
    assert r.queues[at] == s.queues[at] + [id] && r.thunks[r.chain[at]] == s.thunks[s.chain[at]] + [id];
  }

  lemma QueueLonger(q: seq<Id>, turns: map<Id, Turn>, at: Session, id: Id, t: Turn)
    requires forall i :: 0 <= i < |q| ==> q[i] in turns && turns[q[i]].at == at
    requires forall i :: 0 < i < |q| ==> turns[q[i]].status == Queued
    requires id !in turns && t.at == at && t.status == Queued && q != []
    ensures var r, now := q + [id], turns[id := t];
      && (forall i :: 0 <= i < |r| ==> r[i] in now && now[r[i]].at == at)
      && (forall i :: 0 < i < |r| ==> now[r[i]].status == Queued)
  {
  }

  lemma StandOtherSession(s: State, id: Id, at: Session, status: Status, a: Session)
    requires QInv(s) && id !in s.recorded && a != at
    ensures SessionOk(Chain(Stand(s, id, at, status), id, at), a)
  {
    var r := Chain(Stand(s, id, at, status), id, at);
    assert SessionOk(s, at) && SessionOk(s, a) && TurnOk(s, id) && ChainOk(s, id);
    if a in s.queues {
      assert r.turns.Keys == s.turns.Keys + {id};
      assert ChainOk(s, s.chain[a]);
      FilterSame(s.thunks[s.chain[a]], r.turns.Keys, s.turns.Keys);
      assert s.queues[a][0] in s.turns;
      if at in s.chain {
        assert s.turns[s.queues[a][0]].at != at;
      }
    }
  }

  lemma LeaveQueues(s: State, id: Id)
    requires QInv(s) && id in s.turns
    ensures QInv(Leave(s, id))
  {
    var r := Leave(s, id);
    var at := s.turns[id].at;
    var keys := s.turns.Keys - {id};
    assert TurnOk(s, id) && SessionOk(s, at);
    forall x ensures TurnOk(r, x) {
      assert TurnOk(s, x);
    }
    forall a ensures SessionOk(r, a) {
      LeaveSession(s, id, a);
    }
    forall c ensures ChainOk(r, c) {
      assert ChainOk(s, c);
    }
    forall c, i: nat ensures ThunkOk(r, c, i) {
      assert ThunkOk(s, c, i);
      if c in s.thunks && i < |s.thunks[c]| {
        assert TurnOk(s, s.thunks[c][i]);
      }
    }
  }

  lemma LeaveSession(s: State, id: Id, a: Session)
    requires QInv(s) && id in s.turns
    ensures SessionOk(Leave(s, id), a)
  {
    var r := Leave(s, id);
    var at := s.turns[id].at;
    var keys := s.turns.Keys - {id};
    assert r.turns.Keys == keys;
    assert TurnOk(s, id) && SessionOk(s, at) && SessionOk(s, a);
    if a in r.queues {
      FilterTwice(s.thunks[s.chain[a]], s.turns.Keys, keys);
      assert s.turns.Keys * keys == keys;
      FilterDistinct(s.queues[a], keys);
      if a != at {
        FilterAll(s.queues[a], keys);
      } else {
        forall i | 0 < i < |r.queues[a]| ensures r.turns[r.queues[a][i]].status == Queued {
          FilterTail(s.queues[a], keys, i);
        }
      }
    }
  }

  lemma StartQueues(s: State, c: Id)
    requires QInv(s) && c in s.thunks && s.thunks[c] != [] && s.thunks[c][0] in s.turns
    ensures QInv(s.(turns := s.turns[s.thunks[c][0] := s.turns[s.thunks[c][0]].(status := Running)]))
    ensures Active(s, s.turns[s.thunks[c][0]].at) == Some(s.thunks[c][0])
  {
    var id := s.thunks[c][0];
    var at := s.turns[id].at;
    var r := s.(turns := s.turns[id := s.turns[id].(status := Running)]);
    assert ThunkOk(s, c, 0) && SessionOk(s, at) && ChainOk(s, c);
    assert s.queues[at][0] == id;
    assert r.turns.Keys == s.turns.Keys;
    forall x ensures TurnOk(r, x) { assert TurnOk(s, x); }
    forall a ensures SessionOk(r, a) { assert SessionOk(s, a); }
    forall d ensures ChainOk(r, d) { assert ChainOk(s, d); }
    forall d, i: nat ensures ThunkOk(r, d, i) { assert ThunkOk(s, d, i); }
  }

  lemma PopQueues(s: State, c: Id)
    requires QInv(s) && c in s.thunks && s.thunks[c] != [] && s.thunks[c][0] !in s.turns
    ensures QInv(Pop(s, c))
  {
    var r := Pop(s, c);
    forall x ensures TurnOk(r, x) { assert TurnOk(s, x); }
    forall a ensures SessionOk(r, a) { assert SessionOk(s, a); }
    forall d ensures ChainOk(r, d) { assert ChainOk(s, d); }
    forall d, i: nat ensures ThunkOk(r, d, i) {
      assert ThunkOk(s, d, i) && ThunkOk(s, d, i + 1);
    }
  }

  // ---------------------------------------------------------------- streams

  /** A stream shows its turn's ledger, unless the turn is mixed. */
  ghost predicate StreamOk(s: State, k: nat) {
    k in s.streams ==>
      var st := s.streams[k];
      && st.turn in s.ledger
      && (st.phase == Open ==> st.turn in s.turns && ToStream(k) in s.turns[st.turn].sinks)
      && (st.phase == Ended && st.turn in s.recorded ==> st.turn !in s.turns)
      && (st.phase == Dropped ==> st.turn in s.recorded)
      && (st.turn !in s.mixed ==> Shows(st, s.recorded, Log(s.ledger, st.turn)))
  }

  predicate Shows(st: Stream, recorded: set<Id>, log: seq<Line>) {
    match st.phase
    case Open => st.sent == log
    case Ended => st.turn in recorded ==> st.sent == log
    case Dropped => st.sent <= log
  }

  ghost predicate SinkOk(s: State, id: Id, k: nat) {
    id in s.turns && ToStream(k) in s.turns[id].sinks ==>
      k in s.streams && s.streams[k].turn == id && s.streams[k].phase == Open
  }

  ghost predicate SInv(s: State) {
    && (forall k {:trigger StreamOk(s, k)} :: StreamOk(s, k))
    && (forall id, k {:trigger SinkOk(s, id, k)} :: SinkOk(s, id, k))
  }

  // ---------------------------------------------------------------- observers

  /** The ids an observer was told of since it last subscribed to the session. */
  function Seen(sent: seq<Note>, slot: string): set<Id> {
    if sent == [] then {}
    else
      var front := sent[..|sent| - 1];
      match sent[|sent| - 1]
      case Subscribed(sl, ids) => if sl == slot then (set id | id in ids) else Seen(front, slot)
      case Announced(sl, id) => if sl == slot then Seen(front, slot) + {id} else Seen(front, slot)
      case _ => Seen(front, slot)
  }

  /** The ledger lines of one turn that an observer received since it last subscribed to the session. */
  function Lines(sent: seq<Note>, slot: string, id: Id): seq<Line> {
    if sent == [] then []
    else
      var front := sent[..|sent| - 1];
      match sent[|sent| - 1]
      case Subscribed(sl, _) => if sl == slot then [] else Lines(front, slot, id)
      case Tagged(sl, t, line) => if sl == slot && t == id then Lines(front, slot, id) + [line] else Lines(front, slot, id)
      case _ => Lines(front, slot, id)
  }

  lemma {:induction false} TagsSent(sent: seq<Note>, slot: string, id: Id, lines: seq<Line>, sl: string, x: Id)
    ensures Seen(sent + Tags(slot, id, lines), sl) == Seen(sent, sl)
    ensures Lines(sent + Tags(slot, id, lines), sl, x) == Lines(sent, sl, x) + (if sl == slot && x == id then lines else [])
  {
    if lines == [] {
      assert sent + Tags(slot, id, lines) == sent;
      assert Lines(sent, sl, x) + [] == Lines(sent, sl, x);
    } else {
      var init := lines[..|lines| - 1];
      var all := sent + Tags(slot, id, lines);
      assert all[..|all| - 1] == sent + Tags(slot, id, init);
      assert all[|all| - 1] == Tagged(slot, id, lines[|lines| - 1]);
      TagsSent(sent, slot, id, init, sl, x);
      assert init + [lines[|lines| - 1]] == lines;
      assert Lines(sent, sl, x) + (init + [lines[|lines| - 1]]) == Lines(sent, sl, x) + init + [lines[|lines| - 1]];
    }
  }

  lemma TaggedSent(sent: seq<Note>, slot: string, id: Id, line: Line, sl: string, x: Id)
    ensures Seen(sent + [Tagged(slot, id, line)], sl) == Seen(sent, sl)
    ensures Lines(sent + [Tagged(slot, id, line)], sl, x) == if sl == slot && x == id then Lines(sent, sl, x) + [line] else Lines(sent, sl, x)
  {
    assert (sent + [Tagged(slot, id, line)])[..|sent|] == sent;
  }

  /** What a replay of a queue adds for one turn. */
  function Replayed(ledger: map<Id, seq<Line>>, q: seq<Id>, x: Id): seq<Line> {
    if x in q then Log(ledger, x) else []
  }

  lemma ReplayedMore(ledger: map<Id, seq<Line>>, init: seq<Id>, last: Id, x: Id, lines: seq<Line>)
    requires last !in init
    ensures lines + Replayed(ledger, init + [last], x)
      == lines + Replayed(ledger, init, x) + (if x == last then Log(ledger, last) else [])
  {
  }

  lemma {:induction false} ReplaySeen(sent: seq<Note>, ledger: map<Id, seq<Line>>, slot: string, q: seq<Id>, sl: string)
    ensures Seen(sent + Replay(ledger, slot, q), sl) == Seen(sent, sl)
  {
    if q == [] {
      assert sent + Replay(ledger, slot, q) == sent;
    } else {
      var last := q[|q| - 1];
      var before := sent + Replay(ledger, slot, q[..|q| - 1]);
      ReplaySeen(sent, ledger, slot, q[..|q| - 1], sl);
      TagsSent(before, slot, last, Log(ledger, last), sl, last);
      assert sent + Replay(ledger, slot, q) == before + Tags(slot, last, Log(ledger, last));
    }
  }

  lemma {:induction false} ReplaySent(sent: seq<Note>, ledger: map<Id, seq<Line>>, slot: string, q: seq<Id>, sl: string, x: Id)
    requires Distinct(q)
    ensures Lines(sent + Replay(ledger, slot, q), sl, x) == Lines(sent, sl, x) + (if sl == slot then Replayed(ledger, q, x) else [])
  {
    ReplayedNone(ledger, x);
    ReplayStep(sent, ledger, slot, q);
    hide Lines, Replay, Replayed, Tags, Log, Distinct;
    assert Lines(sent, sl, x) + [] == Lines(sent, sl, x);
    if q != [] {
      var init := q[..|q| - 1];
      var last := q[|q| - 1];
      DistinctInit(q);
      ReplaySent(sent, ledger, slot, init, sl, x);
      TagsSent(sent + Replay(ledger, slot, init), slot, last, Log(ledger, last), sl, x);
      ReplayedMore(ledger, init, last, x, Lines(sent, sl, x));
    }
  }

  lemma ReplayedNone(ledger: map<Id, seq<Line>>, x: Id)
    ensures Replayed(ledger, [], x) == []
  {
  }

  lemma ReplayStep(sent: seq<Note>, ledger: map<Id, seq<Line>>, slot: string, q: seq<Id>)
    ensures q == [] ==> sent + Replay(ledger, slot, q) == sent
    ensures q != [] ==>
      var last := q[|q| - 1];
      sent + Replay(ledger, slot, q) == sent + Replay(ledger, slot, q[..|q| - 1]) + Tags(slot, last, Log(ledger, last))
  {
    hide Tags, Log;
  }

  lemma DistinctInit(q: seq<Id>)
    requires Distinct(q) && q != []
    ensures Distinct(q[..|q| - 1]) && q[|q| - 1] !in q[..|q| - 1] && q == q[..|q| - 1] + [q[|q| - 1]]
  {
  }

  lemma AnnouncedSent(sent: seq<Note>, slot: string, id: Id, sl: string, x: Id)
    ensures Seen(sent + ([Announced(slot, id)] + Tags(slot, id, [])), sl) == Seen(sent, sl) + (if sl == slot then {id} else {})
    ensures Lines(sent + ([Announced(slot, id)] + Tags(slot, id, [])), sl, x) == Lines(sent, sl, x)
  {
    var all := sent + ([Announced(slot, id)] + Tags(slot, id, []));
    assert all[..|all| - 1] == sent;
  }

  lemma SubscribedSent(sent: seq<Note>, ledger: map<Id, seq<Line>>, slot: string, q: seq<Id>, sl: string, x: Id)
    requires Distinct(q)
    ensures var all := sent + ([Subscribed(slot, q)] + Replay(ledger, slot, q));
      && Seen(all, sl) == (if sl == slot then (set id | id in q) else Seen(sent, sl))
      && Lines(all, sl, x) == (if sl != slot then Lines(sent, sl, x) else if x in q then Log(ledger, x) else [])
  {
    var first := sent + [Subscribed(slot, q)];
    assert first[..|first| - 1] == sent;
    ReplaySeen(first, ledger, slot, q, sl);
    ReplaySent(first, ledger, slot, q, sl, x);
    assert [] + Replayed(ledger, q, x) == Replayed(ledger, q, x) && Lines(sent, sl, x) + [] == Lines(sent, sl, x);
    assert sent + ([Subscribed(slot, q)] + Replay(ledger, slot, q)) == first + Replay(ledger, slot, q);
  }

  ghost predicate Interested(ob: Observer, at: Session) {
    ob.pkg == at.pkg && at.slot in ob.sessions
  }

  /** An observer's sinks and a turn's sinks name each other, exactly for the turns it subscribes to. */
  ghost predicate HeldOk(s: State, o: nat, id: Id) {
    && (o in s.observers && id in s.observers[o].held <==> o in s.observers && id in s.turns && Interested(s.observers[o], s.turns[id].at))
    && (o in s.observers && id in s.observers[o].held <==> id in s.turns && ToObserver(o) in s.turns[id].sinks)
  }

  ghost predicate WatchOk(s: State, o: nat, at: Session) {
    && (at in s.watching ==> s.watching[at] != {})
    && (o in Watchers(s, at) <==> o in s.observers && Interested(s.observers[o], at))
  }

  /** An open observer has, for every turn it was told of since it subscribed, the ledger so far, unless the
      turn is mixed; and it was told of every standing turn of its sessions. */
  ghost predicate NoteOk(s: State, o: nat, slot: string, id: Id) {
    o in s.observers && s.observers[o].open && slot in s.observers[o].sessions ==>
      var ob := s.observers[o];
      && (id in Seen(ob.sent, slot) ==>
        && id in s.recorded
        && (id !in s.mixed ==> Lines(ob.sent, slot, id) == Log(s.ledger, id))
        && (id in s.turns ==> s.turns[id].at == Session(ob.pkg, slot)))
      && (id !in Seen(ob.sent, slot) ==> Lines(ob.sent, slot, id) == [])
      && (id in s.turns && s.turns[id].at == Session(ob.pkg, slot) ==> id in Seen(ob.sent, slot))
  }

  ghost predicate NamedOk(s: State, key: (string, string)) {
    key in s.named ==>
      && s.named[key] in s.observers
      && s.observers[s.named[key]].open
      && (s.observers[s.named[key]].pkg, s.observers[s.named[key]].name) == key
  }

  ghost predicate OInv(s: State) {
    && (forall o, id {:trigger HeldOk(s, o, id)} :: HeldOk(s, o, id))
    && (forall o, at {:trigger WatchOk(s, o, at)} :: WatchOk(s, o, at))
    && (forall o, slot, id {:trigger NoteOk(s, o, slot, id)} :: NoteOk(s, o, slot, id))
    && (forall key {:trigger NamedOk(s, key)} :: NamedOk(s, key))
  }

  // ---------------------------------------------------------------- frames

  /** Streams and observers do not see status, queues, chains, or ledgers that no turn here owns. */
  ghost predicate SameViews(s: State, r: State) {
    && r.streams == s.streams && r.observers == s.observers && r.watching == s.watching && r.named == s.named
    && r.recorded == s.recorded && r.turns.Keys == s.turns.Keys && r.mixed == s.mixed
    && (forall id :: id in s.turns ==> r.turns[id].at == s.turns[id].at && r.turns[id].sinks == s.turns[id].sinks)
    && s.ledger.Keys <= r.ledger.Keys
    && (forall id :: id in s.recorded ==> Log(r.ledger, id) == Log(s.ledger, id))
  }

  lemma ViewFrame(s: State, r: State)
    requires SInv(s) && OInv(s) && SameViews(s, r) && s.turns.Keys <= s.recorded
    ensures SInv(r) && OInv(r)
  {
    hide Lines, Seen;
    forall k ensures StreamOk(r, k) { assert StreamOk(s, k); }
    forall id, k ensures SinkOk(r, id, k) { assert SinkOk(s, id, k); }
    forall o, id ensures HeldOk(r, o, id) { assert HeldOk(s, o, id); }
    forall o, at ensures WatchOk(r, o, at) { assert WatchOk(s, o, at); }
    forall o, slot, id ensures NoteOk(r, o, slot, id) { assert NoteOk(s, o, slot, id); }
    forall key ensures NamedOk(r, key) { assert NamedOk(s, key); }
  }

  // ---------------------------------------------------------------- append and leave

  lemma AppendStreams(s: State, id: Id, line: Line)
    requires SInv(s) && id in s.turns && s.turns.Keys <= s.recorded
    ensures SInv(Append(s, id, line))
  {
    var r := Append(s, id, line);
    forall k ensures StreamOk(r, k) {
      assert StreamOk(s, k) && SinkOk(s, id, k);
    }
    forall x, k ensures SinkOk(r, x, k) {
      assert SinkOk(s, x, k);
    }
  }

  lemma AppendObservers(s: State, id: Id, line: Line)
    requires OInv(s) && id in s.turns && s.turns.Keys <= s.recorded
    ensures OInv(Append(s, id, line))
  {
    hide Lines, Seen, Tags;
    var r := Append(s, id, line);
    forall o, x ensures HeldOk(r, o, x) { assert HeldOk(s, o, x); }
    forall o, at ensures WatchOk(r, o, at) { assert WatchOk(s, o, at); }
    forall key ensures NamedOk(r, key) { assert NamedOk(s, key); }
    forall o, slot, x ensures NoteOk(r, o, slot, x) {
      assert NoteOk(s, o, slot, x) && HeldOk(s, o, id);
      if o in s.observers {
        TaggedSent(s.observers[o].sent, s.turns[id].at.slot, id, line, slot, x);
      }
    }
  }

  lemma AppendQueues(s: State, id: Id, line: Line)
    requires QInv(s) && id in s.turns
    ensures QInv(Append(s, id, line))
  {
    QFrame(s, Append(s, id, line));
  }

  lemma LeaveStreams(s: State, id: Id)
    requires SInv(s) && id in s.turns && s.turns.Keys <= s.recorded
    ensures SInv(Leave(s, id))
  {
    var r := Leave(s, id);
    forall k ensures StreamOk(r, k) {
      assert StreamOk(s, k) && SinkOk(s, id, k);
    }
    forall x, k ensures SinkOk(r, x, k) {
      assert SinkOk(s, x, k) && SinkOk(s, id, k);
    }
  }

  lemma LeaveObservers(s: State, id: Id)
    requires OInv(s) && id in s.turns
    ensures OInv(Leave(s, id))
  {
    hide Lines, Seen;
    var r := Leave(s, id);
    forall o, x ensures HeldOk(r, o, x) { assert HeldOk(s, o, x); }
    forall o, at ensures WatchOk(r, o, at) { assert WatchOk(s, o, at); }
    forall key ensures NamedOk(r, key) { assert NamedOk(s, key); }
    forall o, slot, x ensures NoteOk(r, o, slot, x) { assert NoteOk(s, o, slot, x); }
  }

  // ---------------------------------------------------------------- harness events

  /** An event that is not the running turn's own touches no other turn's view. */
  lemma StrayStreams(s: State, at: Session, file: Id, e: Envelope)
    requires SInv(s) && s.turns.Keys <= s.recorded && Tapped(s, at) != Some(file)
    ensures SInv(SessionEvent(s, at, file, e))
  {
    hide Tapped;
    var r := SessionEvent(s, at, file, e);
    var t := Tapped(s, at);
    forall k ensures StreamOk(r, k) {
      assert StreamOk(s, k);
      assert t.Some? ==> SinkOk(s, t.value, k);
    }
    forall x, k ensures SinkOk(r, x, k) { assert SinkOk(s, x, k); }
  }

  lemma StrayObservers(s: State, at: Session, file: Id, e: Envelope)
    requires OInv(s) && s.turns.Keys <= s.recorded && Tapped(s, at) != Some(file)
    ensures OInv(SessionEvent(s, at, file, e))
  {
    hide NoteOk, Tapped;
    var r := SessionEvent(s, at, file, e);
    forall o, x ensures HeldOk(r, o, x) { assert HeldOk(s, o, x); }
    forall o, a ensures WatchOk(r, o, a) { assert WatchOk(s, o, a); }
    forall key ensures NamedOk(r, key) { assert NamedOk(s, key); }
    forall o, slot, x ensures NoteOk(r, o, slot, x) {
      StrayNote(s, at, file, e, o, slot, x);
    }
  }

  /** What an event changes for one observer and one turn */
  lemma EventSeen(s: State, at: Session, file: Id, e: Envelope, o: nat, x: Id)
    requires Tapped(s, at) != Some(file)
    ensures var r := SessionEvent(s, at, file, e);
      && r.observers.Keys == s.observers.Keys && r.turns.Keys == s.turns.Keys && r.recorded == s.recorded
      && (x in s.turns ==> r.turns[x].at == s.turns[x].at)
      && (x !in r.mixed ==> x !in s.mixed && x != file && Some(x) != Tapped(s, at) && Log(r.ledger, x) == Log(s.ledger, x))
    ensures o in s.observers ==>
      var t := Tapped(s, at);
      SessionEvent(s, at, file, e).observers[o]
        == if t.Some? && ToObserver(o) in s.turns[t.value].sinks
           then s.observers[o].Send([Tagged(s.turns[t.value].at.slot, t.value, Env(e))]) else s.observers[o]
  {
    hide Tapped;
  }

  lemma StrayNote(s: State, at: Session, file: Id, e: Envelope, o: nat, slot: string, x: Id)
    requires OInv(s) && s.turns.Keys <= s.recorded && Tapped(s, at) != Some(file)
    ensures NoteOk(SessionEvent(s, at, file, e), o, slot, x)
  {
    assert NoteOk(s, o, slot, x);
    hide Lines, Seen, Tapped, OInv, SessionEvent;
    EventSeen(s, at, file, e, o, x);
    var t := Tapped(s, at);
    if t.Some? && o in s.observers {
      TaggedSent(s.observers[o].sent, s.turns[t.value].at.slot, t.value, Env(e), slot, x);
      if ToObserver(o) in s.turns[t.value].sinks && s.observers[o].open {
        HeldSeen(s, o, slot, t.value);
      }
    }
  }

  /** An observer holds no sink of a turn it was not told of. */
  lemma HeldSeen(s: State, o: nat, slot: string, id: Id)
    requires OInv(s) && o in s.observers && id in s.turns && ToObserver(o) in s.turns[id].sinks && s.observers[o].open
    ensures s.turns[id].at.slot == slot ==> id in Seen(s.observers[o].sent, slot)
  {
    hide Lines, Seen;
    assert HeldOk(s, o, id) && NoteOk(s, o, slot, id);
  }

  // ---------------------------------------------------------------- standing up

  lemma AnnounceStreams(s: State, id: Id, at: Session, status: Status)
    requires SInv(s) && id !in s.ledger && s.turns.Keys <= s.recorded <= s.ledger.Keys
    ensures SInv(Announce(Stand(s, id, at, status), id))
  {
    var r := Announce(Stand(s, id, at, status), id);
    forall k ensures StreamOk(r, k) {
      assert StreamOk(s, k);
    }
    forall x, k ensures SinkOk(r, x, k) {
      assert SinkOk(s, x, k);
    }
  }

  lemma AnnounceObservers(s: State, id: Id, at: Session, status: Status)
    requires OInv(s) && id !in s.ledger && s.turns.Keys <= s.recorded <= s.ledger.Keys
    ensures OInv(Announce(Stand(s, id, at, status), id))
  {
    hide Lines, Seen;
    var r := Announce(Stand(s, id, at, status), id);
    forall o, x ensures HeldOk(r, o, x) {
      assert HeldOk(s, o, x) && WatchOk(s, o, at);
    }
    forall o, a ensures WatchOk(r, o, a) {
      assert WatchOk(s, o, a);
    }
    forall key ensures NamedOk(r, key) { assert NamedOk(s, key); }
    forall o, slot, x ensures NoteOk(r, o, slot, x) {
      AnnounceNote(s, id, at, status, o, slot, x);
    }
  }

  lemma AnnounceNote(s: State, id: Id, at: Session, status: Status, o: nat, slot: string, x: Id)
    requires OInv(s) && id !in s.ledger && s.turns.Keys <= s.recorded <= s.ledger.Keys
    ensures NoteOk(Announce(Stand(s, id, at, status), id), o, slot, x)
  {
    hide Lines, Seen;
    var r := Announce(Stand(s, id, at, status), id);
    assert WatchOk(s, o, at) && NoteOk(s, o, slot, x);
    if o in s.observers {
      var ob := s.observers[o];
      if o in Watchers(s, at) && ob.open {
        assert r.observers[o].sent == ob.sent + ([Announced(at.slot, id)] + Tags(at.slot, id, []));
        AnnouncedSent(ob.sent, at.slot, id, slot, x);
      } else {
        assert r.observers[o].sent == ob.sent;
      }
    }
  }

  // ---------------------------------------------------------------- opening and dropping a stream

  lemma OpenStreamViews(s: State, k: nat, id: Id)
    requires SInv(s) && OInv(s) && k !in s.streams && id in s.ledger && s.turns.Keys <= s.recorded
    requires id in s.recorded && id !in s.turns && id !in s.mixed ==> EndsSettled(s.ledger[id])
    ensures SInv(OpenStream(s, k, id)) && OInv(OpenStream(s, k, id))
  {
    hide Lines, Seen;
    var r := OpenStream(s, k, id);
    forall j ensures StreamOk(r, j) { assert StreamOk(s, j) && SinkOk(s, id, k); }
    forall x, j ensures SinkOk(r, x, j) { assert SinkOk(s, x, j) && SinkOk(s, x, k); }
    forall o, x ensures HeldOk(r, o, x) { assert HeldOk(s, o, x); }
    forall o, at ensures WatchOk(r, o, at) { assert WatchOk(s, o, at); }
    forall key ensures NamedOk(r, key) { assert NamedOk(s, key); }
    forall o, slot, x ensures NoteOk(r, o, slot, x) { assert NoteOk(s, o, slot, x); }
  }

  lemma DropStreamViews(s: State, k: nat)
    requires SInv(s) && OInv(s) && k in s.streams && s.turns.Keys <= s.recorded
    ensures SInv(DropStream(s, k)) && OInv(DropStream(s, k))
  {
    hide Lines, Seen;
    var r := DropStream(s, k);
    forall j ensures StreamOk(r, j) { assert StreamOk(s, j) && StreamOk(s, k); }
    forall x, j ensures SinkOk(r, x, j) { assert SinkOk(s, x, j) && SinkOk(s, x, k); }
    forall o, x ensures HeldOk(r, o, x) { assert HeldOk(s, o, x); }
    forall o, at ensures WatchOk(r, o, at) { assert WatchOk(s, o, at); }
    forall key ensures NamedOk(r, key) { assert NamedOk(s, key); }
    forall o, slot, x ensures NoteOk(r, o, slot, x) { assert NoteOk(s, o, slot, x); }
  }

  // ---------------------------------------------------------------- editing subscriptions

  /** Streams do not see observers, their sinks or the watch lists. */
  lemma SubscriptionStreams(s: State, r: State)
    requires SInv(s) && r.streams == s.streams && r.ledger == s.ledger && r.recorded == s.recorded && r.turns.Keys == s.turns.Keys && r.mixed == s.mixed
    requires forall id, k :: id in s.turns ==> (ToStream(k) in r.turns[id].sinks <==> ToStream(k) in s.turns[id].sinks)
    ensures SInv(r)
  {
    forall k ensures StreamOk(r, k) { assert StreamOk(s, k); }
    forall id, k ensures SinkOk(r, id, k) { assert SinkOk(s, id, k); }
  }

  lemma DetachObservers(s: State, o: nat, slots: set<string>)
    requires OInv(s) && o in s.observers
    ensures OInv(Detach(s, o, slots))
  {
    hide Lines, Seen;
    var r := Detach(s, o, slots);
    forall p, x ensures HeldOk(r, p, x) {
      assert HeldOk(s, p, x) && HeldOk(s, o, x);
    }
    forall p, at ensures WatchOk(r, p, at) {
      assert WatchOk(s, p, at) && WatchOk(s, o, at);
    }
    forall key ensures NamedOk(r, key) { assert NamedOk(s, key); }
    forall p, slot, x ensures NoteOk(r, p, slot, x) { assert NoteOk(s, p, slot, x); }
  }

  lemma ObserveObservers(s: State, o: nat, slot: string)
    requires OInv(s) && QInv(s) && o in s.observers && slot !in s.observers[o].sessions && s.turns.Keys <= s.recorded
    ensures OInv(Observe(s, o, slot))
  {
    hide Lines, Seen, Replay;
    var r := Observe(s, o, slot);
    var at := Session(s.observers[o].pkg, slot);
    forall p, x ensures HeldOk(r, p, x) {
      ObserveHeld(s, o, slot, p, x);
    }
    forall p, a ensures WatchOk(r, p, a) {
      assert WatchOk(s, p, a);
    }
    forall key ensures NamedOk(r, key) { assert NamedOk(s, key); }
    forall p, sl, x ensures NoteOk(r, p, sl, x) {
      ObserveNote(s, o, slot, p, sl, x);
    }
  }

  lemma ObserveHeld(s: State, o: nat, slot: string, p: nat, x: Id)
    requires OInv(s) && QInv(s) && o in s.observers && slot !in s.observers[o].sessions
    ensures HeldOk(Observe(s, o, slot), p, x)
  {
    hide Lines, Seen, Replay;
    assert SessionOk(s, Session(s.observers[o].pkg, slot));
    assert HeldOk(s, p, x) && HeldOk(s, o, x) && TurnOk(s, x);
  }

  lemma ObserveNote(s: State, o: nat, slot: string, p: nat, sl: string, x: Id)
    requires OInv(s) && QInv(s) && o in s.observers && slot !in s.observers[o].sessions && s.turns.Keys <= s.recorded
    ensures NoteOk(Observe(s, o, slot), p, sl, x)
  {
    hide Lines, Seen, Replay, Tags;
    if p != o || !s.observers[o].open {
      assert NoteOk(s, p, sl, x);
    } else {
      var ob := s.observers[o];
      var q := Queue(s, Session(ob.pkg, slot));
      InQueue(s, Session(ob.pkg, slot), x);
      SubscribedSent(ob.sent, s.ledger, slot, q, sl, x);
      assert Observe(s, o, slot).observers[o].sent == ob.sent + ([Subscribed(slot, q)] + Replay(s.ledger, slot, q));
      if sl != slot {
        assert NoteOk(s, o, sl, x);
      }
    }
  }

  lemma InQueue(s: State, at: Session, x: Id)
    requires QInv(s)
    ensures Distinct(Queue(s, at))
    ensures x in Queue(s, at) <==> x in s.turns && s.turns[x].at == at
  {
    assert SessionOk(s, at) && TurnOk(s, x);
  }

  lemma CloseObservers(s: State, o: nat)
    requires OInv(s) && o in s.observers
    ensures OInv(CloseObserver(s, o))
    ensures !CloseObserver(s, o).observers[o].open
    ensures s.observers[o].open ==> CloseObserver(s, o).observers[o].sessions == {} && CloseObserver(s, o).observers[o].held == {}
    ensures o !in CloseObserver(s, o).named.Values
  {
    var ob := s.observers[o];
    if ob.open {
      ShutObservers(s, o);
      DetachObservers(Shut(s, o), o, ob.sessions);
      forall x ensures x !in Detach(Shut(s, o), o, ob.sessions).observers[o].held {
        assert HeldOk(Shut(s, o), o, x);
      }
    } else {
      forall k ensures k in s.named ==> s.named[k] != o { assert NamedOk(s, k); }
    }
  }

  lemma ShutObservers(s: State, o: nat)
    requires OInv(s) && o in s.observers && s.observers[o].open
    ensures OInv(Shut(s, o))
    ensures o !in Shut(s, o).named.Values
  {
    var m := Shut(s, o);
    forall p, x ensures HeldOk(m, p, x) { assert HeldOk(s, p, x); }
    forall p, at ensures WatchOk(m, p, at) { assert WatchOk(s, p, at); }
    forall k ensures NamedOk(m, k) && (k in m.named ==> m.named[k] != o) { assert NamedOk(s, k); }
    forall p, slot, x ensures NoteOk(m, p, slot, x) { assert NoteOk(s, p, slot, x); }
  }
}
