/** The functions of runner/runtime/tools.ts over the pending records on disk, each proved to be steps of
    `Deliveries`. */
module PendingLedger {
  import opened Options
  import opened Deliveries
  import opened DeliveryRuns

  // ---------------------------------------------------------------- waiting for the parent

  datatype Attempt = Done | Busy | Broken

  /** deliverNotice over what its sessions come to: up to 360 tries while the parent is busy. */
  method DeliverNotice(tries: seq<Attempt>) returns (ok: bool)
    requires |tries| == 360
    ensures ok <==> exists i :: 0 <= i < 360 && tries[i] == Done && forall j :: 0 <= j < i ==> tries[j] == Busy
  {
    var i := 0;
    while i < 360
      invariant i <= 360
      invariant forall j :: 0 <= j < i ==> tries[j] == Busy
    {
      match tries[i] {
        case Done => return true;
        case Broken => return false;
        case Busy =>
      }
      i := i + 1;
    }
    ok := false;
  }

  // ---------------------------------------------------------------- the sweep as it runs

  /** What the sweep finds for each record: the conversation's last message, and how the delivery goes. */
  datatype Luck = Luck(last: Option<Message>, reached: bool, ok: bool)

  class Ledger {
    var disk: map<Id, Rec>
    var memory: Memory
    ghost var promised: map<Id, Rec>
    ghost var sent: seq<Delivery>
    ghost var dropped: map<Id, (int, nat)>

    ghost function View(): State
      reads this
    {
      State(disk, memory, promised, sent, dropped)
    }

    constructor ()
      ensures View() == BOOT && Inv(View())
    {
      disk, memory, promised, sent, dropped := map[], FRESH, map[], [], map[];
    }

    /** writePending */
    method WritePending(id: Id, rec: Rec)
      modifies this`disk
      ensures disk == old(disk)[id := rec]
    {
      disk := disk[id := rec];
    }

    /** clearPending */
    method ClearPending(id: Id)
      modifies this`disk
      ensures disk == old(disk) - {id}
    {
      disk := disk - {id};
    }

    /** deliverOnSettle, up to its await */
    method DeliverOnSettle(id: Id, to: string, from: string, now: int)
      requires Inv(View()) && id !in promised
      modifies this
      ensures View() == old(Promise(View(), id, to, from, now)) && Inv(View())
    {
      PromiseInv(View(), DoPromise(id, to, from, now));
      WritePending(id, Rec(to, from, now, 0));
      promised := promised[id := Rec(to, from, now, 0)];
      memory := memory.(waiting := memory.waiting[id := to]);
    }

    /** deliver: the notice, and the record cleared behind it */
    method Deliver(id: Id, reached: bool, ok: bool)
      requires Inv(View()) && id in memory.waiting
      modifies this
      ensures View() == old(var s := Notify(View(), id, reached, ok); if ok then ClearDirect(s, id) else s) && Inv(View())
    {
      NotifyInv(View(), id, reached, ok);
      sent := if reached || ok then sent + [Delivery(id, memory.waiting[id], Direct)] else sent;
      memory := memory.(waiting := memory.waiting - {id}, clearing := if ok then memory.clearing + {id} else memory.clearing);
      if ok {
        ClearInv(View(), id);
        ClearPending(id);
        memory := memory.(clearing := memory.clearing - {id});
      }
    }

    /** One record of the sweep, with what it finds and meets */
    method SweepOne(now: int, luck: Luck)
      requires Inv(View()) && memory.rest != [] && memory.stage == Next
      modifies this
      ensures View() == old(SweptOnce(View(), now, luck)) && Inv(View())
    {
      hide Inv;
      LookInv(View(), now, luck.last);
      var (id, rec) := memory.rest[0];
      memory := memory.(rest := memory.rest[1..]);
      if GivenUp(rec, now) {
        ClearPending(id);
        dropped := dropped[id := (now - rec.since, rec.attempts)];
        return;
      }
      if !Answered(rec, luck.last) {
        return;
      }
      memory := memory.(stage := Delivering(id, rec, luck.last.value));
      NotifySweptInv(View(), luck.reached, luck.ok);
      sent := if luck.reached || luck.ok then sent + [Delivery(id, rec.to, BySweep(luck.last.value))] else sent;
      if luck.ok {
        memory := memory.(stage := Clearing(id));
        ClearSweptInv(View());
        ClearPending(id);
      } else {
        WritePending(id, rec.(attempts := rec.attempts + 1));
      }
      memory := memory.(stage := Next);
    }

    /** The sweep has read these records and looked at i of them. */
    ghost predicate OnWay(before: map<Id, Rec>, order: seq<Id>, i: nat)
      reads this
    {
      && i <= |order| && (forall k :: 0 <= k < |order| ==> order[k] in before)
      && memory.rest == Records(before, order)[i..]
    }

    /** One turn of the sweep's loop */
    method SweepNext(ghost before: map<Id, Rec>, ghost order: seq<Id>, ghost i: nat, now: int, luck: map<Id, Luck>) returns (delivered: bool)
      requires Inv(View()) && memory.stage == Next && i < |order| && OnWay(before, order, i) && luck.Keys == before.Keys
      requires Progress(before, disk, order, i, now, luck) && forall k, l :: 0 <= k < l < |order| ==> order[k] != order[l]
      modifies this
      ensures Inv(View()) && memory.stage == Next && OnWay(before, order, i + 1)
      ensures Progress(before, disk, order, i + 1, now, luck)
      ensures Tally(before, order[..i + 1], now, luck) == Tally(before, order[..i], now, luck) + if delivered then 1 else 0
    {
      var (id, rec) := memory.rest[0];
      assert id == order[i] && rec == before[id];
      assert Records(before, order)[i..][1..] == Records(before, order)[i + 1..];
      assert order[..i + 1][..i] == order[..i];
      delivered := Delivers(rec, now, luck[id]);
      SweptDisk(View(), now, luck[id]);
      Advance(before, disk, SweptOnce(View(), now, luck[id]).disk, order, i, now, luck);
      hide Inv, SweptOnce, Progress, Delivers;
      SweepOne(now, luck[id]);
    }

    /** sweepPendingDeliveries, undisturbed: of the records it read, those given up or delivered are gone,
        a failed one has one more attempt, and one that is not answered yet is as it was. */
    method SweepPending(order: seq<Id>, now: int, luck: map<Id, Luck>) returns (count: nat)
      requires Inv(View()) && memory.rest == [] && memory.stage == Next
      requires (forall id :: id in order <==> id in disk) && (forall i, j :: 0 <= i < j < |order| ==> order[i] != order[j])
      requires luck.Keys == disk.Keys
      modifies this
      ensures Inv(View()) && memory.rest == [] && memory.stage == Next
      ensures disk.Keys <= old(disk).Keys
      ensures forall id {:trigger Fate(old(disk), disk, id, now, luck)} :: id in old(disk) ==> Fate(old(disk), disk, id, now, luck)
      ensures count == Tally(old(disk), order, now, luck)
    {
      ghost var before := disk;
      SweepInv(View(), order);
      memory := memory.(rest := Records(disk, order));
      assert Records(disk, order)[0..] == Records(disk, order);
      count := 0;
      var i := 0;
      while i < |order|
        invariant i <= |order| && memory.stage == Next
        invariant Inv(View())
        invariant OnWay(before, order, i) && Progress(before, disk, order, i, now, luck)
        invariant count == Tally(before, order[..i], now, luck)
      {
        var delivered := SweepNext(before, order, i, now, luck);
        count := count + if delivered then 1 else 0;
        i := i + 1;
      }
      assert order[..i] == order;
      Fates(before, disk, order, now, luck);
    }
  }

  /** The sweep delivers this one. */
  predicate Delivers(rec: Rec, now: int, luck: Luck) {
    !GivenUp(rec, now) && Answered(rec, luck.last) && luck.ok
  }

  function Tally(before: map<Id, Rec>, order: seq<Id>, now: int, luck: map<Id, Luck>): nat {
    if order == [] then 0
    else
      var id := order[|order| - 1];
      Tally(before, order[..|order| - 1], now, luck) + if id in before && id in luck && Delivers(before[id], now, luck[id]) then 1 else 0
  }

  lemma Fates(before: map<Id, Rec>, after: map<Id, Rec>, order: seq<Id>, now: int, luck: map<Id, Luck>)
    requires Progress(before, after, order, |order|, now, luck) && forall id :: id in order <==> id in before
    ensures forall id {:trigger Fate(before, after, id, now, luck)} :: id in before ==> Fate(before, after, id, now, luck)
  {
    hide Fate;
    forall id | id in before ensures Fate(before, after, id, now, luck) {
      var k :| 0 <= k < |order| && order[k] == id;
    }
  }

  /** The first i records have met their fate and the others are as they were. */
  ghost predicate Progress(before: map<Id, Rec>, after: map<Id, Rec>, order: seq<Id>, i: nat, now: int, luck: map<Id, Luck>) {
    && i <= |order| && after.Keys <= before.Keys
    && (forall k :: 0 <= k < i ==> Fate(before, after, order[k], now, luck))
    && (forall k :: i <= k < |order| ==> order[k] in before && order[k] in after && after[order[k]] == before[order[k]])
  }

  lemma Advance(before: map<Id, Rec>, was: map<Id, Rec>, after: map<Id, Rec>, order: seq<Id>, i: nat, now: int, luck: map<Id, Luck>)
    requires i < |order| && Progress(before, was, order, i, now, luck)
    requires forall k, l :: 0 <= k < l < |order| ==> order[k] != order[l]
    requires order[i] in before && order[i] in luck
    requires var rec := before[order[i]]; var l := luck[order[i]];
      after == if GivenUp(rec, now) || (Answered(rec, l.last) && l.ok) then was - {order[i]}
               else if Answered(rec, l.last) then was[order[i] := rec.(attempts := rec.attempts + 1)] else was
    ensures Progress(before, after, order, i + 1, now, luck)
  {
    hide GivenUp, Answered;
    forall k | 0 <= k < i ensures Fate(before, after, order[k], now, luck) {
      assert Fate(before, was, order[k], now, luck);
    }
  }

  /** Look, and the notice and the clearing that follow it */
  ghost function SweptOnce(s: State, now: int, luck: Luck): State
    requires s.memory.rest != []
  {
    var s1 := Look(s, now, luck.last);
    if s1.memory.stage.Delivering? then
      var s2 := NotifySwept(s1, luck.reached, luck.ok);
      if s2.memory.stage.Clearing? then ClearSwept(s2) else s2
    else s1
  }

  predicate Fate(before: map<Id, Rec>, after: map<Id, Rec>, id: Id, now: int, luck: map<Id, Luck>) {
    id in before && id in luck &&
    var rec := before[id];
    if GivenUp(rec, now) || (Answered(rec, luck[id].last) && luck[id].ok) then id !in after
    else id in after && after[id] == if Answered(rec, luck[id].last) then rec.(attempts := rec.attempts + 1) else rec
  }

  lemma SweptDisk(s: State, now: int, luck: Luck)
    requires s.memory.rest != [] && s.memory.stage == Next
    ensures var (id, rec) := s.memory.rest[0]; var r := SweptOnce(s, now, luck);
      && r.memory.rest == s.memory.rest[1..] && r.memory.stage == Next
      && r.disk == if GivenUp(rec, now) || (Answered(rec, luck.last) && luck.ok) then s.disk - {id}
                   else if Answered(rec, luck.last) then s.disk[id := rec.(attempts := rec.attempts + 1)] else s.disk
  {
    var s1 := Look(s, now, luck.last);
    if s1.memory.stage.Delivering? {
      hide GivenUp, Answered;
    }
  }
}
