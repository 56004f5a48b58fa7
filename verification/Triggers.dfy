/** The trigger ticker of runner/runtime/triggers.ts: at most one firing of a trigger in a minute. */
module Triggers {
  import opened Options

  // ---------------------------------------------------------------- cron

  /** One comma part of a field. */
  datatype Part = Any | Every(n: nat) | Range(low: nat, high: nat) | Just(at: nat)

  predicate PartMatch(p: Part, value: nat) {
    match p
    case Any => true
    case Every(n) => n != 0 && value % n == 0
    case Range(low, high) => low <= value <= high
    case Just(at) => at == value
  }

  /** fieldMatch */
  predicate FieldMatch(parts: seq<Part>, value: nat) {
    exists i :: 0 <= i < |parts| && PartMatch(parts[i], value)
  }

  datatype Cron = Cron(minute: seq<Part>, hour: seq<Part>, day: seq<Part>, month: seq<Part>, weekday: seq<Part>)

  /** What a local clock shows in a minute. */
  datatype Civil = Civil(minute: nat, hour: nat, day: nat, month: nat, weekday: nat)

  /** cronMatch */
  predicate CronMatch(c: Cron, at: Civil) {
    && FieldMatch(c.minute, at.minute) && FieldMatch(c.hour, at.hour) && FieldMatch(c.day, at.day)
    && FieldMatch(c.month, at.month) && FieldMatch(c.weekday, at.weekday)
  }

  // ---------------------------------------------------------------- sweeps

  const MINUTE: int := 60000

  /** The minute of a time, as the first sixteen characters of its ISO form tell it. */
  function Minute(now: int): int {
    now / MINUTE
  }

  /** A trigger's key is its package and id; None is a trigger without a cron. */
  datatype Trigger = Trigger(key: string, cron: Option<Cron>)

  /** `civil` is the local clock: what each minute shows. */
  type Clock = int -> Civil

  datatype Firing = Firing(key: string, minute: int)

  /** `disk` is triggers.json, `log` the firings so far. */
  datatype State = State(fired: map<string, int>, disk: map<string, int>, log: seq<Firing>)

  const BOOT := State(map[], map[], [])

  predicate Fires(s: State, clock: Clock, t: Trigger, m: int) {
    t.cron.Some? && !(t.key in s.fired && s.fired[t.key] == m) && CronMatch(t.cron.value, clock(m))
  }

  /** One trigger of the sweep */
  function Look(s: State, clock: Clock, t: Trigger, m: int): State {
    if Fires(s, clock, t, m) then s.(fired := s.fired[t.key := m], log := s.log + [Firing(t.key, m)]) else s
  }

  function LookAll(s: State, clock: Clock, triggers: seq<Trigger>, m: int): State
    decreases |triggers|
  {
    if triggers == [] then s else LookAll(Look(s, clock, triggers[0], m), clock, triggers[1..], m)
  }

  function Save(s: State): State {
    s.(disk := s.fired)
  }

  /** sweep, with what it saves at its end */
  function Sweep(s: State, clock: Clock, triggers: seq<Trigger>, now: int): State {
    Save(LookAll(s, clock, triggers, Minute(now)))
  }

  /** A new process: recover reads the record back. */
  function Restart(s: State): State {
    s.(fired := s.disk)
  }

  datatype Event = DoSweep(now: int, triggers: seq<Trigger>) | DoRestart

  function Step(s: State, clock: Clock, v: Event): State {
    match v
    case DoSweep(now, triggers) => Sweep(s, clock, triggers, now)
    case DoRestart => Restart(s)
  }

  function Exec(s: State, clock: Clock, run: seq<Event>): State
    decreases |run|
  {
    if run == [] then s else Exec(Step(s, clock, run[0]), clock, run[1..])
  }

  // ---------------------------------------------------------------- the last firing

  /** The minute of the last firing of a trigger */
  function LastOf(log: seq<Firing>, key: string): Option<int> {
    if log == [] then None
    else if log[|log| - 1].key == key then Some(log[|log| - 1].minute)
    else LastOf(log[..|log| - 1], key)
  }

  predicate Recorded(s: State, key: string) {
    LastOf(s.log, key) == if key in s.fired then Some(s.fired[key]) else None
  }

  /** The map holds each trigger's last firing; between sweeps so does the disk. */
  ghost predicate Inv(s: State) {
    forall key {:trigger Recorded(s, key)} :: Recorded(s, key)
  }

  lemma LookInv(s: State, clock: Clock, t: Trigger, m: int)
    requires Inv(s)
    ensures Inv(Look(s, clock, t, m))
  {
    var r := Look(s, clock, t, m);
    assert r.log != s.log ==> r.log[..|r.log| - 1] == s.log;
    forall key ensures Recorded(r, key) { assert Recorded(s, key); }
  }

  lemma {:induction false} LookAllInv(s: State, clock: Clock, triggers: seq<Trigger>, m: int)
    requires Inv(s)
    ensures Inv(LookAll(s, clock, triggers, m))
    decreases |triggers|
  {
    if triggers != [] {
      LookInv(s, clock, triggers[0], m);
      LookAllInv(Look(s, clock, triggers[0], m), clock, triggers[1..], m);
    }
  }

  lemma StepInv(s: State, clock: Clock, v: Event)
    requires Inv(s) && s.disk == s.fired
    ensures Inv(Step(s, clock, v)) && Step(s, clock, v).disk == Step(s, clock, v).fired
  {
    if v.DoSweep? {
      LookAllInv(s, clock, v.triggers, Minute(v.now));
      var m := LookAll(s, clock, v.triggers, Minute(v.now));
      forall key ensures Recorded(Save(m), key) { assert Recorded(m, key); }
    }
  }

  lemma {:induction false} ExecInv(s: State, clock: Clock, run: seq<Event>)
    requires Inv(s) && s.disk == s.fired
    ensures Inv(Exec(s, clock, run)) && Exec(s, clock, run).disk == Exec(s, clock, run).fired
    decreases |run|
  {
    if run != [] {
      StepInv(s, clock, run[0]);
      ExecInv(Step(s, clock, run[0]), clock, run[1..]);
    }
  }

  /** Whatever the clock does, and across restarts between sweeps: a matching trigger that has fired in a
      minute fires in it again exactly when it has fired in another minute since. */
  lemma RefireIff(clock: Clock, run: seq<Event>, t: Trigger, m: int)
    requires t.cron.Some? && CronMatch(t.cron.value, clock(m))
    ensures Fires(Exec(BOOT, clock, run), clock, t, m) <==> LastOf(Exec(BOOT, clock, run).log, t.key) != Some(m)
  {
    ExecInv(BOOT, clock, run);
    assert Recorded(Exec(BOOT, clock, run), t.key);
  }

  // ---------------------------------------------------------------- a clock that does not go back

  function Count(log: seq<Firing>, f: Firing): nat {
    if log == [] then 0 else Count(log[..|log| - 1], f) + if log[|log| - 1] == f then 1 else 0
  }

  /** No firing twice, and none later than this minute. */
  ghost predicate UpTo(s: State, m: int) {
    && (forall i :: 0 <= i < |s.log| ==> s.log[i].minute <= m)
    && (forall i, j :: 0 <= i < j < |s.log| && s.log[i].key == s.log[j].key ==> s.log[i].minute < s.log[j].minute)
  }

  /** Sweeps at times that do not decrease, the first not before `from`; gaps over a minute are allowed. */
  ghost predicate Forward(run: seq<Event>, from: int)
    decreases |run|
  {
    run == [] || (if run[0].DoSweep? then from <= run[0].now && Forward(run[1..], run[0].now) else Forward(run[1..], from))
  }

  /** The last firing of a trigger that has one is in the log, behind all its others. */
  lemma {:induction false} LastIs(log: seq<Firing>, key: string)
    ensures LastOf(log, key).Some? ==>
      exists i :: 0 <= i < |log| && log[i] == Firing(key, LastOf(log, key).value) && forall j :: i < j < |log| ==> log[j].key != key
    ensures LastOf(log, key) == None ==> forall i :: 0 <= i < |log| ==> log[i].key != key
  {
    if log != [] && log[|log| - 1].key != key {
      var init := log[..|log| - 1];
      LastIs(init, key);
      if LastOf(log, key).Some? {
        var i :| 0 <= i < |init| && init[i] == Firing(key, LastOf(log, key).value) && forall j :: i < j < |init| ==> init[j].key != key;
        assert log[i] == init[i];
        assert forall j :: i < j < |log| ==> log[j].key != key;
      } else {
        assert forall i :: 0 <= i < |init| ==> log[i] == init[i];
      }
    } else if log != [] {
      assert log[|log| - 1] == Firing(key, LastOf(log, key).value);
    }
  }

  lemma LookForward(s: State, clock: Clock, t: Trigger, m: int)
    requires Inv(s) && UpTo(s, m)
    ensures UpTo(Look(s, clock, t, m), m)
  {
    if Fires(s, clock, t, m) {
      var r := Look(s, clock, t, m);
      LastIs(s.log, t.key);
      assert Recorded(s, t.key);
      forall i | 0 <= i < |s.log| && s.log[i].key == t.key ensures s.log[i].minute < m {
        var l :| 0 <= l < |s.log| && s.log[l] == Firing(t.key, LastOf(s.log, t.key).value) && forall j :: l < j < |s.log| ==> s.log[j].key != t.key;
        assert i <= l;
        assert s.log[l].minute != m;
      }
    }
  }

  lemma {:induction false} LookAllForward(s: State, clock: Clock, triggers: seq<Trigger>, m: int)
    requires Inv(s) && UpTo(s, m)
    ensures UpTo(LookAll(s, clock, triggers, m), m)
    decreases |triggers|
  {
    if triggers != [] {
      LookInv(s, clock, triggers[0], m);
      LookForward(s, clock, triggers[0], m);
      LookAllForward(Look(s, clock, triggers[0], m), clock, triggers[1..], m);
    }
  }

  lemma MinuteGrows(a: int, b: int)
    requires a <= b
    ensures Minute(a) <= Minute(b)
  {
  }

  lemma {:induction false} ExecForward(s: State, clock: Clock, run: seq<Event>, from: int)
    requires Inv(s) && s.disk == s.fired && UpTo(s, Minute(from)) && Forward(run, from)
    ensures exists m :: UpTo(Exec(s, clock, run), m)
    decreases |run|
  {
    if run != [] {
      StepInv(s, clock, run[0]);
      var next := if run[0].DoSweep? then run[0].now else from;
      if run[0].DoSweep? {
        MinuteGrows(from, next);
        LookAllForward(s, clock, run[0].triggers, Minute(next));
      }
      ExecForward(Step(s, clock, run[0]), clock, run[1..], next);
      var m :| UpTo(Exec(Step(s, clock, run[0]), clock, run[1..]), m);
      assert UpTo(Exec(s, clock, run), m);
    } else {
      assert UpTo(Exec(s, clock, run), Minute(from));
    }
  }

  lemma {:induction false} CountOnce(log: seq<Firing>, f: Firing)
    requires forall i, j :: 0 <= i < j < |log| && log[i].key == log[j].key ==> log[i].minute < log[j].minute
    ensures Count(log, f) == if f in log then 1 else 0
  {
    if log != [] {
      var init, last := log[..|log| - 1], log[|log| - 1];
      assert log == init + [last];
      CountOnce(init, f);
      forall i | 0 <= i < |init| ensures init[i] != last {
        assert init[i] == log[i];
      }
    }
  }

  /** With a clock that does not go back, no trigger fires twice in one minute. */
  lemma NotTwice(clock: Clock, run: seq<Event>, from: int, f: Firing)
    requires Forward(run, from)
    ensures Count(Exec(BOOT, clock, run).log, f) <= 1
  {
    ExecForward(BOOT, clock, run, from);
    CountOnce(Exec(BOOT, clock, run).log, f);
  }

  // ---------------------------------------------------------------- every covered minute

  /** The next sweep of a run is at most a minute after this time; so on to the last, which is at `to`. */
  ghost predicate Steady(run: seq<Event>, last: int, to: int, t: Trigger)
    decreases |run|
  {
    if run == [] then last == to
    else if run[0].DoSweep? then last <= run[0].now <= last + MINUTE && t in run[0].triggers && Steady(run[1..], run[0].now, to, t)
    else Steady(run[1..], last, to, t)
  }

  lemma {:induction false} LookAllFires(s: State, clock: Clock, triggers: seq<Trigger>, m: int, t: Trigger)
    requires Inv(s) && t in triggers && t.cron.Some? && CronMatch(t.cron.value, clock(m))
    ensures Firing(t.key, m) in LookAll(s, clock, triggers, m).log
    decreases |triggers|
  {
    var r := Look(s, clock, triggers[0], m);
    LookInv(s, clock, triggers[0], m);
    if triggers[0] == t {
      assert Recorded(s, t.key);
      LastIs(s.log, t.key);
      assert Firing(t.key, m) in r.log;
      LogGrows(r, clock, triggers[1..], m);
    } else {
      LookAllFires(r, clock, triggers[1..], m, t);
    }
  }

  lemma {:induction false} LogGrows(s: State, clock: Clock, triggers: seq<Trigger>, m: int)
    ensures s.log <= LookAll(s, clock, triggers, m).log
    decreases |triggers|
  {
    if triggers != [] {
      LogGrows(Look(s, clock, triggers[0], m), clock, triggers[1..], m);
    }
  }

  lemma {:induction false} ExecGrows(s: State, clock: Clock, run: seq<Event>)
    ensures s.log <= Exec(s, clock, run).log
    decreases |run|
  {
    if run != [] {
      if run[0].DoSweep? {
        LogGrows(s, clock, run[0].triggers, Minute(run[0].now));
      }
      ExecGrows(Step(s, clock, run[0]), clock, run[1..]);
    }
  }

  /** Some sweep falls into the minute. */
  lemma {:induction false} Covered(s: State, clock: Clock, run: seq<Event>, last: int, to: int, t: Trigger, m: int)
    requires Inv(s) && s.disk == s.fired && Steady(run, last, to, t)
    requires t.cron.Some? && CronMatch(t.cron.value, clock(m))
    requires last < m * MINUTE + MINUTE <= to
    requires Minute(last) == m ==> Firing(t.key, m) in s.log
    ensures last >= m * MINUTE || Minute(last) < m
    ensures Firing(t.key, m) in Exec(s, clock, run).log
    decreases |run|
  {
    if run != [] {
      StepInv(s, clock, run[0]);
      var r := Step(s, clock, run[0]);
      if run[0].DoSweep? {
        var now := run[0].now;
        LogGrows(s, clock, run[0].triggers, Minute(now));
        if Minute(now) == m {
          LookAllFires(s, clock, run[0].triggers, m, t);
        }
        if now >= m * MINUTE + MINUTE {
          assert Minute(last) == m;
          ExecGrows(r, clock, run[1..]);
        } else {
          Covered(r, clock, run[1..], now, to, t, m);
        }
      } else {
        Covered(r, clock, run[1..], last, to, t, m);
      }
    }
  }

  lemma {:induction false} SteadyForward(run: seq<Event>, last: int, to: int, t: Trigger)
    requires Steady(run, last, to, t)
    ensures Forward(run, last)
    decreases |run|
  {
    if run != [] {
      SteadyForward(run[1..], if run[0].DoSweep? then run[0].now else last, to, t);
    }
  }

  /** Sweeps at most a minute apart, with restarts between them: every matching minute that lies between
      the first sweep and the last fires exactly once. */
  lemma ExactlyOnce(clock: Clock, run: seq<Event>, to: int, t: Trigger, m: int)
    requires run != [] && run[0].DoSweep? && Steady(run, run[0].now, to, t)
    requires t.cron.Some? && CronMatch(t.cron.value, clock(m))
    requires run[0].now <= m * MINUTE && m * MINUTE + MINUTE <= to
    ensures Count(Exec(BOOT, clock, run).log, Firing(t.key, m)) == 1
  {
    var from := run[0].now;
    SteadyForward(run, from, to, t);
    ExecForward(BOOT, clock, run, from);
    CountOnce(Exec(BOOT, clock, run).log, Firing(t.key, m));
    var s := Step(BOOT, clock, run[0]);
    StepInv(BOOT, clock, run[0]);
    if Minute(from) == m {
      LookAllFires(BOOT, clock, run[0].triggers, m, t);
    }
    Covered(s, clock, run[1..], from, to, t, m);
  }

  // ---------------------------------------------------------------- where once fails

  const EACH_MINUTE := Trigger("p/t", Some(Cron([Any], [Any], [Any], [Any], [Any])))

  lemma AlwaysMatches(at: Civil)
    ensures CronMatch(EACH_MINUTE.cron.value, at)
  {
    assert [Any][0] == Any;
    assert forall v :: PartMatch([Any][0], v);
  }

  /** A clock set back by a minute makes a trigger fire again in a minute in which it has fired. */
  lemma ClockSetBack(clock: Clock)
    ensures exists run, f :: Count(Exec(BOOT, clock, run).log, f) == 2
  {
    AlwaysMatches(clock(0));
    AlwaysMatches(clock(1));
    var one := [EACH_MINUTE];
    var run := [DoSweep(0, one), DoSweep(MINUTE, one), DoSweep(0, one)];
    OneSweep(BOOT, clock, 0);
    var s1 := Step(BOOT, clock, run[0]);
    OneSweep(s1, clock, MINUTE);
    var s2 := Step(s1, clock, run[1]);
    OneSweep(s2, clock, 0);
    var s3 := Step(s2, clock, run[2]);
    assert s3.log == [Firing("p/t", 0), Firing("p/t", 1), Firing("p/t", 0)];
    assert run[1..][1..][1..] == [] && Exec(s3, clock, []) == s3;
    assert Exec(s2, clock, run[1..][1..]) == s3 && Exec(s1, clock, run[1..]) == s3 && Exec(BOOT, clock, run) == s3;
    assert s3.log[..2][..1][..0] == [] && s3.log[..2] == [Firing("p/t", 0), Firing("p/t", 1)] && s3.log[..2][..1] == [Firing("p/t", 0)];
    assert Count(s3.log[..2][..1], Firing("p/t", 0)) == 1;
    assert Count(s3.log[..2], Firing("p/t", 0)) == 1;
    assert Count(s3.log, Firing("p/t", 0)) == 2;
  }

  /** A sweep that dies before it saves leaves the record as it was: after the restart a matching trigger
      fires in that minute exactly when the record does not have it there already. */
  lemma DiesBeforeSaving(s: State, clock: Clock, triggers: seq<Trigger>, m: int, t: Trigger)
    requires t.cron.Some? && CronMatch(t.cron.value, clock(m))
    ensures Fires(Restart(LookAll(s, clock, triggers, m)), clock, t, m) <==> !(t.key in s.disk && s.disk[t.key] == m)
    ensures s.log <= LookAll(s, clock, triggers, m).log
  {
    LogGrows(s, clock, triggers, m);
    DiskSame(s, clock, triggers, m);
  }

  lemma {:induction false} DiskSame(s: State, clock: Clock, triggers: seq<Trigger>, m: int)
    ensures LookAll(s, clock, triggers, m).disk == s.disk
    decreases |triggers|
  {
    if triggers != [] {
      DiskSame(Look(s, clock, triggers[0], m), clock, triggers[1..], m);
    }
  }

  lemma OneSweep(s: State, clock: Clock, now: int)
    requires CronMatch(EACH_MINUTE.cron.value, clock(Minute(now)))
    requires !(EACH_MINUTE.key in s.fired && s.fired[EACH_MINUTE.key] == Minute(now))
    ensures var r := Step(s, clock, DoSweep(now, [EACH_MINUTE]));
      r.log == s.log + [Firing(EACH_MINUTE.key, Minute(now))] && r.fired == s.fired[EACH_MINUTE.key := Minute(now)]
  {
    var one := [EACH_MINUTE];
    assert one[1..] == [];
    var m := Minute(now);
    var r := Look(s, clock, EACH_MINUTE, m);
    assert LookAll(r, clock, [], m) == r;
    assert LookAll(s, clock, one, m) == LookAll(r, clock, one[1..], m);
  }

  // ---------------------------------------------------------------- what a cron says

  function Times(k: nat, n: nat): nat {
    k * n
  }

  /** A part names every value, the multiples of a step, an interval with both its ends, or one value. A step
      of zero names none. */
  ghost predicate Names(p: Part, value: nat) {
    match p
    case Any => true
    case Every(n) => n > 0 && exists k: nat :: Times(k, n) == value
    case Range(low, high) => low <= value && value <= high
    case Just(at) => value == at
  }

  ghost predicate Listed(parts: seq<Part>, value: nat) {
    exists p :: p in parts && Names(p, value)
  }

  lemma PartIs(p: Part, value: nat)
    ensures PartMatch(p, value) <==> Names(p, value)
  {
    if p.Every? && p.n > 0 {
      MultipleIs(value, p.n);
    }
  }

  lemma MultipleIs(value: nat, n: nat)
    requires n > 0
    ensures value % n == 0 <==> exists k: nat :: Times(k, n) == value
  {
    if value % n == 0 {
      assert Times(value / n, n) == value;
    }
    if k: nat :| Times(k, n) == value {
      OneQuotient(value, n, k, 0);
    }
  }

  lemma {:induction false} AtLeastOne(k: int, n: int)
    requires n > 0 && k >= 1
    ensures k * n >= n
    decreases k
  {
    if k > 1 {
      AtLeastOne(k - 1, n);
      assert k * n == (k - 1) * n + n;
    }
  }

  lemma OneQuotient(x: int, n: int, q: int, r: int)
    requires n > 0 && 0 <= r < n && x == q * n + r
    ensures x % n == r
  {
    var p, t := x / n, x % n;
    assert x == p * n + t;
    if p > q {
      StepsApart(p, q, n);
    } else if q > p {
      StepsApart(q, p, n);
    }
  }

  lemma StepsApart(p: int, q: int, n: int)
    requires n > 0 && p > q
    ensures p * n >= q * n + n
  {
    AtLeastOne(p - q, n);
    assert (p - q) * n == p * n - q * n;
  }

  lemma FieldIs(parts: seq<Part>, value: nat)
    ensures FieldMatch(parts, value) <==> Listed(parts, value)
  {
    hide PartMatch, Names;
    if FieldMatch(parts, value) {
      var i :| 0 <= i < |parts| && PartMatch(parts[i], value);
      PartIs(parts[i], value);
      assert parts[i] in parts;
    }
    if Listed(parts, value) {
      var p :| p in parts && Names(p, value);
      var i :| 0 <= i < |parts| && parts[i] == p;
      PartIs(parts[i], value);
    }
  }

  /** A trigger fires in a minute in which it has not just fired exactly when each of the five fields names
      what the clock shows: minute, hour, day, month and weekday. */
  lemma FiresWhen(s: State, clock: Clock, t: Trigger, m: int)
    requires t.cron.Some?
    ensures var c := t.cron.value; var at := clock(m);
      Fires(s, clock, t, m) <==>
        && !(t.key in s.fired && s.fired[t.key] == m)
        && Listed(c.minute, at.minute) && Listed(c.hour, at.hour) && Listed(c.day, at.day)
        && Listed(c.month, at.month) && Listed(c.weekday, at.weekday)
  {
    var c, at := t.cron.value, clock(m);
    FieldIs(c.minute, at.minute);
    FieldIs(c.hour, at.hour);
    FieldIs(c.day, at.day);
    FieldIs(c.month, at.month);
    FieldIs(c.weekday, at.weekday);
    hide FieldMatch, Listed;
  }

  /** A minute is sixty seconds of the clock, of which it takes the first and not the next minute's. */
  lemma MinuteIs(now: int, m: int)
    ensures Minute(now) == m <==> 60000 * m <= now < 60000 * (m + 1)
  {
  }

  /** So a trigger for half past nine on working days fires, where it has not just fired, at half past nine
      from Monday to Friday. */
  lemma WorkingDays(s: State, clock: Clock, t: Trigger, m: int)
    requires t.cron == Some(Cron([Just(30)], [Just(9)], [Any], [Any], [Range(1, 5)]))
    ensures Fires(s, clock, t, m) <==>
      !(t.key in s.fired && s.fired[t.key] == m) && clock(m).minute == 30 && clock(m).hour == 9 && 1 <= clock(m).weekday <= 5
  {
    var at := clock(m);
    FieldOne(Just(30), at.minute);
    FieldOne(Just(9), at.hour);
    FieldOne(Any, at.day);
    FieldOne(Any, at.month);
    FieldOne(Range(1, 5), at.weekday);
    hide FieldMatch;
  }

  lemma FieldOne(p: Part, value: nat)
    ensures FieldMatch([p], value) <==> PartMatch(p, value)
  {
    assert [p][0] == p;
  }

  // ---------------------------------------------------------------- the class

  class Ticker {
    const clock: Clock
    var fired: map<string, int>
    var disk: map<string, int>
    ghost var log: seq<Firing>

    ghost function View(): State
      reads this
    {
      State(fired, disk, log)
    }

    constructor (clock: Clock)
      ensures View() == BOOT && this.clock == clock
    {
      this.clock := clock;
      fired, disk, log := map[], map[], [];
    }

    /** saveState */
    method SaveState()
      modifies this`disk
      ensures View() == old(Save(View()))
    {
      disk := fired;
    }

    /** recover of a process that has just started with an empty map */
    method Recover()
      modifies this`fired
      ensures View() == old(Restart(View()))
    {
      fired := map[];
      var left := disk;
      while left.Keys != {}
        invariant left.Keys <= disk.Keys && (forall k :: k in left ==> left[k] == disk[k])
        invariant fired == map k | k in disk && k !in left :: disk[k]
        decreases |left.Keys|
      {
        var k :| k in left;
        fired := fired[k := left[k]];
        ghost var was := left.Keys;
        left := left - {k};
        assert left.Keys == was - {k};
      }
      assert fired == disk;
    }

    /** sweep */
    method SweepOnce(triggers: seq<Trigger>, now: int)
      modifies this
      ensures View() == old(Sweep(View(), clock, triggers, now))
    {
      var minuteKey := Minute(now);
      var i := 0;
      while i < |triggers|
        invariant i <= |triggers|
        invariant LookAll(View(), clock, triggers[i..], minuteKey) == old(LookAll(View(), clock, triggers, minuteKey))
      {
        var t := triggers[i];
        assert triggers[i..][1..] == triggers[i + 1..];
        i := i + 1;
        if t.cron.None? {
          continue;
        }
        if t.key in fired && fired[t.key] == minuteKey {
          continue;
        }
        if !CronMatch(t.cron.value, clock(minuteKey)) {
          continue;
        }
        fired := fired[t.key := minuteKey];
        log := log + [Firing(t.key, minuteKey)];
      }
      SaveState();
    }
  }
}
