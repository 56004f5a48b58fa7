/** What goes into a suite archive and in which order it installs: suiteClosure and installOrder of
    runner/supply/suites.ts. */
module Suites {
  import opened Sequences
  import opened Options
  import opened Grants

  /** The ledger as these two read it. `edges` are the providers that a package's manifest names, as
      resolveProvider finds them; None is a provider that is not there. */
  datatype Ledger = Ledger(installed: set<string>, grants: seq<Grant>, edges: map<string, seq<Option<string>>>)

  datatype Order = Order(packages: seq<string>) | Missing(package: string) | Mutual(rest: seq<string>)

  // ---------------------------------------------------------------- installOrder

  function Edges(ledger: Ledger, m: string): seq<Option<string>> {
    if m in ledger.edges then ledger.edges[m] else []
  }

  /** The other members that a member's manifest needs first. */
  function Deps(ledger: Ledger, members: seq<string>, m: string): (d: set<string>)
    ensures d <= Elems(members)
  {
    set x | x in members && x != m && Some(x) in Edges(ledger, m)
  }

  type Needs = map<string, set<string>>

  function NeedsOf(ledger: Ledger, members: seq<string>): (n: Needs)
    ensures n.Keys == Elems(members)
  {
    map m | m in members :: Deps(ledger, members, m)
  }

  function Need(needs: Needs, m: string): set<string> {
    if m in needs then needs[m] else {}
  }

  /** The members whose needs are all met, in order. */
  function Ready(rest: seq<string>, needs: Needs, done: set<string>): (r: seq<string>)
    ensures forall x :: x in r <==> x in rest && Need(needs, x) <= done
    ensures |r| <= |rest|
  {
    if rest == [] then []
    else if Need(needs, rest[0]) <= done then [rest[0]] + Ready(rest[1..], needs, done)
    else Ready(rest[1..], needs, done)
  }

  function Without(rest: seq<string>, done: set<string>): (r: seq<string>)
    ensures forall x :: x in r <==> x in rest && x !in done
    ensures |r| <= |rest|
    ensures (exists x :: x in rest && x in done) ==> |r| < |rest|
  {
    if rest == [] then [] else if rest[0] in done then Without(rest[1..], done) else [rest[0]] + Without(rest[1..], done)
  }

  /** Round after round, whoever is ready. */
  function Rounds(rest: seq<string>, needs: Needs, done: set<string>, out: seq<string>): Order
    decreases |rest|
  {
    if rest == [] then Order(out)
    else
      var ready := Ready(rest, needs, done);
      if ready == [] then Mutual(rest)
      else
        assert ready[0] in ready;
        Rounds(Without(rest, done + Elems(ready)), needs, done + Elems(ready), out + ready)
  }

  function FirstMissing(ledger: Ledger, members: seq<string>): Option<string> {
    if members == [] then None else if members[0] !in ledger.installed then Some(members[0]) else FirstMissing(ledger, members[1..])
  }

  function InstallOrder(ledger: Ledger, members: seq<string>): Order {
    match FirstMissing(ledger, members)
    case Some(m) => Missing(m)
    case None => Rounds(members, NeedsOf(ledger, members), {}, [])
  }

  /** installOrder */
  method ComputeOrder(ledger: Ledger, members: seq<string>) returns (r: Order)
    ensures r == InstallOrder(ledger, members)
  {
    var deps: Needs := map[];
    var i := 0;
    while i < |members|
      invariant i <= |members|
      invariant FirstMissing(ledger, members) == FirstMissing(ledger, members[i..])
      invariant deps == map m | m in members[..i] :: Deps(ledger, members, m)
    {
      assert members[i..][1..] == members[i + 1..];
      if members[i] !in ledger.installed {
        return Missing(members[i]);
      }
      var d := DepsOf(ledger, members, members[i]);
      deps := deps[members[i] := d];
      i := i + 1;
    }
    assert members[..i] == members;
    assert deps == NeedsOf(ledger, members);
    var out: seq<string>, done: set<string>, rest := [], {}, members;
    while rest != []
      invariant Rounds(rest, deps, done, out) == Rounds(members, deps, {}, [])
      decreases |rest|
    {
      var ready := Ready(rest, deps, done);
      if ready == [] {
        return Mutual(rest);
      }
      assert ready[0] in ready;
      out := out + ready;
      done := done + Elems(ready);
      rest := Without(rest, done);
    }
    r := Order(out);
  }

  /** The loop over one member's edges */
  method DepsOf(ledger: Ledger, members: seq<string>, m: string) returns (d: set<string>)
    ensures d == Deps(ledger, members, m)
  {
    var edges := Edges(ledger, m);
    d := {};
    var i := 0;
    while i < |edges|
      invariant i <= |edges|
      invariant d == set x | x in members && x != m && Some(x) in edges[..i]
    {
      match edges[i] {
        case Some(p) =>
          if p != m && p in members {
            d := d + {p};
          }
        case None =>
      }
      i := i + 1;
    }
    assert edges[..i] == edges;
  }

  /** A set of members each of which needs another of the set first. */
  ghost predicate Deadlock(needs: Needs, stuck: set<string>) {
    stuck != {} && forall m :: m in stuck ==> Need(needs, m) * stuck != {}
  }

  /** Whatever an entry needs stands before it. */
  ghost predicate ProvidersFirst(needs: Needs, out: seq<string>) {
    forall i :: 0 <= i < |out| ==> Need(needs, out[i]) <= Elems(out[..i])
  }

  lemma {:induction false} ReadySplits(rest: seq<string>, needs: Needs, done: set<string>)
    requires forall x :: x in rest ==> x !in done
    ensures multiset(rest) == multiset(Ready(rest, needs, done)) + multiset(Without(rest, done + Elems(Ready(rest, needs, done))))
  {
    var ready := Ready(rest, needs, done);
    SplitAny(rest, needs, done, done + Elems(ready));
  }

  lemma {:induction false} SplitAny(rest: seq<string>, needs: Needs, done: set<string>, gone: set<string>)
    requires forall x :: x in rest ==> (x in gone <==> Need(needs, x) <= done)
    ensures multiset(rest) == multiset(Ready(rest, needs, done)) + multiset(Without(rest, gone))
  {
    if rest != [] {
      hide Need, Elems;
      var x, tail := rest[0], rest[1..];
      SplitAny(tail, needs, done, gone);
      assert multiset(rest) == multiset{x} + multiset(tail) by { assert rest == [x] + tail; }
      if x in gone {
        assert Ready(rest, needs, done) == [x] + Ready(tail, needs, done) && Without(rest, gone) == Without(tail, gone);
      } else {
        assert Ready(rest, needs, done) == Ready(tail, needs, done) && Without(rest, gone) == [x] + Without(tail, gone);
      }
    }
  }

  lemma FirstAppend(needs: Needs, out: seq<string>, ready: seq<string>)
    requires ProvidersFirst(needs, out) && forall x :: x in ready ==> Need(needs, x) <= Elems(out)
    ensures ProvidersFirst(needs, out + ready)
  {
    var all := out + ready;
    forall i | 0 <= i < |all| ensures Need(needs, all[i]) <= Elems(all[..i]) {
      if i < |out| {
        assert all[..i] == out[..i];
      } else {
        assert all[i] == ready[i - |out|];
        assert forall x :: x in out ==> x in all[..i] by {
          assert all[..i] == out + ready[..i - |out|];
        }
      }
    }
  }

  /** What holds between rounds. */
  ghost predicate Between(rest: seq<string>, needs: Needs, done: set<string>, out: seq<string>) {
    && ProvidersFirst(needs, out) && done == Elems(out)
    && (forall x :: x in rest ==> x !in done)
    && (forall m :: m in rest ==> Need(needs, m) <= done + Elems(rest))
  }

  /** Either every member is placed after what it needs, or the ones left over need each other. */
  lemma {:induction false} RoundsEnd(rest: seq<string>, needs: Needs, done: set<string>, out: seq<string>)
    requires Between(rest, needs, done, out)
    ensures var r := Rounds(rest, needs, done, out);
      && (r.Order? ==> multiset(r.packages) == multiset(out) + multiset(rest) && ProvidersFirst(needs, r.packages))
      && (r.Mutual? ==> Deadlock(needs, Elems(r.rest)) && Elems(r.rest) <= Elems(rest))
      && !r.Missing?
    decreases |rest|
  {
    hide *;
    var ready := Ready(rest, needs, done);
    if rest == [] || ready == [] {
      Stuck(rest, needs, done, out);
    } else {
      OneRound(rest, needs, done, out);
      RoundsEnd(Without(rest, done + Elems(ready)), needs, done + Elems(ready), out + ready);
    }
  }

  lemma OneRound(rest: seq<string>, needs: Needs, done: set<string>, out: seq<string>)
    requires Between(rest, needs, done, out)
    ensures var ready := Ready(rest, needs, done);
      var gone := done + Elems(ready);
      var left := Without(rest, gone);
      && Between(left, needs, gone, out + ready)
      && multiset(out + ready) + multiset(left) == multiset(out) + multiset(rest)
      && Elems(left) <= Elems(rest)
      && (ready != [] ==> |left| < |rest| && Rounds(rest, needs, done, out) == Rounds(left, needs, gone, out + ready))
  {
    var ready := Ready(rest, needs, done);
    var gone := done + Elems(ready);
    var left := Without(rest, gone);
    ReadySplits(rest, needs, done);
    FirstAppend(needs, out, ready);
    assert Elems(out + ready) == gone;
    assert Elems(rest) <= gone + Elems(left);
  }

  /** The last round. */
  lemma Stuck(rest: seq<string>, needs: Needs, done: set<string>, out: seq<string>)
    requires Between(rest, needs, done, out) && (rest == [] || Ready(rest, needs, done) == [])
    ensures rest == [] ==> Rounds(rest, needs, done, out) == Order(out) && ProvidersFirst(needs, out)
    ensures rest != [] ==> Rounds(rest, needs, done, out) == Mutual(rest) && Deadlock(needs, Elems(rest))
  {
    RoundsStop(rest, needs, done, out);
    assert ProvidersFirst(needs, out);
    if rest != [] {
      AllLeft(rest, needs, done);
    }
    hide *;
  }

  lemma AllLeft(rest: seq<string>, needs: Needs, done: set<string>)
    requires rest != [] && Ready(rest, needs, done) == [] && forall m :: m in rest ==> Need(needs, m) <= done + Elems(rest)
    ensures Deadlock(needs, Elems(rest))
  {
    var left := Elems(rest);
    assert rest[0] in left;
    forall m | m in left ensures Need(needs, m) * left != {} {
      NeedsLeft(rest, needs, done, m);
    }
    hide Elems, Need, Ready;
  }

  lemma RoundsStop(rest: seq<string>, needs: Needs, done: set<string>, out: seq<string>)
    requires rest == [] || Ready(rest, needs, done) == []
    ensures Rounds(rest, needs, done, out) == if rest == [] then Order(out) else Mutual(rest)
  {
  }

  lemma NeedsLeft(rest: seq<string>, needs: Needs, done: set<string>, m: string)
    requires Ready(rest, needs, done) == [] && m in rest && Need(needs, m) <= done + Elems(rest)
    ensures Need(needs, m) * Elems(rest) != {}
  {
    assert m !in Ready(rest, needs, done) && !(Need(needs, m) <= done);
    var d :| d in Need(needs, m) && d !in done;
    assert d in Need(needs, m) * Elems(rest);
  }

  /** No order can place a member of a deadlock after what it needs. */
  lemma NoOrder(needs: Needs, out: seq<string>, stuck: set<string>)
    requires ProvidersFirst(needs, out) && Deadlock(needs, stuck)
    ensures exists m :: m in stuck && m !in out
  {
    if forall m :: m in stuck ==> m in out {
      var m :| m in stuck;
      var i :| 0 <= i < |out| && out[i] == m;
      Earlier(needs, out, stuck, i);
    }
  }

  lemma {:induction false} Earlier(needs: Needs, out: seq<string>, stuck: set<string>, i: nat)
    requires ProvidersFirst(needs, out) && Deadlock(needs, stuck) && i < |out| && out[i] in stuck
    ensures false
  {
    var d :| d in Need(needs, out[i]) * stuck;
    assert d in Elems(out[..i]);
    var j :| 0 <= j < i && out[j] == d;
    Earlier(needs, out, stuck, j);
  }

  /** installOrder places every member, once for each time it is listed, after the members it needs; it
      gives up exactly when some members need each other, and then on such members. */
  lemma OrderOrDeadlock(ledger: Ledger, members: seq<string>)
    requires forall m :: m in members ==> m in ledger.installed
    ensures var r := InstallOrder(ledger, members);
      var needs := NeedsOf(ledger, members);
      && !r.Missing?
      && (r.Order? ==> multiset(r.packages) == multiset(members) && ProvidersFirst(needs, r.packages))
      && (r.Mutual? ==> Deadlock(needs, Elems(r.rest)) && Elems(r.rest) <= Elems(members))
      && (r.Mutual? <==> exists stuck :: stuck <= Elems(members) && Deadlock(needs, stuck))
  {
    var needs := NeedsOf(ledger, members);
    NoneMissing(ledger, members);
    RoundsEnd(members, needs, {}, []);
    var r := InstallOrder(ledger, members);
    var none: seq<string> := [];
    assert multiset(none) + multiset(members) == multiset(members);
    if r.Order? {
      SameElems(r.packages, members);
      assert forall m :: m in Elems(members) ==> m in r.packages;
      forall stuck | stuck <= Elems(members) ensures !Deadlock(needs, stuck) {
        if Deadlock(needs, stuck) {
          NoOrder(needs, r.packages, stuck);
        }
      }
    }
  }

  lemma {:induction false} NoneMissing(ledger: Ledger, members: seq<string>)
    ensures FirstMissing(ledger, members) == None <==> forall m :: m in members ==> m in ledger.installed
    ensures FirstMissing(ledger, members).Some? ==>
      FirstMissing(ledger, members).value in members && FirstMissing(ledger, members).value !in ledger.installed
  {
    if members != [] {
      NoneMissing(ledger, members[1..]);
      assert members == [members[0]] + members[1..];
    }
  }

  // ---------------------------------------------------------------- suiteClosure

  /** `[...new Set(list)]` */
  function Dedup(list: seq<string>, seen: set<string>): (r: seq<string>)
    ensures forall x :: x in r <==> x in list && x !in seen
  {
    if list == [] then []
    else if list[0] in seen then Dedup(list[1..], seen)
    else [list[0]] + Dedup(list[1..], seen + {list[0]})
  }

  function Installed(ledger: Ledger, list: seq<string>): (r: seq<string>)
    ensures forall x :: x in r <==> x in list && x in ledger.installed
  {
    if list == [] then []
    else if list[0] in ledger.installed then [list[0]] + Installed(ledger, list[1..])
    else Installed(ledger, list[1..])
  }

  lemma {:induction false} DedupDistinct(list: seq<string>, seen: set<string>)
    ensures Distinct(Dedup(list, seen))
  {
    if list != [] {
      DedupDistinct(list[1..], seen);
      DedupDistinct(list[1..], seen + {list[0]});
    }
  }

  /** A grant by which one package's screens mount another that is installed. */
  predicate Mounts(ledger: Ledger, a: string, b: string) {
    Grant(a, b, true) in ledger.grants && b in ledger.installed
  }

  /** Holds the installed members and, with a package, what its screens mount. */
  ghost predicate Closed(ledger: Ledger, members: seq<string>, s: set<string>) {
    && (forall m :: m in members && m in ledger.installed ==> m in s)
    && (forall a, b {:trigger Mounts(ledger, a, b)} :: a in s && Mounts(ledger, a, b) ==> b in s)
  }

  /** A list on its way: the installed members, and nothing that some closed set does without. */
  ghost predicate Sound(ledger: Ledger, members: seq<string>, out: seq<string>) {
    && Distinct(out)
    && (forall x :: x in out ==> x in ledger.installed)
    && (forall m :: m in members && m in ledger.installed ==> m in out)
    && (forall s {:trigger Closed(ledger, members, s)} :: Closed(ledger, members, s) ==> Elems(out) <= s)
  }

  /** What some packages of the list mount is in the list. */
  ghost predicate Mounted(ledger: Ledger, some: seq<string>, out: seq<string>) {
    forall a, b {:trigger Mounts(ledger, a, b)} :: a in some && Mounts(ledger, a, b) ==> b in out
  }

  /** suiteClosure: the loop goes on over a list that it lengthens. */
  method Closure(ledger: Ledger, members: seq<string>) returns (out: seq<string>)
    ensures Distinct(out)
    ensures forall x :: x in out ==> x in ledger.installed
    ensures Closed(ledger, members, Elems(out))
    ensures forall s {:trigger Closed(ledger, members, s)} :: Closed(ledger, members, s) ==> Elems(out) <= s
  {
    out := Dedup(Installed(ledger, members), {});
    FirstSound(ledger, members);
    var i := 0;
    while i < |out|
      invariant i <= |out| && Sound(ledger, members, out) && Mounted(ledger, out[..i], out)
      decreases |ledger.installed - Elems(out)|, |out| - i
    {
      var next := MountAll(ledger, members, out, i);
      Progress(ledger, members, out, next);
      out := next;
      i := i + 1;
    }
    assert out[..i] == out;
  }

  lemma FirstSound(ledger: Ledger, members: seq<string>)
    ensures Sound(ledger, members, Dedup(Installed(ledger, members), {}))
  {
    DedupDistinct(Installed(ledger, members), {});
  }

  /** The list grows only while some installed package is not in it. */
  lemma Progress(ledger: Ledger, members: seq<string>, was: seq<string>, out: seq<string>)
    requires was <= out && Sound(ledger, members, out)
    ensures out == was || |ledger.installed - Elems(out)| < |ledger.installed - Elems(was)|
  {
    if out != was {
      var x := out[|was|];
      assert x in Elems(out) && x in ledger.installed && x !in Elems(was);
      Fewer(ledger.installed - Elems(out), ledger.installed - Elems(was), x);
    }
  }

  lemma Fewer(a: set<string>, b: set<string>, x: string)
    requires a <= b && x in b && x !in a
    ensures |a| < |b|
  {
    assert b == a + (b - a) && x in b - a;
    assert |b| == |a| + |b - a|;
  }

  /** The inner loop over the grants, for the consumer at one place */
  method MountAll(ledger: Ledger, members: seq<string>, list: seq<string>, i: nat) returns (out: seq<string>)
    requires i < |list| && Sound(ledger, members, list) && Mounted(ledger, list[..i], list)
    ensures list <= out && Sound(ledger, members, out) && Mounted(ledger, out[..i + 1], out)
  {
    var consumer := list[i];
    out := list;
    var k := 0;
    while k < |ledger.grants|
      invariant k <= |ledger.grants| && list <= out && Sound(ledger, members, out)
      invariant forall b :: Grant(consumer, b, true) in ledger.grants[..k] && b in ledger.installed ==> b in out
    {
      var g := ledger.grants[k];
      if g.consumer == consumer && g.components && g.provider in ledger.installed && g.provider !in out {
        assert g == Grant(consumer, g.provider, true);
        OneMore(ledger, members, out, consumer, g.provider);
        out := out + [g.provider];
      }
      k := k + 1;
    }
    assert ledger.grants[..k] == ledger.grants;
    assert out[..i + 1] == list[..i] + [consumer];
  }

  lemma OneMore(ledger: Ledger, members: seq<string>, out: seq<string>, a: string, b: string)
    requires Sound(ledger, members, out) && a in out && Mounts(ledger, a, b) && b !in out
    ensures Sound(ledger, members, out + [b])
  {
    forall s {:trigger Closed(ledger, members, s)} | Closed(ledger, members, s) ensures Elems(out + [b]) <= s {
      assert a in Elems(out) && Elems(out) <= s;
    }
  }

  // ---------------------------------------------------------------- packSuite

  /** The packages of an archive in the order they install. */
  method SuiteOrder(ledger: Ledger, members: seq<string>) returns (closure: seq<string>, r: Order)
    ensures Closed(ledger, members, Elems(closure)) && Distinct(closure)
    ensures r == InstallOrder(ledger, closure) && !r.Missing?
    ensures r.Order? ==>
      && multiset(r.packages) == multiset(closure)
      && Closed(ledger, members, Elems(r.packages))
      && (forall s {:trigger Closed(ledger, members, s)} :: Closed(ledger, members, s) ==> Elems(r.packages) <= s)
      && forall i, p :: 0 <= i < |r.packages| && p in r.packages && p != r.packages[i] && Some(p) in Edges(ledger, r.packages[i])
           ==> p in r.packages[..i]
  {
    closure := Closure(ledger, members);
    r := ComputeOrder(ledger, closure);
    OrderOrDeadlock(ledger, closure);
    NoneMissing(ledger, closure);
    if r.Order? {
      SameElems(r.packages, closure);
      forall i, p | 0 <= i < |r.packages| && p in r.packages && p != r.packages[i] && Some(p) in Edges(ledger, r.packages[i])
        ensures p in r.packages[..i]
      {
        EdgeIsNeed(ledger, closure, r.packages[i], p);
        assert p in Elems(r.packages[..i]);
      }
    }
  }

  lemma SameElems(a: seq<string>, b: seq<string>)
    requires multiset(a) == multiset(b)
    ensures Elems(a) == Elems(b)
  {
    forall x ensures x in a <==> x in b {
      assert x in a <==> x in multiset(a);
      assert x in b <==> x in multiset(b);
    }
  }

  lemma EdgeIsNeed(ledger: Ledger, members: seq<string>, m: string, p: string)
    requires m in Elems(members) && p in Elems(members) && p != m && Some(p) in Edges(ledger, m)
    ensures p in Need(NeedsOf(ledger, members), m)
  {
  }
}
