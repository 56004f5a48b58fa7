/** Which of the possible install orders it is, and what is left when there is none. */
module SuiteLayers {
  import opened Sequences
  import opened Options
  import opened Suites

  // ---------------------------------------------------------------- depths

  /** The members of one depth, in the order they are listed */
  function Select(members: seq<string>, depth: map<string, nat>, k: nat): seq<string> {
    if members == [] then []
    else if members[0] in depth && depth[members[0]] == k then [members[0]] + Select(members[1..], depth, k)
    else Select(members[1..], depth, k)
  }

  /** The members of depths below k, depth by depth */
  function Layers(members: seq<string>, depth: map<string, nat>, k: nat): seq<string> {
    if k == 0 then [] else Layers(members, depth, k - 1) + Select(members, depth, k - 1)
  }

  /** A member's depth is one more than the greatest of those it needs, and 0 if it needs none. */
  ghost predicate DepthOk(needs: Needs, depth: map<string, nat>, m: string) {
    m in depth ==>
      && (forall d :: d in Need(needs, m) ==> d in depth && depth[d] < depth[m])
      && (depth[m] > 0 ==> exists d :: d in Need(needs, m) && d in depth && depth[d] == depth[m] - 1)
  }

  ghost predicate Depths(needs: Needs, depth: map<string, nat>) {
    forall m {:trigger DepthOk(needs, depth, m)} :: DepthOk(needs, depth, m)
  }

  /** Depths are determined by the needs. */
  lemma {:induction false} OneDepth(needs: Needs, a: map<string, nat>, b: map<string, nat>, m: string)
    requires Depths(needs, a) && Depths(needs, b) && m in a && m in b
    ensures a[m] == b[m]
    decreases a[m]
  {
    assert DepthOk(needs, a, m) && DepthOk(needs, b, m);
    if a[m] > 0 {
      var d :| d in Need(needs, m) && d in a && a[d] == a[m] - 1;
      OneDepth(needs, a, b, d);
    }
    if b[m] > 0 {
      var d :| d in Need(needs, m) && d in b && b[d] == b[m] - 1;
      OneDepth(needs, a, b, d);
    }
  }

  // ---------------------------------------------------------------- round by round

  /** After k rounds: everything of depth below k is placed, and what is left needs something that was
      placed in the last round, or is not placed. */
  ghost predicate AfterRounds(members: seq<string>, needs: Needs, rest: seq<string>, done: set<string>, out: seq<string>, depth: map<string, nat>, k: nat) {
    && depth.Keys == done && Depths(needs, depth) && rest == Without(members, done)
    && out == Layers(members, depth, k)
    && (forall m :: m in depth ==> depth[m] < k)
    && (k > 0 ==> forall m :: m in rest ==> Late(needs, depth, m, k - 1))
  }

  /** It needs something that is not placed at a depth below k. */
  ghost predicate Late(needs: Needs, depth: map<string, nat>, m: string, k: nat) {
    exists d :: d in Need(needs, m) && !(d in depth && depth[d] < k)
  }

  function Deeper(depth: map<string, nat>, ready: seq<string>, k: nat): map<string, nat> {
    depth + map m | m in ready :: k
  }

  lemma {:induction false} ReadyIsSelect(members: seq<string>, needs: Needs, done: set<string>, depth: map<string, nat>, next: map<string, nat>, k: nat)
    requires depth.Keys == done && forall m :: m in depth ==> depth[m] < k
    requires forall m :: m in next <==> m in done || (m in next && next[m] == k)
    requires forall m :: m in done ==> next[m] == depth[m]
    requires forall m :: m in members && m !in done ==> (m in next <==> Need(needs, m) <= done)
    requires forall m :: m in next && m !in done ==> next[m] == k
    ensures Ready(Without(members, done), needs, done) == Select(members, next, k)
  {
    if members != [] {
      ReadyIsSelect(members[1..], needs, done, depth, next, k);
      var m := members[0];
      var rest := Without(members[1..], done);
      if m !in done {
        assert ([m] + rest)[1..] == rest;
      }
    }
  }

  lemma {:induction false} SelectSame(members: seq<string>, depth: map<string, nat>, next: map<string, nat>, j: nat)
    requires forall m :: (m in depth && depth[m] == j) <==> (m in next && next[m] == j)
    ensures Select(members, next, j) == Select(members, depth, j)
  {
    if members != [] {
      SelectSame(members[1..], depth, next, j);
    }
  }

  lemma {:induction false} LayersSame(members: seq<string>, depth: map<string, nat>, next: map<string, nat>, k: nat, top: nat)
    requires k <= top && (forall m :: m in depth ==> m in next && next[m] == depth[m])
    requires forall m :: m in next && m !in depth ==> next[m] == top
    ensures Layers(members, next, k) == Layers(members, depth, k)
  {
    if k > 0 {
      LayersSame(members, depth, next, k - 1, top);
      SelectSame(members, depth, next, k - 1);
    }
  }

  lemma {:induction false} WithoutTwice(members: seq<string>, a: set<string>, b: set<string>)
    requires a <= b
    ensures Without(Without(members, a), b) == Without(members, b)
  {
    if members != [] {
      WithoutTwice(members[1..], a, b);
      var rest := Without(members[1..], a);
      if members[0] !in a {
        assert ([members[0]] + rest)[1..] == rest;
      }
    }
  }

  lemma NextRound(members: seq<string>, needs: Needs, rest: seq<string>, done: set<string>, out: seq<string>, depth: map<string, nat>, k: nat)
    requires AfterRounds(members, needs, rest, done, out, depth, k)
    ensures var ready := Ready(rest, needs, done);
      AfterRounds(members, needs, Without(rest, done + Elems(ready)), done + Elems(ready), out + ready, Deeper(depth, ready, k), k + 1)
  {
    var ready := Ready(rest, needs, done);
    var next := Deeper(depth, ready, k);
    assert forall m :: m in ready ==> m !in done;
    ReadyIsSelect(members, needs, done, depth, next, k);
    LayersSame(members, depth, next, k, k);
    WithoutTwice(members, done, done + Elems(ready));
    forall m ensures DepthOk(needs, next, m) {
      NextDepth(members, needs, rest, done, out, depth, k, m);
    }
    var left := Without(rest, done + Elems(ready));
    forall m | m in left ensures Late(needs, next, m, k) {
      assert m in rest && m !in ready;
      var d :| d in Need(needs, m) && d !in done;
    }
  }

  lemma NextDepth(members: seq<string>, needs: Needs, rest: seq<string>, done: set<string>, out: seq<string>, depth: map<string, nat>, k: nat, m: string)
    requires AfterRounds(members, needs, rest, done, out, depth, k)
    ensures DepthOk(needs, Deeper(depth, Ready(rest, needs, done), k), m)
  {
    var ready := Ready(rest, needs, done);
    var next := Deeper(depth, ready, k);
    assert DepthOk(needs, depth, m);
    assert forall x :: x in ready ==> x !in done;
    if m in ready && k > 0 {
      assert Late(needs, depth, m, k - 1);
      var d :| d in Need(needs, m) && !(d in depth && depth[d] < k - 1);
      assert d in next && next[d] == next[m] - 1;
    }
  }

  lemma {:induction false} RoundsLayered(members: seq<string>, needs: Needs, rest: seq<string>, done: set<string>, out: seq<string>, depth: map<string, nat>, k: nat)
      returns (final: map<string, nat>, top: nat)
    requires AfterRounds(members, needs, rest, done, out, depth, k)
    ensures Depths(needs, final) && (forall m :: m in final ==> final[m] < top)
    ensures var r := Rounds(rest, needs, done, out);
      match r
      case Order(packages) => packages == Layers(members, final, top) && (forall m :: m in members ==> m in final)
      case Mutual(left) => left == Without(members, final.Keys) && left != [] && (forall m :: m in left ==> !(Need(needs, m) <= final.Keys))
      case Missing(_) => false
    decreases |rest|
  {
    if rest == [] {
      final, top := depth, k;
    } else {
      var ready := Ready(rest, needs, done);
      if ready == [] {
        final, top := depth, k;
        forall m | m in rest ensures !(Need(needs, m) <= done) { assert m !in ready; }
      } else {
        NextRound(members, needs, rest, done, out, depth, k);
        assert ready[0] in ready;
        final, top := RoundsLayered(members, needs, Without(rest, done + Elems(ready)), done + Elems(ready), out + ready, Deeper(depth, ready, k), k + 1);
      }
    }
  }

  lemma {:induction false} NotStuck(needs: Needs, depth: map<string, nat>, stuck: set<string>, m: string)
    requires Depths(needs, depth) && Deadlock(needs, stuck) && m in depth
    ensures m !in stuck
    decreases depth[m]
  {
    if m in stuck {
      assert DepthOk(needs, depth, m);
      assert Need(needs, m) * stuck != {};
      var d :| d in Need(needs, m) * stuck;
      NotStuck(needs, depth, stuck, d);
    }
  }

  // ---------------------------------------------------------------- the order, and what is left over

  /** The order goes by depth of need, and within a depth by the list. */
  lemma OrderIsLayers(ledger: Ledger, members: seq<string>) returns (depth: map<string, nat>, top: nat)
    requires InstallOrder(ledger, members).Order?
    ensures Depths(NeedsOf(ledger, members), depth) && forall m :: m in members ==> m in depth && depth[m] < top
    ensures InstallOrder(ledger, members).packages == Layers(members, depth, top)
  {
    AtFirst(members, NeedsOf(ledger, members));
    depth, top := RoundsLayered(members, NeedsOf(ledger, members), members, {}, [], map[], 0);
  }

  /** What is left over, in the order of the list, is every member of any set whose members need one another. */
  lemma LeftOver(ledger: Ledger, members: seq<string>, stuck: set<string>)
    requires InstallOrder(ledger, members).Mutual? && (forall m :: m in members ==> m in ledger.installed)
    ensures var rest := InstallOrder(ledger, members).rest;
      && rest == Without(members, Elems(members) - Elems(rest))
      && Deadlock(NeedsOf(ledger, members), Elems(rest))
      && (stuck <= Elems(members) && Deadlock(NeedsOf(ledger, members), stuck) ==> forall m :: m in stuck ==> m in rest)
  {
    var needs, rest := NeedsOf(ledger, members), InstallOrder(ledger, members).rest;
    OrderOrDeadlock(ledger, members);
    NoneMissing(ledger, members);
    assert Rounds(members, needs, {}, []) == Mutual(rest);
    hide *;
    var depth := LeftIs(members, needs, rest);
    LeftMembers(members, depth.Keys, rest);
    if stuck <= Elems(members) && Deadlock(needs, stuck) {
      AllStuck(members, needs, depth, stuck);
    }
  }

  lemma LeftIs(members: seq<string>, needs: Needs, rest: seq<string>) returns (depth: map<string, nat>)
    requires Rounds(members, needs, {}, []) == Mutual(rest)
    ensures Depths(needs, depth) && rest == Without(members, depth.Keys)
  {
    AtFirst(members, needs);
    var top;
    depth, top := RoundsLayered(members, needs, members, {}, [], map[], 0);
  }

  lemma LeftMembers(members: seq<string>, placed: set<string>, rest: seq<string>)
    requires rest == Without(members, placed)
    ensures rest == Without(members, Elems(members) - Elems(rest))
  {
    WithoutSame(members, placed, Elems(members) - Elems(rest));
  }

  lemma AllStuck(members: seq<string>, needs: Needs, depth: map<string, nat>, stuck: set<string>)
    requires Depths(needs, depth) && stuck <= Elems(members) && Deadlock(needs, stuck)
    ensures forall m :: m in stuck ==> m in Without(members, depth.Keys)
  {
    forall m | m in stuck ensures m in Without(members, depth.Keys) {
      StuckLeft(members, needs, depth, stuck, m);
    }
  }

  lemma StuckLeft(members: seq<string>, needs: Needs, depth: map<string, nat>, stuck: set<string>, m: string)
    requires Depths(needs, depth) && stuck <= Elems(members) && Deadlock(needs, stuck) && m in stuck
    ensures m in Without(members, depth.Keys)
  {
    assert m in Elems(members);
    if m in depth {
      NotStuck(needs, depth, stuck, m);
    }
  }

  lemma {:induction false} WithoutSame(members: seq<string>, a: set<string>, b: set<string>)
    requires forall m :: m in members ==> (m in a <==> m in b)
    ensures Without(members, a) == Without(members, b)
  {
    if members != [] {
      WithoutSame(members[1..], a, b);
    }
  }

  lemma AtFirst(members: seq<string>, needs: Needs)
    ensures AfterRounds(members, needs, members, {}, [], map[], 0)
  {
    WithoutNothing(members);
  }

  lemma {:induction false} WithoutNothing(members: seq<string>)
    ensures Without(members, {}) == members
  {
    if members != [] {
      WithoutNothing(members[1..]);
    }
  }

  /** The first of the members that are not installed */
  predicate FirstAbsent(ledger: Ledger, members: seq<string>, i: nat) {
    i < |members| && members[i] !in ledger.installed && forall j :: 0 <= j < i ==> members[j] in ledger.installed
  }

  /** It is refused exactly when some member is not installed, and the error names the first. */
  lemma MissingFirst(ledger: Ledger, members: seq<string>)
    ensures InstallOrder(ledger, members).Missing? <==> exists m :: m in members && m !in ledger.installed
    ensures InstallOrder(ledger, members).Missing? ==>
      exists i: nat :: FirstAbsent(ledger, members, i) && InstallOrder(ledger, members).package == members[i]
  {
    FirstIs(ledger, members);
    NoneMissing(ledger, members);
    if FirstMissing(ledger, members).None? {
      OrderOrDeadlock(ledger, members);
    }
  }

  lemma {:induction false} FirstIs(ledger: Ledger, members: seq<string>)
    ensures FirstMissing(ledger, members).Some? ==>
      exists i: nat :: FirstAbsent(ledger, members, i) && FirstMissing(ledger, members).value == members[i]
  {
    if members != [] {
      var rest := members[1..];
      FirstIs(ledger, rest);
      if members[0] !in ledger.installed {
        assert FirstAbsent(ledger, members, 0);
      } else if FirstMissing(ledger, rest).Some? {
        var i: nat :| FirstAbsent(ledger, rest, i) && FirstMissing(ledger, rest).value == rest[i];
        assert forall j :: 0 < j <= i + 1 ==> members[j] == rest[j - 1];
        assert FirstAbsent(ledger, members, i + 1);
      }
    }
  }
}
