/** Parents in the navigation of runner/runtime/shell.ts, and the pass that cuts their chains. */
module Nav {
  import opened Sequences
  import opened Options
  import opened Grants

  datatype Mode = Auto | Always | Never

  // ---------------------------------------------------------------- mountedIn

  predicate Counts(g: Grant, installed: set<string>) {
    g.components && g.consumer in installed && g.provider in installed
  }

  /** The consumers that mount a package, in ledger order and each once. */
  function MountedIn(grants: seq<Grant>, installed: set<string>, p: string): (r: seq<string>)
    decreases |grants|
  {
    if grants == [] then []
    else
      var before := MountedIn(grants[..|grants| - 1], installed, p);
      var g := grants[|grants| - 1];
      if Counts(g, installed) && g.provider == p && g.consumer !in before then before + [g.consumer] else before
  }

  function Listed(m: map<string, seq<string>>, p: string): seq<string> {
    if p in m then m[p] else []
  }

  /** The loop over the grants */
  method CollectMounts(grants: seq<Grant>, installed: set<string>) returns (m: map<string, seq<string>>)
    ensures forall p {:trigger Listed(m, p)} :: Listed(m, p) == MountedIn(grants, installed, p)
  {
    m := map[];
    var i := 0;
    while i < |grants|
      invariant i <= |grants|
      invariant forall p {:trigger Listed(m, p)} :: Listed(m, p) == MountedIn(grants[..i], installed, p)
    {
      var g := grants[i];
      ghost var was := m;
      assert grants[..i + 1][..i] == grants[..i] && grants[..i + 1][i] == g;
      if Counts(g, installed) {
        var list := Listed(m, g.provider);
        if g.consumer !in list {
          list := list + [g.consumer];
        }
        m := m[g.provider := list];
      }
      forall p ensures Listed(m, p) == MountedIn(grants[..i + 1], installed, p) {
        assert Listed(was, p) == MountedIn(grants[..i], installed, p);
      }
      i := i + 1;
    }
    assert grants[..i] == grants;
  }

  /** The first counting grant of a provider */
  ghost predicate FirstFor(grants: seq<Grant>, installed: set<string>, p: string, i: nat)
    requires i < |grants|
  {
    && Counts(grants[i], installed) && grants[i].provider == p
    && forall j :: 0 <= j < i && Counts(grants[j], installed) ==> grants[j].provider != p
  }

  /** Exactly the installed consumers of a component grant, each once; the first is that of the first
      such grant. */
  lemma {:induction false} MountedInIs(grants: seq<Grant>, installed: set<string>, p: string)
    ensures var r := MountedIn(grants, installed, p);
      && (forall i, j :: 0 <= i < j < |r| ==> r[i] != r[j])
      && (forall c :: c in r <==> Grant(c, p, true) in grants && c in installed && p in installed)
      && (r != [] ==> exists i :: 0 <= i < |grants| && FirstFor(grants, installed, p, i) && grants[i].consumer == r[0])
    decreases |grants|
  {
    if grants != [] {
      var k := |grants| - 1;
      MountedInIs(grants[..k], installed, p);
      assert grants == grants[..k] + [grants[k]];
      var before, r := MountedIn(grants[..k], installed, p), MountedIn(grants, installed, p);
      if before != [] {
        var i :| 0 <= i < k && FirstFor(grants[..k], installed, p, i) && grants[..k][i].consumer == before[0];
        assert forall j :: 0 <= j <= i ==> grants[j] == grants[..k][j];
        assert FirstFor(grants, installed, p, i);
      } else if r != [] {
        forall j | 0 <= j < k && Counts(grants[j], installed) ensures grants[j].provider != p {
          assert grants[..k][j] == grants[j];
          assert grants[j].consumer !in before;
        }
        assert FirstFor(grants, installed, p, k);
      }
    }
  }

  /** `nav === "always" ? null : base.mounted_in[0] ?? null` */
  function ParentOf(grants: seq<Grant>, installed: set<string>, modes: map<string, Mode>, p: string): Option<string> {
    var list := MountedIn(grants, installed, p);
    if (p in modes && modes[p] == Always) || list == [] then None else Some(list[0])
  }

  // ---------------------------------------------------------------- chains

  type Parents = map<string, Option<string>>

  function Up(parent: Parents, at: Option<string>): Option<string> {
    if at.Some? && at.value in parent then parent[at.value] else None
  }

  /** The n-th step up from a package. */
  function Climb(parent: Parents, x: string, n: nat): Option<string> {
    if n == 0 then Some(x) else Up(parent, Climb(parent, x, n - 1))
  }

  /** The chain ends. */
  ghost predicate Rooted(parent: Parents, x: string) {
    exists n: nat :: Climb(parent, x, n) == None
  }

  /** The walk of the cut pass: does it meet a package again? */
  function Meets(parent: Parents, at: Option<string>, seen: set<string>): bool
    decreases |parent.Keys - seen|, if at.Some? then 1 else 0
  {
    if at.None? then false
    else if at.value in seen then true
    else
      assert at.value in parent ==> parent.Keys - seen == parent.Keys - (seen + {at.value}) + {at.value};
      assert at.value !in parent ==> parent.Keys - seen == parent.Keys - (seen + {at.value});
      Meets(parent, Up(parent, at), seen + {at.value})
  }

  lemma {:induction false} NoneStays(parent: Parents, x: string, n: nat, m: nat)
    requires n <= m && Climb(parent, x, n) == None
    ensures Climb(parent, x, m) == None
    decreases m
  {
    if n < m {
      NoneStays(parent, x, n, m - 1);
    }
  }

  lemma {:induction false} ClimbOn(parent: Parents, x: string, n: nat, y: string, k: nat)
    requires Climb(parent, x, n) == Some(y)
    ensures Climb(parent, x, n + k) == Climb(parent, y, k)
    decreases k
  {
    if k > 0 {
      ClimbOn(parent, x, n, y, k - 1);
    }
  }

  /** A chain that meets a package again never ends. */
  lemma {:induction false} Repeats(parent: Parents, x: string, i: nat, j: nat, n: nat)
    requires i < j && Climb(parent, x, i).Some? && Climb(parent, x, i) == Climb(parent, x, j)
    ensures Climb(parent, x, n).Some?
    decreases n
  {
    if n <= j {
      if Climb(parent, x, n).None? {
        NoneStays(parent, x, n, j);
      }
    } else {
      var y := Climb(parent, x, i).value;
      ClimbOn(parent, x, i, y, n - j);
      ClimbOn(parent, x, j, y, n - j);
      Repeats(parent, x, i, j, i + (n - j));
    }
  }

  /** What the walk has seen when it stands on the k-th step. */
  ghost predicate SeenUpTo(parent: Parents, x: string, k: nat, seen: set<string>) {
    && (forall i: nat :: i < k && Climb(parent, x, i).Some? ==> Climb(parent, x, i).value in seen)
    && (forall y :: y in seen ==> exists i: nat :: i < k && Climb(parent, x, i) == Some(y))
  }

  lemma SeenMore(parent: Parents, x: string, k: nat, seen: set<string>)
    requires SeenUpTo(parent, x, k, seen) && Climb(parent, x, k).Some?
    ensures SeenUpTo(parent, x, k + 1, seen + {Climb(parent, x, k).value})
  {
    hide Climb;
    forall y | y in seen + {Climb(parent, x, k).value} ensures exists i: nat :: i < k + 1 && Climb(parent, x, i) == Some(y) {
      if y in seen {
        var i: nat :| i < k && Climb(parent, x, i) == Some(y);
        assert i < k + 1;
      } else {
        assert Climb(parent, x, k) == Some(y);
      }
    }
  }

  /** Each step of the walk sees one more of the packages that have a parent, or is its last. */
  lemma WalkShrinks(parent: Parents, seen: set<string>, y: string)
    requires y !in seen
    ensures y in parent ==> |parent.Keys - (seen + {y})| < |parent.Keys - seen|
    ensures y !in parent ==> parent.Keys - (seen + {y}) == parent.Keys - seen && Up(parent, Some(y)) == None
  {
    if y in parent {
      assert parent.Keys - seen == parent.Keys - (seen + {y}) + {y};
    }
  }

  /** The walk from the k-th step, having seen those before it, decides whether the chain ends. */
  lemma {:induction false} MeetsIs(parent: Parents, x: string, k: nat, seen: set<string>)
    requires SeenUpTo(parent, x, k, seen)
    ensures Meets(parent, Climb(parent, x, k), seen) <==> !Rooted(parent, x)
    decreases |parent.Keys - seen|, if Climb(parent, x, k).Some? then 1 else 0
  {
    hide *;
    var at := Climb(parent, x, k);
    WalkStep(parent, x, k, seen);
    if at.Some? {
      if at.value in seen {
        MetAgain(parent, x, k, seen);
      } else {
        SeenMore(parent, x, k, seen);
        WalkShrinks(parent, seen, at.value);
        MeetsIs(parent, x, k + 1, seen + {at.value});
      }
    }
  }

  /** One step of the walk */
  lemma WalkStep(parent: Parents, x: string, k: nat, seen: set<string>)
    ensures var at := Climb(parent, x, k);
      && Climb(parent, x, k + 1) == Up(parent, at)
      && (at.None? ==> Rooted(parent, x) && !Meets(parent, at, seen))
      && (at.Some? && at.value in seen ==> Meets(parent, at, seen))
      && (at.Some? && at.value !in seen ==> Meets(parent, at, seen) == Meets(parent, Up(parent, at), seen + {at.value}))
  {
  }

  lemma MetAgain(parent: Parents, x: string, k: nat, seen: set<string>)
    requires SeenUpTo(parent, x, k, seen) && Climb(parent, x, k).Some? && Climb(parent, x, k).value in seen
    ensures !Rooted(parent, x)
  {
    hide Climb;
    var i: nat :| i < k && Climb(parent, x, i) == Some(Climb(parent, x, k).value);
    forall n: nat ensures Climb(parent, x, n) != None {
      Repeats(parent, x, i, k, n);
    }
  }

  lemma WalkDecides(parent: Parents, x: string)
    ensures Meets(parent, Up(parent, Some(x)), {x}) <==> !Rooted(parent, x)
  {
    assert Climb(parent, x, 0) == Some(x) && Climb(parent, x, 1) == Up(parent, Some(x));
    assert SeenUpTo(parent, x, 1, {x});
    MeetsIs(parent, x, 1, {x});
  }

  // ---------------------------------------------------------------- the cut pass

  /** The chain of a package, itself excepted, passes through one of these. */
  ghost predicate Passes(parent: Parents, x: string, some: seq<string>) {
    exists n: nat :: Climb(parent, x, n).Some? && Climb(parent, x, n).value in some
  }

  /** A package is cut when its chain does not end and no package before it in the ledger is on that chain. */
  ghost predicate Cut(parent: Parents, items: seq<string>, i: nat)
    requires i < |items|
  {
    !Rooted(parent, items[i]) && !Passes(parent, items[i], items[..i])
  }

  /** The parents once the first k items have been looked at. */
  ghost predicate After(parent: Parents, items: seq<string>, k: nat, now: Parents) {
    && k <= |items| && now.Keys == parent.Keys
    && (forall i :: 0 <= i < k ==> items[i] in parent && now[items[i]] == if Cut(parent, items, i) then None else parent[items[i]])
    && (forall x :: x in parent && x !in items[..k] ==> now[x] == parent[x])
  }

  ghost predicate Whole(parent: Parents, items: seq<string>) {
    Distinct(items) && forall x :: x in items <==> x in parent
  }

  /** The cut pass */
  method CutCycles(items: seq<string>, parent: Parents) returns (now: Parents)
    requires Whole(parent, items)
    ensures After(parent, items, |items|, now)
    ensures forall x :: x in items ==> Rooted(now, x)
  {
    now := parent;
    var k := 0;
    while k < |items|
      invariant k <= |items| && After(parent, items, k, now)
      invariant forall i :: 0 <= i < k ==> Rooted(now, items[i])
    {
      var cut := Walk(now, items[k]);
      ghost var was := now;
      if cut {
        now := now[items[k] := None];
      }
      NextItem(parent, items, k, was, now);
      k := k + 1;
    }
  }

  /** The inner loop: up the chain with the set of packages seen. */
  method Walk(parent: Parents, x: string) returns (cut: bool)
    ensures cut <==> !Rooted(parent, x)
  {
    WalkDecides(parent, x);
    var seen := {x};
    var at := Up(parent, Some(x));
    while at.Some?
      invariant Meets(parent, at, seen) == Meets(parent, Up(parent, Some(x)), {x})
      decreases |parent.Keys - seen|, if at.Some? then 1 else 0
    {
      if at.value in seen {
        return true;
      }
      WalkShrinks(parent, seen, at.value);
      seen := seen + {at.value};
      at := Up(parent, at);
    }
    cut := false;
  }

  /** Fewer parents: the chains can only get shorter. */
  ghost predicate Fewer(parent: Parents, now: Parents) {
    now.Keys == parent.Keys && forall x :: x in parent ==> now[x] == parent[x] || now[x] == None
  }

  lemma {:induction false} ShorterChain(parent: Parents, now: Parents, x: string, n: nat)
    requires Fewer(parent, now)
    ensures Climb(now, x, n) == Climb(parent, x, n) || Climb(now, x, n) == None
  {
    if n > 0 {
      ShorterChain(parent, now, x, n - 1);
    }
  }

  lemma StillRooted(parent: Parents, now: Parents, x: string)
    requires Fewer(parent, now) && Rooted(parent, x)
    ensures Rooted(now, x)
  {
    var n: nat :| Climb(parent, x, n) == None;
    ShorterChain(parent, now, x, n);
    assert Climb(now, x, n) == None;
  }

  /** On a chain that does not end in the thinned map nothing was cut. */
  lemma SameChain(parent: Parents, now: Parents, x: string, n: nat)
    requires Fewer(parent, now) && !Rooted(now, x)
    ensures Climb(now, x, n) == Climb(parent, x, n)
  {
    ShorterChain(parent, now, x, n);
    assert Climb(now, x, n) != None;
  }

  lemma RootedAbove(parent: Parents, x: string, n: nat, y: string)
    requires Climb(parent, x, n) == Some(y) && Rooted(parent, y)
    ensures Rooted(parent, x)
  {
    var k: nat :| Climb(parent, y, k) == None;
    ClimbOn(parent, x, n, y, k);
    assert Climb(parent, x, n + k) == None;
  }

  lemma Untouched(parent: Parents, items: seq<string>, k: nat, now: Parents, x: string)
    requires After(parent, items, k, now) && x !in items[..k]
    ensures Up(now, Some(x)) == Up(parent, Some(x))
  {
    hide Cut;
  }

  lemma NotPassed(parent: Parents, x: string, some: seq<string>, n: nat)
    requires !Passes(parent, x, some)
    ensures Climb(parent, x, n).Some? ==> Climb(parent, x, n).value !in some
  {
    hide Climb;
  }

  /** Untouched packages only: the chain is as it was. */
  lemma {:induction false} UntouchedChain(parent: Parents, items: seq<string>, k: nat, now: Parents, x: string, n: nat)
    requires k <= |items| && After(parent, items, k, now) && !Passes(parent, x, items[..k])
    ensures Climb(now, x, n) == Climb(parent, x, n)
  {
    hide After, Passes;
    if n > 0 {
      UntouchedChain(parent, items, k, now, x, n - 1);
      NotPassed(parent, x, items[..k], n - 1);
      var at := Climb(parent, x, n - 1);
      if at.Some? {
        Untouched(parent, items, k, now, at.value);
      }
    }
  }

  lemma AfterFewer(parent: Parents, items: seq<string>, k: nat, now: Parents)
    requires Whole(parent, items) && After(parent, items, k, now)
    ensures Fewer(parent, now)
  {
    forall x | x in parent ensures now[x] == parent[x] || now[x] == None {
      if x in items[..k] {
        var i :| 0 <= i < k && items[i] == x;
      }
    }
  }

  /** The item at hand is cut exactly when the walk never ends. */
  lemma CutNow(parent: Parents, items: seq<string>, k: nat, was: Parents)
    requires Whole(parent, items) && k < |items| && After(parent, items, k, was)
    requires forall i :: 0 <= i < k ==> Rooted(was, items[i])
    ensures Cut(parent, items, k) <==> !Rooted(was, items[k])
  {
    var x := items[k];
    AfterFewer(parent, items, k, was);
    if Cut(parent, items, k) {
      if Rooted(was, x) {
        var n: nat :| Climb(was, x, n) == None;
        UntouchedChain(parent, items, k, was, x, n);
        assert Rooted(parent, x);
      }
    } else if Rooted(parent, x) {
      StillRooted(parent, was, x);
    } else {
      var n: nat :| Climb(parent, x, n).Some? && Climb(parent, x, n).value in items[..k];
      if !Rooted(was, x) {
        SameChain(parent, was, x, n);
        RootedAbove(was, x, n, Climb(was, x, n).value);
      }
    }
  }

  lemma NextItem(parent: Parents, items: seq<string>, k: nat, was: Parents, now: Parents)
    requires Whole(parent, items) && k < |items| && After(parent, items, k, was)
    requires forall i :: 0 <= i < k ==> Rooted(was, items[i])
    requires now == if Rooted(was, items[k]) then was else was[items[k] := None]
    ensures After(parent, items, k + 1, now)
    ensures forall i :: 0 <= i <= k ==> Rooted(now, items[i])
  {
    CutNow(parent, items, k, was);
    AfterNext(parent, items, k, was, now);
    assert Fewer(was, now);
    hide After, Cut, Rooted, Climb;
    forall i | 0 <= i <= k ensures Rooted(now, items[i]) {
      if i < k || Rooted(was, items[k]) {
        StillRooted(was, now, items[i]);
      } else {
        NoParent(now, items[k]);
      }
    }
  }

  lemma NoParent(parent: Parents, x: string)
    requires Up(parent, Some(x)) == None
    ensures Rooted(parent, x)
  {
    assert Climb(parent, x, 0) == Some(x);
    assert Climb(parent, x, 1) == None;
  }

  lemma AfterNext(parent: Parents, items: seq<string>, k: nat, was: Parents, now: Parents)
    requires Whole(parent, items) && k < |items| && After(parent, items, k, was)
    requires now == if Cut(parent, items, k) then was[items[k] := None] else was
    ensures After(parent, items, k + 1, now)
  {
    hide Cut;
    assert items[..k + 1] == items[..k] + [items[k]];
    assert items[k] !in items[..k];
  }

  /** After the pass every chain ends; a package whose chain ended before keeps its parent, and one whose
      chain did not loses it exactly when it comes first, in the ledger, of the packages on its chain. */
  lemma CutSpec(parent: Parents, items: seq<string>, now: Parents, i: nat)
    requires Whole(parent, items) && After(parent, items, |items|, now) && i < |items|
    ensures Rooted(parent, items[i]) ==> now[items[i]] == parent[items[i]]
    ensures now[items[i]] != parent[items[i]] <==> Cut(parent, items, i)
  {
    hide Climb, Rooted, Passes;
    if parent[items[i]] == None {
      NoParent(parent, items[i]);
    }
  }

  /** A package that merely hangs below a cycle can be cut, though its chain never comes back to it: "x"
      below the cycle of "a" and "b", standing before them in the ledger. */
  lemma CutBelowCycle(now: Parents)
    requires After(map["x" := Some("a"), "a" := Some("b"), "b" := Some("a")], ["x", "a", "b"], 3, now)
    ensures now["x"] == None
    ensures forall n: nat :: n > 0 ==> Climb(map["x" := Some("a"), "a" := Some("b"), "b" := Some("a")], "x", n) != Some("x")
  {
    var parent := map["x" := Some("a"), "a" := Some("b"), "b" := Some("a")];
    var items := ["x", "a", "b"];
    forall n: nat ensures Climb(parent, "x", n).Some? && (n > 0 ==> Climb(parent, "x", n) != Some("x")) {
      RoundAndRound(parent, n);
    }
    assert items[..0] == [];
    assert !Passes(parent, "x", items[..0]);
    assert Cut(parent, items, 0);
  }

  lemma {:induction false} RoundAndRound(parent: Parents, n: nat)
    requires parent == map["x" := Some("a"), "a" := Some("b"), "b" := Some("a")]
    ensures Climb(parent, "x", n).Some?
    ensures n > 0 ==> Climb(parent, "x", n).value in {"a", "b"}
  {
    if n > 0 {
      RoundAndRound(parent, n - 1);
    }
  }

  /** The parents as the grants alone give them. */
  function Derived(items: seq<string>, grants: seq<Grant>, modes: map<string, Mode>): Parents {
    map x | x in items :: ParentOf(grants, (set y | y in items), modes, x)
  }

  /** The sidebar's parents, from the ledger to the forest. */
  method Place(items: seq<string>, grants: seq<Grant>, modes: map<string, Mode>) returns (now: Parents)
    requires Distinct(items)
    ensures now.Keys == (set x | x in items)
    ensures forall x :: x in items ==> Rooted(now, x)
    ensures After(Derived(items, grants, modes), items, |items|, now)
  {
    var installed := set x | x in items;
    var mounts := CollectMounts(grants, installed);
    var parent: Parents := map[];
    var i := 0;
    while i < |items|
      invariant i <= |items|
      invariant parent == map x | x in items[..i] :: ParentOf(grants, installed, modes, x)
    {
      var list := Listed(mounts, items[i]);
      var p := if (items[i] in modes && modes[items[i]] == Always) || list == [] then None else Some(list[0]);
      parent := parent[items[i] := p];
      i := i + 1;
    }
    assert items[..i] == items;
    assert parent == Derived(items, grants, modes);
    now := CutCycles(items, parent);
  }

  /** The first grant by which an installed package mounts this one in its screens */
  predicate FirstHub(items: seq<string>, grants: seq<Grant>, x: string, i: nat) {
    && i < |grants| && Hub(items, grants[i], x) && forall j :: 0 <= j < i ==> !Hub(items, grants[j], x)
  }

  predicate Hub(items: seq<string>, g: Grant, x: string) {
    g.components && g.provider == x && g.consumer in items
  }

  /** Before the pass a package stands at the top exactly when its mode is always, or no installed package
      mounts it; else below the consumer of the first such grant in the ledger. */
  lemma PlaceBefore(items: seq<string>, grants: seq<Grant>, modes: map<string, Mode>, x: string)
    requires x in items
    ensures var parent := Derived(items, grants, modes); var always := x in modes && modes[x] == Always;
      && x in parent
      && (parent[x] == None <==> always || forall i :: 0 <= i < |grants| ==> !Hub(items, grants[i], x))
      && (parent[x].Some? ==> exists i: nat :: FirstHub(items, grants, x, i) && parent[x] == Some(grants[i].consumer))
  {
    var installed := set y | y in items;
    var list := MountedIn(grants, installed, x);
    MountedInIs(grants, installed, x);
    if list != [] {
      var i: nat :| i < |grants| && FirstFor(grants, installed, x, i) && grants[i].consumer == list[0];
      assert FirstHub(items, grants, x, i);
    } else {
      forall i | 0 <= i < |grants| && grants[i].components && grants[i].provider == x ensures grants[i].consumer !in items {
        assert grants[i] == Grant(grants[i].consumer, x, true);
      }
    }
  }
}
