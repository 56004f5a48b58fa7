/** Whole ustar images: what the reader makes of what the writer wrote, for any list of entries. The order of
    the entries, and the round trip with its exact condition. */
module UstarImages {
  import opened Bytes
  import opened Ustar

  // ---------------------------------------------------------------- the round trip

  /** What the reader keeps of an entry: path, contents, and one of two modes. */
  function KeptEntry(e: Entry): Entry {
    Entry(e.rel, e.content, KeptMode(Int(e.mode)))
  }

  function Kept(es: seq<Entry>): (k: seq<Entry>)
    ensures |k| == |es| && forall i :: 0 <= i < |es| ==> k[i] == KeptEntry(es[i])
  {
    seq(|es|, i requires 0 <= i < |es| => KeptEntry(es[i]))
  }

  ghost predicate AllWritable(es: seq<Entry>) {
    forall i :: 0 <= i < |es| ==> Writable(es[i])
  }

  lemma CeilPads(n: nat)
    ensures Ceil(n) == n + Padding(n)
  {
  }

  /** An offset of an image where the block of an entry begins. */
  ghost predicate Stands(tar: seq<byte>, off: nat, e: Entry) {
    Writable(e) && off <= |tar| && Block(e) <= tar[off..]
  }

  /** Where the parts of the entry lie. */
  lemma BlockIn(tar: seq<byte>, off: nat, e: Entry)
    requires Stands(tar, off, e)
    ensures var data := off + BLOCK; var next := data + Ceil(|e.content|);
      && next <= |tar|
      && tar[off..data] == Header(SplitPath(e.rel).value, |e.content|, e.mode)
      && tar[data..data + |e.content|] == e.content
  {
    CeilPads(|e.content|);
    var a, b, c := Header(SplitPath(e.rel).value, |e.content|, e.mode), e.content, Zeros(Padding(|e.content|));
    assert Block(e) == a + b + c;
    hide *;
    Parts(tar, off, a, b, c);
  }

  lemma Parts<T>(t: seq<T>, off: nat, a: seq<T>, b: seq<T>, c: seq<T>)
    requires off <= |t| && a + b + c <= t[off..]
    ensures var i := off + |a|; var j := i + |b|;
      j + |c| <= |t| && t[off..i] == a && t[i..j] == b
  {
    Part(t, off, a + b, c);
    Part(t, off, a, b);
  }

  lemma Part<T>(t: seq<T>, off: nat, a: seq<T>, b: seq<T>)
    requires off <= |t| && a + b <= t[off..]
    ensures var i := off + |a|; var j := i + |b|;
      j <= |t| && t[off..i] == a && t[i..j] == b && a <= t[off..]
  {
    var s := t[off..];
    assert a == (a + b)[..|a|] == s[..|a|] == t[off..off + |a|];
    assert b == (a + b)[|a|..] == s[|a|..|a| + |b|] == t[off + |a|..off + |a| + |b|];
  }

  /** Reading entries one by one, up to the first whose path may not be written. */
  function ReadAll(written: seq<Entry>, es: seq<Entry>): Result<seq<Entry>>
    decreases |es|
  {
    if es == [] then if written == [] then Err(Empty) else Ok(written)
    else if !LegalPath(es[0].rel) then Err(Escape(es[0].rel))
    else ReadAll(written + [KeptEntry(es[0])], es[1..])
  }

  /** Everything the readers ask of the block they stand on. */
  lemma StandsReads(tar: seq<byte>, off: nat, e: Entry)
    requires Stands(tar, off, e)
    ensures var n := |e.content|; var data := off + BLOCK;
      && |e.content| <= MAX_ENTRY
      && data + Ceil(n) <= |tar| && Data(tar, off, n) == e.content
      && var h := Head(tar, off);
      && !AllZero(h)
      && ParseOctal(h, 148, 8) == Int(Sum(Blanked(h)))
      && h[156] == ZERO
      && Rel(h) == e.rel
      && ParseOctal(h, 124, 12) == Int(n)
      && ParseOctal(h, 100, 8) == Int(e.mode)
  {
    BlockIn(tar, off, e);
    HeaderReads(e);
    CeilPads(|e.content|);
    hide Block, Header, ParseOctal, Rel, Blanked, Sum, SplitPath, Ceil;
  }

  /** The reader, standing on one entry of an image, finds that entry. */
  lemma LookOne(tar: seq<byte>, off: nat, e: Entry, total: nat)
    requires Stands(tar, off, e) && total + |e.content| <= MAX_TOTAL
    ensures Look(tar, off, total) == if LegalPath(e.rel) then File(KeptEntry(e), |e.content|) else Bad(Escape(e.rel))
  {
    hide *;
    StandsReads(tar, off, e);
    LookStep(tar, off, total, e);
  }

  lemma LookStep(tar: seq<byte>, off: nat, total: nat, e: Entry)
    requires off + BLOCK <= |tar| && Data(tar, off, |e.content|) == e.content
    requires |e.content| <= MAX_ENTRY && total + |e.content| <= MAX_TOTAL
    requires var h := Head(tar, off);
      && !AllZero(h) && ParseOctal(h, 148, 8) == Int(Sum(Blanked(h))) && h[156] == ZERO && Rel(h) == e.rel
      && ParseOctal(h, 124, 12) == Int(|e.content|) && ParseOctal(h, 100, 8) == Int(e.mode)
    ensures Look(tar, off, total) == if LegalPath(e.rel) then File(KeptEntry(e), |e.content|) else Bad(Escape(e.rel))
  {
    hide Head, Data, AllZero, ParseOctal, Rel, Blanked, Sum, LegalPath, KeptMode;
  }

  lemma UnpackOne(tar: seq<byte>, off: nat, e: Entry, total: nat, written: seq<Entry>)
    requires Stands(tar, off, e) && total + |e.content| <= MAX_TOTAL
    ensures UnpackFrom(tar, off, total, written)
      == if LegalPath(e.rel)
         then UnpackFrom(tar, off + BLOCK + Ceil(|e.content|), total + |e.content|, written + [KeptEntry(e)])
         else Err(Escape(e.rel))
  {
    hide Stands, Look, LegalPath, KeptEntry, Ceil;
    LookOne(tar, off, e, total);
  }

  lemma UnpackEnd(tar: seq<byte>, off: nat, total: nat, written: seq<Entry>)
    requires off <= |tar| && tar[off..] == Zeros(2 * BLOCK)
    ensures UnpackFrom(tar, off, total, written) == ReadAll(written, [])
    ensures forall names :: ListFrom(tar, off, names) == Ok(names)
  {
    assert Head(tar, off) == tar[off..][..BLOCK];
  }

  lemma ListOne(tar: seq<byte>, off: nat, e: Entry, names: seq<seq<byte>>)
    requires Stands(tar, off, e)
    ensures ListFrom(tar, off, names) == ListFrom(tar, off + BLOCK + Ceil(|e.content|), names + [e.rel])
  {
    hide *;
    StandsReads(tar, off, e);
    ListStep(tar, off, |e.content|, names);
  }

  lemma ListStep(tar: seq<byte>, off: nat, size: nat, names: seq<seq<byte>>)
    requires off + BLOCK <= |tar| && !AllZero(Head(tar, off)) && ParseOctal(Head(tar, off), 124, 12) == Int(size)
    ensures ListFrom(tar, off, names) == ListFrom(tar, off + BLOCK + Ceil(size), names + [Rel(Head(tar, off))])
  {
    hide Head, AllZero, ParseOctal, Rel, Ceil;
  }

  /** An image that goes on with the blocks of some entries and ends with the marker. */
  ghost predicate At(tar: seq<byte>, off: nat, es: seq<Entry>) {
    AllWritable(es) && off <= |tar| && tar[off..] == Blocks(es) + Zeros(2 * BLOCK)
  }

  lemma AtNext(tar: seq<byte>, off: nat, es: seq<Entry>)
    requires At(tar, off, es) && es != []
    ensures Stands(tar, off, es[0]) && At(tar, off + BLOCK + Ceil(|es[0].content|), es[1..])
  {
    hide *;
    AtFirst(tar, off, es);
    CeilPads(|es[0].content|);
    TwoParts(tar, off, Block(es[0]), Blocks(es[1..]), Zeros(2 * BLOCK));
    AtClose(tar, off, off + BLOCK + Ceil(|es[0].content|), es);
  }

  lemma AtClose(tar: seq<byte>, off: nat, next: nat, es: seq<Entry>)
    requires es != [] && Writable(es[0]) && AllWritable(es[1..])
    requires off <= |tar| && next <= |tar| && Block(es[0]) <= tar[off..] && tar[next..] == Blocks(es[1..]) + Zeros(2 * BLOCK)
    ensures Stands(tar, off, es[0]) && At(tar, next, es[1..])
  {
    hide Block, Blocks, Zeros, SplitPath;
  }

  lemma AtFirst(tar: seq<byte>, off: nat, es: seq<Entry>)
    requires At(tar, off, es) && es != []
    ensures off <= |tar| && Writable(es[0]) && Accepts(es[0]) && AllWritable(es[1..])
    ensures forall i :: 0 <= i < |es[1..]| ==> Accepts(es[1..][i])
    ensures tar[off..] == Block(es[0]) + Blocks(es[1..]) + Zeros(2 * BLOCK)
  {
    hide Block, Zeros, SplitPath;
    assert AllWritable(es[1..]);
  }

  lemma TwoParts<T>(t: seq<T>, off: nat, a: seq<T>, b: seq<T>, c: seq<T>)
    requires off <= |t| && t[off..] == a + b + c
    ensures a <= t[off..] && off + |a| <= |t| && t[off + |a|..] == b + c
  {
    assert a + b + c == a + (b + c);
    assert t[off..][|a|..] == b + c;
  }

  /** The contents alone. */
  function ContentSize(es: seq<Entry>): nat {
    if es == [] then 0 else |es[0].content| + ContentSize(es[1..])
  }

  lemma {:induction false} ContentsFit(es: seq<Entry>)
    requires AllWritable(es)
    ensures ContentSize(es) <= |Blocks(es)|
  {
    if es != [] {
      assert AllWritable(es[1..]);
      ContentsFit(es[1..]);
    }
  }

  /** At the end marker both readers stop. */
  lemma AtEnd(tar: seq<byte>, off: nat, total: nat, written: seq<Entry>, names: seq<seq<byte>>)
    requires At(tar, off, [])
    ensures UnpackFrom(tar, off, total, written) == ReadAll(written, [])
    ensures ListFrom(tar, off, names) == Ok(names)
  {
    UnpackEnd(tar, off, total, written);
  }

  /** On an entry both readers take it and stand on the next. */
  lemma AtEntry(tar: seq<byte>, off: nat, es: seq<Entry>, total: nat, written: seq<Entry>, names: seq<seq<byte>>)
    requires At(tar, off, es) && es != []
    ensures var next := off + BLOCK + Ceil(|es[0].content|);
      && At(tar, next, es[1..])
      && ListFrom(tar, off, names) == ListFrom(tar, next, names + [es[0].rel])
      && (total + |es[0].content| <= MAX_TOTAL ==>
            UnpackFrom(tar, off, total, written)
              == if LegalPath(es[0].rel) then UnpackFrom(tar, next, total + |es[0].content|, written + [KeptEntry(es[0])])
                 else Err(Escape(es[0].rel)))
  {
    hide *;
    AtNext(tar, off, es);
    ListOne(tar, off, es[0], names);
    if total + |es[0].content| <= MAX_TOTAL {
      UnpackOne(tar, off, es[0], total, written);
    }
  }

  lemma {:induction false} UnpackRest(tar: seq<byte>, off: nat, es: seq<Entry>, total: nat, written: seq<Entry>)
    requires At(tar, off, es) && total + ContentSize(es) <= MAX_TOTAL
    ensures UnpackFrom(tar, off, total, written) == ReadAll(written, es)
    decreases |es|
  {
    hide At, UnpackFrom, ListFrom, Ceil, LegalPath;
    if es == [] {
      AtEnd(tar, off, total, written, []);
    } else {
      AtEntry(tar, off, es, total, written, []);
      if LegalPath(es[0].rel) {
        UnpackRest(tar, off + BLOCK + Ceil(|es[0].content|), es[1..], total + |es[0].content|, written + [KeptEntry(es[0])]);
      }
    }
  }

  lemma {:induction false} ReadAllIs(written: seq<Entry>, es: seq<Entry>)
    ensures ReadAll(written, es).Ok? <==> written + es != [] && forall i :: 0 <= i < |es| ==> LegalPath(es[i].rel)
    ensures ReadAll(written, es).Ok? ==> ReadAll(written, es).value == written + Kept(es)
    decreases |es|
  {
    hide LegalPath;
    KeptMore(written, es);
    if es != [] && LegalPath(es[0].rel) {
      hide KeptEntry, Kept;
      ReadAllIs(written + [KeptEntry(es[0])], es[1..]);
      assert forall i :: 0 < i < |es| ==> es[i] == es[1..][i - 1];
    }
  }

  lemma KeptMore(written: seq<Entry>, es: seq<Entry>)
    ensures es == [] ==> written + Kept(es) == written
    ensures es != [] ==> written + [KeptEntry(es[0])] + Kept(es[1..]) == written + Kept(es)
  {
  }

  /** Reading back a written image: every entry in order with its contents and its executable bit,
      exactly when the image is within the limit, not empty, and every path is one the reader writes. */
  lemma UnpackImage(es: seq<Entry>)
    requires AllWritable(es)
    ensures var tar := Blocks(es) + Zeros(2 * BLOCK); var r := Unpack(tar);
      && (r.Ok? <==> es != [] && |tar| <= MAX_TOTAL && forall i :: 0 <= i < |es| ==> LegalPath(es[i].rel))
      && (r.Ok? ==> r.value == Kept(es))
      && (|tar| <= MAX_TOTAL ==> r == ReadAll([], es))
  {
    var tar := Blocks(es) + Zeros(2 * BLOCK);
    ReadAllIs([], es);
    assert [] + Kept(es) == Kept(es) && [] + es == es;
    assert tar[0..] == tar;
    assert At(tar, 0, es);
    ContentsFit(es);
    hide UnpackFrom, ReadAll, Blocks, LegalPath, Writable;
    if |tar| <= MAX_TOTAL {
      UnpackRest(tar, 0, es, 0, []);
    }
  }

  function Rels(es: seq<Entry>): (r: seq<seq<byte>>)
    ensures |r| == |es| && forall i :: 0 <= i < |es| ==> r[i] == es[i].rel
  {
    seq(|es|, i requires 0 <= i < |es| => es[i].rel)
  }

  lemma {:induction false} ListRest(tar: seq<byte>, off: nat, es: seq<Entry>, names: seq<seq<byte>>)
    requires At(tar, off, es)
    ensures ListFrom(tar, off, names) == Ok(names + Rels(es))
    decreases |es|
  {
    RelsMore(names, es);
    hide *;
    if es == [] {
      AtEnd(tar, off, 0, [], names);
    } else {
      AtEntry(tar, off, es, 0, [], names);
      ListRest(tar, off + BLOCK + Ceil(|es[0].content|), es[1..], names + [es[0].rel]);
    }
  }

  lemma RelsMore(names: seq<seq<byte>>, es: seq<Entry>)
    ensures es == [] ==> names + Rels(es) == names
    ensures es != [] ==> names + [es[0].rel] + Rels(es[1..]) == names + Rels(es)
  {
  }

  /** Listing an image gives the very paths, in order, that unpacking it writes. */
  lemma ListAgrees(es: seq<Entry>)
    requires AllWritable(es)
    ensures var tar := Blocks(es) + Zeros(2 * BLOCK);
      && (|tar| <= MAX_TOTAL ==> List(tar) == Ok(Rels(es)))
      && (Unpack(tar).Ok? ==> List(tar) == Ok(Rels(Unpack(tar).value)))
  {
    var tar := Blocks(es) + Zeros(2 * BLOCK);
    assert tar[0..] == tar;
    ListRest(tar, 0, es, []);
    UnpackImage(es);
    assert [] + Rels(es) == Rels(es) == Rels(Kept(es));
  }

  // ---------------------------------------------------------------- order

  lemma {:induction false} LeTotal(a: seq<byte>, b: seq<byte>)
    ensures Le(a, b) || Le(b, a)
    ensures Le(a, b) && Le(b, a) ==> a == b
  {
    if a != [] && b != [] {
      LeTotal(a[1..], b[1..]);
      assert a == [a[0]] + a[1..] && b == [b[0]] + b[1..];
    }
  }

  lemma {:induction false} LeTransitive(a: seq<byte>, b: seq<byte>, c: seq<byte>)
    requires Le(a, b) && Le(b, c)
    ensures Le(a, c)
  {
    if a != [] && b != [] && c != [] && a[0] == b[0] == c[0] {
      LeTransitive(a[1..], b[1..], c[1..]);
    }
  }

  ghost predicate Sorted(es: seq<Entry>) {
    forall i, j :: 0 <= i < j < |es| ==> Le(es[i].rel, es[j].rel)
  }

  lemma {:induction false} InsertSorted(e: Entry, es: seq<Entry>)
    requires Sorted(es)
    ensures Sorted(Insert(e, es)) && multiset(Insert(e, es)) == multiset{e} + multiset(es)
  {
    if es == [] {
    } else if Le(e.rel, es[0].rel) {
      forall j | 0 <= j < |es| ensures Le(e.rel, es[j].rel) {
        if j > 0 { LeTransitive(e.rel, es[0].rel, es[j].rel); }
      }
    } else {
      LeTotal(e.rel, es[0].rel);
      assert es == [es[0]] + es[1..];
      InsertSorted(e, es[1..]);
      forall x | x in Insert(e, es[1..]) ensures Le(es[0].rel, x.rel) {
        assert x in multiset(Insert(e, es[1..]));
        assert x == e || x in es[1..];
      }
    }
  }

  lemma {:induction false} SortSorts(es: seq<Entry>)
    ensures Sorted(Sort(es)) && multiset(Sort(es)) == multiset(es)
  {
    if es != [] {
      SortSorts(es[1..]);
      InsertSorted(es[0], Sort(es[1..]));
      assert es == [es[0]] + es[1..];
    }
  }

  ghost predicate DistinctPaths(es: seq<Entry>) {
    forall i, j :: 0 <= i < j < |es| ==> es[i].rel != es[j].rel
  }

  lemma LeastFirst(a: seq<Entry>, b: seq<Entry>)
    requires a != [] && b != [] && Sorted(a) && Sorted(b) && DistinctPaths(a)
    requires a[0] in b && b[0] in a
    ensures a[0] == b[0]
  {
    var i :| 0 <= i < |b| && b[i] == a[0];
    var j :| 0 <= j < |a| && a[j] == b[0];
    LeTotal(a[0].rel, b[0].rel);
    assert i == 0 || Le(b[0].rel, b[i].rel);
    if j != 0 {
      assert a[0].rel != a[j].rel;
    }
  }

  lemma TailMembers<T>(a: seq<T>)
    requires a != []
    ensures a == [a[0]] + a[1..] && multiset(a[1..]) == multiset(a) - multiset{a[0]}
  {
  }

  lemma {:induction false} SortedUnique(a: seq<Entry>, b: seq<Entry>)
    requires Sorted(a) && Sorted(b) && multiset(a) == multiset(b) && DistinctPaths(a)
    ensures a == b
  {
    assert |a| == |multiset(a)| == |multiset(b)| == |b|;
    if a != [] {
      assert a[0] in multiset(b) && b[0] in multiset(a);
      LeastFirst(a, b);
      TailMembers(a);
      TailMembers(b);
      SortedUnique(a[1..], b[1..]);
    }
  }

  /** The same entries in any order give the same bytes. */
  lemma PackDeterministic(a: seq<Entry>, b: seq<Entry>)
    requires multiset(a) == multiset(b) && DistinctPaths(a)
    ensures Image(Sort(a)) == Image(Sort(b))
  {
    SortSorts(a);
    SortSorts(b);
    DistinctSame(a, Sort(a));
    SortedUnique(Sort(a), Sort(b));
  }

  lemma {:induction false} DistinctSame(a: seq<Entry>, b: seq<Entry>)
    requires multiset(a) == multiset(b) && DistinctPaths(a)
    ensures DistinctPaths(b)
  {
    forall i, j | 0 <= i < j < |b| ensures b[i].rel != b[j].rel {
      if b[i].rel == b[j].rel {
        assert b[i] in multiset(a) && b[j] in multiset(a);
        assert b[i] == b[j];
        Twice(b, i, j);
        DistinctOnce(a, b[i]);
      }
    }
  }

  lemma Twice(b: seq<Entry>, i: nat, j: nat)
    requires i < j < |b| && b[i] == b[j]
    ensures multiset(b)[b[i]] >= 2
  {
    assert b == b[..j] + b[j..];
    assert b[i] in b[..j] && b[j] in b[j..];
  }

  lemma {:induction false} DistinctOnce(a: seq<Entry>, e: Entry)
    requires DistinctPaths(a)
    ensures multiset(a)[e] <= 1
  {
    if a != [] {
      assert a == [a[0]] + a[1..];
      DistinctOnce(a[1..], e);
      assert a[0] !in a[1..];
    }
  }

  /** packEntries then unpackArtifact: the entries in path order. */
  lemma RoundTrip(es: seq<Entry>)
    requires AllWritable(es)
    ensures var r := Image(Sort(es));
      && r.Ok?
      && (Unpack(r.value).Ok? <==> es != [] && |r.value| <= MAX_TOTAL && forall e :: e in es ==> LegalPath(e.rel))
      && (Unpack(r.value).Ok? ==> Unpack(r.value).value == Kept(Sort(es)))
      && Sorted(Sort(es)) && multiset(Sort(es)) == multiset(es)
  {
    SortSorts(es);
    SortMembers(es);
    SortWritable(es);
    UnpackImage(Sort(es));
    LegalEither(es, Sort(es));
    hide *;
  }

  lemma SortMembers(es: seq<Entry>)
    ensures (forall e :: e in Sort(es) <==> e in es) && (Sort(es) == [] <==> es == [])
  {
    SortSorts(es);
    hide Sort;
    assert forall e :: e in Sort(es) <==> e in multiset(Sort(es));
    assert |multiset(Sort(es))| == |Sort(es)| && |multiset(es)| == |es|;
  }

  lemma SortWritable(es: seq<Entry>)
    requires AllWritable(es)
    ensures AllWritable(Sort(es)) && Image(Sort(es)).Ok? && Image(Sort(es)).value == Blocks(Sort(es)) + Zeros(2 * BLOCK)
  {
    SortMembers(es);
    forall i | 0 <= i < |Sort(es)| ensures Writable(Sort(es)[i]) {
      assert Sort(es)[i] in es;
    }
  }

  lemma LegalEither(a: seq<Entry>, b: seq<Entry>)
    requires forall e :: e in b <==> e in a
    ensures (forall i :: 0 <= i < |b| ==> LegalPath(b[i].rel)) <==> forall e :: e in a ==> LegalPath(e.rel)
  {
    hide LegalPath;
    if forall i :: 0 <= i < |b| ==> LegalPath(b[i].rel) {
      forall e | e in a ensures LegalPath(e.rel) { assert e in b; }
    }
  }
}
