/** What any image can make the reader write, what becomes of each entry, and what the reader makes of
    images that somebody meddled with. */
module UstarEntries {
  import opened Bytes
  import opened Ustar
  import opened UstarImages

  // ---------------------------------------------------------------- modes

  /** One of the three digits of the permissions has its execute bit. */
  predicate Executable(mode: nat) {
    mode % 8 % 2 == 1 || mode / 8 % 8 % 2 == 1 || mode / 64 % 8 % 2 == 1
  }

  /** What the reader writes of a packed entry: 0755 if anybody may execute it, 0644 otherwise. */
  predicate WrittenAs(e: Entry, w: Entry) {
    w.rel == e.rel && w.content == e.content && w.mode == if Executable(e.mode) then 493 else 420
  }

  /** Entries come back in path order, each with its path, contents and execute permission; and unchanged
      if they had one of the two modes. */
  lemma ModesKept(es: seq<Entry>)
    requires AllWritable(es)
    ensures var image := Image(Sort(es));
      image.Ok? && (Unpack(image.value).Ok? ==>
        var r := Unpack(image.value).value;
        && AllWrittenAs(Sort(es), r)
        && ((forall e :: e in es ==> e.mode == 420 || e.mode == 493) ==> r == Sort(es)))
  {
    RoundTrip(es);
    SortMembers(es);
    KeptWritten(Sort(es));
    hide *;
    if forall e :: e in es ==> e.mode == 420 || e.mode == 493 {
      SameModes(Sort(es), Kept(Sort(es)));
    }
  }

  ghost predicate AllWrittenAs(es: seq<Entry>, r: seq<Entry>) {
    |r| == |es| && forall i :: 0 <= i < |r| ==> WrittenAs(es[i], r[i])
  }

  lemma KeptWritten(es: seq<Entry>)
    ensures AllWrittenAs(es, Kept(es))
  {
    forall i | 0 <= i < |es| ensures WrittenAs(es[i], Kept(es)[i]) {
      ModeIs(es[i].mode);
    }
  }

  lemma SameModes(es: seq<Entry>, r: seq<Entry>)
    requires AllWrittenAs(es, r) && forall e :: e in es ==> e.mode == 420 || e.mode == 493
    ensures r == es
  {
    forall i | 0 <= i < |r| ensures r[i] == es[i] {
      assert WrittenAs(es[i], r[i]) && es[i] in es;
    }
  }

  lemma ModeIs(mode: nat)
    ensures KeptMode(Int(mode)) == if Executable(mode) then 493 else 420
  {
    EvenOdd(mode);
    EvenOdd(mode / 8);
    EvenOdd(mode / 64);
  }

  lemma EvenOdd(n: nat)
    ensures n % 8 % 2 == n % 2
  {
  }

  // ---------------------------------------------------------------- order

  /** One path is a beginning of the other, or has the lower octet where they first differ. */
  ghost predicate Before(a: seq<byte>, b: seq<byte>) {
    a <= b || exists i :: 0 <= i < |a| && i < |b| && a[..i] == b[..i] && a[i] < b[i]
  }

  lemma BeforeMore(a: seq<byte>, b: seq<byte>)
    requires a != [] && b != []
    ensures Before(a, b) <==> a[0] < b[0] || (a[0] == b[0] && Before(a[1..], b[1..]))
  {
    var p, q := a[1..], b[1..];
    assert a == [a[0]] + p && b == [b[0]] + q;
    if a[0] < b[0] {
      assert a[..0] == b[..0];
    }
    if a[0] == b[0] && Before(p, q) && !(p <= q) {
      var i :| 0 <= i < |p| && i < |q| && p[..i] == q[..i] && p[i] < q[i];
      assert a[..i + 1] == [a[0]] + p[..i] && b[..i + 1] == [b[0]] + q[..i];
    }
    if Before(a, b) && !(a <= b) {
      var i :| 0 <= i < |a| && i < |b| && a[..i] == b[..i] && a[i] < b[i];
      AfterFirst(a, b, i);
    }
  }

  lemma AfterFirst(a: seq<byte>, b: seq<byte>, i: nat)
    requires i < |a| && i < |b| && a[..i] == b[..i] && a[i] < b[i]
    ensures a[0] < b[0] || (a[0] == b[0] && i > 0 && a[1..][..i - 1] == b[1..][..i - 1] && a[1..][i - 1] < b[1..][i - 1])
  {
    if i > 0 {
      assert a[..i][0] == b[..i][0];
      assert a[1..][..i - 1] == a[..i][1..] && b[1..][..i - 1] == b[..i][1..];
    }
  }

  lemma {:induction false} LeIs(a: seq<byte>, b: seq<byte>)
    ensures Le(a, b) <==> Before(a, b)
  {
    if a != [] && b != [] {
      LeIs(a[1..], b[1..]);
      BeforeMore(a, b);
    }
  }

  /** The archive's paths ascend, octet by octet. */
  lemma PathsAscend(es: seq<Entry>, i: nat, j: nat)
    requires i < j < |Sort(es)|
    ensures Before(Sort(es)[i].rel, Sort(es)[j].rel)
  {
    SortSorts(es);
    LeIs(Sort(es)[i].rel, Sort(es)[j].rel);
  }

  // ---------------------------------------------------------------- paths the reader writes

  /** split("/") */
  function Components(rel: seq<byte>): (c: seq<seq<byte>>)
    ensures c != []
  {
    if rel == [] then [[]]
    else
      var rest := Components(rel[1..]);
      if rel[0] == SLASH then [[]] + rest else [[rel[0]] + rest[0]] + rest[1..]
  }

  const UP: seq<byte> := [DOT, DOT]

  /** `..` stands at the front of a path, and the path ends or a slash follows. */
  predicate UpFirst(rel: seq<byte>) {
    UP <= rel && (|rel| == 2 || rel[2] == SLASH)
  }

  lemma {:induction false} FirstComponent(rel: seq<byte>)
    ensures Components(rel)[0] == UP <==> UpFirst(rel)
    ensures Components(rel)[0] == [DOT] <==> rel != [] && rel[0] == DOT && (|rel| == 1 || rel[1] == SLASH)
    ensures Components(rel)[0] == [] <==> rel == [] || rel[0] == SLASH
  {
    if rel != [] {
      var tail := rel[1..];
      if tail != [] {
        FirstComponent(tail[1..]);
        assert Components(tail[1..])[0] == [] <==> tail[1..] == [] || tail[1..][0] == SLASH;
      }
      assert rel == [rel[0]] + tail;
      SecondComponent(rel);
    }
  }

  lemma SecondComponent(rel: seq<byte>)
    requires rel != [] && (|rel| > 1 ==> (Components(rel[2..])[0] == [] <==> |rel| == 2 || rel[2] == SLASH))
    ensures Components(rel)[0] == UP <==> UpFirst(rel)
    ensures Components(rel)[0] == [DOT] <==> rel[0] == DOT && (|rel| == 1 || rel[1] == SLASH)
    ensures Components(rel)[0] == [] <==> rel[0] == SLASH
  {
    var tail := rel[1..];
    if tail != [] {
      assert tail[1..] == rel[2..];
      assert Components(tail) == if tail[0] == SLASH then [[]] + Components(rel[2..]) else [[tail[0]] + Components(rel[2..])[0]] + Components(rel[2..])[1..];
    } else {
      assert Components(tail) == [[]];
    }
  }

  /** `..` after a slash */
  ghost predicate UpLater(rel: seq<byte>) {
    exists i :: 0 <= i < |rel| && rel[i] == SLASH && UpFirst(rel[i + 1..])
  }

  lemma {:induction false} LaterComponents(rel: seq<byte>)
    ensures UP in Components(rel)[1..] <==> UpLater(rel)
  {
    if rel != [] {
      var tail := rel[1..];
      LaterComponents(tail);
      FirstComponent(tail);
      var c := Components(tail);
      assert c == [c[0]] + c[1..];
      if rel[0] == SLASH {
        assert rel[0 + 1..] == tail;
        assert Components(rel)[1..] == c;
      } else {
        assert Components(rel)[1..] == c[1..];
      }
      if UpLater(tail) {
        var i :| 0 <= i < |tail| && tail[i] == SLASH && UpFirst(tail[i + 1..]);
        assert rel[i + 1 + 1..] == tail[i + 1..];
      }
      if UpLater(rel) {
        var i :| 0 <= i < |rel| && rel[i] == SLASH && UpFirst(rel[i + 1..]);
        assert i > 0 ==> tail[i - 1 + 1..] == rel[i + 1..];
      }
    }
  }

  lemma DotDotAt(rel: seq<byte>, i: nat)
    requires i + 2 <= |rel| && rel[i] == DOT && rel[i + 1] == DOT
    requires (i == 0 || rel[i - 1] == SLASH) && (i + 2 == |rel| || rel[i + 2] == SLASH)
    ensures HasDotDot(rel)
  {
  }

  lemma DotDotIs(rel: seq<byte>)
    ensures HasDotDot(rel) <==> UpFirst(rel) || UpLater(rel)
  {
    if HasDotDot(rel) {
      var i :| 0 <= i && i + 2 <= |rel| && rel[i] == DOT && rel[i + 1] == DOT
        && (i == 0 || rel[i - 1] == SLASH) && (i + 2 == |rel| || rel[i + 2] == SLASH);
      if i > 0 {
        assert UpFirst(rel[i - 1 + 1..]);
      }
    }
    if UpLater(rel) {
      var i :| 0 <= i < |rel| && rel[i] == SLASH && UpFirst(rel[i + 1..]);
      var tail := rel[i + 1..];
      assert tail[0] == rel[i + 1] && tail[1] == rel[i + 2] && (|tail| > 2 ==> tail[2] == rel[i + 1 + 2]);
      DotDotAt(rel, i + 1);
    } else if UpFirst(rel) {
      assert rel[0] == UP[0] && rel[1] == UP[1];
      DotDotAt(rel, 0);
    }
  }

  /** A path is written exactly when it is not empty, does not begin with a slash, and has no component
      `..`. */
  lemma LegalIs(rel: seq<byte>)
    ensures LegalPath(rel) <==> rel != [] && Components(rel)[0] != [] && UP !in Components(rel)
  {
    FirstComponent(rel);
    LaterComponents(rel);
    DotDotIs(rel);
    var c := Components(rel);
    assert c == [c[0]] + c[1..];
  }

  /** path.normalize of a joined path, as the directories it goes through */
  function Resolve(at: seq<seq<byte>>, components: seq<seq<byte>>): seq<seq<byte>>
    decreases |components|
  {
    if components == [] then at
    else if components[0] == [] || components[0] == [DOT] then Resolve(at, components[1..])
    else if components[0] == UP then Resolve(if at == [] then [] else at[..|at| - 1], components[1..])
    else Resolve(at + [components[0]], components[1..])
  }

  /** Every file is written below the destination. */
  lemma {:induction false} StaysBelow(dest: seq<seq<byte>>, rel: seq<byte>)
    requires LegalPath(rel)
    ensures dest <= Resolve(dest, Components(rel))
  {
    LegalIs(rel);
    NeverUp(dest, Components(rel));
  }

  lemma {:induction false} NeverUp(at: seq<seq<byte>>, components: seq<seq<byte>>)
    requires UP !in components
    ensures at <= Resolve(at, components)
    decreases |components|
  {
    if components != [] {
      var rest := components[1..];
      if components[0] == [] || components[0] == [DOT] {
        NeverUp(at, rest);
      } else {
        NeverUp(at + [components[0]], rest);
      }
    }
  }

  // ---------------------------------------------------------------- any image

  /** What the reader writes from any image, whoever made it */
  predicate Harmless(e: Entry) {
    && |e.content| <= 100 * 1024 * 1024 && (e.mode == 420 || e.mode == 493)
    && e.rel != [] && Components(e.rel)[0] != [] && UP !in Components(e.rel)
  }

  /** The entry is what a header at this offset describes: a sound one of a regular file, with the contents
      behind it as far as the image goes. */
  ghost predicate Describes(tar: seq<byte>, off: nat, e: Entry) {
    off + BLOCK <= |tar| &&
    var h := tar[off..off + BLOCK];
    && ParseOctal(h, 148, 8) == Int(Sum(Blanked(h))) && (h[156] == 48 || h[156] == 0)
    && Rel(h) == e.rel
    && exists size: nat :: ParseOctal(h, 124, 12) == Int(size) && e.content == Data(tar, off, size)
  }

  ghost predicate Sound(tar: seq<byte>, e: Entry) {
    Harmless(e) && exists off: nat :: Describes(tar, off, e)
  }

  ghost predicate AllSound(tar: seq<byte>, es: seq<Entry>) {
    forall i :: 0 <= i < |es| ==> Sound(tar, es[i])
  }

  lemma {:induction false} SizeMore(es: seq<Entry>, e: Entry)
    ensures ContentSize(es + [e]) == ContentSize(es) + |e.content|
  {
    if es == [] {
      assert ([] + [e])[1..] == [];
    } else {
      assert (es + [e])[1..] == es[1..] + [e];
      SizeMore(es[1..], e);
    }
  }

  lemma LookSafe(tar: seq<byte>, off: nat, total: nat)
    ensures var f := Look(tar, off, total);
      f.File? ==> Sound(tar, f.entry) && |f.entry.content| <= f.size && total + f.size <= 512 * 1024 * 1024
    ensures Look(tar, off, total).File? || Look(tar, off, total).Dir? ==> off + BLOCK <= |tar|
  {
    hide Components, ParseOctal, Sum, Blanked, Rel, AllZero;
    if Look(tar, off, total).File? {
      LegalIs(Look(tar, off, total).entry.rel);
      assert Describes(tar, off, Look(tar, off, total).entry);
    }
  }

  lemma {:induction false} UnpackSafeFrom(tar: seq<byte>, off: nat, total: nat, written: seq<Entry>)
    requires AllSound(tar, written) && ContentSize(written) <= total <= 512 * 1024 * 1024
    ensures var r := UnpackFrom(tar, off, total, written);
      r.Ok? ==> r.value != [] && AllSound(tar, r.value) && ContentSize(r.value) <= 512 * 1024 * 1024
    decreases |tar| - off
  {
    LookSafe(tar, off, total);
    hide Look, Sound, ContentSize, Ceil;
    match Look(tar, off, total)
    case End =>
    case Bad(_) =>
    case Dir => UnpackSafeFrom(tar, off + BLOCK, total, written);
    case File(entry, size) =>
      SizeMore(written, entry);
      UnpackSafeFrom(tar, off + BLOCK + Ceil(size), total + size, written + [entry]);
  }

  /** Whatever the octets are: if unpacking succeeds it has written something, nothing over the limits, and
      only what sound headers of regular files describe, under paths below the destination and with one of
      the two modes. */
  lemma UnpackSafe(tar: seq<byte>)
    ensures Unpack(tar).Ok? ==>
      Unpack(tar).value != [] && AllSound(tar, Unpack(tar).value) && ContentSize(Unpack(tar).value) <= 512 * 1024 * 1024
  {
    if |tar| <= MAX_TOTAL {
      UnpackSafeFrom(tar, 0, 0, []);
    }
  }

  /** What the reader says of the header it stands on, in the order of its questions */
  lemma LookSays(tar: seq<byte>, off: nat, total: nat)
    requires off + BLOCK <= |tar| && !AllZero(tar[off..off + BLOCK])
    ensures var h := tar[off..off + BLOCK]; var f := Look(tar, off, total);
      var sound := ParseOctal(h, 148, 8) == Int(Sum(Blanked(h)));
      var regular := h[156] == 48 || h[156] == 0;
      var legal := Rel(h) != [] && Components(Rel(h))[0] != [] && UP !in Components(Rel(h));
      var size := ParseOctal(h, 124, 12);
      && (f == Bad(BadChecksum(off)) <==> !sound)
      && (f == Dir <==> sound && h[156] == 53)
      && (f == Bad(NotRegular(Rel(h))) <==> sound && h[156] != 53 && !regular)
      && (f == Bad(Escape(Rel(h))) <==> sound && regular && !legal)
      && (f == Bad(EntryTooBig(Rel(h))) <==> sound && regular && legal && size.Int? && size.v > 104857600)
      && (f == Bad(TotalTooBig) <==> sound && regular && legal && size.Int? && 0 <= size.v <= 104857600 && total + size.v > 536870912)
      && (f.File? <==> sound && regular && legal && size.Int? && 0 <= size.v <= 104857600 && total + size.v <= 536870912)
  {
    hide Components, ParseOctal, Sum, Blanked, Rel, AllZero, LegalPath;
    LegalIs(Rel(tar[off..off + BLOCK]));
  }

  // ---------------------------------------------------------------- altered headers

  lemma {:induction false} SumParts(a: seq<byte>, b: seq<byte>)
    ensures Sum(a + b) == Sum(a) + Sum(b)
  {
    if a == [] {
      assert a + b == b;
    } else {
      assert (a + b)[1..] == a[1..] + b;
      SumParts(a[1..], b);
    }
  }

  lemma SumChange(h: seq<byte>, i: nat, b: byte)
    requires i < |h|
    ensures Sum(h[i := b]) == Sum(h) - h[i] as int + b as int
  {
    var front, back := h[..i], h[i + 1..];
    assert h == front + ([h[i]] + back) && h[i := b] == front + ([b] + back);
    SumParts(front, [h[i]] + back);
    SumParts(front, [b] + back);
    SumParts([h[i]], back);
    SumParts([b], back);
    assert [h[i]][1..] == [] && [b][1..] == [];
  }

  /** Another octet anywhere but in the checksum field, and the checksum is no longer that of the header. */
  lemma ChangedSum(h: seq<byte>, i: nat, b: byte)
    requires |h| == BLOCK && i < BLOCK && !(148 <= i < 156) && b != h[i]
    ensures var c := h[i := b];
      Sum(Blanked(c)) != Sum(Blanked(h)) && ParseOctal(c, 148, 8) == ParseOctal(h, 148, 8)
  {
    var c := h[i := b];
    assert c[148..156] == h[148..156];
    assert Blanked(c) == Blanked(h)[i := b] && Blanked(h)[i] == h[i];
    SumChange(Blanked(h), i, b);
  }

  /** The reader stops at a header of which one octet was changed. */
  lemma ChangedHeader(tar: seq<byte>, off: nat, total: nat, h: seq<byte>, i: nat, b: byte)
    requires |h| == BLOCK && ParseOctal(h, 148, 8) == Int(Sum(Blanked(h)))
    requires i < BLOCK && !(148 <= i < 156) && b != h[i]
    requires off + BLOCK <= |tar| && Head(tar, off) == h[i := b]
    ensures Look(tar, off, total) == Bad(BadChecksum(off))
  {
    ChangedSum(h, i, b);
    if AllZero(h[i := b]) {
      ZeroField(h[i := b]);
      SpacesCount(h);
    }
    hide Sum, Blanked, ParseOctal, Components;
  }

  lemma ZeroField(h: seq<byte>)
    requires |h| == BLOCK && AllZero(h)
    ensures ParseOctal(h, 148, 8) == Int(0)
  {
    assert Low7(h[148..156])[0] == 0;
    var f := Low7(h[148..156]);
    assert 10 !in f && 13 !in f;
  }

  lemma SpacesCount(h: seq<byte>)
    requires |h| == BLOCK
    ensures Sum(Blanked(h)) > 0
  {
    SumParts(h[..148] + Fill(SPACE, 8), h[156..]);
    SumParts(h[..148], Fill(SPACE, 8));
    assert Fill(SPACE, 8)[0] == SPACE;
  }

  // ---------------------------------------------------------------- images that were meddled with

  ghost predicate AllLegal(es: seq<Entry>) {
    forall i :: 0 <= i < |es| ==> LegalPath(es[i].rel)
  }

  /** An offset where the blocks of some entries begin, all with paths the reader writes */
  ghost predicate Runs(tar: seq<byte>, off: nat, es: seq<Entry>) {
    AllWritable(es) && AllLegal(es) && off <= |tar| && Blocks(es) <= tar[off..]
  }

  /** Over them the reader writes those entries and stands behind them. */
  lemma {:induction false} WalkOver(tar: seq<byte>, off: nat, es: seq<Entry>, total: nat, written: seq<Entry>)
    requires Runs(tar, off, es) && total + ContentSize(es) <= MAX_TOTAL
    ensures UnpackFrom(tar, off, total, written) == UnpackFrom(tar, off + Length(es), total + ContentSize(es), written + Kept(es))
    decreases |es|
  {
    hide Runs, UnpackFrom, LegalPath, KeptEntry, Kept, Stands, Ceil;
    KeptMore(written, es);
    if es != [] {
      var next := off + BLOCK + Ceil(|es[0].content|);
      WalkOne(tar, off, es);
      UnpackOne(tar, off, es[0], total, written);
      WalkOver(tar, next, es[1..], total + |es[0].content|, written + [KeptEntry(es[0])]);
    }
  }

  /** How many octets the blocks of some entries take */
  function Length(es: seq<Entry>): nat {
    if es == [] then 0 else BLOCK + Ceil(|es[0].content|) + Length(es[1..])
  }

  lemma {:induction false} LengthIs(es: seq<Entry>)
    requires AllWritable(es)
    ensures |Blocks(es)| == Length(es)
  {
    if es != [] {
      BlocksFirst(es);
      CeilPads(|es[0].content|);
      LengthIs(es[1..]);
    }
  }

  lemma WalkOne(tar: seq<byte>, off: nat, es: seq<Entry>)
    requires Runs(tar, off, es) && es != []
    ensures var next := off + BLOCK + Ceil(|es[0].content|);
      && Stands(tar, off, es[0]) && LegalPath(es[0].rel) && Runs(tar, next, es[1..])
      && Length(es) == BLOCK + Ceil(|es[0].content|) + Length(es[1..])
      && ContentSize(es) == |es[0].content| + ContentSize(es[1..])
  {
    hide Block, Blocks, LegalPath, SplitPath, Ceil, Padding;
    BlocksFirst(es);
    CeilPads(|es[0].content|);
    assert AllLegal(es[1..]) && LegalPath(es[0].rel);
    Begins(tar, off, Block(es[0]), Blocks(es[1..]));
  }

  lemma Begins(tar: seq<byte>, off: nat, a: seq<byte>, b: seq<byte>)
    requires off <= |tar| && a + b <= tar[off..]
    ensures a <= tar[off..] && off + |a| <= |tar| && b <= tar[off + |a|..]
  {
    var t := tar[off..];
    assert tar[off + |a|..] == t[|a|..];
    assert b == (a + b)[|a|..];
  }

  lemma BlocksFirst(es: seq<Entry>)
    requires AllWritable(es) && es != []
    ensures AllWritable(es[1..]) && Writable(es[0]) && Blocks(es) == Block(es[0]) + Blocks(es[1..])
    ensures ContentSize(es) == |es[0].content| + ContentSize(es[1..])
  {
    assert AllWritable(es[1..]);
    hide Block, SplitPath;
  }

  lemma JoinWritable(a: seq<Entry>, b: seq<Entry>)
    requires AllWritable(a) && AllWritable(b)
    ensures AllWritable(a + b) && (a == [] ==> a + b == b)
    ensures a != [] ==> (a + b)[1..] == a[1..] + b && (a + b)[0] == a[0]
  {
    hide Writable;
  }

  lemma {:induction false} BlocksAppend(a: seq<Entry>, b: seq<Entry>)
    requires AllWritable(a) && AllWritable(b)
    ensures AllWritable(a + b) && ContentSize(a + b) == ContentSize(a) + ContentSize(b)
    ensures Blocks(a + b) == Blocks(a) + Blocks(b)
  {
    JoinWritable(a, b);
    if a != [] {
      BlocksFirst(a);
      BlocksFirst(a + b);
      hide Block, Blocks, SplitPath, ContentSize;
      BlocksAppend(a[1..], b);
      ThreeParts(Block(a[0]), Blocks(a[1..]), Blocks(b));
    }
  }

  lemma ThreeParts(a: seq<byte>, b: seq<byte>, c: seq<byte>)
    ensures a + (b + c) == a + b + c
  {
  }

  /** The header of an entry */
  function HeaderOf(e: Entry): (h: seq<byte>)
    requires Writable(e)
    ensures |h| == BLOCK
  {
    Block(e)[..BLOCK]
  }

  lemma HeaderChecks(e: Entry)
    requires Writable(e)
    ensures ParseOctal(HeaderOf(e), 148, 8) == Int(Sum(Blanked(HeaderOf(e))))
  {
    HeaderReads(e);
    var h := Header(SplitPath(e.rel).value, |e.content|, e.mode);
    assert HeaderOf(e) == h;
    hide Header, Blanked, ParseOctal, Sum;
  }

  /** One octet of any header of a sound image changed, but in the checksum field, and unpacking stops at
      that header. */
  lemma AlteredHeader(es: seq<Entry>, k: nat, i: nat, b: byte)
    requires AllWritable(es) && k < |es| && i < BLOCK && !(148 <= i < 156) && b != HeaderOf(es[k])[i]
    requires Unpack(Blocks(es) + Zeros(2 * BLOCK)).Ok?
    ensures var at := Length(es[..k]); var tar := Blocks(es) + Zeros(2 * BLOCK);
      at + i < |tar| && tar[at + i] == HeaderOf(es[k])[i] && Unpack(tar[at + i := b]) == Err(BadChecksum(at))
  {
    hide Unpack, Blocks, LegalPath, HeaderOf, ParseOctal, Blanked, Sum, Length, Runs, Kept, ReadAll, ContentSize;
    var tar := Blocks(es) + Zeros(2 * BLOCK);
    var h := HeaderOf(es[k]);
    UnpackImage(es);
    ImageParts(es, k);
    HeaderChecks(es[k]);
    SoundFront(es, k);
    Altered(tar, es[..k], h, i, b);
    StopsAt(tar[Length(es[..k]) + i := b], es[..k], h, i, b);
  }

  lemma SoundFront(es: seq<Entry>, k: nat)
    requires AllWritable(es) && k < |es| && |Blocks(es)| <= MAX_TOTAL && forall i :: 0 <= i < |es| ==> LegalPath(es[i].rel)
    ensures AllWritable(es[..k]) && AllLegal(es[..k]) && ContentSize(es[..k]) <= MAX_TOTAL
  {
    hide LegalPath, Writable, Blocks, ContentSize;
    assert AllWritable(es[..k]) && AllWritable(es[k..]) && es == es[..k] + es[k..];
    ContentsFit(es);
    BlocksAppend(es[..k], es[k..]);
  }

  lemma ImageParts(es: seq<Entry>, k: nat)
    requires AllWritable(es) && k < |es|
    ensures AllWritable(es[..k]) && Blocks(es[..k]) + HeaderOf(es[k]) <= Blocks(es) && |Blocks(es[..k])| == Length(es[..k])
  {
    var a, c := es[..k], es[k..];
    assert AllWritable(a) && AllWritable(c) && es == a + c && c[0] == es[k];
    BlocksAppend(a, c);
    BlocksFirst(c);
    LengthIs(a);
    Cut(Block(c[0]), Blocks(c[1..]), BLOCK);
    hide Block, Blocks, Writable;
  }

  lemma Cut(a: seq<byte>, b: seq<byte>, n: nat)
    requires n <= |a|
    ensures a[..n] <= a + b
  {
  }

  lemma Altered(tar: seq<byte>, es: seq<Entry>, h: seq<byte>, i: nat, b: byte)
    requires AllWritable(es) && AllLegal(es) && |Blocks(es)| == Length(es)
    requires Blocks(es) + h <= tar && i < |h| && |h| == BLOCK
    ensures var at := Length(es); var bad := tar[at + i := b];
      at + BLOCK <= |tar| && tar[at + i] == h[i] && Runs(bad, 0, es) && Head(bad, at) == h[i := b]
  {
    hide Blocks, LegalPath, SplitPath, NulFree, Runs;
    Overwritten(tar, Blocks(es), h, i, b);
    RunsAre(tar[Length(es) + i := b], es);
  }

  lemma RunsAre(tar: seq<byte>, es: seq<Entry>)
    requires AllWritable(es) && AllLegal(es) && Blocks(es) <= tar && tar[0..] == tar
    ensures Runs(tar, 0, es)
  {
    hide Blocks, LegalPath, SplitPath, NulFree;
  }

  lemma Overwritten(tar: seq<byte>, front: seq<byte>, h: seq<byte>, i: nat, b: byte)
    requires front + h <= tar && i < |h|
    ensures var at := |front|; var bad := tar[at + i := b];
      tar[at + i] == h[i] && bad[0..] == bad && front <= bad && bad[at..at + |h|] == h[i := b]
  {
    assert h == tar[|front|..|front| + |h|];
  }

  lemma StopsAt(bad: seq<byte>, es: seq<Entry>, h: seq<byte>, i: nat, b: byte)
    requires |bad| <= MAX_TOTAL && Runs(bad, 0, es) && ContentSize(es) <= MAX_TOTAL
    requires |h| == BLOCK && ParseOctal(h, 148, 8) == Int(Sum(Blanked(h)))
    requires i < BLOCK && !(148 <= i < 156) && b != h[i]
    requires Length(es) + BLOCK <= |bad| && Head(bad, Length(es)) == h[i := b]
    ensures Unpack(bad) == Err(BadChecksum(Length(es)))
  {
    hide Runs, Head, Look, Blanked, Sum, ParseOctal, Length, ContentSize;
    WalkOver(bad, 0, es, 0, []);
    ChangedHeader(bad, Length(es), ContentSize(es), h, i, b);
  }

  /** A header the reader takes for a directory's */
  ghost predicate DirHeader(h: seq<byte>) {
    |h| == BLOCK && !AllZero(h) && ParseOctal(h, 148, 8) == Int(Sum(Blanked(h))) && h[156] == 53
  }

  /** A directory's header anywhere between the entries of a sound image changes nothing. */
  lemma DirsPassed(a: seq<Entry>, b: seq<Entry>, dir: seq<byte>)
    requires AllWritable(a) && AllWritable(b) && AllWritable(a + b) && DirHeader(dir)
    requires Unpack(Blocks(a + b) + Zeros(2 * BLOCK)).Ok?
    ensures var tar := Blocks(a) + dir + (Blocks(b) + Zeros(2 * BLOCK));
      |tar| <= MAX_TOTAL ==> Unpack(tar) == Unpack(Blocks(a + b) + Zeros(2 * BLOCK))
  {
    hide Unpack, Blocks, LegalPath, ParseOctal, Blanked, Sum, Length, Runs, Kept, ReadAll, ContentSize, SplitPath, NulFree, UnpackFrom;
    UnpackImage(a + b);
    BlocksAppend(a, b);
    var end := Zeros(2 * BLOCK);
    var tar := Blocks(a) + dir + (Blocks(b) + end);
    if |tar| <= MAX_TOTAL {
      LegalParts(a, b);
      ContentsFit(a + b);
      LengthIs(a);
      LengthIs(b);
      Slices(tar, Blocks(a), dir, Blocks(b), end);
      assert Runs(tar, 0, a) && Runs(tar, |Blocks(a)| + BLOCK, b) by { Standing(tar, a, b); }
      PassesDir(tar, a, b, dir);
      assert Kept(a + b) == [] + Kept(a) + Kept(b) by { KeptBoth(a, b); }
    }
  }

  lemma KeptBoth(a: seq<Entry>, b: seq<Entry>)
    ensures Kept(a + b) == [] + Kept(a) + Kept(b)
  {
  }

  lemma LegalParts(a: seq<Entry>, b: seq<Entry>)
    requires forall i :: 0 <= i < |a + b| ==> LegalPath((a + b)[i].rel)
    ensures AllLegal(a) && AllLegal(b)
  {
    hide LegalPath;
    forall i | 0 <= i < |a| ensures LegalPath(a[i].rel) { assert (a + b)[i] == a[i]; }
    forall i | 0 <= i < |b| ensures LegalPath(b[i].rel) { assert (a + b)[|a| + i] == b[i]; }
  }

  lemma Slices(tar: seq<byte>, a: seq<byte>, d: seq<byte>, b: seq<byte>, c: seq<byte>)
    requires tar == a + d + (b + c)
    ensures tar[0..] == tar && a <= tar && tar[|a|..|a| + |d|] == d
    ensures |a| + |d| <= |tar| && b <= tar[|a| + |d|..]
    ensures |a| + |d| + |b| <= |tar| && tar[|a| + |d| + |b|..] == c
  {
    assert tar[|a| + |d|..] == b + c;
  }

  lemma Standing(tar: seq<byte>, a: seq<Entry>, b: seq<Entry>)
    requires AllWritable(a) && AllWritable(b) && AllLegal(a) && AllLegal(b)
    requires tar[0..] == tar && Blocks(a) <= tar && |Blocks(a)| + BLOCK <= |tar| && Blocks(b) <= tar[|Blocks(a)| + BLOCK..]
    ensures Runs(tar, 0, a) && Runs(tar, |Blocks(a)| + BLOCK, b)
  {
    hide Blocks, SplitPath, NulFree, LegalPath;
  }

  lemma PassesDir(tar: seq<byte>, a: seq<Entry>, b: seq<Entry>, dir: seq<byte>)
    requires DirHeader(dir) && |tar| <= MAX_TOTAL && Length(a) + BLOCK + Length(b) <= |tar|
    requires Runs(tar, 0, a) && Runs(tar, Length(a) + BLOCK, b) && ContentSize(a) + ContentSize(b) <= MAX_TOTAL
    requires tar[Length(a)..Length(a) + BLOCK] == dir && tar[Length(a) + BLOCK + Length(b)..] == Zeros(2 * BLOCK)
    requires a + b != []
    ensures Unpack(tar) == Ok([] + Kept(a) + Kept(b))
  {
    hide Runs, DirHeader, Look, Length, ContentSize, Kept, UnpackFrom;
    var at, next := Length(a), Length(a) + BLOCK;
    WalkOver(tar, 0, a, 0, []);
    DirStep(tar, at, dir, ContentSize(a), [] + Kept(a));
    WalkOver(tar, next, b, ContentSize(a), [] + Kept(a));
    UnpackEnd(tar, next + Length(b), ContentSize(a) + ContentSize(b), [] + Kept(a) + Kept(b));
    KeptSome(a, b);
  }

  lemma DirStep(tar: seq<byte>, at: nat, dir: seq<byte>, total: nat, written: seq<Entry>)
    requires DirHeader(dir) && at + BLOCK <= |tar| && tar[at..at + BLOCK] == dir
    ensures UnpackFrom(tar, at, total, written) == UnpackFrom(tar, at + BLOCK, total, written)
  {
    hide Blanked, Sum, ParseOctal, AllZero;
    assert Head(tar, at) == dir;
  }

  lemma KeptSome(a: seq<Entry>, b: seq<Entry>)
    requires a + b != []
    ensures [] + Kept(a) + Kept(b) != []
  {
    assert |[] + Kept(a) + Kept(b)| == |a| + |b|;
  }

  // ---------------------------------------------------------------- paths the writer accepts

  /** A slash at which a path can be cut into a prefix and a name that ustar's fields hold */
  predicate CutAt(rel: seq<byte>, i: nat) {
    0 < i < |rel| && rel[i] == SLASH && i <= 155 && |rel| - i - 1 <= 100
  }

  /** The writer accepts a path exactly when it is at most 100 octets long, or can be cut at a slash among the
      first hundred and one. */
  lemma SplitIff(rel: seq<byte>)
    ensures SplitPath(rel).Ok? <==> |rel| <= 100 || exists i: nat :: i <= 100 && CutAt(rel, i)
  {
    if |rel| > 100 {
      var cut := LastSlash(rel, 100);
      if cut > 0 && |rel| - cut <= 101 {
        assert CutAt(rel, cut);
      }
    }
  }

  /** The format holds longer prefixes: this path can be cut at its slash, and is refused. */
  lemma SplitMissed()
    ensures var rel := Fill(97, 101) + [SLASH] + [98]; CutAt(rel, 101) && SplitPath(rel).Err?
  {
    var rel := Fill(97, 101) + [SLASH] + [98];
    SplitIff(rel);
  }

  ghost predicate Refused(e: Entry) {
    |e.content| > 100 * 1024 * 1024 || (|e.rel| > 100 && forall i: nat :: i <= 100 ==> !CutAt(e.rel, i))
  }

  /** Refused, and no refused path comes before it */
  ghost predicate FirstRefused(es: seq<Entry>, e: Entry) {
    e in es && Refused(e) && forall x :: x in es && Refused(x) ==> Before(e.rel, x.rel)
  }

  /** Packing fails exactly when some entry is over the limit or has a path that is refused, and then with
      the error of the first of them in path order. */
  lemma PackRefuses(es: seq<Entry>)
    ensures Image(Sort(es)).Err? <==> exists e :: e in es && Refused(e)
    ensures Image(Sort(es)).Err? ==> exists e ::
      FirstRefused(es, e) && Image(Sort(es)).error == if |e.content| > 100 * 1024 * 1024 then EntryTooBig(e.rel) else PathTooLong(e.rel)
  {
    var sorted := Sort(es);
    var i := Accepted(sorted);
    SortMembers(es);
    forall e ensures Accepts(e) <==> !Refused(e) { SplitIff(e.rel); }
    hide Refused, Accepts, Before;
    if i < |sorted| {
      FirstIs(es, i);
      assert FirstRefused(es, sorted[i]);
    } else {
      forall e | e in es ensures !Refused(e) { assert e in sorted; }
    }
  }

  lemma FirstIs(es: seq<Entry>, i: nat)
    requires i < |Sort(es)| && Refused(Sort(es)[i]) && forall j :: 0 <= j < i ==> !Refused(Sort(es)[j])
    ensures FirstRefused(es, Sort(es)[i])
  {
    hide Refused, Before;
    var sorted := Sort(es);
    SortMembers(es);
    forall x | x in es && Refused(x) ensures Before(sorted[i].rel, x.rel) {
      var j :| 0 <= j < |sorted| && sorted[j] == x;
      if i < j {
        PathsAscend(es, i, j);
      } else {
        Itself(x.rel);
      }
    }
  }

  lemma Itself(a: seq<byte>)
    ensures Before(a, a)
  {
  }

  // ---------------------------------------------------------------- the layout of a header

  /** Octal digits that denote a number, up to the NUL that ends the field */
  ghost predicate Denotes(field: seq<byte>, n: nat) {
    && field != [] && field[|field| - 1] == 0 && (forall i :: 0 <= i < |field| - 1 ==> Octit(field[i]))
    && Value(field[..|field| - 1]) == n
  }

  lemma OctalDenotes(n: nat, len: nat)
    requires len > 1 && n < Pow8(len - 1)
    ensures Denotes(Octal(n, len), n)
  {
    PaddedDigits(n, len - 1);
    var d := PadStart(Digits(n), len - 1);
    assert (d + [0])[..len] == d + [0] && (d + [0])[..len - 1] == d;
  }

  lemma FrontLayout(name: seq<byte>, size: nat, mode: nat)
    requires |name| <= 100
    ensures var f := Front(name, size, mode);
      && f[..100] == Fit(name, 100) && f[100..108] == Octal(mode, 8) && f[108..116] == Octal(0, 8) && f[116..124] == Octal(0, 8)
      && f[124..136] == Octal(size, 12) && f[136..148] == Octal(0, 12)
  {
  }

  lemma BackLayout(prefix: seq<byte>)
    requires |prefix| <= 155
    ensures var b := Back(prefix);
      && b[0] == 48 && b[1..101] == Zeros(100) && b[101..107] == MAGIC && b[107..109] == VERSION && b[109..189] == Zeros(80)
      && b[189..344] == Fit(prefix, 155) && b[344..356] == Zeros(12)
  {
  }

  lemma Inner(h: seq<byte>, front: seq<byte>, check: seq<byte>, back: seq<byte>)
    requires h == front + check + back && |front| == 148 && |check| == 8 && |back| == 356
    ensures h[..100] == front[..100] && h[100..108] == front[100..108] && h[108..116] == front[108..116]
    ensures h[116..124] == front[116..124] && h[124..136] == front[124..136] && h[136..148] == front[136..148]
    ensures h[156] == back[0] && h[157..257] == back[1..101] && h[257..263] == back[101..107] && h[263..265] == back[107..109]
    ensures h[265..345] == back[109..189] && h[345..500] == back[189..344] && h[500..512] == back[344..356]
  {
  }

  /** The fields of the ustar interchange format, at their offsets: name, mode, owner and group 0, size, time 0,
      type `0`, no link, magic, version, no names or device numbers, prefix. */
  lemma HeaderLayout(e: Entry)
    requires Writable(e)
    ensures var h := HeaderOf(e); var p := SplitPath(e.rel).value;
      && h[..100] == p.name + Zeros(100 - |p.name|) && Denotes(h[100..108], e.mode)
      && Denotes(h[108..116], 0) && Denotes(h[116..124], 0)
      && Denotes(h[124..136], |e.content|) && Denotes(h[136..148], 0)
      && h[156] == 48 && h[157..257] == Zeros(100)
      && h[257..263] == [117, 115, 116, 97, 114, 0] && h[263..265] == [48, 48] && h[265..345] == Zeros(80)
      && h[345..500] == p.prefix + Zeros(155 - |p.prefix|) && h[500..512] == Zeros(12)
  {
    var p := SplitPath(e.rel).value;
    var check := HeaderIs(e);
    FrontLayout(p.name, |e.content|, e.mode);
    BackLayout(p.prefix);
    Powers();
    OctalDenotes(e.mode, 8);
    OctalDenotes(0, 8);
    OctalDenotes(|e.content|, 12);
    OctalDenotes(0, 12);
    hide HeaderOf, Front, Back, Octal, Denotes, SplitPath;
    Inner(HeaderOf(e), Front(p.name, |e.content|, e.mode), check, Back(p.prefix));
  }

  lemma HeaderIs(e: Entry) returns (check: seq<byte>)
    requires Writable(e)
    ensures |check| == 8
    ensures var p := SplitPath(e.rel).value; HeaderOf(e) == Front(p.name, |e.content|, e.mode) + check + Back(p.prefix)
  {
    var p := SplitPath(e.rel).value;
    var blank := Fields(p.name, p.prefix, |e.content|, e.mode, Fill(SPACE, 8));
    ChecksumFits(blank);
    check := Checksum(Sum(blank));
    assert HeaderOf(e) == Header(p, |e.content|, e.mode);
    hide Front, Back, Sum, Checksum;
  }
}
