/** The code of runner/supply/pack.ts that writes into buffers and loops over an image, proved against
    the functions of `Ustar`: every field in place, the checksum last, then block after block. */
module Pack {
  import opened Sequences
  import opened Bytes
  import opened Ustar

  // ---------------------------------------------------------------- the writer

  /** A buffer after `write(s, at)`. */
  ghost function Splice(b: seq<byte>, at: nat, s: seq<byte>): (r: seq<byte>)
    requires at + |s| <= |b|
    ensures |r| == |b|
  {
    b[..at] + s + b[at + |s|..]
  }

  method Put(h: array<byte>, at: nat, s: seq<byte>)
    requires at + |s| <= h.Length
    modifies h
    ensures h[..] == Splice(old(h[..]), at, s)
  {
    var i := 0;
    while i < |s|
      invariant i <= |s|
      invariant forall j :: 0 <= j < h.Length ==> h[j] == if at <= j < at + i then s[j - at] else old(h[j])
    {
      h[at + i] := s[i];
      i := i + 1;
    }
  }

  /** octal: what does not fit the buffer is not written. */
  method OctalField(n: nat, len: nat) returns (b: seq<byte>)
    requires len > 0
    ensures b == Octal(n, len)
  {
    var buffer := new byte[len](_ => 0);
    var s := PadStart(Digits(n), len - 1) + [0];
    Put(buffer, 0, s[..Min(|s|, len)]);
    b := buffer[..];
  }

  /** The checksum loop. */
  method Total(h: seq<byte>) returns (sum: nat)
    ensures sum == Sum(h)
  {
    sum := 0;
    var i := 0;
    while i < |h|
      invariant i <= |h|
      invariant sum + Sum(h[i..]) == Sum(h)
    {
      assert h[i..][1..] == h[i + 1..];
      sum := sum + h[i];
      i := i + 1;
    }
  }

  /** A write behind what is filled, over zeros. */
  lemma NextWrite(a: seq<byte>, n: nat, gap: nat, s: seq<byte>)
    requires gap + |s| <= n
    ensures Splice(a + Zeros(n), |a| + gap, s) == a + Zeros(gap) + s + Zeros(n - gap - |s|)
  {
  }

  /** A field behind what is filled. */
  lemma NextField(a: seq<byte>, n: nat, s: seq<byte>)
    requires |s| <= n
    ensures Splice(a + Zeros(n), |a|, s) == a + s + Zeros(n - |s|)
  {
    NextWrite(a, n, 0, s);
    assert a + Zeros(0) == a;
  }

  /** A text at the head of a zeroed field. */
  lemma NextText(a: seq<byte>, n: nat, s: seq<byte>, width: nat)
    requires |s| <= width <= n
    ensures Splice(a + Zeros(n), |a|, s) == a + Fit(s, width) + Zeros(n - width)
  {
    NextField(a, n, s);
    assert Zeros(n - |s|) == Zeros(width - |s|) + Zeros(n - width);
  }

  /** header: every field written in place, the checksum last over its own blanks. */
  method HeaderBuffer(p: Split, size: nat, mode: nat) returns (h: array<byte>)
    requires |p.name| <= 100 && |p.prefix| <= 155
    ensures fresh(h) && h[..] == Header(p, size, mode)
  {
    h := new byte[BLOCK](_ => 0);
    assert h[..] == [] + Zeros(BLOCK);
    NextText([], BLOCK, p.name, 100);
    Put(h, 0, p.name);
    assert [] + Fit(p.name, 100) == Fit(p.name, 100);
    WriteNumbers(h, Fit(p.name, 100), size, mode);
    WriteMarks(h, Front(p.name, size, mode));
    WriteTail(h, Front(p.name, size, mode), p.prefix);
    ghost var blank := Fields(p.name, p.prefix, size, mode, Fill(SPACE, 8));
    assert h[..] == blank;
    var sum := Total(h[..]);
    ChecksumFits(blank);
    Put(h, 148, Checksum(sum));
    Overwrite(Front(p.name, size, mode), Fill(SPACE, 8), Checksum(sum), Back(p.prefix));
  }

  lemma Overwrite(a: seq<byte>, b: seq<byte>, c: seq<byte>, d: seq<byte>)
    requires |b| == |c|
    ensures Splice(a + b + d, |a|, c) == a + c + d
  {
  }

  /** mode, uid, gid, size and mtime */
  method WriteNumbers(h: array<byte>, name: seq<byte>, size: nat, mode: nat)
    requires |name| == 100 && h.Length == BLOCK && h[..] == name + Zeros(412)
    modifies h
    ensures h[..] == name + Octal(mode, 8) + Octal(0, 8) + Octal(0, 8) + Octal(size, 12) + Octal(0, 12) + Zeros(364)
  {
    hide Octal, Splice;
    var m := OctalField(mode, 8);
    NextField(name, 412, m);
    Put(h, 100, m);
    var z := OctalField(0, 8);
    NextField(name + m, 404, z);
    Put(h, 108, z);
    NextField(name + m + z, 396, z);
    Put(h, 116, z);
    var n := OctalField(size, 12);
    NextField(name + m + z + z, 388, n);
    Put(h, 124, n);
    var t := OctalField(0, 12);
    NextField(name + m + z + z + n, 376, t);
    Put(h, 136, t);
  }

  /** The blank checksum field, the type flag and the magic */
  method WriteMarks(h: array<byte>, front: seq<byte>)
    requires |front| == 148 && h.Length == BLOCK && h[..] == front + Zeros(364)
    modifies h
    ensures h[..] == front + Fill(SPACE, 8) + [ZERO] + Zeros(100) + MAGIC + VERSION + Zeros(247)
  {
    hide Splice;
    NextField(front, 364, Fill(SPACE, 8));
    Put(h, 148, Fill(SPACE, 8));
    var a := front + Fill(SPACE, 8);
    NextField(a, 356, [ZERO]);
    Put(h, 156, [ZERO]);
    NextWrite(a + [ZERO], 355, 100, MAGIC);
    Put(h, 257, MAGIC);
    NextField(a + [ZERO] + Zeros(100) + MAGIC, 249, VERSION);
    Put(h, 263, VERSION);
  }

  /** The prefix, at 345 */
  method WriteTail(h: array<byte>, front: seq<byte>, prefix: seq<byte>)
    requires |front| == 148 && |prefix| <= 155 && h.Length == BLOCK
    requires h[..] == front + Fill(SPACE, 8) + [ZERO] + Zeros(100) + MAGIC + VERSION + Zeros(247)
    modifies h
    ensures h[..] == front + Fill(SPACE, 8) + Back(prefix)
  {
    TailWrite(front + Fill(SPACE, 8), prefix);
    Put(h, 345, prefix);
  }

  lemma TailWrite(a: seq<byte>, prefix: seq<byte>)
    requires |a| == 156 && |prefix| <= 155
    ensures Splice(a + [ZERO] + Zeros(100) + MAGIC + VERSION + Zeros(247), 345, prefix) == a + Back(prefix)
  {
    var b := a + [ZERO] + Zeros(100) + MAGIC + VERSION;
    assert b + Zeros(247) == b + Zeros(80) + Zeros(167);
    NextText(b + Zeros(80), 167, prefix, 155);
    hide Splice, Fit;
    assert a + Back(prefix) == b + Zeros(80) + Fit(prefix, 155) + Zeros(12);
  }

  /** packEntries */
  method PackEntries(entries: seq<Entry>) returns (r: Result<seq<byte>>)
    ensures r == Image(Sort(entries))
  {
    var sorted := Sort(entries);
    var chunks: seq<byte> := [];
    var i := 0;
    while i < |sorted|
      invariant i <= |sorted|
      invariant forall j :: 0 <= j < i ==> Accepts(sorted[j])
      invariant chunks == Blocks(sorted[..i])
    {
      var e := sorted[i];
      var split := SplitPath(e.rel);
      if |e.content| > MAX_ENTRY || split.Err? {
        AcceptedIs(sorted, i);
        return Err(if |e.content| > MAX_ENTRY then EntryTooBig(e.rel) else split.error);
      }
      var h := HeaderBuffer(split.value, |e.content|, e.mode);
      BlocksMore(sorted, i);
      chunks := chunks + (h[..] + e.content + Zeros(Padding(|e.content|)));
      i := i + 1;
    }
    assert sorted[..i] == sorted;
    AcceptedIs(sorted, i);
    r := Ok(chunks + Zeros(2 * BLOCK));
  }

  lemma {:induction false} AcceptedIs(es: seq<Entry>, i: nat)
    requires i <= |es| && (forall j :: 0 <= j < i ==> Accepts(es[j])) && (i < |es| ==> !Accepts(es[i]))
    ensures Accepted(es) == i
  {
    if i > 0 {
      AcceptedIs(es[1..], i - 1);
    }
  }

  lemma {:induction false} BlocksMore(es: seq<Entry>, i: nat)
    requires i < |es| && forall j :: 0 <= j <= i ==> Accepts(es[j])
    ensures Blocks(es[..i + 1]) == Blocks(es[..i]) + Block(es[i])
  {
    hide *;
    if i == 0 {
      NoMore(es);
    } else {
      Fronts(es, i);
      BlocksFirst(es[..i + 1]);
      BlocksFirst(es[..i]);
      BlocksMore(es[1..], i - 1);
      Associate(Block(es[0]), Blocks(es[1..][..i - 1]), Block(es[i]));
    }
  }

  lemma Fronts(es: seq<Entry>, i: nat)
    requires 0 < i < |es|
    ensures es[..i + 1][0] == es[0] == es[..i][0] && es[1..][i - 1] == es[i]
    ensures es[..i + 1][1..] == es[1..][..i] && es[..i][1..] == es[1..][..i - 1]
  {
  }

  lemma BlocksFirst(es: seq<Entry>)
    requires es != [] && forall j :: 0 <= j < |es| ==> Accepts(es[j])
    ensures Blocks(es) == Block(es[0]) + Blocks(es[1..])
  {
    hide Block, Accepts;
  }

  lemma NoMore(es: seq<Entry>)
    requires es != [] && Accepts(es[0])
    ensures Blocks(es[..1]) == Blocks(es[..0]) + Block(es[0])
  {
    hide Block, Accepts;
    assert es[..1][1..] == [] && es[..0] == [];
    assert Block(es[0]) + [] == Block(es[0]) == [] + Block(es[0]);
  }

  // ---------------------------------------------------------------- the readers

  /** The checksum the reader computes: over a copy whose checksum field is blank. */
  method HeaderSum(h: seq<byte>) returns (sum: nat)
    requires |h| == BLOCK
    ensures sum == Sum(Blanked(h))
  {
    var scratch := new byte[BLOCK](i requires 0 <= i < BLOCK => h[i]);
    assert scratch[..] == h;
    Put(scratch, 148, Fill(SPACE, 8));
    sum := Total(scratch[..]);
  }

  /** unpackArtifact on a gunzipped image */
  method UnpackArtifact(tar: seq<byte>) returns (r: Result<seq<Entry>>)
    ensures r == Unpack(tar)
  {
    hide ParseOctal, Rel, Head, Data, AllZero, LegalPath, Blanked, Sum, Ceil, KeptMode;
    if |tar| > MAX_TOTAL {
      return Err(ImageTooBig);
    }
    var written: seq<Entry> := [];
    var off: nat, total: nat := 0, 0;
    while off + BLOCK <= |tar|
      invariant UnpackFrom(tar, off, total, written) == UnpackFrom(tar, 0, 0, [])
      decreases |tar| - off
    {
      var h := Head(tar, off);
      if AllZero(h) {
        break;
      }
      var stored := ParseOctal(h, 148, 8);
      var sum := HeaderSum(h);
      if Int(sum) != stored {
        return Err(BadChecksum(off));
      }
      var rel := Rel(h);
      var size := ParseOctal(h, 124, 12);
      var mode := ParseOctal(h, 100, 8);
      var at := off;
      off := off + BLOCK;
      if h[156] == 53 {
        continue;
      }
      if h[156] != ZERO && h[156] != 0 {
        return Err(NotRegular(rel));
      }
      if !LegalPath(rel) {
        return Err(Escape(rel));
      }
      if size.NaN? || size.v < 0 {
        return Err(OddSize(at));
      }
      if size.v > MAX_ENTRY {
        return Err(EntryTooBig(rel));
      }
      total := total + size.v;
      if total > MAX_TOTAL {
        return Err(TotalTooBig);
      }
      written := written + [Entry(rel, Data(tar, at, size.v), KeptMode(mode))];
      off := off + Ceil(size.v);
    }
    return if written == [] then Err(Empty) else Ok(written);
  }

  /** listArtifact on a gunzipped image */
  method ListArtifact(tar: seq<byte>) returns (r: Result<seq<seq<byte>>>)
    ensures r == List(tar)
  {
    hide ParseOctal, Rel, Head, AllZero, Ceil;
    if |tar| > MAX_TOTAL {
      return Err(ImageTooBig);
    }
    var names: seq<seq<byte>> := [];
    var off := 0;
    while off + BLOCK <= |tar|
      invariant ListFrom(tar, off, names) == ListFrom(tar, 0, [])
      decreases |tar| - off
    {
      var h := Head(tar, off);
      if AllZero(h) {
        break;
      }
      var size := ParseOctal(h, 124, 12);
      if size.NaN? || size.v < 0 {
        return Err(OddSize(off));
      }
      names := names + [Rel(h)];
      off := off + BLOCK + Ceil(size.v);
    }
    return Ok(names);
  }
}
