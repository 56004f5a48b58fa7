/** The deterministic ustar writer and reader of runner/supply/pack.ts. Paths and contents are byte
    strings; gzip is taken as the identity with its output limit. The layout is the ustar interchange
    format of the pax utility in IEEE Std 1003.1. */
module Ustar {
  import opened Bytes

  const BLOCK: nat := 512
  const MAX_ENTRY: nat := 100 * 1024 * 1024
  const MAX_TOTAL: nat := 512 * 1024 * 1024

  const SLASH: byte := 47
  const DOT: byte := 46
  const SPACE: byte := 32
  const ZERO: byte := 48

  datatype Error =
    | PathTooLong(rel: seq<byte>)
    | EntryTooBig(rel: seq<byte>)
    | ImageTooBig
    | BadChecksum(off: nat)
    | NotRegular(rel: seq<byte>)
    | Escape(rel: seq<byte>)
    | TotalTooBig
    | Empty
    | OddSize(off: nat)  // a size that does not parse as a natural number: what follows is not modelled

  datatype Result<+T> = Ok(value: T) | Err(error: Error)

  datatype Entry = Entry(rel: seq<byte>, content: seq<byte>, mode: nat)

  // ---------------------------------------------------------------- numbers

  /** n.toString(8) in ASCII. */
  function Digits(n: nat): (d: seq<byte>)
    ensures |d| >= 1
  {
    if n < 8 then [ZERO + n] else Digits(n / 8) + [ZERO + n % 8]
  }

  function Fill(b: byte, n: nat): (s: seq<byte>)
    ensures |s| == n && forall i :: 0 <= i < n ==> s[i] == b
  {
    seq(n, i requires 0 <= i < n => b)
  }

  function Zeros(n: nat): (s: seq<byte>)
    ensures |s| == n && forall i :: 0 <= i < n ==> s[i] == 0
  {
    Fill(0, n)
  }

  function PadStart(s: seq<byte>, width: nat): seq<byte> {
    if |s| < width then Fill(ZERO, width - |s|) + s else s
  }

  /** octal: a field of `len` bytes; a number too long for it is cut off by the buffer. */
  function Octal(n: nat, len: nat): (f: seq<byte>)
    requires len > 0
    ensures |f| == len
  {
    (PadStart(Digits(n), len - 1) + [0])[..len]
  }

  function Sum(s: seq<byte>): nat {
    if s == [] then 0 else s[0] + Sum(s[1..])
  }

  /** The checksum field as it is written: six digits, NUL, space. */
  function Checksum(sum: nat): seq<byte> {
    PadStart(Digits(sum), 6) + [0, SPACE]
  }

  // ---------------------------------------------------------------- the header

  function Fit(s: seq<byte>, n: nat): (f: seq<byte>)
    requires |s| <= n
    ensures |f| == n
  {
    s + Zeros(n - |s|)
  }

  const MAGIC: seq<byte> := [117, 115, 116, 97, 114, 0]
  const VERSION: seq<byte> := [48, 48]

  /** The header before its checksum field. */
  function Front(name: seq<byte>, size: nat, mode: nat): (f: seq<byte>)
    requires |name| <= 100
    ensures |f| == 148
  {
    Fit(name, 100) + Octal(mode, 8) + Octal(0, 8) + Octal(0, 8) + Octal(size, 12) + Octal(0, 12)
  }

  /** The header after its checksum field. */
  function Back(prefix: seq<byte>): (b: seq<byte>)
    requires |prefix| <= 155
    ensures |b| == 356
  {
    [ZERO] + Zeros(100) + MAGIC + VERSION + Zeros(80) + Fit(prefix, 155) + Zeros(12)
  }

  /** The header with a given checksum field. */
  function Fields(name: seq<byte>, prefix: seq<byte>, size: nat, mode: nat, check: seq<byte>): (h: seq<byte>)
    requires |name| <= 100 && |prefix| <= 155 && |check| == 8
    ensures |h| == BLOCK
  {
    Front(name, size, mode) + check + Back(prefix)
  }

  /** rel.lastIndexOf("/", from); -1 when there is none. */
  function LastSlash(rel: seq<byte>, from: int): (i: int)
    requires from < |rel|
    ensures -1 <= i <= from || i == -1
    ensures i >= 0 ==> rel[i] == SLASH
    ensures forall j :: i < j <= from && j >= 0 ==> rel[j] != SLASH
    decreases from + 1
  {
    if from < 0 then -1 else if rel[from] == SLASH then from else LastSlash(rel, from - 1)
  }

  datatype Split = Split(prefix: seq<byte>, name: seq<byte>)

  /** A path over 100 bytes goes to prefix and name at its last slash up to index 100. */
  function SplitPath(rel: seq<byte>): (r: Result<Split>)
    ensures r.Ok? ==> |r.value.name| <= 100 && |r.value.prefix| <= 155
    ensures r.Ok? ==> rel == (if r.value.prefix == [] then r.value.name else r.value.prefix + [SLASH] + r.value.name)
    ensures r.Err? <==> |rel| > 100 && (LastSlash(rel, 100) <= 0 || |rel| - LastSlash(rel, 100) > 101)
  {
    if |rel| <= 100 then Ok(Split([], rel))
    else
      var cut := LastSlash(rel, 100);
      if cut <= 0 || |rel[cut + 1..]| > 100 || |rel[..cut]| > 155 then Err(PathTooLong(rel))
      else Ok(Split(rel[..cut], rel[cut + 1..]))
  }

  // ---------------------------------------------------------------- number lemmas

  function Pow8(k: nat): nat {
    if k == 0 then 1 else 8 * Pow8(k - 1)
  }

  lemma {:induction false} DigitsFit(n: nat, k: nat)
    requires n < Pow8(k) && k > 0
    ensures |Digits(n)| <= k
  {
    if n >= 8 {
      assert k > 1;
      DigitsFit(n / 8, k - 1);
    }
  }

  predicate Octit(b: byte) {
    48 <= b <= 55
  }

  /** The number a run of octal digits denotes, most significant first. */
  function Value(d: seq<byte>): nat
    requires forall i :: 0 <= i < |d| ==> Octit(d[i])
  {
    if d == [] then 0
    else
      assert Octit(d[|d| - 1]);
      Value(d[..|d| - 1]) * 8 + (d[|d| - 1] as int - 48)
  }

  lemma {:induction false} DigitsValue(n: nat)
    ensures forall i :: 0 <= i < |Digits(n)| ==> Octit(Digits(n)[i])
    ensures Value(Digits(n)) == n
  {
    if n < 8 {
      assert Digits(n)[..0] == [];
    } else {
      DigitsValue(n / 8);
      assert Digits(n)[..|Digits(n)| - 1] == Digits(n / 8);
    }
  }

  lemma {:induction false} LeadingZeros(z: nat, d: seq<byte>)
    requires forall i :: 0 <= i < |d| ==> Octit(d[i])
    ensures forall i :: 0 <= i < |Fill(ZERO, z) + d| ==> Octit((Fill(ZERO, z) + d)[i])
    ensures Value(Fill(ZERO, z) + d) == Value(d)
    decreases |d|, z
  {
    var all := Fill(ZERO, z) + d;
    if d != [] {
      assert all[..|all| - 1] == Fill(ZERO, z) + d[..|d| - 1];
      LeadingZeros(z, d[..|d| - 1]);
    } else if z > 0 {
      assert all[..|all| - 1] == Fill(ZERO, z - 1) + [];
      LeadingZeros(z - 1, []);
    }
  }

  lemma {:induction false} SumBound(s: seq<byte>)
    ensures Sum(s) <= 255 * |s|
  {
    if s != [] {
      SumBound(s[1..]);
    }
  }

  /** 512 bytes of at most 255 always fit six octal digits. */
  lemma ChecksumFits(h: seq<byte>)
    requires |h| == BLOCK
    ensures Sum(h) < 262144
    ensures |Digits(Sum(h))| <= 6
    ensures |Checksum(Sum(h))| == 8
  {
    SumBound(h);
    assert Pow8(6) == 262144 by {
      assert Pow8(3) == 512;
    }
    DigitsFit(Sum(h), 6);
  }

  // ---------------------------------------------------------------- the writer

  /** header, once the path is split */
  function Header(p: Split, size: nat, mode: nat): (h: seq<byte>)
    requires |p.name| <= 100 && |p.prefix| <= 155
    ensures |h| == BLOCK
  {
    var blank := Fields(p.name, p.prefix, size, mode, Fill(SPACE, 8));
    ChecksumFits(blank);
    Fields(p.name, p.prefix, size, mode, Checksum(Sum(blank)))
  }

  /** The zero bytes that follow a content up to the next block. */
  function Padding(size: nat): nat {
    if size % BLOCK == 0 then 0 else BLOCK - size % BLOCK
  }

  function Ceil(size: nat): nat {
    (size + BLOCK - 1) / BLOCK * BLOCK
  }

  /** Whether packEntries accepts an entry. */
  predicate Accepts(e: Entry) {
    |e.content| <= MAX_ENTRY && SplitPath(e.rel).Ok?
  }

  function Block(e: Entry): (b: seq<byte>)
    requires Accepts(e)
    ensures |b| == BLOCK + |e.content| + Padding(|e.content|)
  {
    Header(SplitPath(e.rel).value, |e.content|, e.mode) + e.content + Zeros(Padding(|e.content|))
  }

  /** The blocks of some entries, without the end marker. */
  function Blocks(es: seq<Entry>): seq<byte>
    requires forall i :: 0 <= i < |es| ==> Accepts(es[i])
  {
    if es == [] then [] else Block(es[0]) + Blocks(es[1..])
  }

  /** Code-unit order of paths. */
  predicate Le(a: seq<byte>, b: seq<byte>) {
    a == [] || (b != [] && (a[0] < b[0] || (a[0] == b[0] && Le(a[1..], b[1..]))))
  }

  function Insert(e: Entry, es: seq<Entry>): seq<Entry> {
    if es == [] || Le(e.rel, es[0].rel) then [e] + es else [es[0]] + Insert(e, es[1..])
  }

  /** The library's stable sort. */
  function Sort(es: seq<Entry>): seq<Entry> {
    if es == [] then [] else Insert(es[0], Sort(es[1..]))
  }

  function Rejection(e: Entry): Error
    requires !Accepts(e)
  {
    if |e.content| > MAX_ENTRY then EntryTooBig(e.rel) else PathTooLong(e.rel)
  }

  /** How many entries pass before the first rejected one. */
  function Accepted(es: seq<Entry>): (i: nat)
    ensures i <= |es|
    ensures forall j :: 0 <= j < i ==> Accepts(es[j])
    ensures i < |es| ==> !Accepts(es[i])
  {
    if es == [] || !Accepts(es[0]) then 0 else 1 + Accepted(es[1..])
  }

  /** What packEntries produces for entries already in order: it stops at the first it rejects. */
  function Image(es: seq<Entry>): (r: Result<seq<byte>>)
    ensures r.Ok? <==> forall i :: 0 <= i < |es| ==> Accepts(es[i])
    ensures r.Ok? ==> r.value == Blocks(es) + Zeros(2 * BLOCK)
  {
    var i := Accepted(es);
    if i < |es| then Err(Rejection(es[i])) else Ok(Blocks(es) + Zeros(2 * BLOCK))
  }

  // ---------------------------------------------------------------- the reader

  /** parseStr */
  function ParseStr(h: seq<byte>, off: nat, len: nat): seq<byte>
    requires off + len <= |h|
  {
    h[off..off + Until(h[off..off + len])]
  }

  /** Index of the first NUL, or the length. */
  function Until(s: seq<byte>): (i: nat)
    ensures i <= |s|
    ensures forall j :: 0 <= j < i ==> s[j] != 0
    ensures i < |s| ==> s[i] == 0
  {
    if s == [] || s[0] == 0 then 0 else 1 + Until(s[1..])
  }

  datatype Num = NaN | Int(v: int)

  predicate White(b: byte) {
    9 <= b <= 13 || b == 32
  }

  function TrimStart(s: seq<byte>): seq<byte> {
    if s != [] && White(s[0]) then TrimStart(s[1..]) else s
  }

  function TrimEnd(s: seq<byte>): seq<byte> {
    if s != [] && White(s[|s| - 1]) then TrimEnd(s[..|s| - 1]) else s
  }

  /** `.replace(/\0.*$/, "")`: from the first NUL that no line break follows. */
  function CutNul(s: seq<byte>): (r: seq<byte>)
    ensures r <= s
  {
    if s == [] then []
    else if s[0] == 0 && 10 !in s && 13 !in s then []
    else [s[0]] + CutNul(s[1..])
  }

  /** The longest run of octal digits in front. */
  function OctalPrefix(s: seq<byte>): (p: seq<byte>)
    ensures forall i :: 0 <= i < |p| ==> Octit(p[i])
  {
    if s != [] && Octit(s[0]) then [s[0]] + OctalPrefix(s[1..]) else []
  }

  function ParseInt8(s: seq<byte>): Num {
    var t := TrimStart(s);
    var neg := t != [] && t[0] == 45;
    var d := OctalPrefix(if t != [] && (t[0] == 45 || t[0] == 43) then t[1..] else t);
    if d == [] then NaN else Int(if neg then 0 - Value(d) as int else Value(d))
  }

  function Low7(s: seq<byte>): (r: seq<byte>)
    ensures |r| == |s| && forall i :: 0 <= i < |s| ==> r[i] == s[i] % 128
  {
    seq(|s|, i requires 0 <= i < |s| => s[i] % 128)
  }

  /** parseOctal; decoding as ascii drops the high bit. */
  function ParseOctal(h: seq<byte>, off: nat, len: nat): Num
    requires off + len <= |h|
  {
    ParseField(CutNul(Low7(h[off..off + len])))
  }

  function ParseField(f: seq<byte>): Num {
    var s := TrimEnd(TrimStart(f));
    if s == [] then Int(0) else ParseInt8(s)
  }

  predicate AllZero(h: seq<byte>) {
    forall i :: 0 <= i < |h| ==> h[i] == 0
  }

  /** Some component between slashes is `..`. */
  predicate HasDotDot(rel: seq<byte>) {
    exists i :: 0 <= i && i + 2 <= |rel| && rel[i] == DOT && rel[i + 1] == DOT
      && (i == 0 || rel[i - 1] == SLASH) && (i + 2 == |rel| || rel[i + 2] == SLASH)
  }

  predicate LegalPath(rel: seq<byte>) {
    rel != [] && rel[0] != SLASH && !HasDotDot(rel)
  }

  const EXEC: nat := 493    // 0755
  const PLAIN: nat := 420   // 0644

  /** `mode & 0o111 ? 0o755 : 0o644` */
  function KeptMode(mode: Num): nat {
    if mode.Int? && (mode.v % 2 == 1 || mode.v / 8 % 2 == 1 || mode.v / 64 % 2 == 1) then EXEC else PLAIN
  }

  function Rel(h: seq<byte>): seq<byte>
    requires |h| == BLOCK
  {
    var name := ParseStr(h, 0, 100);
    var prefix := ParseStr(h, 345, 155);
    if prefix != [] then prefix + [SLASH] + name else name
  }

  /** The header with its checksum field blanked. */
  function Blanked(h: seq<byte>): seq<byte>
    requires |h| == BLOCK
  {
    h[..148] + Fill(SPACE, 8) + h[156..]
  }

  function Min(a: int, b: int): int {
    if a < b then a else b
  }

  function Head(tar: seq<byte>, off: nat): (h: seq<byte>)
    requires off + BLOCK <= |tar|
    ensures |h| == BLOCK
  {
    tar[off..off + BLOCK]
  }

  /** The content behind a header; `subarray` stops at the end of the image. */
  function Data(tar: seq<byte>, off: nat, size: nat): seq<byte>
    requires off + BLOCK <= |tar|
  {
    tar[off + BLOCK..Min(off + BLOCK + size, |tar|)]
  }

  /** What unpackArtifact makes of the header at an offset. */
  datatype Found = End | Bad(error: Error) | Dir | File(entry: Entry, size: nat)

  function Look(tar: seq<byte>, off: nat, total: nat): (f: Found)
    ensures f.End? <==> off + BLOCK > |tar| || AllZero(Head(tar, off))
  {
    if off + BLOCK > |tar| || AllZero(Head(tar, off)) then End
    else
      var h := Head(tar, off);
      var rel := Rel(h);
      var size := ParseOctal(h, 124, 12);
      if ParseOctal(h, 148, 8) != Int(Sum(Blanked(h))) then Bad(BadChecksum(off))
      else if h[156] == 53 then Dir
      else if h[156] != ZERO && h[156] != 0 then Bad(NotRegular(rel))
      else if !LegalPath(rel) then Bad(Escape(rel))
      else if size.NaN? || size.v < 0 then Bad(OddSize(off))
      else if size.v > MAX_ENTRY then Bad(EntryTooBig(rel))
      else if total + size.v > MAX_TOTAL then Bad(TotalTooBig)
      else File(Entry(rel, Data(tar, off, size.v), KeptMode(ParseOctal(h, 100, 8))), size.v)
  }

  /** The loop of unpackArtifact from an offset, with what was read before it. */
  function UnpackFrom(tar: seq<byte>, off: nat, total: nat, written: seq<Entry>): Result<seq<Entry>>
    decreases |tar| - off
  {
    match Look(tar, off, total)
    case End => if written == [] then Err(Empty) else Ok(written)
    case Bad(error) => Err(error)
    case Dir => UnpackFrom(tar, off + BLOCK, total, written)
    case File(entry, size) => UnpackFrom(tar, off + BLOCK + Ceil(size), total + size, written + [entry])
  }

  /** unpackArtifact on a gunzipped image; gunzip refuses an image over the limit. */
  function Unpack(tar: seq<byte>): Result<seq<Entry>> {
    if |tar| > MAX_TOTAL then Err(ImageTooBig) else UnpackFrom(tar, 0, 0, [])
  }

  function ListFrom(tar: seq<byte>, off: nat, names: seq<seq<byte>>): Result<seq<seq<byte>>>
    decreases |tar| - off
  {
    if off + BLOCK > |tar| || AllZero(Head(tar, off)) then Ok(names)
    else
      var h := Head(tar, off);
      var size := ParseOctal(h, 124, 12);
      if size.NaN? || size.v < 0 then Err(OddSize(off))
      else ListFrom(tar, off + BLOCK + Ceil(size.v), names + [Rel(h)])
  }

  /** listArtifact on a gunzipped image */
  function List(tar: seq<byte>): Result<seq<seq<byte>>> {
    if |tar| > MAX_TOTAL then Err(ImageTooBig) else ListFrom(tar, 0, [])
  }

  // ---------------------------------------------------------------- reading a field back

  lemma {:induction false} CutField(d: seq<byte>, tail: seq<byte>)
    requires forall i :: 0 <= i < |d| ==> Octit(d[i])
    requires tail == [0] || tail == [0, SPACE]
    ensures CutNul(d + tail) == d
  {
    if d == [] {
      assert d + tail == tail;
    } else {
      assert (d + tail)[0] == d[0] && Octit(d[0]);
      assert (d + tail)[1..] == d[1..] + tail;
      CutField(d[1..], tail);
    }
  }

  lemma {:induction false} OctalPrefixAll(d: seq<byte>)
    requires forall i :: 0 <= i < |d| ==> Octit(d[i])
    ensures OctalPrefix(d) == d
  {
    if d != [] {
      assert Octit(d[0]);
      OctalPrefixAll(d[1..]);
    }
  }

  lemma DigitsAlone(d: seq<byte>)
    requires d != [] && forall i :: 0 <= i < |d| ==> Octit(d[i])
    ensures TrimStart(d) == d && TrimEnd(d) == d
    ensures ParseInt8(d) == Int(Value(d))
  {
    assert Octit(d[0]) && Octit(d[|d| - 1]);
    OctalPrefixAll(d);
  }

  lemma LowField(d: seq<byte>, tail: seq<byte>)
    requires forall i :: 0 <= i < |d| ==> Octit(d[i])
    requires tail == [0] || tail == [0, SPACE]
    ensures Low7(d + tail) == d + tail
  {
    forall i | 0 <= i < |d + tail| ensures (d + tail)[i] < 128 {
      assert i < |d| ==> Octit(d[i]);
    }
  }

  lemma ParseDigits(h: seq<byte>, off: nat, len: nat, d: seq<byte>, tail: seq<byte>)
    requires off + len <= |h| && h[off..off + len] == d + tail
    requires d != [] && forall i :: 0 <= i < |d| ==> Octit(d[i])
    requires tail == [0] || tail == [0, SPACE]
    ensures ParseOctal(h, off, len) == Int(Value(d))
  {
    LowField(d, tail);
    CutField(d, tail);
    DigitsAlone(d);
  }

  lemma PaddedDigits(n: nat, width: nat)
    requires n < Pow8(width) && width > 0
    ensures var d := PadStart(Digits(n), width);
      |d| == width && (forall i :: 0 <= i < |d| ==> Octit(d[i])) && Value(d) == n
  {
    DigitsFit(n, width);
    DigitsValue(n);
    LeadingZeros(width - |Digits(n)|, Digits(n));
    assert Fill(ZERO, 0) + Digits(n) == Digits(n);
  }

  lemma ParseOctalField(h: seq<byte>, off: nat, len: nat, n: nat)
    requires len > 1 && off + len <= |h| && h[off..off + len] == Octal(n, len) && n < Pow8(len - 1)
    ensures ParseOctal(h, off, len) == Int(n)
  {
    PaddedDigits(n, len - 1);
    var d := PadStart(Digits(n), len - 1);
    assert (d + [0])[..len] == d + [0];
    ParseDigits(h, off, len, d, [0]);
  }

  predicate NulFree(s: seq<byte>) {
    forall i :: 0 <= i < |s| ==> s[i] != 0
  }

  lemma ParseFit(h: seq<byte>, off: nat, len: nat, s: seq<byte>)
    requires off + len <= |h| && |s| <= len && h[off..off + len] == Fit(s, len) && NulFree(s)
    ensures ParseStr(h, off, len) == s
  {
    var f := h[off..off + len];
    assert f[..|s|] == s;
    assert forall j :: 0 <= j < |s| ==> f[j] == s[j];
    assert |s| < len ==> f[|s|] == 0;
    assert Until(f) == |s|;
    assert h[off..off + |s|] == f[..|s|];
  }

  // ---------------------------------------------------------------- reading a header back

  lemma FieldsParts(name: seq<byte>, prefix: seq<byte>, size: nat, mode: nat, check: seq<byte>)
    requires |name| <= 100 && |prefix| <= 155 && |check| == 8
    ensures var h := Fields(name, prefix, size, mode, check);
      && h[0..100] == Fit(name, 100)
      && h[100..108] == Octal(mode, 8)
      && h[124..136] == Octal(size, 12)
      && h[148..156] == check
      && h[156] == ZERO
      && h[257] == 117
      && h[345..500] == Fit(prefix, 155)
      && Blanked(h) == Fields(name, prefix, size, mode, Fill(SPACE, 8))
  {
    var front := Front(name, size, mode);
    var back := Back(prefix);
    var h := Fields(name, prefix, size, mode, check);
    assert h == front + check + back;
    assert Fields(name, prefix, size, mode, Fill(SPACE, 8)) == front + Fill(SPACE, 8) + back;
    assert h[..148] == front && h[148..156] == check && h[156..] == back;
    FrontParts(name, size, mode);
    BackParts(prefix);
    assert h[0..100] == front[0..100] && h[100..108] == front[100..108] && h[124..136] == front[124..136];
    assert h[345..500] == back[189..344];
  }

  lemma FrontParts(name: seq<byte>, size: nat, mode: nat)
    requires |name| <= 100
    ensures var f := Front(name, size, mode);
      f[0..100] == Fit(name, 100) && f[100..108] == Octal(mode, 8) && f[124..136] == Octal(size, 12)
  {
  }

  lemma BackParts(prefix: seq<byte>)
    requires |prefix| <= 155
    ensures var b := Back(prefix); b[0] == ZERO && b[101] == 117 && b[189..344] == Fit(prefix, 155)
  {
  }

  /** The limits of the header's own fields on an entry that packEntries accepts. */
  predicate Writable(e: Entry) {
    Accepts(e) && NulFree(e.rel) && e.mode < 2097152
  }

  lemma HeaderReads(e: Entry)
    requires Writable(e)
    ensures var h := Header(SplitPath(e.rel).value, |e.content|, e.mode);
      && !AllZero(h)
      && ParseOctal(h, 148, 8) == Int(Sum(Blanked(h)))
      && h[156] == ZERO
      && Rel(h) == e.rel
      && ParseOctal(h, 124, 12) == Int(|e.content|)
      && ParseOctal(h, 100, 8) == Int(e.mode)
  {
    var p := SplitPath(e.rel).value;
    var blank := Fields(p.name, p.prefix, |e.content|, e.mode, Fill(SPACE, 8));
    ChecksumFits(blank);
    var check := Checksum(Sum(blank));
    var h := Header(p, |e.content|, e.mode);
    FieldsParts(p.name, p.prefix, |e.content|, e.mode, check);
    Powers();
    PaddedDigits(Sum(blank), 6);
    ParseDigits(h, 148, 8, PadStart(Digits(Sum(blank)), 6), [0, SPACE]);
    ParseOctalField(h, 124, 12, |e.content|);
    ParseOctalField(h, 100, 8, e.mode);
    SplitNulFree(e.rel);
    ParseFit(h, 0, 100, p.name);
    ParseFit(h, 345, 155, p.prefix);
  }

  lemma Powers()
    ensures Pow8(6) == 262144 && Pow8(7) == 2097152 && Pow8(11) == 8589934592
  {
    assert Pow8(3) == 512;
    assert Pow8(6) == 8 * 8 * 8 * Pow8(3);
    assert Pow8(9) == 8 * 8 * 8 * Pow8(6);
    assert Pow8(11) == 8 * 8 * Pow8(9);
  }

  lemma SplitNulFree(rel: seq<byte>)
    requires SplitPath(rel).Ok? && NulFree(rel)
    ensures NulFree(SplitPath(rel).value.name) && NulFree(SplitPath(rel).value.prefix)
  {
  }
}
