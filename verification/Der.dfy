/** The DER writer of runner/tls.ts against a reader written from ITU-T X.690, sections 8.1.3 and 10.1. */
module Der {
  import opened Options
  import opened Bytes

  /** Every length is a JavaScript number below 2^53. */
  const SAFE: nat := 9007199254740992

  // ---------------------------------------------------------------- lengths

  /** `0x80 | k` */
  function Or80(k: nat): nat {
    if k / 128 % 2 == 1 then k else k + 128
  }

  function DerLen(n: nat): (b: seq<byte>)
    ensures b != []
  {
    if n < 128 then [n] else [Or80(|Big(n)|) % 256] + Big(n)
  }

  /** derLen */
  method EncodeLength(n: nat) returns (b: seq<byte>)
    ensures b == DerLen(n)
  {
    if n < 128 {
      return [n];
    }
    var bytes: seq<byte> := [];
    var v := n;
    while v > 0
      invariant Big(v) + bytes == Big(n)
    {
      assert Big(v / 256) + [v % 256] + bytes == Big(v / 256) + ([v % 256] + bytes);
      bytes := [v % 256] + bytes;
      v := v / 256;
    }
    assert [] + bytes == bytes;
    b := [Or80(|bytes|) % 256] + bytes;
  }

  /** A length in the definite form of section 8.1.3, however many octets it takes. */
  function BerLength(b: seq<byte>): (r: Option<(nat, seq<byte>)>)
    ensures r.Some? ==> |r.value.1| < |b|
  {
    if b == [] then None
    else if b[0] < 128 then Some((b[0], b[1..]))
    else
      var k := b[0] - 128;
      if k == 0 || k == 127 || |b| < 1 + k then None else Some((Nat(b[1..1 + k]), b[1 + k..]))
  }

  /** As section 10.1 narrows it: the fewest octets. */
  function ReadLength(b: seq<byte>): (r: Option<(nat, seq<byte>)>)
    ensures r.Some? ==> |r.value.1| < |b|
  {
    match BerLength(b)
    case Some((n, rest)) => if b[0] >= 128 && (b[1] == 0 || n < 128) then None else Some((n, rest))
    case None => None
  }

  lemma SafeShort(n: nat)
    requires n < SAFE
    ensures |Big(n)| <= 7
  {
    assert Pow(256, 3) == 16777216;
    assert Pow(256, 6) == 256 * 256 * 256 * Pow(256, 3);
    BigShort(n, 7);
  }

  lemma LengthReads(n: nat, rest: seq<byte>)
    requires n < SAFE
    ensures ReadLength(DerLen(n) + rest) == Some((n, rest))
  {
    if n < 128 {
      assert (DerLen(n) + rest)[1..] == rest;
    } else {
      LongReads(n, rest);
    }
  }

  lemma LongReads(n: nat, rest: seq<byte>)
    requires 128 <= n < SAFE
    ensures ReadLength(DerLen(n) + rest) == Some((n, rest))
  {
    hide Big, Nat, BerLength, Pow;
    SafeShort(n);
    BigNat(n);
    LongForm(Big(n), rest);
  }

  lemma LongForm(v: seq<byte>, rest: seq<byte>)
    requires 0 < |v| < 127
    ensures var b := [128 + |v|] + v + rest;
      BerLength(b) == Some((Nat(v), rest)) && b[0] == 128 + |v| && b[1] == v[0]
  {
    hide Nat;
    Rejoin(128 + |v|, v, rest);
  }

  lemma Rejoin<T>(x: T, a: seq<T>, rest: seq<T>)
    ensures var b := [x] + a + rest; b[0] == x && b[1..1 + |a|] == a && b[1 + |a|..] == rest
  {
  }

  lemma Disjoin<T>(b: seq<T>, k: nat)
    requires 1 + k <= |b|
    ensures b == [b[0]] + b[1..1 + k] + b[1 + k..]
  {
  }

  lemma LengthCanonical(b: seq<byte>)
    requires ReadLength(b).Some?
    ensures b == DerLen(ReadLength(b).value.0) + ReadLength(b).value.1
  {
    if b[0] < 128 {
      assert b == [b[0]] + b[1..];
    } else {
      var k := b[0] - 128;
      NatBig(b[1..1 + k]);
      Disjoin(b, k);
      hide Big, Nat;
    }
  }

  /** No definite form of a length is shorter than derLen's. */
  lemma FewestOctets(b: seq<byte>, rest: seq<byte>, n: nat)
    requires BerLength(b + rest) == Some((n, rest))
    ensures |DerLen(n)| <= |b|
  {
    var all := b + rest;
    if all[0] >= 128 {
      var k := all[0] - 128;
      assert |all[1 + k..]| == |all| - 1 - k;
      NatBelow(all[1..1 + k]);
      BigShort(n, k);
    }
  }

  // ---------------------------------------------------------------- trees

  /** What nested values denote. The tag is one identifier octet. */
  datatype Node = Prim(tag: byte, content: seq<byte>) | Cons(tag: byte, kids: seq<Node>)

  predicate Constructed(tag: byte) {
    tag / 32 % 2 == 1
  }

  /** Tags in the one-octet form, and their constructed bit as the node says. */
  predicate Legal(t: Node) {
    match t
    case Prim(tag, _) => tag % 32 != 31 && !Constructed(tag)
    case Cons(tag, kids) => tag % 32 != 31 && Constructed(tag) && AllLegal(kids)
  }

  predicate AllLegal(kids: seq<Node>) {
    kids == [] || (Legal(kids[0]) && AllLegal(kids[1..]))
  }

  function Tlv(tag: byte, body: seq<byte>): (b: seq<byte>)
    ensures |b| >= 2 + |body|
  {
    [tag] + DerLen(|body|) + body
  }

  function Encode(t: Node): (b: seq<byte>)
    ensures |b| >= 2
  {
    match t
    case Prim(tag, content) => Tlv(tag, content)
    case Cons(tag, kids) => Tlv(tag, EncodeAll(kids))
  }

  function EncodeAll(kids: seq<Node>): seq<byte> {
    if kids == [] then [] else Encode(kids[0]) + EncodeAll(kids[1..])
  }

  /** The header and the contents of one value. */
  function Split(b: seq<byte>): (r: Option<(byte, seq<byte>, seq<byte>)>)
    ensures r.Some? ==> |r.value.1| + |r.value.2| + 2 <= |b|
  {
    if b == [] || b[0] % 32 == 31 then None
    else
      match ReadLength(b[1..])
      case Some((n, rest)) => if n > |rest| then None else Some((b[0], rest[..n], rest[n..]))
      case None => None
  }

  /** One value, and what follows it. */
  function Parse(b: seq<byte>): (r: Option<(Node, seq<byte>)>)
    ensures r.Some? ==> |r.value.1| < |b|
    decreases |b|, 0
  {
    match Split(b)
    case None => None
    case Some((tag, content, rest)) =>
      if !Constructed(tag) then Some((Prim(tag, content), rest))
      else
        match ParseAll(content)
        case Some(kids) => Some((Cons(tag, kids), rest))
        case None => None
  }

  /** Values up to the end. */
  function ParseAll(b: seq<byte>): Option<seq<Node>>
    decreases |b|, 1
  {
    if b == [] then Some([])
    else
      match Parse(b)
      case None => None
      case Some((t, rest)) =>
        match ParseAll(rest)
        case Some(ts) => Some([t] + ts)
        case None => None
  }

  lemma SplitReads(tag: byte, body: seq<byte>, rest: seq<byte>)
    requires tag % 32 != 31 && |body| < SAFE
    ensures Split(Tlv(tag, body) + rest) == Some((tag, body, rest))
  {
    var b := Tlv(tag, body) + rest;
    assert b[1..] == DerLen(|body|) + (body + rest);
    LengthReads(|body|, body + rest);
    assert (body + rest)[..|body|] == body && (body + rest)[|body|..] == rest;
  }

  lemma SplitCanonical(b: seq<byte>)
    requires Split(b).Some?
    ensures b == Tlv(Split(b).value.0, Split(b).value.1) + Split(b).value.2
  {
    LengthCanonical(b[1..]);
    hide ReadLength, DerLen;
    var (n, rest) := ReadLength(b[1..]).value;
    assert b == [b[0]] + b[1..];
    assert rest == rest[..n] + rest[n..];
  }

  /** A reader gets back exactly the tree that was written, and what followed it. */
  lemma {:induction false} DecodeEncode(t: Node, rest: seq<byte>)
    requires Legal(t) && |Encode(t)| < SAFE
    ensures Parse(Encode(t) + rest) == Some((t, rest))
    decreases t
  {
    match t
    case Prim(tag, content) =>
      SplitReads(tag, content, rest);
    case Cons(tag, kids) =>
      SplitReads(tag, EncodeAll(kids), rest);
      DecodeEncodeAll(kids);
  }

  lemma {:induction false} DecodeEncodeAll(kids: seq<Node>)
    requires AllLegal(kids) && |EncodeAll(kids)| < SAFE
    ensures ParseAll(EncodeAll(kids)) == Some(kids)
    decreases kids
  {
    if kids != [] {
      DecodeEncode(kids[0], EncodeAll(kids[1..]));
      DecodeEncodeAll(kids[1..]);
      assert kids == [kids[0]] + kids[1..];
    }
  }

  /** Whatever the reader accepts is the writer's own encoding of what it reads. */
  lemma {:induction false} EncodeDecode(b: seq<byte>)
    requires Parse(b).Some?
    ensures Legal(Parse(b).value.0)
    ensures b == Encode(Parse(b).value.0) + Parse(b).value.1
    decreases |b|, 0
  {
    SplitCanonical(b);
    var (tag, content, rest) := Split(b).value;
    if Constructed(tag) {
      EncodeDecodeAll(content);
    }
  }

  lemma {:induction false} EncodeDecodeAll(b: seq<byte>)
    requires ParseAll(b).Some?
    ensures AllLegal(ParseAll(b).value) && EncodeAll(ParseAll(b).value) == b
    decreases |b|, 1
  {
    if b != [] {
      EncodeDecode(b);
      EncodeDecodeAll(Parse(b).value.1);
    }
  }

  /** No encoding is a prefix of another, and different trees have different encodings. */
  lemma PrefixFree(t: Node, u: Node, a: seq<byte>, b: seq<byte>)
    requires Legal(t) && Legal(u) && |Encode(t)| < SAFE && |Encode(u)| < SAFE
    requires Encode(t) + a == Encode(u) + b
    ensures t == u && a == b
  {
    DecodeEncode(t, a);
    DecodeEncode(u, b);
  }
}
