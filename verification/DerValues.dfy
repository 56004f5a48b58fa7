/** INTEGER, OBJECT IDENTIFIER and time contents of runner/tls.ts, each against its own reader. */
module DerValues {
  import opened Options
  import opened Bytes

  // ---------------------------------------------------------------- INTEGER

  /** Leading zero octets go while the next octet keeps the sign bit clear. */
  function Strip(b: seq<byte>): seq<byte> {
    if |b| > 1 && b[0] == 0 && b[1] < 128 then Strip(b[1..]) else b
  }

  /** The contents that integer writes. */
  function IntegerBody(b: seq<byte>): seq<byte> {
    var s := Strip(b);
    if s != [] && s[0] >= 128 then [0] + s else s
  }

  /** integer, up to its tag */
  method IntegerContents(bytes: seq<byte>) returns (body: seq<byte>)
    ensures body == IntegerBody(bytes)
  {
    var i := 0;
    while i < |bytes| - 1 && bytes[i] == 0 && bytes[i + 1] < 128
      invariant i <= |bytes|
      invariant Strip(bytes[i..]) == Strip(bytes)
      decreases |bytes| - i
    {
      assert bytes[i..][1..] == bytes[i + 1..];
      i := i + 1;
    }
    body := bytes[i..];
    if body != [] && body[0] >= 128 {
      body := [0] + body;
    }
  }

  /** Two's complement, most significant octet first. */
  function Signed(c: seq<byte>): int
    requires c != []
  {
    if c[0] >= 128 then Nat(c) - Pow(256, |c|) else Nat(c)
  }

  /** Section 8.3.2: the first nine bits are not all equal. */
  predicate Minimal(c: seq<byte>) {
    c != [] && (|c| > 1 ==> !(c[0] == 0 && c[1] < 128) && !(c[0] == 255 && c[1] >= 128))
  }

  function ReadInteger(c: seq<byte>): Option<int> {
    if Minimal(c) then Some(Signed(c)) else None
  }

  lemma {:induction false} StripKeeps(b: seq<byte>)
    ensures Nat(Strip(b)) == Nat(b)
    ensures b != [] ==> Strip(b) != []
    ensures |Strip(b)| > 1 ==> !(Strip(b)[0] == 0 && Strip(b)[1] < 128)
  {
    if |b| > 1 && b[0] == 0 && b[1] < 128 {
      StripKeeps(b[1..]);
      NatZero(b[1..]);
      assert b == [0] + b[1..];
    }
  }

  /** Octets that are at least one denote the same non-negative number in the INTEGER that carries them. */
  lemma IntegerReads(b: seq<byte>)
    ensures ReadInteger(IntegerBody(b)) == Some(Nat(b)) <==> b != []
  {
    StripKeeps(b);
    NatZero(Strip(b));
  }

  /** No other contents denote that number. */
  lemma IntegerUnique(c: seq<byte>, b: seq<byte>)
    requires b != [] && ReadInteger(c) == Some(Nat(b))
    ensures c == IntegerBody(b)
  {
    var d := IntegerBody(b);
    IntegerReads(b);
    NatBelow(c);
    NatBelow(d);
    if |c| < |d| {
      Longer(c, d);
    } else if |d| < |c| {
      Longer(d, c);
    }
    NatInjective(c, d);
  }

  lemma {:induction false} PowGrows(i: nat, j: nat)
    requires i <= j
    ensures Pow(256, i) <= Pow(256, j)
  {
    if i < j {
      PowGrows(i, j - 1);
    }
  }

  /** Of two minimal contents without a sign, the longer denotes more. */
  lemma Longer(c: seq<byte>, d: seq<byte>)
    requires Minimal(c) && Minimal(d) && c[0] < 128 && d[0] < 128 && |c| < |d|
    ensures Nat(c) < Nat(d)
  {
    BelowHalf(c);
    AboveHalf(d);
    PowGrows(|c| - 1, |d| - 2);
  }

  lemma Scale(a: nat, b: nat, p: nat)
    requires a <= b
    ensures a * p <= b * p
  {
  }

  lemma BelowHalf(c: seq<byte>)
    requires c != [] && c[0] < 128
    ensures Nat(c) < 128 * Pow(256, |c| - 1)
  {
    NatFirst(c);
    NatBelow(c[1..]);
    Scale(c[0], 127, Pow(256, |c| - 1));
  }

  lemma AboveHalf(d: seq<byte>)
    requires |d| > 1 && !(d[0] == 0 && d[1] < 128)
    ensures Nat(d) >= 128 * Pow(256, |d| - 2)
  {
    var p := Pow(256, |d| - 2);
    NatFirst(d);
    NatFirst(d[1..]);
    assert Pow(256, |d| - 1) == 256 * p;
    if d[0] > 0 {
      Scale(1, d[0], 256 * p);
    } else {
      Scale(128, d[1], p);
    }
  }

  // ---------------------------------------------------------------- OBJECT IDENTIFIER

  /** Base 128, most significant first. */
  function Stack(n: nat): (s: seq<byte>)
    ensures s != [] && forall i :: 0 <= i < |s| ==> s[i] < 128
  {
    if n < 128 then [n] else Stack(n / 128) + [n % 128]
  }

  /** Every octet of a subidentifier but its last has the high bit. */
  function Mark(s: seq<byte>): (m: seq<byte>)
    requires forall i :: 0 <= i < |s| ==> s[i] < 128
    ensures |m| == |s|
  {
    seq(|s|, i requires 0 <= i < |s| => if i < |s| - 1 then s[i] + 128 else s[i])
  }

  function Arcs(rest: seq<nat>): seq<byte> {
    if rest == [] then [] else Mark(Stack(rest[0])) + Arcs(rest[1..])
  }

  /** The contents that oid writes: `Buffer.from` keeps the first octet modulo 256. */
  function OidBody(a: nat, b: nat, rest: seq<nat>): seq<byte> {
    [(40 * a + b) % 256] + Arcs(rest)
  }

  /** oid, up to its tag and the splitting of the dotted text */
  method OidContents(a: nat, b: nat, rest: seq<nat>) returns (out: seq<byte>)
    ensures out == OidBody(a, b, rest)
  {
    out := [(40 * a + b) % 256];
    var k := 0;
    while k < |rest|
      invariant k <= |rest|
      invariant out + Arcs(rest[k..]) == OidBody(a, b, rest)
    {
      var stack := Subidentifier(rest[k]);
      assert rest[k..][1..] == rest[k + 1..];
      assert out + (stack + Arcs(rest[k + 1..])) == out + stack + Arcs(rest[k + 1..]);
      out := out + stack;
      k := k + 1;
    }
  }

  /** The two inner loops of oid */
  method Subidentifier(n: nat) returns (stack: seq<byte>)
    ensures stack == Mark(Stack(n))
  {
    stack := [n % 128];
    var v := n;
    while v >= 128
      invariant stack != []
      invariant v < 128 ==> stack == Stack(n)
      invariant v >= 128 ==> Stack(v / 128) + stack == Stack(n)
    {
      v := v / 128;
      assert v >= 128 ==> Stack(v / 128) + [v % 128] + stack == Stack(v / 128) + ([v % 128] + stack);
      stack := [v % 128] + stack;
    }
    var i := 0;
    while i < |stack| - 1
      invariant i <= |stack| - 1 && |stack| == |Stack(n)|
      invariant forall j :: 0 <= j < |stack| ==> stack[j] == if j < i then Stack(n)[j] + 128 else Stack(n)[j]
    {
      stack := stack[i := stack[i] + 128];
      i := i + 1;
    }
  }

  /** Section 8.19.2: octets up to the first without the high bit. */
  function ReadSub(b: seq<byte>, acc: nat): (r: Option<(nat, seq<byte>)>)
    ensures r.Some? ==> |r.value.1| < |b|
  {
    if b == [] then None
    else if b[0] < 128 then Some((acc * 128 + b[0], b[1..]))
    else ReadSub(b[1..], acc * 128 + b[0] - 128)
  }

  /** Subidentifiers in the fewest octets, to the end. */
  function ReadSubs(b: seq<byte>): Option<seq<nat>>
    decreases |b|
  {
    if b == [] then Some([])
    else if b[0] == 128 then None
    else
      match ReadSub(b, 0)
      case None => None
      case Some((n, rest)) =>
        match ReadSubs(rest)
        case Some(more) => Some([n] + more)
        case None => None
  }

  /** Section 8.19.4: the first subidentifier stands for two arcs. */
  function ReadOid(b: seq<byte>): Option<seq<nat>> {
    match ReadSubs(b)
    case Some(subs) =>
      if subs == [] then None
      else
        var a := if subs[0] < 40 then 0 else if subs[0] < 80 then 1 else 2;
        Some([a, subs[0] - 40 * a] + subs[1..])
    case None => None
  }

  /** As a subidentifier whose last octet is still to come. */
  function High(n: nat): (s: seq<byte>)
    ensures s != []
  {
    if n < 128 then [n + 128] else High(n / 128) + [n % 128 + 128]
  }

  lemma {:induction false} HighReads(n: nat, rest: seq<byte>)
    ensures ReadSub(High(n) + rest, 0) == ReadSub(rest, n)
    ensures n > 0 ==> High(n)[0] > 128
  {
    if n < 128 {
      assert (High(n) + rest)[1..] == rest;
    } else {
      var last: seq<byte> := [n % 128 + 128];
      HighReads(n / 128, last + rest);
      assert High(n) + rest == High(n / 128) + (last + rest);
      assert (last + rest)[1..] == rest;
    }
  }

  lemma {:induction false} HighIs(n: nat)
    ensures |High(n)| == |Stack(n)| && forall i :: 0 <= i < |Stack(n)| ==> High(n)[i] == Stack(n)[i] + 128
  {
    if n >= 128 {
      HighIs(n / 128);
    }
  }

  lemma MarkIs(n: nat)
    requires n >= 128
    ensures Mark(Stack(n)) == High(n / 128) + [n % 128]
  {
    HighIs(n / 128);
  }

  lemma ArcReads(n: nat, rest: seq<byte>)
    ensures var b := Mark(Stack(n)) + rest;
      ReadSub(b, 0) == Some((n, rest)) && b != [] && b[0] != 128
  {
    var b := Mark(Stack(n)) + rest;
    if n < 128 {
      assert b[1..] == rest;
    } else {
      var last: seq<byte> := [n % 128];
      MarkIs(n);
      hide *;
      HighReads(n / 128, last + rest);
      assert b == High(n / 128) + (last + rest);
      LastRead(n % 128, rest, n / 128);
    }
  }

  lemma LastRead(last: byte, rest: seq<byte>, acc: nat)
    requires last < 128
    ensures ReadSub([last] + rest, acc) == Some((acc * 128 + last, rest))
  {
    assert ([last] + rest)[1..] == rest;
  }

  lemma {:induction false} ArcsRead(rest: seq<nat>)
    ensures ReadSubs(Arcs(rest)) == Some(rest)
  {
    if rest != [] {
      ArcReads(rest[0], Arcs(rest[1..]));
      ArcsRead(rest[1..]);
      assert rest == [rest[0]] + rest[1..];
    }
  }

  /** A high first octet swallows the next subidentifier: the arcs come out fewer, or not at all. */
  lemma FirstSwallows(first: byte, rest: seq<nat>)
    requires first >= 128
    ensures ReadSubs([first] + Arcs(rest)).Some? ==> |ReadSubs([first] + Arcs(rest)).value| == |rest|
  {
    var b := [first] + Arcs(rest);
    assert b[1..] == Arcs(rest);
    if rest != [] {
      var more := Arcs(rest[1..]);
      SubEnds(rest[0], more, first - 128);
      ArcsRead(rest[1..]);
    }
  }

  /** Whatever was read before, a subidentifier ends where it ends. */
  lemma SubEnds(n: nat, rest: seq<byte>, acc: nat)
    ensures ReadSub(Mark(Stack(n)) + rest, acc).Some? && ReadSub(Mark(Stack(n)) + rest, acc).value.1 == rest
  {
    ArcReads(n, rest);
    SameEnd(Mark(Stack(n)) + rest, 0, acc);
  }

  lemma {:induction false} SameEnd(b: seq<byte>, acc: nat, other: nat)
    requires ReadSub(b, acc).Some?
    ensures ReadSub(b, other).Some? && ReadSub(b, other).value.1 == ReadSub(b, acc).value.1
  {
    if b[0] >= 128 {
      SameEnd(b[1..], acc * 128 + b[0] - 128, other * 128 + b[0] - 128);
    }
  }

  /** The arcs come back exactly when the two first are an identifier's and fold into seven bits. */
  lemma OidReads(a: nat, b: nat, rest: seq<nat>)
    ensures ReadOid(OidBody(a, b, rest)) == Some([a, b] + rest)
      <==> 40 * a + b < 128 && a <= 2 && (a < 2 ==> b < 40)
  {
    var first := (40 * a + b) % 256;
    FirstReads(first, rest);
    Apart(a, b, if first < 40 then 0 else if first < 80 then 1 else 2, first, rest);
    hide Arcs, ReadOid;
  }

  lemma Apart(a: nat, b: nat, x: nat, first: nat, rest: seq<nat>)
    requires first >= 40 * x
    ensures [x, first - 40 * x] + rest == [a, b] + rest <==> a == x && b == first - 40 * x
  {
    var l, r := [x, first - 40 * x] + rest, [a, b] + rest;
    assert l[0] == x && l[1] == first - 40 * x && r[0] == a && r[1] == b;
  }

  lemma FirstReads(first: byte, rest: seq<nat>)
    ensures first < 128 ==>
      var x := if first < 40 then 0 else if first < 80 then 1 else 2;
      ReadOid([first] + Arcs(rest)) == Some([x, first - 40 * x] + rest)
    ensures first >= 128 ==> forall a, b :: ReadOid([first] + Arcs(rest)) != Some([a, b] + rest)
  {
    var body := [first] + Arcs(rest);
    if first < 128 {
      assert body[1..] == Arcs(rest);
      ArcsRead(rest);
      assert ReadSubs(body) == Some([first] + rest) && ([first] + rest)[1..] == rest;
    } else {
      FirstSwallows(first, rest);
      hide ReadSubs;
      forall a, b ensures ReadOid(body) != Some([a, b] + rest) {
        assert |[a, b] + rest| == |rest| + 2;
      }
    }
  }

  /** 2.48 is the first that does not fit: the octet 128 may not begin a subidentifier. */
  lemma OidTooFar()
    ensures ReadOid(OidBody(2, 48, [])) == None
  {
  }

  // ---------------------------------------------------------------- times

  const T_UTC: byte := 0x17
  const T_GEN: byte := 0x18
  const ZULU: byte := 90
  const MINUS: byte := 45

  /** What asn1Time reads off a Date, in UTC. */
  datatype Instant = Instant(year: int, month: nat, day: nat, hour: nat, minute: nat, second: nat)

  predicate Calendar(t: Instant) {
    1 <= t.month <= 12 && 1 <= t.day <= 31 && t.hour <= 23 && t.minute <= 59 && t.second <= 59
  }

  /** String(n) */
  function Decimal(n: nat): (s: seq<byte>)
    ensures s != [] && forall i :: 0 <= i < |s| ==> 48 <= s[i] <= 57
  {
    if n < 10 then [48 + n] else Decimal(n / 10) + [48 + n % 10]
  }

  function Zeroes(k: nat): (s: seq<byte>)
    ensures |s| == k && forall i :: 0 <= i < k ==> s[i] == 48
  {
    seq(k, _ => 48)
  }

  /** `String(n).padStart(w, "0")` */
  function Padded(n: int, w: nat): seq<byte> {
    var s := if n < 0 then [MINUS] + Decimal(-n) else Decimal(n);
    if |s| < w then Zeroes(w - |s|) + s else s
  }

  /** `y % 100`, which keeps the sign of y */
  function Rem100(y: int): int {
    if y < 0 then -((-y) % 100) else y % 100
  }

  function Pairs(ns: seq<nat>): seq<byte> {
    if ns == [] then [] else Padded(ns[0], 2) + Pairs(ns[1..])
  }

  function Clock(t: Instant): seq<byte> {
    Pairs([t.month, t.day, t.hour, t.minute, t.second]) + [ZULU]
  }

  /** asn1Time: tag and contents */
  function Time(t: Instant): (byte, seq<byte>) {
    if t.year < 2050 then (T_UTC, Padded(Rem100(t.year), 2) + Clock(t)) else (T_GEN, Padded(t.year, 4) + Clock(t))
  }

  function Digit(b: byte): Option<nat> {
    if 48 <= b <= 57 then Some(b - 48) else None
  }

  function Two(s: seq<byte>, i: nat): Option<nat>
    requires i + 2 <= |s|
  {
    match (Digit(s[i]), Digit(s[i + 1]))
    case (Some(x), Some(y)) => Some(10 * x + y)
    case _ => None
  }

  function ReadClock(year: int, s: seq<byte>): Option<Instant>
    requires |s| == 11
  {
    match (Two(s, 0), Two(s, 2), Two(s, 4), Two(s, 6), Two(s, 8))
    case (Some(mo), Some(d), Some(h), Some(mi), Some(sec)) =>
      var t := Instant(year, mo, d, h, mi, sec);
      if Calendar(t) && s[10] == ZULU then Some(t) else None
    case _ => None
  }

  /** UTCTime stands for 1950 to 2049, GeneralizedTime for the years from 2050. */
  function ReadTime(tag: byte, s: seq<byte>): Option<Instant> {
    if tag == T_UTC && |s| == 13 then
      match Two(s, 0)
      case Some(yy) => ReadClock(if yy >= 50 then 1900 + yy else 2000 + yy, s[2..])
      case None => None
    else if tag == T_GEN && |s| == 15 then
      match (Two(s, 0), Two(s, 2))
      case (Some(c), Some(yy)) => if 100 * c + yy < 2050 then None else ReadClock(100 * c + yy, s[4..])
      case _ => None
    else None
  }

  lemma TwoDigits(n: nat)
    requires n < 100
    ensures Padded(n, 2) == [48 + n / 10, 48 + n % 10]
  {
    assert n >= 10 ==> Decimal(n) == Decimal(n / 10) + [48 + n % 10];
  }

  lemma FourDigits(n: nat)
    requires 1000 <= n < 10000
    ensures Padded(n, 4) == Padded(n / 100, 2) + Padded(n % 100, 2)
  {
    assert Decimal(n) == Decimal(n / 10) + [48 + n % 10];
    assert Decimal(n / 10) == Decimal(n / 100) + [48 + n / 10 % 10];
    assert n / 10 / 10 == n / 100 && n % 100 / 10 == n / 10 % 10 && n % 100 % 10 == n % 10;
    TwoDigits(n / 100);
    TwoDigits(n % 100);
  }

  lemma ClockReads(year: int, t: Instant)
    requires Calendar(t)
    ensures |Clock(t)| == 11 && ReadClock(year, Clock(t)) == Some(t.(year := year))
  {
    var ns := [t.month, t.day, t.hour, t.minute, t.second];
    PairsRead(ns, [ZULU], 0);
    PairsRead(ns, [ZULU], 1);
    PairsRead(ns, [ZULU], 2);
    PairsRead(ns, [ZULU], 3);
    PairsRead(ns, [ZULU], 4);
    hide Pairs, Two;
  }

  lemma {:induction false} PairsRead(ns: seq<nat>, z: seq<byte>, i: nat)
    requires i < |ns| && forall j :: 0 <= j < |ns| ==> ns[j] < 100
    ensures |Pairs(ns)| == 2 * |ns|
    ensures Two(Pairs(ns) + z, 2 * i) == Some(ns[i])
  {
    TwoDigits(ns[0]);
    TwoFirst(ns[0], Pairs(ns[1..]), z);
    hide Padded, Two;
    if i > 0 {
      PairsRead(ns[1..], z, i - 1);
    } else if |ns| > 1 {
      PairsRead(ns[1..], z, 0);
    }
  }

  lemma TwoFirst(n: nat, q: seq<byte>, z: seq<byte>)
    requires n < 100
    ensures var s := Padded(n, 2) + q + z;
      Two(s, 0) == Some(n) && forall i :: 0 <= i && i + 2 <= |q + z| ==> Two(s, i + 2) == Two(q + z, i)
  {
    TwoDigits(n);
    hide Padded;
    var s := Padded(n, 2) + q + z;
    assert s[2..] == q + z;
    forall i | 0 <= i && i + 2 <= |q + z| ensures Two(s, i + 2) == Two(q + z, i) {
      assert s[i + 2] == s[2..][i] && s[i + 3] == s[2..][i + 1];
    }
  }

  lemma ReadRange(tag: byte, s: seq<byte>)
    requires ReadTime(tag, s).Some?
    ensures 1950 <= ReadTime(tag, s).value.year <= 9999
  {
  }

  /** A second comes back exactly when its year is one the two forms stand for. */
  lemma TimeReads(t: Instant)
    requires Calendar(t)
    ensures ReadTime(Time(t).0, Time(t).1) == Some(t) <==> 1950 <= t.year <= 9999
  {
    if 1950 <= t.year < 2050 {
      UtcReads(t);
    } else if 2050 <= t.year <= 9999 {
      GeneralizedReads(t);
    } else if ReadTime(Time(t).0, Time(t).1).Some? {
      ReadRange(Time(t).0, Time(t).1);
    }
  }

  lemma UtcReads(t: Instant)
    requires Calendar(t) && 1950 <= t.year < 2050
    ensures ReadTime(Time(t).0, Time(t).1) == Some(t)
  {
    hide Padded, Clock, ReadClock, Calendar;
    ClockReads(t.year, t);
    var yy := t.year % 100;
    TwoDigits(yy);
    assert Time(t) == (T_UTC, Padded(yy, 2) + Clock(t));
    assert Time(t).1[2..] == Clock(t);
  }

  lemma GeneralizedReads(t: Instant)
    requires Calendar(t) && 2050 <= t.year <= 9999
    ensures ReadTime(Time(t).0, Time(t).1) == Some(t)
  {
    ClockReads(t.year, t);
    FourDigits(t.year);
    TwoDigits(t.year / 100);
    TwoDigits(t.year % 100);
    hide Padded, Clock, ReadClock, Calendar;
    assert Time(t).1[4..] == Clock(t);
  }
}
