/** Octets, and what a run of them denotes in base 256, most significant octet first. The writers of
    lengths and integers in runner/tls.ts and their readers share this one account of it. */
module Bytes {

  type byte = b: int | 0 <= b < 256

  function Pow(b: nat, k: nat): (p: nat)
    requires b > 0
    ensures p > 0
  {
    if k == 0 then 1 else b * Pow(b, k - 1)
  }

  /** The number of a big-endian run of octets. */
  function Nat(b: seq<byte>): nat {
    if b == [] then 0 else Nat(b[..|b| - 1]) * 256 + b[|b| - 1]
  }

  /** The shortest run that denotes a number; none at all for zero. */
  function Big(n: nat): seq<byte> {
    if n == 0 then [] else Big(n / 256) + [n % 256]
  }

  lemma {:induction false} BigNat(n: nat)
    ensures Nat(Big(n)) == n
    ensures n > 0 ==> Big(n) != [] && Big(n)[0] != 0
  {
    if n > 0 {
      BigNat(n / 256);
      assert Big(n)[..|Big(n)| - 1] == Big(n / 256);
    }
  }

  lemma {:induction false} NatBig(b: seq<byte>)
    requires b == [] || b[0] != 0
    ensures Big(Nat(b)) == b
    ensures b != [] ==> Nat(b) > 0
  {
    if b != [] {
      var init := b[..|b| - 1];
      NatBig(init);
      assert b == init + [b[|b| - 1]];
      assert Nat(b) / 256 == Nat(init) && Nat(b) % 256 == b[|b| - 1];
    }
  }

  lemma {:induction false} NatBelow(b: seq<byte>)
    ensures Nat(b) < Pow(256, |b|)
  {
    if b != [] {
      NatBelow(b[..|b| - 1]);
    }
  }

  lemma {:induction false} BigShort(n: nat, k: nat)
    requires n < Pow(256, k)
    ensures |Big(n)| <= k
  {
    if n > 0 {
      assert k > 0 && n / 256 < Pow(256, k - 1);
      BigShort(n / 256, k - 1);
    }
  }

  /** Leading zeros denote nothing. */
  lemma {:induction false} NatZero(b: seq<byte>)
    ensures Nat([0] + b) == Nat(b)
  {
    if b == [] {
      assert ([0] + b)[..0] == [];
    } else {
      assert ([0] + b)[..|b|] == [0] + b[..|b| - 1];
      NatZero(b[..|b| - 1]);
    }
  }

  /** Runs of one length that denote the same number are equal. */
  lemma {:induction false} NatInjective(a: seq<byte>, b: seq<byte>)
    requires |a| == |b| && Nat(a) == Nat(b)
    ensures a == b
  {
    if a != [] {
      var k := |a| - 1;
      assert Nat(a) % 256 == a[k] && Nat(b) % 256 == b[k];
      NatInjective(a[..k], b[..k]);
      assert a == a[..k] + [a[k]] && b == b[..k] + [b[k]];
    }
  }

  /** The first octet counts most. */
  lemma {:induction false} NatFirst(b: seq<byte>)
    requires b != []
    ensures Nat(b) == b[0] * Pow(256, |b| - 1) + Nat(b[1..])
  {
    if |b| == 1 {
      assert b[..0] == [] && b[1..] == [];
    } else {
      var init := b[..|b| - 1];
      NatFirst(init);
      assert init[1..] == b[1..][..|b| - 2];
      assert Pow(256, |b| - 1) == 256 * Pow(256, |b| - 2);
      assert b[0] * Pow(256, |b| - 1) == b[0] * Pow(256, |b| - 2) * 256;
    }
  }
}
