/** The 32-bit FNV-1a hash that seeds a machine's MAC address: section 2 of
    draft-eastlake-fnv, "The FNV Non-Cryptographic Hash Algorithm". */
module Fnv {

  type byte = x: int | 0 <= x < 256
  type uint32 = x: int | 0 <= x < 0x1_0000_0000

  const OFFSET_BASIS: uint32 := 2166136261
  const PRIME: uint32 := 16777619

  /** Bitwise exclusive or of two naturals. */
  function Xor(a: nat, b: nat): nat
    decreases a + b
  {
    if a == 0 && b == 0 then 0 else 2 * Xor(a / 2, b / 2) + (a + b) % 2
  }

  /** One FNV-1a round: xor the octet in, then multiply modulo 2^32. */
  function Round(h: uint32, b: byte): uint32 {
    (Xor(h, b) * PRIME) % 0x1_0000_0000
  }

  /** The state after absorbing `data` octet by octet. */
  function Absorb(h: uint32, data: seq<byte>): uint32
    decreases |data|
  {
    if data == [] then h else Absorb(Round(h, data[0]), data[1..])
  }

  function Fnv1a(data: seq<byte>): uint32 {
    Absorb(OFFSET_BASIS, data)
  }

  /** The hash object: created at the offset basis, updated in place by Write. */
  class Digest {
    var sum: uint32

    constructor New32a()
      ensures sum == OFFSET_BASIS
    {
      sum := OFFSET_BASIS;
    }

    method Write(data: seq<byte>)
      modifies this
      ensures sum == Absorb(old(sum), data)
    {
      var i := 0;
      while i < |data|
        invariant 0 <= i <= |data|
        invariant Absorb(sum, data[i..]) == Absorb(old(sum), data)
      {
        assert data[i..][1..] == data[i + 1..];
        sum := Round(sum, data[i]);
        i := i + 1;
      }
    }
  }

  method Hash(name: seq<byte>) returns (h: uint32)
    ensures h == Fnv1a(name)
  {
    var digest := new Digest.New32a();
    digest.Write(name);
    h := digest.sum;
  }

  // ---------------------------------------------------------------- remainders

  lemma RemainderIsUnique(a: int, m: int, q: int, r: int)
    requires m > 0 && a == m * q + r && 0 <= r < m
    ensures a % m == r && a / m == q
  {
    var d := a / m - q;
    assert m * d == r - a % m by {
      assert m * d == m * (a / m) - m * q;
    }
    assert d == 0 by {
      assert -m < m * d < m;
      QuotientOfSmall(m, d);
    }
  }

  lemma QuotientOfSmall(m: int, d: int)
    requires -m < m * d < m
    ensures d == 0
  {
    MultipleIsLarge(m, d);
  }

  lemma MultipleIsLarge(m: int, d: int)
    ensures m > 0 && d >= 1 ==> m * d >= m
    ensures m > 0 && d <= -1 ==> m * d <= -m
  {
  }

  lemma DropMultiple(x: int, y: int, m: int, k: int)
    requires m > 0 && x == m * k + y
    ensures x % m == y % m
  {
    assert m * (k + y / m) == m * k + m * (y / m);
    RemainderIsUnique(x, m, k + y / m, y % m);
  }

  /** Numbers with the same remainder differ by a multiple. */
  lemma Difference(x: int, y: int, m: int)
    requires m > 0 && x % m == y % m
    ensures x - y == m * (x / m - y / m)
  {
    assert m * (x / m - y / m) == m * (x / m) - m * (y / m);
  }

  // ---------------------------------------------------------------- exclusive or

  lemma SumParity(a: nat, b: nat, x: nat, y: nat)
    requires x % 2 == a % 2 && y % 2 == b % 2
    ensures (x + y) % 2 == (a + b) % 2
  {
    Difference(x, a, 2);
    Difference(y, b, 2);
    DropMultiple(x + y, a + b, 2, x / 2 - a / 2 + (y / 2 - b / 2));
  }

  lemma XorHalves(a: nat, b: nat)
    ensures Xor(a, b) / 2 == Xor(a / 2, b / 2)
    ensures Xor(a, b) % 2 == (a + b) % 2
  {
  }

  function Bit(a: nat, k: nat): nat {
    if k == 0 then a % 2 else Bit(a / 2, k - 1)
  }

  /** Xor is the bitwise operation: every bit of the result is the sum of the two bits mod 2. */
  lemma {:induction false} XorBits(a: nat, b: nat, k: nat)
    ensures Bit(Xor(a, b), k) == (Bit(a, k) + Bit(b, k)) % 2
  {
    hide Xor;
    XorHalves(a, b);
    if k > 0 {
      XorBits(a / 2, b / 2, k - 1);
    } else {
      SumParity(a, b, a % 2, b % 2);
    }
  }

  lemma ParityCancels(a: nat, b: nat, x: nat)
    requires x % 2 == (a + b) % 2
    ensures (x + b) % 2 == a % 2
  {
    SumParity(a + b, b, x, b);
    DropMultiple(a + b + b, a, 2, b);
  }

  lemma {:induction false} XorCancels(a: nat, b: nat)
    ensures Xor(Xor(a, b), b) == a
    decreases a + b
  {
    if a != 0 || b != 0 {
      XorCancels(a / 2, b / 2);
      var x := Xor(a, b);
      XorHalves(a, b);
      XorHalves(x, b);
      assert Xor(x, b) / 2 == a / 2;
      ParityCancels(a, b, x);
    }
  }

  lemma {:induction false} XorCommutes(a: nat, b: nat)
    ensures Xor(a, b) == Xor(b, a)
    decreases a + b
  {
    if a != 0 || b != 0 {
      XorCommutes(a / 2, b / 2);
    }
  }

  function Pow2(k: nat): (m: nat)
    ensures m > 0
  {
    if k == 0 then 1 else 2 * Pow2(k - 1)
  }

  lemma HalveModulo(a: nat, m: nat)
    requires m > 0
    ensures a % (2 * m) == 2 * (a / 2 % m) + a % 2
  {
    var q, r := a / 2 / m, a / 2 % m;
    assert a == (2 * m) * q + (2 * r + a % 2) by {
      assert a / 2 == m * q + r;
      assert 2 * (m * q) == (2 * m) * q;
    }
    RemainderIsUnique(a, 2 * m, q, 2 * r + a % 2);
  }

  lemma XorModuloStep(a: nat, b: nat, m: nat, n: nat)
    requires m > 0 && n == 2 * m && Xor(a / 2, b / 2) % m == Xor(a / 2 % m, b / 2 % m)
    ensures Xor(a, b) % n == Xor(a % n, b % n)
  {
    hide Xor;
    var x, y, z := a % n, b % n, Xor(a, b);
    assert x / 2 == a / 2 % m && x % 2 == a % 2 by {
      HalveModulo(a, m);
      Halves(x, a / 2 % m, a % 2);
    }
    assert y / 2 == b / 2 % m && y % 2 == b % 2 by {
      HalveModulo(b, m);
      Halves(y, b / 2 % m, b % 2);
    }
    assert z % n == 2 * (z / 2 % m) + z % 2 by {
      HalveModulo(z, m);
    }
    XorHalves(a, b);
    XorHalves(x, y);
    SumParity(a, b, x, y);
  }

  lemma Halves(x: nat, q: nat, r: nat)
    requires x == 2 * q + r && r < 2
    ensures x / 2 == q && x % 2 == r
  {
  }

  /** The low k bits of an exclusive or depend only on the low k bits of the operands. */
  lemma {:induction false} XorModulo(a: nat, b: nat, k: nat)
    ensures Xor(a, b) % Pow2(k) == Xor(a % Pow2(k), b % Pow2(k))
  {
    if k > 0 && (a != 0 || b != 0) {
      XorModulo(a / 2, b / 2, k - 1);
      XorModuloStep(a, b, Pow2(k - 1), Pow2(k));
    } else if k > 0 {
      RemainderIsUnique(0, Pow2(k), 0, 0);
    }
  }

  // ------------------------------------------------- the low octet evolves on its own

  const LOW_PRIME: int := 0x93
  const LOW_PRIME_INVERSE: int := 155

  function LowRound(l: byte, b: byte): byte {
    (Xor(l, b) * LOW_PRIME) % 256
  }

  function LowAbsorb(l: byte, data: seq<byte>): byte
    decreases |data|
  {
    if data == [] then l else LowAbsorb(LowRound(l, data[0]), data[1..])
  }

  lemma LowXor(h: uint32, b: byte)
    ensures Xor(h, b) % 256 == Xor(h % 256, b)
  {
    hide Xor;
    XorModulo(h, b, 8);
    assert Pow2(8) == 256;
  }

  lemma RoundArithmetic(x: nat)
    ensures (x * PRIME) % 0x1_0000_0000 % 256 == (x % 256 * LOW_PRIME) % 256
  {
    var q, r := x / 256, x % 256;
    var y, k := x * PRIME, x * PRIME / 0x1_0000_0000;
    assert y == 256 * (65537 * x + LOW_PRIME * q) + r * LOW_PRIME;
    DropMultiple(y - 0x1_0000_0000 * k, r * LOW_PRIME, 256, 65537 * x + LOW_PRIME * q - 0x100_0000 * k);
  }

  /** An octet only changes the low octet of the state it is xored into. */
  lemma XorOctet(high: nat, low: byte, b: byte)
    requires high < 0x100_0000
    ensures Xor(256 * high + low, b) == 256 * high + Xor(low, b)
  {
    hide Xor;
    var h := 256 * high + low;
    LowXor(h, b);
    ShiftOut(h, b, 8);
    assert Pow2(8) == 256;
    RemainderIsUnique(h, 256, high, low);
  }

  lemma {:induction false} ShiftOut(a: nat, b: nat, k: nat)
    requires b < Pow2(k)
    ensures Xor(a, b) / Pow2(k) == a / Pow2(k)
    decreases k
  {
    if k == 0 {
      XorZero(a);
    } else {
      ShiftOut(a / 2, b / 2, k - 1);
      XorHalves(a, b);
      HalveQuotient(a, Pow2(k - 1));
      HalveQuotient(Xor(a, b), Pow2(k - 1));
    }
  }

  lemma {:induction false} XorZero(a: nat)
    ensures Xor(a, 0) == a
  {
    if a > 0 {
      XorZero(a / 2);
    }
  }

  lemma HalveQuotient(a: nat, m: nat)
    requires m > 0
    ensures a / (2 * m) == a / 2 / m
  {
    var q, r := a / 2 / m, a / 2 % m;
    assert a == (2 * m) * q + (2 * r + a % 2) by {
      assert 2 * (m * q) == (2 * m) * q;
    }
    RemainderIsUnique(a, 2 * m, q, 2 * r + a % 2);
  }

  lemma RoundLow(h: uint32, b: byte)
    ensures Round(h, b) % 256 == LowRound(h % 256, b)
  {
    hide Xor;
    LowXor(h, b);
    RoundArithmetic(Xor(h, b));
  }

  lemma {:induction false} AbsorbLow(h: uint32, data: seq<byte>)
    ensures Absorb(h, data) % 256 == LowAbsorb(h % 256, data)
    decreases |data|
  {
    if data != [] {
      RoundLow(h, data[0]);
      AbsorbLow(Round(h, data[0]), data[1..]);
    }
  }

  /** 0x93 * 155 == 256 * 89 + 1. */
  lemma CancelLowPrime(d: int, k: int)
    requires d * LOW_PRIME == 256 * k
    ensures d == 256 * (LOW_PRIME_INVERSE * k - 89 * d)
  {
  }

  lemma TimesLowPrimeIsInjective(x: int, y: int)
    requires (x * LOW_PRIME) % 256 == (y * LOW_PRIME) % 256
    ensures x % 256 == y % 256
  {
    var p, q := x * LOW_PRIME, y * LOW_PRIME;
    var k := p / 256 - q / 256;
    Difference(p, q, 256);
    CancelLowPrime(x - y, k);
    DropMultiple(x, y, 256, LOW_PRIME_INVERSE * k - 89 * (x - y));
  }

  lemma XorOfOctets(l: byte, b: byte)
    ensures Xor(l, b) < 256
  {
    hide Xor;
    LowXor(l, b);
  }

  lemma LowRoundFixesXor(l: byte, b: byte, l': byte, b': byte)
    requires LowRound(l, b) == LowRound(l', b')
    ensures Xor(l, b) == Xor(l', b')
  {
    hide Xor;
    XorOfOctets(l, b);
    XorOfOctets(l', b');
    OctetTimesLowPrime(Xor(l, b), Xor(l', b'));
  }

  lemma OctetTimesLowPrime(x: byte, y: byte)
    requires (x * LOW_PRIME) % 256 == (y * LOW_PRIME) % 256
    ensures x == y
  {
    TimesLowPrimeIsInjective(x, y);
    RemainderIsUnique(x, 256, 0, x);
    RemainderIsUnique(y, 256, 0, y);
  }

  /** For a fixed octet each low round is a permutation of the 256 states; for a fixed
      state it is a permutation of the octets. */
  lemma LowRoundIsInjective(l: byte, b: byte, l': byte, b': byte)
    requires LowRound(l, b) == LowRound(l', b')
    requires l == l' || b == b'
    ensures l == l' && b == b'
  {
    hide Xor, LowRound;
    LowRoundFixesXor(l, b, l', b');
    if b == b' {
      XorCancels(l, b);
      XorCancels(l', b');
    } else {
      XorCommutes(l, b);
      XorCommutes(l', b');
      XorCancels(b, l);
      XorCancels(b', l');
    }
  }

  lemma {:induction false} LowAbsorbIsInjective(l: byte, l': byte, data: seq<byte>)
    requires l != l'
    ensures LowAbsorb(l, data) != LowAbsorb(l', data)
    decreases |data|
  {
    if data != [] {
      if LowRound(l, data[0]) == LowRound(l', data[0]) {
        LowRoundIsInjective(l, data[0], l', data[0]);
      }
      LowAbsorbIsInjective(LowRound(l, data[0]), LowRound(l', data[0]), data[1..]);
    }
  }

  ghost predicate DifferInOneOctet(s: seq<byte>, t: seq<byte>) {
    |s| == |t| &&
    exists i :: 0 <= i < |s| && s[i] != t[i] && s[..i] == t[..i] && s[i + 1..] == t[i + 1..]
  }

  lemma {:induction false} LowAbsorbSeparates(l: byte, s: seq<byte>, t: seq<byte>, i: nat)
    requires |s| == |t| && i < |s|
    requires s[i] != t[i] && s[..i] == t[..i] && s[i + 1..] == t[i + 1..]
    ensures LowAbsorb(l, s) != LowAbsorb(l, t)
    decreases i
  {
    if i == 0 {
      if LowRound(l, s[0]) == LowRound(l, t[0]) {
        LowRoundIsInjective(l, s[0], l, t[0]);
      }
      LowAbsorbIsInjective(LowRound(l, s[0]), LowRound(l, t[0]), s[1..]);
    } else {
      assert s[0] == s[..i][0] == t[..i][0] == t[0];
      assert s[1..][..i - 1] == s[..i][1..] == t[..i][1..] == t[1..][..i - 1];
      assert s[1..][i..] == s[i + 1..] && t[1..][i..] == t[i + 1..];
      LowAbsorbSeparates(LowRound(l, s[0]), s[1..], t[1..], i - 1);
    }
  }

  /** Names of equal length that differ in exactly one octet hash to different low octets. */
  lemma OneOctetChangesLowHash(s: seq<byte>, t: seq<byte>)
    requires DifferInOneOctet(s, t)
    ensures Fnv1a(s) % 256 != Fnv1a(t) % 256
  {
    var i :| 0 <= i < |s| && s[i] != t[i] && s[..i] == t[..i] && s[i + 1..] == t[i + 1..];
    AbsorbLow(OFFSET_BASIS, s);
    AbsorbLow(OFFSET_BASIS, t);
    LowAbsorbSeparates(OFFSET_BASIS % 256, s, t, i);
  }
}
