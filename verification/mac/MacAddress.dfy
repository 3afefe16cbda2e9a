/** The MAC address a machine's network card gets from its name, and exactly when two
    names share one. */
module MacAddress {
  import opened Common
  import opened Fnv

  /** 211 * 251 * 256, the number of distinct addresses. */
  const MODULUS: int := 13558016

  // -------------------------------------------------------------------- formatting

  function HexDigit(d: int): char
    requires 0 <= d < 16
  {
    "0123456789abcdef"[d]
  }

  function DigitValue(c: char): Option<int> {
    if '0' <= c <= '9' then Some(c as int - '0' as int)
    else if 'a' <= c <= 'f' then Some(c as int - 'a' as int + 10)
    else None
  }

  /** Two lower-case hexadecimal digits. */
  function Hex2(b: byte): (s: string)
    ensures |s| == 2
  {
    [HexDigit(b / 16), HexDigit(b % 16)]
  }

  /** Six two-digit octets with colons between them. */
  function Format(o: seq<byte>): string
    requires |o| == 6
  {
    var (a, b, c, d, e, f) := (Hex2(o[0]), Hex2(o[1]), Hex2(o[2]), Hex2(o[3]), Hex2(o[4]), Hex2(o[5]));
    [a[0], a[1], ':', b[0], b[1], ':', c[0], c[1], ':', d[0], d[1], ':', e[0], e[1], ':', f[0], f[1]]
  }

  function Octets(h: uint32): seq<byte> {
    [0x52, 0x54, 0, h % 211, h % 251, h % 256]
  }

  function MacOf(name: seq<byte>): string {
    Format(Octets(Fnv1a(name)))
  }

  method GetMacAddress(name: seq<byte>) returns (mac: string)
    ensures mac == MacOf(name)
  {
    var h := Hash(name);
    mac := Format([0x52, 0x54, 0, h % 211, h % 251, h % 256]);
  }

  /** Reads back the octet written at positions i and i + 1. */
  function OctetAt(s: string, i: nat): Option<byte>
    requires i + 1 < |s|
  {
    match (DigitValue(s[i]), DigitValue(s[i + 1]))
    case (Some(high), Some(low)) => Some(16 * high + low)
    case _ => None
  }

  function Parse(s: string): Option<seq<byte>> {
    if |s| != 17 || exists i | i in {2, 5, 8, 11, 14} :: s[i] != ':' then None
    else
      match (OctetAt(s, 0), OctetAt(s, 3), OctetAt(s, 6), OctetAt(s, 9), OctetAt(s, 12), OctetAt(s, 15))
      case (Some(a), Some(b), Some(c), Some(d), Some(e), Some(f)) => Some([a, b, c, d, e, f])
      case _ => None
  }

  lemma OctetRoundTrip(s: string, i: nat, b: byte)
    requires i + 1 < |s| && s[i..i + 2] == Hex2(b)
    ensures OctetAt(s, i) == Some(b)
  {
    assert s[i] == s[i..i + 2][0] && s[i + 1] == s[i..i + 2][1];
    DigitRoundTrip(b / 16);
    DigitRoundTrip(b % 16);
  }

  lemma DigitRoundTrip(d: int)
    requires 0 <= d < 16
    ensures DigitValue(HexDigit(d)) == Some(d)
  {
  }

  /** The 17-character string determines its six octets. */
  lemma FormatRoundTrip(o: seq<byte>)
    requires |o| == 6
    ensures |Format(o)| == 17 && Parse(Format(o)) == Some(o)
  {
    var s := Format(o);
    FormatLayout(o);
    OctetRoundTrip(s, 0, o[0]);
    OctetRoundTrip(s, 3, o[1]);
    OctetRoundTrip(s, 6, o[2]);
    OctetRoundTrip(s, 9, o[3]);
    OctetRoundTrip(s, 12, o[4]);
    OctetRoundTrip(s, 15, o[5]);
    ParseColons(s, o);
  }

  lemma ParseColons(s: string, o: seq<byte>)
    requires |o| == 6 && |s| == 17 && s[2] == s[5] == s[8] == s[11] == s[14] == ':'
    requires OctetAt(s, 0) == Some(o[0]) && OctetAt(s, 3) == Some(o[1]) && OctetAt(s, 6) == Some(o[2])
    requires OctetAt(s, 9) == Some(o[3]) && OctetAt(s, 12) == Some(o[4]) && OctetAt(s, 15) == Some(o[5])
    ensures Parse(s) == Some(o)
  {
    hide OctetAt;
    assert o == [o[0], o[1], o[2], o[3], o[4], o[5]];
  }

  lemma FormatLayout(o: seq<byte>)
    requires |o| == 6
    ensures var s := Format(o);
      |s| == 17 && s[2] == s[5] == s[8] == s[11] == s[14] == ':' &&
      s[0..2] == Hex2(o[0]) && s[3..5] == Hex2(o[1]) && s[6..8] == Hex2(o[2]) &&
      s[9..11] == Hex2(o[3]) && s[12..14] == Hex2(o[4]) && s[15..17] == Hex2(o[5])
  {
    hide HexDigit;
  }

  lemma FormatIsInjective(o: seq<byte>, o': seq<byte>)
    requires |o| == |o'| == 6 && Format(o) == Format(o')
    ensures o == o'
  {
    FormatRoundTrip(o);
    FormatRoundTrip(o');
  }

  // -------------------------------------------------------------------- collisions

  /** 211, 251 and 256 are pairwise coprime, so a common multiple is a multiple of the product. */
  lemma CommonMultiple(d: int, p: int, q: int, r: int)
    requires d == 211 * p && d == 251 * q && d == 256 * r
    ensures d == MODULUS * (33 * r - 6827 * (69 * q - 58 * p))
  {
  }

  lemma SameResidues(h: int, h': int)
    requires h % 211 == h' % 211 && h % 251 == h' % 251 && h % 256 == h' % 256
    ensures h % MODULUS == h' % MODULUS
  {
    var p, q, r := h / 211 - h' / 211, h / 251 - h' / 251, h / 256 - h' / 256;
    Difference(h, h', 211);
    Difference(h, h', 251);
    Difference(h, h', 256);
    CommonMultiple(h - h', p, q, r);
    DropMultiple(h, h', MODULUS, 33 * r - 6827 * (69 * q - 58 * p));
  }

  lemma SameModulus(h: int, h': int)
    requires h % MODULUS == h' % MODULUS
    ensures h % 211 == h' % 211 && h % 251 == h' % 251 && h % 256 == h' % 256
  {
    var k := h / MODULUS - h' / MODULUS;
    Difference(h, h', MODULUS);
    DropMultiple(h, h', 211, 64256 * k);
    DropMultiple(h, h', 251, 54016 * k);
    DropMultiple(h, h', 256, 52961 * k);
  }

  /** Two names share a MAC address exactly when their hashes agree modulo 13,558,016. */
  lemma CollisionIff(s: seq<byte>, t: seq<byte>)
    ensures MacOf(s) == MacOf(t) <==> Fnv1a(s) % MODULUS == Fnv1a(t) % MODULUS
  {
    var h, h' := Fnv1a(s), Fnv1a(t);
    if MacOf(s) == MacOf(t) {
      FormatIsInjective(Octets(h), Octets(h'));
      assert Octets(h)[3] == Octets(h')[3] && Octets(h)[4] == Octets(h')[4] && Octets(h)[5] == Octets(h')[5];
      SameResidues(h, h');
    } else if h % MODULUS == h' % MODULUS {
      SameModulus(h, h');
      assert false;
    }
  }

  /** Names of equal length that differ in exactly one octet never share a MAC address. */
  lemma OneOctetChangesMac(s: seq<byte>, t: seq<byte>)
    requires DifferInOneOctet(s, t)
    ensures MacOf(s) != MacOf(t)
  {
    OneOctetChangesLowHash(s, t);
    if MacOf(s) == MacOf(t) {
      CollisionIff(s, t);
      SameModulus(Fnv1a(s), Fnv1a(t));
      assert false;
    }
  }

  // -------------------------------------------------------------------- how many hashes reach an address

  /** The hash below 13,558,016 with the three given residues. */
  function Combine(a: int, b: int, c: int): (h: int)
    ensures 0 <= h < MODULUS
  {
    (a * 8353280 + b * 3457024 + c * 1747713) % MODULUS
  }

  lemma CombineHasResidues(a: int, b: int, c: int)
    requires 0 <= a < 211 && 0 <= b < 251 && 0 <= c < 256
    ensures Combine(a, b, c) % 211 == a && Combine(a, b, c) % 251 == b && Combine(a, b, c) % 256 == c
  {
    var q := (a * 8353280 + b * 3457024 + c * 1747713) / MODULUS;
    var h := Combine(a, b, c);
    assert h == a * 8353280 + b * 3457024 + c * 1747713 - MODULUS * q;
    Residue(h, 211, 39589 * a + 16384 * b + 8283 * c - 64256 * q, a);
    Residue(h, 251, 33280 * a + 13773 * b + 6963 * c - 54016 * q, b);
    Residue(h, 256, 32630 * a + 13504 * b + 6827 * c - 52961 * q, c);
  }

  lemma Residue(h: int, m: int, k: int, r: int)
    requires m in {211, 251, 256} && h == m * k + r && 0 <= r < m
    ensures h % m == r
  {
    RemainderIsUnique(h, m, k, r);
  }

  /** The hash values whose last three octets are a, b and c. */
  ghost function Preimage(a: int, b: int, c: int): set<int> {
    set h: int | 0 <= h < 0x1_0000_0000 && h % 211 == a && h % 251 == b && h % 256 == c
  }

  /** r, r + 13,558,016, r + 2 * 13,558,016, ...: the first n terms. */
  ghost function Progression(r: int, n: nat): set<int> {
    set k: int | 0 <= k < n :: r + MODULUS * k
  }

  lemma {:induction false} ProgressionSize(r: int, n: nat)
    ensures |Progression(r, n)| == n
  {
    if n > 0 {
      ProgressionSize(r, n - 1);
      assert Progression(r, n) == Progression(r, n - 1) + {r + MODULUS * (n - 1)};
      assert r + MODULUS * (n - 1) !in Progression(r, n - 1);
    }
  }

  /** How many terms of the progression are hashes. */
  function Terms(r: int): nat {
    if r < 10634240 then 317 else 316
  }

  lemma TermsFit(r: int, k: int)
    requires 0 <= r < MODULUS
    ensures 0 <= r + MODULUS * k < 0x1_0000_0000 <==> 0 <= k < Terms(r)
  {
  }

  lemma InPreimageIff(a: int, b: int, c: int, h: int)
    requires 0 <= a < 211 && 0 <= b < 251 && 0 <= c < 256
    ensures h in Preimage(a, b, c) <==> h in Progression(Combine(a, b, c), Terms(Combine(a, b, c)))
  {
    hide Combine, Terms;
    var r := Combine(a, b, c);
    CombineHasResidues(a, b, c);
    if h in Preimage(a, b, c) {
      SameResidues(h, r);
      RemainderIsUnique(r, MODULUS, 0, r);
      Difference(h, r, MODULUS);
      assert h == r + MODULUS * (h / MODULUS);
      TermsFit(r, h / MODULUS);
    }
    if h in Progression(r, Terms(r)) {
      var k :| 0 <= k < Terms(r) && h == r + MODULUS * k;
      TermsFit(r, k);
      DropMultiple(h, r, MODULUS, k);
      SameModulus(h, r);
    }
  }

  /** Every address is reached, by 316 or 317 of the 2^32 hash values: by 317 for exactly
      the 10,634,240 smallest combined residues. */
  lemma PreimageSize(a: int, b: int, c: int)
    requires 0 <= a < 211 && 0 <= b < 251 && 0 <= c < 256
    ensures |Preimage(a, b, c)| == if Combine(a, b, c) < 10634240 then 317 else 316
  {
    hide Combine, Preimage, Progression;
    var r := Combine(a, b, c);
    forall h
      ensures h in Preimage(a, b, c) <==> h in Progression(r, Terms(r))
    {
      InPreimageIff(a, b, c, h);
    }
    assert Preimage(a, b, c) == Progression(r, Terms(r));
    ProgressionSize(r, Terms(r));
  }
}
