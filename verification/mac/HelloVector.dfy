/** The repository's own unit test vector, worked out round by round. */
module HelloVector {
  import opened Fnv
  import opened MacAddress
  import Protocol

  /** The address the repository's own unit test expects for the name "hello". */
  lemma HelloMac()
    ensures MacOf([104, 101, 108, 108, 111]) == "52:54:00:07:b9:ab"
  {
    hide Format, Octets, Fnv1a;
    HelloHash([104, 101, 108, 108, 111]);
    HelloFormat();
  }

  /** And the one in the job of a machine of that name. */
  lemma HelloJob(datacenter: string, userData: string)
    ensures Protocol.JobFor("hello", datacenter, userData).mac == "52:54:00:07:b9:ab"
  {
    hide MacOf;
    var octets := Protocol.OctetsOf("hello");
    assert octets == [104, 101, 108, 108, 111];
    HelloMac();
  }

  lemma HelloFormat()
    ensures Format(Octets(1335831723)) == "52:54:00:07:b9:ab"
  {
    assert Octets(1335831723) == [0x52, 0x54, 0, 7, 0xb9, 0xab];
    HelloDigits();
    hide Hex2;
  }

  lemma HelloDigits()
    ensures Hex2(0x52) == "52" && Hex2(0x54) == "54" && Hex2(0) == "00"
    ensures Hex2(7) == "07" && Hex2(0xb9) == "b9" && Hex2(0xab) == "ab"
  {
  }

  /** Each round: the state's upper bits, its low octet, the octet absorbed, their exclusive or,
      and quotient and remainder of the multiplication. */
  lemma HelloRounds()
    ensures Round(2166136261, 104) == 3977000791
    ensures Round(3977000791, 101) == 1547363254
    ensures Round(1547363254, 108) == 179613742
    ensures Round(179613742, 108) == 477198310
    ensures Round(477198310, 111) == 1335831723
  {
    hide Xor, Round;
    XorOf197And104();
    RoundOf(8461469, 197, 104, 173, 8461672, 3977000791);
    XorOf87And101();
    RoundOf(15535159, 87, 101, 50, 15535532, 1547363254);
    XorOf182And108();
    RoundOf(6044387, 182, 108, 218, 6044533, 179613742);
    XorOf46And108();
    RoundOf(701616, 46, 108, 66, 701633, 477198310);
    XorOf230And111();
    RoundOf(1864055, 230, 111, 137, 1864100, 1335831723);
  }

  lemma XorOf197And104()
    ensures Xor(197, 104) == 173
  {
    assert Xor(1, 0) == 1 && Xor(3, 1) == 2 && Xor(6, 3) == 5 && Xor(12, 6) == 10;
    assert Xor(24, 13) == 21 && Xor(49, 26) == 43 && Xor(98, 52) == 86;
  }

  lemma XorOf87And101()
    ensures Xor(87, 101) == 50
  {
    assert Xor(1, 1) == 0 && Xor(2, 3) == 1 && Xor(5, 6) == 3;
    assert Xor(10, 12) == 6 && Xor(21, 25) == 12 && Xor(43, 50) == 25;
  }

  lemma XorOf182And108()
    ensures Xor(182, 108) == 218
  {
    assert Xor(1, 0) == 1 && Xor(2, 1) == 3 && Xor(5, 3) == 6 && Xor(11, 6) == 13;
    assert Xor(22, 13) == 27 && Xor(45, 27) == 54 && Xor(91, 54) == 109;
  }

  lemma XorOf46And108()
    ensures Xor(46, 108) == 66
  {
    assert Xor(0, 1) == 1 && Xor(1, 3) == 2 && Xor(2, 6) == 4;
    assert Xor(5, 13) == 8 && Xor(11, 27) == 16 && Xor(23, 54) == 33;
  }

  lemma XorOf230And111()
    ensures Xor(230, 111) == 137
  {
    assert Xor(1, 0) == 1 && Xor(3, 1) == 2 && Xor(7, 3) == 4 && Xor(14, 6) == 8;
    assert Xor(28, 13) == 17 && Xor(57, 27) == 34 && Xor(115, 55) == 68;
  }

  lemma RoundOf(high: nat, low: byte, b: byte, x: int, q: int, r: uint32)
    requires high < 0x100_0000 && Xor(low, b) == x && (256 * high + x) * PRIME == 0x1_0000_0000 * q + r
    ensures Round(256 * high + low, b) == r
  {
    hide Xor;
    XorOctet(high, low, b);
    RemainderIsUnique((256 * high + x) * PRIME, 0x1_0000_0000, q, r);
  }

  lemma HelloHash(name: seq<byte>)
    requires name == [104, 101, 108, 108, 111]
    ensures Fnv1a(name) == 1335831723
  {
    hide Round;
    HelloRounds();
    assert name[1..] == [101, 108, 108, 111];
    assert name[1..][1..] == [108, 108, 111];
    assert name[1..][1..][1..] == [108, 111];
    assert name[1..][1..][1..][1..] == [111];
    assert name[1..][1..][1..][1..][1..] == [];
    assert Absorb(1335831723, []) == 1335831723;
    assert Absorb(477198310, [111]) == 1335831723;
    assert Absorb(179613742, [108, 111]) == 1335831723;
    assert Absorb(1547363254, [108, 108, 111]) == 1335831723;
    assert Absorb(3977000791, [101, 108, 108, 111]) == 1335831723;
  }
}
