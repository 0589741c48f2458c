/** Bytes and the numbers they stand for. */
module Octets {
  /** A byte keeps its value as bits; the case split is on its top bit. */
  lemma ByteRoundTrip(n: int)
    requires 0 <= n < 256
    ensures (n as bv8) as int == n
  {
    if n < 128 {
    } else {
    }
  }

  /** A number's low bytes, lowest first. */
  function Le(n: nat, width: nat): (bytes: seq<bv8>)
    ensures |bytes| == width
  {
    if width == 0 then [] else [(n % 256) as bv8] + Le(n / 256, width - 1)
  }

  function UnLe(bytes: seq<bv8>): nat {
    if bytes == [] then 0 else bytes[0] as int + 256 * UnLe(bytes[1..])
  }

  function Power(width: nat): nat {
    if width == 0 then 1 else 256 * Power(width - 1)
  }

  lemma {:induction false} LeRoundTrip(n: nat, width: nat)
    requires n < Power(width)
    ensures UnLe(Le(n, width)) == n
  {
    if width > 0 {
      LeRoundTrip(n / 256, width - 1);
      ByteRoundTrip(n % 256);
    }
  }

  lemma ByteBack(b: bv8)
    ensures 0 <= b as int < 256 && (b as int) as bv8 == b
  {
  }

  lemma LowDigit(low: nat, rest: nat)
    requires low < 256
    ensures (low + 256 * rest) % 256 == low && (low + 256 * rest) / 256 == rest
  {
  }

  /** Bytes are the low bytes of the number they stand for. */
  lemma {:induction false} UnLeRoundTrip(bytes: seq<bv8>)
    ensures UnLe(bytes) < Power(|bytes|) && Le(UnLe(bytes), |bytes|) == bytes
  {
    hide Le, UnLe, Power;
    NoBytes();
    if bytes != [] {
      var first, rest := bytes[0], bytes[1..];
      UnLeRoundTrip(rest);
      UnLeIs(bytes);
      OneByteMore(first, UnLe(rest), |rest|);
      assert bytes == [first] + rest;
    } else {
      assert bytes == [];
    }
  }

  lemma NoBytes()
    ensures UnLe([]) == 0 && Le(0, 0) == [] && Power(0) == 1
  {
  }

  lemma UnLeIs(bytes: seq<bv8>)
    requires bytes != []
    ensures UnLe(bytes) == bytes[0] as int + 256 * UnLe(bytes[1..])
  {
  }

  lemma OneByteMore(first: bv8, rest: nat, width: nat)
    requires rest < Power(width)
    ensures first as int + 256 * rest < Power(width + 1)
    ensures Le(first as int + 256 * rest, width + 1) == [first] + Le(rest, width)
  {
    hide Le;
    ByteBack(first);
    var low: nat := first as int;
    OneDigitMore(low, rest, width);
    assert low as bv8 == first;
  }

  lemma OneDigitMore(low: nat, rest: nat, width: nat)
    requires low < 256
    ensures rest < Power(width) ==> low + 256 * rest < Power(width + 1)
    ensures Le(low + 256 * rest, width + 1) == [low as bv8] + Le(rest, width)
  {
    hide Le;
    LowDigit(low, rest);
    LeIs(low + 256 * rest, width + 1);
  }

  lemma LeIs(n: nat, width: nat)
    requires width > 0
    ensures Le(n, width) == [(n % 256) as bv8] + Le(n / 256, width - 1)
  {
  }

  lemma Powers()
    ensures Power(2) == 0x1_0000 && Power(4) == 0x1_0000_0000 && Power(8) == 0x1_0000_0000_0000_0000
  {
    assert Power(2) == 256 * 256;
    assert Power(4) == 256 * (256 * Power(2));
    assert Power(6) == 256 * (256 * Power(4));
    assert Power(8) == 256 * (256 * Power(6));
  }

  /** A word's four bytes, lowest first. */
  function WordBytes(w: bv32): (bytes: seq<bv8>)
    ensures |bytes| == 4
  {
    [(w & 0xFF) as bv8, ((w >> 8) & 0xFF) as bv8, ((w >> 16) & 0xFF) as bv8, ((w >> 24) & 0xFF) as bv8]
  }

  function Word(bytes: seq<bv8>): bv32
    requires |bytes| == 4
  {
    (bytes[0] as bv32) | (bytes[1] as bv32 << 8) | (bytes[2] as bv32 << 16) | (bytes[3] as bv32 << 24)
  }

  lemma LowByte(a: bv8, b: bv8, c: bv8, d: bv8)
    ensures
      var w := (a as bv32) | (b as bv32 << 8) | (c as bv32 << 16) | (d as bv32 << 24);
      && (w & 0xFF) as bv8 == a && ((w >> 8) & 0xFF) as bv8 == b
      && ((w >> 16) & 0xFF) as bv8 == c && ((w >> 24) & 0xFF) as bv8 == d
  {
  }

  lemma BytesOfWord(bytes: seq<bv8>)
    requires |bytes| == 4
    ensures WordBytes(Word(bytes)) == bytes
  {
    LowByte(bytes[0], bytes[1], bytes[2], bytes[3]);
  }

  lemma WordRoundTrip(w: bv32)
    ensures Word(WordBytes(w)) == w
  {
  }
}
