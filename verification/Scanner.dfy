/** Eight bytes at a time: word arithmetic that agrees with a loop over bytes. */
module Scanner {
  import opened MuxTypes

  type word = bv64

  const ONES: word := 0x0101_0101_0101_0101
  const HIGHS: word := 0x8080_8080_8080_8080
  const DELS: word := 0x7f7f_7f7f_7f7f_7f7f

  /** Setting the high bits first keeps borrows inside their lane. */
  function GeMask(x: word, m: word): word { ((x | HIGHS) - ONES * m) & HIGHS }

  function EqDelMask(x: word): word {
    var y := x ^ DELS;
    (y - ONES) & !y & HIGHS
  }

  predicate Malformed(b: byte) { b < 0x20 || b == 0x7f }
  predicate Upper(b: byte) { 0x41 <= b <= 0x5a }

  predicate AnyMalformed(s: seq<byte>) { exists i | 0 <= i < |s| :: Malformed(s[i]) }
  predicate AnyUpper(s: seq<byte>) { exists i | 0 <= i < |s| :: Upper(s[i]) }

  /** Some byte of the word is below `m`, at least `m`, or equal to `v`. */
  predicate SomeBelow(x: word, m: word) {
    || x & 0xff < m || (x >> 8) & 0xff < m || (x >> 16) & 0xff < m || (x >> 24) & 0xff < m
    || (x >> 32) & 0xff < m || (x >> 40) & 0xff < m || (x >> 48) & 0xff < m || (x >> 56) & 0xff < m
  }

  predicate SomeWithin(x: word, lo: word, hi: word) {
    || lo <= x & 0xff < hi || lo <= (x >> 8) & 0xff < hi || lo <= (x >> 16) & 0xff < hi || lo <= (x >> 24) & 0xff < hi
    || lo <= (x >> 32) & 0xff < hi || lo <= (x >> 40) & 0xff < hi
    || lo <= (x >> 48) & 0xff < hi || lo <= (x >> 56) & 0xff < hi
  }

  predicate SomeIs(x: word, v: word) {
    || x & 0xff == v || (x >> 8) & 0xff == v || (x >> 16) & 0xff == v || (x >> 24) & 0xff == v
    || (x >> 32) & 0xff == v || (x >> 40) & 0xff == v || (x >> 48) & 0xff == v || (x >> 56) & 0xff == v
  }

  /** The control-byte test is exact although `ge_mask` only sees seven bits: lanes
      with a byte from 0x80 up are masked out and no borrow leaves a lane. */
  lemma BelowIsExact(x: word)
    ensures (GeMask(x, 0x20) ^ HIGHS) & !(x & HIGHS) != 0 <==> SomeBelow(x, 0x20)
  {}

  lemma UpperIsExact(x: word)
    ensures GeMask(x, 0x41) & !GeMask(x, 0x5b) & !(x & HIGHS) != 0 <==> SomeWithin(x, 0x41, 0x5b)
  {}

  /** `eq_del_mask` is exact as a test for zero. */
  lemma DelIsExact(x: word)
    ensures EqDelMask(x) != 0 <==> SomeIs(x, 0x7f)
  {}

  /** Lane by lane it is not: a DEL makes the `~` after it look like another. */
  lemma DelNotPerLane()
    ensures EqDelMask(0x7e7f) & 0x8000 != 0 && (0x7e7f as word >> 8) & 0xff != 0x7f
  {}

  /** Without masking the high lanes a UTF-8 continuation byte would pass for a
      control byte. */
  lemma HighLanesMatter()
    ensures (GeMask(HIGHS, 0x20) ^ HIGHS) != 0 && !SomeBelow(HIGHS, 0x20)
  {}

  /** Little-endian. */
  function Load(s: seq<byte>): word
    requires |s| >= 8
  {
    s[0] as word | ((s[1] as word) << 8) | ((s[2] as word) << 16) | ((s[3] as word) << 24)
    | ((s[4] as word) << 32) | ((s[5] as word) << 40) | ((s[6] as word) << 48) | ((s[7] as word) << 56)
  }

  /** What the tests say about the eight bytes a word is made of. */
  lemma LaneTests(a: byte, b: byte, c: byte, d: byte, e: byte, f: byte, g: byte, h: byte, x: word)
    requires x == a as word | ((b as word) << 8) | ((c as word) << 16) | ((d as word) << 24)
                  | ((e as word) << 32) | ((f as word) << 40) | ((g as word) << 48) | ((h as word) << 56)
    ensures SomeBelow(x, 0x20) || SomeIs(x, 0x7f) <==>
      (Malformed(a) || Malformed(b) || Malformed(c) || Malformed(d)
       || Malformed(e) || Malformed(f) || Malformed(g) || Malformed(h))
    ensures SomeWithin(x, 0x41, 0x5b) <==>
      (Upper(a) || Upper(b) || Upper(c) || Upper(d) || Upper(e) || Upper(f) || Upper(g) || Upper(h))
  {}

  lemma MalformedOfEight(s: seq<byte>)
    requires |s| == 8
    ensures AnyMalformed(s) <==>
      (Malformed(s[0]) || Malformed(s[1]) || Malformed(s[2]) || Malformed(s[3])
       || Malformed(s[4]) || Malformed(s[5]) || Malformed(s[6]) || Malformed(s[7]))
  { hide Malformed; }

  lemma UpperOfEight(s: seq<byte>)
    requires |s| == 8
    ensures AnyUpper(s) <==>
      (Upper(s[0]) || Upper(s[1]) || Upper(s[2]) || Upper(s[3])
       || Upper(s[4]) || Upper(s[5]) || Upper(s[6]) || Upper(s[7]))
  { hide Upper; }

  lemma LoadTests(s: seq<byte>)
    requires |s| == 8
    ensures SomeBelow(Load(s), 0x20) || SomeIs(Load(s), 0x7f) <==>
      (Malformed(s[0]) || Malformed(s[1]) || Malformed(s[2]) || Malformed(s[3])
       || Malformed(s[4]) || Malformed(s[5]) || Malformed(s[6]) || Malformed(s[7]))
    ensures SomeWithin(Load(s), 0x41, 0x5b) <==>
      (Upper(s[0]) || Upper(s[1]) || Upper(s[2]) || Upper(s[3])
       || Upper(s[4]) || Upper(s[5]) || Upper(s[6]) || Upper(s[7]))
  {
    hide SomeBelow, SomeIs, SomeWithin, Malformed, Upper;
    LaneTests(s[0], s[1], s[2], s[3], s[4], s[5], s[6], s[7], Load(s));
  }

  /** What the word tests say about the eight bytes they were loaded from. */
  lemma WordTests(s: seq<byte>)
    requires |s| == 8
    ensures SomeBelow(Load(s), 0x20) || SomeIs(Load(s), 0x7f) <==> AnyMalformed(s)
    ensures SomeWithin(Load(s), 0x41, 0x5b) <==> AnyUpper(s)
  {
    hide *;
    LoadTests(s);
    MalformedOfEight(s);
    UpperOfEight(s);
  }

  lemma AnyAppend(a: seq<byte>, b: seq<byte>)
    ensures AnyMalformed(a + b) <==> AnyMalformed(a) || AnyMalformed(b)
    ensures AnyUpper(a + b) <==> AnyUpper(a) || AnyUpper(b)
  {
    hide Malformed, Upper;
    assert forall i | 0 <= i < |a| :: (a + b)[i] == a[i];
    assert forall i | 0 <= i < |b| :: (a + b)[|a| + i] == b[i];
  }

  lemma AnyOne(b: byte)
    ensures AnyMalformed([b]) <==> Malformed(b)
    ensures AnyUpper([b]) <==> Upper(b)
  {
    assert [b][0] == b;
  }

  predicate WordMalformed(x: word) { (GeMask(x, 0x20) ^ HIGHS) & !(x & HIGHS) != 0 || EqDelMask(x) != 0 }
  predicate WordUpper(x: word) { GeMask(x, 0x41) & !GeMask(x, 0x5b) & !(x & HIGHS) != 0 }

  lemma ChunkTests(c: seq<byte>)
    requires |c| == 8
    ensures WordMalformed(Load(c)) <==> AnyMalformed(c)
    ensures WordUpper(Load(c)) <==> AnyUpper(c)
  {
    WordIs(Load(c));
    hide *;
    WordTests(c);
  }

  lemma WordIs(x: word)
    ensures WordMalformed(x) <==> SomeBelow(x, 0x20) || SomeIs(x, 0x7f)
    ensures WordUpper(x) <==> SomeWithin(x, 0x41, 0x5b)
  {
    hide GeMask, EqDelMask, SomeBelow, SomeIs, SomeWithin;
    BelowIsExact(x);
    DelIsExact(x);
    UpperIsExact(x);
  }

  /** Words first, then the tail byte by byte: exactly the per-byte answer, for
      every slice of every length. */
  method Classify(bytes: seq<byte>) returns (malformed: bool, hasUpper: bool)
    ensures malformed <==> AnyMalformed(bytes)
    ensures hasUpper <==> AnyUpper(bytes)
  {
    malformed, hasUpper := false, false;
    var i := 0;
    assert bytes[..0] == [];
    assert !AnyMalformed([]) && !AnyUpper([]);
    hide AnyMalformed, AnyUpper, Malformed, Upper, Load, WordMalformed, WordUpper;
    while |bytes| - i >= 8
      invariant i <= |bytes|
      invariant malformed <==> AnyMalformed(bytes[..i])
      invariant hasUpper <==> AnyUpper(bytes[..i])
    {
      var c := bytes[i..i + 8];
      var x := Load(c);
      ChunkTests(c);
      AnyAppend(bytes[..i], c);
      assert bytes[..i + 8] == bytes[..i] + c;
      malformed := malformed || WordMalformed(x);
      hasUpper := hasUpper || WordUpper(x);
      i := i + 8;
    }
    while i < |bytes|
      invariant i <= |bytes|
      invariant malformed <==> AnyMalformed(bytes[..i])
      invariant hasUpper <==> AnyUpper(bytes[..i])
    {
      var b := bytes[i];
      AnyOne(b);
      AnyAppend(bytes[..i], [b]);
      assert bytes[..i + 1] == bytes[..i] + [b];
      malformed := malformed || Malformed(b);
      hasUpper := hasUpper || Upper(b);
      i := i + 1;
    }
    assert bytes[..i] == bytes;
  }
}
