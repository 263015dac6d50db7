// The reflected, table-driven CRC-32 that stamps log records (section 8 of
// RFC 1952; clause 3.2.9 of IEEE 802.3).  A 32-bit word is the sequence of its
// bits, least significant first.
module Crc {
  import opened Prelude

  type Word = s: seq<bool> | |s| == 32 witness Zeros(32)

  function Zeros(n: nat): seq<bool> {
    seq(n, _ => false)
  }

  // The i-th binary digit of x.
  predicate Digit(x: nat, i: nat)
    decreases i
  {
    if i == 0 then x % 2 == 1 else Digit(x / 2, i - 1)
  }

  function Bits(n: nat, x: nat): (s: seq<bool>)
    ensures |s| == n
  {
    seq(n, i requires 0 <= i < n => Digit(x, i))
  }

  // The number whose binary digits are s.
  function Value(s: seq<bool>): nat {
    if s == [] then 0 else (if s[0] then 1 else 0) + 2 * Value(s[1..])
  }

  const CRC32_IEEE: Word := Bits(32, 0xEDB88320)
  const INITIAL_REMAINDER: Word := Bits(32, 0xFFFFFFFF)
  const FINAL_XOR_VALUE: Word := Bits(32, 0xFFFFFFFF)

  function Xor(a: Word, b: Word): Word {
    seq(32, i requires 0 <= i < 32 => a[i] != b[i])
  }

  // a >> n
  function ShiftRight(a: Word, n: nat): Word
    requires n <= 32
  {
    a[n..] + Zeros(n)
  }

  // s, as the low bits of a word
  function Pad(s: seq<bool>): Word
    requires |s| <= 32
  {
    s + Zeros(32 - |s|)
  }

  // ------------------------------------------- reference: one bit at a time

  // Shift one bit out and, if it was set, fold the polynomial in.
  function BitStep(c: Word): Word {
    if c[0] then Xor(CRC32_IEEE, ShiftRight(c, 1)) else ShiftRight(c, 1)
  }

  function Steps(n: nat, c: Word): Word
    decreases n
  {
    if n == 0 then c else Steps(n - 1, BitStep(c))
  }

  function FeedByte(c: Word, b: byte): Word {
    Steps(8, Xor(c, Pad(Bits(8, b))))
  }

  function Feed(c: Word, buf: seq<byte>): Word
    decreases |buf|
  {
    if buf == [] then c else Feed(FeedByte(c, buf[0]), buf[1..])
  }

  function Crc32(buf: seq<byte>): Word {
    Xor(Feed(INITIAL_REMAINDER, buf), FINAL_XOR_VALUE)
  }

  // ------------------------------------------------ a step is linear and 1-1

  lemma StepAt(c: Word, i: nat)
    requires i < 32
    ensures BitStep(c)[i] == ((c[0] && CRC32_IEEE[i]) != (i < 31 && c[i + 1]))
  {
  }

  lemma StepLinear(a: Word, b: Word)
    ensures BitStep(Xor(a, b)) == Xor(BitStep(a), BitStep(b))
  {
    forall i | 0 <= i < 32 ensures BitStep(Xor(a, b))[i] == Xor(BitStep(a), BitStep(b))[i] {
      StepAt(a, i);
      StepAt(b, i);
      StepAt(Xor(a, b), i);
    }
  }

  lemma DigitEight(x: nat, i: nat)
    ensures Digit(x, i + 8) == Digit(x / 256, i)
  {
    assert Digit(x, i + 8) == Digit(x / 2 / 2, i + 6) == Digit(x / 2 / 2 / 2 / 2, i + 4);
    assert Digit(x / 16, i + 4) == Digit(x / 16 / 2 / 2, i + 2) == Digit(x / 16 / 2 / 2 / 2 / 2, i);
  }

  lemma DigitMore(x: nat, y: nat, z: nat, i: nat)
    requires x / 256 == y && y / 256 == z
    ensures Digit(x, i + 16) == Digit(z, i)
  {
    DigitEight(x, i + 8);
    DigitEight(y, i);
  }

  // The exponents of the generator polynomial below 32
  // (clause 3.2.9 of IEEE 802.3; section 8 of RFC 1952).
  predicate IsExponent(e: int) {
    e in {26, 23, 22, 16, 12, 11, 10, 8, 7, 5, 4, 2, 1, 0}
  }

  lemma Byte0(i: nat)
    requires i < 8
    ensures Digit(0xEDB88320, i) <==> IsExponent(31 - i)
  {
    assert !Digit(0xEDB88320, 0); assert !Digit(0xEDB88320, 1);
    assert !Digit(0xEDB88320, 2); assert !Digit(0xEDB88320, 3);
    assert !Digit(0xEDB88320, 4); assert Digit(0xEDB88320, 5);
    assert !Digit(0xEDB88320, 6); assert !Digit(0xEDB88320, 7);
  }

  lemma Byte1(i: nat)
    requires i < 8
    ensures Digit(0xEDB883, i) <==> IsExponent(23 - i)
  {
    assert Digit(0xEDB883, 0); assert Digit(0xEDB883, 1); assert !Digit(0xEDB883, 2); assert !Digit(0xEDB883, 3);
    assert !Digit(0xEDB883, 4); assert !Digit(0xEDB883, 5); assert !Digit(0xEDB883, 6); assert Digit(0xEDB883, 7);
  }

  lemma Byte2(i: nat)
    requires i < 8
    ensures Digit(0xEDB8, i) <==> IsExponent(15 - i)
  {
    assert !Digit(0xEDB8, 0); assert !Digit(0xEDB8, 1); assert !Digit(0xEDB8, 2); assert Digit(0xEDB8, 3);
    assert Digit(0xEDB8, 4); assert Digit(0xEDB8, 5); assert !Digit(0xEDB8, 6); assert Digit(0xEDB8, 7);
  }

  lemma Byte3(i: nat)
    requires i < 8
    ensures Digit(0xED, i) <==> IsExponent(7 - i)
  {
    assert Digit(0xED, 0); assert !Digit(0xED, 1); assert Digit(0xED, 2); assert Digit(0xED, 3);
    assert !Digit(0xED, 4); assert Digit(0xED, 5); assert Digit(0xED, 6); assert Digit(0xED, 7);
  }

  lemma SecondByte(i: nat)
    requires 8 <= i < 16
    ensures Digit(0xEDB88320, i) <==> IsExponent(31 - i)
  {
    DigitEight(0xEDB88320, i - 8);
    Byte1(i - 8);
  }

  lemma ThirdByte(i: nat)
    requires 16 <= i < 24
    ensures Digit(0xEDB88320, i) <==> IsExponent(31 - i)
  {
    DigitMore(0xEDB88320, 0xEDB883, 0xEDB8, i - 16);
    Byte2(i - 16);
  }

  lemma FourthByte(i: nat)
    requires 24 <= i < 32
    ensures Digit(0xEDB88320, i) <==> IsExponent(31 - i)
  {
    DigitMore(0xEDB88320, 0xEDB883, 0xEDB8, i - 16);
    DigitEight(0xEDB8, i - 24);
    Byte3(i - 24);
  }

  // Bit i is the coefficient of the power 31 - i.
  lemma PolynomialIsIeee(i: nat)
    requires i < 32
    ensures CRC32_IEEE[i] <==> IsExponent(31 - i)
  {
    assert Digit(0xEDB88320, i) <==> IsExponent(31 - i) by {
      if i < 8 { Byte0(i); } else if i < 16 { SecondByte(i); } else if i < 24 { ThirdByte(i); } else { FourthByte(i); }
    }
  }

  // The polynomial's top bit is set, so a step loses nothing.
  lemma StepInjective(a: Word, b: Word)
    requires BitStep(a) == BitStep(b)
    ensures a == b
  {
    PolynomialIsIeee(31);
    StepAt(a, 31);
    StepAt(b, 31);
    forall i | 0 <= i < 32 ensures a[i] == b[i] {
      if i > 0 {
        StepAt(a, i - 1);
        StepAt(b, i - 1);
      }
    }
  }

  lemma {:induction false} StepsLinear(n: nat, a: Word, b: Word)
    ensures Steps(n, Xor(a, b)) == Xor(Steps(n, a), Steps(n, b))
    decreases n
  {
    if n > 0 {
      StepLinear(a, b);
      StepsLinear(n - 1, BitStep(a), BitStep(b));
    }
  }

  lemma {:induction false} StepsInjective(n: nat, a: Word, b: Word)
    requires Steps(n, a) == Steps(n, b)
    ensures a == b
    decreases n
  {
    if n > 0 {
      StepsInjective(n - 1, BitStep(a), BitStep(b));
      StepInjective(a, b);
    }
  }

  lemma {:induction false} StepsAdd(m: nat, n: nat, c: Word)
    ensures Steps(m + n, c) == Steps(n, Steps(m, c))
    decreases m
  {
    if m > 0 { StepsAdd(m - 1, n, BitStep(c)); }
  }

  // -------------------------------------------------------- the table form

  // Clear low bits are shifted out without touching the polynomial.
  lemma {:induction false} ClearSteps(n: nat, c: Word)
    requires n <= 32 && forall i :: 0 <= i < n ==> !c[i]
    ensures Steps(n, c) == ShiftRight(c, n)
    decreases n
  {
    if n > 0 {
      ClearSteps(n - 1, BitStep(c));
      assert ShiftRight(ShiftRight(c, 1), n - 1) == ShiftRight(c, n);
    } else {
      assert ShiftRight(c, 0) == c;
    }
  }

  // One table lookup replaces eight bit steps.
  lemma TableStep(c: Word, b: byte)
    ensures var x := Xor(c, Pad(Bits(8, b)));
            FeedByte(c, b) == Xor(Steps(8, Pad(x[..8])), ShiftRight(c, 8))
  {
    var x := Xor(c, Pad(Bits(8, b)));
    SplitLowByte(c, Bits(8, b));
    StepsLinear(8, Pad(x[..8]), Zeros(8) + x[8..]);
    ClearSteps(8, Zeros(8) + x[8..]);
  }

  lemma SplitLowByte(c: Word, low: seq<bool>)
    requires |low| == 8
    ensures var x := Xor(c, Pad(low));
            x == Xor(Pad(x[..8]), Zeros(8) + x[8..]) && ShiftRight(Zeros(8) + x[8..], 8) == ShiftRight(c, 8)
  {
    var x := Xor(c, Pad(low));
    forall i | 8 <= i < 32 ensures x[i] == c[i] {}
    assert x[8..] == c[8..];
    forall i | 0 <= i < 32 ensures x[i] == Xor(Pad(x[..8]), Zeros(8) + x[8..])[i] {}
  }

  lemma {:induction false} BitsOfValue(s: seq<bool>)
    ensures Bits(|s|, Value(s)) == s
  {
    if s != [] {
      BitsOfValue(s[1..]);
      var x := Value(s);
      assert x / 2 == Value(s[1..]);
      forall i | 0 <= i < |s| ensures Bits(|s|, x)[i] == s[i] {
        if i > 0 { assert Bits(|s| - 1, x / 2)[i - 1] == s[1..][i - 1]; }
      }
    }
  }

  lemma {:induction false} ValueBound(s: seq<bool>, n: nat)
    requires |s| == n <= 8
    ensures Value(s) < Pow2(n)
  {
    if n > 0 { ValueBound(s[1..], n - 1); }
  }

  function Pow2(n: nat): nat {
    if n == 0 then 1 else 2 * Pow2(n - 1)
  }

  // What eight bit steps make of a byte.
  function Entry(i: nat): Word {
    Steps(8, Pad(Bits(8, i)))
  }

  ghost predicate IsTable(tab: seq<Word>) {
    |tab| == 256 && forall i :: 0 <= i < 256 ==> tab[i] == Entry(i)
  }

  lemma Lookup(tab: seq<Word>, crc: Word, b: byte)
    requires IsTable(tab)
    ensures var k := Value(Xor(crc, Pad(Bits(8, b)))[..8]);
            k < 256 && Xor(tab[k], ShiftRight(crc, 8)) == FeedByte(crc, b)
  {
    var low := Xor(crc, Pad(Bits(8, b)))[..8];
    TableStep(crc, b);
    BitsOfValue(low);
    ValueBound(low, 8);
    assert Pow2(8) == 256;
  }

  // CRCBase: the inner loop of the constructor.
  method TableEntry(i: nat) returns (c: Word)
    ensures c == Entry(i)
  {
    c := Pad(Bits(8, i));
    ghost var c0 := c;
    var j := 0;
    while j < 8
      invariant 0 <= j <= 8 && Steps(8 - j, c) == Steps(8, c0)
    {
      c := if c[0] then Xor(CRC32_IEEE, ShiftRight(c, 1)) else ShiftRight(c, 1);
      j := j + 1;
    }
  }

  // CRCBase: the outer loop.
  method MakeTable() returns (tab: array<Word>)
    ensures IsTable(tab[..])
  {
    tab := new Word[256](_ => Zeros(32));
    var i := 0;
    while i < 256
      invariant 0 <= i <= 256
      invariant forall k :: 0 <= k < i ==> tab[k] == Entry(k)
    {
      var c := TableEntry(i);
      tab[i] := c;
      i := i + 1;
    }
  }

  // CRCImpl::makeCRC computes the bit-at-a-time CRC of every buffer, which is the
  // standard's.
  method MakeCRC(buf: seq<byte>) returns (r: Word)
    ensures r == Crc32(buf) == IeeeCrc(buf)
  {
    CrcIsIeee(buf);
    var base := MakeTable();
    var tab := base[..];
    var crc := INITIAL_REMAINDER;
    var i := 0;
    while i < |buf|
      invariant 0 <= i <= |buf|
      invariant Feed(crc, buf[i..]) == Feed(INITIAL_REMAINDER, buf)
    {
      Lookup(tab, crc, buf[i]);
      FeedNext(crc, buf, i);
      crc := Xor(tab[Value(Xor(crc, Pad(Bits(8, buf[i])))[..8])], ShiftRight(crc, 8));
      i := i + 1;
    }
    r := Xor(crc, FINAL_XOR_VALUE);
  }

  lemma FeedNext(c: Word, buf: seq<byte>, i: nat)
    requires i < |buf|
    ensures Feed(c, buf[i..]) == Feed(FeedByte(c, buf[i]), buf[i + 1..])
  {
    assert buf[i..][0] == buf[i] && buf[i..][1..] == buf[i + 1..];
  }

  // A CRC can be resumed from the state any prefix leaves.
  lemma {:induction false} FeedAppend(c: Word, a: seq<byte>, b: seq<byte>)
    ensures Feed(c, a + b) == Feed(Feed(c, a), b)
    decreases |a|
  {
    if a == [] {
      assert a + b == b;
    } else {
      assert (a + b)[0] == a[0] && (a + b)[1..] == a[1..] + b;
      FeedAppend(FeedByte(c, a[0]), a[1..], b);
    }
  }

  // -------------------------------------------------------- burst detection

  function FeedBits(c: Word, bits: seq<bool>): Word
    decreases |bits|
  {
    if bits == [] then c else FeedBits(BitStep(Xor(c, Pad([bits[0]]))), bits[1..])
  }

  // Up to 32 bits can be folded in at once.
  lemma {:induction false} FeedAtOnce(c: Word, bits: seq<bool>)
    requires |bits| <= 32
    ensures FeedBits(c, bits) == Steps(|bits|, Xor(c, Pad(bits)))
    decreases |bits|
  {
    if bits == [] {
      assert Xor(c, Pad([])) == c;
    } else {
      var first, rest := Pad([bits[0]]), bits[1..];
      var up: Word := [false] + rest + Zeros(32 - |bits|);
      FeedAtOnce(BitStep(Xor(c, first)), rest);
      assert BitStep(up) == Pad(rest);
      StepLinear(Xor(c, first), up);
      assert Xor(Xor(c, first), up) == Xor(c, Pad(bits));
    }
  }

  lemma {:induction false} FeedBitsAppend(c: Word, a: seq<bool>, b: seq<bool>)
    ensures FeedBits(c, a + b) == FeedBits(FeedBits(c, a), b)
    decreases |a|
  {
    if a == [] {
      assert a + b == b;
    } else {
      assert (a + b)[0] == a[0] && (a + b)[1..] == a[1..] + b;
      FeedBitsAppend(BitStep(Xor(c, Pad([a[0]]))), a[1..], b);
    }
  }

  lemma {:induction false} FeedBitsInjective(c: Word, d: Word, bits: seq<bool>)
    requires FeedBits(c, bits) == FeedBits(d, bits)
    ensures c == d
    decreases |bits|
  {
    if bits != [] {
      var first := Pad([bits[0]]);
      FeedBitsInjective(BitStep(Xor(c, first)), BitStep(Xor(d, first)), bits[1..]);
      StepInjective(Xor(c, first), Xor(d, first));
      XorInjective(c, d, first);
    }
  }

  lemma XorInjective(c: Word, d: Word, w: Word)
    requires Xor(c, w) == Xor(d, w)
    ensures c == d
  {
    forall i | 0 <= i < 32 ensures c[i] == d[i] {
      assert Xor(c, w)[i] == Xor(d, w)[i];
    }
  }

  // The bits of a buffer in the order the CRC takes them.
  function BufferBits(buf: seq<byte>): seq<bool> {
    if buf == [] then [] else Bits(8, buf[0]) + BufferBits(buf[1..])
  }

  lemma {:induction false} FeedIsFeedBits(c: Word, buf: seq<byte>)
    ensures Feed(c, buf) == FeedBits(c, BufferBits(buf))
    decreases |buf|
  {
    if buf != [] {
      FeedAtOnce(c, Bits(8, buf[0]));
      FeedBitsAppend(c, Bits(8, buf[0]), BufferBits(buf[1..]));
      FeedIsFeedBits(FeedByte(c, buf[0]), buf[1..]);
    }
  }

  lemma ThreeParts(c: Word, pre: seq<bool>, w: seq<bool>, post: seq<bool>)
    ensures FeedBits(c, pre + w + post) == FeedBits(FeedBits(FeedBits(c, pre), w), post)
  {
    FeedBitsAppend(c, pre + w, post);
    FeedBitsAppend(c, pre, w);
  }

  lemma WindowInjective(c: Word, a: seq<bool>, b: seq<bool>)
    requires |a| == |b| <= 32 && FeedBits(c, a) == FeedBits(c, b)
    ensures a == b
  {
    FeedAtOnce(c, a);
    FeedAtOnce(c, b);
    StepsInjective(|a|, Xor(c, Pad(a)), Xor(c, Pad(b)));
    forall i | 0 <= i < |a| ensures a[i] == b[i] {
      assert Xor(c, Pad(a))[i] == Xor(c, Pad(b))[i];
    }
  }

  lemma SplitAround(a: seq<bool>, b: seq<bool>, k: nat, n: nat)
    requires |a| == |b| && k <= n <= |a|
    requires forall i :: 0 <= i < |a| && !(k <= i < n) ==> a[i] == b[i]
    ensures a == a[..k] + a[k..n] + a[n..] && b == a[..k] + b[k..n] + a[n..]
  {
    assert b[..k] == a[..k] && b[n..] == a[n..];
  }

  // Two different bit strings that agree outside 32 consecutive positions
  // leave different remainders.
  lemma BurstBits(c: Word, a: seq<bool>, b: seq<bool>, k: nat)
    requires |a| == |b| && k <= |a|
    requires forall i :: 0 <= i < |a| && a[i] != b[i] ==> k <= i < k + 32
    requires FeedBits(c, a) == FeedBits(c, b)
    ensures a == b
  {
    var n := Min(k + 32, |a|);
    var pre, wa, wb, post := a[..k], a[k..n], b[k..n], a[n..];
    SplitAround(a, b, k, n);
    ThreeParts(c, pre, wa, post);
    ThreeParts(c, pre, wb, post);
    var d := FeedBits(c, pre);
    FeedBitsInjective(FeedBits(d, wa), FeedBits(d, wb), post);
    WindowInjective(d, wa, wb);
  }

  lemma {:induction false} BufferBitsInjective(a: seq<byte>, b: seq<byte>)
    requires |a| == |b| && BufferBits(a) == BufferBits(b)
    ensures a == b
  {
    if a != [] {
      var x, y := BufferBits(a), BufferBits(b);
      assert Bits(8, a[0]) == x[..8] == y[..8] == Bits(8, b[0]);
      assert BufferBits(a[1..]) == x[8..] == y[8..] == BufferBits(b[1..]);
      ByteBitsInjective(a[0], b[0]);
      BufferBitsInjective(a[1..], b[1..]);
    }
  }

  lemma ByteBitsInjective(x: byte, y: byte)
    requires Bits(8, x) == Bits(8, y)
    ensures x == y
  {
    assert Pow2(8) == 256;
    forall i | 0 <= i < 8 ensures Digit(x, i) == Digit(y, i) { assert Bits(8, x)[i] == Bits(8, y)[i]; }
    DigitsInjective(8, x, y);
  }

  lemma {:induction false} DigitsInjective(n: nat, x: nat, y: nat)
    requires x < Pow2(n) && y < Pow2(n) && forall i :: 0 <= i < n ==> Digit(x, i) == Digit(y, i)
    ensures x == y
  {
    if n > 0 {
      assert Digit(x, 0) == Digit(y, 0);
      forall i | 0 <= i < n - 1 ensures Digit(x / 2, i) == Digit(y / 2, i) {
        assert Digit(x, i + 1) == Digit(y, i + 1);
      }
      DigitsInjective(n - 1, x / 2, y / 2);
    }
  }

  // The i-th bit of a buffer.
  predicate BitAt(a: seq<byte>, i: nat)
    requires i < 8 * |a|
  {
    Digit(a[i / 8], i % 8)
  }

  // Two buffers of one length that differ, but only within 32 consecutive
  // bits, never have the same CRC.
  lemma BurstDetected(a: seq<byte>, b: seq<byte>, k: nat)
    requires |a| == |b| && a != b
    requires forall i :: 0 <= i < 8 * |a| && BitAt(a, i) != BitAt(b, i) ==> k <= i < k + 32
    ensures Crc32(a) != Crc32(b)
  {
    if Crc32(a) == Crc32(b) {
      XorInjective(Feed(INITIAL_REMAINDER, a), Feed(INITIAL_REMAINDER, b), FINAL_XOR_VALUE);
      FeedIsFeedBits(INITIAL_REMAINDER, a);
      FeedIsFeedBits(INITIAL_REMAINDER, b);
      BufferBitsAt(a);
      BufferBitsAt(b);
      BurstBits(INITIAL_REMAINDER, BufferBits(a), BufferBits(b), Min(k, 8 * |a|));
      BufferBitsInjective(a, b);
    }
  }

  // In particular, buffers that differ only inside four consecutive bytes.
  lemma FourByteWindowDetected(a: seq<byte>, b: seq<byte>, k: nat)
    requires |a| == |b| && a != b
    requires forall i :: 0 <= i < |a| && a[i] != b[i] ==> k <= i < k + 4
    ensures Crc32(a) != Crc32(b)
  {
    BurstDetected(a, b, 8 * k);
  }

  lemma {:induction false} BufferBitsAt(a: seq<byte>)
    ensures |BufferBits(a)| == 8 * |a|
    ensures forall i :: 0 <= i < 8 * |a| ==> BufferBits(a)[i] == BitAt(a, i)
  {
    if a != [] {
      BufferBitsAt(a[1..]);
      forall i | 0 <= i < 8 * |a| ensures BufferBits(a)[i] == BitAt(a, i) {
        if i >= 8 {
          assert BufferBits(a)[i] == BufferBits(a[1..])[i - 8];
          assert (i - 8) / 8 == i / 8 - 1 && (i - 8) % 8 == i % 8;
        }
      }
    }
  }

  // ------------------------------------------- the definition by division

  // Bits as the coefficients of a polynomial over two elements, the highest power
  // first. The generator has degree 32.
  function Generator(): (g: seq<bool>)
    ensures |g| == 33
  {
    seq(33, k requires 0 <= k < 33 => k == 0 || IsExponent(32 - k))
  }

  function Sum(a: seq<bool>, b: seq<bool>): (s: seq<bool>)
    requires |a| == |b|
    ensures |s| == |a|
  {
    seq(|a|, i requires 0 <= i < |a| => a[i] != b[i])
  }

  // The generator or nothing, times a power of x.
  function Scaled(some: bool, n: nat): (g: seq<bool>)
    ensures |g| == n + 33
  {
    (if some then Generator() else Zeros(33)) + Zeros(n)
  }

  // The generator taken away where the first bit is set, which clears that bit.
  function Reduced(d: seq<bool>): (r: seq<bool>)
    requires |d| > 32
    ensures |r| == |d| - 1
  {
    Sum(d, Scaled(d[0], |d| - 33))[1..]
  }

  // Long division.
  function Remainder(d: seq<bool>): (r: Word)
    requires |d| >= 32
    decreases |d|
  {
    if |d| == 32 then d else Remainder(Reduced(d))
  }

  function Quotient(d: seq<bool>): (q: seq<bool>)
    requires |d| >= 32
    ensures |q| == |d| - 32
    decreases |d|
  {
    if |d| == 32 then [] else [d[0]] + Quotient(Reduced(d))
  }

  // q times the generator.
  function Product(q: seq<bool>): (p: seq<bool>)
    ensures |p| == |q| + 32
  {
    if q == [] then Zeros(32)
    else Sum(Scaled(q[0], |q| - 1), [false] + Product(q[1..]))
  }

  lemma ReducedBit(d: seq<bool>, i: nat)
    requires |d| > 32 && i < |d|
    ensures d[i] == (Scaled(d[0], |d| - 33)[i] != (i > 0 && Reduced(d)[i - 1]))
  {
  }

  // It is division: the dividend is quotient times generator plus remainder, and
  // the remainder has a lower degree than the generator.
  lemma {:induction false} DivisionExact(d: seq<bool>, i: nat)
    requires i < |d| && |d| >= 32
    ensures d[i] == (Product(Quotient(d))[i] != (Zeros(|d| - 32) + Remainder(d))[i])
    decreases |d|
  {
    if |d| > 32 {
      var r, q := Reduced(d), Quotient(d);
      var p := Product(q[1..]);
      assert q[1..] == Quotient(r);
      ReducedBit(d, i);
      if i > 0 { DivisionExact(r, i - 1); }
      assert Product(q)[i] == (Scaled(d[0], |d| - 33)[i] != (i > 0 && p[i - 1]));
      assert i > 0 ==> (Zeros(|d| - 32) + Remainder(d))[i] == (Zeros(|r| - 32) + Remainder(r))[i - 1];
    }
  }

  function Power2(i: nat): (p: nat)
    ensures p > 0
  {
    if i == 0 then 1 else 2 * Power2(i - 1)
  }

  // The bits in the order they are sent: byte by byte, each low bit first.
  function Transmitted(buf: seq<byte>): (bits: seq<bool>)
    ensures |bits| == 8 * |buf|
  {
    seq(8 * |buf|, i requires 0 <= i < 8 * |buf| => buf[i / 8] / Power2(i % 8) % 2 == 1)
  }

  function Complemented(bits: seq<bool>, n: nat): (r: seq<bool>)
    ensures |r| == |bits|
  {
    seq(|bits|, i requires 0 <= i < |bits| => if i < n then !bits[i] else bits[i])
  }

  // The checksum of clause 3.2.9 of IEEE 802.3: the message times x^32 with its
  // first 32 bits complemented, modulo the generator, complemented.
  function IeeeCrc(buf: seq<byte>): Word {
    Complemented(Remainder(Complemented(Transmitted(buf) + Zeros(32), 32)), 32)
  }

  // The register added to the first 32 bits of the message times x^32.
  function Start(c: Word, bits: seq<bool>): (d: seq<bool>)
    ensures |d| == |bits| + 32
  {
    Sum(bits + Zeros(32), c + Zeros(|bits|))
  }

  lemma GeneratorAt(i: nat)
    requires i < 32
    ensures Generator()[0] && Generator()[i + 1] == CRC32_IEEE[i]
  {
    PolynomialIsIeee(i);
  }

  // Feeding a bit is one step of the division.
  lemma StartStep(c: Word, bits: seq<bool>)
    requires bits != []
    ensures Reduced(Start(c, bits)) == Start(BitStep(Xor(c, Pad([bits[0]]))), bits[1..])
  {
    var d, x, rest := Start(c, bits), Xor(c, Pad([bits[0]])), bits[1..];
    assert d[0] == x[0];
    forall i | 0 <= i < |d| - 1 ensures Reduced(d)[i] == Start(BitStep(x), rest)[i] {
      assert (bits + Zeros(32))[i + 1] == (rest + Zeros(32))[i];
      if i < 32 {
        GeneratorAt(i);
        StepAt(x, i);
      }
    }
  }

  lemma {:induction false} FeedBitsDivides(c: Word, bits: seq<bool>)
    ensures FeedBits(c, bits) == Remainder(Start(c, bits))
    decreases |bits|
  {
    if bits == [] {
      assert Start(c, []) == c;
    } else {
      StartStep(c, bits);
      FeedBitsDivides(BitStep(Xor(c, Pad([bits[0]]))), bits[1..]);
    }
  }

  lemma {:induction false} DigitIs(x: nat, i: nat)
    ensures Digit(x, i) <==> x / Power2(i) % 2 == 1
    decreases i
  {
    if i > 0 {
      DigitIs(x / 2, i - 1);
      DivideTwice(x, 2, Power2(i - 1));
    }
  }

  lemma TransmittedBits(buf: seq<byte>)
    ensures BufferBits(buf) == Transmitted(buf)
  {
    BufferBitsAt(buf);
    forall i | 0 <= i < 8 * |buf| ensures BufferBits(buf)[i] == Transmitted(buf)[i] {
      DigitIs(buf[i / 8], i % 8);
    }
  }

  lemma {:induction false} LowOnes(n: nat, i: nat)
    requires i < n
    ensures Digit(Power2(n) - 1, i)
    decreases n
  {
    assert Power2(n) - 1 == 2 * (Power2(n - 1) - 1) + 1;
    if i > 0 { LowOnes(n - 1, i - 1); }
  }

  // Both constants are 32 ones.
  lemma AllOnes(i: nat)
    requires i < 32
    ensures INITIAL_REMAINDER[i] && FINAL_XOR_VALUE[i]
  {
    assert Power2(8) == 0x100;
    assert Power2(16) == 0x1_0000;
    assert Power2(24) == 0x100_0000;
    assert Power2(32) == 0x1_0000_0000;
    LowOnes(32, i);
  }

  // The reflected, table-driven form computes the standard's checksum, its highest
  // power in the lowest bit.
  lemma CrcIsIeee(buf: seq<byte>)
    ensures Crc32(buf) == IeeeCrc(buf)
  {
    var bits := Transmitted(buf);
    FeedIsFeedBits(INITIAL_REMAINDER, buf);
    TransmittedBits(buf);
    FeedBitsDivides(INITIAL_REMAINDER, bits);
    forall i | 0 <= i < 32 ensures INITIAL_REMAINDER[i] && FINAL_XOR_VALUE[i] { AllOnes(i); }
    assert Start(INITIAL_REMAINDER, bits) == Complemented(bits + Zeros(32), 32);
  }

  // The empty buffer's checksum is zero.
  lemma EmptyCrc()
    ensures Crc32([]) == Zeros(32)
  {
    forall i | 0 <= i < 32 ensures INITIAL_REMAINDER[i] && FINAL_XOR_VALUE[i] { AllOnes(i); }
  }
}
