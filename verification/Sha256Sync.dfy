/**
 The synchronous SHA-256 of the SDK, on JavaScript numbers: bitwise operators take their operands modulo 2^32
 and give signed results, sums are exact until `| 0`, and typed arrays store modulo 2^32 or 2^8. The
 computation is that of FIPS 180-4, for every message it can hash at all.
 */
module Sha256Sync {
  import opened Wrappers
  import opened NumberTheory
  import opened Sha256Standard

  // ---- JavaScript numbers ----

  /** What a sum must stay within to be exact in a double. */
  const SAFE: int := 9007199254740991

  function ToUint32(n: int): Word {
    n % 0x1_0000_0000
  }

  function ToInt32(n: int): int {
    if ToUint32(n) < 0x8000_0000 then ToUint32(n) else ToUint32(n) - 0x1_0000_0000
  }

  function JsAnd(a: int, b: int): int { ToInt32(AndW(ToUint32(a), ToUint32(b))) }
  function JsOr(a: int, b: int): int { ToInt32(OrW(ToUint32(a), ToUint32(b))) }
  function JsXor(a: int, b: int): int { ToInt32(XorW(ToUint32(a), ToUint32(b))) }
  function JsNot(a: int): int { -ToInt32(a) - 1 }
  function JsShiftLeft(a: int, n: nat): int { ToInt32(Shl(n, ToUint32(a))) }
  function JsShiftRightUnsigned(a: int, n: nat): int { Shr(n, ToUint32(a)) }

  function JsRotr(x: int, n: nat): int
    requires n <= 32
  {
    JsOr(JsShiftRightUnsigned(x, n), JsShiftLeft(x, 32 - n))
  }

  /** `n | 0`: reading a number as a word loses nothing that the word had. */
  lemma WordOfInt32(n: int)
    ensures ToUint32(ToInt32(n)) == ToUint32(n) && -0x8000_0000 <= ToInt32(n) < 0x8000_0000
  {
  }

  lemma WordOfWord(x: Word)
    ensures ToUint32(x) == x
  {
  }

  lemma WordOfSum(a: int, b: int)
    ensures ToUint32(a + b) == AddW(ToUint32(a), ToUint32(b))
  {
  }

  lemma WordOfBits(a: int, b: int)
    ensures ToUint32(JsAnd(a, b)) == AndW(ToUint32(a), ToUint32(b))
    ensures ToUint32(JsOr(a, b)) == OrW(ToUint32(a), ToUint32(b))
    ensures ToUint32(JsXor(a, b)) == XorW(ToUint32(a), ToUint32(b))
  {
    hide AndW, OrW, XorW;
  }

  lemma WordOfNot(a: int)
    ensures ToUint32(JsNot(a)) == NotW(ToUint32(a))
  {
  }

  lemma WordOfRotr(x: int, n: nat)
    requires n <= 32
    ensures ToUint32(JsRotr(x, n)) == Rotr(n, ToUint32(x))
  {
    hide OrW, Shr, Shl;
    WordOfBits(JsShiftRightUnsigned(x, n), JsShiftLeft(x, 32 - n));
    WordOfWord(Shr(n, ToUint32(x)));
    WordOfWord(Shl(32 - n, ToUint32(x)));
    WordOfInt32(Shl(32 - n, ToUint32(x)));
  }

  // ---- The functions, as the loops write them ----

  function JsSigma0(x: int): int { JsXor(JsXor(JsRotr(x, 2), JsRotr(x, 13)), JsRotr(x, 22)) }
  function JsSigma1(x: int): int { JsXor(JsXor(JsRotr(x, 6), JsRotr(x, 11)), JsRotr(x, 25)) }
  function JsSchedule0(x: int): int { JsXor(JsXor(JsRotr(x, 7), JsRotr(x, 18)), JsShiftRightUnsigned(x, 3)) }
  function JsSchedule1(x: int): int { JsXor(JsXor(JsRotr(x, 17), JsRotr(x, 19)), JsShiftRightUnsigned(x, 10)) }
  function JsCh(e: int, f: int, g: int): int { JsXor(JsAnd(e, f), JsAnd(JsNot(e), g)) }
  function JsMaj(a: int, b: int, c: int): int { JsXor(JsXor(JsAnd(a, b), JsAnd(a, c)), JsAnd(b, c)) }

  lemma WordOfThree(a: int, b: int, c: int)
    ensures ToUint32(JsXor(JsXor(a, b), c)) == XorW(XorW(ToUint32(a), ToUint32(b)), ToUint32(c))
  {
    hide JsXor, XorW;
    WordOfBits(JsXor(a, b), c);
    WordOfBits(a, b);
  }

  lemma WordOfSigmas(x: int)
    ensures ToUint32(JsSigma0(x)) == BigSigma0(ToUint32(x)) && ToUint32(JsSigma1(x)) == BigSigma1(ToUint32(x))
  {
    hide JsXor, XorW, JsRotr, Rotr;
    WordOfThree(JsRotr(x, 2), JsRotr(x, 13), JsRotr(x, 22));
    WordOfThree(JsRotr(x, 6), JsRotr(x, 11), JsRotr(x, 25));
    WordOfRotr(x, 2);
    WordOfRotr(x, 13);
    WordOfRotr(x, 22);
    WordOfRotr(x, 6);
    WordOfRotr(x, 11);
    WordOfRotr(x, 25);
  }

  lemma WordOfSchedules(x: int)
    ensures ToUint32(JsSchedule0(x)) == SmallSigma0(ToUint32(x)) && ToUint32(JsSchedule1(x)) == SmallSigma1(ToUint32(x))
  {
    hide JsXor, XorW, JsRotr, Rotr, Shr;
    WordOfThree(JsRotr(x, 7), JsRotr(x, 18), JsShiftRightUnsigned(x, 3));
    WordOfThree(JsRotr(x, 17), JsRotr(x, 19), JsShiftRightUnsigned(x, 10));
    WordOfRotr(x, 7);
    WordOfRotr(x, 18);
    WordOfRotr(x, 17);
    WordOfRotr(x, 19);
    WordOfWord(Shr(3, ToUint32(x)));
    WordOfWord(Shr(10, ToUint32(x)));
  }

  lemma WordOfCh(e: int, f: int, g: int)
    ensures ToUint32(JsCh(e, f, g)) == Ch(ToUint32(e), ToUint32(f), ToUint32(g))
  {
    hide JsXor, XorW, JsAnd, AndW, JsNot, NotW;
    WordOfBits(JsAnd(e, f), JsAnd(JsNot(e), g));
    WordOfBits(e, f);
    WordOfBits(JsNot(e), g);
    WordOfNot(e);
  }

  lemma WordOfMaj(a: int, b: int, c: int)
    ensures ToUint32(JsMaj(a, b, c)) == Maj(ToUint32(a), ToUint32(b), ToUint32(c))
  {
    hide JsXor, XorW, JsAnd, AndW;
    WordOfThree(JsAnd(a, b), JsAnd(a, c), JsAnd(b, c));
    WordOfBits(a, b);
    WordOfBits(a, c);
    WordOfBits(b, c);
  }

  /** Numbers that bitwise operators and `| 0` produce, or that typed arrays hold. */
  predicate InRange(n: int) {
    -0x8000_0000 <= n < 0x1_0000_0000
  }

  lemma BitsInRange(a: int, b: int, c: int, x: int)
    ensures InRange(JsSigma0(x)) && InRange(JsSigma1(x)) && InRange(JsSchedule0(x)) && InRange(JsSchedule1(x))
    ensures InRange(JsCh(a, b, c)) && InRange(JsMaj(a, b, c))
  {
    hide AndW, OrW, XorW;
  }

  // ---- Padding, in place ----

  lemma BigEndianFour(n: Word)
    ensures BigEndian(n, 4) == [n / 0x100_0000, (n / 0x1_0000) % 256, (n / 0x100) % 256, n % 256]
  {
    assert BigEndian(n / 0x1_0000 / 256 / 256, 0) == [];
    assert n / 256 / 256 == n / 0x1_0000 && n / 256 / 256 / 256 == n / 0x100_0000;
    assert BigEndian(n / 256 / 256 / 256, 1) == [n / 0x100_0000];
    assert BigEndian(n / 256 / 256, 2) == [n / 0x100_0000, (n / 0x1_0000) % 256];
    assert BigEndian(n / 256, 3) == [n / 0x100_0000, (n / 0x1_0000) % 256, (n / 0x100) % 256];
  }

  /** `DataView.setUint32`, big-endian. */
  method SetUint32(bytes: array<Byte>, i: nat, n: int)
    requires i + 4 <= bytes.Length
    modifies bytes
    ensures bytes[..] == old(bytes[..i]) + BigEndian(ToUint32(n), 4) + old(bytes[i + 4..])
  {
    var w := ToUint32(n);
    BigEndianFour(w);
    bytes[i], bytes[i + 1], bytes[i + 2], bytes[i + 3] := w / 0x100_0000, (w / 0x1_0000) % 256, (w / 0x100) % 256,
        w % 256;
  }

  /** Eight bytes are two words. */
  lemma EightBytes(n: nat)
    ensures BigEndian(n, 8) == BigEndian(n / 0x1_0000_0000, 4) + BigEndian(n % 0x1_0000_0000, 4)
  {
    var q1, q2, q3, q4 := n / 256, n / 0x1_0000, n / 0x100_0000, n / 0x1_0000_0000;
    assert q1 / 256 == q2 && q2 / 256 == q3 && q3 / 256 == q4;
    assert BigEndian(n, 8) == BigEndian(q1, 7) + [n % 256];
    assert BigEndian(q1, 7) == BigEndian(q2, 6) + [q1 % 256];
    assert BigEndian(q2, 6) == BigEndian(q3, 5) + [q2 % 256];
    assert BigEndian(q3, 5) == BigEndian(q4, 4) + [q3 % 256];
    BigEndianFour(n % 0x1_0000_0000);
    LowWordBytes(n);
  }

  lemma LowWordBytes(n: nat)
    ensures var m := n % 0x1_0000_0000;
            && m % 256 == n % 256 && (m / 0x100) % 256 == (n / 0x100) % 256
            && (m / 0x1_0000) % 256 == (n / 0x1_0000) % 256 && m / 0x100_0000 == (n / 0x100_0000) % 256
  {
    var b0, b1, b2, b3 := n % 256, (n / 0x100) % 256, (n / 0x1_0000) % 256, (n / 0x100_0000) % 256;
    var m := n % 0x1_0000_0000;
    BytesOfNumber(n);
    assert m == ((b3 * 256 + b2) * 256 + b1) * 256 + b0;
    DigitsOfWord(b0, b1, b2, b3);
  }

  lemma BytesOfNumber(n: nat)
    ensures n == ((((n / 0x1_0000_0000) * 256 + (n / 0x100_0000) % 256) * 256 + (n / 0x1_0000) % 256) * 256
                  + (n / 0x100) % 256) * 256 + n % 256
  {
  }

  lemma DigitsOfWord(b0: nat, b1: nat, b2: nat, b3: nat)
    requires b0 < 256 && b1 < 256 && b2 < 256 && b3 < 256
    ensures var m := ((b3 * 256 + b2) * 256 + b1) * 256 + b0;
            m % 256 == b0 && (m / 0x100) % 256 == b1 && (m / 0x1_0000) % 256 == b2 && m / 0x100_0000 == b3
  {
    var m := ((b3 * 256 + b2) * 256 + b1) * 256 + b0;
    assert m / 0x100 == (b3 * 256 + b2) * 256 + b1 && m / 0x1_0000 == b3 * 256 + b2;
  }

  /** `((n + 9 + 63) >> 6) << 6`, on 32-bit signed integers. */
  function PaddedSize(n: nat): int {
    ToInt32(ToInt32(n + 72) / 64 * 64)
  }

  lemma PaddedSizeFits(n: nat)
    requires n + 72 < 0x8000_0000
    ensures PaddedSize(n) == n + 9 + ZeroCount(n)
  {
  }

  /** For longer messages the size comes out negative or too small to hold the message. */
  lemma PaddedSizeTooSmall(n: nat)
    requires n + 72 >= 0x8000_0000
    ensures PaddedSize(n) < 0 || PaddedSize(n) < n
  {
  }

  /** The message and the one bit, in a buffer of zeros. */
  method CopyMessage(data: seq<Byte>, size: nat) returns (padded: array<Byte>)
    requires |data| < size
    ensures fresh(padded) && padded[..] == data + [0x80] + Zeros(size - |data| - 1)
  {
    var n := |data|;
    padded := new Byte[size](_ => 0);
    for i := 0 to n
      invariant padded[..i] == data[..i] && forall j :: i <= j < size ==> padded[j] == 0
    {
      padded[i] := data[i];
    }
    padded[n] := 0x80;
  }

  lemma ZerosSplit(j: nat, k: nat)
    ensures Zeros(j + k) == Zeros(j) + Zeros(k)
  {
  }

  /** Nothing, where allocating the buffer or copying the message into it throws. */
  method Pad(data: seq<Byte>) returns (r: Option<array<Byte>>)
    ensures r.Some? <==> |data| + 72 < 0x8000_0000
    ensures r.Some? ==> fresh(r.value) && r.value[..] == Padded(data)
  {
    hide PaddedSize, BigEndian, ZeroCount;
    var n := |data|;
    var size := PaddedSize(n);
    if n + 72 >= 0x8000_0000 { PaddedSizeTooSmall(n); } else { PaddedSizeFits(n); }
    if size < 0 || size < n { return None; }
    var padded := CopyMessage(data, size);
    ZerosSplit(ZeroCount(n), 8);
    ghost var front := data + [0x80] + Zeros(ZeroCount(n));
    assert padded[..size - 8] == front;
    var bits := 8 * n;
    SetUint32(padded, size - 8, bits / 0x1_0000_0000);
    assert padded[..size - 4] == front + BigEndian(ToUint32(bits / 0x1_0000_0000), 4);
    SetUint32(padded, size - 4, ToUint32(bits));
    EightBytes(bits);
    HighWord(bits);
    r := Some(padded);
  }

  lemma HighWord(bits: nat)
    requires bits < 0x1_0000_0000_0000_0000
    ensures ToUint32(bits / 0x1_0000_0000) == bits / 0x1_0000_0000 && ToUint32(ToUint32(bits)) == bits % 0x1_0000_0000
  {
  }

  // ---- The message schedule ----

  lemma WordOfFour(a: int, b: int, c: int, d: int)
    ensures ToUint32(ToInt32(a + b + c + d)) == AddW(AddW(AddW(ToUint32(d), ToUint32(c)), ToUint32(b)), ToUint32(a))
  {
    WordOfInt32(a + b + c + d);
    hide ToUint32, AddW;
    WordOfSum(d + c + b, a);
    WordOfSum(d + c, b);
    WordOfSum(d, c);
  }

  lemma ScheduleStep(bytes: seq<Byte>, offset: nat, t: nat, w16: Word, w15: Word, w7: Word, w2: Word)
    requires offset + 64 <= |bytes| && t >= 16
    requires w16 == Schedule(bytes, offset, t - 16) && w15 == Schedule(bytes, offset, t - 15)
    requires w7 == Schedule(bytes, offset, t - 7) && w2 == Schedule(bytes, offset, t - 2)
    ensures ToUint32(ToInt32(w16 + JsSchedule0(w15) + w7 + JsSchedule1(w2))) == Schedule(bytes, offset, t)
  {
    hide JsSchedule0, JsSchedule1, SmallSigma0, SmallSigma1, AddW, ToInt32, WordAt;
    WordOfFour(w16, JsSchedule0(w15), w7, JsSchedule1(w2));
    WordOfSchedules(w15);
    WordOfSchedules(w2);
    WordOfWord(w16);
    WordOfWord(w15);
    WordOfWord(w7);
    WordOfWord(w2);
  }

  method FillSchedule(w: array<Word>, padded: array<Byte>, offset: nat)
    requires w.Length == 64 && offset + 64 <= padded.Length
    modifies w
    ensures forall t :: 0 <= t < 64 ==> w[t] == Schedule(padded[..], offset, t)
  {
    hide Schedule, JsSchedule0, JsSchedule1, ToInt32, ToUint32;
    ghost var bytes := padded[..];
    for i := 0 to 16
      invariant forall t :: 0 <= t < i ==> w[t] == Schedule(bytes, offset, t)
    {
      FirstWords(bytes, offset, i);
      w[i] := WordAt(padded[..], offset + 4 * i);
    }
    for i := 16 to 64
      invariant forall t :: 0 <= t < i ==> w[t] == Schedule(bytes, offset, t)
    {
      BitsInRange(0, 0, 0, w[i - 15]);
      BitsInRange(0, 0, 0, w[i - 2]);
      ScheduleStep(bytes, offset, i, w[i - 16], w[i - 15], w[i - 7], w[i - 2]);
      var s0, s1 := JsSchedule0(w[i - 15]), JsSchedule1(w[i - 2]);
      var sum := w[i - 16] + s0 + w[i - 7] + s1;
      assert -SAFE <= sum <= SAFE;
      w[i] := ToUint32(ToInt32(sum));
    }
  }

  lemma FirstWords(bytes: seq<Byte>, offset: nat, t: nat)
    requires offset + 64 <= |bytes| && t < 16
    ensures Schedule(bytes, offset, t) == WordAt(bytes, offset + 4 * t)
  {
  }

  // ---- The rounds ----

  /** The working variables, as numbers. */
  datatype Working = Working(a: int, b: int, c: int, d: int, e: int, f: int, g: int, h: int)

  function WordsOf(v: Working): Registers {
    Registers(ToUint32(v.a), ToUint32(v.b), ToUint32(v.c), ToUint32(v.d), ToUint32(v.e), ToUint32(v.f), ToUint32(v.g),
        ToUint32(v.h))
  }

  predicate WorkingInRange(v: Working) {
    && InRange(v.a) && InRange(v.b) && InRange(v.c) && InRange(v.d)
    && InRange(v.e) && InRange(v.f) && InRange(v.g) && InRange(v.h)
  }

  lemma WordOfFive(a: int, b: int, c: int, d: int, e: int)
    ensures ToUint32(ToInt32(a + b + c + d + e)) ==
            AddW(AddW(AddW(AddW(ToUint32(a), ToUint32(b)), ToUint32(c)), ToUint32(d)), ToUint32(e))
  {
    WordOfInt32(a + b + c + d + e);
    hide ToUint32, AddW;
    WordOfSum(a + b + c + d, e);
    WordOfSum(a + b + c, d);
    WordOfSum(a + b, c);
    WordOfSum(a, b);
  }

  lemma WordOfTwo(a: int, b: int)
    ensures ToUint32(ToInt32(a + b)) == AddW(ToUint32(a), ToUint32(b))
  {
    WordOfInt32(a + b);
    WordOfSum(a, b);
  }

  lemma RoundStep(v: Working, k: Word, w: Word, t1: int, t2: int)
    requires t1 == ToInt32(v.h + JsSigma1(v.e) + JsCh(v.e, v.f, v.g) + k + w)
    requires t2 == ToInt32(JsSigma0(v.a) + JsMaj(v.a, v.b, v.c))
    ensures WordsOf(Working(ToInt32(t1 + t2), v.a, v.b, v.c, ToInt32(v.d + t1), v.e, v.f, v.g)) ==
            Round(WordsOf(v), k, w)
  {
    hide JsSigma0, JsSigma1, JsCh, JsMaj, ToInt32, ToUint32, AddW, BigSigma0, BigSigma1, Ch, Maj;
    WordOfFive(v.h, JsSigma1(v.e), JsCh(v.e, v.f, v.g), k, w);
    WordOfTwo(JsSigma0(v.a), JsMaj(v.a, v.b, v.c));
    WordOfSigmas(v.e);
    WordOfSigmas(v.a);
    WordOfCh(v.e, v.f, v.g);
    WordOfMaj(v.a, v.b, v.c);
    WordOfWord(k);
    WordOfWord(w);
    WordOfTwo(t1, t2);
    WordOfTwo(v.d, t1);
  }

  /** 64 rounds on the working variables. */
  method RunRounds(start: Working, w: array<Word>, ghost bytes: seq<Byte>, ghost offset: nat) returns (v: Working)
    requires w.Length == 64 && offset + 64 <= |bytes| && WorkingInRange(start)
    requires forall t :: 0 <= t < 64 ==> w[t] == Schedule(bytes, offset, t)
    ensures WordsOf(v) == Rounds(WordsOf(start), bytes, offset, 64) && WorkingInRange(v)
  {
    hide Schedule, Round, JsSigma0, JsSigma1, JsCh, JsMaj, WordsOf, ToUint32;
    var a, b, c, d := start.a, start.b, start.c, start.d;
    var e, f, g, hh := start.e, start.f, start.g, start.h;
    for i := 0 to 64
      invariant WorkingInRange(Working(a, b, c, d, e, f, g, hh))
      invariant WordsOf(Working(a, b, c, d, e, f, g, hh)) == Rounds(WordsOf(start), bytes, offset, i)
    {
      BitsInRange(e, f, g, e);
      BitsInRange(a, b, c, a);
      var t1 := ToInt32(hh + JsSigma1(e) + JsCh(e, f, g) + K[i] + w[i]);
      assert -SAFE <= hh + JsSigma1(e) + JsCh(e, f, g) + K[i] + w[i] <= SAFE;
      var t2 := ToInt32(JsSigma0(a) + JsMaj(a, b, c));
      RoundStep(Working(a, b, c, d, e, f, g, hh), K[i], w[i], t1, t2);
      WordOfInt32(t1 + t2);
      WordOfInt32(d + t1);
      hh, g, f := g, f, e;
      e := ToInt32(d + t1);
      d, c, b := c, b, a;
      a := ToInt32(t1 + t2);
    }
    v := Working(a, b, c, d, e, f, g, hh);
  }

  // ---- The hash ----

  function HashOf(h: array<Word>): Registers
    requires h.Length == 8
    reads h
  {
    Registers(h[0], h[1], h[2], h[3], h[4], h[5], h[6], h[7])
  }

  lemma WordAdded(h: Word, n: int)
    ensures ToUint32(h + n) == AddW(h, ToUint32(n))
  {
    WordOfSum(h, n);
    WordOfWord(h);
  }

  /** One block, added into the hash in place. */
  method CompressBlock(h: array<Word>, w: array<Word>, padded: array<Byte>, offset: nat)
    requires h.Length == 8 && w.Length == 64 && h != w && offset + 64 <= padded.Length
    modifies h, w
    ensures HashOf(h) == Compress(old(HashOf(h)), padded[..], offset)
  {
    hide Schedule, Rounds, WordsOf, ToUint32, AddW;
    FillSchedule(w, padded, offset);
    var start := Working(h[0], h[1], h[2], h[3], h[4], h[5], h[6], h[7]);
    assert WordsOf(start) == HashOf(h) by { WordsOfHash(HashOf(h)); }
    var v := RunRounds(start, w, padded[..], offset);
    AddedInPlace(HashOf(h), v);
    h[0] := ToUint32(h[0] + v.a);
    h[1] := ToUint32(h[1] + v.b);
    h[2] := ToUint32(h[2] + v.c);
    h[3] := ToUint32(h[3] + v.d);
    h[4] := ToUint32(h[4] + v.e);
    h[5] := ToUint32(h[5] + v.f);
    h[6] := ToUint32(h[6] + v.g);
    h[7] := ToUint32(h[7] + v.h);
  }

  lemma WordsOfHash(r: Registers)
    ensures WordsOf(Working(r.a, r.b, r.c, r.d, r.e, r.f, r.g, r.h)) == r
  {
  }

  lemma AddedInPlace(r: Registers, v: Working)
    ensures Plus(r, WordsOf(v)) ==
            Registers(ToUint32(r.a + v.a), ToUint32(r.b + v.b), ToUint32(r.c + v.c), ToUint32(r.d + v.d),
                      ToUint32(r.e + v.e), ToUint32(r.f + v.f), ToUint32(r.g + v.g), ToUint32(r.h + v.h))
  {
    hide ToUint32, AddW;
    WordAdded(r.a, v.a);
    WordAdded(r.b, v.b);
    WordAdded(r.c, v.c);
    WordAdded(r.d, v.d);
    WordAdded(r.e, v.e);
    WordAdded(r.f, v.f);
    WordAdded(r.g, v.g);
    WordAdded(r.h, v.h);
  }

  method WriteHash(h: array<Word>) returns (out: seq<Byte>)
    requires h.Length == 8
    ensures out == Bytes(HashOf(h))
  {
    hide BigEndian, ToUint32;
    var bytes := new Byte[32](_ => 0);
    ghost var done: seq<Byte> := [];
    for i := 0 to 8
      invariant |done| == 4 * i && bytes[..4 * i] == done
      invariant done == WordsWritten(h[..], i)
    {
      WordOfWord(h[i]);
      SetUint32(bytes, 4 * i, h[i]);
      done := done + BigEndian(h[i], 4);
    }
    out := bytes[..];
    EightWritten(h[..]);
  }

  function WordsWritten(ws: seq<Word>, n: nat): seq<Byte>
    requires n <= |ws|
  {
    if n == 0 then [] else WordsWritten(ws, n - 1) + BigEndian(ws[n - 1], 4)
  }

  lemma EightWritten(ws: seq<Word>)
    requires |ws| == 8
    ensures WordsWritten(ws, 8) == Bytes(Registers(ws[0], ws[1], ws[2], ws[3], ws[4], ws[5], ws[6], ws[7]))
  {
    hide BigEndian;
    assert WordsWritten(ws, 1) == WordsWritten(ws, 0) + BigEndian(ws[0], 4) == BigEndian(ws[0], 4);
    assert WordsWritten(ws, 2) == WordsWritten(ws, 1) + BigEndian(ws[1], 4);
    assert WordsWritten(ws, 4) == WordsWritten(ws, 2) + BigEndian(ws[2], 4) + BigEndian(ws[3], 4);
    assert WordsWritten(ws, 6) == WordsWritten(ws, 4) + BigEndian(ws[4], 4) + BigEndian(ws[5], 4);
  }

  /** SHA-256 of FIPS 180-4 for every message short enough for its buffer; a longer one throws. */
  method Sha256Of(data: seq<Byte>) returns (r: Option<seq<Byte>>)
    ensures r == if |data| + 72 < 0x8000_0000 then Some(Sha256(data)) else None
  {
    hide Padded, Compress, Bytes;
    var buffer := Pad(data);
    if buffer.None? { return None; }
    var padded := buffer.value;
    PaddedLength(data);
    var h := new Word[8] [0x6a09e667, 0xbb67ae85, 0x3c6ef372, 0xa54ff53a, 0x510e527f, 0x9b05688c, 0x1f83d9ab,
        0x5be0cd19];
    var w := new Word[64](_ => 0);
    var offset := 0;
    while offset < padded.Length
      invariant offset % 64 == 0 && offset <= padded.Length
      invariant fresh(h) && fresh(w) && h != w && padded[..] == Padded(data)
      invariant HashOf(h) == HashBlocks(padded[..], offset / 64)
    {
      CompressBlock(h, w, padded, offset);
      offset := offset + 64;
    }
    var out := WriteHash(h);
    r := Some(out);
  }
}
