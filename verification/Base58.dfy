/**
 Base 58 with the Bitcoin alphabet: a byte string is read as one number and written again in another
 radix, its leading zeros apart.
 */
module Base58 {
  import opened Wrappers
  import opened NumberTheory

  type Byte = n: nat | n < 256

  /** The alphabet: 1 to 9, then A to Z without I and O, then a to z without l. */
  function Letter(i: nat): char
    requires i < 58
  {
    (if i < 9 then '1' as int + i
     else if i < 17 then 'A' as int + i - 9
     else if i < 22 then 'J' as int + i - 17
     else if i < 33 then 'P' as int + i - 22
     else if i < 44 then 'a' as int + i - 33
     else 'm' as int + i - 44) as char
  }

  // ---- Radix conversion ----

  predicate DigitsOf(base: nat, ds: seq<nat>) {
    forall i :: 0 <= i < |ds| ==> ds[i] < base
  }

  /** The number that big-endian digits stand for. */
  function Value(base: nat, ds: seq<nat>): nat {
    if ds == [] then 0 else Value(base, ds[..|ds| - 1]) * base + ds[|ds| - 1]
  }

  /** A number's digits, without leading zeros. */
  function Digits(base: nat, n: nat): (ds: seq<nat>)
    requires base > 1
    ensures DigitsOf(base, ds)
  {
    if n == 0 then []
    else
      QuotientShrinks(n, base);
      Digits(base, n / base) + [n % base]
  }

  function LeadingZeros(ds: seq<nat>): (k: nat)
    ensures k <= |ds|
  {
    if ds != [] && ds[0] == 0 then 1 + LeadingZeros(ds[1..]) else 0
  }

  function Zeros(k: nat): (ds: seq<nat>)
    ensures |ds| == k && forall i :: 0 <= i < k ==> ds[i] == 0
  {
    seq(k, i => 0)
  }

  /** The same number in another radix, with as many leading zeros. */
  function Convert(from: nat, to: nat, ds: seq<nat>): (r: seq<nat>)
    requires to > 1
    ensures DigitsOf(to, r)
  {
    Zeros(LeadingZeros(ds)) + Digits(to, Value(from, ds))
  }

  lemma Quotient(n: nat, base: nat)
    requires base > 0
    ensures n == (n / base) * base + n % base
  {
  }

  lemma QuotientShrinks(n: nat, base: nat)
    requires base > 1
    ensures n > 0 ==> n / base < n
    ensures n / base == 0 ==> n % base == n
  {
    var q := n / base;
    Quotient(n, base);
    ProductNonneg(q, base - 2);
    assert q * base == q * (base - 2) + 2 * q;
  }

  lemma ValueAppend(base: nat, ds: seq<nat>, d: nat)
    ensures Value(base, ds + [d]) == Value(base, ds) * base + d
  {
    assert (ds + [d])[..|ds|] == ds;
  }

  lemma {:induction false} ValueOfDigits(base: nat, n: nat)
    requires base > 1
    ensures Value(base, Digits(base, n)) == n
  {
    if n > 0 {
      var q, r := n / base, n % base;
      QuotientShrinks(n, base);
      Quotient(n, base);
      hide Value;
      ValueOfDigits(base, q);
      ValueAppend(base, Digits(base, q), r);
    } else {
      assert Digits(base, n) == [];
    }
  }

  lemma {:induction false} DigitsStartNonzero(base: nat, n: nat)
    requires base > 1
    ensures n > 0 ==> Digits(base, n) != [] && Digits(base, n)[0] > 0
  {
    if n > 0 {
      var q, r := n / base, n % base;
      QuotientShrinks(n, base);
      DigitsStartNonzero(base, q);
      assert Digits(base, n) == Digits(base, q) + [r];
    }
  }

  lemma DivModStep(base: nat, v: nat, d: nat)
    requires d < base
    ensures (v * base + d) / base == v && (v * base + d) % base == d
  {
    var n := v * base + d;
    assert n == (n / base) * base + n % base;
    assert (n / base - v) * base == (n / base) * base - v * base;
    SmallMultiple(base, n / base - v);
  }

  lemma {:induction false} DigitsOfValue(base: nat, ds: seq<nat>)
    requires base > 1 && DigitsOf(base, ds) && (ds == [] || ds[0] > 0)
    ensures Digits(base, Value(base, ds)) == ds
  {
    if ds != [] {
      var before, last := ds[..|ds| - 1], ds[|ds| - 1];
      DigitsOfValue(base, before);
      DivModStep(base, Value(base, before), last);
      if |ds| > 1 { ValuePositive(base, before); }
      assert ds == before + [last];
    }
  }

  lemma {:induction false} ValuePositive(base: nat, ds: seq<nat>)
    requires base > 0 && ds != [] && ds[0] > 0
    ensures Value(base, ds) > 0
  {
    if |ds| > 1 {
      ValuePositive(base, ds[..|ds| - 1]);
      MultipleAtLeast(base, Value(base, ds[..|ds| - 1]));
    }
  }

  lemma {:induction false} ValueOfZeros(base: nat, k: nat, ds: seq<nat>)
    ensures Value(base, Zeros(k) + ds) == Value(base, ds)
  {
    if ds != [] {
      ValueOfZeros(base, k, ds[..|ds| - 1]);
      assert (Zeros(k) + ds)[..k + |ds| - 1] == Zeros(k) + ds[..|ds| - 1];
    } else {
      assert Zeros(k) + ds == Zeros(k);
      if k > 0 {
        ValueOfZeros(base, k - 1, []);
        assert Zeros(k)[..k - 1] == Zeros(k - 1) && Zeros(k - 1) + [] == Zeros(k - 1);
      }
    }
  }

  lemma {:induction false} LeadingZerosOf(k: nat, ds: seq<nat>)
    requires ds == [] || ds[0] > 0
    ensures LeadingZeros(Zeros(k) + ds) == k
  {
    if k > 0 {
      LeadingZerosOf(k - 1, ds);
      assert (Zeros(k) + ds)[1..] == Zeros(k - 1) + ds;
    } else {
      assert Zeros(0) + ds == ds;
    }
  }

  lemma ZerosMore(k: nat)
    ensures [0] + Zeros(k) == Zeros(k + 1)
  {
  }

  /** Digits are their leading zeros and what follows those. */
  lemma {:induction false} ZerosThenRest(ds: seq<nat>)
    ensures var k := LeadingZeros(ds);
            ds == Zeros(k) + ds[k..] && (k == |ds| || ds[k] > 0)
  {
    hide Zeros;
    if ds != [] && ds[0] == 0 {
      ZerosThenRest(ds[1..]);
      var k := LeadingZeros(ds[1..]);
      ZerosMore(k);
      assert ds == [0] + ds[1..];
      assert ds[1..][k..] == ds[k + 1..];
      assert [0] + (Zeros(k) + ds[k + 1..]) == ([0] + Zeros(k)) + ds[k + 1..];
    } else {
      assert Zeros(0) + ds[0..] == ds;
    }
  }

  /** Converting there and back gives the same digits. */
  lemma ConvertBack(a: nat, b: nat, ds: seq<nat>)
    requires a > 1 && b > 1 && DigitsOf(a, ds)
    ensures Convert(b, a, Convert(a, b, ds)) == ds
  {
    var k, n := LeadingZeros(ds), Value(a, ds);
    DigitsStartNonzero(b, n);
    LeadingZerosOf(k, Digits(b, n));
    ValueOfZeros(b, k, Digits(b, n));
    ValueOfDigits(b, n);
    ZerosThenRest(ds);
    ValueOfZeros(a, k, ds[k..]);
    DigitsOfValue(a, ds[k..]);
  }

  // ---- Characters ----

  /** A character's place in the alphabet, 58 if it has none. */
  function IndexFrom(c: char, i: nat): (r: nat)
    requires i <= 58
    ensures r <= 58 && (r < 58 ==> i <= r && Letter(r) == c)
    ensures r == 58 ==> forall k :: i <= k < 58 ==> Letter(k) != c
    decreases 58 - i
  {
    if i == 58 then 58 else if Letter(i) == c then i else IndexFrom(c, i + 1)
  }

  function Index(c: char): nat {
    IndexFrom(c, 0)
  }

  lemma {:induction false} AlphabetDistinct(i: nat, j: nat)
    requires i <= j < 58
    ensures IndexFrom(Letter(j), i) == j
    decreases j - i
  {
    if i < j {
      AlphabetDistinct(i + 1, j);
    }
  }

  predicate InAlphabet(s: string) {
    forall i :: 0 <= i < |s| ==> Index(s[i]) < 58
  }

  function Text(ds: seq<nat>): (s: string)
    requires DigitsOf(58, ds)
    ensures |s| == |ds| && forall i :: 0 <= i < |s| ==> s[i] == Letter(ds[i])
  {
    seq(|ds|, i requires 0 <= i < |ds| => Letter(ds[i]))
  }

  function Indexes(s: string): (ds: seq<nat>)
    ensures |ds| == |s| && forall i :: 0 <= i < |s| ==> ds[i] == Index(s[i])
  {
    seq(|s|, i requires 0 <= i < |s| => Index(s[i]))
  }

  lemma IndexesOfText(ds: seq<nat>)
    requires DigitsOf(58, ds)
    ensures InAlphabet(Text(ds)) && Indexes(Text(ds)) == ds
  {
    forall i | 0 <= i < |ds| ensures Index(Text(ds)[i]) == ds[i] { AlphabetDistinct(0, ds[i]); }
  }

  lemma TextOfIndexes(s: string)
    requires InAlphabet(s)
    ensures DigitsOf(58, Indexes(s)) && Text(Indexes(s)) == s
  {
  }

  // ---- Encoding and decoding ----

  function Encoded(bytes: seq<Byte>): string {
    Text(Convert(256, 58, bytes))
  }

  function Decoded(s: string): Option<seq<Byte>> {
    if InAlphabet(s) then Some(Convert(58, 256, Indexes(s))) else None
  }

  method NumberOf(bytes: seq<Byte>) returns (n: nat)
    ensures n == Value(256, bytes)
  {
    n := 0;
    for i := 0 to |bytes|
      invariant n == Value(256, bytes[..i])
    {
      assert bytes[..i + 1][..i] == bytes[..i];
      n := n * 256 + bytes[i];
    }
    assert bytes[..|bytes|] == bytes;
  }

  lemma MoreDigits(base: nat, n: nat, tail: seq<nat>)
    requires base > 1 && n > 0
    ensures Digits(base, n / base) + ([n % base] + tail) == Digits(base, n) + tail
  {
  }

  method TextOfNumber(number: nat) returns (out: string)
    ensures out == Text(Digits(58, number))
  {
    hide Digits, Letter;
    var n := number;
    ghost var tail: seq<nat> := [];
    out := "";
    while n > 0
      invariant DigitsOf(58, tail) && out == Text(tail)
      invariant Digits(58, n) + tail == Digits(58, number)
    {
      MoreDigits(58, n, tail);
      var rem := n % 58;
      n, out, tail := n / 58, [Letter(rem)] + out, [rem] + tail;
    }
    NoDigits(58, tail);
  }

  method Encode(bytes: seq<Byte>) returns (out: string)
    ensures out == Encoded(bytes)
  {
    hide Value, Digits, LeadingZeros, Text, Zeros;
    if |bytes| == 0 {
      NothingConverts(256, 58);
      assert Text([]) == "";
      return "";
    }
    var n := NumberOf(bytes);
    out := TextOfNumber(n);
    ghost var tail := Digits(58, n);
    var i := 0;
    while i < |bytes| && bytes[i] == 0
      invariant i <= |bytes| && LeadingZeros(bytes) == i + LeadingZeros(bytes[i..])
      invariant out == Text(Zeros(i) + tail)
    {
      OneMoreZero(bytes, i);
      OneZeroMore(i, tail);
      TextOfOneMore(Zeros(i) + tail);
      out, i := "1" + out, i + 1;
    }
    NoMoreZeros(bytes, i);
  }

  lemma NothingConverts(from: nat, to: nat)
    requires to > 1
    ensures Convert(from, to, []) == []
  {
  }

  lemma NoDigits(base: nat, tail: seq<nat>)
    requires base > 1
    ensures Digits(base, 0) + tail == tail
  {
  }

  lemma TextOfOneMore(ds: seq<nat>)
    requires DigitsOf(58, ds)
    ensures Text([0] + ds) == "1" + Text(ds)
  {
  }

  lemma OneMoreZero(ds: seq<nat>, i: nat)
    requires i < |ds| && ds[i] == 0
    ensures LeadingZeros(ds[i..]) == 1 + LeadingZeros(ds[i + 1..])
  {
    assert ds[i..][1..] == ds[i + 1..];
  }

  lemma NoMoreZeros(ds: seq<nat>, i: nat)
    requires i == |ds| || (i < |ds| && ds[i] > 0)
    ensures LeadingZeros(ds[i..]) == 0
  {
  }

  lemma OneZeroMore(i: nat, tail: seq<nat>)
    ensures [0] + (Zeros(i) + tail) == Zeros(i + 1) + tail
  {
  }

  method ReadNumber(s: string) returns (n: Option<nat>)
    ensures n == if InAlphabet(s) then Some(Value(58, Indexes(s))) else None
  {
    var m: nat := 0;
    for i := 0 to |s|
      invariant InAlphabet(s[..i]) && m == Value(58, Indexes(s[..i]))
    {
      assert s[..i + 1][..i] == s[..i];
      assert Indexes(s[..i + 1])[..i] == Indexes(s[..i]);
      var v := Index(s[i]);
      if v == 58 { return None; }
      m := m * 58 + v;
    }
    assert s[..|s|] == s;
    n := Some(m);
  }

  /** Nothing, where the source throws on a character outside the alphabet. */
  method Decode(s: string) returns (r: Option<seq<Byte>>)
    ensures r == Decoded(s)
  {
    hide Value, Digits, LeadingZeros, Index;
    if |s| == 0 {
      NothingConverts(58, 256);
      assert Indexes(s) == [];
      return Some([]);
    }
    var read := ReadNumber(s);
    if read.None? { return None; }
    var n := read.value;
    var bytes: seq<Byte> := [];
    while n > 0
      invariant Digits(256, n) + bytes == Digits(256, Value(58, Indexes(s)))
    {
      MoreDigits(256, n, bytes);
      var low := n % 256;
      n, bytes := n / 256, [low] + bytes;
    }
    NoDigits(256, bytes);
    ghost var tail: seq<nat> := bytes;
    var i := 0;
    while i < |s| && s[i] == '1'
      invariant i <= |s| && LeadingZeros(Indexes(s)) == i + LeadingZeros(Indexes(s)[i..])
      invariant bytes == Zeros(i) + tail
    {
      OnlyOneIsZero(s[i]);
      OneMoreZero(Indexes(s), i);
      OneZeroMore(i, tail);
      bytes, i := [0] + bytes, i + 1;
    }
    if i < |s| { OnlyOneIsZero(s[i]); }
    NoMoreZeros(Indexes(s), i);
    r := Some(bytes);
  }

  lemma OnlyOneIsZero(c: char)
    ensures Index(c) == 0 <==> c == '1'
  {
    assert Letter(0) == '1';
  }

  // ---- A bijection ----

  lemma DecodeEncoded(bytes: seq<Byte>)
    ensures Decoded(Encoded(bytes)) == Some(bytes)
  {
    IndexesOfText(Convert(256, 58, bytes));
    ConvertBack(256, 58, bytes);
  }

  lemma EncodeDecoded(s: string)
    requires InAlphabet(s)
    ensures Decoded(s).Some? && Encoded(Decoded(s).value) == s
  {
    TextOfIndexes(s);
    ConvertBack(58, 256, Indexes(s));
  }

  // ---- Length ----

  lemma {:induction false} DigitsAtLeast(base: nat, ds: seq<nat>)
    requires base > 1 && ds != [] && ds[0] > 0
    ensures Value(base, ds) >= Pow(base, |ds| - 1)
  {
    if |ds| > 1 {
      var before := ds[..|ds| - 1];
      DigitsAtLeast(base, before);
      TimesMonotone(Pow(base, |ds| - 2), Value(base, before), base);
    }
  }

  lemma {:induction false} ValueBelow(base: nat, ds: seq<nat>)
    requires base > 1 && DigitsOf(base, ds)
    ensures Value(base, ds) < Pow(base, |ds|)
  {
    if ds != [] {
      var before := ds[..|ds| - 1];
      ValueBelow(base, before);
      hide Value, Pow;
      TimesMonotone(Value(base, before) + 1, Pow(base, |ds| - 1), base);
      assert (Value(base, before) + 1) * base == Value(base, before) * base + base;
      assert before + [ds[|ds| - 1]] == ds;
      ValueAppend(base, before, ds[|ds| - 1]);
      PowStep(base, |ds| - 1);
    }
  }

  lemma PowStep(b: int, n: nat)
    ensures Pow(b, n + 1) == Pow(b, n) * b
  {
  }

  lemma TimesMonotone(a: int, b: int, c: nat)
    requires a <= b
    ensures a * c <= b * c
  {
    assert (b - a) * c == b * c - a * c;
    ProductNonneg(b - a, c);
  }

  lemma {:induction false} PowMonotone(a: nat, b: nat, n: nat)
    requires a <= b
    ensures 0 <= Pow(a, n) <= Pow(b, n)
  {
    PowNonneg(a, n);
    if n > 0 {
      PowMonotone(a, b, n - 1);
      TimesMonotone(a, b, Pow(a, n - 1));
      TimesMonotone(Pow(a, n - 1), Pow(b, n - 1), b);
    }
  }

  lemma {:induction false} PowMonotoneStrictly(a: nat, b: nat, n: nat)
    requires a < b && n > 0
    ensures 0 <= Pow(a, n) < Pow(b, n)
  {
    PowMonotone(a, b, n - 1);
    PowMonotone(1, b, n - 1);
    PowOfOne(n - 1);
    TimesMonotone(Pow(a, n - 1), Pow(b, n - 1), a);
    TimesMonotone(a + 1, b, Pow(b, n - 1));
  }

  lemma {:induction false} PowGrows(b: nat, m: nat, n: nat)
    requires b >= 1 && m <= n
    ensures Pow(b, m) <= Pow(b, n)
  {
    if m < n {
      PowGrows(b, m, n - 1);
      PowMonotone(1, b, n - 1);
      PowOfOne(n - 1);
      MultipleAtLeast(Pow(b, n - 1), b);
    }
  }

  /** Eleven digits in base 58 hold more than eight bytes. */
  lemma ElevenForEight()
    ensures Pow(58, 11) > Pow(256, 8)
  {
    assert Pow(58, 5) == 656356768 && Pow(256, 4) == 4294967296;
    PowAdd(58, 5, 5);
    PowAdd(256, 4, 4);
    assert Pow(58, 11) == 58 * Pow(58, 10);
  }

  /** A number of m bytes has at most 11/8 m digits in base 58, rounded up. */
  lemma DigitCount(m: nat, ds: seq<nat>)
    requires DigitsOf(58, ds) && (ds == [] || ds[0] > 0) && Value(58, ds) < Pow(256, m)
    ensures 8 * |ds| <= 11 * m + 7
  {
    if ds != [] && 8 * (|ds| - 1) >= 11 * m {
      var k := |ds| - 1;
      DigitsAtLeast(58, ds);
      PowNonneg(58, k);
      PowMonotoneStrictly(Pow(58, k), Pow(256, m), 8);
      PowOfPow(58, k, 8);
      PowOfPow(256, m, 8);
      PowOfPow(58, 11, m);
      PowOfPow(256, 8, m);
      ElevenForEight();
      PowMonotone(Pow(256, 8), Pow(58, 11), m);
      PowGrows(58, 11 * m, k * 8);
    }
  }

  /** So 32 bytes take at most 44 characters, and 64 bytes at most 88. */
  lemma EncodedLength(bytes: seq<Byte>)
    ensures |bytes| <= |Encoded(bytes)| && 8 * |Encoded(bytes)| <= 11 * |bytes| + 7
  {
    hide Value, Digits, LeadingZeros, Pow;
    var k, n := LeadingZeros(bytes), Value(256, bytes);
    ZerosThenRest(bytes);
    ValueOfZeros(256, k, bytes[k..]);
    ValueBelow(256, bytes[k..]);
    ValueOfDigits(58, n);
    DigitsStartNonzero(58, n);
    NoDigits(58, []);
    DigitCount(|bytes| - k, Digits(58, n));
    AtLeastAsMany(bytes);
  }

  lemma AtLeastAsMany(bytes: seq<Byte>)
    ensures |bytes| <= |Encoded(bytes)|
  {
    hide Value, Digits, LeadingZeros, Pow;
    var k, n := LeadingZeros(bytes), Value(256, bytes);
    ZerosThenRest(bytes);
    ValueOfZeros(256, k, bytes[k..]);
    if k < |bytes| {
      DigitsAtLeast(256, bytes[k..]);
      ValueOfDigits(58, n);
      ValueBelow(58, Digits(58, n));
      var m, j := |bytes| - k, |Digits(58, n)|;
      if j < m {
        PowMonotone(58, 256, j);
        PowGrows(256, j, m - 1);
      }
    }
  }
}
