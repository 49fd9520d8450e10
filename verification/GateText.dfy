/**
 The text that release fingerprints are hashes of: JSON with the names of every object in order, written
 without whitespace. It is one-to-one: two values with the same text are the same value.

 Strings are sequences of Unicode scalar values, and hashes are taken of bytes, text being encoded in UTF-8.
 */
module GateText {
  type Byte = b: int | 0 <= b < 256

  /** What `JSON.parse` gives, its numbers integers. The order of an object's members plays no part. */
  datatype Json =
    | Null
    | Bool(b: bool)
    | Number(n: int)
    | String(s: string)
    | Array(items: seq<Json>)
    | Object(fields: map<string, Json>)

  // ---- The order of names ----

  /** The place of a character when strings are compared by UTF-16 code units: surrogates come before U+E000. */
  function Place(c: char): int {
    if '\U{e000}' <= c < '\U{10000}' then c as int + 0x110000 else c as int
  }

  /** `a < b` for JavaScript strings. */
  predicate Less(a: string, b: string) {
    b != [] && (a == [] || Place(a[0]) < Place(b[0]) || (a[0] == b[0] && Less(a[1..], b[1..])))
  }

  lemma {:induction false} LessTotal(a: string, b: string)
    ensures Less(a, b) || Less(b, a) || a == b
    ensures !(Less(a, b) && Less(b, a)) && !Less(a, a)
  {
    if a != [] {
      LessTotal(a[1..], a[1..]);
      if b != [] {
        LessTotal(a[1..], b[1..]);
        if a[0] == b[0] && a[1..] == b[1..] {
          assert a == [a[0]] + a[1..] && b == [b[0]] + b[1..];
        }
      }
    }
  }

  lemma {:induction false} LessTransitive(a: string, b: string, c: string)
    requires Less(a, b) && Less(b, c)
    ensures Less(a, c)
  {
    if a != [] && a[0] == b[0] && b[0] == c[0] { LessTransitive(a[1..], b[1..], c[1..]); }
  }

  predicate IsLeast(s: set<string>, k: string) {
    k in s && forall j :: j in s ==> j == k || Less(k, j)
  }

  lemma {:induction false} LeastExists(s: set<string>)
    requires s != {}
    ensures exists k :: IsLeast(s, k)
  {
    var x :| x in s;
    var rest := s - {x};
    assert forall j :: j in s ==> j == x || j in rest;
    if rest == {} {
      assert IsLeast(s, x);
    } else {
      LeastExists(rest);
      var k :| IsLeast(rest, k);
      LessTotal(x, k);
      if Less(x, k) {
        forall j | j in s ensures j == x || Less(x, j) {
          if j != x && j != k { LessTransitive(x, k, j); }
        }
        assert IsLeast(s, x);
      } else {
        assert IsLeast(s, k);
      }
    }
  }

  lemma LeastIsUnique(s: set<string>, j: string, k: string)
    requires IsLeast(s, j) && IsLeast(s, k)
    ensures j == k
  {
    LessTotal(j, k);
  }

  /** `Object.keys(value).sort()` */
  function Ordered(s: set<string>): (keys: seq<string>)
    ensures forall k :: k in keys <==> k in s
  {
    if s == {} then []
    else
      LeastExists(s);
      assert forall j, k :: IsLeast(s, j) && IsLeast(s, k) ==> j == k by {
        forall j, k | IsLeast(s, j) && IsLeast(s, k) ensures j == k { LeastIsUnique(s, j, k); }
      }
      var k :| IsLeast(s, k);
      [k] + Ordered(s - {k})
  }

  // ---- Printing ----

  function Digit(n: nat): char
    requires n < 10
  {
    '0' + n as char
  }

  function Digits(n: nat): string {
    if n < 10 then [Digit(n)] else Digits(n / 10) + [Digit(n % 10)]
  }

  function Decimal(n: int): string {
    if n < 0 then "-" + Digits(-n) else Digits(n)
  }

  function HexDigit(n: nat): char
    requires n < 16
  {
    if n < 10 then '0' + n as char else 'a' + (n - 10) as char
  }

  /** One character of a string, as `JSON.stringify` writes it. */
  function EscapedChar(c: char): string {
    if c == '"' || c == '\\' then ['\\', c]
    else if c == '\U{0008}' then "\\b"
    else if c == '\t' then "\\t"
    else if c == '\n' then "\\n"
    else if c == '\U{000c}' then "\\f"
    else if c == '\r' then "\\r"
    else if c < ' ' then "\\u00" + [HexDigit(c as int / 16), HexDigit(c as int % 16)]
    else [c]
  }

  function Escaped(s: string): string {
    if s == [] then [] else EscapedChar(s[0]) + Escaped(s[1..])
  }

  function Quoted(s: string): string {
    "\"" + Escaped(s) + "\""
  }

  function Join(parts: seq<string>): string {
    if parts == [] then [] else if |parts| == 1 then parts[0] else parts[0] + "," + Join(parts[1..])
  }

  /** The source's `sorted`. */
  function Sorted(v: Json): string
    decreases v, 1, 0
  {
    match v
    case Null => "null"
    case Bool(b) => if b then "true" else "false"
    case Number(n) => Decimal(n)
    case String(s) => Quoted(s)
    case Array(items) => "[" + Join(SortedItems(v, items)) + "]"
    case Object(fields) => "{" + Join(SortedFields(v, Ordered(fields.Keys))) + "}"
  }

  function SortedItems(owner: Json, items: seq<Json>): seq<string>
    requires owner.Array? && forall v :: v in items ==> v in owner.items
    decreases owner, 0, |items|
  {
    if items == [] then []
    else
      assert items[0] in owner.items;
      [Sorted(items[0])] + SortedItems(owner, items[1..])
  }

  function SortedFields(owner: Json, keys: seq<string>): seq<string>
    requires owner.Object? && forall k :: k in keys ==> k in owner.fields
    decreases owner, 0, |keys|
  {
    if keys == [] then []
    else
      assert keys[0] in keys;
      [Quoted(keys[0]) + ":" + Sorted(owner.fields[keys[0]])] + SortedFields(owner, keys[1..])
  }

  // ---- The text is one-to-one ----

  lemma EscapedCharSplits(c: char, d: char, x: string, y: string)
    requires EscapedChar(c) + x == EscapedChar(d) + y
    ensures c == d && x == y
  {
    var a, b := EscapedChar(c) + x, EscapedChar(d) + y;
    assert a[0] == b[0];
    assert |a| > 1 && |b| > 1 ==> a[1] == b[1];
    assert |a| > 5 && |b| > 5 ==> a[4] == b[4] && a[5] == b[5];
    HexOfControl(c);
    HexOfControl(d);
    assert a[|EscapedChar(c)|..] == x && b[|EscapedChar(d)|..] == y;
  }

  lemma HexOfControl(c: char)
    ensures c < ' ' ==> var h, l := HexDigit(c as int / 16), HexDigit(c as int % 16);
                        HexValue(h) * 16 + HexValue(l) == c as int
  {
  }

  function HexValue(c: char): int {
    if '0' <= c <= '9' then c as int - '0' as int else c as int - 'a' as int + 10
  }

  lemma EscapedCharStarts(c: char)
    ensures EscapedChar(c) != [] && EscapedChar(c)[0] != '"'
  {
  }

  lemma {:induction false} EscapedSplits(a: string, b: string, x: string, y: string)
    requires Escaped(a) + ("\"" + x) == Escaped(b) + ("\"" + y)
    ensures a == b && x == y
  {
    hide EscapedChar;
    var s, t := Escaped(a) + ("\"" + x), Escaped(b) + ("\"" + y);
    EscapedStep(a, "\"" + x);
    EscapedStep(b, "\"" + y);
    if a == [] || b == [] {
      assert s[0] == t[0];
      assert s[1..] == x && t[1..] == y;
    } else {
      EscapedCharSplits(a[0], b[0], Escaped(a[1..]) + ("\"" + x), Escaped(b[1..]) + ("\"" + y));
      EscapedSplits(a[1..], b[1..], x, y);
      assert a == [a[0]] + a[1..] && b == [b[0]] + b[1..];
    }
  }

  lemma EscapedStep(a: string, tail: string)
    ensures a == [] ==> Escaped(a) + tail == tail
    ensures a != [] ==>
              Escaped(a) + tail == EscapedChar(a[0]) + (Escaped(a[1..]) + tail) &&
              (Escaped(a) + tail)[0] != '"'
  {
    hide EscapedChar;
    if a != [] { EscapedCharStarts(a[0]); }
  }

  lemma QuotedSplits(a: string, b: string, x: string, y: string)
    requires Quoted(a) + x == Quoted(b) + y
    ensures a == b && x == y
  {
    hide Escaped;
    QuotedText(a, x);
    QuotedText(b, y);
    EscapedSplits(a, b, x, y);
  }

  lemma QuotedText(a: string, x: string)
    ensures (Quoted(a) + x)[1..] == Escaped(a) + ("\"" + x) && (Quoted(a) + x)[0] == '"'
  {
    hide Escaped;
  }

  // Numbers: the digits end where the tail begins, as no tail begins with a digit.

  predicate IsDigit(c: char) {
    '0' <= c <= '9'
  }

  /** A text that cannot go on with the number before it. */
  predicate Delimited(tail: string) {
    tail == [] || !IsDigit(tail[0])
  }

  function DigitRun(s: string): nat {
    if s == [] || !IsDigit(s[0]) then 0 else 1 + DigitRun(s[1..])
  }

  function ValueOf(s: string): int {
    if s == [] then 0 else ValueOf(s[..|s| - 1]) * 10 + (s[|s| - 1] as int - '0' as int)
  }

  lemma {:induction false} DigitsRead(n: nat)
    ensures Digits(n) != [] && ValueOf(Digits(n)) == n && forall k :: 0 <= k < |Digits(n)| ==> IsDigit(Digits(n)[k])
  {
    if n >= 10 {
      DigitsRead(n / 10);
      assert Digits(n)[..|Digits(n)| - 1] == Digits(n / 10);
    }
  }

  lemma {:induction false} RunOf(s: string, tail: string)
    requires Delimited(tail) && forall k :: 0 <= k < |s| ==> IsDigit(s[k])
    ensures DigitRun(s + tail) == |s|
  {
    if s == [] {
      assert s + tail == tail;
    } else {
      assert (s + tail)[1..] == s[1..] + tail;
      RunOf(s[1..], tail);
    }
  }

  lemma DigitsSplit(m: nat, n: nat, x: string, y: string)
    requires Digits(m) + x == Digits(n) + y && Delimited(x) && Delimited(y)
    ensures m == n && x == y
  {
    hide Digits, ValueOf, DigitRun;
    DigitsRead(m);
    DigitsRead(n);
    RunOf(Digits(m), x);
    RunOf(Digits(n), y);
    assert (Digits(m) + x)[..|Digits(m)|] == Digits(m) && (Digits(n) + y)[..|Digits(n)|] == Digits(n);
    assert (Digits(m) + x)[|Digits(m)|..] == x && (Digits(n) + y)[|Digits(n)|..] == y;
  }

  lemma DecimalStarts(n: int, x: string)
    ensures var t := Decimal(n) + x;
            t != [] && if n < 0 then t[0] == '-' && t[1..] == Digits(-n) + x else IsDigit(t[0]) && t == Digits(n) + x
  {
    hide Digits;
    if n >= 0 { DigitsRead(n); }
  }

  lemma DecimalSplits(m: int, n: int, x: string, y: string)
    requires Decimal(m) + x == Decimal(n) + y && Delimited(x) && Delimited(y)
    ensures m == n && x == y
  {
    hide Decimal, Digits;
    DecimalStarts(m, x);
    DecimalStarts(n, y);
    if m < 0 { DigitsSplit(-m, -n, x, y); } else { DigitsSplit(m, n, x, y); }
  }

  // Values: the first character tells what kind of value it is.

  /** `k` is the kind of a value, by its first character. */
  predicate Starts(v: Json, c: char) {
    match v
    case Null => c == 'n'
    case Bool(b) => c == if b then 't' else 'f'
    case Number(_) => c == '-' || IsDigit(c)
    case String(_) => c == '"'
    case Array(_) => c == '['
    case Object(_) => c == '{'
  }

  lemma SortedStarts(v: Json, tail: string)
    ensures Sorted(v) + tail != [] && Starts(v, (Sorted(v) + tail)[0])
  {
    hide Ordered, Join, Digits, Escaped;
    match v
    case Number(n) => DecimalStarts(n, tail);
    case String(s) => QuotedText(s, tail);
    case _ =>
  }

  lemma JoinStep(part: string, rest: seq<string>, tail: string)
    ensures Join([part] + rest) + tail == part + (if rest == [] then tail else "," + (Join(rest) + tail))
  {
    assert ([part] + rest)[1..] == rest;
    if rest != [] { assert part + "," + Join(rest) + tail == part + ("," + (Join(rest) + tail)); }
  }

  lemma {:induction false} SortedSplits(v: Json, w: Json, x: string, y: string)
    requires Sorted(v) + x == Sorted(w) + y && Delimited(x) && Delimited(y)
    ensures v == w && x == y
    decreases v, 2, 0
  {
    hide Sorted, Decimal, Quoted;
    SortedStarts(v, x);
    SortedStarts(w, y);
    match v
    case Null => NullSplits(v, w, x, y);
    case Bool(_) => NullSplits(v, w, x, y);
    case Number(m) => NumberText(v, x); NumberText(w, y); DecimalSplits(m, w.n, x, y);
    case String(s) => StringText(v, x); StringText(w, y); QuotedSplits(s, w.s, x, y);
    case Array(items) => ArraySplits(v, w, x, y);
    case Object(fields) => ObjectSplits(v, w, x, y);
  }

  lemma NumberText(v: Json, x: string)
    requires v.Number?
    ensures Sorted(v) + x == Decimal(v.n) + x
  {
  }

  lemma StringText(v: Json, x: string)
    requires v.String?
    ensures Sorted(v) + x == Quoted(v.s) + x
  {
  }

  lemma NullSplits(v: Json, w: Json, x: string, y: string)
    requires (v.Null? && w.Null?) || (v.Bool? && w.Bool? && v.b == w.b)
    requires Sorted(v) + x == Sorted(w) + y
    ensures v == w && x == y
  {
    assert (Sorted(v) + x)[|Sorted(v)|..] == x && (Sorted(w) + y)[|Sorted(w)|..] == y;
  }

  /** What comes after the brackets' opening. */
  lemma ArrayText(v: Json, x: string)
    requires v.Array?
    ensures (Sorted(v) + x)[1..] == Join(SortedItems(v, v.items)) + ("]" + x)
  {
    hide Join, SortedItems;
  }

  lemma ObjectText(v: Json, x: string)
    requires v.Object?
    ensures (Sorted(v) + x)[1..] == Join(SortedFields(v, Ordered(v.fields.Keys))) + ("}" + x)
  {
    hide Join, SortedFields, Ordered;
  }

  lemma {:induction false} ArraySplits(v: Json, w: Json, x: string, y: string)
    requires v.Array? && w.Array? && Sorted(v) + x == Sorted(w) + y && Delimited(x) && Delimited(y)
    ensures v == w && x == y
    decreases v, 1, 0
  {
    hide Sorted, Join, SortedItems;
    ArrayText(v, x);
    ArrayText(w, y);
    ItemsSplit(v, v.items, w, w.items, x, y);
  }

  lemma {:induction false} ItemsSplit(v: Json, a: seq<Json>, w: Json, b: seq<Json>, x: string, y: string)
    requires v.Array? && w.Array? && (forall i :: i in a ==> i in v.items) && (forall i :: i in b ==> i in w.items)
    requires Join(SortedItems(v, a)) + ("]" + x) == Join(SortedItems(w, b)) + ("]" + y)
    ensures a == b && x == y
    decreases v, 0, |a|
  {
    hide Sorted;
    ItemsStep(v, a, "]" + x);
    ItemsStep(w, b, "]" + y);
    if a == [] || b == [] {
      if a != [] { SortedStarts(a[0], ItemsTail(v, a, "]" + x)); }
      if b != [] { SortedStarts(b[0], ItemsTail(w, b, "]" + y)); }
      assert ("]" + x)[1..] == x && ("]" + y)[1..] == y;
    } else {
      var s, t := ItemsTail(v, a, "]" + x), ItemsTail(w, b, "]" + y);
      assert a[0] in v.items;
      SortedSplits(a[0], b[0], s, t);
      if |a| == 1 || |b| == 1 {
        assert s[1..] == x || |a| > 1;
        assert t[1..] == y || |b| > 1;
      } else {
        assert s[1..] == Join(SortedItems(v, a[1..])) + ("]" + x) && t[1..] == Join(SortedItems(w, b[1..])) + ("]" + y);
        ItemsSplit(v, a[1..], w, b[1..], x, y);
      }
      assert a == [a[0]] + a[1..] && b == [b[0]] + b[1..];
    }
  }

  /** What follows the first of some items. */
  function ItemsTail(v: Json, a: seq<Json>, tail: string): string
    requires v.Array? && a != [] && forall i :: i in a ==> i in v.items
  {
    if |a| == 1 then tail else "," + (Join(SortedItems(v, a[1..])) + tail)
  }

  lemma ItemsStep(v: Json, a: seq<Json>, tail: string)
    requires v.Array? && forall i :: i in a ==> i in v.items
    ensures a == [] ==> Join(SortedItems(v, a)) + tail == tail
    ensures a != [] ==> Join(SortedItems(v, a)) + tail == Sorted(a[0]) + ItemsTail(v, a, tail)
  {
    hide Sorted, Join;
    if a == [] {
      NothingJoined();
    } else {
      JoinStep(Sorted(a[0]), SortedItems(v, a[1..]), tail);
    }
  }

  lemma NothingJoined()
    ensures Join([]) == []
  {
  }

  lemma {:induction false} ObjectSplits(v: Json, w: Json, x: string, y: string)
    requires v.Object? && w.Object? && Sorted(v) + x == Sorted(w) + y && Delimited(x) && Delimited(y)
    ensures v == w && x == y
    decreases v, 1, 0
  {
    hide Sorted, Join, SortedFields, Ordered;
    ObjectText(v, x);
    ObjectText(w, y);
    var a, b := Ordered(v.fields.Keys), Ordered(w.fields.Keys);
    FieldsSplit(v, a, w, b, x, y);
    assert v.fields.Keys == w.fields.Keys by {
      assert forall k :: k in v.fields.Keys <==> k in a;
      assert forall k :: k in w.fields.Keys <==> k in b;
    }
    assert v.fields == w.fields by {
      forall k | k in v.fields ensures k in w.fields && v.fields[k] == w.fields[k] {
        assert k in v.fields.Keys && k in a;
      }
    }
  }

  lemma {:induction false} FieldsSplit(v: Json, a: seq<string>, w: Json, b: seq<string>, x: string, y: string)
    requires v.Object? && w.Object? && (forall k :: k in a ==> k in v.fields) && (forall k :: k in b ==> k in w.fields)
    requires Join(SortedFields(v, a)) + ("}" + x) == Join(SortedFields(w, b)) + ("}" + y)
    ensures a == b && x == y && forall k :: k in a ==> v.fields[k] == w.fields[k]
    decreases v, 0, |a|
  {
    hide Sorted, Quoted;
    FieldsStep(v, a, "}" + x);
    FieldsStep(w, b, "}" + y);
    if a == [] || b == [] {
      if a != [] { QuotedText(a[0], ":" + (Sorted(v.fields[a[0]]) + FieldsTail(v, a, "}" + x))); }
      if b != [] { QuotedText(b[0], ":" + (Sorted(w.fields[b[0]]) + FieldsTail(w, b, "}" + y))); }
      assert ("}" + x)[1..] == x && ("}" + y)[1..] == y;
    } else {
      var s, t := FieldsTail(v, a, "}" + x), FieldsTail(w, b, "}" + y);
      assert a[0] in a && b[0] in b;
      var p, q := Sorted(v.fields[a[0]]) + s, Sorted(w.fields[b[0]]) + t;
      QuotedSplits(a[0], b[0], ":" + p, ":" + q);
      assert (":" + p)[1..] == p && (":" + q)[1..] == q;
      SortedSplits(v.fields[a[0]], w.fields[b[0]], s, t);
      if |a| == 1 || |b| == 1 {
        assert s[1..] == x || |a| > 1;
        assert t[1..] == y || |b| > 1;
      } else {
        assert s[1..] == Join(SortedFields(v, a[1..])) + ("}" + x) &&
            t[1..] == Join(SortedFields(w, b[1..])) + ("}" + y);
        FieldsSplit(v, a[1..], w, b[1..], x, y);
      }
      assert a == [a[0]] + a[1..] && b == [b[0]] + b[1..];
    }
  }

  /** What follows the first of some fields. */
  function FieldsTail(v: Json, a: seq<string>, tail: string): string
    requires v.Object? && a != [] && forall k :: k in a ==> k in v.fields
  {
    if |a| == 1 then tail else "," + (Join(SortedFields(v, a[1..])) + tail)
  }

  lemma FieldsStep(v: Json, a: seq<string>, tail: string)
    requires v.Object? && forall k :: k in a ==> k in v.fields
    ensures a == [] ==> Join(SortedFields(v, a)) + tail == tail
    ensures a != [] ==> a[0] in v.fields &&
                        Join(SortedFields(v, a)) + tail ==
                        Quoted(a[0]) + (":" + (Sorted(v.fields[a[0]]) + FieldsTail(v, a, tail)))
  {
    hide Sorted, Join, Quoted;
    if a == [] {
      NothingJoined();
    } else {
      assert a[0] in a;
      var part := Quoted(a[0]) + ":" + Sorted(v.fields[a[0]]);
      JoinStep(part, SortedFields(v, a[1..]), tail);
      FieldRegrouped(Quoted(a[0]), Sorted(v.fields[a[0]]), FieldsTail(v, a, tail));
    }
  }

  lemma FieldRegrouped(name: string, text: string, tail: string)
    ensures name + ":" + text + tail == name + (":" + (text + tail))
  {
  }

  /** Two values have the same text only if they are the same value. */
  lemma SortedIsInjective(v: Json, w: Json)
    requires Sorted(v) == Sorted(w)
    ensures v == w
  {
    hide Sorted;
    assert Sorted(v) + [] == Sorted(v) && Sorted(w) + [] == Sorted(w);
    SortedSplits(v, w, [], []);
  }

  // ---- Bytes ----

  /** The UTF-8 of one character (section 3 of RFC 3629). */
  function Utf8Char(c: char): seq<Byte> {
    var n := c as int;
    if n < 0x80 then [n]
    else if n < 0x800 then [0xC0 + n / 64, 0x80 + n % 64]
    else if n < 0x10000 then [0xE0 + n / 64 / 64, 0x80 + n / 64 % 64, 0x80 + n % 64]
    else [0xF0 + n / 64 / 64 / 64, 0x80 + n / 64 / 64 % 64, 0x80 + n / 64 % 64, 0x80 + n % 64]
  }

  function Utf8(s: string): seq<Byte> {
    if s == [] then [] else Utf8Char(s[0]) + Utf8(s[1..])
  }

  lemma Utf8CharSplits(c: char, d: char, x: seq<Byte>, y: seq<Byte>)
    requires Utf8Char(c) + x == Utf8Char(d) + y
    ensures c == d && x == y
  {
    var a, b := Utf8Char(c) + x, Utf8Char(d) + y;
    Utf8Leads(c);
    Utf8Leads(d);
    assert a[0] == b[0];
    assert |Utf8Char(c)| == |Utf8Char(d)|;
    assert a[..|Utf8Char(c)|] == Utf8Char(c) && b[..|Utf8Char(d)|] == Utf8Char(d);
    assert a[|Utf8Char(c)|..] == x && b[|Utf8Char(d)|..] == y;
    Utf8CharReads(c);
    Utf8CharReads(d);
  }

  /** The first byte tells how many there are. */
  lemma Utf8Leads(c: char)
    ensures var u := Utf8Char(c);
            |u| == if u[0] < 0x80 then 1 else if u[0] < 0xE0 then 2 else if u[0] < 0xF0 then 3 else 4
  {
  }

  /** `high` and six more bits. */
  function SixMore(high: int, b: int): int {
    high * 64 + (b - 0x80)
  }

  function Utf8Value(u: seq<Byte>): int {
    if |u| == 1 then u[0]
    else if |u| == 2 then SixMore((u[0] as int) - 0xC0, u[1])
    else if |u| == 3 then SixMore(SixMore((u[0] as int) - 0xE0, u[1]), u[2])
    else if |u| == 4 then SixMore(SixMore(SixMore((u[0] as int) - 0xF0, u[1]), u[2]), u[3])
    else 0
  }

  lemma Sixes(n: int)
    ensures SixMore(n / 64, 0x80 + n % 64) == n
  {
  }

  lemma Utf8CharReads(c: char)
    ensures Utf8Value(Utf8Char(c)) == c as int
  {
    hide SixMore;
    var n := c as int;
    Sixes(n);
    Sixes(n / 64);
    Sixes(n / 64 / 64);
  }

  lemma {:induction false} Utf8IsInjective(a: string, b: string)
    requires Utf8(a) == Utf8(b)
    ensures a == b
  {
    hide Utf8Char;
    if a != [] { Utf8CharNonempty(a[0]); }
    if b != [] { Utf8CharNonempty(b[0]); }
    if a != [] && b != [] {
      Utf8CharSplits(a[0], b[0], Utf8(a[1..]), Utf8(b[1..]));
      Utf8IsInjective(a[1..], b[1..]);
      assert a == [a[0]] + a[1..] && b == [b[0]] + b[1..];
    }
  }

  lemma Utf8CharNonempty(c: char)
    ensures Utf8Char(c) != []
  {
  }

  predicate IsTail(b: Byte) {
    0x80 <= b <= 0xBF
  }

  /** The sequences of section 4 of RFC 3629: how long the character at the start is, or 0 if there is none. */
  function CharLength(b: seq<Byte>): nat {
    if b == [] then 0
    else if b[0] < 0x80 then 1
    else if 0xC2 <= b[0] <= 0xDF then (if |b| > 1 && IsTail(b[1]) then 2 else 0)
    else if 0xE0 <= b[0] <= 0xEF then
      (if |b| > 2 && IsTail(b[1]) && IsTail(b[2]) && (b[0] == 0xE0 ==> b[1] >= 0xA0) &&
          (b[0] == 0xED ==> b[1] <= 0x9F) then 3 else 0)
    else if 0xF0 <= b[0] <= 0xF4 then
      (if |b| > 3 && IsTail(b[1]) && IsTail(b[2]) && IsTail(b[3]) && (b[0] == 0xF0 ==> b[1] >= 0x90) &&
          (b[0] == 0xF4 ==> b[1] <= 0x8F) then 4
       else 0)
    else 0
  }

  /** Decoding and encoding again gives back the same bytes. */
  predicate IsUtf8(b: seq<Byte>) {
    b == [] || (CharLength(b) > 0 && IsUtf8(b[CharLength(b)..]))
  }

  lemma {:induction false} TextIsUtf8(s: string)
    ensures IsUtf8(Utf8(s))
  {
    if s != [] {
      TextIsUtf8(s[1..]);
      CharLengthOf(s[0], Utf8(s[1..]));
    }
  }

  lemma CharLengthOf(c: char, x: seq<Byte>)
    ensures CharLength(Utf8Char(c) + x) == |Utf8Char(c)| > 0 && (Utf8Char(c) + x)[|Utf8Char(c)|..] == x
  {
    var b := Utf8Char(c) + x;
    assert forall k :: 0 <= k < |Utf8Char(c)| ==> b[k] == Utf8Char(c)[k];
    assert b[|Utf8Char(c)|..] == x;
  }

  /** Bytes that are UTF-8 are the encoding of a text. */
  lemma {:induction false} Utf8IsText(b: seq<Byte>) returns (s: string)
    requires IsUtf8(b)
    ensures Utf8(s) == b
  {
    if b == [] {
      s := [];
    } else {
      var n := CharLength(b);
      var c := CharOf(b);
      var rest := Utf8IsText(b[n..]);
      s := [c] + rest;
      assert s[1..] == rest && b == b[..n] + b[n..];
    }
  }

  lemma SixLess(high: int, b: int)
    requires 0x80 <= b < 0xC0
    ensures SixMore(high, b) / 64 == high && 0x80 + SixMore(high, b) % 64 == b
  {
  }

  lemma CharOf(b: seq<Byte>) returns (c: char)
    requires CharLength(b) > 0
    ensures Utf8Char(c) == b[..CharLength(b)]
  {
    var u := b[..CharLength(b)];
    var n := Utf8Value(u);
    if |u| == 2 {
      SixLess((u[0] as int) - 0xC0, u[1]);
    } else if |u| == 3 {
      var high := SixMore((u[0] as int) - 0xE0, u[1]);
      SixLess((u[0] as int) - 0xE0, u[1]);
      SixLess(high, u[2]);
    } else if |u| == 4 {
      var high := SixMore((u[0] as int) - 0xF0, u[1]);
      SixLess((u[0] as int) - 0xF0, u[1]);
      SixLess(high, u[2]);
      SixLess(SixMore(high, u[2]), u[3]);
    }
    c := n as char;
  }

  /** `replace(/\r\n/g, "\n")` */
  function UnixText(s: string): string {
    if s == [] then []
    else if |s| > 1 && s[0] == '\r' && s[1] == '\n' then ['\n'] + UnixText(s[2..])
    else [s[0]] + UnixText(s[1..])
  }

  function UnixBytes(b: seq<Byte>): seq<Byte> {
    if b == [] then []
    else if |b| > 1 && b[0] == 0x0D && b[1] == 0x0A then [0x0A] + UnixBytes(b[2..])
    else [b[0]] + UnixBytes(b[1..])
  }

  /** What an input file is hashed as: text with its newlines made uniform, anything else as it is. */
  function Normalised(b: seq<Byte>): seq<Byte> {
    if IsUtf8(b) then UnixBytes(b) else b
  }

  /** On text, that is the replacement of carriage return and newline by newline. */
  lemma NormalisedText(s: string)
    ensures Normalised(Utf8(s)) == Utf8(UnixText(s))
  {
    TextIsUtf8(s);
    UnixOfText(s);
  }

  lemma {:induction false} UnixOfText(s: string)
    ensures UnixBytes(Utf8(s)) == Utf8(UnixText(s))
    decreases |s|
  {
    if s != [] {
      var b := Utf8(s);
      CharBytes(s[0], Utf8(s[1..]));
      if |s| > 1 && s[0] == '\r' && s[1] == '\n' {
        UnixOfText(s[2..]);
        assert s[1..][1..] == s[2..];
        assert b == [0x0D, 0x0A] + Utf8(s[2..]);
        assert UnixText(s)[1..] == UnixText(s[2..]);
      } else {
        UnixOfText(s[1..]);
        if |s| > 1 { CharStart(s[1], Utf8(s[2..])); assert s[1..][1..] == s[2..]; }
        UnixOfChar(s[0], Utf8(s[1..]));
        assert UnixText(s)[1..] == UnixText(s[1..]);
      }
    }
  }

  lemma CharBytes(c: char, x: seq<Byte>)
    ensures c == '\r' ==> Utf8Char(c) == [0x0D]
    ensures c == '\n' ==> Utf8Char(c) == [0x0A]
  {
  }

  lemma CharStart(c: char, x: seq<Byte>)
    ensures (Utf8Char(c) + x)[0] == 0x0A <==> c == '\n'
  {
  }

  /** A character other than a carriage return before a newline is passed over, all of its bytes. */
  lemma UnixOfChar(c: char, x: seq<Byte>)
    requires c == '\r' ==> x == [] || x[0] != 0x0A
    ensures UnixBytes(Utf8Char(c) + x) == Utf8Char(c) + UnixBytes(x)
  {
    UnixPasses(Utf8Char(c), x);
  }

  lemma {:induction false} UnixPasses(u: seq<Byte>, x: seq<Byte>)
    requires forall k :: 0 <= k < |u| - 1 ==> u[k] != 0x0D
    requires u != [] && u[|u| - 1] == 0x0D ==> x == [] || x[0] != 0x0A
    ensures UnixBytes(u + x) == u + UnixBytes(x)
  {
    if u == [] {
      assert u + x == x;
    } else {
      assert (u + x)[1..] == u[1..] + x;
      UnixPasses(u[1..], x);
    }
  }
}
