/**
 The JSON grammar of RFC 8259 as concrete syntax trees over UTF-16 code units.

 A tree keeps every code unit of the text it stands for, whitespace included, so "valid JSON text"
 means "the text of some well-formed tree". One constructor, `Missing`, stands for an absent array
 element. It is not JSON; `Strict` excludes it. It is in the tree type because the canonical
 printer writes a sparse array as if the absent element had an empty text.
 */
module JsonGrammar {
  type Unit = u: int | 0 <= u < 0x10000
  type Text = seq<Unit>

  const QUOTE: Unit := 0x22
  const REVERSE_SOLIDUS: Unit := 0x5c
  const COMMA: Unit := 0x2c
  const COLON: Unit := 0x3a
  const OPEN_OBJECT: Unit := 0x7b
  const CLOSE_OBJECT: Unit := 0x7d
  const OPEN_ARRAY: Unit := 0x5b
  const CLOSE_ARRAY: Unit := 0x5d
  const MINUS: Unit := 0x2d
  const PLUS: Unit := 0x2b
  const FULL_STOP: Unit := 0x2e
  const SMALL_E: Unit := 0x65
  const CAPITAL_E: Unit := 0x45
  const DIGIT_0: Unit := 0x30
  const DIGIT_9: Unit := 0x39
  const SMALL_U: Unit := 0x75

  const NULL: Text := [0x6e, 0x75, 0x6c, 0x6c]
  const TRUE: Text := [0x74, 0x72, 0x75, 0x65]
  const FALSE: Text := [0x66, 0x61, 0x6c, 0x73, 0x65]

  // ---- Lexical classes (sections 2, 6 and 7 of RFC 8259) ----

  predicate IsWhite(u: Unit) {
    u == 0x20 || u == 0x09 || u == 0x0a || u == 0x0d
  }

  predicate IsDigit(u: Unit) {
    DIGIT_0 <= u <= DIGIT_9
  }

  predicate IsHexDigit(u: Unit) {
    IsDigit(u) || 0x41 <= u <= 0x46 || 0x61 <= u <= 0x66
  }

  predicate IsNumberUnit(u: Unit) {
    IsDigit(u) || u == MINUS || u == PLUS || u == FULL_STOP || u == SMALL_E || u == CAPITAL_E
  }

  /** The characters that may follow a reverse solidus other than `u`. */
  predicate IsShortEscape(u: Unit) {
    u == QUOTE || u == REVERSE_SOLIDUS || u == 0x2f || u == 0x62 || u == 0x66 || u == 0x6e || u == 0x72 || u == 0x74
  }

  predicate AllWhite(s: Text) {
    s == [] || (IsWhite(s[0]) && AllWhite(s[1..]))
  }

  predicate AllDigits(s: Text) {
    s == [] || (IsDigit(s[0]) && AllDigits(s[1..]))
  }

  predicate AllNumberUnits(s: Text) {
    s == [] || (IsNumberUnit(s[0]) && AllNumberUnits(s[1..]))
  }

  /** What may stand between the quotation marks of a string. */
  predicate IsBody(s: Text) {
    if s == [] then true
    else if s[0] == REVERSE_SOLIDUS then
      if |s| >= 2 && IsShortEscape(s[1]) then IsBody(s[2..])
      else
        && |s| >= 6 && s[1] == SMALL_U && IsHexDigit(s[2]) && IsHexDigit(s[3]) && IsHexDigit(s[4]) && IsHexDigit(s[5])
        && IsBody(s[6..])
    else s[0] >= 0x20 && s[0] != QUOTE && IsBody(s[1..])
  }

  function DigitRun(s: Text): (n: nat)
    ensures n <= |s|
  {
    if s == [] || !IsDigit(s[0]) then 0 else 1 + DigitRun(s[1..])
  }

  predicate IsExponent(s: Text) {
    s == [] ||
    ((s[0] == SMALL_E || s[0] == CAPITAL_E) &&
     var digits := if |s| > 1 && (s[1] == PLUS || s[1] == MINUS) then s[2..] else s[1..];
     digits != [] && AllDigits(digits))
  }

  predicate IsFraction(s: Text) {
    if s != [] && s[0] == FULL_STOP then
      var n := DigitRun(s[1..]);
      n > 0 && IsExponent(s[1 + n..])
    else IsExponent(s)
  }

  predicate IsUnsigned(s: Text) {
    var n := DigitRun(s);
    n > 0 && (s[0] == DIGIT_0 ==> n == 1) && IsFraction(s[n..])
  }

  /** number = [ minus ] int [ frac ] [ exp ] */
  predicate IsNumber(s: Text) {
    if s != [] && s[0] == MINUS then IsUnsigned(s[1..]) else IsUnsigned(s)
  }

  predicate IsFractionMark(u: Unit) {
    u == FULL_STOP || u == SMALL_E || u == CAPITAL_E
  }

  /** A number written as an integer: an optional minus sign and digits, nothing else. */
  predicate IsIntegerLexeme(s: Text) {
    s == [] || (!IsFractionMark(s[0]) && IsIntegerLexeme(s[1..]))
  }

  // ---- Trees ----

  datatype Value =
    | Missing
    | Word(word: Text)
    | Number(lexeme: Text)
    | String(body: Text)
    | EmptyArray(white: Text)
    | Array(elements: Elements)
    | EmptyObject(white: Text)
    | Object(members: Members)

  /** A value with the whitespace around it. */
  datatype Element = Element(before: Text, value: Value, after: Text)

  datatype Elements = LastElement(last: Element) | MoreElements(first: Element, rest: Elements)

  datatype Member = Member(before: Text, name: Text, after: Text, element: Element)

  datatype Members = LastMember(last: Member) | MoreMembers(first: Member, rest: Members)

  // The text of a tree followed by `tail`. Carrying the tail spares every proof the shuffling of concatenations.

  function ValueText(v: Value, tail: Text): Text {
    match v
    case Missing => tail
    case Word(w) => w + tail
    case Number(lexeme) => lexeme + tail
    case String(body) => [QUOTE] + (body + ([QUOTE] + tail))
    case EmptyArray(white) => [OPEN_ARRAY] + (white + ([CLOSE_ARRAY] + tail))
    case Array(es) => [OPEN_ARRAY] + ElementsText(es, [CLOSE_ARRAY] + tail)
    case EmptyObject(white) => [OPEN_OBJECT] + (white + ([CLOSE_OBJECT] + tail))
    case Object(ms) => [OPEN_OBJECT] + MembersText(ms, [CLOSE_OBJECT] + tail)
  }

  function ElementText(e: Element, tail: Text): Text {
    e.before + ValueText(e.value, e.after + tail)
  }

  function ElementsText(es: Elements, tail: Text): Text {
    match es
    case LastElement(e) => ElementText(e, tail)
    case MoreElements(e, rest) => ElementText(e, [COMMA] + ElementsText(rest, tail))
  }

  function NameText(before: Text, name: Text, after: Text, tail: Text): Text {
    before + ([QUOTE] + (name + ([QUOTE] + (after + ([COLON] + tail)))))
  }

  function MemberText(m: Member, tail: Text): Text {
    NameText(m.before, m.name, m.after, ElementText(m.element, tail))
  }

  function MembersText(ms: Members, tail: Text): Text {
    match ms
    case LastMember(m) => MemberText(m, tail)
    case MoreMembers(m, rest) => MemberText(m, [COMMA] + MembersText(rest, tail))
  }

  /** The text of a document. */
  function DocumentText(doc: Element): Text {
    ElementText(doc, [])
  }

  /** Every lexeme of the tree is one the grammar allows; absent elements are let through. */
  predicate WellFormed(v: Value) {
    match v
    case Missing => true
    case Word(w) => w == NULL || w == TRUE || w == FALSE
    case Number(lexeme) => IsNumber(lexeme)
    case String(body) => IsBody(body)
    case EmptyArray(white) => AllWhite(white)
    case Array(es) => WellFormedElements(es)
    case EmptyObject(white) => AllWhite(white)
    case Object(ms) => WellFormedMembers(ms)
  }

  predicate WellFormedElement(e: Element) {
    AllWhite(e.before) && WellFormed(e.value) && AllWhite(e.after)
  }

  predicate WellFormedElements(es: Elements) {
    match es
    case LastElement(e) => WellFormedElement(e)
    case MoreElements(e, rest) => WellFormedElement(e) && WellFormedElements(rest)
  }

  predicate WellFormedMember(m: Member) {
    AllWhite(m.before) && IsBody(m.name) && AllWhite(m.after) && !m.element.value.Missing? &&
        WellFormedElement(m.element)
  }

  predicate WellFormedMembers(ms: Members) {
    match ms
    case LastMember(m) => WellFormedMember(m)
    case MoreMembers(m, rest) => WellFormedMember(m) && WellFormedMembers(rest)
  }

  /** No element is absent anywhere: with `WellFormed`, exactly the derivations of RFC 8259. */
  predicate Strict(v: Value) {
    match v
    case Missing => false
    case Array(es) => StrictElements(es)
    case Object(ms) => StrictMembers(ms)
    case _ => true
  }

  predicate StrictElements(es: Elements) {
    match es
    case LastElement(e) => Strict(e.value)
    case MoreElements(e, rest) => Strict(e.value) && StrictElements(rest)
  }

  predicate StrictMembers(ms: Members) {
    match ms
    case LastMember(m) => Strict(m.element.value)
    case MoreMembers(m, rest) => Strict(m.element.value) && StrictMembers(rest)
  }

  /** A JSON text (section 2 of RFC 8259) is one value with whitespace around it. */
  predicate IsDocument(doc: Element) {
    WellFormedElement(doc) && Strict(doc.value)
  }

  /** A text that cannot continue the number before it. */
  predicate Delimited(post: Text) {
    post == [] || !IsNumberUnit(post[0])
  }

  // ---- Facts about lexemes ----

  lemma {:induction false} NumberUnitsJoin(a: Text, b: Text)
    requires AllNumberUnits(a) && AllNumberUnits(b)
    ensures AllNumberUnits(a + b)
  {
    if a == [] {
      assert a + b == b;
    } else {
      NumberUnitsJoin(a[1..], b);
      assert (a + b)[1..] == a[1..] + b;
    }
  }

  lemma {:induction false} DigitsAreNumberUnits(s: Text)
    requires AllDigits(s)
    ensures AllNumberUnits(s)
  {
    if s != [] { DigitsAreNumberUnits(s[1..]); }
  }

  lemma {:induction false} DigitRunUnits(s: Text)
    ensures AllNumberUnits(s[..DigitRun(s)])
  {
    if s != [] && IsDigit(s[0]) {
      DigitRunUnits(s[1..]);
      assert s[..DigitRun(s)][1..] == s[1..][..DigitRun(s[1..])];
    }
  }

  lemma NumberUnits(s: Text)
    requires IsNumber(s)
    ensures s != [] && (s[0] == MINUS || IsDigit(s[0]))
    ensures AllNumberUnits(s)
  {
    if s[0] == MINUS { UnsignedUnits(s[1..]); } else { UnsignedUnits(s); }
  }

  lemma UnsignedUnits(s: Text)
    requires IsUnsigned(s)
    ensures IsDigit(s[0]) && AllNumberUnits(s)
  {
    var n := DigitRun(s);
    DigitRunUnits(s);
    FractionUnits(s[n..]);
    NumberUnitsJoin(s[..n], s[n..]);
    assert s[..n] + s[n..] == s;
  }

  lemma FractionUnits(s: Text)
    requires IsFraction(s)
    ensures AllNumberUnits(s)
  {
    if s != [] && s[0] == FULL_STOP {
      var d := s[1..];
      var n := DigitRun(d);
      ExponentUnits(s[1 + n..]);
      DigitRunUnits(d);
      NumberUnitsJoin(d[..n], d[n..]);
      assert d[..n] + d[n..] == d && d[n..] == s[1 + n..];
    } else {
      ExponentUnits(s);
    }
  }

  lemma ExponentUnits(s: Text)
    requires IsExponent(s)
    ensures AllNumberUnits(s)
  {
    if s != [] {
      if |s| > 1 && (s[1] == PLUS || s[1] == MINUS) {
        DigitsAreNumberUnits(s[2..]);
        assert s[1..][1..] == s[2..];
      } else {
        DigitsAreNumberUnits(s[1..]);
      }
    }
  }
}
