/**
 What JSON trees mean, for any reader that a receiver might have. Readers may differ in how they read
 member names that contain escapes, which of two members with one name they keep (or whether they
 fail), and what they make of a number with a fraction or an exponent.
 */
module JsonData {
  import opened Wrappers
  import opened JsonGrammar
  import opened JsonParser
  import opened SafeJson
  import opened SafeJsonAgreement

  datatype Data =
    | NullData
    | BoolData(b: bool)
    | IntData(n: int)
    | OtherNumber(reading: Text)
    | StringData(s: Text)
    | ArrayData(items: seq<Data>)
    | ObjectData(fields: map<Text, Data>)

  datatype Policy = KeepFirst | KeepLast | Reject

  datatype Reader = Reader(name: Text -> Text, number: Text -> Data, policy: Policy)

  // ---- Strings and integers ----

  function HexValue(u: Unit): (r: nat)
    requires IsHexDigit(u)
    ensures r < 16
  {
    if IsDigit(u) then u - 0x30 else if u <= 0x46 then u - 0x37 else u - 0x57
  }

  /** What a reverse solidus followed by `u` stands for (section 7 of RFC 8259). */
  function ShortValue(u: Unit): Unit
    requires IsShortEscape(u)
  {
    if u == 0x62 then 0x08 else if u == 0x66 then 0x0c else if u == 0x6e then 0x0a
    else if u == 0x72 then 0x0d else if u == 0x74 then 0x09 else u
  }

  function Unescape(body: Text): Text
    requires IsBody(body)
  {
    if body == [] then []
    else if body[0] != REVERSE_SOLIDUS then [body[0]] + Unescape(body[1..])
    else if IsShortEscape(body[1]) then [ShortValue(body[1])] + Unescape(body[2..])
    else
      var u := 0x1000 * HexValue(body[2]) + 0x100 * HexValue(body[3]) + 0x10 * HexValue(body[4]) + HexValue(body[5]);
      [u] + Unescape(body[6..])
  }

  function DigitsValue(s: Text, high: nat): nat
    requires AllDigits(s)
  {
    if s == [] then high else DigitsValue(s[1..], 10 * high + (s[0] - DIGIT_0))
  }

  /** The value of a number written as an integer. */
  function IntegerValue(lexeme: Text): int {
    if lexeme != [] && lexeme[0] == MINUS then
      if AllDigits(lexeme[1..]) then 0 - DigitsValue(lexeme[1..], 0) else 0
    else if AllDigits(lexeme) then DigitsValue(lexeme, 0) else 0
  }

  // ---- Meaning ----

  function Bind(fields: map<Text, Data>, name: Text, value: Data, policy: Policy): Option<map<Text, Data>> {
    if name !in fields then Some(fields[name := value])
    else match policy
      case KeepFirst => Some(fields)
      case KeepLast => Some(fields[name := value])
      case Reject => None
  }

  function Meaning(v: Value, rd: Reader): Option<Data>
    requires WellFormed(v)
  {
    match v
    case Missing => Some(NullData)
    case Word(w) => Some(if w == NULL then NullData else BoolData(w == TRUE))
    case Number(lexeme) => Some(rd.number(lexeme))
    case String(body) => Some(StringData(Unescape(body)))
    case EmptyArray(_) => Some(ArrayData([]))
    case Array(es) => (match ItemsMeaning(es, rd) case None => None case Some(items) => Some(ArrayData(items)))
    case EmptyObject(_) => Some(ObjectData(map[]))
    case Object(ms) => (match FieldsMeaning(ms, rd, map[]) case None => None case Some(fields) =>
        Some(ObjectData(fields)))
  }

  function ItemsMeaning(es: Elements, rd: Reader): Option<seq<Data>>
    requires WellFormedElements(es)
  {
    match es
    case LastElement(e) =>
      assert WellFormedElement(e);
      (match Meaning(e.value, rd) case None => None case Some(d) => Some([d]))
    case MoreElements(e, rest) =>
      assert WellFormedElement(e);
      match Meaning(e.value, rd)
      case None => None
      case Some(d) =>
        match ItemsMeaning(rest, rd)
        case None => None
        case Some(items) => Some([d] + items)
  }

  function FieldsMeaning(ms: Members, rd: Reader, fields: map<Text, Data>): Option<map<Text, Data>>
    requires WellFormedMembers(ms)
  {
    match ms
    case LastMember(m) => MemberMeaning(m, rd, fields)
    case MoreMembers(m, rest) =>
      match MemberMeaning(m, rd, fields)
      case None => None
      case Some(more) => FieldsMeaning(rest, rd, more)
  }

  function MemberMeaning(m: Member, rd: Reader, fields: map<Text, Data>): Option<map<Text, Data>>
    requires WellFormedMember(m)
  {
    assert WellFormedElement(m.element);
    match Meaning(m.element.value, rd)
    case None => None
    case Some(d) => Bind(fields, rd.name(m.name), d, rd.policy)
  }

  // ---- The guard makes readers agree ----

  /** A reader that gets right what the guard does not concern itself with. */
  ghost predicate Conforms(rd: Reader, integers: bool) {
    && (forall name: Text :: REVERSE_SOLIDUS !in name ==> rd.name(name) == name)
    && (integers ==> forall lexeme: Text :: IsNumber(lexeme) && IsIntegerLexeme(lexeme) ==>
       rd.number(lexeme) == IntData(IntegerValue(lexeme)))
  }

  ghost predicate SameNumbers(a: Reader, b: Reader) {
    forall lexeme: Text :: a.number(lexeme) == b.number(lexeme)
  }

  lemma {:induction false} SafeValueAgrees(v: Value, a: Reader, b: Reader, integers: bool)
    requires WellFormed(v) && Safe(v, integers)
    requires Conforms(a, integers) && Conforms(b, integers) && (integers || SameNumbers(a, b))
    ensures Meaning(v, a).Some? && Meaning(v, a) == Meaning(v, b)
    decreases v, 0
  {
    match v {
      case Number(lexeme) =>
      case Array(es) => SafeItemsAgree(es, a, b, integers);
      case Object(ms) => SafeFieldsAgree(ms, map[], a, b, integers);
      case _ =>
    }
  }

  lemma {:induction false} SafeItemsAgree(es: Elements, a: Reader, b: Reader, integers: bool)
    requires WellFormedElements(es) && SafeElements(es, integers)
    requires Conforms(a, integers) && Conforms(b, integers) && (integers || SameNumbers(a, b))
    ensures ItemsMeaning(es, a).Some? && ItemsMeaning(es, a) == ItemsMeaning(es, b)
    decreases es, 1
  {
    match es {
      case LastElement(e) => SafeValueAgrees(e.value, a, b, integers);
      case MoreElements(e, rest) =>
        assert WellFormedElement(e);
        SafeValueAgrees(e.value, a, b, integers);
        SafeItemsAgree(rest, a, b, integers);
    }
  }

  lemma {:induction false} SafeFieldsAgree(ms: Members, fields: map<Text, Data>, a: Reader, b: Reader, integers: bool)
    requires WellFormedMembers(ms) && SafeMembers(ms, integers)
    requires Distinct(NameList(ms)) && NoneSeen(NameList(ms), fields.Keys)
    requires Conforms(a, integers) && Conforms(b, integers) && (integers || SameNumbers(a, b))
    ensures FieldsMeaning(ms, a, fields).Some? && FieldsMeaning(ms, a, fields) == FieldsMeaning(ms, b, fields)
    decreases ms, 1
  {
    match ms {
      case LastMember(m) =>
        assert WellFormedMember(m) && WellFormedElement(m.element);
        SafeValueAgrees(m.element.value, a, b, integers);
        assert NameList(ms)[0] == m.name;
      case MoreMembers(m, rest) =>
        assert WellFormedMember(m) && WellFormedElement(m.element);
        SafeValueAgrees(m.element.value, a, b, integers);
        ConsDistinct(m.name, NameList(rest), fields.Keys);
        var more := fields[m.name := Meaning(m.element.value, a).value];
        assert more.Keys == fields.Keys + {m.name};
        SafeFieldsAgree(rest, more, a, b, integers);
    }
  }

  /**
   The point of the guard: once it has accepted a JSON text, any two conforming readers read the same data
   from it, and neither fails, even if they disagree about escaped names, repeated names or (with integers
   asked for) fractions and exponents.
   */
  lemma ReadersAgree(text: Text, doc: Element, a: Reader, b: Reader, integers: bool)
    requires ParseDocument(text) == Some(doc) && ScanText(text, integers).Accept?
    requires Conforms(a, integers) && Conforms(b, integers) && (integers || SameNumbers(a, b))
    ensures IsDocument(doc) && Meaning(doc.value, a).Some? && Meaning(doc.value, a) == Meaning(doc.value, b)
  {
    ParserDecidesGrammar(text, doc);
    GuardMatchesParser(text, doc, integers);
    SafeValueAgrees(doc.value, a, b, integers);
  }
}
