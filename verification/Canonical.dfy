/**
 The canonical printer (`canonicalize`): RFC 8785 restricted to integers, as a function of a
 JavaScript value. Errors keep the source's kinds but not its path strings.
 */
module Canonical {
  import opened JsonGrammar

  /** A number as the printer sees it: `NotInteger` stands for fractions, NaN and the infinities. */
  datatype JsNumber = Integer(n: int) | NegativeZero | NotInteger

  /**
   A tree-shaped JavaScript value. `Unsupported` stands for functions and symbols. `Hole` is an absent
   element of a sparse array and occurs nowhere else. Members are in insertion order.
   */
  datatype JsValue =
    | Undefined
    | Null
    | Boolean(b: bool)
    | Number(number: JsNumber)
    | String(s: Text)
    | BigInt
    | Unsupported
    | Hole
    | Array(items: seq<JsValue>)
    | Object(members: seq<JsMember>)

  datatype JsMember = JsMember(name: Text, value: JsValue)

  datatype CanonError = FloatNotAllowed | LoneSurrogate | UnsafeName | BigIntNotAllowed | UnsupportedType

  datatype Result<+T> = Ok(value: T) | Err(error: CanonError)

  const MAX_SAFE: int := 9007199254740991

  predicate DistinctNames(ms: seq<JsMember>) {
    forall i, j :: 0 <= i < j < |ms| ==> ms[i].name != ms[j].name
  }

  /** What JavaScript guarantees of a value: an object has one member of a name, and only arrays have holes. */
  ghost predicate IsJsValue(v: JsValue) {
    match v
    case Array(items) => forall item :: item in items ==> item.Hole? || IsJsValue(item)
    case Object(ms) => DistinctNames(ms) && forall m :: m in ms ==> !m.value.Hole? && IsJsValue(m.value)
    case Hole => false
    case _ => true
  }

  // ---- Strings ----

  predicate IsHigh(u: Unit) { 0xD800 <= u < 0xDC00 }

  predicate IsLow(u: Unit) { 0xDC00 <= u < 0xE000 }

  /**
   The source's regular expression: a high surrogate not followed by a low one, or a low one not preceded by a
   high one.
   */
  predicate HasLoneSurrogate(s: Text) {
    exists k :: 0 <= k < |s| && LoneAt(s, k)
  }

  predicate LoneAt(s: Text, k: nat)
    requires k < |s|
  {
    (IsHigh(s[k]) && !(k + 1 < |s| && IsLow(s[k + 1]))) || (IsLow(s[k]) && !(k > 0 && IsHigh(s[k - 1])))
  }

  /** Well-formed UTF-16: a sequence of code points, each one unit that is no surrogate or a high and low pair. */
  predicate WellFormedUtf16(s: Text) {
    s == [] ||
    (if IsHigh(s[0]) then |s| > 1 && IsLow(s[1]) && WellFormedUtf16(s[2..])
     else !IsLow(s[0]) && WellFormedUtf16(s[1..]))
  }

  /** The surrogate test refuses exactly the strings that are not well-formed UTF-16. */
  lemma {:induction false} SurrogateTestIsWellFormedness(s: Text)
    ensures HasLoneSurrogate(s) <==> !WellFormedUtf16(s)
    decreases |s|
  {
    if s != [] && !LoneAt(s, 0) {
      var n := if IsHigh(s[0]) then 2 else 1;
      var t := s[n..];
      SurrogateTestIsWellFormedness(t);
      assert forall k :: 0 <= k < |t| ==> t[k] == s[k + n];
      if HasLoneSurrogate(s) {
        var k :| 0 <= k < |s| && LoneAt(s, k);
        assert k >= n;
        assert LoneAt(t, k - n);
      }
      if HasLoneSurrogate(t) {
        var k :| 0 <= k < |t| && LoneAt(t, k);
        assert LoneAt(s, k + n);
      }
    } else if s != [] {
      assert HasLoneSurrogate(s);
    }
  }

  function HexDigit(n: nat): Unit
    requires n < 16
  {
    if n < 10 then 0x30 + n else 0x57 + n
  }

  /** One code unit of a string as `JSON.stringify` writes it (section 3.2.2.2 of RFC 8785). */
  function EscapeUnit(u: Unit): Text {
    if u == QUOTE || u == REVERSE_SOLIDUS then [REVERSE_SOLIDUS, u]
    else if u == 0x08 then [REVERSE_SOLIDUS, 0x62]
    else if u == 0x09 then [REVERSE_SOLIDUS, 0x74]
    else if u == 0x0a then [REVERSE_SOLIDUS, 0x6e]
    else if u == 0x0c then [REVERSE_SOLIDUS, 0x66]
    else if u == 0x0d then [REVERSE_SOLIDUS, 0x72]
    else if u < 0x20 then [REVERSE_SOLIDUS, SMALL_U, DIGIT_0, DIGIT_0, HexDigit(u / 16), HexDigit(u % 16)]
    else [u]
  }

  function Escape(s: Text): Text {
    if s == [] then [] else EscapeUnit(s[0]) + Escape(s[1..])
  }

  /** `JSON.stringify` of a well-formed string. */
  function Stringify(s: Text): Text {
    [QUOTE] + Escape(s) + [QUOTE]
  }

  predicate NeedsEscape(u: Unit) {
    u == QUOTE || u == REVERSE_SOLIDUS || u < 0x20
  }

  predicate SafeName(name: Text) {
    forall k :: 0 <= k < |name| ==> !NeedsEscape(name[k])
  }

  method CheckName(name: Text) returns (ok: bool)
    ensures ok <==> SafeName(name)
    ensures ok <==> Escape(name) == name
  {
    EscapeKeepsExactlySafe(name);
    for i := 0 to |name|
      invariant forall k :: 0 <= k < i ==> !NeedsEscape(name[k])
    {
      if NeedsEscape(name[i]) {
        return false;
      }
    }
    return true;
  }

  /** A name passes the check exactly when printing it takes no escape sequence. */
  lemma {:induction false} EscapeKeepsExactlySafe(name: Text)
    ensures SafeName(name) <==> Escape(name) == name
    ensures |Escape(name)| >= |name|
  {
    if name != [] {
      EscapeKeepsExactlySafe(name[1..]);
      var head, rest := EscapeUnit(name[0]), Escape(name[1..]);
      assert name == [name[0]] + name[1..];
      if NeedsEscape(name[0]) {
        assert !SafeName(name) && |head + rest| > |name|;
      } else {
        assert Escape(name) == [name[0]] + rest;
        assert SafeName(name) <==> SafeName(name[1..]) by {
          assert forall k :: 0 <= k < |name| - 1 ==> name[1..][k] == name[k + 1];
          if SafeName(name[1..]) {
            forall k | 0 <= k < |name| ensures !NeedsEscape(name[k]) {
              if k > 0 { assert name[k] == name[1..][k - 1]; }
            }
          }
        }
        assert Escape(name)[1..] == rest;
      }
    }
  }

  // ---- Numbers ----

  function Digits(n: nat): (s: Text)
    ensures s != []
  {
    if n < 10 then [DIGIT_0 + n] else Digits(n / 10) + [DIGIT_0 + n % 10]
  }

  /** `String(n)` for a safe integer. */
  function Decimal(n: int): Text {
    if n < 0 then [MINUS] + Digits(-n) else Digits(n)
  }

  function CheckedNumber(n: JsNumber): Result<Text> {
    match n
    case NotInteger => Err(FloatNotAllowed)
    case NegativeZero => Ok(Digits(0))
    case Integer(i) => if -MAX_SAFE <= i <= MAX_SAFE then Ok(Decimal(i)) else Err(FloatNotAllowed)
  }

  // ---- Member order ----

  /** `a < b` for JavaScript strings: by code units. */
  predicate Less(a: Text, b: Text) {
    b != [] && (a == [] || a[0] < b[0] || (a[0] == b[0] && Less(a[1..], b[1..])))
  }

  lemma {:induction false} LessTotal(a: Text, b: Text)
    ensures Less(a, b) || Less(b, a) || a == b
    ensures !(Less(a, b) && Less(b, a))
    ensures !Less(a, a)
  {
    if a != [] && b != [] {
      LessTotal(a[1..], b[1..]);
      if a[0] == b[0] && a[1..] == b[1..] {
        assert a == [a[0]] + a[1..] && b == [b[0]] + b[1..];
      }
    }
    if a != [] { LessTotal(a[1..], a[1..]); }
  }

  lemma {:induction false} LessTransitive(a: Text, b: Text, c: Text)
    requires Less(a, b) && Less(b, c)
    ensures Less(a, c)
  {
    if a != [] && a[0] == b[0] && b[0] == c[0] {
      LessTransitive(a[1..], b[1..], c[1..]);
    }
  }

  predicate Ascending(ms: seq<JsMember>) {
    forall i, j :: 0 <= i < j < |ms| ==> Less(ms[i].name, ms[j].name)
  }

  function Insert(m: JsMember, ms: seq<JsMember>): (r: seq<JsMember>)
    ensures multiset(r) == multiset(ms) + multiset{m}
  {
    if ms == [] then [m]
    else if Less(m.name, ms[0].name) then [m] + ms
    else
      assert ms == [ms[0]] + ms[1..];
      [ms[0]] + Insert(m, ms[1..])
  }

  /** The members in name order, as `sort(compareKeys)` leaves their names. */
  function Sorted(ms: seq<JsMember>): (r: seq<JsMember>)
    ensures multiset(r) == multiset(ms)
  {
    if ms == [] then []
    else
      assert ms == [ms[0]] + ms[1..];
      Insert(ms[0], Sorted(ms[1..]))
  }

  /** The members whose value is not undefined. */
  function Defined(ms: seq<JsMember>): (r: seq<JsMember>)
    ensures forall m :: m in r <==> m in ms && !m.value.Undefined?
  {
    if ms == [] then []
    else if ms[0].value.Undefined? then Defined(ms[1..])
    else [ms[0]] + Defined(ms[1..])
  }

  function Entries(ms: seq<JsMember>): (r: seq<JsMember>)
    ensures forall m :: m in r <==> m in ms && !m.value.Undefined?
  {
    var r := Sorted(Defined(ms));
    assert forall m :: m in r <==> m in multiset(r);
    assert forall m :: m in Defined(ms) <==> m in multiset(Defined(ms));
    r
  }

  // ---- Serialization ----

  function Join(parts: seq<Text>): Text {
    if parts == [] then []
    else if |parts| == 1 then parts[0]
    else parts[0] + [COMMA] + Join(parts[1..])
  }

  function Serialize(v: JsValue): Result<Text>
    decreases v, 1, 0
  {
    match v
    case Undefined => Ok(NULL)
    case Null => Ok(NULL)
    case Boolean(b) => Ok(if b then TRUE else FALSE)
    case Number(n) => CheckedNumber(n)
    case String(s) => if HasLoneSurrogate(s) then Err(LoneSurrogate) else Ok(Stringify(s))
    case BigInt => Err(BigIntNotAllowed)
    case Unsupported => Err(UnsupportedType)
    case Hole => Ok([])
    case Array(items) =>
      (match SerializeItems(v, items)
       case Err(e) => Err(e)
       case Ok(parts) => Ok([OPEN_ARRAY] + Join(parts) + [CLOSE_ARRAY]))
    case Object(ms) =>
      (match SerializeMembers(v, Entries(ms))
       case Err(e) => Err(e)
       case Ok(parts) => Ok([OPEN_OBJECT] + Join(parts) + [CLOSE_OBJECT]))
  }

  /** `map` skips holes, and `join` writes a hole as nothing. */
  function SerializeItems(owner: JsValue, items: seq<JsValue>): Result<seq<Text>>
    requires owner.Array? && forall item :: item in items ==> item in owner.items
    decreases owner, 0, |items|
  {
    if items == [] then Ok([])
    else
      assert items[0] in owner.items;
      match Serialize(items[0])
      case Err(e) => Err(e)
      case Ok(part) =>
        match SerializeItems(owner, items[1..])
        case Err(e) => Err(e)
        case Ok(parts) => Ok([part] + parts)
  }

  function SerializeMembers(owner: JsValue, ms: seq<JsMember>): Result<seq<Text>>
    requires owner.Object? && forall m :: m in ms ==> m in owner.members
    decreases owner, 0, |ms|
  {
    if ms == [] then Ok([])
    else if HasLoneSurrogate(ms[0].name) then Err(LoneSurrogate)
    else if !SafeName(ms[0].name) then Err(UnsafeName)
    else
      assert ms[0] in owner.members;
      match Serialize(ms[0].value)
      case Err(e) => Err(e)
      case Ok(text) =>
        match SerializeMembers(owner, ms[1..])
        case Err(e) => Err(e)
        case Ok(parts) => Ok([Stringify(ms[0].name) + [COLON] + text] + parts)
  }

  function Canonicalize(v: JsValue): Result<Text> {
    Serialize(v)
  }

  // ---- The order does not depend on the insertion order ----

  /** Everything in the list comes after the name. */
  predicate AllAfter(name: Text, ms: seq<JsMember>) {
    forall k :: 0 <= k < |ms| ==> Less(name, ms[k].name)
  }

  lemma {:induction false} InsertAfter(name: Text, m: JsMember, ms: seq<JsMember>)
    requires Less(name, m.name) && AllAfter(name, ms)
    ensures AllAfter(name, Insert(m, ms))
  {
    hide Less;
    if ms != [] && !Less(m.name, ms[0].name) { InsertAfter(name, m, ms[1..]); }
  }

  lemma FirstThenAfter(m: JsMember, ms: seq<JsMember>)
    requires Ascending(ms) && AllAfter(m.name, ms)
    ensures Ascending([m] + ms)
  {
    hide Less;
  }

  lemma AllAfterFirst(m: JsMember, ms: seq<JsMember>)
    requires Ascending(ms) && ms != [] && Less(m.name, ms[0].name)
    ensures AllAfter(m.name, ms)
  {
    hide Less;
    forall k | 0 <= k < |ms| ensures Less(m.name, ms[k].name) {
      if k > 0 { LessTransitive(m.name, ms[0].name, ms[k].name); }
    }
  }

  lemma {:induction false} InsertAscends(m: JsMember, ms: seq<JsMember>)
    requires Ascending(ms) && forall k :: 0 <= k < |ms| ==> ms[k].name != m.name
    ensures Ascending(Insert(m, ms))
  {
    if ms != [] {
      LessTotal(m.name, ms[0].name);
      hide Less;
      if Less(m.name, ms[0].name) {
        AllAfterFirst(m, ms);
        FirstThenAfter(m, ms);
      } else {
        InsertAscends(m, ms[1..]);
        InsertAfter(ms[0].name, m, ms[1..]);
        FirstThenAfter(ms[0], Insert(m, ms[1..]));
      }
    }
  }

  lemma {:induction false} SortedAscends(ms: seq<JsMember>)
    requires DistinctNames(ms)
    ensures Ascending(Sorted(ms))
  {
    if ms != [] {
      var rest := Sorted(ms[1..]);
      SortedAscends(ms[1..]);
      forall k | 0 <= k < |rest| ensures rest[k].name != ms[0].name {
        assert rest[k] in multiset(rest);
        assert rest[k] in ms[1..];
        var j :| 0 <= j < |ms[1..]| && ms[1..][j] == rest[k];
        assert ms[j + 1] == rest[k];
      }
      InsertAscends(ms[0], rest);
    }
  }

  lemma {:induction false} DefinedDistinct(ms: seq<JsMember>)
    requires DistinctNames(ms)
    ensures DistinctNames(Defined(ms))
  {
    if ms != [] {
      DefinedDistinct(ms[1..]);
      var rest := Defined(ms[1..]);
      forall k | 0 <= k < |rest| ensures rest[k].name != ms[0].name {
        assert rest[k] in rest;
        var j :| 0 <= j < |ms[1..]| && ms[1..][j] == rest[k];
        assert ms[j + 1] == rest[k];
      }
    }
  }

  /** Names come out in strict code-unit order (section 3.2.3 of RFC 8785). */
  lemma EntriesAscend(ms: seq<JsMember>)
    requires DistinctNames(ms)
    ensures Ascending(Entries(ms))
  {
    DefinedDistinct(ms);
    SortedAscends(Defined(ms));
  }
}
