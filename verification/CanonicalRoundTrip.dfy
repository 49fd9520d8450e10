/**
 The canonical printer against the grammar, the guard and the readers of the other modules.

 Every printed text is the text of a tree (`Tree`), in which a hole of a sparse array is an absent
 element. Hence the guard never refuses it; it is JSON exactly when every hole is alone in its array;
 and it reads back as the value's normal form exactly when there is no hole at all. On values without
 holes two texts are equal exactly when the normal forms are.
 */
module CanonicalRoundTrip {
  import opened Wrappers
  import opened JsonGrammar
  import opened JsonParser
  import opened SafeJson
  import opened SafeJsonAgreement
  import opened JsonData
  import C = Canonical

  // ---- The tree of a printed value ----

  function Bare(v: Value): Element {
    Element([], v, [])
  }

  function Tree(v: C.JsValue): Value
    decreases v, 1, 0
  {
    match v
    case Hole => Missing
    case Boolean(b) => Word(if b then TRUE else FALSE)
    case Number(n) => if C.CheckedNumber(n).Ok? then Number(C.CheckedNumber(n).value) else Word(NULL)
    case String(s) => String(C.Escape(s))
    case Array(items) => if items == [] then EmptyArray([]) else Array(TreeItems(v, items))
    case Object(ms) => if C.Entries(ms) == [] then EmptyObject([]) else Object(TreeMembers(v, C.Entries(ms)))
    case _ => Word(NULL)
  }

  function TreeItems(owner: C.JsValue, items: seq<C.JsValue>): Elements
    requires owner.Array? && items != [] && forall item :: item in items ==> item in owner.items
    decreases owner, 0, |items|
  {
    assert items[0] in owner.items;
    var e := Bare(Tree(items[0]));
    if |items| == 1 then LastElement(e) else MoreElements(e, TreeItems(owner, items[1..]))
  }

  function TreeMembers(owner: C.JsValue, ms: seq<C.JsMember>): Members
    requires owner.Object? && ms != [] && forall m :: m in ms ==> m in owner.members
    decreases owner, 0, |ms|
  {
    assert ms[0] in owner.members;
    var m := Member([], ms[0].name, [], Bare(Tree(ms[0].value)));
    if |ms| == 1 then LastMember(m) else MoreMembers(m, TreeMembers(owner, ms[1..]))
  }

  function Document(v: C.JsValue): Element {
    Bare(Tree(v))
  }

  // ---- Lexemes ----

  lemma {:induction false} BodyOfEscape(s: Text)
    ensures IsBody(C.Escape(s)) && Unescape(C.Escape(s)) == s
  {
    if s != [] {
      BodyOfEscape(s[1..]);
      EscapedUnit(s[0], C.Escape(s[1..]));
      assert s == [s[0]] + s[1..];
    }
  }

  lemma EscapedUnit(u: Unit, rest: Text)
    requires IsBody(rest)
    ensures IsBody(C.EscapeUnit(u) + rest) && Unescape(C.EscapeUnit(u) + rest) == [u] + Unescape(rest)
  {
    hide C.Escape;
    var head := C.EscapeUnit(u);
    var body := head + rest;
    assert body[|head|..] == rest;
    if |head| == 6 {
      EscapeHex(u);
      assert body[0] == head[0] && body[1] == head[1] && body[2] == head[2] && body[3] == head[3];
      assert body[4] == head[4] && body[5] == head[5];
    } else if |head| == 2 {
      assert body[0] == head[0] && body[1] == head[1];
    } else {
      assert body[0] == head[0];
    }
  }

  lemma EscapeHex(u: Unit)
    requires u < 0x20
    ensures var h, l := C.HexDigit(u / 16), C.HexDigit(u % 16);
            IsHexDigit(h) && IsHexDigit(l) && 16 * HexValue(h) + HexValue(l) == u
  {
  }

  lemma {:induction false} DigitsJoin(a: Text, b: Text, high: nat)
    requires AllDigits(a) && AllDigits(b)
    ensures AllDigits(a + b) && DigitsValue(a + b, high) == DigitsValue(b, DigitsValue(a, high))
  {
    if a == [] {
      assert a + b == b;
    } else {
      assert (a + b)[1..] == a[1..] + b;
      DigitsJoin(a[1..], b, 10 * high + (a[0] - DIGIT_0));
    }
  }

  lemma {:induction false} DigitsRead(n: nat)
    ensures AllDigits(C.Digits(n)) && DigitsValue(C.Digits(n), 0) == n
    ensures C.Digits(n)[0] == DIGIT_0 ==> n == 0
  {
    var s := C.Digits(n);
    if n < 10 {
      assert s[1..] == [];
    } else {
      var last: Text := [DIGIT_0 + n % 10];
      DigitsRead(n / 10);
      assert last[1..] == [];
      DigitsJoin(C.Digits(n / 10), last, 0);
    }
  }

  lemma {:induction false} RunOfDigits(s: Text)
    requires AllDigits(s)
    ensures DigitRun(s) == |s| && IsIntegerLexeme(s)
  {
    if s != [] { RunOfDigits(s[1..]); }
  }

  lemma DecimalReads(n: int)
    ensures IsNumber(C.Decimal(n)) && IsIntegerLexeme(C.Decimal(n)) && IntegerValue(C.Decimal(n)) == n
  {
    var digits := C.Digits(if n < 0 then -n else n);
    DigitsRead(if n < 0 then -n else n);
    RunOfDigits(digits);
    assert digits[|digits|..] == [];
    if n < 0 {
      assert C.Decimal(n)[1..] == digits;
    }
  }

  lemma NumberReads(n: C.JsNumber)
    requires C.CheckedNumber(n).Ok?
    ensures var s := C.CheckedNumber(n).value;
            IsNumber(s) && IsIntegerLexeme(s) && IntegerValue(s) == if n.Integer? then n.n else 0
  {
    DecimalReads(if n.Integer? then n.n else 0);
  }

  lemma NameIsBody(name: Text)
    requires C.SafeName(name)
    ensures C.Escape(name) == name && IsBody(name) && REVERSE_SOLIDUS !in name
  {
    C.EscapeKeepsExactlySafe(name);
    BodyOfEscape(name);
  }

  // ---- The printed text is the text of the tree ----

  lemma {:induction false} TreeText(v: C.JsValue, tail: Text)
    requires C.Serialize(v).Ok?
    ensures ValueText(Tree(v), tail) == C.Serialize(v).value + tail
    decreases v, 1, 0
  {
    match v {
      case String(s) => WrapText(QUOTE, C.Escape(s), QUOTE, tail);
      case Array(items) => ArrayText(v, tail);
      case Object(ms) => ObjectText(v, tail);
      case _ =>
    }
  }

  lemma WrapText(open: Unit, inner: Text, close: Unit, tail: Text)
    ensures [open] + inner + [close] + tail == [open] + (inner + ([close] + tail))
    ensures [open] + ([] + ([close] + tail)) == [open] + [] + [close] + tail
  {
  }

  lemma {:induction false} ArrayText(v: C.JsValue, tail: Text)
    requires v.Array? && C.Serialize(v).Ok?
    ensures ValueText(Tree(v), tail) == C.Serialize(v).value + tail
    decreases v, 0, |v.items| + 1
  {
    var joined := C.Join(C.SerializeItems(v, v.items).value);
    WrapText(OPEN_ARRAY, joined, CLOSE_ARRAY, tail);
    if v.items != [] {
      TreeItemsText(v, v.items, [CLOSE_ARRAY] + tail);
    }
  }

  lemma {:induction false} ObjectText(v: C.JsValue, tail: Text)
    requires v.Object? && C.Serialize(v).Ok?
    ensures ValueText(Tree(v), tail) == C.Serialize(v).value + tail
    decreases v, 0, |C.Entries(v.members)| + 1
  {
    hide C.Entries, TreeMembers, MembersText;
    var entries := C.Entries(v.members);
    var joined := C.Join(C.SerializeMembers(v, entries).value);
    WrapText(OPEN_OBJECT, joined, CLOSE_OBJECT, tail);
    if entries != [] {
      TreeMembersText(v, entries, [CLOSE_OBJECT] + tail);
    }
  }

  lemma {:induction false} TreeItemsText(owner: C.JsValue, items: seq<C.JsValue>, tail: Text)
    requires owner.Array? && items != [] && forall item :: item in items ==> item in owner.items
    requires C.SerializeItems(owner, items).Ok?
    ensures ElementsText(TreeItems(owner, items), tail) == C.Join(C.SerializeItems(owner, items).value) + tail
    decreases owner, 0, |items|
  {
    assert items[0] in owner.items;
    var parts := C.SerializeItems(owner, items).value;
    if |items| == 1 {
      TreeText(items[0], [] + tail);
      assert parts == [C.Serialize(items[0]).value] + [];
      BareText(Tree(items[0]), tail);
    } else {
      var rest := C.SerializeItems(owner, items[1..]).value;
      var after := [COMMA] + ElementsText(TreeItems(owner, items[1..]), tail);
      TreeText(items[0], after);
      BareText(Tree(items[0]), after);
      TreeItemsText(owner, items[1..], tail);
      JoinStep(C.Serialize(items[0]).value, rest, tail);
    }
  }

  lemma {:induction false} TreeMembersText(owner: C.JsValue, ms: seq<C.JsMember>, tail: Text)
    requires owner.Object? && ms != [] && forall m :: m in ms ==> m in owner.members
    requires C.SerializeMembers(owner, ms).Ok?
    ensures MembersText(TreeMembers(owner, ms), tail) == C.Join(C.SerializeMembers(owner, ms).value) + tail
    decreases owner, 0, |ms|
  {
    assert ms[0] in owner.members;
    var name, text := ms[0].name, C.Serialize(ms[0].value).value;
    var part := C.Stringify(name) + [COLON] + text;
    NameIsBody(name);
    if |ms| == 1 {
      TreeText(ms[0].value, tail);
      BareText(Tree(ms[0].value), tail);
      PartText(name, text, tail);
      assert C.SerializeMembers(owner, ms).value == [part] + [];
    } else {
      var rest := C.SerializeMembers(owner, ms[1..]).value;
      var after := [COMMA] + MembersText(TreeMembers(owner, ms[1..]), tail);
      TreeText(ms[0].value, after);
      BareText(Tree(ms[0].value), after);
      PartText(name, text, after);
      TreeMembersText(owner, ms[1..], tail);
      JoinStep(part, rest, tail);
    }
  }

  lemma BareText(v: Value, tail: Text)
    ensures ElementText(Bare(v), tail) == ValueText(v, tail)
  {
    assert [] + tail == tail;
  }

  lemma PartText(name: Text, text: Text, tail: Text)
    requires C.Escape(name) == name
    ensures NameText([], name, [], text + tail) == C.Stringify(name) + [COLON] + text + tail
  {
  }

  lemma JoinStep(part: Text, rest: seq<Text>, tail: Text)
    requires rest != []
    ensures C.Join([part] + rest) + tail == part + ([COMMA] + (C.Join(rest) + tail))
  {
    assert ([part] + rest)[1..] == rest;
  }

  // ---- The tree is well-formed and safe ----

  lemma {:induction false} TreeFits(v: C.JsValue)
    requires C.Serialize(v).Ok? && (C.IsJsValue(v) || v.Hole?)
    ensures WellFormed(Tree(v)) && Safe(Tree(v), true)
    decreases v, 1, 0
  {
    match v {
      case Number(n) => NumberReads(n);
      case String(s) => BodyOfEscape(s);
      case Array(items) =>
        if items != [] { TreeItemsFit(v, items); }
      case Object(ms) =>
        C.EntriesAscend(ms);
        if C.Entries(ms) != [] { TreeMembersFit(v, C.Entries(ms)); }
      case _ =>
    }
  }

  lemma {:induction false} TreeItemsFit(owner: C.JsValue, items: seq<C.JsValue>)
    requires owner.Array? && C.IsJsValue(owner)
    requires items != [] && forall item :: item in items ==> item in owner.items
    requires C.SerializeItems(owner, items).Ok?
    ensures WellFormedElements(TreeItems(owner, items)) && SafeElements(TreeItems(owner, items), true)
    decreases owner, 0, |items|
  {
    assert items[0] in owner.items;
    TreeFits(items[0]);
    assert WellFormedElement(Bare(Tree(items[0])));
    if |items| > 1 {
      TreeItemsFit(owner, items[1..]);
    }
  }

  /** `ms` is a non-empty final stretch of what is printed of the object `owner`. */
  ghost predicate Prints(owner: C.JsValue, ms: seq<C.JsMember>) {
    && owner.Object? && C.IsJsValue(owner)
    && ms != [] && C.Ascending(ms) && (forall m :: m in ms ==> m in owner.members)
    && C.SerializeMembers(owner, ms).Ok?
  }

  lemma PrintsStep(owner: C.JsValue, ms: seq<C.JsMember>)
    requires Prints(owner, ms)
    ensures ms[0] in owner.members && C.IsJsValue(ms[0].value) && C.Serialize(ms[0].value).Ok?
    ensures C.Escape(ms[0].name) == ms[0].name && IsBody(ms[0].name) && REVERSE_SOLIDUS !in ms[0].name
    ensures |ms| > 1 ==> Prints(owner, ms[1..])
    ensures forall m :: m in ms[1..] ==> C.Less(ms[0].name, m.name) && m.name != ms[0].name
  {
    assert ms[0] in owner.members;
    NameIsBody(ms[0].name);
    LaterNames(ms);
  }

  lemma {:induction false} TreeMembersFit(owner: C.JsValue, ms: seq<C.JsMember>)
    requires Prints(owner, ms)
    ensures WellFormedMembers(TreeMembers(owner, ms)) && SafeMembers(TreeMembers(owner, ms), true)
    ensures NameList(TreeMembers(owner, ms)) == Names(ms) && Distinct(Names(ms))
    decreases owner, 0, |ms|
  {
    hide C.IsJsValue, C.SerializeMembers, C.Serialize, C.Less;
    PrintsStep(owner, ms);
    TreeFits(ms[0].value);
    var e := Bare(Tree(ms[0].value));
    assert WellFormedElement(e) && !e.value.Missing?;
    assert WellFormedMember(Member([], ms[0].name, [], e));
    AscendingDistinct(ms);
    if |ms| > 1 {
      TreeMembersFit(owner, ms[1..]);
      assert Names(ms) == [ms[0].name] + Names(ms[1..]);
    }
  }

  function Names(ms: seq<C.JsMember>): (r: seq<Text>)
    ensures |r| == |ms| && forall k :: 0 <= k < |ms| ==> r[k] == ms[k].name
  {
    seq(|ms|, k requires 0 <= k < |ms| => ms[k].name)
  }

  lemma AscendingDistinct(ms: seq<C.JsMember>)
    requires C.Ascending(ms)
    ensures Distinct(Names(ms))
  {
    forall i, j | 0 <= i < j < |ms| ensures Names(ms)[i] != Names(ms)[j] {
      C.LessTotal(ms[i].name, ms[j].name);
    }
  }

  // ---- The guard never refuses what the printer printed ----

  /** A sender is never blocked by a receiver: every canonical text passes the guard, with integers asked for or not. */
  lemma SenderNeverBlocked(v: C.JsValue, integers: bool)
    requires C.IsJsValue(v) && C.Canonicalize(v).Ok?
    ensures ScanText(C.Canonicalize(v).value, integers).Accept?
  {
    DocumentPrints(v);
    ScanReadsTree(Document(v), integers);
    FaultFree(Tree(v), true, 0);
    FaultFree(Tree(v), integers, 0);
    SafeAnyway(Tree(v));
  }

  lemma DocumentPrints(v: C.JsValue)
    requires C.IsJsValue(v) && C.Canonicalize(v).Ok?
    ensures WellFormedElement(Document(v)) && Safe(Tree(v), true)
    ensures DocumentText(Document(v)) == C.Canonicalize(v).value
  {
    TreeFits(v);
    TreeText(v, []);
    BareText(Tree(v), []);
    assert C.Canonicalize(v).value + [] == C.Canonicalize(v).value;
  }

  lemma {:induction false} SafeAnyway(v: Value)
    requires Safe(v, true)
    ensures Safe(v, false)
    decreases v, 0
  {
    match v {
      case Array(es) => SafeElementsAnyway(es);
      case Object(ms) => SafeMembersAnyway(ms);
      case _ =>
    }
  }

  lemma {:induction false} SafeElementsAnyway(es: Elements)
    requires SafeElements(es, true)
    ensures SafeElements(es, false)
    decreases es, 1
  {
    match es {
      case LastElement(e) => SafeAnyway(e.value);
      case MoreElements(e, rest) => SafeAnyway(e.value); SafeElementsAnyway(rest);
    }
  }

  lemma {:induction false} SafeMembersAnyway(ms: Members)
    requires SafeMembers(ms, true)
    ensures SafeMembers(ms, false)
    decreases ms, 1
  {
    match ms {
      case LastMember(m) => SafeAnyway(m.element.value);
      case MoreMembers(m, rest) => SafeAnyway(m.element.value); SafeMembersAnyway(rest);
    }
  }

  // ---- What a printed text reads back as ----

  /** The data a value stands for: undefined items are null, undefined members absent, -0 is 0, order is nothing. */
  function Norm(v: C.JsValue): Data
    decreases v, 1, 0
  {
    match v
    case Boolean(b) => BoolData(b)
    case Number(n) => IntData(if n.Integer? then n.n else 0)
    case String(s) => StringData(s)
    case Array(items) => ArrayData(NormItems(v, items))
    case Object(ms) => ObjectData(NormFields(v, ms))
    case _ => NullData
  }

  function NormItems(owner: C.JsValue, items: seq<C.JsValue>): (r: seq<Data>)
    requires owner.Array? && forall item :: item in items ==> item in owner.items
    ensures |r| == |items|
    decreases owner, 0, |items|
  {
    if items == [] then []
    else
      assert items[0] in owner.items;
      [Norm(items[0])] + NormItems(owner, items[1..])
  }

  function NormFields(owner: C.JsValue, ms: seq<C.JsMember>): map<Text, Data>
    requires owner.Object? && forall m :: m in ms ==> m in owner.members
    decreases owner, 0, |ms|
  {
    if ms == [] then map[]
    else
      assert ms[0] in owner.members;
      var rest := NormFields(owner, ms[1..]);
      if ms[0].value.Undefined? then rest else rest[ms[0].name := Norm(ms[0].value)]
  }

  ghost predicate HoleFree(v: C.JsValue) {
    match v
    case Hole => false
    case Array(items) => forall item :: item in items ==> HoleFree(item)
    case Object(ms) => forall m :: m in ms ==> HoleFree(m.value)
    case _ => true
  }

  /** Every hole is the only element of its array. */
  ghost predicate HolesAlone(v: C.JsValue) {
    match v
    case Hole => false
    case Array(items) => items == [C.Hole] || forall item :: item in items ==> HolesAlone(item)
    case Object(ms) => forall m :: m in ms ==> HolesAlone(m.value)
    case _ => true
  }

  lemma {:induction false} NormFieldsHold(owner: C.JsValue, ms: seq<C.JsMember>, m: C.JsMember)
    requires owner.Object? && C.DistinctNames(ms) && forall m :: m in ms ==> m in owner.members
    requires m in ms && !m.value.Undefined?
    ensures m.name in NormFields(owner, ms) && NormFields(owner, ms)[m.name] == Norm(m.value)
    decreases |ms|
  {
    hide Norm;
    if m != ms[0] {
      assert ms == [ms[0]] + ms[1..];
      assert m in ms[1..];
      var k :| 0 <= k < |ms[1..]| && ms[1..][k] == m;
      assert ms[k + 1] == m;
      NormFieldsHold(owner, ms[1..], m);
    }
  }

  lemma {:induction false} NormFieldsOnly(owner: C.JsValue, ms: seq<C.JsMember>, name: Text) returns (m: C.JsMember)
    requires owner.Object? && (forall m :: m in ms ==> m in owner.members) && name in NormFields(owner, ms)
    ensures m in ms && !m.value.Undefined? && m.name == name
    decreases |ms|
  {
    hide Norm;
    if !ms[0].value.Undefined? && ms[0].name == name { m := ms[0]; } else { m := NormFieldsOnly(owner, ms[1..], name); }
  }

  /** The fields of an object do not depend on the order of its members. */
  lemma NormFieldsAre(owner: C.JsValue, ms: seq<C.JsMember>)
    requires owner.Object? && C.DistinctNames(ms) && forall m :: m in ms ==> m in owner.members
    ensures forall m :: m in ms && !m.value.Undefined? ==>
              m.name in NormFields(owner, ms) && NormFields(owner, ms)[m.name] == Norm(m.value)
    ensures forall name :: name in NormFields(owner, ms) ==>
              exists m :: m in ms && !m.value.Undefined? && m.name == name
  {
    hide Norm, NormFields;
    forall m | m in ms && !m.value.Undefined?
      ensures m.name in NormFields(owner, ms) && NormFields(owner, ms)[m.name] == Norm(m.value)
    {
      NormFieldsHold(owner, ms, m);
    }
    forall name | name in NormFields(owner, ms)
      ensures exists m :: m in ms && !m.value.Undefined? && m.name == name
    {
      var m := NormFieldsOnly(owner, ms, name);
    }
  }

  lemma NormEntries(v: C.JsValue)
    requires v.Object? && C.DistinctNames(v.members)
    ensures C.DistinctNames(C.Entries(v.members))
    ensures NormFields(v, C.Entries(v.members)) == NormFields(v, v.members)
  {
    var es := C.Entries(v.members);
    C.EntriesAscend(v.members);
    AscendingIsDistinct(es);
    NormFieldsAre(v, es);
    NormFieldsAre(v, v.members);
    var a, b := NormFields(v, es), NormFields(v, v.members);
    forall name | name in a ensures name in b && a[name] == b[name] {
      var m :| m in es && !m.value.Undefined? && m.name == name;
    }
    forall name | name in b ensures name in a {
      var m :| m in v.members && !m.value.Undefined? && m.name == name;
      assert m in es;
    }
    assert a.Keys == b.Keys;
  }

  // ---- Trees without absent elements mean the normal form ----

  lemma {:induction false} TreeMeans(v: C.JsValue, rd: Reader)
    requires C.Serialize(v).Ok? && C.IsJsValue(v) && HoleFree(v) && Conforms(rd, true)
    ensures WellFormed(Tree(v)) && Strict(Tree(v)) && Meaning(Tree(v), rd) == Some(Norm(v))
    decreases v, 1, 0
  {
    TreeFits(v);
    match v {
      case Number(n) => NumberReads(n);
      case String(s) => BodyOfEscape(s);
      case Array(items) =>
        if items != [] { TreeItemsMean(v, items, rd); }
      case Object(ms) => TreeObjectMeans(v, rd);
      case _ =>
    }
  }

  lemma {:induction false} TreeObjectMeans(v: C.JsValue, rd: Reader)
    requires v.Object? && C.Serialize(v).Ok? && C.IsJsValue(v) && HoleFree(v) && Conforms(rd, true)
    ensures WellFormed(Tree(v)) && Strict(Tree(v)) && Meaning(Tree(v), rd) == Some(Norm(v))
    decreases v, 0, |C.Entries(v.members)| + 1
  {
    hide C.Entries, C.IsJsValue, HoleFree, C.Ascending, TreeMembers, NormFields, FieldsMeaning, C.SerializeMembers;
    var es := C.Entries(v.members);
    EntriesEnter(v);
    if es != [] {
      TreeMembersMean(v, es, map[], rd);
      assert map[] + NormFields(v, es) == NormFields(v, es);
    }
  }

  lemma EntriesEnter(v: C.JsValue)
    requires v.Object? && C.IsJsValue(v)
    ensures C.Ascending(C.Entries(v.members))
    ensures NormFields(v, C.Entries(v.members)) == NormFields(v, v.members)
    ensures C.Entries(v.members) == [] ==> NormFields(v, v.members) == map[]
  {
    NormEntries(v);
    C.EntriesAscend(v.members);
  }

  lemma {:induction false} TreeItemsMean(owner: C.JsValue, items: seq<C.JsValue>, rd: Reader)
    requires owner.Array? && C.IsJsValue(owner) && HoleFree(owner) && Conforms(rd, true)
    requires items != [] && forall item :: item in items ==> item in owner.items
    requires C.SerializeItems(owner, items).Ok?
    ensures WellFormedElements(TreeItems(owner, items)) && StrictElements(TreeItems(owner, items))
    ensures ItemsMeaning(TreeItems(owner, items), rd) == Some(NormItems(owner, items))
    decreases owner, 0, |items|
  {
    assert items[0] in owner.items;
    TreeItemsFit(owner, items);
    TreeMeans(items[0], rd);
    if |items| > 1 {
      TreeItemsMean(owner, items[1..], rd);
    } else {
      assert NormItems(owner, items[1..]) == [];
      assert NormItems(owner, items) == [Norm(items[0])];
      assert ItemsMeaning(LastElement(Bare(Tree(items[0]))), rd) == Some([Norm(items[0])]);
    }
  }

  lemma {:induction false} TreeMembersMean(owner: C.JsValue, ms: seq<C.JsMember>, fields: map<Text, Data>, rd: Reader)
    requires Prints(owner, ms) && HoleFree(owner) && Conforms(rd, true)
    requires forall m :: m in ms ==> m.name !in fields && !m.value.Undefined?
    ensures WellFormedMembers(TreeMembers(owner, ms)) && StrictMembers(TreeMembers(owner, ms))
    ensures FieldsMeaning(TreeMembers(owner, ms), rd, fields) == Some(fields + NormFields(owner, ms))
    decreases owner, 0, |ms|
  {
    hide C.IsJsValue, C.SerializeMembers, C.Serialize, C.Less, Norm;
    var first := ms[0];
    PrintsStep(owner, ms);
    TreeMembersFit(owner, ms);
    TreeMeans(first.value, rd);
    var more := fields[first.name := Norm(first.value)];
    var m := Member([], first.name, [], Bare(Tree(first.value)));
    assert WellFormedElement(Bare(Tree(first.value))) && WellFormedMember(m);
    assert MemberMeaning(m, rd, fields) == Some(more);
    if |ms| > 1 {
      FreshAfter(ms, fields, more);
      TreeMembersMean(owner, ms[1..], more, rd);
      FreshUnion(fields, first.name, Norm(first.value), NormFields(owner, ms[1..]), owner, ms);
    } else {
      assert NormFields(owner, ms[1..]) == map[];
      assert more == fields + NormFields(owner, ms);
    }
  }

  /** In ascending members, no later name is bound by binding the first. */
  lemma FreshAfter(ms: seq<C.JsMember>, fields: map<Text, Data>, more: map<Text, Data>)
    requires ms != [] && C.Ascending(ms) && forall m :: m in ms ==> m.name !in fields
    requires more.Keys == fields.Keys + {ms[0].name}
    ensures forall m :: m in ms[1..] ==> m.name !in more
  {
    LaterNames(ms);
    forall m | m in ms[1..] ensures m.name !in more {
      assert m in ms;
    }
  }

  lemma LaterNames(ms: seq<C.JsMember>)
    requires ms != [] && C.Ascending(ms)
    ensures C.Ascending(ms[1..])
    ensures forall m :: m in ms[1..] ==> C.Less(ms[0].name, m.name) && m.name != ms[0].name
  {
    forall m | m in ms[1..] ensures C.Less(ms[0].name, m.name) && m.name != ms[0].name {
      var k :| 0 <= k < |ms[1..]| && ms[1..][k] == m;
      assert ms[k + 1] == m;
      C.LessTotal(ms[0].name, m.name);
    }
  }

  lemma AscendingIsDistinct(ms: seq<C.JsMember>)
    requires C.Ascending(ms)
    ensures C.DistinctNames(ms)
  {
    forall i, j | 0 <= i < j < |ms| ensures ms[i].name != ms[j].name {
      C.LessTotal(ms[i].name, ms[j].name);
    }
  }

  lemma FreshUnion(fields: map<Text, Data>, name: Text, d: Data, rest: map<Text, Data>, owner: C.JsValue,
                   ms: seq<C.JsMember>)
    requires owner.Object? && ms != [] && C.Ascending(ms) && forall m :: m in ms ==> m in owner.members
    requires name == ms[0].name && rest == NormFields(owner, ms[1..])
    ensures fields[name := d] + rest == fields + rest[name := d]
  {
    LaterNames(ms);
    AscendingIsDistinct(ms[1..]);
    NormFieldsAre(owner, ms[1..]);
    assert name !in rest;
  }

  /**
   The canonical text of a value without holes is JSON, and every conforming reader reads the value's normal
   form from it.
   */
  lemma CanonicalReadsBack(v: C.JsValue, rd: Reader)
    requires C.IsJsValue(v) && C.Canonicalize(v).Ok? && HoleFree(v) && Conforms(rd, true)
    ensures ParseDocument(C.Canonicalize(v).value) == Some(Document(v))
    ensures WellFormed(Tree(v)) && Meaning(Tree(v), rd) == Some(Norm(v))
  {
    DocumentPrints(v);
    TreeMeans(v, rd);
    ParserDecidesGrammar(C.Canonicalize(v).value, Document(v));
  }

  // ---- Sparse arrays: exactly when the text is JSON, and exactly when it reads back ----

  lemma {:induction false} TreeReadable(v: C.JsValue)
    requires C.IsJsValue(v)
    ensures Readable(Tree(v)) <==> HolesAlone(v)
    decreases v, 1, 0
  {
    match v {
      case Array(items) =>
        if items != [] {
          TreeItemsReadable(v, items);
          LoneHole(v);
        }
      case Object(ms) => TreeObjectReadable(v);
      case _ =>
    }
  }

  lemma {:induction false} TreeObjectReadable(v: C.JsValue)
    requires v.Object? && C.IsJsValue(v)
    ensures Readable(Tree(v)) <==> HolesAlone(v)
    decreases v, 0, |C.Entries(v.members)| + 1
  {
    hide C.IsJsValue, Readable, TreeMembers;
    var es := C.Entries(v.members);
    if es != [] { TreeMembersReadable(v, es); }
    assert HolesAlone(v) <==> forall m :: m in es ==> HolesAlone(m.value);
    assert Readable(Tree(v)) <==> es == [] || ReadableMembers(TreeMembers(v, es)) by { ReadableObject(v); }
  }

  lemma ReadableObject(v: C.JsValue)
    requires v.Object?
    ensures Readable(Tree(v)) <==> C.Entries(v.members) == [] || ReadableMembers(TreeMembers(v, C.Entries(v.members)))
  {
  }

  lemma HoleReadable()
    ensures Readable(Tree(C.Hole)) <==> HolesAlone(C.Hole)
  {
  }

  lemma {:induction false} TreeItemsReadable(owner: C.JsValue, items: seq<C.JsValue>)
    requires owner.Array? && C.IsJsValue(owner)
    requires items != [] && forall item :: item in items ==> item in owner.items
    ensures ReadableElements(TreeItems(owner, items)) <==> forall item :: item in items ==> HolesAlone(item)
    decreases owner, 0, |items|
  {
    assert items[0] in owner.items;
    assert items[0].Hole? || C.IsJsValue(items[0]);
    hide HolesAlone, C.IsJsValue, Tree, Readable;
    if items[0].Hole? { HoleReadable(); } else { TreeReadable(items[0]); }
    FirstAndRest(items);
    if |items| > 1 { TreeItemsReadable(owner, items[1..]); }
  }

  lemma FirstAndRest(items: seq<C.JsValue>)
    requires items != []
    ensures (forall item :: item in items ==> HolesAlone(item)) <==>
            HolesAlone(items[0]) && forall item :: item in items[1..] ==> HolesAlone(item)
  {
    hide HolesAlone;
    assert items == [items[0]] + items[1..];
  }

  lemma LoneHole(owner: C.JsValue)
    requires owner.Array? && owner.items != []
    ensures LoneMissing(TreeItems(owner, owner.items)) <==> owner.items == [C.Hole]
  {
    var items := owner.items;
    if |items| == 1 { assert items == [items[0]]; }
  }

  lemma {:induction false} TreeMembersReadable(owner: C.JsValue, ms: seq<C.JsMember>)
    requires owner.Object? && C.IsJsValue(owner)
    requires ms != [] && forall m :: m in ms ==> m in owner.members
    ensures ReadableMembers(TreeMembers(owner, ms)) <==> forall m :: m in ms ==> HolesAlone(m.value)
    decreases owner, 0, |ms|
  {
    assert ms[0] in owner.members;
    TreeReadable(ms[0].value);
    assert ms == [ms[0]] + ms[1..];
    if |ms| > 1 {
      TreeMembersReadable(owner, ms[1..]);
    }
  }

  lemma {:induction false} ReadFits(v: Value)
    requires WellFormed(v) && Readable(v)
    ensures WellFormed(Read(v)) && Strict(Read(v))
    decreases v, 0
  {
    match v {
      case Array(es) =>
        if LoneMissing(es) {
          assert WellFormedElement(es.last);
          WhiteJoin(es.last.before, es.last.after);
        } else {
          ReadElementsFit(es);
        }
      case Object(ms) => ReadMembersFit(ms);
      case _ =>
    }
  }

  lemma {:induction false} ReadElementsFit(es: Elements)
    requires WellFormedElements(es) && ReadableElements(es)
    ensures WellFormedElements(ReadElements(es)) && StrictElements(ReadElements(es))
    decreases es, 1
  {
    var e := if es.LastElement? then es.last else es.first;
    assert WellFormedElement(e);
    ReadFits(e.value);
    assert WellFormedElement(ReadElement(e));
    if es.MoreElements? { ReadElementsFit(es.rest); }
  }

  lemma {:induction false} ReadMembersFit(ms: Members)
    requires WellFormedMembers(ms) && ReadableMembers(ms)
    ensures WellFormedMembers(ReadMembers(ms)) && StrictMembers(ReadMembers(ms))
    decreases ms, 1
  {
    var m := if ms.LastMember? then ms.last else ms.first;
    assert WellFormedMember(m) && WellFormedElement(m.element);
    ReadFits(m.element.value);
    assert WellFormedElement(ReadElement(m.element)) && WellFormedMember(ReadMember(m));
    if ms.MoreMembers? { ReadMembersFit(ms.rest); }
  }

  /** What is read back is not the normal form unless there is no hole. */
  lemma {:induction false} ReadMeansOnlyIfHoleFree(v: C.JsValue, rd: Reader)
    requires C.IsJsValue(v) && C.Serialize(v).Ok? && HolesAlone(v)
    requires WellFormed(Read(Tree(v))) && Meaning(Read(Tree(v)), rd) == Some(Norm(v)) && Conforms(rd, true)
    ensures HoleFree(v)
    decreases v, 1, 0
  {
    hide Norm, Meaning, WellFormed, Read, Tree, Conforms, C.IsJsValue, C.Serialize;
    match v {
      case Array(items) => ReadArrayMeansOnlyIfHoleFree(v, rd);
      case Object(ms) =>
        if C.Entries(ms) != [] {
          ObjectMeansByMembers(v, rd);
          ReadObjectMeansOnlyIfHoleFree(v, rd);
        } else {
          assert forall m :: m in ms ==> m.value.Undefined?;
        }
      case _ =>
    }
  }

  lemma ObjectMeansByMembers(v: C.JsValue, rd: Reader)
    requires v.Object? && C.Entries(v.members) != [] && C.IsJsValue(v) && C.Serialize(v).Ok?
    requires WellFormed(Read(Tree(v))) && Meaning(Read(Tree(v)), rd) == Some(Norm(v))
    ensures C.SerializeMembers.requires(v, C.Entries(v.members)) && C.SerializeMembers(v, C.Entries(v.members)).Ok?
    ensures WellFormedMembers(ReadMembers(TreeMembers(v, C.Entries(v.members))))
    ensures FieldsMeaning(ReadMembers(TreeMembers(v, C.Entries(v.members))), rd, map[]) ==
            Some(NormFields(v, v.members))
  {
    hide TreeMembers, ReadMembers, FieldsMeaning, NormFields, C.SerializeMembers, WellFormedMembers, C.IsJsValue;
  }

  lemma {:induction false} ReadArrayMeansOnlyIfHoleFree(v: C.JsValue, rd: Reader)
    requires v.Array? && C.IsJsValue(v) && C.Serialize(v).Ok? && HolesAlone(v) && Conforms(rd, true)
    requires WellFormed(Read(Tree(v))) && Meaning(Read(Tree(v)), rd) == Some(Norm(v))
    ensures HoleFree(v)
    decreases v, 0, |v.items| + 1
  {
    if v.items != [] {
      TreeItemsReadable(v, v.items);
      LoneHole(v);
      if v.items != [C.Hole] {
        ReadItemsMeanOnlyIfHoleFree(v, v.items, rd);
      }
    }
  }

  lemma {:induction false} ReadObjectMeansOnlyIfHoleFree(v: C.JsValue, rd: Reader)
    requires v.Object? && C.IsJsValue(v) && HolesAlone(v) && Conforms(rd, true)
    requires C.Entries(v.members) != [] && C.SerializeMembers(v, C.Entries(v.members)).Ok?
    requires WellFormedMembers(ReadMembers(TreeMembers(v, C.Entries(v.members))))
    requires FieldsMeaning(ReadMembers(TreeMembers(v, C.Entries(v.members))), rd, map[]) ==
             Some(NormFields(v, v.members))
    ensures HoleFree(v)
    decreases v, 0, |C.Entries(v.members)|
  {
    var es, all := C.Entries(v.members), NormFields(v, v.members);
    C.EntriesAscend(v.members);
    NormFieldsAre(v, v.members);
    ReadFieldsMean(v, es, map[], all, rd);
    forall m | m in v.members ensures HoleFree(m.value) {
      if !m.value.Undefined? {
        assert m in es && ReadsAs(m, all, rd);
        ReadMeansOnlyIfHoleFree(m.value, rd);
      }
    }
  }

  lemma {:induction false} ReadItemsMeanOnlyIfHoleFree(owner: C.JsValue, items: seq<C.JsValue>, rd: Reader)
    requires owner.Array? && C.IsJsValue(owner) && Conforms(rd, true)
    requires items != [] && forall item :: item in items ==> item in owner.items && HolesAlone(item)
    requires C.SerializeItems(owner, items).Ok?
    requires WellFormedElements(ReadElements(TreeItems(owner, items)))
    requires ItemsMeaning(ReadElements(TreeItems(owner, items)), rd) == Some(NormItems(owner, items))
    ensures forall item :: item in items ==> HoleFree(item)
    decreases owner, 0, |items|
  {
    assert items[0] in owner.items;
    assert items[0] in items;
    assert items == [items[0]] + items[1..];
    var es := ReadElements(TreeItems(owner, items));
    var e := if es.LastElement? then es.last else es.first;
    assert WellFormedElement(e) && e.value == Read(Tree(items[0]));
    assert Meaning(e.value, rd).Some? && NormItems(owner, items)[0] == Norm(items[0]);
    assert Meaning(e.value, rd) == Some(Norm(items[0])) by {
      if |items| == 1 {
        assert ItemsMeaning(es, rd).value[0] == Meaning(e.value, rd).value;
      } else {
        assert ItemsMeaning(es, rd).value[0] == Meaning(e.value, rd).value;
      }
    }
    ReadMeansOnlyIfHoleFree(items[0], rd);
    if |items| > 1 {
      assert ItemsMeaning(es, rd).value[1..] == ItemsMeaning(es.rest, rd).value;
      assert NormItems(owner, items)[1..] == NormItems(owner, items[1..]);
      ReadItemsMeanOnlyIfHoleFree(owner, items[1..], rd);
    }
  }

  /** Reading the members binds each name to what its value means and keeps the earlier fields. */
  lemma {:induction false} ReadFieldsMean(owner: C.JsValue, ms: seq<C.JsMember>, fields: map<Text, Data>,
                                          all: map<Text, Data>, rd: Reader)
    requires Prints(owner, ms) && Conforms(rd, true)
    requires WellFormedMembers(ReadMembers(TreeMembers(owner, ms)))
    requires FieldsMeaning(ReadMembers(TreeMembers(owner, ms)), rd, fields) == Some(all)
    requires forall m :: m in ms ==> m.name !in fields
    ensures forall name :: name in fields ==> name in all && all[name] == fields[name]
    ensures forall m :: m in ms ==> ReadsAs(m, all, rd)
    decreases |ms|
  {
    hide C.IsJsValue, C.SerializeMembers, C.Less, Norm;
    PrintsStep(owner, ms);
    var tree := ReadMembers(TreeMembers(owner, ms));
    var m := if tree.LastMember? then tree.last else tree.first;
    assert WellFormedMember(m) && WellFormedElement(m.element);
    assert m == ReadMember(Member([], ms[0].name, [], Bare(Tree(ms[0].value))));
    assert m.element == ReadElement(Bare(Tree(ms[0].value)));
    var more := MemberMeaning(m, rd, fields).value;
    var d := Meaning(m.element.value, rd).value;
    assert more == fields[ms[0].name := d];
    if |ms| > 1 {
      FreshAfter(ms, fields, more);
      ReadFieldsMean(owner, ms[1..], more, all, rd);
      assert ms == [ms[0]] + ms[1..];
    } else {
      assert all == more && ms == [ms[0]];
    }
  }

  ghost predicate ReadsAs(m: C.JsMember, all: map<Text, Data>, rd: Reader) {
    && C.Serialize(m.value).Ok? && WellFormed(Read(Tree(m.value)))
    && m.name in all && Meaning(Read(Tree(m.value)), rd) == Some(all[m.name])
  }

  /**
   Exactly when the law holds. A canonical text is JSON if and only if every hole is alone in its array,
   and reads back as the normal form if and only if there is no hole.
   */
  lemma RoundTripExactly(v: C.JsValue, rd: Reader)
    requires C.IsJsValue(v) && C.Canonicalize(v).Ok? && Conforms(rd, true)
    ensures var read := ParseDocument(C.Canonicalize(v).value);
            && (read.Some? <==> HolesAlone(v))
            && (read.Some? ==> WellFormed(read.value.value))
            && (read.Some? && Meaning(read.value.value, rd) == Some(Norm(v)) <==> HoleFree(v))
  {
    DocumentPrints(v);
    DocumentReads(Document(v));
    TreeReadable(v);
    if HolesAlone(v) {
      ReadFits(Tree(v));
      if Meaning(Read(Tree(v)), rd) == Some(Norm(v)) { ReadMeansOnlyIfHoleFree(v, rd); }
    }
    if HoleFree(v) {
      CanonicalReadsBack(v, rd);
    }
  }

  /** The sparse array [ , 1 ] is printed as `[,1]`, which is not JSON. */
  lemma SparseArrayIsNotJson()
    ensures var v := C.Array([C.Hole, C.Number(C.Integer(1))]);
            && C.Canonicalize(v) == C.Ok([OPEN_ARRAY, COMMA, 0x31, CLOSE_ARRAY])
            && ParseDocument(C.Canonicalize(v).value) == None
  {
    var one := C.Number(C.Integer(1));
    var items := [C.Hole, one];
    var v := C.Array(items);
    SparseArrayPrints(v, one);
    DocumentPrints(v);
    DocumentReads(Document(v));
    TreeReadable(v);
    assert items[0] == C.Hole && items[1] == one && !HolesAlone(C.Hole);
  }

  lemma SparseArrayPrints(v: C.JsValue, one: C.JsValue)
    requires one == C.Number(C.Integer(1)) && v == C.Array([C.Hole, one])
    ensures C.IsJsValue(v) && C.Canonicalize(v) == C.Ok([OPEN_ARRAY, COMMA, 0x31, CLOSE_ARRAY])
  {
    assert [one][1..] == [] && [C.Hole, one][1..] == [one];
    assert one in v.items;
    assert C.SerializeItems(v, []) == C.Ok([]);
    assert C.Serialize(one) == C.Ok([0x31]);
    assert [[0x31]] + [] == [[0x31]];
    assert C.SerializeItems(v, [one]) == C.Ok([[0x31]]);
    assert [[]] + [[0x31]] == [[], [0x31]];
    assert C.SerializeItems(v, v.items) == C.Ok([[], [0x31]]);
    assert [[], [0x31]][1..] == [[0x31]];
    assert C.Join([[], [0x31]]) == [COMMA, 0x31];
    assert [OPEN_ARRAY] + [COMMA, 0x31] + [CLOSE_ARRAY] == [OPEN_ARRAY, COMMA, 0x31, CLOSE_ARRAY];
  }

  // ---- Same text exactly when same data ----

  lemma {:induction false} SameNormSameText(v: C.JsValue, w: C.JsValue)
    requires C.IsJsValue(v) && C.Serialize(v).Ok? && HoleFree(v)
    requires C.IsJsValue(w) && C.Serialize(w).Ok? && HoleFree(w)
    requires Norm(v) == Norm(w)
    ensures C.Serialize(v) == C.Serialize(w)
    decreases v, 1, 0
  {
    match v {
      case Array(items) => SameItems(v, items, w, w.items);
      case Object(ms) =>
        NormEntries(v);
        NormEntries(w);
        C.EntriesAscend(v.members);
        C.EntriesAscend(w.members);
        SameEntries(v, C.Entries(v.members), w, C.Entries(w.members));
      case _ =>
    }
  }

  lemma {:induction false} SameItems(v: C.JsValue, vs: seq<C.JsValue>, w: C.JsValue, ws: seq<C.JsValue>)
    requires v.Array? && C.IsJsValue(v) && HoleFree(v) && C.SerializeItems.requires(v, vs) &&
             C.SerializeItems(v, vs).Ok?
    requires w.Array? && C.IsJsValue(w) && HoleFree(w) && C.SerializeItems.requires(w, ws) &&
             C.SerializeItems(w, ws).Ok?
    requires NormItems(v, vs) == NormItems(w, ws)
    ensures C.SerializeItems(v, vs) == C.SerializeItems(w, ws)
    decreases v, 0, |vs|
  {
    if vs != [] {
      assert vs[0] in v.items && ws[0] in w.items;
      assert NormItems(v, vs)[0] == Norm(vs[0]) && NormItems(w, ws)[0] == Norm(ws[0]);
      assert NormItems(v, vs)[1..] == NormItems(v, vs[1..]) && NormItems(w, ws)[1..] == NormItems(w, ws[1..]);
      SameNormSameText(vs[0], ws[0]);
      SameItems(v, vs[1..], w, ws[1..]);
    }
  }

  /** Entries with the same fields have the same names in the same places, and so the same text. */
  lemma {:induction false} SameEntries(v: C.JsValue, vs: seq<C.JsMember>, w: C.JsValue, ws: seq<C.JsMember>)
    requires v.Object? && C.IsJsValue(v) && HoleFree(v) && Entered(v, vs) && C.SerializeMembers(v, vs).Ok?
    requires w.Object? && C.IsJsValue(w) && HoleFree(w) && Entered(w, ws) && C.SerializeMembers(w, ws).Ok?
    requires NormFields(v, vs) == NormFields(w, ws)
    ensures C.SerializeMembers(v, vs) == C.SerializeMembers(w, ws)
    decreases v, 0, |vs|
  {
    if vs == [] || ws == [] {
      FirstField(v, vs);
      FirstField(w, ws);
    } else {
      assert vs[0] in v.members && ws[0] in w.members;
      FirstField(v, vs);
      FirstField(w, ws);
      C.LessTotal(vs[0].name, ws[0].name);
      SameNormSameText(vs[0].value, ws[0].value);
      SameEntries(v, vs[1..], w, ws[1..]);
    }
  }

  predicate Entered(v: C.JsValue, ms: seq<C.JsMember>)
    requires v.Object?
  {
    C.Ascending(ms) && forall m :: m in ms ==> m in v.members && !m.value.Undefined?
  }

  /** The first of ascending entries is the least of the fields' names, and the rest are the other fields. */
  lemma FirstField(v: C.JsValue, ms: seq<C.JsMember>)
    requires v.Object? && Entered(v, ms)
    ensures ms == [] ==> NormFields(v, ms) == map[]
    ensures ms != [] ==>
              && ms[0].name in NormFields(v, ms) && NormFields(v, ms)[ms[0].name] == Norm(ms[0].value)
              && (forall name :: name in NormFields(v, ms) ==> name == ms[0].name || C.Less(ms[0].name, name))
              && NormFields(v, ms[1..]) == NormFields(v, ms) - {ms[0].name}
  {
    if ms != [] {
      hide C.Less, C.IsJsValue, Norm;
      var tail := ms[1..];
      var rest := NormFields(v, tail);
      LaterNames(ms);
      AscendingIsDistinct(tail);
      NormFieldsAre(v, tail);
      forall name | name in rest ensures C.Less(ms[0].name, name) && name != ms[0].name {
        var m :| m in tail && !m.value.Undefined? && m.name == name;
      }
      assert rest == rest[ms[0].name := Norm(ms[0].value)] - {ms[0].name};
    }
  }

  /** The printer is one-to-one on data: two canonical texts are equal exactly when the normal forms are. */
  lemma CanonicalTextIsUnique(v: C.JsValue, w: C.JsValue)
    requires C.IsJsValue(v) && C.Canonicalize(v).Ok? && HoleFree(v)
    requires C.IsJsValue(w) && C.Canonicalize(w).Ok? && HoleFree(w)
    ensures C.Canonicalize(v) == C.Canonicalize(w) <==> Norm(v) == Norm(w)
  {
    if Norm(v) == Norm(w) {
      SameNormSameText(v, w);
    }
    if C.Canonicalize(v) == C.Canonicalize(w) {
      var rd := Reader((s: Text) => s, (s: Text) => IntData(IntegerValue(s)), KeepLast);
      CanonicalReadsBack(v, rd);
      CanonicalReadsBack(w, rd);
    }
  }
}
