/**
 A recursive-descent parser for the grammar of `JsonGrammar`, proved sound and complete. It plays
 the part of the conforming parser (`JSON.parse`) that reads a text after the guard has let it
 through; because it is complete, the grammar is unambiguous.
 */
module JsonParser {
  import opened Wrappers
  import opened JsonGrammar

  function WhiteRun(s: Text): (n: nat)
    ensures n <= |s|
    ensures n < |s| ==> !IsWhite(s[n])
  {
    if s == [] || !IsWhite(s[0]) then 0 else 1 + WhiteRun(s[1..])
  }

  lemma {:induction false} WhiteRunIsWhite(s: Text)
    ensures AllWhite(s[..WhiteRun(s)])
  {
    if s != [] && IsWhite(s[0]) {
      WhiteRunIsWhite(s[1..]);
      assert s[..WhiteRun(s)][1..] == s[1..][..WhiteRun(s[1..])];
    }
  }

  function NumberRun(s: Text): (n: nat)
    ensures n <= |s|
  {
    if s == [] || !IsNumberUnit(s[0]) then 0 else 1 + NumberRun(s[1..])
  }

  /** The length of the string body `s` starts with, if a quotation mark ends it. */
  function BodyLength(s: Text): (r: Option<nat>)
    ensures r.Some? ==> r.value < |s| && s[r.value] == QUOTE && IsBody(s[..r.value])
  {
    if s == [] then None
    else if s[0] == QUOTE then Some(0)
    else
      var step := if s[0] != REVERSE_SOLIDUS then 1 else if |s| >= 2 && s[1] == SMALL_U then 6 else 2;
      if |s| < step || !IsBody(s[..step]) then None
      else
        match BodyLength(s[step..])
        case None => None
        case Some(n) =>
          BodyJoin(s[..step], s[step..][..n]);
          assert s[..step] + s[step..][..n] == s[..step + n];
          Some(step + n)
  }

  /** The length of the first unit of a body, an escape or a plain character. */
  function BodyStep(body: Text): (n: nat)
    requires IsBody(body) && body != []
    ensures 0 < n <= |body| && IsBody(body[..n]) && IsBody(body[n..])
  {
    if body[0] != REVERSE_SOLIDUS then assert body[..1][1..] == []; 1
    else if IsShortEscape(body[1]) then assert body[..2][2..] == []; 2
    else assert body[..6][6..] == []; 6
  }

  lemma BodyLead(s: Text, n: nat, a: Text)
    requires IsBody(a) && a != [] && n == BodyStep(a) && n <= |s| && s[..n] == a[..n] && IsBody(s[n..])
    ensures IsBody(s)
  {
    assert forall k :: 0 <= k < n ==> s[k] == s[..n][k] && a[k] == a[..n][k];
  }

  lemma {:induction false} BodyJoin(a: Text, b: Text)
    requires IsBody(a) && IsBody(b)
    ensures IsBody(a + b)
    decreases |a|
  {
    hide IsBody;
    if a == [] {
      assert a + b == b;
    } else {
      var step := BodyStep(a);
      BodyJoin(a[step..], b);
      assert (a + b)[step..] == a[step..] + b;
      BodyLead(a + b, step, a);
    }
  }

  function ParseWord(s: Text): (r: Option<(Value, Text)>)
    ensures r.Some? ==> |r.value.1| < |s|
  {
    if NULL <= s then Some((Word(NULL), s[4..]))
    else if TRUE <= s then Some((Word(TRUE), s[4..]))
    else if FALSE <= s then Some((Word(FALSE), s[5..]))
    else None
  }

  function ParseNumber(s: Text): (r: Option<(Value, Text)>)
    requires s != []
    ensures r.Some? ==> |r.value.1| < |s|
  {
    var n := NumberRun(s);
    if n > 0 && IsNumber(s[..n]) then Some((Number(s[..n]), s[n..])) else None
  }

  /** `s` is what follows the opening quotation mark. */
  function ParseBody(s: Text): (r: Option<(Text, Text)>)
    ensures r.Some? ==> |r.value.1| < |s|
  {
    match BodyLength(s)
    case None => None
    case Some(n) => Some((s[..n], s[n + 1..]))
  }

  function ParseValue(s: Text): (r: Option<(Value, Text)>)
    ensures r.Some? ==> |r.value.1| < |s|
    decreases |s|, 1
  {
    if s == [] then None
    else if s[0] == QUOTE then
      (match ParseBody(s[1..]) case None => None case Some((body, t)) => Some((String(body), t)))
    else if s[0] == OPEN_ARRAY then ParseArray(s[1..])
    else if s[0] == OPEN_OBJECT then ParseObject(s[1..])
    else if IsNumberUnit(s[0]) then ParseNumber(s)
    else ParseWord(s)
  }

  /** `s` is what follows the opening bracket. */
  function ParseArray(s: Text): (r: Option<(Value, Text)>)
    ensures r.Some? ==> |r.value.1| < |s|
    decreases |s|, 4
  {
    var w := WhiteRun(s);
    if w < |s| && s[w] == CLOSE_ARRAY then Some((EmptyArray(s[..w]), s[w + 1..]))
    else
      match ParseElements(s)
      case None => None
      case Some((es, t)) => if t != [] && t[0] == CLOSE_ARRAY then Some((Array(es), t[1..])) else None
  }

  function ParseObject(s: Text): (r: Option<(Value, Text)>)
    ensures r.Some? ==> |r.value.1| < |s|
    decreases |s|, 5
  {
    var w := WhiteRun(s);
    if w < |s| && s[w] == CLOSE_OBJECT then Some((EmptyObject(s[..w]), s[w + 1..]))
    else
      match ParseMembers(s)
      case None => None
      case Some((ms, t)) => if t != [] && t[0] == CLOSE_OBJECT then Some((Object(ms), t[1..])) else None
  }

  function ParseElement(s: Text): (r: Option<(Element, Text)>)
    ensures r.Some? ==> |r.value.1| < |s|
    decreases |s|, 2
  {
    var w := WhiteRun(s);
    Surround(s[..w], ParseValue(s[w..]))
  }

  /** A parsed value with the white before it and the white found after it. */
  function Surround(before: Text, r: Option<(Value, Text)>): (e: Option<(Element, Text)>)
    ensures e.Some? ==> r.Some? && |e.value.1| <= |r.value.1|
  {
    match r
    case None => None
    case Some((v, t)) =>
      var a := WhiteRun(t);
      Some((Element(before, v, t[..a]), t[a..]))
  }

  function ParseElements(s: Text): (r: Option<(Elements, Text)>)
    ensures r.Some? ==> |r.value.1| < |s|
    decreases |s|, 3
  {
    match ParseElement(s)
    case None => None
    case Some((e, t)) =>
      if t != [] && t[0] == COMMA then
        (match ParseElements(t[1..])
         case None => None
         case Some((rest, u)) => Some((MoreElements(e, rest), u)))
      else Some((LastElement(e), t))
  }

  /** The name of a member with the colon after it: white, body, white and the rest of the text. */
  function ParseName(s: Text): (r: Option<(Text, Text, Text, Text)>)
    ensures r.Some? ==> |r.value.3| < |s|
  {
    var w := WhiteRun(s);
    if w == |s| || s[w] != QUOTE then None else ParseColon(s[..w], ParseBody(s[w + 1..]))
  }

  /** The colon after a parsed name, with the white before it. */
  function ParseColon(before: Text, r: Option<(Text, Text)>): (n: Option<(Text, Text, Text, Text)>)
    ensures n.Some? ==> r.Some? && |n.value.3| < |r.value.1|
  {
    match r
    case None => None
    case Some((name, t)) =>
      var a := WhiteRun(t);
      if a == |t| || t[a] != COLON then None else Some((before, name, t[..a], t[a + 1..]))
  }

  function ParseMember(s: Text): (r: Option<(Member, Text)>)
    ensures r.Some? ==> |r.value.1| < |s|
    decreases |s|, 3
  {
    match ParseName(s)
    case None => None
    case Some((before, name, after, t)) =>
      match ParseElement(t)
      case None => None
      case Some((e, u)) => Some((Member(before, name, after, e), u))
  }

  function ParseMembers(s: Text): (r: Option<(Members, Text)>)
    ensures r.Some? ==> |r.value.1| < |s|
    decreases |s|, 4
  {
    match ParseMember(s)
    case None => None
    case Some((m, t)) =>
      if t != [] && t[0] == COMMA then
        (match ParseMembers(t[1..])
         case None => None
         case Some((rest, u)) => Some((MoreMembers(m, rest), u)))
      else Some((LastMember(m), t))
  }

  function ParseDocument(s: Text): Option<Element> {
    match ParseElement(s)
    case None => None
    case Some((e, t)) => if t == [] then Some(e) else None
  }

  // ---- Soundness: what is parsed is a derivation of the text ----

  lemma BodySound(s: Text)
    ensures var r := ParseBody(s);
            r.Some? ==> IsBody(r.value.0) && s == r.value.0 + ([QUOTE] + r.value.1)
  {
  }

  lemma {:induction false} ValueSound(s: Text)
    ensures var r := ParseValue(s);
            r.Some? ==> WellFormed(r.value.0) && Strict(r.value.0) && s == ValueText(r.value.0, r.value.1)
    decreases |s|, 1
  {
    if s != [] {
      assert s == [s[0]] + s[1..];
      if s[0] == QUOTE { BodySound(s[1..]); }
      else if s[0] == OPEN_ARRAY { ArraySound(s[1..]); }
      else if s[0] == OPEN_OBJECT { ObjectSound(s[1..]); }
      else if IsNumberUnit(s[0]) { assert s == s[..NumberRun(s)] + s[NumberRun(s)..]; }
      else { WordSound(s); }
    }
  }

  lemma WordSound(s: Text)
    ensures var r := ParseWord(s);
            r.Some? ==> WellFormed(r.value.0) && Strict(r.value.0) && s == ValueText(r.value.0, r.value.1)
  {
  }

  lemma {:induction false} ArraySound(s: Text)
    ensures var r := ParseArray(s);
            r.Some? ==>
              WellFormed(r.value.0) && Strict(r.value.0) &&
              [OPEN_ARRAY] + s == ValueText(r.value.0, r.value.1)
    decreases |s|, 4
  {
    var w := WhiteRun(s);
    if w < |s| && s[w] == CLOSE_ARRAY {
      WhiteRunIsWhite(s);
      CutAt(s, w);
    } else {
      ElementsSound(s);
      var r := ParseElements(s);
      if r.Some? && r.value.1 != [] { CutAt(r.value.1, 0); }
    }
  }

  lemma {:induction false} ObjectSound(s: Text)
    ensures var r := ParseObject(s);
            r.Some? ==>
              WellFormed(r.value.0) && Strict(r.value.0) &&
              [OPEN_OBJECT] + s == ValueText(r.value.0, r.value.1)
    decreases |s|, 5
  {
    var w := WhiteRun(s);
    if w < |s| && s[w] == CLOSE_OBJECT {
      WhiteRunIsWhite(s);
      CutAt(s, w);
    } else {
      MembersSound(s);
      var r := ParseMembers(s);
      if r.Some? && r.value.1 != [] { CutAt(r.value.1, 0); }
    }
  }

  lemma CutAt(s: Text, n: nat)
    requires n < |s|
    ensures s == s[..n] + ([s[n]] + s[n + 1..])
    ensures n == 0 ==> s == [s[0]] + s[1..]
  {
  }

  lemma {:induction false} ElementSound(s: Text)
    ensures var r := ParseElement(s);
            r.Some? ==>
              WellFormedElement(r.value.0) && Strict(r.value.0.value) &&
              s == ElementText(r.value.0, r.value.1)
    decreases |s|, 2
  {
    var w := WhiteRun(s);
    ValueSound(s[w..]);
    SurroundSound(s[..w], ParseValue(s[w..]));
    WhiteRunIsWhite(s);
    assert s == s[..w] + s[w..];
  }

  lemma SurroundSound(before: Text, r: Option<(Value, Text)>)
    ensures var e := Surround(before, r);
            e.Some? ==>
              e.value.0.before == before && r.Some? && e.value.0.value == r.value.0 &&
              AllWhite(e.value.0.after) &&
              r.value.1 == e.value.0.after + e.value.1
  {
    if r.Some? {
      var t := r.value.1;
      WhiteRunIsWhite(t);
      assert t == t[..WhiteRun(t)] + t[WhiteRun(t)..];
    }
  }

  lemma {:induction false} ElementsSound(s: Text)
    ensures var r := ParseElements(s);
            r.Some? ==>
              WellFormedElements(r.value.0) && StrictElements(r.value.0) &&
              s == ElementsText(r.value.0, r.value.1)
    decreases |s|, 3
  {
    ElementSound(s);
    var r := ParseElement(s);
    if r.Some? && r.value.1 != [] && r.value.1[0] == COMMA {
      CutAt(r.value.1, 0);
      ElementsSound(r.value.1[1..]);
    }
  }

  lemma NameSound(s: Text)
    ensures var r := ParseName(s);
            r.Some? ==>
              var (before, name, after, t) := r.value;
              AllWhite(before) && IsBody(name) && AllWhite(after) && s == NameText(before, name, after, t)
  {
    var w := WhiteRun(s);
    if w < |s| && s[w] == QUOTE {
      WhiteRunIsWhite(s);
      CutAt(s, w);
      BodySound(s[w + 1..]);
      ColonSound(s[..w], ParseBody(s[w + 1..]));
    }
  }

  lemma ColonSound(before: Text, r: Option<(Text, Text)>)
    ensures var n := ParseColon(before, r);
            n.Some? ==>
              r.Some? && n.value.0 == before && n.value.1 == r.value.0 && AllWhite(n.value.2) &&
              r.value.1 == n.value.2 + ([COLON] + n.value.3)
  {
    if r.Some? {
      var t := r.value.1;
      WhiteRunIsWhite(t);
      if WhiteRun(t) < |t| { CutAt(t, WhiteRun(t)); }
    }
  }

  lemma {:induction false} MemberSound(s: Text)
    ensures var r := ParseMember(s);
            r.Some? ==>
              WellFormedMember(r.value.0) && Strict(r.value.0.element.value) &&
              s == MemberText(r.value.0, r.value.1)
    decreases |s|, 3
  {
    NameSound(s);
    var r := ParseName(s);
    if r.Some? {
      ElementSound(r.value.3);
    }
  }

  lemma {:induction false} MembersSound(s: Text)
    ensures var r := ParseMembers(s);
            r.Some? ==>
              WellFormedMembers(r.value.0) && StrictMembers(r.value.0) &&
              s == MembersText(r.value.0, r.value.1)
    decreases |s|, 4
  {
    MemberSound(s);
    var r := ParseMember(s);
    if r.Some? && r.value.1 != [] && r.value.1[0] == COMMA {
      CutAt(r.value.1, 0);
      MembersSound(r.value.1[1..]);
    }
  }

  // ---- Completeness ----

  /** What may follow an element: the end of the text, a comma or a closing bracket. */
  predicate Follows(post: Text) {
    post == [] || post[0] == COMMA || post[0] == CLOSE_ARRAY || post[0] == CLOSE_OBJECT
  }

  /** The absent elements of the tree, if any, are each alone in an array, so their text is an empty array's. */
  predicate Readable(v: Value) {
    match v
    case Missing => false
    case Array(es) => LoneMissing(es) || ReadableElements(es)
    case Object(ms) => ReadableMembers(ms)
    case _ => true
  }

  predicate LoneMissing(es: Elements) {
    es.LastElement? && es.last.value.Missing?
  }

  predicate ReadableElements(es: Elements) {
    match es
    case LastElement(e) => Readable(e.value)
    case MoreElements(e, rest) => Readable(e.value) && ReadableElements(rest)
  }

  predicate ReadableMembers(ms: Members) {
    match ms
    case LastMember(m) => Readable(m.element.value)
    case MoreMembers(m, rest) => Readable(m.element.value) && ReadableMembers(rest)
  }

  /** The tree a parser reads: an array whose only element is absent reads as an empty array. */
  function Read(v: Value): Value {
    match v
    case Array(es) => if LoneMissing(es) then EmptyArray(es.last.before + es.last.after) else Array(ReadElements(es))
    case Object(ms) => Object(ReadMembers(ms))
    case _ => v
  }

  function ReadElement(e: Element): Element {
    e.(value := Read(e.value))
  }

  function ReadElements(es: Elements): Elements {
    match es
    case LastElement(e) => LastElement(ReadElement(e))
    case MoreElements(e, rest) => MoreElements(ReadElement(e), ReadElements(rest))
  }

  function ReadMember(m: Member): Member {
    m.(element := ReadElement(m.element))
  }

  function ReadMembers(ms: Members): Members {
    match ms
    case LastMember(m) => LastMember(ReadMember(m))
    case MoreMembers(m, rest) => MoreMembers(ReadMember(m), ReadMembers(rest))
  }

  lemma {:induction false} WhiteThen(w: Text, t: Text)
    requires AllWhite(w) && (t == [] || !IsWhite(t[0]))
    ensures WhiteRun(w + t) == |w|
    ensures (w + t)[..|w|] == w && (w + t)[|w|..] == t
  {
    if w != [] {
      WhiteThen(w[1..], t);
      assert (w + t)[1..] == w[1..] + t;
    } else {
      assert w + t == t;
    }
  }

  lemma {:induction false} NumberThen(s: Text, post: Text)
    requires AllNumberUnits(s) && Delimited(post)
    ensures NumberRun(s + post) == |s|
  {
    if s != [] {
      NumberThen(s[1..], post);
      assert (s + post)[1..] == s[1..] + post;
    } else {
      assert s + post == post;
    }
  }

  lemma {:induction false} BodyThen(body: Text, t: Text)
    requires IsBody(body)
    ensures BodyLength(body + ([QUOTE] + t)) == Some(|body|)
    decreases |body|
  {
    if body != [] {
      var n := BodyStep(body);
      BodyThen(body[n..], t);
      BodyLengthStep(body, n, [QUOTE] + t);
    } else {
      assert body + ([QUOTE] + t) == [QUOTE] + t;
    }
  }

  lemma BodyLengthStep(body: Text, n: nat, t: Text)
    requires IsBody(body) && body != [] && n == BodyStep(body)
    ensures (body + t)[n..] == body[n..] + t
    ensures BodyLength(body + t) == match BodyLength(body[n..] + t) case None => None case Some(m) => Some(n + m)
  {
    var s := body + t;
    assert s[n..] == body[n..] + t && s[..n] == body[..n];
  }

  lemma ParseBodyThen(body: Text, t: Text)
    requires IsBody(body)
    ensures ParseBody(body + ([QUOTE] + t)) == Some((body, t))
  {
    BodyThen(body, t);
    var s := body + ([QUOTE] + t);
    assert s[..|body|] == body && s[|body| + 1..] == t;
  }

  lemma Dispatch(t: Text)
    ensures ([QUOTE] + t)[1..] == ([OPEN_ARRAY] + t)[1..] == ([OPEN_OBJECT] + t)[1..] == t
    ensures ParseValue([OPEN_ARRAY] + t) == ParseArray(t)
    ensures ParseValue([OPEN_OBJECT] + t) == ParseObject(t)
  {
  }

  /** A value starts with neither white nor a unit that ends an element. */
  lemma ValueStart(v: Value, tail: Text)
    requires WellFormed(v) && !v.Missing?
    ensures var s := ValueText(v, tail); s != [] && !IsWhite(s[0]) && !Follows(s)
  {
    if v.Number? { NumberUnits(v.lexeme); }
  }

  lemma NumberComplete(lexeme: Text, post: Text)
    requires IsNumber(lexeme) && Delimited(post)
    ensures ParseValue(lexeme + post) == Some((Number(lexeme), post))
  {
    NumberUnits(lexeme);
    NumberThen(lexeme, post);
  }

  lemma WordComplete(w: Text, post: Text)
    requires w == NULL || w == TRUE || w == FALSE
    ensures ParseValue(w + post) == Some((Word(w), post))
  {
  }

  lemma EmptyComplete(white: Text, post: Text)
    requires AllWhite(white)
    ensures ParseArray(white + ([CLOSE_ARRAY] + post)) == Some((EmptyArray(white), post))
    ensures ParseObject(white + ([CLOSE_OBJECT] + post)) == Some((EmptyObject(white), post))
  {
    WhiteThen(white, [CLOSE_ARRAY] + post);
    WhiteThen(white, [CLOSE_OBJECT] + post);
    assert (white + ([CLOSE_ARRAY] + post))[|white| + 1..] == post;
    assert (white + ([CLOSE_OBJECT] + post))[|white| + 1..] == post;
  }

  lemma {:induction false} ValueComplete(v: Value, post: Text)
    requires WellFormed(v) && !v.Missing? && Delimited(post)
    ensures ParseValue(ValueText(v, post)) == if Readable(v) then Some((Read(v), post)) else None
    decreases v, 0
  {
    match v {
      case Word(w) => WordComplete(w, post);
      case Number(lexeme) => NumberComplete(lexeme, post);
      case String(body) =>
        ParseBodyThen(body, post);
        Dispatch(body + ([QUOTE] + post));
      case EmptyArray(white) =>
        EmptyComplete(white, post);
        Dispatch(white + ([CLOSE_ARRAY] + post));
      case EmptyObject(white) =>
        EmptyComplete(white, post);
        Dispatch(white + ([CLOSE_OBJECT] + post));
      case Array(es) =>
        ArrayComplete(es, post);
        Dispatch(ElementsText(es, [CLOSE_ARRAY] + post));
      case Object(ms) =>
        ObjectComplete(ms, post);
        Dispatch(MembersText(ms, [CLOSE_OBJECT] + post));
    }
  }

  lemma {:induction false} ArrayComplete(es: Elements, post: Text)
    requires WellFormedElements(es)
    ensures ParseArray(ElementsText(es, [CLOSE_ARRAY] + post)) == if Readable(Array(es))
            then Some((Read(Array(es)), post)) else None
    decreases es, 4
  {
    var t := [CLOSE_ARRAY] + post;
    if LoneMissing(es) {
      LoneText(es.last, t);
      WhiteJoin(es.last.before, es.last.after);
      EmptyComplete(es.last.before + es.last.after, post);
    } else {
      ElementsComplete(es, t);
      FirstElementStarts(es, t);
      assert t[1..] == post;
    }
  }

  lemma LoneText(e: Element, t: Text)
    requires e.value.Missing?
    ensures ElementText(e, t) == (e.before + e.after) + t
  {
  }

  lemma {:induction false} ObjectComplete(ms: Members, post: Text)
    requires WellFormedMembers(ms)
    ensures ParseObject(MembersText(ms, [CLOSE_OBJECT] + post)) == if ReadableMembers(ms)
            then Some((Object(ReadMembers(ms)), post)) else None
    decreases ms, 4
  {
    var t := [CLOSE_OBJECT] + post;
    MembersComplete(ms, t);
    FirstMemberStarts(ms, t);
    assert t[1..] == post;
  }

  lemma {:induction false} WhiteJoin(a: Text, b: Text)
    requires AllWhite(a) && AllWhite(b)
    ensures AllWhite(a + b)
  {
    if a == [] {
      assert a + b == b;
    } else {
      WhiteJoin(a[1..], b);
      assert (a + b)[1..] == a[1..] + b;
    }
  }

  lemma FirstElementStarts(es: Elements, t: Text)
    requires WellFormedElements(es) && !LoneMissing(es)
    ensures var s := ElementsText(es, t);
            var w := WhiteRun(s);
            w < |s| && s[w] != CLOSE_ARRAY
  {
    match es {
      case LastElement(e) => ElementStarts(e, t);
      case MoreElements(e, rest) => ElementStarts(e, [COMMA] + ElementsText(rest, t));
    }
  }

  lemma ElementStarts(e: Element, u: Text)
    requires WellFormedElement(e) && (e.value.Missing? ==> u != [] && u[0] == COMMA)
    ensures var s := ElementText(e, u);
            var w := WhiteRun(s);
            w < |s| && s[w] != CLOSE_ARRAY
  {
    if e.value.Missing? {
      LoneText(e, u);
      WhiteJoin(e.before, e.after);
      WhiteThen(e.before + e.after, u);
    } else {
      ValueStart(e.value, e.after + u);
      WhiteThen(e.before, ValueText(e.value, e.after + u));
    }
  }

  lemma FirstMemberStarts(ms: Members, t: Text)
    requires WellFormedMembers(ms)
    ensures var s := MembersText(ms, t);
            var w := WhiteRun(s);
            w < |s| && s[w] != CLOSE_OBJECT
  {
    match ms {
      case LastMember(m) => NameStarts(m.before, m.name, m.after, ElementText(m.element, t));
      case MoreMembers(m, rest) => NameStarts(m.before, m.name, m.after,
          ElementText(m.element, [COMMA] + MembersText(rest, t)));
    }
  }

  lemma NameStarts(before: Text, name: Text, after: Text, t: Text)
    requires AllWhite(before)
    ensures var s := NameText(before, name, after, t);
            var w := WhiteRun(s);
            w == |before| < |s| && s[w] == QUOTE && s[..w] == before &&
                s[w + 1..] == name + ([QUOTE] + (after + ([COLON] + t)))
  {
    var u := name + ([QUOTE] + (after + ([COLON] + t)));
    WhiteThen(before, [QUOTE] + u);
    assert (before + ([QUOTE] + u))[|before| + 1..] == u;
  }

  lemma {:induction false} ElementComplete(e: Element, post: Text)
    requires WellFormedElement(e) && Follows(post)
    ensures ParseElement(ElementText(e, post)) == if Readable(e.value) then Some((ReadElement(e), post)) else None
    decreases e, 1
  {
    if e.value.Missing? {
      MissingUnread(e, post);
    } else {
      var t := e.after + post;
      AfterValue(e.after, post);
      ValueComplete(e.value, t);
      ValueStart(e.value, t);
      ElementReads(e, ValueText(e.value, t), post);
    }
  }

  lemma MissingUnread(e: Element, post: Text)
    requires WellFormedElement(e) && e.value.Missing? && Follows(post)
    ensures ParseElement(ElementText(e, post)) == None
  {
    var white := e.before + e.after;
    assert ElementText(e, post) == white + post by { LoneText(e, post); }
    assert AllWhite(white) by { WhiteJoin(e.before, e.after); }
    assert ParseElement(white + post) == None by {
      NothingReads(post);
      AfterWhite(white, post);
    }
  }

  lemma NothingReads(post: Text)
    requires Follows(post)
    ensures ParseValue(post) == None
  {
    if post != [] { assert ParseWord(post) == None; }
  }

  lemma ElementReads(e: Element, u: Text, post: Text)
    requires AllWhite(e.before) && AllWhite(e.after) && Follows(post) && u != [] && !IsWhite(u[0])
    requires ParseValue(u) == if Readable(e.value) then Some((Read(e.value), e.after + post)) else None
    ensures ParseElement(e.before + u) == if Readable(e.value) then Some((ReadElement(e), post)) else None
  {
    AfterWhite(e.before, u);
    SurroundComplete(e, post);
  }

  lemma SurroundComplete(e: Element, post: Text)
    requires AllWhite(e.after) && Follows(post)
    ensures Surround(e.before, Some((Read(e.value), e.after + post))) == Some((ReadElement(e), post))
  {
    WhiteThen(e.after, post);
  }

  lemma AfterWhite(before: Text, u: Text)
    requires AllWhite(before) && (u == [] || !IsWhite(u[0]))
    ensures ParseElement(before + u) == Surround(before, ParseValue(u))
  {
    WhiteThen(before, u);
  }

  lemma AfterValue(after: Text, post: Text)
    requires AllWhite(after) && Follows(post)
    ensures Delimited(after + post)
  {
  }

  lemma {:induction false} ElementsComplete(es: Elements, post: Text)
    requires WellFormedElements(es) && post != [] && post[0] == CLOSE_ARRAY
    ensures ParseElements(ElementsText(es, post)) == if ReadableElements(es) then Some((ReadElements(es), post))
            else None
    decreases es, 2
  {
    match es {
      case LastElement(e) =>
        ElementComplete(e, post);
      case MoreElements(e, rest) =>
        var u := ElementsText(rest, post);
        ElementComplete(e, [COMMA] + u);
        ElementsComplete(rest, post);
        assert ([COMMA] + u)[1..] == u;
    }
  }

  lemma NameComplete(before: Text, name: Text, after: Text, t: Text)
    requires AllWhite(before) && IsBody(name) && AllWhite(after)
    ensures ParseName(NameText(before, name, after, t)) == Some((before, name, after, t))
  {
    NameStarts(before, name, after, t);
    ParseBodyThen(name, after + ([COLON] + t));
    ColonComplete(before, name, after, t);
  }

  lemma ColonComplete(before: Text, name: Text, after: Text, t: Text)
    requires AllWhite(after)
    ensures ParseColon(before, Some((name, after + ([COLON] + t)))) == Some((before, name, after, t))
  {
    WhiteThen(after, [COLON] + t);
    assert (after + ([COLON] + t))[|after| + 1..] == t;
  }

  lemma {:induction false} MemberComplete(m: Member, post: Text)
    requires WellFormedMember(m) && Follows(post)
    ensures ParseMember(MemberText(m, post)) == if Readable(m.element.value) then Some((ReadMember(m), post)) else None
    decreases m, 2
  {
    NameComplete(m.before, m.name, m.after, ElementText(m.element, post));
    ElementComplete(m.element, post);
  }

  lemma {:induction false} MembersComplete(ms: Members, post: Text)
    requires WellFormedMembers(ms) && post != [] && post[0] == CLOSE_OBJECT
    ensures ParseMembers(MembersText(ms, post)) == if ReadableMembers(ms) then Some((ReadMembers(ms), post)) else None
    decreases ms, 3
  {
    match ms {
      case LastMember(m) =>
        MemberComplete(m, post);
      case MoreMembers(m, rest) =>
        var u := MembersText(rest, post);
        MemberComplete(m, [COMMA] + u);
        MembersComplete(rest, post);
        assert ([COMMA] + u)[1..] == u;
    }
  }

  // ---- The parser decides the grammar ----

  lemma {:induction false} StrictReads(v: Value)
    requires Strict(v)
    ensures Readable(v) && Read(v) == v
  {
    match v {
      case Array(es) => StrictElementsRead(es);
      case Object(ms) => StrictMembersRead(ms);
      case _ =>
    }
  }

  lemma {:induction false} StrictElementsRead(es: Elements)
    requires StrictElements(es)
    ensures ReadableElements(es) && ReadElements(es) == es
  {
    match es {
      case LastElement(e) => StrictReads(e.value);
      case MoreElements(e, rest) => StrictReads(e.value); StrictElementsRead(rest);
    }
  }

  lemma {:induction false} StrictMembersRead(ms: Members)
    requires StrictMembers(ms)
    ensures ReadableMembers(ms) && ReadMembers(ms) == ms
  {
    match ms {
      case LastMember(m) =>
        StrictReads(m.element.value);
        assert ReadMember(m) == m;
      case MoreMembers(m, rest) =>
        StrictReads(m.element.value);
        StrictMembersRead(rest);
        assert ReadMember(m) == m;
    }
  }

  /** A text is JSON exactly when it parses, and its derivation is the tree the parser returns and no other. */
  lemma ParserDecidesGrammar(s: Text, doc: Element)
    ensures ParseDocument(s) == Some(doc) <==> IsDocument(doc) && DocumentText(doc) == s
  {
    if ParseDocument(s) == Some(doc) {
      ElementSound(s);
    }
    if IsDocument(doc) && DocumentText(doc) == s {
      DocumentReads(doc);
      StrictReads(doc.value);
    }
  }

  /** Parsing the text of a tree that may have absent elements: the text is JSON exactly when the tree is readable. */
  lemma DocumentReads(doc: Element)
    requires WellFormedElement(doc)
    ensures ParseDocument(DocumentText(doc)) == if Readable(doc.value) then Some(ReadElement(doc)) else None
  {
    ElementComplete(doc, []);
  }
}
