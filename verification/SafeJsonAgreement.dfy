/**
 The guard agrees with the grammar. On the text of any tree the pass of `SafeJson` gives the verdict
 read off the tree in document order (`ValueFault`), with the same code and offset; so on valid JSON it
 accepts exactly the `Safe` documents. On text that is valid only up to some point it decides the same
 way about everything before that point (`Locality`). On what it accepts, all parsers that read
 escape-free names and integer literals correctly agree, whatever they do with the rest (`JsonData.ReadersAgree`).
 */
module SafeJsonAgreement {
  import opened Wrappers
  import opened JsonGrammar
  import opened JsonParser
  import opened SafeJson

  // ---- The verdict, read off the tree ----

  function Then(first: Verdict, rest: Verdict): Verdict {
    if first.Refuse? then first else rest
  }

  /** The position of the first reverse solidus, or the length. */
  function FirstEscape(s: Text): (n: nat)
    ensures n <= |s|
    ensures n < |s| <==> REVERSE_SOLIDUS in s
  {
    if s == [] || s[0] == REVERSE_SOLIDUS then 0 else 1 + FirstEscape(s[1..])
  }

  /** The position of the first fraction or exponent mark, or the length. */
  function FirstMark(s: Text): (n: nat)
    ensures n <= |s|
    ensures n < |s| <==> !IsIntegerLexeme(s)
  {
    if s == [] || IsFractionMark(s[0]) then 0 else 1 + FirstMark(s[1..])
  }

  function ValueWidth(v: Value): nat {
    match v
    case Missing => 0
    case Word(w) => |w|
    case Number(lexeme) => |lexeme|
    case String(body) => |body| + 2
    case EmptyArray(white) => |white| + 2
    case Array(es) => ElementsWidth(es) + 2
    case EmptyObject(white) => |white| + 2
    case Object(ms) => MembersWidth(ms) + 2
  }

  function ElementWidth(e: Element): nat {
    |e.before| + ValueWidth(e.value) + |e.after|
  }

  function ElementsWidth(es: Elements): nat {
    match es
    case LastElement(e) => ElementWidth(e)
    case MoreElements(e, rest) => ElementWidth(e) + 1 + ElementsWidth(rest)
  }

  function NameWidth(m: Member): nat {
    |m.before| + |m.name| + |m.after| + 3
  }

  function MembersWidth(ms: Members): nat {
    match ms
    case LastMember(m) => NameWidth(m) + ElementWidth(m.element)
    case MoreMembers(m, rest) => NameWidth(m) + ElementWidth(m.element) + 1 + MembersWidth(rest)
  }

  /**
   The first fault of the tree in document order, as the guard should report it, when the tree's text starts at
   `at`.
   */
  function ValueFault(v: Value, integers: bool, at: nat): Verdict {
    match v
    case Number(lexeme) =>
      if integers && !IsIntegerLexeme(lexeme) then Refuse(NonIntegerNumber, at, at + FirstMark(lexeme) + 1) else Accept
    case Array(es) => ElementsFault(es, integers, at + 1)
    case Object(ms) => MembersFault(ms, {}, integers, at + 1)
    case _ => Accept
  }

  function ElementFault(e: Element, integers: bool, at: nat): Verdict {
    ValueFault(e.value, integers, at + |e.before|)
  }

  function ElementsFault(es: Elements, integers: bool, at: nat): Verdict {
    match es
    case LastElement(e) => ElementFault(e, integers, at)
    case MoreElements(e, rest) => Then(ElementFault(e, integers, at),
        ElementsFault(rest, integers, at + ElementWidth(e) + 1))
  }

  /** `seen` is the names of the members before this one. */
  function NameFault(m: Member, seen: set<Text>, at: nat): Verdict {
    var open := at + |m.before|;
    if REVERSE_SOLIDUS in m.name then Refuse(UnsafeMemberName, open + 1 + FirstEscape(m.name),
        open + FirstEscape(m.name) + 2)
    else if m.name in seen then Refuse(DuplicateMemberName, open, open + |m.name| + 2)
    else Accept
  }

  function MembersFault(ms: Members, seen: set<Text>, integers: bool, at: nat): Verdict {
    match ms
    case LastMember(m) => Then(NameFault(m, seen, at), ElementFault(m.element, integers, at + NameWidth(m)))
    case MoreMembers(m, rest) =>
      Then(Then(NameFault(m, seen, at), ElementFault(m.element, integers, at + NameWidth(m))),
           MembersFault(rest, seen + {m.name}, integers, at + NameWidth(m) + ElementWidth(m.element) + 1))
  }

  function NamesOf(ms: Members): set<Text> {
    match ms
    case LastMember(m) => {m.name}
    case MoreMembers(m, rest) => {m.name} + NamesOf(rest)
  }

  // ---- The pass over the text of a tree ----

  /** Units the pass only steps over. */
  predicate Inert(integers: bool, s: Text) {
    s == [] ||
    (&& s[0] != QUOTE && s[0] != OPEN_OBJECT && s[0] != OPEN_ARRAY && s[0] != CLOSE_OBJECT && s[0] != CLOSE_ARRAY
     && s[0] != COMMA && s[0] != COLON && !StartsNumber(integers, s[0]) && Inert(integers, s[1..]))
  }

  lemma {:induction false} ScanInert(s: Text, tail: Text, frames: seq<Frame>, expectName: bool, integers: bool, at: nat)
    requires Inert(integers, s)
    ensures Scan(s + tail, frames, expectName, integers, at) == Scan(tail, frames, expectName, integers, at + |s|)
  {
    if s == [] {
      assert s + tail == tail;
    } else {
      assert (s + tail)[1..] == s[1..] + tail;
      ScanInert(s[1..], tail, frames, expectName, integers, at + 1);
    }
  }

  lemma {:induction false} WhiteInert(integers: bool, s: Text)
    requires AllWhite(s)
    ensures Inert(integers, s)
  {
    if s != [] { WhiteInert(integers, s[1..]); }
  }

  lemma {:induction false} NumberInert(s: Text)
    requires AllNumberUnits(s)
    ensures Inert(false, s)
  {
    if s != [] { NumberInert(s[1..]); }
  }

  lemma WordInert(integers: bool)
    ensures Inert(integers, NULL) && Inert(integers, TRUE) && Inert(integers, FALSE)
  {
    assert NULL[1..] == [0x75, 0x6c, 0x6c] && NULL[1..][1..] == [0x6c, 0x6c] && NULL[1..][1..][1..] == [0x6c];
    assert TRUE[1..] == [0x72, 0x75, 0x65] && TRUE[1..][1..] == [0x75, 0x65] && TRUE[1..][1..][1..] == [0x65];
    assert FALSE[1..] == [0x61, 0x6c, 0x73, 0x65] && FALSE[1..][1..] == [0x6c, 0x73, 0x65];
    assert FALSE[1..][1..][1..] == [0x73, 0x65] && FALSE[1..][1..][1..][1..] == [0x65];
    assert Inert(integers, [0x6c]) && Inert(integers, [0x65]);
    assert Inert(integers, [0x6c, 0x6c]) && Inert(integers, [0x75, 0x65]) && Inert(integers, [0x73, 0x65]);
  }

  lemma {:induction false} CloseOfString(body: Text, t: Text)
    requires IsBody(body)
    ensures FindClose(body + ([QUOTE] + t), false) == Closed(|body|)
    decreases |body|
  {
    var s := body + ([QUOTE] + t);
    if body == [] {
      assert s == [QUOTE] + t;
    } else if body[0] != REVERSE_SOLIDUS {
      assert s[1..] == body[1..] + ([QUOTE] + t);
      CloseOfString(body[1..], t);
    } else {
      assert Drop(s, 2) == body[2..] + ([QUOTE] + t);
      if IsShortEscape(body[1]) {
        CloseOfString(body[2..], t);
      } else {
        HexThenClose(body[2..], t);
      }
    }
  }

  lemma {:induction false} HexThenClose(rest: Text, t: Text)
    requires |rest| >= 4 && IsHexDigit(rest[0]) && IsHexDigit(rest[1]) && IsHexDigit(rest[2]) &&
             IsHexDigit(rest[3]) && IsBody(rest[4..])
    ensures FindClose(rest + ([QUOTE] + t), false) == Closed(|rest|)
    decreases |rest|
  {
    CloseOfString(rest[4..], t);
    StepClose(rest[3..], [QUOTE] + t);
    StepClose(rest[2..], [QUOTE] + t);
    StepClose(rest[1..], [QUOTE] + t);
    StepClose(rest, [QUOTE] + t);
  }

  lemma StepClose(s: Text, t: Text)
    requires s != [] && IsHexDigit(s[0])
    requires FindClose(s[1..] + t, false) == Closed(|s| - 1)
    ensures FindClose(s + t, false) == Closed(|s|)
  {
    assert (s + t)[1..] == s[1..] + t;
  }

  lemma {:induction false} CloseOfName(body: Text, t: Text)
    requires IsBody(body)
    ensures FindClose(body + ([QUOTE] + t), true) ==
            if REVERSE_SOLIDUS in body then Escaped(FirstEscape(body)) else Closed(|body|)
  {
    var s := body + ([QUOTE] + t);
    if body == [] {
      assert s == [QUOTE] + t;
    } else if body[0] != REVERSE_SOLIDUS {
      assert s[1..] == body[1..] + ([QUOTE] + t);
      CloseOfName(body[1..], t);
    }
  }

  lemma {:induction false} StopOfNumber(s: Text, tail: Text)
    requires AllNumberUnits(s) && Delimited(tail)
    ensures NumberStop(s + tail) == if IsIntegerLexeme(s) then Ended(|s|) else Fraction(FirstMark(s))
  {
    if s == [] {
      assert s + tail == tail;
    } else {
      assert (s + tail)[1..] == s[1..] + tail;
      StopOfNumber(s[1..], tail);
    }
  }

  lemma ScanOneUnit(c: Unit, tail: Text, frames: seq<Frame>, expectName: bool, integers: bool, at: nat)
    requires c != QUOTE && !StartsNumber(integers, c)
    ensures Scan([c] + tail, frames, expectName, integers, at) ==
            Scan(tail, NextFrames(frames, c), NextExpect(frames, expectName, c), integers, at + 1)
  {
    assert ([c] + tail)[1..] == tail;
  }

  lemma ScanStringValue(body: Text, tail: Text, frames: seq<Frame>, integers: bool, at: nat)
    requires IsBody(body)
    ensures Scan([QUOTE] + (body + ([QUOTE] + tail)), frames, false, integers, at) ==
            Scan(tail, frames, false, integers, at + |body| + 2)
  {
    var u := body + ([QUOTE] + tail);
    var s := [QUOTE] + u;
    CloseOfString(body, tail);
    assert s[1..] == u;
    assert Drop(s, |body| + 2) == tail;
    ScanStringGoes(s, frames, false, integers, at, |body|);
  }

  lemma ScanNumberValue(lexeme: Text, tail: Text, frames: seq<Frame>, integers: bool, at: nat)
    requires IsNumber(lexeme) && Delimited(tail)
    ensures Scan(lexeme + tail, frames, false, integers, at) ==
            Then(ValueFault(Number(lexeme), integers, at), Scan(tail, frames, false, integers, at + |lexeme|))
  {
    NumberUnits(lexeme);
    if !integers {
      NumberInert(lexeme);
      ScanInert(lexeme, tail, frames, false, integers, at);
    } else {
      var s := lexeme + tail;
      assert s[1..] == lexeme[1..] + tail;
      StopOfNumber(lexeme[1..], tail);
      assert Scan(s, frames, false, true, at) == ScanNumber(s, frames, false, at);
      if IsIntegerLexeme(lexeme) {
        assert s[1 + (|lexeme| - 1)..] == tail;
      }
    }
  }

  lemma {:induction false} ScanValue(v: Value, tail: Text, frames: seq<Frame>, integers: bool, at: nat)
    requires WellFormed(v) && Delimited(tail)
    ensures Scan(ValueText(v, tail), frames, false, integers, at) ==
            Then(ValueFault(v, integers, at), Scan(tail, frames, false, integers, at + ValueWidth(v)))
    decreases v, 0
  {
    hide Scan;
    match v {
      case Missing =>
      case Word(w) => ScanWord(w, tail, frames, integers, at);
      case Number(lexeme) => ScanNumberValue(lexeme, tail, frames, integers, at);
      case String(body) => ScanStringValue(body, tail, frames, integers, at);
      case EmptyArray(white) => ScanEmpty(OPEN_ARRAY, white, CLOSE_ARRAY, tail, frames, integers, at);
      case EmptyObject(white) => ScanEmpty(OPEN_OBJECT, white, CLOSE_OBJECT, tail, frames, integers, at);
      case Array(es) => ScanArray(es, tail, frames, integers, at);
      case Object(ms) => ScanObject(ms, tail, frames, integers, at);
    }
  }

  lemma ScanWord(w: Text, tail: Text, frames: seq<Frame>, integers: bool, at: nat)
    requires w == NULL || w == TRUE || w == FALSE
    ensures Scan(w + tail, frames, false, integers, at) == Scan(tail, frames, false, integers, at + |w|)
  {
    WordInert(integers);
    ScanInert(w, tail, frames, false, integers, at);
  }

  lemma ScanEmpty(open: Unit, white: Text, close: Unit, tail: Text, frames: seq<Frame>, integers: bool, at: nat)
    requires AllWhite(white)
    requires (open == OPEN_ARRAY && close == CLOSE_ARRAY) || (open == OPEN_OBJECT && close == CLOSE_OBJECT)
    ensures Scan([open] + (white + ([close] + tail)), frames, false, integers, at) ==
            Scan(tail, frames, false, integers, at + |white| + 2)
  {
    var inner := NextFrames(frames, open);
    var expectName := NextExpect(frames, false, open);
    ScanOneUnit(open, white + ([close] + tail), frames, false, integers, at);
    WhiteInert(integers, white);
    ScanInert(white, [close] + tail, inner, expectName, integers, at + 1);
    ScanOneUnit(close, tail, inner, expectName, integers, at + 1 + |white|);
    assert Pop(inner) == frames;
  }

  lemma {:induction false} ScanArray(es: Elements, tail: Text, frames: seq<Frame>, integers: bool, at: nat)
    requires WellFormedElements(es)
    ensures Scan([OPEN_ARRAY] + ElementsText(es, [CLOSE_ARRAY] + tail), frames, false, integers, at) ==
            Then(ElementsFault(es, integers, at + 1), Scan(tail, frames, false, integers, at + ElementsWidth(es) + 2))
    decreases es, 3
  {
    hide Scan;
    var inner := frames + [ArrayFrame];
    ScanOneUnit(OPEN_ARRAY, ElementsText(es, [CLOSE_ARRAY] + tail), frames, false, integers, at);
    ScanElements(es, [CLOSE_ARRAY] + tail, inner, integers, at + 1);
    ScanOneUnit(CLOSE_ARRAY, tail, inner, false, integers, at + 1 + ElementsWidth(es));
    assert Pop(inner) == frames;
  }

  lemma {:induction false} ScanObject(ms: Members, tail: Text, frames: seq<Frame>, integers: bool, at: nat)
    requires WellFormedMembers(ms)
    ensures Scan([OPEN_OBJECT] + MembersText(ms, [CLOSE_OBJECT] + tail), frames, false, integers, at) ==
            Then(MembersFault(ms, {}, integers, at + 1), Scan(tail, frames, false, integers, at + MembersWidth(ms) + 2))
    decreases ms, 3
  {
    hide Scan;
    var inner := frames + [ObjectFrame(NamesOf(ms))];
    ScanOneUnit(OPEN_OBJECT, MembersText(ms, [CLOSE_OBJECT] + tail), frames, false, integers, at);
    ScanMembers(ms, [CLOSE_OBJECT] + tail, frames, {}, integers, at + 1);
    assert {} + NamesOf(ms) == NamesOf(ms);
    ScanOneUnit(CLOSE_OBJECT, tail, inner, false, integers, at + 1 + MembersWidth(ms));
    assert Pop(inner) == frames;
  }

  lemma {:induction false} ScanElement(e: Element, tail: Text, frames: seq<Frame>, integers: bool, at: nat)
    requires WellFormedElement(e) && Delimited(tail)
    ensures Scan(ElementText(e, tail), frames, false, integers, at) ==
            Then(ElementFault(e, integers, at), Scan(tail, frames, false, integers, at + ElementWidth(e)))
    decreases e, 1
  {
    hide Scan;
    WhiteInert(integers, e.before);
    WhiteInert(integers, e.after);
    ScanInert(e.before, ValueText(e.value, e.after + tail), frames, false, integers, at);
    DelimitedAfter(e.after, tail);
    ScanValue(e.value, e.after + tail, frames, integers, at + |e.before|);
    ScanInert(e.after, tail, frames, false, integers, at + |e.before| + ValueWidth(e.value));
  }

  lemma DelimitedAfter(after: Text, tail: Text)
    requires AllWhite(after) && Delimited(tail)
    ensures Delimited(after + tail)
  {
  }

  lemma {:induction false} ScanElements(es: Elements, tail: Text, frames: seq<Frame>, integers: bool, at: nat)
    requires WellFormedElements(es) && Delimited(tail) && !InObject(frames)
    ensures Scan(ElementsText(es, tail), frames, false, integers, at) ==
            Then(ElementsFault(es, integers, at), Scan(tail, frames, false, integers, at + ElementsWidth(es)))
    decreases es, 2
  {
    hide Scan;
    match es {
      case LastElement(e) => ScanElement(e, tail, frames, integers, at);
      case MoreElements(e, rest) =>
        var u := ElementsText(rest, tail);
        ScanElement(e, [COMMA] + u, frames, integers, at);
        ScanOneUnit(COMMA, u, frames, false, integers, at + ElementWidth(e));
        ScanElements(rest, tail, frames, integers, at + ElementWidth(e) + 1);
    }
  }

  /** The name of a member, from before it to after its colon. */
  lemma ScanName(m: Member, t: Text, outer: seq<Frame>, seen: set<Text>, integers: bool, at: nat)
    requires AllWhite(m.before) && IsBody(m.name) && AllWhite(m.after)
    ensures Scan(NameText(m.before, m.name, m.after, t), outer + [ObjectFrame(seen)], true, integers, at) ==
            Then(NameFault(m, seen, at), Scan(t, outer + [ObjectFrame(seen + {m.name})], false, integers,
            at + NameWidth(m)))
  {
    hide Scan;
    var frames := outer + [ObjectFrame(seen)];
    var learnt := outer + [ObjectFrame(seen + {m.name})];
    var u := m.after + ([COLON] + t);
    var s := [QUOTE] + (m.name + ([QUOTE] + u));
    WhiteInert(integers, m.before);
    ScanInert(m.before, s, frames, true, integers, at);
    NameInFrames(m.name, u, outer, seen, integers, at + |m.before|);
    if REVERSE_SOLIDUS !in m.name && m.name !in seen {
      var after := at + |m.before| + |m.name| + 2;
      WhiteInert(integers, m.after);
      ScanInert(m.after, [COLON] + t, learnt, false, integers, after);
      ScanOneUnit(COLON, t, learnt, false, integers, after + |m.after|);
    }
  }

  lemma NameInFrames(name: Text, u: Text, outer: seq<Frame>, seen: set<Text>, integers: bool, at: nat)
    requires IsBody(name)
    ensures Scan([QUOTE] + (name + ([QUOTE] + u)), outer + [ObjectFrame(seen)], true, integers, at) ==
            if REVERSE_SOLIDUS in name then Refuse(UnsafeMemberName, at + 1 + FirstEscape(name),
            at + FirstEscape(name) + 2)
            else if name in seen then Refuse(DuplicateMemberName, at, at + |name| + 2)
            else Scan(u, outer + [ObjectFrame(seen + {name})], false, integers, at + |name| + 2)
  {
    var frames := outer + [ObjectFrame(seen)];
    var s := [QUOTE] + (name + ([QUOTE] + u));
    CloseOfName(name, u);
    assert s[1..] == name + ([QUOTE] + u);
    ScanStringStops(s, frames, true, integers, at);
    if REVERSE_SOLIDUS !in name {
      assert s[1..1 + |name|] == name;
      if name !in seen {
        ScanStringGoes(s, frames, true, integers, at, |name|);
        assert Drop(s, |name| + 2) == u;
        assert Learn(frames, name) == outer + [ObjectFrame(seen + {name})];
      }
    }
  }

  lemma {:induction false} ScanMember(m: Member, tail: Text, outer: seq<Frame>, seen: set<Text>, integers: bool,
                                      at: nat)
    requires WellFormedMember(m) && Delimited(tail)
    ensures Scan(MemberText(m, tail), outer + [ObjectFrame(seen)], true, integers, at) ==
            Then(Then(NameFault(m, seen, at), ElementFault(m.element, integers, at + NameWidth(m))),
                 Scan(tail, outer + [ObjectFrame(seen + {m.name})], false, integers,
                 at + NameWidth(m) + ElementWidth(m.element)))
    decreases m, 2
  {
    hide Scan;
    ScanName(m, ElementText(m.element, tail), outer, seen, integers, at);
    ScanElement(m.element, tail, outer + [ObjectFrame(seen + {m.name})], integers, at + NameWidth(m));
  }

  lemma {:induction false} ScanMembers(ms: Members, tail: Text, outer: seq<Frame>, seen: set<Text>, integers: bool,
                                       at: nat)
    requires WellFormedMembers(ms) && Delimited(tail)
    ensures Scan(MembersText(ms, tail), outer + [ObjectFrame(seen)], true, integers, at) ==
            Then(MembersFault(ms, seen, integers, at),
                 Scan(tail, outer + [ObjectFrame(seen + NamesOf(ms))], false, integers, at + MembersWidth(ms)))
    decreases ms, 2
  {
    hide Scan;
    match ms {
      case LastMember(m) => ScanMember(m, tail, outer, seen, integers, at);
      case MoreMembers(m, rest) =>
        var known := seen + {m.name};
        var after := at + NameWidth(m) + ElementWidth(m.element);
        ScanMember(m, [COMMA] + MembersText(rest, tail), outer, seen, integers, at);
        ScanMemberComma(MembersText(rest, tail), outer, known, integers, after);
        ScanMembers(rest, tail, outer, known, integers, after + 1);
        assert known + NamesOf(rest) == seen + NamesOf(ms);
    }
  }

  lemma ScanMemberComma(u: Text, outer: seq<Frame>, seen: set<Text>, integers: bool, at: nat)
    ensures Scan([COMMA] + u, outer + [ObjectFrame(seen)], false, integers, at) ==
            Scan(u, outer + [ObjectFrame(seen)], true, integers, at + 1)
  {
    ScanOneUnit(COMMA, u, outer + [ObjectFrame(seen)], false, integers, at);
  }

  /** On the text of any tree, absent elements allowed, the guard's verdict is the one read off the tree. */
  lemma ScanReadsTree(doc: Element, integers: bool)
    requires WellFormedElement(doc)
    ensures ScanText(DocumentText(doc), integers) == ElementFault(doc, integers, 0)
  {
    ScanElement(doc, [], [], integers, 0);
  }

  // ---- What the guard accepts ----

  function NameList(ms: Members): seq<Text> {
    match ms
    case LastMember(m) => [m.name]
    case MoreMembers(m, rest) => [m.name] + NameList(rest)
  }

  predicate Distinct(names: seq<Text>) {
    forall i, j :: 0 <= i < j < |names| ==> names[i] != names[j]
  }

  /**
   No name is written with an escape, no object repeats a name and, on request, every number is written as an
   integer.
   */
  predicate Safe(v: Value, integers: bool) {
    match v
    case Number(lexeme) => integers ==> IsIntegerLexeme(lexeme)
    case Array(es) => SafeElements(es, integers)
    case Object(ms) => Distinct(NameList(ms)) && SafeMembers(ms, integers)
    case _ => true
  }

  predicate SafeElements(es: Elements, integers: bool) {
    match es
    case LastElement(e) => Safe(e.value, integers)
    case MoreElements(e, rest) => Safe(e.value, integers) && SafeElements(rest, integers)
  }

  predicate SafeMembers(ms: Members, integers: bool) {
    match ms
    case LastMember(m) => REVERSE_SOLIDUS !in m.name && Safe(m.element.value, integers)
    case MoreMembers(m, rest) =>
      REVERSE_SOLIDUS !in m.name && Safe(m.element.value, integers) && SafeMembers(rest, integers)
  }

  predicate NoneSeen(names: seq<Text>, seen: set<Text>) {
    forall k :: 0 <= k < |names| ==> names[k] !in seen
  }

  lemma {:induction false} FaultFree(v: Value, integers: bool, at: nat)
    ensures ValueFault(v, integers, at).Accept? <==> Safe(v, integers)
    decreases v, 0
  {
    match v {
      case Array(es) => FaultFreeElements(es, integers, at + 1);
      case Object(ms) => FaultFreeMembers(ms, {}, integers, at + 1);
      case _ =>
    }
  }

  lemma {:induction false} FaultFreeElements(es: Elements, integers: bool, at: nat)
    ensures ElementsFault(es, integers, at).Accept? <==> SafeElements(es, integers)
    decreases es, 1
  {
    match es {
      case LastElement(e) => FaultFree(e.value, integers, at + |e.before|);
      case MoreElements(e, rest) =>
        FaultFree(e.value, integers, at + |e.before|);
        FaultFreeElements(rest, integers, at + ElementWidth(e) + 1);
    }
  }

  lemma {:induction false} FaultFreeMembers(ms: Members, seen: set<Text>, integers: bool, at: nat)
    ensures MembersFault(ms, seen, integers, at).Accept? <==>
            SafeMembers(ms, integers) && Distinct(NameList(ms)) && NoneSeen(NameList(ms), seen)
    decreases ms, 1
  {
    match ms {
      case LastMember(m) =>
        FaultFree(m.element.value, integers, at + NameWidth(m) + |m.element.before|);
        ConsDistinct(m.name, [], seen);
        assert [m.name] + [] == [m.name];
      case MoreMembers(m, rest) =>
        FaultFree(m.element.value, integers, at + NameWidth(m) + |m.element.before|);
        FaultFreeMembers(rest, seen + {m.name}, integers, at + NameWidth(m) + ElementWidth(m.element) + 1);
        ConsDistinct(m.name, NameList(rest), seen);
    }
  }

  lemma ConsDistinct(name: Text, rest: seq<Text>, seen: set<Text>)
    ensures Distinct([name] + rest) && NoneSeen([name] + rest, seen) <==>
            name !in seen && Distinct(rest) && NoneSeen(rest, seen + {name})
  {
    var names := [name] + rest;
    if Distinct(names) && NoneSeen(names, seen) {
      assert names[0] == name;
      forall k | 0 <= k < |rest| ensures rest[k] !in seen + {name} { assert names[k + 1] == rest[k]; }
      forall i, j | 0 <= i < j < |rest| ensures rest[i] != rest[j] { assert names[i + 1] != names[j + 1]; }
    }
  }

  /**
   For every text that is JSON, the guard accepts exactly the safe documents, and otherwise reports the
   first fault in document order with its code and offset.
   */
  lemma GuardMatchesParser(text: Text, doc: Element, integers: bool)
    requires ParseDocument(text) == Some(doc)
    ensures ScanText(text, integers) == ElementFault(doc, integers, 0)
    ensures ScanText(text, integers).Accept? <==> Safe(doc.value, integers)
  {
    ParserDecidesGrammar(text, doc);
    ScanReadsTree(doc, integers);
    FaultFree(doc.value, integers, |doc.before|);
  }

  // ---- Text that is valid only up to a point ----

  lemma {:induction false} CloseLocal(p: Text, q: Text, r: Text, isName: bool)
    requires FindClose(p + q, isName).at < |p|
    ensures FindClose(p + r, isName) == FindClose(p + q, isName)
    decreases |p|
  {
    if p[0] == REVERSE_SOLIDUS {
      if !isName {
        if |p| > 1 {
          assert Drop(p + q, 2) == p[2..] + q && Drop(p + r, 2) == p[2..] + r;
          CloseLocal(p[2..], q, r, isName);
        }
      }
    } else if p[0] != QUOTE {
      assert (p + q)[1..] == p[1..] + q && (p + r)[1..] == p[1..] + r;
      CloseLocal(p[1..], q, r, isName);
    }
  }

  lemma {:induction false} StopLocal(p: Text, q: Text, r: Text)
    requires NumberStop(p + q).at < |p|
    ensures NumberStop(p + r) == NumberStop(p + q)
  {
    assert (p + q)[1..] == p[1..] + q && (p + r)[1..] == p[1..] + r;
    if p[0] == PLUS || p[0] == MINUS || IsDigit(p[0]) {
      StopLocal(p[1..], q, r);
    }
  }

  /** A refusal looks past where the pass stands. */
  lemma {:induction false} HorizonAhead(s: Text, frames: seq<Frame>, expectName: bool, integers: bool, at: nat)
    ensures var v := Scan(s, frames, expectName, integers, at); v.Refuse? ==> at <= v.offset < v.horizon
    decreases |s|
  {
    if s == [] {
    } else if s[0] == QUOTE {
      var n := FindClose(s[1..], expectName).at;
      assert Scan(s, frames, expectName, integers, at) == ScanString(s, frames, expectName, integers, at);
      HorizonAhead(Drop(s, n + 2), if expectName then Learn(frames, s[1..1 + n])
          else frames, false, integers, at + n + 2);
    } else if StartsNumber(integers, s[0]) {
      var n := NumberStop(s[1..]).at;
      assert Scan(s, frames, expectName, integers, at) == ScanNumber(s, frames, expectName, at);
      HorizonAhead(s[1 + n..], frames, expectName, true, at + 1 + n);
    } else {
      HorizonAhead(s[1..], NextFrames(frames, s[0]), NextExpect(frames, expectName, s[0]), integers, at + 1);
    }
  }

  /** A refusal decided within `p` is the same refusal whatever follows `p`. */
  lemma {:induction false} Locality(p: Text, q: Text, r: Text, frames: seq<Frame>, expectName: bool, integers: bool,
                                    at: nat)
    requires var v := Scan(p + q, frames, expectName, integers, at); v.Refuse? && v.horizon <= at + |p|
    ensures Scan(p + r, frames, expectName, integers, at) == Scan(p + q, frames, expectName, integers, at)
    decreases |p|
  {
    var s, t := p + q, p + r;
    HorizonAhead(s, frames, expectName, integers, at);
    if p == [] {
    } else if p[0] == QUOTE {
      LocalString(p, q, r, frames, expectName, integers, at);
    } else if StartsNumber(integers, p[0]) {
      LocalNumber(p, q, r, frames, expectName, at);
    } else {
      assert s[1..] == p[1..] + q && t[1..] == p[1..] + r;
      Locality(p[1..], q, r, NextFrames(frames, p[0]), NextExpect(frames, expectName, p[0]), integers, at + 1);
    }
  }

  lemma {:induction false} LocalString(p: Text, q: Text, r: Text, frames: seq<Frame>, expectName: bool,
                                       integers: bool, at: nat)
    requires p != [] && p[0] == QUOTE
    requires var v := Scan(p + q, frames, expectName, integers, at); v.Refuse? && v.horizon <= at + |p|
    ensures Scan(p + r, frames, expectName, integers, at) == Scan(p + q, frames, expectName, integers, at)
    decreases |p|, 0
  {
    hide Scan;
    var s, t := p + q, p + r;
    assert s[1..] == p[1..] + q && t[1..] == p[1..] + r;
    var c := FindClose(s[1..], expectName);
    var n := c.at;
    ScanStringStops(s, frames, expectName, integers, at);
    ScanStringStops(t, frames, expectName, integers, at);
    var stops := c.Escaped? || (expectName && Seen(frames, s[1..1 + n]));
    if !stops {
      ScanStringGoes(s, frames, expectName, integers, at, n);
      HorizonAhead(Drop(s, n + 2), if expectName then Learn(frames, s[1..1 + n])
          else frames, false, integers, at + n + 2);
    }
    assert n < |p| - 1;
    CloseLocal(p[1..], q, r, expectName);
    if c.Closed? && expectName { assert s[1..1 + n] == t[1..1 + n]; }
    if !stops {
      ScanStringGoes(t, frames, expectName, integers, at, n);
      assert Drop(s, n + 2) == p[n + 2..] + q && Drop(t, n + 2) == p[n + 2..] + r;
      var learnt := if expectName then Learn(frames, s[1..1 + n]) else frames;
      Locality(p[n + 2..], q, r, learnt, false, integers, at + n + 2);
    }
  }

  lemma {:induction false} LocalNumber(p: Text, q: Text, r: Text, frames: seq<Frame>, expectName: bool, at: nat)
    requires p != [] && StartsNumber(true, p[0])
    requires var v := Scan(p + q, frames, expectName, true, at); v.Refuse? && v.horizon <= at + |p|
    ensures Scan(p + r, frames, expectName, true, at) == Scan(p + q, frames, expectName, true, at)
    decreases |p|, 0
  {
    var s, t := p + q, p + r;
    assert s[1..] == p[1..] + q && t[1..] == p[1..] + r;
    var n := NumberStop(s[1..]).at;
    assert Scan(s, frames, expectName, true, at) == ScanNumber(s, frames, expectName, at);
    assert Scan(t, frames, expectName, true, at) == ScanNumber(t, frames, expectName, at);
    HorizonAhead(s[1 + n..], frames, expectName, true, at + 1 + n);
    assert n < |p| - 1;
    StopLocal(p[1..], q, r);
    if NumberStop(s[1..]).Ended? {
      assert s[1 + n..] == p[1 + n..] + q && t[1 + n..] == p[1 + n..] + r;
      Locality(p[1 + n..], q, r, frames, expectName, true, at + 1 + n);
    }
  }

  /**
   A text that starts like a JSON text and may go wrong after that: every fault in the valid part is
   refused exactly as in the whole text, and nothing in the valid part is refused otherwise.
   */
  lemma ValidPrefixDecides(doc: Element, p: Text, q: Text, r: Text, integers: bool)
    requires IsDocument(doc) && DocumentText(doc) == p + q
    ensures var fault := ElementFault(doc, integers, 0);
            fault.Refuse? && fault.horizon <= |p| ==> ScanText(p + r, integers) == fault
    ensures var verdict := ScanText(p + r, integers);
            verdict.Refuse? && verdict.horizon <= |p| ==> verdict == ElementFault(doc, integers, 0)
  {
    ScanReadsTree(doc, integers);
    var fault, verdict := ElementFault(doc, integers, 0), ScanText(p + r, integers);
    if fault.Refuse? && fault.horizon <= |p| {
      Locality(p, q, r, [], false, integers, 0);
    }
    if verdict.Refuse? && verdict.horizon <= |p| {
      Locality(p, r, q, [], false, integers, 0);
    }
  }
}
