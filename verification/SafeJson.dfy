/**
 The guard that runs on raw JSON text before it is parsed (`assertSafeJsonText`): one pass, a stack
 of open containers, no parsing. `Scan` is the pass as a function of what is left of the text;
 `AssertSafeJsonText` is the loop over indices that the source runs.
 */
module SafeJson {
  import opened Wrappers
  import opened JsonGrammar

  datatype Code = UnsafeMemberName | DuplicateMemberName | NonIntegerNumber

  /**
   A refusal carries the offset the source's error carries. `horizon` is how many code units had been
   examined when it was raised: the verdict depends on no unit at or beyond it.
   */
  datatype Verdict = Accept | Refuse(code: Code, offset: nat, horizon: nat)

  /** An open container; for an object, the member names seen in it so far. */
  datatype Frame = ObjectFrame(names: set<Text>) | ArrayFrame

  datatype StringEnd = Closed(at: nat) | Escaped(at: nat) {
    function Shift(n: nat): StringEnd { this.(at := at + n) }
  }

  datatype NumberEnd = Ended(at: nat) | Fraction(at: nat) {
    function Shift(n: nat): NumberEnd { this.(at := at + n) }
  }

  // ---- The pass, as a function of the rest of the text ----

  /**
   Where the string whose opening quotation mark is just before `s` ends, or, in a name, where its first escape
   is.
   */
  function FindClose(s: Text, isName: bool): (r: StringEnd)
    ensures r.at <= |s| + 1
    ensures isName ==> r.at <= |s|
    decreases |s|
  {
    if s == [] then Closed(0)
    else if s[0] == REVERSE_SOLIDUS then
      if isName then Escaped(0) else FindClose(Drop(s, 2), isName).Shift(2)
    else if s[0] == QUOTE then Closed(0)
    else FindClose(s[1..], isName).Shift(1)
  }

  /**
   Where the number token whose first unit is just before `s` ends, or where its first fraction or exponent mark
   is.
   */
  function NumberStop(s: Text): (r: NumberEnd)
    ensures r.at <= |s|
    ensures r.Fraction? ==> r.at < |s|
  {
    if s == [] then Ended(0)
    else if IsFractionMark(s[0]) then Fraction(0)
    else if s[0] == PLUS || s[0] == MINUS || IsDigit(s[0]) then NumberStop(s[1..]).Shift(1)
    else Ended(0)
  }

  predicate Seen(frames: seq<Frame>, name: Text) {
    frames != [] && frames[|frames| - 1].ObjectFrame? && name in frames[|frames| - 1].names
  }

  function Learn(frames: seq<Frame>, name: Text): seq<Frame> {
    if frames != [] && frames[|frames| - 1].ObjectFrame? then
      frames[..|frames| - 1] + [ObjectFrame(frames[|frames| - 1].names + {name})]
    else frames
  }

  function Pop(frames: seq<Frame>): seq<Frame> {
    if frames == [] then [] else frames[..|frames| - 1]
  }

  predicate InObject(frames: seq<Frame>) {
    frames != [] && frames[|frames| - 1].ObjectFrame?
  }

  function Drop(s: Text, n: nat): (r: Text)
    ensures |r| == if n <= |s| then |s| - n else 0
  {
    if n <= |s| then s[n..] else []
  }

  /** The stack after a unit that starts neither a string nor a number token. */
  function NextFrames(frames: seq<Frame>, c: Unit): seq<Frame> {
    if c == OPEN_OBJECT then frames + [ObjectFrame({})]
    else if c == OPEN_ARRAY then frames + [ArrayFrame]
    else if c == CLOSE_OBJECT || c == CLOSE_ARRAY then Pop(frames)
    else frames
  }

  /** Whether the next string is a member name, after such a unit. */
  function NextExpect(frames: seq<Frame>, expectName: bool, c: Unit): bool {
    if c == OPEN_OBJECT then true
    else if c == COMMA then InObject(frames)
    else if c == OPEN_ARRAY || c == CLOSE_OBJECT || c == CLOSE_ARRAY || c == COLON then false
    else expectName
  }

  predicate StartsNumber(integers: bool, c: Unit) {
    integers && (c == MINUS || IsDigit(c))
  }

  function Scan(s: Text, frames: seq<Frame>, expectName: bool, integers: bool, at: nat): Verdict
    decreases |s|
  {
    if s == [] then Accept
    else if s[0] == QUOTE then ScanString(s, frames, expectName, integers, at)
    else if StartsNumber(integers, s[0]) then ScanNumber(s, frames, expectName, at)
    else Scan(s[1..], NextFrames(frames, s[0]), NextExpect(frames, expectName, s[0]), integers, at + 1)
  }

  function ScanString(s: Text, frames: seq<Frame>, expectName: bool, integers: bool, at: nat): Verdict
    requires s != []
    decreases |s|, 0
  {
    match FindClose(s[1..], expectName)
    case Escaped(n) => Refuse(UnsafeMemberName, at + 1 + n, at + n + 2)
    case Closed(n) =>
      if !expectName then Scan(Drop(s, n + 2), frames, false, integers, at + n + 2)
      else
        var name := s[1..1 + n];
        if Seen(frames, name) then Refuse(DuplicateMemberName, at, at + n + 2)
        else Scan(Drop(s, n + 2), Learn(frames, name), false, integers, at + n + 2)
  }

  function ScanNumber(s: Text, frames: seq<Frame>, expectName: bool, at: nat): Verdict
    requires s != []
    decreases |s|, 0
  {
    match NumberStop(s[1..])
    case Fraction(n) => Refuse(NonIntegerNumber, at, at + n + 2)
    case Ended(n) => Scan(s[1 + n..], frames, expectName, true, at + 1 + n)
  }

  function ScanText(text: Text, integers: bool): Verdict {
    Scan(text, [], false, integers, 0)
  }

  // ---- The pass, as the source runs it ----

  /** The two stacks of the source as one. */
  function Frames(objectContext: seq<bool>, names: seq<Option<set<Text>>>): (f: seq<Frame>)
    requires |objectContext| == |names|
    ensures |f| == |names|
  {
    seq(|names|, k requires 0 <= k < |names| => if names[k].Some? then ObjectFrame(names[k].value) else ArrayFrame)
  }

  lemma FramesStep(objectContext: seq<bool>, names: seq<Option<set<Text>>>)
    requires |objectContext| == |names|
    ensures Frames(objectContext + [true], names + [Some({})]) == Frames(objectContext, names) + [ObjectFrame({})]
    ensures Frames(objectContext + [false], names + [None]) == Frames(objectContext, names) + [ArrayFrame]
    ensures names == [] ==> Pop(Frames(objectContext, names)) == Frames(objectContext, names)
    ensures names != [] ==>
              Frames(objectContext[..|objectContext| - 1], names[..|names| - 1]) ==
              Pop(Frames(objectContext, names))
  {
  }

  lemma FramesLearn(objectContext: seq<bool>, names: seq<Option<set<Text>>>, name: Text)
    requires |objectContext| == |names| && names != [] && names[|names| - 1].Some?
    ensures Seen(Frames(objectContext, names), name) <==> name in names[|names| - 1].value
    ensures Frames(objectContext, names[|names| - 1 := Some(names[|names| - 1].value + {name})]) ==
            Learn(Frames(objectContext, names), name)
  {
  }

  /** A name is only ever expected inside an object. */
  predicate NameExpected(names: seq<Option<set<Text>>>, expectName: bool) {
    expectName ==> names != [] && names[|names| - 1].Some?
  }

  predicate Aligned(objectContext: seq<bool>, names: seq<Option<set<Text>>>) {
    |objectContext| == |names| && forall k :: 0 <= k < |names| ==> (objectContext[k] <==> names[k].Some?)
  }

  /** The pass from unit `i` in this state comes to `goal`. */
  ghost predicate Resumes(text: Text, integers: bool, i: nat, frames: seq<Frame>, expectName: bool, goal: Verdict) {
    Scan(Drop(text, i), frames, expectName, integers, i) == goal
  }

  lemma PassStarts(text: Text, integers: bool)
    ensures Resumes(text, integers, 0, Frames([], []), false, ScanText(text, integers))
  {
    assert Drop(text, 0) == text && Frames([], []) == [];
  }

  lemma PassEnds(text: Text, integers: bool, i: nat, frames: seq<Frame>, expectName: bool, goal: Verdict)
    requires |text| <= i && Resumes(text, integers, i, frames, expectName, goal)
    ensures goal == Accept
  {
  }

  lemma UnitStep(text: Text, integers: bool, i: nat, frames: seq<Frame>, expectName: bool, goal: Verdict)
    requires i < |text| && text[i] != QUOTE && !StartsNumber(integers, text[i])
    requires Resumes(text, integers, i, frames, expectName, goal)
    ensures Resumes(text, integers, i + 1, NextFrames(frames, text[i]), NextExpect(frames, expectName, text[i]), goal)
  {
    assert Drop(text, i)[1..] == Drop(text, i + 1);
  }

  lemma ScanIsString(s: Text, frames: seq<Frame>, expectName: bool, integers: bool, at: nat)
    requires s != [] && s[0] == QUOTE
    ensures Scan(s, frames, expectName, integers, at) == ScanString(s, frames, expectName, integers, at)
  {
    hide ScanString;
  }

  lemma ScanStringGoes(s: Text, frames: seq<Frame>, expectName: bool, integers: bool, at: nat, n: nat)
    requires s != [] && s[0] == QUOTE
    requires FindClose(s[1..], expectName) == Closed(n) && !(expectName && Seen(frames, s[1..1 + n]))
    ensures Scan(s, frames, expectName, integers, at) ==
            Scan(Drop(s, n + 2), if expectName then Learn(frames, s[1..1 + n]) else frames, false, integers, at + n + 2)
  {
    ScanIsString(s, frames, expectName, integers, at);
    hide Scan, FindClose, Seen, Learn;
  }

  lemma ScanStringStops(s: Text, frames: seq<Frame>, expectName: bool, integers: bool, at: nat)
    requires s != [] && s[0] == QUOTE
    ensures match FindClose(s[1..], expectName)
            case Escaped(n) => Scan(s, frames, expectName, integers, at) ==
                Refuse(UnsafeMemberName, at + 1 + n, at + n + 2)
            case Closed(n) =>
              expectName && Seen(frames, s[1..1 + n]) ==>
                Scan(s, frames, expectName, integers, at) == Refuse(DuplicateMemberName, at, at + n + 2)
  {
    ScanIsString(s, frames, expectName, integers, at);
    hide Scan, FindClose, Seen, Learn;
  }

  lemma SliceOfDrop(text: Text, i: nat, j: nat)
    requires i < j <= |text|
    ensures Drop(text, i)[1..j - i] == text[i + 1..j]
  {
  }

  lemma StringStops(text: Text, integers: bool, i: nat, frames: seq<Frame>, expectName: bool, goal: Verdict, j: nat)
    requires i < j && i < |text| && text[i] == QUOTE
    requires Resumes(text, integers, i, frames, expectName, goal)
    ensures FindClose(text[i + 1..], expectName) == Escaped(j - i - 1) ==> goal == Refuse(UnsafeMemberName, j, j + 1)
    ensures FindClose(text[i + 1..], expectName) == Closed(j - i - 1) && expectName && Seen(frames, text[i + 1..j]) ==>
              goal == Refuse(DuplicateMemberName, i, j + 1)
  {
    var s := Drop(text, i);
    assert s[1..] == text[i + 1..];
    ScanStringStops(s, frames, expectName, integers, i);
    if expectName && FindClose(s[1..], expectName) == Closed(j - i - 1) {
      SliceOfDrop(text, i, j);
    }
  }

  lemma StringGoes(text: Text, integers: bool, i: nat, frames: seq<Frame>, expectName: bool, goal: Verdict, j: nat)
    requires i < j && i < |text| && text[i] == QUOTE
    requires Resumes(text, integers, i, frames, expectName, goal)
    requires FindClose(text[i + 1..], expectName) == Closed(j - i - 1) && !(expectName && Seen(frames, text[i + 1..j]))
    ensures Resumes(text, integers, j + 1, if expectName then Learn(frames, text[i + 1..j]) else frames, false, goal)
  {
    hide Scan, FindClose, Seen, Learn;
    var s := Drop(text, i);
    var n := j - i - 1;
    assert s[1..] == text[i + 1..];
    if expectName {
      assert j <= |text|;
      SliceOfDrop(text, i, j);
    }
    ScanStringGoes(s, frames, expectName, integers, i, n);
    assert Drop(s, n + 2) == Drop(text, j + 1);
  }

  lemma ScanIsNumber(s: Text, frames: seq<Frame>, expectName: bool, at: nat)
    requires s != [] && StartsNumber(true, s[0])
    ensures Scan(s, frames, expectName, true, at) == ScanNumber(s, frames, expectName, at)
  {
    hide ScanNumber;
  }

  lemma NumberStep(text: Text, i: nat, frames: seq<Frame>, expectName: bool, goal: Verdict)
    requires i < |text| && StartsNumber(true, text[i])
    requires Resumes(text, true, i, frames, expectName, goal)
    ensures match NumberStop(text[i + 1..])
            case Fraction(n) => goal == Refuse(NonIntegerNumber, i, i + n + 2)
            case Ended(n) => Resumes(text, true, i + 1 + n, frames, expectName, goal)
  {
    var s := Drop(text, i);
    assert s[1..] == text[i + 1..];
    ScanIsNumber(s, frames, expectName, i);
    hide Scan, NumberStop;
    var n := NumberStop(s[1..]).at;
    assert s[1 + n..] == Drop(text, i + 1 + n);
  }

  /** The string after unit `i` ends where it would if it started at unit `j`. */
  ghost predicate EndsAs(text: Text, i: nat, j: nat, isName: bool)
    requires i < |text|
  {
    i < j && FindClose(text[i + 1..], isName) == FindClose(Drop(text, j), isName).Shift(j - i - 1)
  }

  lemma FindCloseStart(text: Text, i: nat, isName: bool)
    requires i < |text|
    ensures EndsAs(text, i, i + 1, isName)
  {
    assert Drop(text, i + 1) == text[i + 1..];
    hide FindClose;
  }

  lemma FindCloseStep(text: Text, i: nat, j: nat, isName: bool)
    requires i < j < |text| && EndsAs(text, i, j, isName)
    ensures var r := FindClose(text[i + 1..], isName);
            if text[j] == REVERSE_SOLIDUS then
              if isName then r == Escaped(j - i - 1) else EndsAs(text, i, j + 2, isName)
            else if text[j] == QUOTE then r == Closed(j - i - 1)
            else EndsAs(text, i, j + 1, isName)
  {
    assert Drop(Drop(text, j), 2) == Drop(text, j + 2);
    assert Drop(text, j)[1..] == Drop(text, j + 1);
  }

  lemma FindCloseEnd(text: Text, i: nat, j: nat, isName: bool)
    requires i < |text| <= j && EndsAs(text, i, j, isName)
    ensures FindClose(text[i + 1..], isName) == Closed(j - i - 1)
  {
  }

  /** The inner loop over a string: `j` is where it stops, and `escaped` tells a refusal from an end. */
  method SkipString(text: Text, i: nat, isName: bool) returns (j: nat, escaped: bool, ghost examined: nat)
    requires i < |text|
    ensures i < j <= |text| + 1
    ensures FindClose(text[i + 1..], isName) == if escaped then Escaped(j - i - 1) else Closed(j - i - 1)
    ensures examined <= j - i && examined <= |text| - i - 1
  {
    hide FindClose, EndsAs;
    FindCloseStart(text, i, isName);
    j, escaped, examined := i + 1, false, 0;
    while j < |text|
      invariant i < j <= |text| + 1
      invariant examined <= j - i - 1 && examined <= |text| - i - 1
      invariant EndsAs(text, i, j, isName)
    {
      var d := text[j];
      examined := examined + 1;
      FindCloseStep(text, i, j, isName);
      if d == REVERSE_SOLIDUS {
        if isName {
          return j, true, examined;
        }
        j := j + 1;
      } else if d == QUOTE {
        break;
      }
      j := j + 1;
    }
    if j >= |text| {
      FindCloseEnd(text, i, j, isName);
    }
  }

  /** The inner loop over a number token. */
  method SkipNumber(text: Text, i: nat) returns (j: nat, fraction: bool, ghost examined: nat)
    requires i < |text|
    ensures i < j <= |text|
    ensures NumberStop(text[i + 1..]) == if fraction then Fraction(j - i - 1) else Ended(j - i - 1)
    ensures examined <= j - i
  {
    j, fraction, examined := i + 1, false, 0;
    while j < |text|
      invariant i < j <= |text|
      invariant examined <= j - i - 1
      invariant NumberStop(text[i + 1..]) == NumberStop(text[j..]).Shift(j - i - 1)
    {
      var d := text[j];
      examined := examined + 1;
      if IsFractionMark(d) {
        return j, true, examined;
      }
      if !(d == PLUS || d == MINUS || IsDigit(d)) {
        break;
      }
      j := j + 1;
    }
  }

  /** The two stacks and the flag after a unit that starts neither a string nor a number token. */
  method ReadUnit(c: Unit, contexts: seq<bool>, seen: seq<Option<set<Text>>>, expected: bool)
    returns (objectContext: seq<bool>, names: seq<Option<set<Text>>>, expectName: bool)
    requires Aligned(contexts, seen) && NameExpected(seen, expected)
    ensures Aligned(objectContext, names) && NameExpected(names, expectName)
    ensures Frames(objectContext, names) == NextFrames(Frames(contexts, seen), c)
    ensures expectName == NextExpect(Frames(contexts, seen), expected, c)
  {
    objectContext, names, expectName := contexts, seen, expected;
    FramesStep(contexts, seen);
    if c == OPEN_OBJECT {
      objectContext, names, expectName := objectContext + [true], names + [Some({})], true;
    } else if c == OPEN_ARRAY {
      objectContext, names, expectName := objectContext + [false], names + [None], false;
    } else if c == CLOSE_OBJECT || c == CLOSE_ARRAY {
      if objectContext != [] {
        objectContext, names := objectContext[..|objectContext| - 1], names[..|names| - 1];
      }
      expectName := false;
    } else if c == COMMA {
      expectName := |objectContext| > 0 && objectContext[|objectContext| - 1];
    } else if c == COLON {
      expectName := false;
    }
  }

  /** Notes a member name in the innermost open object, unless it is there already. */
  method ReadName(name: Text, objectContext: seq<bool>, seen: seq<Option<set<Text>>>)
    returns (names: seq<Option<set<Text>>>, duplicate: bool)
    requires Aligned(objectContext, seen) && NameExpected(seen, true)
    ensures duplicate <==> Seen(Frames(objectContext, seen), name)
    ensures !duplicate ==>
              Aligned(objectContext, names) &&
              Frames(objectContext, names) == Learn(Frames(objectContext, seen), name)
  {
    names, duplicate := seen, false;
    FramesLearn(objectContext, seen, name);
    var top := names[|names| - 1];
    if top.Some? {
      if name in top.value {
        duplicate := true;
      } else {
        names := names[|names| - 1 := Some(top.value + {name})];
      }
    }
  }

  /** The branch on a quotation mark: where the string ends and the names then seen, or a refusal. */
  method ReadString(text: Text, integers: bool, i: nat, objectContext: seq<bool>, seen: seq<Option<set<Text>>>,
                    isName: bool, ghost goal: Verdict)
    returns (j: nat, names: seq<Option<set<Text>>>, refusal: Verdict, ghost examined: nat)
    requires i < |text| && text[i] == QUOTE
    requires Aligned(objectContext, seen) && NameExpected(seen, isName)
    requires Resumes(text, integers, i, Frames(objectContext, seen), isName, goal)
    ensures i < j <= |text| + 1 && examined <= j - i && examined <= |text| - i - 1
    ensures refusal.Refuse? ==> goal == refusal
    ensures refusal.Accept? ==>
              Aligned(objectContext, names) &&
              Resumes(text, integers, j + 1, Frames(objectContext, names), false, goal)
  {
    var escaped;
    names, refusal := seen, Accept;
    j, escaped, examined := SkipString(text, i, isName);
    ghost var frames := Frames(objectContext, seen);
    StringStops(text, integers, i, frames, isName, goal, j);
    if escaped {
      refusal := Refuse(UnsafeMemberName, j, j + 1);
    } else {
      if isName {
        var duplicate;
        names, duplicate := ReadName(text[i + 1..j], objectContext, seen);
        if duplicate {
          refusal := Refuse(DuplicateMemberName, i, j + 1);
          return;
        }
      }
      StringGoes(text, integers, i, frames, isName, goal, j);
    }
  }

  /** The branch on a number token, when only integers are allowed. */
  method ReadNumber(text: Text, i: nat, ghost frames: seq<Frame>, ghost expectName: bool, ghost goal: Verdict)
    returns (j: nat, refusal: Verdict, ghost examined: nat)
    requires i < |text| && StartsNumber(true, text[i])
    requires Resumes(text, true, i, frames, expectName, goal)
    ensures i < j <= |text| && examined <= j - i
    ensures refusal.Refuse? ==> goal == refusal
    ensures refusal.Accept? ==> Resumes(text, true, j, frames, expectName, goal)
  {
    var fraction;
    refusal := Accept;
    j, fraction, examined := SkipNumber(text, i);
    NumberStep(text, i, frames, expectName, goal);
    if fraction {
      refusal := Refuse(NonIntegerNumber, i, j + 1);
    }
  }

  /**
   The verdict is the pass's. `examined` counts the code units the loops look at: the guard is linear,
   looking at no unit more than twice.
   */
  method AssertSafeJsonText(text: Text, integerNumbers: bool) returns (verdict: Verdict, ghost examined: nat)
    ensures verdict == ScanText(text, integerNumbers)
    ensures examined <= 2 * |text|
  {
    var objectContext: seq<bool> := [];
    var names: seq<Option<set<Text>>> := [];
    var expectName := false;
    var i := 0;
    examined := 0;
    ghost var goal := ScanText(text, integerNumbers);
    PassStarts(text, integerNumbers);
    while i < |text|
      invariant Aligned(objectContext, names) && NameExpected(names, expectName)
      invariant Resumes(text, integerNumbers, i, Frames(objectContext, names), expectName, goal)
      invariant i <= |text| + 2
      invariant examined <= 2 * |text| && examined <= 2 * i
    {
      var c := text[i];
      ghost var frames := Frames(objectContext, names);
      examined := examined + 1;
      if c == QUOTE {
        var j, refusal;
        ghost var more;
        j, names, refusal, more := ReadString(text, integerNumbers, i, objectContext, names, expectName, goal);
        examined := examined + more;
        if refusal.Refuse? {
          return refusal, examined;
        }
        i := j;
        expectName := false;
      } else if integerNumbers && (c == MINUS || IsDigit(c)) {
        var j, refusal;
        ghost var more;
        j, refusal, more := ReadNumber(text, i, frames, expectName, goal);
        examined := examined + more;
        if refusal.Refuse? {
          return refusal, examined;
        }
        i := j - 1;
      } else {
        UnitStep(text, integerNumbers, i, frames, expectName, goal);
        objectContext, names, expectName := ReadUnit(c, objectContext, names, expectName);
      }
      i := i + 1;
    }
    PassEnds(text, integerNumbers, i, Frames(objectContext, names), expectName, goal);
    verdict := Accept;
  }
}
