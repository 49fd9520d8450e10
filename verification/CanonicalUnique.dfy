/**
 When two values have the same canonical text: exactly when they look the same to the printer (`Shown`), which
 does not see the order of members, members that are undefined, the sign of zero, the difference between
 undefined and null, or that an array holds nothing but one hole.
 */
module CanonicalUnique {
  import opened Wrappers
  import opened JsonGrammar
  import opened JsonParser
  import opened JsonData
  import opened CanonicalRoundTrip
  import C = Canonical

  /** The value as the printer sees it. */
  function Shown(v: C.JsValue): C.JsValue
    decreases v, 1, 0
  {
    match v
    case Undefined => C.Null
    case Number(n) => if n.NegativeZero? then C.Number(C.Integer(0)) else v
    case Array(items) => C.Array(if items == [C.Hole] then [] else ShownItems(v, items))
    case Object(ms) => C.Object(ShownMembers(v, C.Entries(ms)))
    case _ => v
  }

  function ShownItems(owner: C.JsValue, items: seq<C.JsValue>): seq<C.JsValue>
    requires owner.Array? && forall item :: item in items ==> item in owner.items
    decreases owner, 0, |items|
  {
    if items == [] then []
    else
      assert items[0] in owner.items;
      [Shown(items[0])] + ShownItems(owner, items[1..])
  }

  function ShownMembers(owner: C.JsValue, ms: seq<C.JsMember>): seq<C.JsMember>
    requires owner.Object? && forall m :: m in ms ==> m in owner.members
    decreases owner, 0, |ms|
  {
    if ms == [] then []
    else
      assert ms[0] in owner.members;
      [C.JsMember(ms[0].name, Shown(ms[0].value))] + ShownMembers(owner, ms[1..])
  }

  // ---- The printer sees no more than that ----

  /** Members in strict order, all defined, are printed as they stand. */
  lemma {:induction false} EntriesOfEntries(ms: seq<C.JsMember>)
    requires C.Ascending(ms) && forall m :: m in ms ==> !m.value.Undefined?
    ensures C.Entries(ms) == ms
  {
    DefinedOfDefined(ms);
    SortedOfAscending(ms);
  }

  lemma {:induction false} DefinedOfDefined(ms: seq<C.JsMember>)
    requires forall m :: m in ms ==> !m.value.Undefined?
    ensures C.Defined(ms) == ms
  {
    if ms != [] { DefinedOfDefined(ms[1..]); }
  }

  lemma {:induction false} SortedOfAscending(ms: seq<C.JsMember>)
    requires C.Ascending(ms)
    ensures C.Sorted(ms) == ms
  {
    if ms != [] {
      SortedOfAscending(ms[1..]);
      LaterNames(ms);
      assert |ms| > 1 ==> ms[1] in ms[1..];
      assert ms == [ms[0]] + ms[1..];
    }
  }

  lemma {:induction false} ShownMembersAre(owner: C.JsValue, ms: seq<C.JsMember>)
    requires owner.Object? && forall m :: m in ms ==> m in owner.members && !m.value.Undefined?
    ensures |ShownMembers(owner, ms)| == |ms|
    ensures forall k :: 0 <= k < |ms| ==>
              ShownMembers(owner, ms)[k].name == ms[k].name &&
              !ShownMembers(owner, ms)[k].value.Undefined?
    decreases |ms|
  {
    if ms != [] { ShownMembersAre(owner, ms[1..]); }
  }

  lemma {:induction false} ShownPrintsSame(v: C.JsValue)
    requires C.IsJsValue(v) || v.Hole?
    ensures C.Serialize(Shown(v)) == C.Serialize(v)
    decreases v, 1, 0
  {
    match v {
      case Array(items) =>
        if items == [C.Hole] {
          LoneHolePrints(v);
        } else {
          ShownItemsPrintSame(v, Shown(v), items);
        }
      case Object(ms) =>
        var es := C.Entries(ms);
        C.EntriesAscend(ms);
        ShownMembersAre(v, es);
        EntriesOfEntries(ShownMembers(v, es));
        ShownMembersPrintSame(v, Shown(v), es);
      case _ =>
    }
  }

  lemma LoneHolePrints(v: C.JsValue)
    requires v == C.Array([C.Hole])
    ensures C.Serialize(v) == C.Serialize(C.Array([])) == C.Ok([OPEN_ARRAY, CLOSE_ARRAY])
  {
    var items := v.items;
    assert items[0] == C.Hole && items[1..] == [];
    assert C.SerializeItems(v, items[1..]) == C.Ok([]);
    assert C.SerializeItems(v, items) == C.Ok([[]] + []);
    var none: seq<Text> := [[]];
    assert [[]] + [] == none;
    assert C.Join(none) == [];
    assert [OPEN_ARRAY] + [] + [CLOSE_ARRAY] == [OPEN_ARRAY, CLOSE_ARRAY];
    assert C.Serialize(C.Array([])) == C.Ok([OPEN_ARRAY] + [] + [CLOSE_ARRAY]);
  }

  lemma {:induction false} ShownItemsPrintSame(v: C.JsValue, w: C.JsValue, items: seq<C.JsValue>)
    requires v.Array? && C.IsJsValue(v) && forall item :: item in items ==> item in v.items
    requires w.Array? && forall item :: item in ShownItems(v, items) ==> item in w.items
    ensures C.SerializeItems(w, ShownItems(v, items)) == C.SerializeItems(v, items)
    decreases v, 0, |items|
  {
    if items != [] {
      assert items[0] in v.items;
      ShownPrintsSame(items[0]);
      assert ShownItems(v, items)[1..] == ShownItems(v, items[1..]);
      ShownItemsPrintSame(v, w, items[1..]);
    }
  }

  lemma {:induction false} ShownMembersPrintSame(v: C.JsValue, w: C.JsValue, ms: seq<C.JsMember>)
    requires v.Object? && C.IsJsValue(v) && forall m :: m in ms ==> m in v.members
    requires w.Object? && forall m :: m in ShownMembers(v, ms) ==> m in w.members
    ensures C.SerializeMembers(w, ShownMembers(v, ms)) == C.SerializeMembers(v, ms)
    decreases v, 0, |ms|
  {
    if ms != [] {
      assert ms[0] in v.members;
      ShownPrintsSame(ms[0].value);
      assert ShownMembers(v, ms)[1..] == ShownMembers(v, ms[1..]);
      ShownMembersPrintSame(v, w, ms[1..]);
    }
  }

  // ---- The text shows all of it ----

  ghost predicate Printable(v: C.JsValue) {
    C.Serialize(v).Ok? && (C.IsJsValue(v) || v.Hole?)
  }

  predicate Leaf(v: C.JsValue) {
    !v.Hole? && !v.Array? && !v.Object?
  }

  /** The first code unit tells arrays, objects, holes and everything else apart. */
  lemma Starts(v: C.JsValue, t: Text)
    requires Printable(v) && Follows(t)
    ensures var s := ValueText(Tree(v), t);
            && (v.Hole? ==> s == t) && (!v.Hole? ==>
                  s != [] && s[0] != COMMA && s[0] != CLOSE_ARRAY &&
                  s[0] != CLOSE_OBJECT)
            && (v.Array? <==> s != [] && s[0] == OPEN_ARRAY) && (v.Object? <==> s != [] && s[0] == OPEN_OBJECT)
  {
    TreeFits(v);
    match v {
      case Number(n) => NumberUnits(C.CheckedNumber(n).value);
      case _ =>
    }
  }

  lemma LeafTexts(v: C.JsValue, w: C.JsValue, t: Text, t': Text)
    requires Printable(v) && Printable(w) && Leaf(v) && Leaf(w) && Follows(t) && Follows(t')
    requires ValueText(Tree(v), t) == ValueText(Tree(w), t')
    ensures Shown(v) == Shown(w) && t == t'
  {
    hide C.IsJsValue, C.Escape, C.CheckedNumber, ParseValue, ValueText, WellFormed, Unescape, IntegerValue;
    TreeFits(v);
    TreeFits(w);
    LeafTree(v);
    LeafTree(w);
    ValueComplete(Tree(v), t);
    ValueComplete(Tree(w), t');
    LeafShown(v, w);
  }

  lemma LeafTree(v: C.JsValue)
    requires Printable(v) && Leaf(v)
    ensures !Tree(v).Missing? && Readable(Tree(v)) && Read(Tree(v)) == Tree(v)
  {
  }

  lemma LeafShown(v: C.JsValue, w: C.JsValue)
    requires Printable(v) && Printable(w) && Leaf(v) && Leaf(w) && Tree(v) == Tree(w)
    ensures Shown(v) == Shown(w)
  {
    match v {
      case Number(n) =>
        NumberReads(n);
        NumberReads(w.number);
      case String(s) =>
        BodyOfEscape(s);
        BodyOfEscape(w.s);
      case _ =>
    }
  }

  lemma {:induction false} SameTextSameShown(v: C.JsValue, w: C.JsValue, t: Text, t': Text)
    requires Printable(v) && Printable(w) && Follows(t) && Follows(t')
    requires ValueText(Tree(v), t) == ValueText(Tree(w), t')
    ensures Shown(v) == Shown(w) && t == t'
    decreases v, 1, 0
  {
    Starts(v, t);
    Starts(w, t');
    if Leaf(v) && Leaf(w) {
      LeafTexts(v, w, t, t');
    } else if v.Array? && w.Array? {
      ArrayTexts(v, w, t, t');
    } else if v.Object? && w.Object? {
      ObjectTexts(v, w, t, t');
    }
  }

  lemma After(u: Unit, a: Text, b: Text)
    requires [u] + a == [u] + b
    ensures a == b
  {
    assert ([u] + a)[1..] == a && ([u] + b)[1..] == b;
  }

  predicate Hollow(items: seq<C.JsValue>) {
    items == [] || items == [C.Hole]
  }

  lemma FirstItem(v: C.JsValue)
    requires v.Array? && v.items != [] && Printable(v)
    ensures Printable(v.items[0])
  {
    assert v.items[0] in v.items;
    assert C.SerializeItems(v, v.items).Ok?;
  }

  /** The text of an array after its bracket: it closes at once exactly when there is nothing in it, or one hole. */
  lemma ArrayStarts(v: C.JsValue, t: Text)
    requires v.Array? && Printable(v)
    ensures Hollow(v.items) ==> ValueText(Tree(v), t) == [OPEN_ARRAY] + ([CLOSE_ARRAY] + t)
    ensures !Hollow(v.items) ==>
              var inside := ElementsText(TreeItems(v, v.items), [CLOSE_ARRAY] + t);
              ValueText(Tree(v), t) == [OPEN_ARRAY] + inside && inside != [] && inside[0] != CLOSE_ARRAY
  {
    var items := v.items;
    if items == [C.Hole] {
      assert items[0] == C.Hole;
      assert TreeItems(v, items) == LastElement(Bare(Missing));
      BareText(Missing, [CLOSE_ARRAY] + t);
    } else if items != [] {
      var first := items[0];
      assert first in items;
      FirstItem(v);
      if |items| == 1 {
        assert items == [first];
        BareText(Tree(first), [CLOSE_ARRAY] + t);
        Starts(first, [CLOSE_ARRAY] + t);
      } else {
        var after := [COMMA] + ElementsText(TreeItems(v, items[1..]), [CLOSE_ARRAY] + t);
        BareText(Tree(first), after);
        Starts(first, after);
      }
    }
  }

  lemma {:induction false} ArrayTexts(v: C.JsValue, w: C.JsValue, t: Text, t': Text)
    requires v.Array? && w.Array? && Printable(v) && Printable(w) && Follows(t) && Follows(t')
    requires ValueText(Tree(v), t) == ValueText(Tree(w), t')
    ensures Shown(v) == Shown(w) && t == t'
    decreases v, 0, |v.items| + 1
  {
    hide C.IsJsValue, Tree, TreeItems, ElementsText;
    ArrayStarts(v, t);
    ArrayStarts(w, t');
    if Hollow(v.items) || Hollow(w.items) {
      var inside := if Hollow(v.items) then [CLOSE_ARRAY] + t
          else ElementsText(TreeItems(v, v.items), [CLOSE_ARRAY] + t);
      var inside' := if Hollow(w.items) then [CLOSE_ARRAY] + t'
          else ElementsText(TreeItems(w, w.items), [CLOSE_ARRAY] + t');
      After(OPEN_ARRAY, inside, inside');
      After(CLOSE_ARRAY, t, t');
    } else {
      After(OPEN_ARRAY, ElementsText(TreeItems(v, v.items), [CLOSE_ARRAY] + t),
          ElementsText(TreeItems(w, w.items), [CLOSE_ARRAY] + t'));
      ItemTexts(v, v.items, w, w.items, t, t');
    }
  }

  lemma {:induction false} ItemTexts(v: C.JsValue, vs: seq<C.JsValue>, w: C.JsValue, ws: seq<C.JsValue>, t: Text,
                                     t': Text)
    requires v.Array? && C.IsJsValue(v) && vs != [] && C.SerializeItems.requires(v, vs) && C.SerializeItems(v, vs).Ok?
    requires w.Array? && C.IsJsValue(w) && ws != [] && C.SerializeItems.requires(w, ws) && C.SerializeItems(w, ws).Ok?
    requires ElementsText(TreeItems(v, vs), [CLOSE_ARRAY] + t) == ElementsText(TreeItems(w, ws), [CLOSE_ARRAY] + t')
    ensures ShownItems(v, vs) == ShownItems(w, ws) && t == t'
    decreases v, 0, |vs|
  {
    assert vs[0] in v.items && ws[0] in w.items;
    var after := if |vs| == 1 then [CLOSE_ARRAY] + t else [COMMA] + ElementsText(TreeItems(v, vs[1..]),
        [CLOSE_ARRAY] + t);
    var after' := if |ws| == 1 then [CLOSE_ARRAY] + t'
        else [COMMA] + ElementsText(TreeItems(w, ws[1..]), [CLOSE_ARRAY] + t');
    BareText(Tree(vs[0]), after);
    BareText(Tree(ws[0]), after');
    SameTextSameShown(vs[0], ws[0], after, after');
    if |vs| == 1 || |ws| == 1 {
      After(CLOSE_ARRAY, t, t');
      assert vs[1..] == [] && ws[1..] == [];
    } else {
      After(COMMA, ElementsText(TreeItems(v, vs[1..]), [CLOSE_ARRAY] + t),
          ElementsText(TreeItems(w, ws[1..]), [CLOSE_ARRAY] + t'));
      ItemTexts(v, vs[1..], w, ws[1..], t, t');
    }
  }

  lemma ObjectStarts(v: C.JsValue, t: Text)
    requires v.Object? && Printable(v)
    ensures var es := C.Entries(v.members);
            && (es == [] ==> ValueText(Tree(v), t) == [OPEN_OBJECT] + ([CLOSE_OBJECT] + t))
            && (es != [] ==>
                  var inside := MembersText(TreeMembers(v, es), [CLOSE_OBJECT] + t);
                  && Prints(v, es) && ValueText(Tree(v), t) == [OPEN_OBJECT] + inside
                  && inside != [] && inside[0] == QUOTE)
  {
    hide C.Entries, C.Ascending, C.SerializeMembers, ElementText;
    C.EntriesAscend(v.members);
    var es := C.Entries(v.members);
    if es != [] {
      assert es[0] in v.members;
      MembersStart(TreeMembers(v, es), [CLOSE_OBJECT] + t);
    }
  }

  lemma MembersStart(ms: Members, t: Text)
    requires (if ms.LastMember? then ms.last.before else ms.first.before) == []
    ensures MembersText(ms, t) != [] && MembersText(ms, t)[0] == QUOTE
  {
    hide ElementText;
  }

  lemma {:induction false} ObjectTexts(v: C.JsValue, w: C.JsValue, t: Text, t': Text)
    requires v.Object? && w.Object? && Printable(v) && Printable(w) && Follows(t) && Follows(t')
    requires ValueText(Tree(v), t) == ValueText(Tree(w), t')
    ensures Shown(v) == Shown(w) && t == t'
    decreases v, 0, |C.Entries(v.members)| + 1
  {
    hide C.IsJsValue, Tree, TreeMembers, MembersText, C.Entries;
    var vs, ws := C.Entries(v.members), C.Entries(w.members);
    ObjectStarts(v, t);
    ObjectStarts(w, t');
    var inside := if vs == [] then [CLOSE_OBJECT] + t else MembersText(TreeMembers(v, vs), [CLOSE_OBJECT] + t);
    var inside' := if ws == [] then [CLOSE_OBJECT] + t' else MembersText(TreeMembers(w, ws), [CLOSE_OBJECT] + t');
    After(OPEN_OBJECT, inside, inside');
    if vs == [] || ws == [] {
      After(CLOSE_OBJECT, t, t');
    } else {
      MemberTexts(v, vs, w, ws, t, t');
    }
  }

  lemma {:induction false} MemberTexts(v: C.JsValue, vs: seq<C.JsMember>, w: C.JsValue, ws: seq<C.JsMember>, t: Text,
                                       t': Text)
    requires Prints(v, vs) && Prints(w, ws)
    requires MembersText(TreeMembers(v, vs), [CLOSE_OBJECT] + t) == MembersText(TreeMembers(w, ws), [CLOSE_OBJECT] + t')
    ensures ShownMembers(v, vs) == ShownMembers(w, ws) && t == t'
    decreases v, 0, |vs|
  {
    hide C.IsJsValue, C.SerializeMembers, C.Serialize, C.Less, Shown, Tree;
    PrintsStep(v, vs);
    PrintsStep(w, ws);
    var after := if |vs| == 1 then [CLOSE_OBJECT] + t else [COMMA] + MembersText(TreeMembers(v, vs[1..]),
        [CLOSE_OBJECT] + t);
    var after' := if |ws| == 1 then [CLOSE_OBJECT] + t'
        else [COMMA] + MembersText(TreeMembers(w, ws[1..]), [CLOSE_OBJECT] + t');
    var value, value' := ValueText(Tree(vs[0].value), after), ValueText(Tree(ws[0].value), after');
    BareText(Tree(vs[0].value), after);
    BareText(Tree(ws[0].value), after');
    NameComplete([], vs[0].name, [], value);
    NameComplete([], ws[0].name, [], value');
    SameTextSameShown(vs[0].value, ws[0].value, after, after');
    if |vs| == 1 || |ws| == 1 {
      After(CLOSE_OBJECT, t, t');
      assert vs[1..] == [] && ws[1..] == [];
    } else {
      After(COMMA, MembersText(TreeMembers(v, vs[1..]), [CLOSE_OBJECT] + t),
          MembersText(TreeMembers(w, ws[1..]), [CLOSE_OBJECT] + t'));
      MemberTexts(v, vs[1..], w, ws[1..], t, t');
    }
  }

  /** Two canonical texts are equal exactly when the printer sees the same value, holes and all. */
  lemma SameTextIff(v: C.JsValue, w: C.JsValue)
    requires C.IsJsValue(v) && C.Canonicalize(v).Ok? && C.IsJsValue(w) && C.Canonicalize(w).Ok?
    ensures C.Canonicalize(v) == C.Canonicalize(w) <==> Shown(v) == Shown(w)
  {
    ShownPrintsSame(v);
    ShownPrintsSame(w);
    if C.Canonicalize(v) == C.Canonicalize(w) {
      TreeText(v, []);
      TreeText(w, []);
      SameTextSameShown(v, w, [], []);
    }
  }
}
