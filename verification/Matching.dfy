/**
 Matching of intents and listings: who is eligible for whom, how good a match it is, and the ranked lists
 that both sides of the market are given. Arithmetic that overflows panics and ends the query.
 */
module Matching {
  import opened Wrappers
  import opened LedgerTypes
  import opened LedgerSteps
  import opened LedgerTracing

  // ---- Eligibility ----

  datatype Reason =
    | QuantityBelow
    | MissingCertification(kind: string)
    | PriceAboveCeiling
    | WindowsApart
    | CatalogMismatch
    | ListingExpired
    | IntentExpired

  predicate Certified(certs: seq<Cert>, kind: string, now: nat) {
    exists k :: 0 <= k < |certs| && certs[k].kind == kind && certs[k].active && certs[k].expires > now
  }

  predicate Overlap(intent: Intent, listing: Listing) {
    listing.earliest <= intent.latest && intent.earliest <= listing.latest
  }

  /** What a match takes. */
  predicate Eligible(intent: Intent, listing: Listing, now: nat, catalog: Option<Id>) {
    && intent.quantity <= listing.quantity
    && (forall k :: 0 <= k < |intent.requiredCerts| ==> Certified(listing.certs, intent.requiredCerts[k], now))
    && listing.price <= intent.ceiling
    && Overlap(intent, listing)
    && (intent.catalog.Some? && catalog.Some? ==> intent.catalog == catalog)
    && now < listing.expires && now < intent.expires
  }

  method HasCertification(certs: seq<Cert>, kind: string, now: nat) returns (found: bool)
    ensures found <==> Certified(certs, kind, now)
  {
    for i := 0 to |certs|
      invariant forall k :: 0 <= k < i ==> !(certs[k].kind == kind && certs[k].active && certs[k].expires > now)
    {
      if certs[i].kind == kind && certs[i].active && certs[i].expires > now { return true; }
    }
    found := false;
  }

  /** Everything that speaks against a match; nothing does exactly when it is eligible. */
  method ReasonsAgainst(intent: Intent, listing: Listing, now: nat, catalog: Option<Id>) returns (reasons: seq<Reason>)
    ensures reasons == [] <==> Eligible(intent, listing, now, catalog)
    ensures forall kind :: MissingCertification(kind) in reasons ==>
              kind in intent.requiredCerts &&
              !Certified(listing.certs, kind, now)
  {
    hide Certified;
    reasons := [];
    if listing.quantity < intent.quantity { reasons := reasons + [QuantityBelow]; }
    ghost var enough := reasons == [];
    for i := 0 to |intent.requiredCerts|
      invariant reasons == [] <==> enough && forall k :: 0 <= k < i ==>
                Certified(listing.certs, intent.requiredCerts[k], now)
      invariant forall kind :: MissingCertification(kind) in reasons ==>
                  kind in intent.requiredCerts &&
                  !Certified(listing.certs, kind, now)
    {
      var has := HasCertification(listing.certs, intent.requiredCerts[i], now);
      if !has { reasons := reasons + [MissingCertification(intent.requiredCerts[i])]; }
    }
    if listing.price > intent.ceiling { reasons := reasons + [PriceAboveCeiling]; }
    if listing.latest < intent.earliest || listing.earliest > intent.latest { reasons := reasons + [WindowsApart]; }
    if intent.catalog.Some? && catalog.Some? && intent.catalog.value != catalog.value {
      reasons := reasons + [CatalogMismatch];
    }
    if listing.expires <= now { reasons := reasons + [ListingExpired]; }
    if intent.expires <= now { reasons := reasons + [IntentExpired]; }
  }

  // ---- Score ----

  function Least(a: nat, b: nat): nat { if a < b then a else b }
  function Most(a: nat, b: nat): nat { if a < b then b else a }

  /** `as u32` */
  function AsU32(n: nat): nat {
    n % 0x1_0000_0000
  }

  function PriceScore(ceiling: nat, ask: nat): Option<nat> {
    if ceiling == 0 then Some(2500)
    else if SatSub(ceiling, ask) * 10000 > U128_MAX then None
    else
      var below := SatSub(ceiling, ask) * 10000 / ceiling;
      Some(Least(AsU32(Least(below, 10000)) * 2500 / 10000, 2500))
  }

  function SharedWindow(intent: Intent, listing: Listing): nat {
    SatSub(Least(listing.latest, intent.latest), Most(listing.earliest, intent.earliest))
  }

  function IntentWindow(intent: Intent): nat {
    Most(SatSub(intent.latest, intent.earliest), 1)
  }

  function TimingScore(intent: Intent, listing: Listing): Option<nat> {
    var shared := SharedWindow(intent, listing);
    if shared * 2500 > U64_MAX then None else Some(Least(AsU32(shared * 2500 / IntentWindow(intent)), 2500))
  }

  function ReputationScore(reputation: nat): nat {
    Least(Least(reputation, 10000) * 2500 / 10000, 2500)
  }

  function DepthScore(intent: Intent, listing: Listing, catalogMatched: bool): nat {
    var extra := SatSub(|listing.certs|, |intent.requiredCerts|);
    Least((if catalogMatched then 1500 else 0) + Least(Least(extra, 5) * 200, 1000), 2500)
  }

  /** The score of an eligible match, or nothing where a product overflows. */
  function Score(intent: Intent, listing: Listing, reputation: nat, catalogMatched: bool): Option<nat> {
    match (PriceScore(intent.ceiling, listing.price), TimingScore(intent, listing))
    case (Some(price), Some(timing)) => Some(price + timing + ReputationScore(reputation) + DepthScore(intent,
        listing, catalogMatched))
    case _ => None
  }

  lemma ShareOfWindow(shared: nat, window: nat)
    requires shared <= window && window > 0
    ensures shared * 2500 / window <= 2500
  {
    var q := shared * 2500 / window;
    assert shared * 2500 == q * window + (shared * 2500) % window;
    if q > 2500 { Exceeds(q, window, shared); }
  }

  lemma Exceeds(q: nat, window: nat, shared: nat)
    requires q > 2500 && shared <= window && window > 0
    ensures q * window > shared * 2500
  {
    assert q * window == 2500 * window + (q - 2500) * window;
    TimesPositive(q - 2500, window);
  }

  lemma {:induction false} TimesPositive(m: nat, n: nat)
    requires m > 0 && n > 0
    ensures m * n > 0
  {
    if m > 1 {
      TimesPositive(m - 1, n);
      assert m * n == (m - 1) * n + n;
    }
  }

  /** The window shared is part of the intent's own, so the cast to u32 cuts nothing off. */
  lemma TimingIsNotCut(intent: Intent, listing: Listing)
    ensures SharedWindow(intent, listing) <= IntentWindow(intent)
    ensures var pct := SharedWindow(intent, listing) * 2500 / IntentWindow(intent);
            pct <= 2500 && AsU32(pct) == pct
  {
    ShareOfWindow(SharedWindow(intent, listing), IntentWindow(intent));
  }

  lemma PriceIsNotCut(ceiling: nat, ask: nat)
    ensures PriceScore(ceiling, ask).Some? ==> PriceScore(ceiling, ask).value <= 2500
    ensures AsU32(Least(ask, 10000)) == Least(ask, 10000)
  {
  }

  /** The two products of a score fit: ceiling less price in 128 bits, the shared window in 64. */
  predicate Scorable(intent: Intent, listing: Listing) {
    && (intent.ceiling > 0 ==> SatSub(intent.ceiling, listing.price) * 10000 <= U128_MAX)
    && SharedWindow(intent, listing) * 2500 <= U64_MAX
  }

  /** Four parts of at most 2500 each: the score is on its scale, whatever the inputs. */
  lemma ScoreIsOnScale(intent: Intent, listing: Listing, reputation: nat, catalogMatched: bool)
    ensures Score(intent, listing, reputation, catalogMatched).Some? ==>
            Score(intent, listing, reputation, catalogMatched).value <= 10000
  {
    PriceIsNotCut(intent.ceiling, listing.price);
  }

  // ---- Verdicts ----

  datatype Verdict = Overflows | NoMatch | Match(score: nat)

  function Judge(intent: Intent, listing: Listing, now: nat, reputation: Option<nat>, catalog: Option<Id>): Verdict {
    if !Eligible(intent, listing, now, catalog) then NoMatch
    else
      match Score(intent, listing, if reputation.Some? then reputation.value else 10000, intent.catalog.Some? &&
          catalog == intent.catalog)
      case None => Overflows
      case Some(score) => Match(score)
  }

  function ReputationOf(s: State, listing: Listing): Option<nat> {
    if listing.seller in s.parties then Some(s.parties[listing.seller].reputation.score) else None
  }

  function CatalogOf(s: State, listing: Listing): Option<Id> {
    if listing.lot.Some? && s.lots.Has(listing.lot.value) then Some(s.lots.rows[listing.lot.value].catalog) else None
  }

  /** How an intent and a listing stand to each other now. */
  function Between(s: State, intent: Id, listing: Id, now: nat): Verdict
    requires s.intents.Has(intent) && s.listings.Has(listing)
  {
    var l := s.listings.rows[listing];
    Judge(s.intents.rows[intent], l, now, ReputationOf(s, l), CatalogOf(s, l))
  }

  /** A query panics on a pair exactly if the pair is eligible and one of the products does not fit. */
  lemma OverflowsIff(intent: Intent, listing: Listing, now: nat, reputation: Option<nat>, catalog: Option<Id>)
    ensures Judge(intent, listing, now, reputation, catalog).Overflows? <==>
            Eligible(intent, listing, now, catalog) && !Scorable(intent, listing)
    ensures Judge(intent, listing, now, reputation, catalog).NoMatch? <==> !Eligible(intent, listing, now, catalog)
  {
    hide Eligible;
  }

  method CheckListing(intent: Intent, listing: Listing, now: nat, reputation: Option<nat>, catalog: Option<Id>)
      returns (v: Verdict)
    ensures v == Judge(intent, listing, now, reputation, catalog)
  {
    hide Eligible, Score;
    var reasons := ReasonsAgainst(intent, listing, now, catalog);
    if reasons != [] { return NoMatch; }
    var matched := intent.catalog.Some? && catalog == intent.catalog;
    var score := Score(intent, listing, if reputation.Some? then reputation.value else 10000, matched);
    v := if score.None? then Overflows else Match(score.value);
  }

  // ---- Ranking ----

  datatype Ranked = Ranked(intent: Id, listing: Id, score: nat)

  predicate Descending(rs: seq<Ranked>) {
    forall i, j :: 0 <= i < j < |rs| ==> rs[i].score >= rs[j].score
  }

  /** Puts one after all that score as much. */
  function Insert(rs: seq<Ranked>, r: Ranked): seq<Ranked> {
    if rs == [] || rs[|rs| - 1].score >= r.score then rs + [r]
    else Insert(rs[..|rs| - 1], r) + [rs[|rs| - 1]]
  }

  /** The stable sort by falling score. */
  function Sorted(rs: seq<Ranked>): seq<Ranked> {
    if rs == [] then [] else Insert(Sorted(rs[..|rs| - 1]), rs[|rs| - 1])
  }

  /** Those of one score, in order. */
  function WithScore(rs: seq<Ranked>, score: nat): seq<Ranked> {
    if rs == [] then []
    else WithScore(rs[..|rs| - 1], score) + if rs[|rs| - 1].score == score then [rs[|rs| - 1]] else []
  }

  lemma {:induction false} InsertHas(rs: seq<Ranked>, r: Ranked)
    ensures multiset(Insert(rs, r)) == multiset(rs) + multiset{r}
  {
    if !(rs == [] || rs[|rs| - 1].score >= r.score) {
      InsertHas(rs[..|rs| - 1], r);
      assert rs == rs[..|rs| - 1] + [rs[|rs| - 1]];
    }
  }

  lemma {:induction false} InsertAtLeast(rs: seq<Ranked>, r: Ranked, bound: nat)
    requires r.score >= bound && forall k :: 0 <= k < |rs| ==> rs[k].score >= bound
    ensures forall k :: 0 <= k < |Insert(rs, r)| ==> Insert(rs, r)[k].score >= bound
  {
    if !(rs == [] || rs[|rs| - 1].score >= r.score) { InsertAtLeast(rs[..|rs| - 1], r, bound); }
  }

  lemma {:induction false} InsertDescends(rs: seq<Ranked>, r: Ranked)
    requires Descending(rs)
    ensures Descending(Insert(rs, r))
  {
    if !(rs == [] || rs[|rs| - 1].score >= r.score) {
      InsertDescends(rs[..|rs| - 1], r);
      InsertAtLeast(rs[..|rs| - 1], r, rs[|rs| - 1].score);
    }
  }

  lemma {:induction false} SortedHas(rs: seq<Ranked>)
    ensures multiset(Sorted(rs)) == multiset(rs)
  {
    hide Insert;
    if rs != [] {
      var before, last := rs[..|rs| - 1], rs[|rs| - 1];
      SortedHas(before);
      InsertHas(Sorted(before), last);
      assert rs == before + [last];
    }
  }

  lemma {:induction false} SortedDescends(rs: seq<Ranked>)
    ensures Descending(Sorted(rs))
  {
    hide Insert;
    if rs != [] {
      SortedDescends(rs[..|rs| - 1]);
      hide Descending;
      InsertDescends(Sorted(rs[..|rs| - 1]), rs[|rs| - 1]);
    }
  }

  lemma {:induction false} SortedKeepsOrder(rs: seq<Ranked>, score: nat)
    ensures WithScore(Sorted(rs), score) == WithScore(rs, score)
  {
    hide Insert;
    if rs != [] {
      SortedKeepsOrder(rs[..|rs| - 1], score);
      InsertIsStable(Sorted(rs[..|rs| - 1]), rs[|rs| - 1], score);
    }
  }

  /** Falling scores, the same matches, and those of one score in the order they came in. */
  lemma SortedIsStable(rs: seq<Ranked>, score: nat)
    ensures Descending(Sorted(rs)) && multiset(Sorted(rs)) == multiset(rs)
    ensures WithScore(Sorted(rs), score) == WithScore(rs, score)
  {
    SortedDescends(rs);
    SortedHas(rs);
    SortedKeepsOrder(rs, score);
  }

  lemma AppendWithScore(rs: seq<Ranked>, r: Ranked, score: nat)
    ensures WithScore(rs + [r], score) == if r.score == score then WithScore(rs, score) + [r] else WithScore(rs, score)
  {
    assert (rs + [r])[..|rs|] == rs;
  }

  lemma {:induction false} InsertIsStable(rs: seq<Ranked>, r: Ranked, score: nat)
    ensures WithScore(Insert(rs, r), score) == if r.score == score then WithScore(rs, score) + [r]
            else WithScore(rs, score)
  {
    if rs == [] || rs[|rs| - 1].score >= r.score {
      AppendWithScore(rs, r, score);
    } else {
      var before, last := rs[..|rs| - 1], rs[|rs| - 1];
      InsertIsStable(before, r, score);
      AppendWithScore(Insert(before, r), last, score);
    }
  }

  // ---- Both sides of the market ----

  /** All matches of an intent, in the order the active listings were made; nothing if a score overflows. */
  function ListingsFor(s: State, intent: Id, keys: seq<Id>, now: nat): Option<seq<Ranked>>
    requires s.intents.Has(intent)
  {
    if keys == [] then Some([])
    else
      var l := keys[|keys| - 1];
      match ListingsFor(s, intent, keys[..|keys| - 1], now)
      case None => None
      case Some(found) =>
        if !s.listings.Has(l) || !s.listings.rows[l].status.ListingActive? then Some(found)
        else
          match Between(s, intent, l, now)
          case Overflows => None
          case NoMatch => Some(found)
          case Match(score) => Some(found + [Ranked(intent, l, score)])
  }

  function IntentsFor(s: State, listing: Id, keys: seq<Id>, now: nat): Option<seq<Ranked>>
    requires s.listings.Has(listing)
  {
    if keys == [] then Some([])
    else
      var i := keys[|keys| - 1];
      match IntentsFor(s, listing, keys[..|keys| - 1], now)
      case None => None
      case Some(found) =>
        if !s.intents.Has(i) || !s.intents.rows[i].status.IntentPosted? then Some(found)
        else
          match Between(s, i, listing, now)
          case Overflows => None
          case NoMatch => Some(found)
          case Match(score) => Some(found + [Ranked(i, listing, score)])
  }

  /** What an intent is shown: the best matches first. Nothing where the source panics. */
  function MatchesForIntent(s: State, intent: Id, now: nat): Option<seq<Ranked>> {
    if !s.intents.Has(intent) then None
    else
      match ListingsFor(s, intent, s.listings.keys, now)
      case None => None
      case Some(found) => Some(Sorted(found))
  }

  function MatchesForListing(s: State, listing: Id, now: nat): Option<seq<Ranked>> {
    if !s.listings.Has(listing) then None
    else
      match IntentsFor(s, listing, s.intents.keys, now)
      case None => None
      case Some(found) => Some(Sorted(found))
  }

  method FindMatchesForIntent(s: State, intent: Id, now: nat, offset: nat, limit: nat)
      returns (page: Option<seq<Ranked>>)
    ensures page == match MatchesForIntent(s, intent, now)
                    case None => None
                    case Some(all) => Some(Page(all, offset, limit))
  {
    hide Judge, Sorted;
    if !s.intents.Has(intent) { return None; }
    var matches: seq<Ranked> := [];
    for k := 0 to |s.listings.keys|
      invariant ListingsFor(s, intent, s.listings.keys[..k], now) == Some(matches)
    {
      assert s.listings.keys[..k + 1][..k] == s.listings.keys[..k];
      var l := s.listings.keys[k];
      if s.listings.Has(l) && s.listings.rows[l].status.ListingActive? {
        var listing := s.listings.rows[l];
        var v := CheckListing(s.intents.rows[intent], listing, now, ReputationOf(s, listing), CatalogOf(s, listing));
        if v.Overflows? {
          OverflowEndsListings(s, intent, s.listings.keys, now, k + 1);
          return None;
        }
        if v.Match? { matches := matches + [Ranked(intent, l, v.score)]; }
      }
    }
    assert s.listings.keys[..|s.listings.keys|] == s.listings.keys;
    page := Some(Page(Sorted(matches), offset, limit));
  }

  method FindMatchesForListing(s: State, listing: Id, now: nat, offset: nat, limit: nat)
      returns (page: Option<seq<Ranked>>)
    ensures page == match MatchesForListing(s, listing, now)
                    case None => None
                    case Some(all) => Some(Page(all, offset, limit))
  {
    hide Judge, Sorted;
    if !s.listings.Has(listing) { return None; }
    var l := s.listings.rows[listing];
    var matches: seq<Ranked> := [];
    for k := 0 to |s.intents.keys|
      invariant IntentsFor(s, listing, s.intents.keys[..k], now) == Some(matches)
    {
      assert s.intents.keys[..k + 1][..k] == s.intents.keys[..k];
      var i := s.intents.keys[k];
      if s.intents.Has(i) && s.intents.rows[i].status.IntentPosted? {
        var v := CheckListing(s.intents.rows[i], l, now, ReputationOf(s, l), CatalogOf(s, l));
        if v.Overflows? {
          OverflowEndsIntents(s, listing, s.intents.keys, now, k + 1);
          return None;
        }
        if v.Match? { matches := matches + [Ranked(i, listing, v.score)]; }
      }
    }
    assert s.intents.keys[..|s.intents.keys|] == s.intents.keys;
    page := Some(Page(Sorted(matches), offset, limit));
  }

  lemma {:induction false} OverflowEndsListings(s: State, intent: Id, keys: seq<Id>, now: nat, k: nat)
    requires s.intents.Has(intent) && k <= |keys| && ListingsFor(s, intent, keys[..k], now).None?
    ensures ListingsFor(s, intent, keys, now).None?
    decreases |keys| - k
  {
    hide Between;
    if k < |keys| {
      assert keys[..k + 1][..k] == keys[..k];
      OverflowEndsListings(s, intent, keys, now, k + 1);
    } else {
      assert keys[..k] == keys;
    }
  }

  lemma {:induction false} OverflowEndsIntents(s: State, listing: Id, keys: seq<Id>, now: nat, k: nat)
    requires s.listings.Has(listing) && k <= |keys| && IntentsFor(s, listing, keys[..k], now).None?
    ensures IntentsFor(s, listing, keys, now).None?
    decreases |keys| - k
  {
    hide Between;
    if k < |keys| {
      assert keys[..k + 1][..k] == keys[..k];
      OverflowEndsIntents(s, listing, keys, now, k + 1);
    } else {
      assert keys[..k] == keys;
    }
  }

  lemma {:induction false} ListingsForHas(s: State, intent: Id, keys: seq<Id>, now: nat, r: Ranked)
    requires s.intents.Has(intent) && ListingsFor(s, intent, keys, now).Some?
    ensures r in ListingsFor(s, intent, keys, now).value <==>
            r.intent == intent && r.listing in keys && s.listings.Has(r.listing) &&
            s.listings.rows[r.listing].status.ListingActive? &&
            Between(s, intent, r.listing, now) == Match(r.score)
  {
    hide Between;
    if keys != [] {
      ListingsForHas(s, intent, keys[..|keys| - 1], now, r);
      assert keys == keys[..|keys| - 1] + [keys[|keys| - 1]];
    }
  }

  lemma {:induction false} IntentsForHas(s: State, listing: Id, keys: seq<Id>, now: nat, r: Ranked)
    requires s.listings.Has(listing) && IntentsFor(s, listing, keys, now).Some?
    ensures r in IntentsFor(s, listing, keys, now).value <==>
            r.listing == listing && r.intent in keys && s.intents.Has(r.intent) &&
            s.intents.rows[r.intent].status.IntentPosted? &&
            Between(s, r.intent, listing, now) == Match(r.score)
  {
    hide Between;
    if keys != [] {
      IntentsForHas(s, listing, keys[..|keys| - 1], now, r);
      assert keys == keys[..|keys| - 1] + [keys[|keys| - 1]];
    }
  }

  lemma SameMembers(a: seq<Ranked>, b: seq<Ranked>, r: Ranked)
    requires multiset(a) == multiset(b)
    ensures r in a <==> r in b
  {
    assert r in a <==> r in multiset(a);
    assert r in b <==> r in multiset(b);
  }

  /** The intent is there, and every active listing it is eligible for can be scored against it. */
  predicate IntentAnswerable(s: State, intent: Id, now: nat) {
    s.intents.Has(intent) && forall l :: l in s.listings.rows ==>
        ScorableIfEligible(s, s.intents.rows[intent], s.listings.rows[l], now)
  }

  predicate ScorableIfEligible(s: State, intent: Intent, listing: Listing, now: nat) {
    listing.status.ListingActive? && Eligible(intent, listing, now, CatalogOf(s, listing)) ==> Scorable(intent, listing)
  }

  /** The listing is there, and every posted intent it is eligible for can be scored against it. */
  predicate ListingAnswerable(s: State, listing: Id, now: nat) {
    s.listings.Has(listing) && forall i :: i in s.intents.rows ==>
        ScorableIfAsked(s, s.intents.rows[i], s.listings.rows[listing], now)
  }

  predicate ScorableIfAsked(s: State, intent: Intent, listing: Listing, now: nat) {
    intent.status.IntentPosted? && Eligible(intent, listing, now, CatalogOf(s, listing)) ==> Scorable(intent, listing)
  }

  lemma {:induction false} ListingsForEnds(s: State, intent: Id, keys: seq<Id>, now: nat)
    requires s.intents.Has(intent)
    ensures ListingsFor(s, intent, keys, now).Some? <==>
            forall l :: l in keys && s.listings.Has(l) ==>
            ScorableIfEligible(s, s.intents.rows[intent], s.listings.rows[l], now)
  {
    hide Judge, Eligible, Scorable;
    if keys != [] {
      var last := keys[|keys| - 1];
      ListingsForEnds(s, intent, keys[..|keys| - 1], now);
      assert keys == keys[..|keys| - 1] + [last];
      if s.listings.Has(last) {
        var l := s.listings.rows[last];
        OverflowsIff(s.intents.rows[intent], l, now, ReputationOf(s, l), CatalogOf(s, l));
      }
    }
  }

  lemma {:induction false} IntentsForEnds(s: State, listing: Id, keys: seq<Id>, now: nat)
    requires s.listings.Has(listing)
    ensures IntentsFor(s, listing, keys, now).Some? <==>
            forall i :: i in keys && s.intents.Has(i) ==>
            ScorableIfAsked(s, s.intents.rows[i], s.listings.rows[listing], now)
  {
    hide Judge, Eligible, Scorable;
    if keys != [] {
      var last := keys[|keys| - 1];
      IntentsForEnds(s, listing, keys[..|keys| - 1], now);
      assert keys == keys[..|keys| - 1] + [last];
      if s.intents.Has(last) {
        var l := s.listings.rows[listing];
        OverflowsIff(s.intents.rows[last], l, now, ReputationOf(s, l), CatalogOf(s, l));
      }
    }
  }

  /** The query of an intent succeeds exactly if nothing it would score overflows. */
  lemma IntentAnsweredIff(s: State, intent: Id, now: nat)
    requires s.listings.Ok()
    ensures MatchesForIntent(s, intent, now).Some? <==> IntentAnswerable(s, intent, now)
  {
    hide ScorableIfEligible, ListingsFor, Sorted;
    if s.intents.Has(intent) { ListingsForEnds(s, intent, s.listings.keys, now); }
  }

  lemma ListingAnsweredIff(s: State, listing: Id, now: nat)
    requires s.intents.Ok()
    ensures MatchesForListing(s, listing, now).Some? <==> ListingAnswerable(s, listing, now)
  {
    hide ScorableIfAsked, IntentsFor, Sorted;
    if s.listings.Has(listing) { IntentsForEnds(s, listing, s.intents.keys, now); }
  }

  /**
   What an intent is shown is exactly its eligible active listings, each with its score, best first; and it is
   shown nothing at all exactly if one of them cannot be scored.
   */
  lemma IntentSeesExactly(s: State, intent: Id, now: nat, r: Ranked)
    requires s.listings.Ok()
    ensures MatchesForIntent(s, intent, now).Some? <==> IntentAnswerable(s, intent, now)
    ensures IntentAnswerable(s, intent, now) ==>
              var all := MatchesForIntent(s, intent, now).value;
              && Descending(all)
              && (r in all <==> r.intent == intent && s.listings.Has(r.listing) &&
                                s.listings.rows[r.listing].status.ListingActive? &&
                                Between(s, intent, r.listing, now) == Match(r.score))
  {
    hide Between, Descending, ListingsFor, Sorted, IntentAnswerable;
    IntentAnsweredIff(s, intent, now);
    if MatchesForIntent(s, intent, now).Some? {
      var found := ListingsFor(s, intent, s.listings.keys, now).value;
      SortedIsStable(found, 0);
      ListingsForHas(s, intent, s.listings.keys, now, r);
      SameMembers(Sorted(found), found, r);
    }
  }

  lemma ListingSeesExactly(s: State, listing: Id, now: nat, r: Ranked)
    requires s.intents.Ok()
    ensures MatchesForListing(s, listing, now).Some? <==> ListingAnswerable(s, listing, now)
    ensures ListingAnswerable(s, listing, now) ==>
              var all := MatchesForListing(s, listing, now).value;
              && Descending(all)
              && (r in all <==> r.listing == listing && s.intents.Has(r.intent) &&
                                s.intents.rows[r.intent].status.IntentPosted? &&
                                Between(s, r.intent, listing, now) == Match(r.score))
  {
    hide Between, Descending, IntentsFor, Sorted, ListingAnswerable;
    ListingAnsweredIff(s, listing, now);
    if MatchesForListing(s, listing, now).Some? {
      var found := IntentsFor(s, listing, s.intents.keys, now).value;
      SortedIsStable(found, 0);
      IntentsForHas(s, listing, s.intents.keys, now, r);
      SameMembers(Sorted(found), found, r);
    }
  }

  /** The intent's query shows the listing with this score. */
  predicate IntentIsShown(s: State, intent: Id, listing: Id, now: nat, score: nat) {
    MatchesForIntent(s, intent, now).Some? && Ranked(intent, listing, score) in MatchesForIntent(s, intent, now).value
  }

  predicate ListingIsShown(s: State, intent: Id, listing: Id, now: nat, score: nat) {
    MatchesForListing(s, listing, now).Some? && Ranked(intent, listing, score) in MatchesForListing(s, listing,
        now).value
  }

  /**
   An open pair that matches with a score is shown to either side exactly if that side's query can be answered.
   So the two sides agree, unless the pair matches and only one of the two queries can be answered.
   */
  lemma BothSidesAgree(s: State, intent: Id, listing: Id, now: nat, score: nat)
    requires s.intents.Ok() && s.listings.Ok() && s.intents.Has(intent) && s.listings.Has(listing)
    requires s.intents.rows[intent].status.IntentPosted? && s.listings.rows[listing].status.ListingActive?
    ensures IntentIsShown(s, intent, listing, now, score) <==>
            Between(s, intent, listing, now) == Match(score) && IntentAnswerable(s, intent, now)
    ensures ListingIsShown(s, intent, listing, now, score) <==>
            Between(s, intent, listing, now) == Match(score) && ListingAnswerable(s, listing, now)
    ensures (IntentIsShown(s, intent, listing, now, score) <==> ListingIsShown(s, intent, listing, now, score)) <==>
            (Between(s, intent, listing, now) == Match(score) ==>
            (IntentAnswerable(s, intent, now) <==> ListingAnswerable(s, listing, now)))
    ensures Between(s, intent, listing, now) == Match(score) ==> score <= 10000
  {
    hide Descending, Sorted, ListingsFor, IntentsFor, Eligible, Score, IntentAnswerable, ListingAnswerable;
    var r := Ranked(intent, listing, score);
    IntentSeesExactly(s, intent, now, r);
    ListingSeesExactly(s, listing, now, r);
    var l := s.listings.rows[listing];
    var reputation, i := ReputationOf(s, l), s.intents.rows[intent];
    ScoreIsOnScale(i, l, if reputation.Some? then reputation.value else 10000, i.catalog.Some? &&
        CatalogOf(s, l) == i.catalog);
  }

  /** Where no ceiling and no window is extreme, every query is answered, and the two sides agree on every pair. */
  lemma ModerateMarketAgrees(s: State, intent: Id, listing: Id, now: nat, score: nat)
    requires s.intents.Ok() && s.listings.Ok() && s.intents.Has(intent) && s.listings.Has(listing)
    requires s.intents.rows[intent].status.IntentPosted? && s.listings.rows[listing].status.ListingActive?
    requires forall i :: i in s.intents.rows ==>
               s.intents.rows[i].ceiling * 10000 <= U128_MAX &&
               s.intents.rows[i].latest * 2500 <= U64_MAX
    ensures IntentIsShown(s, intent, listing, now, score) <==> ListingIsShown(s, intent, listing, now, score)
    ensures IntentAnswerable(s, intent, now) && ListingAnswerable(s, listing, now)
  {
    hide Eligible, MatchesForIntent, MatchesForListing;
    BothSidesAgree(s, intent, listing, now, score);
  }

  // ---- A listing that cannot be queried ----

  const SELLER: AccountId := "s"
  const BUYER: AccountId := "b"
  const GREEDY: AccountId := "g"

  const GOODS := Listing(SELLER, None, 1000, 0, 0, 5, [], 100, ListingActive)
  const WANTED := Intent(BUYER, 1000, [], 0, 0, 5, None, 100, IntentPosted)
  const ANYTHING := Intent(GREEDY, 0, [], 0, 0, U128_MAX, None, 100, IntentPosted)

  const OFFER_GOODS := Transaction(SELLER, 0, CallPostListing(GOODS, None, None))
  const ASK := Transaction(BUYER, 0, CallPostIntent(WANTED, None, None))
  const ASK_ANYTHING := Transaction(GREEDY, 0, CallPostIntent(ANYTHING, None, None))

  function Register(who: AccountId): Transaction {
    Transaction(who, 0, CallRegisterParty)
  }

  lemma Ids()
    ensures IdFor("lst-", 1) == "lst-1" && IdFor("int-", 2) == "int-2" && IdFor("int-", 3) == "int-3"
  {
    assert Numeral(1) == "1" && Numeral(2) == "2" && Numeral(3) == "3";
  }

  lemma Registered(owner: AccountId)
    ensures var s := After(After(After(Initial(owner), Register(SELLER)), Register(BUYER)), Register(GREEDY));
            && s == Initial(owner).(parties := s.parties) && {SELLER, BUYER, GREEDY} <= s.parties.Keys
            && s.parties[SELLER].reputation == NEW_REPUTATION
  {
  }

  lemma Offered(s: State)
    requires s.counter == 0 && SELLER in s.parties && s.listings == EmptyTable()
    ensures var s' := After(s, OFFER_GOODS);
            && s'.counter == 1 && s'.parties == s.parties && s'.intents == s.intents
            && s'.listings == Table(["lst-1"], map["lst-1" := GOODS])
  {
    hide IdFor;
    Ids();
  }

  lemma Asked(s: State)
    requires s.counter == 1 && BUYER in s.parties && s.intents == EmptyTable()
    ensures var s' := After(s, ASK);
            && s'.counter == 2 && s'.parties == s.parties && s'.listings == s.listings
            && s'.intents == Table(["int-2"], map["int-2" := WANTED])
  {
    hide IdFor;
    Ids();
  }

  lemma AskedAnything(s: State)
    requires s.counter == 2 && GREEDY in s.parties && s.intents == Table(["int-2"], map["int-2" := WANTED])
    ensures var s' := After(s, ASK_ANYTHING);
            && s'.parties == s.parties && s'.listings == s.listings
            && s'.intents == Table(["int-2", "int-3"], map["int-2" := WANTED, "int-3" := ANYTHING])
  {
    hide IdFor;
    Ids();
  }

  lemma MarketOf(owner: AccountId)
    ensures var s := History(owner, [Register(SELLER), Register(BUYER), Register(GREEDY), OFFER_GOODS, ASK,
            ASK_ANYTHING]);
            && s.listings == Table(["lst-1"], map["lst-1" := GOODS])
            && s.intents == Table(["int-2", "int-3"], map["int-2" := WANTED, "int-3" := ANYTHING])
            && SELLER in s.parties && s.parties[SELLER].reputation == NEW_REPUTATION
  {
    hide After, History;
    var s := After(After(After(Initial(owner), Register(SELLER)), Register(BUYER)), Register(GREEDY));
    Registered(owner);
    Offered(s);
    Asked(After(s, OFFER_GOODS));
    AskedAnything(After(After(s, OFFER_GOODS), ASK));
    HistoryOfSix(owner, Register(SELLER), Register(BUYER), Register(GREEDY), OFFER_GOODS, ASK, ASK_ANYTHING);
  }

  lemma AnythingCannotBeScored(s: State)
    ensures !ScorableIfAsked(s, ANYTHING, GOODS, 0)
  {
  }

  lemma GoodsMatchWanted(s: State)
    requires SELLER in s.parties && s.parties[SELLER].reputation == NEW_REPUTATION
    requires s.intents.Has("int-2") && s.intents.rows["int-2"] == WANTED && s.listings.Has("lst-1") &&
             s.listings.rows["lst-1"] == GOODS
    ensures Between(s, "int-2", "lst-1", 0) == Match(2500) && ScorableIfEligible(s, WANTED, GOODS, 0)
  {
  }

  /**
   One intent with a ceiling at the end of its range: the listing's query panics, while another intent is still
   shown the listing.
   */
  lemma OneIntentBlocksAListing(owner: AccountId)
    ensures var s := History(owner, [Register(SELLER), Register(BUYER), Register(GREEDY), OFFER_GOODS, ASK,
            ASK_ANYTHING]);
            && IntentIsShown(s, "int-2", "lst-1", 0, 2500)
            && MatchesForListing(s, "lst-1", 0) == None
  {
    hide History, MatchesForIntent, MatchesForListing, Between, ScorableIfAsked, ScorableIfEligible;
    MarketOf(owner);
    var s := History(owner, [Register(SELLER), Register(BUYER), Register(GREEDY), OFFER_GOODS, ASK, ASK_ANYTHING]);
    AnythingCannotBeScored(s);
    GoodsMatchWanted(s);
    assert s.intents.rows["int-3"] == ANYTHING && "int-3" in s.intents.rows;
    assert !ListingAnswerable(s, "lst-1", 0);
    assert IntentAnswerable(s, "int-2", 0);
    assert s.intents.Ok() && s.listings.Ok();
    BothSidesAgree(s, "int-2", "lst-1", 0, 2500);
    ListingAnsweredIff(s, "lst-1", 0);
  }
}
