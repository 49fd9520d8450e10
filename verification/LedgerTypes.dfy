/**
 The records of the trade contract and the containers it keeps them in. Amounts are microdollars,
 quantities milliamounts and times milliseconds, all of the source's widths: a step that would
 overflow one panics, as the contract is built with overflow checks.
 */
module LedgerTypes {
  import opened Wrappers

  type Id = string

  /** A NEAR account id; among other things it has no colon in it. */
  type AccountId = a: string | ':' !in a witness ""

  const U32_MAX: nat := 0xFFFF_FFFF
  const U64_MAX: nat := 0xFFFF_FFFF_FFFF_FFFF
  const U128_MAX: nat := 0xFFFF_FFFF_FFFF_FFFF_FFFF_FFFF_FFFF_FFFF

  // ---- Containers ----

  /** An insertion-ordered map (`IterableMap`) from which nothing is ever removed. */
  datatype Table<T> = Table(keys: seq<Id>, rows: map<Id, T>) {
    predicate Has(k: Id) { k in rows }

    ghost predicate Ok() {
      && (forall i, j :: 0 <= i < j < |keys| ==> keys[i] != keys[j])
      && (forall k :: k in keys <==> k in rows)
    }

    function Put(k: Id, v: T): Table<T> {
      Table(if k in rows then keys else keys + [k], rows[k := v])
    }
  }

  function EmptyTable<T>(): Table<T> {
    Table([], map[])
  }

  /** `LookupMap::get(..).unwrap_or_default()` of a vector. */
  function Entry<T>(m: map<string, seq<T>>, k: string): seq<T> {
    if k in m then m[k] else []
  }

  // ---- Ids ----

  function Numeral(n: nat): string {
    if n < 10 then ["0123456789"[n]] else Numeral(n / 10) + ["0123456789"[n % 10]]
  }

  function IdFor(prefix: string, n: nat): Id {
    prefix + Numeral(n)
  }

  lemma {:induction false} NumeralInjective(m: nat, n: nat)
    requires Numeral(m) == Numeral(n)
    ensures m == n
    decreases m
  {
    var a, b := Numeral(m), Numeral(n);
    assert a[|a| - 1] == "0123456789"[m % 10] && b[|b| - 1] == "0123456789"[n % 10];
    DigitInjective(m % 10, n % 10);
    NumeralLength(m);
    NumeralLength(n);
    if m >= 10 && n >= 10 {
      assert a[..|a| - 1] == Numeral(m / 10) && b[..|b| - 1] == Numeral(n / 10);
      NumeralInjective(m / 10, n / 10);
    }
  }

  lemma NumeralLength(n: nat)
    ensures |Numeral(n)| == 1 <==> n < 10
    ensures |Numeral(n)| >= 1
  {
    if n >= 10 { NumeralNonempty(n / 10); }
  }

  lemma NumeralNonempty(n: nat)
    ensures |Numeral(n)| >= 1
  {
  }

  lemma DigitInjective(c: nat, d: nat)
    requires c < 10 && d < 10 && "0123456789"[c] == "0123456789"[d]
    ensures c == d
  {
    var s := "0123456789";
    assert s[0] == '0' && s[1] == '1' && s[2] == '2' && s[3] == '3' && s[4] == '4';
    assert s[5] == '5' && s[6] == '6' && s[7] == '7' && s[8] == '8' && s[9] == '9';
  }

  /** Sequential ids never repeat. */
  lemma IdInjective(prefix: string, m: nat, n: nat)
    requires IdFor(prefix, m) == IdFor(prefix, n)
    ensures m == n
  {
    assert IdFor(prefix, m)[|prefix|..] == Numeral(m) && IdFor(prefix, n)[|prefix|..] == Numeral(n);
    NumeralInjective(m, n);
  }

  // ---- Text ----

  /** Unicode's White_Space, as `trim` uses it. */
  predicate IsWhiteSpace(c: char) {
    || '\t' <= c <= '\r' || c == ' ' || c == '\U{0085}' || c == '\U{00a0}' || c == '\U{1680}' ||
       '\U{2000}' <= c <= '\U{200a}'
    || c == '\U{2028}' || c == '\U{2029}' || c == '\U{202f}' || c == '\U{205f}' || c == '\U{3000}'
  }

  /** Nothing is left of it after `trim`. */
  predicate Blank(s: string) {
    forall i :: 0 <= i < |s| ==> IsWhiteSpace(s[i])
  }

  /** `is_ascii_digit` */
  function DigitCount(s: string): nat {
    if s == [] then 0 else (if '0' <= s[0] <= '9' then 1 else 0) + DigitCount(s[1..])
  }

  /** `str::len` counts bytes of UTF-8. */
  function Utf8Length(s: string): nat {
    if s == [] then 0
    else (if s[0] < '\U{0080}' then 1 else if s[0] < '\U{0800}' then 2 else if s[0] < '\U{10000}' then 3
        else 4) + Utf8Length(s[1..])
  }

  // ---- Parties ----

  datatype Reputation = Reputation(completed: nat, disputed: nat, onTime: nat, accuracy: nat, score: nat)

  const NEW_REPUTATION := Reputation(0, 0, 0, 10000, 10000)

  function Recomputed(r: Reputation): Reputation {
    if r.completed == 0 then r.(score := 10000)
    else
      var penalty := r.disputed * 10000 / r.completed;
      var base := if penalty <= 10000 then 10000 - penalty else 0;
      r.(score := base * r.accuracy / 10000)
  }

  datatype Party = Party(reputation: Reputation, agents: seq<AccountId>)

  // ---- Intents, listings, offers ----

  datatype IntentStatus = IntentPosted | IntentContracted | IntentCancelled

  datatype Intent = Intent(
    buyer: AccountId, quantity: nat, requiredCerts: seq<string>, earliest: nat, latest: nat,
    ceiling: nat, catalog: Option<Id>, expires: nat, status: IntentStatus)

  datatype Cert = Cert(kind: string, active: bool, expires: nat)

  datatype ListingStatus = ListingActive | ListingContracted | ListingWithdrawn

  datatype Listing = Listing(
    seller: AccountId, lot: Option<Id>, quantity: nat, earliest: nat, latest: nat,
    price: nat, certs: seq<Cert>, expires: nat, status: ListingStatus)

  datatype Freight = Freight(buyerPays: bool, estimated: nat, allowance: nat, quotedAt: nat, quoteExpires: nat)

  /** `lpPool` is the mode in which a liquidity pool finances the invoice; otherwise escrow pays. */
  datatype Finance = Finance(
    netDays: nat, pacaCovered: bool, feeBps: nat, lpPool: bool, pool: Option<Id>, financer: Option<AccountId>)

  datatype OfferTarget = OnIntent(intent: Id) | OnListing(listing: Id)

  datatype OfferStatus = OfferSubmitted | OfferShortlisted | OfferAccepted | OfferRetracted

  datatype Offer = Offer(
    target: OfferTarget, offerer: AccountId, quantity: nat, finance: Option<Finance>, freight: Option<Freight>,
        total: nat,
    status: OfferStatus)

  // ---- Contracts, fulfillments, settlements ----

  datatype ContractStatus =
    | Active | InFulfillment | Delivered | Settled | Disputed | ResolvedBuyer | ResolvedSeller | Cancelled

  datatype Contract = Contract(
    intent: Option<Id>, listing: Option<Id>, offer: Id, buyer: AccountId, seller: AccountId, lot: Option<Id>,
    quantity: nat, finance: Option<Finance>, freight: Option<Freight>, total: nat, windowHours: nat,
    arbitrator: Option<AccountId>,
    status: ContractStatus)

  datatype FulfillmentStatus = SellerAttested | Complete | DisputeOpened

  datatype Fulfillment = Fulfillment(contract: Id, signedAt: nat, status: FulfillmentStatus)

  datatype Settlement = Settlement(contract: Id, fulfillment: Id, gross: nat, net: nat, at: nat)

  // ---- Lots and tracking events ----

  datatype LotStatus = Available | PartiallyAllocated | FullyAllocated | Fulfilled | Spoiled | Donated | Recalled

  datatype InputRef = InputRef(lot: Id, amount: nat)

  datatype Provenance = Provenance(from: AccountId, to: AccountId, amount: nat, contract: Id, at: nat)

  datatype Lot = Lot(
    owner: AccountId, origin: AccountId, total: nat, available: nat, status: LotStatus,
    catalog: Id, inputs: seq<InputRef>, provenance: seq<Provenance>)

  datatype CteKind = Growing | Creating | Receiving | Transforming | Shipping

  datatype Cte = Cte(kind: CteKind, lot: Id, output: Option<Id>, actor: AccountId, amount: nat, at: nat)

  // ---- Catalogs and finance pools ----

  datatype Catalog = Catalog(owner: AccountId, version: nat)

  datatype Pool = Pool(account: AccountId, maxRateBps: nat, funds: nat, active: bool)

  // ---- Relationships and agreements ----

  datatype Tier = New | Established | Preferred | Strategic

  function DeriveTier(trades: nat, volume: nat, hasAgreement: bool): Tier {
    var usd := volume / 1_000_000;
    if hasAgreement && usd >= 250_000 then Strategic
    else if trades >= 10 || usd >= 50_000 || hasAgreement then Preferred
    else if trades >= 3 then Established
    else New
  }

  datatype Relationship = Relationship(trades: nat, volume: nat, onTimeRate: nat, tier: Tier, agreements: seq<Id>)

  const NEW_RELATIONSHIP := Relationship(0, 0, 10000, New, [])

  datatype Agreement = Agreement(buyer: AccountId, seller: AccountId, buyerSigned: bool, sellerSigned: bool,
      active: bool)

  /** String order, as `sort` uses it. */
  predicate Before(a: string, b: string) {
    b != [] && (a == [] || a[0] < b[0] || (a[0] == b[0] && Before(a[1..], b[1..])))
  }

  lemma {:induction false} BeforeTotal(a: string, b: string)
    ensures Before(a, b) || Before(b, a) || a == b
    ensures !(Before(a, b) && Before(b, a))
  {
    if a != [] && b != [] {
      BeforeTotal(a[1..], b[1..]);
      if a[0] == b[0] && a[1..] == b[1..] {
        assert a == [a[0]] + a[1..] && b == [b[0]] + b[1..];
      }
    }
  }

  /** The key of a pair of accounts: sorted and joined with a colon. */
  function PairKey(a: AccountId, b: AccountId): string {
    if Before(b, a) then b + ":" + a else a + ":" + b
  }

  lemma {:induction false} ColonSplits(a: string, b: string, c: string, d: string)
    requires ':' !in a && ':' !in c && a + ":" + b == c + ":" + d
    ensures a == c && b == d
  {
    var s, t := a + ":" + b, c + ":" + d;
    assert s[0] == t[0];
    if a == [] || c == [] {
      assert s[1..] == b || a != [];
      assert t[1..] == d || c != [];
    } else {
      assert s[1..] == a[1..] + ":" + b && t[1..] == c[1..] + ":" + d;
      ColonSplits(a[1..], b, c[1..], d);
      assert a == [a[0]] + a[1..] && c == [c[0]] + c[1..];
    }
  }

  /** The key does not depend on the order of the two accounts and names no other pair. */
  lemma PairKeyNamesThePair(a: AccountId, b: AccountId, c: AccountId, d: AccountId)
    ensures PairKey(a, b) == PairKey(c, d) <==> (a == c && b == d) || (a == d && b == c)
  {
    BeforeTotal(a, b);
    BeforeTotal(c, d);
    if PairKey(a, b) == PairKey(c, d) {
      var p, q := if Before(b, a) then b else a, if Before(b, a) then a else b;
      var r, t := if Before(d, c) then d else c, if Before(d, c) then c else d;
      ColonSplits(p, q, r, t);
    }
  }

  // ---- The audit trail ----

  datatype EventType =
    | EvIntentPosted | EvIntentCancelled | EvListingActivated | EvListingWithdrawn | EvOfferSubmitted | EvOfferRetracted
    | EvContractCreated | EvContractEscrowLocked | EvSellerAttested | EvBuyerAttested | EvFulfillmentDisputed
    | EvContractResolvedBuyer | EvContractResolvedSeller | EvSettlementCreated | EvEscrowReleased
    | EvAgreementProposed | EvAgreementActivated | EvTierUpdated | EvCatalogCreated
    | EvLotCreated | EvLotDisposed | EvLotTransferred | EvLotTransformed | EvCteRecorded | EvPartyIdentityUpdated
    | EvCatalogUpdated | EvCoaAnchored | EvPoolRegistered | EvFinancingRequested | EvFinancingConfirmed

  datatype AuditEvent = AuditEvent(entity: string, kind: EventType, actor: string, at: nat)

  // ---- The whole state ----

  datatype State = State(
    owner: AccountId,
    disputeWindowHours: nat,
    parties: map<AccountId, Party>,
    catalogs: Table<Catalog>,
    lots: Table<Lot>,
    intents: Table<Intent>,
    listings: Table<Listing>,
    offers: Table<Offer>,
    contracts: Table<Contract>,
    fulfillments: Table<Fulfillment>,
    settlements: Table<Settlement>,
    agreements: Table<Agreement>,
    relationships: map<string, Relationship>,
    pools: map<Id, Pool>,
    ctes: Table<Cte>,
    cteIndex: map<Id, seq<Id>>,
    log: seq<AuditEvent>,
    logIndex: map<string, seq<nat>>,
    counter: nat)

  /** What a call leaves: nothing changed (the runtime reverts a panic), or a new state and the id it returns. */
  datatype Outcome = Panic | Done(state: State, id: Id)
}
