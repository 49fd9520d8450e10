# Direct Trade Protocol: verified model

Five parts of the Direct Trade Protocol, modelled in Dafny 4.11 and proved. `dafny verify dfyconfig.toml`
checks all of it.

**The trade contract** (`Ledger*.dfy`, `Matching.dfy`). The NEAR contract is a class, `DtpContract`, whose
fields are the contract's stores and whose methods change them in place, step for step as the Rust methods do.
Each method is proved against a pure step function that says when the call panics and what the new state is.
`Run` dispatches a call, `After` is one transaction (a panic leaves the state as it was), and `History` is
the state after a whole run of transactions by any callers at any times. Every successful call is shown to
make one of nine changes, every change keeps the invariant, and the theorems in `LedgerHistory.dfy` hold of
every reachable state. Time need not be monotone for any of them.

**The signed-JSON boundary** (`Json*.dfy`, `SafeJson*.dfy`, `Canonical*.dfy`, `MemberNames.dfy`). Text is a
sequence of UTF-16 code units. The grammar of RFC 8259 is given as concrete syntax trees with a proved parser;
the stack-driven scanner is a method proved against a recursive scan, and the scan against the trees. The
canonical printer is proved to round-trip, to be one-to-one up to what it does not show, and never to write what
the scanner refuses.

**Keys** (`Base58.dfy`, `Edwards*.dfy`, `AssociativityIdentity.dfy`, `Ed25519Curve.dfy`, `Keys.dfy`,
`PointEncodings.dfy`, and `NumberTheory.dfy`, `QuadraticResidues.dfy`, `SmallPrimes.dfy`, `Pocklington.dfy`,
`PrimeCertificates.dfy` below them). Radix conversion and the texts of keys; the points of the curve with its
addition as a commutative group; scalar multiplication; point encodings; and the order a key must have. Nothing
about the numbers of Ed25519 is assumed: that p and L are prime is proved with certificates, and that d is not
a square modulo p is derived from the prime certificate of p.

**SHA-256** (`Sha256*.dfy`). FIPS 180-4 over 32-bit words, and the JavaScript computation on signed 32-bit
values and typed arrays that refines it.

**Release gates** (`Gate*.dfy`). The topological sort, the closure fingerprint as text and hash, and the
fail-closed evaluation.

## Hypotheses

Two facts that are not about this code appear as preconditions of the theorems that need them:

- the hash that the release gates use is one-to-one on byte strings (`OneToOne`), only in
  `FreshEvidenceFixesInputs` and the lemmas below it;
- a NEAR account id has no colon in it.

## What the proofs found

- **Repeated settlement.** `trigger_auto_settlement` leaves the fulfillment SellerAttested, so it can be called
  again, and the buyer can still attest, each time with another settlement, provenance entry and trade in the
  books. `SettledTwice` gives a run, `OverdueSettles` shows that the timer can always go on,
  `BuyerSettlesOpen` that the buyer's attestation settles once more whatever the timer has done, and
  `FirstSettlementIff` gives the exact condition: a settlement is the contract's first iff the contract is not
  yet Settled. The books still count every settlement correctly.
- **One intent can block a listing's query.** Scores are computed in checked 128-bit and 64-bit arithmetic, and
  posting an intent bounds neither its ceiling nor its window. One extreme intent that a listing is eligible for
  makes `find_matches_for_listing` panic for that listing, while other intents are still shown it
  (`OneIntentBlocksAListing`). `IntentSeesExactly` and `ListingSeesExactly` give the exact condition under which
  each query is answered, and `BothSidesAgree` when the two sides see the same.
- **Disposed lots.** The documentation of `dispose_lot` asks for no active allocations. A lot with contracted or
  transformed quantity is disposed of iff the caller may act for its owner, the disposition is a legal one and
  the lot is PartiallyAllocated (`AllocatedIsDisposedIff`). A disposition is overwritten iff a transaction
  succeeds that forms a contract on the lot, transforms it or settles a contract it backs
  (`DispositionIsLostIff`); `DisposedAndUsedUp` is a run in which a spoiled lot is used up.
- **Standing agreements.** An active agreement counts towards its pair's tier iff the pair had a relationship in
  the state in which the activating signature was made (`AgreementCountsIff`); one signed before the pair's first
  trade never counts, even after later trades (`SignedButNotCounted` is a run).
- **Sparse arrays.** An array hole is printed as nothing at all, so the canonical text of such a value is not
  JSON unless the hole is alone in its array, and never reads back as a null. `RoundTripExactly` has both
  conditions as equivalences, and `SameTextIff` says which values share a text.
- **Secret keys.** `encodeSecretKey` checks no lengths: `SecretKeyRoundTrip` says what comes back from every seed
  and public key, and that exactly those of 32 and 32 bytes come back as they were.
- **Long messages.** The padded size is computed with a signed shift, so messages whose length plus 72 reaches
  2^31 fail. `Sha256Of` says so exactly.
- **Member names.** `docs/security/json-member-names.md` says that the printer still writes names that need
  an escape; the printer refuses them (`sdk/src/canonical.ts` lines 39-45), and the model follows the code.

## Model

| member | source | states |
|---|---|---|
| JsonParser.ParserDecidesGrammar | sdk/src/safe-json.ts:102-106 | The reference parser returns a document for a text exactly when the document is a JSON text of RFC 8259 and prints to that text: the grammar is unambiguous and the parser is sound and complete |
| JsonParser.DocumentReads | sdk/src/safe-json.ts:102-106 | What the parser makes of any printed tree, absent array elements included: a tree iff every absence stands alone in its brackets, nothing otherwise |
| SafeJson.SkipString | sdk/src/safe-json.ts:66-73 | The inner loop over a string stops at the closing quotation mark, or in a name at the first reverse solidus |
| SafeJson.SkipNumber | sdk/src/safe-json.ts:88-97 | The inner loop over a number stops at its end or reports the first fraction or exponent mark |
| SafeJson.AssertSafeJsonText | sdk/src/safe-json.ts:58-99 | The one-pass loop with its stacks returns the verdict (code and offset) of the recursive scan for every text, valid or not, and examines at most twice as many characters as the text has |
| SafeJsonAgreement.ScanValue | sdk/src/safe-json.ts:58-99 | In any stack, before any rest of the text that cannot continue it, scanning a value refuses at the first fault of its tree or hands on the same stack after its last character |
| SafeJsonAgreement.ScanMembers | sdk/src/safe-json.ts:74-86 | Scanning members of an open object refuses at the first faulty name or value, or leaves exactly their names added to the names seen |
| SafeJsonAgreement.ScanReadsTree | sdk/src/safe-json.ts:49-57 | Over every valid JSON text, the scan refuses exactly the first fault that the parsed tree has, with its code and offset |
| SafeJsonAgreement.FaultFree | sdk/src/safe-json.ts:49-57 | A tree has no fault iff no member name holds a reverse solidus, no object repeats a name and (on request) every number is an integer lexeme |
| SafeJsonAgreement.GuardMatchesParser | sdk/src/safe-json.ts:102-106 | For every text the parser accepts, the guard accepts it iff the parsed tree is safe |
| SafeJsonAgreement.HorizonAhead | sdk/src/safe-json.ts:58-99 | A refusal lies at or after the place the scan starts from, and before the end of what it has looked at |
| SafeJsonAgreement.Locality | sdk/src/safe-json.ts:53-55 | A refusal decided by what stands in a prefix stays the same whatever follows the prefix |
| SafeJsonAgreement.ValidPrefixDecides | sdk/src/safe-json.ts:53-55 | On a text that shares a prefix with a valid one, the scan refuses within the prefix exactly when the valid text has its fault there |
| JsonData.ReadersAgree | sdk/src/safe-json.ts:18-27 | On a text the guard accepts, any two conforming readers, whatever they do with escaped or repeated names or with fractions, read the same data |
| Canonical.SurrogateTestIsWellFormedness | sdk/src/canonical.ts:26-37 | The lone-surrogate pattern matches exactly the strings that are not well-formed UTF-16 |
| Canonical.CheckName | sdk/src/canonical.ts:40-45 | The loop accepts exactly the names that string escaping leaves as they are |
| Canonical.EscapeKeepsExactlySafe | sdk/src/canonical.ts:39-45 | Escaping changes a name iff it has a quotation mark, a reverse solidus or a control character, and never shortens it |
| Canonical.LessTotal | sdk/src/canonical.ts:62-65 | Comparison by UTF-16 code units is a strict total order |
| Canonical.LessTransitive | sdk/src/canonical.ts:62-65 | Comparison by UTF-16 code units is transitive |
| Canonical.InsertAscends | sdk/src/canonical.ts:84-85 | Inserting a new name keeps names in strictly ascending order |
| Canonical.SortedAscends | sdk/src/canonical.ts:84-85 | Sorting members with distinct names gives them in strictly ascending order |
| Canonical.EntriesAscend | sdk/src/canonical.ts:84-85 | The members written are in strict UTF-16 order of their names (section 3.2.3 of RFC 8785) |
| CanonicalRoundTrip.BodyOfEscape | sdk/src/canonical.ts:75-77 | What escaping writes is a JSON string body that reads back as the string |
| CanonicalRoundTrip.NumberReads | sdk/src/canonical.ts:72-74 | A number the printer accepts is written as an integer lexeme with that value, minus zero as 0 |
| CanonicalRoundTrip.TreeText | sdk/src/canonical.ts:67-97 | The text of the tree built for a printable value is what the printer returns, before any tail |
| CanonicalRoundTrip.SenderNeverBlocked | sdk/src/canonical.ts:39-45 | Whatever value the printer accepts, the scan accepts its text, with or without the integer rule |
| CanonicalRoundTrip.DocumentPrints | sdk/src/canonical.ts:67-102 | The printed text is the text of a well-formed tree without a fault |
| CanonicalRoundTrip.NormFieldsAre | sdk/src/canonical.ts:84-91 | The normal form of an object holds each defined member under its name and nothing else, whatever their order |
| CanonicalRoundTrip.NormEntries | sdk/src/canonical.ts:84-85 | Filtering and sorting the members does not change the normal form |
| CanonicalRoundTrip.CanonicalReadsBack | sdk/src/canonical.ts:67-102 | Parsing the canonical text of a value without array holes gives back its normal form: undefined items null, undefined members gone, minus zero zero |
| CanonicalRoundTrip.RoundTripExactly | sdk/src/canonical.ts:67-102 | For every printable value: the text is JSON iff every array hole is its array's only item, and it reads back as the normal form iff there is no hole |
| CanonicalRoundTrip.SparseArrayIsNotJson | sdk/src/canonical.ts:81-83 | The array with a hole and then 1 is printed as a left bracket, a comma, 1 and a right bracket, which no JSON parser accepts |
| CanonicalRoundTrip.CanonicalTextIsUnique | sdk/src/canonical.ts:62-102 | Two values without holes have the same canonical text iff their normal forms are equal |
| CanonicalUnique.ShownPrintsSame | sdk/src/canonical.ts:62-102 | Every value is printed like what the printer sees of it: defined members in order, undefined items as null, minus zero as 0, a lone array hole as nothing |
| CanonicalUnique.SameTextSameShown | sdk/src/canonical.ts:62-102 | If two printable values print alike before rests that may follow a value, the printer sees the same in both and the rests are equal: canonical text can be read in only one way, array holes included |
| CanonicalUnique.SameTextIff | sdk/src/canonical.ts:62-102 | Any two printable values, with holes or without, have the same canonical text iff the printer sees the same in both |
| MemberNames.AssertSafeMemberNames | sdk/src/safe-json.ts:123-141 | The worklist ends on every finite object graph, shared or cyclic, and refuses iff some reachable object has a name that needs an escape |
| MemberNames.UnsafeReachableIsUnsafe | sdk/src/safe-json.ts:123-141 | Where the graph below a reference is a tree, the walk refuses iff the tree has an unsafe name |
| MemberNames.PrinterRefusesUnsafe | sdk/src/canonical.ts:80-92 | On an undefined-free tree that is otherwise printable, the printer fails for a name iff the tree has an unsafe one, and succeeds otherwise |
| MemberNames.WalkAgreesWithPrinter | sdk/src/canonical.ts:39-45 | If the printer refuses a name the walk refuses too; on undefined-free, otherwise printable trees the two refuse together |
| LedgerTypes.IdInjective | contracts/src/lib.rs:105-108 | An id with a given prefix determines the counter it was made from, so ids never repeat |
| LedgerTypes.PairKeyNamesThePair | contracts/src/types.rs:1149-1153 | Two pairs of accounts have the same relationship key iff they are the same pair, either way round |
| LedgerEffects.EmitKeepsLog | contracts/src/lib.rs:114-123 | Appending one event keeps the audit index equal to a scan of the log |
| LedgerEffects.SettlementEffect | contracts/src/lib.rs:803-881 | All that a successful settlement changes: one settlement, the lot's owner and provenance, the contract's status, the pair's relationship, both reputations and the log |
| LedgerEffects.CreateLotMakes | contracts/src/lib.rs:1199-1234 | A successful call adds one lot owned by its origin, the caller, with everything available, and nothing else but one event |
| LedgerEffects.DisposeLotMakes | contracts/src/lib.rs:1238-1264 | A successful call changes the status of one Available or PartiallyAllocated lot to the disposition, and nothing else but one event |
| LedgerEffects.RecordCteMakes | contracts/src/lib.rs:1326-1539 | A successful call appends one tracking event about the lot, puts it under the lot in the index, and changes no lot |
| LedgerEffects.TransformLotMakes | contracts/src/lib.rs:1547-1684 | A successful call debits every input, adds one new lot, and appends one event indexed under every input and the new lot |
| LedgerEffects.AcceptCallMakes | contracts/src/lib.rs:557-698 | A successful call accepts one open offer, closes its intent or listing, forms one Active contract between the two sides and debits the listed lot |
| LedgerEffects.SellerAttestMakes | contracts/src/lib.rs:705-759 | A successful call adds the only fulfillment of an Active contract, which is then InFulfillment |
| LedgerEffects.BuyerAttestMakes | contracts/src/lib.rs:762-801 | A successful call settles the contract and completes the fulfillment |
| LedgerEffects.InitiateDisputeMakes | contracts/src/lib.rs:888-927 | A successful call moves an InFulfillment contract and its fulfillment to disputed |
| LedgerEffects.TriggerAutoSettlementMakes | contracts/src/lib.rs:931-951 | A successful call settles the contract and leaves every fulfillment as it was |
| LedgerEffects.ResolveDisputeMakes | contracts/src/lib.rs:954-1011 | A successful call settles a Disputed contract against the loser and leaves it resolved for the winner |
| LedgerEffects.CallMakes | contracts/src/lib.rs:167-1822 | Every successful call of the contract makes one of nine changes, and the one that the call is for; only the timer settles without completing the fulfillment |
| LedgerRecords.DebitAllEffect | contracts/src/lib.rs:1570-1588 | The debit loop takes from each lot exactly the sum of its inputs, repeated inputs counted, sets the status of the lots touched and leaves the others alone |
| LedgerRecords.TablesKept | contracts/src/lib.rs:105-108 | Every change keeps all stores duplicate-free with ids issued by the counter |
| LedgerRecords.RefsKept | contracts/src/lib.rs:557-698 | Every change keeps the references between stores pointing at something: no dangling party, lot or contract |
| LedgerRecords.TermsOfChange | contracts/src/lib.rs:803-849 | No change alters a contract's parties, lot or quantity |
| LedgerRecords.TradesOfChange | contracts/src/lib.rs:821-832 | A settlement appends one trade; every other change leaves all trades as they were |
| LedgerRecords.DrawsOfChange | contracts/src/lib.rs:629-633 | Forming a contract appends one draw; every other change leaves all draws as they were |
| LedgerRecords.TrackingsOfChange | contracts/src/lib.rs:1641-1661 | A tracking event appends one entry, a transform one with its inputs; every other change leaves all entries as they were |
| LedgerLots.ConservedKept | contracts/src/lib.rs:1268-1282 | Every change keeps each lot's total equal to what is available plus what contracts draw plus what transforms consume, with the status to match |
| LedgerLots.OwnedKept | contracts/src/lib.rs:1286-1319 | Every change keeps each lot's provenance the list of its settlements and its owner the last recipient |
| LedgerBooks.ScoreBounded | contracts/src/types.rs:186-195 | With no more disputes than trades the score is at most 10000, and recomputing it again changes nothing |
| LedgerBooks.AllRatedKept | contracts/src/lib.rs:2161-2170 | Every change keeps each party's record in step with its appearances in the settlements |
| LedgerBooks.StillOnTime | contracts/src/lib.rs:2201-2208 | The weighted average stays at 10000 when every trade is reported on time |
| LedgerBooks.AllRelatedKept | contracts/src/lib.rs:2172-2227 | Every change keeps each relationship in step with the settlements between the pair |
| LedgerBooks.BetweenIsOfThePair | contracts/src/types.rs:1149-1153 | The trades filed under a pair's key are exactly the trades between the two accounts, in either direction |
| LedgerTracing.CteIndexKept | contracts/src/lib.rs:1659-1670 | Every change keeps the lot index equal to a full scan of the tracking events |
| LedgerTracing.NamingAscends | contracts/src/lib.rs:1741-1746 | The scan for a lot is duplicate-free and has exactly the events that name it |
| LedgerTracing.PositionsAscend | contracts/src/lib.rs:2147-2155 | The scan for an entity is strictly increasing and has exactly the positions of its events |
| LedgerTracing.AboutIsAtPositions | contracts/src/lib.rs:2147-2155 | Reading the log at the scanned positions gives the events about the entity, in order |
| LedgerTracing.PagesConcatenate | contracts/src/lib.rs:2147-2155 | Consecutive pages concatenate to one larger page, and the pages from the start to the whole list |
| LedgerLifecycle.LifecycleKept | contracts/src/lib.rs:705-1011 | Every change keeps contracts, fulfillments and settlements in step |
| LedgerLifecycle.StatusMovesOn | contracts/src/lib.rs:705-1011 | A contract only goes from Active to InFulfillment, from there to Settled or Disputed, and from Disputed to one of the two resolutions |
| LedgerLifecycle.OnceKept | contracts/src/lib.rs:803-881 | Every change but a timed settlement keeps the number of settlements of each contract at most one |
| LedgerPrices.SaturationIsSafe | contracts/src/lib.rs:593-614 | If the saturating comparison passes, the landed cost is within the ceiling over unbounded integers |
| LedgerPrices.ComparisonIsExact | contracts/src/lib.rs:593-614 | When the ceiling product fits 128 bits, the saturating comparison passes iff the unbounded one does |
| LedgerPrices.PricedKept | contracts/src/lib.rs:557-698 | Every change keeps every intent-formed contract within its ceiling, and offers, intents and listings used at most once |
| LedgerHistory.InvariantKept | contracts/src/lib.rs:75-1822 | The whole invariant survives any transaction, by any caller at any time, successful or not |
| LedgerHistory.InvariantAlways | contracts/src/lib.rs:75-1822 | The whole invariant holds after every run |
| LedgerHistory.LotsAreConserved | contracts/src/lib.rs:1268-1282 | After every run: total = available + contracted + transformed; Available means untouched; FullyAllocated means nothing left |
| LedgerHistory.OwnershipFollowsSettlements | contracts/src/lib.rs:1286-1319 | After every run a lot's provenance is one entry for each settlement of each contract it backs, in order, and its owner is the last recipient or the origin |
| LedgerHistory.ReputationFollowsSettlements | contracts/src/lib.rs:2161-2170 | After every run a party's completed trades are its appearances as buyer and as seller, and are disputed plus on-time; the score is the recomputed one, at most 10000 |
| LedgerHistory.RelationshipFollowsSettlements | contracts/src/lib.rs:2172-2227 | After every run a relationship exists iff the pair has traded, counts and sums exactly the settlements between the two, and has the derived tier |
| LedgerHistory.ContractsAreInStep | contracts/src/lib.rs:705-1011 | After every run a contract is Active iff it has no fulfillment, has a settlement iff Settled or resolved, exactly one if resolved, and is never seen Delivered |
| LedgerHistory.DisputedSettlesAtResolution | contracts/src/lib.rs:954-1011 | After every run a disputed fulfillment's contract has no settlement before the ruling and exactly one after it, so none was also settled by the timer |
| LedgerHistory.TheFulfillmentIsFound | contracts/src/lib.rs:973-978 | After every run the arbitrator's scan finds, for the contract of any fulfillment, that very fulfillment |
| LedgerHistory.FinalIsFinal | contracts/src/lib.rs:705-1011 | A final status stays the same through any further run |
| LedgerHistory.SettledOnceIfUntimed | contracts/src/lib.rs:803-881 | In runs without the timer a contract has one settlement if it is final and none otherwise |
| LedgerHistory.FirstSettlementIff | contracts/src/lib.rs:931-951 | A transaction that settles a contract is its first settlement iff the contract was not already Settled: the exact condition under which settlements are unique |
| LedgerHistory.LandedCostWithinCeiling | contracts/src/lib.rs:593-614 | After every run each contract formed from an intent has goods total plus buyer-paid net freight at most ceiling * quantity / 1000, over unbounded integers |
| LedgerHistory.FormedOnce | contracts/src/lib.rs:566-588 | After every run no two contracts cite the same offer, intent or listing |
| LedgerHistory.AuditIndexIsAFullScan | contracts/src/lib.rs:114-123 | After every run the index entry of an entity is the strictly increasing list of exactly the positions of its events |
| LedgerHistory.LotIndexIsAFullScan | contracts/src/lib.rs:1326-1355 | After every run the index entry of a lot is the duplicate-free list, in recording order, of exactly the events naming it |
| LedgerTwice.OverdueSettles | contracts/src/lib.rs:931-951 | From any state in order, a call of the timer on an overdue fulfillment succeeds unless a counter is full, settles once more and leaves the fulfillment just as overdue |
| LedgerTwice.SettledTwice | contracts/src/lib.rs:931-951 | A concrete run of eight calls after which one contract has two settlements |
| LedgerTwice.BuyerSettlesOpen | contracts/src/lib.rs:762-801 | From any state in order, with a fulfillment still SellerAttested, the buyer's attestation settles the contract once more, however often the timer has settled it, and completes the fulfillment |
| LedgerDisposal.AllocatedIsDisposedIff | contracts/src/lib.rs:1236-1264 | After every run, a lot with contracted or transformed quantity is disposed of iff the caller may act for its owner, the disposition is Spoiled, Donated or Recalled and the lot is PartiallyAllocated: not, as documented, only without allocations |
| LedgerDisposal.OverwrittenByCall | contracts/src/lib.rs:1238-1264 | A successful call gives a disposed lot another status iff it forms a contract on it, transforms it or settles a contract it backs |
| LedgerDisposal.DispositionIsLostIff | contracts/src/lib.rs:1238-1264 | After every run, a transaction overwrites a disposition iff it succeeds and draws on the lot in one of those three ways; and then the lot is not disposed of any more |
| LedgerDisposal.DisposedAndUsedUp | contracts/src/lib.rs:1238-1282 | A concrete run after which a lot with 4 units under contract is Spoiled, and after one more transform FullyAllocated |
| LedgerAgreements.AgreementsKept | contracts/src/lib.rs:1022-1127 | In any transaction agreements only become active through a signature, active ones neither enter nor leave a relationship afterwards, and the signature enters its agreement iff the pair has a relationship |
| LedgerAgreements.AgreementsAlways | contracts/src/lib.rs:1022-1127 | After every run an agreement is active iff both have signed, and relationships note only active agreements of their own pair |
| LedgerAgreements.AgreementCountsIff | contracts/src/lib.rs:1105-1120 | After every run, an active agreement has been activated by one signature, and it is noted on its pair's relationship iff the relationship existed just before that signature |
| LedgerAgreements.SignedButNotCounted | contracts/src/lib.rs:1105-1120 | A concrete run that ends with an active agreement and one trade between its parties, whose relationship is still New where the agreement would make it Preferred |
| LedgerContract.DtpContract.constructor | contracts/src/lib.rs:75-99 | Starts from the empty ledger |
| LedgerContract.DtpContract.NextIdFor | contracts/src/lib.rs:105-108 | Returns the next id and advances the counter by one |
| LedgerContract.DtpContract.EmitEvent | contracts/src/lib.rs:114-123 | Appends the event and its position to the log and to the entity's index entry |
| LedgerContract.DtpContract.RegisterPartyCall | contracts/src/lib.rs:167-194 | Panics iff the caller is registered; otherwise adds the caller with a fresh record |
| LedgerContract.DtpContract.AttachToPartyCall | contracts/src/lib.rs:197-211 | Adding a certification or an attestation panics iff the caller is not registered, and changes nothing that is kept here |
| LedgerContract.DtpContract.UpdatePartyIdentityCall | contracts/src/lib.rs:216-259 | Panics iff the caller is not registered or a given number has not 13 (GLN) or 9 (DUNS) digits; otherwise only appends an event |
| LedgerContract.DtpContract.AuthorizeAgentCall | contracts/src/lib.rs:268-277 | Panics iff the caller is not registered or names itself; otherwise the agent is among the caller's agents, added at most once |
| LedgerContract.DtpContract.RevokeAgentCall | contracts/src/lib.rs:280-286 | Panics iff the caller is not registered; otherwise the agent is no longer among the caller's agents |
| LedgerContract.DtpContract.PostIntentCall | contracts/src/lib.rs:293-339 | Panics iff the caller is not registered or the finance or freight terms break their rules; otherwise stores the intent as the caller's, Posted |
| LedgerContract.DtpContract.CancelIntentCall | contracts/src/lib.rs:342-362 | Panics iff the intent is not the caller's or not Posted; otherwise it is Cancelled |
| LedgerContract.DtpContract.PostListingCall | contracts/src/lib.rs:371-433 | Panics iff the caller is not registered, terms break their rules, or the listed lot is not one the caller may act for, Available or PartiallyAllocated; otherwise stores the listing, Active |
| LedgerContract.DtpContract.WithdrawListingCall | contracts/src/lib.rs:436-455 | Panics iff the listing is not the caller's or not Active; otherwise it is Withdrawn |
| LedgerContract.DtpContract.SubmitOfferCall | contracts/src/lib.rs:462-526 | Panics iff the caller is not registered, terms break their rules or the target is not open; otherwise stores the offer, Submitted |
| LedgerContract.DtpContract.RetractOfferCall | contracts/src/lib.rs:529-548 | Panics iff the offer is not the caller's or not Submitted; otherwise it is Retracted |
| LedgerContract.DtpContract.CreateCatalogEntryCall | contracts/src/lib.rs:1135-1162 | Panics iff the caller is not registered; otherwise stores an entry of version 1 owned by the caller |
| LedgerContract.DtpContract.UpdateCatalogEntryCall | contracts/src/lib.rs:1166-1190 | Panics iff the caller may not act for the entry's owner or the version is at its end; otherwise the version goes up by one and the owner stays |
| LedgerContract.DtpContract.AnchorCoaCall | contracts/src/lib.rs:1696-1738 | Panics iff the caller may not act for the lot's owner, the hash is neither 64 bytes long nor a content id, or type or issuer is blank; otherwise only appends an event about the lot |
| LedgerContract.DtpContract.RegisterFinancePoolCall | contracts/src/lib.rs:1759-1796 | Panics iff the caller is not the contract owner, the id is taken or the rate exceeds 5000; otherwise stores the active pool |
| LedgerContract.DtpContract.ConfirmFinancingCall | contracts/src/lib.rs:1799-1822 | Panics iff the caller is not the account of an active pool or the contract asked for no pool; otherwise only appends an event about the contract |
| LedgerContract.DtpContract.CreateLotCall | contracts/src/lib.rs:1199-1234 | Panics iff the caller is not registered, the catalog entry is missing or the total is 0; otherwise stores an untouched lot owned by the caller |
| LedgerContract.DtpContract.DisposeLotCall | contracts/src/lib.rs:1238-1264 | Panics iff the caller may not act for the owner, the disposition is not a legal one or the lot is neither Available nor PartiallyAllocated; otherwise sets the status |
| LedgerContract.DtpContract.AllocateLotStep | contracts/src/lib.rs:1268-1282 | Debits the lot in place, or panics when it does not have the quantity |
| LedgerContract.DtpContract.TransferLotStep | contracts/src/lib.rs:1286-1319 | Moves ownership and appends a provenance entry in place |
| LedgerContract.DtpContract.WriteCte | contracts/src/lib.rs:1326-1355 | Stores the event, puts it once under its lot and its output lot, if any, in the index, and emits |
| LedgerContract.DtpContract.RecordCteCall | contracts/src/lib.rs:1359-1539 | Panics iff the caller is not registered or may not act for the lot's owner, or a growing or creating event has a blank commodity; otherwise records and indexes the event |
| LedgerContract.DtpContract.DebitInputs | contracts/src/lib.rs:1570-1588 | The loop over the inputs debits lots one after the other and equals the recursive debit, panics included |
| LedgerContract.DtpContract.IndexInputs | contracts/src/lib.rs:1662-1666 | The loop over the inputs indexes the event once under each |
| LedgerContract.DtpContract.MakeOutputStep | contracts/src/lib.rs:1590-1632 | Creates the output lot and emits its two events |
| LedgerContract.DtpContract.NoteTransformStep | contracts/src/lib.rs:1634-1681 | Records the event and indexes inputs and output |
| LedgerContract.DtpContract.TransformLotCall | contracts/src/lib.rs:1547-1684 | Panics iff the caller is not registered, there is no input or amount or catalog entry, or an input is missing, short after earlier inputs or not the caller's to use; otherwise debits inputs, stores output and event and indexes it |
| LedgerContract.DtpContract.FormContractStep | contracts/src/lib.rs:616-697 | Accepts the offer, debits the lot or panics, stores the contract, and emits its events, the request for financing among them iff the terms ask for a pool |
| LedgerContract.DtpContract.AcceptOfferCall | contracts/src/lib.rs:557-698 | Panics iff the offer is not open, the target is not the caller's and open, the landed total exceeds the ceiling or the lot is short; otherwise closes both papers and forms the contract with the sides the right way round |
| LedgerContract.DtpContract.AlreadyFulfilled | contracts/src/lib.rs:719-723 | The scan finds a fulfillment iff the contract has one |
| LedgerContract.DtpContract.SellerAttestCall | contracts/src/lib.rs:705-759 | Panics iff the caller is not the seller, the contract is not Active or InFulfillment, or it has a fulfillment; otherwise adds one and moves the contract on |
| LedgerContract.DtpContract.TotalOf | contracts/src/lib.rs:813 | The sum of the deductions, or a panic when it exceeds 128 bits |
| LedgerContract.DtpContract.UpdateReputationStep | contracts/src/lib.rs:2161-2170 | Counts one trade for a registered account and recomputes its score; panics when a counter is full |
| LedgerContract.DtpContract.UpdateRelationshipStep | contracts/src/lib.rs:2172-2227 | Adds one trade to the pair, from a fresh record if there is none, and emits |
| LedgerContract.DtpContract.RecordSettlementStep | contracts/src/lib.rs:810-849 | Stores the settlement, transfers the lot and marks the contract Settled |
| LedgerContract.DtpContract.RateParties | contracts/src/lib.rs:854-858 | Rates buyer, then seller, the loser as disputed |
| LedgerContract.DtpContract.ExecuteSettlementStep | contracts/src/lib.rs:803-881 | Settlement, relationship, both reputations and events in the order of the code, panicking iff one of their counters or sums is full or the lot is missing |
| LedgerContract.DtpContract.BuyerAttestCall | contracts/src/lib.rs:762-801 | Panics iff the caller is not the buyer, the fulfillment is not SellerAttested or the settlement panics; otherwise completes the fulfillment and settles, through the passing state Delivered |
| LedgerContract.DtpContract.InitiateDisputeCall | contracts/src/lib.rs:888-927 | Panics iff the caller is not the buyer, the contract is not InFulfillment or Delivered, or the window is over; otherwise contract and fulfillment are disputed |
| LedgerContract.DtpContract.TriggerAutoSettlementCall | contracts/src/lib.rs:931-951 | Panics iff the fulfillment is not SellerAttested, the window is not over or the settlement panics; otherwise settles for anyone who calls and leaves the fulfillment as it is |
| LedgerContract.DtpContract.FindFulfillmentOf | contracts/src/lib.rs:973-978 | The scan returns the first fulfillment of the contract in insertion order |
| LedgerContract.DtpContract.ResolveDisputeCall | contracts/src/lib.rs:954-1011 | Panics iff the caller is neither arbitrator nor owner, the contract is not Disputed or the settlement panics; otherwise settles against the loser, then overwrites the status with the ruling |
| LedgerContract.DtpContract.ProposeAgreementCall | contracts/src/lib.rs:1022-1078 | Panics iff one of the two is not registered; otherwise stores the agreement, signed by the caller on the caller's side only |
| LedgerContract.DtpContract.SignAgreementCall | contracts/src/lib.rs:1081-1127 | Panics iff the caller is not a side that has yet to sign; with both signatures the agreement is active, and noted once on the relationship only if the pair has traded |
| LedgerContract.DtpContract.RunCall | contracts/src/lib.rs:167-1822 | Any call of the contract, from any state, panics where the step function does and otherwise reaches its state |
| LedgerContract.DtpContract.GetLotCtes | contracts/src/lib.rs:1741-1746 | With the index in order, returns exactly the events naming the lot, in recording order |
| LedgerContract.DtpContract.GetAuditTrail | contracts/src/lib.rs:2147-2155 | With the index in order, returns the page of the events about the entity; panics only when offset + limit exceeds 64 bits |
| LedgerContract.Transact | contracts/src/lib.rs:68-99 | One transaction: a successful call leaves its new state, a panic leaves the stored state as it was |
| LedgerContract.RunAll | contracts/src/lib.rs:68-99 | Running transactions on the object reaches the state that the run is defined to reach, so every theorem about runs holds of the object |
| Matching.HasCertification | contracts/src/matching.rs:41-46 | Finds a certification iff one of the kind is active and unexpired |
| Matching.ReasonsAgainst | contracts/src/matching.rs:22-91 | No reason is given iff the listing is eligible, and each missing certification named really is required and missing |
| Matching.OverflowsIff | contracts/src/matching.rs:111-140 | Scoring panics iff the listing is eligible and the price difference times 10000 exceeds 128 bits or the shared window times 2500 exceeds 64 |
| Matching.CheckListing | contracts/src/matching.rs:22-103 | The verdict is the specified judgement: no match iff not eligible, otherwise the score, or a panic where checked arithmetic overflows |
| Matching.TimingIsNotCut | contracts/src/matching.rs:125-140 | The shared window is within the intent's, so the timing share is at most 2500 before the cast to 32 bits and the cast loses nothing |
| Matching.PriceIsNotCut | contracts/src/matching.rs:113-122 | The price share is at most 2500 and its cast to 32 bits loses nothing |
| Matching.ScoreIsOnScale | contracts/src/matching.rs:111-160 | Every score is at most 10000 |
| Matching.SortedIsStable | contracts/src/lib.rs:1895 | The sort is by descending score, a permutation, and stable |
| Matching.FindMatchesForIntent | contracts/src/lib.rs:1861-1901 | The page is the asked-for part of the sorted list of all matches |
| Matching.FindMatchesForListing | contracts/src/lib.rs:1907-1947 | The page is the asked-for part of the sorted list of all matches |
| Matching.IntentSeesExactly | contracts/src/lib.rs:1861-1901 | For every state: the query for an intent is answered iff the intent exists and no active eligible listing makes its score overflow; the answer is in descending order and has exactly the active eligible listings with their scores |
| Matching.ListingSeesExactly | contracts/src/lib.rs:1907-1947 | For every state: the query for a listing is answered iff the listing exists and no posted intent it is eligible for makes its score overflow; the answer is in descending order and has exactly the posted eligible intents with their scores |
| Matching.BothSidesAgree | contracts/src/lib.rs:1861-1947 | A posted intent and an active listing are shown to either side with a score iff they match with it and that side's query is answered; so the two sides agree iff the pair does not match or both or neither of the queries are answered |
| Matching.ModerateMarketAgrees | contracts/src/lib.rs:1861-1947 | In a state in which no ceiling times 10000 exceeds 128 bits and no end of a window times 2500 exceeds 64, both queries are always answered and the two sides agree on every pair |
| Matching.OneIntentBlocksAListing | contracts/src/lib.rs:293-339 | A concrete run after which one intent is shown a listing, while the query for that listing panics because of another intent with an extreme ceiling |
| GateOrder.Visitor.Visit | sdk/scripts/release-gates.ts:115-120 | The depth-first visit ends on every graph, cyclic or not; success lists the gate after its dependencies, failure means a missing dependency or a cycle |
| GateOrder.TopologicalOrder | sdk/scripts/release-gates.ts:113-123 | An order is returned iff dependencies are closed and acyclic, and then it lists every gate once, after its dependencies |
| GateOrder.ListedIsClosedAndAcyclic | sdk/scripts/release-gates.ts:113-123 | A graph with such an order is closed and acyclic |
| GateEvaluation.ClosureWalk.Include | sdk/scripts/release-gates.ts:131-133 | The closure walk adds only what is reachable and leaves nothing reachable out |
| GateEvaluation.ClosureOf | sdk/scripts/release-gates.ts:131-133 | The walk collects exactly the gates reachable from a gate |
| GateText.SortedIsInjective | sdk/scripts/release-gates.ts:56-60 | The recursive serializer is one-to-one: different values have different texts, whatever their keys, strings, numbers and nesting |
| GateText.Utf8IsInjective | sdk/scripts/release-gates.ts:44 | Different texts have different UTF-8 bytes |
| GateText.Utf8IsText | sdk/scripts/release-gates.ts:49-54 | Bytes that pass the test for well-formed UTF-8 are the encoding of a text, and decoding and encoding gives them back, which is how the source tells text from binary files |
| GateText.NormalisedText | sdk/scripts/release-gates.ts:49-54 | What is hashed of a text file is the text with every CR LF replaced by LF; a binary file is hashed as it is |
| GateEvaluation.GateFingerprint | sdk/scripts/release-gates.ts:130-140 | The fingerprint is the hash of the serialized snapshot of the whole dependency closure, its checks and the hashes of all files they name |
| GateResults.CheckArtifacts | sdk/scripts/release-gates.ts:178-181 | Each missing or changed artifact is a reason and makes the status stale |
| GateResults.CheckTheRun | sdk/scripts/release-gates.ts:173-178 | The conditions on a run, in their order, with the status of the last one that fails |
| GateResults.EvaluateCheck | sdk/scripts/release-gates.ts:165-183 | A check is valid iff it is clean, and adds no reason then |
| GateResults.CleanLeavesNoReason | sdk/scripts/release-gates.ts:165-182 | A check leaves no reason iff its last observation passed, is fresh, ran cleanly with the graph's command, is independent and has unchanged artifacts |
| GateResults.AlongIsEvaluated | sdk/scripts/release-gates.ts:160-187 | Evaluating in dependency order gives each gate the result its definition asks for |
| GateTheorems.PassedIffNoReasons | sdk/scripts/release-gates.ts:160-187 | A gate is passed iff it has no reasons |
| GateTheorems.BlockedBelow | sdk/scripts/release-gates.ts:185 | Every gate that depends, at any distance, on one that is not passed is exactly blocked |
| GateTheorems.PassedIffClosureClean | sdk/scripts/release-gates.ts:160-187 | A gate is passed iff every check of every gate it depends on, itself included, is clean |
| GateTheorems.EvaluationIsUnique | sdk/scripts/release-gates.ts:160-187 | The results do not depend on which dependency order is used |
| GateTheorems.OnlyDependentsChange | sdk/scripts/release-gates.ts:166-167 | Appending an observation changes results only for its gate and those that depend on it |
| GateTheorems.NotAPassIsNotHidden | sdk/scripts/release-gates.ts:166-170 | Appending an observation that is not a pass makes its gate not passed and all its dependents blocked, whatever was recorded before |
| GateFingerprints.SameTextSameStrings | sdk/scripts/release-gates.ts:56-60 | Two string lists have the same text iff they are the same list, so the test that an observation ran the graph's command is exact |
| GateFingerprints.SnapshotHashInjective | sdk/scripts/release-gates.ts:130-140 | With a one-to-one hash, equal fingerprints come from equal snapshots: same gates, checks and hashes of inputs |
| GateFingerprints.FreshEvidenceFixesInputs | sdk/scripts/release-gates.ts:130-182 | With a one-to-one hash: if one recorded observation makes a check clean under a gate in two settings, it is the same gate, and closures, gates, checks and the newline-normalised contents of every file they name are the same |
| GateReport.EvaluateChecks | sdk/scripts/release-gates.ts:163-184 | The inner loop collects all reasons of a gate's checks and records which are clean |
| GateReport.EvaluateDependencies | sdk/scripts/release-gates.ts:185 | The loop over dependencies adds a reason for each that is not passed |
| GateReport.EvaluateGate | sdk/scripts/release-gates.ts:161-187 | One turn of the loop gives a gate its result |
| GateReport.EvaluateGates | sdk/scripts/release-gates.ts:161-187 | The loop gives every gate its result and every check its state |
| GateReport.FindOpenBlockers | sdk/scripts/release-gates.ts:188 | The blocking findings that are open or have a closure check that is not clean |
| GateReport.ReportOn | sdk/scripts/release-gates.ts:160-190 | The report has all results, the open blockers, and ready iff there are none and all gates are passed |
| GateReport.Evaluate | sdk/scripts/release-gates.ts:142-190 | A report is returned iff graph and evidence are valid, in uniqueness of ids and lists, formats and references, and dependencies are acyclic |
| GateReport.ReadyIffAllClean | sdk/scripts/release-gates.ts:188-189 | Ready iff no blocker is open and every check of every gate is clean |
| GateReport.NotReadyAfter | sdk/scripts/release-gates.ts:166-189 | After an observation that is not a pass, the release is not ready |
| Base58.Encode | sdk/src/base58.ts:7-23 | The loops compute the radix conversion of the bytes with a 1 for each leading zero |
| Base58.Decode | sdk/src/base58.ts:25-43 | The loops compute the inverse conversion, or fail at a character outside the alphabet |
| Base58.ConvertBack | sdk/src/base58.ts:7-43 | Converting digits from one radix to another and back gives the same digits, leading zeros included, for any two radices |
| Base58.DecodeEncoded | sdk/src/base58.ts:7-43 | Decoding an encoding gives back the bytes, for every byte string |
| Base58.EncodeDecoded | sdk/src/base58.ts:25-43 | Every string over the alphabet decodes, and encoding the result gives back the string |
| Base58.EncodedLength | sdk/src/base58.ts:7-23 | An encoding is at least as long as the bytes and at most eleven eighths of that, rounded up |
| NumberTheory.Euclid | sdk/src/keys.ts:97-98 | A prime that divides a product divides a factor |
| NumberTheory.Fermat | sdk/src/keys.ts:133-138 | Fermat's little theorem |
| NumberTheory.InverseIsPower | sdk/src/keys.ts:145 | The power p - 2 inverts modulo a prime, as decoding and the curve constant use it |
| Edwards.ModIs | sdk/src/keys.ts:133 | The reduction is in 0 to p - 1 and congruent, for negative numbers too |
| Edwards.SumIs | sdk/src/keys.ts:153-157 | The four products of the addition, up to congruence |
| Edwards.SumKeepsT | sdk/src/keys.ts:153-157 | The sum of any two tuples satisfies XY = ZT |
| Edwards.SumSatisfies | sdk/src/keys.ts:153-157 | The sum of two curve points satisfies the curve equation of section 5.1.4 of RFC 8032 |
| Edwards.SumIsFinite | sdk/src/keys.ts:152 | The addition is complete: its denominators never vanish on the curve, doubling included |
| Edwards.SumOnCurve | sdk/src/keys.ts:152-157 | The sum of two curve points is a curve point |
| EdwardsGroup.SumRespectsSame | sdk/src/keys.ts:153-157 | The sum does not depend on which coordinates a point is written with |
| EdwardsGroup.SumCommutes | sdk/src/keys.ts:153-157 | The addition commutes |
| EdwardsGroup.SumWithIdentity | sdk/src/keys.ts:131-157 | The identity is neutral |
| AssociativityIdentity.Crossed | sdk/src/keys.ts:153-157 | The polynomial identity behind associativity: for three points with Z = 1, the cross products of one coordinate of the two sums of three differ by d and the middle T times two halves |
| AssociativityIdentity.BothHalvesVanish | sdk/src/keys.ts:153-157 | On points of the curve the two halves together are zero modulo p |
| EdwardsAssociative.AffineAssociates | sdk/src/keys.ts:153-157 | (A + B) + C and (C + B) + A are the same point, for points of the curve with Z = 1 |
| EdwardsAssociative.SumAssociates | sdk/src/keys.ts:152-157 | The addition is associative: (A + B) + C and A + (B + C) are the same point, for all points of the curve in all coordinates |
| EdwardsMultiples.TimesAdd | sdk/src/keys.ts:158-162 | Repeated addition turns sums of scalars into sums of points |
| EdwardsMultiples.TimesTimes | sdk/src/keys.ts:158-162 | Repeated addition turns products of scalars into iteration |
| EdwardsMultiples.Multiply | sdk/src/keys.ts:158-162 | Double-and-add equals repeated addition, for every scalar and every point of the curve |
| EdwardsMultiples.IsIdentityIff | sdk/src/keys.ts:163 | The coordinate test holds exactly for the identity, on the curve |
| EdwardsMultiples.OrderIs | sdk/src/keys.ts:165-171 | A point killed by a prime and not by 8 has exactly that prime as its order |
| EdwardsMultiples.MultipleHasOrder | sdk/src/keys.ts:123-127 | A multiple s of a point of prime order, s not a multiple of the order, has that order too: generated keys are registrable |
| Keys.TaggedIsABijection | sdk/src/keys.ts:23-48 | A text decodes to bytes of the wanted length iff those bytes encode to that text |
| Keys.KeyIdIsABijection | sdk/src/keys.ts:28-37 | Key ids and 32-byte keys correspond one to one; at most 44 characters follow the prefix |
| Keys.SignatureIsABijection | sdk/src/keys.ts:39-48 | Signature texts and 64-byte signatures correspond one to one; at most 88 characters follow the prefix |
| Keys.SecretKeyRoundTrip | sdk/src/keys.ts:50-61 | For every seed and public key: encoding fails iff the seed is longer than 64 bytes or the key than 32; otherwise decoding gives 64 bytes, zero where the arguments were short; and exactly arguments of 32 bytes each come back as they were |
| Keys.DecodedSecretKeyEncodes | sdk/src/keys.ts:50-61 | Every text that decodes is what its seed and public key encode to |
| Keys.ReadLittleEndian | sdk/src/keys.ts:100-104 | The loop computes the little-endian value |
| Keys.CanonicalPoint | sdk/src/keys.ts:107-113 | Accepts exactly y below p, and no sign bit when y is 1 or p - 1 |
| Keys.ModPow | sdk/src/keys.ts:134-138 | Square-and-multiply equals the power modulo p, for every base and exponent |
| Keys.DecodePointStep | sdk/src/keys.ts:140-151 | The decoding steps compute the decoding function |
| Keys.XSquaredSolves | sdk/src/keys.ts:144-145 | The candidate for x squared solves the curve equation for y, its denominator never being zero |
| Keys.DecodingIsSound | sdk/src/keys.ts:139-151 | Every accepted encoding gives a curve point with the encoded y and the sign bit as the parity of x, and encodes back to the same 32 bytes |
| Keys.DecodingIsUnique | sdk/src/keys.ts:139-151 | No two accepted encodings give the same point |
| Keys.SIsUnique | sdk/src/keys.ts:115-121 | Of all signatures with one R and congruent S modulo L, at most one passes the checks before verification |
| PointEncodings.RootFound | sdk/src/keys.ts:146-147 | For every square modulo p the candidate, or the candidate times the root of -1, is a square root |
| PointEncodings.DecodingIsComplete | sdk/src/keys.ts:139-151 | Every point of the curve of Ed25519 with Z = 1 is what its own encoding decodes to |
| PointEncodings.DecodingIsABijection | sdk/src/keys.ts:139-151 | A byte string decodes to a point iff the point is on the curve, has Z = 1 and is encoded by exactly these bytes |
| PointEncodings.KeyIsOfOrderL | sdk/src/keys.ts:123-127 | A byte string decodes to a point of order L iff it is the canonical encoding of a curve point of order L |
| QuadraticResidues.EulerCriterion | sdk/src/keys.ts:129 | What is not a square modulo an odd prime is -1 to the power (p - 1) / 2 |
| QuadraticResidues.Wilson | sdk/src/keys.ts:129 | The product of all residues but zero is -1 modulo an odd prime |
| SmallPrimes.SiftedIsPrime | sdk/src/keys.ts:97-98 | Below 361 a number is prime iff no smaller one of the first seven primes divides it |
| Pocklington.Divides | sdk/src/keys.ts:97-98 | If 2^(n-1) is 1 modulo n and 2^((n-1)/q) - 1 has an inverse, the prime q divides p - 1 for every prime divisor p of n |
| Pocklington.NoRoom | sdk/src/keys.ts:97-98 | A number whose prime divisors are all 1 modulo some F with (F + 1)^2 beyond the number is prime |
| Ed25519Curve.BothPrime | sdk/src/keys.ts:97-98 | The field size P and the group order L are prime |
| Ed25519Curve.DIsNoSquare | sdk/src/keys.ts:128 | The constant D is not a square modulo P |
| Ed25519Curve.Ed25519IsGood | sdk/src/keys.ts:97-128 | The curve used is one that all theorems on the addition apply to |
| Ed25519Curve.DIs | sdk/src/keys.ts:128 | The constant D is -121665/121666 modulo p |
| Keys.KeyOrder | sdk/src/keys.ts:165-171 | For every key: invalid iff it does not decode; small iff 8 kills the point; prime iff the vanishing multiples of the point are exactly the multiples of L |
| Sha256Standard.BitByBit | sdk/src/sha256.ts:35-46 | The arithmetic and, or and exclusive or act bit by bit |
| Sha256Standard.RotrIsRotation | sdk/src/sha256.ts:17 | Or-ing the two shifts is the rotation: the word divided by 2^n plus its n low bits moved to the top |
| Sha256Standard.PaddedLength | sdk/src/sha256.ts:22-28 | A padded message is a positive multiple of 64 bytes long |
| Sha256Standard.PaddingIsShortest | sdk/src/sha256.ts:22-28 | No fewer zero bytes would do |
| Sha256Standard.PaddingIsInjective | sdk/src/sha256.ts:22-28 | Different messages below 2^64 bits have different paddings |
| Sha256Constants.Row0 | sdk/src/sha256.ts:7 | These eight constants are the first 32 fractional bits of the cube roots of the next eight primes, each shown to be prime with no prime between it and the one before |
| Sha256Constants.Row1 | sdk/src/sha256.ts:8 | These eight constants are the first 32 fractional bits of the cube roots of the next eight primes, each shown to be prime with no prime between it and the one before |
| Sha256Constants.Row2 | sdk/src/sha256.ts:9 | These eight constants are the first 32 fractional bits of the cube roots of the next eight primes, each shown to be prime with no prime between it and the one before |
| Sha256Constants.Row3 | sdk/src/sha256.ts:10 | These eight constants are the first 32 fractional bits of the cube roots of the next eight primes, each shown to be prime with no prime between it and the one before |
| Sha256Constants.Row4 | sdk/src/sha256.ts:11 | These eight constants are the first 32 fractional bits of the cube roots of the next eight primes, each shown to be prime with no prime between it and the one before |
| Sha256Constants.Row5 | sdk/src/sha256.ts:12 | These eight constants are the first 32 fractional bits of the cube roots of the next eight primes, each shown to be prime with no prime between it and the one before |
| Sha256Constants.Row6 | sdk/src/sha256.ts:13 | These eight constants are the first 32 fractional bits of the cube roots of the next eight primes, each shown to be prime with no prime between it and the one before |
| Sha256Constants.Row7 | sdk/src/sha256.ts:14 | These eight constants are the first 32 fractional bits of the cube roots of the next eight primes, each shown to be prime with no prime between it and the one before |
| Sha256Constants.InitialHash | sdk/src/sha256.ts:30 | The initial hash is the first 32 fractional bits of the square roots of the first eight primes, each shown to be the next one |
| Sha256Sync.WordOfBits | sdk/src/sha256.ts:35-45 | Signed 32-bit and, or and exclusive or agree with the word operations |
| Sha256Sync.WordOfRotr | sdk/src/sha256.ts:17 | The shifts on signed values make the word rotation |
| Sha256Sync.WordOfSigmas | sdk/src/sha256.ts:41-44 | The two large sigma functions on signed values are those of section 4.1.2 of FIPS 180-4 |
| Sha256Sync.WordOfSchedules | sdk/src/sha256.ts:35-36 | The two small sigma functions on signed values are those of section 4.1.2 of FIPS 180-4 |
| Sha256Sync.WordOfCh | sdk/src/sha256.ts:42 | Ch on signed values is that of section 4.1.2 of FIPS 180-4 |
| Sha256Sync.WordOfMaj | sdk/src/sha256.ts:45 | Maj on signed values is that of section 4.1.2 of FIPS 180-4 |
| Sha256Sync.WordOfFive | sdk/src/sha256.ts:43 | The five-term signed sum cut to 32 bits is the sum of words |
| Sha256Sync.SetUint32 | sdk/src/sha256.ts:27-28 | Writes four big-endian bytes in place and nothing else |
| Sha256Sync.Pad | sdk/src/sha256.ts:21-28 | Fills the padded buffer of section 5.1.1 of FIPS 180-4 iff the length plus 72 is below 2^31; otherwise the signed shift gives too small a size and the copy fails |
| Sha256Sync.FillSchedule | sdk/src/sha256.ts:33-38 | Fills the message schedule of section 6.2.2 of FIPS 180-4 in place |
| Sha256Sync.RunRounds | sdk/src/sha256.ts:39-48 | The 64 signed rounds are the rounds of the standard |
| Sha256Sync.CompressBlock | sdk/src/sha256.ts:33-49 | One turn of the block loop is one compression of the standard, added in place |
| Sha256Sync.WriteHash | sdk/src/sha256.ts:51-54 | Writes the eight words big-endian |
| Sha256Sync.Sha256Of | sdk/src/sha256.ts:19-55 | For every message: the SHA-256 of FIPS 180-4 if the length plus 72 is below 2^31, a failure otherwise |

## Left out

Of the modelled parts:

- LedgerContract.DtpContract.RunCall: when a call panics the fields it has already changed are left unspecified; `Transact` restores the stored state, as the chain does.
- LedgerContract.DtpContract.GetLotCtes: the index invariant is a precondition; `LedgerHistory.InvariantAlways` proves it of every reachable state.
- LedgerContract.DtpContract.GetAuditTrail: the index invariant is a precondition, proved of every reachable state likewise.
- Matching.SortedIsStable: the library's sort is modelled by a stable insertion sort, which has the same result.
- GateFingerprints.FreshEvidenceFixesInputs: the hash is a parameter; that no two byte strings share one is the hypothesis `OneToOne`.
- GateEvaluation.GateFingerprint: gates and checks under their ids stand for the sorted lists of the original; ids are letters, digits and hyphens, on which locale order is code-unit order, and texts have no lone surrogates.
- GateReport.Evaluate: titles, owners, the time an observation was recorded and fields the format does not have are not part of the model, nor is the rule that a named script stays inside the repository after links are resolved.
- LedgerLifecycle.OnceKept: excludes settlement by the timer, for which the claim is false (see above).
- Error messages and the path strings in them; `TextDecoder`, `TextEncoder` and fetch wrappers; hexadecimal output; `assertNoFloats`.
- Values with getters, `toJSON` or cycles passed to the printer.
- The contents of certifications, attestations, anchored documents, catalog entries, agreement terms and pool terms: the calls that bring them are modelled with their checks and effects, but what they carry along is not kept; neither are account summaries, lists and tier comparisons.
- The kinds of tracking event share one call, as they differ in descriptive fields only; event ids and payload hashes of audit events are not kept; a settlement keeps its net amount but not the list of deductions.
- Overflow of the 64-bit id counter, of 64-bit times near their end and of the 32-bit log length, and the truncation of offsets and lengths to 32 bits on wasm.
- Signing, verifying and key generation by WebCrypto: only the checks before verification are modelled.
- Path safety, symbolic links and empty directories in the release gates; the table of gates and dependencies is a parameter; running checks and recording evidence.

Of the repository:

- The v0.4 reducers, `scopes.ts`, `envelope.ts`, `sign.ts`, `schemas.ts` and `registry.ts` are not part of this model: they validate and fold records field by field, on top of the text, key and hash functions that are modelled here.
- `sdk/scripts/foundation-gates.ts`: the same algorithm on a fixed table.
- MCP servers, the marketplace function, HTTP clients, development servers, demos and scripts.
