# AntSeed, modelled and verified in Dafny

This project models seven parts of AntSeed, a peer-to-peer market for AI services, and proves what each
of them is for. Every theorem is stated for all inputs, all interleavings or all reachable states.

| component | modules | main theorems |
|---|---|---|
| Buyer payment channels | `UsageAccounting`, `SessionChannel`, `SessionRuns`, `SessionCeiling`, `SessionEffects`, `ResponseAccounting`, `CoveredRequests`, `PaymentManager`, `OneOffChannel`, `OneOffHistory` | `ResponseIsPaid`, `NeedAuthPays`, `OverdraftBound`, `RunConserves`, `CrashKeepsEveryTransmittedAmount`, `RestartNeverRaisesCeiling`, `LostSpendIff`, `NeedAuthFirstPaysExactly`, `SignedForItsCostIff`, `ExactUnderInterleaving`, `HistoryTells` |
| MP4 inspector | `Mp4Boxes`, `Mp4Inspector` | `Inspect`, `MovieRoundTrip` |
| Protocol translation | `SseReader`, `SseFormat`, `CanonicalStream`, `ChatStream`, `ChatContent`, `Transducer`, `AnthropicStream`, `AnthropicContent`, `AnthropicReading`, `AnthropicRoundTrip`, `ResponsesStream`, `ResponsesConsistency`, `ResponsesContent`, `RequestTranslation`, `RequestReading`, `RequestRoundTrip` | `ChunkIndependentIff`, `ReadsBack`, `NormalizedIs` (chat and Anthropic), `NestsIff`, `RoundTrip` (stream and request), `CompletedRepeatsDeltas`, `NextFramesAre`, `RoundTripIff` |
| Network statistics | `NetworkStore`, `Indexer`, `IndexerProgress` | `RunAgrees`, `TotalsAgree`, `BlocksBound`, `NeverPastBuffer`, `ReachesHead` |
| Nonce allocator | `NonceAllocator` | `MutualExclusion`, `NoncesIncrease`, `NeverStuck`, `ConsecutiveIff` |
| Attestation encodings | `Utf8`, `AttestationEncoding`, `AttestationLayout` | `BundleIs`, `PreimageIsText`, `BundleUnambiguous`, `ReportUnambiguous`, `SellerUnambiguous` |
| Free usage and view cache | `FreeUsage`, `FreeUsageNumbers`, `FreeUsageTotals`, `FreeUsageRows`, `FreeUsageReopen`, `FreeUsageManager`, `ViewCache` | `AlwaysOneIff`, `AlwaysRisesIff`, `NumbersKeptIff`, `UsageAddsUp`, `ReadsAreFresh`, `OneLoadPerKey`, `KeptIsServed` |

`dafny verify dfyconfig.toml` checks the whole project.

## How the models are built

*Handlers as effects.* A session-channel handler is a list of phases; a phase is "adopt memory, commit the
row, adopt memory, report, transmit, adopt memory". `SessionChannel.At` gives the state after any number of
these effects, so a crash or a failed commit or transmission can fall between any two. Handlers are atomic
towards each other, one active session exists per seller, and amounts are naturals.

*Handlers as interleaved stretches.* The one-off channel, the indexer, the nonce allocator, the free-usage
manager and the view cache are state machines over the stretches of code between two waits, with any number
of suspended handlers. Each has an imperative class with one method per stretch, proved to perform exactly
the corresponding step of the machine.

*Loops and mutable objects.* Parsers, renderers, normalizers, the store, the trackers and the payment
manager are classes and loops proved against functions, and the theorems are about those functions.

*What a function computes is said again without it.* Each function that an operation is proved against has a
law that does not use it: amounts by what is claimed, estimated and still allowed (`SessionEffects`), streams by
the history of their input (`ChatContent`, `AnthropicContent`, `AnthropicReading`, `ResponsesContent`), requests
by what each block stands for (`RequestReading`), byte strings by what a reader finds in them
(`AttestationLayout`, `SseFormat`, `Mp4Boxes`), state machines by the history of their steps (`OneOffHistory`,
`IndexerProgress`, `FreeUsageTotals`).

*Assumptions.* Signatures, hashes, JSON text and RPC results are parameters. `computeCostUsdc`,
`validateUnitBillingUsage` and `withServiceMetadata` enter as given costs and evidence; the metadata's
service list is represented by the sum of the amounts attributed to services. The cost tolerance is a
function from estimate to largest accepted claim; its default is the ceiling of 7/5 of the estimate. Blocks
older than the reorg buffer are final, and the client returns exactly their events, in order;
`IndexerProgress.NeverPastBuffer` shows that no other block is ever asked for.

## Where the code does less than one might expect

Each of these is proved: with the exact condition on the input under which it does not happen, and with a
concrete case where that condition is not itself a plain description of the inputs.

* A restart can raise the reserve ceiling in two windows: `reconcileReserveAmount` lowers the ceiling in
  memory before it commits (`packages/buyer-core/src/buyer-payment-manager.ts:773`), and
  `resendPendingReserveAuth` commits a confirmed amount recorded before such a lowering (`:744`).
  `SessionCeiling.ConservativeIffNotExposed` shows there are no others; `UncommittedReconcileExample` and
  `StalePendingExample` reach them. A store without recovery fields is safe exactly when the configured
  reserve is within the ceiling (`WithoutRecoveryFields`).
* A crash between commit and report of an authorization that raises the signed amount leaves that spend
  unreported (`SessionRuns.UnreportedExample`); nothing else does (`LostSpendIff`).
* An opening over an active channel whose commit fails leaves the new channel's memory, which starts from 0,
  beside the old channel's row: the next post-response signing commits 0. The stored amount stays what it was
  exactly when nothing had been signed (`SessionRuns.OpeningFailedIff`).
* A request can be signed for more than its accepted cost, 16 for 10 in `ResponseAccounting.SignedTwice`. That
  happens exactly when a NeedAuth finds something to sign although the request was counted before, or although
  nothing was delivered, or when both what it asks for and what the buyer's limits allow exceed the signed
  amount by more than the cost (`Overasks`, `SignedForItsCostIff`).
* A one-off delivery that completes while a confirmation is still flushing is reported twice, 17 instead of
  10 in `OneOffChannel.EarlyDeliveryOverReports`; `ExactUnderInterleaving` has the condition.
* The event-stream reader depends on chunking exactly for texts with CR CR LF
  (`SseReader.ChunkIndependentIff`, `TrailingCrIsLost`).
* Finish reasons that Anthropic's vocabulary merges (`function_call`, `end_turn`, `max_tokens`, `tool_use`,
  empty or absent) do not survive a round trip; all others do (`AnthropicStream.FinishReasonSurvivesIff`).
* Rendered for Anthropic, tools whose arguments arrive by turns feed blocks that are closed
  (`AnthropicContent.ParallelToolsDoNotNest`); the frames nest exactly when tools take turns (`NestsIff`).
* Nonces leave a gap exactly when a send succeeds whose network count ran ahead of the cursor
  (`NonceAllocator.ConsecutiveIff`).
* The Anthropic normalizer emits one done event more when its last chunk holds only quiet frames
  (`AnthropicStream.DonesAre`, `DoneTwice`).
* A request comes back from an Anthropic rendering with only empty content dropped and adjacent messages of one
  role and phase merged exactly when every call and result is named, arguments are objects, messages that say
  something have no phase, and usable images are the user's and given in one form
  (`RequestRoundTrip.RoundTripIff`). What is lost otherwise: message phases (`PhaseIsLost`), the text of
  arguments, an image's url beside its data, the id or name of an unnamed call (`UnnamedCallIsNamed`), unnamed
  results, and images in assistant turns. The rendered blocks survive whenever calls and results are named and
  no usable image is in an assistant turn, and only then (`BlocksKeptIff`).
* In a Responses stream, tools that share a call id share their argument deltas, unless they have none, and so
  do tools like `x` and `fc_x`, which share an item id (`ResponsesConsistency.OwnDeltasIff`, `SharedIdMixes`). A
  tool's output index moves exactly when text begins after it (`IndicesStayIff`, `IndexMoves`).
* Evidence under ids with lone surrogates, which UTF-8 encoding replaces by one character, can be exchanged
  without changing the bundle digest (`AttestationEncoding.LoneSurrogatesCollide`); `PreimageIsText` says
  exactly what the digest tells apart, and `BundleUnambiguous` when that is the evidence.
* Free-usage numbers are repeated or go back after a restart exactly when some were passed over, or a crash
  fell between sending and persisting, or the process ended while the row was behind its session because the
  store had refused it (`FreeUsageNumbers.NumbersKeptIff`, `RestartCanGoBack`, `LostSendRepeats`,
  `RefusedRowRepeats`).
* A signature that comes after its channel was retired makes the channel's row active again, so that a restart may
  continue with it (`FreeUsageRows.RetiredComesBack`); `StaysOnlyIff` has the condition.
* A failed re-open can bring back a free-usage session that a disconnect dropped. Two asks for one channel can
  then wait for signatures side by side, and one process can sign a number twice (`RestoredSessionSignsTwice`).
  Both are possible exactly when an ask of an earlier promise chain can still be accepted on the channel, or is
  waiting for its signature, at that moment (`FreeUsageReopen.AlwaysOneIff`, `AlwaysRisesIff`).

## Model

| member | source | states |
|---|---|---|
| `UsageAccounting.TrimmedValid` | packages/buyer-core/src/channel-usage-accounting.ts:10-14 | a full tracker forgets exactly its oldest id and keeps every other remainder and the order; one with room stays as it is |
| `UsageAccounting.MarkValid` | packages/buyer-core/src/channel-usage-accounting.ts:50-54 | a marked id is remembered with its remainder, as the newest if it was not remembered; the limit is kept; every other id stays as it was but the oldest of a full tracker; without an id nothing is marked |
| `UsageAccounting.PayValid` | packages/buyer-core/src/channel-usage-accounting.ts:62-67 | paying lowers one remainder by the amount paid, down to nothing at most, and no other |
| `UsageAccounting.CountedRequestTracker.Has` | packages/buyer-core/src/channel-usage-accounting.ts:46-48 | answers whether the id is remembered |
| `UsageAccounting.CountedRequestTracker.Unpaid` | packages/buyer-core/src/channel-usage-accounting.ts:56-60 | the remainder, 0 for an unknown or absent id |
| `UsageAccounting.CountedRequestTracker.Mark` | packages/buyer-core/src/channel-usage-accounting.ts:50-54 | the mutable tracker performs the specified marking, eviction included |
| `UsageAccounting.CountedRequestTracker.Pay` | packages/buyer-core/src/channel-usage-accounting.ts:62-67 | the mutable tracker performs the specified payment |
| `SessionRuns.DecisionsArePrudent` | packages/buyer-core/src/buyer-payment-manager.ts:800-832 | whatever a seller asks, a new amount stays within the ceiling and the overdraft window, verified cost grows by accepted cost plus at most one reopened window, and attribution by at most the amount signed |
| `SessionRuns.DecisionsNeverLower` | packages/buyer-core/src/buyer-payment-manager.ts:1838-1850 | no decision lowers the signed amount or raises it above the ceiling |
| `SessionRuns.AtSound` | packages/buyer-core/src/buyer-payment-manager.ts:900-1014 | after any number of effects of a phase the stored amount covers everything transmitted |
| `SessionRuns.StepSound` | packages/buyer-core/src/buyer-payment-manager.ts:967-1014 | every step, failed and crashed ones included, keeps memory and store in agreement on the signed amount and the per-service totals, and balances reported spend against the signed amount |
| `SessionRuns.RunConserves` | packages/buyer-core/src/buyer-payment-manager.ts:622-630 | over every run the signed amount never decreases, reports plus spend lost to crashes equal its growth, nothing is lost without a crash, and service amounts never exceed the growth |
| `SessionRuns.UnreportedExample` | packages/buyer-core/src/buyer-payment-manager.ts:967-1014 | the loss is real: a catch-up that dies between commit and report signs 3 and reports nothing |
| `SessionRuns.LostSpendIff` | packages/buyer-core/src/buyer-payment-manager.ts:622-630 | over every run no spend is lost if and only if no crash falls between the commit and the report of an authorization that raises the signed amount |
| `SessionRuns.OpeningFailedIff` | packages/buyer-core/src/buyer-payment-manager.ts:1091-1107 | after an opening over an active channel whose commit fails, the stored amount stays at least what it was in every continuation if and only if nothing was signed |
| `SessionRuns.StartsSound` | packages/buyer-core/src/buyer-payment-manager.ts:352-396 | hydrated and freshly opened channels start with that agreement |
| `SessionRuns.CrashKeepsEveryTransmittedAmount` | packages/buyer-core/src/buyer-payment-manager.ts:352-396 | killed after any effect in any reachable state, a restart knows at least every amount ever transmitted |
| `SessionRuns.SigningStaysUnderCeiling` | packages/buyer-core/src/buyer-payment-manager.ts:600-704 | a handler that raises the signed amount leaves it within the ceiling it started with; a close authorization never exceeds the signed amount nor its cap |
| `SessionRuns.RunOverdraft` | packages/buyer-core/src/buyer-payment-manager.ts:573-621 | the signed amount stays within one window of the verified cost, which grows only by accepted costs and reopenings |
| `SessionRuns.OverdraftBound` | packages/buyer-core/src/buyer-payment-manager.ts:1335-1344 | from any stored row, C <= V + K*M and C <= opening + accepted + (reopenings + 1)*K*M, restarts counting as reopenings |
| `SessionRuns.OverdraftBoundOpened` | packages/buyer-core/src/buyer-payment-manager.ts:1039-1110 | the same bounds from a freshly opened channel |
| `SessionCeiling.ConservativeIffNotExposed` | packages/buyer-core/src/buyer-payment-manager.ts:744-798 | after any effect of any handler a restart keeps or lowers the ceiling if and only if the handler is not in one of two windows |
| `SessionCeiling.RunStaysConservative` | packages/buyer-core/src/buyer-payment-manager.ts:927-965 | over every run, with crashes anywhere, in which no failed handler stopped inside one of the two windows, the ceiling a restart would adopt is at most the one in memory |
| `SessionCeiling.StartsConservative` | packages/buyer-core/src/buyer-payment-manager.ts:1039-1110 | hydrated and freshly opened channels start out safe |
| `SessionCeiling.RestartNeverRaisesCeiling` | packages/buyer-core/src/buyer-payment-manager.ts:352-396 | from a consistent row or a fresh channel, the hydrated ceiling is at most the one before the crash if and only if the crash is outside the two windows |
| `SessionCeiling.UncommittedReconcileExample` | packages/buyer-core/src/buyer-payment-manager.ts:773-798 | the first window is reachable: ceiling 4 before the crash, 10 after |
| `SessionCeiling.StalePendingExample` | packages/buyer-core/src/buyer-payment-manager.ts:744-771 | the second window is reachable: ceiling 0 before the crash, 10 after |
| `SessionCeiling.WithoutRecoveryFields` | packages/buyer-core/src/buyer-payment-manager.ts:467-470 | a store without recovery fields restarts at the configured reserve over every run, as if nothing had been reserved, which is safe exactly when the configured reserve is within the ceiling |
| `ResponseAccounting.HandleBalances` | packages/buyer-core/src/buyer-payment-manager.ts:1521-1562 | either handler counts an id exactly when it is not remembered, and moves amounts only from unpaid to attributed |
| `ResponseAccounting.OtherKeeps` | packages/buyer-core/src/buyer-payment-manager.ts:560-1016 | no other handler, completed or failed, touches the tracker or the metadata, and only a catch-up moves the signed amount |
| `ResponseAccounting.StoppedAccounts` | packages/buyer-core/src/buyer-payment-manager.ts:1584-1601 | a handler stopped by a failed commit accounts for nothing, one stopped by a failed transmission for everything |
| `ResponseAccounting.NeedAuthSigns` | packages/buyer-core/src/buyer-payment-manager.ts:1807-1856 | a NeedAuth signs if and only if it asks for more than is signed, its claim is accepted and the limit is above what is signed; then it signs what is asked, up to the limit |
| `ResponseAccounting.ArrivalBalances` | packages/buyer-core/src/buyer-payment-manager.ts:1857-1901 | every arrival of any kind keeps the balance of every request |
| `ResponseAccounting.CountedUsageIsFrozen` | packages/buyer-core/src/channel-usage-accounting.ts:70-90 | once counted, a response changes no usage total again |
| `ResponseAccounting.FirstCountAddsUsage` | packages/buyer-core/src/channel-usage-accounting.ts:92-108 | when a response is counted, every total grows by exactly what was reported |
| `ResponseAccounting.RunBalances` | packages/buyer-core/src/buyer-payment-manager.ts:1597-1601 | over every run of both handlers, failed ones and all other handlers in between, for all sellers, an id is counted once per eviction plus once while remembered, and attributed plus unpaid is constant |
| `ResponseAccounting.NeedAuthFirstPaysExactly` | packages/buyer-core/src/buyer-payment-manager.ts:1857-1901 | when NeedAuth counts first, its attribution, all later attributions and the remainder add up to the accepted cost, whatever happens to the channel in between |
| `ResponseAccounting.SignedForIs` | packages/buyer-core/src/buyer-payment-manager.ts:1857-1910 | over every run, what is signed for a request is what is attributed to it plus the excess of each NeedAuth, computed from what is known before it |
| `ResponseAccounting.SignedAsAttributedIff` | packages/buyer-core/src/buyer-payment-manager.ts:1857-1910 | over every run, what is signed for a request is at least what is attributed to it, and exactly that if and only if the seller never overasks, a condition on what is known before each NeedAuth: the amount asked for, the accepted cost, the limit, and whether the request was delivered and counted |
| `ResponseAccounting.SignedForItsCostIff` | packages/buyer-core/src/buyer-payment-manager.ts:1857-1910 | a counted request is signed for its accepted cost less the remainder if and only if the seller never overasks, and for more otherwise |
| `ResponseAccounting.SignedTwice` | packages/buyer-core/src/buyer-payment-manager.ts:1857-1901 | from a channel opened with a reserve of 4, a request of cost 10 that is signed for 16 |
| `SessionEffects.ResponseIsPaid` | packages/buyer-core/src/buyer-payment-manager.ts:1495-1562 | a response not counted before signs what is due for it, as far as the window and the ceiling leave room: the claim, at most what is tolerated for the estimate, the estimate without a claim, the claim without an estimate; the verified cost grows by exactly the estimate |
| `SessionEffects.ClaimIsPaid` | packages/buyer-core/src/buyer-payment-manager.ts:1498-1537 | a claim within tolerance of a positive estimate is signed exactly, if there is room |
| `SessionEffects.RemainderIsPaid` | packages/buyer-core/src/buyer-payment-manager.ts:1521-1530 | a response counted before signs what remains of it, as far as there is room, and verifies nothing |
| `SessionEffects.BillingIsAccepted` | packages/buyer-core/src/buyer-payment-manager.ts:1686-1752 | a claimed cost with unit evidence is accepted, as it is, exactly when the units are verified and it is within tolerance of their cost and the tokens', or when it is nothing and the units are not refuted |
| `SessionEffects.CostIsAccepted` | packages/buyer-core/src/buyer-payment-manager.ts:1753-1805 | a claimed cost without unit evidence is accepted, as it is, exactly when it is nothing, or no unit evidence is owed and the buyer's estimate, if it has one, tolerates it or is zero for a service not billed by units |
| `SessionEffects.CatchUpSigns` | packages/buyer-core/src/buyer-payment-manager.ts:560-650 | a catch-up signs the budget or up to the target, whichever is more, as far as the ceiling and one window per request in flight allow, and tops up exactly when the ceiling stops it |
| `SessionEffects.NeedAuthPays` | packages/buyer-core/src/buyer-payment-manager.ts:1807-1910 | a NeedAuth whose claim is accepted signs what is asked, as far as the ceiling and one window behind the verified cost allow; the verified cost grows by the claim or starts at what is signed; a top-up follows when the ceiling stops it or is nearly used up |
| `SessionEffects.NeedAuthRefuses` | packages/buyer-core/src/buyer-payment-manager.ts:1655-1806 | a stale NeedAuth, and one whose cost is not accepted, change nothing |
| `SessionEffects.TopUpRaises` | packages/buyer-core/src/buyer-payment-manager.ts:1935-1992 | a top-up raises the ceiling by the configured reserve and records it as pending over the old one, unless the deposits do not cover it |
| `SessionEffects.ReconcileConfirms` | packages/buyer-core/src/buyer-payment-manager.ts:773-798 | the ceiling becomes what the chain shows, and a pending reserve stays pending exactly while the chain shows less |
| `SessionEffects.AckConfirms` | packages/buyer-core/src/buyer-payment-manager.ts:1234-1273 | an acknowledgement confirms a pending opening reserve and nothing else |
| `SessionEffects.ReplayReserves` | packages/buyer-core/src/buyer-payment-manager.ts:707-742 | a replay of the opening reserve is for the first reserve, capped by the configuration, and is pending over nothing |
| `SessionEffects.PendingIsReplayed` | packages/buyer-core/src/buyer-payment-manager.ts:744-771 | a pending reserve is sent again as it is, and nothing happens without one |
| `SessionEffects.CloseCarries` | packages/buyer-core/src/buyer-payment-manager.ts:652-705 | a close request carries the signed amount or its cap, if any, and changes no amount |
| `SessionEffects.OthersKeepAmounts` | packages/buyer-core/src/buyer-payment-manager.ts:520-558 | signing the current amount again and recording a response change nothing else |
| `SessionEffects.ReopensIff` | packages/buyer-core/src/buyer-payment-manager.ts:800-832 | a decision reopens the window exactly when it verifies something else than before and what it accepts; paying for a response never does |
| `SessionEffects.RestartKnows` | packages/buyer-core/src/buyer-payment-manager.ts:352-408 | which memory a stored row gives, by what the store keeps of the reserve |
| `SessionEffects.RestartAfter` | packages/buyer-core/src/buyer-payment-manager.ts:352-408 | what a restart knows after an opening, a top-up and a reconciliation |
| `SessionEffects.OneEffectAtATime` | packages/buyer-core/src/buyer-payment-manager.ts:927-1014 | a phase adopts, commits, adopts, reports, transmits and adopts, in this order, each effect changing one thing |
| `SessionEffects.RowHasMetadata` | packages/buyer-core/src/buyer-payment-manager.ts:900-1014 | whatever a handler commits, the row then has the metadata signed last; a close authorization below the signed amount commits nothing |
| `SessionEffects.ToleranceIs` | packages/buyer-core/src/buyer-payment-manager.ts:1501-1501 | the default tolerance is seven fifths of the estimate, rounded up |
| `SessionEffects.FailedOpeningIs` | packages/buyer-core/src/buyer-payment-manager.ts:1091-1107 | an opening whose commit fails has reset what is known of the channel, and nothing else |
| `SessionEffects.OpeningIs` | packages/buyer-core/src/buyer-payment-manager.ts:1039-1110 | an opening starts from 0 under the reserve asked for |
| `PaymentManager.PlanExtension` | packages/buyer-core/src/buyer-payment-manager.ts:560-650 | computes the catch-up decision that `SessionEffects.CatchUpSigns` describes |
| `PaymentManager.AcceptClaim` | packages/buyer-core/src/buyer-payment-manager.ts:1495-1515 | the accepted cost is never above the claim nor above the tolerated estimate, and is one of the two |
| `PaymentManager.CappedAdvance` | packages/buyer-core/src/buyer-payment-manager.ts:1531-1541 | the next amount is capped by what may be signed and never goes back |
| `PaymentManager.PlanPayment` | packages/buyer-core/src/buyer-payment-manager.ts:1372-1562 | computes the post-response decision that `SessionEffects.ResponseIsPaid` and `RemainderIsPaid` describe |
| `PaymentManager.PlanNeedAuth` | packages/buyer-core/src/buyer-payment-manager.ts:1633-1856 | computes the NeedAuth decision that `SessionEffects.NeedAuthPays` and `NeedAuthRefuses` describe |
| `PaymentManager.LatestByPeer` | packages/buyer-core/src/buyer-payment-manager.ts:307-317 | the loop over all active rows holds the row that replaces each older one of its seller |
| `PaymentManager.LatestIs` | packages/buyer-core/src/buyer-payment-manager.ts:307-317 | of several active rows of one seller it is one than which none was created later, nor at the same time and updated later, the first of equals |
| `CoveredRequests.MarkedIs` | packages/buyer-core/src/buyer-payment-manager.ts:2485-2495 | marking covers the request, keeps covered exactly what did not expire, and never remembers more than the limit |
| `CoveredRequests.ExpireIs` | packages/buyer-core/src/buyer-payment-manager.ts:2488-2492 | while there is room and the clock does not go back, exactly what was marked within the last hour stays covered |
| `CoveredRequests.CoveredIff` | packages/buyer-core/src/buyer-payment-manager.ts:2485-2510 | up to ten thousand operations by a clock that does not go back, a request is covered if and only if it was marked, nothing was said about it since, and no mark came an hour or more later |
| `CoveredRequests.KeyIff` | packages/buyer-core/src/buyer-payment-manager.ts:61-61 | keys are the same exactly for one seller, in any case, and one request |
| `PaymentManager.BuyerPaymentManager.constructor` | packages/buyer-core/src/buyer-payment-manager.ts:302-408 | hydrates the chosen row of every seller that has one, and no other |
| `PaymentManager.BuyerPaymentManager.AuthorizeSpending` | packages/buyer-core/src/buyer-payment-manager.ts:1039-1110 | opens a fresh channel, unless the seller wants more per request than the buyer gives; a failed commit leaves the reset memory beside the old row and session, a failed transmission the new row under a ceiling of 0 |
| `PaymentManager.BuyerPaymentManager.ResendCurrentSpendingAuth` | packages/buyer-core/src/buyer-payment-manager.ts:520-558 | performs the resend step |
| `PaymentManager.BuyerPaymentManager.RecordResponseBytes` | packages/buyer-core/src/buyer-payment-manager.ts:1308-1330 | performs the record step, or nothing without pricing |
| `PaymentManager.BuyerPaymentManager.RecordAndPersistTokens` | packages/buyer-core/src/buyer-payment-manager.ts:2236-2263 | performs the recording step: the running totals go over the row's usage columns, and the signed metadata stays |
| `PaymentManager.BuyerPaymentManager.MarkRequestCovered` | packages/buyer-core/src/buyer-payment-manager.ts:2485-2495 | the loop forgets entries from the oldest on while they are an hour old or the limit is reached, then remembers the request as the newest |
| `PaymentManager.BuyerPaymentManager.ReleaseRequestCoverage` | packages/buyer-core/src/buyer-payment-manager.ts:2502-2504 | forgets it for a new attempt |
| `PaymentManager.BuyerPaymentManager.CommitUpdatedSpendingAuth` | packages/buyer-core/src/buyer-payment-manager.ts:967-1014 | one seller's channel goes through the whole authorization phase; no other changes |
| `PaymentManager.BuyerPaymentManager.CommitAndSendReserveAuth` | packages/buyer-core/src/buyer-payment-manager.ts:927-965 | one seller's channel goes through the whole reserve phase |
| `PaymentManager.BuyerPaymentManager.TopUpReserve` | packages/buyer-core/src/buyer-payment-manager.ts:1935-1992 | performs the top-up step, or nothing without a session or deposit |
| `PaymentManager.BuyerPaymentManager.ExtendCurrentSpendingAuth` | packages/buyer-core/src/buyer-payment-manager.ts:560-650 | performs exactly the extend step of the state machine; what that step signs is `SessionEffects.CatchUpSigns` |
| `PaymentManager.BuyerPaymentManager.SignPerRequestAuth` | packages/buyer-core/src/buyer-payment-manager.ts:1372-1631 | performs exactly the post-response step, tracker included; what that step pays is `SessionEffects.ResponseIsPaid` |
| `PaymentManager.BuyerPaymentManager.HandleNeedAuth` | packages/buyer-core/src/buyer-payment-manager.ts:1633-1933 | performs exactly the NeedAuth step, tracker included; ignores unknown sellers, other channels and covered requests; what that step signs is `SessionEffects.NeedAuthPays` |
| `PaymentManager.BuyerPaymentManager.ReconcileReserveAmount` | packages/buyer-core/src/buyer-payment-manager.ts:773-798 | performs the reconcile step: the chain wins, even when lower |
| `PaymentManager.BuyerPaymentManager.HandleAuthAck` | packages/buyer-core/src/buyer-payment-manager.ts:1234-1273 | confirms only an opening reserve, of the active channel |
| `PaymentManager.BuyerPaymentManager.ResendReserveAuth` | packages/buyer-core/src/buyer-payment-manager.ts:707-742 | replays the opening reserve, capped by the configuration; refused without a reserve to replay |
| `PaymentManager.BuyerPaymentManager.ResendPendingReserveAuth` | packages/buyer-core/src/buyer-payment-manager.ts:744-771 | replays the pending reserve, if any |
| `PaymentManager.BuyerPaymentManager.BuildCloseChannelRequest` | packages/buyer-core/src/buyer-payment-manager.ts:652-705 | performs the close step; the signed amount never exceeds the cumulative |
| `OneOffChannel.NextKeepsInv` | packages/buyer-core/src/buyer-payment-manager.ts:2133-2209 | every stretch of every handler keeps the reports that the channel's history calls for |
| `OneOffChannel.ExactUnderInterleaving` | packages/buyer-core/src/buyer-payment-manager.ts:2022-2079 | in every interleaving only the fee and the price are signed, and total reported spend is the price exactly when delivery was not early |
| `OneOffChannel.FeeReportedOnce` | packages/buyer-core/src/buyer-payment-manager.ts:2133-2156 | with delivery after confirmation the reports are the fee, once, then the rest |
| `OneOffChannel.EarlyDeliveryOverReports` | packages/buyer-core/src/buyer-payment-manager.ts:2163-2209 | the other order is reachable and over-reports |
| `OneOffHistory.HistoryTells` | packages/buyer-core/src/buyer-payment-manager.ts:2133-2209 | after every run the history says the state: open until retired or sent, confirmed by a flush or at once without a row, and only by the whole price on chain, delivered by a commit, the price signed once per valid observation, what was reported when, and who waits for what |
| `OneOffHistory.LegalIff` | packages/buyer-core/src/buyer-payment-manager.ts:2133-2209 | a history is possible if and only if each step is: a handler begins unless it waits, resumes where it waits, and the channel may be retired at any time |
| `OneOffHistory.PriceIsAskedFor` | packages/buyer-core/src/buyer-payment-manager.ts:2163-2202 | the price is signed only for a handler that was asked for exactly it, with matching evidence, on a stored channel that was open and undelivered |
| `OneOffChannel.Channel.BeginConfirm` | packages/buyer-core/src/buyer-payment-manager.ts:2133-2143 | performs the first stretch of a confirmation |
| `OneOffChannel.Channel.ResumeConfirm` | packages/buyer-core/src/buyer-payment-manager.ts:2143-2156 | performs the stretch after the flush, which may have failed |
| `OneOffChannel.Channel.BeginDelivery` | packages/buyer-core/src/buyer-payment-manager.ts:2163-2184 | performs the first stretch of a delivery |
| `OneOffChannel.Channel.ResumeDelivery` | packages/buyer-core/src/buyer-payment-manager.ts:2184-2202 | performs the stretch after the observation |
| `OneOffChannel.Channel.ResumeCommit` | packages/buyer-core/src/buyer-payment-manager.ts:2202-2209 | performs the stretch after the commit: nothing if it failed, else report and adopt the price, and close unless the transmission fails |
| `Mp4Boxes.ParsePrinted` | packages/api-adapter/src/mp4.ts:37-92 | parsing a printed file answers with its last moov box |
| `Mp4Boxes.MoovFindsMvhd` | packages/api-adapter/src/mp4.ts:106-128 | the mvhd box is found behind any other boxes |
| `Mp4Boxes.MvhdRoundTrip` | packages/api-adapter/src/mp4.ts:115-124 | the answer ms for a printed movie header of either version satisfies ms * timescale <= duration * 1000 < (ms + 1) * timescale; there is none without a timescale or above the largest exact integer |
| `Mp4Boxes.MovieRoundTrip` | packages/api-adapter/src/mp4.ts:16-128 | so does the answer for a printed movie, whatever boxes surround it |
| `Mp4Boxes.TruncatedHasNoAnswer` | packages/api-adapter/src/mp4.ts:57-92 | a file cut anywhere inside a box, after any complete boxes, has no answer |
| `Mp4Boxes.OpenEnded` | packages/api-adapter/src/mp4.ts:46-54 | a box of size 0 runs to the end of the file: a moov within the limit is read, any other leaves the answer |
| `Mp4Boxes.OtherStartHasNoAnswer` | packages/api-adapter/src/mp4.ts:44-44 | a file that does not start with a file type box has no answer |
| `Mp4Boxes.LargeMoovHasNoAnswer` | packages/api-adapter/src/mp4.ts:50-54 | a moov box above the limit has no answer |
| `Mp4Boxes.NoMvhdHasNoAnswer` | packages/api-adapter/src/mp4.ts:106-128 | a moov box without a movie header has no duration |
| `Mp4Boxes.ShortMvhdHasNoAnswer` | packages/api-adapter/src/mp4.ts:115-124 | a movie header too short for its version has no duration |
| `Mp4Inspector.ParseHeader` | packages/api-adapter/src/mp4.ts:37-55 | a complete header decides the rest of the parse, whatever follows |
| `Mp4Inspector.StartStep` | packages/api-adapter/src/mp4.ts:37-55 | starting a box changes no answer |
| `Mp4Inspector.SkipStep` | packages/api-adapter/src/mp4.ts:70-79 | consuming part of a box that is not kept changes no answer |
| `Mp4Inspector.KeepStep` | packages/api-adapter/src/mp4.ts:70-79 | consuming part of the moov box changes no answer |
| `Mp4Inspector.FindMvhd` | packages/api-adapter/src/mp4.ts:106-128 | the offset loop finds what the recursive walk finds, and terminates |
| `Mp4Inspector.ReadMvhdDuration` | packages/api-adapter/src/mp4.ts:106-128 | computes the duration of the first movie header, as `Mp4Boxes.MvhdRoundTrip` describes it |
| `Mp4Inspector.Inspector.EndMoov` | packages/api-adapter/src/mp4.ts:26-35 | the buffered parts are read as one moov box |
| `Mp4Inspector.Inspector.StartBox` | packages/api-adapter/src/mp4.ts:37-55 | the fields after a complete header |
| `Mp4Inspector.Inspector.ReadHeader` | packages/api-adapter/src/mp4.ts:57-69 | collecting header bytes keeps the whole-file answer for every continuation |
| `Mp4Inspector.Inspector.ReadBody` | packages/api-adapter/src/mp4.ts:70-79 | taking body bytes keeps the whole-file answer for every continuation |
| `Mp4Inspector.Inspector.Update` | packages/api-adapter/src/mp4.ts:57-85 | any chunk keeps it too, and at most 16 bytes plus one moov are buffered |
| `Mp4Inspector.Inspector.Finish` | packages/api-adapter/src/mp4.ts:86-90 | the answer is the whole-file answer |
| `Mp4Inspector.Inspect` | packages/api-adapter/src/mp4.ts:16-92 | for every byte string and every chunking, the incremental answer is the whole-file answer; for the chunks of a printed movie it is its duration in whole milliseconds |
| `SseReader.ParseSseBuffer` | packages/api-adapter/src/utils.ts:333-356 | the loops produce the events of the blocks and the remainder |
| `SseReader.FeedStep` | packages/api-adapter/src/utils.ts:333-356 | parsing a prefix, carrying the remainder and parsing on is parsing at once |
| `SseReader.ChunkIndependent` | packages/api-adapter/src/utils.ts:333-356 | the same for any number of chunks |
| `SseReader.ChunkIndependentIff` | packages/api-adapter/src/utils.ts:333-336 | every cutting agrees if and only if the text has no CR CR LF |
| `SseReader.EventsChunkIndependent` | packages/api-adapter/src/utils.ts:333-356 | without two adjacent CRs the event list does not depend on the cutting |
| `SseReader.CutAfterCrCrLf` | packages/api-adapter/src/utils.ts:334-336 | every text with CR CR LF has a cutting that disagrees |
| `SseReader.TrailingCrIsLost` | packages/api-adapter/src/utils.ts:334-336 | and the difference is visible in the block |
| `SseFormat.ReadsBack` | packages/api-adapter/src/utils.ts:333-356 | reading undoes writing: the blocks of a written stream, their event names and data lines, come back whatever follows them |
| `SseFormat.EncodedComesBack` | packages/api-adapter/src/utils.ts:358-368 | every event that the encoder writes comes back with its data, and with its name unless that is empty |
| `CanonicalStream.SortedProperties` | packages/api-adapter/src/stream-transform.ts:961-963 | sorting tool calls keeps every call, orders by index and finds the same call |
| `ChatStream.NormalizedStreamIsConsistent` | packages/api-adapter/src/stream-transform.ts:102-174 | every normalized chat stream starts once, ends once, and its done event lists the arguments that were emitted; what these are is `ChatContent.NormalizedIs` |
| `ChatStream.Normalizer.Feed` | packages/api-adapter/src/stream-transform.ts:102-174 | one chunk advances buffer and state as specified; what a whole stream emits is `ChatContent.NormalizedIs` |
| `ChatStream.NormalizeChunks` | packages/api-adapter/src/stream-transform.ts:102-174 | the canonical events of a chat stream do not depend on how its text is cut, and are those of `ChatContent.NormalizedIs` |
| `ChatContent.NormalizedIs` | packages/api-adapter/src/stream-transform.ts:102-174 | the whole output from the input: one start with the names known by the first text or call, then for each chunk its text and each of its call parts in order, tool starts at first mentions but the final answer, and a done event with the last names, every call with all its arguments, and one more call exactly when one is forced |
| `ChatContent.NothingIsLost` | packages/api-adapter/src/utils.ts:440-541 | all text of the input is emitted, and for every tool all its argument text |
| `Transducer.RunAppend` | packages/api-adapter/src/stream-transform.ts:77-100 | rendering or normalizing in one call or in several is the same |
| `AnthropicStream.FinishReasonSurvivesIff` | packages/api-adapter/src/stream-transform.ts:965-971 | a finish reason survives both mappings if and only if it is none of the merged ones |
| `AnthropicStream.Renderer.Render` | packages/api-adapter/src/stream-transform.ts:487-626 | a render call performs the specified steps |
| `AnthropicStream.Normalizer.Feed` | packages/api-adapter/src/stream-transform.ts:176-303 | a normalize call performs the specified steps |
| `AnthropicStream.NormalizeChunks` | packages/api-adapter/src/stream-transform.ts:176-303 | the object fed chunk by chunk emits as specified |
| `AnthropicStream.EmitsIff` | packages/api-adapter/src/stream-transform.ts:196-287 | frames emit nothing exactly when each is of a quiet kind |
| `AnthropicStream.FeedChunksIs` | packages/api-adapter/src/stream-transform.ts:288-301 | chunk by chunk adds one more done event exactly when the last chunk holds only text block starts, block stops, message deltas and repeated message starts |
| `AnthropicStream.DonesAre` | packages/api-adapter/src/stream-transform.ts:278-301 | a chunked stream has one done event per message stop plus one if its last chunk is quiet |
| `AnthropicStream.EmptyEndDoubles` | packages/api-adapter/src/stream-transform.ts:288-301 | any whole message followed by an empty last chunk ends twice |
| `AnthropicStream.DoneTwice` | packages/api-adapter/src/stream-transform.ts:288-301 | one such message |
| `AnthropicRoundTrip.Rendered` | packages/api-adapter/src/stream-transform.ts:487-626 | what every stream of text, then tools, renders to |
| `AnthropicRoundTrip.FramesWellFormed` | packages/api-adapter/src/stream-transform.ts:530-605 | one message, blocks contiguous from 0, each opened, fed its own kind of delta and closed |
| `AnthropicRoundTrip.Normalized` | packages/api-adapter/src/stream-transform.ts:176-303 | normalizing those frames gives the events back |
| `AnthropicRoundTrip.RoundTrip` | packages/api-adapter/src/stream-transform.ts:487-626 | rendering then normalizing returns the very same events, the accumulated calls, and the finish reason exactly when it is not a merged one |
| `AnthropicRoundTrip.RenderCallsIs` | packages/api-adapter/src/stream-transform.ts:525-626 | any split over render calls gives the same frames |
| `AnthropicRoundTrip.StandardReasonsSurvive` | packages/api-adapter/src/utils.ts:325-331 | stop, length, tool_calls and content_filter survive |
| `AnthropicContent.ReasonsAre` | packages/api-adapter/src/stream-transform.ts:965-971 | both tables of finish reasons, entry by entry, all other reasons passing through |
| `AnthropicContent.DecimalReads` | packages/api-adapter/src/stream-transform.ts:572-572 | the number in a made-up id is written in decimal |
| `AnthropicContent.RenderedIs` | packages/api-adapter/src/stream-transform.ts:487-626 | every event sequence, text and tools in any order, renders to exactly the frames its history calls for |
| `AnthropicContent.NestsIff` | packages/api-adapter/src/stream-transform.ts:530-605 | the frames nest - blocks do not overlap and are fed their own kind while open - if and only if each tool is fed only while it is the one open and not started again while it is |
| `AnthropicContent.ParallelToolsDoNotNest` | packages/api-adapter/src/stream-transform.ts:574-585 | two calls whose arguments arrive by turns feed a closed block |
| `AnthropicReading.NormalizedIs` | packages/api-adapter/src/stream-transform.ts:176-303 | any frames normalize to exactly the events their history calls for: tools numbered by first mention, arguments since the last start, the names of the last message start, the reason of the last message delta |
| `AnthropicReading.ChunksSay` | packages/api-adapter/src/stream-transform.ts:176-303 | and so do chunked frames, with the done event once more when the last chunk is quiet |
| `ResponsesStream.Renderer.Render` | packages/api-adapter/src/stream-transform.ts:697-863 | a render call performs the specified steps |
| `ResponsesConsistency.SequenceAndText` | packages/api-adapter/src/stream-transform.ts:640-646 | for every event sequence the numbers are consecutive over all calls and the text deltas add up to the text kept |
| `ResponsesConsistency.ArgumentsKept` | packages/api-adapter/src/stream-transform.ts:719-762 | for every event sequence a tool keeps its deltas since its last start, one entry per index |
| `ResponsesConsistency.IdKept` | packages/api-adapter/src/stream-transform.ts:719-762 | for every event sequence the id kept for a tool is the one the input gives it |
| `ResponsesConsistency.ArgumentsSent` | packages/api-adapter/src/stream-transform.ts:743-762 | for every event sequence and any view of ids, call ids and item ids among them, the deltas sent under a name are those of the tools that had it |
| `ResponsesConsistency.OwnDeltasIff` | packages/api-adapter/src/stream-transform.ts:743-762 | each name carries one tool's deltas if and only if tools that share it are silent, read by call id or by item id |
| `ResponsesConsistency.SharedIdMixes` | packages/api-adapter/src/stream-transform.ts:719-762 | two tools under one call id, or under `x` and `fc_x`, which have one item id: the deltas sent under the name are neither tool's |
| `ResponsesConsistency.OutputsAre` | packages/api-adapter/src/stream-transform.ts:649-762 | the output indices that tools are sent under |
| `ResponsesConsistency.IndicesStayIff` | packages/api-adapter/src/stream-transform.ts:649-649 | they are those the items are closed under if and only if no text begins once a tool was mentioned |
| `ResponsesConsistency.IndexMoves` | packages/api-adapter/src/stream-transform.ts:649-649 | a tool that starts before any text is sent under index 0 and closed under index 1 |
| `ResponsesConsistency.ItemsDoneRepeat` | packages/api-adapter/src/stream-transform.ts:764-815 | each item is closed once, in order, with the text or arguments it is listed with |
| `ResponsesConsistency.DoneRepeatsState` | packages/api-adapter/src/stream-transform.ts:817-851 | the completed response is the text and the sorted calls kept |
| `ResponsesConsistency.CompletedRepeatsDeltas` | packages/api-adapter/src/stream-transform.ts:628-863 | the completed response equals the concatenated text deltas, lists the input's arguments, and matches the argument deltas under each call id and each item id if and only if tools that share it are silent, in any order of text and tools |
| `ResponsesContent.NextFramesAre` | packages/api-adapter/src/stream-transform.ts:628-863 | after any events, one more event sends exactly the frames they call for, with their numbers: the response once with the last names known, the message once before its first text, calls by id, name and output index, every item closed at the first end, and the completed response |
| `RequestTranslation.RenderTurns` | packages/api-adapter/src/canonical.ts:300-339 | the rendering loop groups blocks by role as specified; what each item renders to is `CallRenders` and `PartRenders` |
| `RequestTranslation.AppendContentBlocks` | packages/api-adapter/src/canonical.ts:1055-1106 | the block loop with its flushes reads one message as specified |
| `RequestTranslation.NormalizeTurns` | packages/api-adapter/src/canonical.ts:375-402 | the message loop reads a request as specified |
| `RequestTranslation.RenderedTurnsAlternate` | packages/api-adapter/src/canonical.ts:304-312 | for every request, rendered roles strictly alternate, no message is empty and the blocks are those of the items in order |
| `RequestTranslation.GroupingIsUnique` | packages/api-adapter/src/canonical.ts:304-312 | there is only one such grouping |
| `RequestTranslation.CallRenders` | packages/api-adapter/src/canonical.ts:873-880 | in every list a call renders to one tool use of the assistant with its fields, or the object its text parses to, or the text under "raw"; a result to one tool result of the user, each behind the blocks of the items before it |
| `RequestTranslation.PartRenders` | packages/api-adapter/src/canonical.ts:946-961 | what each part of a message renders to |
| `RequestReading.ReadingSays` | packages/api-adapter/src/canonical.ts:1055-1106 | whatever the messages hold, the list read from them says exactly what their blocks stand for, in order, and makes up only the ids of unnamed calls |
| `RequestReading.PartsStayTogether` | packages/api-adapter/src/canonical.ts:1055-1106 | within one message, parts with no call or result between them form one item |
| `RequestRoundTrip.RoundTrip` | packages/api-adapter/src/canonical.ts:300-402 | rendering then normalizing a list whose calls and results are named and whose assistant turns have no usable image gives the list without empty content, phases, the text form of arguments and second image forms, with adjacent messages of one role coalesced; what a call with text arguments comes back as is `CallComesBack` |
| `RequestRoundTrip.RoundTripIff` | packages/api-adapter/src/canonical.ts:300-402 | for every list, the round trip gives it back with only empty content dropped and adjacent messages of one role and phase merged if and only if calls and results are named, arguments are objects, messages that say something have no phase, and usable images are the user's, in one form |
| `RequestRoundTrip.PhaseIsLost` | packages/api-adapter/src/canonical.ts:34-46 | two assistant messages of different phases come back as one without a phase |
| `RequestRoundTrip.BlocksKeptIff` | packages/api-adapter/src/canonical.ts:1055-1106 | for every list, the round trip keeps the rendered blocks and their roles if and only if every call and result is named and no usable image is in an assistant turn |
| `RequestRoundTrip.UnnamedCallIsNamed` | packages/api-adapter/src/canonical.ts:1069-1079 | an unnamed call comes back under a made-up id |
| `RequestRoundTrip.SecondRoundTrip` | packages/api-adapter/src/canonical.ts:300-402 | a second round trip is the identity on both sides |
| `RequestRoundTrip.CallComesBack` | packages/api-adapter/src/canonical.ts:300-402 | a named call of a faithful list comes back in its place, with the arguments its text parses to, or the text under "raw"; a result comes back as it was |
| `NetworkStore.ApplyHolds` | apps/network-stats/src/store.ts:213-310 | incremental upserts keep every row equal to the summary of its own events |
| `NetworkStore.SellerSums` | apps/network-stats/src/store.ts:236-301 | a seller's totals are those of its events, the sum over its buyers and the sum over its channels |
| `NetworkStore.NetworkSums` | apps/network-stats/src/store.ts:354-380 | all sellers together account for every counted event once |
| `NetworkStore.CountedIs` | apps/network-stats/src/store.ts:213-235 | exactly the events whose agent id is at most 2^53 - 1 are counted |
| `NetworkStore.SqliteStore.ApplyBatch` | apps/network-stats/src/store.ts:213-310 | the loop applies every event with a safe agent id, then sets the checkpoint |
| `NetworkStore.SqliteStore.GetSellerTotals` | apps/network-stats/src/store.ts:323-352 | none exactly for an unseen seller, else its own totals, blocks, and numbers of distinct buyers and channels |
| `NetworkStore.SqliteStore.GetNetworkTotals` | apps/network-stats/src/store.ts:354-380 | the totals of all counted events and the number of sellers |
| `Indexer.NextIsGood` | apps/network-stats/src/indexer.ts:88-154 | every stretch of a tick, failure, rollback, re-entry and restart keeps the invariant |
| `Indexer.RunAgrees` | apps/network-stats/src/indexer.ts:88-154 | over every interleaving the tables summarise all counted events from the deploy block to the checkpoint, each once |
| `Indexer.TotalsAgree` | apps/network-stats/src/indexer.ts:88-154 | and therefore all totals agree with the event history at every moment |
| `Indexer.CheckpointAdvances` | apps/network-stats/src/indexer.ts:100-107 | the checkpoint never moves back |
| `Indexer.BlocksBound` | apps/network-stats/src/store.ts:209-212 | first and last settled blocks are the least and greatest of the seller's events |
| `IndexerProgress.NeverPastBuffer` | apps/network-stats/src/indexer.ts:91-107 | over every run neither the checkpoint nor a range being fetched lies above the greatest head seen less the reorg buffer, and no batch holds more blocks than a tick may take |
| `IndexerProgress.FetchesIff` | apps/network-stats/src/indexer.ts:94-107 | told the head, a tick fetches nothing if and only if no block behind the buffer is left, and otherwise from the next block as far as buffer and limit allow |
| `IndexerProgress.ReachesHead` | apps/network-stats/src/indexer.ts:88-154 | if its ticks complete, the checkpoint reaches the head less the buffer in as many ticks as the limit needs |
| `IndexerProgress.OnlyCommitsStore` | apps/network-stats/src/indexer.ts:136-153 | only a commit changes what is stored, and applies exactly the blocks up to the new checkpoint; a rollback, a failure and a restart change nothing |
| `IndexerProgress.GuardIffWaiting` | apps/network-stats/src/indexer.ts:88-153 | over every run the guard is set exactly while a tick is under way |
| `IndexerProgress.StagesAre` | apps/network-stats/src/indexer.ts:88-153 | a tick waits for head, events and headers in turn, and whatever ends it, it waits no more |
| `IndexerProgress.LimitIs` | apps/network-stats/src/indexer.ts:37-57 | the block limit is the one given, or two thousand |
| `IndexerProgress.EventsInIs` | apps/network-stats/src/indexer.ts:109-109 | the events of a range are those of its blocks, one after the other |
| `Indexer.MetadataIndexer.constructor` | apps/network-stats/src/indexer.ts:37-57 | the configuration, with the default block limit |
| `Indexer.MetadataIndexer.BeginTick` | apps/network-stats/src/indexer.ts:88-91 | performs the guarded start |
| `Indexer.MetadataIndexer.ResumeHead` | apps/network-stats/src/indexer.ts:91-109 | performs the range computation; which blocks it fetches is `IndexerProgress.FetchesIff` |
| `Indexer.MetadataIndexer.ResumeEvents` | apps/network-stats/src/indexer.ts:109-118 | performs the stretch after the events arrive |
| `Indexer.MetadataIndexer.ResumeHeaders` | apps/network-stats/src/indexer.ts:116-145 | performs the stretch after block headers arrive |
| `Indexer.MetadataIndexer.Fail` | apps/network-stats/src/indexer.ts:148-153 | releases the guard and applies nothing |
| `NonceAllocator.OnlyFirstAcquires` | packages/buyer-core/src/base-evm-client.ts:197-204 | only the earliest arrival that has not released can take the lock |
| `NonceAllocator.NextKeepsInv` | packages/buyer-core/src/base-evm-client.ts:197-215 | every step keeps the promise chain a queue and the cursor past every sent nonce |
| `NonceAllocator.MutualExclusion` | packages/buyer-core/src/base-evm-client.ts:197-215 | in every interleaving at most one sender is between acquire and release |
| `NonceAllocator.NoncesIncrease` | packages/buyer-core/src/base-evm-client.ts:206-211 | nonces of successful sends strictly increase, whatever the network answers |
| `NonceAllocator.FailureLeavesCursor` | packages/buyer-core/src/base-evm-client.ts:206-214 | only a successful send moves the cursor |
| `NonceAllocator.NeverStuck` | packages/buyer-core/src/base-evm-client.ts:198-214 | while someone has not released, someone can move |
| `NonceAllocator.ConsecutiveWhenAlone` | packages/buyer-core/src/base-evm-client.ts:206-211 | so nonces leave no gap while network counts do not run ahead, failed sends included |
| `NonceAllocator.ConsecutiveIff` | packages/buyer-core/src/base-evm-client.ts:206-211 | over every run, sent nonces leave no gap if and only if no send that succeeded had been given a network count ahead of the cursor |
| `NonceAllocator.ReservesNext` | packages/buyer-core/src/base-evm-client.ts:206-208 | the nonce chosen is the network count or the cursor, whichever is greater, and the count without a cursor |
| `NonceAllocator.Allocator.Chain` | packages/buyer-core/src/base-evm-client.ts:197-203 | performs the arrival |
| `NonceAllocator.Allocator.Reserve` | packages/buyer-core/src/base-evm-client.ts:206-209 | performs the nonce choice |
| `NonceAllocator.Allocator.Accepted` | packages/buyer-core/src/base-evm-client.ts:210-211 | performs the cursor move |
| `AttestationEncoding.PrefixUnambiguous` | packages/antseed-verifier/src/report-data.ts:45-50 | a length-prefixed value can be split off in only one way |
| `AttestationEncoding.HashedBundle` | packages/antseed-verifier/src/shared.ts:68-81 | the loop hashes the sorted entries, or throws on a length of 2^32 or more |
| `AttestationEncoding.SortedIsUnique` | packages/antseed-verifier/src/shared.ts:68-69 | the sorted entries do not depend on insertion order |
| `Utf8.EncodeUnambiguous` | packages/antseed-verifier/src/shared.ts:74-75 | two ids are written alike if and only if they have the same code points |
| `Utf8.PointsDetermine` | packages/antseed-verifier/src/shared.ts:74-75 | a well-formed id is determined by its code points |
| `Utf8.PointsAre` | packages/antseed-verifier/src/shared.ts:74-75 | written in UTF-16 again, the code points of any string are its code units, but each surrogate that stands alone is replaced |
| `Utf8.PointReads` | packages/antseed-verifier/src/shared.ts:74-75 | a code point is written in the fewest bytes, and reads back from them |
| `AttestationLayout.LessIff` | packages/antseed-verifier/src/shared.ts:69-69 | an id sorts before another if and only if it is a proper beginning of it or smaller in the first code unit that differs |
| `AttestationLayout.BundleIs` | packages/antseed-verifier/src/shared.ts:68-81 | the hashed bytes are, read from the front, every entry but seller-bound once, in the order of ids, each id and evidence behind its four-byte length; they exist if and only if every length can be written |
| `AttestationLayout.ReportIs` | packages/antseed-verifier/src/report-data.ts:65-77 | the report bytes are the domain, the nonce behind its length, then each field present behind its tag and length |
| `AttestationLayout.SellerIs` | packages/antseed-verifier/src/shared.ts:93-100 | the signed bytes are the nonce, the digest and the forty digits in small letters; they exist if and only if the id is forty hex digits between white space |
| `AttestationEncoding.PreimageIsText` | packages/antseed-verifier/src/shared.ts:68-81 | for all bundles: same preimage if and only if same sorted text |
| `AttestationEncoding.BundleUnambiguous` | packages/antseed-verifier/src/shared.ts:57-81 | bundles with well-formed ids have the same preimage if and only if they hold the same evidence outside seller-bound; a bundle with plain ids shares its preimage with no other evidence at all |
| `AttestationEncoding.LoneSurrogatesCollide` | packages/antseed-verifier/src/shared.ts:74-75 | under any two single surrogates the same bytes give one preimage and two bundles |
| `AttestationEncoding.HashedReport` | packages/antseed-verifier/src/report-data.ts:65-77 | the field loop hashes domain, nonce and present fields |
| `AttestationEncoding.ReportUnambiguous` | packages/antseed-verifier/src/report-data.ts:45-77 | equal preimages have equal nonces and equal fields, absent ones included |
| `AttestationEncoding.FilledSellerPreimage` | packages/antseed-verifier/src/shared.ts:93-100 | the filled array is nonce, digest and the trimmed, lower-case peer id, or an invalid peer id throws |
| `AttestationEncoding.PaddingIsIgnored` | packages/antseed-verifier/src/shared.ts:40-46 | white space around a peer id makes no difference |
| `AttestationEncoding.SellerUnambiguous` | packages/antseed-verifier/src/shared.ts:83-100 | for digests of one length, equal preimages if and only if nonce, digest and normalized peer id are equal |
| `FreeUsage.NextChained` | packages/buyer-core/src/buyer-free-usage-manager.ts:238-248 | every step keeps the promise chain a queue in which an ask begins only when all earlier ones of its chain are over |
| `FreeUsage.OneSignaturePerChannel` | packages/buyer-core/src/buyer-free-usage-manager.ts:232-248 | in every interleaving without an unsafe re-open (one that brings back a session for which an ask of an earlier chain can still be accepted or is waiting), disconnects that start a new chain beside a running one and refused rows included, at most one ask per channel waits for its signature |
| `FreeUsageNumbers.SequencesRise` | packages/buyer-core/src/buyer-free-usage-manager.ts:250-310 | over every run without an unsafe re-open, what one process signs on a channel strictly rises to the session's latest |
| `FreeUsageNumbers.RunIntact` | packages/buyer-core/src/buyer-free-usage-manager.ts:250-310 | over every run without an unsafe re-open a channel's numbers are 1, 2, ..., n and all known if and only if every ask sent was for the next number, no crash fell between sending and persisting, and no process ended while the row was behind its session |
| `FreeUsageNumbers.SequencesAreConsecutive` | packages/buyer-core/src/buyer-free-usage-manager.ts:250-310 | so such runs sign 1, 2, 3, ... across restarts |
| `FreeUsageNumbers.NumbersKeptIff` | packages/buyer-core/src/buyer-free-usage-manager.ts:105-131 | after a restart or a crash that continues the channel, without an unsafe re-open before, its numbers rise in every orderly continuation if and only if the run up to and with that end was orderly |
| `FreeUsageNumbers.HydrationExactIff` | packages/buyer-core/src/buyer-free-usage-manager.ts:105-131 | such a restart or crash leaves rising numbers and a session that continues them if and only if the run was orderly |
| `FreeUsageNumbers.LostSendRepeats` | packages/buyer-core/src/buyer-free-usage-manager.ts:287-305 | a crash between sending and persisting: 1 is signed twice |
| `FreeUsageNumbers.RefusedRowRepeats` | packages/buyer-core/src/buyer-free-usage-manager.ts:287-305 | the store refuses the row after the number was sent and adopted: a clean restart signs 1 again |
| `FreeUsageNumbers.RestartCanGoBack` | packages/buyer-core/src/buyer-free-usage-manager.ts:124-124 | numbers passed over: after any first number above 2, a restart can sign 2 |
| `FreeUsageNumbers.RestoredSessionSignsTwice` | packages/buyer-core/src/buyer-free-usage-manager.ts:141-191 | a failed re-open brings back a session a disconnect dropped, and one process signs 1 twice |
| `FreeUsageTotals.UsageAddsUp` | packages/buyer-core/src/buyer-free-usage-manager.ts:250-310 | over every run without an unsafe re-open in which no authorization on the channel was lost, the k-th one counts k requests and carries the tokens of the first k asks signed, across restarts |
| `FreeUsageRows.StaysOnlyIff` | packages/buyer-core/src/buyer-free-usage-manager.ts:200-230 | the one active row stays the only one through a step if and only if the step makes no other row active and does not time it out |
| `FreeUsageRows.RestartContinues` | packages/buyer-core/src/buyer-free-usage-manager.ts:105-131 | however long after an acknowledgement, a restart continues with that channel and no other, from its row, while nothing so disturbs it |
| `FreeUsageRows.AckStoppedLeaves` | packages/buyer-core/src/buyer-free-usage-manager.ts:219-230 | an acknowledgement that the store stops half way has retired just the rows it got to; a refused one has changed no row |
| `FreeUsageRows.ClosedAcceptsNothing` | packages/buyer-core/src/buyer-free-usage-manager.ts:232-260 | after a disconnect, a timed-out or a failed opening, no ask is accepted over any run until a session is opened again |
| `FreeUsageRows.AcceptsIff` | packages/buyer-core/src/buyer-free-usage-manager.ts:255-280 | an ask is accepted if and only if it is for the current session and a later number than its latest, and then for one request and its own tokens more |
| `FreeUsageRows.RetiredComesBack` | packages/buyer-core/src/buyer-free-usage-manager.ts:357-384 | a late signature makes a retired channel active again, and a restart may continue with either |
| `FreeUsageRows.LateIsReached` | packages/buyer-core/src/buyer-free-usage-manager.ts:219-248 | opening another channel while an ask waits leads there |
| `FreeUsageReopen.AlwaysOneIff` | packages/buyer-core/src/buyer-free-usage-manager.ts:157-189 | for every run: all along it and in every safe continuation at most one ask per channel waits for its signature, if and only if no failed re-open brought back a session for which an ask of an earlier chain could still be accepted or was waiting |
| `FreeUsageReopen.AlwaysRisesIff` | packages/buyer-core/src/buyer-free-usage-manager.ts:157-189 | for every run: all along it and in every safe continuation the numbers one process signs on any channel strictly rise, under the same condition and only under it |
| `FreeUsageManager.BuyerFreeUsageManager.constructor` | packages/buyer-core/src/buyer-free-usage-manager.ts:105-131 | hydrates the first active channel the store lists |
| `FreeUsageManager.BuyerFreeUsageManager.BeginOpen` | packages/buyer-core/src/buyer-free-usage-manager.ts:141-144 | a live session is kept |
| `FreeUsageManager.BuyerFreeUsageManager.FinishOpen` | packages/buyer-core/src/buyer-free-usage-manager.ts:157-189 | performs the open step, or puts back the session found before when the send fails |
| `FreeUsageManager.BuyerFreeUsageManager.HandleAck` | packages/buyer-core/src/buyer-free-usage-manager.ts:219-230 | persists the session and retires the others, or stops where the store throws |
| `FreeUsageManager.BuyerFreeUsageManager.OnOpenTimeout` | packages/buyer-core/src/buyer-free-usage-manager.ts:200-208 | drops an unacknowledged session |
| `FreeUsageManager.BuyerFreeUsageManager.OnPeerDisconnect` | packages/buyer-core/src/buyer-free-usage-manager.ts:232-236 | drops session and chain |
| `FreeUsageManager.BuyerFreeUsageManager.HandleNeedAuth` | packages/buyer-core/src/buyer-free-usage-manager.ts:238-248 | chains the ask behind the latest one |
| `FreeUsageManager.BuyerFreeUsageManager.BeginNeedAuth` | packages/buyer-core/src/buyer-free-usage-manager.ts:250-280 | performs the first half of an ask |
| `FreeUsageManager.BuyerFreeUsageManager.FinishNeedAuth` | packages/buyer-core/src/buyer-free-usage-manager.ts:280-310 | performs the second half: send, remember, and persist unless the store refuses |
| `ViewCache.NextKeepsInv` | apps/ants/src/view-cache.ts:13-38 | every step keeps cached values and loads in flight in the current generation |
| `ViewCache.ReadsAreFresh` | apps/ants/src/view-cache.ts:13-31 | in every interleaving a read returns a load of its key that began after the last invalidation |
| `ViewCache.OneLoadPerKey` | apps/ants/src/view-cache.ts:16-20 | since the last invalidation at most one load per key is in flight |
| `ViewCache.StaleLoadsAreIgnored` | apps/ants/src/view-cache.ts:21-29 | a load from an earlier generation changes nothing when it settles |
| `ViewCache.ServedIsYoung` | apps/ants/src/view-cache.ts:13-20 | in every interleaving a finished load is served only if its value was kept less than the time to live ago |
| `ViewCache.KeptIsServed` | apps/ants/src/view-cache.ts:13-31 | a kept value is served to every read within the time to live, without another load, until its key is invalidated or loaded again |
| `ViewCache.StartsIff` | apps/ants/src/view-cache.ts:13-20 | a read starts a load exactly when no kept value is young enough and none is under way; a load under way is shared |
| `ViewCache.NotKeptIsGone` | apps/ants/src/view-cache.ts:22-29 | a load that fails or is not to be kept leaves nothing that a later read would be served |
| `ViewCache.Cache.Read` | apps/ants/src/view-cache.ts:13-20 | performs the read and answers which load it returns |
| `ViewCache.Cache.Complete` | apps/ants/src/view-cache.ts:22-28 | performs a completion |
| `ViewCache.Cache.FailLoad` | apps/ants/src/view-cache.ts:20-29 | performs a failed load: it is no longer in flight, and nothing is cached |
| `ViewCache.Cache.Invalidate` | apps/ants/src/view-cache.ts:33-38 | performs an invalidation |

## Left out

- Signing, hashing, quote and token verification: foreign cryptography; values are given.
- The list of services inside the metadata: represented by the sum of the amounts attributed.
- Interleaving of session-channel handlers at every wait: each handler is one step, with crash and failure points inside it.
- Lock confirmation and rejection flags, session cleanup and the billing caches: no payment arithmetic.
- `SessionRuns.StepSound`: says nothing about the tokens and requests of the row, because `recordAndPersistTokens` writes its own totals over them.
- `adoptPersistedAuthorization` (`packages/buyer-core/src/buyer-payment-manager.ts:342`), which replaces a channel's memory by a row written elsewhere: nothing relates that row to the channel.
- Stores without an atomic `commitAuthorization`: a commit is one effect.
- Runs of `SessionRuns` begin at a stored row or a completed opening; a later opening for the same seller begins a new run, or is `OpeningFailedIff`.
- One record per seller stands for the several maps the payment manager keeps in parallel; the maps always change together.
- JSON text, `TextDecoder` and floating-point rounding in `Number(...)` and in `duration * 1000`: integers are exact, with the safe-integer checks of the source kept.
- Usage merging across stream events, and token usage in rendered streams: a per-field choice.
- The Anthropic round trip of streams in which text follows a tool call or tools interleave: their frames and events are proved one by one (`AnthropicContent.RenderedIs`, `AnthropicReading.NormalizedIs`), but they need not come back.
- The Responses normalizer, the chat renderer and the Responses and chat request translations: the same techniques on fewer cases.
- Prompt-cache markers, tools, tool choice and scalar fields of requests: copied field by field.
- Message content given as a plain string or as nested blocks in an Anthropic request: the renderer never produces it.
- Block timestamps in the store, and several contracts sharing one store: they do not enter the totals.
- `ResponseAccounting.RunBalances`: runs lie within one process, because a restart empties the request tracker.
- One-off channels hydrated after a restart: their reports belong to the process that made them.
- `PaymentManager.BuyerPaymentManager.constructor`: the fields of a pending reserve authorization are stored together or not at all.
- Timeouts, polling, sockets, HTTP servers, discovery, relays and user interfaces.
