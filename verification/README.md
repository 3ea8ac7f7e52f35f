# Bozor: a verified model of its transactional core

Bozor is a classifieds marketplace built of services that share nothing but events. This project
models the parts where transactional steps interleave, and proves what survives every run of them.

A committed SQL transaction is one atomic step over maps and sequences; one that returns an error
has changed nothing. Where the source updates tables in place, a class does the same and each method
is proved equal to a specification function of the old tables; the laws are then proved of those
functions and of state machines that interleave them with crashes, redelivery and failing calls.
Generated ids are new, and infrastructure failures are parameters of a call or steps of a run. A write
that fails was rolled back, or was committed and its answer lost: both are steps wherever the caller
then does something that a retry or the inbox would not absorb.

| file | what it holds |
|---|---|
| `Clock`, `Collections` | time; options, results, folds over sequences |
| `RefundArithmetic` | refund of the unused part of a service, in wrapping 64-bit arithmetic |
| `PaymentsDb`, `PaymentsRepo`, `Ledger` | wallet, double-entry ledger, provider payments, paid services |
| `PaymentsRuns`, `TopUps`, `OverlappingRefunds`, `LostActivation` | every interleaving of callbacks, purchase sagas and lifecycle handlers |
| `PaymentsServices`, `PurchaseRuns`, `Pricing` | purchase saga and lifecycle reactions, as runs of those interleavings; prices and plans |
| `PaidTime`, `PaidTimeRuns` | frozen and thawed time, of one row and in every run |
| `Bumps` | scheduled bumps claimed by any number of workers |
| `Bus`, `BusRuns` | outbox, relays, stream, delivery and acknowledgement |
| `Listing`, `AdValidation`, `ListingService`, `ListingRuns`, `Expiry` | ads and what they must satisfy, owner and moderator actions, stale writes, expiry sweeps |
| `AdReads`, `AdValues` | what a reader finds after each action, column by column; which values are accepted |
| `SearchIndex`, `Indexing`, `OverlappingHandlers` | the search index and its convergence to the ads |
| `Moderation`, `OverlappingDecisions` | moderation decisions and the inbox |
| `RefreshTokens` | token rotation with reuse detection, the pattern of section 4.14.2 of RFC 9700 |
| `Categories`, `UncleanSlugs`, `EffectiveAttributes`, `CategoryTree` | materialised paths against parent chains |
| `Views`, `SavedSearch`, `SearchAlerts` | buffered view counts; prefiltered, deduplicated, throttled alerts and who gets them |

## What turned out to be conditional

Each of these is proved under the condition it names, and a concrete run or value shows it failing without.

- Refunds stay within purchases while one lifecycle handler of an ad runs at a time and the purchase
  saga hears of every activation that was committed; one taken for failed is delivered and paid back,
  and the surplus is at most the price of those.
- A view is counted once while a flusher hears of every batch that was committed.
- The index converges while one handler of an ad runs at a time; a moderation decision acts once while
  one handler of its event does. JetStream can redeliver a message whose handler is slower than its
  acknowledgement window, so the code excludes none of these overlaps.
- Blocked is absorbing while an edit finds the ad in the status it read. An edit writes back the
  status it read, so a late one puts a blocked ad back on show.
- A resumption moves the end of a service but not its start, so the same unused seconds are prorated
  over a longer term: the refund is never larger than before, and the same exactly when the old one
  times the longer term is still covered by price × unused seconds.
- A refund is exact while price × seconds fits 64 bits; beyond that it is too small.
- The category path test equals the parent chain while slugs are free of `%`, `_`, the backslash, and
  `/` after the first character. Nothing in the service checks that. It is necessary too, but for slugs
  that quote a special character with a backslash: one that still matches itself as a pattern does
  no harm among slugs without `/`.
- A day is really bumped as often as it was reported plus the times an answer of Listing was lost
  after the bump; so it is bumped at most once exactly while that sum is at most one.
- A bundle without items is charged and delivers nothing; one that starts with bumps refunds nothing.
  An error while building the activation event keeps the charge (`EventFailed`).

Where code and documentation differ, the code is modelled: refunds are posted against
`external_topup` (services/payments/internal/repo/wallet.go:64-88), while the account list and the
design decisions name `refund_source`; submission is open to active ads too
(services/listing/internal/app/service.go:335-344), not only to drafts and rejected ones.

## Model

| member | source | states |
|---|---|---|
| RefundArithmetic.RefundIsExactIff | services/payments/internal/domain/ad_promotion.go:70-96 | The refund is the exact floor of amount × unused / total whole seconds if and only if amount × unused seconds fits 64 bits |
| RefundArithmetic.RefundWithinPrice | services/payments/internal/domain/ad_promotion.go:70-96 | A refund lies between nothing and the price, is the whole price when nothing was used and nothing when everything was |
| RefundArithmetic.RefundShrinksWithUse | services/payments/internal/domain/ad_promotion.go:70-96 | Fewer seconds left of at least as many paid for never refund more |
| RefundArithmetic.WrappedDivisionIsWrong | services/payments/internal/domain/ad_promotion.go:70-96 | Once the product wraps around 64 bits, no division by a term in seconds hides it: the result is too small |
| RefundArithmetic.OverflowIsReachable | services/payments/internal/domain/ad_promotion.go:70-96 | A week bought for 2^44 and not used at all: the product wraps and the refund is negative |
| Ledger.CreditKeepsBooks | services/payments/internal/repo/wallet.go:64-88 | A credit raises the balance by the amount and keeps: balance = signed sum of postings and non-negative, version = number of operations, every operation sums to zero, system accounts as below |
| Ledger.DebitKeepsBooks | services/payments/internal/repo/wallet.go:118-156 | A debit succeeds exactly when the amount is positive and covered, takes exactly it, and keeps the same books |
| Ledger.PairKeepsLedger | services/payments/internal/repo/wallet.go:193-204 | Any pair of postings with its wallet update keeps balances, versions and zero-sum operations |
| Ledger.PairKeepsAccounts | services/payments/internal/domain/wallet.go:20-68 | Revenue equals purchases; the top-up account funds both top-ups and refunds; the refund source stays at zero |
| PaymentsRuns.RunKeepsBooks | services/payments/internal/repo/wallet.go:46-156 | Those books hold in every state of every interleaving, overlapping lifecycle handlers included |
| PaymentsRepo.Repo.InsertPostings | services/payments/internal/repo/wallet.go:193-204 | One fresh operation id for all postings, in order |
| PaymentsRepo.Repo.Credit | services/payments/internal/repo/wallet.go:64-88 | The in-place upsert and postings are the credit transaction, and nothing else changes |
| PaymentsRepo.Repo.Debit | services/payments/internal/repo/wallet.go:118-156 | Error order, guard and new tables of a debit; an error changes nothing |
| PaymentsRepo.Repo.Refund | services/payments/internal/repo/wallet.go:91-115 | Credit of kind refund and its event in one transaction |
| PaymentsRepo.Repo.CreatePayment | services/payments/internal/repo/payment.go:31-38 | A pending payment without a provider reference, or an error and no change |
| PaymentsRepo.Repo.SetExternalId | services/payments/internal/repo/payment.go:54-62 | Only a pending payment without another reference takes it; a reference in use is refused |
| PaymentsRepo.Repo.ConfirmPayment | services/payments/internal/repo/payment.go:67-103 | Status, credit and event in one step, only from pending; says whether this call credited |
| PaymentsRepo.Repo.FailPayment | services/payments/internal/repo/payment.go:108-143 | Failed or cancelled with its event, only from pending |
| PaymentsRepo.Repo.ActivatePromotions | services/payments/internal/repo/ad_promotion.go:21-43 | All rows and the event, in order |
| PaymentsDb.FreezeThenThaw | services/payments/internal/repo/ad_promotion.go:100-140 | Freezing an ad's services and thawing them later moves the end of each active one by the time between and changes nothing else; thawing at once changes nothing |
| PaymentsRepo.Repo.ResumePromotions | services/payments/internal/repo/ad_promotion.go:118-140 | Thaws the frozen rows and enqueues the event given, or does nothing when there are none |
| PaymentsRepo.Repo.RefundPromotions | services/payments/internal/repo/ad_promotion.go:147-176 | Closes the live rows, credits a positive amount and announces it, or does nothing when none is live |
| PaymentsDb.ListedNewestFirst | services/payments/internal/repo/ad_promotion.go:179-209 | Exactly the ad's rows in that status are listed, in the reverse of the order they were inserted in |
| PaymentsRuns.RefundsNeverExceedPurchases | services/payments/internal/app/lifecycle.go:44-65 | In every run with one lifecycle handler per ad at a time: refunds of an ad, its live services and the debits in flight never exceed its purchases by more than the price of services delivered and paid back, which is nothing while the saga hears of every committed activation |
| PaymentsRuns.StepKeepsInv | services/payments/internal/app/promotion_ad.go:88-125 | Each step of sagas, callbacks and handlers keeps that, and money kept for an ad, counting what was given away as paid, never shrinks |
| PaymentsRuns.OnlyTheOwnerIsRefunded | services/payments/internal/app/lifecycle.go:54-64 | Every purchase or refund of an ad is on its owner's wallet |
| PaymentsRuns.RefundAtMostPrice | services/payments/internal/domain/ad_promotion.go:70-96 | A refund never exceeds the price, even when the product wraps |
| PaymentsRuns.ListedRefundCovered | services/payments/internal/app/lifecycle.go:54-60 | What is due on listed rows is covered by the live rows, and all belong to one owner |
| OverlappingRefunds.OverlappingRefundsOverpay | services/payments/internal/repo/ad_promotion.go:147-176 | With two refund handlers of one ad at once: a run that pays 110 for two rows and returns 200 |
| LostActivation.LostActivationOverpays | services/payments/internal/app/promotion_ad.go:117-124 | With an activation committed but taken for failed: a serial run that pays 100 and returns 200, the surplus being exactly what was given away |
| TopUps.TopUpExactlyOnce | services/payments/internal/repo/payment.go:67-143 | Under any interleaving a payment is succeeded iff exactly one top-up posting of its amount, to its owner, references it; at most one outcome event |
| TopUps.TerminalForever | services/payments/internal/domain/payment.go:48-50 | Final statuses never change |
| TopUps.ReferenceNamesOnePayment | services/payments/internal/repo/payment.go:54-103 | Two payments of a provider never carry one external id |
| TopUps.PaymentsAreRequested | services/payments/internal/repo/payment.go:31-38 | Every payment of a run was asked for: some step created it, and payer, provider and amount are those asked for |
| TopUps.ConfirmationPays | services/payments/internal/repo/payment.go:67-103 | A confirmation of a pending payment credits its payer alone with its amount, keeps or takes the reference, and announces exactly that; any other changes nothing |
| TopUps.FailureEnds | services/payments/internal/repo/payment.go:108-143 | A failure gives a pending payment the very status asked for and announces it, without money; a final one stays |
| TopUps.ReferenceIsTaken | services/payments/internal/repo/payment.go:54-62 | A pending payment takes a reference only if it has no other; one in use at the provider is refused |
| PaymentsServices.PromotionService.Promote | services/payments/internal/app/promotion_ad.go:68-126 | For every failing read and every write confirmed, rolled back or committed unheard: who is refused and in which order, what is returned, and the whole table left. The buyer is charged and paid back as said and nobody else's balance moves; the announcement names the ad, its owner and title, and, exactly when a TOP service was delivered, the end of the last one with that end's whole second as its rank |
| PaymentsServices.WhoMayBuy | services/payments/internal/app/promotion_ad.go:69-86 | A purchase goes ahead exactly for the owner of an active ad and a plan at a positive price; faults of the ad are told before those of the plan |
| PurchaseRuns.PurchaseIsARun | services/payments/internal/app/promotion_ad.go:88-126 | However its writes end, a purchase is a run of the interleaving machine: no step if refused, else its charge and the steps after it, to exactly the tables it leaves |
| PurchaseRuns.ClosingIsARun | services/payments/internal/app/lifecycle.go:44-65 | Closing an ad's services is the machine's reading step and writing step, or no step |
| PurchaseRuns.ThawingIsARun | services/payments/internal/app/lifecycle.go:71-81 | Thawing them likewise |
| PurchaseRuns.MethodsReturnNoMoreThanPaid | services/payments/internal/app/lifecycle.go:44-65 | So after any run and any such method: returned + running + in flight never exceed paid + given away |
| PaymentsServices.PromotionService.MakeRows | services/payments/internal/app/promotion_ad.go:93-110 | One row per item delivering the plan, the price on the first, and the last TOP end date |
| PaymentsServices.PromotionService.Plan | services/payments/internal/app/promotion_ad.go:136-153 | The plan is built from prices of the ad's region and category, or a failing read of rules or products is passed on |
| PaymentsServices.PromotionService.PricedForTheAd | services/payments/internal/app/promotion_ad.go:136-213 | The price of a plan is the one the table says, by that precedence, for the very region and category of the ad |
| PaymentsServices.PromotionService.RunsForTheDays | services/payments/internal/app/promotion_ad.go:155-241 | What is planned runs for the days asked for, or for those of the bundle's items, from the time of planning |
| PaymentsServices.RowsCarryThePriceIff | services/payments/internal/app/promotion_ad.go:95-110 | The rows carry the price exactly when there is an item: an empty bundle is charged and delivers nothing |
| PaymentsServices.ImmediateRefund | services/payments/internal/app/promotion_ad.go:97-101 | Bought and given back at once: the price returns when the first item was sold for a term of a second or more, and nothing otherwise, as for a bundle starting with bumps |
| PaymentsServices.LifecycleService.Refund | services/payments/internal/app/lifecycle.go:44-65 | Closes every active or suspended service of the ad and changes no other. When they are of one owner, that owner's balance grows by the sum of what each refunds, if positive, nobody else's changes, and one announcement and one pair of postings tell it |
| PaymentsServices.LifecycleService.Resume | services/payments/internal/app/lifecycle.go:71-81 | Thaws with the event of the listed rows, and says whether anything was frozen |
| PaymentsServices.LifecycleService.BuildResumeEvent | services/payments/internal/app/lifecycle.go:86-104 | The first listed TOP row with an end date makes the event |
| PaymentsServices.LifecycleService.Handle | services/payments/internal/worker/lifecycle.go:48-100 | Which event of an ad does what to its paid services; after a block or a deletion the owner has been paid what the unfinished ones are worth |
| PaymentsServices.FrozenServicesArePaid | services/payments/internal/app/lifecycle.go:37-65 | Services frozen at one time and closed at a later one return to the owner exactly what they were worth at the freeze, however long it lasted |
| PaymentsServices.ListedIffSuspended | services/payments/internal/app/lifecycle.go:72-78 | The list is empty exactly when nothing is frozen |
| PaymentsServices.RefundIsIdempotent | services/payments/internal/repo/ad_promotion.go:142-156 | A second delivery finds nothing to close and changes nothing |
| PaidTime.PaidTimeConserved | services/payments/internal/repo/ad_promotion.go:103-140 | Over any suspensions and resumptions the time left shrinks only by time spent active, and the end date moves on by exactly the time frozen |
| PaidTime.RefundNeverGrows | services/payments/internal/domain/ad_promotion.go:70-96 | Along any such run the refund due never grows |
| PaidTime.SuspensionKeepsRefund | services/payments/internal/repo/ad_promotion.go:103-112 | A freeze keeps the refund due at that moment for as long as it lasts |
| PaidTime.ResumptionRefundsNoMore | services/payments/internal/repo/ad_promotion.go:121-126 | Thawing never raises the refund |
| PaidTime.ThawedRefundIs | services/payments/internal/domain/ad_promotion.go:70-96 | A thawed service refunds the floor of amount × the same unused seconds / a term longer by the time frozen |
| PaidTime.ResumptionRefundsTheSameIff | services/payments/internal/repo/ad_promotion.go:121-126 | Thawing leaves the refund as it was exactly when the old refund times the longer term is still covered by amount × unused seconds |
| PaidTime.ResumptionCanRefundLess | services/payments/internal/repo/ad_promotion.go:121-126 | It can lower it: 60 000 due while frozen, 30 000 once thawed |
| PaidTimeRuns.PaidTimeInRuns | services/payments/internal/app/lifecycle.go:37-81 | For every row and every state of every serial run whose clock does not go back: until it is closed, time left shrinks only by time spent active, the end moves on by exactly the time frozen, and the refund due never grows |
| PaidTime.ResumeEventIsNewestTop | services/payments/internal/app/lifecycle.go:86-104 | An event is built exactly when a TOP service with an end date is frozen, and is the newest one's |
| PaidTime.RowAndEventAgreeIff | services/payments/internal/app/lifecycle.go:91 | Row and event agree on the new end date exactly when the freeze fits Go's duration |
| PaidTime.CommittedEventMatchesRow | services/payments/internal/app/lifecycle.go:71-104 | In every serial run, a committed resume event is that of the newest frozen TOP service with an end: its ad and owner, the title given, its new end date as thawed by that very transaction, and that end's whole second as rank |
| Pricing.ResolvePrices | services/payments/internal/domain/promotion.go:79-92 | The loops compute, for each key, the price that the precedence below gives it |
| Pricing.PricesByPrecedence | services/payments/internal/domain/promotion.go:56-92 | With unique rules, what a service or a bundle costs in a region and a category is said by the rule naming both; failing that by the one naming the region alone; failing that by the one naming the category alone; failing that by the general one; and there is no price when there is none of them |
| Pricing.BestIsMostSpecific | services/payments/internal/domain/promotion.go:56-92 | A key is priced iff a rule has it, by a rule as specific as any |
| Pricing.PricesIgnoreOrder | services/payments/internal/domain/promotion.go:79-92 | With one rule per product, duration, region and category, prices do not depend on the order of rules |
| Pricing.SpecificRuleWins | services/payments/internal/domain/promotion.go:56-67 | A rule for the very region and category wins |
| Pricing.GetCatalog | services/payments/internal/app/catalog.go:60-97 | The appended lists are exactly the priced services and bundles |
| Pricing.OptionsAreOffers | services/payments/internal/app/catalog.go:60-97 | Options are exactly the sold durations that have a price |
| Pricing.OptionsKeepOrder | services/payments/internal/app/catalog.go:66-80 | Options keep the order in which durations are sold |
| Pricing.CatalogShowsAll | services/payments/internal/app/catalog.go:60-97 | Every service and bundle is shown, in order, a bundle marked priced exactly when it has a price |
| Pricing.MakeBundlePlan | services/payments/internal/app/promotion_ad.go:180-213 | The item loop yields the plan of the bundle |
| Pricing.PlanTerms | services/payments/internal/app/promotion_ad.go:155-213 | Items run for the days sold from now, bumps have no end and their own schedule, one item per bundle service in order, a TOP service leads, and the plan knows its bundle |
| Pricing.PlanFailsBecause | services/payments/internal/app/promotion_ad.go:136-213 | Which request fails with which error: nothing named, an unknown bundle or service, a duration not sold, no price |
| Pricing.PlanIsTheQuote | services/payments/internal/app/promotion_ad.go:136-213 | A request is plannable exactly when the catalogue quotes it, at exactly the quoted amount |
| Bumps.Bumper.RunOne | services/payments/internal/worker/bump.go:79-111 | Claim, bump, release: which claims remain after each answer, and when the ad counts as bumped |
| Bumps.Bumper.Sweep | services/payments/internal/worker/bump.go:59-74 | One batch of due days in turn, and the count of real bumps |
| Bumps.BatchIsTheOldestDue | services/payments/internal/repo/ad_promotion.go:45-77 | A batch holds only due days, oldest promotions first, and leaves out only for the limit and only no older ones |
| Bumps.BatchNamesDaysOnce | services/payments/internal/repo/ad_promotion.go:45-77 | No day is in a batch twice |
| Bumps.OneDayInTheMachine | services/payments/internal/worker/bump.go:79-111 | For every answer and every failing call, one day's claim, call and release are steps of the machine below, with the same claims and bumps: reported and inactive days stay claimed, an unanswered one is freed if the release got through |
| Bumps.SweepIsARun | services/payments/internal/worker/bump.go:59-74 | A whole sweep is a run of that machine, with the same batch, claims and count |
| Bumps.OneVerdictPerDay | services/payments/internal/repo/ad_promotion.go:79-98 | Any number of workers claiming and releasing, any crashes: a day has one holder at most and one verdict at most, and is claimed iff it has one of them |
| Bumps.NeverDueAgain | services/payments/internal/worker/bump.go:100-110 | A day reported done or inactive, or lost, is never due and never claimed again |
| Bumps.ReportedDaysAreDone | services/payments/internal/worker/bump.go:100-110 | In every run, from the report of a day on, as bumped or as inactive, it stays claimed and is never due |
| Bumps.RealBumpsCounted | services/payments/internal/worker/bump.go:79-111 | In every run the real bumps of a day are the reported one, if any, plus those whose answer was lost; so at most one iff that sum is at most one, and with no such answer lost, bumped exactly when reported |
| Bumps.LostAnswerBumpsTwice | services/payments/internal/worker/bump.go:91-103 | A run with one reported bump and two real ones, through a lost answer |
| Bus.Relay.PublishBatch | pkg/shared/outbox/relay.go:156-173 | Returns the ids heard to be stored; failures and unreadable payloads skip one message each |
| Bus.Relay.RunOnce | pkg/shared/outbox/relay.go:100-151 | Picks unlocked unpublished rows, marks exactly the heard ones, none if the commit fails |
| Bus.MarkedExactlyWhenHeard | pkg/shared/outbox/relay.go:94-151 | A picked row is marked iff its event was heard to be stored; no other field or row changes |
| Bus.StreamGets | pkg/shared/outbox/relay.go:156-173 | A pass puts an event in the stream exactly when the broker stores its message, whether or not the relay hears of it |
| Bus.PickedRows | pkg/shared/outbox/relay.go:108-111 | A batch holds only open unlocked rows, and all of them below the limit |
| Bus.PickedInOrder | pkg/shared/outbox/relay.go:108-111 | A batch is the first open unlocked rows in the order of the table, as many as the limit allows |
| BusRuns.OldestRowsFirst | pkg/shared/outbox/relay.go:108-111 | Among any number of relays, a row is left for later only when the batch is full of earlier ones |
| Bus.LifeOfAMessage | pkg/shared/natsx/natsx.go:107-148 | A message is acknowledged by the first attempt that handles it, given up exactly when the last attempt allowed has failed, and offered again until then, for ever without a limit; one that does not parse is given up at once |
| Bus.BackoffFits | pkg/shared/natsx/natsx.go:150-159 | Pauses of one, five and fifteen seconds, the first ones as far as deliveries go |
| BusRuns.RelayStepKeepsBus | pkg/shared/outbox/relay.go:94-151 | Any number of relays: marked means in the stream, no row in two relays' hands |
| Indexing.MarkedMeansInStream | pkg/shared/outbox/relay.go:137-150 | The same over whole runs, with crashes and redelivery |
| Listing.AdRepo.CreateWithEvent | services/listing/internal/repo/ad.go:38-59 | Row, children and event, or nothing |
| Listing.AdRepo.ExecTransition | services/listing/internal/repo/ad.go:91-102 | Moves the status only from the one seen; missing dates keep those there |
| Listing.AdRepo.TransitionWithEvent | services/listing/internal/repo/ad.go:108-119 | Moves and announces, or refuses and changes nothing |
| Listing.AdRepo.ApplyModerationWithEvent | services/listing/internal/repo/ad.go:126-139 | Moves and announces only from the planned status; marks the event in any case |
| Listing.AdRepo.ExpireWithEvent | services/listing/internal/repo/ad.go:182-199 | Expires only an active ad whose date has come, with its event |
| Listing.AdRepo.BumpWithEvent | services/listing/internal/repo/ad.go:208-225 | Only an active ad, with its event |
| Listing.AdRepo.SetPromotionWithEvent | services/listing/internal/repo/ad.go:235-252 | Only an active ad, with its event |
| Listing.AdRepo.ClearPromotionWithEvent | services/listing/internal/repo/ad.go:285-302 | Only a promotion that is over, with its event |
| Listing.AdRepo.AddViews | services/listing/internal/repo/ad.go:307-332 | Adds each delta to its ad, if it is there |
| Listing.AdRepo.UpdateWithEvent | services/listing/internal/repo/ad.go:338-366 | Replaces the editable columns, status and children, whatever the row has become |
| Listing.AdRepo.DeleteWithEvent | services/listing/internal/repo/ad.go:370-381 | Removes the ad and announces it, or reports it missing |
| ListingService.ApplyUpdate | services/listing/internal/app/service.go:237-277 | The field-by-field edit, and whether a moderator must look again |
| AdValidation.ValidateImages | services/listing/internal/domain/ad.go:168-182 | The counting loop names the flaw: more than ten images, else two covers |
| AdValidation.ValidateAttributes | services/listing/internal/domain/attribute.go:29-56 | The three loops find the flaw of the first value that has one, else a missing required attribute, whatever texts are read as floating-point numbers |
| AdValidation.AcceptedIffFits | services/listing/internal/domain/attribute.go:58-76 | Values are accepted exactly when each belongs to an attribute of the category and is of its type and nothing required is missing; the first offending value is blamed, and a missing one only when all are good |
| AdValues.CountsItsBytes | services/listing/internal/domain/ad.go:155 | A character counts for as many bytes as its UTF-8 form has (section 3 of RFC 3629) |
| AdValues.FirstCoreFlaw | services/listing/internal/domain/ad.go:151-165 | Which flaw of the fields is named: title missing or over 120 bytes, price negative, category, region missing, in that order |
| AdValues.FirstImagesFlaw | services/listing/internal/domain/ad.go:168-182 | Eleven images are too many, else two covers are; one cover or none is fine |
| AdValues.GoodForItsType | services/listing/internal/domain/attribute.go:58-76 | Which values are good for each type of attribute, and which flaw the others have |
| AdValues.IntegersOf64Bits | services/listing/internal/domain/attribute.go:60-62 | The numeral of an integer is accepted as a value exactly when the integer has 64 bits |
| AdValues.PaddedIntegers | services/listing/internal/domain/attribute.go:60-62 | A plus sign and leading zeros change nothing about that |
| AdValues.OnlyIntegersAccepted | services/listing/internal/domain/attribute.go:60-62 | Anything accepted is digits, after a sign or none |
| AdValues.LastSpecCounts | services/listing/internal/domain/attribute.go:33-36 | Of several specifications of a slug the last one counts |
| ListingService.UnmoderatedEditsKeepKeys | services/listing/internal/app/service.go:218-221 | An active ad stays on show after an edit exactly when nothing a moderator judges was touched |
| ListingService.Service.ChangeStatus | services/listing/internal/app/service.go:337-420 | Submit, sell, archive, renew: refusals in order, new status and dates; the ad returned is the ad stored |
| ListingService.Service.Update | services/listing/internal/app/service.go:190-232 | Refusals in order, each with its own error: ownership, status, fields with the title in bytes, images, the catalogue, attribute values; the edited ad returned is the ad stored |
| AdReads.EditIsStored | services/listing/internal/app/service.go:190-277 | After an edit every column reads as given, or as before where nothing was given; the status goes back to pending exactly when an ad on show has a change a moderator judges; other ads stay and one event tells |
| AdReads.EditAllowedIff | services/listing/internal/app/service.go:190-216 | An edit is allowed exactly for the owner of a draft, pending, rejected or active ad whose edited fields keep every limit |
| AdReads.EditRefusedBecause | services/listing/internal/app/service.go:190-216 | Which error a refused edit gets, by the first of: owner, status, fields, images, catalogue, attributes |
| AdReads.StatusActionIsStored | services/listing/internal/app/service.go:335-420 | Who may submit, sell, archive or renew from which status, and the whole ad and event after it |
| AdReads.RemovalIsStored | services/listing/internal/app/service.go:281-294 | The owner alone removes an ad; it is gone, others stay, one event tells |
| AdReads.DecisionIsStored | services/listing/internal/worker/moderation.go:53-134 | A decision gives a fitting ad exactly its status and, for an approval, the dates now and now + term; otherwise it only marks the event |
| AdReads.ShownForTheTerm | services/listing/internal/worker/expiry.go:59-115 | An ad approved or renewed is taken down by an expiry sweep exactly from the end of its term on |
| AdReads.PromotedUntilItsEnd | services/listing/internal/repo/ad.go:235-302 | A promotion sets the three columns, is taken down exactly from its end on, never without one, and leaves no trace |
| AdReads.HiddenAdsStay | services/listing/internal/repo/ad.go:208-252 | An ad that is not active is neither bumped nor promoted |
| AdReads.CreationIsStored | services/listing/internal/repo/ad.go:38-59 | A created ad reads as given, without a promotion; its id was free |
| AdReads.BumpIsStored | services/listing/internal/repo/ad.go:208-225 | A bump sets the bump date and nothing else, with its event |
| AdReads.ViewsAreStored | services/listing/internal/repo/ad.go:307-332 | A batch adds each ad its own count and changes nothing else |
| AdReads.WritesFailBecause | services/listing/internal/repo/ad.go:38-381 | Which writes are refused with which error; all others go through |
| ListingService.SubmitAllowedIff | services/listing/internal/app/service.go:335-344 | Submission is allowed from draft, rejected and active |
| ListingRuns.PublishedAdsAreDated | services/listing/internal/repo/ad.go:91-102 | However stale the plans: an active, sold, expired or archived ad has both dates |
| ListingRuns.WritesKeepDates | services/listing/internal/repo/ad.go:91-381 | No write unsets a date or brings an ad back |
| ListingRuns.StatusesFollowTheMap | services/listing/internal/domain/ad.go:49-64 | With edits atomic, a status changes only to pending from draft, rejected and active, to active from pending and expired, to rejected from pending, to sold, expired and archived from active, and to blocked |
| ListingRuns.OnlyEditsUnblock | services/listing/internal/repo/ad.go:340-345 | A write takes an ad out of blocked iff it is an edit of it |
| ListingRuns.BlockedUntilDeleted | services/listing/internal/worker/moderation.go:126-130 | With edits atomic, blocked is absorbing until deletion, and a deleted ad does not return |
| ListingRuns.StaleEditUnblocks | services/listing/internal/app/service.go:190-232 | A run in which an edit written late puts a blocked ad back on show |
| Expiry.Expirer.SweepOne | services/listing/internal/worker/expiry.go:99-135 | The deadline is checked again by the write; event and ad change together |
| Expiry.Expirer.Sweep | services/listing/internal/worker/expiry.go:59-95 | Exactly the listed ads are swept, each with its event, and counted |
| Expiry.SweepFinishes | services/listing/internal/worker/expiry.go:59-95 | A sweep below its limit without failures leaves nothing that was due |
| SearchIndex.ChangesAreAnnounced | services/listing/internal/repo/ad.go:36-381 | No write changes what the index can see of an ad without an event about that ad |
| SearchIndex.Indexer.Sync | services/search/internal/indexer/indexer.go:70-84 | An active ad has an entry that shows it column by column: texts, place, price, status and promotion under their own names, instants in whole seconds, its attributes, the location when both coordinates are known. Any other ad has none; other entries stay |
| SearchIndex.Indexer.Reindex | services/search/internal/indexer/indexer.go:88-113 | Terminates, upserts every active ad of a fixed table in order and returns their count, or stops at the page, document or upsert that failed with those before it written |
| SearchIndex.EachActiveAdOnce | services/search/internal/indexer/indexer.go:88-113 | The upserted ids are those of the active ads, each once |
| SearchIndex.ReindexedShows | services/search/internal/indexer/indexer.go:88-113 | After a full reindex every active ad has an entry that shows it so |
| SearchIndex.ReindexReachesTruthIff | services/search/internal/indexer/indexer.go:86-113 | A reindex reaches the truth iff every document there before is of an ad still active |
| SearchIndex.CursorSkips | services/listing/internal/repo/ad.go:434-459 | A cursor at a row leaves exactly the active rows behind it |
| Indexing.ListingWritesReachTheIndexer | services/search/cmd/server/main.go:39-44 | Every write of every run of the listing service, creations and bumps included, carries an event about its ad on a subscribed subject |
| Indexing.WrongOnlyWhileAwaited | services/search/internal/indexer/indexer.go:56-84 | In every run with one handler of an ad at a time: an entry that is wrong has an event about its ad that was never handled to the end and is still to come, or was given up |
| Indexing.DrainedIsTrue | services/search/internal/indexer/indexer.go:56-84 | With all published and acknowledged and nothing given up, the index is exactly the active ads |
| Indexing.DrainedShows | services/search/internal/indexer/indexer.go:136-175 | So the index then has entries of exactly the active ads, and each shows its ad column by column |
| Indexing.StepKeepsInv | services/search/internal/indexer/indexer.go:70-84 | Each step of writers, relays, deliveries, another service's events about an ad, two-part reads, crashes, answers and failures, also after the upsert, keeps that |
| OverlappingHandlers.OverlappingHandlersDiverge | services/search/internal/indexer/indexer.go:70-84 | With two handlers of one ad: a run whose writes are all planned by the listing service, from a draft over approval to deletion, that acknowledges everything and keeps the deleted ad |
| Moderation.Moderator.Handle | services/listing/internal/worker/moderation.go:53-104 | One delivery: nothing if processed, else apply or skip, and always mark |
| Moderation.DecisionsActAtMostOnce | services/listing/internal/worker/moderation.go:53-104 | In every run with one handler of an event at a time, a decision commits at most once; the commit gives its ad the status decided on, from the status planned, with one follow-up, or does neither |
| Moderation.EffectsAreUnique | services/listing/internal/repo/ad.go:126-150 | No decision has two effects; an acknowledged decision is processed; drained means all are |
| Moderation.RedeliveryIsIgnored | pkg/shared/outbox/inbox.go:19-45 | In any run, a handler that checks after its event was processed ends without writing |
| OverlappingDecisions.OneApprovalAppliedTwice | services/listing/internal/worker/moderation.go:62-68 | With two deliveries at once: from a draft, one approval applied twice, around a resubmission; the owner's writes are those the service plans |
| RefreshTokens.RefreshRepo.Insert | services/auth/internal/repo/refresh.go:29-38 | A new token, or a collision and no change |
| RefreshTokens.RefreshRepo.Rotate | services/auth/internal/repo/refresh.go:49-123 | Every outcome of presenting a token with the tables it commits, revocations of refused ones included |
| RefreshTokens.RefreshRepo.RevokeFamily | services/auth/internal/repo/refresh.go:128-158 | Revokes the family of the token, or finds none |
| RefreshTokens.OneLiveTokenPerFamily | services/auth/internal/repo/refresh.go:40-123 | In every run a family has at most one live token, one user and one device |
| RefreshTokens.RevocationIsPermanent | services/auth/internal/repo/refresh.go:77-110 | Tokens are only added and revoked; a revocation is never undone or redated |
| RefreshTokens.RotatesExactlyWhen | services/auth/internal/repo/refresh.go:49-123 | A rotation succeeds iff the token is live, unexpired and on its device; any refusal but a wrong device ends the family |
| RefreshTokens.RefusedBecause | services/auth/internal/repo/refresh.go:62-104 | Which refusal is given: unknown, reused, expired, wrong device, colliding values, in that order |
| RefreshTokens.SecondPresentation | services/auth/internal/repo/refresh.go:91-110 | The token given out by a rotation rotates on its device exactly before the new expiry, and is expired from then on |
| RefreshTokens.GivenOut | services/auth/internal/repo/refresh.go:29-110 | A login or a rotation makes the next token, live, with the hash, device and expiry asked for |
| RefreshTokens.LogoutFinds | services/auth/internal/repo/refresh.go:128-158 | A logout answers with the user of the token given, if some token has that hash |
| RefreshTokens.UsableUntilExpiry | services/auth/internal/repo/refresh.go:40-123 | In every run, a token lasts until a logout, a ban, a replay in its family or its own use; until then it rotates exactly before the expiry given at its login or rotation |
| RefreshTokens.RevokedWhenItHappens | services/auth/internal/repo/refresh.go:77-158 | Whatever a step revokes carries the time of that step |
| RefreshTokens.DeadForever | services/auth/internal/repo/refresh.go:125-158 | A family without a live token never has one again |
| RefreshTokens.ReplayKillsFamily | services/auth/internal/repo/refresh.go:75-89 | Presenting any but the newest token of a family is detected, recorded and ends the family for good |
| RefreshTokens.RevokedFamiliesNeverRotate | services/auth/internal/repo/user.go:56-80 | After a logout, or a ban of the user, no rotation in the family succeeds |
| Categories.Catalog.Create | services/catalog/internal/app/service.go:83-116 | Level and path from the parent; missing parent and taken slug refused |
| Categories.Catalog.Update | services/catalog/internal/repo/category.go:83-99 | Names, order and activity only |
| Categories.Catalog.Delete | services/catalog/internal/repo/category.go:101-121 | Refused while there are children |
| Categories.RunKeepsValid | services/catalog/internal/app/service.go:81-162 | In every run parents exist, levels and paths follow them and slugs are unique and not empty |
| Categories.RefusedExactlyWhen | services/catalog/internal/app/service.go:83-162 | Which request fails with which error, and a deletion removes exactly its category |
| Categories.ReadsTheLastWrite | services/catalog/internal/app/service.go:83-145 | In every run a category reads as its last creation or update left it, and was created under its parent with level and path to match |
| Categories.PathsAreStable | services/catalog/internal/repo/category.go:83-99 | Slug, parent, level and path never change before deletion |
| Categories.OthersAreLeftAlone | services/catalog/internal/repo/category.go:66-121 | No request touches a category it does not name |
| Categories.LiteralLike | services/catalog/internal/repo/attribute.go:107 | For literal text before the final percent sign, LIKE is a prefix test |
| Categories.PathIsTheParentChain | services/catalog/internal/repo/attribute.go:102-112 | With clean slugs, literal and with a separator at most first, the path test holds exactly for a category's ancestors and itself |
| UncleanSlugs.UnsafeAmongPlainIff | services/catalog/internal/repo/attribute.go:99-112 | For any slug without separators among others without: some run makes the path test wrong if and only if the slug has a special character, unless it quotes one and still matches itself |
| UncleanSlugs.SomeUncleanAreSafe | services/catalog/internal/repo/attribute.go:107 | Such a slug: a percent sign before a quoted one |
| UncleanSlugs.UnsafeIffUnclean | services/catalog/internal/transport/category.go:80 | Among any clean slugs, for a slug with nothing special before an inner separator, or without separators and without both percent sign and backslash: the path test is wrong in some catalogue reached by a run if and only if the slug is not clean |
| UncleanSlugs.UncleanSlugErrs | services/catalog/internal/repo/attribute.go:107 | A run to such a catalogue for every such slug, and the pair the test is wrong about |
| EffectiveAttributes.Collect | services/catalog/internal/repo/attribute.go:118-139 | The loop with its seen set keeps the first row of each attribute |
| EffectiveAttributes.EachAttributeFromTheTop | services/catalog/internal/repo/attribute.go:99-139 | Each attribute linked on the parent chain is listed once, from its shallowest link, and marked inherited iff that is another category; higher ancestors come first, then sort order decides |
| CategoryTree.BuildTree | services/catalog/internal/domain/category.go:35-54 | Each node is among the children of exactly its parent, and among the roots exactly when it has no parent in the list, all in input order |
| CategoryTree.EachPlacedOnce | services/catalog/internal/domain/category.go:33-54 | Every category stands once, under the listed category its parent field names, or among the roots when that field is empty or names none of the list; one place keeps the order of the list |
| Views.Counter.Drain | services/listing/internal/views/counter.go:58-83 | Takes the non-zero counts and leaves the buffer empty |
| Views.Counter.Restore | services/listing/internal/views/counter.go:86-98 | Adds counts back on top of what came since |
| Views.ViewFlusher.Flush | services/listing/internal/worker/views.go:50-67 | What the rows and the buffer hold after a write confirmed, rolled back or committed unheard, and a return of the counts that works or fails |
| Views.ViewsConserved | services/listing/internal/views/counter.go:18-98 | Under any interleaving: written + buffered + in flight = increments − those gone with a deleted ad, crash or failed restore + those whose write was committed unheard |
| Views.NothingGone | services/listing/internal/worker/views.go:50-67 | None is gone while the ad is there and no flusher of its views gives up |
| Views.NothingTwice | services/listing/internal/worker/views.go:50-67 | None is counted twice while every committed write of its views is heard of |
| Views.LostWriteCountsTwice | services/listing/internal/worker/views.go:50-67 | A run in which one view is written and put back, and counts twice |
| Views.DisplayedNeverExceedsTrue | services/listing/internal/app/service.go:142-166 | The row read first plus the buffer read last never exceeds the views there were and those counted twice |
| SavedSearch.Store.RecordMatchWithEvent | services/favorites-savedsearch/internal/repo/savedsearch.go:88-119 | Dedup first, then throttle, then event, in one transaction |
| SavedSearch.Matcher.Handle | services/favorites-savedsearch/internal/matcher/matcher.go:64-112 | The loop records the matching candidates in turn, counts the events and stops at a failing write |
| SavedSearch.CandidatesLoseNothing | services/favorites-savedsearch/internal/repo/savedsearch.go:70-82 | Candidates that match are exactly the searches with notifications on that match |
| SavedSearch.CandidatesAreTheWanted | services/favorites-savedsearch/internal/domain/savedsearch.go:63-91 | The same in every state of every run |
| SavedSearch.NotifiedOnceAndApart | services/favorites-savedsearch/internal/repo/savedsearch.go:84-119 | In every run a search and an ad are notified about at most once, and two events of one search are at least the throttle apart |
| SearchAlerts.MatchesUnlessMisses | services/favorites-savedsearch/internal/domain/savedsearch.go:63-102 | A search takes an ad unless category, region, city, currency, price, an attribute or the text speaks against it: bounds included, case ignored, white space around the text dropped, a missing attribute read as empty |
| SearchAlerts.TrimmedIsTheCore | services/favorites-savedsearch/internal/domain/savedsearch.go:96-97 | Trimming removes exactly the white space at both ends |
| SearchAlerts.RecordingAMatch | services/favorites-savedsearch/internal/repo/savedsearch.go:88-119 | The pair is noted; the event is sent exactly when the pair is new and the search was not notified within the throttle, and then this search alone remembers the moment |
| SearchAlerts.GoneSearchesFail | services/favorites-savedsearch/internal/repo/savedsearch.go:88-97 | Recording fails exactly when the search is gone |
| SearchAlerts.ApprovalAlerts | services/favorites-savedsearch/internal/matcher/matcher.go:64-112 | Handling an approved ad, alone, never fails: afterwards exactly the wanting searches are noted, each told once iff new and outside its throttle, and nobody else is told |
| SearchAlerts.SavedAsGiven | services/favorites-savedsearch/internal/repo/savedsearch.go:21-36 | A search is stored as given, and is a candidate for exactly the ads of its category and region |
| SearchAlerts.DeletedByItsOwner | services/favorites-savedsearch/internal/repo/savedsearch.go:59-65 | Only its owner deletes a search; its noted pairs go with it and the others stay |

## Left out

- Transport, JSON, configuration, logging, telemetry and migrations: plumbing around the steps modelled.
- PostgreSQL, Redis, NATS and Typesense internals: only atomic steps, conditional updates and at-least-once delivery remain.
- Weaker isolation than serializable for refresh tokens: at read committed, a rotation racing with a reuse detection is not covered.
- Timestamps are whole nanoseconds; the microseconds PostgreSQL keeps, and creation-time ties when rows are listed newest first, are not modelled.
- A schedule day is 24 hours, as in UTC; session time zones with daylight saving are not modelled.
- Wallet balances and sums of several refunds are unbounded integers; only the product inside one refund wraps as in the source.
- Bounds on the amount of a top-up (services/payments/internal/domain/wallet.go:71-79) beyond being positive: they only restrict runs.
- The provider protocols (Payme, Click) and the gateway's token bucket: their code is not part of this model.
- Audit columns that nothing decides on (updated, refunded and created dates), and the public wallet credit, which no service calls.
- The promotion rank's narrowing to 32 bits in Listing's promotion consumer; ranks are integers here.
- Go's ParseFloat: which texts it reads is a parameter of the attribute checks, any function from texts to answers.
- UncleanSlugs.UnsafeIffUnclean: a slug with special characters before an inner separator, and one with both percent sign and backslash beside slugs that begin with a separator, are not classified.
- SearchIndex.Indexer.Reindex: an upsert that took effect although it failed is not an outcome; the next reindex writes the same document.
- Indexing.DrainedIsTrue: a reindex running beside the handlers is not a step of the runs, because it writes what it read without an event to answer for it; alone it is `SearchIndex.Indexer.Reindex`.
- Dead-letter publishing: its error is ignored by the source, so a message given up is only known not to be handled; a message whose last delivery crashes counts as unanswered for ever.
- Liveness of relays and their pauses between passes.
- SavedSearch.Matcher.Handle: letter case and white space are those of ASCII, because Unicode folding is not part of the model.
- EffectiveAttributes.EachAttributeFromTheTop: order by attribute slug among rows of one level and sort order is not modelled, because it decides nothing proved.
- Parse errors and empty keys in the view buffer, which hold only what increments wrote.
- Catalog caches, whose refill can store an older tree; images, chat, reviews, favourites, locations, profiles and notification sending: separate and easier, or without a law the code keeps.
