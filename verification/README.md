# Workly server: a verified model

This project models the parts of the Workly job-board server that carry state, loops and arithmetic, and proves what
they promise. One module stands for each component.

- `Billing` is the payment ledger as a protocol. A call of `validatePayment` is a read, a gateway answer and a commit
  or a status write; any number of calls, callbacks, stale sweeps and reconciliation runs interleave. The unique columns
  `valId` and `invoiceNumber` (prisma/schema.prisma, lines 828 and 1149) roll a commit back when they clash.
  `PaymentServices` is the same code as a class over mutable tables, proved equal to the protocol without overlap.
- `Subscriptions` stacks validity by 30 days or by calendar months on `Calendar`, dates as milliseconds in UTC.
- `Sweeps` is the cursor-paged loop that the expiry and the reminder job each run over two tables; `ExpiryRaces` lets
  payments land in the middle of it.
- `Premium` and `Accounts` relate the premium flag to subscriptions; `Entitlements` is the cached entitlement lookup.
- `CircuitBreakers`, `UniqueSlugs`, `Timeline`, `LoginLockout`, `Applications`, `Jobs` and `SocialLinks` are the
  breaker, the slug generator, the analytics timeline, the login lockout, the application intake, the two open-job
  checks and the replacement of a company's social links.
- `FilterEngine`, `FilterFactories`, `LikePatterns` and `JobSearch` compile queries into clauses; a clause has a meaning
  over rows, and the proofs are about that meaning. `JobClauseTypes` says which clauses fit the columns.

A serial run is a `Trace` of events; interleaved protocols have one event per atomic step. A `$transaction` block is
one step. `findMany` with a cursor means the matching rows whose id is not below the cursor, without the first of them.
Gateway verdicts, signature checks, password comparison, failing updates, generated keys and the current time are
inputs. Several readings of the clock inside one call are one instant.

## What does not hold

Where a property fails, the code is modelled as it is, and the exact condition is proved.

- VALIDATED is not final while a call that has read the row without a verdict, or one about to write a status, is in
  flight: it can write FAILED or CANCELLED over a paid row (`ValidatedIsFinalIff`, `OverlapOverwrites`).
- The reconciliation job says that a valid payment will be fulfilled. Its own request never passes the signature check,
  so in live mode it marks the row FAILED instead (`SignatureCanBeValidIff`, `LiveJobNeverValidates`, `JobFulfilsIff`).
- The expiry job says that it finds all overdue subscriptions. Rows it has just expired no longer match at the cursor, so
  every fifty-first due row waits for a later run (`MissesEveryFiftyFirst`, `SweepLeaves`).
- The expiry job writes a record without looking at it again, so a payment that lands after the page was read is lost
  (`PaidTimeIsLostIff`).
- Extending by months is not monotone at the end of a month (`MonthsMonotoneIff`).
- An invalidation does not reach lookups in flight that have read older tables (`InvalidationHoldsIff`).
- The premium flag does not match the company's plan after an employer without one, or an administrator, buys the seeker
  plan (`CrossPurchaseKeepsMatchIff`).
- Interviews planned beyond the last bucket are counted by the query but not drawn (`TrendConservation`).
- A failing probe of the half-open breaker need not open it again (`ProbeReopensIff`).
- An employer who moves a withdrawn application back can exceed the cap (`CapBrokenIff`).
- Social links are replaced correctly only when existing ids are the company's own and named once (`ReplacesExactlyWhen`).
- The location filter of `getJobs` is not escaped, unlike the search term (`LocationIsLiteralIff`).
- A search text makes the clause of `getJobs` ill-typed: Prisma has no `contains` on a list column, and `requirements` is
  one (`ClauseIsTakenIff`).

## Model

| member | source | states |
|---|---|---|
| Billing.InvoicesAccountForValidations | src/app/modules/payment/payment.service.ts:296-594 | In every interleaving of callbacks, gateway answers, commits, status writes, sweeps and job runs, a payment has one invoice if its row is VALIDATED plus one for each unconditional FAILED or CANCELLED write that landed on it while VALIDATED |
| Billing.OneInvoiceOfItsAmount | src/app/modules/payment/payment.service.ts:475-486 | In every such run a payment has at most one invoice, under either form of number, and it carries the amount and currency of the row |
| Billing.OverwrittenForGood | src/app/modules/payment/payment.service.ts:316-352 | A paid row that an unconditional write has hit is never VALIDATED again in any continuation of the run and keeps its invoice |
| Billing.ExactlyOnceWithoutOverlap | src/app/modules/payment/payment.service.ts:307-369 | If no two calls on a payment are in flight together, it is invoiced exactly when its row is VALIDATED, and VALIDATED is final, whatever conditional callbacks and stale sweeps run in between |
| Billing.ValidatedIsFinalIff | src/app/modules/payment/payment.service.ts:307-369 | From any state with a VALIDATED row, every continuation keeps it if and only if no call in flight on the payment has read the row without a verdict yet or is about to write FAILED or CANCELLED |
| Billing.OverlapOverwrites | src/app/modules/payment/payment.service.ts:333-341 | From any state in which a PENDING payment can be granted, a schedule of two overlapping calls leaves it invoiced and FAILED |
| Billing.BenefitsComeWithInvoices | src/app/modules/payment/payment.service.ts:361-594 | In every reachable state each step leaves invoices, subscriptions and users alone, or is a commit that writes exactly one invoice, one stacked subscription and one premium flag together |
| Billing.ValidatedWasConfirmed | src/app/modules/payment/payment.service.ts:330-358 | In every interleaving a payment is VALIDATED only if the gateway has answered one of its calls with just its amount and currency, at low risk |
| Billing.OutcomeOfCall | src/app/modules/payment/payment.service.ts:303-390 | For an open row: which of the three refusals is thrown, each exactly when the signature, the verdict or the amount or currency is wrong, with FAILED as the only write; VALIDATED only on a confirmation of just the amount and currency; PENDING_REVIEW at risk level 1 |
| Billing.CompanyGrantInColumns | src/app/modules/payment/payment.service.ts:393-492 | All columns of the tables after an employer's commit: 30 days after the running end date or from now, the old start date kept exactly when the term is stacked, the invoice with its number, and the payer's flag |
| Billing.SeekerGrantInColumns | src/app/modules/payment/payment.service.ts:493-591 | The same for a job seeker: the calendar months of the plan's positive durationMonths, one month otherwise |
| Billing.PlanNames | src/app/modules/payment/payment.service.ts:401-411 | The names that the legacy plan ids stand for; other ids are names themselves |
| Billing.StepKeepsInv | src/app/modules/payment/payment.service.ts:296-594 | Every step of every call keeps the ledger invariant: a row has its invoice exactly when it is VALIDATED or was overwritten, with its amount and currency, every invoice is a payment's, and what a call remembers of its row still holds |
| Billing.StepOnRow | src/app/modules/payment/payment.service.ts:316-382 | No step removes a row or changes its owner, category, plan, amount or currency, and VALIDATED is left only by an unconditional write, which is counted |
| Billing.InvoiceNumberInjective | src/app/modules/payment/payment.service.ts:475-486 | Two payments never share an invoice number, even across the two number formats |
| Billing.AloneIsOneCall | src/app/modules/payment/payment.service.ts:296-626 | The steps of a call with nothing in between are one sequential function of the tables: the protocol refines it |
| Billing.LiveJobNeverValidates | src/jobs/payment.reconciliation.job.ts:49-54 | With live signatures no call of the reconciliation job ever reaches the gateway, in any interleaving |
| Billing.LiveBatch | src/jobs/payment.reconciliation.job.ts:38-66 | With live signatures a run of the job over unpaid rows leaves every one of them FAILED or CANCELLED, validates no other row, and touches no invoice, subscription or user |
| Billing.JobFulfilsIff | src/jobs/payment.reconciliation.job.ts:38-67 | An unpaid row of the batch ends VALIDATED if and only if the server is not live, the row has a session key, the gateway's answer is valid with the row's own amount and currency at low risk, the session key is nobody else's valId, and owner, plan, user and a free invoice number exist |
| Billing.OutcomeOfJob | src/jobs/payment.reconciliation.job.ts:38-67 | The CANCELLED or FAILED that the job leaves on every row it does not fulfil, and that nothing else changes |
| Billing.SignatureCanBeValidIff | src/app/modules/payment/payment.service.ts:254-291 | A signature can be valid, for some digest over parameters and store password, if and only if it is a nonempty text and names its parameters; the boolean of the reconciliation job never is |
| Billing.SignatureComparesHex | src/app/modules/payment/payment.service.ts:282-287 | A text signature is valid exactly when it is the computed digest, in either letter case |
| PaymentServices.PaymentService.StackSubscription | src/app/modules/payment/payment.service.ts:430-452 | Setting dates in place stacks 30 days or the plan's calendar months on the running end date, keeping the start date, or begins both now |
| PaymentServices.PaymentService.CommitTransaction | src/app/modules/payment/payment.service.ts:361-594 | The database transaction, writing table by table, ends in the tables that the two grant lemmas describe column by column or, when it throws, in the tables it started from |
| PaymentServices.PaymentService.ValidatePayment | src/app/modules/payment/payment.service.ts:296-626 | Error and new tables of a call without overlap on every path, as OutcomeOfCall describes them |
| PaymentServices.PaymentService.FailPayment | src/app/modules/payment/payment.service.ts:631-636 | Only a PENDING row moves, to FAILED |
| PaymentServices.PaymentService.CancelPayment | src/app/modules/payment/payment.service.ts:641-646 | Only a PENDING row moves, to CANCELLED |
| PaymentServices.PaymentService.ExpireStaleTransactions | src/app/modules/payment/payment.service.ts:653-662 | Exactly the PENDING rows created before the cutoff move to CANCELLED |
| PaymentServices.PaymentService.ReconcileBatch | src/jobs/payment.reconciliation.job.ts:38-67 | The loop over the batch is the fold of its rows, with the CANCELLED writes that look at nothing |
| Subscriptions.ExtendAddsTerm | src/app/modules/payment/payment.service.ts:518-551 | setDate adds exactly 30 days; setMonth adds exactly the lengths of the k months starting at the current one, day overflow included, so 28k to 31k days |
| Subscriptions.MonthsMonotoneIff | src/app/modules/payment/payment.service.ts:529-546 | Extending by months is strictly monotone in the start if and only if the start's day exists in the target month |
| Subscriptions.OverflowExample | src/app/modules/payment/payment.service.ts:546-546 | 31 January 2026 plus a month is 3 March, 1 February plus a month is 1 March |
| Subscriptions.MovesBackIff | src/app/modules/payment/payment.service.ts:425-473 | A payment moves an existing end date back if and only if it does not stack and a fresh term ends earlier |
| Subscriptions.PaymentStacks | src/app/modules/payment/payment.service.ts:425-473 | In every serial run of same-plan payments and sweeps, from any row of the plan or none, a payment sets the end date to max(end date, now) plus one term, and the end date never moves back |
| Subscriptions.ActiveUntilEnd | src/services/entitlement.service.ts:41-46 | After any such run the row counts as active exactly until its end date, whether or not a sweep ran |
| Subscriptions.CoverageIsExact | src/app/modules/payment/payment.service.ts:425-473 | The instants covered by a run are exactly those left at the start plus the days bought: none lost, none paid twice |
| Subscriptions.ThirtyDaysPerPayment | src/app/modules/payment/payment.service.ts:430-448 | n payments of a company cover exactly 30 n days more than what was left at the start |
| Subscriptions.ThirtyDaysEach | src/app/modules/payment/payment.service.ts:430-448 | Each payment of a company buys 30 days |
| Subscriptions.MonthsEach | src/app/modules/payment/payment.service.ts:529-547 | n payments of k months buy between 28 k n and 31 k n days |
| Calendar.MonthOfUnique | src/app/modules/company/company.service.ts:798-829 | A day lies in exactly one month, the one the date functions find |
| Calendar.YearStart | src/app/modules/company/company.service.ts:798-829 | The recursive month table agrees with the closed day formula of section 21.4.1 of ECMA-262 for every year, before 1970 too |
| Calendar.SetMonthShifts | src/app/modules/payment/payment.service.ts:529-531 | setMonth moves an instant by the sum of the month lengths, overflowing days included (section 21.4.4 of ECMA-262) |
| Calendar.SetDateShifts | src/app/modules/payment/payment.service.ts:430-432 | setDate moves an instant by whole days across month ends (section 21.4.4 of ECMA-262) |
| Sweeps.SubscriptionTable.SweepRecord | src/jobs/subscription.expiry.job.ts:59-83 | One record: just its row becomes EXPIRED or gets its reminder time, and for an expiry its user or all employees lose the premium flag |
| Sweeps.SubscriptionTable.SweepPage | src/jobs/subscription.expiry.job.ts:34-89 | One page of the expiry or reminder job treats exactly the rows of the page whose update does not throw: an ACTIVE row past its end becomes EXPIRED, an ACTIVE row ending in the window and not reminded gets its reminder time; all other rows and columns stay, and the last id of a full page is returned |
| Sweeps.SubscriptionTable.RunSweep | src/jobs/subscription.expiry.job.ts:164-197 | The paging loop terminates and treats exactly the specified visited rows in that way, although each page changes what the next one selects; an expiry takes the flag from exactly the users behind them |
| Sweeps.SelectedAre | src/jobs/subscription.reminder.job.ts:111-116 | The rows a job selects, by their columns: ACTIVE and past the end, or ACTIVE, ending within the window and not yet reminded |
| Sweeps.VisitedOnce | src/jobs/subscription.reminder.job.ts:106-179 | Ids are visited in strictly increasing order, so no reminder is sent twice in a run, whatever fails |
| Sweeps.VisitedIsDue | src/jobs/subscription.reminder.job.ts:111-116 | Every visited row matched the filter at the start of the run |
| Sweeps.LossBound | src/jobs/subscription.reminder.job.ts:295-326 | A run below the page cap that visits v rows misses at most v / 50 matching ones, whatever fails |
| Sweeps.NoLossWithoutUpdates | src/jobs/subscription.reminder.job.ts:106-179 | When every mail or update fails, every matching row is visited |
| Sweeps.MissesEveryFiftyFirst | src/jobs/subscription.expiry.job.ts:38-51 | When every update succeeds the visited rows are fifty of every fifty-one: the row after each full page is skipped |
| Sweeps.SweepLeaves | src/jobs/subscription.expiry.job.ts:164-183 | A run over n due rows, all updates succeeding, leaves exactly n / 51 of them due (n - 500050 above the page cap) |
| Sweeps.VisitedCount | src/jobs/subscription.expiry.job.ts:174-183 | How many of n due rows a run visits when every update succeeds, page cap included |
| Sweeps.RepeatedSweeps | src/jobs/subscription.expiry.job.ts:164-197 | Fewer than 51^k due rows are gone after k runs at one instant |
| Sweeps.EventuallyNoneDue | src/jobs/subscription.expiry.job.ts:164-197 | However many rows are due, page cap included, enough runs at one instant leave none |
| ExpiryRaces.PaidTimeIsLostIff | src/jobs/subscription.expiry.job.ts:59-86 | In every interleaving of page reads, record writes and payments, any number of sweeps at once: while paid time remains, the row is inactive and the flag gone if and only if the last payment fell between the read and the write of a record |
| ExpiryRaces.NextPaymentStacksIff | src/app/modules/payment/payment.service.ts:437-452 | The next payment stacks on the paid time if and only if none was lost; otherwise it starts over |
| ExpiryRaces.PaymentCanBeLost | src/jobs/subscription.expiry.job.ts:66-75 | For every row that is due, a payment between read and write is lost |
| Premium.PremiumMatchesSubscription | src/app/modules/auth/auth.service.ts:59-70 | In every serial run of payments in the own category and sweeps, isUserPremium holds exactly when the subscription behind the user is ACTIVE |
| Premium.StepKeepsPremium | src/jobs/subscription.expiry.job.ts:59-147 | Payments in the own category and expiries keep: a premium flag implies an ACTIVE subscription, and for job seekers it is one |
| Premium.CrossPurchaseKeepsMatchIff | src/app/modules/auth/auth.service.ts:59-70 | Buying the seeker plan makes every buyer premium, which matches the subscription behind the buyer if and only if the buyer is a job seeker or an employer whose company plan is ACTIVE |
| Premium.SweepsKeepEntitlements | src/jobs/subscription.expiry.job.ts:59-147 | No run of sweeps changes the entitlements computed from the tables at any later instant |
| Premium.CheckPremiumStatusMultiple | src/app/modules/message/message.service.ts:55-119 | The batch check maps exactly the given ids, and an id to true exactly when the single check does not throw |
| Entitlements.TTLCache.Set | src/utils/entitlement.cache.ts:14-18 | The entry expires its own or the default time to live after now; other keys keep theirs |
| Entitlements.TTLCache.Get | src/utils/entitlement.cache.ts:20-28 | Answers a value up to and including its expiry; evicts just a stale entry of that key |
| Entitlements.TTLCache.Delete | src/utils/entitlement.cache.ts:30-32 | Just the entry of the key is gone |
| Entitlements.TTLCache.Clear | src/utils/entitlement.cache.ts:34-36 | No entry is left |
| Entitlements.EntitlementService.GetUserEntitlements | src/services/entitlement.service.ts:49-110 | A fresh entry is answered; otherwise an employer gets the features of the company's plan and a job seeker those of the own plan exactly while it is ACTIVE and not over, else the free flags of the role, administrators the admin flags, and the answer is cached for five minutes unless the user is unknown; an outage answers the free seeker flags and stores nothing |
| Entitlements.EntitlementService.InvalidateCache | src/services/entitlement.service.ts:180-182 | Just the entry of the user is gone |
| Entitlements.StalenessBound | src/services/entitlement.service.ts:49-102 | In every interleaving of lookups, invalidations and writes, an answer from the cache was computed at most five minutes earlier from tables as they really were, with no invalidation of the user since it was stored |
| Entitlements.UndisturbedStalenessBound | src/services/entitlement.service.ts:49-102 | If no fill stores flags that a write has changed since its read, a cached answer is the direct answer of the tables at some instant of the last five minutes, with no invalidation since |
| Entitlements.QuietIsUndisturbed | src/services/entitlement.service.ts:49-102 | That is so in every run in which no write falls between a miss and its fill, however lookups interleave |
| Entitlements.InvalidationHoldsIff | src/services/entitlement.service.ts:180-182 | After an invalidation every later entry of the user, until the next write, is what the tables give directly if and only if every lookup of the user in flight has read tables that give the same flags from then on |
| Entitlements.InvalidationCanBeLost | src/services/entitlement.service.ts:56-101 | A grant and its invalidation between read and fill are lost: the old flags are answered for five more minutes, for any two table states |
| Entitlements.PlanFlagsEnd | src/services/entitlement.service.ts:82-102 | Without a new grant no lookup, cached or fresh, returns plan flags later than five minutes after the end date, whatever sweeps and invalidations run |
| CircuitBreakers.CircuitBreaker.Enter | src/utils/circuitBreaker.ts:13-24 | Which requests are admitted, and the fields after the start of a call |
| CircuitBreakers.CircuitBreaker.Leave | src/utils/circuitBreaker.ts:26-49 | The fields after a call has returned or thrown |
| CircuitBreakers.NoAdmissionDuringCooldown | src/utils/circuitBreaker.ts:12-50 | In every interleaving of starts and completions, once a failure at s opens the breaker it stays OPEN with the same deadline, and no request is admitted up to and including s + cooldown |
| CircuitBreakers.AdmissionAfterCooldown | src/utils/circuitBreaker.ts:13-18 | A request is admitted exactly after s + cooldown, as the half-open probe |
| CircuitBreakers.ClosedMeansBelowThreshold | src/utils/circuitBreaker.ts:34-46 | In all runs CLOSED means fewer failures than the threshold, if and only if the threshold is at least 1 |
| CircuitBreakers.SequentialRefinement | src/utils/circuitBreaker.ts:12-50 | Without overlap the counter is the number of failures in a row, and a call is rejected exactly when it reaches the threshold and the last failure is not longer ago than the cooldown |
| CircuitBreakers.ProbeReopensIff | src/utils/circuitBreaker.ts:32-46 | In every interleaving and for every threshold, a failing probe opens the half-open breaker if and only if no success has landed since it opened or enough failures have been counted since |
| CircuitBreakers.LateSuccessWeakensProbe | src/utils/circuitBreaker.ts:32-42 | An example with threshold 2 in which the probe fails and the breaker stays half-open |
| UniqueSlugs.BaseSlugIsWords | src/utils/generateUniqueSlug.ts:22-24 | The base slug is the words of the text, its maximal runs of letters and digits, in order with one hyphen between any two |
| UniqueSlugs.BaseSlugifyNormalises | src/utils/generateUniqueSlug.ts:17-25 | The base slug is well formed, keeps exactly the letters and digits of the text in order, and is the identity on slugs |
| UniqueSlugs.PrintParse | src/utils/generateUniqueSlug.ts:60-67 | Parsing the printed suffix gives the number back |
| UniqueSlugs.NumberedSuffix | src/utils/generateUniqueSlug.ts:55-67 | A slug made with a number carries that number |
| UniqueSlugs.SuffixMeans | src/utils/generateUniqueSlug.ts:56-61 | A slug carries a number exactly when it is the base, or the base, a hyphen and digits that read as the number |
| UniqueSlugs.LeadingZero | src/utils/generateUniqueSlug.ts:60-60 | Leading zeros do not change the number a suffix reads as |
| UniqueSlugs.GenerateUniqueSlug | src/utils/generateUniqueSlug.ts:37-68 | The slug is absent from the whole table, although only a prefix of it is read; it is the base slug if free, otherwise numbered one above the greatest suffix, leading zeros included |
| UniqueSlugs.CreateAll | src/utils/generateUniqueSlug.ts:37-68 | Any sequence of creations keeps all slugs pairwise distinct and each starts with its base slug |
| LikePatterns.SanitizedSearchIsLiteral | src/utils/FilterEngine.ts:418-421 | An escaped and trimmed term is found, by LIKE with wildcards around it, exactly in the texts in which the trimmed term occurs literally, letter case aside |
| LikePatterns.EscapedIsLiteral | src/utils/FilterEngine.ts:418-421 | Percent signs, underscores and backslashes of a term match only themselves |
| LikePatterns.TrimTakesSpace | src/utils/FilterEngine.ts:420-420 | Trimming takes white space from both ends, all of it and nothing else |
| LikePatterns.UnescapedIsLiteralIff | src/utils/FilterEngine.ts:418-421 | A term that is not escaped is found exactly where it occurs literally, in all texts, if and only if it has no percent sign, underscore or backslash |
| LikePatterns.UnderscoreMatchesAny | src/app/modules/job/job.service.ts:322-327 | An unescaped underscore is found in every text but the empty one |
| FilterEngine.Engine.ValidateField | src/utils/FilterEngine.ts:385-404 | A name is refused exactly when it is empty, not in a nonempty list, or not an identifier |
| FilterEngine.IdentifierCharacters | src/utils/FilterEngine.ts:397-403 | A field name is made of ASCII letters, digits and underscores and does not begin with a digit |
| FilterEngine.Engine.AddSearch | src/utils/FilterEngine.ts:432-451 | Refuses exactly a too long term or a field that is not allowed, else adds the escaped term for every searched field |
| FilterEngine.Engine.AddValues | src/utils/FilterEngine.ts:453-461 | Refuses exactly when a usable value names a field that is not allowed, else writes each usable value over earlier entries |
| FilterEngine.Engine.AddValueLists | src/utils/FilterEngine.ts:463-484 | The same for lists, which may hold at most 1000 values, of which the usable ones are kept in order |
| FilterEngine.Engine.AddRanges | src/utils/FilterEngine.ts:486-513 | The same for ranges, refused when the minimum exceeds the maximum |
| FilterEngine.Engine.AddDateRanges | src/utils/FilterEngine.ts:515-548 | The same for date ranges, refused for an invalid date or when the start is after the end |
| FilterEngine.Engine.BuildWhereClause | src/utils/FilterEngine.ts:424-556 | The object filled and overwritten in stages is the merge of all sections; it throws exactly for the unacceptable requests |
| FilterEngine.CompiledDenotes | src/utils/FilterEngine.ts:424-556 | For every request the clause asks, field by field, exactly what the last section naming the field asks |
| FilterEngine.CompiledIsConjunction | src/utils/FilterEngine.ts:424-556 | When no two sections name a field, the clause accepts exactly the rows that satisfy every section |
| FilterEngine.CompiledIsRequest | src/utils/FilterEngine.ts:424-556 | Then the clause accepts exactly the rows the request asks for in its own words: values equal, zero and false included, columns among the usable listed values, within the bounds, and the trimmed search text literally in a searched column |
| FilterEngine.LastSectionWins | src/utils/FilterEngine.ts:550-553 | Of an earlier clause exactly the entries that the later one does not name survive |
| FilterEngine.DisjointConjunction | src/utils/FilterEngine.ts:550-553 | Clauses without a common key combine to their conjunction |
| FilterEngine.SectionDenotes | src/utils/FilterEngine.ts:453-548 | A section with distinct fields means the conjunction of its entries, those without a usable value left out |
| FilterEngine.SearchDenotes | src/utils/FilterEngine.ts:432-451 | The search list means that some searched column contains the term |
| FilterEngine.OnlyAllowedFields | src/utils/FilterEngine.ts:385-404 | Every key not from the caller's own clause is an allowed field, the soft-delete condition or the search list, and the list names allowed fields only |
| FilterEngine.HidesDeletedRowsIff | src/utils/FilterEngine.ts:427-430 | No acceptable request can drop the soft-delete condition, if and only if the list is nonempty and does not contain deletedAt |
| FilterFactories.NoReservedField | src/utils/FactoryFunctionsWithFilterEngine.ts:81-279 | No list of the nine factories is empty or names deletedAt, OR or AND |
| FilterFactories.FactoriesHideDeletedRows | src/utils/FactoryFunctionsWithFilterEngine.ts:81-279 | Under every factory no request shows a soft-deleted row unless it includes them or its custom clause names deletedAt |
| JobSearch.SplitJoins | src/app/modules/job/job.service.ts:35-38 | Splitting a parameter at commas loses nothing and leaves no comma in a part |
| JobSearch.ParseArrayAsks | src/app/modules/job/job.service.ts:35-38 | A list parameter names its items, or the trimmed parts of its text between commas, and the parsed list holds just these |
| JobSearch.ValuesMeaning | src/app/modules/job/job.service.ts:259-290 | The exact matches ask for exactly the status of the path, the company, and true or false for each flag given as that text or boolean, each field written once |
| JobSearch.ListsMeaning | src/app/modules/job/job.service.ts:292-297 | The list filters ask that the column is one of the nonblank listed values; a list of blanks asks for nothing |
| JobSearch.RangesMeaning | src/app/modules/job/job.service.ts:299-304 | The salary filters ask for a salary at least the minimum and at most the maximum, and reject a row without one |
| JobSearch.DatesMeaning | src/app/modules/job/job.service.ts:306-314 | The periods 24h, 3d, 1w and 1m ask for a creation within the last 1, 3, 7 and 30 days; any other period asks for nothing |
| JobSearch.SearchMeaning | src/app/modules/job/job.service.ts:273-277 | The search asks that the trimmed term occurs literally in one of the searched columns |
| JobSearch.AddRelations | src/app/modules/job/job.service.ts:322-350 | The clause extended in place by location, skills and industries |
| JobSearch.GetJobsWhere | src/app/modules/job/job.service.ts:221-350 | Sorting aside, getJobs refuses a query exactly for its length, and otherwise its clause accepts exactly the listed jobs that meet every requested filter, on both paths |
| JobSearch.JobWhereDenotes | src/app/modules/job/job.service.ts:247-350 | No stage overwrites another: for every query and row the clause holds exactly when status, soft delete, deadlines and each filter hold |
| JobSearch.AcceptedExactly | src/app/modules/job/job.service.ts:278-318 | Every field getJobs passes on is an allowed one, so only a term over 255 characters or a list over 1000 entries is refused |
| JobSearch.AndGroupDenotes | src/app/modules/job/job.service.ts:339-350 | Pushing the industry group onto AND adds one conjunct and keeps the deadline groups |
| JobSearch.PublicRowsAreOpen | src/app/modules/job/job.service.ts:56-71 | Every row the public clause accepts passes both getPublicJobUnavailableReason and getApplicationClosedReason at the same instant |
| JobSearch.PublicListing | src/app/modules/job/job.service.ts:260-276 | The public listing is exactly the open jobs that meet the filters |
| JobSearch.MyJobsAreOwn | src/app/modules/job/job.service.ts:401-419 | Whatever else an employer asks for, the listing of own jobs shows only jobs of the company, and none that is deleted |
| JobSearch.LocationIsLiteralIff | src/app/modules/job/job.service.ts:322-327 | The location filter is literal on all rows if and only if the trimmed location has no percent sign, underscore or backslash |
| JobClauseTypes.ClauseIsTakenIff | src/app/modules/job/job.service.ts:273-350 | For every query the clause fits the types of the columns if and only if no search text is given and job types and status are known names |
| Jobs.BothChecksAgree | src/app/modules/application/application.service.ts:42-57 | The public check and the application check let through the same jobs, the open ones |
| Jobs.ReasonsInOrder | src/app/modules/job/job.service.ts:56-71 | Which reason each of the two checks gives for a job that is not open |
| Timeline.AlignDate | src/app/modules/company/company.service.ts:798-811 | Mutating the date in place yields the bucket boundary |
| Timeline.BucketIsGreatest | src/app/modules/company/company.service.ts:798-811 | The boundary of an instant is the greatest aligned instant not after it, for day, Monday week and month |
| Timeline.WeeksBeginOnMondays | src/app/modules/company/company.service.ts:803-806 | The boundary of a week is a whole number of weeks from Monday, 5 January 1970 |
| Timeline.GenerateTimelineBuckets | src/app/modules/company/company.service.ts:813-829 | The loop terminates with all aligned dates from the bucket of start to the bucket of end, in strictly increasing order |
| Timeline.ExactlyOneBucket | src/app/modules/company/company.service.ts:813-829 | Every instant of the window falls into exactly one bucket |
| Timeline.TrendSum | src/app/modules/company/company.service.ts:1108-1134 | The bars add up to the number of events whose bucket is shown |
| Timeline.TrendAt | src/app/modules/company/company.service.ts:1126-1134 | Bar i counts exactly the events of bucket i, and there is a bar for every bucket |
| Timeline.TrendConservation | src/app/modules/company/company.service.ts:1026-1134 | The chart shows every event once if and only if none lies beyond the last bucket |
| LoginLockout.UserRow.LogIn | src/app/modules/auth/auth.service.ts:197-231 | Outcome and counters of a login, on every path |
| LoginLockout.LockedExactlyFromFive | src/app/modules/auth/auth.service.ts:212-220 | In every run a lock time is set exactly when five or more failures are counted |
| LoginLockout.AtMostFivePlusOnePerLock | src/app/modules/auth/auth.service.ts:197-223 | Without a successful login at most 5 + floor((t - t0) / 15 min) wrong passwords reach the comparison by t |
| LoginLockout.BoundIsReached | src/app/modules/auth/auth.service.ts:197-223 | The bound is reached for every number of attempts, so it cannot be lowered |
| Applications.ApplicationService.CreateApplication | src/app/modules/application/application.service.ts:59-171 | Every refusal in order, else one new row and applyCount plus one |
| Applications.ApplicationService.ChangeStatus | src/app/modules/application/application.service.ts:546-582 | An employer of the job sets one of six statuses, from any status |
| Applications.ApplicationService.Schedule | src/app/modules/application/application.service.ts:640-662 | Scheduling an interview sets INTERVIEWED from any status |
| Applications.ApplicationService.WithdrawApplication | src/app/modules/application/application.service.ts:616-638 | Only the applicant withdraws, from SUBMITTED or REVIEWING; a second withdrawal changes nothing |
| Applications.CapBrokenIff | src/app/modules/application/application.service.ts:99-113 | A step breaks a cap that holds if and only if the job is full and an employer revives a WITHDRAWN application |
| Applications.IntakeAccount | src/app/modules/application/application.service.ts:86-171 | In every serial run applyCount grows by exactly the rows created, an applicant has one row per job, and a nonzero cap holds without revivals |
| SocialLinks.SocialLinkTable.Replace | src/app/modules/company/company.service.ts:360-402 | The delete-then-upsert loop computes the specified table |
| SocialLinks.ReplacesExactlyWhen | src/app/modules/company/company.service.ts:360-402 | The company ends with exactly the payload as a multiset of links and no other company's row changes, if and only if the payload's existing ids are the company's own and none is named twice |

## Left out

- SSLCommerz, the signature verdicts of its callbacks, Cloudinary, Expo, mail, JWT and bcrypt: their verdicts are inputs, and notifications are not modelled.
- Express routes, request validation, sockets and seed data: no property beyond plumbing.
- PostgreSQL isolation levels, and Prisma's limits on numbers: a salary outside 32 bits is not refused here.
- GetJobsWhere: its error is the filter engine's only; which clauses the database layer then refuses is `ClauseIsTakenIff`.
- BaseSlugifyNormalises: does not model lower-casing, NFKD and removal of diacritics, because they are Unicode tables; it starts from any text.
- SignatureCanBeValidIff: does not model MD5 and the sorting of parameters; their digest is an input.
- Cascading deletes of users, companies and jobs; company membership is fixed in runs.
- The pricing, discount and gateway session of `initiatePayment`: a payment starts as any PENDING row.
- The subscription module's own writes (cancellation, custom plans, administration) in the runs of `Subscriptions` and `Premium`.
- Payments for different plans within one run of `Subscriptions`; `MovesBackIff` says what one such payment does.
- Fractions of a month: `durationMonths` is truncated as `setMonth` truncates it.
- The range limit of JavaScript dates, local time zones and daylight saving: all dates are unbounded and in UTC.
- Column length limits of slugs, and suffixes above double precision.
- Case folding beyond ASCII in searches.
- Range bounds of the filter engine that are not integers (NaN, strings), and the parsing of the salary parameters.
- Custom clauses beyond conditions on columns, OR lists and AND lists of OR lists; no caller of the modelled code builds others.
- Period names inherited from the object prototype in `getDateFromPeriod`; only the four listed periods count.
- Sorting (and the refusal of an unknown sort field) and pagination metadata of the filter engine, and the totals of `getCompanies` and `getEmployersList`.
- Concurrent logins, creations of applications and slug generations: their runs are serial.
- The reminder window bounds, day counts and mail texts: the window is an input.
- The benefits of a company, replaced by the same loop as the social links.
- The skill, follow, view-log, profile, dashboard and facet members, which are plain table access.
