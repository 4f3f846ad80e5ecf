# Quote marketplace: a verified model

A client company asks caterers for quotes. A request fans out to caterers, the
first three to answer are transmitted, the client accepts one and an order is
born; delivery starts the billing worker, Stripe sends webhooks, and the paid
order is reviewed. This project models that core of the application in Dafny
and proves what it promises over all inputs and all runs. A step of a run is a
handler call taken whole; where calls overlap in the real system, modules of
their own cut them into their reads, writes and locks and quantify over every
interleaving of those.

## How it is organised

| file | what it holds |
|---|---|
| `Tenders.dfy` | the rows of one request and every handler that touches them, as functions |
| `TenderSafety.dfy`, `Discipline.dfy` | invariants of every run, and of runs where approval is used on the qualification queue only |
| `Causes.dfy`, `Provenance.dfy` | read from the rows: exactly which calls make each change, and over whole runs who put each row there |
| `Auctions.dfy` | the same machine refined to an auction of at most three bids |
| `RequestLock.dfy` | answers and acceptances as concurrent transactions under the row lock |
| `RefusalRace.dfy` | a refusal, which takes no lock, against an acceptance |
| `ReadCommitted.dfy` | any number of calls of all the handlers of one request at once: reads, lock, commit of the changed columns |
| `LateWrites.dfy` | in that system, an update or a decline, which take no lock, against an answer |
| `MarketTables.dfy` | the tables as a class with one method per handler, proved against `Tenders.dfy` |
| `Money.dfy`, `QuoteTotals.dfy` | exact sums, half-even rounding, validation, totals, Stripe amounts |
| `QuoteLaws.dfy` | what the totals say on the numbers of the lines: HT, TVA, the fee, the price per person, sections, rate keys, stored rows |
| `Prices.dfy`, `JointRuns.dfy` | the stored price of a quote, and market and billing run together: the price from draft to invoice |
| `Ledger.dfy` | orders, the queue and the billing worker with Stripe outside the transaction, webhooks, admin moves, reviews |
| `LedgerSafety.dfy`, `BillingRows.dfy`, `PaymentSafety.dfy`, `ReviewSafety.dfy`, `Webhooks.dfy`, `Revenue.dfy` | what every run of those keeps |
| `LedgerCauses.dfy` | the same for the ledger: exactly which steps make each change, and who is behind messages, invitations, reviews and paid payments |
| `ImpactLaws.dfy`, `RevenueLaws.dfy` | when the figures of the dashboards move, and by how much |
| `WebhookRace.dfy` | any number of webhook deliveries about one payment at once |
| `LedgerTables.dfy` | the billing tables as a class, with faults and rollback |
| `References.dfy`, `Messaging.dfy`, `Impact.dfy` | quote and invoice references, message threads, social impact |
| `Sums.dfy`, `Wrappers.dfy` | sums over unordered rows, Option and Result |

Conventions. Row identifiers and the fresh message thread are drawn by the
caller, as `uuid4` does. A query without ORDER BY may return any matching row:
the row is a parameter (`link`, `hint`) or a nondeterministic choice. The
current date is a parameter. Amounts before rounding are exact reals, stored
amounts are integers of cents. A run is any finite sequence of handler calls;
the handlers' refusals are replies, never preconditions.

The contracts of `LedgerTables.dfy` tie writes in place to the functions the runs
are made of. `OrderDeliver`, `OrderTransition` and `SubmitReview` add the link
itself: what each method assigns field by field is one step of a run, and no
other table changes. The webhook and worker methods add the rollback: wherever
the transaction raises, the tables are as before.

The handlers are functions, and a function says what it says. `Causes.dfy`,
`LedgerCauses.dfy`, `QuoteLaws.dfy` and the rules in `QuoteTotals.dfy` therefore say
it a second time, the other way round: not what a call does, but which calls make
a given row, status or amount what it is, on the fields alone and without those
functions. `Provenance.dfy`, `ImpactLaws.dfy` and `RevenueLaws.dfy` carry this over
whole runs.

## What the code does that its promises do not say

The code is modelled as it is. For each of these there is an input and the
condition under which the promise holds.

- `approve_quote_request` checks no status. Approving a completed request again
  reopens it and can lead to a second order
  (`TenderSafety.UndisciplinedApprovalOrdersTwice`); it keeps an ordered request
  closed if and only if there is no order or nobody to send to
  (`TenderSafety.ApprovalKeepsOrderIff`).
- `refuse_quote` checks no quote status: refusing any quote of a completed
  request relabels it `quotes_refused`, and nothing else keeps it from doing so
  (`Discipline.RefusingAfterAwardRelabels`, `Discipline.RefusalKeepsCompletedIff`).
- `refuse_quote` takes no lock. Against an acceptance of the same quote it can
  end with a refused quote accepted and ordered
  (`RefusalRace.ClashIsNotSerial`), if and only if other quotes are left
  (`RefusalRace.SerialisableIff`); on the last quote the two can wait for each
  other (`RefusalRace.StuckIff`).
- `quote_update` checks `draft` without a lock. An update that read a draft and
  commits after the answer leaves a sent quote with a new price
  (`LateWrites.LateUpdateReprices`), if and only if both calls go through and the
  form says something else (`LateWrites.FreezeIff`).
- `request_reject` takes no lock either. Against the answer of the same caterer it
  can leave a sent quote on a `rejected` link, where the rule of three does not
  count it (`LateWrites.LateDeclineUncounts`), if and only if the answer goes
  through and the link was not rejected before (`LateWrites.CountedIff`). The
  rule counts links: at most three are transmitted over every interleaving of all
  handlers (`ReadCommitted.EveryScheduleKeepsThree`).
- The webhook reads the payment without a lock. Of two overlapping deliveries a
  failed one that read `pending` can write after the paid one committed: the
  payment ends `failed`, its order `paid` (`WebhookRace.StaleFailureWins`). With
  a paid one among them every schedule ends `succeeded` if and only if no delivery is a failure or the payment
  was in a terminal state, or `failed`, before (`WebhookRace.PaidWinsIff`): the
  session writes a column only when its value differs from the one read, so a
  failure that read `failed` writes nothing.
- Sign-up stores any text as `structure_type`. The orders of a caterer that is
  none of the four structures are in the total of the social impact and in neither
  sector (`Impact.UnknownStructureIsInNoSector`); the sectors share the total if
  and only if those orders come to nothing (`Impact.SectorsShareTheTotalIff`).
- A caterer may draft and answer again after its answer, and its first rank is
  then lost (`Auctions.SecondAnswerLosesRank`, `Auctions.AnswerKeepsRanksIff`).
- A form with more decimals than the columns keep may be stored with a total its
  stored lines do not add up to (`QuoteTotals.StoringMayChangeTotal`). Fitting
  the columns is sufficient for the stored, rounded total
  (`Prices.EveryRunKeepsPrices`), not necessary, as roundings can cancel. It is
  exact for the stored numbers of a line, for its amount unless a zero hides it,
  and for the unrounded total of a form with one such line
  (`QuoteTotals.StoringKeepsLineIff`, `QuoteTotals.StoringKeepsAmountIff`,
  `QuoteTotals.StoringKeepsTotalIff`).

Three places look unguarded by themselves, and the rest of the system keeps
them safe.

- The billing worker writes `invoiced` without looking at the status again
  (`LedgerSafety.CommitMovesForwardIff`). A message is only sent for an order
  that is `invoicing`, which no manual move touches, so orders only move forward
  (`LedgerSafety.EveryRunMovesForward`).
- The paid branch of the webhook does not look at the terminal states
  (`PaymentSafety.TerminalIsKeptIff`). Nothing refunds a payment, so with
  deliveries handled one at a time terminal states are never left
  (`PaymentSafety.EveryRunKeepsTerminal`); overlapping ones are the race above.
- The column of `invoice_prefix` would allow two caterers without a prefix, which
  both print as "None" (`References.UniqueColumnIsNotEnough`). Sign-up gives
  every caterer one of its own (`References.AssignedPrefixesNeverClash`). Dashes
  in a prefix do no harm.

## Model

| member | source | states |
|---|---|---|
| `MarketTables.MarketDb.SubmitQuote` | services/workflow.py:380-488 | the answer of a caterer does to the four tables what one step of the request's state machine does, with its reply, for every guard (no request, not open, no draft, no link, closed link, three answers already), and leaves every other request alone |
| `MarketTables.MarketDb.AnswerThrough` | services/workflow.py:437-471 | past the lookups: closed link refused, fourth answer closes its own link, otherwise sent and ranked |
| `MarketTables.MarketDb.TransmitTo` | services/workflow.py:459-471 | the quote is sent, the link gets the next rank, and the third answer closes every link still `selected` of other caterers |
| `MarketTables.MarketDb.CloseAll` | services/workflow.py:464-471 | the loop over the result set closes exactly the links of the set |
| `MarketTables.MarketDb.AcceptQuote` | services/workflow.py:141-251 | once the other guards hold, done if and only if the quote has no date or its last day is not past, out of date exactly otherwise; as one step of the state machine on that request only |
| `MarketTables.MarketDb.Award` | services/workflow.py:190-236 | quote accepted, sent rivals refused, order created, request completed, losing links closed, in one state change |
| `MarketTables.MarketDb.RefuseAll` | services/workflow.py:192-205 | the loop over the rival quotes refuses exactly those |
| `MarketTables.MarketDb.RefuseQuote` | services/workflow.py:78-138 | refusal with no quote-status guard; the request becomes `quotes_refused` when no sent quote remains |
| `MarketTables.MarketDb.ApproveQuoteRequest` | services/workflow.py:254-344 | fan-out to every validated caterer with no status guard; with an empty catalogue nothing changes |
| `MarketTables.MarketDb.FanOut` | services/workflow.py:290-298 | the loop adds one `selected` link per target and changes no other link |
| `MarketTables.MarketDb.RejectQuoteRequest` | services/workflow.py:347-361 | the request is cancelled, whatever its status |
| `MarketTables.MarketDb.NewRequest` | blueprints/client/requests.py:410-465 | a targeted demand is sent at once with its one link, a comparison waits for review, any other demand is sent to nobody |
| `MarketTables.MarketDb.EditRequest` | blueprints/client/requests.py:779-839 | only a draft or a request under review, in the caller's scope, can be edited, and one under review stays there |
| `MarketTables.MarketDb.CreateQuote` | blueprints/caterer/requests.py:280-347 | one draft per caterer; the form is validated line by line and stored with its total |
| `MarketTables.MarketDb.UpdateQuote` | blueprints/caterer/requests.py:419-466 | only a draft of this caterer changes, and keeps its validity date when the form gives none |
| `MarketTables.MarketDb.DeclineRequest` | blueprints/caterer/requests.py:210-231 | declining marks the link `rejected` unless the quote found has left draft |
| `MarketTables.MarketChangesAt` | services/workflow.py:407-471 | locality: rows of one request changed on the tables are one tender changed in the market |
| `MarketTables.OthersUntouched` | services/workflow.py:217-236 | a handler that writes one request's rows leaves every other request's rows as they were |
| `TenderSafety.EveryRunIsSound` | services/workflow.py:441-471 | after any sequence of handler calls: at most three transmitted links, orders and accepted quotes in step, no sent quote on a completed or refused request, one draft per caterer |
| `TenderSafety.PerformKeepsSound` | services/workflow.py:78-488 | each single handler keeps those invariants, from any state that has them |
| `TenderSafety.NoOrderYetForASentQuote` | models.py:567-569 | UNIQUE on `orders.quote_id` is never what stops a second order: a quote still on the table has none |
| `TenderSafety.PerformAdvances` | blueprints/caterer/requests.py:423-466 | one call moves every quote forward (draft, sent, accepted, refused), keeps orders, and changes no body once sent |
| `TenderSafety.EveryRunAdvances` | blueprints/caterer/requests.py:331-345 | between any two moments of any run of whole calls: monotone life cycle and price freeze |
| `TenderSafety.AcceptedHasExactlyOneOrder` | services/workflow.py:177-215 | every accepted quote of every reachable state has one order and only one |
| `TenderSafety.EveryRunOrdersOnce` | services/workflow.py:174-217 | if approval never meets an ordered request, no request gets two orders and an ordered request never reopens, whatever refusals, rejections and edits follow |
| `TenderSafety.ApprovalKeepsOrderIff` | services/workflow.py:276-301 | `approve_quote_request` keeps an ordered request closed if and only if there is no order yet or nobody to send to |
| `TenderSafety.UndisciplinedApprovalOrdersTwice` | services/workflow.py:276-301 | concrete run in which approving a completed request again ends in two orders for it |
| `Discipline.DisciplinedRunsAreOrderly` | services/workflow.py:444-471 | with approval used on the qualification queue only: one link per caterer, a third answer leaves nobody `selected`, one order at most, and `completed` means one accepted quote with its order and every other caterer shut out |
| `Discipline.PerformKeepsOrderly` | blueprints/admin.py:128-137 | each handler keeps that picture |
| `Discipline.AcceptKeepsOrderly` | services/workflow.py:219-236 | an acceptance leaves one winner and every other link closed or rejected |
| `Discipline.LinkLookupIsDeterministic` | services/workflow.py:428-435 | the unordered link lookup has a single answer in such runs |
| `Discipline.RefusingAfterAwardRelabels` | services/workflow.py:103-138 | refusing any quote of a completed request always relabels it `quotes_refused` while its one order stays |
| `Discipline.RefusalKeepsCompletedIff` | services/workflow.py:94-138 | a completed request keeps its label under a refusal if and only if the refusal finds no request of the company or no such quote |
| `Provenance.EveryOrderWasInTime` | services/workflow.py:170-215 | whatever a run accepts was on the table, accepted by the request's own company on a day it was still valid, the last day included; its order is for that quote and that user |
| `Provenance.EveryQuoteWasDrafted` | blueprints/caterer/requests.py:280-347 | every quote of a reachable request was drafted by its caterer, invited at the time, with a form within the rules |
| `Provenance.EverySentQuoteWasAnswered` | services/workflow.py:407-471 | every quote a client sees was sent by its own caterer while the request took quotes and fewer than three had answered |
| `Provenance.EveryLinkWasInvited` | services/workflow.py:290-298 | every link was drawn by an approval for the caterer it names, or by the client's own targeted request |
| `Provenance.EveryRequestIsItsClients` | blueprints/client/requests.py:410-465 | a request belongs, from start to end, to the company and the user who opened it |
| `Provenance.EveryStoredLineIsLegal` | services/quotes.py:51-63 | every stored line of every reachable quote has one of the five rates, under its own key, and numbers and a section within bounds |
| `Causes.OrderIsAddedIff` | services/workflow.py:156-215 | an order is added exactly when the request's company accepts a quote on the table, in time; it names that quote and that user, and stays |
| `Causes.QuoteIsAcceptedIff` | services/workflow.py:170-190 | a quote becomes accepted exactly then, and no other quote does |
| `Causes.QuoteIsSentIff` | services/workflow.py:407-460 | a quote becomes sent exactly when its own caterer sends its draft, the request takes quotes, the link found is not closed and fewer than three answered |
| `Causes.QuoteIsRefusedIff` | services/workflow.py:94-112 | a quote becomes refused exactly when the company refuses it, whatever its status, or accepts another while it is on the table |
| `Causes.QuoteIsAddedIff` | blueprints/caterer/requests.py:280-347 | a quote is added exactly when an invited caterer without a draft writes one within the rules; it says what the form says |
| `Causes.BodyIsWrittenIff` | blueprints/caterer/requests.py:419-466 | what a quote says changes only by its own caterer's update of its own draft, within the rules; no date given keeps the date |
| `Causes.LinkIsAddedIff` | services/workflow.py:276-298 | links are added by approvals only, one `selected` link per target, and keep their caterer |
| `Causes.LinkIsTransmittedIff` | services/workflow.py:459-462 | a link is transmitted, and ranked by how many were before it, exactly by its caterer's answer |
| `Causes.LinkIsRejectedIff` | blueprints/caterer/requests.py:210-231 | a link is rejected exactly by its caterer's decline, unless the quote found has left draft |
| `Causes.LinkIsClosedIff` | services/workflow.py:217-236 | a link is closed exactly in three ways: answering fourth, being still invited at somebody else's third answer, not being the winner |
| `Causes.RequestGoesOutIff` | blueprints/client/requests.py:779-839 | a request goes out exactly by an approval with somebody to send to, or when its company, and its author where only the author may, saves the draft without comparison |
| `Causes.RequestWaitsIff` | blueprints/client/requests.py:779-839 | it waits for review exactly when such a draft is saved with comparison; no call makes it a draft or `approved` |
| `Causes.RequestEndsIff` | services/workflow.py:130-138 | it is completed exactly by an acceptance, cancelled by the admin's rejection, and refused by the refusal that leaves no quote on the table |
| `Causes.DoneIff` | services/workflow.py:78-488 | each of the nine calls is told it went through exactly on its condition; told otherwise, it has written no order, quote or status |
| `Causes.ClientReplies` | services/workflow.py:170-188 | what the client is told, error by error: not yours, no longer editable, no longer to choose, out of date |
| `Causes.AnswerReplies` | services/workflow.py:407-457 | what a caterer who answers is told: not open, nothing of its own to send, or closed by the three before |
| `Causes.DraftReplies` | blueprints/caterer/requests.py:280-347 | what a caterer who drafts is told, error by error |
| `Causes.DeclineReplies` | blueprints/caterer/requests.py:210-231 | what a caterer who declines is told |
| `Auctions.EveryFairRunIsAnAuction` | services/workflow.py:444-471 | refinement: with disciplined approval and no draft after an answer, every run is, request by request, a legal play of an auction of at most three bids |
| `Auctions.PerformIsMove` | services/workflow.py:78-488 | each handler call is one enabled auction move, or none |
| `Auctions.NextKeepsAuctionOk` | services/workflow.py:389-397 | the auction itself: three bids at most, one per caterer, only a bid can stand or win, bids are only appended |
| `Auctions.SubmitIsBid` | services/workflow.py:459-471 | a transmitted answer is a bid at the next place |
| `Auctions.AcceptIsAward` | services/workflow.py:190-236 | an acceptance awards a standing bid and clears the others |
| `Auctions.RefuseIsTurnDown` | services/workflow.py:112-138 | a refusal removes one standing bid and fails the auction when none is left |
| `Auctions.DeclineStays` | blueprints/caterer/requests.py:220-229 | a bidder cannot decline any more, so declining moves nothing in the auction |
| `Auctions.RanksAreOneToK` | services/workflow.py:444-462 | non-null ranks are exactly 1..k, each on one link, k at most 3 |
| `Auctions.AnswerKeepsRanksIff` | blueprints/caterer/requests.py:292-302 | nothing stops a second draft after an answer: a transmitted answer keeps the ranks exact if and only if its link had no rank |
| `Auctions.SecondAnswerLosesRank` | blueprints/caterer/requests.py:292-302 | concrete run: the same caterer drafts and answers again, is transmitted, and the ranks are 1..k for no k |
| `RequestLock.Serialisability` | services/workflow.py:156-168 | any interleaving of any number of answers and acceptances, cut into lock, two reads, preparation and commit, leaves the database and the replies of the serial run in locking order |
| `RequestLock.EveryScheduleKeepsInv` | services/workflow.py:407-415 | at every moment of every schedule the database, with what the lock holders will commit, is the serial run so far |
| `RequestLock.SomeoneCanMove` | services/workflow.py:407-411 | no deadlock: while a call has not returned, some call can take a step |
| `RequestLock.ConcurrentCallsKeepSound` | services/workflow.py:399-401 | so concurrent calls keep the three-responder rule and the order rules too |
| `RefusalRace.SerialisableIff` | services/workflow.py:94-138 | a refusal, which takes no lock, and an acceptance: every schedule that ends, ends as one of the two serial runs, if and only if they do not meet on one quote with others left |
| `RefusalRace.ClashIsNotSerial` | services/workflow.py:103-112 | the schedule that breaks it: the refused quote ends accepted, with an order, and both callers are told it went well |
| `RefusalRace.StuckIff` | services/workflow.py:130-138 | the two calls can wait for each other if and only if they meet on the last quote sent |
| `RefusalRace.EveryScheduleKeepsInv` | services/workflow.py:156-188 | what the committed rows are at every moment of every schedule of the two |
| `ReadCommitted.AloneIsPerformed` | services/workflow.py:407-415 | a call alone commits exactly what its handler returns |
| `ReadCommitted.EveryScheduleKeepsThree` | services/workflow.py:441-471 | over every interleaving of any number of calls of every handler of a request, of which only answers, acceptances and edits lock: at most three transmitted links |
| `ReadCommitted.EveryScheduleKeepsOrders` | services/workflow.py:177-215 | over the same interleavings: each order is of a quote accepted, or refused since, no quote has two, every accepted quote has one |
| `LateWrites.FreezeIff` | blueprints/caterer/requests.py:419-466 | an update against the sending of its draft: on every interleaving a quote keeps what it said when it left draft, if and only if the two do not both go through with a form that says something else |
| `LateWrites.LateUpdateReprices` | blueprints/caterer/requests.py:423-466 | the schedule that breaks it: the quote is sent with one body and ends sent with another |
| `LateWrites.CountedIff` | blueprints/caterer/requests.py:210-231 | a decline against the answer of the same caterer, whose one quote is the draft it sends: on every interleaving a sent quote is on a transmitted link, if and only if the answer does not go through or the link was rejected before |
| `LateWrites.LateDeclineUncounts` | services/workflow.py:441-471 | the schedule that breaks it: the quote ends sent, its link `rejected` |
| `WebhookRace.PaidWinsIff` | blueprints/api.py:116-161 | any number of overlapping deliveries about one payment, one of them paid: every schedule that answers them all ends `succeeded`, if and only if none is a failure or the payment was in a terminal state, or `failed`, before |
| `WebhookRace.StaleFailureWins` | blueprints/api.py:155-161 | the schedule that breaks it: a failed delivery that read first and writes last leaves the payment `failed` and its order `paid` |
| `WebhookRace.EveryScheduleKeeps` | blueprints/api.py:116-126 | at every moment of every schedule the payment keeps its order, and an answered paid delivery has left that order paid |
| `Money.HalfEven` | services/quotes.py:191-203 | the rounding is within half a unit and breaks ties to even |
| `Money.HalfEvenIsTheOnlyOne` | services/stripe_service.py:33-35 | and no other integer meets those two clauses |
| `Money.KeysAreTheKeysMet` | services/quotes.py:168-172 | a grouping dict has one entry per key met and no other |
| `Money.SumOfPermutation` | services/quotes.py:156-166 | a sum over lines does not depend on their order |
| `Money.BucketsConserve` | services/quotes.py:156-174 | before rounding the buckets of a grouping add up to the whole exactly |
| `Money.RoundingDrift` | services/quotes.py:191-203 | n buckets rounded one by one miss the rounded total by at most (n+1)/2 cents |
| `Money.DriftHappens` | services/quotes.py:191-203 | concrete lines for which they do miss it |
| `QuoteTotals.LinesFromDicts` | services/quotes.py:38-79 | on the submitted fields: succeeds if and only if in every line the numbers are finite, quantity, price and product are in bounds, the rate is one of the five and the description is short enough; an error names the first bad line and the first check it fails; success gives the rows as the columns store them |
| `QuoteTotals.FaultIsFirstBroken` | services/quotes.py:44-69 | the checks, one after the other, find nothing exactly on a line within the rules, and otherwise the first rule broken in their order |
| `QuoteTotals.StoringKeepsTotalHt` | models.py:547-549 | quantities with three decimals and prices with two go through the columns with the same HT and TVA totals |
| `QuoteTotals.StoringKeepsLineIff` | models.py:547-549 | the columns keep the quantity, and the price, of a line if and only if it has no more decimals than they do |
| `QuoteTotals.StoringKeepsAmountIff` | models.py:547-549 | when one of the two numbers fits and is not zero, the line's HT amount is kept if and only if both fit |
| `QuoteTotals.StoringKeepsTotalIff` | models.py:547-549 | a form with one such line among lines that fit keeps its exact HT total if and only if that line fits |
| `QuoteTotals.StoringMayChangeTotal` | models.py:547-549 | concrete accepted line whose stored total is not the one its stored line adds up to |
| `QuoteTotals.AddTo` | services/quotes.py:168-174 | one increment of a grouping dict is the grouping of one line more |
| `QuoteTotals.AccumulateLines` | services/quotes.py:151-174 | the accumulator loop computes the plain sums and, per section and per rate, the sums over the lines of that key |
| `QuoteTotals.CalculateQuoteTotals` | services/quotes.py:133-204 | every returned amount is the half-even rounding of the matching exact sum, with the default commission and the zero-guest case |
| `QuoteLaws.OneLine` | services/quotes.py:156-157 | one line is worth quantity times price, and taxed its rate in percent of that |
| `QuoteLaws.LinesAddUp` | services/quotes.py:159-160 | lines put together are worth, and taxed, what they are apart |
| `QuoteLaws.PrintedAmounts` | services/quotes.py:191-199 | printed HT, TVA and TTC are those sums, each within half a cent |
| `QuoteLaws.MixedRates` | services/quotes.py:191-200 | a worked quote at two rates: 550 euros, taxed 60, 61 per guest |
| `QuoteLaws.FeeIgnoresVat` | services/quotes.py:178-183 | two quotes with the same quantities and prices carry the same platform fee, at any VAT rates |
| `QuoteLaws.FeeIsTheRateOfTheTotal` | services/quotes.py:183 | the printed fee is the commission rate times the printed HT total, within 0.5 + 0.5 times the rate cents |
| `QuoteLaws.FeeDefaultsToFivePercent` | services/quotes.py:130-149 | no commission rate given is five percent |
| `QuoteLaws.FeeCarriesNoVat` | services/quotes.py:178-185 | the fee carries no VAT |
| `QuoteLaws.GuestsOnlyShare` | services/quotes.py:187-189 | no guests is no price per person, and the guests change nothing else |
| `QuoteLaws.PrintedBuckets` | services/quotes.py:168-174 | sections and rates printed are those of some line, each with the rounded sum over its own lines |
| `QuoteLaws.RateKeyReadsBack` | models.py:547-549 | the key of a stored rate reads back as the rate |
| `QuoteLaws.RateKeysApart` | models.py:547-549 | so grouping stored lines by key is grouping them by rate |
| `QuoteLaws.ReadLine` | services/quotes.py:150-157 | how the totals read a submitted line: what is missing is none, at ten percent, in the main section |
| `QuoteLaws.StoredRow` | services/quotes.py:70-79 | the row a submitted line leaves, field by field, within the columns' rounding |
| `QuoteTotals.TotalsPermutation` | services/quotes.py:156-204 | all totals are the same for any order of the lines |
| `QuoteTotals.PrintedBucketsDrift` | services/quotes.py:191-199 | printed sections and rates against the printed HT and TVA totals, within (n+1)/2 cents |
| `QuoteTotals.TtcWithinOneCent` | services/quotes.py:176-199 | the printed TTC is within one cent of printed HT plus TVA |
| `QuoteTotals.PerPersonNearTtc` | services/quotes.py:187-200 | the printed price per person times the guests gives the printed TTC back within (guests+1)/2 cents |
| `QuoteTotals.InvoiceItems` | services/stripe_service.py:227-247 | the grouping loop and the item loop send one item per rate, in first-met order, at the rate's rounded HT sum |
| `QuoteTotals.ItemsWithinThreeCents` | services/stripe_service.py:227-247 | the per-rate amounts sent to Stripe add up to the quote's HT total within three cents |
| `QuoteTotals.SplitInvoiceAmounts` | services/stripe_service.py:51-79 | caterer share plus fee is the total, and the share is the TTC in cents |
| `QuoteTotals.FeeSentIsFeeBooked` | services/stripe_service.py:201-215 | the fee sent (sum rounded once) is the fee booked (parts rounded apart) |
| `Prices.EveryRunKeepsPrices` | blueprints/caterer/requests.py:331-345 | when every form fits the columns, each quote of each reachable state stores the total its own lines add up to |
| `JointRuns.InvoicedAsAccepted` | services/stripe_service.py:183-197 | in every joint run of market and billing whose forms fit, each invoice is for the quote its order was made of, at the HT total that quote was accepted with |
| `JointRuns.EverySaleIsAsAgreed` | services/workflow.py:207-215 | every order is billed on the lines, the total, the caterer, the company, the author and the terms its acceptance was made on, whatever happened since |
| `JointRuns.EveryJointRunIsOk` | services/workflow.py:207-215 | the orders billing works on are those acceptances made, each with the body of its quote, its company and its requester |
| `LedgerSafety.EveryRunBillsOnce` | services/stripe_service.py:207-225 | any interleaving of failing, retried and overlapping worker runs with deliveries, webhooks, admin moves and reviews: one Stripe invoice per order at most, and one payment, one invoice and two commission invoices of an order, or none of them |
| `LedgerSafety.StepKeepsBillingOk` | services/billing_tasks.py:77-102 | each single step keeps it |
| `LedgerSafety.OneStripeInvoicePerOrder` | services/stripe_service.py:224 | two Stripe invoices of one order are the same one |
| `LedgerSafety.EveryPaymentBalances` | services/stripe_service.py:270-285 | each payment of each reachable state: share plus fee is total, share is the quote TTC, fee is the `application_fee_amount` Stripe got |
| `LedgerSafety.StepMovesForward` | blueprints/admin.py:607-610 | each step moves every order forward along confirmed, delivered, invoicing, invoiced, paid |
| `LedgerSafety.EveryRunQueues` | blueprints/caterer/orders.py:141-150 | a message is only ever out for an order that is `invoicing` or billed, and every worker runs for such a message |
| `LedgerSafety.CommitMovesForwardIff` | services/stripe_service.py:266-268 | the commit alone, which does not look at the status: it moves an order back if and only if the order is paid and its Stripe invoice has no payment row |
| `LedgerSafety.OnlyQueuedAreBilled` | blueprints/caterer/orders.py:137-150 | Stripe hears only of orders a message was sent for |
| `LedgerSafety.EveryRunMovesForward` | blueprints/admin.py:607-610 | between any two moments of any run, order statuses only move forward |
| `LedgerCauses.EveryInvoicingIsQueued` | blueprints/caterer/orders.py:137-150 | in every reachable state every order `invoicing` has its message: none waits for a worker that will not come |
| `LedgerCauses.DeliveredIff` | services/workflow.py:505-516 | an order becomes `delivered`, or `invoicing`, exactly when its own caterer delivers it confirmed, with billing off, or on |
| `LedgerCauses.InvoicedIff` | services/stripe_service.py:266-268 | it becomes `invoiced` exactly by the admin's move from `delivered`, or by the commit of a worker whose invoice has no payment yet |
| `LedgerCauses.PaidIff` | blueprints/api.py:116-126 | it becomes `paid` exactly by the admin's move from `invoiced`, or by a paid event for its payment that gets through |
| `LedgerCauses.OrderIsPlacedIff` | services/workflow.py:207-215 | orders come confirmed, of the sale accepted, and keep their sale |
| `LedgerCauses.MessageIsSentIff` | blueprints/caterer/orders.py:141-150 | a message goes out exactly with a delivery under billing |
| `LedgerCauses.WorkerStartsIff` | services/billing_tasks.py:61-90 | a worker starts exactly on a message for an order `invoicing` or `delivered` |
| `LedgerCauses.StripeHearsIff` | services/stripe_service.py:207-225 | Stripe makes an invoice exactly when a worker calls with the key of an attempt it has not seen |
| `LedgerCauses.PaymentMovesIff` | blueprints/api.py:116-161 | a payment changes exactly by a paid event, which also leaves its charge, or by a failure outside the terminal states; amounts and order never change |
| `LedgerCauses.PaymentIsRecordedIff` | services/stripe_service.py:266-293 | a payment is recorded exactly by the worker that bills its order: pending, without charge, under the invoice its order keeps |
| `LedgerCauses.AccountMovesIff` | blueprints/api.py:163-174 | the two flags of a connected account change exactly by an update of that account, to what it says |
| `LedgerCauses.ReviewIsAddedIff` | services/reviews.py:136-201 | the list of reviews grows exactly by what the requester of a paid, unreviewed order writes, rating included |
| `LedgerCauses.InviteIsAddedIff` | services/reviews.py:218-271 | the requester is invited exactly when the order gets paid and is not reviewed |
| `LedgerCauses.EveryPaidOrderIsInvited` | services/reviews.py:218-271 | in every reachable state the requester of every paid order has been invited |
| `LedgerCauses.EveryReviewWasWritten` | services/reviews.py:136-201 | every review of a reachable state stands as its author wrote it, while the order was paid and unreviewed |
| `LedgerCauses.EverySuccessWasPaid` | blueprints/api.py:116-123 | every succeeded payment was paid by a delivery that got through, and keeps its charge |
| `BillingRows.EveryPaymentIsFairlyBilled` | services/stripe_service.py:183-326 | on the lines of the sale: the caterer gets their total with TVA, the platform the sale's rate of their total without, invoices and commissions state the same |
| `BillingRows.EveryInvoiceStatesItsQuote` | services/stripe_service.py:295-306 | each invoice row carries the HT, the TTC and the derived reference of its order's quote |
| `BillingRows.EveryCommissionIsTheFee` | services/stripe_service.py:308-326 | each commission invoice states the fee of its order's quote, the one its payment keeps back |
| `LedgerTables.LedgerDb.OrderDeliver` | blueprints/caterer/orders.py:116-157 | a confirmed order of this caterer becomes `delivered` when billing is off, `invoicing` with its message sent when it is on; any other call changes nothing |
| `LedgerTables.LedgerDb.OrderTransition` | blueprints/admin.py:732-812 | the two manual moves, only from their source status, with the review invitation on payment |
| `LedgerTables.LedgerDb.StripeWebhook` | blueprints/api.py:101-193 | wherever the transaction raises, every table is as before, dedup row included; otherwise dedup row and business change commit together |
| `LedgerTables.LedgerDb.Dispatch` | blueprints/api.py:115-180 | when nothing raises, the handler's in-place writes are exactly the event's effect |
| `LedgerTables.LedgerDb.CreateStripeInvoice` | services/stripe_service.py:207-225 | an idempotency key always gets the invoice it got first |
| `LedgerTables.LedgerDb.SendInvoiceForOrder` | services/billing_tasks.py:61-102 | the worker's gate; a run that raises leaves the books as they were, incremented attempt included |
| `LedgerTables.LedgerDb.CreateInvoiceForOrder` | services/stripe_service.py:177-328 | all billing rows and the new status, or nothing but what Stripe remembers |
| `LedgerTables.LedgerDb.AddRows` | services/stripe_service.py:270-326 | one payment, one invoice, one commission invoice per party, appended with the bill's amounts |
| `LedgerTables.LedgerDb.NotifyReviewInvite` | services/reviews.py:218-271 | an invitation only for a paid, unreviewed order not invited yet |
| `LedgerTables.LedgerDb.SubmitReview` | services/reviews.py:136-201 | a review is posted if and only if the rating is 1 to 5 and the viewer is the requester of a paid, unreviewed order |
| `LedgerTables.WorkerRunIsSteps` | database.py:26-37 | one worker run is a start, a Stripe call and a commit or a discarded session of the interleaving model |
| `Webhooks.ExactlyOnce` | blueprints/api.py:90-108 | any log with duplicates, redeliveries and failures leaves each distinct event applied once, at its first success, and no trace of a failure |
| `Webhooks.FirstsAreFirstSuccesses` | blueprints/api.py:182-191 | those are exactly the first successful deliveries of unseen ids, each id once |
| `Webhooks.FirstsKeepOrder` | blueprints/api.py:182-191 | and they come in the order of the log |
| `Webhooks.LastWordStands` | blueprints/api.py:163-174 | after any log the flags of an account, and the charge of a payment, are those of the last event that got through |
| `Webhooks.ApplyAllEnds` | blueprints/api.py:116-161 | where every payment and order status ends, in closed form |
| `Webhooks.Confluence` | blueprints/api.py:42-45 | with deliveries handled one at a time, two logs that get the same events through, in any order, leave the same payment and order statuses |
| `Webhooks.PaidWins` | blueprints/api.py:116-161 | with deliveries handled one at a time, once a paid event got through, the payment is succeeded and its order paid, whatever is handled later |
| `PaymentSafety.EveryRunKeepsTerminal` | blueprints/api.py:42-45 | with deliveries handled one at a time, between any two moments of any run a payment in a terminal state keeps its status |
| `PaymentSafety.TerminalIsKeptIff` | blueprints/api.py:116-161 | one event alone moves a payment out of a terminal state if and only if it is a paid event for a refunded payment |
| `PaymentSafety.EveryRunRefundsNothing` | models.py:177-184 | no run ever holds a refunded payment |
| `PaymentSafety.StepKeepsSucceeded` | blueprints/api.py:155-161 | no step, each delivery being one, takes a payment out of `succeeded` |
| `PaymentSafety.EveryRunSettles` | blueprints/api.py:121-126 | in every reachable state a succeeded payment goes with a paid order |
| `Revenue.RevenueIsConserved` | blueprints/admin.py:434-449 | in every reachable state, platform revenue is commission plus the sum of all caterers' dashboards |
| `Revenue.DashboardsShareIt` | blueprints/caterer/dashboard.py:82-91 | the dashboards share out the caterer amounts of succeeded payments, none twice |
| `RevenueLaws.SuccessRaisesRevenue` | blueprints/admin.py:434-449 | the delivery that takes a payment to `succeeded` raises revenue by its total, commission by its fee, and its caterer's dashboard by the rest, nobody else's |
| `RevenueLaws.OtherwiseRevenueStays` | blueprints/caterer/dashboard.py:82-91 | a step in which no payment succeeds moves no figure |
| `ReviewSafety.EveryRunReviewsOnce` | services/reviews.py:240-271 | over any mix of admin moves, webhooks and worker runs: one invitation and one review per order, by the requester |
| `ReviewSafety.StepKeepsReviews` | services/reviews.py:153-174 | no step invites anew for an order already reviewed, or loses a review |
| `ReviewSafety.EveryRunReviewsPaidOrders` | services/reviews.py:163-165 | in every reachable state every reviewed order is paid: it stays paid once reviewed |
| `References.ReferenceIsInjective` | services/quotes.py:100 | two references are equal if and only if printed prefix, year and number are |
| `References.PaddedReadsBack` | services/quotes.py:100 | the zero-padded number reads back, past 999 too |
| `References.EveryRowIsNumbered` | services/quotes.py:86-100 | in every run the reference of a quote carries its caterer's prefix, its year, and one more than how many quotes of that caterer and year came before |
| `References.FirstOfTheYear` | services/quotes.py:100 | the first reference of a caterer in a year, in letters |
| `References.FirstInvoiceOfTheYear` | services/quotes.py:103-105 | and its invoice's |
| `References.ReferencesAreFreeIff` | services/quotes.py:92-100 | over every run of creations the next reference is free, if and only if no two caterers print the same prefix |
| `References.UniqueColumnIsNotEnough` | models.py:252 | the nullable UNIQUE prefix column gives that condition exactly when at most one caterer has no prefix and none is called None |
| `References.AssignedPrefixesNeverClash` | services/slugs.py:9-24 | with a prefix for every caterer and no two alike, as sign-up gives them, no draft is ever refused for its reference |
| `References.SamePrefixClashes` | services/quotes.py:95-100 | two caterers printing the same prefix clash on their first quotes of a year |
| `References.InvoiceReferenceKeepsApart` | services/quotes.py:103-105 | the derivation is injective on quote references |
| `References.InvoiceReferencesAreDistinct` | services/quotes.py:103-105 | no two quotes of a run give one invoice reference |
| `Messaging.EveryRunKeepsPairs` | blueprints/api.py:356-372 | over any run, messages share a thread if and only if they share their unordered pair of users |
| `Messaging.FreshIdMattersIff` | blueprints/api.py:372 | a first message keeps that rule if and only if its new thread id is not in use |
| `Messaging.SendingIsSeen` | blueprints/api.py:356-385 | a message sent is unread for its recipient and no one else, shows both sides to each other, keeps its time, and changes no older message |
| `Messaging.Mailbox.SendMessage` | blueprints/api.py:324-490 | one row, in a thread of the pair when there is one, in the new thread otherwise; nothing when the recipient is refused |
| `Messaging.Mailbox.OpenThread` | blueprints/api.py:213-222 | exactly the viewer's unread messages of the thread become read |
| `Messaging.OpeningReadsTheThread` | blueprints/api.py:213-222 | the viewer's other threads and everybody else's unread messages stay as they were |
| `Messaging.Mailbox.ThreadsForViewer` | services/messagerie.py:101-157 | one row per thread of the viewer, newest first, each with the newest message's counterpart and its unread count |
| `Messaging.Mailbox.LastMessage` | services/messagerie.py:112-117 | the row kept for a thread is one of its newest messages |
| `Messaging.NewestOnTop` | services/messagerie.py:101-157 | a message later than all others puts its thread on top of both inboxes, with its time and the other side |
| `Messaging.OneRowPerPerson` | services/messagerie.py:136-157 | the inbox never lists one person twice |
| `Messaging.BadgesAddUp` | services/messagerie.py:125-134 | the unread badges add up to all unread messages addressed to the viewer |
| `Messaging.Mailbox.ActiveThread` | services/messagerie.py:160-183 | whichever row the query returns, the counterpart is the one of every message of the thread; none for a non-participant |
| `Messaging.CounterpartIsFixed` | services/messagerie.py:168-180 | two rows of a thread give the same counterpart |
| `Impact.ComputeSocialImpact` | services/impact.py:86-150 | the loop over grouped rows, in any order, gives the sums taken order by order |
| `ImpactLaws.FiguresSeeOnlyPaidOrders` | services/impact.py:117-124 | the figures of a company are those of its paid orders |
| `ImpactLaws.PayingRaisesTheFigures` | services/impact.py:117-135 | the step that takes an order to `paid` raises its company's total, and its caterer's sector, by exactly that sale's amount, and nobody else's |
| `ImpactLaws.NotPayingKeepsTheFigures` | services/impact.py:117-124 | a step that pays no order changes no figure |
| `ImpactLaws.EveryRunCountsWhatIsPaid` | services/impact.py:117-124 | over any run a company's total is what was paid of its orders, step by step |
| `Impact.SectorsAndTheRest` | services/impact.py:129-135 | SIAE plus STPA plus the orders of caterers of no known structure is the total |
| `Impact.SectorsShareTheTotalIff` | blueprints/auth.py:370-386 | the two sectors add up to the total if and only if those orders sum to nothing |
| `Impact.UnknownStructureIsInNoSector` | blueprints/auth.py:370-386 | concrete order of a caterer with another structure: in the total, in no sector |
| `Impact.SectorsShareTheTotal` | services/impact.py:129-135 | for caterers of the four structures SIAE plus STPA is the total |
| `Impact.UsersAddUpToCompany` | services/impact.py:117-124 | the users' own totals add up to the company's |
| `Impact.HoursNearTheTotal` | services/impact.py:137-143 | 26 euros times the hours shown is within 13 euros of the total |

## Left out

- MarketTables.MarketDb.NewRequest: does not model the submission-token short cut for a replayed form; row ids are required to be new.
- RequestLock.Serialisability: covers `submit_quote` and `accept_quote`, which lock the request; of the other handlers this equality with a serial run is not stated. `RefusalRace.dfy` settles it for one refusal against one acceptance, where it can fail; `ReadCommitted.dfy` keeps the bound of three and the orders over interleavings of all of them.
- MarketTables.MarketDb.CreateQuote: the stored row keeps the lines, the HT total and the validity date; the per-person amount and the notes are not in it, and references are a module of their own.
- MarketTables.MarketDb.UpdateQuote: the same columns are left out of the stored row.
- LedgerSafety.EveryRunBillsOnce: Stripe is a map from idempotency key to invoice that never forgets; a key that expires is not modelled, nor are invoice items, which carry no key and can be sent twice on a retry. The row lock an order's flush takes is not modelled either, so worker runs interleave more freely than the database lets them; webhook deliveries, on the contrary, are whole steps here (see PaymentSafety.EveryRunKeepsTerminal). A command that queues orders again is named in comments only and is not part of this model.
- LedgerTables.LedgerDb.CreateInvoiceForOrder: does not model the average TVA rate, the hosted URL, the sequence number of commission invoices or its gaps, or the customer and tax-rate calls.
- LedgerTables.LedgerDb.NotifyReviewInvite: the branch for a request without requester is left out, since that column is NOT NULL (models.py:405).
- TenderSafety.EveryRunAdvances: a run takes each call whole; an update overlapping the sending of its draft is `LateWrites.FreezeIff`, where the freeze can fail.
- ReadCommitted.EveryScheduleKeepsThree: a call reads all its rows when it starts and may read the part it looks up last again; other splits of its reads are not modelled, nor are waits for rows being written. Ids of new rows are not drawn by two calls at once.
- LateWrites.CountedIff: is about a caterer with one link and one quote on the request; with an older quote that left draft, the decline may be refused by whichever quote its unordered lookup returns.
- PaymentSafety.EveryRunKeepsTerminal: deliveries are handled one at a time; overlapping deliveries about one payment are `WebhookRace.PaidWinsIff`, where the statement can fail.
- PaymentSafety.StepKeepsSucceeded: the same; a step is one delivery taken whole.
- Webhooks.PaidWins: the same; a failed delivery that read the payment before the paid one committed is in `WebhookRace.dfy`.
- Webhooks.Confluence: deliveries are handled one at a time. It says nothing of the charge id kept on a payment, which depends on the order of two paid events; payments are taken to exist when their events arrive.
- QuoteTotals.CalculateQuoteTotals: decimals are exact reals; the 28-digit context and the float conversions of stored lines are taken as exact.
- QuoteTotals.LinesFromDicts: does not model JSON decoding; each field arrives as missing, not a number, not finite, or a number.
- JointRuns.InvoicedAsAccepted: the reference, the guest count and the commission rate a sale is billed with are parameters of its acceptance.
- LedgerTables.LedgerDb.AddRows: the TVA rate and mention columns of the rows are left out.
- References.ReferencesAreFreeIff: the application's clock and the database's are one clock, and creations are sequential.
- Messaging.Mailbox.SendMessage: who may write to whom is a parameter; sends are sequential.
- Stripe's own final total: the fee line carries a tax rate the ledger does not, so no claim relates the two.
- Changes of a caterer's commission rate, validation flag or account while an order is under way.
- Routing, sessions, forms, templates, notifications, e-mail, PDF, uploads, geocoding, migrations and the browser code: no state of the protocols above.
- Display statuses, search filters, statistics charts, profile and team pages.
