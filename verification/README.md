# Circulation, the agent desk and their guards, in Dafny

This project models a school library system and proves what its circulation promises.

- **Circulation.** Copies have a status, loans are open until they are returned, deliveries walk a status graph, and every
  checkout, return, transition and pick-up request can be repeated under an idempotency key. `Domain.dfy` holds the tables,
  `Circulation.dfy` says for every command what it answers and which tables it leaves committed. `Services.dfy`,
  `Workflows.dfy`, `Queries.dfy` and `Administration.dfy` are the services as they run, step by step on a database session,
  and are proved equal to that specification. `Invariants.dfy`, `History.dfy`, `Runs.dfy`, `Deliveries.dfy` and
  `LoanLimits.dfy` prove the laws of all serial runs, and `OperationLaws.dfy` writes out, on the rows, when each operation
  goes through and what it then leaves.
- **Concurrency.** `Interleaving.dfy` splits checkouts and returns into reads, row locks, buffered writes, commits and aborts,
  and proves that every interleaving is a serial run, that the unique index on open loans stays silent, and which deadlocks
  exist.
- **The agent desk.** A conversation fills slots; writes happen only through approval cards that the operator confirms.
  `AgentSession.dfy` has the slots and cards, `DeskIssueTools.dfy` and `DeskReturnTools.dfy` the tools, `DeskCards.dfy` what
  a card stands for and what its action does to the rows, `DeskCoordinator.dfy` the handlers for every intent, and
  `DeskRuns.dfy` whole runs of messages, answers and other requests.
- **Guards.** `RateLimiter.dfy` (the sliding log), `Reporting.dfy` (the dashboard against the state and its history) and
  `Pseudonyms.dfy` (session labels, down to printing their numbers in decimal); `Text.dfy` has the few string operations.

Three points hold throughout.

- A database session has committed tables and the pending tables of the current transaction; an error leaves the committed
  ones as they were. Ids, clocks, crashes and database failures are inputs or arbitrary.
- The desk's queries over free text may answer any rows that their other conditions admit, and the intent of a message is an
  arbitrary value, so nothing depends on how text is matched or parsed.
- Some predicates are folded: their meaning stands under a quantifier whose trigger is a mark (`Unfold`, `InDetail`,
  `Consulted`, `Unrolled`, `Heard`, `Dealt`, `Turned`) that is always true. A proof that needs the meaning mentions the mark.

What the proofs show about the code beyond its promises:

- A crash between the two commits of an issue loses the delivery for good: the retry answers with the loan and adds nothing
  (`Deliveries.DeliveryLostIffCrash`).
- A return by copy and a return by loan of the same loan can deadlock, and every deadlock of checkouts and returns is such a
  pair (`Interleaving.OpposedIsReachable`, `Interleaving.DeadlockIsOpposedPair`).
- The count of tool calls restarts with a message and not with an answer. A turn that used the whole budget leaves a card
  whose approval is refused until the next message; the card and its slots survive (`DeskCoordinator.IssueAgentCoordinator.Resume`).
- After an approved return at a desk visit the loans are listed again. When that list is over the budget or its query fails,
  the answer is an error and the card stays up although its loan is already returned: the card has lost its loan exactly
  when an answer took the loan back and was an error (`DeskRuns.LackHasCause`, `DeskRuns.LostSlotIsLost`,
  `DeskRuns.UnluckyRunLosesSlot`). With a budget of two or more this needs a database failure
  (`DeskRuns.CalmRunLacksNothing`).
- A loan in the slots can outlive its copy, so a cancel or pick-up card can show one copy and act on the loan of another
  (`AgentSession.ShownCopyIsTheLoans`, `AgentSession.ShownCopyMayDiffer`).
- Cancelling an open loan and confirming its pick-up fail exactly when a return is stored under the loan's id and the key.
  That cannot happen while loan ids and copy ids differ, and can happen otherwise, because the scope of a stored return does
  not say which kind of id it carries (`Deliveries.CancelIssueExactly`, `Deliveries.SharedIdBlocksCancel`).

## Model

| member | source | states |
|---|---|---|
| Services.HoldingCirculationAdapter.LockForCheckout | src/lms/catalog/infrastructure/adapters/holding_circulation.py:17-39 | The snapshot is lendable exactly for a published, circulating, available copy; missing copy or title is not found |
| Services.HoldingCirculationAdapter.MarkOnLoan | src/lms/catalog/infrastructure/adapters/holding_circulation.py:41-45 | Sets this copy's status to on loan and nothing else |
| Services.HoldingCirculationAdapter.MarkAvailable | src/lms/catalog/infrastructure/adapters/holding_circulation.py:54-58 | Sets this copy's status to available and nothing else |
| Services.PatronEligibilityAdapter.Check | src/lms/reference/infrastructure/adapters/patron_eligibility.py:21-49 | While flags follow block rows, 'blocked' means that some active block row exists: the answer depends neither on which active row the unordered query returns nor on the clock |
| Services.PolicyResolver.Resolve | src/lms/loan/infrastructure/policy_resolver.py:17-37 | Rule set mapped to the patron type, its limit, and today plus its loan period |
| Services.IssueEligibilityValidator.ValidatePatron | src/lms/api/workflows/issue_eligibility_validator.py:25-49 | Collects exactly the patron's violations, in order |
| Services.IssueEligibilityValidator.ValidateHolding | src/lms/api/workflows/issue_eligibility_validator.py:60-84 | Collects exactly the copy's violations, in order |
| Services.IssueEligibilityValidator.ValidateIssue | src/lms/api/workflows/issue_eligibility_validator.py:51-55 | Both lists joined |
| Services.CirculationOrchestrator.Admit | src/lms/loan/application/circulation_orchestrator.py:73-111 | Refuses with the first rule that fails; when it admits, only a taken id or an open loan of the copy can still stop the insert |
| Services.CirculationOrchestrator.Checkout | src/lms/loan/application/circulation_orchestrator.py:36-136 | Commits exactly the specified tables and answer on the replay, refusal, insert-clash and success paths; under an unused key a success answers with the new id, and that loan is open, for this patron and copy, under the rule set mapped to the patron's type, and due its loan period after today |
| Services.CirculationOrchestrator.ReturnHolding | src/lms/loan/application/circulation_orchestrator.py:138-238 | Commits exactly the specified tables and answer for a return by copy, by loan, or by both; on a refusal or a replay nothing is written |
| Services.FulfillmentService.CreateIssueFulfillment | src/lms/loan/application/fulfillment_service.py:36-65 | Needs an open loan of that very copy; adds one requested row |
| Services.FulfillmentService.InitiateReturnPickup | src/lms/loan/application/fulfillment_service.py:67-88 | Needs an open loan; adds one requested pick-up for the loan's copy |
| Services.FulfillmentService.Transition | src/lms/loan/application/fulfillment_service.py:90-158 | Under an unused key it goes through exactly when the delivery has the status already or may move there, and then the delivery has the status asked for and nothing else changed; replays as specified |
| Services.FulfillmentService.GetIssueFulfillmentForLoan | src/lms/loan/application/fulfillment_service.py:163-170 | Some delivery of the loan, if there is one |
| Services.FulfillmentService.CancelIssueFulfillmentsForLoan | src/lms/loan/application/fulfillment_service.py:172-191 | The loop cancels every delivery of the loan that is not terminal, leaves all others, and reports whether there was one |
| Queries.CatalogService.SearchLendable | src/lms/catalog/application/service.py:101-146 | Every hit is a different published title together with all of its lendable copies, each once, and at least one |
| Queries.CatalogService.Group | src/lms/catalog/application/service.py:136-140 | The grouping loop puts each copy into the list of its title exactly once |
| Queries.CatalogService.GetHoldingByBarcode | src/lms/catalog/application/service.py:207-211 | The copy with this barcode, or not found exactly when there is none |
| Queries.ReferenceService.ResolvePatronLookup | src/lms/reference/application/service.py:215-273 | An id decides alone, else a card or a reference finds the patron who carries it, or nobody exactly when nobody does; several matches by name are reported as distinct existing patrons |
| Queries.ReferenceService.GetPatronByCard | src/lms/reference/application/service.py:168-174 | The patron with this card, or not found exactly when there is none |
| Queries.ReferenceService.GetPatronByExternalRef | src/lms/reference/application/service.py:160-166 | The patron with this reference, or not found exactly when there is none |
| Queries.LoanService.SearchOpenLoanDetails | src/lms/loan/application/service.py:93-121 | Distinct open loans of the patrons given, with patron, copy and title; an empty patron list does not restrict them, and without a title pattern only the limit leaves one out |
| Queries.LoanService.GetOpenLoanByHolding | src/lms/loan/application/service.py:166-175 | An open loan of the copy, or not found exactly when there is none |
| Workflows.SearchAndIssueWorkflow.SearchCatalogLendable | src/lms/api/workflows/search_and_issue.py:76-97 | The collected list is the first `limit` copies of the hits in order; no copy twice, all on the shelf, under their own barcode and title |
| Workflows.SearchAndIssueWorkflow.Collect | src/lms/api/workflows/search_and_issue.py:83-97 | The nested loops with early exit compute that prefix |
| Workflows.FlatIsListed | src/lms/api/workflows/search_and_issue.py:76-97 | Exact hits make a list of different lendable copies |
| Workflows.SearchAndIssueWorkflow.Start | src/lms/api/workflows/search_and_issue.py:99-141 | Resolves the patron by id, card, reference or name, each found exactly when somebody carries it; previews exactly that patron, and lists exact hits |
| Workflows.SearchAndIssueWorkflow.FindLendableCopyByBarcode | src/lms/api/workflows/search_and_issue.py:143-184 | A copy it returns is lendable and carries that barcode and title; it succeeds when the copies with that barcode are lendable |
| Workflows.SearchAndIssueWorkflow.Commit | src/lms/api/workflows/search_and_issue.py:228-298 | Preview, checkout and delivery as one request commit exactly the specified tables, also when the process dies between the two commits; under an unused key a success names the new loan, and its delivery unless it is handed over at the desk, and the loan has the due date and rule set of the patron's type |
| Workflows.SearchAndIssueWorkflow.Deliver | src/lms/api/workflows/search_and_issue.py:279-298 | A new delivery in a second commit, named in the answer, or after a replay the delivery that already exists |
| Workflows.SearchAndIssueWorkflow.CancelIssue | src/lms/api/workflows/search_and_issue.py:211-226 | Cancels the deliveries and closes the loan in one commit, and reports whether a delivery was still open |
| Workflows.OpenLoanNeverReplays | src/lms/api/workflows/search_and_issue.py:211-226 | An open loan is never answered from a stored return |
| Workflows.ReturnBookWorkflow.Start | src/lms/api/workflows/return_book.py:66-88 | The open loan of the scanned copy or the named open loan, with patron, title, due date, overdue flag and the patron's number of open loans as in the tables; refused only when there is no such open loan |
| Workflows.ReturnBookWorkflow.ResolveLoan | src/lms/api/workflows/return_book.py:249-275 | A barcode wins over a loan id; by id exactly an open loan is found |
| Workflows.ReturnBookWorkflow.ResolvePatronIds | src/lms/api/workflows/return_book.py:277-305 | A card singles out the patron who carries it, and is not found exactly when nobody does; else a reference; a query that finds nobody gives no patron |
| Workflows.ReturnBookWorkflow.SearchCandidates | src/lms/api/workflows/return_book.py:90-131 | Different open loans of the patrons found, each described as in the tables; without a title pattern only the limit leaves one out, and a query that finds no patron lists nothing |
| Workflows.ReturnBookWorkflow.CommitDesk | src/lms/api/workflows/return_book.py:133-145 | A return commits exactly the specified tables |
| Workflows.ReturnBookWorkflow.InitiatePickup | src/lms/api/workflows/return_book.py:147-212 | Under an unused key it goes through exactly while the loan is open, and then one requested pick-up row of its copy with the notes of the request was added and nothing else changed; with its own replay branches |
| Workflows.ReturnBookWorkflow.ConfirmPickupReceived | src/lms/api/workflows/return_book.py:214-247 | Forces the pick-up to completed from any status and closes the loan, or answers at once when the loan is closed |
| Administration.CatalogAdministration.PublishCatalog | src/lms/catalog/application/service.py:62-73 | Goes through exactly for an existing title that is not blank; then exactly its shelved circulating copies join the lendable ones |
| Administration.PublishedShelf | src/lms/catalog/application/service.py:62-73 | Publishing makes lendable exactly what was lendable and the title's circulating available copies; no title is renamed |
| Administration.CatalogAdministration.SuppressCatalog | src/lms/catalog/application/service.py:75-80 | Goes through for every existing title, whatever its status; then exactly its copies leave the lendable ones |
| Administration.SuppressedShelf | src/lms/catalog/application/service.py:75-80 | Suppressing leaves lendable exactly the copies of other titles; no title is renamed |
| Administration.CatalogAdministration.AddHolding | src/lms/catalog/application/service.py:163-183 | On success exactly one copy was added, under the title, barcode, accession number and circulation flag given, on the shelf; refused as specified |
| Administration.CatalogAdministration.WithdrawHolding | src/lms/catalog/application/service.py:185-196 | Goes through exactly for a copy that is not on loan, and then that copy is withdrawn |
| Administration.LoanAdministration.UpdateLoanRuleSet | src/lms/loan/application/service.py:54-66 | A given limit is in force at once for exactly the patrons mapped to this rule set, a given period is the rule set's period; fields that are not given stay |
| Administration.UpdatedLimit | src/lms/loan/application/service.py:54-66 | No patron type is mapped differently, the limit in force changes for exactly those patrons, and no other rule set changes |
| Administration.ReferenceAdministration.SetPatronBlock | src/lms/reference/application/service.py:297-312 | Adds exactly the active block row asked for and raises the flag; flags go on following the rows |
| Administration.ReferenceAdministration.ClearPatronBlock | src/lms/reference/application/service.py:314-331 | Lowers the flag exactly when no other active row is left; flags go on following the rows |
| Administration.BlockRoundTrip | src/lms/reference/application/service.py:297-331 | A block that is set and cleared again leaves every patron and the active rows as before, and in between the patron is blocked by exactly that row |
| Invariants.StepEffect | src/lms/loan/application/circulation_orchestrator.py:36-238 | Every command opens one loan, closes one, adds a copy, pulls a copy, or leaves loans and copies alone |
| Invariants.EffectKeepsLoanInv | src/lms/loan/application/circulation_orchestrator.py:113-123 | On loan exactly when there is an open loan, and never two, survives each of these effects |
| History.StepKeepsInv | src/lms/loan/application/circulation_orchestrator.py:36-238 | Every command keeps the whole invariant: loans and copies, deliveries, stored answers, block flags; loans keep their terms and never reopen, deliveries move only along allowed edges, stored answers stay |
| History.AdminKeepsBlockInv | src/lms/reference/application/service.py:297-331 | Every patron, catalogue and rule-set command keeps each blocked flag equal to 'some active block row exists' |
| Runs.ReachableInv | src/lms/loan/application/circulation_orchestrator.py:113-123 | Every serial run of all commands from the empty database satisfies the invariant |
| Runs.RunGrows | src/lms/loan/application/circulation_orchestrator.py:210-236 | Over any run loans are never lost or reopened, deliveries keep what they deliver, stored answers are never overwritten |
| Runs.StatusMoves | src/lms/catalog/infrastructure/adapters/holding_circulation.py:41-58 | A copy's status changes only by lending it, taking it back from loan, or withdrawing it while it is not on loan |
| Runs.PulledStaysPulled | src/lms/catalog/application/service.py:185-196 | A withdrawn, damaged or lost copy is never revived by any run |
| Runs.BarcodesStayUnique | src/lms/catalog/application/service.py:163-183 | Over any serial run a barcode goes on naming one copy |
| Runs.UniqueIndexNeverFires | alembic/versions/002_domain_tables.py:143-149 | In every reachable state only a taken loan id can break a checkout's insert |
| Runs.FailuresBindNothing | src/lms/loan/application/circulation_orchestrator.py:113-136 | A failing checkout or return stores no answer |
| Runs.CheckoutReplays | src/lms/loan/application/circulation_orchestrator.py:44-71 | After a success and any further commands, the same key and payload give the same loan and change nothing; another payload is refused and changes nothing |
| Runs.ReturnReplays | src/lms/loan/application/circulation_orchestrator.py:152-180 | The same for returns by copy, loan or both |
| Runs.CachedAnswerIsUsable | src/lms/loan/application/circulation_orchestrator.py:59-71 | The branches for a lost cached loan and for a foreign status are never taken |
| Deliveries.OpenLoanHasNoReturnRecord | src/lms/loan/application/circulation_orchestrator.py:158-180 | A stored return under a loan's own id names a closed loan, while loan ids and copy ids differ |
| Deliveries.CancelIssueExactly | src/lms/api/workflows/search_and_issue.py:211-226 | Cancelling an open loan goes through exactly when no return is stored under its id and this key; otherwise it is a conflict and nothing changes |
| Deliveries.SharedIdBlocksCancel | src/lms/loan/application/circulation_orchestrator.py:152-180 | With a copy id equal to the loan id such a stored return exists, and cancelling the open loan fails |
| Deliveries.CancelIssueIff | src/lms/api/workflows/search_and_issue.py:211-226 | Cancel succeeds exactly on an open loan; then the loan is closed, the copy available, every delivery terminal with the completed ones as they were, and nothing else moved |
| Deliveries.ConfirmPickupExactly | src/lms/api/workflows/return_book.py:214-247 | The same for confirming the pick-up of an open loan |
| Deliveries.ConfirmPickupIff | src/lms/api/workflows/return_book.py:214-247 | Confirming on an open loan always closes it and completes the pick-up; on a closed loan it changes nothing |
| Deliveries.DeliveryWalks | src/lms/loan/application/fulfillment_service.py:21-29 | Along every run each status change is an edge of the graph, and completed is entered only while the loan is open |
| Deliveries.IssueRankFalls | src/lms/loan/application/fulfillment_service.py:21-29 | A changed delivery status has a strictly smaller rank, so terminal ones absorb |
| Deliveries.NoLateCompletion | src/lms/loan/application/fulfillment_service.py:122-140 | Once its loan is closed, a delivery that is not completed never will be |
| Deliveries.IssueDeliveriesFixed | src/lms/api/workflows/search_and_issue.py:279-296 | After the issue that made a loan, no command ever adds a delivery for it |
| Deliveries.DeliveryLostIffCrash | src/lms/api/workflows/search_and_issue.py:275-296 | A crash between the two commits of an issue loses its delivery for good, although a retry answers with the loan; without the crash there is exactly one for ever |
| LoanLimits.PreviewIffAccepted | src/lms/api/workflows/issue_eligibility_validator.py:25-84 | The preview is empty exactly when a checkout with an unused key in the same state is accepted |
| LoanLimits.ShelvedCopyIsFree | src/lms/loan/application/circulation_orchestrator.py:92-123 | A copy on the shelf has no open loan, so its insert cannot clash |
| LoanLimits.OpenLoansWithinPeak | src/lms/loan/application/circulation_orchestrator.py:100-111 | With rule sets edited at any time, a patron's open loans never exceed the larger of where the run began and the largest limit in force at one of the patron's own checkouts |
| LoanLimits.LimitHoldsFromEmpty | src/lms/loan/application/service.py:54-66 | From the empty database that peak alone is the bound |
| OperationLaws.CheckoutExactly | src/lms/loan/application/circulation_orchestrator.py:73-134 | Under an unused key a checkout goes through exactly when every rule holds, written out on the rows; then one loan is new, with patron, copy, rule set, due date and clock, its copy is on loan, and nothing else changed; otherwise nothing changed |
| OperationLaws.CommitIssueExactly | src/lms/api/workflows/search_and_issue.py:228-298 | The same for an issue, with its delivery as asked for; a crash or a taken delivery id leaves the loan without its delivery and answers with an error |
| OperationLaws.PreviewNamesPatronRules | src/lms/api/workflows/issue_eligibility_validator.py:25-49 | Each rule about the patron is named exactly when it is broken |
| OperationLaws.PreviewNamesCopyRules | src/lms/api/workflows/issue_eligibility_validator.py:60-84 | Each rule about the copy is named exactly when it is broken |
| OperationLaws.ReturnByCopyExactly | src/lms/loan/application/circulation_orchestrator.py:182-236 | Under an unused key a return by copy goes through exactly when the copy is out, and closes the loan that it is out on |
| OperationLaws.ReturnByLoanExactly | src/lms/loan/application/circulation_orchestrator.py:182-236 | A return by loan goes through exactly when the loan exists, and closes it when it is open |
| OperationLaws.TransitionExactly | src/lms/loan/application/fulfillment_service.py:90-158 | Under an unused key a transition goes through exactly for a delivery that has the status already or may move there, with the edges written out; then exactly its status changed, to the one asked for |
| OperationLaws.TransitionReplays | src/lms/loan/application/fulfillment_service.py:97-130 | Once it moved its delivery, repeating it goes through in every later state and moves nothing, and another target under that key is refused |
| OperationLaws.InitiatePickupExactly | src/lms/api/workflows/return_book.py:147-212 | Under an unused key and row id a pick-up request goes through exactly while the loan is open, and adds exactly one requested row for it, of its copy and with its notes |
| OperationLaws.PickupReplays | src/lms/api/workflows/return_book.py:155-190 | Once it went through, repeating it gives the same row in every later state and changes nothing, and other notes under that key are refused |
| OperationLaws.WithdrawExactly | src/lms/catalog/application/service.py:185-196 | A withdrawal goes through exactly for a copy that is not on loan, and then exactly that copy is withdrawn |
| OperationLaws.AddHoldingExactly | src/lms/catalog/application/service.py:163-183 | A copy is added exactly under an existing title with an unused barcode and accession number, as described and on the shelf |
| OperationLaws.AccessionsStayUnique | src/lms/catalog/application/service.py:163-183 | Over any serial run an accession number goes on naming one copy |
| OperationLaws.NamesStayUnique | src/lms/reference/application/service.py:73-142 | Over any serial run a library card and an outside reference go on naming one patron |
| Interleaving.SerialIsCheckout | src/lms/loan/application/circulation_orchestrator.py:73-134 | On loans and copies the serial transaction is the checkout command with an unused key |
| Interleaving.SerialIsReturn | src/lms/loan/application/circulation_orchestrator.py:182-236 | And the serial return is the return command with an unused key |
| Interleaving.EveryInterleavingIsSafe | src/lms/catalog/infrastructure/adapters/holding_circulation.py:17-58 | In every interleaving of any number of checkouts and returns, every committed state lends each copy at most once, exactly when it is marked on loan |
| Interleaving.EveryInterleavingIsSerial | src/lms/loan/application/circulation_orchestrator.py:87-134 | Every committed state equals the committed transactions run one at a time in commit order |
| Interleaving.UniqueIndexStaysSilent | alembic/versions/002_domain_tables.py:143-149 | A checkout that found its copy on the shelf meets no open loan of that copy, committed or pending |
| Interleaving.NextKeepsInv | src/lms/loan/application/circulation_orchestrator.py:182-226 | Each step keeps what every transaction has read true, because it holds the rows that guard it |
| Interleaving.BehaviorLocksInv | src/lms/loan/application/circulation_orchestrator.py:182-206 | At every point each row lock is held by a transaction that may hold it |
| Interleaving.OpposedDeadlock | src/lms/loan/application/circulation_orchestrator.py:182-206 | A return by copy that holds the copy and a return by loan that holds its loan wait for each other and for nobody else |
| Interleaving.OpposedIsReachable | src/lms/loan/application/circulation_orchestrator.py:182-206 | It happens: five steps from one lent copy to such a pair |
| Interleaving.DeadlockIsOpposedPair | src/lms/loan/application/circulation_orchestrator.py:182-206 | Every cycle of waits, over row locks and uncommitted inserts and of any length, consists of exactly one such pair |
| Interleaving.OnlyOpposedReturnsDeadlock | src/lms/loan/application/circulation_orchestrator.py:182-206 | Following the waits from any live transaction leads in at most three hops to one that waits for nobody, or into such a pair; the rest of the system does not matter |
| Interleaving.FreeMoves | src/lms/loan/application/circulation_orchestrator.py:87-134 | Who waits for nobody takes its next step towards commit, unless the rules refuse it |
| Reporting.CountHoldingsByStatus | src/lms/reporting/infrastructure/queries.py:28-40 | Every status is present and counts exactly its copies, also those without a row in the query |
| Reporting.Snapshot | src/lms/reporting/application/dashboard_service.py:40-78 | Refused exactly outside the range rules; each figure counts what it names, the series has exactly the days asked for and ends today, and all figures agree with each other |
| Reporting.ActiveLoansAreOnLoan | src/lms/reporting/infrastructure/queries.py:42-44 | The active-loan count equals the on-loan count in every invariant state |
| Reporting.StatusesPartition | src/lms/reporting/infrastructure/queries.py:28-40 | The status counts add up to the number of copies |
| Reporting.DailyRowsAreDayCounts | src/lms/reporting/infrastructure/queries.py:79-115 | Each row of the range query, grouped by day and joined with the generated days, equals the two single-day counts |
| Reporting.SeriesAddsUp | src/lms/reporting/infrastructure/queries.py:79-115 | The series adds up to the loans issued and returned in its range |
| Reporting.BalanceConserved | src/lms/reporting/infrastructure/queries.py:42-77 | Issues minus returns minus active loans is conserved by every run whose stamps fall in the range |
| Reporting.SeriesExplainsChange | src/lms/reporting/infrastructure/queries.py:79-115 | Over such a run the series grows by exactly the change in active loans |
| RateLimiter.RateLimitMiddleware.Allow | src/lms/shared/http/security_middleware.py:102-111 | Rewrites only this key's list, to the entries inside the window and the new one when it is admitted |
| RateLimiter.RateLimitMiddleware.MatchRule | src/lms/shared/http/security_middleware.py:94-100 | A matching rule with the longest prefix, the first of them on a tie |
| RateLimiter.ServeAll | src/lms/shared/http/security_middleware.py:102-111 | Over a whole run of requests of any keys, stored lists and answers are those of each key's own history |
| RateLimiter.AdmittedPerWindow | src/lms/shared/http/security_middleware.py:102-111 | No half-open window of the rule's length ever holds more than the limit of admitted requests, and the stored list never exceeds it |
| RateLimiter.RefusedIffWindowFull | src/lms/shared/http/security_middleware.py:102-111 | A request is refused exactly when that many were really admitted in the window that ends now |
| Pseudonyms.ParseUndoesDecimal | src/lms/agent/masking.py:58-61 | Printing a label's number in decimal loses nothing |
| Pseudonyms.LabelledStaysNumbered | src/lms/agent/masking.py:58-76 | Asking for a label keeps the map a bijection onto PREFIX_1 .. PREFIX_n |
| Pseudonyms.LabelsAreNumbered | src/lms/agent/masking.py:58-76 | So it is after every history |
| Pseudonyms.LabelsAreStable | src/lms/agent/masking.py:58-76 | A label once given never changes |
| Pseudonyms.Resolve | src/lms/agent/masking.py:78-94 | The scan finds exactly the one id that carries the label |
| Pseudonyms.PseudonymMap.Patron | src/lms/agent/masking.py:58-61 | One map gains exactly this label and keeps all others |
| Text.LabelIsUpper | src/lms/agent/tools.py:769-770 | Upper-casing a label leaves it alone |
| DeskIssueTools.FilteredCopies | src/lms/agent/tools.py:739-743 | Of different candidates at most one has a given id |
| DeskIssueTools.FilteredPatrons | src/lms/agent/tools.py:768-770 | Of differently labelled candidates at most one has a given label |
| DeskReturnTools.FilteredLoans | src/lms/agent/tools.py:1174-1178 | Of different candidate loans at most one has a given id |
| DeskIssueTools.IssueTools.SearchPatrons | src/lms/agent/tools.py:96-149 | Lists the found patrons by label; several become candidates, and only then |
| DeskIssueTools.IssueTools.ResolvePatron | src/lms/agent/tools.py:151-225 | Finds the patron by id, card or reference; when it sets the patron slots it is ok exactly when that patron may borrow, and otherwise it is not ok |
| DeskIssueTools.IssueTools.SearchCatalog | src/lms/agent/tools.py:227-267 | A single hit is taken at once, several become candidates, none leaves the copy slots |
| DeskIssueTools.IssueTools.FilterCatalogCandidates | src/lms/agent/tools.py:730-749 | Keeps exactly the candidates chosen by pseudonym, else barcode, else title; by pseudonym at most one |
| DeskIssueTools.IssueTools.SelectCatalogCopy | src/lms/agent/tools.py:269-323 | Takes a copy exactly when one candidate is chosen, and that one; by pseudonym there is at most one; without candidates a success has the barcode searched for |
| DeskIssueTools.IssueTools.Narrow | src/lms/agent/tools.py:293-313 | No match leaves the list, several shorten it to the matches, one fills the copy slots |
| DeskIssueTools.IssueTools.FilterPatronCandidates | src/lms/agent/tools.py:759-786 | Keeps exactly the chosen candidates; by pseudonym at most one |
| DeskIssueTools.IssueTools.SelectPatron | src/lms/agent/tools.py:325-392 | Exactly one chosen candidate fills the slots with the patron behind its label, and is ok exactly when that patron may borrow; otherwise no patron changes |
| DeskIssueTools.IssueTools.Candidates | src/lms/agent/tools.py:427-444 | Every label resolves back to the copy it was given to: the branches for an unresolved id are dead |
| DeskIssueTools.IssueTools.SearchLendable | src/lms/agent/tools.py:394-456 | For a known patron one lendable copy is taken, several become candidates |
| DeskIssueTools.IssueTools.SelectBarcode | src/lms/agent/tools.py:458-491 | On success the slots name the lendable copy with the scanned barcode and its title |
| DeskIssueTools.IssueTools.ValidateIssue | src/lms/agent/tools.py:493-504 | Changes nothing; ok exactly when patron and copy are set and the preview has no objection |
| DeskIssueTools.IssueTools.CommitIssue | src/lms/agent/tools.py:506-539 | Commits exactly the issue of the pair in the slots under the card's key |
| DeskIssueTools.IssueTools.GetFulfillmentStatus | src/lms/agent/tools.py:541-557 | Finds the loan's delivery when the slots do not name one; ok exactly when one is known |
| DeskIssueTools.IssueTools.TransitionFulfillment | src/lms/agent/tools.py:559-579 | Commits exactly the transition of the delivery in the slots |
| DeskIssueTools.IssueTools.CancelIssue | src/lms/agent/tools.py:581-602 | Commits exactly the cancellation and forgets loan and delivery; on an error the loan stays |
| DeskReturnTools.ReturnTools.SearchReturnLoans | src/lms/agent/tools.py:800-848 | One open loan fills the slots, several become candidates, none leaves them |
| DeskReturnTools.ReturnTools.ListPatronLoansAtDesk | src/lms/agent/tools.py:850-951 | Selects a single loan only for a return; otherwise drops the selection; an error leaves the slots |
| DeskReturnTools.ReturnTools.FilterCandidates | src/lms/agent/tools.py:1166-1185 | Keeps exactly the chosen loans; by pseudonym at most one |
| DeskReturnTools.ReturnTools.SelectReturnLoan | src/lms/agent/tools.py:953-991 | The candidate is one of the list and is the chosen one |
| DeskReturnTools.ReturnTools.LookupReturn | src/lms/agent/tools.py:1003-1048 | The slots describe the open loan of the scanned copy; otherwise they are untouched |
| DeskReturnTools.ReturnTools.RestoreSelection | src/lms/agent/tools.py:1200-1210 | Restoring a snapshot gives back exactly what was saved |
| DeskReturnTools.ReturnTools.ClearReturnState | src/lms/agent/tools.py:1212-1224 | Loan, copy, patron, due date, candidates and delivery are all gone |
| DeskReturnTools.ReturnTools.CommitDeskReturn | src/lms/agent/tools.py:1050-1077 | Commits exactly the return, by copy when the slots name one; a refusal restores the selection |
| DeskReturnTools.ReturnTools.InitiateReturnPickup | src/lms/agent/tools.py:1079-1109 | Commits exactly the pick-up request; a refusal restores the selection |
| AgentSession.ShownCopyIsTheLoans | src/lms/agent/coordinator.py:1338-1362 | A cancel or pick-up card shows the barcode of the loan it acts on exactly when the copy in the slots is that loan's copy |
| AgentSession.ShownCopyMayDiffer | src/lms/agent/coordinator.py:441-446 | They can differ: with a second copy selected while the loan is still set, the card shows the second and cancelling takes back the first |
| AgentSession.StepExtends | src/lms/loan/application/circulation_orchestrator.py:36-238 | No command removes a patron, copy, loan or delivery, or changes a barcode or a loan's terms |
| AgentSession.AgentIssueSession.ValidExtends | src/lms/agent/session.py:30-84 | So a well-formed session stays well formed whatever other requests commit |
| DeskCoordinator.IssueAgentCoordinator.RunTool | src/lms/agent/coordinator.py:1570-1593 | Counts every call, refuses restricted tools and calls over the budget |
| DeskCoordinator.IssueAgentCoordinator.TryResolvePatronQuery | src/lms/agent/coordinator.py:389-432 | True only with a patron in the slots who may borrow |
| DeskCoordinator.IssueAgentCoordinator.HandleDeclineContinue | src/lms/agent/coordinator.py:537-572 | Leaves exactly one guided conversation, desk before browsing before lookup before issue |
| DeskCoordinator.IssueAgentCoordinator.FinishDeskListPresent | src/lms/agent/coordinator.py:767-786 | What the desk waits for after a list of loans |
| DeskCoordinator.IssueAgentCoordinator.HandleDeskSessionDone | src/lms/agent/coordinator.py:914-930 | Ends the desk visit; due date and patron stay |
| DeskCoordinator.IssueAgentCoordinator.RequestCommitApproval | src/lms/agent/coordinator.py:1304-1336 | With patron and copy a card with a new key shows exactly the slots; otherwise none is put up |
| DeskCoordinator.IssueAgentCoordinator.RequestCancelApproval | src/lms/agent/coordinator.py:1338-1362 | A card exactly when a loan is set |
| DeskCoordinator.IssueAgentCoordinator.RequestFulfillmentApproval | src/lms/agent/coordinator.py:1364-1394 | A card only with a known delivery; card and slots agree on the target |
| DeskCoordinator.IssueAgentCoordinator.RequestReturnCommitApproval | src/lms/agent/coordinator.py:1396-1420 | A card exactly when a loan is set |
| DeskCoordinator.IssueAgentCoordinator.RequestReturnPickupApproval | src/lms/agent/coordinator.py:1422-1453 | A card exactly when a loan is set; it carries the notes that will be used |
| DeskCoordinator.IssueAgentCoordinator.HandleSelectReturnLoan | src/lms/agent/coordinator.py:1188-1215 | The card carries an existing loan; the slots' loan does not change yet |
| DeskCoordinator.IssueAgentCoordinator.ValidateThenRequest | src/lms/agent/coordinator.py:1145-1157 | A card is put up only when this very pair passed the preview in the same turn |
| DeskCoordinator.IssueAgentCoordinator.HandleRequestCommit | src/lms/agent/coordinator.py:1269-1302 | The same through the longer path with patron and title lookups |
| DeskCoordinator.IssueAgentCoordinator.ApplyIssueTalk | src/lms/agent/coordinator.py:217-334 | What each intent of the issue conversation leaves alone and what it sets: a search for a copy never touches patron or loan, a search for a patron never touches copy or loan, and each start and each end sets its own flags |
| DeskCoordinator.IssueAgentCoordinator.ApplyDeskTalk | src/lms/agent/coordinator.py:280-355 | The same for the desk conversation: what a visit starts with and ends with, and that a scan describes the open loan of that copy or changes nothing |
| DeskCoordinator.IssueAgentCoordinator.ApplyLoanRequest | src/lms/agent/coordinator.py:340-361 | Cancelling, returning and picking up: with a loan in the slots each puts up its own kind of card with the details shown, without one none |
| DeskCoordinator.IssueAgentCoordinator.Dispatch | src/lms/agent/coordinator.py:217-367 | Talk puts up no card; a request puts up only a card that answers it |
| DeskCoordinator.IssueAgentCoordinator.ApplyIntent | src/lms/agent/coordinator.py:217-367 | For every intent, with every exit: a card that is put up answers its own request and shows what the slots hold; a request about the loan puts one up exactly when a loan is in the slots; slots stay well formed, and approvals never come as messages |
| DeskCoordinator.IssueAgentCoordinator.HandleMessage | src/lms/agent/coordinator.py:91-168 | A message cannot write to the database; while a card is up slots and card are frozen; a card it puts up is of the kind its intent asks for, about a loan exactly when one is in the slots, a transition exactly for a known delivery and to the status asked for, else in transit, and an issue only for a pair previewed in this turn |
| DeskCoordinator.IssueAgentCoordinator.ExecuteCommitReturn | src/lms/agent/coordinator.py:1530-1555 | On an error the card has lost its loan if and only if the return went through; the budget refuses exactly without a call left, or at a desk visit without a second one; any other error is the database's |
| DeskCoordinator.IssueAgentCoordinator.WriteReturn | src/lms/agent/coordinator.py:1535-1543 | Over the budget or without the database nothing happens; otherwise the reply is ok exactly when the return goes through |
| DeskCoordinator.IssueAgentCoordinator.ExecutePending | src/lms/agent/coordinator.py:1474-1568 | Runs the one command of the card, or nothing; within the budget and with the database it does to the rows what a card of this kind is for; lacks a slot exactly when the card is not executable; on an error the card still fits |
| DeskCoordinator.IssueAgentCoordinator.Resume | src/lms/agent/coordinator.py:170-215 | Tables change only here, only when approved; then an issue card lends its pair, a transition card sets the status it shows, a cancel card closes the loan in the slots and ends its deliveries, a return card closes the loan, a pick-up card adds a row with its notes, each exactly when the rules allow it; a selection fills the slots with the loan shown; a denial changes nothing; over the budget every approval is refused; on an error the card stays up with its slots, and can be executed no more exactly when it is a return that went through |
| DeskCards.CommandDoes | src/lms/agent/coordinator.py:1474-1568 | The command of a card, given as a value, does to the rows what a card of this kind is for: lends, moves, cancels, takes back or schedules, exactly when the rules allow it |
| DeskRuns.OneLoanPerKey | src/lms/loan/application/circulation_orchestrator.py:44-71 | In every serial run at most one lending with a given copy and key opens a loan |
| DeskRuns.RunDesk | src/lms/agent/coordinator.py:91-215 | The services go through any events from moment to moment: a message runs nothing and puts up only the card that its intent asks for, an answer runs the card's own command or nothing, another request runs its command, and each leaves tables, card, slots and reply as TurnOk says; the session is well formed after every event |
| DeskRuns.TakeTurn | src/lms/agent/coordinator.py:91-215 | One event of any kind is one such turn and keeps the invariant of the tables |
| DeskRuns.TakeAnswer | src/lms/agent/coordinator.py:170-215 | An answer runs exactly the card's own command, and only when the operator approves a card within the budget while the database can be reached |
| DeskRuns.RunIsSerial | src/lms/agent/coordinator.py:91-215 | Every moment of every run is reached by the serial run of the commands so far |
| DeskRuns.TalkNeverWrites | src/lms/agent/coordinator.py:91-168 | Over any messages, with any intents, and any denials no table changes |
| DeskRuns.OnlyApprovalsWrite | src/lms/agent/coordinator.py:187-215 | The desk writes only when its operator approves a card that is up, and then the command of that card |
| DeskRuns.CardStays | src/lms/agent/coordinator.py:98-108 | A card under an old key is the old card, and the slots that it is about are as they were: keys are drawn once and slots are frozen while the card is up |
| DeskRuns.CardMakesOneLoan | src/lms/agent/coordinator.py:1484-1501 | However often a card is answered, with any other commands in between, at most one of the lendings under its key opens a loan |
| DeskRuns.CardOrigin | src/lms/agent/coordinator.py:1304-1336 | Every card was put up by one message whose intent asked for it, and shows the slots of that moment; an issue card's pair had just passed the preview |
| DeskRuns.LoanIsAsShown | src/lms/agent/coordinator.py:1304-1336 | The loan an approved card makes is for the patron, copy and mode that the card showed when a message put it up, and is due the loan period of the patron's rule set after the approval; that very pair passed the preview then, the copy still has the barcode shown, and its delivery has the mode and notes of that moment |
| DeskRuns.ActionIsAsShown | src/lms/agent/coordinator.py:1474-1568 | In every run an approved card, of whatever kind, does to the rows what it showed when a message put it up: the status or notes on the card, and the loan or delivery that was in the slots then |
| DeskRuns.CancelClosesLoan | src/lms/agent/coordinator.py:1513-1521 | An approved cancel card on an open loan, under ids that differ from copy ids, leaves that loan closed, its copy on the shelf and every delivery of it ended |
| DeskRuns.CalmRunLacksNothing | src/lms/agent/coordinator.py:1474-1568 | With a budget of two calls or more, and as long as no earlier answer failed with an error of the database, no answer lacks a slot |
| DeskRuns.LackHasCause | src/lms/agent/coordinator.py:1530-1555 | A card that lacks its loan had an earlier answer that took the loan back and was an error all the same |
| DeskRuns.LostSlotIsLost | src/lms/agent/coordinator.py:1530-1555 | And every such answer leaves its card without the loan |
| DeskRuns.UnluckyRunLosesSlot | src/lms/agent/coordinator.py:1530-1555 | A run that loses the slot, with budget two: an approval without the database, one that returns the copy and has no call left for the list, a message, an approval that lacks the loan |
| DeskRuns.LoseSlot | src/lms/agent/coordinator.py:1530-1555 | The services take a desk through that run |

## Left out

- Queries.CatalogService.SearchLendable: which titles match the text, their order and the row limit belong to the database; any distinct published titles within the limit may match.
- Queries.ReferenceService.ResolvePatronLookup: how a query text is split into an id, a card, a reference or a name is arbitrary, and so are the rows that match a name.
- Queries.LoanService.SearchOpenLoanDetails: the order by checkout time and the title pattern are arbitrary.
- Workflows.ReturnBookWorkflow.SearchCandidates: which patrons a name finds, the order of the rows and what a title pattern matches are arbitrary.
- AgentSession.ShownCopyMayDiffer: its slots are given as values that are well formed; no conversation that fills them is run, because what a search finds is arbitrary.
- Interleaving.EveryInterleavingIsSerial: the reads that take no lock (patron, blocks, loan count, policy, catalogue) enter as one given outcome, so the loan limit is proved for serial runs only, where it holds.
- Administration.CatalogAdministration.WithdrawHolding: the withdrawal takes no row lock and is one atomic step; a race with a checkout is not modelled.
- DeskIssueTools.IssueTools.SearchPatrons: the result's message text is not modelled, nor is any other wording of the desk.
- DeskCoordinator.IssueAgentCoordinator.ApplyDeskTalk: which patron and which loans a desk visit finds is arbitrary, so for a patron who is named it says only that the session stays well formed.
- DeskCoordinator.IssueAgentCoordinator.HandleMessage: transcripts, tracing and redaction are not modelled; whether the message itself asks to issue (a regular expression) is an input.
- DeskCoordinator.IssueAgentCoordinator.Resume: sessions are given; the in-memory session store and more than one session are not modelled. Other sessions count as other requests with keys of their own.
- Text.LabelIsUpper: upper and lower case are ASCII; the desk's comparisons of names and titles with other letters are not captured.
- The remaining administration (creating and renaming titles, patron types and rule sets, registering and editing patrons, suspending) is modelled as functions in `Circulation.dfy` and takes part in all runs, but not as step-by-step methods; other requests apply these functions in one commit.
- Idempotency records never expire, and payloads are compared directly instead of by hash.
- Stale rows in the object-relational session cache: a locked read returns the committed row, and workflow requests are atomic.
- Delivery destinations other than notes, class sections, accession lists, staff search and the wizard's back step: they touch no state that the laws speak of.
- Overdue lists, report files and date formatting; the library's time zone is a given function from instants to days.
- HTTP routing, authentication, settings, seed data, the language-model gateway with its guardrails and spending log, the removal of personal data from texts, and the web interface.
