/**
 The coordinator of the agent desk: what a message may do, how cards are put up, and how an approved card is executed.
 Message handlers have no database in their frame, so no message can write; the intent is arbitrary.
 */
module DeskCoordinator {
  import opened Domain
  import opened Circulation
  import opened Invariants
  import opened Services
  import opened Queries
  import opened Workflows
  import opened Pseudonyms
  import opened Text
  import opened AgentSession
  import opened DeskIssueTools
  import opened DeskReturnTools
  import opened DeskCards

  // ---- tools by name ----

  datatype Tool =
    | SearchPatronsTool | ResolvePatronTool | SearchLendableTool | SearchCatalogTool | SelectCatalogCopyTool
    | SelectPatronTool | SelectBarcodeTool | ValidateIssueTool | GetFulfillmentStatusTool | LookupReturnTool
    | SearchReturnLoansTool | ListPatronLoansTool | SelectReturnLoanTool
    | CommitIssueTool | TransitionTool | CancelIssueTool | CommitDeskReturnTool | InitiatePickupTool
    | ApplySelectionTool
    | DirectCheckoutTool | DirectDbTool | AdminApiTool | RemoteMcpTool

  predicate Restricted(tool: Tool) {
    tool.DirectCheckoutTool? || tool.DirectDbTool? || tool.AdminApiTool? || tool.RemoteMcpTool?
  }

  // ---- intents ----

  datatype Action =
    | Chat | SearchPatron | SearchCatalog | SelectCatalogCopy | SelectBarcode | SetFulfillment | IssueToPatron
    | StartIssueToPatron | ProvidePatronForIssue | ProvideBookCriteria | StartReturn | StartPatronDesk
    | ProvidePatronForDesk | DeskStartReturn | DeskStartIssue | DeskStartCatalog | DeskSessionDone | StartCatalogSearch
    | ProvideCatalogCriteria | StartPatronLookup | ProvidePatronLookup | SelectPatron | DeclineContinue | RequestCommit
    | RequestCancelIssue | RequestTransition | LookupReturn | SearchReturn | SelectReturnLoan | RequestCommitReturn
    | RequestReturnPickup | Approve | Deny

  /** What the parser makes of a message; `explicitIssue` says whether the message itself asks to issue. */
  datatype ParsedIntent = ParsedIntent(
    action: Action, patronQuery: Option<string>, card: Option<string>, reference: Option<string>,
    catalogQuery: Option<string>, barcode: Option<string>, copyPseudonym: Option<string>,
    patronPseudonym: Option<string>,
    loanPseudonym: Option<string>, mode: Option<Mode>, notes: Option<string>, status: Option<FulfillmentStatus>,
    message: string, explicitIssue: bool)

  // ---- requests and their cards ----

  /** The mode and the notes in the slots are those that the message gives. */
  predicate AsAsked(intent: ParsedIntent, terms: CardTerms) {
    && (intent.mode.Some? ==> terms.mode == intent.mode.value)
    && (Given(intent.notes) ==> terms.notes == intent.notes)
  }

  predicate AsksAboutLoan(x: Action) {
    x.RequestCancelIssue? || x.RequestCommitReturn? || x.RequestReturnPickup?
  }

  /** The card that is up after a message: which request it answers, and that it shows what the slots hold. */
  predicate Answers(intent: ParsedIntent, card: PendingApproval, g: Grip) {
    && AsAsked(intent, g.terms)
    && match card.kind
       case CommitIssueAction =>
         && (intent.action.RequestCommit? || (intent.action.IssueToPatron? && intent.explicitIssue))
         && Names(card.details, g.terms) && card.details.mode == Some(g.terms.mode)
       case TransitionAction =>
         && intent.action.RequestTransition? && g.fulfillmentId.Some?
         && card.details.target == Some(if intent.status.Some? then intent.status.value else InTransit)
         && g.target == card.details.target.value
       case CancelIssueAction =>
         intent.action.RequestCancelIssue? && g.loanId.Some? && Names(card.details, g.terms)
       case CommitReturnAction =>
         intent.action.RequestCommitReturn? && g.loanId.Some? && Names(card.details, g.terms)
       case SelectReturnAction => intent.action.SelectReturnLoan? && card.details.candidate.Some?
       case PickupAction =>
         && intent.action.RequestReturnPickup? && g.loanId.Some? && Names(card.details, g.terms)
         && card.details.notes == g.terms.notes
  }

  /** Proofs mention this to look inside Answered and TalkDone; all others treat them as one fact. */
  ghost predicate Heard(intent: ParsedIntent) {
    true
  }

  function TextOr(x: Option<string>, otherwise: string): string {
    if Given(x) then x.value else otherwise
  }

  class IssueAgentCoordinator {
    const db: Session
    const workflow: SearchAndIssueWorkflow
    const returnWorkflow: ReturnBookWorkflow
    const fulfillment: FulfillmentService
    const enabled: bool
    const maxToolCalls: nat
    /** Every card draws a new key from here. */
    var nextKey: nat

    constructor (s: Session, w: SearchAndIssueWorkflow, rw: ReturnBookWorkflow, f: FulfillmentService, on: bool,
                 budget: nat)
      requires w.session == s && w.Wired() && rw.session == s && rw.Wired() && f.session == s
      ensures db == s && enabled == on && maxToolCalls == budget && nextKey == 0 && Wired()
    {
      db, workflow, returnWorkflow, fulfillment, enabled, maxToolCalls, nextKey := s, w, rw, f, on, budget, 0;
    }

    ghost predicate Wired() {
      && workflow.session == db && workflow.Wired() && returnWorkflow.session == db && returnWorkflow.Wired()
      && fulfillment.session == db
    }

    /** These tools work on this session and this database. */
    ghost predicate Issuing(a: AgentIssueSession, tools: IssueTools) {
      tools.session == db && tools.pseudonyms == a.pseudonyms && tools.Wired()
    }

    ghost predicate Returning(a: AgentIssueSession, returnTools: ReturnTools) {
      returnTools.session == db && returnTools.pseudonyms == a.pseudonyms && returnTools.Wired()
    }

    ghost predicate Kept(a: AgentIssueSession)
      reads db, a.slots, a.pseudonyms
    {
      a.slots.WellFormed(db.work, a.pseudonyms.patrons)
    }

    /** Counts a tool call; a restricted tool and a call over the budget are refused. */
    method RunTool(a: AgentIssueSession, tool: Tool) returns (r: Result<()>)
      modifies a`toolCalls
      ensures if Restricted(tool) then r == Err(Forbidden) && a.toolCalls == old(a.toolCalls)
              else a.toolCalls == old(a.toolCalls) + 1
                   && r == if a.toolCalls > maxToolCalls then Err(RateLimited) else Ok(())
    {
      if Restricted(tool) {
        return Err(Forbidden);
      }
      a.toolCalls := a.toolCalls + 1;
      return if a.toolCalls > maxToolCalls then Err(RateLimited) else Ok(());
    }

    // ---- what a conversation leaves alone ----

    twostate predicate PatronStays(a: AgentIssueSession)
      reads a, a.slots
    {
      && a.slots.patronId == old(a.slots.patronId) && a.slots.patronName == old(a.slots.patronName)
      && a.slots.patronCandidates == old(a.slots.patronCandidates)
    }

    twostate predicate CopyStays(a: AgentIssueSession)
      reads a, a.slots
    {
      && a.slots.holdingId == old(a.slots.holdingId) && a.slots.holdingBarcode == old(a.slots.holdingBarcode)
      && a.slots.catalogTitle == old(a.slots.catalogTitle)
      && a.slots.catalogCandidates == old(a.slots.catalogCandidates)
    }

    twostate predicate LoanStays(a: AgentIssueSession)
      reads a, a.slots
    {
      && a.slots.loanId == old(a.slots.loanId) && a.slots.fulfillmentId == old(a.slots.fulfillmentId)
      && a.slots.dueDate == old(a.slots.dueDate)
    }

    /** Where the desk visit stands. */
    twostate predicate DeskStays(a: AgentIssueSession)
      reads a, a.slots
    {
      && a.slots.guidedReturnActive == old(a.slots.guidedReturnActive)
      && a.slots.deskReturnIntent == old(a.slots.deskReturnIntent)
      && a.slots.awaitingDeskPatron == old(a.slots.awaitingDeskPatron)
      && a.slots.awaitingDeskNextAction == old(a.slots.awaitingDeskNextAction)
      && a.slots.awaitingDeskReturnPick == old(a.slots.awaitingDeskReturnPick)
    }

    // ---- finding the patron ----

    /** Exact lookup, then search, then the single hit by its pseudonym. */
    method TryResolvePatronQuery(a: AgentIssueSession, tools: IssueTools, query: string, clock: Clock)
      returns (r: Result<bool>)
      requires Issuing(a, tools) && Kept(a) && LibraryOk(db.work)
      modifies a`toolCalls, a.slots`patronId, a.slots`patronName, a.slots`patronCandidates, a.pseudonyms`patrons
      ensures Kept(a)
      ensures r == Ok(true) ==> a.slots.patronId.Some? && PatronViolations(db.work, a.slots.patronId.value) == []
    {
      var _ :- RunTool(a, ResolvePatronTool);
      var first :- tools.ResolvePatron(a.slots, None, None, None, Some(query), clock);
      if first.ok {
        return Ok(true);
      }
      if a.slots.patronCandidates != [] {
        return Ok(false);
      }
      var _ :- RunTool(a, SearchPatronsTool);
      var matches :- tools.SearchPatrons(a.slots, 5);
      if a.slots.patronCandidates != [] || |matches.patrons| != 1 {
        return Ok(false);
      }
      r := ResolveByPseudonym(a, tools, matches.patrons[0].pseudonym, clock);
    }

    method ResolveByPseudonym(a: AgentIssueSession, tools: IssueTools, pseudonym: string, clock: Clock)
      returns (r: Result<bool>)
      requires Issuing(a, tools) && Kept(a) && LibraryOk(db.work)
      modifies a`toolCalls, a.slots`patronId, a.slots`patronName, a.slots`patronCandidates, a.pseudonyms`patrons
      ensures Kept(a)
      ensures r == Ok(true) ==> a.slots.patronId.Some? && PatronViolations(db.work, a.slots.patronId.value) == []
    {
      var p := a.pseudonyms.ResolvePatron(pseudonym);
      if p.None? {
        return Ok(false);
      }
      var _ :- RunTool(a, ResolvePatronTool);
      var found :- tools.ResolvePatron(a.slots, p, None, None, None, clock);
      return Ok(found.ok);
    }

    // ---- issue conversation ----

    /** A counted search of the titles; true when it found a copy. */
    method SearchTitles(a: AgentIssueSession, tools: IssueTools, query: string) returns (r: Result<bool>)
      requires Issuing(a, tools) && Kept(a)
      modifies a`toolCalls, a.slots`activeFlow, a.slots`issueSearchCriteria, a.slots`catalogCandidates,
               a.slots`awaitingCatalogCriteria, a.slots`awaitingBookCriteria, a.slots`holdingId,
               a.slots`holdingBarcode, a.slots`catalogTitle, a.pseudonyms`holdings
      ensures Kept(a)
      ensures r == Ok(false) ==> a.slots.holdingId == old(a.slots.holdingId) && a.slots.catalogCandidates == []
    {
      var _ :- RunTool(a, SearchCatalogTool);
      var found :- tools.SearchCatalog(a.slots, query);
      return Ok(found.ok);
    }

    /** Without a patron this searches titles, with one it searches what the patron can be lent. */
    method HandleSearchCatalog(a: AgentIssueSession, tools: IssueTools, intent: ParsedIntent, clock: Clock)
      returns (r: Result<()>)
      requires Issuing(a, tools) && Kept(a) && LibraryOk(db.work)
      modifies a`toolCalls, a.slots, a.pseudonyms
      ensures Kept(a)
      ensures PatronStays(a) && LoanStays(a)
    {
      if a.slots.patronId.None? {
        var _ :- SearchTitles(a, tools, TextOr(intent.catalogQuery, ""));
      } else {
        var _ :- RunTool(a, SearchLendableTool);
        var _ :- tools.SearchLendable(a.slots, TextOr(intent.catalogQuery, ""), clock);
      }
      return Ok(());
    }

    method HandleSelectCatalogCopy(a: AgentIssueSession, tools: IssueTools, intent: ParsedIntent)
      returns (r: Result<()>)
      requires Issuing(a, tools) && Kept(a) && LibraryOk(db.work)
      modifies a`toolCalls, a.slots, a.pseudonyms
      ensures Kept(a)
      ensures PatronStays(a) && LoanStays(a)
    {
      var _ :- RunTool(a, SelectCatalogCopyTool);
      var _, _ :- tools.SelectCatalogCopy(a.slots, intent.barcode, intent.catalogQuery, intent.copyPseudonym);
      return Ok(());
    }

    method HandleSelectBarcode(a: AgentIssueSession, tools: IssueTools, intent: ParsedIntent, clock: Clock)
      returns (r: Result<()>)
      requires Issuing(a, tools) && Kept(a) && LibraryOk(db.work)
      modifies a`toolCalls, a.slots, a.pseudonyms
      ensures Kept(a)
      ensures PatronStays(a) && LoanStays(a)
    {
      if a.slots.patronId.None? {
        var _ :- RunTool(a, SelectCatalogCopyTool);
        var _, _ :- tools.SelectCatalogCopy(a.slots, Some(TextOr(intent.barcode, "")), None, None);
      } else {
        var _ :- RunTool(a, SelectBarcodeTool);
        var _ :- tools.SelectBarcode(a.slots, TextOr(intent.barcode, ""), clock);
      }
      return Ok(());
    }

    method HandleStartIssueToPatron(a: AgentIssueSession, tools: IssueTools, intent: ParsedIntent, clock: Clock)
      returns (r: Result<()>)
      requires Issuing(a, tools) && Kept(a) && LibraryOk(db.work)
      modifies a`toolCalls, a.slots, a.pseudonyms
      ensures Kept(a)
      ensures !Given(intent.patronQuery) ==>
                && r == Ok(()) && a.slots.activeFlow == IssueFlow && a.slots.guidedIssueActive && a.slots.awaitingPatron
                && !a.slots.awaitingBookCriteria && a.slots.holdingId.None? && a.slots.catalogCandidates == []
      ensures a.slots.holdingId.None? && a.slots.catalogCandidates == [] && LoanStays(a)
    {
      a.slots.BeginIssue();
      a.slots.ForgetCopies(db.work, a.pseudonyms.patrons);
      if !Given(intent.patronQuery) {
        a.slots.AwaitPatronThenBook(true);
        return Ok(());
      }
      a.slots.AwaitPatronThenBook(false);
      var found :- TryResolvePatronQuery(a, tools, intent.patronQuery.value, clock);
      if !found && a.slots.patronCandidates == [] {
        a.slots.StopIssue();
      }
      return Ok(());
    }

    /** Resolves the patron by card, by reference, or by free text; false when none of them is given or found. */
    method ResolveGivenPatron(a: AgentIssueSession, tools: IssueTools, intent: ParsedIntent, clock: Clock)
      returns (r: Result<bool>)
      requires Issuing(a, tools) && Kept(a) && LibraryOk(db.work)
      modifies a`toolCalls, a.slots, a.pseudonyms
      ensures Kept(a)
      ensures r == Ok(true) ==> a.slots.patronId.Some?
      ensures CopyStays(a) && LoanStays(a)
    {
      if Given(intent.card) {
        var _ :- RunTool(a, ResolvePatronTool);
        var found :- tools.ResolvePatron(a.slots, None, intent.card, None, None, clock);
        return Ok(found.ok);
      }
      if Given(intent.reference) {
        var _ :- RunTool(a, ResolvePatronTool);
        var found :- tools.ResolvePatron(a.slots, None, None, intent.reference, None, clock);
        return Ok(found.ok);
      }
      if Given(intent.patronQuery) {
        r := TryResolvePatronQuery(a, tools, intent.patronQuery.value, clock);
        return;
      }
      return Ok(false);
    }

    method HandleProvidePatronForIssue(a: AgentIssueSession, tools: IssueTools, intent: ParsedIntent, clock: Clock)
      returns (r: Result<()>)
      requires Issuing(a, tools) && Kept(a) && LibraryOk(db.work)
      modifies a`toolCalls, a.slots, a.pseudonyms
      ensures Kept(a)
      ensures CopyStays(a) && LoanStays(a)
    {
      var found :- ResolveGivenPatron(a, tools, intent, clock);
      if found {
        a.slots.AwaitPatronThenBook(false);
      }
      return Ok(());
    }

    method HandleProvideBookCriteria(a: AgentIssueSession, tools: IssueTools, intent: ParsedIntent)
      returns (r: Result<()>)
      requires Issuing(a, tools) && Kept(a) && LibraryOk(db.work)
      modifies a`toolCalls, a.slots, a.pseudonyms
      ensures Kept(a)
      ensures PatronStays(a) && LoanStays(a)
    {
      var criteria := Strip(TextOr(intent.catalogQuery, intent.message));
      if criteria == "" {
        return Ok(());
      }
      var found :- SearchTitles(a, tools, criteria);
      if !found {
        a.slots.AwaitBook(true);
      }
      return Ok(());
    }

    ghost predicate AtNoDesk(slots: IssueSlots)
      reads slots
    {
      && !slots.guidedReturnActive && !slots.deskReturnIntent && !slots.awaitingDeskPatron
      && !slots.awaitingDeskNextAction && !slots.awaitingDeskReturnPick
    }

    /** The innermost guided conversation is over; patron and loan stay. */
    twostate predicate Declined(a: AgentIssueSession)
      reads a, a.slots
    {
      && a.slots.loanId == old(a.slots.loanId) && a.slots.patronId == old(a.slots.patronId)
      && if old(a.slots.guidedReturnActive) || old(a.slots.awaitingDeskPatron)
         then AtNoDesk(a.slots) && a.slots.returnCandidates == [] && a.slots.holdingId == old(a.slots.holdingId)
         else if old(a.slots.guidedCatalogActive) || old(a.slots.awaitingCatalogCriteria)
         then !a.slots.guidedCatalogActive && !a.slots.awaitingCatalogCriteria && a.slots.issueSearchCriteria.None?
              && a.slots.holdingId.None? && a.slots.catalogCandidates == []
         else if old(a.slots.guidedPatronLookupActive) || old(a.slots.awaitingPatronLookup)
         then !a.slots.guidedPatronLookupActive && !a.slots.awaitingPatronLookup && a.slots.patronCandidates == []
              && a.slots.holdingId == old(a.slots.holdingId)
         else !a.slots.guidedIssueActive && !a.slots.awaitingPatron && !a.slots.awaitingBookCriteria
              && a.slots.issueSearchCriteria.None? && a.slots.holdingId.None? && a.slots.catalogCandidates == []
    }

    /** Leaves the innermost guided conversation: the desk, browsing, the lookup, or the issue. */
    method HandleDeclineContinue(a: AgentIssueSession)
      requires Kept(a)
      modifies a.slots
      ensures Kept(a)
      ensures Declined(a)
    {
      if a.slots.guidedReturnActive || a.slots.awaitingDeskPatron {
        a.slots.AwaitAtDesk(false, false, false);
        a.slots.EndDesk();
        a.slots.SetReturnCandidates([], db.work, a.pseudonyms.patrons);
      } else if a.slots.guidedCatalogActive || a.slots.awaitingCatalogCriteria {
        a.slots.EndBrowsing();
        a.slots.ForgetCopies(db.work, a.pseudonyms.patrons);
      } else if a.slots.guidedPatronLookupActive || a.slots.awaitingPatronLookup {
        a.slots.EndPatronLookup();
        a.slots.SetPatronCandidates([], db.work, a.pseudonyms.patrons);
      } else {
        a.slots.EndIssue();
        a.slots.ForgetCriteria();
        a.slots.ForgetCopies(db.work, a.pseudonyms.patrons);
      }
    }

    method HandleStartCatalogSearch(a: AgentIssueSession)
      requires Kept(a)
      modifies a.slots
      ensures Kept(a)
      ensures a.slots.patronId.None? && a.slots.holdingId.None? && a.slots.catalogCandidates == []
      ensures a.slots.guidedCatalogActive && a.slots.awaitingCatalogCriteria && a.slots.issueSearchCriteria.None?
      ensures !a.slots.guidedIssueActive && !a.slots.awaitingPatron && !a.slots.awaitingBookCriteria
      ensures LoanStays(a)
    {
      a.slots.BeginBrowsing();
      a.slots.ClearPatron(db.work, a.pseudonyms.patrons);
      a.slots.ForgetCopies(db.work, a.pseudonyms.patrons);
      a.slots.ForgetCriteria();
      a.slots.EndIssue();
    }

    method HandleProvideCatalogCriteria(a: AgentIssueSession, tools: IssueTools, intent: ParsedIntent)
      returns (r: Result<()>)
      requires Issuing(a, tools) && Kept(a) && LibraryOk(db.work)
      modifies a`toolCalls, a.slots, a.pseudonyms
      ensures Kept(a)
      ensures PatronStays(a) && LoanStays(a)
    {
      var criteria := Strip(TextOr(intent.catalogQuery, intent.message));
      if criteria == "" {
        return Ok(());
      }
      var found :- SearchTitles(a, tools, criteria);
      AfterBrowsing(a, found);
      return Ok(());
    }

    /** Asks again after an empty search; at the desk a search ends the browsing. */
    method AfterBrowsing(a: AgentIssueSession, found: bool)
      requires Kept(a)
      modifies a.slots`awaitingCatalogCriteria, a.slots`guidedCatalogActive, a.slots`awaitingDeskNextAction
      ensures Kept(a)
    {
      if !found {
        a.slots.AwaitCatalog(true);
      } else if a.slots.guidedReturnActive && a.slots.patronId.Some? {
        a.slots.EndBrowsingAtDesk();
      }
    }

    // ---- patron lookup ----

    method HandleStartPatronLookup(a: AgentIssueSession)
      requires Kept(a)
      modifies a.slots
      ensures Kept(a)
      ensures a.slots.patronId.None? && a.slots.patronCandidates == []
      ensures a.slots.guidedPatronLookupActive && a.slots.awaitingPatronLookup
              && a.slots.holdingId == old(a.slots.holdingId)
      ensures CopyStays(a) && LoanStays(a)
    {
      a.slots.BeginPatronLookup();
      a.slots.SetPatronCandidates([], db.work, a.pseudonyms.patrons);
      a.slots.ClearPatron(db.work, a.pseudonyms.patrons);
    }

    method HandleProvidePatronLookup(a: AgentIssueSession, tools: IssueTools, intent: ParsedIntent, clock: Clock)
      returns (r: Result<()>)
      requires Issuing(a, tools) && Kept(a) && LibraryOk(db.work)
      modifies a`toolCalls, a.slots, a.pseudonyms
      ensures Kept(a)
      ensures CopyStays(a) && LoanStays(a)
    {
      if Given(intent.card) || Given(intent.reference) {
        var found :- ResolveGivenPatron(a, tools, intent, clock);
        if found {
          a.slots.EndPatronLookup();
        } else {
          a.slots.AwaitPatronLookup(true);
        }
        return Ok(());
      }
      if !Given(intent.patronQuery) {
        return Ok(());
      }
      var _ :- RunTool(a, ResolvePatronTool);
      var found :- tools.ResolvePatron(a.slots, None, None, None, intent.patronQuery, clock);
      if found.ok {
        a.slots.EndPatronLookup();
        return Ok(());
      }
      r := SearchForLookup(a, tools, clock);
    }

    /** Whether the search finds anybody, and whether the single hit may borrow. */
    method FindOnePatron(a: AgentIssueSession, tools: IssueTools, clock: Clock) returns (r: Result<(bool, bool)>)
      requires Issuing(a, tools) && Kept(a) && LibraryOk(db.work)
      modifies a`toolCalls, a.slots`patronId, a.slots`patronName, a.slots`patronCandidates, a.pseudonyms`patrons
      ensures Kept(a)
      ensures r.Ok? && r.value.1 ==> r.value.0 && a.slots.patronId.Some?
    {
      var _ :- RunTool(a, SearchPatronsTool);
      var matches :- tools.SearchPatrons(a.slots, 5);
      if !matches.ok || |matches.patrons| != 1 {
        return Ok((matches.ok, false));
      }
      var found :- ResolveByPseudonym(a, tools, matches.patrons[0].pseudonym, clock);
      return Ok((true, found));
    }

    method SearchForLookup(a: AgentIssueSession, tools: IssueTools, clock: Clock) returns (r: Result<()>)
      requires Issuing(a, tools) && Kept(a) && LibraryOk(db.work)
      modifies a`toolCalls, a.slots, a.pseudonyms
      ensures Kept(a)
      ensures CopyStays(a) && LoanStays(a)
    {
      var matches :- FindOnePatron(a, tools, clock);
      if matches.0 {
        AfterLookup(a, matches.1);
      } else {
        a.slots.AwaitPatronLookup(true);
      }
      return Ok(());
    }

    /** A found patron ends the lookup; a list of candidates waits for a choice. */
    method AfterLookup(a: AgentIssueSession, found: bool)
      requires Kept(a)
      modifies a.slots`awaitingPatronLookup, a.slots`guidedPatronLookupActive
      ensures Kept(a) && !a.slots.awaitingPatronLookup
    {
      if found {
        a.slots.EndPatronLookup();
      } else {
        a.slots.AwaitPatronLookup(false);
      }
    }

    method HandleSearchPatron(a: AgentIssueSession, tools: IssueTools, intent: ParsedIntent, clock: Clock)
      returns (r: Result<()>)
      requires Issuing(a, tools) && Kept(a) && LibraryOk(db.work)
      modifies a`toolCalls, a.slots, a.pseudonyms
      ensures Kept(a)
      ensures CopyStays(a) && LoanStays(a)
    {
      if Given(intent.card) || Given(intent.reference) {
        var _ :- ResolveGivenPatron(a, tools, intent, clock);
        return Ok(());
      }
      if !Given(intent.patronQuery) {
        return Ok(());
      }
      var _ :- RunTool(a, SearchPatronsTool);
      var matches :- tools.SearchPatrons(a.slots, 5);
      if a.slots.patronCandidates == [] && |matches.patrons| == 1 {
        var _ :- ResolveByPseudonym(a, tools, matches.patrons[0].pseudonym, clock);
      }
      return Ok(());
    }

    method HandleSelectPatron(a: AgentIssueSession, tools: IssueTools, intent: ParsedIntent, clock: Clock)
      returns (r: Result<()>)
      requires Issuing(a, tools) && Kept(a) && LibraryOk(db.work)
      modifies a`toolCalls, a.slots, a.pseudonyms
      ensures Kept(a)
      ensures CopyStays(a) && LoanStays(a)
    {
      var _ :- RunTool(a, SelectPatronTool);
      var _, _ :- tools.SelectPatron(a.slots, intent.patronQuery, intent.card, intent.reference, intent.patronPseudonym,
                                     clock);
      return Ok(());
    }

    // ---- the patron desk and returns ----

    method FinishDeskListPresent(a: AgentIssueSession, result: ToolResult)
      requires Kept(a)
      modifies a.slots`awaitingDeskPatron, a.slots`awaitingDeskNextAction, a.slots`awaitingDeskReturnPick
      ensures Kept(a)
      ensures !a.slots.awaitingDeskPatron
      ensures a.slots.awaitingDeskReturnPick <==>
                result.ok && result.returnIntent && !result.autoSelected && result.count > 1
      ensures a.slots.awaitingDeskNextAction <==>
                !a.slots.awaitingDeskReturnPick && !(result.ok && result.returnIntent && result.autoSelected)
    {
      if result.ok && result.autoSelected && result.returnIntent {
        a.slots.AwaitAtDesk(false, false, false);
      } else if result.ok && result.returnIntent && result.count > 1 {
        a.slots.AwaitAtDesk(false, false, true);
      } else {
        a.slots.AwaitAtDesk(false, true, false);
      }
    }

    method ListAtDesk(a: AgentIssueSession, returnTools: ReturnTools, card: Option<string>, reference: Option<string>,
                      returnIntent: bool, today: Day) returns (r: Result<ToolResult>)
      requires Returning(a, returnTools) && Kept(a)
      modifies a`toolCalls, a.slots`activeFlow, a.slots`returnCandidates, a.slots`loanId, a.slots`holdingId,
               a.slots`holdingBarcode, a.slots`catalogTitle, a.slots`patronId, a.slots`patronName, a.slots`dueDate,
               a.slots`isOverdue, a.slots`fulfillmentId, a.slots`fulfillmentTarget, a.pseudonyms
      ensures Kept(a) && a.toolCalls == old(a.toolCalls) + 1
      ensures r.Err? ==> a.slots.Core() == old(a.slots.Core())
      ensures r == Err(RateLimited) <==> old(a.toolCalls) >= maxToolCalls
      ensures r.Err? && r.error != RateLimited ==> !IsAppError(r.error)
    {
      var _ :- RunTool(a, ListPatronLoansTool);
      r := returnTools.ListPatronLoansAtDesk(a.slots, card, reference, returnIntent, today);
    }

    /** Lists the loans of the desk's patron and says what the desk waits for next. */
    method ListAndPresent(a: AgentIssueSession, returnTools: ReturnTools, returnIntent: bool, today: Day)
      returns (r: Result<()>)
      requires Returning(a, returnTools) && Kept(a)
      modifies a`toolCalls, a.slots, a.pseudonyms
      ensures Kept(a)
      ensures a.slots.deskReturnIntent == old(a.slots.deskReturnIntent)
    {
      var result :- ListAtDesk(a, returnTools, None, None, returnIntent, today);
      FinishDeskListPresent(a, result);
      return Ok(());
    }

    method PresentBarcodeAtDesk(a: AgentIssueSession, returnTools: ReturnTools, barcode: string, today: Day)
      returns (r: Result<()>)
      requires Returning(a, returnTools) && Kept(a)
      modifies a`toolCalls, a.slots, a.pseudonyms
      ensures Kept(a)
    {
      var _ :- RunTool(a, LookupReturnTool);
      var lookup :- returnTools.LookupReturn(a.slots, barcode, today);
      r := AfterLookupAtDesk(a, returnTools, lookup.ok, today);
    }

    /** For a return the scanned copy is the selection; else it only tells the patron, whose loans are listed. */
    method AfterLookupAtDesk(a: AgentIssueSession, returnTools: ReturnTools, found: bool, today: Day)
      returns (r: Result<()>)
      requires Returning(a, returnTools) && Kept(a)
      modifies a`toolCalls, a.slots, a.pseudonyms
      ensures Kept(a)
    {
      if a.slots.deskReturnIntent {
        a.slots.AwaitAtDesk(false, false, false);
        return Ok(());
      }
      if !found {
        AskDeskPatron(a, true);
        return Ok(());
      }
      a.slots.ForgetSelection(db.work, a.pseudonyms.patrons);
      r := ListAndPresent(a, returnTools, a.slots.deskReturnIntent, today);
    }

    method AskDeskPatron(a: AgentIssueSession, ask: bool)
      requires Kept(a)
      modifies a.slots`awaitingDeskPatron
      ensures Kept(a)
    {
      if ask {
        a.slots.AwaitDeskPatron(true);
      }
    }

    method PresentCardAtDesk(a: AgentIssueSession, returnTools: ReturnTools, card: Option<string>,
                             reference: Option<string>, today: Day)
      returns (r: Result<()>)
      requires Returning(a, returnTools) && Kept(a)
      modifies a`toolCalls, a.slots, a.pseudonyms
      ensures Kept(a)
    {
      var result :- ListAtDesk(a, returnTools, card, reference, a.slots.deskReturnIntent, today);
      if !result.ok {
        a.slots.AwaitDeskPatron(true);
        return Ok(());
      }
      FinishDeskListPresent(a, result);
      return Ok(());
    }

    method PresentPseudonymAtDesk(a: AgentIssueSession, tools: IssueTools, returnTools: ReturnTools, pseudonym: string,
                                  clock: Clock)
      returns (r: Result<()>)
      requires Issuing(a, tools) && Returning(a, returnTools) && Kept(a) && LibraryOk(db.work)
      modifies a`toolCalls, a.slots, a.pseudonyms
      ensures Kept(a)
    {
      var found :- ResolveByPseudonym(a, tools, Upper(pseudonym), clock);
      if !found {
        AskDeskPatron(a, true);
        return Ok(());
      }
      r := ListAndPresent(a, returnTools, a.slots.deskReturnIntent, clock.today);
    }

    method PresentQueryAtDesk(a: AgentIssueSession, tools: IssueTools, returnTools: ReturnTools, query: string,
                              clock: Clock)
      returns (r: Result<()>)
      requires Issuing(a, tools) && Returning(a, returnTools) && Kept(a) && LibraryOk(db.work)
      modifies a`toolCalls, a.slots, a.pseudonyms
      ensures Kept(a)
    {
      var found :- TryResolvePatronQuery(a, tools, query, clock);
      if !found {
        AskDeskPatron(a, a.slots.patronCandidates == []);
        return Ok(());
      }
      r := ListAndPresent(a, returnTools, a.slots.deskReturnIntent, clock.today);
    }

    /** The first of barcode, card or reference, pseudonym and query that is given decides how the patron is found. */
    method PresentPatronAtDesk(a: AgentIssueSession, tools: IssueTools, returnTools: ReturnTools, query: Option<string>,
                               card: Option<string>, reference: Option<string>, pseudonym: Option<string>,
                               barcode: Option<string>, clock: Clock) returns (r: Result<()>)
      requires Issuing(a, tools) && Returning(a, returnTools) && Kept(a) && LibraryOk(db.work)
      modifies a`toolCalls, a.slots, a.pseudonyms
      ensures Kept(a)
    {
      if Given(barcode) {
        r := PresentBarcodeAtDesk(a, returnTools, barcode.value, clock.today);
      } else if Given(card) || Given(reference) {
        r := PresentCardAtDesk(a, returnTools, card, reference, clock.today);
      } else if Given(pseudonym) {
        r := PresentPseudonymAtDesk(a, tools, returnTools, pseudonym.value, clock);
      } else if Given(query) {
        r := PresentQueryAtDesk(a, tools, returnTools, query.value, clock);
      } else {
        a.slots.AwaitDeskPatron(true);
        r := Ok(());
      }
    }

    /** Somebody who says "me" has not given a name yet. */
    predicate NamesPatron(intent: ParsedIntent) {
      Given(intent.patronQuery) && Lower(Strip(intent.patronQuery.value)) !in {"me", "myself"}
    }

    /** The desk waits for a patron, with nothing selected. */
    ghost predicate DeskStarted(slots: IssueSlots, forReturn: bool)
      reads slots
    {
      && slots.activeFlow == ReturnFlow && slots.guidedReturnActive && slots.deskReturnIntent == forReturn
      && slots.awaitingDeskPatron && slots.loanId.None? && slots.holdingId.None? && slots.returnCandidates == []
    }

    /** Starts at the desk with nothing selected; `forReturn` tells a return from a plain visit. */
    method HandleStartDesk(a: AgentIssueSession, tools: IssueTools, returnTools: ReturnTools, intent: ParsedIntent,
                           forReturn: bool,
                           clock: Clock) returns (r: Result<()>)
      requires Issuing(a, tools) && Returning(a, returnTools) && Kept(a) && LibraryOk(db.work)
      modifies a`toolCalls, a.slots, a.pseudonyms
      ensures Kept(a)
      ensures !NamesPatron(intent) ==> r == Ok(()) && DeskStarted(a.slots, forReturn)
    {
      a.slots.BeginDesk(forReturn);
      a.slots.AwaitAtDesk(false, false, false);
      a.slots.SetReturnCandidates([], db.work, a.pseudonyms.patrons);
      a.slots.ForgetSelection(db.work, a.pseudonyms.patrons);
      if !NamesPatron(intent) {
        a.slots.AwaitDeskPatron(true);
        return Ok(());
      }
      if forReturn {
        r := PresentPatronAtDesk(a, tools, returnTools, intent.patronQuery, None, None, None, None, clock);
      } else {
        r := PresentPatronAtDesk(a, tools, returnTools, intent.patronQuery, intent.card, intent.reference,
                                 intent.patronPseudonym, None, clock);
      }
    }

    /** Neither card, reference, barcode nor any text. */
    predicate NamesNobody(intent: ParsedIntent) {
      && !Given(intent.card) && !Given(intent.reference) && !Given(intent.barcode)
      && Strip(TextOr(intent.patronQuery, intent.message)) == ""
    }

    method HandleProvidePatronForDesk(a: AgentIssueSession, tools: IssueTools, returnTools: ReturnTools,
                                      intent: ParsedIntent, clock: Clock)
      returns (r: Result<()>)
      requires Issuing(a, tools) && Returning(a, returnTools) && Kept(a) && LibraryOk(db.work)
      modifies a`toolCalls, a.slots, a.pseudonyms
      ensures Kept(a)
      ensures NamesNobody(intent) ==>
                r == Ok(()) && PatronStays(a) && CopyStays(a) && LoanStays(a) && DeskStays(a)
    {
      if Given(intent.card) {
        r := PresentPatronAtDesk(a, tools, returnTools, None, intent.card, None, None, None, clock);
      } else if Given(intent.reference) {
        r := PresentPatronAtDesk(a, tools, returnTools, None, None, intent.reference, None, None, clock);
      } else if Given(intent.barcode) {
        r := PresentPatronAtDesk(a, tools, returnTools, None, None, None, None, intent.barcode, clock);
      } else {
        var query := Strip(TextOr(intent.patronQuery, intent.message));
        if query == "" {
          return Ok(());
        }
        r := PresentPatronAtDesk(a, tools, returnTools, Some(query), None, None, None, None, clock);
      }
    }

    method HandleDeskStartReturn(a: AgentIssueSession, returnTools: ReturnTools, today: Day) returns (r: Result<()>)
      requires Returning(a, returnTools) && Kept(a)
      modifies a`toolCalls, a.slots, a.pseudonyms
      ensures Kept(a)
      ensures a.slots.deskReturnIntent
      ensures old(a.slots.loanId).Some? && old(a.slots.dueDate).Some? ==>
                PatronStays(a) && CopyStays(a) && LoanStays(a)
    {
      a.slots.WantReturn();
      if a.slots.loanId.Some? && a.slots.dueDate.Some? {
        return Ok(());
      }
      if a.slots.patronId.Some? && |a.slots.returnCandidates| <= 1 {
        r := ListAndPresent(a, returnTools, true, today);
        return;
      }
      if a.slots.returnCandidates != [] {
        a.slots.AwaitNextAction(false);
        a.slots.AwaitReturnPick(true);
        return Ok(());
      }
      a.slots.AskDeskPatron();
      return Ok(());
    }

    method HandleDeskStartIssue(a: AgentIssueSession)
      requires Kept(a)
      modifies a.slots
      ensures Kept(a)
      ensures a.slots.holdingId.None? && a.slots.catalogCandidates == [] && a.slots.patronId == old(a.slots.patronId)
      ensures a.slots.activeFlow == IssueFlow && a.slots.guidedIssueActive && a.slots.awaitingBookCriteria
              && !a.slots.awaitingDeskNextAction
      ensures PatronStays(a) && LoanStays(a)
    {
      a.slots.BeginIssue();
      a.slots.AwaitBook(true);
      a.slots.AwaitNextAction(false);
      a.slots.ForgetCopies(db.work, a.pseudonyms.patrons);
    }

    method HandleDeskStartCatalog(a: AgentIssueSession)
      requires Kept(a)
      modifies a.slots
      ensures Kept(a)
      ensures a.slots.holdingId.None? && a.slots.catalogCandidates == [] && a.slots.patronId == old(a.slots.patronId)
      ensures a.slots.guidedCatalogActive && a.slots.awaitingCatalogCriteria && !a.slots.awaitingDeskNextAction
      ensures PatronStays(a) && LoanStays(a)
    {
      a.slots.BeginBrowsing();
      a.slots.AwaitNextAction(false);
      a.slots.ForgetCopies(db.work, a.pseudonyms.patrons);
    }

    /** The due date stays; patron and catalogue candidates too. */
    method HandleDeskSessionDone(a: AgentIssueSession)
      requires Kept(a)
      modifies a.slots
      ensures Kept(a)
      ensures a.slots.loanId.None? && a.slots.holdingId.None? && a.slots.returnCandidates == [] && AtNoDesk(a.slots)
      ensures a.slots.dueDate == old(a.slots.dueDate) && a.slots.patronId == old(a.slots.patronId)
    {
      a.slots.EndDesk();
      a.slots.AwaitAtDesk(false, false, false);
      a.slots.SetReturnCandidates([], db.work, a.pseudonyms.patrons);
      a.slots.ClearLoan(db.work, a.pseudonyms.patrons);
      a.slots.ClearCopy(db.work, a.pseudonyms.patrons);
    }

    /** The slots describe the open loan of the scanned copy, or are as before. */
    twostate predicate ScannedOrSame(a: AgentIssueSession, barcode: string, today: Day)
      reads db, a, a.slots
    {
      || a.slots.Core() == old(a.slots.Core())
      || (&& a.slots.holdingBarcode == Some(barcode) && a.slots.loanId.Some? && a.slots.loanId.value in db.work.loans
          && var loan := db.work.loans[a.slots.loanId.value];
          && Open(loan) && a.slots.holdingId == Some(loan.holdingId) && a.slots.patronId == Some(loan.patronId)
          && a.slots.dueDate == Some(loan.dueDate) && a.slots.isOverdue == Some(loan.dueDate < today))
    }

    method HandleLookupReturn(a: AgentIssueSession, returnTools: ReturnTools, intent: ParsedIntent, today: Day)
      returns (r: Result<()>)
      requires Returning(a, returnTools) && Kept(a)
      modifies a`toolCalls, a.slots, a.pseudonyms
      ensures Kept(a)
      ensures r.Ok? ==> ScannedOrSame(a, TextOr(intent.barcode, ""), today)
    {
      var _ :- RunTool(a, LookupReturnTool);
      var _ :- returnTools.LookupReturn(a.slots, TextOr(intent.barcode, ""), today);
      return Ok(());
    }

    method FindReturns(a: AgentIssueSession, returnTools: ReturnTools, intent: ParsedIntent, today: Day)
      returns (r: Result<()>)
      requires Returning(a, returnTools) && Kept(a)
      modifies a.slots`activeFlow, a.slots`returnCandidates, a.slots`loanId, a.slots`holdingId,
               a.slots`holdingBarcode, a.slots`catalogTitle, a.slots`patronId, a.slots`patronName, a.slots`dueDate,
               a.slots`isOverdue, a.slots`fulfillmentId, a.slots`fulfillmentTarget, a.pseudonyms
      ensures Kept(a)
    {
      var _ :- returnTools.SearchReturnLoans(a.slots, intent.patronQuery, intent.card, intent.reference,
                                             intent.catalogQuery, today);
      return Ok(());
    }

    method HandleSearchReturn(a: AgentIssueSession, returnTools: ReturnTools, intent: ParsedIntent, today: Day)
      returns (r: Result<()>)
      requires Returning(a, returnTools) && Kept(a)
      modifies a`toolCalls, a.slots`activeFlow, a.slots`returnCandidates, a.slots`loanId, a.slots`holdingId,
               a.slots`holdingBarcode, a.slots`catalogTitle, a.slots`patronId, a.slots`patronName, a.slots`dueDate,
               a.slots`isOverdue, a.slots`fulfillmentId, a.slots`fulfillmentTarget, a.pseudonyms
      ensures Kept(a)
      ensures DeskStays(a) && a.slots.catalogCandidates == old(a.slots.catalogCandidates)
    {
      r := RunTool(a, SearchReturnLoansTool);
      if r.Ok? {
        r := FindReturns(a, returnTools, intent, today);
      }
    }

    // ---- approval cards ----

    /** The preview has no objection to this patron and this copy. */
    ghost predicate Cleared(a: AgentIssueSession)
      reads db, a.slots
    {
      && a.slots.patronId.Some? && a.slots.holdingId.Some?
      && IssueViolations(db.work, a.slots.patronId.value, a.slots.holdingId.value) == []
    }

    /** A card has the slots it needs, and an issue card was previewed. */
    ghost predicate CardFits(a: AgentIssueSession)
      reads db, a, a.slots
    {
      a.pending.Some? ==>
        && a.CardOk(db.work, a.pending.value) && a.Executable()
        && (a.pending.value.kind == CommitIssueAction ==> Cleared(a))
    }

    /** A new card has the next key. */
    ghost predicate Drawn(a: AgentIssueSession, k: nat)
      reads this, a
    {
      if a.pending.Some? then a.pending.value.key == k && nextKey == k + 1 else nextKey == k
    }

    /** A return card is put up without any tool call. */
    ghost predicate ReturnCardIsFirst(a: AgentIssueSession, calls: nat)
      reads a
    {
      a.pending.Some? && a.pending.value.kind == CommitReturnAction ==> a.toolCalls == calls
    }

    method SetPendingApproval(a: AgentIssueSession, kind: ActionKind, details: CardDetails)
      modifies this`nextKey, a`pending
      ensures a.pending == Some(PendingApproval(kind, details, old(nextKey))) && nextKey == old(nextKey) + 1
    {
      a.pending := Some(PendingApproval(kind, details, nextKey));
      nextKey := nextKey + 1;
    }

    function Shown(slots: IssueSlots): CardDetails
      reads slots
    {
      CardDetails(slots.patronName, slots.catalogTitle, slots.holdingBarcode, None, None, None, None)
    }

    method RequestCommitApproval(a: AgentIssueSession)
      requires a.pending.None? && Kept(a) && (a.slots.patronId.Some? && a.slots.holdingId.Some? ==> Cleared(a))
      modifies this`nextKey, a`pending
      ensures CardFits(a) && Drawn(a, old(nextKey))
      ensures if a.slots.patronId.Some? && a.slots.holdingId.Some?
              then a.pending.Some? && a.pending.value.kind == CommitIssueAction else a.pending.None?
    {
      if a.slots.patronId.None? || a.slots.holdingId.None? {
        return;
      }
      SetPendingApproval(a, CommitIssueAction, Shown(a.slots).(mode := Some(a.slots.fulfillmentMode)));
    }

    method RequestCancelApproval(a: AgentIssueSession)
      requires a.pending.None? && Kept(a)
      modifies this`nextKey, a`pending
      ensures CardFits(a) && Drawn(a, old(nextKey)) && ReturnCardIsFirst(a, a.toolCalls)
      ensures a.pending.Some? <==> a.slots.loanId.Some?
      ensures a.pending.Some? ==> a.pending.value.kind == CancelIssueAction && a.pending.value.details == Shown(a.slots)
    {
      if a.slots.loanId.None? {
        return;
      }
      SetPendingApproval(a, CancelIssueAction, Shown(a.slots));
    }

    method PutTransitionCard(a: AgentIssueSession, target: FulfillmentStatus)
      requires a.pending.None? && Kept(a) && a.slots.fulfillmentId.Some?
      modifies this`nextKey, a`pending, a.slots`fulfillmentTarget
      ensures Kept(a) && CardFits(a) && Drawn(a, old(nextKey))
      ensures a.pending.Some? && a.pending.value.kind == TransitionAction
              && a.pending.value.details.target == Some(target)
    {
      SetPendingApproval(a, TransitionAction, NO_DETAILS.(target := Some(target)));
      a.slots.SetTarget(Some(target));
    }

    method RequestFulfillmentApproval(a: AgentIssueSession, tools: IssueTools, target: FulfillmentStatus)
      returns (r: Result<()>)
      requires Issuing(a, tools) && Kept(a) && a.pending.None?
      modifies this`nextKey, a, a.slots`fulfillmentId, a.slots`fulfillmentTarget, a.pseudonyms
      ensures Kept(a) && CardFits(a) && Drawn(a, old(nextKey))
      ensures ReturnCardIsFirst(a, old(a.toolCalls))
      ensures old(a.toolCalls) < maxToolCalls ==> (a.pending.Some? <==> a.slots.fulfillmentId.Some?)
      ensures a.pending.Some? ==> a.slots.fulfillmentTarget == Some(target)
      ensures a.pending.Some? ==>
                a.pending.value.kind == TransitionAction && a.pending.value.details.target == Some(target)
    {
      var _ :- RunTool(a, GetFulfillmentStatusTool);
      var status := tools.GetFulfillmentStatus(a.slots);
      if !status.value.ok {
        return Ok(());
      }
      PutTransitionCard(a, target);
      return Ok(());
    }

    method RequestReturnCommitApproval(a: AgentIssueSession)
      requires a.pending.None? && Kept(a)
      modifies this`nextKey, a`pending
      ensures CardFits(a) && Drawn(a, old(nextKey))
      ensures a.pending.Some? <==> a.slots.loanId.Some?
      ensures a.pending.Some? ==>
                a.pending.value.kind == CommitReturnAction && a.pending.value.details == Shown(a.slots)
    {
      if a.slots.loanId.None? {
        return;
      }
      SetPendingApproval(a, CommitReturnAction, Shown(a.slots));
    }

    method RequestReturnPickupApproval(a: AgentIssueSession, intent: ParsedIntent)
      requires a.pending.None? && Kept(a)
      modifies this`nextKey, a`pending, a.slots`destinationNotes
      ensures a.slots.destinationNotes ==
                if a.slots.loanId.Some? && Given(intent.notes) then intent.notes else old(a.slots.destinationNotes)
      ensures Kept(a) && CardFits(a) && Drawn(a, old(nextKey))
      ensures a.pending.Some? <==> a.slots.loanId.Some?
      ensures a.pending.Some? ==> a.pending.value.kind == PickupAction
                                  && a.pending.value.details == Shown(a.slots).(notes := a.slots.destinationNotes)
    {
      if a.slots.loanId.None? {
        return;
      }
      if Given(intent.notes) {
        a.slots.SetNotes(intent.notes);
      }
      SetPendingApproval(a, PickupAction, Shown(a.slots).(notes := a.slots.destinationNotes));
    }

    method PutSelectionCard(a: AgentIssueSession, candidate: Option<ReturnCandidate>)
      requires a.pending.None? && Kept(a) && candidate.Some? && LoanKnown(db.work, candidate.value)
      modifies this`nextKey, a`pending, a.slots`awaitingDeskReturnPick
      ensures Kept(a) && CardFits(a) && Drawn(a, old(nextKey))
      ensures a.pending.Some? && a.pending.value.kind == SelectReturnAction
    {
      a.slots.AwaitReturnPick(false);
      SetPendingApproval(a, SelectReturnAction, NO_DETAILS.(candidate := candidate));
    }

    /** A selection is confirmed on a card before it fills the slots. */
    method HandleSelectReturnLoan(a: AgentIssueSession, returnTools: ReturnTools, intent: ParsedIntent)
      returns (r: Result<()>)
      requires Returning(a, returnTools) && Kept(a) && a.pending.None?
      modifies this`nextKey, a, a.slots`returnCandidates, a.slots`awaitingDeskReturnPick, a.pseudonyms
      ensures Kept(a) && CardFits(a) && Drawn(a, old(nextKey))
      ensures ReturnCardIsFirst(a, old(a.toolCalls))
      ensures a.pending.Some? ==> a.pending.value.kind == SelectReturnAction
      ensures a.slots.loanId == old(a.slots.loanId)
    {
      var _ :- RunTool(a, SelectReturnLoanTool);
      var selection := returnTools.SelectReturnLoan(a.slots, intent.barcode, intent.catalogQuery, intent.loanPseudonym);
      if !selection.ok {
        return Ok(());
      }
      PutSelectionCard(a, selection.candidate);
      return Ok(());
    }

    /** Previews the pair in the slots; only a clean preview leads to a card, in the same turn. */
    method ValidateThenRequest(a: AgentIssueSession, tools: IssueTools, request: bool, clock: Clock)
      returns (r: Result<()>)
      requires Issuing(a, tools) && Kept(a) && LibraryOk(db.work) && a.pending.None?
      modifies this`nextKey, a
      ensures Kept(a) && CardFits(a) && Drawn(a, old(nextKey))
      ensures ReturnCardIsFirst(a, old(a.toolCalls))
      ensures old(a.toolCalls) < maxToolCalls && request ==> (a.pending.Some? <==> Cleared(a))
      ensures a.pending.Some? ==> request && a.pending.value.kind == CommitIssueAction
    {
      var _ :- RunTool(a, ValidateIssueTool);
      var validation := tools.ValidateIssue(a.slots, clock);
      if validation.ok && request {
        RequestCommitApproval(a);
      }
      return Ok(());
    }

    method HandleIssueToPatron(a: AgentIssueSession, tools: IssueTools, intent: ParsedIntent, clock: Clock)
      returns (r: Result<()>)
      requires Issuing(a, tools) && Kept(a) && LibraryOk(db.work) && a.pending.None?
      modifies this`nextKey, a, a.slots`patronId, a.slots`patronName, a.slots`patronCandidates, a.pseudonyms
      ensures Kept(a) && CardFits(a) && Drawn(a, old(nextKey))
      ensures ReturnCardIsFirst(a, old(a.toolCalls))
      ensures a.pending.Some? ==> a.pending.value.kind == CommitIssueAction && intent.explicitIssue
    {
      if a.slots.holdingId.None? || !Given(intent.patronQuery) {
        return Ok(());
      }
      var found :- TryResolvePatronQuery(a, tools, intent.patronQuery.value, clock);
      if !found {
        return Ok(());
      }
      r := ValidateThenRequest(a, tools, intent.explicitIssue, clock);
    }

    method HandleRequestCommit(a: AgentIssueSession, tools: IssueTools, intent: ParsedIntent, clock: Clock)
      returns (r: Result<()>)
      requires Issuing(a, tools) && Kept(a) && LibraryOk(db.work) && a.pending.None?
      modifies this`nextKey, a, a.slots`patronId, a.slots`patronName, a.slots`patronCandidates, a.slots`holdingId,
               a.slots`holdingBarcode, a.slots`catalogTitle, a.slots`catalogCandidates, a.pseudonyms
      ensures Kept(a) && CardFits(a) && Drawn(a, old(nextKey))
      ensures ReturnCardIsFirst(a, old(a.toolCalls))
      ensures a.pending.Some? ==> a.pending.value.kind == CommitIssueAction
      ensures old(a.toolCalls) < maxToolCalls && !Given(intent.patronQuery) && !Given(intent.catalogQuery) ==>
                (a.pending.Some? <==> Cleared(a))
    {
      if Given(intent.patronQuery) {
        var found :- TryResolvePatronQuery(a, tools, intent.patronQuery.value, clock);
        if !found {
          return Ok(());
        }
      }
      if Given(intent.catalogQuery) {
        var _ :- RunTool(a, SearchLendableTool);
        var _ :- tools.SearchLendable(a.slots, intent.catalogQuery.value, clock);
        if a.slots.catalogCandidates != [] {
          return Ok(());
        }
      }
      r := ValidateThenRequest(a, tools, true, clock);
    }

    // ---- messages ----

    method ApplySlotUpdates(a: AgentIssueSession, intent: ParsedIntent)
      requires Kept(a)
      modifies a.slots`fulfillmentMode, a.slots`destinationNotes
      ensures Kept(a)
      ensures a.slots.fulfillmentMode == if intent.mode.Some? then intent.mode.value else old(a.slots.fulfillmentMode)
      ensures a.slots.destinationNotes == if Given(intent.notes) then intent.notes else old(a.slots.destinationNotes)
    {
      if intent.mode.Some? {
        a.slots.SetMode(intent.mode.value);
      }
      if Given(intent.notes) {
        a.slots.SetNotes(intent.notes);
      }
    }

    predicate IsIssueTalk(x: Action) {
      match x
      case SearchPatron => true
      case SearchCatalog => true
      case SelectCatalogCopy => true
      case SelectBarcode => true
      case StartIssueToPatron => true
      case ProvidePatronForIssue => true
      case ProvideBookCriteria => true
      case StartCatalogSearch => true
      case ProvideCatalogCriteria => true
      case StartPatronLookup => true
      case ProvidePatronLookup => true
      case SelectPatron => true
      case DeclineContinue => true
      case _ => false
    }

    /** What each kind of talk leaves in the slots. */
    twostate predicate Talked(a: AgentIssueSession, intent: ParsedIntent, clock: Clock, new r: Result<()>)
      reads db, a, a.slots
    {
      match intent.action
      case SearchPatron => CopyStays(a) && LoanStays(a)
      case SelectPatron => CopyStays(a) && LoanStays(a)
      case ProvidePatronForIssue => CopyStays(a) && LoanStays(a)
      case ProvidePatronLookup => CopyStays(a) && LoanStays(a)
      case SearchCatalog => PatronStays(a) && LoanStays(a)
      case SelectCatalogCopy => PatronStays(a) && LoanStays(a)
      case SelectBarcode => PatronStays(a) && LoanStays(a)
      case ProvideBookCriteria => PatronStays(a) && LoanStays(a)
      case ProvideCatalogCriteria => PatronStays(a) && LoanStays(a)
      case StartIssueToPatron =>
        && a.slots.holdingId.None? && a.slots.catalogCandidates == [] && LoanStays(a)
        && (!Given(intent.patronQuery) ==> a.slots.guidedIssueActive && a.slots.awaitingPatron)
      case StartCatalogSearch =>
        && a.slots.patronId.None? && a.slots.holdingId.None? && a.slots.catalogCandidates == [] && LoanStays(a)
        && a.slots.guidedCatalogActive && a.slots.awaitingCatalogCriteria
      case StartPatronLookup =>
        && a.slots.patronId.None? && a.slots.patronCandidates == [] && CopyStays(a) && LoanStays(a)
        && a.slots.guidedPatronLookupActive && a.slots.awaitingPatronLookup
      case DeclineContinue => Declined(a)
      case StartReturn => !NamesPatron(intent) ==> DeskStarted(a.slots, true)
      case StartPatronDesk => !NamesPatron(intent) ==> DeskStarted(a.slots, false)
      case DeskStartIssue =>
        && a.slots.holdingId.None? && a.slots.catalogCandidates == [] && PatronStays(a) && LoanStays(a)
        && a.slots.guidedIssueActive && a.slots.awaitingBookCriteria
      case DeskStartCatalog =>
        && a.slots.holdingId.None? && a.slots.catalogCandidates == [] && PatronStays(a) && LoanStays(a)
        && a.slots.guidedCatalogActive && a.slots.awaitingCatalogCriteria
      case DeskSessionDone =>
        && a.slots.loanId.None? && a.slots.holdingId.None? && a.slots.returnCandidates == [] && AtNoDesk(a.slots)
        && a.slots.patronId == old(a.slots.patronId)
      case LookupReturn => r.Ok? ==> ScannedOrSame(a, TextOr(intent.barcode, ""), clock.today)
      case ProvidePatronForDesk =>
        NamesNobody(intent) ==> PatronStays(a) && CopyStays(a) && LoanStays(a) && DeskStays(a)
      case DeskStartReturn =>
        && a.slots.deskReturnIntent
        && (old(a.slots.loanId).Some? && old(a.slots.dueDate).Some? ==>
              PatronStays(a) && CopyStays(a) && LoanStays(a))
      case SearchReturn => DeskStays(a) && a.slots.catalogCandidates == old(a.slots.catalogCandidates)
      case Chat => PatronStays(a) && CopyStays(a) && LoanStays(a)
      case SetFulfillment => PatronStays(a) && CopyStays(a) && LoanStays(a)
      case _ => true
    }

    /** Talked, folded. */
    twostate predicate TalkDone(a: AgentIssueSession, intent: ParsedIntent, clock: Clock, new r: Result<()>)
      reads db, a, a.slots
    {
      forall j {:trigger Heard(j)} :: Heard(j) && j == intent ==> Talked(a, j, clock, r)
    }

    method ApplyIssueTalk(a: AgentIssueSession, tools: IssueTools, intent: ParsedIntent, clock: Clock)
      returns (r: Result<()>)
      requires IsIssueTalk(intent.action)
      requires Issuing(a, tools) && Kept(a) && LibraryOk(db.work)
      modifies a`toolCalls, a.slots, a.pseudonyms
      ensures Kept(a)
      ensures TalkDone(a, intent, clock, r)
    {
      r := Ok(());
      match intent.action
      case SearchPatron => r := HandleSearchPatron(a, tools, intent, clock);
      case SearchCatalog => r := HandleSearchCatalog(a, tools, intent, clock);
      case SelectCatalogCopy => r := HandleSelectCatalogCopy(a, tools, intent);
      case SelectBarcode => r := HandleSelectBarcode(a, tools, intent, clock);
      case StartIssueToPatron => r := HandleStartIssueToPatron(a, tools, intent, clock);
      case ProvidePatronForIssue => r := HandleProvidePatronForIssue(a, tools, intent, clock);
      case ProvideBookCriteria => r := HandleProvideBookCriteria(a, tools, intent);
      case StartCatalogSearch => HandleStartCatalogSearch(a);
      case ProvideCatalogCriteria => r := HandleProvideCatalogCriteria(a, tools, intent);
      case StartPatronLookup => HandleStartPatronLookup(a);
      case ProvidePatronLookup => r := HandleProvidePatronLookup(a, tools, intent, clock);
      case SelectPatron => r := HandleSelectPatron(a, tools, intent, clock);
      case DeclineContinue => HandleDeclineContinue(a);
      case _ =>
    }

    /** Chat and a changed fulfilment mode need no more than the slot updates. */
    method ApplyDeskTalk(a: AgentIssueSession, tools: IssueTools, returnTools: ReturnTools, intent: ParsedIntent,
                         clock: Clock)
      returns (r: Result<()>)
      requires !IsIssueTalk(intent.action)
      requires Issuing(a, tools) && Returning(a, returnTools) && Kept(a) && LibraryOk(db.work)
      modifies a`toolCalls, a.slots, a.pseudonyms
      ensures Kept(a)
      ensures TalkDone(a, intent, clock, r)
    {
      r := Ok(());
      match intent.action
      case StartReturn => r := HandleStartDesk(a, tools, returnTools, intent, true, clock);
      case StartPatronDesk => r := HandleStartDesk(a, tools, returnTools, intent, false, clock);
      case ProvidePatronForDesk => r := HandleProvidePatronForDesk(a, tools, returnTools, intent, clock);
      case DeskStartReturn => r := HandleDeskStartReturn(a, returnTools, clock.today);
      case DeskStartIssue => HandleDeskStartIssue(a);
      case DeskStartCatalog => HandleDeskStartCatalog(a);
      case DeskSessionDone => HandleDeskSessionDone(a);
      case LookupReturn => r := HandleLookupReturn(a, returnTools, intent, clock.today);
      case SearchReturn => r := HandleSearchReturn(a, returnTools, intent, clock.today);
      case _ =>
    }

    predicate MayRequest(x: Action) {
      match x
      case IssueToPatron => true
      case RequestCommit => true
      case RequestCancelIssue => true
      case RequestTransition => true
      case SelectReturnLoan => true
      case RequestCommitReturn => true
      case RequestReturnPickup => true
      case _ => false
    }

    /** The card that is up, if any, answers this request; folded. */
    ghost predicate Answered(a: AgentIssueSession, intent: ParsedIntent)
      reads a, a.slots
    {
      forall j {:trigger Heard(j)} :: Heard(j) && j == intent && a.pending.Some? ==>
        Answers(j, a.pending.value, GripOf(a.slots))
    }

    /**
     A transition card is put up exactly for a known delivery, and an issue card, when nothing is left to look up,
     exactly for a pair that the preview clears; folded.
     */
    ghost predicate Granted(a: AgentIssueSession, intent: ParsedIntent)
      reads db, a, a.slots
    {
      forall j {:trigger Heard(j)} :: Heard(j) && j == intent ==>
        && (j.action.RequestTransition? ==> (a.pending.Some? <==> a.slots.fulfillmentId.Some?))
        && (j.action.RequestCommit? && !Given(j.patronQuery) && !Given(j.catalogQuery) ==>
              (a.pending.Some? <==> Cleared(a)))
    }

    lemma NothingToGrant(a: AgentIssueSession, intent: ParsedIntent)
      requires !intent.action.RequestTransition? && !intent.action.RequestCommit?
      ensures Granted(a, intent)
    {
    }

    lemma NoCardYet(a: AgentIssueSession, intent: ParsedIntent)
      requires a.pending.None?
      ensures Answered(a, intent)
    {
    }

    lemma CardAnswers(a: AgentIssueSession, intent: ParsedIntent)
      requires a.pending.Some? ==> Answers(intent, a.pending.value, GripOf(a.slots))
      ensures Answered(a, intent)
    {
    }

    lemma IssueCardAnswers(a: AgentIssueSession, intent: ParsedIntent)
      requires intent.action.RequestCommit? || (intent.action.IssueToPatron? && intent.explicitIssue)
      requires AsAsked(intent, CardTermsOf(a.slots)) && CardFits(a) && IsIssueCard(a.pending)
      ensures Answered(a, intent)
    {
    }

    lemma TransitionCardAnswers(a: AgentIssueSession, intent: ParsedIntent)
      requires intent.action.RequestTransition? && AsAsked(intent, CardTermsOf(a.slots)) && CardFits(a)
      requires a.pending.Some? && a.pending.value.kind == TransitionAction
      requires a.pending.value.details.target == Some(if intent.status.Some? then intent.status.value else InTransit)
      ensures Answered(a, intent)
    {
    }

    lemma SelectionCardAnswers(a: AgentIssueSession, intent: ParsedIntent)
      requires intent.action.SelectReturnLoan? && AsAsked(intent, CardTermsOf(a.slots)) && CardFits(a)
      requires a.pending.Some? && a.pending.value.kind == SelectReturnAction
      ensures Answered(a, intent)
    {
    }

    method ApplyIssueRequest(a: AgentIssueSession, tools: IssueTools, intent: ParsedIntent, clock: Clock)
      returns (r: Result<()>)
      requires intent.action.IssueToPatron? || intent.action.RequestCommit?
      requires AsAsked(intent, CardTermsOf(a.slots))
      requires Issuing(a, tools) && Kept(a) && LibraryOk(db.work) && a.pending.None?
      modifies this`nextKey, a, a.slots, a.pseudonyms
      ensures Kept(a) && CardFits(a) && Drawn(a, old(nextKey)) && ReturnCardIsFirst(a, old(a.toolCalls))
      ensures a.slots.loanId == old(a.slots.loanId) && Answered(a, intent)
      ensures old(a.toolCalls) < maxToolCalls ==> Granted(a, intent)
    {
      if intent.action.IssueToPatron? {
        r := HandleIssueToPatron(a, tools, intent, clock);
      } else {
        r := HandleRequestCommit(a, tools, intent, clock);
      }
      if a.pending.Some? {
        IssueCardAnswers(a, intent);
      } else {
        NoCardYet(a, intent);
      }
    }

    method ApplyDeliveryRequest(a: AgentIssueSession, tools: IssueTools, returnTools: ReturnTools, intent: ParsedIntent)
      returns (r: Result<()>)
      requires intent.action.RequestTransition? || intent.action.SelectReturnLoan?
      requires AsAsked(intent, CardTermsOf(a.slots))
      requires Issuing(a, tools) && Returning(a, returnTools) && Kept(a) && a.pending.None?
      modifies this`nextKey, a, a.slots, a.pseudonyms
      ensures Kept(a) && CardFits(a) && Drawn(a, old(nextKey)) && ReturnCardIsFirst(a, old(a.toolCalls))
      ensures a.slots.loanId == old(a.slots.loanId) && Answered(a, intent)
      ensures old(a.toolCalls) < maxToolCalls ==> Granted(a, intent)
    {
      if intent.action.RequestTransition? {
        r := RequestFulfillmentApproval(a, tools, if intent.status.Some? then intent.status.value else InTransit);
      } else {
        r := HandleSelectReturnLoan(a, returnTools, intent);
      }
      if a.pending.None? {
        NoCardYet(a, intent);
      } else if intent.action.RequestTransition? {
        TransitionCardAnswers(a, intent);
      } else {
        SelectionCardAnswers(a, intent);
      }
    }

    /** With a loan in the slots each of these puts up its card, and without one none. */
    method ApplyLoanRequest(a: AgentIssueSession, intent: ParsedIntent)
      requires AsksAboutLoan(intent.action) && AsAsked(intent, CardTermsOf(a.slots))
      requires Kept(a) && a.pending.None?
      modifies this`nextKey, a`pending, a.slots`destinationNotes
      ensures Kept(a) && CardFits(a) && Drawn(a, old(nextKey)) && ReturnCardIsFirst(a, a.toolCalls)
      ensures (a.pending.Some? <==> a.slots.loanId.Some?) && Answered(a, intent)
    {
      if intent.action.RequestCancelIssue? {
        RequestCancelApproval(a);
      } else if intent.action.RequestCommitReturn? {
        RequestReturnCommitApproval(a);
      } else {
        RequestReturnPickupApproval(a, intent);
      }
      CardAnswers(a, intent);
    }

    /** Neither a request nor an answer to a card. */
    predicate IsTalk(x: Action) {
      !MayRequest(x) && !x.Approve? && !x.Deny?
    }

    method ApplyRequest(a: AgentIssueSession, tools: IssueTools, returnTools: ReturnTools, intent: ParsedIntent,
                        clock: Clock)
      returns (r: Result<()>)
      requires MayRequest(intent.action) && AsAsked(intent, CardTermsOf(a.slots))
      requires Issuing(a, tools) && Returning(a, returnTools) && Kept(a) && LibraryOk(db.work) && a.pending.None?
      modifies this`nextKey, a, a.slots, a.pseudonyms
      ensures Kept(a) && CardFits(a) && Drawn(a, old(nextKey))
      ensures ReturnCardIsFirst(a, old(a.toolCalls))
      ensures a.slots.loanId == old(a.slots.loanId)
      ensures Answered(a, intent)
      ensures AsksAboutLoan(intent.action) ==> r == Ok(()) && (a.pending.Some? <==> a.slots.loanId.Some?)
      ensures old(a.toolCalls) < maxToolCalls ==> Granted(a, intent)
    {
      if AsksAboutLoan(intent.action) {
        ApplyLoanRequest(a, intent);
        NothingToGrant(a, intent);
        r := Ok(());
      } else if intent.action.IssueToPatron? || intent.action.RequestCommit? {
        r := ApplyIssueRequest(a, tools, intent, clock);
      } else {
        r := ApplyDeliveryRequest(a, tools, returnTools, intent);
      }
    }

    /** What an intent does once mode and notes are in the slots; only requests put up a card. */
    method Dispatch(a: AgentIssueSession, tools: IssueTools, returnTools: ReturnTools, intent: ParsedIntent,
                    clock: Clock)
      returns (r: Result<()>)
      requires AsAsked(intent, CardTermsOf(a.slots))
      requires Issuing(a, tools) && Returning(a, returnTools) && Kept(a) && LibraryOk(db.work) && a.pending.None?
      modifies this`nextKey, a, a.slots, a.pseudonyms
      ensures Kept(a) && CardFits(a) && Drawn(a, old(nextKey)) && ReturnCardIsFirst(a, old(a.toolCalls))
      ensures Answered(a, intent)
      ensures AsksAboutLoan(intent.action) ==>
                r == Ok(()) && a.slots.loanId == old(a.slots.loanId) && (a.pending.Some? <==> a.slots.loanId.Some?)
      ensures IsTalk(intent.action) ==> TalkDone(a, intent, clock, r)
      ensures old(a.toolCalls) < maxToolCalls ==> Granted(a, intent)
    {
      if MayRequest(intent.action) {
        r := ApplyRequest(a, tools, returnTools, intent, clock);
        return;
      }
      if IsIssueTalk(intent.action) {
        r := ApplyIssueTalk(a, tools, intent, clock);
      } else {
        r := ApplyDeskTalk(a, tools, returnTools, intent, clock);
      }
      NoCardYet(a, intent);
      NothingToGrant(a, intent);
    }

    /**
     Approvals never come as messages; a card answers the request of the message, with the mode and notes it gives.
     */
    method ApplyIntent(a: AgentIssueSession, tools: IssueTools, returnTools: ReturnTools, intent: ParsedIntent,
                       clock: Clock)
      returns (r: Result<()>)
      requires Issuing(a, tools) && Returning(a, returnTools) && Kept(a) && LibraryOk(db.work) && a.pending.None?
      modifies this`nextKey, a, a.slots, a.pseudonyms
      ensures Kept(a) && CardFits(a) && Drawn(a, old(nextKey))
      ensures ReturnCardIsFirst(a, old(a.toolCalls))
      ensures Answered(a, intent)
      ensures AsksAboutLoan(intent.action) ==>
                r == Ok(()) && a.slots.loanId == old(a.slots.loanId) && (a.pending.Some? <==> a.slots.loanId.Some?)
      ensures intent.action.Approve? || intent.action.Deny? ==> r == Err(Validation)
      ensures old(a.toolCalls) < maxToolCalls ==> Granted(a, intent)
    {
      if intent.action.Approve? || intent.action.Deny? {
        NoCardYet(a, intent);
        NothingToGrant(a, intent);
        return Err(Validation);
      }
      ApplySlotUpdates(a, intent);
      r := Dispatch(a, tools, returnTools, intent, clock);
    }

    /**
     One message of the operator. While a card is up nothing is interpreted and only the count of tool calls restarts.
     The database is outside the frame: a message never writes.
     */
    method HandleMessage(a: AgentIssueSession, operator: string, intent: ParsedIntent, clock: Clock)
      returns (r: Result<()>)
      requires Wired() && db.Clean() && LibraryOk(db.committed) && a.Valid(db.committed)
      modifies this`nextKey, a, a.slots, a.pseudonyms
      ensures a.Valid(db.committed)
      ensures !enabled || operator != a.operatorId ==>
                r == Err(Forbidden) && a.pending == old(a.pending) && a.toolCalls == old(a.toolCalls)
      ensures !enabled || operator != a.operatorId || old(a.pending).Some? ==>
                a.pending == old(a.pending) && unchanged(a.slots) && nextKey == old(nextKey)
      ensures old(a.pending).None? ==> CardFits(a) && Drawn(a, old(nextKey)) && ReturnCardIsFirst(a, 0)
      ensures old(a.pending).None? ==> Answered(a, intent)
      ensures enabled && operator == a.operatorId && old(a.pending).None? && AsksAboutLoan(intent.action) ==>
                a.slots.loanId == old(a.slots.loanId) && (a.pending.Some? <==> a.slots.loanId.Some?)
      ensures old(a.Executable()) ==> a.Executable()
      ensures enabled && operator == a.operatorId && old(a.pending).Some? ==> a.toolCalls == 0 && r == Ok(())
      ensures enabled && operator == a.operatorId && old(a.pending).None? && maxToolCalls > 0 ==> Granted(a, intent)
    {
      if !enabled || operator != a.operatorId {
        return Err(Forbidden);
      }
      a.toolCalls := 0;
      if a.pending.Some? {
        return Ok(());
      }
      var tools := new IssueTools(db, workflow, fulfillment, a.pseudonyms);
      var returnTools := new ReturnTools(db, returnWorkflow, a.pseudonyms);
      r := ApplyIntent(a, tools, returnTools, intent, clock);
    }

    // ---- execution ----

    /** The command runs, unless the budget or the database is exhausted; nothing else is ever committed. */
    ghost predicate Executes(before: Tables, calls: nat, c: Command, x: Execution)
      reads db
    {
      if calls < maxToolCalls && !x.down then Ran(before, c, db.committed) else db.committed == before
    }

    /** Lists the desk patron's loans again after an issue or a return in between. */
    method ResumeDeskAfterSubflow(a: AgentIssueSession, returnTools: ReturnTools, today: Day) returns (r: Result<()>)
      requires Returning(a, returnTools) && Kept(a)
      modifies a`toolCalls, a.slots`activeFlow, a.slots`returnCandidates, a.slots`loanId, a.slots`holdingId,
               a.slots`holdingBarcode, a.slots`catalogTitle, a.slots`patronId, a.slots`patronName, a.slots`dueDate,
               a.slots`isOverdue, a.slots`fulfillmentId, a.slots`fulfillmentTarget, a.pseudonyms,
               a.slots`awaitingDeskNextAction, a.slots`guidedIssueActive, a.slots`awaitingBookCriteria,
               a.slots`guidedCatalogActive, a.slots`awaitingCatalogCriteria
      ensures Kept(a)
      ensures r.Err? ==> a.slots.Core() == old(a.slots.Core())
      ensures r.Err? ==> old(a.slots.guidedReturnActive) && old(a.slots.patronId).Some?
      ensures r == Err(RateLimited) <==>
                old(a.slots.guidedReturnActive) && old(a.slots.patronId).Some? && old(a.toolCalls) >= maxToolCalls
      ensures r.Err? && r.error != RateLimited ==> !IsAppError(r.error)
    {
      if !a.slots.guidedReturnActive || a.slots.patronId.None? {
        return Ok(());
      }
      var _ :- ListAtDesk(a, returnTools, None, None, false, today);
      a.slots.BackAtDesk();
      return Ok(());
    }

    /** The budget was used up before: nothing at all happens to the slots. */
    twostate predicate RefusedOverBudget(a: AgentIssueSession, new r: Result<ToolResult>)
      reads a, a.slots
    {
      old(a.toolCalls) >= maxToolCalls ==> r == Err(RateLimited) && unchanged(a.slots)
    }

    /** A call within the budget that cannot reach the database: counted, and nothing else. */
    twostate predicate RefusedDown(a: AgentIssueSession, x: Execution, new r: Result<ToolResult>)
      reads a, a.slots
    {
      old(a.toolCalls) < maxToolCalls && x.down ==>
        r == Err(Unhandled) && unchanged(a.slots) && a.toolCalls == old(a.toolCalls) + 1
    }

    /** A tool call that writes: counted first, and lost when the database cannot be reached. */
    method BeginWrite(a: AgentIssueSession, tool: Tool, x: Execution) returns (r: Result<()>)
      requires !Restricted(tool)
      modifies a`toolCalls
      ensures a.toolCalls == old(a.toolCalls) + 1
      ensures r == if a.toolCalls > maxToolCalls then Err(RateLimited) else if x.down then Err(Unhandled) else Ok(())
    {
      var _ :- RunTool(a, tool);
      return if x.down then Err(Unhandled) else Ok(());
    }

    method AfterIssue(a: AgentIssueSession, returnTools: ReturnTools, today: Day) returns (r: Result<()>)
      requires Returning(a, returnTools) && Kept(a)
      modifies a`toolCalls, a.slots`activeFlow, a.slots`returnCandidates, a.slots`loanId, a.slots`holdingId,
               a.slots`holdingBarcode, a.slots`catalogTitle, a.slots`patronId, a.slots`patronName, a.slots`dueDate,
               a.slots`isOverdue, a.slots`fulfillmentId, a.slots`fulfillmentTarget, a.pseudonyms,
               a.slots`awaitingDeskNextAction, a.slots`guidedIssueActive, a.slots`awaitingBookCriteria,
               a.slots`guidedCatalogActive, a.slots`awaitingCatalogCriteria, a.slots`awaitingPatron
      ensures Kept(a)
      ensures r.Err? ==> CardTermsOf(a.slots) == old(CardTermsOf(a.slots))
    {
      if a.slots.guidedReturnActive {
        r := ResumeDeskAfterSubflow(a, returnTools, today);
      } else {
        a.slots.EndIssue();
        r := Ok(());
      }
    }

    /** Issues the pair in the slots; of the slots only loan and delivery may change. */
    method WriteIssue(a: AgentIssueSession, tools: IssueTools, key: nat, x: Execution) returns (r: Result<ToolResult>)
      requires Issuing(a, tools) && db.Clean() && Sane(db.committed)
      requires a.slots.WellFormed(db.committed, a.pseudonyms.patrons) && a.slots.patronId.Some?
               && a.slots.holdingId.Some?
      modifies db, a`toolCalls, a.slots`loanId, a.slots`fulfillmentId, a.pseudonyms`loans
      ensures a.slots.WellFormed(db.committed, a.pseudonyms.patrons)
      ensures r.Ok? ==> db.Clean() && !r.value.missingSlot
      ensures Executes(old(db.committed), old(a.toolCalls), IssueOf(a.slots, key, x), x)
      ensures RefusedOverBudget(a, r) && RefusedDown(a, x, r)
    {
      SaneLibrary(db.committed);
      var _ :- BeginWrite(a, CommitIssueTool, x);
      ghost var before := db.committed;
      r := tools.CommitIssue(a.slots, key, x);
      RanIssue(before, IssueOf(a.slots, key, x), db.committed);
    }

    function IssueOf(slots: IssueSlots, key: nat, x: Execution): Command
      requires slots.patronId.Some? && slots.holdingId.Some?
      reads slots
    {
      IssueCommand(slots.patronId.value, slots.holdingId.value, slots.fulfillmentMode, slots.destinationNotes, key, x)
    }

    /** The issue, then the desk list again when the issue happened at the patron desk. */
    method ExecuteCommitIssue(a: AgentIssueSession, tools: IssueTools, returnTools: ReturnTools, key: nat, x: Execution)
      returns (r: Result<ToolResult>)
      requires Issuing(a, tools) && Returning(a, returnTools) && db.Clean() && Sane(db.committed)
      requires a.slots.WellFormed(db.committed, a.pseudonyms.patrons) && a.slots.patronId.Some?
               && a.slots.holdingId.Some?
      modifies db, a`toolCalls, a.slots, a.pseudonyms
      ensures a.slots.WellFormed(db.committed, a.pseudonyms.patrons)
      ensures r.Ok? ==> db.Clean() && !r.value.missingSlot
      ensures Executes(old(db.committed), old(a.toolCalls), old(IssueOf(a.slots, key, x)), x)
      ensures r.Err? ==> CardTermsOf(a.slots) == old(CardTermsOf(a.slots))
      ensures RefusedOverBudget(a, r) && RefusedDown(a, x, r)
    {
      var done :- WriteIssue(a, tools, key, x);
      var _ :- AfterIssue(a, returnTools, x.clock.today);
      return Ok(done);
    }

    method ExecuteTransition(a: AgentIssueSession, tools: IssueTools, key: nat, x: Execution)
      returns (r: Result<ToolResult>)
      requires Issuing(a, tools) && db.Clean() && Sane(db.committed)
      requires a.slots.WellFormed(db.committed, a.pseudonyms.patrons) && a.slots.fulfillmentId.Some?
      modifies db, a`toolCalls, a.pseudonyms
      ensures a.slots.WellFormed(db.committed, a.pseudonyms.patrons)
      ensures r.Ok? ==> db.Clean() && !r.value.missingSlot
      ensures Executes(old(db.committed), old(a.toolCalls),
                       DoTransition(a.slots.fulfillmentId.value, TargetOf(a.slots), Approval(key)), x)
      ensures RefusedOverBudget(a, r) && RefusedDown(a, x, r)
    {
      SaneLibrary(db.committed);
      var _ :- BeginWrite(a, TransitionTool, x);
      ghost var before := db.committed;
      r := tools.TransitionFulfillment(a.slots, TargetOf(a.slots), key);
      RanTransition(before, DoTransition(a.slots.fulfillmentId.value, TargetOf(a.slots), Approval(key)), db.committed);
    }

    method ExecuteCancelIssue(a: AgentIssueSession, tools: IssueTools, key: nat, x: Execution)
      returns (r: Result<ToolResult>)
      requires Issuing(a, tools) && db.Clean() && Sane(db.committed)
      requires a.slots.WellFormed(db.committed, a.pseudonyms.patrons) && a.slots.loanId.Some?
      modifies db, a`toolCalls, a.slots`loanId, a.slots`fulfillmentId, a.slots`fulfillmentTarget, a.pseudonyms
      ensures a.slots.WellFormed(db.committed, a.pseudonyms.patrons)
      ensures r.Ok? ==> db.Clean() && !r.value.missingSlot
      ensures Executes(old(db.committed), old(a.toolCalls),
                       DoCancelIssue(old(a.slots.loanId).value, Approval(key), x.clock.now), x)
      ensures r.Err? ==> a.slots.loanId == old(a.slots.loanId)
      ensures RefusedOverBudget(a, r) && RefusedDown(a, x, r)
    {
      SaneLibrary(db.committed);
      var _ :- BeginWrite(a, CancelIssueTool, x);
      ghost var before := db.committed;
      ghost var l := a.slots.loanId.value;
      r := tools.CancelIssue(a.slots, key, x.clock);
      RanCancel(before, DoCancelIssue(l, Approval(key), x.clock.now), db.committed);
    }

    /** No table changes; loan, copy and patron of the candidate fill the slots. */
    method ExecuteSelection(a: AgentIssueSession, returnTools: ReturnTools, candidate: ReturnCandidate)
      returns (r: Result<ToolResult>)
      requires Returning(a, returnTools) && Kept(a) && LoanKnown(db.work, candidate)
      modifies a`toolCalls, a.slots`loanId, a.slots`holdingId, a.slots`holdingBarcode, a.slots`catalogTitle,
               a.slots`patronId, a.slots`patronName, a.slots`dueDate, a.slots`isOverdue, a.slots`returnCandidates,
               a.slots`fulfillmentId,
               a.slots`fulfillmentTarget, a.pseudonyms
      ensures Kept(a)
      ensures r.Ok? ==> !r.value.missingSlot && a.slots.loanId == Some(candidate.loanId)
                        && a.slots.holdingId == Some(candidate.holdingId)
                        && a.slots.patronId == Some(candidate.patronId)
      ensures RefusedOverBudget(a, r)
    {
      var _ :- RunTool(a, ApplySelectionTool);
      var done := returnTools.ApplyReturnSelection(a.slots, candidate);
      return Ok(done);
    }

    method ExecutePickup(a: AgentIssueSession, returnTools: ReturnTools, key: nat, x: Execution)
      returns (r: Result<ToolResult>)
      requires Returning(a, returnTools) && db.Clean() && Sane(db.committed)
      requires a.slots.WellFormed(db.committed, a.pseudonyms.patrons) && a.slots.loanId.Some?
      modifies db, a`toolCalls, a.slots, a.pseudonyms
      ensures a.slots.WellFormed(db.committed, a.pseudonyms.patrons)
      ensures r.Ok? ==> db.Clean() && !r.value.missingSlot
      ensures Executes(old(db.committed), old(a.toolCalls), old(PickupOf(a.slots, key, x)), x)
      ensures r.Err? ==>
                a.slots.Core() == old(a.slots.Core()) && a.slots.destinationNotes == old(a.slots.destinationNotes)
      ensures RefusedOverBudget(a, r) && RefusedDown(a, x, r)
    {
      SaneLibrary(db.committed);
      var _ :- BeginWrite(a, InitiatePickupTool, x);
      r := returnTools.InitiateReturnPickup(a.slots, key, a.slots.destinationNotes, x.newFulfillment);
    }

    function PickupOf(slots: IssueSlots, key: nat, x: Execution): Command
      requires slots.loanId.Some?
      reads slots
    {
      DoInitiatePickup(slots.loanId.value, slots.destinationNotes, Approval(key), x.newFulfillment)
    }

    /** The return itself, within the budget. The tool never fails: a refusal by the rules is an answer. */
    method ReturnInSlots(a: AgentIssueSession, returnTools: ReturnTools, key: nat, x: Execution)
      returns (reply: ToolResult)
      requires Returning(a, returnTools) && db.Clean() && Sane(db.committed)
      requires a.slots.WellFormed(db.committed, a.pseudonyms.patrons)
      modifies db, a.slots`loanId, a.slots`holdingId, a.slots`holdingBarcode, a.slots`catalogTitle,
               a.slots`patronId, a.slots`patronName, a.slots`dueDate, a.slots`isOverdue, a.slots`returnCandidates,
               a.slots`fulfillmentId, a.slots`fulfillmentTarget, a.slots`activeFlow, a.pseudonyms
      ensures a.slots.WellFormed(db.committed, a.pseudonyms.patrons) && db.Clean()
      ensures db.committed.lib == old(db.committed).lib
      ensures old(a.slots.loanId).None? ==> reply == MISSING_SLOT && db.committed == old(db.committed)
      ensures old(a.slots.loanId).Some? ==>
                && Ran(old(db.committed), old(ReturnOfSlots(a.slots, key, x)), db.committed)
                && reply == Reply(TakesBack(old(db.committed), old(ReturnOfSlots(a.slots, key, x))))
      ensures reply.ok ==> a.slots.loanId.None?
      ensures !reply.ok ==> a.slots.Core() == old(a.slots.Core())
    {
      SaneLibrary(db.committed);
      ghost var before := db.committed;
      ghost var c := ReturnOfSlots(a.slots, key, x);
      var done := returnTools.CommitDeskReturn(a.slots, key, x.clock.now);
      reply := done.value;
      if c.loanOpt.Some? {
        TakesBackIff(before, c);
        RanReturn(before, c, db.committed);
      }
    }

    /** Returns the copy in the slots, else the loan. */
    method WriteReturn(a: AgentIssueSession, returnTools: ReturnTools, key: nat, x: Execution)
      returns (r: Result<ToolResult>)
      requires Returning(a, returnTools) && db.Clean() && Sane(db.committed)
      requires a.slots.WellFormed(db.committed, a.pseudonyms.patrons)
      modifies db, a`toolCalls, a.slots`loanId, a.slots`holdingId, a.slots`holdingBarcode, a.slots`catalogTitle,
               a.slots`patronId, a.slots`patronName, a.slots`dueDate, a.slots`isOverdue, a.slots`returnCandidates,
               a.slots`fulfillmentId,
               a.slots`fulfillmentTarget, a.slots`activeFlow, a.pseudonyms
      ensures a.slots.WellFormed(db.committed, a.pseudonyms.patrons) && db.Clean()
      ensures a.toolCalls == old(a.toolCalls) + 1
      ensures old(a.slots.patronId).Some? ==>
                old(a.slots.patronName).Some? && old(a.slots.patronId).value in db.committed.lib.patrons
      ensures r.Err? ==> r.error == if a.toolCalls > maxToolCalls then RateLimited else Unhandled
      ensures old(a.slots.loanId).None? || r.Err? ==> db.committed == old(db.committed)
      ensures old(a.slots.loanId).Some? ==>
                Executes(old(db.committed), old(a.toolCalls), old(ReturnOfSlots(a.slots, key, x)), x)
      ensures r.Ok? <==> a.toolCalls <= maxToolCalls && !x.down
      ensures r.Ok? ==> (r.value.missingSlot <==> old(a.slots.loanId).None?)
      ensures r.Ok? && old(a.slots.loanId).Some? ==>
                (r.value.ok <==> TakesBack(old(db.committed), old(ReturnOfSlots(a.slots, key, x))))
      ensures r.Ok? && r.value.ok ==> a.slots.loanId.None?
      ensures r.Err? || !r.value.ok ==> a.slots.Core() == old(a.slots.Core())
      ensures RefusedOverBudget(a, r) && RefusedDown(a, x, r)
    {
      a.slots.NamedRows(db.committed, a.pseudonyms.patrons);
      a.slots.NamedRows(db.committed, a.pseudonyms.patrons);
      var _ :- BeginWrite(a, CommitDeskReturnTool, x);
      var reply := ReturnInSlots(a, returnTools, key, x);
      return Ok(reply);
    }

    /** After a return at the patron desk the patron stays and the loans are listed again; else the desk visit ends. */
    method AfterReturn(a: AgentIssueSession, returnTools: ReturnTools, atDesk: bool, patron: Option<Id>,
                       name: Option<string>, today: Day)
      returns (r: Result<()>)
      requires Returning(a, returnTools) && Kept(a)
      requires patron.Some? ==> name.Some? && patron.value in db.work.lib.patrons
      modifies a`toolCalls, a.slots`activeFlow, a.slots`returnCandidates, a.slots`loanId, a.slots`holdingId,
               a.slots`holdingBarcode, a.slots`catalogTitle, a.slots`patronId, a.slots`patronName, a.slots`dueDate,
               a.slots`isOverdue, a.slots`fulfillmentId, a.slots`fulfillmentTarget, a.pseudonyms,
               a.slots`awaitingDeskNextAction, a.slots`guidedIssueActive, a.slots`awaitingBookCriteria,
               a.slots`guidedCatalogActive, a.slots`awaitingCatalogCriteria,
               a.slots`guidedReturnActive, a.slots`awaitingDeskPatron
      ensures Kept(a)
      ensures r.Err? ==> a.slots.loanId == old(a.slots.loanId) && atDesk && patron.Some?
      ensures r == Err(RateLimited) <==> atDesk && patron.Some? && old(a.toolCalls) >= maxToolCalls
      ensures r.Err? && r.error != RateLimited ==> !IsAppError(r.error)
    {
      if !atDesk || patron.None? {
        a.slots.EndDeskReturn();
        return Ok(());
      }
      a.slots.SetPatron(patron.value, name.value, db.work, a.pseudonyms.patrons);
      a.slots.KeepDeskActive();
      r := ResumeDeskAfterSubflow(a, returnTools, today);
    }

    /**
     The return, then the desk list again. When only the list fails, the card stays up although its loan is gone:
     on an error the loan slot is lost if and only if the return went through. The budget makes the list fail exactly at
     a desk visit with no second call left.
     */
    method ExecuteCommitReturn(a: AgentIssueSession, returnTools: ReturnTools, key: nat, x: Execution)
      returns (r: Result<ToolResult>)
      requires Returning(a, returnTools) && db.Clean() && Sane(db.committed)
      requires a.slots.WellFormed(db.committed, a.pseudonyms.patrons)
      modifies db, a`toolCalls, a.slots, a.pseudonyms
      ensures a.slots.WellFormed(db.committed, a.pseudonyms.patrons) && db.Clean()
      ensures if old(a.slots.loanId).Some?
              then Executes(old(db.committed), old(a.toolCalls), old(ReturnOfSlots(a.slots, key, x)), x)
              else db.committed == old(db.committed)
      ensures r.Ok? ==> (r.value.missingSlot <==> old(a.slots.loanId).None?)
      ensures r == Err(RateLimited) <==> OverBudget(old(GripOf(a.slots)), maxToolCalls, old(a.toolCalls), x)
      ensures r.Err? && r.error != RateLimited ==> !IsAppError(r.error)
      ensures r.Err? && old(a.slots.loanId).Some? ==>
                (a.slots.loanId.None? <==>
                 Returned(old(db.committed), maxToolCalls, old(a.toolCalls), old(ReturnOfSlots(a.slots, key, x)), x))
      ensures r.Err? && a.slots.loanId != old(a.slots.loanId) ==>
                old(a.slots.guidedReturnActive) && old(a.slots.patronId).Some?
      ensures RefusedOverBudget(a, r) && RefusedDown(a, x, r)
    {
      var patron, name, atDesk := a.slots.patronId, a.slots.patronName, a.slots.guidedReturnActive;
      var done :- WriteReturn(a, returnTools, key, x);
      var _ :- AfterReturn(a, returnTools, atDesk, patron, name, x.clock.today);
      return Ok(done);
    }

    function ReturnOfSlots(slots: IssueSlots, key: nat, x: Execution): Command
      reads slots
    {
      DoReturn(slots.holdingId, slots.loanId, Approval(key), x.clock.now)
    }

    /** Calls the tool of the card's action. */
    method ExecuteKind(a: AgentIssueSession, tools: IssueTools, returnTools: ReturnTools, card: PendingApproval,
                       x: Execution)
      returns (r: Result<ToolResult>)
      requires Issuing(a, tools) && Returning(a, returnTools) && db.Clean() && Sane(db.committed)
      requires a.Valid(db.committed) && a.pending == Some(card)
      modifies db, a`toolCalls, a.slots, a.pseudonyms
      ensures a.slots.WellFormed(db.committed, a.pseudonyms.patrons)
      ensures r.Ok? ==> db.Clean() && (r.value.missingSlot <==> !old(a.Executable()))
      ensures r.Err? ==> a.CardOk(db.committed, card)
      ensures r.Err? ==> SlotsStay(card.kind, old(GripOf(a.slots)), GripOf(a.slots))
      ensures r.Ok? && card.kind == SelectReturnAction ==> Chosen(card, GripOf(a.slots))
      ensures card.kind == CommitReturnAction ==>
                (r == Err(RateLimited) <==> OverBudget(old(GripOf(a.slots)), maxToolCalls, old(a.toolCalls), x))
                && (r.Err? && r.error != RateLimited ==> !IsAppError(r.error))
      ensures r.Err? && card.kind == CommitReturnAction && old(a.slots.loanId).Some? ==>
                (a.slots.loanId.None? <==>
                   Returned(old(db.committed), maxToolCalls, old(a.toolCalls), old(ReturnOfSlots(a.slots, card.key, x)),
                            x))
      ensures var c := old(CommandOf(a.slots, card, x));
              if c.Some? then Executes(old(db.committed), old(a.toolCalls), c.value, x)
              else db.committed == old(db.committed)
      ensures RefusedOverBudget(a, r) && (card.kind != SelectReturnAction ==> RefusedDown(a, x, r))
    {
      match card.kind
      case CommitIssueAction => r := ExecuteCommitIssue(a, tools, returnTools, card.key, x);
      case TransitionAction => r := ExecuteTransition(a, tools, card.key, x);
      case CancelIssueAction => r := ExecuteCancelIssue(a, tools, card.key, x);
      case SelectReturnAction => r := ExecuteSelection(a, returnTools, card.details.candidate.value);
      case CommitReturnAction => r := ExecuteCommitReturn(a, returnTools, card.key, x);
      case PickupAction => r := ExecutePickup(a, returnTools, card.key, x);
    }

    /** The status or the notes on the card are those in the slots, and an executable card has its slots. */
    lemma CardAgrees(a: AgentIssueSession, card: PendingApproval)
      requires a.Valid(db.committed) && a.pending == Some(card)
      ensures AgreesWith(card, GripOf(a.slots))
      ensures a.Executable() ==>
                card.kind == SelectReturnAction || forall x :: CommandFrom(GripOf(a.slots), card, x).Some?
    {
    }

    /**
     Executes the card's action: within the budget and with the database, it does to the rows what ActionDone says of a
     card of this kind.
     */
    method ExecutePending(a: AgentIssueSession, tools: IssueTools, returnTools: ReturnTools, card: PendingApproval,
                          x: Execution)
      returns (r: Result<ToolResult>)
      requires Issuing(a, tools) && Returning(a, returnTools) && db.Clean() && Sane(db.committed)
      requires a.Valid(db.committed) && a.pending == Some(card)
      modifies db, a`toolCalls, a.slots, a.pseudonyms
      ensures a.slots.WellFormed(db.committed, a.pseudonyms.patrons)
      ensures r.Ok? ==> db.Clean() && (r.value.missingSlot <==> !old(a.Executable()))
      ensures r.Err? ==> a.CardOk(db.committed, card)
      ensures r.Err? ==> SlotsStay(card.kind, old(GripOf(a.slots)), GripOf(a.slots))
      ensures r.Ok? && card.kind == SelectReturnAction ==> Chosen(card, GripOf(a.slots))
      ensures card.kind == CommitReturnAction ==>
                (r == Err(RateLimited) <==> OverBudget(old(GripOf(a.slots)), maxToolCalls, old(a.toolCalls), x))
                && (r.Err? && r.error != RateLimited ==> !IsAppError(r.error))
      ensures r.Err? && card.kind == CommitReturnAction && old(a.slots.loanId).Some? ==>
                (a.slots.loanId.None? <==>
                   Returned(old(db.committed), maxToolCalls, old(a.toolCalls), old(ReturnOfSlots(a.slots, card.key, x)),
                            x))
      ensures var c := old(CommandOf(a.slots, card, x));
              if c.Some? then Executes(old(db.committed), old(a.toolCalls), c.value, x)
              else db.committed == old(db.committed)
      ensures RefusedOverBudget(a, r) && (card.kind != SelectReturnAction ==> RefusedDown(a, x, r))
      ensures old(a.toolCalls) < maxToolCalls && !x.down && old(a.Executable()) ==>
                Done(old(db.committed), old(GripOf(a.slots)), card, x, db.committed)
    {
      ghost var t, g, calls := db.committed, GripOf(a.slots), a.toolCalls;
      CardAgrees(a, card);
      r := ExecuteKind(a, tools, returnTools, card, x);
      if calls < maxToolCalls && !x.down && CommandFrom(g, card, x).Some? {
        CommandDoes(t, g, card, x, db.committed);
      }
    }

    /**
     The operator's answer to the card. Tables change only here, only on approval, and only by the one command that the
     card stands for; on an error the card stays up. A card that could be executed can be executed no more exactly when
     it is a return card, the return went through, and the answer is an error all the same.
     */
    method Resume(a: AgentIssueSession, operator: string, approved: bool, x: Execution) returns (r: Result<ToolResult>)
      requires Wired() && db.Clean() && Sane(db.committed) && a.Valid(db.committed)
      modifies db, a, a.slots, a.pseudonyms
      ensures a.Valid(db.committed)
      ensures if r.Ok? then a.pending.None? && db.Clean() else a.pending == old(a.pending)
      ensures !enabled || operator != a.operatorId ==> r == Err(Forbidden)
      ensures enabled && operator == a.operatorId && old(a.pending).None? ==> r == Err(Validation)
      ensures !enabled || operator != a.operatorId || old(a.pending).None? || !approved ==>
                unchanged(db) && unchanged(a.slots) && a.toolCalls == old(a.toolCalls)
      ensures enabled && operator == a.operatorId && old(a.pending).Some? && !approved ==> r.Ok?
      ensures enabled && operator == a.operatorId && old(a.pending).Some? && approved ==>
                var c := old(CommandOf(a.slots, a.pending.value, x));
                if c.Some? then Executes(old(db.committed), old(a.toolCalls), c.value, x)
                else db.committed == old(db.committed)
      ensures enabled && operator == a.operatorId && old(a.pending).Some? && !approved ==> !r.value.missingSlot
      ensures enabled && operator == a.operatorId && old(a.pending).Some? && approved ==>
                && RefusedOverBudget(a, r)
                && (old(a.pending).value.kind != SelectReturnAction ==> RefusedDown(a, x, r))
                && (r.Ok? ==> (r.value.missingSlot <==> !old(a.Executable())))
      ensures enabled && operator == a.operatorId && old(a.pending).Some? && approved ==>
                && (r.Err? ==> SlotsStay(old(a.pending).value.kind, old(GripOf(a.slots)), GripOf(a.slots)))
                && (r.Ok? && old(a.pending).value.kind == SelectReturnAction ==>
                      Chosen(old(a.pending).value, GripOf(a.slots)))
                && (old(a.toolCalls) < maxToolCalls && !x.down && old(a.Executable()) ==>
                      Done(old(db.committed), old(GripOf(a.slots)), old(a.pending).value, x, db.committed))
      ensures enabled && operator == a.operatorId && approved && IsReturnCard(old(a.pending)) ==>
                && (r == Err(RateLimited) <==> OverBudget(old(GripOf(a.slots)), maxToolCalls, old(a.toolCalls), x))
                && (r.Err? && r.error != RateLimited ==> !IsAppError(r.error))
                && (old(a.slots.loanId).Some? ==>
                      (!a.Executable() <==>
                         r.Err? && Returned(old(db.committed), maxToolCalls, old(a.toolCalls),
                                            old(ReturnOfSlots(a.slots, a.pending.value.key, x)), x)))
    {
      if !enabled || operator != a.operatorId {
        return Err(Forbidden);
      }
      if a.pending.None? {
        return Err(Validation);
      }
      if !approved {
        a.pending := None;
        return Ok(Reply(true));
      }
      var card := a.pending.value;
      var tools := new IssueTools(db, workflow, fulfillment, a.pseudonyms);
      var returnTools := new ReturnTools(db, returnWorkflow, a.pseudonyms);
      var done :- ExecutePending(a, tools, returnTools, card, x);
      a.pending := None;
      return Ok(done);
    }
  }
}
