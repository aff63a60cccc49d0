/** Approval cards: what they show, the command that each stands for, and what that command does to the rows. */
module DeskCards {
  import opened Domain
  import opened Circulation
  import opened Invariants
  import opened Deliveries
  import opened OperationLaws
  import opened AgentSession
  import opened DeskIssueTools
  import opened DeskReturnTools

  // ---- executed commands ----

  datatype CardTerms = CardTerms(
    patronId: Option<Id>, patronName: Option<string>, holdingId: Option<Id>, barcode: Option<string>,
    title: Option<string>, mode: Mode, notes: Option<string>)

  /** What an issue card shows and will execute. */
  function CardTermsOf(slots: IssueSlots): CardTerms
    reads slots
  {
    CardTerms(slots.patronId, slots.patronName, slots.holdingId, slots.holdingBarcode, slots.catalogTitle,
              slots.fulfillmentMode, slots.destinationNotes)
  }

  function TargetOf(slots: IssueSlots): FulfillmentStatus
    reads slots
  {
    if slots.fulfillmentTarget.Some? then slots.fulfillmentTarget.value else InTransit
  }

  /** All slots that the execution of a card reads. */
  datatype Grip = Grip(
    terms: CardTerms, loanId: Option<Id>, fulfillmentId: Option<Id>, target: FulfillmentStatus, atDesk: bool)

  function GripOf(slots: IssueSlots): Grip
    reads slots
  {
    Grip(CardTermsOf(slots), slots.loanId, slots.fulfillmentId, TargetOf(slots), slots.guidedReturnActive)
  }

  /** The one command that an approved card stands for; a selection stands for none. */
  function CommandFrom(g: Grip, card: PendingApproval, x: Execution): Option<Command> {
    match card.kind
    case CommitIssueAction =>
      if g.terms.patronId.Some? && g.terms.holdingId.Some?
      then Some(IssueCommand(g.terms.patronId.value, g.terms.holdingId.value, g.terms.mode, g.terms.notes, card.key, x))
      else None
    case TransitionAction =>
      if g.fulfillmentId.Some? then Some(DoTransition(g.fulfillmentId.value, g.target, Approval(card.key))) else None
    case CancelIssueAction =>
      if g.loanId.Some? then Some(DoCancelIssue(g.loanId.value, Approval(card.key), x.clock.now)) else None
    case CommitReturnAction =>
      if g.loanId.Some? then Some(DoReturn(g.terms.holdingId, g.loanId, Approval(card.key), x.clock.now)) else None
    case SelectReturnAction => None
    case PickupAction =>
      if g.loanId.Some?
      then Some(DoInitiatePickup(g.loanId.value, g.terms.notes, Approval(card.key), x.newFulfillment))
      else None
  }

  function CommandOf(slots: IssueSlots, card: PendingApproval, x: Execution): Option<Command>
    reads slots
  {
    CommandFrom(GripOf(slots), card, x)
  }

  predicate IsIssueCard(pending: Option<PendingApproval>) {
    pending.Some? && pending.value.kind == CommitIssueAction
  }

  predicate IsReturnCard(pending: Option<PendingApproval>) {
    pending.Some? && pending.value.kind == CommitReturnAction
  }

  /** The return runs and goes through. */
  ghost predicate Returned(before: Tables, budget: nat, calls: nat, c: Command, x: Execution) {
    calls < budget && !x.down && TakesBack(before, c)
  }

  /** A return card needs one call, and at a desk visit a second one for the list. */
  predicate OverBudget(g: Grip, budget: nat, calls: nat, x: Execution) {
    calls >= budget || (!x.down && g.atDesk && g.terms.patronId.Some? && calls + 1 >= budget)
  }

  /** The card names the patron, the title and the copy in the slots. */
  predicate Names(details: CardDetails, terms: CardTerms) {
    details.patronName == terms.patronName && details.title == terms.title && details.barcode == terms.barcode
  }

  /** The slots that a card of this kind is about are the same. */
  predicate SlotsStay(kind: ActionKind, g: Grip, h: Grip) {
    match kind
    case CommitIssueAction => h.terms == g.terms
    case TransitionAction => h.fulfillmentId == g.fulfillmentId && h.target == g.target
    case CancelIssueAction => h.loanId == g.loanId
    case CommitReturnAction => true
    case SelectReturnAction => true
    case PickupAction => h.loanId == g.loanId && h.terms.notes == g.terms.notes
  }

  /** The slots name the loan, the copy and the patron that the selection card carries. */
  predicate Chosen(card: PendingApproval, g: Grip) {
    && card.details.candidate.Some?
    && var c := card.details.candidate.value;
    && g.loanId == Some(c.loanId) && g.terms.holdingId == Some(c.holdingId) && g.terms.patronId == Some(c.patronId)
  }

  // ---- what an approved card does to the rows ----

  /** Lends the copy to the patron if every rule holds, with the delivery that mode and notes ask for. */
  ghost predicate IssueDone(t: Tables, p: Id, h: Id, terms: CardTerms, key: Key, x: Execution, u: Tables) {
    if (CheckoutOf(h), key) !in t.records && MayCheckOut(t, p, h, x.newLoan)
    then NewLoanOk(t, u, x.newLoan, p, h, x.clock.now, x.clock.today) && OnlyLends(t, u, x.newLoan, h)
         && u.fulfillments == AfterIssue(t, x.newLoan, h, terms.mode, terms.notes, x.newFulfillment, x.crash)
    else u == t
  }

  /** Moves the delivery to this status if it may move there. */
  ghost predicate TransitionDone(t: Tables, f: Id, target: FulfillmentStatus, key: Key, u: Tables) {
    if (TransitionOf(f), key) !in t.records && MayMove(t, f, target) then StatusSet(t, u, f, target) else u == t
  }

  /** Closes the loan while it is open, puts its copy on the shelf and terminates its deliveries. */
  ghost predicate CancelDone(t: Tables, l: Id, key: Key, now: Time, u: Tables) {
    if (ReturnOf(l), key) !in t.records && LoanIsOpen(t, Some(l))
    then t.loans[l].holdingId in t.holdings && LoanClosed(t, u, l, now) && IssuesTerminated(t, u, l)
    else u == t
  }

  /** Closes this loan; no delivery changes. */
  ghost predicate TakenBack(t: Tables, u: Tables, l: Id, now: Time) {
    && LoanIsOpen(t, Some(l)) && t.loans[l].holdingId in t.holdings
    && LoanClosed(t, u, l, now) && u.fulfillments == t.fulfillments
  }

  /** The loan that the copy is out on, else the loan itself. */
  ghost predicate ReturnDone(t: Tables, ho: Option<Id>, l: Id, key: Key, now: Time, u: Tables) {
    if ho.Some? then
      if (ReturnOf(ho.value), key) !in t.records && OpenLoansOf(t, ho.value) != {}
      then exists m :: m in t.loans && t.loans[m].holdingId == ho.value && TakenBack(t, u, m, now)
      else u == t
    else if (ReturnOf(l), key) !in t.records && l in t.loans then
      if t.loans[l].returnedAt == None then TakenBack(t, u, l, now)
      else SameStock(t, u) && u.fulfillments == t.fulfillments
    else u == t
  }

  /** Adds one pick-up row with these notes while the loan is open. */
  ghost predicate PickupDone(t: Tables, l: Id, notes: Option<string>, key: Key, f: Id, u: Tables) {
    if (PickupOf(l), key) !in t.records && LoanIsOpen(t, Some(l)) && f !in t.fulfillments
    then PickupAdded(t, u, f, l, notes) else u == t
  }

  /** What running the action of this card does, by what the card shows and what the slots hold. */
  ghost predicate ActionDone(t: Tables, g: Grip, card: PendingApproval, x: Execution, u: Tables) {
    var key := Approval(card.key);
    match card.kind
    case CommitIssueAction =>
      && g.terms.patronId.Some? && g.terms.holdingId.Some?
      && IssueDone(t, g.terms.patronId.value, g.terms.holdingId.value, g.terms, key, x, u)
    case TransitionAction =>
      && g.fulfillmentId.Some? && card.details.target.Some?
      && TransitionDone(t, g.fulfillmentId.value, card.details.target.value, key, u)
    case CancelIssueAction => g.loanId.Some? && CancelDone(t, g.loanId.value, key, x.clock.now, u)
    case CommitReturnAction => g.loanId.Some? && ReturnDone(t, g.terms.holdingId, g.loanId.value, key, x.clock.now, u)
    case SelectReturnAction => u == t
    case PickupAction => g.loanId.Some? && PickupDone(t, g.loanId.value, card.details.notes, key, x.newFulfillment, u)
  }

  /** ActionDone, folded; a proof that mentions Dealt(card) looks inside. */
  ghost predicate Done(t: Tables, g: Grip, card: PendingApproval, x: Execution, u: Tables) {
    forall d {:trigger Dealt(d)} :: Dealt(d) && d == card ==> ActionDone(t, g, d, x, u)
  }

  ghost predicate Dealt(card: PendingApproval) {
    true
  }

  lemma IssueIsDone(t: Tables, p: Id, h: Id, terms: CardTerms, key: nat, x: Execution)
    requires Inv(t)
    ensures var c := IssueCommand(p, h, terms.mode, terms.notes, key, x);
            IssueDone(t, p, h, terms, Approval(key), x, Step(t, c).tables)
  {
    if (CheckoutOf(h), Approval(key)) !in t.records {
      CommitIssueExactly(t, p, h, terms.mode, terms.notes, Approval(key), x.newLoan, x.newFulfillment, x.clock.now,
                         x.clock.today, x.crash);
    } else {
      assert Checkout(t, p, h, Approval(key), x.newLoan, x.clock.now, x.clock.today).tables == t;
    }
  }

  lemma TransitionIsDone(t: Tables, f: Id, target: FulfillmentStatus, key: Key)
    ensures TransitionDone(t, f, target, key, Step(t, DoTransition(f, target, key)).tables)
  {
    if (TransitionOf(f), key) !in t.records {
      TransitionExactly(t, f, target, key);
    }
  }

  lemma CancelIsDone(t: Tables, l: Id, key: Key, now: Time)
    requires Inv(t)
    ensures CancelDone(t, l, key, now, Step(t, DoCancelIssue(l, key, now)).tables)
  {
    if l in t.loans && Open(t.loans[l]) {
      CancelIssueExactly(t, l, key, now);
      if (ReturnOf(l), key) !in t.records {
        CancelIssueCloses(t, l, key, now);
      }
    }
  }

  lemma ReturnIsDone(t: Tables, ho: Option<Id>, l: Id, key: Key, now: Time)
    requires Inv(t)
    ensures ReturnDone(t, ho, l, key, now, Step(t, DoReturn(ho, Some(l), key, now)).tables)
  {
    if ho.Some? {
      if (ReturnOf(ho.value), key) !in t.records {
        ReturnByCopyExactly(t, ho.value, Some(l), key, now);
        if OpenLoansOf(t, ho.value) != {} {
          var m :| m in OpenLoansOf(t, ho.value);
          assert m in t.loans && t.loans[m].returnedAt == None && t.loans[m].holdingId == ho.value;
          assert TakenBack(t, Step(t, DoReturn(ho, Some(l), key, now)).tables,
                           ReturnHolding(t, ho, Some(l), key, now).result.value, now);
        }
      }
    } else if (ReturnOf(l), key) !in t.records {
      ReturnByLoanExactly(t, l, key, now);
    }
  }

  lemma PickupIsDone(t: Tables, l: Id, notes: Option<string>, key: Key, f: Id)
    ensures PickupDone(t, l, notes, key, f, Step(t, DoInitiatePickup(l, notes, key, f)).tables)
  {
    if (PickupOf(l), key) !in t.records {
      InitiatePickupExactly(t, l, notes, key, f);
    }
  }

  /** The card shows the status or the notes that the slots hold. */
  predicate AgreesWith(card: PendingApproval, g: Grip) {
    && (card.kind == TransitionAction ==> card.details.target == Some(g.target))
    && (card.kind == PickupAction ==> card.details.notes == g.terms.notes)
  }

  /** The command of a card does what the card is for. */
  lemma CommandDoes(t: Tables, g: Grip, card: PendingApproval, x: Execution, u: Tables)
    requires Sane(t) && AgreesWith(card, g)
    requires CommandFrom(g, card, x).Some? && Ran(t, CommandFrom(g, card, x).value, u)
    ensures ActionDone(t, g, card, x, u)
  {
    SaneLibrary(t);
    var c := CommandFrom(g, card, x).value;
    assert Unrolled(c);
    match card.kind
    case CommitIssueAction => IssueIsDone(t, c.patron, c.holding, g.terms, card.key, x);
    case TransitionAction => TransitionIsDone(t, c.fulfillment, c.target, c.key);
    case CancelIssueAction => CancelIsDone(t, c.loan, c.key, c.now);
    case CommitReturnAction => ReturnIsDone(t, c.holdingOpt, g.loanId.value, c.key, c.now);
    case SelectReturnAction =>
    case PickupAction => PickupIsDone(t, c.loan, c.notes, c.key, c.newFulfillment);
  }
}
