/**
 How rows evolve: loans keep their terms and never reopen, deliveries walk the status graph,
 stored answers are never lost. With these, the full invariant holds in every serial run.
 */
module History {
  import opened Domain
  import opened Circulation
  import opened Invariants

  // ---- loans ----

  ghost predicate SameTerms(n: Loan, m: Loan) {
    n.(returnedAt := None) == m.(returnedAt := None)
  }

  /** Loans are never deleted, keep their terms, and once closed never change again. */
  ghost predicate LoansGrow(t: Tables, u: Tables) {
    forall l | l in t.loans ::
      l in u.loans && SameTerms(t.loans[l], u.loans[l]) && (!Open(t.loans[l]) ==> u.loans[l] == t.loans[l])
  }

  lemma EffectGrowsLoans(t: Tables, u: Tables, e: Effect)
    requires HasEffect(t, u, e)
    ensures LoansGrow(t, u)
  {
  }

  // ---- deliveries ----

  ghost predicate SameDelivery(a: Fulfillment, b: Fulfillment) {
    a.(status := Requested) == b.(status := Requested)
  }

  /** One status change: an edge of the graph; a return pick-up may also be forced to completed. */
  ghost predicate MoveOk(t: Tables, a: Fulfillment, b: Fulfillment) {
    || a.status == b.status
    || (b.status in AllowedNext(a.status) && (b.status == Completed ==> RequireOpenLoan(t, a.loanId).None?))
    || (a.direction == Direction.Return && b.status == Completed && RequireOpenLoan(t, a.loanId).None?)
  }

  ghost predicate NewDeliveryOk(t: Tables, u: Tables, row: Fulfillment) {
    && FulfillmentOk(u, row) && row.status == Requested && Open(u.loans[row.loanId.value])
    && (row.direction == Issue ==> row.loanId.value !in t.loans)
  }

  ghost predicate DeliveriesMove(t: Tables, u: Tables) {
    && (forall f | f in t.fulfillments ::
          && f in u.fulfillments
          && SameDelivery(t.fulfillments[f], u.fulfillments[f])
          && MoveOk(t, t.fulfillments[f], u.fulfillments[f]))
    && (forall f | f in u.fulfillments && f !in t.fulfillments :: NewDeliveryOk(t, u, u.fulfillments[f]))
    && (forall f, g | f in u.fulfillments && f !in t.fulfillments && g in u.fulfillments && g !in t.fulfillments ::
        f == g)
  }

  lemma OneAdded(t: Tables, u: Tables, f: Id, row: Fulfillment)
    requires f !in t.fulfillments && u.fulfillments == t.fulfillments[f := row] && NewDeliveryOk(t, u, row)
    ensures DeliveriesMove(t, u)
  {
  }

  lemma OneMoved(t: Tables, u: Tables, f: Id, s: FulfillmentStatus)
    requires f in t.fulfillments && u.fulfillments == t.fulfillments[f := t.fulfillments[f].(status := s)]
    requires MoveOk(t, t.fulfillments[f], u.fulfillments[f])
    ensures DeliveriesMove(t, u)
  {
  }

  /** The only new delivery a command can add for an issue belongs to the loan it has just opened. */
  lemma CommitIssueShape(t: Tables, c: Command)
    requires c.DoCommitIssue?
    ensures var u := Step(t, c).tables;
            || u.fulfillments == t.fulfillments
            || (&& c.newFulfillment !in t.fulfillments && c.newLoan !in t.loans && c.mode != Desk
                && c.newLoan in u.loans && Open(u.loans[c.newLoan]) && u.loans[c.newLoan].holdingId == c.holding
                && u.fulfillments == t.fulfillments[c.newFulfillment :=
                     Fulfillment(Some(c.newLoan), c.holding, Issue, c.mode, Requested, c.notes)])
  {
    if (CheckoutOf(c.holding), c.key) !in t.records {
      var e := CheckoutEffect(t, c.patron, c.holding, c.key, c.newLoan, c.now, c.today);
    }
  }

  lemma CommitIssueMoves(t: Tables, u: Tables, c: Command)
    requires c.DoCommitIssue? && u == Step(t, c).tables
    ensures DeliveriesMove(t, u)
  {
    CommitIssueShape(t, c);
    if u.fulfillments != t.fulfillments {
      OneAdded(t, u, c.newFulfillment, u.fulfillments[c.newFulfillment]);
    }
  }

  lemma CancelledMove(t: Tables, u: Tables, l: Id)
    requires FulfillmentInv(t)
    requires u.fulfillments == CancelIssueFulfillments(t, l).fulfillments
    ensures DeliveriesMove(t, u)
  {
  }

  lemma CancelIssueShape(t: Tables, c: Command)
    requires c.DoCancelIssue?
    ensures var u := Step(t, c).tables;
            u.fulfillments == t.fulfillments || u.fulfillments == CancelIssueFulfillments(t, c.loan).fulfillments
  {
  }

  lemma CancelIssueMoves(t: Tables, u: Tables, c: Command)
    requires c.DoCancelIssue? && FulfillmentInv(t) && u == Step(t, c).tables
    ensures DeliveriesMove(t, u)
  {
    CancelIssueShape(t, c);
    if u.fulfillments != t.fulfillments {
      CancelledMove(t, u, c.loan);
    }
  }

  lemma InitiatePickupMoves(t: Tables, u: Tables, c: Command)
    requires c.DoInitiatePickup? && LoanInv(t) && u == Step(t, c).tables
    ensures DeliveriesMove(t, u)
  {
    if u.fulfillments != t.fulfillments {
      OneAdded(t, u, c.newFulfillment, u.fulfillments[c.newFulfillment]);
    }
  }

  lemma ConfirmPickupShape(t: Tables, c: Command)
    requires c.DoConfirmPickup?
    ensures var u := Step(t, c).tables;
            || u.fulfillments == t.fulfillments
            || (&& c.fulfillment in t.fulfillments
                && t.fulfillments[c.fulfillment].direction == Direction.Return
                && RequireOpenLoan(t, t.fulfillments[c.fulfillment].loanId).None?
                && u.fulfillments == WithStatus(t, c.fulfillment, Completed).fulfillments)
  {
    var o := Step(t, c);
    if o.tables.fulfillments != t.fulfillments {
      var l := t.fulfillments[c.fulfillment].loanId.value;
      TargetFacts(WithStatus(t, c.fulfillment, Completed), None, Some(l));
    }
  }

  lemma ConfirmPickupMoves(t: Tables, u: Tables, c: Command)
    requires c.DoConfirmPickup? && u == Step(t, c).tables
    ensures DeliveriesMove(t, u)
  {
    ConfirmPickupShape(t, c);
    if u.fulfillments != t.fulfillments {
      OneMoved(t, u, c.fulfillment, Completed);
    }
  }

  lemma TransitionMoves(t: Tables, u: Tables, c: Command)
    requires c.DoTransition? && u == Step(t, c).tables
    ensures DeliveriesMove(t, u)
  {
    if u.fulfillments != t.fulfillments {
      OneMoved(t, u, c.fulfillment, c.target);
    }
  }

  lemma OtherMoves(t: Tables, c: Command)
    requires c.DoCheckout? || c.DoReturn? || c.DoAddHolding? || c.DoWithdraw? || c.Administer?
    ensures Step(t, c).tables.fulfillments == t.fulfillments
  {
  }

  lemma StepMoves(t: Tables, c: Command)
    requires LoanInv(t) && FulfillmentInv(t)
    ensures DeliveriesMove(t, Step(t, c).tables)
  {
    var u := Step(t, c).tables;
    match c {
      case DoCommitIssue(_, _, _, _, _, _, _, _, _, _) => CommitIssueMoves(t, u, c);
      case DoCancelIssue(_, _, _) => CancelIssueMoves(t, u, c);
      case DoInitiatePickup(_, _, _, _) => InitiatePickupMoves(t, u, c);
      case DoConfirmPickup(_, _, _) => ConfirmPickupMoves(t, u, c);
      case DoTransition(_, _, _) => TransitionMoves(t, u, c);
      case _ => OtherMoves(t, c);
    }
  }

  lemma MovesKeepFulfillmentInv(t: Tables, u: Tables)
    requires FulfillmentInv(t) && LoansGrow(t, u) && DeliveriesMove(t, u)
    ensures FulfillmentInv(u)
  {
  }

  // ---- stored answers ----

  /** Stored answers are never lost or changed, and a new one is true of the new tables. */
  ghost predicate RecordsGrow(t: Tables, u: Tables) {
    && (forall s, k | (s, k) in t.records :: (s, k) in u.records && u.records[(s, k)] == t.records[(s, k)])
    && (forall s, k | (s, k) in u.records && (s, k) !in t.records :: RecordOk(u, s, u.records[(s, k)]))
  }

  lemma OneStored(t: Tables, u: Tables, s: Scope, k: Key, r: Record)
    requires u.records == StoreResponse(t.records, s, k, r)
    requires (s, k) in t.records || RecordOk(u, s, r)
    ensures RecordsGrow(t, u)
  {
  }

  lemma FreshReturnRecord(t: Tables, ho: Option<Id>, lo: Option<Id>, key: Key, now: Time)
    requires ho.Some? || lo.Some?
    requires FreshReturn(t, ho, lo, key, now).result.Ok?
    ensures var o := FreshReturn(t, ho, lo, key, now);
            var r := Record(ReturnPayload(ho, lo), 200, o.result.value);
            o.tables.records == StoreResponse(t.records, ReturnScope(ho, lo), key, r)
            && RecordOk(o.tables, ReturnScope(ho, lo), r)
  {
    TargetFacts(t, ho, lo);
  }

  lemma ReturnRecords(t: Tables, ho: Option<Id>, lo: Option<Id>, key: Key, now: Time)
    ensures RecordsGrow(t, ReturnHolding(t, ho, lo, key, now).tables)
  {
    var o := ReturnHolding(t, ho, lo, key, now);
    if o.tables != t {
      FreshReturnRecord(t, ho, lo, key, now);
      OneStored(t, o.tables, ReturnScope(ho, lo), key, Record(ReturnPayload(ho, lo), 200, o.result.value));
    }
  }

  lemma CheckoutRecords(t: Tables, p: Id, h: Id, key: Key, newLoan: Id, now: Time, today: Day)
    ensures RecordsGrow(t, Checkout(t, p, h, key, newLoan, now, today).tables)
  {
    var o := Checkout(t, p, h, key, newLoan, now, today);
    if o.tables != t {
      OneStored(t, o.tables, CheckoutOf(h), key, Record(CheckoutPayload(p, h), 201, newLoan));
    }
  }

  lemma SameBooks(t: Tables, v: Tables, u: Tables)
    requires RecordsGrow(v, u) && v.records == t.records
    ensures RecordsGrow(t, u)
  {
  }

  lemma CommitIssueRecords(t: Tables, u: Tables, c: Command)
    requires c.DoCommitIssue? && u == Step(t, c).tables
    ensures RecordsGrow(t, u)
  {
    var v := Checkout(t, c.patron, c.holding, c.key, c.newLoan, c.now, c.today).tables;
    if u != t {
      assert u.records == v.records && u.loans == v.loans;
      if (CheckoutOf(c.holding), c.key) !in t.records {
        OneStored(t, u, CheckoutOf(c.holding), c.key, Record(CheckoutPayload(c.patron, c.holding), 201, c.newLoan));
      }
    }
  }

  lemma CancelIssueRecords(t: Tables, u: Tables, c: Command)
    requires c.DoCancelIssue? && u == Step(t, c).tables
    ensures RecordsGrow(t, u)
  {
    if u != t {
      var v := CancelIssueFulfillments(t, c.loan);
      ReturnRecords(v, None, Some(c.loan), c.key, c.now);
      SameBooks(t, v, u);
    }
  }

  lemma ConfirmPickupRecords(t: Tables, u: Tables, c: Command)
    requires c.DoConfirmPickup? && u == Step(t, c).tables
    ensures RecordsGrow(t, u)
  {
    if u != t {
      var v := WithStatus(t, c.fulfillment, Completed);
      ReturnRecords(v, None, t.fulfillments[c.fulfillment].loanId, c.key, c.now);
      SameBooks(t, v, u);
    }
  }

  lemma PickupRecords(t: Tables, u: Tables, c: Command)
    requires c.DoInitiatePickup?
    requires u == Step(t, c).tables
    ensures RecordsGrow(t, u)
  {
    if u != t {
      OneStored(t, u, PickupOf(c.loan), c.key, Record(PickupPayload(c.loan, c.notes), 201, c.newFulfillment));
    }
  }

  lemma TransitionRecords(t: Tables, u: Tables, c: Command)
    requires c.DoTransition?
    requires u == Step(t, c).tables
    ensures RecordsGrow(t, u)
  {
    if u != t {
      OneStored(t, u, TransitionOf(c.fulfillment), c.key,
                Record(TransitionPayload(c.fulfillment, c.target), 200, c.fulfillment));
    }
  }

  lemma StepRecords(t: Tables, c: Command)
    ensures RecordsGrow(t, Step(t, c).tables)
  {
    var u := Step(t, c).tables;
    match c {
      case DoCheckout(p, h, key, n, now, today) => CheckoutRecords(t, p, h, key, n, now, today);
      case DoReturn(ho, lo, key, now) => ReturnRecords(t, ho, lo, key, now);
      case DoCommitIssue(_, _, _, _, _, _, _, _, _, _) => CommitIssueRecords(t, u, c);
      case DoCancelIssue(_, _, _) => CancelIssueRecords(t, u, c);
      case DoConfirmPickup(_, _, _) => ConfirmPickupRecords(t, u, c);
      case DoInitiatePickup(_, _, _, _) => PickupRecords(t, u, c);
      case DoTransition(_, _, _) => TransitionRecords(t, u, c);
      case _ =>
    }
  }

  /** A stored answer stays true while loans and deliveries only grow. */
  lemma RecordStaysOk(t: Tables, u: Tables, s: Scope, r: Record)
    requires LoansGrow(t, u) && DeliveriesMove(t, u) && RecordOk(t, s, r)
    ensures RecordOk(u, s, r)
  {
  }

  lemma GrowthKeepsRecordInv(t: Tables, u: Tables)
    requires LoansGrow(t, u) && DeliveriesMove(t, u) && RecordsGrow(t, u) && RecordInv(t)
    ensures RecordInv(u)
  {
    forall s, k | (s, k) in u.records
      ensures RecordOk(u, s, u.records[(s, k)])
    {
      if (s, k) in t.records {
        RecordStaysOk(t, u, s, t.records[(s, k)]);
      }
    }
  }

  // ---- patrons and blocks ----

  lemma SetBlockKeepsBlockInv(a: Library, p: Id, b: Id, startAt: Time, endAt: Option<Time>)
    requires BlockInv(a)
    ensures BlockInv(SetBlock(a, p, b, startAt, endAt).lib)
  {
    var after := SetBlock(a, p, b, startAt, endAt).lib;
    if after != a {
      assert b in ActiveBlocks(after, p);
      forall q | q in a.patrons && q != p
        ensures ActiveBlocks(after, q) == ActiveBlocks(a, q)
      {
      }
    }
  }

  lemma ActiveAfterClearing(a: Library, after: Library, b: Id, q: Id)
    requires b in a.blocks && after.blocks == a.blocks[b := a.blocks[b].(active := false)]
    ensures ActiveBlocks(after, q) == ActiveBlocks(a, q) - {b}
  {
  }

  lemma ClearBlockKeepsBlockInv(a: Library, p: Id, b: Id)
    requires BlockInv(a)
    ensures BlockInv(ClearBlock(a, p, b).lib)
  {
    var after := ClearBlock(a, p, b).lib;
    if after != a {
      forall q | q in a.patrons
        ensures after.patrons[q].blocked <==> ActiveBlocks(after, q) != {}
      {
        ActiveAfterClearing(a, after, b, q);
        if q != p {
          assert b !in ActiveBlocks(a, q);
          assert ActiveBlocks(a, q) - {b} == ActiveBlocks(a, q);
        }
      }
    }
  }

  lemma SameBlocksKeepBlockInv(a: Library, after: Library)
    requires BlockInv(a) && SameBlocks(a, after)
    ensures BlockInv(after)
  {
    forall p | p in after.patrons
      ensures ActiveBlocks(after, p) == ActiveBlocks(a, p)
    {
    }
  }

  lemma AdminKeepsBlockInv(a: Library, c: AdminCommand)
    requires BlockInv(a)
    ensures BlockInv(Admin(a, c).lib)
  {
    if c.DoSetBlock? {
      SetBlockKeepsBlockInv(a, c.patron, c.newBlock, c.startAt, c.endAt);
    } else if c.DoClearBlock? {
      ClearBlockKeepsBlockInv(a, c.patron, c.block);
    } else {
      SameBlocksKeepBlockInv(a, Admin(a, c).lib);
    }
  }

  // ---- every step and every run ----

  /** What one command keeps: the invariant, and the growth of loans, deliveries and stored answers. */
  lemma StepKeepsInv(t: Tables, c: Command)
    requires Inv(t)
    ensures var u := Step(t, c).tables;
            Inv(u) && LoansGrow(t, u) && DeliveriesMove(t, u) && RecordsGrow(t, u)
  {
    var u := Step(t, c).tables;
    var e := StepEffect(t, c);
    EffectKeepsLoanInv(t, u, e);
    EffectGrowsLoans(t, u, e);
    StepMoves(t, c);
    MovesKeepFulfillmentInv(t, u);
    StepRecords(t, c);
    GrowthKeepsRecordInv(t, u);
    if c.Administer? {
      AdminKeepsBlockInv(t.lib, c.admin);
    }
  }
}
