/**
 What every command keeps, and what follows for every serial run.
 A command has one of five effects on loans and holdings; each law is proved once per effect.
 */
module Invariants {
  import opened Domain
  import opened Circulation

  // ---- the invariant ----

  /** On loan exactly when there is an open loan, and never two of them. */
  ghost predicate LoanInv(t: Tables) {
    && (forall l | l in t.loans :: t.loans[l].holdingId in t.holdings)
    && (forall l | l in t.loans && Open(t.loans[l]) :: t.holdings[t.loans[l].holdingId].status == OnLoan)
    && (forall h | h in t.holdings && t.holdings[h].status == OnLoan :: OpenLoansOf(t, h) != {})
    && OneOpenLoanEach(t)
  }

  /** No copy has two open loans. */
  ghost predicate OneOpenLoanEach(t: Tables) {
    forall l, m | l in t.loans && m in t.loans && Open(t.loans[l]) && Open(t.loans[m])
                  && t.loans[l].holdingId == t.loans[m].holdingId :: l == m
  }

  ghost predicate FulfillmentOk(t: Tables, row: Fulfillment) {
    && row.loanId.Some?
    && row.loanId.value in t.loans
    && row.holdingId == t.loans[row.loanId.value].holdingId
    && row.status != NotRequired
    && (row.direction == Issue ==> row.mode != Desk)
    && (row.direction == Direction.Return ==> row.mode == PickupPoint)
  }

  /** Deliveries belong to their loan's copy, and a loan has at most one ISSUE delivery. */
  ghost predicate FulfillmentInv(t: Tables) {
    && (forall f | f in t.fulfillments :: FulfillmentOk(t, t.fulfillments[f]))
    && (forall f, g | f in t.fulfillments && g in t.fulfillments && t.fulfillments[f].direction == Issue
                      && t.fulfillments[g].direction == Issue
                      && t.fulfillments[f].loanId == t.fulfillments[g].loanId :: f == g)
  }

  ghost predicate RecordOk(t: Tables, scope: Scope, r: Record) {
    match scope
    case CheckoutOf(h) =>
      && r.status == 201 && r.payload.CheckoutPayload? && r.payload.holding == h
      && r.body in t.loans && t.loans[r.body].holdingId == h && t.loans[r.body].patronId == r.payload.patron
    case ReturnOf(x) =>
      && r.status == 200 && r.payload.ReturnPayload?
      && (r.payload.holdingOpt.Some? || r.payload.loanOpt.Some?)
      && ReturnScope(r.payload.holdingOpt, r.payload.loanOpt) == scope
      && r.body in t.loans && !Open(t.loans[r.body])
      && (if r.payload.holdingOpt.Some? then t.loans[r.body].holdingId == x else r.body == x)
    case TransitionOf(f) =>
      && r.status == 200 && r.payload.TransitionPayload? && r.payload.fulfillment == f
      && r.body == f && f in t.fulfillments
    case PickupOf(l) =>
      && r.status == 201 && r.payload.PickupPayload? && r.payload.loan == l
      && r.body in t.fulfillments && t.fulfillments[r.body].direction == Direction.Return
      && t.fulfillments[r.body].loanId == Some(l)
  }

  /** Stored answers still mean what they said; in particular a return record names a closed loan. */
  ghost predicate RecordInv(t: Tables) {
    forall s, k | (s, k) in t.records :: RecordOk(t, s, t.records[(s, k)])
  }

  /** The blocked flag of a patron says that some active block row exists. */
  ghost predicate BlockInv(a: Library) {
    && (forall b | b in a.blocks :: a.blocks[b].patronId in a.patrons)
    && (forall p | p in a.patrons :: a.patrons[p].blocked <==> ActiveBlocks(a, p) != {})
  }

  ghost predicate Inv(t: Tables) {
    LoanInv(t) && FulfillmentInv(t) && RecordInv(t) && BlockInv(t.lib)
  }

  lemma EmptyInv()
    ensures Inv(EMPTY)
  {
  }

  // ---- effects on loans and holdings ----

  datatype Effect = Quiet | Opened(loan: Id) | Closed(loan: Id) | Added(holding: Id) | Pulled(holding: Id)

  ghost predicate HasEffect(t: Tables, u: Tables, e: Effect) {
    match e
    case Quiet => u.loans == t.loans && u.holdings == t.holdings
    case Opened(l) =>
      && l !in t.loans && l in u.loans && Open(u.loans[l])
      && u.loans == t.loans[l := u.loans[l]]
      && var h := u.loans[l].holdingId;
      && h in t.holdings && t.holdings[h].status == Available && OpenLoansOf(t, h) == {}
      && u.holdings == t.holdings[h := t.holdings[h].(status := OnLoan)]
    case Closed(l) =>
      && l in t.loans && Open(t.loans[l]) && l in u.loans && !Open(u.loans[l])
      && u.loans == t.loans[l := t.loans[l].(returnedAt := u.loans[l].returnedAt)]
      && var h := t.loans[l].holdingId;
      && h in t.holdings
      && u.holdings == t.holdings[h := t.holdings[h].(status := Available)]
    case Added(h) =>
      && h !in t.holdings && h in u.holdings && u.holdings[h].status == Available
      && u.holdings == t.holdings[h := u.holdings[h]] && u.loans == t.loans
    case Pulled(h) =>
      && h in t.holdings && t.holdings[h].status != OnLoan
      && u.holdings == t.holdings[h := t.holdings[h].(status := Withdrawn)] && u.loans == t.loans
  }

  lemma TargetFacts(t: Tables, ho: Option<Id>, lo: Option<Id>)
    requires ho.Some? || lo.Some?
    requires ReturnTarget(t, ho, lo).Ok?
    ensures var l := ReturnTarget(t, ho, lo).value;
            && l in t.loans && t.loans[l].holdingId in t.holdings
            && (ho.Some? ==> Open(t.loans[l]) && t.loans[l].holdingId == ho.value)
            && (ho.None? ==> l == lo.value)
  {
  }

  lemma CloseEffect(t: Tables, l: Id, now: Time, records: Records)
    requires l in t.loans && Open(t.loans[l]) && t.loans[l].holdingId in t.holdings
    ensures HasEffect(t, CloseLoan(t, l, t.loans[l].holdingId, now).(records := records), Closed(l))
  {
  }

  lemma FreshReturnEffect(t: Tables, ho: Option<Id>, lo: Option<Id>, key: Key, now: Time) returns (e: Effect)
    requires ho.Some? || lo.Some?
    ensures var o := FreshReturn(t, ho, lo, key, now);
            HasEffect(t, o.tables, e) && (e.Quiet? || ClosesNow(o, e, now))
  {
    var target := ReturnTarget(t, ho, lo);
    e := Quiet;
    if target.Ok? {
      TargetFacts(t, ho, lo);
      if Open(t.loans[target.value]) {
        e := Closed(target.value);
        CloseEffect(t, target.value, now, FreshReturn(t, ho, lo, key, now).tables.records);
      }
    }
  }

  ghost predicate ClosesNow(o: Outcome, e: Effect, now: Time) {
    && e.Closed? && o.result == Ok(e.loan)
    && e.loan in o.tables.loans && o.tables.loans[e.loan].returnedAt == Some(now)
  }

  lemma ReturnEffect(t: Tables, ho: Option<Id>, lo: Option<Id>, key: Key, now: Time) returns (e: Effect)
    ensures var o := ReturnHolding(t, ho, lo, key, now);
            HasEffect(t, o.tables, e) && (e.Quiet? || ClosesNow(o, e, now))
  {
    if (ho.Some? || lo.Some?) && (ReturnScope(ho, lo), key) !in t.records {
      e := FreshReturnEffect(t, ho, lo, key, now);
    } else {
      e := Quiet;
    }
  }

  /**
   A new open loan of this copy for this patron, under the rule set mapped to the patron's type, and due that rule set's
   loan period after today.
   */
  ghost predicate NewLoanOk(t: Tables, u: Tables, l: Id, p: Id, h: Id, now: Time, today: Day) {
    && l !in t.loans && l in u.loans && p in t.lib.patrons && t.lib.patrons[p].typeId in t.lib.patronTypes
    && var n := u.loans[l];
    && n.patronId == p && n.holdingId == h && n.checkoutAt == now && n.returnedAt == None
    && t.lib.patronTypes[t.lib.patrons[p].typeId] == Some(n.ruleSetId) && n.ruleSetId in t.lib.ruleSets
    && n.dueDate == today + t.lib.ruleSets[n.ruleSetId].loanPeriodDays
  }

  /** The loan came from a checkout that passed every rule and is stamped with its clock. */
  ghost predicate OpensNow(t: Tables, u: Tables, e: Effect, p: Id, h: Id, now: Time, today: Day) {
    && e.Opened?
    && CheckoutRefusal(t, p, h, e.loan).None?
    && NewLoanOk(t, u, e.loan, p, h, now, today)
  }

  lemma CheckoutEffect(t: Tables, p: Id, h: Id, key: Key, newLoan: Id, now: Time, today: Day) returns (e: Effect)
    ensures var o := Checkout(t, p, h, key, newLoan, now, today);
            && HasEffect(t, o.tables, e)
            && (e.Quiet? || (e == Opened(newLoan) && OpensNow(t, o.tables, e, p, h, now, today)))
            && (e.Quiet? <==> (CheckoutOf(h), key) in t.records || CheckoutRefusal(t, p, h, newLoan).Some?)
  {
    e := if (CheckoutOf(h), key) !in t.records && CheckoutRefusal(t, p, h, newLoan).None? then Opened(newLoan)
         else Quiet;
  }

  lemma CommitIssueEffect(t: Tables, p: Id, h: Id, mode: Mode, notes: Option<string>, key: Key,
                          newLoan: Id, newFulfillment: Id, now: Time, today: Day, crash: bool) returns (e: Effect)
    ensures var o := CommitIssue(t, p, h, mode, notes, key, newLoan, newFulfillment, now, today, crash);
            && HasEffect(t, o.tables, e)
            && (e.Quiet? || (e == Opened(newLoan) && OpensNow(t, o.tables, e, p, h, now, today)))
  {
    var loan := Checkout(t, p, h, key, newLoan, now, today);
    var o := CommitIssue(t, p, h, mode, notes, key, newLoan, newFulfillment, now, today, crash);
    if o.tables == t {
      e := Quiet;
    } else {
      assert o.tables.loans == loan.tables.loans && o.tables.holdings == loan.tables.holdings;
      e := CheckoutEffect(t, p, h, key, newLoan, now, today);
    }
  }

  lemma CancelIssueEffect(t: Tables, l: Id, key: Key, now: Time) returns (e: Effect)
    ensures var o := CancelIssue(t, l, key, now);
            HasEffect(t, o.tables, e) && (e.Quiet? || ClosesNow(o, e, now))
  {
    var o := CancelIssue(t, l, key, now);
    if o.tables == t {
      e := Quiet;
    } else {
      e := ReturnEffect(CancelIssueFulfillments(t, l), None, Some(l), key, now);
    }
  }

  lemma ConfirmPickupEffect(t: Tables, f: Id, key: Key, now: Time) returns (e: Effect)
    ensures var o := ConfirmPickup(t, f, key, now);
            HasEffect(t, o.tables, e) && (e.Quiet? || ClosesNow(o, e, now))
  {
    var o := ConfirmPickup(t, f, key, now);
    if o.tables == t {
      e := Quiet;
    } else {
      e := ReturnEffect(WithStatus(t, f, Completed), None, t.fulfillments[f].loanId, key, now);
    }
  }

  /** The effect of a command, with what an opened or closed loan is stamped with. */
  ghost predicate StepHas(t: Tables, c: Command, o: Outcome, e: Effect) {
    && HasEffect(t, o.tables, e)
    && (e.Opened? ==>
          && (c.DoCheckout? || c.DoCommitIssue?) && e.loan == c.newLoan
          && OpensNow(t, o.tables, e, c.patron, c.holding, c.now, c.today))
    && (e.Closed? ==> (c.DoReturn? || c.DoCancelIssue? || c.DoConfirmPickup?) && ClosesNow(o, e, c.now))
    && (e.Added? ==> c.DoAddHolding?)
    && (e.Pulled? ==> c.DoWithdraw?)
  }

  lemma OpeningStep(t: Tables, c: Command) returns (e: Effect)
    requires c.DoCheckout? || c.DoCommitIssue?
    ensures StepHas(t, c, Step(t, c), e)
  {
    if c.DoCheckout? {
      e := CheckoutEffect(t, c.patron, c.holding, c.key, c.newLoan, c.now, c.today);
    } else {
      e := CommitIssueEffect(t, c.patron, c.holding, c.mode, c.notes, c.key, c.newLoan, c.newFulfillment, c.now,
                             c.today, c.crash);
    }
  }

  lemma ClosingStep(t: Tables, c: Command) returns (e: Effect)
    requires c.DoReturn? || c.DoCancelIssue? || c.DoConfirmPickup?
    ensures StepHas(t, c, Step(t, c), e)
  {
    if c.DoReturn? {
      e := ReturnEffect(t, c.holdingOpt, c.loanOpt, c.key, c.now);
    } else if c.DoCancelIssue? {
      e := CancelIssueEffect(t, c.loan, c.key, c.now);
    } else {
      e := ConfirmPickupEffect(t, c.fulfillment, c.key, c.now);
    }
  }

  lemma ShelfStep(t: Tables, c: Command) returns (e: Effect)
    requires c.DoAddHolding? || c.DoWithdraw?
    ensures StepHas(t, c, Step(t, c), e)
  {
    e := if Step(t, c).result.Err? then Quiet else if c.DoAddHolding? then Added(c.newHolding) else Pulled(c.holding);
  }

  lemma QuietStep(t: Tables, c: Command)
    requires c.DoInitiatePickup? || c.DoTransition? || c.Administer?
    ensures StepHas(t, c, Step(t, c), Quiet)
  {
  }

  /** Every command opens one loan, closes one loan, adds one copy, pulls one copy, or leaves both tables alone. */
  lemma StepEffect(t: Tables, c: Command) returns (e: Effect)
    ensures StepHas(t, c, Step(t, c), e)
  {
    if c.DoCheckout? || c.DoCommitIssue? {
      e := OpeningStep(t, c);
    } else if c.DoReturn? || c.DoCancelIssue? || c.DoConfirmPickup? {
      e := ClosingStep(t, c);
    } else if c.DoAddHolding? || c.DoWithdraw? {
      e := ShelfStep(t, c);
    } else {
      e := Quiet;
      QuietStep(t, c);
    }
  }

  /** After a loan is opened it is the only open loan of its copy. */
  lemma OpenedIsAlone(t: Tables, u: Tables, l: Id, k: Id)
    requires LoanInv(t) && HasEffect(t, u, Opened(l))
    requires k in u.loans && Open(u.loans[k]) && u.loans[k].holdingId == u.loans[l].holdingId
    ensures k == l
  {
    var before := OpenLoansOf(t, u.loans[l].holdingId);
    assert k == l || k in before;
  }

  lemma OnLoanStaysWitnessed(t: Tables, u: Tables, e: Effect, h: Id)
    requires LoanInv(t) && HasEffect(t, u, e)
    requires h in u.holdings && u.holdings[h].status == OnLoan
    ensures OpenLoansOf(u, h) != {}
  {
    if e.Opened? && u.loans[e.loan].holdingId == h {
      assert e.loan in OpenLoansOf(u, h);
    } else {
      assert h in t.holdings && t.holdings[h].status == OnLoan;
      var l :| l in OpenLoansOf(t, h);
      assert l in OpenLoansOf(u, h);
    }
  }

  /** The invariant on loans survives each effect. */
  lemma EffectKeepsLoanInv(t: Tables, u: Tables, e: Effect)
    requires LoanInv(t) && HasEffect(t, u, e)
    ensures LoanInv(u)
  {
    forall h | h in u.holdings && u.holdings[h].status == OnLoan
      ensures OpenLoansOf(u, h) != {}
    {
      OnLoanStaysWitnessed(t, u, e, h);
    }
    if e.Opened? {
      forall k | k in u.loans && Open(u.loans[k]) && u.loans[k].holdingId == u.loans[e.loan].holdingId
        ensures k == e.loan
      {
        OpenedIsAlone(t, u, e.loan, k);
      }
    }
  }
}
