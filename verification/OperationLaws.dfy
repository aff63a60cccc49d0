/**
 What each operation does under a key that was never used for it, written out on the rows: exactly when it goes through,
 what it answers, what it leaves, and that a refusal leaves everything as it was.
 */
module OperationLaws {
  import opened Domain
  import opened Circulation
  import opened Invariants
  import opened History
  import opened Runs
  import opened Deliveries

  // ---- lending ----

  /** Every rule of a checkout, on the rows it looks at. */
  ghost predicate MayCheckOut(t: Tables, p: Id, h: Id, newLoan: Id) {
    && p in t.lib.patrons && t.lib.patrons[p].status == Active && !t.lib.patrons[p].blocked
    && h in t.holdings && t.holdings[h].circulating && t.holdings[h].status == Available
    && t.holdings[h].catalogId in t.lib.catalogs && t.lib.catalogs[t.holdings[h].catalogId].status == Published
    && t.lib.patrons[p].typeId in t.lib.patronTypes && newLoan !in t.loans
    && var rule := t.lib.patronTypes[t.lib.patrons[p].typeId];
    && rule.Some? && rule.value in t.lib.ruleSets
    && var held := set l | l in t.loans && t.loans[l].returnedAt == None && t.loans[l].patronId == p;
       |held| < t.lib.ruleSets[rule.value].maxActiveLoans
  }

  /** Besides the new loan and the status of its copy, loans, copies and library are as before. */
  ghost predicate OnlyLends(t: Tables, u: Tables, l: Id, h: Id) {
    && u.lib == t.lib && h in t.holdings && l in u.loans && u.loans == t.loans[l := u.loans[l]]
    && u.holdings == t.holdings[h := t.holdings[h].(status := OnLoan)]
  }

  lemma HeldIsOpenLoansBy(t: Tables, p: Id)
    ensures (set l | l in t.loans && t.loans[l].returnedAt == None && t.loans[l].patronId == p) == OpenLoansBy(t, p)
  {
  }

  lemma CheckoutAdmits(t: Tables, p: Id, h: Id, newLoan: Id)
    requires LoanInv(t)
    ensures CheckoutRefusal(t, p, h, newLoan).None? <==> MayCheckOut(t, p, h, newLoan)
  {
    HeldIsOpenLoansBy(t, p);
    assert forall l :: l in OpenLoansOf(t, h) ==> h in t.holdings && t.holdings[h].status == OnLoan;
  }

  /** A checkout goes through exactly when every rule holds, and then makes exactly the loan that the rules set. */
  lemma CheckoutExactly(t: Tables, p: Id, h: Id, key: Key, newLoan: Id, now: Time, today: Day)
    requires LoanInv(t) && (CheckoutOf(h), key) !in t.records
    ensures var o := Checkout(t, p, h, key, newLoan, now, today);
            if MayCheckOut(t, p, h, newLoan)
            then o.result == Ok(newLoan) && NewLoanOk(t, o.tables, newLoan, p, h, now, today)
                 && OnlyLends(t, o.tables, newLoan, h) && o.tables.fulfillments == t.fulfillments
            else o.result.Err? && o.tables == t
  {
    CheckoutAdmits(t, p, h, newLoan);
  }

  /** The deliveries after an issue: one more as asked for, unless it is at the desk or is cut short. */
  function AfterIssue(t: Tables, l: Id, h: Id, mode: Mode, notes: Option<string>, f: Id, crash: bool)
    : map<Id, Fulfillment>
  {
    if mode == Desk || crash || f in t.fulfillments then t.fulfillments
    else t.fulfillments[f := Fulfillment(Some(l), h, Issue, mode, Requested, notes)]
  }

  /**
   So does an issue; a crash or a taken delivery id leaves the loan without its delivery and answers with an error.
   */
  lemma CommitIssueExactly(t: Tables, p: Id, h: Id, mode: Mode, notes: Option<string>, key: Key, newLoan: Id,
                           newFulfillment: Id, now: Time, today: Day, crash: bool)
    requires LoanInv(t) && (CheckoutOf(h), key) !in t.records
    ensures var o := CommitIssue(t, p, h, mode, notes, key, newLoan, newFulfillment, now, today, crash);
            if MayCheckOut(t, p, h, newLoan)
            then NewLoanOk(t, o.tables, newLoan, p, h, now, today) && OnlyLends(t, o.tables, newLoan, h)
                 && o.tables.fulfillments == AfterIssue(t, newLoan, h, mode, notes, newFulfillment, crash)
                 && o.result == (if crash then Err(Unhandled)
                                 else if mode != Desk && newFulfillment in t.fulfillments then Err(Integrity)
                                 else Ok(newLoan))
            else o.result.Err? && o.tables == t
  {
    CheckoutAdmits(t, p, h, newLoan);
    HeldIsOpenLoansBy(t, p);
    CheckoutExactly(t, p, h, key, newLoan, now, today);
  }

  /** Each rule about the patron is named in the preview exactly when it is broken. */
  lemma PreviewNamesPatronRules(t: Tables, p: Id)
    ensures var v := PatronViolations(t, p);
            if p !in t.lib.patrons then v == [REF_P6]
            else
              var row := t.lib.patrons[p];
              && (forall rule | rule in v :: rule in {REF_P6, REF_B2, LN_R1, LN_R2})
              && (REF_P6 in v <==> row.status != Active)
              && (REF_B2 in v <==> row.blocked)
              && (LN_R1 in v <==> !HasRuleSet(t, row.typeId))
              && (LN_R2 in v <==>
                    && HasRuleSet(t, row.typeId)
                    && |OpenLoansBy(t, p)| >= t.lib.ruleSets[t.lib.patronTypes[row.typeId].value].maxActiveLoans)
  {
  }

  /** The patron type is mapped to a rule set that exists. */
  predicate HasRuleSet(t: Tables, ty: Id) {
    ty in t.lib.patronTypes && t.lib.patronTypes[ty].Some? && t.lib.patronTypes[ty].value in t.lib.ruleSets
  }

  /** Each rule about the copy is named in the preview exactly when it is broken. */
  lemma PreviewNamesCopyRules(t: Tables, h: Id)
    ensures var v := HoldingViolations(t, h);
            if h !in t.holdings then v == [LN_H1]
            else if t.holdings[h].catalogId !in t.lib.catalogs then v == [CAT_5]
            else
              var row := t.holdings[h];
              && (forall rule | rule in v :: rule in {XCAT_1, CAT_5, HLD_4, HLD_5})
              && (XCAT_1 in v <==> t.lib.catalogs[row.catalogId].status != Published)
              && (CAT_5 in v <==> XCAT_1 in v)
              && (HLD_4 in v <==> !row.circulating)
              && (HLD_5 in v <==> row.status != Available)
  {
  }

  // ---- taking back ----

  /**
   By copy, with or without a loan id: goes through exactly when the copy is out, and closes the loan that it is out
   on.
   */
  lemma ReturnByCopyExactly(t: Tables, h: Id, lo: Option<Id>, key: Key, now: Time)
    requires LoanInv(t) && (ReturnOf(h), key) !in t.records
    ensures var o := ReturnHolding(t, Some(h), lo, key, now);
            if exists l :: l in t.loans && t.loans[l].returnedAt == None && t.loans[l].holdingId == h
            then o.result.Ok? && o.result.value in t.loans && t.loans[o.result.value].returnedAt == None
                 && t.loans[o.result.value].holdingId == h && LoanClosed(t, o.tables, o.result.value, now)
                 && o.tables.fulfillments == t.fulfillments && o.tables.lib == t.lib
            else o == Refused(NotFound, t)
  {
    if l :| l in t.loans && t.loans[l].returnedAt == None && t.loans[l].holdingId == h {
      assert l in OpenLoansOf(t, h);
    }
  }

  /** By loan: goes through exactly when the loan exists, closes it when it is open, and answers with it. */
  lemma ReturnByLoanExactly(t: Tables, l: Id, key: Key, now: Time)
    requires LoanInv(t) && (ReturnOf(l), key) !in t.records
    ensures var o := ReturnHolding(t, None, Some(l), key, now);
            if l in t.loans
            then o.result == Ok(l) && o.tables.fulfillments == t.fulfillments && o.tables.lib == t.lib
                 && (if t.loans[l].returnedAt == None then LoanClosed(t, o.tables, l, now)
                     else o.tables.loans == t.loans && o.tables.holdings == t.holdings)
            else o == Refused(NotFound, t)
  {
  }

  // ---- deliveries ----

  /** Loans, copies and library are as before. */
  ghost predicate SameStock(t: Tables, u: Tables) {
    u.loans == t.loans && u.holdings == t.holdings && u.lib == t.lib
  }

  ghost predicate LoanIsOpen(t: Tables, l: Option<Id>) {
    l.Some? && l.value in t.loans && t.loans[l.value].returnedAt == None
  }

  /** The delivery has the status already, or may move to it: to completed only while its loan is open. */
  ghost predicate MayMove(t: Tables, f: Id, target: FulfillmentStatus) {
    && f in t.fulfillments
    && (|| t.fulfillments[f].status == target
        || (t.fulfillments[f].status == Requested && target in {Ready, Cancelled})
        || (t.fulfillments[f].status == Ready && target in {InTransit, Cancelled})
        || (t.fulfillments[f].status == InTransit && target == Cancelled)
        || (t.fulfillments[f].status in {Ready, InTransit} && target == Completed
            && LoanIsOpen(t, t.fulfillments[f].loanId)))
  }

  /** The delivery has this status, and nothing else changed. */
  ghost predicate StatusSet(t: Tables, u: Tables, f: Id, target: FulfillmentStatus) {
    && SameStock(t, u) && f in t.fulfillments
    && u.fulfillments == t.fulfillments[f := t.fulfillments[f].(status := target)]
  }

  /** A transition goes through exactly when the delivery may move, and then it has the status asked for. */
  lemma TransitionExactly(t: Tables, f: Id, target: FulfillmentStatus, key: Key)
    requires (TransitionOf(f), key) !in t.records
    ensures var o := Transition(t, f, target, key);
            if MayMove(t, f, target) then o.result == Ok(f) && StatusSet(t, o.tables, f, target)
            else o.result.Err? && o.tables == t
  {
    if f in t.fulfillments && t.fulfillments[f].status == target {
      assert t.fulfillments[f := t.fulfillments[f].(status := target)] == t.fulfillments;
    }
  }

  /** One requested pick-up row for this loan, of its copy and with these notes, and nothing else changed. */
  ghost predicate PickupAdded(t: Tables, u: Tables, f: Id, l: Id, notes: Option<string>) {
    && SameStock(t, u) && l in t.loans && f !in t.fulfillments
    && u.fulfillments == t.fulfillments[f :=
         Fulfillment(Some(l), t.loans[l].holdingId, Direction.Return, PickupPoint, Requested, notes)]
  }

  /**
   A pick-up request goes through exactly while the loan is open, and adds one requested row for it with these notes.
   */
  lemma InitiatePickupExactly(t: Tables, l: Id, notes: Option<string>, key: Key, newFulfillment: Id)
    requires (PickupOf(l), key) !in t.records
    ensures var o := InitiatePickup(t, l, notes, key, newFulfillment);
            if LoanIsOpen(t, Some(l)) && newFulfillment !in t.fulfillments
            then o.result == Ok(newFulfillment) && PickupAdded(t, o.tables, newFulfillment, l, notes)
            else o.result.Err? && o.tables == t
  {
  }

  /** What is stored after a command stays stored, and deliveries stay. */
  lemma AnswerLasts(t: Tables, c: Command, cs: seq<Command>)
    requires Inv(t)
    ensures Grows(Step(t, c).tables, Run(Step(t, c).tables, cs))
  {
    StepKeepsInv(t, c);
    RunGrows(Step(t, c).tables, cs);
  }

  lemma PickupBinds(t: Tables, l: Id, notes: Option<string>, key: Key, newFulfillment: Id)
    requires RecordInv(t) && InitiatePickup(t, l, notes, key, newFulfillment).result.Ok?
    ensures var o := InitiatePickup(t, l, notes, key, newFulfillment);
            && (PickupOf(l), key) in o.tables.records && o.result.value in o.tables.fulfillments
            && o.tables.records[(PickupOf(l), key)] == Record(PickupPayload(l, notes), 201, o.result.value)
  {
    if (PickupOf(l), key) in t.records {
      assert RecordOk(t, PickupOf(l), t.records[(PickupOf(l), key)]);
    }
  }

  lemma PickupRepeats(t: Tables, l: Id, notes: Option<string>, key: Key, newFulfillment: Id, f: Id,
                      was: Option<string>)
    requires (PickupOf(l), key) in t.records && f in t.fulfillments
    requires t.records[(PickupOf(l), key)] == Record(PickupPayload(l, was), 201, f)
    ensures InitiatePickup(t, l, notes, key, newFulfillment) ==
            Outcome(if notes == was then Ok(f) else Err(Conflict), t)
  {
  }

  /** After a pick-up request went through, repeating it gives the same row in every later state and changes nothing. */
  lemma PickupReplays(t: Tables, l: Id, notes: Option<string>, key: Key, newFulfillment: Id, cs: seq<Command>,
                      notes': Option<string>, newFulfillment': Id)
    requires Inv(t) && InitiatePickup(t, l, notes, key, newFulfillment).result.Ok?
    ensures var first := InitiatePickup(t, l, notes, key, newFulfillment);
            var later := Run(first.tables, cs);
            InitiatePickup(later, l, notes', key, newFulfillment') ==
              Outcome(if notes' == notes then first.result else Err(Conflict), later)
  {
    var first := InitiatePickup(t, l, notes, key, newFulfillment);
    PickupBinds(t, l, notes, key, newFulfillment);
    AnswerLasts(t, DoInitiatePickup(l, notes, key, newFulfillment), cs);
    PickupRepeats(Run(first.tables, cs), l, notes', key, newFulfillment', first.result.value, notes);
  }

  lemma TransitionRepeats(t: Tables, f: Id, target: FulfillmentStatus, key: Key, was: FulfillmentStatus)
    requires (TransitionOf(f), key) in t.records && f in t.fulfillments
    requires t.records[(TransitionOf(f), key)] == Record(TransitionPayload(f, was), 200, f)
    ensures Transition(t, f, target, key) == Outcome(if target == was then Ok(f) else Err(Conflict), t)
  {
  }

  lemma TransitionBinds(t: Tables, f: Id, target: FulfillmentStatus, key: Key)
    requires (TransitionOf(f), key) !in t.records
    requires Transition(t, f, target, key).result.Ok? && t.fulfillments[f].status != target
    ensures var u := Transition(t, f, target, key).tables;
            && f in u.fulfillments && (TransitionOf(f), key) in u.records
            && u.records[(TransitionOf(f), key)] == Record(TransitionPayload(f, target), 200, f)
  {
  }

  lemma TransitionLasts(t: Tables, f: Id, target: FulfillmentStatus, key: Key, cs: seq<Command>)
    requires Inv(t)
    ensures Grows(Transition(t, f, target, key).tables, Run(Transition(t, f, target, key).tables, cs))
  {
    AnswerLasts(t, DoTransition(f, target, key), cs);
  }

  /**
   After a transition moved its delivery, repeating it goes through in every later state and moves nothing, and another
   target under that key is refused.
   */
  lemma TransitionReplays(t: Tables, f: Id, target: FulfillmentStatus, key: Key, cs: seq<Command>,
                          target': FulfillmentStatus)
    requires Inv(t) && (TransitionOf(f), key) !in t.records
    requires Transition(t, f, target, key).result.Ok? && t.fulfillments[f].status != target
    ensures var later := Run(Transition(t, f, target, key).tables, cs);
            Transition(later, f, target', key) == Outcome(if target' == target then Ok(f) else Err(Conflict), later)
  {
    var first := Transition(t, f, target, key).tables;
    TransitionBinds(t, f, target, key);
    TransitionLasts(t, f, target, key, cs);
    TransitionRepeats(Run(first, cs), f, target', key, target);
  }

  // ---- copies ----

  /** A withdrawal goes through exactly for a copy that is not on loan, and then that copy is withdrawn. */
  lemma WithdrawExactly(t: Tables, h: Id)
    ensures var o := Withdraw(t, h);
            if h in t.holdings && t.holdings[h].status != OnLoan
            then o.result == Ok(h) && o.tables == t.(holdings := t.holdings[h := t.holdings[h].(status := Withdrawn)])
            else o.result.Err? && o.tables == t
  {
  }

  /**
   A copy is added exactly under an existing title with an unused barcode and accession number, and stands on the
   shelf.
   */
  lemma AddHoldingExactly(t: Tables, n: Id, c: Id, barcode: string, accession: string, circulating: bool)
    ensures var o := AddHolding(t, n, c, barcode, accession, circulating);
            if c in t.lib.catalogs && n !in t.holdings
               && forall h | h in t.holdings :: t.holdings[h].barcode != barcode && t.holdings[h].accession != accession
            then o == Outcome(Ok(n), t.(holdings :=
                                        t.holdings[n := Holding(c, barcode, accession, circulating, Available)]))
            else o.result.Err? && o.tables == t
  {
  }

  /** No accession number is on two copies. */
  ghost predicate UniqueAccessions(t: Tables) {
    forall h, g | h in t.holdings && g in t.holdings && t.holdings[h].accession == t.holdings[g].accession :: h == g
  }

  lemma EffectKeepsAccessions(t: Tables, u: Tables, e: Effect)
    requires UniqueAccessions(t) && HasEffect(t, u, e)
    requires e.Added? ==> forall h | h in t.holdings :: t.holdings[h].accession != u.holdings[e.holding].accession
    ensures UniqueAccessions(u)
  {
  }

  /** Over any serial run an accession number goes on naming one copy. */
  lemma {:induction false} AccessionsStayUnique(t: Tables, cs: seq<Command>)
    requires UniqueAccessions(t)
    ensures UniqueAccessions(Run(t, cs))
    decreases |cs|
  {
    if cs != [] {
      var c := cs[0];
      var u := Step(t, c).tables;
      var e := StepEffect(t, c);
      if e.Added? {
        AddHoldingExactly(t, c.newHolding, c.catalog, c.barcode, c.accession, c.circulating);
      }
      EffectKeepsAccessions(t, u, e);
      AccessionsStayUnique(u, cs[1..]);
    }
  }

  // ---- patrons ----

  /** No library card and no outside reference names two patrons. */
  ghost predicate UniqueNames(a: Library) {
    && (forall p, q | p in a.patrons && q in a.patrons && p != q && a.patrons[p].card.Some? ::
          a.patrons[q].card != a.patrons[p].card)
    && (forall p, q | p in a.patrons && q in a.patrons && p != q && a.patrons[p].reference.Some? ::
          a.patrons[q].reference != a.patrons[p].reference)
  }

  /** A patron is new or keeps each of card and reference, or nobody else carries what it gets. */
  lemma RowKeepsNames(a: Library, b: Library, p: Id)
    requires UniqueNames(a) && p in b.patrons && b.patrons == a.patrons[p := b.patrons[p]]
    requires (p in a.patrons && b.patrons[p].card == a.patrons[p].card) || !CardTaken(a, Some(p), b.patrons[p].card)
    requires (p in a.patrons && b.patrons[p].reference == a.patrons[p].reference)
             || !ReferenceTaken(a, Some(p), b.patrons[p].reference)
    ensures UniqueNames(b)
  {
  }

  lemma PatronsKeepNames(a: Library, c: AdminCommand)
    requires UniqueNames(a)
    requires c.DoRegisterPatron? || c.DoUpdatePatron? || c.DoSetPatronStatus? || c.DoSetBlock? || c.DoClearBlock?
    ensures UniqueNames(Admin(a, c).lib)
  {
    var b := Admin(a, c).lib;
    if b.patrons != a.patrons {
      RowKeepsNames(a, b, if c.DoRegisterPatron? then c.newPatron else c.patron);
    }
  }

  lemma AdminKeepsNames(a: Library, c: AdminCommand)
    requires UniqueNames(a)
    ensures UniqueNames(Admin(a, c).lib)
  {
    match c
    case DoRegisterPatron(_, _, _, _, _) => PatronsKeepNames(a, c);
    case DoUpdatePatron(_, _, _, _, _) => PatronsKeepNames(a, c);
    case DoSetPatronStatus(_, _) => PatronsKeepNames(a, c);
    case DoSetBlock(_, _, _, _) => PatronsKeepNames(a, c);
    case DoClearBlock(_, _) => PatronsKeepNames(a, c);
    case _ =>
  }

  /** Over any serial run a library card and an outside reference go on naming one patron. */
  lemma {:induction false} NamesStayUnique(t: Tables, cs: seq<Command>)
    requires UniqueNames(t.lib)
    ensures UniqueNames(Run(t, cs).lib)
    decreases |cs|
  {
    if cs != [] {
      if cs[0].Administer? {
        AdminKeepsNames(t.lib, cs[0].admin);
      }
      NamesStayUnique(Step(t, cs[0]).tables, cs[1..]);
    }
  }
}
