/** Cancelling an issue, confirming a pick-up, and the life of a delivery over whole runs. */
module Deliveries {
  import opened Domain
  import opened Circulation
  import opened Invariants
  import opened History
  import opened Runs

  // ---- closing a loan through a workflow ----

  /** While loan ids and holding ids differ, no stored return answer can be in the way of an open loan. */
  lemma OpenLoanHasNoReturnRecord(t: Tables, l: Id, key: Key)
    requires Inv(t) && l in t.loans && Open(t.loans[l]) && l !in t.holdings
    ensures (ReturnOf(l), key) !in t.records
  {
    assert (ReturnOf(l), key) in t.records ==> RecordOk(t, ReturnOf(l), t.records[(ReturnOf(l), key)]);
  }

  /** Closing a named open loan with an unused key: the exact tables. */
  lemma FreshReturnByLoan(t: Tables, l: Id, key: Key, now: Time)
    requires l in t.loans && Open(t.loans[l]) && t.loans[l].holdingId in t.holdings
    requires (ReturnOf(l), key) !in t.records
    ensures var o := ReturnHolding(t, None, Some(l), key, now);
            && o.result == Ok(l)
            && !ReturnIsReplay(t, None, Some(l), key)
            && o.tables.fulfillments == t.fulfillments
            && o.tables.loans == t.loans[l := t.loans[l].(returnedAt := Some(now))]
            && o.tables.holdings == t.holdings[t.loans[l].holdingId :=
                                               t.holdings[t.loans[l].holdingId].(status := Available)]
            && o.tables.records == t.records[(ReturnOf(l), key) := Record(ReturnPayload(None, Some(l)), 200, l)]
  {
  }

  /** The loan is closed, its copy is on the shelf, every other loan and copy is as before. */
  ghost predicate LoanClosed(t: Tables, u: Tables, l: Id, now: Time)
    requires l in t.loans && t.loans[l].holdingId in t.holdings
  {
    var h := t.loans[l].holdingId;
    && u.loans == t.loans[l := t.loans[l].(returnedAt := Some(now))]
    && u.holdings == t.holdings[h := t.holdings[h].(status := Available)]
  }

  /** Every ISSUE delivery of the loan is terminal, the completed ones as they were; no other delivery moved. */
  ghost predicate IssuesTerminated(t: Tables, u: Tables, l: Id) {
    && u.fulfillments.Keys == t.fulfillments.Keys
    && (forall f | f in t.fulfillments ::
          u.fulfillments[f] ==
          if f in IssueFulfillments(t, l) && t.fulfillments[f].status != Completed
          then t.fulfillments[f].(status := Cancelled)
          else t.fulfillments[f])
  }

  /** Cancelling an open loan under a key that is unused for it goes through and does all three things. */
  lemma CancelIssueCloses(t: Tables, l: Id, key: Key, now: Time)
    requires Inv(t) && l in t.loans && Open(t.loans[l]) && (ReturnOf(l), key) !in t.records
    ensures var o := CancelIssue(t, l, key, now);
            o.result == Ok(l) && LoanClosed(t, o.tables, l, now) && IssuesTerminated(t, o.tables, l)
  {
    FreshReturnByLoan(CancelIssueFulfillments(t, l), l, key, now);
  }

  /**
   Cancelling an open loan goes through exactly when no return is stored under its id and this key; else nothing
   changes.
   */
  lemma CancelIssueExactly(t: Tables, l: Id, key: Key, now: Time)
    requires Inv(t) && l in t.loans && Open(t.loans[l])
    ensures var o := CancelIssue(t, l, key, now);
            if (ReturnOf(l), key) !in t.records then o.result == Ok(l) else o == Refused(Conflict, t)
  {
    if (ReturnOf(l), key) !in t.records {
      CancelIssueCloses(t, l, key, now);
    } else {
      assert RecordOk(t, ReturnOf(l), t.records[(ReturnOf(l), key)]);
    }
  }

  /** Copy 7 was returned under the key, and loan 7 is open: the scope of the stored return does not tell them apart. */
  const SHARED_ID: Tables :=
    EMPTY.(holdings := map[7 := Holding(0, "a", "1", true, Available), 8 := Holding(0, "b", "2", true, OnLoan)],
           loans := map[6 := Loan(0, 7, 0, 0, 0, Some(1)), 7 := Loan(0, 8, 0, 2, 0, None)],
           records := map[(ReturnOf(7), Outside("k")) := Record(ReturnPayload(Some(7), None), 200, 6)])

  /** So with shared ids cancelling an open loan can fail. */
  lemma SharedIdBlocksCancel()
    ensures Inv(SHARED_ID) && Open(SHARED_ID.loans[7])
    ensures CancelIssue(SHARED_ID, 7, Outside("k"), 3) == Refused(Conflict, SHARED_ID)
  {
    assert 7 in OpenLoansOf(SHARED_ID, 8);
    CancelIssueExactly(SHARED_ID, 7, Outside("k"), 3);
  }

  /** With disjoint ids, cancel succeeds if and only if the loan is open; otherwise nothing changes. */
  lemma CancelIssueIff(t: Tables, l: Id, key: Key, now: Time)
    requires Inv(t) && l !in t.holdings
    ensures var o := CancelIssue(t, l, key, now);
            if l in t.loans && Open(t.loans[l])
            then o.result == Ok(l) && LoanClosed(t, o.tables, l, now) && IssuesTerminated(t, o.tables, l)
            else o.result.Err? && o.tables == t
  {
    if l in t.loans && Open(t.loans[l]) {
      OpenLoanHasNoReturnRecord(t, l, key);
      CancelIssueCloses(t, l, key, now);
    }
  }

  /** Confirming a pick-up of an open loan forces it to completed from any status and closes the loan. */
  lemma ConfirmPickupCloses(t: Tables, f: Id, key: Key, now: Time)
    requires Inv(t) && f in t.fulfillments && t.fulfillments[f].direction == Direction.Return
    requires var l := t.fulfillments[f].loanId.value; Open(t.loans[l]) && (ReturnOf(l), key) !in t.records
    ensures var l := t.fulfillments[f].loanId.value;
            var o := ConfirmPickup(t, f, key, now);
            && o.result == Ok(l) && LoanClosed(t, o.tables, l, now)
            && o.tables.fulfillments == t.fulfillments[f := t.fulfillments[f].(status := Completed)]
  {
    FreshReturnByLoan(WithStatus(t, f, Completed), t.fulfillments[f].loanId.value, key, now);
  }

  /** Confirming the pick-up of an open loan goes through exactly when no return is stored under its id and this key. */
  lemma ConfirmPickupExactly(t: Tables, f: Id, key: Key, now: Time)
    requires Inv(t) && f in t.fulfillments && t.fulfillments[f].direction == Direction.Return
    requires Open(t.loans[t.fulfillments[f].loanId.value])
    ensures var l := t.fulfillments[f].loanId.value;
            var o := ConfirmPickup(t, f, key, now);
            if (ReturnOf(l), key) !in t.records then o.result == Ok(l) else o == Refused(Conflict, t)
  {
    var l := t.fulfillments[f].loanId.value;
    if (ReturnOf(l), key) !in t.records {
      ConfirmPickupCloses(t, f, key, now);
    } else {
      assert RecordOk(t, ReturnOf(l), t.records[(ReturnOf(l), key)]);
    }
  }

  /**
   With disjoint ids, a confirmed pick-up of an open loan always goes through; on a closed loan it changes nothing.
   */
  lemma ConfirmPickupIff(t: Tables, f: Id, key: Key, now: Time)
    requires Inv(t) && f in t.fulfillments && t.fulfillments[f].direction == Direction.Return
    requires t.fulfillments[f].loanId.value !in t.holdings
    ensures var l := t.fulfillments[f].loanId.value;
            var o := ConfirmPickup(t, f, key, now);
            && o.result == Ok(l)
            && (if Open(t.loans[l])
                then LoanClosed(t, o.tables, l, now)
                     && o.tables.fulfillments == t.fulfillments[f := t.fulfillments[f].(status := Completed)]
                else o.tables == t)
  {
    var l := t.fulfillments[f].loanId.value;
    if Open(t.loans[l]) {
      OpenLoanHasNoReturnRecord(t, l, key);
      ConfirmPickupCloses(t, f, key, now);
    }
  }

  // ---- the life of a delivery ----

  function Rank(s: FulfillmentStatus): nat {
    match s
    case Requested => 3
    case Ready => 2
    case InTransit => 1
    case _ => 0
  }

  lemma AllowedNextFalls(a: FulfillmentStatus, b: FulfillmentStatus)
    requires b in AllowedNext(a)
    ensures Rank(b) < Rank(a) && !Terminal(a)
  {
  }

  /** The state before command number i of a run. */
  ghost function At(t: Tables, cs: seq<Command>, i: nat): Tables
    requires i <= |cs|
  {
    Run(t, cs[..i])
  }

  /**
   At command i of the run the status of the delivery changes along an edge, to completed only while its loan is open.
   */
  ghost predicate EdgeAt(t: Tables, cs: seq<Command>, f: Id, i: nat)
    requires i < |cs|
  {
    var a, b := At(t, cs, i), At(t, cs, i + 1);
    && f in a.fulfillments && f in b.fulfillments
    && SameDelivery(a.fulfillments[f], b.fulfillments[f])
    && MoveOk(a, a.fulfillments[f], b.fulfillments[f])
  }

  /** Along every run, each status change of each delivery is an allowed move. */
  lemma DeliveryWalks(t: Tables, cs: seq<Command>, f: Id, i: nat)
    requires Inv(t) && f in t.fulfillments && i < |cs|
    ensures EdgeAt(t, cs, f, i)
  {
    RunKeepsInv(t, cs[..i]);
    RunGrows(t, cs[..i]);
    StepMoves(At(t, cs, i), cs[i]);
    RunNext(t, cs, i);
  }

  /** An ISSUE delivery never climbs back: a changed status has a strictly smaller rank, so terminal ones absorb. */
  lemma {:induction false} IssueRankFalls(t: Tables, cs: seq<Command>, f: Id)
    requires Inv(t) && f in t.fulfillments && t.fulfillments[f].direction == Issue
    ensures var u := Run(t, cs);
            && f in u.fulfillments && u.fulfillments[f].direction == Issue
            && (u.fulfillments[f].status == t.fulfillments[f].status
                || Rank(u.fulfillments[f].status) < Rank(t.fulfillments[f].status))
    decreases |cs|
  {
    if cs != [] {
      StepKeepsInv(t, cs[0]);
      var u := Step(t, cs[0]).tables;
      if u.fulfillments[f].status != t.fulfillments[f].status {
        AllowedNextFalls(t.fulfillments[f].status, u.fulfillments[f].status);
      }
      IssueRankFalls(u, cs[1..], f);
    }
  }

  lemma NoLateStep(t: Tables, u: Tables, f: Id)
    requires Inv(t) && LoansGrow(t, u) && DeliveriesMove(t, u)
    requires f in t.fulfillments && t.fulfillments[f].direction == Issue
    requires !Open(t.loans[t.fulfillments[f].loanId.value]) && t.fulfillments[f].status != Completed
    ensures u.fulfillments[f].direction == Issue && u.fulfillments[f].loanId == t.fulfillments[f].loanId
    ensures !Open(u.loans[u.fulfillments[f].loanId.value]) && u.fulfillments[f].status != Completed
  {
  }

  /** Once its loan is closed, an ISSUE delivery that is not completed never will be. */
  lemma {:induction false} NoLateCompletion(t: Tables, cs: seq<Command>, f: Id)
    requires Inv(t) && f in t.fulfillments && t.fulfillments[f].direction == Issue
    requires !Open(t.loans[t.fulfillments[f].loanId.value]) && t.fulfillments[f].status != Completed
    ensures f in Run(t, cs).fulfillments && Run(t, cs).fulfillments[f].status != Completed
    decreases |cs|
  {
    if cs != [] {
      var u := Step(t, cs[0]).tables;
      StepKeepsInv(t, cs[0]);
      NoLateStep(t, u, f);
      NoLateCompletion(u, cs[1..], f);
    }
  }

  // ---- one ISSUE delivery per loan, also across a crash ----

  lemma IssueDeliveriesKept(t: Tables, u: Tables, l: Id)
    requires DeliveriesMove(t, u) && l in t.loans
    ensures IssueFulfillments(u, l) == IssueFulfillments(t, l)
  {
  }

  /** The ISSUE deliveries of a loan are fixed once the issue command that made the loan is over. */
  lemma {:induction false} IssueDeliveriesFixed(t: Tables, cs: seq<Command>, l: Id)
    requires Inv(t) && l in t.loans
    ensures IssueFulfillments(Run(t, cs), l) == IssueFulfillments(t, l)
    decreases |cs|
  {
    if cs != [] {
      var u := Step(t, cs[0]).tables;
      StepKeepsInv(t, cs[0]);
      IssueDeliveriesKept(t, u, l);
      IssueDeliveriesFixed(u, cs[1..], l);
    }
  }

  /** A first issue with a delivery: the key is unused, the preview clean, and the checkout goes through. */
  ghost predicate IsFirstIssue(t: Tables, c: Command) {
    && c.DoCommitIssue? && c.mode != Desk && c.newFulfillment !in t.fulfillments
    && (CheckoutOf(c.holding), c.key) !in t.records && IssueViolations(t, c.patron, c.holding) == []
    && CheckoutRefusal(t, c.patron, c.holding, c.newLoan).None?
  }

  /** What it leaves, with or without a crash between its two commits. */
  lemma FirstIssue(t: Tables, c: Command)
    requires Inv(t) && IsFirstIssue(t, c)
    ensures var u := Step(t, c).tables;
            && c.newLoan in u.loans && Open(u.loans[c.newLoan])
            && IssueFulfillments(u, c.newLoan) == (if c.crash then {} else {c.newFulfillment})
            && (CheckoutOf(c.holding), c.key) in u.records
            && u.records[(CheckoutOf(c.holding), c.key)] == Record(CheckoutPayload(c.patron, c.holding), 201, c.newLoan)
  {
    var loan := Checkout(t, c.patron, c.holding, c.key, c.newLoan, c.now, c.today).tables;
    assert IssueFulfillments(t, c.newLoan) == {};
    assert IssueFulfillments(loan, c.newLoan) == {};
  }

  /** A retry under a bound key answers with its loan and commits nothing. */
  lemma IssueRetry(t: Tables, c: Command)
    requires c.DoCommitIssue? && !c.crash && (CheckoutOf(c.holding), c.key) in t.records
    requires var r := t.records[(CheckoutOf(c.holding), c.key)];
             r.payload == CheckoutPayload(c.patron, c.holding) && r.status == 201 && r.body in t.loans
    ensures Step(t, c) == Outcome(Ok(t.records[(CheckoutOf(c.holding), c.key)].body), t)
  {
  }

  /**
   A crash between the two commits of an issue loses its delivery for good: a retry under the same key
   answers with the loan, and no later command can attach an ISSUE delivery to it. Without the crash the
   loan has that one delivery for ever.
   */
  lemma DeliveryLostIffCrash(t: Tables, c: Command, cs: seq<Command>, retry: Command)
    requires Inv(t) && IsFirstIssue(t, c)
    requires retry.DoCommitIssue? && !retry.crash
    requires retry.patron == c.patron && retry.holding == c.holding && retry.key == c.key
    ensures var later := Run(Step(t, c).tables, cs);
            && Step(later, retry) == Outcome(Ok(c.newLoan), later)
            && IssueFulfillments(later, c.newLoan) == (if c.crash then {} else {c.newFulfillment})
  {
    var u := Step(t, c).tables;
    FirstIssue(t, c);
    StepKeepsInv(t, c);
    RunGrows(u, cs);
    IssueDeliveriesFixed(u, cs, c.newLoan);
    IssueRetry(Run(u, cs), retry);
  }
}
