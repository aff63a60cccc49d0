/** The issue preview against the real checkout, and the loan limit over runs in which rules may change. */
module LoanLimits {
  import opened Domain
  import opened Circulation
  import opened Invariants
  import opened History
  import opened Runs

  // ---- preview and checkout agree ----

  lemma PatronPreview(t: Tables, p: Id)
    ensures PatronViolations(t, p) == [] <==>
              && p in t.lib.patrons && t.lib.patrons[p].status == Active && !t.lib.patrons[p].blocked
              && Policy(t, t.lib.patrons[p].typeId).Some?
              && |OpenLoansBy(t, p)| < t.lib.ruleSets[Policy(t, t.lib.patrons[p].typeId).value].maxActiveLoans
  {
  }

  lemma HoldingPreview(t: Tables, h: Id)
    ensures HoldingViolations(t, h) == [] <==> Lendable(t, h)
  {
  }

  /** In an invariant state a copy on the shelf has no open loan, so its insert cannot clash. */
  lemma ShelvedCopyIsFree(t: Tables, h: Id)
    requires LoanInv(t)
    ensures Lendable(t, h) ==> OpenLoansOf(t, h) == {}
  {
    assert forall l :: l in OpenLoansOf(t, h) ==> h in t.holdings && t.holdings[h].status == OnLoan;
  }

  /** The preview is empty exactly when a checkout with an unused key in the same state is accepted. */
  lemma PreviewIffAccepted(t: Tables, p: Id, h: Id, key: Key, newLoan: Id, now: Time, today: Day)
    requires Inv(t) && (CheckoutOf(h), key) !in t.records && newLoan !in t.loans
    ensures IssueViolations(t, p, h) == [] <==> Checkout(t, p, h, key, newLoan, now, today).result.Ok?
  {
    PatronPreview(t, p);
    HoldingPreview(t, h);
    ShelvedCopyIsFree(t, h);
  }

  // ---- the limit over runs ----

  /** The limit that the patron's rule set sets in this state. */
  function LimitInForce(t: Tables, p: Id): nat {
    if p in t.lib.patrons && Policy(t, t.lib.patrons[p].typeId).Some?
    then t.lib.ruleSets[Policy(t, t.lib.patrons[p].typeId).value].maxActiveLoans
    else 0
  }

  /** The command opens a loan for this patron. */
  ghost predicate LendsTo(t: Tables, c: Command, p: Id) {
    exists l :: l in Step(t, c).tables.loans && l !in t.loans && Step(t, c).tables.loans[l].patronId == p
  }

  function Larger(a: nat, b: nat): nat {
    if a < b then b else a
  }

  /** The largest limit in force at one of the patron's own successful checkouts during the run. */
  ghost function PeakLimit(t: Tables, cs: seq<Command>, p: Id): nat
    decreases |cs|
  {
    if cs == [] then 0
    else Larger(if LendsTo(t, cs[0], p) then LimitInForce(t, p) else 0,
                PeakLimit(Step(t, cs[0]).tables, cs[1..], p))
  }

  lemma EffectOnPatron(t: Tables, u: Tables, e: Effect, p: Id)
    requires HasEffect(t, u, e)
    ensures OpenLoansBy(u, p) ==
            if e.Opened? && u.loans[e.loan].patronId == p then OpenLoansBy(t, p) + {e.loan}
            else if e.Closed? then OpenLoansBy(t, p) - {e.loan}
            else OpenLoansBy(t, p)
  {
  }

  lemma StepWithinLimit(t: Tables, c: Command, p: Id)
    ensures var u := Step(t, c).tables;
            |OpenLoansBy(u, p)| <= if LendsTo(t, c, p) then LimitInForce(t, p) else |OpenLoansBy(t, p)|
  {
    var u := Step(t, c).tables;
    var e := StepEffect(t, c);
    EffectOnPatron(t, u, e, p);
    if e.Opened? && u.loans[e.loan].patronId == p {
      assert LendsTo(t, c, p);
    }
  }

  /** A patron's open loans never exceed the larger of where the run began and that peak. */
  lemma {:induction false} OpenLoansWithinPeak(t: Tables, cs: seq<Command>, p: Id)
    ensures |OpenLoansBy(Run(t, cs), p)| <= Larger(|OpenLoansBy(t, p)|, PeakLimit(t, cs, p))
    decreases |cs|
  {
    if cs != [] {
      StepWithinLimit(t, cs[0], p);
      OpenLoansWithinPeak(Step(t, cs[0]).tables, cs[1..], p);
    }
  }

  lemma LimitHoldsFromEmpty(cs: seq<Command>, p: Id)
    ensures |OpenLoansBy(Run(EMPTY, cs), p)| <= PeakLimit(EMPTY, cs, p)
  {
    OpenLoansWithinPeak(EMPTY, cs, p);
    assert OpenLoansBy(EMPTY, p) == {};
  }
}
