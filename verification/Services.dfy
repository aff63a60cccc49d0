/**
 The circulation services as they run: step by step on a database session, with their commits where they make them.
 Each method is proved to leave the committed tables of its specification function.
 */
module Services {
  import opened Domain
  import opened Circulation
  import opened Invariants
  import opened History
  import opened Runs
  import opened Deliveries
  import opened OperationLaws

  /** A database session: the committed tables, and the pending state of the current transaction. */
  class Session {
    var committed: Tables
    var work: Tables

    constructor (t: Tables)
      ensures committed == t && work == t
    {
      committed, work := t, t;
    }

    /** No pending change. */
    ghost predicate Clean()
      reads this
    {
      work == committed
    }

    method Commit()
      modifies this
      ensures committed == old(work) && work == old(work)
    {
      committed := work;
    }

    method Rollback()
      modifies this
      ensures work == old(committed) && committed == old(committed)
    {
      work := committed;
    }

    method Store(scope: Scope, key: Key, record: Record)
      modifies this`work
      ensures work == old(work).(records := StoreResponse(old(work).records, scope, key, record))
    {
      work := work.(records := StoreResponse(work.records, scope, key, record));
    }
  }

  // ---- ports of the circulation orchestrator ----

  datatype HoldingSnapshot = HoldingSnapshot(isPublished: bool, status: HoldingStatus, circulating: bool,
                                             isLendable: bool)

  class HoldingCirculationAdapter {
    const session: Session

    constructor (s: Session)
      ensures session == s
    {
      session := s;
    }

    method LockForCheckout(h: Id) returns (r: Result<HoldingSnapshot>)
      ensures r.Ok? <==> h in session.work.holdings && session.work.holdings[h].catalogId in session.work.lib.catalogs
      ensures r.Ok? ==> (r.value.isLendable <==> Lendable(session.work, h))
      ensures r.Err? ==> r.error == NotFound
    {
      if h !in session.work.holdings {
        return Err(NotFound);
      }
      var holding := session.work.holdings[h];
      if holding.catalogId !in session.work.lib.catalogs {
        return Err(NotFound);
      }
      var isPublished := session.work.lib.catalogs[holding.catalogId].status == Published;
      var isLendable := isPublished && holding.circulating && holding.status == Available;
      return Ok(HoldingSnapshot(isPublished, holding.status, holding.circulating, isLendable));
    }

    method MarkOnLoan(h: Id)
      requires h in session.work.holdings
      modifies session`work
      ensures session.work == old(session.work).(holdings :=
                old(session.work).holdings[h := old(session.work).holdings[h].(status := OnLoan)])
    {
      session.work := session.work.(holdings :=
                                    session.work.holdings[h := session.work.holdings[h].(status := OnLoan)]);
    }

    method LockForReturn(h: Id) returns (r: Result<()>)
      ensures r == if h in session.work.holdings then Ok(()) else Err(NotFound)
    {
      return if h in session.work.holdings then Ok(()) else Err(NotFound);
    }

    method MarkAvailable(h: Id)
      requires h in session.work.holdings
      modifies session`work
      ensures session.work == old(session.work).(holdings :=
                old(session.work).holdings[h := old(session.work).holdings[h].(status := Available)])
    {
      session.work := session.work.(holdings :=
                                    session.work.holdings[h := session.work.holdings[h].(status := Available)]);
    }
  }

  datatype Eligibility = Eligibility(isActive: bool, isBlocked: bool, openLoanCount: nat, typeId: Id)

  /** Whether an active block row applies at this instant. */
  predicate BlockedNow(b: Block, now: Time) {
    b.active && b.startAt <= now && (b.endAt.Some? ==> now <= b.endAt.value)
  }

  class PatronEligibilityAdapter {
    const session: Session

    constructor (s: Session)
      ensures session == s
    {
      session := s;
    }

    /**
     The query for an active block returns any one of the active rows. While the blocked flag follows the
     rows, neither that choice nor the clock matters.
     */
    method Check(p: Id, now: Time) returns (r: Result<Eligibility>)
      requires BlockInv(session.work.lib)
      ensures p !in session.work.lib.patrons ==> r == Err(Unhandled)
      ensures p in session.work.lib.patrons ==>
                var patron := session.work.lib.patrons[p];
                r == Ok(Eligibility(patron.status == Active, ActiveBlocks(session.work.lib, p) != {},
                                    |OpenLoansBy(session.work, p)|, patron.typeId))
    {
      if p !in session.work.lib.patrons {
        return Err(Unhandled);
      }
      var patron := session.work.lib.patrons[p];
      var isBlocked := patron.blocked;
      var rows := ActiveBlocks(session.work.lib, p);
      if rows != {} {
        var b :| b in rows;
        var appliesNow := BlockedNow(session.work.lib.blocks[b], now);
        isBlocked := isBlocked || appliesNow;
      }
      return Ok(Eligibility(patron.status == Active, isBlocked, |OpenLoansBy(session.work, p)|, patron.typeId));
    }
  }

  datatype ResolvedPolicy = ResolvedPolicy(ruleSetId: Id, maxActiveLoans: nat, dueDate: Day)

  class PolicyResolver {
    const session: Session

    constructor (s: Session)
      ensures session == s
    {
      session := s;
    }

    method Resolve(typeId: Id, today: Day) returns (r: Option<ResolvedPolicy>)
      ensures r.None? <==> Policy(session.work, typeId).None?
      ensures r.Some? ==>
                var rule := Policy(session.work, typeId).value;
                r.value == ResolvedPolicy(rule, session.work.lib.ruleSets[rule].maxActiveLoans,
                                          today + session.work.lib.ruleSets[rule].loanPeriodDays)
    {
      var mapped := Policy(session.work, typeId);
      if mapped.None? {
        return None;
      }
      var row := session.work.lib.ruleSets[mapped.value];
      return Some(ResolvedPolicy(mapped.value, row.maxActiveLoans, today + row.loanPeriodDays));
    }
  }

  // ---- preview ----

  class IssueEligibilityValidator {
    const session: Session
    const eligibility: PatronEligibilityAdapter
    const policies: PolicyResolver

    constructor (s: Session)
      ensures session == s && eligibility.session == s && policies.session == s
    {
      session := s;
      eligibility := new PatronEligibilityAdapter(s);
      policies := new PolicyResolver(s);
    }

    ghost predicate Wired() {
      eligibility.session == session && policies.session == session
    }

    method ValidatePatron(p: Id, now: Time, today: Day) returns (report: seq<Rule>)
      requires Wired() && BlockInv(session.work.lib)
      ensures report == PatronViolations(session.work, p)
    {
      report := [];
      var checked := eligibility.Check(p, now);
      if checked.Err? {
        return report + [REF_P6];
      }
      var snapshot := checked.value;
      if !snapshot.isActive {
        report := report + [REF_P6];
      }
      if snapshot.isBlocked {
        report := report + [REF_B2];
      }
      var policy := policies.Resolve(snapshot.typeId, today);
      if policy.None? {
        return report + [LN_R1];
      }
      if snapshot.openLoanCount >= policy.value.maxActiveLoans {
        report := report + [LN_R2];
      }
    }

    method ValidateHolding(h: Id) returns (report: seq<Rule>)
      ensures report == HoldingViolations(session.work, h)
    {
      report := [];
      if h !in session.work.holdings {
        return report + [LN_H1];
      }
      var holding := session.work.holdings[h];
      if holding.catalogId !in session.work.lib.catalogs {
        return report + [CAT_5];
      }
      if session.work.lib.catalogs[holding.catalogId].status != Published {
        report := report + [XCAT_1];
        report := report + [CAT_5];
      }
      if !holding.circulating {
        report := report + [HLD_4];
      }
      if holding.status != Available {
        report := report + [HLD_5];
      }
    }

    method ValidateIssue(p: Id, h: Id, now: Time, today: Day) returns (report: seq<Rule>)
      requires Wired() && BlockInv(session.work.lib)
      ensures report == IssueViolations(session.work, p, h)
    {
      report := ValidatePatron(p, now, today);
      var holdingReport := ValidateHolding(h);
      report := report + holdingReport;
    }
  }

  // ---- the circulation orchestrator ----

  class CirculationOrchestrator {
    const session: Session
    const eligibility: PatronEligibilityAdapter
    const holdings: HoldingCirculationAdapter
    const policies: PolicyResolver

    constructor (s: Session)
      ensures session == s && Wired()
    {
      session := s;
      eligibility := new PatronEligibilityAdapter(s);
      holdings := new HoldingCirculationAdapter(s);
      policies := new PolicyResolver(s);
    }

    ghost predicate Wired() {
      eligibility.session == session && holdings.session == session && policies.session == session
    }

    /** Eligibility, row lock, policy and limit, in the order in which their refusals are raised. */
    method Admit(p: Id, h: Id, now: Time, today: Day) returns (r: Result<ResolvedPolicy>)
      requires Wired() && BlockInv(session.work.lib)
      ensures r.Err? ==> forall n :: CheckoutRefusal(session.work, p, h, n) == Some(r.error)
      ensures r.Ok? ==>
                && forall n :: CheckoutRefusal(session.work, p, h, n)
                               == if n in session.work.loans || OpenLoansOf(session.work, h) != {} then Some(Integrity)
                               else None
      ensures r.Ok? ==>
                && h in session.work.holdings && p in session.work.lib.patrons
                && var policy := Policy(session.work, session.work.lib.patrons[p].typeId);
                && policy.Some? && r.value.ruleSetId == policy.value
                && r.value.dueDate == today + session.work.lib.ruleSets[policy.value].loanPeriodDays
    {
      var snapshot :- eligibility.Check(p, now);
      if !snapshot.isActive {
        return Err(RuleViolation);
      }
      if snapshot.isBlocked {
        return Err(RuleViolation);
      }
      var copy :- holdings.LockForCheckout(h);
      if !copy.isLendable {
        return Err(RuleViolation);
      }
      var policy := policies.Resolve(snapshot.typeId, today);
      if policy.None? {
        return Err(RuleViolation);
      }
      if snapshot.openLoanCount >= policy.value.maxActiveLoans {
        return Err(RuleViolation);
      }
      return Ok(policy.value);
    }

    method Checkout(p: Id, h: Id, key: Key, newLoan: Id, now: Time, today: Day) returns (r: Result<Id>)
      requires Wired() && session.Clean() && BlockInv(session.committed.lib)
      modifies session
      ensures var o := Circulation.Checkout(old(session.committed), p, h, key, newLoan, now, today);
              && r == o.result && session.committed == o.tables
              && (r.Ok? ==> session.Clean())
      ensures r.Ok? && (CheckoutOf(h), key) !in old(session.committed).records ==>
                r == Ok(newLoan) && NewLoanOk(old(session.committed), session.committed, newLoan, p, h, now, today)
    {
      var cached :- FindCached(session.work.records, CheckoutOf(h), key, CheckoutPayload(p, h));
      if cached.Some? {
        return Replay(session.work, cached.value, 201);
      }
      var policy :- Admit(p, h, now, today);
      var loan := Loan(p, h, policy.ruleSetId, now, policy.dueDate, None);
      holdings.MarkOnLoan(h);
      // The insert meets the primary key and the unique index on open loans.
      if newLoan in session.work.loans || OpenLoansOf(session.work, h) != {} {
        assert OpenLoansOf(session.work, h) == OpenLoansOf(old(session.work), h);
        return Err(Integrity);
      }
      session.work := session.work.(loans := session.work.loans[newLoan := loan]);
      session.Store(CheckoutOf(h), key, Record(CheckoutPayload(p, h), 201, newLoan));
      session.Commit();
      assert OpenLoansOf(old(session.work), h) == {};
      return Ok(newLoan);
    }

    /** The pending state may already hold delivery changes of the same transaction; a success commits them too. */
    method ReturnHolding(ho: Option<Id>, lo: Option<Id>, key: Key, now: Time) returns (r: Result<Id>)
      requires Wired() && OneOpenLoanEach(session.work)
      modifies session
      ensures var o := Circulation.ReturnHolding(old(session.work), ho, lo, key, now);
              && r == o.result
              && (if r.Err? || ReturnIsReplay(old(session.work), ho, lo, key)
                  then session.committed == old(session.committed) && session.work == old(session.work)
                  else session.committed == o.tables && session.Clean())
    {
      if ho.None? && lo.None? {
        return Err(Validation);
      }
      var scope := ReturnScope(ho, lo);
      var cached :- FindCached(session.work.records, scope, key, ReturnPayload(ho, lo));
      if cached.Some? {
        return Replay(session.work, cached.value, 200);
      }
      var loan: Option<Id> := None;
      var h: Id;
      if ho.Some? {
        var _ :- holdings.LockForReturn(ho.value);
        var rows := OpenLoansOf(session.work, ho.value);
        if rows != {} {
          var l :| l in rows;
          loan := Some(l);
        }
        h := ho.value;
      } else {
        if lo.value !in session.work.loans {
          return Err(NotFound);
        }
        loan := lo;
        h := session.work.loans[lo.value].holdingId;
        var _ :- holdings.LockForReturn(h);
      }
      if loan.None? {
        return Err(NotFound);
      }
      var l := loan.value;
      var record := Record(ReturnPayload(ho, lo), 200, l);
      if !Open(session.work.loans[l]) {
        session.Store(scope, key, record);
        session.Commit();
        return Ok(l);
      }
      session.work := session.work.(loans := session.work.loans[l := session.work.loans[l].(returnedAt := Some(now))]);
      holdings.MarkAvailable(h);
      session.Store(scope, key, record);
      session.Commit();
      return Ok(l);
    }
  }

  // ---- fulfillments ----

  class FulfillmentService {
    const session: Session

    constructor (s: Session)
      ensures session == s
    {
      session := s;
    }

    method CreateIssueFulfillment(l: Id, h: Id, mode: Mode, notes: Option<string>, newFulfillment: Id)
      returns (r: Result<Id>)
      modifies session`work
      ensures r.Err? ==> session.work == old(session.work)
      ensures r == (match RequireOpenLoan(old(session.work), Some(l))
                    case Some(e) => Err(e)
                    case None => if old(session.work).loans[l].holdingId != h then Err(Validation)
                                 else if newFulfillment in old(session.work).fulfillments then Err(Integrity)
                                 else Ok(newFulfillment))
      ensures r.Ok? ==> session.work == WithFulfillment(old(session.work), newFulfillment,
                                                        Fulfillment(Some(l), h, Issue, mode, Requested, notes))
    {
      var refusal := RequireOpenLoan(session.work, Some(l));
      if refusal.Some? {
        return Err(refusal.value);
      }
      if session.work.loans[l].holdingId != h {
        return Err(Validation);
      }
      if newFulfillment in session.work.fulfillments {
        return Err(Integrity);
      }
      session.work := WithFulfillment(session.work, newFulfillment,
                                      Fulfillment(Some(l), h, Issue, mode, Requested, notes));
      return Ok(newFulfillment);
    }

    method InitiateReturnPickup(l: Id, notes: Option<string>, newFulfillment: Id) returns (r: Result<Id>)
      modifies session`work
      ensures r.Err? ==> session.work == old(session.work)
      ensures r == (match RequireOpenLoan(old(session.work), Some(l))
                    case Some(e) => Err(e)
                    case None => if newFulfillment in old(session.work).fulfillments then Err(Integrity)
                                 else Ok(newFulfillment))
      ensures r.Ok? ==> session.work == WithFulfillment(old(session.work), newFulfillment,
                          Fulfillment(Some(l), old(session.work).loans[l].holdingId, Direction.Return, PickupPoint,
                                      Requested, notes))
    {
      var refusal := RequireOpenLoan(session.work, Some(l));
      if refusal.Some? {
        return Err(refusal.value);
      }
      if newFulfillment in session.work.fulfillments {
        return Err(Integrity);
      }
      var h := session.work.loans[l].holdingId;
      session.work := WithFulfillment(session.work, newFulfillment,
                                      Fulfillment(Some(l), h, Direction.Return, PickupPoint, Requested, notes));
      return Ok(newFulfillment);
    }

    /** Changes the pending state; the caller commits. */
    method Transition(f: Id, target: FulfillmentStatus, key: Key) returns (r: Result<Id>)
      modifies session`work
      ensures var o := Circulation.Transition(old(session.work), f, target, key);
              r == o.result && session.work == o.tables
      ensures (TransitionOf(f), key) !in old(session.work).records ==>
                if MayMove(old(session.work), f, target)
                then r == Ok(f) && StatusSet(old(session.work), session.work, f, target)
                else r.Err? && session.work == old(session.work)
    {
      if (TransitionOf(f), key) !in session.work.records {
        TransitionExactly(session.work, f, target, key);
      }
      var cached :- FindCached(session.work.records, TransitionOf(f), key, TransitionPayload(f, target));
      if cached.Some? {
        if cached.value.status != 200 {
          return Err(Conflict);
        }
        if cached.value.body != f {
          return Err(Retriable);
        }
        return if f in session.work.fulfillments then Ok(f) else Err(NotFound);
      }
      if f !in session.work.fulfillments {
        return Err(NotFound);
      }
      var row := session.work.fulfillments[f];
      if row.status == target {
        return Ok(f);
      }
      if target !in AllowedNext(row.status) {
        return Err(RuleViolation);
      }
      if target == Completed {
        var refusal := RequireOpenLoan(session.work, row.loanId);
        if refusal.Some? {
          return Err(refusal.value);
        }
      }
      session.work := WithStatus(session.work, f, target);
      session.Store(TransitionOf(f), key, Record(TransitionPayload(f, target), 200, f));
      return Ok(f);
    }

    method GetIssueFulfillmentForLoan(l: Id) returns (r: Option<Id>)
      ensures r.None? <==> IssueFulfillments(session.work, l) == {}
      ensures r.Some? ==> r.value in IssueFulfillments(session.work, l)
    {
      var rows := IssueFulfillments(session.work, l);
      if rows == {} {
        return None;
      }
      var f :| f in rows;
      return Some(f);
    }

    /** Loops over the loan's ISSUE rows; says whether any row was still open. */
    method CancelIssueFulfillmentsForLoan(l: Id) returns (cancelled: bool)
      modifies session`work
      ensures session.work == CancelIssueFulfillments(old(session.work), l)
      ensures cancelled <==> exists f | f in IssueFulfillments(old(session.work), l) ::
                               !Terminal(old(session.work).fulfillments[f].status)
    {
      ghost var before := session.work;
      ghost var after := CancelIssueFulfillments(before, l).fulfillments;
      var rows := IssueFulfillments(session.work, l);
      ghost var all := rows;
      cancelled := false;
      while rows != {}
        invariant rows <= all && all == IssueFulfillments(before, l)
        invariant session.work == before.(fulfillments := session.work.fulfillments)
        invariant session.work.fulfillments.Keys == before.fulfillments.Keys
        invariant forall f | f in before.fulfillments ::
                    session.work.fulfillments[f] == if f in rows then before.fulfillments[f] else after[f]
        invariant cancelled <==> exists f | f in all - rows :: !Terminal(before.fulfillments[f].status)
        decreases rows
      {
        var f :| f in rows;
        rows := rows - {f};
        assert all - rows == (all - rows - {f}) + {f};
        var status := session.work.fulfillments[f].status;
        if !(status == Completed || status == Cancelled) {
          session.work := WithStatus(session.work, f, Cancelled);
          cancelled := true;
        }
      }
      assert session.work.fulfillments == after;
      assert all - rows == all;
    }
  }
}
