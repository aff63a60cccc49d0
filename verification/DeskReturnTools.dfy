/** The return tools of the agent desk. Every exit, also one by an error, leaves the slots well formed. */
module DeskReturnTools {
  import opened Domain
  import opened Circulation
  import opened Invariants
  import opened History
  import opened Services
  import opened Queries
  import opened Workflows
  import opened Pseudonyms
  import opened Text
  import opened AgentSession
  import opened DeskIssueTools

  // ---- candidate lists ----

  lemma RowsAreKnown(t: Tables, today: Day, rows: seq<ReturnCandidate>)
    requires OpenLoanRows(t, today, rows)
    ensures LoansKnown(t, rows)
  {
    assert forall i | 0 <= i < |rows| :: OpenLoanRow(t, today, rows[i]);
  }

  lemma FilteredLoans(t: Tables, rows: seq<ReturnCandidate>, p: ReturnCandidate -> bool, l: Id)
    requires LoansKnown(t, rows)
    ensures LoansKnown(t, Filter(rows, p))
    ensures (forall c :: p(c) <==> c.loanId == l) ==> |Filter(rows, p)| <= 1
  {
    var at := FilterPicks(rows, p);
    assert forall k | 0 <= k < |at| :: LoanKnown(t, rows[at[k]]);
    assert |at| > 1 ==> rows[at[0]].loanId != rows[at[1]].loanId;
  }

  predicate LoanChosen(labels: map<Id, string>, c: ReturnCandidate, barcode: Option<string>, title: Option<string>,
                       pseudonym: Option<string>) {
    if Given(pseudonym) then c.loanId in labels && labels[c.loanId] == Upper(pseudonym.value)
    else if Given(barcode) then Lower(c.barcode) == Lower(Strip(barcode.value))
    else Given(title) && Contains(Lower(c.title), Lower(Strip(title.value)))
  }

  /** A return refuses only with errors that the desk catches. */
  lemma ReturnRefusals(t: Tables, ho: Option<Id>, lo: Option<Id>, key: Key, now: Time)
    ensures var o := ReturnHolding(t, ho, lo, key, now);
            o.result.Err? ==> IsAppError(o.result.error) && o.tables == t
  {
  }

  lemma SlotsOverReturn(slots: IssueSlots, labels: map<Id, string>, t: Tables, c: Command, u: Tables)
    requires Inv(t) && slots.WellFormed(t, labels) && c.DoReturn?
    requires u == ReturnHolding(t, c.holdingOpt, c.loanOpt, c.key, c.now).tables
    ensures slots.WellFormed(u, labels)
  {
    StepExtends(t, c);
    slots.WellFormedExtends(t, u, labels);
  }

  lemma SlotsOverPickup(slots: IssueSlots, labels: map<Id, string>, t: Tables, c: Command, o: Outcome)
    requires Inv(t) && slots.WellFormed(t, labels) && c.DoInitiatePickup?
    requires o == InitiatePickup(t, c.loan, c.notes, c.key, c.newFulfillment)
    ensures slots.WellFormed(o.tables, labels)
    ensures o.result.Ok? ==> o.result.value in o.tables.fulfillments
    ensures o.result.Err? ==> o.tables == t
  {
    StepExtends(t, c);
    slots.WellFormedExtends(t, o.tables, labels);
  }

  /** The return goes through in these tables; folded like Ran. */
  ghost predicate TakesBack(t: Tables, c: Command) {
    forall d {:trigger Unrolled(d)} :: Unrolled(d) && d == c ==>
      d.DoReturn? && ReturnHolding(t, d.holdingOpt, d.loanOpt, d.key, d.now).result.Ok?
  }

  lemma TakesBackIff(t: Tables, c: Command)
    requires c.DoReturn?
    ensures TakesBack(t, c) <==> ReturnHolding(t, c.holdingOpt, c.loanOpt, c.key, c.now).result.Ok?
  {
    assert Unrolled(c);
  }

  // ---- the selection that a failed write restores ----

  datatype Selection = Selection(
    loanId: Option<Id>, holdingId: Option<Id>, holdingBarcode: Option<string>, patronId: Option<Id>,
    patronName: Option<string>, catalogTitle: Option<string>, dueDate: Option<Day>, isOverdue: Option<bool>,
    returnCandidates: seq<ReturnCandidate>)

  class ReturnTools {
    const session: Session
    const workflow: ReturnBookWorkflow
    const pseudonyms: PseudonymMap

    constructor (s: Session, w: ReturnBookWorkflow, p: PseudonymMap)
      requires w.session == s && w.Wired()
      ensures session == s && workflow == w && pseudonyms == p && Wired()
    {
      session, workflow, pseudonyms := s, w, p;
    }

    ghost predicate Wired() {
      workflow.session == session && workflow.Wired()
    }

    ghost predicate Kept(slots: IssueSlots)
      reads session, slots, pseudonyms
    {
      slots.WellFormed(session.work, pseudonyms.patrons)
    }

    ghost predicate Settled(slots: IssueSlots)
      reads session, slots, pseudonyms
    {
      slots.WellFormed(session.committed, pseudonyms.patrons)
    }

    method LabelLoans(rows: seq<ReturnCandidate>)
      modifies pseudonyms`loans
      ensures forall i | 0 <= i < |rows| :: rows[i].loanId in pseudonyms.loans
    {
      for i := 0 to |rows|
        invariant forall k | 0 <= k < i :: rows[k].loanId in pseudonyms.loans
      {
        var _ := pseudonyms.Loan(rows[i].loanId);
      }
    }

    /** Loan, copy, patron and due date of the candidate fill the slots; the delivery is forgotten. */
    method FillSlots(slots: IssueSlots, c: ReturnCandidate)
      requires Kept(slots) && LoanKnown(session.work, c)
      modifies slots`loanId, slots`holdingId, slots`holdingBarcode, slots`catalogTitle, slots`patronId,
               slots`patronName,
               slots`dueDate, slots`isOverdue, slots`fulfillmentId, slots`fulfillmentTarget
      ensures Kept(slots)
      ensures slots.loanId == Some(c.loanId) && slots.holdingId == Some(c.holdingId)
              && slots.holdingBarcode == Some(c.barcode)
              && slots.catalogTitle == Some(c.title) && slots.patronId == Some(c.patronId)
              && slots.patronName == Some(c.patronName) && slots.dueDate == Some(c.dueDate)
              && slots.isOverdue == Some(c.isOverdue) && slots.fulfillmentId.None? && slots.fulfillmentTarget.None?
    {
      slots.SetLoan(c.loanId, session.work, pseudonyms.patrons);
      slots.SetCopy(c.holdingId, c.barcode, c.title, session.work, pseudonyms.patrons);
      slots.SetPatron(c.patronId, c.patronName, session.work, pseudonyms.patrons);
      slots.SetDueDate(c.dueDate, c.isOverdue, session.work, pseudonyms.patrons);
      slots.SetFulfillment(None, session.work, pseudonyms.patrons);
      slots.SetTarget(None);
    }

    method ApplyCandidate(slots: IssueSlots, c: ReturnCandidate)
      requires Kept(slots) && LoanKnown(session.work, c)
      modifies slots`loanId, slots`holdingId, slots`holdingBarcode, slots`catalogTitle, slots`patronId,
               slots`patronName,
               slots`dueDate, slots`isOverdue, slots`fulfillmentId, slots`fulfillmentTarget,
               pseudonyms`loans, pseudonyms`holdings
      ensures Kept(slots)
      ensures slots.loanId == Some(c.loanId) && slots.holdingId == Some(c.holdingId)
              && slots.holdingBarcode == Some(c.barcode)
              && slots.catalogTitle == Some(c.title) && slots.patronId == Some(c.patronId)
              && slots.patronName == Some(c.patronName) && slots.dueDate == Some(c.dueDate)
              && slots.isOverdue == Some(c.isOverdue) && slots.fulfillmentId.None? && slots.fulfillmentTarget.None?
    {
      FillSlots(slots, c);
      var _ := pseudonyms.Loan(c.loanId);
      var _ := pseudonyms.Holding(c.holdingId);
    }

    /** Open loans that match; an error that the services raise reads as no answer. */
    method FindLoans(query: Option<string>, card: Option<string>, ref: Option<string>, title: Option<string>,
                     today: Day)
      returns (r: Result<Option<seq<ReturnCandidate>>>)
      requires Wired()
      ensures r.Err? ==> !IsAppError(r.error)
      ensures r.Ok? && r.value.Some? ==> LoansKnown(session.work, r.value.value)
      ensures r.Ok? && r.value.Some? && r.value.value != [] ==> LoanKnown(session.work, r.value.value[0])
    {
      var found, _ := workflow.SearchCandidates(query, card, ref, title, today);
      if found.Err? {
        return if IsAppError(found.error) then Ok(None) else Err(found.error);
      }
      RowsAreKnown(session.work, today, found.value);
      return Ok(Some(found.value));
    }

    /** One open loan is taken at once, several become the candidates. */
    method SearchReturnLoans(slots: IssueSlots, query: Option<string>, card: Option<string>, ref: Option<string>,
                             title: Option<string>, today: Day)
      returns (r: Result<ToolResult>)
      requires Wired() && Kept(slots)
      modifies slots`activeFlow, slots`returnCandidates, slots`loanId, slots`holdingId, slots`holdingBarcode,
               slots`catalogTitle, slots`patronId, slots`patronName, slots`dueDate, slots`isOverdue,
               slots`fulfillmentId,
               slots`fulfillmentTarget, pseudonyms`loans, pseudonyms`holdings
      ensures Kept(slots) && (r.Err? ==> !IsAppError(r.error))
      ensures r.Ok? && r.value.count == 1 ==> slots.loanId.Some? && slots.holdingId.Some? && slots.patronId.Some?
      ensures r.Ok? && r.value.count != 1 ==>
                slots.loanId == old(slots.loanId) && slots.holdingId == old(slots.holdingId)
      ensures r.Ok? && r.value.count > 1 ==> |slots.returnCandidates| == r.value.count
    {
      var found :- FindLoans(query, card, ref, title, today);
      if found.None? {
        return Ok(Reply(false));
      }
      var candidates := found.value;
      slots.SetFlow(ReturnFlow);
      LabelLoans(candidates);
      slots.SetReturnCandidates(candidates, session.work, pseudonyms.patrons);
      if candidates == [] {
        return Ok(Reply(false));
      }
      if |candidates| == 1 {
        ApplyCandidate(slots, candidates[0]);
        slots.SetReturnCandidates([], session.work, pseudonyms.patrons);
        return Ok(Reply(true).(count := 1, autoSelected := true));
      }
      return Ok(Reply(true).(count := |candidates|));
    }

    /** The patron's open loans; the patron found becomes the desk's patron, and any earlier selection is dropped. */
    method ListPatronLoansAtDesk(slots: IssueSlots, card: Option<string>, ref: Option<string>, returnIntent: bool,
                                 today: Day)
      returns (r: Result<ToolResult>)
      requires Wired() && Kept(slots)
      modifies slots`activeFlow, slots`returnCandidates, slots`loanId, slots`holdingId, slots`holdingBarcode,
               slots`catalogTitle, slots`patronId, slots`patronName, slots`dueDate, slots`isOverdue,
               slots`fulfillmentId,
               slots`fulfillmentTarget, pseudonyms`loans, pseudonyms`holdings, pseudonyms`patrons
      ensures Kept(slots) && (r.Err? ==> !IsAppError(r.error))
      ensures r.Err? ==> slots.Core() == old(slots.Core())
      ensures r.Ok? && r.value.ok && !r.value.autoSelected ==> slots.loanId.None? && slots.holdingId.None?
      ensures r.Ok? && r.value.autoSelected ==>
                slots.loanId.Some? && slots.holdingId.Some? && slots.returnCandidates == []
      ensures old(slots.patronId).Some? ==> slots.patronId.Some?
    {
      var query := if slots.patronId.Some? && !Given(card) then slots.patronName else None;
      var found :- FindLoans(query, card, ref, None, today);
      if found.None? {
        return Ok(Reply(false));
      }
      var candidates := found.value;
      ListCandidates(slots, candidates);
      var reply := PresentCandidates(slots, candidates, returnIntent);
      return Ok(reply);
    }

    /** A single loan to return is selected; otherwise nothing is. */
    method PresentCandidates(slots: IssueSlots, candidates: seq<ReturnCandidate>, returnIntent: bool)
      returns (reply: ToolResult)
      requires Wired() && Kept(slots) && (candidates != [] ==> LoanKnown(session.work, candidates[0]))
      modifies slots`returnCandidates, slots`loanId, slots`holdingId, slots`holdingBarcode,
               slots`catalogTitle, slots`patronId, slots`patronName, slots`dueDate, slots`isOverdue,
               slots`fulfillmentId,
               slots`fulfillmentTarget, pseudonyms`loans, pseudonyms`holdings
      ensures Kept(slots) && reply.ok
      ensures reply.autoSelected <==> returnIntent && |candidates| == 1
      ensures !reply.autoSelected ==>
                slots.loanId.None? && slots.holdingId.None? && slots.patronId == old(slots.patronId)
      ensures reply.autoSelected ==>
                slots.loanId.Some? && slots.holdingId.Some? && slots.patronId.Some? && slots.returnCandidates == []
    {
      if returnIntent && |candidates| == 1 {
        ApplyCandidate(slots, candidates[0]);
        slots.SetReturnCandidates([], session.work, pseudonyms.patrons);
        return Reply(true).(count := 1, autoSelected := true, returnIntent := true);
      }
      slots.ForgetSelection(session.work, pseudonyms.patrons);
      return Reply(true).(count := |candidates|, returnIntent := returnIntent && candidates != []);
    }

    method ListCandidates(slots: IssueSlots, candidates: seq<ReturnCandidate>)
      requires Kept(slots) && LoansKnown(session.work, candidates)
      modifies slots`activeFlow, slots`returnCandidates, slots`patronId, slots`patronName, pseudonyms`loans,
               pseudonyms`patrons
      ensures Kept(slots) && slots.returnCandidates == candidates
      ensures if candidates == [] then slots.patronId == old(slots.patronId)
              else slots.patronId == Some(candidates[0].patronId)
    {
      slots.SetFlow(ReturnFlow);
      LabelLoans(candidates);
      slots.SetReturnCandidates(candidates, session.work, pseudonyms.patrons);
      if candidates != [] {
        assert LoanKnown(session.work, candidates[0]);
        slots.SetPatron(candidates[0].patronId, candidates[0].patronName, session.work, pseudonyms.patrons);
        ghost var before := pseudonyms.patrons;
        var _ := pseudonyms.Patron(candidates[0].patronId);
        slots.WellFormedMore(session.work, before, pseudonyms.patrons);
      }
    }

    /** A pseudonym outranks a barcode, a barcode a title. */
    method FilterCandidates(candidates: seq<ReturnCandidate>, barcode: Option<string>, title: Option<string>,
                            pseudonym: Option<string>) returns (matches: seq<ReturnCandidate>)
      requires LoansKnown(session.work, candidates)
      ensures LoansKnown(session.work, matches)
      ensures forall c :: c in matches <==>
                c in candidates && LoanChosen(pseudonyms.loans, c, barcode, title, pseudonym)
      ensures Given(pseudonym) ==> |matches| <= 1
    {
      if Given(pseudonym) {
        var found := pseudonyms.ResolveLoan(Upper(pseudonym.value));
        if found.None? {
          return [];
        }
        var l := found.value;
        var p := (c: ReturnCandidate) => c.loanId == l;
        FilteredLoans(session.work, candidates, p, l);
        FilterMembers(candidates, p);
        return Filter(candidates, p);
      }
      var p := if Given(barcode) then
          var needle := Lower(Strip(barcode.value));
          (c: ReturnCandidate) => Lower(c.barcode) == needle
        else if Given(title) then
          var needle := Lower(Strip(title.value));
          (c: ReturnCandidate) => Contains(Lower(c.title), needle)
        else (c: ReturnCandidate) => false;
      FilteredLoans(session.work, candidates, p, 0);
      FilterMembers(candidates, p);
      return Filter(candidates, p);
    }

    /** Picks one candidate, which a card will ask to confirm; no slot but the list changes. */
    method SelectReturnLoan(slots: IssueSlots, barcode: Option<string>, title: Option<string>,
                            pseudonym: Option<string>)
      returns (r: ToolResult)
      requires Wired() && Kept(slots)
      modifies slots`returnCandidates, pseudonyms`loans
      ensures Kept(slots)
      ensures r.ok ==> r.candidate.Some? && LoanKnown(session.work, r.candidate.value)
                       && r.candidate.value in old(slots.returnCandidates)
                       && LoanChosen(old(pseudonyms.loans), r.candidate.value, barcode, title, pseudonym)
      ensures Given(pseudonym) ==> slots.returnCandidates == old(slots.returnCandidates)
    {
      if slots.returnCandidates == [] {
        return MISSING_SLOT;
      }
      slots.CandidatesKnown(session.work, pseudonyms.patrons);
      var matches := FilterCandidates(slots.returnCandidates, barcode, title, pseudonym);
      if matches == [] {
        return Reply(false);
      }
      LabelLoans(matches);
      if |matches| > 1 {
        slots.SetReturnCandidates(matches, session.work, pseudonyms.patrons);
        return Reply(false).(count := |matches|);
      }
      assert LoanKnown(session.work, matches[0]);
      return Reply(true).(candidate := Some(matches[0]));
    }

    method ApplyReturnSelection(slots: IssueSlots, candidate: ReturnCandidate) returns (r: ToolResult)
      requires Wired() && Kept(slots) && LoanKnown(session.work, candidate)
      modifies slots`loanId, slots`holdingId, slots`holdingBarcode, slots`catalogTitle, slots`patronId,
               slots`patronName,
               slots`dueDate, slots`isOverdue, slots`fulfillmentId, slots`fulfillmentTarget,
               pseudonyms`loans, pseudonyms`holdings
      ensures Kept(slots) && r == Reply(true)
      ensures slots.loanId == Some(candidate.loanId) && slots.holdingId == Some(candidate.holdingId)
              && slots.patronId == Some(candidate.patronId)
    {
      ApplyCandidate(slots, candidate);
      return Reply(true);
    }

    /** The open loan of a scanned copy fills the slots. */
    method LookupReturn(slots: IssueSlots, barcode: string, today: Day) returns (r: Result<ToolResult>)
      requires Wired() && Kept(slots)
      modifies slots`activeFlow, slots`returnCandidates, slots`loanId, slots`holdingId, slots`holdingBarcode,
               slots`catalogTitle, slots`patronId, slots`patronName, slots`dueDate, slots`isOverdue,
               slots`fulfillmentId,
               slots`fulfillmentTarget, pseudonyms`loans
      ensures Kept(slots) && (r.Err? ==> !IsAppError(r.error))
      ensures r.Ok? && r.value.ok ==> slots.holdingBarcode == Some(barcode) && slots.returnCandidates == []
      ensures r.Ok? && r.value.ok ==> slots.loanId.Some? && slots.loanId.value in session.work.loans
      ensures r.Ok? && r.value.ok ==>
                var loan := session.work.loans[slots.loanId.value];
                && Open(loan) && slots.holdingId == Some(loan.holdingId) && slots.patronId == Some(loan.patronId)
                && slots.dueDate == Some(loan.dueDate) && slots.isOverdue == Some(loan.dueDate < today)
      ensures r.Ok? && !r.value.ok ==> slots.Core() == old(slots.Core())
    {
      var found := workflow.Start(Some(barcode), None, today);
      if found.Err? {
        return if IsAppError(found.error) then Ok(Reply(false)) else Err(found.error);
      }
      slots.SetFlow(ReturnFlow);
      FillSlots(slots, found.value.row);
      slots.SetReturnCandidates([], session.work, pseudonyms.patrons);
      var _ := pseudonyms.Loan(found.value.row.loanId);
      return Ok(Reply(true));
    }

    // ---- tools that write ----

    function Snapshot(slots: IssueSlots): Selection
      reads slots
    {
      Selection(slots.loanId, slots.holdingId, slots.holdingBarcode, slots.patronId, slots.patronName,
                slots.catalogTitle,
                slots.dueDate, slots.isOverdue, slots.returnCandidates)
    }

    /** Puts a saved selection back, whatever the slots hold now; nothing else changes. */
    method RestoreSelection(slots: IssueSlots, saved: Selection)
      modifies slots`loanId, slots`holdingId, slots`holdingBarcode, slots`catalogTitle, slots`patronId,
               slots`patronName,
               slots`dueDate, slots`isOverdue, slots`returnCandidates
      ensures Snapshot(slots) == saved
    {
      slots.PutLoan(saved.loanId, saved.dueDate, saved.isOverdue);
      slots.PutCopy(saved.holdingId, saved.holdingBarcode, saved.catalogTitle);
      slots.PutPatron(saved.patronId, saved.patronName, saved.returnCandidates);
    }

    method ClearReturnState(slots: IssueSlots)
      requires Kept(slots)
      modifies slots`loanId, slots`holdingId, slots`holdingBarcode, slots`catalogTitle, slots`patronId,
               slots`patronName,
               slots`dueDate, slots`isOverdue, slots`returnCandidates, slots`fulfillmentId, slots`fulfillmentTarget,
               slots`activeFlow
      ensures Kept(slots)
      ensures Snapshot(slots) == Selection(None, None, None, None, None, None, None, None, [])
      ensures slots.fulfillmentId.None? && slots.fulfillmentTarget.None?
    {
      slots.ForgetSelection(session.work, pseudonyms.patrons);
      slots.ClearPatron(session.work, pseudonyms.patrons);
      slots.SetReturnCandidates([], session.work, pseudonyms.patrons);
      slots.SetFulfillment(None, session.work, pseudonyms.patrons);
      slots.SetTarget(None);
      slots.SetFlow(IssueFlow);
    }

    /** Returns the copy in the slots, else the loan; a refusal is rolled back and leaves the selection as it was. */
    method CommitDeskReturn(slots: IssueSlots, key: nat, now: Time) returns (r: Result<ToolResult>)
      requires Wired() && session.Clean() && Inv(session.committed) && Settled(slots)
      modifies session, slots`loanId, slots`holdingId, slots`holdingBarcode, slots`catalogTitle, slots`patronId,
               slots`patronName,
               slots`dueDate, slots`isOverdue, slots`returnCandidates, slots`fulfillmentId, slots`fulfillmentTarget,
               slots`activeFlow, pseudonyms`loans
      ensures Settled(slots) && session.Clean() && r.Ok?
      ensures old(slots.loanId).None? ==> r.value == MISSING_SLOT && session.committed == old(session.committed)
      ensures old(slots.loanId).Some? ==>
                var o := ReturnHolding(old(session.committed), old(slots.holdingId), old(slots.loanId), Approval(key),
                                       now);
                && session.committed == o.tables
                && r.value == Reply(o.result.Ok?)
                && (o.result.Ok? ==> slots.loanId.None?)
      ensures !r.value.ok ==> slots.Core() == old(slots.Core())
    {
      if slots.loanId.None? {
        return Ok(MISSING_SLOT);
      }
      var saved := Snapshot(slots);
      ghost var before := session.committed;
      ghost var c := DoReturn(slots.holdingId, slots.loanId, Approval(key), now);
      SlotsOverReturn(slots, pseudonyms.patrons, before, c,
                      ReturnHolding(before, c.holdingOpt, c.loanOpt, c.key, c.now).tables);
      ReturnRefusals(before, slots.holdingId, slots.loanId, Approval(key), now);
      var done := workflow.CommitDesk(slots.holdingId, slots.loanId, Approval(key), now);
      if done.Err? {
        session.Rollback();
        RestoreSelection(slots, saved);
        return Ok(Reply(false));
      }
      session.Commit();
      var _ := pseudonyms.Loan(done.value);
      ClearReturnState(slots);
      return Ok(Reply(true));
    }

    method TryPickup(slots: IssueSlots, key: nat, notes: Option<string>, newFulfillment: Id) returns (done: Result<Id>)
      requires Wired() && session.Clean() && Inv(session.committed) && Settled(slots) && slots.loanId.Some?
      modifies session
      ensures Settled(slots)
      ensures Ran(old(session.committed), DoInitiatePickup(slots.loanId.value, notes, Approval(key), newFulfillment),
                  session.committed)
      ensures done.Ok? ==> session.Clean() && done.value in session.committed.fulfillments
    {
      ghost var before := session.committed;
      ghost var c := DoInitiatePickup(slots.loanId.value, notes, Approval(key), newFulfillment);
      SlotsOverPickup(slots, pseudonyms.patrons, before, c,
                      InitiatePickup(before, c.loan, c.notes, c.key, c.newFulfillment));
      done := workflow.InitiatePickup(slots.loanId.value, notes, Approval(key), newFulfillment);
      RanPickup(before, c, session.committed);
    }

    /** Schedules the pick-up of the loan in the slots; a refusal is rolled back and leaves the selection as it was. */
    method InitiateReturnPickup(slots: IssueSlots, key: nat, notes: Option<string>, newFulfillment: Id)
      returns (r: Result<ToolResult>)
      requires Wired() && session.Clean() && Inv(session.committed) && Settled(slots)
      modifies session, slots`loanId, slots`holdingId, slots`holdingBarcode, slots`catalogTitle, slots`patronId,
               slots`patronName,
               slots`dueDate, slots`isOverdue, slots`returnCandidates, slots`fulfillmentId, pseudonyms`fulfillments
      ensures Settled(slots) && (r.Ok? ==> session.Clean()) && slots.loanId == old(slots.loanId)
      ensures slots.loanId.None? ==> r == Ok(MISSING_SLOT) && session.committed == old(session.committed)
      ensures slots.loanId.Some? ==>
                && Ran(old(session.committed),
                       DoInitiatePickup(slots.loanId.value, notes, Approval(key), newFulfillment),
                       session.committed)
                && (r.Ok? ==> !r.value.missingSlot)
      ensures r == Ok(Reply(false)) || r.Err? ==> slots.Core() == old(slots.Core())
    {
      if slots.loanId.None? {
        return Ok(MISSING_SLOT);
      }
      var saved := Snapshot(slots);
      var done := TryPickup(slots, key, notes, newFulfillment);
      if done.Err? {
        if !IsAppError(done.error) {
          return Err(done.error);
        }
        session.Rollback();
        RestoreSelection(slots, saved);
        return Ok(Reply(false));
      }
      session.Commit();
      slots.SetFulfillment(Some(done.value), session.committed, pseudonyms.patrons);
      var _ := pseudonyms.Fulfillment(done.value);
      return Ok(Reply(true));
    }
  }
}
