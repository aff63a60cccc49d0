/** The issue and return workflows: several services in one request, proved against their specification functions. */
module Workflows {
  import opened Domain
  import opened Circulation
  import opened Invariants
  import opened History
  import opened OperationLaws
  import opened Services
  import opened Queries

  /** A stored return answer for a loan names a closed loan, so an open loan is never answered from the store. */
  lemma OpenLoanNeverReplays(t: Tables, l: Id, key: Key)
    requires RecordInv(t) && l in t.loans && Open(t.loans[l])
    ensures !ReturnIsReplay(t, None, Some(l), key)
  {
    assert (ReturnOf(l), key) in t.records ==> RecordOk(t, ReturnOf(l), t.records[(ReturnOf(l), key)]);
  }

  datatype IssueResult = IssueResult(loan: Id, fulfillment: Option<Id>)

  datatype CancelResult = CancelResult(loan: Id, fulfillmentCancelled: bool)

  // ---- lendable copies, as searches list them ----

  datatype CatalogLendableCopy = CatalogLendableCopy(holdingId: Id, barcode: string, title: string)

  ghost predicate HitKnown(t: Tables, hit: LendableCatalogHit) {
    hit.catalog in t.lib.catalogs && forall h | h in hit.holdings :: h in t.holdings
  }

  ghost predicate HitsKnown(t: Tables, hits: seq<LendableCatalogHit>) {
    forall i | 0 <= i < |hits| :: HitKnown(t, hits[i])
  }

  function CopyOf(t: Tables, c: Id, h: Id): CatalogLendableCopy
    requires c in t.lib.catalogs && h in t.holdings
  {
    CatalogLendableCopy(h, t.holdings[h].barcode, t.lib.catalogs[c].title)
  }

  /** The copies of the hits in order, one list. */
  ghost function Flat(t: Tables, hits: seq<LendableCatalogHit>): seq<CatalogLendableCopy>
    requires HitsKnown(t, hits)
  {
    if hits == [] then []
    else var last := hits[|hits| - 1];
         Flat(t, hits[..|hits| - 1]) + CopiesOf(t, last.catalog, last.holdings)
  }

  ghost function CopiesOf(t: Tables, c: Id, holdings: seq<Id>): (r: seq<CatalogLendableCopy>)
    requires c in t.lib.catalogs && forall h | h in holdings :: h in t.holdings
    ensures |r| == |holdings|
    ensures forall i | 0 <= i < |holdings| :: r[i] == CopyOf(t, c, holdings[i])
  {
    if holdings == [] then []
    else CopiesOf(t, c, holdings[..|holdings| - 1]) + [CopyOf(t, c, holdings[|holdings| - 1])]
  }

  lemma {:induction false} FlatPrefix(t: Tables, hits: seq<LendableCatalogHit>, i: nat)
    requires HitsKnown(t, hits) && i <= |hits|
    ensures Flat(t, hits[..i]) <= Flat(t, hits)
    decreases |hits|
  {
    if i < |hits| {
      assert hits[..|hits| - 1][..i] == hits[..i];
      FlatPrefix(t, hits[..|hits| - 1], i);
    } else {
      assert hits[..i] == hits;
    }
  }

  lemma CopiesPrefix(t: Tables, c: Id, holdings: seq<Id>, j: nat)
    requires c in t.lib.catalogs && j <= |holdings| && forall h | h in holdings :: h in t.holdings
    ensures CopiesOf(t, c, holdings[..j]) <= CopiesOf(t, c, holdings)
  {
  }

  lemma FlatNext(t: Tables, hits: seq<LendableCatalogHit>, i: nat)
    requires HitsKnown(t, hits) && i < |hits|
    ensures Flat(t, hits[..i + 1]) == Flat(t, hits[..i]) + CopiesOf(t, hits[i].catalog, hits[i].holdings)
  {
    assert hits[..i + 1][..i] == hits[..i];
  }

  lemma PrefixOfSum<T>(front: seq<T>, part: seq<T>, rest: seq<T>, all: seq<T>)
    requires part <= rest && front + rest <= all
    ensures front + part <= all
  {
  }

  /** What the collecting loops hold inside hit i after its first j copies is a prefix of the flat list. */
  lemma FlatPartial(t: Tables, hits: seq<LendableCatalogHit>, i: nat, j: nat)
    requires HitsKnown(t, hits) && i < |hits| && j <= |hits[i].holdings|
    ensures Flat(t, hits[..i]) + CopiesOf(t, hits[i].catalog, hits[i].holdings[..j]) <= Flat(t, hits)
  {
    FlatNext(t, hits, i);
    CopiesPrefix(t, hits[i].catalog, hits[i].holdings, j);
    FlatPrefix(t, hits, i + 1);
    PrefixOfSum(Flat(t, hits[..i]), CopiesOf(t, hits[i].catalog, hits[i].holdings[..j]),
                CopiesOf(t, hits[i].catalog, hits[i].holdings), Flat(t, hits));
  }

  ghost function FirstCopies(t: Tables, hits: seq<LendableCatalogHit>, limit: nat): seq<CatalogLendableCopy>
    requires HitsKnown(t, hits)
  {
    var flat := Flat(t, hits);
    flat[..if limit < |flat| then limit else |flat|]
  }

  /** The list so far: the hits before i, and the first j copies of hit i. */
  ghost predicate Collected(t: Tables, hits: seq<LendableCatalogHit>, i: nat, j: nat, copies: seq<CatalogLendableCopy>)
    requires HitsKnown(t, hits) && i <= |hits| && j <= if i < |hits| then |hits[i].holdings| else 0
  {
    copies == Flat(t, hits[..i]) + if i < |hits| then CopiesOf(t, hits[i].catalog, hits[i].holdings[..j]) else []
  }

  lemma CollectedNext(t: Tables, hits: seq<LendableCatalogHit>, i: nat, j: nat, copies: seq<CatalogLendableCopy>)
    requires HitsKnown(t, hits) && i < |hits| && j < |hits[i].holdings| && Collected(t, hits, i, j, copies)
    ensures Collected(t, hits, i, j + 1, copies + [CopyOf(t, hits[i].catalog, hits[i].holdings[j])])
  {
    assert hits[i].holdings[..j + 1][..j] == hits[i].holdings[..j];
  }

  lemma CollectedHit(t: Tables, hits: seq<LendableCatalogHit>, i: nat, copies: seq<CatalogLendableCopy>)
    requires HitsKnown(t, hits) && i < |hits| && Collected(t, hits, i, |hits[i].holdings|, copies)
    ensures Collected(t, hits, i + 1, 0, copies)
  {
    assert hits[i].holdings[..|hits[i].holdings|] == hits[i].holdings;
    assert hits[..i + 1][..i] == hits[..i];
  }

  lemma CollectedEnough(t: Tables, hits: seq<LendableCatalogHit>, i: nat, j: nat, copies: seq<CatalogLendableCopy>,
                        limit: nat)
    requires HitsKnown(t, hits) && i < |hits| && j <= |hits[i].holdings| && Collected(t, hits, i, j, copies)
    requires |copies| == limit
    ensures copies == FirstCopies(t, hits, limit)
  {
    FlatPartial(t, hits, i, j);
  }

  lemma CollectedAll(t: Tables, hits: seq<LendableCatalogHit>, copies: seq<CatalogLendableCopy>, limit: nat)
    requires HitsKnown(t, hits) && Collected(t, hits, |hits|, 0, copies) && (|copies| < limit || hits == [])
    ensures copies == FirstCopies(t, hits, limit)
  {
    assert hits[..|hits|] == hits;
  }

  /** A list of copies on the shelf, no copy twice, under the barcode and title in the tables. */
  ghost predicate ListedCopies(t: Tables, copies: seq<CatalogLendableCopy>) {
    && (forall i | 0 <= i < |copies| :: ListedCopy(t, copies[i]))
    && (forall i, j | 0 <= i < j < |copies| :: copies[i].holdingId != copies[j].holdingId)
  }

  ghost predicate ListedCopy(t: Tables, c: CatalogLendableCopy) {
    Lendable(t, c.holdingId) && c == CopyOf(t, t.holdings[c.holdingId].catalogId, c.holdingId)
  }

  lemma {:induction false} FlatIsListed(t: Tables, hits: seq<LendableCatalogHit>)
    requires HitsExact(t, hits)
    ensures HitsKnown(t, hits) && ListedCopies(t, Flat(t, hits))
    ensures forall k | 0 <= k < |Flat(t, hits)| ::
              exists i | 0 <= i < |hits| :: hits[i].catalog == t.holdings[Flat(t, hits)[k].holdingId].catalogId
  {
    forall i | 0 <= i < |hits| ensures HitKnown(t, hits[i]) { assert HitExact(t, hits[i]); }
    if hits != [] {
      var n := |hits| - 1;
      FlatIsListed(t, hits[..n]);
      var front := Flat(t, hits[..n]);
      var back := CopiesOf(t, hits[n].catalog, hits[n].holdings);
      assert HitExact(t, hits[n]);
      forall k | 0 <= k < |back|
        ensures ListedCopy(t, back[k]) && t.holdings[back[k].holdingId].catalogId == hits[n].catalog
      {
        assert hits[n].holdings[k] in hits[n].holdings;
      }
      forall k, m | 0 <= k < |front| && 0 <= m < |back|
        ensures front[k].holdingId != back[m].holdingId
      {
        var i :| 0 <= i < n && hits[..n][i].catalog == t.holdings[front[k].holdingId].catalogId;
        assert hits[i].catalog != hits[n].catalog;
      }
      forall k | 0 <= k < |front + back|
        ensures exists i | 0 <= i < |hits| :: hits[i].catalog == t.holdings[(front + back)[k].holdingId].catalogId
      {
        if k < |front| {
          var i :| 0 <= i < n && hits[..n][i].catalog == t.holdings[front[k].holdingId].catalogId;
          assert hits[i].catalog == t.holdings[(front + back)[k].holdingId].catalogId;
        } else {
          assert hits[n].catalog == t.holdings[(front + back)[k].holdingId].catalogId;
        }
      }
    }
  }

  datatype IssueStartResult = IssueStartResult(
    patronId: Id, patronName: string, violations: seq<Rule>, searchResults: seq<LendableCatalogHit>)

  /** The patron exists, is named as in the tables, and is previewed; hits are exact. */
  ghost predicate StartOk(t: Tables, r: IssueStartResult) {
    && r.patronId in t.lib.patrons && r.patronName == t.lib.patrons[r.patronId].name
    && r.violations == PatronViolations(t, r.patronId)
    && HitsExact(t, r.searchResults)
  }

  datatype StartAnswer = Started(value: IssueStartResult) | Ambiguous(rows: seq<Id>) | Refusal(error: Error)

  class SearchAndIssueWorkflow {
    const session: Session
    const orchestrator: CirculationOrchestrator
    const reference: ReferenceService
    const catalog: CatalogService
    const validator: IssueEligibilityValidator
    const fulfillment: FulfillmentService

    constructor (s: Session, o: CirculationOrchestrator)
      requires o.session == s && o.Wired()
      ensures session == s && Wired()
    {
      session := s;
      orchestrator := o;
      reference := new ReferenceService(s);
      catalog := new CatalogService(s);
      validator := new IssueEligibilityValidator(s);
      fulfillment := new FulfillmentService(s);
    }

    ghost predicate Wired() {
      && orchestrator.session == session && orchestrator.Wired()
      && reference.session == session && catalog.session == session
      && validator.session == session && validator.Wired()
      && fulfillment.session == session
    }

    method SearchPatrons(limit: nat) returns (r: Result<seq<Id>>)
      requires Wired()
      ensures r.Err? ==> r.error == Unhandled
      ensures r.Ok? ==> Distinct(r.value) && |r.value| <= limit
                        && forall p | p in r.value :: p in session.work.lib.patrons
    {
      r := reference.SearchPatrons(limit);
    }

    /** Collects copies hit by hit and stops as soon as there are enough. */
    method Collect(t: Tables, hits: seq<LendableCatalogHit>, limit: nat) returns (copies: seq<CatalogLendableCopy>)
      requires HitsKnown(t, hits) && (hits != [] ==> 0 < limit)
      ensures copies == FirstCopies(t, hits, limit)
    {
      copies := [];
      for i := 0 to |hits|
        invariant Collected(t, hits, i, 0, copies)
        invariant |copies| < limit || hits == []
      {
        assert HitKnown(t, hits[i]);
        for j := 0 to |hits[i].holdings|
          invariant Collected(t, hits, i, j, copies)
          invariant |copies| < limit
        {
          CollectedNext(t, hits, i, j, copies);
          copies := copies + [CopyOf(t, hits[i].catalog, hits[i].holdings[j])];
          if |copies| >= limit {
            CollectedEnough(t, hits, i, j + 1, copies, limit);
            return;
          }
        }
        CollectedHit(t, hits, i, copies);
      }
      CollectedAll(t, hits, copies, limit);
    }

    method SearchCatalogLendable(limit: nat)
      returns (r: Result<seq<CatalogLendableCopy>>, ghost hits: seq<LendableCatalogHit>)
      requires Wired()
      ensures r.Err? ==> r.error == Unhandled
      ensures r.Ok? ==> HitsExact(session.work, hits) && HitsKnown(session.work, hits)
                        && r.value == FirstCopies(session.work, hits, limit)
      ensures r.Ok? ==> ListedCopies(session.work, r.value)
    {
      hits := [];
      var found := catalog.SearchLendable(limit);
      if found.Err? {
        return Err(found.error), hits;
      }
      hits := found.value;
      FlatIsListed(session.work, hits);
      var copies := Collect(session.work, found.value, limit);
      return Ok(copies), hits;
    }

    /** Resolves one patron, previews the patron's rules, and may search lendable copies. */
    method Start(patronId: Option<Id>, card: Option<string>, ref: Option<string>, name: Option<string>,
                 search: Option<string>,
                 now: Time, today: Day) returns (r: StartAnswer)
      requires Wired() && BlockInv(session.work.lib)
      ensures r.Started? ==> StartOk(session.work, r.value) && (patronId.Some? ==> r.value.patronId == patronId.value)
      ensures patronId.Some? && search.None? ==>
                (if patronId.value in session.work.lib.patrons then r.Started? else r == Refusal(NotFound))
      ensures r.Ambiguous? ==> patronId.None? && Distinct(r.rows)
                               && forall p | p in r.rows :: p in session.work.lib.patrons
      ensures patronId.None? && card.Some? && NoText(name) ==>
                && (r.Started? ==> session.work.lib.patrons[r.value.patronId].card == card)
                && (search.None? ==>
                      if CardTaken(session.work.lib, None, card) then r.Started? else r == Refusal(NotFound))
      ensures patronId.None? && card.None? && ref.Some? && NoText(name) ==>
                && (r.Started? ==> session.work.lib.patrons[r.value.patronId].reference == ref)
                && (search.None? ==>
                      if ReferenceTaken(session.work.lib, None, ref) then r.Started? else r == Refusal(NotFound))
      ensures patronId.None? && card.None? && ref.None? && NoText(name) ==> r == Refusal(Validation)
    {
      var found := reference.ResolvePatronLookup(patronId, card, ref, name);
      if found.Many? {
        return Ambiguous(found.rows);
      }
      if found.Failed? {
        return Refusal(found.error);
      }
      var p := found.patron;
      var violations := validator.ValidatePatron(p, now, today);
      var hits: seq<LendableCatalogHit> := [];
      if search.Some? && search.value != "" {
        var answer := catalog.SearchLendable(50);
        if answer.Err? {
          return Refusal(answer.error);
        }
        hits := answer.value;
      }
      return Started(IssueStartResult(p, session.work.lib.patrons[p].name, violations, hits));
    }

    method FindLendableCopyByBarcode(p: Id, barcode: string, now: Time, today: Day)
      returns (r: Result<CatalogLendableCopy>)
      requires Wired() && BlockInv(session.work.lib)
      ensures r.Ok? ==> ListedCopy(session.work, r.value) && r.value.barcode == barcode && p in session.work.lib.patrons
      ensures p in session.work.lib.patrons && BarcodeTaken(session.work, barcode)
              && (forall h | h in session.work.holdings && session.work.holdings[h].barcode == barcode ::
                  Lendable(session.work, h))
              ==> r.Ok?
    {
      var found := reference.ResolvePatronLookup(Some(p), None, None, None);
      if found.Failed? {
        return Err(found.error);
      }
      var _ := validator.ValidatePatron(p, now, today);
      var h :- catalog.GetHoldingByBarcode(barcode);
      var holding := session.work.holdings[h];
      if holding.catalogId !in session.work.lib.catalogs
         || session.work.lib.catalogs[holding.catalogId].status != Published {
        return Err(RuleViolation);
      }
      if holding.status != Available || !holding.circulating {
        return Err(RuleViolation);
      }
      return Ok(CatalogLendableCopy(h, holding.barcode, session.work.lib.catalogs[holding.catalogId].title));
    }

    method Validate(p: Id, h: Id, now: Time, today: Day) returns (report: seq<Rule>)
      requires Wired() && BlockInv(session.work.lib)
      ensures report == IssueViolations(session.work, p, h)
    {
      report := validator.ValidateIssue(p, h, now, today);
    }

    method Commit(p: Id, h: Id, mode: Mode, notes: Option<string>, key: Key, newLoan: Id, newFulfillment: Id,
                  now: Time, today: Day, crash: bool) returns (r: Result<IssueResult>)
      requires Wired() && session.Clean() && BlockInv(session.committed.lib)
      modifies session
      ensures var o := CommitIssue(old(session.committed), p, h, mode, notes, key, newLoan, newFulfillment, now, today,
                                   crash);
              && session.committed == o.tables
              && (match o.result
                  case Err(e) => r == Err(e)
                  case Ok(l) => r.Ok? && r.value.loan == l && session.Clean())
      ensures r.Ok? ==>
                var rows := IssueFulfillments(session.committed, r.value.loan);
                r.value.fulfillment.Some? ==> r.value.fulfillment.value in rows
      ensures r.Ok? && (CheckoutOf(h), key) !in old(session.committed).records ==>
                && r.value == IssueResult(newLoan, if mode == Desk then None else Some(newFulfillment))
                && NewLoanOk(old(session.committed), session.committed, newLoan, p, h, now, today)
    {
      var cached :- FindCached(session.work.records, CheckoutOf(h), key, CheckoutPayload(p, h));
      if cached.None? {
        var report := validator.ValidateIssue(p, h, now, today);
        if report != [] {
          return Err(RuleViolation);
        }
      }
      r := Lend(p, h, mode, notes, key, newLoan, newFulfillment, now, today, crash);
    }

    /** The checkout, which commits, and after it the delivery. */
    method Lend(p: Id, h: Id, mode: Mode, notes: Option<string>, key: Key, newLoan: Id, newFulfillment: Id,
                now: Time, today: Day, crash: bool) returns (r: Result<IssueResult>)
      requires Wired() && session.Clean() && BlockInv(session.committed.lib)
      modifies session
      ensures var t := old(session.committed);
              var loan := Checkout(t, p, h, key, newLoan, now, today);
              var o := if loan.result.Err? then loan
                       else if crash then Refused(Unhandled, loan.tables)
                       else if mode == Desk || (CheckoutOf(h), key) in t.records then loan
                       else AddDelivery(loan.tables, loan.result.value, h, mode, notes, newFulfillment);
              && session.committed == o.tables
              && (match o.result
                  case Err(e) => r == Err(e)
                  case Ok(l) => r.Ok? && r.value.loan == l && session.Clean())
      ensures r.Ok? && r.value.fulfillment.Some? ==>
                r.value.fulfillment.value in IssueFulfillments(session.committed, r.value.loan)
      ensures r.Ok? && (CheckoutOf(h), key) !in old(session.committed).records ==>
                && r.value == IssueResult(newLoan, if mode == Desk then None else Some(newFulfillment))
                && NewLoanOk(old(session.committed), session.committed, newLoan, p, h, now, today)
    {
      var again := (CheckoutOf(h), key) in session.work.records;
      var loan :- orchestrator.Checkout(p, h, key, newLoan, now, today);
      if crash {
        return Err(Unhandled);
      }
      r := Deliver(loan, h, mode, notes, again, newFulfillment);
    }

    /** After the loan is committed: a new delivery in a commit of its own, or the one that an earlier try made. */
    method Deliver(loan: Id, h: Id, mode: Mode, notes: Option<string>, again: bool, newFulfillment: Id)
      returns (r: Result<IssueResult>)
      requires Wired() && session.Clean()
      requires again || mode == Desk
               || (RequireOpenLoan(session.committed, Some(loan)).None? && session.committed.loans[loan].holdingId == h)
      modifies session
      ensures var t := old(session.committed);
              var o := if mode == Desk || again then Outcome(Ok(loan), t)
                       else AddDelivery(t, loan, h, mode, notes, newFulfillment);
              && session.committed == o.tables
              && (match o.result
                  case Err(e) => r == Err(e)
                  case Ok(l) => r.Ok? && r.value.loan == loan && session.Clean())
      ensures r.Ok? && r.value.fulfillment.Some? ==>
                r.value.fulfillment.value in IssueFulfillments(session.committed, loan)
      ensures r.Ok? && (mode == Desk || !again) ==>
                r.value == IssueResult(loan, if mode == Desk then None else Some(newFulfillment))
      ensures r.Ok? && mode != Desk && again ==>
                (r.value.fulfillment.Some? <==> IssueFulfillments(session.committed, loan) != {})
    {
      if mode == Desk {
        return Ok(IssueResult(loan, None));
      }
      if again {
        var existing := fulfillment.GetIssueFulfillmentForLoan(loan);
        return Ok(IssueResult(loan, existing));
      }
      var created :- fulfillment.CreateIssueFulfillment(loan, h, mode, notes, newFulfillment);
      session.Commit();
      return Ok(IssueResult(loan, Some(created)));
    }

    method CancelIssue(l: Id, key: Key, now: Time) returns (r: Result<CancelResult>)
      requires Wired() && session.Clean() && RecordInv(session.committed) && OneOpenLoanEach(session.committed)
      modifies session
      ensures var o := Circulation.CancelIssue(old(session.committed), l, key, now);
              && session.committed == o.tables
              && (match o.result
                  case Err(e) => r == Err(e)
                  case Ok(m) => r.Ok? && r.value.loan == m && session.Clean())
      ensures r.Ok? ==> (r.value.fulfillmentCancelled <==>
                           exists f | f in IssueFulfillments(old(session.committed), l) ::
                             !Terminal(old(session.committed).fulfillments[f].status))
    {
      if l !in session.work.loans {
        return Err(NotFound);
      }
      if !Open(session.work.loans[l]) {
        return Err(RuleViolation);
      }
      OpenLoanNeverReplays(session.work, l, key);
      var fulfillmentCancelled := fulfillment.CancelIssueFulfillmentsForLoan(l);
      var returned :- orchestrator.ReturnHolding(None, Some(l), key, now);
      return Ok(CancelResult(returned, fulfillmentCancelled));
    }
  }

  datatype ReturnResult = ReturnResult(loan: Id, fulfillment: Option<Id>)

  datatype ReturnCandidate = ReturnCandidate(
    loanId: Id, holdingId: Id, barcode: string, patronId: Id, patronName: string, title: string,
    dueDate: Day, isOverdue: bool)

  /** The row says what the tables say about this open loan. */
  ghost predicate OpenLoanRow(t: Tables, today: Day, c: ReturnCandidate) {
    && c.loanId in t.loans && Open(t.loans[c.loanId])
    && t.loans[c.loanId].holdingId == c.holdingId && t.loans[c.loanId].patronId == c.patronId
    && c.holdingId in t.holdings && t.holdings[c.holdingId].barcode == c.barcode
    && c.patronId in t.lib.patrons && t.lib.patrons[c.patronId].name == c.patronName
    && c.dueDate == t.loans[c.loanId].dueDate && (c.isOverdue <==> c.dueDate < today)
  }

  ghost predicate OpenLoanRows(t: Tables, today: Day, rows: seq<ReturnCandidate>) {
    && (forall i | 0 <= i < |rows| :: OpenLoanRow(t, today, rows[i]))
    && (forall i, j | 0 <= i < j < |rows| :: rows[i].loanId != rows[j].loanId)
  }

  datatype ReturnStart = ReturnStart(row: ReturnCandidate, openLoansForPatron: nat)

  /** No copy has the barcode, or one that has it is not on loan. */
  ghost predicate NothingOut(t: Tables, barcode: string) {
    || !BarcodeTaken(t, barcode)
    || exists h | h in t.holdings && t.holdings[h].barcode == barcode :: OpenLoansOf(t, h) == {}
  }

  ghost predicate AllPatronsKnown(t: Tables) {
    forall l | l in t.loans :: t.loans[l].patronId in t.lib.patrons
  }

  function TitleOr(t: Tables, h: Id): string
    requires h in t.holdings
  {
    var c := t.holdings[h].catalogId;
    if c in t.lib.catalogs then t.lib.catalogs[c].title else "Unknown title"
  }

  /** A card names one patron who carries it, else a reference does; without any of the three nobody is singled out. */
  ghost predicate LimitedTo(t: Tables, query: Option<string>, card: Option<string>, ref: Option<string>,
                            patrons: Option<seq<Id>>)
  {
    if !NoText(card) then
      patrons.Some? && |patrons.value| == 1 && patrons.value[0] in t.lib.patrons
      && t.lib.patrons[patrons.value[0]].card == card
    else if !NoText(ref) then
      patrons.Some? && |patrons.value| == 1 && patrons.value[0] in t.lib.patrons
      && t.lib.patrons[patrons.value[0]].reference == ref
    else if NoText(query) then patrons.None?
    else patrons.Some? && forall p | p in patrons.value :: p in t.lib.patrons
  }

  class ReturnBookWorkflow {
    const session: Session
    const orchestrator: CirculationOrchestrator
    const loans: LoanService
    const catalog: CatalogService
    const reference: ReferenceService
    const fulfillment: FulfillmentService

    constructor (s: Session, o: CirculationOrchestrator)
      requires o.session == s && o.Wired()
      ensures session == s && Wired()
    {
      session := s;
      orchestrator := o;
      loans := new LoanService(s);
      catalog := new CatalogService(s);
      reference := new ReferenceService(s);
      fulfillment := new FulfillmentService(s);
    }

    ghost predicate Wired() {
      && orchestrator.session == session && orchestrator.Wired() && fulfillment.session == session
      && loans.session == session && catalog.session == session && reference.session == session
    }

    /** The open loan of the scanned copy, or the named loan while it is open. */
    method ResolveLoan(barcode: Option<string>, loan: Option<Id>) returns (r: Result<Id>)
      requires Wired()
      ensures r.Ok? ==>
                && r.value in session.work.loans && Open(session.work.loans[r.value])
                && session.work.loans[r.value].holdingId in session.work.holdings
                && (if barcode.Some?
                    then session.work.holdings[session.work.loans[r.value].holdingId].barcode == barcode.value
                    else loan == Some(r.value))
      ensures barcode.None? && loan.None? ==> r == Err(Validation)
      ensures barcode.None? && loan.Some? ==>
                (r.Ok? <==> loan.value in session.work.loans && Open(session.work.loans[loan.value])
                            && session.work.loans[loan.value].holdingId in session.work.holdings)
      ensures barcode.Some? && r.Err? ==> NothingOut(session.work, barcode.value)
      ensures r.Err? ==> r.error == NotFound || r.error == Validation
    {
      if barcode.Some? {
        var h :- catalog.GetHoldingByBarcode(barcode.value);
        var l :- loans.GetOpenLoanByHolding(h);
        return Ok(l);
      }
      if loan.Some? {
        if loan.value !in session.work.loans || !Open(session.work.loans[loan.value]) {
          return Err(NotFound);
        }
        return if session.work.loans[loan.value].holdingId in session.work.holdings then Ok(loan.value)
        else Err(NotFound);
      }
      return Err(Validation);
    }

    /** Describes the loan to return, and how many open loans its patron has. */
    method Start(barcode: Option<string>, loan: Option<Id>, today: Day) returns (r: Result<ReturnStart>)
      requires Wired()
      ensures r.Ok? ==>
                && OpenLoanRow(session.work, today, r.value.row)
                && r.value.openLoansForPatron == |OpenLoansBy(session.work, r.value.row.patronId)|
                && r.value.openLoansForPatron > 0
                && (if barcode.Some? then r.value.row.barcode == barcode.value else loan == Some(r.value.row.loanId))
                && r.value.row.title == TitleOr(session.work, r.value.row.holdingId)
      ensures r.Err? && AllPatronsKnown(session.work) ==>
                if barcode.Some? then NothingOut(session.work, barcode.value)
                else loan.Some? ==> !(loan.value in session.work.loans && Open(session.work.loans[loan.value])
                                      && session.work.loans[loan.value].holdingId in session.work.holdings)
    {
      var l :- ResolveLoan(barcode, loan);
      var row := session.work.loans[l];
      if row.patronId !in session.work.lib.patrons {
        return Err(NotFound);
      }
      assert l in OpenLoansBy(session.work, row.patronId);
      return Ok(ReturnStart(
        ReturnCandidate(l, row.holdingId, session.work.holdings[row.holdingId].barcode, row.patronId,
                        session.work.lib.patrons[row.patronId].name, TitleOr(session.work, row.holdingId),
                        row.dueDate, row.dueDate < today),
        |OpenLoansBy(session.work, row.patronId)|));
    }

    /** The patrons that the search is limited to; several may match a name. */
    method ResolvePatronIds(query: Option<string>, card: Option<string>, ref: Option<string>)
      returns (r: Result<Option<seq<Id>>>)
      requires Wired()
      ensures r.Ok? ==> LimitedTo(session.work, query, card, ref, r.value)
      ensures !NoText(card) ==> (r.Err? <==> !CardTaken(session.work.lib, None, card))
      ensures !NoText(card) && r.Err? ==> r.error == NotFound
      ensures NoText(card) && NoText(ref) && NoText(query) ==> r == Ok(None)
    {
      if !NoText(card) {
        var p :- reference.GetPatronByCard(card.value);
        return Ok(Some([p]));
      }
      if !NoText(ref) {
        var p :- reference.GetPatronByExternalRef(ref.value);
        return Ok(Some([p]));
      }
      if !NoText(query) {
        var found := reference.ResolvePatronLookup(None, None, None, query);
        match found
        case Found(p) => return Ok(Some([p]));
        case Many(rows) => return Ok(Some(rows));
        case Failed(e) => return if e == NotFound then Ok(Some([])) else Err(e);
      }
      return Ok(None);
    }

    /**
     Open loans of the patrons found, at most ten. A query without a patron finds nothing; otherwise, without a title
     pattern, only the limit leaves a loan out.
     */
    method SearchCandidates(query: Option<string>, card: Option<string>, ref: Option<string>, title: Option<string>,
                            today: Day)
      returns (r: Result<seq<ReturnCandidate>>, ghost patrons: Option<seq<Id>>)
      requires Wired()
      ensures r.Ok? ==> OpenLoanRows(session.work, today, r.value) && LimitedTo(session.work, query, card, ref, patrons)
      ensures !NoText(card) && !CardTaken(session.work.lib, None, card) ==> r == Err(NotFound)
      ensures r.Err? && !NoText(card) && CardTaken(session.work.lib, None, card) ==> r.error == Unhandled
      ensures r.Ok? && patrons == Some([]) && NoText(card) && NoText(ref) && !NoText(query) ==> r.value == []
      ensures r.Ok? ==> forall i | 0 <= i < |r.value| :: r.value[i].loanId in OpenDetails(session.work, patrons)
      ensures r.Ok? && !HasPattern(title) && |r.value| < 10 && patrons != Some([]) ==>
                forall l | l in OpenDetails(session.work, patrons) ::
                  exists i :: 0 <= i < |r.value| && r.value[i].loanId == l
    {
      patrons := None;
      var limits := ResolvePatronIds(query, card, ref);
      if limits.Err? {
        return Err(limits.error), patrons;
      }
      patrons := limits.value;
      if !NoText(query) && NoText(card) && NoText(ref) && limits.value == Some([]) {
        return Ok([]), patrons;
      }
      var found := loans.SearchOpenLoanDetails(limits.value, title, 10);
      if found.Err? {
        return Err(found.error), patrons;
      }
      var candidates := Describe(found.value, today);
      return Ok(candidates), patrons;
    }

    method Describe(rows: seq<Id>, today: Day) returns (candidates: seq<ReturnCandidate>)
      requires Distinct(rows) && forall l | l in rows :: InJoin(session.work, l)
      ensures |candidates| == |rows| && OpenLoanRows(session.work, today, candidates)
      ensures forall k | 0 <= k < |rows| :: candidates[k].loanId == rows[k]
    {
      candidates := [];
      for i := 0 to |rows|
        invariant |candidates| == i && OpenLoanRows(session.work, today, candidates)
        invariant forall k | 0 <= k < i :: candidates[k].loanId == rows[k]
      {
        assert rows[i] in rows;
        var loan := session.work.loans[rows[i]];
        var holding := session.work.holdings[loan.holdingId];
        candidates := candidates + [ReturnCandidate(
          rows[i], loan.holdingId, holding.barcode, loan.patronId, session.work.lib.patrons[loan.patronId].name,
          session.work.lib.catalogs[holding.catalogId].title, loan.dueDate, loan.dueDate < today)];
      }
    }

    method CommitDesk(ho: Option<Id>, lo: Option<Id>, key: Key, now: Time) returns (r: Result<Id>)
      requires Wired() && session.Clean() && OneOpenLoanEach(session.committed)
      modifies session
      ensures var o := ReturnHolding(old(session.committed), ho, lo, key, now);
              r == o.result && session.committed == o.tables && session.Clean()
    {
      r := orchestrator.ReturnHolding(ho, lo, key, now);
    }

    method InitiatePickup(l: Id, notes: Option<string>, key: Key, newFulfillment: Id) returns (r: Result<Id>)
      requires Wired() && session.Clean()
      modifies session
      ensures var o := Circulation.InitiatePickup(old(session.committed), l, notes, key, newFulfillment);
              r == o.result && session.committed == o.tables && (r.Ok? ==> session.Clean())
      ensures (PickupOf(l), key) !in old(session.committed).records ==>
                if LoanIsOpen(old(session.committed), Some(l)) && newFulfillment !in old(session.committed).fulfillments
                then r == Ok(newFulfillment)
                     && PickupAdded(old(session.committed), session.committed, newFulfillment, l, notes)
                else r.Err? && session.committed == old(session.committed)
    {
      var cached :- FindCached(session.work.records, PickupOf(l), key, PickupPayload(l, notes));
      if cached.Some? {
        if cached.value.status != 201 {
          return Err(Conflict);
        }
        return if cached.value.body in session.work.fulfillments then Ok(cached.value.body) else Err(Retriable);
      }
      var f :- fulfillment.InitiateReturnPickup(l, notes, newFulfillment);
      session.Store(PickupOf(l), key, Record(PickupPayload(l, notes), 201, f));
      session.Commit();
      return Ok(f);
    }

    method ConfirmPickupReceived(f: Id, key: Key, now: Time) returns (r: Result<ReturnResult>)
      requires Wired() && session.Clean() && Inv(session.committed)
      modifies session
      ensures var o := ConfirmPickup(old(session.committed), f, key, now);
              && session.committed == o.tables
              && (match o.result
                  case Err(e) => r == Err(e)
                  case Ok(l) => r == Ok(ReturnResult(l, Some(f))) && session.Clean())
    {
      if f !in session.work.fulfillments {
        return Err(NotFound);
      }
      var row := session.work.fulfillments[f];
      if row.direction != Direction.Return {
        return Err(RuleViolation);
      }
      if row.loanId.None? {
        return Err(RuleViolation);
      }
      var l := row.loanId.value;
      if l in session.work.loans && !Open(session.work.loans[l]) {
        return Ok(ReturnResult(l, Some(f)));
      }
      OpenLoanNeverReplays(session.work, l, key);
      // Written even when the row is completed already, which changes nothing.
      session.work := WithStatus(session.work, f, Completed);
      var loan :- orchestrator.ReturnHolding(None, Some(l), key, now);
      return Ok(ReturnResult(loan, Some(f)));
    }
  }
}
