/** The issue tools of the agent desk. Every exit, also one by an error, leaves the slots well formed. */
module DeskIssueTools {
  import opened Domain
  import opened Circulation
  import opened Invariants
  import opened History
  import opened Runs
  import opened Services
  import opened Queries
  import opened Workflows
  import opened Pseudonyms
  import opened Text
  import opened AgentSession

  datatype Clock = Clock(now: Time, today: Day)

  /** What a tool hands back, without its message text. */
  datatype ToolResult = ToolResult(
    ok: bool, missingSlot: bool, patrons: seq<CompactPatron>, count: nat, autoSelected: bool, returnIntent: bool,
    candidate: Option<ReturnCandidate>)

  function Reply(ok: bool): ToolResult {
    ToolResult(ok, false, [], 0, false, false, None)
  }

  const MISSING_SLOT := Reply(false).(missingSlot := true)

  // ---- candidate lists ----

  lemma ListedAreKnown(t: Tables, copies: seq<CatalogLendableCopy>)
    requires ListedCopies(t, copies)
    ensures CopiesKnown(t, copies)
  {
    assert forall i | 0 <= i < |copies| :: ListedCopy(t, copies[i]);
  }

  /** A filtered list of copies is still a list of different known copies; at most one has a given id. */
  lemma FilteredCopies(t: Tables, rows: seq<CatalogLendableCopy>, p: CatalogLendableCopy -> bool, h: Id)
    requires CopiesKnown(t, rows)
    ensures CopiesKnown(t, Filter(rows, p))
    ensures (forall c :: p(c) <==> c.holdingId == h) ==> |Filter(rows, p)| <= 1
  {
    var at := FilterPicks(rows, p);
    assert forall k | 0 <= k < |at| :: CopyKnown(t, rows[at[k]].holdingId, rows[at[k]].barcode);
    assert |at| > 1 ==> rows[at[0]].holdingId != rows[at[1]].holdingId;
  }

  lemma FilteredPatrons(labels: map<Id, string>, rows: seq<CompactPatron>, p: CompactPatron -> bool, tag: string)
    requires PatronsLabelled(labels, rows)
    ensures PatronsLabelled(labels, Filter(rows, p))
    ensures (forall c | c in rows :: p(c) <==> c.pseudonym == tag) ==> |Filter(rows, p)| <= 1
  {
    var at := FilterPicks(rows, p);
    assert forall k | 0 <= k < |at| :: PatronLabelled(labels, rows[at[k]]) && rows[at[k]] in rows;
    assert |at| > 1 ==> rows[at[0]].pseudonym != rows[at[1]].pseudonym;
  }

  lemma CompactIsLabelled(labels: map<Id, string>, rows: seq<Id>, items: seq<CompactPatron>)
    requires Numbered(labels, PATRON) && Distinct(rows) && |items| == |rows|
    requires forall k | 0 <= k < |items| :: rows[k] in labels && items[k].pseudonym == labels[rows[k]]
    ensures PatronsLabelled(labels, items)
  {
    assert Unfold(labels);
    assert forall k | 0 <= k < |items| :: PatronLabelled(labels, items[k]);
  }

  /** A patron's pseudonym is in upper case already. */
  lemma PseudonymIsUpper(labels: map<Id, string>, row: CompactPatron)
    requires Numbered(labels, PATRON) && PatronLabelled(labels, row)
    ensures Upper(row.pseudonym) == row.pseudonym
  {
    var p :| p in labels && labels[p] == row.pseudonym;
    PrefixIsUpper();
    assert Unfold(labels);
    LabelIsUpper(PATRON, NumberIn(labels[p], PATRON));
  }

  lemma PrefixIsUpper()
    ensures Upper(PATRON) == PATRON
  {
    UpperConcat("PATR", "ON_");
    UpperConcat("PA", "TR");
    UpperConcat("P", "A");
    UpperConcat("T", "R");
    UpperConcat("ON", "_");
    UpperConcat("O", "N");
    assert "PATR" == "PA" + "TR" && "PA" == "P" + "A" && "TR" == "T" + "R" && "ON_" == "ON" + "_" && "ON" == "O" + "N";
    assert PATRON == "PATR" + "ON_";
  }

  // ---- executions ----

  /**
   What a resumed action draws from outside: ids, the clock, whether the process dies between two commits (`crash`)
   and whether the database cannot be reached at all (`down`).
   */
  datatype Execution = Execution(newLoan: Id, newFulfillment: Id, clock: Clock, crash: bool, down: bool)

  function IssueCommand(p: Id, h: Id, mode: Mode, notes: Option<string>, key: nat, x: Execution): Command {
    DoCommitIssue(p, h, mode, notes, Approval(key), x.newLoan, x.newFulfillment, x.clock.now, x.clock.today, x.crash)
  }

  /** Slots stay well formed over an issue, and the loan it answers with exists. */
  lemma SlotsOverIssue(slots: IssueSlots, labels: map<Id, string>, t: Tables, c: Command, o: Outcome)
    requires Inv(t) && slots.WellFormed(t, labels) && c.DoCommitIssue?
    requires o == CommitIssue(t, c.patron, c.holding, c.mode, c.notes, c.key, c.newLoan, c.newFulfillment, c.now,
                              c.today, c.crash)
    ensures slots.WellFormed(o.tables, labels) && (o.result.Ok? ==> o.result.value in o.tables.loans)
  {
    StepExtends(t, c);
    slots.WellFormedExtends(t, o.tables, labels);
    if o.result.Ok? {
      CheckoutBinds(t, c.patron, c.holding, c.key, c.newLoan, c.now, c.today);
    }
  }

  lemma SlotsOverTransition(slots: IssueSlots, labels: map<Id, string>, t: Tables, c: Command, u: Tables)
    requires Inv(t) && slots.WellFormed(t, labels) && c.DoTransition?
    requires u == Transition(t, c.fulfillment, c.target, c.key).tables
    ensures slots.WellFormed(u, labels)
  {
    StepExtends(t, c);
    slots.WellFormedExtends(t, u, labels);
  }

  lemma SlotsOverCancel(slots: IssueSlots, labels: map<Id, string>, t: Tables, c: Command, u: Tables)
    requires Inv(t) && slots.WellFormed(t, labels) && c.DoCancelIssue?
    requires u == Circulation.CancelIssue(t, c.loan, c.key, c.now).tables
    ensures slots.WellFormed(u, labels)
  {
    StepExtends(t, c);
    slots.WellFormedExtends(t, u, labels);
  }

  // ---- executed commands ----

  /** The tables after the command; kept folded, and unfolded by mentioning Unrolled. */
  ghost predicate Ran(t: Tables, c: Command, u: Tables) {
    forall d {:trigger Unrolled(d)} :: Unrolled(d) && d == c ==> u == Step(t, d).tables
  }

  ghost predicate Unrolled(c: Command) {
    true
  }

  lemma RanIssue(t: Tables, c: Command, u: Tables)
    requires c.DoCommitIssue?
    requires u == Circulation.CommitIssue(t, c.patron, c.holding, c.mode, c.notes, c.key, c.newLoan, c.newFulfillment,
                                          c.now, c.today, c.crash).tables
    ensures Ran(t, c, u)
  {
  }

  lemma RanTransition(t: Tables, c: Command, u: Tables)
    requires c.DoTransition? && u == Transition(t, c.fulfillment, c.target, c.key).tables
    ensures Ran(t, c, u)
  {
  }

  lemma RanCancel(t: Tables, c: Command, u: Tables)
    requires c.DoCancelIssue? && u == Circulation.CancelIssue(t, c.loan, c.key, c.now).tables
    ensures Ran(t, c, u)
  {
  }

  lemma RanReturn(t: Tables, c: Command, u: Tables)
    requires c.DoReturn? && u == ReturnHolding(t, c.holdingOpt, c.loanOpt, c.key, c.now).tables
    ensures Ran(t, c, u)
  {
  }

  lemma RanPickup(t: Tables, c: Command, u: Tables)
    requires c.DoInitiatePickup? && u == InitiatePickup(t, c.loan, c.notes, c.key, c.newFulfillment).tables
    ensures Ran(t, c, u)
  {
  }

  // ---- copies behind labels ----

  datatype CompactCopy = CompactCopy(pseudonym: string, barcode: string, title: string)

  ghost predicate CopyLabelled(labels: map<Id, string>, copy: CompactCopy, row: CatalogLendableCopy) {
    row.holdingId in labels && labels[row.holdingId] == copy.pseudonym && row.barcode == copy.barcode
    && row.title == copy.title
  }

  ghost predicate LabelledAs(labels: map<Id, string>, copies: seq<CompactCopy>, listed: seq<CatalogLendableCopy>) {
    |copies| == |listed| && forall i | 0 <= i < |copies| :: CopyLabelled(labels, copies[i], listed[i])
  }

  lemma LabelledAsMore(before: map<Id, string>, after: map<Id, string>, copies: seq<CompactCopy>,
                       listed: seq<CatalogLendableCopy>)
    requires LabelledAs(before, copies, listed) && forall y | y in before :: y in after && after[y] == before[y]
    ensures LabelledAs(after, copies, listed)
  {
    assert forall i | 0 <= i < |copies| :: CopyLabelled(before, copies[i], listed[i]);
  }

  /** No other id carries the label of this one. */
  lemma LabelIsUnique(labels: map<Id, string>, prefix: string, x: Id)
    requires Numbered(labels, prefix) && x in labels
    ensures forall y | y in labels && labels[y] == labels[x] :: y == x
  {
    assert Unfold(labels);
  }

  lemma AllListed(t: Tables, hits: seq<LendableCatalogHit>, listed: seq<CatalogLendableCopy>)
    requires HitsExact(t, hits) && HitsKnown(t, hits) && Collected(t, hits, |hits|, 0, listed)
    ensures CopiesKnown(t, listed) && (listed != [] ==> Lendable(t, listed[0].holdingId))
  {
    FlatIsListed(t, hits);
    assert hits[..|hits|] == hits;
    ListedAreKnown(t, listed);
    assert listed != [] ==> ListedCopy(t, listed[0]);
  }

  // ---- choosing among candidates ----

  predicate CopyChosen(labels: map<Id, string>, c: CatalogLendableCopy, barcode: Option<string>, title: Option<string>,
                       pseudonym: Option<string>) {
    if Given(pseudonym) then c.holdingId in labels && labels[c.holdingId] == Upper(pseudonym.value)
    else if Given(barcode) then Lower(c.barcode) == Lower(Strip(barcode.value))
    else Given(title) && Contains(Lower(c.title), Lower(Strip(title.value)))
  }

  predicate PatronChosen(c: CompactPatron, query: Option<string>, card: Option<string>, ref: Option<string>,
                         pseudonym: Option<string>) {
    if Given(pseudonym) then Upper(c.pseudonym) == Upper(pseudonym.value)
    else if Given(card) then Given(c.card) && Lower(c.card.value) == Lower(Strip(card.value))
    else if Given(ref) then Given(c.reference) && Lower(c.reference.value) == Lower(Strip(ref.value))
    else Given(query) && Contains(Lower(c.name), Lower(Strip(query.value)))
  }

  /** The id carries the label. */
  ghost predicate Labels(labels: map<Id, string>, p: Option<Id>, tag: string) {
    p.Some? && p.value in labels && labels[p.value] == tag
  }

  /** The patron in the slots carries this card, or this reference. */
  ghost predicate Carries(t: Tables, slots: IssueSlots, card: Option<string>, ref: Option<string>)
    reads slots
  {
    && slots.patronId.Some? && slots.patronId.value in t.lib.patrons
    && (card.Some? ==> t.lib.patrons[slots.patronId.value].card == card)
    && (ref.Some? ==> t.lib.patrons[slots.patronId.value].reference == ref)
  }

  function CompactOf(pseudonym: string, patron: Patron): CompactPatron {
    CompactPatron(pseudonym, patron.name, patron.reference, patron.card)
  }

  // ---- the tools ----

  class IssueTools {
    const session: Session
    const workflow: SearchAndIssueWorkflow
    const fulfillment: FulfillmentService
    const pseudonyms: PseudonymMap

    constructor (s: Session, w: SearchAndIssueWorkflow, f: FulfillmentService, p: PseudonymMap)
      requires w.session == s && w.Wired() && f.session == s
      ensures session == s && workflow == w && fulfillment == f && pseudonyms == p && Wired()
    {
      session, workflow, fulfillment, pseudonyms := s, w, f, p;
    }

    ghost predicate Wired() {
      workflow.session == session && workflow.Wired() && fulfillment.session == session
    }

    /** The slots are well formed in the tables as this session sees them. */
    ghost predicate Kept(slots: IssueSlots)
      reads session, slots, pseudonyms
    {
      slots.WellFormed(session.work, pseudonyms.patrons)
    }

    /** Labels the patrons and lists them compactly; candidates listed before stay labelled. */
    method Compact(rows: seq<Id>, slots: IssueSlots) returns (items: seq<CompactPatron>)
      requires Wired() && Kept(slots) && Distinct(rows) && forall p | p in rows :: p in session.work.lib.patrons
      modifies pseudonyms`patrons
      ensures Kept(slots) && |items| == |rows| && PatronsLabelled(pseudonyms.patrons, items)
      ensures forall k | 0 <= k < |items| ::
                rows[k] in pseudonyms.patrons
                && items[k] == CompactOf(pseudonyms.patrons[rows[k]], session.work.lib.patrons[rows[k]])
    {
      assert forall k | 0 <= k < |rows| :: rows[k] in rows;
      items := [];
      for i := 0 to |rows|
        invariant Kept(slots) && |items| == i
        invariant forall k | 0 <= k < i ::
                    rows[k] in pseudonyms.patrons
                    && items[k] == CompactOf(pseudonyms.patrons[rows[k]], session.work.lib.patrons[rows[k]])
      {
        assert rows[i] in rows;
        ghost var before := pseudonyms.patrons;
        var pseudonym := pseudonyms.Patron(rows[i]);
        slots.WellFormedMore(session.work, before, pseudonyms.patrons);
        var patron := session.work.lib.patrons[rows[i]];
        items := items + [CompactOf(pseudonym, patron)];
      }
      CompactIsLabelled(pseudonyms.patrons, rows, items);
    }

    method SearchPatrons(slots: IssueSlots, limit: nat) returns (r: Result<ToolResult>)
      requires Wired() && Kept(slots)
      modifies slots`patronCandidates, pseudonyms`patrons
      ensures Kept(slots) && (r.Err? ==> r.error == Unhandled)
      ensures r.Ok? ==> PatronsLabelled(pseudonyms.patrons, r.value.patrons)
      ensures r.Ok? ==> (r.value.ok <==> r.value.patrons != [])
      ensures r.Ok? ==> slots.patronCandidates == if |r.value.patrons| > 1 then r.value.patrons
                                                  else old(slots.patronCandidates)
    {
      var rows :- workflow.SearchPatrons(limit);
      var items := Compact(rows, slots);
      if items == [] {
        return Ok(Reply(false));
      }
      if |items| > 1 {
        slots.SetPatronCandidates(items, session.work, pseudonyms.patrons);
      }
      return Ok(Reply(true).(patrons := items, count := |items|));
    }

    /** Looks one patron up; several matches become candidates. */
    method ResolvePatron(slots: IssueSlots, patronId: Option<Id>, card: Option<string>, ref: Option<string>,
                         name: Option<string>, clock: Clock) returns (r: Result<ToolResult>)
      requires Wired() && Kept(slots) && LibraryOk(session.work)
      modifies slots`patronId, slots`patronName, slots`patronCandidates, pseudonyms`patrons
      ensures Kept(slots) && (r.Err? ==> !IsAppError(r.error))
      ensures r.Ok? && r.value.ok ==>
                slots.patronId.Some? && slots.patronId.value in session.work.lib.patrons
                && PatronViolations(session.work, slots.patronId.value) == []
      ensures r.Ok? && r.value.ok ==> slots.patronName == Some(session.work.lib.patrons[slots.patronId.value].name)
      ensures r.Ok? && !r.value.ok ==>
                || (slots.patronId == old(slots.patronId) && slots.patronName == old(slots.patronName))
                || (slots.patronId.Some? && PatronViolations(session.work, slots.patronId.value) != [])
      ensures r.Ok? && patronId.Some? ==>
                if patronId.value in session.work.lib.patrons then slots.patronId == patronId else !r.value.ok
      ensures r.Ok? && patronId.None? && card.Some? && NoText(name) ==>
                if CardTaken(session.work.lib, None, card) then Carries(session.work, slots, card, None)
                else !r.value.ok
      ensures r.Ok? && patronId.None? && card.None? && ref.Some? && NoText(name) ==>
                if ReferenceTaken(session.work.lib, None, ref) then Carries(session.work, slots, None, ref)
                else !r.value.ok
      ensures r.Ok? && patronId.Some? && patronId.value in session.work.lib.patrons ==>
                (r.value.ok <==> PatronViolations(session.work, patronId.value) == [])
    {
      assert BlockInv(session.work.lib) by { assert Consulted(session.work); }
      var answer := workflow.Start(patronId, card, ref, name, None, clock.now, clock.today);
      match answer
      case Ambiguous(rows) =>
        if rows != [] {
          var items := Compact(rows, slots);
          slots.SetPatronCandidates(items, session.work, pseudonyms.patrons);
        }
        return Ok(Reply(false));
      case Refusal(e) =>
        return if IsAppError(e) then Ok(Reply(false)) else Err(e);
      case Started(found) =>
        slots.SetPatron(found.patronId, found.patronName, session.work, pseudonyms.patrons);
        ghost var before := pseudonyms.patrons;
        var _ := pseudonyms.Patron(found.patronId);
        slots.WellFormedMore(session.work, before, pseudonyms.patrons);
        return Ok(Reply(found.violations == []));
    }

    method ApplyCatalogCopy(slots: IssueSlots, copy: CatalogLendableCopy)
      requires Wired() && Kept(slots) && CopyKnown(session.work, copy.holdingId, copy.barcode)
      modifies slots`holdingId, slots`holdingBarcode, slots`catalogTitle, pseudonyms`holdings
      ensures Kept(slots)
      ensures slots.holdingId == Some(copy.holdingId) && slots.holdingBarcode == Some(copy.barcode)
              && slots.catalogTitle == Some(copy.title)
    {
      slots.SetCopy(copy.holdingId, copy.barcode, copy.title, session.work, pseudonyms.patrons);
      var _ := pseudonyms.Holding(copy.holdingId);
    }

    /** The copy is chosen: it fills the slots and no candidates remain. */
    method TakeCopy(slots: IssueSlots, copy: CatalogLendableCopy)
      requires Wired() && Kept(slots) && CopyKnown(session.work, copy.holdingId, copy.barcode)
      modifies slots`holdingId, slots`holdingBarcode, slots`catalogTitle, slots`catalogCandidates, pseudonyms`holdings
      ensures Kept(slots)
      ensures slots.holdingId == Some(copy.holdingId) && slots.holdingBarcode == Some(copy.barcode)
              && slots.catalogTitle == Some(copy.title) && slots.catalogCandidates == []
    {
      ApplyCatalogCopy(slots, copy);
      slots.SetCatalogCandidates([], session.work, pseudonyms.patrons);
    }

    method LabelCopies(copies: seq<CatalogLendableCopy>)
      modifies pseudonyms`holdings
      ensures forall i | 0 <= i < |copies| :: copies[i].holdingId in pseudonyms.holdings
    {
      for i := 0 to |copies|
        invariant forall k | 0 <= k < i :: copies[k].holdingId in pseudonyms.holdings
      {
        var _ := pseudonyms.Holding(copies[i].holdingId);
      }
    }

    /** Lendable copies that match, different from each other. */
    method FindCopies(limit: nat) returns (r: Result<seq<CatalogLendableCopy>>)
      requires Wired()
      ensures r.Err? ==> r.error == Unhandled
      ensures r.Ok? ==> CopiesKnown(session.work, r.value) && ListedCopies(session.work, r.value)
      ensures r.Ok? && r.value != [] ==>
                var first := r.value[0];
                Lendable(session.work, first.holdingId) && CopyKnown(session.work, first.holdingId, first.barcode)
    {
      var found, _ := workflow.SearchCatalogLendable(limit);
      if found.Ok? {
        ListedAreKnown(session.work, found.value);
        assert found.value != [] ==> ListedCopy(session.work, found.value[0]);
      }
      return found;
    }

    /** A single copy is taken at once, several become the candidates. */
    method SearchCatalog(slots: IssueSlots, query: string) returns (r: Result<ToolResult>)
      requires Wired() && Kept(slots)
      modifies slots`activeFlow, slots`issueSearchCriteria, slots`catalogCandidates, slots`awaitingCatalogCriteria,
               slots`awaitingBookCriteria, slots`holdingId, slots`holdingBarcode, slots`catalogTitle,
               pseudonyms`holdings
      ensures Kept(slots) && (r.Err? ==> r.error == Unhandled)
      ensures r.Ok? ==> (r.value.ok <==> r.value.count > 0)
      ensures r.Ok? && r.value.count == 1 ==> slots.holdingId.Some? && Lendable(session.work, slots.holdingId.value)
      ensures r.Ok? && r.value.count != 1 ==>
                |slots.catalogCandidates| == r.value.count && slots.holdingId == old(slots.holdingId)
    {
      slots.BeginCatalogSearch(query);
      var copies :- FindCopies(10);
      LabelCopies(copies);
      slots.SetCatalogCandidates(copies, session.work, pseudonyms.patrons);
      if copies == [] {
        slots.AwaitCriteria(true);
        return Ok(Reply(false));
      }
      slots.AwaitCriteria(false);
      if |copies| == 1 {
        TakeCopy(slots, copies[0]);
        return Ok(Reply(true).(count := 1, autoSelected := true));
      }
      return Ok(Reply(true).(count := |copies|));
    }

    /** A pseudonym outranks a barcode, a barcode a title. */
    method FilterCatalogCandidates(candidates: seq<CatalogLendableCopy>, barcode: Option<string>, title: Option<string>,
                                   pseudonym: Option<string>) returns (matches: seq<CatalogLendableCopy>)
      requires CopiesKnown(session.work, candidates)
      ensures CopiesKnown(session.work, matches)
      ensures forall c :: c in matches <==>
                c in candidates && CopyChosen(pseudonyms.holdings, c, barcode, title, pseudonym)
      ensures Given(pseudonym) ==> |matches| <= 1
    {
      if Given(pseudonym) {
        var found := pseudonyms.ResolveHolding(Upper(pseudonym.value));
        if found.None? {
          return [];
        }
        var h := found.value;
        var p := (c: CatalogLendableCopy) => c.holdingId == h;
        FilteredCopies(session.work, candidates, p, h);
        FilterMembers(candidates, p);
        return Filter(candidates, p);
      }
      var p := if Given(barcode) then
          var needle := Lower(Strip(barcode.value));
          (c: CatalogLendableCopy) => Lower(c.barcode) == needle
        else if Given(title) then
          var needle := Lower(Strip(title.value));
          (c: CatalogLendableCopy) => Contains(Lower(c.title), needle)
        else (c: CatalogLendableCopy) => false;
      FilteredCopies(session.work, candidates, p, 0);
      FilterMembers(candidates, p);
      return Filter(candidates, p);
    }

    /** A lendable copy with this barcode among the first five found. */
    method FindByBarcode(barcode: string) returns (r: Result<Option<CatalogLendableCopy>>)
      requires Wired()
      ensures r.Err? ==> r.error == Unhandled
      ensures r.Ok? && r.value.Some? ==>
                var copy := r.value.value;
                && Lendable(session.work, copy.holdingId) && CopyKnown(session.work, copy.holdingId, copy.barcode)
                && Lower(copy.barcode) == Lower(Strip(barcode))
    {
      var copies :- FindCopies(5);
      var needle := Lower(Strip(barcode));
      var p := (c: CatalogLendableCopy) => Lower(c.barcode) == needle;
      FilterMembers(copies, p);
      var matches := Filter(copies, p);
      if matches == [] {
        return Ok(None);
      }
      assert matches[0] in matches;
      return Ok(Some(matches[0]));
    }

    method SelectCatalogCopyByBarcode(slots: IssueSlots, barcode: string) returns (r: Result<ToolResult>)
      requires Wired() && Kept(slots)
      modifies slots`holdingId, slots`holdingBarcode, slots`catalogTitle, slots`catalogCandidates,
               slots`awaitingBookCriteria, pseudonyms`holdings
      ensures Kept(slots) && (r.Err? ==> r.error == Unhandled)
      ensures r.Ok? && r.value.ok ==>
                && slots.holdingId.Some? && Lendable(session.work, slots.holdingId.value)
                && slots.holdingBarcode.Some? && Lower(slots.holdingBarcode.value) == Lower(Strip(barcode))
      ensures r.Ok? && !r.value.ok ==> slots.holdingId == old(slots.holdingId)
    {
      var found :- FindByBarcode(barcode);
      if found.None? {
        return Ok(Reply(false));
      }
      TakeCopy(slots, found.value);
      slots.AwaitBook(false);
      return Ok(Reply(true));
    }

    /**
     Chooses among the candidates: exactly one match is taken, and by pseudonym there is at most one. Without
     candidates a barcode is searched for.
     */
    method SelectCatalogCopy(slots: IssueSlots, barcode: Option<string>, title: Option<string>,
                             pseudonym: Option<string>)
      returns (r: Result<ToolResult>, ghost matches: seq<CatalogLendableCopy>)
      requires Wired() && Kept(slots)
      modifies slots`holdingId, slots`holdingBarcode, slots`catalogTitle, slots`catalogCandidates,
               slots`awaitingBookCriteria, slots`awaitingCatalogCriteria, pseudonyms`holdings
      ensures Kept(slots) && (r.Err? ==> r.error == Unhandled)
      ensures forall c :: c in matches <==>
                c in old(slots.catalogCandidates) && CopyChosen(old(pseudonyms.holdings), c, barcode, title, pseudonym)
      ensures Given(pseudonym) ==> |matches| <= 1
      ensures old(slots.catalogCandidates) != [] ==>
                && r.Ok? && (r.value.ok <==> |matches| == 1)
                && slots.holdingId == (if |matches| == 1 then Some(matches[0].holdingId) else old(slots.holdingId))
                && slots.catalogCandidates ==
                     (if matches == [] then old(slots.catalogCandidates) else if |matches| == 1 then [] else matches)
      ensures old(slots.catalogCandidates) == [] && r.Ok? ==>
                if r.value.ok then
                  && Given(barcode) && slots.holdingId.Some? && Lendable(session.work, slots.holdingId.value)
                  && slots.holdingBarcode.Some?
                  && Lower(slots.holdingBarcode.value) == Lower(Strip(barcode.value))
                else slots.holdingId == old(slots.holdingId)
    {
      matches := [];
      if slots.catalogCandidates == [] {
        if Given(barcode) {
          r := SelectCatalogCopyByBarcode(slots, barcode.value);
          return;
        }
        return Ok(Reply(false)), matches;
      }
      slots.CandidatesKnown(session.work, pseudonyms.patrons);
      var chosen := FilterCatalogCandidates(slots.catalogCandidates, barcode, title, pseudonym);
      matches := chosen;
      var reply := Narrow(slots, chosen);
      r := Ok(reply);
    }

    /** No match leaves the list, several shorten it, one is taken. */
    method Narrow(slots: IssueSlots, matches: seq<CatalogLendableCopy>) returns (reply: ToolResult)
      requires Wired() && Kept(slots) && CopiesKnown(session.work, matches)
      modifies slots`holdingId, slots`holdingBarcode, slots`catalogTitle, slots`catalogCandidates,
               slots`awaitingBookCriteria, slots`awaitingCatalogCriteria, pseudonyms`holdings
      ensures Kept(slots) && (reply.ok <==> |matches| == 1)
      ensures slots.catalogCandidates ==
                if matches == [] then old(slots.catalogCandidates) else if |matches| == 1 then [] else matches
      ensures slots.holdingId == if |matches| == 1 then Some(matches[0].holdingId) else old(slots.holdingId)
    {
      if matches == [] {
        return Reply(false);
      }
      if |matches| > 1 {
        LabelCopies(matches);
        slots.SetCatalogCandidates(matches, session.work, pseudonyms.patrons);
        return Reply(false).(count := |matches|);
      }
      assert CopyKnown(session.work, matches[0].holdingId, matches[0].barcode);
      TakeCopy(slots, matches[0]);
      slots.AwaitBook(false);
      slots.AwaitCatalog(false);
      return Reply(true);
    }

    method FilterPatronCandidates(candidates: seq<CompactPatron>, query: Option<string>, card: Option<string>,
                                  ref: Option<string>, pseudonym: Option<string>) returns (matches: seq<CompactPatron>)
      requires PatronsLabelled(pseudonyms.patrons, candidates)
      ensures PatronsLabelled(pseudonyms.patrons, matches)
      ensures forall c :: c in matches <==> c in candidates && PatronChosen(c, query, card, ref, pseudonym)
      ensures Given(pseudonym) ==> |matches| <= 1
    {
      var p := if Given(pseudonym) then
          var needle := Upper(pseudonym.value);
          (c: CompactPatron) => Upper(c.pseudonym) == needle
        else if Given(card) then
          var needle := Lower(Strip(card.value));
          (c: CompactPatron) => Given(c.card) && Lower(c.card.value) == needle
        else if Given(ref) then
          var needle := Lower(Strip(ref.value));
          (c: CompactPatron) => Given(c.reference) && Lower(c.reference.value) == needle
        else if Given(query) then
          var needle := Lower(Strip(query.value));
          (c: CompactPatron) => Contains(Lower(c.name), needle)
        else (c: CompactPatron) => false;
      forall c | c in candidates
        ensures Upper(c.pseudonym) == c.pseudonym
      {
        PseudonymIsUpper(pseudonyms.patrons, c);
      }
      FilteredPatrons(pseudonyms.patrons, candidates, p, if Given(pseudonym) then Upper(pseudonym.value) else "");
      FilterMembers(candidates, p);
      return Filter(candidates, p);
    }

    /**
     Chooses among the candidates: exactly one match fills the slots, and is ok exactly when that patron may borrow.
     */
    method SelectPatron(slots: IssueSlots, query: Option<string>, card: Option<string>, ref: Option<string>,
                        pseudonym: Option<string>, clock: Clock)
      returns (r: Result<ToolResult>, ghost matches: seq<CompactPatron>)
      requires Wired() && Kept(slots) && LibraryOk(session.work)
      modifies slots`patronId, slots`patronName, slots`patronCandidates, slots`awaitingPatronLookup
      ensures Kept(slots)
      ensures forall c :: c in matches <==>
                c in old(slots.patronCandidates) && PatronChosen(c, query, card, ref, pseudonym)
      ensures Given(pseudonym) ==> |matches| <= 1
      ensures |matches| != 1 ==>
                && r.Ok? && !r.value.ok && slots.patronId == old(slots.patronId)
                && slots.patronCandidates == (if matches == [] then old(slots.patronCandidates) else matches)
      ensures |matches| == 1 && r.Ok? ==>
                && Labels(pseudonyms.patrons, slots.patronId, matches[0].pseudonym) && slots.patronCandidates == []
                && (r.value.ok <==> PatronViolations(session.work, slots.patronId.value) == [])
    {
      matches := [];
      if slots.patronCandidates == [] {
        return Ok(Reply(false)), matches;
      }
      slots.CandidatesKnown(session.work, pseudonyms.patrons);
      var chosen := FilterPatronCandidates(slots.patronCandidates, query, card, ref, pseudonym);
      matches := chosen;
      if chosen == [] {
        return Ok(Reply(false)), matches;
      }
      if |chosen| > 1 {
        slots.SetPatronCandidates(chosen, session.work, pseudonyms.patrons);
        return Ok(Reply(false).(count := |chosen|)), matches;
      }
      var p := pseudonyms.ResolvePatron(chosen[0].pseudonym);
      assert PatronLabelled(pseudonyms.patrons, chosen[0]);
      assert p.Some?;
      assert BlockInv(session.work.lib) by { assert Consulted(session.work); }
      var answer := workflow.Start(p, None, None, None, None, clock.now, clock.today);
      if answer.Refusal? {
        return Err(answer.error), matches;
      }
      var found := answer.value;
      slots.SetPatron(found.patronId, found.patronName, session.work, pseudonyms.patrons);
      slots.SetPatronCandidates([], session.work, pseudonyms.patrons);
      slots.AwaitPatronLookup(false);
      return Ok(Reply(found.violations == [])), matches;
    }

    /** Labels the copies of the hits in their order. */
    method LabelHits(hits: seq<LendableCatalogHit>)
      returns (copies: seq<CompactCopy>, ghost listed: seq<CatalogLendableCopy>)
      requires HitsKnown(session.work, hits)
      modifies pseudonyms`holdings
      ensures LabelledAs(pseudonyms.holdings, copies, listed) && Collected(session.work, hits, |hits|, 0, listed)
    {
      copies, listed := [], [];
      for i := 0 to |hits|
        invariant Collected(session.work, hits, i, 0, listed) && LabelledAs(pseudonyms.holdings, copies, listed)
      {
        assert HitKnown(session.work, hits[i]);
        var hit := hits[i];
        for j := 0 to |hit.holdings|
          invariant Collected(session.work, hits, i, j, listed) && LabelledAs(pseudonyms.holdings, copies, listed)
        {
          CollectedNext(session.work, hits, i, j, listed);
          ghost var row := CopyOf(session.work, hit.catalog, hit.holdings[j]);
          copies := LabelCopy(hit.catalog, hit.holdings[j], copies, listed);
          listed := listed + [row];
        }
        CollectedHit(session.work, hits, i, listed);
      }
    }

    method LabelCopy(c: Id, h: Id, copies: seq<CompactCopy>, ghost listed: seq<CatalogLendableCopy>)
      returns (more: seq<CompactCopy>)
      requires c in session.work.lib.catalogs && h in session.work.holdings
               && LabelledAs(pseudonyms.holdings, copies, listed)
      modifies pseudonyms`holdings
      ensures LabelledAs(pseudonyms.holdings, more, listed + [CopyOf(session.work, c, h)])
    {
      ghost var before := pseudonyms.holdings;
      var tag := pseudonyms.Holding(h);
      LabelledAsMore(before, pseudonyms.holdings, copies, listed);
      return copies + [CompactCopy(tag, session.work.holdings[h].barcode, session.work.lib.catalogs[c].title)];
    }

    method CompactCopies(hits: seq<LendableCatalogHit>)
      returns (copies: seq<CompactCopy>, ghost listed: seq<CatalogLendableCopy>)
      requires HitsExact(session.work, hits)
      modifies pseudonyms`holdings
      ensures LabelledAs(pseudonyms.holdings, copies, listed) && CopiesKnown(session.work, listed)
      ensures listed != [] ==> Lendable(session.work, listed[0].holdingId)
    {
      FlatIsListed(session.work, hits);
      copies, listed := LabelHits(hits);
      AllListed(session.work, hits, listed);
    }

    /** Turns labelled copies back into candidates; every label resolves, and to the copy it was given to. */
    method Candidates(copies: seq<CompactCopy>, ghost listed: seq<CatalogLendableCopy>)
      returns (rows: seq<CatalogLendableCopy>)
      requires LabelledAs(pseudonyms.holdings, copies, listed)
      ensures rows == listed
    {
      rows := [];
      for i := 0 to |copies|
        invariant rows == listed[..i]
      {
        var copy := copies[i];
        var h := pseudonyms.ResolveHolding(copy.pseudonym);
        assert CopyLabelled(pseudonyms.holdings, copy, listed[i]);
        LabelIsUnique(pseudonyms.holdings, COPY, listed[i].holdingId);
        assert h == Some(listed[i].holdingId);
        if h.Some? {
          rows := rows + [CatalogLendableCopy(h.value, copy.barcode, copy.title)];
        }
      }
    }

    /** For a known patron: one lendable copy is taken, several become the candidates. */
    method SearchLendable(slots: IssueSlots, query: string, clock: Clock) returns (r: Result<ToolResult>)
      requires Wired() && Kept(slots) && LibraryOk(session.work)
      modifies slots`holdingId, slots`holdingBarcode, slots`catalogTitle, slots`catalogCandidates, pseudonyms`holdings
      ensures Kept(slots)
      ensures r.Ok? ==> (r.value.ok <==> r.value.count > 0)
      ensures r.Ok? && r.value.count == 1 ==>
                slots.catalogCandidates == [] && slots.holdingId.Some? && Lendable(session.work, slots.holdingId.value)
      ensures r.Ok? && r.value.count > 1 ==>
                |slots.catalogCandidates| == r.value.count && slots.holdingId == old(slots.holdingId)
      ensures r.Ok? && r.value.count == 0 ==> slots.holdingId == old(slots.holdingId)
    {
      if slots.patronId.None? {
        return Ok(MISSING_SLOT);
      }
      assert BlockInv(session.work.lib) by { assert Consulted(session.work); }
      var answer := workflow.Start(slots.patronId, None, None, None, Some(query), clock.now, clock.today);
      if answer.Refusal? {
        return Err(answer.error);
      }
      var copies, listed := CompactCopies(answer.value.searchResults);
      if copies == [] {
        return Ok(Reply(false));
      }
      var rows := Candidates(copies, listed);
      if |copies| == 1 {
        assert CopyKnown(session.work, rows[0].holdingId, rows[0].barcode);
        slots.SetCopy(rows[0].holdingId, rows[0].barcode, rows[0].title, session.work, pseudonyms.patrons);
        slots.SetCatalogCandidates([], session.work, pseudonyms.patrons);
      } else {
        slots.SetCatalogCandidates(rows, session.work, pseudonyms.patrons);
      }
      return Ok(Reply(true).(count := |copies|));
    }

    method SelectBarcode(slots: IssueSlots, barcode: string, clock: Clock) returns (r: Result<ToolResult>)
      requires Wired() && Kept(slots) && LibraryOk(session.work)
      modifies slots`holdingId, slots`holdingBarcode, slots`catalogTitle, pseudonyms`holdings
      ensures Kept(slots)
      ensures r.Ok? && r.value.ok ==>
                slots.holdingId.Some? && slots.holdingBarcode == Some(barcode) && slots.catalogTitle.Some?
                && ListedCopy(session.work,
                              CatalogLendableCopy(slots.holdingId.value, barcode, slots.catalogTitle.value))
      ensures r.Ok? && !r.value.ok ==> slots.holdingId == old(slots.holdingId)
    {
      if slots.patronId.None? {
        return Ok(MISSING_SLOT);
      }
      assert BlockInv(session.work.lib) by { assert Consulted(session.work); }
      var found := workflow.FindLendableCopyByBarcode(slots.patronId.value, barcode, clock.now, clock.today);
      if found.Err? {
        return if IsAppError(found.error) then Ok(Reply(false)) else Err(found.error);
      }
      ApplyCatalogCopy(slots, found.value);
      return Ok(Reply(true));
    }

    /** Changes nothing; succeeds exactly when patron and copy are set and the preview has no objection. */
    method ValidateIssue(slots: IssueSlots, clock: Clock) returns (r: ToolResult)
      requires Wired() && LibraryOk(session.work)
      ensures r.ok <==> slots.patronId.Some? && slots.holdingId.Some?
                        && IssueViolations(session.work, slots.patronId.value, slots.holdingId.value) == []
    {
      if slots.patronId.None? || slots.holdingId.None? {
        return MISSING_SLOT;
      }
      assert BlockInv(session.work.lib) by { assert Consulted(session.work); }
      var report := workflow.Validate(slots.patronId.value, slots.holdingId.value, clock.now, clock.today);
      return Reply(report == []);
    }

    method GetFulfillmentStatus(slots: IssueSlots) returns (r: Result<ToolResult>)
      requires Wired() && Kept(slots)
      modifies slots`fulfillmentId, pseudonyms`fulfillments
      ensures Kept(slots)
      ensures r.Ok? && (r.value.ok <==> slots.fulfillmentId.Some?)
      ensures old(slots.fulfillmentId).Some? ==> slots.fulfillmentId == old(slots.fulfillmentId)
    {
      slots.NamedRows(session.work, pseudonyms.patrons);
      var f := slots.fulfillmentId;
      if f.None? && slots.loanId.Some? {
        f := fulfillment.GetIssueFulfillmentForLoan(slots.loanId.value);
        if f.Some? {
          slots.SetFulfillment(f, session.work, pseudonyms.patrons);
        }
      }
      if f.None? {
        return Ok(Reply(false));
      }
      if f.value !in session.work.fulfillments {
        return Err(NotFound);
      }
      var _ := pseudonyms.Fulfillment(f.value);
      return Ok(Reply(true));
    }

    // ---- tools that write ----

    /** The same in the committed tables: what holds after every exit of a writing tool. */
    ghost predicate Settled(slots: IssueSlots)
      reads session, slots, pseudonyms
    {
      slots.WellFormed(session.committed, pseudonyms.patrons)
    }

    /** The loan, and its delivery if there is one, fill the slots. */
    method NoteIssue(slots: IssueSlots, issued: IssueResult)
      requires Settled(slots) && issued.loan in session.committed.loans
      requires issued.fulfillment.Some? ==> issued.fulfillment.value in session.committed.fulfillments
      modifies slots`loanId, slots`fulfillmentId, pseudonyms`loans
      ensures Settled(slots) && slots.loanId == Some(issued.loan)
    {
      slots.SetLoan(issued.loan, session.committed, pseudonyms.patrons);
      if issued.fulfillment.Some? {
        slots.SetFulfillment(issued.fulfillment, session.committed, pseudonyms.patrons);
      }
      var _ := pseudonyms.Loan(issued.loan);
    }

    /** The issue and its commit: the slots stay well formed, and the rows that it answers with exist. */
    method Issue(slots: IssueSlots, p: Id, h: Id, key: nat, x: Execution) returns (done: Result<IssueResult>)
      requires Wired() && session.Clean() && Inv(session.committed) && Settled(slots)
      modifies session
      ensures Settled(slots)
      ensures session.committed == Circulation.CommitIssue(
                old(session.committed), p, h, slots.fulfillmentMode, slots.destinationNotes, Approval(key), x.newLoan,
                x.newFulfillment, x.clock.now, x.clock.today, x.crash).tables
      ensures done.Ok? ==> session.Clean() && done.value.loan in session.committed.loans
      ensures done.Ok? && done.value.fulfillment.Some? ==>
                done.value.fulfillment.value in session.committed.fulfillments
    {
      ghost var before := session.committed;
      ghost var c := IssueCommand(p, h, slots.fulfillmentMode, slots.destinationNotes, key, x);
      ghost var o := Circulation.CommitIssue(before, c.patron, c.holding, c.mode, c.notes, c.key, c.newLoan,
                                             c.newFulfillment, c.now, c.today, c.crash);
      done := workflow.Commit(p, h, slots.fulfillmentMode, slots.destinationNotes, Approval(key), x.newLoan,
                              x.newFulfillment, x.clock.now, x.clock.today, x.crash);
      SlotsOverIssue(slots, pseudonyms.patrons, before, c, o);
      if done.Ok? {
        session.Commit();
      }
    }

    /** Issues the copy in the slots to the patron in the slots under the card's key. */
    method CommitIssue(slots: IssueSlots, key: nat, x: Execution) returns (r: Result<ToolResult>)
      requires Wired() && session.Clean() && Inv(session.committed) && Settled(slots)
      modifies session, slots`loanId, slots`fulfillmentId, pseudonyms`loans
      ensures Settled(slots) && (r.Ok? ==> session.Clean())
      ensures old(slots.patronId).None? || old(slots.holdingId).None? ==>
                r == Ok(MISSING_SLOT) && session.committed == old(session.committed)
      ensures old(slots.patronId).Some? && old(slots.holdingId).Some? ==>
                session.committed == Circulation.CommitIssue(
                  old(session.committed), slots.patronId.value, slots.holdingId.value, slots.fulfillmentMode,
                  slots.destinationNotes,
                  Approval(key), x.newLoan, x.newFulfillment, x.clock.now, x.clock.today, x.crash).tables
      ensures old(slots.patronId).Some? && old(slots.holdingId).Some? && r.Ok? ==>
                r.value == Reply(true) && slots.loanId.Some?
    {
      if slots.patronId.None? || slots.holdingId.None? {
        return Ok(MISSING_SLOT);
      }
      var done := Issue(slots, slots.patronId.value, slots.holdingId.value, key, x);
      if done.Err? {
        return Err(done.error);
      }
      NoteIssue(slots, done.value);
      return Ok(Reply(true));
    }

    method TransitionFulfillment(slots: IssueSlots, target: FulfillmentStatus, key: nat) returns (r: Result<ToolResult>)
      requires Wired() && session.Clean() && Inv(session.committed) && Settled(slots)
      modifies session
      ensures Settled(slots) && (r.Ok? ==> session.Clean())
      ensures slots.fulfillmentId.None? ==> r == Ok(MISSING_SLOT) && session.committed == old(session.committed)
      ensures slots.fulfillmentId.Some? ==>
                && session.committed == Transition(old(session.committed), slots.fulfillmentId.value, target,
                                                   Approval(key)).tables
                && (r.Ok? ==> r.value == Reply(true))
    {
      if slots.fulfillmentId.None? {
        return Ok(MISSING_SLOT);
      }
      ghost var c := DoTransition(slots.fulfillmentId.value, target, Approval(key));
      SlotsOverTransition(slots, pseudonyms.patrons, session.committed, c,
                          Transition(session.committed, slots.fulfillmentId.value, target, Approval(key)).tables);
      var _ :- fulfillment.Transition(slots.fulfillmentId.value, target, Approval(key));
      session.Commit();
      return Ok(Reply(true));
    }

    /** The cancellation itself; the slots are as they were. */
    method TryCancel(slots: IssueSlots, key: nat, now: Time) returns (r: Result<CancelResult>)
      requires Wired() && session.Clean() && Inv(session.committed) && Settled(slots) && slots.loanId.Some?
      modifies session
      ensures Settled(slots) && (r.Ok? ==> session.Clean())
      ensures session.committed ==
                Circulation.CancelIssue(old(session.committed), slots.loanId.value, Approval(key), now).tables
    {
      ghost var c := DoCancelIssue(slots.loanId.value, Approval(key), now);
      SlotsOverCancel(slots, pseudonyms.patrons, session.committed, c,
                      Circulation.CancelIssue(session.committed, slots.loanId.value, Approval(key), now).tables);
      r := workflow.CancelIssue(slots.loanId.value, Approval(key), now);
    }

    method ForgetIssue(slots: IssueSlots, loan: Id)
      requires Settled(slots)
      modifies slots`loanId, slots`fulfillmentId, slots`fulfillmentTarget, pseudonyms`loans
      ensures Settled(slots) && slots.loanId.None? && slots.fulfillmentId.None?
    {
      var _ := pseudonyms.Loan(loan);
      slots.ClearLoan(session.committed, pseudonyms.patrons);
      slots.SetFulfillment(None, session.committed, pseudonyms.patrons);
      slots.SetTarget(None);
    }

    /** Takes the issued copy back and forgets the loan. */
    method CancelIssue(slots: IssueSlots, key: nat, clock: Clock) returns (r: Result<ToolResult>)
      requires Wired() && session.Clean() && Inv(session.committed) && Settled(slots)
      modifies session, slots`loanId, slots`fulfillmentId, slots`fulfillmentTarget, pseudonyms`loans
      ensures Settled(slots) && (r.Ok? ==> session.Clean())
      ensures old(slots.loanId).None? ==> r == Ok(MISSING_SLOT) && session.committed == old(session.committed)
      ensures old(slots.loanId).Some? ==>
                && session.committed == Circulation.CancelIssue(old(session.committed), old(slots.loanId).value,
                                                                Approval(key), clock.now).tables
                && (if r.Ok? then r.value == Reply(true) && slots.loanId.None? && slots.fulfillmentId.None?
                    else slots.loanId == old(slots.loanId))
    {
      if slots.loanId.None? {
        return Ok(MISSING_SLOT);
      }
      var done :- TryCancel(slots, key, clock.now);
      session.Commit();
      ForgetIssue(slots, done.loan);
      return Ok(Reply(true));
    }
  }
}
