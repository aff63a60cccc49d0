/** Agent desk sessions: the slots that a conversation fills, approval cards, and when a session is well formed. */
module AgentSession {
  import opened Domain
  import opened Circulation
  import opened Invariants
  import opened History
  import opened Runs
  import opened Deliveries
  import opened Workflows
  import opened Pseudonyms

  datatype DeskFlow = IssueFlow | ReturnFlow

  datatype CompactPatron = CompactPatron(pseudonym: string, name: string, reference: Option<string>,
                                         card: Option<string>)

  // ---- what slots and candidates may name ----

  ghost predicate CopyKnown(t: Tables, h: Id, barcode: string) {
    h in t.holdings && t.holdings[h].barcode == barcode
  }

  ghost predicate CopiesKnown(t: Tables, rows: seq<CatalogLendableCopy>) {
    && (forall i | 0 <= i < |rows| :: CopyKnown(t, rows[i].holdingId, rows[i].barcode))
    && (forall i, j | 0 <= i < j < |rows| :: rows[i].holdingId != rows[j].holdingId)
  }

  ghost predicate LoanKnown(t: Tables, c: ReturnCandidate) {
    && c.loanId in t.loans && t.loans[c.loanId].holdingId == c.holdingId && t.loans[c.loanId].patronId == c.patronId
    && CopyKnown(t, c.holdingId, c.barcode) && c.patronId in t.lib.patrons
  }

  ghost predicate LoansKnown(t: Tables, rows: seq<ReturnCandidate>) {
    && (forall i | 0 <= i < |rows| :: LoanKnown(t, rows[i]))
    && (forall i, j | 0 <= i < j < |rows| :: rows[i].loanId != rows[j].loanId)
  }

  ghost predicate PatronLabelled(labels: map<Id, string>, row: CompactPatron) {
    exists p :: p in labels && labels[p] == row.pseudonym
  }

  ghost predicate PatronsLabelled(labels: map<Id, string>, rows: seq<CompactPatron>) {
    && (forall i | 0 <= i < |rows| :: PatronLabelled(labels, rows[i]))
    && (forall i, j | 0 <= i < j < |rows| :: rows[i].pseudonym != rows[j].pseudonym)
  }

  /** Rows never vanish; copies keep their barcode and loans their terms. */
  ghost predicate Extends(t: Tables, u: Tables) {
    && (forall h | h in t.holdings :: h in u.holdings && u.holdings[h].barcode == t.holdings[h].barcode)
    && LoansGrow(t, u)
    && (forall f | f in t.fulfillments :: f in u.fulfillments)
    && (forall p | p in t.lib.patrons :: p in u.lib.patrons)
  }

  lemma AdminKeepsPatrons(a: Library, c: AdminCommand)
    ensures forall p | p in a.patrons :: p in Admin(a, c).lib.patrons
  {
  }

  lemma StepExtends(t: Tables, c: Command)
    requires Inv(t)
    ensures Extends(t, Step(t, c).tables)
  {
    var u := Step(t, c).tables;
    StepKeepsInv(t, c);
    forall h | h in t.holdings
      ensures h in u.holdings && u.holdings[h].barcode == t.holdings[h].barcode
    {
      StatusMoves(t, c, h);
    }
    if c.Administer? {
      AdminKeepsPatrons(t.lib, c.admin);
    }
  }

  // ---- slots ----

  /** The slots that name rows of the tables; the other slots are flags and texts of the conversation. */
  datatype SlotCore = SlotCore(
    patronId: Option<Id>, patronName: Option<string>,
    holdingId: Option<Id>, holdingBarcode: Option<string>, catalogTitle: Option<string>,
    loanId: Option<Id>, fulfillmentId: Option<Id>, dueDate: Option<Day>, isOverdue: Option<bool>,
    returnCandidates: seq<ReturnCandidate>, catalogCandidates: seq<CatalogLendableCopy>,
    patronCandidates: seq<CompactPatron>)

  /** Patron and copy are set as a whole or not at all, and everything named exists in the tables. */
  ghost predicate CoreOk(t: Tables, labels: map<Id, string>, c: SlotCore) {
    && (c.patronId.Some? <==> c.patronName.Some?)
    && (c.holdingId.Some? <==> c.holdingBarcode.Some?)
    && (c.holdingId.Some? <==> c.catalogTitle.Some?)
    && (c.dueDate.Some? <==> c.isOverdue.Some?)
    && (c.patronId.Some? ==> c.patronId.value in t.lib.patrons)
    && (c.holdingId.Some? ==> CopyKnown(t, c.holdingId.value, c.holdingBarcode.value))
    && (c.loanId.Some? ==> c.loanId.value in t.loans)
    && (c.fulfillmentId.Some? ==> c.fulfillmentId.value in t.fulfillments)
    && LoansKnown(t, c.returnCandidates)
    && CopiesKnown(t, c.catalogCandidates)
    && PatronsLabelled(labels, c.patronCandidates)
  }

  /** CoreOk, folded: proofs that mention InDetail(c) look inside, all others treat it as one fact. */
  ghost predicate Sound(t: Tables, labels: map<Id, string>, c: SlotCore) {
    forall d {:trigger InDetail(d)} :: InDetail(d) && d == c ==> CoreOk(t, labels, d)
  }

  ghost predicate InDetail(c: SlotCore) {
    true
  }

  /** Blocked flags follow the block rows, so that previews do not depend on row order or on the clock. */
  ghost predicate LibraryOk(t: Tables) {
    forall u {:trigger Consulted(u)} :: Consulted(u) && u == t ==> BlockInv(u.lib)
  }

  /** Proofs mention this to look inside LibraryOk and Sane; all others treat them as one fact. */
  ghost predicate Consulted(t: Tables) {
    true
  }

  /** The invariant, folded; a proof that mentions Consulted(t) looks inside. */
  ghost predicate Sane(t: Tables) {
    forall u {:trigger Consulted(u)} :: Consulted(u) && u == t ==> Inv(u)
  }

  lemma SaneLibrary(t: Tables)
    requires Sane(t)
    ensures Inv(t) && LibraryOk(t)
  {
    assert Consulted(t);
  }

  class IssueSlots {
    var activeFlow: DeskFlow
    var patronId: Option<Id>
    var patronName: Option<string>
    var holdingId: Option<Id>
    var holdingBarcode: Option<string>
    var catalogTitle: Option<string>
    var fulfillmentMode: Mode
    var destinationNotes: Option<string>
    var loanId: Option<Id>
    var fulfillmentId: Option<Id>
    var fulfillmentTarget: Option<FulfillmentStatus>
    var dueDate: Option<Day>
    var isOverdue: Option<bool>
    var returnCandidates: seq<ReturnCandidate>
    var catalogCandidates: seq<CatalogLendableCopy>
    var patronCandidates: seq<CompactPatron>
    var awaitingPatron: bool
    var awaitingBookCriteria: bool
    var awaitingDeskPatron: bool
    var awaitingDeskNextAction: bool
    var awaitingDeskReturnPick: bool
    var deskReturnIntent: bool
    var awaitingCatalogCriteria: bool
    var awaitingPatronLookup: bool
    var issueSearchCriteria: Option<string>
    var guidedIssueActive: bool
    var guidedReturnActive: bool
    var guidedCatalogActive: bool
    var guidedPatronLookupActive: bool

    constructor ()
      ensures forall t, labels :: WellFormed(t, labels)
      ensures fulfillmentMode == Desk && loanId.None? && patronId.None? && holdingId.None?
    {
      activeFlow := IssueFlow;
      patronId, patronName := None, None;
      holdingId, holdingBarcode, catalogTitle := None, None, None;
      fulfillmentMode, destinationNotes := Desk, None;
      loanId, fulfillmentId, fulfillmentTarget := None, None, None;
      dueDate, isOverdue := None, None;
      returnCandidates, catalogCandidates, patronCandidates := [], [], [];
      awaitingPatron, awaitingBookCriteria := false, false;
      awaitingDeskPatron, awaitingDeskNextAction, awaitingDeskReturnPick := false, false, false;
      deskReturnIntent := false;
      awaitingCatalogCriteria, awaitingPatronLookup := false, false;
      issueSearchCriteria := None;
      guidedIssueActive, guidedReturnActive := false, false;
      guidedCatalogActive, guidedPatronLookupActive := false, false;
    }

    function Core(): SlotCore
      reads this
    {
      SlotCore(patronId, patronName, holdingId, holdingBarcode, catalogTitle, loanId, fulfillmentId, dueDate, isOverdue,
               returnCandidates, catalogCandidates, patronCandidates)
    }

    ghost predicate WellFormed(t: Tables, labels: map<Id, string>)
      reads this
    {
      Sound(t, labels, Core())
    }

    // Every assignment to a field that WellFormed speaks of goes through one of these.

    method ClearCopy(ghost t: Tables, ghost labels: map<Id, string>)
      requires WellFormed(t, labels)
      modifies this`holdingId, this`holdingBarcode, this`catalogTitle
      ensures WellFormed(t, labels)
      ensures holdingId.None? && holdingBarcode.None? && catalogTitle.None?
    {
      assert InDetail(Core());
      holdingId, holdingBarcode, catalogTitle := None, None, None;
    }

    method SetCopy(h: Id, barcode: string, title: string, ghost t: Tables, ghost labels: map<Id, string>)
      requires WellFormed(t, labels) && CopyKnown(t, h, barcode)
      modifies this`holdingId, this`holdingBarcode, this`catalogTitle
      ensures WellFormed(t, labels)
      ensures holdingId == Some(h) && holdingBarcode == Some(barcode) && catalogTitle == Some(title)
    {
      assert InDetail(Core());
      holdingId, holdingBarcode, catalogTitle := Some(h), Some(barcode), Some(title);
    }

    method ClearPatron(ghost t: Tables, ghost labels: map<Id, string>)
      requires WellFormed(t, labels)
      modifies this`patronId, this`patronName
      ensures WellFormed(t, labels) && patronId.None? && patronName.None?
    {
      assert InDetail(Core());
      patronId, patronName := None, None;
    }

    method SetPatron(p: Id, name: string, ghost t: Tables, ghost labels: map<Id, string>)
      requires WellFormed(t, labels) && p in t.lib.patrons
      modifies this`patronId, this`patronName
      ensures WellFormed(t, labels) && patronId == Some(p) && patronName == Some(name)
    {
      assert InDetail(Core());
      patronId, patronName := Some(p), Some(name);
    }

    method ClearLoan(ghost t: Tables, ghost labels: map<Id, string>)
      requires WellFormed(t, labels)
      modifies this`loanId
      ensures WellFormed(t, labels) && loanId.None?
    {
      assert InDetail(Core());
      loanId := None;
    }

    method ClearDueDate(ghost t: Tables, ghost labels: map<Id, string>)
      requires WellFormed(t, labels)
      modifies this`dueDate, this`isOverdue
      ensures WellFormed(t, labels) && dueDate.None? && isOverdue.None?
    {
      assert InDetail(Core());
      dueDate, isOverdue := None, None;
    }

    method SetLoan(l: Id, ghost t: Tables, ghost labels: map<Id, string>)
      requires WellFormed(t, labels) && l in t.loans
      modifies this`loanId
      ensures WellFormed(t, labels) && loanId == Some(l)
    {
      assert InDetail(Core());
      loanId := Some(l);
    }

    method SetDueDate(due: Day, overdue: bool, ghost t: Tables, ghost labels: map<Id, string>)
      requires WellFormed(t, labels)
      modifies this`dueDate, this`isOverdue
      ensures WellFormed(t, labels) && dueDate == Some(due) && isOverdue == Some(overdue)
    {
      assert InDetail(Core());
      dueDate, isOverdue := Some(due), Some(overdue);
    }

    method SetFulfillment(f: Option<Id>, ghost t: Tables, ghost labels: map<Id, string>)
      requires WellFormed(t, labels) && (f.Some? ==> f.value in t.fulfillments)
      modifies this`fulfillmentId
      ensures WellFormed(t, labels) && fulfillmentId == f
    {
      assert InDetail(Core());
      fulfillmentId := f;
    }

    method SetReturnCandidates(rows: seq<ReturnCandidate>, ghost t: Tables, ghost labels: map<Id, string>)
      requires WellFormed(t, labels) && LoansKnown(t, rows)
      modifies this`returnCandidates
      ensures WellFormed(t, labels) && returnCandidates == rows
    {
      assert InDetail(Core());
      returnCandidates := rows;
    }

    method SetCatalogCandidates(rows: seq<CatalogLendableCopy>, ghost t: Tables, ghost labels: map<Id, string>)
      requires WellFormed(t, labels) && CopiesKnown(t, rows)
      modifies this`catalogCandidates
      ensures WellFormed(t, labels) && catalogCandidates == rows
    {
      assert InDetail(Core());
      catalogCandidates := rows;
    }

    method SetPatronCandidates(rows: seq<CompactPatron>, ghost t: Tables, ghost labels: map<Id, string>)
      requires WellFormed(t, labels) && PatronsLabelled(labels, rows)
      modifies this`patronCandidates
      ensures WellFormed(t, labels) && patronCandidates == rows
    {
      assert InDetail(Core());
      patronCandidates := rows;
    }

    // ---- the conversation flags ----

    method BeginCatalogSearch(query: string)
      modifies this`activeFlow, this`issueSearchCriteria
      ensures Core() == old(Core()) && issueSearchCriteria == Some(query)
    {
      if !guidedCatalogActive {
        activeFlow := IssueFlow;
      }
      issueSearchCriteria := Some(query);
    }

    /** Browsing and issuing wait for their search words separately. */
    method AwaitCriteria(wait: bool)
      modifies this`awaitingCatalogCriteria, this`awaitingBookCriteria
      ensures Core() == old(Core())
      ensures awaitingCatalogCriteria == if guidedCatalogActive then wait else old(awaitingCatalogCriteria)
      ensures awaitingBookCriteria == if guidedCatalogActive then old(awaitingBookCriteria) else wait
    {
      if guidedCatalogActive {
        awaitingCatalogCriteria := wait;
      } else {
        awaitingBookCriteria := wait;
      }
    }

    method AwaitBook(wait: bool)
      modifies this`awaitingBookCriteria
      ensures Core() == old(Core()) && awaitingBookCriteria == wait
    {
      awaitingBookCriteria := wait;
    }

    method AwaitCatalog(wait: bool)
      modifies this`awaitingCatalogCriteria
      ensures Core() == old(Core()) && awaitingCatalogCriteria == wait
    {
      awaitingCatalogCriteria := wait;
    }

    method AwaitPatronLookup(wait: bool)
      modifies this`awaitingPatronLookup
      ensures Core() == old(Core()) && awaitingPatronLookup == wait
    {
      awaitingPatronLookup := wait;
    }

    method EndPatronLookup()
      modifies this`awaitingPatronLookup, this`guidedPatronLookupActive
      ensures Core() == old(Core()) && !awaitingPatronLookup && !guidedPatronLookupActive
    {
      awaitingPatronLookup, guidedPatronLookupActive := false, false;
    }

    /** A guided issue asks for the patron first and for the book then. */
    method AwaitPatronThenBook(patronFirst: bool)
      modifies this`awaitingPatron, this`awaitingBookCriteria
      ensures Core() == old(Core()) && awaitingPatron == patronFirst && awaitingBookCriteria == !patronFirst
    {
      awaitingPatron, awaitingBookCriteria := patronFirst, !patronFirst;
    }

    method StopIssue()
      modifies this`awaitingBookCriteria, this`guidedIssueActive
      ensures Core() == old(Core()) && !awaitingBookCriteria && !guidedIssueActive
    {
      awaitingBookCriteria, guidedIssueActive := false, false;
    }

    method EndIssue()
      modifies this`awaitingPatron, this`awaitingBookCriteria, this`guidedIssueActive
      ensures Core() == old(Core()) && !awaitingPatron && !awaitingBookCriteria && !guidedIssueActive
    {
      awaitingPatron, awaitingBookCriteria, guidedIssueActive := false, false, false;
    }

    method AwaitDeskPatron(wait: bool)
      modifies this`awaitingDeskPatron
      ensures Core() == old(Core()) && awaitingDeskPatron == wait
    {
      awaitingDeskPatron := wait;
    }

    method AwaitAtDesk(patron: bool, nextAction: bool, returnPick: bool)
      modifies this`awaitingDeskPatron, this`awaitingDeskNextAction, this`awaitingDeskReturnPick
      ensures Core() == old(Core())
      ensures awaitingDeskPatron == patron && awaitingDeskNextAction == nextAction
              && awaitingDeskReturnPick == returnPick
    {
      awaitingDeskPatron, awaitingDeskNextAction, awaitingDeskReturnPick := patron, nextAction, returnPick;
    }

    method AwaitReturnPick(wait: bool)
      modifies this`awaitingDeskReturnPick
      ensures Core() == old(Core()) && awaitingDeskReturnPick == wait
    {
      awaitingDeskReturnPick := wait;
    }

    method WantReturn()
      modifies this`deskReturnIntent, this`activeFlow
      ensures Core() == old(Core()) && deskReturnIntent && activeFlow == ReturnFlow
    {
      deskReturnIntent, activeFlow := true, ReturnFlow;
    }

    method AskDeskPatron()
      modifies this`awaitingDeskPatron, this`guidedReturnActive
      ensures Core() == old(Core()) && awaitingDeskPatron && guidedReturnActive
    {
      awaitingDeskPatron, guidedReturnActive := true, true;
    }

    /** Back at the desk after an issue or a search in between. */
    method BackAtDesk()
      modifies this`awaitingDeskNextAction, this`guidedIssueActive, this`awaitingBookCriteria, this`guidedCatalogActive,
               this`awaitingCatalogCriteria
      ensures Core() == old(Core()) && awaitingDeskNextAction && !guidedIssueActive && !guidedCatalogActive
    {
      StopIssue();
      EndBrowsingAtDesk();
    }

    method EndBrowsingAtDesk()
      modifies this`awaitingDeskNextAction, this`guidedCatalogActive, this`awaitingCatalogCriteria
      ensures Core() == old(Core()) && awaitingDeskNextAction && !guidedCatalogActive && !awaitingCatalogCriteria
    {
      guidedCatalogActive, awaitingCatalogCriteria, awaitingDeskNextAction := false, false, true;
    }

    method EndDeskReturn()
      modifies this`guidedReturnActive, this`awaitingDeskPatron, this`awaitingDeskNextAction
      ensures Core() == old(Core()) && !guidedReturnActive && !awaitingDeskPatron && !awaitingDeskNextAction
    {
      guidedReturnActive, awaitingDeskPatron, awaitingDeskNextAction := false, false, false;
    }

    method KeepDeskActive()
      modifies this`guidedReturnActive
      ensures Core() == old(Core()) && guidedReturnActive
    {
      guidedReturnActive := true;
    }

    method SetFlow(flow: DeskFlow)
      modifies this`activeFlow
      ensures Core() == old(Core()) && activeFlow == flow
    {
      activeFlow := flow;
    }

    method SetTarget(target: Option<FulfillmentStatus>)
      modifies this`fulfillmentTarget
      ensures Core() == old(Core()) && fulfillmentTarget == target
    {
      fulfillmentTarget := target;
    }

    method SetMode(mode: Mode)
      modifies this`fulfillmentMode
      ensures Core() == old(Core()) && fulfillmentMode == mode
    {
      fulfillmentMode := mode;
    }

    method SetNotes(notes: Option<string>)
      modifies this`destinationNotes
      ensures Core() == old(Core()) && destinationNotes == notes
    {
      destinationNotes := notes;
    }

    method BeginIssue()
      modifies this`activeFlow, this`guidedIssueActive
      ensures Core() == old(Core()) && activeFlow == IssueFlow && guidedIssueActive
    {
      activeFlow, guidedIssueActive := IssueFlow, true;
    }

    method BeginBrowsing()
      modifies this`guidedCatalogActive, this`awaitingCatalogCriteria
      ensures Core() == old(Core()) && guidedCatalogActive && awaitingCatalogCriteria
    {
      guidedCatalogActive, awaitingCatalogCriteria := true, true;
    }

    method AwaitNextAction(wait: bool)
      modifies this`awaitingDeskNextAction
      ensures Core() == old(Core()) && awaitingDeskNextAction == wait
    {
      awaitingDeskNextAction := wait;
    }

    method BeginDesk(returnIntent: bool)
      modifies this`activeFlow, this`guidedReturnActive, this`deskReturnIntent
      ensures Core() == old(Core()) && activeFlow == ReturnFlow && guidedReturnActive
              && deskReturnIntent == returnIntent
    {
      activeFlow, guidedReturnActive, deskReturnIntent := ReturnFlow, true, returnIntent;
    }

    method EndDesk()
      modifies this`guidedReturnActive, this`deskReturnIntent
      ensures Core() == old(Core()) && !guidedReturnActive && !deskReturnIntent
    {
      guidedReturnActive, deskReturnIntent := false, false;
    }

    method BeginPatronLookup()
      modifies this`guidedPatronLookupActive, this`awaitingPatronLookup
      ensures Core() == old(Core()) && guidedPatronLookupActive && awaitingPatronLookup
    {
      guidedPatronLookupActive, awaitingPatronLookup := true, true;
    }

    method EndBrowsing()
      modifies this`awaitingCatalogCriteria, this`guidedCatalogActive, this`issueSearchCriteria
      ensures Core() == old(Core()) && !awaitingCatalogCriteria && !guidedCatalogActive && issueSearchCriteria.None?
    {
      awaitingCatalogCriteria, guidedCatalogActive, issueSearchCriteria := false, false, None;
    }

    method ForgetCriteria()
      modifies this`issueSearchCriteria
      ensures Core() == old(Core()) && issueSearchCriteria.None?
    {
      issueSearchCriteria := None;
    }

    // ---- raw assignments, for putting a saved selection back ----

    method PutLoan(loan: Option<Id>, due: Option<Day>, overdue: Option<bool>)
      modifies this`loanId, this`dueDate, this`isOverdue
      ensures loanId == loan && dueDate == due && isOverdue == overdue
    {
      loanId, dueDate, isOverdue := loan, due, overdue;
    }

    method PutCopy(h: Option<Id>, barcode: Option<string>, title: Option<string>)
      modifies this`holdingId, this`holdingBarcode, this`catalogTitle
      ensures holdingId == h && holdingBarcode == barcode && catalogTitle == title
    {
      holdingId, holdingBarcode, catalogTitle := h, barcode, title;
    }

    method PutPatron(p: Option<Id>, name: Option<string>, rows: seq<ReturnCandidate>)
      modifies this`patronId, this`patronName, this`returnCandidates
      ensures patronId == p && patronName == name && returnCandidates == rows
    {
      patronId, patronName, returnCandidates := p, name, rows;
    }

    // ---- blocks of slots that are cleared together ----

    method ForgetCopies(ghost t: Tables, ghost labels: map<Id, string>)
      requires WellFormed(t, labels)
      modifies this`catalogCandidates, this`holdingId, this`holdingBarcode, this`catalogTitle
      ensures WellFormed(t, labels)
      ensures catalogCandidates == [] && holdingId.None? && holdingBarcode.None? && catalogTitle.None?
    {
      ClearCopy(t, labels);
      SetCatalogCandidates([], t, labels);
    }

    /** The loan, the copy and the due date; the patron stays. */
    method ForgetSelection(ghost t: Tables, ghost labels: map<Id, string>)
      requires WellFormed(t, labels)
      modifies this`loanId, this`holdingId, this`holdingBarcode, this`catalogTitle, this`dueDate, this`isOverdue
      ensures WellFormed(t, labels)
      ensures loanId.None? && holdingId.None? && holdingBarcode.None? && catalogTitle.None? && dueDate.None?
              && isOverdue.None?
    {
      ClearLoan(t, labels);
      ClearCopy(t, labels);
      ClearDueDate(t, labels);
    }

    /** More labels do no harm. */
    lemma WellFormedMore(t: Tables, labels: map<Id, string>, more: map<Id, string>)
      requires WellFormed(t, labels) && forall p | p in labels :: p in more && more[p] == labels[p]
      ensures WellFormed(t, more)
    {
      assert InDetail(Core());
      forall i | 0 <= i < |patronCandidates|
        ensures PatronLabelled(more, patronCandidates[i])
      {
        assert PatronLabelled(labels, patronCandidates[i]);
        var p :| p in labels && labels[p] == patronCandidates[i].pseudonym;
        assert p in more && more[p] == patronCandidates[i].pseudonym;
      }
    }

    /** What the folded predicate says about the single slots. */
    lemma NamedRows(t: Tables, labels: map<Id, string>)
      requires WellFormed(t, labels)
      ensures patronId.Some? <==> patronName.Some?
      ensures holdingId.Some? <==> holdingBarcode.Some? && catalogTitle.Some?
      ensures patronId.Some? ==> patronId.value in t.lib.patrons
      ensures holdingId.Some? ==> CopyKnown(t, holdingId.value, holdingBarcode.value)
      ensures loanId.Some? ==> loanId.value in t.loans
      ensures fulfillmentId.Some? ==> fulfillmentId.value in t.fulfillments
    {
      assert InDetail(Core());
    }

    /** What the folded predicate says about the candidate lists. */
    lemma CandidatesKnown(t: Tables, labels: map<Id, string>)
      requires WellFormed(t, labels)
      ensures LoansKnown(t, returnCandidates) && CopiesKnown(t, catalogCandidates)
              && PatronsLabelled(labels, patronCandidates)
    {
      assert InDetail(Core());
    }

    lemma WellFormedExtends(t: Tables, u: Tables, labels: map<Id, string>)
      requires WellFormed(t, labels) && Extends(t, u)
      ensures WellFormed(u, labels)
    {
      assert InDetail(Core());
      forall i | 0 <= i < |returnCandidates|
        ensures LoanKnown(u, returnCandidates[i])
      {
        assert LoanKnown(t, returnCandidates[i]);
      }
      forall i | 0 <= i < |catalogCandidates|
        ensures CopyKnown(u, catalogCandidates[i].holdingId, catalogCandidates[i].barcode)
      {
        assert CopyKnown(t, catalogCandidates[i].holdingId, catalogCandidates[i].barcode);
      }
    }
  }

  /**
   A card shows the barcode in the slots, and cancelling or fetching acts on the loan in the slots. The two belong
   together exactly when the copy in the slots is the loan's copy; nothing keeps them together.
   */
  lemma ShownCopyIsTheLoans(t: Tables, labels: map<Id, string>, c: SlotCore)
    requires LoanInv(t) && UniqueBarcodes(t) && CoreOk(t, labels, c) && c.loanId.Some?
    ensures var h := t.loans[c.loanId.value].holdingId;
            h in t.holdings && (c.holdingBarcode == Some(t.holdings[h].barcode) <==> c.holdingId == Some(h))
  {
  }

  /** Two copies, the first one on loan. */
  const TWO_COPIES: Tables :=
    EMPTY.(lib := EMPTY.lib.(patrons := map[3 := Patron("P", 0, Active, false, None, None)]),
           holdings := map[0 := Holding(0, "first", "1", true, OnLoan),
                           1 := Holding(0, "second", "2", true, Available)],
           loans := map[7 := Loan(3, 0, 0, 0, 0, None)])

  lemma TwoCopiesAreSane()
    ensures Inv(TWO_COPIES) && UniqueBarcodes(TWO_COPIES)
  {
    assert 7 in OpenLoansOf(TWO_COPIES, 0) && ActiveBlocks(TWO_COPIES.lib, 3) == {};
  }

  /**
   The second copy selected while the loan is still set: well formed slots show it, and cancelling takes back the
   first.
   */
  lemma ShownCopyMayDiffer() returns (c: SlotCore)
    ensures CoreOk(TWO_COPIES, map[], c) && c.loanId == Some(7) && c.holdingBarcode == Some("second")
    ensures var u := Circulation.CancelIssue(TWO_COPIES, 7, Approval(0), 0).tables;
            u.holdings == TWO_COPIES.holdings[0 := TWO_COPIES.holdings[0].(status := Available)]
  {
    TwoCopiesAreSane();
    c := SlotCore(Some(3), Some("P"), Some(1), Some("second"), Some("T"), Some(7), None, None, None, [], [], []);
    CancelIssueIff(TWO_COPIES, 7, Approval(0), 0);
  }

  // ---- approval cards ----

  datatype ActionKind =
    | CommitIssueAction
    | TransitionAction
    | CancelIssueAction
    | CommitReturnAction
    | SelectReturnAction
    | PickupAction

  /** What the card shows to the desk, and the candidate that a selection carries. */
  datatype CardDetails = CardDetails(
    patronName: Option<string>, title: Option<string>, barcode: Option<string>, mode: Option<Mode>,
    notes: Option<string>, target: Option<FulfillmentStatus>, candidate: Option<ReturnCandidate>)

  const NO_DETAILS := CardDetails(None, None, None, None, None, None, None)

  datatype PendingApproval = PendingApproval(kind: ActionKind, details: CardDetails, key: nat)

  class AgentIssueSession {
    const operatorId: string
    const slots: IssueSlots
    const pseudonyms: PseudonymMap
    var pending: Option<PendingApproval>
    var toolCalls: nat

    constructor (operator: string)
      ensures operatorId == operator && fresh(slots) && fresh(pseudonyms)
      ensures pending.None? && toolCalls == 0
      ensures forall t :: Valid(t)
    {
      operatorId := operator;
      slots := new IssueSlots();
      pseudonyms := new PseudonymMap();
      pending, toolCalls := None, 0;
    }

    ghost predicate Valid(t: Tables)
      reads this, slots, pseudonyms
    {
      && slots.WellFormed(t, pseudonyms.patrons)
      && (pending.Some? ==> CardOk(t, pending.value))
    }

    /** The slots that the approved action will use; see Executable for the one exception. */
    ghost predicate CardOk(t: Tables, card: PendingApproval)
      reads slots
    {
      match card.kind
      case CommitIssueAction =>
        && slots.patronId.Some? && slots.holdingId.Some?
        && card.details.patronName == slots.patronName && card.details.title == slots.catalogTitle
        && card.details.barcode == slots.holdingBarcode && card.details.mode == Some(slots.fulfillmentMode)
      case TransitionAction =>
        slots.fulfillmentId.Some? && card.details.target == slots.fulfillmentTarget && card.details.target.Some?
      case CancelIssueAction => slots.loanId.Some?
      case CommitReturnAction => true
      case SelectReturnAction => card.details.candidate.Some? && LoanKnown(t, card.details.candidate.value)
      case PickupAction => slots.loanId.Some? && card.details.notes == slots.destinationNotes
    }

    /** A pending action has every slot it needs. */
    ghost predicate Executable()
      reads this, slots
    {
      pending.Some? && pending.value.kind == CommitReturnAction ==> slots.loanId.Some?
    }

    lemma ValidExtends(t: Tables, u: Tables)
      requires Valid(t) && Extends(t, u)
      ensures Valid(u)
    {
      slots.WellFormedExtends(t, u, pseudonyms.patrons);
    }
  }
}
