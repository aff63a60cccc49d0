/**
 Whole runs of the agent desk: any messages, any answers to cards, and any other commands in between. RunDesk drives
 the services and says for every single event what it may do; the laws are about all such runs. A run is a serial run
 of its commands, a card makes at most one loan, and that loan is what the card showed.
 */
module DeskRuns {
  import opened Domain
  import opened Circulation
  import opened Invariants
  import opened History
  import opened Runs
  import opened Services
  import opened Queries
  import opened Workflows
  import opened Administration
  import opened Deliveries
  import opened OperationLaws
  import opened Text
  import opened AgentSession
  import opened DeskIssueTools
  import opened DeskReturnTools
  import opened DeskCards
  import opened DeskCoordinator

  // ---- at most one loan for a key ----

  ghost predicate OpensLoan(t: Tables, c: Command) {
    exists l :: l in Step(t, c).tables.loans && l !in t.loans
  }

  predicate Lends(c: Command) {
    c.DoCheckout? || c.DoCommitIssue?
  }

  /** A lending under a bound key opens nothing. */
  lemma BoundKeyOpensNothing(t: Tables, c: Command)
    requires Lends(c) && (CheckoutOf(c.holding), c.key) in t.records
    ensures !OpensLoan(t, c)
  {
    assert Checkout(t, c.patron, c.holding, c.key, c.newLoan, c.now, c.today).tables == t;
    assert Step(t, c).tables == t;
  }

  /** A lending that opens a loan binds its key. */
  lemma OpeningBindsKey(t: Tables, c: Command)
    requires Lends(c) && OpensLoan(t, c)
    ensures (CheckoutOf(c.holding), c.key) in Step(t, c).tables.records
  {
    if (CheckoutOf(c.holding), c.key) in t.records {
      BoundKeyOpensNothing(t, c);
    }
  }

  lemma RunKeepsKey(t: Tables, cs: seq<Command>, scope: Scope, key: Key)
    requires Inv(t) && (scope, key) in t.records
    ensures (scope, key) in Run(t, cs).records
  {
    RunGrows(t, cs);
  }

  lemma RunSplits(t: Tables, cs: seq<Command>, i: nat, j: nat)
    requires i <= j <= |cs|
    ensures Run(t, cs[..j]) == Run(Run(t, cs[..i]), cs[i..j])
  {
    assert cs[..j] == cs[..i] + cs[i..j];
    RunAppend(t, cs[..i], cs[i..j]);
  }

  lemma KeyStaysBound(t: Tables, cs: seq<Command>, i: nat, j: nat, scope: Scope, key: Key)
    requires Inv(t) && i <= j <= |cs| && (scope, key) in Run(t, cs[..i]).records
    ensures (scope, key) in Run(t, cs[..j]).records
  {
    RunKeepsInv(t, cs[..i]);
    RunKeepsKey(Run(t, cs[..i]), cs[i..j], scope, key);
    RunSplits(t, cs, i, j);
  }

  lemma BoundAfterOpening(t: Tables, cs: seq<Command>, i: nat)
    requires i < |cs| && Lends(cs[i]) && OpensLoan(Run(t, cs[..i]), cs[i])
    ensures (CheckoutOf(cs[i].holding), cs[i].key) in Run(t, cs[..i + 1]).records
  {
    RunNext(t, cs, i);
    OpeningBindsKey(Run(t, cs[..i]), cs[i]);
  }

  /** In every serial run at most one command with a given copy and key opens a loan. */
  lemma OneLoanPerKey(t: Tables, cs: seq<Command>, i: nat, j: nat)
    requires Inv(t) && i < j < |cs| && Lends(cs[i]) && Lends(cs[j])
    requires cs[i].holding == cs[j].holding && cs[i].key == cs[j].key
    requires OpensLoan(Run(t, cs[..i]), cs[i])
    ensures !OpensLoan(Run(t, cs[..j]), cs[j])
  {
    BoundAfterOpening(t, cs, i);
    KeyStaysBound(t, cs, i + 1, j, CheckoutOf(cs[i].holding), cs[i].key);
    BoundKeyOpensNothing(Run(t, cs[..j]), cs[j]);
  }

  // ---- everybody else ----

  /** The key under which a command stores its answer, if any. */
  function KeyOf(c: Command): Option<Key> {
    match c
    case DoCheckout(_, _, key, _, _, _) => Some(key)
    case DoReturn(_, _, key, _) => Some(key)
    case DoCommitIssue(_, _, _, _, key, _, _, _, _, _) => Some(key)
    case DoCancelIssue(_, key, _) => Some(key)
    case DoInitiatePickup(_, _, key, _) => Some(key)
    case DoConfirmPickup(_, key, _) => Some(key)
    case DoTransition(_, _, key) => Some(key)
    case _ => None
  }

  /** Other clients never guess the key of a card. */
  predicate Foreign(c: Command) {
    KeyOf(c).Some? ==> KeyOf(c).value.Outside?
  }

  lemma RanCheckout(t: Tables, c: Command, u: Tables)
    requires c.DoCheckout? && u == Checkout(t, c.patron, c.holding, c.key, c.newLoan, c.now, c.today).tables
    ensures Ran(t, c, u)
  {
  }

  lemma RanConfirm(t: Tables, c: Command, u: Tables)
    requires c.DoConfirmPickup? && u == ConfirmPickup(t, c.fulfillment, c.key, c.now).tables
    ensures Ran(t, c, u)
  {
  }

  lemma RanShelf(t: Tables, c: Command, u: Tables)
    requires c.DoAddHolding? || c.DoWithdraw?
    requires u == (if c.DoAddHolding?
                   then AddHolding(t, c.newHolding, c.catalog, c.barcode, c.accession, c.circulating).tables
                   else Withdraw(t, c.holding).tables)
    ensures Ran(t, c, u)
  {
  }

  lemma RanAdmin(t: Tables, c: Command, u: Tables)
    requires c.Administer? && u == t.(lib := Admin(t.lib, c.admin).lib)
    ensures Ran(t, c, u)
  {
  }

  /** Another request on the same database, served by the same services. */
  class OtherRequest {
    const session: Session
    const orchestrator: CirculationOrchestrator
    const issues: SearchAndIssueWorkflow
    const takeBacks: ReturnBookWorkflow
    const fulfillment: FulfillmentService
    const catalog: CatalogAdministration
    const rules: LoanAdministration
    const patrons: ReferenceAdministration

    constructor (s: Session)
      ensures session == s && Wired()
    {
      session := s;
      var o := new CirculationOrchestrator(s);
      orchestrator := o;
      issues := new SearchAndIssueWorkflow(s, o);
      takeBacks := new ReturnBookWorkflow(s, o);
      fulfillment := new FulfillmentService(s);
      catalog := new CatalogAdministration(s);
      rules := new LoanAdministration(s);
      patrons := new ReferenceAdministration(s);
    }

    ghost predicate Wired() {
      && orchestrator.session == session && orchestrator.Wired() && issues.session == session && issues.Wired()
      && takeBacks.session == session && takeBacks.Wired() && fulfillment.session == session
      && catalog.session == session && rules.session == session && patrons.session == session
    }

    method Lend(c: Command)
      requires Wired() && session.Clean() && BlockInv(session.committed.lib) && Lends(c)
      modifies session
      ensures session.Clean() && Ran(old(session.committed), c, session.committed)
    {
      ghost var before := session.committed;
      if c.DoCheckout? {
        var _ := orchestrator.Checkout(c.patron, c.holding, c.key, c.newLoan, c.now, c.today);
        RanCheckout(before, c, session.committed);
      } else {
        var _ := issues.Commit(c.patron, c.holding, c.mode, c.notes, c.key, c.newLoan, c.newFulfillment, c.now, c.today,
                               c.crash);
        RanIssue(before, c, session.committed);
      }
      session.Rollback();
    }

    method TakeBack(c: Command)
      requires Wired() && session.Clean() && Inv(session.committed)
               && (c.DoReturn? || c.DoCancelIssue? || c.DoConfirmPickup?)
      modifies session
      ensures session.Clean() && Ran(old(session.committed), c, session.committed)
    {
      ghost var before := session.committed;
      if c.DoReturn? {
        var _ := takeBacks.CommitDesk(c.holdingOpt, c.loanOpt, c.key, c.now);
        RanReturn(before, c, session.committed);
      } else if c.DoCancelIssue? {
        var _ := issues.CancelIssue(c.loan, c.key, c.now);
        RanCancel(before, c, session.committed);
      } else {
        var _ := takeBacks.ConfirmPickupReceived(c.fulfillment, c.key, c.now);
        RanConfirm(before, c, session.committed);
      }
      session.Rollback();
    }

    method Deliver(c: Command)
      requires Wired() && session.Clean() && (c.DoInitiatePickup? || c.DoTransition?)
      modifies session
      ensures session.Clean() && Ran(old(session.committed), c, session.committed)
    {
      ghost var before := session.committed;
      if c.DoInitiatePickup? {
        var _ := takeBacks.InitiatePickup(c.loan, c.notes, c.key, c.newFulfillment);
        session.Rollback();
        RanPickup(before, c, session.committed);
      } else {
        var _ := fulfillment.Transition(c.fulfillment, c.target, c.key);
        session.Commit();
        RanTransition(before, c, session.committed);
      }
    }

    method Keep(c: Command)
      requires Wired() && session.Clean() && (c.DoAddHolding? || c.DoWithdraw? || c.Administer?)
      modifies session
      ensures session.Clean() && Ran(old(session.committed), c, session.committed)
    {
      ghost var before := session.committed;
      if c.DoAddHolding? {
        var _ := catalog.AddHolding(c.newHolding, c.catalog, c.barcode, c.accession, c.circulating);
        RanShelf(before, c, session.committed);
      } else if c.DoWithdraw? {
        var _ := catalog.WithdrawHolding(c.holding);
        RanShelf(before, c, session.committed);
      } else {
        Amend(c.admin);
        RanAdmin(before, c, session.committed);
      }
    }

    /** Commands without a service of their own here change their row in one commit. */
    method Amend(x: AdminCommand)
      requires Wired() && session.Clean()
      modifies session
      ensures session.Clean()
      ensures session.committed == old(session.committed).(lib := Admin(old(session.committed).lib, x).lib)
    {
      match x
      case DoPublish(c) => var _ := catalog.PublishCatalog(c);
      case DoSuppress(c) => var _ := catalog.SuppressCatalog(c);
      case DoUpdateRuleSet(rule, max, days) => var _ := rules.UpdateLoanRuleSet(rule, max, days);
      case DoSetBlock(p, b, startAt, endAt) => var _ := patrons.SetPatronBlock(p, b, startAt, endAt);
      case DoClearBlock(p, b) => var _ := patrons.ClearPatronBlock(p, b);
      case _ =>
        session.work := session.work.(lib := Admin(session.work.lib, x).lib);
        session.Commit();
    }

    method Perform(c: Command)
      requires Wired() && session.Clean() && Inv(session.committed)
      modifies session
      ensures session.Clean() && Ran(old(session.committed), c, session.committed)
    {
      if c.DoCheckout? || c.DoCommitIssue? {
        Lend(c);
      } else if c.DoReturn? || c.DoCancelIssue? || c.DoConfirmPickup? {
        TakeBack(c);
      } else if c.DoInitiatePickup? || c.DoTransition? {
        Deliver(c);
      } else {
        Keep(c);
      }
    }
  }

  // ---- moments and turns ----

  datatype Event =
    | Say(operator: string, intent: ParsedIntent, clock: Clock)
    | Answer(operator: string, approved: bool, x: Execution)
    | Elsewhere(command: Command)

  /** What never changes during a run. */
  datatype Setup = Setup(enabled: bool, budget: nat, operator: string)

  /** The database between two events, and what cards depend on in the session. */
  datatype Moment = Moment(
    tables: Tables, grip: Grip, pending: Option<PendingApproval>, calls: nat, nextKey: nat)

  /** What one event did: the command that ran, and the reply to an answer. */
  datatype Turn = Turn(ran: Option<Command>, reply: Option<Result<ToolResult>>)

  function SetupOf(desk: IssueAgentCoordinator, a: AgentIssueSession): Setup {
    Setup(desk.enabled, desk.maxToolCalls, a.operatorId)
  }

  function MomentOf(desk: IssueAgentCoordinator, a: AgentIssueSession): Moment
    reads desk, desk.db, a, a.slots
  {
    Moment(desk.db.committed, GripOf(a.slots), a.pending, a.toolCalls, desk.nextKey)
  }

  /** The pending action has the slots it needs; only a return card can lack its loan. */
  predicate HasSlots(m: Moment) {
    IsReturnCard(m.pending) ==> m.grip.loanId.Some?
  }

  /** The preview has no objection to this pair in these tables, and the copy carries this barcode. */
  ghost predicate LawfulIn(t: Tables, p: Id, h: Id, barcode: string) {
    Previewed(t, p, h) && CopyKnown(t, h, barcode)
  }

  /** The preview has no objection; folded. */
  ghost predicate Previewed(t: Tables, p: Id, h: Id) {
    forall u {:trigger Consulted(u)} :: Consulted(u) && u == t ==> IssueViolations(u, p, h) == []
  }

  /** The card shows the operator these terms. */
  predicate Shows(details: CardDetails, terms: CardTerms) {
    Names(details, terms) && details.mode == Some(terms.mode)
  }

  /**
   A card as it is put up: the pair on an issue card just passed the preview, and a return card has its whole budget.
   */
  ghost predicate PutUp(t: Tables, card: PendingApproval, n: Moment) {
    && (card.kind == CommitIssueAction ==>
          && n.grip.terms.patronId.Some? && n.grip.terms.holdingId.Some? && n.grip.terms.barcode.Some?
          && LawfulIn(t, n.grip.terms.patronId.value, n.grip.terms.holdingId.value, n.grip.terms.barcode.value))
    && (card.kind == CommitReturnAction ==> n.calls == 0)
  }

  /** Patron and copy are set, and the preview has no objection to them. */
  ghost predicate PairCleared(t: Tables, terms: CardTerms) {
    && terms.patronId.Some? && terms.holdingId.Some?
    && IssueViolations(t, terms.patronId.value, terms.holdingId.value) == []
  }

  /** What a message that was listened to puts up, on the moment after it. */
  ghost predicate Replied(s: Setup, t: Tables, intent: ParsedIntent, n: Moment) {
    && (n.pending.Some? ==> Answers(intent, n.pending.value, n.grip) && PutUp(t, n.pending.value, n))
    && (s.budget > 0 && intent.action.RequestTransition? ==> (n.pending.Some? <==> n.grip.fulfillmentId.Some?))
    && (s.budget > 0 && intent.action.RequestCommit? && !Given(intent.patronQuery) && !Given(intent.catalogQuery) ==>
          (n.pending.Some? <==> PairCleared(t, n.grip.terms)))
  }

  /**
   A message never writes; while a card is up it changes nothing but the count of tool calls. A card that it puts up
   answers its own request, and a request about the loan puts one up exactly when a loan is in the slots.
   */
  ghost predicate Saying(s: Setup, m: Moment, operator: string, intent: ParsedIntent, n: Moment) {
    && n.tables == m.tables
    && (if !s.enabled || operator != s.operator then n == m
        else if m.pending.Some? then n == m.(calls := 0)
        else
          && (if n.pending.Some? then n.pending.value.key == m.nextKey && n.nextKey == m.nextKey + 1
              else n.nextKey == m.nextKey)
          && Replied(s, m.tables, intent, n)
          && (AsksAboutLoan(intent.action) ==>
                n.grip.loanId == m.grip.loanId && (n.pending.Some? <==> m.grip.loanId.Some?)))
  }

  /** The command that an answer runs: the card's own, when approved by the operator within the budget. */
  function RunningIn(s: Setup, m: Moment, operator: string, approved: bool, x: Execution): Option<Command> {
    if s.enabled && operator == s.operator && approved && m.pending.Some? && m.calls < s.budget && !x.down
    then CommandFrom(m.grip, m.pending.value, x)
    else None
  }

  /** What an answer replies and leaves in the session. */
  ghost predicate Answering(s: Setup, m: Moment, operator: string, approved: bool, x: Execution,
                            ran: Option<Command>, r: Result<ToolResult>, n: Moment) {
    && n.nextKey == m.nextKey
    && (if !s.enabled || operator != s.operator then r == Err(Forbidden) && n == m
        else if m.pending.None? then r == Err(Validation) && n == m
        else if !approved then r.Ok? && !r.value.missingSlot && n == m.(pending := None)
        else Approving(s, m, m.pending.value, x, ran, r, n))
  }

  /** An approval: on an error the card stays up, and it keeps its slots unless a return went through. */
  ghost predicate Approving(s: Setup, m: Moment, card: PendingApproval, x: Execution,
                            ran: Option<Command>, r: Result<ToolResult>, n: Moment) {
    && n.pending == (if r.Ok? then None else Some(card))
    && (m.calls >= s.budget ==> r == Err(RateLimited) && n.grip == m.grip)
    && (m.calls < s.budget && x.down && card.kind != SelectReturnAction ==>
          r == Err(Unhandled) && n.grip == m.grip && n.calls == m.calls + 1)
    && (r.Ok? ==> (r.value.missingSlot <==> !HasSlots(m)))
    && (r.Err? ==> SlotsStay(card.kind, m.grip, n.grip))
    && (r.Ok? && card.kind == SelectReturnAction ==> Chosen(card, n.grip))
    && (m.calls < s.budget && !x.down && HasSlots(m) ==> Done(m.tables, m.grip, card, x, n.tables))
    && (card.kind == CommitReturnAction ==>
          && (r == Err(RateLimited) <==> OverBudget(m.grip, s.budget, m.calls, x))
          && (r.Err? && r.error != RateLimited ==> !IsAppError(r.error))
          && (HasSlots(m) ==> (!HasSlots(n) <==> r.Err? && ran.Some? && TakesBack(m.tables, ran.value))))
  }

  /** One event of a run, from one moment to the next. */
  ghost predicate TurnOk(s: Setup, m: Moment, e: Event, turn: Turn, n: Moment) {
    && (if turn.ran.Some? then Ran(m.tables, turn.ran.value, n.tables) else n.tables == m.tables)
    && match e
       case Say(operator, intent, _) => turn == Turn(None, None) && Saying(s, m, operator, intent, n)
       case Answer(operator, approved, x) =>
         && turn.ran == RunningIn(s, m, operator, approved, x) && turn.reply.Some?
         && Answering(s, m, operator, approved, x, turn.ran, turn.reply.value, n)
       case Elsewhere(c) => turn == Turn(Some(c), None) && n == m.(tables := n.tables)
  }

  /** TurnOk, folded; a proof that mentions Turned(e) looks inside. */
  ghost predicate Took(s: Setup, m: Moment, e: Event, turn: Turn, n: Moment) {
    forall f {:trigger Turned(f)} :: Turned(f) && f == e ==> TurnOk(s, m, f, turn, n)
  }

  ghost predicate Turned(e: Event) {
    true
  }

  /** The moments that a desk goes through over these events, and what each event did. */
  ghost predicate IsRun(s: Setup, events: seq<Event>, turns: seq<Turn>, moments: seq<Moment>) {
    && |turns| == |events| && |moments| == |events| + 1
    && Inv(moments[0].tables)
    && forall i | 0 <= i < |events| :: TurnOk(s, moments[i], events[i], turns[i], moments[i + 1])
  }

  // ---- the driver ----

  /** Session and database between two events. */
  ghost predicate Ready(desk: IssueAgentCoordinator, a: AgentIssueSession)
    reads desk, desk.db, a, a.slots, a.pseudonyms
  {
    desk.Wired() && desk.db.Clean() && a.Valid(desk.db.committed)
  }

  lemma RanKeepsInv(t: Tables, c: Command, u: Tables)
    requires Sane(t) && Ran(t, c, u)
    ensures Sane(u) && Extends(t, u)
  {
    assert Unrolled(c) && Consulted(t);
    StepKeepsInv(t, c);
    StepExtends(t, c);
  }

  lemma MessageReplied(desk: IssueAgentCoordinator, a: AgentIssueSession, intent: ParsedIntent)
    requires Ready(desk, a) && desk.CardFits(a) && desk.ReturnCardIsFirst(a, 0) && desk.Answered(a, intent)
    requires desk.maxToolCalls > 0 ==> desk.Granted(a, intent)
    ensures Replied(SetupOf(desk, a), desk.db.committed, intent, MomentOf(desk, a))
  {
    assert Heard(intent);
    a.slots.NamedRows(desk.db.committed, a.pseudonyms.patrons);
  }

  method Hear(desk: IssueAgentCoordinator, a: AgentIssueSession, e: Event)
    requires e.Say? && Ready(desk, a) && LibraryOk(desk.db.committed)
    modifies desk`nextKey, a, a.slots, a.pseudonyms
    ensures Ready(desk, a)
    ensures Saying(SetupOf(desk, a), old(MomentOf(desk, a)), e.operator, e.intent, MomentOf(desk, a))
  {
    var asked := desk.enabled && e.operator == a.operatorId && a.pending.None?;
    var _ := desk.HandleMessage(a, e.operator, e.intent, e.clock);
    if asked {
      MessageReplied(desk, a, e.intent);
    }
  }

  lemma SayingIsTurn(s: Setup, m: Moment, e: Event, n: Moment)
    requires e.Say? && Saying(s, m, e.operator, e.intent, n)
    ensures Took(s, m, e, Turn(None, None), n)
  {
  }

  /** The answer itself, before its request ends. */
  method Respond(desk: IssueAgentCoordinator, a: AgentIssueSession, e: Event) returns (turn: Turn)
    requires e.Answer? && Ready(desk, a) && Sane(desk.db.committed)
    modifies desk.db, a, a.slots, a.pseudonyms
    ensures desk.Wired() && a.Valid(desk.db.committed)
    ensures Took(SetupOf(desk, a), old(MomentOf(desk, a)), e, turn, MomentOf(desk, a))
  {
    var ran := RunningIn(SetupOf(desk, a), MomentOf(desk, a), e.operator, e.approved, e.x);
    var reply := desk.Resume(a, e.operator, e.approved, e.x);
    turn := Turn(ran, Some(reply));
  }

  /** What the request did not commit is lost when it ends. */
  method TakeAnswer(desk: IssueAgentCoordinator, a: AgentIssueSession, e: Event) returns (turn: Turn)
    requires e.Answer? && Ready(desk, a) && Sane(desk.db.committed)
    modifies desk.db, a, a.slots, a.pseudonyms
    ensures Ready(desk, a)
    ensures Took(SetupOf(desk, a), old(MomentOf(desk, a)), e, turn, MomentOf(desk, a))
  {
    turn := Respond(desk, a, e);
    desk.db.Rollback();
  }

  /** Any other command on the same database: the session stays as it was, and well formed. */
  method LookAway(desk: IssueAgentCoordinator, a: AgentIssueSession, other: OtherRequest, c: Command)
    requires Ready(desk, a) && other.session == desk.db && other.Wired() && Sane(desk.db.committed)
    modifies desk.db
    ensures Ready(desk, a) && Ran(old(desk.db.committed), c, desk.db.committed)
  {
    ghost var t := desk.db.committed;
    SaneLibrary(t);
    other.Perform(c);
    RanKeepsInv(t, c, desk.db.committed);
    a.ValidExtends(t, desk.db.committed);
  }

  lemma ElsewhereIsTurn(s: Setup, m: Moment, e: Event, n: Moment)
    requires e.Elsewhere? && Ran(m.tables, e.command, n.tables) && n == m.(tables := n.tables)
    ensures Took(s, m, e, Turn(Some(e.command), None), n)
  {
  }

  /** Every event keeps the invariant of the tables. */
  lemma TookKeepsInv(s: Setup, m: Moment, e: Event, turn: Turn, n: Moment)
    requires Sane(m.tables) && Took(s, m, e, turn, n)
    ensures Sane(n.tables)
  {
    assert Turned(e);
    if turn.ran.Some? {
      RanKeepsInv(m.tables, turn.ran.value, n.tables);
    }
  }

  /** One event of any kind. */
  method TakeTurn(desk: IssueAgentCoordinator, a: AgentIssueSession, other: OtherRequest, e: Event) returns (turn: Turn)
    requires Ready(desk, a) && other.session == desk.db && other.Wired() && Sane(desk.db.committed)
    modifies desk`nextKey, desk.db, a, a.slots, a.pseudonyms
    ensures Ready(desk, a) && Sane(desk.db.committed)
    ensures Took(SetupOf(desk, a), old(MomentOf(desk, a)), e, turn, MomentOf(desk, a))
  {
    ghost var m := MomentOf(desk, a);
    match e {
      case Say(_, _, _) =>
        SaneLibrary(desk.db.committed);
        Hear(desk, a, e);
        SayingIsTurn(SetupOf(desk, a), m, e, MomentOf(desk, a));
        turn := Turn(None, None);
      case Answer(_, _, _) =>
        turn := TakeAnswer(desk, a, e);
      case Elsewhere(c) =>
        LookAway(desk, a, other, c);
        ElsewhereIsTurn(SetupOf(desk, a), m, e, MomentOf(desk, a));
        turn := Turn(Some(c), None);
    }
    TookKeepsInv(SetupOf(desk, a), m, e, turn, MomentOf(desk, a));
  }

  /** The turns taken so far. */
  ghost predicate Traced(s: Setup, events: seq<Event>, turns: seq<Turn>, moments: seq<Moment>) {
    && |turns| <= |events| && |moments| == |turns| + 1 && Sane(moments[0].tables)
    && forall i | 0 <= i < |turns| :: Took(s, moments[i], events[i], turns[i], moments[i + 1])
  }

  lemma TracedNext(s: Setup, events: seq<Event>, turns: seq<Turn>, moments: seq<Moment>, turn: Turn, n: Moment)
    requires Traced(s, events, turns, moments) && |turns| < |events|
    requires Took(s, moments[|turns|], events[|turns|], turn, n)
    ensures Traced(s, events, turns + [turn], moments + [n])
  {
  }

  lemma TurnsMakeRun(s: Setup, events: seq<Event>, turns: seq<Turn>, moments: seq<Moment>)
    requires Traced(s, events, turns, moments) && |turns| == |events|
    ensures IsRun(s, events, turns, moments)
  {
    SaneLibrary(moments[0].tables);
    forall i | 0 <= i < |events|
      ensures TurnOk(s, moments[i], events[i], turns[i], moments[i + 1])
    {
      assert Turned(events[i]);
    }
  }

  /**
   Any sequence of messages, answers and other commands. Every event does what TurnOk says, the moments begin and end
   with the state of the desk, and the session is well formed after every event.
   */
  method RunDesk(desk: IssueAgentCoordinator, a: AgentIssueSession, other: OtherRequest, events: seq<Event>)
    returns (turns: seq<Turn>, ghost moments: seq<Moment>)
    requires Ready(desk, a) && other.session == desk.db && other.Wired() && Sane(desk.db.committed)
    modifies desk, desk.db, a, a.slots, a.pseudonyms
    ensures Ready(desk, a) && Sane(desk.db.committed)
    ensures IsRun(SetupOf(desk, a), events, turns, moments)
    ensures moments[0] == old(MomentOf(desk, a)) && moments[|events|] == MomentOf(desk, a)
  {
    ghost var s, m := SetupOf(desk, a), MomentOf(desk, a);
    turns, moments := [], [m];
    for i := 0 to |events|
      invariant |turns| == i && Traced(s, events, turns, moments)
      invariant Ready(desk, a) && Sane(desk.db.committed)
      invariant moments[0] == m && moments[i] == MomentOf(desk, a)
    {
      var turn := TakeTurn(desk, a, other, events[i]);
      ghost var n := MomentOf(desk, a);
      TracedNext(s, events, turns, moments, turn, n);
      turns, moments := turns + [turn], moments + [n];
    }
    TurnsMakeRun(s, events, turns, moments);
  }

  // ---- what follows for every run ----

  /** The commands that ran, in order. */
  function LogOf(turns: seq<Turn>): seq<Command> {
    if turns == [] then []
    else
      var before, last := LogOf(turns[..|turns| - 1]), turns[|turns| - 1];
      if last.ran.Some? then before + [last.ran.value] else before
  }

  lemma LogNext(turns: seq<Turn>, i: nat)
    requires i < |turns|
    ensures LogOf(turns[..i + 1]) == if turns[i].ran.Some? then LogOf(turns[..i]) + [turns[i].ran.value]
            else LogOf(turns[..i])
  {
    assert turns[..i + 1][..i] == turns[..i];
  }

  lemma RunOneMore(t: Tables, log: seq<Command>, c: Command)
    ensures Run(t, log + [c]) == Step(Run(t, log), c).tables
  {
    assert (log + [c])[..|log|] == log && (log + [c])[..|log| + 1] == log + [c];
    RunNext(t, log + [c], |log|);
  }

  /** An event that runs a command makes its step. */
  lemma TurnSteps(s: Setup, m: Moment, e: Event, turn: Turn, n: Moment)
    requires Inv(m.tables) && TurnOk(s, m, e, turn, n)
    ensures Inv(n.tables)
    ensures n.tables == if turn.ran.Some? then Step(m.tables, turn.ran.value).tables else m.tables
  {
    if turn.ran.Some? {
      assert Unrolled(turn.ran.value);
      StepKeepsInv(m.tables, turn.ran.value);
    }
  }

  lemma SerialNext(start: Tables, log: seq<Command>, s: Setup, m: Moment, e: Event, turn: Turn, n: Moment)
    requires Inv(m.tables) && m.tables == Run(start, log) && TurnOk(s, m, e, turn, n)
    ensures Inv(n.tables) && n.tables == Run(start, if turn.ran.Some? then log + [turn.ran.value] else log)
  {
    TurnSteps(s, m, e, turn, n);
    if turn.ran.Some? {
      RunOneMore(start, log, turn.ran.value);
    }
  }

  /** Every moment is reached by a serial run of the commands so far, so all laws of serial runs hold for the desk. */
  lemma {:induction false} RunIsSerial(s: Setup, events: seq<Event>, turns: seq<Turn>, moments: seq<Moment>, i: nat)
    requires IsRun(s, events, turns, moments) && i < |moments|
    ensures Inv(moments[i].tables) && moments[i].tables == Run(moments[0].tables, LogOf(turns[..i]))
  {
    if i > 0 {
      RunIsSerial(s, events, turns, moments, i - 1);
      LogNext(turns, i - 1);
      SerialNext(moments[0].tables, LogOf(turns[..i - 1]), s, moments[i - 1], events[i - 1], turns[i - 1], moments[i]);
    }
  }

  predicate IsTalk(e: Event) {
    e.Say? || (e.Answer? && !e.approved)
  }

  /** Messages and denials never write, whatever the messages say. */
  lemma {:induction false} TalkNeverWrites(s: Setup, events: seq<Event>, turns: seq<Turn>, moments: seq<Moment>, i: nat,
                                           j: nat)
    requires IsRun(s, events, turns, moments) && i <= j < |moments|
    requires forall k | i <= k < j :: IsTalk(events[k])
    ensures moments[j].tables == moments[i].tables
    decreases j
  {
    if i < j {
      TalkNeverWrites(s, events, turns, moments, i, j - 1);
      assert TurnOk(s, moments[j - 1], events[j - 1], turns[j - 1], moments[j]);
    }
  }

  /**
   The desk itself writes only when its operator approves a card that is up, and then only the command of that card.
   */
  lemma OnlyApprovalsWrite(s: Setup, events: seq<Event>, turns: seq<Turn>, moments: seq<Moment>, i: nat)
    requires IsRun(s, events, turns, moments) && i < |events|
    requires moments[i + 1].tables != moments[i].tables && !events[i].Elsewhere?
    ensures events[i].Answer? && events[i].approved && events[i].operator == s.operator && moments[i].pending.Some?
    ensures turns[i].ran == CommandFrom(moments[i].grip, moments[i].pending.value, events[i].x) && turns[i].ran.Some?
  {
    assert TurnOk(s, moments[i], events[i], turns[i], moments[i + 1]);
  }

  // ---- one card, one loan ----

  /**
   Cards carry keys that were drawn, and a key is drawn once: a card under an old key is the old card, and the slots
   that it is about are as they were.
   */
  lemma {:induction false} CardStays(s: Setup, events: seq<Event>, turns: seq<Turn>, moments: seq<Moment>, i: nat,
                                     j: nat)
    requires IsRun(s, events, turns, moments) && i <= j < |moments|
    requires moments[i].pending.Some? && moments[i].pending.value.key < moments[i].nextKey
    ensures moments[i].pending.value.key < moments[j].nextKey
    ensures moments[j].pending.Some? && moments[j].pending.value.key == moments[i].pending.value.key ==>
              && moments[j].pending == moments[i].pending
              && SlotsStay(moments[i].pending.value.kind, moments[i].grip, moments[j].grip)
    decreases j
  {
    if i < j {
      CardStays(s, events, turns, moments, i, j - 1);
      assert TurnOk(s, moments[j - 1], events[j - 1], turns[j - 1], moments[j]);
    }
  }

  lemma {:induction false} KeysAreDrawn(s: Setup, events: seq<Event>, turns: seq<Turn>, moments: seq<Moment>, i: nat)
    requires IsRun(s, events, turns, moments) && moments[0].pending.None? && i < |moments|
    ensures moments[i].pending.Some? ==> moments[i].pending.value.key < moments[i].nextKey
  {
    if i > 0 {
      KeysAreDrawn(s, events, turns, moments, i - 1);
      assert TurnOk(s, moments[i - 1], events[i - 1], turns[i - 1], moments[i]);
    }
  }

  ghost predicate OthersForeign(events: seq<Event>) {
    forall e | e in events && e.Elsewhere? :: Foreign(e.command)
  }

  /** A lending under the key of a card is the approved issue of that card. */
  lemma LendingIsTheCards(s: Setup, events: seq<Event>, turns: seq<Turn>, moments: seq<Moment>, i: nat)
    requires IsRun(s, events, turns, moments) && OthersForeign(events) && i < |events|
    requires turns[i].ran.Some? && Lends(turns[i].ran.value) && turns[i].ran.value.key.Approval?
    ensures events[i].Answer? && events[i].approved && IsIssueCard(moments[i].pending)
    ensures turns[i].ran == CommandFrom(moments[i].grip, moments[i].pending.value, events[i].x)
    ensures turns[i].ran.value.DoCommitIssue? && turns[i].ran.value.key == Approval(moments[i].pending.value.key)
  {
    assert TurnOk(s, moments[i], events[i], turns[i], moments[i + 1]);
    assert events[i] in events;
  }

  lemma {:induction false} KeyStaysTaken(s: Setup, events: seq<Event>, turns: seq<Turn>, moments: seq<Moment>, i: nat,
                                         j: nat, scope: Scope, key: Key)
    requires IsRun(s, events, turns, moments) && i <= j < |moments| && (scope, key) in moments[i].tables.records
    ensures (scope, key) in moments[j].tables.records
    decreases j
  {
    if i < j {
      KeyStaysTaken(s, events, turns, moments, i, j - 1, scope, key);
      RunIsSerial(s, events, turns, moments, j - 1);
      assert TurnOk(s, moments[j - 1], events[j - 1], turns[j - 1], moments[j]);
      if turns[j - 1].ran.Some? {
        assert Unrolled(turns[j - 1].ran.value);
        StepKeepsInv(moments[j - 1].tables, turns[j - 1].ran.value);
      }
    }
  }

  /**
   However often a card is answered, with anything in between, at most one of the answers opens a loan: two lendings
   under the key of a card are never both successful.
   */
  lemma CardMakesOneLoan(s: Setup, events: seq<Event>, turns: seq<Turn>, moments: seq<Moment>, i: nat, j: nat)
    requires IsRun(s, events, turns, moments) && moments[0].pending.None? && OthersForeign(events) && i < j < |events|
    requires turns[i].ran.Some? && Lends(turns[i].ran.value) && turns[j].ran.Some? && Lends(turns[j].ran.value)
    requires turns[i].ran.value.key.Approval? && turns[j].ran.value.key == turns[i].ran.value.key
    requires OpensLoan(moments[i].tables, turns[i].ran.value)
    ensures !OpensLoan(moments[j].tables, turns[j].ran.value)
  {
    var c, d := turns[i].ran.value, turns[j].ran.value;
    LendingIsTheCards(s, events, turns, moments, i);
    LendingIsTheCards(s, events, turns, moments, j);
    KeysAreDrawn(s, events, turns, moments, i);
    CardStays(s, events, turns, moments, i, j);
    assert TurnOk(s, moments[i], events[i], turns[i], moments[i + 1]) && Unrolled(c);
    OpeningBindsKey(moments[i].tables, c);
    KeyStaysTaken(s, events, turns, moments, i + 1, j, CheckoutOf(c.holding), c.key);
    BoundKeyOpensNothing(moments[j].tables, d);
  }

  // ---- what was shown is what is issued ----

  /** The message that put the card up, and that the slots it is about are still as they were then. */
  lemma {:induction false} CardOrigin(s: Setup, events: seq<Event>, turns: seq<Turn>, moments: seq<Moment>, j: nat)
    returns (i: nat)
    requires IsRun(s, events, turns, moments) && moments[0].pending.None? && j < |moments| && moments[j].pending.Some?
    ensures i < j && events[i].Say? && moments[i].pending.None? && moments[i + 1].pending == moments[j].pending
    ensures SlotsStay(moments[j].pending.value.kind, moments[i + 1].grip, moments[j].grip)
    ensures Answers(events[i].intent, moments[j].pending.value, moments[i + 1].grip)
    ensures PutUp(moments[i].tables, moments[j].pending.value, moments[i + 1])
  {
    assert TurnOk(s, moments[j - 1], events[j - 1], turns[j - 1], moments[j]);
    if moments[j - 1].pending.None? {
      i := j - 1;
    } else {
      i := CardOrigin(s, events, turns, moments, j - 1);
    }
  }

  lemma {:induction false} BarcodeStays(s: Setup, events: seq<Event>, turns: seq<Turn>, moments: seq<Moment>, i: nat,
                                        j: nat, h: Id, barcode: string)
    requires IsRun(s, events, turns, moments) && i <= j < |moments| && CopyKnown(moments[i].tables, h, barcode)
    ensures CopyKnown(moments[j].tables, h, barcode)
    decreases j
  {
    if i < j {
      BarcodeStays(s, events, turns, moments, i, j - 1, h, barcode);
      RunIsSerial(s, events, turns, moments, j - 1);
      assert TurnOk(s, moments[j - 1], events[j - 1], turns[j - 1], moments[j]);
      if turns[j - 1].ran.Some? {
        RanKeepsInv(moments[j - 1].tables, turns[j - 1].ran.value, moments[j].tables);
      }
    }
  }

  /** The loan is made for this patron and this copy; a delivery made with it has this mode and these notes. */
  ghost predicate IssuedAs(t: Tables, u: Tables, c: Command)
    requires c.DoCommitIssue?
  {
    && NewLoanOk(t, u, c.newLoan, c.patron, c.holding, c.now, c.today)
    && (forall l | l in u.loans && l !in t.loans :: l == c.newLoan)
    && (forall f | f in u.fulfillments && f !in t.fulfillments ::
          && u.fulfillments[f].loanId == Some(c.newLoan)
          && u.fulfillments[f].mode == c.mode && u.fulfillments[f].notes == c.notes)
  }

  lemma OpeningIssue(t: Tables, c: Command, u: Tables)
    requires c.DoCommitIssue? && u == Step(t, c).tables && OpensLoan(t, c)
    ensures IssuedAs(t, u, c)
  {
    var e := OpeningStep(t, c);
    CommitIssueShape(t, c);
  }

  /** The command issues exactly these terms. */
  predicate IssuesTerms(terms: CardTerms, c: Command)
    requires c.DoCommitIssue?
  {
    && terms.patronId == Some(c.patron) && terms.holdingId == Some(c.holding)
    && terms.mode == c.mode && terms.notes == c.notes
  }

  /**
   What was shown is what is issued. The one loan that an approved card makes is for the patron, the copy and the mode
   that the card showed when message i put it up; that very pair passed the preview then, and the copy still carries the
   barcode that was shown.
   */
  lemma LoanIsAsShown(s: Setup, events: seq<Event>, turns: seq<Turn>, moments: seq<Moment>, j: nat) returns (i: nat)
    requires IsRun(s, events, turns, moments) && moments[0].pending.None? && OthersForeign(events) && j < |events|
    requires turns[j].ran.Some? && Lends(turns[j].ran.value) && turns[j].ran.value.key.Approval?
    requires OpensLoan(moments[j].tables, turns[j].ran.value)
    ensures turns[j].ran.value.DoCommitIssue? && events[j].Answer? && events[j].approved
            && IsIssueCard(moments[j].pending)
    ensures i < j && events[i].Say? && moments[i].pending.None? && moments[i + 1].pending == moments[j].pending
    ensures var c := turns[j].ran.value;
            var terms := moments[i + 1].grip.terms;
            && Shows(moments[j].pending.value.details, terms) && IssuesTerms(terms, c) && terms.barcode.Some?
            && LawfulIn(moments[i].tables, c.patron, c.holding, terms.barcode.value)
            && IssuedAs(moments[j].tables, moments[j + 1].tables, c)
            && CopyKnown(moments[j].tables, c.holding, terms.barcode.value)
  {
    var c := turns[j].ran.value;
    LendingIsTheCards(s, events, turns, moments, j);
    i := CardOrigin(s, events, turns, moments, j);
    BarcodeStays(s, events, turns, moments, i, j, c.holding, moments[i + 1].grip.terms.barcode.value);
    assert TurnOk(s, moments[j], events[j], turns[j], moments[j + 1]) && Unrolled(c);
    OpeningIssue(moments[j].tables, c, moments[j + 1].tables);
  }

  /**
   Every approved card does what it shows. A message that asked for just this put it up, from then on the slots it is
   about stayed, and the approval does to the rows what a card of this kind is for: a cancel card closes the loan and
   ends its deliveries, a transition card sets the status shown, a pick-up card adds one row with the notes shown, a
   return card takes back the copy in the slots or else the loan, an issue card lends the pair.
   */
  lemma ActionIsAsShown(s: Setup, events: seq<Event>, turns: seq<Turn>, moments: seq<Moment>, j: nat) returns (i: nat)
    requires IsRun(s, events, turns, moments) && moments[0].pending.None? && j < |events|
    requires events[j].Answer? && turns[j].ran.Some? && HasSlots(moments[j])
    ensures moments[j].pending.Some? && i < j && events[i].Say?
    ensures var card := moments[j].pending.value;
            && moments[i + 1].pending == Some(card) && Answers(events[i].intent, card, moments[i + 1].grip)
            && SlotsStay(card.kind, moments[i + 1].grip, moments[j].grip)
            && ActionDone(moments[j].tables, moments[j].grip, card, events[j].x, moments[j + 1].tables)
  {
    assert TurnOk(s, moments[j], events[j], turns[j], moments[j + 1]);
    assert Dealt(moments[j].pending.value);
    i := CardOrigin(s, events, turns, moments, j);
  }

  /** In particular a request to cancel leads to nothing but the cancellation of the loan that was in the slots. */
  lemma CancelClosesLoan(s: Setup, events: seq<Event>, turns: seq<Turn>, moments: seq<Moment>, j: nat) returns (i: nat)
    requires IsRun(s, events, turns, moments) && moments[0].pending.None? && j < |events|
    requires events[j].Answer? && turns[j].ran.Some? && moments[j].pending.Some?
    requires moments[j].pending.value.kind == CancelIssueAction
    ensures i < j && events[i].Say? && events[i].intent.action.RequestCancelIssue? && moments[i].grip.loanId.Some?
    ensures var t, l := moments[j].tables, moments[i].grip.loanId.value;
            LoanIsOpen(t, Some(l)) && l !in t.holdings ==>
              && t.loans[l].holdingId in t.holdings
              && LoanClosed(t, moments[j + 1].tables, l, events[j].x.clock.now)
              && IssuesTerminated(t, moments[j + 1].tables, l)
  {
    i := ActionIsAsShown(s, events, turns, moments, j);
    assert TurnOk(s, moments[i], events[i], turns[i], moments[i + 1]);
    RunIsSerial(s, events, turns, moments, j);
    var t, l := moments[j].tables, moments[i].grip.loanId.value;
    if LoanIsOpen(t, Some(l)) && l !in t.holdings {
      OpenLoanHasNoReturnRecord(t, l, Approval(moments[j].pending.value.key));
    }
  }

  // ---- cards and their slots ----

  /** No answer so far failed with an error of the database. */
  ghost predicate Calm(turns: seq<Turn>) {
    forall i | 0 <= i < |turns| && turns[i].reply.Some? && turns[i].reply.value.Err? ::
      IsAppError(turns[i].reply.value.error)
  }

  /** The pending action has its slots, and a return card has its whole budget left. */
  predicate Armed(m: Moment) {
    HasSlots(m) && (IsReturnCard(m.pending) ==> m.calls == 0)
  }

  lemma {:induction false} CalmRunStaysArmed(s: Setup, events: seq<Event>, turns: seq<Turn>, moments: seq<Moment>,
                                             k: nat)
    requires IsRun(s, events, turns, moments) && s.budget >= 2 && Armed(moments[0])
    requires k < |moments| && Calm(turns[..k])
    ensures Armed(moments[k])
  {
    if k > 0 {
      assert forall i | 0 <= i < k - 1 :: turns[..k - 1][i] == turns[..k][i];
      CalmRunStaysArmed(s, events, turns, moments, k - 1);
      assert TurnOk(s, moments[k - 1], events[k - 1], turns[k - 1], moments[k]);
      assert turns[..k][k - 1] == turns[k - 1];
    }
  }

  /**
   With a budget of two calls or more (the default is five), and as long as the database answers, no approved action
   ever lacks a slot.
   */
  lemma CalmRunLacksNothing(s: Setup, events: seq<Event>, turns: seq<Turn>, moments: seq<Moment>, k: nat)
    requires IsRun(s, events, turns, moments) && s.budget >= 2 && moments[0].pending.None?
    requires k < |events| && Calm(turns[..k]) && turns[k].reply.Some? && turns[k].reply.value.Ok?
    ensures !turns[k].reply.value.value.missingSlot
  {
    CalmRunStaysArmed(s, events, turns, moments, k);
    assert TurnOk(s, moments[k], events[k], turns[k], moments[k + 1]);
  }

  /** A return that went through under an approval that was answered with an error. */
  ghost predicate LosesSlot(m: Moment, turn: Turn) {
    && IsReturnCard(m.pending) && HasSlots(m) && turn.ran.Some? && TakesBack(m.tables, turn.ran.value)
    && turn.reply.Some? && turn.reply.value.Err?
  }

  /** A card lacks its loan exactly when one of its earlier answers took the loan back and was an error all the same. */
  lemma {:induction false} LackHasCause(s: Setup, events: seq<Event>, turns: seq<Turn>, moments: seq<Moment>, k: nat)
    returns (i: nat)
    requires IsRun(s, events, turns, moments) && HasSlots(moments[0]) && k < |moments| && !HasSlots(moments[k])
    ensures i < k && moments[i].pending == moments[k].pending && LosesSlot(moments[i], turns[i])
  {
    assert TurnOk(s, moments[k - 1], events[k - 1], turns[k - 1], moments[k]);
    if HasSlots(moments[k - 1]) {
      i := k - 1;
    } else {
      i := LackHasCause(s, events, turns, moments, k - 1);
    }
  }

  /** And such an answer always leaves its card without the loan. */
  lemma LostSlotIsLost(s: Setup, events: seq<Event>, turns: seq<Turn>, moments: seq<Moment>, i: nat)
    requires IsRun(s, events, turns, moments) && i < |events| && LosesSlot(moments[i], turns[i])
    ensures moments[i + 1].pending == moments[i].pending && !HasSlots(moments[i + 1])
  {
    assert TurnOk(s, moments[i], events[i], turns[i], moments[i + 1]);
  }

  // ---- a run in which a card loses its loan ----

  /** One copy, on loan to one patron. */
  const LENT: Tables :=
    EMPTY.(lib := EMPTY.lib.(patrons := map[3 := Patron("P", 0, Active, false, None, None)]),
           holdings := map[0 := Holding(0, "B", "A", true, OnLoan)],
           loans := map[7 := Loan(3, 0, 0, 0, 0, None)])

  lemma LentIsSane()
    ensures Inv(LENT)
    ensures ReturnHolding(LENT, Some(0), Some(7), Approval(0), 0).result == Ok(7)
  {
    assert 7 in OpenLoansOf(LENT, 0) && ActiveBlocks(LENT.lib, 3) == {};
    assert OpenLoansOf(LENT, 0) == {7};
  }

  const NOON := Clock(0, 0)
  const APPROVED := Answer("desk", true, Execution(0, 0, NOON, false, false))
  /** The database cannot be reached, an approval, a message, another approval. */
  const UNLUCKY: seq<Event> :=
    [Answer("desk", true, Execution(0, 0, NOON, false, true)), APPROVED, Say("desk", NOTHING, NOON), APPROVED]
  const NOTHING := ParsedIntent(Chat, None, None, None, None, None, None, None, None, None, None, None, "", false)

  /** A return card at a desk visit whose slots name the one loan. */
  predicate ReturnIsUp(m: Moment) {
    && m.tables == LENT && m.grip.atDesk && IsReturnCard(m.pending) && m.pending.value.key == 0
    && m.grip.loanId == Some(7) && m.grip.terms.holdingId == Some(0) && m.grip.terms.patronId == Some(3)
  }

  predicate AtTheDesk(m: Moment) {
    ReturnIsUp(m) && m.calls == 0
  }

  /** The first approval costs a call. */
  lemma UnluckyFirst(m: Moment, turn: Turn, n: Moment)
    requires AtTheDesk(m) && TurnOk(Setup(true, 2, "desk"), m, UNLUCKY[0], turn, n)
    ensures ReturnIsUp(n) && n.calls == 1
  {
  }

  /** The second returns the copy and has no call left for the list. */
  lemma UnluckySecond(m: Moment, turn: Turn, n: Moment)
    requires ReturnIsUp(m) && m.calls == 1 && TurnOk(Setup(true, 2, "desk"), m, UNLUCKY[1], turn, n)
    ensures turn.reply == Some(Err(RateLimited)) && !HasSlots(n)
    ensures turn.ran.Some? && TakesBack(LENT, turn.ran.value)
  {
    LentIsSane();
    TakesBackIff(LENT, DoReturn(Some(0), Some(7), Approval(0), 0));
  }

  /** After that the card is still up, and its next approval lacks the loan. */
  lemma UnluckyRunLosesSlot(turns: seq<Turn>, moments: seq<Moment>)
    requires IsRun(Setup(true, 2, "desk"), UNLUCKY, turns, moments) && AtTheDesk(moments[0])
    ensures HasSlots(moments[1]) && moments[1].tables == LENT
    ensures turns[1].reply == Some(Err(RateLimited)) && !HasSlots(moments[2])
    ensures turns[1].ran.Some? && TakesBack(LENT, turns[1].ran.value)
    ensures turns[3].reply.Some? && turns[3].reply.value.Ok? ==> turns[3].reply.value.value.missingSlot
  {
    var s := Setup(true, 2, "desk");
    assert TurnOk(s, moments[0], UNLUCKY[0], turns[0], moments[1]);
    UnluckyFirst(moments[0], turns[0], moments[1]);
    assert TurnOk(s, moments[1], UNLUCKY[1], turns[1], moments[2]);
    UnluckySecond(moments[1], turns[1], moments[2]);
    assert TurnOk(s, moments[2], UNLUCKY[2], turns[2], moments[3]);
    assert TurnOk(s, moments[3], UNLUCKY[3], turns[3], moments[4]);
  }

  /** Such a desk exists, and the services take it through that run. */
  method LoseSlot() returns (turns: seq<Turn>, ghost moments: seq<Moment>)
    ensures IsRun(Setup(true, 2, "desk"), UNLUCKY, turns, moments) && AtTheDesk(moments[0])
    ensures turns[1].reply == Some(Err(RateLimited)) && !HasSlots(moments[2])
  {
    LentIsSane();
    var db := new Session(LENT);
    var orchestrator := new CirculationOrchestrator(db);
    var issues := new SearchAndIssueWorkflow(db, orchestrator);
    var takeBacks := new ReturnBookWorkflow(db, orchestrator);
    var fulfillment := new FulfillmentService(db);
    var desk := new IssueAgentCoordinator(db, issues, takeBacks, fulfillment, true, 2);
    var other := new OtherRequest(db);
    var a := new AgentIssueSession("desk");
    FillForReturn(desk, a);
    turns, moments := RunDesk(desk, a, other, UNLUCKY);
    UnluckyRunLosesSlot(turns, moments);
  }

  method FillForReturn(desk: IssueAgentCoordinator, a: AgentIssueSession)
    requires Ready(desk, a) && desk.db.committed == LENT && a.pending.None? && a.toolCalls == 0 && desk.nextKey == 0
    modifies desk`nextKey, a, a.slots
    ensures Ready(desk, a) && AtTheDesk(MomentOf(desk, a))
  {
    ghost var labels := a.pseudonyms.patrons;
    a.slots.SetPatron(3, "P", LENT, labels);
    a.slots.SetCopy(0, "B", "T", LENT, labels);
    a.slots.SetLoan(7, LENT, labels);
    a.slots.BeginDesk(true);
    desk.RequestReturnCommitApproval(a);
  }
}
