/**
 Specification functions: what each command answers and which tables it leaves committed.
 The service classes are proved against them; the laws are proved about them.
 */
module Circulation {
  import opened Domain

  /** The answer of a command (the id of the row it returns) and the committed tables afterwards. */
  datatype Outcome = Outcome(result: Result<Id>, tables: Tables)

  function Refused(e: Error, t: Tables): Outcome {
    Outcome(Err(e), t)
  }

  // ---- queries ----

  predicate Open(n: Loan) {
    n.returnedAt.None?
  }

  function OpenLoansOf(t: Tables, h: Id): set<Id> {
    set l | l in t.loans && Open(t.loans[l]) && t.loans[l].holdingId == h
  }

  function OpenLoansBy(t: Tables, p: Id): set<Id> {
    set l | l in t.loans && Open(t.loans[l]) && t.loans[l].patronId == p
  }

  function ActiveBlocks(a: Library, p: Id): set<Id> {
    set b | b in a.blocks && a.blocks[b].patronId == p && a.blocks[b].active
  }

  function IssueFulfillments(t: Tables, l: Id): set<Id> {
    set f | f in t.fulfillments && t.fulfillments[f].loanId == Some(l) && t.fulfillments[f].direction == Issue
  }

  predicate IsPublished(t: Tables, h: Id)
    requires h in t.holdings
  {
    t.holdings[h].catalogId in t.lib.catalogs && t.lib.catalogs[t.holdings[h].catalogId].status == Published
  }

  predicate Lendable(t: Tables, h: Id) {
    h in t.holdings && IsPublished(t, h) && t.holdings[h].circulating && t.holdings[h].status == Available
  }

  /** The rule set mapped to a patron type, through an inner join. */
  function Policy(t: Tables, typeId: Id): Option<Id> {
    if typeId in t.lib.patronTypes && t.lib.patronTypes[typeId].Some?
       && t.lib.patronTypes[typeId].value in t.lib.ruleSets
    then t.lib.patronTypes[typeId]
    else None
  }

  // ---- checkout and return ----

  function CheckoutRefusal(t: Tables, p: Id, h: Id, newLoan: Id): Option<Error> {
    if p !in t.lib.patrons then Some(Unhandled)
    else
      var patron := t.lib.patrons[p];
      var policy := Policy(t, patron.typeId);
      if patron.status != Active || patron.blocked then Some(RuleViolation)
      else if h !in t.holdings || t.holdings[h].catalogId !in t.lib.catalogs then Some(NotFound)
      else if !Lendable(t, h) || policy.None? then Some(RuleViolation)
      else if |OpenLoansBy(t, p)| >= t.lib.ruleSets[policy.value].maxActiveLoans then Some(RuleViolation)
      else if newLoan in t.loans || OpenLoansOf(t, h) != {} then Some(Integrity)
      else None
  }

  function OpenLoan(t: Tables, p: Id, h: Id, newLoan: Id, now: Time, today: Day): Tables
    requires CheckoutRefusal(t, p, h, newLoan).None?
  {
    var rule := Policy(t, t.lib.patrons[p].typeId).value;
    t.(loans := t.loans[newLoan := Loan(p, h, rule, now, today + t.lib.ruleSets[rule].loanPeriodDays, None)],
       holdings := t.holdings[h := t.holdings[h].(status := OnLoan)])
  }

  function Checkout(t: Tables, p: Id, h: Id, key: Key, newLoan: Id, now: Time, today: Day): (o: Outcome)
    ensures o.tables.lib == t.lib
  {
    match FindCached(t.records, CheckoutOf(h), key, CheckoutPayload(p, h))
    case Err(e) => Refused(e, t)
    case Ok(Some(record)) => Outcome(Replay(t, record, 201), t)
    case Ok(None) =>
      match CheckoutRefusal(t, p, h, newLoan)
      case Some(e) => Refused(e, t)
      case None =>
        var record := Record(CheckoutPayload(p, h), 201, newLoan);
        var lent := OpenLoan(t, p, h, newLoan, now, today);
        Outcome(Ok(newLoan), lent.(records := StoreResponse(t.records, CheckoutOf(h), key, record)))
  }

  /** What a stored answer naming a loan is replayed as. */
  function Replay(t: Tables, record: Record, expected: int): Result<Id> {
    if record.status != expected then Err(Conflict)
    else if record.body !in t.loans then Err(Retriable)
    else Ok(record.body)
  }

  function CloseLoan(t: Tables, l: Id, h: Id, now: Time): Tables
    requires l in t.loans && h in t.holdings
  {
    t.(loans := t.loans[l := t.loans[l].(returnedAt := Some(now))],
       holdings := t.holdings[h := t.holdings[h].(status := Available)])
  }

  /** The single row a scalar query returns; the row is arbitrary when several match. */
  ghost function ScalarRow(rows: set<Id>): (r: Option<Id>)
    ensures r.None? <==> rows == {}
    ensures r.Some? ==> r.value in rows
  {
    if rows == {} then None else var x :| x in rows; Some(x)
  }

  function ReturnScope(ho: Option<Id>, lo: Option<Id>): Scope
    requires ho.Some? || lo.Some?
  {
    ReturnOf(if ho.Some? then ho.value else lo.value)
  }

  /** The loan a return acts on: the open loan of the copy, else the named loan in any state. */
  ghost function ReturnTarget(t: Tables, ho: Option<Id>, lo: Option<Id>): Result<Id>
    requires ho.Some? || lo.Some?
  {
    if ho.Some? then
      if ho.value !in t.holdings then Err(NotFound)
      else match ScalarRow(OpenLoansOf(t, ho.value))
           case None => Err(NotFound)
           case Some(l) => Ok(l)
    else if lo.value !in t.loans || t.loans[lo.value].holdingId !in t.holdings then Err(NotFound)
    else Ok(lo.value)
  }

  ghost predicate ReturnIsReplay(t: Tables, ho: Option<Id>, lo: Option<Id>, key: Key) {
    (ho.Some? || lo.Some?)
    && (ReturnScope(ho, lo), key) in t.records
    && t.records[(ReturnScope(ho, lo), key)].payload == ReturnPayload(ho, lo)
  }

  /** A return whose key was never used: closes the target loan and stores the answer. */
  ghost function FreshReturn(t: Tables, ho: Option<Id>, lo: Option<Id>, key: Key, now: Time): (o: Outcome)
    requires ho.Some? || lo.Some?
    ensures o.tables.lib == t.lib
  {
    match ReturnTarget(t, ho, lo)
    case Err(e) => Refused(e, t)
    case Ok(l) =>
      var h := if ho.Some? then ho.value else t.loans[l].holdingId;
      var closed := if Open(t.loans[l]) then CloseLoan(t, l, h, now) else t;
      var record := Record(ReturnPayload(ho, lo), 200, l);
      Outcome(Ok(l), closed.(records := StoreResponse(t.records, ReturnScope(ho, lo), key, record)))
  }

  ghost function ReturnHolding(t: Tables, ho: Option<Id>, lo: Option<Id>, key: Key, now: Time): (o: Outcome)
    ensures o.tables.lib == t.lib
  {
    if ho.None? && lo.None? then Refused(Validation, t)
    else
      match FindCached(t.records, ReturnScope(ho, lo), key, ReturnPayload(ho, lo))
      case Err(e) => Refused(e, t)
      case Ok(Some(record)) => Outcome(Replay(t, record, 200), t)
      case Ok(None) => FreshReturn(t, ho, lo, key, now)
  }

  // ---- fulfillments ----

  function AllowedNext(s: FulfillmentStatus): set<FulfillmentStatus> {
    match s
    case Requested => {Ready, Cancelled}
    case Ready => {InTransit, Completed, Cancelled}
    case InTransit => {Completed, Cancelled}
    case _ => {}
  }

  predicate Terminal(s: FulfillmentStatus) {
    s == Completed || s == Cancelled
  }

  function RequireOpenLoan(t: Tables, l: Option<Id>): Option<Error> {
    if l.None? || l.value !in t.loans then Some(NotFound)
    else if !Open(t.loans[l.value]) then Some(RuleViolation)
    else None
  }

  function WithStatus(t: Tables, f: Id, s: FulfillmentStatus): Tables
    requires f in t.fulfillments
  {
    t.(fulfillments := t.fulfillments[f := t.fulfillments[f].(status := s)])
  }

  function Transition(t: Tables, f: Id, target: FulfillmentStatus, key: Key): (o: Outcome)
    ensures o.tables.lib == t.lib
  {
    match FindCached(t.records, TransitionOf(f), key, TransitionPayload(f, target))
    case Err(e) => Refused(e, t)
    case Ok(Some(record)) =>
      if record.status != 200 then Refused(Conflict, t)
      else if record.body != f then Refused(Retriable, t)
      else if f !in t.fulfillments then Refused(NotFound, t)
      else Outcome(Ok(f), t)
    case Ok(None) =>
      if f !in t.fulfillments then Refused(NotFound, t)
      else
        var row := t.fulfillments[f];
        if row.status == target then Outcome(Ok(f), t)
        else if target !in AllowedNext(row.status) then Refused(RuleViolation, t)
        else if target == Completed && RequireOpenLoan(t, row.loanId).Some? then
          Refused(RequireOpenLoan(t, row.loanId).value, t)
        else
          var record := Record(TransitionPayload(f, target), 200, f);
          Outcome(Ok(f), WithStatus(t, f, target).(records := StoreResponse(t.records, TransitionOf(f), key, record)))
  }

  /** Cancels every ISSUE fulfillment of the loan that is not terminal yet. */
  function CancelIssueFulfillments(t: Tables, l: Id): Tables {
    t.(fulfillments := map f | f in t.fulfillments ::
         if f in IssueFulfillments(t, l) && !Terminal(t.fulfillments[f].status)
         then t.fulfillments[f].(status := Cancelled)
         else t.fulfillments[f])
  }

  function WithFulfillment(t: Tables, f: Id, row: Fulfillment): Tables {
    t.(fulfillments := t.fulfillments[f := row])
  }

  // ---- issue preview ----

  datatype Rule = REF_P6 | REF_B2 | LN_R1 | LN_R2 | LN_H1 | CAT_5 | XCAT_1 | HLD_4 | HLD_5

  function PatronViolations(t: Tables, p: Id): seq<Rule> {
    if p !in t.lib.patrons then [REF_P6]
    else
      var patron := t.lib.patrons[p];
      var policy := Policy(t, patron.typeId);
      (if patron.status != Active then [REF_P6] else [])
      + (if patron.blocked then [REF_B2] else [])
      + (if policy.None? then [LN_R1]
         else if |OpenLoansBy(t, p)| >= t.lib.ruleSets[policy.value].maxActiveLoans then [LN_R2]
         else [])
  }

  function HoldingViolations(t: Tables, h: Id): seq<Rule> {
    if h !in t.holdings then [LN_H1]
    else if t.holdings[h].catalogId !in t.lib.catalogs then [CAT_5]
    else
      (if IsPublished(t, h) then [] else [XCAT_1, CAT_5])
      + (if t.holdings[h].circulating then [] else [HLD_4])
      + (if t.holdings[h].status == Available then [] else [HLD_5])
  }

  function IssueViolations(t: Tables, p: Id, h: Id): seq<Rule> {
    PatronViolations(t, p) + HoldingViolations(t, h)
  }

  // ---- workflows ----

  /**
   Preview, checkout (which commits), then a delivery row in a second commit.
   `crash` says that the process dies between the two commits.
   */
  function CommitIssue(t: Tables, p: Id, h: Id, mode: Mode, notes: Option<string>, key: Key,
                       newLoan: Id, newFulfillment: Id, now: Time, today: Day, crash: bool): (o: Outcome)
    ensures o.tables.lib == t.lib
  {
    match FindCached(t.records, CheckoutOf(h), key, CheckoutPayload(p, h))
    case Err(e) => Refused(e, t)
    case Ok(cached) =>
      if cached.None? && IssueViolations(t, p, h) != [] then Refused(RuleViolation, t)
      else
        var loan := Checkout(t, p, h, key, newLoan, now, today);
        if loan.result.Err? then loan
        else if crash then Refused(Unhandled, loan.tables)
        else if mode == Desk || cached.Some? then loan
        else AddDelivery(loan.tables, loan.result.value, h, mode, notes, newFulfillment)
  }

  /** The second commit of an issue. */
  function AddDelivery(t: Tables, l: Id, h: Id, mode: Mode, notes: Option<string>, newFulfillment: Id): (o: Outcome)
    ensures o.tables.lib == t.lib
  {
    if newFulfillment in t.fulfillments then Refused(Integrity, t)
    else Outcome(Ok(l), WithFulfillment(t, newFulfillment, Fulfillment(Some(l), h, Issue, mode, Requested, notes)))
  }

  ghost function CancelIssue(t: Tables, l: Id, key: Key, now: Time): (o: Outcome)
    ensures o.tables.lib == t.lib
  {
    match RequireOpenLoan(t, Some(l))
    case Some(e) => Refused(e, t)
    case None =>
      var cancelled := CancelIssueFulfillments(t, l);
      var closed := ReturnHolding(cancelled, None, Some(l), key, now);
      if closed.result.Err? || ReturnIsReplay(t, None, Some(l), key) then Outcome(closed.result, t) else closed
  }

  function InitiatePickup(t: Tables, l: Id, notes: Option<string>, key: Key, newFulfillment: Id): (o: Outcome)
    ensures o.tables.lib == t.lib
  {
    match FindCached(t.records, PickupOf(l), key, PickupPayload(l, notes))
    case Err(e) => Refused(e, t)
    case Ok(Some(record)) =>
      if record.status != 201 then Refused(Conflict, t)
      else if record.body !in t.fulfillments then Refused(Retriable, t)
      else Outcome(Ok(record.body), t)
    case Ok(None) =>
      match RequireOpenLoan(t, Some(l))
      case Some(e) => Refused(e, t)
      case None =>
        if newFulfillment in t.fulfillments then Refused(Integrity, t)
        else
          var row := Fulfillment(Some(l), t.loans[l].holdingId, Direction.Return, PickupPoint, Requested, notes);
          var record := Record(PickupPayload(l, notes), 201, newFulfillment);
          Outcome(Ok(newFulfillment),
                  WithFulfillment(t, newFulfillment, row)
                  .(records := StoreResponse(t.records, PickupOf(l), key, record)))
  }

  ghost function ConfirmPickup(t: Tables, f: Id, key: Key, now: Time): (o: Outcome)
    ensures o.tables.lib == t.lib
  {
    if f !in t.fulfillments then Refused(NotFound, t)
    else if t.fulfillments[f].direction != Direction.Return || t.fulfillments[f].loanId.None? then
      Refused(RuleViolation, t)
    else
      var l := t.fulfillments[f].loanId.value;
      if l in t.loans && !Open(t.loans[l]) then Outcome(Ok(l), t)
      else
        var closed := ReturnHolding(WithStatus(t, f, Completed), None, Some(l), key, now);
        if closed.result.Err? || ReturnIsReplay(t, None, Some(l), key) then Outcome(closed.result, t) else closed
  }

  // ---- copies ----

  predicate BarcodeTaken(t: Tables, barcode: string) {
    exists h | h in t.holdings :: t.holdings[h].barcode == barcode
  }

  predicate AccessionTaken(t: Tables, accession: string) {
    exists h | h in t.holdings :: t.holdings[h].accession == accession
  }

  function AddHolding(t: Tables, newHolding: Id, c: Id, barcode: string, accession: string,
                      circulating: bool): (o: Outcome)
    ensures o.tables.lib == t.lib
  {
    if c !in t.lib.catalogs then Refused(NotFound, t)
    else if BarcodeTaken(t, barcode) || AccessionTaken(t, accession) then Refused(Conflict, t)
    else if newHolding in t.holdings then Refused(Integrity, t)
    else Outcome(Ok(newHolding),
                 t.(holdings := t.holdings[newHolding := Holding(c, barcode, accession, circulating, Available)]))
  }

  function Withdraw(t: Tables, h: Id): (o: Outcome)
    ensures o.tables.lib == t.lib
  {
    if h !in t.holdings then Refused(NotFound, t)
    else if t.holdings[h].status == OnLoan then Refused(RuleViolation, t)
    else Outcome(Ok(h), t.(holdings := t.holdings[h := t.holdings[h].(status := Withdrawn)]))
  }

  // ---- catalogue, rule-set and patron administration ----

  datatype LibOutcome = LibOutcome(result: Result<Id>, lib: Library)

  /** Neither block rows nor blocked flags change; a new patron is not blocked. */
  ghost predicate SameBlocks(a: Library, b: Library) {
    && b.blocks == a.blocks
    && (forall p | p in a.patrons :: p in b.patrons && b.patrons[p].blocked == a.patrons[p].blocked)
    && (forall p | p in b.patrons && p !in a.patrons :: !b.patrons[p].blocked)
  }

  predicate IsBlank(s: string) {
    forall i | 0 <= i < |s| :: s[i] in " \t\n\r"
  }

  function CreateCatalog(a: Library, newCatalog: Id, title: string): LibOutcome {
    if newCatalog in a.catalogs then LibOutcome(Err(Integrity), a)
    else LibOutcome(Ok(newCatalog), a.(catalogs := a.catalogs[newCatalog := Catalog(title, Draft)]))
  }

  function RetitleCatalog(a: Library, c: Id, title: string): LibOutcome {
    if c !in a.catalogs then LibOutcome(Err(NotFound), a)
    else LibOutcome(Ok(c), a.(catalogs := a.catalogs[c := a.catalogs[c].(title := title)]))
  }

  function Publish(a: Library, c: Id): LibOutcome {
    if c !in a.catalogs then LibOutcome(Err(NotFound), a)
    else if IsBlank(a.catalogs[c].title) then LibOutcome(Err(RuleViolation), a)
    else LibOutcome(Ok(c), a.(catalogs := a.catalogs[c := a.catalogs[c].(status := Published)]))
  }

  function Suppress(a: Library, c: Id): LibOutcome {
    if c !in a.catalogs then LibOutcome(Err(NotFound), a)
    else LibOutcome(Ok(c), a.(catalogs := a.catalogs[c := a.catalogs[c].(status := Suppressed)]))
  }

  function ConfigureRuleSet(a: Library, newRuleSet: Id, maxActiveLoans: nat, loanPeriodDays: int): LibOutcome {
    if newRuleSet in a.ruleSets then LibOutcome(Err(Integrity), a)
    else LibOutcome(Ok(newRuleSet), a.(ruleSets := a.ruleSets[newRuleSet := RuleSet(maxActiveLoans, loanPeriodDays)]))
  }

  function UpdateRuleSet(a: Library, r: Id, maxActiveLoans: Option<nat>, loanPeriodDays: Option<int>): LibOutcome {
    if r !in a.ruleSets then LibOutcome(Err(NotFound), a)
    else
      var was := a.ruleSets[r];
      var max := if maxActiveLoans.Some? then maxActiveLoans.value else was.maxActiveLoans;
      var days := if loanPeriodDays.Some? then loanPeriodDays.value else was.loanPeriodDays;
      LibOutcome(Ok(r), a.(ruleSets := a.ruleSets[r := RuleSet(max, days)]))
  }

  function CreatePatronType(a: Library, newType: Id, ruleSet: Option<Id>): LibOutcome {
    if ruleSet.Some? && ruleSet.value !in a.ruleSets then LibOutcome(Err(NotFound), a)
    else if newType in a.patronTypes then LibOutcome(Err(Integrity), a)
    else LibOutcome(Ok(newType), a.(patronTypes := a.patronTypes[newType := ruleSet]))
  }

  function UpdatePatronType(a: Library, ty: Id, ruleSet: Option<Id>): LibOutcome {
    if ty !in a.patronTypes then LibOutcome(Err(NotFound), a)
    else if ruleSet.Some? && ruleSet.value !in a.ruleSets then LibOutcome(Err(NotFound), a)
    else LibOutcome(Ok(ty), if ruleSet.None? then a else a.(patronTypes := a.patronTypes[ty := ruleSet]))
  }

  /** Some patron other than `self` already carries this reference or card. */
  predicate ReferenceTaken(a: Library, self: Option<Id>, reference: Option<string>) {
    reference.Some? && exists q | q in a.patrons :: Some(q) != self && a.patrons[q].reference == reference
  }

  predicate CardTaken(a: Library, self: Option<Id>, card: Option<string>) {
    card.Some? && exists q | q in a.patrons :: Some(q) != self && a.patrons[q].card == card
  }

  function RegisterPatron(a: Library, newPatron: Id, name: string, ty: Id, card: Option<string>,
                          reference: Option<string>): LibOutcome
  {
    if ty !in a.patronTypes then LibOutcome(Err(NotFound), a)
    else if ReferenceTaken(a, None, reference) || CardTaken(a, None, card) then LibOutcome(Err(Conflict), a)
    else if newPatron in a.patrons then LibOutcome(Err(Integrity), a)
    else LibOutcome(Ok(newPatron),
                    a.(patrons := a.patrons[newPatron := Patron(name, ty, Active, false, card, reference)]))
  }

  function UpdatePatron(a: Library, p: Id, ty: Option<Id>, name: Option<string>, reference: Option<string>,
                        card: Option<string>): LibOutcome
  {
    if p !in a.patrons then LibOutcome(Err(NotFound), a)
    else if ty.Some? && ty.value !in a.patronTypes then LibOutcome(Err(NotFound), a)
    else if ReferenceTaken(a, Some(p), reference) || CardTaken(a, Some(p), card) then LibOutcome(Err(Conflict), a)
    else
      var was := a.patrons[p];
      var row := was.(typeId := if ty.Some? then ty.value else was.typeId,
                      name := if name.Some? then name.value else was.name,
                      reference := if reference.Some? then reference else was.reference,
                      card := if card.Some? then card else was.card);
      LibOutcome(Ok(p), a.(patrons := a.patrons[p := row]))
  }

  function SetPatronStatus(a: Library, p: Id, status: PatronStatus): LibOutcome {
    if p !in a.patrons then LibOutcome(Err(NotFound), a)
    else LibOutcome(Ok(p), a.(patrons := a.patrons[p := a.patrons[p].(status := status)]))
  }

  function SetBlock(a: Library, p: Id, newBlock: Id, startAt: Time, endAt: Option<Time>): LibOutcome {
    if p !in a.patrons then LibOutcome(Err(NotFound), a)
    else if newBlock in a.blocks then LibOutcome(Err(Integrity), a)
    else LibOutcome(Ok(newBlock),
                    a.(blocks := a.blocks[newBlock := Block(p, true, startAt, endAt)],
                       patrons := a.patrons[p := a.patrons[p].(blocked := true)]))
  }

  function ClearBlock(a: Library, p: Id, b: Id): LibOutcome {
    if b !in a.blocks || a.blocks[b].patronId != p then LibOutcome(Err(NotFound), a)
    else
      var blocks := a.blocks[b := a.blocks[b].(active := false)];
      if ActiveBlocks(a, p) - {b} != {} then LibOutcome(Ok(b), a.(blocks := blocks))
      else if p !in a.patrons then LibOutcome(Err(NotFound), a)
      else LibOutcome(Ok(b), a.(blocks := blocks, patrons := a.patrons[p := a.patrons[p].(blocked := false)]))
  }

  // ---- commands and serial runs ----

  datatype Command =
    | DoCheckout(patron: Id, holding: Id, key: Key, newLoan: Id, now: Time, today: Day)
    | DoReturn(holdingOpt: Option<Id>, loanOpt: Option<Id>, key: Key, now: Time)
    | DoCommitIssue(patron: Id, holding: Id, mode: Mode, notes: Option<string>, key: Key, newLoan: Id,
                    newFulfillment: Id, now: Time, today: Day, crash: bool)
    | DoCancelIssue(loan: Id, key: Key, now: Time)
    | DoInitiatePickup(loan: Id, notes: Option<string>, key: Key, newFulfillment: Id)
    | DoConfirmPickup(fulfillment: Id, key: Key, now: Time)
    | DoTransition(fulfillment: Id, target: FulfillmentStatus, key: Key)
    | DoAddHolding(newHolding: Id, catalog: Id, barcode: string, accession: string, circulating: bool)
    | DoWithdraw(holding: Id)
    | Administer(admin: AdminCommand)

  /** Commands that touch neither holdings, loans, fulfillments nor idempotency records. */
  datatype AdminCommand =
    | DoCreateCatalog(newCatalog: Id, title: string)
    | DoRetitleCatalog(catalog: Id, title: string)
    | DoPublish(catalog: Id)
    | DoSuppress(catalog: Id)
    | DoConfigureRuleSet(newRuleSet: Id, maxActiveLoans: nat, loanPeriodDays: int)
    | DoUpdateRuleSet(ruleSet: Id, maxOpt: Option<nat>, daysOpt: Option<int>)
    | DoCreatePatronType(newType: Id, ruleSetOpt: Option<Id>)
    | DoUpdatePatronType(patronType: Id, ruleSetOpt: Option<Id>)
    | DoRegisterPatron(newPatron: Id, name: string, patronType: Id, card: Option<string>, reference: Option<string>)
    | DoUpdatePatron(patron: Id, typeOpt: Option<Id>, nameOpt: Option<string>, reference: Option<string>,
                     card: Option<string>)
    | DoSetPatronStatus(patron: Id, status: PatronStatus)
    | DoSetBlock(patron: Id, newBlock: Id, startAt: Time, endAt: Option<Time>)
    | DoClearBlock(patron: Id, block: Id)

  function Admin(a: Library, c: AdminCommand): (o: LibOutcome)
    ensures c.DoSetBlock? || c.DoClearBlock? || SameBlocks(a, o.lib)
  {
    match c
    case DoCreateCatalog(n, title) => CreateCatalog(a, n, title)
    case DoRetitleCatalog(cat, title) => RetitleCatalog(a, cat, title)
    case DoPublish(cat) => Publish(a, cat)
    case DoSuppress(cat) => Suppress(a, cat)
    case DoConfigureRuleSet(n, max, days) => ConfigureRuleSet(a, n, max, days)
    case DoUpdateRuleSet(r, max, days) => UpdateRuleSet(a, r, max, days)
    case DoCreatePatronType(n, r) => CreatePatronType(a, n, r)
    case DoUpdatePatronType(ty, r) => UpdatePatronType(a, ty, r)
    case DoRegisterPatron(n, name, ty, card, reference) => RegisterPatron(a, n, name, ty, card, reference)
    case DoUpdatePatron(p, ty, name, reference, card) => UpdatePatron(a, p, ty, name, reference, card)
    case DoSetPatronStatus(p, s) => SetPatronStatus(a, p, s)
    case DoSetBlock(p, n, from, until) => SetBlock(a, p, n, from, until)
    case DoClearBlock(p, b) => ClearBlock(a, p, b)
  }

  ghost function Step(t: Tables, c: Command): (o: Outcome)
    ensures c.Administer? || o.tables.lib == t.lib
  {
    match c
    case DoCheckout(p, h, key, n, now, today) => Checkout(t, p, h, key, n, now, today)
    case DoReturn(ho, lo, key, now) => ReturnHolding(t, ho, lo, key, now)
    case DoCommitIssue(p, h, mode, notes, key, n, nf, now, today, crash) =>
      CommitIssue(t, p, h, mode, notes, key, n, nf, now, today, crash)
    case DoCancelIssue(l, key, now) => CancelIssue(t, l, key, now)
    case DoInitiatePickup(l, notes, key, nf) => InitiatePickup(t, l, notes, key, nf)
    case DoConfirmPickup(f, key, now) => ConfirmPickup(t, f, key, now)
    case DoTransition(f, target, key) => Transition(t, f, target, key)
    case DoAddHolding(n, c, barcode, accession, circulating) => AddHolding(t, n, c, barcode, accession, circulating)
    case DoWithdraw(h) => Withdraw(t, h)
    case Administer(a) => var o := Admin(t.lib, a); Outcome(o.result, t.(lib := o.lib))
  }

  /** The tables after running the commands one at a time. */
  ghost function Run(t: Tables, cs: seq<Command>): Tables
    decreases |cs|
  {
    if cs == [] then t else Run(Step(t, cs[0]).tables, cs[1..])
  }
}
