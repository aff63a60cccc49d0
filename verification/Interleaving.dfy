/**
 Checkouts and returns as database transactions: reads, row locks, buffered writes, commit, abort, in any
 interleaving of any number of them. Locked reads return the committed row. The committed loans and copies are
 those of running the committed transactions one at a time in commit order.
 */
module Interleaving {
  import opened Domain
  import opened Circulation
  import opened Invariants
  import opened History

  // ---- the transactions run one at a time ----

  /**
   A transaction past its unlocked reads. For a checkout, `admitted` is the outcome of the reads that take no
   lock: patron, blocks, loan count, policy and catalogue.
   */
  datatype Tx =
    | Lend(patron: Id, holding: Id, newLoan: Loan, newId: Id, admitted: bool)
    | TakeBackCopy(holding: Id, now: Time)
    | TakeBackLoan(loan: Id, now: Time)

  /** The loan row a checkout inserts is for its own copy and open. */
  predicate WellFormed(tx: Tx) {
    tx.Lend? ==> tx.newLoan.holdingId == tx.holding && tx.newLoan.patronId == tx.patron && Open(tx.newLoan)
  }

  /** A copy that circulates and stands on the shelf; whether its record is published was read without a lock. */
  predicate OnShelf(t: Tables, h: Id) {
    h in t.holdings && t.holdings[h].circulating && t.holdings[h].status == Available
  }

  function Lent(t: Tables, tx: Tx): Tables
    requires tx.Lend? && tx.holding in t.holdings
  {
    t.(loans := t.loans[tx.newId := tx.newLoan],
       holdings := t.holdings[tx.holding := t.holdings[tx.holding].(status := OnLoan)])
  }

  /** The serial effect of one transaction on loans and copies. */
  ghost function Serial(t: Tables, tx: Tx): Tables {
    match tx
    case Lend(_, h, _, n, admitted) =>
      if admitted && OnShelf(t, h) && n !in t.loans && OpenLoansOf(t, h) == {} then Lent(t, tx) else t
    case TakeBackCopy(h, now) =>
      (match ScalarRow(OpenLoansOf(t, h))
       case Some(l) => if h in t.holdings then CloseLoan(t, l, h, now) else t
       case None => t)
    case TakeBackLoan(l, now) =>
      if l in t.loans && Open(t.loans[l]) && t.loans[l].holdingId in t.holdings
      then CloseLoan(t, l, t.loans[l].holdingId, now) else t
  }

  ghost function SerialRun(t: Tables, log: seq<Tx>): Tables {
    if log == [] then t else Serial(SerialRun(t, log[..|log| - 1]), log[|log| - 1])
  }

  /** On loans and copies the serial transaction is the checkout command with an unused key. */
  lemma SerialIsCheckout(t: Tables, p: Id, h: Id, key: Key, newId: Id, now: Time, today: Day)
    requires (CheckoutOf(h), key) !in t.records
    ensures var o := Checkout(t, p, h, key, newId, now, today);
            var row := if o.result.Ok? then o.tables.loans[newId] else Loan(p, h, 0, now, today, None);
            var admitted := PatronViolations(t, p) == [] && h in t.holdings && IsPublished(t, h);
            var s := Serial(t, Lend(p, h, row, newId, admitted));
            s.loans == o.tables.loans && s.holdings == o.tables.holdings
  {
  }

  /** And a serial return is the return command with an unused key. */
  lemma SerialIsReturn(t: Tables, ho: Option<Id>, lo: Option<Id>, key: Key, now: Time)
    requires LoanInv(t) && (ho.Some? || lo.Some?) && (ReturnScope(ho, lo), key) !in t.records
    ensures var o := ReturnHolding(t, ho, lo, key, now);
            var s := Serial(t, if ho.Some? then TakeBackCopy(ho.value, now) else TakeBackLoan(lo.value, now));
            s.loans == o.tables.loans && s.holdings == o.tables.holdings
  {
    if ho.Some? && ho.value !in t.holdings {
      assert OpenLoansOf(t, ho.value) == {};
    }
  }

  // ---- the interleaved system ----

  type TxId = nat

  datatype Row = HoldingRow(holding: Id) | LoanRow(loan: Id)

  /** Where a transaction stands. */
  datatype Pc =
    | Begun
    | CopyLocked(copy: Holding)      // a checkout has its copy's row, as committed
    | CopyHeld                       // a return by copy has the copy's row
    | LoanSeen(loan: Id)             // ... and has read the copy's open loan, without a lock
    | LoanHeld(row: Loan)            // a return by loan has the loan's row, as committed
    | BothHeld(row: Loan)            // ... and its copy's row
    | Written(write: Write)          // flushed: the rows are written but not committed
    | Finished

  datatype Write = Nothing | Opens | Closes(loan: Id, holding: Id)

  datatype TxState = TxState(tx: Tx, pc: Pc)

  datatype Sys = Sys(db: Tables, locks: map<Row, TxId>, txs: map<TxId, TxState>, log: seq<Tx>)

  /** The step was chosen by the scheduler. */
  datatype Step =
    | Begin(id: TxId, tx: Tx)
    | LockCopy(id: TxId)
    | LockLoan(id: TxId)
    | ReadLoan(id: TxId, loan: Id)
    | Flush(id: TxId)
    | CommitTx(id: TxId)
    | AbortTx(id: TxId)

  predicate Live(s: Sys, id: TxId) {
    id in s.txs && s.txs[id].pc != Finished
  }

  /** The copy whose row the transaction takes next or has taken. */
  function CopyOf(x: TxState): Option<Id> {
    match x.tx
    case Lend(_, h, _, _, _) => Some(h)
    case TakeBackCopy(h, _) => Some(h)
    case TakeBackLoan(_, _) =>
      if x.pc.LoanHeld? || x.pc.BothHeld? then Some(x.pc.row.holdingId) else None
  }

  function Moved(s: Sys, id: TxId, pc: Pc): map<TxId, TxState>
    requires id in s.txs
  {
    s.txs[id := s.txs[id].(pc := pc)]
  }

  /** Every row locked by the transaction is free again. */
  function Released(locks: map<Row, TxId>, id: TxId): map<Row, TxId> {
    map r | r in locks && locks[r] != id :: locks[r]
  }

  /** Another transaction has an uncommitted insert that the unique index or the primary key would wait for. */
  predicate PendingInsert(s: Sys, id: TxId, h: Id, newId: Id) {
    exists other | other in s.txs ::
      other != id && s.txs[other].pc == Written(Opens) && s.txs[other].tx.Lend?
      && (s.txs[other].tx.holding == h || s.txs[other].tx.newId == newId)
  }

  /** The insert of this checkout meets neither an open loan of its copy nor its own id, committed or pending. */
  predicate InsertIsClean(s: Sys, id: TxId)
    requires id in s.txs && s.txs[id].tx.Lend?
  {
    var tx := s.txs[id].tx;
    tx.newId !in s.db.loans && OpenLoansOf(s.db, tx.holding) == {} && !PendingInsert(s, id, tx.holding, tx.newId)
  }

  function Applied(t: Tables, tx: Tx, w: Write): Tables {
    match w
    case Nothing => t
    case Opens => if tx.Lend? && tx.holding in t.holdings then Lent(t, tx) else t
    case Closes(l, h) =>
      if !tx.Lend? && l in t.loans && h in t.holdings then CloseLoan(t, l, h, tx.now) else t
  }

  /** The transaction wants its copy's row next, the row exists, and nobody holds it. */
  predicate CanLockCopy(s: Sys, x: TxState) {
    && (if x.tx.TakeBackLoan? then x.pc.LoanHeld? else x.pc.Begun?)
    && (x.tx.Lend? ==> x.tx.admitted)
    && CopyOf(x).Some? && CopyOf(x).value in s.db.holdings && HoldingRow(CopyOf(x).value) !in s.locks
  }

  /** The next stand of a transaction that has just locked its copy's row. */
  function WithCopy(x: TxState, copy: Holding): Pc {
    match x.tx
    case Lend(_, _, _, _, _) => CopyLocked(copy)
    case TakeBackCopy(_, _) => CopyHeld
    case TakeBackLoan(_, _) => if x.pc.LoanHeld? then BothHeld(x.pc.row) else x.pc
  }

  predicate Next(s: Sys, u: Sys, step: Step) {
    match step
    case Begin(id, tx) =>
      id !in s.txs && WellFormed(tx)
      && u == s.(txs := s.txs[id := TxState(tx, Begun)])
    case LockCopy(id) =>
      id in s.txs
      && var x := s.txs[id];
      && CanLockCopy(s, x)
      && u == s.(txs := Moved(s, id, WithCopy(x, s.db.holdings[CopyOf(x).value])),
                 locks := s.locks[HoldingRow(CopyOf(x).value) := id])
    case LockLoan(id) =>
      id in s.txs
      && var x := s.txs[id];
      && (match x.tx
          case TakeBackLoan(l, _) =>
            x.pc.Begun? && l in s.db.loans && LoanRow(l) !in s.locks
            && u == s.(txs := Moved(s, id, LoanHeld(s.db.loans[l])), locks := s.locks[LoanRow(l) := id])
          case TakeBackCopy(h, _) =>
            // the update of the loan row at flush
            x.pc.LoanSeen? && LoanRow(x.pc.loan) !in s.locks
            && u == s.(txs := Moved(s, id, Written(Closes(x.pc.loan, h))), locks := s.locks[LoanRow(x.pc.loan) := id])
          case Lend(_, _, _, _, _) => false)
    case ReadLoan(id, l) =>
      id in s.txs && s.txs[id].tx.TakeBackCopy? && s.txs[id].pc.CopyHeld?
      && l in OpenLoansOf(s.db, s.txs[id].tx.holding)
      && u == s.(txs := Moved(s, id, LoanSeen(l)))
    case Flush(id) =>
      id in s.txs
      && var x := s.txs[id];
      && (match x.tx
          case Lend(_, _, _, _, _) =>
            x.pc.CopyLocked? && x.pc.copy.circulating && x.pc.copy.status == Available && InsertIsClean(s, id)
            && u == s.(txs := Moved(s, id, Written(Opens)))
          case TakeBackLoan(l, _) =>
            x.pc.BothHeld?
            && u == s.(txs := Moved(s, id, Written(if Open(x.pc.row) then Closes(l, x.pc.row.holdingId) else Nothing)))
          case TakeBackCopy(_, _) => false)
    case CommitTx(id) =>
      id in s.txs && s.txs[id].pc.Written?
      && u == Sys(Applied(s.db, s.txs[id].tx, s.txs[id].pc.write), Released(s.locks, id),
                  Moved(s, id, Finished), s.log + [s.txs[id].tx])
    case AbortTx(id) =>
      // a refusal, a failed insert, a clash on the idempotency record, or the victim of a deadlock
      Live(s, id)
      && u == s.(txs := Moved(s, id, Finished), locks := Released(s.locks, id))
  }

  // ---- the invariant of the interleaved system ----

  ghost predicate Holds(s: Sys, id: TxId, r: Row) {
    r in s.locks && s.locks[r] == id
  }

  /** What a transaction has read is still so in the committed tables, because it holds the rows that guard it. */
  ghost predicate TxOk(s: Sys, id: TxId, x: TxState) {
    && WellFormed(x.tx)
    && match x.pc
       case Begun => true
       case Finished => true
       case CopyLocked(copy) =>
         x.tx.Lend? && x.tx.admitted && Holds(s, id, HoldingRow(x.tx.holding))
         && x.tx.holding in s.db.holdings && s.db.holdings[x.tx.holding] == copy
       case CopyHeld =>
         x.tx.TakeBackCopy? && Holds(s, id, HoldingRow(x.tx.holding)) && x.tx.holding in s.db.holdings
       case LoanSeen(l) =>
         x.tx.TakeBackCopy? && Holds(s, id, HoldingRow(x.tx.holding)) && x.tx.holding in s.db.holdings
         && l in OpenLoansOf(s.db, x.tx.holding)
       case LoanHeld(row) =>
         x.tx.TakeBackLoan? && Holds(s, id, LoanRow(x.tx.loan))
         && x.tx.loan in s.db.loans && s.db.loans[x.tx.loan] == row
       case BothHeld(row) =>
         x.tx.TakeBackLoan? && Holds(s, id, LoanRow(x.tx.loan)) && Holds(s, id, HoldingRow(row.holdingId))
         && x.tx.loan in s.db.loans && s.db.loans[x.tx.loan] == row && row.holdingId in s.db.holdings
       case Written(w) =>
         WriteOk(s, id, x.tx, w)
  }

  ghost predicate WriteOk(s: Sys, id: TxId, tx: Tx, w: Write) {
    match w
    case Opens =>
      tx.Lend? && tx.admitted && Holds(s, id, HoldingRow(tx.holding)) && OnShelf(s.db, tx.holding)
      && tx.newId !in s.db.loans && !PendingInsert(s, id, tx.holding, tx.newId)
    case Closes(l, h) =>
      !tx.Lend? && Holds(s, id, HoldingRow(h)) && Holds(s, id, LoanRow(l))
      && h in s.db.holdings && l in OpenLoansOf(s.db, h)
      && (if tx.TakeBackCopy? then tx.holding == h else tx.loan == l)
    case Nothing =>
      tx.TakeBackLoan? && Holds(s, id, LoanRow(tx.loan)) && tx.loan in s.db.loans && !Open(s.db.loans[tx.loan])
  }

  /** From the given start: a good database, true reads, and a log that explains the database. */
  ghost predicate SysInv(start: Tables, s: Sys) {
    && LoanInv(s.db)
    && (forall id | id in s.txs :: TxOk(s, id, s.txs[id]))
    && s.db == SerialRun(start, s.log)
  }

  ghost predicate Start(start: Tables, s: Sys) {
    s == Sys(start, map[], map[], []) && LoanInv(start)
  }

  lemma StartInv(start: Tables, s: Sys)
    requires Start(start, s)
    ensures SysInv(start, s)
  {
  }

  // ---- steps that leave the database alone ----

  /** No new uncommitted insert that this transaction's own insert would wait for. */
  ghost predicate NoNewClash(s: Sys, u: Sys, id: TxId) {
    forall h, n :: PendingInsert(u, id, h, n) ==> PendingInsert(s, id, h, n)
  }

  ghost predicate KeepsLocks(s: Sys, u: Sys, id: TxId) {
    forall r :: Holds(s, id, r) ==> Holds(u, id, r)
  }

  lemma Undisturbed(s: Sys, u: Sys, id: TxId, x: TxState)
    requires TxOk(s, id, x) && u.db == s.db && KeepsLocks(s, u, id) && NoNewClash(s, u, id)
    ensures TxOk(u, id, x)
  {
  }

  /** Moving one transaction to a stand that is not a flushed insert gives no other transaction a clash. */
  lemma MovedGivesNoClash(s: Sys, u: Sys, id: TxId, pc: Pc, other: TxId)
    requires id in s.txs && u.txs == Moved(s, id, pc) && pc != Written(Opens)
    ensures NoNewClash(s, u, other)
  {
  }

  lemma BeginKeepsInv(start: Tables, s: Sys, u: Sys, id: TxId, tx: Tx)
    requires SysInv(start, s) && Next(s, u, Begin(id, tx))
    ensures SysInv(start, u)
  {
    forall other | other in s.txs
      ensures TxOk(u, other, s.txs[other])
    {
      assert NoNewClash(s, u, other);
      Undisturbed(s, u, other, s.txs[other]);
    }
  }

  lemma LockCopyKeepsInv(start: Tables, s: Sys, u: Sys, id: TxId)
    requires SysInv(start, s) && Next(s, u, LockCopy(id))
    ensures SysInv(start, u)
  {
    forall other | other in s.txs && other != id
      ensures TxOk(u, other, s.txs[other])
    {
      MovedGivesNoClash(s, u, id, u.txs[id].pc, other);
      Undisturbed(s, u, other, s.txs[other]);
    }
    assert TxOk(s, id, s.txs[id]);
  }

  /** The transaction that took the loan's row stands well afterwards. */
  lemma LockLoanStands(s: Sys, u: Sys, id: TxId)
    requires Next(s, u, LockLoan(id)) && TxOk(s, id, s.txs[id])
    ensures TxOk(u, id, u.txs[id])
  {
  }

  lemma LockLoanKeepsInv(start: Tables, s: Sys, u: Sys, id: TxId)
    requires SysInv(start, s) && Next(s, u, LockLoan(id))
    ensures SysInv(start, u)
  {
    forall other | other in s.txs && other != id
      ensures TxOk(u, other, s.txs[other])
    {
      MovedGivesNoClash(s, u, id, u.txs[id].pc, other);
      Undisturbed(s, u, other, s.txs[other]);
    }
    LockLoanStands(s, u, id);
  }

  lemma ReadLoanKeepsInv(start: Tables, s: Sys, u: Sys, id: TxId, l: Id)
    requires SysInv(start, s) && Next(s, u, ReadLoan(id, l))
    ensures SysInv(start, u)
  {
    forall other | other in s.txs && other != id
      ensures TxOk(u, other, s.txs[other])
    {
      MovedGivesNoClash(s, u, id, u.txs[id].pc, other);
      Undisturbed(s, u, other, s.txs[other]);
    }
    assert TxOk(s, id, s.txs[id]);
  }

  /** A flushed insert disturbs no other one: the check just passed is symmetric. */
  lemma FlushKeepsOther(s: Sys, u: Sys, id: TxId, other: TxId)
    requires Next(s, u, Flush(id)) && s.txs[id].tx.Lend?
    requires other in s.txs && other != id && TxOk(s, other, s.txs[other])
    ensures TxOk(u, other, s.txs[other])
  {
    var x := s.txs[other];
    if x.pc == Written(Opens) {
      assert !PendingInsert(s, id, s.txs[id].tx.holding, s.txs[id].tx.newId);
      assert x.tx.holding != s.txs[id].tx.holding && x.tx.newId != s.txs[id].tx.newId;
    }
  }

  lemma FlushKeepsInv(start: Tables, s: Sys, u: Sys, id: TxId)
    requires SysInv(start, s) && Next(s, u, Flush(id))
    ensures SysInv(start, u)
  {
    forall other | other in s.txs && other != id
      ensures TxOk(u, other, s.txs[other])
    {
      if s.txs[id].tx.Lend? {
        FlushKeepsOther(s, u, id, other);
      } else {
        MovedGivesNoClash(s, u, id, u.txs[id].pc, other);
        Undisturbed(s, u, other, s.txs[other]);
      }
    }
    assert TxOk(s, id, s.txs[id]);
  }

  lemma AbortKeepsInv(start: Tables, s: Sys, u: Sys, id: TxId)
    requires SysInv(start, s) && Next(s, u, AbortTx(id))
    ensures SysInv(start, u)
  {
    forall other | other in s.txs && other != id
      ensures TxOk(u, other, s.txs[other])
    {
      MovedGivesNoClash(s, u, id, Finished, other);
      Undisturbed(s, u, other, s.txs[other]);
    }
    assert TxOk(s, id, s.txs[id]);
  }

  // ---- commit ----

  /** A copy on the shelf has no open loan. */
  lemma ShelfIsFree(t: Tables, h: Id)
    requires LoanInv(t)
    ensures OnShelf(t, h) ==> OpenLoansOf(t, h) == {}
  {
    assert forall l :: l in OpenLoansOf(t, h) ==> h in t.holdings && t.holdings[h].status == OnLoan;
  }

  /** What a commit does to loans and copies, as one of the effects. */
  function WriteEffect(tx: Tx, w: Write): Effect {
    match w
    case Nothing => Quiet
    case Opens => if tx.Lend? then Opened(tx.newId) else Quiet
    case Closes(l, _) => Closed(l)
  }

  lemma CommitEffect(s: Sys, id: TxId)
    requires LoanInv(s.db) && id in s.txs && s.txs[id].pc.Written? && TxOk(s, id, s.txs[id])
    ensures var x := s.txs[id];
            HasEffect(s.db, Applied(s.db, x.tx, x.pc.write), WriteEffect(x.tx, x.pc.write))
  {
    var x := s.txs[id];
    assert WriteOk(s, id, x.tx, x.pc.write);
    if x.tx.Lend? {
      ShelfIsFree(s.db, x.tx.holding);
    }
  }

  /** The committed change is the serial effect of the transaction on the tables committed before it. */
  lemma CommitIsSerial(s: Sys, id: TxId)
    requires LoanInv(s.db) && id in s.txs && s.txs[id].pc.Written? && TxOk(s, id, s.txs[id])
    ensures Applied(s.db, s.txs[id].tx, s.txs[id].pc.write) == Serial(s.db, s.txs[id].tx)
  {
    var x := s.txs[id];
    assert WriteOk(s, id, x.tx, x.pc.write);
    if x.tx.Lend? {
      ShelfIsFree(s.db, x.tx.holding);
    } else if x.tx.TakeBackCopy? {
      var l := ScalarRow(OpenLoansOf(s.db, x.tx.holding)).value;
      assert l == x.pc.write.loan;
    }
  }

  /** The rows that a transaction holds, and the open loans of the copies it holds, are as they were. */
  ghost predicate GuardedRowsKept(s: Sys, u: Sys, id: TxId) {
    && (forall h | Holds(s, id, HoldingRow(h)) ::
          && (h in s.db.holdings ==> h in u.db.holdings && u.db.holdings[h] == s.db.holdings[h])
          && OpenLoansOf(u.db, h) == OpenLoansOf(s.db, h))
    && (forall l | Holds(s, id, LoanRow(l)) && l in s.db.loans :: l in u.db.loans && u.db.loans[l] == s.db.loans[l])
  }

  /** A commit writes rows that the committing transaction holds, so none that another one holds. */
  lemma CommitKeepsGuarded(s: Sys, u: Sys, id: TxId, other: TxId)
    requires LoanInv(s.db) && Next(s, u, CommitTx(id)) && TxOk(s, id, s.txs[id]) && other != id
    ensures GuardedRowsKept(s, u, other)
  {
    var x := s.txs[id];
    assert WriteOk(s, id, x.tx, x.pc.write);
    CommitEffect(s, id);
    var e := WriteEffect(x.tx, x.pc.write);
    if !e.Quiet? {
      var written := if e.Opened? then u.db.loans[e.loan].holdingId else s.db.loans[e.loan].holdingId;
      assert Holds(s, id, HoldingRow(written));
      forall h | h != written
        ensures OpenLoansOf(u.db, h) == OpenLoansOf(s.db, h)
      {
        LoansOfOtherCopies(s.db, u.db, e, h);
      }
    }
  }

  lemma LoansOfOtherCopies(t: Tables, u: Tables, e: Effect, h: Id)
    requires HasEffect(t, u, e) && (e.Opened? || e.Closed?)
    requires h != if e.Opened? then u.loans[e.loan].holdingId else t.loans[e.loan].holdingId
    ensures OpenLoansOf(u, h) == OpenLoansOf(t, h)
  {
  }

  lemma ReadsStillTrue(s: Sys, u: Sys, id: TxId, x: TxState)
    requires TxOk(s, id, x) && GuardedRowsKept(s, u, id) && KeepsLocks(s, u, id) && NoNewClash(s, u, id)
    requires x.pc == Written(Opens) && x.tx.Lend? ==> x.tx.newId !in u.db.loans
    ensures TxOk(u, id, x)
  {
  }

  /** Another transaction's reads survive a commit. */
  lemma CommitKeepsOther(s: Sys, u: Sys, id: TxId, other: TxId)
    requires LoanInv(s.db) && Next(s, u, CommitTx(id)) && TxOk(s, id, s.txs[id])
    requires other in s.txs && other != id && TxOk(s, other, s.txs[other])
    ensures TxOk(u, other, s.txs[other])
  {
    var x, y := s.txs[id], s.txs[other];
    MovedGivesNoClash(s, u, id, Finished, other);
    CommitKeepsGuarded(s, u, id, other);
    assert KeepsLocks(s, u, other);
    if y.pc == Written(Opens) {
      assert WriteOk(s, other, y.tx, Opens) && WriteOk(s, id, x.tx, x.pc.write);
      CommitEffect(s, id);
    }
    ReadsStillTrue(s, u, other, y);
  }

  lemma CommitKeepsInv(start: Tables, s: Sys, u: Sys, id: TxId)
    requires SysInv(start, s) && Next(s, u, CommitTx(id))
    ensures SysInv(start, u)
  {
    assert TxOk(s, id, s.txs[id]);
    CommitEffect(s, id);
    EffectKeepsLoanInv(s.db, u.db, WriteEffect(s.txs[id].tx, s.txs[id].pc.write));
    CommitIsSerial(s, id);
    assert u.log[..|u.log| - 1] == s.log;
    forall other | other in s.txs && other != id
      ensures TxOk(u, other, s.txs[other])
    {
      CommitKeepsOther(s, u, id, other);
    }
  }

  lemma NextKeepsInv(start: Tables, s: Sys, u: Sys, step: Step)
    requires SysInv(start, s) && Next(s, u, step)
    ensures SysInv(start, u)
  {
    match step {
      case Begin(id, tx) => BeginKeepsInv(start, s, u, id, tx);
      case LockCopy(id) => LockCopyKeepsInv(start, s, u, id);
      case LockLoan(id) => LockLoanKeepsInv(start, s, u, id);
      case ReadLoan(id, l) => ReadLoanKeepsInv(start, s, u, id, l);
      case Flush(id) => FlushKeepsInv(start, s, u, id);
      case CommitTx(id) => CommitKeepsInv(start, s, u, id);
      case AbortTx(id) => AbortKeepsInv(start, s, u, id);
    }
  }

  // ---- every interleaving ----

  /** States visited under a schedule. */
  ghost predicate IsBehavior(start: Tables, states: seq<Sys>, steps: seq<Step>) {
    && |states| == |steps| + 1
    && Start(start, states[0])
    && forall i | 0 <= i < |steps| :: Next(states[i], states[i + 1], steps[i])
  }

  lemma {:induction false} BehaviorInv(start: Tables, states: seq<Sys>, steps: seq<Step>, i: nat)
    requires IsBehavior(start, states, steps) && i < |states|
    ensures SysInv(start, states[i])
  {
    if i == 0 {
      StartInv(start, states[0]);
    } else {
      BehaviorInv(start, states, steps, i - 1);
      NextKeepsInv(start, states[i - 1], states[i], steps[i - 1]);
    }
  }

  /** In every interleaving each committed state lends each copy at most once, exactly when it is marked on loan. */
  lemma EveryInterleavingIsSafe(start: Tables, states: seq<Sys>, steps: seq<Step>, i: nat)
    requires IsBehavior(start, states, steps) && i < |states|
    ensures LoanInv(states[i].db)
  {
    BehaviorInv(start, states, steps, i);
  }

  /** And equals the committed transactions run one at a time in commit order. */
  lemma EveryInterleavingIsSerial(start: Tables, states: seq<Sys>, steps: seq<Step>, i: nat)
    requires IsBehavior(start, states, steps) && i < |states|
    ensures states[i].db == SerialRun(start, states[i].log)
  {
    BehaviorInv(start, states, steps, i);
  }

  /**
   A checkout that found its copy on the shelf never meets the unique index on open loans, committed or pending;
   only an id that is taken could break its insert.
   */
  lemma UniqueIndexStaysSilent(start: Tables, states: seq<Sys>, steps: seq<Step>, i: nat, id: TxId)
    requires IsBehavior(start, states, steps) && i < |states|
    requires var s := states[i];
             id in s.txs && s.txs[id].tx.Lend? && s.txs[id].pc.CopyLocked?
             && s.txs[id].pc.copy.circulating && s.txs[id].pc.copy.status == Available
    ensures var s := states[i];
            && OpenLoansOf(s.db, s.txs[id].tx.holding) == {}
            && forall other | other in s.txs && other != id && s.txs[other].pc == Written(Opens) ::
                 s.txs[other].tx.Lend? && s.txs[other].tx.holding != s.txs[id].tx.holding
  {
    BehaviorInv(start, states, steps, i);
    var s := states[i];
    assert TxOk(s, id, s.txs[id]);
    ShelfIsFree(s.db, s.txs[id].tx.holding);
    forall other | other in s.txs && other != id && s.txs[other].pc == Written(Opens)
      ensures s.txs[other].tx.Lend? && s.txs[other].tx.holding != s.txs[id].tx.holding
    {
      assert TxOk(s, other, s.txs[other]);
      assert Holds(s, other, HoldingRow(s.txs[other].tx.holding));
    }
  }

  // ---- waiting and deadlock ----

  /** A row that a transaction at this stand can have locked. */
  predicate MayHold(x: TxState, r: Row) {
    match x.pc
    case Begun => false
    case Finished => false
    case LoanHeld(_) => x.tx.TakeBackLoan? && r == LoanRow(x.tx.loan)
    case BothHeld(_) => x.tx.TakeBackLoan? && (r.HoldingRow? || r == LoanRow(x.tx.loan))
    case Written(w) =>
      (match x.tx
       case Lend(_, h, _, _, _) => r == HoldingRow(h)
       case TakeBackCopy(h, _) => r == HoldingRow(h) || (w.Closes? && r == LoanRow(w.loan))
       case TakeBackLoan(l, _) => r.HoldingRow? || r == LoanRow(l))
    case _ => !x.tx.TakeBackLoan? && r == HoldingRow(x.tx.holding)
  }

  ghost predicate LocksInv(s: Sys) {
    forall r | r in s.locks :: s.locks[r] in s.txs && MayHold(s.txs[s.locks[r]], r)
  }

  lemma NextKeepsLocksInv(start: Tables, s: Sys, u: Sys, step: Step)
    requires SysInv(start, s) && LocksInv(s) && Next(s, u, step)
    ensures LocksInv(u)
  {
    forall r | r in u.locks
      ensures u.locks[r] in u.txs && MayHold(u.txs[u.locks[r]], r)
    {
      var id := u.locks[r];
      if id in s.txs {
        assert TxOk(s, id, s.txs[id]);
      }
    }
  }

  lemma {:induction false} BehaviorLocksInv(start: Tables, states: seq<Sys>, steps: seq<Step>, i: nat)
    requires IsBehavior(start, states, steps) && i < |states|
    ensures LocksInv(states[i])
  {
    if i > 0 {
      BehaviorLocksInv(start, states, steps, i - 1);
      BehaviorInv(start, states, steps, i - 1);
      NextKeepsLocksInv(start, states[i - 1], states[i], steps[i - 1]);
    }
  }

  /** The row that a transaction must lock next, if its next step takes one. */
  function Wanted(x: TxState): Option<Row> {
    match x.pc
    case Begun =>
      (match x.tx
       case Lend(_, h, _, _, admitted) => if admitted then Some(HoldingRow(h)) else None
       case TakeBackCopy(h, _) => Some(HoldingRow(h))
       case TakeBackLoan(l, _) => Some(LoanRow(l)))
    case LoanSeen(l) => Some(LoanRow(l))
    case LoanHeld(row) => Some(HoldingRow(row.holdingId))
    case _ => None
  }

  ghost predicate WaitsForRow(s: Sys, a: TxId, b: TxId) {
    a in s.txs && a != b && Wanted(s.txs[a]).Some? && Holds(s, b, Wanted(s.txs[a]).value)
  }

  /**
   The checkout is about to insert, and another one has written, but not committed, a row that its own would clash
   with.
   */
  ghost predicate WaitsForInsert(s: Sys, a: TxId, b: TxId) {
    && a in s.txs && b in s.txs && a != b
    && s.txs[a].tx.Lend? && s.txs[a].pc.CopyLocked?
    && s.txs[a].pc.copy.circulating && s.txs[a].pc.copy.status == Available
    && s.txs[b].tx.Lend? && s.txs[b].pc == Written(Opens)
    && (s.txs[b].tx.holding == s.txs[a].tx.holding || s.txs[b].tx.newId == s.txs[a].tx.newId)
  }

  ghost predicate WaitsFor(s: Sys, a: TxId, b: TxId) {
    WaitsForRow(s, a, b) || WaitsForInsert(s, a, b)
  }

  ghost predicate Waits(s: Sys, a: TxId) {
    exists b :: WaitsFor(s, a, b)
  }

  // ---- who does not wait can move ----

  /** The rules refuse the transaction at this point: no such row, no open loan, a copy off the shelf, a taken id. */
  ghost predicate IsRefused(s: Sys, x: TxState) {
    match x.tx
    case Lend(_, h, _, n, admitted) =>
      || (x.pc.Begun? && (!admitted || h !in s.db.holdings))
      || (x.pc.CopyLocked? && (!x.pc.copy.circulating || x.pc.copy.status != Available || n in s.db.loans))
    case TakeBackCopy(h, _) =>
      (x.pc.Begun? && h !in s.db.holdings) || (x.pc.CopyHeld? && OpenLoansOf(s.db, h) == {})
    case TakeBackLoan(l, _) => x.pc.Begun? && l !in s.db.loans
  }

  /** A row that nobody else holds and that the transaction does not hold is free. */
  lemma WantedIsFree(s: Sys, id: TxId)
    requires LocksInv(s) && id in s.txs && !Waits(s, id) && Wanted(s.txs[id]).Some?
    ensures Wanted(s.txs[id]).value !in s.locks
  {
    var r := Wanted(s.txs[id]).value;
    if r in s.locks {
      assert MayHold(s.txs[s.locks[r]], r);
      assert WaitsFor(s, id, s.locks[r]);
    }
  }

  lemma InsertIsFree(start: Tables, s: Sys, id: TxId)
    requires SysInv(start, s) && id in s.txs && !Waits(s, id) && s.txs[id].tx.Lend? && s.txs[id].pc.CopyLocked?
    requires !IsRefused(s, s.txs[id])
    ensures InsertIsClean(s, id)
  {
    var tx := s.txs[id].tx;
    assert TxOk(s, id, s.txs[id]);
    ShelfIsFree(s.db, tx.holding);
    forall other | other in s.txs && other != id && s.txs[other].pc == Written(Opens) && s.txs[other].tx.Lend?
      ensures s.txs[other].tx.holding != tx.holding && s.txs[other].tx.newId != tx.newId
    {
      assert !WaitsFor(s, id, other);
    }
  }

  /** A checkout that waits for nobody takes its next step. */
  lemma FreeCheckoutMoves(start: Tables, s: Sys, id: TxId) returns (u: Sys, step: Step)
    requires SysInv(start, s) && LocksInv(s) && Live(s, id) && !Waits(s, id)
    requires s.txs[id].tx.Lend? && !IsRefused(s, s.txs[id])
    ensures Next(s, u, step) && step.id == id && !step.AbortTx?
  {
    var x := s.txs[id];
    assert TxOk(s, id, x);
    if x.pc.Begun? {
      WantedIsFree(s, id);
      step := LockCopy(id);
      u := s.(txs := Moved(s, id, WithCopy(x, s.db.holdings[x.tx.holding])),
              locks := s.locks[HoldingRow(x.tx.holding) := id]);
    } else if x.pc.CopyLocked? {
      InsertIsFree(start, s, id);
      step := Flush(id);
      u := s.(txs := Moved(s, id, Written(Opens)));
    } else {
      step := CommitTx(id);
      u := Sys(Applied(s.db, x.tx, x.pc.write), Released(s.locks, id), Moved(s, id, Finished), s.log + [x.tx]);
    }
  }

  lemma FreeReturnByCopyMoves(start: Tables, s: Sys, id: TxId) returns (u: Sys, step: Step)
    requires SysInv(start, s) && LocksInv(s) && Live(s, id) && !Waits(s, id)
    requires s.txs[id].tx.TakeBackCopy? && !IsRefused(s, s.txs[id])
    ensures Next(s, u, step) && step.id == id && !step.AbortTx?
  {
    var x := s.txs[id];
    var h := x.tx.holding;
    assert TxOk(s, id, x);
    if x.pc.Begun? {
      WantedIsFree(s, id);
      step := LockCopy(id);
      u := s.(txs := Moved(s, id, CopyHeld), locks := s.locks[HoldingRow(h) := id]);
    } else if x.pc.CopyHeld? {
      var l :| l in OpenLoansOf(s.db, h);
      step := ReadLoan(id, l);
      u := s.(txs := Moved(s, id, LoanSeen(l)));
    } else if x.pc.LoanSeen? {
      WantedIsFree(s, id);
      step := LockLoan(id);
      u := s.(txs := Moved(s, id, Written(Closes(x.pc.loan, h))), locks := s.locks[LoanRow(x.pc.loan) := id]);
    } else {
      step := CommitTx(id);
      u := Sys(Applied(s.db, x.tx, x.pc.write), Released(s.locks, id), Moved(s, id, Finished), s.log + [x.tx]);
    }
  }

  lemma FreeReturnByLoanMoves(start: Tables, s: Sys, id: TxId) returns (u: Sys, step: Step)
    requires SysInv(start, s) && LocksInv(s) && Live(s, id) && !Waits(s, id)
    requires s.txs[id].tx.TakeBackLoan? && !IsRefused(s, s.txs[id])
    ensures Next(s, u, step) && step.id == id && !step.AbortTx?
  {
    var x := s.txs[id];
    var l := x.tx.loan;
    assert TxOk(s, id, x);
    if x.pc.Begun? {
      WantedIsFree(s, id);
      step := LockLoan(id);
      u := s.(txs := Moved(s, id, LoanHeld(s.db.loans[l])), locks := s.locks[LoanRow(l) := id]);
    } else if x.pc.LoanHeld? {
      WantedIsFree(s, id);
      step := LockCopy(id);
      u := s.(txs := Moved(s, id, BothHeld(x.pc.row)), locks := s.locks[HoldingRow(x.pc.row.holdingId) := id]);
    } else if x.pc.BothHeld? {
      step := Flush(id);
      u := s.(txs := Moved(s, id, Written(if Open(x.pc.row) then Closes(l, x.pc.row.holdingId) else Nothing)));
    } else {
      step := CommitTx(id);
      u := Sys(Applied(s.db, x.tx, x.pc.write), Released(s.locks, id), Moved(s, id, Finished), s.log + [x.tx]);
    }
  }

  /** A transaction that waits for nobody takes its next step towards its commit, unless the rules refuse it. */
  lemma FreeMoves(start: Tables, s: Sys, id: TxId) returns (u: Sys, step: Step)
    requires SysInv(start, s) && LocksInv(s) && Live(s, id) && !Waits(s, id)
    ensures Next(s, u, step) && step.id == id && (step.AbortTx? ==> IsRefused(s, s.txs[id]))
  {
    if IsRefused(s, s.txs[id]) {
      step := AbortTx(id);
      u := s.(txs := Moved(s, id, Finished), locks := Released(s.locks, id));
    } else {
      match s.txs[id].tx {
        case Lend(_, _, _, _, _) => u, step := FreeCheckoutMoves(start, s, id);
        case TakeBackCopy(_, _) => u, step := FreeReturnByCopyMoves(start, s, id);
        case TakeBackLoan(_, _) => u, step := FreeReturnByLoanMoves(start, s, id);
      }
    }
  }

  // ---- deadlock ----

  /** A return by copy has the copy and wants the loan, a return by loan has that loan and wants the copy. */
  ghost predicate Opposed(s: Sys, byCopy: TxId, byLoan: TxId) {
    && byCopy in s.txs && byLoan in s.txs
    && s.txs[byCopy].tx.TakeBackCopy? && s.txs[byCopy].pc.LoanSeen?
    && s.txs[byLoan].tx.TakeBackLoan? && s.txs[byLoan].pc.LoanHeld?
    && s.txs[byLoan].tx.loan == s.txs[byCopy].pc.loan
  }

  /** Each waits for the next, and the last one for the first. */
  ghost predicate WaitCycle(s: Sys, ids: seq<TxId>) {
    |ids| > 0 && forall i | 0 <= i < |ids| :: WaitsFor(s, ids[i], ids[After(i, |ids|)])
  }

  function After(i: nat, n: nat): (j: nat)
    requires i < n
    ensures j < n
  {
    if i + 1 < n then i + 1 else 0
  }

  /** Opposed returns block each other, and neither of them waits for anybody else. */
  lemma OpposedDeadlock(start: Tables, s: Sys, byCopy: TxId, byLoan: TxId)
    requires SysInv(start, s) && Opposed(s, byCopy, byLoan)
    ensures forall b :: WaitsFor(s, byCopy, b) <==> b == byLoan
    ensures forall b :: WaitsFor(s, byLoan, b) <==> b == byCopy
    ensures WaitCycle(s, [byCopy, byLoan])
  {
    assert TxOk(s, byCopy, s.txs[byCopy]) && TxOk(s, byLoan, s.txs[byLoan]);
    assert WaitsForRow(s, byCopy, byLoan) && WaitsForRow(s, byLoan, byCopy);
  }

  /** A return by copy waits for the loan's row only when a return by loan opposes it. */
  lemma LoanWaitIsOpposed(start: Tables, s: Sys, a: TxId, b: TxId)
    requires SysInv(start, s) && LocksInv(s) && WaitsFor(s, a, b)
    requires s.txs[a].pc.LoanSeen?
    ensures Opposed(s, a, b)
  {
    var x, y := s.txs[a], s.txs[b];
    assert TxOk(s, a, x) && TxOk(s, b, y);
    assert MayHold(y, LoanRow(x.pc.loan));
    assert y.pc.Written? ==> WriteOk(s, b, y.tx, y.pc.write);
    assert Holds(s, a, HoldingRow(x.tx.holding));
  }

  /** Who holds up somebody and waits in turn, if it does not oppose, is a return by loan that waits for its copy. */
  lemma HolderAhead(start: Tables, s: Sys, a: TxId, b: TxId)
    requires SysInv(start, s) && LocksInv(s) && WaitsFor(s, a, b)
    ensures Live(s, b)
    ensures Waits(s, b) ==>
              || s.txs[b].pc.LoanSeen? || s.txs[b].pc.CopyLocked?
              || (s.txs[b].pc.LoanHeld? && s.txs[b].tx.TakeBackLoan? && Wanted(s.txs[a]).Some?
                  && Wanted(s.txs[a]).value.LoanRow?)
  {
    var y := s.txs[b];
    if WaitsForRow(s, a, b) {
      assert MayHold(y, Wanted(s.txs[a]).value);
    }
    assert TxOk(s, b, y);
  }

  /** Behind a waiting insert there is only a transaction that is about to commit. */
  lemma InsertWaitEnds(s: Sys, a: TxId, b: TxId)
    requires WaitsFor(s, a, b) && s.txs[a].pc.CopyLocked?
    ensures Live(s, b) && !Waits(s, b)
  {
  }

  /** Two waits in a row: the one in front moves, or it opposes the one before it or the one that it waits for. */
  lemma WaitsEndOrOppose(start: Tables, s: Sys, c: TxId, a: TxId, b: TxId)
    requires SysInv(start, s) && LocksInv(s) && WaitsFor(s, c, a) && WaitsFor(s, a, b) && Waits(s, b)
    ensures Opposed(s, a, b) || exists d :: WaitsFor(s, b, d) && (Opposed(s, b, d) || !Waits(s, d))
  {
    if s.txs[a].pc.LoanSeen? {
      LoanWaitIsOpposed(start, s, a, b);
    } else {
      HolderAhead(start, s, c, a);
      HolderAhead(start, s, a, b);
      var d :| WaitsFor(s, b, d);
      if s.txs[b].pc.LoanSeen? {
        LoanWaitIsOpposed(start, s, b, d);
      } else {
        InsertWaitEnds(s, b, d);
      }
    }
  }

  /**
   Following the waits from any live transaction leads in at most three hops to one that moves or into an opposed
   pair. No other transaction in the system matters.
   */
  lemma OnlyOpposedReturnsDeadlock(start: Tables, s: Sys, a: TxId) returns (ahead: seq<TxId>)
    requires SysInv(start, s) && LocksInv(s) && Live(s, a)
    ensures 1 <= |ahead| <= 4 && ahead[0] == a
    ensures forall i | 0 <= i < |ahead| - 1 :: WaitsFor(s, ahead[i], ahead[i + 1])
    ensures var last := |ahead| - 1;
            || (Live(s, ahead[last]) && !Waits(s, ahead[last]))
            || (last > 0 && Opposed(s, ahead[last - 1], ahead[last]))
  {
    ahead := [a];
    if Waits(s, a) {
      var b :| WaitsFor(s, a, b);
      HolderAhead(start, s, a, b);
      ahead := [a, b];
      if Waits(s, b) {
        var c :| WaitsFor(s, b, c);
        HolderAhead(start, s, b, c);
        ahead := [a, b, c];
        if Waits(s, c) {
          WaitsEndOrOppose(start, s, a, b, c);
          if Opposed(s, b, c) {
            return;
          }
          var d :| WaitsFor(s, c, d) && (Opposed(s, c, d) || !Waits(s, d));
          HolderAhead(start, s, c, d);
          ahead := [a, b, c, d];
        }
      }
    }
  }

  /** Round a cycle somebody opposes the next one. */
  lemma CycleHasOpposed(start: Tables, s: Sys, ids: seq<TxId>) returns (k: nat)
    requires SysInv(start, s) && LocksInv(s) && WaitCycle(s, ids)
    ensures k < |ids| && Opposed(s, ids[k], ids[After(k, |ids|)])
  {
    var n := |ids|;
    var i := After(0, n);
    var j := After(i, n);
    var m := After(j, n);
    assert WaitsFor(s, ids[0], ids[i]) && WaitsFor(s, ids[i], ids[j]) && WaitsFor(s, ids[j], ids[m]);
    assert WaitsFor(s, ids[m], ids[After(m, n)]);
    HolderAhead(start, s, ids[0], ids[i]);
    HolderAhead(start, s, ids[i], ids[j]);
    if s.txs[ids[i]].pc.LoanSeen? {
      LoanWaitIsOpposed(start, s, ids[i], ids[j]);
      return i;
    }
    if s.txs[ids[j]].pc.CopyLocked? {
      InsertWaitEnds(s, ids[j], ids[m]);
    }
    LoanWaitIsOpposed(start, s, ids[j], ids[m]);
    return j;
  }

  /** Who is in the opposed pair waits only inside it. */
  lemma {:induction false} CycleStaysOpposed(start: Tables, s: Sys, ids: seq<TxId>, a: TxId, b: TxId, i: nat, j: nat)
    requires SysInv(start, s) && WaitCycle(s, ids) && Opposed(s, a, b)
    requires i <= j < |ids| && ids[i] in {a, b}
    ensures ids[j] in {a, b}
    decreases j - i
  {
    if i < j {
      OpposedDeadlock(start, s, a, b);
      assert WaitsFor(s, ids[i], ids[After(i, |ids|)]);
      CycleStaysOpposed(start, s, ids, a, b, i + 1, j);
    }
  }

  /** Every deadlock, of any number of transactions, consists of one opposed pair. */
  lemma DeadlockIsOpposedPair(start: Tables, s: Sys, ids: seq<TxId>) returns (byCopy: TxId, byLoan: TxId)
    requires SysInv(start, s) && LocksInv(s) && WaitCycle(s, ids)
    ensures Opposed(s, byCopy, byLoan)
    ensures forall i | 0 <= i < |ids| :: ids[i] in {byCopy, byLoan}
  {
    var k := CycleHasOpposed(start, s, ids);
    var n := |ids|;
    byCopy, byLoan := ids[k], ids[After(k, n)];
    CycleStaysOpposed(start, s, ids, byCopy, byLoan, k, n - 1);
    OpposedDeadlock(start, s, byCopy, byLoan);
    assert WaitsFor(s, ids[n - 1], ids[After(n - 1, n)]);
    forall i | 0 <= i < n
      ensures ids[i] in {byCopy, byLoan}
    {
      CycleStaysOpposed(start, s, ids, byCopy, byLoan, 0, i);
    }
  }

  /** One copy, on loan. */
  const ONE_OUT: Tables :=
    EMPTY.(holdings := map[0 := Holding(0, "", "", true, OnLoan)], loans := map[0 := Loan(0, 0, 0, 0, 0, None)])

  lemma OneOutIsSane()
    ensures LoanInv(ONE_OUT) && 0 in OpenLoansOf(ONE_OUT, 0)
  {
    assert 0 in OpenLoansOf(ONE_OUT, 0);
  }

  /** The first moves of a return by copy. */
  lemma CopyIsTaken(s: Sys) returns (t: Sys, u: Sys)
    requires s.db == ONE_OUT && s.locks == map[] && 0 in s.txs && s.txs[0] == TxState(TakeBackCopy(0, 0), Begun)
    ensures Next(s, t, LockCopy(0)) && Next(t, u, ReadLoan(0, 0))
    ensures u == s.(txs := s.txs[0 := TxState(TakeBackCopy(0, 0), LoanSeen(0))], locks := map[HoldingRow(0) := 0])
  {
    OneOutIsSane();
    t := s.(txs := Moved(s, 0, CopyHeld), locks := s.locks[HoldingRow(0) := 0]);
    u := t.(txs := Moved(t, 0, LoanSeen(0)));
  }

  /** It happens: one copy on loan, a return by copy and a return by loan that each take their first row. */
  lemma OpposedIsReachable() returns (states: seq<Sys>, steps: seq<Step>)
    ensures IsBehavior(ONE_OUT, states, steps)
    ensures Opposed(states[|steps|], 0, 1)
  {
    OneOutIsSane();
    var byCopy, byLoan := TakeBackCopy(0, 0), TakeBackLoan(0, 0);
    var s0 := Sys(ONE_OUT, map[], map[], []);
    var s1 := s0.(txs := map[0 := TxState(byCopy, Begun)]);
    var s2 := s1.(txs := s1.txs[1 := TxState(byLoan, Begun)]);
    var s3, s4 := CopyIsTaken(s2);
    var s5 := s4.(txs := Moved(s4, 1, LoanHeld(s4.db.loans[0])), locks := s4.locks[LoanRow(0) := 1]);
    states := [s0, s1, s2, s3, s4, s5];
    steps := [Begin(0, byCopy), Begin(1, byLoan), LockCopy(0), ReadLoan(0, 0), LockLoan(1)];
    assert Next(s0, s1, steps[0]) && Next(s1, s2, steps[1]) && Next(s4, s5, steps[4]);
    forall i | 0 <= i < |steps|
      ensures Next(states[i], states[i + 1], steps[i])
    {
      assert i == 0 || i == 1 || i == 2 || i == 3 || i == 4;
    }
  }
}
