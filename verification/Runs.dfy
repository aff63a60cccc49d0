/** Laws of whole serial runs, from any state that satisfies the invariant. */
module Runs {
  import opened Domain
  import opened Circulation
  import opened Invariants
  import opened History

  // ---- safety ----

  lemma {:induction false} RunKeepsInv(t: Tables, cs: seq<Command>)
    requires Inv(t)
    ensures Inv(Run(t, cs))
    decreases |cs|
  {
    if cs != [] {
      StepKeepsInv(t, cs[0]);
      RunKeepsInv(Step(t, cs[0]).tables, cs[1..]);
    }
  }

  /** Every serial run from the empty database keeps the whole invariant. */
  lemma ReachableInv(cs: seq<Command>)
    ensures Inv(Run(EMPTY, cs))
  {
    EmptyInv();
    RunKeepsInv(EMPTY, cs);
  }

  lemma {:induction false} RunAppend(t: Tables, cs: seq<Command>, ds: seq<Command>)
    ensures Run(t, cs + ds) == Run(Run(t, cs), ds)
    decreases |cs|
  {
    if cs == [] {
      assert cs + ds == ds;
    } else {
      assert (cs + ds)[0] == cs[0] && (cs + ds)[1..] == cs[1..] + ds;
      RunAppend(Step(t, cs[0]).tables, cs[1..], ds);
    }
  }

  lemma RunNext(t: Tables, cs: seq<Command>, i: nat)
    requires i < |cs|
    ensures Run(t, cs[..i + 1]) == Step(Run(t, cs[..i]), cs[i]).tables
  {
    assert cs[..i + 1] == cs[..i] + [cs[i]];
    RunAppend(t, cs[..i], [cs[i]]);
    assert Run(Run(t, cs[..i]), [cs[i]]) == Run(Step(Run(t, cs[..i]), cs[i]).tables, []);
  }

  /** What is never lost: loans and their terms, closed loans as they are, deliveries, stored answers. */
  ghost predicate Grows(t: Tables, u: Tables) {
    && LoansGrow(t, u)
    && (forall f | f in t.fulfillments :: f in u.fulfillments && SameDelivery(t.fulfillments[f], u.fulfillments[f]))
    && (forall s, k | (s, k) in t.records :: (s, k) in u.records && u.records[(s, k)] == t.records[(s, k)])
  }

  /** Over any run nothing of that is lost. */
  lemma {:induction false} RunGrows(t: Tables, cs: seq<Command>)
    requires Inv(t)
    ensures Grows(t, Run(t, cs))
    decreases |cs|
  {
    if cs != [] {
      StepKeepsInv(t, cs[0]);
      RunGrows(Step(t, cs[0]).tables, cs[1..]);
    }
  }

  ghost predicate StatusMove(a: Holding, b: Holding) {
    && b.(status := Available) == a.(status := Available)
    && (b.status == a.status
        || (a.status == Available && b.status == OnLoan)
        || (a.status == OnLoan && b.status == Available)
        || (a.status != OnLoan && b.status == Withdrawn))
  }

  lemma EffectStatusMoves(t: Tables, u: Tables, e: Effect, h: Id)
    requires LoanInv(t) && HasEffect(t, u, e) && h in t.holdings
    ensures h in u.holdings && StatusMove(t.holdings[h], u.holdings[h])
  {
  }

  /**
   One command changes a copy's status only by lending it, taking it back from loan, or pulling it off loan-free
   shelves.
   */
  lemma StatusMoves(t: Tables, c: Command, h: Id)
    requires Inv(t) && h in t.holdings
    ensures var u := Step(t, c).tables;
            h in u.holdings && StatusMove(t.holdings[h], u.holdings[h])
  {
    var e := StepEffect(t, c);
    EffectStatusMoves(t, Step(t, c).tables, e, h);
  }

  /** A withdrawn, damaged or lost copy is never lent or shelved again, whatever is returned. */
  lemma {:induction false} PulledStaysPulled(t: Tables, cs: seq<Command>, h: Id)
    requires Inv(t) && h in t.holdings && t.holdings[h].status in {Withdrawn, Damaged, Lost}
    ensures h in Run(t, cs).holdings && Run(t, cs).holdings[h].status in {Withdrawn, t.holdings[h].status}
    decreases |cs|
  {
    if cs != [] {
      StatusMoves(t, cs[0], h);
      StepKeepsInv(t, cs[0]);
      PulledStaysPulled(Step(t, cs[0]).tables, cs[1..], h);
    }
  }

  /** No barcode is on two copies. */
  ghost predicate UniqueBarcodes(t: Tables) {
    forall h, g | h in t.holdings && g in t.holdings && t.holdings[h].barcode == t.holdings[g].barcode :: h == g
  }

  lemma EffectKeepsBarcodes(t: Tables, u: Tables, e: Effect)
    requires UniqueBarcodes(t) && HasEffect(t, u, e)
    requires e.Added? ==> !BarcodeTaken(t, u.holdings[e.holding].barcode)
    ensures UniqueBarcodes(u)
  {
    if e.Added? {
      assert forall h | h in t.holdings :: t.holdings[h].barcode != u.holdings[e.holding].barcode;
    }
  }

  lemma AddedIsNew(t: Tables, c: Command, u: Tables)
    requires c.DoAddHolding? && u ==
             AddHolding(t, c.newHolding, c.catalog, c.barcode, c.accession, c.circulating).tables
    ensures u == t || (c.newHolding in u.holdings && u.holdings == t.holdings[c.newHolding := u.holdings[c.newHolding]]
                       && !BarcodeTaken(t, u.holdings[c.newHolding].barcode))
  {
  }

  lemma StepKeepsBarcodes(t: Tables, c: Command)
    requires UniqueBarcodes(t)
    ensures UniqueBarcodes(Step(t, c).tables)
  {
    var u := Step(t, c).tables;
    var e := StepEffect(t, c);
    if e.Added? {
      AddedIsNew(t, c, u);
    }
    EffectKeepsBarcodes(t, u, e);
  }

  /** Over any serial run a barcode goes on naming one copy. */
  lemma {:induction false} BarcodesStayUnique(t: Tables, cs: seq<Command>)
    requires UniqueBarcodes(t)
    ensures UniqueBarcodes(Run(t, cs))
    decreases |cs|
  {
    if cs != [] {
      StepKeepsBarcodes(t, cs[0]);
      BarcodesStayUnique(Step(t, cs[0]).tables, cs[1..]);
    }
  }

  /** The unique index on open loans never fires: only a colliding loan id can break a checkout's insert. */
  lemma UniqueIndexNeverFires(cs: seq<Command>, p: Id, h: Id, newLoan: Id)
    ensures CheckoutRefusal(Run(EMPTY, cs), p, h, newLoan) == Some(Integrity) ==> newLoan in Run(EMPTY, cs).loans
  {
    ReachableInv(cs);
    var t := Run(EMPTY, cs);
    assert forall l :: l in OpenLoansOf(t, h) ==> h in t.holdings && t.holdings[h].status == OnLoan;
  }

  // ---- idempotency ----

  /** A refused checkout or return leaves the tables as they were, so it binds no key. */
  lemma FailuresBindNothing(t: Tables, c: Command)
    requires c.DoCheckout? || c.DoReturn? || c.DoCancelIssue? || c.DoConfirmPickup? || c.DoTransition?
             || c.DoInitiatePickup?
    requires Step(t, c).result.Err?
    ensures Step(t, c).tables == t
  {
  }

  /** A successful checkout leaves an answer under its key that names its loan. */
  lemma CheckoutBinds(t: Tables, p: Id, h: Id, key: Key, newLoan: Id, now: Time, today: Day)
    requires Inv(t)
    requires Checkout(t, p, h, key, newLoan, now, today).result.Ok?
    ensures var o := Checkout(t, p, h, key, newLoan, now, today);
            && (CheckoutOf(h), key) in o.tables.records
            && o.tables.records[(CheckoutOf(h), key)] == Record(CheckoutPayload(p, h), 201, o.result.value)
            && o.result.value in o.tables.loans
  {
    if (CheckoutOf(h), key) in t.records {
      assert RecordOk(t, CheckoutOf(h), t.records[(CheckoutOf(h), key)]);
    }
  }

  /**
   After a checkout succeeded, in every later state the same key and payload give the same loan and
   change nothing, and another payload under that key is refused and changes nothing.
   */
  lemma CheckoutReplays(t: Tables, p: Id, h: Id, key: Key, newLoan: Id, now: Time, today: Day,
                        cs: seq<Command>, p': Id, newLoan': Id, now': Time, today': Day)
    requires Inv(t)
    requires Checkout(t, p, h, key, newLoan, now, today).result.Ok?
    ensures var first := Checkout(t, p, h, key, newLoan, now, today);
            var later := Run(first.tables, cs);
            var again := Checkout(later, p', h, key, newLoan', now', today');
            && again.tables == later
            && again.result == (if p' == p then first.result else Err(Conflict))
  {
    var c := DoCheckout(p, h, key, newLoan, now, today);
    var first := Step(t, c);
    StepKeepsInv(t, c);
    CheckoutBinds(t, p, h, key, newLoan, now, today);
    RunGrows(first.tables, cs);
  }

  lemma ReturnBinds(t: Tables, ho: Option<Id>, lo: Option<Id>, key: Key, now: Time)
    requires Inv(t)
    requires ReturnHolding(t, ho, lo, key, now).result.Ok?
    ensures var o := ReturnHolding(t, ho, lo, key, now);
            && (ho.Some? || lo.Some?)
            && (ReturnScope(ho, lo), key) in o.tables.records
            && o.tables.records[(ReturnScope(ho, lo), key)] == Record(ReturnPayload(ho, lo), 200, o.result.value)
            && o.result.value in o.tables.loans
  {
    if (ReturnScope(ho, lo), key) in t.records {
      assert RecordOk(t, ReturnScope(ho, lo), t.records[(ReturnScope(ho, lo), key)]);
    } else {
      FreshReturnRecord(t, ho, lo, key, now);
    }
  }

  /** The same for returns: at most one effect per key, over every later history. */
  lemma ReturnReplays(t: Tables, ho: Option<Id>, lo: Option<Id>, key: Key, now: Time,
                      cs: seq<Command>, ho': Option<Id>, lo': Option<Id>, now': Time)
    requires Inv(t)
    requires ReturnHolding(t, ho, lo, key, now).result.Ok?
    requires (ho'.Some? || lo'.Some?) && ReturnScope(ho', lo') == ReturnScope(ho, lo)
    ensures var first := ReturnHolding(t, ho, lo, key, now);
            var later := Run(first.tables, cs);
            var again := ReturnHolding(later, ho', lo', key, now');
            && again.tables == later
            && again.result == (if (ho', lo') == (ho, lo) then first.result else Err(Conflict))
  {
    var c := DoReturn(ho, lo, key, now);
    var first := Step(t, c);
    StepKeepsInv(t, c);
    ReturnBinds(t, ho, lo, key, now);
    RunGrows(first.tables, cs);
  }

  /** The branches of checkout and return that report a lost cached loan or a foreign status are never taken. */
  lemma CachedAnswerIsUsable(t: Tables, s: Scope, key: Key)
    requires Inv(t) && (s, key) in t.records && (s.CheckoutOf? || s.ReturnOf?)
    ensures Replay(t, t.records[(s, key)], if s.CheckoutOf? then 201 else 200) == Ok(t.records[(s, key)].body)
  {
    assert RecordOk(t, s, t.records[(s, key)]);
  }
}
