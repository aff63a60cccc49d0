/** The catalogue, rule-set and patron services, step by step, and what their changes mean for lending. */
module Administration {
  import opened Domain
  import opened Circulation
  import opened Invariants
  import opened History
  import opened LoanLimits
  import opened OperationLaws
  import opened Services

  // ---- what the changes mean ----

  /** The titles of the catalogue are as before; only their status may differ. */
  ghost predicate SameTitles(a: Library, b: Library) {
    a.catalogs.Keys == b.catalogs.Keys && forall c | c in a.catalogs :: b.catalogs[c].title == a.catalogs[c].title
  }

  /** The copy stands on the shelf under this title, whatever the title's status. */
  predicate OnShelfOf(t: Tables, c: Id, h: Id) {
    && h in t.holdings && t.holdings[h].catalogId == c
    && t.holdings[h].circulating && t.holdings[h].status == Available
  }

  /**
   Besides the copies that could be lent before, publishing makes exactly the shelved copies of the title lendable.
   */
  lemma PublishedShelf(t: Tables, c: Id)
    requires Publish(t.lib, c).result.Ok?
    ensures forall h :: Lendable(t.(lib := Publish(t.lib, c).lib), h) <==> Lendable(t, h) || OnShelfOf(t, c, h)
    ensures SameTitles(t.lib, Publish(t.lib, c).lib)
  {
    var u := t.(lib := Publish(t.lib, c).lib);
    forall h
      ensures Lendable(u, h) <==> Lendable(t, h) || OnShelfOf(t, c, h)
    {
      assert h in t.holdings ==> (IsPublished(u, h) <==> IsPublished(t, h) || t.holdings[h].catalogId == c);
    }
  }

  /** Suppressing takes exactly the copies of the title out of lending. */
  lemma SuppressedShelf(t: Tables, c: Id)
    requires Suppress(t.lib, c).result.Ok?
    ensures forall h :: Lendable(t.(lib := Suppress(t.lib, c).lib), h) <==>
              Lendable(t, h) && t.holdings[h].catalogId != c
    ensures SameTitles(t.lib, Suppress(t.lib, c).lib)
  {
    var u := t.(lib := Suppress(t.lib, c).lib);
    forall h
      ensures Lendable(u, h) <==> Lendable(t, h) && t.holdings[h].catalogId != c
    {
      assert h in t.holdings ==> (IsPublished(u, h) <==> IsPublished(t, h) && t.holdings[h].catalogId != c);
    }
  }

  predicate UnderRule(t: Tables, p: Id, rule: Id) {
    p in t.lib.patrons && Policy(t, t.lib.patrons[p].typeId) == Some(rule)
  }

  /** A new limit is in force at once for every patron under the rule set, and for nobody else; no mapping changes. */
  lemma UpdatedLimit(t: Tables, rule: Id, max: Option<nat>, days: Option<int>)
    requires rule in t.lib.ruleSets
    ensures var u := t.(lib := UpdateRuleSet(t.lib, rule, max, days).lib);
            && (forall ty :: Policy(u, ty) == Policy(t, ty))
            && (forall p :: LimitInForce(u, p) ==
                  if UnderRule(t, p, rule) && max.Some? then max.value else LimitInForce(t, p))
            && u.lib.ruleSets == t.lib.ruleSets[rule := u.lib.ruleSets[rule]]
            && u.lib.ruleSets[rule].loanPeriodDays ==
               (if days.Some? then days.value else t.lib.ruleSets[rule].loanPeriodDays)
  {
    var u := t.(lib := UpdateRuleSet(t.lib, rule, max, days).lib);
    assert forall ty :: Policy(u, ty) == Policy(t, ty);
  }

  /** A block that is set and cleared again leaves every patron as before. */
  lemma BlockRoundTrip(a: Library, p: Id, b: Id, startAt: Time, endAt: Option<Time>)
    requires BlockInv(a) && SetBlock(a, p, b, startAt, endAt).result.Ok?
    ensures var blocked := SetBlock(a, p, b, startAt, endAt).lib;
            var cleared := ClearBlock(blocked, p, b);
            && blocked.blocks == a.blocks[b := Block(p, true, startAt, endAt)]
            && blocked.patrons[p].blocked && ActiveBlocks(blocked, p) == ActiveBlocks(a, p) + {b}
            && cleared.result == Ok(b) && cleared.lib.patrons == a.patrons
            && ActiveBlocks(cleared.lib, p) == ActiveBlocks(a, p)
  {
    var blocked := SetBlock(a, p, b, startAt, endAt).lib;
    var cleared := ClearBlock(blocked, p, b).lib;
    assert ActiveBlocks(blocked, p) - {b} == ActiveBlocks(a, p);
    ActiveAfterClearing(blocked, cleared, b, p);
    assert a.patrons[p].blocked <==> ActiveBlocks(a, p) != {};
    assert a.patrons[p := a.patrons[p]] == a.patrons;
  }

  class CatalogAdministration {
    const session: Session

    constructor (s: Session)
      ensures session == s
    {
      session := s;
    }

    /**
     Goes through exactly for an existing title with a name; then exactly its shelved copies join the lendable ones.
     */
    method PublishCatalog(c: Id) returns (r: Result<Id>)
      requires session.Clean()
      modifies session
      ensures r.Ok? <==>
                c in old(session.committed).lib.catalogs && !IsBlank(old(session.committed).lib.catalogs[c].title)
      ensures r.Ok? ==> forall h :: Lendable(session.committed, h) <==>
                          Lendable(old(session.committed), h) || OnShelfOf(old(session.committed), c, h)
      ensures var o := Publish(old(session.committed).lib, c);
              r == o.result && session.committed == old(session.committed).(lib := o.lib) && session.Clean()
    {
      if Publish(session.committed.lib, c).result.Ok? {
        PublishedShelf(session.committed, c);
      }
      if c !in session.work.lib.catalogs {
        return Err(NotFound);
      }
      var row := session.work.lib.catalogs[c];
      if IsBlank(row.title) {
        return Err(RuleViolation);
      }
      var catalogs := session.work.lib.catalogs[c := row.(status := Published)];
      session.work := session.work.(lib := session.work.lib.(catalogs := catalogs));
      session.Commit();
      return Ok(c);
    }

    /** Goes through for every existing title, whatever its status; then exactly its copies leave the lendable ones. */
    method SuppressCatalog(c: Id) returns (r: Result<Id>)
      requires session.Clean()
      modifies session
      ensures r.Ok? <==> c in old(session.committed).lib.catalogs
      ensures r.Ok? ==> forall h :: Lendable(session.committed, h) <==>
                          Lendable(old(session.committed), h) && old(session.committed).holdings[h].catalogId != c
      ensures var o := Suppress(old(session.committed).lib, c);
              r == o.result && session.committed == old(session.committed).(lib := o.lib) && session.Clean()
    {
      if c !in session.work.lib.catalogs {
        return Err(NotFound);
      }
      SuppressedShelf(session.committed, c);
      var row := session.work.lib.catalogs[c];
      var catalogs := session.work.lib.catalogs[c := row.(status := Suppressed)];
      session.work := session.work.(lib := session.work.lib.(catalogs := catalogs));
      session.Commit();
      return Ok(c);
    }

    method AddHolding(newHolding: Id, c: Id, barcode: string, accession: string, circulating: bool)
      returns (r: Result<Id>)
      requires session.Clean()
      modifies session
      ensures var o := Circulation.AddHolding(old(session.committed), newHolding, c, barcode, accession, circulating);
              r == o.result && session.committed == o.tables && session.Clean()
      ensures r.Ok? ==>
                session.committed == old(session.committed).(holdings :=
                  old(session.committed).holdings[newHolding := Holding(c, barcode, accession, circulating, Available)])
    {
      if c !in session.work.lib.catalogs {
        return Err(NotFound);
      }
      if BarcodeTaken(session.work, barcode) {
        return Err(Conflict);
      }
      if AccessionTaken(session.work, accession) {
        return Err(Conflict);
      }
      if newHolding in session.work.holdings {
        return Err(Integrity);
      }
      var row := Holding(c, barcode, accession, circulating, Available);
      session.work := session.work.(holdings := session.work.holdings[newHolding := row]);
      session.Commit();
      return Ok(newHolding);
    }

    /** Refused exactly for a copy on loan; reads the status without a lock, so it is one step. */
    method WithdrawHolding(h: Id) returns (r: Result<Id>)
      requires session.Clean()
      modifies session
      ensures r.Ok? <==> h in old(session.committed).holdings && old(session.committed).holdings[h].status != OnLoan
      ensures r.Ok? ==>
                h in session.committed.holdings && session.committed.holdings[h].status == Withdrawn
      ensures var o := Withdraw(old(session.committed), h);
              r == o.result && session.committed == o.tables && session.Clean()
    {
      if h !in session.work.holdings {
        return Err(NotFound);
      }
      var row := session.work.holdings[h];
      if row.status == OnLoan {
        return Err(RuleViolation);
      }
      session.work := session.work.(holdings := session.work.holdings[h := row.(status := Withdrawn)]);
      session.Commit();
      return Ok(h);
    }
  }

  class LoanAdministration {
    const session: Session

    constructor (s: Session)
      ensures session == s
    {
      session := s;
    }

    /**
     A given limit is in force at once for exactly the patrons under this rule set; a field that is not given stays.
     */
    method UpdateLoanRuleSet(rule: Id, maxActiveLoans: Option<nat>, loanPeriodDays: Option<int>) returns (r: Result<Id>)
      requires session.Clean()
      modifies session
      ensures r.Ok? <==> rule in old(session.committed).lib.ruleSets
      ensures r.Ok? ==> forall p :: LimitInForce(session.committed, p) ==
                          if UnderRule(old(session.committed), p, rule) && maxActiveLoans.Some?
                          then maxActiveLoans.value else LimitInForce(old(session.committed), p)
      ensures r.Ok? ==> rule in session.committed.lib.ruleSets
                        && session.committed.lib.ruleSets[rule].loanPeriodDays ==
                             if loanPeriodDays.Some? then loanPeriodDays.value
                             else old(session.committed).lib.ruleSets[rule].loanPeriodDays
      ensures var o := UpdateRuleSet(old(session.committed).lib, rule, maxActiveLoans, loanPeriodDays);
              r == o.result && session.committed == old(session.committed).(lib := o.lib) && session.Clean()
    {
      if rule !in session.work.lib.ruleSets {
        return Err(NotFound);
      }
      UpdatedLimit(session.committed, rule, maxActiveLoans, loanPeriodDays);
      var row := session.work.lib.ruleSets[rule];
      if maxActiveLoans.Some? {
        row := row.(maxActiveLoans := maxActiveLoans.value);
      }
      if loanPeriodDays.Some? {
        row := row.(loanPeriodDays := loanPeriodDays.value);
      }
      session.work := session.work.(lib := session.work.lib.(ruleSets := session.work.lib.ruleSets[rule := row]));
      session.Commit();
      return Ok(rule);
    }
  }

  class ReferenceAdministration {
    const session: Session

    constructor (s: Session)
      ensures session == s
    {
      session := s;
    }

    /** Adds an active block row and raises the patron's flag, so flags go on following the rows. */
    method SetPatronBlock(p: Id, newBlock: Id, startAt: Time, endAt: Option<Time>) returns (r: Result<Id>)
      requires session.Clean()
      modifies session
      ensures r.Ok? ==> p in session.committed.lib.patrons && session.committed.lib.patrons[p].blocked
                        && session.committed.lib.blocks ==
                             old(session.committed).lib.blocks[newBlock := Block(p, true, startAt, endAt)]
      ensures BlockInv(old(session.committed).lib) ==> BlockInv(session.committed.lib)
      ensures var o := SetBlock(old(session.committed).lib, p, newBlock, startAt, endAt);
              r == o.result && session.committed == old(session.committed).(lib := o.lib) && session.Clean()
    {
      ghost var before := session.committed.lib;
      if BlockInv(before) {
        SetBlockKeepsBlockInv(before, p, newBlock, startAt, endAt);
      }
      if p !in session.work.lib.patrons {
        return Err(NotFound);
      }
      if newBlock in session.work.lib.blocks {
        return Err(Integrity);
      }
      var lib := session.work.lib.(blocks := session.work.lib.blocks[newBlock := Block(p, true, startAt, endAt)]);
      lib := lib.(patrons := lib.patrons[p := lib.patrons[p].(blocked := true)]);
      session.work := session.work.(lib := lib);
      session.Commit();
      return Ok(newBlock);
    }

    /** Deactivates the row, and lowers the flag only when no other active row of the patron is left. */
    method ClearPatronBlock(p: Id, b: Id) returns (r: Result<Id>)
      requires session.Clean()
      modifies session
      ensures BlockInv(old(session.committed).lib) ==> BlockInv(session.committed.lib)
      ensures BlockInv(old(session.committed).lib) && r.Ok? ==>
                p in session.committed.lib.patrons
                && (session.committed.lib.patrons[p].blocked <==>
                    ActiveBlocks(old(session.committed).lib, p) - {b} != {})
      ensures var o := ClearBlock(old(session.committed).lib, p, b);
              r == o.result && session.committed == old(session.committed).(lib := o.lib) && session.Clean()
    {
      ghost var before := session.committed.lib;
      if BlockInv(before) {
        ClearBlockKeepsBlockInv(before, p, b);
      }
      if b !in session.work.lib.blocks || session.work.lib.blocks[b].patronId != p {
        return Err(NotFound);
      }
      var lib := session.work.lib;
      var others := set k | k in lib.blocks && lib.blocks[k].patronId == p && lib.blocks[k].active && k != b;
      assert others == ActiveBlocks(lib, p) - {b};
      lib := lib.(blocks := lib.blocks[b := lib.blocks[b].(active := false)]);
      if others == {} {
        if p !in lib.patrons {
          return Err(NotFound);
        }
        lib := lib.(patrons := lib.patrons[p := lib.patrons[p].(blocked := false)]);
      }
      session.work := session.work.(lib := lib);
      session.Commit();
      return Ok(b);
    }
  }
}
