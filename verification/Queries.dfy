/**
 The reading services behind the search screens and the agent desk.
 Text matching, row order and row limits are the database's: a text query may answer any distinct rows that its
 other conditions admit. A query may also fail, which surfaces as Unhandled.
 */
module Queries {
  import opened Domain
  import opened Circulation
  import opened Services

  predicate Distinct(rows: seq<Id>) {
    forall i, j | 0 <= i < j < |rows| :: rows[i] != rows[j]
  }

  /** Errors that the services raise themselves, as opposed to a failing database. */
  predicate IsAppError(e: Error) {
    e != Unhandled && e != Integrity
  }

  // ---- the catalogue ----

  datatype LendableCatalogHit = LendableCatalogHit(catalog: Id, holdings: seq<Id>)

  /** The copies of a title that can be lent, each once. */
  ghost predicate ListsLendable(t: Tables, c: Id, holdings: seq<Id>) {
    Distinct(holdings) && forall h :: h in holdings <==> Lendable(t, h) && t.holdings[h].catalogId == c
  }

  /** Every hit is a different published title with all its lendable copies, at least one. */
  ghost predicate HitsExact(t: Tables, hits: seq<LendableCatalogHit>) {
    && (forall i, j | 0 <= i < j < |hits| :: hits[i].catalog != hits[j].catalog)
    && (forall i | 0 <= i < |hits| :: HitExact(t, hits[i]))
  }

  ghost predicate HitExact(t: Tables, hit: LendableCatalogHit) {
    && hit.catalog in t.lib.catalogs && t.lib.catalogs[hit.catalog].status == Published
    && hit.holdings != [] && ListsLendable(t, hit.catalog, hit.holdings)
  }

  /** The list holds the copies of this title among the given rows, each once. */
  ghost predicate Grouped(t: Tables, c: Id, rows: set<Id>, list: seq<Id>)
    requires rows <= t.holdings.Keys
  {
    Distinct(list) && forall h :: h in list <==> h in rows && t.holdings[h].catalogId == c
  }

  lemma GroupGrows(t: Tables, c: Id, rows: set<Id>, list: seq<Id>, h: Id)
    requires rows <= t.holdings.Keys && h in t.holdings && h !in rows && Grouped(t, c, rows, list)
    ensures Grouped(t, c, rows + {h}, if t.holdings[h].catalogId == c then list + [h] else list)
  {
  }

  ghost predicate AllGrouped(t: Tables, catalogs: seq<Id>, rows: set<Id>, byCatalog: map<Id, seq<Id>>)
    requires rows <= t.holdings.Keys
  {
    && (forall c :: c in byCatalog <==> c in catalogs)
    && (forall c | c in byCatalog :: Grouped(t, c, rows, byCatalog[c]))
  }

  lemma GroupsGrow(t: Tables, catalogs: seq<Id>, rows: set<Id>, byCatalog: map<Id, seq<Id>>, h: Id)
    requires rows <= t.holdings.Keys && h in t.holdings && h !in rows && AllGrouped(t, catalogs, rows, byCatalog)
    requires t.holdings[h].catalogId in catalogs
    ensures var c := t.holdings[h].catalogId;
            AllGrouped(t, catalogs, rows + {h}, byCatalog[c := byCatalog[c] + [h]])
  {
    forall d | d in byCatalog
      ensures Grouped(t, d, rows + {h}, if t.holdings[h].catalogId == d then byCatalog[d] + [h] else byCatalog[d])
    {
      GroupGrows(t, d, rows, byCatalog[d], h);
    }
  }

  lemma GroupIsHit(t: Tables, c: Id, rows: set<Id>, list: seq<Id>)
    requires c in t.lib.catalogs && t.lib.catalogs[c].status == Published
    requires rows <= t.holdings.Keys && Grouped(t, c, rows, list) && list != []
    requires forall h | h in t.holdings && t.holdings[h].catalogId == c ::
               h in rows <==> t.holdings[h].status == Available && t.holdings[h].circulating
    ensures HitExact(t, LendableCatalogHit(c, list))
  {
  }

  class CatalogService {
    const session: Session

    constructor (s: Session)
      ensures session == s
    {
      session := s;
    }

    /** Published titles whose text matches, in title order, at most `limit`. */
    method MatchPublished(limit: nat) returns (r: Result<seq<Id>>)
      ensures r.Err? ==> r.error == Unhandled
      ensures r.Ok? ==> Distinct(r.value) && |r.value| <= limit
      ensures r.Ok? ==> forall c | c in r.value ::
                          c in session.work.lib.catalogs && session.work.lib.catalogs[c].status == Published
    {
      var rows: seq<Id> := *;
      var fails: bool := *;
      if fails {
        return Err(Unhandled);
      }
      if |rows| > limit || !Distinct(rows)
         || exists c | c in rows ::
              c !in session.work.lib.catalogs || session.work.lib.catalogs[c].status != Published {
        rows := [];
      }
      return Ok(rows);
    }

    /** Groups the available circulating copies of the matching titles by title. */
    method SearchLendable(limit: nat) returns (r: Result<seq<LendableCatalogHit>>)
      ensures r.Err? ==> r.error == Unhandled
      ensures r.Ok? ==> HitsExact(session.work, r.value) && |r.value| <= limit
    {
      var t := session.work;
      var catalogs :- MatchPublished(limit);
      var all := set h | h in t.holdings && t.holdings[h].catalogId in catalogs
                         && t.holdings[h].status == Available && t.holdings[h].circulating;
      var byCatalog := Group(catalogs, all);
      var hits: seq<LendableCatalogHit> := [];
      for i := 0 to |catalogs|
        invariant |hits| <= i
        invariant forall k | 0 <= k < |hits| :: hits[k].catalog in catalogs[..i] && HitExact(t, hits[k])
        invariant forall j, k | 0 <= j < k < |hits| :: hits[j].catalog != hits[k].catalog
      {
        var c := catalogs[i];
        if byCatalog[c] != [] {
          GroupIsHit(t, c, all, byCatalog[c]);
          hits := hits + [LendableCatalogHit(c, byCatalog[c])];
        }
        assert catalogs[..i + 1] == catalogs[..i] + [c];
      }
      return Ok(hits);
    }

    /** The grouping loop: each copy is appended to the list of its title. */
    method Group(catalogs: seq<Id>, all: set<Id>) returns (byCatalog: map<Id, seq<Id>>)
      requires forall h | h in all :: h in session.work.holdings && session.work.holdings[h].catalogId in catalogs
      ensures AllGrouped(session.work, catalogs, all, byCatalog)
    {
      byCatalog := map c | c in catalogs :: [];
      var rows := all;
      while rows != {}
        invariant rows <= all && AllGrouped(session.work, catalogs, all - rows, byCatalog)
        decreases rows
      {
        var h :| h in rows;
        var c := session.work.holdings[h].catalogId;
        GroupsGrow(session.work, catalogs, all - rows, byCatalog, h);
        byCatalog := byCatalog[c := byCatalog[c] + [h]];
        assert all - (rows - {h}) == all - rows + {h};
        rows := rows - {h};
      }
      assert all - rows == all;
    }

    method GetHoldingByBarcode(barcode: string) returns (r: Result<Id>)
      ensures r.Ok? ==> r.value in session.work.holdings && session.work.holdings[r.value].barcode == barcode
      ensures r.Err? ==> r.error == NotFound && !BarcodeTaken(session.work, barcode)
    {
      var rows := set h | h in session.work.holdings && session.work.holdings[h].barcode == barcode;
      if rows == {} {
        assert forall h | h in session.work.holdings && session.work.holdings[h].barcode == barcode :: h in rows;
        return Err(NotFound);
      }
      var h :| h in rows;
      return Ok(h);
    }
  }

  // ---- patrons ----

  predicate NoText(text: Option<string>) {
    text.None? || text.value == ""
  }

  datatype PatronLookup = Found(patron: Id) | Many(rows: seq<Id>) | Failed(error: Error)

  class ReferenceService {
    const session: Session

    constructor (s: Session)
      ensures session == s
    {
      session := s;
    }

    method SearchPatrons(limit: nat) returns (r: Result<seq<Id>>)
      ensures r.Err? ==> r.error == Unhandled
      ensures r.Ok? ==> Distinct(r.value) && |r.value| <= limit
                        && forall p | p in r.value :: p in session.work.lib.patrons
    {
      var rows: seq<Id> := *;
      var fails: bool := *;
      if fails {
        return Err(Unhandled);
      }
      if |rows| > limit || !Distinct(rows) || exists p | p in rows :: p !in session.work.lib.patrons {
        rows := [];
      }
      return Ok(rows);
    }

    method GetPatronByCard(card: string) returns (r: Result<Id>)
      ensures r.Ok? ==> r.value in session.work.lib.patrons && session.work.lib.patrons[r.value].card == Some(card)
      ensures r.Err? ==> r.error == NotFound && !CardTaken(session.work.lib, None, Some(card))
    {
      var rows := set p | p in session.work.lib.patrons && session.work.lib.patrons[p].card == Some(card);
      if rows == {} {
        assert forall p | p in session.work.lib.patrons && session.work.lib.patrons[p].card == Some(card) :: p in rows;
        return Err(NotFound);
      }
      var p :| p in rows;
      return Ok(p);
    }

    method GetPatronByExternalRef(reference: string) returns (r: Result<Id>)
      ensures r.Ok? ==>
                r.value in session.work.lib.patrons && session.work.lib.patrons[r.value].reference == Some(reference)
      ensures r.Err? ==> r.error == NotFound && !ReferenceTaken(session.work.lib, None, Some(reference))
    {
      var rows := set p | p in session.work.lib.patrons && session.work.lib.patrons[p].reference == Some(reference);
      if rows == {} {
        assert forall p | p in session.work.lib.patrons && session.work.lib.patrons[p].reference == Some(reference) ::
                 p in rows;
        return Err(NotFound);
      }
      var p :| p in rows;
      return Ok(p);
    }

    /** An id wins over a card, a card over a reference, a reference over a name; free text may parse as any of them. */
    method ResolvePatronLookup(patronId: Option<Id>, card: Option<string>, reference: Option<string>,
                               text: Option<string>)
      returns (r: PatronLookup)
      ensures r.Found? ==> r.patron in session.work.lib.patrons && (patronId.Some? ==> r.patron == patronId.value)
      ensures patronId.Some? ==>
                r == (if patronId.value in session.work.lib.patrons then Found(patronId.value) else Failed(NotFound))
      ensures r.Many? ==> Distinct(r.rows) && forall p | p in r.rows :: p in session.work.lib.patrons
      ensures patronId.None? && card.Some? && NoText(text) ==>
                if CardTaken(session.work.lib, None, card)
                then r.Found? && session.work.lib.patrons[r.patron].card == card else r == Failed(NotFound)
      ensures patronId.None? && card.None? && reference.Some? && NoText(text) ==>
                if ReferenceTaken(session.work.lib, None, reference)
                then r.Found? && session.work.lib.patrons[r.patron].reference == reference else r == Failed(NotFound)
      ensures patronId.None? && card.None? && reference.None? && NoText(text) ==> r == Failed(Validation)
    {
      var byId, byCard, byReference := patronId, card, reference;
      var byName := false;
      if text.Some? && text.value != "" {
        var parsedId: Option<Id> := *;
        var parsedCard: Option<string> := *;
        var parsedReference: Option<string> := *;
        byName := *;
        byId := if byId.Some? then byId else parsedId;
        byCard := if byCard.Some? then byCard else parsedCard;
        byReference := if byReference.Some? then byReference else parsedReference;
      }
      if byId.Some? {
        return if byId.value in session.work.lib.patrons then Found(byId.value) else Failed(NotFound);
      }
      if byCard.Some? {
        var found := GetPatronByCard(byCard.value);
        return if found.Ok? then Found(found.value) else Failed(found.error);
      }
      if byReference.Some? {
        var found := GetPatronByExternalRef(byReference.value);
        return if found.Ok? then Found(found.value) else Failed(found.error);
      }
      if !byName {
        return Failed(Validation);
      }
      var matches := SearchPatrons(2);
      if matches.Err? {
        return Failed(matches.error);
      }
      if matches.value == [] {
        return Failed(NotFound);
      }
      if |matches.value| == 1 {
        return Found(matches.value[0]);
      }
      var candidates := SearchPatrons(20);
      return if candidates.Ok? then Many(candidates.value) else Failed(candidates.error);
    }
  }

  // ---- open loans ----

  predicate InJoin(t: Tables, l: Id) {
    && l in t.loans && Open(t.loans[l]) && t.loans[l].patronId in t.lib.patrons
    && t.loans[l].holdingId in t.holdings && t.holdings[t.loans[l].holdingId].catalogId in t.lib.catalogs
  }

  /** The open loans that a search is over. */
  function OpenDetails(t: Tables, patrons: Option<seq<Id>>): set<Id> {
    set l | l in t.loans && InJoin(t, l)
            && (patrons.Some? && patrons.value != [] ==> t.loans[l].patronId in patrons.value)
  }

  predicate HasPattern(title: Option<string>) {
    title.Some? && !IsBlank(title.value)
  }

  class LoanService {
    const session: Session

    constructor (s: Session)
      ensures session == s
    {
      session := s;
    }

    /**
     Open loans joined with patron, copy and title, in any order and at most `limit` of them; an empty list of patrons
     does not restrict them, and a title pattern keeps any of them. Without a pattern only the limit leaves a loan
     out.
     */
    method SearchOpenLoanDetails(patrons: Option<seq<Id>>, title: Option<string>, limit: nat)
      returns (r: Result<seq<Id>>)
      ensures r.Err? ==> r.error == Unhandled
      ensures r.Ok? ==> Distinct(r.value) && |r.value| <= limit && |r.value| <= 20
      ensures r.Ok? ==> forall l | l in r.value :: l in OpenDetails(session.work, patrons)
      ensures r.Ok? && !HasPattern(title) && |r.value| < limit && |r.value| < 20 ==>
                forall l | l in OpenDetails(session.work, patrons) :: l in r.value
    {
      var fails: bool := *;
      if fails {
        return Err(Unhandled);
      }
      var rest := OpenDetails(session.work, patrons);
      if HasPattern(title) {
        var matching: set<Id> := *;
        rest := rest * matching;
      }
      var cap := if limit < 20 then limit else 20;
      ghost var all := rest;
      var rows: seq<Id> := [];
      while rest != {} && |rows| < cap
        invariant |rows| <= cap && Distinct(rows)
        invariant rest <= all && forall l :: l in rows <==> l in all - rest
        decreases rest
      {
        var next :| next in rest;
        assert all - (rest - {next}) == all - rest + {next};
        rows, rest := rows + [next], rest - {next};
      }
      return Ok(rows);
    }

    method GetOpenLoanByHolding(h: Id) returns (r: Result<Id>)
      ensures r.Ok? ==> r.value in OpenLoansOf(session.work, h)
      ensures r.Err? ==> r.error == NotFound && OpenLoansOf(session.work, h) == {}
    {
      var rows := OpenLoansOf(session.work, h);
      if rows == {} {
        return Err(NotFound);
      }
      var l :| l in rows;
      return Ok(l);
    }
  }
}
