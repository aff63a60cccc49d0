/** Session pseudonyms: stable labels PREFIX_1 .. PREFIX_n, one for each id, resolved back without ambiguity. */
module Pseudonyms {
  import opened Domain

  // ---- decimal printing ----

  function Digit(d: nat): char
    requires d < 10
  {
    ('0' as int + d) as char
  }

  predicate IsDigit(c: char) {
    '0' <= c <= '9'
  }

  /** The decimal numeral of a number, as string formatting prints it. */
  function Decimal(n: nat): string {
    if n < 10 then [Digit(n)] else Decimal(n / 10) + [Digit(n % 10)]
  }

  /** Reading a numeral back. */
  function Parse(s: string): nat {
    if s == [] || !IsDigit(s[|s| - 1]) then 0
    else 10 * Parse(s[..|s| - 1]) + (s[|s| - 1] as int - '0' as int)
  }

  lemma {:induction false} ParseUndoesDecimal(n: nat)
    ensures Parse(Decimal(n)) == n && Decimal(n) != []
  {
    if n >= 10 {
      ParseUndoesDecimal(n / 10);
      assert Decimal(n)[..|Decimal(n)| - 1] == Decimal(n / 10);
    }
  }

  function Label(prefix: string, n: nat): string {
    prefix + Decimal(n)
  }

  // ---- the map of one kind of id ----

  /** The number that a label carries. */
  function NumberIn(tag: string, prefix: string): nat {
    if prefix <= tag then Parse(tag[|prefix|..]) else 0
  }

  lemma NumberOfLabel(prefix: string, n: nat)
    ensures NumberIn(Label(prefix, n), prefix) == n
  {
    ParseUndoesDecimal(n);
    assert Label(prefix, n)[|prefix|..] == Decimal(n);
  }

  ghost predicate Carried(labels: map<Id, string>, prefix: string, n: nat) {
    exists x :: x in labels && labels[x] == Label(prefix, n)
  }

  /** The labels are a bijection from the ids onto PREFIX_1 .. PREFIX_n. */
  ghost predicate Numbered(labels: map<Id, string>, prefix: string) {
    forall m {:trigger Unfold(m)} :: Unfold(m) && m == labels ==> Bijective(m, prefix)
  }

  /** Proofs mention this to look inside Numbered; all others treat it as one fact. */
  ghost predicate Unfold(labels: map<Id, string>) {
    true
  }

  ghost predicate Bijective(labels: map<Id, string>, prefix: string) {
    && (forall x | x in labels ::
          1 <= NumberIn(labels[x], prefix) <= |labels| && labels[x] == Label(prefix, NumberIn(labels[x], prefix)))
    && (forall n: nat | 1 <= n <= |labels| :: Carried(labels, prefix, n))
    && (forall x, y | x in labels && y in labels && labels[x] == labels[y] :: x == y)
  }

  /** The label of an id, numbered next when it is new. */
  function Labelled(labels: map<Id, string>, prefix: string, x: Id): map<Id, string> {
    if x in labels then labels else labels[x := Label(prefix, |labels| + 1)]
  }

  lemma NextLabelIsUnused(labels: map<Id, string>, prefix: string, y: Id)
    requires Bijective(labels, prefix) && y in labels
    ensures labels[y] != Label(prefix, |labels| + 1)
  {
    NumberOfLabel(prefix, |labels| + 1);
    assert NumberIn(labels[y], prefix) <= |labels|;
  }

  lemma StillCarried(labels: map<Id, string>, prefix: string, x: Id, n: nat)
    requires Bijective(labels, prefix) && x !in labels && 1 <= n <= |labels| + 1
    ensures Carried(labels[x := Label(prefix, |labels| + 1)], prefix, n)
  {
    var after := labels[x := Label(prefix, |labels| + 1)];
    if n <= |labels| {
      assert Carried(labels, prefix, n);
      var y :| y in labels && labels[y] == Label(prefix, n);
      assert y in after && after[y] == Label(prefix, n);
    } else {
      assert x in after && after[x] == Label(prefix, n);
    }
  }

  lemma LabelledStaysNumbered(labels: map<Id, string>, prefix: string, x: Id)
    requires Numbered(labels, prefix)
    ensures Numbered(Labelled(labels, prefix, x), prefix)
  {
    assert Unfold(labels);
    if x !in labels {
      var after := labels[x := Label(prefix, |labels| + 1)];
      assert |after| == |labels| + 1;
      NumberOfLabel(prefix, |labels| + 1);
      forall y | y in labels
        ensures labels[y] != after[x]
      {
        NextLabelIsUnused(labels, prefix, y);
      }
      forall n: nat | 1 <= n <= |after|
        ensures Carried(after, prefix, n)
      {
        StillCarried(labels, prefix, x, n);
      }
    }
  }

  /** The id that carries a label, found by scanning the entries. */
  method Resolve(labels: map<Id, string>, tag: string, ghost prefix: string) returns (r: Option<Id>)
    requires Numbered(labels, prefix)
    ensures forall x :: r == Some(x) <==> x in labels && labels[x] == tag
  {
    assert Unfold(labels);
    var rest := labels.Keys;
    while rest != {}
      invariant rest <= labels.Keys
      invariant forall x | x in labels && x !in rest :: labels[x] != tag
      decreases rest
    {
      var x :| x in rest;
      if labels[x] == tag {
        return Some(x);
      }
      rest := rest - {x};
    }
    return None;
  }

  const PATRON := "PATRON_"
  const COPY := "COPY_"
  const LOAN := "LOAN_"
  const FULF := "FULF_"

  /** The labels after one id has been asked for: the exact map, kept folded. */
  ghost predicate Gained(before: map<Id, string>, after: map<Id, string>, prefix: string, x: Id) {
    forall m {:trigger Unfold(m)} :: Unfold(m) && m == before ==> after == Labelled(m, prefix, x)
  }

  type PatronLabels = m: map<Id, string> | Numbered(m, PATRON) witness map[]
  type CopyLabels = m: map<Id, string> | Numbered(m, COPY) witness map[]
  type LoanLabels = m: map<Id, string> | Numbered(m, LOAN) witness map[]
  type FulfillmentLabels = m: map<Id, string> | Numbered(m, FULF) witness map[]

  class PseudonymMap {
    var patrons: PatronLabels
    var holdings: CopyLabels
    var loans: LoanLabels
    var fulfillments: FulfillmentLabels

    constructor ()
      ensures patrons == map[] && holdings == map[] && loans == map[] && fulfillments == map[]
    {
      patrons, holdings, loans, fulfillments := map[], map[], map[], map[];
    }

    method Patron(x: Id) returns (tag: string)
      modifies this`patrons
      ensures Gained(old(patrons), patrons, PATRON, x)
      ensures x in patrons && tag == patrons[x]
      ensures forall y | y in old(patrons) :: y in patrons && patrons[y] == old(patrons)[y]
    {
      LabelledStaysNumbered(patrons, PATRON, x);
      if x !in patrons {
        patrons := patrons[x := Label(PATRON, |patrons| + 1)];
      }
      return patrons[x];
    }

    method Holding(x: Id) returns (tag: string)
      modifies this`holdings
      ensures Gained(old(holdings), holdings, COPY, x)
      ensures x in holdings && tag == holdings[x]
      ensures forall y | y in old(holdings) :: y in holdings && holdings[y] == old(holdings)[y]
    {
      LabelledStaysNumbered(holdings, COPY, x);
      if x !in holdings {
        holdings := holdings[x := Label(COPY, |holdings| + 1)];
      }
      return holdings[x];
    }

    method Loan(x: Id) returns (tag: string)
      modifies this`loans
      ensures Gained(old(loans), loans, LOAN, x)
      ensures x in loans && tag == loans[x]
      ensures forall y | y in old(loans) :: y in loans && loans[y] == old(loans)[y]
    {
      LabelledStaysNumbered(loans, LOAN, x);
      if x !in loans {
        loans := loans[x := Label(LOAN, |loans| + 1)];
      }
      return loans[x];
    }

    method Fulfillment(x: Id) returns (tag: string)
      modifies this`fulfillments
      ensures Gained(old(fulfillments), fulfillments, FULF, x)
      ensures x in fulfillments && tag == fulfillments[x]
      ensures forall y | y in old(fulfillments) :: y in fulfillments && fulfillments[y] == old(fulfillments)[y]
    {
      LabelledStaysNumbered(fulfillments, FULF, x);
      if x !in fulfillments {
        fulfillments := fulfillments[x := Label(FULF, |fulfillments| + 1)];
      }
      return fulfillments[x];
    }

    method ResolvePatron(tag: string) returns (r: Option<Id>)
      ensures forall x :: r == Some(x) <==> x in patrons && patrons[x] == tag
    {
      r := Resolve(patrons, tag, PATRON);
    }

    method ResolveHolding(tag: string) returns (r: Option<Id>)
      ensures forall x :: r == Some(x) <==> x in holdings && holdings[x] == tag
    {
      r := Resolve(holdings, tag, COPY);
    }

    method ResolveLoan(tag: string) returns (r: Option<Id>)
      ensures forall x :: r == Some(x) <==> x in loans && loans[x] == tag
    {
      r := Resolve(loans, tag, LOAN);
    }
  }

  // ---- histories ----

  /** The labels after asking for these ids in order. */
  function Asked(xs: seq<Id>, prefix: string): map<Id, string> {
    if xs == [] then map[] else Labelled(Asked(xs[..|xs| - 1], prefix), prefix, xs[|xs| - 1])
  }

  /** Under every history the labels are numbered. */
  lemma {:induction false} LabelsAreNumbered(xs: seq<Id>, prefix: string)
    ensures Numbered(Asked(xs, prefix), prefix)
  {
    if xs != [] {
      LabelsAreNumbered(xs[..|xs| - 1], prefix);
      LabelledStaysNumbered(Asked(xs[..|xs| - 1], prefix), prefix, xs[|xs| - 1]);
    }
  }

  /** Every id asked for has a label. */
  lemma {:induction false} AskedHaveLabels(xs: seq<Id>, prefix: string, i: nat)
    requires i < |xs|
    ensures xs[i] in Asked(xs, prefix)
  {
    if i < |xs| - 1 {
      AskedHaveLabels(xs[..|xs| - 1], prefix, i);
    }
  }

  /** A label once given never changes. */
  lemma {:induction false} LabelsAreStable(xs: seq<Id>, prefix: string, k: nat, x: Id)
    requires k <= |xs| && x in Asked(xs[..k], prefix)
    ensures x in Asked(xs, prefix) && Asked(xs, prefix)[x] == Asked(xs[..k], prefix)[x]
    decreases |xs|
  {
    if k < |xs| {
      assert xs[..|xs| - 1][..k] == xs[..k];
      LabelsAreStable(xs[..|xs| - 1], prefix, k, x);
    } else {
      assert xs[..k] == xs;
    }
  }
}
