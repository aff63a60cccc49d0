/** The few string operations that the desk uses on input that it compares itself; letters are ASCII. */
module Text {
  import opened Domain
  import opened Pseudonyms

  /** A text argument counts only when it is present and not empty. */
  predicate Given(x: Option<string>) {
    x.Some? && x.value != ""
  }

  function UpperChar(c: char): char {
    if 'a' <= c <= 'z' then (c as int - 32) as char else c
  }

  function LowerChar(c: char): char {
    if 'A' <= c <= 'Z' then (c as int + 32) as char else c
  }

  function Upper(s: string): string {
    if s == "" then "" else Upper(s[..|s| - 1]) + [UpperChar(s[|s| - 1])]
  }

  function Lower(s: string): string {
    if s == "" then "" else Lower(s[..|s| - 1]) + [LowerChar(s[|s| - 1])]
  }

  function Strip(s: string): string {
    if s == "" then ""
    else if s[0] in " \t\n\r" then Strip(s[1..])
    else if s[|s| - 1] in " \t\n\r" then Strip(s[..|s| - 1])
    else s
  }

  predicate Contains(s: string, part: string) {
    part <= s || (s != "" && Contains(s[1..], part))
  }

  lemma {:induction false} UpperConcat(a: string, b: string)
    ensures Upper(a + b) == Upper(a) + Upper(b)
  {
    if b == "" {
      assert a + b == a;
    } else {
      assert (a + b)[..|a + b| - 1] == a + b[..|b| - 1];
      UpperConcat(a, b[..|b| - 1]);
    }
  }

  lemma {:induction false} DecimalIsUpper(n: nat)
    ensures Upper(Decimal(n)) == Decimal(n)
  {
    var last := [Digit(n % 10)];
    assert Upper(last) == last by {
      assert last[..0] == "";
    }
    if n >= 10 {
      DecimalIsUpper(n / 10);
      UpperConcat(Decimal(n / 10), last);
    }
  }

  /** Upper-casing a label leaves it alone, so comparing upper-cased labels compares labels. */
  lemma LabelIsUpper(prefix: string, n: nat)
    requires Upper(prefix) == prefix
    ensures Upper(Label(prefix, n)) == Label(prefix, n)
  {
    DecimalIsUpper(n);
    UpperConcat(prefix, Decimal(n));
  }

  // ---- filtering a candidate list ----

  function Filter<T>(xs: seq<T>, p: T -> bool): seq<T> {
    if xs == [] then []
    else Filter(xs[..|xs| - 1], p) + if p(xs[|xs| - 1]) then [xs[|xs| - 1]] else []
  }

  /** A filtered list is a subsequence, taken at the increasing positions `at`, of all elements that pass. */
  lemma {:induction false} FilterPicks<T>(xs: seq<T>, p: T -> bool) returns (at: seq<nat>)
    ensures |at| == |Filter(xs, p)|
    ensures forall k | 0 <= k < |at| :: at[k] < |xs| && p(xs[at[k]]) && Filter(xs, p)[k] == xs[at[k]]
    ensures forall j, k | 0 <= j < k < |at| :: at[j] < at[k]
    ensures forall i: nat | i < |xs| && p(xs[i]) :: i in at
  {
    if xs == [] {
      at := [];
    } else {
      var n := |xs| - 1;
      var front := FilterPicks(xs[..n], p);
      at := front + if p(xs[n]) then [n] else [];
      forall i: nat | i < |xs| && p(xs[i])
        ensures i in at
      {
        if i < n {
          assert xs[..n][i] == xs[i];
          assert i in front;
        } else {
          assert at[|front|] == n;
        }
      }
    }
  }

  lemma FilterMembers<T>(xs: seq<T>, p: T -> bool)
    ensures forall x :: x in Filter(xs, p) <==> x in xs && p(x)
  {
    var at := FilterPicks(xs, p);
    forall x | x in xs && p(x)
      ensures x in Filter(xs, p)
    {
      var i :| 0 <= i < |xs| && xs[i] == x;
      var n: nat := i;
      assert n in at;
      var k :| 0 <= k < |at| && at[k] == n;
      assert Filter(xs, p)[k] == x;
    }
    forall x | x in Filter(xs, p)
      ensures x in xs && p(x)
    {
      var k :| 0 <= k < |at| && Filter(xs, p)[k] == x;
      assert xs[at[k]] == x;
    }
  }
}
