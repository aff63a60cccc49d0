/** The dashboard counts, and what ties them to the circulation state and to its history. */
module Reporting {
  import opened Domain
  import opened Circulation
  import opened Invariants
  import opened History
  import opened Runs

  // ---- the queries ----

  function HoldingsWith(t: Tables, s: HoldingStatus): set<Id> {
    set h | h in t.holdings && t.holdings[h].status == s
  }

  function OpenLoans(t: Tables): set<Id> {
    set l | l in t.loans && Open(t.loans[l])
  }

  function OverdueLoans(t: Tables, asOf: Day): set<Id> {
    set l | l in t.loans && Open(t.loans[l]) && t.loans[l].dueDate < asOf
  }

  /** Loans checked out, and loans returned, on days first..last of the library's time zone. */
  function Issued(t: Tables, dayOf: Time -> Day, first: Day, last: Day): set<Id> {
    set l | l in t.loans && first <= dayOf(t.loans[l].checkoutAt) <= last
  }

  function Returned(t: Tables, dayOf: Time -> Day, first: Day, last: Day): set<Id> {
    set l | l in t.loans && t.loans[l].returnedAt.Some? && first <= dayOf(t.loans[l].returnedAt.value) <= last
  }

  function IssuesOn(t: Tables, dayOf: Time -> Day, day: Day): nat {
    |Issued(t, dayOf, day, day)|
  }

  function ReturnsOn(t: Tables, dayOf: Time -> Day, day: Day): nat {
    |Returned(t, dayOf, day, day)|
  }

  /** The rows a GROUP BY on the status column gives back, in any order. */
  ghost predicate GroupedByStatus(t: Tables, rows: seq<(HoldingStatus, nat)>) {
    && (forall i | 0 <= i < |rows| :: rows[i].1 == |HoldingsWith(t, rows[i].0)|)
    && (forall s | HoldingsWith(t, s) != {} :: exists i :: 0 <= i < |rows| && rows[i].0 == s)
  }

  const STATUSES := {Available, OnLoan, Withdrawn, Damaged, Lost}

  lemma EveryStatusIsListed(s: HoldingStatus)
    ensures s in STATUSES
  {
    match s
    case _ =>
  }

  /** Statuses without a copy have no row in the result and count as zero. */
  method CountHoldingsByStatus(t: Tables, rows: seq<(HoldingStatus, nat)>) returns (counts: map<HoldingStatus, nat>)
    requires GroupedByStatus(t, rows)
    ensures forall s :: s in counts && counts[s] == |HoldingsWith(t, s)|
  {
    counts := map s | s in STATUSES :: 0;
    forall s: HoldingStatus
      ensures s in STATUSES
    {
      EveryStatusIsListed(s);
    }
    for i := 0 to |rows|
      invariant forall s :: s in counts
      invariant forall s ::
                  || counts[s] == |HoldingsWith(t, s)|
                  || (counts[s] == 0 && forall j | 0 <= j < i :: rows[j].0 != s)
    {
      counts := counts[rows[i].0 := rows[i].1];
    }
  }

  datatype DailyRow = DailyRow(day: Day, issueCount: nat, returnCount: nat)

  /** The row agrees with the single-day queries. */
  predicate IsDayCount(t: Tables, dayOf: Time -> Day, day: Day, row: DailyRow) {
    row == DailyRow(day, IssuesOn(t, dayOf, day), ReturnsOn(t, dayOf, day))
  }

  /** The loans of the range grouped by day; a day without a loan has no group. */
  function IssuesByDay(t: Tables, dayOf: Time -> Day, first: Day, last: Day): map<Day, nat> {
    var rows := Issued(t, dayOf, first, last);
    var days := set l | l in rows :: dayOf(t.loans[l].checkoutAt);
    map day | day in days :: |set l | l in rows && dayOf(t.loans[l].checkoutAt) == day|
  }

  function ReturnsByDay(t: Tables, dayOf: Time -> Day, first: Day, last: Day): map<Day, nat> {
    var rows := Returned(t, dayOf, first, last);
    var days := set l | l in rows :: dayOf(t.loans[l].returnedAt.value);
    map day | day in days :: |set l | l in rows && dayOf(t.loans[l].returnedAt.value) == day|
  }

  function Coalesce(counts: map<Day, nat>, day: Day): nat {
    if day in counts then counts[day] else 0
  }

  /** The generated days, each joined with the two grouped counts. */
  function Joined(issues: map<Day, nat>, given: map<Day, nat>, first: Day, last: Day): seq<DailyRow>
    decreases last + 1 - first
  {
    if first > last then []
    else Joined(issues, given, first, last - 1) + [DailyRow(last, Coalesce(issues, last), Coalesce(given, last))]
  }

  function DailyCirculation(t: Tables, dayOf: Time -> Day, first: Day, last: Day): seq<DailyRow> {
    Joined(IssuesByDay(t, dayOf, first, last), ReturnsByDay(t, dayOf, first, last), first, last)
  }

  datatype DashboardSnapshot = DashboardSnapshot(
    holdingsByStatus: map<HoldingStatus, nat>, activeLoans: nat, overdueLoans: nat,
    issuesToday: nat, returnsToday: nat, dailySeries: seq<DailyRow>, first: Day, last: Day)

  /** The range asked for, or the last `days` days; half a range or an inverted one is refused. */
  function SeriesRange(today: Day, days: int, first: Option<Day>, last: Option<Day>): Result<(Day, Day)> {
    if first.Some? != last.Some? then Err(Validation)
    else
      var range := if first.Some? then (first.value, last.value) else (today - (days - 1), today);
      if range.0 > range.1 then Err(Validation) else Ok(range)
  }

  method Snapshot(t: Tables, rows: seq<(HoldingStatus, nat)>, dayOf: Time -> Day, today: Day,
                  days: int, first: Option<Day>, last: Option<Day>) returns (r: Result<DashboardSnapshot>)
    requires Inv(t) && GroupedByStatus(t, rows)
    ensures r.Err? ==> SeriesRange(today, days, first, last) == Err(r.error)
    ensures r.Ok? ==> SeriesRange(today, days, first, last) == Ok((r.value.first, r.value.last))
    ensures r.Ok? ==> Counted(t, today, r.value) && Consistent(t, dayOf, today, r.value)
    ensures first.None? && last.None? ==>
              if days < 1 then r == Err(Validation)
              else r.Ok? && |r.value.dailySeries| == days && r.value.dailySeries[days - 1].day == today
    ensures first.Some? && last.Some? ==>
              if first.value > last.value then r == Err(Validation)
              else r.Ok? && r.value.first == first.value && r.value.last == last.value
    ensures first.Some? != last.Some? ==> r == Err(Validation)
  {
    var range :- SeriesRange(today, days, first, last);
    var holdings := CountHoldingsByStatus(t, rows);
    r := Ok(DashboardSnapshot(
      holdings, |OpenLoans(t)|, |OverdueLoans(t, today)|,
      IssuesOn(t, dayOf, today), ReturnsOn(t, dayOf, today),
      DailyCirculation(t, dayOf, range.0, range.1), range.0, range.1));
    ActiveLoansAreOnLoan(t);
    StatusesPartition(t);
    OverdueAreActive(t, today);
    SeriesIsDayCounts(t, dayOf, range.0, range.1);
  }

  /** Each figure counts what it names. */
  ghost predicate Counted(t: Tables, today: Day, s: DashboardSnapshot) {
    && (forall status :: status in s.holdingsByStatus && s.holdingsByStatus[status] == |HoldingsWith(t, status)|)
    && s.activeLoans == |OpenLoans(t)| && s.overdueLoans == |OverdueLoans(t, today)|
  }

  /** The figures of one dashboard agree with each other. */
  ghost predicate Consistent(t: Tables, dayOf: Time -> Day, today: Day, s: DashboardSnapshot) {
    && (forall status :: status in s.holdingsByStatus)
    && s.activeLoans == s.holdingsByStatus[OnLoan]
    && s.overdueLoans <= s.activeLoans
    && s.holdingsByStatus[Available] + s.holdingsByStatus[OnLoan] + s.holdingsByStatus[Withdrawn]
       + s.holdingsByStatus[Damaged] + s.holdingsByStatus[Lost] == |t.holdings.Keys|
    && IsDayCount(t, dayOf, today, DailyRow(today, s.issuesToday, s.returnsToday))
    && SeriesOk(t, dayOf, s.first, s.last, s.dailySeries)
  }

  /** One row for each day of the range, each equal to the single-day counts. */
  ghost predicate SeriesOk(t: Tables, dayOf: Time -> Day, first: Day, last: Day, rows: seq<DailyRow>) {
    && |rows| == last - first + 1
    && (forall i | 0 <= i < |rows| :: IsDayCount(t, dayOf, first + i, rows[i]))
  }

  // ---- the counts agree ----

  lemma {:induction false} DistinctCopies(t: Tables, ls: set<Id>)
    requires LoanInv(t) && ls <= OpenLoans(t)
    ensures |set l | l in ls :: t.loans[l].holdingId| == |ls|
    decreases ls
  {
    if ls != {} {
      var k :| k in ls;
      DistinctCopies(t, ls - {k});
      var copies := set l | l in ls - {k} :: t.loans[l].holdingId;
      assert (set l | l in ls :: t.loans[l].holdingId) == copies + {t.loans[k].holdingId};
      assert t.loans[k].holdingId !in copies;
    }
  }

  /** The open loans are as many as the copies on loan. */
  lemma ActiveLoansAreOnLoan(t: Tables)
    requires LoanInv(t)
    ensures |OpenLoans(t)| == |HoldingsWith(t, OnLoan)|
  {
    DistinctCopies(t, OpenLoans(t));
    var copies := set l | l in OpenLoans(t) :: t.loans[l].holdingId;
    forall h | h in HoldingsWith(t, OnLoan)
      ensures h in copies
    {
      var l :| l in OpenLoansOf(t, h);
      assert l in OpenLoans(t) && t.loans[l].holdingId == h;
    }
    assert copies == HoldingsWith(t, OnLoan);
  }

  lemma FivePartsSum(whole: set<Id>, a: set<Id>, b: set<Id>, c: set<Id>, d: set<Id>, e: set<Id>)
    requires a !! b !! c !! d !! e
    requires a + b + c + d + e == whole
    ensures |a| + |b| + |c| + |d| + |e| == |whole|
  {
  }

  lemma StatusesCover(t: Tables)
    ensures HoldingsWith(t, Available) + HoldingsWith(t, OnLoan) + HoldingsWith(t, Withdrawn)
            + HoldingsWith(t, Damaged) + HoldingsWith(t, Lost) == t.holdings.Keys
  {
  }

  lemma StatusesDisjoint(t: Tables)
    ensures HoldingsWith(t, Available) !! HoldingsWith(t, OnLoan) !! HoldingsWith(t, Withdrawn)
            !! HoldingsWith(t, Damaged) !! HoldingsWith(t, Lost)
  {
  }

  /** The five status counts add up to the number of copies. */
  lemma StatusesPartition(t: Tables)
    ensures |HoldingsWith(t, Available)| + |HoldingsWith(t, OnLoan)| + |HoldingsWith(t, Withdrawn)|
            + |HoldingsWith(t, Damaged)| + |HoldingsWith(t, Lost)| == |t.holdings.Keys|
  {
    StatusesCover(t);
    StatusesDisjoint(t);
    FivePartsSum(t.holdings.Keys, HoldingsWith(t, Available), HoldingsWith(t, OnLoan), HoldingsWith(t, Withdrawn),
                 HoldingsWith(t, Damaged), HoldingsWith(t, Lost));
  }

  lemma OverdueAreActive(t: Tables, today: Day)
    ensures |OverdueLoans(t, today)| <= |OpenLoans(t)|
  {
    Subset(OverdueLoans(t, today), OpenLoans(t));
  }

  lemma Subset(a: set<Id>, b: set<Id>)
    requires a <= b
    ensures |a| <= |b|
  {
    assert b == a + (b - a);
  }

  lemma {:induction false} JoinedAt(issues: map<Day, nat>, given: map<Day, nat>, first: Day, last: Day, i: nat)
    requires i < last - first + 1
    ensures var rows := Joined(issues, given, first, last);
            |rows| == last - first + 1
            && rows[i] == DailyRow(first + i, Coalesce(issues, first + i), Coalesce(given, first + i))
    decreases last - first
  {
    if first < last {
      JoinedAt(issues, given, first, last - 1, if i < last - first then i else 0);
    }
  }

  /** Each row of the daily series carries the single-day counts. */
  lemma DailyRowsAreDayCounts(t: Tables, dayOf: Time -> Day, first: Day, last: Day, i: nat)
    requires i < last - first + 1
    ensures var rows := DailyCirculation(t, dayOf, first, last);
            |rows| == last - first + 1 && IsDayCount(t, dayOf, first + i, rows[i])
  {
    JoinedAt(IssuesByDay(t, dayOf, first, last), ReturnsByDay(t, dayOf, first, last), first, last, i);
    IssuesByDayCorrect(t, dayOf, first, last, first + i);
    ReturnsByDayCorrect(t, dayOf, first, last, first + i);
  }

  lemma SeriesIsDayCounts(t: Tables, dayOf: Time -> Day, first: Day, last: Day)
    requires first <= last
    ensures SeriesOk(t, dayOf, first, last, DailyCirculation(t, dayOf, first, last))
  {
    DailyRowsAreDayCounts(t, dayOf, first, last, 0);
    forall i: nat | i < last - first + 1
      ensures IsDayCount(t, dayOf, first + i, DailyCirculation(t, dayOf, first, last)[i])
    {
      DailyRowsAreDayCounts(t, dayOf, first, last, i);
    }
  }

  /** The group of a day inside the range holds that day's loans; without a group there are none. */
  lemma IssuesByDayCorrect(t: Tables, dayOf: Time -> Day, first: Day, last: Day, day: Day)
    requires first <= day <= last
    ensures Coalesce(IssuesByDay(t, dayOf, first, last), day) == IssuesOn(t, dayOf, day)
  {
    var rows := Issued(t, dayOf, first, last);
    assert (set l | l in rows && dayOf(t.loans[l].checkoutAt) == day) == Issued(t, dayOf, day, day);
    if day !in IssuesByDay(t, dayOf, first, last) {
      assert forall l :: l in Issued(t, dayOf, day, day) ==> l in rows;
      assert Issued(t, dayOf, day, day) == {};
    }
  }

  lemma ReturnsByDayCorrect(t: Tables, dayOf: Time -> Day, first: Day, last: Day, day: Day)
    requires first <= day <= last
    ensures Coalesce(ReturnsByDay(t, dayOf, first, last), day) == ReturnsOn(t, dayOf, day)
  {
    var rows := Returned(t, dayOf, first, last);
    assert (set l | l in rows && dayOf(t.loans[l].returnedAt.value) == day) == Returned(t, dayOf, day, day);
    if day !in ReturnsByDay(t, dayOf, first, last) {
      assert forall l :: l in Returned(t, dayOf, day, day) ==> l in rows;
      assert Returned(t, dayOf, day, day) == {};
    }
  }

  // ---- conservation over a run ----

  function SumIssues(rows: seq<DailyRow>): nat {
    if rows == [] then 0 else SumIssues(rows[..|rows| - 1]) + rows[|rows| - 1].issueCount
  }

  function SumReturns(rows: seq<DailyRow>): nat {
    if rows == [] then 0 else SumReturns(rows[..|rows| - 1]) + rows[|rows| - 1].returnCount
  }

  lemma RangeSplits(t: Tables, dayOf: Time -> Day, first: Day, last: Day)
    requires first <= last
    ensures |Issued(t, dayOf, first, last)| == |Issued(t, dayOf, first, last - 1)| + IssuesOn(t, dayOf, last)
    ensures |Returned(t, dayOf, first, last)| == |Returned(t, dayOf, first, last - 1)| + ReturnsOn(t, dayOf, last)
  {
    assert Issued(t, dayOf, first, last) == Issued(t, dayOf, first, last - 1) + Issued(t, dayOf, last, last);
    assert Issued(t, dayOf, first, last - 1) !! Issued(t, dayOf, last, last);
    assert Returned(t, dayOf, first, last) == Returned(t, dayOf, first, last - 1) + Returned(t, dayOf, last, last);
    assert Returned(t, dayOf, first, last - 1) !! Returned(t, dayOf, last, last);
  }

  /** One more day: the sums and the sets grow by that day's counts. */
  lemma RowAdds(t: Tables, dayOf: Time -> Day, rows: seq<DailyRow>, first: Day, n: nat)
    requires 0 < n <= |rows| && IsDayCount(t, dayOf, first + (n - 1), rows[n - 1])
    ensures SumIssues(rows[..n]) == SumIssues(rows[..n - 1]) + IssuesOn(t, dayOf, first + (n - 1))
    ensures SumReturns(rows[..n]) == SumReturns(rows[..n - 1]) + ReturnsOn(t, dayOf, first + (n - 1))
  {
    assert rows[..n][..n - 1] == rows[..n - 1];
  }

  /** The first rows of the series add up to the loans issued and returned on the first days. */
  lemma {:induction false} RowsAddUp(t: Tables, dayOf: Time -> Day, rows: seq<DailyRow>, first: Day, n: nat)
    requires n <= |rows|
    requires forall i | 0 <= i < n :: IsDayCount(t, dayOf, first + i, rows[i])
    ensures SumIssues(rows[..n]) == |Issued(t, dayOf, first, first + n - 1)|
    ensures SumReturns(rows[..n]) == |Returned(t, dayOf, first, first + n - 1)|
  {
    if n == 0 {
      assert Issued(t, dayOf, first, first - 1) == {} && Returned(t, dayOf, first, first - 1) == {};
    } else {
      assert IsDayCount(t, dayOf, first + (n - 1), rows[n - 1]);
      RowsAddUp(t, dayOf, rows, first, n - 1);
      RangeSplits(t, dayOf, first, first + n - 1);
      RowAdds(t, dayOf, rows, first, n);
    }
  }

  /** The daily series adds up to the loans issued and returned in its range. */
  lemma SeriesAddsUp(t: Tables, dayOf: Time -> Day, first: Day, last: Day)
    requires first <= last
    ensures SumIssues(DailyCirculation(t, dayOf, first, last)) == |Issued(t, dayOf, first, last)|
    ensures SumReturns(DailyCirculation(t, dayOf, first, last)) == |Returned(t, dayOf, first, last)|
  {
    var rows := DailyCirculation(t, dayOf, first, last);
    SeriesIsDayCounts(t, dayOf, first, last);
    RowsAddUp(t, dayOf, rows, first, |rows|);
    assert rows[..|rows|] == rows;
  }

  /** A command that stamps a loan does so on a day of the range. */
  predicate StampsWithin(c: Command, dayOf: Time -> Day, first: Day, last: Day) {
    (c.DoCheckout? || c.DoCommitIssue? || c.DoReturn? || c.DoCancelIssue? || c.DoConfirmPickup?)
    ==> first <= dayOf(c.now) <= last
  }

  function Balance(t: Tables, dayOf: Time -> Day, first: Day, last: Day): int {
    |Issued(t, dayOf, first, last)| - |Returned(t, dayOf, first, last)| - |OpenLoans(t)|
  }

  lemma AddedLoanCounts(t: Tables, u: Tables, l: Id, dayOf: Time -> Day, first: Day, last: Day)
    requires l !in t.loans && l in u.loans && u.loans == t.loans[l := u.loans[l]]
    requires Open(u.loans[l]) && first <= dayOf(u.loans[l].checkoutAt) <= last
    ensures Issued(u, dayOf, first, last) == Issued(t, dayOf, first, last) + {l} && l !in Issued(t, dayOf, first, last)
    ensures Returned(u, dayOf, first, last) == Returned(t, dayOf, first, last)
    ensures OpenLoans(u) == OpenLoans(t) + {l} && l !in OpenLoans(t)
  {
  }

  lemma ClosedLoanCounts(t: Tables, u: Tables, l: Id, dayOf: Time -> Day, first: Day, last: Day)
    requires l in t.loans && l in u.loans && Open(t.loans[l]) && !Open(u.loans[l])
    requires u.loans == t.loans[l := t.loans[l].(returnedAt := u.loans[l].returnedAt)]
    requires first <= dayOf(u.loans[l].returnedAt.value) <= last
    ensures Issued(u, dayOf, first, last) == Issued(t, dayOf, first, last)
    ensures Returned(u, dayOf, first, last) == Returned(t, dayOf, first, last) + {l}
            && l !in Returned(t, dayOf, first, last)
    ensures OpenLoans(u) == OpenLoans(t) - {l} && l in OpenLoans(t)
  {
  }

  lemma StepBalance(t: Tables, c: Command, dayOf: Time -> Day, first: Day, last: Day)
    requires StampsWithin(c, dayOf, first, last)
    ensures Balance(Step(t, c).tables, dayOf, first, last) == Balance(t, dayOf, first, last)
  {
    var u := Step(t, c).tables;
    var e := StepEffect(t, c);
    if e.Opened? {
      AddedLoanCounts(t, u, e.loan, dayOf, first, last);
    } else if e.Closed? {
      ClosedLoanCounts(t, u, e.loan, dayOf, first, last);
    }
  }

  /** While the clock stays in the range, issues minus returns changes exactly as the number of active loans. */
  lemma {:induction false} BalanceConserved(t: Tables, cs: seq<Command>, dayOf: Time -> Day, first: Day, last: Day)
    requires forall c | c in cs :: StampsWithin(c, dayOf, first, last)
    ensures Balance(Run(t, cs), dayOf, first, last) == Balance(t, dayOf, first, last)
    decreases |cs|
  {
    if cs != [] {
      StepBalance(t, cs[0], dayOf, first, last);
      BalanceConserved(Step(t, cs[0]).tables, cs[1..], dayOf, first, last);
    }
  }

  /** The dashboard's series over a range of days explains the change in active loans over those days. */
  lemma SeriesExplainsChange(t: Tables, cs: seq<Command>, dayOf: Time -> Day, first: Day, last: Day)
    requires first <= last
    requires forall c | c in cs :: StampsWithin(c, dayOf, first, last)
    requires Issued(t, dayOf, first, last) == {} && Returned(t, dayOf, first, last) == {}
    ensures var u := Run(t, cs);
            var rows := DailyCirculation(u, dayOf, first, last);
            SumIssues(rows) - SumReturns(rows) == |OpenLoans(u)| - |OpenLoans(t)|
  {
    BalanceConserved(t, cs, dayOf, first, last);
    SeriesAddsUp(Run(t, cs), dayOf, first, last);
  }
}
