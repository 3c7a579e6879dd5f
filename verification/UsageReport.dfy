/**
 The report assembled from the tallies (app/services/policy_service.py:142-187), and what
 any report that is exact must satisfy.
 */
module UsageReport {
  import opened Common
  import opened PolicyChecks
  import opened UsageStats

  function ByCount(): FeatureCount -> int {
    (f: FeatureCount) => -(f.count as int)
  }

  function UsePosition(rows: seq<Check>): FeatureCount -> int {
    (f: FeatureCount) => First(rows, Uses(f.featureId))
  }

  function ByDate(): DayCount -> int {
    (d: DayCount) => d.date
  }

  function DayPosition(rows: seq<Check>): DayCount -> int {
    (d: DayCount) => First(rows, OnDay(d.date))
  }

  ghost predicate Lists(top: seq<FeatureCount>, id: string) {
    exists k :: 0 <= k < |top| && top[k].featureId == id
  }

  /** What the ranking is of: every use counted, ties by first use, at most ten listed, none overtaken. */
  ghost predicate TopIsExact(top: seq<FeatureCount>, rows: seq<Check>) {
    && |top| <= TOP_FEATURES
    && (forall f :: f in top ==> f.count == Tally(rows, Uses(f.featureId)) > 0)
    && Ordered(top, ByCount(), UsePosition(rows))
    && (forall id :: Tally(rows, Uses(id)) > 0 && !Lists(top, id) ==>
          && |top| == TOP_FEATURES
          && forall f :: f in top ==>
               Before(f, FeatureCount(id, Tally(rows, Uses(id))), ByCount(), UsePosition(rows)))
  }

  ghost predicate HasDay(daily: seq<DayCount>, date: int) {
    exists k :: 0 <= k < |daily| && daily[k].date == date
  }

  /** Strictly ascending days, each counted exactly, and no day of the rows missing. */
  ghost predicate DailyIsExact(daily: seq<DayCount>, rows: seq<Check>) {
    && (forall j, k :: 0 <= j < k < |daily| ==> daily[j].date < daily[k].date)
    && (forall k :: 0 <= k < |daily| ==> CountsDay(daily[k], rows) && daily[k].total > 0)
    && (forall date :: Tally(rows, OnDay(date)) > 0 ==> HasDay(daily, date))
  }

  ghost predicate IsExact(s: Stats, rows: seq<Check>) {
    && s.total == |rows|
    && s.allow == Tally(rows, Decided(Allow))
    && s.block == Tally(rows, Decided(Block))
    && s.review == Tally(rows, Decided(Review))
    && TopIsExact(s.topFeatures, rows)
    && DailyIsExact(s.daily, rows)
  }

  function Top(ranked: seq<FeatureCount>): seq<FeatureCount> {
    if |ranked| > TOP_FEATURES then ranked[..TOP_FEATURES] else ranked
  }

  /** The first ten of a complete ranking. */
  lemma CutIsExact(ranked: seq<FeatureCount>, rows: seq<Check>)
    requires Ordered(ranked, ByCount(), UsePosition(rows))
    requires forall f :: f in ranked ==> f.count == Tally(rows, Uses(f.featureId)) > 0
    requires forall id :: Tally(rows, Uses(id)) > 0 ==> FeatureCount(id, Tally(rows, Uses(id))) in ranked
    ensures TopIsExact(Top(ranked), rows)
  {
    hide First, Tally, Before;
    var top := Top(ranked);
    assert forall k :: 0 <= k < |top| ==> top[k] == ranked[k];
    assert forall f :: f in top ==> f in ranked;
    forall id | Tally(rows, Uses(id)) > 0 && !Lists(top, id)
      ensures |top| == TOP_FEATURES
      ensures forall f :: f in top ==>
                Before(f, FeatureCount(id, Tally(rows, Uses(id))), ByCount(), UsePosition(rows))
    {
      var r :| 0 <= r < |ranked| && ranked[r] == FeatureCount(id, Tally(rows, Uses(id)));
      assert r >= |top|;
    }
  }

  lemma RankingIsExact(rows: seq<Check>, order: seq<string>, counts: map<string, nat>, items: seq<FeatureCount>)
    requires CountsFeatures(counts, rows) && KeysByFirst(order, counts.Keys, FirstUse(rows))
    requires |items| == |order|
    requires forall k :: 0 <= k < |order| ==> order[k] in counts && items[k] == FeatureCount(order[k], counts[order[k]])
    ensures TopIsExact(Top(StableSort(items, ByCount())), rows)
  {
    hide First, Tally, StableSort, TopIsExact, Ordered, Top;
    assert Ascending(items, UsePosition(rows)) by {
      forall i, j | 0 <= i < j < |items|
        ensures UsePosition(rows)(items[i]) < UsePosition(rows)(items[j])
      {
        assert FirstUse(rows)(order[i]) < FirstUse(rows)(order[j]);
      }
    }
    SortIsStable(items, ByCount(), UsePosition(rows));
    var ranked := StableSort(items, ByCount());
    assert forall f :: f in items ==> f.count == Tally(rows, Uses(f.featureId)) > 0;
    forall id | Tally(rows, Uses(id)) > 0
      ensures FeatureCount(id, Tally(rows, Uses(id))) in ranked
    {
      assert id in order;
      var k :| 0 <= k < |order| && order[k] == id;
      assert items[k] in items;
    }
    CutIsExact(ranked, rows);
  }

  /** Days in the order of their first rows. */
  lemma BreakdownAscends(rows: seq<Check>, dates: seq<int>, days: map<int, DayCount>, breakdown: seq<DayCount>)
    requires CountsDays(days, rows) && KeysByFirst(dates, days.Keys, FirstOn(rows))
    requires |breakdown| == |dates|
    requires forall k :: 0 <= k < |dates| ==> dates[k] in days && breakdown[k] == days[dates[k]]
    ensures Ascending(breakdown, DayPosition(rows))
    ensures forall d :: d in breakdown ==> CountsDay(d, rows) && Tally(rows, OnDay(d.date)) > 0
    ensures forall date :: Tally(rows, OnDay(date)) > 0 ==> HasDay(breakdown, date)
  {
    hide First, Tally, CountsDay;
    forall i, j | 0 <= i < j < |breakdown|
      ensures DayPosition(rows)(breakdown[i]) < DayPosition(rows)(breakdown[j])
    {
      assert FirstOn(rows)(dates[i]) < FirstOn(rows)(dates[j]);
    }
    forall date | Tally(rows, OnDay(date)) > 0
      ensures HasDay(breakdown, date)
    {
      assert date in dates;
      var k :| 0 <= k < |dates| && dates[k] == date;
      assert breakdown[k].date == date;
    }
  }

  lemma SameElementsSameDays(a: seq<DayCount>, b: seq<DayCount>, date: int)
    requires HasDay(a, date) && forall d :: d in a ==> d in b
    ensures HasDay(b, date)
  {
    var k :| 0 <= k < |a| && a[k].date == date;
    assert a[k] in b;
  }

  lemma OrderedDaysAreExact(daily: seq<DayCount>, rows: seq<Check>)
    requires Ordered(daily, ByDate(), DayPosition(rows))
    requires forall d :: d in daily ==> CountsDay(d, rows) && Tally(rows, OnDay(d.date)) > 0
    requires forall date :: Tally(rows, OnDay(date)) > 0 ==> HasDay(daily, date)
    ensures DailyIsExact(daily, rows)
  {
    hide First, Tally;
    assert forall k :: 0 <= k < |daily| ==> daily[k] in daily;
    forall j, k | 0 <= j < k < |daily|
      ensures daily[j].date < daily[k].date
    {
      assert Before(daily[j], daily[k], ByDate(), DayPosition(rows));
    }
  }

  lemma DailyOrderIsExact(rows: seq<Check>, dates: seq<int>, days: map<int, DayCount>, breakdown: seq<DayCount>)
    requires CountsDays(days, rows) && KeysByFirst(dates, days.Keys, FirstOn(rows))
    requires |breakdown| == |dates|
    requires forall k :: 0 <= k < |dates| ==> dates[k] in days && breakdown[k] == days[dates[k]]
    ensures DailyIsExact(StableSort(breakdown, ByDate()), rows)
  {
    hide First, Tally, StableSort, Ordered, Ascending, DailyIsExact, CountsDay, CountsDays, KeysByFirst, HasDay;
    BreakdownAscends(rows, dates, days, breakdown);
    SortIsStable(breakdown, ByDate(), DayPosition(rows));
    var daily := StableSort(breakdown, ByDate());
    forall date | Tally(rows, OnDay(date)) > 0
      ensures HasDay(daily, date)
    {
      SameElementsSameDays(breakdown, daily, date);
    }
    OrderedDaysAreExact(daily, rows);
  }

  method GetUsageStats(log: seq<Check>, tenant: string, now: int, periodDays: int) returns (s: Stats)
    ensures IsExact(s, Selected(log, tenant, now - periodDays * DAY))
  {
    hide First, Tally, StableSort, Selected;
    var rows := Selected(log, tenant, now - periodDays * DAY);
    var order, counts := CountFeatures(rows);
    assert forall k :: 0 <= k < |order| ==> order[k] in order;
    var items := seq(|order|, k requires 0 <= k < |order| => FeatureCount(order[k], counts[order[k]]));
    var ranked := StableSort(items, ByCount());
    RankingIsExact(rows, order, counts, items);
    var top := Top(ranked);

    var dates, days := CountDays(rows);
    assert forall k :: 0 <= k < |dates| ==> dates[k] in dates;
    var breakdown := seq(|dates|, k requires 0 <= k < |dates| => days[dates[k]]);
    var daily := StableSort(breakdown, ByDate());
    DailyOrderIsExact(rows, dates, days, breakdown);

    s := Stats(|rows|, Tally(rows, Decided(Allow)), Tally(rows, Decided(Block)), Tally(rows, Decided(Review)),
               top, daily);
  }

  // ---- Conservation -------------------------------------------------------------------------------------------

  function SumTotals(daily: seq<DayCount>): nat {
    if daily == [] then 0 else SumTotals(daily[..|daily| - 1]) + daily[|daily| - 1].total
  }

  function SumTallies(daily: seq<DayCount>, rows: seq<Check>): nat {
    if daily == [] then 0
    else SumTallies(daily[..|daily| - 1], rows) + Tally(rows, OnDay(daily[|daily| - 1].date))
  }

  lemma {:induction false} TotalsAreTallies(daily: seq<DayCount>, rows: seq<Check>)
    requires forall k :: 0 <= k < |daily| ==> daily[k].total == Tally(rows, OnDay(daily[k].date))
    ensures SumTotals(daily) == SumTallies(daily, rows)
  {
    if daily != [] {
      TotalsAreTallies(daily[..|daily| - 1], rows);
    }
  }

  /** One more row adds one to exactly one of distinct days. */
  lemma {:induction false} OneMoreRow(daily: seq<DayCount>, rows: seq<Check>, r: Check)
    requires r.createdAt.Some? && forall j, k :: 0 <= j < k < |daily| ==> daily[j].date < daily[k].date
    ensures SumTallies(daily, rows + [r])
            == SumTallies(daily, rows) + (if HasDay(daily, DayOf(r.createdAt.value)) then 1 else 0)
  {
    if daily != [] {
      var front, last := daily[..|daily| - 1], daily[|daily| - 1];
      OneMoreRow(front, rows, r);
      assert (rows + [r])[..|rows|] == rows;
      var date := DayOf(r.createdAt.value);
      if last.date == date {
        assert !HasDay(front, date);
        assert daily[|daily| - 1].date == date;
      } else if HasDay(front, date) {
        var k :| 0 <= k < |front| && front[k].date == date;
        assert daily[k].date == date;
      }
    }
  }

  lemma {:induction false} NoRowsNoTallies(daily: seq<DayCount>)
    ensures SumTallies(daily, []) == 0
  {
    if daily != [] {
      NoRowsNoTallies(daily[..|daily| - 1]);
    }
  }

  lemma {:induction false} TalliesCoverRows(daily: seq<DayCount>, rows: seq<Check>)
    requires forall j, k :: 0 <= j < k < |daily| ==> daily[j].date < daily[k].date
    requires forall r :: r in rows ==> r.createdAt.Some? && HasDay(daily, DayOf(r.createdAt.value))
    ensures SumTallies(daily, rows) == |rows|
  {
    if rows == [] {
      NoRowsNoTallies(daily);
    } else {
      var front, last := rows[..|rows| - 1], rows[|rows| - 1];
      assert rows == front + [last];
      TalliesCoverRows(daily, front);
      OneMoreRow(daily, front, last);
    }
  }

  /**
   Over any log: the three decisions add up to the total, each day is the sum of its parts,
   and the days add up to the total.
   */
  lemma ReportsAddUp(s: Stats, log: seq<Check>, tenant: string, since: int)
    requires IsExact(s, Selected(log, tenant, since))
    ensures s.allow + s.block + s.review == s.total
    ensures forall k :: 0 <= k < |s.daily| ==>
              s.daily[k].total == s.daily[k].allow + s.daily[k].block + s.daily[k].review
    ensures SumTotals(s.daily) == s.total
  {
    var rows := Selected(log, tenant, since);
    DecisionsPartition(rows);
    forall k | 0 <= k < |s.daily|
      ensures s.daily[k].total == s.daily[k].allow + s.daily[k].block + s.daily[k].review
    {
      DayPartition(rows, s.daily[k].date);
    }
    TotalsAreTallies(s.daily, rows);
    forall r | r in rows
      ensures HasDay(s.daily, DayOf(r.createdAt.value))
    {
      TallyZeroIff(rows, OnDay(DayOf(r.createdAt.value)));
    }
    TalliesCoverRows(s.daily, rows);
  }

  // ---- The report read off the log ---------------------------------------------------------------------------

  ghost predicate IsRecent(r: Check, tenant: string, since: int) {
    r.tenantId == tenant && r.createdAt.Some? && r.createdAt.value >= since
  }

  /** `rows` are those of the log at the positions `at`, in that order. */
  ghost predicate ArePicked(log: seq<Check>, at: seq<nat>, rows: seq<Check>) {
    && |at| == |rows| && (forall j, k :: 0 <= j < k < |at| ==> at[j] < at[k])
    && (forall k :: 0 <= k < |at| ==> at[k] < |log| && rows[k] == log[at[k]])
  }

  ghost predicate ArePositions(log: seq<Check>, tenant: string, since: int, at: seq<nat>) {
    forall i :: 0 <= i < |log| ==> (i in at <==> IsRecent(log[i], tenant, since))
  }

  lemma PickedOneMore(log: seq<Check>, tenant: string, since: int, at: seq<nat>, rows: seq<Check>)
    requires log != [] && ArePicked(log[..|log| - 1], at, rows)
    requires ArePositions(log[..|log| - 1], tenant, since, at)
    ensures var n := |log| - 1;
            if IsRecent(log[n], tenant, since)
            then ArePicked(log, at + [n], rows + [log[n]]) && ArePositions(log, tenant, since, at + [n])
            else ArePicked(log, at, rows) && ArePositions(log, tenant, since, at)
  {
    hide IsRecent;
    var n := |log| - 1;
    assert forall i :: 0 <= i < n ==> log[..n][i] == log[i];
    assert n !in at;
  }

  /** The rows are the tenant's of the period, in the order of the log. */
  lemma {:induction false} SelectedRows(log: seq<Check>, tenant: string, since: int) returns (at: seq<nat>)
    ensures ArePicked(log, at, Selected(log, tenant, since)) && ArePositions(log, tenant, since, at)
  {
    if log == [] {
      at := [];
    } else {
      hide ArePicked, ArePositions;
      var n := |log| - 1;
      at := SelectedRows(log[..n], tenant, since);
      PickedOneMore(log, tenant, since, at, Selected(log[..n], tenant, since));
      if InPeriod(log[n], tenant, since) {
        at := at + [n];
      }
    }
  }

  ghost function DecidedAs(rows: seq<Check>, d: Decision): set<int> {
    set k | 0 <= k < |rows| && rows[k].decision == d
  }

  ghost function UsesOf(rows: seq<Check>, id: string): set<int> {
    set k | 0 <= k < |rows| && rows[k].featureId == Some(id)
  }

  /** The rows from midnight to midnight, in UTC. */
  ghost function OnDate(rows: seq<Check>, date: int): set<int> {
    set k | 0 <= k < |rows| && rows[k].createdAt.Some?
            && date * 24 * 60 * 60 <= rows[k].createdAt.value < (date + 1) * 24 * 60 * 60
  }

  /** The first row that uses `a` stands before any that uses `b`. */
  ghost predicate UsedBefore(rows: seq<Check>, a: string, b: string) {
    exists i :: 0 <= i < |rows| && rows[i].featureId == Some(a)
                && forall j :: 0 <= j <= i ==> rows[j].featureId != Some(b)
  }

  lemma {:induction false} TallyIsSize(rows: seq<Check>, c: Condition)
    ensures Tally(rows, c) == |Places(rows, (r: Check) => Holds(c, r))|
  {
    if rows != [] {
      hide Holds;
      TallyIsSize(rows[..|rows| - 1], c);
      PlacesStep(rows, (r: Check) => Holds(c, r));
    }
  }

  lemma TalliesAreSizes(rows: seq<Check>)
    ensures forall d :: Tally(rows, Decided(d)) == |DecidedAs(rows, d)|
    ensures forall id :: id != "" ==> Tally(rows, Uses(id)) == |UsesOf(rows, id)|
    ensures forall date :: Tally(rows, OnDay(date)) == |OnDate(rows, date)|
    ensures forall date, d :: Tally(rows, OnDayDecided(date, d)) == |OnDate(rows, date) * DecidedAs(rows, d)|
  {
    hide Tally;
    forall d
      ensures Tally(rows, Decided(d)) == |DecidedAs(rows, d)|
    {
      TallyIsSize(rows, Decided(d));
      assert DecidedAs(rows, d) == Places(rows, (r: Check) => Holds(Decided(d), r));
    }
    forall id | id != ""
      ensures Tally(rows, Uses(id)) == |UsesOf(rows, id)|
    {
      TallyIsSize(rows, Uses(id));
      assert UsesOf(rows, id) == Places(rows, (r: Check) => Holds(Uses(id), r));
    }
    forall date
      ensures Tally(rows, OnDay(date)) == |OnDate(rows, date)|
    {
      TallyIsSize(rows, OnDay(date));
      assert OnDate(rows, date) == Places(rows, (r: Check) => Holds(OnDay(date), r));
    }
    forall date, d
      ensures Tally(rows, OnDayDecided(date, d)) == |OnDate(rows, date) * DecidedAs(rows, d)|
    {
      TallyIsSize(rows, OnDayDecided(date, d));
      assert OnDate(rows, date) * DecidedAs(rows, d)
             == Places(rows, (r: Check) => Holds(OnDayDecided(date, d), r));
    }
  }

  /** Every figure of an exact report, counted on the rows themselves. */
  lemma FiguresAreCounts(s: Stats, rows: seq<Check>)
    requires IsExact(s, rows)
    ensures s.total == |rows| && s.allow == |DecidedAs(rows, Allow)| && s.block == |DecidedAs(rows, Block)|
            && s.review == |DecidedAs(rows, Review)|
    ensures forall k :: 0 <= k < |s.topFeatures| ==>
              var f := s.topFeatures[k];
              f.featureId != "" && f.count == |UsesOf(rows, f.featureId)| > 0
    ensures forall k :: 0 <= k < |s.daily| ==>
              var d := s.daily[k];
              && d.total == |OnDate(rows, d.date)| > 0 && d.allow == |OnDate(rows, d.date) * DecidedAs(rows, Allow)|
              && d.block == |OnDate(rows, d.date) * DecidedAs(rows, Block)|
              && d.review == |OnDate(rows, d.date) * DecidedAs(rows, Review)|
    ensures forall date :: OnDate(rows, date) != {} ==> HasDay(s.daily, date)
  {
    hide Tally, Ordered, First;
    TalliesAreSizes(rows);
    forall k | 0 <= k < |s.topFeatures|
      ensures s.topFeatures[k].featureId != ""
    {
      assert s.topFeatures[k] in s.topFeatures;
      TallyZeroIff(rows, Uses(s.topFeatures[k].featureId));
    }
    assert forall k :: 0 <= k < |s.topFeatures| ==> s.topFeatures[k] in s.topFeatures;
  }

  /** One feature ranks before another by more uses, or by as many and an earlier first one. */
  ghost predicate Outranks(rows: seq<Check>, a: string, b: string) {
    || |UsesOf(rows, a)| > |UsesOf(rows, b)|
    || (|UsesOf(rows, a)| == |UsesOf(rows, b)| && UsedBefore(rows, a, b))
  }

  lemma BeforeIsOutranking(rows: seq<Check>, a: FeatureCount, b: FeatureCount)
    requires a.featureId != "" && b.featureId != "" && a.count == |UsesOf(rows, a.featureId)| > 0
    requires b.count == |UsesOf(rows, b.featureId)| > 0 && Before(a, b, ByCount(), UsePosition(rows))
    ensures Outranks(rows, a.featureId, b.featureId)
  {
    var i := First(rows, Uses(a.featureId));
    if a.count == b.count {
      var k :| k in UsesOf(rows, b.featureId);
      assert Holds(Uses(b.featureId), rows[k]);
      forall j | 0 <= j <= i
        ensures rows[j].featureId != Some(b.featureId)
      {
        assert !Holds(Uses(b.featureId), rows[j]);
      }
    }
  }

  /** The list is in ranking order, and what it leaves out is outranked by all ten it holds. */
  lemma TopIsTheRanking(s: Stats, rows: seq<Check>)
    requires IsExact(s, rows)
    ensures forall j, k :: 0 <= j < k < |s.topFeatures| ==>
              Outranks(rows, s.topFeatures[j].featureId, s.topFeatures[k].featureId)
    ensures forall id :: id != "" && UsesOf(rows, id) != {} && !Lists(s.topFeatures, id) ==>
              |s.topFeatures| == 10
              && forall k :: 0 <= k < 10 ==> Outranks(rows, s.topFeatures[k].featureId, id)
  {
    hide Tally, First, DailyIsExact;
    FiguresAreCounts(s, rows);
    TalliesAreSizes(rows);
    var top := s.topFeatures;
    forall j, k | 0 <= j < k < |top|
      ensures Outranks(rows, top[j].featureId, top[k].featureId)
    {
      BeforeIsOutranking(rows, top[j], top[k]);
    }
    forall id | id != "" && UsesOf(rows, id) != {} && !Lists(top, id)
      ensures |top| == 10 && forall k :: 0 <= k < 10 ==> Outranks(rows, top[k].featureId, id)
    {
      var left := FeatureCount(id, Tally(rows, Uses(id)));
      assert Tally(rows, Uses(id)) > 0;
      forall k | 0 <= k < 10
        ensures Outranks(rows, top[k].featureId, id)
      {
        assert top[k] in top;
        BeforeIsOutranking(rows, top[k], left);
      }
    }
  }

  // ---- The report is determined ------------------------------------------------------------------------------

  /** Where the other exact breakdown has the same day. */
  lemma IndexOfDay(a: seq<DayCount>, b: seq<DayCount>, rows: seq<Check>, k: nat) returns (i: nat)
    requires DailyIsExact(a, rows) && DailyIsExact(b, rows) && k < |a|
    ensures i < |b| && b[i].date == a[k].date
  {
    assert CountsDay(a[k], rows);
    assert HasDay(b, a[k].date);
    i :| 0 <= i < |b| && b[i].date == a[k].date;
  }

  /** A day of one exact breakdown stands no sooner in another that agrees with it so far. */
  lemma DayElsewhere(a: seq<DayCount>, b: seq<DayCount>, rows: seq<Check>, k: nat)
    requires DailyIsExact(a, rows) && DailyIsExact(b, rows) && k < |a|
    requires k <= |b| && forall m :: 0 <= m < k ==> a[m] == b[m]
    ensures k < |b| && b[k].date <= a[k].date
  {
    hide Tally, CountsDay;
    var i := IndexOfDay(a, b, rows, k);
    assert i >= k;
  }

  lemma SameDay(a: DayCount, b: DayCount, rows: seq<Check>)
    requires CountsDay(a, rows) && CountsDay(b, rows) && a.date == b.date
    ensures a == b
  {
  }

  lemma {:induction false} DailyPrefixAgrees(a: seq<DayCount>, b: seq<DayCount>, rows: seq<Check>, n: nat)
    requires DailyIsExact(a, rows) && DailyIsExact(b, rows) && n <= |a|
    ensures n <= |b| && forall m :: 0 <= m < n ==> a[m] == b[m]
  {
    hide Tally, CountsDay;
    if n > 0 {
      var k := n - 1;
      DailyPrefixAgrees(a, b, rows, k);
      DayElsewhere(a, b, rows, k);
      DayElsewhere(b, a, rows, k);
      SameDay(a[k], b[k], rows);
    }
  }

  /** The rows determine the daily breakdown: two exact ones are equal. */
  lemma DailyIsDetermined(a: seq<DayCount>, b: seq<DayCount>, rows: seq<Check>)
    requires DailyIsExact(a, rows) && DailyIsExact(b, rows)
    ensures a == b
  {
    DailyPrefixAgrees(a, b, rows, |a|);
    DailyPrefixAgrees(b, a, rows, |b|);
  }

  ghost predicate Earlier(a: FeatureCount, b: FeatureCount, rows: seq<Check>) {
    Before(a, b, ByCount(), UsePosition(rows))
  }

  lemma ListedNoSooner(a: seq<FeatureCount>, b: seq<FeatureCount>, rows: seq<Check>, k: nat, i: nat)
    requires Ordered(a, ByCount(), UsePosition(rows)) && Ordered(b, ByCount(), UsePosition(rows))
    requires k < |a| && k <= |b| && forall m :: 0 <= m < k ==> a[m] == b[m]
    requires i < |b| && b[i] == a[k]
    ensures k <= i && (b[k] == a[k] || Earlier(b[k], a[k], rows))
  {
    hide First;
    assert !Earlier(a[k], a[k], rows);
  }

  /** An entry of one exact ranking is listed by the other no sooner, or the other is full before it. */
  lemma RankedElsewhere(a: seq<FeatureCount>, b: seq<FeatureCount>, rows: seq<Check>, k: nat)
    requires TopIsExact(a, rows) && TopIsExact(b, rows) && k < |a|
    requires k <= |b| && forall m :: 0 <= m < k ==> a[m] == b[m]
    ensures k < |b| && (b[k] == a[k] || Earlier(b[k], a[k], rows))
  {
    hide First, Tally, Before, Ordered;
    var f := a[k];
    assert f in a;
    if Lists(b, f.featureId) {
      var i :| 0 <= i < |b| && b[i].featureId == f.featureId;
      assert b[i] in b;
      ListedNoSooner(a, b, rows, k, i);
    } else {
      assert b[k] in b;
    }
  }

  lemma {:induction false} TopPrefixAgrees(a: seq<FeatureCount>, b: seq<FeatureCount>, rows: seq<Check>, n: nat)
    requires TopIsExact(a, rows) && TopIsExact(b, rows) && n <= |a|
    ensures n <= |b| && forall m :: 0 <= m < n ==> a[m] == b[m]
  {
    hide TopIsExact, Tally, First, Ordered;
    if n > 0 {
      TopPrefixAgrees(a, b, rows, n - 1);
      RankedElsewhere(a, b, rows, n - 1);
      RankedElsewhere(b, a, rows, n - 1);
    }
  }

  /** The rows determine the ranking, ties included: two exact ones are equal. */
  lemma TopIsDetermined(a: seq<FeatureCount>, b: seq<FeatureCount>, rows: seq<Check>)
    requires TopIsExact(a, rows) && TopIsExact(b, rows)
    ensures a == b
  {
    TopPrefixAgrees(a, b, rows, |a|);
    TopPrefixAgrees(b, a, rows, |b|);
  }
}
