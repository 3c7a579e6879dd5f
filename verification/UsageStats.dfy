/**
 Usage statistics over the policy-check log (app/services/policy_service.py:142-187).

 Dictionaries keep insertion order, so both are sequences here; `StableSort` is Python's
 `sorted`.  A day is the number of whole days since the epoch, which orders as its ISO date does.
 */
module UsageStats {
  import opened Common
  import opened PolicyChecks

  const DAY := 86400
  const TOP_FEATURES := 10

  datatype FeatureCount = FeatureCount(featureId: string, count: nat)

  datatype DayCount = DayCount(date: int, total: nat, allow: nat, block: nat, review: nat)

  datatype Stats = Stats(
    total: nat, allow: nat, block: nat, review: nat, topFeatures: seq<FeatureCount>, daily: seq<DayCount>)

  // ---- Rows and how many satisfy a condition ----------------------------------------------------------------

  datatype Condition = Decided(decision: Decision) | OnDay(date: int) | OnDayDecided(day: int, verdict: Decision)
                     | Uses(featureId: string)

  function DayOf(instant: int): int {
    instant / DAY
  }

  predicate Holds(c: Condition, r: Check) {
    match c
    case Decided(d) => r.decision == d
    case OnDay(date) => r.createdAt.Some? && DayOf(r.createdAt.value) == date
    case OnDayDecided(date, d) => r.createdAt.Some? && DayOf(r.createdAt.value) == date && r.decision == d
    case Uses(id) => id != "" && r.featureId == Some(id)
  }

  function Tally(rows: seq<Check>, c: Condition): nat {
    if rows == [] then 0
    else Tally(rows[..|rows| - 1], c) + (if Holds(c, rows[|rows| - 1]) then 1 else 0)
  }

  /** The position of the first row satisfying the condition, or the number of rows. */
  function First(rows: seq<Check>, c: Condition): (k: nat)
    ensures k <= |rows|
    ensures k < |rows| ==> Holds(c, rows[k])
    ensures forall j :: 0 <= j < k ==> !Holds(c, rows[j])
  {
    if rows == [] then 0
    else
      var k := First(rows[..|rows| - 1], c);
      if k < |rows| - 1 || Holds(c, rows[|rows| - 1]) then k else |rows|
  }

  predicate InPeriod(r: Check, tenant: string, since: int) {
    r.tenantId == tenant && r.createdAt.Some? && r.createdAt.value >= since
  }

  /** The query: a null instant satisfies no comparison. */
  function Selected(log: seq<Check>, tenant: string, since: int): (rows: seq<Check>)
    ensures forall r :: r in rows <==> r in log && InPeriod(r, tenant, since)
  {
    if log == [] then []
    else Selected(log[..|log| - 1], tenant, since)
         + (if InPeriod(log[|log| - 1], tenant, since) then [log[|log| - 1]] else [])
  }

  // ---- Stable sorting ------------------------------------------------------------------------------------------

  function Insert<T>(s: seq<T>, x: T, key: T -> int): seq<T> {
    if s == [] || key(s[|s| - 1]) <= key(x) then s + [x]
    else Insert(s[..|s| - 1], x, key) + [s[|s| - 1]]
  }

  function StableSort<T>(s: seq<T>, key: T -> int): seq<T> {
    if s == [] then [] else Insert(StableSort(s[..|s| - 1], key), s[|s| - 1], key)
  }

  predicate Before<T>(a: T, b: T, key: T -> int, position: T -> int) {
    key(a) < key(b) || (key(a) == key(b) && position(a) < position(b))
  }

  /** Ascending by key, and by position among equal keys. */
  ghost predicate Ordered<T(!new)>(s: seq<T>, key: T -> int, position: T -> int) {
    forall i, j :: 0 <= i < j < |s| ==> Before(s[i], s[j], key, position)
  }

  ghost predicate Ascending<T(!new)>(s: seq<T>, position: T -> int) {
    forall i, j :: 0 <= i < j < |s| ==> position(s[i]) < position(s[j])
  }

  lemma AppendKeepsOrder<T(!new)>(s: seq<T>, x: T, key: T -> int, position: T -> int)
    requires Ordered(s, key, position) && forall y :: y in s ==> Before(y, x, key, position)
    ensures Ordered(s + [x], key, position)
  {
    hide Before;
    forall i, j | 0 <= i < j < |s + [x]|
      ensures Before((s + [x])[i], (s + [x])[j], key, position)
    {
      assert i < |s| && s[i] in s;
    }
  }

  lemma {:induction false} InsertKeeps<T(!new)>(s: seq<T>, x: T, key: T -> int, position: T -> int)
    requires Ordered(s, key, position) && forall y :: y in s ==> position(y) < position(x)
    ensures Ordered(Insert(s, x, key), key, position)
    ensures forall y :: y in Insert(s, x, key) <==> y in s || y == x
    ensures |Insert(s, x, key)| == |s| + 1
  {
    if s == [] {
    } else {
      var front, last := s[..|s| - 1], s[|s| - 1];
      assert s == front + [last];
      assert forall y :: y in front ==> Before(y, last, key, position);
      if key(last) <= key(x) {
        assert forall y :: y in s ==> Before(y, x, key, position);
        AppendKeepsOrder(s, x, key, position);
      } else {
        InsertKeeps(front, x, key, position);
        AppendKeepsOrder(Insert(front, x, key), last, key, position);
      }
    }
  }

  lemma {:induction false} SortIsStable<T(!new)>(s: seq<T>, key: T -> int, position: T -> int)
    requires Ascending(s, position)
    ensures Ordered(StableSort(s, key), key, position)
    ensures forall y :: y in StableSort(s, key) <==> y in s
    ensures |StableSort(s, key)| == |s|
  {
    if s != [] {
      var front, last := s[..|s| - 1], s[|s| - 1];
      assert s == front + [last];
      SortIsStable(front, key, position);
      InsertKeeps(StableSort(front, key), last, key, position);
    }
  }

  // ---- Tallies -------------------------------------------------------------------------------------------------

  lemma TallyStep(rows: seq<Check>, i: nat, c: Condition)
    requires i < |rows|
    ensures Tally(rows[..i + 1], c) == Tally(rows[..i], c) + (if Holds(c, rows[i]) then 1 else 0)
  {
    assert rows[..i + 1][..i] == rows[..i];
  }

  lemma {:induction false} TallyZeroIff(rows: seq<Check>, c: Condition)
    ensures Tally(rows, c) == 0 <==> forall r :: r in rows ==> !Holds(c, r)
  {
    if rows != [] {
      TallyZeroIff(rows[..|rows| - 1], c);
      assert rows == rows[..|rows| - 1] + [rows[|rows| - 1]];
    }
  }

  /** A row whose condition no earlier row met is the first to meet it. */
  lemma NewIsFirst(rows: seq<Check>, i: nat, c: Condition)
    requires i < |rows| && Holds(c, rows[i])
    ensures First(rows, c) <= i
    ensures Tally(rows[..i], c) == 0 ==> First(rows, c) == i
  {
    TallyZeroIff(rows[..i], c);
    assert forall j :: 0 <= j < i ==> rows[j] in rows[..i];
  }

  lemma {:induction false} DecisionsPartition(rows: seq<Check>)
    ensures Tally(rows, Decided(Allow)) + Tally(rows, Decided(Block)) + Tally(rows, Decided(Review)) == |rows|
  {
    if rows != [] {
      DecisionsPartition(rows[..|rows| - 1]);
    }
  }

  lemma {:induction false} DayPartition(rows: seq<Check>, date: int)
    ensures Tally(rows, OnDay(date)) == Tally(rows, OnDayDecided(date, Allow))
                                        + Tally(rows, OnDayDecided(date, Block))
                                        + Tally(rows, OnDayDecided(date, Review))
  {
    if rows != [] {
      DayPartition(rows[..|rows| - 1], date);
    }
  }

  // ---- The two dictionaries ------------------------------------------------------------------------------------

  /** A dictionary's keys in insertion order are those of the map, first met first. */
  ghost predicate KeysByFirst<K(!new)>(order: seq<K>, keys: set<K>, position: K -> int) {
    && (forall k :: k in order <==> k in keys)
    && Ascending(order, position)
  }

  function FirstUse(rows: seq<Check>): string -> int {
    id => First(rows, Uses(id))
  }

  function FirstOn(rows: seq<Check>): int -> int {
    date => First(rows, OnDay(date))
  }

  ghost predicate CountsFeatures(counts: map<string, nat>, rows: seq<Check>) {
    && (forall id :: id in counts <==> Tally(rows, Uses(id)) > 0)
    && (forall id :: id in counts ==> counts[id] == Tally(rows, Uses(id)))
  }

  ghost predicate CountsDay(d: DayCount, rows: seq<Check>) {
    && d.total == Tally(rows, OnDay(d.date))
    && d.allow == Tally(rows, OnDayDecided(d.date, Allow))
    && d.block == Tally(rows, OnDayDecided(d.date, Block))
    && d.review == Tally(rows, OnDayDecided(d.date, Review))
  }

  ghost predicate CountsDays(days: map<int, DayCount>, rows: seq<Check>) {
    && (forall date :: date in days <==> Tally(rows, OnDay(date)) > 0)
    && (forall date :: date in days ==> days[date].date == date && CountsDay(days[date], rows))
  }

  // ---- The counting loops -----------------------------------------------------------------------------------

  /** What holds after the first `i` rows: exact counts, keys in the order of their first rows. */
  ghost predicate FeaturesUpTo(rows: seq<Check>, i: nat, order: seq<string>, counts: map<string, nat>)
    requires i <= |rows|
  {
    && CountsFeatures(counts, rows[..i]) && KeysByFirst(order, counts.Keys, FirstUse(rows))
    && forall id :: id in order ==> First(rows, Uses(id)) < i
  }

  ghost predicate DaysUpTo(rows: seq<Check>, i: nat, order: seq<int>, days: map<int, DayCount>)
    requires i <= |rows|
  {
    && CountsDays(days, rows[..i]) && KeysByFirst(order, days.Keys, FirstOn(rows))
    && forall date :: date in order ==> First(rows, OnDay(date)) < i
  }

  /** Appending a key no earlier than any other keeps the order of first rows. */
  lemma KeyAppended<K(!new)>(order: seq<K>, keys: set<K>, position: K -> int, k: K)
    requires KeysByFirst(order, keys, position) && forall o :: o in order ==> position(o) < position(k)
    ensures KeysByFirst(order + [k], keys + {k}, position)
  {
    var after := order + [k];
    forall i, j | 0 <= i < j < |after|
      ensures position(after[i]) < position(after[j])
    {
      assert after[i] == order[i] && order[i] in order;
    }
  }

  lemma CountsFeaturesStep(rows: seq<Check>, i: nat, counts: map<string, nat>)
    requires i < |rows| && CountsFeatures(counts, rows[..i])
    ensures !Truthy(rows[i].featureId) ==> CountsFeatures(counts, rows[..i + 1])
    ensures Truthy(rows[i].featureId) ==>
              var id := rows[i].featureId.value;
              CountsFeatures(counts[id := (if id in counts then counts[id] else 0) + 1], rows[..i + 1])
  {
    hide Tally;
    forall id
      ensures Tally(rows[..i + 1], Uses(id)) == Tally(rows[..i], Uses(id)) + (if Holds(Uses(id), rows[i]) then 1 else 0)
    {
      TallyStep(rows, i, Uses(id));
    }
  }

  lemma FeatureStep(rows: seq<Check>, i: nat, order: seq<string>, counts: map<string, nat>)
    requires i < |rows| && FeaturesUpTo(rows, i, order, counts)
    ensures !Truthy(rows[i].featureId) ==> FeaturesUpTo(rows, i + 1, order, counts)
    ensures Truthy(rows[i].featureId) ==>
              var id := rows[i].featureId.value;
              FeaturesUpTo(rows, i + 1, if id in counts then order else order + [id],
                           counts[id := (if id in counts then counts[id] else 0) + 1])
  {
    hide Tally, First;
    CountsFeaturesStep(rows, i, counts);
    if Truthy(rows[i].featureId) {
      var id := rows[i].featureId.value;
      var after := counts[id := (if id in counts then counts[id] else 0) + 1];
      NewIsFirst(rows, i, Uses(id));
      assert id in counts || First(rows, Uses(id)) == i;
      if id in counts {
        assert after.Keys == counts.Keys;
      } else {
        assert after.Keys == counts.Keys + {id};
        KeyAppended(order, counts.Keys, FirstUse(rows), id);
      }
    }
  }

  function Added(d: DayCount, decision: Decision): (r: DayCount)
    ensures r.date == d.date && r.total == d.total
  {
    match decision
    case Allow => d.(allow := d.allow + 1)
    case Block => d.(block := d.block + 1)
    case Review => d.(review := d.review + 1)
  }

  lemma DayRowStep(rows: seq<Check>, i: nat, d: DayCount)
    requires i < |rows| && rows[i].createdAt.Some? && CountsDay(d, rows[..i])
    ensures CountsDay(if d.date == DayOf(rows[i].createdAt.value) then Added(d.(total := d.total + 1), rows[i].decision)
                      else d, rows[..i + 1])
  {
    hide Tally;
    TallyStep(rows, i, OnDay(d.date));
    TallyStep(rows, i, OnDayDecided(d.date, Allow));
    TallyStep(rows, i, OnDayDecided(d.date, Block));
    TallyStep(rows, i, OnDayDecided(d.date, Review));
  }

  function DayOr(days: map<int, DayCount>, date: int): DayCount {
    if date in days then days[date] else DayCount(date, 0, 0, 0, 0)
  }

  lemma CountsDaysStep(rows: seq<Check>, i: nat, days: map<int, DayCount>)
    requires i < |rows| && rows[i].createdAt.Some? && CountsDays(days, rows[..i])
    ensures var date := DayOf(rows[i].createdAt.value);
            var day := DayOr(days, date);
            CountsDays(days[date := Added(day.(total := day.total + 1), rows[i].decision)], rows[..i + 1])
  {
    hide DayOf, Added;
    var date := DayOf(rows[i].createdAt.value);
    var day := DayOr(days, date);
    var after := days[date := Added(day.(total := day.total + 1), rows[i].decision)];
    assert CountsDay(day, rows[..i]) by {
      DayPartition(rows[..i], date);
    }
    forall d
      ensures d in after <==> Tally(rows[..i + 1], OnDay(d)) > 0
    {
      TallyStep(rows, i, OnDay(d));
    }
    forall d | d in after
      ensures after[d].date == d && CountsDay(after[d], rows[..i + 1])
    {
      DayRowStep(rows, i, DayOr(days, d));
    }
  }

  lemma DayStep(rows: seq<Check>, i: nat, order: seq<int>, days: map<int, DayCount>)
    requires i < |rows| && rows[i].createdAt.Some? && DaysUpTo(rows, i, order, days)
    ensures var date := DayOf(rows[i].createdAt.value);
            var day := DayOr(days, date);
            DaysUpTo(rows, i + 1, if date in days then order else order + [date],
                     days[date := Added(day.(total := day.total + 1), rows[i].decision)])
  {
    hide DayOf, Tally, First, Added, CountsDay;
    var date := DayOf(rows[i].createdAt.value);
    var day := DayOr(days, date);
    var after := days[date := Added(day.(total := day.total + 1), rows[i].decision)];
    CountsDaysStep(rows, i, days);
    NewIsFirst(rows, i, OnDay(date));
    assert date in days || First(rows, OnDay(date)) == i;
    if date in days {
      assert after.Keys == days.Keys;
    } else {
      assert after.Keys == days.Keys + {date};
      KeyAppended(order, days.Keys, FirstOn(rows), date);
    }
  }

  method CountFeatures(rows: seq<Check>) returns (order: seq<string>, counts: map<string, nat>)
    ensures CountsFeatures(counts, rows) && KeysByFirst(order, counts.Keys, FirstUse(rows))
  {
    order, counts := [], map[];
    var i := 0;
    while i < |rows|
      invariant i <= |rows|
      invariant FeaturesUpTo(rows, i, order, counts)
    {
      hide FeaturesUpTo;
      FeatureStep(rows, i, order, counts);
      if Truthy(rows[i].featureId) {
        var id := rows[i].featureId.value;
        if id !in counts {
          order := order + [id];
        }
        counts := counts[id := (if id in counts then counts[id] else 0) + 1];
      }
      i := i + 1;
    }
    assert rows[..i] == rows;
  }

  lemma DaysOfNone(rows: seq<Check>)
    ensures DaysUpTo(rows, 0, [], map[])
  {
  }

  lemma DaysOfAll(rows: seq<Check>, order: seq<int>, days: map<int, DayCount>)
    requires DaysUpTo(rows, |rows|, order, days)
    ensures CountsDays(days, rows) && KeysByFirst(order, days.Keys, FirstOn(rows))
  {
    assert rows[..|rows|] == rows;
  }

  method CountDays(rows: seq<Check>) returns (order: seq<int>, days: map<int, DayCount>)
    requires forall r :: r in rows ==> r.createdAt.Some?
    ensures CountsDays(days, rows) && KeysByFirst(order, days.Keys, FirstOn(rows))
  {
    hide DaysUpTo, Added, CountsDays, KeysByFirst, DayOr;
    order, days := [], map[];
    DaysOfNone(rows);
    var i := 0;
    while i < |rows|
      invariant i <= |rows|
      invariant DaysUpTo(rows, i, order, days)
    {
      assert rows[i] in rows;
      DayStep(rows, i, order, days);
      var date := DayOf(rows[i].createdAt.value);
      var day := DayOr(days, date);
      if date !in days {
        order := order + [date];
      }
      days := days[date := Added(day.(total := day.total + 1), rows[i].decision)];
      i := i + 1;
    }
    DaysOfAll(rows, order, days);
  }
}
