/**
 Signal and topic detection over crawled pages
 (app/services/website_scanner_service.py:955-990 and 992-1036): nested loops with
 skip-if-seen and early break.

 `hit(pattern, text)` stands for the regular-expression search.
 */
module SignalScan {
  import opened Common

  datatype Page = Page(url: string, text: string)

  /** A category (or topic) and its patterns, in dictionary order. */
  datatype Entry = Entry(name: string, patterns: seq<string>)

  /** `page` is the position of the page the signal was found on. */
  datatype Signal = Signal(category: string, pattern: string, page: nat, url: string)

  type Search = (string, string) -> bool

  ghost predicate DistinctNames(table: seq<Entry>) {
    forall i, j :: 0 <= i < j < |table| ==> table[i].name != table[j].name
  }

  predicate Reported(signals: seq<Signal>, category: string, pattern: string) {
    exists k :: 0 <= k < |signals| && signals[k].category == category && signals[k].pattern == pattern
  }

  /** The first matching pattern that no earlier signal of the category carries. */
  function FirstNew(patterns: seq<string>, category: string, text: string, hit: Search,
                    signals: seq<Signal>): (p: Option<string>)
    ensures p.Some? ==> p.value in patterns && hit(p.value, text) && !Reported(signals, category, p.value)
    ensures p.None? <==> forall q :: q in patterns && hit(q, text) ==> Reported(signals, category, q)
  {
    if patterns == [] then None
    else if hit(patterns[0], text) && !Reported(signals, category, patterns[0]) then Some(patterns[0])
    else FirstNew(patterns[1..], category, text, hit, signals)
  }

  /** The signals after the first `k` categories have looked at page number `n`. */
  function ScanPage(table: seq<Entry>, k: nat, page: Page, n: nat, hit: Search,
                    before: seq<Signal>): (after: seq<Signal>)
    requires k <= |table|
  {
    if k == 0 then before else
    var signals := ScanPage(table, k - 1, page, n, hit, before);
    var e := table[k - 1];
    match FirstNew(e.patterns, e.name, page.text, hit, signals)
    case Some(p) => signals + [Signal(e.name, p, n, page.url)]
    case None => signals
  }

  function Scan(table: seq<Entry>, pages: seq<Page>, hit: Search): seq<Signal> {
    if pages == [] then [] else
    var n := |pages| - 1;
    ScanPage(table, |table|, pages[n], n, hit, Scan(table, pages[..n], hit))
  }

  ghost predicate SeenMatches(seen: set<(string, string)>, signals: seq<Signal>) {
    forall c, p :: (c, p) in seen <==> Reported(signals, c, p)
  }

  lemma ReportedAppend(signals: seq<Signal>, s: Signal, c: string, p: string)
    ensures Reported(signals + [s], c, p) <==> Reported(signals, c, p) || (s.category == c && s.pattern == p)
  {
    var all := signals + [s];
    if Reported(signals, c, p) {
      var k :| 0 <= k < |signals| && signals[k].category == c && signals[k].pattern == p;
      assert all[k] == signals[k];
    }
    if s.category == c && s.pattern == p {
      assert all[|signals|] == s;
    }
  }

  lemma NothingSeen()
    ensures SeenMatches({}, [])
  {
  }

  /** The innermost loop: skips misses and seen pairs, reports the first new hit and stops. */
  method ReportFirstNew(e: Entry, page: Page, n: nat, hit: Search, before: seq<Signal>, seenBefore: set<(string,
                        string)>)
    returns (signals: seq<Signal>, seen: set<(string, string)>)
    requires SeenMatches(seenBefore, before)
    ensures signals == match FirstNew(e.patterns, e.name, page.text, hit, before)
                       case Some(p) => before + [Signal(e.name, p, n, page.url)]
                       case None => before
    ensures SeenMatches(seen, signals)
  {
    signals, seen := before, seenBefore;
    for j := 0 to |e.patterns|
      invariant signals == before && seen == seenBefore
      invariant FirstNew(e.patterns, e.name, page.text, hit, before)
                == FirstNew(e.patterns[j..], e.name, page.text, hit, before)
    {
      var pattern := e.patterns[j];
      if !hit(pattern, page.text) {
        continue;
      }
      if (e.name, pattern) in seen {
        continue;
      }
      seen := seen + {(e.name, pattern)};
      var signal := Signal(e.name, pattern, n, page.url);
      forall c, p
        ensures Reported(before + [signal], c, p) <==>
                  Reported(before, c, p) || (signal.category == c && signal.pattern == p)
      {
        ReportedAppend(before, signal, c, p);
      }
      signals := signals + [signal];
      break;
    }
  }

  /** The loop over the categories of one page. */
  method DetectOnPage(table: seq<Entry>, page: Page, n: nat, hit: Search, before: seq<Signal>, seenBefore: set<(string,
                      string)>)
    returns (signals: seq<Signal>, seen: set<(string, string)>)
    requires SeenMatches(seenBefore, before)
    ensures signals == ScanPage(table, |table|, page, n, hit, before)
    ensures SeenMatches(seen, signals)
  {
    hide FirstNew, SeenMatches;
    signals, seen := before, seenBefore;
    for k := 0 to |table|
      invariant signals == ScanPage(table, k, page, n, hit, before)
      invariant SeenMatches(seen, signals)
    {
      signals, seen := ReportFirstNew(table[k], page, n, hit, signals, seen);
    }
  }

  method DetectSignals(table: seq<Entry>, pages: seq<Page>, hit: Search)
    returns (signals: seq<Signal>, evidenceRefs: seq<Signal>)
    ensures signals == Scan(table, pages, hit)
    ensures evidenceRefs == if |signals| <= 20 then signals else signals[..20]
  {
    hide ScanPage, SeenMatches;
    NothingSeen();
    signals := [];
    var seen: set<(string, string)> := {};
    for n := 0 to |pages|
      invariant signals == Scan(table, pages[..n], hit)
      invariant SeenMatches(seen, signals)
    {
      assert pages[..n + 1][..n] == pages[..n];
      signals, seen := DetectOnPage(table, pages[n], n, hit, signals, seen);
    }
    assert pages[..|pages|] == pages;
    evidenceRefs := if |signals| <= 20 then signals else signals[..20];
  }

  // ---- What the signals say ---------------------------------------------------------------------

  ghost predicate IsHit(table: seq<Entry>, pages: seq<Page>, hit: Search, s: Signal) {
    && s.page < |pages| && s.url == pages[s.page].url && hit(s.pattern, pages[s.page].text)
    && exists e :: e in table && e.name == s.category && s.pattern in e.patterns
  }

  ghost predicate NoPairTwice(signals: seq<Signal>) {
    forall i, j :: 0 <= i < j < |signals| ==>
      signals[i].category != signals[j].category || signals[i].pattern != signals[j].pattern
  }

  ghost predicate OnePerPageAndCategory(signals: seq<Signal>) {
    forall i, j :: 0 <= i < j < |signals| ==>
      signals[i].category != signals[j].category || signals[i].page != signals[j].page
  }

  lemma SignalAppended(signals: seq<Signal>, s: Signal)
    requires NoPairTwice(signals) && OnePerPageAndCategory(signals)
    requires !Reported(signals, s.category, s.pattern)
    requires forall t :: t in signals && t.page == s.page ==> t.category != s.category
    ensures NoPairTwice(signals + [s]) && OnePerPageAndCategory(signals + [s])
  {
    assert forall i :: 0 <= i < |signals| ==> signals[i] in signals;
  }

  lemma {:induction false} ScanPageIsSound(table: seq<Entry>, k: nat, pages: seq<Page>, hit: Search,
                                           before: seq<Signal>)
    requires k <= |table| && DistinctNames(table) && pages != []
    requires NoPairTwice(before) && OnePerPageAndCategory(before)
    requires forall s :: s in before ==> s.page < |pages| - 1 && IsHit(table, pages, hit, s)
    ensures var after := ScanPage(table, k, pages[|pages| - 1], |pages| - 1, hit, before);
            && NoPairTwice(after) && OnePerPageAndCategory(after)
            && (forall s :: s in after ==> IsHit(table, pages, hit, s))
            && (forall s :: s in after && s.page == |pages| - 1 ==> exists i ::
                 0 <= i < k && table[i].name == s.category)
  {
    if k > 0 {
      var n := |pages| - 1;
      ScanPageIsSound(table, k - 1, pages, hit, before);
      var signals := ScanPage(table, k - 1, pages[n], n, hit, before);
      var e := table[k - 1];
      var found := FirstNew(e.patterns, e.name, pages[n].text, hit, signals);
      if found.Some? {
        var s := Signal(e.name, found.value, n, pages[n].url);
        assert forall t :: t in signals && t.page == n ==> t.category != e.name;
        SignalAppended(signals, s);
        assert IsHit(table, pages, hit, s);
      }
    }
  }

  /** Every signal is a real match, no pair is reported twice, and a page gives a category one signal at most. */
  lemma {:induction false} SignalsAreSound(table: seq<Entry>, pages: seq<Page>, hit: Search)
    requires DistinctNames(table)
    ensures var signals := Scan(table, pages, hit);
            NoPairTwice(signals) && OnePerPageAndCategory(signals) && forall s ::
              s in signals ==> IsHit(table, pages, hit, s)
  {
    if pages != [] {
      var n := |pages| - 1;
      SignalsAreSound(table, pages[..n], hit);
      ScanPageIsSound(table, |table|, pages, hit, Scan(table, pages[..n], hit));
    }
  }

  /** By page, and on a page by the table's order of categories. */
  ghost predicate StandsBefore(table: seq<Entry>, a: Signal, b: Signal) {
    || a.page < b.page
    || (a.page == b.page && exists i, j :: 0 <= i < j < |table| && table[i].name == a.category
                                           && table[j].name == b.category)
  }

  ghost predicate InOrder(table: seq<Entry>, signals: seq<Signal>) {
    forall j, k :: 0 <= j < k < |signals| ==> StandsBefore(table, signals[j], signals[k])
  }

  lemma {:induction false} PagesAreMet(table: seq<Entry>, k: nat, page: Page, n: nat, hit: Search, before: seq<Signal>)
    requires k <= |table| && forall s :: s in before ==> s.page <= n
    ensures forall s :: s in ScanPage(table, k, page, n, hit, before) ==> s.page <= n
  {
    if k > 0 {
      PagesAreMet(table, k - 1, page, n, hit, before);
    }
  }

  lemma {:induction false} ScanPageIsInOrder(table: seq<Entry>, k: nat, pages: seq<Page>, hit: Search,
                                             before: seq<Signal>)
    requires k <= |table| && DistinctNames(table) && pages != []
    requires NoPairTwice(before) && OnePerPageAndCategory(before) && InOrder(table, before)
    requires forall s :: s in before ==> s.page < |pages| - 1 && IsHit(table, pages, hit, s)
    ensures InOrder(table, ScanPage(table, k, pages[|pages| - 1], |pages| - 1, hit, before))
  {
    hide NoPairTwice, OnePerPageAndCategory, FirstNew, IsHit;
    if k > 0 {
      var n := |pages| - 1;
      ScanPageIsInOrder(table, k - 1, pages, hit, before);
      ScanPageIsSound(table, k - 1, pages, hit, before);
      PagesAreMet(table, k - 1, pages[n], n, hit, before);
      var signals := ScanPage(table, k - 1, pages[n], n, hit, before);
      assert forall j :: 0 <= j < |signals| ==> signals[j] in signals;
    }
  }

  /** Signals come page by page, and on a page in the order of the categories. */
  lemma {:induction false} SignalsAreInOrder(table: seq<Entry>, pages: seq<Page>, hit: Search)
    requires DistinctNames(table)
    ensures InOrder(table, Scan(table, pages, hit))
  {
    if pages != [] {
      var n := |pages| - 1;
      SignalsAreInOrder(table, pages[..n], hit);
      SignalsAreSound(table, pages[..n], hit);
      ScanPageIsInOrder(table, |table|, pages, hit, Scan(table, pages[..n], hit));
    }
  }

  ghost predicate CategoryReported(signals: seq<Signal>, category: string) {
    exists s :: s in signals && s.category == category
  }

  /** The category has a signal on page `n`, or the pattern was taken on an earlier one. */
  ghost predicate Covers(signals: seq<Signal>, category: string, n: nat, p: string) {
    exists s :: s in signals && s.category == category && (s.page == n || (s.page < n && s.pattern == p))
  }

  lemma ReportedIsCovered(signals: seq<Signal>, c: string, n: nat, p: string)
    requires Reported(signals, c, p) && forall s :: s in signals ==> s.page <= n
    ensures Covers(signals, c, n, p)
  {
    var k :| 0 <= k < |signals| && signals[k].category == c && signals[k].pattern == p;
    assert signals[k] in signals;
  }

  lemma {:induction false} ScanPageReportsHits(table: seq<Entry>, k: nat, page: Page, n: nat, hit: Search,
                                               before: seq<Signal>, i: nat, p: string)
    requires i < k <= |table| && p in table[i].patterns && hit(p, page.text) && forall s :: s in before ==> s.page <= n
    ensures Covers(ScanPage(table, k, page, n, hit, before), table[i].name, n, p)
  {
    var signals := ScanPage(table, k - 1, page, n, hit, before);
    var after := ScanPage(table, k, page, n, hit, before);
    if i == k - 1 {
      var found := FirstNew(table[i].patterns, table[i].name, page.text, hit, signals);
      if found.None? {
        PagesAreMet(table, k - 1, page, n, hit, before);
        ReportedIsCovered(signals, table[i].name, n, p);
      } else {
        assert after[|signals|].category == table[i].name && after[|signals|].page == n;
      }
    } else {
      ScanPageReportsHits(table, k - 1, page, n, hit, before, i, p);
      var s :| s in signals && s.category == table[i].name && (s.page == n || (s.page < n && s.pattern == p));
      assert s in after;
    }
  }

  lemma {:induction false} ScanPageKeepsCategories(table: seq<Entry>, k: nat, page: Page, n: nat, hit: Search,
                                                   before: seq<Signal>, s: Signal)
    requires k <= |table| && s in before
    ensures s in ScanPage(table, k, page, n, hit, before)
  {
    if k > 0 {
      ScanPageKeepsCategories(table, k - 1, page, n, hit, before, s);
    }
  }

  /** No hit is lost: its category has a signal on that very page unless an earlier page has the pattern. */
  lemma {:induction false} HitsAreReported(table: seq<Entry>, pages: seq<Page>, hit: Search, n: nat, i: nat,
                                           p: string)
    requires DistinctNames(table)
    requires n < |pages| && i < |table| && p in table[i].patterns && hit(p, pages[n].text)
    ensures Covers(Scan(table, pages, hit), table[i].name, n, p)
    decreases |pages|
  {
    var last := |pages| - 1;
    var before := Scan(table, pages[..last], hit);
    if n == last {
      SignalsAreSound(table, pages[..last], hit);
      ScanPageReportsHits(table, |table|, pages[n], n, hit, before, i, p);
    } else {
      HitsAreReported(table, pages[..last], hit, n, i, p);
      var s :| s in before && s.category == table[i].name && (s.page == n || (s.page < n && s.pattern == p));
      ScanPageKeepsCategories(table, |table|, pages[last], last, hit, before, s);
    }
  }

  ghost predicate SkipsTo(patterns: seq<string>, q: nat, category: string, text: string, hit: Search,
                          earlier: seq<Signal>)
    requires q <= |patterns|
  {
    forall j :: 0 <= j < q && hit(patterns[j], text) ==>
                  exists s :: s in earlier && s.category == category && s.pattern == patterns[j]
  }

  /** The first pattern of the signal's category that is found there and no earlier signal of it carries. */
  ghost predicate IsFirstNew(table: seq<Entry>, text: string, hit: Search, earlier: seq<Signal>, s: Signal) {
    exists i, q :: 0 <= i < |table| && table[i].name == s.category && 0 <= q < |table[i].patterns|
                   && table[i].patterns[q] == s.pattern && SkipsTo(table[i].patterns, q, s.category, text, hit, earlier)
  }

  lemma {:induction false} FirstNewIsFirst(patterns: seq<string>, category: string, text: string, hit: Search,
                                           signals: seq<Signal>) returns (q: nat)
    requires FirstNew(patterns, category, text, hit, signals).Some?
    ensures q < |patterns| && patterns[q] == FirstNew(patterns, category, text, hit, signals).value
    ensures SkipsTo(patterns, q, category, text, hit, signals)
  {
    if hit(patterns[0], text) && !Reported(signals, category, patterns[0]) {
      q := 0;
    } else {
      var rest := FirstNewIsFirst(patterns[1..], category, text, hit, signals);
      q := rest + 1;
      forall j | 0 <= j < q && hit(patterns[j], text)
        ensures exists s :: s in signals && s.category == category && s.pattern == patterns[j]
      {
        if j == 0 {
          var k :| 0 <= k < |signals| && signals[k].category == category && signals[k].pattern == patterns[0];
          assert signals[k] in signals;
        } else {
          assert patterns[1..][j - 1] == patterns[j];
        }
      }
    }
  }

  ghost predicate AllAreFirstNew(table: seq<Entry>, pages: seq<Page>, hit: Search, signals: seq<Signal>) {
    forall k :: 0 <= k < |signals| ==>
      signals[k].page < |pages| && IsFirstNew(table, pages[signals[k].page].text, hit, signals[..k], signals[k])
  }

  lemma FirstNewAppended(table: seq<Entry>, pages: seq<Page>, hit: Search, signals: seq<Signal>, s: Signal)
    requires AllAreFirstNew(table, pages, hit, signals) && s.page < |pages|
    requires IsFirstNew(table, pages[s.page].text, hit, signals, s)
    ensures AllAreFirstNew(table, pages, hit, signals + [s])
  {
    hide IsFirstNew;
    var after := signals + [s];
    assert forall j :: 0 <= j <= |signals| ==> after[..j] == signals[..j];
  }

  lemma {:induction false} ScanPageTakesTheFirst(table: seq<Entry>, k: nat, pages: seq<Page>, hit: Search,
                                                 before: seq<Signal>)
    requires k <= |table| && pages != [] && AllAreFirstNew(table, pages, hit, before)
    ensures AllAreFirstNew(table, pages, hit, ScanPage(table, k, pages[|pages| - 1], |pages| - 1, hit, before))
  {
    hide AllAreFirstNew, SkipsTo, FirstNew;
    if k > 0 {
      var n := |pages| - 1;
      ScanPageTakesTheFirst(table, k - 1, pages, hit, before);
      var signals := ScanPage(table, k - 1, pages[n], n, hit, before);
      var e := table[k - 1];
      var found := FirstNew(e.patterns, e.name, pages[n].text, hit, signals);
      if found.Some? {
        var q := FirstNewIsFirst(e.patterns, e.name, pages[n].text, hit, signals);
        var s := Signal(e.name, found.value, n, pages[n].url);
        assert table[k - 1].patterns[q] == s.pattern;
        FirstNewAppended(table, pages, hit, signals, s);
      }
    }
  }

  lemma {:induction false} SignalsTakeTheFirst(table: seq<Entry>, pages: seq<Page>, hit: Search)
    ensures AllAreFirstNew(table, pages, hit, Scan(table, pages, hit))
  {
    if pages != [] {
      var n := |pages| - 1;
      SignalsTakeTheFirst(table, pages[..n], hit);
      assert AllAreFirstNew(table, pages, hit, Scan(table, pages[..n], hit));
      ScanPageTakesTheFirst(table, |table|, pages, hit, Scan(table, pages[..n], hit));
    }
  }

  /** A category is reported exactly when some page matches some pattern of it. */
  lemma CategoryReportedIffMatched(table: seq<Entry>, pages: seq<Page>, hit: Search, i: nat)
    requires DistinctNames(table) && i < |table|
    ensures CategoryReported(Scan(table, pages, hit), table[i].name) <==>
            exists n, p :: 0 <= n < |pages| && p in table[i].patterns && hit(p, pages[n].text)
  {
    var signals := Scan(table, pages, hit);
    SignalsAreSound(table, pages, hit);
    if s :| s in signals && s.category == table[i].name {
      assert IsHit(table, pages, hit, s);
      var e :| e in table && e.name == s.category && s.pattern in e.patterns;
      assert e == table[i];
    }
    if n, p :| 0 <= n < |pages| && p in table[i].patterns && hit(p, pages[n].text) {
      HitsAreReported(table, pages, hit, n, i, p);
      var s :| s in signals && s.category == table[i].name;
    }
  }

  // ---- Topics ---------------------------------------------------------------------------------------

  function FirstMatch(patterns: seq<string>, text: string, hit: Search): (p: Option<string>)
    ensures p.Some? ==> p.value in patterns && hit(p.value, text)
    ensures p.None? <==> forall q :: q in patterns ==> !hit(q, text)
  {
    if patterns == [] then None
    else if hit(patterns[0], text) then Some(patterns[0])
    else FirstMatch(patterns[1..], text, hit)
  }

  predicate Matches(e: Entry, page: Page, hit: Search) {
    FirstMatch(e.patterns, page.text, hit).Some?
  }

  /** The topic's first matching page, with the pattern that matches there first. */
  ghost predicate IsFirstMatch(e: Entry, pages: seq<Page>, hit: Search, s: Signal) {
    && s.category == e.name && s.page < |pages| && s.url == pages[s.page].url
    && FirstMatch(e.patterns, pages[s.page].text, hit) == Some(s.pattern)
    && forall n :: 0 <= n < s.page ==> !Matches(e, pages[n], hit)
  }

  ghost predicate IsTopic(table: seq<Entry>, pages: seq<Page>, hit: Search, s: Signal) {
    exists i :: 0 <= i < |table| && IsFirstMatch(table[i], pages, hit, s)
  }

  ghost predicate TopicsOk(table: seq<Entry>, pages: seq<Page>, hit: Search, topics: seq<Signal>) {
    && (forall i, j :: 0 <= i < j < |topics| ==>
         topics[i].category != topics[j].category && topics[i].page <= topics[j].page)
    && (forall k :: 0 <= k < |topics| ==> IsTopic(table, pages, hit, topics[k]))
  }

  predicate ReportsTopic(topics: seq<Signal>, name: string) {
    exists k :: 0 <= k < |topics| && topics[k].category == name
  }

  /** Among the first `n` pages, and on page `n` among the first `k` topics, just the matches are reported. */
  ghost predicate TopicsUpTo(table: seq<Entry>, pages: seq<Page>, hit: Search, topics: seq<Signal>, n: nat, k: nat)
    requires n <= |pages|
  {
    forall i :: 0 <= i < |table| ==>
      (ReportsTopic(topics, table[i].name) <==>
        (exists m :: 0 <= m < n && Matches(table[i], pages[m], hit))
         || (i < k && n < |pages| && Matches(table[i], pages[n], hit)))
  }

  /** The topics after the first `k` entries have looked at page number `n`. */
  function TopicPage(table: seq<Entry>, k: nat, page: Page, n: nat, hit: Search, before: seq<Signal>): seq<Signal>
    requires k <= |table|
  {
    if k == 0 then before else
    var topics := TopicPage(table, k - 1, page, n, hit, before);
    var e := table[k - 1];
    if ReportsTopic(topics, e.name) then topics else
    match FirstMatch(e.patterns, page.text, hit)
    case Some(p) => topics + [Signal(e.name, p, n, page.url)]
    case None => topics
  }

  function Topics(table: seq<Entry>, pages: seq<Page>, n: nat, hit: Search): seq<Signal>
    requires n <= |pages|
  {
    if n == 0 then [] else TopicPage(table, |table|, pages[n - 1], n - 1, hit, Topics(table, pages, n - 1, hit))
  }

  method MatchTopic(e: Entry, page: Page, n: nat, hit: Search) returns (topic: Option<Signal>)
    ensures topic == match FirstMatch(e.patterns, page.text, hit)
                     case Some(p) => Some(Signal(e.name, p, n, page.url))
                     case None => None
  {
    topic := None;
    for j := 0 to |e.patterns|
      invariant topic == None && FirstMatch(e.patterns, page.text, hit) == FirstMatch(e.patterns[j..], page.text, hit)
    {
      if !hit(e.patterns[j], page.text) {
        continue;
      }
      topic := Some(Signal(e.name, e.patterns[j], n, page.url));
      break;
    }
  }

  lemma TopicAppended(topics: seq<Signal>, s: Signal)
    ensures forall name :: ReportsTopic(topics + [s], name) <==> ReportsTopic(topics, name) || name == s.category
  {
    var all := topics + [s];
    assert all[|topics|] == s;
    forall name
      ensures ReportsTopic(all, name) <==> ReportsTopic(topics, name) || name == s.category
    {
      if j :| 0 <= j < |topics| && topics[j].category == name {
        assert all[j].category == name;
      }
    }
  }

  method ExtractTopics(table: seq<Entry>, pages: seq<Page>, hit: Search) returns (topics: seq<Signal>)
    ensures topics == Topics(table, pages, |pages|, hit)
  {
    topics := [];
    var seen: set<string> := {};
    for n := 0 to |pages|
      invariant topics == Topics(table, pages, n, hit)
      invariant forall name :: name in seen <==> ReportsTopic(topics, name)
    {
      ghost var before := topics;
      for k := 0 to |table|
        invariant topics == TopicPage(table, k, pages[n], n, hit, before)
        invariant forall name :: name in seen <==> ReportsTopic(topics, name)
      {
        var e := table[k];
        if e.name in seen {
          continue;
        }
        var found := MatchTopic(e, pages[n], n, hit);
        if found.Some? {
          seen := seen + {e.name};
          TopicAppended(topics, found.value);
          topics := topics + [found.value];
        }
      }
    }
  }

  lemma TopicSkipped(table: seq<Entry>, pages: seq<Page>, hit: Search, topics: seq<Signal>, n: nat, k: nat)
    requires n < |pages| && k < |table| && TopicsUpTo(table, pages, hit, topics, n, k)
    requires ReportsTopic(topics, table[k].name) || !Matches(table[k], pages[n], hit)
    ensures TopicsUpTo(table, pages, hit, topics, n, k + 1)
  {
  }

  lemma TopicAdvances(table: seq<Entry>, pages: seq<Page>, hit: Search, topics: seq<Signal>, n: nat, k: nat,
                      s: Signal)
    requires DistinctNames(table) && n < |pages| && k < |table| && TopicsUpTo(table, pages, hit, topics, n, k)
    requires s.category == table[k].name && FirstMatch(table[k].patterns, pages[n].text, hit) == Some(s.pattern)
    ensures TopicsUpTo(table, pages, hit, topics + [s], n, k + 1)
  {
    hide ReportsTopic;
    TopicAppended(topics, s);
  }

  lemma TopicAdded(table: seq<Entry>, pages: seq<Page>, hit: Search, topics: seq<Signal>, n: nat, k: nat, s: Signal)
    requires DistinctNames(table) && n < |pages| && k < |table|
    requires TopicsOk(table, pages, hit, topics) && TopicsUpTo(table, pages, hit, topics, n, k)
    requires !ReportsTopic(topics, table[k].name) && forall j :: 0 <= j < |topics| ==> topics[j].page <= n
    requires s.category == table[k].name && s.page == n && s.url == pages[n].url
    requires FirstMatch(table[k].patterns, pages[n].text, hit) == Some(s.pattern)
    ensures TopicsOk(table, pages, hit, topics + [s]) && TopicsUpTo(table, pages, hit, topics + [s], n, k + 1)
  {
    TopicAdvances(table, pages, hit, topics, n, k, s);
    var all := topics + [s];
    assert IsFirstMatch(table[k], pages, hit, s);
    forall j | 0 <= j < |all|
      ensures IsTopic(table, pages, hit, all[j])
    {
      if j < |topics| {
        assert all[j] == topics[j];
      }
    }
  }

  lemma {:induction false} TopicPageIsOk(table: seq<Entry>, k: nat, pages: seq<Page>, n: nat, hit: Search,
                                         before: seq<Signal>)
    requires DistinctNames(table) && n < |pages| && k <= |table|
    requires TopicsOk(table, pages, hit, before) && TopicsUpTo(table, pages, hit, before, n, 0)
    requires forall j :: 0 <= j < |before| ==> before[j].page <= n
    ensures var topics := TopicPage(table, k, pages[n], n, hit, before);
            && TopicsOk(table, pages, hit, topics) && TopicsUpTo(table, pages, hit, topics, n, k)
            && (forall j :: 0 <= j < |topics| ==> topics[j].page <= n)
  {
    hide TopicsOk, TopicsUpTo;
    if k > 0 {
      TopicPageIsOk(table, k - 1, pages, n, hit, before);
      var topics := TopicPage(table, k - 1, pages[n], n, hit, before);
      var e := table[k - 1];
      var found := FirstMatch(e.patterns, pages[n].text, hit);
      if !ReportsTopic(topics, e.name) && found.Some? {
        TopicAdded(table, pages, hit, topics, n, k - 1, Signal(e.name, found.value, n, pages[n].url));
      } else {
        TopicSkipped(table, pages, hit, topics, n, k - 1);
      }
    }
  }

  lemma PageFinished(table: seq<Entry>, pages: seq<Page>, hit: Search, topics: seq<Signal>, n: nat)
    requires n < |pages| && TopicsUpTo(table, pages, hit, topics, n, |table|)
    ensures TopicsUpTo(table, pages, hit, topics, n + 1, 0)
  {
    forall i | 0 <= i < |table|
      ensures ReportsTopic(topics, table[i].name) <==> exists m :: 0 <= m < n + 1 && Matches(table[i], pages[m], hit)
    {
      if m :| 0 <= m < n + 1 && Matches(table[i], pages[m], hit) {
        assert m < n || m == n;
      }
    }
  }

  lemma NoTopicsYet(table: seq<Entry>, pages: seq<Page>, hit: Search)
    ensures TopicsOk(table, pages, hit, []) && TopicsUpTo(table, pages, hit, [], 0, 0)
  {
  }

  lemma {:induction false} TopicsUpToPage(table: seq<Entry>, pages: seq<Page>, n: nat, hit: Search)
    requires DistinctNames(table) && n <= |pages|
    ensures var topics := Topics(table, pages, n, hit);
            && TopicsOk(table, pages, hit, topics) && TopicsUpTo(table, pages, hit, topics, n, 0)
            && (forall j :: 0 <= j < |topics| ==> topics[j].page < n)
  {
    hide TopicsOk, TopicsUpTo, TopicPage, DistinctNames;
    if n == 0 {
      NoTopicsYet(table, pages, hit);
    } else {
      TopicsUpToPage(table, pages, n - 1, hit);
      TopicPageIsOk(table, |table|, pages, n - 1, hit, Topics(table, pages, n - 1, hit));
      PageFinished(table, pages, hit, Topics(table, pages, n, hit), n - 1);
    }
  }

  /** Some pattern of the entry is found in the text. */
  ghost predicate Mentions(e: Entry, text: string, hit: Search) {
    exists p :: p in e.patterns && hit(p, text)
  }

  ghost predicate IsFirstFound(patterns: seq<string>, text: string, hit: Search, p: string) {
    exists k :: 0 <= k < |patterns| && patterns[k] == p && hit(p, text)
                && forall j :: 0 <= j < k ==> !hit(patterns[j], text)
  }

  /** The first page that mentions the topic, with the first of its patterns found there. */
  ghost predicate IsFirstMention(e: Entry, pages: seq<Page>, hit: Search, s: Signal) {
    && s.category == e.name && s.page < |pages| && s.url == pages[s.page].url
    && IsFirstFound(e.patterns, pages[s.page].text, hit, s.pattern)
    && forall n :: 0 <= n < s.page ==> !Mentions(e, pages[n].text, hit)
  }

  lemma {:induction false} FirstMatchAt(patterns: seq<string>, text: string, hit: Search) returns (k: nat)
    requires FirstMatch(patterns, text, hit).Some?
    ensures k < |patterns| && patterns[k] == FirstMatch(patterns, text, hit).value && hit(patterns[k], text)
    ensures forall j :: 0 <= j < k ==> !hit(patterns[j], text)
  {
    if hit(patterns[0], text) {
      k := 0;
    } else {
      var rest := FirstMatchAt(patterns[1..], text, hit);
      k := rest + 1;
      forall j | 0 <= j < k
        ensures !hit(patterns[j], text)
      {
        if j > 0 {
          assert patterns[j] == patterns[1..][j - 1];
        }
      }
    }
  }

  lemma FirstMatchIsMention(e: Entry, pages: seq<Page>, hit: Search, s: Signal)
    requires IsFirstMatch(e, pages, hit, s)
    ensures IsFirstMention(e, pages, hit, s)
  {
    var k := FirstMatchAt(e.patterns, pages[s.page].text, hit);
    forall n | 0 <= n < s.page
      ensures !Mentions(e, pages[n].text, hit)
    {
      assert !Matches(e, pages[n], hit);
    }
  }

  lemma MatchesIffMentions(e: Entry, pages: seq<Page>, hit: Search)
    ensures forall n :: 0 <= n < |pages| ==> (Matches(e, pages[n], hit) <==> Mentions(e, pages[n].text, hit))
  {
  }

  /** The topic is one of the table's, reported from its first mention. */
  ghost predicate IsMentioned(table: seq<Entry>, pages: seq<Page>, hit: Search, s: Signal) {
    exists i :: 0 <= i < |table| && IsFirstMention(table[i], pages, hit, s)
  }

  lemma TopicIsMentioned(table: seq<Entry>, pages: seq<Page>, hit: Search, s: Signal)
    requires IsTopic(table, pages, hit, s)
    ensures IsMentioned(table, pages, hit, s)
  {
    hide IsFirstMatch, IsFirstMention;
    var i :| 0 <= i < |table| && IsFirstMatch(table[i], pages, hit, s);
    FirstMatchIsMention(table[i], pages, hit, s);
  }

  /** Each topic some page mentions is reported exactly once, from its first mention, in page order. */
  lemma TopicsAreFirstMatches(table: seq<Entry>, pages: seq<Page>, hit: Search)
    requires DistinctNames(table)
    ensures var topics := Topics(table, pages, |pages|, hit);
            && (forall i, j :: 0 <= i < j < |topics| ==>
                  topics[i].category != topics[j].category && topics[i].page <= topics[j].page)
            && (forall k :: 0 <= k < |topics| ==> IsMentioned(table, pages, hit, topics[k]))
            && (forall i :: 0 <= i < |table| ==>
                  ((exists k :: 0 <= k < |topics| && topics[k].category == table[i].name)
                   <==> exists n :: 0 <= n < |pages| && Mentions(table[i], pages[n].text, hit)))
  {
    hide TopicPage, Topics, IsTopic, IsMentioned, Mentions, Matches;
    TopicsUpToPage(table, pages, |pages|, hit);
    var topics := Topics(table, pages, |pages|, hit);
    forall k | 0 <= k < |topics|
      ensures IsMentioned(table, pages, hit, topics[k])
    {
      TopicIsMentioned(table, pages, hit, topics[k]);
    }
    forall i | 0 <= i < |table|
      ensures (exists k :: 0 <= k < |topics| && topics[k].category == table[i].name)
              <==> exists n :: 0 <= n < |pages| && Mentions(table[i], pages[n].text, hit)
    {
      MatchesIffMentions(table[i], pages, hit);
      assert ReportsTopic(topics, table[i].name) <==> exists m :: 0 <= m < |pages| && Matches(table[i], pages[m], hit);
    }
  }
}
