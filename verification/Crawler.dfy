/**
 The scanner's crawl worklist (app/services/website_scanner_service.py:614-634,
 1526-1542): a loop over a list that its own body extends.

 Fetching (with the optional re-rendering) and link resolution are parameters.
 */
module Crawler {
  import opened Common

  type Url = string

  datatype Page = Page(url: Url, links: seq<string>)

  /** `resolve` is the same-host compliance page a link leads to, if it is one. */
  datatype Site = Site(fetch: Url -> Option<Page>, resolve: string -> Option<Url>)

  const MAX_LINKS := 8

  const COMPLIANCE_PATHS: seq<string> := [
    "/privacy", "/privacy-policy", "/terms", "/terms-of-service", "/security", "/trust-center", "/trust",
    "/compliance", "/security-and-compliance", "/ai", "/responsible-ai", "/data-processing", "/dpa",
    "/subprocessors", "/docs", "/help", "/legal"]

  /** The seeds: the URL itself, then the well-known paths joined to its origin. */
  function CandidateUrls(normalized: Url, join: string -> Url): (urls: seq<Url>)
    ensures |urls| == 18 && urls[0] == normalized
  {
    [normalized] + seq(|COMPLIANCE_PATHS|, k requires 0 <= k < |COMPLIANCE_PATHS| => join(COMPLIANCE_PATHS[k]))
  }

  /** The crawl starts at the page itself and at each of seventeen well-known paths of its site. */
  lemma SeedsAre(normalized: Url, join: string -> Url, u: Url)
    ensures |COMPLIANCE_PATHS| == 17
    ensures u in CandidateUrls(normalized, join) <==>
              u == normalized || exists path :: path in COMPLIANCE_PATHS && u == join(path)
  {
    var urls := CandidateUrls(normalized, join);
    assert forall k :: 0 <= k < |COMPLIANCE_PATHS| ==> urls[k + 1] == join(COMPLIANCE_PATHS[k]);
  }

  function Resolved(site: Site, links: seq<string>): (urls: seq<Url>)
    ensures |urls| <= |links|
  {
    if links == [] then [] else
    var before := Resolved(site, links[..|links| - 1]);
    match site.resolve(links[|links| - 1])
    case Some(url) => before + [url]
    case None => before
  }

  function Discovered(site: Site, links: seq<string>): (urls: seq<Url>)
    ensures |urls| <= MAX_LINKS
  {
    var all := Resolved(site, links);
    if |all| <= MAX_LINKS then all else all[..MAX_LINKS]
  }

  ghost predicate Increasing(at: seq<nat>) {
    forall j, k :: 0 <= j < k < |at| ==> at[j] < at[k]
  }

  /** `urls` are what the links at the positions `at`, in page order, lead to. */
  ghost predicate LeadTo(site: Site, links: seq<string>, at: seq<nat>, urls: seq<Url>) {
    && |at| == |urls| && Increasing(at)
    && forall k :: 0 <= k < |at| ==> at[k] < |links| && site.resolve(links[at[k]]) == Some(urls[k])
  }

  lemma {:induction false} ResolvedLinks(site: Site, links: seq<string>) returns (at: seq<nat>)
    ensures LeadTo(site, links, at, Resolved(site, links))
    ensures forall i :: 0 <= i < |links| && site.resolve(links[i]).Some? ==> i in at
  {
    if links == [] {
      at := [];
    } else {
      var n := |links| - 1;
      at := ResolvedLinks(site, links[..n]);
      if site.resolve(links[n]).Some? {
        at := at + [n];
      }
    }
  }

  /** The first eight links that lead somewhere, in page order; any other that does comes after all of them. */
  lemma DiscoveredLinks(site: Site, links: seq<string>) returns (at: seq<nat>)
    ensures LeadTo(site, links, at, Discovered(site, links)) && |at| <= 8
    ensures forall i :: 0 <= i < |links| && site.resolve(links[i]).Some? && i !in at ==>
              |at| == 8 && forall k :: 0 <= k < 8 ==> at[k] < i
  {
    var all := ResolvedLinks(site, links);
    at := if |all| <= 8 then all else all[..8];
    assert forall j :: 0 <= j < |at| ==> all[j] == at[j] && all[j] in at;
  }

  method DiscoverComplianceLinks(site: Site, links: seq<string>) returns (urls: seq<Url>)
    ensures urls == Discovered(site, links)
  {
    var discovered := [];
    for i := 0 to |links|
      invariant discovered == Resolved(site, links[..i])
    {
      assert links[..i + 1][..i] == links[..i];
      var absolute := site.resolve(links[i]);
      if absolute.Some? {
        discovered := discovered + [absolute.value];
      }
    }
    assert links[..|links|] == links;
    urls := if |discovered| <= MAX_LINKS then discovered else discovered[..MAX_LINKS];
  }

  /** The pages read from a list of fetched URLs, in order. */
  function Readable(site: Site, urls: seq<Url>): seq<Page> {
    if urls == [] then [] else
    var before := Readable(site, urls[..|urls| - 1]);
    match site.fetch(urls[|urls| - 1])
    case Some(page) => before + [page]
    case None => before
  }

  /** The pages are what the readable URLs, in fetching order, gave. */
  lemma {:induction false} ReadablePages(site: Site, urls: seq<Url>) returns (at: seq<nat>)
    ensures |at| == |Readable(site, urls)| && Increasing(at)
    ensures forall k :: 0 <= k < |at| ==> at[k] < |urls| && site.fetch(urls[at[k]]) == Some(Readable(site, urls)[k])
    ensures forall i :: 0 <= i < |urls| && site.fetch(urls[i]).Some? ==> i in at
  {
    if urls == [] {
      at := [];
    } else {
      var n := |urls| - 1;
      at := ReadablePages(site, urls[..n]);
      if site.fetch(urls[n]).Some? {
        at := at + [n];
      }
    }
  }

  /** `urls` holds the seeds and, with every readable page, the links discovered on it. */
  ghost predicate Closed(site: Site, seeds: seq<Url>, urls: set<Url>) {
    && (forall u :: u in seeds ==> u in urls)
    && (forall u, d ::
         u in urls && site.fetch(u).Some? && d in Discovered(site, site.fetch(u).value.links) ==> d in urls)
  }

  /** The closure of the seeds under discovered links: the least closed set. */
  ghost predicate IsClosure(site: Site, seeds: seq<Url>, urls: set<Url>) {
    Closed(site, seeds, urls) && forall s: set<Url> :: Closed(site, seeds, s) ==> urls <= s
  }

  lemma ClosureIsUnique(site: Site, seeds: seq<Url>, a: set<Url>, b: set<Url>)
    requires IsClosure(site, seeds, a) && IsClosure(site, seeds, b)
    ensures a == b
  {
    assert a <= b && b <= a;
  }

  function ToSet(s: seq<Url>): set<Url> {
    set u | u in s
  }

  ghost predicate WithinEveryClosedSet(site: Site, seeds: seq<Url>, urls: seq<Url>) {
    forall s: set<Url>, u :: Closed(site, seeds, s) && u in urls ==> u in s
  }

  /** The links on the readable pages among the first `n` fetched URLs are all in the worklist. */
  ghost predicate LinksQueued(site: Site, fetched: seq<Url>, candidates: seq<Url>) {
    forall u, d :: u in fetched && site.fetch(u).Some? && d in Discovered(site, site.fetch(u).value.links)
        ==> d in candidates
  }

  /**
   Appends to the worklist the links not met before: the worklist then holds them all, has
   grown by at most their number, and has gained nothing else.
   */
  method Enqueue(candidates: seq<Url>, seen: set<Url>, discovered: seq<Url>) returns (longer: seq<Url>)
    requires forall u :: u in seen ==> u in candidates
    ensures |candidates| <= |longer| <= |candidates| + |discovered| && longer[..|candidates|] == candidates
    ensures forall u :: u in longer <==> u in candidates || u in discovered
  {
    longer := candidates;
    for i := 0 to |discovered|
      invariant |candidates| <= |longer| <= |candidates| + i && longer[..|candidates|] == candidates
      invariant forall u :: u in longer <==> u in candidates || u in discovered[..i]
    {
      if discovered[i] !in seen && discovered[i] !in longer {
        longer := longer + [discovered[i]];
      }
      assert discovered[..i + 1] == discovered[..i] + [discovered[i]];
    }
    assert discovered[..|discovered|] == discovered;
  }

  /**
   The crawl ends although it extends the list it walks.  No URL is fetched twice, the
   pages are the readable ones among the fetched in order, there are at most `maxPages` of
   them and at most 18 + 8 * (maxPages - 1) fetches; a crawl that is not cut short by
   the page limit fetches exactly the closure of the seeds under discovered links.
   */
  method CollectPages(site: Site, normalized: Url, join: string -> Url, maxPages: int)
    returns (pages: seq<Page>, fetched: seq<Url>, exhausted: bool)
    ensures Distinct(fetched)
    ensures pages == Readable(site, fetched)
    ensures maxPages <= 0 ==> pages == [] && fetched == []
    ensures maxPages > 0 ==> |pages| <= maxPages && |fetched| <= 18 + 8 * (maxPages - 1)
    ensures WithinEveryClosedSet(site, CandidateUrls(normalized, join), fetched)
    ensures exhausted ==> IsClosure(site, CandidateUrls(normalized, join), ToSet(fetched))
    ensures !exhausted ==> |pages| >= maxPages
  {
    hide CandidateUrls, Discovered, Resolved;
    var seeds := CandidateUrls(normalized, join);
    var candidates := seeds;
    var seen: set<Url> := {};
    pages, fetched := [], [];
    var i := 0;
    while i < |candidates|
      invariant 0 <= i <= |candidates| && |candidates| <= |seeds| + MAX_LINKS * |pages|
      invariant |seeds| <= |candidates| && candidates[..|seeds|] == seeds
      invariant forall u :: u in seen <==> u in fetched
      invariant forall u :: u in fetched <==> u in candidates[..i]
      invariant Distinct(fetched) && |fetched| <= i
      invariant pages == Readable(site, fetched)
      invariant maxPages <= 0 ==> pages == [] && fetched == []
      invariant maxPages > 0 ==> |pages| <= maxPages && |fetched| <= |seeds| + MAX_LINKS * (maxPages - 1)
      invariant LinksQueued(site, fetched, candidates)
      invariant WithinEveryClosedSet(site, seeds, candidates)
      decreases maxPages - |pages|, |candidates| - i
    {
      if |pages| >= maxPages {
        exhausted := false;
        return;
      }
      var url := candidates[i];
      i := i + 1;
      assert candidates[..i] == candidates[..i - 1] + [url];
      if url in seen {
        continue;
      }
      seen := seen + {url};
      fetched := fetched + [url];
      assert fetched[..|fetched| - 1] + [url] == fetched;
      var page := site.fetch(url);
      if page.Some? {
        pages := pages + [page.value];
        var discovered := DiscoverComplianceLinks(site, page.value.links);
        var longer := Enqueue(candidates, seen, discovered);
        assert longer[..i] == candidates[..i];
        candidates := longer;
      }
    }
    exhausted := true;
    assert candidates[..i] == candidates;
    assert forall u :: u in seeds ==> u in candidates[..|seeds|];
  }
}
