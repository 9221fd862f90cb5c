/** The news scraper (`HealthSafetyScraper`): a retrying page fetcher, one link
    extractor per news source, a content extractor, pagination, the run over all
    configured sites, and the two encodings the run is saved in.

    The network and the HTML library are abstract inputs. `Web.net(url)` is the
    sequence of outcomes that successive GETs of `url` meet; `Dom` answers the
    BeautifulSoup and `urljoin` questions the code asks of a document. */
module Scraper {
  import opened Wrappers
  import opened PyStr
  import opened Seqs

  // ===========================================================================
  // Fetcher: `fetch_page`

  /** One GET: the response text, or a `RequestException` (connection error,
      15-second timeout, or an error status raised by `raise_for_status`). */
  datatype Attempt = Fetched(text: string) | RequestFailed

  predicate IsFetched(a: Attempt) {
    a.Fetched?
  }

  function Pow2(n: nat): (p: nat)
    ensures p >= 1
  {
    if n == 0 then 1 else 2 * Pow2(n - 1)
  }

  lemma {:induction false} Pow2Increasing(i: nat, j: nat)
    requires i < j
    ensures Pow2(i) < Pow2(j)
    decreases j
  {
    if i < j - 1 {
      Pow2Increasing(i, j - 1);
    }
  }

  /** The sleeps `2 ** attempt` taken after failed attempts 0 .. k-1. */
  function Backoff(k: nat): (d: seq<nat>)
    ensures |d| == k
  {
    seq(k, i requires 0 <= i < k => Pow2(i))
  }

  /** The number of attempts `range(retries)` allows. */
  function Budget(retries: int): nat {
    if retries > 0 then retries else 0
  }

  /** What the allowed attempts meet. Attempts past the end of `outs` fail. */
  function Tries(outs: seq<Attempt>, retries: int): (t: seq<Attempt>)
    ensures |t| == Budget(retries)
  {
    seq(Budget(retries), i requires 0 <= i < Budget(retries) =>
      if i < |outs| then outs[i] else RequestFailed)
  }

  /** A finished fetch: the page (or `None`), the attempts made, the sleeps taken. */
  datatype Fetch = Fetch(page: Option<string>, attempts: nat, sleeps: seq<nat>)

  /** The fetch reference: the first successful attempt's text, after backing off
      once per earlier failure; or `None` after all attempts, with no sleep after
      the last one. */
  function FetchSpec(outs: seq<Attempt>, retries: int): Fetch {
    var tries := Tries(outs, retries);
    match FirstIndex(tries, IsFetched, 0)
    case Some(k) => Fetch(Some(tries[k].text), k + 1, Backoff(k))
    case None => Fetch(None, |tries|, Backoff(if |tries| > 0 then |tries| - 1 else 0))
  }

  /** Fetches a page with `retries` attempts and exponential backoff. */
  method FetchPage(outs: seq<Attempt>, retries: int) returns (page: Option<string>, attempts: nat, sleeps: seq<nat>)
    ensures Fetch(page, attempts, sleeps) == FetchSpec(outs, retries)
  {
    ghost var tries := Tries(outs, retries);
    var attempt := 0;
    sleeps := [];
    while attempt < retries
      invariant 0 <= attempt <= Budget(retries)
      invariant retries > 0 ==> attempt < retries
      invariant forall j :: 0 <= j < attempt ==> !IsFetched(tries[j])
      invariant sleeps == Backoff(attempt)
    {
      var outcome := if attempt < |outs| then outs[attempt] else RequestFailed;
      assert outcome == tries[attempt];
      if outcome.Fetched? {
        FirstIndexIs(tries, IsFetched, 0, attempt);
        return Some(outcome.text), attempt + 1, sleeps;
      }
      if attempt < retries - 1 {
        sleeps := sleeps + [Pow2(attempt)];
        assert sleeps == Backoff(attempt + 1);
      } else {
        return None, attempt + 1, sleeps;
      }
      attempt := attempt + 1;
    }
    return None, 0, [];
  }

  /** At most `retries` attempts; the result is the first success's text, or `None`
      exactly when every allowed attempt failed; one sleep between consecutive
      attempts, of 1, 2, 4, ... seconds, strictly increasing. */
  lemma FetchProperties(outs: seq<Attempt>, retries: int)
    ensures FetchSpec(outs, retries).attempts <= Budget(retries)
    ensures FetchSpec(outs, retries).page.None? <==>
      forall i :: 0 <= i < Budget(retries) ==> !(i < |outs| && outs[i].Fetched?)
    ensures FetchSpec(outs, retries).page.Some? ==>
      var k := FetchSpec(outs, retries).attempts - 1;
      k < |outs| && outs[k] == Fetched(FetchSpec(outs, retries).page.value)
    ensures var f := FetchSpec(outs, retries);
      forall i :: 0 <= i < f.attempts - 1 ==> !(i < |outs| && outs[i].Fetched?)
    ensures var f := FetchSpec(outs, retries);
      f.attempts > 0 ==> |f.sleeps| == f.attempts - 1
    ensures var d := FetchSpec(outs, retries).sleeps;
      forall i :: 0 <= i < |d| ==> d[i] == Pow2(i)
    ensures var d := FetchSpec(outs, retries).sleeps;
      forall i, j :: 0 <= i < j < |d| ==> d[i] < d[j]
  {
    var tries := Tries(outs, retries);
    var d := FetchSpec(outs, retries).sleeps;
    forall i, j | 0 <= i < j < |d| ensures d[i] < d[j] {
      Pow2Increasing(i, j);
    }
    if FetchSpec(outs, retries).page.None? {
      forall i | 0 <= i < Budget(retries) ensures !(i < |outs| && outs[i].Fetched?) {
        assert !IsFetched(tries[i]);
      }
    } else {
      var k :| FirstIndex(tries, IsFetched, 0) == Some(k);
      assert IsFetched(tries[k]);
      forall i | 0 <= i < k ensures !(i < |outs| && outs[i].Fetched?) {
        assert !IsFetched(tries[i]);
      }
    }
  }

  /** Three attempts that all fail take sleeps 1 and 2 and give `None`. */
  lemma AlwaysFailing()
    ensures FetchSpec([], 3) == Fetch(None, 3, [1, 2])
  {
    var tries := Tries([], 3);
    assert forall j :: 0 <= j < 3 ==> !IsFetched(tries[j]);
    assert Backoff(2) == [1, 2] by {
      assert Pow2(1) == 2;
    }
  }

  // ===========================================================================
  // The document oracle

  /** An `<a>` element: `get_text(strip=True)` and its `href` (empty when absent). */
  datatype Anchor = Anchor(text: string, href: string)

  /** A located content region: `get_text(strip=True)`, whose length is tested,
      and `get_text(separator=' ', strip=True)`, which is returned. Both are taken
      after the boilerplate elements have been removed. */
  datatype Region = Region(compact: string, spaced: string)

  /** The answers BeautifulSoup and `urljoin` give about documents. */
  datatype Dom = Dom(
    raises: string -> bool,                         // parsing or selecting in this document raises
    select: (string, string) -> seq<Anchor>,        // soup.select(selector), document order
    h2Links: string -> seq<Option<Anchor>>,         // per <h2>: find('a', href=True)
    selectOne: (string, string) -> Option<Region>,  // soup.select_one(selector)
    body: string -> Option<Region>,                 // soup.find('body')
    urljoin: (string, string) -> string)

  datatype Web = Web(dom: Dom, net: string -> seq<Attempt>)

  // ===========================================================================
  // Link extractors: `extract_links_*`

  datatype Link = Link(title: string, url: string, source: string, scrapedAt: string)

  datatype Source = ConstructionNews | Bbc | HseNetwork | HsePress

  /** The `source` tag each extractor stamps on its links. */
  function Tag(src: Source): string {
    match src
    case ConstructionNews => "constructionnews"
    case Bbc => "bbc"
    case HseNetwork => "hse-network"
    case HsePress => "hse-press"
  }

  /** The CSS selectors each list-based extractor tries, in order. */
  function Selectors(src: Source): seq<string> {
    match src
    case ConstructionNews => []
    case Bbc => ["div.liverpool-card div.anchor-inner-wrapper a", "div[data-testid=\"liverpool-card\"] a",
                 "article a", ".media__link"]
    case HseNetwork => ["article a[href]", ".post-title a[href]", "h2 a[href]", "h3 a[href]"]
    case HsePress => ["h2 a[href]", ".entry-title a[href]", "article h2 a[href]", "h3 a[href]"]
  }

  /** Each extractor's own filter of a candidate `a` whose joined URL is `url`. */
  predicate Admits(src: Source, a: Anchor, url: string) {
    match src
    case ConstructionNews => a.text != "" && Contains(url, "/health-and-safety/")
    case Bbc => a.href != "" && a.text != ""
    case HseNetwork => a.text != "" && |a.text| > 10 && Contains(url, "hse-network.com")
    case HsePress => a.text != "" && Contains(url, "press.hse.gov.uk")
  }

  /** Whether an extractor skips URLs it already holds (all but Construction News). */
  predicate Dedups(src: Source) {
    src != ConstructionNews
  }

  /** What every link a given extractor returns satisfies. */
  predicate LinkFilter(src: Source, l: Link) {
    && l.title != ""
    && l.source == Tag(src)
    && match src
       case ConstructionNews => Contains(l.url, "/health-and-safety/")
       case Bbc => true
       case HseNetwork => |l.title| > 10 && Contains(l.url, "hse-network.com")
       case HsePress => Contains(l.url, "press.hse.gov.uk")
  }

  predicate HasUrl(links: seq<Link>, url: string) {
    exists i | 0 <= i < |links| :: links[i].url == url
  }

  predicate NoDuplicateUrls(links: seq<Link>) {
    forall i, j :: 0 <= i < j < |links| ==> links[i].url != links[j].url
  }

  function MakeLink(src: Source, dom: Dom, base: string, stamp: string, a: Anchor): Link {
    Link(a.text, dom.urljoin(base, a.href), Tag(src), stamp)
  }

  /** The links an extractor keeps from its candidates, in candidate order. */
  function Collect(src: Source, dom: Dom, base: string, stamp: string, cands: seq<Anchor>): seq<Link>
    decreases |cands|
  {
    if |cands| == 0 then []
    else
      var prev := Collect(src, dom, base, stamp, cands[..|cands| - 1]);
      var a := cands[|cands| - 1];
      var url := dom.urljoin(base, a.href);
      if Admits(src, a, url) && (!Dedups(src) || !HasUrl(prev, url)) then prev + [MakeLink(src, dom, base, stamp, a)]
      else prev
  }

  /** What an extractor keeps: at most one link per candidate; no URL twice when
      it deduplicates; only links that pass its filter, each built from one of the
      candidates; and the URL of every candidate that passes the filter. */
  lemma CollectProperties(src: Source, dom: Dom, base: string, stamp: string, cands: seq<Anchor>)
    ensures var links := Collect(src, dom, base, stamp, cands);
      && |links| <= |cands|
      && (Dedups(src) ==> NoDuplicateUrls(links))
      && (forall k :: 0 <= k < |links| ==> LinkFilter(src, links[k]) && links[k].scrapedAt == stamp)
      && (forall k :: 0 <= k < |links| ==>
            exists i :: 0 <= i < |cands| && links[k] == MakeLink(src, dom, base, stamp, cands[i]))
      && (forall i :: 0 <= i < |cands| && Admits(src, cands[i], dom.urljoin(base, cands[i].href)) ==>
            HasUrl(links, dom.urljoin(base, cands[i].href)))
  {
    CollectFiltered(src, dom, base, stamp, cands);
    CollectFromCandidates(src, dom, base, stamp, cands);
    CollectKeepsAdmitted(src, dom, base, stamp, cands);
  }

  lemma {:induction false} CollectFiltered(src: Source, dom: Dom, base: string, stamp: string, cands: seq<Anchor>)
    ensures var links := Collect(src, dom, base, stamp, cands);
      && |links| <= |cands|
      && (Dedups(src) ==> NoDuplicateUrls(links))
      && (forall k :: 0 <= k < |links| ==> LinkFilter(src, links[k]) && links[k].scrapedAt == stamp)
    decreases |cands|
  {
    if |cands| > 0 {
      CollectFiltered(src, dom, base, stamp, cands[..|cands| - 1]);
    }
  }

  /** `l` is the link built from one of the candidates. */
  predicate BuiltFrom(src: Source, dom: Dom, base: string, stamp: string, cands: seq<Anchor>, l: Link) {
    exists i :: 0 <= i < |cands| && l == MakeLink(src, dom, base, stamp, cands[i])
  }

  lemma {:induction false} CollectFromCandidates(src: Source, dom: Dom, base: string, stamp: string, cands: seq<Anchor>)
    ensures var links := Collect(src, dom, base, stamp, cands);
      forall k :: 0 <= k < |links| ==> BuiltFrom(src, dom, base, stamp, cands, links[k])
    decreases |cands|
  {
    if |cands| > 0 {
      var init := cands[..|cands| - 1];
      CollectFromCandidates(src, dom, base, stamp, init);
      assert var l := Collect(src, dom, base, stamp, init); forall k :: 0 <= k < |l| ==> BuiltFrom(src, dom, base, stamp, init, l[k]);
      var prev := Collect(src, dom, base, stamp, init);
      var links := Collect(src, dom, base, stamp, cands);
      var last := MakeLink(src, dom, base, stamp, cands[|cands| - 1]);
      assert links == prev || links == prev + [last];
      forall k | 0 <= k < |links|
        ensures BuiltFrom(src, dom, base, stamp, cands, links[k])
      {
        if k < |prev| {
          var i :| 0 <= i < |init| && prev[k] == MakeLink(src, dom, base, stamp, init[i]);
          assert init[i] == cands[i];
          assert links[k] == prev[k];
        } else {
          assert links[k] == last;
        }
      }
    }
  }

  lemma {:induction false} CollectKeepsAdmitted(src: Source, dom: Dom, base: string, stamp: string, cands: seq<Anchor>)
    ensures var links := Collect(src, dom, base, stamp, cands);
      forall i :: 0 <= i < |cands| && Admits(src, cands[i], dom.urljoin(base, cands[i].href)) ==>
        HasUrl(links, dom.urljoin(base, cands[i].href))
    decreases |cands|
  {
    if |cands| > 0 {
      var init := cands[..|cands| - 1];
      CollectKeepsAdmitted(src, dom, base, stamp, init);
      var prev := Collect(src, dom, base, stamp, init);
      var links := Collect(src, dom, base, stamp, cands);
      var a := cands[|cands| - 1];
      var url := dom.urljoin(base, a.href);
      forall i | 0 <= i < |cands| && Admits(src, cands[i], dom.urljoin(base, cands[i].href))
        ensures HasUrl(links, dom.urljoin(base, cands[i].href))
      {
        if i == |cands| - 1 {
          if links != prev {
            assert links[|prev|].url == url;
          }
        } else {
          assert init[i] == cands[i];
          var w :| 0 <= w < |prev| && prev[w].url == dom.urljoin(base, init[i].href);
          assert links[w] == prev[w];
        }
      }
    }
  }

  /** The values of a list of optional anchors that are present. */
  function Present(xs: seq<Option<Anchor>>): seq<Anchor>
    decreases |xs|
  {
    if |xs| == 0 then []
    else Present(xs[..|xs| - 1]) + (if xs[|xs| - 1].Some? then [xs[|xs| - 1].value] else [])
  }

  /** One more optional candidate. */
  lemma PresentSnoc(xs: seq<Option<Anchor>>, i: nat)
    requires i < |xs|
    ensures Present(xs[..i + 1]) == Present(xs[..i]) + (if xs[i].Some? then [xs[i].value] else [])
  {
    assert xs[..i + 1][..i] == xs[..i];
  }

  /** The candidates an extractor examines, in the order it examines them. */
  function Candidates(src: Source, dom: Dom, html: string): seq<Anchor> {
    if src == ConstructionNews then Present(dom.h2Links(html))
    else Concat(SelectAll(Selectors(src), dom, html))
  }

  /** The elements each selector matches. */
  function SelectAll(sels: seq<string>, dom: Dom, html: string): (lists: seq<seq<Anchor>>)
    ensures |lists| == |sels|
    ensures forall i :: 0 <= i < |sels| ==> lists[i] == dom.select(html, sels[i])
  {
    seq(|sels|, i requires 0 <= i < |sels| => dom.select(html, sels[i]))
  }

  /** `extract_links_constructionnews`: the first linked `a` of each `h2`. */
  method ExtractConstructionNews(dom: Dom, html: string, base: string, stamp: string) returns (links: seq<Link>)
    ensures links == Collect(ConstructionNews, dom, base, stamp, Present(dom.h2Links(html)))
  {
    var h2s := dom.h2Links(html);
    links := [];
    for i := 0 to |h2s|
      invariant links == Collect(ConstructionNews, dom, base, stamp, Present(h2s[..i]))
    {
      PresentSnoc(h2s, i);
      match h2s[i]
      case Some(a) =>
        var url := dom.urljoin(base, a.href);
        CollectSnoc(ConstructionNews, dom, base, stamp, Present(h2s[..i]), a);
        assert Present(h2s[..i + 1]) == Present(h2s[..i]) + [a];
        if a.text != "" && Contains(url, "/health-and-safety/") {
          links := links + [Link(a.text, url, Tag(ConstructionNews), stamp)];
        }
      case None =>
        assert Present(h2s[..i + 1]) == Present(h2s[..i]);
    }
    assert h2s[..|h2s|] == h2s;
  }

  /** One more candidate. */
  lemma CollectSnoc(src: Source, dom: Dom, base: string, stamp: string, cands: seq<Anchor>, a: Anchor)
    ensures var prev := Collect(src, dom, base, stamp, cands);
      var url := dom.urljoin(base, a.href);
      Collect(src, dom, base, stamp, cands + [a]) ==
        if Admits(src, a, url) && (!Dedups(src) || !HasUrl(prev, url)) then prev + [MakeLink(src, dom, base, stamp, a)]
        else prev
  {
    assert (cands + [a])[..|cands|] == cands;
  }

  /** The inner loop of a list-based extractor: the elements of one selector. */
  method CollectMore(src: Source, dom: Dom, base: string, stamp: string, ghost seen: seq<Anchor>,
                     links0: seq<Link>, elements: seq<Anchor>) returns (links: seq<Link>)
    requires Dedups(src)
    requires links0 == Collect(src, dom, base, stamp, seen)
    ensures links == Collect(src, dom, base, stamp, seen + elements)
  {
    links := links0;
    assert seen + elements[..0] == seen;
    for e := 0 to |elements|
      invariant links == Collect(src, dom, base, stamp, seen + elements[..e])
    {
      var a := elements[e];
      var url := dom.urljoin(base, a.href);
      CollectSnoc(src, dom, base, stamp, seen + elements[..e], a);
      assert seen + elements[..e + 1] == seen + elements[..e] + [a];
      if Admits(src, a, url) && !HasUrl(links, url) {
        links := links + [MakeLink(src, dom, base, stamp, a)];
      }
    }
    assert elements[..|elements|] == elements;
  }

  /** `extract_links_bbc`, `extract_links_hse_network`, `extract_links_hse_press`:
      every selector in turn, keeping admitted links whose URL is new. */
  method ExtractBySelectors(src: Source, dom: Dom, html: string, base: string, stamp: string) returns (links: seq<Link>)
    requires Dedups(src)
    ensures links == Collect(src, dom, base, stamp, Candidates(src, dom, html))
  {
    var sels := Selectors(src);
    ghost var lists := SelectAll(sels, dom, html);
    ghost var seen: seq<Anchor> := [];
    links := [];
    for s := 0 to |sels|
      invariant seen == Concat(lists[..s])
      invariant links == Collect(src, dom, base, stamp, seen)
    {
      var elements := dom.select(html, sels[s]);
      links := CollectMore(src, dom, base, stamp, seen, links, elements);
      ConcatSnoc(lists, s);
      seen := seen + elements;
    }
    assert lists[..|sels|] == lists;
  }

  /** `site_config['extractor'](html, base)`. */
  method Extract(src: Source, dom: Dom, html: string, base: string, stamp: string) returns (links: seq<Link>)
    ensures links == Collect(src, dom, base, stamp, Candidates(src, dom, html))
  {
    if src == ConstructionNews {
      links := ExtractConstructionNews(dom, html, base, stamp);
    } else {
      links := ExtractBySelectors(src, dom, html, base, stamp);
    }
  }

  /** Every extractor keeps only links with a title, its own tag and its own URL
      filter; the three list-based ones never return a URL twice; and every
      candidate that passes the filter has its URL among the results. */
  lemma ExtractorGuarantees(src: Source, dom: Dom, html: string, base: string, stamp: string)
    ensures var links := Collect(src, dom, base, stamp, Candidates(src, dom, html));
      && (forall k :: 0 <= k < |links| ==> links[k].title != "" && links[k].source == Tag(src))
      && (src == HseNetwork ==> forall k :: 0 <= k < |links| ==>
            |links[k].title| > 10 && Contains(links[k].url, "hse-network.com"))
      && (src == HsePress ==> forall k :: 0 <= k < |links| ==> Contains(links[k].url, "press.hse.gov.uk"))
      && (src == ConstructionNews ==> forall k :: 0 <= k < |links| ==> Contains(links[k].url, "/health-and-safety/"))
      && (src != ConstructionNews ==> NoDuplicateUrls(links))
  {
    CollectProperties(src, dom, base, stamp, Candidates(src, dom, html));
  }

  // ===========================================================================
  // Content extractor: `fetch_article_content`

  /** The content-region selectors, tried in order. */
  const ContentSelectors: seq<string> := [
    "article .content", "article .post-content", "article .entry-content",
    ".main-content article", ".content article", "article", ".post-content",
    ".entry-content", "#content", "main", ".main"]

  /** A region qualifies when its stripped text is longer than 100 characters. */
  predicate LongEnough(r: Option<Region>) {
    r.Some? && |r.value.compact| > 100
  }

  function Regions(dom: Dom, html: string): (rs: seq<Option<Region>>)
    ensures |rs| == |ContentSelectors|
  {
    seq(|ContentSelectors|, i requires 0 <= i < |ContentSelectors| => dom.selectOne(html, ContentSelectors[i]))
  }

  /** The region selection rule: the first selector whose region qualifies; if none
      does, the last selector's region, and `body` only when that is missing. */
  function ChosenRegion(dom: Dom, html: string): Option<Region> {
    var rs := Regions(dom, html);
    match FirstIndex(rs, LongEnough, 0)
    case Some(i) => rs[i]
    case None => if rs[|rs| - 1].Some? then rs[|rs| - 1] else dom.body(html)
  }

  /** Runs the selector loop on a parsed page. */
  method SelectContent(dom: Dom, html: string) returns (content: Option<Region>)
    ensures content == ChosenRegion(dom, html)
  {
    ghost var rs := Regions(dom, html);
    content := None;
    var i := 0;
    while i < |ContentSelectors|
      invariant 0 <= i <= |ContentSelectors|
      invariant forall j :: 0 <= j < i ==> !LongEnough(rs[j])
      invariant content == if i == 0 then None else rs[i - 1]
    {
      content := dom.selectOne(html, ContentSelectors[i]);
      if content.Some? && |content.value.compact| > 100 {
        FirstIndexIs(rs, LongEnough, 0, i);
        return;
      }
      i := i + 1;
    }
    if content.None? {
      content := dom.body(html);
    }
  }

  /** A step that may raise an exception, which the caller catches. */
  datatype Try<T> = Completed(value: T) | Raised

  /** The content reference: `None` when the page cannot be fetched (or is empty);
      otherwise the chosen region's text with white space collapsed. */
  function ContentSpec(web: Web, url: string): Try<Option<string>> {
    var html := FetchSpec(web.net(url), 3).page;
    if html.None? || html.value == "" then Completed(None)
    else if web.dom.raises(html.value) then Raised
    else
      match ChosenRegion(web.dom, html.value)
      case None => Completed(None)
      case Some(r) => Completed(Some(NormaliseSpace(r.spaced)))
  }

  method FetchArticleContent(web: Web, url: string) returns (r: Try<Option<string>>)
    ensures r == ContentSpec(web, url)
    ensures r.Completed? && r.value.Some? ==> Normalised(r.value.value)
    ensures FetchSpec(web.net(url), 3).page.None? ==> r == Completed(None)
  {
    var html, _, _ := FetchPage(web.net(url), 3);
    if html.None? || html.value == "" {
      return Completed(None);
    }
    if web.dom.raises(html.value) {
      return Raised;
    }
    var content := SelectContent(web.dom, html.value);
    if content.Some? {
      return Completed(Some(NormaliseSpace(content.value.spaced)));
    }
    return Completed(None);
  }

  /** The selection rule stated outright: a qualifying region wins at its first
      position; without one, the last selector's region, else `body`. */
  lemma ChosenRegionRule(dom: Dom, html: string)
    ensures var rs := Regions(dom, html);
      (exists i :: 0 <= i < |rs| && LongEnough(rs[i])) ==>
        exists i :: 0 <= i < |rs| && LongEnough(rs[i]) && ChosenRegion(dom, html) == rs[i] &&
          forall j :: 0 <= j < i ==> !LongEnough(rs[j])
    ensures var rs := Regions(dom, html);
      (forall i :: 0 <= i < |rs| ==> !LongEnough(rs[i])) ==>
        ChosenRegion(dom, html) == if rs[10].Some? then rs[10] else dom.body(html)
  {
    var rs := Regions(dom, html);
    match FirstIndex(rs, LongEnough, 0)
    case Some(i) =>
    case None =>
  }

  // ===========================================================================
  // One site: `scrape_site`

  datatype SiteConfig = SiteConfig(url: string, source: Source, name: string, pagination: Option<seq<int>>)

  /** The URL of page `page` of a paginated source, for the two sources that
      paginate; `None` for any other site. */
  function PageUrl(base: string, page: int): Option<string> {
    if Contains(base, "hse-network") || Contains(base, "press.hse.gov.uk") then
      Some(base + "page/" + IntToString(page) + "/")
    else None
  }

  /** A site's links (or the exception it raised) and the URLs it requested. */
  datatype SiteScrape = SiteScrape(result: Try<seq<Link>>, fetched: seq<string>)

  function ExtractSpec(dom: Dom, src: Source, html: string, base: string, stamp: string): seq<Link> {
    Collect(src, dom, base, stamp, Candidates(src, dom, html))
  }

  /** One entry of the pagination list. */
  function PageStep(web: Web, site: SiteConfig, page: int, stamp: string): SiteScrape {
    if page == 1 then SiteScrape(Completed([]), [])
    else
      match PageUrl(site.url, page)
      case None => SiteScrape(Completed([]), [])
      case Some(u) =>
        var html := FetchSpec(web.net(u), 3).page;
        if html.None? || html.value == "" then SiteScrape(Completed([]), [u])
        else if web.dom.raises(html.value) then SiteScrape(Raised, [u])
        else SiteScrape(Completed(ExtractSpec(web.dom, site.source, html.value, u, stamp)), [u])
  }

  /** The pagination loop over `pages`, stopped by the first exception. */
  function PagesScrape(web: Web, site: SiteConfig, pages: seq<int>, stamp: string): SiteScrape
    decreases |pages|
  {
    if |pages| == 0 then SiteScrape(Completed([]), [])
    else
      var prev := PagesScrape(web, site, pages[..|pages| - 1], stamp);
      if prev.result.Raised? then prev
      else
        var step := PageStep(web, site, pages[|pages| - 1], stamp);
        SiteScrape(if step.result.Raised? then Raised else Completed(prev.result.value + step.result.value),
                   prev.fetched + step.fetched)
  }

  /** The site reference: nothing when the main page cannot be fetched; otherwise
      the main page's links, followed by those of the listed pages other than 1. */
  function SiteSpec(web: Web, site: SiteConfig, stamp: string): SiteScrape {
    var html := FetchSpec(web.net(site.url), 3).page;
    if html.None? || html.value == "" then SiteScrape(Completed([]), [site.url])
    else if web.dom.raises(html.value) then SiteScrape(Raised, [site.url])
    else
      var main := ExtractSpec(web.dom, site.source, html.value, site.url, stamp);
      if site.pagination.None? then SiteScrape(Completed(main), [site.url])
      else
        var rest := PagesScrape(web, site, site.pagination.value, stamp);
        SiteScrape(if rest.result.Raised? then Raised else Completed(main + rest.result.value),
                   [site.url] + rest.fetched)
  }

  /** Runs the pagination loop of a site whose main page was scraped. */
  method ScrapePages(web: Web, site: SiteConfig, pages: seq<int>, stamp: string) returns (r: Try<seq<Link>>, fetched: seq<string>)
    ensures SiteScrape(r, fetched) == PagesScrape(web, site, pages, stamp)
  {
    var rest: seq<Link> := [];
    fetched := [];
    for i := 0 to |pages|
      invariant PagesScrape(web, site, pages[..i], stamp) == SiteScrape(Completed(rest), fetched)
    {
      assert pages[..i + 1][..i] == pages[..i];
      var page := pages[i];
      ghost var step := PageStep(web, site, page, stamp);
      assert PagesScrape(web, site, pages[..i + 1], stamp) ==
        if step.result.Raised? then SiteScrape(Raised, fetched + step.fetched)
        else SiteScrape(Completed(rest + step.result.value), fetched + step.fetched);
      if page == 1 {
        assert rest + [] == rest && fetched + [] == fetched;
        continue;
      }
      var pageUrl: string;
      if Contains(site.url, "hse-network") {
        pageUrl := site.url + "page/" + IntToString(page) + "/";
      } else if Contains(site.url, "press.hse.gov.uk") {
        pageUrl := site.url + "page/" + IntToString(page) + "/";
      } else {
        assert rest + [] == rest && fetched + [] == fetched;
        continue;
      }
      assert PageUrl(site.url, page) == Some(pageUrl);
      fetched := fetched + [pageUrl];
      var pageHtml, _, _ := FetchPage(web.net(pageUrl), 3);
      if pageHtml.Some? && pageHtml.value != "" {
        if web.dom.raises(pageHtml.value) {
          PagesStayRaised(web, site, pages, i + 1, stamp);
          return Raised, fetched;
        }
        var links := Extract(site.source, web.dom, pageHtml.value, pageUrl, stamp);
        rest := rest + links;
      } else {
        assert rest + [] == rest;
      }
    }
    assert pages[..|pages|] == pages;
    return Completed(rest), fetched;
  }

  /** `scrape_site`: the main page, then (for a site with a pagination list) the
      listed pages. */
  method ScrapeSite(web: Web, site: SiteConfig, stamp: string) returns (r: Try<seq<Link>>, fetched: seq<string>)
    ensures SiteScrape(r, fetched) == SiteSpec(web, site, stamp)
  {
    fetched := [site.url];
    var html, _, _ := FetchPage(web.net(site.url), 3);
    if html.None? || html.value == "" {
      return Completed([]), fetched;
    }
    if web.dom.raises(html.value) {
      return Raised, fetched;
    }
    var main := Extract(site.source, web.dom, html.value, site.url, stamp);
    if site.pagination.None? {
      return Completed(main), fetched;
    }
    var rest, restFetched := ScrapePages(web, site, site.pagination.value, stamp);
    fetched := fetched + restFetched;
    if rest.Raised? {
      return Raised, fetched;
    }
    return Completed(main + rest.value), fetched;
  }

  /** Once the pagination loop has raised, the rest of the list changes nothing
      (the exception leaves the loop). */
  lemma {:induction false} PagesStayRaised(web: Web, site: SiteConfig, pages: seq<int>, k: nat, stamp: string)
    requires k <= |pages|
    requires PagesScrape(web, site, pages[..k], stamp).result.Raised?
    ensures PagesScrape(web, site, pages, stamp) == PagesScrape(web, site, pages[..k], stamp)
    decreases |pages| - k
  {
    if k < |pages| {
      assert pages[..k + 1][..k] == pages[..k];
      PagesStayRaised(web, site, pages, k + 1, stamp);
    } else {
      assert pages[..k] == pages;
    }
  }

  /** A requested pagination URL: the page URL of a listed page other than 1, for
      one of the two paginating sources. */
  predicate PaginationUrl(site: SiteConfig, pages: seq<int>, u: string) {
    && (Contains(site.url, "hse-network") || Contains(site.url, "press.hse.gov.uk"))
    && exists p :: p in pages && p != 1 && u == site.url + "page/" + IntToString(p) + "/"
  }

  /** Every pagination URL requested is `url + "page/{n}/"` for a listed page
      other than 1, and only for the two paginating sources. */
  lemma {:induction false} PageUrlsRequested(web: Web, site: SiteConfig, pages: seq<int>, stamp: string)
    ensures forall u :: u in PagesScrape(web, site, pages, stamp).fetched ==> PaginationUrl(site, pages, u)
    decreases |pages|
  {
    if |pages| > 0 {
      var init := pages[..|pages| - 1];
      var last := pages[|pages| - 1];
      PageUrlsRequested(web, site, init, stamp);
      var prev := PagesScrape(web, site, init, stamp);
      var f := PagesScrape(web, site, pages, stamp).fetched;
      forall u | u in prev.fetched ensures PaginationUrl(site, pages, u) {
        assert PaginationUrl(site, init, u);
        var p :| p in init && p != 1 && u == site.url + "page/" + IntToString(p) + "/";
        assert p in pages;
      }
      if !prev.result.Raised? {
        var step := PageStep(web, site, last, stamp);
        assert f == prev.fetched + step.fetched;
        if |step.fetched| > 0 {
          assert step.fetched == [site.url + "page/" + IntToString(last) + "/"];
          assert last in pages;
          assert PaginationUrl(site, pages, step.fetched[0]);
        }
      }
    }
  }

  /** The URLs one site run requests: the main page first, then pagination pages. */
  lemma SiteRequests(web: Web, site: SiteConfig, stamp: string)
    ensures var f := SiteSpec(web, site, stamp).fetched;
      && |f| >= 1 && f[0] == site.url
      && forall u :: u in f[1..] ==> site.pagination.Some? && PaginationUrl(site, site.pagination.value, u)
  {
    var f := SiteSpec(web, site, stamp).fetched;
    var html := FetchSpec(web.net(site.url), 3).page;
    if html.Some? && html.value != "" && !web.dom.raises(html.value) && site.pagination.Some? {
      PageUrlsRequested(web, site, site.pagination.value, stamp);
      var rest := PagesScrape(web, site, site.pagination.value, stamp).fetched;
      assert f[1..] == rest;
    }
  }

  // ===========================================================================
  // All sites: `scrape_all_sites`

  const Sites: seq<SiteConfig> := [
    SiteConfig("https://www.constructionnews.co.uk/health-and-safety/", ConstructionNews, "Construction News", None),
    SiteConfig("https://www.bbc.com/news/topics/cpzy90q2y90t", Bbc, "BBC Health & Safety", None),
    SiteConfig("https://www.hse-network.com/category/latest-health-and-safety-news/", HseNetwork, "HSE Network",
               Some([1, 2, 3, 4, 5])),
    SiteConfig("https://press.hse.gov.uk/category/news/", HsePress, "HSE Press", Some([1, 2]))]

  /** The content map after the per-site content loop, and whether it raised. */
  datatype ContentRun = ContentRun(content: map<string, string>, raised: bool)

  /** The content loop over `links`: each fetched, non-empty text is stored under
      its URL; an exception ends the loop (and is caught by the site loop). */
  function ContentFold(web: Web, links: seq<Link>, acc: map<string, string>): ContentRun
    decreases |links|
  {
    if |links| == 0 then ContentRun(acc, false)
    else
      var prev := ContentFold(web, links[..|links| - 1], acc);
      if prev.raised then prev
      else
        var url := links[|links| - 1].url;
        match ContentSpec(web, url)
        case Raised => ContentRun(prev.content, true)
        case Completed(c) =>
          if c.Some? && c.value != "" then ContentRun(prev.content[url := c.value], false)
          else prev
  }

  /** Fetched content is white-space normalised. */
  lemma ContentNormalised(web: Web, url: string)
    ensures var c := ContentSpec(web, url);
      c.Completed? && c.value.Some? ==> Normalised(c.value.value)
  {
    var c := ContentSpec(web, url);
    if c.Completed? && c.value.Some? {
      var html := FetchSpec(web.net(url), 3).page.value;
      var r := ChosenRegion(web.dom, html).value;
      assert c.value.value == NormaliseSpace(r.spaced);
    }
  }

  /** The content loop only adds entries, each under the URL of one of its links,
      each non-empty and white-space normalised. */
  lemma {:induction false} ContentFoldProperties(web: Web, links: seq<Link>, acc: map<string, string>)
    ensures var run := ContentFold(web, links, acc);
      && acc.Keys <= run.content.Keys
      && forall u :: u in run.content ==>
           || (u in acc && run.content[u] == acc[u])
           || (&& (exists k :: 0 <= k < |links| && links[k].url == u)
               && run.content[u] != "" && Normalised(run.content[u]))
    decreases |links|
  {
    if |links| > 0 {
      var init := links[..|links| - 1];
      ContentFoldProperties(web, init, acc);
      var prev := ContentFold(web, init, acc);
      assert forall k :: 0 <= k < |init| ==> init[k] == links[k];
      var url := links[|links| - 1].url;
      ContentNormalised(web, url);
    }
  }

  /** The links and the content map of a run. */
  datatype RunState = RunState(links: seq<Link>, content: map<string, string>)

  /** The run reference: the sites in order; a site that raised contributes
      nothing; a completed site contributes its links and, when content is wanted,
      the content of its first `maxPerSite` links. */
  function AllSitesSpec(web: Web, sites: seq<SiteConfig>, fetchContent: bool, maxPerSite: int, stamp: string): RunState
    decreases |sites|
  {
    if |sites| == 0 then RunState([], map[])
    else AddSite(web, AllSitesSpec(web, sites[..|sites| - 1], fetchContent, maxPerSite, stamp),
                 sites[|sites| - 1], fetchContent, maxPerSite, stamp)
  }

  /** One iteration of the site loop. */
  function AddSite(web: Web, prev: RunState, site: SiteConfig, fetchContent: bool, maxPerSite: int, stamp: string): RunState {
    match SiteSpec(web, site, stamp).result
    case Raised => prev
    case Completed(ls) =>
      RunState(prev.links + ls,
               if fetchContent then ContentFold(web, SliceTo(ls, maxPerSite), prev.content).content
               else prev.content)
  }

  /** The content loop of one site, which stops at the first exception. */
  method FetchSiteContent(web: Web, links: seq<Link>, content0: map<string, string>) returns (content: map<string, string>)
    ensures content == ContentFold(web, links, content0).content
  {
    content := content0;
    for i := 0 to |links|
      invariant ContentFold(web, links[..i], content0) == ContentRun(content, false)
    {
      assert links[..i + 1][..i] == links[..i];
      var c := FetchArticleContent(web, links[i].url);
      if c.Raised? {
        ContentStaysRaised(web, links, i + 1, content0);
        return;
      }
      if c.value.Some? && c.value.value != "" {
        content := content[links[i].url := c.value.value];
      }
    }
    assert links[..|links|] == links;
  }

  /** `scrape_all_sites`: every configured site in turn, each inside its own
      exception handler. */
  method ScrapeAllSites(web: Web, sites: seq<SiteConfig>, fetchContent: bool, maxPerSite: int, stamp: string)
    returns (allLinks: seq<Link>, content: map<string, string>)
    ensures RunState(allLinks, content) == AllSitesSpec(web, sites, fetchContent, maxPerSite, stamp)
  {
    allLinks, content := [], map[];
    for s := 0 to |sites|
      invariant RunState(allLinks, content) == AllSitesSpec(web, sites[..s], fetchContent, maxPerSite, stamp)
    {
      assert sites[..s + 1][..s] == sites[..s];
      var site := sites[s];
      var r, _ := ScrapeSite(web, site, stamp);
      if r.Raised? {
        continue;
      }
      var siteLinks := r.value;
      allLinks := allLinks + siteLinks;
      if fetchContent {
        content := FetchSiteContent(web, SliceTo(siteLinks, maxPerSite), content);
      }
    }
    assert sites[..|sites|] == sites;
  }

  /** Once the content loop has raised, later links change nothing. */
  lemma {:induction false} ContentStaysRaised(web: Web, links: seq<Link>, k: nat, acc: map<string, string>)
    requires k <= |links|
    requires ContentFold(web, links[..k], acc).raised
    ensures ContentFold(web, links, acc) == ContentFold(web, links[..k], acc)
    decreases |links| - k
  {
    if k < |links| {
      assert links[..k + 1][..k] == links[..k];
      ContentStaysRaised(web, links, k + 1, acc);
    } else {
      assert links[..k] == links;
    }
  }

  /** The URLs whose content a run may fetch: the first `maxPerSite` links of each
      site that completed. */
  function CappedUrls(web: Web, sites: seq<SiteConfig>, maxPerSite: int, stamp: string): set<string>
    decreases |sites|
  {
    if |sites| == 0 then {}
    else
      CappedUrls(web, sites[..|sites| - 1], maxPerSite, stamp) +
      match SiteSpec(web, sites[|sites| - 1], stamp).result
      case Raised => {}
      case Completed(ls) => set l | l in SliceTo(ls, maxPerSite) :: l.url
  }

  /** Content is fetched only for the first `maxPerSite` links of each site, each
      stored text is non-empty and white-space normalised, every content key is the
      URL of a returned link, and no content is kept when none was asked for. */
  lemma {:induction false} ContentOnlyForCappedLinks(web: Web, sites: seq<SiteConfig>, fetchContent: bool, maxPerSite: int, stamp: string)
    ensures var run := AllSitesSpec(web, sites, fetchContent, maxPerSite, stamp);
      && run.content.Keys <= CappedUrls(web, sites, maxPerSite, stamp)
      && (forall u :: u in run.content ==> run.content[u] != "" && Normalised(run.content[u]))
      && (forall u :: u in run.content ==> exists k :: 0 <= k < |run.links| && run.links[k].url == u)
      && (!fetchContent ==> run.content == map[])
    decreases |sites|
  {
    if |sites| > 0 {
      var init := sites[..|sites| - 1];
      ContentOnlyForCappedLinks(web, init, fetchContent, maxPerSite, stamp);
      var prev := AllSitesSpec(web, init, fetchContent, maxPerSite, stamp);
      var run := AllSitesSpec(web, sites, fetchContent, maxPerSite, stamp);
      assert run == AddSite(web, prev, sites[|sites| - 1], fetchContent, maxPerSite, stamp);
      match SiteSpec(web, sites[|sites| - 1], stamp).result
      case Raised =>
      case Completed(ls) =>
        assert run.links == prev.links + ls;
        if fetchContent {
          var lim := SliceTo(ls, maxPerSite);
          ContentFoldProperties(web, lim, prev.content);
          assert run.content == ContentFold(web, lim, prev.content).content;
          forall u | u in run.content
            ensures && u in CappedUrls(web, sites, maxPerSite, stamp)
                    && run.content[u] != "" && Normalised(run.content[u])
                    && exists k :: 0 <= k < |run.links| && run.links[k].url == u
          {
            if u in prev.content && run.content[u] == prev.content[u] {
              var k :| 0 <= k < |prev.links| && prev.links[k].url == u;
              assert run.links[k] == prev.links[k];
            } else {
              var k :| 0 <= k < |lim| && lim[k].url == u;
              assert lim[k] in lim;
              assert run.links[|prev.links| + k] == ls[k];
            }
          }
        }
    }
  }

  /** Failure isolation: a site whose scrape raised leaves the run exactly as if
      it were not configured. */
  lemma {:induction false} FailingSiteIsSkipped(web: Web, pre: seq<SiteConfig>, bad: SiteConfig, post: seq<SiteConfig>,
                                                fetchContent: bool, maxPerSite: int, stamp: string)
    requires SiteSpec(web, bad, stamp).result.Raised?
    ensures AllSitesSpec(web, pre + [bad] + post, fetchContent, maxPerSite, stamp) ==
            AllSitesSpec(web, pre + post, fetchContent, maxPerSite, stamp)
    decreases |post|
  {
    var all := pre + [bad] + post;
    if |post| == 0 {
      assert all[..|all| - 1] == pre;
      assert all[|all| - 1] == bad;
      assert pre + post == pre;
      SitesSnoc(web, all, fetchContent, maxPerSite, stamp);
    } else {
      var init := post[..|post| - 1];
      FailingSiteIsSkipped(web, pre, bad, init, fetchContent, maxPerSite, stamp);
      assert all[..|all| - 1] == pre + [bad] + init;
      assert all[|all| - 1] == post[|post| - 1];
      var good := pre + post;
      assert good[..|good| - 1] == pre + init;
      assert good[|good| - 1] == post[|post| - 1];
      SitesSnoc(web, all, fetchContent, maxPerSite, stamp);
      SitesSnoc(web, good, fetchContent, maxPerSite, stamp);
    }
  }

  /** The run over a non-empty list of sites is the last site added to the run
      over the others. */
  lemma SitesSnoc(web: Web, sites: seq<SiteConfig>, fetchContent: bool, maxPerSite: int, stamp: string)
    requires |sites| > 0
    ensures AllSitesSpec(web, sites, fetchContent, maxPerSite, stamp) ==
            AddSite(web, AllSitesSpec(web, sites[..|sites| - 1], fetchContent, maxPerSite, stamp),
                    sites[|sites| - 1], fetchContent, maxPerSite, stamp)
  {
  }

  // ===========================================================================
  // Saved encodings: `convert_to_xml`, `save_data`

  /** One `<article id=…>` element and its children; `content` is present or not. */
  datatype XmlArticle = XmlArticle(id: string, title: string, url: string, source: string,
                                   scrapedAt: string, content: Option<string>)

  /** The `<health_safety_news scraped_at=… total_articles=…>` document. */
  datatype XmlDoc = XmlDoc(scrapedAt: string, totalArticles: string, articles: seq<XmlArticle>)

  /** The JSON encoding of a run. */
  datatype ScrapedJson = ScrapedJson(scrapedAt: string, totalLinks: nat, totalArticlesWithContent: nat,
                                     links: seq<Link>, articlesContent: map<string, string>)

  function ArticleElement(i: nat, link: Link, content: map<string, string>): XmlArticle {
    XmlArticle(NatToString(i), link.title, link.url, link.source, link.scrapedAt,
               if link.url in content then Some(content[link.url]) else None)
  }

  /** The document `convert_to_xml` builds: one element per link, in order. */
  function XmlSpec(links: seq<Link>, content: map<string, string>, stamp: string): XmlDoc {
    XmlDoc(stamp, NatToString(|links|), seq(|links|, i requires 0 <= i < |links| => ArticleElement(i, links[i], content)))
  }

  method ConvertToXml(links: seq<Link>, content: map<string, string>, stamp: string) returns (doc: XmlDoc)
    ensures doc == XmlSpec(links, content, stamp)
    ensures doc.scrapedAt == stamp && doc.totalArticles == NatToString(|links|)
    ensures |doc.articles| == |links|
    ensures forall i :: 0 <= i < |links| ==> doc.articles[i].id == NatToString(i)
    ensures forall i :: 0 <= i < |links| ==>
      var e := doc.articles[i];
      e.title == links[i].title && e.url == links[i].url && e.source == links[i].source &&
      e.scrapedAt == links[i].scrapedAt &&
      (e.content.Some? <==> links[i].url in content) &&
      (e.content.Some? ==> e.content.value == content[links[i].url])
  {
    var articles: seq<XmlArticle> := [];
    for i := 0 to |links|
      invariant |articles| == i
      invariant forall j :: 0 <= j < i ==> articles[j] == ArticleElement(j, links[j], content)
    {
      var link := links[i];
      var c: Option<string> := None;
      if link.url in content {
        c := Some(content[link.url]);
      }
      articles := articles + [XmlArticle(NatToString(i), link.title, link.url, link.source, link.scrapedAt, c)];
    }
    doc := XmlDoc(stamp, NatToString(|links|), articles);
  }

  /** The JSON payload `save_data` writes beside the XML. */
  function JsonPayload(links: seq<Link>, content: map<string, string>, stamp: string): (j: ScrapedJson)
    ensures j.totalLinks == |links| && j.totalArticlesWithContent == |content|
    ensures j.links == links && j.articlesContent == content
  {
    ScrapedJson(stamp, |links|, |content|, links, content)
  }

  /** The two file names `save_data` returns, in order. */
  function SavedNames(filenameBase: string, timestamp: string): (names: (string, string))
    ensures EndsWith(names.0, ".xml") && EndsWith(names.1, ".json")
  {
    (filenameBase + "_" + timestamp + ".xml", filenameBase + "_" + timestamp + ".json")
  }
}
