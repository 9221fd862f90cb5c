/** The dashboard side of the news pipeline: which processed articles are shown,
    the news metrics computed from them, the incident trend by day, and the small
    helpers of the web application (upload names, form checks, map colours, the
    percentage label for growth from nothing). */
module Dashboard {
  import opened Wrappers
  import opened PyStr
  import opened Seqs
  import opened Counters
  import opened Articles

  // ===========================================================================
  // `allowed_file`

  const AllowedExtensions: set<string> := {"png", "jpg", "jpeg", "gif"}

  /** An upload name is accepted when it has a `.` and the lower-cased text after
      its last `.` is an allowed extension. */
  predicate AllowedFile(filename: string) {
    '.' in filename && Lower(filename[RFind(filename, '.') + 1..]) in AllowedExtensions
  }

  /** A name ending in `.` and a dot-free extension is accepted exactly when the
      lower-cased extension is allowed, whatever comes before it. */
  lemma AllowedFileNamed(base: string, ext: string)
    requires '.' !in ext
    ensures AllowedFile(base + "." + ext) <==> Lower(ext) in AllowedExtensions
  {
    var name := base + "." + ext;
    assert name == base + ("." + ext);
    RFindAppend(base, "." + ext, '.');
    assert RFind("." + ext, '.') == 0;
    assert name[|base| + 1..] == ext;
  }

  /** A name without a `.` is refused. */
  lemma UndottedRefused(filename: string)
    requires '.' !in filename
    ensures !AllowedFile(filename)
  {
  }

  // ===========================================================================
  // `load_processed_articles`: the filter and the cap

  /** An article the dashboard shows: a truthy summary and non-empty content. */
  predicate Shown(p: ProcessedArticle) {
    Truthy(p.summary) && p.article.content != ""
  }

  function KeepShown(): (nat, ProcessedArticle) -> Option<ProcessedArticle> {
    (i: nat, p: ProcessedArticle) => if Shown(p) then Some(p) else None
  }

  const MaxShown := 20

  /** The shown articles of the newest processed file, in order, at most 20. */
  function ShownArticles(ps: seq<ProcessedArticle>): seq<ProcessedArticle> {
    SliceTo(MapSome(KeepShown(), ps), MaxShown)
  }

  /** `load_processed_articles` after the newest file's `articles` list was read
      (`None`: no processed file, or reading it raised): the filter loop, then
      the first 20. */
  method LoadProcessedArticles(file: Option<seq<ProcessedArticle>>) returns (shown: seq<ProcessedArticle>)
    ensures shown == if file.Some? then ShownArticles(file.value) else []
  {
    if file.None? {
      return [];
    }
    var articles := file.value;
    var processed := [];
    for i := 0 to |articles|
      invariant processed == MapSome(KeepShown(), articles[..i])
    {
      MapSomeSnoc(KeepShown(), articles, i);
      var article := articles[i];
      if Truthy(article.summary) && article.article.content != "" {
        processed := processed + [article];
      }
    }
    assert articles[..|articles|] == articles;
    shown := SliceTo(processed, MaxShown);
  }

  /** At most 20 articles are shown, each with a summary and content, in the
      file's order; fewer than 20 only when every showable article is shown. */
  lemma ShownSelection(ps: seq<ProcessedArticle>)
    ensures var r := ShownArticles(ps);
            var idx := SomeIndices(KeepShown(), ps);
      && |r| == Min(MaxShown, |idx|)
      && (forall k :: 0 <= k < |r| ==> idx[k] < |ps| && r[k] == ps[idx[k]] && Shown(r[k]))
      && (forall k, l :: 0 <= k < l < |idx| ==> idx[k] < idx[l])
      && (forall j :: 0 <= j < |ps| && Shown(ps[j]) ==> j in idx)
  {
    MapSomeSelection(KeepShown(), ps);
    var idx := SomeIndices(KeepShown(), ps);
    forall j | 0 <= j < |ps| && Shown(ps[j]) ensures j in idx {
      assert KeepShown()(j, ps[j]).Some?;
    }
  }

  // ===========================================================================
  // `calculate_news_metrics`

  const SeverityKey := "severity"
  const TypeKey := "type"
  const IndustryKey := "industry"
  const FineKey := "fine"
  const CompanyKey := "company"
  const Unknown := "Unknown"
  const Critical := "Critical"
  const High := "High"
  const Medium := "Medium"
  const Low := "Low"
  const ConstructionWord := "construction"

  /** The risk bucket a severity falls in: Critical and High are high risk;
      Medium and Low only as themselves. */
  datatype Risk = HighRisk | MediumRisk | LowRisk | NoBucket

  function RiskOf(severity: string): (r: Risk)
    ensures r == HighRisk <==> severity == Critical || severity == High
    ensures r == MediumRisk <==> severity == Medium
    ensures r == LowRisk <==> severity == Low
  {
    if severity == Critical || severity == High then HighRisk
    else if severity == Medium then MediumRisk
    else if severity == Low then LowRisk
    else NoBucket
  }

  /** What one summary contributes: its severity and type (`Unknown` when
      missing), its bucket, whether its industry mentions construction in any
      case, its fine under the `£` rule, and its company. */
  datatype Entry = Entry(severity: string, kind: string, construction: bool, fine: int, company: string)

  function EntryOf(m: map<string, string>): (e: Entry)
    ensures SeverityKey !in m ==> e.severity == Unknown
    ensures TypeKey !in m ==> e.kind == Unknown
  {
    Entry(Get(m, SeverityKey, Unknown), Get(m, TypeKey, Unknown),
          Contains(Lower(Get(m, IndustryKey, "")), ConstructionWord),
          FineAmount(Pound, Get(m, FineKey, "")), Get(m, CompanyKey, ""))
  }

  /** The entry of an article with a truthy object summary; none for a falsy one. */
  function EntryAt(i: nat, p: ProcessedArticle): Option<Entry> {
    match p.summary
    case Object(m) => if |m| > 0 then Some(EntryOf(m)) else None
    case Other(_) => None
  }

  /** A truthy summary that is not an object: `.get` on it raises. */
  predicate Raises(p: ProcessedArticle) {
    p.summary.Other? && p.summary.truthy
  }

  /** A company name the list collects. */
  predicate Notable(company: string) {
    company != "" && company != Unknown && |company| > 3
  }

  /** The metrics dict. */
  datatype Metrics = Metrics(
    totalArticles: nat,
    highRisk: nat,
    mediumRisk: nat,
    lowRisk: nat,
    totalFines: int,
    constructionIncidents: nat,
    severityDistribution: Counter<string>,
    incidentTypes: Counter<string>,
    recentCompanies: seq<string>)

  /** One entry added to the metrics. */
  function Add(m: Metrics, e: Entry): Metrics {
    var risk := RiskOf(e.severity);
    m.(highRisk := m.highRisk + (if risk == HighRisk then 1 else 0),
       mediumRisk := m.mediumRisk + (if risk == MediumRisk then 1 else 0),
       lowRisk := m.lowRisk + (if risk == LowRisk then 1 else 0),
       severityDistribution := Bump(m.severityDistribution, e.severity),
       incidentTypes := Bump(m.incidentTypes, e.kind),
       constructionIncidents := m.constructionIncidents + (if e.construction then 1 else 0),
       totalFines := m.totalFines + e.fine,
       recentCompanies := if Notable(e.company) && e.company !in m.recentCompanies
                          then m.recentCompanies + [e.company] else m.recentCompanies)
  }

  /** The metrics of `total` articles whose counted summaries gave `es`. */
  function MetricsOf(total: nat, es: seq<Entry>): Metrics
    decreases |es|
  {
    if |es| == 0 then Metrics(total, 0, 0, 0, 0, 0, [], [], [])
    else Add(MetricsOf(total, es[..|es| - 1]), es[|es| - 1])
  }

  lemma MetricsSnoc(total: nat, es: seq<Entry>, e: Entry)
    ensures MetricsOf(total, es + [e]) == Add(MetricsOf(total, es), e)
  {
    assert (es + [e])[..|es|] == es;
  }

  /** `calculate_news_metrics`: none when a summary raises; otherwise the
      metrics of the entries of the truthy summaries, in order. */
  function NewsMetrics(ps: seq<ProcessedArticle>): Option<Metrics> {
    if forall i :: 0 <= i < |ps| ==> !Raises(ps[i]) then Some(MetricsOf(|ps|, MapSome(EntryAt, ps)))
    else None
  }

  /** The loop over the articles, updating the metrics dict field by field. */
  method CalculateNewsMetrics(ps: seq<ProcessedArticle>) returns (r: Option<Metrics>)
    ensures r == NewsMetrics(ps)
  {
    var m := Metrics(|ps|, 0, 0, 0, 0, 0, [], [], []);
    ghost var es: seq<Entry> := [];
    for i := 0 to |ps|
      invariant forall j :: 0 <= j < i ==> !Raises(ps[j])
      invariant es == MapSome(EntryAt, ps[..i])
      invariant m == MetricsOf(|ps|, es)
    {
      MapSomeSnoc(EntryAt, ps, i);
      var summary := ps[i].summary;
      if !Truthy(summary) {
        assert EntryAt(i, ps[i]).None?;
        continue;
      }
      if summary.Other? {
        assert Raises(ps[i]);
        return None;
      }
      ghost var e := EntryOf(summary.fields);
      assert EntryAt(i, ps[i]) == Some(e);
      MetricsSnoc(|ps|, es, e);
      m := Count(m, summary.fields);
      es := es + [e];
    }
    assert ps[..|ps|] == ps;
    r := Some(m);
  }

  /** The body of the loop for one object summary. */
  method Count(m0: Metrics, summary: map<string, string>) returns (m: Metrics)
    ensures m == Add(m0, EntryOf(summary))
  {
    m := m0;
    var severity := Get(summary, SeverityKey, Unknown);
    if severity == Critical || severity == High {
      m := m.(highRisk := m.highRisk + 1);
    } else if severity == Medium {
      m := m.(mediumRisk := m.mediumRisk + 1);
    } else if severity == Low {
      m := m.(lowRisk := m.lowRisk + 1);
    }
    m := m.(severityDistribution := Bump(m.severityDistribution, severity));
    var incidentType := Get(summary, TypeKey, Unknown);
    m := m.(incidentTypes := Bump(m.incidentTypes, incidentType));
    var industry := Get(summary, IndustryKey, "");
    if Contains(Lower(industry), ConstructionWord) {
      m := m.(constructionIncidents := m.constructionIncidents + 1);
    }
    var fine := Get(summary, FineKey, "");
    m := m.(totalFines := m.totalFines + FineAmount(Pound, fine));
    var company := Get(summary, CompanyKey, "");
    if company != "" && company != Unknown && |company| > 3 {
      if company !in m.recentCompanies {
        m := m.(recentCompanies := m.recentCompanies + [company]);
      }
    }
  }

  /** The severities of the entries, and the notable companies they name. */
  function Severities(es: seq<Entry>): (s: seq<string>)
    ensures |s| == |es| && forall i :: 0 <= i < |es| ==> s[i] == es[i].severity
  {
    seq(|es|, i requires 0 <= i < |es| => es[i].severity)
  }

  function Kinds(es: seq<Entry>): (s: seq<string>)
    ensures |s| == |es| && forall i :: 0 <= i < |es| ==> s[i] == es[i].kind
  {
    seq(|es|, i requires 0 <= i < |es| => es[i].kind)
  }

  function NotableCompanies(es: seq<Entry>): seq<string>
    decreases |es|
  {
    if |es| == 0 then []
    else NotableCompanies(es[..|es| - 1]) + (if Notable(es[|es| - 1].company) then [es[|es| - 1].company] else [])
  }

  /** The four severities the buckets name are different strings. */
  lemma SeveritiesDistinct()
    ensures Critical != High && Critical != Medium && Critical != Low
    ensures High != Medium && High != Low && Medium != Low
  {
    assert Critical[0] == 'C' && High[0] == 'H' && Medium[0] == 'M' && Low[0] == 'L';
  }

  /** The two distributions are the tallies of the severities and of the types,
      and the total is the one given. */
  lemma {:induction false} MetricsTallies(total: nat, es: seq<Entry>)
    ensures var m := MetricsOf(total, es);
      && m.totalArticles == total
      && m.severityDistribution == Tally(Severities(es))
      && m.incidentTypes == Tally(Kinds(es))
    decreases |es|
  {
    if |es| > 0 {
      var init := es[..|es| - 1];
      MetricsTallies(total, init);
      assert Severities(es)[..|es| - 1] == Severities(init);
      assert Kinds(es)[..|es| - 1] == Kinds(init);
    }
  }

  /** The company list is the notable companies named, without repeats. */
  lemma {:induction false} MetricsCompanies(total: nat, es: seq<Entry>)
    ensures MetricsOf(total, es).recentCompanies == Dedup(NotableCompanies(es))
    decreases |es|
  {
    if |es| > 0 {
      var init := es[..|es| - 1];
      var c := es[|es| - 1].company;
      MetricsCompanies(total, init);
      var nc := NotableCompanies(init);
      if Notable(c) {
        assert NotableCompanies(es) == nc + [c];
        assert (nc + [c])[..|nc|] == nc;
      } else {
        assert NotableCompanies(es) == nc;
      }
    }
  }

  /** The buckets are the distribution's Critical and High counts, its Medium
      count and its Low count; the construction count is at most the entries. */
  lemma {:induction false} MetricsBuckets(total: nat, es: seq<Entry>)
    ensures var m := MetricsOf(total, es);
      && m.highRisk == CountOf(m.severityDistribution, Critical) + CountOf(m.severityDistribution, High)
      && m.mediumRisk == CountOf(m.severityDistribution, Medium)
      && m.lowRisk == CountOf(m.severityDistribution, Low)
      && m.constructionIncidents <= |es|
    decreases |es|
  {
    if |es| > 0 {
      var init := es[..|es| - 1];
      var e := es[|es| - 1];
      MetricsBuckets(total, init);
      BumpSpec(MetricsOf(total, init).severityDistribution, e.severity);
      SeveritiesDistinct();
    }
  }

  /** Every count is bounded by the entries: the buckets together, each
      distribution's total, and the construction count. */
  lemma CountsBounded(total: nat, es: seq<Entry>)
    ensures var m := MetricsOf(total, es);
      && m.highRisk + m.mediumRisk + m.lowRisk <= |es|
      && Total(m.severityDistribution) == |es|
      && Total(m.incidentTypes) == |es|
  {
    MetricsTallies(total, es);
    MetricsBuckets(total, es);
    var m := MetricsOf(total, es);
    TallySpec(Severities(es));
    TallySpec(Kinds(es));
    BucketsBounded(m.severityDistribution);
  }

  /** Three counts of one counter add up to at most its total. */
  lemma {:induction false} BucketsBounded(c: Counter<string>)
    ensures CountOf(c, Critical) + CountOf(c, High) + CountOf(c, Medium) + CountOf(c, Low) <= Total(c)
    decreases |c|
  {
    if |c| > 0 {
      BucketsBounded(c[1..]);
      SeveritiesDistinct();
    }
  }

  /** The sum of the fines the entries carry. */
  function FineSum(es: seq<Entry>): int
    decreases |es|
  {
    if |es| == 0 then 0 else FineSum(es[..|es| - 1]) + es[|es| - 1].fine
  }

  /** The number of entries whose industry mentions construction. */
  function ConstructionCount(es: seq<Entry>): nat
    decreases |es|
  {
    if |es| == 0 then 0
    else ConstructionCount(es[..|es| - 1]) + (if es[|es| - 1].construction then 1 else 0)
  }

  /** The fine total is the sum of the entries' `£` amounts, and the construction
      count the number of entries that mention construction. */
  lemma {:induction false} MetricsSums(total: nat, es: seq<Entry>)
    ensures var m := MetricsOf(total, es);
      && m.totalFines == FineSum(es)
      && m.constructionIncidents == ConstructionCount(es) <= |es|
    decreases |es|
  {
    if |es| > 0 {
      MetricsSums(total, es[..|es| - 1]);
    }
  }

  /** The company list has no repeats, holds exactly the notable companies the
      counted summaries name, and lists them in order of first mention. */
  lemma CompaniesSpec(total: nat, es: seq<Entry>)
    ensures var r := MetricsOf(total, es).recentCompanies;
      && NoDuplicates(r)
      && (forall c :: c in r ==> Notable(c))
      && (forall i :: 0 <= i < |es| && Notable(es[i].company) ==> es[i].company in r)
      && (forall c :: c in r ==> exists i :: 0 <= i < |es| && es[i].company == c)
  {
    MetricsCompanies(total, es);
    DedupSpec(NotableCompanies(es));
    NotableCompaniesSpec(es);
  }

  lemma {:induction false} NotableCompaniesSpec(es: seq<Entry>)
    ensures forall c :: c in NotableCompanies(es) ==> Notable(c) && exists i :: 0 <= i < |es| && es[i].company == c
    ensures forall i :: 0 <= i < |es| && Notable(es[i].company) ==> es[i].company in NotableCompanies(es)
    decreases |es|
  {
    if |es| > 0 {
      var init := es[..|es| - 1];
      NotableCompaniesSpec(init);
      forall c | c in NotableCompanies(init) ensures exists i :: 0 <= i < |es| && es[i].company == c {
        var i :| 0 <= i < |init| && init[i].company == c;
        assert es[i].company == c;
      }
      forall i | 0 <= i < |es| - 1 && Notable(es[i].company) ensures es[i].company in NotableCompanies(es) {
        assert init[i] == es[i];
      }
    }
  }

  /** Over the articles: no metrics when some summary raises; otherwise every
      article is in the total, the counted entries are those of the truthy
      summaries in order, and the buckets together count at most them. */
  lemma NewsMetricsSpec(ps: seq<ProcessedArticle>)
    ensures NewsMetrics(ps).None? <==> exists i :: 0 <= i < |ps| && Raises(ps[i])
    ensures NewsMetrics(ps).Some? ==>
      var m := NewsMetrics(ps).value;
      var idx := SomeIndices(EntryAt, ps);
      && m.totalArticles == |ps|
      && (forall j :: 0 <= j < |ps| ==> (j in idx <==> Truthy(ps[j].summary)))
      && m.highRisk + m.mediumRisk + m.lowRisk <= |idx| <= |ps|
      && Total(m.severityDistribution) == |idx| && Total(m.incidentTypes) == |idx|
  {
    if NewsMetrics(ps).Some? {
      var es := MapSome(EntryAt, ps);
      MapSomeSelection(EntryAt, ps);
      MetricsTallies(|ps|, es);
      CountsBounded(|ps|, es);
      var idx := SomeIndices(EntryAt, ps);
      forall j | 0 <= j < |ps| ensures j in idx <==> Truthy(ps[j].summary) {
        if j in idx {
          var k :| 0 <= k < |idx| && idx[k] == j;
        } else {
          assert !Raises(ps[j]);
        }
      }
    }
  }

  /** Any whole number written after `£` with thousands separators counts in
      full; the marker the briefing looks for finds nothing in it. */
  lemma MarkersDisagree(n: int)
    ensures FineAmount(Pound, Pound + Thousands(n)) == n
    ensures FineAmount(MojibakePound, Pound + Thousands(n)) == 0
  {
    FineReadsWrittenAmount(Pound, n);
    var fine := Pound + Thousands(n);
    ThousandsChars(n);
    assert forall j :: 0 <= j < |fine| ==> fine[j] != MojibakePound[0];
    ContainsSpec(fine, MojibakePound);
  }

  // ===========================================================================
  // `get_trend_data`

  /** The time stamp an article is dated by: `scraped_at`, else `processed_at`. */
  function DateOf(p: ProcessedArticle): string {
    Or(p.article.scrapedAt, p.processedAt)
  }

  /** The day of an article, for the day an ISO time stamp (with `Z` removed)
      falls on, where `day` is `None` when parsing raises; none for an undated
      article. */
  function DayOf(day: string -> Option<string>, p: ProcessedArticle): Option<string> {
    if DateOf(p) != "" then day(RemoveAll(DateOf(p), "Z")) else None
  }

  function DayAt(day: string -> Option<string>): (nat, ProcessedArticle) -> Option<string> {
    (i: nat, p: ProcessedArticle) => DayOf(day, p)
  }

  /** The articles per day, in order of first appearance. */
  function DailyCounts(ps: seq<ProcessedArticle>, day: string -> Option<string>): Counter<string> {
    Tally(MapSome(DayAt(day), ps))
  }

  const TrendDays := 7

  /** The last seven of the sorted days (`sorted(keys)[-7:]`). */
  function LastDays(c: Counter<string>): seq<string> {
    var s := Sorted(Keys(c));
    s[(if |s| > TrendDays then |s| - TrendDays else 0)..]
  }

  /** The trend: each of the last seven days with its count. */
  function Trend(c: Counter<string>): (t: seq<(string, nat)>)
    ensures |t| == |LastDays(c)|
    ensures forall i :: 0 <= i < |t| ==> t[i] == (LastDays(c)[i], CountOf(c, LastDays(c)[i]))
  {
    var days := LastDays(c);
    seq(|days|, i requires 0 <= i < |days| => (days[i], CountOf(c, days[i])))
  }

  /** `get_trend_data`: the counting loop, then the last seven days. The
      per-severity lists the function builds are never returned. */
  method GetTrendData(ps: seq<ProcessedArticle>, day: string -> Option<string>) returns (trend: seq<(string, nat)>)
    ensures trend == Trend(DailyCounts(ps, day))
  {
    var dailyCounts: Counter<string> := [];
    ghost var days: seq<string> := [];
    for i := 0 to |ps|
      invariant days == MapSome(DayAt(day), ps[..i])
      invariant dailyCounts == Tally(days)
    {
      MapSomeSnoc(DayAt(day), ps, i);
      var dateStr := Or(ps[i].article.scrapedAt, ps[i].processedAt);
      assert DayAt(day)(i, ps[i]) == DayOf(day, ps[i]);
      if dateStr != "" {
        var d := day(RemoveAll(dateStr, "Z"));
        if d.Some? {
          TallySnoc(days, d.value);
          dailyCounts := Bump(dailyCounts, d.value);
          days := days + [d.value];
        }
      }
    }
    assert ps[..|ps|] == ps;
    trend := Trend(dailyCounts);
  }

  /** The last days of distinct keys: at most seven, ascending, all keys when
      there are at most seven, and later than every key they leave out. */
  lemma LastDaysSpec(c: Counter<string>)
    requires NoDuplicates(Keys(c))
    ensures var t := LastDays(c);
      && |t| == Min(TrendDays, |c|)
      && Ascending(t)
      && (forall x :: x in t ==> x in Keys(c))
      && (forall d :: d in Keys(c) && d !in t ==> forall i :: 0 <= i < |t| ==> Less(d, t[i]))
  {
    var keys := Keys(c);
    SortedSpec(keys);
    var s := Sorted(keys);
    assert |s| == |keys| by {
      assert |multiset(s)| == |multiset(keys)|;
    }
    var cut := if |s| > TrendDays then |s| - TrendDays else 0;
    var t := s[cut..];
    assert LastDays(c) == t;
    forall i, j | 0 <= i < j < |t| ensures Less(t[i], t[j]) {
      assert t[i] == s[cut + i] && t[j] == s[cut + j];
    }
    forall x | x in t ensures x in keys {
      assert x in multiset(s);
    }
    forall d | d in keys && d !in t
      ensures forall i :: 0 <= i < |t| ==> Less(d, t[i])
    {
      assert d in multiset(s);
      var k :| 0 <= k < |s| && s[k] == d;
      SuffixLater(s, cut, k);
    }
  }

  /** In an ascending list, an element before a cut is less than everything from
      the cut on. */
  lemma SuffixLater(s: seq<string>, cut: nat, k: nat)
    requires Ascending(s) && k < |s| && cut <= |s| && s[k] !in s[cut..]
    ensures forall i :: 0 <= i < |s| - cut ==> Less(s[k], s[cut..][i])
  {
    forall i | 0 <= i < |s| - cut ensures Less(s[k], s[cut..][i]) {
      assert s[cut..][i] == s[cut + i];
    }
  }

  /** The trend shows the latest seven days (all of them when there are fewer),
      in ascending order, each with the number of articles dated on it; every
      dated day it leaves out is earlier than every day shown. */
  lemma TrendSpec(ps: seq<ProcessedArticle>, day: string -> Option<string>)
    ensures var days := MapSome(DayAt(day), ps);
            var t := Trend(DailyCounts(ps, day));
            var shown := LastDays(DailyCounts(ps, day));
      && |t| == |shown| == Min(TrendDays, |Dedup(days)|)
      && Ascending(shown)
      && (forall i :: 0 <= i < |t| ==> t[i].0 == shown[i] && shown[i] in days && t[i].1 == multiset(days)[shown[i]])
      && (forall d :: d in days && d !in shown ==> forall i :: 0 <= i < |shown| ==> Less(d, shown[i]))
  {
    var days := MapSome(DayAt(day), ps);
    var c := Tally(days);
    TallySpec(days);
    DedupSpec(days);
    LastDaysSpec(c);
  }

  // ===========================================================================
  // `get_incident_color`

  const IncidentColors: map<string, string> := map[
    "Near Miss" := "orange",
    "Accident" := "red",
    "Environmental" := "green",
    "Safety Observation" := "blue",
    "Injury" := "darkred",
    "Property Damage" := "purple"]

  const Gray := "gray"

  /** The marker colour of an incident type: its mapped colour, `gray` for any
      other type. */
  function IncidentColor(incidentType: string): string {
    if incidentType in IncidentColors then IncidentColors[incidentType] else Gray
  }

  /** The six known types have their own colours, none of them gray, so gray
      marks exactly the unknown types. */
  lemma IncidentColorSpec(incidentType: string)
    ensures IncidentColor(incidentType) == Gray <==> incidentType !in IncidentColors
    ensures incidentType in IncidentColors ==> IncidentColor(incidentType) == IncidentColors[incidentType]
  {
    if incidentType in IncidentColors {
      assert incidentType == "Near Miss" || incidentType == "Accident" || incidentType == "Environmental" ||
             incidentType == "Safety Observation" || incidentType == "Injury" || incidentType == "Property Damage";
      assert Gray[0] == 'g' && Gray[1] == 'r';
    }
  }

  // ===========================================================================
  // `validate_form_data`

  const RequiredFields: seq<string> := ["reporterType", "incidentType", "industry", "companyName", "description"]

  /** A field that is missing, empty or only whitespace. */
  predicate Blank(form: map<string, string>, field: string) {
    field !in form || form[field] == "" || Strip(form[field]) == ""
  }

  /** The message for a missing field: its name with `_` as spaces, title-cased,
      then ` is required`. */
  function FieldError(field: string): string {
    Title(ReplaceChar(field, '_', ' ')) + " is required"
  }

  function ErrorAt(form: map<string, string>): (nat, string) -> Option<string> {
    (i: nat, field: string) => if Blank(form, field) then Some(FieldError(field)) else None
  }

  /** The messages for the blank required fields, in the fields' order. */
  function FormErrors(form: map<string, string>): seq<string> {
    MapSome(ErrorAt(form), RequiredFields)
  }

  /** The loop over the required fields. */
  method ValidateFormData(form: map<string, string>) returns (errors: seq<string>)
    ensures errors == FormErrors(form)
  {
    errors := [];
    for i := 0 to |RequiredFields|
      invariant errors == MapSome(ErrorAt(form), RequiredFields[..i])
    {
      MapSomeSnoc(ErrorAt(form), RequiredFields, i);
      var field := RequiredFields[i];
      if field !in form || form[field] == "" || Strip(form[field]) == "" {
        errors := errors + [FieldError(field)];
      }
    }
    assert RequiredFields[..|RequiredFields|] == RequiredFields;
  }

  /** One message per blank required field, in order, and none for a filled
      one: the list is empty exactly when every required field is filled. */
  lemma FormErrorsSpec(form: map<string, string>)
    ensures var errors := FormErrors(form);
            var idx := SomeIndices(ErrorAt(form), RequiredFields);
      && |errors| == |idx| <= |RequiredFields|
      && (forall k :: 0 <= k < |idx| ==> idx[k] < |RequiredFields| && Blank(form, RequiredFields[idx[k]])
                                         && errors[k] == FieldError(RequiredFields[idx[k]]))
      && (forall k, l :: 0 <= k < l < |idx| ==> idx[k] < idx[l])
      && (forall j :: 0 <= j < |RequiredFields| && Blank(form, RequiredFields[j]) ==> j in idx)
      && (errors == [] <==> forall j :: 0 <= j < |RequiredFields| ==> !Blank(form, RequiredFields[j]))
  {
    MapSomeSelection(ErrorAt(form), RequiredFields);
    var idx := SomeIndices(ErrorAt(form), RequiredFields);
    forall j | 0 <= j < |RequiredFields| && Blank(form, RequiredFields[j]) ensures j in idx {
      assert ErrorAt(form)(j, RequiredFields[j]).Some?;
    }
    if FormErrors(form) != [] {
      assert Blank(form, RequiredFields[idx[0]]);
    }
  }

  // ===========================================================================
  // `calculate_percentage_change`

  /** The percentage label for growth from a previous value of zero: `+100%`
      for a positive current value and `0%` otherwise; `None` for a non-zero
      previous value, whose floating-point label this model leaves out. */
  function PercentageChange(current: int, previous: int): (r: Option<string>)
    ensures r.Some? <==> previous == 0
    ensures previous == 0 ==> (r == Some("+100%") <==> current > 0) && (r == Some("0%") <==> current <= 0)
  {
    if previous == 0 then Some(if current > 0 then "+100%" else "0%") else None
  }
}
