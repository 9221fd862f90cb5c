/** The model client (`GeminiRestProcessor`): one retrying `generateContent`
    request, the per-article summariser with its code-fence cleaner, and the
    dashboard briefing with the figures it is written from.

    The API is an abstract input: `Api(prompt)` is the sequence of outcomes that
    successive POSTs of that prompt meet. */
module GeminiRest {
  import opened Wrappers
  import opened PyStr
  import opened Seqs
  import opened Articles
  import Scraper

  // ===========================================================================
  // One request: `_make_request`

  /** The parts of a decoded `generateContent` answer the code reads. A key that
      is absent is `None`; a part without `text` reads as `''`. A JSON null is
      read as an absent key. For `candidates` and `parts` the source does the
      same. A null `content` makes `.get` raise `AttributeError` instead, which
      only the callers catch. A null `text` comes back as `None`, where the
      model gives `''`. Either way the callers end as the model has them. */
  datatype Part = Part(text: Option<string>)
  datatype Content = Content(parts: Option<seq<Part>>)
  datatype Candidate = Candidate(content: Option<Content>)
  datatype Body = Body(candidates: Option<seq<Candidate>>)

  /** One POST: an HTTP status with its decoded body (`None` when the body is not
      JSON), or a `RequestException` (connection error, 30-second timeout). */
  datatype HttpOutcome = Http(status: int, body: Option<Body>) | NetworkError

  /** `candidates[0].content.parts[0].text`, when every step is present and
      non-empty; the text of a part without one is `''`. */
  function ExtractText(b: Body): (t: Option<string>)
    ensures t.Some? <==>
      && b.candidates.Some? && |b.candidates.value| > 0
      && b.candidates.value[0].content.Some? && b.candidates.value[0].content.value.parts.Some?
      && |b.candidates.value[0].content.value.parts.value| > 0
  {
    if b.candidates.None? || |b.candidates.value| == 0 then None
    else
      var c := b.candidates.value[0].content.GetOr(Content(None));
      if c.parts.None? || |c.parts.value| == 0 then None
      else Some(c.parts.value[0].text.GetOr(""))
  }

  /** A finished request: the text (or `None`), attempts made, and sleeps taken. */
  datatype Reply = Reply(text: Option<string>, attempts: nat, sleeps: seq<nat>)

  predicate IsOk(o: HttpOutcome) {
    o.Http? && o.status == 200
  }

  predicate IsRateLimited(o: HttpOutcome) {
    o.Http? && o.status == 429
  }

  /** What the allowed attempts meet; attempts past the end of `outs` fail. */
  function Outcomes(outs: seq<HttpOutcome>, maxRetries: int): (t: seq<HttpOutcome>)
    ensures |t| == Scraper.Budget(maxRetries)
  {
    seq(Scraper.Budget(maxRetries), i requires 0 <= i < Scraper.Budget(maxRetries) =>
      if i < |outs| then outs[i] else NetworkError)
  }

  /** The sleeps taken during the first `k` attempts: `2 ** attempt` after each
      rate-limited one, and nothing after any other. */
  function RateLimitSleeps(tries: seq<HttpOutcome>, k: nat): (d: seq<nat>)
    requires k <= |tries|
    ensures |d| <= k
    decreases k
  {
    if k == 0 then []
    else RateLimitSleeps(tries, k - 1) + (if IsRateLimited(tries[k - 1]) then [Scraper.Pow2(k - 1)] else [])
  }

  /** The request reference: the first answer with status 200 decides (its text,
      or `None` when it has none or is not JSON); without one, `None` after all
      attempts. */
  function RequestSpec(outs: seq<HttpOutcome>, maxRetries: int): Reply {
    var tries := Outcomes(outs, maxRetries);
    match FirstIndex(tries, IsOk, 0)
    case Some(k) =>
      Reply(if tries[k].body.Some? then ExtractText(tries[k].body.value) else None, k + 1, RateLimitSleeps(tries, k))
    case None => Reply(None, |tries|, RateLimitSleeps(tries, |tries|))
  }

  method MakeRequest(outs: seq<HttpOutcome>, maxRetries: int) returns (text: Option<string>, attempts: nat, sleeps: seq<nat>)
    ensures Reply(text, attempts, sleeps) == RequestSpec(outs, maxRetries)
  {
    ghost var tries := Outcomes(outs, maxRetries);
    sleeps := [];
    var attempt := 0;
    while attempt < maxRetries
      invariant 0 <= attempt <= Scraper.Budget(maxRetries)
      invariant forall j :: 0 <= j < attempt ==> !IsOk(tries[j])
      invariant sleeps == RateLimitSleeps(tries, attempt)
    {
      var response := if attempt < |outs| then outs[attempt] else NetworkError;
      assert response == tries[attempt];
      if response.NetworkError? {
        if attempt == maxRetries - 1 {
          assert RateLimitSleeps(tries, attempt + 1) == sleeps + [];
          return None, attempt + 1, sleeps;
        }
      } else if response.status == 200 {
        FirstIndexIs(tries, IsOk, 0, attempt);
        if response.body.None? {
          return None, attempt + 1, sleeps;
        }
        return ExtractText(response.body.value), attempt + 1, sleeps;
      } else if response.status == 429 {
        sleeps := sleeps + [Scraper.Pow2(attempt)];
      } else if attempt == maxRetries - 1 {
        return None, attempt + 1, sleeps;
      }
      attempt := attempt + 1;
    }
    return None, attempt, sleeps;
  }

  /** The reply's text comes from a 200 answer at the last attempt made; no more
      than `maxRetries` attempts are made; one sleep per rate-limited attempt. */
  lemma RequestProperties(outs: seq<HttpOutcome>, maxRetries: int)
    ensures RequestSpec(outs, maxRetries).attempts <= Scraper.Budget(maxRetries)
    ensures |RequestSpec(outs, maxRetries).sleeps| <= RequestSpec(outs, maxRetries).attempts
    ensures var r := RequestSpec(outs, maxRetries);
      r.text.Some? ==>
        && r.attempts - 1 < |outs| && IsOk(outs[r.attempts - 1])
        && outs[r.attempts - 1].body.Some? && ExtractText(outs[r.attempts - 1].body.value) == r.text
    ensures (forall i :: 0 <= i < Scraper.Budget(maxRetries) ==> !(i < |outs| && IsOk(outs[i]))) ==>
      RequestSpec(outs, maxRetries).text.None?
    ensures var r := RequestSpec(outs, maxRetries);
      forall i :: 0 <= i < r.attempts - 1 ==> !(i < |outs| && IsOk(outs[i]))
    ensures var r := RequestSpec(outs, maxRetries);
      0 < r.attempts < Scraper.Budget(maxRetries) ==> r.attempts - 1 < |outs| && IsOk(outs[r.attempts - 1])
  {
    var tries := Outcomes(outs, maxRetries);
    match FirstIndex(tries, IsOk, 0)
    case Some(k) =>
      assert tries[k] == outs[k];
      forall i | 0 <= i < k ensures !(i < |outs| && IsOk(outs[i])) {
        assert !IsOk(tries[i]);
      }
    case None =>
      forall i | 0 <= i < |tries| ensures !(i < |outs| && IsOk(outs[i])) {
        assert !IsOk(tries[i]);
      }
  }

  /** Every sleep follows a rate-limited attempt and lasts `2 ** attempt`. */
  lemma {:induction false} SleepsFollowRateLimits(tries: seq<HttpOutcome>, k: nat)
    requires k <= |tries|
    ensures forall s :: 0 <= s < |RateLimitSleeps(tries, k)| ==> SleepAfterRateLimit(tries, k, RateLimitSleeps(tries, k)[s])
    decreases k
  {
    if k > 0 {
      SleepsFollowRateLimits(tries, k - 1);
      var prev := RateLimitSleeps(tries, k - 1);
      var d := RateLimitSleeps(tries, k);
      assert d == prev + (if IsRateLimited(tries[k - 1]) then [Scraper.Pow2(k - 1)] else []);
      forall s | 0 <= s < |d|
        ensures SleepAfterRateLimit(tries, k, d[s])
      {
        if s < |prev| {
          assert SleepAfterRateLimit(tries, k - 1, prev[s]);
          var j :| 0 <= j < k - 1 && IsRateLimited(tries[j]) && prev[s] == Scraper.Pow2(j);
          assert d[s] == prev[s];
        } else {
          assert IsRateLimited(tries[k - 1]) && d[s] == Scraper.Pow2(k - 1);
        }
      }
    }
  }

  /** A sleep of `v` seconds follows one of the first `k` attempts that was rate
      limited, and lasts `2 ** attempt`. */
  predicate SleepAfterRateLimit(tries: seq<HttpOutcome>, k: nat, v: nat)
    requires k <= |tries|
  {
    exists j :: 0 <= j < k && IsRateLimited(tries[j]) && v == Scraper.Pow2(j)
  }

  /** Rate limiting throughout: every attempt is made and each is followed by a
      sleep, the last one included; the result is `None`. */
  lemma {:induction false} AlwaysRateLimited(outs: seq<HttpOutcome>, maxRetries: int)
    requires |outs| >= Scraper.Budget(maxRetries)
    requires forall i :: 0 <= i < |outs| ==> IsRateLimited(outs[i])
    ensures RequestSpec(outs, maxRetries) == Reply(None, Scraper.Budget(maxRetries), Scraper.Backoff(Scraper.Budget(maxRetries)))
  {
    var tries := Outcomes(outs, maxRetries);
    assert forall i :: 0 <= i < |tries| ==> tries[i] == outs[i];
    AllRateLimitedSleeps(tries, |tries|);
  }

  lemma {:induction false} AllRateLimitedSleeps(tries: seq<HttpOutcome>, k: nat)
    requires k <= |tries|
    requires forall i :: 0 <= i < k ==> IsRateLimited(tries[i])
    ensures RateLimitSleeps(tries, k) == Scraper.Backoff(k)
    decreases k
  {
    if k > 0 {
      AllRateLimitedSleeps(tries, k - 1);
      assert Scraper.Backoff(k) == Scraper.Backoff(k - 1) + [Scraper.Pow2(k - 1)];
    }
  }

  // ===========================================================================
  // Article summaries: `summarize_article`

  /** The figures the briefing prompt reports. */
  datatype Figures = Figures(total: nat, critical: nat, high: nat, medium: nat, low: nat,
                             construction: nat, fineTotal: int)

  /** The prompts the client sends, by the data they are built from: the article
      prompt carries the title and the first 2 500 characters of the content; the
      briefing prompt carries the figures. The fixed text around them is left out. */
  datatype Prompt = ArticlePrompt(title: string, excerpt: string) | BriefingPrompt(figures: Figures)

  type Api = Prompt -> seq<HttpOutcome>

  /** `content[:2500]`. */
  function Excerpt(content: string): (e: string)
    ensures |e| <= 2500 && |e| <= |content| && e == content[..|e|]
    ensures |content| <= 2500 ==> e == content
  {
    SliceTo(content, 2500)
  }

  predicate OpensJson(line: string) {
    StartsWith(Strip(line), "{")
  }

  predicate ClosesJson(line: string) {
    EndsWith(Strip(line), "}")
  }

  /** The fenced-block rule: from the first line that opens a JSON object up to
      and including the first line at or after it that closes one, or to the end. */
  function JsonBlock(lines: seq<string>): seq<string> {
    Block(lines, OpensJson, ClosesJson)
  }

  /** What the summariser returns for a reply: its stripped text, and for a
      fenced reply only the JSON block's lines. */
  function CleanReply(response: string): (cleaned: string) {
    var stripped := Strip(response);
    if StartsWith(stripped, "```") then Join(JsonBlock(Split(stripped, '\n')), "\n") else stripped
  }

  /** The summariser's reference: `None` when the request gives no text, or
      an empty one; otherwise the cleaned reply. */
  function SummarySpec(api: Api, title: string, content: string): Option<string> {
    var r := RequestSpec(api(ArticlePrompt(title, Excerpt(content))), 3);
    if r.text.None? || r.text.value == "" then None else Some(CleanReply(r.text.value))
  }

  method SummarizeArticle(api: Api, title: string, content: string, url: string, source: string) returns (summary: Option<string>)
    ensures summary == SummarySpec(api, title, content)
  {
    var response, _, _ := MakeRequest(api(ArticlePrompt(title, Excerpt(content))), 3);
    if response.None? || response.value == "" {
      return None;
    }
    var cleaned := Strip(response.value);
    if StartsWith(cleaned, "```") {
      var jsonLines := BlockOf(Split(cleaned, '\n'), OpensJson, ClosesJson);
      cleaned := Join(jsonLines, "\n");
    }
    return Some(cleaned);
  }

  /** Only the title and the first 2 500 characters of the content reach the
      model: the url and the source never do, and the content past 2 500
      characters never does. */
  lemma SummaryDependsOnExcerpt(api: Api, title: string, c1: string, c2: string)
    requires Excerpt(c1) == Excerpt(c2)
    ensures SummarySpec(api, title, c1) == SummarySpec(api, title, c2)
  {
  }

  /** An unfenced reply is returned stripped. */
  lemma UnfencedReply(response: string)
    requires !StartsWith(Strip(response), "```")
    ensures CleanReply(response) == Strip(response)
  {
  }

  /** A fenced reply keeps only its JSON block, so a fenced reply without an
      opening line cleans to `''`. */
  lemma FencedReplyWithoutObject(response: string)
    requires StartsWith(Strip(response), "```")
    requires forall j :: 0 <= j < |Split(Strip(response), '\n')| ==> !OpensJson(Split(Strip(response), '\n')[j])
    ensures CleanReply(response) == ""
  {
    var lines := Split(Strip(response), '\n');
    BlockShape(lines, OpensJson, ClosesJson);
    assert JsonBlock(lines) == [];
  }

  /** A fenced reply: the fences and the prose around the object are dropped. */
  lemma FencedExample()
    ensures JsonBlock(["```json", "{\"type\": \"Fine\",", "\"fine\": \"None\"}", "```"]) ==
            ["{\"type\": \"Fine\",", "\"fine\": \"None\"}"]
  {
    var lines := ["```json", "{\"type\": \"Fine\",", "\"fine\": \"None\"}", "```"];
    UnpaddedLine(lines[0]);
    UnpaddedLine(lines[1]);
    UnpaddedLine(lines[2]);
    FirstIndexIs(lines, OpensJson, 0, 1);
    FirstIndexIs(lines, ClosesJson, 1, 2);
  }

  /** A line with no white space at either end opens (closes) an object exactly
      when its first (last) character is a brace. */
  lemma UnpaddedLine(line: string)
    requires |line| > 0 && !IsSpace(line[0]) && !IsSpace(line[|line| - 1])
    ensures OpensJson(line) <==> line[0] == '{'
    ensures ClosesJson(line) <==> line[|line| - 1] == '}'
  {
    StripNoSpace(line);
  }

  // ===========================================================================
  // The dashboard briefing: `generate_dashboard_summary`

  /** The severity buckets the briefing counts. */
  datatype Severity = Critical | High | Medium | Low | Unrecognised

  function ClassifySeverity(s: string): Severity {
    if s == CriticalLabel then Critical
    else if s == HighLabel then High
    else if s == MediumLabel then Medium
    else if s == LowLabel then Low
    else Unrecognised
  }

  const CriticalLabel := "Critical"
  const HighLabel := "High"
  const MediumLabel := "Medium"
  const LowLabel := "Low"

  /** The summary keys the briefing reads, and the defaults it reads them with. */
  const SeverityKey := "severity"
  const RiskLevelKey := "risk_level"
  const UnknownLevel := "Unknown"
  const RiskSuffix := " Risk"
  const FineKey := "fine"
  const FineAmountKey := "fine_amount"
  const IndustryKey := "industry"
  const IndustrySectorKey := "industry_sector"
  const ConstructionWord := "construction"

  /** `summary.get('severity') or summary.get('risk_level', 'Unknown')`, with
      ` Risk` removed and white space stripped. */
  function SeverityOf(m: map<string, string>): string {
    Strip(RemoveAll(Or(Get(m, SeverityKey, ""), Get(m, RiskLevelKey, UnknownLevel)), RiskSuffix))
  }

  /** The fine a summary reports, by the `'¬£'` rule. */
  function FineOf(m: map<string, string>): int {
    FineAmount(MojibakePound, Or(Get(m, FineKey, ""), Get(m, FineAmountKey, "")))
  }

  predicate IsConstruction(m: map<string, string>) {
    Contains(Lower(Or(Get(m, IndustryKey, ""), Get(m, IndustrySectorKey, ""))), ConstructionWord)
  }

  /** What one object summary contributes. */
  datatype Signals = Signals(severity: Severity, fine: int, construction: bool)

  function SignalsOf(m: map<string, string>): Signals {
    Signals(ClassifySeverity(SeverityOf(m)), FineOf(m), IsConstruction(m))
  }

  function Bump(f: Figures, sev: Severity): Figures {
    match sev
    case Critical => f.(critical := f.critical + 1)
    case High => f.(high := f.high + 1)
    case Medium => f.(medium := f.medium + 1)
    case Low => f.(low := f.low + 1)
    case Unrecognised => f
  }

  /** The signals of an article's summary; none when it is not an object. */
  function SummarySignals(p: ProcessedArticle): Option<Signals> {
    match p.summary
    case Object(m) => Some(SignalsOf(m))
    case Other(_) => None
  }

  /** The contribution of one article, by its signals. */
  function TallySignals(f: Figures, sig: Option<Signals>): Figures {
    var f1 := f.(total := f.total + 1);
    match sig
    case None => f1
    case Some(g) =>
      var f2 := Bump(f1, g.severity);
      f2.(fineTotal := f2.fineTotal + g.fine,
          construction := f2.construction + if g.construction then 1 else 0)
  }

  /** The contribution of one processed article. */
  function Tally(f: Figures, p: ProcessedArticle): Figures {
    TallySignals(f, SummarySignals(p))
  }

  const NoFigures := Figures(0, 0, 0, 0, 0, 0, 0)

  /** The figures of a list of processed articles. */
  function FiguresOf(ps: seq<ProcessedArticle>): Figures
    decreases |ps|
  {
    if |ps| == 0 then NoFigures else Tally(FiguresOf(ps[..|ps| - 1]), ps[|ps| - 1])
  }

  /** One pass of the counting loop: the counters an article's signals raise. */
  method CountSignals(f: Figures, signals: Option<Signals>) returns (g: Figures)
    ensures g == TallySignals(f, signals)
  {
    g := f.(total := f.total + 1);
    match signals
    case Some(sig) =>
      match sig.severity {
        case Critical => g := g.(critical := g.critical + 1);
        case High => g := g.(high := g.high + 1);
        case Medium => g := g.(medium := g.medium + 1);
        case Low => g := g.(low := g.low + 1);
        case Unrecognised =>
      }
      g := g.(fineTotal := g.fineTotal + sig.fine);
      if sig.construction {
        g := g.(construction := g.construction + 1);
      }
    case None =>
  }

  /** The counting loop. */
  method GenerateFigures(ps: seq<ProcessedArticle>) returns (f: Figures)
    ensures f == FiguresOf(ps)
  {
    f := NoFigures;
    for i := 0 to |ps|
      invariant f == FiguresOf(ps[..i])
    {
      assert ps[..i + 1][..i] == ps[..i];
      f := CountSignals(f, SummarySignals(ps[i]));
    }
    assert ps[..|ps|] == ps;
  }

  /** The high-risk figure: critical plus high. */
  function HighRisk(f: Figures): nat {
    f.critical + f.high
  }

  /** Every processed article is counted once; each severity bucket counts the
      object summaries whose cleaned severity is exactly its label (so other
      labels count nowhere); the construction count is the number of object
      summaries whose industry mentions construction; together the buckets and
      the construction count are bounded by the number of object summaries; and
      the fine total is the sum of the recognised fines. */
  lemma {:induction false} FiguresBounds(ps: seq<ProcessedArticle>)
    ensures var f := FiguresOf(ps);
      && f.total == |ps|
      && f.critical == LabelCount(ps, CriticalLabel)
      && f.high == LabelCount(ps, HighLabel)
      && f.medium == LabelCount(ps, MediumLabel)
      && f.low == LabelCount(ps, LowLabel)
      && f.construction == ConstructionCount(ps)
      && Bucketed(f) <= ObjectCount(ps)
      && f.construction <= ObjectCount(ps)
      && ObjectCount(ps) <= |ps|
      && f.fineTotal == FineSum(ps)
    decreases |ps|
  {
    if |ps| > 0 {
      FiguresBounds(ps[..|ps| - 1]);
      var sig := SummarySignals(ps[|ps| - 1]);
      TallyStep(FiguresOf(ps[..|ps| - 1]), sig);
      if ps[|ps| - 1].summary.Object? {
        ClassifySeveritySpec(SeverityOf(ps[|ps| - 1].summary.fields));
      }
    }
  }

  /** The number of object summaries whose cleaned severity is `level`. */
  function LabelCount(ps: seq<ProcessedArticle>, level: string): nat
    decreases |ps|
  {
    if |ps| == 0 then 0
    else
      var d := ps[|ps| - 1].summary;
      LabelCount(ps[..|ps| - 1], level) + if d.Object? && SeverityOf(d.fields) == level then 1 else 0
  }

  /** The number of object summaries whose industry mentions construction. */
  function ConstructionCount(ps: seq<ProcessedArticle>): nat
    decreases |ps|
  {
    if |ps| == 0 then 0
    else
      var d := ps[|ps| - 1].summary;
      ConstructionCount(ps[..|ps| - 1]) + if d.Object? && IsConstruction(d.fields) then 1 else 0
  }

  /** A cleaned severity names its bucket exactly when it is that label, and is
      unrecognised exactly when it is none of the four. */
  lemma ClassifySeveritySpec(s: string)
    ensures ClassifySeverity(s) == Critical <==> s == CriticalLabel
    ensures ClassifySeverity(s) == High <==> s == HighLabel
    ensures ClassifySeverity(s) == Medium <==> s == MediumLabel
    ensures ClassifySeverity(s) == Low <==> s == LowLabel
    ensures ClassifySeverity(s) == Unrecognised <==>
      s != CriticalLabel && s != HighLabel && s != MediumLabel && s != LowLabel
  {
  }

  /** The severity buckets together. */
  function Bucketed(f: Figures): nat {
    f.critical + f.high + f.medium + f.low
  }

  /** One article adds one to the total; one to the bucket of its severity and
      to no other; one to the construction count exactly when its industry
      mentions construction; and its fine. An article without signals (a
      summary that is not an object) adds only to the total. */
  lemma TallyStep(f: Figures, sig: Option<Signals>)
    ensures var t := TallySignals(f, sig);
      var sev := if sig.Some? then sig.value.severity else Unrecognised;
      && t.total == f.total + 1
      && t.critical == f.critical + (if sev == Critical then 1 else 0)
      && t.high == f.high + (if sev == High then 1 else 0)
      && t.medium == f.medium + (if sev == Medium then 1 else 0)
      && t.low == f.low + (if sev == Low then 1 else 0)
      && t.construction == f.construction + (if sig.Some? && sig.value.construction then 1 else 0)
    ensures Bucketed(TallySignals(f, sig)) <= Bucketed(f) + (if sig.Some? then 1 else 0)
    ensures TallySignals(f, sig).construction <= f.construction + (if sig.Some? then 1 else 0)
    ensures TallySignals(f, sig).fineTotal == f.fineTotal + (if sig.Some? then sig.value.fine else 0)
  {
  }

  /** The number of articles whose summary is an object. */
  function ObjectCount(ps: seq<ProcessedArticle>): nat
    decreases |ps|
  {
    if |ps| == 0 then 0 else ObjectCount(ps[..|ps| - 1]) + if ps[|ps| - 1].summary.Object? then 1 else 0
  }

  /** The sum of the fines of the object summaries. */
  function FineSum(ps: seq<ProcessedArticle>): int
    decreases |ps|
  {
    if |ps| == 0 then 0
    else FineSum(ps[..|ps| - 1]) + FineOfSummary(ps[|ps| - 1])
  }

  /** The fine an article's summary reports; none without an object summary. */
  function FineOfSummary(p: ProcessedArticle): int {
    var sig := SummarySignals(p);
    if sig.Some? then sig.value.fine else 0
  }

  /** The text returned when the model answers with code or JSON. */
  function FallbackNarrative(f: Figures): string {
    FallbackLead(f) + (MojibakePound + Thousands(f.fineTotal)) + FallbackClosing
  }

  /** The fallback text up to the fine total. */
  function FallbackLead(f: Figures): string {
    FallbackOpening + NatToString(f.total) + FallbackIncidents + NatToString(HighRisk(f)) + FallbackHighRisk +
    NatToString(f.construction) + FallbackConstruction
  }

  /** The fixed pieces of the fallback text. */
  const FallbackOpening := "Recent analysis of "
  const FallbackIncidents := " workplace incidents shows "
  const FallbackHighRisk := " high-risk cases requiring immediate attention. Construction remains the most affected sector with "
  const FallbackConstruction := " incidents and "
  const FallbackClosing := " in fines issued. Companies should prioritize equipment safety training, fall protection measures, and regulatory compliance to prevent similar incidents."

  /** `None` when the request gives no (or empty) text; the fallback when the
      stripped answer opens a code fence or a JSON object; the stripped answer
      otherwise. */
  function NarrativeSpec(api: Api, f: Figures): Option<string> {
    var r := RequestSpec(api(BriefingPrompt(f)), 3);
    if r.text.None? || r.text.value == "" then None
    else
      var cleaned := Strip(r.text.value);
      if StartsWith(cleaned, "```") || StartsWith(cleaned, "{") then Some(FallbackNarrative(f))
      else Some(cleaned)
  }

  method GenerateDashboardSummary(api: Api, ps: seq<ProcessedArticle>) returns (narrative: Option<string>)
    ensures narrative == NarrativeSpec(api, FiguresOf(ps))
  {
    var f := GenerateFigures(ps);
    var response, _, _ := MakeRequest(api(BriefingPrompt(f)), 3);
    if response.None? || response.value == "" {
      return None;
    }
    var cleaned := Strip(response.value);
    if StartsWith(cleaned, "```") || StartsWith(cleaned, "{") {
      return Some(FallbackNarrative(f));
    }
    return Some(cleaned);
  }

  /** A briefing never opens with a code fence or a JSON object, and never starts
      or ends with white space. */
  lemma NarrativeIsPlainText(api: Api, f: Figures)
    ensures var n := NarrativeSpec(api, f);
      n.Some? ==>
        && !StartsWith(n.value, "```") && !StartsWith(n.value, "{")
        && (|n.value| > 0 ==> !IsSpace(n.value[0]) && !IsSpace(n.value[|n.value| - 1]))
  {
    var r := RequestSpec(api(BriefingPrompt(f)), 3);
    if r.text.Some? && r.text.value != "" {
      var cleaned := Strip(r.text.value);
      if StartsWith(cleaned, "```") || StartsWith(cleaned, "{") {
        FallbackIsPlainText(f);
      } else {
        StripSpec(r.text.value);
      }
    }
  }

  /** The fallback opens with `Recent` and ends with a full stop. */
  lemma FallbackIsPlainText(f: Figures)
    ensures var s := FallbackNarrative(f);
      && !StartsWith(s, "```") && !StartsWith(s, "{")
      && |s| > 0 && !IsSpace(s[0]) && !IsSpace(s[|s| - 1])
  {
    var lead := FallbackLead(f);
    var s := FallbackNarrative(f);
    FirstOf(FallbackOpening, lead[|FallbackOpening|..]);
    Bookends(lead, MojibakePound + Thousands(f.fineTotal), FallbackClosing);
    assert FallbackOpening[0] == 'R' && FallbackClosing[|FallbackClosing| - 1] == '.';
    LeadsWith(s, "```");
    LeadsWith(s, "{");
  }

  lemma FirstOf(a: string, b: string)
    requires |a| > 0
    ensures (a + b)[0] == a[0]
  {
  }

  /** The first and last characters of `a + b + c` are those of `a` and `c`. */
  lemma Bookends(a: string, b: string, c: string)
    requires |a| > 0 && |c| > 0
    ensures var s := a + b + c; |s| > 0 && s[0] == a[0] && s[|s| - 1] == c[|c| - 1]
  {
  }

  /** A string starts with `p` only if their first characters agree. */
  lemma LeadsWith(s: string, p: string)
    requires |s| > 0 && |p| > 0
    ensures StartsWith(s, p) ==> s[0] == p[0]
  {
    if StartsWith(s, p) {
      assert s[..|p|][0] == s[0];
    }
  }

  /** The fallback writes the fine total, after the marker, right after its lead. */
  lemma FallbackShowsFine(f: Figures)
    ensures StartsWith(FallbackNarrative(f)[|FallbackLead(f)|..], MojibakePound + Thousands(f.fineTotal))
  {
    StartsAfter(FallbackLead(f), MojibakePound + Thousands(f.fineTotal), FallbackClosing);
  }

  /** The fine the fallback writes reads back, by the briefing's own fine rule,
      as the fine total. */
  lemma FallbackFineReadsBack(f: Figures)
    ensures FineAmount(MojibakePound, MojibakePound + Thousands(f.fineTotal)) == f.fineTotal
  {
    assert !IsNumeral(MojibakePound[0]);
    FineReadsWrittenAmount(MojibakePound, f.fineTotal);
  }
}
