# Health-and-safety news pipeline, modelled in Dafny

This project models the news pipeline of the OPM Hackathon 2025 repository and proves
properties of that model. The pipeline has three stages:

1. **Scraping** (`test/news-scrape/scraper.py`). It fetches the pages of four news sites,
   retrying each fetch with exponential backoff. It extracts article links with
   per-site filters, follows pagination, and fetches and normalises the text of the
   first links of each site. It serialises the result as an XML tree and a JSON payload.
2. **Summarising** (`gemini_rest_processor.py`). It loads a scraped file, XML or JSON,
   and asks the Gemini REST API for a summary of each article. The request loop is
   driven by status code. The code fences around the JSON reply are cleaned away. A
   dashboard narrative is built from severity, fine and construction counts, with a
   fixed fallback sentence when the reply looks like code.
3. **Aggregating** (`app.py`). The dashboard keeps the showable articles, at most 20. It
   computes the news metrics: risk buckets, distributions, the fine total, the
   construction count and the company list. It also builds a seven-day trend, and
   holds the upload-name, form, colour and percentage helpers.

Around these stages sits the job orchestrator (`test/news-scrape/app.py`). It keeps two
status records, one for scraping and one for processing. Its start routes are guarded
so that only one run of each kind is in flight. Runs pass fixed progress milestones,
processing is chained after a successful scrape, and a `.env` line parser supplies
the API key. A `.env` line whose assignment the environment refuses stops start-up,
or fails the processing run that reloads the file.

Modules, one per source file, plus three of shared semantics:

- `Wrappers`: `Option`.
- `Seqs`: slicing, first-match search, the flag-driven block scanner, filter-maps,
  map assignment folds, de-duplication.
- `PyStr`: the Python `str` operations the code uses. These are `strip`, `split`,
  `join`, `' '.join(s.split())`, `lower`, `title`, `replace`, `rfind`, `int(...)`,
  the `f"{n:,}"` format and string ordering with `sorted`.
- `Counters`: a `dict` used as a counter (`d[k] = d.get(k, 0) + 1`), as an ordered
  list of pairs.
- `Articles`: the article records shared by the stages, and the fine-amount rule that
  both aggregators use, parameterised by the currency marker.
- `Scraper`, `GeminiRest` and `DataProcessor` (both classes of `gemini_rest_processor.py`),
  `Jobs` and `Dashboard`.

The world outside the code becomes inputs:

- A fetch or `POST` is a sequence of outcomes, one per attempt. An attempt past the end
  of the sequence fails.
- BeautifulSoup and `urljoin` are a `Dom` record of oracle functions: CSS selection,
  the first link under each `h2`, the first match of a content selector, `body`, URL
  joining, and whether parsing raises.
- `json.loads` is a partial function `string -> Option<Decoded>`. Reading the XML and
  JSON files is a function from the path to the parsed tree.
- `time.sleep` delays are recorded as a list of seconds. `datetime.now().isoformat()`
  is a timestamp parameter.
- The background threads of the start routes are synchronous calls.

Most loops are methods with loop invariants. Each is proved equal to a specification
function written as a left fold on the last element, and the lemmas state what the
source promises about that function. The status records are a `class` (`TaskStatus`)
whose methods update its fields. The orchestrator is a class holding both records,
the environment and the site list.

The two aggregators read fines with different currency markers, and the model keeps
each as written:

- The dashboard (`app.py:120`) looks for `£`.
- The narrative counter (`gemini_rest_processor.py:192`) looks for the mojibake `¬£`.

`MarkersDisagree` proves that an amount written with `£` counts in the dashboard but
contributes 0 to the narrative's total. The narrative's own fallback sentence writes
its total with `¬£`, and `FallbackFineReadsBack` proves that the `¬£` rule reads that
total back.

## Model

| member | source | states |
|---|---|---|
| Seqs.SliceTo | gemini_rest_processor.py:327 | `xs[:n]` is a prefix: of length `min(n, len)` for `n >= 0`, and missing the last `-n` items for negative `n` |
| Seqs.BlockShape | gemini_rest_processor.py:150-162 | the scanned block is empty iff no line opens; otherwise it is the slice from the first opening line up to and including the first closing line at or after it, or up to the end when none closes |
| Seqs.BlockOf | gemini_rest_processor.py:150-162 | the `in_json` flag loop with its `break` collects exactly that block |
| Seqs.FirstIndex | gemini_rest_processor.py:150-162 | the found line is the first at or after the start that matches; none means no line from there on matches |
| Seqs.DedupSpec | app.py:128-131 | the `if x not in list: append` idiom keeps each value once, keeps every value of the input, and keeps first-occurrence order |
| PyStr.StripSpec | gemini_rest_processor.py:149 | `strip()` removes leading and trailing white space only: neither end of the result is white space, the result is a contiguous part of the input, everything before it and everything after it is white space |
| PyStr.TrimSpec | test/news-scrape/app.py:19-22 | stripping a chosen set of characters (`strip('"')`, `strip("'")`) drops only those characters and only at the ends: the result is a contiguous part of the input, its ends are kept characters, and everything cut before and after it is a dropped character |
| PyStr.NormaliseSpace | test/news-scrape/scraper.py:205 | `' '.join(text.split())` has no leading, trailing, repeated or non-blank white space |
| PyStr.JoinWordsNormalised | test/news-scrape/scraper.py:205 | joining non-empty, space-free words with one blank gives normalised text |
| PyStr.JoinSplit | gemini_rest_processor.py:151-162 | `sep.join(s.split(sep))` gives `s` back |
| PyStr.ParseIntToString | gemini_rest_processor.py:194 | `int(str(i)) == i` for every integer |
| PyStr.ThousandsRoundTrip | gemini_rest_processor.py:194-232 | removing the commas of `f"{i:,}"` and parsing gives `i` back, for negative `i` too |
| PyStr.LessTotal | app.py:158 | string order is total on distinct strings and asymmetric |
| PyStr.LessTransitive | app.py:158 | string order is transitive |
| PyStr.SortedSpec | app.py:158 | `sorted` of distinct strings is ascending and a permutation of its input |
| Counters.BumpSpec | app.py:107 | one `d.get(k, 0) + 1` raises the count of `k` by one and no other, raises the total by one, and adds `k` at the end of the keys only when it is new |
| Counters.TallySpec | app.py:107-111 | counting a list gives each value its number of occurrences, a total equal to the length, and keys in first-occurrence order |
| Articles.FineNonNumeric | gemini_rest_processor.py:191-197 | a marked fine holding a character that is not the marker, a comma, white space, a digit, `_` or a sign makes `int` fail after the marker and commas are removed, so it adds 0 to the fine total |
| PyStr.ParseIntRejects | gemini_rest_processor.py:194 | `int` of a string holding a character other than white space, digits, `_` and signs fails |
| PyStr.RemoveAllKeeps | gemini_rest_processor.py:194 | `replace(pat, '')` keeps every character that does not occur in `pat` |
| Articles.FineReadsWrittenAmount | gemini_rest_processor.py:191-197 | a marker followed by `f"{n:,}"` reads back as `n`, for any marker whose first character is not a digit, comma or minus sign |
| Scraper.FetchPage | test/news-scrape/scraper.py:26-40 | the retry loop returns the page, attempt count and sleeps of the fetch specification |
| Scraper.FetchProperties | test/news-scrape/scraper.py:28-40 | at most `retries` attempts; none iff every allowed attempt fails; otherwise the text of the last attempt made, which is the first that succeeded, every earlier attempt having failed; one sleep fewer than attempts and none after the last failure; sleeps are `2^i` and strictly increase |
| Scraper.AlwaysFailing | test/news-scrape/scraper.py:28-40 | three failures give three attempts, sleeps of 1 and 2 seconds, and no page |
| Scraper.ExtractConstructionNews | test/news-scrape/scraper.py:42-64 | the `h2` loop returns the constructionnews link collection over the `h2`s that have a link |
| Scraper.CollectMore | test/news-scrape/scraper.py:81-92 | the inner element loop extends the collection by exactly the next selector's elements |
| Scraper.ExtractBySelectors | test/news-scrape/scraper.py:66-160 | the selector loops of the bbc, hse-network and hse-press extractors return the link collection over all selectors' matches in order |
| Scraper.Extract | test/news-scrape/scraper.py:42-160 | each source's extractor returns the link collection over its candidates |
| Scraper.CollectProperties | test/news-scrape/scraper.py:56-157 | no more links than candidates; no repeated URL where the source de-duplicates; every link passes its source's filter, carries the run's stamp and is built from some candidate; every admitted candidate URL is present |
| Scraper.CollectFiltered | test/news-scrape/scraper.py:56-157 | the length, de-duplication and filter part of those guarantees |
| Scraper.CollectFromCandidates | test/news-scrape/scraper.py:56-157 | every collected link is built from some candidate |
| Scraper.CollectKeepsAdmitted | test/news-scrape/scraper.py:56-157 | the URL of every candidate the filter admits is collected |
| Scraper.ExtractorGuarantees | test/news-scrape/scraper.py:56-157 | every link has a non-empty title and the source's tag; hse-network titles are longer than 10 characters and URLs contain `hse-network.com`; hse-press URLs contain `press.hse.gov.uk`; constructionnews URLs contain `/health-and-safety/`; the other three sources never repeat a URL |
| Scraper.SelectContent | test/news-scrape/scraper.py:177-199 | the selector loop returns the chosen content region |
| Scraper.ChosenRegionRule | test/news-scrape/scraper.py:191-199 | the first region longer than 100 characters is chosen; when none is, the last selector's match is kept, and `body` is used only when that match is missing |
| Scraper.FetchArticleContent | test/news-scrape/scraper.py:162-208 | the content specification: none when the fetch fails; otherwise normalised text |
| Scraper.ContentNormalised | test/news-scrape/scraper.py:201-206 | fetched content has no leading, trailing or repeated white space |
| Scraper.ScrapePages | test/news-scrape/scraper.py:224-243 | the pagination loop returns the links and requested URLs of the pagination specification |
| Scraper.ScrapeSite | test/news-scrape/scraper.py:210-245 | a site's scrape returns the links and requested URLs of the site specification |
| Scraper.PagesStayRaised | test/news-scrape/scraper.py:210-245 | an exception on one page ends the site's scrape with that exception |
| Scraper.PageUrlsRequested | test/news-scrape/scraper.py:224-243 | every page URL requested is `url + "page/{n}/"` for a listed `n != 1`, and only for hse-network or press URLs |
| Scraper.SiteRequests | test/news-scrape/scraper.py:217-243 | the first request is the site URL, and every later one is a pagination URL of a site that paginates |
| Scraper.FetchSiteContent | test/news-scrape/scraper.py:285-292 | the content loop fills the content map as the content fold does |
| Scraper.ContentFoldProperties | test/news-scrape/scraper.py:285-292 | the content map only grows; each new key is a link's URL whose content is non-empty and normalised |
| Scraper.ContentStaysRaised | test/news-scrape/scraper.py:287-298 | an exception while fetching content leaves the rest of the site's links unfetched |
| Scraper.ScrapeAllSites | test/news-scrape/scraper.py:247-300 | the site loop returns the links and content of the all-sites specification |
| Scraper.ContentOnlyForCappedLinks | test/news-scrape/scraper.py:277-300 | content is fetched only for the first `max_articles_per_site` links of each site; every content key is a returned link's URL with normalised, non-empty content; no content without `fetch_content` |
| Scraper.FailingSiteIsSkipped | test/news-scrape/scraper.py:277-298 | a site whose scrape raises contributes nothing, and the run goes on as if it were absent |
| Scraper.ConvertToXml | test/news-scrape/scraper.py:302-328 | one `article` per link in order, with `id` its index and the link's fields; `total_articles` is the number of links; `content` is present iff the URL has fetched content, and then holds it |
| Scraper.SavedNames | test/news-scrape/scraper.py:330-355 | the saved files end in `.xml` and `.json` |
| GeminiRest.ExtractText | gemini_rest_processor.py:75-89 | a text is found iff `candidates`, its first entry, `content` and a non-empty `parts` are all present |
| GeminiRest.MakeRequest | gemini_rest_processor.py:33-116 | the status-driven loop returns the text, attempt count and sleeps of the request specification |
| GeminiRest.RequestProperties | gemini_rest_processor.py:59-116 | at most `max_retries` attempts and no more sleeps than attempts; no attempt before the last one made gave 200; a text comes from a 200 response of the last attempt made; stopping before the budget is used up means that attempt gave 200; none when no allowed attempt gives 200 |
| GeminiRest.SleepsFollowRateLimits | gemini_rest_processor.py:91-104 | every sleep is `2^attempt` after a 429 attempt; other failures do not sleep |
| GeminiRest.AlwaysRateLimited | gemini_rest_processor.py:91-97 | when every attempt returns 429, all attempts are made, each is followed by a backoff sleep, and the result is none |
| GeminiRest.AllRateLimitedSleeps | gemini_rest_processor.py:91-97 | a run of 429 answers sleeps 1, 2, 4, ... seconds |
| GeminiRest.Excerpt | gemini_rest_processor.py:126 | the prompt carries a prefix of the content of at most 2500 characters, and all of a shorter content |
| GeminiRest.SummarizeArticle | gemini_rest_processor.py:118-168 | returns the summary specification: none for a falsy reply, otherwise the cleaned reply |
| GeminiRest.SummaryDependsOnExcerpt | gemini_rest_processor.py:126 | the request made is `api(ArticlePrompt(title, Excerpt(content)))`, so the url, the source and content past the first 2500 characters never reach the model: contents with the same first 2500 characters get the same summary |
| GeminiRest.UnfencedReply | gemini_rest_processor.py:145-165 | a reply not starting with a code fence is returned stripped and otherwise unchanged |
| GeminiRest.FencedReplyWithoutObject | gemini_rest_processor.py:150-162 | a fenced reply with no line opening an object cleans to `''` |
| GeminiRest.FencedExample | gemini_rest_processor.py:150-162 | a fenced two-line object is cut to exactly its two lines |
| GeminiRest.CountSignals | gemini_rest_processor.py:180-204 | the counting loop over the articles' signals computes the tally of that list; what the counts mean is stated by GeminiRest.FiguresBounds and GeminiRest.TallyStep |
| GeminiRest.GenerateFigures | gemini_rest_processor.py:180-204 | the counting loop returns the figures of the article list, whose counts GeminiRest.FiguresBounds states |
| GeminiRest.TallyStep | gemini_rest_processor.py:180-204 | one article raises the total by one; it raises exactly the bucket its cleaned severity names, and no bucket when that is none of the four or the summary is not an object; construction rises by one iff the summary is an object whose industry mentions construction; it adds its fine |
| GeminiRest.ClassifySeveritySpec | gemini_rest_processor.py:184-188 | a cleaned severity lands in a bucket iff it equals that bucket's label, and in none iff it is none of the four labels |
| GeminiRest.FiguresBounds | gemini_rest_processor.py:180-204 | total is the number of articles; each severity bucket equals the number of object summaries whose cleaned severity is exactly that label; construction equals the number of object summaries whose industry mentions construction; these are bounded by the number of object summaries; the fine total is the sum of their `¬£` fines |
| GeminiRest.GenerateDashboardSummary | gemini_rest_processor.py:170-237 | returns the narrative specification: the stripped reply, or the fallback sentence when it starts with a fence or `{` |
| GeminiRest.NarrativeIsPlainText | gemini_rest_processor.py:225-234 | a returned narrative never starts with a code fence or `{` and has no white space at either end |
| GeminiRest.FallbackIsPlainText | gemini_rest_processor.py:229-233 | the fallback sentence is non-empty, unpadded, and starts with neither a fence nor `{` |
| GeminiRest.FallbackShowsFine | gemini_rest_processor.py:229-233 | the fallback sentence writes the fine total as `¬£` followed by the comma-grouped number |
| GeminiRest.FallbackFineReadsBack | gemini_rest_processor.py:192-197 | the `¬£` rule reads the fallback's written total back as that total |
| DataProcessor.XmlArticles | gemini_rest_processor.py:279-298 | one article per `article` element, in order |
| DataProcessor.LoadXmlData | gemini_rest_processor.py:279-298 | the element loop returns those articles |
| DataProcessor.JsonArticles | gemini_rest_processor.py:300-316 | one article per link, in order |
| DataProcessor.LoadJsonData | gemini_rest_processor.py:300-316 | the link loop returns those articles |
| DataProcessor.LoadersAgree | gemini_rest_processor.py:279-316 | loading the XML and the JSON that one scrape saves gives the same articles, for a parser that reads back the text written, except the `id` that only XML carries; content is the fetched text or `''` |
| DataProcessor.FileName | gemini_rest_processor.py:270 | the final path component contains no `/` |
| DataProcessor.Suffix | gemini_rest_processor.py:272-274 | the suffix is empty, or a `.` followed by at least one character with no further `.` or `/` |
| DataProcessor.LoadScrapedData | gemini_rest_processor.py:265-277 | `.xml` loads XML, `.json` loads JSON, and any other suffix is rejected |
| DataProcessor.SuffixOfNamed | gemini_rest_processor.py:272-274 | a name ending in an extension has that extension as its suffix |
| DataProcessor.SavedFilesLoad | gemini_rest_processor.py:272-277 | the two files a scrape saves have suffixes `.xml` and `.json`, so both load |
| DataProcessor.ProcessArticlesWithGemini | gemini_rest_processor.py:318-359 | the article loop returns the processing specification applied to the first `max_articles` articles |
| DataProcessor.OutcomeRule | gemini_rest_processor.py:328-354 | an article is kept iff it has content and a non-empty summary; a kept one carries all its fields, the processing stamp, and the decoded summary or `{raw_summary: text}` |
| DataProcessor.ProcessedSelection | gemini_rest_processor.py:327-354 | the output is the kept articles in input order, no more than the input: every output comes from an increasing input index, and every input left out is not kept |
| Jobs.EnvEntry | test/news-scrape/app.py:17-23 | a line yields an entry only when, stripped, it contains `=` and does not start with `#` |
| Jobs.EnvKeepsUnassigned | test/news-scrape/app.py:17-23 | a key no line sets keeps its prior value, or stays absent, whether or not a line raises |
| Jobs.EnvLastLineWins | test/news-scrape/app.py:17-23 | a key takes the value of the last line setting it, when no line up to that one raises |
| Jobs.EnvRaisesAtFirst | test/news-scrape/app.py:17-23 | loading raises iff some line's assignment raises, then with the error of the first such line, keeping only the assignments of the lines before it |
| Jobs.EmptyNameRaises | test/news-scrape/app.py:20-23 | a line such as `=abc`, whose stripped text starts with `=`, assigns the empty name, which `os.environ` refuses |
| Jobs.LoadEnvFile | test/news-scrape/app.py:12-24 | the line loop gives the environment after the file, unchanged when there is none, and stops with the error of the first refused assignment |
| Jobs.StartUp | test/news-scrape/app.py:27-30 | the application starts iff loading the `.env` file does not raise, and then over the environment the file left, with the key read from it and both records ready |
| Jobs.TaskStatus.constructor | test/news-scrape/app.py:48-62 | a status record starts idle at progress 0 with its ready message, no last run and no files |
| Jobs.TaskStatus.Begin | test/news-scrape/app.py:243-245 | starting a run sets `running`, progress 0 and the message, keeping last run and files |
| Jobs.TaskStatus.Fail | test/news-scrape/app.py:272-277 | a failure resets progress to 0 with the prefixed message and keeps the rest |
| Jobs.TaskStatus.Advance | test/news-scrape/app.py:250-266 | a milestone sets progress and message, appends the progress to the run's trace, and keeps `running`, last run and files |
| Jobs.TaskStatus.Record | test/news-scrape/app.py:267-268 | a successful end sets last run and files, and keeps progress, message, `running` and the trace |
| Jobs.TaskStatus.End | test/news-scrape/app.py:276-277 | the `finally` block clears `running` and keeps everything else |
| Jobs.OutputCounts | test/news-scrape/app.py:333-339 | the output record counts all loaded articles and the processed ones, and the processed count is the length of its article list |
| Jobs.FailedRunsStopEarly | test/news-scrape/app.py:283-356 | a failed processing run passed a proper prefix of the milestones 0, 5, 10, 30, 80, 90, 100 |
| Jobs.NullLimitOutcome | gemini_rest_processor.py:327-331 | with `max_articles` null, a run that reaches the articles fails at milestone 30 with the `min` comparison error iff one of them has content, and a run that succeeds processes none |
| Jobs.MilestonesIncrease | test/news-scrape/app.py:243-347 | the scrape milestones 0, 10, 80, 100 and the processing milestones strictly increase |
| Jobs.Orchestrator.constructor | test/news-scrape/app.py:30-62 | both records start ready and idle, over the given environment, and the API key is read from it |
| Jobs.Orchestrator.GetStatus | test/news-scrape/app.py:113-118 | the view shows both records' fields as they are |
| Jobs.Orchestrator.RunScrapingTask | test/news-scrape/app.py:239-277 | a scrape run ends not running; on success it passes 0, 10, 80, 100 and records the finish time and both saved files; on a save failure progress is 0 with the failure message and last run and files are unchanged |
| Jobs.Orchestrator.FindKey | test/news-scrape/app.py:289-297 | the key is the loaded key or the environment's, and the `.env` file is read only when both are empty; a raising reload gives its error and keeps the assignments made before it |
| Jobs.Orchestrator.ProduceOutput | test/news-scrape/app.py:320-339 | the processing step gives the output record of the loaded articles and moves progress to 80 |
| Jobs.Orchestrator.RunProcessingTask | test/news-scrape/app.py:279-356 | a processing run ends not running, with the milestones, message, output and record of the processing specification: a raising reload, no key, no scraped file, or an unsupported suffix fails before any output; a `max_articles` that is no index, or null with an article that has content, fails at 30; a failed write leaves last run and files unchanged |
| Jobs.Orchestrator.StartScraping | test/news-scrape/app.py:70-80 | refused, changing nothing and saving nothing, while scraping runs; otherwise started and run to the end state of a scrape run over the site list (not running, saved files, last run and files created as a scrape run leaves them), ending at progress 100 iff saving succeeded |
| Jobs.Orchestrator.StartProcessing | test/news-scrape/app.py:83-95 | refused, changing nothing and writing nothing, while processing runs; otherwise run, with `max_articles` 10 when missing, `None` for null, 0 or 1 for a boolean, and a failing value for anything else that is not an integer, to the end state of the processing specification (not running, output written, last run and files created), ending at 100 iff the run succeeded |
| Jobs.Orchestrator.RunCompleteWorkflow | test/news-scrape/app.py:358-378 | scraping always runs to the end state of a scrape run; when saving failed, processing and the environment are untouched and nothing is written; otherwise processing runs to the end state of the processing specification |
| Jobs.Orchestrator.ScrapeAndProcess | test/news-scrape/app.py:98-110 | refused, changing nothing and saving or writing nothing, while either task runs; otherwise started, scraping runs to the end state of a scrape run and, when saving succeeded, processing runs to the end state of the processing specification for the body's `max_articles`, read as in StartProcessing; both tasks end not running |
| Jobs.Orchestrator.ProcessScrapedFile | test/news-scrape/app.py:381-417 | an output file is written iff a key exists, the file loads and the write succeeds; it then holds the output record of the loaded articles |
| Dashboard.AllowedFileNamed | app.py:41-43 | a name whose last `.` is followed by `ext` is accepted iff the lower-cased `ext` is png, jpg, jpeg or gif |
| Dashboard.UndottedRefused | app.py:41-43 | a name without `.` is refused |
| Dashboard.LoadProcessedArticles | app.py:50-76 | the filter loop and the cap give the shown articles of the file, or none without a file |
| Dashboard.ShownSelection | app.py:66-72 | at most 20 articles are shown, each with a truthy summary and content, in file order, and fewer only when every showable article is shown |
| Dashboard.RiskOf | app.py:98-104 | high risk iff Critical or High; medium and low risk only for exact matches |
| Dashboard.EntryOf | app.py:98-111 | a missing severity or type counts as `Unknown` |
| Dashboard.CalculateNewsMetrics | app.py:78-133 | the article loop returns the news metrics specification |
| Dashboard.MetricsTallies | app.py:107-111 | the severity and type distributions are the tallies of the counted summaries' severities and types |
| Dashboard.MetricsBuckets | app.py:98-107 | the high, medium and low risk counts are the distribution's counts for Critical plus High, Medium and Low |
| Dashboard.CountsBounded | app.py:98-111 | high + medium + low is at most the number of counted summaries, and each distribution sums to that number |
| Dashboard.MetricsSums | app.py:114-125 | the fine total is the sum of the summaries' `£` amounts, and the construction count is the number of summaries mentioning construction |
| Dashboard.CompaniesSpec | app.py:128-131 | the company list has no repeats and holds exactly the notable companies named: not `Unknown` and longer than 3 characters |
| Dashboard.NewsMetricsSpec | app.py:92-111 | the metrics exist iff no truthy summary is a non-object; the article total counts every article; exactly the truthy summaries are counted; the risk counts and distribution totals are bounded as above |
| Dashboard.MarkersDisagree | app.py:119-125 | an amount written with `£` counts in full under the dashboard's rule and as 0 under the `¬£` rule |
| Dashboard.GetTrendData | app.py:135-161 | the date loop and the last-seven cut give the trend of the daily counts |
| Dashboard.LastDaysSpec | app.py:158 | the shown dates are at most seven, ascending, all counted dates, and later than every date left out |
| Dashboard.TrendSpec | app.py:141-159 | at most seven entries, ascending by date, each with the number of articles on that day; every date left out is earlier than all shown |
| Dashboard.IncidentColorSpec | app.py:202-212 | a known incident type gets its mapped colour, and gray is given exactly to unknown types |
| Dashboard.ValidateFormData | app.py:383-392 | the field loop returns the form errors |
| Dashboard.FormErrorsSpec | app.py:385-392 | one error per missing or blank required field, in field order, and none iff every field is filled |
| Dashboard.PercentageChange | app.py:612-618 | from a previous value of 0, `+100%` iff the current value is positive, else `0%` |

## Left out

- Network, HTML and parsers: `requests` sessions, BeautifulSoup selection, `get_text`,
  `urljoin`, `json` and `ElementTree` are inputs. They are outcome sequences, the `Dom`
  oracle, a decode function and pre-parsed trees, so their own behaviour is not modelled.
- Threads and the poll loop: the start routes run their tasks as synchronous calls. The
  check-then-set race between routes is not modelled. `run_complete_workflow`'s wait for
  scraping to finish collapses, because scraping has already returned.
- Sleeps and clocks: the retry back-off delays of `fetch_page` and `make_request` are
  recorded, never waited. The other pauses are left out: the scraper's 1 s, 2 s and 3 s
  pauses (test/news-scrape/scraper.py:243, 292, 294), `run_complete_workflow`'s poll
  loop and 2 s pause (test/news-scrape/app.py:367, 375) and the 1 s pause between
  articles (gemini_rest_processor.py:357). `datetime.now()` and `strftime` stamps are
  parameters, and a scrape run uses one stamp for all the links it builds.
- GeminiRest.MakeRequest: a JSON decode error on a 200 response returns none at once.
  This is how the handler is read when that error is not also a `RequestException`.
- DataProcessor.LoadersAgree: the lemma takes the XML parser to read back exactly the
  text `convert_to_xml` wrote. ElementTree writes a `\r` in element text unescaped, and
  its parser turns `\r\n` and a lone `\r` into `\n`, so a title holding `\r` loads
  with `\n` from the XML file and unchanged from the JSON file. Saved content is
  white-space normalised and holds no `\r`.
- DataProcessor.LoadXmlData: an element whose text is null is read as `''`.
- Jobs.Orchestrator.RunScrapingTask: intermediate progress messages are recorded but
  not stated. Of the exceptions a run can raise, only the save failure is modelled.
- Jobs.Orchestrator.RunProcessingTask: of the processing exceptions, only a missing
  key, a missing or unsupported scraped file and a failed output write are modelled. The
  file readers are total functions: an `ET.ParseError`, an `OSError` or a JSON decode
  error while reading the scraped file is not modelled.
- Jobs.Orchestrator.RunProcessingTask: the latest scraped file is any path, so the
  unsupported-suffix branch is reachable in the model; the source finds it with the
  `health_safety_news_*.xml` glob (test/news-scrape/app.py:303), where it cannot occur.
- Jobs.ScrapeFinished: a failed save is modelled as nothing saved. The source writes the
  XML file before the JSON one (test/news-scrape/scraper.py:336-352), so a failed JSON
  write leaves the XML file on disk.
- Jobs.AssignError: the errors `os.environ` raises are CPython's on POSIX: `embedded null
  byte` for a NUL character, and `setenv`'s `[Errno 22] Invalid argument` for an empty
  name. Windows raises a `ValueError` instead; the run fails at the same point.
- Jobs.MaxArticlesField: the request body is reduced to its `max_articles` field. A body
  that is not a JSON object, and a JSON body Flask refuses, are not modelled.
- Api and Web: the model's API and page oracles answer a given prompt or URL with the
  same outcome sequence every time they are asked.
- Prompt wording: beyond the 2500-character excerpt, the prompts' prose is not behaviour.
- PyStr.Lower: `lower` and `title` act on ASCII letters only.
- PyStr.ParseInt: `int` accepts ASCII digits only; other Unicode decimal digits are not modelled.
- Articles: summary values are strings. JSON `null`, numbers and nested values in a
  decoded summary are not represented.
- Dashboard.GetTrendData: the `severity_trends` lists are built but never returned,
  so they are left out.
- Dashboard.PercentageChange: the non-zero branch computes a float percentage and is
  not modelled; it returns none.
- File discovery: `glob`, the newest file by `ctime`, directory listing and file writes
  are inputs or recorded outcomes.
- The site list is an orchestrator field, equal to the four sites of
  `scrape_all_sites`.
- Out of scope: the other Flask routes, templates and uploads; the SQLite dashboard
  queries; YOLO detection, floating-point geometry and the Folium maps; the
  `test-setup.py` live checks; the chat app.
