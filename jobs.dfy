/** The job orchestrator of the automated news dashboard: the two status
    records, the routes that start the scraping and the processing tasks, the
    tasks themselves with their progress milestones, the complete workflow that
    chains them, the standalone processing of one file, and the `.env` loader.

    The tasks run when they are started, to completion: the background thread
    of each route is its synchronous call. The web, the model API, the files and
    the clock are inputs. */
module Jobs {
  import opened Wrappers
  import opened PyStr
  import opened Seqs
  import opened Articles
  import Scraper
  import GeminiRest
  import DataProcessor

  // ===========================================================================
  // The `.env` loader: `load_env_file`

  /** The assignment one line of a `.env` file makes: none for a blank line, a
      `#` comment or a line without `=`; otherwise the stripped text before the
      first `=`, and the stripped text after it with surrounding `"` and then
      `'` characters removed. */
  function EnvEntry(raw: string): (e: Option<(string, string)>)
    ensures e.Some? ==> '=' in Strip(raw) && !StartsWith(Strip(raw), "#")
  {
    var line := Strip(raw);
    if line == "" || StartsWith(line, "#") || '=' !in line then None
    else
      var k := IndexOf(line, '=');
      Some((Strip(line[..k]), StripChar(StripChar(Strip(line[k + 1..]), '"'), '\'')))
  }

  /** The error the assignment `os.environ[key] = value` raises on POSIX: a NUL
      character in the name or the value is refused before the name is looked
      at, and `setenv` refuses an empty name. */
  function AssignError(key: string, value: string): Option<string> {
    if '\0' in key || '\0' in value then Some(NullByte)
    else if key == "" then Some(InvalidName)
    else None
  }

  const NullByte := "embedded null byte"
  const InvalidName := "[Errno 22] Invalid argument"

  /** The error one line of a `.env` file raises, if any. */
  function LineError(raw: string): Option<string> {
    match EnvEntry(raw)
    case None => None
    case Some((key, value)) => AssignError(key, value)
  }

  predicate Raises(raw: string) {
    LineError(raw).Some?
  }

  /** What `load_env_file` leaves: the environment with the assignments made,
      and the error the first refused assignment raised, if one was. */
  datatype EnvLoad = EnvLoad(env: map<string, string>, error: Option<string>)

  /** The environment after the lines of a `.env` file, in order, up to the
      first line whose assignment raises. */
  function EnvSpec(lines: seq<string>, env: map<string, string>): EnvLoad {
    match FirstIndex(lines, Raises, 0)
    case None => EnvLoad(AssignAll(EnvEntry, lines, env), None)
    case Some(i) => EnvLoad(AssignAll(EnvEntry, lines[..i], env), LineError(lines[i]))
  }

  /** The environment after `load_env_file`: unchanged when there is no file. */
  function EnvAfterFile(envFile: Option<seq<string>>, env: map<string, string>): EnvLoad {
    if envFile.Some? then EnvSpec(envFile.value, env) else EnvLoad(env, None)
  }

  /** A key no line assigns keeps its value, or stays absent, whether or not a
      line raises. */
  lemma EnvKeepsUnassigned(lines: seq<string>, env: map<string, string>, key: string)
    requires forall i :: 0 <= i < |lines| ==> !SetsKey(lines[i], key)
    ensures key in EnvSpec(lines, env).env <==> key in env
    ensures key in env ==> EnvSpec(lines, env).env[key] == env[key]
  {
    match FirstIndex(lines, Raises, 0)
    case None =>
      AssignAllUntouched(EnvEntry, lines, env, key);
    case Some(i) =>
      var before := lines[..i];
      assert forall j :: 0 <= j < |before| ==> before[j] == lines[j];
      AssignAllUntouched(EnvEntry, before, env, key);
  }

  /** Later lines win: a key's final value is the one the last line assigning it
      gives, when no line up to that one raises. */
  lemma EnvLastLineWins(lines: seq<string>, env: map<string, string>, key: string, i: nat)
    requires i < |lines| && SetsKey(lines[i], key)
    requires forall j :: i < j < |lines| ==> !SetsKey(lines[j], key)
    requires forall j :: 0 <= j <= i ==> !Raises(lines[j])
    ensures key in EnvSpec(lines, env).env && EnvSpec(lines, env).env[key] == EnvEntry(lines[i]).value.1
  {
    match FirstIndex(lines, Raises, 0)
    case None =>
      AssignAllLast(EnvEntry, lines, env, key, i);
    case Some(k) =>
      var before := lines[..k];
      assert forall j :: 0 <= j < |before| ==> before[j] == lines[j];
      AssignAllLast(EnvEntry, before, env, key, i);
  }

  /** Loading raises exactly when some line's assignment raises, and then with
      the error of the first such line; the lines from that one on assign
      nothing. */
  lemma EnvRaisesAtFirst(lines: seq<string>, env: map<string, string>)
    ensures EnvSpec(lines, env).error.Some? <==> exists j :: 0 <= j < |lines| && Raises(lines[j])
    ensures EnvSpec(lines, env).error.Some? ==>
      exists j :: 0 <= j < |lines| && Raises(lines[j]) && EnvSpec(lines, env).error == LineError(lines[j])
        && (forall l :: 0 <= l < j ==> !Raises(lines[l]))
        && EnvSpec(lines, env).env == EnvSpec(lines[..j], env).env
  {
    match FirstIndex(lines, Raises, 0)
    case None =>
    case Some(k) =>
      var before := lines[..k];
      assert forall j :: 0 <= j < |before| ==> before[j] == lines[j];
      EnvWithoutRaising(before, env);
      assert Raises(lines[k]) && EnvSpec(lines, env).error == LineError(lines[k]);
  }

  /** With no line raising, every line is assigned and nothing is raised. */
  lemma EnvWithoutRaising(lines: seq<string>, env: map<string, string>)
    requires forall j :: 0 <= j < |lines| ==> !Raises(lines[j])
    ensures EnvSpec(lines, env) == EnvLoad(AssignAll(EnvEntry, lines, env), None)
  {
  }

  /** A line such as `=abc`, whose stripped text starts with `=`, assigns the
      empty name, so loading the file raises. */
  lemma EmptyNameRaises(raw: string)
    requires |Strip(raw)| > 0 && Strip(raw)[0] == '='
    ensures Raises(raw)
    ensures LineError(raw) == Some(InvalidName) || LineError(raw) == Some(NullByte)
  {
    var line := Strip(raw);
    assert !StartsWith(line, "#");
    var k := IndexOf(line, '=');
    assert k == 0;
    StripSpec(line[..k]);
  }

  /** Whether a line assigns `key`. */
  predicate SetsKey(line: string, key: string) {
    Assigns(EnvEntry, line, key)
  }

  // ===========================================================================
  // The status records

  /** One status dict: `running`, `progress`, `message`, `last_run`,
      `files_created`. `trace` records every value given to `progress` since the
      current run began. */
  class TaskStatus {
    var running: bool
    var progress: int
    var message: string
    var lastRun: Option<string>
    var filesCreated: seq<string>
    ghost var trace: seq<int>

    constructor (ready: string)
      ensures !running && progress == 0 && message == ready && lastRun.None? && filesCreated == [] && trace == []
    {
      running, progress, message, lastRun, filesCreated := false, 0, ready, None, [];
      trace := [];
    }

    /** The start of a run: `running`, progress 0 and the first message. */
    method Begin(m: string)
      modifies this
      ensures running && progress == 0 && message == m && trace == [0]
      ensures lastRun == old(lastRun) && filesCreated == old(filesCreated)
    {
      running, progress, message := true, 0, m;
      trace := [0];
    }

    /** One milestone: the progress and its message. */
    method Advance(p: int, m: string)
      modifies this
      ensures progress == p && message == m && trace == old(trace) + [p]
      ensures running == old(running) && lastRun == old(lastRun) && filesCreated == old(filesCreated)
    {
      progress, message := p, m;
      trace := trace + [p];
    }

    /** The `except` branch: the failure message and progress 0. */
    method Fail(prefix: string, error: string)
      modifies this
      ensures progress == 0 && message == prefix + error && trace == old(trace) + [0]
      ensures running == old(running) && lastRun == old(lastRun) && filesCreated == old(filesCreated)
    {
      message, progress := prefix + error, 0;
      trace := trace + [0];
    }

    /** The successful end: `last_run` and `files_created`. */
    method Record(finishedAt: string, files: seq<string>)
      modifies this
      ensures lastRun == Some(finishedAt) && filesCreated == files
      ensures running == old(running) && progress == old(progress) && message == old(message) && trace == old(trace)
    {
      lastRun, filesCreated := Some(finishedAt), files;
    }

    /** The `finally` branch. */
    method End()
      modifies this
      ensures !running
      ensures progress == old(progress) && message == old(message) && trace == old(trace)
      ensures lastRun == old(lastRun) && filesCreated == old(filesCreated)
    {
      running := false;
    }
  }

  /** The progress values of a successful scraping run, and of a successful
      processing run. */
  const ScrapeMilestones: seq<int> := [0, 10, 80, 100]
  const ProcessMilestones: seq<int> := [0, 5, 10, 30, 80, 90, 100]

  predicate StrictlyIncreasing(s: seq<int>) {
    forall i, j :: 0 <= i < j < |s| ==> s[i] < s[j]
  }

  /** What `/api/status` returns. */
  datatype StatusView = StatusView(running: bool, progress: int, message: string, lastRun: Option<string>, filesCreated: seq<string>)

  /** A route's answer: started, or refused with HTTP 400. */
  datatype Response = Started(message: string) | Rejected(error: string)

  // ===========================================================================
  // The inputs of a run

  /** What a scraping run meets: the web, the time stamp of its links, the
      timestamp of its file names, the error saving the files raises (if any),
      and the time it finishes. */
  datatype ScrapeWorld = ScrapeWorld(web: Scraper.Web, stamp: string, timestamp: string,
                                     saveError: Option<string>, finishedAt: string)

  /** What a processing run meets: the `.env` file's lines (if there is one), the
      newest `health_safety_news_*.xml` (if any), what reading a file gives, the
      model API and the decoder of its answers, the time stamps, the error writing
      the output raises (if any), and the time it finishes. */
  datatype ProcessWorld = ProcessWorld(
    envFile: Option<seq<string>>,
    latestXml: Option<string>,
    readXml: string -> seq<DataProcessor.ArticleElement>,
    readJson: string -> DataProcessor.ScrapedFile,
    api: GeminiRest.Api,
    decode: string -> Option<Decoded>,
    stamps: nat -> string,
    processedAt: string,
    timestamp: string,
    writeError: Option<string>,
    finishedAt: string)

  /** The record `processed_articles_<timestamp>.json` holds. */
  datatype OutputRecord = OutputRecord(processedAt: string, totalArticles: nat, processedArticles: nat,
                                       dashboardSummary: Option<string>, articles: seq<ProcessedArticle>)

  /** How a processing run ends: with the milestones it passed and the error it
      raised, or with its output file and record. */
  datatype ProcessOutcome = Failed(passed: seq<int>, error: string) | Succeeded(file: string, record: OutputRecord)

  const KeyName := "GEMINI_API_KEY"
  const MissingKey := "GEMINI_API_KEY not found. Please check your .env file or set environment variable."
  const NoScrapedData := "No scraped data found. Run scraping first."
  const Unsupported := "Unsupported file format. Use XML or JSON."
  const ScrapeFailed := "Scraping failed: "
  const ProcessFailed := "Processing failed: "

  function OutputFile(timestamp: string): string {
    "processed_articles_" + timestamp + ".json"
  }

  /** The scraper's run over its sites, with content for the first ten links of
      each. */
  function ScrapeRun(sites: seq<Scraper.SiteConfig>, w: ScrapeWorld): Scraper.RunState {
    Scraper.AllSitesSpec(w.web, sites, true, 10, w.stamp)
  }

  /** The files `save_data` writes under its default base name. */
  function SavedXml(w: ScrapeWorld): string {
    Scraper.SavedNames("health_safety_news", w.timestamp).0
  }

  function SavedJson(w: ScrapeWorld): string {
    Scraper.SavedNames("health_safety_news", w.timestamp).1
  }

  function ScrapeDoneMessage(run: Scraper.RunState): string {
    "Scraping complete! Created " + NatToString(|run.links|) + " links, " + NatToString(|run.content|) + " articles"
  }

  /** The output of the processing steps once the articles are loaded. */
  function OutputOf(w: ProcessWorld, articles: seq<Article>, maxArticles: int): OutputRecord {
    var processed := DataProcessor.ProcessSpec(w.api, w.decode, SliceTo(articles, maxArticles), w.stamps);
    OutputRecord(w.processedAt, |articles|, |processed|,
                 GeminiRest.NarrativeSpec(w.api, GeminiRest.FiguresOf(processed)), processed)
  }

  /** The `max_articles` field of a request body: missing (or no body, or an
      empty one), JSON `null`, an integer, a boolean, or any other JSON value. */
  datatype MaxArticlesField = Missing | Null | Integer(n: int) | Boolean(b: bool) | OtherValue

  /** The `max_articles` value a run passes on: an integer slice bound, `None`,
      or a value that is no slice index. */
  datatype MaxArticles = Limit(n: int) | NoLimit | NotAnIndex

  /** The value a route passes on: 10 when the field is missing, the field's
      value otherwise, a boolean being the integer 0 or 1. */
  function MaxArticlesOf(field: MaxArticlesField): MaxArticles {
    match field
    case Missing => Limit(10)
    case Null => NoLimit
    case Integer(n) => Limit(n)
    case Boolean(b) => Limit(if b then 1 else 0)
    case OtherValue => NotAnIndex
  }

  /** The errors for `max_articles` values: `articles[:x]` for a value that is
      no index, and `min(len(articles), None)` in the progress log line. */
  const SliceError := "slice indices must be integers or None or have an __index__ method"
  const CompareError := "'<' not supported between instances of 'NoneType' and 'int'"

  /** Whether some article has content. */
  predicate HasContent(articles: seq<Article>) {
    exists i :: 0 <= i < |articles| && articles[i].content != ""
  }

  /** The key a run found, or the error loading the `.env` file again raised. */
  datatype KeyLookup = Found(key: string) | LoadFailed(error: string)

  /** The processing reference, for the key lookup of the run: a failed reload,
      no key, no scraped file, an unsupported suffix, a `max_articles` that
      fails and a failed write each end the run with the milestones passed so
      far; otherwise the output record. */
  function ProcessSpec(lookup: KeyLookup, w: ProcessWorld, max: MaxArticles): ProcessOutcome {
    if lookup.LoadFailed? then Failed([0], lookup.error)
    else if lookup.key == "" then Failed([0], MissingKey)
    else FileSpec(w, max)
  }

  /** The rest of the reference once the key was found. */
  function FileSpec(w: ProcessWorld, max: MaxArticles): ProcessOutcome {
    if w.latestXml.None? then Failed([0, 5], NoScrapedData)
    else LoadedSpec(DataProcessor.ScrapedData(w.latestXml.value, w.readXml, w.readJson), w, max)
  }

  /** The rest of the reference once the scraped file was read. */
  function LoadedSpec(loaded: Option<seq<Article>>, w: ProcessWorld, max: MaxArticles): ProcessOutcome {
    if loaded.None? then Failed([0, 5, 10], Unsupported)
    else ArticlesSpec(loaded.value, w, max)
  }

  /** The steps from milestone 30 on: slicing raises for a value that is no
      index; `None` takes every article, and the log line raises at the first
      one with content; otherwise the record of the first `n` articles. */
  function ArticlesSpec(articles: seq<Article>, w: ProcessWorld, max: MaxArticles): ProcessOutcome {
    match max
    case NotAnIndex => Failed([0, 5, 10, 30], SliceError)
    case NoLimit =>
      if HasContent(articles) then Failed([0, 5, 10, 30], CompareError)
      else WriteSpec(w, OutputOf(w, articles, |articles|))
    case Limit(n) => WriteSpec(w, OutputOf(w, articles, n))
  }

  /** The last step of the reference: writing the output record. */
  function WriteSpec(w: ProcessWorld, record: OutputRecord): ProcessOutcome {
    if w.writeError.Some? then Failed([0, 5, 10, 30, 80, 90], w.writeError.value)
    else Succeeded(OutputFile(w.timestamp), record)
  }

  /** The output counts its articles: all loaded, and those processed, which are
      the record's articles and never more than were loaded. */
  lemma OutputCounts(w: ProcessWorld, articles: seq<Article>, maxArticles: int)
    ensures var r := OutputOf(w, articles, maxArticles);
      r.totalArticles == |articles| && r.processedArticles == |r.articles| <= r.totalArticles
  {
    DataProcessor.ProcessedSelection(w.api, w.decode, SliceTo(articles, maxArticles), w.stamps);
  }

  /** With `max_articles` null, a run that reaches the articles fails at
      milestone 30 when one of them has content, and otherwise processes none
      of them. */
  lemma NullLimitOutcome(articles: seq<Article>, w: ProcessWorld)
    ensures var o := ArticlesSpec(articles, w, NoLimit);
      && (HasContent(articles) ==> o == Failed([0, 5, 10, 30], CompareError))
      && (HasContent(articles) <==> o.Failed? && |o.passed| == 4)
      && (o.Succeeded? ==> o.record.processedArticles == 0 && o.record.articles == [])
  {
    if !HasContent(articles) {
      var considered := SliceTo(articles, |articles|);
      assert considered == articles;
      DataProcessor.ProcessedSelection(w.api, w.decode, considered, w.stamps);
    }
  }

  /** A failed run never passes 100, and passes a prefix of the milestones. */
  lemma FailedRunsStopEarly(lookup: KeyLookup, w: ProcessWorld, max: MaxArticles)
    ensures var o := ProcessSpec(lookup, w, max);
      o.Failed? ==> |o.passed| < |ProcessMilestones| && o.passed == ProcessMilestones[..|o.passed|]
  {
    if lookup.LoadFailed? || lookup.key == "" {
      assert ProcessMilestones[..1] == [0];
    } else if w.latestXml.None? {
      assert ProcessMilestones[..2] == [0, 5];
    } else {
      var loaded := DataProcessor.ScrapedData(w.latestXml.value, w.readXml, w.readJson);
      assert ProcessSpec(lookup, w, max) == FileSpec(w, max) == LoadedSpec(loaded, w, max);
      if loaded.None? {
        assert ProcessMilestones[..3] == [0, 5, 10];
      } else {
        ArticlesStopEarly(loaded.value, w, max);
      }
    }
  }

  lemma ArticlesStopEarly(articles: seq<Article>, w: ProcessWorld, max: MaxArticles)
    ensures var o := ArticlesSpec(articles, w, max);
      o.Failed? ==> |o.passed| < |ProcessMilestones| && o.passed == ProcessMilestones[..|o.passed|]
  {
    assert ProcessMilestones[..4] == [0, 5, 10, 30];
    var n := if max.Limit? then max.n else |articles|;
    WriteStopsEarly(w, OutputOf(w, articles, n));
  }

  lemma WriteStopsEarly(w: ProcessWorld, record: OutputRecord)
    ensures var o := WriteSpec(w, record);
      o.Failed? ==> |o.passed| < |ProcessMilestones| && o.passed == ProcessMilestones[..|o.passed|]
  {
    assert ProcessMilestones[..6] == [0, 5, 10, 30, 80, 90];
  }

  /** The milestones of a successful run increase. */
  lemma MilestonesIncrease()
    ensures StrictlyIncreasing(ScrapeMilestones) && StrictlyIncreasing(ProcessMilestones)
  {
  }

  /** How a status record ends a scraping run: milestones 0, 10, 80, 100, the
      links and articles counted, the two saved files and both encodings when
      saving succeeds; progress 0 after milestone 80, the error, the earlier
      `last_run` and `files_created` and nothing saved when it raises. */
  ghost predicate ScrapeFinished(s: TaskStatus, run: Scraper.RunState, w: ScrapeWorld,
                                 saved: Option<(Scraper.XmlDoc, Scraper.ScrapedJson)>,
                                 lastRun0: Option<string>, files0: seq<string>)
    reads s
  {
    && (w.saveError.None? ==>
          && s.progress == 100 && s.trace == ScrapeMilestones
          && s.message == ScrapeDoneMessage(run)
          && s.lastRun == Some(w.finishedAt)
          && s.filesCreated == [SavedXml(w), SavedJson(w)]
          && saved == Some((Scraper.XmlSpec(run.links, run.content, w.stamp),
                            Scraper.JsonPayload(run.links, run.content, w.stamp))))
    && (w.saveError.Some? ==>
          && s.progress == 0 && s.trace == ScrapeMilestones[..3] + [0]
          && s.message == ScrapeFailed + w.saveError.value
          && s.lastRun == lastRun0 && s.filesCreated == files0
          && saved.None?)
  }

  /** How a status record ends a run with outcome `o`: progress 100, the
      milestones, the output file and the record on success; progress 0, the
      milestones passed, the error, the earlier `last_run` and `files_created`
      and no record on failure. */
  ghost predicate Finished(s: TaskStatus, o: ProcessOutcome, written: Option<OutputRecord>, finishedAt: string,
                           lastRun0: Option<string>, files0: seq<string>)
    reads s
  {
    && (o.Succeeded? ==>
          && s.progress == 100 && s.trace == ProcessMilestones
          && s.message == "Processing complete! Generated " + o.file
          && s.lastRun == Some(finishedAt) && s.filesCreated == [o.file]
          && written == Some(o.record))
    && (o.Failed? ==>
          && s.progress == 0 && s.trace == o.passed + [0]
          && s.message == ProcessFailed + o.error
          && s.lastRun == lastRun0 && s.filesCreated == files0
          && written.None?)
  }

  // ===========================================================================
  // The orchestrator

  /** The scraper's run over the configured sites. */
  method ScrapeSites(sites: seq<Scraper.SiteConfig>, w: ScrapeWorld) returns (run: Scraper.RunState)
    ensures run == ScrapeRun(sites, w)
  {
    var links, content := Scraper.ScrapeAllSites(w.web, sites, true, 10, w.stamp);
    run := Scraper.RunState(links, content);
  }

  /** The XML encoding `save_data` writes for a run. */
  method Encode(run: Scraper.RunState, stamp: string) returns (doc: Scraper.XmlDoc)
    ensures doc == Scraper.XmlSpec(run.links, run.content, stamp)
  {
    doc := Scraper.ConvertToXml(run.links, run.content, stamp);
  }

  /** Start-up: the `.env` file is loaded at import, then `API_KEY` is read;
      when loading raises, the application never starts. */
  method StartUp(env0: map<string, string>, envFile: Option<seq<string>>) returns (app: Option<Orchestrator>)
    ensures app.None? <==> EnvAfterFile(envFile, env0).error.Some?
    ensures app.Some? ==>
      && fresh(app.value) && fresh(app.value.scraping) && fresh(app.value.processing)
      && app.value.Valid() && app.value.Initial() && app.value.sites == Scraper.Sites
      && app.value.env == EnvAfterFile(envFile, env0).env
      && app.value.apiKey == Get(app.value.env, KeyName, "")
  {
    var load := LoadEnvFile(envFile, env0);
    if load.error.Some? {
      return None;
    }
    var o := new Orchestrator(load.env);
    app := Some(o);
  }

  class Orchestrator {
    const scraping: TaskStatus
    const processing: TaskStatus
    /** `os.environ`. */
    var env: map<string, string>
    /** `API_KEY`, read once after the `.env` file was loaded at start-up; `''`
        when unset. */
    const apiKey: string
    /** The sites of the scraper each scraping run creates: `Scraper.Sites`. */
    const sites: seq<Scraper.SiteConfig>

    predicate Valid()
      reads this
    {
      scraping != processing
    }

    /** The records as start-up leaves them: idle at progress 0 with their
        ready messages, nothing recorded. */
    ghost predicate Initial()
      reads this, scraping, processing
    {
      && !scraping.running && scraping.progress == 0 && scraping.message == "Ready to scrape"
      && !processing.running && processing.progress == 0 && processing.message == "Ready to process"
      && scraping.lastRun.None? && scraping.filesCreated == [] && processing.lastRun.None? && processing.filesCreated == []
    }

    /** The application over the environment the `.env` file left: the key is
        read from it, and both records are ready. */
    constructor (env1: map<string, string>)
      ensures Valid() && fresh(scraping) && fresh(processing)
      ensures env == env1 && apiKey == Get(env1, KeyName, "")
      ensures sites == Scraper.Sites
      ensures Initial()
    {
      env := env1;
      apiKey := Get(env1, KeyName, "");
      sites := Scraper.Sites;
      scraping := new TaskStatus("Ready to scrape");
      processing := new TaskStatus("Ready to process");
    }

    /** `/api/status`. */
    function GetStatus(): (v: (StatusView, StatusView))
      reads this, scraping, processing
      ensures v.0.running == scraping.running && v.0.progress == scraping.progress && v.0.message == scraping.message
      ensures v.1.running == processing.running && v.1.progress == processing.progress && v.1.message == processing.message
      ensures v.0.lastRun == scraping.lastRun && v.0.filesCreated == scraping.filesCreated
      ensures v.1.lastRun == processing.lastRun && v.1.filesCreated == processing.filesCreated
    {
      (StatusView(scraping.running, scraping.progress, scraping.message, scraping.lastRun, scraping.filesCreated),
       StatusView(processing.running, processing.progress, processing.message, processing.lastRun, processing.filesCreated))
    }

    /** `run_scraping_task`: milestones 0, 10, 80, 100 and the links and articles
        counted when the files are saved; progress 0 and the message
        `Scraping failed: …` when saving raises; never left running. The saved
        encodings are returned when the run succeeded. */
    method RunScrapingTask(w: ScrapeWorld) returns (saved: Option<(Scraper.XmlDoc, Scraper.ScrapedJson)>)
      requires Valid()
      modifies scraping
      ensures !scraping.running
      ensures ScrapeFinished(scraping, ScrapeRun(sites, w), w, saved, old(scraping.lastRun), old(scraping.filesCreated))
    {
      scraping.Begin("Initializing scraper...");
      var run;
      run, saved := ScrapingSteps(w);
      scraping.End();
    }

    /** The steps of the `try` block and its `except` branch. */
    method ScrapingSteps(w: ScrapeWorld) returns (run: Scraper.RunState, saved: Option<(Scraper.XmlDoc, Scraper.ScrapedJson)>)
      requires scraping.trace == [0]
      modifies scraping
      ensures run == ScrapeRun(sites, w)
      ensures ScrapeFinished(scraping, run, w, saved, old(scraping.lastRun), old(scraping.filesCreated))
    {
      ghost var lastRun0, files0 := scraping.lastRun, scraping.filesCreated;
      scraping.Advance(10, "Scraping Construction News...");
      run := ScrapeSites(sites, w);
      scraping.Advance(80, "Saving scraped data...");
      var doc := Encode(run, w.stamp);
      if w.saveError.Some? {
        scraping.Fail(ScrapeFailed, w.saveError.value);
        saved := None;
        assert scraping.trace == ScrapeMilestones[..3] + [0];
        assert ScrapeFinished(scraping, run, w, saved, lastRun0, files0);
      } else {
        scraping.Advance(100, ScrapeDoneMessage(run));
        scraping.Record(w.finishedAt, [SavedXml(w), SavedJson(w)]);
        saved := Some((doc, Scraper.JsonPayload(run.links, run.content, w.stamp)));
        assert scraping.trace == ScrapeMilestones;
        assert ScrapeFinished(scraping, run, w, saved, lastRun0, files0);
      }
    }

    /** The key a processing run uses: `API_KEY`, else the environment's, else
        the environment's after loading the `.env` file again, unless that
        raises. */
    function RunKey(w: ProcessWorld): KeyLookup
      reads this
    {
      var first := Or(apiKey, Get(env, KeyName, ""));
      if first != "" then Found(first)
      else
        var load := EnvAfterFile(w.envFile, env);
        if load.error.Some? then LoadFailed(load.error.value) else Found(Get(load.env, KeyName, ""))
    }

    /** The environment after the key lookup: reloaded only when neither
        `API_KEY` nor the environment has a key, keeping what was assigned before
        a line raised. */
    function LookupEnv(w: ProcessWorld): map<string, string>
      reads this
    {
      if Or(apiKey, Get(env, KeyName, "")) != "" then env else EnvAfterFile(w.envFile, env).env
    }

    /** `run_processing_task`: the milestones of the outcome, then 100 with the
        output file on success, or progress 0 and `Processing failed: …` as soon
        as a step raises; never left running. The written record is returned. */
    method RunProcessingTask(w: ProcessWorld, max: MaxArticles) returns (written: Option<OutputRecord>)
      requires Valid()
      modifies processing, this
      ensures Valid() && !processing.running
      ensures env == old(LookupEnv(w))
      ensures Finished(processing, ProcessSpec(old(RunKey(w)), w, max), written, w.finishedAt,
                       old(processing.lastRun), old(processing.filesCreated))
    {
      processing.Begin("Checking API key...");
      var lookup := FindKey(w);
      written := ProcessingSteps(lookup, w, max);
      processing.End();
    }

    /** The key lookup, which loads the `.env` file again when neither `API_KEY`
        nor the environment has a key. */
    method FindKey(w: ProcessWorld) returns (lookup: KeyLookup)
      modifies this
      ensures lookup == old(RunKey(w))
      ensures env == old(LookupEnv(w))
    {
      var key := Or(apiKey, Get(env, KeyName, ""));
      if key != "" {
        return Found(key);
      }
      var load := LoadEnvFile(w.envFile, env);
      env := load.env;
      if load.error.Some? {
        return LoadFailed(load.error.value);
      }
      lookup := Found(Get(env, KeyName, ""));
    }

    /** The steps after the key lookup, up to the end of the `try` block or the
        `except` branch. */
    method ProcessingSteps(lookup: KeyLookup, w: ProcessWorld, max: MaxArticles) returns (written: Option<OutputRecord>)
      requires processing.trace == [0]
      modifies processing
      ensures processing.running == old(processing.running)
      ensures Finished(processing, ProcessSpec(lookup, w, max), written, w.finishedAt,
                       old(processing.lastRun), old(processing.filesCreated))
    {
      written := None;
      if lookup.LoadFailed? {
        processing.Fail(ProcessFailed, lookup.error);
        return;
      }
      var key := lookup.key;
      if key == "" {
        processing.Fail(ProcessFailed, MissingKey);
        return;
      }
      processing.Advance(5, "API key found (" + NatToString(|key|) + " chars), finding scraped data...");
      written := FileSteps(w, max);
    }

    /** The steps from milestone 5 on: finding and reading the scraped file. */
    method FileSteps(w: ProcessWorld, max: MaxArticles) returns (written: Option<OutputRecord>)
      requires processing.trace == [0, 5]
      modifies processing
      ensures processing.running == old(processing.running)
      ensures Finished(processing, FileSpec(w, max), written, w.finishedAt,
                       old(processing.lastRun), old(processing.filesCreated))
    {
      if w.latestXml.None? {
        processing.Fail(ProcessFailed, NoScrapedData);
        return None;
      }
      var path := w.latestXml.value;
      processing.Advance(10, "Loading data from " + DataProcessor.FileName(path) + "...");
      var loaded := DataProcessor.LoadScrapedData(path, w.readXml, w.readJson);
      written := OutputSteps(loaded, w, max);
    }

    /** The steps after the scraped file was read. */
    method OutputSteps(loaded: Option<seq<Article>>, w: ProcessWorld, max: MaxArticles) returns (written: Option<OutputRecord>)
      requires processing.trace == [0, 5, 10]
      modifies processing
      ensures processing.running == old(processing.running)
      ensures Finished(processing, LoadedSpec(loaded, w, max), written, w.finishedAt,
                       old(processing.lastRun), old(processing.filesCreated))
    {
      if loaded.None? {
        processing.Fail(ProcessFailed, Unsupported);
        written := None;
      } else {
        written := SaveOutput(loaded.value, w, max);
      }
    }

    /** The steps from milestone 30 on, for the articles loaded: the slice and
        the log line of the processing loop raise for the `max_articles` values
        that fail, before any article is sent. */
    method SaveOutput(articles: seq<Article>, w: ProcessWorld, max: MaxArticles) returns (written: Option<OutputRecord>)
      requires processing.trace == [0, 5, 10]
      modifies processing
      ensures processing.running == old(processing.running)
      ensures Finished(processing, ArticlesSpec(articles, w, max), written, w.finishedAt,
                       old(processing.lastRun), old(processing.filesCreated))
    {
      processing.Advance(30, "Processing " + NatToString(|articles|) + " articles with Gemini...");
      if max.NotAnIndex? {
        processing.Fail(ProcessFailed, SliceError);
        return None;
      }
      if max.NoLimit? && HasContent(articles) {
        processing.Fail(ProcessFailed, CompareError);
        return None;
      }
      var n := if max.Limit? then max.n else |articles|;
      assert ArticlesSpec(articles, w, max) == WriteSpec(w, OutputOf(w, articles, n));
      written := SendArticles(articles, w, n);
    }

    /** The articles sent to the model, the briefing and the write, for the first
        `n` articles. */
    method SendArticles(articles: seq<Article>, w: ProcessWorld, n: int) returns (written: Option<OutputRecord>)
      requires processing.trace == [0, 5, 10, 30]
      modifies processing
      ensures processing.running == old(processing.running)
      ensures Finished(processing, WriteSpec(w, OutputOf(w, articles, n)), written, w.finishedAt,
                       old(processing.lastRun), old(processing.filesCreated))
    {
      var record := ProduceOutput(w, articles, n);
      processing.Advance(90, "Saving processed data...");
      written := WriteOutput(w, record);
    }

    /** Milestone 100 and the record written, or the error writing it raises. */
    method WriteOutput(w: ProcessWorld, record: OutputRecord) returns (written: Option<OutputRecord>)
      requires processing.trace == [0, 5, 10, 30, 80, 90]
      modifies processing
      ensures processing.running == old(processing.running)
      ensures Finished(processing, WriteSpec(w, record), written, w.finishedAt,
                       old(processing.lastRun), old(processing.filesCreated))
    {
      var file := OutputFile(w.timestamp);
      if w.writeError.Some? {
        processing.Fail(ProcessFailed, w.writeError.value);
        written := None;
      } else {
        processing.Advance(100, "Processing complete! Generated " + file);
        processing.Record(w.finishedAt, [file]);
        written := Some(record);
        assert processing.trace == ProcessMilestones;
      }
    }

    /** The articles sent to the model, milestone 80, and the briefing written
        from them. */
    method ProduceOutput(w: ProcessWorld, articles: seq<Article>, maxArticles: int) returns (record: OutputRecord)
      modifies processing
      ensures record == OutputOf(w, articles, maxArticles)
      ensures processing.progress == 80 && processing.trace == old(processing.trace) + [80]
      ensures processing.running == old(processing.running)
      ensures processing.lastRun == old(processing.lastRun) && processing.filesCreated == old(processing.filesCreated)
    {
      var processed := DataProcessor.ProcessArticlesWithGemini(w.api, w.decode, articles, maxArticles, w.stamps);
      processing.Advance(80, "Generating dashboard summary...");
      var summary := GeminiRest.GenerateDashboardSummary(w.api, processed);
      record := OutputRecord(w.processedAt, |articles|, |processed|, summary, processed);
    }

    /** `/api/scrape`: refused while a scraping run is in progress, and otherwise
        the scraping run, which ends as `RunScrapingTask` says. */
    method StartScraping(w: ScrapeWorld) returns (r: Response, saved: Option<(Scraper.XmlDoc, Scraper.ScrapedJson)>)
      requires Valid()
      modifies scraping
      ensures old(scraping.running) ==> r == Rejected("Scraping already in progress") && unchanged(scraping) && saved.None?
      ensures !old(scraping.running) ==> r == Started("Scraping started") && !scraping.running
      ensures !old(scraping.running) ==>
        ScrapeFinished(scraping, ScrapeRun(sites, w), w, saved, old(scraping.lastRun), old(scraping.filesCreated))
      ensures !old(scraping.running) ==>
        (w.saveError.None? <==> scraping.progress == 100) && (w.saveError.Some? <==> scraping.progress == 0)
    {
      if scraping.running {
        return Rejected("Scraping already in progress"), None;
      }
      saved := RunScrapingTask(w);
      r := Started("Scraping started");
    }

    /** `/api/process`: refused while a processing run is in progress, and
        otherwise the processing run, for the body's `max_articles` (10 when the
        body or the field is missing), which ends as `RunProcessingTask` says. */
    method StartProcessing(w: ProcessWorld, field: MaxArticlesField) returns (r: Response, written: Option<OutputRecord>)
      requires Valid()
      modifies processing, this
      ensures Valid()
      ensures old(processing.running) ==>
        r == Rejected("Processing already in progress") && unchanged(processing) && env == old(env) && written.None?
      ensures !old(processing.running) ==> r == Started("Processing started") && !processing.running
      ensures !old(processing.running) ==>
        env == old(LookupEnv(w))
      ensures !old(processing.running) ==>
        Finished(processing, ProcessSpec(old(RunKey(w)), w, MaxArticlesOf(field)), written, w.finishedAt,
                 old(processing.lastRun), old(processing.filesCreated))
      ensures !old(processing.running) ==>
        var o := ProcessSpec(old(RunKey(w)), w, MaxArticlesOf(field));
        processing.progress == (if o.Succeeded? then 100 else 0)
    {
      if processing.running {
        return Rejected("Processing already in progress"), None;
      }
      written := RunProcessingTask(w, MaxArticlesOf(field));
      r := Started("Processing started");
    }

    /** `run_complete_workflow`: the scraping run, then the processing run only
        when scraping reached 100. Each run ends as its task method says. */
    method RunCompleteWorkflow(sw: ScrapeWorld, pw: ProcessWorld, max: MaxArticles)
      returns (saved: Option<(Scraper.XmlDoc, Scraper.ScrapedJson)>, written: Option<OutputRecord>)
      requires Valid()
      modifies scraping, processing, this
      ensures Valid() && !scraping.running
      ensures ScrapeFinished(scraping, ScrapeRun(sites, sw), sw, saved, old(scraping.lastRun), old(scraping.filesCreated))
      ensures scraping.progress == 100 <==> sw.saveError.None?
      ensures sw.saveError.Some? ==> unchanged(processing) && env == old(env) && written.None?
      ensures sw.saveError.None? ==> !processing.running
      ensures sw.saveError.None? ==>
        env == old(LookupEnv(pw))
      ensures sw.saveError.None? ==>
        Finished(processing, ProcessSpec(old(RunKey(pw)), pw, max), written, pw.finishedAt,
                 old(processing.lastRun), old(processing.filesCreated))
      ensures sw.saveError.None? ==>
        processing.progress == (if ProcessSpec(old(RunKey(pw)), pw, max).Succeeded? then 100 else 0)
    {
      saved := RunScrapingTask(sw);
      if scraping.progress != 100 {
        return saved, None;
      }
      written := RunProcessingTask(pw, max);
    }

    /** `/api/scrape_and_process`: refused while either run is in progress, and
        otherwise the complete workflow. */
    method ScrapeAndProcess(sw: ScrapeWorld, pw: ProcessWorld, field: MaxArticlesField)
      returns (r: Response, saved: Option<(Scraper.XmlDoc, Scraper.ScrapedJson)>, written: Option<OutputRecord>)
      requires Valid()
      modifies scraping, processing, this
      ensures Valid()
      ensures old(scraping.running) || old(processing.running) ==>
        && r == Rejected("Another task is already running") && unchanged(scraping) && unchanged(processing)
        && env == old(env) && saved.None? && written.None?
      ensures !old(scraping.running) && !old(processing.running) ==>
        && r == Started("Complete workflow started") && !scraping.running
        && ScrapeFinished(scraping, ScrapeRun(sites, sw), sw, saved, old(scraping.lastRun), old(scraping.filesCreated))
        && (sw.saveError.Some? ==> unchanged(processing) && env == old(env) && written.None?)
        && (sw.saveError.None? ==> !processing.running)
        && (sw.saveError.None? ==>
              Finished(processing, ProcessSpec(old(RunKey(pw)), pw, MaxArticlesOf(field)), written, pw.finishedAt,
                       old(processing.lastRun), old(processing.filesCreated)))
    {
      if scraping.running || processing.running {
        return Rejected("Another task is already running"), None, None;
      }
      saved, written := RunCompleteWorkflow(sw, pw, MaxArticlesOf(field));
      r := Started("Complete workflow started");
    }

    /** `process_scraped_file`: the output file and record for one scraped file,
        or `None` when the client has no key or the file's suffix is unsupported
        or the write raises. The client's key is the environment's. */
    method ProcessScrapedFile(path: string, w: ProcessWorld, maxArticles: int) returns (outputFile: Option<string>, record: Option<OutputRecord>)
      ensures var loaded := DataProcessor.ScrapedData(path, w.readXml, w.readJson);
        && (outputFile.Some? <==> Get(env, KeyName, "") != "" && loaded.Some? && w.writeError.None?)
        && (outputFile.Some? ==> outputFile == Some(OutputFile(w.timestamp)) && record == Some(OutputOf(w, loaded.value, maxArticles)))
        && (outputFile.None? ==> record.None?)
    {
      if Get(env, KeyName, "") == "" {
        return None, None;
      }
      var loaded := DataProcessor.LoadScrapedData(path, w.readXml, w.readJson);
      if loaded.None? {
        return None, None;
      }
      var articles := loaded.value;
      var processed := DataProcessor.ProcessArticlesWithGemini(w.api, w.decode, articles, maxArticles, w.stamps);
      var summary := GeminiRest.GenerateDashboardSummary(w.api, processed);
      if w.writeError.Some? {
        return None, None;
      }
      var file := OutputFile(w.timestamp);
      return Some(file), Some(OutputRecord(w.processedAt, |articles|, |processed|, summary, processed));
    }
  }

  /** `load_env_file`: the line loop, which assigns each parsed line in order
      (the parse of one line is `EnvEntry`) and stops with the error the first
      refused assignment raises. */
  method LoadEnvFile(envFile: Option<seq<string>>, env0: map<string, string>) returns (load: EnvLoad)
    ensures load == EnvAfterFile(envFile, env0)
  {
    if envFile.None? {
      return EnvLoad(env0, None);
    }
    var lines := envFile.value;
    var env := env0;
    for i := 0 to |lines|
      invariant env == AssignAll(EnvEntry, lines[..i], env0)
      invariant forall j :: 0 <= j < i ==> !Raises(lines[j])
    {
      AssignAllSnoc(EnvEntry, lines, i, env0);
      var entry := EnvEntry(lines[i]);
      if entry.Some? {
        var (key, value) := entry.value;
        var error := AssignError(key, value);
        if error.Some? {
          FirstIndexIs(lines, Raises, 0, i);
          assert LineError(lines[i]) == error;
          return EnvLoad(env, error);
        }
        env := env[key := value];
      }
    }
    assert lines[..|lines|] == lines;
    EnvWithoutRaising(lines, env0);
    load := EnvLoad(env, None);
  }
}
