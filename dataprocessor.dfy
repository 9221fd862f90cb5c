/** The `DataProcessor` of the model client: the loaders for the two encodings a
    scrape run writes, the dispatch on the file suffix, and the loop that sends
    articles to the summariser and keeps the answers.

    Parsing is an abstract input: a loader receives the `<article>` elements of
    an XML file, or the decoded object of a JSON file, that reading the file
    produced. */
module DataProcessor {
  import opened Wrappers
  import opened PyStr
  import opened Seqs
  import opened Articles
  import Scraper
  import GeminiRest

  // ===========================================================================
  // The loaders: `_load_xml_data`, `_load_json_data`

  /** One parsed `<article>` element: its `id` attribute and, for each child tag,
      the text of the first child with that tag. A child without text reads as
      `''`. */
  datatype ArticleElement = ArticleElement(id: Option<string>, children: map<string, string>)

  /** A decoded JSON file: its `links` list of objects (string fields) and its
      `articles_content` object, each present or absent. */
  datatype ScrapedFile = ScrapedFile(links: Option<seq<map<string, string>>>, articlesContent: Option<map<string, string>>)

  /** The field names both encodings use. */
  const TitleKey := "title"
  const UrlKey := "url"
  const SourceKey := "source"
  const ContentKey := "content"
  const ScrapedAtKey := "scraped_at"

  /** The article read from one element: each missing child reads as `''`. */
  function ArticleFromXml(e: ArticleElement): Article {
    Article(e.id, Get(e.children, TitleKey, ""), Get(e.children, UrlKey, ""), Get(e.children, SourceKey, ""),
            Get(e.children, ContentKey, ""), Get(e.children, ScrapedAtKey, ""))
  }

  /** The articles of an XML file, one per `<article>` element, in order. */
  function XmlArticles(root: seq<ArticleElement>): (r: seq<Article>)
    ensures |r| == |root|
  {
    seq(|root|, i requires 0 <= i < |root| => ArticleFromXml(root[i]))
  }

  method LoadXmlData(root: seq<ArticleElement>) returns (articles: seq<Article>)
    ensures articles == XmlArticles(root)
  {
    articles := [];
    for i := 0 to |root|
      invariant articles == XmlArticles(root[..i])
    {
      var e := root[i];
      var article := Article(e.id, Get(e.children, TitleKey, ""), Get(e.children, UrlKey, ""),
                             Get(e.children, SourceKey, ""), Get(e.children, ContentKey, ""),
                             Get(e.children, ScrapedAtKey, ""));
      articles := articles + [article];
    }
    assert root[..|root|] == root;
  }

  /** The article read from one link object: no `id`, and the content stored
      under the link's URL, or `''`. */
  function ArticleFromJson(link: map<string, string>, content: map<string, string>): Article {
    Article(None, Get(link, TitleKey, ""), Get(link, UrlKey, ""), Get(link, SourceKey, ""),
            Get(content, Get(link, UrlKey, ""), ""), Get(link, ScrapedAtKey, ""))
  }

  /** The articles of a JSON file, one per link, in order. */
  function JsonArticles(data: ScrapedFile): (r: seq<Article>)
    ensures |r| == |data.links.GetOr([])|
  {
    var links := data.links.GetOr([]);
    seq(|links|, i requires 0 <= i < |links| => ArticleFromJson(links[i], data.articlesContent.GetOr(map[])))
  }

  method LoadJsonData(data: ScrapedFile) returns (articles: seq<Article>)
    ensures articles == JsonArticles(data)
  {
    var links := data.links.GetOr([]);
    var content := data.articlesContent.GetOr(map[]);
    articles := [];
    for i := 0 to |links|
      invariant |articles| == i
      invariant forall j :: 0 <= j < i ==> articles[j] == ArticleFromJson(links[j], content)
    {
      var link := links[i];
      var url := Get(link, UrlKey, "");
      var article := Article(None, Get(link, TitleKey, ""), url, Get(link, SourceKey, ""),
                             Get(content, url, ""), Get(link, ScrapedAtKey, ""));
      articles := articles + [article];
    }
  }

  // ===========================================================================
  // What the loaders read back from the files a scrape run writes

  /** The element `convert_to_xml` wrote, taken to be read back as exactly the
      text written; the XML parser's end-of-line handling (`\r\n` and a lone
      `\r` become `\n`) is not modelled. */
  function ElementOf(a: Scraper.XmlArticle): ArticleElement {
    var fields := map[TitleKey := a.title, UrlKey := a.url, SourceKey := a.source, ScrapedAtKey := a.scrapedAt];
    ArticleElement(Some(a.id), if a.content.Some? then fields[ContentKey := a.content.value] else fields)
  }

  function ParsedXml(doc: Scraper.XmlDoc): seq<ArticleElement> {
    seq(|doc.articles|, i requires 0 <= i < |doc.articles| => ElementOf(doc.articles[i]))
  }

  /** A link object of the JSON encoding. */
  function LinkObject(l: Scraper.Link): map<string, string> {
    map[TitleKey := l.title, UrlKey := l.url, SourceKey := l.source, ScrapedAtKey := l.scrapedAt]
  }

  function ParsedJson(j: Scraper.ScrapedJson): ScrapedFile {
    ScrapedFile(Some(seq(|j.links|, i requires 0 <= i < |j.links| => LinkObject(j.links[i]))), Some(j.articlesContent))
  }

  /** Both files of one run load as the same articles, link by link and in
      order, except that only the XML ones carry an `id`, the link's index; an
      article's content is the one fetched for its URL, or `''`. */
  lemma LoadersAgree(links: seq<Scraper.Link>, content: map<string, string>, stamp: string)
    ensures var x := XmlArticles(ParsedXml(Scraper.XmlSpec(links, content, stamp)));
            var j := JsonArticles(ParsedJson(Scraper.JsonPayload(links, content, stamp)));
      && |x| == |j| == |links|
      && forall i :: 0 <= i < |links| ==>
           && x[i] == j[i].(id := Some(NatToString(i)))
           && j[i] == Article(None, links[i].title, links[i].url, links[i].source,
                              if links[i].url in content then content[links[i].url] else "", links[i].scrapedAt)
  {
    var x := XmlArticles(ParsedXml(Scraper.XmlSpec(links, content, stamp)));
    var j := JsonArticles(ParsedJson(Scraper.JsonPayload(links, content, stamp)));
    forall i | 0 <= i < |links|
      ensures x[i] == j[i].(id := Some(NatToString(i)))
      ensures j[i] == Article(None, links[i].title, links[i].url, links[i].source,
                              if links[i].url in content then content[links[i].url] else "", links[i].scrapedAt)
    {
      var e := ElementOf(Scraper.ArticleElement(i, links[i], content));
      assert x[i] == ArticleFromXml(e);
      assert j[i] == ArticleFromJson(LinkObject(links[i]), content);
      KeysDiffer();
    }
  }

  lemma KeysDiffer()
    ensures TitleKey != UrlKey && TitleKey != SourceKey && TitleKey != ContentKey && TitleKey != ScrapedAtKey
    ensures UrlKey != SourceKey && UrlKey != ContentKey && UrlKey != ScrapedAtKey
    ensures SourceKey != ContentKey && SourceKey != ScrapedAtKey && ContentKey != ScrapedAtKey
  {
    assert TitleKey[0] == 't' && UrlKey[0] == 'u' && SourceKey[0] == 's' && ContentKey[0] == 'c';
    assert ScrapedAtKey[1] == 'c' && SourceKey[1] == 'o';
  }

  // ===========================================================================
  // Dispatch on the suffix: `load_scraped_data`

  predicate IsSlash(c: char) {
    c == '/'
  }

  /** `Path(p).name` for the paths a glob returns: the last component, trailing
      slashes ignored. pathlib also drops `.` components (`x.json/.` is named
      `x.json`), which this does not. */
  function FileName(path: string): (name: string)
    ensures '/' !in name
  {
    var p := TrimEnd(path, IsSlash);
    p[RFind(p, '/') + 1..]
  }

  /** `Path(p).suffix`: from the last `.` of the name, when that `.` is neither
      its first nor its last character; `''` otherwise. */
  function Suffix(path: string): (r: string)
    ensures r == "" || (|r| >= 2 && r[0] == '.' && '.' !in r[1..] && '/' !in r)
  {
    var name := FileName(path);
    var i := RFind(name, '.');
    if 0 < i < |name| - 1 then name[i..] else ""
  }

  /** The loaded articles, or `None` for the `ValueError` an unsupported suffix
      raises. */
  function ScrapedData(path: string, readXml: string -> seq<ArticleElement>, readJson: string -> ScrapedFile): Option<seq<Article>> {
    var suffix := Suffix(path);
    if suffix == ".xml" then Some(XmlArticles(readXml(path)))
    else if suffix == ".json" then Some(JsonArticles(readJson(path)))
    else None
  }

  method LoadScrapedData(path: string, readXml: string -> seq<ArticleElement>, readJson: string -> ScrapedFile)
    returns (r: Option<seq<Article>>)
    ensures r == ScrapedData(path, readXml, readJson)
    ensures Suffix(path) == ".xml" ==> r == Some(XmlArticles(readXml(path)))
    ensures Suffix(path) == ".json" ==> r == Some(JsonArticles(readJson(path)))
    ensures r.None? <==> Suffix(path) != ".xml" && Suffix(path) != ".json"
  {
    var suffix := Suffix(path);
    if suffix == ".xml" {
      var articles := LoadXmlData(readXml(path));
      return Some(articles);
    } else if suffix == ".json" {
      var articles := LoadJsonData(readJson(path));
      return Some(articles);
    }
    return None;
  }

  /** The suffix of `base + ext` is `ext` for a dotted extension without further
      dots or slashes, after a name part that does not end in a slash. */
  lemma SuffixOfNamed(base: string, ext: string)
    requires |base| > 0 && base[|base| - 1] != '/'
    requires |ext| >= 2 && ext[0] == '.' && '.' !in ext[1..] && '/' !in ext
    ensures Suffix(base + ext) == ext
  {
    var path := base + ext;
    NoTrailingSlash(path);
    RFindAppend(base, ext, '/');
    var k := RFind(base, '/');
    var stem := base[k + 1..];
    assert FileName(path) == stem + ext by {
      assert path[k + 1..] == stem + ext;
    }
    ExtensionDot(ext);
    RFindAppend(stem, ext, '.');
    assert (stem + ext)[|stem|..] == ext;
  }

  lemma NoTrailingSlash(path: string)
    requires |path| > 0 && path[|path| - 1] != '/'
    ensures TrimEnd(path, IsSlash) == path
  {
  }

  lemma ExtensionDot(ext: string)
    requires |ext| >= 2 && ext[0] == '.' && '.' !in ext[1..]
    ensures RFind(ext, '.') == 0
  {
  }

  /** The two files a scrape run saves load through the XML and the JSON
      branch respectively (the run's timestamp has no slash and no dot). */
  lemma SavedFilesLoad(filenameBase: string, timestamp: string)
    requires '/' !in timestamp && '.' !in timestamp
    ensures Suffix(Scraper.SavedNames(filenameBase, timestamp).0) == ".xml"
    ensures Suffix(Scraper.SavedNames(filenameBase, timestamp).1) == ".json"
  {
    var pre := filenameBase + "_" + timestamp;
    assert pre[|pre| - 1] != '/' by {
      if |timestamp| > 0 {
        assert pre[|pre| - 1] == timestamp[|timestamp| - 1];
      } else {
        assert pre[|pre| - 1] == '_';
      }
    }
    DottedExtension(".xml");
    DottedExtension(".json");
    SuffixOfNamed(pre, ".xml");
    SuffixOfNamed(pre, ".json");
  }

  lemma DottedExtension(ext: string)
    requires ext == ".xml" || ext == ".json"
    ensures |ext| >= 2 && ext[0] == '.' && '.' !in ext[1..] && '/' !in ext
  {
  }

  // ===========================================================================
  // The summarising loop: `process_articles_with_gemini`

  const RawSummaryKey := "raw_summary"

  /** The summary kept for a reply: the decoded JSON, or `{'raw_summary': text}`
      when the text does not decode. */
  function Interpret(decode: string -> Option<Decoded>, text: string): Decoded {
    match decode(text)
    case Some(d) => d
    case None => Object(map[RawSummaryKey := text])
  }

  /** What one considered article gives: nothing when its content is empty or
      the summariser returns no (or an empty) text; otherwise the article with
      its summary and time stamp. */
  function Outcome(api: GeminiRest.Api, decode: string -> Option<Decoded>, a: Article, stamp: string): Option<ProcessedArticle> {
    if a.content == "" then None
    else
      var summary := GeminiRest.SummarySpec(api, a.title, a.content);
      if summary.None? || summary.value == "" then None
      else Some(ProcessedArticle(a, Interpret(decode, summary.value), stamp))
  }

  /** The processed list from the considered articles; `now(i)` is the time
      stamp taken while handling the `i`-th of them. */
  function ProcessSpec(api: GeminiRest.Api, decode: string -> Option<Decoded>, xs: seq<Article>, now: nat -> string): seq<ProcessedArticle> {
    MapSome(Step(api, decode, now), xs)
  }

  /** The outcome of the `i`-th considered article. */
  function Step(api: GeminiRest.Api, decode: string -> Option<Decoded>, now: nat -> string): (nat, Article) -> Option<ProcessedArticle> {
    (i: nat, a: Article) => Outcome(api, decode, a, now(i))
  }

  method ProcessArticlesWithGemini(api: GeminiRest.Api, decode: string -> Option<Decoded>, articles: seq<Article>,
                                   maxArticles: int, now: nat -> string)
    returns (processed: seq<ProcessedArticle>)
    ensures processed == ProcessSpec(api, decode, SliceTo(articles, maxArticles), now)
  {
    var considered := SliceTo(articles, maxArticles);
    processed := [];
    for i := 0 to |considered|
      invariant processed == ProcessSpec(api, decode, considered[..i], now)
    {
      assert considered[..i + 1][..i] == considered[..i];
      assert ProcessSpec(api, decode, considered[..i + 1], now) ==
             processed + ToSeq(Outcome(api, decode, considered[i], now(i)));
      var article := considered[i];
      if article.content != "" {
        var summary := GeminiRest.SummarizeArticle(api, article.title, article.content, article.url, article.source);
        if summary.Some? && summary.value != "" {
          var data: Decoded;
          var decoded := decode(summary.value);
          if decoded.Some? {
            data := decoded.value;
          } else {
            data := Object(map[RawSummaryKey := summary.value]);
          }
          processed := processed + [ProcessedArticle(article, data, now(i))];
        }
      }
    }
    assert considered[..|considered|] == considered;
  }

  /** One article is kept exactly when it has content and the summariser returns
      a non-empty text; it is kept whole, and its summary is the decoded text, or
      the text under `raw_summary` when it does not decode. */
  lemma OutcomeRule(api: GeminiRest.Api, decode: string -> Option<Decoded>, a: Article, stamp: string)
    ensures Outcome(api, decode, a, stamp).Some? <==>
      a.content != "" && GeminiRest.SummarySpec(api, a.title, a.content).Some? &&
      GeminiRest.SummarySpec(api, a.title, a.content).value != ""
    ensures Outcome(api, decode, a, stamp).Some? ==>
      var p := Outcome(api, decode, a, stamp).value;
      var text := GeminiRest.SummarySpec(api, a.title, a.content).value;
      && p.article == a && p.processedAt == stamp
      && (decode(text).Some? ==> p.summary == decode(text).value)
      && (decode(text).None? ==> p.summary == Object(map[RawSummaryKey := text]))
  {
  }

  /** The indices of the kept articles, in increasing order. */
  function KeptIndices(api: GeminiRest.Api, decode: string -> Option<Decoded>, xs: seq<Article>, now: nat -> string): seq<nat> {
    SomeIndices(Step(api, decode, now), xs)
  }

  /** The processed list is the outcomes of exactly the kept articles, in input
      order: its `k`-th entry comes from the `k`-th kept index, the indices
      increase, and every index left out belongs to an article that is not kept.
      So no more articles come out than are considered. */
  lemma ProcessedSelection(api: GeminiRest.Api, decode: string -> Option<Decoded>, xs: seq<Article>, now: nat -> string)
    ensures var out := ProcessSpec(api, decode, xs, now);
            var idx := KeptIndices(api, decode, xs, now);
      && |out| == |idx| <= |xs|
      && (forall k :: 0 <= k < |idx| ==> idx[k] < |xs| && Outcome(api, decode, xs[idx[k]], now(idx[k])) == Some(out[k]))
      && (forall k, l :: 0 <= k < l < |idx| ==> idx[k] < idx[l])
      && (forall j :: 0 <= j < |xs| && j !in idx ==> Outcome(api, decode, xs[j], now(j)).None?)
  {
    MapSomeSelection(Step(api, decode, now), xs);
  }
}
