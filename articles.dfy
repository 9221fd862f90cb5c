/** The records that flow from the loaders to the summariser and on to both
    aggregators: an article as the loaders build it, the decoded model answer, and
    the processed article that carries both. */
module Articles {
  import opened Wrappers
  import opened PyStr

  /** An article dict as `_load_xml_data` / `_load_json_data` build it. `id` is
      present only for articles read from the XML encoding. A missing or null text
      is the empty string. */
  datatype Article = Article(
    id: Option<string>,
    title: string,
    url: string,
    source: string,
    content: string,
    scrapedAt: string)

  /** What `json.loads` made of a model answer: an object (with string values, as
      the prompt demands), or some other JSON value, of which only its truthiness
      matters to the code. */
  datatype Decoded = Object(fields: map<string, string>) | Other(truthy: bool)

  /** `{**article, 'gemini_summary': summary, 'processed_at': stamp}`. */
  datatype ProcessedArticle = ProcessedArticle(
    article: Article,
    summary: Decoded,
    processedAt: string)

  /** Python truthiness of the summary value: a non-empty dict, or a truthy other value. */
  predicate Truthy(d: Decoded) {
    match d
    case Object(m) => |m| > 0
    case Other(t) => t
  }

  /** `m.get(k, default)` on a dict of strings. */
  function Get(m: map<string, string>, k: string, default: string): string {
    if k in m then m[k] else default
  }

  /** Python's `a or b` on strings. */
  function Or(a: string, b: string): string {
    if a != "" then a else b
  }

  /** The fine rule shared by both aggregators, for the currency `marker` each one
      looks for: a value counts only when it is non-empty, is not `'None'` and
      contains the marker; it is then the integer left after deleting every marker
      and every comma, and 0 when that text is not an integer. */
  function FineAmount(marker: string, fine: string): int
    requires |marker| > 0
  {
    if fine != "" && fine != "None" && Contains(fine, marker) then
      match ParseInt(RemoveAll(RemoveAll(fine, marker), ","))
      case Some(n) => n
      case None => 0
    else 0
  }

  /** A marked fine holding a character that no integer is written with, and that
      is neither part of the marker nor a comma, counts 0: `£50,000 approx.` adds
      nothing. */
  lemma FineNonNumeric(marker: string, fine: string, c: char)
    requires |marker| > 0 && c in fine && c !in marker && c != ','
    requires !IsSpace(c) && !IsDigit(c) && c != '_' && c != '+' && c != '-'
    ensures FineAmount(marker, fine) == 0
  {
    if fine != "" && fine != "None" && Contains(fine, marker) {
      RemoveAllKeeps(fine, marker, c);
      RemoveAllKeeps(RemoveAll(fine, marker), ",", c);
      ParseIntRejects(RemoveAll(RemoveAll(fine, marker), ","), c);
    }
  }

  /** Any integer written after the marker with thousands separators counts as
      itself, for a marker that starts with a character `{n:,}` never writes. */
  lemma FineReadsWrittenAmount(marker: string, n: int)
    requires |marker| > 0 && !IsNumeral(marker[0])
    ensures FineAmount(marker, marker + Thousands(n)) == n
  {
    var t := Thousands(n);
    var fine := marker + t;
    assert fine[..|marker|] == marker;
    assert OccursAt(fine, marker, 0);
    ContainsSpec(fine, marker);
    assert fine != "" && fine != "None" by {
      assert fine[|fine| - 1] == t[|t| - 1];
      ThousandsChars(n);
    }
    assert fine[|marker|..] == t;
    assert RemoveAll(fine, marker) == RemoveAll(t, marker);
    ThousandsChars(n);
    ContainsSpec(t, marker);
    assert forall i :: 0 <= i < |t| ==> t[i] != marker[0];
    RemoveAbsent(t, marker);
    ThousandsRoundTrip(n);
  }

  /** The characters `{n:,}` writes. */
  predicate IsNumeral(c: char) {
    IsDigit(c) || c == ',' || c == '-'
  }

  lemma ThousandsChars(n: int)
    ensures |Thousands(n)| > 0 && IsDigit(Thousands(n)[|Thousands(n)| - 1])
    ensures forall i :: 0 <= i < |Thousands(n)| ==> IsNumeral(Thousands(n)[i])
  {
    GroupedChars(if n < 0 then -n else n);
  }

  lemma {:induction false} GroupedChars(n: nat)
    ensures |GroupedNat(n)| > 0 && IsDigit(GroupedNat(n)[|GroupedNat(n)| - 1])
    ensures forall i :: 0 <= i < |GroupedNat(n)| ==> IsNumeral(GroupedNat(n)[i])
    decreases n
  {
    if n >= 1000 {
      GroupedChars(n / 1000);
      var g := GroupedNat(n / 1000);
      var p := Pad3(n % 1000);
      assert GroupedNat(n) == g + "," + p;
      assert forall i :: 0 <= i < |p| ==> IsDigit(p[i]);
    }
  }

  /** The currency marker `app.py` looks for. */
  const Pound := "\U{A3}"

  /** The marker `gemini_rest_processor.py` looks for: the pound sign as UTF-8 bytes
      read back as Mac Roman, `'¬£'`. */
  const MojibakePound := "\U{AC}\U{A3}"
}
