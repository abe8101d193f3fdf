/**
 * The two analysis endpoints (`/analyze` and `/analyze-free`) as far as
 * they are bookkeeping: loading the invoices for a request, deriving the
 * cache key, and the process-wide response cache that makes a repeated
 * request return the stored response without calling the language model
 * or the local analysis again.
 *
 * Foreign parts are parameters: the CSV parser's rows, the file on disk
 * (its text and its rows), the hash behind `get_cache_key`, the language
 * model (a function from prompt to text or failure) and the state of the
 * local model.
 */
module Service {
  import opened Wrappers
  import opened Text
  import opened Invoices
  import opened LocalAnalysis
  import opened Summary

  datatype Request = Request(query: string, csvData: Option<string>)

  /** `invoices.csv` when it exists: its text and the rows `csv.DictReader` reads from it. */
  datatype FileSnapshot = FileSnapshot(text: string, rows: seq<Row>)

  datatype Reason =
    | InvalidCsvFormat                  // 400
    | NoInvoiceData                     // 404
    | RecordValidation                  // an inline row without one of the five columns
    | AnalysisFailed(detail: string)    // the language model call raised
    | FreeAnalysisFailed(cause: Failure)

  datatype HttpError = HttpError(status: nat, reason: Reason)

  /** What the analysis of one request produced. */
  datatype Answer = LlmText(text: string) | LocalReport(report: Report)

  datatype Response = Response(analysis: Answer, invoicesAnalyzed: nat, queryHash: string)

  /** The invoices of a request and the text its cache key is derived from. */
  datatype RequestData = RequestData(invoices: seq<InvoiceData>, csvContent: string)

  // ----- loading the invoices of a request -----

  /** `if request.csv_data:` — absent and empty both fall back to the file. */
  predicate InlineGiven(req: Request)
  {
    req.csvData.Some? && req.csvData.value != ""
  }

  /** `len(csv_data.strip().split('\n')) < 2`. */
  predicate CsvTooShort(csv: string)
  {
    |Split(Strip(csv), '\n')| < 2
  }

  /** Inline CSV is rejected exactly when no line break is left once the text is trimmed. */
  lemma CsvTooShortIff(csv: string)
    ensures CsvTooShort(csv) <==> '\n' !in Strip(csv)
  {
    SplitCount(Strip(csv), '\n');
    OccurrencesZero(Strip(csv), '\n');
  }

  function LoadInvoices(req: Request, inlineRows: seq<Row>, file: Option<FileSnapshot>): Result<RequestData, HttpError>
  {
    if InlineGiven(req) then
      var csv := req.csvData.value;
      if CsvTooShort(csv) then Err(HttpError(400, InvalidCsvFormat))
      else match StrictRecords(inlineRows)
        case None => Err(HttpError(500, RecordValidation))
        case Some(invs) => Ok(RequestData(invs, csv))
    else if file.None? || |file.value.rows| == 0 then Err(HttpError(404, NoInvoiceData))
    else Ok(RequestData(Records(file.value.rows), file.value.text))
  }

  /**
   * What loading yields, every outcome classified: a 400 exactly for short
   * inline CSV (whatever its rows), a 500 exactly for longer inline CSV with
   * a row missing one of the five columns, a 404 exactly when the fallback
   * file holds no invoices, and otherwise one record per row keyed by the
   * raw request text or the file's text.
   */
  lemma LoadOutcome(req: Request, inlineRows: seq<Row>, file: Option<FileSnapshot>)
    ensures InlineGiven(req) && CsvTooShort(req.csvData.value) ==>
              forall rows, other :: LoadInvoices(req, rows, other) == Err(HttpError(400, InvalidCsvFormat))
    ensures LoadInvoices(req, inlineRows, file) == Err(HttpError(400, InvalidCsvFormat)) <==>
              InlineGiven(req) && CsvTooShort(req.csvData.value)
    ensures LoadInvoices(req, inlineRows, file) == Err(HttpError(500, RecordValidation)) <==>
              InlineGiven(req) && !CsvTooShort(req.csvData.value)
              && exists i :: 0 <= i < |inlineRows| && !HasAllColumns(inlineRows[i])
    ensures LoadInvoices(req, inlineRows, file) == Err(HttpError(404, NoInvoiceData)) <==>
              !InlineGiven(req) && (file.None? || |file.value.rows| == 0)
    ensures LoadInvoices(req, inlineRows, file).Ok? ==>
              var l := LoadInvoices(req, inlineRows, file).value;
              if InlineGiven(req) then
                l.invoices == Records(inlineRows) && l.csvContent == req.csvData.value
                && |l.invoices| == |inlineRows|
              else
                file.Some? && l.invoices == Records(file.value.rows) && l.csvContent == file.value.text
                && 0 < |l.invoices| == |file.value.rows|
    ensures LoadInvoices(req, inlineRows, file).Ok? <==>
              if InlineGiven(req) then
                !CsvTooShort(req.csvData.value) && forall i :: 0 <= i < |inlineRows| ==> HasAllColumns(inlineRows[i])
              else
                file.Some? && |file.value.rows| > 0
  {
  }

  /** The loading code of both endpoints, with `load_csv_data`'s loop for the file. */
  method LoadRequestData(req: Request, inlineRows: seq<Row>, file: Option<FileSnapshot>)
    returns (r: Result<RequestData, HttpError>)
    ensures r == LoadInvoices(req, inlineRows, file)
  {
    if InlineGiven(req) {
      var csv := req.csvData.value;
      if |Split(Strip(csv), '\n')| < 2 {
        return Err(HttpError(400, InvalidCsvFormat));
      }
      var records := StrictRecords(inlineRows);
      if records.None? {
        return Err(HttpError(500, RecordValidation));
      }
      return Ok(RequestData(records.value, csv));
    }
    var invoices := LoadCsvData(if file.Some? then Some(file.value.rows) else None);
    if |invoices| == 0 {
      return Err(HttpError(404, NoInvoiceData));
    }
    assert invoices == Records(file.value.rows);
    r := Ok(RequestData(invoices, file.value.text));
  }

  // ----- cache keys -----

  /** `hexdigest()` produces lower-case hexadecimal digits. */
  predicate IsHexChar(c: char) { '0' <= c <= '9' || 'a' <= c <= 'f' }

  /** A SHA-256 hex digest: 64 lower-case hexadecimal characters. */
  predicate IsDigest(s: string)
  {
    |s| == 64 && forall i :: 0 <= i < |s| ==> IsHexChar(s[i])
  }

  function ZeroDigest(): (s: string)
    ensures IsDigest(s)
  {
    seq(64, _ => '0')
  }

  type Digest = s: string | IsDigest(s) witness ZeroDigest()

  /** The hash behind `get_cache_key`, left uninterpreted. */
  type Hasher = string -> Digest

  /** The text the source hashes, `f"{query}:{csv_data}"`. */
  function KeyMaterialAsWritten(query: string, csv: string): string
  {
    query + ":" + csv
  }

  /** Inline CSV that holds a line break and no white space at either end stays clear of the 400. */
  lemma CsvLongEnough(csv: string)
    requires |csv| > 0 && !IsSpace(csv[0]) && !IsSpace(csv[|csv| - 1]) && '\n' in csv
    ensures !CsvTooShort(csv)
  {
    StripUnchanged(csv);
    CsvTooShortIff(csv);
  }

  /**
   * Two different requests that both load and then hash the same text, so
   * the second is answered with the first one's cached response: the query
   * "q:y" with some CSV, and the query "q" with "y:" in front of that CSV.
   * Prepending "y:" renames only the first header column, so when the
   * first column is not one of the five, both requests' rows have the five
   * columns and the extra one is ignored.
   */
  lemma KeyMaterialAsWrittenCollides(csv: string, rows1: seq<Row>, rows2: seq<Row>, file: Option<FileSnapshot>)
    requires |csv| > 0 && !IsSpace(csv[0]) && !IsSpace(csv[|csv| - 1]) && '\n' in csv
    requires forall i :: 0 <= i < |rows1| ==> HasAllColumns(rows1[i])
    requires forall i :: 0 <= i < |rows2| ==> HasAllColumns(rows2[i])
    ensures var r1 := Request("q:y", Some(csv));
            var r2 := Request("q", Some("y:" + csv));
            && r1 != r2
            && LoadInvoices(r1, rows1, file).Ok? && LoadInvoices(r2, rows2, file).Ok?
            && KeyMaterialAsWritten(r1.query, LoadInvoices(r1, rows1, file).value.csvContent)
               == KeyMaterialAsWritten(r2.query, LoadInvoices(r2, rows2, file).value.csvContent)
  {
    var c2 := "y:" + csv;
    CsvLongEnough(csv);
    assert c2[0] == 'y' && c2[|c2| - 1] == csv[|csv| - 1];
    var k :| 0 <= k < |csv| && csv[k] == '\n';
    assert c2[k + 2] == '\n';
    CsvLongEnough(c2);
    assert "q:y" + ":" + csv == "q" + ":" + c2;
  }

  /**
   * A CSV for the collision: a header whose first column `z` is not one of
   * the five, then one invoice row. Its rows, and those of "y:" in front of
   * it (first column `y:z`), hold the five columns.
   */
  const COLLIDING_HEADER := "z,invoice_id,customer,amount,paid_at,status"
  const COLLIDING_ROW := "0,I1,Acme,10,,Paid"
  const COLLIDING_CSV: string := COLLIDING_HEADER + "\n" + COLLIDING_ROW

  /** The example CSV meets the collision's conditions on the text. */
  lemma CollidingCsvLoads()
    ensures |COLLIDING_CSV| > 0 && !IsSpace(COLLIDING_CSV[0]) && !IsSpace(COLLIDING_CSV[|COLLIDING_CSV| - 1])
    ensures '\n' in COLLIDING_CSV
  {
    var h, r := COLLIDING_HEADER, COLLIDING_ROW;
    assert h[0] == 'z' && r[|r| - 1] == 'd';
    assert COLLIDING_CSV == h + "\n" + r;
    assert COLLIDING_CSV[|h|] == '\n';
  }

  /** The hashed text with the query's length in front, so that the query and the CSV can be told apart. */
  function KeyMaterial(query: string, csv: string): string
  {
    DecimalDigits(|query|) + ":" + query + csv
  }

  /** Different requests give different hashed texts. */
  lemma KeyMaterialInjective(q1: string, c1: string, q2: string, c2: string)
    ensures KeyMaterial(q1, c1) == KeyMaterial(q2, c2) ==> q1 == q2 && c1 == c2
  {
    if KeyMaterial(q1, c1) == KeyMaterial(q2, c2) {
      var d1, d2 := DecimalDigits(|q1|), DecimalDigits(|q2|);
      var r1, r2 := ":" + q1 + c1, ":" + q2 + c2;
      assert KeyMaterial(q1, c1) == d1 + r1;
      assert KeyMaterial(q2, c2) == d2 + r2;
      LeadingDigitsOf(d1, r1);
      LeadingDigitsOf(d2, r2);
      DecimalDigitsInjective(|q1|, |q2|);
      assert r1 == r2;
      assert q1 == r1[1..1 + |q1|] == r2[1..1 + |q2|] == q2;
      assert c1 == r1[1 + |q1|..] == r2[1 + |q2|..] == c2;
    }
  }

  const FREE_PREFIX := "free_"

  function PaidKey(hash: Hasher, query: string, csv: string): string
  {
    hash(KeyMaterial(query, csv))
  }

  function FreeKey(hash: Hasher, query: string, csv: string): string
  {
    FREE_PREFIX + hash(KeyMaterial(query, csv))
  }

  predicate IsPaidKey(k: string) { IsDigest(k) }

  predicate IsFreeKey(k: string)
  {
    |k| == 69 && k[..5] == FREE_PREFIX && IsDigest(k[5..])
  }

  /** `cache_key[:8]`. */
  function QueryHash(key: string): string
    requires |key| >= 8
  {
    key[..8]
  }

  /**
   * A paid key is a digest and a free key is "free_" and a digest, 69
   * characters long, so the two endpoints never share an entry; the short
   * hash of a free response is "free_" and three hex digits.
   */
  lemma KeysNeverCoincide(hash: Hasher, q1: string, c1: string, q2: string, c2: string)
    ensures IsPaidKey(PaidKey(hash, q1, c1)) && !IsFreeKey(PaidKey(hash, q1, c1))
    ensures IsFreeKey(FreeKey(hash, q2, c2)) && !IsPaidKey(FreeKey(hash, q2, c2))
    ensures PaidKey(hash, q1, c1) != FreeKey(hash, q2, c2)
    ensures QueryHash(FreeKey(hash, q2, c2)) == FREE_PREFIX + hash(KeyMaterial(q2, c2))[..3]
    ensures QueryHash(PaidKey(hash, q1, c1)) == hash(KeyMaterial(q1, c1))[..8]
  {
  }

  // ----- the cache -----

  /** What handling one request produced: the reply, the cache afterwards, and whether the expensive step ran. */
  datatype Transition = Transition(result: Result<Response, HttpError>, cache: map<string, Response>, invoked: bool)

  /** An entry is stored under a key of its endpoint, with the short hash of that key. */
  predicate EntryFits(key: string, resp: Response)
  {
    && (IsPaidKey(key) || IsFreeKey(key))
    && (IsPaidKey(key) ==> resp.analysis.LlmText?)
    && (IsFreeKey(key) ==> resp.analysis.LocalReport?)
    && |key| >= 8 && resp.queryHash == QueryHash(key)
  }

  predicate ValidCache(m: map<string, Response>)
  {
    forall k :: k in m ==> EntryFits(k, m[k])
  }

  /**
   * The idempotency guard: a stored key answers from the cache without the
   * expensive step; otherwise the step runs and only a success is stored.
   */
  function CacheStep(m: map<string, Response>, key: string, count: nat, outcome: Result<Answer, HttpError>): Transition
    requires |key| >= 8
  {
    if key in m then Transition(Ok(m[key]), m, false)
    else match outcome
      case Ok(a) =>
        var resp := Response(a, count, QueryHash(key));
        Transition(Ok(resp), m[key := resp], true)
      case Err(e) => Transition(Err(e), m, true)
  }

  function LlmOutcome(answer: Result<string, string>): Result<Answer, HttpError>
  {
    match answer
    case Ok(text) => Ok(LlmText(text))
    case Err(detail) => Err(HttpError(500, AnalysisFailed(detail)))
  }

  function FreeOutcome(outcome: Result<Report, Failure>): Result<Answer, HttpError>
  {
    match outcome
    case Ok(report) => Ok(LocalReport(report))
    case Err(cause) => Err(HttpError(500, FreeAnalysisFailed(cause)))
  }

  /** `/analyze` on the cache `m`. */
  function PaidStep(m: map<string, Response>, hash: Hasher, req: Request, inlineRows: seq<Row>,
                    file: Option<FileSnapshot>, llm: string -> Result<string, string>): Transition
  {
    match LoadInvoices(req, inlineRows, file)
    case Err(e) => Transition(Err(e), m, false)
    case Ok(l) =>
      CacheStep(m, PaidKey(hash, req.query, l.csvContent), |l.invoices|,
                LlmOutcome(llm(Prompt(SummaryText(l.invoices), req.query))))
  }

  /** `/analyze-free` on the cache `m`. */
  function FreeStep(m: map<string, Response>, hash: Hasher, req: Request, inlineRows: seq<Row>,
                    file: Option<FileSnapshot>, model: ModelState): Transition
  {
    match LoadInvoices(req, inlineRows, file)
    case Err(e) => Transition(Err(e), m, false)
    case Ok(l) =>
      CacheStep(m, FreeKey(hash, req.query, l.csvContent), |l.invoices|,
                FreeOutcome(Analysis(req.query, l.invoices, model)))
  }

  /**
   * A stored key returns the stored response and skips the expensive step;
   * a success on a new key stores exactly that one entry; a failure leaves
   * the cache as it was; no entry is ever removed or replaced.
   */
  lemma CacheStepContract(m: map<string, Response>, key: string, count: nat, outcome: Result<Answer, HttpError>)
    requires |key| >= 8
    ensures var t := CacheStep(m, key, count, outcome);
      && (key in m ==> t == Transition(Ok(m[key]), m, false))
      && (key !in m ==> t.invoked)
      && (key !in m && outcome.Ok? ==>
            && t.result == Ok(Response(outcome.value, count, QueryHash(key)))
            && t.cache.Keys == m.Keys + {key}
            && t.cache[key] == t.result.value)
      && (key !in m && outcome.Err? ==> t.result == Err(outcome.error) && t.cache == m)
      && (forall k :: k in m ==> k in t.cache && t.cache[k] == m[k])
      && (forall k :: k in t.cache && k != key ==> k in m)
  {
  }

  /** After a successful step, the same key is answered from the cache whatever the step would do next. */
  lemma CacheStepRepeat(m: map<string, Response>, key: string, count: nat,
                        outcome: Result<Answer, HttpError>, outcome2: Result<Answer, HttpError>)
    requires |key| >= 8
    ensures var t := CacheStep(m, key, count, outcome);
            t.result.Ok? ==> CacheStep(t.cache, key, count, outcome2) == Transition(t.result, t.cache, false)
  {
  }

  /**
   * Idempotency: once a request has succeeded, repeating it returns the
   * same response, leaves the cache alone and does not call the model,
   * whatever the model would answer the second time.
   */
  lemma PaidRepeatIsCached(m: map<string, Response>, hash: Hasher, req: Request, inlineRows: seq<Row>,
                           file: Option<FileSnapshot>, llm: string -> Result<string, string>,
                           llm2: string -> Result<string, string>)
    ensures var t := PaidStep(m, hash, req, inlineRows, file, llm);
            t.result.Ok? ==> PaidStep(t.cache, hash, req, inlineRows, file, llm2) == Transition(t.result, t.cache, false)
  {
    match LoadInvoices(req, inlineRows, file)
    case Err(_) =>
    case Ok(l) =>
      var key := PaidKey(hash, req.query, l.csvContent);
      var o := LlmOutcome(llm(Prompt(SummaryText(l.invoices), req.query)));
      var o2 := LlmOutcome(llm2(Prompt(SummaryText(l.invoices), req.query)));
      if CacheStep(m, key, |l.invoices|, o).result.Ok? {
        CacheStepRepeat(m, key, |l.invoices|, o, o2);
      }
  }

  lemma FreeRepeatIsCached(m: map<string, Response>, hash: Hasher, req: Request, inlineRows: seq<Row>,
                           file: Option<FileSnapshot>, model: ModelState, model2: ModelState)
    ensures var t := FreeStep(m, hash, req, inlineRows, file, model);
            t.result.Ok? ==> FreeStep(t.cache, hash, req, inlineRows, file, model2) == Transition(t.result, t.cache, false)
  {
    match LoadInvoices(req, inlineRows, file)
    case Err(_) =>
    case Ok(l) =>
      var key := FreeKey(hash, req.query, l.csvContent);
      var o := FreeOutcome(Analysis(req.query, l.invoices, model));
      var o2 := FreeOutcome(Analysis(req.query, l.invoices, model2));
      if CacheStep(m, key, |l.invoices|, o).result.Ok? {
        CacheStepRepeat(m, key, |l.invoices|, o, o2);
      }
  }

  /**
   * Both endpoints keep the cache well formed, and on a well-formed cache
   * each answers only with analyses of its own kind: the paid endpoint
   * never returns a local report and the free one never a language-model
   * answer. A fresh response counts the invoices loaded for the request.
   */
  lemma PaidKeepsApart(m: map<string, Response>, hash: Hasher, req: Request, inlineRows: seq<Row>,
                       file: Option<FileSnapshot>, llm: string -> Result<string, string>)
    requires ValidCache(m)
    ensures var p := PaidStep(m, hash, req, inlineRows, file, llm);
      && ValidCache(p.cache)
      && (p.result.Ok? ==> p.result.value.analysis.LlmText?)
      && (p.result.Ok? && p.invoked ==>
            p.result.value.invoicesAnalyzed == |LoadInvoices(req, inlineRows, file).value.invoices|)
  {
    match LoadInvoices(req, inlineRows, file)
    case Err(_) =>
    case Ok(l) =>
      KeysNeverCoincide(hash, req.query, l.csvContent, req.query, l.csvContent);
  }

  lemma FreeKeepsApart(m: map<string, Response>, hash: Hasher, req: Request, inlineRows: seq<Row>,
                       file: Option<FileSnapshot>, model: ModelState)
    requires ValidCache(m)
    ensures var f := FreeStep(m, hash, req, inlineRows, file, model);
      && ValidCache(f.cache)
      && (f.result.Ok? ==> f.result.value.analysis.LocalReport?)
      && (f.result.Ok? && f.invoked ==>
            f.result.value.invoicesAnalyzed == |LoadInvoices(req, inlineRows, file).value.invoices|)
  {
    match LoadInvoices(req, inlineRows, file)
    case Err(_) =>
    case Ok(l) =>
      KeysNeverCoincide(hash, req.query, l.csvContent, req.query, l.csvContent);
  }

  /** The process-wide `cache` dictionary and the two endpoints that use it. */
  class ResponseCache {
    const hash: Hasher
    var entries: map<string, Response>

    ghost predicate Valid()
      reads this
    {
      ValidCache(entries)
    }

    constructor (hash: Hasher)
      ensures Valid()
      ensures this.hash == hash && entries == map[]
    {
      this.hash := hash;
      entries := map[];
    }

    /** `analyze_invoices`: `invoked` says whether the language model was called. */
    method AnalyzeInvoices(req: Request, inlineRows: seq<Row>, file: Option<FileSnapshot>,
                           llm: string -> Result<string, string>)
      returns (r: Result<Response, HttpError>, invoked: bool)
      requires Valid()
      modifies this
      ensures Valid()
      ensures var t := PaidStep(old(entries), hash, req, inlineRows, file, llm);
              r == t.result && entries == t.cache && invoked == t.invoked
    {
      PaidKeepsApart(entries, hash, req, inlineRows, file, llm);
      invoked := false;
      var loaded := LoadRequestData(req, inlineRows, file);
      if loaded.Err? {
        return Err(loaded.error), false;
      }
      var invoices := loaded.value.invoices;
      var key := PaidKey(hash, req.query, loaded.value.csvContent);
      if key in entries {
        return Ok(entries[key]), false;
      }
      var summary := BuildSummary(invoices);
      var prompt := Prompt(summary, req.query);
      invoked := true;
      var answer := llm(prompt);
      r := Store(key, |invoices|, LlmOutcome(answer));
    }

    /** `analyze_invoices_free`: `invoked` says whether the local analysis ran. */
    method AnalyzeInvoicesFree(req: Request, inlineRows: seq<Row>, file: Option<FileSnapshot>, model: ModelState)
      returns (r: Result<Response, HttpError>, invoked: bool)
      requires Valid()
      modifies this
      ensures Valid()
      ensures var t := FreeStep(old(entries), hash, req, inlineRows, file, model);
              r == t.result && entries == t.cache && invoked == t.invoked
    {
      FreeKeepsApart(entries, hash, req, inlineRows, file, model);
      invoked := false;
      var loaded := LoadRequestData(req, inlineRows, file);
      if loaded.Err? {
        return Err(loaded.error), false;
      }
      var invoices := loaded.value.invoices;
      var key := FreeKey(hash, req.query, loaded.value.csvContent);
      if key in entries {
        return Ok(entries[key]), false;
      }
      assert FreeStep(old(entries), hash, req, inlineRows, file, model)
             == CacheStep(entries, key, |invoices|, FreeOutcome(Analysis(req.query, invoices, model)));
      invoked := true;
      var outcome := AnalyzeWithTransformers(req.query, invoices, model);
      r := Store(key, |invoices|, FreeOutcome(outcome));
    }

    /** The miss path: store the response on success, report the error otherwise. */
    method Store(key: string, count: nat, outcome: Result<Answer, HttpError>) returns (r: Result<Response, HttpError>)
      requires |key| >= 8 && key !in entries
      modifies this
      ensures var t := CacheStep(old(entries), key, count, outcome);
              r == t.result && entries == t.cache
    {
      if outcome.Ok? {
        var response := Response(outcome.value, count, QueryHash(key));
        entries := entries[key := response];
        r := Ok(response);
      } else {
        r := Err(outcome.error);
      }
    }
  }
}
