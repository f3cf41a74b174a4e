/** `examples/10-blob-storage/src/download.ts`: reading a blob stream into a
    string, building a read-only SAS URL from the storage connection string,
    and the download demo's policy of skipping missing files (404) while
    letting every other error end the demo.

    The storage service is abstract: each download step's outcome is an
    input, and so is the SAS query string that the SDK signs. UTF-8 decoding
    and `JSON.parse` are functions supplied by the caller, the parser
    answering `None` where `JSON.parse` throws. */
module BlobDownload {
  import opened Wrappers
  import Text
  import Json
  import ConnectionString

  type Byte = bv8

  /** `Buffer.concat(chunks)`: the chunks one after another. */
  function Concat(chunks: seq<seq<Byte>>): seq<Byte> {
    if chunks == [] then [] else Concat(chunks[..|chunks| - 1]) + chunks[|chunks| - 1]
  }

  /** Concatenation respects splitting the chunk list anywhere. */
  lemma {:induction false} ConcatAppend(a: seq<seq<Byte>>, b: seq<seq<Byte>>)
    ensures Concat(a + b) == Concat(a) + Concat(b)
    decreases |b|
  {
    if b == [] {
      assert a + b == a;
    } else {
      var n := |b| - 1;
      assert (a + b)[..|a + b| - 1] == a + b[..n];
      ConcatAppend(a, b[..n]);
    }
  }

  /** Every byte of every chunk is kept, in arrival order: byte `j` of
      chunk `k` sits after all bytes of the chunks before it. */
  lemma {:induction false} ConcatPlacesChunks(chunks: seq<seq<Byte>>, k: nat)
    requires k < |chunks|
    ensures var before := Concat(chunks[..k]);
      |before| + |chunks[k]| <= |Concat(chunks)|
      && Concat(chunks)[|before|..|before| + |chunks[k]|] == chunks[k]
  {
    assert chunks == chunks[..k] + ([chunks[k]] + chunks[k + 1..]);
    ConcatAppend(chunks[..k], [chunks[k]] + chunks[k + 1..]);
    ConcatAppend([chunks[k]], chunks[k + 1..]);
    assert Concat([chunks[k]]) == Concat([]) + chunks[k];
  }

  /** `streamToString` (lines 88-94): collect the chunks as they arrive,
      concatenate them and decode the bytes as UTF-8. */
  method StreamToString(stream: seq<seq<Byte>>, decodeUtf8: seq<Byte> -> string) returns (s: string)
    ensures s == decodeUtf8(Concat(stream))
  {
    var chunks: seq<seq<Byte>> := [];
    var i := 0;
    while i < |stream|
      invariant 0 <= i <= |stream|
      invariant chunks == stream[..i]
    {
      chunks := chunks + [stream[i]];
      i := i + 1;
    }
    assert chunks == stream;
    s := decodeUtf8(Concat(chunks));
  }

  // ---------------------------------------------------------------------
  // `generateSasUrl` (lines 97-126).

  /** The shared-key credential built from the connection string. */
  datatype Credential = Credential(accountName: string, accountKey: string)

  /** The values passed to `generateBlobSASQueryParameters`. */
  datatype SasValues = SasValues(containerName: string, blobName: string, permissions: string, expiresOnMs: int)

  /** The container client: its name and the URL of each blob in it. */
  datatype Container = Container(name: string, blobUrl: string -> string)

  const OneHourMs := 3600 * 1000

  /** The SAS values for a blob: read-only, expiring an hour from now. */
  function SasFor(container: Container, blobName: string, nowMs: int): SasValues {
    SasValues(container.name, blobName, "r", nowMs + OneHourMs)
  }

  /** `sasQuery` stands for `generateBlobSASQueryParameters(...).toString()`.
      An unset variable makes `connStr.match` throw on `undefined`. */
  function GenerateSasUrl(env: map<string, string>, container: Container, blobName: string, nowMs: int,
                          sasQuery: (SasValues, Credential) -> string): Result<string> {
    if "AZURE_STORAGE_CONNECTION_STRING" !in env then
      Err("TypeError: Cannot read properties of undefined (reading 'match')")
    else
      var connStr := env["AZURE_STORAGE_CONNECTION_STRING"];
      match (ConnectionString.Extract(connStr, "AccountName"), ConnectionString.Extract(connStr, "AccountKey"))
      case (Some(name), Some(key)) =>
        Ok(container.blobUrl(blobName) + "?" + sasQuery(SasFor(container, blobName, nowMs), Credential(name, key)))
      case _ => Err("Cannot parse connection string")
  }

  /** The URL fails exactly when the variable is unset or either field is
      missing, with the error each case throws; otherwise it is the blob's
      URL, '?', and a query signed for read-only access that expires one
      hour after `nowMs`, with the credential read by the leftmost-match
      rule. */
  lemma SasUrlShape(env: map<string, string>, container: Container, blobName: string, nowMs: int,
                    sasQuery: (SasValues, Credential) -> string)
    ensures var r := GenerateSasUrl(env, container, blobName, nowMs, sasQuery);
      && ("AZURE_STORAGE_CONNECTION_STRING" !in env ==> r.Err? && r.error != "Cannot parse connection string")
      && ("AZURE_STORAGE_CONNECTION_STRING" in env ==>
            var connStr := env["AZURE_STORAGE_CONNECTION_STRING"];
            var name := ConnectionString.Extract(connStr, "AccountName");
            var key := ConnectionString.Extract(connStr, "AccountKey");
            && (r.Err? <==> name.None? || key.None?)
            && (r.Err? ==> r.error == "Cannot parse connection string")
            && (r.Ok? ==>
                  var values := SasFor(container, blobName, nowMs);
                  var prefix := container.blobUrl(blobName) + "?";
                  && Text.StartsWith(r.value, prefix)
                  && r.value[|prefix|..] == sasQuery(values, Credential(name.value, key.value))
                  && values.permissions == "r" && values.expiresOnMs - nowMs == 3600000
                  && values.blobName == blobName && values.containerName == container.name))
  {
    if "AZURE_STORAGE_CONNECTION_STRING" in env {
      var r := GenerateSasUrl(env, container, blobName, nowMs, sasQuery);
      if r.Ok? {
        var prefix := container.blobUrl(blobName) + "?";
        assert r.value[..|prefix|] == prefix;
      }
    }
  }

  /** An empty connection string names no account. */
  lemma EmptyConnectionString(container: Container, blobName: string, nowMs: int,
                              sasQuery: (SasValues, Credential) -> string)
    ensures GenerateSasUrl(map["AZURE_STORAGE_CONNECTION_STRING" := ""], container, blobName, nowMs, sasQuery)
      == Err("Cannot parse connection string")
  {
    assert !ConnectionString.MatchesAt("", "AccountName", 0);
    assert ConnectionString.FirstMatch("", "AccountName", 1) == None;
  }

  // ---------------------------------------------------------------------
  // `downloadDemo` (lines 3-85).

  /** A thrown error: the storage SDK sets `statusCode`; other errors
      (a JSON syntax error, say) have none. */
  datatype Failure = Failure(statusCode: Option<int>, message: string)

  datatype Outcome<T> = Got(value: T) | Threw(failure: Failure)

  /** What the demo reports for each step. */
  datatype Report = Shown(detail: Detail) | FileNotFound | SasPreview(text: string) | SasUnavailable

  /** What a successful step shows: the text, the parsed JSON, the blob's
      properties, or the size of the downloaded buffer. */
  datatype Detail = Content(text: string) | Parsed(json: Json.Json) | Properties(properties: string) | BufferSize(bytes: nat)

  /** The blob read in step 1, whose SAS URL step 5 generates. */
  const TextBlob := "hello.txt"

  /** The catch blocks of steps 1-4: a 404 is reported and swallowed. */
  predicate NotFound(f: Failure) {
    f.statusCode == Some(404)
  }

  /** The first 80 characters of the URL and "...", as line 76 prints. */
  function Preview(url: string): string {
    (if |url| <= 80 then url else url[..80]) + "..."
  }

  /** Step 5's report: the preview, or the note that SAS generation needs
      the account key, whatever the error was. */
  function SasReport(sas: Result<string>): Report {
    if sas.Ok? then SasPreview(Preview(sas.value)) else SasUnavailable
  }

  /** The demo after the four download steps and the SAS step: the reports
      so far, and the error that ends it, if one is rethrown. */
  datatype DemoRun = DemoRun(reports: seq<Report>, thrown: Option<Failure>)

  /** Steps 1-4 in order: each reports and the demo goes on, unless it
      throws an error other than a 404, which ends the demo. */
  function RunDownloads(steps: seq<Outcome<Detail>>): DemoRun
    decreases |steps|
  {
    if steps == [] then DemoRun([], None)
    else match steps[0]
      case Got(detail) =>
        var rest := RunDownloads(steps[1..]);
        DemoRun([Shown(detail)] + rest.reports, rest.thrown)
      case Threw(f) =>
        if NotFound(f) then
          var rest := RunDownloads(steps[1..]);
          DemoRun([FileNotFound] + rest.reports, rest.thrown)
        else DemoRun([], Some(f))
  }

  /** The whole demo: the download steps, then step 5, whose failure is
      always caught. */
  function RunSteps(steps: seq<Outcome<Detail>>, sas: Result<string>): DemoRun {
    var run := RunDownloads(steps);
    if run.thrown.Some? then run else DemoRun(run.reports + [SasReport(sas)], None)
  }

  lemma {:induction false} DownloadsStopAtFirstOtherError(steps: seq<Outcome<Detail>>, k: nat)
    requires k < |steps| && steps[k].Threw? && !NotFound(steps[k].failure)
    requires forall j | 0 <= j < k :: steps[j].Got? || NotFound(steps[j].failure)
    ensures RunDownloads(steps) == DemoRun(RunDownloads(steps[..k]).reports, Some(steps[k].failure))
    ensures |RunDownloads(steps[..k]).reports| == k
  {
    if k > 0 {
      DownloadsStopAtFirstOtherError(steps[1..], k - 1);
      assert steps[..k][1..] == steps[1..][..k - 1];
    }
  }

  /** The demo ends early exactly when some step throws an error other
      than a 404; then that first such error is rethrown, after the reports
      of the steps before it, which the demo would have made alone. */
  lemma DemoStopsAtFirstOtherError(steps: seq<Outcome<Detail>>, sas: Result<string>, k: nat)
    requires k < |steps| && steps[k].Threw? && !NotFound(steps[k].failure)
    requires forall j | 0 <= j < k :: steps[j].Got? || NotFound(steps[j].failure)
    ensures RunSteps(steps, sas).thrown == Some(steps[k].failure)
    ensures RunSteps(steps, sas).reports == RunDownloads(steps[..k]).reports
    ensures |RunSteps(steps, sas).reports| == k
  {
    DownloadsStopAtFirstOtherError(steps, k);
  }

  lemma {:induction false} DownloadsComplete(steps: seq<Outcome<Detail>>)
    requires forall j | 0 <= j < |steps| :: steps[j].Got? || NotFound(steps[j].failure)
    ensures var run := RunDownloads(steps);
      && run.thrown.None? && |run.reports| == |steps|
      && (forall j | 0 <= j < |steps| :: run.reports[j] == (if steps[j].Got? then Shown(steps[j].value) else FileNotFound))
  {
    if steps != [] {
      DownloadsComplete(steps[1..]);
    }
  }

  /** When no step throws anything but 404, the demo runs to the end: one
      report per step, showing the step's detail or "not found" for a 404,
      and a SAS report whether or not the SAS URL could be generated. */
  lemma DemoCompletes(steps: seq<Outcome<Detail>>, sas: Result<string>)
    requires forall j | 0 <= j < |steps| :: steps[j].Got? || NotFound(steps[j].failure)
    ensures var run := RunSteps(steps, sas);
      && run.thrown.None? && |run.reports| == |steps| + 1
      && (forall j | 0 <= j < |steps| :: run.reports[j] == (if steps[j].Got? then Shown(steps[j].value) else FileNotFound))
      && (run.reports[|steps|] == SasUnavailable <==> sas.Err?)
  {
    DownloadsComplete(steps);
  }

  /** A thrown error always comes from one of the download steps, never
      from the SAS step. */
  lemma {:induction false} ThrownComesFromAStep(steps: seq<Outcome<Detail>>, sas: Result<string>)
    ensures var run := RunSteps(steps, sas);
      run.thrown.Some? ==> exists k | 0 <= k < |steps| :: steps[k] == Threw(run.thrown.value)
  {
    if steps != [] {
      ThrownComesFromAStep(steps[1..], sas);
      var run := RunSteps(steps, sas);
      if run.thrown.Some? && !(steps[0].Threw? && steps[0].failure == run.thrown.value) {
        var k :| 0 <= k < |steps[1..]| && steps[1..][k] == Threw(run.thrown.value);
        assert steps[k + 1] == Threw(run.thrown.value);
      }
    }
  }

  /** The report a step that did not end the demo adds. */
  function ReportOf(outcome: Outcome<Detail>): Report {
    if outcome.Got? then Shown(outcome.value) else FileNotFound
  }

  /** The download steps over `steps` are `done` followed by those over `rest`. */
  ghost predicate Resumes(steps: seq<Outcome<Detail>>, done: seq<Report>, rest: seq<Outcome<Detail>>) {
    RunDownloads(steps) == DemoRun(done + RunDownloads(rest).reports, RunDownloads(rest).thrown)
  }

  /** A step that succeeds or 404s hands over to the next one. */
  lemma Advance(steps: seq<Outcome<Detail>>, done: seq<Report>, rest: seq<Outcome<Detail>>)
    requires Resumes(steps, done, rest)
    requires rest != [] && (rest[0].Got? || NotFound(rest[0].failure))
    ensures Resumes(steps, done + [ReportOf(rest[0])], rest[1..])
  {
    var tail := RunDownloads(rest[1..]);
    assert RunDownloads(rest) == DemoRun([ReportOf(rest[0])] + tail.reports, tail.thrown);
    assert done + ([ReportOf(rest[0])] + tail.reports) == done + [ReportOf(rest[0])] + tail.reports;
  }

  /** Before the first step nothing has been reported. */
  lemma Start(steps: seq<Outcome<Detail>>)
    ensures Resumes(steps, [], steps[0..])
  {
    assert steps[0..] == steps;
  }

  /** The inputs of the demo's download steps. */
  datatype Downloads = Downloads(
    text: Outcome<seq<seq<Byte>>>,
    json: Outcome<seq<seq<Byte>>>,
    properties: Outcome<string>,
    bufferSize: Outcome<nat>)

  /** One try/catch step: on success the detail is shown; a 404 is
      reported and swallowed; anything else is rethrown. The ghost
      parameters place the step in the demo: `rest` are the steps from this
      one on, and `reports` what the demo has reported before it. */
  method Attempt(outcome: Outcome<Detail>, reports: seq<Report>,
                 ghost steps: seq<Outcome<Detail>>, ghost k: nat)
    returns (reported: seq<Report>, rethrown: Option<Failure>)
    requires k < |steps| && Resumes(steps, reports, steps[k..]) && outcome == steps[k]
    ensures outcome.Got? ==> reported == reports + [Shown(outcome.value)] && rethrown.None?
    ensures outcome.Threw? && NotFound(outcome.failure) ==> reported == reports + [FileNotFound] && rethrown.None?
    ensures outcome.Threw? && !NotFound(outcome.failure) ==> reported == reports && rethrown == Some(outcome.failure)
    ensures rethrown.Some? ==> RunDownloads(steps) == DemoRun(reported, rethrown)
    ensures rethrown.None? ==> Resumes(steps, reported, steps[k + 1..])
  {
    ghost var rest := steps[k..];
    assert rest[1..] == steps[k + 1..];
    match outcome
    case Got(detail) =>
      reported, rethrown := reports + [Shown(detail)], None;
      Advance(steps, reports, rest);
    case Threw(f) =>
      if f.statusCode == Some(404) {
        reported, rethrown := reports + [FileNotFound], None;
        Advance(steps, reports, rest);
      } else {
        reported, rethrown := reports, Some(f);
      }
  }

  /** Step 1: the blob's text. */
  function TextStep(download: Outcome<seq<seq<Byte>>>, decodeUtf8: seq<Byte> -> string): Outcome<Detail> {
    match download
    case Got(chunks) => Got(Content(decodeUtf8(Concat(chunks))))
    case Threw(f) => Threw(f)
  }

  /** Step 2: the blob's text parsed as JSON; `JSON.parse` throws a syntax
      error, which has no status code, when parsing fails. */
  function JsonStep(download: Outcome<seq<seq<Byte>>>, decodeUtf8: seq<Byte> -> string,
                    parse: string -> Option<Json.Json>): Outcome<Detail> {
    match download
    case Got(chunks) =>
      var parsed := parse(decodeUtf8(Concat(chunks)));
      if parsed.Some? then Got(Parsed(parsed.value)) else Threw(SyntaxError)
    case Threw(f) => Threw(f)
  }

  /** Step 3: the blob's properties. */
  function PropertiesStep(properties: Outcome<string>): Outcome<Detail> {
    match properties
    case Got(p) => Got(Properties(p))
    case Threw(f) => Threw(f)
  }

  /** Step 4: the size of the downloaded buffer. */
  function BufferStep(size: Outcome<nat>): Outcome<Detail> {
    match size
    case Got(n) => Got(BufferSize(n))
    case Threw(f) => Threw(f)
  }

  /** What each of the four steps shows, or the error it throws. */
  function StepOutcomes(d: Downloads, decodeUtf8: seq<Byte> -> string, parse: string -> Option<Json.Json>): seq<Outcome<Detail>> {
    [TextStep(d.text, decodeUtf8), JsonStep(d.json, decodeUtf8, parse), PropertiesStep(d.properties), BufferStep(d.bufferSize)]
  }

  /** Step 1 as the code runs it: download, then read the stream. */
  method DownloadText(download: Outcome<seq<seq<Byte>>>, decodeUtf8: seq<Byte> -> string) returns (o: Outcome<Detail>)
    ensures o == TextStep(download, decodeUtf8)
  {
    match download {
      case Got(chunks) =>
        var content := StreamToString(chunks, decodeUtf8);
        o := Got(Content(content));
      case Threw(f) =>
        o := Threw(f);
    }
  }

  /** Step 2 as the code runs it: download, read the stream, parse. */
  method DownloadJson(download: Outcome<seq<seq<Byte>>>, decodeUtf8: seq<Byte> -> string,
                      parse: string -> Option<Json.Json>) returns (o: Outcome<Detail>)
    ensures o == JsonStep(download, decodeUtf8, parse)
  {
    match download {
      case Got(chunks) =>
        var jsonString := StreamToString(chunks, decodeUtf8);
        var data := parse(jsonString);
        o := if data.Some? then Got(Parsed(data.value)) else Threw(SyntaxError);
      case Threw(f) =>
        o := Threw(f);
    }
  }

  /** The error `JSON.parse` throws: it carries no status code. */
  const SyntaxError := Failure(None, "SyntaxError")

  /** `downloadDemo`: the four download steps one after another, each
      with its own catch, then the SAS step, whose failure is always
      caught. `generateSasUrl` is `GenerateSasUrl` with the environment,
      the container, the clock and the signer fixed by the caller. */
  method DownloadDemo(d: Downloads, decodeUtf8: seq<Byte> -> string, parse: string -> Option<Json.Json>,
                      generateSasUrl: string -> Result<string>)
    returns (reports: seq<Report>, thrown: Option<Failure>)
    ensures DemoRun(reports, thrown)
      == RunSteps(StepOutcomes(d, decodeUtf8, parse), generateSasUrl(TextBlob))
  {
    ghost var steps := StepOutcomes(d, decodeUtf8, parse);
    reports := [];
    // 1. Download to string.
    var text := DownloadText(d.text, decodeUtf8);
    Start(steps);
    var rethrown;
    reports, rethrown := Attempt(text, reports, steps, 0);
    if rethrown.Some? {
      return reports, rethrown;
    }
    // 2. Download JSON and parse it.
    var json := DownloadJson(d.json, decodeUtf8, parse);
    reports, rethrown := Attempt(json, reports, steps, 1);
    if rethrown.Some? {
      return reports, rethrown;
    }
    // 3. Properties.
    var properties := PropertiesStep(d.properties);
    reports, rethrown := Attempt(properties, reports, steps, 2);
    if rethrown.Some? {
      return reports, rethrown;
    }
    // 4. Download to a buffer; its size is shown.
    var buffer := BufferStep(d.bufferSize);
    reports, rethrown := Attempt(buffer, reports, steps, 3);
    if rethrown.Some? {
      return reports, rethrown;
    }
    // 5. SAS URL: every failure is caught.
    assert steps[4..] == [];
    var sasUrl := generateSasUrl(TextBlob);
    if sasUrl.Ok? {
      reports := reports + [SasPreview(Preview(sasUrl.value))];
    } else {
      reports := reports + [SasUnavailable];
    }
    thrown := None;
  }
}
