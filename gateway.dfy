/** `_run_scrape` (api/index.py): one request to `/api/jobs`. The sites are
    checked and split between the scraping library and the four direct
    sources, each part is fetched, and the records are merged into the
    response. */
module Gateway {
  import opened Wrappers
  import opened Text
  import opened Seqs
  import opened PyValue
  import opened Coerce
  import opened Errors
  import opened Sites
  import opened Kwargs
  import opened Postings
  import RemoteOK
  import Arbeitnow
  import Remotive
  import Jobicy

  /** One record of the response: a row of the library's frame, or a posting
      of a direct source. */
  datatype Record = Row(row: Dict) | Job(posting: Posting)

  function AsRow(d: Dict): Record {
    Row(d)
  }

  function AsJob(p: Posting): Record {
    Job(p)
  }

  /** What one `scrape_jobs(**kwargs)` call gives: its frame's rows, or the
      exception it raised. */
  datatype LibraryOutcome = Frame(rows: seq<Dict>) | Failed(error: string, errorType: string)

  /** What `_run_scrape` calls: the scraping library, and for a direct
      source's name and the request, what that source's adapter returns. */
  datatype Sources = Sources(
    library: Dict -> LibraryOutcome,
    direct: (string, Dict) -> Attempt<seq<Posting>>)

  /** The JSON body of a successful response. */
  datatype Envelope = Envelope(jobs: seq<Record>, count: int, sites: seq<string>, query: Dict)

  /** A response: the JSON envelope, or the records as a CSV or Excel
      download. */
  datatype Response = Json(envelope: Envelope) | CsvFile(records: seq<Record>) | ExcelFile(records: seq<Record>)

  /** `(params.get("output_format") or "json").lower()`. */
  function OutputFormat(params: Dict): (r: Attempt<string>)
    ensures !Truthy(Get(params, "output_format")) ==> r == Done("json")
    ensures r.Raised? <==> Truthy(Get(params, "output_format")) && !Get(params, "output_format").Str?
  {
    match TextOr(Get(params, "output_format"))
    case Raised => Raised
    case Done(t) => Done(if t == "" then "json" else Lower(t))
  }

  /** The response for a format: CSV and Excel by name, JSON otherwise. */
  function Respond(format: string, records: seq<Record>, sites: seq<string>, query: Dict): (r: Response)
    ensures r.Json? <==> format != "csv" && format != "excel"
    ensures r.Json? ==> r.envelope == Envelope(records, |records|, sites, query)
    ensures !r.Json? ==> r.records == records
  {
    if format == "csv" then CsvFile(records)
    else if format == "excel" then ExcelFile(records)
    else Json(Envelope(records, |records|, sites, query))
  }

  // ---------------------------------------------------------------------
  // The library part

  /** `{**params, "site_name": jobspy_requested}`. */
  function LibraryParams(params: Dict, lib: seq<string>): Dict {
    params["site_name" := StrList(lib)]
  }

  /** `{k: v for k, v in kwargs.items() if k != "verbose"}`. */
  function Echo(kwargs: Dict): (r: Dict)
    ensures r.Keys == kwargs.Keys - {"verbose"}
    ensures forall k :: k in r ==> r[k] == kwargs[k]
  {
    map k | k in kwargs.Keys && k != "verbose" :: kwargs[k]
  }

  /** `{k: v for k, v in params.items() if k != "output_format" and v is not None}`. */
  function FallbackEcho(params: Dict): (r: Dict)
    ensures r.Keys == set k | k in params.Keys && k != "output_format" && params[k] != Null
    ensures forall k :: k in r ==> r[k] == params[k]
  {
    map k | k in params.Keys && k != "output_format" && params[k] != Null :: params[k]
  }

  /** The library's records and the query echo it leaves. */
  datatype LibOut = LibOut(records: seq<Record>, echo: Dict)

  /** The `try` around `scrape_jobs`: a failure is fatal only when no direct
      source was requested. */
  function Called(outcome: LibraryOutcome, echo: Dict, hasCustom: bool): (r: Result<LibOut, ApiError>)
    ensures r.Err? <==> outcome.Failed? && !hasCustom
    ensures r.Err? ==> r.error == UpstreamFailure(outcome.error, outcome.errorType, echo)
    ensures r.Ok? ==> r.value.echo == echo
    ensures r.Ok? && outcome.Failed? ==> r.value.records == []
    ensures r.Ok? && outcome.Frame? ==> r.value.records == MapSeq(outcome.rows, AsRow)
  {
    match outcome
    case Frame(rows) => Ok(LibOut(MapSeq(rows, AsRow), echo))
    case Failed(e, t) => if hasCustom then Ok(LibOut([], echo)) else Err(UpstreamFailure(e, t, echo))
  }

  /** The library part: nothing when no library site is requested; otherwise
      `_build_kwargs` on the library sites (whose 400 is not caught), then the
      call. */
  function LibraryPart(params: Dict, lib: seq<string>, hasCustom: bool, library: Dict -> LibraryOutcome): Result<LibOut, ApiError> {
    if lib == [] then Ok(LibOut([], map[]))
    else match KwargsFor(LibraryParams(params, lib))
      case Err(e) => Err(e)
      case Ok(out) => Called(library(out.kwargs), Echo(out.kwargs), hasCustom)
  }

  method CallLibrary(params: Dict, lib: seq<string>, hasCustom: bool, library: Dict -> LibraryOutcome) returns (r: Result<LibOut, ApiError>)
    ensures r == LibraryPart(params, lib, hasCustom, library)
  {
    if lib == [] {
      return Ok(LibOut([], map[]));
    }
    var built := BuildKwargs(LibraryParams(params, lib));
    if built.Err? {
      return Err(built.error);
    }
    var kwargs := built.value.kwargs;
    r := Called(library(kwargs), Echo(kwargs), hasCustom);
  }

  // ---------------------------------------------------------------------
  // The direct sources

  /** What one site adds: its postings, or nothing when its adapter raised
      (the `except Exception: pass` around each adapter). */
  function SiteRecords(site: string, params: Dict, src: Sources): seq<Record> {
    match src.direct(site, params)
    case Raised => []
    case Done(ps) => MapSeq(ps, AsJob)
  }

  /** The records of the direct sources, site after site in request order. */
  function CustomRecords(sites: seq<string>, params: Dict, src: Sources): seq<Record>
    decreases |sites|
  {
    if sites == [] then []
    else CustomRecords(sites[..|sites| - 1], params, src) + SiteRecords(sites[|sites| - 1], params, src)
  }

  // ---------------------------------------------------------------------
  // The request

  /** `query_echo`: the library's, or the filtered parameters when that is
      empty. */
  function QueryEcho(echo: Dict, params: Dict): Dict {
    if echo == map[] then FallbackEcho(params) else echo
  }

  /** The request once its output format is known. */
  function Route(params: Dict, format: string, src: Sources): Result<Response, ApiError> {
    var requested := Requested(params);
    var invalid := Invalid(requested, ValidSites);
    if invalid != [] then Err(BadRequest(UnknownSitesMessage(invalid, SortedValidSites)))
    else Merge(params, format, requested, src)
  }

  /** The valid sites' records, merged into the response. */
  function Merge(params: Dict, format: string, requested: seq<string>, src: Sources): Result<Response, ApiError> {
    var custom := CustomRequested(requested);
    match LibraryPart(params, JobspyRequested(requested), custom != [], src.library)
    case Err(e) => Err(e)
    case Ok(part) =>
      Ok(Respond(format, part.records + CustomRecords(custom, params, src), requested, QueryEcho(part.echo, params)))
  }

  /** `_run_scrape(params)`. */
  function Run(params: Dict, src: Sources): Result<Response, ApiError> {
    match OutputFormat(params)
    case Raised => Err(Unhandled("AttributeError"))
    case Done(format) => Route(params, format, src)
  }

  // ---------------------------------------------------------------------
  // The adapters wired in

  /** The outside world of one request: the library call, the HTTP request of
      each direct source, and the clock and parsers the adapters use. */
  datatype Upstreams = Upstreams(
    library: Dict -> LibraryOutcome,
    remoteok: string -> Attempt<seq<Dict>>,
    arbeitnow: Dict -> Attempt<Arbeitnow.Page>,
    remotive: Dict -> Attempt<seq<Dict>>,
    jobicy: Dict -> Attempt<seq<Dict>>,
    env: Env)

  /** The `if`/`elif` chain choosing a site's adapter; a name that is no
      direct source adds nothing. */
  function Adapter(site: string, params: Dict, up: Upstreams): Attempt<seq<Posting>> {
    if site == "remoteok" then RemoteOK.Scrape(params, up.remoteok, up.env)
    else if site == "arbeitnow" then Arbeitnow.Scrape(params, up.arbeitnow, up.env)
    else if site == "remotive" then Remotive.Scrape(params, up.remotive, up.env)
    else if site == "jobicy" then Jobicy.Scrape(params, up.jobicy, up.env)
    else Done([])
  }

  /** The sources `_run_scrape` calls in a given world. */
  function Wired(up: Upstreams): Sources {
    Sources(up.library, (site, params) => Adapter(site, params, up))
  }

  method ScrapeSite(site: string, params: Dict, up: Upstreams) returns (r: Attempt<seq<Posting>>)
    ensures r == Adapter(site, params, up)
  {
    if site == "remoteok" {
      r := RemoteOK.ScrapeRemoteOK(params, up.remoteok, up.env);
    } else if site == "arbeitnow" {
      r := Arbeitnow.ScrapeArbeitnow(params, up.arbeitnow, up.env);
    } else if site == "remotive" {
      r := Remotive.ScrapeRemotive(params, up.remotive, up.env);
    } else if site == "jobicy" {
      r := Jobicy.ScrapeJobicy(params, up.jobicy, up.env);
    } else {
      r := Done([]);
    }
  }

  /** The loop over `custom_requested`, extending the records with each
      site's postings and passing over a site whose adapter raised. */
  method CollectCustom(custom: seq<string>, params: Dict, up: Upstreams, start: seq<Record>) returns (records: seq<Record>)
    ensures records == start + CustomRecords(custom, params, Wired(up))
  {
    records := start;
    for i := 0 to |custom|
      invariant records == start + CustomRecords(custom[..i], params, Wired(up))
    {
      ghost var done := CustomRecords(custom[..i], params, Wired(up));
      records := AddSite(custom[i], params, up, records);
      CustomRecordsSnoc(custom, i, params, Wired(up));
      AppendAssoc(start, done, SiteRecords(custom[i], params, Wired(up)));
    }
    assert custom[..|custom|] == custom;
  }

  /** One iteration: the site's postings, as records, after those collected
      so far; a site whose adapter raised adds none. */
  method AddSite(site: string, params: Dict, up: Upstreams, records: seq<Record>) returns (out: seq<Record>)
    ensures out == records + SiteRecords(site, params, Wired(up))
  {
    var got := ScrapeSite(site, params, up);
    assert Wired(up).direct(site, params) == got;
    if got.Done? {
      out := records + MapSeq(got.value, AsJob);
    } else {
      out := records;
      assert records + [] == records;
    }
  }

  /** The records of a prefix one site longer. */
  lemma CustomRecordsSnoc(sites: seq<string>, i: int, params: Dict, src: Sources)
    requires 0 <= i < |sites|
    ensures CustomRecords(sites[..i + 1], params, src) == CustomRecords(sites[..i], params, src) + SiteRecords(sites[i], params, src)
  {
    assert sites[..i + 1][..i] == sites[..i];
  }

  /** `_run_scrape(params)`. */
  method RunScrape(params: Dict, up: Upstreams) returns (r: Result<Response, ApiError>)
    ensures r == Run(params, Wired(up))
  {
    var format := OutputFormat(params);
    if format.Raised? {
      return Err(Unhandled("AttributeError"));
    }
    var listed := ReadCsvList(Get(params, "site_name"), CastStr);
    var requested := if listed.Some? then listed.value else SortedValidSites;
    assert requested == Requested(params);
    var invalid := Invalid(requested, ValidSites);
    if invalid != [] {
      return Err(BadRequest(UnknownSitesMessage(invalid, SortedValidSites)));
    }
    r := Serve(params, format.value, requested, up);
  }

  method Serve(params: Dict, format: string, requested: seq<string>, up: Upstreams) returns (r: Result<Response, ApiError>)
    ensures r == Merge(params, format, requested, Wired(up))
  {
    var custom := CustomRequested(requested);
    var part := CallLibrary(params, JobspyRequested(requested), custom != [], up.library);
    if part.Err? {
      return Err(part.error);
    }
    var records := CollectCustom(custom, params, up, part.value.records);
    r := Ok(Respond(format, records, requested, QueryEcho(part.value.echo, params)));
  }

  // ---------------------------------------------------------------------
  // Properties

  /** A request naming an unknown site is refused with a 400 whose message
      names every unknown site; no source is asked anything. */
  lemma UnknownSites(params: Dict, src: Sources, k: nat)
    requires OutputFormat(params).Done?
    requires k < |Invalid(Requested(params), ValidSites)|
    ensures var invalid := Invalid(Requested(params), ValidSites);
      && Run(params, src) == Err(BadRequest(UnknownSitesMessage(invalid, SortedValidSites)))
      && Run(params, src).error.Status() == 400
      && Contains(Run(params, src).error.detail, invalid[k])
  {
    UnknownSitesNamed(Invalid(Requested(params), ValidSites), SortedValidSites, k);
  }

  /** The library is handed exactly the library sites of the request. */
  lemma RoutedSites(params: Dict, lib: seq<string>)
    requires lib != []
    ensures SiteName(LibraryParams(params, lib)) == lib
    ensures KwargsFor(LibraryParams(params, lib)).Ok? ==>
      var kw := KwargsFor(LibraryParams(params, lib)).value.kwargs;
      "site_name" in kw && kw["site_name"] == StrList(lib)
  {
    var items := StrList(lib).items;
    CsvListOfList(items);
    assert MapSeq(items, ToText) == lib;
    if KwargsFor(LibraryParams(params, lib)).Ok? {
      KwargsSites(LibraryParams(params, lib));
      KwargsBase(LibraryParams(params, lib));
    }
  }

  /** The other parameters reach `_build_kwargs` unchanged. */
  lemma LibraryParamsKeep(params: Dict, lib: seq<string>, key: string)
    requires key != "site_name"
    ensures Get(LibraryParams(params, lib), key) == Get(params, key)
  {
  }

  /** The library part fails exactly when library sites are requested and
      either `_build_kwargs` refuses them (a 400 or an unhandled error, always
      fatal) or the library raises with no direct source requested (a 500
      carrying the echo). */
  lemma LibraryFailure(params: Dict, lib: seq<string>, hasCustom: bool, library: Dict -> LibraryOutcome)
    ensures var built := KwargsFor(LibraryParams(params, lib));
      LibraryPart(params, lib, hasCustom, library).Err? <==>
        lib != [] && (built.Err? || (!hasCustom && library(built.value.kwargs).Failed?))
    ensures var built := KwargsFor(LibraryParams(params, lib));
      lib != [] && built.Err? ==> LibraryPart(params, lib, hasCustom, library) == Err(built.error)
    ensures var built := KwargsFor(LibraryParams(params, lib));
      lib != [] && built.Ok? && library(built.value.kwargs).Failed? ==>
        var outcome := library(built.value.kwargs);
        if hasCustom then LibraryPart(params, lib, hasCustom, library) == Ok(LibOut([], Echo(built.value.kwargs)))
        else && LibraryPart(params, lib, hasCustom, library) == Err(UpstreamFailure(outcome.error, outcome.errorType, Echo(built.value.kwargs)))
             && LibraryPart(params, lib, hasCustom, library).error.Status() == 500
  {
  }

  /** A request fails exactly when its output format raises, it names an
      unknown site, `_build_kwargs` refuses its library sites, or the library
      raises with no direct source requested. A direct source never fails a
      request. */
  lemma RunFails(params: Dict, src: Sources)
    ensures var requested := Requested(params); var lib := JobspyRequested(requested);
      var built := KwargsFor(LibraryParams(params, lib));
      Run(params, src).Err? <==>
        || OutputFormat(params).Raised?
        || Invalid(requested, ValidSites) != []
        || (lib != [] && (built.Err? || (CustomRequested(requested) == [] && src.library(built.value.kwargs).Failed?)))
  {
    if OutputFormat(params).Done? && Invalid(Requested(params), ValidSites) == [] {
      var requested := Requested(params);
      LibraryFailure(params, JobspyRequested(requested), CustomRequested(requested) != [], src.library);
    }
  }

  /** `Run` step by step: the output format, the site check, then `Merge`. */
  lemma RunSteps(params: Dict, src: Sources)
    ensures OutputFormat(params).Raised? ==> Run(params, src) == Err(Unhandled("AttributeError"))
    ensures var invalid := Invalid(Requested(params), ValidSites);
      OutputFormat(params).Done? && invalid != [] ==>
        Run(params, src) == Err(BadRequest(UnknownSitesMessage(invalid, SortedValidSites)))
    ensures OutputFormat(params).Done? && Invalid(Requested(params), ValidSites) == [] ==>
      Run(params, src) == Merge(params, OutputFormat(params).value, Requested(params), src)
  {
  }

  /** The merge fails exactly when the library part does, with its error. */
  lemma MergeFails(params: Dict, format: string, requested: seq<string>, src: Sources)
    ensures var part := LibraryPart(params, JobspyRequested(requested), CustomRequested(requested) != [], src.library);
      && (Merge(params, format, requested, src).Err? <==> part.Err?)
      && (part.Err? ==> Merge(params, format, requested, src) == Err(part.error))
  {
  }

  /** Two requests that differ only in what the direct sources answer get
      the same error, or both succeed. */
  lemma SourcesCannotFail(params: Dict, src: Sources, other: Sources)
    requires other.library == src.library
    ensures Run(params, src).Err? <==> Run(params, other).Err?
    ensures Run(params, src).Err? ==> Run(params, other) == Run(params, src)
  {
    RunSteps(params, src);
    RunSteps(params, other);
    if OutputFormat(params).Done? && Invalid(Requested(params), ValidSites) == [] {
      var format := OutputFormat(params).value;
      var requested := Requested(params);
      MergeFails(params, format, requested, src);
      MergeFails(params, format, requested, other);
    }
  }

  /** A request for direct sources only never reaches `_build_kwargs`: it
      succeeds whatever its `job_type` or `description_format`, and echoes
      its own parameters. */
  lemma CustomOnly(params: Dict, src: Sources)
    requires OutputFormat(params).Done? && Invalid(Requested(params), ValidSites) == []
    requires JobspyRequested(Requested(params)) == []
    ensures Run(params, src).Ok?
    ensures CustomRequested(Requested(params)) == Requested(params)
    ensures Run(params, src).value.Json? ==>
      Run(params, src).value.envelope.query == FallbackEcho(params)
  {
    var requested := Requested(params);
    forall x | x in requested ensures x in CustomSites {
      assert x in ValidSites;
    }
    FilterAll(requested, s => s in CustomSites);
  }

  /** Requested library sites are refused for a truthy `job_type` outside
      the four types even when direct sources are requested too. */
  lemma LibraryJobType(params: Dict, src: Sources)
    requires OutputFormat(params).Done? && Invalid(Requested(params), ValidSites) == []
    requires JobspyRequested(Requested(params)) != []
    ensures var jobType := Get(params, JobType.Name());
      Truthy(jobType) && !jobType.List? && !(jobType.Str? && jobType.s in ValidTypes) ==>
        Run(params, src) == Err(BadRequest(JobTypeMessage(jobType)))
  {
    var requested := Requested(params);
    var lib := JobspyRequested(requested);
    var jobType := Get(params, JobType.Name());
    if Truthy(jobType) && !jobType.List? && !(jobType.Str? && jobType.s in ValidTypes) {
      RoutedSites(params, lib);
      OptionalNotBase(JobType);
      LibraryParamsKeep(params, lib, JobType.Name());
      KwargsRejects(LibraryParams(params, lib));
      RunSteps(params, src);
      MergeFails(params, OutputFormat(params).value, requested, src);
    }
  }

  /** The merge, when it succeeds, responds with the library's records
      followed by the direct sources' ones. */
  lemma MergeSucceeds(params: Dict, format: string, requested: seq<string>, src: Sources)
    requires Merge(params, format, requested, src).Ok?
    ensures var part := LibraryPart(params, JobspyRequested(requested), CustomRequested(requested) != [], src.library);
      && part.Ok?
      && Merge(params, format, requested, src).value
         == Respond(format, part.value.records + CustomRecords(CustomRequested(requested), params, src), requested,
                    QueryEcho(part.value.echo, params))
  {
  }

  /** The rows the library's frame gave to this request: none when no library
      site is requested, `_build_kwargs` refuses them or the library raises. */
  function LibraryRows(params: Dict, lib: seq<string>, library: Dict -> LibraryOutcome): seq<Dict> {
    if lib == [] then []
    else match KwargsFor(LibraryParams(params, lib))
      case Err(_) => []
      case Ok(out) => match library(out.kwargs) case Frame(rows) => rows case Failed(_, _) => []
  }

  /** A successful library part holds exactly its frame's rows. */
  lemma LibraryRecords(params: Dict, lib: seq<string>, hasCustom: bool, library: Dict -> LibraryOutcome)
    requires LibraryPart(params, lib, hasCustom, library).Ok?
    ensures LibraryPart(params, lib, hasCustom, library).value.records == MapSeq(LibraryRows(params, lib, library), AsRow)
  {
  }

  /** A direct source's postings all name that source. */
  predicate OwnSite(ps: seq<Posting>, site: string) {
    forall i :: 0 <= i < |ps| ==> ps[i].site == site
  }

  /** Every direct source answers with postings of its own site. */
  ghost predicate Labelled(src: Sources) {
    forall site, params :: src.direct(site, params).Done? ==> OwnSite(src.direct(site, params).value, site)
  }

  /** Each adapter returns postings of its own site, and a name that is no
      direct source returns none. */
  lemma AdapterSites(site: string, params: Dict, up: Upstreams)
    requires Adapter(site, params, up).Done?
    ensures OwnSite(Adapter(site, params, up).value, site)
    ensures site !in CustomSites ==> Adapter(site, params, up).value == []
  {
    var ps := Adapter(site, params, up).value;
    var s := ReadSettings(params);
    if site == "remoteok" {
      if s.isRemote != Some(false) {
        var url := RemoteOK.Url(s.searchTerm).value;
        RemoteOK.ScrapeResults(params, up.remoteok, up.env, url, up.remoteok(url).value);
      }
    } else if site == "arbeitnow" {
      Arbeitnow.ScrapeResults(params, up.arbeitnow, up.env, ps);
    } else if site == "remotive" {
      if s.isRemote != Some(false) {
        Remotive.ScrapeResults(params, up.remotive, up.env, ps);
      }
    } else if site == "jobicy" {
      if s.isRemote != Some(false) {
        Jobicy.ScrapeResults(params, up.jobicy, up.env, ps);
      }
    }
  }

  /** The sources `_run_scrape` calls are labelled. */
  lemma WiredLabelled(up: Upstreams)
    ensures Labelled(Wired(up))
  {
    forall site, params | Wired(up).direct(site, params).Done?
      ensures OwnSite(Wired(up).direct(site, params).value, site)
    {
      AdapterSites(site, params, up);
    }
  }

  /** With labelled sources, the direct sources' records are postings of the
      sites asked for. */
  lemma {:induction false} CustomRecordsFrom(sites: seq<string>, params: Dict, src: Sources)
    requires Labelled(src)
    ensures forall i :: 0 <= i < |CustomRecords(sites, params, src)| ==>
      CustomRecords(sites, params, src)[i].Job? && CustomRecords(sites, params, src)[i].posting.site in sites
    decreases |sites|
  {
    if sites != [] {
      var init := sites[..|sites| - 1];
      var site := sites[|sites| - 1];
      CustomRecordsFrom(init, params, src);
      var rs := CustomRecords(sites, params, src);
      var before := CustomRecords(init, params, src);
      var last := SiteRecords(site, params, src);
      assert rs == before + last;
      forall i | 0 <= i < |rs| ensures rs[i].Job? && rs[i].posting.site in sites {
        if i < |before| {
          assert rs[i] == before[i];
          assert before[i].posting.site in init;
        } else {
          assert rs[i] == last[i - |before|];
          assert src.direct(site, params).Done?;
          assert OwnSite(src.direct(site, params).value, site);
        }
      }
    }
  }

  /** The JSON envelope: `count` is the number of jobs, `sites` the requested
      sites; the jobs are the library's rows, then postings of the requested
      direct sources only. */
  lemma JsonEnvelope(params: Dict, src: Sources)
    requires Run(params, src).Ok? && Run(params, src).value.Json?
    requires Labelled(src)
    ensures var env := Run(params, src).value.envelope;
      var requested := Requested(params);
      var rows := LibraryRows(params, JobspyRequested(requested), src.library);
      && env.count == |env.jobs|
      && env.sites == requested
      && |rows| <= |env.jobs|
      && env.jobs[..|rows|] == MapSeq(rows, AsRow)
      && env.jobs[|rows|..] == CustomRecords(CustomRequested(requested), params, src)
      && forall i :: |rows| <= i < |env.jobs| ==>
           env.jobs[i].Job? && env.jobs[i].posting.site in requested && env.jobs[i].posting.site in CustomSites
  {
    var requested := Requested(params);
    var lib := JobspyRequested(requested);
    var custom := CustomRequested(requested);
    var rows := LibraryRows(params, lib, src.library);
    RunSteps(params, src);
    MergeSucceeds(params, OutputFormat(params).value, requested, src);
    LibraryRecords(params, lib, custom != [], src.library);
    var jobs := Run(params, src).value.envelope.jobs;
    var tail := CustomRecords(custom, params, src);
    assert jobs == MapSeq(rows, AsRow) + tail;
    assert jobs[..|rows|] == MapSeq(rows, AsRow);
    assert jobs[|rows|..] == tail;
    CustomRecordsFrom(custom, params, src);
    forall i | |rows| <= i < |jobs|
      ensures jobs[i].Job? && jobs[i].posting.site in requested && jobs[i].posting.site in CustomSites
    {
      assert jobs[i] == tail[i - |rows|];
    }
  }

  /** The echo keeps the site list and drops `verbose`. */
  lemma EchoKeepsSites(kwargs: Dict)
    requires "site_name" in kwargs
    ensures "site_name" in Echo(kwargs) && Echo(kwargs)["site_name"] == kwargs["site_name"]
    ensures "verbose" !in Echo(kwargs)
  {
  }

  /** With library sites, the query echo is the library's arguments without
      `verbose`; it is never empty, since it holds the library's site list. */
  lemma JsonQuery(params: Dict, src: Sources)
    requires Run(params, src).Ok? && Run(params, src).value.Json?
    requires JobspyRequested(Requested(params)) != []
    ensures var query := Run(params, src).value.envelope.query;
      var lib := JobspyRequested(Requested(params));
      && KwargsFor(LibraryParams(params, lib)).Ok?
      && query == Echo(KwargsFor(LibraryParams(params, lib)).value.kwargs)
      && "verbose" !in query
      && "site_name" in query && query["site_name"] == StrList(lib)
  {
    var requested := Requested(params);
    var lib := JobspyRequested(requested);
    var format := OutputFormat(params).value;
    var custom := CustomRequested(requested);
    RunSteps(params, src);
    MergeSucceeds(params, format, requested, src);
    LibraryEcho(params, lib, custom != [], src.library);
    var part := LibraryPart(params, lib, custom != [], src.library).value;
    assert Run(params, src).value
        == Respond(format, part.records + CustomRecords(custom, params, src), requested, QueryEcho(part.echo, params));
  }

  /** A successful library part echoes the library's arguments without
      `verbose`, which hold the site list. */
  lemma LibraryEcho(params: Dict, lib: seq<string>, hasCustom: bool, library: Dict -> LibraryOutcome)
    requires lib != [] && LibraryPart(params, lib, hasCustom, library).Ok?
    ensures var echo := LibraryPart(params, lib, hasCustom, library).value.echo;
      && KwargsFor(LibraryParams(params, lib)).Ok?
      && echo == Echo(KwargsFor(LibraryParams(params, lib)).value.kwargs)
      && "verbose" !in echo
      && "site_name" in echo && echo["site_name"] == StrList(lib)
      && QueryEcho(echo, params) == echo
  {
    RoutedSites(params, lib);
    var kw := KwargsFor(LibraryParams(params, lib)).value.kwargs;
    assert LibraryPart(params, lib, hasCustom, library).value.echo == Echo(kw);
    EchoOfSites(kw, StrList(lib), params);
  }

  /** The echo of arguments that name a site list keeps it, drops
      `verbose`, and is never replaced by the fallback. */
  lemma EchoOfSites(kw: Dict, sites: Value, params: Dict)
    requires "site_name" in kw && kw["site_name"] == sites
    ensures "verbose" !in Echo(kw)
    ensures "site_name" in Echo(kw) && Echo(kw)["site_name"] == sites
    ensures QueryEcho(Echo(kw), params) == Echo(kw)
  {
    EchoKeepsSites(kw);
  }
}
