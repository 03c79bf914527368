# Job-search gateway: request handling, in Dafny

The gateway (`api/index.py`) answers `/api/jobs` requests: a flat parameter
dictionary names the job boards to search and the search settings, and the
response is a JSON envelope `{jobs, count, sites, query}` (or a CSV / Excel
download). Eight boards are served by the scraping library `python-jobspy`
(`JOBSPY_SITES`). Four are served by the gateway's own adapters over public
APIs (`CUSTOM_SITES`: RemoteOK, Arbeitnow, Remotive, Jobicy).

This project models, on Python values (`PyValue.Value`: `None`, booleans,
integers, strings and lists; a parameter dictionary is a `map<string, Value>`):

- the lenient parameter coercions `_bool`, `_int` and `_csv_list` (module `Coerce`);
- the site constants and the reading, checking and splitting of the site list (module `Sites`);
- `_build_kwargs`: the checks, then the library's keyword dictionary filled key by key (module `Kwargs`);
- `_run_scrape`: routing, the library part and its failure policy, the loop over the direct sources that swallows their exceptions, the query echo and the envelope (module `Gateway`);
- the four adapters: their remote-only short cut, queries, filters, Arbeitnow's bounded page loop, the `[offset : offset + results_wanted]` window, and the record each builds (modules `RemoteOK`, `Arbeitnow`, `Remotive`, `Jobicy`, with what they share in `Postings`);
- the job-type vocabularies and the priority classifier (module `Vocab`).

Modules `Text`, `Seqs`, `Wrappers`, `Errors` and `PyValue` hold the Python
semantics these need: `str.strip`, `split`, `join`, `lower`, `int()`,
`str()`, slicing with negative bounds, truthiness, and comprehensions whose
condition may raise.

Where the source raises, the model returns `Raised` (in an adapter, inside
`_run_scrape`'s `try`) or an `ApiError` (the 400s, the library's 500, and the
uncaught exceptions the framework turns into a 500).

The outside world is passed in as parameters:

- the library call (`Dict -> LibraryOutcome`: its frame's rows, or the exception it raised);
- one HTTP request function per adapter (`... -> Attempt<...>`, where `Raised` covers network errors, `raise_for_status` and JSON decoding);
- an `Env` holding the clock, the date parser, `date.fromtimestamp` and `html.unescape`.

Each loop of the source is a Dafny `method` proved equal to a specification
function. These are `Coerce.ReadCsvList` / `CastItems`, `Kwargs.BuildKwargs` /
`FillKwargs`, `Arbeitnow.FetchPages`, `Postings.Collect`,
`Gateway.CollectCustom` and `Gateway.RunScrape`. The properties are proved
as lemmas about those functions.

### Where the written description of the service and the code differ (the model follows the code)

- **Validation of `job_type` and `description_format`.**
  - Description: both are validated for every request, before any network call.
  - Code: they are checked only inside `_build_kwargs`, which runs only when a library site is requested.
  - So a request for direct sources only with `job_type=gig` succeeds (`Gateway.CustomOnly`).
  - With a library site it gets the 400 even when direct sources are also requested (`Gateway.LibraryJobType`).
- **`sites` in the response.**
  - Description: the de-duplicated set of requested sources.
  - Code: `all_requested` exactly as given, duplicates and order kept, and a direct source named twice is scraped twice.
- **Unparseable publication dates (Remotive, Jobicy).**
  - Description: they count as "infinitely old".
  - Code: they read as timestamp 0, so they are dropped only when the cutoff is positive.
- **Jobicy `count`.**
  - It is `min(offset + results_wanted, 50)`, and the window is then taken from those at most 50 postings.
  - So a request with `offset + results_wanted > 50` cannot be served in full.

## Model

| member | source | states |
|---|---|---|
| Coerce.CoerceBool | api/index.py:92-99 | `_bool` is tri-state: it gives `None` exactly for an unset value, and a boolean for everything else |
| Coerce.BoolOfBoolText | api/index.py:95-99 | the text of a boolean ("True"/"False") reads back as that boolean |
| Coerce.BoolOfIntText | api/index.py:97-99 | an int is true iff it is nonzero, but its decimal text is true only for "1" (`_bool("2")` is false) |
| Coerce.BoolOfList | api/index.py:99 | every list reads as false, whatever it holds |
| Coerce.CoerceInt | api/index.py:102-108 | `_int` never fails: it gives no value only when the default is none |
| Coerce.IntFallback | api/index.py:102-108 | the default is returned exactly for `None`, `""` or a value `int()` rejects; otherwise `int(v)` |
| Coerce.IntRoundTrip | api/index.py:102-108 | `_int(str(n))` and `_int(n)` give `n` whatever the default |
| Coerce.CsvList | api/index.py:111-131 | `_csv_list` never returns an empty list |
| Coerce.ReadCsvList | api/index.py:111-131 | the two append loops compute `CsvList` |
| Coerce.CastItems | api/index.py:115-121 | the cast loop keeps the successful casts in order and drops the failures |
| Coerce.CsvListAbsent | api/index.py:111-131 | `None` exactly for `None`, `""`, a list whose every cast fails, or text with no non-blank token that casts |
| Coerce.CsvListSound | api/index.py:114-131 | every element returned is the cast of a list item, or of one stripped non-blank comma token of the text |
| Coerce.CsvListOfList | api/index.py:114-121 | a list is neither stripped nor de-blanked: with `str` each item is kept as `str()` renders it |
| Coerce.CsvListOfTextClean | api/index.py:122-131 | from text, every string returned is non-blank, comma-free and stripped |
| Coerce.CsvStringsRoundTrip | api/index.py:122-131 | joining clean tokens with "," and reading them back gives the same tokens |
| Coerce.CsvIdsRoundTrip | api/index.py:122-131 | the comma-separated text of integer ids reads back, with `cast=int`, as the ids |
| Sites.SortedValid | api/index.py:44-46 | the literal used for `sorted(VALID_SITES)` is strictly sorted and holds exactly the valid sites |
| Sites.SortedJobspy | api/index.py:44 | the literal used for `sorted(JOBSPY_SITES)` is strictly sorted and holds exactly the library sites |
| Sites.Requested | api/index.py:597 | the requested site list is never empty |
| Sites.RequestedOr | api/index.py:164 | the sites named by the request, or the default list when it names none |
| Sites.Invalid | api/index.py:598 | empty iff every requested site is valid; holds exactly the requested sites that are not valid |
| Sites.Partition | api/index.py:602-603 | with no unknown site, each part keeps request order, no site is in both, and the two together are the request as a multiset |
| Sites.UnknownSitesNamed | api/index.py:600 | the 400 message names every unknown site |
| Kwargs.OutsideSet | api/index.py:173-176 | `v not in valid` raises for a list; it is false exactly for a member string |
| Kwargs.Reject | api/index.py:173-176 | a value passes iff it is a member string; a list raises `TypeError`; anything else is the 400 with the message |
| Kwargs.Flag | api/index.py:187-188 | `_bool(v) or False` is always a real boolean, true iff `_bool(v)` is true |
| Kwargs.BaseKwargs | api/index.py:181-190 | the base dictionary has exactly the eight base keys |
| Kwargs.SiteName | api/index.py:164 | the library's site list is never empty |
| Kwargs.BuildKwargs | api/index.py:162-207 | the checks followed by the key-by-key fill compute `KwargsFor` |
| Kwargs.CheckParams | api/index.py:164-176 | the three checks, in the source's order, compute `Validate` |
| Kwargs.FillKwargs | api/index.py:192-205 | setting the optional keys one after the other gives `AddOptional` |
| Kwargs.SetKey | api/index.py:192-205 | one optional key set as the source sets it |
| Kwargs.CopyIfTruthy | api/index.py:192-194 | a truthy parameter is copied, a falsy one left out |
| Kwargs.SetFlagIfGiven | api/index.py:196 | `is_remote` / `easy_apply` are set to `_bool(v)` whenever not `None` |
| Kwargs.SetJobType | api/index.py:195 | `job_type` is set only when truthy |
| Kwargs.SetHoursOld | api/index.py:197 | a truthy `hours_old` is set to `_int(hours_old)` |
| Kwargs.SetProxies | api/index.py:200 | a truthy `proxies` is set to its `_csv_list` |
| Kwargs.SetCompanyIds | api/index.py:203-205 | text ids are read as comma-separated ints; any other truthy value is passed on unchanged |
| Kwargs.CheckOk | api/index.py:166-176 | the checks pass iff no site is unknown, the job type and the format are accepted; the sites are then handed on |
| Kwargs.CheckErr | api/index.py:166-176 | the first failing check decides the error: unknown sites, then job type, then format |
| Kwargs.JobTypeCheck | api/index.py:170-174 | `job_type` passes iff it is falsy or one of the four types; a list raises; anything else is the job-type 400 |
| Kwargs.FormatCheck | api/index.py:171-176 | the format passes iff it is "markdown" or "html"; a list raises; anything else is the format 400 |
| Kwargs.KwargsAccepts | api/index.py:162-207 | `_build_kwargs` succeeds iff all its sites are library sites, the job type is falsy or accepted, and the format (default "markdown") is accepted |
| Kwargs.KwargsUnknownSites | api/index.py:166-168 | a non-library site gives a 400 whose message names it |
| Kwargs.KwargsRejects | api/index.py:173-176 | an unaccepted job type gives its 400 (a list the `TypeError`), and then an unaccepted format gives its 400 |
| Kwargs.KwargsBase | api/index.py:181-190 | on success, the defaults are filled in (results 15, distance 50, offset 0), the format is accepted, the two LinkedIn/salary flags are real booleans, `verbose` is 0 |
| Kwargs.KwargsOptional | api/index.py:192-205 | each optional key is present iff the source sets it, with the value it sets |
| Kwargs.KwargsJobType | api/index.py:170-195 | `job_type` is present iff the parameter is truthy, and is then one of the four types |
| Kwargs.KwargsFlags | api/index.py:178-198 | `is_remote` / `easy_apply` are present iff given, as `_bool` of the value |
| Kwargs.KwargsKeys | api/index.py:181-205 | no other key is ever set |
| Kwargs.KwargsSites | api/index.py:164-207 | the returned sites are the non-empty library sites named, or `sorted(JOBSPY_SITES)` when none are named |
| Kwargs.PutAllAt | api/index.py:192-205 | after setting distinct keys in turn, a key holds the last entry set for it, or its old value |
| Postings.ReadSettings | api/index.py:280-285 | the shared settings: search term defaults to "", results to 15, offset to 0, and `is_remote` is unset iff not given |
| Postings.StrippedParam | api/index.py:481-482 | `(params.get(k) or "").strip()` raises exactly for a truthy non-string |
| Postings.Recent | api/index.py:498-505 | under an age limit, keeps exactly the postings published at or after the cutoff (an unparseable date reads as 0); otherwise keeps all |
| Postings.WindowBound | api/index.py:237 | the window every adapter takes (also lines 333, 422, 516) holds at most `results_wanted` postings |
| Postings.WindowMember | api/index.py:237 | the window holds only postings of the list it cuts |
| Postings.WindowResults | api/index.py:237-275 | the results built from a window: at most `results_wanted`, each built from a windowed posting |
| Postings.Collect | api/index.py:239-275 | the `results.append` loop stops at the first raise and otherwise builds every result in order |
| Seqs.PageBound | api/index.py:237 | `xs[off : off + n]` has at most `n` elements for every offset, negative ones included |
| Seqs.NegativeLimitCountsFromEnd | api/index.py:237 | a negative `results_wanted` counts from the end: `xs[0:-1]` drops only the last element |
| Seqs.MapTry | api/index.py:239-275 | a successful loop builds one result per posting, each the build of that posting |
| Seqs.TryFilterRaises | api/index.py:231-235 | a filter comprehension raises exactly when its condition raises on some element |
| RemoteOK.Url | api/index.py:220-222 | the base URL without a search term; a non-string search term raises |
| RemoteOK.UrlHasNoSpace | api/index.py:222 | the URL never contains a space |
| RemoteOK.Record | api/index.py:240-274 | a remote RemoteOK posting with no job type; a salary iff a minimum or a maximum is given |
| RemoteOK.ScrapeRemoteOK | api/index.py:210-275 | the adapter's steps compute `RemoteOK.Scrape` |
| RemoteOK.RemoteOnly | api/index.py:212-214 | `is_remote` false returns no postings |
| RemoteOK.ScrapeResults | api/index.py:210-275 | at most `results_wanted` results, each a remote RemoteOK posting built from an item with a `position` that passes the age filter |
| RemoteOK.ScrapeRaises | api/index.py:210-275 | the adapter raises exactly for a non-string search term, a failed request, or a non-numeric `epoch` under an age limit |
| Arbeitnow.Query | api/index.py:287-289 | `search` iff a search term is given, `remote` iff `is_remote` is true, nothing else |
| Arbeitnow.FetchPages | api/index.py:296-315 | the `while` loop computes the page recursion `Pages` |
| Arbeitnow.PagesRead | api/index.py:296-315 | the loop makes at most five requests, none of which raised, and collects the pages read in page order |
| Arbeitnow.PagesContinue | api/index.py:299-313 | each further request follows a non-empty page with a `next` link while fewer than `offset + results_wanted` postings are held |
| Arbeitnow.PagesStop | api/index.py:299-315 | the loop stops only with enough postings, on an empty page, on a page without `next`, or after page 5 |
| Arbeitnow.AtMostFivePages | api/index.py:296-315 | from the start: at most 5 requests, none when nothing is wanted, and the postings of pages 1 to the last read |
| Arbeitnow.RemoteFilter | api/index.py:321-324 | only remote postings when `is_remote` is true, only others when it is false |
| Arbeitnow.FilteredSound | api/index.py:317-331 | survivors come from the pages read, match `is_remote`, and mention the requested type's word |
| Arbeitnow.Build | api/index.py:336-371 | an Arbeitnow posting whose remote flag is the posting's own |
| Arbeitnow.FullTimeKept | api/index.py:326-347 | a posting the `fulltime` filter keeps is labelled `fulltime` |
| Arbeitnow.ScrapeArbeitnow | api/index.py:278-372 | the adapter's steps compute `Arbeitnow.Scrape` |
| Arbeitnow.ResultsOf | api/index.py:317-372 | at most `results_wanted` Arbeitnow postings, remote as asked, each built from a read posting that mentions the requested type |
| Arbeitnow.ScrapeResults | api/index.py:278-372 | a scrape's results are built from the postings the page loop read, at most `results_wanted`, remote as asked |
| Remotive.Query | api/index.py:386-388 | `limit` is `offset + results_wanted`; `search` iff a search term is given |
| Remotive.PlaceFilter | api/index.py:402-404 | the stripped `country_indeed`, else the stripped `location`, lower-cased; a non-string raises |
| Remotive.ByPlaceSound | api/index.py:405-411 | keeps exactly the postings whose place contains the filter, "worldwide" or "anywhere" |
| Remotive.WorldwidePasses | api/index.py:409-410 | a worldwide or anywhere posting passes every place filter |
| Remotive.ByPlaceRaises | api/index.py:406-411 | the place filter raises exactly when some posting's place is a truthy non-string |
| Remotive.Build | api/index.py:430-458 | a remote Remotive posting, built iff its `job_type` can be looked up; its type is one of the four |
| Remotive.ScrapeRemotive | api/index.py:375-459 | the adapter's steps compute `Remotive.Scrape` |
| Remotive.RemoteOnly | api/index.py:377-379 | `is_remote` false returns no postings |
| Remotive.ResultsOf | api/index.py:399-459 | at most `results_wanted` remote Remotive postings, each from one passing the place and age filters |
| Remotive.ScrapeResults | api/index.py:375-459 | the same for a whole scrape, of the data fetched with its query |
| Jobicy.Count | api/index.py:475 | the count is `min(offset + results_wanted, 50)` |
| Jobicy.GeoSource | api/index.py:481-483 | `geo` is `country_indeed` when given, else the stripped last comma piece of `location`, else empty |
| Jobicy.LastPiece | api/index.py:483 | the last comma piece is the text after the last comma (or all of it), and holds no comma |
| Jobicy.Query | api/index.py:475-485 | `count` as clamped; `tag` iff a search term; `geo` iff non-empty, lower-cased |
| Jobicy.ByTypeSound | api/index.py:511-514 | a kept posting lists a Jobicy type name mapping to the requested type, which is one of the four |
| Jobicy.UnknownTypeKeepsNothing | api/index.py:511-514 | a truthy `job_type` outside the four keeps no posting |
| Jobicy.Title | api/index.py:548 | the title is unescaped twice; it raises only for a truthy non-string that cannot be unescaped |
| Jobicy.SalaryOf | api/index.py:534-541 | a salary iff a minimum or maximum is given; the period defaults to yearly, the currency to USD |
| Jobicy.Build | api/index.py:519-566 | built iff the types can be joined, the industry indexed and the title unescaped; a remote Jobicy posting with no skills |
| Jobicy.ScrapeJobicy | api/index.py:462-567 | the adapter's steps compute `Jobicy.Scrape` |
| Jobicy.RemoteOnly | api/index.py:464-466 | `is_remote` false returns no postings |
| Jobicy.ResultsOf | api/index.py:496-567 | at most `results_wanted` remote Jobicy postings with accepted types, each from one passing the age and type filters |
| Jobicy.FromDataResults | api/index.py:496-567 | the same, and nothing at all for a requested type outside the four |
| Jobicy.ScrapeResults | api/index.py:462-567 | the same for a whole scrape, of the data fetched with its query |
| Vocab.Label | api/index.py:344-353 | raises iff the types cannot be joined; otherwise it classifies the lower-cased joined text |
| Vocab.FirstRule | api/index.py:346-353 | the result is the type of some rule with an occurring word; none iff no rule's word occurs |
| Vocab.ClassifyIsFirstRule | api/index.py:346-353 | the classifier is the first-match reading of its rules in priority order |
| Vocab.ClassifyValid | api/index.py:344-353 | the classifier only yields one of the four types |
| Vocab.ClassifyFullWins | api/index.py:345-347 | a type string containing "full" makes the posting `fulltime`, whatever the others say |
| Vocab.ArbeitnowNeedle | api/index.py:327-329 | the word searched for: defined exactly for a string job type |
| Vocab.ArbeitnowNeedleClassifies | api/index.py:327-353 | each accepted type's search word is classified back as that type |
| Vocab.RemotiveType | api/index.py:425-438 | raises iff the type is a truthy non-string; a result comes from a known Remotive name |
| Vocab.RemotiveTypesAgree | api/index.py:425-427 | Remotive's map agrees with the classifier, and maps only onto accepted types |
| Vocab.JobicyType | api/index.py:508-513 | raises iff the type is a truthy non-string; a result is one of the four types |
| Vocab.JobicyTypesAgree | api/index.py:508-510 | Jobicy's filter map agrees with the classifier its records use |
| Vocab.JobicyTypesOnto | api/index.py:508-510 | every accepted type has a Jobicy name mapping to it |
| Errors.ApiError.Status | api/index.py:599-623 | a 400 exactly for the validation errors, a 500 otherwise |
| Gateway.OutputFormat | api/index.py:594 | "json" when unset; raises exactly for a truthy non-string |
| Gateway.Respond | api/index.py:643-649 | CSV and Excel by name, JSON otherwise, with `count` the number of records |
| Gateway.Echo | api/index.py:612 | the library's arguments without `verbose`, values unchanged |
| Gateway.FallbackEcho | api/index.py:639-641 | the parameters without `output_format` and without `None` values |
| Gateway.Called | api/index.py:613-623 | a library failure is an error iff no direct source is requested, and then the 500 carrying the echo; otherwise no records |
| Gateway.CallLibrary | api/index.py:609-623 | the library part as the source runs it computes `LibraryPart` |
| Gateway.ScrapeSite | api/index.py:628-635 | the `if`/`elif` chain computes `Adapter` |
| Gateway.AddSite | api/index.py:627-637 | one iteration appends the site's postings, or nothing when its adapter raised |
| Gateway.CollectCustom | api/index.py:626-637 | the loop appends each direct site's records in request order |
| Gateway.RunScrape | api/index.py:592-649 | `_run_scrape` computes `Run` over the wired adapters |
| Gateway.Serve | api/index.py:602-649 | after the checks, the merge computes `Merge` |
| Gateway.UnknownSites | api/index.py:597-600 | an unknown site gives a 400 naming it, whatever the sources would answer |
| Gateway.RoutedSites | api/index.py:610-611 | the library is handed exactly the library sites of the request |
| Gateway.LibraryFailure | api/index.py:609-623 | the library part fails iff library sites are requested and either `_build_kwargs` refuses them or the library raises with no direct source requested |
| Gateway.RunFails | api/index.py:592-649 | a request fails iff its output format raises, a site is unknown, `_build_kwargs` refuses the library sites, or the library raises with no direct source requested |
| Gateway.SourcesCannotFail | api/index.py:626-637 | what the direct sources answer never changes whether, or how, a request fails |
| Gateway.CustomOnly | api/index.py:609-641 | a request for direct sources only never checks `job_type` or the format, always succeeds, and echoes its own parameters |
| Gateway.LibraryJobType | api/index.py:609-611 | with a library site, an unaccepted `job_type` is a 400 even when direct sources are requested |
| Gateway.MergeSucceeds | api/index.py:605-649 | a successful merge responds with the library's records, then the direct sources' |
| Gateway.LibraryRecords | api/index.py:613-616 | the library's records are its frame's rows, or none |
| Gateway.AdapterSites | api/index.py:626-635 | each adapter returns postings of its own site; any other name adds nothing |
| Gateway.WiredLabelled | api/index.py:626-635 | every source `_run_scrape` calls is labelled with its own site |
| Gateway.CustomRecordsFrom | api/index.py:626-637 | the direct sources' records are postings of the sites asked for |
| Gateway.JsonEnvelope | api/index.py:605-649 | `count == len(jobs)` and `sites == all_requested`; the jobs are the library's rows, then postings of requested direct sources only |
| Gateway.JsonQuery | api/index.py:612-641 | with library sites, the echo is the library's arguments without `verbose`, holding the library's site list |
| Gateway.LibraryEcho | api/index.py:610-641 | a successful library part echoes its arguments without `verbose`; the echo is never empty, so the fallback is not used |

## Left out

- HTTP (`httpx`, `raise_for_status`, JSON decoding) is not modelled. Each adapter takes a request function returning the decoded data or `Raised`; Arbeitnow's returns one decoded page (`data`, `links.next`). Response bodies that are not lists of dictionaries are not modelled.
- `scrape_jobs` is a parameter, returning either the frame's rows or the exception's message and type. `df_to_safe_records` is not modelled; the rows stand for its output.
- CSV and Excel serialisation (`_csv_response`, `_excel_response`, pandas) is not modelled. The response only records the format and the records.
- The FastAPI application, CORS, the routes, the Pydantic body model and HTML page serving are not modelled: they are framework plumbing. `_run_scrape` takes the flat parameter dictionary they build.
- The clock, `dateutil` parsing, `datetime.date.fromtimestamp` and `html.unescape` are uninterpreted functions of `Env`. Timestamps are integers: float seconds and float `epoch` / `created_at` values are not modelled.
- Concurrency and `await` are not modelled: the adapters run one after another, as the source awaits them.
- Python semantics are reduced:
  - `str.lower` is ASCII-only.
  - `int()` accepts ASCII digits only.
  - `str()` of a list quotes strings with `'` without escaping.
  - Floats, dictionaries and other value types are not among the values.
- `Jobicy.Title`: `html.unescape` of a list is modelled by its `"&" in v` test only; the list itself is then returned as the source does.
- `RemoteOK.ScrapeResults`, `Remotive.ScrapeResults`, `Jobicy.ScrapeResults`: the results bound holds when `results_wanted` is not negative. For a negative value, `Seqs.NegativeLimitCountsFromEnd` shows the window counts from the end.
- `Gateway.JsonEnvelope`: says the direct sources' jobs name requested sites only under `Labelled` sources, which `Gateway.WiredLabelled` proves for the wired adapters.
- A `None` inside Arbeitnow's or Jobicy's `job_types` makes `" ".join` raise. The model keeps this: the adapter raises, and `_run_scrape` drops that site.
