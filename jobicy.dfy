/** `scrape_jobicy` (api/index.py): Jobicy's remote-jobs list, asked for at
    most 50 postings, optionally for one country, then filtered by age and
    type on the gateway's side. */
module Jobicy {
  import opened Wrappers
  import opened Text
  import opened Seqs
  import opened PyValue
  import opened Postings
  import opened Vocab
  import Kwargs

  /** The field the age filter reads. */
  const PubKey: string := "pubDate"

  /** Jobicy serves at most this many postings per request. */
  const MaxCount: int := 50

  /** `min(offset + results_wanted, 50)`. */
  function Count(s: Settings): (n: int)
    ensures n <= MaxCount
    ensures n <= s.offset + s.wanted
    ensures n == MaxCount || n == s.offset + s.wanted
  {
    if s.offset + s.wanted <= MaxCount then s.offset + s.wanted else MaxCount
  }

  /** `geo`: the stripped `country_indeed`, else the stripped last
      comma-separated piece of the stripped `location`, else nothing. */
  function Geo(params: Dict): Attempt<string> {
    match StrippedParam(params, "country_indeed")
    case Raised => Raised
    case Done(country) =>
      match StrippedParam(params, "location")
      case Raised => Raised
      case Done(location) =>
        Done(if country != "" then country
             else if location != "" then Strip(Last(Split(location, ',')))
             else "")
  }

  /** Where `geo` comes from: `country_indeed` when it is given; otherwise
      the text after the last comma of `location` (`LastPiece`). */
  lemma GeoSource(params: Dict)
    ensures Geo(params).Raised? <==> StrippedParam(params, "country_indeed").Raised? || StrippedParam(params, "location").Raised?
    ensures Geo(params).Done? ==>
      var country := StrippedParam(params, "country_indeed").value;
      var location := StrippedParam(params, "location").value;
      var geo := Geo(params).value;
      && (country != "" ==> geo == country)
      && (country == "" && location == "" ==> geo == "")
      && (country == "" && location != "" ==> geo == Strip(Last(Split(location, ','))))
  {
  }

  /** The last comma-separated piece of `location` is the text after its last
      comma (all of it when there is none), and holds no comma; nor does the
      stripped piece `geo` is set to. */
  lemma LastPiece(location: string)
    ensures var tail := Last(Split(location, ','));
      && |tail| <= |location| && location[|location| - |tail|..] == tail
      && (tail == location || location[|location| - |tail| - 1] == ',')
      && ',' !in tail
      && ',' !in Strip(tail)
  {
    var tail := Last(Split(location, ','));
    SplitLastSuffix(location, ',');
    SplitLastWhole(location, ',');
    if |Split(location, ',')| > 1 {
      SplitLastSep(location, ',');
    }
    assert tail in Split(location, ',');
    StripInside(tail);
  }

  /** `str.strip()` keeps only characters of its argument. */
  lemma StripInside(s: string)
    ensures forall c :: c in Strip(s) ==> c in s
  {
    var t := TrimStart(s);
    assert forall c :: c in t ==> c in s by {
      assert t == s[|s| - |t|..];
    }
    assert forall c :: c in TrimEnd(t) ==> c in t by {
      assert TrimEnd(t) == t[..|TrimEnd(t)|];
    }
  }

  /** The query: `count`, `tag` for a search term, and the lower-cased `geo`
      when there is one. */
  function Query(s: Settings, geo: string): (q: Dict)
    ensures "count" in q && q["count"] == Int(Count(s))
    ensures "tag" in q <==> Truthy(s.searchTerm)
    ensures "tag" in q ==> q["tag"] == s.searchTerm
    ensures "geo" in q <==> geo != ""
    ensures "geo" in q ==> q["geo"] == Str(Lower(geo))
    ensures q.Keys <= {"count", "tag", "geo"}
  {
    var q0: Dict := map["count" := Int(Count(s))];
    var q1 := if Truthy(s.searchTerm) then q0["tag" := s.searchTerm] else q0;
    if geo != "" then q1["geo" := Str(Lower(geo))] else q1
  }

  // ---------------------------------------------------------------------
  // The type filter

  /** `type_map.get((jt or "").lower()) == job_type`. */
  function TypeTest(jobType: Value): Value -> Attempt<bool> {
    jt => match JobicyType(jt)
      case Raised => Raised
      case Done(o) => Done(o.Some? && jobType == Str(o.value))
  }

  /** `any(... for jt in j.get("jobType", []))`. */
  function HasType(jobType: Value): Dict -> Attempt<bool> {
    j => match Iterate(GetDefault(j, "jobType", List([])))
      case Raised => Raised
      case Done(items) => AnyTry(items, TypeTest(jobType))
  }

  /** The `job_type` filter, skipped when `job_type` is falsy; the raw
      request value is compared, so no check has made it one of the four
      types. */
  function ByType(jobs: seq<Dict>, jobType: Value): Attempt<seq<Dict>> {
    if !Truthy(jobType) then Done(jobs) else TryFilter(jobs, HasType(jobType))
  }

  /** A posting the filter keeps lists a Jobicy type name that maps to the
      requested type, which therefore is one `_build_kwargs` accepts. */
  lemma ByTypeSound(jobs: seq<Dict>, jobType: Value, j: Dict)
    requires Truthy(jobType) && ByType(jobs, jobType).Done?
    requires j in ByType(jobs, jobType).value
    ensures jobType.Str? && jobType.s in Kwargs.ValidTypes
    ensures exists jt :: jt in Iterate(GetDefault(j, "jobType", List([]))).value && JobicyType(jt) == Done(Some(jobType.s))
  {
    assert HasType(jobType)(j) == Done(true);
    var items := Iterate(GetDefault(j, "jobType", List([]))).value;
    var k :| 0 <= k < |items| && TypeTest(jobType)(items[k]) == Done(true);
    assert items[k] in items;
  }

  /** So a requested type outside the four keeps nothing. */
  lemma UnknownTypeKeepsNothing(jobs: seq<Dict>, jobType: Value)
    requires Truthy(jobType) && ByType(jobs, jobType).Done?
    requires !(jobType.Str? && jobType.s in Kwargs.ValidTypes)
    ensures ByType(jobs, jobType).value == []
  {
    if ByType(jobs, jobType).value != [] {
      ByTypeSound(jobs, jobType, ByType(jobs, jobType).value[0]);
    }
  }

  // ---------------------------------------------------------------------
  // Results

  /** `html.unescape(v)`: strings are unescaped; a list is returned as it is
      unless it holds "&", where the substitution raises; for other values
      the `"&" in v` test raises. */
  function Unescape(env: Env, v: Value): (r: Attempt<Value>)
    ensures v.Str? ==> r == Done(Str(env.unescape(v.s)))
  {
    match v
    case Str(s) => Done(Str(env.unescape(s)))
    case List(items) => if Str("&") in items then Raised else Done(v)
    case _ => Raised
  }

  /** `html.unescape(html.unescape(j.get("jobTitle") or ""))`. */
  function Title(env: Env, raw: Value): (r: Attempt<Value>)
    ensures raw.Str? && raw.s != "" ==> r == Done(Str(env.unescape(env.unescape(raw.s))))
    ensures !Truthy(raw) ==> r == Done(Str(env.unescape(env.unescape(""))))
    ensures r.Raised? <==> Truthy(raw) && !raw.Str? && !(raw.List? && Str("&") !in raw.items)
  {
    match Unescape(env, Or(raw, Str("")))
    case Raised => Raised
    case Done(once) => Unescape(env, once)
  }

  /** The `salary` object, present when a minimum or a maximum is given;
      the period defaults to yearly and the currency to USD. */
  function SalaryOf(j: Dict): (r: Option<Salary>)
    ensures r.Some? <==> Truthy(Get(j, "salaryMin")) || Truthy(Get(j, "salaryMax"))
    ensures r.Some? ==> Truthy(r.value.interval) && Truthy(r.value.currency)
    ensures r.Some? && !Truthy(Get(j, "salaryPeriod")) ==> r.value.interval == Str("yearly")
    ensures r.Some? && !Truthy(Get(j, "salaryCurrency")) ==> r.value.currency == Str("USD")
  {
    if Truthy(Get(j, "salaryMin")) || Truthy(Get(j, "salaryMax")) then
      Some(Salary(OrNone(Get(j, "salaryMin")), OrNone(Get(j, "salaryMax")),
                  Or(Get(j, "salaryPeriod"), Str("yearly")), Or(Get(j, "salaryCurrency"), Str("USD"))))
    else None
  }

  /** One result of the loop; it raises when `jobType` cannot be joined,
      `jobIndustry` cannot be indexed, or the title cannot be unescaped. */
  function Build(env: Env, j: Dict): (r: Attempt<Posting>)
    ensures r.Done? <==>
      && Label(GetDefault(j, "jobType", List([]))).Done?
      && FirstOrNull(Get(j, "jobIndustry")).Done?
      && Title(env, Get(j, "jobTitle")).Done?
    ensures r.Done? ==> && r.value.site == "jobicy" && r.value.isRemote == Bool(true)
                        && r.value.skills == List([]) && r.value.salary == SalaryOf(j)
    ensures r.Done? && r.value.jobType.Some? ==> r.value.jobType.value in Kwargs.ValidTypes
  {
    var pub := Get(j, PubKey);
    var datePosted := if Truthy(pub) then PrefixOrNull(pub, 10) else Null;
    match Label(GetDefault(j, "jobType", List([])))
    case Raised => Raised
    case Done(kind) =>
      match FirstOrNull(Get(j, "jobIndustry"))
      case Raised => Raised
      case Done(industry) =>
        match Title(env, Get(j, "jobTitle"))
        case Raised => Raised
        case Done(title) =>
          assert kind.Some? ==> kind.value in Kwargs.ValidTypes by {
            ClassifyValid(Lower(JoinText(GetDefault(j, "jobType", List([])), " ").value));
          }
          Done(Posting(
            title := OrNone(title),
            company := OrNone(Get(j, "companyName")),
            site := "jobicy",
            jobUrl := OrNone(Get(j, "url")),
            city := OrNone(Or(Get(j, "jobGeo"), Str(""))),
            isRemote := Bool(true),
            jobType := kind,
            jobLevel := OrNone(Get(j, "jobLevel")),
            datePosted := datePosted,
            salary := SalaryOf(j),
            description := OrNone(Get(j, "jobDescription")),
            skills := List([]),
            companyIndustry := industry))
  }

  function Builder(env: Env): Dict -> Attempt<Posting> {
    j => Build(env, j)
  }

  /** The steps after the request: the age and type filters, the window
      and the loop. */
  function FromData(params: Dict, data: seq<Dict>, s: Settings, env: Env): Attempt<seq<Posting>> {
    match ByType(Recent(data, s, env, PubKey), Get(params, "job_type"))
    case Raised => Raised
    case Done(jobs) => MapTry(Window(jobs, s), Builder(env))
  }

  /** `scrape_jobicy(params)`, with the HTTP request for a query as
      `fetch`. */
  function Scrape(params: Dict, fetch: Dict -> Attempt<seq<Dict>>, env: Env): Attempt<seq<Posting>> {
    var s := ReadSettings(params);
    if s.isRemote == Some(false) then Done([])
    else match Geo(params)
      case Raised => Raised
      case Done(geo) =>
        match fetch(Query(s, geo))
        case Raised => Raised
        case Done(data) => FromData(params, data, s, env)
  }

  method ScrapeJobicy(params: Dict, fetch: Dict -> Attempt<seq<Dict>>, env: Env) returns (r: Attempt<seq<Posting>>)
    ensures r == Scrape(params, fetch, env)
  {
    var s := ReadSettings(params);
    if s.isRemote == Some(false) {
      return Done([]);
    }
    var geo := Geo(params);
    if geo.Raised? {
      return Raised;
    }
    var data := fetch(Query(s, geo.value));
    if data.Raised? {
      return Raised;
    }
    r := Finish(params, data.value, s, env);
  }

  /** The filters and the loop over the fetched postings. */
  method Finish(params: Dict, data: seq<Dict>, s: Settings, env: Env) returns (r: Attempt<seq<Posting>>)
    ensures r == FromData(params, data, s, env)
  {
    var jobs := ByType(Recent(data, s, env, PubKey), Get(params, "job_type"));
    if jobs.Raised? {
      return Raised;
    }
    r := Collect(Window(jobs.value, s), Builder(env));
  }

  // ---------------------------------------------------------------------
  // Properties

  /** Jobicy lists remote jobs only: `is_remote` false asks for nothing. */
  lemma RemoteOnly(params: Dict, fetch: Dict -> Attempt<seq<Dict>>, env: Env)
    requires ReadSettings(params).isRemote == Some(false)
    ensures Scrape(params, fetch, env) == Done([])
  {
  }

  /** `p` is built from one of `data` that was published after the cutoff
      under an age limit and lists the requested type when one is given. */
  predicate Eligible(data: seq<Dict>, jobType: Value, s: Settings, env: Env, p: Posting) {
    exists j :: && j in data
                && (AgeLimited(s) ==> Published(env, j, PubKey) >= Cutoff(env, s))
                && (Truthy(jobType) ==> HasType(jobType)(j) == Done(true))
                && Build(env, j) == Done(p)
  }

  /** The results built from the fetched `data`: at most `results_wanted`,
      remote Jobicy postings with accepted types, each eligible. */
  lemma ResultsOf(data: seq<Dict>, jobType: Value, s: Settings, env: Env, ps: seq<Posting>)
    requires ByType(Recent(data, s, env, PubKey), jobType).Done?
    requires MapTry(Window(ByType(Recent(data, s, env, PubKey), jobType).value, s), Builder(env)) == Done(ps)
    ensures s.wanted >= 0 ==> |ps| <= s.wanted
    ensures forall i :: 0 <= i < |ps| ==>
      && ps[i].site == "jobicy" && ps[i].isRemote == Bool(true)
      && (ps[i].jobType.Some? ==> ps[i].jobType.value in Kwargs.ValidTypes)
      && Eligible(data, jobType, s, env, ps[i])
  {
    var jobs := ByType(Recent(data, s, env, PubKey), jobType).value;
    WindowResults(jobs, s, Builder(env), ps);
    forall i | 0 <= i < |ps|
      ensures && ps[i].site == "jobicy" && ps[i].isRemote == Bool(true)
              && (ps[i].jobType.Some? ==> ps[i].jobType.value in Kwargs.ValidTypes)
              && Eligible(data, jobType, s, env, ps[i])
    {
      var j := Window(jobs, s)[i];
      assert Builder(env)(j) == Done(ps[i]);
      assert j in Recent(data, s, env, PubKey);
    }
  }

  /** The results of the steps after the request: those of `ResultsOf`,
      and nothing at all for a type outside the four. */
  lemma FromDataResults(params: Dict, data: seq<Dict>, s: Settings, env: Env, ps: seq<Posting>)
    requires FromData(params, data, s, env) == Done(ps)
    ensures var jobType := Get(params, "job_type");
      && (s.wanted >= 0 ==> |ps| <= s.wanted)
      && (Truthy(jobType) && !(jobType.Str? && jobType.s in Kwargs.ValidTypes) ==> ps == [])
      && forall i :: 0 <= i < |ps| ==>
           && ps[i].site == "jobicy" && ps[i].isRemote == Bool(true)
           && (ps[i].jobType.Some? ==> ps[i].jobType.value in Kwargs.ValidTypes)
           && Eligible(data, jobType, s, env, ps[i])
  {
    var jobType := Get(params, "job_type");
    ResultsOf(data, jobType, s, env, ps);
    if Truthy(jobType) && !(jobType.Str? && jobType.s in Kwargs.ValidTypes) {
      UnknownTypeKeepsNothing(Recent(data, s, env, PubKey), jobType);
    }
  }

  /** The results of a scrape: those of `FromDataResults` for the data
      fetched with `Query`. */
  lemma ScrapeResults(params: Dict, fetch: Dict -> Attempt<seq<Dict>>, env: Env, ps: seq<Posting>)
    requires ReadSettings(params).isRemote != Some(false)
    requires Scrape(params, fetch, env) == Done(ps)
    ensures var s := ReadSettings(params); var jobType := Get(params, "job_type");
      && Geo(params).Done? && fetch(Query(s, Geo(params).value)).Done?
      && (s.wanted >= 0 ==> |ps| <= s.wanted)
      && (Truthy(jobType) && !(jobType.Str? && jobType.s in Kwargs.ValidTypes) ==> ps == [])
      && forall i :: 0 <= i < |ps| ==>
           && ps[i].site == "jobicy" && ps[i].isRemote == Bool(true)
           && (ps[i].jobType.Some? ==> ps[i].jobType.value in Kwargs.ValidTypes)
           && Eligible(fetch(Query(s, Geo(params).value)).value, jobType, s, env, ps[i])
  {
    var s := ReadSettings(params);
    var data := fetch(Query(s, Geo(params).value)).value;
    assert FromData(params, data, s, env) == Done(ps);
    FromDataResults(params, data, s, env, ps);
  }
}
