/** `scrape_remoteok` (api/index.py): RemoteOK's public list, which only
    holds remote jobs. */
module RemoteOK {
  import opened Wrappers
  import opened Text
  import opened Seqs
  import opened PyValue
  import opened Postings

  const BaseUrl: string := "https://remoteok.com/api"

  /** The request URL: a search term becomes `?tag=` with its spaces turned
      into `+`; a truthy non-string has no `.replace` and raises. */
  function Url(term: Value): (r: Attempt<string>)
    ensures !Truthy(term) ==> r == Done(BaseUrl)
    ensures r.Raised? <==> Truthy(term) && !term.Str?
  {
    if !Truthy(term) then Done(BaseUrl)
    else if term.Str? then Done(BaseUrl + "?tag=" + Replace(term.s, ' ', '+'))
    else Raised
  }

  /** The URL never carries a space. */
  lemma UrlHasNoSpace(term: Value)
    requires Url(term).Done?
    ensures ' ' !in Url(term).value
  {
    if Truthy(term) {
      var tail := Replace(term.s, ' ', '+');
      assert ' ' !in BaseUrl + "?tag=";
      assert forall i :: 0 <= i < |BaseUrl + "?tag=" + tail| ==>
        (BaseUrl + "?tag=" + tail)[i] in BaseUrl + "?tag=" || (BaseUrl + "?tag=" + tail)[i] in tail;
    }
  }

  /** `[item for item in data if "position" in item]`: the list starts with a
      legal notice that has no `position`. */
  function Listed(data: seq<Dict>): seq<Dict> {
    Filter(data, item => "position" in item)
  }

  /** The `hours_old` filter on `epoch` (missing reads as 0); a non-numeric
      `epoch` cannot be compared and raises. */
  function Recent(jobs: seq<Dict>, s: Settings, env: Env): Attempt<seq<Dict>> {
    if AgeLimited(s) then
      var cutoff := Cutoff(env, s);
      TryFilter(jobs, j => AtLeast(GetDefault(j, "epoch", Int(0)), cutoff))
    else Done(jobs)
  }

  /** One result of the loop. */
  function Record(j: Dict): (p: Posting)
    ensures p.site == "remoteok" && p.isRemote == Bool(true) && p.jobType.None?
    ensures p.salary.Some? <==> Truthy(Get(j, "salary_min")) || Truthy(Get(j, "salary_max"))
  {
    var datePosted := if Truthy(Get(j, "date")) then PrefixOrNull(j["date"], 10) else Null;
    var locStr := Or(Get(j, "location"), Str(""));
    var salary :=
      if Truthy(Get(j, "salary_min")) || Truthy(Get(j, "salary_max")) then
        Some(Salary(OrNone(Get(j, "salary_min")), OrNone(Get(j, "salary_max")), Str("yearly"), Str("USD")))
      else None;
    Posting(
      title := OrNone(Get(j, "position")),
      company := OrNone(Get(j, "company")),
      site := "remoteok",
      jobUrl := OrNone(Or(Get(j, "url"), Get(j, "apply_url"))),
      city := OrNone(locStr),
      isRemote := Bool(true),
      jobType := None,
      jobLevel := Null,
      datePosted := datePosted,
      salary := salary,
      description := OrNone(Get(j, "description")),
      skills := Or(Get(j, "tags"), List([])),
      companyIndustry := Null)
  }

  function Build(j: Dict): Attempt<Posting> {
    Done(Record(j))
  }

  /** `scrape_remoteok(params)`, with the HTTP request as `fetch`. */
  function Scrape(params: Dict, fetch: string -> Attempt<seq<Dict>>, env: Env): Attempt<seq<Posting>> {
    var s := ReadSettings(params);
    if s.isRemote == Some(false) then Done([])
    else match Url(s.searchTerm)
      case Raised => Raised
      case Done(url) =>
        match fetch(url)
        case Raised => Raised
        case Done(data) =>
          match Recent(Listed(data), s, env)
          case Raised => Raised
          case Done(jobs) => MapTry(Window(jobs, s), Build)
  }

  method ScrapeRemoteOK(params: Dict, fetch: string -> Attempt<seq<Dict>>, env: Env) returns (r: Attempt<seq<Posting>>)
    ensures r == Scrape(params, fetch, env)
  {
    var s := ReadSettings(params);
    if s.isRemote == Some(false) {
      return Done([]);
    }
    var url := Url(s.searchTerm);
    if url.Raised? {
      return Raised;
    }
    var data := fetch(url.value);
    if data.Raised? {
      return Raised;
    }
    var jobs := Recent(Listed(data.value), s, env);
    if jobs.Raised? {
      return Raised;
    }
    r := Collect(Window(jobs.value, s), Build);
  }

  // ---------------------------------------------------------------------
  // Properties

  /** `is_remote` false: nothing is fetched and nothing returned. */
  lemma RemoteOnly(params: Dict, fetch: string -> Attempt<seq<Dict>>, env: Env)
    requires ReadSettings(params).isRemote == Some(false)
    ensures Scrape(params, fetch, env) == Done([])
  {
  }

  /** The results: at most `results_wanted` of them, each one built from a
      listed item of the fetched data that passed the age filter, and each
      one a remote RemoteOK posting. */
  lemma ScrapeResults(params: Dict, fetch: string -> Attempt<seq<Dict>>, env: Env, url: string, data: seq<Dict>)
    requires var s := ReadSettings(params); s.isRemote != Some(false) && Url(s.searchTerm) == Done(url)
    requires fetch(url) == Done(data)
    requires Scrape(params, fetch, env).Done?
    ensures var s := ReadSettings(params); var ps := Scrape(params, fetch, env).value;
      && (s.wanted >= 0 ==> |ps| <= s.wanted)
      && forall i :: 0 <= i < |ps| ==>
           && ps[i].site == "remoteok" && ps[i].isRemote == Bool(true)
           && exists j :: j in data && "position" in j && ps[i] == Record(j)
                && (AgeLimited(s) ==> AtLeast(GetDefault(j, "epoch", Int(0)), Cutoff(env, s)) == Done(true))
  {
    var s := ReadSettings(params);
    var jobs := Recent(Listed(data), s, env).value;
    var ps := Scrape(params, fetch, env).value;
    var w := Window(jobs, s);
    assert ps == MapTry(w, Build).value;
    if s.wanted >= 0 {
      WindowBound(jobs, s);
    }
    forall i | 0 <= i < |ps|
      ensures exists j :: j in data && "position" in j && ps[i] == Record(j)
                && (AgeLimited(s) ==> AtLeast(GetDefault(j, "epoch", Int(0)), Cutoff(env, s)) == Done(true))
    {
      assert Build(w[i]) == Done(ps[i]);
      WindowMember(jobs, s, w[i]);
      assert w[i] in Listed(data);
    }
  }

  /** The source raises exactly when the URL cannot be built, the request
      fails, or an age limit meets a listed item whose `epoch` is not a
      number; building the results never raises. */
  lemma ScrapeRaises(params: Dict, fetch: string -> Attempt<seq<Dict>>, env: Env)
    ensures var s := ReadSettings(params);
      Scrape(params, fetch, env) == Raised <==>
        && s.isRemote != Some(false)
        && (|| Url(s.searchTerm).Raised?
            || fetch(Url(s.searchTerm).value).Raised?
            || (AgeLimited(s) && exists j :: (j in Listed(fetch(Url(s.searchTerm).value).value)
                  && !(GetDefault(j, "epoch", Int(0)).Int? || GetDefault(j, "epoch", Int(0)).Bool?))))
  {
    var s := ReadSettings(params);
    if s.isRemote != Some(false) && Url(s.searchTerm).Done? && fetch(Url(s.searchTerm).value).Done? {
      var listed := Listed(fetch(Url(s.searchTerm).value).value);
      if AgeLimited(s) {
        var cutoff := Cutoff(env, s);
        TryFilterRaises(listed, j => AtLeast(GetDefault(j, "epoch", Int(0)), cutoff));
      }
      var jobs := Recent(listed, s, env);
      if jobs.Done? {
        MapTryTotal(Window(jobs.value, s), Build);
      }
    }
  }
}
