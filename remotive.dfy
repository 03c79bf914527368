/** `scrape_remotive` (api/index.py): Remotive's remote-jobs list, asked for
    `offset + results_wanted` postings and then filtered by place and age on
    the gateway's side. */
module Remotive {
  import opened Wrappers
  import opened Text
  import opened Seqs
  import opened PyValue
  import opened Postings
  import opened Vocab
  import Kwargs

  /** The field the age filter reads. */
  const PubKey: string := "publication_date"

  /** The query: `limit` is the end of the page window; `search` is sent
      only for a search term. */
  function Query(s: Settings): (q: Dict)
    ensures "limit" in q && q["limit"] == Int(s.offset + s.wanted)
    ensures "search" in q <==> Truthy(s.searchTerm)
    ensures "search" in q ==> q["search"] == s.searchTerm
    ensures q.Keys <= {"limit", "search"}
  {
    var q: Dict := map["limit" := Int(s.offset + s.wanted)];
    if Truthy(s.searchTerm) then q["search" := s.searchTerm] else q
  }

  /** `loc_filter`: the stripped `country_indeed`, else the stripped
      `location`, lower-cased; both are read before either is used. */
  function PlaceFilter(params: Dict): (r: Attempt<string>)
    ensures r.Raised? <==> StrippedParam(params, "country_indeed").Raised? || StrippedParam(params, "location").Raised?
    ensures r.Done? && StrippedParam(params, "country_indeed").value != "" ==>
      r.value == Lower(StrippedParam(params, "country_indeed").value)
    ensures r.Done? && StrippedParam(params, "country_indeed").value == "" ==>
      r.value == Lower(StrippedParam(params, "location").value)
  {
    match StrippedParam(params, "country_indeed")
    case Raised => Raised
    case Done(country) =>
      match StrippedParam(params, "location")
      case Raised => Raised
      case Done(location) => Done(Lower(if country != "" then country else location))
  }

  /** `(j.get("candidate_required_location") or "").lower()`. */
  function Place(j: Dict): Attempt<string> {
    match TextOr(Get(j, "candidate_required_location"))
    case Raised => Raised
    case Done(l) => Done(Lower(l))
  }

  /** A place admits a filter when it names it, or says "worldwide" or
      "anywhere". */
  predicate Admits(place: string, filter: string) {
    Contains(place, filter) || Contains(place, "worldwide") || Contains(place, "anywhere")
  }

  function PlaceTest(filter: string): Dict -> Attempt<bool> {
    j => match Place(j) case Raised => Raised case Done(l) => Done(Admits(l, filter))
  }

  /** The place filter, skipped when there is no filter. */
  function ByPlace(jobs: seq<Dict>, filter: string): Attempt<seq<Dict>> {
    if filter == "" then Done(jobs) else TryFilter(jobs, PlaceTest(filter))
  }

  /** One result of the loop; the type lookup raises on a truthy
      non-string `job_type`. */
  function Build(j: Dict): (r: Attempt<Posting>)
    ensures r.Done? <==> RemotiveType(Get(j, "job_type")).Done?
    ensures r.Done? ==> r.value.site == "remotive" && r.value.isRemote == Bool(true)
    ensures r.Done? && r.value.jobType.Some? ==> r.value.jobType.value in Kwargs.ValidTypes
  {
    var pub := Get(j, PubKey);
    var datePosted := if Truthy(pub) then PrefixOrNull(pub, 10) else Null;
    match RemotiveType(Get(j, "job_type"))
    case Raised => Raised
    case Done(jt) =>
      assert jt.Some? ==> jt.value in Kwargs.ValidTypes by {
        if jt.Some? {
          RemotiveTypesAgree(Lower(Get(j, "job_type").s));
        }
      }
      Done(Posting(
        title := OrNone(Get(j, "title")),
        company := OrNone(Get(j, "company_name")),
        site := "remotive",
        jobUrl := OrNone(Get(j, "url")),
        city := OrNone(Or(Get(j, "candidate_required_location"), Str(""))),
        isRemote := Bool(true),
        jobType := jt,
        jobLevel := Null,
        datePosted := datePosted,
        salary := None,
        description := OrNone(Get(j, "description")),
        skills := Or(Get(j, "tags"), List([])),
        companyIndustry := OrNone(Get(j, "category"))))
  }

  /** `scrape_remotive(params)`, with the HTTP request for a query as
      `fetch`. */
  function Scrape(params: Dict, fetch: Dict -> Attempt<seq<Dict>>, env: Env): Attempt<seq<Posting>> {
    var s := ReadSettings(params);
    if s.isRemote == Some(false) then Done([])
    else match fetch(Query(s))
      case Raised => Raised
      case Done(data) =>
        match PlaceFilter(params)
        case Raised => Raised
        case Done(filter) =>
          match ByPlace(data, filter)
          case Raised => Raised
          case Done(placed) => MapTry(Window(Recent(placed, s, env, PubKey), s), Build)
  }

  method ScrapeRemotive(params: Dict, fetch: Dict -> Attempt<seq<Dict>>, env: Env) returns (r: Attempt<seq<Posting>>)
    ensures r == Scrape(params, fetch, env)
  {
    var s := ReadSettings(params);
    if s.isRemote == Some(false) {
      return Done([]);
    }
    var data := fetch(Query(s));
    if data.Raised? {
      return Raised;
    }
    var filter := PlaceFilter(params);
    if filter.Raised? {
      return Raised;
    }
    var placed := ByPlace(data.value, filter.value);
    if placed.Raised? {
      return Raised;
    }
    r := Collect(Window(Recent(placed.value, s, env, PubKey), s), Build);
  }

  // ---------------------------------------------------------------------
  // Properties

  /** Remotive lists remote jobs only: `is_remote` false asks for nothing. */
  lemma RemoteOnly(params: Dict, fetch: Dict -> Attempt<seq<Dict>>, env: Env)
    requires ReadSettings(params).isRemote == Some(false)
    ensures Scrape(params, fetch, env) == Done([])
  {
  }

  /** The place filter keeps exactly the postings whose place admits it. */
  lemma ByPlaceSound(jobs: seq<Dict>, filter: string, j: Dict)
    requires ByPlace(jobs, filter).Done?
    ensures j in ByPlace(jobs, filter).value <==>
      j in jobs && (filter != "" ==> Place(j).Done? && Admits(Place(j).value, filter))
  {
    if filter != "" {
      if j in jobs && Place(j).Done? && Admits(Place(j).value, filter) {
        TryFilterKeeps(jobs, PlaceTest(filter), j);
      }
    }
  }

  /** A posting open worldwide or anywhere passes every place filter. */
  lemma WorldwidePasses(jobs: seq<Dict>, filter: string, j: Dict)
    requires ByPlace(jobs, filter).Done? && j in jobs && Place(j).Done?
    requires Contains(Place(j).value, "worldwide") || Contains(Place(j).value, "anywhere")
    ensures j in ByPlace(jobs, filter).value
  {
    ByPlaceSound(jobs, filter, j);
  }

  /** The place filter raises exactly when some posting has a truthy
      non-string place. */
  lemma ByPlaceRaises(jobs: seq<Dict>, filter: string)
    requires filter != ""
    ensures ByPlace(jobs, filter).Raised? <==> exists j :: j in jobs && Place(j).Raised?
  {
    TryFilterRaises(jobs, PlaceTest(filter));
  }

  /** `p` is built from one of `data` that passes the place filter and, under
      an age limit, was published after the cutoff. */
  predicate Eligible(data: seq<Dict>, filter: string, s: Settings, env: Env, p: Posting) {
    exists j :: && j in data
                && (filter != "" ==> Place(j).Done? && Admits(Place(j).value, filter))
                && (AgeLimited(s) ==> Published(env, j, PubKey) >= Cutoff(env, s))
                && Build(j) == Done(p)
  }

  /** The results built from the fetched `data`: at most `results_wanted`,
      remote Remotive postings with accepted types, each eligible. */
  lemma ResultsOf(data: seq<Dict>, filter: string, s: Settings, env: Env, ps: seq<Posting>)
    requires ByPlace(data, filter).Done?
    requires MapTry(Window(Recent(ByPlace(data, filter).value, s, env, PubKey), s), Build) == Done(ps)
    ensures s.wanted >= 0 ==> |ps| <= s.wanted
    ensures forall i :: 0 <= i < |ps| ==>
      && ps[i].site == "remotive" && ps[i].isRemote == Bool(true)
      && (ps[i].jobType.Some? ==> ps[i].jobType.value in Kwargs.ValidTypes)
      && Eligible(data, filter, s, env, ps[i])
  {
    var placed := ByPlace(data, filter).value;
    var recent := Recent(placed, s, env, PubKey);
    WindowResults(recent, s, Build, ps);
    forall i | 0 <= i < |ps|
      ensures Eligible(data, filter, s, env, ps[i])
    {
      var j := Window(recent, s)[i];
      ByPlaceSound(data, filter, j);
    }
  }

  /** The results of a scrape: those of `ResultsOf` for the data fetched
      with `Query` and the filter `PlaceFilter` reads. */
  lemma ScrapeResults(params: Dict, fetch: Dict -> Attempt<seq<Dict>>, env: Env, ps: seq<Posting>)
    requires ReadSettings(params).isRemote != Some(false)
    requires Scrape(params, fetch, env) == Done(ps)
    ensures var s := ReadSettings(params);
      && fetch(Query(s)).Done? && PlaceFilter(params).Done?
      && (s.wanted >= 0 ==> |ps| <= s.wanted)
      && forall i :: 0 <= i < |ps| ==>
           && ps[i].site == "remotive" && ps[i].isRemote == Bool(true)
           && (ps[i].jobType.Some? ==> ps[i].jobType.value in Kwargs.ValidTypes)
           && Eligible(fetch(Query(s)).value, PlaceFilter(params).value, s, env, ps[i])
  {
    var s := ReadSettings(params);
    ResultsOf(fetch(Query(s)).value, PlaceFilter(params).value, s, env, ps);
  }
}
