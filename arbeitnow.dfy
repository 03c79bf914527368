/** `scrape_arbeitnow` (api/index.py): the Arbeitnow job board, read page by
    page, then filtered on the gateway's side. */
module Arbeitnow {
  import opened Wrappers
  import opened Text
  import opened Seqs
  import opened PyValue
  import opened Postings
  import opened Vocab

  /** One decoded page: its `data` list and its `links.next` value. */
  datatype Page = Page(jobs: seq<Dict>, next: Value)

  /** The most pages one request to the gateway reads. */
  const MaxPages: int := 5

  /** `query_params`: `search` when a search term is given, `remote` when
      `is_remote` reads as true. */
  function Query(s: Settings): (q: Dict)
    ensures "search" in q <==> Truthy(s.searchTerm)
    ensures "remote" in q <==> s.isRemote == Some(true)
    ensures q.Keys <= {"search", "remote"}
  {
    var q0: Dict := if Truthy(s.searchTerm) then map["search" := s.searchTerm] else map[];
    if s.isRemote == Some(true) then q0["remote" := Str("true")] else q0
  }

  /** `{**query_params, "page": page}`. */
  function Request(q: Dict, page: int): Dict {
    q["page" := Int(page)]
  }

  /** Why the page loop ended. */
  datatype Stop =
    | Enough     // the loop condition: enough postings collected
    | EmptyPage  // a page with no postings
    | LastPage   // a page without `links.next`
    | PageLimit  // page 5 was read

  /** The outcome of the page loop: the postings collected in page order and
      the number of requests made. */
  datatype Fetched = Fetched(jobs: seq<Dict>, requests: int, stop: Stop)

  /** The page loop from page `page` on, with `acc` collected so far. */
  function Pages(fetch: Dict -> Attempt<Page>, q: Dict, want: int, page: int, acc: seq<Dict>): Attempt<Fetched>
    requires 1 <= page <= MaxPages
    decreases MaxPages - page
  {
    if |acc| >= want then Done(Fetched(acc, page - 1, Enough))
    else match fetch(Request(q, page))
      case Raised => Raised
      case Done(p) =>
        if p.jobs == [] then Done(Fetched(acc, page, EmptyPage))
        else if !Truthy(p.next) then Done(Fetched(acc + p.jobs, page, LastPage))
        else if page + 1 > MaxPages then Done(Fetched(acc + p.jobs, page, PageLimit))
        else Pages(fetch, q, want, page + 1, acc + p.jobs)
  }

  /** The `while` loop, one request per iteration. */
  method FetchPages(fetch: Dict -> Attempt<Page>, q: Dict, want: int) returns (r: Attempt<Fetched>)
    ensures r == Pages(fetch, q, want, 1, [])
  {
    var jobs: seq<Dict> := [];
    var page := 1;
    while |jobs| < want
      invariant 1 <= page <= MaxPages
      invariant Pages(fetch, q, want, page, jobs) == Pages(fetch, q, want, 1, [])
      decreases MaxPages - page
    {
      var resp := fetch(Request(q, page));
      if resp.Raised? {
        return Raised;
      }
      var pageJobs := resp.value.jobs;
      if pageJobs == [] {
        return Done(Fetched(jobs, page, EmptyPage));
      }
      jobs := jobs + pageJobs;
      if !Truthy(resp.value.next) {
        return Done(Fetched(jobs, page, LastPage));
      }
      page := page + 1;
      if page > MaxPages {
        return Done(Fetched(jobs, page - 1, PageLimit));
      }
    }
    r := Done(Fetched(jobs, page - 1, Enough));
  }

  /** The postings of page `i`, or none when its request raised. */
  function PageJobs(fetch: Dict -> Attempt<Page>, q: Dict, i: int): seq<Dict> {
    match fetch(Request(q, i))
    case Raised => []
    case Done(p) => p.jobs
  }

  /** The postings of pages `from` to `to`, in page order. */
  function Gathered(fetch: Dict -> Attempt<Page>, q: Dict, from: int, to: int): seq<Dict>
    decreases to - from
  {
    if from > to then [] else PageJobs(fetch, q, from) + Gathered(fetch, q, from + 1, to)
  }

  /** Page `i` was read and asked for another. */
  predicate Continued(fetch: Dict -> Attempt<Page>, q: Dict, i: int) {
    fetch(Request(q, i)).Done? && fetch(Request(q, i)).value.jobs != [] && Truthy(fetch(Request(q, i)).value.next)
  }

  /** One more page: a page with postings and a next link, below the page
      limit, hands on to the next request. */
  lemma PagesNext(fetch: Dict -> Attempt<Page>, q: Dict, want: int, page: int, acc: seq<Dict>)
    requires 1 <= page < MaxPages && |acc| < want && Continued(fetch, q, page)
    ensures Pages(fetch, q, want, page, acc) == Pages(fetch, q, want, page + 1, acc + PageJobs(fetch, q, page))
  {
  }

  /** The first page of a range, split off. */
  lemma GatheredFirst(fetch: Dict -> Attempt<Page>, q: Dict, from: int, to: int)
    requires from <= to
    ensures Gathered(fetch, q, from, to) == PageJobs(fetch, q, from) + Gathered(fetch, q, from + 1, to)
  {
  }

  /** The loop makes at most five requests, none of which raised, and
      collects the postings of the pages it read, in page order. */
  lemma {:induction false} PagesRead(fetch: Dict -> Attempt<Page>, q: Dict, want: int, page: int, acc: seq<Dict>)
    requires 1 <= page <= MaxPages
    requires Pages(fetch, q, want, page, acc).Done?
    ensures var f := Pages(fetch, q, want, page, acc).value;
      && page - 1 <= f.requests <= MaxPages
      && f.jobs == acc + Gathered(fetch, q, page, f.requests)
      && forall i :: page <= i <= f.requests ==> fetch(Request(q, i)).Done?
    decreases MaxPages - page
  {
    assert Gathered(fetch, q, page, page - 1) == [];
    if |acc| < want {
      var jobs := PageJobs(fetch, q, page);
      GatheredFirst(fetch, q, page, page);
      if page < MaxPages && Continued(fetch, q, page) {
        PagesNext(fetch, q, want, page, acc);
        PagesRead(fetch, q, want, page + 1, acc + jobs);
        var f := Pages(fetch, q, want, page, acc).value;
        GatheredFirst(fetch, q, page, f.requests);
        AppendAssoc(acc, jobs, Gathered(fetch, q, page + 1, f.requests));
      }
    }
  }

  /** Each request after the first is made only because the page before it
      had postings and a next link, and every request is made while fewer
      than `want` postings are in hand. */
  lemma {:induction false} PagesContinue(fetch: Dict -> Attempt<Page>, q: Dict, want: int, page: int, acc: seq<Dict>)
    requires 1 <= page <= MaxPages
    requires Pages(fetch, q, want, page, acc).Done?
    ensures var f := Pages(fetch, q, want, page, acc).value;
      && (forall i :: page <= i < f.requests ==> Continued(fetch, q, i))
      && (forall i :: page - 1 <= i < f.requests ==> |acc + Gathered(fetch, q, page, i)| < want)
    decreases MaxPages - page
  {
    assert Gathered(fetch, q, page, page - 1) == [];
    if |acc| < want && page < MaxPages && Continued(fetch, q, page) {
      var jobs := PageJobs(fetch, q, page);
      PagesNext(fetch, q, want, page, acc);
      PagesContinue(fetch, q, want, page + 1, acc + jobs);
      var f := Pages(fetch, q, want, page, acc).value;
      forall i | page <= i < f.requests
        ensures acc + Gathered(fetch, q, page, i) == acc + jobs + Gathered(fetch, q, page + 1, i)
      {
        GatheredFirst(fetch, q, page, i);
        AppendAssoc(acc, jobs, Gathered(fetch, q, page + 1, i));
      }
    }
  }

  /** The loop ends for the reason it reports. */
  lemma {:induction false} PagesStop(fetch: Dict -> Attempt<Page>, q: Dict, want: int, page: int, acc: seq<Dict>)
    requires 1 <= page <= MaxPages
    requires Pages(fetch, q, want, page, acc).Done?
    ensures var f := Pages(fetch, q, want, page, acc).value;
      && (f.stop == Enough ==> |f.jobs| >= want)
      && (f.stop == EmptyPage ==> fetch(Request(q, f.requests)).Done? && fetch(Request(q, f.requests)).value.jobs == [])
      && (f.stop == LastPage ==> fetch(Request(q, f.requests)).Done? && !Truthy(fetch(Request(q, f.requests)).value.next))
      && (f.stop == PageLimit ==> f.requests == MaxPages && Continued(fetch, q, MaxPages))
    decreases MaxPages - page
  {
    if |acc| < want {
      var p := fetch(Request(q, page)).value;
      if p.jobs != [] && Truthy(p.next) && page + 1 <= MaxPages {
        PagesStop(fetch, q, want, page + 1, acc + p.jobs);
      }
    }
  }

  /** From the start: at most five requests, none when nothing is wanted,
      and the postings are those of pages 1 to the last one read. */
  lemma AtMostFivePages(fetch: Dict -> Attempt<Page>, q: Dict, want: int)
    requires Pages(fetch, q, want, 1, []).Done?
    ensures var f := Pages(fetch, q, want, 1, []).value;
      && 0 <= f.requests <= MaxPages
      && f.jobs == Gathered(fetch, q, 1, f.requests)
      && (f.requests == 0 <==> want <= 0)
  {
    PagesRead(fetch, q, want, 1, []);
    var f := Pages(fetch, q, want, 1, []).value;
    assert [] + Gathered(fetch, q, 1, f.requests) == Gathered(fetch, q, 1, f.requests);
  }

  // ---------------------------------------------------------------------
  // Filters and results

  /** The `hours_old` filter on `created_at`. */
  function Recent(jobs: seq<Dict>, s: Settings, env: Env): Attempt<seq<Dict>> {
    if AgeLimited(s) then
      var cutoff := Cutoff(env, s);
      TryFilter(jobs, j => AtLeast(GetDefault(j, "created_at", Int(0)), cutoff))
    else Done(jobs)
  }

  /** `j.get("remote", False)`. */
  function RemoteFlag(j: Dict): Value {
    GetDefault(j, "remote", Bool(false))
  }

  /** The `is_remote` filter: only remote postings when it reads as true,
      only others when it reads as false, all when it is unset. */
  function RemoteFilter(jobs: seq<Dict>, s: Settings): (r: seq<Dict>)
    ensures s.isRemote == Some(true) ==> forall j :: j in r ==> Truthy(RemoteFlag(j))
    ensures s.isRemote == Some(false) ==> forall j :: j in r ==> !Truthy(RemoteFlag(j))
    ensures forall j :: j in r ==> j in jobs
  {
    if s.isRemote == Some(false) then Filter(jobs, j => !Truthy(RemoteFlag(j)))
    else if s.isRemote == Some(true) then Filter(jobs, j => Truthy(RemoteFlag(j)))
    else jobs
  }

  /** `any(tf in (jt or "").lower() for jt in j.get("job_types", []))`. */
  function Mentions(j: Dict, tf: string): Attempt<bool> {
    match Iterate(GetDefault(j, "job_types", List([])))
    case Raised => Raised
    case Done(items) => AnyTry(items, MentionedIn(tf))
  }

  /** `tf in (jt or "").lower()`; a truthy non-string has no `.lower()`. */
  function MentionedIn(tf: string): Value -> Attempt<bool> {
    jt => match TextOr(jt) case Raised => Raised case Done(t) => Done(Contains(Lower(t), tf))
  }

  /** The `job_type` filter, skipped when `job_type` is falsy; the raw
      request value is used, so no check has made it one of the four
      types. */
  function TypeFilter(jobs: seq<Dict>, jobType: Value): Attempt<seq<Dict>> {
    if !Truthy(jobType) then Done(jobs)
    else match ArbeitnowNeedle(jobType)
      case Raised => Raised
      case Done(tf) => TryFilter(jobs, j => Mentions(j, tf))
  }

  /** One result of the loop; joining `job_types` raises when one of them is
      not a string. */
  function Build(env: Env, j: Dict): (r: Attempt<Posting>)
    ensures r.Done? ==> r.value.site == "arbeitnow" && r.value.isRemote == RemoteFlag(j)
  {
    var created := Get(j, "created_at");
    var datePosted :=
      if Truthy(created) then (match env.isoDate(created) case Some(d) => Str(d) case None => Null)
      else Null;
    match Label(GetDefault(j, "job_types", List([])))
    case Raised => Raised
    case Done(kind) =>
      Done(Posting(
        title := OrNone(Get(j, "title")),
        company := OrNone(Get(j, "company_name")),
        site := "arbeitnow",
        jobUrl := OrNone(Get(j, "url")),
        city := OrNone(Get(j, "location")),
        isRemote := RemoteFlag(j),
        jobType := kind,
        jobLevel := Null,
        datePosted := datePosted,
        salary := None,
        description := OrNone(Get(j, "description")),
        skills := Or(Get(j, "tags"), List([])),
        companyIndustry := Null))
  }

  /** `Build` for a fixed environment, as the loop applies it. */
  function Builder(env: Env): Dict -> Attempt<Posting> {
    j => Build(env, j)
  }

  /** A posting the `fulltime` filter keeps is labelled `fulltime`: the word
      it was kept for is one the classifier tries first. (For the other
      types this fails: a posting listing both "Full-time" and "Part-time"
      passes the `parttime` filter and is labelled `fulltime`.) */
  lemma FullTimeKept(env: Env, j: Dict)
    requires Mentions(j, ArbeitnowNeedle(Str("fulltime")).value) == Done(true)
    requires Build(env, j).Done?
    ensures Build(env, j).value.jobType == Some("fulltime")
  {
    FullTimeNeedle();
    var v := GetDefault(j, "job_types", List([]));
    FullTimeLabel(v);
    assert Build(env, j).value.jobType == Label(v).value;
  }

  /** The same on the `job_types` value alone. */
  lemma FullTimeLabel(v: Value)
    requires Iterate(v).Done? && AnyTry(Iterate(v).value, MentionedIn("full-time")) == Done(true)
    requires Label(v).Done?
    ensures Label(v).value == Some("fulltime")
  {
    var items := Iterate(v).value;
    var parts := AllText(items).value;
    assert JoinText(v, " ") == Done(Join(parts, " "));
    var k :| 0 <= k < |items| && MentionedIn("full-time")(items[k]) == Done(true);
    assert items[k] == Str(parts[k]);
    assert Contains(Lower(parts[k]), "full-time");
    FullInFullTime(Lower(parts[k]));
    ClassifyFullWins(parts, k);
    assert Label(v).value == Classify(Lower(Join(parts, " ")));
  }

  /** The filters after the page loop, in the source's order. */
  function Filtered(params: Dict, jobs: seq<Dict>, s: Settings, env: Env): Attempt<seq<Dict>> {
    match Recent(jobs, s, env)
    case Raised => Raised
    case Done(recent) => TypeFilter(RemoteFilter(recent, s), Get(params, "job_type"))
  }

  /** The page loop of one request to the gateway. */
  function Fetch(fetch: Dict -> Attempt<Page>, s: Settings): Attempt<Fetched> {
    Pages(fetch, Query(s), s.offset + s.wanted, 1, [])
  }

  /** What survives the filters: postings of the pages read, remote exactly
      as `is_remote` asks when it is set, and mentioning the requested
      type's word when a `job_type` is given. */
  lemma FilteredSound(params: Dict, jobs: seq<Dict>, s: Settings, env: Env)
    requires Filtered(params, jobs, s, env).Done?
    ensures forall j :: j in Filtered(params, jobs, s, env).value ==>
      && j in jobs
      && (s.isRemote == Some(true) ==> Truthy(RemoteFlag(j)))
      && (s.isRemote == Some(false) ==> !Truthy(RemoteFlag(j)))
      && (Truthy(Get(params, "job_type")) ==> Mentions(j, ArbeitnowNeedle(Get(params, "job_type")).value) == Done(true))
  {
  }

  /** The steps after the page loop: the filters, the window and the loop
      over the postings `read`. */
  function FromPages(params: Dict, read: seq<Dict>, s: Settings, env: Env): Attempt<seq<Posting>> {
    match Filtered(params, read, s, env)
    case Raised => Raised
    case Done(jobs) => MapTry(Window(jobs, s), Builder(env))
  }

  /** `scrape_arbeitnow(params)`, with one page request as `fetch`. */
  function Scrape(params: Dict, fetch: Dict -> Attempt<Page>, env: Env): Attempt<seq<Posting>> {
    var s := ReadSettings(params);
    match Fetch(fetch, s)
    case Raised => Raised
    case Done(f) => FromPages(params, f.jobs, s, env)
  }

  /** A successful scrape went through every step. */
  lemma ScrapeSteps(params: Dict, fetch: Dict -> Attempt<Page>, env: Env)
    requires Scrape(params, fetch, env).Done?
    ensures var s := ReadSettings(params);
      && Fetch(fetch, s).Done?
      && Filtered(params, Fetch(fetch, s).value.jobs, s, env).Done?
      && MapTry(Window(Filtered(params, Fetch(fetch, s).value.jobs, s, env).value, s), Builder(env)) == Scrape(params, fetch, env)
  {
  }

  method ScrapeArbeitnow(params: Dict, fetch: Dict -> Attempt<Page>, env: Env) returns (r: Attempt<seq<Posting>>)
    ensures r == Scrape(params, fetch, env)
  {
    var s := ReadSettings(params);
    var fetched := FetchAll(fetch, s);
    ScrapeAfter(params, fetch, env, fetched);
    if fetched.Raised? {
      return Raised;
    }
    r := Finish(params, fetched.value.jobs, s, env);
  }

  /** The page loop for the settings of a request. */
  method FetchAll(fetch: Dict -> Attempt<Page>, s: Settings) returns (r: Attempt<Fetched>)
    ensures r == Fetch(fetch, s)
  {
    r := FetchPages(fetch, Query(s), s.offset + s.wanted);
  }

  /** A scrape is the page loop's outcome followed by `FromPages`. */
  lemma ScrapeAfter(params: Dict, fetch: Dict -> Attempt<Page>, env: Env, fetched: Attempt<Fetched>)
    requires fetched == Fetch(fetch, ReadSettings(params))
    ensures fetched.Raised? ==> Scrape(params, fetch, env) == Raised
    ensures fetched.Done? ==> Scrape(params, fetch, env) == FromPages(params, fetched.value.jobs, ReadSettings(params), env)
  {
  }

  /** The filters and the loop over the postings the pages gave. */
  method Finish(params: Dict, read: seq<Dict>, s: Settings, env: Env) returns (r: Attempt<seq<Posting>>)
    ensures r == FromPages(params, read, s, env)
  {
    var jobs := Filtered(params, read, s, env);
    if jobs.Raised? {
      return Raised;
    }
    r := Collect(Window(jobs.value, s), Builder(env));
  }

  /** `p` is the result built from one of `jobs`. */
  predicate BuiltFrom(env: Env, jobs: seq<Dict>, p: Posting) {
    exists j :: j in jobs && Build(env, j) == Done(p)
  }

  /** The results built from the postings `read`: at most
      `results_wanted`, Arbeitnow postings only, each built from one of
      `read`, remote exactly as `is_remote` asks when it is set, and
      mentioning the requested type's word when a `job_type` is given. */
  lemma ResultsOf(params: Dict, read: seq<Dict>, s: Settings, env: Env, ps: seq<Posting>)
    requires Filtered(params, read, s, env).Done?
    requires MapTry(Window(Filtered(params, read, s, env).value, s), Builder(env)) == Done(ps)
    ensures s.wanted >= 0 ==> |ps| <= s.wanted
    ensures forall i :: 0 <= i < |ps| ==>
      && ps[i].site == "arbeitnow"
      && (s.isRemote == Some(true) ==> Truthy(ps[i].isRemote))
      && (s.isRemote == Some(false) ==> !Truthy(ps[i].isRemote))
      && BuiltFrom(env, read, ps[i])
      && exists j :: j in read && Build(env, j) == Done(ps[i])
           && (Truthy(Get(params, "job_type")) ==> Mentions(j, ArbeitnowNeedle(Get(params, "job_type")).value) == Done(true))
  {
    var jobs := Filtered(params, read, s, env).value;
    FilteredSound(params, read, s, env);
    WindowResults(jobs, s, Builder(env), ps);
    forall i | 0 <= i < |ps|
      ensures exists j :: j in read && Build(env, j) == Done(ps[i])
                && (Truthy(Get(params, "job_type")) ==> Mentions(j, ArbeitnowNeedle(Get(params, "job_type")).value) == Done(true))
    {
      var j := Window(jobs, s)[i];
      assert Builder(env)(j) == Done(ps[i]);
      assert j in jobs;
    }
  }

  /** The results of a scrape: those of `ResultsOf`, drawn from the pages
      the loop read (at most five, by `AtMostFivePages`). */
  lemma ScrapeResults(params: Dict, fetch: Dict -> Attempt<Page>, env: Env, ps: seq<Posting>)
    requires Scrape(params, fetch, env) == Done(ps)
    ensures var s := ReadSettings(params);
      && Fetch(fetch, s).Done?
      && (s.wanted >= 0 ==> |ps| <= s.wanted)
      && forall i :: 0 <= i < |ps| ==>
           && ps[i].site == "arbeitnow"
           && (s.isRemote == Some(true) ==> Truthy(ps[i].isRemote))
           && (s.isRemote == Some(false) ==> !Truthy(ps[i].isRemote))
           && BuiltFrom(env, Fetch(fetch, s).value.jobs, ps[i])
  {
    var s := ReadSettings(params);
    ScrapeSteps(params, fetch, env);
    ResultsOf(params, Fetch(fetch, s).value.jobs, s, env, ps);
  }
}
