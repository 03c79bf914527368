/** What the four direct sources of api/index.py share: the normalised
    posting each one builds, the outside world they are given, the request
    settings they all read, and the shape of their last two steps (the page
    window and the loop that builds the results). */
module Postings {
  import opened Wrappers
  import opened Text
  import opened Seqs
  import opened PyValue
  import opened Coerce

  /** The `salary` object of a posting. */
  datatype Salary = Salary(minAmount: Value, maxAmount: Value, interval: Value, currency: Value)

  /** One posting as a direct source returns it. The `state`, `country`,
      `emails` and `company_url` fields are `None` in every source and are
      not kept. */
  datatype Posting = Posting(
    title: Value,
    company: Value,
    site: string,
    jobUrl: Value,
    city: Value,
    isRemote: Value,
    jobType: Option<string>,
    jobLevel: Value,
    datePosted: Value,
    salary: Option<Salary>,
    description: Value,
    skills: Value,
    companyIndustry: Value)

  /** The parts of the world the sources consult: the clock (`time.time()`,
      in whole seconds), `dateutil` parsing to a timestamp (`None` where it
      raises), `date.fromtimestamp(v).isoformat()` (`None` where it raises)
      and `html.unescape`. */
  datatype Env = Env(
    now: int,
    parseDate: Value -> Option<int>,
    isoDate: Value -> Option<string>,
    unescape: string -> string)

  /** The request settings every source reads the same way. */
  datatype Settings = Settings(
    searchTerm: Value,
    wanted: int,
    hours: Option<int>,
    offset: int,
    isRemote: Option<bool>)

  /** `params.get("search_term", "") or ""`, `_int(results_wanted, 15)`,
      `_int(hours_old)`, `_int(offset, 0)` and `_bool(is_remote)`. */
  function ReadSettings(params: Dict): (s: Settings)
    ensures !Truthy(Get(params, "search_term")) ==> s.searchTerm == Str("")
    ensures Truthy(s.searchTerm) ==> s.searchTerm == Get(params, "search_term")
    ensures Get(params, "results_wanted") == Null ==> s.wanted == 15
    ensures Get(params, "offset") == Null ==> s.offset == 0
    ensures s.isRemote.None? <==> Get(params, "is_remote") == Null
  {
    Settings(
      Or(Get(params, "search_term"), Str("")),
      IntOr(Get(params, "results_wanted"), 15),
      CoerceInt(Get(params, "hours_old"), None),
      IntOr(Get(params, "offset"), 0),
      CoerceBool(Get(params, "is_remote")))
  }

  /** `if hours_old:` */
  predicate AgeLimited(s: Settings) {
    s.hours.Some? && s.hours.value != 0
  }

  /** `time.time() - hours_old * 3600`. */
  function Cutoff(env: Env, s: Settings): int
    requires AgeLimited(s)
  {
    env.now - s.hours.value * 3600
  }

  /** `(params.get(key) or "").strip()`; a truthy non-string has no
      `.strip()`. */
  function StrippedParam(params: Dict, key: string): (r: Attempt<string>)
    ensures r.Raised? <==> Truthy(Get(params, key)) && !Get(params, key).Str?
    ensures r.Done? ==> r.value == Strip(if Get(params, key).Str? then Get(params, key).s else "")
  {
    match TextOr(Get(params, key))
    case Raised => Raised
    case Done(t) => Done(Strip(t))
  }

  /** `_pub_ts(j)`: the parsed date under `key` (missing reads as ""), 0
      where parsing fails. */
  function Published(env: Env, j: Dict, key: string): int {
    env.parseDate(GetDefault(j, key, Str(""))).GetOr(0)
  }

  /** The `hours_old` filter of Remotive and Jobicy; it never raises, since
      a date that cannot be parsed reads as 0. */
  function Recent(jobs: seq<Dict>, s: Settings, env: Env, key: string): (r: seq<Dict>)
    ensures AgeLimited(s) ==> forall j :: j in r <==> j in jobs && Published(env, j, key) >= Cutoff(env, s)
    ensures !AgeLimited(s) ==> r == jobs
  {
    if AgeLimited(s) then
      var cutoff := Cutoff(env, s);
      Filter(jobs, j => Published(env, j, key) >= cutoff)
    else jobs
  }

  /** `jobs[offset : offset + results_wanted]`. */
  function Window<T>(xs: seq<T>, s: Settings): seq<T> {
    PySlice(xs, s.offset, s.offset + s.wanted)
  }

  /** A page never holds more than `results_wanted` postings when that is
      not negative, and holds only postings of the list it cuts. */
  lemma WindowBound<T>(xs: seq<T>, s: Settings)
    requires s.wanted >= 0
    ensures |Window(xs, s)| <= s.wanted
  {
    PageBound(xs, s.offset, s.wanted);
  }

  lemma WindowMember<T>(xs: seq<T>, s: Settings, x: T)
    requires x in Window(xs, s)
    ensures x in xs
  {
    PageMember(xs, s.offset, s.offset + s.wanted, x);
  }

  /** The results built from a window: at most `results_wanted` of them,
      each one built from a posting of the list the window cuts. */
  lemma WindowResults<T>(jobs: seq<Dict>, s: Settings, f: Dict -> Attempt<T>, ps: seq<T>)
    requires MapTry(Window(jobs, s), f) == Done(ps)
    ensures s.wanted >= 0 ==> |ps| <= s.wanted
    ensures forall i :: 0 <= i < |ps| ==> Window(jobs, s)[i] in jobs && f(Window(jobs, s)[i]) == Done(ps[i])
  {
    if s.wanted >= 0 {
      WindowBound(jobs, s);
    }
    forall i | 0 <= i < |ps|
      ensures Window(jobs, s)[i] in jobs
    {
      WindowMember(jobs, s, Window(jobs, s)[i]);
    }
  }

  /** `results = []; for j in jobs: results.append(f(j))`, where building
      one result may raise and so end the loop. */
  method Collect<T>(jobs: seq<Dict>, f: Dict -> Attempt<T>) returns (r: Attempt<seq<T>>)
    ensures r == MapTry(jobs, f)
  {
    var results: seq<T> := [];
    for i := 0 to |jobs|
      invariant MapTry(jobs[..i], f) == Done(results)
    {
      assert jobs[..i + 1][..i] == jobs[..i];
      var one := f(jobs[i]);
      if one.Raised? {
        MapTryPrefixRaised(jobs, f, i + 1);
        return Raised;
      }
      results := results + [one.value];
    }
    assert jobs[..|jobs|] == jobs;
    r := Done(results);
  }
}
