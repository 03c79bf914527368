/** `_build_kwargs` (api/index.py): a flat parameter dictionary checked and
    turned into the keyword arguments of the scraping library. */
module Kwargs {
  import opened Wrappers
  import opened Text
  import opened Seqs
  import opened PyValue
  import opened Coerce
  import opened Sites
  import opened Errors

  /** `VALID_TYPES` without its `None` member, which a truthy `job_type`
      never equals. */
  const ValidTypes: set<string> := {"fulltime", "parttime", "internship", "contract"}

  /** `VALID_FORMATS`. */
  const ValidFormats: set<string> := {"markdown", "html"}

  /** The keys every kwargs dictionary has. */
  const BaseKeys: set<string> :=
    {"site_name", "results_wanted", "distance", "description_format", "offset",
     "linkedin_fetch_description", "enforce_annual_salary", "verbose"}

  /** The keys set only when the request supplies them, in the order the
      source sets them. */
  datatype OptionalKey =
    | SearchTerm | GoogleSearchTerm | Location | JobType | IsRemote | HoursOld
    | EasyApply | CountryIndeed | Proxies | UserAgent | LinkedinCompanyIds
  {
    function Name(): string {
      match this
      case SearchTerm => "search_term"
      case GoogleSearchTerm => "google_search_term"
      case Location => "location"
      case JobType => "job_type"
      case IsRemote => "is_remote"
      case HoursOld => "hours_old"
      case EasyApply => "easy_apply"
      case CountryIndeed => "country_indeed"
      case Proxies => "proxies"
      case UserAgent => "user_agent"
      case LinkedinCompanyIds => "linkedin_company_ids"
    }
  }

  /** The keyword arguments and the site list they name. */
  datatype KwargsOut = KwargsOut(kwargs: Dict, sites: seq<string>)

  /** `v not in valid` for a set of strings: a list is unhashable and raises
      `TypeError`; a value of another type equals no member. */
  function OutsideSet(v: Value, valid: set<string>): (r: Attempt<bool>)
    ensures r == Raised <==> v.List?
    ensures r == Done(false) <==> v.Str? && v.s in valid
  {
    match v
    case List(_) => Raised
    case Str(s) => Done(s !in valid)
    case _ => Done(true)
  }

  /** `params.get("job_type") or None`. */
  function RequestedJobType(params: Dict): Value {
    OrNone(Get(params, JobType.Name()))
  }

  /** `params.get("description_format") or "markdown"`. */
  function RequestedFormat(params: Dict): Value {
    Or(Get(params, "description_format"), Str("markdown"))
  }

  function JobTypeMessage(jobType: Value): string {
    "Invalid job_type '" + ToText(jobType) + "'. Valid: fulltime, parttime, internship, contract"
  }

  function FormatMessage(format: Value): string {
    "Invalid description_format '" + ToText(format) + "'. Valid: markdown, html"
  }

  /** `_bool(v) or False`: always a real boolean. */
  function Flag(v: Value): (r: Value)
    ensures r.Bool? && (r.b <==> CoerceBool(v) == Some(true))
  {
    Bool(CoerceBool(v) == Some(true))
  }

  /** A Python value for an optional integer. */
  function IntOrNull(o: Option<int>): (r: Value)
    ensures o.Some? ==> r == Int(o.value)
    ensures o.None? ==> r == Null
  {
    match o
    case Some(n) => Int(n)
    case None => Null
  }

  /** A Python value for an optional list, strings or integers. */
  function StrsOrNull(o: Option<seq<string>>): Value {
    match o
    case Some(xs) => StrList(xs)
    case None => Null
  }

  function IntsOrNull(o: Option<seq<int>>): (r: Value)
    ensures o.Some? ==> r.List? && |r.items| == |o.value|
    ensures o.Some? ==> forall k :: 0 <= k < |o.value| ==> r.items[k] == Int(o.value[k])
    ensures o.None? ==> r == Null
  {
    match o
    case Some(xs) => List(seq(|xs|, k requires 0 <= k < |xs| => Int(xs[k])))
    case None => Null
  }

  /** The entries every kwargs dictionary has. */
  function BaseKwargs(params: Dict, sites: seq<string>, format: Value): (m: Dict)
    ensures m.Keys == BaseKeys
  {
    map[
      "site_name" := StrList(sites),
      "results_wanted" := Int(IntOr(Get(params, "results_wanted"), 15)),
      "distance" := Int(IntOr(Get(params, "distance"), 50)),
      "description_format" := format,
      "offset" := Int(IntOr(Get(params, "offset"), 0)),
      "linkedin_fetch_description" := Flag(Get(params, "linkedin_fetch_description")),
      "enforce_annual_salary" := Flag(Get(params, "enforce_annual_salary")),
      "verbose" := Int(0)]
  }

  // The value each optional key gets, or `None` when the key stays out.

  /** The keys copied unchanged when their value is truthy. */
  function CopiedEntry(params: Dict, k: OptionalKey): Option<Value> {
    var v := Get(params, k.Name());
    if Truthy(v) then Some(v) else None
  }

  function JobTypeEntry(jobType: Value): Option<Value> {
    if Truthy(jobType) then Some(jobType) else None
  }

  /** `is_remote` and `easy_apply`: set whenever given, as `_bool` reads
      them. */
  function FlagEntry(params: Dict, k: OptionalKey): (r: Option<Value>)
    ensures r.Some? ==> r.value.Bool?
  {
    var v := Get(params, k.Name());
    if v != Null then Some(Bool(CoerceBool(v).value)) else None
  }

  function HoursEntry(params: Dict): Option<Value> {
    var v := Get(params, HoursOld.Name());
    if Truthy(v) then Some(IntOrNull(CoerceInt(v, None))) else None
  }

  function ProxiesEntry(params: Dict): Option<Value> {
    var v := Get(params, Proxies.Name());
    if Truthy(v) then Some(StrsOrNull(CsvList(v, CastStr))) else None
  }

  /** `linkedin_company_ids`: text is read as comma-separated integers, any
      other value is passed on unchanged. */
  function CompanyIdsEntry(params: Dict): Option<Value> {
    var v := Get(params, LinkedinCompanyIds.Name());
    if Truthy(v) then Some(if v.Str? then IntsOrNull(CsvList(v, CastInt)) else v) else None
  }

  /** `m[k] = v` when the entry is present. */
  function Put(m: Dict, k: OptionalKey, o: Option<Value>): (r: Dict)
    ensures o.Some? ==> r == m[k.Name() := o.value]
    ensures o.None? ==> r == m
  {
    if o.Some? then m[k.Name() := o.value] else m
  }

  /** The base entries, then each optional key whose entry is present. */
  function Assemble(params: Dict, sites: seq<string>, format: Value, jobType: Value): Dict {
    AddOptional(params, jobType, BaseKwargs(params, sites, format))
  }

  /** The optional keys in the order the source sets them. */
  const Order: seq<OptionalKey> :=
    [SearchTerm, GoogleSearchTerm, Location, JobType, IsRemote, HoursOld,
     EasyApply, CountryIndeed, Proxies, UserAgent, LinkedinCompanyIds]

  /** The value the source gives key `k`, or `None` when it leaves `k` out. */
  function EntryOf(params: Dict, jobType: Value, k: OptionalKey): Option<Value> {
    match k
    case JobType => JobTypeEntry(jobType)
    case IsRemote => FlagEntry(params, k)
    case EasyApply => FlagEntry(params, k)
    case HoursOld => HoursEntry(params)
    case Proxies => ProxiesEntry(params)
    case LinkedinCompanyIds => CompanyIdsEntry(params)
    case _ => CopiedEntry(params, k)
  }

  /** `EntryOf` for one request, as a function of the key. */
  function Entries(params: Dict, jobType: Value): OptionalKey -> Option<Value> {
    k => EntryOf(params, jobType, k)
  }

  /** `m` with the entries of `keys` set one after the other. */
  function PutAll(m: Dict, keys: seq<OptionalKey>, entries: OptionalKey -> Option<Value>): Dict
    decreases |keys|
  {
    if keys == [] then m
    else
      var k := keys[|keys| - 1];
      Put(PutAll(m, keys[..|keys| - 1], entries), k, entries(k))
  }

  lemma PutAllSnoc(m: Dict, keys: seq<OptionalKey>, entries: OptionalKey -> Option<Value>, i: nat)
    requires i < |keys|
    ensures PutAll(m, keys[..i + 1], entries) == Put(PutAll(m, keys[..i], entries), keys[i], entries(keys[i]))
  {
    assert keys[..i + 1][..i] == keys[..i];
  }

  /** `m0` with each optional key whose entry is present set, in the order
      the source sets them. */
  function AddOptional(params: Dict, jobType: Value, m0: Dict): Dict {
    PutAll(m0, Order, Entries(params, jobType))
  }

  /** What the checks of `_build_kwargs` hand on to the dictionary part. */
  datatype Checked = Checked(sites: seq<string>, jobType: Value, format: Value)

  /** `if v not in valid: raise HTTPException(400, message)`, where a list
      `v` raises `TypeError` instead; `None` when `v` passes. */
  function Reject(v: Value, valid: set<string>, message: string): (r: Option<ApiError>)
    ensures r == Some(Unhandled("TypeError")) <==> v.List?
    ensures r == None <==> v.Str? && v.s in valid
    ensures r.Some? && !v.List? ==> r == Some(BadRequest(message))
  {
    match OutsideSet(v, valid)
    case Raised => Some(Unhandled("TypeError"))
    case Done(outside) => if outside then Some(BadRequest(message)) else None
  }

  /** The `job_type` check: skipped when `job_type` is falsy. */
  function RejectJobType(jobType: Value): Option<ApiError> {
    if Truthy(jobType) then Reject(jobType, ValidTypes, JobTypeMessage(jobType)) else None
  }

  function RejectFormat(format: Value): Option<ApiError> {
    Reject(format, ValidFormats, FormatMessage(format))
  }

  /** `_csv_list(params.get("site_name")) or sorted(JOBSPY_SITES)`. */
  function SiteName(params: Dict): (r: seq<string>)
    ensures r != []
  {
    RequestedOr(Get(params, "site_name"), SortedJobspySites)
  }

  /** The checks of `_build_kwargs` on the values it reads: the sites first,
      then `job_type`, then `description_format`. */
  function Check(sites: seq<string>, jobType: Value, format: Value): Result<Checked, ApiError> {
    var invalid := Invalid(sites, JobspySites);
    if invalid != [] then Err(BadRequest(UnknownSitesMessage(invalid, SortedJobspySites)))
    else if RejectJobType(jobType).Some? then Err(RejectJobType(jobType).value)
    else if RejectFormat(format).Some? then Err(RejectFormat(format).value)
    else Ok(Checked(sites, jobType, format))
  }

  function Validate(params: Dict): Result<Checked, ApiError> {
    Check(SiteName(params), RequestedJobType(params), RequestedFormat(params))
  }

  /** `_build_kwargs(params)`: the checks, then the dictionary. */
  function KwargsFor(params: Dict): Result<KwargsOut, ApiError> {
    match Validate(params)
    case Err(e) => Err(e)
    case Ok(c) => Ok(KwargsOut(Assemble(params, c.sites, c.format, c.jobType), c.sites))
  }

  /** `_build_kwargs` as its source runs: checks, then the dictionary filled
      one key at a time. */
  method BuildKwargs(params: Dict) returns (r: Result<KwargsOut, ApiError>)
    ensures r == KwargsFor(params)
  {
    var checked := CheckParams(params);
    if checked.Err? {
      return Err(checked.error);
    }
    var c := checked.value;
    var kwargs := FillKwargs(params, c.jobType, BaseKwargs(params, c.sites, c.format));
    r := Ok(KwargsOut(kwargs, c.sites));
  }

  /** The checks as the source runs them, returning at the first failure. */
  method CheckParams(params: Dict) returns (r: Result<Checked, ApiError>)
    ensures r == Validate(params)
  {
    var sites := SiteName(params);
    var invalid := Invalid(sites, JobspySites);
    if invalid != [] {
      return Err(BadRequest(UnknownSitesMessage(invalid, SortedJobspySites)));
    }
    var jobType := RequestedJobType(params);
    var format := RequestedFormat(params);
    var rejected := RejectJobType(jobType);
    if rejected.Some? {
      return Err(rejected.value);
    }
    rejected := RejectFormat(format);
    if rejected.Some? {
      return Err(rejected.value);
    }
    r := Ok(Checked(sites, jobType, format));
  }

  /** The dictionary part of `_build_kwargs`, once the checks have passed:
      the optional keys one at a time, in the order the source sets them. */
  method FillKwargs(params: Dict, jobType: Value, base: Dict) returns (kwargs: Dict)
    ensures kwargs == AddOptional(params, jobType, base)
  {
    ghost var entries := Entries(params, jobType);
    kwargs := base;
    for i := 0 to |Order|
      invariant kwargs == PutAll(base, Order[..i], entries)
    {
      PutAllSnoc(base, Order, entries, i);
      kwargs := SetKey(params, jobType, kwargs, Order[i]);
    }
    assert Order[..|Order|] == Order;
  }

  /** The source line that sets key `k`. */
  method SetKey(params: Dict, jobType: Value, kwargs: Dict, k: OptionalKey) returns (r: Dict)
    ensures r == Put(kwargs, k, EntryOf(params, jobType, k))
  {
    match k {
      case JobType => r := SetJobType(kwargs, jobType);
      case IsRemote => r := SetFlagIfGiven(params, kwargs, k);
      case EasyApply => r := SetFlagIfGiven(params, kwargs, k);
      case HoursOld => r := SetHoursOld(params, kwargs);
      case Proxies => r := SetProxies(params, kwargs);
      case LinkedinCompanyIds => r := SetCompanyIds(params, kwargs);
      case _ => r := CopyIfTruthy(params, kwargs, k);
    }
  }

  /** `if params.get(k): kwargs[k] = params[k]`. */
  method CopyIfTruthy(params: Dict, kwargs: Dict, k: OptionalKey) returns (r: Dict)
    ensures r == Put(kwargs, k, CopiedEntry(params, k))
  {
    r := kwargs;
    if Truthy(Get(params, k.Name())) {
      r := r[k.Name() := params[k.Name()]];
    }
  }

  /** `if params.get(k) is not None: kwargs[k] = _bool(params[k])`. */
  method SetFlagIfGiven(params: Dict, kwargs: Dict, k: OptionalKey) returns (r: Dict)
    ensures r == Put(kwargs, k, FlagEntry(params, k))
  {
    r := kwargs;
    var v := Get(params, k.Name());
    if v != Null {
      r := r[k.Name() := Bool(CoerceBool(v).value)];
    }
  }

  /** `if job_type: kwargs["job_type"] = job_type`. */
  method SetJobType(kwargs: Dict, jobType: Value) returns (r: Dict)
    ensures r == Put(kwargs, JobType, JobTypeEntry(jobType))
  {
    r := kwargs;
    if Truthy(jobType) {
      r := r[JobType.Name() := jobType];
    }
  }

  /** The `hours_old` line. */
  method SetHoursOld(params: Dict, kwargs: Dict) returns (r: Dict)
    ensures r == Put(kwargs, HoursOld, HoursEntry(params))
  {
    r := kwargs;
    var hours := Get(params, HoursOld.Name());
    if Truthy(hours) {
      r := r[HoursOld.Name() := IntOrNull(CoerceInt(hours, None))];
    }
  }

  /** The `proxies` line. */
  method SetProxies(params: Dict, kwargs: Dict) returns (r: Dict)
    ensures r == Put(kwargs, Proxies, ProxiesEntry(params))
  {
    r := kwargs;
    var proxies := Get(params, Proxies.Name());
    if Truthy(proxies) {
      var list := ReadCsvList(proxies, CastStr);
      r := r[Proxies.Name() := StrsOrNull(list)];
    }
  }

  /** The `linkedin_company_ids` block. */
  method SetCompanyIds(params: Dict, kwargs: Dict) returns (r: Dict)
    ensures r == Put(kwargs, LinkedinCompanyIds, CompanyIdsEntry(params))
  {
    r := kwargs;
    var lci := Get(params, LinkedinCompanyIds.Name());
    if Truthy(lci) {
      if lci.Str? {
        var ids := ReadCsvList(lci, CastInt);
        r := r[LinkedinCompanyIds.Name() := IntsOrNull(ids)];
      } else {
        r := r[LinkedinCompanyIds.Name() := lci];
      }
    }
  }

  // ---------------------------------------------------------------------
  // Properties of the dictionary

  /** Different optional keys have different names. */
  lemma NameInjective(j: OptionalKey, k: OptionalKey)
    ensures j.Name() == k.Name() ==> j == k
  {
  }

  /** Writing key `j` leaves every other key as it was. */
  lemma PutAt(m: Dict, j: OptionalKey, o: Option<Value>, k: OptionalKey)
    ensures k.Name() in Put(m, j, o) <==> k.Name() in m || (j == k && o.Some?)
    ensures j == k && o.Some? ==> Put(m, j, o)[k.Name()] == o.value
    ensures !(j == k && o.Some?) && k.Name() in m ==> Put(m, j, o)[k.Name()] == m[k.Name()]
  {
    NameInjective(j, k);
  }

  /** The keys of `Order` are all the optional keys, each once. */
  lemma OrderComplete(k: OptionalKey)
    ensures k in Order
  {
  }

  lemma OrderDistinct()
    ensures forall i, j :: 0 <= i < j < |Order| ==> Order[i] != Order[j]
  {
  }

  /** After setting `keys` (no key twice), each key of `keys` that has an
      entry holds it; every other key is as in `m`. */
  lemma {:induction false} PutAllAt(m: Dict, keys: seq<OptionalKey>, entries: OptionalKey -> Option<Value>, k: OptionalKey)
    requires forall i, j :: 0 <= i < j < |keys| ==> keys[i] != keys[j]
    ensures var r := PutAll(m, keys, entries);
      && (k.Name() in r <==> k.Name() in m || (k in keys && entries(k).Some?))
      && (k in keys && entries(k).Some? ==> r[k.Name()] == entries(k).value)
      && (!(k in keys && entries(k).Some?) && k.Name() in m ==> r[k.Name()] == m[k.Name()])
    decreases |keys|
  {
    if keys != [] {
      var init := keys[..|keys| - 1];
      var last := keys[|keys| - 1];
      PutAllAt(m, init, entries, k);
      PutAt(PutAll(m, init, entries), last, entries(last), k);
      assert k in keys <==> k in init || k == last by {
        assert keys == init + [last];
      }
    }
  }

  /** Each optional key ends up with its own entry when it has one, and is
      otherwise left as it was in `m0`: no later key overwrites an earlier
      one. */
  lemma AddOptionalAt(params: Dict, jobType: Value, m0: Dict, k: OptionalKey)
    ensures var e := EntryOf(params, jobType, k); var m := AddOptional(params, jobType, m0);
      && (k.Name() in m <==> k.Name() in m0 || e.Some?)
      && (e.Some? ==> m[k.Name()] == e.value)
      && (e.None? && k.Name() in m0 ==> m[k.Name()] == m0[k.Name()])
  {
    OrderComplete(k);
    OrderDistinct();
    PutAllAt(m0, Order, Entries(params, jobType), k);
  }

  /** No optional key is named like a base key. */
  lemma BaseNotOptional(key: string)
    requires key in BaseKeys
    ensures forall k: OptionalKey :: k.Name() != key
  {
  }

  /** Setting optional keys leaves a key no optional key is named like as
      it was. */
  lemma {:induction false} PutAllKeeps(m: Dict, keys: seq<OptionalKey>, entries: OptionalKey -> Option<Value>, key: string)
    requires forall k: OptionalKey :: k.Name() != key
    ensures key in PutAll(m, keys, entries) <==> key in m
    ensures key in m ==> PutAll(m, keys, entries)[key] == m[key]
    decreases |keys|
  {
    if keys != [] {
      PutAllKeeps(m, keys[..|keys| - 1], entries, key);
    }
  }

  /** Every key of the result is a key of `m` or the name of one of `keys`. */
  lemma {:induction false} PutAllKeys(m: Dict, keys: seq<OptionalKey>, entries: OptionalKey -> Option<Value>, key: string)
    requires key in PutAll(m, keys, entries)
    ensures key in m || exists i :: 0 <= i < |keys| && keys[i].Name() == key
    decreases |keys|
  {
    if keys != [] {
      var init := keys[..|keys| - 1];
      if key in PutAll(m, init, entries) {
        PutAllKeys(m, init, entries, key);
        if key !in m {
          var i :| 0 <= i < |init| && init[i].Name() == key;
          assert keys[i] == init[i];
        }
      } else {
        assert keys[|keys| - 1].Name() == key;
      }
    }
  }

  // ---------------------------------------------------------------------
  // Properties of `_build_kwargs`

  /** The result is the checks' error, or the dictionary built from what
      the checks hand on. */
  lemma KwargsOfValidate(params: Dict)
    ensures KwargsFor(params).Ok? <==> Validate(params).Ok?
    ensures Validate(params).Err? ==> KwargsFor(params) == Err(Validate(params).error)
    ensures Validate(params).Ok? ==> var c := Validate(params).value;
      KwargsFor(params).value == KwargsOut(Assemble(params, c.sites, c.format, c.jobType), c.sites)
  {
  }

  /** The checks pass exactly when each of the three passes, and then hand
      on what they read. */
  lemma CheckOk(sites: seq<string>, jobType: Value, format: Value)
    ensures Check(sites, jobType, format).Ok? <==>
      Invalid(sites, JobspySites) == [] && RejectJobType(jobType).None? && RejectFormat(format).None?
    ensures Check(sites, jobType, format).Ok? ==>
      Check(sites, jobType, format).value == Checked(sites, jobType, format)
  {
  }

  /** The checks fail at the first of the three that fails. */
  lemma CheckErr(sites: seq<string>, jobType: Value, format: Value)
    ensures var invalid := Invalid(sites, JobspySites);
      invalid != [] ==> Check(sites, jobType, format) == Err(BadRequest(UnknownSitesMessage(invalid, SortedJobspySites)))
    ensures Invalid(sites, JobspySites) == [] && RejectJobType(jobType).Some? ==>
      Check(sites, jobType, format) == Err(RejectJobType(jobType).value)
    ensures Invalid(sites, JobspySites) == [] && RejectJobType(jobType).None? && RejectFormat(format).Some? ==>
      Check(sites, jobType, format) == Err(RejectFormat(format).value)
  {
  }

  /** The `job_type` check on `params.get("job_type") or None`. */
  lemma JobTypeCheck(v: Value)
    ensures RejectJobType(OrNone(v)).None? <==> !Truthy(v) || (v.Str? && v.s in ValidTypes)
    ensures Truthy(v) && v.List? ==> RejectJobType(OrNone(v)) == Some(Unhandled("TypeError"))
    ensures Truthy(v) && !v.List? && !(v.Str? && v.s in ValidTypes) ==>
      RejectJobType(OrNone(v)) == Some(BadRequest(JobTypeMessage(v)))
  {
  }

  lemma FormatCheck(v: Value)
    ensures RejectFormat(v).None? <==> v.Str? && v.s in ValidFormats
    ensures v.List? ==> RejectFormat(v) == Some(Unhandled("TypeError"))
    ensures !v.List? && !(v.Str? && v.s in ValidFormats) ==>
      RejectFormat(v) == Some(BadRequest(FormatMessage(v)))
  {
  }

  /** `_build_kwargs` accepts a request exactly when every requested site is
      a library site, `job_type` is falsy or one of the four types, and
      `description_format`, after its default, is one of the two formats. */
  lemma KwargsAccepts(params: Dict)
    ensures var jobType := Get(params, JobType.Name()); var format := RequestedFormat(params);
      KwargsFor(params).Ok? <==>
        && (forall s :: s in SiteName(params) ==> s in JobspySites)
        && (!Truthy(jobType) || (jobType.Str? && jobType.s in ValidTypes))
        && format.Str? && format.s in ValidFormats
  {
    KwargsOfValidate(params);
    CheckOk(SiteName(params), RequestedJobType(params), RequestedFormat(params));
    JobTypeCheck(Get(params, JobType.Name()));
    FormatCheck(RequestedFormat(params));
  }
  /** A request naming a site outside the library's set is refused with a
      400 whose message names every such site, before the other checks. */
  lemma KwargsUnknownSites(params: Dict, k: nat)
    requires k < |Invalid(SiteName(params), JobspySites)|
    ensures var invalid := Invalid(SiteName(params), JobspySites);
      && KwargsFor(params).Err?
      && KwargsFor(params).error.BadRequest?
      && Contains(KwargsFor(params).error.detail, invalid[k])
  {
    var invalid := Invalid(SiteName(params), JobspySites);
    KwargsOfValidate(params);
    CheckErr(SiteName(params), RequestedJobType(params), RequestedFormat(params));
    UnknownSitesNamed(invalid, SortedJobspySites, k);
  }

  /** With valid sites, a truthy `job_type` outside the four types is a 400
      (a list value raises `TypeError` instead); so is a format outside the
      two, once `job_type` has passed. */
  lemma KwargsRejects(params: Dict)
    requires forall s :: s in SiteName(params) ==> s in JobspySites
    ensures var jobType := Get(params, JobType.Name());
      Truthy(jobType) && !jobType.List? && !(jobType.Str? && jobType.s in ValidTypes) ==>
        KwargsFor(params) == Err(BadRequest(JobTypeMessage(jobType)))
    ensures var jobType := Get(params, JobType.Name());
      Truthy(jobType) && jobType.List? ==> KwargsFor(params) == Err(Unhandled("TypeError"))
    ensures var jobType := Get(params, JobType.Name()); var format := RequestedFormat(params);
      (!Truthy(jobType) || (jobType.Str? && jobType.s in ValidTypes)) && !format.List?
        && !(format.Str? && format.s in ValidFormats) ==>
        KwargsFor(params) == Err(BadRequest(FormatMessage(format)))
  {
    KwargsOfValidate(params);
    CheckErr(SiteName(params), RequestedJobType(params), RequestedFormat(params));
    JobTypeCheck(Get(params, JobType.Name()));
    FormatCheck(RequestedFormat(params));
  }

  /** The optional keys leave every base entry as `BaseKwargs` made it. */
  lemma AssembleKeepsBase(params: Dict, sites: seq<string>, format: Value, jobType: Value, key: string)
    requires key in BaseKeys
    ensures var m := Assemble(params, sites, format, jobType);
      key in m && m[key] == BaseKwargs(params, sites, format)[key]
  {
    BaseNotOptional(key);
    PutAllKeeps(BaseKwargs(params, sites, format), Order, Entries(params, jobType), key);
  }

  /** The base entries: the site list, the numeric defaults (15, 50 and 0
      when the value is missing, empty or not a number), the format, two
      real booleans and `verbose` 0. */
  lemma BaseEntries(params: Dict, sites: seq<string>, format: Value)
    ensures var m := BaseKwargs(params, sites, format);
      && m["site_name"] == StrList(sites)
      && m["results_wanted"] == Int(IntOr(Get(params, "results_wanted"), 15))
      && m["distance"] == Int(IntOr(Get(params, "distance"), 50))
      && m["offset"] == Int(IntOr(Get(params, "offset"), 0))
      && m["description_format"] == format
      && m["linkedin_fetch_description"].Bool?
      && m["enforce_annual_salary"].Bool?
      && m["verbose"] == Int(0)
  {
  }

  lemma AssembleBase(params: Dict, sites: seq<string>, format: Value, jobType: Value)
    ensures var m := Assemble(params, sites, format, jobType);
      && BaseKeys <= m.Keys
      && m["site_name"] == StrList(sites)
      && m["results_wanted"] == Int(IntOr(Get(params, "results_wanted"), 15))
      && m["distance"] == Int(IntOr(Get(params, "distance"), 50))
      && m["offset"] == Int(IntOr(Get(params, "offset"), 0))
      && m["description_format"] == format
      && m["linkedin_fetch_description"].Bool?
      && m["enforce_annual_salary"].Bool?
      && m["verbose"] == Int(0)
  {
    forall key | key in BaseKeys
      ensures var m := Assemble(params, sites, format, jobType);
        key in m && m[key] == BaseKwargs(params, sites, format)[key]
    {
      AssembleKeepsBase(params, sites, format, jobType, key);
    }
    BaseEntries(params, sites, format);
  }

  /** The dictionary `_build_kwargs` returns holds the base entries, with a
      valid format. */
  lemma KwargsBase(params: Dict)
    requires KwargsFor(params).Ok?
    ensures var out := KwargsFor(params).value; var kw := out.kwargs;
      && BaseKeys <= kw.Keys
      && kw["site_name"] == StrList(out.sites)
      && kw["results_wanted"] == Int(IntOr(Get(params, "results_wanted"), 15))
      && kw["distance"] == Int(IntOr(Get(params, "distance"), 50))
      && kw["offset"] == Int(IntOr(Get(params, "offset"), 0))
      && kw["description_format"] == RequestedFormat(params)
      && kw["description_format"].Str? && kw["description_format"].s in ValidFormats
      && kw["linkedin_fetch_description"].Bool?
      && kw["enforce_annual_salary"].Bool?
      && kw["verbose"] == Int(0)
  {
    KwargsOfValidate(params);
    CheckOk(SiteName(params), RequestedJobType(params), RequestedFormat(params));
    FormatCheck(RequestedFormat(params));
    var c := Validate(params).value;
    AssembleBase(params, c.sites, c.format, c.jobType);
  }

  /** No base key is named like an optional key. */
  lemma OptionalNotBase(k: OptionalKey)
    ensures k.Name() !in BaseKeys
  {
  }

  /** Each optional key is in the dictionary exactly when the source sets
      it, and then holds the value the source gives it. */
  lemma KwargsOptional(params: Dict, k: OptionalKey)
    requires KwargsFor(params).Ok?
    ensures var kw := KwargsFor(params).value.kwargs; var e := EntryOf(params, RequestedJobType(params), k);
      && (k.Name() in kw <==> e.Some?)
      && (e.Some? ==> kw[k.Name()] == e.value)
  {
    KwargsOfValidate(params);
    CheckOk(SiteName(params), RequestedJobType(params), RequestedFormat(params));
    var c := Validate(params).value;
    AssembleOptional(params, c.sites, c.format, c.jobType, k);
  }

  lemma AssembleOptional(params: Dict, sites: seq<string>, format: Value, jobType: Value, k: OptionalKey)
    ensures var m := Assemble(params, sites, format, jobType); var e := EntryOf(params, jobType, k);
      && (k.Name() in m <==> e.Some?)
      && (e.Some? ==> m[k.Name()] == e.value)
  {
    OptionalNotBase(k);
    AddOptionalAt(params, jobType, BaseKwargs(params, sites, format), k);
  }

  /** `job_type` is set exactly when the request gives a truthy one, and is
      then one of the four types. */
  lemma KwargsJobType(params: Dict)
    requires KwargsFor(params).Ok?
    ensures var kw := KwargsFor(params).value.kwargs;
      && (JobType.Name() in kw <==> Truthy(Get(params, JobType.Name())))
      && (JobType.Name() in kw ==>
            kw[JobType.Name()] == Get(params, JobType.Name()) && kw[JobType.Name()].Str? && kw[JobType.Name()].s in ValidTypes)
  {
    KwargsOfValidate(params);
    CheckOk(SiteName(params), RequestedJobType(params), RequestedFormat(params));
    JobTypeCheck(Get(params, JobType.Name()));
    var c := Validate(params).value;
    AssembleJobType(params, c.sites, c.format, c.jobType);
  }

  lemma AssembleJobType(params: Dict, sites: seq<string>, format: Value, jobType: Value)
    ensures var m := Assemble(params, sites, format, jobType);
      && (JobType.Name() in m <==> Truthy(jobType))
      && (JobType.Name() in m ==> m[JobType.Name()] == jobType)
  {
    AssembleOptional(params, sites, format, jobType, JobType);
  }

  /** `is_remote` and `easy_apply` are set exactly when the request gives
      them (any value but `None`), and always as real booleans. */
  lemma KwargsFlags(params: Dict, k: OptionalKey)
    requires KwargsFor(params).Ok? && (k == IsRemote || k == EasyApply)
    ensures var kw := KwargsFor(params).value.kwargs;
      && (k.Name() in kw <==> Get(params, k.Name()) != Null)
      && (k.Name() in kw ==> kw[k.Name()] == Bool(CoerceBool(Get(params, k.Name())).value))
  {
    KwargsOptional(params, k);
  }

  /** The dictionary holds the base keys and the optional keys' names, and
      nothing else. */
  lemma KwargsKeys(params: Dict, key: string)
    requires KwargsFor(params).Ok? && key in KwargsFor(params).value.kwargs
    ensures key in BaseKeys || exists k: OptionalKey :: k.Name() == key
  {
    KwargsOfValidate(params);
    CheckOk(SiteName(params), RequestedJobType(params), RequestedFormat(params));
    var c := Validate(params).value;
    AssembleKeys(params, c.sites, c.format, c.jobType, key);
  }

  lemma AssembleKeys(params: Dict, sites: seq<string>, format: Value, jobType: Value, key: string)
    requires key in Assemble(params, sites, format, jobType)
    ensures key in BaseKeys || exists k: OptionalKey :: k.Name() == key
  {
    var base := BaseKwargs(params, sites, format);
    PutAllKeys(base, Order, Entries(params, jobType), key);
    if key !in base {
      var i :| 0 <= i < |Order| && Order[i].Name() == key;
      var k := Order[i];
      assert k.Name() == key;
    }
  }

  /** The sites handed on are the requested ones, or every library site
      when the request names none; none is empty and all are library sites. */
  lemma KwargsSites(params: Dict)
    requires KwargsFor(params).Ok?
    ensures var sites := KwargsFor(params).value.sites;
      && sites == SiteName(params)
      && sites != []
      && (forall s :: s in sites ==> s in JobspySites)
      && (CsvList(Get(params, "site_name"), CastStr).None? ==> sites == SortedJobspySites)
  {
    KwargsOfValidate(params);
    CheckOk(SiteName(params), RequestedJobType(params), RequestedFormat(params));
  }
}
