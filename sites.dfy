/** The job boards the gateway knows (api/index.py, `JOBSPY_SITES`,
    `CUSTOM_SITES`, `VALID_SITES`), how a request's site list is read, checked
    and split between the scraping library and the direct public APIs. */
module Sites {
  import opened Wrappers
  import opened Text
  import opened Seqs
  import opened PyValue
  import opened Coerce

  /** Boards served by the scraping library. */
  const JobspySites: set<string> :=
    {"linkedin", "indeed", "zip_recruiter", "glassdoor", "google", "bayt", "bdjobs", "naukri"}

  /** Boards served by the gateway's own adapters over public APIs. */
  const CustomSites: set<string> := {"remoteok", "arbeitnow", "remotive", "jobicy"}

  const ValidSites: set<string> := JobspySites + CustomSites

  /** `sorted(VALID_SITES)`. */
  const SortedValidSites: seq<string> :=
    ["arbeitnow", "bayt", "bdjobs", "glassdoor", "google", "indeed",
     "jobicy", "linkedin", "naukri", "remoteok", "remotive", "zip_recruiter"]

  /** `sorted(JOBSPY_SITES)`. */
  const SortedJobspySites: seq<string> :=
    ["bayt", "bdjobs", "glassdoor", "google", "indeed", "linkedin", "naukri", "zip_recruiter"]

  /** `sorted(VALID_SITES)` is this literal: the valid sites in code-point
      order, each once. */
  lemma SortedValid()
    ensures StrictlySorted(SortedValidSites)
    ensures (set s | s in SortedValidSites) == ValidSites
  {
    ValidOrdered();
  }

  lemma ValidOrdered()
    ensures StrictlySorted(SortedValidSites)
  {
    ValidOrderedLow();
    ValidOrderedHigh();
  }

  lemma ValidOrderedLow()
    ensures forall i :: 0 <= i < 5 ==> Less(SortedValidSites[i], SortedValidSites[i + 1])
  {
    var xs := SortedValidSites;
    assert Less(xs[0], xs[1]) && Less(xs[1], xs[2]);
    assert Less(xs[2], xs[3]);
    assert Less(xs[3], xs[4]) by {
      assert Less("lassdoor", "oogle");
    }
    assert Less(xs[4], xs[5]);
  }

  lemma ValidOrderedHigh()
    ensures forall i :: 5 <= i < 11 ==> Less(SortedValidSites[i], SortedValidSites[i + 1])
  {
    var xs := SortedValidSites;
    assert Less(xs[5], xs[6]) && Less(xs[6], xs[7]);
    assert Less(xs[7], xs[8]) && Less(xs[8], xs[9]);
    assert Less(xs[9], xs[10]) by {
      RemoteokBeforeRemotive();
    }
    assert Less(xs[10], xs[11]);
  }

  lemma RemoteokBeforeRemotive()
    ensures Less("remoteok", "remotive")
  {
    assert Less("eok", "ive");
    assert Less("teok", "tive");
    assert Less("oteok", "otive");
    assert Less("moteok", "motive");
    assert Less("emoteok", "emotive");
  }

  /** `sorted(JOBSPY_SITES)` is this literal. */
  lemma SortedJobspy()
    ensures StrictlySorted(SortedJobspySites)
    ensures (set s | s in SortedJobspySites) == JobspySites
  {
    JobspyOrderedLow();
    JobspyOrderedHigh();
  }

  lemma JobspyOrderedLow()
    ensures forall i :: 0 <= i < 3 ==> Less(SortedJobspySites[i], SortedJobspySites[i + 1])
  {
    var xs := SortedJobspySites;
    assert Less(xs[0], xs[1]) && Less(xs[1], xs[2]);
    assert Less(xs[2], xs[3]) by {
      assert Less("lassdoor", "oogle");
    }
  }

  lemma JobspyOrderedHigh()
    ensures forall i :: 3 <= i < 7 ==> Less(SortedJobspySites[i], SortedJobspySites[i + 1])
  {
    var xs := SortedJobspySites;
    assert Less(xs[3], xs[4]) && Less(xs[4], xs[5]);
    assert Less(xs[5], xs[6]) && Less(xs[6], xs[7]);
  }

  /** `_csv_list(v) or default`: the sites a request names, or `default` when
      it names none. */
  function RequestedOr(v: Value, default: seq<string>): (r: seq<string>)
    ensures CsvList(v, CastStr).None? ==> r == default
    ensures CsvList(v, CastStr).Some? ==> r == CsvList(v, CastStr).value && r != []
  {
    match CsvList(v, CastStr)
    case Some(xs) => xs
    case None => default
  }

  /** `all_requested`: every valid site when the request names none. */
  function Requested(params: Dict): (r: seq<string>)
    ensures r != []
  {
    RequestedOr(Get(params, "site_name"), SortedValidSites)
  }

  /** `[s for s in sites if s not in valid]`. */
  function Invalid(sites: seq<string>, valid: set<string>): (r: seq<string>)
    ensures r == [] <==> forall s :: s in sites ==> s in valid
    ensures forall s :: s in r <==> s in sites && s !in valid
  {
    var r := Filter(sites, s => s !in valid);
    assert r != [] ==> r[0] in r;
    r
  }

  /** `jobspy_requested`. */
  function JobspyRequested(sites: seq<string>): seq<string> {
    Filter(sites, s => s in JobspySites)
  }

  /** `custom_requested`. */
  function CustomRequested(sites: seq<string>): seq<string> {
    Filter(sites, s => s in CustomSites)
  }

  /** The routing of a site list with no unknown site: each part keeps the
      request's order, no site is in both, and between them they hold every
      requested site as often as it was requested. */
  lemma Partition(sites: seq<string>)
    requires Invalid(sites, ValidSites) == []
    ensures IsSubsequence(JobspyRequested(sites), sites)
    ensures IsSubsequence(CustomRequested(sites), sites)
    ensures forall s :: s in JobspyRequested(sites) ==> s !in CustomRequested(sites)
    ensures multiset(JobspyRequested(sites)) + multiset(CustomRequested(sites)) == multiset(sites)
  {
    FilterIsSubsequence(sites, s => s in JobspySites);
    FilterIsSubsequence(sites, s => s in CustomSites);
    forall i | 0 <= i < |sites|
      ensures (sites[i] in CustomSites) == (sites[i] !in JobspySites)
    {
      assert sites[i] in sites;
      OneSide(sites[i]);
    }
    FilterMultiset(sites, s => s in JobspySites, s => s in CustomSites);
  }

  /** A valid site is served by exactly one of the two parts. */
  lemma OneSide(site: string)
    requires site in ValidSites
    ensures (site in CustomSites) == (site !in JobspySites)
  {
  }

  /** The detail of the 400 for unknown sites. */
  function UnknownSitesMessage(invalid: seq<string>, valid: seq<string>): string {
    "Unknown site(s): " + ToText(StrList(invalid)) + ". Valid: " + ToText(StrList(valid))
  }

  /** The message names every unknown site. */
  lemma UnknownSitesNamed(invalid: seq<string>, valid: seq<string>, k: nat)
    requires k < |invalid|
    ensures Contains(UnknownSitesMessage(invalid, valid), invalid[k])
  {
    StrListTextNames(invalid, k);
    ContainsInfix("Unknown site(s): ", ToText(StrList(invalid)), ". Valid: " + ToText(StrList(valid)), invalid[k]);
    assert UnknownSitesMessage(invalid, valid)
        == "Unknown site(s): " + ToText(StrList(invalid)) + (". Valid: " + ToText(StrList(valid)));
  }
}
