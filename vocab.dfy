/** The job-type vocabularies of the direct sources (api/index.py): the
    classifier Arbeitnow and Jobicy records share, and the three maps between
    a source's own type names and the gateway's. */
module Vocab {
  import opened Wrappers
  import opened Text
  import opened PyValue
  import opened Kwargs

  /** The classifier over the lower-cased, space-joined type strings of a
      posting: the first rule whose word occurs wins. */
  function Classify(jts: string): Option<string> {
    if Contains(jts, "full") then Some("fulltime")
    else if Contains(jts, "part") then Some("parttime")
    else if Contains(jts, "intern") then Some("internship")
    else if Contains(jts, "contract") || Contains(jts, "freelance") then Some("contract")
    else None
  }

  /** `" ".join(types).lower()` classified: raises when `types` is not
      iterable or yields a non-string. */
  function Label(types: Value): (r: Attempt<Option<string>>)
    ensures r.Done? <==> JoinText(types, " ").Done?
    ensures r.Done? ==> r.value == Classify(Lower(JoinText(types, " ").value))
  {
    match JoinText(types, " ")
    case Raised => Raised
    case Done(joined) => Done(Classify(Lower(joined)))
  }

  /** The classifier's rules in priority order: the words that select a type. */
  const Rules: seq<(seq<string>, string)> :=
    [(["full"], "fulltime"), (["part"], "parttime"), (["intern"], "internship"),
     (["contract", "freelance"], "contract")]

  predicate AnyOccurs(jts: string, words: seq<string>) {
    exists w :: w in words && Contains(jts, w)
  }

  /** The type of the first rule one of whose words occurs in `jts`. */
  function FirstRule(rules: seq<(seq<string>, string)>, jts: string): (r: Option<string>)
    ensures r.Some? ==> exists i :: 0 <= i < |rules| && rules[i].1 == r.value && AnyOccurs(jts, rules[i].0)
    ensures r.None? <==> forall i :: 0 <= i < |rules| ==> !AnyOccurs(jts, rules[i].0)
    decreases |rules|
  {
    if rules == [] then None
    else if AnyOccurs(jts, rules[0].0) then Some(rules[0].1)
    else
      var r := FirstRule(rules[1..], jts);
      assert forall i :: 1 <= i < |rules| ==> rules[i] == rules[1..][i - 1];
      r
  }

  /** The classifier is the first-match reading of its rule list: a posting
      that mentions several types gets the earliest rule's. */
  lemma ClassifyIsFirstRule(jts: string)
    ensures Classify(jts) == FirstRule(Rules, jts)
  {
    assert AnyOccurs(jts, ["full"]) <==> Contains(jts, "full") by {
      assert "full" in ["full"];
    }
    assert AnyOccurs(jts, ["part"]) <==> Contains(jts, "part") by {
      assert "part" in ["part"];
    }
    assert AnyOccurs(jts, ["intern"]) <==> Contains(jts, "intern") by {
      assert "intern" in ["intern"];
    }
    assert AnyOccurs(jts, ["contract", "freelance"]) <==> Contains(jts, "contract") || Contains(jts, "freelance") by {
      assert "contract" in ["contract", "freelance"] && "freelance" in ["contract", "freelance"];
    }
    assert Rules[1..][1..][1..][1..] == [];
  }

  /** Every type the classifier gives is one `_build_kwargs` accepts. */
  lemma ClassifyValid(jts: string)
    ensures Classify(jts).Some? ==> Classify(jts).value in ValidTypes
  {
  }

  /** A posting one of whose type strings mentions "full" is full-time,
      whatever else it lists. */
  lemma ClassifyFullWins(types: seq<string>, k: nat)
    requires k < |types| && Contains(Lower(types[k]), "full")
    ensures Classify(Lower(Join(types, " "))) == Some("fulltime")
  {
    LowerJoin(types, " ");
    JoinContains(LowerAll(types), Lower(" "), k, "full");
  }

  // ---------------------------------------------------------------------
  // Arbeitnow: the word a requested type is searched for

  const ArbeitnowTypes: map<string, string> :=
    map["fulltime" := "full-time", "parttime" := "part-time",
        "contract" := "contract", "internship" := "intern"]

  /** `type_map.get(job_type, job_type).lower()`: a list is unhashable and a
      non-string has no `.lower()`, so both raise. */
  function ArbeitnowNeedle(jobType: Value): (r: Attempt<string>)
    ensures r.Done? <==> jobType.Str?
  {
    match jobType
    case Str(s) => Done(Lower(if s in ArbeitnowTypes then ArbeitnowTypes[s] else s))
    case _ => Raised
  }

  /** Text that mentions "full-time" mentions "full". */
  lemma FullInFullTime(s: string)
    requires Contains(s, "full-time")
    ensures Contains(s, "full")
  {
    assert "full" + "-time" == "full-time";
    ContainsNeedlePrefix(s, "full", "-time");
  }

  /** `fulltime` is searched for as "full-time". */
  lemma FullTimeNeedle()
    ensures ArbeitnowNeedle(Str("fulltime")) == Done("full-time")
  {
    LowerKeeps("full-time");
  }

  /** Position `i` does not start the first two characters of `t`. */
  predicate NoPairAt(s: string, t: string, i: int)
    requires |t| >= 2
  {
    !(0 <= i < |s| - 1 && s[i] == t[0] && s[i + 1] == t[1])
  }

  /** A word whose first two characters never occur side by side in `s` is
      not a substring of `s`. */
  lemma Absent(s: string, t: string)
    requires |t| >= 2 && forall i :: 0 <= i < |s| ==> NoPairAt(s, t, i)
    ensures !Contains(s, t)
  {
    forall i | 0 <= i <= |s| - |t|
      ensures !OccursAt(s, t, i)
    {
      assert NoPairAt(s, t, i);
      assert s[i..i + |t|][0] == s[i] && s[i..i + |t|][1] == s[i + 1];
    }
  }

  // How the classifier reads each type name of the vocabularies.

  lemma FullTimeWord()
    ensures Classify("full-time") == Some("fulltime") && Classify("full_time") == Some("fulltime")
  {
    assert OccursAt("full-time", "full", 0) && OccursAt("full_time", "full", 0);
  }

  lemma PartTimeWord()
    ensures Classify("part-time") == Some("parttime") && Classify("part_time") == Some("parttime")
  {
    Absent("part-time", "full");
    Absent("part_time", "full");
    assert OccursAt("part-time", "part", 0) && OccursAt("part_time", "part", 0);
  }

  lemma InternWord()
    ensures Classify("intern") == Some("internship") && Classify("internship") == Some("internship")
  {
    Absent("intern", "full");
    Absent("intern", "part");
    Absent("internship", "full");
    Absent("internship", "part");
    assert OccursAt("intern", "intern", 0) && OccursAt("internship", "intern", 0);
  }

  lemma ContractWord()
    ensures Classify("contract") == Some("contract")
  {
    Absent("contract", "full");
    Absent("contract", "part");
    Absent("contract", "intern");
    assert OccursAt("contract", "contract", 0);
  }

  lemma FreelanceWord()
    ensures Classify("freelance") == Some("contract")
  {
    Absent("freelance", "full");
    Absent("freelance", "part");
    Absent("freelance", "intern");
    assert OccursAt("freelance", "freelance", 0);
  }

  lemma OtherWord()
    ensures Classify("other") == None
  {
    Absent("other", "full");
    Absent("other", "part");
    Absent("other", "intern");
    Absent("other", "contract");
    Absent("other", "freelance");
  }

  /** Each accepted type is searched for with a word the classifier maps back
      to that type, so a posting matched by that word alone is labelled with
      the type asked for. */
  lemma ArbeitnowNeedleClassifies(t: string)
    requires t in ValidTypes
    ensures ArbeitnowNeedle(Str(t)).Done?
    ensures Classify(ArbeitnowNeedle(Str(t)).value) == Some(t)
  {
    LowerKeeps(ArbeitnowTypes[t]);
    FullTimeWord();
    PartTimeWord();
    InternWord();
    ContractWord();
  }

  // ---------------------------------------------------------------------
  // Remotive and Jobicy: a source's type name to the gateway's

  const RemotiveTypes: map<string, Option<string>> :=
    map["full_time" := Some("fulltime"), "part_time" := Some("parttime"),
        "contract" := Some("contract"), "freelance" := Some("contract"),
        "internship" := Some("internship"), "other" := None]

  /** `type_map.get((j.get("job_type") or "").lower())`: unknown names give
      `None`, a truthy non-string raises. */
  function RemotiveType(raw: Value): (r: Attempt<Option<string>>)
    ensures r.Done? <==> !Truthy(raw) || raw.Str?
    ensures r.Done? && r.value.Some? ==> raw.Str? && Lower(raw.s) in RemotiveTypes
  {
    match TextOr(raw)
    case Raised => Raised
    case Done(t) => var k := Lower(t); Done(if k in RemotiveTypes then RemotiveTypes[k] else None)
  }

  /** Remotive's names are mapped as the classifier would read them, and
      only onto accepted types. */
  lemma RemotiveTypesAgree(k: string)
    requires k in RemotiveTypes
    ensures RemotiveTypes[k] == Classify(k)
    ensures RemotiveTypes[k].Some? ==> RemotiveTypes[k].value in ValidTypes
  {
    FullTimeWord();
    PartTimeWord();
    InternWord();
    ContractWord();
    FreelanceWord();
    OtherWord();
  }

  const JobicyTypes: map<string, string> :=
    map["full-time" := "fulltime", "part-time" := "parttime",
        "freelance" := "contract", "contract" := "contract",
        "internship" := "internship"]

  /** `type_map.get((jt or "").lower())` of the Jobicy filter. */
  function JobicyType(jt: Value): (r: Attempt<Option<string>>)
    ensures r.Done? <==> !Truthy(jt) || jt.Str?
    ensures r.Done? && r.value.Some? ==> r.value.value in ValidTypes
  {
    match TextOr(jt)
    case Raised => Raised
    case Done(t) => var k := Lower(t); Done(if k in JobicyTypes then Some(JobicyTypes[k]) else None)
  }

  /** Jobicy's filter map agrees with the classifier its records use, and
      every accepted type has a name that maps to it. */
  lemma JobicyTypesAgree(k: string)
    requires k in JobicyTypes
    ensures Some(JobicyTypes[k]) == Classify(k)
  {
    FullTimeWord();
    PartTimeWord();
    InternWord();
    ContractWord();
    FreelanceWord();
  }

  lemma JobicyTypesOnto(t: string)
    requires t in ValidTypes
    ensures exists k :: k in JobicyTypes && JobicyTypes[k] == t
  {
    assert JobicyTypes["full-time"] == "fulltime";
    assert JobicyTypes["part-time"] == "parttime";
    assert JobicyTypes["contract"] == "contract";
    assert JobicyTypes["internship"] == "internship";
  }
}
