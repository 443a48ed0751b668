/**
 * The three job-provider adapters and the aggregator that merges their
 * answers. The network is abstracted: an adapter that sends a request is
 * given the outcome of that request as a function of the request, and an
 * outcome is the decoded job list or `None` for any failure (a network
 * error, a timeout, a body that does not decode).
 */
module Providers {
  import opened Wrappers
  import opened Text
  import opened Json

  const Adzuna: string := "Adzuna"
  const Remotive: string := "Remotive"
  const Jooble: string := "Jooble"

  /** The providers, in the order the aggregator lists them. */
  const ProviderNames: seq<string> := [Adzuna, Remotive, Jooble]

  /** Jobs keyed by provider name. */
  type ProviderResult = map<string, seq<Job>>

  /** What one network call yields: the provider's job list, or `None` when the call failed. */
  type Outcome = Option<seq<Job>>

  /** An adapter swallows every failure: a failed call yields no jobs. */
  function JobsOf(outcome: Outcome): seq<Job> {
    outcome.GetOr([])
  }

  function Min(a: int, b: int): int {
    if a <= b then a else b
  }

  // ---------------------------------------------------------------- Adzuna

  /** The query parameters of an Adzuna search, credentials aside. */
  datatype AdzunaQuery = AdzunaQuery(what: string, sortBy: string, resultsPerPage: string)

  /** The search Adzuna is asked for: the first skill, by relevance, ten per page; none without skills. */
  function AdzunaRequest(skills: seq<string>): (r: Option<AdzunaQuery>)
    ensures r.Some? <==> skills != []
    ensures r.Some? ==> r.value.what == skills[0] && r.value.sortBy == "relevance" && r.value.resultsPerPage == "10"
  {
    if skills == [] then None else Some(AdzunaQuery(skills[0], "relevance", "10"))
  }

  /**
   * The Adzuna adapter. Without skills it answers no jobs and sends nothing,
   * so the answer does not depend on the network at all; otherwise it
   * answers what the search for the first skill returned, or nothing if the
   * search failed.
   */
  function FetchFromAdzuna(skills: seq<string>, network: AdzunaQuery -> Outcome): (r: ProviderResult)
    ensures r.Keys == {Adzuna}
    ensures skills == [] ==> r[Adzuna] == []
    ensures skills != [] ==> r[Adzuna] == JobsOf(network(AdzunaQuery(skills[0], "relevance", "10")))
  {
    match AdzunaRequest(skills)
    case None => map[Adzuna := []]
    case Some(query) => map[Adzuna := JobsOf(network(query))]
  }

  // -------------------------------------------------------------- Remotive

  /** The text the Remotive filter searches: title, a space, description; a missing field reads as empty. */
  function Haystack(job: Job): string {
    Render(GetOr(job, "title", Str(""))) + " " + Render(GetOr(job, "description", Str("")))
  }

  /**
   * Each skill is tested against the title and the description joined by a
   * space, not against each field alone, so a multi-word skill can match
   * across the join.
   */
  lemma SkillAcrossFields()
    ensures Wanted(map["title" := Str("Machine"), "description" := Str("Learning")], ["Machine Learning"])
  {
    var job: Job := map["title" := Str("Machine"), "description" := Str("Learning")];
    assert Haystack(job) == "Machine Learning";
    assert Lower("Machine Learning")[0..|"Machine Learning"|] == Lower("Machine Learning");
    assert OccursAt(Lower(Haystack(job)), Lower("Machine Learning"), 0);
  }

  /** Python's `p in t` is a leftmost substring search. */
  lemma FindSubstring(t: string, p: string)
    ensures Find(t, p, 0, false).Some? <==> Occurs(p, t)
  {
    FindFound(t, p, false);
    assert forall i: nat :: MatchAt(t, p, i, false) == OccursAt(t, p, i);
  }

  /** Some skill, lower-cased, is a substring of the (already lower-cased) haystack. */
  function AnySkillIn(skills: seq<string>, haystack: string): (b: bool)
    ensures b <==> exists k :: 0 <= k < |skills| && Occurs(Lower(skills[k]), haystack)
  {
    if skills == [] then false
    else
      FindSubstring(haystack, Lower(skills[0]));
      var rest := AnySkillIn(skills[1..], haystack);
      assert rest <==> exists k :: 1 <= k < |skills| && Occurs(Lower(skills[k]), haystack) by {
        forall k | 1 <= k < |skills| ensures skills[1..][k - 1] == skills[k] { }
      }
      Find(haystack, Lower(skills[0]), 0, false).Some? || rest
  }

  /** A Remotive job is kept when some skill, lower-cased, occurs in its lower-cased haystack. */
  predicate Wanted(job: Job, skills: seq<string>) {
    AnySkillIn(skills, Lower(Haystack(job)))
  }

  /** `sub` is `s` with some elements left out, in the same order. */
  ghost predicate IsSubsequence<T>(sub: seq<T>, s: seq<T>)
    decreases |s|
  {
    sub == [] || (s != [] && ((sub[0] == s[0] && IsSubsequence(sub[1..], s[1..])) || IsSubsequence(sub, s[1..])))
  }

  /**
   * The Remotive filter: the wanted jobs, in feed order, each as often as the
   * feed lists it; unwanted jobs are dropped.
   */
  function FilterJobs(jobs: seq<Job>, skills: seq<string>): (kept: seq<Job>)
    ensures IsSubsequence(kept, jobs)
    ensures forall j :: multiset(kept)[j] == if Wanted(j, skills) then multiset(jobs)[j] else 0
  {
    if jobs == [] then []
    else
      var rest := FilterJobs(jobs[1..], skills);
      assert jobs == [jobs[0]] + jobs[1..];
      if Wanted(jobs[0], skills) then
        assert ([jobs[0]] + rest)[1..] == rest;
        [jobs[0]] + rest
      else rest
  }

  /** A job is in the filter's output exactly when the feed has it and it is wanted. */
  lemma FilterJobsMembers(jobs: seq<Job>, skills: seq<string>)
    ensures forall job :: job in FilterJobs(jobs, skills) <==> job in jobs && Wanted(job, skills)
  {
    var kept := FilterJobs(jobs, skills);
    forall job ensures job in kept <==> job in jobs && Wanted(job, skills) {
      assert job in kept <==> multiset(kept)[job] > 0;
      assert job in jobs <==> multiset(jobs)[job] > 0;
    }
  }

  /** Without skills no job is wanted. */
  lemma NoSkillsNothingWanted(jobs: seq<Job>)
    ensures FilterJobs(jobs, []) == []
  {
    var kept := FilterJobs(jobs, []);
    assert kept != [] ==> multiset(kept)[kept[0]] > 0;
  }

  /** When every job is wanted the filter keeps the whole feed. */
  lemma {:induction false} AllWantedKeepsAll(jobs: seq<Job>, skills: seq<string>)
    requires forall k :: 0 <= k < |jobs| ==> Wanted(jobs[k], skills)
    ensures FilterJobs(jobs, skills) == jobs
  {
    if jobs != [] {
      AllWantedKeepsAll(jobs[1..], skills);
    }
  }

  /**
   * The Remotive adapter: it fetches the whole feed and keeps the wanted
   * jobs; a failed fetch yields none, and so does a call without skills.
   */
  function FetchFromRemotive(skills: seq<string>, feed: Outcome): (r: ProviderResult)
    ensures r.Keys == {Remotive}
    ensures IsSubsequence(r[Remotive], JobsOf(feed))
    ensures forall j :: j in r[Remotive] <==> j in JobsOf(feed) && Wanted(j, skills)
    ensures forall j :: multiset(r[Remotive])[j] == if Wanted(j, skills) then multiset(JobsOf(feed))[j] else 0
    ensures feed.None? || skills == [] ==> r[Remotive] == []
  {
    FilterJobsMembers(JobsOf(feed), skills);
    NoSkillsNothingWanted(JobsOf(feed));
    map[Remotive := FilterJobs(JobsOf(feed), skills)]
  }

  // ---------------------------------------------------------------- Jooble

  /** The JSON body posted to Jooble. */
  datatype JoobleBody = JoobleBody(keywords: string, location: string)

  /** At most the first three skills, space-joined, searched in India. */
  function JoobleRequest(skills: seq<string>): JoobleBody {
    JoobleBody(Join(skills[..Min(3, |skills|)]), "India")
  }

  /**
   * The keyword string splits back into the skills it was made of, at most
   * three, when none of them contains a space; without skills it is empty.
   */
  lemma JoobleKeywords(skills: seq<string>)
    ensures JoobleRequest(skills).location == "India"
    ensures skills == [] ==> JoobleRequest(skills).keywords == ""
    ensures skills != [] && (forall k :: 0 <= k < Min(3, |skills|) ==> ' ' !in skills[k]) ==>
              Split(JoobleRequest(skills).keywords) == skills[..Min(3, |skills|)]
  {
    var first := skills[..Min(3, |skills|)];
    if skills != [] && (forall k :: 0 <= k < Min(3, |skills|) ==> ' ' !in skills[k]) {
      assert forall k :: 0 <= k < |first| ==> first[k] == skills[k];
      SplitJoin(first);
    }
  }

  /** A skill that holds a space cannot be told apart from two skills in the keyword string. */
  lemma MultiWordSkillSplits()
    ensures Split(JoobleRequest(["Machine Learning"]).keywords) == ["Machine", "Learning"]
  {
    assert JoobleRequest(["Machine Learning"]).keywords == "Machine Learning";
    assert "Machine Learning" == "Machine" + " " + "Learning";
    SplitAfterWord("Machine", "Learning");
    SplitWord("Learning");
  }

  /**
   * The Jooble adapter: it always posts its request, even without skills,
   * and answers what came back for the first (at most three) skills, or
   * nothing if the call failed.
   */
  function FetchFromJooble(skills: seq<string>, network: JoobleBody -> Outcome): (r: ProviderResult)
    ensures r.Keys == {Jooble}
    ensures r[Jooble] == JobsOf(network(JoobleBody(Join(skills[..Min(3, |skills|)]), "India")))
    ensures network(JoobleRequest(skills)).None? ==> r[Jooble] == []
    ensures skills == [] ==> r[Jooble] == JobsOf(network(JoobleBody("", "India")))
  {
    map[Jooble := JobsOf(network(JoobleRequest(skills)))]
  }

  // ------------------------------------------------------------ Aggregator

  /** Python's `result.get(name, [])`. */
  function Lookup(result: ProviderResult, name: string): seq<Job> {
    if name in result then result[name] else []
  }

  /**
   * The dictionary comprehension over `zip(names, results)`: each name maps
   * to its own entry in the matching result, later pairs overriding earlier
   * ones; `zip` stops at the shorter input.
   */
  function Merge(names: seq<string>, results: seq<ProviderResult>): (m: ProviderResult)
    decreases |names|
    ensures m.Keys == set k | 0 <= k < Min(|names|, |results|) :: names[k]
  {
    var n := Min(|names|, |results|);
    if n == 0 then map[]
    else
      var earlier := names[..n - 1];
      var prefix := Merge(earlier, results[..n - 1]);
      assert (set k | 0 <= k < n :: names[k]) == (set k | 0 <= k < n - 1 :: earlier[k]) + {names[n - 1]} by {
        assert forall k :: 0 <= k < n - 1 ==> earlier[k] == names[k];
      }
      prefix[names[n - 1] := Lookup(results[n - 1], names[n - 1])]
  }

  /** With distinct names, each name is paired with its own provider's entry. */
  lemma {:induction false} MergeAt(names: seq<string>, results: seq<ProviderResult>, k: nat)
    requires forall i, j :: 0 <= i < j < |names| ==> names[i] != names[j]
    requires k < |names| && k < |results|
    ensures names[k] in Merge(names, results)
    ensures Merge(names, results)[names[k]] == Lookup(results[k], names[k])
  {
    var n := Min(|names|, |results|);
    if k < n - 1 {
      MergeAt(names[..n - 1], results[..n - 1], k);
    }
  }

  /**
   * The aggregator: every provider's name is a key, whatever failed, and
   * each key holds that provider's own answer.
   */
  function FetchAllJobs(skills: seq<string>, adzuna: AdzunaQuery -> Outcome, remotive: Outcome,
                        jooble: JoobleBody -> Outcome): (r: ProviderResult)
    ensures r.Keys == {Adzuna, Remotive, Jooble}
    ensures r[Adzuna] == FetchFromAdzuna(skills, adzuna)[Adzuna]
    ensures r[Remotive] == FetchFromRemotive(skills, remotive)[Remotive]
    ensures r[Jooble] == FetchFromJooble(skills, jooble)[Jooble]
  {
    var results := [FetchFromAdzuna(skills, adzuna), FetchFromRemotive(skills, remotive), FetchFromJooble(skills, jooble)];
    var r := Merge(ProviderNames, results);
    assert (set k | 0 <= k < 3 :: ProviderNames[k]) == {Adzuna, Remotive, Jooble} by {
      assert ProviderNames[0] == Adzuna && ProviderNames[1] == Remotive && ProviderNames[2] == Jooble;
    }
    MergeAt(ProviderNames, results, 0);
    MergeAt(ProviderNames, results, 1);
    MergeAt(ProviderNames, results, 2);
    r
  }

  /** When every call fails, every provider is present with no jobs. */
  lemma AllProvidersFail(skills: seq<string>, adzuna: AdzunaQuery -> Outcome, remotive: Outcome,
                         jooble: JoobleBody -> Outcome)
    requires forall q :: adzuna(q) == None
    requires remotive == None
    requires forall b :: jooble(b) == None
    ensures FetchAllJobs(skills, adzuna, remotive, jooble) == map[Adzuna := [], Remotive := [], Jooble := []]
  {
    var r := FetchAllJobs(skills, adzuna, remotive, jooble);
    assert r[Jooble] == JobsOf(jooble(JoobleRequest(skills)));
    if skills != [] {
      assert r[Adzuna] == JobsOf(adzuna(AdzunaQuery(skills[0], "relevance", "10")));
    }
  }

  /**
   * Without skills Adzuna and Remotive answer nothing whatever the network
   * does, while Jooble still posts an empty keyword string.
   */
  lemma NoSkills(adzuna: AdzunaQuery -> Outcome, remotive: Outcome, jooble: JoobleBody -> Outcome)
    ensures FetchAllJobs([], adzuna, remotive, jooble) ==
              map[Adzuna := [], Remotive := [], Jooble := JobsOf(jooble(JoobleBody("", "India")))]
  {
  }
}
