/**
 * The job-description analyser: experience-level and industry classification by
 * keyword priority, the keyword-driven skills list, the key-requirements cap, and
 * the résumé-versus-job skill matcher with its 0..100 score.
 */
module JobService {
  import opened Wrappers
  import opened Text
  import opened Seqs

  // ---------------------------------------------------------------------------
  // Experience level

  datatype Level = Senior | Mid | Entry | Intern {
    function Name(): string {
      match this
      case Senior => "senior"
      case Mid => "mid"
      case Entry => "entry"
      case Intern => "intern"
    }
  }

  const SeniorWords: seq<string> := ["senior", "lead", "principal", "5+ years", "7+ years"]
  const MidWords: seq<string> := ["mid-level", "mid level", "3+ years", "4+ years"]
  const EntryWords: seq<string> := ["junior", "entry", "0-2 years", "1+ years"]
  const InternWords: seq<string> := ["intern", "internship", "student"]

  /** The level groups in the order they are tested. */
  const LevelGroups: seq<(seq<string>, Level)> :=
    [(SeniorWords, Senior), (MidWords, Mid), (EntryWords, Entry), (InternWords, Intern)]

  /** `_determine_experience_level`: the first group mentioned wins; mid by default. */
  function ExperienceLevel(description: string): (level: Level)
    ensures level == Senior <==> ContainsAny(Lower(description), SeniorWords)
    ensures level == Entry <==>
      !ContainsAny(Lower(description), SeniorWords) && !ContainsAny(Lower(description), MidWords) &&
      ContainsAny(Lower(description), EntryWords)
    ensures level == Intern <==>
      !ContainsAny(Lower(description), SeniorWords) && !ContainsAny(Lower(description), MidWords) &&
      !ContainsAny(Lower(description), EntryWords) && ContainsAny(Lower(description), InternWords)
  {
    var r := FirstGroup(Lower(description), LevelGroups);
    assert LevelGroups[0].0 == SeniorWords && LevelGroups[1].0 == MidWords;
    assert LevelGroups[2].0 == EntryWords && LevelGroups[3].0 == InternWords;
    r.GetOr(Mid)
  }

  /** A description that mentions no level keyword at all is mid-level. */
  lemma DefaultIsMid(description: string)
    requires forall g :: g in LevelGroups ==> !ContainsAny(Lower(description), g.0)
    ensures ExperienceLevel(description) == Mid
  {
    assert LevelGroups[0] in LevelGroups;
  }

  /** Senior dominates: whatever else a description says, adding a senior keyword to
      it makes it senior. */
  lemma SeniorDominates(description: string, extra: string, w: string)
    requires w in SeniorWords && Contains(Lower(extra), w)
    ensures ExperienceLevel(description + extra) == Senior
  {
    assert Lower(description + extra) == Lower(description) + Lower(extra);
    ContainsConcat(Lower(description), Lower(extra), w);
  }

  // ---------------------------------------------------------------------------
  // Industry

  /** The industry dictionary, in declaration order. */
  const IndustryKeywords: seq<(seq<string>, string)> := [
    (["software", "tech", "it", "computer", "programming", "coding"], "technology"),
    (["banking", "financial", "investment", "trading", "risk", "compliance"], "finance"),
    (["medical", "health", "pharmaceutical", "clinical", "patient"], "healthcare"),
    (["academic", "learning", "teaching", "student", "curriculum"], "education"),
    (["e-commerce", "shopping", "customer", "sales", "marketing"], "retail"),
    (["production", "industrial", "engineering", "operations", "supply chain"], "manufacturing")
  ]

  /** `_identify_industry`: loops over the dictionary and returns on the first hit. */
  method IdentifyIndustry(description: string) returns (industry: string)
    ensures industry == FirstGroup(Lower(description), IndustryKeywords).GetOr("general")
  {
    var lower := Lower(description);
    var table := IndustryKeywords;
    var i := 0;
    while i < |table|
      invariant 0 <= i <= |table|
      invariant FirstGroup(lower, table) == FirstGroup(lower, table[i..])
    {
      FirstGroupStep(lower, table, i);
      if ContainsAny(lower, table[i].0) {
        return table[i].1;
      }
      i := i + 1;
    }
    assert table[i..] == [];
    industry := "general";
  }

  /** The industry is one of the six named ones or "general", and it is "general"
      exactly when no keyword of any industry occurs. */
  lemma IndustryFacts(description: string)
    ensures var r := FirstGroup(Lower(description), IndustryKeywords).GetOr("general");
      r == "general" || exists i :: 0 <= i < |IndustryKeywords| && r == IndustryKeywords[i].1
    ensures FirstGroup(Lower(description), IndustryKeywords).GetOr("general") == "general" <==>
      forall i :: 0 <= i < |IndustryKeywords| ==> !ContainsAny(Lower(description), IndustryKeywords[i].0)
  {
    var r := FirstGroup(Lower(description), IndustryKeywords);
    if r.Some? {
      var i :| 0 <= i < |IndustryKeywords| && r.value == IndustryKeywords[i].1;
      IndustryNamesNotGeneral(i);
    }
  }

  lemma IndustryNamesNotGeneral(i: nat)
    requires i < |IndustryKeywords|
    ensures IndustryKeywords[i].1 != "general"
  {
  }

  /** Technology wins ties: "software" makes a description a technology one, whatever
      finance or healthcare terms it also holds. */
  lemma SoftwareIsTechnology(description: string)
    requires Contains(Lower(description), "software")
    ensures FirstGroup(Lower(description), IndustryKeywords).GetOr("general") == "technology"
  {
    assert "software" in IndustryKeywords[0].0;
  }

  // ---------------------------------------------------------------------------
  // Skills and key requirements

  const WebWords: seq<string> := ["web", "frontend", "ui"]
  const DataWords: seq<string> := ["data", "database", "sql"]
  const MobileWords: seq<string> := ["mobile", "app", "ios", "android"]

  /** The skills the keyword rules add. */
  function AdditionalSkills(description: string): (extra: seq<string>)
    ensures ContainsAny(Lower(description), WebWords) ==> forall s :: s in ["html", "css", "javascript"] ==> s in extra
    ensures ContainsAny(Lower(description), DataWords) ==> "sql" in extra && "data analysis" in extra
    ensures ContainsAny(Lower(description), MobileWords) ==> "mobile development" in extra && "app development" in extra
    ensures forall s :: s in extra ==>
      s in ["html", "css", "javascript", "sql", "data analysis", "mobile development", "app development"]
  {
    var lower := Lower(description);
    (if ContainsAny(lower, WebWords) then ["html", "css", "javascript"] else [])
    + (if ContainsAny(lower, DataWords) then ["sql", "data analysis"] else [])
    + (if ContainsAny(lower, MobileWords) then ["mobile development", "app development"] else [])
  }

  /** `_extract_skills_from_description`, given the skill patterns' matches in order:
      the lower-cased non-empty matches and the keyword-driven skills, without
      duplicates. The result is a set because a Python set decides its order. */
  function SkillsFromDescription(description: string, patternMatches: seq<string>): (skills: set<string>)
    ensures forall m :: m in patternMatches && m != "" ==> Lower(m) in skills
    ensures forall s :: s in AdditionalSkills(description) ==> s in skills
    ensures forall s :: s in skills ==>
      s in AdditionalSkills(description) || exists m :: m in patternMatches && m != "" && Lower(m) == s
  {
    (set m | m in patternMatches && m != "" :: Lower(m)) + (set s | s in AdditionalSkills(description))
  }

  /** With no pattern match and no keyword the skills list is empty. */
  lemma NoSkillsWithoutEvidence(description: string)
    requires !ContainsAny(Lower(description), WebWords) && !ContainsAny(Lower(description), DataWords)
    requires !ContainsAny(Lower(description), MobileWords)
    ensures SkillsFromDescription(description, []) == {}
  {
    assert AdditionalSkills(description) == [];
  }

  function NonBlank(): string -> bool {
    s => s != ""
  }

  /** `_extract_key_requirements`, given the requirement patterns' capture groups in order. */
  function KeyRequirements(patternMatches: seq<string>): seq<string> {
    Take(Filter(Map(patternMatches, Strip), NonBlank()), 5)
  }

  /** At most five non-empty stripped items, in the order they were found; a non-empty one
      with fewer than five non-empty ones before it is never skipped. */
  lemma KeyRequirementsFacts(patternMatches: seq<string>)
    ensures |KeyRequirements(patternMatches)| <= 5
    ensures forall x :: x in KeyRequirements(patternMatches) ==> x != "" && Strip(x) == x
    ensures IsSubsequence(KeyRequirements(patternMatches), Map(patternMatches, Strip))
    ensures forall i ::
      0 <= i < |patternMatches| && Strip(patternMatches[i]) != "" &&
      Count(Map(patternMatches[..i], Strip), NonBlank()) < 5 ==>
        Strip(patternMatches[i]) in KeyRequirements(patternMatches)
    ensures |KeyRequirements(patternMatches)| < 5 ==>
      forall m :: m in patternMatches && Strip(m) != "" ==> Strip(m) in KeyRequirements(patternMatches)
  {
    var stripped := Map(patternMatches, Strip);
    var kept := Filter(stripped, NonBlank());
    var r := KeyRequirements(patternMatches);
    forall x | x in r
      ensures x != "" && Strip(x) == x
    {
      var i :| 0 <= i < |r| && r[i] == x;
      assert kept[i] == x;
      assert x in kept;
      var k := MapWitness(patternMatches, Strip, x);
      StripIdempotent(patternMatches[k]);
    }
    forall i | 0 <= i < |patternMatches| && Strip(patternMatches[i]) != "" &&
      Count(Map(patternMatches[..i], Strip), NonBlank()) < 5
      ensures Strip(patternMatches[i]) in r
    {
      TakeFilterMapKeepsEarly(patternMatches, Strip, NonBlank(), 5, i);
    }
    forall m | |r| < 5 && m in patternMatches && Strip(m) != ""
      ensures Strip(m) in r
    {
      TakeFilterMapComplete(patternMatches, Strip, NonBlank(), 5, m);
    }
    PrefixIsSubsequence(kept, |r|);
    FilterIsSubsequence(stripped, NonBlank());
    SubsequenceTransitive(r, kept, stripped);
  }

  // ---------------------------------------------------------------------------
  // Match score

  datatype MatchResult = MatchResult(score: int, matched: seq<string>, missing: seq<string>, percentage: real)

  /** `skill.lower().strip()`. */
  function Normalize(skill: string): string {
    Strip(Lower(skill))
  }

  /** A job skill is covered by a résumé skill when either contains the other or the
      résumé skill contains one of the job skill's words. */
  predicate SkillMatches(jobSkill: string, resumeSkill: string) {
    Contains(resumeSkill, jobSkill) || Contains(jobSkill, resumeSkill) ||
    exists w :: w in Words(jobSkill) && Contains(resumeSkill, w)
  }

  /** Some résumé skill covers the job skill. */
  function CoveredBy(resumeSkills: seq<string>): string -> bool {
    jobSkill => exists r :: r in resumeSkills && SkillMatches(jobSkill, r)
  }

  function NotIn(xs: seq<string>): string -> bool {
    x => x !in xs
  }

  /** What `calculate_match_score` returns, with the percentage kept exact. */
  function MatchScore(resumeSkills: seq<string>, jobSkills: seq<string>): MatchResult {
    if resumeSkills == [] || jobSkills == [] then MatchResult(0, [], jobSkills, 0.0)
    else
      var resumeN := Map(resumeSkills, Normalize);
      var jobN := Map(jobSkills, Normalize);
      var matched := Filter(jobN, CoveredBy(resumeN));
      MatchResult(100 * |matched| / |jobN|, matched, Filter(jobN, NotIn(matched)),
                  100.0 * (|matched| as real) / (|jobN| as real))
  }

  /** The inner loop: whether some résumé skill covers the job skill, stopping at the first. */
  method AnyResumeSkillMatches(jobSkill: string, resumeN: seq<string>) returns (hit: bool)
    ensures hit == CoveredBy(resumeN)(jobSkill)
  {
    hit := false;
    var j := 0;
    while j < |resumeN| && !hit
      invariant 0 <= j <= |resumeN|
      invariant hit == exists k :: 0 <= k < j && SkillMatches(jobSkill, resumeN[k])
    {
      if SkillMatches(jobSkill, resumeN[j]) {
        hit := true;
      }
      j := j + 1;
    }
    if !hit {
      forall r | r in resumeN
        ensures !SkillMatches(jobSkill, r)
      {
        var k :| 0 <= k < |resumeN| && resumeN[k] == r;
      }
    }
  }

  /** `calculate_match_score`. */
  method CalculateMatchScore(resumeSkills: seq<string>, jobSkills: seq<string>) returns (result: MatchResult)
    ensures result == MatchScore(resumeSkills, jobSkills)
  {
    if resumeSkills == [] || jobSkills == [] {
      return MatchResult(0, [], jobSkills, 0.0);
    }
    var resumeN := Map(resumeSkills, Normalize);
    var jobN := Map(jobSkills, Normalize);
    var matched: seq<string> := [];
    var i := 0;
    while i < |jobN|
      invariant 0 <= i <= |jobN|
      invariant matched == Filter(jobN[..i], CoveredBy(resumeN))
    {
      FilterStep(jobN, i, CoveredBy(resumeN));
      var hit := AnyResumeSkillMatches(jobN[i], resumeN);
      if hit {
        matched := matched + [jobN[i]];
      }
      i := i + 1;
    }
    assert jobN[..i] == jobN;
    var pct := 100.0 * (|matched| as real) / (|jobN| as real);
    var missing := Filter(jobN, NotIn(matched));
    result := MatchResult(100 * |matched| / |jobN|, matched, missing, pct);
  }

  /** With no résumé or no job skills nothing matches and every job skill, as given, is missing. */
  lemma EmptyInputsScoreZero(resumeSkills: seq<string>, jobSkills: seq<string>)
    requires resumeSkills == [] || jobSkills == []
    ensures MatchScore(resumeSkills, jobSkills) == MatchResult(0, [], jobSkills, 0.0)
  {
  }

  lemma MulMonotone(a: int, b: int, c: nat)
    requires a <= b
    ensures a * c <= b * c
  {
  }

  lemma MulCancel(a: int, b: int, c: nat)
    requires a * c < b * c
    ensures a < b
  {
    if a >= b {
      MulMonotone(b, a, c);
    }
  }

  lemma FloorTimesDivisor(x: nat, n: nat)
    requires 0 < n
    ensures (x / n) * n <= x < (x / n + 1) * n
  {
  }

  /** `int(m / n * 100)` taken as the floor of 100·m/n: at most 100, 100 only for m == n,
      and never above the exact percentage. */
  lemma FloorPercent(m: nat, n: nat)
    requires 0 < n && m <= n
    ensures 0 <= 100 * m / n <= 100
    ensures 100 * m / n == 100 <==> m == n
    ensures (100 * m / n) as real <= 100.0 * (m as real) / (n as real)
  {
    var x := 100 * m;
    var q := x / n;
    FloorTimesDivisor(x, n);
    assert q * n <= x;
    RealFloor(q, n, x);
    MulMonotone(m, n, 100);
    if q > 100 {
      MulMonotone(101, q, n);
    }
    if m < n {
      MulMonotone(m + 1, n, 100);
      MulCancel(q, 100, n);
    } else {
      if q < 100 {
        MulMonotone(q + 1, 100, n);
      }
    }
  }

  lemma RealFloor(q: int, n: nat, x: nat)
    requires 0 < n && q * n <= x
    ensures (q as real) <= (x as real) / (n as real)
  {
    assert (q * n) as real == (q as real) * (n as real);
  }

  /** The score is between 0 and 100, 100 exactly when every job skill is covered, and
      never more than the exact percentage. */
  lemma ScoreBounds(resumeSkills: seq<string>, jobSkills: seq<string>)
    ensures 0 <= MatchScore(resumeSkills, jobSkills).score <= 100
    ensures MatchScore(resumeSkills, jobSkills).score as real <= MatchScore(resumeSkills, jobSkills).percentage
    ensures |MatchScore(resumeSkills, jobSkills).matched| <= if resumeSkills == [] then 0 else |jobSkills|
    ensures resumeSkills != [] && jobSkills != [] ==>
      (MatchScore(resumeSkills, jobSkills).score == 100 <==> |MatchScore(resumeSkills, jobSkills).matched| == |jobSkills|)
  {
    if resumeSkills != [] && jobSkills != [] {
      var jobN := Map(jobSkills, Normalize);
      var matched := Filter(jobN, CoveredBy(Map(resumeSkills, Normalize)));
      FloorPercent(|matched|, |jobN|);
    }
  }

  /** Matched and missing split the normalised job skills: each one is in exactly one of
      the two lists, matched skills are covered by the résumé and missing ones are not. */
  lemma MatchPartition(resumeSkills: seq<string>, jobSkills: seq<string>, x: string)
    requires resumeSkills != [] && jobSkills != []
    ensures var r := MatchScore(resumeSkills, jobSkills);
      var jobN := Map(jobSkills, Normalize);
      (x in r.matched <==> x in jobN && CoveredBy(Map(resumeSkills, Normalize))(x)) &&
      (x in r.missing <==> x in jobN && !CoveredBy(Map(resumeSkills, Normalize))(x)) &&
      !(x in r.matched && x in r.missing)
  {
    var jobN := Map(jobSkills, Normalize);
    var covered := CoveredBy(Map(resumeSkills, Normalize));
    var matched := Filter(jobN, covered);
    FilterMembership(jobN, covered, x);
    FilterMembership(jobN, NotIn(matched), x);
  }

  /** Matched and missing keep the job skills' order. */
  lemma MatchOrder(resumeSkills: seq<string>, jobSkills: seq<string>)
    requires resumeSkills != [] && jobSkills != []
    ensures IsSubsequence(MatchScore(resumeSkills, jobSkills).matched, Map(jobSkills, Normalize))
    ensures IsSubsequence(MatchScore(resumeSkills, jobSkills).missing, Map(jobSkills, Normalize))
  {
    var jobN := Map(jobSkills, Normalize);
    var matched := Filter(jobN, CoveredBy(Map(resumeSkills, Normalize)));
    FilterIsSubsequence(jobN, CoveredBy(Map(resumeSkills, Normalize)));
    FilterIsSubsequence(jobN, NotIn(matched));
  }

  /** A résumé skill equal to a job skill after normalisation covers it. */
  lemma IdenticalSkillMatches(resumeSkills: seq<string>, jobSkills: seq<string>, i: nat, j: nat)
    requires i < |resumeSkills| && j < |jobSkills|
    requires Normalize(resumeSkills[i]) == Normalize(jobSkills[j])
    ensures Normalize(jobSkills[j]) in MatchScore(resumeSkills, jobSkills).matched
  {
    var s := Normalize(jobSkills[j]);
    MapMember(resumeSkills, Normalize, i);
    MapMember(jobSkills, Normalize, j);
    assert StartsWith(s, s) by { assert s[..|s|] == s; }
    assert SkillMatches(s, s);
    FilterKeeps(Map(jobSkills, Normalize), CoveredBy(Map(resumeSkills, Normalize)), s);
  }
}
