/**
 * The tailored-résumé section builders of the application service: the skills line
 * that puts job-relevant skills first, the summary, the additional-information block,
 * and the keyword phrases used in the generated cover letter.
 */
module ApplicationService {
  import opened Wrappers
  import opened Text
  import opened Seqs

  // ---------------------------------------------------------------------------
  // Skills section

  const NoSkillsText: string := "Skills: Adaptable, Quick Learner, Team Player"
  const NoSelectedSkillsText: string := "Skills: Adaptable, Quick Learner"

  /** A résumé skill is relevant when some job skill occurs in it, ignoring case. */
  function Relevant(jobSkills: seq<string>): string -> bool {
    skill => exists j :: j in jobSkills && Contains(Lower(skill), Lower(j))
  }

  function NotRelevant(jobSkills: seq<string>): string -> bool {
    skill => !Relevant(jobSkills)(skill)
  }

  /** The skills listed: every relevant skill, then at most five others, each group in
      résumé order. */
  function SelectedSkills(resumeSkills: seq<string>, jobSkills: seq<string>): seq<string> {
    Filter(resumeSkills, Relevant(jobSkills)) + Take(Filter(resumeSkills, NotRelevant(jobSkills)), 5)
  }

  function SkillsSectionText(resumeSkills: seq<string>, jobSkills: seq<string>): string {
    if resumeSkills == [] then NoSkillsText
    else
      var selected := SelectedSkills(resumeSkills, jobSkills);
      if selected == [] then NoSelectedSkillsText else Join(selected, ", ")
  }

  /** `_generate_skills_section`. */
  method GenerateSkillsSection(resumeSkills: seq<string>, jobSkills: seq<string>) returns (section: string)
    ensures section == SkillsSectionText(resumeSkills, jobSkills)
  {
    if resumeSkills == [] {
      return NoSkillsText;
    }
    var relevant: seq<string> := [];
    var others: seq<string> := [];
    var rel := Relevant(jobSkills);
    var i := 0;
    while i < |resumeSkills|
      invariant 0 <= i <= |resumeSkills|
      invariant relevant == Filter(resumeSkills[..i], rel)
      invariant others == Filter(resumeSkills[..i], NotRelevant(jobSkills))
    {
      FilterStep(resumeSkills, i, rel);
      FilterStep(resumeSkills, i, NotRelevant(jobSkills));
      if rel(resumeSkills[i]) {
        relevant := relevant + [resumeSkills[i]];
      } else {
        others := others + [resumeSkills[i]];
      }
      i := i + 1;
    }
    assert resumeSkills[..i] == resumeSkills;
    var all := relevant + Take(others, 5);
    section := if all == [] then NoSelectedSkillsText else Join(all, ", ");
  }

  /** Every skill listed comes from the résumé; each relevant one is listed; the others
      are limited to five. */
  lemma SelectedSkillsFacts(resumeSkills: seq<string>, jobSkills: seq<string>)
    ensures forall x :: x in SelectedSkills(resumeSkills, jobSkills) ==> x in resumeSkills
    ensures forall x :: x in resumeSkills && Relevant(jobSkills)(x) ==> x in SelectedSkills(resumeSkills, jobSkills)
    ensures |SelectedSkills(resumeSkills, jobSkills)| <= |Filter(resumeSkills, Relevant(jobSkills))| + 5
  {
    var others := Filter(resumeSkills, NotRelevant(jobSkills));
    forall x | x in Take(others, 5)
      ensures x in resumeSkills
    {
      var i :| 0 <= i < |Take(others, 5)| && Take(others, 5)[i] == x;
      assert others[i] == x;
    }
    forall x | x in resumeSkills && Relevant(jobSkills)(x)
      ensures x in SelectedSkills(resumeSkills, jobSkills)
    {
      FilterKeeps(resumeSkills, Relevant(jobSkills), x);
    }
  }

  /** The relevant skills come first, and all of them; none of the skills after them is relevant. */
  lemma RelevantFirst(resumeSkills: seq<string>, jobSkills: seq<string>)
    ensures var sel := SelectedSkills(resumeSkills, jobSkills);
      var n := |Filter(resumeSkills, Relevant(jobSkills))|;
      n <= |sel| &&
      (forall k :: 0 <= k < n ==> Relevant(jobSkills)(sel[k])) &&
      (forall k :: n <= k < |sel| ==> !Relevant(jobSkills)(sel[k]))
  {
    var relevant := Filter(resumeSkills, Relevant(jobSkills));
    var others := Take(Filter(resumeSkills, NotRelevant(jobSkills)), 5);
    var sel := relevant + others;
    forall k | 0 <= k < |relevant|
      ensures Relevant(jobSkills)(sel[k])
    {
      assert sel[k] == relevant[k] && relevant[k] in relevant;
    }
    forall k | |relevant| <= k < |sel|
      ensures !Relevant(jobSkills)(sel[k])
    {
      var x := sel[k];
      assert x == others[k - |relevant|];
      assert x == Filter(resumeSkills, NotRelevant(jobSkills))[k - |relevant|];
      assert x in Filter(resumeSkills, NotRelevant(jobSkills));
    }
  }

  /** With no job skills the line lists the first five résumé skills. */
  lemma NoJobSkillsFirstFive(resumeSkills: seq<string>)
    ensures SelectedSkills(resumeSkills, []) == Take(resumeSkills, 5)
  {
    FilterNone(resumeSkills, Relevant([]));
    FilterAll(resumeSkills, NotRelevant([]));
  }

  /** A résumé with skills always lists at least one. */
  lemma SelectedNeverEmpty(resumeSkills: seq<string>, jobSkills: seq<string>)
    requires resumeSkills != []
    ensures SelectedSkills(resumeSkills, jobSkills) != []
  {
    var x := resumeSkills[0];
    assert x in resumeSkills;
    if Relevant(jobSkills)(x) {
      FilterKeeps(resumeSkills, Relevant(jobSkills), x);
    } else {
      FilterKeeps(resumeSkills, NotRelevant(jobSkills), x);
    }
  }

  /** Without résumé skills the section is the fixed fallback. The second fallback text is
      never produced: for a résumé with skills the line is the selected skills joined by ", ". */
  lemma SkillsLineIsJoin(resumeSkills: seq<string>, jobSkills: seq<string>)
    ensures resumeSkills == [] ==> SkillsSectionText(resumeSkills, jobSkills) == NoSkillsText
    ensures resumeSkills != [] ==>
      SkillsSectionText(resumeSkills, jobSkills) == Join(SelectedSkills(resumeSkills, jobSkills), ", ")
  {
    if resumeSkills != [] {
      SelectedNeverEmpty(resumeSkills, jobSkills);
    }
  }

  // ---------------------------------------------------------------------------
  // Summary

  const DefaultSummary: string := "Experienced professional seeking new opportunities"

  /** `_generate_summary_section`: the stored summary, or the default, followed by the
      first three job skills when there are any. */
  function Summary(storedSummary: Option<string>, jobSkills: seq<string>): string {
    var base := if Truthy(storedSummary) then storedSummary.value else DefaultSummary;
    if jobSkills != [] then base + " with expertise in " + Join(Take(jobSkills, 3), ", ") + "." else base
  }

  /** Without job skills the summary is the base unchanged; with them it extends the base. */
  lemma SummaryFacts(storedSummary: Option<string>, jobSkills: seq<string>)
    ensures var base := if Truthy(storedSummary) then storedSummary.value else DefaultSummary;
      (jobSkills == [] ==> Summary(storedSummary, jobSkills) == base) &&
      StartsWith(Summary(storedSummary, jobSkills), base)
    ensures !Truthy(storedSummary) && jobSkills == [] ==> Summary(storedSummary, jobSkills) == DefaultSummary
  {
    var base := if Truthy(storedSummary) then storedSummary.value else DefaultSummary;
    var r := Summary(storedSummary, jobSkills);
    assert r[..|base|] == base;
  }

  /** Only the first three job skills matter. */
  lemma SummaryUsesThreeSkills(storedSummary: Option<string>, jobSkills: seq<string>)
    requires |jobSkills| >= 3
    ensures Summary(storedSummary, jobSkills) == Summary(storedSummary, jobSkills[..3])
  {
    assert Take(jobSkills[..3], 3) == Take(jobSkills, 3);
  }

  // ---------------------------------------------------------------------------
  // Additional section

  const ImmediateStart: string := "Available for immediate start"

  /** `job.industry and job.industry != "general"`. */
  predicate SpecificIndustry(industry: Option<string>) {
    Truthy(industry) && industry.value != "general"
  }

  function IndustryLine(industry: string): string {
    "Industry Knowledge: " + Title(industry)
  }

  function CertificationsLine(certifications: seq<string>): string {
    "Certifications: " + Join(Take(certifications, 3), ", ")
  }

  /** The lines of the additional section. */
  function AdditionalInfo(industry: Option<string>, certifications: seq<string>): seq<string> {
    var lines :=
      (if SpecificIndustry(industry) then [IndustryLine(industry.value)] else []) +
      (if certifications != [] then [CertificationsLine(certifications)] else []);
    if lines == [] then [ImmediateStart] else lines
  }

  /** `_generate_additional_section`. */
  method GenerateAdditionalSection(industry: Option<string>, certifications: seq<string>) returns (section: string)
    ensures section == Join(AdditionalInfo(industry, certifications), "\n")
  {
    var info: seq<string> := [];
    if SpecificIndustry(industry) {
      info := info + [IndustryLine(industry.value)];
    }
    if certifications != [] {
      info := info + [CertificationsLine(certifications)];
    }
    if info == [] {
      info := info + [ImmediateStart];
    }
    section := Join(info, "\n");
  }

  /** The industry line comes first when a specific industry is set, the certifications
      line last when there are certifications, and the fallback line is the whole section
      exactly when neither applies. */
  lemma AdditionalInfoFacts(industry: Option<string>, certifications: seq<string>)
    ensures var info := AdditionalInfo(industry, certifications);
      && |info| == (if SpecificIndustry(industry) && certifications != [] then 2 else 1)
      && (SpecificIndustry(industry) ==> info[0] == IndustryLine(industry.value))
      && (certifications != [] ==> info[|info| - 1] == CertificationsLine(certifications))
      && (info == [ImmediateStart] <==> !SpecificIndustry(industry) && certifications == [])
  {
    if SpecificIndustry(industry) {
      assert IndustryLine(industry.value)[0] == 'I';
    }
    if certifications != [] {
      assert CertificationsLine(certifications)[0] == 'C';
    }
    assert ImmediateStart[0] == 'A';
  }

  /** Only the first three certifications matter. */
  lemma AdditionalUsesThreeCertifications(industry: Option<string>, certifications: seq<string>)
    requires |certifications| >= 3
    ensures AdditionalInfo(industry, certifications) == AdditionalInfo(industry, certifications[..3])
  {
    assert Take(certifications[..3], 3) == Take(certifications, 3);
  }

  // ---------------------------------------------------------------------------
  // Cover-letter phrases

  const RoleFallback: string := "professional challenges"

  /** The attractions of a role. */
  function Attractions(experienceLevel: Option<string>, industry: Option<string>): seq<string> {
    var parts :=
      (if Truthy(experienceLevel) then [experienceLevel.value + "-level challenges"] else []) +
      (if SpecificIndustry(industry) then [industry.value + " sector growth"] else []);
    if parts == [] then [RoleFallback] else parts
  }

  /** `_extract_role_attraction`. */
  method ExtractRoleAttraction(experienceLevel: Option<string>, industry: Option<string>) returns (phrase: string)
    ensures phrase == Join(Attractions(experienceLevel, industry), " and ")
  {
    var attractions: seq<string> := [];
    if Truthy(experienceLevel) {
      attractions := attractions + [experienceLevel.value + "-level challenges"];
    }
    if SpecificIndustry(industry) {
      attractions := attractions + [industry.value + " sector growth"];
    }
    if attractions == [] {
      attractions := attractions + [RoleFallback];
    }
    phrase := Join(attractions, " and ");
  }

  /** The phrase is the fallback exactly when neither a level nor a specific industry is
      known; with both it names both, joined by " and ". */
  lemma RoleAttractionCases(experienceLevel: Option<string>, industry: Option<string>)
    ensures !Truthy(experienceLevel) && !SpecificIndustry(industry) ==>
      Join(Attractions(experienceLevel, industry), " and ") == RoleFallback
    ensures Truthy(experienceLevel) && SpecificIndustry(industry) ==>
      Join(Attractions(experienceLevel, industry), " and ") ==
        experienceLevel.value + "-level challenges and " + industry.value + " sector growth"
    ensures Truthy(experienceLevel) && !SpecificIndustry(industry) ==>
      Join(Attractions(experienceLevel, industry), " and ") == experienceLevel.value + "-level challenges"
  {
  }

  const BackgroundFallback: string := "professional development"
  const PassionFallback: string := "professional growth"

  /** `_extract_background_keywords`. */
  function BackgroundKeywords(skills: seq<string>): (phrase: string)
    ensures skills == [] ==> phrase == BackgroundFallback
  {
    if skills != [] then Join(Take(skills, 3), ", ") else BackgroundFallback
  }

  /** Only the first three skills matter, and a single skill is named as it is. */
  lemma BackgroundUsesThreeSkills(skills: seq<string>)
    ensures |skills| >= 3 ==> BackgroundKeywords(skills) == BackgroundKeywords(skills[..3])
    ensures |skills| == 1 ==> BackgroundKeywords(skills) == skills[0]
  {
    if |skills| >= 3 {
      assert Take(skills[..3], 3) == Take(skills, 3);
    }
  }

  /** `_extract_passion_keywords`. */
  function PassionKeywords(industry: Option<string>): (phrase: string)
    ensures !SpecificIndustry(industry) ==> phrase == PassionFallback
    ensures SpecificIndustry(industry) ==> phrase == industry.value + " innovation"
  {
    if SpecificIndustry(industry) then industry.value + " innovation" else PassionFallback
  }
}
