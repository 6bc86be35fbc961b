/**
 * The deterministic part of the backend AI service: the prompt builder, the
 * résumé-to-text flattener, and the extractors that turn the model's free-text
 * answer into keyword lists, windows of lines and a capped score estimate.
 * The model call itself is not part of this module: its answer is an input.
 */
module AiService {
  import opened Wrappers
  import opened Text
  import opened Seqs

  // ---------------------------------------------------------------------------
  // Contextual prompt

  /** `d.get(key, '')` on a dictionary of strings; a missing key reads as "". */
  function Lookup(d: map<string, string>, key: string): string {
    if key in d then d[key] else ""
  }

  /** One context block: its header (a blank line, the heading and a colon) and the
      value, present only when the value is non-empty. */
  function Block(ctx: map<string, string>, key: string, header: string): string {
    var value := Lookup(ctx, key);
    if value != "" then header + value else ""
  }

  const ResumeHeader := "\n\nUSER'S CURRENT RESUME:\n"
  const JobHeader := "\n\nTARGET JOB DESCRIPTION:\n"
  const ExperienceHeader := "\n\nRELEVANT EXPERIENCE:\n"
  const SkillsHeader := "\n\nUSER'S SKILLS:\n"

  /** The four rendered keys, in output order. */
  function ContextString(ctx: map<string, string>): string {
    Block(ctx, "user_resume", ResumeHeader)
      + Block(ctx, "job_description", JobHeader)
      + Block(ctx, "relevant_experience", ExperienceHeader)
      + Block(ctx, "skills", SkillsHeader)
  }

  /** What the prompt builder returns: the user prompt alone for a missing or
      empty context, otherwise the user prompt, a newline and the context blocks. */
  function ContextualPrompt(userPrompt: string, context: Option<map<string, string>>): string {
    if context.None? || context.value == map[] then userPrompt
    else userPrompt + "\n" + ContextString(context.value)
  }

  /** Appending a block's text when its value is non-empty extends the blocks so far by that block. */
  lemma AppendBlock(soFar: string, ctx: map<string, string>, key: string, header: string)
    ensures Lookup(ctx, key) != "" ==> soFar + header + ctx[key] == soFar + Block(ctx, key, header)
    ensures Lookup(ctx, key) == "" ==> soFar == soFar + Block(ctx, key, header)
  {
    if Lookup(ctx, key) == "" {
      assert soFar + "" == soFar;
    }
  }

  /** `_build_contextual_prompt`: the system prompt is accepted and not used. */
  method BuildContextualPrompt(systemPrompt: string, userPrompt: string, context: Option<map<string, string>>)
    returns (prompt: string)
    ensures prompt == ContextualPrompt(userPrompt, context)
  {
    if context.None? || context.value == map[] {
      return userPrompt;
    }
    var ctx := context.value;
    var contextStr := "";
    AppendBlock(contextStr, ctx, "user_resume", ResumeHeader);
    if Lookup(ctx, "user_resume") != "" {
      contextStr := contextStr + ResumeHeader + ctx["user_resume"];
    }
    AppendBlock(contextStr, ctx, "job_description", JobHeader);
    if Lookup(ctx, "job_description") != "" {
      contextStr := contextStr + JobHeader + ctx["job_description"];
    }
    AppendBlock(contextStr, ctx, "relevant_experience", ExperienceHeader);
    if Lookup(ctx, "relevant_experience") != "" {
      contextStr := contextStr + ExperienceHeader + ctx["relevant_experience"];
    }
    AppendBlock(contextStr, ctx, "skills", SkillsHeader);
    if Lookup(ctx, "skills") != "" {
      contextStr := contextStr + SkillsHeader + ctx["skills"];
    }
    assert "" + Block(ctx, "user_resume", ResumeHeader) == Block(ctx, "user_resume", ResumeHeader);
    prompt := userPrompt + "\n" + contextStr;
  }

  /** Without context, the user prompt goes out unchanged. */
  lemma PromptWithoutContext(userPrompt: string, context: Option<map<string, string>>)
    requires context.None? || context == Some(map[])
    ensures ContextualPrompt(userPrompt, context) == userPrompt
  {
  }

  /** With a non-empty context the prompt is the user prompt and a newline, followed by
      the blocks. */
  lemma PromptExtendsUserPrompt(userPrompt: string, ctx: map<string, string>)
    requires ctx != map[]
    ensures var p := ContextualPrompt(userPrompt, Some(ctx));
            |p| > |userPrompt| && p[..|userPrompt|] == userPrompt && p[|userPrompt|] == '\n'
  {
    var p := ContextualPrompt(userPrompt, Some(ctx));
    assert p == userPrompt + ("\n" + ContextString(ctx));
  }

  /** Keys other than the four rendered ones (target_role, company, ...) do not affect
      the prompt, as long as the context is non-empty either way. */
  lemma PromptIgnoresOtherKeys(userPrompt: string, c1: map<string, string>, c2: map<string, string>)
    requires c1 != map[] && c2 != map[]
    requires forall k :: k in {"user_resume", "job_description", "relevant_experience", "skills"} ==>
      Lookup(c1, k) == Lookup(c2, k)
    ensures ContextualPrompt(userPrompt, Some(c1)) == ContextualPrompt(userPrompt, Some(c2))
  {
    assert Lookup(c1, "user_resume") == Lookup(c2, "user_resume");
    assert Lookup(c1, "job_description") == Lookup(c2, "job_description");
    assert Lookup(c1, "relevant_experience") == Lookup(c2, "relevant_experience");
    assert Lookup(c1, "skills") == Lookup(c2, "skills");
  }

  /** A block appears exactly when its value is non-empty, and then it contains the value. */
  lemma BlockShowsValue(ctx: map<string, string>, key: string, header: string)
    ensures Block(ctx, key, header) == "" <==> Lookup(ctx, key) == ""
    ensures Lookup(ctx, key) != "" ==> Contains(Block(ctx, key, header), Lookup(ctx, key))
  {
    var v := Lookup(ctx, key);
    if v != "" {
      var b := Block(ctx, key, header);
      assert b[|header|..|header| + |v|] == v;
      ContainsAt(b, v, |header|);
    }
  }

  // ---------------------------------------------------------------------------
  // Résumé as text

  /** The résumé dictionary handed to the AI service: a missing section reads as empty. */
  datatype ResumeData = ResumeData(
    personal: map<string, string>,
    education: seq<map<string, string>>,
    experience: seq<map<string, string>>,
    skills: seq<map<string, string>>)

  function PersonalLines(p: map<string, string>): seq<string> {
    if p == map[] then []
    else ["Name: " + Lookup(p, "name"), "Email: " + Lookup(p, "email"), "Location: " + Lookup(p, "location")]
  }

  function EducationLine(e: map<string, string>): string {
    "Education: " + Lookup(e, "school") + " - " + Lookup(e, "degree")
  }

  /** The two lines of one experience entry: position and company, then the description. */
  function ExperienceEntryLines(e: map<string, string>): seq<string> {
    [PositionLine(e), DescriptionLine(e)]
  }

  function PositionLine(e: map<string, string>): string {
    "Experience: " + Lookup(e, "position") + " at " + Lookup(e, "company")
  }

  function DescriptionLine(e: map<string, string>): string {
    "Description: " + Lookup(e, "description")
  }

  function ExperienceLines(exps: seq<map<string, string>>): (lines: seq<string>)
    ensures |lines| == 2 * |exps|
  {
    if exps == [] then [] else ExperienceLines(exps[..|exps| - 1]) + ExperienceEntryLines(exps[|exps| - 1])
  }

  /** Entry k of the experience section occupies lines 2k and 2k + 1. */
  lemma {:induction false} ExperienceLinesAt(exps: seq<map<string, string>>, k: nat)
    requires k < |exps|
    ensures ExperienceLines(exps)[2 * k] == PositionLine(exps[k])
    ensures ExperienceLines(exps)[2 * k + 1] == DescriptionLine(exps[k])
  {
    if k < |exps| - 1 {
      assert exps[..|exps| - 1][k] == exps[k];
      ExperienceLinesAt(exps[..|exps| - 1], k);
    }
  }

  lemma ExperienceLinesStep(exps: seq<map<string, string>>, j: nat)
    requires j < |exps|
    ensures ExperienceLines(exps[..j + 1]) == ExperienceLines(exps[..j]) + ExperienceEntryLines(exps[j])
  {
    assert exps[..j + 1][..j] == exps[..j];
  }

  function SkillName(s: map<string, string>): string {
    Lookup(s, "name")
  }

  function SkillsLine(skills: seq<map<string, string>>): string {
    "Skills: " + Join(Map(skills, SkillName), ", ")
  }

  /** The lines `_extract_resume_text` emits, in order. */
  function ResumeLines(d: ResumeData): seq<string> {
    PersonalLines(d.personal)
      + Map(d.education, EducationLine)
      + ExperienceLines(d.experience)
      + (if d.skills == [] then [] else [SkillsLine(d.skills)])
  }

  function ResumeText(d: ResumeData): string {
    Join(ResumeLines(d), "\n")
  }

  /** `_extract_resume_text`: the personal lines, one line per school, two per
      position and the skills line, joined with newlines. */
  method ExtractResumeText(d: ResumeData) returns (text: string)
    ensures text == ResumeText(d)
  {
    var parts: seq<string> := [];
    if d.personal != map[] {
      parts := parts + ["Name: " + Lookup(d.personal, "name")];
      parts := parts + ["Email: " + Lookup(d.personal, "email")];
      parts := parts + ["Location: " + Lookup(d.personal, "location")];
    }
    assert parts == PersonalLines(d.personal);
    parts := AppendEducationLines(parts, d.education);
    parts := AppendExperienceLines(parts, d.experience);
    if d.skills != [] {
      parts := parts + [SkillsLine(d.skills)];
    } else {
      assert parts + [] == parts;
    }
    assert parts == ResumeLines(d);
    text := Join(parts, "\n");
  }

  /** The loop over the education entries. */
  method AppendEducationLines(parts: seq<string>, education: seq<map<string, string>>)
    returns (result: seq<string>)
    ensures result == parts + Map(education, EducationLine)
  {
    result := parts;
    var i := 0;
    while i < |education|
      invariant 0 <= i <= |education|
      invariant result == parts + Map(education[..i], EducationLine)
    {
      MapStep(education, i, EducationLine);
      AppendAssoc(parts, Map(education[..i], EducationLine), [EducationLine(education[i])]);
      result := result + [EducationLine(education[i])];
      i := i + 1;
    }
    assert education[..i] == education;
  }

  /** The loop over the experience entries. */
  method AppendExperienceLines(parts: seq<string>, experience: seq<map<string, string>>)
    returns (result: seq<string>)
    ensures result == parts + ExperienceLines(experience)
  {
    result := parts;
    var j := 0;
    while j < |experience|
      invariant 0 <= j <= |experience|
      invariant result == parts + ExperienceLines(experience[..j])
    {
      var e := experience[j];
      ExperienceLinesStep(experience, j);
      AppendAssoc(parts, ExperienceLines(experience[..j]), ExperienceEntryLines(e));
      AppendAssoc(result, [PositionLine(e)], [DescriptionLine(e)]);
      result := result + [PositionLine(e)];
      result := result + [DescriptionLine(e)];
      j := j + 1;
    }
    assert experience[..j] == experience;
  }

  /** The résumé text has three personal lines (when there is personal data), one per
      school, two per position and one for the skills (when there are any). */
  lemma ResumeLinesCount(d: ResumeData)
    ensures |ResumeLines(d)| == (if d.personal == map[] then 0 else 3) + |d.education|
                                + 2 * |d.experience| + (if d.skills == [] then 0 else 1)
  {
  }

  /** School i is on the line after the personal lines and the schools before it. */
  lemma ResumeEducationLine(d: ResumeData, i: nat)
    requires i < |d.education|
    ensures var p := if d.personal == map[] then 0 else 3;
            p + i < |ResumeLines(d)| && ResumeLines(d)[p + i] == EducationLine(d.education[i])
  {
    var p := if d.personal == map[] then 0 else 3;
    MapIndex(d.education, EducationLine, i);
    assert ResumeLines(d)[p + i] == Map(d.education, EducationLine)[i];
  }

  /** Position k takes the two lines after the schools and the positions before it. */
  lemma ResumeExperienceLines(d: ResumeData, k: nat)
    requires k < |d.experience|
    ensures var at := (if d.personal == map[] then 0 else 3) + |d.education| + 2 * k;
            && at + 1 < |ResumeLines(d)|
            && ResumeLines(d)[at] == PositionLine(d.experience[k])
            && ResumeLines(d)[at + 1] == DescriptionLine(d.experience[k])
  {
    var p := if d.personal == map[] then 0 else 3;
    var at := p + |d.education| + 2 * k;
    var exp := ExperienceLines(d.experience);
    ExperienceLinesAt(d.experience, k);
    assert ResumeLines(d)[at] == exp[2 * k];
    assert ResumeLines(d)[at + 1] == exp[2 * k + 1];
  }

  /** The skills line, when present, comes last. */
  lemma ResumeSkillsLast(d: ResumeData)
    requires d.skills != []
    ensures ResumeLines(d)[|ResumeLines(d)| - 1] == SkillsLine(d.skills)
  {
  }

  // ---------------------------------------------------------------------------
  // Keywords

  /** The fixed technology vocabulary of `_extract_keywords` and `_analyze_keywords`
      (the source spells the same list out twice). */
  const TechKeywords: seq<string> := ["python", "javascript", "react", "node.js", "aws", "docker", "sql", "git"]

  lemma {:induction false} SetOfSeqSize<T>(s: seq<T>)
    ensures |set x | x in s| <= |s|
  {
    if s != [] {
      SetOfSeqSize(s[1..]);
      assert (set x | x in s) == (set x | x in s[1..]) + {s[0]};
    }
  }

  /** `_extract_keywords`: the lower-cased whitespace-separated words that are in the
      vocabulary, without duplicates (the source's `list(set(...))`, whose order is unspecified). */
  function ExtractKeywords(text: string): (found: set<string>)
    ensures forall k :: k in found <==> k in TechKeywords && exists w :: w in Words(text) && Lower(w) == k
    ensures |found| <= |TechKeywords|
  {
    var found := set w | w in Words(text) && Lower(w) in TechKeywords :: Lower(w);
    forall k | k in TechKeywords && exists w :: w in Words(text) && Lower(w) == k
      ensures k in found
    {
      var w :| w in Words(text) && Lower(w) == k;
      assert Lower(w) in found;
    }
    SubsetSize(found, set k | k in TechKeywords);
    SetOfSeqSize(TechKeywords);
    found
  }

  datatype KeywordAnalysis = KeywordAnalysis(
    matching: seq<string>,
    missing: seq<string>,
    percentage: real,
    resumeKeywords: seq<string>,
    jobKeywords: seq<string>)

  function OccursIn(text: string): string -> bool {
    kw => Contains(text, kw)
  }

  function InList(xs: seq<string>): string -> bool {
    kw => kw in xs
  }

  function NotInList(xs: seq<string>): string -> bool {
    kw => kw !in xs
  }

  /** `_analyze_keywords`: vocabulary words occurring as substrings of the lower-cased
      résumé text and job description, and how they overlap. The percentage is exact
      (the source's round to one decimal is not modelled). */
  function AnalyzeKeywords(d: ResumeData, jobDescription: string): (a: KeywordAnalysis)
    ensures forall k :: k in a.resumeKeywords <==> k in TechKeywords && Contains(Lower(ResumeText(d)), k)
    ensures forall k :: k in a.jobKeywords <==> k in TechKeywords && Contains(Lower(jobDescription), k)
    ensures forall k :: !(k in a.matching && k in a.missing)
    ensures forall k :: k in a.jobKeywords <==> k in a.matching || k in a.missing
    ensures forall k :: k in a.matching <==> k in a.resumeKeywords && k in a.jobKeywords
    ensures a.jobKeywords == [] ==> a.percentage == 0.0
    ensures 0.0 <= a.percentage <= 100.0
  {
    var resumeText := Lower(ResumeText(d));
    var jobLower := Lower(jobDescription);
    var resumeKeywords := Filter(TechKeywords, OccursIn(resumeText));
    var jobKeywords := Filter(TechKeywords, OccursIn(jobLower));
    var matching := Filter(resumeKeywords, InList(jobKeywords));
    var missing := Filter(jobKeywords, NotInList(resumeKeywords));
    VocabularyHits(resumeText);
    VocabularyHits(jobLower);
    OverlapFacts(resumeKeywords, jobKeywords);
    MatchingWithinJob(resumeText, jobLower);
    var percentage := if jobKeywords != [] then Percent(|matching|, |jobKeywords|) else 0.0;
    KeywordAnalysis(matching, missing, percentage, resumeKeywords, jobKeywords)
  }

  /** `len(part) / len(whole) * 100`, in exact arithmetic. */
  function Percent(part: nat, whole: nat): (r: real)
    requires 0 < whole && part <= whole
    ensures 0.0 <= r <= 100.0
    ensures part == whole ==> r == 100.0
  {
    var q := (part as real) / (whole as real);
    assert q <= 1.0 by {
      calc {
        q;
        <= (whole as real) / (whole as real);
        == 1.0;
      }
    }
    q * 100.0
  }

  lemma VocabularyHits(text: string)
    ensures forall k :: k in Filter(TechKeywords, OccursIn(text)) <==> k in TechKeywords && Contains(text, k)
  {
    forall k
      ensures k in Filter(TechKeywords, OccursIn(text)) <==> k in TechKeywords && Contains(text, k)
    {
      FilterMembership(TechKeywords, OccursIn(text), k);
    }
  }

  /** The matching and missing lists split the job keywords by presence in the résumé. */
  lemma OverlapFacts(rk: seq<string>, jk: seq<string>)
    ensures forall k :: k in Filter(rk, InList(jk)) <==> k in rk && k in jk
    ensures forall k :: k in Filter(jk, NotInList(rk)) <==> k in jk && k !in rk
  {
    forall k
      ensures k in Filter(rk, InList(jk)) <==> k in rk && k in jk
      ensures k in Filter(jk, NotInList(rk)) <==> k in jk && k !in rk
    {
      FilterMembership(rk, InList(jk), k);
      FilterMembership(jk, NotInList(rk), k);
    }
  }

  /** The matching keywords are the job keywords that also occur in the résumé, so there
      are never more of them than job keywords. */
  lemma MatchingWithinJob(resumeText: string, jobLower: string)
    ensures var r := Filter(TechKeywords, OccursIn(resumeText));
            var j := Filter(TechKeywords, OccursIn(jobLower));
            |Filter(r, InList(j))| <= |j|
  {
    var r := Filter(TechKeywords, OccursIn(resumeText));
    var j := Filter(TechKeywords, OccursIn(jobLower));
    forall i | 0 <= i < |r|
      ensures InList(j)(r[i]) == OccursIn(jobLower)(r[i])
    {
      assert r[i] in r;
      FilterMembership(TechKeywords, OccursIn(jobLower), r[i]);
    }
    FilterCongruent(r, InList(j), OccursIn(jobLower));
    FilterCommute(TechKeywords, OccursIn(resumeText), OccursIn(jobLower));
  }

  // ---------------------------------------------------------------------------
  // Score estimate

  /** End of the run of ASCII digits starting at i. */
  function DigitRunEnd(s: string, i: nat): (j: nat)
    requires i <= |s|
    ensures i <= j <= |s|
    ensures forall k :: i <= k < j ==> IsDigit(s[k])
    ensures j < |s| ==> !IsDigit(s[j])
    decreases |s| - i
  {
    if i < |s| && IsDigit(s[i]) then DigitRunEnd(s, i + 1) else i
  }

  /** End of the run of whitespace starting at i. */
  function SpaceRunEnd(s: string, i: nat): (j: nat)
    requires i <= |s|
    ensures i <= j <= |s|
    decreases |s| - i
  {
    if i < |s| && IsPySpace(s[i]) then SpaceRunEnd(s, i + 1) else i
  }

  /** The regular expression `(\d+)\s*(?:point|score)` matches starting at i. Its `\d+`
      always takes the whole run of digits: neither word starts with a digit, so
      giving a digit back can never let the rest match. */
  predicate ScoreMatchAt(s: string, i: nat)
    requires i <= |s|
  {
    && i < |s| && IsDigit(s[i])
    && var k := SpaceRunEnd(s, DigitRunEnd(s, i));
       StartsWith(s[k..], "point") || StartsWith(s[k..], "score")
  }

  /** The leftmost match at or after i, as `re.search` finds it. */
  function FirstScoreMatch(s: string, i: nat): (r: Option<nat>)
    requires i <= |s|
    ensures r.Some? ==> i <= r.value < |s| && ScoreMatchAt(s, r.value) &&
                        forall j :: i <= j < r.value ==> !ScoreMatchAt(s, j)
    ensures r.None? ==> forall j :: i <= j <= |s| ==> !ScoreMatchAt(s, j)
    decreases |s| - i
  {
    if i == |s| then None
    else if ScoreMatchAt(s, i) then Some(i)
    else FirstScoreMatch(s, i + 1)
  }

  /** The number a match at i captures. */
  function CapturedNumber(s: string, i: nat): nat
    requires i <= |s|
  {
    DigitsValue(s[i..DigitRunEnd(s, i)])
  }

  /** `_extract_score_improvement`: the number of the first "N point"/"N score" in the
      lower-cased text, capped at 10; 5 when there is none. */
  function ScoreImprovement(text: string): (points: nat)
    ensures points <= 10
    ensures (forall j :: 0 <= j <= |text| ==> !ScoreMatchAt(Lower(text), j)) ==> points == 5
  {
    var s := Lower(text);
    match FirstScoreMatch(s, 0)
    case None => 5
    case Some(i) => var n := CapturedNumber(s, i); if n < 10 then n else 10
  }

  /** The leftmost match decides the estimate. */
  lemma ScoreFromLeftmostMatch(text: string, i: nat)
    requires i <= |text| && ScoreMatchAt(Lower(text), i)
    requires forall j :: 0 <= j < i ==> !ScoreMatchAt(Lower(text), j)
    ensures var n := CapturedNumber(Lower(text), i);
            ScoreImprovement(text) == if n < 10 then n else 10
  {
    var r := FirstScoreMatch(Lower(text), 0);
    assert r == Some(i);
  }

  // ---------------------------------------------------------------------------
  // Keyword-line extractors

  /** `any(keyword in line.lower() for keyword in keywords)`. */
  function Mentioning(keywords: seq<string>): string -> bool {
    line => ContainsAny(Lower(line), keywords)
  }

  /** The stripped lines that mention a keyword, in input order. */
  function KeywordLines(lines: seq<string>, keywords: seq<string>): seq<string> {
    Map(Filter(lines, Mentioning(keywords)), Strip)
  }

  /** A keyword-line extractor keeps the input order and never returns more items than lines. */
  lemma KeywordLinesOrder(lines: seq<string>, keywords: seq<string>)
    ensures |KeywordLines(lines, keywords)| <= |lines|
    ensures IsSubsequence(KeywordLines(lines, keywords), Map(lines, Strip))
  {
    var kept := Filter(lines, Mentioning(keywords));
    FilterIsSubsequence(lines, Mentioning(keywords));
    MapSubsequence(kept, lines, Strip);
  }

  /** Every line that mentions a keyword is returned, stripped. */
  lemma KeywordLinesComplete(lines: seq<string>, keywords: seq<string>, l: string)
    requires l in lines && ContainsAny(Lower(l), keywords)
    ensures Strip(l) in KeywordLines(lines, keywords)
  {
    var kept := Filter(lines, Mentioning(keywords));
    FilterMembership(lines, Mentioning(keywords), l);
    var i :| 0 <= i < |kept| && kept[i] == l;
    MapMember(kept, Strip, i);
  }

  /** Every returned item is a mentioning line, stripped. */
  lemma KeywordLinesSound(lines: seq<string>, keywords: seq<string>, x: string) returns (l: string)
    requires x in KeywordLines(lines, keywords)
    ensures l in lines && ContainsAny(Lower(l), keywords) && x == Strip(l)
  {
    var kept := Filter(lines, Mentioning(keywords));
    var i := MapWitness(kept, Strip, x);
    assert kept[i] in kept;
    l := kept[i];
  }

  /** The loop every keyword-line extractor runs over `text.split('\n')`. */
  method CollectKeywordLines(text: string, keywords: seq<string>) returns (found: seq<string>)
    ensures found == KeywordLines(Split(text, '\n'), keywords)
  {
    found := FilterThenMap(Split(text, '\n'), Mentioning(keywords), Strip);
  }

  const AtsImprovementKeywords: seq<string> := ["improve", "add", "include", "optimize"]
  const ImprovementKeywords: seq<string> := ["improve", "enhance", "add", "include"]
  const MetricKeywords: seq<string> := ["%", "percent", "increase", "decrease", "users", "revenue"]
  const RequirementKeywords: seq<string> := ["required", "requirement", "qualification", "must have"]
  const SkillKeywords: seq<string> := ["skill", "technology", "tool", "framework"]
  const GrowthKeywords: seq<string> := ["growth", "advancement", "career path", "opportunity"]
  const LearningKeywords: seq<string> := ["learn", "study", "course", "certification"]
  const NetworkingKeywords: seq<string> := ["network", "connect", "meet", "conference"]
  const ProjectKeywords: seq<string> := ["project", "build", "create", "develop"]
  const SolutionKeywords: seq<string> := ["solution", "solve", "overcome", "address"]
  const FormatKeywords: seq<string> := ["format", "structure", "layout", "design"]

  method ExtractAtsImprovements(text: string) returns (r: seq<string>)
    ensures r == KeywordLines(Split(text, '\n'), AtsImprovementKeywords)
  {
    r := CollectKeywordLines(text, AtsImprovementKeywords);
  }

  method ExtractImprovements(text: string) returns (r: seq<string>)
    ensures r == KeywordLines(Split(text, '\n'), ImprovementKeywords)
  {
    r := CollectKeywordLines(text, ImprovementKeywords);
  }

  method ExtractMetrics(text: string) returns (r: seq<string>)
    ensures r == KeywordLines(Split(text, '\n'), MetricKeywords)
  {
    r := CollectKeywordLines(text, MetricKeywords);
  }

  method ExtractRequirements(text: string) returns (r: seq<string>)
    ensures r == KeywordLines(Split(text, '\n'), RequirementKeywords)
  {
    r := CollectKeywordLines(text, RequirementKeywords);
  }

  method ExtractSkills(text: string) returns (r: seq<string>)
    ensures r == KeywordLines(Split(text, '\n'), SkillKeywords)
  {
    r := CollectKeywordLines(text, SkillKeywords);
  }

  method ExtractGrowth(text: string) returns (r: seq<string>)
    ensures r == KeywordLines(Split(text, '\n'), GrowthKeywords)
  {
    r := CollectKeywordLines(text, GrowthKeywords);
  }

  method ExtractLearningRecs(text: string) returns (r: seq<string>)
    ensures r == KeywordLines(Split(text, '\n'), LearningKeywords)
  {
    r := CollectKeywordLines(text, LearningKeywords);
  }

  method ExtractNetworking(text: string) returns (r: seq<string>)
    ensures r == KeywordLines(Split(text, '\n'), NetworkingKeywords)
  {
    r := CollectKeywordLines(text, NetworkingKeywords);
  }

  method ExtractProjects(text: string) returns (r: seq<string>)
    ensures r == KeywordLines(Split(text, '\n'), ProjectKeywords)
  {
    r := CollectKeywordLines(text, ProjectKeywords);
  }

  method ExtractSolutions(text: string) returns (r: seq<string>)
    ensures r == KeywordLines(Split(text, '\n'), SolutionKeywords)
  {
    r := CollectKeywordLines(text, SolutionKeywords);
  }

  method ExtractFormatRecs(text: string) returns (r: seq<string>)
    ensures r == KeywordLines(Split(text, '\n'), FormatKeywords)
  {
    r := CollectKeywordLines(text, FormatKeywords);
  }

  // ---------------------------------------------------------------------------
  // Talking points

  const BulletPrefixes: seq<string> := ["-", "•", "*", "1.", "2.", "3."]

  predicate IsTalkingPoint(line: string) {
    StartsWithAny(line, BulletPrefixes)
  }

  /** The first five stripped lines that start like a list item. */
  function TalkingPoints(lines: seq<string>): seq<string> {
    Take(Filter(Map(lines, Strip), IsTalkingPoint), 5)
  }

  /** `_extract_talking_points`. */
  method ExtractTalkingPoints(text: string) returns (points: seq<string>)
    ensures points == TalkingPoints(Split(text, '\n'))
  {
    var all := MapThenFilter(Split(text, '\n'), Strip, IsTalkingPoint);
    points := Take(all, 5);
  }

  /** At most five points, each stripped and starting with a list marker, in input order;
      a marked line with fewer than five marked lines before it is never skipped. */
  lemma TalkingPointsFacts(lines: seq<string>)
    ensures |TalkingPoints(lines)| <= 5
    ensures forall p :: p in TalkingPoints(lines) ==> IsTalkingPoint(p) && Strip(p) == p
    ensures IsSubsequence(TalkingPoints(lines), Map(lines, Strip))
    ensures forall i ::
      0 <= i < |lines| && IsTalkingPoint(Strip(lines[i])) &&
      Count(Map(lines[..i], Strip), IsTalkingPoint) < 5 ==>
        Strip(lines[i]) in TalkingPoints(lines)
    ensures |TalkingPoints(lines)| < 5 ==>
      forall l :: l in lines && IsTalkingPoint(Strip(l)) ==> Strip(l) in TalkingPoints(lines)
  {
    var stripped := Map(lines, Strip);
    var bullets := Filter(stripped, IsTalkingPoint);
    var r := TalkingPoints(lines);
    forall p | p in r
      ensures IsTalkingPoint(p) && Strip(p) == p
    {
      var i :| 0 <= i < |r| && r[i] == p;
      assert bullets[i] == p;
      assert p in bullets;
      var k := MapWitness(lines, Strip, p);
      StripIdempotent(lines[k]);
    }
    forall i | 0 <= i < |lines| && IsTalkingPoint(Strip(lines[i])) &&
      Count(Map(lines[..i], Strip), IsTalkingPoint) < 5
      ensures Strip(lines[i]) in r
    {
      TakeFilterMapKeepsEarly(lines, Strip, IsTalkingPoint, 5, i);
    }
    forall l | |r| < 5 && l in lines && IsTalkingPoint(Strip(l))
      ensures Strip(l) in r
    {
      TakeFilterMapComplete(lines, Strip, IsTalkingPoint, 5, l);
    }
    PrefixIsSubsequence(bullets, |r|);
    FilterIsSubsequence(stripped, IsTalkingPoint);
    SubsequenceTransitive(r, bullets, stripped);
  }

  // ---------------------------------------------------------------------------
  // Windowed extractors

  /** The index of the first line that mentions a keyword, at or after i. */
  function FirstMention(lines: seq<string>, keywords: seq<string>, i: nat): (r: Option<nat>)
    requires i <= |lines|
    ensures r.Some? ==> i <= r.value < |lines| && ContainsAny(Lower(lines[r.value]), keywords) &&
                        forall j :: i <= j < r.value ==> !ContainsAny(Lower(lines[j]), keywords)
    ensures r.None? ==> forall j :: i <= j < |lines| ==> !ContainsAny(Lower(lines[j]), keywords)
    decreases |lines| - i
  {
    if i == |lines| then None
    else if ContainsAny(Lower(lines[i]), keywords) then Some(i)
    else FirstMention(lines, keywords, i + 1)
  }

  /** The first mentioning line and the lines after it, `width` lines at most, joined
      with newlines; `notFound` when no line mentions a keyword. */
  function Window(lines: seq<string>, keywords: seq<string>, width: nat, notFound: string): string {
    match FirstMention(lines, keywords, 0)
    case None => notFound
    case Some(i) => Join(lines[i..if i + width <= |lines| then i + width else |lines|], "\n")
  }

  /** The loop every windowed extractor runs: `'\n'.join(lines[i:i+width])` at the first hit. */
  method FirstMatchWindow(text: string, keywords: seq<string>, width: nat, notFound: string)
    returns (r: string)
    ensures r == Window(Split(text, '\n'), keywords, width, notFound)
  {
    var lines := Split(text, '\n');
    var i := 0;
    while i < |lines|
      invariant 0 <= i <= |lines|
      invariant forall j :: 0 <= j < i ==> !ContainsAny(Lower(lines[j]), keywords)
    {
      if ContainsAny(Lower(lines[i]), keywords) {
        var fm := FirstMention(lines, keywords, 0);
        assert fm == Some(i);
        return Join(lines[i..if i + width <= |lines| then i + width else |lines|], "\n");
      }
      i := i + 1;
    }
    r := notFound;
  }

  /** The window's lines are exactly the first mentioning line and up to width - 1 lines
      after it. */
  lemma WindowLines(text: string, keywords: seq<string>, width: nat, notFound: string, i: nat)
    requires width >= 1
    requires i < |Split(text, '\n')| && ContainsAny(Lower(Split(text, '\n')[i]), keywords)
    requires forall j :: 0 <= j < i ==> !ContainsAny(Lower(Split(text, '\n')[j]), keywords)
    ensures var lines := Split(text, '\n');
            var w := Split(Window(lines, keywords, width, notFound), '\n');
            && 1 <= |w| <= width
            && w == lines[i..if i + width <= |lines| then i + width else |lines|]
  {
    WindowOf(Split(text, '\n'), keywords, width, notFound, i);
  }

  lemma WindowOf(lines: seq<string>, keywords: seq<string>, width: nat, notFound: string, i: nat)
    requires width >= 1 && forall l :: l in lines ==> '\n' !in l
    requires i < |lines| && ContainsAny(Lower(lines[i]), keywords)
    requires forall j :: 0 <= j < i ==> !ContainsAny(Lower(lines[j]), keywords)
    ensures var w := Split(Window(lines, keywords, width, notFound), '\n');
            && 1 <= |w| <= width
            && w == lines[i..if i + width <= |lines| then i + width else |lines|]
  {
    var fm := FirstMention(lines, keywords, 0);
    assert fm == Some(i);
    var part := lines[i..if i + width <= |lines| then i + width else |lines|];
    forall p | p in part ensures '\n' !in p {
      assert p in lines;
    }
    SplitJoin(part, '\n');
  }

  /** Without a mentioning line the extractor falls back to its fixed text. */
  lemma WindowNotFound(lines: seq<string>, keywords: seq<string>, width: nat, notFound: string)
    requires forall j :: 0 <= j < |lines| ==> !ContainsAny(Lower(lines[j]), keywords)
    ensures Window(lines, keywords, width, notFound) == notFound
  {
  }

  const CoverLetterMarker: seq<string> := ["cover letter"]
  const AtsMarker: seq<string> := ["ats"]
  const CultureKeywords: seq<string> := ["culture", "environment", "atmosphere", "values"]
  const SalaryKeywords: seq<string> := ["salary", "compensation", "pay", "benefits"]
  const TimelineKeywords: seq<string> := ["timeline", "schedule", "plan", "goal"]

  method ExtractCoverLetterSuggestions(text: string) returns (r: string)
    ensures r == Window(Split(text, '\n'), CoverLetterMarker, 5, "Cover letter suggestions not found in response")
  {
    r := FirstMatchWindow(text, CoverLetterMarker, 5, "Cover letter suggestions not found in response");
  }

  method ExtractAtsNotes(text: string) returns (r: string)
    ensures r == Window(Split(text, '\n'), AtsMarker, 3, "ATS optimization notes not found")
  {
    r := FirstMatchWindow(text, AtsMarker, 3, "ATS optimization notes not found");
  }

  method ExtractCulture(text: string) returns (r: string)
    ensures r == Window(Split(text, '\n'), CultureKeywords, 3, "Company culture insights not found")
  {
    r := FirstMatchWindow(text, CultureKeywords, 3, "Company culture insights not found");
  }

  method ExtractSalaryInsights(text: string) returns (r: string)
    ensures r == Window(Split(text, '\n'), SalaryKeywords, 3, "Salary insights not found")
  {
    r := FirstMatchWindow(text, SalaryKeywords, 3, "Salary insights not found");
  }

  method ExtractTimeline(text: string) returns (r: string)
    ensures r == Window(Split(text, '\n'), TimelineKeywords, 3, "Timeline information not found")
  {
    r := FirstMatchWindow(text, TimelineKeywords, 3, "Timeline information not found");
  }
}
