/**
 * The résumé service: the upload check, the line-by-line section parser that turns
 * the AI's answer (or, as a fallback, the raw résumé text) into a seven-section
 * structure, the "meaningful content" test that chooses between them, and the
 * improvement-line extractor of section enhancement.
 */
module ResumeService {
  import opened Wrappers
  import opened Text
  import opened Seqs

  // ---------------------------------------------------------------------------
  // Upload check

  const AllowedTypes: seq<string> := [".pdf", ".docx", ".doc", ".txt"]
  const MaxFileSize: int := 10 * 1024 * 1024

  /** Index of the last occurrence of c in s, or -1. */
  function LastIndexOf(s: string, c: char): (r: int)
    ensures -1 <= r < |s|
    ensures r >= 0 ==> s[r] == c
    ensures forall k :: r < k < |s| ==> s[k] != c
    ensures r < 0 ==> c !in s
  {
    if s == [] then -1
    else if s[|s| - 1] == c then |s| - 1
    else LastIndexOf(s[..|s| - 1], c)
  }

  /** `os.path.splitext(name)[1]` on POSIX paths: from the last dot on, provided that
      dot is in the last path component and is not part of its leading dots. */
  function Extension(name: string): (ext: string)
    ensures ext == [] || (ext[0] == '.' && '/' !in ext && |ext| <= |name| && ext == name[|name| - |ext|..])
  {
    var dot := LastIndexOf(name, '.');
    var sep := LastIndexOf(name, '/');
    if dot > sep && exists k :: sep + 1 <= k < dot && name[k] != '.' then
      assert forall k :: dot <= k < |name| ==> name[k] != '/';
      name[dot..]
    else []
  }

  datatype FileError = TooLarge(size: int, limit: int) | UnsupportedType(extension: string)

  /** `_validate_file`: the size limit is checked first, then the extension. */
  function ValidateFile(fileName: string, fileSize: int): (r: Result<(), FileError>)
    ensures r.Success? <==> fileSize <= MaxFileSize && Lower(Extension(fileName)) in AllowedTypes
    ensures fileSize > MaxFileSize ==> r == Failure(TooLarge(fileSize, MaxFileSize))
    ensures fileSize <= MaxFileSize && r.Failure? ==> r.error == UnsupportedType(Lower(Extension(fileName)))
  {
    if fileSize > MaxFileSize then Failure(TooLarge(fileSize, MaxFileSize))
    else
      var ext := Lower(Extension(fileName));
      if ext !in AllowedTypes then Failure(UnsupportedType(ext)) else Success(())
  }

  /** An upper-case extension is accepted. */
  lemma AcceptsUpperCasePdf()
    ensures ValidateFile("CV.PDF", 2048).Success?
  {
    var name := "CV.PDF";
    assert name[2] == '.' && name[3] != '.' && name[4] != '.' && name[5] != '.';
    assert LastIndexOf(name, '.') == 2;
    assert '/' !in name;
    assert name[0] != '.';
    assert Extension(name) == ".PDF";
    assert Lower(".PDF") == ".pdf";
  }

  /** A file whose name is only a leading dot and a suffix has no extension, so it is refused. */
  lemma RejectsDotFile()
    ensures ValidateFile(".pdf", 2048) == Failure(UnsupportedType(""))
  {
    var name := ".pdf";
    assert name[0] == '.' && name[1] != '.' && name[2] != '.' && name[3] != '.';
    assert LastIndexOf(name, '.') == 0;
    assert Extension(name) == "";
    assert Lower("") == "";
    assert "" !in AllowedTypes;
  }

  // ---------------------------------------------------------------------------
  // The parsed structure

  /** The personal dictionary: a key is present once some line set it. */
  datatype Personal = Personal(name: Option<string>, email: Option<string>, phone: Option<string>,
                               location: Option<string>)

  datatype Education = Education(school: string, degree: string, gpa: string, graduationDate: string,
                                 relevant: string)

  datatype Experience = Experience(position: string, company: string, duration: string, location: string,
                                   description: string)

  datatype Skill = Skill(name: string, level: string, category: string)

  /** The seven sections; projects, activities and awards are lists no rule ever fills. */
  datatype Parsed = Parsed(
    personal: Personal,
    education: seq<Education>,
    experience: seq<Experience>,
    skills: seq<Skill>,
    projects: seq<map<string, string>>,
    activities: seq<map<string, string>>,
    awards: seq<map<string, string>>)

  datatype Section = PersonalSection | EducationSection | ExperienceSection | SkillsSection
                   | ProjectsSection | ActivitiesSection | AwardsSection

  /** `_get_empty_structure`. */
  function EmptyStructure(): (p: Parsed)
    ensures p.personal == Personal(None, None, None, None)
    ensures p.education == [] && p.experience == [] && p.skills == []
    ensures p.projects == [] && p.activities == [] && p.awards == []
  {
    Parsed(Personal(None, None, None, None), [], [], [], [], [], [])
  }

  /** `bool(parsed_data.get('personal'))`: the dictionary has some key. */
  predicate HasPersonal(p: Personal) {
    p.name.Some? || p.email.Some? || p.phone.Some? || p.location.Some?
  }

  /** `_validate_parsed_data`: personal data and at least one of education, experience, skills. */
  predicate ValidParsedData(p: Parsed) {
    HasPersonal(p.personal) && (p.education != [] || p.experience != [] || p.skills != [])
  }

  lemma EmptyStructureInvalid()
    ensures !ValidParsedData(EmptyStructure())
  {
  }

  /** The validator in both directions: each missing ingredient alone makes it fail. */
  lemma ValidParsedDataCases(p: Parsed)
    ensures p.personal == Personal(None, None, None, None) ==> !ValidParsedData(p)
    ensures p.education == [] && p.experience == [] && p.skills == [] ==> !ValidParsedData(p)
    ensures HasPersonal(p.personal) && p.skills != [] ==> ValidParsedData(p)
  {
  }

  // ---------------------------------------------------------------------------
  // Per-section content rules

  const EducationWords: seq<string> := ["university", "college", "school"]
  const ExperienceWords: seq<string> := ["developer", "engineer", "analyst", "manager"]

  predicate LooksLikeEmail(line: string) {
    '@' in line && '.' in line
  }

  predicate LooksLikePhone(line: string) {
    HasDigit(line) && ('(' in line || ')' in line || '-' in line)
  }

  /** `not personal.get('name')`. */
  predicate NameUnset(p: Personal) {
    !Truthy(p.name)
  }

  /** The personal rule; the fallback parser alone also treats a university or college
      line as the location. */
  function PersonalRule(p: Personal, line: string, withLocation: bool): Personal {
    if LooksLikeEmail(line) then p.(email := Some(line))
    else if LooksLikePhone(line) then p.(phone := Some(line))
    else if withLocation && (Contains(Lower(line), "university") || Contains(Lower(line), "college")) then
      p.(location := Some(line))
    else if NameUnset(p) then p.(name := Some(line))
    else p
  }

  function NewEducation(line: string): Education {
    Education(line, "", "", "", "")
  }

  function NewExperience(line: string): Experience {
    Experience(line, "", "", "", "")
  }

  function NewSkill(name: string): Skill {
    Skill(name, "Intermediate", "Technical")
  }

  /** `skill and len(skill) > 2`. */
  predicate IsSkillName(s: string) {
    s != "" && |s| > 2
  }

  /** `[skill.strip() for skill in line.replace('•', ',').split(',')]`. */
  function SkillPieces(line: string): seq<string> {
    Map(Split(ReplaceChar(line, '•', ','), ','), Strip)
  }

  /** The skills a skills-section line contributes. */
  function SkillEntries(line: string): seq<Skill> {
    if ',' in line || '•' in line then Map(Filter(SkillPieces(line), IsSkillName), NewSkill) else []
  }

  /** What one content line does to the structure (`_add_to_section`, and the inline
      copy of it in `_fallback_parse` when withLocation holds). */
  function AddedToSection(p: Parsed, section: Section, line: string, withLocation: bool): Parsed {
    match section
    case PersonalSection => p.(personal := PersonalRule(p.personal, line, withLocation))
    case EducationSection =>
      if ContainsAny(Lower(line), EducationWords) then p.(education := p.education + [NewEducation(line)]) else p
    case ExperienceSection =>
      if ContainsAny(Lower(line), ExperienceWords) then p.(experience := p.experience + [NewExperience(line)]) else p
    case SkillsSection => p.(skills := p.skills + SkillEntries(line))
    case ProjectsSection => p
    case ActivitiesSection => p
    case AwardsSection => p
  }

  /** `_add_to_section`, with its loop over the comma-separated skill pieces. */
  method AddToSection(p: Parsed, section: Section, line: string, withLocation: bool) returns (q: Parsed)
    ensures q == AddedToSection(p, section, line, withLocation)
  {
    match section {
      case PersonalSection =>
        q := p.(personal := PersonalRule(p.personal, line, withLocation));
      case EducationSection =>
        q := p;
        if ContainsAny(Lower(line), EducationWords) {
          q := p.(education := p.education + [NewEducation(line)]);
        }
      case ExperienceSection =>
        q := p;
        if ContainsAny(Lower(line), ExperienceWords) {
          q := p.(experience := p.experience + [NewExperience(line)]);
        }
      case SkillsSection =>
        q := p;
        if ',' in line || '•' in line {
          var pieces := SkillPieces(line);
          var skills := p.skills;
          var i := 0;
          while i < |pieces|
            invariant 0 <= i <= |pieces|
            invariant skills == p.skills + Map(Filter(pieces[..i], IsSkillName), NewSkill)
          {
            var kept := Filter(pieces[..i], IsSkillName);
            FilterStep(pieces, i, IsSkillName);
            if pieces[i] != "" && |pieces[i]| > 2 {
              MapAppend(kept, pieces[i], NewSkill);
              AppendAssoc(p.skills, Map(kept, NewSkill), [NewSkill(pieces[i])]);
              skills := skills + [NewSkill(pieces[i])];
            }
            i := i + 1;
          }
          assert pieces[..i] == pieces;
          q := p.(skills := skills);
        } else {
          assert p.skills + [] == p.skills;
        }
      case ProjectsSection =>
        q := p;
      case ActivitiesSection =>
        q := p;
      case AwardsSection =>
        q := p;
    }
  }

  // ---------------------------------------------------------------------------
  // Section headers

  /** Header keywords of the AI-answer parser, in the order its elif chain tests them. */
  const AiHeaders: seq<(seq<string>, Section)> := [
    (["personal", "contact"], PersonalSection),
    (["education"], EducationSection),
    (["experience", "work"], ExperienceSection),
    (["skills"], SkillsSection),
    (["projects"], ProjectsSection),
    (["activities", "leadership"], ActivitiesSection),
    (["awards", "honors"], AwardsSection)
  ]

  /** Header keywords of the fallback parser, in its order. */
  const FallbackHeaders: seq<(seq<string>, Section)> := [
    (["education", "academic"], EducationSection),
    (["experience", "work", "employment"], ExperienceSection),
    (["skills", "technical", "competencies"], SkillsSection),
    (["projects", "portfolio"], ProjectsSection),
    (["name", "email", "phone", "address"], PersonalSection)
  ]

  /** The section a line announces, by the first header whose keywords occur in it. */
  function HeaderOf(line: string, headers: seq<(seq<string>, Section)>): Option<Section> {
    FirstGroup(Lower(line), headers)
  }

  // ---------------------------------------------------------------------------
  // The section state machine

  /** The structure being filled and `current_section`. */
  datatype ParseState = ParseState(parsed: Parsed, current: Option<Section>)

  datatype Parser = AiParser | FallbackParser {
    function Headers(): seq<(seq<string>, Section)> {
      if this == AiParser then AiHeaders else FallbackHeaders
    }
    predicate WithLocation() {
      this == FallbackParser
    }
  }

  /** One line: blank lines are skipped, a header switches the section, any other line
      is content for the current section (and dropped before the first header). */
  function Step(parser: Parser, st: ParseState, raw: string): ParseState {
    var line := Strip(raw);
    if line == "" then st
    else match HeaderOf(line, parser.Headers())
      case Some(s) => st.(current := Some(s))
      case None =>
        if st.current.Some? then st.(parsed := AddedToSection(st.parsed, st.current.value, line, parser.WithLocation()))
        else st
  }

  /** The state after the given lines. */
  function Run(parser: Parser, lines: seq<string>): ParseState {
    if lines == [] then ParseState(EmptyStructure(), None)
    else Step(parser, Run(parser, lines[..|lines| - 1]), lines[|lines| - 1])
  }

  /** What the parser returns for a text. */
  function Parse(parser: Parser, text: string): Parsed {
    Run(parser, Split(text, '\n')).parsed
  }

  lemma RunStep(parser: Parser, lines: seq<string>, i: nat)
    requires i < |lines|
    ensures Run(parser, lines[..i + 1]) == Step(parser, Run(parser, lines[..i]), lines[i])
  {
    assert lines[..i + 1][..i] == lines[..i];
  }

  /** `_parse_ai_response`. */
  method ParseAiResponse(response: string) returns (parsed: Parsed)
    ensures parsed == Parse(AiParser, response)
  {
    parsed := EmptyStructure();
    var lines := Split(response, '\n');
    var current: Option<Section> := None;
    var i := 0;
    while i < |lines|
      invariant 0 <= i <= |lines|
      invariant ParseState(parsed, current) == Run(AiParser, lines[..i])
    {
      RunStep(AiParser, lines, i);
      var line := Strip(lines[i]);
      if line != "" {
        var header := HeaderOf(line, AiHeaders);
        if header.Some? {
          current := header;
        } else if current.Some? {
          parsed := AddToSection(parsed, current.value, line, false);
        }
      }
      i := i + 1;
    }
    assert lines[..i] == lines;
  }

  /** `_fallback_parse`. */
  method FallbackParse(text: string) returns (parsed: Parsed)
    ensures parsed == Parse(FallbackParser, text)
  {
    var lines := Split(text, '\n');
    parsed := EmptyStructure();
    var current: Option<Section> := None;
    var i := 0;
    while i < |lines|
      invariant 0 <= i <= |lines|
      invariant ParseState(parsed, current) == Run(FallbackParser, lines[..i])
    {
      RunStep(FallbackParser, lines, i);
      var line := Strip(lines[i]);
      if line != "" {
        var header := HeaderOf(line, FallbackHeaders);
        if header.Some? {
          current := header;
        } else if current.Some? {
          parsed := AddToSection(parsed, current.value, line, true);
        }
      }
      i := i + 1;
    }
    assert lines[..i] == lines;
  }

  /** `_ai_parse_resume`: `aiAnswer` is None when the AI call raised. The AI answer is
      used only when it parses into valid data; otherwise the raw text is parsed. */
  method AiParseResume(aiAnswer: Option<string>, text: string) returns (parsed: Parsed)
    ensures aiAnswer.None? ==> parsed == Parse(FallbackParser, text)
    ensures aiAnswer.Some? && ValidParsedData(Parse(AiParser, aiAnswer.value)) ==>
      parsed == Parse(AiParser, aiAnswer.value)
    ensures aiAnswer.Some? && !ValidParsedData(Parse(AiParser, aiAnswer.value)) ==>
      parsed == Parse(FallbackParser, text)
  {
    if aiAnswer.None? {
      parsed := FallbackParse(text);
      return;
    }
    parsed := ParseAiResponse(aiAnswer.value);
    if !ValidParsedData(parsed) {
      parsed := FallbackParse(text);
    }
  }

  // ---------------------------------------------------------------------------
  // Properties of the parsers

  /** Blank lines and header lines never add content. */
  lemma NonContentLinesAddNothing(parser: Parser, st: ParseState, raw: string)
    requires Strip(raw) == "" || HeaderOf(Strip(raw), parser.Headers()).Some?
    ensures Step(parser, st, raw).parsed == st.parsed
  {
  }

  /** Content before the first header is dropped: until a header line is seen the
      structure stays empty. */
  lemma {:induction false} NothingBeforeFirstHeader(parser: Parser, lines: seq<string>)
    requires forall i :: 0 <= i < |lines| ==> Strip(lines[i]) == "" || HeaderOf(Strip(lines[i]), parser.Headers()).None?
    ensures Run(parser, lines) == ParseState(EmptyStructure(), None)
  {
    if lines != [] {
      var prefix := lines[..|lines| - 1];
      assert forall i :: 0 <= i < |prefix| ==> prefix[i] == lines[i];
      NothingBeforeFirstHeader(parser, prefix);
    }
  }

  /** Every entry the parser produces follows the section rules: schools and positions are
      lines naming an institution or a role, with every other field empty; skill names are
      stripped pieces longer than two characters; the three unfilled sections stay empty. */
  predicate WellFormed(p: Parsed) {
    && (forall e :: e in p.education ==>
          ContainsAny(Lower(e.school), EducationWords) && e == NewEducation(e.school))
    && (forall e :: e in p.experience ==>
          ContainsAny(Lower(e.position), ExperienceWords) && e == NewExperience(e.position))
    && (forall s :: s in p.skills ==> |s.name| > 2 && Strip(s.name) == s.name && s == NewSkill(s.name))
    && p.projects == [] && p.activities == [] && p.awards == []
  }

  lemma SkillEntriesWellFormed(line: string)
    ensures forall s :: s in SkillEntries(line) ==> |s.name| > 2 && Strip(s.name) == s.name && s == NewSkill(s.name)
  {
    if ',' in line || '•' in line {
      var pieces := SkillPieces(line);
      var kept := Filter(pieces, IsSkillName);
      forall s | s in SkillEntries(line)
        ensures |s.name| > 2 && Strip(s.name) == s.name && s == NewSkill(s.name)
      {
        var i := MapWitness(kept, NewSkill, s);
        assert kept[i] in kept;
        var k := MapWitness(Split(ReplaceChar(line, '•', ','), ','), Strip, kept[i]);
        StripIdempotent(Split(ReplaceChar(line, '•', ','), ',')[k]);
      }
    }
  }

  lemma AddedToSectionWellFormed(p: Parsed, section: Section, line: string, withLocation: bool)
    requires WellFormed(p)
    ensures WellFormed(AddedToSection(p, section, line, withLocation))
  {
    if section == SkillsSection {
      SkillEntriesWellFormed(line);
    }
  }

  lemma {:induction false} RunWellFormed(parser: Parser, lines: seq<string>)
    ensures WellFormed(Run(parser, lines).parsed)
  {
    if lines != [] {
      var st := Run(parser, lines[..|lines| - 1]);
      RunWellFormed(parser, lines[..|lines| - 1]);
      var line := Strip(lines[|lines| - 1]);
      if line != "" && HeaderOf(line, parser.Headers()).None? && st.current.Some? {
        AddedToSectionWellFormed(st.parsed, st.current.value, line, parser.WithLocation());
      }
    }
  }

  /** Both parsers only ever produce well-formed structures. */
  lemma ParseWellFormed(parser: Parser, text: string)
    ensures WellFormed(Parse(parser, text))
  {
    RunWellFormed(parser, Split(text, '\n'));
  }

  /** The personal rule: email, then phone, then (fallback only) location, then name
      only while none is set. */
  lemma PersonalRuleCases(p: Personal, line: string, withLocation: bool)
    ensures LooksLikeEmail(line) ==> PersonalRule(p, line, withLocation) == p.(email := Some(line))
    ensures !LooksLikeEmail(line) && LooksLikePhone(line) ==> PersonalRule(p, line, withLocation) == p.(phone := Some(line))
    ensures !LooksLikeEmail(line) && !LooksLikePhone(line) && withLocation &&
            (Contains(Lower(line), "university") || Contains(Lower(line), "college")) ==>
              PersonalRule(p, line, withLocation) == p.(location := Some(line))
    ensures !NameUnset(p) ==> PersonalRule(p, line, withLocation).name == p.name
    ensures !withLocation ==> PersonalRule(p, line, withLocation).location == p.location
  {
  }

  lemma StepKeepsName(parser: Parser, st: ParseState, raw: string)
    requires !NameUnset(st.parsed.personal)
    ensures Step(parser, st, raw).parsed.personal.name == st.parsed.personal.name
  {
  }

  /** The first name wins: once a non-empty name is set, later lines never change it. */
  lemma {:induction false} FirstNameWins(parser: Parser, lines: seq<string>, k: nat)
    requires k <= |lines|
    requires !NameUnset(Run(parser, lines[..k]).parsed.personal)
    ensures Run(parser, lines).parsed.personal.name == Run(parser, lines[..k]).parsed.personal.name
    decreases |lines| - k
  {
    if k < |lines| {
      RunStep(parser, lines, k);
      StepKeepsName(parser, Run(parser, lines[..k]), lines[k]);
      FirstNameWins(parser, lines, k + 1);
    } else {
      assert lines[..k] == lines;
    }
  }

  /** Only the fallback parser sets a location. */
  lemma {:induction false} AiParserSetsNoLocation(lines: seq<string>)
    ensures Run(AiParser, lines).parsed.personal.location.None?
  {
    if lines != [] {
      AiParserSetsNoLocation(lines[..|lines| - 1]);
    }
  }

  // ---------------------------------------------------------------------------
  // Improvement lines of section enhancement

  const ImprovementWords: seq<string> := ["improved", "enhanced", "added", "changed", "updated"]

  function MentionsImprovement(): string -> bool {
    line => ContainsAny(Lower(line), ImprovementWords)
  }

  /** The first five stripped lines mentioning an improvement word. */
  function Improvements(lines: seq<string>): seq<string> {
    Take(Filter(Map(lines, Strip), MentionsImprovement()), 5)
  }

  /** `_extract_improvements`. */
  method ExtractImprovements(response: string) returns (improvements: seq<string>)
    ensures improvements == Improvements(Split(response, '\n'))
  {
    var all := MapThenFilter(Split(response, '\n'), Strip, MentionsImprovement());
    improvements := Take(all, 5);
  }

  /** At most five items, each stripped and mentioning an improvement word, in input order;
      such a line with fewer than five such lines before it is never skipped. */
  lemma ImprovementsFacts(lines: seq<string>)
    ensures |Improvements(lines)| <= 5
    ensures forall x :: x in Improvements(lines) ==> ContainsAny(Lower(x), ImprovementWords) && Strip(x) == x
    ensures IsSubsequence(Improvements(lines), Map(lines, Strip))
    ensures forall i ::
      0 <= i < |lines| && ContainsAny(Lower(Strip(lines[i])), ImprovementWords) &&
      Count(Map(lines[..i], Strip), MentionsImprovement()) < 5 ==>
        Strip(lines[i]) in Improvements(lines)
    ensures |Improvements(lines)| < 5 ==>
      forall l :: l in lines && ContainsAny(Lower(Strip(l)), ImprovementWords) ==> Strip(l) in Improvements(lines)
  {
    var stripped := Map(lines, Strip);
    var hits := Filter(stripped, MentionsImprovement());
    var r := Improvements(lines);
    forall x | x in r
      ensures ContainsAny(Lower(x), ImprovementWords) && Strip(x) == x
    {
      var i :| 0 <= i < |r| && r[i] == x;
      assert hits[i] == x;
      assert x in hits;
      var k := MapWitness(lines, Strip, x);
      StripIdempotent(lines[k]);
    }
    forall i | 0 <= i < |lines| && ContainsAny(Lower(Strip(lines[i])), ImprovementWords) &&
      Count(Map(lines[..i], Strip), MentionsImprovement()) < 5
      ensures Strip(lines[i]) in r
    {
      TakeFilterMapKeepsEarly(lines, Strip, MentionsImprovement(), 5, i);
    }
    forall l | |r| < 5 && l in lines && ContainsAny(Lower(Strip(l)), ImprovementWords)
      ensures Strip(l) in r
    {
      TakeFilterMapComplete(lines, Strip, MentionsImprovement(), 5, l);
    }
    PrefixIsSubsequence(hits, |r|);
    FilterIsSubsequence(stripped, MentionsImprovement());
    SubsequenceTransitive(r, hits, stripped);
  }
}
