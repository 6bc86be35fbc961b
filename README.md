# HireFlow core, modelled in Dafny

HireFlow is a career-services web application: a FastAPI backend that parses résumés,
analyses job descriptions, scores résumé-vs-job skill matches and post-processes answers
from a language model; and a React frontend that renders those answers as Markdown
reports, keeps the signed-in user in a reducer, walks the user through a four-step
"experience translation" wizard, filters and counts tracked job applications, and keeps a
list of saved jobs.

This project models the deterministic part of that code and proves what it promises:

- **AiService** (`ai_service.dfy`): the contextual prompt builder, the résumé-to-text
  renderer, the fixed-vocabulary keyword extractor, the keyword match/miss analysis, the
  score-improvement regex and its cap, the eleven keyword-line extractors, the talking-point
  extractor and the five windowed section grabbers. The loops are methods proved against
  specification functions.
- **ResumeService** (`resume_service.dfy`): the upload size/extension check, the
  seven-section empty structure, the line-by-line section state machine shared by the AI
  and fallback parsers (as one step function and the two loops that run it), the
  "meaningful content" validator, the AI-or-fallback choice and the improvement extractor.
- **JobService** (`job_service.dfy`): experience-level and industry classification, the
  keyword part of skill extraction, the requirement cap, and the skill matcher with its
  integer 0..100 score.
- **JobsApi** (`jobs_api.dfy`): `clean_job_description`, `is_job_description`, the
  description-source choice of `analyze_job` and the 200-character preview in `list_jobs`.
- **ApplicationService** (`application_service.dfy`): the skills, summary and additional
  sections of a tailored résumé and the three cover-letter phrase helpers.
- **AiFormat** (`ai_format.dfy`): `formatAIResponse`, its five Markdown formatters and
  `getAuthHeaders`. Each formatter is a method that grows `formatted` section by section,
  proved equal to a list of optional parts that a shared lemma reads.
- **AuthContext** (`auth_context.dfy`): the auth reducer, its initial state, the `.edu`
  plan rule, and the provider as a class whose methods dispatch actions and write the
  token into a storage map.
- **ExperienceWizard** (`experience_wizard.dfy`): the step order, next/back, the
  `canProceed` guard, the mock translation and a `Wizard` class holding the component's
  state cells.
- **ApplicationTracker** and **ApplicationsTrackerUi** (`application_tracker.dfy`,
  `applications_tracker_ui.dfy`): the two tracker pages' filters, status colours and status
  counts.
- **JobDiscovery** (`job_discovery.dfy`): the saved-jobs toggle, as a class, and the job
  type colours.
- Helper modules: `Wrappers` (Option, Result), `Text` (ASCII case, whitespace, strip, split
  and join, substring search) and `Seqs` (filter, map, take, subsequence).

Python's and JavaScript's string functions are modelled on ASCII. Python `str.strip()`,
`split()` and `\s` use the characters 9-13 and 28-32. JavaScript `trim()` uses 9-13 and 32.
Lower-casing only maps `A`-`Z`.

## Model

| member | source | states |
|---|---|---|
| AiService.BuildContextualPrompt | backend/app/services/ai_service.py:55-70 | the loop that grows the prompt yields the user prompt, a newline and the résumé, job, experience and skills blocks in that order, each present only for a non-empty value |
| AiService.PromptWithoutContext | backend/app/services/ai_service.py:57-58 | with no context or an empty one the user prompt is returned unchanged |
| AiService.PromptExtendsUserPrompt | backend/app/services/ai_service.py:60-70 | with a non-empty context the prompt is the user prompt followed by a newline and more |
| AiService.PromptIgnoresOtherKeys | backend/app/services/ai_service.py:62-69 | two contexts agreeing on the four known keys give the same prompt |
| AiService.BlockShowsValue | backend/app/services/ai_service.py:62-69 | a block is empty exactly when its value is, and otherwise contains the value |
| AiService.AppendBlock | backend/app/services/ai_service.py:62-69 | appending header and value only for a non-empty value is appending that block |
| AiService.ExtractResumeText | backend/app/services/ai_service.py:363-386 | the appending loops produce the résumé lines joined by newlines |
| AiService.AppendEducationLines | backend/app/services/ai_service.py:373-375 | the education loop appends one `Education:` line per school, in order |
| AiService.AppendExperienceLines | backend/app/services/ai_service.py:377-380 | the experience loop appends a position line and a description line per entry |
| AiService.ExperienceLines | backend/app/services/ai_service.py:377-380 | two lines per experience entry |
| AiService.ExperienceLinesAt | backend/app/services/ai_service.py:379-380 | entry k's position and description are lines 2k and 2k+1 |
| AiService.ResumeLinesCount | backend/app/services/ai_service.py:363-386 | three personal lines when present, one per school, two per position, one skills line when there are skills |
| AiService.ResumeEducationLine | backend/app/services/ai_service.py:373-375 | school i sits right after the personal lines and the schools before it |
| AiService.ResumeExperienceLines | backend/app/services/ai_service.py:377-380 | position k's two lines follow the schools and the earlier positions |
| AiService.ResumeSkillsLast | backend/app/services/ai_service.py:382-384 | the `Skills:` line, joining the names by ", ", is the last line |
| AiService.ExtractKeywords | backend/app/services/ai_service.py:388-393 | the result holds exactly the lower-cased words of the text that are among the eight keywords, without duplicates, so at most eight |
| AiService.AnalyzeKeywords | backend/app/services/ai_service.py:553-575 | résumé and job keywords are the vocabulary words occurring in each text; matching and missing are disjoint, their union is the job keywords, matching is the intersection; the percentage is 0 without job keywords and lies in 0..100 |
| AiService.OverlapFacts | backend/app/services/ai_service.py:564-565 | the two comprehensions pick the common keywords and the job-only keywords |
| AiService.VocabularyHits | backend/app/services/ai_service.py:561-562 | a keyword is kept exactly when it occurs in the text |
| AiService.MatchingWithinJob | backend/app/services/ai_service.py:564-567 | there are never more matching keywords than job keywords |
| AiService.Percent | backend/app/services/ai_service.py:567 | the percentage lies in 0..100 and is 100 when all job keywords match |
| AiService.FirstScoreMatch | backend/app/services/ai_service.py:417 | the search finds the leftmost position where digits, optional whitespace and "point" or "score" follow, or reports that there is none |
| AiService.DigitRunEnd | backend/app/services/ai_service.py:417 | the `\d+` group ends at the first non-digit |
| AiService.ScoreImprovement | backend/app/services/ai_service.py:413-420 | the estimate never exceeds 10 and is 5 when the text has no match |
| AiService.ScoreFromLeftmostMatch | backend/app/services/ai_service.py:417-419 | with a leftmost match the estimate is its number capped at 10 |
| AiService.CollectKeywordLines | backend/app/services/ai_service.py:395-402 | the loop over the lines collects the stripped lines mentioning a keyword, in order |
| AiService.KeywordLinesOrder | backend/app/services/ai_service.py:395-402 | a keyword-line result is a subsequence of the stripped lines, never longer than the input |
| AiService.KeywordLinesComplete | backend/app/services/ai_service.py:399-401 | every line mentioning a keyword is returned stripped |
| AiService.KeywordLinesSound | backend/app/services/ai_service.py:399-401 | every returned item is a stripped line that mentions a keyword |
| AiService.ExtractAtsImprovements | backend/app/services/ai_service.py:395-402 | the keyword-line rule with improve, add, include, optimize |
| AiService.ExtractImprovements | backend/app/services/ai_service.py:440-447 | the keyword-line rule with improve, enhance, add, include |
| AiService.ExtractMetrics | backend/app/services/ai_service.py:449-456 | the keyword-line rule with the six metric keywords |
| AiService.ExtractRequirements | backend/app/services/ai_service.py:466-473 | the keyword-line rule with the four requirement keywords |
| AiService.ExtractSkills | backend/app/services/ai_service.py:483-490 | the keyword-line rule with skill, technology, tool, framework |
| AiService.ExtractGrowth | backend/app/services/ai_service.py:500-507 | the keyword-line rule with the four growth keywords |
| AiService.ExtractLearningRecs | backend/app/services/ai_service.py:509-516 | the keyword-line rule with learn, study, course, certification |
| AiService.ExtractNetworking | backend/app/services/ai_service.py:518-525 | the keyword-line rule with network, connect, meet, conference |
| AiService.ExtractProjects | backend/app/services/ai_service.py:527-534 | the keyword-line rule with project, build, create, develop |
| AiService.ExtractSolutions | backend/app/services/ai_service.py:544-551 | the keyword-line rule with solution, solve, overcome, address |
| AiService.ExtractFormatRecs | backend/app/services/ai_service.py:577-584 | the keyword-line rule with format, structure, layout, design |
| AiService.ExtractTalkingPoints | backend/app/services/ai_service.py:422-429 | the loop collects the stripped bullet-like lines and keeps the first five |
| AiService.TalkingPointsFacts | backend/app/services/ai_service.py:422-429 | at most five points, each stripped and starting with -, •, *, 1., 2. or 3., in input order; a marked line with fewer than five before it is never skipped, and below the cap every marked line is returned |
| AiService.FirstMention | backend/app/services/ai_service.py:408-409 | the index of the first line mentioning a keyword, or none |
| AiService.FirstMatchWindow | backend/app/services/ai_service.py:404-411 | the loop returns the window at the first mentioning line, or the fixed fallback |
| AiService.WindowLines | backend/app/services/ai_service.py:408-410 | the window is the first mentioning line and the lines after it, at most the window width in all |
| AiService.WindowOf | backend/app/services/ai_service.py:404-410 | on any lines without newlines, the window is the first mentioning line and the lines after it, at most the window width in all |
| AiService.WindowNotFound | backend/app/services/ai_service.py:411 | with no mentioning line the fixed "not found" text is returned |
| AiService.ExtractCoverLetterSuggestions | backend/app/services/ai_service.py:404-411 | a window of five lines at the first "cover letter" line, with its fallback text |
| AiService.ExtractAtsNotes | backend/app/services/ai_service.py:458-464 | a window of three lines at the first "ats" line, with its fallback text |
| AiService.ExtractCulture | backend/app/services/ai_service.py:475-481 | a window of three lines at the first culture line, with its fallback text |
| AiService.ExtractSalaryInsights | backend/app/services/ai_service.py:492-498 | a window of three lines at the first salary line, with its fallback text |
| AiService.ExtractTimeline | backend/app/services/ai_service.py:536-542 | a window of three lines at the first timeline line, with its fallback text |
| ResumeService.LastIndexOf | backend/app/services/resume_service.py:57 | the last position of a character, or -1 when it is absent |
| ResumeService.Extension | backend/app/services/resume_service.py:57 | the extension is empty or a dot-led suffix of the name without a slash |
| ResumeService.ValidateFile | backend/app/services/resume_service.py:52-59 | accepts exactly when the size is at most 10 MiB and the lower-cased extension is allowed; the size error comes first |
| ResumeService.AcceptsUpperCasePdf | backend/app/services/resume_service.py:57-58 | an upper-case `.PDF` is accepted |
| ResumeService.RejectsDotFile | backend/app/services/resume_service.py:57-59 | a name that is only `.pdf` has no extension and is refused |
| ResumeService.EmptyStructure | backend/app/services/resume_service.py:358-368 | empty personal data and six empty lists |
| ResumeService.EmptyStructureInvalid | backend/app/services/resume_service.py:265-278 | the empty structure is not meaningful content |
| ResumeService.ValidParsedDataCases | backend/app/services/resume_service.py:265-278 | empty personal data or three empty content lists fail; personal data with skills passes |
| ResumeService.AddToSection | backend/app/services/resume_service.py:224-263 | the section update, with its loop over the skill pieces, matches the section rule function |
| ResumeService.PersonalRuleCases | backend/app/services/resume_service.py:226-232 | an email line sets email, otherwise a phone line sets phone, a university or college line otherwise sets location in the fallback parser, a set name never changes, location only in the fallback parser |
| ResumeService.SkillEntriesWellFormed | backend/app/services/resume_service.py:254-263 | every skill entry has a stripped name longer than two characters, level Intermediate and category Technical |
| ResumeService.AddedToSectionWellFormed | backend/app/services/resume_service.py:234-263 | education and experience entries hold a keyword line and empty fields; projects, activities and awards stay empty |
| ResumeService.RunStep | backend/app/services/resume_service.py:194-216 | one more line is one more step of the section state machine |
| ResumeService.ParseAiResponse | backend/app/services/resume_service.py:176-222 | the loop over the lines computes the AI parser's result |
| ResumeService.FallbackParse | backend/app/services/resume_service.py:280-356 | the loop over the lines computes the fallback parser's result |
| ResumeService.AiParseResume | backend/app/services/resume_service.py:159-174 | a failed AI call or an invalid AI parse gives the fallback parse; a valid one is kept |
| ResumeService.NonContentLinesAddNothing | backend/app/services/resume_service.py:194-216 | blank lines and header lines never add content |
| ResumeService.NothingBeforeFirstHeader | backend/app/services/resume_service.py:192-216 | lines before any header leave the empty structure and no current section |
| ResumeService.RunWellFormed | backend/app/services/resume_service.py:176-222 | every state the parsers reach is well formed |
| ResumeService.ParseWellFormed | backend/app/services/resume_service.py:176-356 | both parsers return well-formed structures |
| ResumeService.StepKeepsName | backend/app/services/resume_service.py:231-232 | a step never changes a name once it is set |
| ResumeService.FirstNameWins | backend/app/services/resume_service.py:231-232 | once a name is set, later lines never change it |
| ResumeService.AiParserSetsNoLocation | backend/app/services/resume_service.py:224-232 | the AI parser never sets a location |
| ResumeService.ExtractImprovements | backend/app/services/resume_service.py:415-425 | the loop collects stripped improvement lines and keeps the first five |
| ResumeService.ImprovementsFacts | backend/app/services/resume_service.py:415-425 | at most five stripped items, each mentioning an improvement word, in input order; such a line with fewer than five before it is never skipped, and below the cap every such line is returned |
| JobService.ExperienceLevel | backend/app/services/job_service.py:49-63 | senior exactly when a senior word occurs; entry and intern only when no earlier group matches; mid otherwise |
| JobService.DefaultIsMid | backend/app/services/job_service.py:62-63 | with no level word the level is mid |
| JobService.SeniorDominates | backend/app/services/job_service.py:54-55 | adding any senior word makes the level senior |
| JobService.IdentifyIndustry | backend/app/services/job_service.py:65-82 | the loop returns the first industry with a keyword in the text, or "general" |
| JobService.IndustryFacts | backend/app/services/job_service.py:69-82 | the result is "general" or a declared industry, and "general" exactly when no keyword occurs |
| JobService.IndustryNamesNotGeneral | backend/app/services/job_service.py:69-76 | no declared industry is called "general" |
| JobService.SoftwareIsTechnology | backend/app/services/job_service.py:70-80 | a text mentioning "software" is technology, the first industry |
| JobService.AdditionalSkills | backend/app/services/job_service.py:37-44 | web, data and mobile words add their skills, and nothing else is added |
| JobService.SkillsFromDescription | backend/app/services/job_service.py:34-47 | the duplicate-free result holds exactly the lower-cased non-empty pattern matches and the added skills |
| JobService.NoSkillsWithoutEvidence | backend/app/services/job_service.py:34-47 | no pattern match and no keyword give no skills |
| JobService.KeyRequirementsFacts | backend/app/services/job_service.py:99-101 | at most five non-empty stripped items, in the order found; a non-empty item with fewer than five before it is never skipped, and below the cap every one is returned |
| JobService.AnyResumeSkillMatches | backend/app/services/job_service.py:121-126 | the inner loop reports whether some résumé skill covers the job skill |
| JobService.CalculateMatchScore | backend/app/services/job_service.py:103-140 | the nested loop computes the match result |
| JobService.EmptyInputsScoreZero | backend/app/services/job_service.py:105-111 | empty résumé or job skills give score 0, nothing matched, the job skills as given missing, percentage 0 |
| JobService.FloorPercent | backend/app/services/job_service.py:129-130 | the integer score lies in 0..100, is 100 only for a full match, and never exceeds the exact percentage |
| JobService.ScoreBounds | backend/app/services/job_service.py:118-130 | the score lies in 0..100, at most the percentage; no more matched than job skills; 100 exactly when all match |
| JobService.MatchPartition | backend/app/services/job_service.py:118-133 | a skill is matched exactly when it is a covered normalised job skill, missing exactly when it is an uncovered one, never both |
| JobService.MatchOrder | backend/app/services/job_service.py:118-133 | matched and missing keep the job skills' order |
| JobService.IdenticalSkillMatches | backend/app/services/job_service.py:113-126 | a résumé skill equal to a job skill after normalisation covers it |
| JobsApi.CollapseFacts | backend/app/api/v1/jobs.py:312 | after the collapse the only whitespace is single spaces |
| JobsApi.UnwantedPatternsOk | backend/app/api/v1/jobs.py:315-333 | none of the removal patterns matches the empty string |
| JobsApi.PhraseEnd | backend/app/api/v1/jobs.py:315-324 | a phrase match ends within the text, after its first word |
| JobsApi.MatchEnd | backend/app/api/v1/jobs.py:315-333 | a match consumes at least one character |
| JobsApi.RemoveFacts | backend/app/api/v1/jobs.py:332-333 | one removal only drops characters, and a symbol removal leaves none of that symbol |
| JobsApi.RemoveAllFacts | backend/app/api/v1/jobs.py:332-333 | the removal loop only drops characters and leaves none of the removed symbols |
| JobsApi.CleanJobDescription | backend/app/api/v1/jobs.py:306-344 | the cleaned text is the one the rule defines: empty for empty input, otherwise stripped and collapsed, with the patterns removed and only the long stripped lines kept |
| JobsApi.RemovePatterns | backend/app/api/v1/jobs.py:332-333 | the pattern loop removes the unwanted patterns one after another, each from what the previous one left |
| JobsApi.CleanedEmpty | backend/app/api/v1/jobs.py:308-309 | the empty text cleans to the empty text |
| JobsApi.RemovedHasNoNewline | backend/app/api/v1/jobs.py:312-336 | the text the line filter splits has no newline |
| JobsApi.CleanedShape | backend/app/api/v1/jobs.py:306-344 | the result is empty, or a stripped text longer than ten characters with no newline; it holds none of ×, ‹, ›, ←, → |
| JobsApi.CleanedOneLine | backend/app/api/v1/jobs.py:306-344 | as written, the result for a non-empty text is the whole collapsed, pattern-free text, stripped, when it is longer than ten characters, and empty otherwise |
| JobsApi.RemoveAllUnmatched | backend/app/api/v1/jobs.py:332-333 | patterns none of whose first characters occur in the text remove nothing |
| JobsApi.CleanedJoinsTwoLines | backend/app/api/v1/jobs.py:312-344 | as written, two lines of plain words come back as one line joined by a space when together they are long enough, however short the second line is |
| JobsApi.CleanedMergesLines | backend/app/api/v1/jobs.py:312-344 | as written, "Engineering\nMenu" comes back as "Engineering Menu": the short "Menu" line is kept |
| JobsApi.CleanLineFacts | backend/app/api/v1/jobs.py:336-344 | a line cleaned on its own has no newline and is stripped |
| JobsApi.CleanedByLineLines | backend/app/api/v1/jobs.py:336-344 | the line-wise cleaner keeps exactly the cleaned lines longer than ten characters, in order |
| JobsApi.CleanedByLineDropsShort | backend/app/api/v1/jobs.py:336-344 | the line-wise cleaner keeps a long first line of plain words and drops a short second one |
| JobsApi.CleanedByLineDropsShortLine | backend/app/api/v1/jobs.py:336-344 | the line-wise cleaner turns "Engineering\nMenu" into "Engineering", unlike the cleaner as written |
| JobsApi.CleanedByLineKeeps | backend/app/api/v1/jobs.py:338-341 | every line whose cleaned form is longer than ten characters is kept |
| JobsApi.IsJobDescription | backend/app/api/v1/jobs.py:348-349 | a text shorter than 100 characters is never a job description |
| JobsApi.ThreeIndicatorsSuffice | backend/app/api/v1/jobs.py:352-379 | three distinct indicators in a text of 100 or more characters make it a job description |
| JobsApi.JobDescriptionHasThreeIndicators | backend/app/api/v1/jobs.py:346-379 | a job description has at least 100 characters and three distinct indicators |
| JobsApi.SelectDescription | backend/app/api/v1/jobs.py:33-53 | a successful scrape wins; a failed one falls back to the pasted text; no text gives HTTP 400 with the matching message |
| JobsApi.Preview | backend/app/api/v1/jobs.py:111 | a description over 200 characters shows its first 200 and "..."; a shorter one is shown unchanged |
| JobsApi.PreviewIdempotent | backend/app/api/v1/jobs.py:111 | a preview has at most 203 characters and previewing it again changes nothing |
| ApplicationService.GenerateSkillsSection | backend/app/services/application_service.py:71-92 | the partitioning loop builds the skills section |
| ApplicationService.SelectedSkillsFacts | backend/app/services/application_service.py:83-90 | only résumé skills are listed, every relevant skill is listed, and at most five others |
| ApplicationService.RelevantFirst | backend/app/services/application_service.py:83-90 | the relevant skills come first, then only non-relevant ones |
| ApplicationService.NoJobSkillsFirstFive | backend/app/services/application_service.py:84-90 | with no job skills the first five résumé skills are listed |
| ApplicationService.SelectedNeverEmpty | backend/app/services/application_service.py:83-92 | a résumé with skills always lists one |
| ApplicationService.SkillsLineIsJoin | backend/app/services/application_service.py:76-92 | no résumé skills give the fixed fallback; otherwise the selected skills joined by ", " |
| ApplicationService.SummaryFacts | backend/app/services/application_service.py:56-69 | the summary starts with the stored summary or the default, and is exactly that base without job skills |
| ApplicationService.SummaryUsesThreeSkills | backend/app/services/application_service.py:66 | only the first three job skills affect the summary |
| ApplicationService.GenerateAdditionalSection | backend/app/services/application_service.py:109-122 | the appending method joins the additional lines by newlines |
| ApplicationService.AdditionalInfoFacts | backend/app/services/application_service.py:109-122 | the industry line only for a specific industry, the certifications line last, and "Available for immediate start" exactly when neither applies |
| ApplicationService.AdditionalUsesThreeCertifications | backend/app/services/application_service.py:117 | only the first three certifications matter |
| ApplicationService.ExtractRoleAttraction | backend/app/services/application_service.py:162-174 | the appending method joins the attractions by " and " |
| ApplicationService.RoleAttractionCases | backend/app/services/application_service.py:162-174 | the level and sector phrases in order, or "professional challenges" when neither applies |
| ApplicationService.BackgroundKeywords | backend/app/services/application_service.py:124-128 | no skills give "professional development" |
| ApplicationService.BackgroundUsesThreeSkills | backend/app/services/application_service.py:126-127 | only the first three skills matter, and a single skill is named as is |
| ApplicationService.PassionKeywords | backend/app/services/application_service.py:130-134 | "<industry> innovation" for a specific industry, otherwise "professional growth" |
| AiFormat.BulletLines | hireflow-frontend/src/services/aiService.ts:216-220 | a bullet list splits back into one "- item" line per item |
| AiFormat.ReportFacts | hireflow-frontend/src/services/aiService.ts:211-337 | a report starts with its title, contains every shown section, and is the bare title exactly when every shown section is empty |
| AiFormat.FormatResumeTailoring | hireflow-frontend/src/services/aiService.ts:211-234 | the step-by-step `+=` builds the title followed by the four optional sections |
| AiFormat.TailoringEmpty | hireflow-frontend/src/services/aiService.ts:211-234 | the report starts with its title and is only the title exactly when all lists are empty, the score is not positive and the suggestions are empty |
| AiFormat.TailoringKeywordsFirst | hireflow-frontend/src/services/aiService.ts:212-217 | with keywords the title is followed by the keyword bullets |
| AiFormat.TailoringShowsScoreAndSuggestions | hireflow-frontend/src/services/aiService.ts:224-231 | a positive score appears as "+N%", non-empty suggestions appear after their heading |
| AiFormat.FormatCoverLetter | hireflow-frontend/src/services/aiService.ts:236-247 | the builder emits title, letter, optional talking points and the word-count line |
| AiFormat.CoverLetterFacts | hireflow-frontend/src/services/aiService.ts:236-247 | the report starts with title and letter and ends with the word-count line; without points it is exactly those |
| AiFormat.FormatExperienceEnhancement | hireflow-frontend/src/services/aiService.ts:249-269 | the builder emits the description and three optional sections in order |
| AiFormat.ExperienceFacts | hireflow-frontend/src/services/aiService.ts:249-269 | the report starts with the description and is only that exactly when every optional section is empty |
| AiFormat.FormatJobAnalysis | hireflow-frontend/src/services/aiService.ts:271-305 | the builder emits the six optional sections in order |
| AiFormat.JobAnalysisFacts | hireflow-frontend/src/services/aiService.ts:271-305 | the report is the bare title exactly when all six sections are empty |
| AiFormat.FormatCareerGuidance | hireflow-frontend/src/services/aiService.ts:307-337 | the builder emits the plan and five optional sections in order |
| AiFormat.CareerFacts | hireflow-frontend/src/services/aiService.ts:307-337 | the report starts with the plan and is only that exactly when the five sections are empty |
| AiFormat.KindOf | hireflow-frontend/src/services/aiService.ts:196-205 | each of the five type tags selects its formatter, and no other tag does |
| AiFormat.FormatAIResponse | hireflow-frontend/src/services/aiService.ts:194-209 | an unknown tag gives the JSON dump; a known tag formats a response of its shape |
| AiFormat.ReportTitles | hireflow-frontend/src/services/aiService.ts:211-337 | each report starts with its own title |
| AiFormat.AuthHeaders | hireflow-frontend/src/services/aiService.ts:80-83 | an Authorization header "Bearer <token>" exactly when the token is non-empty, otherwise no headers |
| AiFormat.LoginTokenNotSent | hireflow-frontend/src/services/aiService.ts:81 | as written, the token login stores is never sent |
| AiFormat.LoginTokenSent | hireflow-frontend/src/contexts/AuthContext.tsx:95-132 | reading the key login writes sends "Bearer mock-token" after login and nothing after logout |
| AuthContext.ReduceFacts | hireflow-frontend/src/contexts/AuthContext.tsx:31-53 | SET_LOADING and CLEAR_ERROR change one field; SET_USER authenticates and clears loading and error; SET_ERROR keeps the user; an unknown action changes nothing |
| AuthContext.LogoutResets | hireflow-frontend/src/contexts/AuthContext.tsx:45-46 | LOGOUT gives the same signed-out, not-loading state from any state, and is idempotent |
| AuthContext.UpdateProfileFacts | hireflow-frontend/src/contexts/AuthContext.tsx:47-51 | each of the ten user fields takes the update's value when given and keeps its own otherwise; a missing user stays missing; other state fields are unchanged |
| AuthContext.ReducePreservesConsistent | hireflow-frontend/src/contexts/AuthContext.tsx:29-55 | every action keeps "authenticated exactly when there is a user" |
| AuthContext.ReduceAllPreservesConsistent | hireflow-frontend/src/contexts/AuthContext.tsx:29-55 | so does every sequence of actions |
| AuthContext.InitialStateConsistent | hireflow-frontend/src/contexts/AuthContext.tsx:22-27 | the initial state is consistent, and so is every state reached from it |
| AuthContext.PlanFor | hireflow-frontend/src/contexts/AuthContext.tsx:88-118 | premium exactly when the email contains ".edu", never enterprise |
| AuthContext.LoginUser | hireflow-frontend/src/contexts/AuthContext.tsx:83-92 | the mock user has the given email and is premium exactly when the email is an .edu address |
| AuthContext.RegisteredUser | hireflow-frontend/src/contexts/AuthContext.tsx:110-122 | the registered user keeps the form's fields and is premium exactly when the email is an .edu address |
| AuthContext.AuthProvider.constructor | hireflow-frontend/src/contexts/AuthContext.tsx:57-58 | the provider starts in the initial state |
| AuthContext.AuthProvider.Mount | hireflow-frontend/src/contexts/AuthContext.tsx:60-72 | mounting clears the loading flag |
| AuthContext.AuthProvider.Login | hireflow-frontend/src/contexts/AuthContext.tsx:74-99 | loading, clear error, set the .edu-ruled mock user; the mock token is stored under "authToken", or, when storing throws, the login error is set over the signed-in user and nothing is stored |
| AuthContext.AuthProvider.Register | hireflow-frontend/src/contexts/AuthContext.tsx:101-129 | the same dispatch sequence with the registered user, and the token stored; when storing throws, the registration error is set instead and nothing is stored |
| AuthContext.AuthProvider.Logout | hireflow-frontend/src/contexts/AuthContext.tsx:131-134 | the token is removed and the state signed out |
| AuthContext.AuthProvider.UpdateProfile | hireflow-frontend/src/contexts/AuthContext.tsx:136-138 | dispatches UPDATE_PROFILE and leaves storage alone |
| ExperienceWizard.StepIndex | hireflow-frontend/src/components/experience/ExperienceWizard.tsx:25-32 | the step's position in the four-step list, so in 0..3 |
| ExperienceWizard.StepMoves | hireflow-frontend/src/components/experience/ExperienceWizard.tsx:38-57 | next moves one step forward except at refinement, back one step back except at type selection |
| ExperienceWizard.BackAfterNext | hireflow-frontend/src/components/experience/ExperienceWizard.tsx:38-57 | back undoes next on every non-final step, next undoes back on every non-initial step |
| ExperienceWizard.MockResult | hireflow-frontend/src/components/experience/ExperienceWizard.tsx:66-77 | the result keeps the description as original, has confidence 87, four improvements and five keywords |
| ExperienceWizard.MockResultKind | hireflow-frontend/src/components/experience/ExperienceWizard.tsx:68 | "academic research project" for a class project, "team initiative" otherwise |
| ExperienceWizard.CanProceedRules | hireflow-frontend/src/components/experience/ExperienceWizard.tsx:93-98 | a type is needed, then a trimmed description over ten characters, then a result; refinement always proceeds |
| ExperienceWizard.Wizard.constructor | hireflow-frontend/src/components/experience/ExperienceWizard.tsx:19-23 | starts at type selection with nothing chosen or translating |
| ExperienceWizard.Wizard.SelectType | hireflow-frontend/src/components/experience/ExperienceWizard.tsx:34-36 | stores the type and changes nothing else |
| ExperienceWizard.Wizard.SetDescription | hireflow-frontend/src/components/experience/ExperienceWizard.tsx:140 | stores the description and changes nothing else |
| ExperienceWizard.Wizard.StartTranslation | hireflow-frontend/src/components/experience/ExperienceWizard.tsx:59-60 | sets translating and captures description and type for the pending result |
| ExperienceWizard.Wizard.FinishTranslation | hireflow-frontend/src/components/experience/ExperienceWizard.tsx:63-80 | stores the mock result of the captured input and clears translating |
| ExperienceWizard.Wizard.HandleNext | hireflow-frontend/src/components/experience/ExperienceWizard.tsx:38-47 | one step forward; leaving the description step starts a translation |
| ExperienceWizard.Wizard.HandleBack | hireflow-frontend/src/components/experience/ExperienceWizard.tsx:49-57 | one step back, nothing else changes |
| ExperienceWizard.Wizard.ClickNext | hireflow-frontend/src/components/experience/ExperienceWizard.tsx:300-313 | the button advances only off type selection and when the guard allows it; as written, "Complete" at refinement changes nothing |
| ExperienceWizard.Wizard.ClickComplete | hireflow-frontend/src/components/experience/ExperienceWizard.tsx:87-91 | the intended button: at refinement it hands the result to `onComplete`, elsewhere it is Next |
| ExperienceWizard.Wizard.SelectorNext | hireflow-frontend/src/components/experience/ExperienceWizard.tsx:104-108 | the type selector moves to the description step |
| ExperienceWizard.Wizard.Regenerate | hireflow-frontend/src/components/experience/ExperienceWizard.tsx:83-85 | starts a new translation of the current input |
| ExperienceWizard.Wizard.HandleSave | hireflow-frontend/src/components/experience/ExperienceWizard.tsx:87-91 | completes with the result exactly when there is one |
| ApplicationTracker.StatusColor | hireflow-frontend/src/components/pages/ApplicationTracker.tsx:61-70 | one colour per known status, gray exactly for every other string |
| ApplicationTracker.StatusIcon | hireflow-frontend/src/components/pages/ApplicationTracker.tsx:72-81 | check for offer, cross for rejected, clock for everything else |
| ApplicationTracker.FilteredApplications | hireflow-frontend/src/components/pages/ApplicationTracker.tsx:83-88 | an order-preserving subsequence keeping exactly the applications matching status and case-insensitive search |
| ApplicationTracker.ShowAll | hireflow-frontend/src/components/pages/ApplicationTracker.tsx:84-86 | filter "all" with an empty search keeps every application |
| ApplicationTracker.StatusCount | hireflow-frontend/src/components/pages/ApplicationTracker.tsx:106-125 | a status count never exceeds the number of applications |
| ApplicationTracker.StatusCountsSum | hireflow-frontend/src/components/pages/ApplicationTracker.tsx:106-125 | the five status counts sum to the total; interviewing, offer and rejected together never exceed it |
| ApplicationTracker.InitialStats | hireflow-frontend/src/components/pages/ApplicationTracker.tsx:36-125 | the initial data shows two applications, one interviewing, no offer, no rejection |
| ApplicationsTrackerUi.StatusVariant | hireflow-frontend/components/ui/ApplicationTracker.tsx:73-91 | rejected is destructive; interviews and offers default; viewed and withdrawn outline; applied secondary |
| ApplicationsTrackerUi.FilteredApplications | hireflow-frontend/components/ui/ApplicationTracker.tsx:93-98 | an order-preserving subsequence keeping exactly the records matching search and status |
| ApplicationsTrackerUi.FilterByStatus | hireflow-frontend/components/ui/ApplicationTracker.tsx:93-98 | filtering by a status's name keeps exactly the matching records of that status |
| ApplicationsTrackerUi.StatusNamesDistinct | hireflow-frontend/components/ui/ApplicationTracker.tsx:9 | the seven status names are distinct and name their status |
| ApplicationsTrackerUi.CountsPartition | hireflow-frontend/components/ui/ApplicationTracker.tsx:100-105 | pending, interviews and closed add up to the total |
| ApplicationsTrackerUi.PendingSplits | hireflow-frontend/components/ui/ApplicationTracker.tsx:102 | pending counts the applied and the viewed records |
| ApplicationsTrackerUi.TableCounts | hireflow-frontend/components/ui/ApplicationTracker.tsx:25-105 | the five fixed records give two pending, two interviews and one closed |
| JobDiscovery.Toggled | hireflow-frontend/src/components/pages/jobDiscovery.tsx:170-176 | a present id is removed everywhere, keeping every copy of every other id (as a multiset) and their order; an absent id is appended |
| JobDiscovery.ToggleFlips | hireflow-frontend/src/components/pages/jobDiscovery.tsx:170-176 | the toggled id's membership flips, every other id's stays |
| JobDiscovery.ToggleTwice | hireflow-frontend/src/components/pages/jobDiscovery.tsx:170-176 | toggling an absent id twice restores the list |
| JobDiscovery.SavedJobs.constructor | hireflow-frontend/src/components/pages/jobDiscovery.tsx:168 | the saved list starts as ["2", "5"] |
| JobDiscovery.SavedJobs.Toggle | hireflow-frontend/src/components/pages/jobDiscovery.tsx:170-176 | replaces the saved list by its toggled form |
| JobDiscovery.TypeColor | hireflow-frontend/src/components/pages/jobDiscovery.tsx:178-185 | internship, entry-level and co-op have fixed classes, every other type gray |

## Left out

- The OpenAI client, `_get_ai_response`, `health_check` and every `async` endpoint wrapper in `ai_service.py` and `resume_service.py`: the model's answer is an input string, or `None` when the call raises.
- `_suggest_modifications` (`ai_service.py:431-438`): a constant dictionary with nothing to prove.
- HTTP and scraping: the axios calls in `aiService.ts`, the scraper and URL validation in `jobs.py`, and PDF/DOCX text extraction in `resume_service.py`. The scrape result is an `Option<string>` input of `JobsApi.SelectDescription`.
- Persistence, routing, database rows, the `eval` of stored skill lists and the view components that only render mock data.
- AnalyzeKeywords: keeps the percentage as an exact real, not Python's float; `round(…, 1)` is not modelled.
- JobService.CalculateMatchScore: the score is the integer floor of 100·m/n. Python computes `int((m/n)*100)` in floating point, which can be one lower (m = 29, n = 100 gives 28.999… and so 28). The `match_percentage` float is kept exact.
- JobService.SkillsFromDescription: the skill regexes are abstract. Their `findall` results are an input sequence, and the result is a set because Python's `list(set(...))` order is arbitrary.
- JobService.KeyRequirementsFacts: the requirement regexes are abstract. Their capture groups are an input sequence.
- JobsApi.CleanJobDescription: the IGNORECASE phrase patterns are implemented on ASCII only. The claim "no whitespace runs" does not hold, because removing a phrase can leave two spaces side by side; CleanedShape states what does hold.
- AiService.ScoreImprovement: `\d` and `\s` are ASCII only: DigitRunEnd and FirstScoreMatch accept only the digits 0-9 as `\d` and ASCII whitespace as `\s`.
- AiService.DigitRunEnd: `\d` is the ASCII digits 0-9 only; other Unicode decimal digits, which Python's `\d` also matches, end the run.
- AiService.ExtractKeywords: the result is a set, because `list(set(...))` has no fixed order.
- Unicode: case mapping, whitespace and `•` handling beyond ASCII and that one character are not modelled; `\d` is the ASCII digits 0-9 wherever it occurs (HasDigit in the phone test, DigitRunEnd in the score extractor).
- JavaScript numbers are `int`/`nat`: `score_improvement` is an `int`, and `word_count` a `nat`. `JSON.stringify` is the `jsonDump` parameter of `AiFormat.FormatAIResponse`.
- AiFormat.FormatAIResponse: a known tag paired with a response of another shape gives `None`, where JavaScript would throw or print "undefined".
- Timers: the translation timeout is split into `StartTranslation` and `FinishTranslation`. Overlapping timers (last write wins) and the dates in the mock data are not modelled.
- `localStorage`: modelled only as the provider's `storage` map. The only way into the `catch` of login and register is a `setItem` that throws (storage full or blocked); that is the `storeFails` input of `Login` and `Register`.
- AuthContext.AuthProvider.Login: login and register are atomic methods. The one-second `await` between CLEAR_ERROR and SET_USER is not modelled, and neither is a logout or a second login during it, which the later SET_USER would overwrite.
- The `except` branches of `_parse_ai_response` and `_fallback_parse`, which return the empty structure: the modelled parsers raise nothing, so these branches are left out.
- `ExperienceTypeSelector`'s own guard on its continue button is not part of this model; `SelectorNext` only requires the selector's step.

## Findings

| source | as written | input that shows it | evidently intended | confidence | as-written member | corrected member |
|---|---|---|---|---|---|---|
| backend/app/api/v1/jobs.py:312-344 | whitespace, newlines included, is collapsed to single spaces before the text is split into lines, so the "keep lines longer than 10 characters" filter sees one line | "Engineering\nMenu" comes back as "Engineering Menu"; the short "Menu" line is not dropped, while the line-wise cleaner gives "Engineering" | collapse whitespace within each line, then drop the short lines | medium, not executed | JobsApi.CleanedMergesLines | JobsApi.CleanedByLineLines |
| hireflow-frontend/src/services/aiService.ts:81 | the request headers read the token from `localStorage` key "token", while login and register store it under "authToken" (AuthContext.tsx:95,125) | after login, with no "token" key, the requests carry no Authorization header | read the key that login writes | high, not executed | AiFormat.LoginTokenNotSent | AiFormat.LoginTokenSent |
| hireflow-frontend/src/components/experience/ExperienceWizard.tsx:301-310 | at the refinement step the button reads "Complete" but calls `handleNext`, which has no refinement branch, so the click does nothing; `handleSave` is wired only to the translation step | at refinement with a result, pressing "Complete" leaves the wizard as it was and `onComplete` is never called | "Complete" calls `handleSave`, handing the result to `onComplete` | medium, not executed | ExperienceWizard.Wizard.ClickNext | ExperienceWizard.Wizard.ClickComplete |
