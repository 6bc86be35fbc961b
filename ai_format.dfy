/**
 * The front end's AI client: the Markdown reports it renders from the five kinds of AI
 * response, the dispatch on the response tag, and the authorisation header it attaches
 * to every request.
 */
module AiFormat {
  import opened Wrappers
  import opened Text
  import opened Seqs
  import AuthContext

  // ---------------------------------------------------------------------------
  // Building blocks

  /** One list item, `- x`. */
  function Bullet(item: string): string {
    "- " + item
  }

  /** `items.map(x => `- ${x}`).join('\n')`. */
  function BulletList(items: seq<string>): string {
    Join(Map(items, Bullet), "\n")
  }

  /** Items without line breaks come back, one bullet per line, when the list is split
      at its line breaks. */
  lemma BulletLines(items: seq<string>)
    requires |items| >= 1
    requires forall x :: x in items ==> '\n' !in x
    ensures Split(BulletList(items), '\n') == Map(items, Bullet)
  {
    var bullets := Map(items, Bullet);
    forall b | b in bullets
      ensures '\n' !in b
    {
      var i := MapWitness(items, Bullet, b);
      assert items[i] in items;
      assert b == "- " + items[i];
    }
    SplitJoin(bullets, '\n');
  }

  /** A piece of a report and whether the formatter appends it. */
  datatype Part = Part(shown: bool, text: string)

  function Shown(p: Part): string {
    if p.shown then p.text else ""
  }

  /** The shown pieces, in order: what a run of `if (...) formatted += ...` appends. */
  function Emit(parts: seq<Part>): string
    decreases |parts|
  {
    if parts == [] then "" else Emit(parts[..|parts| - 1]) + Shown(parts[|parts| - 1])
  }

  lemma EmitSnoc(parts: seq<Part>, p: Part)
    ensures Emit(parts + [p]) == Emit(parts) + Shown(p)
  {
    assert (parts + [p])[..|parts|] == parts;
  }

  /** Emitting a concatenation emits the first pieces, then the others. */
  lemma {:induction false} EmitAppend(a: seq<Part>, b: seq<Part>)
    ensures Emit(a + b) == Emit(a) + Emit(b)
    decreases |b|
  {
    if b == [] {
      assert a + b == a;
    } else {
      var b' := b[..|b| - 1];
      var x := b[|b| - 1];
      assert (a + b)[..|a + b| - 1] == a + b';
      assert (a + b)[|a + b| - 1] == x;
      EmitAppend(a, b');
      calc {
        Emit(a + b);
        Emit(a + b') + Shown(x);
        Emit(a) + Emit(b') + Shown(x);
        Emit(a) + (Emit(b') + Shown(x));
      }
    }
  }

  /** Appending a heading and then its body appends the whole section. */
  lemma AppendSection(before: string, heading: string, body: string, trailer: string)
    ensures before + heading + (body + trailer) == before + (heading + body + trailer)
  {
  }

  /** The formatter's step: a report holding the pieces done so far, extended by the next
      piece when it is shown, holds one piece more. */
  lemma Extend(title: string, done: seq<Part>, p: Part, before: string, after: string)
    requires before == title + Emit(done)
    requires after == before + Shown(p)
    ensures after == title + Emit(done + [p])
  {
    EmitSnoc(done, p);
    assert after == title + Emit(done) + Shown(p);
  }

  /** Pieces collected one by one form the report's list of pieces. */
  lemma FourParts(a: Part, b: Part, c: Part, d: Part)
    ensures [a] + [b] + [c] + [d] == [a, b, c, d]
  {
  }

  lemma ThreeParts(a: Part, b: Part, c: Part)
    ensures [a] + [b] + [c] == [a, b, c]
  {
  }

  lemma SixParts(a: Part, b: Part, c: Part, d: Part, e: Part, f: Part)
    ensures [a] + [b] + [c] + [d] + [e] + [f] == [a, b, c, d, e, f]
  {
  }

  /** Emitting from the front: the first piece, then the rest. */
  lemma {:induction false} EmitCons(parts: seq<Part>)
    requires |parts| > 0
    ensures Emit(parts) == Shown(parts[0]) + Emit(parts[1..])
    decreases |parts|
  {
    var init := parts[..|parts| - 1];
    var last := parts[|parts| - 1];
    if |parts| == 1 {
      assert init == [];
      assert parts[1..] == [];
    } else {
      EmitCons(init);
      assert init[0] == parts[0];
      var tail := parts[1..];
      assert tail[..|tail| - 1] == init[1..];
      assert tail[|tail| - 1] == last;
      assert Emit(tail) == Emit(init[1..]) + Shown(last);
      calc {
        Emit(parts);
        Emit(init) + Shown(last);
        Shown(parts[0]) + Emit(init[1..]) + Shown(last);
        Shown(parts[0]) + (Emit(init[1..]) + Shown(last));
      }
    }
  }

  /** The first piece, when shown, opens the emitted text. */
  lemma EmitFirst(title: string, parts: seq<Part>)
    requires |parts| > 0 && parts[0].shown
    ensures StartsWith(title + Emit(parts), title + parts[0].text)
  {
    var text := parts[0].text;
    var rest := Emit(parts[1..]);
    EmitCons(parts);
    Assoc(title, text, rest);
    PrefixOfAppend(title + text, rest);
  }

  lemma Assoc(a: string, b: string, c: string)
    ensures a + (b + c) == a + b + c
  {
  }

  lemma PrefixOfAppend(a: string, b: string)
    ensures StartsWith(a + b, a)
  {
    assert (a + b)[..|a|] == a;
  }

  /** Nothing is emitted exactly when every shown piece is empty. */
  lemma {:induction false} EmitEmpty(parts: seq<Part>)
    ensures Emit(parts) == "" <==> forall i :: 0 <= i < |parts| && parts[i].shown ==> parts[i].text == ""
    decreases |parts|
  {
    if parts != [] {
      var init := parts[..|parts| - 1];
      EmitEmpty(init);
      assert forall i :: 0 <= i < |init| ==> init[i] == parts[i];
    }
  }

  /** Every shown piece occurs in the emitted text. */
  lemma {:induction false} EmitShows(parts: seq<Part>, i: nat)
    requires i < |parts| && parts[i].shown
    ensures Contains(Emit(parts), parts[i].text)
    decreases |parts|
  {
    var init := parts[..|parts| - 1];
    if i == |parts| - 1 {
      ContainsAt(Shown(parts[i]), parts[i].text, 0);
      ContainsConcat(Emit(init), Shown(parts[i]), parts[i].text);
    } else {
      assert init[i] == parts[i];
      EmitShows(init, i);
      ContainsConcat(Emit(init), Shown(parts[|parts| - 1]), parts[i].text);
    }
  }

  /** The last piece, when shown, closes the emitted text. */
  lemma EmitLast(title: string, parts: seq<Part>)
    requires |parts| > 0 && parts[|parts| - 1].shown
    ensures EndsWith(title + Emit(parts), parts[|parts| - 1].text)
  {
    var n := |parts| - 1;
    assert parts == parts[..n] + [parts[n]];
    EmitSnoc(parts[..n], parts[n]);
    Assoc(title, Emit(parts[..n]), parts[n].text);
    SuffixOfAppend(title + Emit(parts[..n]), parts[n].text);
  }

  lemma SuffixOfAppend(a: string, b: string)
    ensures EndsWith(a + b, b)
  {
    assert (a + b)[|a|..] == b;
  }

  /** A report whose first piece is always shown is the title, that piece, and then the
      optional pieces; the optional pieces add nothing exactly when each shown one is empty. */
  lemma LeadFacts(title: string, parts: seq<Part>)
    requires |parts| > 0 && parts[0].shown
    ensures title + Emit(parts) == title + parts[0].text + Emit(parts[1..])
    ensures StartsWith(title + Emit(parts), title + parts[0].text)
    ensures title + Emit(parts) == title + parts[0].text <==>
              forall i :: 1 <= i < |parts| && parts[i].shown ==> parts[i].text == ""
  {
    var head := title + parts[0].text;
    var rest := Emit(parts[1..]);
    EmitCons(parts);
    Assoc(title, parts[0].text, rest);
    PrefixOfAppend(head, rest);
    RestEmpty(parts);
    if head + rest == head {
      assert |rest| == 0;
    }
  }

  /** The pieces after the first add nothing exactly when each shown one is empty. */
  lemma RestEmpty(parts: seq<Part>)
    requires |parts| > 0
    ensures Emit(parts[1..]) == "" <==> forall i :: 1 <= i < |parts| && parts[i].shown ==> parts[i].text == ""
  {
    var rest := parts[1..];
    EmitEmpty(rest);
    assert forall i :: 1 <= i < |parts| ==> parts[i] == rest[i - 1];
    assert forall i :: 0 <= i < |rest| ==> rest[i] == parts[i + 1];
  }

  /** Sections come out in their fixed order: of two shown pieces, the earlier one lies in
      the text emitted before the later one begins. */
  lemma EmitOrder(parts: seq<Part>, i: nat, j: nat)
    requires i < j < |parts| && parts[i].shown && parts[j].shown
    ensures Emit(parts) == Emit(parts[..j]) + Emit(parts[j..])
    ensures Contains(Emit(parts[..j]), parts[i].text)
    ensures StartsWith(Emit(parts[j..]), parts[j].text)
  {
    EmitSplit(parts, j);
    EmitShownBefore(parts, i, j);
    EmitStartsAt(parts, j);
  }

  lemma EmitSplit(parts: seq<Part>, j: nat)
    requires j <= |parts|
    ensures Emit(parts) == Emit(parts[..j]) + Emit(parts[j..])
  {
    EmitAppend(parts[..j], parts[j..]);
    assert parts[..j] + parts[j..] == parts;
  }

  lemma EmitShownBefore(parts: seq<Part>, i: nat, j: nat)
    requires i < j <= |parts| && parts[i].shown
    ensures Contains(Emit(parts[..j]), parts[i].text)
  {
    assert parts[..j][i] == parts[i];
    EmitShows(parts[..j], i);
  }

  lemma EmitStartsAt(parts: seq<Part>, j: nat)
    requires j < |parts| && parts[j].shown
    ensures StartsWith(Emit(parts[j..]), parts[j].text)
  {
    assert parts[j..][0] == parts[j];
    EmitStarts(parts[j..]);
  }

  /** A shown first piece starts the emitted text. */
  lemma EmitStarts(parts: seq<Part>)
    requires |parts| > 0 && parts[0].shown
    ensures StartsWith(Emit(parts), parts[0].text)
  {
    EmitCons(parts);
    assert Emit(parts)[..|parts[0].text|] == parts[0].text;
  }

  /** A list section, shown only for a non-empty list. */
  function ListSection(heading: string, items: seq<string>, trailer: string): Part {
    Part(|items| > 0, heading + BulletList(items) + trailer)
  }

  /** A text section, shown only for a non-empty (truthy) string. */
  function TextSection(heading: string, text: string, trailer: string): Part {
    Part(text != "", heading + text + trailer)
  }

  /** `if (items.length > 0) { formatted += heading; formatted += list + trailer; }` */
  method AppendList(formatted: string, heading: string, items: seq<string>, trailer: string)
    returns (result: string)
    ensures result == formatted + Shown(ListSection(heading, items, trailer))
  {
    result := formatted;
    if |items| > 0 {
      result := result + heading;
      result := result + (BulletList(items) + trailer);
      AppendSection(formatted, heading, BulletList(items), trailer);
    }
  }

  /** `if (text) { formatted += heading; formatted += text + trailer; }` */
  method AppendText(formatted: string, heading: string, text: string, trailer: string)
    returns (result: string)
    ensures result == formatted + Shown(TextSection(heading, text, trailer))
  {
    result := formatted;
    if text != "" {
      result := result + heading;
      result := result + (text + trailer);
      AppendSection(formatted, heading, text, trailer);
    }
  }

  /** A text that is always emitted. */
  function Always(text: string): Part {
    Part(true, text)
  }

  predicate EndsWith(s: string, suffix: string) {
    |suffix| <= |s| && s[|s| - |suffix|..] == suffix
  }

  /** What every report satisfies: it starts with its title, shows every shown piece,
      and is the bare title exactly when no shown piece has text. */
  lemma ReportFacts(title: string, parts: seq<Part>)
    ensures StartsWith(title + Emit(parts), title)
    ensures forall i :: 0 <= i < |parts| && parts[i].shown ==> Contains(title + Emit(parts), parts[i].text)
    ensures title + Emit(parts) == title <==> forall i :: 0 <= i < |parts| && parts[i].shown ==> parts[i].text == ""
  {
    ReportStarts(title, parts);
    forall i | 0 <= i < |parts| && parts[i].shown
      ensures Contains(title + Emit(parts), parts[i].text)
    {
      EmitShows(parts, i);
      ContainsConcat(title, Emit(parts), parts[i].text);
    }
    ReportBare(title, parts);
  }

  lemma ReportStarts(title: string, parts: seq<Part>)
    ensures StartsWith(title + Emit(parts), title)
  {
    assert (title + Emit(parts))[..|title|] == title;
  }

  /** A report is its bare title exactly when every shown piece is empty. */
  lemma ReportBare(title: string, parts: seq<Part>)
    ensures title + Emit(parts) == title <==> forall i :: 0 <= i < |parts| && parts[i].shown ==> parts[i].text == ""
  {
    EmitEmpty(parts);
    assert title + Emit(parts) == title <==> Emit(parts) == "" by {
      if title + Emit(parts) == title {
        assert |Emit(parts)| == 0;
      }
    }
  }

  // ---------------------------------------------------------------------------
  // Resume tailoring

  datatype TailoringResponse = TailoringResponse(
    keywords: seq<string>, atsImprovements: seq<string>,
    coverLetterSuggestions: string, scoreImprovement: int)

  const TailoringTitle: string := "## Resume Tailoring Results\n\n"
  const KeywordsHeading: string := "### Key Keywords to Include\n"
  const AtsHeading: string := "### ATS Improvements\n"
  const SuggestionsHeading: string := "### Cover Letter Suggestions\n"

  /** `### Score Improvement: +N%`, for a positive score only. */
  function ScoreSection(score: int): Part {
    Part(score > 0, if score > 0 then "### Score Improvement: +" + NatToString(score) + "%\n\n" else "")
  }

  function TailoringParts(r: TailoringResponse): seq<Part> {
    [ListSection(KeywordsHeading, r.keywords, "\n\n"),
     ListSection(AtsHeading, r.atsImprovements, "\n\n"),
     ScoreSection(r.scoreImprovement),
     TextSection(SuggestionsHeading, r.coverLetterSuggestions, "\n\n")]
  }

  /** The formatter's list step, with the report so far and the pieces it holds. */
  method ExtendList(title: string, ghost done: seq<Part>, formatted: string, heading: string,
                    items: seq<string>, trailer: string) returns (result: string)
    requires formatted == title + Emit(done)
    ensures result == title + Emit(done + [ListSection(heading, items, trailer)])
  {
    result := AppendList(formatted, heading, items, trailer);
    Extend(title, done, ListSection(heading, items, trailer), formatted, result);
  }

  /** The formatter's text step. */
  method ExtendText(title: string, ghost done: seq<Part>, formatted: string, heading: string,
                    text: string, trailer: string) returns (result: string)
    requires formatted == title + Emit(done)
    ensures result == title + Emit(done + [TextSection(heading, text, trailer)])
  {
    result := AppendText(formatted, heading, text, trailer);
    Extend(title, done, TextSection(heading, text, trailer), formatted, result);
  }

  /** The tailoring report's score step. */
  method ExtendScore(title: string, ghost done: seq<Part>, formatted: string, score: int)
    returns (result: string)
    requires formatted == title + Emit(done)
    ensures result == title + Emit(done + [ScoreSection(score)])
  {
    result := AppendScore(formatted, score);
    Extend(title, done, ScoreSection(score), formatted, result);
  }

  /** Appends the score line when the score is positive. */
  method AppendScore(formatted: string, score: int) returns (result: string)
    ensures result == formatted + Shown(ScoreSection(score))
  {
    result := formatted;
    if score > 0 {
      result := result + ("### Score Improvement: +" + NatToString(score) + "%\n\n");
    }
  }

  /** `formatResumeTailoringResponse`. */
  method FormatResumeTailoring(r: TailoringResponse) returns (formatted: string)
    ensures formatted == TailoringTitle + Emit(TailoringParts(r))
  {
    formatted := TailoringTitle;
    formatted := ExtendList(TailoringTitle, [], formatted, KeywordsHeading, r.keywords, "\n\n");
    ghost var done := [ListSection(KeywordsHeading, r.keywords, "\n\n")];
    formatted := ExtendList(TailoringTitle, done, formatted, AtsHeading, r.atsImprovements, "\n\n");
    done := done + [ListSection(AtsHeading, r.atsImprovements, "\n\n")];
    formatted := ExtendScore(TailoringTitle, done, formatted, r.scoreImprovement);
    done := done + [ScoreSection(r.scoreImprovement)];
    formatted := ExtendText(TailoringTitle, done, formatted, SuggestionsHeading, r.coverLetterSuggestions, "\n\n");
    done := done + [TextSection(SuggestionsHeading, r.coverLetterSuggestions, "\n\n")];
    FourParts(done[0], done[1], done[2], done[3]);
  }

  /** The tailoring report starts with its title, and is the bare title exactly when both
      lists are empty, the score is not positive and there are no suggestions. */
  lemma TailoringEmpty(r: TailoringResponse)
    ensures StartsWith(TailoringTitle + Emit(TailoringParts(r)), TailoringTitle)
    ensures TailoringTitle + Emit(TailoringParts(r)) == TailoringTitle <==>
      r.keywords == [] && r.atsImprovements == [] && r.scoreImprovement <= 0 && r.coverLetterSuggestions == ""
  {
    var parts := TailoringParts(r);
    ReportStarts(TailoringTitle, parts);
    ReportBare(TailoringTitle, parts);
    assert parts[0].shown ==> parts[0].text != "" by { assert |KeywordsHeading| > 0; }
    assert parts[1].shown ==> parts[1].text != "" by { assert |AtsHeading| > 0; }
    assert parts[3].shown ==> parts[3].text != "" by { assert |SuggestionsHeading| > 0; }
  }

  /** The keyword list, when there is one, comes right after the title. */
  lemma TailoringKeywordsFirst(r: TailoringResponse)
    requires |r.keywords| > 0
    ensures StartsWith(TailoringTitle + Emit(TailoringParts(r)),
                       TailoringTitle + (KeywordsHeading + BulletList(r.keywords) + "\n\n"))
  {
    EmitFirst(TailoringTitle, TailoringParts(r));
  }

  /** A positive score and non-empty suggestions each appear in the report. */
  lemma TailoringShowsScoreAndSuggestions(r: TailoringResponse)
    ensures r.scoreImprovement > 0 ==>
      Contains(TailoringTitle + Emit(TailoringParts(r)), "### Score Improvement: +" + NatToString(r.scoreImprovement) + "%\n\n")
    ensures r.coverLetterSuggestions != "" ==>
      Contains(TailoringTitle + Emit(TailoringParts(r)), SuggestionsHeading + r.coverLetterSuggestions)
  {
    var parts := TailoringParts(r);
    var report := TailoringTitle + Emit(parts);
    ReportFacts(TailoringTitle, parts);
    if r.scoreImprovement > 0 {
      assert parts[2].shown;
    }
    if r.coverLetterSuggestions != "" {
      assert parts[3].shown;
      SectionStartsWithBody(SuggestionsHeading, r.coverLetterSuggestions, "\n\n");
      ContainsTransitive(report, parts[3].text, SuggestionsHeading + r.coverLetterSuggestions);
    }
  }

  /** A section's text holds its heading followed by its body. */
  lemma SectionStartsWithBody(heading: string, body: string, trailer: string)
    ensures Contains(heading + body + trailer, heading + body)
  {
    assert (heading + body + trailer)[..|heading + body|] == heading + body;
    ContainsAt(heading + body + trailer, heading + body, 0);
  }

  /** A substring of a substring is a substring. */
  lemma ContainsTransitive(s: string, t: string, sub: string)
    requires Contains(s, t) && Contains(t, sub)
    ensures Contains(s, sub)
  {
    var i := ContainsWitness(s, t);
    var j := ContainsWitness(t, sub);
    assert s[i..i + |t|] == t;
    forall k | 0 <= k < |sub|
      ensures s[i + j + k] == sub[k]
    {
      assert t[j + k] == sub[k];
      assert s[i..i + |t|][j + k] == s[i + j + k];
    }
    assert s[i + j..i + j + |sub|] == sub;
    ContainsAt(s, sub, i + j);
  }

  // ---------------------------------------------------------------------------
  // Cover letter

  datatype CoverLetterResponse = CoverLetterResponse(coverLetter: string, keyTalkingPoints: seq<string>, wordCount: nat)

  const CoverLetterTitle: string := "## Cover Letter Generated\n\n"
  const TalkingPointsHeading: string := "### Key Talking Points\n"

  function WordCountLine(n: nat): string {
    "\n**Word Count:** " + NatToString(n)
  }

  function CoverLetterParts(r: CoverLetterResponse): seq<Part> {
    [Always(r.coverLetter + "\n\n"),
     ListSection(TalkingPointsHeading, r.keyTalkingPoints, "\n"),
     Always(WordCountLine(r.wordCount))]
  }

  /** `formatCoverLetterResponse`. */
  method FormatCoverLetter(r: CoverLetterResponse) returns (formatted: string)
    ensures formatted == CoverLetterTitle + Emit(CoverLetterParts(r))
  {
    formatted := CoverLetterTitle;
    var before := formatted;
    formatted := formatted + (r.coverLetter + "\n\n");
    Extend(CoverLetterTitle, [], Always(r.coverLetter + "\n\n"), before, formatted);
    ghost var done := [Always(r.coverLetter + "\n\n")];
    formatted := ExtendList(CoverLetterTitle, done, formatted, TalkingPointsHeading, r.keyTalkingPoints, "\n");
    done := done + [ListSection(TalkingPointsHeading, r.keyTalkingPoints, "\n")];
    before := formatted;
    formatted := formatted + WordCountLine(r.wordCount);
    Extend(CoverLetterTitle, done, Always(WordCountLine(r.wordCount)), before, formatted);
    done := done + [Always(WordCountLine(r.wordCount))];
    ThreeParts(done[0], done[1], done[2]);
  }

  /** The cover-letter report always opens with the letter and closes with the word count;
      without talking points it holds nothing else. */
  lemma CoverLetterFacts(r: CoverLetterResponse)
    ensures StartsWith(CoverLetterTitle + Emit(CoverLetterParts(r)), CoverLetterTitle + (r.coverLetter + "\n\n"))
    ensures EndsWith(CoverLetterTitle + Emit(CoverLetterParts(r)), WordCountLine(r.wordCount))
    ensures r.keyTalkingPoints == [] ==>
      CoverLetterTitle + Emit(CoverLetterParts(r)) ==
        CoverLetterTitle + (r.coverLetter + "\n\n") + WordCountLine(r.wordCount)
  {
    var parts := CoverLetterParts(r);
    LeadFacts(CoverLetterTitle, parts);
    EmitLast(CoverLetterTitle, parts);
    if r.keyTalkingPoints == [] {
      var rest := parts[1..];
      assert rest == [parts[1]] + [parts[2]];
      EmitAppend([parts[1]], [parts[2]]);
      EmitSnoc([], parts[1]);
      EmitSnoc([], parts[2]);
      assert [] + [parts[1]] == [parts[1]];
      assert [] + [parts[2]] == [parts[2]];
    }
  }

  // ---------------------------------------------------------------------------
  // Experience enhancement

  datatype ExperienceResponse = ExperienceResponse(
    enhancedDescription: string, improvements: seq<string>, suggestedMetrics: seq<string>, atsNotes: string)

  const ExperienceTitle: string := "## Enhanced Experience Description\n\n"
  const ImprovementsHeading: string := "### Key Improvements Made\n"
  const MetricsHeading: string := "### Suggested Metrics to Add\n"
  const AtsNotesHeading: string := "### ATS Optimization Notes\n"

  function ExperienceParts(r: ExperienceResponse): seq<Part> {
    [Always(r.enhancedDescription + "\n\n"),
     ListSection(ImprovementsHeading, r.improvements, "\n"),
     ListSection(MetricsHeading, r.suggestedMetrics, "\n"),
     TextSection(AtsNotesHeading, r.atsNotes, "\n")]
  }

  /** `formatExperienceEnhancementResponse`. */
  method FormatExperienceEnhancement(r: ExperienceResponse) returns (formatted: string)
    ensures formatted == ExperienceTitle + Emit(ExperienceParts(r))
  {
    formatted := ExperienceTitle;
    var before := formatted;
    formatted := formatted + (r.enhancedDescription + "\n\n");
    Extend(ExperienceTitle, [], Always(r.enhancedDescription + "\n\n"), before, formatted);
    ghost var done := [Always(r.enhancedDescription + "\n\n")];
    formatted := ExtendList(ExperienceTitle, done, formatted, ImprovementsHeading, r.improvements, "\n");
    done := done + [ListSection(ImprovementsHeading, r.improvements, "\n")];
    formatted := ExtendList(ExperienceTitle, done, formatted, MetricsHeading, r.suggestedMetrics, "\n");
    done := done + [ListSection(MetricsHeading, r.suggestedMetrics, "\n")];
    formatted := ExtendText(ExperienceTitle, done, formatted, AtsNotesHeading, r.atsNotes, "\n");
    done := done + [TextSection(AtsNotesHeading, r.atsNotes, "\n")];
    FourParts(done[0], done[1], done[2], done[3]);
  }

  /** The experience report always opens with the enhanced description, and holds nothing
      more exactly when both lists and the notes are empty. */
  lemma ExperienceFacts(r: ExperienceResponse)
    ensures StartsWith(ExperienceTitle + Emit(ExperienceParts(r)),
                       ExperienceTitle + (r.enhancedDescription + "\n\n"))
    ensures ExperienceTitle + Emit(ExperienceParts(r)) == ExperienceTitle + (r.enhancedDescription + "\n\n") <==>
              r.improvements == [] && r.suggestedMetrics == [] && r.atsNotes == ""
  {
    var parts := ExperienceParts(r);
    LeadFacts(ExperienceTitle, parts);
    assert parts[1].shown ==> parts[1].text != "" by { assert |ImprovementsHeading| > 0; }
    assert parts[2].shown ==> parts[2].text != "" by { assert |MetricsHeading| > 0; }
    assert parts[3].shown ==> parts[3].text != "" by { assert |AtsNotesHeading| > 0; }
  }

  // ---------------------------------------------------------------------------
  // Job analysis

  datatype JobAnalysisResponse = JobAnalysisResponse(
    requirements: seq<string>, keywords: seq<string>, companyCulture: string,
    skillsToHighlight: seq<string>, salaryInsights: string, growthOpportunities: seq<string>)

  const JobAnalysisTitle: string := "## Job Analysis Results\n\n"
  const RequirementsHeading: string := "### Key Requirements\n"
  const ImportantKeywordsHeading: string := "### Important Keywords\n"
  const HighlightHeading: string := "### Skills to Highlight\n"
  const CultureHeading: string := "### Company Culture Insights\n"
  const SalaryHeading: string := "### Salary Insights\n"
  const GrowthHeading: string := "### Growth Opportunities\n"

  function JobAnalysisParts(r: JobAnalysisResponse): seq<Part> {
    [ListSection(RequirementsHeading, r.requirements, "\n"),
     ListSection(ImportantKeywordsHeading, r.keywords, "\n"),
     ListSection(HighlightHeading, r.skillsToHighlight, "\n"),
     TextSection(CultureHeading, r.companyCulture, "\n\n"),
     TextSection(SalaryHeading, r.salaryInsights, "\n\n"),
     ListSection(GrowthHeading, r.growthOpportunities, "\n")]
  }

  /** `formatJobAnalysisResponse`. */
  method FormatJobAnalysis(r: JobAnalysisResponse) returns (formatted: string)
    ensures formatted == JobAnalysisTitle + Emit(JobAnalysisParts(r))
  {
    formatted := JobAnalysisTitle;
    formatted := ExtendList(JobAnalysisTitle, [], formatted, RequirementsHeading, r.requirements, "\n");
    ghost var done := [ListSection(RequirementsHeading, r.requirements, "\n")];
    formatted := ExtendList(JobAnalysisTitle, done, formatted, ImportantKeywordsHeading, r.keywords, "\n");
    done := done + [ListSection(ImportantKeywordsHeading, r.keywords, "\n")];
    formatted := ExtendList(JobAnalysisTitle, done, formatted, HighlightHeading, r.skillsToHighlight, "\n");
    done := done + [ListSection(HighlightHeading, r.skillsToHighlight, "\n")];
    formatted := ExtendText(JobAnalysisTitle, done, formatted, CultureHeading, r.companyCulture, "\n\n");
    done := done + [TextSection(CultureHeading, r.companyCulture, "\n\n")];
    formatted := ExtendText(JobAnalysisTitle, done, formatted, SalaryHeading, r.salaryInsights, "\n\n");
    done := done + [TextSection(SalaryHeading, r.salaryInsights, "\n\n")];
    formatted := ExtendList(JobAnalysisTitle, done, formatted, GrowthHeading, r.growthOpportunities, "\n");
    done := done + [ListSection(GrowthHeading, r.growthOpportunities, "\n")];
    SixParts(done[0], done[1], done[2], done[3], done[4], done[5]);
  }

  /** The job-analysis report starts with its title and is the bare title exactly when
      every list and text of the response is empty. */
  lemma JobAnalysisFacts(r: JobAnalysisResponse)
    ensures StartsWith(JobAnalysisTitle + Emit(JobAnalysisParts(r)), JobAnalysisTitle)
    ensures JobAnalysisTitle + Emit(JobAnalysisParts(r)) == JobAnalysisTitle <==>
      r.requirements == [] && r.keywords == [] && r.skillsToHighlight == [] &&
      r.companyCulture == "" && r.salaryInsights == "" && r.growthOpportunities == []
  {
    var parts := JobAnalysisParts(r);
    ReportStarts(JobAnalysisTitle, parts);
    ReportBare(JobAnalysisTitle, parts);
    assert parts[0].shown ==> parts[0].text != "" by { assert |RequirementsHeading| > 0; }
    assert parts[1].shown ==> parts[1].text != "" by { assert |ImportantKeywordsHeading| > 0; }
    assert parts[2].shown ==> parts[2].text != "" by { assert |HighlightHeading| > 0; }
    assert parts[3].shown ==> parts[3].text != "" by { assert |CultureHeading| > 0; }
    assert parts[4].shown ==> parts[4].text != "" by { assert |SalaryHeading| > 0; }
    assert parts[5].shown ==> parts[5].text != "" by { assert |GrowthHeading| > 0; }
  }

  // ---------------------------------------------------------------------------
  // Career guidance

  datatype CareerResponse = CareerResponse(
    careerPlan: string, learningRecommendations: seq<string>, networkingStrategies: seq<string>,
    projectSuggestions: seq<string>, timeline: string, challengeSolutions: seq<string>)

  const CareerTitle: string := "## Career Development Plan\n\n"
  const LearningHeading: string := "### Learning Recommendations\n"
  const NetworkingHeading: string := "### Networking Strategies\n"
  const ProjectsHeading: string := "### Project Suggestions\n"
  const TimelineHeading: string := "### Timeline Expectations\n"
  const ChallengesHeading: string := "### Challenge Solutions\n"

  function CareerParts(r: CareerResponse): seq<Part> {
    [Always(r.careerPlan + "\n\n"),
     ListSection(LearningHeading, r.learningRecommendations, "\n"),
     ListSection(NetworkingHeading, r.networkingStrategies, "\n"),
     ListSection(ProjectsHeading, r.projectSuggestions, "\n"),
     TextSection(TimelineHeading, r.timeline, "\n\n"),
     ListSection(ChallengesHeading, r.challengeSolutions, "\n")]
  }

  /** `formatCareerGuidanceResponse`. */
  method FormatCareerGuidance(r: CareerResponse) returns (formatted: string)
    ensures formatted == CareerTitle + Emit(CareerParts(r))
  {
    formatted := CareerTitle;
    var before := formatted;
    formatted := formatted + (r.careerPlan + "\n\n");
    Extend(CareerTitle, [], Always(r.careerPlan + "\n\n"), before, formatted);
    ghost var done := [Always(r.careerPlan + "\n\n")];
    formatted := ExtendList(CareerTitle, done, formatted, LearningHeading, r.learningRecommendations, "\n");
    done := done + [ListSection(LearningHeading, r.learningRecommendations, "\n")];
    formatted := ExtendList(CareerTitle, done, formatted, NetworkingHeading, r.networkingStrategies, "\n");
    done := done + [ListSection(NetworkingHeading, r.networkingStrategies, "\n")];
    formatted := ExtendList(CareerTitle, done, formatted, ProjectsHeading, r.projectSuggestions, "\n");
    done := done + [ListSection(ProjectsHeading, r.projectSuggestions, "\n")];
    formatted := ExtendText(CareerTitle, done, formatted, TimelineHeading, r.timeline, "\n\n");
    done := done + [TextSection(TimelineHeading, r.timeline, "\n\n")];
    formatted := ExtendList(CareerTitle, done, formatted, ChallengesHeading, r.challengeSolutions, "\n");
    done := done + [ListSection(ChallengesHeading, r.challengeSolutions, "\n")];
    SixParts(done[0], done[1], done[2], done[3], done[4], done[5]);
  }

  /** The career report always opens with the plan, and holds nothing more exactly when
      its four lists and the timeline are empty. */
  lemma CareerFacts(r: CareerResponse)
    ensures StartsWith(CareerTitle + Emit(CareerParts(r)), CareerTitle + (r.careerPlan + "\n\n"))
    ensures CareerTitle + Emit(CareerParts(r)) == CareerTitle + (r.careerPlan + "\n\n") <==>
      r.learningRecommendations == [] && r.networkingStrategies == [] && r.projectSuggestions == [] &&
      r.timeline == "" && r.challengeSolutions == []
  {
    var parts := CareerParts(r);
    LeadFacts(CareerTitle, parts);
    assert parts[1].shown ==> parts[1].text != "" by { assert |LearningHeading| > 0; }
    assert parts[2].shown ==> parts[2].text != "" by { assert |NetworkingHeading| > 0; }
    assert parts[3].shown ==> parts[3].text != "" by { assert |ProjectsHeading| > 0; }
    assert parts[4].shown ==> parts[4].text != "" by { assert |TimelineHeading| > 0; }
    assert parts[5].shown ==> parts[5].text != "" by { assert |ChallengesHeading| > 0; }
  }

  // ---------------------------------------------------------------------------
  // Dispatch

  datatype Kind = TailoringKind | CoverLetterKind | ExperienceKind | JobAnalysisKind | CareerKind

  /** The five tags `formatAIResponse` knows. */
  function KindOf(tag: string): (k: Option<Kind>)
    ensures k == Some(TailoringKind) <==> tag == "resume_tailoring"
    ensures k == Some(CoverLetterKind) <==> tag == "cover_letter"
    ensures k == Some(ExperienceKind) <==> tag == "experience_enhancement"
    ensures k == Some(JobAnalysisKind) <==> tag == "job_analysis"
    ensures k == Some(CareerKind) <==> tag == "career_guidance"
  {
    if tag == "resume_tailoring" then Some(TailoringKind)
    else if tag == "cover_letter" then Some(CoverLetterKind)
    else if tag == "experience_enhancement" then Some(ExperienceKind)
    else if tag == "job_analysis" then Some(JobAnalysisKind)
    else if tag == "career_guidance" then Some(CareerKind)
    else None
  }

  /** A response of one of the five shapes, or of none of them. */
  datatype Response =
    | AsTailoring(tailoring: TailoringResponse)
    | AsCoverLetter(letter: CoverLetterResponse)
    | AsExperience(experience: ExperienceResponse)
    | AsJobAnalysis(analysis: JobAnalysisResponse)
    | AsCareer(career: CareerResponse)
    | Untyped
  {
    function Shape(): Option<Kind> {
      match this
      case AsTailoring(_) => Some(TailoringKind)
      case AsCoverLetter(_) => Some(CoverLetterKind)
      case AsExperience(_) => Some(ExperienceKind)
      case AsJobAnalysis(_) => Some(JobAnalysisKind)
      case AsCareer(_) => Some(CareerKind)
      case Untyped => None
    }
  }

  /** The report of a response of a known shape. */
  function Report(response: Response): string
    requires response.Shape().Some?
  {
    match response
    case AsTailoring(r) => TailoringTitle + Emit(TailoringParts(r))
    case AsCoverLetter(r) => CoverLetterTitle + Emit(CoverLetterParts(r))
    case AsExperience(r) => ExperienceTitle + Emit(ExperienceParts(r))
    case AsJobAnalysis(r) => JobAnalysisTitle + Emit(JobAnalysisParts(r))
    case AsCareer(r) => CareerTitle + Emit(CareerParts(r))
  }

  /** `formatAIResponse`: a known tag selects its formatter, any other tag gives the JSON
      dump of the response. A known tag on a response of another shape is outside the model
      (None). */
  method FormatAIResponse(response: Response, tag: string, jsonDump: string) returns (formatted: Option<string>)
    ensures KindOf(tag).None? ==> formatted == Some(jsonDump)
    ensures KindOf(tag).Some? && KindOf(tag) == response.Shape() ==> formatted == Some(Report(response))
    ensures KindOf(tag).Some? && KindOf(tag) != response.Shape() ==> formatted.None?
  {
    var kind := KindOf(tag);
    if kind.None? {
      return Some(jsonDump);
    }
    if kind != response.Shape() {
      return None;
    }
    var text: string;
    match response {
      case AsTailoring(r) => text := FormatResumeTailoring(r);
      case AsCoverLetter(r) => text := FormatCoverLetter(r);
      case AsExperience(r) => text := FormatExperienceEnhancement(r);
      case AsJobAnalysis(r) => text := FormatJobAnalysis(r);
      case AsCareer(r) => text := FormatCareerGuidance(r);
    }
    formatted := Some(text);
  }

  /** Every formatted report starts with the title of its kind, so no two kinds render
      alike. */
  lemma ReportTitles(response: Response)
    requires response.Shape().Some?
    ensures response.AsTailoring? ==> StartsWith(Report(response), TailoringTitle)
    ensures response.AsCoverLetter? ==> StartsWith(Report(response), CoverLetterTitle)
    ensures response.AsExperience? ==> StartsWith(Report(response), ExperienceTitle)
    ensures response.AsJobAnalysis? ==> StartsWith(Report(response), JobAnalysisTitle)
    ensures response.AsCareer? ==> StartsWith(Report(response), CareerTitle)
  {
    match response
    case AsTailoring(r) => PrefixOfAppend(TailoringTitle, Emit(TailoringParts(r)));
    case AsCoverLetter(r) => PrefixOfAppend(CoverLetterTitle, Emit(CoverLetterParts(r)));
    case AsExperience(r) => PrefixOfAppend(ExperienceTitle, Emit(ExperienceParts(r)));
    case AsJobAnalysis(r) => PrefixOfAppend(JobAnalysisTitle, Emit(JobAnalysisParts(r)));
    case AsCareer(r) => PrefixOfAppend(CareerTitle, Emit(CareerParts(r)));
  }

  // ---------------------------------------------------------------------------
  // Authorisation header

  const AuthorizationHeader: string := "Authorization"

  /** `getAuthHeaders` for a given token: a bearer header for a non-empty token, no
      header otherwise. */
  function AuthHeaders(token: Option<string>): (h: map<string, string>)
    ensures AuthorizationHeader in h <==> Truthy(token)
    ensures Truthy(token) ==> h == map[AuthorizationHeader := "Bearer " + token.value]
    ensures !Truthy(token) ==> h == map[]
  {
    if Truthy(token) then map[AuthorizationHeader := "Bearer " + token.value] else map[]
  }

  /** `localStorage.getItem(key)`. */
  function StoredItem(storage: map<string, string>, key: string): Option<string> {
    if key in storage then Some(storage[key]) else None
  }

  /** The storage key the AI client reads its token from. */
  const ClientTokenKey: string := "token"

  /** The request headers as the AI client builds them: from the "token" entry. */
  function RequestHeadersAsWritten(storage: map<string, string>): map<string, string> {
    AuthHeaders(StoredItem(storage, ClientTokenKey))
  }

  /** After a login, which stores its token under "authToken", the AI client still finds
      no token (unless something else stored one under "token"), so its requests go out
      without an authorisation header. */
  lemma LoginTokenNotSent(storage: map<string, string>)
    requires ClientTokenKey !in storage
    ensures RequestHeadersAsWritten(storage[AuthContext.AuthTokenKey := AuthContext.MockToken]) == map[]
  {
    var s := storage[AuthContext.AuthTokenKey := AuthContext.MockToken];
    assert AuthContext.AuthTokenKey != ClientTokenKey;
    assert ClientTokenKey !in s;
  }

  /** The request headers read from the key the login writes. */
  function RequestHeaders(storage: map<string, string>): map<string, string> {
    AuthHeaders(StoredItem(storage, AuthContext.AuthTokenKey))
  }

  /** With the login's key, a logged-in client sends the stored token and a logged-out one
      sends none. */
  lemma LoginTokenSent(storage: map<string, string>)
    ensures RequestHeaders(storage[AuthContext.AuthTokenKey := AuthContext.MockToken]) ==
              map[AuthorizationHeader := "Bearer mock-token"]
    ensures RequestHeaders(storage - {AuthContext.AuthTokenKey}) == map[]
  {
    var s := storage[AuthContext.AuthTokenKey := AuthContext.MockToken];
    assert StoredItem(s, AuthContext.AuthTokenKey) == Some(AuthContext.MockToken);
    assert Truthy(Some(AuthContext.MockToken));
    assert "Bearer " + AuthContext.MockToken == "Bearer mock-token";
    assert AuthContext.AuthTokenKey !in storage - {AuthContext.AuthTokenKey};
  }
}
