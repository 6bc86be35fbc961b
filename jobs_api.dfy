/**
 * The deterministic parts of the job endpoints: the text cleaner applied to scraped
 * pages, the "looks like a job description" test, the choice between the scraped and
 * the pasted description in the analyse endpoint, and the preview shown by the list
 * endpoint.
 */
module JobsApi {
  import opened Wrappers
  import opened Text
  import opened Seqs

  // ---------------------------------------------------------------------------
  // Whitespace collapse: `re.sub(r'\s+', ' ', text)`

  /** Every maximal run of whitespace becomes one space. */
  function CollapseSpaces(s: string): string
    decreases |s|
  {
    if s == [] then []
    else if IsPySpace(s[0]) then
      var k := SkipSpaces(s, IsPySpace, 1);
      [' '] + CollapseSpaces(s[k..])
    else [s[0]] + CollapseSpaces(s[1..])
  }

  /** After the collapse the only whitespace left is the plain space, so there is no
      newline, and no two spaces are adjacent. */
  lemma {:induction false} CollapseFacts(s: string)
    ensures forall c :: c in CollapseSpaces(s) ==> c == ' ' || !IsPySpace(c)
    ensures forall i :: 0 <= i < |CollapseSpaces(s)| - 1 ==>
      !(CollapseSpaces(s)[i] == ' ' && CollapseSpaces(s)[i + 1] == ' ')
    ensures s != [] && !IsPySpace(s[0]) ==> CollapseSpaces(s) != [] && CollapseSpaces(s)[0] == s[0]
    decreases |s|
  {
    if s != [] {
      if IsPySpace(s[0]) {
        var k := SkipSpaces(s, IsPySpace, 1);
        SkipSpacesFacts(s, IsPySpace, 1);
        CollapseFacts(s[k..]);
      } else {
        CollapseFacts(s[1..]);
      }
    }
  }

  // ---------------------------------------------------------------------------
  // The unwanted patterns

  /** The three shapes of the cleaner's patterns, matched case-insensitively: words
      separated by `\s+`; `©\s+\d{4}.*`; a single symbol. */
  datatype Pattern = Phrase(words: seq<string>) | CopyrightLine | Symbol(symbol: char)

  /** A pattern that cannot match the empty string. */
  predicate PatternOk(p: Pattern) {
    p.Phrase? ==> p.words != [] && p.words[0] != ""
  }

  const UnwantedPatterns: seq<Pattern> := [
    Phrase(["cookie", "policy"]),
    Phrase(["privacy", "policy"]),
    Phrase(["terms", "of", "service"]),
    CopyrightLine,
    Phrase(["all", "rights", "reserved"]),
    Phrase(["apply", "now"]),
    Phrase(["submit", "application"]),
    Phrase(["back", "to", "top"]),
    Phrase(["close", "window"]),
    Symbol('×'),
    Symbol('‹'),
    Symbol('›'),
    Symbol('←'),
    Symbol('→')
  ]

  const RemovedSymbols: seq<char> := ['×', '‹', '›', '←', '→']

  lemma UnwantedPatternsOk()
    ensures forall p :: p in UnwantedPatterns ==> PatternOk(p)
  {
  }

  /** The end of a case-insensitive match of the lower-case word w at i. */
  function WordEnd(t: string, i: nat, w: string): (r: Option<nat>)
    requires i <= |t|
    ensures r.Some? ==> r.value == i + |w| <= |t|
  {
    if i + |w| <= |t| && Lower(t[i..i + |w|]) == w then Some(i + |w|) else None
  }

  /** The end of a match of the words, separated by one or more whitespace characters, at i. */
  function PhraseEnd(t: string, i: nat, words: seq<string>): (r: Option<nat>)
    requires i <= |t|
    ensures r.Some? ==> i <= r.value <= |t|
    ensures r.Some? && words != [] ==> r.value >= i + |words[0]|
    decreases |words|
  {
    if words == [] then Some(i)
    else match WordEnd(t, i, words[0])
      case None => None
      case Some(e) =>
        if |words| == 1 then Some(e)
        else
          var k := SkipSpaces(t, IsPySpace, e);
          if k == e then None else PhraseEnd(t, k, words[1..])
  }

  /** The first newline at or after j, or the end: where `.*` stops. */
  function LineEnd(t: string, j: nat): (r: nat)
    requires j <= |t|
    ensures j <= r <= |t|
    decreases |t| - j
  {
    if j == |t| || t[j] == '\n' then j else LineEnd(t, j + 1)
  }

  function CopyrightEnd(t: string, i: nat): (r: Option<nat>)
    requires i <= |t|
    ensures r.Some? ==> i < r.value <= |t|
  {
    if i < |t| && t[i] == '©' then
      var k := SkipSpaces(t, IsPySpace, i + 1);
      if k > i + 1 && k + 4 <= |t| && IsDigit(t[k]) && IsDigit(t[k + 1]) && IsDigit(t[k + 2]) && IsDigit(t[k + 3])
      then Some(LineEnd(t, k + 4))
      else None
    else None
  }

  /** The end of a match of p that starts at i. */
  function MatchEnd(t: string, i: nat, p: Pattern): (r: Option<nat>)
    requires i <= |t| && PatternOk(p)
    ensures r.Some? ==> i < r.value <= |t|
  {
    match p
    case Phrase(words) => PhraseEnd(t, i, words)
    case CopyrightLine => CopyrightEnd(t, i)
    case Symbol(c) => if i < |t| && t[i] == c then Some(i + 1) else None
  }

  /** `re.sub(p, '', t[i..])`: matches are removed left to right without overlap. */
  function Remove(t: string, p: Pattern, i: nat): string
    requires i <= |t| && PatternOk(p)
    decreases |t| - i
  {
    if i == |t| then []
    else match MatchEnd(t, i, p)
      case Some(e) => Remove(t, p, e)
      case None => [t[i]] + Remove(t, p, i + 1)
  }

  /** Removal only drops characters, and a symbol pattern leaves none of its symbol. */
  lemma {:induction false} RemoveFacts(t: string, p: Pattern, i: nat)
    requires i <= |t| && PatternOk(p)
    ensures forall c :: c in Remove(t, p, i) ==> c in t
    ensures p.Symbol? ==> p.symbol !in Remove(t, p, i)
    decreases |t| - i
  {
    if i < |t| {
      match MatchEnd(t, i, p)
      case Some(e) => RemoveFacts(t, p, e);
      case None => RemoveFacts(t, p, i + 1);
    }
  }

  /** The text after the first patterns have been removed in turn. */
  function RemoveAll(t: string, patterns: seq<Pattern>): string
    requires forall p :: p in patterns ==> PatternOk(p)
  {
    if patterns == [] then t
    else Remove(RemoveAll(t, patterns[..|patterns| - 1]), patterns[|patterns| - 1], 0)
  }

  lemma {:induction false} RemoveAllFacts(t: string, patterns: seq<Pattern>)
    requires forall p :: p in patterns ==> PatternOk(p)
    ensures forall c :: c in RemoveAll(t, patterns) ==> c in t
    ensures forall c :: Symbol(c) in patterns ==> c !in RemoveAll(t, patterns)
  {
    if patterns != [] {
      var init := patterns[..|patterns| - 1];
      var last := patterns[|patterns| - 1];
      assert forall p :: p in init ==> p in patterns;
      RemoveAllFacts(t, init);
      RemoveFacts(RemoveAll(t, init), last, 0);
      forall c | Symbol(c) in patterns
        ensures c !in RemoveAll(t, patterns)
      {
        if Symbol(c) != last {
          var k :| 0 <= k < |patterns| && patterns[k] == Symbol(c);
          assert init[k] == Symbol(c);
        }
      }
    }
  }

  // ---------------------------------------------------------------------------
  // clean_job_description

  function LongLine(): string -> bool {
    line => |line| > 10
  }

  /** `clean_job_description`: collapse whitespace, drop the unwanted patterns, keep the
      stripped lines longer than ten characters. */
  function Cleaned(text: string): string {
    if text == "" then ""
    else
      UnwantedPatternsOk();
      var removed := RemoveAll(CollapseSpaces(Strip(text)), UnwantedPatterns);
      Join(Filter(Map(Split(removed, '\n'), Strip), LongLine()), "\n")
  }

  method CleanJobDescription(text: string) returns (cleaned: string)
    ensures cleaned == Cleaned(text)
  {
    if text == "" {
      return "";
    }
    UnwantedPatternsOk();
    var t := RemovePatterns(CollapseSpaces(Strip(text)), UnwantedPatterns);
    var kept := MapThenFilter(Split(t, '\n'), Strip, LongLine());
    cleaned := Join(kept, "\n");
  }

  /** Removes every pattern in turn, each from the text the previous one left. */
  method RemovePatterns(text: string, patterns: seq<Pattern>) returns (t: string)
    requires forall p :: p in patterns ==> PatternOk(p)
    ensures t == RemoveAll(text, patterns)
  {
    t := text;
    var i := 0;
    while i < |patterns|
      invariant 0 <= i <= |patterns|
      invariant t == RemoveAll(text, patterns[..i])
    {
      assert patterns[..i + 1][..i] == patterns[..i];
      t := Remove(t, patterns[i], 0);
      i := i + 1;
    }
    assert patterns[..i] == patterns;
  }

  lemma CleanedEmpty()
    ensures Cleaned("") == ""
  {
  }

  /** The text the line filter sees has no newline at all. */
  lemma RemovedHasNoNewline(text: string)
    ensures '\n' !in RemoveAll(CollapseSpaces(Strip(text)), UnwantedPatterns)
    ensures forall c :: c in RemovedSymbols ==> c !in RemoveAll(CollapseSpaces(Strip(text)), UnwantedPatterns)
  {
    UnwantedPatternsOk();
    CollapseFacts(Strip(text));
    RemoveAllFacts(CollapseSpaces(Strip(text)), UnwantedPatterns);
    assert forall c :: c in RemovedSymbols ==> Symbol(c) in UnwantedPatterns;
  }

  /** A text without newlines passes the line filter as one line: its stripped form if
      that is longer than ten characters, and nothing otherwise. */
  lemma OneLineFiltered(line: string)
    requires '\n' !in line
    ensures Join(Filter(Map(Split(line, '\n'), Strip), LongLine()), "\n") ==
            if |Strip(line)| > 10 then Strip(line) else ""
  {
    SplitWithout(line, '\n');
    assert Map([line], Strip) == [Strip(line)];
    if |Strip(line)| > 10 {
      assert Filter([Strip(line)], LongLine()) == [Strip(line)];
    } else {
      assert Filter([Strip(line)], LongLine()) == [];
    }
  }

  /** As written, the cleaner returns the whole collapsed text, stripped, when that is
      longer than ten characters, and nothing otherwise: the line filter sees one line. */
  lemma CleanedOneLine(text: string)
    requires text != ""
    ensures var removed := RemoveAll(CollapseSpaces(Strip(text)), UnwantedPatterns);
            Cleaned(text) == if |Strip(removed)| > 10 then Strip(removed) else ""
  {
    RemovedHasNoNewline(text);
    OneLineFiltered(RemoveAll(CollapseSpaces(Strip(text)), UnwantedPatterns));
  }

  /** The result is one line: either empty or a stripped text of more than ten
      characters without any newline, and it holds none of the removed symbols. */
  lemma CleanedShape(text: string)
    ensures var r := Cleaned(text);
      (r == "" || (|r| > 10 && Strip(r) == r && '\n' !in r)) &&
      forall c :: c in RemovedSymbols ==> c !in r
  {
    if text != "" {
      var removed := RemoveAll(CollapseSpaces(Strip(text)), UnwantedPatterns);
      CleanedOneLine(text);
      RemovedHasNoNewline(text);
      StripIdempotent(removed);
      StripChars(removed);
    }
  }

  // ---------------------------------------------------------------------------
  // A worked input: "Engineering\nMenu"

  /** A run of non-whitespace passes the collapse unchanged. */
  lemma {:induction false} CollapseWord(word: string, rest: string)
    requires forall c :: c in word ==> !IsPySpace(c)
    ensures CollapseSpaces(word + rest) == word + CollapseSpaces(rest)
    decreases |word|
  {
    if word == [] {
      assert word + rest == rest;
    } else {
      assert word[0] in word;
      assert (word + rest)[1..] == word[1..] + rest;
      forall c | c in word[1..]
        ensures !IsPySpace(c)
      {
        assert c in word;
      }
      CollapseWord(word[1..], rest);
      assert [word[0]] + word[1..] == word;
    }
  }

  /** A single whitespace character before a word becomes one space. */
  lemma CollapseGap(w: char, rest: string)
    requires IsPySpace(w) && (rest == [] || !IsPySpace(rest[0]))
    ensures CollapseSpaces([w] + rest) == [' '] + CollapseSpaces(rest)
  {
    assert ([w] + rest)[1..] == rest;
  }

  /** Whether a match of p can start at the character c. */
  predicate CanStart(c: char, p: Pattern) {
    match p
    case Phrase(words) => words != [] && words[0] != [] && LowerChar(c) == words[0][0]
    case CopyrightLine => c == '©'
    case Symbol(s) => c == s
  }

  /** No pattern matches where its first character cannot start. */
  lemma NoMatchAt(t: string, i: nat, p: Pattern)
    requires i < |t| && PatternOk(p) && !CanStart(t[i], p)
    ensures MatchEnd(t, i, p) == None
  {
    if p.Phrase? {
      var w := p.words[0];
      assert i + |w| <= |t| ==> Lower(t[i..i + |w|])[0] == LowerChar(t[i]);
    }
  }

  /** A pattern none of whose starts occurs in the text removes nothing. */
  lemma {:induction false} RemoveUnmatched(t: string, p: Pattern, i: nat)
    requires i <= |t| && PatternOk(p)
    requires forall c :: c in t ==> !CanStart(c, p)
    ensures Remove(t, p, i) == t[i..]
    decreases |t| - i
  {
    if i < |t| {
      assert t[i] in t;
      NoMatchAt(t, i, p);
      RemoveUnmatched(t, p, i + 1);
      assert t[i..] == [t[i]] + t[i + 1..];
    }
  }

  lemma {:induction false} RemoveAllUnmatched(t: string, patterns: seq<Pattern>)
    requires forall p :: p in patterns ==> PatternOk(p)
    requires forall c, p :: c in t && p in patterns ==> !CanStart(c, p)
    ensures RemoveAll(t, patterns) == t
  {
    if patterns != [] {
      var init := patterns[..|patterns| - 1];
      assert forall p :: p in init ==> p in patterns;
      RemoveAllUnmatched(t, init);
      assert patterns[|patterns| - 1] in patterns;
      RemoveUnmatched(t, patterns[|patterns| - 1], 0);
    }
  }

  /** A character that starts none of the unwanted patterns. */
  predicate Inert(c: char) {
    LowerChar(c) !in "cptasb" && c != '©' && c !in RemovedSymbols
  }

  lemma InertStartsNothing(t: string)
    requires forall c :: c in t ==> Inert(c)
    ensures forall c, p :: c in t && p in UnwantedPatterns ==> !CanStart(c, p)
  {
  }

  /** A word alone passes the collapse unchanged. */
  lemma CollapseWordAlone(a: string)
    requires forall c :: c in a ==> !IsPySpace(c)
    ensures CollapseSpaces(a) == a
  {
    CollapseWord(a, []);
    assert a + [] == a;
  }

  /** One whitespace character before a word becomes one space. */
  lemma CollapseGapWord(w: char, b: string)
    requires IsPySpace(w) && forall c :: c in b ==> !IsPySpace(c)
    ensures CollapseSpaces([w] + b) == [' '] + b
  {
    CollapseWordAlone(b);
    if b != [] {
      assert b[0] in b;
    }
    CollapseGap(w, b);
  }

  /** Two words separated by one whitespace character collapse to the words separated by
      one space. */
  lemma CollapseTwoWords(a: string, w: char, b: string)
    requires forall c :: c in a ==> !IsPySpace(c)
    requires forall c :: c in b ==> !IsPySpace(c)
    requires IsPySpace(w)
    ensures CollapseSpaces(a + [w] + b) == a + [' '] + b
  {
    CollapseGapWord(w, b);
    CollapseWord(a, [w] + b);
    assert a + [w] + b == a + ([w] + b);
    assert a + [' '] + b == a + ([' '] + b);
  }

  /** A text of inert characters loses nothing to the unwanted patterns. */
  lemma InertTextKept(t: string)
    requires forall c :: c in t ==> Inert(c)
    ensures RemoveAll(t, UnwantedPatterns) == t
  {
    InertStartsNothing(t);
    UnwantedPatternsOk();
    RemoveAllUnmatched(t, UnwantedPatterns);
  }

  lemma ExampleWords(a: string, b: string)
    requires a == "Engineering" && b == "Menu"
    ensures forall c :: c in a ==> Inert(c) && !IsPySpace(c)
    ensures forall c :: c in b ==> Inert(c) && !IsPySpace(c)
  {
  }

  /** A word of inert, non-whitespace characters passes the collapse, the pattern removal
      and the strip unchanged. */
  lemma InertWordKept(a: string)
    requires a != [] && forall c :: c in a ==> Inert(c) && !IsPySpace(c)
    ensures Strip(a) == a && CollapseSpaces(a) == a && RemoveAll(a, UnwantedPatterns) == a
  {
    assert a[0] in a && a[|a| - 1] in a;
    TrimTrimmed(a, IsPySpace);
    CollapseWordAlone(a);
    InertTextKept(a);
  }

  /** Such a word is its own cleaned line. */
  lemma InertLineClean(a: string)
    requires a != [] && forall c :: c in a ==> Inert(c) && !IsPySpace(c)
    ensures CleanLine(a) == a
  {
    InertWordKept(a);
  }

  /** Two such words on two lines collapse to the words joined by a space. */
  lemma TwoLinesCollapsed(a: string, b: string)
    requires a != [] && forall c :: c in a ==> Inert(c) && !IsPySpace(c)
    requires b != [] && forall c :: c in b ==> Inert(c) && !IsPySpace(c)
    ensures CollapseSpaces(Strip(a + ['\n'] + b)) == a + [' '] + b
  {
    var text := a + ['\n'] + b;
    assert text[0] == a[0] && text[|text| - 1] == b[|b| - 1];
    assert a[0] in a && b[|b| - 1] in b;
    TrimTrimmed(text, IsPySpace);
    CollapseTwoWords(a, '\n', b);
  }

  /** ... and reach the line filter as that one line. */
  lemma TwoLinesRemoved(a: string, b: string)
    requires a != [] && forall c :: c in a ==> Inert(c) && !IsPySpace(c)
    requires b != [] && forall c :: c in b ==> Inert(c) && !IsPySpace(c)
    ensures RemoveAll(CollapseSpaces(Strip(a + ['\n'] + b)), UnwantedPatterns) == a + [' '] + b
  {
    TwoLinesCollapsed(a, b);
    InertTextKept(a + [' '] + b);
  }

  /** As written, two lines of words come back as one line whenever the two together are
      long enough, however short the second line is. */
  lemma CleanedJoinsTwoLines(a: string, b: string)
    requires a != [] && forall c :: c in a ==> Inert(c) && !IsPySpace(c)
    requires b != [] && forall c :: c in b ==> Inert(c) && !IsPySpace(c)
    requires |a| + |b| >= 10
    ensures Cleaned(a + ['\n'] + b) == a + [' '] + b
  {
    var merged := a + [' '] + b;
    TwoLinesRemoved(a, b);
    assert merged[0] == a[0] && merged[|merged| - 1] == b[|b| - 1];
    assert a[0] in a && b[|b| - 1] in b;
    TrimTrimmed(merged, IsPySpace);
    CleanedOneLine(a + ['\n'] + b);
  }

  /** The worked input: the short "Menu" line is not dropped. */
  lemma CleanedMergesLines(text: string)
    requires text == "Engineering\nMenu"
    ensures Cleaned(text) == "Engineering Menu"
  {
    ExampleWords("Engineering", "Menu");
    CleanedJoinsTwoLines("Engineering", "Menu");
    assert "Engineering" + ['\n'] + "Menu" == text;
    assert "Engineering" + [' '] + "Menu" == "Engineering Menu";
  }

  /** One line as the line filter evidently means to see it: whitespace collapsed and the
      unwanted patterns removed within the line, then stripped. */
  function CleanLine(line: string): string {
    UnwantedPatternsOk();
    Strip(RemoveAll(CollapseSpaces(Strip(line)), UnwantedPatterns))
  }

  /** The cleaner with the collapse applied line by line, so that short lines are
      dropped one at a time. */
  function CleanedByLine(text: string): string {
    if text == "" then "" else Join(Filter(Map(Split(text, '\n'), CleanLine), LongLine()), "\n")
  }

  lemma CleanLineFacts(line: string)
    ensures '\n' !in CleanLine(line) && Strip(CleanLine(line)) == CleanLine(line)
  {
    UnwantedPatternsOk();
    var removed := RemoveAll(CollapseSpaces(Strip(line)), UnwantedPatterns);
    CollapseFacts(Strip(line));
    RemoveAllFacts(CollapseSpaces(Strip(line)), UnwantedPatterns);
    StripChars(removed);
    StripIdempotent(removed);
  }

  /** The lines of the corrected result are exactly the cleaned input lines longer than ten
      characters, in input order. */
  lemma CleanedByLineLines(text: string)
    requires CleanedByLine(text) != ""
    ensures Split(CleanedByLine(text), '\n') == Filter(Map(Split(text, '\n'), CleanLine), LongLine())
    ensures forall l :: l in Split(CleanedByLine(text), '\n') ==> |l| > 10 && Strip(l) == l
  {
    var kept := Filter(Map(Split(text, '\n'), CleanLine), LongLine());
    forall l | l in kept
      ensures '\n' !in l && Strip(l) == l && |l| > 10
    {
      var k := MapWitness(Split(text, '\n'), CleanLine, l);
      CleanLineFacts(Split(text, '\n')[k]);
    }
    SplitJoin(kept, '\n');
  }

  /** A line whose cleaned form is longer than ten characters is kept. */
  lemma CleanedByLineKeeps(text: string, i: nat)
    requires text != "" && i < |Split(text, '\n')| && |CleanLine(Split(text, '\n')[i])| > 10
    ensures CleanLine(Split(text, '\n')[i]) in Split(CleanedByLine(text), '\n')
  {
    var lines := Map(Split(text, '\n'), CleanLine);
    MapMember(Split(text, '\n'), CleanLine, i);
    FilterKeeps(lines, LongLine(), CleanLine(Split(text, '\n')[i]));
    CleanedByLineLines(text);
  }
  lemma TwoLinesSplit(a: string, b: string)
    requires forall c :: c in a ==> !IsPySpace(c)
    requires forall c :: c in b ==> !IsPySpace(c)
    ensures Split(a + ['\n'] + b, '\n') == [a, b]
  {
    assert '\n' !in a && '\n' !in b;
    SplitWithout(b, '\n');
    SplitConcat(a, '\n', b);
  }

  /** The corrected cleaner keeps a long first line and drops a short second one. */
  lemma CleanedByLineDropsShort(a: string, b: string)
    requires a != [] && forall c :: c in a ==> Inert(c) && !IsPySpace(c)
    requires b != [] && forall c :: c in b ==> Inert(c) && !IsPySpace(c)
    requires |a| > 10 && |b| <= 10
    ensures CleanedByLine(a + ['\n'] + b) == a
  {
    TwoLinesSplit(a, b);
    InertLineClean(a);
    InertLineClean(b);
    LongThenShort(a, b);
  }

  /** Of two clean lines, a long one then a short one, the filter keeps the first. */
  lemma LongThenShort(a: string, b: string)
    requires CleanLine(a) == a && CleanLine(b) == b && |a| > 10 && |b| <= 10
    ensures Join(Filter(Map([a, b], CleanLine), LongLine()), "\n") == a
  {
    assert [a, b][..1] == [a];
    assert Map([a], CleanLine) == [a];
    assert Map([a, b], CleanLine) == [a, b];
    assert Filter([a], LongLine()) == [a];
    assert Filter([a, b], LongLine()) == [a];
  }

  /** The worked input under the corrected cleaner: "Menu" is dropped. */
  lemma CleanedByLineDropsShortLine(text: string)
    requires text == "Engineering\nMenu"
    ensures CleanedByLine(text) == "Engineering"
  {
    ExampleWords("Engineering", "Menu");
    CleanedByLineDropsShort("Engineering", "Menu");
    assert "Engineering" + ['\n'] + "Menu" == text;
  }

  // ---------------------------------------------------------------------------
  // is_job_description

  const JobIndicators: seq<string> := [
    "responsibilities", "requirements", "qualifications", "experience", "skills", "duties",
    "job", "position", "role", "work", "develop", "implement", "manage", "coordinate",
    "analyze", "design", "build", "create", "maintain", "support"
  ]

  function OccursIn(text: string): string -> bool {
    w => Contains(text, w)
  }

  /** `is_job_description`: at least 100 characters and at least three of the indicator
      words in the lower-cased text. */
  function IsJobDescription(text: string): (r: bool)
    ensures |text| < 100 ==> !r
  {
    if text == "" || |text| < 100 then false
    else Count(JobIndicators, OccursIn(Lower(text))) >= 3
  }

  /** Three distinct indicators in a long enough text make it a job description. */
  lemma ThreeIndicatorsSuffice(text: string, a: nat, b: nat, c: nat)
    requires |text| >= 100
    requires a < b < c < |JobIndicators|
    requires Contains(Lower(text), JobIndicators[a]) && Contains(Lower(text), JobIndicators[b])
    requires Contains(Lower(text), JobIndicators[c])
    ensures IsJobDescription(text)
  {
    IndicesInFilter(JobIndicators, OccursIn(Lower(text)), a, b, c);
  }

  /** Conversely, a job description mentions at least three distinct indicators. */
  lemma JobDescriptionHasThreeIndicators(text: string)
    requires IsJobDescription(text)
    ensures |text| >= 100
    ensures exists a, b, c ::
      && 0 <= a < b < c < |JobIndicators|
      && Contains(Lower(text), JobIndicators[a])
      && Contains(Lower(text), JobIndicators[b])
      && Contains(Lower(text), JobIndicators[c])
  {
    var p := OccursIn(Lower(text));
    var a, b, c := ThreeSurvivors(JobIndicators, p);
  }

  // ---------------------------------------------------------------------------
  // Source selection in analyze_job

  datatype HttpError = HttpError(status: int, detail: string)

  const ScrapeFailedDetail: string :=
    "Could not scrape job description from URL. Please paste the description manually."
  const NothingProvidedDetail: string := "Either job URL or job description must be provided"

  /** The description `analyze_job` analyses and its `scraped` flag. `scrape` is what the
      scraper returns for the URL (None when it fails); it is looked at only when a URL
      was given. */
  method SelectDescription(jobUrl: Option<string>, scrape: Option<string>, jobDescription: Option<string>)
    returns (r: Result<(string, bool), HttpError>)
    ensures Truthy(jobUrl) && Truthy(scrape) ==> r == Success((scrape.value, true))
    ensures Truthy(jobUrl) && !Truthy(scrape) && Truthy(jobDescription) ==>
      r == Success((jobDescription.value, false))
    ensures Truthy(jobUrl) && !Truthy(scrape) && !Truthy(jobDescription) ==>
      r == Failure(HttpError(400, ScrapeFailedDetail))
    ensures !Truthy(jobUrl) && Truthy(jobDescription) ==> r == Success((jobDescription.value, false))
    ensures !Truthy(jobUrl) && !Truthy(jobDescription) ==> r == Failure(HttpError(400, NothingProvidedDetail))
  {
    var finalDescription: string;
    if Truthy(jobUrl) {
      if Truthy(scrape) {
        finalDescription := scrape.value;
      } else {
        if !Truthy(jobDescription) {
          return Failure(HttpError(400, ScrapeFailedDetail));
        }
        finalDescription := jobDescription.value;
      }
    } else {
      if !Truthy(jobDescription) {
        return Failure(HttpError(400, NothingProvidedDetail));
      }
      finalDescription := jobDescription.value;
    }
    r := Success((finalDescription, Truthy(jobUrl) && Truthy(scrape)));
  }

  // ---------------------------------------------------------------------------
  // Preview in list_jobs

  /** The description as `list_jobs` shows it. */
  function Preview(description: string): (shown: string)
    ensures |description| <= 200 ==> shown == description
    ensures |description| > 200 ==> |shown| == 203 && shown[..200] == description[..200] && shown[200..] == "..."
  {
    if |description| > 200 then description[..200] + "..." else description
  }

  /** A preview is never longer than 203 characters and previewing it again changes nothing. */
  lemma PreviewIdempotent(description: string)
    ensures |Preview(description)| <= 203
    ensures Preview(Preview(description)) == Preview(description)
  {
    if |description| > 200 {
      var shown := Preview(description);
      assert shown[..200] + "..." == shown;
    }
  }
}
