/**
 * String operations shared by the model, restricted to ASCII where the source
 * relies on Unicode tables (Python's str.isspace/str.lower, JavaScript's trim
 * and toLowerCase).
 */
module Text {
  import opened Wrappers

  /** Python's str.isspace() on ASCII: tab, line feed, vertical tab, form feed,
      carriage return, the separators 0x1C-0x1F and space. */
  predicate IsPySpace(c: char) {
    ('\t' <= c <= '\r') || ('\U{1C}' <= c <= ' ')
  }

  /** JavaScript's White_Space/LineTerminator set on ASCII: 0x09-0x0D and space. */
  predicate IsJsSpace(c: char) {
    ('\t' <= c <= '\r') || c == ' '
  }

  predicate IsDigit(c: char) {
    '0' <= c <= '9'
  }

  predicate IsUpperAscii(c: char) {
    'A' <= c <= 'Z'
  }

  predicate IsLowerAscii(c: char) {
    'a' <= c <= 'z'
  }

  predicate IsLetterAscii(c: char) {
    IsUpperAscii(c) || IsLowerAscii(c)
  }

  function LowerChar(c: char): char {
    if IsUpperAscii(c) then (c as int + 32) as char else c
  }

  function UpperChar(c: char): char {
    if IsLowerAscii(c) then (c as int - 32) as char else c
  }

  /** str.lower() / String.prototype.toLowerCase() on ASCII letters. */
  function Lower(s: string): string {
    seq(|s|, i requires 0 <= i < |s| => LowerChar(s[i]))
  }

  /** An optional string that Python or JavaScript treats as true: set and not empty. */
  predicate Truthy(s: Option<string>) {
    s.Some? && s.value != ""
  }

  /** s.replace(a, b) for single characters. */
  function ReplaceChar(s: string, a: char, b: char): (r: string)
    ensures |r| == |s|
    ensures a != b ==> a !in r
  {
    seq(|s|, i requires 0 <= i < |s| => if s[i] == a then b else s[i])
  }

  /** Some character of s is an ASCII digit: `any(c.isdigit() for c in s)`. */
  predicate HasDigit(s: string) {
    exists i :: 0 <= i < |s| && IsDigit(s[i])
  }

  /** Python's `sub in s` / JavaScript's s.includes(sub). */
  predicate Contains(s: string, sub: string)
    decreases |s|
  {
    StartsWith(s, sub) || (s != [] && Contains(s[1..], sub))
  }

  /** `s.toLowerCase().includes(term.toLowerCase())`. */
  predicate ContainsIgnoringCase(s: string, term: string) {
    Contains(Lower(s), Lower(term))
  }

  /** `any(k in s for k in keywords)`. */
  predicate ContainsAny(s: string, keywords: seq<string>) {
    exists k :: k in keywords && Contains(s, k)
  }

  /** The tag of the first keyword group some keyword of which occurs in s: an if/elif
      chain of `any(k in s for k in group)` tests, or a loop over an ordered dictionary
      of groups that returns on the first hit. */
  function FirstGroup<T>(s: string, groups: seq<(seq<string>, T)>): (r: Option<T>)
    ensures r.None? <==> forall i :: 0 <= i < |groups| ==> !ContainsAny(s, groups[i].0)
    ensures r.Some? ==> exists i :: 0 <= i < |groups| && ContainsAny(s, groups[i].0) &&
                                    r.value == groups[i].1 &&
                                    forall j :: 0 <= j < i ==> !ContainsAny(s, groups[j].0)
  {
    if groups == [] then None
    else if ContainsAny(s, groups[0].0) then Some(groups[0].1)
    else
      var r := FirstGroup(s, groups[1..]);
      assert forall i :: 1 <= i < |groups| ==> groups[i] == groups[1..][i - 1];
      r
  }

  /** FirstGroup over a suffix of the groups, one group at a time. */
  lemma FirstGroupStep<T>(s: string, groups: seq<(seq<string>, T)>, i: nat)
    requires i < |groups|
    ensures FirstGroup(s, groups[i..]) ==
      if ContainsAny(s, groups[i].0) then Some(groups[i].1) else FirstGroup(s, groups[i + 1..])
  {
    assert groups[i..][0] == groups[i];
    assert groups[i..][1..] == groups[i + 1..];
  }

  predicate StartsWith(s: string, prefix: string) {
    |prefix| <= |s| && s[..|prefix|] == prefix
  }

  /** `s.startswith(tuple_of_prefixes)`. */
  predicate StartsWithAny(s: string, prefixes: seq<string>) {
    exists p :: p in prefixes && StartsWith(s, p)
  }

  /** An occurrence at any position makes `sub in s` true. */
  lemma {:induction false} ContainsAt(s: string, sub: string, i: nat)
    requires i + |sub| <= |s| && s[i..i + |sub|] == sub
    ensures Contains(s, sub)
  {
    if i > 0 {
      assert s[1..][i - 1..i - 1 + |sub|] == s[i..i + |sub|];
      ContainsAt(s[1..], sub, i - 1);
    }
  }

  /** `sub in s` holds only with a witness position. */
  lemma {:induction false} ContainsWitness(s: string, sub: string) returns (i: nat)
    requires Contains(s, sub)
    ensures i + |sub| <= |s| && s[i..i + |sub|] == sub
  {
    if StartsWith(s, sub) {
      i := 0;
    } else {
      var j := ContainsWitness(s[1..], sub);
      assert s[1..][j..j + |sub|] == s[j + 1..j + 1 + |sub|];
      i := j + 1;
    }
  }

  lemma ContainsEmpty(s: string)
    ensures Contains(s, "")
  {
    assert StartsWith(s, "");
  }

  /** A substring of a part is a substring of the whole. */
  lemma ContainsConcat(a: string, b: string, sub: string)
    requires Contains(a, sub) || Contains(b, sub)
    ensures Contains(a + b, sub)
  {
    if Contains(a, sub) {
      var i := ContainsWitness(a, sub);
      assert (a + b)[i..i + |sub|] == a[i..i + |sub|];
      ContainsAt(a + b, sub, i);
    } else {
      var i := ContainsWitness(b, sub);
      assert (a + b)[|a| + i..|a| + i + |sub|] == b[i..i + |sub|];
      ContainsAt(a + b, sub, |a| + i);
    }
  }

  // ---------------------------------------------------------------------------
  // Trimming

  /** The first index at or after i whose character is not whitespace (|s| if none). */
  function SkipSpaces(s: string, ws: char -> bool, i: nat): (r: nat)
    requires i <= |s|
    ensures i <= r <= |s|
    decreases |s| - i
  {
    if i < |s| && ws(s[i]) then SkipSpaces(s, ws, i + 1) else i
  }

  /** The smallest index at or before j from which s[..j] holds only whitespace. */
  function SkipSpacesBack(s: string, ws: char -> bool, j: nat): (r: nat)
    requires j <= |s|
    ensures r <= j
  {
    if j > 0 && ws(s[j - 1]) then SkipSpacesBack(s, ws, j - 1) else j
  }

  lemma {:induction false} SkipSpacesFacts(s: string, ws: char -> bool, i: nat)
    requires i <= |s|
    ensures forall k :: i <= k < SkipSpaces(s, ws, i) ==> ws(s[k])
    ensures SkipSpaces(s, ws, i) < |s| ==> !ws(s[SkipSpaces(s, ws, i)])
    decreases |s| - i
  {
    if i < |s| && ws(s[i]) {
      SkipSpacesFacts(s, ws, i + 1);
    }
  }

  lemma {:induction false} SkipSpacesBackFacts(s: string, ws: char -> bool, j: nat)
    requires j <= |s|
    ensures forall k :: SkipSpacesBack(s, ws, j) <= k < j ==> ws(s[k])
    ensures SkipSpacesBack(s, ws, j) > 0 ==> !ws(s[SkipSpacesBack(s, ws, j) - 1])
  {
    if j > 0 && ws(s[j - 1]) {
      SkipSpacesBackFacts(s, ws, j - 1);
    }
  }

  /** A run of whitespace to the end is skipped entirely. */
  lemma {:induction false} SkipAllSpaces(s: string, ws: char -> bool, i: nat)
    requires i <= |s|
    requires forall k :: i <= k < |s| ==> ws(s[k])
    ensures SkipSpaces(s, ws, i) == |s|
    decreases |s| - i
  {
    if i < |s| {
      SkipAllSpaces(s, ws, i + 1);
    }
  }

  /** Removes the leading and trailing characters that satisfy ws. */
  function TrimBy(s: string, ws: char -> bool): string {
    var a := SkipSpaces(s, ws, 0);
    var b := SkipSpacesBack(s, ws, |s|);
    if b <= a then [] else s[a..b]
  }

  /** The trimmed text is the slice of the input that starts at its first non-whitespace
      character, everything cut off is whitespace, and neither end of the result is. */
  lemma TrimByFacts(s: string, ws: char -> bool)
    ensures var r := TrimBy(s, ws);
            var a := SkipSpaces(s, ws, 0);
            && (r == [] || (!ws(r[0]) && !ws(r[|r| - 1])))
            && (r == [] ==> forall k :: 0 <= k < |s| ==> ws(s[k]))
            && (r != [] ==>
                  && a + |r| <= |s| && s[a..a + |r|] == r
                  && (forall k :: 0 <= k < a ==> ws(s[k]))
                  && (forall k :: a + |r| <= k < |s| ==> ws(s[k])))
  {
    var a := SkipSpaces(s, ws, 0);
    var b := SkipSpacesBack(s, ws, |s|);
    SkipSpacesFacts(s, ws, 0);
    SkipSpacesBackFacts(s, ws, |s|);
    if a < b {
      var r := s[a..b];
      assert r[0] == s[a] && r[|r| - 1] == s[b - 1];
    }
  }

  /** Python's str.strip() with no argument. */
  function Strip(s: string): string {
    TrimBy(s, IsPySpace)
  }

  /** JavaScript's String.prototype.trim(). */
  function JsTrim(s: string): string {
    TrimBy(s, IsJsSpace)
  }

  /** Text made only of whitespace trims to nothing. */
  lemma TrimBlank(s: string, ws: char -> bool)
    requires forall k :: 0 <= k < |s| ==> ws(s[k])
    ensures TrimBy(s, ws) == []
  {
    SkipAllSpaces(s, ws, 0);
  }

  lemma TrimTrimmed(s: string, ws: char -> bool)
    requires s == [] || (!ws(s[0]) && !ws(s[|s| - 1]))
    ensures TrimBy(s, ws) == s
  {
    if s != [] {
      assert s[0..|s|] == s;
    }
  }

  lemma TrimIdempotent(s: string, ws: char -> bool)
    ensures TrimBy(TrimBy(s, ws), ws) == TrimBy(s, ws)
  {
    TrimByFacts(s, ws);
    TrimTrimmed(TrimBy(s, ws), ws);
  }

  lemma StripIdempotent(s: string)
    ensures Strip(Strip(s)) == Strip(s)
  {
    TrimIdempotent(s, IsPySpace);
  }

  /** Stripping only removes characters. */
  lemma StripChars(s: string)
    ensures forall c :: c in Strip(s) ==> c in s
  {
    TrimByFacts(s, IsPySpace);
    var r := Strip(s);
    var a := SkipSpaces(s, IsPySpace, 0);
    forall c | c in r
      ensures c in s
    {
      var k :| 0 <= k < |r| && r[k] == c;
      assert s[a + k] == c;
    }
  }

  // ---------------------------------------------------------------------------
  // Splitting and joining

  /** Python's s.split(sep) for a one-character separator: never empty, and
      "" splits into [""]. */
  function Split(s: string, sep: char): (parts: seq<string>)
    ensures |parts| >= 1
    ensures forall p :: p in parts ==> sep !in p
  {
    if s == [] then [[]]
    else
      var rest := Split(s[1..], sep);
      if s[0] == sep then [[]] + rest else [[s[0]] + rest[0]] + rest[1..]
  }

  /** sep.join(parts). */
  function Join(parts: seq<string>, sep: string): string {
    if |parts| == 0 then ""
    else if |parts| == 1 then parts[0]
    else parts[0] + sep + Join(parts[1..], sep)
  }

  /** Joining the pieces of a split with the separator gives back the text. */
  lemma {:induction false} JoinSplit(s: string, sep: char)
    ensures Join(Split(s, sep), [sep]) == s
  {
    if s != [] {
      var rest := Split(s[1..], sep);
      JoinSplit(s[1..], sep);
      if s[0] == sep {
        assert Split(s, sep) == [[]] + rest;
        assert ([[]] + rest)[1..] == rest;
      } else {
        var parts := [[s[0]] + rest[0]] + rest[1..];
        assert Split(s, sep) == parts;
        if |rest| > 1 {
          assert parts[1..] == rest[1..];
          assert Join(rest, [sep]) == rest[0] + [sep] + Join(rest[1..], [sep]);
        }
      }
    }
  }

  /** Text without a separator splits into itself alone. */
  lemma {:induction false} SplitWithout(s: string, sep: char)
    requires sep !in s
    ensures Split(s, sep) == [s]
  {
    if s != [] {
      SplitWithout(s[1..], sep);
      assert [s[0]] + s[1..] == s;
    }
  }

  lemma {:induction false} JoinNoSeparator(parts: seq<string>, sep: char)
    requires forall p :: p in parts ==> sep !in p
    requires |parts| <= 1
    ensures sep !in Join(parts, [sep])
  {
  }

  lemma {:induction false} JoinAppend(parts: seq<string>, x: string, sep: string)
    requires |parts| >= 1
    ensures Join(parts + [x], sep) == Join(parts, sep) + sep + x
  {
    if |parts| == 1 {
      assert (parts + [x])[1..] == [x];
    } else {
      assert (parts + [x])[1..] == parts[1..] + [x];
      JoinAppend(parts[1..], x, sep);
    }
  }

  /** Splitting `p + sep + t`, with no separator in p, yields p and then the pieces of t. */
  lemma {:induction false} SplitConcat(p: string, sep: char, t: string)
    requires sep !in p
    ensures Split(p + [sep] + t, sep) == [p] + Split(t, sep)
  {
    if p == [] {
      assert p + [sep] + t == [sep] + t;
      assert ([sep] + t)[1..] == t;
    } else {
      var s := p + [sep] + t;
      assert s[1..] == p[1..] + [sep] + t;
      SplitConcat(p[1..], sep, t);
      assert [p[0]] + p[1..] == p;
    }
  }

  /** Splitting joined lines that hold no separator gives the lines back. */
  lemma {:induction false} SplitJoin(parts: seq<string>, sep: char)
    requires |parts| >= 1
    requires forall p :: p in parts ==> sep !in p
    ensures Split(Join(parts, [sep]), sep) == parts
  {
    if |parts| == 1 {
      SplitWithout(parts[0], sep);
    } else {
      assert parts[0] in parts;
      SplitJoin(parts[1..], sep);
      SplitConcat(parts[0], sep, Join(parts[1..], [sep]));
      assert [parts[0]] + parts[1..] == parts;
    }
  }

  /** The end of the run of non-whitespace characters starting at i. */
  function SkipNonSpaces(s: string, i: nat): (r: nat)
    requires i <= |s|
    ensures i <= r <= |s|
    ensures i < |s| && !IsPySpace(s[i]) ==> i < r
    decreases |s| - i
  {
    if i < |s| && !IsPySpace(s[i]) then SkipNonSpaces(s, i + 1) else i
  }

  lemma {:induction false} SkipNonSpacesFacts(s: string, i: nat)
    requires i <= |s|
    ensures forall k :: i <= k < SkipNonSpaces(s, i) ==> !IsPySpace(s[k])
    ensures SkipNonSpaces(s, i) < |s| ==> IsPySpace(s[SkipNonSpaces(s, i)])
    decreases |s| - i
  {
    if i < |s| && !IsPySpace(s[i]) {
      SkipNonSpacesFacts(s, i + 1);
    }
  }

  /** The words of s[i..]. */
  function WordsFrom(s: string, i: nat): seq<string>
    requires i <= |s|
    decreases |s| - i
  {
    var a := SkipSpaces(s, IsPySpace, i);
    if a == |s| then []
    else
      SkipSpacesFacts(s, IsPySpace, i);
      var b := SkipNonSpaces(s, a);
      [s[a..b]] + WordsFrom(s, b)
  }

  /** Python's s.split() with no argument: the maximal runs of non-whitespace. */
  function Words(s: string): seq<string> {
    WordsFrom(s, 0)
  }

  /** Every word is non-empty and holds no whitespace. */
  lemma {:induction false} WordsFromFacts(s: string, i: nat)
    requires i <= |s|
    ensures forall w :: w in WordsFrom(s, i) ==> w != [] && forall c :: c in w ==> !IsPySpace(c)
    decreases |s| - i
  {
    var a := SkipSpaces(s, IsPySpace, i);
    if a < |s| {
      SkipSpacesFacts(s, IsPySpace, i);
      var b := SkipNonSpaces(s, a);
      SkipNonSpacesFacts(s, a);
      WordsFromFacts(s, b);
      var w := s[a..b];
      forall c | c in w ensures !IsPySpace(c) {
        var k :| 0 <= k < |w| && w[k] == c;
        assert s[a + k] == c;
      }
    }
  }

  lemma WordsFacts(s: string)
    ensures forall w :: w in Words(s) ==> w != [] && forall c :: c in w ==> !IsPySpace(c)
  {
    WordsFromFacts(s, 0);
  }

  // ---------------------------------------------------------------------------
  // Numbers

  function DigitChar(d: nat): char
    requires d < 10
  {
    ('0' as int + d) as char
  }

  /** Decimal rendering of a non-negative integer, as `${n}` or str(n) print it. */
  function NatToString(n: nat): (r: string)
    ensures |r| >= 1 && forall c :: c in r ==> IsDigit(c)
  {
    if n < 10 then [DigitChar(n)] else NatToString(n / 10) + [DigitChar(n % 10)]
  }

  /** int() of a string of ASCII digits. */
  function DigitsValue(s: string): nat
    requires forall c :: c in s ==> IsDigit(c)
  {
    if s == [] then 0
    else
      assert s[|s| - 1] in s && IsDigit(s[|s| - 1]);
      DigitsValue(s[..|s| - 1]) * 10 + (s[|s| - 1] as int - '0' as int)
  }

  // ---------------------------------------------------------------------------
  // Case

  /** Python's str.title() on ASCII: a letter is upper-cased when the character
      before it is not a letter, lower-cased otherwise. */
  function Title(s: string): string {
    seq(|s|, i requires 0 <= i < |s| =>
      if i == 0 || !IsLetterAscii(s[i - 1]) then UpperChar(s[i]) else LowerChar(s[i]))
  }
}
