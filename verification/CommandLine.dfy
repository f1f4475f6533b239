/**
 Two small languages of command lines: finding an argument in a process's command line, and printing
 words so that a POSIX shell reads them back (section 2.2.2 of the Shell Command Language volume).
 */
module CommandLine {
  import opened Wrappers

  // ---------------------------------------------------------------- finding an argument

  /** The class `\s`. */
  predicate IsSpace(c: char) {
    var n := c as int;
    n in {9, 10, 11, 12, 13, 32, 0xA0, 0x1680, 0x2028, 0x2029, 0x202F, 0x205F, 0x3000, 0xFEFF} || 0x2000 <= n <= 0x200A
  }

  predicate OccursAt(line: string, expected: string, i: nat) {
    i + |expected| <= |line| && line[i..i + |expected|] == expected
  }

  /** The occurrence is an argument of its own. */
  predicate DelimitedAt(line: string, expected: string, i: nat) {
    && OccursAt(line, expected, i)
    && (i == 0 || IsSpace(line[i - 1]))
    && (i + |expected| == |line| || IsSpace(line[i + |expected|]))
  }

  ghost predicate HasArgument(line: string, expected: string) {
    exists i: nat :: DelimitedAt(line, expected, i)
  }

  /** `line.indexOf(expected, from)`: the least occurrence from `from` on. */
  function Find(line: string, expected: string, from: nat): (index: Option<nat>)
    ensures index.Some? ==>
              from <= index.value && OccursAt(line, expected, index.value) && forall j: nat ::
              from <= j < index.value ==> !OccursAt(line, expected, j)
    ensures index.None? ==> forall j: nat :: from <= j ==> !OccursAt(line, expected, j)
    decreases |line| - from
  {
    if from + |expected| > |line| then None
    else if line[from..from + |expected|] == expected then Some(from)
    else Find(line, expected, from + 1)
  }

  /** The search: it looks at one occurrence after the other, each time skipping the whole of an undelimited one. */
  ghost function Search(line: string, expected: string, from: nat): bool
    requires expected != ""
    decreases |line| - from
  {
    var index := Find(line, expected, from);
    index.Some? && (DelimitedAt(line, expected, index.value) || Search(line, expected, index.value + |expected|))
  }

  lemma SearchUnfolds(line: string, expected: string, from: nat)
    requires expected != ""
    ensures var index := Find(line, expected, from);
            Search(line, expected, from) ==
              (index.Some? && (DelimitedAt(line, expected, index.value)
                               || Search(line, expected, index.value + |expected|)))
  {}

  /** `commandLineContainsArgument`. */
  method ContainsArgument(commandLine: string, expected: string) returns (found: bool)
    requires expected != ""
    ensures found == Search(Normalized(commandLine), expected, 0)
  {
    hide IsSpace, Search, Find, Normalized;
    var line := Normalized(commandLine);
    var offset := 0;
    while true
      invariant Search(line, expected, offset) == Search(line, expected, 0)
      invariant offset <= |line|
      decreases |line| - offset
    {
      SearchUnfolds(line, expected, offset);
      var index := Find(line, expected, offset);
      if index.None? { return false; }
      var i := index.value;
      var after := i + |expected|;
      if (i == 0 || IsSpace(line[i - 1])) && (after >= |line| || IsSpace(line[after])) { return true; }
      offset := after;
    }
  }

  function Normalized(line: string): (r: string)
    ensures |r| == |line| && forall i :: 0 <= i < |line| ==> r[i] == if line[i] as int == 0 then ' ' else line[i]
  {
    if line == "" then "" else [if line[0] as int == 0 then ' ' else line[0]] + Normalized(line[1..])
  }

  /** What the search finds is an argument, whatever the word. */
  lemma {:induction false} FoundIsArgument(line: string, expected: string, from: nat)
    requires expected != "" && Search(line, expected, from)
    ensures exists i: nat :: from <= i && DelimitedAt(line, expected, i)
    decreases |line| - from
  {
    var i := Find(line, expected, from).value;
    if !DelimitedAt(line, expected, i) { FoundIsArgument(line, expected, i + |expected|); }
  }

  /** The word ends with a part that it also begins with, and a space stands before that part. */
  predicate OverlapsAfterSpace(expected: string, p: nat) {
    0 < p < |expected| && IsSpace(expected[p - 1]) && expected[p..] == expected[..|expected| - p]
  }

  ghost predicate Overlaps(expected: string) { exists p: nat :: OverlapsAfterSpace(expected, p) }

  /** An argument inside an undelimited occurrence makes the word overlap itself after a space. */
  lemma SkippedArgumentOverlaps(line: string, expected: string, i: nat, j: nat)
    requires OccursAt(line, expected, i) && !DelimitedAt(line, expected, i) && DelimitedAt(line, expected, j)
    requires i <= j < i + |expected|
    ensures OverlapsAfterSpace(expected, j - i)
  {
    var p := j - i;
    assert p > 0;
    assert line[i..i + |expected|][p - 1] == line[j - 1];
    assert expected[p..] == line[j..i + |expected|] == line[j..j + |expected|][..|expected| - p];
  }

  lemma {:induction false} ArgumentIsFound(line: string, expected: string, from: nat, j: nat)
    requires expected != "" && !Overlaps(expected) && from <= j && DelimitedAt(line, expected, j)
    ensures Search(line, expected, from)
    decreases |line| - from
  {
    var i := Find(line, expected, from).value;
    if !DelimitedAt(line, expected, i) {
      assert i + |expected| <= j by { if j < i + |expected| { SkippedArgumentOverlaps(line, expected, i, j); } }
      ArgumentIsFound(line, expected, i + |expected|, j);
    }
  }

  predicate Zeroless(s: string) { forall k :: 0 <= k < |s| ==> s[k] as int != 0 }

  /**
   A command line in which the search skips over the argument: a word glued to the first of two overlapping
   occurrences.
   */
  function Hiding(expected: string, p: nat): string
    requires 0 < p < |expected|
  {
    (if expected[0] == 'x' then "y" else "x") + expected + expected[|expected| - p..]
  }

  lemma HidingOccurs(expected: string, p: nat)
    requires OverlapsAfterSpace(expected, p)
    ensures var line, n := Hiding(expected, p), |expected|;
            |line| == 1 + n + p && line[1..1 + n] == expected && line[1 + p..1 + p + n] == expected && IsSpace(line[p])
  {
    var line, n := Hiding(expected, p), |expected|;
    assert line[1..1 + n] == expected;
    assert line[1 + n..] == expected[n - p..];
    assert line[1 + p..1 + n] == line[1..1 + n][p..];
    assert line[1 + p..1 + p + n] == line[1 + p..1 + n] + line[1 + n..];
    assert line[p] == line[1..1 + n][p - 1];
  }

  lemma HidingIsSkipped(line: string, expected: string, p: nat)
    requires 0 < p < |expected| && |line| == 1 + |expected| + p && line[1..1 + |expected|] == expected
             && line[0] != expected[0] && !IsSpace(line[0])
    ensures !Search(line, expected, 0)
  {
    var n := |expected|;
    assert line[0..n][0] == line[0];
    assert Find(line, expected, 0) == Find(line, expected, 1) == Some(1);
    assert Find(line, expected, 1 + n).None?;
  }

  lemma ZerolessIsNormal(s: string)
    requires Zeroless(s)
    ensures Normalized(s) == s
  {}

  lemma HidingHides(expected: string, p: nat)
    requires OverlapsAfterSpace(expected, p) && Zeroless(expected)
    ensures var line := Hiding(expected, p);
            Normalized(line) == line && HasArgument(line, expected) && !Search(line, expected, 0)
  {
    var line := Hiding(expected, p);
    HidingOccurs(expected, p);
    assert DelimitedAt(line, expected, 1 + p);
    HidingIsSkipped(line, expected, p);
    assert Zeroless(expected[|expected| - p..]);
    ZerolessIsNormal(line);
  }

  /**
   Exactly for which words the search misses no argument on any command line: those that do not overlap
   themselves after a space. A word without spaces is one of them; `a a` is not.
   */
  lemma {:induction false} FindsEveryArgumentExactlyWhen(expected: string)
    requires expected != "" && Zeroless(expected)
    ensures (forall line: string :: Search(Normalized(line), expected, 0) <==>
             HasArgument(Normalized(line), expected)) <==> !Overlaps(expected)
    ensures (forall k :: 0 <= k < |expected| ==> !IsSpace(expected[k])) ==> !Overlaps(expected)
    ensures Overlaps("a a")
  {
    assert OverlapsAfterSpace("a a", 2);
    if Overlaps(expected) {
      var p: nat :| OverlapsAfterSpace(expected, p);
      HidingHides(expected, p);
      var line := Hiding(expected, p);
      assert !(Search(Normalized(line), expected, 0) <==> HasArgument(Normalized(line), expected));
    } else {
      forall line: string ensures Search(Normalized(line), expected, 0) <==> HasArgument(Normalized(line), expected) {
        var n := Normalized(line);
        if Search(n, expected, 0) { FoundIsArgument(n, expected, 0); }
        if HasArgument(n, expected) {
          var j: nat :| DelimitedAt(n, expected, j);
          ArgumentIsFound(n, expected, 0, j);
        }
      }
    }
  }

  // ---------------------------------------------------------------- printing words for a shell

  /** `word.replaceAll("'", "'\\''")`. */
  function Escaped(word: string): string {
    if word == "" then ""
    else (if word[0] == '\'' then "'\\''" else [word[0]]) + Escaped(word[1..])
  }

  function Quote(word: string): string { "'" + Escaped(word) + "'" }

  /** `words.map(quote).join(' ')`. */
  function Print(words: seq<string>): string {
    if words == [] then ""
    else if |words| == 1 then Quote(words[0])
    else Quote(words[0]) + " " + Print(words[1..])
  }

  predicate IsBlank(c: char) { c == ' ' || c == '\t' }

  /** Characters that stand for themselves outside quotes. */
  predicate IsPlain(c: char) {
    c !in {'|', '&', ';', '<', '>', '(', ')', '$', '`', '\\',
           '"', '\'', ' ', '\t', '\n', '*', '?', '[', '#', '~', '=', '%'}
  }

  /**
   The words a shell reads: `current` is the word being read, `None` between words or at something this reader does
   not know.
   */
  function Words(s: string, current: Option<string>): Option<seq<string>>
    decreases |s|
  {
    if s == "" then Some(if current.Some? then [current.value] else [])
    else if IsBlank(s[0]) then
      var rest := Words(s[1..], None);
      if rest.None? then None else Some((if current.Some? then [current.value] else []) + rest.value)
    else if s[0] == '\'' then Quoted(s[1..], current.Or(""))
    else if s[0] == '\\' then (if |s| < 2 || s[1] == '\n' then None else Words(s[2..], Some(current.Or("") + [s[1]])))
    else if IsPlain(s[0]) then Words(s[1..], Some(current.Or("") + [s[0]]))
    else None
  }

  /** Between single quotes every character stands for itself up to the closing quote. */
  function Quoted(s: string, current: string): Option<seq<string>>
    decreases |s|
  {
    if s == "" then None
    else if s[0] == '\'' then Words(s[1..], Some(current))
    else Quoted(s[1..], current + [s[0]])
  }

  lemma {:induction false} QuotedReads(word: string, rest: string, current: string)
    ensures Quoted(Escaped(word) + "'" + rest, current) == Words(rest, Some(current + word))
    decreases |word|
  {
    var s := Escaped(word) + "'" + rest;
    if word == "" {
      assert s == "'" + rest && s[1..] == rest && current + word == current;
    } else {
      var tail := Escaped(word[1..]) + "'" + rest;
      QuotedReads(word[1..], rest, current + [word[0]]);
      assert current + [word[0]] + word[1..] == current + word;
      if word[0] == '\'' {
        assert s == "'\\''" + tail;
        EscapedQuoteReads(tail, current);
      } else {
        assert s == [word[0]] + tail && s[1..] == tail;
      }
    }
  }

  /** A quote inside a word: the quotes are closed, the quote is escaped, and they are opened again. */
  lemma EscapedQuoteReads(tail: string, current: string)
    ensures Quoted("'\\''" + tail, current) == Quoted(tail, current + ['\''])
  {
    var s := "'\\''" + tail;
    assert s[1..] == "\\''" + tail && s[1..][2..] == "'" + tail && s[1..][2..][1..] == tail;
    assert Words(s[1..], Some(current)) == Words("'" + tail, Some(current + ['\'']));
    assert Words("'" + tail, Some(current + ['\''])) == Quoted(tail, current + ['\'']);
  }

  lemma QuoteReads(word: string, rest: string)
    ensures Words(Quote(word) + rest, None) == Words(rest, Some(word))
  {
    var s := Quote(word) + rest;
    assert s[1..] == Escaped(word) + "'" + rest;
    QuotedReads(word, rest, "");
    assert "" + word == word;
  }

  /** A shell reads back exactly the words that were printed, whatever characters they hold, empty words included. */
  lemma {:induction false} ReadPrinted(words: seq<string>)
    ensures Words(Print(words), None) == Some(words)
    decreases |words|
  {
    if words == [] {
    } else if |words| == 1 {
      QuoteReads(words[0], "");
      assert Quote(words[0]) + "" == Quote(words[0]);
      assert words == [words[0]];
    } else {
      var rest := " " + Print(words[1..]);
      QuoteReads(words[0], rest);
      assert Quote(words[0]) + " " + Print(words[1..]) == Quote(words[0]) + rest;
      assert rest[1..] == Print(words[1..]);
      ReadPrinted(words[1..]);
      assert words == [words[0]] + words[1..];
    }
  }
}
