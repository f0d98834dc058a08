/** The string functions the crontab code is built on: split, trim, fields, join. */
module CronText {
  predicate Blank(c: char) {
    c == ' ' || c == '\t' || c == '\n' || c == 11 as char || c == 12 as char || c == '\r'
  }

  /** strings.Split(s, "\n"). */
  function SplitLines(s: string): (r: seq<string>)
    ensures |r| >= 1
  {
    if s == "" then [""]
    else
      var rest := SplitLines(s[1..]);
      if s[0] == '\n' then [""] + rest else [[s[0]] + rest[0]] + rest[1..]
  }

  /** strings.TrimRight(s, string(c)). */
  function TrimRight(s: string, c: char): string {
    if s != "" && s[|s| - 1] == c then TrimRight(s[..|s| - 1], c) else s
  }

  /** The length of the longest blank-free prefix. */
  function WordLength(s: string): (n: nat)
    ensures n <= |s|
    ensures forall i :: 0 <= i < n ==> !Blank(s[i])
    ensures n < |s| ==> Blank(s[n])
  {
    if s == "" || Blank(s[0]) then 0 else 1 + WordLength(s[1..])
  }

  /** strings.Fields: the maximal blank-free runs. */
  function Fields(s: string): seq<string>
    decreases |s|
  {
    if s == "" then []
    else if Blank(s[0]) then Fields(s[1..])
    else
      var n := WordLength(s);
      [s[..n]] + Fields(s[n..])
  }

  /** What separates fields: space, tab, newline, carriage return, vertical tab and form feed. */
  predicate Separator(c: char) {
    c in {' ', '\t', '\n', '\r', 11 as char, 12 as char}
  }

  ghost predicate Separators(s: string) {
    forall i :: 0 <= i < |s| ==> Separator(s[i])
  }

  /** The first word of the line: behind separators only, and ended by one or by the end of the line. */
  ghost predicate FirstWord(line: string, word: string, a: nat, b: nat) {
    && a < b <= |line| && Separators(line[..a])
    && word == line[a..b] && (forall i :: a <= i < b ==> !Separator(line[i]))
    && (b < |line| ==> Separator(line[b]))
  }

  /** The line is these words, one or more separators between them and any number around. */
  ghost predicate Spaced(line: string, words: seq<string>)
    decreases |words|
  {
    if words == [] then Separators(line)
    else exists a: nat, b: nat :: FirstWord(line, words[0], a, b) && Spaced(line[b..], words[1..])
  }

  lemma FirstWordAfterBlank(line: string, word: string, a: nat, b: nat)
    requires line != "" && Separator(line[0]) && FirstWord(line[1..], word, a, b)
    ensures FirstWord(line, word, a + 1, b + 1) && line[b + 1..] == line[1..][b..]
  {
    assert line[..a + 1] == [line[0]] + line[1..][..a];
    assert line[a + 1..b + 1] == line[1..][a..b];
  }

  lemma SpacedAfterBlank(line: string, words: seq<string>)
    requires line != "" && Separator(line[0]) && Spaced(line[1..], words)
    ensures Spaced(line, words)
  {
    if words != [] {
      var a: nat, b: nat :| FirstWord(line[1..], words[0], a, b) && Spaced(line[1..][b..], words[1..]);
      FirstWordAfterBlank(line, words[0], a, b);
    } else {
      assert line == [line[0]] + line[1..];
    }
  }

  /** The fields of a line are its words. */
  lemma {:induction false} FieldsSpaced(line: string)
    ensures Spaced(line, Fields(line))
    decreases |line|
  {
    if line == "" {
    } else if Blank(line[0]) {
      FieldsSpaced(line[1..]);
      SpacedAfterBlank(line, Fields(line));
    } else {
      var n := WordLength(line);
      FieldsSpaced(line[n..]);
      assert FirstWord(line, Fields(line)[0], 0, n);
      assert Fields(line)[1..] == Fields(line[n..]);
    }
  }

  /** strings.Join(words, sep). */
  function Join(words: seq<string>, sep: string): string {
    if words == [] then ""
    else if |words| == 1 then words[0]
    else words[0] + sep + Join(words[1..], sep)
  }

  predicate HasPrefix(s: string, p: string) {
    |p| <= |s| && s[..|p|] == p
  }

  /** A non-empty string without blanks. */
  predicate IsWord(s: string) {
    s != "" && forall i :: 0 <= i < |s| ==> !Blank(s[i])
  }

  lemma {:induction false} WordLengthOf(w: string, rest: string)
    requires forall i :: 0 <= i < |w| ==> !Blank(w[i])
    requires rest == "" || Blank(rest[0])
    ensures WordLength(w + rest) == |w|
    decreases |w|
  {
    if w == "" {
      assert w + rest == rest;
    } else {
      assert (w + rest)[1..] == w[1..] + rest;
      WordLengthOf(w[1..], rest);
    }
  }

  /** A word followed by a blank is the first field. */
  lemma FieldsWord(w: string, rest: string)
    requires IsWord(w) && (rest == "" || Blank(rest[0]))
    ensures Fields(w + rest) == [w] + Fields(rest)
  {
    WordLengthOf(w, rest);
    assert (w + rest)[0] == w[0];
    assert (w + rest)[..|w|] == w && (w + rest)[|w|..] == rest;
  }

  /** Putting a word and one space in front puts a field in front. */
  lemma FieldsCons(w: string, rest: string)
    requires IsWord(w)
    ensures Fields(w + " " + rest) == [w] + Fields(rest)
  {
    FieldsWord(w, " " + rest);
    assert w + " " + rest == w + (" " + rest);
    assert (" " + rest)[1..] == rest;
  }

  lemma {:induction false} FieldsAreWords(s: string)
    ensures forall i :: 0 <= i < |Fields(s)| ==> IsWord(Fields(s)[i])
    decreases |s|
  {
    if s == "" {
    } else if Blank(s[0]) {
      FieldsAreWords(s[1..]);
    } else {
      FieldsAreWords(s[WordLength(s)..]);
    }
  }

  /** Splitting what was joined with single spaces gives the words back. */
  lemma {:induction false} FieldsJoin(words: seq<string>)
    requires forall i :: 0 <= i < |words| ==> IsWord(words[i])
    ensures Fields(Join(words, " ")) == words
    decreases |words|
  {
    if words == [] {
    } else if |words| == 1 {
      FieldsWord(words[0], "");
      assert words[0] + "" == words[0];
    } else {
      FieldsJoin(words[1..]);
      FieldsCons(words[0], Join(words[1..], " "));
    }
  }

  lemma {:induction false} SplitConcat(a: string, b: string)
    requires '\n' !in a
    ensures SplitLines(a + "\n" + b) == [a] + SplitLines(b)
    decreases |a|
  {
    if a == "" {
      assert "" + "\n" + b == "\n" + b && ("\n" + b)[1..] == b;
    } else {
      assert (a + "\n" + b)[1..] == a[1..] + "\n" + b;
      SplitConcat(a[1..], b);
      assert [a[0]] + a[1..] == a;
    }
  }

  /** The pieces of a split contain no newline. */
  lemma {:induction false} SplitPieces(s: string)
    ensures forall i :: 0 <= i < |SplitLines(s)| ==> '\n' !in SplitLines(s)[i]
    decreases |s|
  {
    if s != "" {
      SplitPieces(s[1..]);
    }
  }
}
