/** The time a log line is stamped with, and why the line's newline does not matter to it. */
module LogStamp {
  import opened Prelude
  import opened Text

  /** Nanoseconds. */
  type Time = int

  /** time.Parse with the logger's format. */
  type Parser = string -> Option<Time>

  /** All the logger relies on of the timestamp format: a text with a newline in it does not parse. */
  ghost predicate TimeFormat(parse: Parser) {
    forall s :: '\n' in s ==> parse(s) == None
  }

  /** The text after the first "time=", or None. */
  function AfterMarker(line: string): Option<string> {
    if |line| < 5 then None
    else if line[..5] == "time=" then Some(line[5..])
    else AfterMarker(line[1..])
  }

  function ParseLogTime(parse: Parser, line: string): Option<Time> {
    match AfterMarker(line)
    case None => None
    case Some(rest) => parse(rest[..IndexOf(rest, ' ')])
  }

  predicate MarkerAt(line: string, k: int) {
    0 <= k && k + 5 <= |line| && line[k..k + 5] == "time="
  }

  /** The marker "time=" begins at this place, and at none before it. */
  ghost predicate FirstMarker(line: string, i: nat) {
    MarkerAt(line, i) && forall k :: 0 <= k < i ==> !MarkerAt(line, k)
  }

  ghost predicate NoMarker(line: string) {
    forall k :: !MarkerAt(line, k)
  }

  /** The line's time is written between the first marker and a blank or the end. */
  ghost predicate StampedAt(line: string, i: nat, e: nat) {
    && FirstMarker(line, i) && i + 5 <= e <= |line|
    && ' ' !in line[i + 5..e] && (e < |line| ==> line[e] == ' ')
  }

  lemma MarkerShifts(line: string, k: nat)
    requires line != ""
    ensures MarkerAt(line[1..], k) <==> MarkerAt(line, k + 1)
  {
    if k + 6 <= |line| {
      assert line[1..][k..k + 5] == line[k + 1..k + 6];
    }
  }

  lemma {:induction false} MarkerFound(line: string, i: nat)
    requires FirstMarker(line, i)
    ensures AfterMarker(line) == Some(line[i + 5..])
    decreases i
  {
    assert line[0..5] == line[..5];
    if i > 0 {
      assert !MarkerAt(line, 0);
      forall k | 0 <= k < i ensures MarkerAt(line[1..], k) <==> MarkerAt(line, k + 1) {
        MarkerShifts(line, k);
      }
      MarkerFound(line[1..], i - 1);
      assert line[1..][i - 1 + 5..] == line[i + 5..];
    }
  }

  lemma {:induction false} MarkerMissing(line: string)
    requires NoMarker(line)
    ensures AfterMarker(line) == None
    decreases |line|
  {
    if |line| >= 5 {
      assert line[0..5] == line[..5] && !MarkerAt(line, 0);
      forall k ensures !MarkerAt(line[1..], k) {
        if k >= 0 {
          MarkerShifts(line, k);
        }
      }
      MarkerMissing(line[1..]);
    }
  }

  /** A line's stamp is the time written behind its first marker, up to a blank; without a marker it has none. */
  lemma StampIs(parse: Parser, line: string)
    ensures NoMarker(line) ==> ParseLogTime(parse, line) == None
    ensures forall i: nat, e: nat :: StampedAt(line, i, e) ==> ParseLogTime(parse, line) == parse(line[i + 5..e])
  {
    if NoMarker(line) {
      MarkerMissing(line);
    }
    forall i: nat, e: nat | StampedAt(line, i, e) ensures ParseLogTime(parse, line) == parse(line[i + 5..e]) {
      MarkerFound(line, i);
      var rest := line[i + 5..];
      assert rest[..e - (i + 5)] == line[i + 5..e];
      IndexOfFirst(rest, ' ', e - (i + 5));
    }
  }

  /** Every line has a stamp written in it or no marker. */
  lemma {:induction false} MarkerOrNot(line: string) returns (i: nat, e: nat)
    ensures NoMarker(line) || StampedAt(line, i, e)
    decreases |line|
  {
    i, e := 0, 0;
    if k :| MarkerAt(line, k) {
      i := Earliest(line, k);
      e := i + 5 + IndexOf(line[i + 5..], ' ');
      IndexOfFinds(line[i + 5..], ' ');
      assert line[i + 5..e] == line[i + 5..][..e - (i + 5)];
    }
  }

  lemma {:induction false} Earliest(line: string, k: nat) returns (i: nat)
    requires MarkerAt(line, k)
    ensures FirstMarker(line, i)
    decreases k
  {
    i := k;
    if j :| 0 <= j < k && MarkerAt(line, j) {
      i := Earliest(line, j);
    }
  }

  /** The time written in the line lies before the cutoff. */
  ghost predicate WrittenBefore(parse: Parser, line: string, cutoff: Time) {
    exists i: nat, e: nat :: StampedAt(line, i, e) && parse(line[i + 5..e]).Some? && parse(line[i + 5..e]).value < cutoff
  }

  /** The time written in the line is the cutoff or later. */
  ghost predicate WrittenSince(parse: Parser, line: string, cutoff: Time) {
    exists i: nat, e: nat :: StampedAt(line, i, e) && parse(line[i + 5..e]).Some? && parse(line[i + 5..e]).value >= cutoff
  }

  lemma StampIsWritten(parse: Parser, line: string, cutoff: Time)
    ensures WrittenBefore(parse, line, cutoff) <==>
      ParseLogTime(parse, line).Some? && ParseLogTime(parse, line).value < cutoff
    ensures WrittenSince(parse, line, cutoff) <==>
      ParseLogTime(parse, line).Some? && ParseLogTime(parse, line).value >= cutoff
  {
    StampIs(parse, line);
    var i, e := MarkerOrNot(line);
    if StampedAt(line, i, e) && ParseLogTime(parse, line).Some? {
      assert parse(line[i + 5..e]).Some?;
    }
  }

  function StampOf(parse: Parser): string -> Option<Time> {
    line => ParseLogTime(parse, line)
  }

  /** A first line read with its newline is stamped, if at all, like the line itself. */
  predicate StampedAlike(stamp: string -> Option<Time>, line: string) {
    '\n' !in line && stamp(line + "\n").Some? ==> stamp(line) == stamp(line + "\n")
  }

  ghost predicate IgnoresNewline(stamp: string -> Option<Time>) {
    forall line: string :: StampedAlike(stamp, line)
  }

  lemma {:induction false} MarkerKeepsNewline(line: string)
    requires '\n' !in line
    ensures AfterMarker(line + "\n") == match AfterMarker(line) case None => None case Some(r) => Some(r + "\n")
    decreases |line|
  {
    var s := line + "\n";
    if |line| < 4 {
      NoMarkerInShort(s);
    } else if |line| == 4 {
      assert s[..5][4] == '\n';
      NoMarkerInShort(s[1..]);
    } else {
      assert s[..5] == line[..5] && s[5..] == line[5..] + "\n" && s[1..] == line[1..] + "\n";
      if line[..5] != "time=" {
        MarkerKeepsNewline(line[1..]);
      }
    }
  }

  lemma NoMarkerInShort(s: string)
    requires |s| < 5
    ensures AfterMarker(s) == None
  {
  }

  /** A timestamp cut from a line with its newline can only parse if a blank ended it first. */
  lemma StampEndsBeforeNewline(parse: Parser, rest: string)
    requires TimeFormat(parse)
    requires parse((rest + "\n")[..IndexOf(rest + "\n", ' ')]).Some?
    ensures (rest + "\n")[..IndexOf(rest + "\n", ' ')] == rest[..IndexOf(rest, ' ')]
  {
    IndexOfExtended(rest, "\n", ' ');
    assert (rest + "\n")[|rest|] == '\n';
    assert (rest + "\n")[..|rest| + 1] == rest + "\n";
    assert parse(rest + "\n") == None;
    assert IndexOf(rest, ' ') < |rest|;
    assert (rest + "\n")[..IndexOf(rest, ' ')] == rest[..IndexOf(rest, ' ')];
  }

  /**
   * The fast path reads the first line with its newline. If that parses, a blank ends the timestamp
   * before the newline, and the trimmed line parses to the same time.
   */
  lemma FirstLineParsesAlike(parse: Parser, line: string)
    requires TimeFormat(parse) && '\n' !in line && ParseLogTime(parse, line + "\n").Some?
    ensures ParseLogTime(parse, line) == ParseLogTime(parse, line + "\n")
  {
    MarkerKeepsNewline(line);
    StampEndsBeforeNewline(parse, AfterMarker(line).value);
  }

  /** Of the stamp the logger reads, that holds. */
  lemma StampIgnoresNewline(parse: Parser)
    requires TimeFormat(parse)
    ensures IgnoresNewline(StampOf(parse))
  {
    forall line: string ensures StampedAlike(StampOf(parse), line) {
      if '\n' !in line && ParseLogTime(parse, line + "\n").Some? {
        FirstLineParsesAlike(parse, line);
      }
    }
  }
}
