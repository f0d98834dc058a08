/** The log file's retention purge and the logger that triggers it. */
module LogPurge {
  import opened Prelude
  import opened Text
  import opened LogStamp
  import opened LogWindow

  type Time = int

  /** How a line is stamped. */
  type Stamp = string -> Option<Time>

  /** The lines of a file, without their newlines; a last line may lack one. */
  function FileLines(text: string): seq<string>
    decreases |text|
  {
    if text == "" then []
    else
      var n := IndexOf(text, '\n');
      if n < |text| then [text[..n]] + FileLines(text[n + 1..]) else [text]
  }

  /** ReadString('\n') at the start of the file: the first line with its newline, if it has one. */
  function FirstRead(text: string): string {
    var n := IndexOf(text, '\n');
    if n < |text| then text[..n + 1] else text
  }

  /** TrimRight of the newline; a read line has at most the one. */
  function Trimmed(line: string): string {
    if line != "" && line[|line| - 1] == '\n' then line[..|line| - 1] else line
  }

  /** Fprintln of every line. */
  function Written(lines: seq<string>): string {
    if lines == [] then "" else lines[0] + "\n" + Written(lines[1..])
  }

  /** Does the fast path leave the file alone? */
  predicate FastPath(stamp: Stamp, text: string, cutoff: Time) {
    var t := stamp(FirstRead(text));
    t.Some? && t.value >= cutoff
  }

  function Purged(stamp: Stamp, text: string, cutoff: Time): string {
    if text == "" || FastPath(stamp, text, cutoff) then text
    else Written(Kept(stamp, FileLines(text), cutoff))
  }

  predicate Whole(lines: seq<string>) {
    lines == [] || ('\n' !in lines[0] && Whole(lines[1..]))
  }

  lemma {:induction false} LinesOfWritten(lines: seq<string>)
    requires Whole(lines)
    ensures FileLines(Written(lines)) == lines
    decreases |lines|
  {
    if lines != [] {
      var line, rest := lines[0], Written(lines[1..]);
      LinesOfWritten(lines[1..]);
      assert Written(lines) == line + ("\n" + rest);
      FirstOfJoined(line, rest);
    }
  }

  lemma FirstOfJoined(line: string, rest: string)
    requires '\n' !in line
    ensures IndexOf(line + ("\n" + rest), '\n') == |line|
    ensures FileLines(line + ("\n" + rest)) == [line] + FileLines(rest)
  {
    var text := line + ("\n" + rest);
    assert text[..|line|] == line && text[|line| + 1..] == rest;
    IndexOfFirst(text, '\n', |line|);
  }

  lemma {:induction false} LinesAreWhole(text: string)
    ensures Whole(FileLines(text))
    decreases |text|
  {
    if text != "" {
      var n := IndexOf(text, '\n');
      IndexOfFinds(text, '\n');
      if n < |text| {
        LinesAreWhole(text[n + 1..]);
        assert FileLines(text)[1..] == FileLines(text[n + 1..]);
      }
    }
  }

  lemma {:induction false} KeptWhole(stamp: Stamp, lines: seq<string>, cutoff: Time)
    requires Whole(lines)
    ensures Whole(Kept(stamp, lines, cutoff))
  {
    if lines != [] {
      KeptWhole(stamp, lines[1..], cutoff);
      if Fresh(stamp, lines[0], cutoff) {
        HeadTail(lines[0], Kept(stamp, lines[1..], cutoff));
      } else {
        assert Kept(stamp, lines, cutoff) == Kept(stamp, lines[1..], cutoff);
      }
    }
  }

  /** What the fast path saw: a first line whose own timestamp is within the window. */
  lemma FastPathSees(stamp: Stamp, text: string, cutoff: Time)
    requires IgnoresNewline(stamp) && text != "" && FastPath(stamp, text, cutoff)
    ensures stamp(FileLines(text)[0]).Some? && stamp(FileLines(text)[0]).value >= cutoff
  {
    var n := IndexOf(text, '\n');
    IndexOfFinds(text, '\n');
    if n < |text| {
      assert text[..n + 1] == text[..n] + "\n";
      assert StampedAlike(stamp, text[..n]);
    } else {
      assert text[..n] == text;
    }
  }

  /**
   * The purge, exactly: it leaves the in-window and unparseable lines in order if and only if the
   * full scan runs or nothing in the file is stale.
   */
  lemma PurgeIsFilter(stamp: Stamp, text: string, cutoff: Time)
    ensures FileLines(Purged(stamp, text, cutoff)) == Kept(stamp, FileLines(text), cutoff)
        <==> (text != "" && FastPath(stamp, text, cutoff) ==> AllFresh(stamp, FileLines(text), cutoff))
  {
    var lines := FileLines(text);
    KeptFacts(stamp, lines, cutoff);
    LinesAreWhole(text);
    KeptWhole(stamp, lines, cutoff);
    LinesOfWritten(Kept(stamp, lines, cutoff));
  }

  /** The fast path refines the full filter: on a log in time order both paths give the same lines. */
  lemma FastPathRefines(stamp: Stamp, text: string, cutoff: Time)
    requires IgnoresNewline(stamp) && Nondecreasing(stamp, FileLines(text))
    ensures FileLines(Purged(stamp, text, cutoff)) == Kept(stamp, FileLines(text), cutoff)
  {
    if text != "" && FastPath(stamp, text, cutoff) {
      FastPathSees(stamp, text, cutoff);
      FreshAfter(stamp, FileLines(text)[0], FileLines(text)[1..], cutoff);
    }
    PurgeIsFilter(stamp, text, cutoff);
  }

  /** The fully filtered lines are those of the file with no time before the cutoff written in them. */
  ghost predicate NoneWrittenBefore(parse: Parser, before: seq<string>, after: seq<string>, cutoff: Time) {
    forall line :: line in after <==> line in before && !WrittenBefore(parse, line, cutoff)
  }

  lemma {:induction false} KeptAreNotWrittenBefore(parse: Parser, lines: seq<string>, cutoff: Time)
    ensures NoneWrittenBefore(parse, lines, Kept(StampOf(parse), lines, cutoff), cutoff)
  {
    if lines != [] {
      var rest := Kept(StampOf(parse), lines[1..], cutoff);
      KeptAreNotWrittenBefore(parse, lines[1..], cutoff);
      StampIsWritten(parse, lines[0], cutoff);
      assert lines == [lines[0]] + lines[1..];
      assert Kept(StampOf(parse), lines, cutoff) == KeptOne(StampOf(parse), lines[0], cutoff) + rest;
    }
  }

  /** A purge leaves the text alone if the time of its first line is not before the cutoff; if it is, or is missing, it scans. */
  lemma PurgeScans(parse: Parser, text: string, cutoff: Time)
    ensures if text == "" || WrittenSince(parse, FirstRead(text), cutoff) then Purged(StampOf(parse), text, cutoff) == text
            else NoneWrittenBefore(parse, FileLines(text), FileLines(Purged(StampOf(parse), text, cutoff)), cutoff)
  {
    StampIsWritten(parse, FirstRead(text), cutoff);
    PurgeIsFilter(StampOf(parse), text, cutoff);
    KeptAreNotWrittenBefore(parse, FileLines(text), cutoff);
  }

  /** Lines and text determine each other; a last line without a newline gets one. */
  lemma {:induction false} WrittenOfLines(text: string)
    ensures Written(FileLines(text)) == if Terminated(text) then text else text + "\n"
    decreases |text|
  {
    if text != "" {
      var n := IndexOf(text, '\n');
      IndexOfFinds(text, '\n');
      if n < |text| {
        WrittenOfLines(text[n + 1..]);
        assert text == text[..n] + "\n" + text[n + 1..];
        assert FileLines(text)[1..] == FileLines(text[n + 1..]);
      } else {
        assert text[..n] == text && text[|text| - 1] != '\n';
        assert Written([text]) == text + "\n" + "";
      }
    }
  }

  // ------------------------------------------------------------------ the logger over a run

  /** Whole lines only. */
  predicate Terminated(text: string) {
    text == "" || text[|text| - 1] == '\n'
  }

  /** A text of whole lines is a line, its newline, and whole lines. */
  lemma FirstBreak(a: string) returns (line: string, rest: string)
    requires a != "" && Terminated(a)
    ensures a == line + ("\n" + rest) && '\n' !in line && Terminated(rest) && |rest| < |a|
  {
    var n := IndexOf(a, '\n');
    IndexOfFinds(a, '\n');
    assert a[|a| - 1] == '\n' && a[..|a|] == a;
    line, rest := a[..n], a[n + 1..];
  }

  lemma {:induction false} LinesOfAppended(a: string, b: string)
    requires Terminated(a)
    ensures FileLines(a + b) == FileLines(a) + FileLines(b)
    decreases |a|
  {
    if a == "" {
      assert a + b == b;
    } else {
      var line, rest := FirstBreak(a);
      LinesOfAppended(rest, b);
      LinesOfJoinedAppended(line, rest, b);
    }
  }

  lemma LinesOfJoinedAppended(line: string, rest: string, b: string)
    requires '\n' !in line && FileLines(rest + b) == FileLines(rest) + FileLines(b)
    ensures FileLines(line + ("\n" + rest) + b) == FileLines(line + ("\n" + rest)) + FileLines(b)
  {
    Regroup(line, rest, b);
    LinesOfJoined(line, rest, b);
  }

  lemma Regroup(line: string, rest: string, b: string)
    ensures line + ("\n" + rest) + b == line + ("\n" + (rest + b))
  {
  }

  lemma LinesOfJoined(line: string, rest: string, b: string)
    requires '\n' !in line && FileLines(rest + b) == FileLines(rest) + FileLines(b)
    ensures FileLines(line + ("\n" + (rest + b))) == FileLines(line + ("\n" + rest)) + FileLines(b)
  {
    FirstOfJoined(line, rest);
    FirstOfJoined(line, rest + b);
  }

  lemma {:induction false} WrittenTerminated(lines: seq<string>)
    ensures Terminated(Written(lines))
  {
    if lines != [] {
      WrittenTerminated(lines[1..]);
    }
  }

  lemma PurgedLines(stamp: Stamp, text: string, cutoff: Time)
    requires IgnoresNewline(stamp) && Terminated(text) && Nondecreasing(stamp, FileLines(text))
    ensures Terminated(Purged(stamp, text, cutoff))
    ensures FileLines(Purged(stamp, text, cutoff)) == Kept(stamp, FileLines(text), cutoff)
  {
    FastPathRefines(stamp, text, cutoff);
    WrittenTerminated(Kept(stamp, FileLines(text), cutoff));
  }

  lemma PurgedThenWritten(stamp: Stamp, text: string, cutoff: Time, added: string)
    requires IgnoresNewline(stamp) && Terminated(text) && Nondecreasing(stamp, FileLines(text))
    requires Terminated(added)
    ensures FileLines(Purged(stamp, text, cutoff) + added) == Kept(stamp, FileLines(text), cutoff) + FileLines(added)
    ensures Terminated(Purged(stamp, text, cutoff) + added)
  {
    PurgedLines(stamp, text, cutoff);
    LinesOfAppended(Purged(stamp, text, cutoff), added);
    TerminatedAppend(Purged(stamp, text, cutoff), added);
  }

  /** The text of the file after one Write. */
  function Wrote(stamp: Stamp, retention: Time, text: string, lastPurge: Time, p: string, e: Entry<string>): string {
    (if Due(lastPurge, e) then Purged(stamp, text, e.purged - retention) else text) + p
  }

  /** One Write on a log of whole lines in time order is one step of the line model, whichever purge path ran. */
  lemma WriteRefines(stamp: Stamp, retention: Time, text: string, lastPurge: Time, p: string, e: Entry<string>)
    requires IgnoresNewline(stamp) && Terminated(text) && Nondecreasing(stamp, FileLines(text))
    requires Terminated(p) && e.lines == FileLines(p)
    ensures FileLines(Wrote(stamp, retention, text, lastPurge, p, e)) == After(stamp, retention, FileLines(text), lastPurge, e)
    ensures Terminated(Wrote(stamp, retention, text, lastPurge, p, e))
  {
    if Due(lastPurge, e) {
      PurgedThenWritten(stamp, text, e.purged - retention, p);
    } else {
      LinesOfAppended(text, p);
      TerminatedAppend(text, p);
    }
  }

  lemma TerminatedAppend(a: string, b: string)
    requires Terminated(a) && Terminated(b)
    ensures Terminated(a + b)
  {
  }

  predicate TextOf(p: string, e: Entry<string>) {
    Terminated(p) && e.lines == FileLines(p)
  }

  /** The lines of every Write are those of its text, whole. */
  predicate TextsOf(ps: seq<string>, es: seq<Entry<string>>) {
    |ps| == |es| && forall i :: 0 <= i < |es| ==> TextOf(ps[i], es[i])
  }

  /** The text is whole lines, these ones, in time order with those still to come. */
  ghost predicate Holds(stamp: Stamp, text: string, lines: seq<string>, later: seq<string>) {
    Terminated(text) && FileLines(text) == lines && Nondecreasing(stamp, lines + later)
  }

  /**
   * A logger's life: the log it opens, the clock where the opening purge computes its cutoff and where
   * the throttle starts, and the Writes that follow.
   */
  datatype Life = Life(retention: Time, text: string, purged: Time, marked: Time,
                       ps: seq<string>, es: seq<Entry<string>>)

  /** Whole lines throughout, in time order. */
  ghost predicate InTimeOrder(stamp: Stamp, a: Life) {
    TextsOf(a.ps, a.es) && Holds(stamp, a.text, FileLines(a.text), Added(a.es))
  }

  /** ... on a clock that does not go back, each line stamped at most the retention before it is written. */
  ghost predicate Orderly(stamp: Stamp, a: Life) {
    InTimeOrder(stamp, a) && a.purged <= a.marked && Sane(stamp, a.retention, a.marked, a.es)
  }

  /** The text of the file after opening and n Writes, as the code leaves it. */
  function TextAt(stamp: Stamp, a: Life, n: nat): string
    requires n <= |a.es| == |a.ps|
  {
    if n == 0 then Purged(stamp, a.text, a.purged - a.retention)
    else Wrote(stamp, a.retention, TextAt(stamp, a, n - 1), MarkAt(a.marked, a.es, n - 1), a.ps[n - 1], a.es[n - 1])
  }

  /** The lines that would be there if every purge were the full filter. */
  function FilteredAt(stamp: Stamp, a: Life, n: nat): seq<string>
    requires n <= |a.es|
  {
    LinesAt(stamp, a.retention, Kept(stamp, FileLines(a.text), a.purged - a.retention), a.marked, a.es, n)
  }

  /**
   * Over any run, a log whose stamps never decrease holds after every Write exactly the lines the full
   * filter would have left, although most purges look only at the first line.
   */
  lemma {:induction false} RunRefines(stamp: Stamp, a: Life, n: nat)
    requires IgnoresNewline(stamp) && InTimeOrder(stamp, a) && n <= |a.es|
    ensures Holds(stamp, TextAt(stamp, a, n), FilteredAt(stamp, a, n), Added(a.es[n..]))
    decreases n
  {
    if n == 0 {
      assert a.es[0..] == a.es;
      OpenHolds(stamp, a.text, a.purged - a.retention, Added(a.es));
    } else {
      var k := n - 1;
      RunRefines(stamp, a, k);
      AddedSince(a.es, k);
      assert TextOf(a.ps[k], a.es[k]);
      RefinesNext(stamp, a.retention, TextAt(stamp, a, k), FilteredAt(stamp, a, k), MarkAt(a.marked, a.es, k),
                  a.ps[k], a.es[k], Added(a.es[k..]), Added(a.es[n..]));
    }
  }

  /** What the opening purge leaves: the lines in its window. */
  lemma OpenHolds(stamp: Stamp, text: string, cutoff: Time, later: seq<string>)
    requires IgnoresNewline(stamp) && Holds(stamp, text, FileLines(text), later)
    ensures Holds(stamp, Purged(stamp, text, cutoff), Kept(stamp, FileLines(text), cutoff), later)
  {
    PrefixInOrder(stamp, FileLines(text), later);
    PurgedLines(stamp, text, cutoff);
    KeptInOrder(stamp, FileLines(text), later, cutoff);
  }

  lemma RefinesNext(stamp: Stamp, retention: Time, text: string, lines: seq<string>, mark: Time, p: string, e: Entry<string>,
                    before: seq<string>, later: seq<string>)
    requires IgnoresNewline(stamp) && Holds(stamp, text, lines, before) && before == e.lines + later && TextOf(p, e)
    ensures Holds(stamp, Wrote(stamp, retention, text, mark, p, e), After(stamp, retention, lines, mark, e), later)
  {
    PrefixInOrder(stamp, lines, before);
    WriteStaysInOrder(stamp, retention, lines, mark, e, later);
    WriteRefines(stamp, retention, text, mark, p, e);
  }

  /** After the n-th Write no line is stamped more than the retention, an hour and `margin` before it. */
  predicate Within(stamp: Stamp, a: Life, margin: int, n: nat)
    requires 0 < n <= |a.es| == |a.ps|
  {
    AllFresh(stamp, FileLines(TextAt(stamp, a, n)), a.es[n - 1].tested - a.retention - 3_600_000_000_000 - margin)
  }

  lemma HoldsFresh(stamp: Stamp, text: string, lines: seq<string>, later: seq<string>, cutoff: Time)
    requires Holds(stamp, text, lines, later) && AllFresh(stamp, lines, cutoff)
    ensures AllFresh(stamp, FileLines(text), cutoff)
  {
  }

  /**
   * From opening, over any run: after a Write at t no line of the file is stamped more than the
   * retention and an hour before t, give or take the time the opening took between its two readings
   * of the clock, less one tick.
   */
  lemma LoggerKeepsWindow(stamp: Stamp, a: Life, n: nat)
    requires IgnoresNewline(stamp) && Orderly(stamp, a) && 0 < n <= |a.es|
    ensures Within(stamp, a, a.marked - a.purged - 1, n)
  {
    RunRefines(stamp, a, n);
    FilteredInWindow(stamp, a, n);
    HoldsFresh(stamp, TextAt(stamp, a, n), FilteredAt(stamp, a, n), Added(a.es[n..]), Bound(a, n));
  }

  /** The oldest stamp allowed after the n-th Write. */
  function Bound(a: Life, n: nat): Time
    requires 0 < n <= |a.es|
  {
    a.es[n - 1].tested - a.retention - PURGE_INTERVAL - (a.marked - a.purged - 1)
  }

  lemma FilteredInWindow(stamp: Stamp, a: Life, n: nat)
    requires Orderly(stamp, a) && 0 < n <= |a.es|
    ensures AllFresh(stamp, FilteredAt(stamp, a, n), Bound(a, n))
  {
    OpenInWindow(stamp, a.retention, FileLines(a.text), a.purged, a.marked);
    LinesInWindow(stamp, a, Kept(stamp, FileLines(a.text), a.purged - a.retention), n);
  }

  lemma LinesInWindow(stamp: Stamp, a: Life, lines: seq<string>, n: nat)
    requires a.purged <= a.marked && Sane(stamp, a.retention, a.marked, a.es) && 0 < n <= |a.es|
    requires InWindow(stamp, a.retention, a.marked - a.purged, lines, a.marked)
    ensures AllFresh(stamp, LinesAt(stamp, a.retention, lines, a.marked, a.es, n), Bound(a, n))
  {
    RunKeepsWindow(stamp, a.retention, a.marked - a.purged, lines, a.marked, a.es, n);
    FreshLater(stamp, LinesAt(stamp, a.retention, lines, a.marked, a.es, n),
               MarkAt(a.marked, a.es, n) - a.retention - (a.marked - a.purged), Bound(a, n));
  }

  lemma WiderWindow(stamp: Stamp, a: Life, margin: int, wider: int, n: nat)
    requires 0 < n <= |a.es| == |a.ps| && margin <= wider && Within(stamp, a, margin, n)
    ensures Within(stamp, a, wider, n)
  {
    FreshLater(stamp, FileLines(TextAt(stamp, a, n)), a.es[n - 1].tested - a.retention - PURGE_INTERVAL - margin,
               a.es[n - 1].tested - a.retention - PURGE_INTERVAL - wider);
  }

  /** The margin holds after every Write in every life of a logger opened with these clock readings. */
  ghost predicate AlwaysWithin(stamp: Stamp, retention: Time, purged: Time, marked: Time, margin: int) {
    forall a: Life, n: nat ::
      Opens(a, retention, purged, marked) && Orderly(stamp, a) && 0 < n <= |a.es| ==> Within(stamp, a, margin, n)
  }

  predicate Opens(a: Life, retention: Time, purged: Time, marked: Time) {
    a.retention == retention && a.purged == purged && a.marked == marked
  }

  lemma EveryRunWithin(stamp: Stamp, retention: Time, purged: Time, marked: Time, margin: int)
    requires IgnoresNewline(stamp) && marked - purged - 1 <= margin
    ensures AlwaysWithin(stamp, retention, purged, marked, margin)
  {
    forall a: Life, n: nat | Opens(a, retention, purged, marked) && Orderly(stamp, a) && 0 < n <= |a.es|
      ensures Within(stamp, a, margin, n)
    {
      LoggerKeepsWindow(stamp, a, n);
      WiderWindow(stamp, a, marked - purged - 1, margin, n);
    }
  }

  /** A Write of nothing, on the last tick before the first hourly purge is due. */
  function LastTick(marked: Time): Entry<string> {
    Entry([], marked + PURGE_INTERVAL - 1, marked + PURGE_INTERVAL - 1, marked + PURGE_INTERVAL - 1)
  }

  /** A log of one line, and that Write. */
  function OneLineLife(retention: Time, line: string, purged: Time, marked: Time): Life {
    Life(retention, line + "\n", purged, marked, [""], [LastTick(marked)])
  }

  /** A line stamped exactly at the opening cutoff is kept, and is as old as the bound just before that purge. */
  lemma OldestLine(stamp: Stamp, retention: Time, line: string, purged: Time, marked: Time, margin: int)
    requires '\n' !in line && stamp(line) == Some(purged - retention) && purged <= marked
    ensures Orderly(stamp, OneLineLife(retention, line, purged, marked))
    ensures Within(stamp, OneLineLife(retention, line, purged, marked), margin, 1) <==> marked - purged - 1 <= margin
  {
    var a := OneLineLife(retention, line, purged, marked);
    OneLine(line);
    OneLineOrderly(stamp, a, line);
    OneLineKept(stamp, line, purged - retention);
    OneLineStays(stamp, a);
    OneLineFresh(stamp, a.text, line, marked - 1 - retention - margin);
  }

  lemma OneLine(line: string)
    requires '\n' !in line
    ensures Terminated(line + "\n") && FileLines(line + "\n") == [line]
  {
    FirstOfJoined(line, "");
    assert "\n" + "" == "\n";
    assert [line] + [] == [line];
  }

  lemma OneLineOrderly(stamp: Stamp, a: Life, line: string)
    requires Terminated(a.text) && FileLines(a.text) == [line] && a.purged <= a.marked
    requires a.ps == [""] && a.es == [LastTick(a.marked)]
    ensures Orderly(stamp, a)
  {
    assert Added(a.es) == [] by { assert a.es[1..] == []; }
    assert [line] + [] == [line] && [line][1..] == [];
    assert TextOf("", a.es[0]) && SaneEntry(stamp, a.retention, a.marked, a.es[0]);
  }

  lemma OneLineKept(stamp: Stamp, line: string, cutoff: Time)
    requires '\n' !in line && Fresh(stamp, line, cutoff)
    ensures Purged(stamp, line + "\n", cutoff) == line + "\n"
  {
    OneLine(line);
    assert [line][1..] == [] && Kept(stamp, [line], cutoff) == [line];
    assert Written([line]) == line + "\n" + "";
  }

  lemma OneLineStays(stamp: Stamp, a: Life)
    requires a.ps == [""] && a.es == [LastTick(a.marked)] && Purged(stamp, a.text, a.purged - a.retention) == a.text
    ensures TextAt(stamp, a, 1) == a.text
  {
    assert TextAt(stamp, a, 0) == a.text;
    assert a.text + "" == a.text;
  }

  lemma OneLineFresh(stamp: Stamp, text: string, line: string, bound: Time)
    requires FileLines(text) == [line] && stamp(line).Some?
    ensures AllFresh(stamp, FileLines(text), bound) <==> stamp(line).value >= bound
  {
    assert [line][1..] == [] && (AllFresh(stamp, [line], bound) <==> Fresh(stamp, line, bound));
  }

  /**
   * The window, exactly: a margin holds over every run opened with these two clock readings if and
   * only if it is at least the time between them less one tick. So the plain window, retention and an
   * hour, always holds exactly when the readings are at most one tick apart.
   */
  lemma WindowExact(stamp: Stamp, retention: Time, line: string, purged: Time, marked: Time, margin: int)
    requires IgnoresNewline(stamp) && purged <= marked
    requires '\n' !in line && stamp(line) == Some(purged - retention)
    ensures AlwaysWithin(stamp, retention, purged, marked, margin) <==> marked - purged - 1 <= margin
  {
    if marked - purged - 1 <= margin {
      EveryRunWithin(stamp, retention, purged, marked, margin);
    } else {
      OldestLine(stamp, retention, line, purged, marked, margin);
      assert Opens(OneLineLife(retention, line, purged, marked), retention, purged, marked);
      assert !AlwaysWithin(stamp, retention, purged, marked, margin);
    }
  }

  class Logger {
    const retention: Time
    const parse: Parser
    var text: string
    var lastPurge: Time

    /** `open`: the first purge uses the clock at `purged`; the throttle starts at `marked`. */
    constructor (parse: Parser, retention: Time, text: string, purged: Time, marked: Time)
      ensures this.parse == parse && this.retention == retention
      ensures this.text == Purged(StampOf(parse), text, purged - retention) && lastPurge == marked
    {
      this.parse, this.retention, this.text, this.lastPurge := parse, retention, text, marked;
      new;
      PurgeIfStale(purged);
    }

    method Write(p: string, tested: Time, marked: Time, purged: Time)
      modifies this
      ensures var e := Entry(FileLines(p), tested, marked, purged);
        text == Wrote(StampOf(parse), retention, old(text), old(lastPurge), p, e) && lastPurge == Marked(old(lastPurge), e)
      ensures var due := tested - old(lastPurge) >= 3_600_000_000_000;
        && lastPurge == (if due then marked else old(lastPurge))
        && text == (if due then Purged(StampOf(parse), old(text), purged - retention) else old(text)) + p
    {
      if tested - lastPurge >= PURGE_INTERVAL {
        lastPurge := marked;
        PurgeIfStale(purged);
      }
      text := text + p;
    }

    /** Leaves the file alone if its first line is in the window; else drops exactly the lines that are not. */
    method PurgeIfStale(now: Time)
      modifies this`text
      ensures text == Purged(StampOf(parse), old(text), now - retention)
      ensures if old(text) == "" || WrittenSince(parse, FirstRead(old(text)), now - retention) then text == old(text)
              else NoneWrittenBefore(parse, FileLines(old(text)), FileLines(text), now - retention)
    {
      PurgeScans(parse, text, now - retention);
      PurgeBefore(now - retention);
    }

    /**
     * Reads the first line; unless it is in the window, collects every line worth keeping, truncates
     * the file and writes them back.
     */
    method PurgeBefore(cutoff: Time)
      modifies this`text
      ensures text == Purged(StampOf(parse), old(text), cutoff)
    {
      var first := FirstRead(text);
      if first == "" {
        return;
      }
      var t := ParseLogTime(parse, first);
      if t.Some? && t.value >= cutoff {
        return;
      }
      var keep := FreshLines(text, cutoff);
      WriteBack(keep);
    }

    /** Truncates the file and prints the lines to it. */
    method WriteBack(keep: seq<string>)
      modifies this`text
      ensures text == Written(keep)
    {
      text := "";
      for i := 0 to |keep|
        invariant text + Written(keep[i..]) == Written(keep)
      {
        WrittenStep(text, keep, i);
        text := text + keep[i] + "\n";
      }
      assert keep[|keep|..] == [];
    }

    /** The scan: read a line, trim its newline, keep it if it is in the window or does not parse. */
    method FreshLines(text: string, cutoff: Time) returns (keep: seq<string>)
      ensures keep == Kept(StampOf(parse), FileLines(text), cutoff)
      ensures NoneWrittenBefore(parse, FileLines(text), keep, cutoff)
    {
      KeptAreNotWrittenBefore(parse, FileLines(text), cutoff);
      keep := [];
      var rest := text;
      ghost var all := Kept(StampOf(parse), FileLines(text), cutoff);
      while rest != ""
        invariant Scanned(StampOf(parse), keep, rest, cutoff, all)
        decreases |rest|
      {
        ScanKeeps(StampOf(parse), keep, rest, cutoff, all);
        var line := FirstRead(rest);
        var trimmed := Trimmed(line);
        var t := ParseLogTime(parse, trimmed);
        if t.None? || t.value >= cutoff {
          keep := keep + [trimmed];
        }
        rest := rest[|line|..];
      }
    }
  }

  lemma ScanStep(stamp: Stamp, rest: string, cutoff: Time)
    requires rest != ""
    ensures var line := FirstRead(rest);
      && 0 < |line| <= |rest|
      && Kept(stamp, FileLines(rest), cutoff) == KeptOne(stamp, Trimmed(line), cutoff) + Kept(stamp, FileLines(rest[|line|..]), cutoff)
  {
    var n := IndexOf(rest, '\n');
    IndexOfFinds(rest, '\n');
    if n < |rest| {
      assert rest[..n + 1][..n] == rest[..n];
      HeadTail(rest[..n], FileLines(rest[n + 1..]));
    } else {
      assert rest[..n] == rest && rest[|rest|..] == "";
    }
  }

  /** The scan's invariant: what is kept so far and what the rest will yield is the whole. */
  ghost predicate Scanned(stamp: Stamp, keep: seq<string>, rest: string, cutoff: Time, all: seq<string>) {
    keep + Kept(stamp, FileLines(rest), cutoff) == all
  }

  lemma ScanKeeps(stamp: Stamp, keep: seq<string>, rest: string, cutoff: Time, all: seq<string>)
    requires rest != "" && Scanned(stamp, keep, rest, cutoff, all)
    ensures var line := FirstRead(rest);
      && 0 < |line| <= |rest|
      && Scanned(stamp, if Fresh(stamp, Trimmed(line), cutoff) then keep + [Trimmed(line)] else keep, rest[|line|..], cutoff, all)
  {
    ScanStep(stamp, rest, cutoff);
    var line := FirstRead(rest);
    Assoc(keep, KeptOne(stamp, Trimmed(line), cutoff), Kept(stamp, FileLines(rest[|line|..]), cutoff));
    assert keep + [] == keep;
  }

  lemma WrittenStep(text: string, keep: seq<string>, i: nat)
    requires i < |keep|
    ensures text + keep[i] + "\n" + Written(keep[i + 1..]) == text + Written(keep[i..])
  {
    assert keep[i..][1..] == keep[i + 1..];
    assert Written(keep[i..]) == keep[i] + "\n" + Written(keep[i + 1..]);
  }
}
