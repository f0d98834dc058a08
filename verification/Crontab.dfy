/** Parsing, printing and editing of a crontab's text. */
module Crontab {
  import opened Prelude
  import opened CronText
  import opened Text

  datatype CronEntry = CronEntry(
    minute: string, hour: string, dayOfMonth: string, month: string, dayOfWeek: string,
    command: string, enabled: bool, raw: string)

  datatype CronResult = CronResult(entries: seq<CronEntry>, passthroughs: seq<string>)

  /** What the parser makes of a line; a line it can make nothing of is in neither list. */
  datatype Kind = Entry(entry: CronEntry) | Passthrough | Ignored

  const DISABLED := "#[disabled] "

  predicate NameChar(c: char) {
    'A' <= c <= 'Z' || 'a' <= c <= 'z' || '0' <= c <= '9' || c == '_'
  }

  /** NAME=value. */
  predicate IsEnvVar(line: string) {
    var n := IndexOf(line, '=');
    0 < n < |line| && forall i :: 0 <= i < n ==> NameChar(line[i])
  }

  function ParseCronLine(line: string): Option<CronEntry> {
    var f := Fields(line);
    if |f| < 6 then None
    else Some(CronEntry(f[0], f[1], f[2], f[3], f[4], Join(f[5..], " "), false, ""))
  }

  function PlainLine(e: CronEntry): string {
    e.minute + " " + (e.hour + " " + (e.dayOfMonth + " " + (e.month + " " + (e.dayOfWeek + " " + e.command))))
  }

  function BuildLine(e: CronEntry): string {
    if e.enabled then PlainLine(e) else DISABLED + PlainLine(e)
  }

  function Classify(line: string): Kind {
    if HasPrefix(line, DISABLED) then
      match ParseCronLine(line[|DISABLED|..])
      case Some(e) => Entry(e.(enabled := false, raw := line))
      case None => Passthrough
    else if HasPrefix(line, "#") || IsEnvVar(line) then Passthrough
    else match ParseCronLine(line)
      case Some(e) => Entry(e.(enabled := true, raw := line))
      case None => Ignored
  }

  /** The editor's own test of a line. */
  predicate IsCronEntry(line: string) {
    if HasPrefix(line, DISABLED) then ParseCronLine(line[|DISABLED|..]).Some?
    else if HasPrefix(line, "#") || IsEnvVar(line) then false
    else ParseCronLine(line).Some?
  }

  /** The pieces without trailing carriage returns and without blank lines. */
  function Clean(pieces: seq<string>): seq<string> {
    if pieces == [] then []
    else
      var line := TrimRight(pieces[|pieces| - 1], '\r');
      Clean(pieces[..|pieces| - 1]) + if line == "" then [] else [line]
  }

  function Lines(text: string): seq<string> {
    Clean(SplitLines(text))
  }

  function Collect(lines: seq<string>): CronResult {
    if lines == [] then CronResult([], [])
    else
      var line := lines[|lines| - 1];
      var r := Collect(lines[..|lines| - 1]);
      match Classify(line)
      case Entry(e) => r.(entries := r.entries + [e])
      case Passthrough => r.(passthroughs := r.passthroughs + [line])
      case Ignored => r
  }

  function Parse(text: string): CronResult {
    Collect(Lines(text))
  }

  /** The i-th entry line replaced, or dropped for None. */
  function Edit(lines: seq<string>, i: int, entry: Option<CronEntry>): seq<string> {
    if lines == [] then []
    else
      var n := |lines| - 1;
      Edit(lines[..n], i, entry)
      + if IsCronEntry(lines[n]) && |Collect(lines[..n]).entries| == i
        then (match entry case Some(e) => [BuildLine(e)] case None => [])
        else [lines[n]]
  }

  function Render(lines: seq<string>): string {
    if lines == [] then "" else Join(lines, "\n") + "\n"
  }

  lemma EditSnoc(lines: seq<string>, line: string, i: int, entry: Option<CronEntry>)
    ensures |Collect(lines + [line]).entries| == |Collect(lines).entries| + if IsCronEntry(line) then 1 else 0
    ensures Edit(lines + [line], i, entry)
         == Edit(lines, i, entry)
            + if IsCronEntry(line) && |Collect(lines).entries| == i
              then (match entry case Some(e) => [BuildLine(e)] case None => [])
              else [line]
  {
    assert (lines + [line])[..|lines|] == lines;
    EntryTest(line);
  }

  lemma CleanSnoc(pieces: seq<string>, i: nat)
    requires i < |pieces|
    ensures var line := TrimRight(pieces[i], '\r');
      Clean(pieces[..i + 1]) == if line == "" then Clean(pieces[..i]) else Clean(pieces[..i]) + [line]
  {
    assert pieces[..i + 1][..i] == pieces[..i];
    assert Clean(pieces[..i]) + [] == Clean(pieces[..i]);
  }

  // ---- What a line means ----

  /** A non-empty name of letters, digits and underscores, then an equals sign. */
  ghost predicate Assignment(line: string) {
    exists n :: 0 < n < |line| && line[n] == '=' && forall i :: 0 <= i < n ==>
      'A' <= line[i] <= 'Z' || 'a' <= line[i] <= 'z' || '0' <= line[i] <= '9' || line[i] == '_'
  }

  lemma EnvVarIsAssignment(line: string)
    ensures IsEnvVar(line) <==> Assignment(line)
  {
    IndexOfFinds(line, '=');
    if Assignment(line) {
      var n :| 0 < n < |line| && line[n] == '=' && forall i :: 0 <= i < n ==>
        'A' <= line[i] <= 'Z' || 'a' <= line[i] <= 'z' || '0' <= line[i] <= '9' || line[i] == '_';
      IndexOfFirst(line, '=', n);
    }
  }

  /** The columns: minute, hour, day of month, month, day of week; the rest is the command. */
  function Columns(words: seq<string>, enabled: bool, line: string): CronEntry
    requires |words| >= 6
  {
    CronEntry(words[0], words[1], words[2], words[3], words[4], Join(words[5..], " "), enabled, line)
  }

  /** The text has the columns of an entry, if it has six words or more; if not, the line is something else. */
  ghost predicate ReadsAs(text: string, enabled: bool, line: string, otherwise: Kind, kind: Kind) {
    exists words :: Spaced(text, words)
      && kind == if |words| >= 6 then Entry(Columns(words, enabled, line)) else otherwise
  }

  /**
   * What a line of a crontab means. Behind the marker, six words or more are a disabled entry; a comment,
   * an assignment and anything else behind the marker passes through; any other line is an entry if it
   * has six words or more, and is ignored if not.
   */
  ghost predicate Means(line: string, kind: Kind) {
    if line == "" then false
    else if HasPrefix(line, "#[disabled] ") then ReadsAs(line[12..], false, line, Passthrough, kind)
    else if line[0] == '#' || Assignment(line) then kind == Passthrough
    else ReadsAs(line, true, line, Ignored, kind)
  }

  lemma FieldsRead(text: string, enabled: bool, line: string, otherwise: Kind)
    ensures ReadsAs(text, enabled, line, otherwise,
                    match ParseCronLine(text)
                    case Some(e) => Entry(e.(enabled := enabled, raw := line))
                    case None => otherwise)
  {
    FieldsSpaced(text);
  }

  lemma ClassifyMeans(line: string)
    requires line != ""
    ensures Means(line, Classify(line))
  {
    EnvVarIsAssignment(line);
    if HasPrefix(line, DISABLED) {
      FieldsRead(line[12..], false, line, Passthrough);
    } else {
      FieldsRead(line, true, line, Ignored);
    }
  }

  lemma LinesMean(text: string)
    ensures forall line :: line in Lines(text) ==> Means(line, Classify(line))
  {
    LinesAreClean(text);
    forall line | line in Lines(text) ensures Means(line, Classify(line)) {
      ClassifyMeans(line);
    }
  }

  // ---- The loops of the source ----

  method IsEnvVarLoop(line: string) returns (r: bool)
    ensures r == IsEnvVar(line)
    ensures r <==> Assignment(line)
  {
    EnvVarIsAssignment(line);
    var eqIdx := IndexOf(line, '=');
    if eqIdx == |line| || eqIdx == 0 {
      return false;
    }
    for i := 0 to eqIdx
      invariant forall k :: 0 <= k < i ==> NameChar(line[k])
    {
      if !NameChar(line[i]) {
        return false;
      }
    }
    return true;
  }

  method ParseCrontab(output: string) returns (result: CronResult)
    ensures result == Parse(output)
    ensures forall line :: line in Lines(output) ==> Means(line, Classify(line))
  {
    LinesMean(output);
    result := CronResult([], []);
    var pieces := SplitLines(output);
    for i := 0 to |pieces|
      invariant result == Collect(Clean(pieces[..i]))
    {
      assert pieces[..i + 1][..i] == pieces[..i];
      ghost var before := Clean(pieces[..i]);
      var line := TrimRight(pieces[i], '\r');
      assert before + [] == before && (before + [line])[..|before|] == before;
      if line == "" {
        continue;
      }
      if HasPrefix(line, DISABLED) {
        match ParseCronLine(line[|DISABLED|..]) {
          case Some(e) => result := result.(entries := result.entries + [e.(enabled := false, raw := line)]);
          case None => result := result.(passthroughs := result.passthroughs + [line]);
        }
        continue;
      }
      if HasPrefix(line, "#") {
        result := result.(passthroughs := result.passthroughs + [line]);
        continue;
      }
      var env := IsEnvVarLoop(line);
      if env {
        result := result.(passthroughs := result.passthroughs + [line]);
        continue;
      }
      match ParseCronLine(line) {
        case Some(e) => result := result.(entries := result.entries + [e.(enabled := true, raw := line)]);
        case None =>
      }
    }
    assert pieces[..|pieces|] == pieces;
  }

  /** The text is these lines, none blank, each ended by a newline; without lines it is empty. */
  ghost predicate FileOf(content: string, lines: seq<string>) {
    && (content == "" <==> lines == []) && "" !in lines
    && (content != "" ==> content[|content| - 1] == '\n')
    && SplitLines(content) == lines + [""]
  }

  /** What is printed in place of the line has no newline in it. */
  predicate OneLine(entry: Option<CronEntry>) {
    entry.Some? ==> '\n' !in BuildLine(entry.value)
  }

  method ReplaceCronEntry(crontab: string, entryIndex: int, newEntry: Option<CronEntry>) returns (content: string)
    ensures content == Render(Edit(Lines(crontab), entryIndex, newEntry))
    ensures OneLine(newEntry) ==> FileOf(content, Edit(Lines(crontab), entryIndex, newEntry))
    ensures Edit(Lines(crontab), entryIndex, newEntry) != [] ==> content != "" && content[|content| - 1] == '\n'
  {
    var out: seq<string> := [];
    var idx := 0;
    var pieces := SplitLines(crontab);
    for i := 0 to |pieces|
      invariant out == Edit(Clean(pieces[..i]), entryIndex, newEntry)
      invariant idx == |Collect(Clean(pieces[..i])).entries|
    {
      CleanSnoc(pieces, i);
      ghost var before := Clean(pieces[..i]);
      var line := TrimRight(pieces[i], '\r');
      if line == "" {
        continue;
      }
      EditSnoc(before, line, entryIndex, newEntry);
      if IsCronEntry(line) {
        if idx == entryIndex {
          if newEntry.Some? {
            out := out + [BuildLine(newEntry.value)];
          }
        } else {
          out := out + [line];
        }
        idx := idx + 1;
      } else {
        out := out + [line];
      }
    }
    assert pieces[..|pieces|] == pieces;
    content := Render(out);
    RenderedFile(crontab, entryIndex, newEntry);
  }

  // ---- Lines ----

  /** The parser and the editor agree on which lines are entries. */
  lemma EntryTest(line: string)
    ensures IsCronEntry(line) <==> Classify(line).Entry?
    ensures Classify(line).Entry? ==> Classify(line).entry.raw == line
  {
  }

  /** A line the splitting of a text can yield. */
  ghost predicate CleanLine(line: string) {
    line != "" && '\n' !in line && line[|line| - 1] != '\r'
  }

  lemma {:induction false} TrimRightClean(s: string)
    requires '\n' !in s
    ensures TrimRight(s, '\r') == "" || CleanLine(TrimRight(s, '\r'))
    decreases |s|
  {
    if s != "" && s[|s| - 1] == '\r' {
      TrimRightClean(s[..|s| - 1]);
    }
  }

  lemma {:induction false} CleanLines(pieces: seq<string>)
    requires forall i :: 0 <= i < |pieces| ==> '\n' !in pieces[i]
    ensures forall i :: 0 <= i < |Clean(pieces)| ==> CleanLine(Clean(pieces)[i])
    decreases |pieces|
  {
    if pieces != [] {
      CleanLines(pieces[..|pieces| - 1]);
      TrimRightClean(pieces[|pieces| - 1]);
    }
  }

  lemma LinesAreClean(text: string)
    ensures forall i :: 0 <= i < |Lines(text)| ==> CleanLine(Lines(text)[i])
  {
    SplitPieces(text);
    CleanLines(SplitLines(text));
  }

  lemma {:induction false} CleanAppend(a: seq<string>, b: seq<string>)
    ensures Clean(a + b) == Clean(a) + Clean(b)
    decreases |b|
  {
    if b == [] {
      assert a + b == a;
    } else {
      assert (a + b)[..|a + b| - 1] == a + b[..|b| - 1];
      CleanAppend(a, b[..|b| - 1]);
    }
  }

  /** A newline separates the lines before it from the lines after it. */
  lemma {:induction false} SplitAppend(a: string, b: string)
    ensures SplitLines(a + "\n" + b) == SplitLines(a) + SplitLines(b)
    decreases |a|
  {
    if a == "" {
      SplitConcat("", b);
    } else {
      assert (a + "\n" + b)[1..] == a[1..] + "\n" + b;
      SplitAppend(a[1..], b);
    }
  }

  lemma LinesAppend(a: string, b: string)
    ensures Lines(a + "\n" + b) == Lines(a) + Lines(b)
  {
    SplitAppend(a, b);
    CleanAppend(SplitLines(a), SplitLines(b));
  }

  lemma LinesOfLine(line: string)
    requires CleanLine(line)
    ensures Lines(line) == [line]
  {
    SplitNone(line);
    assert [line][..0] == [] && Clean([]) + [line] == [line];
  }

  function Returns(n: nat): string {
    seq(n, _ => '\r')
  }

  lemma {:induction false} TrimReturns(line: string, n: nat)
    requires line == "" || line[|line| - 1] != '\r'
    ensures TrimRight(line + Returns(n), '\r') == line
    decreases n
  {
    if n == 0 {
      assert line + Returns(0) == line;
    } else {
      assert (line + Returns(n))[..|line| + n - 1] == line + Returns(n - 1);
      TrimReturns(line, n - 1);
    }
  }

  /** Between newlines, a line is the text without carriage returns at its end; a blank one does not count. */
  lemma LinesOfPiece(line: string, n: nat)
    requires '\n' !in line && (line == "" || line[|line| - 1] != '\r')
    ensures Lines(line + Returns(n)) == if line == "" then [] else [line]
  {
    TrimReturns(line, n);
    SplitNone(line + Returns(n));
    assert [line + Returns(n)][..0] == [];
  }

  lemma {:induction false} SplitNone(line: string)
    requires '\n' !in line
    ensures SplitLines(line) == [line]
    decreases |line|
  {
    if line != "" {
      SplitNone(line[1..]);
      assert [line[0]] + line[1..] == line;
    }
  }

  /** Rendering clean lines and splitting again gives them back. */
  lemma {:induction false} LinesOfRender(lines: seq<string>)
    requires forall i :: 0 <= i < |lines| ==> CleanLine(lines[i])
    ensures Lines(Render(lines)) == lines
    decreases |lines|
  {
    if lines != [] {
      LinesOfJoin(lines);
      LinesAppend(Join(lines, "\n"), "");
      assert Join(lines, "\n") + "\n" + "" == Render(lines);
      assert [""][..0] == [];
    } else {
      assert [""][..0] == [];
    }
  }

  lemma {:induction false} LinesOfJoin(lines: seq<string>)
    requires lines != [] && forall i :: 0 <= i < |lines| ==> CleanLine(lines[i])
    ensures Lines(Join(lines, "\n")) == lines
    decreases |lines|
  {
    LinesOfLine(lines[0]);
    if |lines| > 1 {
      LinesOfJoin(lines[1..]);
      LinesAppend(lines[0], Join(lines[1..], "\n"));
    }
  }

  lemma {:induction false} SplitRendered(lines: seq<string>)
    requires lines != [] && forall i :: 0 <= i < |lines| ==> '\n' !in lines[i]
    ensures SplitLines(Join(lines, "\n") + "\n") == lines + [""]
    decreases |lines|
  {
    if |lines| == 1 {
      SplitConcat(lines[0], "");
      assert lines[0] + "\n" + "" == lines[0] + "\n";
    } else {
      var rest := Join(lines[1..], "\n");
      SplitRendered(lines[1..]);
      SplitConcat(lines[0], rest + "\n");
      assert Join(lines, "\n") + "\n" == lines[0] + "\n" + (rest + "\n");
      assert lines == [lines[0]] + lines[1..];
    }
  }

  lemma {:induction false} EditHasNoBreaks(lines: seq<string>, i: int, entry: Option<CronEntry>)
    requires OneLine(entry) && forall k :: 0 <= k < |lines| ==> '\n' !in lines[k] && lines[k] != ""
    ensures forall k :: 0 <= k < |Edit(lines, i, entry)| ==> '\n' !in Edit(lines, i, entry)[k] && Edit(lines, i, entry)[k] != ""
    decreases |lines|
  {
    if lines != [] {
      EditHasNoBreaks(lines[..|lines| - 1], i, entry);
    }
  }

  /** What an edit writes: the edited lines, none of them blank, each ended by a newline. */
  lemma RenderedFile(text: string, i: int, entry: Option<CronEntry>)
    ensures OneLine(entry) ==> FileOf(Render(Edit(Lines(text), i, entry)), Edit(Lines(text), i, entry))
  {
    if OneLine(entry) {
      LinesAreClean(text);
      EditHasNoBreaks(Lines(text), i, entry);
      RenderIsFile(Edit(Lines(text), i, entry));
    }
  }

  lemma RenderIsFile(lines: seq<string>)
    requires forall k :: 0 <= k < |lines| ==> '\n' !in lines[k] && lines[k] != ""
    ensures FileOf(Render(lines), lines)
  {
    if lines != [] {
      SplitRendered(lines);
    }
  }

  // ---- Printing and parsing one line ----

  /** What makes an entry printable as one line that has its fields: words, and a single-spaced command. */
  predicate WellFormed(e: CronEntry) {
    && IsWord(e.minute) && IsWord(e.hour) && IsWord(e.dayOfMonth) && IsWord(e.month) && IsWord(e.dayOfWeek)
    && Fields(e.command) != [] && Join(Fields(e.command), " ") == e.command
  }

  /** The minute does not make the printed line a comment or an assignment. */
  predicate MinuteOk(minute: string) {
    !HasPrefix(minute, "#") && !IsEnvVar(minute)
  }

  /** The printed line after the minute and its blank. */
  function AfterMinute(e: CronEntry): string {
    e.hour + " " + (e.dayOfMonth + " " + (e.month + " " + (e.dayOfWeek + " " + e.command)))
  }

  lemma FieldsAfterMinute(e: CronEntry)
    requires WellFormed(e)
    ensures Fields(AfterMinute(e)) == [e.hour, e.dayOfMonth, e.month, e.dayOfWeek] + Fields(e.command)
  {
    var l5 := e.dayOfWeek + " " + e.command;
    var l4 := e.month + " " + l5;
    var l3 := e.dayOfMonth + " " + l4;
    FieldsCons(e.dayOfWeek, e.command);
    FieldsCons(e.month, l5);
    FieldsCons(e.dayOfMonth, l4);
    FieldsCons(e.hour, l3);
  }

  lemma PlainFields(e: CronEntry)
    requires WellFormed(e)
    ensures Fields(PlainLine(e)) == [e.minute, e.hour, e.dayOfMonth, e.month, e.dayOfWeek] + Fields(e.command)
  {
    FieldsAfterMinute(e);
    FieldsCons(e.minute, AfterMinute(e));
  }

  /** A printed line is the five fields and the command, single-spaced, behind the marker if disabled. */
  lemma PrintsColumns(e: CronEntry)
    ensures BuildLine(e) == (if e.enabled then "" else "#[disabled] ")
      + Join([e.minute, e.hour, e.dayOfMonth, e.month, e.dayOfWeek, e.command], " ")
  {
    assert [e.command][..] == [e.command];
    JoinCons(e.dayOfWeek, [e.command]);
    JoinCons(e.month, [e.dayOfWeek, e.command]);
    JoinCons(e.dayOfMonth, [e.month, e.dayOfWeek, e.command]);
    JoinCons(e.hour, [e.dayOfMonth, e.month, e.dayOfWeek, e.command]);
    JoinCons(e.minute, [e.hour, e.dayOfMonth, e.month, e.dayOfWeek, e.command]);
  }

  lemma JoinCons(w: string, rest: seq<string>)
    requires rest != []
    ensures Join([w] + rest, " ") == w + " " + Join(rest, " ")
  {
  }

  /** Print then parse: the five fields and the command come back. */
  lemma ParsePlain(e: CronEntry)
    requires WellFormed(e)
    ensures ParseCronLine(PlainLine(e)) == Some(e.(enabled := false, raw := ""))
  {
    PlainFields(e);
    var f := Fields(PlainLine(e));
    assert f[5..] == Fields(e.command);
  }

  /** Only the minute can make a printed line an assignment: the blank after it is not a name character. */
  lemma EnvVarIsMinute(e: CronEntry)
    requires WellFormed(e)
    ensures IsEnvVar(PlainLine(e)) <==> IsEnvVar(e.minute)
  {
    var rest := " " + (e.hour + " " + (e.dayOfMonth + " " + (e.month + " " + (e.dayOfWeek + " " + e.command))));
    assert PlainLine(e) == e.minute + rest;
    IndexOfExtended(e.minute, rest, '=');
    var n := IndexOf(e.minute, '=');
    if n == |e.minute| {
      assert PlainLine(e)[n] == ' ' && !NameChar(' ');
    } else {
      assert forall i :: 0 <= i < n ==> PlainLine(e)[i] == e.minute[i];
    }
  }

  /** Whatever the parser returns is well-formed, whatever the spacing of the line was. */
  lemma ParsedIsWellFormed(line: string)
    requires ParseCronLine(line).Some?
    ensures WellFormed(ParseCronLine(line).value)
  {
    FieldsAreWords(line);
    FieldsJoin(Fields(line)[5..]);
  }

  lemma PrintParseWellFormed(e: CronEntry)
    requires WellFormed(e)
    ensures Classify(BuildLine(e)) == Entry(e.(raw := BuildLine(e))) <==> !e.enabled || MinuteOk(e.minute)
  {
    ParsePlain(e);
    EnvVarIsMinute(e);
    var plain := PlainLine(e);
    assert plain[0] == e.minute[0];
    if e.enabled {
      assert HasPrefix(plain, "#") <==> HasPrefix(e.minute, "#");
      if HasPrefix(plain, DISABLED) {
        assert plain[0] == DISABLED[0];
      }
    } else {
      assert (DISABLED + plain)[|DISABLED|..] == plain;
    }
  }

  /** The entry survives printing and parsing. */
  predicate Printable(e: CronEntry) {
    WellFormed(e) && (e.enabled ==> MinuteOk(e.minute))
  }

  /**
   * The round trip, exactly: the line printed for an entry parses back to that entry if and only if
   * the entry is well-formed and, when enabled, its minute starts neither a comment nor an assignment.
   */
  lemma PrintParse(e: CronEntry)
    ensures Classify(BuildLine(e)) == Entry(e.(raw := BuildLine(e))) <==> Printable(e)
  {
    var line := BuildLine(e);
    if WellFormed(e) {
      PrintParseWellFormed(e);
    } else if Classify(line).Entry? {
      ParsedIsWellFormed(if HasPrefix(line, DISABLED) then line[|DISABLED|..] else line);
      assert WellFormed(Classify(line).entry);
    }
  }

  /** Rewriting a parsed entry with either flag restores its fields, exactly when the minute allows it. */
  lemma RebuildParsed(line: string, enabled: bool)
    requires Classify(line).Entry?
    ensures var e := Classify(line).entry.(enabled := enabled);
      Classify(BuildLine(e)) == Entry(e.(raw := BuildLine(e))) <==> !enabled || MinuteOk(e.minute)
  {
    ParsedIsWellFormed(if HasPrefix(line, DISABLED) then line[|DISABLED|..] else line);
    PrintParse(Classify(line).entry.(enabled := enabled));
  }

  /** A printable entry prints as one line of a crontab. */
  lemma PrintedLineIsClean(e: CronEntry)
    requires WellFormed(e)
    ensures CleanLine(BuildLine(e))
  {
    var words := Fields(e.command);
    FieldsAreWords(e.command);
    JoinIsClean(words);
    assert BuildLine(e)[|BuildLine(e)| - 1] == e.command[|e.command| - 1];
    assert '\n' !in DISABLED && '\n' !in PlainLine(e);
  }

  lemma {:induction false} JoinIsClean(words: seq<string>)
    requires words != [] && forall i :: 0 <= i < |words| ==> IsWord(words[i])
    ensures CleanLine(Join(words, " "))
    decreases |words|
  {
    if |words| > 1 {
      JoinIsClean(words[1..]);
      assert Join(words, " ") == words[0] + " " + Join(words[1..], " ");
    }
  }

  /** A blank-free minute can only complete the disabled marker by being its word. */
  lemma MarkerIsMinute(e: CronEntry)
    requires WellFormed(e) && HasPrefix(PlainLine(e), DISABLED)
    ensures e.minute == "#[disabled]"
  {
    var plain, n := PlainLine(e), |e.minute|;
    assert plain[n] == ' ' && forall i :: 0 <= i < n ==> plain[i] == e.minute[i];
    assert forall i :: 0 <= i < 12 ==> plain[i] == plain[..12][i];
    assert plain[11] == ' ' && forall i :: 0 <= i < 11 ==> plain[i] != ' ';
    assert n == 11;
    assert e.minute == DISABLED[..11];
  }

  /**
   * What an enabled entry with a failing minute becomes when its line is rewritten: a disabled entry of
   * the fields after the marker, if the minute is the marker's word and enough fields follow it; else a
   * comment or an assignment.
   */
  function Misread(e: CronEntry): Kind {
    var words := Fields(e.command);
    if e.minute == "#[disabled]" && |words| >= 2
    then Entry(CronEntry(e.hour, e.dayOfMonth, e.month, e.dayOfWeek, words[0], Join(words[1..], " "), false, PlainLine(e)))
    else Passthrough
  }

  lemma MarkerSplits(e: CronEntry)
    requires e.minute == "#[disabled]"
    ensures HasPrefix(PlainLine(e), DISABLED) && PlainLine(e)[|DISABLED|..] == AfterMinute(e)
  {
    var line := PlainLine(e);
    assert line == DISABLED + AfterMinute(e) && line[|DISABLED|..] == AfterMinute(e);
  }

  lemma MarkerMisread(e: CronEntry)
    requires WellFormed(e) && e.minute == "#[disabled]"
    ensures Classify(PlainLine(e)) == Misread(e)
  {
    var f, words := Fields(AfterMinute(e)), Fields(e.command);
    FieldsAfterMinute(e);
    MarkerSplits(e);
    assert words != [];
    if |words| >= 2 {
      assert f[4] == words[0] && f[5..] == words[1..];
    }
  }

  lemma OtherMisread(e: CronEntry)
    requires WellFormed(e) && !MinuteOk(e.minute) && e.minute != "#[disabled]"
    ensures Classify(PlainLine(e)) == Misread(e)
  {
    EnvVarIsMinute(e);
    if HasPrefix(PlainLine(e), DISABLED) {
      MarkerIsMinute(e);
    }
    assert PlainLine(e)[0] == e.minute[0];
  }

  /** A leading blank hides the minute from the tests of a line's first character and name. */
  lemma HiddenMinute(e: CronEntry)
    requires WellFormed(e) && e.enabled
    ensures Classify(" " + PlainLine(e)) == Entry(e.(raw := " " + PlainLine(e)))
  {
    var line := " " + PlainLine(e);
    ParsePlain(e);
    assert line[0] == ' ' && line[1..] == PlainLine(e);
    assert !HasPrefix(line, DISABLED) by { assert DISABLED[0] == '#'; }
    assert !HasPrefix(line, "#") && !IsEnvVar(line) by { assert !NameChar(line[0]); }
  }

  /**
   * The whole failing family is reachable: behind a leading blank the parser reports the entry, and
   * rewriting that entry turns its line into something else.
   */
  lemma LostByRewriting(e: CronEntry)
    requires WellFormed(e) && e.enabled && !MinuteOk(e.minute)
    ensures var line := " " + PlainLine(e);
      && Classify(line) == Entry(e.(raw := line))
      && Classify(BuildLine(Classify(line).entry)) == Misread(e)
      && Misread(e) != Entry(e.(raw := BuildLine(e)))
  {
    HiddenMinute(e);
    if e.minute == "#[disabled]" {
      MarkerMisread(e);
    } else {
      OtherMisread(e);
    }
    RewritesPlain(e);
  }

  lemma RewritesPlain(e: CronEntry)
    requires e.enabled && Classify(" " + PlainLine(e)) == Entry(e.(raw := " " + PlainLine(e)))
    ensures BuildLine(Classify(" " + PlainLine(e)).entry) == PlainLine(e)
  {
  }

  // ---- Editing by index ----

  /** Every parsed entry is what its own raw line parses to. */
  lemma {:induction false} EntriesFromLines(lines: seq<string>)
    ensures forall e :: e in Collect(lines).entries ==> e.raw in lines && Classify(e.raw) == Entry(e)
    decreases |lines|
  {
    if lines != [] {
      EntriesFromLines(lines[..|lines| - 1]);
      assert lines == lines[..|lines| - 1] + [lines[|lines| - 1]];
      EntryTest(lines[|lines| - 1]);
    }
  }

  /** The lines the editor counts are exactly the raw lines of the parsed entries, in order. */
  function EntryLines(lines: seq<string>): seq<string> {
    if lines == [] then []
    else
      var n := |lines| - 1;
      EntryLines(lines[..n]) + if IsCronEntry(lines[n]) then [lines[n]] else []
  }

  lemma {:induction false} EditorMatchesParser(lines: seq<string>)
    ensures |EntryLines(lines)| == |Collect(lines).entries|
    ensures forall i :: 0 <= i < |EntryLines(lines)| ==> Collect(lines).entries[i].raw == EntryLines(lines)[i]
    decreases |lines|
  {
    if lines != [] {
      EditorMatchesParser(lines[..|lines| - 1]);
      EntryTest(lines[|lines| - 1]);
    }
  }

  lemma CollectSnoc(lines: seq<string>, line: string)
    ensures Collect(lines + [line])
         == match Classify(line)
            case Entry(e) => Collect(lines).(entries := Collect(lines).entries + [e])
            case Passthrough => Collect(lines).(passthroughs := Collect(lines).passthroughs + [line])
            case Ignored => Collect(lines)
  {
    assert (lines + [line])[..|lines|] == lines;
  }

  function Without<T>(xs: seq<T>, i: int): seq<T>
    requires 0 <= i < |xs|
  {
    xs[..i] + xs[i + 1..]
  }

  /** An index past the entries edits nothing. */
  lemma {:induction false} EditOutside(lines: seq<string>, i: int, entry: Option<CronEntry>)
    requires i < 0 || i >= |Collect(lines).entries|
    ensures Edit(lines, i, entry) == lines
    decreases |lines|
  {
    if lines != [] {
      var n := |lines| - 1;
      EntryTest(lines[n]);
      EditOutside(lines[..n], i, entry);
      assert lines == lines[..n] + [lines[n]];
    }
  }

  /** What stands for the edited line. */
  function NewLine(entry: Option<CronEntry>): seq<string> {
    match entry case Some(e) => [BuildLine(e)] case None => []
  }

  /** Line k, the line of the i-th entry, is replaced; all around it stays. */
  ghost predicate EditsAt(lines: seq<string>, i: nat, entry: Option<CronEntry>, k: nat) {
    && k < |lines| && Edit(lines, i, entry) == lines[..k] + NewLine(entry) + lines[k + 1..]
    && i < |EntryLines(lines)| && lines[k] == EntryLines(lines)[i]
  }

  /**
   * An edit touches one line, that of the i-th entry; every other line, comments, assignments and lines
   * the parser ignores included, stays the same and where it was.
   */
  lemma {:induction false} EditInPlace(lines: seq<string>, i: nat, entry: Option<CronEntry>) returns (k: nat)
    requires i < |Collect(lines).entries|
    ensures EditsAt(lines, i, entry, k)
    decreases |lines|
  {
    var n := |lines| - 1;
    var init, line := lines[..n], lines[n];
    assert lines == init + [line];
    EditSnoc(init, line, i, entry);
    if i < |Collect(init).entries| {
      k := EditInPlace(init, i, entry);
      EditBefore(init, line, i, entry, k);
    } else {
      k := n;
      EditHere(init, line, entry);
    }
  }

  lemma EntryLinesSnoc(init: seq<string>, line: string)
    ensures EntryLines(init + [line]) == EntryLines(init) + if IsCronEntry(line) then [line] else []
  {
    assert (init + [line])[..|init|] == init;
  }

  lemma EditBefore(init: seq<string>, line: string, i: nat, entry: Option<CronEntry>, k: nat)
    requires i < |Collect(init).entries| && EditsAt(init, i, entry, k)
    ensures EditsAt(init + [line], i, entry, k)
  {
    var lines := init + [line];
    EditSnoc(init, line, i, entry);
    EntryLinesSnoc(init, line);
    Around(init, line, NewLine(entry), k);
    assert lines[k] == init[k];
  }

  lemma Around<T>(init: seq<T>, last: T, mid: seq<T>, k: nat)
    requires k < |init|
    ensures (init + [last])[..k] + mid + (init + [last])[k + 1..] == init[..k] + mid + init[k + 1..] + [last]
  {
    assert (init + [last])[..k] == init[..k] && (init + [last])[k + 1..] == init[k + 1..] + [last];
  }

  lemma EditHere(init: seq<string>, line: string, entry: Option<CronEntry>)
    requires IsCronEntry(line)
    ensures EditsAt(init + [line], |Collect(init).entries|, entry, |init|)
  {
    var lines, i := init + [line], |Collect(init).entries|;
    EditSnoc(init, line, i, entry);
    EditOutside(init, i, entry);
    EditorMatchesParser(init);
    EntryLinesSnoc(init, line);
    assert lines[..|init|] == init && lines[|init| + 1..] == [];
  }

  /** Removing the entry of the last line leaves what came before it. */
  lemma EditRemovesLast(init: seq<string>, line: string)
    requires IsCronEntry(line)
    ensures Collect(Edit(init + [line], |Collect(init).entries|, None)) == Collect(init)
  {
    var i := |Collect(init).entries|;
    EditSnoc(init, line, i, None);
    EditOutside(init, i, None);
    assert init + [] == init;
  }

  /** Removing the i-th entry line removes the i-th entry and nothing else. */
  lemma {:induction false} EditRemoves(lines: seq<string>, i: nat)
    requires i < |Collect(lines).entries|
    ensures Collect(Edit(lines, i, None))
         == Collect(lines).(entries := Without(Collect(lines).entries, i))
    decreases |lines|
  {
    var n := |lines| - 1;
    var init, line := lines[..n], lines[n];
    EntryTest(line);
    assert lines == init + [line];
    CollectSnoc(init, line);
    if i < |Collect(init).entries| {
      EditRemoves(init, i);
      EditSkipsLast(init, line, i, None, Without(Collect(init).entries, i));
    } else {
      EditRemovesLast(init, line);
    }
  }

  /** Replacing the entry of the last line puts what the new line parses to at the end. */
  lemma EditReplacesLast(init: seq<string>, line: string, e: CronEntry)
    requires IsCronEntry(line) && Printable(e)
    ensures Collect(Edit(init + [line], |Collect(init).entries|, Some(e)))
         == Collect(init).(entries := Collect(init).entries + [e.(raw := BuildLine(e))])
  {
    var i := |Collect(init).entries|;
    PrintParse(e);
    EditSnoc(init, line, i, Some(e));
    EditOutside(init, i, Some(e));
    CollectSnoc(init, BuildLine(e));
  }

  /** An edit before the last line leaves the last line what it is. */
  lemma EditSkipsLast(init: seq<string>, line: string, i: nat, entry: Option<CronEntry>, edited: seq<CronEntry>)
    requires i < |Collect(init).entries| && Collect(Edit(init, i, entry)) == Collect(init).(entries := edited)
    ensures Collect(Edit(init + [line], i, entry))
         == Collect(init + [line]).(entries := edited + Collect(init + [line]).entries[|Collect(init).entries|..])
  {
    EditSnoc(init, line, i, entry);
    CollectSnoc(init, line);
    CollectSnoc(Edit(init, i, entry), line);
  }

  lemma UpdateSplits<T>(xs: seq<T>, k: nat, i: nat, x: T)
    requires i < k <= |xs|
    ensures xs[..k][i := x] + xs[k..] == xs[i := x]
  {
  }

  /** Replacing the i-th entry line replaces the i-th entry by what the new line parses to. */
  lemma {:induction false} EditReplaces(lines: seq<string>, i: nat, e: CronEntry)
    requires i < |Collect(lines).entries| && Printable(e)
    ensures Collect(Edit(lines, i, Some(e)))
         == Collect(lines).(entries := Collect(lines).entries[i := e.(raw := BuildLine(e))])
    decreases |lines|
  {
    var n := |lines| - 1;
    var init, line := lines[..n], lines[n];
    EntryTest(line);
    assert lines == init + [line];
    CollectSnoc(init, line);
    if i < |Collect(init).entries| {
      EditReplaces(init, i, e);
      UpdateSplits(Collect(lines).entries, |Collect(init).entries|, i, e.(raw := BuildLine(e)));
      EditSkipsLast(init, line, i, Some(e), Collect(init).entries[i := e.(raw := BuildLine(e))]);
    } else {
      EditReplacesLast(init, line, e);
    }
  }

  lemma {:induction false} EditIsClean(lines: seq<string>, i: int, entry: Option<CronEntry>)
    requires forall k :: 0 <= k < |lines| ==> CleanLine(lines[k])
    requires entry.Some? ==> WellFormed(entry.value)
    ensures forall k :: 0 <= k < |Edit(lines, i, entry)| ==> CleanLine(Edit(lines, i, entry)[k])
    decreases |lines|
  {
    if lines != [] {
      EditIsClean(lines[..|lines| - 1], i, entry);
      if entry.Some? {
        PrintedLineIsClean(entry.value);
      }
    }
  }

  /** Editing by index means what the parse says: deletion, for every crontab and index in range. */
  lemma DeleteMeansDelete(text: string, i: nat)
    requires i < |Parse(text).entries|
    ensures Parse(Render(Edit(Lines(text), i, None)))
         == Parse(text).(entries := Without(Parse(text).entries, i))
  {
    LinesAreClean(text);
    EditIsClean(Lines(text), i, None);
    LinesOfRender(Edit(Lines(text), i, None));
    EditRemoves(Lines(text), i);
  }

  /**
   * ... and replacement: re-parsing gives the old entries with the i-th replaced by the new entry,
   * and the same passthroughs, exactly when the new entry is printable.
   */
  lemma ReplaceMeansReplace(text: string, i: nat, e: CronEntry)
    requires i < |Parse(text).entries|
    ensures Parse(Render(Edit(Lines(text), i, Some(e))))
         == Parse(text).(entries := Parse(text).entries[i := e.(raw := BuildLine(e))])
        <==> Printable(e)
  {
    var text' := Render(Edit(Lines(text), i, Some(e)));
    var r := e.(raw := BuildLine(e));
    if Printable(e) {
      LinesAreClean(text);
      EditIsClean(Lines(text), i, Some(e));
      LinesOfRender(Edit(Lines(text), i, Some(e)));
      EditReplaces(Lines(text), i, e);
    } else if Parse(text').entries == Parse(text).entries[i := r] {
      assert Parse(text').entries[i] == r;
      EntriesFromLines(Lines(text'));
      PrintParse(e);
    }
  }
}
