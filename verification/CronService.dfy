/** The cron service over one remote crontab, and the browser's copy of its entries. */
module CronService {
  import opened Prelude
  import opened CronText
  import opened Crontab

  datatype CronError = Unreachable | IndexOutOfRange

  /** What Create writes. */
  function Appended(existing: string, line: string): string {
    var content := TrimRight(existing, '\n');
    (if content != "" then content + "\n" else content) + line + "\n"
  }

  /**
   * Adding a line to a crontab: the newlines at its end give way to one, unless it is blank, and the new
   * line follows with its own.
   */
  ghost predicate Appends(before: string, line: string, after: string) {
    exists n :: 0 <= n <= |before| && (forall i :: n <= i < |before| ==> before[i] == '\n')
      && (n > 0 ==> before[n - 1] != '\n')
      && after == (if n == 0 then "" else before[..n] + "\n") + line + "\n"
  }

  lemma {:induction false} TrimRightIs(s: string, c: char)
    ensures var n := |TrimRight(s, c)|;
      && n <= |s| && TrimRight(s, c) == s[..n]
      && (forall i :: n <= i < |s| ==> s[i] == c) && (n > 0 ==> s[n - 1] != c)
    decreases |s|
  {
    if s != "" && s[|s| - 1] == c {
      TrimRightIs(s[..|s| - 1], c);
    }
  }

  lemma AppendedAppends(text: string, line: string)
    ensures Appends(text, line, Appended(text, line))
  {
    TrimRightIs(text, '\n');
  }

  /** The host's crontab; a read or a write may fail, and a failed write changes nothing. */
  class RemoteCrontab {
    var text: string

    constructor (text: string)
      ensures this.text == text
    {
      this.text := text;
    }

    method Create(entry: CronEntry, readOk: bool, writeOk: bool) returns (r: Result<CronEntry, CronError>)
      modifies this
      ensures var e := entry.(enabled := true);
        if readOk && writeOk
        then
          && r == Ok(e.(raw := BuildLine(e)))
          && text == Appended(old(text), BuildLine(e)) && Appends(old(text), BuildLine(e), text)
        else r == Err(Unreachable) && text == old(text)
    {
      if !readOk {
        return Err(Unreachable);
      }
      var e := entry.(enabled := true);
      var newLine := BuildLine(e);
      var content := TrimRight(text, '\n');
      if content != "" {
        content := content + "\n";
      }
      content := content + newLine + "\n";
      if !writeOk {
        return Err(Unreachable);
      }
      AppendedAppends(text, newLine);
      text := content;
      r := Ok(e.(raw := newLine));
    }

    method Update(index: int, entry: CronEntry, readOk: bool, writeOk: bool) returns (r: Result<CronEntry, CronError>)
      modifies this
      ensures
        if !readOk then r == Err(Unreachable) && text == old(text)
        else if index >= |Parse(old(text)).entries| then r == Err(IndexOutOfRange) && text == old(text)
        else if !writeOk then r == Err(Unreachable) && text == old(text)
        else
          && r == Ok(entry.(raw := BuildLine(entry))) && text == Render(Edit(Lines(old(text)), index, Some(entry)))
          && ('\n' !in BuildLine(entry) ==> FileOf(text, Edit(Lines(old(text)), index, Some(entry))))
    {
      if !readOk {
        return Err(Unreachable);
      }
      var parsed := ParseCrontab(text);
      if index >= |parsed.entries| {
        return Err(IndexOutOfRange);
      }
      var content := ReplaceCronEntry(text, index, Some(entry));
      if !writeOk {
        return Err(Unreachable);
      }
      text := content;
      r := Ok(entry.(raw := BuildLine(entry)));
    }

    method Delete(index: int, readOk: bool, writeOk: bool) returns (r: Result<(), CronError>)
      modifies this
      ensures
        if !readOk then r == Err(Unreachable) && text == old(text)
        else if index >= |Parse(old(text)).entries| then r == Err(IndexOutOfRange) && text == old(text)
        else if !writeOk then r == Err(Unreachable) && text == old(text)
        else
          && r == Ok(()) && text == Render(Edit(Lines(old(text)), index, None))
          && FileOf(text, Edit(Lines(old(text)), index, None))
    {
      if !readOk {
        return Err(Unreachable);
      }
      var parsed := ParseCrontab(text);
      if index >= |parsed.entries| {
        return Err(IndexOutOfRange);
      }
      var content := ReplaceCronEntry(text, index, None);
      if !writeOk {
        return Err(Unreachable);
      }
      text := content;
      r := Ok(());
    }
  }

  lemma {:induction false} LinesOfTrimmed(text: string)
    ensures Lines(TrimRight(text, '\n')) == Lines(text)
    decreases |text|
  {
    if text != "" && text[|text| - 1] == '\n' {
      var init := text[..|text| - 1];
      LinesOfTrimmed(init);
      LinesAppend(init, "");
      assert init + "\n" + "" == text;
      assert Lines("") == [] by { assert [""][..0] == []; }
      assert Lines(init) + [] == Lines(init);
    }
  }

  /** Appending keeps every line of the crontab and adds the lines of the new text. */
  lemma LinesOfAppended(text: string, line: string)
    ensures Lines(Appended(text, line)) == Lines(text) + Lines(line)
  {
    var content := TrimRight(text, '\n');
    LinesOfTrimmed(text);
    LinesAppend(line, "");
    assert Lines("") == [] by { assert [""][..0] == []; }
    assert line + "\n" + "" == line + "\n";
    assert Lines(line) + [] == Lines(line);
    if content == "" {
      assert Appended(text, line) == line + "\n";
      assert [] + Lines(line) == Lines(line);
    } else {
      assert Appended(text, line) == content + "\n" + (line + "\n");
      LinesAppend(content, line + "\n");
    }
  }

  // ---- The client's reducer ----

  datatype CronState = CronState(
    result: Option<CronResult>,
    editEntry: Option<CronEntry>,
    editIndex: Option<int>,
    rowErrors: map<int, string>)

  /** entries.map((e, i) => i === index ? entry : e). */
  function Put(entries: seq<CronEntry>, index: int, entry: CronEntry): seq<CronEntry> {
    seq(|entries|, i requires 0 <= i < |entries| => if i == index then entry else entries[i])
  }

  function CronCreated(s: CronState, entry: CronEntry): CronState {
    var r := match s.result
      case None => CronResult([entry], [])
      case Some(c) =>
        if s.editIndex.Some? then c.(entries := Put(c.entries, s.editIndex.value, entry))
        else c.(entries := c.entries + [entry]);
    s.(result := Some(r), editEntry := None, editIndex := None)
  }

  function ToggleOptimistic(s: CronState, index: int): CronState {
    match s.result
    case None => s
    case Some(c) =>
      s.(result := Some(c.(entries := seq(|c.entries|, i requires 0 <= i < |c.entries| =>
        if i == index then c.entries[i].(enabled := !c.entries[i].enabled) else c.entries[i]))))
  }

  /** TOGGLE_CONFIRM and TOGGLE_REVERT: put the given entry at the index. */
  function TogglePut(s: CronState, index: int, entry: CronEntry): CronState {
    match s.result
    case None => s
    case Some(c) => s.(result := Some(c.(entries := Put(c.entries, index, entry))))
  }

  /** Where a row goes when row `index` is deleted, and where a row came from. */
  function Moved(k: int, index: int): int {
    if k < index then k else k - 1
  }

  function Origin(k: int, index: int): int {
    if k < index then k else k + 1
  }

  function Survivors(errors: map<int, string>, index: int): set<int> {
    set j | j in errors && j != index :: Moved(j, index)
  }

  /** The surviving errors, each at its entry's new index. */
  function ReindexErrors(errors: map<int, string>, index: int): map<int, string> {
    map k | k in Survivors(errors, index) :: errors[Origin(k, index)]
  }

  function DeleteCron(s: CronState, index: int): CronState {
    match s.result
    case None => s
    case Some(c) =>
      var kept := if 0 <= index < |c.entries| then Without(c.entries, index) else c.entries;
      s.(result := Some(c.(entries := kept)), rowErrors := ReindexErrors(s.rowErrors, index))
  }

  /** DELETE_CRON's loop over the entries of the old record, in whatever order they are listed. */
  method ReindexLoop(errors: map<int, string>, keys: seq<int>, index: int) returns (out: map<int, string>)
    requires forall k :: k in errors <==> k in keys
    ensures out == ReindexErrors(errors, index)
  {
    out := map[];
    for i := 0 to |keys|
      invariant forall j :: j in keys[..i] && j != index ==> Moved(j, index) in out
      invariant forall k :: k in out ==>
        Origin(k, index) in errors && Origin(k, index) != index && out[k] == errors[Origin(k, index)]
    {
      var k := keys[i];
      if k < index {
        out := out[k := errors[k]];
      } else if k > index {
        out := out[k - 1 := errors[k]];
      }
    }
    assert keys[..|keys|] == keys;
    forall k | k in out ensures k in Survivors(errors, index) {
      assert Moved(Origin(k, index), index) == k;
    }
    assert out.Keys == Survivors(errors, index);
  }

  /** Every surviving row error moves with its entry, and no other error appears. */
  lemma ErrorsMove(errors: map<int, string>, index: int, j: int)
    requires j != index
    ensures j in errors <==> Moved(j, index) in ReindexErrors(errors, index)
    ensures j in errors ==> ReindexErrors(errors, index)[Moved(j, index)] == errors[j]
  {
  }

  // ---- The client agrees with a re-parse ----

  /** Adding: the client's list is the re-parse of what the service wrote, exactly when the entry is printable. */
  lemma CreateCommutes(s: CronState, text: string, entry: CronEntry)
    requires s.result == Some(Parse(text)) && s.editIndex == None
    ensures var e := entry.(enabled := true);
      CronCreated(s, e.(raw := BuildLine(e))).result == Some(Parse(Appended(text, BuildLine(e)))) <==> Printable(e)
    ensures var s' := CronCreated(s, entry.(enabled := true, raw := BuildLine(entry.(enabled := true))));
      s'.editEntry == None && s'.editIndex == None && s'.rowErrors == s.rowErrors
  {
    var e := entry.(enabled := true);
    var line := BuildLine(e);
    var text' := Appended(text, line);
    var r := e.(raw := line);
    var mine := CronCreated(s, r).result.value;
    if Printable(e) {
      PrintedLineIsClean(e);
      LinesOfLine(line);
      LinesOfAppended(text, line);
      PrintParse(e);
      CollectSnoc(Lines(text), line);
    } else if mine == Parse(text') {
      assert mine.entries[|mine.entries| - 1] == r;
      EntriesFromLines(Lines(text'));
      PrintParse(e);
    }
  }

  /** Editing and toggling: the same, with the entry the service returned put at its index. */
  lemma UpdateCommutes(s: CronState, text: string, i: nat, e: CronEntry)
    requires s.result == Some(Parse(text)) && i < |Parse(text).entries|
    ensures (TogglePut(s, i, e.(raw := BuildLine(e))).result
             == Some(Parse(Render(Edit(Lines(text), i, Some(e))))))
            <==> Printable(e)
    ensures s.editIndex == Some(i) ==>
      CronCreated(s, e.(raw := BuildLine(e))).result == TogglePut(s, i, e.(raw := BuildLine(e))).result
  {
    ReplaceMeansReplace(text, i, e);
    assert Put(Parse(text).entries, i, e.(raw := BuildLine(e))) == Parse(text).entries[i := e.(raw := BuildLine(e))];
  }

  /** Toggling an entry of the list commutes unless it enables a minute that a rewritten line cannot start with. */
  lemma ToggleCommutes(s: CronState, text: string, i: nat)
    requires s.result == Some(Parse(text)) && i < |Parse(text).entries|
    ensures var e := Parse(text).entries[i].(enabled := !Parse(text).entries[i].enabled);
      (TogglePut(ToggleOptimistic(s, i), i, e.(raw := BuildLine(e))).result
       == Some(Parse(Render(Edit(Lines(text), i, Some(e))))))
      <==> (!e.enabled || MinuteOk(e.minute))
  {
    var was := Parse(text).entries[i];
    var e := was.(enabled := !was.enabled);
    EntriesFromLines(Lines(text));
    var line := was.raw;
    ParsedIsWellFormed(if HasPrefix(line, DISABLED) then line[|DISABLED|..] else line);
    assert WellFormed(e);
    UpdateCommutes(s, text, i, e);
    PutOverToggle(s, i, e.(raw := BuildLine(e)));
  }

  /** Before the answer comes, the client shows what it will be, the entry's raw line excepted. */
  lemma ToggleAnticipates(s: CronState, text: string, i: nat)
    requires s.result == Some(Parse(text)) && i < |Parse(text).entries|
    requires Parse(text).entries[i].enabled || MinuteOk(Parse(text).entries[i].minute)
    ensures var e := Parse(text).entries[i].(enabled := !Parse(text).entries[i].enabled);
      var shown := ToggleOptimistic(s, i);
      && shown.result.Some? && i < |shown.result.value.entries| && shown == s.(result := shown.result)
      && shown.result.value.entries[i] == e
      && TogglePut(shown, i, shown.result.value.entries[i].(raw := BuildLine(e))).result
         == Some(Parse(Render(Edit(Lines(text), i, Some(e)))))
  {
    ToggleCommutes(s, text, i);
  }

  /** Putting an entry over the optimistically toggled one is putting it over the original. */
  lemma PutOverToggle(s: CronState, i: nat, entry: CronEntry)
    requires s.result.Some? && i < |s.result.value.entries|
    ensures TogglePut(ToggleOptimistic(s, i), i, entry) == TogglePut(s, i, entry)
  {
    assert Put(ToggleOptimistic(s, i).result.value.entries, i, entry) == Put(s.result.value.entries, i, entry);
  }

  /** A failed toggle leaves the client as it was before the optimistic update. */
  lemma RevertUndoes(s: CronState, i: int)
    requires s.result.Some? && 0 <= i < |s.result.value.entries|
    ensures TogglePut(ToggleOptimistic(s, i), i, s.result.value.entries[i]) == s
  {
    var es := s.result.value.entries;
    assert Put(ToggleOptimistic(s, i).result.value.entries, i, es[i]) == es;
  }

  lemma EntriesMove<T>(xs: seq<T>, i: nat, j: nat)
    requires i < |xs| && j < |xs| && j != i
    ensures 0 <= Moved(j, i) < |Without(xs, i)| && Without(xs, i)[Moved(j, i)] == xs[j]
  {
  }

  /** Deleting: the list is the re-parse, and each row error stays with the entry it was about. */
  lemma DeleteCommutes(s: CronState, text: string, i: nat, j: nat)
    requires s.result == Some(Parse(text)) && i < |Parse(text).entries|
    requires j < |Parse(text).entries| && j != i
    ensures DeleteCron(s, i).result == Some(Parse(Render(Edit(Lines(text), i, None))))
    ensures 0 <= Moved(j, i) < |DeleteCron(s, i).result.value.entries|
    ensures DeleteCron(s, i).result.value.entries[Moved(j, i)] == Parse(text).entries[j]
    ensures j in s.rowErrors <==> Moved(j, i) in DeleteCron(s, i).rowErrors
    ensures j in s.rowErrors ==> DeleteCron(s, i).rowErrors[Moved(j, i)] == s.rowErrors[j]
  {
    DeleteMeansDelete(text, i);
    EntriesMove(Parse(text).entries, i, j);
    ErrorsMove(s.rowErrors, i, j);
  }
}
