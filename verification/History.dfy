/** The command history of the REPL, in memory and in `~/.ags_history`. */
module History {
  import opened Prelude
  import opened Strings

  const LIMIT := 1000

  /** The last LIMIT entries. */
  function Last(h: seq<string>): seq<string> {
    if |h| > LIMIT then h[|h| - LIMIT..] else h
  }

  /** The trimmed lines that are not blank. */
  function Trims(lines: seq<string>): seq<string> {
    if lines == [] then []
    else
      var line := TrimSpace(lines[|lines| - 1]);
      Trims(lines[..|lines| - 1]) + if line != "" then [line] else []
  }

  /** How a write of the file ends.  A failed one may leave the file missing, empty or cut off: anything. */
  datatype WriteEnd = Written | Failed(left: Option<string>)

  function FileAfter(h: seq<string>, end: WriteEnd): Option<string> {
    match end
    case Written => Some(Join(h, '\n'))
    case Failed(left) => left
  }

  lemma TrimsNext(lines: seq<string>, n: nat)
    requires n < |lines|
    ensures Trims(lines[..n + 1]) ==
      Trims(lines[..n]) + if TrimSpace(lines[n]) != "" then [TrimSpace(lines[n])] else []
  {
    assert lines[..n + 1][..n] == lines[..n];
  }

  /** What a program that starts with this file has as its history. */
  function Loaded(data: string): seq<string> { Last(Trims(Split(data, '\n'))) }

  /** A blank command and a repetition of the last one are not kept. */
  predicate Skipped(h: seq<string>, cmd: string) {
    TrimSpace(cmd) == "" || (h != [] && h[|h| - 1] == TrimSpace(cmd))
  }

  /** The history after `cmd`, when it is kept in a file. */
  function Added(h: seq<string>, cmd: string): seq<string> {
    if Skipped(h, cmd) then h else Last(h + [TrimSpace(cmd)])
  }

  function AddedAll(h: seq<string>, cmds: seq<string>): seq<string> {
    if cmds == [] then h else Added(AddedAll(h, cmds[..|cmds| - 1]), cmds[|cmds| - 1])
  }

  /** No blank or untrimmed entry, no entry twice in a row, not too many. */
  ghost predicate Tidy(h: seq<string>) {
    && |h| <= LIMIT
    && (forall i :: 0 <= i < |h| ==> h[i] != "" && Trimmed(h[i]))
    && (forall i :: 0 <= i < |h| - 1 ==> h[i] != h[i + 1])
  }

  predicate SingleLine(s: string) { '\n' !in s }

  predicate SingleLines(h: seq<string>) { forall i :: 0 <= i < |h| ==> SingleLine(h[i]) }

  lemma TrimKeepsSingleLine(s: string)
    requires SingleLine(s)
    ensures SingleLine(TrimSpace(s)) && Trimmed(TrimSpace(s))
  {
    var left, right := TrimSpaceSpec(s);
    forall i | 0 <= i < |TrimSpace(s)| ensures TrimSpace(s)[i] != '\n' {
      assert s[|left| + i] == TrimSpace(s)[i];
    }
  }

  lemma TrimIsTrimmed(s: string)
    ensures Trimmed(TrimSpace(s))
  {
    var left, right := TrimSpaceSpec(s);
  }

  lemma LastOfTidy(h: seq<string>, c: string)
    requires Tidy(h) && c != "" && Trimmed(c)
    requires h == [] || h[|h| - 1] != c
    ensures Tidy(Last(h + [c]))
  {
    var t := h + [c];
    if |t| > LIMIT { assert Last(t) == h[1..] + [c]; }
  }

  lemma LastOfSingleLines(h: seq<string>)
    requires SingleLines(h)
    ensures SingleLines(Last(h))
  {
  }

  lemma AddedIsTidy(h: seq<string>, cmd: string)
    requires Tidy(h)
    ensures Tidy(Added(h, cmd))
  {
    if !Skipped(h, cmd) {
      TrimIsTrimmed(cmd);
      LastOfTidy(h, TrimSpace(cmd));
    }
  }

  lemma AddedIsSingleLines(h: seq<string>, cmd: string)
    requires SingleLines(h) && SingleLine(cmd)
    ensures SingleLines(Added(h, cmd))
  {
    TrimKeepsSingleLine(cmd);
    LastOfSingleLines(h + [TrimSpace(cmd)]);
  }

  /** However long the sitting, the history stays tidy. */
  lemma {:induction false} HistoryStaysTidy(h: seq<string>, cmds: seq<string>)
    requires Tidy(h)
    ensures Tidy(AddedAll(h, cmds))
  {
    if cmds != [] {
      HistoryStaysTidy(h, cmds[..|cmds| - 1]);
      AddedIsTidy(AddedAll(h, cmds[..|cmds| - 1]), cmds[|cmds| - 1]);
    }
  }

  lemma TrimOfTrimmed(s: string)
    requires Trimmed(s)
    ensures TrimSpace(s) == s
  {
    TrimSpacePad("", s, "");
    assert "" + s + "" == s;
  }

  lemma {:induction false} TrimsOfTidy(h: seq<string>)
    requires forall i :: 0 <= i < |h| ==> h[i] != "" && Trimmed(h[i])
    ensures Trims(h) == h
  {
    if h != [] {
      var n := |h| - 1;
      TrimsOfTidy(h[..n]);
      TrimOfTrimmed(h[n]);
      assert h == h[..n] + [h[n]];
    }
  }

  lemma {:induction false} TrimsAreSingleLines(lines: seq<string>)
    requires SingleLines(lines)
    ensures SingleLines(Trims(lines))
  {
    if lines != [] {
      TrimsAreSingleLines(lines[..|lines| - 1]);
      TrimKeepsSingleLine(lines[|lines| - 1]);
    }
  }

  /** Saving a tidy history and loading it again gives it back exactly when no entry contains a line break. */
  lemma ReloadIffSingleLines(h: seq<string>)
    requires Tidy(h)
    ensures Loaded(Join(h, '\n')) == h <==> SingleLines(h)
  {
    if SingleLines(h) {
      if h == [] {
        assert Split("", '\n') == [""] && [""][..0] == [] && TrimSpace("") == "";
        assert Trims([""]) == Trims([]) + [];
      } else {
        SplitJoin(h, '\n');
        TrimsOfTidy(h);
      }
    } else {
      var lines := Split(Join(h, '\n'), '\n');
      SplitParts(Join(h, '\n'), '\n');
      TrimsAreSingleLines(lines);
    }
  }

  class Repl {
    var history: seq<string>
    var file: Option<string>
    const hasFile: bool          // the home directory is known

    constructor (file: Option<string>, hasFile: bool)
      ensures this.file == file && this.hasFile == hasFile
      ensures history == if hasFile && file.Some? then Loaded(file.value) else []
    {
      this.history, this.file, this.hasFile := [], file, hasFile;
      new;
      LoadHistory();
    }

    method LoadHistory()
      requires history == []
      modifies this`history
      ensures history == if hasFile && file.Some? then Loaded(file.value) else []
    {
      if !hasFile || file.None? { return; }
      var lines := Split(file.value, '\n');
      AppendLines(lines);
      if |history| > LIMIT { history := history[|history| - LIMIT..]; }
    }

    method AppendLines(lines: seq<string>)
      requires history == []
      modifies this`history
      ensures history == Trims(lines)
    {
      for i := 0 to |lines|
        invariant history == Trims(lines[..i])
      {
        TrimsNext(lines, i);
        var line := TrimSpace(lines[i]);
        if line != "" { history := history + [line]; }
      }
      assert lines[..|lines|] == lines;
    }

    /** A failure to write is ignored. */
    method SaveHistory(end: WriteEnd)
      modifies this
      ensures history == if hasFile then Last(old(history)) else old(history)
      ensures file == if !hasFile then old(file) else FileAfter(history, end)
    {
      if !hasFile { return; }
      if |history| > LIMIT { history := history[|history| - LIMIT..]; }
      file := FileAfter(history, end);
    }

    method AddToHistory(cmd: string, end: WriteEnd)
      modifies this
      ensures hasFile ==> history == Added(old(history), cmd)
      ensures var c, h := TrimSpace(cmd), old(history);
        if c == "" || (h != [] && h[|h| - 1] == c) then history == h
        else if hasFile && |h| >= 1000 then history == h[|h| - 999..] + [c]
        else history == h + [c]
      ensures !hasFile ==> history == old(history) + if Skipped(old(history), cmd) then [] else [TrimSpace(cmd)]
      ensures file == if hasFile && !Skipped(old(history), cmd) then FileAfter(history, end) else old(file)
    {
      var c := TrimSpace(cmd);
      if c == "" { return; }
      if |history| > 0 && history[|history| - 1] == c { return; }
      history := history + [c];
      SaveHistory(end);
    }

    /** A sitting: every input is added, every write works. */
    method Enter(inputs: seq<string>)
      requires hasFile && Tidy(history) && SingleLines(history) && SingleLines(inputs)
      requires history == if file.Some? then Loaded(file.value) else []
      modifies this
      ensures history == AddedAll(old(history), inputs)
      ensures Tidy(history) && SingleLines(history)
      ensures history == if file.Some? then Loaded(file.value) else []
    {
      for i := 0 to |inputs|
        invariant history == AddedAll(old(history), inputs[..i])
        invariant Tidy(history) && SingleLines(history)
        invariant history == if file.Some? then Loaded(file.value) else []
      {
        assert inputs[..i + 1][..i] == inputs[..i];
        AddedIsTidy(history, inputs[i]);
        AddedIsSingleLines(history, inputs[i]);
        AddToHistory(inputs[i], Written);
        ReloadIffSingleLines(history);
      }
      assert inputs[..|inputs|] == inputs;
    }
  }

  /** The lines `at` are the entries of `h` in order, with white space around them; the others are blank. */
  ghost predicate Holds(lines: seq<string>, h: seq<string>, at: seq<nat>) {
    && |at| == |h|
    && (forall j, k :: 0 <= j < k < |at| ==> at[j] < at[k])
    && (forall k :: 0 <= k < |at| ==> at[k] < |lines| && h[k] != "" && Trimmed(h[k]) && Pads(lines[at[k]], h[k]))
    && (forall i :: 0 <= i < |lines| && i !in at ==> AllSpace(lines[i]))
  }

  lemma HoldsButEntry(lines: seq<string>, h: seq<string>, at: seq<nat>)
    requires Holds(lines, h, at) && lines != [] && at != [] && at[|at| - 1] == |lines| - 1
    ensures Holds(lines[..|lines| - 1], h[..|h| - 1], at[..|at| - 1])
  {
    forall i | 0 <= i < |lines| - 1 && i !in at[..|at| - 1] ensures AllSpace(lines[i]) {
      assert at == at[..|at| - 1] + [|lines| - 1];
    }
  }

  lemma HoldsButBlank(lines: seq<string>, h: seq<string>, at: seq<nat>)
    requires Holds(lines, h, at) && lines != [] && !(at != [] && at[|at| - 1] == |lines| - 1)
    ensures AllSpace(lines[|lines| - 1]) && Holds(lines[..|lines| - 1], h, at)
  {
    forall k | 0 <= k < |at| ensures at[k] < |lines| - 1 {
      assert at[k] <= at[|at| - 1];
    }
  }

  lemma TrimsByLast(lines: seq<string>, line: string)
    requires lines != [] && TrimSpace(lines[|lines| - 1]) == line
    ensures Trims(lines) == Trims(lines[..|lines| - 1]) + if line != "" then [line] else []
  {
  }

  lemma {:induction false} PaddedLinesLoad(h: seq<string>, lines: seq<string>, at: seq<nat>)
    requires Holds(lines, h, at)
    ensures Trims(lines) == h
    decreases lines
  {
    if lines == [] {
      assert at == [];
    } else if at != [] && at[|at| - 1] == |lines| - 1 {
      LastEntry(h, lines, at);
      HoldsButEntry(lines, h, at);
      PaddedLinesLoad(h[..|h| - 1], lines[..|lines| - 1], at[..|at| - 1]);
    } else {
      HoldsButBlank(lines, h, at);
      PadsTrim(lines[|lines| - 1], "");
      TrimsByLast(lines, "");
      PaddedLinesLoad(h, lines[..|lines| - 1], at);
    }
  }

  lemma LastEntry(h: seq<string>, lines: seq<string>, at: seq<nat>)
    requires Holds(lines, h, at) && lines != [] && at != [] && at[|at| - 1] == |lines| - 1
    ensures h != [] && Trims(lines[..|lines| - 1]) == h[..|h| - 1] ==> Trims(lines) == h
    ensures h != []
  {
    var last := h[|h| - 1];
    assert Pads(lines[at[|at| - 1]], h[|at| - 1]);
    PadsTrim(lines[|lines| - 1], last);
    TrimsByLast(lines, last);
    assert h == h[..|h| - 1] + [last];
  }

  /** The line is `s` with white space around it. */
  ghost predicate Pads(line: string, s: string) {
    exists left: string, right: string :: AllSpace(left) && AllSpace(right) && line == left + s + right
  }

  lemma PadsTrim(line: string, s: string)
    requires Trimmed(s) && (if s == "" then AllSpace(line) else Pads(line, s))
    ensures TrimSpace(line) == s
  {
    if s == "" {
      assert line == line + "" + "";
      TrimSpacePad(line, "", "");
    } else {
      var left, right :| AllSpace(left) && AllSpace(right) && line == left + s + right;
      TrimSpacePad(left, s, right);
    }
  }

  /** Loading keeps each line that is not blank, without the white space around it, in the order of the file; of more
      than 1000 such lines the last 1000. */
  lemma LoadingTrimsLines(h: seq<string>, lines: seq<string>, at: seq<nat>)
    requires lines != [] && forall i :: 0 <= i < |lines| ==> '\n' !in lines[i]
    requires Holds(lines, h, at)
    ensures Loaded(Join(lines, '\n')) == if |h| > 1000 then h[|h| - 1000..] else h
  {
    SplitJoin(lines, '\n');
    PaddedLinesLoad(h, lines, at);
  }
}
