/** Building the list of tasks from the input, and the exit code of a finished list. */
module TaskList {
  import opened Prelude
  import opened Tasks

  /** A code file named on the command line; None when it cannot be read. */
  datatype CodeFile = CodeFile(name: string, content: Option<string>)

  /**
   * Where the code comes from: the -c flag, the -f flags, standard input that is not a terminal, or the editor. A
   * failure to read standard input or to run the editor is None.
   */
  datatype Input = Input(code: string, files: seq<CodeFile>, piped: bool, stdin: Option<string>, edited: Option<string>)

  function Rounds(repeat: int): (r: nat)
    ensures r >= 1
  {
    Max(repeat, 1)
  }

  /** The sources to execute and their code, or None when one of them cannot be read. */
  function Sources(i: Input): Option<seq<(string, string)>> {
    if i.code != "" then Some([("<code>", i.code)])
    else if i.files != [] then FileSources(i.files)
    else if i.piped then Inline("<stdin>", i.stdin)
    else Inline("<editor>", i.edited)
  }

  function Inline(name: string, content: Option<string>): Option<seq<(string, string)>> {
    match content
    case None => None
    case Some(code) => if code != "" then Some([(name, code)]) else Some([])
  }

  function FileSources(files: seq<CodeFile>): (r: Option<seq<(string, string)>>)
    ensures r.Some? <==> forall k :: 0 <= k < |files| ==> files[k].content.Some?
    ensures r.Some? ==> |r.value| == |files|
    ensures r.Some? ==>
      forall k :: 0 <= k < |files| && files[k].content.Some? ==> r.value[k] == (files[k].name, files[k].content.value)
  {
    if files == [] then Some([])
    else
      var last := files[|files| - 1];
      match FileSources(files[..|files| - 1])
      case None => None
      case Some(front) =>
        if last.content.Some? then Some(front + [(last.name, last.content.value)]) else None
  }

  /** The list for `sources`, each repeated `rounds` times in a row, numbered from 1. */
  ghost predicate Numbered(tasks: seq<Task>, sources: seq<(string, string)>, rounds: nat)
    requires rounds > 0
  {
    && |tasks| == |sources| * rounds
    && forall k :: 0 <= k < |tasks| ==> NumberedAt(tasks[k], k, sources, rounds)
  }

  ghost predicate NumberedAt(t: Task, k: nat, sources: seq<(string, string)>, rounds: nat)
    requires rounds > 0
  {
    && k / rounds < |sources|
    && t == Task(k + 1, sources[k / rounds].1, sources[k / rounds].0, k % rounds + 1, rounds)
  }

  lemma DivMod(a: nat, b: nat, m: nat)
    requires b < m
    ensures (a * m + b) / m == a && (a * m + b) % m == b
  {
    var k := a * m + b;
    var q, r := k / m, k % m;
    assert k == q * m + r;
    if q < a { Scale(q + 1, a, m); }
    if a < q { Scale(a + 1, q, m); }
  }

  lemma Scale(a: int, b: int, m: nat)
    requires a <= b
    ensures a * m <= b * m
  {
  }

  /** Appends the repetitions of one source: the loop that every input shares. */
  method AddRounds(tasks: seq<Task>, taskID: nat, name: string, code: string, repeat: int,
                   ghost sources: seq<(string, string)>)
    returns (more: seq<Task>, nextID: nat)
    requires Numbered(tasks, sources, Rounds(repeat)) && taskID == |tasks| + 1
    ensures Numbered(more, sources + [(name, code)], Rounds(repeat)) && nextID == |more| + 1
  {
    more, nextID := tasks, taskID;
    ghost var rounds := Rounds(repeat);
    ghost var all := sources + [(name, code)];
    forall k | 0 <= k < |tasks| ensures NumberedAt(tasks[k], k, all, rounds) {
      assert NumberedAt(tasks[k], k, sources, rounds);
    }
    for i := 0 to Max(repeat, 1)
      invariant |more| == |sources| * rounds + i && nextID == |more| + 1
      invariant forall k :: 0 <= k < |more| ==> NumberedAt(more[k], k, all, rounds)
    {
      DivMod(|sources|, i, rounds);
      more := more + [Task(nextID, code, name, i + 1, Max(repeat, 1))];
      nextID := nextID + 1;
    }
    assert (|sources| + 1) * rounds == |sources| * rounds + rounds;
  }

  method BuildTasks(i: Input, repeat: int) returns (r: Option<seq<Task>>)
    ensures r.Some? <==> Sources(i).Some?
    ensures r.Some? ==> Numbered(r.value, Sources(i).value, Rounds(repeat))
  {
    var tasks, taskID := [], 1;
    if i.code != "" {
      tasks, taskID := AddRounds(tasks, taskID, "<code>", i.code, repeat, []);
      assert [] + [("<code>", i.code)] == [("<code>", i.code)];
      return Some(tasks);
    }
    if i.files != [] {
      for n := 0 to |i.files|
        invariant FileSources(i.files[..n]).Some?
        invariant Numbered(tasks, FileSources(i.files[..n]).value, Rounds(repeat)) && taskID == |tasks| + 1
      {
        assert i.files[..n + 1][..n] == i.files[..n];
        match i.files[n].content {
          case None =>
            assert i.files[n].content.None?;
            return None;
          case Some(code) =>
            tasks, taskID := AddRounds(tasks, taskID, i.files[n].name, code, repeat, FileSources(i.files[..n]).value);
        }
      }
      assert i.files[..|i.files|] == i.files;
      return Some(tasks);
    }
    if i.piped {
      r := BuildInline("<stdin>", i.stdin, repeat);
    } else {
      r := BuildInline("<editor>", i.edited, repeat);
    }
  }

  method BuildInline(name: string, content: Option<string>, repeat: int) returns (r: Option<seq<Task>>)
    ensures r.Some? <==> Inline(name, content).Some?
    ensures r.Some? ==> Numbered(r.value, Inline(name, content).value, Rounds(repeat))
  {
    match content
    case None => return None;
    case Some(code) =>
      if code == "" { return Some([]); }
      var tasks, _ := AddRounds([], 1, name, code, repeat, []);
      assert [] + [(name, code)] == [(name, code)];
      return Some(tasks);
  }

  /** The numbering is a bijection: a task is determined by its source and its instance number. */
  lemma NumberingIsOneToOne(tasks: seq<Task>, sources: seq<(string, string)>, rounds: nat, s: nat, n: nat)
    requires rounds > 0 && Numbered(tasks, sources, rounds)
    requires s < |sources| && 1 <= n <= rounds
    ensures
      var k := s * rounds + n - 1;
      k < |tasks| && tasks[k] == Task(k + 1, sources[s].1, sources[s].0, n, rounds)
  {
    DivMod(s, n - 1, rounds);
    Scale(s + 1, |sources|, rounds);
    assert (s + 1) * rounds == s * rounds + rounds;
    var k := s * rounds + n - 1;
    assert NumberedAt(tasks[k], k, sources, rounds);
  }

  // -- counting and exit code -----------------------------------------------------------------

  predicate Failed(r: TaskResult) {
    r.err.Some? || (r.result.Some? && r.result.value.error.Some?)
  }

  datatype Mode = Mode(stream: bool, json: bool, parallel: bool)

  /** `message` is set when the task could not be executed, `exception` when the user's code raised one. */
  datatype Row = Row(id: int, source: string, instanceNo: int, totalInst: int, success: bool,
                     message: Option<string>, exception: Option<string>, stdout: seq<string>, stderr: seq<string>)

  datatype Summary = Summary(total: int, success: int, failed: int)

  /** What is shown: the summary alone, or the summary below one row for each result. */
  datatype Shown = OnStderr(summary: Summary) | OnStdout(summary: Summary) | Full(rows: seq<Row>, summary: Summary)

  datatype Exit = Code(code: int) | PrintingFailed

  ghost function Tally(results: seq<TaskResult>): Summary {
    Summary(|results|, Count((r: TaskResult) => !Failed(r), results), Count(Failed, results))
  }

  /** A row tells of the same task, and of its failure exactly when there was one. */
  ghost predicate Reports(row: Row, r: TaskResult) {
    && (row.id, row.source) == (r.task.id, r.task.source)
    && (row.instanceNo, row.totalInst) == (r.task.instanceNo, r.task.totalInst)
    && (row.success <==> r.err.None? && (r.result.Some? ==> r.result.value.error.None?))
    && row.message == r.err
    && (r.err.None? && r.result.Some? ==>
          (row.exception, row.stdout, row.stderr)
          == (r.result.value.error, r.result.value.stdout, r.result.value.stderr))
    && (r.err.Some? || r.result.None? ==> (row.exception, row.stdout, row.stderr) == (None, [], []))
  }

  function ExitCode(failed: int, total: int): int {
    if failed == 0 then 0 else if failed == total then 2 else 1
  }

  lemma {:induction false} CountsComplement(results: seq<TaskResult>)
    ensures Tally(results).success + Tally(results).failed == |results|
  {
    if results != [] { CountsComplement(results[..|results| - 1]); }
  }

  method ExitFor(failed: int, total: int) returns (code: int)
    requires failed >= 0
    ensures code == ExitCode(failed, total)
  {
    if failed > 0 {
      if failed == total { return 2; }
      return 1;
    }
    return 0;
  }

  lemma CountNext<T(!new)>(p: T -> bool, s: seq<T>, i: nat)
    requires i < |s|
    ensures Count(p, s[..i + 1]) == Count(p, s[..i]) + if p(s[i]) then 1 else 0
  {
    assert s[..i + 1][..i] == s[..i];
  }

  /** The first pass over the results. */
  method CountResults(results: seq<TaskResult>) returns (success: int, failed: int)
    ensures Summary(|results|, success, failed) == Tally(results)
  {
    success, failed := 0, 0;
    for i := 0 to |results|
      invariant Summary(|results|, success, failed) == Tally(results[..i]).(total := |results|)
    {
      CountNext(Failed, results, i);
      CountNext((r: TaskResult) => !Failed(r), results, i);
      if results[i].err.Some? || (results[i].result.Some? && results[i].result.value.error.Some?) {
        failed := failed + 1;
      } else {
        success := success + 1;
      }
    }
    assert results[..|results|] == results;
  }

  /** The second pass: it fills in the rows and counts again. */
  method FillRows(results: seq<TaskResult>, rows: array<Row>) returns (success: int, failed: int)
    requires rows.Length == |results|
    modifies rows
    ensures forall k :: 0 <= k < |results| ==> Reports(rows[k], results[k])
    ensures Summary(|results|, success, failed) == Tally(results)
  {
    success, failed := 0, 0;
    for i := 0 to |results|
      invariant forall k :: 0 <= k < i ==> Reports(rows[k], results[k])
      invariant Summary(|results|, success, failed) == Tally(results[..i]).(total := |results|)
    {
      CountNext(Failed, results, i);
      CountNext((r: TaskResult) => !Failed(r), results, i);
      var r := results[i];
      var t := Row(r.task.id, r.task.source, r.task.instanceNo, r.task.totalInst, true, None, None, [], []);
      if r.err.Some? {
        t := t.(success := false, message := r.err);
        failed := failed + 1;
      } else if r.result.Some? {
        t := t.(stdout := r.result.value.stdout, stderr := r.result.value.stderr);
        if r.result.value.error.Some? {
          t := t.(success := false, exception := r.result.value.error);
          failed := failed + 1;
        } else {
          success := success + 1;
        }
      } else {
        success := success + 1;
      }
      rows[i] := t;
    }
    assert results[..|results|] == results;
  }

  /** In every mode the summary is the tally of the results and decides the exit code. */
  method PrintMultiTaskResults(results: seq<TaskResult>, mode: Mode, printable: bool)
    returns (shown: Shown, exit: Exit)
    ensures shown.summary == Tally(results)
    ensures shown.OnStderr? <==> mode.stream
    ensures shown.OnStdout? <==> !mode.stream && !mode.json && mode.parallel
    ensures shown.Full? ==>
      |shown.rows| == |results| && forall k :: 0 <= k < |results| ==> Reports(shown.rows[k], results[k])
    ensures exit == if shown.Full? && !printable then PrintingFailed
                    else Code(ExitCode(Count(Failed, results), |results|))
  {
    var success, failed := CountResults(results);
    var summary := Summary(|results|, success, failed);
    if mode.stream {
      var code := ExitFor(failed, |results|);
      return OnStderr(summary), Code(code);
    }
    if !mode.json && mode.parallel {
      var code := ExitFor(failed, |results|);
      return OnStdout(summary), Code(code);
    }
    var rows := new Row[|results|](_ => Row(0, "", 0, 0, false, None, None, [], []));
    success, failed := FillRows(results, rows);
    summary := summary.(success := success, failed := failed);
    shown := Full(rows[..], summary);
    if !printable { return shown, PrintingFailed; }
    var code := ExitFor(failed, |results|);
    exit := Code(code);
  }

  ghost function Where<T(!new)>(p: T -> bool, s: seq<T>): set<nat> { set i: nat | i < |s| && p(s[i]) }

  lemma {:induction false} CountIsCardinality<T(!new)>(p: T -> bool, s: seq<T>)
    ensures Count(p, s) == |Where(p, s)|
  {
    if s == [] {
      assert Where(p, s) == {};
    } else {
      var n := |s| - 1;
      CountIsCardinality(p, s[..n]);
      assert Where(p, s) == if p(s[n]) then Where(p, s[..n]) + {n} else Where(p, s[..n]);
    }
  }

  /** The task could not be executed, or its code raised an exception. */
  predicate FailedAt(results: seq<TaskResult>, k: nat) {
    k < |results| && (results[k].err.Some? || (results[k].result.Some? && results[k].result.value.error.Some?))
  }

  ghost function FailedTasks(results: seq<TaskResult>): set<nat> {
    set k: nat | k < |results| && FailedAt(results, k)
  }

  /** The summary counts the tasks that could not be executed or whose code raised an exception, and the others.  Exit
      code 0 says that there was none of them, 2 that there were only such tasks, 1 that there was some of both. */
  lemma ExitCodeMeans(results: seq<TaskResult>)
    ensures Tally(results).failed == |FailedTasks(results)|
    ensures Tally(results).success == |results| - Tally(results).failed
    ensures
      var code := ExitCode(Count(Failed, results), |results|);
      && (code == 0 <==> forall k: nat :: !FailedAt(results, k))
      && (code == 2 <==> results != [] && forall k: nat :: k < |results| ==> FailedAt(results, k))
      && (code == 1 <==>
            (exists k: nat :: FailedAt(results, k)) && (exists k: nat :: k < |results| && !FailedAt(results, k)))
  {
    CountIsCardinality(Failed, results);
    assert Where(Failed, results) == FailedTasks(results);
    CountsComplement(results);
    ExitCodeCounts(results);
    assert forall k: nat :: k < |results| ==> (Failed(results[k]) <==> FailedAt(results, k));
  }

  lemma ExitCodeCounts(results: seq<TaskResult>)
    ensures
      var code := ExitCode(Count(Failed, results), |results|);
      && (code == 0 <==> forall k :: 0 <= k < |results| ==> !Failed(results[k]))
      && (code == 2 <==> results != [] && forall k :: 0 <= k < |results| ==> Failed(results[k]))
      && (code == 1 <==>
            (exists k :: 0 <= k < |results| && Failed(results[k])) &&
            (exists k :: 0 <= k < |results| && !Failed(results[k])))
  {
    CountBounds(Failed, results);
    if Count(Failed, results) > 0 { var w := CountWitness(Failed, results); }
    var ok := (r: TaskResult) => !Failed(r);
    CountsComplement(results);
    if Count(ok, results) > 0 { var w := CountWitness(ok, results); }
    CountBounds(ok, results);
  }

  /** Task number k + 1 repeats one piece of code. */
  predicate Repeats(tasks: seq<Task>, name: string, code: string, n: int) {
    |tasks| == n && forall k :: 0 <= k < n ==> tasks[k] == Task(k + 1, code, name, k + 1, n)
  }

  /** Task number k + 1 is the next repetition of the code of its file. */
  predicate FileTaskAt(t: Task, k: nat, files: seq<CodeFile>, n: nat)
    requires n > 0
  {
    && k / n < |files| && files[k / n].content.Some?
    && t == Task(k + 1, files[k / n].content.value, files[k / n].name, k % n + 1, n)
  }

  /** What the list is, input by input: the -c flag comes first, then the files, each repeated in a row, then standard
      input if it is no terminal, then the editor; empty text from the last two gives no task.  A repetition below 1
      counts as 1. */
  lemma BuiltTasksMean(i: Input, repeat: int, r: Option<seq<Task>>)
    requires r.Some? <==> Sources(i).Some?
    requires r.Some? ==> Numbered(r.value, Sources(i).value, Rounds(repeat))
    ensures var n := if repeat < 1 then 1 else repeat;
            var text := if i.piped then i.stdin else i.edited;
      if i.code != "" then
        r.Some? && Repeats(r.value, "<code>", i.code, n)
      else if i.files != [] then
        && (r.Some? <==> forall f :: 0 <= f < |i.files| ==> i.files[f].content.Some?)
        && (r.Some? ==>
              && |r.value| == |i.files| * n
              && forall k :: 0 <= k < |r.value| ==> FileTaskAt(r.value[k], k, i.files, n))
      else
        && (r.Some? <==> text.Some?)
        && (r.Some? ==>
              if text.value == "" then r.value == []
              else Repeats(r.value, if i.piped then "<stdin>" else "<editor>", text.value, n))
  {
    var n := Rounds(repeat);
    if r.Some? {
      var sources := Sources(i).value;
      if i.code == "" && i.files != [] { FileTasks(i.files, r.value, n); }
      if |sources| == 1 { OneSource(r.value, sources, n); }
    }
  }

  lemma FileTask(files: seq<CodeFile>, tasks: seq<Task>, n: nat, k: nat)
    requires n > 0 && FileSources(files).Some? && Numbered(tasks, FileSources(files).value, n) && k < |tasks|
    ensures FileTaskAt(tasks[k], k, files, n)
  {
    assert NumberedAt(tasks[k], k, FileSources(files).value, n);
  }

  lemma FileTasks(files: seq<CodeFile>, tasks: seq<Task>, n: nat)
    requires n > 0 && FileSources(files).Some? && Numbered(tasks, FileSources(files).value, n)
    ensures |tasks| == |files| * n && forall k :: 0 <= k < |tasks| ==> FileTaskAt(tasks[k], k, files, n)
  {
    forall k | 0 <= k < |tasks| ensures FileTaskAt(tasks[k], k, files, n) { FileTask(files, tasks, n, k); }
  }

  lemma OneSource(tasks: seq<Task>, sources: seq<(string, string)>, n: nat)
    requires n > 0 && |sources| == 1 && Numbered(tasks, sources, n)
    ensures Repeats(tasks, sources[0].0, sources[0].1, n)
  {
    forall k | 0 <= k < n ensures tasks[k] == Task(k + 1, sources[0].1, sources[0].0, k + 1, n) {
      NumberingIsOneToOne(tasks, sources, n, 0, k + 1);
    }
  }
}
