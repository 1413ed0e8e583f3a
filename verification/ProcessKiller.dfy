/**
  Terminating a recorded tunnel process: check the identity of the PID, SIGTERM, poll for five seconds,
  check again, SIGKILL.  The operating system is an adversary that moves between any two calls of the
  program: processes exit, new ones start, PIDs are reused, time passes.
*/
module ProcessKiller {
  import opened Strings

  /** A process.  `uid` tells it from every other process that ever has the same PID; the last two fields
      say how it reacts to signals when nothing else interferes. */
  datatype Process = Process(uid: nat, exe: string, diesOnTerm: bool, diesOnKill: bool)

  type Table = map<int, Process>

  /** What a caller can find out about the executable of a PID: the /proc link, the `ps` output, or nothing. */
  datatype Lookup = Link(path: string) | PsArgs(line: string) | Unknown

  /** The processes of the machine: `table` are the live ones, `used` the PIDs ever given out.  Without
      `reuse` a PID is never given out twice. */
  datatype World = World(reuse: bool, table: Table, used: set<int>, nextUid: nat)

  /** One move of the adversary, and its answers to the call that follows. */
  datatype Offer = Offer(elapsed: nat, world: World, signalWorks: bool, found: bool, lookup: Lookup,
                         newPid: int, newDiesOnTerm: bool, newDiesOnKill: bool)

  /** What the killer does to the outside, with the time it happens. */
  datatype Event =
    | Checked(pid: int, ok: bool, at: int)
    | Termed(pid: int, delivered: bool, at: int)
    | NotFound(pid: int, at: int)
    | Killed(pid: int, at: int)

  /** A signal 0 and what it found out. */
  datatype Answer = Answer(pid: int, alive: bool)

  /** A call of killProcess and its verdict. */
  datatype Verdict = Verdict(pid: int, exePath: string, dead: bool)

  predicate WorldOk(w: World) {
    && (forall pid :: pid in w.table ==> pid > 0 && pid in w.used && w.table[pid].uid < w.nextUid)
    && (forall p, q :: p in w.table && q in w.table && p != q ==> w.table[p].uid != w.table[q].uid)
  }

  /** Processes keep their PID and executable while they live, and the dead do not come back. */
  predicate Evolved(v: World, w: World) {
    && v.reuse == w.reuse && v.nextUid <= w.nextUid && v.used <= w.used
    && forall pid :: pid in w.table && (w.table[pid].uid < v.nextUid || (!v.reuse && pid in v.used)) ==>
         pid in v.table && v.table[pid] == w.table[pid]
  }

  /** The command line names `exe`, at `a` up to `b`, with only white space before it, and after it nothing but white
      space or a blank and arguments. */
  ghost predicate ShowsAt(line: string, exe: string, a: nat, b: nat) {
    && a < b <= |line| && exe == line[a..b] && ' ' !in exe
    && AllSpace(line[..a]) && !IsSpace(line[a])
    && if AllSpace(line[b..]) then !IsSpace(line[b - 1]) else line[b] == ' '
  }

  ghost predicate Shows(line: string, exe: string) { exists a: nat, b: nat :: ShowsAt(line, exe, a, b) }

  /** What the lookup says against `exePath`; what cannot be found out counts as the same. */
  ghost predicate Recognised(lookup: Lookup, exePath: string) {
    match lookup
    case Link(path) => path == exePath
    case Unknown => true
    case PsArgs(line) => AllSpace(line) || Shows(line, exePath)
  }

  /** Up to the first blank that is not at the beginning. */
  function FirstWord(cmd: string): string {
    var i := IndexOf(cmd, ' ');
    if i > 0 then cmd[..i] else cmd
  }

  lemma FirstWordShows(line: string)
    requires TrimSpace(line) != ""
    ensures Shows(line, FirstWord(TrimSpace(line)))
  {
    var left, right := TrimSpaceSpec(line);
    var cmd := TrimSpace(line);
    var word := FirstWord(cmd);
    var a, b := |left|, |left| + |word|;
    assert line[..a] == left && line[a..b] == word;
    if IndexOf(cmd, ' ') > 0 {
      assert line[|left| + |cmd| - 1] == cmd[|cmd| - 1] == line[b..][|cmd| - 1 - |word|];
    } else {
      assert line[b..] == right;
    }
    assert ShowsAt(line, word, a, b);
  }

  lemma TrimmedAlone(left: string, exe: string, rest: string)
    requires AllSpace(left) && AllSpace(rest) && exe != "" && Trimmed(exe) && ' ' !in exe
    ensures TrimSpace(left + exe + rest) == exe == FirstWord(exe)
  {
    TrimSpacePad(left, exe, rest);
  }

  lemma TrimmedWithArgs(left: string, exe: string, rest: string)
    requires AllSpace(left) && exe != "" && !IsSpace(exe[0]) && ' ' !in exe
    requires !AllSpace(rest) && rest[0] == ' '
    ensures var cmd := TrimSpace(left + exe + rest); cmd != "" && FirstWord(cmd) == exe
  {
    var pad := TrimRightSpec(rest);
    var args := TrimRight(rest);
    assert args != "";
    assert args[0] == ' ';
    var cmd := exe + args;
    assert left + exe + rest == left + cmd + pad;
    assert cmd[|cmd| - 1] == args[|args| - 1];
    TrimSpacePad(left, cmd, pad);
    CutsAtBlank(exe, args[1..]);
    assert cmd == exe + [' '] + args[1..];
  }

  lemma CutsAtBlank(exe: string, args: string)
    requires exe != "" && ' ' !in exe
    ensures FirstWord(exe + [' '] + args) == exe
  {
    IndexOfFirst(exe, ' ', args);
  }

  lemma ShownIsFirstWord(line: string, exe: string)
    requires Shows(line, exe)
    ensures TrimSpace(line) != "" && FirstWord(TrimSpace(line)) == exe
  {
    var a: nat, b: nat :| ShowsAt(line, exe, a, b);
    assert line == line[..a] + exe + line[b..];
    assert exe[0] == line[a] && exe[|exe| - 1] == line[b - 1];
    if AllSpace(line[b..]) {
      TrimmedAlone(line[..a], exe, line[b..]);
    } else {
      TrimmedWithArgs(line[..a], exe, line[b..]);
    }
  }

  lemma BlankTrimsToNothing(line: string)
    ensures TrimSpace(line) == "" <==> AllSpace(line)
  {
    if AllSpace(line) {
      assert line == line + "" + "";
      TrimSpacePad(line, "", "");
    }
    if TrimSpace(line) == "" {
      var left, right := TrimSpaceSpec(line);
      assert line == left + right;
    }
  }

  /** Comparing the first word of the trimmed line recognises exactly what is shown. */
  lemma FirstWordDecides(line: string, exePath: string)
    ensures Recognised(PsArgs(line), exePath)
       <==> TrimSpace(line) == "" || FirstWord(TrimSpace(line)) == exePath
  {
    BlankTrimsToNothing(line);
    if TrimSpace(line) != "" { FirstWordShows(line); }
    if Shows(line, exePath) { ShownIsFirstWord(line, exePath); }
  }

  /** A program whose path has no white space is recognised by exactly its own path, with arguments or without, and
      however the output of `ps` is padded; a blank line is taken for any program. */
  lemma PsNamesTheProgram(left: string, exe: string, args: string, right: string, exePath: string)
    requires AllSpace(left) && AllSpace(right)
    requires exe != "" && forall i :: 0 <= i < |exe| ==> !IsSpace(exe[i])
    ensures Recognised(PsArgs(left + exe + " " + args + right), exePath) <==> exe == exePath
    ensures Recognised(PsArgs(left + exe + right), exePath) <==> exe == exePath
    ensures Recognised(PsArgs(left + right), exePath)
  {
    LineShows(left, exe, " " + args + right);
    assert left + exe + " " + args + right == left + exe + (" " + args + right);
    LineShows(left, exe, right);
    forall line | Shows(line, exe) ensures Recognised(PsArgs(line), exePath) <==> exe == exePath {
      FirstWordDecides(line, exePath);
      ShownIsFirstWord(line, exe);
    }
  }

  lemma LineShows(left: string, exe: string, rest: string)
    requires AllSpace(left) && exe != "" && (AllSpace(rest) || rest[0] == ' ')
    requires forall i :: 0 <= i < |exe| ==> !IsSpace(exe[i])
    ensures Shows(left + exe + rest, exe)
  {
    var line := left + exe + rest;
    var a, b := |left|, |left| + |exe|;
    assert line[..a] == left && line[a..b] == exe && line[b..] == rest;
    assert line[a] == exe[0] && line[b - 1] == exe[|exe| - 1];
    assert ShowsAt(line, exe, a, b);
  }

  /** A PID that a new process may get. */
  predicate Free(w: World, pid: int) { pid > 0 && pid !in w.table && (w.reuse || pid !in w.used) }

  /** The world with one more process. */
  function Grown(w: World, pid: int, child: Process): World {
    World(w.reuse, w.table[pid := child], w.used + {pid}, w.nextUid + 1)
  }

  predicate Gone(uid: nat, t: Table) { forall pid :: pid in t ==> t[pid].uid != uid }

  class Os {
    const adversary: nat -> Offer
    const quiet: bool   // nothing happens to processes except by the program's own signals
    const exact: bool   // signals fail only on missing processes; lookups tell the truth about live ones
    var ticks: nat
    var now: int        // milliseconds
    var world: World
    ghost var log: seq<Event>
    ghost var answers: seq<Answer>
    ghost var verdicts: seq<Verdict>

    constructor (adversary: nat -> Offer, quiet: bool, exact: bool, world: World)
      requires WorldOk(world)
      ensures Valid() && this.world == world && log == []
      ensures this.adversary == adversary && this.quiet == quiet && this.exact == exact
    {
      this.adversary, this.quiet, this.exact := adversary, quiet, exact;
      this.world := world;
      ticks, now, log, answers, verdicts := 0, 0, [], [], [];
    }

    predicate Valid() reads this { WorldOk(world) }

    /** The last signal 0 was answered. */
    ghost predicate Answered()
      reads this
    {
      answers != [] && answers[|answers| - 1].alive
    }

    /** A process still answers after a first check that failed, or after SIGKILL. */
    ghost predicate Refused(from: nat)
      reads this
    {
      && Answered() && |log| > from
      && (log[|log| - 1].Killed? || (|log| == from + 1 && log[from].Checked? && !log[from].ok))
    }

    /** Time has passed and the process table has changed only as it can. */
    twostate predicate Later()
      reads this
    {
      && Valid() && Evolved(old(world), world) && now >= old(now)
      && (quiet ==> world == old(world)) && verdicts == old(verdicts) && old(answers) <= answers
    }

    /** The adversary moves, if its move is a possible one. */
    method Pass() returns (o: Offer)
      requires Valid()
      modifies this
      ensures Later() && log == old(log)
      ensures o == adversary(old(ticks)) && ticks == old(ticks) + 1 && answers == old(answers)
    {
      o := adversary(ticks);
      ticks := ticks + 1;
      now := now + o.elapsed;
      if !quiet && WorldOk(o.world) && Evolved(world, o.world) { world := o.world; }
    }

    method Sleep(milliseconds: nat)
      requires Valid()
      modifies this
      ensures Later() && log == old(log) && answers == old(answers) && now >= old(now) + milliseconds
    {
      var _ := Pass();
      now := now + milliseconds;
    }

    /** Signal 0.  It cannot reach a process that is not there. */
    method IsProcessAlive(pid: int) returns (alive: bool)
      requires Valid()
      modifies this
      ensures Later() && log == old(log) && ticks == old(ticks) + 1
      ensures answers == old(answers) + [Answer(pid, alive)]
      ensures alive <==> pid in world.table && (exact || adversary(old(ticks)).signalWorks)
    {
      var o := Pass();
      alive := pid > 0 && pid in world.table && (exact || o.signalWorks);
      answers := answers + [Answer(pid, alive)];
    }

    /** The /proc link or, without it, the first word of the `ps` output. */
    method Identify(pid: int, exePath: string) returns (ok: bool)
      requires Valid()
      modifies this
      ensures Later() && log == old(log) && answers == old(answers) && ticks == old(ticks) + 1
      ensures exact ==> (ok <==> (pid in world.table ==> world.table[pid].exe == exePath))
      ensures !exact ==> (ok <==> Recognised(adversary(old(ticks)).lookup, exePath))
    {
      var o := Pass();
      var truth := if pid in world.table then Link(world.table[pid].exe) else Unknown;
      match if exact then truth else o.lookup {
        case Link(path) => ok := path == exePath;
        case Unknown => ok := true;   // cannot verify: assume it is ours
        case PsArgs(line) =>
          FirstWordDecides(line, exePath);
          var cmd := TrimSpace(line);
          if cmd == "" {
            ok := true;
          } else {
            var i := IndexOf(cmd, ' ');
            ok := (if i > 0 then cmd[..i] else cmd) == exePath;
          }
      }
    }

    /** One signal 0 and, if it is answered, the lookup, which is the last call to the system. */
    method IsOurTunnelProcess(pid: int, exePath: string) returns (ok: bool)
      requires Valid()
      modifies this
      ensures Later() && log == old(log) + [Checked(pid, ok, now)]
      ensures ok ==> pid > 0 && exePath != ""
      ensures exact && exePath != "" ==>
                (pid in world.table ==> (ok <==> world.table[pid].exe == exePath))
      ensures pid <= 0 ==> answers == old(answers)
      ensures pid > 0 ==> exists alive :: answers == old(answers) + [Answer(pid, alive)]
      ensures ok ==> Answered()
      ensures !exact && pid > 0 && exePath != "" && Answered() ==>
                ticks > 0 && (ok <==> Recognised(adversary(ticks - 1).lookup, exePath))
      ensures exact && quiet ==> (ok <==> pid in world.table && exePath != "" && world.table[pid].exe == exePath)
    {
      ok := false;
      if pid > 0 {
        var alive := IsProcessAlive(pid);
        if alive && exePath != "" { ok := Identify(pid, exePath); }
      }
      log := log + [Checked(pid, ok, now)];
    }

    /** SIGTERM; the result says whether the call succeeded. */
    method Terminate(pid: int) returns (delivered: bool)
      requires Valid()
      modifies this
      ensures Valid() && Evolved(old(world), world) && now >= old(now)
      ensures verdicts == old(verdicts) && old(answers) <= answers
      ensures quiet ==> world == old(world).(table := world.table)
      ensures log == old(log) + [Termed(pid, delivered, now)]
      ensures delivered ==> pid in old(world.table) || !quiet
      ensures exact && !delivered ==> pid !in world.table
      ensures exact && quiet ==>
                world.table == if pid in old(world.table) && old(world.table)[pid].diesOnTerm
                               then old(world.table) - {pid} else old(world.table)
    {
      var o := Pass();
      delivered := pid in world.table && (exact || o.signalWorks);
      if delivered && quiet && world.table[pid].diesOnTerm { world := world.(table := world.table - {pid}); }
      log := log + [Termed(pid, delivered, now)];
    }

    /** SIGKILL; its failure is ignored. */
    method Kill(pid: int)
      requires Valid()
      modifies this
      ensures Valid() && Evolved(old(world), world) && now >= old(now)
      ensures verdicts == old(verdicts) && old(answers) <= answers
      ensures quiet ==> world == old(world).(table := world.table)
      ensures log == old(log) + [Killed(pid, now)]
      ensures exact && quiet ==>
                world.table == if pid in old(world.table) && old(world.table)[pid].diesOnKill
                               then old(world.table) - {pid} else old(world.table)
    {
      var o := Pass();
      if quiet && pid in world.table && (exact || o.signalWorks) && world.table[pid].diesOnKill {
        world := world.(table := world.table - {pid});
      }
      log := log + [Killed(pid, now)];
    }

    /** Start a child process.  The system gives it an unused PID, or the start fails. */
    method Spawn(exe: string) returns (started: bool, pid: int)
      requires Valid()
      modifies this
      ensures Valid() && Evolved(old(world), world) && log == old(log)
      ensures verdicts == old(verdicts) && answers == old(answers)
      ensures ticks == old(ticks) + 1 && pid == adversary(old(ticks)).newPid
      ensures started ==> pid in world.table && (!world.reuse ==> pid !in old(world.used))
      ensures !started ==> !Free(world, pid)
      ensures quiet ==> (started <==> Free(old(world), pid))
      ensures quiet && started ==> world == Grown(old(world), pid, world.table[pid])
      ensures quiet && !started ==> world == old(world)
      ensures started ==> world.table[pid].uid + 1 == world.nextUid && old(world.nextUid) < world.nextUid
      ensures started ==> world.table[pid].exe == exe
    {
      var o := Pass();
      pid := o.newPid;
      started := Free(world, pid);
      if started {
        world := Grown(world, pid, Process(world.nextUid, exe, o.newDiesOnTerm, o.newDiesOnKill));
      }
    }

    /** SIGKILL for a child of this program, which nobody else can reap: it takes effect. */
    method KillChild(pid: int, ghost uid: nat)
      requires Valid() && uid < world.nextUid
      requires pid in world.table ==> world.table[pid].uid == uid
      requires pid !in world.table ==> Gone(uid, world.table)
      modifies this
      ensures Valid() && Evolved(old(world), world) && log == old(log)
      ensures verdicts == old(verdicts) && answers == old(answers)
      ensures Gone(uid, world.table)
    {
      world := world.(table := world.table - {pid});
      ghost var w1 := world;
      var _ := Pass();
      GoneStays(w1, world);
    }

    /** os.FindProcess. */
    method FindProcess(pid: int) returns (found: bool)
      requires Valid()
      modifies this
      ensures Later() && answers == old(answers)
      ensures found <==> exact || adversary(old(ticks)).found
      ensures log == old(log) + if found then [] else [NotFound(pid, now)]
    {
      var o := Pass();
      found := exact || o.found;
      if !found { log := log + [NotFound(pid, now)]; }
    }

    /** Check every 100 ms, for five seconds, whether the process is still the one to kill. */
    method PollForExit(pid: int, exePath: string) returns (exited: bool)
      requires Valid() && exePath != ""
      modifies this
      ensures Later()
      ensures |old(log)| <= |log| <= |old(log)| + 50 + (if exited then 1 else 0)
      ensures log[..|old(log)|] == old(log)
      ensures forall i :: |old(log)| <= i < |log| ==>
                log[i].Checked? && log[i].pid == pid && (log[i].ok || (exited && i == |log| - 1))
      ensures exited ==> |log| > |old(log)| && !log[|log| - 1].ok
      ensures !exited ==> now >= old(now) + 5000
      ensures exact && exited && pid in world.table ==> world.table[pid].exe != exePath
      ensures exact && quiet ==> (exited <==> pid !in world.table || world.table[pid].exe != exePath)
    {
      var deadline := now + 5000;
      ghost var rounds := 0;
      ghost var w0, start := world, |log|;
      exited := false;
      while now < deadline
        invariant Valid() && Evolved(w0, world) && (quiet ==> world == w0)
        invariant verdicts == old(verdicts) && old(answers) <= answers
        invariant now >= old(now) + 100 * rounds && rounds <= 50
        invariant |log| == start + rounds && log[..start] == old(log)
        invariant forall i :: start <= i < |log| ==> log[i].Checked? && log[i].pid == pid && log[i].ok
        invariant exact && quiet && rounds > 0 ==> pid in world.table && world.table[pid].exe == exePath
        invariant rounds > 0 || now < deadline
        decreases deadline - now
      {
        ghost var w1 := world;
        var ours := IsOurTunnelProcess(pid, exePath);
        EvolvedTransitive(w0, w1, world);
        if !ours { return true; }
        ghost var w2 := world;
        Sleep(100);
        EvolvedTransitive(w0, w2, world);
        rounds := rounds + 1;
      }
    }

    /** The last check and, if it is positive, SIGKILL. */
    method FinalBlow(pid: int, exePath: string) returns (dead: bool)
      requires Valid() && pid > 0 && exePath != ""
      modifies this
      ensures Valid() && Evolved(old(world), world) && now >= old(now)
      ensures verdicts == old(verdicts) && old(answers) <= answers
      ensures quiet ==> world == old(world).(table := world.table)
      ensures |log| > |old(log)| && log[..|old(log)|] == old(log) && log[|old(log)|].Checked? &&
          log[|old(log)|].pid == pid
      ensures log[|old(log)|].at >= old(now)
      ensures if log[|old(log)|].ok then |log| == |old(log)| + 2 && log[|log| - 1] == Killed(pid, log[|log| - 1].at)
              else |log| == |old(log)| + 1 && dead
      ensures dead <==> !(log[|log| - 1].Killed? && Answered())
      ensures exact && dead && pid in world.table ==> world.table[pid].exe != exePath
      ensures exact && !dead ==> pid in world.table
      ensures exact && quiet && pid in old(world.table) && old(world.table)[pid].exe == exePath ==>
                dead == old(world.table)[pid].diesOnKill
                && world.table == if dead then old(world.table) - {pid} else old(world.table)
    {
      ghost var w0 := world;
      var ours := IsOurTunnelProcess(pid, exePath);
      if !ours { return true; }
      ghost var w1 := world;
      Kill(pid);
      EvolvedTransitive(w0, w1, world);
      ghost var w2 := world;
      Sleep(100);
      EvolvedTransitive(w0, w2, world);
      ghost var w3 := world;
      var alive := IsProcessAlive(pid);
      EvolvedTransitive(w0, w3, world);
      dead := !alive;
    }

    /** The part of KillProcess that follows a delivered SIGTERM. */
    method AwaitExit(pid: int, exePath: string) returns (dead: bool)
      requires Valid() && pid > 0 && exePath != ""
      modifies this
      ensures Valid() && Evolved(old(world), world) && now >= old(now)
      ensures verdicts == old(verdicts) && old(answers) <= answers
      ensures quiet ==> world == old(world).(table := world.table)
      ensures |log| >= |old(log)| && log[..|old(log)|] == old(log)
      ensures AfterTerm(log, |old(log)|, pid, old(now), dead, Answered())
      ensures exact && dead && pid in world.table ==> world.table[pid].exe != exePath
      ensures exact && !dead ==> pid in world.table
      ensures exact && quiet ==> TermedKill(old(world.table), pid, exePath) == (dead, world.table)
    {
      ghost var w0 := world;
      var exited := PollForExit(pid, exePath);
      if exited { return true; }
      ghost var w1, afterPoll := world, log;
      dead := FinalBlow(pid, exePath);
      EvolvedTransitive(w0, w1, world);
      assert forall i :: 0 <= i < |afterPoll| ==> log[i] == afterPoll[i];
    }

    /** The part of KillProcess that follows a positive check. */
    method TerminateAndWait(pid: int, exePath: string) returns (dead: bool)
      requires Valid() && pid > 0 && exePath != ""
      modifies this
      ensures Valid() && Evolved(old(world), world) && now >= old(now)
      ensures verdicts == old(verdicts) && old(answers) <= answers
      ensures quiet ==> world == old(world).(table := world.table)
      ensures |log| >= |old(log)| && log[..|old(log)|] == old(log)
      ensures Terminated(log, |old(log)|, pid, dead, Answered())
      ensures exact && dead && pid in world.table ==> world.table[pid].exe != exePath
      ensures exact && !dead ==> pid in world.table
      ensures exact && quiet && pid in old(world.table) && old(world.table)[pid].exe == exePath ==>
                QuietKill(old(world.table), pid, exePath) == (dead, world.table)
    {
      ghost var w0, start := world, |log|;
      var found := FindProcess(pid);
      if !found { return true; }
      ghost var w1 := world;
      var delivered := Terminate(pid);
      EvolvedTransitive(w0, w1, world);
      if !delivered { return true; }
      ghost var w2, afterTerm := world, log;
      dead := AwaitExit(pid, exePath);
      EvolvedTransitive(w0, w2, world);
      assert log[start] == afterTerm[start];
    }

    method KillProcess(pid: int, exePath: string) returns (dead: bool)
      requires Valid()
      modifies this
      ensures Valid() && Evolved(old(world), world) && now >= old(now) && old(answers) <= answers
      ensures quiet ==> world == old(world).(table := world.table)
      ensures verdicts == old(verdicts) + [Verdict(pid, exePath, dead)]
      ensures |log| >= |old(log)| && log[..|old(log)|] == old(log)
      ensures Complete(log, |old(log)|, pid, dead, Answered())
      ensures Disciplined(log, |old(log)|, pid)
      ensures dead <==> !Refused(|old(log)|)
      ensures exact && dead && pid in old(world.table) ==> Gone(old(world.table)[pid].uid, world.table)
      ensures exact && !dead ==> pid in world.table
      ensures exact && quiet ==> QuietKill(old(world.table), pid, exePath) == (dead, world.table)
    {
      dead := true;
      ghost var start := |log|;
      if pid > 0 {
        var ours := IsOurTunnelProcess(pid, exePath);
        ghost var w1, checked := world, log;
        if ours {
          dead := TerminateAndWait(pid, exePath);
          assert log[start] == checked[start];
        } else {
          var alive := IsProcessAlive(pid);
          dead := !alive;
        }
        VictimGone(old(world), w1, world, pid, exePath);
      }
      CompleteIsDisciplined(log, start, pid, dead, Answered());
      verdicts := verdicts + [Verdict(pid, exePath, dead)];
    }
  }

  lemma EvolvedTransitive(u: World, v: World, w: World)
    requires Evolved(u, v) && Evolved(v, w)
    ensures Evolved(u, w)
  {
  }

  /** The dead stay dead. */
  lemma GoneStays(v: World, w: World)
    requires Evolved(v, w)
    ensures forall uid: nat :: uid < v.nextUid && Gone(uid, v.table) ==> Gone(uid, w.table)
  {
  }

  /** The process at a PID is gone, or it is still there. */
  lemma VictimStays(v: World, w: World, pid: int)
    requires WorldOk(v) && WorldOk(w) && Evolved(v, w) && pid in v.table
    ensures Gone(v.table[pid].uid, w.table) || (pid in w.table && w.table[pid] == v.table[pid])
  {
  }

  /** Every signal follows a positive identity check of the same PID: SIGTERM only directly after the first
      check, SIGKILL only as the last act, after checks that were all positive from the SIGTERM on and
      span the whole five seconds.  At most 50 polls are made. */
  ghost predicate Disciplined(log: seq<Event>, from: nat, pid: int) {
    && from <= |log| <= from + 54
    && (forall i :: from <= i < |log| ==> log[i].pid == pid)
    && (forall i :: from <= i < |log| && log[i].Termed? ==> i == from + 1 && log[from].Checked? && log[from].ok)
    && (forall i :: from <= i < |log| && log[i].Killed? ==>
          && i == |log| - 1 && i >= from + 3 && log[from + 1].Termed? && log[from + 1].delivered
          && (forall j :: from <= j < i && j != from + 1 ==> log[j].Checked? && log[j].ok)
          && log[i - 1].at - log[from + 1].at >= 5000)
  }

  /** The events after a SIGTERM delivered at time `since`: positive checks, and then a negative one, or one more than
      five seconds later and SIGKILL.  `answered` is the answer to the last signal 0. */
  ghost predicate AfterTerm(log: seq<Event>, from: nat, pid: int, since: int, dead: bool, answered: bool) {
    var last := |log| - 1;
    && from <= last < from + 52
    && (forall i :: from <= i <= last ==> log[i].pid == pid)
    && (forall i :: from <= i < last ==> log[i].Checked? && log[i].ok)
    && if log[last].Killed? then last > from && log[last - 1].at >= since + 5000 && (dead <==> !answered)
       else log[last].Checked? && !log[last].ok && dead
  }

  /** The events after a positive check: the process is not found, or SIGTERM follows, and the rest if it arrives. */
  ghost predicate Terminated(log: seq<Event>, from: nat, pid: int, dead: bool, answered: bool) {
    && from < |log| && log[from].pid == pid
    && match log[from]
       case NotFound(_, _) => |log| == from + 1 && dead
       case Termed(_, delivered, at) =>
         if delivered then AfterTerm(log, from + 1, pid, at, dead, answered) else |log| == from + 1 && dead
       case _ => false
  }

  /** The whole trace of one call: nothing is left out, whatever the system does. */
  ghost predicate Complete(log: seq<Event>, from: nat, pid: int, dead: bool, answered: bool) {
    if pid <= 0 then |log| == from && dead
    else
      && from < |log| && log[from].Checked? && log[from].pid == pid
      && if log[from].ok then Terminated(log, from + 1, pid, dead, answered)
         else |log| == from + 1 && (dead <==> !answered)
  }

  lemma CompleteIsDisciplined(log: seq<Event>, from: nat, pid: int, dead: bool, answered: bool)
    requires Complete(log, from, pid, dead, answered)
    ensures Disciplined(log, from, pid)
    ensures dead <==> !(answered && |log| > from
                        && (log[|log| - 1].Killed? || (|log| == from + 1 && log[from].Checked? && !log[from].ok)))
  {
  }

  /** From the first check in `v` to the end in `w`: when the PID is free or taken by another program, the process that
      had it is gone. */
  lemma VictimGone(u: World, v: World, w: World, pid: int, exePath: string)
    requires WorldOk(u) && WorldOk(v) && WorldOk(w) && Evolved(u, v) && Evolved(v, w)
    ensures Evolved(u, w)
    ensures pid in u.table && pid !in w.table ==> Gone(u.table[pid].uid, w.table)
    ensures pid in u.table && pid in v.table && v.table[pid].exe == exePath ==>
              pid in w.table && w.table[pid].exe != exePath ==> Gone(u.table[pid].uid, w.table)
    ensures pid in u.table && pid !in v.table ==> Gone(u.table[pid].uid, w.table)
  {
    EvolvedTransitive(u, v, w);
    if pid in u.table { VictimStays(u, v, pid); VictimStays(u, w, pid); }
  }

  /** The outcome after SIGTERM when nothing but the signals themselves changes the process table. */
  function TermedKill(t: Table, pid: int, exePath: string): (bool, Table) {
    if pid !in t || t[pid].exe != exePath then (true, t)
    else if t[pid].diesOnKill then (true, t - {pid})
    else (false, t)
  }

  /** The outcome when nothing but the signals themselves changes the process table. */
  function QuietKill(t: Table, pid: int, exePath: string): (bool, Table) {
    if pid <= 0 || pid !in t then (true, t)
    else if exePath == "" || t[pid].exe != exePath then (false, t)
    else if t[pid].diesOnTerm || t[pid].diesOnKill then (true, t - {pid})
    else (false, t)
  }
}
