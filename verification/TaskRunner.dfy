/**
  The parallel task runner: one goroutine per task, a semaphore, two mutexes, a result channel whose
  capacity is the number of tasks, a printing goroutine, a wait group and the final cleanup.

  The runner is a transition system.  The scheduler picks an actor; an actor that cannot move (a full
  semaphore, a taken mutex, an empty channel) leaves the state alone.  What the cloud answers to task i
  is fixed in advance as `envs[i]`, which loses nothing: each task makes one create call and at most
  one execution call, so every run is a run of some `envs`.
*/
module TaskRunner {
  import opened Prelude
  import opened Tasks

  /** The answers the cloud gives to one task. */
  datatype Env =
    | CreateFails(msg: string)
    | CreateSucceeds(id: string, result: Option<Execution>, runErr: Option<string>)

  /** The pointer returned by the create call of task `owner`; `id` is the sandbox id it carries. */
  datatype Sandbox = Sandbox(owner: nat, id: string)

  datatype Config = Config(
    tasks: seq<Task>, envs: seq<Env>, maxParallelFlag: int, textMode: bool, stream: bool, keepAlive: bool)
  {
    predicate Valid() { |envs| == |tasks| }

    function MaxParallel(): nat {
      if maxParallelFlag <= 0 || maxParallelFlag > |tasks| then |tasks| else maxParallelFlag
    }

    predicate UsesChannel() { textMode && !stream }
  }

  /** Program points of a task goroutine, with its local variables. */
  datatype TaskPc =
    | NotSpawned
    | Acquiring
    | Creating
    | WantSandboxLock(sb: Sandbox)
    | ReadingList(sb: Sandbox)
    | AppendingList(sb: Sandbox, copy: seq<Sandbox>)
    | UnlockingList(sb: Sandbox)
    | Executing(sb: Sandbox)
    | WantResultLock(r: TaskResult)
    | WritingResult(r: TaskResult)
    | UnlockingResult(r: TaskResult)
    | Sending(r: TaskResult)
    | Releasing
    | SignallingDone
    | Finished

  datatype MainPc =
    | Spawning(next: nat)
    | AwaitingTasks
    | ClosingChannel
    | AwaitingPrinter
    | Cleaning(next: nat)
    | Returned

  datatype PrinterPc = Receiving | Printing(r: TaskResult) | PrinterDone

  /** What the task goroutines share. */
  datatype Shared = Shared(
    wg: nat,
    sem: nat,
    listLocked: bool,
    resultsLocked: bool,
    sandboxes: seq<Sandbox>,
    results: seq<TaskResult>,
    writes: seq<nat>,            // how often each results[i] was assigned
    queue: seq<TaskResult>)

  datatype State = State(
    main: MainPc,
    tasks: seq<TaskPc>,
    printer: PrinterPc,
    mem: Shared,
    closed: bool,
    printed: seq<TaskResult>,
    killed: seq<Sandbox>)

  datatype Actor = Main | Worker(i: nat) | Printer

  function Init(c: Config): State {
    State(Spawning(0), seq(|c.tasks|, i => NotSpawned), if c.UsesChannel() then Receiving else PrinterDone,
          Shared(0, 0, false, false, [], seq(|c.tasks|, i => ZeroResult), seq(|c.tasks|, i => 0), []), false, [], [])
  }

  datatype Moved = Moved(pc: TaskPc, mem: Shared)

  /** The next move of task i, which stands at `pc`; `closed` says whether the result channel is closed. */
  function Move(c: Config, i: nat, pc: TaskPc, m: Shared, closed: bool): Option<Moved>
    requires c.Valid() && i < |c.tasks| == |m.results| == |m.writes|
  {
    match pc
    case NotSpawned => None
    case Acquiring => if m.sem < c.MaxParallel() then Some(Moved(Creating, m.(sem := m.sem + 1))) else None
    case Creating =>
      (match c.envs[i]
       case CreateFails(msg) =>
         Some(Moved(WantResultLock(TaskResult(c.tasks[i], None, Some("failed to create sandbox: " + msg))), m))
       case CreateSucceeds(id, _, _) => Some(Moved(WantSandboxLock(Sandbox(i, id)), m)))
    case WantSandboxLock(sb) => if m.listLocked then None else Some(Moved(ReadingList(sb), m.(listLocked := true)))
    case ReadingList(sb) => Some(Moved(AppendingList(sb, m.sandboxes), m))
    case AppendingList(sb, copy) => Some(Moved(UnlockingList(sb), m.(sandboxes := copy + [sb])))
    case UnlockingList(sb) => Some(Moved(Executing(sb), m.(listLocked := false)))
    case Executing(sb) =>
      (match c.envs[i]
       case CreateFails(_) => None
       case CreateSucceeds(_, result, runErr) => Some(Moved(WantResultLock(TaskResult(c.tasks[i], result, runErr)), m)))
    case WantResultLock(r) => if m.resultsLocked then None else Some(Moved(WritingResult(r), m.(resultsLocked := true)))
    case WritingResult(r) =>
      Some(Moved(UnlockingResult(r), m.(results := m.results[i := r], writes := m.writes[i := m.writes[i] + 1])))
    case UnlockingResult(r) =>
      Some(Moved(if c.UsesChannel() then Sending(r) else Releasing, m.(resultsLocked := false)))
    case Sending(r) =>
      if |m.queue| < |c.tasks| && !closed then Some(Moved(Releasing, m.(queue := m.queue + [r]))) else None
    case Releasing => if m.sem > 0 then Some(Moved(SignallingDone, m.(sem := m.sem - 1))) else None
    case SignallingDone => if m.wg > 0 then Some(Moved(Finished, m.(wg := m.wg - 1))) else None
    case Finished => None
  }

  function TaskStep(c: Config, s: State, i: nat): Option<State>
    requires Shaped(c, s) && i < |c.tasks|
  {
    match Move(c, i, s.tasks[i], s.mem, s.closed)
    case None => None
    case Some(Moved(pc, m)) => Some(s.(tasks := s.tasks[i := pc], mem := m))
  }

  function MainStep(c: Config, s: State): Option<State>
    requires Shaped(c, s)
  {
    match s.main
    case Spawning(k) =>
      if k < |c.tasks|
      then Some(s.(mem := s.mem.(wg := s.mem.wg + 1), tasks := s.tasks[k := Acquiring], main := Spawning(k + 1)))
      else Some(s.(main := AwaitingTasks))
    case AwaitingTasks =>
      if s.mem.wg == 0 then Some(s.(main := if c.UsesChannel() then ClosingChannel else Cleaning(0))) else None
    case ClosingChannel => Some(s.(closed := true, main := AwaitingPrinter))
    case AwaitingPrinter => if s.printer.PrinterDone? then Some(s.(main := Cleaning(0))) else None
    case Cleaning(k) =>
      if !c.keepAlive && k < |s.mem.sandboxes|
      then Some(s.(killed := s.killed + [s.mem.sandboxes[k]], main := Cleaning(k + 1)))
      else Some(s.(main := Returned))
    case Returned => None
  }

  function PrinterStep(s: State): Option<State> {
    match s.printer
    case Receiving =>
      if s.mem.queue != [] then Some(s.(mem := s.mem.(queue := s.mem.queue[1..]), printer := Printing(s.mem.queue[0])))
      else if s.closed then Some(s.(printer := PrinterDone)) else None
    case Printing(r) => Some(s.(printed := s.printed + [r], printer := Receiving))
    case PrinterDone => None
  }

  predicate Shaped(c: Config, s: State) {
    c.Valid() && |c.tasks| == |s.tasks| == |s.mem.results| == |s.mem.writes|
  }

  /** One move of one actor; None when the actor is blocked or finished. */
  function Step(c: Config, s: State, a: Actor): (r: Option<State>)
    requires Shaped(c, s)
    ensures r.Some? ==> Shaped(c, r.value)
  {
    match a
    case Main => MainStep(c, s)
    case Worker(i) => if i < |c.tasks| then TaskStep(c, s, i) else None
    case Printer => PrinterStep(s)
  }

  /** The state after the scheduler has picked the actors of `sched` one by one. */
  function Exec(c: Config, sched: seq<Actor>): (s: State)
    requires c.Valid()
    ensures Shaped(c, s)
  {
    if sched == [] then Init(c)
    else
      var s := Exec(c, sched[..|sched| - 1]);
      Step(c, s, sched[|sched| - 1]).GetOr(s)
  }

  /** How many picks of `sched` actually moved. */
  function Moves(c: Config, sched: seq<Actor>): nat
    requires c.Valid()
  {
    if sched == [] then 0
    else
      var before := sched[..|sched| - 1];
      Moves(c, before) + if Step(c, Exec(c, before), sched[|sched| - 1]).Some? then 1 else 0
  }

  // ---------------------------------------------------------------------------------------------
  // What a run is supposed to produce, stated without any schedule.

  function ResultOf(t: Task, e: Env): TaskResult {
    match e
    case CreateFails(msg) => TaskResult(t, None, Some("failed to create sandbox: " + msg))
    case CreateSucceeds(_, result, runErr) => TaskResult(t, result, runErr)
  }

  function Expected(c: Config): seq<TaskResult>
    requires c.Valid()
  {
    seq(|c.tasks|, i requires 0 <= i < |c.tasks| => ResultOf(c.tasks[i], c.envs[i]))
  }

  ghost predicate CreatedBy(c: Config, sb: Sandbox) {
    c.Valid() && sb.owner < |c.tasks| && c.envs[sb.owner].CreateSucceeds? && sb.id == c.envs[sb.owner].id
  }

  // ---------------------------------------------------------------------------------------------
  // The invariant.

  ghost predicate InFlight(p: TaskPc) { !(p.NotSpawned? || p.Acquiring? || p.SignallingDone? || p.Finished?) }

  ghost predicate Running(p: TaskPc) { !(p.NotSpawned? || p.Finished?) }

  ghost predicate HoldsList(p: TaskPc) { p.ReadingList? || p.AppendingList? || p.UnlockingList? }

  ghost predicate HoldsResults(p: TaskPc) { p.WritingResult? || p.UnlockingResult? }

  ghost predicate Recorded(p: TaskPc) {
    !(p.NotSpawned? || p.Acquiring? || p.Creating? || p.WantSandboxLock? || p.ReadingList? || p.AppendingList?)
  }

  ghost predicate HasWritten(p: TaskPc) { p.UnlockingResult? || p.Sending? || Delivered(p) }

  ghost predicate Delivered(p: TaskPc) { p.Releasing? || p.SignallingDone? || p.Finished? }

  /** The local variables of task i hold what they should. */
  ghost predicate LocalsOk(c: Config, pc: TaskPc, sandboxes: seq<Sandbox>, i: nat)
    requires c.Valid() && i < |c.tasks|
  {
    match pc
    case WantSandboxLock(sb) => CreatedBy(c, sb) && sb.owner == i
    case ReadingList(sb) => CreatedBy(c, sb) && sb.owner == i
    case AppendingList(sb, copy) => CreatedBy(c, sb) && sb.owner == i && copy == sandboxes
    case UnlockingList(sb) => CreatedBy(c, sb) && sb.owner == i
    case Executing(sb) => CreatedBy(c, sb) && sb.owner == i
    case WantResultLock(r) => r == ResultOf(c.tasks[i], c.envs[i])
    case WritingResult(r) => r == ResultOf(c.tasks[i], c.envs[i])
    case UnlockingResult(r) => r == ResultOf(c.tasks[i], c.envs[i])
    case Sending(r) => r == ResultOf(c.tasks[i], c.envs[i]) && c.UsesChannel()
    case _ => true
  }

  ghost predicate AllLocalsOk(c: Config, pcs: seq<TaskPc>, sandboxes: seq<Sandbox>)
    requires c.Valid() && |pcs| == |c.tasks|
  {
    forall i :: 0 <= i < |pcs| ==> LocalsOk(c, pcs[i], sandboxes, i)
  }

  ghost predicate SlotsOk(c: Config, pcs: seq<TaskPc>, results: seq<TaskResult>, writes: seq<nat>)
    requires c.Valid() && |pcs| == |c.tasks| == |results| == |writes|
  {
    forall i :: 0 <= i < |pcs| ==>
      if HasWritten(pcs[i])
      then writes[i] == 1 && results[i] == ResultOf(c.tasks[i], c.envs[i])
      else writes[i] == 0
  }

  /** The bag of results that the first `k` tasks have put into the channel. */
  ghost function SentBag(c: Config, pcs: seq<TaskPc>, k: nat): multiset<TaskResult>
    requires c.Valid() && k <= |pcs| == |c.tasks|
  {
    if k == 0 then multiset{}
    else
      SentBag(c, pcs, k - 1)
        + if Delivered(pcs[k - 1]) then multiset{ResultOf(c.tasks[k - 1], c.envs[k - 1])} else multiset{}
  }

  ghost function HandBag(p: PrinterPc): multiset<TaskResult> {
    if p.Printing? then multiset{p.r} else multiset{}
  }

  ghost predicate CountersOk(c: Config, pcs: seq<TaskPc>, m: Shared) {
    && m.sem == Count(InFlight, pcs) <= c.MaxParallel()
    && m.wg == Count(Running, pcs)
    && Count(HoldsList, pcs) == (if m.listLocked then 1 else 0)
    && Count(HoldsResults, pcs) == (if m.resultsLocked then 1 else 0)
  }

  ghost predicate MainOk(main: MainPc, pcs: seq<TaskPc>) {
    match main
    case Spawning(k) => k <= |pcs| && (forall j :: 0 <= j < |pcs| ==> (pcs[j].NotSpawned? <==> j >= k))
    case AwaitingTasks => forall j :: 0 <= j < |pcs| ==> !pcs[j].NotSpawned?
    case _ => forall j :: 0 <= j < |pcs| ==> pcs[j].Finished?
  }

  /** Exactly the sandboxes of the tasks that have recorded theirs are in the list, each once. */
  ghost predicate ListOk(c: Config, pcs: seq<TaskPc>, sandboxes: seq<Sandbox>)
    requires c.Valid() && |pcs| == |c.tasks|
  {
    && (forall k :: 0 <= k < |sandboxes| ==> CreatedBy(c, sandboxes[k]) && Recorded(pcs[sandboxes[k].owner]))
    && (forall i :: 0 <= i < |pcs| && c.envs[i].CreateSucceeds? && Recorded(pcs[i]) ==>
          Sandbox(i, c.envs[i].id) in sandboxes)
    && (forall j, k :: 0 <= j < k < |sandboxes| ==> sandboxes[j] != sandboxes[k])
  }

  ghost predicate ChannelOk(c: Config, pcs: seq<TaskPc>, main: MainPc, printer: PrinterPc,
                            queue: seq<TaskResult>, closed: bool, printed: seq<TaskResult>)
    requires c.Valid() && |pcs| == |c.tasks|
  {
    if c.UsesChannel() then
      && multiset(printed) + HandBag(printer) + multiset(queue) == SentBag(c, pcs, |pcs|)
      && (closed <==> main.AwaitingPrinter? || main.Cleaning? || main.Returned?)
      && (printer.PrinterDone? ==> closed && queue == [])
      && (main.Cleaning? || main.Returned? ==> printer.PrinterDone?)
    else
      printed == [] && queue == [] && printer.PrinterDone? && !main.ClosingChannel? && !main.AwaitingPrinter?
  }

  ghost predicate CleanupOk(c: Config, main: MainPc, sandboxes: seq<Sandbox>, killed: seq<Sandbox>) {
    match main
    case Cleaning(k) => k <= |sandboxes| && killed == (if c.keepAlive then [] else sandboxes[..k])
    case Returned => killed == (if c.keepAlive then [] else sandboxes)
    case _ => killed == []
  }

  ghost predicate Inv(c: Config, s: State) {
    && Shaped(c, s)
    && CountersOk(c, s.tasks, s.mem)
    && MainOk(s.main, s.tasks)
    && AllLocalsOk(c, s.tasks, s.mem.sandboxes)
    && SlotsOk(c, s.tasks, s.mem.results, s.mem.writes)
    && ListOk(c, s.tasks, s.mem.sandboxes)
    && ChannelOk(c, s.tasks, s.main, s.printer, s.mem.queue, s.closed, s.printed)
    && CleanupOk(c, s.main, s.mem.sandboxes, s.killed)
  }

  lemma {:induction false} SentBagUpdate(c: Config, pcs: seq<TaskPc>, k: nat, i: nat, p: TaskPc)
    requires c.Valid() && k <= |pcs| == |c.tasks| && i < |pcs|
    requires Delivered(pcs[i]) ==> Delivered(p)
    ensures SentBag(c, pcs[i := p], k)
         == SentBag(c, pcs, k) + if i < k && Delivered(p) && !Delivered(pcs[i])
                                 then multiset{ResultOf(c.tasks[i], c.envs[i])} else multiset{}
  {
    if k > 0 { SentBagUpdate(c, pcs, k - 1, i, p); }
  }

  lemma {:induction false} SentBagSize(c: Config, pcs: seq<TaskPc>, k: nat)
    requires c.Valid() && k <= |pcs| == |c.tasks|
    ensures |SentBag(c, pcs, k)| <= k
    ensures (exists i :: 0 <= i < k && !Delivered(pcs[i])) ==> |SentBag(c, pcs, k)| < k
  {
    if k > 0 { SentBagSize(c, pcs, k - 1); }
  }

  lemma {:induction false} SentBagEmpty(c: Config, pcs: seq<TaskPc>, k: nat)
    requires c.Valid() && k <= |pcs| == |c.tasks|
    requires forall i :: 0 <= i < k ==> !Delivered(pcs[i])
    ensures SentBag(c, pcs, k) == multiset{}
  {
    if k > 0 { SentBagEmpty(c, pcs, k - 1); }
  }

  lemma ExpectedTake(c: Config, k: nat)
    requires c.Valid() && k < |c.tasks|
    ensures Expected(c)[..k + 1] == Expected(c)[..k] + [ResultOf(c.tasks[k], c.envs[k])]
  {
  }

  lemma {:induction false} SentBagFull(c: Config, pcs: seq<TaskPc>, k: nat)
    requires c.Valid() && k <= |pcs| == |c.tasks|
    requires forall i :: 0 <= i < k ==> Delivered(pcs[i])
    ensures SentBag(c, pcs, k) == multiset(Expected(c)[..k])
  {
    if k == 0 {
      assert Expected(c)[..0] == [];
    } else {
      SentBagFull(c, pcs, k - 1);
      ExpectedTake(c, k - 1);
    }
  }

  lemma InitInv(c: Config)
    requires c.Valid()
    ensures Inv(c, Init(c))
  {
    var s := Init(c);
    CountBounds(InFlight, s.tasks);
    CountBounds(Running, s.tasks);
    CountBounds(HoldsList, s.tasks);
    CountBounds(HoldsResults, s.tasks);
    SentBagEmpty(c, s.tasks, |c.tasks|);
  }

  /** A new goroutine holds nothing yet. */
  lemma SpawnKeepsTasks(c: Config, pcs: seq<TaskPc>, m: Shared, k: nat)
    requires c.Valid() && k < |pcs| == |c.tasks| == |m.results| == |m.writes| && pcs[k].NotSpawned?
    requires AllLocalsOk(c, pcs, m.sandboxes) && SlotsOk(c, pcs, m.results, m.writes)
    ensures AllLocalsOk(c, pcs[k := Acquiring], m.sandboxes) && SlotsOk(c, pcs[k := Acquiring], m.results, m.writes)
  {
  }

  lemma SpawnKeepsList(c: Config, pcs: seq<TaskPc>, sandboxes: seq<Sandbox>, k: nat)
    requires c.Valid() && k < |pcs| == |c.tasks| && pcs[k].NotSpawned? && ListOk(c, pcs, sandboxes)
    ensures ListOk(c, pcs[k := Acquiring], sandboxes)
  {
  }

  lemma SpawnKeepsCounters(c: Config, pcs: seq<TaskPc>, m: Shared, k: nat)
    requires k < |pcs| && pcs[k].NotSpawned? && CountersOk(c, pcs, m)
    ensures CountersOk(c, pcs[k := Acquiring], m.(wg := m.wg + 1))
  {
    MovedCounts(pcs, k, Acquiring);
  }

  lemma SpawnKeepsChannel(c: Config, s: State, k: nat)
    requires Shaped(c, s) && s.main == Spawning(k) && k < |c.tasks| && s.tasks[k].NotSpawned?
    requires ChannelOk(c, s.tasks, s.main, s.printer, s.mem.queue, s.closed, s.printed)
    ensures ChannelOk(c, s.tasks[k := Acquiring], Spawning(k + 1), s.printer, s.mem.queue, s.closed, s.printed)
  {
    SentBagUpdate(c, s.tasks, |c.tasks|, k, Acquiring);
  }

  lemma SpawnKeepsInv(c: Config, s: State, k: nat)
    requires Inv(c, s) && s.main == Spawning(k) && k < |c.tasks|
    ensures Inv(c, MainStep(c, s).GetOr(s))
  {
    SpawnKeepsCounters(c, s.tasks, s.mem, k);
    SpawnKeepsTasks(c, s.tasks, s.mem, k);
    SpawnKeepsList(c, s.tasks, s.mem.sandboxes, k);
    SpawnKeepsChannel(c, s, k);
  }

  lemma WaitKeepsInv(c: Config, s: State)
    requires Inv(c, s) && s.main == AwaitingTasks && s.mem.wg == 0
    ensures Inv(c, MainStep(c, s).GetOr(s))
  {
    forall j | 0 <= j < |c.tasks| ensures s.tasks[j].Finished? {
      if Running(s.tasks[j]) { CountMember(Running, s.tasks, j); }
    }
  }

  lemma CleanupStepOk(c: Config, s: State, t: State)
    requires Shaped(c, s) && s.main.Cleaning? && MainStep(c, s) == Some(t)
    requires CleanupOk(c, s.main, s.mem.sandboxes, s.killed)
    ensures t == s.(main := t.main, killed := t.killed) && (t.main.Cleaning? || t.main.Returned?)
    ensures CleanupOk(c, t.main, s.mem.sandboxes, t.killed)
  {
  }

  lemma CleanupKeepsInv(c: Config, s: State, t: State)
    requires Inv(c, s) && s.main.Cleaning? && MainStep(c, s) == Some(t)
    ensures Inv(c, t)
  {
    CleanupStepOk(c, s, t);
  }

  lemma MainKeepsInv(c: Config, s: State, t: State)
    requires Inv(c, s) && MainStep(c, s) == Some(t)
    ensures Inv(c, t)
  {
    match s.main
    case Spawning(k) => if k < |c.tasks| { SpawnKeepsInv(c, s, k); }
    case AwaitingTasks => WaitKeepsInv(c, s);
    case Cleaning(_) => CleanupKeepsInv(c, s, t);
    case _ =>
  }

  lemma PrinterKeepsChannel(c: Config, s: State, t: State)
    requires Shaped(c, s) && PrinterStep(s) == Some(t)
    requires ChannelOk(c, s.tasks, s.main, s.printer, s.mem.queue, s.closed, s.printed)
    ensures t == s.(printer := t.printer, printed := t.printed, mem := s.mem.(queue := t.mem.queue))
    ensures ChannelOk(c, s.tasks, s.main, t.printer, t.mem.queue, s.closed, t.printed)
  {
    if s.printer.Receiving? && s.mem.queue != [] {
      assert s.mem.queue == [s.mem.queue[0]] + s.mem.queue[1..];
    }
  }

  lemma PrinterKeepsInv(c: Config, s: State, t: State)
    requires Inv(c, s) && PrinterStep(s) == Some(t)
    ensures Inv(c, t)
  {
    PrinterKeepsChannel(c, s, t);
  }

  lemma MovedCounts(pcs: seq<TaskPc>, i: nat, p: TaskPc)
    requires i < |pcs|
    ensures var u := pcs[i := p];
      && Count(InFlight, u) + (if InFlight(pcs[i]) then 1 else 0)
           == Count(InFlight, pcs) + (if InFlight(p) then 1 else 0)
      && Count(Running, u) + (if Running(pcs[i]) then 1 else 0) == Count(Running, pcs) + (if Running(p) then 1 else 0)
      && Count(HoldsList, u) + (if HoldsList(pcs[i]) then 1 else 0)
           == Count(HoldsList, pcs) + (if HoldsList(p) then 1 else 0)
      && Count(HoldsResults, u) + (if HoldsResults(pcs[i]) then 1 else 0)
           == Count(HoldsResults, pcs) + (if HoldsResults(p) then 1 else 0)
  {
    CountUpdate(InFlight, pcs, i, p);
    CountUpdate(Running, pcs, i, p);
    CountUpdate(HoldsList, pcs, i, p);
    CountUpdate(HoldsResults, pcs, i, p);
  }

  /** What one move may do to the shared counters and locks. */
  lemma MoveCounters(c: Config, i: nat, pc: TaskPc, m: Shared, closed: bool, to: Moved)
    requires c.Valid() && i < |c.tasks| == |m.results| == |m.writes|
    requires Move(c, i, pc, m, closed) == Some(to)
    requires HoldsList(pc) ==> m.listLocked
    requires HoldsResults(pc) ==> m.resultsLocked
    ensures to.mem.sem + (if InFlight(pc) then 1 else 0) == m.sem + (if InFlight(to.pc) then 1 else 0)
    ensures to.mem.wg + (if Running(pc) then 1 else 0) == m.wg + (if Running(to.pc) then 1 else 0)
    ensures (if to.mem.listLocked then 1 else 0) + (if HoldsList(pc) then 1 else 0)
         == (if m.listLocked then 1 else 0) + (if HoldsList(to.pc) then 1 else 0)
    ensures (if to.mem.resultsLocked then 1 else 0) + (if HoldsResults(pc) then 1 else 0)
         == (if m.resultsLocked then 1 else 0) + (if HoldsResults(to.pc) then 1 else 0)
    ensures to.mem.sem <= m.sem || to.mem.sem <= c.MaxParallel()
  {
  }

  lemma TaskKeepsCounters(c: Config, pcs: seq<TaskPc>, m: Shared, closed: bool, i: nat, to: Moved)
    requires c.Valid() && i < |c.tasks| == |m.results| == |m.writes| == |pcs|
    requires Move(c, i, pcs[i], m, closed) == Some(to)
    requires CountersOk(c, pcs, m)
    ensures CountersOk(c, pcs[i := to.pc], to.mem)
  {
    if HoldsList(pcs[i]) { CountMember(HoldsList, pcs, i); }
    if HoldsResults(pcs[i]) { CountMember(HoldsResults, pcs, i); }
    MoveCounters(c, i, pcs[i], m, closed, to);
    MovedCounts(pcs, i, to.pc);
  }

  lemma MoveLocals(c: Config, i: nat, pc: TaskPc, m: Shared, closed: bool, to: Moved)
    requires c.Valid() && i < |c.tasks| == |m.results| == |m.writes|
    requires Move(c, i, pc, m, closed) == Some(to) && LocalsOk(c, pc, m.sandboxes, i)
    ensures LocalsOk(c, to.pc, to.mem.sandboxes, i)
    ensures to.mem.sandboxes
         == if pc.AppendingList? then m.sandboxes + [Sandbox(i, c.envs[i].id)] else m.sandboxes
    ensures to.mem.queue
         == if pc.Sending? then m.queue + [ResultOf(c.tasks[i], c.envs[i])] else m.queue
    ensures pc.AppendingList? ==> c.envs[i].CreateSucceeds?
    ensures Recorded(pc) ==> Recorded(to.pc)
    ensures c.envs[i].CreateSucceeds? && Recorded(to.pc) && !Recorded(pc) ==> pc.AppendingList?
    ensures pc.AppendingList? ==> !Recorded(pc) && Recorded(to.pc)
    ensures Delivered(pc) ==> Delivered(to.pc)
    ensures c.UsesChannel() ==> (!Delivered(pc) && Delivered(to.pc) <==> pc.Sending?)
    ensures pc.Sending? ==> c.UsesChannel()
  {
  }

  lemma TaskKeepsLocals(c: Config, pcs: seq<TaskPc>, m: Shared, closed: bool, i: nat, to: Moved)
    requires c.Valid() && i < |c.tasks| == |m.results| == |m.writes| == |pcs|
    requires Move(c, i, pcs[i], m, closed) == Some(to)
    requires CountersOk(c, pcs, m) && AllLocalsOk(c, pcs, m.sandboxes)
    ensures AllLocalsOk(c, pcs[i := to.pc], to.mem.sandboxes)
  {
    MoveLocals(c, i, pcs[i], m, closed, to);
    forall j | 0 <= j < |pcs| && j != i ensures LocalsOk(c, pcs[j], to.mem.sandboxes, j) {
      // Only the holder of the list mutex may have a copy of the list in hand.
      if pcs[i].AppendingList? && pcs[j].AppendingList? { CountUnique(HoldsList, pcs, i, j); }
    }
  }

  lemma TaskKeepsSlots(c: Config, pcs: seq<TaskPc>, m: Shared, closed: bool, i: nat, to: Moved)
    requires c.Valid() && i < |c.tasks| == |m.results| == |m.writes| == |pcs|
    requires Move(c, i, pcs[i], m, closed) == Some(to)
    requires LocalsOk(c, pcs[i], m.sandboxes, i) && SlotsOk(c, pcs, m.results, m.writes)
    ensures |to.mem.results| == |m.results| && |to.mem.writes| == |m.writes|
    ensures SlotsOk(c, pcs[i := to.pc], to.mem.results, to.mem.writes)
  {
  }

  lemma TaskKeepsList(c: Config, pcs: seq<TaskPc>, m: Shared, closed: bool, i: nat, to: Moved)
    requires c.Valid() && i < |c.tasks| == |m.results| == |m.writes| == |pcs|
    requires Move(c, i, pcs[i], m, closed) == Some(to)
    requires LocalsOk(c, pcs[i], m.sandboxes, i) && ListOk(c, pcs, m.sandboxes)
    ensures ListOk(c, pcs[i := to.pc], to.mem.sandboxes)
  {
    MoveLocals(c, i, pcs[i], m, closed, to);
    if pcs[i].AppendingList? {
      assert to.mem.sandboxes[|m.sandboxes|] == Sandbox(i, c.envs[i].id);
      assert forall x :: x in m.sandboxes ==> x in to.mem.sandboxes;
    }
  }

  lemma TaskKeepsChannel(c: Config, s: State, i: nat, to: Moved)
    requires Shaped(c, s) && i < |c.tasks|
    requires Move(c, i, s.tasks[i], s.mem, s.closed) == Some(to)
    requires LocalsOk(c, s.tasks[i], s.mem.sandboxes, i)
    requires ChannelOk(c, s.tasks, s.main, s.printer, s.mem.queue, s.closed, s.printed)
    requires MainOk(s.main, s.tasks)
    ensures ChannelOk(c, s.tasks[i := to.pc], s.main, s.printer, to.mem.queue, s.closed, s.printed)
  {
    MoveLocals(c, i, s.tasks[i], s.mem, s.closed, to);
    SentBagUpdate(c, s.tasks, |c.tasks|, i, to.pc);
  }

  /** A task moves only while the main goroutine is spawning or waiting, and never back to its start. */
  lemma MoveMain(c: Config, s: State, i: nat, to: Moved)
    requires Shaped(c, s) && i < |c.tasks| && MainOk(s.main, s.tasks)
    requires Move(c, i, s.tasks[i], s.mem, s.closed) == Some(to)
    ensures MainOk(s.main, s.tasks[i := to.pc]) && (s.main.Spawning? || s.main.AwaitingTasks?)
  {
  }

  lemma TaskKeepsInv(c: Config, s: State, i: nat, t: State)
    requires Inv(c, s) && i < |c.tasks| && TaskStep(c, s, i) == Some(t)
    ensures Inv(c, t)
  {
    var to := Move(c, i, s.tasks[i], s.mem, s.closed).value;
    TaskKeepsCounters(c, s.tasks, s.mem, s.closed, i, to);
    TaskKeepsLocals(c, s.tasks, s.mem, s.closed, i, to);
    TaskKeepsSlots(c, s.tasks, s.mem, s.closed, i, to);
    TaskKeepsList(c, s.tasks, s.mem, s.closed, i, to);
    TaskKeepsChannel(c, s, i, to);
    MoveMain(c, s, i, to);
  }

  lemma StepKeepsInv(c: Config, s: State, a: Actor)
    requires Inv(c, s)
    ensures Inv(c, Step(c, s, a).GetOr(s))
  {
    match Step(c, s, a)
    case None =>
    case Some(t) =>
      match a
      case Main => MainKeepsInv(c, s, t);
      case Worker(i) => TaskKeepsInv(c, s, i, t);
      case Printer => PrinterKeepsInv(c, s, t);
  }

  lemma {:induction false} ExecInv(c: Config, sched: seq<Actor>)
    requires c.Valid()
    ensures Inv(c, Exec(c, sched))
  {
    if sched == [] {
      InitInv(c);
    } else {
      ExecInv(c, sched[..|sched| - 1]);
      StepKeepsInv(c, Exec(c, sched[..|sched| - 1]), sched[|sched| - 1]);
    }
  }

  // ---------------------------------------------------------------------------------------------
  // Results under every schedule.

  /** Whatever the schedule, a finished run has the result of task i, made from what the cloud answered to it, at
      index i, written there once; in text mode without streaming each result was printed once, else none was. */
  lemma ResultsDoNotDependOnSchedule(c: Config, sched: seq<Actor>)
    requires c.Valid() && Exec(c, sched).main.Returned?
    ensures var s := Exec(c, sched);
      && s.mem.results == Expected(c) && |s.mem.results| == |c.tasks|
      && (forall i :: 0 <= i < |c.tasks| ==>
            && s.mem.writes[i] == 1
            && (match c.envs[i]
                case CreateFails(msg) =>
                  s.mem.results[i] == TaskResult(c.tasks[i], None, Some("failed to create sandbox: " + msg))
                case CreateSucceeds(_, result, err) => s.mem.results[i] == TaskResult(c.tasks[i], result, err)))
      && (if c.textMode && !c.stream then multiset(s.printed) == multiset(s.mem.results) else s.printed == [])
  {
    ExecInv(c, sched);
    var s := Exec(c, sched);
    if c.UsesChannel() {
      SentBagFull(c, s.tasks, |c.tasks|);
      assert Expected(c)[..|c.tasks|] == Expected(c);
    }
  }

  /** Every created sandbox, and nothing else, is recorded exactly once and, unless kept alive, killed exactly once. */
  lemma SandboxesAreConserved(c: Config, sched: seq<Actor>)
    requires c.Valid() && Exec(c, sched).main.Returned?
    ensures var s := Exec(c, sched);
      && s.killed == (if c.keepAlive then [] else s.mem.sandboxes)
      && forall i: nat, id: string ::
           multiset(s.mem.sandboxes)[Sandbox(i, id)]
             == if i < |c.tasks| && c.envs[i].CreateSucceeds? && c.envs[i].id == id then 1 else 0
  {
    ExecInv(c, sched);
    var s := Exec(c, sched);
    forall i: nat, id: string
      ensures multiset(s.mem.sandboxes)[Sandbox(i, id)] == if CreatedBy(c, Sandbox(i, id)) then 1 else 0
    {
      DistinctCount(s.mem.sandboxes, Sandbox(i, id));
    }
  }

  lemma {:induction false} DistinctCount<T>(s: seq<T>, x: T)
    requires forall j, k :: 0 <= j < k < |s| ==> s[j] != s[k]
    ensures multiset(s)[x] == if x in s then 1 else 0
  {
    if s != [] {
      DistinctCount(s[..|s| - 1], x);
      assert s == s[..|s| - 1] + [s[|s| - 1]];
    }
  }

  /** In every reachable state: no more tasks are between acquire and release than the flag allows (one that names no
      number from 1 to the number of tasks allows all of them), a sandbox is killed only when every task has finished,
      and a task that wants to send can. */
  lemma ReachableStatesAreSafe(c: Config, sched: seq<Actor>)
    requires c.Valid()
    ensures var s := Exec(c, sched);
      && Count(InFlight, s.tasks) <= (if 1 <= c.maxParallelFlag <= |c.tasks| then c.maxParallelFlag else |c.tasks|)
      && (s.killed != [] ==> forall i :: 0 <= i < |c.tasks| ==> s.tasks[i].Finished?)
      && (forall i :: 0 <= i < |c.tasks| && s.tasks[i].Sending? ==> Step(c, s, Worker(i)).Some?)
  {
    ExecInv(c, sched);
    var s := Exec(c, sched);
    forall i | 0 <= i < |c.tasks| && s.tasks[i].Sending? ensures Step(c, s, Worker(i)).Some? {
      assert LocalsOk(c, s.tasks[i], s.mem.sandboxes, i);
      QueueHasRoom(c, s, i);
    }
  }

  lemma QueueHasRoom(c: Config, s: State, i: nat)
    requires Shaped(c, s) && MainOk(s.main, s.tasks) && c.UsesChannel()
    requires ChannelOk(c, s.tasks, s.main, s.printer, s.mem.queue, s.closed, s.printed)
    requires i < |c.tasks| && s.tasks[i].Sending?
    ensures |s.mem.queue| < |c.tasks| && !s.closed
  {
    SentBagSize(c, s.tasks, |c.tasks|);
    var inChannel, elsewhere := multiset(s.mem.queue), multiset(s.printed) + HandBag(s.printer);
    assert elsewhere + inChannel == SentBag(c, s.tasks, |c.tasks|);
    assert |inChannel| == |s.mem.queue|;
  }

  lemma ExecNext(c: Config, sched: seq<Actor>, a: Actor)
    requires c.Valid() && Step(c, Exec(c, sched), a).Some?
    ensures Step(c, Exec(c, sched), a) == Some(Exec(c, sched + [a]))
  {
    assert (sched + [a])[..|sched|] == sched;
  }

  /** Nothing has happened but that the first `spawned` tasks were spawned and the first `acquired` of them hold a slot
      of the semaphore. */
  ghost function Started(c: Config, spawned: nat, acquired: nat): State
    requires c.Valid()
  {
    Init(c).(main := Spawning(spawned),
             tasks := seq(|c.tasks|, i => if i < acquired then Creating else if i < spawned then Acquiring
                                          else NotSpawned),
             mem := Init(c).mem.(wg := spawned, sem := acquired))
  }

  lemma SpawnOne(c: Config, k: nat)
    requires c.Valid() && k < |c.tasks|
    ensures Step(c, Started(c, k, 0), Main) == Some(Started(c, k + 1, 0))
  {
    assert Started(c, k, 0).tasks[k := Acquiring] == Started(c, k + 1, 0).tasks;
  }

  lemma AcquireOne(c: Config, k: nat)
    requires c.Valid() && k < c.MaxParallel()
    ensures Step(c, Started(c, |c.tasks|, k), Worker(k)) == Some(Started(c, |c.tasks|, k + 1))
  {
    assert Started(c, |c.tasks|, k).tasks[k := Creating] == Started(c, |c.tasks|, k + 1).tasks;
  }

  lemma {:induction false} SpawnAll(c: Config, k: nat) returns (sched: seq<Actor>)
    requires c.Valid() && k <= |c.tasks|
    ensures Exec(c, sched) == Started(c, k, 0)
  {
    if k == 0 {
      sched := [];
      assert Init(c).tasks == Started(c, 0, 0).tasks;
    } else {
      var before := SpawnAll(c, k - 1);
      SpawnOne(c, k - 1);
      ExecNext(c, before, Main);
      sched := before + [Main];
    }
  }

  lemma {:induction false} AcquireFirst(c: Config, k: nat) returns (sched: seq<Actor>)
    requires c.Valid() && k <= c.MaxParallel()
    ensures Exec(c, sched) == Started(c, |c.tasks|, k)
  {
    if k == 0 {
      sched := SpawnAll(c, |c.tasks|);
    } else {
      var before := AcquireFirst(c, k - 1);
      AcquireOne(c, k - 1);
      ExecNext(c, before, Worker(k - 1));
      sched := before + [Worker(k - 1)];
    }
  }

  /** The bound on the tasks in flight is reached: some schedule has exactly as many as the flag allows. */
  lemma BoundIsReached(c: Config) returns (sched: seq<Actor>)
    requires c.Valid()
    ensures Count(InFlight, Exec(c, sched).tasks)
         == if 1 <= c.maxParallelFlag <= |c.tasks| then c.maxParallelFlag else |c.tasks|
  {
    sched := AcquireFirst(c, c.MaxParallel());
    ExecInv(c, sched);
  }

  // ---------------------------------------------------------------------------------------------
  // No deadlock.

  ghost predicate CanMove(c: Config, s: State) {
    Shaped(c, s) && exists a :: Step(c, s, a).Some?
  }

  /** A task that is not waiting for the semaphore or a mutex can move. */
  lemma UnblockedTaskMoves(c: Config, s: State, i: nat)
    requires Inv(c, s) && i < |c.tasks| && Running(s.tasks[i])
    requires s.tasks[i].Acquiring? ==> s.mem.sem < c.MaxParallel()
    requires s.tasks[i].WantSandboxLock? ==> !s.mem.listLocked
    requires s.tasks[i].WantResultLock? ==> !s.mem.resultsLocked
    ensures CanMove(c, s)
  {
    assert LocalsOk(c, s.tasks[i], s.mem.sandboxes, i);
    CountMember(Running, s.tasks, i);
    if InFlight(s.tasks[i]) { CountMember(InFlight, s.tasks, i); }
    if s.tasks[i].Sending? { QueueHasRoom(c, s, i); }
    assert Step(c, s, Worker(i)).Some?;
  }

  /** If a task waits for a mutex, either the mutex is free or its holder can move. */
  lemma LockWaiterUnblocks(c: Config, s: State, i: nat)
    requires Inv(c, s) && i < |c.tasks| && InFlight(s.tasks[i])
    ensures CanMove(c, s)
  {
    if s.tasks[i].WantSandboxLock? && s.mem.listLocked {
      var j := CountWitness(HoldsList, s.tasks);
      UnblockedTaskMoves(c, s, j);
    } else if s.tasks[i].WantResultLock? && s.mem.resultsLocked {
      var j := CountWitness(HoldsResults, s.tasks);
      UnblockedTaskMoves(c, s, j);
    } else {
      UnblockedTaskMoves(c, s, i);
    }
  }

  lemma WaitingMainUnblocks(c: Config, s: State)
    requires Inv(c, s) && s.main.AwaitingTasks?
    ensures CanMove(c, s)
  {
    if s.mem.wg == 0 {
      assert Step(c, s, Main).Some?;
    } else {
      var i := CountWitness(Running, s.tasks);
      if InFlight(s.tasks[i]) {
        LockWaiterUnblocks(c, s, i);
      } else if s.tasks[i].Acquiring? && s.mem.sem == c.MaxParallel() {
        var j := CountWitness(InFlight, s.tasks);
        LockWaiterUnblocks(c, s, j);
      } else {
        UnblockedTaskMoves(c, s, i);
      }
    }
  }

  /** Until the runner has returned, some goroutine can move. */
  lemma NeverDeadlocks(c: Config, sched: seq<Actor>)
    requires c.Valid() && !Exec(c, sched).main.Returned?
    ensures CanMove(c, Exec(c, sched))
  {
    ExecInv(c, sched);
    InvCanMove(c, Exec(c, sched));
  }

  lemma InvCanMove(c: Config, s: State)
    requires Inv(c, s) && !s.main.Returned?
    ensures CanMove(c, s)
  {
    match s.main
    case Spawning(_) => assert Step(c, s, Main).Some?;
    case AwaitingTasks => WaitingMainUnblocks(c, s);
    case ClosingChannel => assert Step(c, s, Main).Some?;
    case AwaitingPrinter => assert Step(c, s, Main).Some? || Step(c, s, Printer).Some?;
    case Cleaning(_) => assert Step(c, s, Main).Some?;
    case Returned =>
  }

  // ---------------------------------------------------------------------------------------------
  // Every run is finite.

  ghost function Rank(p: TaskPc): nat {
    match p
    case NotSpawned => 17
    case Acquiring => 16
    case Creating => 15
    case WantSandboxLock(_) => 14
    case ReadingList(_) => 13
    case AppendingList(_, _) => 12
    case UnlockingList(_) => 10
    case Executing(_) => 9
    case WantResultLock(_) => 8
    case WritingResult(_) => 7
    case UnlockingResult(_) => 6
    case Sending(_) => 5
    case Releasing => 2
    case SignallingDone => 1
    case Finished => 0
  }

  ghost function RankSum(pcs: seq<TaskPc>): nat {
    if pcs == [] then 0 else RankSum(pcs[..|pcs| - 1]) + Rank(pcs[|pcs| - 1])
  }

  ghost function MainRank(p: MainPc): nat {
    match p
    case Spawning(_) => 5
    case AwaitingTasks => 4
    case ClosingChannel => 3
    case AwaitingPrinter => 2
    case Cleaning(_) => 1
    case Returned => 0
  }

  ghost function PrinterRank(p: PrinterPc): nat {
    match p
    case Printing(_) => 2
    case Receiving => 1
    case PrinterDone => 0
  }

  /** Program points still to pass, results still to print and sandboxes still to kill. */
  ghost function Measure(s: State): int {
    RankSum(s.tasks) + MainRank(s.main) + PrinterRank(s.printer) + 2 * |s.mem.queue| + |s.mem.sandboxes| - |s.killed|
  }

  lemma {:induction false} RankSumUpdate(pcs: seq<TaskPc>, i: nat, p: TaskPc)
    requires i < |pcs|
    ensures RankSum(pcs[i := p]) + Rank(pcs[i]) == RankSum(pcs) + Rank(p)
  {
    var last := |pcs| - 1;
    if i == last {
      assert pcs[i := p][..last] == pcs[..last];
    } else {
      assert pcs[i := p][..last] == pcs[..last][i := p];
      RankSumUpdate(pcs[..last], i, p);
    }
  }

  lemma {:induction false} RankSumInit(pcs: seq<TaskPc>)
    requires forall i :: 0 <= i < |pcs| ==> pcs[i].NotSpawned?
    ensures RankSum(pcs) == 17 * |pcs|
  {
    if pcs != [] { RankSumInit(pcs[..|pcs| - 1]); }
  }

  lemma MoveLowersRank(c: Config, i: nat, pc: TaskPc, m: Shared, closed: bool, to: Moved)
    requires c.Valid() && i < |c.tasks| == |m.results| == |m.writes|
    requires Move(c, i, pc, m, closed) == Some(to) && LocalsOk(c, pc, m.sandboxes, i)
    ensures Rank(to.pc) + 2 * |to.mem.queue| + |to.mem.sandboxes| < Rank(pc) + 2 * |m.queue| + |m.sandboxes|
  {
  }

  lemma TaskLowersMeasure(c: Config, s: State, i: nat, t: State)
    requires Shaped(c, s) && i < |c.tasks| && AllLocalsOk(c, s.tasks, s.mem.sandboxes)
    requires TaskStep(c, s, i) == Some(t)
    ensures Measure(t) < Measure(s)
  {
    var to := Move(c, i, s.tasks[i], s.mem, s.closed).value;
    assert LocalsOk(c, s.tasks[i], s.mem.sandboxes, i);
    MoveLowersRank(c, i, s.tasks[i], s.mem, s.closed, to);
    RankSumUpdate(s.tasks, i, to.pc);
  }

  lemma MainLowersMeasure(c: Config, s: State, t: State)
    requires Shaped(c, s) && MainOk(s.main, s.tasks) && MainStep(c, s) == Some(t)
    ensures Measure(t) < Measure(s)
  {
    if s.main.Spawning? && s.main.next < |c.tasks| { RankSumUpdate(s.tasks, s.main.next, Acquiring); }
  }

  lemma PrinterLowersMeasure(s: State, t: State)
    requires PrinterStep(s) == Some(t)
    ensures Measure(t) < Measure(s)
  {
  }

  lemma StepLowers(c: Config, s: State, a: Actor, t: State)
    requires Shaped(c, s) && MainOk(s.main, s.tasks) && AllLocalsOk(c, s.tasks, s.mem.sandboxes)
    requires Step(c, s, a) == Some(t)
    ensures Measure(t) < Measure(s)
  {
    match a
    case Main => MainLowersMeasure(c, s, t);
    case Worker(i) => TaskLowersMeasure(c, s, i, t);
    case Printer => PrinterLowersMeasure(s, t);
  }

  lemma StepLowersMeasure(c: Config, s: State, a: Actor, t: State)
    requires Inv(c, s) && Step(c, s, a) == Some(t)
    ensures Inv(c, t) && 0 <= Measure(t) < Measure(s)
  {
    StepKeepsInv(c, s, a);
    CleanupWithinList(c, t);
    StepLowers(c, s, a, t);
  }

  lemma CleanupWithinList(c: Config, s: State)
    requires CleanupOk(c, s.main, s.mem.sandboxes, s.killed)
    ensures |s.killed| <= |s.mem.sandboxes| && Measure(s) >= 0
  {
  }

  /** No schedule can make more than 17 moves per task and 6 more. */
  lemma {:induction false} RunsAreBounded(c: Config, sched: seq<Actor>)
    requires c.Valid()
    ensures Moves(c, sched) + Measure(Exec(c, sched)) <= 17 * |c.tasks| + 6
    ensures Moves(c, sched) <= 17 * |c.tasks| + 6
  {
    ExecInv(c, sched);
    if sched == [] {
      RankSumInit(Init(c).tasks);
    } else {
      var before := sched[..|sched| - 1];
      RunsAreBounded(c, before);
      ExecInv(c, before);
      var s, a := Exec(c, before), sched[|sched| - 1];
      if Step(c, s, a).Some? { StepLowersMeasure(c, s, a, Step(c, s, a).value); }
    }
  }

  function Actors(c: Config): set<Actor> {
    {Main, Printer} + set i: nat | i < |c.tasks| :: Worker(i)
  }

  lemma SomeActorMoves(c: Config, s: State) returns (a: Actor)
    requires Inv(c, s) && !s.main.Returned?
    ensures a in Actors(c) && Step(c, s, a).Some?
  {
    InvCanMove(c, s);
    a :| Step(c, s, a).Some?;
  }

  lemma ReturnedResults(c: Config, s: State)
    requires Inv(c, s) && s.main.Returned?
    ensures s.mem.results == Expected(c)
  {
  }

  /** The runner under a scheduler that picks any goroutine that can move. */
  method RunTasksParallel(c: Config) returns (results: seq<TaskResult>)
    requires c.Valid()
    ensures results == Expected(c)
  {
    var s := Init(c);
    InitInv(c);
    while !s.main.Returned?
      invariant Inv(c, s)
      decreases Measure(s)
    {
      ghost var mover := SomeActorMoves(c, s);
      var a :| a in Actors(c) && Step(c, s, a).Some?;
      var t := Step(c, s, a).value;
      StepLowersMeasure(c, s, a, t);
      s := t;
    }
    ReturnedResults(c, s);
    results := s.mem.results;
  }
}
