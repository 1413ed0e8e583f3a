/**
  One local connection of the ADB tunnel through any number of WebSocket sessions.  Three parties run in
  each session: a goroutine that reads the local connection and writes to the WebSocket, one that reads
  the WebSocket and writes locally, and the orchestrator, which also runs the reconnect loop.  They talk
  through the channels doneRead and doneWrite and the wait group; a shutdown may come at any moment.

  Events are chosen freely: which goroutine moves, how I/O calls end, which ready case a select takes.  An
  event that is not possible when its turn comes changes nothing.
*/
module TunnelSession {
  import opened Prelude

  const CLOSE_NORMAL := 1000      // section 7.4.1 of RFC 6455
  const CLOSE_GOING_AWAY := 1001  // section 7.4.1 of RFC 6455
  const CLOSE_PREEMPTED := 4001   // private use, section 7.4.2 of RFC 6455
  const BUFFER_SIZE := 32768

  type Chunk = seq<bv8>

  datatype Error = CloseError(code: int) | OtherError

  predicate IsPreemption(e: Error) { e == CloseError(CLOSE_PREEMPTED) }

  /** websocket.IsUnexpectedCloseError with going-away and normal-closure expected. */
  predicate IsUnexpectedClose(e: Error) {
    e.CloseError? && e.code != CLOSE_GOING_AWAY && e.code != CLOSE_NORMAL
  }

  /** Local connection to WebSocket.  `Writing` is the write, under the mutex of the WebSocket. */
  datatype ReaderPc = Reading | Wanting(chunk: Chunk) | Writing(chunk: Chunk) | ClosingDoneRead | LeavingReader
    | ReaderGone

  /** WebSocket to local connection: it waits for a message, reads its body, or is in the write of a piece of it to the
      local connection; `err` is what it will put into doneWrite. */
  datatype WriterPc = Receiving | Copying | Delivering | Posting(err: Option<Error>) | ClosingDoneWrite | LeavingWriter
    | WriterGone

  datatype Session = Session(
    reader: ReaderPc,
    writer: WriterPc,
    running: nat,                    // the wait group
    locked: bool,                    // the mutex around writes to the WebSocket
    doneRead: bool,                  // closed
    doneWrite: Option<Option<Error>>,// the buffered element, if one was put in
    doneWriteClosed: bool,
    wsClosed: bool,
    buffered: nat,                   // reads that still succeed after the close, from what the library holds
    failure: Option<WriterMove>,     // what ended the transfer from the WebSocket
    preempted: bool,                 // the WebSocket reader has received close code 4001
    got: seq<Chunk>,                 // read from the local connection in this session
    sent: seq<Chunk>)                // accepted by the WebSocket

  const NewSession := Session(Reading, Receiving, 2, false, false, None, false, false, 0, None, false, [], [])

  /** What handleConnection returns. */
  datatype Result = Clean | Preempted | Broken

  /** Why the orchestrator writes a control message to the WebSocket. */
  datatype Purpose = Shutdown | Ping

  datatype Orchestrator =
    | Starting
    | Dialing
    | Selecting
    | Locking(purpose: Purpose)      // waits for the mutex
    | Controlling(purpose: Purpose)  // writes the control message, with a deadline
    | Closing(result: Result)
    | Waiting(result: Result)
    | Deciding(result: Result)
    | Sleeping
    | Returned

  datatype State = State(
    sessions: seq<Session>,
    orch: Orchestrator,
    cancelled: bool,
    attempts: nat,                   // calls of handleConnection
    lateAttempts: nat,               // those begun after the cancellation
    input: Chunk,                    // every byte read locally, in order
    accepted: Chunk)                 // every byte a WebSocket accepted, in order

  datatype Event =
    | Cancel
    | Begin
    | ConnectFails
    | ConnectWorks
    | SelectCancel
    | SelectPing
    | LockMutex
    | ControlWritten
    | SelectDoneRead
    | SelectDoneWrite
    | CloseWs(buffered: nat)
    | AllGone
    | GiveUp
    | GoOn
    | WakeCancelled
    | WakeTimer
    | ReaderMoves(session: nat, readerMove: ReaderMove)
    | WriterMoves(session: nat, writerMove: WriterMove)

  datatype ReaderMove = Read(chunk: Chunk) | ReadFails | TakeMutex | WriteWorks | WriteFails | CloseChannel | Leave

  datatype WriterMove = NextFails(err: Error) | NextMessage | BodyPiece | BodyEnds | BodyFails(err: Error)
    | WriteLocal | WriteLocalFails | Post | CloseChannel | Leave

  const Init := State([], Starting, false, 0, 0, [], [])

  function ReaderStep(s: Session, m: ReaderMove): Option<Session> {
    match (s.reader, m)
    case (Reading, Read(chunk)) =>
      if |chunk| <= BUFFER_SIZE then Some(s.(reader := Wanting(chunk), got := s.got + [chunk])) else None
    case (Reading, ReadFails) => Some(s.(reader := ClosingDoneRead))
    case (Wanting(chunk), TakeMutex) =>
      if s.locked then None else Some(s.(reader := Writing(chunk), locked := true))
    case (Writing(chunk), WriteWorks) =>
      if s.wsClosed then None else Some(s.(reader := Reading, locked := false, sent := s.sent + [chunk]))
    case (Writing(_), WriteFails) => Some(s.(reader := ClosingDoneRead, locked := false))
    case (ClosingDoneRead, CloseChannel) => Some(s.(reader := LeavingReader, doneRead := true))
    case (LeavingReader, Leave) =>
      if s.running > 0 then Some(s.(reader := ReaderGone, running := s.running - 1)) else None
    case _ => None
  }

  predicate CanReadWs(s: Session) { !s.wsClosed || s.buffered > 0 }

  function AfterWsRead(s: Session): Session
    requires CanReadWs(s)
  {
    if s.wsClosed then s.(buffered := s.buffered - 1) else s
  }

  function WriterStep(s: Session, m: WriterMove): Option<Session> {
    match (s.writer, m)
    case (Receiving, NextFails(err)) =>
      Some(s.(writer := Posting(if IsUnexpectedClose(err) then Some(err) else None), failure := Some(m),
              preempted := s.preempted || IsPreemption(err)))
    case (Receiving, NextMessage) => if CanReadWs(s) then Some(AfterWsRead(s).(writer := Copying)) else None
    case (Copying, BodyPiece) => if CanReadWs(s) then Some(AfterWsRead(s).(writer := Delivering)) else None
    case (Copying, BodyEnds) => Some(s.(writer := Receiving))
    case (Copying, BodyFails(err)) =>
      Some(s.(writer := Posting(Some(err)), failure := Some(m), preempted := s.preempted || IsPreemption(err)))
    case (Delivering, WriteLocal) => Some(s.(writer := Copying))
    case (Delivering, WriteLocalFails) => Some(s.(writer := Posting(Some(OtherError)), failure := Some(m)))
    case (Posting(err), Post) =>
      if s.doneWrite.None? then Some(s.(writer := ClosingDoneWrite, doneWrite := Some(err))) else None
    case (ClosingDoneWrite, CloseChannel) => Some(s.(writer := LeavingWriter, doneWriteClosed := true))
    case (LeavingWriter, Leave) =>
      if s.running > 0 then Some(s.(writer := WriterGone, running := s.running - 1)) else None
    case _ => None
  }

  /** What receiving from doneWrite makes handleConnection return; None when the channel is not ready. */
  function FromDoneWrite(s: Session): Option<Result> {
    match s.doneWrite
    case None => if s.doneWriteClosed then Some(Clean) else None
    case Some(None) => Some(Clean)
    case Some(Some(err)) => Some(if IsPreemption(err) then Preempted else Broken)
  }

  /** The branches of the select, and the control messages that two of them write. */
  function SelectStep(s: State, e: Event): Option<State>
    requires s.sessions != []
  {
    var k := |s.sessions| - 1;
    var last := s.sessions[k];
    match (s.orch, e)
    case (Selecting, SelectCancel) => if s.cancelled then Some(s.(orch := Locking(Shutdown))) else None
    case (Selecting, SelectPing) => Some(s.(orch := Locking(Ping)))
    case (Selecting, SelectDoneRead) => if last.doneRead then Some(s.(orch := Closing(Clean))) else None
    case (Selecting, SelectDoneWrite) =>
      (match FromDoneWrite(last)
       case None => None
       case Some(result) => Some(s.(orch := Closing(result))))
    case (Locking(purpose), LockMutex) =>
      if last.locked then None
      else Some(s.(orch := Controlling(purpose), sessions := s.sessions[k := last.(locked := true)]))
    case (Controlling(purpose), ControlWritten) =>
      Some(s.(orch := if purpose.Shutdown? then Closing(Clean) else Selecting,
              sessions := s.sessions[k := last.(locked := false)]))
    case _ => None
  }

  /** Closing the WebSocket and waiting for the transfer goroutines. */
  function EndStep(s: State, e: Event): Option<State>
    requires s.sessions != []
  {
    var k := |s.sessions| - 1;
    var last := s.sessions[k];
    match (s.orch, e)
    case (Closing(result), CloseWs(buffered)) =>
      Some(s.(orch := Waiting(result), sessions := s.sessions[k := last.(wsClosed := true, buffered := buffered)]))
    case (Waiting(result), AllGone) => if last.running == 0 then Some(s.(orch := Deciding(result))) else None
    case _ => None
  }

  /** The reconnect loop around the sessions. */
  function LoopStep(s: State, e: Event): Option<State> {
    match (s.orch, e)
    case (Starting, Begin) =>
      Some(s.(orch := Dialing, attempts := s.attempts + 1,
              lateAttempts := s.lateAttempts + if s.cancelled then 1 else 0))
    case (Dialing, ConnectFails) => Some(s.(orch := Deciding(Broken)))
    case (Dialing, ConnectWorks) => Some(s.(orch := Selecting, sessions := s.sessions + [NewSession]))
    case (Deciding(result), GiveUp) => if result.Broken? then Some(s.(orch := Returned)) else None
    case (Deciding(result), GoOn) =>
      Some(s.(orch := if result.Broken? && !s.cancelled then Sleeping else Returned))
    case (Sleeping, WakeCancelled) => if s.cancelled then Some(s.(orch := Returned)) else None
    case (Sleeping, WakeTimer) => Some(s.(orch := Starting))
    case _ => None
  }

  predicate InSelect(o: Orchestrator) { o.Selecting? || o.Locking? || o.Controlling? }

  predicate InEnd(o: Orchestrator) { o.Closing? || o.Waiting? }

  function OrchestratorStep(s: State, e: Event): Option<State> {
    if InSelect(s.orch) then if s.sessions == [] then None else SelectStep(s, e)
    else if InEnd(s.orch) then if s.sessions == [] then None else EndStep(s, e)
    else LoopStep(s, e)
  }

  function Step(s: State, e: Event): Option<State> {
    match e
    case Cancel => Some(s.(cancelled := true))
    case ReaderMoves(k, m) =>
      if k >= |s.sessions| then None
      else
        (match ReaderStep(s.sessions[k], m)
         case None => None
         case Some(t) =>
           var before := s.sessions[k];
           Some(s.(sessions := s.sessions[k := t],
                   input := s.input + (if m.Read? then m.chunk else []),
                   accepted := s.accepted
                     + (if m.WriteWorks? && before.reader.Writing? then before.reader.chunk else []))))
    case WriterMoves(k, m) =>
      if k >= |s.sessions| then None
      else
        (match WriterStep(s.sessions[k], m)
         case None => None
         case Some(t) => Some(s.(sessions := s.sessions[k := t])))
    case _ => OrchestratorStep(s, e)
  }

  function Exec(events: seq<Event>): State {
    if events == [] then Init
    else
      var s := Exec(events[..|events| - 1]);
      Step(s, events[|events| - 1]).GetOr(s)
  }

  // ---------------------------------------------------------------------------------------------
  // The invariant.

  ghost predicate Finished(s: Session) { s.reader.ReaderGone? && s.writer.WriterGone? }

  /** All but at most the last chunk of the session has been accepted. */
  ghost predicate Almost(s: Session) {
    s.sent == s.got || (s.got != [] && s.sent == s.got[..|s.got| - 1])
  }

  ghost predicate SessionOk(s: Session) {
    && s.running == (if s.reader.ReaderGone? then 0 else 1) + (if s.writer.WriterGone? then 0 else 1)
    && (match s.reader
        case Reading => s.sent == s.got
        case Wanting(chunk) => s.got == s.sent + [chunk]
        case Writing(chunk) => s.got == s.sent + [chunk] && s.locked
        case _ => Almost(s))
    && (s.doneWrite.Some? <==>
          !(s.writer.Receiving? || s.writer.Copying? || s.writer.Delivering? || s.writer.Posting?))
    && (s.doneWriteClosed ==> s.doneWrite.Some?)
    && (s.preempted ==>
          if s.writer.Posting? then s.writer.err == Some(CloseError(CLOSE_PREEMPTED))
          else s.doneWrite == Some(Some(CloseError(CLOSE_PREEMPTED))))
  }

  /** Every session but the one in progress is over, and the orchestrator's result fits the last one. */
  ghost predicate OrderOk(sessions: seq<Session>, orch: Orchestrator) {
    && (forall k :: 0 <= k < |sessions| ==> SessionOk(sessions[k]))
    && (forall k :: 0 <= k < |sessions| - 1 ==> Finished(sessions[k]) && !sessions[k].preempted)
    && (if sessions == [] then !InSelect(orch) && !InEnd(orch)
        else LastOk(sessions[|sessions| - 1], orch))
  }

  /** The mutex is held by the reader that writes or by the orchestrator, and never by both. */
  ghost predicate LockOk(last: Session, orch: Orchestrator) {
    && (last.locked <==> last.reader.Writing? || orch.Controlling?)
    && !(last.reader.Writing? && orch.Controlling?)
  }

  ghost predicate LastOk(last: Session, orch: Orchestrator) {
    && LockOk(last, orch) && (InSelect(orch) ==> !last.wsClosed)
    && match orch
       case Selecting => true
       case Locking(_) => true
       case Controlling(_) => true
       case Closing(result) => result.Broken? ==> last.doneWrite.Some? && !last.preempted
       case Waiting(result) => last.wsClosed && (result.Broken? ==> last.doneWrite.Some? && !last.preempted)
       case Deciding(result) => Finished(last) && (last.preempted ==> !result.Broken?)
       case Returned => Finished(last)
       case _ => Finished(last) && !last.preempted
  }

  ghost predicate LateOk(s: State) {
    && (!s.cancelled ==> s.lateAttempts == 0)
    && s.lateAttempts <= 1
    && (s.lateAttempts == 1 ==> !s.orch.Starting? && !s.orch.Sleeping?)
  }

  /** The bytes read in the first `k` sessions, session by session. */
  function AllGot(sessions: seq<Session>, k: nat): Chunk
    requires k <= |sessions|
  {
    if k == 0 then [] else AllGot(sessions, k - 1) + Flatten(sessions[k - 1].got)
  }

  /** The bytes accepted in the first `k` sessions, session by session. */
  function AllSent(sessions: seq<Session>, k: nat): Chunk
    requires k <= |sessions|
  {
    if k == 0 then [] else AllSent(sessions, k - 1) + Flatten(sessions[k - 1].sent)
  }

  ghost predicate BytesOk(s: State) {
    s.input == AllGot(s.sessions, |s.sessions|) && s.accepted == AllSent(s.sessions, |s.sessions|)
  }

  ghost predicate Inv(s: State) { OrderOk(s.sessions, s.orch) && LateOk(s) && BytesOk(s) }

  lemma ReaderLeavesRest(s: Session, m: ReaderMove, t: Session)
    requires ReaderStep(s, m) == Some(t)
    ensures t.doneWrite == s.doneWrite && t.preempted == s.preempted && t.writer == s.writer
  {
  }

  lemma ReaderLeavesSocket(s: Session, m: ReaderMove, t: Session)
    requires ReaderStep(s, m) == Some(t)
    ensures t.wsClosed == s.wsClosed && t.buffered == s.buffered && !s.reader.ReaderGone?
  {
  }

  lemma ReaderMovesBytes(s: Session, m: ReaderMove, t: Session)
    requires ReaderStep(s, m) == Some(t)
    ensures t.got == s.got + (if m.Read? then [m.chunk] else [])
    ensures t.sent == s.sent + (if m.WriteWorks? && s.reader.Writing? then [s.reader.chunk] else [])
  {
    if !m.Read? { assert t.got == s.got + []; }
    if !m.WriteWorks? { assert t.sent == s.sent + []; }
  }

  lemma ReaderKeepsSession(s: Session, m: ReaderMove, t: Session)
    requires SessionOk(s) && ReaderStep(s, m) == Some(t)
    ensures SessionOk(t) && t.doneWrite == s.doneWrite && t.preempted == s.preempted && t.writer == s.writer
    ensures t.wsClosed == s.wsClosed && t.buffered == s.buffered
    ensures t.got == s.got + (if m.Read? then [m.chunk] else [])
    ensures t.sent == s.sent + (if m.WriteWorks? && s.reader.Writing? then [s.reader.chunk] else [])
    ensures !s.reader.ReaderGone?
  {
    ReaderLeavesRest(s, m, t);
    ReaderLeavesSocket(s, m, t);
    ReaderMovesBytes(s, m, t);
    assert s.reader.Writing? || s.reader.Wanting? ==> s.got[..|s.got| - 1] == s.sent;
  }

  lemma ReaderLowersRank(s: Session, m: ReaderMove, t: Session)
    requires ReaderStep(s, m) == Some(t) && s.wsClosed
    ensures ReaderRank(t.reader) < ReaderRank(s.reader)
  {
  }

  lemma ReaderKeepsLock(s: Session, m: ReaderMove, t: Session, orch: Orchestrator)
    requires ReaderStep(s, m) == Some(t) && LockOk(s, orch)
    ensures LockOk(t, orch)
  {
  }

  lemma WriterKeepsSession(s: Session, m: WriterMove, t: Session)
    requires SessionOk(s) && WriterStep(s, m) == Some(t)
    ensures SessionOk(t) && t.reader == s.reader && t.locked == s.locked && t.wsClosed == s.wsClosed
    ensures t.got == s.got && t.sent == s.sent
    ensures s.doneWrite.Some? ==> t.doneWrite == s.doneWrite && t.preempted == s.preempted
    ensures s.preempted ==> t.preempted
    ensures !s.writer.WriterGone?
    ensures s.wsClosed ==> WriterRank(t.writer) + 2 * t.buffered < WriterRank(s.writer) + 2 * s.buffered
  {
  }

  lemma {:induction false} BytesUpdate(sessions: seq<Session>, k: nat, n: nat, t: Session)
    requires k < |sessions| && n <= |sessions|
    ensures k >= n || (t.got == sessions[k].got && t.sent == sessions[k].sent) ==>
              AllGot(sessions[k := t], n) == AllGot(sessions, n) && AllSent(sessions[k := t], n) == AllSent(sessions, n)
  {
    if n > 0 { BytesUpdate(sessions, k, n - 1, t); }
  }

  lemma FlattenNext(chunks: seq<Chunk>, c: Chunk)
    ensures Flatten(chunks + [c]) == Flatten(chunks) + c
  {
    assert (chunks + [c])[..|chunks|] == chunks;
  }

  /** What a move of a reader does to the whole state. */
  lemma ReaderStepShape(s: State, k: nat, m: ReaderMove, t: State)
    requires Step(s, ReaderMoves(k, m)) == Some(t)
    ensures k < |s.sessions| && ReaderStep(s.sessions[k], m) == Some(t.sessions[k])
    ensures var before := s.sessions[k];
      t == s.(sessions := s.sessions[k := t.sessions[k]],
              input := s.input + (if m.Read? then m.chunk else []),
              accepted := s.accepted + (if m.WriteWorks? && before.reader.Writing? then before.reader.chunk else []))
  {
  }

  lemma WriterStepShape(s: State, k: nat, m: WriterMove, t: State)
    requires Step(s, WriterMoves(k, m)) == Some(t)
    ensures k < |s.sessions| && WriterStep(s.sessions[k], m) == Some(t.sessions[k])
    ensures t == s.(sessions := s.sessions[k := t.sessions[k]])
  {
  }

  function Only(g: seq<Chunk>): Chunk { if g == [] then [] else g[0] }

  lemma FlattenGrows(chunks: seq<Chunk>, g: seq<Chunk>)
    requires |g| <= 1
    ensures Flatten(chunks + g) == Flatten(chunks) + Only(g)
  {
    if g == [] {
      assert chunks + g == chunks;
    } else {
      assert g == [g[0]];
      FlattenNext(chunks, g[0]);
    }
  }

  /** The session in progress has read `g` more. */
  lemma GotExtends(sessions: seq<Session>, n: nat, after: Session, g: seq<Chunk>)
    requires n < |sessions| && |g| <= 1 && after.got == sessions[n].got + g
    ensures AllGot(sessions[n := after], n + 1) == AllGot(sessions, n + 1) + Only(g)
  {
    BytesUpdate(sessions, n, n, after);
    FlattenGrows(sessions[n].got, g);
    Associate(AllGot(sessions, n), Flatten(sessions[n].got), Only(g));
  }

  /** The session in progress has sent `a` more. */
  lemma SentExtends(sessions: seq<Session>, n: nat, after: Session, a: seq<Chunk>)
    requires n < |sessions| && |a| <= 1 && after.sent == sessions[n].sent + a
    ensures AllSent(sessions[n := after], n + 1) == AllSent(sessions, n + 1) + Only(a)
  {
    BytesUpdate(sessions, n, n, after);
    FlattenGrows(sessions[n].sent, a);
    Associate(AllSent(sessions, n), Flatten(sessions[n].sent), Only(a));
  }

  /** A session in progress may change as long as what was put into doneWrite stays. */
  lemma ProgressKeepsOrder(sessions: seq<Session>, orch: Orchestrator, k: nat, after: Session)
    requires OrderOk(sessions, orch) && k < |sessions| && !Finished(sessions[k]) && SessionOk(after)
    requires after.wsClosed == sessions[k].wsClosed
    requires LockOk(sessions[k], orch) ==> LockOk(after, orch)
    requires sessions[k].doneWrite.Some? ==>
               after.doneWrite == sessions[k].doneWrite && after.preempted == sessions[k].preempted
    ensures k == |sessions| - 1 && OrderOk(sessions[k := after], orch)
  {
  }

  lemma ReaderKeepsInv(s: State, k: nat, m: ReaderMove, t: State)
    requires Inv(s) && Step(s, ReaderMoves(k, m)) == Some(t)
    ensures Inv(t)
  {
    ReaderStepShape(s, k, m, t);
    var before, after := s.sessions[k], t.sessions[k];
    ReaderKeepsSession(before, m, after);
    if LockOk(before, s.orch) { ReaderKeepsLock(before, m, after, s.orch); }
    ProgressKeepsOrder(s.sessions, s.orch, k, after);
    GotExtends(s.sessions, k, after, if m.Read? then [m.chunk] else []);
    SentExtends(s.sessions, k, after, if m.WriteWorks? && before.reader.Writing? then [before.reader.chunk] else []);
  }

  lemma WriterKeepsInv(s: State, k: nat, m: WriterMove, t: State)
    requires Inv(s) && Step(s, WriterMoves(k, m)) == Some(t)
    ensures Inv(t)
  {
    WriterStepShape(s, k, m, t);
    WriterKeepsSession(s.sessions[k], m, t.sessions[k]);
    ProgressKeepsOrder(s.sessions, s.orch, k, t.sessions[k]);
    BytesUpdate(s.sessions, k, |s.sessions|, t.sessions[k]);
  }

  lemma {:induction false} BytesOfPrefix(a: seq<Session>, b: seq<Session>, n: nat)
    requires n <= |a| && n <= |b| && a[..n] == b[..n]
    ensures AllGot(a, n) == AllGot(b, n) && AllSent(a, n) == AllSent(b, n)
  {
    if n > 0 {
      assert a[n - 1] == a[..n][n - 1] == b[..n][n - 1] == b[n - 1];
      assert a[..n - 1] == a[..n][..n - 1] == b[..n][..n - 1] == b[..n - 1];
      BytesOfPrefix(a, b, n - 1);
    }
  }

  /** The session that the orchestrator touches keeps all that its goroutines do. */
  ghost predicate Touched(before: Session, after: Session) {
    after == before.(locked := after.locked, wsClosed := after.wsClosed, buffered := after.buffered)
  }

  /** What a move of the orchestrator does to the sessions: nothing, one more, or a touch of the last one. */
  lemma OrchestratorShape(s: State, e: Event, t: State)
    requires OrchestratorStep(s, e) == Some(t)
    ensures t.input == s.input && t.accepted == s.accepted
    ensures || t.sessions == s.sessions
            || (s.orch.Dialing? && t.sessions == s.sessions + [NewSession])
            || (s.sessions != [] && |t.sessions| == |s.sessions| &&
                var k := |s.sessions| - 1;
                t.sessions == s.sessions[k := t.sessions[k]] && Touched(s.sessions[k], t.sessions[k]))
  {
  }

  lemma EmptySessionAddsNothing(sessions: seq<Session>)
    ensures var more := sessions + [NewSession];
      AllGot(more, |more|) == AllGot(sessions, |sessions|) && AllSent(more, |more|) == AllSent(sessions, |sessions|)
  {
    BytesOfPrefix(sessions + [NewSession], sessions, |sessions|);
    assert Flatten(NewSession.got) == [];
  }

  lemma OrchestratorKeepsBytes(s: State, e: Event, t: State)
    requires BytesOk(s) && OrchestratorStep(s, e) == Some(t)
    ensures BytesOk(t)
  {
    OrchestratorShape(s, e, t);
    var n := |s.sessions|;
    if |t.sessions| > n {
      EmptySessionAddsNothing(s.sessions);
    } else if n > 0 {
      BytesUpdate(s.sessions, n - 1, n, t.sessions[n - 1]);
    }
  }

  lemma SelectKeepsOrder(s: State, e: Event, t: State)
    requires s.sessions != [] && InSelect(s.orch) && OrderOk(s.sessions, s.orch) && SelectStep(s, e) == Some(t)
    ensures OrderOk(t.sessions, t.orch)
  {
    assert SessionOk(s.sessions[|s.sessions| - 1]);
  }

  lemma EndKeepsOrder(s: State, e: Event, t: State)
    requires s.sessions != [] && InEnd(s.orch) && OrderOk(s.sessions, s.orch) && EndStep(s, e) == Some(t)
    ensures OrderOk(t.sessions, t.orch)
  {
    assert SessionOk(s.sessions[|s.sessions| - 1]);
  }

  lemma NewSessionKeepsOrder(sessions: seq<Session>)
    requires OrderOk(sessions, Dialing)
    ensures OrderOk(sessions + [NewSession], Selecting)
  {
  }

  lemma LoopKeepsOrder(s: State, e: Event, t: State)
    requires !InSelect(s.orch) && !InEnd(s.orch) && OrderOk(s.sessions, s.orch) && LoopStep(s, e) == Some(t)
    ensures OrderOk(t.sessions, t.orch)
  {
    if s.orch.Dialing? && e.ConnectWorks? {
      NewSessionKeepsOrder(s.sessions);
    } else {
      assert t.sessions == s.sessions;
    }
  }

  lemma OrchestratorKeepsLate(s: State, e: Event, t: State)
    requires LateOk(s) && OrchestratorStep(s, e) == Some(t)
    ensures LateOk(t)
  {
  }

  lemma OrchestratorKeepsOrder(s: State, e: Event, t: State)
    requires OrderOk(s.sessions, s.orch) && OrchestratorStep(s, e) == Some(t)
    ensures OrderOk(t.sessions, t.orch)
  {
    if InSelect(s.orch) {
      SelectKeepsOrder(s, e, t);
    } else if InEnd(s.orch) {
      EndKeepsOrder(s, e, t);
    } else {
      LoopKeepsOrder(s, e, t);
    }
  }

  lemma StepKeepsInv(s: State, e: Event)
    requires Inv(s)
    ensures Inv(Step(s, e).GetOr(s))
  {
    match Step(s, e)
    case None =>
    case Some(t) =>
      match e
      case Cancel =>
      case ReaderMoves(k, m) => ReaderKeepsInv(s, k, m, t);
      case WriterMoves(k, m) => WriterKeepsInv(s, k, m, t);
      case _ =>
        OrchestratorKeepsBytes(s, e, t);
        OrchestratorKeepsOrder(s, e, t);
        OrchestratorKeepsLate(s, e, t);
  }

  lemma {:induction false} ExecInv(events: seq<Event>)
    ensures Inv(Exec(events))
  {
    if events != [] {
      ExecInv(events[..|events| - 1]);
      StepKeepsInv(Exec(events[..|events| - 1]), events[|events| - 1]);
    }
  }

  // ---------------------------------------------------------------------------------------------
  // What holds of every run.

  /** At most one goroutine reads the local connection (and at most one writes to it), and only while its
      session is the last one. */
  lemma OneReaderAtATime(events: seq<Event>)
    ensures var s := Exec(events);
      forall i, j :: 0 <= i < |s.sessions| && 0 <= j < |s.sessions| ==>
        !Finished(s.sessions[i]) && !Finished(s.sessions[j]) ==> i == j == |s.sessions| - 1
  {
    ExecInv(events);
  }

  /** The bytes read locally are those the sessions read, session after session; the bytes accepted upstream are
      the same, session after session, except that the last chunk of a session may be missing. */
  lemma BytesAreForwardedInOrder(events: seq<Event>)
    ensures var s := Exec(events);
      && s.input == AllGot(s.sessions, |s.sessions|)
      && s.accepted == AllSent(s.sessions, |s.sessions|)
      && forall k :: 0 <= k < |s.sessions| ==> Almost(s.sessions[k])
  {
    ExecInv(events);
    forall k | 0 <= k < |Exec(events).sessions| ensures Almost(Exec(events).sessions[k]) {
      var s := Exec(events).sessions[k];
      assert SessionOk(s);
      if s.reader.Writing? { assert s.got[..|s.got| - 1] == s.sent; }
    }
  }

  ghost predicate SmallReads(sessions: seq<Session>) {
    forall k, i :: 0 <= k < |sessions| && 0 <= i < |sessions[k].got| ==> |sessions[k].got[i]| <= BUFFER_SIZE
  }

  lemma OrchestratorKeepsReadsSmall(s: State, e: Event, t: State)
    requires SmallReads(s.sessions) && OrchestratorStep(s, e) == Some(t)
    ensures SmallReads(t.sessions)
  {
    OrchestratorShape(s, e, t);
  }

  lemma UpdateKeepsReadsSmall(sessions: seq<Session>, k: nat, after: Session)
    requires SmallReads(sessions) && k < |sessions|
    requires forall i :: 0 <= i < |after.got| ==> |after.got[i]| <= BUFFER_SIZE
    ensures SmallReads(sessions[k := after])
  {
  }

  lemma ReaderKeepsReadsSmall(s: State, k: nat, m: ReaderMove, t: State)
    requires SmallReads(s.sessions) && Step(s, ReaderMoves(k, m)) == Some(t)
    ensures SmallReads(t.sessions)
  {
    ReaderStepShape(s, k, m, t);
    var before, after := s.sessions[k], t.sessions[k];
    assert after.got == before.got || (m.Read? && |m.chunk| <= BUFFER_SIZE && after.got == before.got + [m.chunk]);
    UpdateKeepsReadsSmall(s.sessions, k, after);
  }

  lemma WriterKeepsReadsSmall(s: State, k: nat, m: WriterMove, t: State)
    requires SmallReads(s.sessions) && Step(s, WriterMoves(k, m)) == Some(t)
    ensures SmallReads(t.sessions)
  {
    WriterStepShape(s, k, m, t);
    assert t.sessions[k].got == s.sessions[k].got;
    UpdateKeepsReadsSmall(s.sessions, k, t.sessions[k]);
  }

  lemma StepKeepsReadsSmall(s: State, e: Event, t: State)
    requires SmallReads(s.sessions) && Step(s, e) == Some(t)
    ensures SmallReads(t.sessions)
  {
    match e
    case Cancel =>
    case ReaderMoves(k, m) => ReaderKeepsReadsSmall(s, k, m, t);
    case WriterMoves(k, m) => WriterKeepsReadsSmall(s, k, m, t);
    case _ => OrchestratorKeepsReadsSmall(s, e, t);
  }

  lemma {:induction false} ReadsAreSmall(events: seq<Event>)
    ensures SmallReads(Exec(events).sessions)
  {
    if events != [] {
      var s := Exec(events[..|events| - 1]);
      ReadsAreSmall(events[..|events| - 1]);
      match Step(s, events[|events| - 1])
      case None =>
      case Some(t) => StepKeepsReadsSmall(s, events[|events| - 1], t);
    }
  }

  lemma AlmostIsShort(s: Session)
    requires Almost(s) && forall i :: 0 <= i < |s.got| ==> |s.got[i]| <= BUFFER_SIZE
    ensures Flatten(s.sent) <= Flatten(s.got) && |Flatten(s.got)| <= |Flatten(s.sent)| + BUFFER_SIZE
  {
    if s.sent != s.got {
      assert s.got == s.sent + [s.got[|s.got| - 1]];
      FlattenNext(s.sent, s.got[|s.got| - 1]);
    }
  }

  /** What a session has forwarded is what it has read up to some point, at most one buffer of 32 KiB short. */
  lemma AtMostOneBufferIsMissing(events: seq<Event>, k: nat)
    requires k < |Exec(events).sessions|
    ensures
      var s := Exec(events).sessions[k];
      Flatten(s.sent) <= Flatten(s.got) && |Flatten(s.got)| <= |Flatten(s.sent)| + BUFFER_SIZE
  {
    BytesAreForwardedInOrder(events);
    ReadsAreSmall(events);
    AlmostIsShort(Exec(events).sessions[k]);
  }

  ghost predicate SeenPreemption(s: State) {
    exists k :: 0 <= k < |s.sessions| && s.sessions[k].preempted
  }

  /** Where the orchestrator can be once the last session has received close code 4001. */
  ghost predicate NotDialing(o: Orchestrator) {
    InSelect(o) || InEnd(o) || o.Returned? || (o.Deciding? && !o.result.Broken?)
  }

  lemma PreemptedNotDialing(sessions: seq<Session>, orch: Orchestrator, k: nat)
    requires OrderOk(sessions, orch) && k < |sessions| && sessions[k].preempted
    ensures k == |sessions| - 1 && NotDialing(orch)
  {
  }

  lemma NotDialingAddsNone(s: State, e: Event, t: State)
    requires NotDialing(s.orch) && OrchestratorStep(s, e) == Some(t)
    ensures t.attempts == s.attempts
  {
  }

  lemma OrchestratorKeepsPreemption(s: State, e: Event, t: State)
    requires OrderOk(s.sessions, s.orch) && SeenPreemption(s) && OrchestratorStep(s, e) == Some(t)
    ensures SeenPreemption(t) && t.attempts == s.attempts && |t.sessions| == |s.sessions|
  {
    var k :| 0 <= k < |s.sessions| && s.sessions[k].preempted;
    PreemptedNotDialing(s.sessions, s.orch, k);
    NotDialingAddsNone(s, e, t);
    OrchestratorShape(s, e, t);
    assert t.sessions[k].preempted;
  }

  lemma StepKeepsPreemption(s: State, e: Event, t: State)
    requires Inv(s) && SeenPreemption(s) && Step(s, e) == Some(t)
    ensures SeenPreemption(t) && t.attempts == s.attempts && |t.sessions| == |s.sessions|
  {
    var k :| 0 <= k < |s.sessions| && s.sessions[k].preempted;
    assert SessionOk(s.sessions[k]);
    match e
    case Cancel => assert t.sessions[k].preempted;
    case ReaderMoves(j, m) =>
      assert SessionOk(s.sessions[j]);
      ReaderKeepsSession(s.sessions[j], m, t.sessions[j]);
      assert t.sessions[k].preempted;
    case WriterMoves(j, m) =>
      assert SessionOk(s.sessions[j]);
      WriterKeepsSession(s.sessions[j], m, t.sessions[j]);
      assert t.sessions[k].preempted;
    case _ => OrchestratorKeepsPreemption(s, e, t);
  }

  lemma PreemptionStays(events: seq<Event>, e: Event)
    requires SeenPreemption(Exec(events))
    ensures var s, t := Exec(events), Exec(events + [e]);
      SeenPreemption(t) && t.attempts == s.attempts && |t.sessions| == |s.sessions|
  {
    ExecInv(events);
    match Step(Exec(events), e)
    case None => assert (events + [e])[..|events|] == events;
    case Some(t) =>
      StepKeepsPreemption(Exec(events), e, t);
      ExecNext(events, Exec(events), e, t);
  }

  /** Once a session has received close code 4001, no attempt begins and no session opens, whatever the
      select statements choose. */
  lemma {:induction false} NoDialAfterPreemption(events: seq<Event>, later: seq<Event>)
    requires SeenPreemption(Exec(events))
    ensures var s, t := Exec(events), Exec(events + later);
      SeenPreemption(t) && t.attempts == s.attempts && |t.sessions| == |s.sessions|
  {
    if later == [] {
      assert events + later == events;
    } else {
      var init, e := later[..|later| - 1], later[|later| - 1];
      var front := events + init;
      var all := front + [e];
      assert events + later == all;
      NoDialAfterPreemption(events, init);
      PreemptionStays(front, e);
    }
  }

  lemma StepKeepsLateCount(s: State, e: Event, t: State)
    requires s.cancelled && Step(s, e) == Some(t)
    ensures t.cancelled && t.attempts - t.lateAttempts == s.attempts - s.lateAttempts
  {
  }

  lemma {:induction false} LateAttemptsCount(events: seq<Event>, later: seq<Event>)
    requires Exec(events).cancelled
    ensures var s, t := Exec(events), Exec(events + later);
      t.cancelled && t.attempts - t.lateAttempts == s.attempts - s.lateAttempts
  {
    if later == [] {
      assert events + later == events;
    } else {
      var init, e := later[..|later| - 1], later[|later| - 1];
      var all, front := events + later, events + init;
      assert all[..|all| - 1] == front && all[|all| - 1] == e;
      LateAttemptsCount(events, init);
      match Step(Exec(front), e)
      case None =>
      case Some(t) => StepKeepsLateCount(Exec(front), e, t);
    }
  }

  /** After the cancellation at most one further attempt begins, even if dialing still worked. */
  lemma AtMostOneLateAttempt(events: seq<Event>, later: seq<Event>)
    requires Exec(events).cancelled
    ensures Exec(events + later).attempts <= Exec(events).attempts + 1
  {
    LateAttemptsCount(events, later);
    ExecInv(events);
    ExecInv(events + later);
  }

  // ---------------------------------------------------------------------------------------------
  // The end of a session.

  ghost function ReaderRank(p: ReaderPc): nat {
    match p
    case Reading => 5
    case Wanting(_) => 4
    case Writing(_) => 3
    case ClosingDoneRead => 2
    case LeavingReader => 1
    case ReaderGone => 0
  }

  ghost function WriterRank(p: WriterPc): nat {
    match p
    case Delivering => 6
    case Copying => 5
    case Receiving => 4
    case Posting(_) => 3
    case ClosingDoneWrite => 2
    case LeavingWriter => 1
    case WriterGone => 0
  }

  /** How many moves the two transfer goroutines can still make once the WebSocket is closed. */
  ghost function TransferRank(s: Session): nat { ReaderRank(s.reader) + WriterRank(s.writer) + 2 * s.buffered }

  /** From `s` to `t` the last session has come nearer to its end, and nothing more is accepted upstream. */
  ghost predicate WindsDown(s: State, t: State) {
    var k := |s.sessions| - 1;
    && k >= 0 && |t.sessions| == |s.sessions| && t.orch == s.orch && t.accepted == s.accepted
    && TransferRank(t.sessions[k]) < TransferRank(s.sessions[k]) <= 11 + 2 * s.sessions[k].buffered
  }

  /** While the orchestrator waits, every move of a transfer goroutine brings the end of the session nearer, and the
      moves left are bounded by what the WebSocket library still holds. */
  lemma SessionWindsDown(events: seq<Event>, e: Event)
    requires Exec(events).orch.Waiting? && (e.ReaderMoves? || e.WriterMoves?)
    ensures var t := Step(Exec(events), e); t.Some? ==> WindsDown(Exec(events), t.value)
  {
    ExecInv(events);
    match Step(Exec(events), e)
    case None =>
    case Some(t) => StepWindsDown(Exec(events), e, t);
  }

  lemma StepWindsDown(s: State, e: Event, t: State)
    requires OrderOk(s.sessions, s.orch) && s.orch.Waiting? && (e.ReaderMoves? || e.WriterMoves?)
    requires Step(s, e) == Some(t)
    ensures WindsDown(s, t)
  {
    match e
    case ReaderMoves(k, m) =>
      ReaderStepShape(s, k, m, t);
      ReaderKeepsSession(s.sessions[k], m, t.sessions[k]);
      ReaderLowersRank(s.sessions[k], m, t.sessions[k]);
      assert k == |s.sessions| - 1;
    case WriterMoves(k, m) =>
      WriterStepShape(s, k, m, t);
      WriterKeepsSession(s.sessions[k], m, t.sessions[k]);
      assert k == |s.sessions| - 1;
  }

  /** The moves that need the client of the local connection: the end of a read or of a write there. */
  predicate ReadsLocally(m: ReaderMove) { m.Read? || m.ReadFails? }

  predicate WritesLocally(m: WriterMove) { m.WriteLocal? || m.WriteLocalFails? }

  /** Some goroutine is in a call on the local connection and the other one is too, or is gone. */
  predicate WaitsForLocalClient(s: Session) {
    && (s.reader.Reading? || s.writer.Delivering?)
    && (s.reader.Reading? || s.reader.ReaderGone?) && (s.writer.Delivering? || s.writer.WriterGone?)
  }

  /** While the orchestrator waits, the session can go on without the local client exactly unless every goroutine that
      is left sits in a read or a write of the local connection, which nothing but that client can end. */
  lemma OnlyTheLocalClientCanBlock(events: seq<Event>)
    requires Exec(events).orch.Waiting?
    ensures var s := Exec(events);
            var k := |s.sessions| - 1;
      k >= 0 &&
      (WaitsForLocalClient(s.sessions[k]) <==>
         && Step(s, AllGone).None?
         && (forall m: WriterMove :: Step(s, WriterMoves(k, m)).Some? ==> WritesLocally(m))
         && (forall m: ReaderMove :: Step(s, ReaderMoves(k, m)).Some? ==> ReadsLocally(m)))
  {
    ExecInv(events);
    LocalClientBlocks(Exec(events));
  }

  lemma LocalClientBlocks(s: State)
    requires OrderOk(s.sessions, s.orch) && s.orch.Waiting?
    ensures var k := |s.sessions| - 1;
      k >= 0 &&
      (WaitsForLocalClient(s.sessions[k]) <==>
         && Step(s, AllGone).None?
         && (forall m: WriterMove :: Step(s, WriterMoves(k, m)).Some? ==> WritesLocally(m))
         && (forall m: ReaderMove :: Step(s, ReaderMoves(k, m)).Some? ==> ReadsLocally(m)))
  {
    var k := |s.sessions| - 1;
    LastLockOk(s.sessions, s.orch);
    SessionBlocks(s.sessions[k], s.orch);
    SessionMoves(s, k);
  }

  lemma SessionMoves(s: State, k: nat)
    requires k < |s.sessions|
    ensures forall m: WriterMove :: Step(s, WriterMoves(k, m)).Some? <==> WriterStep(s.sessions[k], m).Some?
    ensures forall m: ReaderMove :: Step(s, ReaderMoves(k, m)).Some? <==> ReaderStep(s.sessions[k], m).Some?
  {
  }

  lemma SessionBlocks(last: Session, orch: Orchestrator)
    requires SessionOk(last) && LockOk(last, orch) && !orch.Controlling?
    ensures WaitsForLocalClient(last) <==>
              && last.running > 0
              && (forall m: WriterMove :: WriterStep(last, m).Some? ==> WritesLocally(m))
              && (forall m: ReaderMove :: ReaderStep(last, m).Some? ==> ReadsLocally(m))
  {
    if !last.writer.WriterGone? && !last.writer.Delivering? {
      var m := WriterCanMove(last);
    } else if !last.reader.ReaderGone? && !last.reader.Reading? {
      var m := ReaderCanMove(last, orch);
    }
  }

  lemma WriterCanMove(s: Session) returns (m: WriterMove)
    requires SessionOk(s) && !s.writer.WriterGone? && !s.writer.Delivering?
    ensures WriterStep(s, m).Some? && !WritesLocally(m)
  {
    match s.writer
    case Receiving => m := NextFails(OtherError);
    case Copying => m := BodyEnds;
    case Posting(_) => m := Post;
    case ClosingDoneWrite => m := WriterMove.CloseChannel;
    case LeavingWriter => m := WriterMove.Leave;
  }

  lemma ReaderCanMove(s: Session, orch: Orchestrator) returns (m: ReaderMove)
    requires SessionOk(s) && LockOk(s, orch) && !orch.Controlling? && !s.reader.ReaderGone? && !s.reader.Reading?
    ensures ReaderStep(s, m).Some? && !ReadsLocally(m)
  {
    match s.reader
    case Wanting(_) => m := TakeMutex;
    case Writing(_) => m := WriteFails;
    case ClosingDoneRead => m := ReaderMove.CloseChannel;
    case LeavingReader => m := ReaderMove.Leave;
  }

  // ---------------------------------------------------------------------------------------------
  // The mutex.

  lemma LastLockOk(sessions: seq<Session>, orch: Orchestrator)
    requires OrderOk(sessions, orch) && sessions != []
    ensures SessionOk(sessions[|sessions| - 1]) && LockOk(sessions[|sessions| - 1], orch)
  {
  }

  /** The mutex is free unless the reader of the session in progress writes or the orchestrator does, not both. */
  lemma MutexIsExclusive(events: seq<Event>)
    ensures var s := Exec(events);
      s.sessions != [] ==>
        var last := s.sessions[|s.sessions| - 1];
        && (last.locked <==> last.reader.Writing? || s.orch.Controlling?)
        && !(last.reader.Writing? && s.orch.Controlling?)
  {
    ExecInv(events);
    if Exec(events).sessions != [] { LastLockOk(Exec(events).sessions, Exec(events).orch); }
  }

  predicate OfOrchestrator(e: Event) { !e.Cancel? && !e.ReaderMoves? && !e.WriterMoves? }

  /** An orchestrator that wants to send its shutdown message or a ping is stuck exactly while the reader is in its
      write to the WebSocket; that write has no deadline, and nothing but its end frees the mutex. */
  lemma OnlyTheServerCanBlockTheMutex(events: seq<Event>)
    requires Exec(events).orch.Locking?
    ensures var s := Exec(events);
            var k := |s.sessions| - 1;
      && k >= 0
      && (s.sessions[k].reader.Writing? <==> forall e :: OfOrchestrator(e) ==> Step(s, e).None?)
      && (s.sessions[k].reader.Writing? ==> OnlyWriteEnds(s, k))
  {
    ExecInv(events);
    MutexBlocks(Exec(events));
    WriteEnds(Exec(events), |Exec(events).sessions| - 1);
  }

  /** Nothing but the end of its write moves the reader of session `k`. */
  ghost predicate OnlyWriteEnds(s: State, k: nat) {
    forall m: ReaderMove :: Step(s, ReaderMoves(k, m)).Some? ==> m.WriteWorks? || m.WriteFails?
  }

  lemma WriteEnds(s: State, k: nat)
    requires k < |s.sessions|
    ensures s.sessions[k].reader.Writing? ==> OnlyWriteEnds(s, k)
  {
    SessionMoves(s, k);
  }

  lemma MutexBlocks(s: State)
    requires OrderOk(s.sessions, s.orch) && s.orch.Locking?
    ensures s.sessions[|s.sessions| - 1].reader.Writing? <==> forall e :: OfOrchestrator(e) ==> Step(s, e).None?
  {
    if !s.sessions[|s.sessions| - 1].reader.Writing? { assert Step(s, LockMutex).Some?; }
  }

  lemma ExecNext(events: seq<Event>, s: State, e: Event, t: State)
    requires Exec(events) == s && Step(s, e) == Some(t)
    ensures Exec(events + [e]) == t
  {
    assert (events + [e])[..|events|] == events;
  }

  /** A session like `x`, and nothing else but the first attempt. */
  function OneSession(orch: Orchestrator, x: Session): State {
    State([x], orch, false, 1, 0, [], [])
  }

  lemma OneWriterStep(orch: Orchestrator, x: Session, m: WriterMove, y: Session)
    requires WriterStep(x, m) == Some(y)
    ensures Step(OneSession(orch, x), WriterMoves(0, m)) == Some(OneSession(orch, y))
  {
    assert [x][0 := y] == [y];
  }

  lemma OneReaderStep(orch: Orchestrator, x: Session, m: ReaderMove, y: Session)
    requires ReaderStep(x, m) == Some(y) && !m.Read? && !m.WriteWorks?
    ensures Step(OneSession(orch, x), ReaderMoves(0, m)) == Some(OneSession(orch, y))
  {
    var none: Chunk := [];
    assert [x][0 := y] == [y] && none + none == none;
  }

  lemma ThreeSteps(events: seq<Event>, s: State, e1: Event, s1: State, e2: Event, s2: State, e3: Event, s3: State)
    requires Exec(events) == s && Step(s, e1) == Some(s1) && Step(s1, e2) == Some(s2) && Step(s2, e3) == Some(s3)
    ensures Exec(events + [e1] + [e2] + [e3]) == s3
  {
    ExecNext(events, s, e1, s1);
    ExecNext(events + [e1], s1, e2, s2);
    ExecNext(events + [e1] + [e2], s2, e3, s3);
  }

  lemma FirstSession() returns (events: seq<Event>)
    ensures Exec(events) == OneSession(Selecting, NewSession)
  {
    var begun: seq<Event> := [] + [Begin];
    var dialing := Init.(orch := Dialing, attempts := 1);
    ExecNext([], Init, Begin, dialing);
    assert [] + [NewSession] == [NewSession];
    ExecNext(begun, dialing, ConnectWorks, OneSession(Selecting, NewSession));
    events := begun + [ConnectWorks];
  }

  lemma BlockedInWrite() returns (events: seq<Event>)
    ensures Exec(events) == OneSession(Selecting, NewSession.(writer := Delivering))
  {
    var front := FirstSession();
    var x, y := NewSession.(writer := Copying), NewSession.(writer := Delivering);
    var next := front + [WriterMoves(0, NextMessage)];
    OneWriterStep(Selecting, NewSession, NextMessage, x);
    OneWriterStep(Selecting, x, BodyPiece, y);
    ExecNext(front, OneSession(Selecting, NewSession), WriterMoves(0, NextMessage), OneSession(Selecting, x));
    ExecNext(next, OneSession(Selecting, x), WriterMoves(0, BodyPiece), OneSession(Selecting, y));
    events := next + [WriterMoves(0, BodyPiece)];
  }

  lemma ReaderLeaves(e: seq<Event>, x: Session) returns (events: seq<Event>)
    requires Exec(e) == OneSession(Selecting, x) && x.reader.Reading? && x.running > 0
    ensures Exec(events) == OneSession(Selecting, x.(reader := ReaderGone, doneRead := true, running := x.running - 1))
  {
    var x1 := x.(reader := ClosingDoneRead);
    var x2 := x.(reader := LeavingReader, doneRead := true);
    var x3 := x.(reader := ReaderGone, doneRead := true, running := x.running - 1);
    OneReaderStep(Selecting, x, ReadFails, x1);
    OneReaderStep(Selecting, x1, ReaderMove.CloseChannel, x2);
    OneReaderStep(Selecting, x2, ReaderMove.Leave, x3);
    ThreeSteps(e, OneSession(Selecting, x), ReaderMoves(0, ReadFails), OneSession(Selecting, x1),
               ReaderMoves(0, ReaderMove.CloseChannel), OneSession(Selecting, x2),
               ReaderMoves(0, ReaderMove.Leave), OneSession(Selecting, x3));
    events := e + [ReaderMoves(0, ReadFails)] + [ReaderMoves(0, ReaderMove.CloseChannel)]
      + [ReaderMoves(0, ReaderMove.Leave)];
  }

  /** Both kinds of waiting happen: a client that has shut down its sending side and reads no more keeps the wait going
      by the write alone. */
  lemma LocalWriteCanBlock() returns (events: seq<Event>)
    ensures var s := Exec(events);
      && s.orch.Waiting? && |s.sessions| == 1
      && s.sessions[0].reader.ReaderGone? && s.sessions[0].writer.Delivering?
  {
    var blocked := BlockedInWrite();
    var x := NewSession.(writer := Delivering);
    var left := ReaderLeaves(blocked, x);
    var y := x.(reader := ReaderGone, doneRead := true, running := 1);
    ExecNext(left, Exec(left), SelectDoneRead, OneSession(Closing(Clean), y));
    events := left + [SelectDoneRead] + [CloseWs(0)];
    assert [y][0 := y.(wsClosed := true)] == [y.(wsClosed := true)];
    ExecNext(left + [SelectDoneRead], OneSession(Closing(Clean), y), CloseWs(0),
             OneSession(Waiting(Clean), y.(wsClosed := true)));
  }

  lemma WritingSteps(chunk: Chunk) returns (s1: State, s2: State)
    requires |chunk| <= BUFFER_SIZE
    ensures Step(OneSession(Selecting, NewSession), ReaderMoves(0, Read(chunk))) == Some(s1)
    ensures Step(s1, ReaderMoves(0, TakeMutex)) == Some(s2)
    ensures s2.orch == Selecting && !s2.cancelled && |s2.sessions| == 1 && s2.sessions[0].reader == Writing(chunk)
  {
    s1 := Step(OneSession(Selecting, NewSession), ReaderMoves(0, Read(chunk))).value;
    s2 := Step(s1, ReaderMoves(0, TakeMutex)).value;
  }

  lemma WritingSession(chunk: Chunk) returns (events: seq<Event>, s: State)
    requires |chunk| <= BUFFER_SIZE
    ensures Exec(events) == s && s.orch == Selecting && !s.cancelled && |s.sessions| == 1
    ensures s.sessions[0].reader == Writing(chunk)
  {
    var front := FirstSession();
    var read;
    read, s := WritingSteps(chunk);
    ExecNext(front, OneSession(Selecting, NewSession), ReaderMoves(0, Read(chunk)), read);
    events := front + [ReaderMoves(0, Read(chunk))] + [ReaderMoves(0, TakeMutex)];
    ExecNext(front + [ReaderMoves(0, Read(chunk))], read, ReaderMoves(0, TakeMutex), s);
  }

  /** A server that stops reading can hold up a shutdown before the WebSocket is closed. */
  lemma ShutdownCanBeBlocked(chunk: Chunk) returns (events: seq<Event>)
    requires |chunk| <= BUFFER_SIZE
    ensures var s := Exec(events);
      && s.cancelled && s.orch == Locking(Shutdown) && |s.sessions| == 1 && s.sessions[0].reader == Writing(chunk)
  {
    var front, s := WritingSession(chunk);
    ExecNext(front, s, Cancel, s.(cancelled := true));
    events := front + [Cancel] + [SelectCancel];
    ExecNext(front + [Cancel], s.(cancelled := true), SelectCancel, s.(cancelled := true, orch := Locking(Shutdown)));
  }

  // ---------------------------------------------------------------------------------------------
  // When the loop dials again.

  /** What a session comes to that ended in this way: only an abnormal close, a broken message or a failed write to the
      local connection is a reason to dial again. */
  function Ends(m: WriterMove): Result {
    match m
    case NextFails(CloseError(code)) =>
      if code == 4001 then Preempted else if code == 1000 || code == 1001 then Clean else Broken
    case NextFails(OtherError) => Clean
    case BodyFails(CloseError(code)) => if code == 4001 then Preempted else Broken
    case BodyFails(OtherError) => Broken
    case WriteLocalFails => Broken
    case _ => Clean
  }

  /** The error posted for a failure. */
  ghost predicate Posted(err: Option<Error>, m: WriterMove, preempted: bool) {
    && (Ends(m).Clean? <==> err.None?)
    && (Ends(m).Preempted? <==> err == Some(CloseError(4001)))
    && (preempted <==> Ends(m).Preempted?)
  }

  ghost predicate Running(s: Session) {
    s.failure.None? && s.doneWrite.None? && !s.doneWriteClosed && !s.preempted
  }

  ghost predicate FailureOk(s: Session) {
    match s.writer
    case Posting(err) =>
      s.failure.Some? && s.doneWrite.None? && !s.doneWriteClosed && Posted(err, s.failure.value, s.preempted)
    case Receiving => Running(s)
    case Copying => Running(s)
    case Delivering => Running(s)
    case _ => s.failure.Some? && s.doneWrite.Some? && Posted(s.doneWrite.value, s.failure.value, s.preempted)
  }

  ghost predicate FailuresOk(sessions: seq<Session>) {
    forall k :: 0 <= k < |sessions| ==> FailureOk(sessions[k])
  }

  lemma WriterKeepsFailure(s: Session, m: WriterMove, t: Session)
    requires FailureOk(s) && WriterStep(s, m) == Some(t)
    ensures FailureOk(t)
  {
  }

  lemma ReaderKeepsFailure(s: Session, m: ReaderMove, t: Session)
    requires FailureOk(s) && ReaderStep(s, m) == Some(t)
    ensures FailureOk(t)
  {
  }

  lemma StepKeepsFailures(s: State, e: Event, t: State)
    requires FailuresOk(s.sessions) && Step(s, e) == Some(t)
    ensures FailuresOk(t.sessions)
  {
    match e
    case Cancel =>
    case ReaderMoves(k, m) =>
      ReaderStepShape(s, k, m, t);
      ReaderKeepsFailure(s.sessions[k], m, t.sessions[k]);
    case WriterMoves(k, m) =>
      WriterStepShape(s, k, m, t);
      WriterKeepsFailure(s.sessions[k], m, t.sessions[k]);
    case _ => OrchestratorShape(s, e, t);
  }

  lemma {:induction false} ExecFailures(events: seq<Event>)
    ensures FailuresOk(Exec(events).sessions)
  {
    if events != [] {
      var s := Exec(events[..|events| - 1]);
      ExecFailures(events[..|events| - 1]);
      match Step(s, events[|events| - 1])
      case None =>
      case Some(t) => StepKeepsFailures(s, events[|events| - 1], t);
    }
  }

  /** In every run: a session that the orchestrator leaves through doneWrite comes to what its failure calls for, and
      that is Broken for every posted error but close code 4001; through doneRead it always ends clean. */
  lemma ResultOfSession(events: seq<Event>, e: Event, t: State)
    requires Step(Exec(events), e) == Some(t) && (e.SelectDoneRead? || e.SelectDoneWrite?)
    ensures var s := Exec(events);
      s.sessions != [] &&
      var last := s.sessions[|s.sessions| - 1];
      && t.orch.Closing? && t == s.(orch := t.orch)
      && (e.SelectDoneRead? ==> last.doneRead && t.orch.result == Clean)
      && (e.SelectDoneWrite? ==>
            && last.failure.Some? && last.doneWrite.Some? && t.orch.result == Ends(last.failure.value)
            && (t.orch.result == Clean <==> last.doneWrite == Some(None))
            && (t.orch.result == Preempted <==> last.doneWrite == Some(Some(CloseError(4001)))))
  {
    ExecFailures(events);
    var s := Exec(events);
    SelectResult(s, e, t);
    if e.SelectDoneWrite? { ResultFits(s.sessions[|s.sessions| - 1]); }
  }

  lemma SelectResult(s: State, e: Event, t: State)
    requires Step(s, e) == Some(t) && (e.SelectDoneRead? || e.SelectDoneWrite?)
    ensures s.sessions != [] && t.orch.Closing? && t == s.(orch := t.orch)
    ensures var last := s.sessions[|s.sessions| - 1];
      && (e.SelectDoneRead? ==> last.doneRead && t.orch.result == Clean)
      && (e.SelectDoneWrite? ==> FromDoneWrite(last) == Some(t.orch.result))
  {
  }

  lemma ResultFits(last: Session)
    requires FailureOk(last) && FromDoneWrite(last).Some?
    ensures last.failure.Some? && last.doneWrite.Some? && FromDoneWrite(last) == Some(Ends(last.failure.value))
    ensures FromDoneWrite(last) == Some(Clean) <==> last.doneWrite == Some(None)
    ensures FromDoneWrite(last) == Some(Preempted) <==> last.doneWrite == Some(Some(CloseError(4001)))
  {
  }

  /** The writer is in the call that ends in this way. */
  ghost predicate CanFail(s: Session, m: WriterMove) {
    match m
    case NextFails(_) => s.writer.Receiving?
    case BodyFails(_) => s.writer.Copying?
    case WriteLocalFails => s.writer.Delivering?
    case _ => false
  }

  /** Every failure is possible where its call is, and a selecting orchestrator can take it at once: the session then
      ends as that failure calls for. */
  lemma AnyFailureCanEndIt(events: seq<Event>, m: WriterMove)
    requires var s := Exec(events);
      && s.orch.Selecting?
      && (s.sessions != [] ==> CanFail(s.sessions[|s.sessions| - 1], m))
    ensures var s := Exec(events);
            var k := |s.sessions| - 1;
      && k >= 0
      && Exec(events + [WriterMoves(k, m)] + [WriterMoves(k, Post)] + [SelectDoneWrite]).orch == Closing(Ends(m))
  {
    var s := Exec(events);
    SelectingFacts(events, s);
    ExecFailures(events);
    var s1, s2, s3 := FailureSteps(s, m);
    var k := |s.sessions| - 1;
    ThreeSteps(events, s, WriterMoves(k, m), s1, WriterMoves(k, Post), s2, SelectDoneWrite, s3);
  }

  lemma FailureSteps(s: State, m: WriterMove) returns (s1: State, s2: State, s3: State)
    requires s.orch.Selecting? && s.sessions != []
    requires CanFail(s.sessions[|s.sessions| - 1], m) && FailureOk(s.sessions[|s.sessions| - 1])
    ensures var k := |s.sessions| - 1;
      && Step(s, WriterMoves(k, m)) == Some(s1) && Step(s1, WriterMoves(k, Post)) == Some(s2)
      && Step(s2, SelectDoneWrite) == Some(s3) && s3.orch == Closing(Ends(m))
  {
    var k := |s.sessions| - 1;
    var x := s.sessions[k];
    var y := WriterStep(x, m).value;
    var z := WriterStep(y, Post).value;
    s1 := s.(sessions := s.sessions[k := y]);
    s2 := s.(sessions := s.sessions[k := z]);
    assert s.sessions[k := x] == s.sessions;
    WriterStepAt(s, k, x, m, y);
    WriterStepAt(s, k, y, Post, z);
    WriterKeepsFailure(x, m, y);
    WriterKeepsFailure(y, Post, z);
    ResultFits(z);
    s3 := s2.(orch := Closing(Ends(m)));
  }

  /** The loop will not dial again: it has returned, is shutting down, or ends a session for another reason than a
      failure. */
  predicate Over(o: Orchestrator) {
    match o
    case Locking(purpose) => purpose.Shutdown?
    case Controlling(purpose) => purpose.Shutdown?
    case Closing(result) => !result.Broken?
    case Waiting(result) => !result.Broken?
    case Deciding(result) => !result.Broken?
    case Returned => true
    case _ => false
  }

  lemma StepKeepsOver(s: State, e: Event, t: State)
    requires Over(s.orch) && Step(s, e) == Some(t)
    ensures Over(t.orch) && t.attempts == s.attempts
  {
  }

  lemma OverStays(events: seq<Event>, e: Event)
    requires Over(Exec(events).orch)
    ensures Over(Exec(events + [e]).orch) && Exec(events + [e]).attempts == Exec(events).attempts
  {
    match Step(Exec(events), e)
    case None => assert (events + [e])[..|events|] == events;
    case Some(t) =>
      StepKeepsOver(Exec(events), e, t);
      ExecNext(events, Exec(events), e, t);
  }

  lemma {:induction false} NoFurtherAttempt(events: seq<Event>, later: seq<Event>)
    requires Over(Exec(events).orch)
    ensures Over(Exec(events + later).orch) && Exec(events + later).attempts == Exec(events).attempts
  {
    if later == [] {
      assert events + later == events;
    } else {
      var init, e := later[..|later| - 1], later[|later| - 1];
      var front := events + init;
      var all := front + [e];
      assert events + later == all;
      NoFurtherAttempt(events, init);
      OverStays(front, e);
    }
  }

  /** While the orchestrator waits, some transfer goroutine that is left has a move. */
  lemma TransferCanMove(s: State) returns (e: Event, t: State)
    requires OrderOk(s.sessions, s.orch) && s.orch.Waiting?
    requires s.sessions[|s.sessions| - 1].running > 0
    ensures (e.ReaderMoves? || e.WriterMoves?) && Step(s, e) == Some(t)
    ensures t.orch == s.orch && t.cancelled == s.cancelled && t.attempts == s.attempts
  {
    var k := |s.sessions| - 1;
    var last := s.sessions[k];
    SessionMoves(s, k);
    if !last.writer.WriterGone? {
      var m := WriteLocalFails;
      if !last.writer.Delivering? { m := WriterCanMove(last); }
      e := WriterMoves(k, m);
      t := Step(s, e).value;
      WriterStepShape(s, k, m, t);
    } else {
      var m := ReadFails;
      if !last.reader.Reading? { m := ReaderCanMove(last, s.orch); }
      e := ReaderMoves(k, m);
      t := Step(s, e).value;
      ReaderStepShape(s, k, m, t);
    }
  }

  /** How far the session in progress is from its end. */
  ghost function Left(s: State): nat {
    if s.sessions == [] then 0 else TransferRank(s.sessions[|s.sessions| - 1])
  }

  lemma WaitingOrder(events: seq<Event>, s: State)
    requires Exec(events) == s
    ensures OrderOk(s.sessions, s.orch)
    ensures s.orch.Waiting? || s.orch.Closing? || s.orch.Selecting? ==> s.sessions != []
  {
    ExecInv(events);
  }

  lemma WaitStep(events: seq<Event>, s: State) returns (longer: seq<Event>, t: State)
    requires Exec(events) == s && s.orch.Waiting? && s.sessions != [] && s.sessions[|s.sessions| - 1].running > 0
    ensures events <= longer && Exec(longer) == t
    ensures t.orch == s.orch && t.cancelled == s.cancelled && t.attempts == s.attempts && Left(t) < Left(s)
  {
    WaitingOrder(events, s);
    var e;
    e, t := TransferCanMove(s);
    StepWindsDown(s, e, t);
    ExecNext(events, s, e, t);
    longer := events + [e];
  }

  lemma WaitEnds(events: seq<Event>, s: State) returns (longer: seq<Event>)
    requires Exec(events) == s && s.orch.Waiting? && s.sessions != [] && s.sessions[|s.sessions| - 1].running == 0
    ensures events <= longer && Exec(longer) == s.(orch := Deciding(s.orch.result))
  {
    longer := events + [AllGone];
    ExecNext(events, s, AllGone, s.(orch := Deciding(s.orch.result)));
  }

  /** The goroutines of a closed session can leave. */
  lemma {:induction false} SessionCanFinish(events: seq<Event>, s: State) returns (longer: seq<Event>, t: State)
    requires Exec(events) == s && s.orch.Waiting?
    ensures events <= longer && Exec(longer) == t
    ensures t.orch == Deciding(s.orch.result) && t.attempts == s.attempts && t.cancelled == s.cancelled
    decreases Left(s)
  {
    WaitingOrder(events, s);
    if s.sessions[|s.sessions| - 1].running == 0 {
      longer := WaitEnds(events, s);
      t := s.(orch := Deciding(s.orch.result));
    } else {
      var front, next := WaitStep(events, s);
      longer, t := SessionCanFinish(front, next);
    }
  }

  lemma CanDialAgain(events: seq<Event>, s: State) returns (longer: seq<Event>)
    requires Exec(events) == s && s.orch == Deciding(Broken) && !s.cancelled
    ensures events <= longer && Exec(longer).attempts == s.attempts + 1
  {
    var e1 := events + [GoOn];
    var e2 := e1 + [WakeTimer];
    ExecNext(events, s, GoOn, s.(orch := Sleeping));
    ExecNext(e1, s.(orch := Sleeping), WakeTimer, s.(orch := Starting));
    ExecNext(e2, s.(orch := Starting), Begin, s.(orch := Dialing, attempts := s.attempts + 1));
    longer := e2 + [Begin];
  }

  lemma CloseCanHappen(events: seq<Event>, s: State) returns (longer: seq<Event>, t: State)
    requires Exec(events) == s && s.orch.Closing? && s.sessions != []
    ensures events <= longer && Exec(longer) == t
    ensures t.orch == Waiting(s.orch.result) && t.attempts == s.attempts && t.cancelled == s.cancelled
  {
    t := Step(s, CloseWs(0)).value;
    longer := events + [CloseWs(0)];
    ExecNext(events, s, CloseWs(0), t);
  }

  lemma BrokenSessionCanReconnect(events: seq<Event>, s: State) returns (later: seq<Event>)
    requires Exec(events) == s && s.orch == Closing(Broken) && !s.cancelled
    ensures Exec(events + later).attempts == s.attempts + 1
  {
    WaitingOrder(events, s);
    var closing, t := CloseCanHappen(events, s);
    var over, u := SessionCanFinish(closing, t);
    var longer := CanDialAgain(over, u);
    later := longer[|events|..];
    assert longer == events + later;
  }

  /** The exact condition, at the end of any session of any run that is not cancelled: the loop can dial again if and
      only if the session was left through doneWrite and its failure calls for it.  Close codes other than 1000, 1001
      and 4001, a broken message and a failed local write do; the local end of the connection, a normal close, a
      preemption and a read failure that is no close do not, whatever happens later. */
  lemma ReconnectsIff(events: seq<Event>, e: Event)
    requires !Exec(events).cancelled && Step(Exec(events), e).Some? && (e.SelectDoneRead? || e.SelectDoneWrite?)
    ensures var s := Exec(events);
      s.sessions != [] &&
      var last := s.sessions[|s.sessions| - 1];
      && (e.SelectDoneWrite? ==> last.failure.Some?)
      && ((exists later: seq<Event> :: Exec(events + [e] + later).attempts > s.attempts)
          <==> e.SelectDoneWrite? && Ends(last.failure.value) == Broken)
  {
    var s := Exec(events);
    var t := Step(s, e).value;
    ResultOfSession(events, e, t);
    ExecNext(events, s, e, t);
    if t.orch.result == Broken {
      var later := BrokenSessionCanReconnect(events + [e], t);
      assert Exec(events + [e] + later).attempts > s.attempts;
    } else {
      forall later: seq<Event> ensures Exec(events + [e] + later).attempts == s.attempts {
        NoFurtherAttempt(events + [e], later);
      }
    }
  }

  /** A failed dial can be retried, and a shutdown is final: after it has been taken nothing dials again. */
  lemma DialFailureIsRetried(events: seq<Event>) returns (later: seq<Event>)
    requires Exec(events).orch.Dialing? && !Exec(events).cancelled
    ensures Exec(events + [ConnectFails] + later).attempts == Exec(events).attempts + 1
  {
    var s := Exec(events);
    ExecNext(events, s, ConnectFails, s.(orch := Deciding(Broken)));
    var front := events + [ConnectFails];
    var longer := CanDialAgain(front, s.(orch := Deciding(Broken)));
    later := longer[|front|..];
    assert longer == front + later;
  }

  lemma ShutdownIsFinal(events: seq<Event>, later: seq<Event>)
    requires Exec(events).orch.Selecting? && Exec(events).cancelled
    ensures Step(Exec(events), SelectCancel).Some?
    ensures Exec(events + [SelectCancel] + later).attempts == Exec(events).attempts
  {
    ExecInv(events);
    var s := Exec(events);
    ExecNext(events, s, SelectCancel, s.(orch := Locking(Shutdown)));
    NoFurtherAttempt(events + [SelectCancel], later);
  }

  /** A cancelled loop returns: from its sleep at once, and after a session or a failed dial without another attempt. */
  lemma CancelledLoopReturns(events: seq<Event>)
    requires Exec(events).cancelled
    ensures Exec(events).orch.Sleeping? ==> Exec(events + [WakeCancelled]) == Exec(events).(orch := Returned)
    ensures Exec(events).orch.Deciding? ==> Exec(events + [GoOn]) == Exec(events).(orch := Returned)
    ensures Exec(events).orch.Dialing? ==> Exec(events + [ConnectFails] + [GoOn]) == Exec(events).(orch := Returned)
  {
    var s := Exec(events);
    var back := s.(orch := Returned);
    if s.orch.Sleeping? { ExecNext(events, s, WakeCancelled, back); }
    if s.orch.Deciding? { ExecNext(events, s, GoOn, back); }
    if s.orch.Dialing? {
      ExecNext(events, s, ConnectFails, s.(orch := Deciding(Broken)));
      ExecNext(events + [ConnectFails], s.(orch := Deciding(Broken)), GoOn, back);
    }
  }

  // ---------------------------------------------------------------------------------------------
  // A session works.

  lemma SelectingFacts(events: seq<Event>, s: State)
    requires Exec(events) == s && s.orch.Selecting?
    ensures s.sessions != []
    ensures var last := s.sessions[|s.sessions| - 1]; !last.wsClosed && (last.locked <==> last.reader.Writing?)
  {
    ExecInv(events);
  }

  /** When the reader is not in a write, a ping goes out and changes nothing. */
  lemma PingChangesNothing(events: seq<Event>)
    requires var s := Exec(events);
      s.orch.Selecting? && (s.sessions != [] ==> !s.sessions[|s.sessions| - 1].reader.Writing?)
    ensures Exec(events + [SelectPing] + [LockMutex] + [ControlWritten]) == Exec(events)
  {
    var s := Exec(events);
    SelectingFacts(events, s);
    var s1, s2 := PingSteps(s);
    ThreeSteps(events, s, SelectPing, s1, LockMutex, s2, ControlWritten, s);
  }

  lemma PingSteps(s: State) returns (s1: State, s2: State)
    requires s.orch.Selecting? && s.sessions != [] && !s.sessions[|s.sessions| - 1].locked
    ensures Step(s, SelectPing) == Some(s1) && Step(s1, LockMutex) == Some(s2) && Step(s2, ControlWritten) == Some(s)
  {
    var k := |s.sessions| - 1;
    var x := s.sessions[k];
    s1 := s.(orch := Locking(Ping));
    s2 := s.(orch := Controlling(Ping), sessions := s.sessions[k := x.(locked := true)]);
    assert s.sessions[k := x.(locked := true)][k := x] == s.sessions;
  }

  /** A chunk of the size of the buffer or smaller can be read and is accepted as it is. */
  lemma ChunkCanPass(events: seq<Event>, chunk: Chunk)
    requires |chunk| <= 32768
    requires var s := Exec(events);
      s.orch.Selecting? && (s.sessions != [] ==> s.sessions[|s.sessions| - 1].reader.Reading?)
    ensures var s := Exec(events);
            var k := |s.sessions| - 1;
      k >= 0 &&
      var t := Exec(events + [ReaderMoves(k, Read(chunk))] + [ReaderMoves(k, TakeMutex)]
                      + [ReaderMoves(k, WriteWorks)]);
      && t.input == s.input + chunk && t.accepted == s.accepted + chunk
      && t.orch.Selecting? && |t.sessions| == |s.sessions| && t.sessions[k].reader.Reading?
  {
    var s := Exec(events);
    SelectingFacts(events, s);
    var k := |s.sessions| - 1;
    var s1, s2, s3 := ChunkSteps(s, chunk);
    ThreeSteps(events, s, ReaderMoves(k, Read(chunk)), s1, ReaderMoves(k, TakeMutex), s2,
               ReaderMoves(k, WriteWorks), s3);
  }

  lemma ChunkSteps(s: State, chunk: Chunk) returns (s1: State, s2: State, s3: State)
    requires |chunk| <= 32768 && s.orch.Selecting? && s.sessions != []
    requires var x := s.sessions[|s.sessions| - 1]; x.reader.Reading? && !x.locked && !x.wsClosed
    ensures var k := |s.sessions| - 1;
      && Step(s, ReaderMoves(k, Read(chunk))) == Some(s1) && Step(s1, ReaderMoves(k, TakeMutex)) == Some(s2)
      && Step(s2, ReaderMoves(k, WriteWorks)) == Some(s3)
      && s3.input == s.input + chunk && s3.accepted == s.accepted + chunk
      && s3.orch.Selecting? && |s3.sessions| == |s.sessions| && s3.sessions[k].reader.Reading?
  {
    var k := |s.sessions| - 1;
    s1 := Step(s, ReaderMoves(k, Read(chunk))).value;
    s2 := Step(s1, ReaderMoves(k, TakeMutex)).value;
    s3 := Step(s2, ReaderMoves(k, WriteWorks)).value;
    assert s.accepted + [] + [] == s.accepted;
    assert s.input + chunk + [] + [] == s.input + chunk;
  }

  /** A message of one piece can be received, is written to the local connection, and leaves all ready for the next. */
  lemma MessageCanPass(events: seq<Event>)
    requires var s := Exec(events);
      s.orch.Selecting? && (s.sessions != [] ==> s.sessions[|s.sessions| - 1].writer.Receiving?)
    ensures var s := Exec(events);
            var k := |s.sessions| - 1;
      k >= 0 &&
      Exec(events + [WriterMoves(k, NextMessage)] + [WriterMoves(k, BodyPiece)] + [WriterMoves(k, WriteLocal)]
                  + [WriterMoves(k, BodyEnds)]) == s
  {
    var s := Exec(events);
    SelectingFacts(events, s);
    var k := |s.sessions| - 1;
    var s1, s2 := MessageSteps(s);
    ThreeSteps(events, s, WriterMoves(k, NextMessage), s1, WriterMoves(k, BodyPiece), s2,
               WriterMoves(k, WriteLocal), s1);
    ExecNext(events + [WriterMoves(k, NextMessage)] + [WriterMoves(k, BodyPiece)] + [WriterMoves(k, WriteLocal)],
             s1, WriterMoves(k, BodyEnds), s);
  }

  lemma WriterStepAt(s: State, k: nat, x: Session, m: WriterMove, y: Session)
    requires k < |s.sessions| && WriterStep(x, m) == Some(y)
    ensures Step(s.(sessions := s.sessions[k := x]), WriterMoves(k, m)) == Some(s.(sessions := s.sessions[k := y]))
  {
    assert s.sessions[k := x][k := y] == s.sessions[k := y];
  }

  lemma MessageSteps(s: State) returns (s1: State, s2: State)
    requires s.orch.Selecting? && s.sessions != []
    requires var x := s.sessions[|s.sessions| - 1]; x.writer.Receiving? && !x.wsClosed
    ensures var k := |s.sessions| - 1;
      && Step(s, WriterMoves(k, NextMessage)) == Some(s1) && Step(s1, WriterMoves(k, BodyPiece)) == Some(s2)
      && Step(s2, WriterMoves(k, WriteLocal)) == Some(s1) && Step(s1, WriterMoves(k, BodyEnds)) == Some(s)
  {
    var k := |s.sessions| - 1;
    var x := s.sessions[k];
    var y, z := x.(writer := Copying), x.(writer := Delivering);
    s1 := s.(sessions := s.sessions[k := y]);
    s2 := s.(sessions := s.sessions[k := z]);
    assert s.sessions[k := x] == s.sessions;
    WriterStepAt(s, k, x, NextMessage, y);
    WriterStepAt(s, k, y, BodyPiece, z);
    WriterStepAt(s, k, z, WriteLocal, y);
    WriterStepAt(s, k, y, BodyEnds, x);
  }
}
