/**
  Forwarding of keyboard input to a remote PTY: a goroutine reads stdin and sends each piece through a channel
  of 128, a second one collects the pieces and flushes them on a ticker, and the session ends by cancelling
  both and closing the channel.

  Byte slices are addresses of buffers, so that reuse is visible: buffer 0 is the one stdin is read into again
  and again, and the list of pending pieces lives in a backing array that is kept across flushes.
*/
module PtyInput {
  import opened Prelude

  type Bytes = seq<bv8>

  const READ_SIZE := 1024
  const CHANNEL_SIZE := 128

  /** The stdin reader.  `last` says that the read also returned an error. */
  datatype ReaderPc = Reading | Filled(n: nat, last: bool) | Holding(buf: nat, last: bool) | ReaderDone
    | Panicked(buf: nat)

  /** The flusher; `leave` says that it returns after the flush. */
  datatype FlusherPc = Selecting | Joining(leave: bool) | Resetting(payload: nat, leave: bool)
    | Sending(payload: nat, leave: bool) | FlusherDone

  datatype State = State(
    buffers: seq<Bytes>,
    reader: ReaderPc,
    flusher: FlusherPc,
    queue: seq<nat>,
    closed: bool,
    backing: seq<nat>,     // the array under the slice `pending`
    used: nat,             // the length of the slice `pending`
    cancelled: bool,
    input: Bytes,          // every byte read from stdin
    sent: seq<nat>,        // the payloads given to SendInput
    dropped: Bytes)        // what the reader held when it saw the cancellation

  datatype Event =
    | ReadStdin(data: Bytes, failed: bool)
    | CopyData
    | SendData
    | ReaderCancelled
    | Receive(spare: seq<nat>)    // `spare` is the rest of the array should append have to move it
    | ReceiveClosed
    | Tick
    | FlusherCancelled
    | Join
    | Reset
    | Send
    | Cancel
    | CloseChannel

  function Init(buffer: Bytes): State
    requires |buffer| == READ_SIZE
  {
    State([buffer], Reading, Selecting, [], false, [], 0, false, [], [], [])
  }

  /** The contents of some buffers, one after the other. */
  function Gather(buffers: seq<Bytes>, ids: seq<nat>): Bytes {
    if ids == [] then []
    else
      var id := ids[|ids| - 1];
      Gather(buffers, ids[..|ids| - 1]) + if id < |buffers| then buffers[id] else []
  }

  function Pending(s: State): seq<nat>
    requires s.used <= |s.backing|
  {
    s.backing[..s.used]
  }

  /** append(pending, buf): in place when there is room, else in a new array with `spare` room. */
  function Append(backing: seq<nat>, used: nat, buf: nat, spare: seq<nat>): seq<nat>
    requires used <= |backing|
  {
    if used < |backing| then backing[used := buf] else backing + [buf] + spare
  }

  function ReaderStep(s: State, e: Event): Option<State> {
    match (s.reader, e)
    case (Reading, ReadStdin(data, failed)) =>
      if s.buffers == [] || |data| > |s.buffers[0]| then None
      else
        Some(s.(buffers := s.buffers[0 := data + s.buffers[0][|data|..]], input := s.input + data,
                reader := if |data| > 0 then Filled(|data|, failed) else if failed then ReaderDone else Reading))
    case (Filled(n, last), CopyData) =>
      if s.buffers == [] || n > |s.buffers[0]| then None
      else Some(s.(buffers := s.buffers + [s.buffers[0][..n]], reader := Holding(|s.buffers|, last)))
    case (Holding(buf, last), SendData) =>
      if s.closed then Some(s.(reader := Panicked(buf)))
      else if |s.queue| < CHANNEL_SIZE
      then Some(s.(queue := s.queue + [buf], reader := if last then ReaderDone else Reading))
      else None
    case (Holding(buf, last), ReaderCancelled) =>
      if s.cancelled then Some(s.(reader := ReaderDone, dropped := Gather(s.buffers, [buf]))) else None
    case _ => None
  }

  function FlusherStep(s: State, e: Event): Option<State>
    requires s.used <= |s.backing|
  {
    match (s.flusher, e)
    case (Selecting, Receive(spare)) =>
      if s.queue == [] then None
      else Some(s.(queue := s.queue[1..], backing := Append(s.backing, s.used, s.queue[0], spare), used := s.used + 1))
    case (Selecting, ReceiveClosed) => if s.closed && s.queue == [] then Some(Flush(s, true)) else None
    case (Selecting, Tick) => Some(Flush(s, false))
    case (Selecting, FlusherCancelled) => if s.cancelled then Some(Flush(s, true)) else None
    case (Joining(leave), Join) =>
      Some(s.(buffers := s.buffers + [Gather(s.buffers, Pending(s))], flusher := Resetting(|s.buffers|, leave)))
    case (Resetting(payload, leave), Reset) => Some(s.(used := 0, flusher := Sending(payload, leave)))
    case (Sending(payload, leave), Send) =>
      Some(s.(sent := s.sent + [payload], flusher := if leave then FlusherDone else Selecting))
    case _ => None
  }

  /** Begin a flush; with nothing pending it is over at once. */
  function Flush(s: State, leave: bool): State {
    s.(flusher := if s.used > 0 then Joining(leave) else if leave then FlusherDone else Selecting)
  }

  predicate Shaped(s: State) { s.used <= |s.backing| }

  function Step(s: State, e: Event): (t: Option<State>)
    requires Shaped(s)
    ensures t.Some? ==> Shaped(t.value)
  {
    if s.reader.Panicked? then None
    else
      match e
      case Cancel => Some(s.(cancelled := true))
      case CloseChannel => if s.cancelled && !s.closed then Some(s.(closed := true)) else None
      case _ =>
        if e.ReadStdin? || e.CopyData? || e.SendData? || e.ReaderCancelled? then ReaderStep(s, e) else FlusherStep(s, e)
  }

  function Exec(buffer: Bytes, events: seq<Event>): (s: State)
    requires |buffer| == READ_SIZE
    ensures Shaped(s)
  {
    if events == [] then Init(buffer)
    else
      var s := Exec(buffer, events[..|events| - 1]);
      Step(s, events[|events| - 1]).GetOr(s)
  }

  // ---------------------------------------------------------------------------------------------
  // Conservation.

  /** What the reader has read and not yet passed on. */
  ghost function InHand(s: State): Bytes {
    match s.reader
    case Filled(n, _) => if s.buffers != [] && n <= |s.buffers[0]| then s.buffers[0][..n] else []
    case Holding(buf, _) => Gather(s.buffers, [buf])
    case Panicked(buf) => Gather(s.buffers, [buf])
    case _ => []
  }

  /** What the flusher has received and not yet sent. */
  ghost function Collected(s: State): Bytes
    requires Shaped(s)
  {
    match s.flusher
    case Resetting(payload, _) => Gather(s.buffers, [payload])
    case Sending(payload, _) => Gather(s.buffers, [payload])
    case _ => Gather(s.buffers, Pending(s))
  }

  ghost function SentBytes(s: State): Bytes { Gather(s.buffers, s.sent) }

  ghost function QueuedBytes(s: State): Bytes { Gather(s.buffers, s.queue) }

  ghost predicate InUse(buffers: seq<Bytes>, ids: seq<nat>) {
    forall i :: 0 <= i < |ids| ==> 1 <= ids[i] < |buffers|
  }

  /** Every address in use is that of a buffer other than the one stdin is read into. */
  ghost predicate AddressesOk(s: State) {
    && |s.buffers| >= 1 && |s.buffers[0]| == READ_SIZE
    && s.used <= |s.backing| && InUse(s.buffers, Pending(s))
    && InUse(s.buffers, s.queue) && InUse(s.buffers, s.sent)
    && (s.reader.Filled? ==> s.reader.n <= READ_SIZE)
    && (s.reader.Holding? || s.reader.Panicked? ==> InUse(s.buffers, [s.reader.buf]))
    && (s.flusher.Resetting? || s.flusher.Sending? ==> InUse(s.buffers, [s.flusher.payload]))
  }

  ghost predicate PhasesOk(s: State) {
    && (s.flusher.Sending? || s.flusher.FlusherDone? ==> s.used == 0)
    && (s.closed ==> s.cancelled) && (s.reader.Panicked? ==> s.closed)
    && (s.dropped != [] ==> s.cancelled && s.reader.ReaderDone?)
    && |s.queue| <= CHANNEL_SIZE
  }

  ghost predicate Balanced(s: State)
    requires Shaped(s)
  {
    SentBytes(s) + Collected(s) + QueuedBytes(s) + InHand(s) + s.dropped == s.input
  }

  ghost predicate Inv(s: State) { AddressesOk(s) && PhasesOk(s) && Balanced(s) }

  /** Old buffers other than number 0 are as they were. */
  ghost predicate Kept(a: seq<Bytes>, b: seq<Bytes>) {
    |a| <= |b| && forall id :: 1 <= id < |a| ==> b[id] == a[id]
  }

  lemma {:induction false} GatherKept(a: seq<Bytes>, b: seq<Bytes>, ids: seq<nat>)
    requires Kept(a, b) && InUse(a, ids)
    ensures Gather(b, ids) == Gather(a, ids) && InUse(b, ids)
  {
    if ids != [] { GatherKept(a, b, ids[..|ids| - 1]); }
  }

  lemma GatherOne(buffers: seq<Bytes>, id: nat)
    requires id < |buffers|
    ensures Gather(buffers, [id]) == buffers[id]
  {
    assert [id][..0] == [];
    assert Gather(buffers, []) == [];
  }

  lemma GatherNext(buffers: seq<Bytes>, ids: seq<nat>, id: nat)
    requires id < |buffers|
    ensures Gather(buffers, ids + [id]) == Gather(buffers, ids) + buffers[id]
  {
    assert (ids + [id])[..|ids|] == ids;
  }

  lemma {:induction false} GatherFirst(buffers: seq<Bytes>, ids: seq<nat>)
    requires ids != [] && ids[0] < |buffers|
    ensures Gather(buffers, ids) == buffers[ids[0]] + Gather(buffers, ids[1..])
  {
    if |ids| == 1 {
      assert ids == [ids[0]];
      GatherOne(buffers, ids[0]);
      assert Gather(buffers, ids[1..]) == [];
    } else {
      var last := |ids| - 1;
      GatherFirst(buffers, ids[..last]);
      assert ids[1..][..last - 1] == ids[..last][1..];
      var end := if ids[last] < |buffers| then buffers[ids[last]] else [];
      assert Gather(buffers, ids[1..]) == Gather(buffers, ids[..last][1..]) + end;
      Associate(buffers[ids[0]], Gather(buffers, ids[..last][1..]), end);
    }
  }

  /** All the gathered contents survive an allocation, or a new read into buffer 0. */
  lemma ContentsKept(s: State, b: seq<Bytes>)
    requires AddressesOk(s) && Kept(s.buffers, b)
    ensures Gather(b, s.sent) == SentBytes(s) && Gather(b, s.queue) == QueuedBytes(s)
    ensures Gather(b, Pending(s)) == Gather(s.buffers, Pending(s))
    ensures s.reader.Holding? || s.reader.Panicked? ==> Gather(b, [s.reader.buf]) == InHand(s)
    ensures s.flusher.Resetting? || s.flusher.Sending? ==> Gather(b, [s.flusher.payload]) == Collected(s)
    ensures InUse(b, s.sent) && InUse(b, s.queue) && InUse(b, Pending(s))
  {
    GatherKept(s.buffers, b, s.sent);
    GatherKept(s.buffers, b, s.queue);
    GatherKept(s.buffers, b, Pending(s));
    if s.reader.Holding? || s.reader.Panicked? { GatherKept(s.buffers, b, [s.reader.buf]); }
    if s.flusher.Resetting? || s.flusher.Sending? { GatherKept(s.buffers, b, [s.flusher.payload]); }
  }

  lemma ReadKeepsAddresses(s: State, e: Event, t: State)
    requires AddressesOk(s) && PhasesOk(s) && s.reader.Reading? && ReaderStep(s, e) == Some(t)
    ensures AddressesOk(t) && PhasesOk(t) && Kept(s.buffers, t.buffers)
    ensures InHand(s) == [] && InHand(t) == e.data && t.input == s.input + e.data
  {
    assert t.buffers[0][..|e.data|] == e.data;
  }

  lemma ReadKeepsInv(s: State, e: Event, t: State)
    requires Inv(s) && s.reader.Reading? && ReaderStep(s, e) == Some(t)
    ensures Inv(t)
  {
    ReadKeepsAddresses(s, e, t);
    ContentsKept(s, t.buffers);
    var before := SentBytes(s) + Collected(s) + QueuedBytes(s);
    assert s.dropped == [] && before + [] + [] == before;
    assert before + e.data + [] == before + e.data;
  }

  lemma CopyKeepsInv(s: State, e: Event, t: State)
    requires Inv(s) && s.reader.Filled? && ReaderStep(s, e) == Some(t)
    ensures Inv(t)
  {
    ContentsKept(s, t.buffers);
    GatherOne(t.buffers, |s.buffers|);
    assert InHand(t) == InHand(s);
  }

  /** Moving one piece of a concatenation from one part to the next. */
  lemma PiecesShift(a: Bytes, b: Bytes, x: Bytes, c: Bytes, d: Bytes, e: Bytes)
    ensures a + (b + x) + c + d + e == a + b + (x + c) + d + e
    ensures a + b + (c + x) + [] + e == a + b + c + x + e
    ensures a + b + c + [] + x == a + b + c + x + []
    ensures (a + x) + [] + c + d + e == a + x + c + d + e
  {
  }

  lemma HandOverKeepsInv(s: State, e: Event, t: State)
    requires Inv(s) && s.reader.Holding? && ReaderStep(s, e) == Some(t)
    ensures Inv(t)
  {
    GatherOne(s.buffers, s.reader.buf);
    HandOverKeepsAddresses(s, e, t);
    if e.SendData? && !s.closed {
      GatherNext(s.buffers, s.queue, s.reader.buf);
      PiecesShift(SentBytes(s), Collected(s), InHand(s), QueuedBytes(s), [], s.dropped);
    } else if e.ReaderCancelled? {
      PiecesShift(SentBytes(s), Collected(s), InHand(s), QueuedBytes(s), [], []);
    }
  }

  lemma HandOverKeepsAddresses(s: State, e: Event, t: State)
    requires AddressesOk(s) && PhasesOk(s) && s.reader.Holding? && ReaderStep(s, e) == Some(t)
    ensures AddressesOk(t) && PhasesOk(t)
  {
  }

  lemma ReceiveKeepsAddresses(s: State, e: Event, t: State)
    requires AddressesOk(s) && PhasesOk(s) && e.Receive? && FlusherStep(s, e) == Some(t)
    ensures AddressesOk(t) && PhasesOk(t) && Pending(t) == Pending(s) + [s.queue[0]]
  {
    assert forall i :: 0 <= i < |t.queue| ==> t.queue[i] == s.queue[i + 1];
    assert Pending(t) == Pending(s) + [s.queue[0]];
  }

  lemma ReceiveKeepsInv(s: State, e: Event, t: State)
    requires Inv(s) && e.Receive? && FlusherStep(s, e) == Some(t)
    ensures Inv(t)
  {
    var head := s.queue[0];
    ReceiveKeepsAddresses(s, e, t);
    GatherNext(s.buffers, Pending(s), head);
    GatherFirst(s.buffers, s.queue);
    PiecesShift(SentBytes(s), Collected(s), s.buffers[head], QueuedBytes(t), InHand(s), s.dropped);
  }

  lemma JoinKeepsInv(s: State, e: Event, t: State)
    requires Inv(s) && s.flusher.Joining? && FlusherStep(s, e) == Some(t)
    ensures Inv(t)
  {
    ContentsKept(s, t.buffers);
    GatherOne(t.buffers, |s.buffers|);
    assert t.buffers[0] == s.buffers[0];
  }

  lemma FlushKeepsInv(s: State, e: Event, t: State)
    requires Inv(s) && !e.Receive? && !s.flusher.Joining? && !s.flusher.Sending? && FlusherStep(s, e) == Some(t)
    ensures Inv(t)
  {
  }

  lemma SendKeepsInv(s: State, e: Event, t: State)
    requires Inv(s) && s.flusher.Sending? && FlusherStep(s, e) == Some(t)
    ensures Inv(t)
  {
    GatherOne(s.buffers, s.flusher.payload);
    GatherNext(s.buffers, s.sent, s.flusher.payload);
    assert Gather(s.buffers, Pending(t)) == [];
    SendKeepsAddresses(s, e, t);
    PiecesShift(SentBytes(s), [], Collected(s), QueuedBytes(s), InHand(s), s.dropped);
  }

  lemma SendKeepsAddresses(s: State, e: Event, t: State)
    requires AddressesOk(s) && PhasesOk(s) && s.flusher.Sending? && FlusherStep(s, e) == Some(t)
    ensures AddressesOk(t) && PhasesOk(t)
  {
  }

  lemma StepKeepsInv(s: State, e: Event)
    requires Inv(s)
    ensures Inv(Step(s, e).GetOr(s))
  {
    match Step(s, e)
    case None =>
    case Some(t) =>
      match e
      case Cancel =>
      case CloseChannel =>
      case ReadStdin(_, _) => ReadKeepsInv(s, e, t);
      case CopyData => CopyKeepsInv(s, e, t);
      case SendData => HandOverKeepsInv(s, e, t);
      case ReaderCancelled => HandOverKeepsInv(s, e, t);
      case Receive(_) => ReceiveKeepsInv(s, e, t);
      case Join => JoinKeepsInv(s, e, t);
      case Send => SendKeepsInv(s, e, t);
      case _ => FlushKeepsInv(s, e, t);
  }

  lemma {:induction false} ExecInv(buffer: Bytes, events: seq<Event>)
    requires |buffer| == READ_SIZE
    ensures Inv(Exec(buffer, events))
  {
    if events != [] {
      ExecInv(buffer, events[..|events| - 1]);
      StepKeepsInv(Exec(buffer, events[..|events| - 1]), events[|events| - 1]);
    }
  }

  // ---------------------------------------------------------------------------------------------
  // What holds of every run.

  /** Nothing is lost, repeated or reordered: what was sent, what waits in each place and what was dropped at
      the cancellation make up the input; until the cancellation nothing is dropped. */
  lemma InputIsConserved(buffer: Bytes, events: seq<Event>)
    requires |buffer| == READ_SIZE
    ensures var s := Exec(buffer, events);
      && SentBytes(s) + Collected(s) + QueuedBytes(s) + InHand(s) + s.dropped == s.input
      && SentBytes(s) <= s.input
      && (!s.cancelled ==> s.dropped == [])
  {
    ExecInv(buffer, events);
  }

  /** When the flusher has returned, only what was still in the channel or in the reader's hands is unsent. */
  lemma FlusherLeavesNothingPending(buffer: Bytes, events: seq<Event>)
    requires |buffer| == READ_SIZE && Exec(buffer, events).flusher.FlusherDone?
    ensures var s := Exec(buffer, events);
      SentBytes(s) + QueuedBytes(s) + InHand(s) + s.dropped == s.input
  {
    ExecInv(buffer, events);
    NothingCollected(Exec(buffer, events));
  }

  lemma NothingCollected(s: State)
    requires Shaped(s) && PhasesOk(s) && Balanced(s) && s.flusher.FlusherDone?
    ensures SentBytes(s) + QueuedBytes(s) + InHand(s) + s.dropped == s.input
  {
    assert Pending(s) == [];
    assert SentBytes(s) + [] == SentBytes(s);
  }

  lemma StepKeepsBuffers(s: State, e: Event, t: State)
    requires AddressesOk(s) && Step(s, e) == Some(t)
    ensures Kept(s.buffers, t.buffers) && s.sent <= t.sent
  {
  }

  lemma BuffersAfterOne(buffer: Bytes, events: seq<Event>, e: Event)
    requires |buffer| == READ_SIZE
    ensures var s, t := Exec(buffer, events), Exec(buffer, events + [e]);
      AddressesOk(s) && Kept(s.buffers, t.buffers) && s.sent <= t.sent
  {
    ExecInv(buffer, events);
    ExecNext(buffer, events, e);
    var s := Exec(buffer, events);
    match Step(s, e)
    case None =>
    case Some(t) => StepKeepsBuffers(s, e, t);
  }

  lemma {:induction false} BuffersAfterMany(buffer: Bytes, events: seq<Event>, later: seq<Event>)
    requires |buffer| == READ_SIZE
    ensures var s, t := Exec(buffer, events), Exec(buffer, events + later);
      Kept(s.buffers, t.buffers) && s.sent <= t.sent
  {
    if later == [] {
      assert events + later == events;
    } else {
      var init, e := later[..|later| - 1], later[|later| - 1];
      BuffersAfterMany(buffer, events, init);
      BuffersAfterOne(buffer, events + init, e);
      assert events + later == (events + init) + [e];
    }
  }

  /** A payload handed to SendInput never changes afterwards, although the read buffer and the backing array of
      the pending list are used again. */
  lemma SentDataNeverChanges(buffer: Bytes, events: seq<Event>, later: seq<Event>, i: nat)
    requires |buffer| == READ_SIZE && i < |Exec(buffer, events).sent|
    ensures var s, t := Exec(buffer, events), Exec(buffer, events + later);
      && i < |t.sent| && t.sent[i] == s.sent[i] && s.sent[i] < |s.buffers| <= |t.buffers|
      && t.buffers[t.sent[i]] == s.buffers[s.sent[i]]
  {
    ExecInv(buffer, events);
    BuffersAfterMany(buffer, events, later);
  }

  /** The reader can only panic on a send after the channel was closed, hence after the cancellation. */
  lemma PanicNeedsTheClose(buffer: Bytes, events: seq<Event>)
    requires |buffer| == READ_SIZE && Exec(buffer, events).reader.Panicked?
    ensures Exec(buffer, events).closed && Exec(buffer, events).cancelled
  {
    ExecInv(buffer, events);
  }

  /** And whenever the reader holds data, the end of the session can make it panic: the select that follows the
      close may take the send. */
  lemma HoldingReaderCanPanic(buffer: Bytes, events: seq<Event>)
    requires |buffer| == READ_SIZE && Exec(buffer, events).reader.Holding?
    ensures Exec(buffer, events + [Cancel] + [CloseChannel] + [SendData]).reader.Panicked?
  {
    ExecNext(buffer, events, Cancel);
    ExecNext(buffer, events + [Cancel], CloseChannel);
    ExecNext(buffer, events + [Cancel] + [CloseChannel], SendData);
  }

  /** One key press is enough to get there. */
  lemma KeyPressIsHeld(buffer: Bytes)
    requires |buffer| == READ_SIZE
    ensures Exec(buffer, [ReadStdin([65], false)] + [CopyData]).reader.Holding?
  {
    var e := ReadStdin([65], false);
    ExecNext(buffer, [], e);
    assert [] + [e] == [e];
    assert Exec(buffer, [e]).reader == Filled(1, false) && |Exec(buffer, [e]).buffers[0]| == READ_SIZE;
    ExecNext(buffer, [e], CopyData);
  }

  lemma ExecNext(buffer: Bytes, events: seq<Event>, e: Event)
    requires |buffer| == READ_SIZE
    ensures Exec(buffer, events + [e]) == Step(Exec(buffer, events), e).GetOr(Exec(buffer, events))
  {
    assert (events + [e])[..|events|] == events;
  }

  /** A reader that has not returned can come to hold data: it has some in its buffer, or a key is pressed. */
  lemma ReaderComesToHold(buffer: Bytes, events: seq<Event>) returns (more: seq<Event>)
    requires |buffer| == READ_SIZE
    requires var r := Exec(buffer, events).reader; !r.ReaderDone? && !r.Panicked?
    ensures Exec(buffer, events + more).reader.Holding?
  {
    ExecInv(buffer, events);
    var s := Exec(buffer, events);
    match s.reader
    case Reading =>
      var e := ReadStdin([65], false);
      ExecNext(buffer, events, e);
      var t := Exec(buffer, events + [e]);
      assert t.reader == Filled(1, false) && |t.buffers[0]| == READ_SIZE;
      ExecNext(buffer, events + [e], CopyData);
      more := [e] + [CopyData];
      assert events + more == events + [e] + [CopyData];
    case Filled(_, _) =>
      ExecNext(buffer, events, CopyData);
      more := [CopyData];
    case Holding(_, _) =>
      more := [];
      assert events + [] == events;
  }

  lemma {:induction false} ReaderStaysDone(buffer: Bytes, events: seq<Event>, later: seq<Event>)
    requires |buffer| == READ_SIZE && Exec(buffer, events).reader.ReaderDone?
    ensures Exec(buffer, events + later).reader.ReaderDone?
  {
    if later == [] {
      assert events + later == events;
    } else {
      var init, e := later[..|later| - 1], later[|later| - 1];
      ReaderStaysDone(buffer, events, init);
      ExecNext(buffer, events + init, e);
      assert events + later == (events + init) + [e];
    }
  }

  lemma ReaderCanPanic(buffer: Bytes, events: seq<Event>) returns (later: seq<Event>)
    requires |buffer| == READ_SIZE && !Exec(buffer, events).reader.ReaderDone?
    ensures Exec(buffer, events + later).reader.Panicked?
  {
    if Exec(buffer, events).reader.Panicked? {
      later := [];
      assert events + [] == events;
    } else {
      var more := ReaderComesToHold(buffer, events);
      HoldingReaderCanPanic(buffer, events + more);
      later := more + [Cancel] + [CloseChannel] + [SendData];
      assert events + later == events + more + [Cancel] + [CloseChannel] + [SendData];
    }
  }

  /** The exact condition, at every moment of every run: the reader may still panic, or has, unless it has returned.
      So a session is safe from that moment on, and no earlier. */
  lemma PanicIffReaderNotDone(buffer: Bytes, events: seq<Event>)
    requires |buffer| == READ_SIZE
    ensures (exists later: seq<Event> :: Exec(buffer, events + later).reader.Panicked?)
            <==> !Exec(buffer, events).reader.ReaderDone?
  {
    if Exec(buffer, events).reader.ReaderDone? {
      forall later: seq<Event> ensures !Exec(buffer, events + later).reader.Panicked? {
        ReaderStaysDone(buffer, events, later);
      }
    } else {
      var later := ReaderCanPanic(buffer, events);
    }
  }

  /** A session whose reader has returned before the channel is closed never panics. */
  lemma ReturnedReaderIsSafe(buffer: Bytes, events: seq<Event>, later: seq<Event>)
    requires |buffer| == READ_SIZE && Exec(buffer, events).reader.ReaderDone? && !Exec(buffer, events).closed
    ensures !Exec(buffer, events + [CloseChannel] + later).reader.Panicked?
  {
    ReaderStaysDone(buffer, events, [CloseChannel] + later);
    assert events + ([CloseChannel] + later) == events + [CloseChannel] + later;
  }

  // ---------------------------------------------------------------------------------------------
  // What is typed is sent.

  /** The last event leads from `s` to `t`. */
  lemma Then(buffer: Bytes, events: seq<Event>, s: State, e: Event, t: State)
    requires |buffer| == READ_SIZE && Exec(buffer, events) == s && Step(s, e) == Some(t)
    ensures Exec(buffer, events + [e]) == t
  {
    ExecNext(buffer, events, e);
  }

  /** At a tick the flusher sends all it has collected, and is ready for more. */
  lemma TickSendsAll(buffer: Bytes, events: seq<Event>)
    requires |buffer| == READ_SIZE
    requires var s := Exec(buffer, events); s.flusher.Selecting? && !s.reader.Panicked?
    ensures var s := Exec(buffer, events);
            var t := Exec(buffer, events + [Tick] + [Join] + [Reset] + [Send]);
      && t.flusher.Selecting? && t.used == 0
      && t == s.(buffers := t.buffers, used := 0, sent := t.sent)
      && SentBytes(t) == SentBytes(s) + Collected(s)
  {
    var s := Exec(buffer, events);
    ExecInv(buffer, events);
    if s.used == 0 {
      NothingToFlush(buffer, events, s);
      assert Pending(s) == [];
      assert SentBytes(s) + [] == SentBytes(s);
    } else {
      var joining, resetting, sending, t := FlushSteps(s);
      Then(buffer, events, s, Tick, joining);
      Then(buffer, events + [Tick], joining, Join, resetting);
      Then(buffer, events + [Tick] + [Join], resetting, Reset, sending);
      Then(buffer, events + [Tick] + [Join] + [Reset], sending, Send, t);
      FlushedBytes(s, t);
    }
  }

  lemma NothingToFlush(buffer: Bytes, events: seq<Event>, s: State)
    requires |buffer| == READ_SIZE && Exec(buffer, events) == s
    requires s.flusher.Selecting? && !s.reader.Panicked? && s.used == 0
    ensures Exec(buffer, events + [Tick] + [Join] + [Reset] + [Send]) == s
  {
    ExecNext(buffer, events, Tick);
    ExecNext(buffer, events + [Tick], Join);
    ExecNext(buffer, events + [Tick] + [Join], Reset);
    ExecNext(buffer, events + [Tick] + [Join] + [Reset], Send);
  }

  lemma FlushSteps(s: State) returns (joining: State, resetting: State, sending: State, t: State)
    requires Shaped(s) && s.flusher.Selecting? && !s.reader.Panicked? && s.used > 0
    ensures Step(s, Tick) == Some(joining) && Shaped(joining) && Step(joining, Join) == Some(resetting)
    ensures Shaped(resetting) && Step(resetting, Reset) == Some(sending)
    ensures Shaped(sending) && Step(sending, Send) == Some(t)
    ensures t == s.(buffers := s.buffers + [Gather(s.buffers, Pending(s))], used := 0, sent := s.sent + [|s.buffers|])
  {
    joining := s.(flusher := Joining(false));
    resetting := joining.(buffers := s.buffers + [Gather(s.buffers, Pending(s))],
                          flusher := Resetting(|s.buffers|, false));
    sending := resetting.(used := 0, flusher := Sending(|s.buffers|, false));
    t := sending.(sent := s.sent + [|s.buffers|], flusher := Selecting);
  }

  lemma FlushedBytes(s: State, t: State)
    requires AddressesOk(s) && s.flusher.Selecting?
    requires t == s.(buffers := s.buffers + [Gather(s.buffers, Pending(s))], used := 0,
                     sent := s.sent + [|s.buffers|])
    ensures SentBytes(t) == SentBytes(s) + Collected(s)
  {
    GatherKept(s.buffers, t.buffers, s.sent);
    GatherNext(t.buffers, s.sent, |s.buffers|);
  }

  /** The flusher can receive everything that waits in the channel. */
  lemma {:induction false} QueueCanDrain(buffer: Bytes, events: seq<Event>, s: State)
    returns (longer: seq<Event>, t: State)
    requires |buffer| == READ_SIZE && Exec(buffer, events) == s && s.flusher.Selecting? && !s.reader.Panicked?
    ensures events <= longer && Exec(buffer, longer) == t
    ensures t == s.(queue := [], backing := t.backing, used := t.used)
    decreases |s.queue|
  {
    if s.queue == [] {
      longer, t := events, s;
    } else {
      var next := s.(queue := s.queue[1..], backing := Append(s.backing, s.used, s.queue[0], []), used := s.used + 1);
      Then(buffer, events, s, Receive([]), next);
      longer, t := QueueCanDrain(buffer, events + [Receive([])], next);
    }
  }

  lemma DrainAndTick(buffer: Bytes, events: seq<Event>, s: State) returns (longer: seq<Event>, t: State)
    requires |buffer| == READ_SIZE && Exec(buffer, events) == s && s.flusher.Selecting? && !s.reader.Panicked?
    ensures events <= longer && Exec(buffer, longer) == t
    ensures t == s.(queue := [], backing := t.backing, used := 0, buffers := t.buffers, sent := t.sent)
  {
    var front, drained := QueueCanDrain(buffer, events, s);
    TickSendsAll(buffer, front);
    longer := front + [Tick] + [Join] + [Reset] + [Send];
    t := Exec(buffer, longer);
  }

  /** A piece of input is read, copied and put into the channel. */
  lemma PieceCanQueue(buffer: Bytes, events: seq<Event>, s: State, data: Bytes)
    returns (longer: seq<Event>, t: State)
    requires |buffer| == READ_SIZE && Exec(buffer, events) == s && AddressesOk(s)
    requires s.reader.Reading? && !s.closed && s.queue == [] && 0 < |data| <= READ_SIZE
    ensures events <= longer && Exec(buffer, longer) == t
    ensures t == s.(buffers := t.buffers, queue := t.queue, input := s.input + data)
  {
    var filled := Step(s, ReadStdin(data, false)).value;
    var copied := Step(filled, CopyData).value;
    t := Step(copied, SendData).value;
    Then(buffer, events, s, ReadStdin(data, false), filled);
    Then(buffer, events + [ReadStdin(data, false)], filled, CopyData, copied);
    Then(buffer, events + [ReadStdin(data, false)] + [CopyData], copied, SendData, t);
    longer := events + [ReadStdin(data, false)] + [CopyData] + [SendData];
  }

  lemma AllSent(s: State)
    requires Inv(s) && s.reader.Reading? && s.flusher.Selecting? && !s.cancelled && s.queue == [] && s.used == 0
    ensures SentBytes(s) == s.input
  {
    assert Pending(s) == [];
    assert SentBytes(s) + [] + [] + [] + [] == SentBytes(s);
  }

  /** While a session goes on, whatever has happened in it: one more piece of input can be typed, and then all that
      was ever typed can be sent, in order, with both goroutines ready for more. */
  lemma TypedBytesCanBeSent(buffer: Bytes, events: seq<Event>, data: Bytes) returns (later: seq<Event>)
    requires |buffer| == READ_SIZE && 0 < |data| <= 1024
    requires var s := Exec(buffer, events); s.reader.Reading? && s.flusher.Selecting? && !s.cancelled
    ensures var s, t := Exec(buffer, events), Exec(buffer, events + later);
      && t.input == s.input + data && SentBytes(t) == t.input
      && t.reader.Reading? && t.flusher.Selecting? && !t.cancelled
  {
    ExecInv(buffer, events);
    var front, s1 := QueueCanDrain(buffer, events, Exec(buffer, events));
    ExecInv(buffer, front);
    var typed, s2 := PieceCanQueue(buffer, front, s1, data);
    var longer, t := DrainAndTick(buffer, typed, s2);
    ExecInv(buffer, longer);
    AllSent(t);
    later := longer[|events|..];
    assert longer == events + later;
  }

  // ---------------------------------------------------------------------------------------------
  // concat.

  /** The joined copy has exactly the capacity reserved for it. */
  method Concat(bufs: seq<Bytes>) returns (out: Bytes, capacity: nat)
    ensures out == Flatten(bufs) && capacity == |out|
  {
    var total := 0;
    for i := 0 to |bufs|
      invariant total == |Flatten(bufs[..i])|
    {
      assert bufs[..i + 1][..i] == bufs[..i];
      total := total + |bufs[i]|;
    }
    capacity := total;
    out := [];
    for i := 0 to |bufs|
      invariant out == Flatten(bufs[..i])
    {
      assert bufs[..i + 1][..i] == bufs[..i];
      out := out + bufs[i];
    }
    assert bufs[..|bufs|] == bufs;
  }
}
