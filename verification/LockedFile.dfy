/**
  The protocol both file stores follow: take the file lock, load, compute, write a temporary file, rename
  it over the store, unlock.  Any number of processes run it at once; a lock attempt may time out, every
  I/O step may fail, a temporary file may be half written, and a process may crash between any two steps
  (the operating system then drops its lock).

  The model is generic in the content `C`, the file image `B` and the reply `R`; TunnelStore and TokenCache
  are its two clients.
*/
module LockedFile {
  import opened Prelude

  /** How content is kept on disk.  `empty` is what a missing or undecodable file stands for. */
  datatype Codec<!C, !B> = Codec(encode: C -> B, decode: B -> Option<C>, empty: C)

  ghost predicate Invertible<C(!new), B>(k: Codec<C, B>) {
    forall c :: k.decode(k.encode(c)) == Some(c)
  }

  /** What an operation does with the loaded content: reply only, or save `next` and reply according to
      whether the save worked. */
  datatype Outcome<+C, +R> = Reply(ret: R) | Write(next: C, saved: R, notSaved: R)

  /** One call: `run` is applied to the loaded content (or to the empty content when `loads` is false). */
  datatype Op<!C, R> = Op(loads: bool, run: C -> Outcome<C, R>, lockFailed: R, loadFailed: R)

  /** An operation that skips loading must not depend on the content. */
  ghost predicate WellFormed<C(!new), R>(op: Op<C, R>) {
    op.loads || forall c, d :: op.run(c) == op.run(d)
  }

  /** One call in progress; `since` is the number of commits when it was invoked. */
  datatype Call<!C, R> = Call(id: nat, op: Op<C, R>, since: nat)

  datatype Pc<!C, R> =
    | Idle
    | Locking(call: Call<C, R>)
    | Loading(call: Call<C, R>)
    | Deciding(call: Call<C, R>, seen: C)
    | CreatingTemp(call: Call<C, R>, seen: C)
    | WritingTemp(call: Call<C, R>, seen: C, temp: nat)
    | Renaming(call: Call<C, R>, seen: C, temp: nat)
    | RemovingTemp(call: Call<C, R>, temp: nat, end: End<R>)
    | Unlocking(call: Call<C, R>, end: End<R>)
    | Returning(call: Call<C, R>, end: End<R>)
    | Crashed

  /** How a call ended.  `at` is the number of commits at the moment the call took effect (or would have). */
  datatype End<R> =
    | Refused(ret: R)                  // lock or load failed
    | ReadOnly(ret: R, at: nat)        // nothing to save
    | NotSaved(ret: R, at: nat)        // the save failed
    | Committed(ret: R, at: nat)       // renamed; this call is commit number `at`

  datatype Commit<!C, R> = Commit(call: Call<C, R>, after: C)

  datatype Finished<!C, R> = Finished(call: Call<C, R>, end: End<R>, until: nat)

  datatype System<!C, B, R> = System(
    file: Option<B>,
    temps: map<nat, B>,
    lock: Option<nat>,
    procs: seq<Pc<C, R>>,
    calls: nat,                        // how many calls were ever made
    log: seq<Commit<C, R>>,            // the renames, in order
    done: seq<Finished<C, R>>)

  datatype Action<!C, B, R> =
    | Invoke(op: Op<C, R>)
    | Acquire
    | LockTimeout
    | Load
    | LoadFails
    | Decide
    | CreateTemp(temp: nat, image: B)  // `image` is what a fresh file holds
    | CreateFails
    | WritePart(image: B)
    | WriteAll
    | WriteFails
    | Rename
    | RenameFails
    | RemoveTemp
    | RemoveFails
    | Unlock
    | Return
    | Crash

  datatype Event<!C, B, R> = Event(p: nat, action: Action<C, B, R>)

  function Content<C, B>(k: Codec<C, B>, file: Option<B>): C {
    match file
    case None => k.empty
    case Some(b) => k.decode(b).GetOr(k.empty)
  }

  function Start<C, B, R>(file: Option<B>, processes: nat): System<C, B, R> {
    System(file, map[], None, seq(processes, i => Idle), 0, [], [])
  }

  /** Process p moves to `pc` and nothing else changes. */
  function Goto<C, B, R>(s: System<C, B, R>, p: nat, pc: Pc<C, R>): System<C, B, R>
    requires p < |s.procs|
  {
    s.(procs := s.procs[p := pc])
  }

  ghost function Step<C(!new), B, R>(k: Codec<C, B>, s: System<C, B, R>,
      e: Event<C, B, R>): (t: Option<System<C, B, R>>)
    ensures t.Some? ==> |t.value.procs| == |s.procs|
  {
    if e.p >= |s.procs| then None
    else
      var p := e.p;
      var pc := s.procs[p];
      match e.action
      case Invoke(op) =>
        if pc.Idle? && WellFormed(op)
        then Some(Goto(s, p, Locking(Call(s.calls, op, |s.log|))).(calls := s.calls + 1)) else None
      case Acquire =>
        if pc.Locking? && s.lock.None?
        then
          var next := if pc.call.op.loads then Loading(pc.call) else Deciding(pc.call, k.empty);
          Some(Goto(s, p, next).(lock := Some(p)))
        else None
      case LockTimeout =>
        if pc.Locking? then Some(Goto(s, p, Returning(pc.call, Refused(pc.call.op.lockFailed)))) else None
      case Load => if pc.Loading? then Some(Goto(s, p, Deciding(pc.call, Content(k, s.file)))) else None
      case LoadFails =>
        if pc.Loading? then Some(Goto(s, p, Unlocking(pc.call, Refused(pc.call.op.loadFailed)))) else None
      case Decide =>
        if !pc.Deciding? then None
        else
          (match pc.call.op.run(pc.seen)
           case Reply(ret) => Some(Goto(s, p, Unlocking(pc.call, ReadOnly(ret, |s.log|))))
           case Write(_, _, _) => Some(Goto(s, p, CreatingTemp(pc.call, pc.seen))))
      case CreateTemp(temp, image) =>
        if pc.CreatingTemp? && temp !in s.temps
        then Some(Goto(s, p, WritingTemp(pc.call, pc.seen, temp)).(temps := s.temps[temp := image])) else None
      case CreateFails =>
        if pc.CreatingTemp? then Some(Goto(s, p, Unlocking(pc.call, Unsaved(s, pc.call, pc.seen)))) else None
      case WritePart(image) => if pc.WritingTemp? then Some(s.(temps := s.temps[pc.temp := image])) else None
      case WriteAll =>
        if pc.WritingTemp? && pc.call.op.run(pc.seen).Write?
        then Some(Goto(s, p, Renaming(pc.call, pc.seen, pc.temp))
                    .(temps := s.temps[pc.temp := k.encode(pc.call.op.run(pc.seen).next)]))
        else None
      case WriteFails =>
        if pc.WritingTemp? then Some(Goto(s, p, RemovingTemp(pc.call, pc.temp, Unsaved(s, pc.call, pc.seen)))) else None
      case Rename =>
        if pc.Renaming? && pc.call.op.run(pc.seen).Write? && pc.temp in s.temps
        then Some(Goto(s, p, Unlocking(pc.call, Committed(pc.call.op.run(pc.seen).saved, |s.log|)))
                    .(file := Some(s.temps[pc.temp]), temps := s.temps - {pc.temp},
                      log := s.log + [Commit(pc.call, pc.call.op.run(pc.seen).next)]))
        else None
      case RenameFails =>
        if pc.Renaming? then Some(Goto(s, p, RemovingTemp(pc.call, pc.temp, Unsaved(s, pc.call, pc.seen)))) else None
      case RemoveTemp =>
        if pc.RemovingTemp? then Some(Goto(s, p, Unlocking(pc.call, pc.end)).(temps := s.temps - {pc.temp})) else None
      case RemoveFails => if pc.RemovingTemp? then Some(Goto(s, p, Unlocking(pc.call, pc.end))) else None
      case Unlock => if pc.Unlocking? then Some(Goto(s, p, Returning(pc.call, pc.end)).(lock := None)) else None
      case Return =>
        if pc.Returning? then Some(Goto(s, p, Idle).(done := s.done + [Finished(pc.call, pc.end, |s.log|)])) else None
      case Crash =>
        if pc.Crashed? then None
        else Some(Goto(s, p, Pc.Crashed).(lock := if s.lock == Some(p) then None else s.lock))
  }

  /** The end of a call whose save failed before the rename. */
  function Unsaved<C, B, R>(s: System<C, B, R>, call: Call<C, R>, seen: C): End<R> {
    match call.op.run(seen)
    case Reply(ret) => ReadOnly(ret, |s.log|)
    case Write(_, _, notSaved) => NotSaved(notSaved, |s.log|)
  }

  /** The system after `events`; an event that is not possible when its turn comes changes nothing. */
  ghost function Exec<C(!new), B, R>(k: Codec<C, B>, start: System<C, B, R>,
      events: seq<Event<C, B, R>>): System<C, B, R> {
    if events == [] then start
    else
      var s := Exec(k, start, events[..|events| - 1]);
      Step(k, s, events[|events| - 1]).GetOr(s)
  }

  // ---------------------------------------------------------------------------------------------
  // The sequential meaning: commits folded over the first content.

  function After<C, R>(first: C, log: seq<Commit<C, R>>, n: nat): C
    requires n <= |log|
  {
    if n == 0 then first else log[n - 1].after
  }

  /** Each commit is its operation applied to the content left by the commits before it. */
  ghost predicate Chained<C(!new), R>(first: C, log: seq<Commit<C, R>>) {
    forall j :: 0 <= j < |log| ==> Applies(first, log, j)
  }

  ghost predicate Applies<C(!new), R>(first: C, log: seq<Commit<C, R>>, j: nat)
    requires j < |log|
  {
    var out := log[j].call.op.run(After(first, log, j));
    out.Write? && out.next == log[j].after
  }

  /** What the reply and the effect of a finished call have to do with the commits. */
  ghost predicate Explained<C(!new), R>(first: C, log: seq<Commit<C, R>>, call: Call<C, R>, end: End<R>) {
    match end
    case Refused(ret) =>
      (ret == call.op.lockFailed || (call.op.loads && ret == call.op.loadFailed)) && !Logged(log, call.id)
    case ReadOnly(ret, at) =>
      call.since <= at <= |log| && call.op.run(After(first, log, at)) == Reply(ret) && !Logged(log, call.id)
    case NotSaved(ret, at) =>
      && call.since <= at <= |log| && !Logged(log, call.id)
      && call.op.run(After(first, log, at)).Write? && call.op.run(After(first, log, at)).notSaved == ret
    case Committed(ret, at) =>
      && call.since <= at < |log| && log[at].call == call
      && call.op.run(After(first, log, at)).Write? && call.op.run(After(first, log, at)).saved == ret
  }

  ghost predicate Logged<C(!new), R>(log: seq<Commit<C, R>>, id: nat) {
    exists j :: 0 <= j < |log| && log[j].call.id == id
  }

  // ---------------------------------------------------------------------------------------------
  // The invariant.

  ghost predicate HoldsLock<C(!new), R>(pc: Pc<C, R>) {
    !(pc.Idle? || pc.Locking? || pc.Returning? || pc.Crashed?)
  }

  ghost predicate Active<C(!new), R>(pc: Pc<C, R>) { !(pc.Idle? || pc.Crashed?) }

  ghost predicate CallOk<C(!new), R>(calls: nat, log: seq<Commit<C, R>>, call: Call<C, R>) {
    call.id < calls && call.since <= |log| && WellFormed(call.op)
  }

  /** `seen` is as good as the current content. */
  ghost predicate Fresh<C(!new), R>(now: C, call: Call<C, R>, seen: C) {
    call.op.run(seen) == call.op.run(now)
  }

  ghost predicate PcOk<C(!new), B, R>(k: Codec<C, B>, first: C, calls: nat, log: seq<Commit<C, R>>,
                                      temps: map<nat, B>, pc: Pc<C, R>)
  {
    Active(pc) ==>
      CallOk(calls, log, pc.call) &&
      var now := After(first, log, |log|);
      match pc
      case Loading(call) => call.op.loads && !Logged(log, call.id)
      case Deciding(call, seen) => Fresh(now, call, seen) && !Logged(log, call.id)
      case CreatingTemp(call, seen) => Fresh(now, call, seen) && call.op.run(seen).Write? && !Logged(log, call.id)
      case WritingTemp(call, seen, temp) =>
        Fresh(now, call, seen) && call.op.run(seen).Write? && !Logged(log, call.id)
      case Renaming(call, seen, temp) =>
        && Fresh(now, call, seen) && call.op.run(seen).Write? && !Logged(log, call.id)
        && temp in temps && temps[temp] == k.encode(call.op.run(seen).next)
      case RemovingTemp(call, _, end) => Explained(first, log, call, end)
      case Unlocking(call, end) => Explained(first, log, call, end)
      case Returning(call, end) => Explained(first, log, call, end)
      case _ => !Logged(log, pc.call.id)
  }

  ghost predicate LockOk<C(!new), B, R>(s: System<C, B, R>) {
    && (forall p :: 0 <= p < |s.procs| && HoldsLock(s.procs[p]) ==> s.lock == Some(p))
    && (s.lock.Some? ==> s.lock.value < |s.procs| && HoldsLock(s.procs[s.lock.value]))
  }

  ghost predicate IdsOk<C(!new), B, R>(s: System<C, B, R>) {
    && (forall p, q :: 0 <= p < q < |s.procs| && Active(s.procs[p]) && Active(s.procs[q]) ==>
          s.procs[p].call.id != s.procs[q].call.id)
    && (forall j :: 0 <= j < |s.log| ==> s.log[j].call.id < s.calls)
    && (forall i, j :: 0 <= i < j < |s.log| ==> s.log[i].call.id != s.log[j].call.id)
    && (forall d :: 0 <= d < |s.done| ==> s.done[d].call.id < s.calls)
    && (forall d, p :: 0 <= d < |s.done| && 0 <= p < |s.procs| && Active(s.procs[p]) ==>
          s.done[d].call.id != s.procs[p].call.id)
  }

  /** The visible file is the first one, or the complete image of the last commit. */
  ghost predicate FileOk<C(!new), B, R>(k: Codec<C, B>, start: Option<B>, s: System<C, B, R>) {
    s.file == if s.log == [] then start else Some(k.encode(s.log[|s.log| - 1].after))
  }

  ghost predicate DoneOk<C(!new), B, R>(first: C, s: System<C, B, R>) {
    forall d :: 0 <= d < |s.done| ==>
      && Explained(first, s.log, s.done[d].call, s.done[d].end)
      && WellFormed(s.done[d].call.op)
      && s.done[d].call.since <= s.done[d].until <= |s.log|
      && (s.done[d].end.Committed? || s.done[d].end.ReadOnly? || s.done[d].end.NotSaved? ==>
            s.done[d].end.at + (if s.done[d].end.Committed? then 1 else 0) <= s.done[d].until)
  }

  ghost predicate Inv<C(!new), B, R>(k: Codec<C, B>, start: Option<B>, s: System<C, B, R>) {
    var first := Content(k, start);
    && FileOk(k, start, s)
    && Chained(first, s.log)
    && LockOk(s)
    && IdsOk(s)
    && (forall p :: 0 <= p < |s.procs| ==> PcOk(k, first, s.calls, s.log, s.temps, s.procs[p]))
    && DoneOk(first, s)
  }

  lemma ExplainedGrows<C(!new), R>(first: C, log: seq<Commit<C, R>>, c: Commit<C, R>, call: Call<C, R>, end: End<R>)
    requires Explained(first, log, call, end) && c.call.id != call.id
    ensures Explained(first, log + [c], call, end)
  {
    NotLoggedGrows(log, c, call.id);
    if !end.Refused? { assert After(first, log + [c], end.at) == After(first, log, end.at); }
  }

  lemma NotLoggedGrows<C(!new), R>(log: seq<Commit<C, R>>, c: Commit<C, R>, id: nat)
    requires c.call.id != id
    ensures Logged(log + [c], id) <==> Logged(log, id)
  {
    if Logged(log, id) {
      var j :| 0 <= j < |log| && log[j].call.id == id;
      assert (log + [c])[j].call.id == id;
    }
  }

  /** A process without the lock is not disturbed by what the others do. */
  lemma BystanderStaysOk<C(!new), B, R>(k: Codec<C, B>, first: C, s: System<C, B, R>, t: System<C, B, R>, pc: Pc<C, R>)
    requires PcOk(k, first, s.calls, s.log, s.temps, pc)
    requires t.calls >= s.calls
    requires !HoldsLock(pc) || (t.log == s.log && t.temps == s.temps)
    requires t.log == s.log || (|t.log| == |s.log| + 1 && t.log[..|s.log|] == s.log
               && (Active(pc) ==> t.log[|s.log|].call.id != pc.call.id))
    ensures PcOk(k, first, t.calls, t.log, t.temps, pc)
  {
    if t.log != s.log && Active(pc) {
      var c := t.log[|s.log|];
      assert t.log == s.log + [c];
      NotLoggedGrows(s.log, c, pc.call.id);
      if pc.Returning? { ExplainedGrows(first, s.log, c, pc.call, pc.end); }
    }
  }

  lemma StepProcs<C(!new), B, R>(k: Codec<C, B>, s: System<C, B, R>, e: Event<C, B, R>, t: System<C, B, R>)
    requires Step(k, s, e) == Some(t)
    ensures e.p < |s.procs| && t.procs == s.procs[e.p := t.procs[e.p]]
    ensures t.calls >= s.calls
    ensures Active(t.procs[e.p]) && Active(s.procs[e.p]) ==> t.procs[e.p].call == s.procs[e.p].call
    ensures Active(t.procs[e.p]) && !Active(s.procs[e.p]) ==>
              t.procs[e.p].call.id == s.calls < t.calls && t.procs[e.p].call.since == |s.log|
  {
  }

  lemma StepFiles<C(!new), B, R>(k: Codec<C, B>, s: System<C, B, R>, e: Event<C, B, R>, t: System<C, B, R>)
    requires Step(k, s, e) == Some(t)
    ensures e.p < |s.procs|
    ensures t.temps == s.temps || HoldsLock(s.procs[e.p])
    ensures s.log <= t.log && (e.action.Rename? || (t.file == s.file && t.log == s.log))
  {
  }

  lemma StepDone<C(!new), B, R>(k: Codec<C, B>, s: System<C, B, R>, e: Event<C, B, R>, t: System<C, B, R>)
    requires Step(k, s, e) == Some(t)
    ensures e.p < |s.procs| == |t.procs|
    ensures t.done == s.done || (s.procs[e.p].Returning? && !Active(t.procs[e.p]) && t.log == s.log
              && t.done == s.done + [Finished(s.procs[e.p].call, s.procs[e.p].end, |s.log|)])
  {
  }

  /** The lock goes to the process that moved, is given up by it, or stays where it is. */
  lemma StepLock<C(!new), B, R>(k: Codec<C, B>, s: System<C, B, R>, e: Event<C, B, R>, t: System<C, B, R>)
    requires Step(k, s, e) == Some(t)
    requires HoldsLock(s.procs[e.p]) <==> s.lock == Some(e.p)
    ensures HoldsLock(t.procs[e.p]) <==> t.lock == Some(e.p)
    ensures t.lock == s.lock || (s.lock.None? && t.lock == Some(e.p)) || (s.lock == Some(e.p) && t.lock.None?)
  {
  }

  /** What a step may change at all. */
  lemma StepShape<C(!new), B, R>(k: Codec<C, B>, s: System<C, B, R>, e: Event<C, B, R>, t: System<C, B, R>)
    requires Step(k, s, e) == Some(t)
    ensures e.p < |s.procs| && t.procs == s.procs[e.p := t.procs[e.p]]
    ensures t.calls >= s.calls
    ensures t.temps == s.temps || HoldsLock(s.procs[e.p])
    ensures s.log <= t.log && (e.action.Rename? || (t.file == s.file && t.log == s.log))
    ensures Active(t.procs[e.p]) && Active(s.procs[e.p]) ==> t.procs[e.p].call == s.procs[e.p].call
    ensures Active(t.procs[e.p]) && !Active(s.procs[e.p]) ==>
              t.procs[e.p].call.id == s.calls < t.calls && t.procs[e.p].call.since == |s.log|
    ensures t.done == s.done || (s.procs[e.p].Returning? && !Active(t.procs[e.p]) && t.log == s.log
              && t.done == s.done + [Finished(s.procs[e.p].call, s.procs[e.p].end, |s.log|)])
  {
    StepProcs(k, s, e, t);
    StepFiles(k, s, e, t);
    StepDone(k, s, e, t);
  }

  lemma RenameShape<C(!new), B, R>(k: Codec<C, B>, first: C, s: System<C, B, R>, e: Event<C, B, R>, t: System<C, B, R>)
    requires Step(k, s, e) == Some(t) && e.action.Rename?
    requires PcOk(k, first, s.calls, s.log, s.temps, s.procs[e.p])
    ensures var pc := s.procs[e.p];
      && pc.Renaming? && pc.call.op.run(pc.seen).Write?
      && t.log == s.log + [Commit(pc.call, pc.call.op.run(pc.seen).next)]
      && t.file == Some(k.encode(pc.call.op.run(pc.seen).next))
  {
  }

  lemma StepKeepsLock<C(!new), B, R>(k: Codec<C, B>, s: System<C, B, R>, e: Event<C, B, R>, t: System<C, B, R>)
    requires Step(k, s, e) == Some(t) && LockOk(s)
    ensures LockOk(t)
  {
    StepProcs(k, s, e, t);
    StepLock(k, s, e, t);
  }

  lemma StepKeepsFile<C(!new), B, R>(k: Codec<C, B>, start: Option<B>, s: System<C, B, R>, e: Event<C, B, R>,
      t: System<C, B, R>)
    requires Step(k, s, e) == Some(t) && FileOk(k, start, s) && Chained(Content(k, start), s.log)
    requires e.p < |s.procs| ==> PcOk(k, Content(k, start), s.calls, s.log, s.temps, s.procs[e.p])
    ensures FileOk(k, start, t) && Chained(Content(k, start), t.log)
  {
    StepShape(k, s, e, t);
    var first := Content(k, start);
    if e.action.Rename? {
      RenameShape(k, first, s, e, t);
      forall j | 0 <= j < |t.log| ensures Applies(first, t.log, j) {
        assert After(first, t.log, j) == After(first, s.log, j);
        if j < |s.log| { assert Applies(first, s.log, j); }
      }
    }
  }

  lemma StepKeepsIds<C(!new), B, R>(k: Codec<C, B>, first: C, s: System<C, B, R>, e: Event<C, B, R>, t: System<C, B, R>)
    requires Step(k, s, e) == Some(t) && IdsOk(s)
    requires forall p :: 0 <= p < |s.procs| ==> PcOk(k, first, s.calls, s.log, s.temps, s.procs[p])
    ensures IdsOk(t)
  {
    StepShape(k, s, e, t);
    assert PcOk(k, first, s.calls, s.log, s.temps, s.procs[e.p]);
    if e.action.Rename? {
      RenameShape(k, first, s, e, t);
      assert !Logged(s.log, s.procs[e.p].call.id);
    }
    assert forall p :: 0 <= p < |s.procs| && Active(s.procs[p]) ==> s.procs[p].call.id < s.calls;
  }

  /** The content every process would load agrees with the commits. */
  lemma ContentIsLast<C(!new), B, R>(k: Codec<C, B>, start: Option<B>, s: System<C, B, R>)
    requires Invertible(k) && FileOk(k, start, s)
    ensures Content(k, s.file) == After(Content(k, start), s.log, |s.log|)
  {
  }

  lemma InvokerStaysOk<C(!new), B, R>(k: Codec<C, B>, first: C, s: System<C, B, R>, e: Event<C, B, R>,
      t: System<C, B, R>)
    requires Step(k, s, e) == Some(t) && e.action.Invoke?
    requires forall j :: 0 <= j < |s.log| ==> s.log[j].call.id < s.calls
    ensures PcOk(k, first, t.calls, t.log, t.temps, t.procs[e.p])
  {
  }

  /** Up to the decision what to save. */
  lemma ReaderStaysOk<C(!new), B, R>(k: Codec<C, B>, first: C, s: System<C, B, R>, e: Event<C, B, R>,
      t: System<C, B, R>)
    requires Content(k, s.file) == After(first, s.log, |s.log|)
    requires Step(k, s, e) == Some(t) && !e.action.Invoke?
    requires s.procs[e.p].Locking? || s.procs[e.p].Loading? || s.procs[e.p].Deciding?
    requires PcOk(k, first, s.calls, s.log, s.temps, s.procs[e.p])
    ensures PcOk(k, first, t.calls, t.log, t.temps, t.procs[e.p])
  {
  }

  /** Up to the rename. */
  lemma WriterStaysOk<C(!new), B, R>(k: Codec<C, B>, first: C, s: System<C, B, R>, e: Event<C, B, R>,
                                     t: System<C, B, R>)
    requires Step(k, s, e) == Some(t) && !e.action.Rename? && !e.action.Invoke?
    requires s.procs[e.p].CreatingTemp? || s.procs[e.p].WritingTemp? || s.procs[e.p].Renaming?
    requires PcOk(k, first, s.calls, s.log, s.temps, s.procs[e.p])
    ensures PcOk(k, first, t.calls, t.log, t.temps, t.procs[e.p])
  {
  }

  lemma FinisherStaysOk<C(!new), B, R>(k: Codec<C, B>, first: C, s: System<C, B, R>, e: Event<C, B, R>,
                                     t: System<C, B, R>)
    requires Step(k, s, e) == Some(t) && !e.action.Invoke?
    requires s.procs[e.p].RemovingTemp? || s.procs[e.p].Unlocking? || !HoldsLock(s.procs[e.p])
    requires !s.procs[e.p].Locking?
    requires PcOk(k, first, s.calls, s.log, s.temps, s.procs[e.p])
    ensures PcOk(k, first, t.calls, t.log, t.temps, t.procs[e.p])
  {
  }

  lemma RenamerStaysOk<C(!new), B, R>(k: Codec<C, B>, start: Option<B>, s: System<C, B, R>, e: Event<C, B, R>,
      t: System<C, B, R>)
    requires Step(k, s, e) == Some(t) && e.action.Rename?
    requires PcOk(k, Content(k, start), s.calls, s.log, s.temps, s.procs[e.p])
    ensures PcOk(k, Content(k, start), t.calls, t.log, t.temps, t.procs[e.p])
  {
    var first := Content(k, start);
    RenameShape(k, first, s, e, t);
    assert After(first, t.log, |s.log|) == After(first, s.log, |s.log|);
  }

  lemma StepKeepsProcs<C(!new), B, R>(k: Codec<C, B>, start: Option<B>, s: System<C, B, R>, e: Event<C, B, R>,
      t: System<C, B, R>)
    requires Invertible(k) && Inv(k, start, s) && Step(k, s, e) == Some(t)
    ensures forall p :: 0 <= p < |t.procs| ==> PcOk(k, Content(k, start), t.calls, t.log, t.temps, t.procs[p])
  {
    var first := Content(k, start);
    StepShape(k, s, e, t);
    forall p | 0 <= p < |t.procs| ensures PcOk(k, first, t.calls, t.log, t.temps, t.procs[p]) {
      assert PcOk(k, first, s.calls, s.log, s.temps, s.procs[p]);
      if p == e.p {
        if e.action.Rename? {
          RenamerStaysOk(k, start, s, e, t);
        } else if e.action.Invoke? {
          InvokerStaysOk(k, first, s, e, t);
        } else if s.procs[p].Locking? || s.procs[p].Loading? || s.procs[p].Deciding? {
          ContentIsLast(k, start, s);
          ReaderStaysOk(k, first, s, e, t);
        } else if s.procs[p].CreatingTemp? || s.procs[p].WritingTemp? || s.procs[p].Renaming? {
          WriterStaysOk(k, first, s, e, t);
        } else {
          FinisherStaysOk(k, first, s, e, t);
        }
      } else {
        if e.action.Rename? { RenameShape(k, first, s, e, t); }
        BystanderStaysOk(k, first, s, t, s.procs[p]);
      }
    }
  }

  lemma StepKeepsDone<C(!new), B, R>(k: Codec<C, B>, start: Option<B>, s: System<C, B, R>, e: Event<C, B, R>,
      t: System<C, B, R>)
    requires Inv(k, start, s) && Step(k, s, e) == Some(t)
    ensures DoneOk(Content(k, start), t)
  {
    var first := Content(k, start);
    StepShape(k, s, e, t);
    assert PcOk(k, first, s.calls, s.log, s.temps, s.procs[e.p]);
    if e.action.Rename? {
      RenameShape(k, first, s, e, t);
      forall d | 0 <= d < |t.done| ensures Explained(first, t.log, t.done[d].call, t.done[d].end) {
        ExplainedGrows(first, s.log, t.log[|s.log|], s.done[d].call, s.done[d].end);
      }
    }
  }

  lemma StepKeepsInv<C(!new), B, R>(k: Codec<C, B>, start: Option<B>, s: System<C, B, R>, e: Event<C, B, R>)
    requires Invertible(k) && Inv(k, start, s)
    ensures Inv(k, start, Step(k, s, e).GetOr(s))
  {
    match Step(k, s, e)
    case None =>
    case Some(t) =>
      StepKeepsLock(k, s, e, t);
      StepKeepsFile(k, start, s, e, t);
      StepKeepsIds(k, Content(k, start), s, e, t);
      StepKeepsProcs(k, start, s, e, t);
      StepKeepsDone(k, start, s, e, t);
  }

  lemma {:induction false} ExecInv<C(!new), B, R>(k: Codec<C, B>, file: Option<B>, n: nat, events: seq<Event<C, B, R>>)
    requires Invertible(k)
    ensures Inv(k, file, Exec(k, Start(file, n), events))
  {
    if events != [] {
      ExecInv(k, file, n, events[..|events| - 1]);
      StepKeepsInv(k, file, Exec(k, Start(file, n), events[..|events| - 1]), events[|events| - 1]);
    }
  }

  // ---------------------------------------------------------------------------------------------
  // What holds of every run.

  /** The sequential reference: apply the operations one after the other to `first`. */
  function Fold<C, R>(first: C, log: seq<Commit<C, R>>): C {
    if log == [] then first
    else
      var before := Fold(first, log[..|log| - 1]);
      match log[|log| - 1].call.op.run(before)
      case Reply(_) => before
      case Write(next, _, _) => next
  }

  lemma {:induction false} ChainedIsFold<C(!new), R>(first: C, log: seq<Commit<C, R>>)
    requires Chained(first, log)
    ensures After(first, log, |log|) == Fold(first, log)
  {
    if log != [] {
      var rest := log[..|log| - 1];
      forall j | 0 <= j < |rest| ensures Applies(first, rest, j) {
        assert Applies(first, log, j) && After(first, rest, j) == After(first, log, j);
      }
      ChainedIsFold(first, rest);
      assert Applies(first, log, |log| - 1);
      assert After(first, log, |log| - 1) == After(first, rest, |rest|);
    }
  }

  /** In every reachable state the visible file is the first one or the complete image of a commit, and its
      content is the committed operations applied one after the other, in rename order, each call at most once. */
  lemma VisibleFileIsFoldOfCommits<C(!new), B, R>(k: Codec<C, B>, file: Option<B>, n: nat, events: seq<Event<C, B, R>>)
    requires Invertible(k)
    ensures var s := Exec(k, Start(file, n), events);
      && Content(k, s.file) == Fold(Content(k, file), s.log)
      && (s.file == if s.log == [] then file else Some(k.encode(Fold(Content(k, file), s.log))))
      && (forall i, j :: 0 <= i < j < |s.log| ==> s.log[i].call.id != s.log[j].call.id)
  {
    ExecInv(k, file, n, events);
    var s := Exec(k, Start(file, n), events);
    ContentIsLast(k, file, s);
    ChainedIsFold(Content(k, file), s.log);
  }

  /** Linearizability: every finished call replies what its operation replies on the content left by the first
      `at` commits, for some `at` between its invocation and its return; it is commit number `at` if it
      saved, and none of the commits otherwise. */
  lemma FinishedCallsAreExplained<C(!new), B, R>(k: Codec<C, B>, file: Option<B>, n: nat, events: seq<Event<C, B, R>>,
      d: nat)
    requires Invertible(k) && d < |Exec(k, Start(file, n), events).done|
    ensures var s := Exec(k, Start(file, n), events);
            var f := s.done[d];
      && Explained(Content(k, file), s.log, f.call, f.end)
      && f.call.since <= f.until <= |s.log|
      && (!f.end.Refused? ==> f.call.since <= f.end.at <= f.until)
      && (f.end.Committed? ==> f.end.at < f.until)
      && forall m: nat :: m <= |s.log| ==> After(Content(k, file), s.log, m) == Fold(Content(k, file), s.log[..m])
  {
    ExecInv(k, file, n, events);
    var s := Exec(k, Start(file, n), events);
    var first := Content(k, file);
    forall m: nat | m <= |s.log| ensures After(first, s.log, m) == Fold(first, s.log[..m]) {
      forall j | 0 <= j < m ensures Applies(first, s.log[..m], j) {
        assert Applies(first, s.log, j) && After(first, s.log[..m], j) == After(first, s.log, j);
      }
      ChainedIsFold(first, s.log[..m]);
    }
  }

  /** The place of a finished call among the commits: between two commits, or on one. */
  function Place<R>(end: End<R>): nat
    requires !end.Refused?
  {
    if end.Committed? then 2 * end.at + 1 else 2 * end.at
  }

  lemma PlacesAreOrdered<C(!new), B, R>(k: Codec<C, B>, file: Option<B>, n: nat, events: seq<Event<C, B, R>>, d: nat,
      e: nat)
    requires Invertible(k)
    requires var s := Exec(k, Start(file, n), events);
      && d < |s.done| && e < |s.done| && s.done[d].until <= s.done[e].call.since
      && !s.done[d].end.Refused? && !s.done[e].end.Refused?
    ensures var s := Exec(k, Start(file, n), events);
      && Place(s.done[d].end) <= Place(s.done[e].end)
      && (s.done[d].end.Committed? || s.done[e].end.Committed? ==> Place(s.done[d].end) < Place(s.done[e].end))
  {
    ExecInv(k, file, n, events);
  }

  /** The calls from number `first` on were all made when there were at least `commits` commits. */
  ghost predicate MadeLater<C(!new), B, R>(first: nat, commits: nat, s: System<C, B, R>) {
    && s.calls >= first && |s.log| >= commits
    && (forall p :: 0 <= p < |s.procs| && Active(s.procs[p]) && s.procs[p].call.id >= first ==>
          s.procs[p].call.since >= commits)
    && (forall d :: 0 <= d < |s.done| && s.done[d].call.id >= first ==> s.done[d].call.since >= commits)
  }

  lemma StepKeepsMadeLater<C(!new), B, R>(k: Codec<C, B>, first: nat, commits: nat, s: System<C, B, R>,
      e: Event<C, B, R>, t: System<C, B, R>)
    requires Step(k, s, e) == Some(t) && MadeLater(first, commits, s)
    ensures MadeLater(first, commits, t) && s.done <= t.done
  {
    StepShape(k, s, e, t);
  }

  lemma MadeLaterAfterOne<C(!new), B, R>(k: Codec<C, B>, start: System<C, B, R>, events: seq<Event<C, B, R>>,
      e: Event<C, B, R>, first: nat, commits: nat)
    requires MadeLater(first, commits, Exec(k, start, events))
    ensures MadeLater(first, commits, Exec(k, start, events + [e]))
    ensures Exec(k, start, events).done <= Exec(k, start, events + [e]).done
  {
    assert (events + [e])[..|events|] == events;
    match Step(k, Exec(k, start, events), e)
    case None =>
    case Some(t) => StepKeepsMadeLater(k, first, commits, Exec(k, start, events), e, t);
  }

  lemma {:induction false} MadeLaterInRun<C(!new), B, R>(k: Codec<C, B>, start: System<C, B, R>,
      before: seq<Event<C, B, R>>, later: seq<Event<C, B, R>>, first: nat, commits: nat)
    requires MadeLater(first, commits, Exec(k, start, before))
    ensures MadeLater(first, commits, Exec(k, start, before + later))
    ensures Exec(k, start, before).done <= Exec(k, start, before + later).done
  {
    if later == [] {
      assert before + later == before;
    } else {
      var init, e := later[..|later| - 1], later[|later| - 1];
      var all, front := before + later, before + init;
      assert all == front + [e];
      MadeLaterInRun(k, start, before, init, first, commits);
      MadeLaterAfterOne(k, start, front, e, first, commits);
    }
  }

  /** No call has a number that was not given out yet. */
  lemma CallsBelow<C(!new), B, R>(k: Codec<C, B>, file: Option<B>, s: System<C, B, R>)
    requires Inv(k, file, s)
    ensures MadeLater(s.calls, |s.log|, s)
    ensures forall d :: 0 <= d < |s.done| ==> s.done[d].until <= |s.log|
  {
    forall p | 0 <= p < |s.procs| && Active(s.procs[p]) ensures s.procs[p].call.id < s.calls {
      assert PcOk(k, Content(k, file), s.calls, s.log, s.temps, s.procs[p]);
    }
  }

  /** A call that has returned when `before` is over and one that is made after `before` are in this order among the
      commits, strictly if either committed. */
  lemma RealTimeOrderIsKept<C(!new), B, R>(k: Codec<C, B>, file: Option<B>, n: nat, before: seq<Event<C, B, R>>,
      later: seq<Event<C, B, R>>, d: nat, e: nat)
    requires Invertible(k)
    requires d < |Exec(k, Start(file, n), before).done| && e < |Exec(k, Start(file, n), before + later).done|
    requires Exec(k, Start(file, n), before + later).done[e].call.id >= Exec(k, Start(file, n), before).calls
    requires !Exec(k, Start(file, n), before).done[d].end.Refused?
    requires !Exec(k, Start(file, n), before + later).done[e].end.Refused?
    ensures var f, g := Exec(k, Start(file, n), before).done[d], Exec(k, Start(file, n), before + later).done[e];
      && f in Exec(k, Start(file, n), before + later).done
      && Place(f.end) <= Place(g.end)
      && (f.end.Committed? || g.end.Committed? ==> Place(f.end) < Place(g.end))
  {
    ExecInv(k, file, n, before);
    var s := Exec(k, Start(file, n), before);
    CallsBelow(k, file, s);
    MadeLaterInRun(k, Start(file, n), before, later, s.calls, |s.log|);
    PlacesAreOrdered(k, file, n, before + later, d, e);
  }

  /** No process still works on call `id`, and it is not among the commits. */
  ghost predicate Abandoned<C(!new), B, R>(s: System<C, B, R>, id: nat) {
    && id < s.calls && !Logged(s.log, id)
    && forall p :: 0 <= p < |s.procs| && Active(s.procs[p]) ==> s.procs[p].call.id != id
  }

  lemma StepKeepsAbandoned<C(!new), B, R>(k: Codec<C, B>, file: Option<B>, s: System<C, B, R>, e: Event<C, B, R>,
      t: System<C, B, R>, id: nat)
    requires Inv(k, file, s) && Abandoned(s, id) && Step(k, s, e) == Some(t)
    ensures Abandoned(t, id)
  {
    StepShape(k, s, e, t);
    assert PcOk(k, Content(k, file), s.calls, s.log, s.temps, s.procs[e.p]);
    if e.action.Rename? {
      RenameShape(k, Content(k, file), s, e, t);
      NotLoggedGrows(s.log, t.log[|s.log|], id);
    }
  }

  lemma AbandonedAfterOne<C(!new), B, R>(k: Codec<C, B>, file: Option<B>, n: nat, events: seq<Event<C, B, R>>,
      e: Event<C, B, R>, id: nat)
    requires Invertible(k) && Abandoned(Exec(k, Start(file, n), events), id)
    ensures Abandoned(Exec(k, Start(file, n), events + [e]), id)
  {
    ExecInv(k, file, n, events);
    var s := Exec(k, Start(file, n), events);
    assert (events + [e])[..|events|] == events;
    match Step(k, s, e)
    case None =>
    case Some(t) => StepKeepsAbandoned(k, file, s, e, t, id);
  }

  lemma {:induction false} AbandonedForGood<C(!new), B, R>(k: Codec<C, B>, file: Option<B>, n: nat,
      before: seq<Event<C, B, R>>, later: seq<Event<C, B, R>>, id: nat)
    requires Invertible(k) && Abandoned(Exec(k, Start(file, n), before), id)
    ensures Abandoned(Exec(k, Start(file, n), before + later), id)
  {
    if later == [] {
      assert before + later == before;
    } else {
      var init, e := later[..|later| - 1], later[|later| - 1];
      AbandonedForGood(k, file, n, before, init, id);
      AbandonedAfterOne(k, file, n, before + init, e, id);
      assert before + later == (before + init) + [e];
    }
  }

  lemma CrashAbandons<C(!new), B, R>(k: Codec<C, B>, first: C, s: System<C, B, R>, p: nat)
    requires p < |s.procs| && Active(s.procs[p]) && IdsOk(s)
    requires PcOk(k, first, s.calls, s.log, s.temps, s.procs[p])
    requires s.procs[p].Unlocking? || s.procs[p].Returning? ==> !s.procs[p].end.Committed?
    requires s.procs[p].RemovingTemp? ==> !s.procs[p].end.Committed?
    ensures var t := Step(k, s, Event(p, Crash));
      t.Some? && t.value.file == s.file && t.value.lock != Some(p) && Abandoned(t.value, s.procs[p].call.id)
  {
  }

  /** A call whose process crashes before the rename never shows in the file, whatever happens later. */
  lemma CrashBeforeRenameHasNoEffect<C(!new), B, R>(k: Codec<C, B>, file: Option<B>, n: nat,
                                                    before: seq<Event<C, B, R>>, p: nat, later: seq<Event<C, B, R>>)
    requires Invertible(k)
    requires var s := Exec(k, Start(file, n), before);
      && p < |s.procs| && Active(s.procs[p])
      && (s.procs[p].Unlocking? || s.procs[p].Returning? || s.procs[p].RemovingTemp? ==> !s.procs[p].end.Committed?)
    ensures var s := Exec(k, Start(file, n), before);
            var crash := before + [Event(p, Crash)];
      && Exec(k, Start(file, n), crash).file == s.file
      && !Logged(Exec(k, Start(file, n), crash + later).log, s.procs[p].call.id)
  {
    ExecInv(k, file, n, before);
    var s := Exec(k, Start(file, n), before);
    CrashAbandons(k, Content(k, file), s, p);
    var crash: seq<Event<C, B, R>> := before + [Event(p, Crash)];
    assert crash[..|crash| - 1] == before && crash[|crash| - 1] == Event(p, Crash);
    AbandonedForGood(k, file, n, crash, later, s.procs[p].call.id);
  }

  /** How far the holder of the lock is from releasing it. */
  ghost function ToRelease<C(!new), R>(pc: Pc<C, R>): nat {
    match pc
    case Loading(_) => 6
    case Deciding(_, _) => 5
    case CreatingTemp(_, _) => 4
    case WritingTemp(_, _, _) => 3
    case Renaming(_, _, _) => 2
    case RemovingTemp(_, _, _) => 2
    case Unlocking(_, _) => 1
    case _ => 0
  }

  lemma FreshName<B>(temps: map<nat, B>) returns (name: nat)
    ensures name !in temps
  {
    var rest: set<nat> := temps.Keys;
    name := 0;
    while rest != {}
      invariant forall t :: t in temps && t !in rest ==> t < name
      invariant rest <= temps.Keys
    {
      var t :| t in rest;
      rest := rest - {t};
      if t >= name { name := t + 1; }
    }
  }

  lemma HolderCanAdvance<C(!new), B, R>(k: Codec<C, B>, first: C, s: System<C, B, R>, p: nat)
    returns (a: Action<C, B, R>)
    requires p < |s.procs| && HoldsLock(s.procs[p])
    requires PcOk(k, first, s.calls, s.log, s.temps, s.procs[p])
    ensures Step(k, s, Event(p, a)).Some?
    ensures ToRelease(Step(k, s, Event(p, a)).value.procs[p]) < ToRelease(s.procs[p])
  {
    match s.procs[p]
    case Loading(_) => a := Load;
    case Deciding(_, _) => a := Decide;
    case CreatingTemp(_, _) => var name := FreshName(s.temps); a := CreateTemp(name, k.encode(k.empty));
    case WritingTemp(_, _, _) => a := WriteAll;
    case Renaming(_, _, _) => a := Rename;
    case RemovingTemp(_, _, _) => a := RemoveTemp;
    case Unlocking(_, _) => a := Unlock;
  }

  /** The lock is never stranded: its holder is a live process whose next successful step, which waits for
      nobody, brings it nearer to the release. */
  lemma LockIsNeverStranded<C(!new), B, R>(k: Codec<C, B>, file: Option<B>, n: nat, events: seq<Event<C, B, R>>)
    requires Invertible(k) && Exec(k, Start(file, n), events).lock.Some?
    ensures var s := Exec(k, Start(file, n), events);
            var p := s.lock.value;
      && p < |s.procs| && 1 <= ToRelease(s.procs[p]) <= 6
      && exists a :: Step(k, s, Event(p, a)).Some?
           && ToRelease(Step(k, s, Event(p, a)).value.procs[p]) < ToRelease(s.procs[p])
  {
    ExecInv(k, file, n, events);
    var s := Exec(k, Start(file, n), events);
    var a := HolderCanAdvance(k, Content(k, file), s, s.lock.value);
  }

  // ---------------------------------------------------------------------------------------------
  // One undisturbed call, as the two stores implement it.

  /** Which parts of a call succeed. */
  datatype Io = Io(lock: bool, load: bool, save: bool)

  /** A call of `op` on its own turns file `before` into `after` and replies `r`. */
  ghost predicate Performs<C(!new), B, R>(k: Codec<C, B>, op: Op<C, R>, io: Io, before: Option<B>, after: Option<B>,
      r: R)
  {
    if !io.lock then after == before && r == op.lockFailed
    else if op.loads && !io.load then after == before && r == op.loadFailed
    else
      match op.run(if op.loads then Content(k, before) else k.empty)
      case Reply(ret) => after == before && r == ret
      case Write(next, saved, notSaved) =>
        if io.save then after == Some(k.encode(next)) && r == saved else after == before && r == notSaved
  }

  lemma LoneEndPerforms<C(!new), B, R>(k: Codec<C, B>, file: Option<B>, s: System<C, B, R>, f: Finished<C, R>)
    returns (io: Io)
    requires FileOk(k, file, s) && Chained(Content(k, file), s.log) && WellFormed(f.call.op)
    requires Explained(Content(k, file), s.log, f.call, f.end)
    requires |s.log| <= 1 && (|s.log| == 1 <==> f.end.Committed?)
    ensures Performs(k, f.call.op, io, file, s.file, f.end.ret)
  {
    io := Io(f.end.Refused? ==> f.end.ret != f.call.op.lockFailed, !f.end.Refused?, f.end.Committed?);
    if f.end.Committed? { assert Applies(Content(k, file), s.log, 0); }
  }

  /** In the protocol, a call that is alone in the world does what Performs says. */
  lemma LoneCallPerforms<C(!new), B, R>(k: Codec<C, B>, file: Option<B>, n: nat, events: seq<Event<C, B, R>>)
    requires Invertible(k)
    requires var s := Exec(k, Start(file, n), events); s.calls == 1 && |s.done| == 1
    ensures var s := Exec(k, Start(file, n), events);
      exists io :: Performs(k, s.done[0].call.op, io, file, s.file, s.done[0].end.ret)
  {
    ExecInv(k, file, n, events);
    var s := Exec(k, Start(file, n), events);
    var f := s.done[0];
    assert forall j :: 0 <= j < |s.log| ==> s.log[j].call.id == 0;
    assert s.log != [] ==> Logged(s.log, f.call.id);
    var io := LoneEndPerforms(k, file, s, f);
  }

  lemma Then<C(!new), B, R>(k: Codec<C, B>, start: System<C, B, R>, events: seq<Event<C, B, R>>, s: System<C, B, R>,
      e: Event<C, B, R>, t: System<C, B, R>)
    requires Exec(k, start, events) == s && Step(k, s, e) == Some(t)
    ensures Exec(k, start, events + [e]) == t
  {
    assert (events + [e])[..|events|] == events;
  }

  lemma {:induction false} ExecConcat<C(!new), B, R>(k: Codec<C, B>, start: System<C, B, R>,
      before: seq<Event<C, B, R>>, later: seq<Event<C, B, R>>)
    ensures Exec(k, start, before + later) == Exec(k, Exec(k, start, before), later)
  {
    if later == [] {
      assert before + later == before;
    } else {
      var init, e := later[..|later| - 1], later[|later| - 1];
      var all, front := before + later, before + init;
      assert all[..|all| - 1] == front && all[|all| - 1] == e;
      ExecConcat(k, start, before, init);
    }
  }

  lemma UpdateTwice<T>(s: seq<T>, p: nat, x: T, y: T)
    requires p < |s|
    ensures s[p := x][p := y] == s[p := y]
  {
  }

  /** The call `call` of process p is over, and ended with `end`. */
  function Ended<C, B, R>(s: System<C, B, R>, p: nat, call: Call<C, R>, end: End<R>): System<C, B, R>
    requires p < |s.procs|
  {
    Goto(s, p, Idle).(lock := None, done := s.done + [Finished(call, end, |s.log|)])
  }

  lemma ReturnEnds<C(!new), B, R>(k: Codec<C, B>, start: System<C, B, R>, front: seq<Event<C, B, R>>,
      s: System<C, B, R>, p: nat) returns (longer: seq<Event<C, B, R>>)
    requires Exec(k, start, front) == s && p < |s.procs| && s.procs[p].Returning? && s.lock.None?
    ensures Exec(k, start, longer) == Ended(s, p, s.procs[p].call, s.procs[p].end)
  {
    longer := front + [Event(p, Return)];
    Then(k, start, front, s, Event(p, Return), Ended(s, p, s.procs[p].call, s.procs[p].end));
  }

  lemma UnlockEnds<C(!new), B, R>(k: Codec<C, B>, start: System<C, B, R>, front: seq<Event<C, B, R>>,
      s: System<C, B, R>, p: nat) returns (longer: seq<Event<C, B, R>>)
    requires Exec(k, start, front) == s && p < |s.procs| && s.procs[p].Unlocking?
    ensures Exec(k, start, longer) == Ended(s, p, s.procs[p].call, s.procs[p].end)
  {
    var call, end := s.procs[p].call, s.procs[p].end;
    var t := Goto(s, p, Returning(call, end)).(lock := None);
    Then(k, start, front, s, Event(p, Unlock), t);
    longer := ReturnEnds(k, start, front + [Event(p, Unlock)], t, p);
    UpdateTwice(s.procs, p, Returning(call, end), Idle);
  }

  /** A save that works: the temporary file is made, written in full and renamed. */
  lemma SaveSteps<C(!new), B, R>(k: Codec<C, B>, s: System<C, B, R>, p: nat)
    returns (temp: nat, s1: System<C, B, R>, s2: System<C, B, R>, t: System<C, B, R>)
    requires p < |s.procs| && s.procs[p].CreatingTemp? && s.procs[p].call.op.run(s.procs[p].seen).Write?
    ensures Step(k, s, Event(p, CreateTemp(temp, k.encode(k.empty)))) == Some(s1)
    ensures Step(k, s1, Event(p, WriteAll)) == Some(s2) && Step(k, s2, Event(p, Rename)) == Some(t)
    ensures var pc := s.procs[p];
            var out := pc.call.op.run(pc.seen);
      && t.file == Some(k.encode(out.next))
      && t == s.(procs := s.procs[p := Unlocking(pc.call, Committed(out.saved, |s.log|))], file := t.file,
                 temps := t.temps, log := s.log + [Commit(pc.call, out.next)])
  {
    temp := FreshName(s.temps);
    var call, seen := s.procs[p].call, s.procs[p].seen;
    var out := call.op.run(seen);
    var image := k.encode(out.next);
    var writing, renaming := WritingTemp(call, seen, temp), Renaming(call, seen, temp);
    s1 := Goto(s, p, writing).(temps := s.temps[temp := k.encode(k.empty)]);
    s2 := Goto(s1, p, renaming).(temps := s1.temps[temp := image]);
    var unlocking := Unlocking(call, Committed(out.saved, |s.log|));
    t := Goto(s2, p, unlocking).(file := Some(image), temps := s2.temps - {temp},
                                 log := s.log + [Commit(call, out.next)]);
    UpdateTwice(s.procs, p, writing, renaming);
    UpdateTwice(s.procs, p, renaming, unlocking);
  }

  lemma SaveCanWork<C(!new), B, R>(k: Codec<C, B>, start: System<C, B, R>, front: seq<Event<C, B, R>>,
      s: System<C, B, R>, p: nat) returns (longer: seq<Event<C, B, R>>, t: System<C, B, R>)
    requires Exec(k, start, front) == s
    requires p < |s.procs| && s.procs[p].CreatingTemp? && s.procs[p].call.op.run(s.procs[p].seen).Write?
    ensures Exec(k, start, longer) == t
    ensures var pc := s.procs[p];
            var out := pc.call.op.run(pc.seen);
      && t.file == Some(k.encode(out.next))
      && t == s.(procs := s.procs[p := Unlocking(pc.call, Committed(out.saved, |s.log|))], file := t.file,
                 temps := t.temps, log := s.log + [Commit(pc.call, out.next)])
  {
    var temp, s1, s2;
    temp, s1, s2, t := SaveSteps(k, s, p);
    var e1 := Event(p, CreateTemp(temp, k.encode(k.empty)));
    Then(k, start, front, s, e1, s1);
    Then(k, start, front + [e1], s1, Event(p, WriteAll), s2);
    Then(k, start, front + [e1] + [Event(p, WriteAll)], s2, Event(p, Rename), t);
    longer := front + [e1] + [Event(p, WriteAll)] + [Event(p, Rename)];
  }

  /** From the decision on: the reply and the file that `seen` and the success of the save call for. */
  lemma DecidedCanEnd<C(!new), B, R>(k: Codec<C, B>, start: System<C, B, R>, front: seq<Event<C, B, R>>,
      s: System<C, B, R>, p: nat, save: bool)
    returns (longer: seq<Event<C, B, R>>, t: System<C, B, R>, end: End<R>)
    requires Exec(k, start, front) == s && p < |s.procs| && s.procs[p].Deciding?
    ensures Exec(k, start, longer) == t
    ensures t.procs == s.procs[p := Idle] && t.lock.None? && t.calls == s.calls
    ensures |t.log| == |s.log| + (if end.Committed? then 1 else 0)
    ensures t.done == s.done + [Finished(s.procs[p].call, end, |t.log|)]
    ensures match s.procs[p].call.op.run(s.procs[p].seen)
            case Reply(ret) => t.file == s.file && end == ReadOnly(ret, |s.log|)
            case Write(next, saved, notSaved) =>
              if save then t.file == Some(k.encode(next)) && end == Committed(saved, |s.log|)
              else t.file == s.file && end == NotSaved(notSaved, |s.log|)
  {
    var call, seen := s.procs[p].call, s.procs[p].seen;
    var decided := Step(k, s, Event(p, Decide)).value;
    Then(k, start, front, s, Event(p, Decide), decided);
    var next := front + [Event(p, Decide)];
    var last := decided;
    if call.op.run(seen).Write? {
      if save {
        next, last := SaveCanWork(k, start, next, decided, p);
      } else {
        last := Goto(decided, p, Unlocking(call, Unsaved(decided, call, seen)));
        Then(k, start, next, decided, Event(p, CreateFails), last);
        next := next + [Event(p, CreateFails)];
      }
      UpdateTwice(s.procs, p, CreatingTemp(call, seen), last.procs[p]);
    }
    end := last.procs[p].end;
    longer := UnlockEnds(k, start, next, last, p);
    t := Ended(last, p, call, end);
    UpdateTwice(s.procs, p, last.procs[p], Idle);
  }

  /** From the lock on. */
  lemma LockedCanEnd<C(!new), B, R>(k: Codec<C, B>, start: System<C, B, R>, front: seq<Event<C, B, R>>,
      s: System<C, B, R>, p: nat, io: Io)
    returns (longer: seq<Event<C, B, R>>, t: System<C, B, R>, end: End<R>)
    requires Exec(k, start, front) == s && p < |s.procs| && s.procs[p].Locking? && s.lock.None? && io.lock
    ensures Exec(k, start, longer) == t
    ensures t.procs == s.procs[p := Idle] && t.lock.None? && t.calls == s.calls
    ensures t.done == s.done + [Finished(s.procs[p].call, end, |t.log|)]
    ensures Performs(k, s.procs[p].call.op, io, s.file, t.file, end.ret)
  {
    var call := s.procs[p].call;
    var taken := Step(k, s, Event(p, Acquire)).value;
    Then(k, start, front, s, Event(p, Acquire), taken);
    var next := front + [Event(p, Acquire)];
    if call.op.loads && !io.load {
      end := Refused(call.op.loadFailed);
      var refused := Goto(taken, p, Unlocking(call, end));
      Then(k, start, next, taken, Event(p, LoadFails), refused);
      longer := UnlockEnds(k, start, next + [Event(p, LoadFails)], refused, p);
      t := Ended(refused, p, call, end);
      UpdateTwice(taken.procs, p, Unlocking(call, end), Idle);
      UpdateTwice(s.procs, p, taken.procs[p], Idle);
    } else {
      var ready := taken;
      if call.op.loads {
        ready := Goto(taken, p, Deciding(call, Content(k, s.file)));
        Then(k, start, next, taken, Event(p, Load), ready);
        next := next + [Event(p, Load)];
        UpdateTwice(s.procs, p, taken.procs[p], ready.procs[p]);
      }
      longer, t, end := DecidedCanEnd(k, start, next, ready, p, io.save);
      UpdateTwice(s.procs, p, ready.procs[p], Idle);
    }
  }

  lemma LockedOutEnds<C(!new), B, R>(k: Codec<C, B>, start: System<C, B, R>, front: seq<Event<C, B, R>>,
      s: System<C, B, R>, p: nat) returns (longer: seq<Event<C, B, R>>, t: System<C, B, R>, end: End<R>)
    requires Exec(k, start, front) == s && p < |s.procs| && s.procs[p].Locking? && s.lock.None?
    ensures Exec(k, start, longer) == t
    ensures t.procs == s.procs[p := Idle] && t.lock.None? && t.calls == s.calls && t.file == s.file
    ensures t.done == s.done + [Finished(s.procs[p].call, end, |t.log|)]
    ensures end == Refused(s.procs[p].call.op.lockFailed)
  {
    var call := s.procs[p].call;
    end := Refused(call.op.lockFailed);
    var refused := Goto(s, p, Returning(call, end));
    Then(k, start, front, s, Event(p, LockTimeout), refused);
    longer := ReturnEnds(k, start, front + [Event(p, LockTimeout)], refused, p);
    t := Ended(refused, p, call, end);
    UpdateTwice(s.procs, p, Returning(call, end), Idle);
  }

  lemma InvokeStep<C(!new), B, R>(k: Codec<C, B>, s: System<C, B, R>, p: nat, op: Op<C, R>)
    returns (e: Event<C, B, R>, made: System<C, B, R>)
    requires p < |s.procs| && s.procs[p].Idle? && WellFormed(op)
    ensures Step(k, s, e) == Some(made)
    ensures made == s.(procs := s.procs[p := Locking(Call(s.calls, op, |s.log|))], calls := s.calls + 1)
    ensures made.procs[p := Idle] == s.procs
  {
    e := Event(p, Invoke(op));
    made := s.(procs := s.procs[p := Locking(Call(s.calls, op, |s.log|))], calls := s.calls + 1);
    UpdateTwice(s.procs, p, made.procs[p], Idle);
    assert s.procs[p := Idle] == s.procs;
  }

  /** An idle process can carry out any call while the lock is free, and it ends as `io` prescribes. */
  lemma IdleCanPerform<C(!new), B, R>(k: Codec<C, B>, s: System<C, B, R>, p: nat, op: Op<C, R>, io: Io)
    returns (events: seq<Event<C, B, R>>, t: System<C, B, R>, end: End<R>)
    requires p < |s.procs| && s.procs[p].Idle? && s.lock.None? && WellFormed(op)
    ensures Exec(k, s, events) == t && t.procs == s.procs && t.lock.None? && t.calls == s.calls + 1
    ensures t.done == s.done + [Finished(Call(s.calls, op, |s.log|), end, |t.log|)]
    ensures Performs(k, op, io, s.file, t.file, end.ret)
  {
    var e, made := InvokeStep(k, s, p, op);
    Then(k, s, [], s, e, made);
    if io.lock {
      events, t, end := LockedCanEnd(k, s, [] + [e], made, p, io);
    } else {
      events, t, end := LockedOutEnds(k, s, [] + [e], made, p);
    }
  }

  /** The other direction of LoneCallPerforms, and from any reachable state in which the lock is free: an idle process
      can carry out any call with any success of its parts.  When all works, a call that saves leaves the encoding of
      its new content in the file and replies that it saved. */
  lemma CallCanPerform<C(!new), B, R>(k: Codec<C, B>, file: Option<B>, n: nat, events: seq<Event<C, B, R>>, p: nat,
      op: Op<C, R>, io: Io) returns (later: seq<Event<C, B, R>>, f: Finished<C, R>)
    requires var s := Exec(k, Start(file, n), events);
      p < |s.procs| && s.procs[p].Idle? && s.lock.None? && WellFormed(op)
    ensures var s, t := Exec(k, Start(file, n), events), Exec(k, Start(file, n), events + later);
      && t.procs == s.procs && t.lock.None? && t.calls == s.calls + 1
      && t.done == s.done + [f] && f.call == Call(s.calls, op, |s.log|)
      && Performs(k, op, io, s.file, t.file, f.end.ret)
      && (io.lock && io.load && io.save ==>
            match op.run(if op.loads then Content(k, s.file) else k.empty)
            case Reply(ret) => t.file == s.file && f.end.ret == ret
            case Write(next, saved, _) => t.file == Some(k.encode(next)) && f.end.ret == saved)
  {
    var s := Exec(k, Start(file, n), events);
    var t, end;
    later, t, end := IdleCanPerform(k, s, p, op, io);
    f := Finished(Call(s.calls, op, |s.log|), end, |t.log|);
    ExecConcat(k, Start(file, n), events, later);
  }

  /** A run with one call, of `op`, which is over and has left `after` and replied `r`. */
  ghost predicate LoneRun<C(!new), B, R>(k: Codec<C, B>, file: Option<B>, n: nat, events: seq<Event<C, B, R>>,
      op: Op<C, R>, after: Option<B>, r: R)
  {
    var s := Exec(k, Start(file, n), events);
    s.calls == 1 && |s.done| == 1 && s.done[0].call.op == op && s.file == after && s.done[0].end.ret == r
  }

  /** The outcomes of a call that is alone are exactly those Performs allows. */
  lemma LoneCallIff<C(!new), B, R>(k: Codec<C, B>, file: Option<B>, n: nat, op: Op<C, R>, after: Option<B>, r: R)
    requires Invertible(k) && n > 0 && WellFormed(op)
    ensures (exists events: seq<Event<C, B, R>> :: LoneRun(k, file, n, events, op, after, r))
       <==> (exists io :: Performs(k, op, io, file, after, r))
  {
    if events: seq<Event<C, B, R>> :| LoneRun(k, file, n, events, op, after, r) {
      LoneCallPerforms(k, file, n, events);
    }
    if io :| Performs(k, op, io, file, after, r) {
      var none: seq<Event<C, B, R>> := [];
      var later, f := CallCanPerform(k, file, n, none, 0, op, io);
      PerformsIsFunction(k, op, io, file, after, r, Exec(k, Start(file, n), none + later).file, f.end.ret);
      assert LoneRun(k, file, n, none + later, op, after, r);
    }
  }

  lemma PerformsIsFunction<C(!new), B, R>(k: Codec<C, B>, op: Op<C, R>, io: Io, file: Option<B>, after1: Option<B>,
      r1: R, after2: Option<B>, r2: R)
    requires Performs(k, op, io, file, after1, r1) && Performs(k, op, io, file, after2, r2)
    ensures after1 == after2 && r1 == r2
  {
  }
}
