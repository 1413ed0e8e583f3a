/**
  A registry file that holds the JSON value `null`.  It decodes, to a nil map: reading and deleting work on it, and
  saving it gives `null` again, but `Save` assigns to an entry, which panics.  This program never writes `null` unless
  it has found it.
*/
module NullStore {
  import opened Prelude
  import opened LockedFile
  import opened TunnelStore

  /** The file: `null`, or any other bytes. */
  datatype Raw = Null | Text(image: Image)

  /** What the file decodes to: a nil map, or a map that was made. */
  datatype GoMap = Nil | Made(entries: Entries) {
    function Entries(): Entries { if Nil? then map[] else entries }
  }

  /** One call of the store; the ids and flags are what the operating system makes of it. */
  datatype Request =
    | Save(id: string, entry: Entry)
    | Remove(id: string)
    | List(alive: set<string>)
    | Cleanup(id: string, killed: bool)
    | CleanupAll(failed: set<string>)

  datatype Call = Call(request: Request, io: Io)

  /** The operation of the protocol that the call performs. */
  function OpOf(r: Request): StoreOp {
    match r
    case Save(id, entry) => SaveOp(id, entry)
    case Remove(id) => RemoveOp(id)
    case List(alive) => ListOp(alive)
    case Cleanup(id, killed) => CleanupOp(id, killed)
    case CleanupAll(failed) => CleanupAllOp(failed)
  }

  function Loaded(file: Option<Raw>): GoMap {
    match file
    case None => Made(map[])
    case Some(Null) => Nil
    case Some(Text(image)) => Made(StoreCodec.decode(image).GetOr(map[]))
  }

  function Saved(m: GoMap): Raw {
    match m
    case Nil => Null
    case Made(entries) => Text(StoreCodec.encode(entries))
  }

  /** `next` as the same Go map: one that was nil stays nil, and is then empty. */
  function Changed(m: GoMap, next: Entries): GoMap { if m.Nil? then Nil else Made(next) }

  datatype Outcome = Panicked | Went(file: Option<Raw>)

  /** One call on its own. */
  function Perform(c: Call, file: Option<Raw>): Outcome {
    if !c.io.lock || !c.io.load then Went(file)
    else
      var m := Loaded(file);
      if c.request.Save? && m.Nil? then Panicked
      else
        match OpOf(c.request).run(m.Entries())
        case Reply(_) => Went(file)
        case Write(next, _, _) => Went(if c.io.save then Some(Saved(Changed(m, next))) else file)
  }

  function PerformAll(calls: seq<Call>, file: Option<Raw>): Outcome {
    if calls == [] then Went(file)
    else
      match PerformAll(calls[..|calls| - 1], file)
      case Panicked => Panicked
      case Went(next) => Perform(calls[|calls| - 1], next)
  }

  /** A call that gets to its assignment. */
  predicate Assigns(c: Call) { c.request.Save? && c.io.lock && c.io.load }

  /** A nil map is never made into one that is not: all that is written for it is the empty map. */
  lemma NilStaysEmpty(r: Request)
    requires !r.Save?
    ensures OpOf(r).run(map[]).Write? ==> OpOf(r).run(map[]).next == map[]
  {
    var none: Entries := map[];
    match r
    case Remove(id) => assert none - {id} == none;
    case List(alive) => assert Restrict(none, alive) == none;
    case Cleanup(id, killed) =>
    case CleanupAll(failed) => assert Restrict(none, failed) == none;
  }

  /** Whatever the file holds otherwise, a call does what the protocol says of its operation, and writes no `null`. */
  lemma OtherFilesFollowTheProtocol(c: Call, file: Option<Image>)
    ensures var raw := if file.Some? then Some(Text(file.value)) else None;
      exists after: Option<Image>, r: Reply ::
        && Performs(StoreCodec, OpOf(c.request), c.io, file, after, r)
        && Perform(c, raw) == Went(if after.Some? then Some(Text(after.value)) else None)
  {
    var op, io := OpOf(c.request), c.io;
    if !io.lock {
      assert Performs(StoreCodec, op, io, file, file, op.lockFailed);
    } else if !io.load {
      assert Performs(StoreCodec, op, io, file, file, op.loadFailed);
    } else {
      match op.run(Content(StoreCodec, file))
      case Reply(r) => assert Performs(StoreCodec, op, io, file, file, r);
      case Write(next, saved, notSaved) =>
        if io.save {
          assert Performs(StoreCodec, op, io, file, Some(StoreCodec.encode(next)), saved);
        } else {
          assert Performs(StoreCodec, op, io, file, file, notSaved);
        }
    }
  }

  lemma OneCall(c: Call, file: Option<Raw>)
    ensures Perform(c, file).Panicked? <==> file == Some(Null) && Assigns(c)
    ensures Perform(c, file).Went? ==> (Perform(c, file).file == Some(Null) <==> file == Some(Null))
  {
    if file == Some(Null) && !c.request.Save? { NilStaysEmpty(c.request); }
  }

  /** The exact condition, for any sequence of calls: it panics if and only if the file was `null` to begin with and
      some Save gets the lock and the file.  Nothing that the other calls do repairs the file, or breaks it. */
  lemma {:induction false} PanicsIffNull(calls: seq<Call>, file: Option<Raw>)
    ensures PerformAll(calls, file).Panicked? <==>
              file == Some(Null) && exists i :: 0 <= i < |calls| && Assigns(calls[i])
    ensures PerformAll(calls, file).Went? ==> (PerformAll(calls, file).file == Some(Null) <==> file == Some(Null))
  {
    if calls != [] {
      var n := |calls| - 1;
      PanicsIffNull(calls[..n], file);
      match PerformAll(calls[..n], file)
      case Panicked =>
        var i :| 0 <= i < n && Assigns(calls[..n][i]);
        assert Assigns(calls[i]);
      case Went(next) =>
        OneCall(calls[n], next);
        assert forall i :: 0 <= i < n ==> calls[..n][i] == calls[i];
    }
  }
}
