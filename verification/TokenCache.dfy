/** The access token cache, `~/.ags/tokens.json`: the second client of the locked-file protocol. */
module TokenCache {
  import opened Prelude
  import opened LockedFile

  datatype Token = Token(accessToken: string, createdAt: int)

  /** A token may be null in a file this program did not write. */
  datatype Data = Data(version: int, tokens: map<string, Option<Token>>)

  const VERSION := 1

  type CacheData = d: Data | d.version >= VERSION witness Data(VERSION, map[])

  const EMPTY: CacheData := Data(VERSION, map[])

  /** The bytes of the cache file.  Any version and a missing token table decode. */
  datatype Image = Whole(version: int, tokens: Option<map<string, Option<Token>>>) | Damaged

  datatype Reply = Done | LockFailed | LoadFailed | SaveFailed | Found(token: string) | NotFound | Ids(ids: set<string>)

  type CacheOp = Op<CacheData, Reply>

  function Encode(d: CacheData): Image { Whole(d.version, Some(d.tokens)) }

  function Decode(image: Image): Option<CacheData> {
    match image
    case Damaged => None
    case Whole(version, tokens) => Some(Data(Max(version, VERSION), tokens.GetOr(map[])))
  }

  const CacheCodec: Codec<CacheData, Image> := Codec((d: CacheData) => Encode(d), (i: Image) => Decode(i), EMPTY)

  lemma CodecInverts()
    ensures Invertible(CacheCodec)
  {
  }

  /** Loading repairs what this program does not write: an old version number and a missing table of tokens.  Anything
      that does not decode, and a missing file, is an empty cache. */
  lemma LoadingRepairs(version: int, tokens: Option<map<string, Option<Token>>>)
    ensures var c := Content(CacheCodec, Some(Whole(version, tokens)));
      && c.version == (if version < VERSION then VERSION else version)
      && (forall id :: id in c.tokens <==> tokens.Some? && id in tokens.value)
      && (forall id :: id in c.tokens ==> c.tokens[id] == tokens.value[id])
      && (Encode(c) == Whole(version, tokens) <==> version >= VERSION && tokens.Some?)
    ensures Content(CacheCodec, Some(Damaged)) == Content(CacheCodec, None) == EMPTY
  {
    assert CacheCodec.decode(Whole(version, tokens)) == Some(Data(Max(version, VERSION), tokens.GetOr(map[])));
  }

  function WithToken(c: CacheData, id: string, token: Token): CacheData {
    c.(tokens := c.tokens[id := Some(token)])
  }

  function Without(c: CacheData, id: string): CacheData {
    c.(tokens := c.tokens - {id})
  }

  function GetOp(id: string): CacheOp {
    Op(true,
       (c: CacheData) =>
         if id in c.tokens && c.tokens[id].Some? then Reply(Found(c.tokens[id].value.accessToken)) else Reply(NotFound),
       NotFound, NotFound)
  }

  function SetOp(id: string, token: Token): CacheOp {
    Op(true, (c: CacheData) => Write(WithToken(c, id, token), Done, SaveFailed), LockFailed, LoadFailed)
  }

  function DeleteOp(id: string): CacheOp {
    Op(true, (c: CacheData) => Write(Without(c, id), Done, SaveFailed), LockFailed, LoadFailed)
  }

  /** Clear does not look at the file. */
  function ClearOp(): CacheOp {
    Op(false, (c: CacheData) => Write(EMPTY, Done, SaveFailed), LockFailed, LoadFailed)
  }

  function ListOp(): CacheOp {
    Op(true, (c: CacheData) => Reply(Ids(c.tokens.Keys)), LockFailed, LoadFailed)
  }

  /** The reply of a call whose lock, load or save failed. */
  function Refusal(io: Io): Reply { if !io.lock then LockFailed else if !io.load then LoadFailed else SaveFailed }

  class Cache {
    var file: Option<Image>

    function Tokens(): map<string, Option<Token>> reads this { Content(CacheCodec, file).tokens }

    constructor (file: Option<Image>)
      ensures this.file == file
    {
      this.file := file;
    }

    method Get(id: string, io: Io) returns (token: string, found: bool)
      ensures exists r :: Performs(CacheCodec, GetOp(id), io, file, file, r)
                && (found <==> r.Found?) && token == if r.Found? then r.token else ""
      ensures found <==> io.lock && io.load && id in Tokens() && Tokens()[id].Some?
      ensures token == if found then Tokens()[id].value.accessToken else ""
    {
      token, found := "", false;
      if io.lock && io.load {
        var cache := Content(CacheCodec, file);
        if id in cache.tokens && cache.tokens[id].Some? {
          token, found := cache.tokens[id].value.accessToken, true;
        }
      }
      ghost var r := if found then Found(token) else NotFound;
      assert Performs(CacheCodec, GetOp(id), io, file, file, r);
    }

    method Set(id: string, accessToken: string, now: int, io: Io) returns (r: Reply)
      modifies this
      ensures Performs(CacheCodec, SetOp(id, Token(accessToken, now)), io, old(file), file, r)
      ensures if io.lock && io.load && io.save
              then r == Done && Tokens() == old(Tokens())[id := Some(Token(accessToken, now))]
              else file == old(file) && r == Refusal(io)
    {
      if !io.lock { return LockFailed; }
      if !io.load { return LoadFailed; }
      var cache := Content(CacheCodec, file);
      r := SaveLocked(WithToken(cache, id, Token(accessToken, now)), io);
    }

    method Delete(id: string, io: Io) returns (r: Reply)
      modifies this
      ensures Performs(CacheCodec, DeleteOp(id), io, old(file), file, r)
      ensures if io.lock && io.load && io.save then r == Done && Tokens() == old(Tokens()) - {id}
              else file == old(file) && r == Refusal(io)
    {
      if !io.lock { return LockFailed; }
      if !io.load { return LoadFailed; }
      var cache := Content(CacheCodec, file);
      r := SaveLocked(Without(cache, id), io);
    }

    method Clear(io: Io) returns (r: Reply)
      modifies this
      ensures Performs(CacheCodec, ClearOp(), io, old(file), file, r)
      ensures if io.lock && io.save then r == Done && Tokens() == map[]
              else file == old(file) && r == (if !io.lock then LockFailed else SaveFailed)
    {
      if !io.lock { return LockFailed; }
      r := SaveLocked(EMPTY, io);
    }

    method List(io: Io) returns (r: Reply)
      ensures Performs(CacheCodec, ListOp(), io, file, file, r)
      ensures r == if io.lock && io.load then Ids(Tokens().Keys) else Refusal(io)
    {
      if !io.lock { return LockFailed; }
      if !io.load { return LoadFailed; }
      r := Ids(Content(CacheCodec, file).tokens.Keys);
    }

    method SaveLocked(cache: CacheData, io: Io) returns (r: Reply)
      modifies this
      ensures if io.save then r == Done && file == Some(Encode(cache)) else r == SaveFailed && file == old(file)
    {
      if !io.save { return SaveFailed; }
      file := Some(Encode(cache));
      r := Done;
    }
  }

  // ---------------------------------------------------------------------------------------------
  // What the protocol means for the cache.

  /** Whatever `op` saves, it leaves the token of `id` as it is. */
  ghost predicate Spares(op: CacheOp, id: string) {
    forall c: CacheData :: id in c.tokens && op.run(c).Write? ==>
      id in op.run(c).next.tokens && op.run(c).next.tokens[id] == c.tokens[id]
  }

  lemma WhoSpares(id: string, other: string, token: Token)
    requires id != other
    ensures Spares(SetOp(other, token), id) && Spares(DeleteOp(other), id) && Spares(GetOp(other), id)
    ensures !Spares(ClearOp(), id)
  {
    var c: CacheData := Data(VERSION, map[id := None]);
    assert id in c.tokens && ClearOp().run(c).Write? && id !in ClearOp().run(c).next.tokens;
  }

  lemma {:induction false} TokenStays(first: CacheData, log: seq<Commit<CacheData, Reply>>, j: nat, m: nat,
      id: string, token: Token)
    requires Chained(first, log) && j < m <= |log| && log[j].call.op == SetOp(id, token)
    requires forall i :: j < i < m ==> Spares(log[i].call.op, id)
    ensures id in After(first, log, m).tokens && After(first, log, m).tokens[id] == Some(token)
  {
    assert Applies(first, log, m - 1);
    if m > j + 1 { TokenStays(first, log, j, m - 1, id, token); }
  }

  /** In any run of any number of processes, a Get that read the file after a Set committed, and before any later
      commit touched the same id, returns the token that was set; a Get refused the lock or the file
      reports the token as missing. */
  lemma GetSeesTheLastSet(file: Option<Image>, n: nat, events: seq<Event<CacheData, Image, Reply>>, d: nat, j: nat,
      id: string, token: Token)
    requires var s := Exec(CacheCodec, Start(file, n), events);
      && d < |s.done| && s.done[d].call.op == GetOp(id)
      && j < |s.log| && s.log[j].call.op == SetOp(id, token)
      && (!s.done[d].end.Refused? ==>
            j < s.done[d].end.at &&
            forall i :: j < i < s.done[d].end.at && i < |s.log| ==> Spares(s.log[i].call.op, id))
    ensures var s := Exec(CacheCodec, Start(file, n), events);
      if s.done[d].end.Refused? then s.done[d].end.ret == NotFound
      else s.done[d].end == ReadOnly(Found(token.accessToken), s.done[d].end.at)
  {
    CodecInverts();
    ExecInv(CacheCodec, file, n, events);
    var s := Exec(CacheCodec, Start(file, n), events);
    var f, first := s.done[d], Content(CacheCodec, file);
    assert Explained(first, s.log, f.call, f.end);
    if !f.end.Refused? {
      TokenStays(first, s.log, j, f.end.at, id, token);
    }
  }

  /** Whatever `op` saves, it brings in no token for `id`. */
  ghost predicate KeepsOut(op: CacheOp, id: string) {
    forall c: CacheData :: id !in c.tokens && op.run(c).Write? ==> id !in op.run(c).next.tokens
  }

  lemma WhoKeepsOut(id: string, other: string, token: Token)
    ensures KeepsOut(SetOp(other, token), id) <==> id != other
    ensures KeepsOut(DeleteOp(other), id) && KeepsOut(ClearOp(), id) && KeepsOut(GetOp(other), id)
  {
    if id == other {
      assert SetOp(other, token).run(EMPTY).Write? && id in SetOp(other, token).run(EMPTY).next.tokens;
    }
  }

  lemma {:induction false} TokenStaysOut(first: CacheData, log: seq<Commit<CacheData, Reply>>, j: nat, m: nat,
      id: string)
    requires Chained(first, log) && j < m <= |log| && id !in log[j].after.tokens
    requires forall i :: j < i < m ==> KeepsOut(log[i].call.op, id)
    ensures id !in After(first, log, m).tokens
  {
    assert Applies(first, log, m - 1);
    if m > j + 1 { TokenStaysOut(first, log, j, m - 1, id); }
  }

  /** In any run of any number of processes, a Get that read the file after a Delete of the id or a Clear committed,
      and before any later Set of the id, reports the token as missing. */
  lemma GetMissesTheDeleted(file: Option<Image>, n: nat, events: seq<Event<CacheData, Image, Reply>>, d: nat, j: nat,
      id: string)
    requires var s := Exec(CacheCodec, Start(file, n), events);
      && d < |s.done| && s.done[d].call.op == GetOp(id)
      && j < |s.log| && (s.log[j].call.op == DeleteOp(id) || s.log[j].call.op == ClearOp())
      && (!s.done[d].end.Refused? ==>
            j < s.done[d].end.at &&
            forall i :: j < i < s.done[d].end.at && i < |s.log| ==> KeepsOut(s.log[i].call.op, id))
    ensures Exec(CacheCodec, Start(file, n), events).done[d].end.ret == NotFound
  {
    CodecInverts();
    ExecInv(CacheCodec, file, n, events);
    var s := Exec(CacheCodec, Start(file, n), events);
    var f, first := s.done[d], Content(CacheCodec, file);
    assert Explained(first, s.log, f.call, f.end);
    if !f.end.Refused? {
      TokenTakenOut(first, s.log, j, id);
      TokenStaysOut(first, s.log, j, f.end.at, id);
    }
  }

  lemma TokenTakenOut(first: CacheData, log: seq<Commit<CacheData, Reply>>, j: nat, id: string)
    requires j < |log| && Applies(first, log, j)
    requires log[j].call.op == DeleteOp(id) || log[j].call.op == ClearOp()
    ensures id !in log[j].after.tokens
  {
  }
}
