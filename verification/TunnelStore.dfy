/**
  The registry of background tunnels, `~/.ags/tunnels.json`: which process serves which sandbox.
  Each method is proved against an operation of the locked-file protocol; List and the cleanups talk to
  the operating system while they run.
*/
module TunnelStore {
  import opened Prelude
  import opened LockedFile
  import opened ProcessKiller

  datatype Entry = Entry(pid: int, port: int, createdAt: int, exePath: string)

  type Entries = map<string, Entry>

  /** The bytes of the store file: the encoding of some entries, or something that does not decode. */
  datatype Image = Whole(entries: Entries) | Damaged

  datatype Reply = Done | LockFailed | LoadFailed | SaveFailed | KillFailed | Listed(entries: Entries)

  type StoreOp = Op<Entries, Reply>

  const StoreCodec: Codec<Entries, Image> :=
    Codec(entries => Whole(entries), (image: Image) => if image.Whole? then Some(image.entries) else None, map[])

  lemma CodecInverts()
    ensures Invertible(StoreCodec)
  {
  }

  // ---------------------------------------------------------------------------------------------
  // The operations.

  function SaveOp(id: string, entry: Entry): StoreOp {
    Op(true, (c: Entries) => Write(c[id := entry], Done, SaveFailed), LockFailed, LoadFailed)
  }

  function RemoveOp(id: string): StoreOp {
    Op(true, (c: Entries) => Write(c - {id}, Done, SaveFailed), LockFailed, LoadFailed)
  }

  function Restrict(c: Entries, ids: set<string>): Entries {
    map id | id in c && id in ids :: c[id]
  }

  /** `alive` are the ids whose process answered. */
  function ListOp(alive: set<string>): StoreOp {
    Op(true,
       (c: Entries) =>
         var live := Restrict(c, alive);
         if live == c then Reply(Listed(c)) else Write(live, Listed(live), Listed(live)),
       LockFailed, LoadFailed)
  }

  /** `killed` says whether the process of the entry was confirmed dead. */
  function CleanupOp(id: string, killed: bool): StoreOp {
    Op(true,
       (c: Entries) =>
         if id !in c then Reply(Done) else if !killed then Reply(KillFailed) else Write(c - {id}, Done, SaveFailed),
       LockFailed, LoadFailed)
  }

  /** `failed` are the ids whose process could not be confirmed dead. */
  function CleanupAllOp(failed: set<string>): StoreOp {
    Op(true,
       (c: Entries) =>
         var kept := Restrict(c, failed);
         Write(kept, if kept == map[] then Done else KillFailed, SaveFailed),
       LockFailed, LoadFailed)
  }

  /** The reply of a call whose lock, load or save failed. */
  function Refusal(io: Io): Reply { if !io.lock then LockFailed else if !io.load then LoadFailed else SaveFailed }

  // ---------------------------------------------------------------------------------------------
  // The store.

  class Store {
    var file: Option<Image>
    const os: Os

    constructor (file: Option<Image>, os: Os)
      ensures this.file == file && this.os == os
    {
      this.file, this.os := file, os;
    }

    function Entries(): Entries reads this { Content(StoreCodec, file) }

    method Save(id: string, entry: Entry, io: Io) returns (r: Reply)
      modifies this
      ensures Performs(StoreCodec, SaveOp(id, entry), io, old(file), file, r)
      ensures if io.lock && io.load && io.save then r == Done && Entries() == old(Entries())[id := entry]
              else file == old(file) && r == Refusal(io)
    {
      if !io.lock { return LockFailed; }
      if !io.load { return LoadFailed; }
      var entries := Entries();
      entries := entries[id := entry];
      r := SaveLocked(entries, io);
    }

    method Remove(id: string, io: Io) returns (r: Reply)
      modifies this
      ensures Performs(StoreCodec, RemoveOp(id), io, old(file), file, r)
      ensures if io.lock && io.load && io.save then r == Done && Entries() == old(Entries()) - {id}
              else file == old(file) && r == Refusal(io)
    {
      if !io.lock { return LockFailed; }
      if !io.load { return LoadFailed; }
      var entries := Entries();
      entries := entries - {id};
      r := SaveLocked(entries, io);
    }

    method SaveLocked(entries: Entries, io: Io) returns (r: Reply)
      modifies this
      ensures if io.save then r == Done && file == Some(Whole(entries)) else r == SaveFailed && file == old(file)
    {
      if !io.save { return SaveFailed; }
      file := Some(Whole(entries));
      r := Done;
    }

    method List(io: Io) returns (r: Reply, ghost alive: set<string>, ghost order: seq<string>)
      requires os.Valid()
      modifies this, os
      ensures os.Later() && os.log == old(os.log)
      ensures alive <= old(Entries()).Keys && old(os.answers) <= os.answers
      ensures Performs(StoreCodec, ListOp(alive), io, old(file), file, r)
      ensures if io.lock && io.load then r == Listed(map id | id in alive :: old(Entries())[id])
              else file == old(file) && r == Refusal(io)
      ensures io.lock && io.load ==>
                if io.save || alive == old(Entries()).Keys then Entries() == r.entries else file == old(file)
      ensures if io.lock && io.load then Heard(old(os.answers), os.answers, order, old(Entries()), alive)
              else os.answers == old(os.answers)
      ensures os.exact ==> AllGone(old(Entries()), old(Entries()).Keys - alive, old(os.world.table), os.world.table)
      ensures os.exact && os.quiet && io.lock && io.load ==>
                alive == set id | id in old(Entries()) && old(Entries())[id].pid in os.world.table
    {
      alive, order := Entries().Keys, [];
      if !io.lock { return LockFailed, alive, order; }
      if !io.load { return LoadFailed, alive, order; }
      var entries, cleaned;
      entries, cleaned, alive, order := DropDead(os, Entries());
      if cleaned {
        var _ := SaveLocked(entries, io);
      }
      r := Listed(entries);
    }

    /** The entry of one sandbox, if its process is alive; None also when the store cannot be read. */
    method Get(id: string, io: Io)
      returns (entry: Option<Entry>, failed: bool, ghost alive: set<string>, ghost order: seq<string>)
      requires os.Valid()
      modifies this, os
      ensures os.Later() && os.log == old(os.log)
      ensures alive <= old(Entries()).Keys && old(os.answers) <= os.answers
      ensures failed <==> !(io.lock && io.load)
      ensures exists r :: Performs(StoreCodec, ListOp(alive), io, old(file), file, r)
                && entry == if r.Listed? && id in r.entries then Some(r.entries[id]) else None
      ensures entry == if io.lock && io.load && id in alive then Some(old(Entries())[id]) else None
      ensures if io.lock && io.load then Heard(old(os.answers), os.answers, order, old(Entries()), alive)
              else os.answers == old(os.answers)
      ensures os.exact ==> AllGone(old(Entries()), old(Entries()).Keys - alive, old(os.world.table), os.world.table)
      ensures os.exact && os.quiet && io.lock && io.load ==>
                alive == set id | id in old(Entries()) && old(Entries())[id].pid in os.world.table
    {
      var r;
      r, alive, order := List(io);
      failed := !r.Listed?;
      entry := if r.Listed? && id in r.entries then Some(r.entries[id]) else None;
    }

    method Cleanup(id: string, io: Io) returns (r: Reply, ghost killed: bool)
      requires os.Valid()
      modifies this, os
      ensures os.Valid() && Evolved(old(os.world), os.world) && old(os.answers) <= os.answers
      ensures Performs(StoreCodec, CleanupOp(id, killed), io, old(file), file, r)
      ensures if io.lock && io.load && id in old(Entries()) && killed && io.save
              then r == Done && Entries() == old(Entries()) - {id}
              else file == old(file)
      ensures io.lock && io.load && (id !in old(Entries()) || !killed) ==>
                r == if id !in old(Entries()) then Done else KillFailed
      ensures !io.lock || !io.load || (id in old(Entries()) && killed && !io.save) ==> r == Refusal(io)
      ensures os.verdicts == old(os.verdicts) + CleanupVerdict(io, old(Entries()), id, killed)
      ensures os.quiet ==> os.world == old(os.world).(table := os.world.table)
      ensures os.exact && os.quiet ==>
                (killed, os.world.table) == CleanupKill(io, old(Entries()), id, old(os.world.table))
      ensures os.exact && killed && io.lock && io.load ==>
                id in old(Entries()) && old(Entries()[id].pid in os.world.table) ==>
                Gone(old(os.world.table[Entries()[id].pid].uid), os.world.table)
      ensures os.exact && !killed && io.lock && io.load && id in old(Entries()) ==>
                old(Entries())[id].pid in os.world.table
    {
      killed := true;
      if !io.lock { return LockFailed, killed; }
      if !io.load { return LoadFailed, killed; }
      var entries := Entries();
      if id in entries {
        var dead := os.KillProcess(entries[id].pid, entries[id].exePath);
        killed := dead;
        if !dead { return KillFailed, killed; }
        entries := entries - {id};
        r := SaveLocked(entries, io);
      } else {
        r := Done;
      }
    }

    /** The entries are visited in some order, which the caller does not choose. */
    method CleanupAll(io: Io) returns (r: Reply, ghost failed: set<string>, ghost order: seq<string>)
      requires os.Valid()
      modifies this, os
      ensures os.Valid() && Evolved(old(os.world), os.world) && old(os.answers) <= os.answers
      ensures failed <= old(Entries()).Keys && old(os.verdicts) <= os.verdicts
      ensures Performs(StoreCodec, CleanupAllOp(failed), io, old(file), file, r)
      ensures if io.lock && io.load && io.save
              then Entries() == (map id | id in failed :: old(Entries())[id])
                   && r == (if failed == {} then Done else KillFailed)
              else file == old(file) && r == Refusal(io)
      ensures if io.lock && io.load then Judged(old(os.verdicts), os.verdicts, order, old(Entries()), failed)
              else os.verdicts == old(os.verdicts)
      ensures os.exact && io.lock && io.load ==>
                AllGone(old(Entries()), old(Entries()).Keys - failed, old(os.world.table), os.world.table)
      ensures os.exact && os.quiet && io.lock && io.load ==>
                Orders(order, old(Entries()).Keys)
                && KillPass(order, old(os.world.table), old(Entries())) == (failed, os.world.table)
    {
      failed, order := {}, [];
      if !io.lock { return LockFailed, failed, order; }
      if !io.load { return LoadFailed, failed, order; }
      ghost var loaded := Entries();
      var entries, warned;
      entries, warned, failed, order := KillEach(os, Entries());
      if failed != {} { var id :| id in failed; assert id in Restrict(loaded, failed); }
      r := SaveLocked(entries, io);
      if r.Done? && warned { r := KillFailed; }
    }
  }

  /** Since `before`, each entry of `c` was asked for once, and the ids in `alive` are those that answered. */
  ghost predicate Heard(before: seq<Answer>, now: seq<Answer>, order: seq<string>, c: Entries, alive: set<string>) {
    && Orders(order, c.Keys) && before <= now && |now| == |before| + |order|
    && forall k :: 0 <= k < |order| ==>
         order[k] in c && now[|before| + k] == Answer(c[order[k]].pid, order[k] in alive)
  }

  /** Since `before`, each entry of `c` was killed once, and the ids in `failed` are those with a negative verdict. */
  ghost predicate Judged(before: seq<Verdict>, now: seq<Verdict>, order: seq<string>, c: Entries, failed: set<string>) {
    && Orders(order, c.Keys) && before <= now && |now| == |before| + |order|
    && forall k :: 0 <= k < |order| ==>
         order[k] in c && now[|before| + k] == Verdict(c[order[k]].pid, c[order[k]].exePath, order[k] !in failed)
  }

  /** Cleanup kills only when it finds an entry. */
  function CleanupVerdict(io: Io, c: Entries, id: string, killed: bool): seq<Verdict> {
    if io.lock && io.load && id in c then [Verdict(c[id].pid, c[id].exePath, killed)] else []
  }

  function CleanupKill(io: Io, c: Entries, id: string, t: Table): (bool, Table) {
    if io.lock && io.load && id in c then QuietKill(t, c[id].pid, c[id].exePath) else (true, t)
  }

  /** The processes that the entries `ids` named in table `t0` are gone from table `t`. */
  ghost predicate AllGone(c: Entries, ids: set<string>, t0: Table, t: Table) {
    forall id :: id in ids && id in c && c[id].pid in t0 ==> Gone(t0[c[id].pid].uid, t)
  }

  lemma AllGoneStays(c: Entries, ids: set<string>, u: World, v: World, w: World)
    requires AllGone(c, ids, u.table, v.table) && WorldOk(u) && u.nextUid <= v.nextUid && Evolved(v, w)
    ensures AllGone(c, ids, u.table, w.table)
  {
  }

  /** While List has still to visit `todo` of the entries `c`, having seen the rest but `alive` dead. */
  ghost predicate SweepOk(exact: bool, quiet: bool, c: Entries, todo: set<string>, alive: set<string>, u: World,
      w: World)
  {
    && WorldOk(w) && Evolved(u, w) && (quiet ==> w == u)
    && todo <= alive <= c.Keys
    && (exact ==> AllGone(c, c.Keys - alive, u.table, w.table))
    && (exact && quiet ==> forall id :: id in c && id !in todo ==> (id in alive <==> c[id].pid in u.table))
  }

  lemma SweepNext(exact: bool, quiet: bool, c: Entries, todo: set<string>, alive: set<string>, u: World, v: World,
      w: World, id: string, isAlive: bool)
    requires SweepOk(exact, quiet, c, todo, alive, u, v) && WorldOk(u) && WorldOk(w) && Evolved(v, w) &&
        (quiet ==> w == v)
    requires id in todo && (exact ==> (isAlive <==> c[id].pid in w.table))
    ensures SweepOk(exact, quiet, c, todo - {id}, if isAlive then alive else alive - {id}, u, w)
  {
    EvolvedTransitive(u, v, w);
    if exact {
      AllGoneStays(c, c.Keys - alive, u, v, w);
      if c[id].pid in u.table { VictimStays(u, w, c[id].pid); }
    }
  }

  lemma RestrictDrop(c: Entries, ids: set<string>, id: string)
    ensures Restrict(c, ids) - {id} == Restrict(c, ids - {id})
  {
  }

  lemma RestrictAll(c: Entries)
    ensures Restrict(c, c.Keys) == c
  {
  }

  lemma RestrictNone(c: Entries)
    ensures Restrict(c, {}) == map[]
  {
  }

  /** The loop of List, which visits the entries in any order. */
  method DropDead(os: Os, loaded: Entries)
    returns (entries: Entries, cleaned: bool, ghost alive: set<string>, ghost order: seq<string>)
    requires os.Valid()
    modifies os
    ensures os.Later() && os.log == old(os.log)
    ensures entries == Restrict(loaded, alive) && (cleaned <==> alive != loaded.Keys)
    ensures old(os.answers) <= os.answers
    ensures alive <= loaded.Keys && Heard(old(os.answers), os.answers, order, loaded, alive)
    ensures SweepOk(os.exact, os.quiet, loaded, {}, alive, old(os.world), os.world)
  {
    ghost var w0, said, asked: set<string> := os.world, os.answers, {};
    var todo := loaded.Keys;
    entries, cleaned, alive, order := loaded, false, loaded.Keys, [];
    RestrictAll(loaded);
    RestrictNone(loaded);
    while todo != {}
      invariant os.Valid() && os.now >= old(os.now) && os.log == old(os.log) && os.verdicts == old(os.verdicts)
      invariant SweepOk(os.exact, os.quiet, loaded, todo, alive, w0, os.world)
      invariant entries == Restrict(loaded, alive) && todo <= alive <= loaded.Keys
      invariant cleaned <==> alive != loaded.Keys
      invariant asked == loaded.Keys - todo
      invariant Heard(said, os.answers, order, Restrict(loaded, asked), alive)
    {
      var id :| id in todo;
      ghost var w1, now := os.world, os.answers;
      var isAlive := os.IsProcessAlive(entries[id].pid);
      SweepNext(os.exact, os.quiet, loaded, todo, alive, w0, w1, os.world, id, isAlive);
      HeardNext(said, now, order, loaded, asked, alive, id, isAlive);
      todo, asked, order := todo - {id}, asked + {id}, order + [id];
      if !isAlive {
        RestrictDrop(loaded, alive, id);
        entries := entries - {id};
        alive := alive - {id};
        cleaned := true;
      }
    }
    assert asked == loaded.Keys;
  }

  lemma HeardNext(before: seq<Answer>, now: seq<Answer>, order: seq<string>, c: Entries, asked: set<string>,
      alive: set<string>, id: string, isAlive: bool)
    requires Heard(before, now, order, Restrict(c, asked), alive) && id in c && id !in asked && id in alive
    ensures Heard(before, now + [Answer(c[id].pid, isAlive)], order + [id], Restrict(c, asked + {id}),
                  if isAlive then alive else alive - {id})
  {
    OrdersNext(order, Restrict(c, asked).Keys, id);
    assert Restrict(c, asked + {id}).Keys == Restrict(c, asked).Keys + {id};
  }

  lemma JudgedNext(before: seq<Verdict>, now: seq<Verdict>, order: seq<string>, c: Entries, handled: set<string>,
      failed: set<string>, id: string, dead: bool)
    requires Judged(before, now, order, Restrict(c, handled), failed) && id in c && id !in handled && id !in failed
    ensures Judged(before, now + [Verdict(c[id].pid, c[id].exePath, dead)], order + [id], Restrict(c, handled + {id}),
                   if dead then failed else failed + {id})
  {
    OrdersNext(order, Restrict(c, handled).Keys, id);
    assert Restrict(c, handled + {id}).Keys == Restrict(c, handled).Keys + {id};
  }

  lemma AllGoneAdd(c: Entries, ids: set<string>, id: string, u: World, v: World, w: World)
    requires AllGone(c, ids, u.table, v.table) && WorldOk(u) && WorldOk(v)
    requires Evolved(u, v) && Evolved(v, w)
    requires id in c && (c[id].pid in v.table ==> Gone(v.table[c[id].pid].uid, w.table))
    ensures AllGone(c, ids + {id}, u.table, w.table)
  {
    if c[id].pid in u.table { VictimStays(u, v, c[id].pid); }
  }

  /** After the entries `handled` have been visited in `order`, from world `u` to world `w`. */
  ghost predicate PassOk(exact: bool, quiet: bool, c: Entries, handled: set<string>, failed: set<string>,
                         order: seq<string>, u: World, w: World, said: seq<Verdict>, now: seq<Verdict>)
  {
    && Judged(said, now, order, Restrict(c, handled), failed)
    && WorldOk(w) && Evolved(u, w)
    && failed <= handled <= c.Keys && Orders(order, handled)
    && (exact ==> AllGone(c, handled - failed, u.table, w.table))
    && (exact && quiet ==> KillPass(order, u.table, c) == (failed, w.table))
  }

  lemma PassNext(exact: bool, quiet: bool, c: Entries, handled: set<string>, failed: set<string>, order: seq<string>,
                 u: World, v: World, w: World, id: string, dead: bool, said: seq<Verdict>, now: seq<Verdict>)
    requires PassOk(exact, quiet, c, handled, failed, order, u, v, said, now)
    requires WorldOk(u) && WorldOk(w) && Evolved(v, w) && id in c && id !in handled
    requires exact && dead && c[id].pid in v.table ==> Gone(v.table[c[id].pid].uid, w.table)
    requires exact && quiet ==> QuietKill(v.table, c[id].pid, c[id].exePath) == (dead, w.table)
    ensures PassOk(exact, quiet, c, handled + {id}, if dead then failed else failed + {id}, order + [id], u, w,
                   said, now + [Verdict(c[id].pid, c[id].exePath, dead)])
  {
    EvolvedTransitive(u, v, w);
    OrdersNext(order, handled, id);
    JudgedNext(said, now, order, c, handled, failed, id, dead);
    KillPassNext(order, u.table, c, id);
    if exact {
      if dead {
        AllGoneAdd(c, handled - failed, id, u, v, w);
        assert handled + {id} - failed == handled - failed + {id};
      } else {
        AllGoneStays(c, handled - failed, u, v, w);
        assert handled + {id} - (failed + {id}) == handled - failed;
      }
    }
  }

  /** KillProcess for one more entry, which continues the pass. */
  method KillEntry(os: Os, c: Entries, id: string, ghost handled: set<string>, ghost failed: set<string>,
                   ghost order: seq<string>, ghost w0: World, ghost said: seq<Verdict>)
    returns (dead: bool)
    requires os.Valid() && id in c && id !in handled && WorldOk(w0)
    requires PassOk(os.exact, os.quiet, c, handled, failed, order, w0, os.world, said, os.verdicts)
    modifies os
    ensures os.Valid() && old(os.answers) <= os.answers
    ensures PassOk(os.exact, os.quiet, c, handled + {id}, if dead then failed else failed + {id}, order + [id],
                   w0, os.world, said, os.verdicts)
  {
    ghost var w1, now := os.world, os.verdicts;
    dead := os.KillProcess(c[id].pid, c[id].exePath);
    PassNext(os.exact, os.quiet, c, handled, failed, order, w0, w1, os.world, id, dead, said, now);
  }

  /** The loop of CleanupAll: what is left of `loaded`, and whether some kill failed. */
  method KillEach(os: Os, loaded: Entries)
    returns (entries: Entries, warned: bool, ghost failed: set<string>, ghost order: seq<string>)
    requires os.Valid()
    modifies os
    ensures os.Valid() && entries == Restrict(loaded, failed) && (warned <==> failed != {})
    ensures old(os.answers) <= os.answers
    ensures PassOk(os.exact, os.quiet, loaded, loaded.Keys, failed, order, old(os.world), os.world,
                   old(os.verdicts), os.verdicts)
  {
    ghost var w0, said, handled: set<string>, kept := os.world, os.verdicts, {}, loaded.Keys;
    failed, order := {}, [];
    entries, warned := loaded, false;
    RestrictAll(loaded);
    RestrictNone(loaded);
    var todo := loaded.Keys;
    while todo != {}
      invariant os.Valid() && todo == loaded.Keys - handled && old(os.answers) <= os.answers
      invariant PassOk(os.exact, os.quiet, loaded, handled, failed, order, w0, os.world, said, os.verdicts)
      invariant entries == Restrict(loaded, kept) && kept == todo + failed
      invariant warned <==> failed != {}
    {
      var id :| id in todo;
      todo := todo - {id};
      var dead := KillEntry(os, loaded, id, handled, failed, order, w0, said);
      handled, order := handled + {id}, order + [id];
      if dead {
        RestrictDrop(loaded, kept, id);
        entries, kept := entries - {id}, kept - {id};
      } else {
        failed, warned := failed + {id}, true;
      }
    }
    assert handled == loaded.Keys;
  }

  // ---------------------------------------------------------------------------------------------
  // The order in which CleanupAll visits the entries.

  /** `order` lists every one of `ids` once. */
  ghost predicate Orders(order: seq<string>, ids: set<string>) {
    if order == [] then ids == {}
    else
      var id := order[|order| - 1];
      id in ids && Orders(order[..|order| - 1], ids - {id})
  }

  lemma OrdersNext(order: seq<string>, ids: set<string>, id: string)
    requires Orders(order, ids) && id !in ids
    ensures Orders(order + [id], ids + {id})
  {
    assert (order + [id])[..|order|] == order;
    assert ids + {id} - {id} == ids;
  }

  /** One pass over the ids of `order` when only the signals themselves change the process table: the ids
      whose kill failed, and the table left. */
  ghost function KillPass(order: seq<string>, t: Table, c: Entries): (set<string>, Table) {
    if order == [] then ({}, t)
    else
      var id := order[|order| - 1];
      var (failed, t1) := KillPass(order[..|order| - 1], t, c);
      if id !in c then (failed, t1)
      else
        var (dead, t2) := QuietKill(t1, c[id].pid, c[id].exePath);
        (if dead then failed else failed + {id}, t2)
  }

  lemma KillPassNext(order: seq<string>, t: Table, c: Entries, id: string)
    requires id in c
    ensures var (failed, t1) := KillPass(order, t, c);
            var (dead, t2) := QuietKill(t1, c[id].pid, c[id].exePath);
            KillPass(order + [id], t, c) == (if dead then failed else failed + {id}, t2)
  {
    assert (order + [id])[..|order|] == order;
  }

  /** The kill of the entry on its own removes a process. */
  predicate Kills(t: Table, e: Entry) { QuietKill(t, e.pid, e.exePath).1 != t }

  /** The kill of the entry on its own fails. */
  predicate Survives(t: Table, e: Entry) { !QuietKill(t, e.pid, e.exePath).0 }

  /** No entry fails to kill a process that another entry with the same PID would kill. */
  ghost predicate NoConflict(t: Table, c: Entries) {
    forall a, b :: a in c && b in c && c[a].pid == c[b].pid && Kills(t, c[a]) ==> !Survives(t, c[b])
  }

  lemma DistinctPidsDoNotConflict(t: Table, c: Entries)
    requires forall a, b :: a in c && b in c && a != b ==> c[a].pid != c[b].pid
    ensures NoConflict(t, c)
  {
    forall a | a in c && Kills(t, c[a]) ensures !Survives(t, c[a]) {}
  }

  /** A kill does not depend on the processes at other PIDs. */
  lemma KillIsLocal(t: Table, pids: set<int>, e: Entry)
    requires e.pid !in pids
    ensures QuietKill(t - pids, e.pid, e.exePath)
         == (!Survives(t, e), t - (pids + if Kills(t, e) then {e.pid} else {}))
  {
    if Kills(t, e) {
      assert t - pids - {e.pid} == t - (pids + {e.pid});
    } else {
      assert pids + {} == pids;
    }
  }

  ghost function FailedOf(t: Table, c: Entries, ids: set<string>): set<string> {
    set id | id in ids && id in c && Survives(t, c[id])
  }

  ghost function PidsKilledBy(t: Table, c: Entries, ids: set<string>): set<int> {
    set id | id in ids && id in c && Kills(t, c[id]) :: c[id].pid
  }

  /** Without conflicts a pass has one outcome: the entries whose kill fails on its own are the failed ones. */
  lemma {:induction false} PassWithoutConflict(order: seq<string>, ids: set<string>, t: Table, c: Entries)
    requires NoConflict(t, c) && ids <= c.Keys && Orders(order, ids)
    ensures KillPass(order, t, c) == (FailedOf(t, c, ids), t - PidsKilledBy(t, c, ids))
  {
    if order == [] {
      assert PidsKilledBy(t, c, ids) == {} && FailedOf(t, c, ids) == {};
      assert t - {} == t;
    } else {
      var id := order[|order| - 1];
      var before := ids - {id};
      PassWithoutConflict(order[..|order| - 1], before, t, c);
      var pids := PidsKilledBy(t, c, before);
      assert ids == before + {id};
      assert PidsKilledBy(t, c, ids) == pids + (if Kills(t, c[id]) then {c[id].pid} else {});
      assert FailedOf(t, c, ids)
          == if Survives(t, c[id]) then FailedOf(t, c, before) + {id} else FailedOf(t, c, before);
      if c[id].pid in pids {
        var a :| a in before && Kills(t, c[a]) && c[a].pid == c[id].pid;
        assert !Survives(t, c[id]);
        assert PidsKilledBy(t, c, ids) == pids;
        assert QuietKill(t - pids, c[id].pid, c[id].exePath) == (true, t - pids);
      } else {
        KillIsLocal(t, pids, c[id]);
      }
    }
  }

  lemma {:induction false} CompleteOrder(order: seq<string>, have: set<string>, ids: set<string>)
    returns (rest: seq<string>)
    requires Orders(order, have) && have <= ids
    ensures Orders(order + rest, ids) && forall x :: x in rest ==> x !in have
    decreases ids - have
  {
    if have == ids {
      rest := [];
      assert order + [] == order;
    } else {
      assert !(ids <= have);
      var x :| x in ids && x !in have;
      OrdersNext(order, have, x);
      var more := CompleteOrder(order + [x], have + {x}, ids);
      rest := [x] + more;
      assert order + rest == order + [x] + more;
    }
  }

  lemma {:induction false} VerdictStands(order: seq<string>, rest: seq<string>, t: Table, c: Entries, id: string)
    requires id !in rest
    ensures id in KillPass(order + rest, t, c).0 <==> id in KillPass(order, t, c).0
  {
    if rest == [] {
      assert order + rest == order;
    } else {
      assert (order + rest)[..|order + rest| - 1] == order + rest[..|rest| - 1];
      VerdictStands(order, rest[..|rest| - 1], t, c, id);
    }
  }

  lemma ConflictMakesOrderMatter(t: Table, c: Entries, a: string, b: string)
    returns (first: seq<string>, second: seq<string>)
    requires a in c && b in c && c[a].pid == c[b].pid && Kills(t, c[a]) && Survives(t, c[b])
    ensures Orders(first, c.Keys) && Orders(second, c.Keys) && KillPass(first, t, c) != KillPass(second, t, c)
  {
    OrdersNext([], {}, a);
    OrdersNext([a], {a}, b);
    OrdersNext([], {}, b);
    OrdersNext([b], {b}, a);
    assert {} + {a} == {a} && {} + {b} == {b} && {b} + {a} == {a} + {b};
    assert [] + [a] == [a] && [] + [b] == [b] && [a] + [b] == [a, b] && [b] + [a] == [b, a];
    KillPassNext([], t, c, a);
    KillPassNext([a], t, c, b);
    KillPassNext([], t, c, b);
    KillPassNext([b], t, c, a);
    var rest := CompleteOrder([a, b], {a} + {b}, c.Keys);
    var other := CompleteOrder([b, a], {a} + {b}, c.Keys);
    first, second := [a, b] + rest, [b, a] + other;
    VerdictStands([a, b], rest, t, c, b);
    VerdictStands([b, a], other, t, c, b);
  }

  /** The outcome of CleanupAll is independent of the iteration order exactly when no two entries conflict. */
  lemma OrderIsIrrelevantIffNoConflict(t: Table, c: Entries)
    ensures (forall o1, o2 :: Orders(o1, c.Keys) && Orders(o2, c.Keys) ==> KillPass(o1, t, c) == KillPass(o2, t, c))
       <==> NoConflict(t, c)
  {
    if NoConflict(t, c) {
      forall o1, o2 | Orders(o1, c.Keys) && Orders(o2, c.Keys) ensures KillPass(o1, t, c) == KillPass(o2, t, c) {
        PassWithoutConflict(o1, c.Keys, t, c);
        PassWithoutConflict(o2, c.Keys, t, c);
      }
    } else {
      var a, b :| a in c && b in c && c[a].pid == c[b].pid && Kills(t, c[a]) && Survives(t, c[b]);
      var first, second := ConflictMakesOrderMatter(t, c, a, b);
    }
  }

  /** Such a conflict: two entries with one PID, whose process runs the program of the first. */
  lemma ConflictIsPossible(pid: int, p: Process, x: string, a: Entry, y: string, b: Entry)
    requires pid > 0 && a.pid == pid && b.pid == pid && x != y && p.exe != "" && p.diesOnTerm
    requires a.exePath == p.exe && b.exePath != p.exe
    ensures !NoConflict(map[pid := p], map[x := a, y := b])
  {
    var t: Table, c: Entries := map[pid := p], map[x := a, y := b];
    assert c[x] == a && c[y] == b;
    assert pid in t && pid !in t - {pid};
    assert Kills(t, c[x]) && Survives(t, c[y]);
  }

  // ---------------------------------------------------------------------------------------------
  // List twice, and what the protocol means for this store.

  function AliveIn(t: Table, c: Entries): set<string> { set id | id in c && c[id].pid in t }

  /** A second List under the same process table returns the same map, and writes nothing if the first save worked. */
  lemma ListTwice(t: Table, io1: Io, io2: Io, f0: Option<Image>, f1: Option<Image>, f2: Option<Image>, r1: Reply,
      r2: Reply)
    requires io1.lock && io1.load && io2.lock && io2.load
    requires Performs(StoreCodec, ListOp(AliveIn(t, Content(StoreCodec, f0))), io1, f0, f1, r1)
    requires Performs(StoreCodec, ListOp(AliveIn(t, Content(StoreCodec, f1))), io2, f1, f2, r2)
    ensures r1 == r2 == Listed(Restrict(Content(StoreCodec, f0), AliveIn(t, Content(StoreCodec, f0))))
    ensures io1.save ==> f2 == f1
  {
    var c := Content(StoreCodec, f0);
    var live := Restrict(c, AliveIn(t, c));
    assert Restrict(live, AliveIn(t, live)) == live;
  }

  /** Whatever `op` saves, it leaves the entry of `id` as it is. */
  ghost predicate Spares(op: StoreOp, id: string) {
    forall c: Entries :: id in c && op.run(c).Write? ==> id in op.run(c).next && op.run(c).next[id] == c[id]
  }

  lemma WhoSpares(id: string, other: string, e: Entry, killed: bool, ids: set<string>)
    requires id != other && id in ids
    ensures Spares(SaveOp(other, e), id) && Spares(RemoveOp(other), id) && Spares(CleanupOp(other, killed), id)
    ensures Spares(ListOp(ids), id) && Spares(CleanupAllOp(ids), id)
  {
  }

  lemma {:induction false} EntryStays(first: Entries, log: seq<Commit<Entries, Reply>>, j: nat, m: nat, id: string,
      e: Entry)
    requires Chained(first, log) && j < m <= |log| && log[j].call.op == SaveOp(id, e)
    requires forall i :: j < i < m ==> Spares(log[i].call.op, id)
    ensures id in After(first, log, m) && After(first, log, m)[id] == e
  {
    assert Applies(first, log, m - 1);
    if m > j + 1 { EntryStays(first, log, j, m - 1, id, e); }
  }

  /** No lost update: in any run of any number of processes, an entry whose Save was commit number `j` is in the
      file as long as the later commits spare it. */
  lemma SavedEntryStays(file: Option<Image>, n: nat, events: seq<LockedFile.Event<Entries, Image, Reply>>, j: nat,
      id: string, e: Entry)
    requires var s := Exec(StoreCodec, Start(file, n), events);
      && j < |s.log| && s.log[j].call.op == SaveOp(id, e)
      && forall i :: j < i < |s.log| ==> Spares(s.log[i].call.op, id)
    ensures var c := Content(StoreCodec, Exec(StoreCodec, Start(file, n), events).file);
      id in c && c[id] == e
  {
    CodecInverts();
    ExecInv(StoreCodec, file, n, events);
    var s := Exec(StoreCodec, Start(file, n), events);
    ContentIsLast(StoreCodec, file, s);
    EntryStays(Content(StoreCodec, file), s.log, j, |s.log|, id, e);
  }

  /** Whatever `op` saves, it brings in no entry for `id`. */
  ghost predicate KeepsOut(op: StoreOp, id: string) {
    forall c: Entries :: id !in c && op.run(c).Write? ==> id !in op.run(c).next
  }

  lemma WhoKeepsOut(id: string, other: string, e: Entry, killed: bool, ids: set<string>)
    ensures KeepsOut(SaveOp(other, e), id) <==> id != other
    ensures KeepsOut(RemoveOp(other), id) && KeepsOut(CleanupOp(other, killed), id)
    ensures KeepsOut(ListOp(ids), id) && KeepsOut(CleanupAllOp(ids), id)
  {
    assert id == other ==> SaveOp(other, e).run(map[]).Write? && id in SaveOp(other, e).run(map[]).next;
  }

  lemma {:induction false} EntryStaysOut(first: Entries, log: seq<Commit<Entries, Reply>>, j: nat, m: nat, id: string)
    requires Chained(first, log) && j < m <= |log| && id !in log[j].after
    requires forall i :: j < i < m ==> KeepsOut(log[i].call.op, id)
    ensures id !in After(first, log, m)
  {
    assert Applies(first, log, m - 1);
    if m > j + 1 { EntryStaysOut(first, log, j, m - 1, id); }
  }

  /** The operations that take the entry of `id` out when they save. */
  ghost predicate TakesOut(op: StoreOp, id: string) {
    || op == RemoveOp(id) || op == CleanupOp(id, true)
    || exists ids :: id !in ids && (op == ListOp(ids) || op == CleanupAllOp(ids))
  }

  /** In any run of any number of processes, an entry that a commit has taken out is not in the file as long as no
      later commit saves one for its id. */
  lemma RemovedEntryStaysOut(file: Option<Image>, n: nat, events: seq<LockedFile.Event<Entries, Image, Reply>>,
      j: nat, id: string)
    requires var s := Exec(StoreCodec, Start(file, n), events);
      && j < |s.log| && TakesOut(s.log[j].call.op, id)
      && forall i :: j < i < |s.log| ==> KeepsOut(s.log[i].call.op, id)
    ensures id !in Content(StoreCodec, Exec(StoreCodec, Start(file, n), events).file)
  {
    CodecInverts();
    ExecInv(StoreCodec, file, n, events);
    var s := Exec(StoreCodec, Start(file, n), events);
    var first := Content(StoreCodec, file);
    ContentIsLast(StoreCodec, file, s);
    TakenOut(first, s.log, j, id);
    EntryStaysOut(first, s.log, j, |s.log|, id);
  }

  lemma TakenOut(first: Entries, log: seq<Commit<Entries, Reply>>, j: nat, id: string)
    requires j < |log| && Applies(first, log, j) && TakesOut(log[j].call.op, id)
    ensures id !in log[j].after
  {
  }
}
