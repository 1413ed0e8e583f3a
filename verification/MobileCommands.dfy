/**
  The commands `mobile connect`, `disconnect`, `disconnect --all` and `list`, run one at a time over the
  tunnel store and the process table.  Between any two of their steps daemons may die and other
  processes may come and go; PIDs are not reused, and identity lookups and signals are exact.
*/
module MobileCommands {
  import opened Prelude
  import opened LockedFile
  import opened ProcessKiller
  import opened TunnelStore

  /** A background tunnel process. */
  datatype Daemon = Daemon(sandbox: string, pid: int)

  /** Every tunnel process ever spawned, by its uid. */
  type Daemons = map<nat, Daemon>

  ghost predicate Live(w: World, d: Daemons, uid: nat) {
    uid in d && d[uid].pid in w.table && w.table[d[uid].pid].uid == uid
  }

  /** PIDs are not reused, so they tell the daemons apart and from everything else. */
  ghost predicate Known(w: World, d: Daemons) {
    && WorldOk(w) && !w.reuse
    && (forall uid :: uid in d ==> uid < w.nextUid && d[uid].pid in w.used)
    && (forall u, v :: u in d && v in d && u != v ==> d[u].pid != d[v].pid)
    && (forall uid :: uid in d && d[uid].pid in w.table ==> w.table[d[uid].pid].uid == uid)
  }

  /** Every entry names a daemon that was spawned for its sandbox. */
  ghost predicate Owned(c: Entries, d: Daemons) {
    forall s :: s in c ==> exists uid :: uid in d && d[uid] == Daemon(s, c[s].pid)
  }

  /** Every live daemon is named by the entry of its sandbox. */
  ghost predicate Named(w: World, c: Entries, d: Daemons) {
    forall uid :: Live(w, d, uid) ==> d[uid].sandbox in c && c[d[uid].sandbox].pid == d[uid].pid
  }

  ghost predicate Tracked(w: World, c: Entries, d: Daemons) {
    Known(w, d) && Owned(c, d) && Named(w, c, d)
  }

  /** No live daemon of the sandbox but perhaps `child`. */
  ghost predicate Alone(w: World, d: Daemons, child: nat, sandbox: string) {
    forall uid :: Live(w, d, uid) && d[uid].sandbox == sandbox ==> uid == child
  }

  /** What Tracked is for: a sandbox has at most one live daemon, and a live daemon exactly one entry. */
  lemma TrackedMeansOneToOne(w: World, c: Entries, d: Daemons)
    requires Tracked(w, c, d)
    ensures forall u, v :: Live(w, d, u) && Live(w, d, v) && d[u].sandbox == d[v].sandbox ==> u == v
    ensures forall u, s :: Live(w, d, u) && s in c ==> (c[s].pid == d[u].pid <==> s == d[u].sandbox)
  {
    forall u, s | Live(w, d, u) && s in c && c[s].pid == d[u].pid ensures s == d[u].sandbox {
      var v :| v in d && d[v] == Daemon(s, c[s].pid);
      assert u == v;
    }
  }

  /** The passage of time kills daemons but brings none back. */
  lemma TimeKeepsTracked(v: World, w: World, c: Entries, d: Daemons)
    requires Tracked(v, c, d) && WorldOk(w) && Evolved(v, w)
    ensures Tracked(w, c, d)
    ensures forall uid :: Live(w, d, uid) ==> Live(v, d, uid)
  {
  }

  /** Dropping entries whose process is gone loses nothing. */
  lemma DropKeepsTracked(v: World, w: World, c: Entries, ids: set<string>, d: Daemons)
    requires Tracked(v, c, d) && WorldOk(w) && Evolved(v, w)
    requires AllGone(c, c.Keys - ids, v.table, w.table)
    ensures Tracked(w, Restrict(c, ids), d)
  {
    TimeKeepsTracked(v, w, c, d);
    forall uid | Live(w, d, uid) ensures d[uid].sandbox in ids {
      assert Live(v, d, uid);
    }
  }

  /** The sandbox has a live daemon. */
  ghost predicate Served(w: World, d: Daemons, sandbox: string) {
    exists uid :: Live(w, d, uid) && d[uid].sandbox == sandbox
  }

  /** A sandbox has a live daemon exactly when the process of its entry is alive. */
  lemma EntryOfLiveDaemon(w: World, c: Entries, d: Daemons, sandbox: string)
    requires Tracked(w, c, d)
    ensures Served(w, d, sandbox) <==> sandbox in c && c[sandbox].pid in w.table
  {
    if sandbox in c && c[sandbox].pid in w.table {
      var uid :| uid in d && d[uid] == Daemon(sandbox, c[sandbox].pid);
      assert Live(w, d, uid);
    }
  }

  // ---------------------------------------------------------------------------------------------
  // What the commands do, without saying how.

  /** What `connect` hears from the process it spawned, within 30 seconds. */
  datatype Handshake = Message(status: string, port: int) | ReadError | Timeout

  datatype Connected = StartFailed | NotReady | Ready(saved: bool)

  datatype Command =
    | Connect(sandbox: string, getIo: Io, cleanupIo: Io, saveIo: Io, handshake: Handshake)
    | Disconnect(sandbox: string, getIo: Io, cleanupIo: Io)
    | DisconnectAll(listIo: Io, cleanupIo: Io)
    | List(io: Io)

  /** The state between two commands: the registry file, the process table, the daemons, and what the operating system
      was asked: the verdicts on killed processes, the answers to signal 0 and the number of calls. */
  datatype Snap = Snap(file: Option<Image>, world: World, daemons: Daemons, verdicts: seq<Verdict>,
                       answers: seq<Answer>, ticks: nat)

  ghost predicate InStep(a: Snap) { Tracked(a.world, Content(StoreCodec, a.file), a.daemons) }

  /** A lookup or listing: the order in which the processes are asked, those that answer, the answers recorded when it
      is over, and the file it leaves. */
  datatype Listing = Listing(order: seq<string>, alive: set<string>, heard: seq<Answer>, file: Option<Image>)

  /** How one command went: its replies, and the registry file between its calls of the store. */
  datatype Did =
    | DidConnect(listing: Listing, killed: bool, cleaned: Reply, cleanFile: Option<Image>,
                 r: Connected, child: nat, entry: Entry)
    | DidDisconnect(listing: Listing, found: bool, killed: bool, cleaned: Reply)
    | DidDisconnectAll(listing: Listing, reply: Reply, failed: set<string>, order: seq<string>, cleaned: Reply)
    | DidList(listing: Listing, reply: Reply)

  /** The effect of a command on the registry, the daemons and the process table. */
  ghost predicate Happened(adversary: nat -> Offer, c: Command, self: string, a: Snap, b: Snap, did: Did) {
    && Evolved(a.world, b.world) && (!c.Connect? ==> b.daemons == a.daemons) && did.listing.heard <= b.answers
    && match c
       case Connect(sandbox, getIo, cleanupIo, saveIo, handshake) =>
         && did.DidConnect? && Looked(getIo, sandbox, a, did.listing, None)
         && Performs(StoreCodec, CleanupOp(sandbox, did.killed), cleanupIo, did.listing.file, did.cleanFile,
                     did.cleaned)
         && Launched(adversary, sandbox, self, saveIo, handshake, did, a.daemons, b)
         && b.verdicts == a.verdicts + CleanupVerdict(cleanupIo, ListedEntries(did), sandbox, did.killed)
       case Disconnect(sandbox, getIo, cleanupIo) =>
         && did.DidDisconnect? && Looked(getIo, sandbox, a, did.listing, Some(did.found))
         && (if did.found
             then
               && Performs(StoreCodec, CleanupOp(sandbox, did.killed), cleanupIo, did.listing.file, b.file, did.cleaned)
               && b.verdicts == a.verdicts + CleanupVerdict(cleanupIo, ListedEntries(did), sandbox, did.killed)
             else b.file == did.listing.file && b.verdicts == a.verdicts)
       case DisconnectAll(listIo, cleanupIo) =>
         && did.DidDisconnectAll? && ListedBy(listIo, a, did.listing, did.reply)
         && (if did.reply.Listed? && did.reply.entries != map[]
             then
               && Performs(StoreCodec, CleanupAllOp(did.failed), cleanupIo, did.listing.file, b.file, did.cleaned)
               && (if cleanupIo.lock && cleanupIo.load
                   then Judged(a.verdicts, b.verdicts, did.order, ListedEntries(did), did.failed)
                   else b.verdicts == a.verdicts)
             else b.file == did.listing.file && b.verdicts == a.verdicts)
       case List(io) =>
         && did.DidList? && ListedBy(io, a, did.listing, did.reply)
         && b.file == did.listing.file && b.answers == did.listing.heard && b.verdicts == a.verdicts
  }

  /** The entries that the lookup or listing of a command leaves. */
  function ListedEntries(did: Did): Entries { Content(StoreCodec, did.listing.file) }

  /** Every entry is asked for once; those whose process answered are returned, and saved if that works. */
  ghost predicate ListedBy(io: Io, a: Snap, l: Listing, r: Reply) {
    && Performs(StoreCodec, ListOp(l.alive), io, a.file, l.file, r)
    && if io.lock && io.load then Heard(a.answers, l.heard, l.order, Content(StoreCodec, a.file), l.alive)
       else l.heard == a.answers
  }

  /** The lookup of an entry; `found` says, where it matters, whether there is one. */
  ghost predicate Looked(io: Io, sandbox: string, a: Snap, l: Listing, found: Option<bool>) {
    exists r: Reply :: ListedBy(io, a, l, r)
      && (found.Some? ==> (found.value <==> r.Listed? && sandbox in r.entries))
  }

  /** The part of `connect` that follows the cleanup: `b` is the state it leaves. */
  ghost predicate Launched(adversary: nat -> Offer, sandbox: string, self: string, saveIo: Io, handshake: Handshake,
                           did: Did, d: Daemons, b: Snap)
    requires did.DidConnect?
  {
    match did.r
    case StartFailed => b.daemons == d && b.file == did.cleanFile && Unstartable(adversary, b.world, b.ticks)
    case NotReady =>
      && (handshake.Message? ==> handshake.status != "ready" || handshake.port == 0)
      && did.child !in d && b.daemons == d[did.child := Daemon(sandbox, did.entry.pid)]
      && b.file == did.cleanFile && !Live(b.world, b.daemons, did.child)
    case Ready(saved) =>
      && handshake.Message? && handshake.status == "ready" && handshake.port != 0
      && did.child !in d && b.daemons == d[did.child := Daemon(sandbox, did.entry.pid)]
      && did.entry.port == handshake.port && did.entry.exePath == self
      && Performs(StoreCodec, SaveOp(sandbox, did.entry), saveIo, did.cleanFile, b.file, SaveReply(saveIo))
      && saved == Works(saveIo)
  }

  /** The PID offered at the last call of the system is not free. */
  ghost predicate Unstartable(adversary: nat -> Offer, w: World, ticks: nat) {
    ticks > 0 && !Free(w, adversary(ticks - 1).newPid)
  }

  predicate Works(io: Io) { io.lock && io.load && io.save }

  function SaveReply(io: Io): Reply {
    if !io.lock then LockFailed else if !io.load then LoadFailed else if !io.save then SaveFailed else Done
  }

  /** A connect that got its tunnel ready although its cleanup or its save failed. */
  predicate Risky(did: Did) { did.DidConnect? && did.r.Ready? && !(did.r.saved && did.cleaned.Done?) }

  predicate CleanupAndSaveWork(c: Command) { c.Connect? ==> Works(c.cleanupIo) && Works(c.saveIo) }

  predicate AllWork(commands: seq<Command>) {
    forall k :: 0 <= k < |commands| ==> CleanupAndSaveWork(commands[k])
  }

  ghost predicate AllDead(before: seq<Verdict>, now: seq<Verdict>) {
    before <= now && forall j :: |before| <= j < |now| ==> now[j].dead
  }

  /** With nothing interfering: the older tunnel of the sandbox, if it is alive, can be terminated. */
  predicate Replaceable(a: Snap, sandbox: string, io: Io) {
    var c := Content(StoreCodec, a.file);
    sandbox in c && c[sandbox].pid in a.world.table ==>
      io.lock && io.load && QuietKill(a.world.table, c[sandbox].pid, c[sandbox].exePath).0
  }

  /** A PID that no new process can have. */
  predicate NoPid(w: World, pid: int) { pid <= 0 || pid in w.used }

  /** A connect when nothing interferes: why a start fails, and when a ready tunnel leaves everything in step. */
  ghost predicate Undisturbed(adversary: nat -> Offer, c: Command, a: Snap, b: Snap, did: Did) {
    c.Connect? && did.DidConnect? ==>
      && (did.r.StartFailed? ==> exists t: nat :: NoPid(a.world, adversary(t).newPid))
      && (did.r.Ready? ==> (InStep(b) <==> Works(c.saveIo) && Replaceable(a, c.sandbox, c.cleanupIo)))
  }

  /** One command after the other: `snaps` are the states before, between and after those that `did` reports.  Each
      command starts in step, and only the last can be risky. */
  ghost predicate Session(adversary: nat -> Offer, quiet: bool, commands: seq<Command>, self: string, did: seq<Did>,
                          snaps: seq<Snap>)
  {
    && |did| <= |commands| && |snaps| == |did| + 1
    && forall k :: 0 <= k < |did| ==>
         && Happened(adversary, commands[k], self, snaps[k], snaps[k + 1], did[k]) && InStep(snaps[k])
         && (quiet ==> Undisturbed(adversary, commands[k], snaps[k], snaps[k + 1], did[k]))
         && (Risky(did[k]) ==> k == |did| - 1)
  }

  /** After lookup and cleanup an older tunnel is still alive exactly when it was not replaceable. */
  lemma CleanupReplaces(a: Snap, sandbox: string, getIo: Io, io: Io, l: Listing, killed: bool, cleaned: Reply,
      cleanFile: Option<Image>, t: Table)
    requires Looked(getIo, sandbox, a, l, None)
    requires getIo.lock && getIo.load ==>
               var c := Content(StoreCodec, a.file); l.alive == set id | id in c && c[id].pid in a.world.table
    requires Performs(StoreCodec, CleanupOp(sandbox, killed), io, l.file, cleanFile, cleaned)
    requires (killed, t) == CleanupKill(io, Content(StoreCodec, l.file), sandbox, a.world.table)
    requires WorldOk(a.world)
    ensures var c := Content(StoreCodec, cleanFile);
            !(sandbox in c && c[sandbox].pid in t) <==> Replaceable(a, sandbox, io)
  {
    var c0, c1 := Content(StoreCodec, a.file), Content(StoreCodec, l.file);
    assert sandbox in c1 ==> sandbox in c0 && c1[sandbox] == c0[sandbox];
    assert sandbox in c0 && c0[sandbox].pid in a.world.table ==> sandbox in c1;
  }

  // ---------------------------------------------------------------------------------------------
  // The commands.

  class Mobile {
    const store: Store
    const os: Os
    const self: string               // the path of this executable
    ghost var daemons: Daemons

    constructor (store: Store, self: string)
      requires store.os.Valid() && store.os.exact && !store.os.world.reuse && store.Entries() == map[]
      ensures this.store == store && os == store.os && this.self == self && daemons == map[]
      ensures Valid()
    {
      this.store, this.os, this.self, this.daemons := store, store.os, self, map[];
    }

    ghost predicate Valid()
      reads this, store, os
    {
      os == store.os && os.exact && InStep(Snapshot())
    }

    ghost function Snapshot(): Snap
      reads this, store, os
    {
      Snap(store.file, os.world, daemons, os.verdicts, os.answers, os.ticks)
    }

    /** The registry after a Get, List or Cleanup that saw or made some processes dead. */
    lemma Dropped(v: World, c: Entries, ids: set<string>, file: Option<Image>, r: Reply, io: Io, op: StoreOp,
        before: Option<Image>)
      requires Tracked(v, c, daemons) && WorldOk(os.world) && Evolved(v, os.world)
      requires c == Content(StoreCodec, before) && Performs(StoreCodec, op, io, before, file, r)
      requires op.run(c).Reply? || op.run(c).next == Restrict(c, ids)
      requires op.loads
      requires io.lock && io.load && op.run(c).Write? ==> AllGone(c, c.Keys - ids, v.table, os.world.table)
      ensures Tracked(os.world, Content(StoreCodec, file), daemons)
    {
      TimeKeepsTracked(v, os.world, c, daemons);
      if io.lock && io.load && op.run(c).Write? { DropKeepsTracked(v, os.world, c, ids, daemons); }
    }

    method List(io: Io) returns (r: Reply, ghost did: Did)
      requires Valid()
      modifies store, os
      ensures Valid()
      ensures Happened(os.adversary, Command.List(io), self, old(Snapshot()), Snapshot(), did) && did.reply == r
      ensures r.Listed? ==> Named(os.world, r.entries, daemons)
    {
      ghost var v, c, before := os.world, store.Entries(), store.file;
      ghost var alive, order;
      r, alive, order := store.List(io);
      DropKeepsTracked(v, os.world, c, alive, daemons);
      Dropped(v, c, alive, store.file, r, io, ListOp(alive), before);
      did := DidList(Listing(order, alive, os.answers, store.file), r);
    }

    method Get(id: string, io: Io) returns (entry: Option<Entry>, failed: bool, ghost listing: Listing)
      requires Valid()
      modifies store, os
      ensures Valid() && os.Later()
      ensures Looked(io, id, old(Snapshot()), listing, Some(entry.Some?))
      ensures listing.file == store.file && listing.heard == os.answers
      ensures failed ==> entry.None?
      ensures os.quiet && io.lock && io.load ==>
                listing.alive == set id | id in old(store.Entries()) && old(store.Entries())[id].pid in os.world.table
    {
      ghost var a, v, c, before := Snapshot(), os.world, store.Entries(), store.file;
      ghost var order, alive;
      entry, failed, alive, order := store.Get(id, io);
      ghost var r :| Performs(StoreCodec, ListOp(alive), io, before, store.file, r)
        && entry == if r.Listed? && id in r.entries then Some(r.entries[id]) else None;
      Dropped(v, c, alive, store.file, r, io, ListOp(alive), before);
      listing := Listing(order, alive, os.answers, store.file);
      assert ListedBy(io, a, listing, r);
    }

    method Cleanup(id: string, io: Io) returns (r: Reply, ghost killed: bool)
      requires Valid()
      modifies store, os
      ensures Valid() && Evolved(old(os.world), os.world) && old(os.answers) <= os.answers
      ensures Performs(StoreCodec, CleanupOp(id, killed), io, old(store.file), store.file, r)
      ensures os.verdicts == old(os.verdicts) + CleanupVerdict(io, old(store.Entries()), id, killed)
      ensures os.quiet ==> os.world == old(os.world).(table := os.world.table)
      ensures os.quiet ==>
                (killed, os.world.table) == CleanupKill(io, old(store.Entries()), id, old(os.world.table))
      ensures r.Done? ==> !Served(os.world, daemons, id)
    {
      ghost var v, c, before := os.world, store.Entries(), store.file;
      r, killed := store.Cleanup(id, io);
      assert c - {id} == Restrict(c, c.Keys - {id});
      assert c.Keys - (c.Keys - {id}) <= {id};
      Dropped(v, c, c.Keys - {id}, store.file, r, io, CleanupOp(id, killed), before);
      forall uid | r.Done? && Live(os.world, daemons, uid) ensures daemons[uid].sandbox != id {
        TimeKeepsTracked(v, os.world, c, daemons);
        assert Live(v, daemons, uid);
      }
    }

    /** The lookup and the cleanup of an older tunnel.  Their failures are only warnings. */
    method Prepare(sandbox: string, getIo: Io, cleanupIo: Io)
      returns (cleaned: Reply, ghost listing: Listing, ghost killed: bool)
      requires Valid()
      modifies store, os
      ensures Valid() && Evolved(old(os.world), os.world)
      ensures Looked(getIo, sandbox, old(Snapshot()), listing, None) && listing.heard <= os.answers
      ensures Performs(StoreCodec, CleanupOp(sandbox, killed), cleanupIo, listing.file, store.file, cleaned)
      ensures os.verdicts ==
                old(os.verdicts) + CleanupVerdict(cleanupIo, Content(StoreCodec, listing.file), sandbox, killed)
      ensures Works(cleanupIo) && AllDead(old(os.verdicts), os.verdicts) ==> cleaned.Done?
      ensures cleaned.Done? ==> !Served(os.world, daemons, sandbox)
      ensures os.quiet ==> os.world == old(os.world).(table := os.world.table)
      ensures os.quiet ==>
                (!Served(os.world, daemons, sandbox) <==> Replaceable(old(Snapshot()), sandbox, cleanupIo))
    {
      ghost var a, said := Snapshot(), os.verdicts;
      var entry, failed, seen := Get(sandbox, getIo);
      listing := seen;
      cleaned, killed := Cleanup(sandbox, cleanupIo);
      if os.quiet {
        CleanupReplaces(a, sandbox, getIo, cleanupIo, listing, killed, cleaned, store.file, os.world.table);
        EntryOfLiveDaemon(os.world, store.Entries(), daemons, sandbox);
      }
      if sandbox in Content(StoreCodec, listing.file) && cleanupIo.lock && cleanupIo.load {
        assert os.verdicts[|said|].dead == killed;
      }
    }

    /** Start a tunnel process and give it time. */
    method Launch(sandbox: string) returns (started: bool, pid: int, ghost child: nat)
      requires Valid()
      modifies this, os
      ensures Evolved(old(os.world), os.world) && os.verdicts == old(os.verdicts) && old(os.answers) <= os.answers
      ensures !started ==> Valid() && daemons == old(daemons)
      ensures !started ==> os.ticks == old(os.ticks) + 1 && Unstartable(os.adversary, os.world, os.ticks)
      ensures started ==>
                && Awaited(os.world, store.Entries(), daemons, child, Daemon(sandbox, pid))
                && child !in old(daemons) && daemons == old(daemons)[child := Daemon(sandbox, pid)]
      ensures started && !Served(old(os.world), old(daemons), sandbox) ==> Alone(os.world, daemons, child, sandbox)
      ensures os.quiet && started ==> Live(os.world, daemons, child)
      ensures os.quiet && started && Alone(os.world, daemons, child, sandbox) ==>
                !Served(old(os.world), old(daemons), sandbox)
      ensures os.quiet && !started ==> exists t: nat :: NoPid(old(os.world), os.adversary(t).newPid)
    {
      ghost var w0, d0, c, t := os.world, daemons, store.Entries(), os.ticks;
      started, pid := os.Spawn(self);
      TimeKeepsTracked(w0, os.world, c, d0);
      child := 0;
      if started {
        child := os.world.nextUid - 1;
        daemons := daemons[child := Daemon(sandbox, pid)];
        ghost var w1 := os.world;
        ChildIsNew(w0, w1, d0, child, sandbox, pid, c);
        var _ := os.Pass();
        EvolvedTransitive(w0, w1, os.world);
        KnownLater(w1, os.world, c, daemons, child);
        if !Served(w0, d0, sandbox) { AloneIfUnserved(w0, os.world, d0, child, sandbox, pid); }
        if os.quiet { ChildOnly(w0, os.world, d0, child, sandbox, pid); }
      } else if os.quiet {
        assert NoPid(w0, os.adversary(t).newPid);
      }
    }

    /** Kill a tunnel process that did not get ready. */
    method Discard(sandbox: string, pid: int, ghost child: nat)
      requires os == store.os && os.exact
      requires Awaited(os.world, store.Entries(), daemons, child, Daemon(sandbox, pid))
      modifies os
      ensures Valid() && !Live(os.world, daemons, child)
      ensures Evolved(old(os.world), os.world) && os.verdicts == old(os.verdicts) && old(os.answers) <= os.answers
    {
      ghost var w := os.world;
      os.KillChild(pid, child);
      KnownLater(w, os.world, store.Entries(), daemons, child);
    }

    /** Save the entry of a tunnel that is ready. */
    method Record(sandbox: string, entry: Entry, io: Io, ghost child: nat) returns (saved: bool)
      requires os == store.os && os.exact
      requires Awaited(os.world, store.Entries(), daemons, child, Daemon(sandbox, entry.pid))
      modifies store
      ensures Known(os.world, daemons) && Owned(store.Entries(), daemons) && saved == Works(io)
      ensures Performs(StoreCodec, SaveOp(sandbox, entry), io, old(store.file), store.file, SaveReply(io))
      ensures Valid() <==>
                if saved then Alone(os.world, daemons, child, sandbox) else !Live(os.world, daemons, child)
    {
      SaveTracks(os.world, store.Entries(), daemons, child, entry, true);
      SaveTracks(os.world, store.Entries(), daemons, child, entry, false);
      var r := store.Save(sandbox, entry, io);
      saved := r.Done?;
    }

    /** The part of Connect that follows the start: hear from the child, and record or kill it. */
    method Conclude(sandbox: string, pid: int, saveIo: Io, handshake: Handshake, ghost child: nat, ghost start: Did)
      returns (r: Connected, ghost did: Did)
      requires os == store.os && os.exact && start.DidConnect? && start.cleanFile == store.file
      requires Awaited(os.world, store.Entries(), daemons, child, Daemon(sandbox, pid))
      modifies store, os
      ensures did.DidConnect? && did == start.(r := r, child := child, entry := did.entry) && did.entry.pid == pid
      ensures Evolved(old(os.world), os.world) && os.verdicts == old(os.verdicts) && old(os.answers) <= os.answers
      ensures !r.StartFailed?
      ensures r.Ready? <==> handshake.Message? && handshake.status == "ready" && handshake.port != 0
      ensures r.NotReady? ==> Valid() && !Live(os.world, daemons, child) && store.file == old(store.file)
      ensures r.Ready? ==>
                && r.saved == Works(saveIo) && os.world == old(os.world)
                && did.entry.port == handshake.port && did.entry.exePath == self
                && Performs(StoreCodec, SaveOp(sandbox, did.entry), saveIo, old(store.file), store.file,
                            SaveReply(saveIo))
                && Known(os.world, daemons) && Owned(store.Entries(), daemons)
                && (Valid() <==> if r.saved then Alone(os.world, daemons, child, sandbox)
                                 else !Live(os.world, daemons, child))
    {
      if !handshake.Message? || handshake.status != "ready" || handshake.port == 0 {
        Discard(sandbox, pid, child);
        did := start.(r := NotReady, child := child, entry := Entry(pid, 0, 0, self));
        return NotReady, did;
      }
      var entry := Entry(pid, handshake.port, os.now, self);
      var saved := Record(sandbox, entry, saveIo, child);
      r := Ready(saved);
      did := start.(r := r, child := child, entry := entry);
    }

    /** The part of Connect that follows the cleanup. */
    method Establish(sandbox: string, saveIo: Io, handshake: Handshake, ghost start: Did)
      returns (r: Connected, ghost did: Did)
      requires Valid() && start.DidConnect? && start.cleanFile == store.file
      modifies this, store, os
      ensures did.DidConnect? && did == start.(r := r, child := did.child, entry := did.entry)
      ensures Evolved(old(os.world), os.world) && os.verdicts == old(os.verdicts) && old(os.answers) <= os.answers
      ensures Launched(os.adversary, sandbox, self, saveIo, handshake, did, old(daemons), Snapshot())
      ensures os.exact && Known(os.world, daemons) && Owned(store.Entries(), daemons)
      ensures !r.Ready? ==> Valid()
      ensures r.Ready? ==>
                (Valid() <==> if r.saved then Alone(os.world, daemons, did.child, sandbox)
                              else !Live(os.world, daemons, did.child))
      ensures r.Ready? && !Served(old(os.world), old(daemons), sandbox) ==>
                Alone(os.world, daemons, did.child, sandbox)
      ensures os.quiet && r.Ready? ==> Live(os.world, daemons, did.child)
      ensures os.quiet && r.Ready? && Alone(os.world, daemons, did.child, sandbox) ==>
                !Served(old(os.world), old(daemons), sandbox)
      ensures os.quiet && r.StartFailed? ==> exists t: nat :: NoPid(old(os.world), os.adversary(t).newPid)
    {
      ghost var w0 := os.world;
      var started, pid, child := Launch(sandbox);
      did := start.(r := StartFailed);
      if !started { return StartFailed, did; }
      ghost var w1 := os.world;
      r, did := Conclude(sandbox, pid, saveIo, handshake, child, start);
      EvolvedTransitive(w0, w1, os.world);
    }

    /** Spawn a tunnel for the sandbox, wait for it to report, record it.  A failure to save is only a warning. */
    method Connect(sandbox: string, getIo: Io, cleanupIo: Io, saveIo: Io, handshake: Handshake)
      returns (r: Connected, cleaned: Reply, ghost did: Did)
      requires Valid()
      modifies this, store, os
      ensures os.exact && Known(os.world, daemons) && Owned(store.Entries(), daemons)
      ensures Happened(os.adversary, Command.Connect(sandbox, getIo, cleanupIo, saveIo, handshake), self,
                       old(Snapshot()), Snapshot(), did)
      ensures did.r == r && did.cleaned == cleaned
      ensures !handshake.Message? || handshake.status != "ready" || handshake.port == 0 ==>
                && !r.Ready? && store.file == did.cleanFile
                && (forall uid :: Live(os.world, daemons, uid) ==> Live(old(os.world), old(daemons), uid))
      ensures handshake.Message? && handshake.status == "ready" && handshake.port != 0 ==>
                r.StartFailed? || (r.Ready? && did.entry.port == handshake.port)
      ensures !Risky(did) ==> Valid()
      ensures old(os.verdicts) <= os.verdicts
      ensures Works(cleanupIo) && AllDead(old(os.verdicts), os.verdicts) ==> cleaned.Done?
      ensures r.Ready? ==>
                (Valid() <==> if r.saved then Alone(os.world, daemons, did.child, sandbox)
                              else !Live(os.world, daemons, did.child))
      ensures os.quiet && r.Ready? ==>
                (Valid() <==> Works(saveIo) && Replaceable(old(Snapshot()), sandbox, cleanupIo))
      ensures os.quiet && r.Ready? ==> Live(os.world, daemons, did.child)
      ensures os.quiet && r.StartFailed? ==> exists t: nat :: NoPid(old(os.world), os.adversary(t).newPid)
    {
      ghost var a := Snapshot();
      ghost var listing, killed;
      cleaned, listing, killed := Prepare(sandbox, getIo, cleanupIo);
      ghost var w := os.world;
      did := DidConnect(listing, killed, cleaned, store.file, StartFailed, 0, Entry(0, 0, 0, self));
      r, did := Establish(sandbox, saveIo, handshake, did);
      EvolvedTransitive(a.world, w, os.world);
      LaunchAddsNone(os.adversary, sandbox, self, saveIo, handshake, did, a.world, a.daemons, Snapshot());
    }

    method Disconnect(sandbox: string, getIo: Io, cleanupIo: Io) returns (ok: bool, ghost did: Did)
      requires Valid()
      modifies store, os
      ensures Valid() && old(os.verdicts) <= os.verdicts
      ensures Happened(os.adversary, Command.Disconnect(sandbox, getIo, cleanupIo), self,
                       old(Snapshot()), Snapshot(), did)
      ensures ok <==> did.found && did.cleaned.Done?
      ensures ok ==> !Served(os.world, daemons, sandbox)
    {
      ghost var w0 := os.world;
      var entry, failed, listing := Get(sandbox, getIo);
      did := DidDisconnect(listing, entry.Some?, false, Reply.Done);
      if failed || entry.None? { return false, did; }
      ghost var w1 := os.world;
      var cleaned, killed := Cleanup(sandbox, cleanupIo);
      EvolvedTransitive(w0, w1, os.world);
      did := did.(killed := killed, cleaned := cleaned);
      ok := cleaned.Done?;
    }

    method DisconnectAll(listIo: Io, cleanupIo: Io) returns (ok: bool, ghost did: Did)
      requires Valid()
      modifies store, os
      ensures Valid() && old(os.verdicts) <= os.verdicts
      ensures Happened(os.adversary, Command.DisconnectAll(listIo, cleanupIo), self, old(Snapshot()), Snapshot(), did)
      ensures ok <==> did.reply.Listed? && (did.reply.entries == map[] || did.cleaned.Done?)
      ensures ok ==> forall uid :: !Live(os.world, daemons, uid)
    {
      ghost var w0 := os.world;
      var listed, listing := List(listIo);
      did := DidDisconnectAll(listing.listing, listed, {}, [], Reply.Done);
      if !listed.Listed? { return false, did; }
      if listed.entries == map[] { return true, did; }
      ghost var w1 := os.world;
      var r, failed, order := CleanupAll(cleanupIo);
      EvolvedTransitive(w0, w1, os.world);
      did := did.(failed := failed, order := order, cleaned := r);
      ok := r.Done?;
    }

    method CleanupAll(io: Io) returns (r: Reply, ghost failed: set<string>, ghost order: seq<string>)
      requires Valid()
      modifies store, os
      ensures Valid() && Evolved(old(os.world), os.world)
      ensures old(os.verdicts) <= os.verdicts && old(os.answers) <= os.answers
      ensures Performs(StoreCodec, CleanupAllOp(failed), io, old(store.file), store.file, r)
      ensures if io.lock && io.load
              then Judged(old(os.verdicts), os.verdicts, order, old(store.Entries()), failed)
              else os.verdicts == old(os.verdicts)
      ensures r.Done? ==> forall uid :: !Live(os.world, daemons, uid)
    {
      ghost var v, c, before := os.world, store.Entries(), store.file;
      r, failed, order := store.CleanupAll(io);
      Dropped(v, c, failed, store.file, r, io, CleanupAllOp(failed), before);
    }

    /** One command; `risky` says that a tunnel got ready although the cleanup or the save failed. */
    method Execute(command: Command) returns (risky: bool, ghost did: Did)
      requires Valid()
      modifies this, store, os
      ensures Happened(os.adversary, command, self, old(Snapshot()), Snapshot(), did)
      ensures risky <==> Risky(did)
      ensures !risky ==> Valid()
      ensures os.quiet ==> Undisturbed(os.adversary, command, old(Snapshot()), Snapshot(), did)
      ensures old(os.verdicts) <= os.verdicts
      ensures CleanupAndSaveWork(command) && AllDead(old(os.verdicts), os.verdicts) ==> !risky
    {
      risky := false;
      match command
      case Connect(sandbox, getIo, cleanupIo, saveIo, handshake) =>
        var r, cleaned;
        r, cleaned, did := Connect(sandbox, getIo, cleanupIo, saveIo, handshake);
        risky := r.Ready? && !(r.saved && cleaned.Done?);
      case Disconnect(sandbox, getIo, cleanupIo) =>
        var ok;
        ok, did := Disconnect(sandbox, getIo, cleanupIo);
      case DisconnectAll(listIo, cleanupIo) =>
        var ok;
        ok, did := DisconnectAll(listIo, cleanupIo);
      case List(io) =>
        var r;
        r, did := List(io);
    }

    /** A session of commands.  It is cut short, and not `clean`, after a connect that got its tunnel ready although
        its cleanup or its save failed. */
    method Run(commands: seq<Command>) returns (clean: bool, ghost did: seq<Did>, ghost snaps: seq<Snap>)
      requires Valid()
      modifies this, store, os
      ensures Session(os.adversary, os.quiet, commands, self, did, snaps)
      ensures snaps[0] == old(Snapshot()) && snaps[|did|] == Snapshot()
      ensures clean <==> forall k :: 0 <= k < |did| ==> !Risky(did[k])
      ensures clean ==> |did| == |commands| && Valid()
      ensures old(HavePorts(store.file)) ==> forall k :: 0 <= k < |snaps| ==> HavePorts(snaps[k].file)
      ensures AllWork(commands) && AllDead(old(os.verdicts), os.verdicts) ==> clean
    {
      did, snaps := [], [Snapshot()];
      ghost var said := os.verdicts;
      for i := 0 to |commands|
        invariant Valid() && |did| == i
        invariant Session(os.adversary, os.quiet, commands, self, did, snaps)
        invariant snaps[0] == old(Snapshot()) && snaps[i] == Snapshot()
        invariant forall k :: 0 <= k < i ==> !Risky(did[k])
        invariant said <= os.verdicts
      {
        ghost var now := os.verdicts;
        var risky, one := Execute(commands[i]);
        SessionNext(os.adversary, os.quiet, commands, self, did, snaps, one, Snapshot());
        did, snaps := did + [one], snaps + [Snapshot()];
        if risky {
          assert AllDead(said, os.verdicts) ==> AllDead(now, os.verdicts);
          assert Risky(did[i]);
          AllHavePorts(os.adversary, os.quiet, commands, self, did, snaps);
          return false, did, snaps;
        }
      }
      AllHavePorts(os.adversary, os.quiet, commands, self, did, snaps);
      clean := true;
    }
  }

  /** Every entry has a port to connect to. */
  ghost predicate HavePorts(file: Option<Image>) {
    forall id :: id in Content(StoreCodec, file) ==> Content(StoreCodec, file)[id].port != 0
  }

  lemma PerformsKeepsPorts(op: StoreOp, io: Io, before: Option<Image>, after: Option<Image>, r: Reply)
    requires Performs(StoreCodec, op, io, before, after, r) && HavePorts(before) && op.loads
    requires var c := Content(StoreCodec, before);
      op.run(c).Write? ==>
        var next := op.run(c).next;
        forall id :: id in next ==> (id in c && next[id] == c[id]) || next[id].port != 0
    ensures HavePorts(after)
  {
  }

  lemma LaunchedKeepsPorts(adversary: nat -> Offer, c: Command, self: string, did: Did, d: Daemons, b: Snap)
    requires c.Connect? && did.DidConnect? && HavePorts(did.cleanFile)
    requires Launched(adversary, c.sandbox, self, c.saveIo, c.handshake, did, d, b)
    ensures HavePorts(b.file)
  {
    if did.r.Ready? {
      PerformsKeepsPorts(SaveOp(c.sandbox, did.entry), c.saveIo, did.cleanFile, b.file, SaveReply(c.saveIo));
    }
  }

  lemma ListingKeepsPorts(io: Io, a: Snap, l: Listing, r: Reply)
    requires ListedBy(io, a, l, r) && HavePorts(a.file)
    ensures HavePorts(l.file)
  {
    PerformsKeepsPorts(ListOp(l.alive), io, a.file, l.file, r);
  }

  lemma CommandKeepsPorts(adversary: nat -> Offer, c: Command, self: string, a: Snap, b: Snap, did: Did)
    requires Happened(adversary, c, self, a, b, did) && HavePorts(a.file)
    ensures HavePorts(b.file)
  {
    match c
    case Connect(sandbox, getIo, cleanupIo, saveIo, handshake) =>
      var r :| ListedBy(getIo, a, did.listing, r);
      ListingKeepsPorts(getIo, a, did.listing, r);
      PerformsKeepsPorts(CleanupOp(sandbox, did.killed), cleanupIo, did.listing.file, did.cleanFile, did.cleaned);
      LaunchedKeepsPorts(adversary, c, self, did, a.daemons, b);
    case Disconnect(sandbox, getIo, cleanupIo) =>
      var r :| ListedBy(getIo, a, did.listing, r);
      ListingKeepsPorts(getIo, a, did.listing, r);
      if did.found {
        PerformsKeepsPorts(CleanupOp(sandbox, did.killed), cleanupIo, did.listing.file, b.file, did.cleaned);
      }
    case DisconnectAll(listIo, cleanupIo) =>
      ListingKeepsPorts(listIo, a, did.listing, did.reply);
      if did.reply.Listed? && did.reply.entries != map[] {
        PerformsKeepsPorts(CleanupAllOp(did.failed), cleanupIo, did.listing.file, b.file, did.cleaned);
      }
    case List(io) => ListingKeepsPorts(io, a, did.listing, did.reply);
  }

  /** Whatever the children said, no session brings in an entry without a port. */
  lemma {:induction false} SessionKeepsPorts(adversary: nat -> Offer, quiet: bool, commands: seq<Command>,
      self: string, did: seq<Did>, snaps: seq<Snap>, k: nat)
    requires Session(adversary, quiet, commands, self, did, snaps) && HavePorts(snaps[0].file) && k <= |did|
    ensures HavePorts(snaps[k].file)
  {
    if k > 0 {
      SessionKeepsPorts(adversary, quiet, commands, self, did, snaps, k - 1);
      SessionAt(adversary, quiet, commands, self, did, snaps, k - 1);
    }
  }

  lemma SessionAt(adversary: nat -> Offer, quiet: bool, commands: seq<Command>, self: string, did: seq<Did>,
      snaps: seq<Snap>, k: nat)
    requires Session(adversary, quiet, commands, self, did, snaps) && k < |did|
    ensures |snaps| == |did| + 1 && (HavePorts(snaps[k].file) ==> HavePorts(snaps[k + 1].file))
  {
    if HavePorts(snaps[k].file) {
      CommandKeepsPorts(adversary, commands[k], self, snaps[k], snaps[k + 1], did[k]);
    }
  }

  lemma AllHavePorts(adversary: nat -> Offer, quiet: bool, commands: seq<Command>, self: string, did: seq<Did>,
      snaps: seq<Snap>)
    requires Session(adversary, quiet, commands, self, did, snaps)
    ensures HavePorts(snaps[0].file) ==> forall k :: 0 <= k < |snaps| ==> HavePorts(snaps[k].file)
  {
    if HavePorts(snaps[0].file) {
      forall k | 0 <= k < |snaps| ensures HavePorts(snaps[k].file) {
        SessionKeepsPorts(adversary, quiet, commands, self, did, snaps, k);
      }
    }
  }

  lemma SessionNext(adversary: nat -> Offer, quiet: bool, commands: seq<Command>, self: string, did: seq<Did>,
      snaps: seq<Snap>, one: Did, b: Snap)
    requires Session(adversary, quiet, commands, self, did, snaps) && |did| < |commands|
    requires forall k :: 0 <= k < |did| ==> !Risky(did[k])
    requires Happened(adversary, commands[|did|], self, snaps[|did|], b, one) && InStep(snaps[|did|])
    requires quiet ==> Undisturbed(adversary, commands[|did|], snaps[|did|], b, one)
    ensures Session(adversary, quiet, commands, self, did + [one], snaps + [b])
  {
    var longer, states := did + [one], snaps + [b];
    forall k | 0 <= k < |longer|
      ensures Happened(adversary, commands[k], self, states[k], states[k + 1], longer[k]) && InStep(states[k])
      ensures quiet ==> Undisturbed(adversary, commands[k], states[k], states[k + 1], longer[k])
    {
      if k < |did| { assert Happened(adversary, commands[k], self, snaps[k], snaps[k + 1], did[k]); }
    }
  }

  /** The failing inputs are real.  With an operating system that does nothing by itself, a first connect whose save
      fails leaves a daemon that no entry names. */
  method FailedSaveLosesTrack(sandbox: string, self: string) returns (m: Mobile, ghost child: nat)
    ensures fresh(m) && m.os.quiet && m.os.exact && m.store.Entries() == map[]
    ensures Live(m.os.world, m.daemons, child) && m.daemons[child].sandbox == sandbox && !m.Valid()
  {
    var offer := Offer(0, World(false, map[], {}, 0), true, true, Unknown, 1, true, true);
    var os := new Os(_ => offer, true, true, World(false, map[], {}, 0));
    var store := new Store(None, os);
    m := new Mobile(store, self);
    var works := Io(true, true, true);
    var r, cleaned, did := m.Connect(sandbox, works, works, Io(true, true, false), Message("ready", 5555));
    child := did.child;
  }

  /** A tunnel that survives SIGKILL is in step, but cannot be replaced. */
  lemma StubbornTunnelIsNotReplaceable(sandbox: string, self: string, pid: int) returns (a: Snap)
    requires pid > 0
    ensures InStep(a) && !Replaceable(a, sandbox, Io(true, true, true))
  {
    var w := World(false, map[pid := Process(0, self, false, false)], {pid}, 1);
    var c: Entries := map[sandbox := Entry(pid, 5555, 0, self)];
    a := Snap(Some(Whole(c)), w, map[0 := Daemon(sandbox, pid)], [], [], 0);
    assert Content(StoreCodec, a.file) == c;
    assert forall s :: s in c ==> a.daemons[0] == Daemon(s, c[s].pid);
  }

  /** The daemon `child` has been started, and is the only one that no entry names. */
  ghost predicate Awaited(w: World, c: Entries, d: Daemons, child: nat, daemon: Daemon) {
    && Known(w, d) && Owned(c, d) && NamedBut(w, c, d, child)
    && child in d && d[child] == daemon && (daemon.pid !in w.table ==> Gone(child, w.table))
    && forall s :: s in c ==> c[s].pid != daemon.pid
  }

  /** Every live daemon but `child` is named. */
  ghost predicate NamedBut(w: World, c: Entries, d: Daemons, child: nat) {
    forall uid :: Live(w, d, uid) && uid != child ==> d[uid].sandbox in c && c[d[uid].sandbox].pid == d[uid].pid
  }

  /** A child just spawned is the only daemon that no entry names. */
  lemma ChildIsNew(v: World, w: World, d: Daemons, child: nat, sandbox: string, pid: int, c: Entries)
    requires Tracked(w, c, d) && Known(v, d) && Evolved(v, w)
    requires v.nextUid <= child < w.nextUid && pid !in v.used
    requires pid in w.table && w.table[pid].uid == child
    ensures var e := d[child := Daemon(sandbox, pid)];
      Known(w, e) && Owned(c, e) && NamedBut(w, c, e, child) && (forall s :: s in c ==> c[s].pid != pid)
  {
    var e := d[child := Daemon(sandbox, pid)];
    assert child !in d;
    forall s | s in c ensures c[s].pid != pid && exists uid :: uid in e && e[uid] == Daemon(s, c[s].pid) {
      var uid :| uid in d && d[uid] == Daemon(s, c[s].pid);
      assert e[uid] == d[uid];
    }
    forall uid | Live(w, e, uid) && uid != child ensures e[uid].sandbox in c && c[e[uid].sandbox].pid == e[uid].pid {
      assert Live(w, d, uid);
    }
  }

  lemma KnownLater(v: World, w: World, c: Entries, d: Daemons, child: nat)
    requires Known(v, d) && NamedBut(v, c, d, child) && WorldOk(w) && Evolved(v, w)
    ensures Known(w, d) && NamedBut(w, c, d, child)
    ensures !Live(w, d, child) ==> Named(w, c, d)
  {
    forall uid | Live(w, d, uid) ensures Live(v, d, uid) {}
  }

  /** After the save, when is every live daemon named? */
  lemma SaveTracks(w: World, c: Entries, d: Daemons, child: nat, e: Entry, saved: bool)
    requires Known(w, d) && Owned(c, d) && NamedBut(w, c, d, child)
    requires child in d && d[child].pid == e.pid && forall s :: s in c ==> c[s].pid != e.pid
    ensures var after := if saved then c[d[child].sandbox := e] else c;
      && Owned(after, d)
      && (Named(w, after, d) <==>
            if saved then Alone(w, d, child, d[child].sandbox) else !Live(w, d, child))
  {
  }

  /** A start that failed, or a child that was not accepted, leaves no live daemon that did not live before. */
  lemma LaunchAddsNone(adversary: nat -> Offer, sandbox: string, self: string, saveIo: Io, handshake: Handshake,
                       did: Did, v: World, d: Daemons, b: Snap)
    requires did.DidConnect? && Launched(adversary, sandbox, self, saveIo, handshake, did, d, b)
    requires Known(v, d) && Evolved(v, b.world)
    ensures !did.r.Ready? ==> forall uid :: Live(b.world, b.daemons, uid) ==> Live(v, d, uid)
  {
  }

  lemma AloneIfUnserved(v: World, w: World, d: Daemons, child: nat, sandbox: string, pid: int)
    requires Known(v, d) && Evolved(v, w) && v.nextUid <= child && !Served(v, d, sandbox)
    ensures Alone(w, d[child := Daemon(sandbox, pid)], child, sandbox)
  {
    var e := d[child := Daemon(sandbox, pid)];
    forall uid | Live(w, e, uid) && uid != child ensures Live(v, d, uid) {}
  }

  /** When nothing interferes, the child lives, and it is not alone if the sandbox had a daemon before. */
  lemma ChildOnly(v: World, w: World, d: Daemons, child: nat, sandbox: string, pid: int)
    requires Known(v, d) && Free(v, pid) && pid in w.table && w == Grown(v, pid, w.table[pid])
    requires w.table[pid].uid == child && v.nextUid <= child
    ensures var e := d[child := Daemon(sandbox, pid)];
      Live(w, e, child) && (Alone(w, e, child, sandbox) ==> !Served(v, d, sandbox))
  {
    var e := d[child := Daemon(sandbox, pid)];
    if uid :| Live(v, d, uid) && d[uid].sandbox == sandbox { assert Live(w, e, uid); }
  }
}
