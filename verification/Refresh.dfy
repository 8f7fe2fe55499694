/**
 The database refresh protocol of db/db.go, as a labelled step system.

 A named SQLite file is a local copy of the bytes a registry hash points at.
 Every goroutine is a thread with a program counter; a step of thread t is the
 code between two points at which another thread may run. Mutexes are explicit
 holders, the unbuffered `updates` channel is a rendezvous between a publisher
 and a watcher, and a path is the list of inodes that were renamed onto it.
 */
module Refresh {
  import opened Values

  type Tid = nat
  type DbId = nat
  type ConnId = nat
  type HandleId = nat
  type Inode = nat

  /** What the protocol is built on: address parsing, the content key of the
      Swarm store, and signature recovery. */
  datatype World = World(
    addressOf: string -> Address,
    digest: Bytes -> Hash,
    signer: (Hash, Bytes) -> Option<Address>)
  {
    /** The idealised store key: collision free, and never the empty hash. */
    ghost predicate Ideal() {
      && (forall a, b :: digest(a) == digest(b) ==> a == b)
      && (forall a :: digest(a) != EMPTY_HASH)
    }
  }

  // -------------------------------------------------------- program counters

  /** A running fetchDB: the hash asked for and the temporary file, if made. */
  datatype Fetch = Fetch(hash: Hash, tmp: Option<Inode>)

  datatype Pc =
    | Idle
    | Opening(at: OpenPc)                 // Driver.Open
    | Closing(c: ConnId, stage: ClosePc)  // Conn.Close
    | Setting(phase: SetPc)               // Registry.SetGraph
    | Committing(part: CommitPc)          // Driver.Commit
    | Watching(d: DbId, loop: WatchPc)    // the watcher goroutine
    | Exiting(d: DbId, exit: ExitPc)      // its deferred exit

  datatype OpenPc =
    | OpenStart(name: string)                            // wants dbMtx
    | OpenLookup(name: string)
    | OpenGraph(name: string)                            // wants the registry mutex
    | OpenRead(name: string)
    | OpenFetch(name: string, seen: nat, fetch: Fetch)
    | OpenSubscribe(name: string, seen: nat, hash: Hash) // wants the registry mutex
    | OpenAttach(name: string, seen: nat, hash: Hash)
    | OpenInstall(d: DbId)
    | OpenSpawn(d: DbId)
    | OpenReturn(result: Option<DbId>)
    | OpenConn(d: DbId)
    | OpenAdd(c: ConnId)                                 // wants connsMtx
    | OpenAdding(c: ConnId)

  datatype ClosePc = CloseWait | CloseRemove | CloseHandle

  datatype SetPc =
    | SetStart(hash: Hash, sig: Bytes)                   // wants the registry mutex
    | SetCheck(hash: Hash, sig: Bytes)
    | SetNext(addr: Address, hash: Hash, todo: set<DbId>)
    | SetSend(addr: Address, hash: Hash, d: DbId, todo: set<DbId>)

  datatype CommitPc =
    | CommitStart(name: string)
    | CommitStat(name: string, file: Inode, version: nat, start: Bytes)
    | CommitRead(name: string, file: Inode, version: nat, start: Bytes, size: nat, buf: Bytes)

  datatype WatchPc =
    | Select
    | Refetch(fetch: Fetch)
    | SweepStart(hash: Hash)                             // wants connsMtx for reading
    | Sweep(hash: Hash, conns: set<ConnId>)
    | SweepStore(hash: Hash, conns: set<ConnId>, c: ConnId, h: HandleId)

  datatype ExitPc =
    | ExitStart                                          // wants the registry mutex
    | ExitUnsub
    | ExitClose
    | ExitConns                                          // wants connsMtx
    | ExitDrain
    | ExitSelf(c: ConnId)                                // wants connsMtx, holding it
    | ExitDb                                             // wants dbMtx
    | ExitDelete
    | Exited

  // ------------------------------------------------------------------- state

  datatype RwLock = RwLock(writer: Option<Tid>, readers: set<Tid>) {
    predicate Free() { writer.None? && readers == {} }
  }

  const UNLOCKED := RwLock(None, {})

  /** A subscription. `seen` and `since` are the lengths of the publish history
      of its address when the hash was read and when the subscription was made;
      `applied` lists the hashes the watcher has finished refreshing to. */
  datatype Feed = Feed(addr: Address, seen: nat, readHash: Hash, since: nat, applied: seq<Hash>)

  /** The Conns of a db object. `dropped` says the map is nil, and `sweeps`
      counts the reopenConns loops begun. */
  datatype Pool = Pool(conns: set<ConnId>, dropped: bool, lock: RwLock, sweeps: nat)

  datatype Db = Db(name: string, feed: Feed, watcher: Option<Tid>, pool: Pool, closed: bool)

  /** A Conn. `owner` is the thread that opened it, `born` the generation of the
      path when newConn opened it and `joined` the number of sweeps begun when it
      was registered. */
  datatype Conn = Conn(db: DbId, owner: Tid, handle: HandleId, born: nat, joined: Option<nat>, removed: bool)

  /** An open SQLite handle: the generation of the path it was opened at. */
  datatype Handle = Handle(conn: ConnId, name: string, gen: nat, inode: Inode)

  /** The SQLite side: Conns, every handle ever opened, those a swap replaced
      and those that were closed. */
  datatype Sql = Sql(conns: seq<Conn>, handles: seq<Handle>, superseded: set<HandleId>, closed: set<HandleId>)

  /** The registry: its hashes, the publish history of each address, and the
      live subscriptions. */
  datatype Ledger = Ledger(hashes: map<Address, Hash>, history: map<Address, seq<Hash>>, subs: set<DbId>) {
    function History(a: Address): seq<Hash> {
      if a in history then history[a] else []
    }
  }

  /** A file. `version` counts SQLite writes; `origin` and `owner` are the hash
      it is fetched for and the thread fetching it. */
  datatype File = File(content: Bytes, version: nat, origin: Hash, owner: Tid, linked: bool)

  /** One rename onto a path. */
  datatype Link = Link(inode: Inode, hash: Hash)

  /** A finished Commit: the name it was called with, its result, the file it
      opened, the bytes of that file when it was opened, and whether no SQLite
      write hit the file meanwhile. */
  datatype Committed = Committed(name: string, hash: Hash, file: Inode, start: Bytes, quiet: bool)

  /** The directory of database files and the Swarm store. */
  datatype Disk = Disk(
    files: seq<File>,
    links: map<string, seq<Link>>,
    store: map<Hash, Bytes>,
    commits: seq<Committed>)
  {
    function Links(name: string): seq<Link> {
      if name in links then links[name] else []
    }

    /** fetchHash: the bytes a hash stands for, when the store can deliver them. */
    predicate Available(hash: Hash) {
      hash == EMPTY_HASH || hash in store
    }

    function Source(hash: Hash): Bytes
      requires Available(hash)
    {
      if hash == EMPTY_HASH then [] else store[hash]
    }
  }

  datatype State = State(
    threads: seq<Pc>,
    dbMtx: Option<Tid>,
    regMtx: Option<Tid>,
    byName: map<string, DbId>,
    dbs: seq<Db>,
    sql: Sql,
    ledger: Ledger,
    disk: Disk,
    panics: nat,
    crashed: bool)
  {
    function Goto(t: Tid, pc: Pc): State
      requires t < |threads|
    {
      this.(threads := threads[t := pc])
    }

    function SetDb(d: DbId, db: Db): State
      requires d < |dbs|
    {
      this.(dbs := dbs[d := db])
    }

    function SetPool(d: DbId, pool: Pool): State
      requires d < |dbs|
    {
      SetDb(d, dbs[d].(pool := pool))
    }

    function SetLock(d: DbId, lock: RwLock): State
      requires d < |dbs|
    {
      SetPool(d, dbs[d].pool.(lock := lock))
    }

    /** The db a Conn belongs to, when both exist. */
    predicate HasConn(c: ConnId) {
      c < |sql.conns| && sql.conns[c].db < |dbs|
    }

    /** Whether sqlite.Open finds a file at the path of db d. */
    predicate CanOpen(d: DbId) {
      d < |dbs| && |disk.Links(dbs[d].name)| > 0
    }

    function NewHandle(d: DbId, c: ConnId): Handle
      requires CanOpen(d)
    {
      var links := disk.Links(dbs[d].name);
      Handle(c, dbs[d].name, |links| - 1, links[|links| - 1].inode)
    }
  }

  ghost const INIT: State :=
    State([], None, None, map[], [], Sql([], [], {}, {}), Ledger(map[], map[], {}),
          Disk([], map[], map[], []), 0, false)

  // ------------------------------------------------------------------ fetchDB

  /** How a step that has a choice resolves it. */
  datatype Choice = Go | Fail | Take(n: nat)

  /** How far fetchDB has come after a step. */
  datatype Progress = Running(fetch: Fetch) | Renamed | Failed

  /** One step of fetchDB (db/db.go:157-190): make the temporary file, copy
      some bytes, rename it onto the path, or give up. */
  function FetchStep(disk: Disk, t: Tid, name: string, f: Fetch, ch: Choice): Option<(Disk, Progress)> {
    if ch.Fail? then Some((disk, Failed))
    else if f.tmp.None? then
      if ch.Go? then
        Some((disk.(files := disk.files + [File([], 0, f.hash, t, false)]), Running(Fetch(f.hash, Some(|disk.files|)))))
      else None
    else if f.tmp.value < |disk.files| && disk.Available(f.hash) then
      var i := f.tmp.value;
      var file := disk.files[i];
      var source := disk.Source(f.hash);
      if ch.Take? && 0 < ch.n && |file.content| + ch.n <= |source| then
        var more := file.(content := source[..|file.content| + ch.n]);
        Some((disk.(files := disk.files[i := more]), Running(f)))
      else if ch.Go? && |file.content| == |source| then
        Some((disk.(files := disk.files[i := file.(linked := true)],
                    links := disk.links[name := disk.Links(name) + [Link(i, f.hash)]]), Renamed))
      else None
    else None
  }

  // -------------------------------------------------------------- Driver.Open

  /** openDB and newConn (db/db.go:69-75, 97-155, 212-227). */
  function OpenStep(w: World, s: State, t: Tid, at: OpenPc, ch: Choice): Option<State>
    requires t < |s.threads|
  {
    match at
    case OpenFetch(name, seen, f) => OpenFetching(s, t, name, seen, f, ch)
    case OpenConn(d) =>
      if ch.Fail? then Some(s.Goto(t, Idle)) else if ch.Go? then OpenNewConn(s, t, d) else None
    case OpenStart(name) => if ch.Go? then OpenLock(s, t, name) else None
    case OpenLookup(name) => if ch.Go? then Some(OpenLooked(s, t, name)) else None
    case OpenGraph(name) => if ch.Go? then LockRegistry(s, t, Opening(OpenRead(name))) else None
    case OpenRead(name) => if ch.Go? then Some(OpenHash(w, s, t, name)) else None
    case OpenSubscribe(name, seen, hash) =>
      if ch.Go? then LockRegistry(s, t, Opening(OpenAttach(name, seen, hash))) else None
    case OpenAttach(name, seen, hash) => if ch.Go? then Some(OpenAttached(w, s, t, name, seen, hash)) else None
    case OpenInstall(d) => if ch.Go? then OpenInstalled(s, t, d) else None
    case OpenSpawn(d) => if ch.Go? then OpenSpawned(s, t, d) else None
    case OpenReturn(result) =>
      if ch.Go? then Some(OpenUnlock(s, t, result)) else None
    case OpenAdd(c) => if ch.Go? then LockConns(s, t, c, Opening(OpenAdding(c))) else None
    case OpenAdding(c) => if ch.Take? then None else OpenAdded(s, t, c, ch.Fail?)
  }

  function LockRegistry(s: State, t: Tid, pc: Pc): Option<State>
    requires t < |s.threads|
  {
    if s.regMtx.None? then Some(s.(regMtx := Some(t)).Goto(t, pc)) else None
  }

  /** connsMtx.Lock on behalf of Conn c. */
  function LockConns(s: State, t: Tid, c: ConnId, pc: Pc): Option<State>
    requires t < |s.threads|
  {
    if s.HasConn(c) && s.dbs[s.sql.conns[c].db].pool.lock.Free() then
      Some(s.SetLock(s.sql.conns[c].db, RwLock(Some(t), {})).Goto(t, pc))
    else None
  }

  function OpenLock(s: State, t: Tid, name: string): Option<State>
    requires t < |s.threads|
  {
    if s.dbMtx.None? then Some(s.(dbMtx := Some(t)).Goto(t, Opening(OpenLookup(name)))) else None
  }

  function OpenLooked(s: State, t: Tid, name: string): State
    requires t < |s.threads|
  {
    s.Goto(t, Opening(if name in s.byName then OpenReturn(Some(s.byName[name])) else OpenGraph(name)))
  }

  function OpenHash(w: World, s: State, t: Tid, name: string): State
    requires t < |s.threads|
  {
    var addr := w.addressOf(name);
    s.(regMtx := None)
    .Goto(t, Opening(OpenFetch(name, |s.ledger.History(addr)|, Fetch(HashAt(s.ledger.hashes, addr), None))))
  }

  function OpenFetching(s: State, t: Tid, name: string, seen: nat, f: Fetch, ch: Choice): Option<State>
    requires t < |s.threads|
  {
    match FetchStep(s.disk, t, name, f, ch)
    case None => None
    case Some((disk, Running(f1))) => Some(s.(disk := disk).Goto(t, Opening(OpenFetch(name, seen, f1))))
    case Some((disk, Renamed)) => Some(s.(disk := disk).Goto(t, Opening(OpenSubscribe(name, seen, f.hash))))
    case Some((disk, Failed)) => Some(s.(disk := disk).Goto(t, Opening(OpenReturn(None))))
  }

  function OpenAttached(w: World, s: State, t: Tid, name: string, seen: nat, hash: Hash): State
    requires t < |s.threads|
  {
    var addr := w.addressOf(name);
    var feed := Feed(addr, seen, hash, |s.ledger.History(addr)|, []);
    var db := Db(name, feed, None, Pool({}, false, UNLOCKED, 0), false);
    s.(regMtx := None, dbs := s.dbs + [db], ledger := s.ledger.(subs := s.ledger.subs + {|s.dbs|}))
    .Goto(t, Opening(OpenInstall(|s.dbs|)))
  }

  function OpenInstalled(s: State, t: Tid, d: DbId): Option<State>
    requires t < |s.threads|
  {
    if d < |s.dbs| then
      Some(s.(byName := s.byName[s.dbs[d].name := d]).Goto(t, Opening(OpenSpawn(d))))
    else None
  }

  function OpenSpawned(s: State, t: Tid, d: DbId): Option<State>
    requires t < |s.threads|
  {
    if d < |s.dbs| then
      Some(s.(dbs := s.dbs[d := s.dbs[d].(watcher := Some(|s.threads|))],
              threads := s.threads[t := Opening(OpenReturn(Some(d)))] + [Watching(d, Select)]))
    else None
  }

  function OpenUnlock(s: State, t: Tid, result: Option<DbId>): State
    requires t < |s.threads|
  {
    s.(dbMtx := None).Goto(t, if result.Some? then Opening(OpenConn(result.value)) else Idle)
  }

  function OpenNewConn(s: State, t: Tid, d: DbId): Option<State>
    requires t < |s.threads|
  {
    if s.CanOpen(d) then
      var c := |s.sql.conns|;
      var h := s.NewHandle(d, c);
      Some(s.(sql := s.sql.(handles := s.sql.handles + [h],
                            conns := s.sql.conns + [Conn(d, t, |s.sql.handles|, h.gen, None, false)]))
           .Goto(t, Opening(OpenAdd(c))))
    else None
  }

  /** addConn. Assigning into the nil map that db.close leaves behind panics. The
      deferred Unlock still runs, and then either the caller recovers, as the
      GraphQL executor and the RPC server do, with the Conn unregistered for
      ever, or the process ends. */
  function OpenAdded(s: State, t: Tid, c: ConnId, ends: bool): Option<State>
    requires t < |s.threads|
  {
    if !s.HasConn(c) then None
    else
      var d := s.sql.conns[c].db;
      var pool := s.dbs[d].pool;
      if pool.dropped then
        Some(s.SetLock(d, UNLOCKED).Goto(t, Idle).(panics := s.panics + 1, crashed := ends))
      else if ends then None
      else
        var joined := s.sql.conns[c].(joined := Some(pool.sweeps));
        Some(s.SetPool(d, pool.(conns := pool.conns + {c}, lock := UNLOCKED))
             .(sql := s.sql.(conns := s.sql.conns[c := joined])).Goto(t, Idle))
  }

  // --------------------------------------------------------------- Conn.Close

  /** Conn.Close (db/db.go:229-233, 280-284). */
  function CloseStep(s: State, t: Tid, c: ConnId, stage: ClosePc, ch: Choice): Option<State>
    requires t < |s.threads|
  {
    if !ch.Go? || !s.HasConn(c) then None
    else
      match stage
      case CloseWait => LockConns(s, t, c, Closing(c, CloseRemove))
      case CloseRemove => Some(CloseRemoved(s, t, c))
      case CloseHandle =>
        Some(s.(sql := s.sql.(closed := s.sql.closed + {s.sql.conns[c].handle})).Goto(t, Idle))
  }

  function CloseRemoved(s: State, t: Tid, c: ConnId): State
    requires t < |s.threads| && s.HasConn(c)
  {
    var d := s.sql.conns[c].db;
    var pool := s.dbs[d].pool;
    s.SetPool(d, pool.(conns := pool.conns - {c}, lock := UNLOCKED))
    .(sql := s.sql.(conns := s.sql.conns[c := s.sql.conns[c].(removed := true)]))
    .Goto(t, Closing(c, CloseHandle))
  }

  // --------------------------------------------------------- Registry.SetGraph

  /** Registry.SetGraph (testutil/util.go:90-105). */
  function SetStep(w: World, s: State, t: Tid, phase: SetPc, ch: Choice): Option<State>
    requires t < |s.threads|
  {
    match phase
    case SetStart(hash, sig) => if ch.Go? then LockRegistry(s, t, Setting(SetCheck(hash, sig))) else None
    case SetCheck(hash, sig) => if ch.Go? then Some(SetChecked(w, s, t, hash, sig)) else None
    case SetNext(addr, hash, todo) =>
      if ch.Take? && ch.n in todo then Some(s.Goto(t, Setting(SetSend(addr, hash, ch.n, todo - {ch.n}))))
      else if ch.Go? && todo == {} then Some(s.(regMtx := None).Goto(t, Idle))
      else None
    case SetSend(addr, hash, d, todo) => if ch.Go? then SetSent(s, t, addr, hash, d, todo) else None
  }

  function Subscribers(s: State, addr: Address): set<DbId> {
    set d | d in s.ledger.subs && d < |s.dbs| && s.dbs[d].feed.addr == addr
  }

  function SetChecked(w: World, s: State, t: Tid, hash: Hash, sig: Bytes): State
    requires t < |s.threads|
  {
    match w.signer(hash, sig)
    case None => s.(regMtx := None).Goto(t, Idle)
    case Some(addr) =>
      s.(ledger := s.ledger.(hashes := s.ledger.hashes[addr := hash],
                             history := s.ledger.history[addr := s.ledger.History(addr) + [hash]]))
      .Goto(t, Setting(SetNext(addr, hash, Subscribers(s, addr))))
  }

  /** The watcher of d sits at its select, so an unbuffered send can complete. */
  predicate Receiving(s: State, d: DbId) {
    && d < |s.dbs|
    && s.dbs[d].watcher.Some?
    && s.dbs[d].watcher.value < |s.threads|
    && s.threads[s.dbs[d].watcher.value] == Watching(d, Select)
  }

  function SetSent(s: State, t: Tid, addr: Address, hash: Hash, d: DbId, todo: set<DbId>): Option<State>
    requires t < |s.threads|
  {
    if Receiving(s, d) then
      Some(s.Goto(s.dbs[d].watcher.value, Watching(d, Refetch(Fetch(hash, None))))
           .Goto(t, Setting(SetNext(addr, hash, todo))))
    else None
  }

  // ------------------------------------------------------------- Driver.Commit

  /** Driver.Commit (db/db.go:79-95). The file is read a piece at a time. */
  function CommitStep(w: World, s: State, t: Tid, part: CommitPc, ch: Choice): Option<State>
    requires t < |s.threads|
  {
    if ch.Fail? then Some(s.Goto(t, Idle))
    else
      match part
      case CommitStart(name) => if ch.Go? then CommitOpened(s, t, name) else None
      case CommitStat(name, i, version, start) =>
        if ch.Go? && i < |s.disk.files| then
          Some(s.Goto(t, Committing(CommitRead(name, i, version, start, |s.disk.files[i].content|, []))))
        else None
      case CommitRead(name, i, version, start, size, buf) =>
        if i >= |s.disk.files| then None
        else if ch.Go? then
          if |buf| == size then Some(CommitStored(w, s, t, name, i, version, start, buf)) else None
        else
          var content := s.disk.files[i].content;
          if 0 < ch.n && |buf| + ch.n <= size && |buf| + ch.n <= |content| then
            var read := buf + content[|buf|..|buf| + ch.n];
            Some(s.Goto(t, Committing(CommitRead(name, i, version, start, size, read))))
          else None
  }

  function CommitOpened(s: State, t: Tid, name: string): Option<State>
    requires t < |s.threads|
  {
    var links := s.disk.Links(name);
    if |links| > 0 && links[|links| - 1].inode < |s.disk.files| then
      var i := links[|links| - 1].inode;
      Some(s.Goto(t, Committing(CommitStat(name, i, s.disk.files[i].version, s.disk.files[i].content))))
    else None
  }

  function CommitStored(w: World, s: State, t: Tid, name: string, i: Inode, version: nat, start: Bytes,
          buf: Bytes): State
    requires t < |s.threads| && i < |s.disk.files|
  {
    var hash := w.digest(buf);
    var done := Committed(name, hash, i, start, s.disk.files[i].version == version);
    s.(disk := s.disk.(store := s.disk.store[hash := buf], commits := s.disk.commits + [done])).Goto(t, Idle)
  }

  // --------------------------------------------------------------- the watcher

  /** The watcher's loop (db/db.go:136-151, 235-246). */
  function WatchStep(s: State, t: Tid, d: DbId, loop: WatchPc, ch: Choice): Option<State>
    requires t < |s.threads| && d < |s.dbs|
  {
    match loop
    case Select =>
      // the db.closed branch; receiving a hash is the publisher's step
      if ch.Go? && s.dbs[d].closed then Some(s.Goto(t, Exiting(d, ExitStart))) else None
    case Refetch(f) => Refetching(s, t, d, f, ch)
    case SweepStart(hash) => if ch.Go? then SweepBegun(s, t, d, hash) else None
    case Sweep(hash, conns) =>
      if ch.Take? && ch.n in conns && s.CanOpen(d) then Some(SweepOpened(s, t, d, hash, conns, ch.n))
      else if ch.Go? && conns == {} then Some(SweepEnded(s, t, d, hash))
      else if ch.Fail? && conns != {} then Some(SweepFailed(s, t, d))
      else None
    case SweepStore(hash, conns, c, h) => if ch.Go? then SweepStored(s, t, d, hash, conns, c, h) else None
  }

  function Refetching(s: State, t: Tid, d: DbId, f: Fetch, ch: Choice): Option<State>
    requires t < |s.threads| && d < |s.dbs|
  {
    match FetchStep(s.disk, t, s.dbs[d].name, f, ch)
    case None => None
    case Some((disk, Running(f1))) => Some(s.(disk := disk).Goto(t, Watching(d, Refetch(f1))))
    case Some((disk, Renamed)) => Some(s.(disk := disk).Goto(t, Watching(d, SweepStart(f.hash))))
    case Some((disk, Failed)) => Some(s.(disk := disk).Goto(t, Exiting(d, ExitStart)))
  }

  function SweepBegun(s: State, t: Tid, d: DbId, hash: Hash): Option<State>
    requires t < |s.threads| && d < |s.dbs|
  {
    var pool := s.dbs[d].pool;
    if pool.lock.writer.None? then
      Some(s.SetPool(d, pool.(lock := RwLock(None, pool.lock.readers + {t}), sweeps := pool.sweeps + 1))
           .Goto(t, Watching(d, Sweep(hash, pool.conns))))
    else None
  }

  function SweepOpened(s: State, t: Tid, d: DbId, hash: Hash, conns: set<ConnId>, c: ConnId): State
    requires t < |s.threads| && s.CanOpen(d)
  {
    s.(sql := s.sql.(handles := s.sql.handles + [s.NewHandle(d, c)]))
    .Goto(t, Watching(d, SweepStore(hash, conns - {c}, c, |s.sql.handles|)))
  }

  function SweepStored(s: State, t: Tid, d: DbId, hash: Hash, conns: set<ConnId>, c: ConnId, h: HandleId): Option<State>
    requires t < |s.threads|
  {
    if c < |s.sql.conns| then
      Some(s.(sql := s.sql.(conns := s.sql.conns[c := s.sql.conns[c].(handle := h)],
                            superseded := s.sql.superseded + {s.sql.conns[c].handle}))
           .Goto(t, Watching(d, Sweep(hash, conns))))
    else None
  }

  function Unread(lock: RwLock, t: Tid): RwLock {
    RwLock(lock.writer, lock.readers - {t})
  }

  function SweepEnded(s: State, t: Tid, d: DbId, hash: Hash): State
    requires t < |s.threads| && d < |s.dbs|
  {
    var db := s.dbs[d];
    s.SetDb(d, db.(pool := db.pool.(lock := Unread(db.pool.lock, t)),
                   feed := db.feed.(applied := db.feed.applied + [hash])))
    .Goto(t, Watching(d, Select))
  }

  function SweepFailed(s: State, t: Tid, d: DbId): State
    requires t < |s.threads| && d < |s.dbs|
  {
    s.SetLock(d, Unread(s.dbs[d].pool.lock, t)).Goto(t, Exiting(d, ExitStart))
  }

  /** The watcher's deferred exit (db/db.go:129-135, 248-256). */
  function ExitStep(s: State, t: Tid, d: DbId, exit: ExitPc, ch: Choice): Option<State>
    requires t < |s.threads| && d < |s.dbs|
  {
    match exit
    case ExitStart => if ch.Go? then LockRegistry(s, t, Exiting(d, ExitUnsub)) else None
    case ExitUnsub =>
      if ch.Go? then
        Some(s.(regMtx := None, ledger := s.ledger.(subs := s.ledger.subs - {d})).Goto(t, Exiting(d, ExitClose)))
      else None
    case ExitClose =>
      if ch.Go? then Some(s.SetDb(d, s.dbs[d].(closed := true)).Goto(t, Exiting(d, ExitConns))) else None
    case ExitConns => if ch.Go? then ExitLockConns(s, t, d) else None
    case ExitDrain =>
      if ch.Take? && ch.n in s.dbs[d].pool.conns then Some(s.Goto(t, Exiting(d, ExitSelf(ch.n))))
      else if ch.Go? && s.dbs[d].pool.conns == {} then
        Some(s.SetPool(d, s.dbs[d].pool.(dropped := true, lock := UNLOCKED)).Goto(t, Exiting(d, ExitDb)))
      else None
    // conn.Close locks connsMtx again, through removeConn
    case ExitSelf(c) => if ch.Go? then ExitLockConns(s, t, d) else None
    case ExitDb =>
      if ch.Go? && s.dbMtx.None? then Some(s.(dbMtx := Some(t)).Goto(t, Exiting(d, ExitDelete))) else None
    case ExitDelete =>
      if ch.Go? then
        Some(s.(dbMtx := None, byName := s.byName - {s.dbs[d].name}).Goto(t, Exiting(d, Exited)))
      else None
    case Exited => None
  }

  function ExitLockConns(s: State, t: Tid, d: DbId): Option<State>
    requires t < |s.threads| && d < |s.dbs|
  {
    if s.dbs[d].pool.lock.Free() then
      Some(s.SetLock(d, RwLock(Some(t), {})).Goto(t, Exiting(d, ExitDrain)))
    else None
  }

  // ------------------------------------------------------------------ actions

  /** The step of one thread, whatever it is running. */
  function Step(w: World, s: State, t: Tid, ch: Choice): Option<State>
    requires t < |s.threads|
  {
    match s.threads[t]
    case Idle => None
    case Opening(at) => OpenStep(w, s, t, at, ch)
    case Closing(c, stage) => CloseStep(s, t, c, stage, ch)
    case Setting(phase) => SetStep(w, s, t, phase, ch)
    case Committing(part) => CommitStep(w, s, t, part, ch)
    case Watching(d, loop) => if d < |s.dbs| then WatchStep(s, t, d, loop, ch) else None
    case Exiting(d, exit) => if d < |s.dbs| then ExitStep(s, t, d, exit, ch) else None
  }

  /** The operations an idle thread may begin. A Conn can be closed once
      Driver.Open has returned it, any number of times. */
  predicate CanBegin(s: State, pc: Pc) {
    match pc
    case Opening(at) => at.OpenStart?
    case Closing(c, stage) => stage.CloseWait? && c < |s.sql.conns| && s.sql.conns[c].joined.Some?
    case Setting(phase) => phase.SetStart?
    case Committing(part) => part.CommitStart?
    case _ => false
  }

  /** Spawn adds a caller thread, Begin starts an operation on an idle one, Run
      lets a thread take its step, and Write is a SQLite transaction changing
      the file behind an open handle. */
  datatype Action = Spawn | Begin(t: Tid, pc: Pc) | Run(t: Tid, ch: Choice) | Write(h: HandleId, content: Bytes)

  function WriteStep(s: State, h: HandleId, content: Bytes): Option<State> {
    if h < |s.sql.handles| && h !in s.sql.closed && s.sql.handles[h].inode < |s.disk.files| then
      var i := s.sql.handles[h].inode;
      var file := s.disk.files[i];
      Some(s.(disk := s.disk.(files := s.disk.files[i := file.(content := content, version := file.version + 1)])))
    else None
  }

  function Next(w: World, s: State, a: Action): Option<State> {
    if s.crashed then None
    else
      match a
      case Spawn => Some(s.(threads := s.threads + [Idle]))
      case Begin(t, pc) =>
        if t < |s.threads| && s.threads[t].Idle? && CanBegin(s, pc) then Some(s.Goto(t, pc)) else None
      case Run(t, ch) => if t < |s.threads| then Step(w, s, t, ch) else None
      case Write(h, content) => WriteStep(s, h, content)
  }

  /** A finite behaviour: it starts with nothing open and follows the actions. */
  ghost predicate Behaviour(w: World, run: seq<State>, actions: seq<Action>) {
    && |run| == |actions| + 1
    && run[0] == INIT
    && forall i :: 0 <= i < |actions| ==> Next(w, run[i], actions[i]) == Some(run[i + 1])
  }
}
