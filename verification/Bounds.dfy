/** Every index the protocol stores is in range, in every reachable state. */
module Bounds {
  import opened Values
  import opened Refresh

  predicate FetchBounded(s: State, f: Fetch) {
    f.tmp.Some? ==> f.tmp.value < |s.disk.files|
  }

  predicate OpenBounded(s: State, at: OpenPc) {
    match at
    case OpenFetch(_, _, f) => FetchBounded(s, f)
    case OpenSubscribe(name, _, _) => |s.disk.Links(name)| > 0
    case OpenAttach(name, _, _) => |s.disk.Links(name)| > 0
    case OpenInstall(d) => d < |s.dbs|
    case OpenSpawn(d) => d < |s.dbs|
    case OpenReturn(r) => r.Some? ==> r.value < |s.dbs|
    case OpenConn(d) => d < |s.dbs|
    case OpenAdd(c) => c < |s.sql.conns|
    case OpenAdding(c) => c < |s.sql.conns|
    case _ => true
  }

  predicate SetBounded(s: State, phase: SetPc) {
    match phase
    case SetNext(_, _, todo) => forall d | d in todo :: d < |s.dbs|
    case SetSend(_, _, d, todo) => d < |s.dbs| && forall e | e in todo :: e < |s.dbs|
    case _ => true
  }

  predicate CommitBounded(s: State, part: CommitPc) {
    match part
    case CommitStart(_) => true
    case CommitStat(_, i, _, _) => i < |s.disk.files|
    case CommitRead(_, i, _, _, _, _) => i < |s.disk.files|
  }

  predicate ConnOf(s: State, c: ConnId, d: DbId) {
    c < |s.sql.conns| && s.sql.conns[c].db == d
  }

  predicate WatchBounded(s: State, d: DbId, loop: WatchPc) {
    match loop
    case Select => true
    case Refetch(f) => FetchBounded(s, f)
    case SweepStart(_) => true
    case Sweep(_, cs) => forall c | c in cs :: ConnOf(s, c, d)
    case SweepStore(_, cs, c, h) =>
      ConnOf(s, c, d) && h < |s.sql.handles| && forall e | e in cs :: ConnOf(s, e, d)
  }

  predicate PcBounded(s: State, pc: Pc) {
    match pc
    case Idle => true
    case Opening(at) => OpenBounded(s, at)
    case Closing(c, _) => c < |s.sql.conns|
    case Setting(phase) => SetBounded(s, phase)
    case Committing(part) => CommitBounded(s, part)
    case Watching(d, loop) => d < |s.dbs| && WatchBounded(s, d, loop)
    case Exiting(d, _) => d < |s.dbs|
  }

  ghost predicate DbBounded(s: State, d: DbId)
    requires d < |s.dbs|
  {
    && |s.disk.Links(s.dbs[d].name)| > 0
    && (s.dbs[d].watcher.Some? ==> s.dbs[d].watcher.value < |s.threads|)
    && (forall c :: c in s.dbs[d].pool.conns ==> ConnOf(s, c, d))
  }

  ghost predicate LinksBounded(disk: Disk) {
    forall n, k :: n in disk.links && 0 <= k < |disk.links[n]| ==> disk.links[n][k].inode < |disk.files|
  }

  /** dbs and files are the numbers of db objects and of files. */
  ghost predicate SqlBounded(sql: Sql, dbs: nat, files: nat) {
    && (forall c :: 0 <= c < |sql.conns| ==> sql.conns[c].db < dbs && sql.conns[c].handle < |sql.handles|)
    && (forall h :: 0 <= h < |sql.handles| ==> sql.handles[h].conn < |sql.conns| && sql.handles[h].inode < files)
  }

  ghost predicate NamesBounded(s: State) {
    && (forall n :: n in s.byName ==> s.byName[n] < |s.dbs| && s.dbs[s.byName[n]].name == n)
    && (forall d :: d in s.ledger.subs ==> d < |s.dbs|)
  }

  ghost predicate ThreadsBounded(s: State) {
    forall t :: 0 <= t < |s.threads| ==> PcBounded(s, s.threads[t])
  }

  ghost predicate DbsBounded(s: State) {
    forall d :: 0 <= d < |s.dbs| ==> DbBounded(s, d)
  }

  ghost predicate Bounded(s: State) {
    && ThreadsBounded(s) && DbsBounded(s) && SqlBounded(s.sql, |s.dbs|, |s.disk.files|)
    && NamesBounded(s) && LinksBounded(s.disk)
  }

  // ----------------------------------------------------------- preservation

  /** No index that was valid becomes invalid. */
  ghost predicate Grows(s: State, s': State) {
    && |s.threads| <= |s'.threads|
    && |s.dbs| <= |s'.dbs|
    && |s.sql.handles| <= |s'.sql.handles|
    && |s.disk.files| <= |s'.disk.files|
    && |s.sql.conns| <= |s'.sql.conns|
    && (forall c :: 0 <= c < |s.sql.conns| ==> s'.sql.conns[c].db == s.sql.conns[c].db)
    && (forall n :: |s.disk.Links(n)| > 0 ==> |s'.disk.Links(n)| > 0)
  }

  lemma PcStaysBounded(s: State, s': State, pc: Pc)
    requires Grows(s, s') && PcBounded(s, pc)
    ensures PcBounded(s', pc)
  {
  }

  /** Threads that did not move keep their bounds. */
  lemma ThreadsStayBounded(s: State, s': State)
    requires ThreadsBounded(s) && Grows(s, s')
    requires forall t :: 0 <= t < |s'.threads| ==>
      PcBounded(s', s'.threads[t]) || (t < |s.threads| && s'.threads[t] == s.threads[t])
    ensures ThreadsBounded(s')
  {
    forall t | 0 <= t < |s'.threads| ensures PcBounded(s', s'.threads[t]) {
      if t < |s.threads| && s'.threads[t] == s.threads[t] {
        PcStaysBounded(s, s', s.threads[t]);
      }
    }
  }

  /** A db whose watcher and Conns did not change keeps its bounds. */
  lemma DbsStayBounded(s: State, s': State)
    requires DbsBounded(s) && Grows(s, s')
    requires forall d :: 0 <= d < |s'.dbs| ==>
      DbBounded(s', d) ||
      (d < |s.dbs| && s'.dbs[d].name == s.dbs[d].name && s'.dbs[d].watcher == s.dbs[d].watcher
       && s'.dbs[d].pool.conns <= s.dbs[d].pool.conns)
    ensures DbsBounded(s')
  {
    forall d | 0 <= d < |s'.dbs| ensures DbBounded(s', d) {
      if d < |s.dbs| { assert DbBounded(s, d); }
    }
  }

  lemma FetchBounds(disk: Disk, t: Tid, name: string, f: Fetch, ch: Choice, disk': Disk, p: Progress)
    requires LinksBounded(disk) && FetchStep(disk, t, name, f, ch) == Some((disk', p))
    ensures LinksBounded(disk') && |disk.files| <= |disk'.files|
    ensures forall n :: |disk.Links(n)| > 0 ==> |disk'.Links(n)| > 0
    ensures p.Renamed? ==> |disk'.Links(name)| > 0
    ensures p.Running? && p.fetch.tmp.Some? ==> p.fetch.tmp.value < |disk'.files|
  {
  }

  lemma BoundedOpenFetch(s: State, t: Tid, name: string, seen: nat, f: Fetch, ch: Choice, s': State)
    requires Bounded(s) && t < |s.threads| && s.threads[t] == Opening(OpenFetch(name, seen, f))
    requires OpenFetching(s, t, name, seen, f, ch) == Some(s')
    ensures Bounded(s')
  {
    hide WatchBounded, SetBounded, CommitBounded, LinksBounded;
    assert PcBounded(s, s.threads[t]);
    var (disk, p) := FetchStep(s.disk, t, name, f, ch).value;
    FetchBounds(s.disk, t, name, f, ch, disk, p);
    hide FetchStep;
    ThreadsStayBounded(s, s');
    DbsStayBounded(s, s');
  }

  lemma BoundedOpenAttach(w: World, s: State, t: Tid, name: string, seen: nat, hash: Hash, s': State)
    requires Bounded(s) && t < |s.threads| && s.threads[t] == Opening(OpenAttach(name, seen, hash))
    requires OpenAttached(w, s, t, name, seen, hash) == s'
    ensures Bounded(s')
  {
    assert PcBounded(s, s.threads[t]);
    ThreadsStayBounded(s, s');
    assert DbBounded(s', |s.dbs|);
    DbsStayBounded(s, s');
  }

  lemma BoundedOpenSpawn(s: State, t: Tid, d: DbId, s': State)
    requires Bounded(s) && t < |s.threads| && s.threads[t] == Opening(OpenSpawn(d))
    requires OpenSpawned(s, t, d) == Some(s')
    ensures Bounded(s')
  {
    assert PcBounded(s, s.threads[t]) && DbBounded(s, d);
    ThreadsStayBounded(s, s');
    assert DbBounded(s', d);
    DbsStayBounded(s, s');
  }

  lemma BoundedOpenConn(s: State, t: Tid, d: DbId, s': State)
    requires Bounded(s) && t < |s.threads| && s.threads[t] == Opening(OpenConn(d))
    requires OpenNewConn(s, t, d) == Some(s')
    ensures Bounded(s')
  {
    assert PcBounded(s, s.threads[t]);
    ThreadsStayBounded(s, s');
    DbsStayBounded(s, s');
  }

  lemma BoundedOpenAdd(s: State, t: Tid, c: ConnId, ends: bool, s': State)
    requires Bounded(s) && t < |s.threads| && s.threads[t] == Opening(OpenAdding(c))
    requires OpenAdded(s, t, c, ends) == Some(s')
    ensures Bounded(s')
  {
    hide WatchBounded, SetBounded, CommitBounded, LinksBounded;
    assert PcBounded(s, s.threads[t]) && DbBounded(s, s.sql.conns[c].db);
    ThreadsStayBounded(s, s');
    DbsStayBounded(s, s');
  }

  lemma BoundedOpenMove(w: World, s: State, t: Tid, at: OpenPc, ch: Choice, s': State)
    requires Bounded(s) && t < |s.threads| && s.threads[t] == Opening(at) && OpenStep(w, s, t, at, ch) == Some(s')
    requires !at.OpenFetch? && !at.OpenAttach? && !at.OpenSpawn? && !at.OpenConn? && !at.OpenAdding?
    requires !at.OpenAdd? && !at.OpenInstall?
    ensures Bounded(s')
  {
    hide LockConns, OpenInstalled;
    hide WatchBounded, SetBounded, CommitBounded, LinksBounded, SqlBounded, DbBounded;
    hide OpenFetching, OpenAttached, OpenSpawned, OpenNewConn, OpenAdded;
    assert PcBounded(s, s.threads[t]);
    ThreadsStayBounded(s, s');
    DbsStayBounded(s, s');
  }

  lemma BoundedOpenWait(s: State, t: Tid, c: ConnId, s': State)
    requires Bounded(s) && t < |s.threads| && s.threads[t] == Opening(OpenAdd(c))
    requires LockConns(s, t, c, Opening(OpenAdding(c))) == Some(s')
    ensures Bounded(s')
  {
    hide WatchBounded, SetBounded, CommitBounded, LinksBounded, SqlBounded, DbBounded;
    assert PcBounded(s, s.threads[t]);
    ThreadsStayBounded(s, s');
    DbsStayBounded(s, s');
  }

  lemma BoundedOpenInstall(s: State, t: Tid, d: DbId, s': State)
    requires Bounded(s) && t < |s.threads| && s.threads[t] == Opening(OpenInstall(d))
    requires OpenInstalled(s, t, d) == Some(s')
    ensures Bounded(s')
  {
    hide WatchBounded, SetBounded, CommitBounded, LinksBounded, SqlBounded, DbBounded;
    assert PcBounded(s, s.threads[t]);
    ThreadsStayBounded(s, s');
    DbsStayBounded(s, s');
  }

  lemma BoundedOpen(w: World, s: State, t: Tid, at: OpenPc, ch: Choice, s': State)
    requires Bounded(s) && t < |s.threads| && s.threads[t] == Opening(at) && OpenStep(w, s, t, at, ch) == Some(s')
    ensures Bounded(s')
  {
    match at
    case OpenFetch(name, seen, f) => BoundedOpenFetch(s, t, name, seen, f, ch, s');
    case OpenAttach(name, seen, hash) => BoundedOpenAttach(w, s, t, name, seen, hash, s');
    case OpenSpawn(d) => BoundedOpenSpawn(s, t, d, s');
    case OpenConn(d) =>
      if ch.Go? {
        BoundedOpenConn(s, t, d, s');
      } else {
        ThreadsStayBounded(s, s');
        DbsStayBounded(s, s');
      }
    case OpenAdd(c) => BoundedOpenWait(s, t, c, s');
    case OpenInstall(d) => BoundedOpenInstall(s, t, d, s');
    case OpenAdding(c) => BoundedOpenAdd(s, t, c, ch.Fail?, s');
    case _ => BoundedOpenMove(w, s, t, at, ch, s');
  }

  lemma BoundedClose(s: State, t: Tid, c: ConnId, stage: ClosePc, ch: Choice, s': State)
    requires Bounded(s) && t < |s.threads| && s.threads[t] == Closing(c, stage)
    requires CloseStep(s, t, c, stage, ch) == Some(s')
    ensures Bounded(s')
  {
    assert PcBounded(s, s.threads[t]);
    ThreadsStayBounded(s, s');
    DbsStayBounded(s, s');
  }

  lemma BoundedSet(w: World, s: State, t: Tid, phase: SetPc, ch: Choice, s': State)
    requires Bounded(s) && t < |s.threads| && s.threads[t] == Setting(phase) && SetStep(w, s, t, phase, ch) == Some(s')
    ensures Bounded(s')
  {
    hide OpenBounded, CommitBounded, LinksBounded, SqlBounded, DbBounded;
    assert PcBounded(s, s.threads[t]);
    ThreadsStayBounded(s, s');
    DbsStayBounded(s, s');
  }

  lemma BoundedCommit(w: World, s: State, t: Tid, part: CommitPc, ch: Choice, s': State)
    requires Bounded(s) && t < |s.threads| && s.threads[t] == Committing(part)
    requires CommitStep(w, s, t, part, ch) == Some(s')
    ensures Bounded(s')
  {
    assert PcBounded(s, s.threads[t]);
    ThreadsStayBounded(s, s');
    DbsStayBounded(s, s');
  }

  lemma BoundedRefetch(s: State, t: Tid, d: DbId, f: Fetch, ch: Choice, s': State)
    requires Bounded(s) && t < |s.threads| && s.threads[t] == Watching(d, Refetch(f))
    requires d < |s.dbs| && Refetching(s, t, d, f, ch) == Some(s')
    ensures Bounded(s')
  {
    hide OpenBounded, SetBounded, CommitBounded, LinksBounded;
    assert PcBounded(s, s.threads[t]);
    var (disk, p) := FetchStep(s.disk, t, s.dbs[d].name, f, ch).value;
    FetchBounds(s.disk, t, s.dbs[d].name, f, ch, disk, p);
    hide FetchStep;
    ThreadsStayBounded(s, s');
    DbsStayBounded(s, s');
  }

  lemma BoundedSweepOpen(s: State, t: Tid, d: DbId, hash: Hash, conns: set<ConnId>, c: ConnId, s': State)
    requires Bounded(s) && t < |s.threads| && s.threads[t] == Watching(d, Sweep(hash, conns)) && c in conns
    requires d < |s.dbs| && s.CanOpen(d) && SweepOpened(s, t, d, hash, conns, c) == s'
    ensures Bounded(s')
  {
    assert PcBounded(s, s.threads[t]);
    ThreadsStayBounded(s, s');
    DbsStayBounded(s, s');
  }

  lemma BoundedSweepStore(s: State, t: Tid, d: DbId, loop: WatchPc, ch: Choice, s': State)
    requires Bounded(s) && t < |s.threads| && s.threads[t] == Watching(d, loop) && loop.SweepStore?
    requires d < |s.dbs| && WatchStep(s, t, d, loop, ch) == Some(s')
    ensures Bounded(s')
  {
    assert PcBounded(s, s.threads[t]);
    ThreadsStayBounded(s, s');
    DbsStayBounded(s, s');
  }

  lemma BoundedSweep(s: State, t: Tid, d: DbId, loop: WatchPc, ch: Choice, s': State)
    requires Bounded(s) && t < |s.threads| && s.threads[t] == Watching(d, loop)
    requires !loop.Refetch? && !loop.SweepStore? && !ch.Take?
    requires d < |s.dbs| && WatchStep(s, t, d, loop, ch) == Some(s')
    ensures Bounded(s')
  {
    hide SqlBounded, LinksBounded;
    assert PcBounded(s, s.threads[t]) && DbBounded(s, d);
    ThreadsStayBounded(s, s');
    DbsStayBounded(s, s');
  }

  lemma BoundedWatch(s: State, t: Tid, d: DbId, loop: WatchPc, ch: Choice, s': State)
    requires Bounded(s) && t < |s.threads| && s.threads[t] == Watching(d, loop)
    requires d < |s.dbs| && WatchStep(s, t, d, loop, ch) == Some(s')
    ensures Bounded(s')
  {
    match loop
    case Refetch(f) => BoundedRefetch(s, t, d, f, ch, s');
    case SweepStore(_, _, _, _) => BoundedSweepStore(s, t, d, loop, ch, s');
    case Sweep(hash, conns) =>
      if ch.Take? {
        BoundedSweepOpen(s, t, d, hash, conns, ch.n, s');
      } else {
        BoundedSweep(s, t, d, loop, ch, s');
      }
    case _ => BoundedSweep(s, t, d, loop, ch, s');
  }

  lemma BoundedExit(s: State, t: Tid, d: DbId, exit: ExitPc, ch: Choice, s': State)
    requires Bounded(s) && t < |s.threads| && s.threads[t] == Exiting(d, exit)
    requires d < |s.dbs| && ExitStep(s, t, d, exit, ch) == Some(s')
    ensures Bounded(s')
  {
    assert PcBounded(s, s.threads[t]);
    ThreadsStayBounded(s, s');
    DbsStayBounded(s, s');
  }

  lemma BoundedNext(w: World, s: State, a: Action, s': State)
    requires Bounded(s) && Next(w, s, a) == Some(s')
    ensures Bounded(s')
  {
    match a
    case Spawn =>
      ThreadsStayBounded(s, s');
      DbsStayBounded(s, s');
    case Begin(t, pc) =>
      ThreadsStayBounded(s, s');
      DbsStayBounded(s, s');
    case Write(h, content) =>
      ThreadsStayBounded(s, s');
      DbsStayBounded(s, s');
    case Run(t, ch) =>
      match s.threads[t]
      case Opening(at) => BoundedOpen(w, s, t, at, ch, s');
      case Closing(c, stage) => BoundedClose(s, t, c, stage, ch, s');
      case Setting(phase) => BoundedSet(w, s, t, phase, ch, s');
      case Committing(part) => BoundedCommit(w, s, t, part, ch, s');
      case Watching(d, loop) => BoundedWatch(s, t, d, loop, ch, s');
      case Exiting(d, exit) => BoundedExit(s, t, d, exit, ch, s');
  }
}
