/**
 Deadlocks: a thread in the middle of an operation waits, directly or not, for a
 thread that can step, unless it is blocked for ever in one of two ways, both of
 which begin with a failed refresh.
 */
module Liveness {
  import opened Values
  import opened Refresh
  import opened Bounds
  import opened Locks
  import opened Watchers
  import opened Delivery
  import opened Disks
  import opened Runs

  /** In the middle of an operation: not idle, not a watcher at its select, and
      not a watcher that has gone. */
  predicate Busy(pc: Pc) {
    && !pc.Idle?
    && !(pc.Watching? && pc.loop.Select?)
    && !(pc.Exiting? && pc.exit.Exited?)
  }

  /** Choice ch does not fail an open or a refresh, unless it is to fetch a hash
      the store cannot deliver. */
  predicate Gentle(disk: Disk, pc: Pc, ch: Choice) {
    ch.Fail? ==>
      match pc
      case Committing(_) => true
      case Opening(at) => at.OpenFetch? && !disk.Available(at.fetch.hash)
      case Watching(_, loop) => loop.Refetch? && !disk.Available(loop.fetch.hash)
      case _ => false
  }

  /** Thread t can take a step, without failing if it need not. */
  ghost predicate CanStep(w: World, s: State, t: Tid) {
    t < |s.threads| && exists ch :: Step(w, s, t, ch).Some? && Gentle(s.disk, s.threads[t], ch)
  }

  ghost predicate SomeStep(w: World, s: State) {
    !s.crashed && exists t :: CanStep(w, s, t)
  }

  /** A failed watcher that found registered Conns waits for a lock it holds. */
  predicate SelfBlocked(s: State, t: Tid) {
    t < |s.threads| && s.threads[t].Exiting? && s.threads[t].exit.ExitSelf?
  }

  /** Publisher p sends to a failed watcher t that waits for p's mutex. */
  predicate MutuallyBlocked(s: State, p: Tid, t: Tid) {
    && p < |s.threads| && t < |s.threads|
    && s.threads[p].Setting? && s.threads[p].phase.SetSend?
    && s.threads[t] == Exiting(s.threads[p].phase.d, ExitStart)
    && s.threads[p].phase.d < |s.dbs| && s.dbs[s.threads[p].phase.d].watcher == Some(t)
  }

  lemma StepCounts(w: World, s: State, t: Tid)
    requires t < |s.threads|
    ensures forall ch :: Step(w, s, t, ch).Some? && Gentle(s.disk, s.threads[t], ch) ==> CanStep(w, s, t)
  {
  }

  /** A fetch of bytes the store has can go on. */
  lemma FetchGoesOn(disk: Disk, t: Tid, name: string, f: Fetch)
    requires TmpOk(disk, t, f) && disk.Available(f.hash)
    ensures FetchStep(disk, t, name, f, Go).Some? || FetchStep(disk, t, name, f, Take(1)).Some?
  {
  }

  // --------------------------------------------------------- who waits for whom

  /** The thread is about to lock dbMtx. */
  predicate NeedsDbMtx(pc: Pc) {
    (pc.Opening? && pc.at.OpenStart?) || (pc.Exiting? && pc.exit.ExitDb?)
  }

  /** The thread is about to lock the registry mutex. */
  predicate NeedsRegMtx(pc: Pc) {
    || (pc.Opening? && (pc.at.OpenGraph? || pc.at.OpenSubscribe?))
    || (pc.Setting? && pc.phase.SetStart?)
    || (pc.Exiting? && pc.exit.ExitStart?)
  }

  /** The thread is about to lock the connsMtx of db d for writing, in addConn or
      removeConn. */
  predicate NeedsConns(s: State, pc: Pc, d: DbId) {
    || (pc.Opening? && pc.at.OpenAdd? && s.HasConn(pc.at.c) && s.sql.conns[pc.at.c].db == d)
    || (pc.Closing? && pc.stage.CloseWait? && s.HasConn(pc.c) && s.sql.conns[pc.c].db == d)
  }

  /** Thread t cannot go on before thread u has: u holds the mutex t is about to
      lock, or is the watcher that t sends to, or the opener about to start it. */
  predicate WaitsFor(s: State, t: Tid, u: Tid) {
    && t < |s.threads| && u < |s.threads|
    && var pc := s.threads[t];
       || (NeedsDbMtx(pc) && s.dbMtx == Some(u))
       || (NeedsRegMtx(pc) && s.regMtx == Some(u))
       || (pc.Opening? && pc.at.OpenAdd? && s.HasConn(pc.at.c) && HoldsConns(s, s.sql.conns[pc.at.c].db, u))
       || (pc.Closing? && pc.stage.CloseWait? && s.HasConn(pc.c) && HoldsConns(s, s.sql.conns[pc.c].db, u))
       || (pc.Exiting? && (pc.exit.ExitConns? || pc.exit.ExitSelf?) && HoldsConns(s, pc.d, u))
       || (pc.Watching? && pc.loop.SweepStart? && pc.d < |s.dbs| && s.dbs[pc.d].pool.lock.writer == Some(u))
       || (pc.Setting? && pc.phase.SetSend? && pc.phase.d < |s.dbs|
           && (if s.dbs[pc.phase.d].watcher.Some? then s.dbs[pc.phase.d].watcher == Some(u) else s.dbMtx == Some(u)))
  }

  predicate HoldsConns(s: State, d: DbId, u: Tid) {
    d < |s.dbs| && (s.dbs[d].pool.lock.writer == Some(u) || u in s.dbs[d].pool.lock.readers)
  }

  /** Following the waits from t, at most n of them, reaches a thread that can
      step. */
  ghost predicate Leads(w: World, s: State, t: Tid, n: nat)
    decreases n
  {
    CanStep(w, s, t) || (n > 0 && exists u: Tid :: WaitsFor(s, t, u) && Leads(w, s, u, n - 1))
  }

  /** The process lives, and t can step, or what it waits for moves on. */
  ghost predicate MovesOn(w: World, s: State, t: Tid) {
    !s.crashed && exists n: nat :: Leads(w, s, t, n)
  }

  /** A failed watcher waiting for itself, or a thread that needs the connsMtx
      such a watcher holds. */
  ghost predicate BlockedBySelf(s: State, t: Tid) {
    && t < |s.threads|
    && (SelfBlocked(s, t)
        || exists u: Tid :: SelfBlocked(s, u) && NeedsConns(s, s.threads[t], s.threads[u].d))
  }

  /** Publisher p and failed watcher u wait for each other, and t is one of them,
      or needs the registry mutex, or needs dbMtx while its holder needs the
      registry mutex. */
  ghost predicate BlockedByPair(s: State, t: Tid, p: Tid, u: Tid) {
    && t < |s.threads| && MutuallyBlocked(s, p, u)
    && (t == p || NeedsRegMtx(s.threads[t])
        || (NeedsDbMtx(s.threads[t]) && s.dbMtx.Some? && s.dbMtx.value < |s.threads|
            && NeedsRegMtx(s.threads[s.dbMtx.value])))
  }

  ghost predicate Blocked(s: State, t: Tid) {
    BlockedBySelf(s, t) || exists p, u :: BlockedByPair(s, t, p, u)
  }

  // -------------------------------------------- following the wait for a lock

  lemma {:induction false} LeadsMore(w: World, s: State, t: Tid, n: nat, m: nat)
    requires Leads(w, s, t, n) && n <= m
    ensures Leads(w, s, t, m)
    decreases n
  {
    if !CanStep(w, s, t) {
      var u: Tid :| WaitsFor(s, t, u) && Leads(w, s, u, n - 1);
      LeadsMore(w, s, u, n - 1, m - 1);
    }
  }

  /** Whoever holds a connsMtx for writing can step, unless it waits for itself. */
  lemma ConnsWriterMoves(w: World, s: State, d: DbId, t: Tid)
    requires Inv(w, s) && d < |s.dbs| && s.dbs[d].pool.lock.writer == Some(t)
    ensures t < |s.threads| && Writes(s.sql.conns, s.threads[t], d)
    ensures CanStep(w, s, t) || (SelfBlocked(s, t) && s.threads[t].d == d)
  {
    assert PoolHeld(s, d) && Writes(s.sql.conns, s.threads[t], d) && PcBounded(s, s.threads[t]);
    StepCounts(w, s, t);
    var go, fail := Step(w, s, t, Go), Step(w, s, t, Fail);
    match s.threads[t]
    case Exiting(_, exit) =>
      if exit.ExitDrain? && s.dbs[d].pool.conns != {} {
        var c :| c in s.dbs[d].pool.conns;
        assert Step(w, s, t, Take(c)).Some?;
      }
    case _ =>
  }

  /** A watcher in its loop moves on: the connsMtx it needs is not held by a
      failed watcher, since it is the only one of its db. */
  lemma WatcherMoves(w: World, s: State, t: Tid, d: DbId, loop: WatchPc)
    requires Inv(w, s) && t < |s.threads| && s.threads[t] == Watching(d, loop) && !loop.Select?
    ensures Leads(w, s, t, 1)
  {
    assert PcBounded(s, s.threads[t]);
    StepCounts(w, s, t);
    var go, fail := Step(w, s, t, Go), Step(w, s, t, Fail);
    match loop
    case Refetch(f) => FetcherMoves(w, s, t, d, f);
    case SweepStart(_) =>
      if s.dbs[d].pool.lock.writer.Some? { SweeperMoves(w, s, t, d); }
    case Sweep(_, cs) =>
      if cs != {} {
        var c :| c in cs;
        assert DbBounded(s, d) && Step(w, s, t, Take(c)).Some?;
      }
    case SweepStore(_, _, _, _) =>
  }

  lemma FetcherMoves(w: World, s: State, t: Tid, d: DbId, f: Fetch)
    requires Inv(w, s) && t < |s.threads| && s.threads[t] == Watching(d, Refetch(f)) && d < |s.dbs|
    ensures CanStep(w, s, t)
  {
    StepCounts(w, s, t);
    var go, fail, take := Step(w, s, t, Go), Step(w, s, t, Fail), Step(w, s, t, Take(1));
    assert DiskPcOk(s.disk, t, s.threads[t]);
    if s.disk.Available(f.hash) { FetchGoesOn(s.disk, t, s.dbs[d].name, f); }
  }

  lemma SweeperMoves(w: World, s: State, t: Tid, d: DbId)
    requires Inv(w, s) && t < |s.threads| && d < |s.dbs| && s.threads[t].Watching? && s.threads[t].d == d
    requires s.threads[t].loop.SweepStart? && s.dbs[d].pool.lock.writer.Some?
    ensures Leads(w, s, t, 1)
  {
    var u := s.dbs[d].pool.lock.writer.value;
    ConnsWriterMoves(w, s, d, u);
    assert PartOk(s, t) && PartOk(s, u);
    assert WaitsFor(s, t, u) && Leads(w, s, u, 0);
  }

  /** Some holder of a connsMtx moves on, unless it is a watcher that waits for
      itself. */
  lemma ConnsFreeUp(w: World, s: State, d: DbId) returns (u: Tid)
    requires Inv(w, s) && d < |s.dbs| && !s.dbs[d].pool.lock.Free()
    ensures HoldsConns(s, d, u) && u < |s.threads|
    ensures Leads(w, s, u, 1) || (SelfBlocked(s, u) && s.threads[u].d == d)
  {
    assert PoolHeld(s, d);
    if s.dbs[d].pool.lock.writer.Some? {
      u := s.dbs[d].pool.lock.writer.value;
      ConnsWriterMoves(w, s, d, u);
    } else {
      u :| u in s.dbs[d].pool.lock.readers;
      assert Reads(s.threads[u], d);
      WatcherMoves(w, s, u, d, s.threads[u].loop);
    }
  }

  /** An opener that has not yet spawned its watcher can go on. */
  lemma SpawnerMoves(w: World, s: State, d: DbId)
    requires Inv(w, s) && d < |s.dbs| && s.dbs[d].watcher.None?
    ensures s.dbMtx.Some? && CanStep(w, s, s.dbMtx.value)
  {
    assert Tended(s, d);
    var t := s.dbMtx.value;
    assert PcBounded(s, s.threads[t]);
    StepCounts(w, s, t);
    assert Step(w, s, t, Go).Some?;
  }

  lemma SendCompletes(w: World, s: State, p: Tid, addr: Address, hash: Hash, d: DbId, todo: set<DbId>)
    requires Inv(w, s) && p < |s.threads| && s.threads[p] == Setting(SetSend(addr, hash, d, todo))
    ensures Leads(w, s, p, 2) || exists u :: MutuallyBlocked(s, p, u)
  {
    assert PublisherOk(s, MailOf(s.threads[p]));
    assert FeedOk(s, d) && Tended(s, d);
    match s.dbs[d].watcher
    case None =>
      SpawnerMoves(w, s, d);
      assert WaitsFor(s, p, s.dbMtx.value) && Leads(w, s, s.dbMtx.value, 1);
    case Some(t) =>
      assert HoldsRegMtx(s.threads[p]) && s.regMtx == Some(p);
      StepCounts(w, s, p);
      var go, fail := Step(w, s, p, Go), Step(w, s, p, Fail);
      match s.threads[t]
      case Watching(_, loop) =>
        if !loop.Select? {
          WatcherMoves(w, s, t, d, loop);
          assert WaitsFor(s, p, t);
        }
      case Exiting(_, exit) =>
        assert HoldsRegMtx(s.threads[t]) <==> t == p;
        assert MutuallyBlocked(s, p, t);
  }

  /** The holder of the registry mutex moves on, unless it is a publisher that
      waits for a failed watcher. */
  lemma RegistryFreesUp(w: World, s: State, t: Tid)
    requires Inv(w, s) && s.regMtx == Some(t)
    ensures t < |s.threads| && (Leads(w, s, t, 2) || exists u :: MutuallyBlocked(s, t, u))
  {
    assert HoldsRegMtx(s.threads[t]) && PcBounded(s, s.threads[t]);
    StepCounts(w, s, t);
    var go, fail := Step(w, s, t, Go), Step(w, s, t, Fail);
    match s.threads[t]
    case Setting(SetNext(_, _, todo)) =>
      if todo != {} {
        var d :| d in todo;
        assert Step(w, s, t, Take(d)).Some?;
      }
    case Setting(SetSend(addr, hash, d, todo)) => SendCompletes(w, s, t, addr, hash, d, todo);
    case _ =>
  }

  /** A thread that needs the registry mutex moves on, unless a pair blocks it. */
  lemma RegistryComes(w: World, s: State, t: Tid)
    requires Inv(w, s) && t < |s.threads| && NeedsRegMtx(s.threads[t])
    ensures Leads(w, s, t, 3) || exists p, u :: BlockedByPair(s, t, p, u)
  {
    StepCounts(w, s, t);
    assert PcBounded(s, s.threads[t]);
    var go := Step(w, s, t, Go);
    if s.regMtx.Some? {
      var p := s.regMtx.value;
      RegistryFreesUp(w, s, p);
      assert WaitsFor(s, t, p);
      if u :| MutuallyBlocked(s, p, u) { assert BlockedByPair(s, t, p, u); }
    }
  }

  /** The holder of dbMtx moves on, unless it needs the registry mutex and a pair
      blocks it. */
  lemma DbMtxFreesUp(w: World, s: State, t: Tid)
    requires Inv(w, s) && s.dbMtx == Some(t)
    ensures t < |s.threads|
    ensures Leads(w, s, t, 3) || (NeedsRegMtx(s.threads[t]) && exists p, u :: BlockedByPair(s, t, p, u))
  {
    assert HoldsDbMtx(s.threads[t]) && PcBounded(s, s.threads[t]);
    if NeedsRegMtx(s.threads[t]) {
      RegistryComes(w, s, t);
    } else {
      StepCounts(w, s, t);
      var go, fail := Step(w, s, t, Go), Step(w, s, t, Fail);
      match s.threads[t]
      case Opening(OpenFetch(name, _, f)) =>
        assert DiskPcOk(s.disk, t, s.threads[t]);
        var take := Step(w, s, t, Take(1));
        if s.disk.Available(f.hash) { FetchGoesOn(s.disk, t, name, f); }
      case _ =>
    }
  }

  lemma DbMtxComes(w: World, s: State, t: Tid)
    requires Inv(w, s) && t < |s.threads| && NeedsDbMtx(s.threads[t])
    ensures Leads(w, s, t, 4) || exists p, u :: BlockedByPair(s, t, p, u)
  {
    StepCounts(w, s, t);
    assert PcBounded(s, s.threads[t]);
    var go := Step(w, s, t, Go);
    if s.dbMtx.Some? {
      var v := s.dbMtx.value;
      DbMtxFreesUp(w, s, v);
      assert WaitsFor(s, t, v);
      if !Leads(w, s, v, 3) {
        var p, u :| BlockedByPair(s, v, p, u);
        assert BlockedByPair(s, t, p, u);
      }
    }
  }

  /** A thread that needs a connsMtx moves on, unless a failed watcher that waits
      for itself holds it. */
  lemma ConnsCome(w: World, s: State, t: Tid, d: DbId)
    requires Inv(w, s) && t < |s.threads| && NeedsConns(s, s.threads[t], d)
    ensures Leads(w, s, t, 2) || BlockedBySelf(s, t)
  {
    StepCounts(w, s, t);
    var go := Step(w, s, t, Go);
    if !s.dbs[d].pool.lock.Free() {
      var u := ConnsFreeUp(w, s, d);
      assert WaitsFor(s, t, u);
    }
  }

  lemma OpenerMoves(w: World, s: State, t: Tid, at: OpenPc)
    requires Inv(w, s) && t < |s.threads| && s.threads[t] == Opening(at)
    ensures Leads(w, s, t, 4) || Blocked(s, t)
  {
    assert PcBounded(s, s.threads[t]);
    if HoldsDbMtx(s.threads[t]) {
      assert s.dbMtx == Some(t);
      DbMtxFreesUp(w, s, t);
      if Leads(w, s, t, 3) { LeadsMore(w, s, t, 3, 4); }
    } else {
      match at
      case OpenStart(_) => DbMtxComes(w, s, t);
      case OpenAdd(c) =>
        ConnsCome(w, s, t, s.sql.conns[c].db);
        if Leads(w, s, t, 2) { LeadsMore(w, s, t, 2, 4); }
      case OpenConn(d) =>
        StepCounts(w, s, t);
        assert DbBounded(s, d) && Step(w, s, t, Go).Some?;
      case OpenAdding(_) =>
        StepCounts(w, s, t);
        assert Step(w, s, t, Go).Some?;
    }
  }

  lemma ExiterMoves(w: World, s: State, t: Tid, d: DbId, exit: ExitPc)
    requires Inv(w, s) && t < |s.threads| && s.threads[t] == Exiting(d, exit) && !exit.Exited?
    ensures Leads(w, s, t, 4) || Blocked(s, t)
  {
    assert PcBounded(s, s.threads[t]);
    StepCounts(w, s, t);
    match exit
    case ExitStart =>
      RegistryComes(w, s, t);
      if Leads(w, s, t, 3) { LeadsMore(w, s, t, 3, 4); }
    case ExitConns =>
      assert s.dbs[d].pool.lock.Free() ==> Step(w, s, t, Go).Some?;
      if !s.dbs[d].pool.lock.Free() {
        var u := ConnsFreeUp(w, s, d);
        assert PartOk(s, t) && PartOk(s, u);
        assert WaitsFor(s, t, u);
        LeadsMore(w, s, t, 2, 4);
      }
    case ExitDrain =>
      assert PoolHeld(s, d) && Writes(s.sql.conns, s.threads[t], d);
      ConnsWriterMoves(w, s, d, t);
    case ExitSelf(_) => assert SelfBlocked(s, t);
    case ExitDb => DbMtxComes(w, s, t);
    case ExitUnsub => assert Step(w, s, t, Go).Some?;
    case ExitClose => assert Step(w, s, t, Go).Some?;
    case ExitDelete => assert Step(w, s, t, Go).Some?;
  }

  lemma SetterMoves(w: World, s: State, t: Tid, phase: SetPc)
    requires Inv(w, s) && t < |s.threads| && s.threads[t] == Setting(phase)
    ensures Leads(w, s, t, 4) || Blocked(s, t)
  {
    if phase.SetStart? {
      RegistryComes(w, s, t);
      if Leads(w, s, t, 3) { LeadsMore(w, s, t, 3, 4); }
    } else {
      assert HoldsRegMtx(s.threads[t]) && s.regMtx == Some(t);
      RegistryFreesUp(w, s, t);
      if Leads(w, s, t, 2) {
        LeadsMore(w, s, t, 2, 4);
      } else {
        var u :| MutuallyBlocked(s, t, u);
        assert BlockedByPair(s, t, t, u);
      }
    }
  }

  lemma BusyMoves(w: World, s: State, t: Tid)
    requires Inv(w, s) && t < |s.threads| && Busy(s.threads[t])
    ensures Leads(w, s, t, 4) || Blocked(s, t)
  {
    hide Leads, Blocked;
    assert PcBounded(s, s.threads[t]);
    match s.threads[t]
    case Opening(at) => OpenerMoves(w, s, t, at);
    case Closing(c, stage) => CloserMoves(w, s, t, c, stage);
    case Setting(phase) => SetterMoves(w, s, t, phase);
    case Committing(part) => CommitterMoves(w, s, t, part);
    case Watching(d, loop) =>
      WatcherMoves(w, s, t, d, loop);
      LeadsMore(w, s, t, 1, 4);
    case Exiting(d, exit) => ExiterMoves(w, s, t, d, exit);
  }

  lemma CloserMoves(w: World, s: State, t: Tid, c: ConnId, stage: ClosePc)
    requires Inv(w, s) && t < |s.threads| && s.threads[t] == Closing(c, stage)
    ensures Leads(w, s, t, 4) || Blocked(s, t)
  {
    assert PcBounded(s, s.threads[t]);
    if stage.CloseWait? {
      ConnsCome(w, s, t, s.sql.conns[c].db);
      if Leads(w, s, t, 2) { LeadsMore(w, s, t, 2, 4); }
    } else {
      StepCounts(w, s, t);
      assert Step(w, s, t, Go).Some?;
    }
  }

  lemma CommitterMoves(w: World, s: State, t: Tid, part: CommitPc)
    requires t < |s.threads| && s.threads[t] == Committing(part)
    ensures Leads(w, s, t, 4)
  {
    StepCounts(w, s, t);
    assert Step(w, s, t, Fail).Some?;
  }

  // ------------------------------------------------------- what is blocked stays

  lemma PairHolds(w: World, s: State, t: Tid, p: Tid, u: Tid)
    requires Inv(w, s) && BlockedByPair(s, t, p, u)
    ensures s.regMtx == Some(p) && NeedsRegMtx(s.threads[u])
  {
    assert HoldsRegMtx(s.threads[p]);
  }

  /** A blocked thread cannot step, whatever it chooses. */
  lemma BlockedCannot(w: World, s: State, t: Tid, ch: Choice)
    requires Inv(w, s) && Blocked(s, t)
    ensures t < |s.threads| && Step(w, s, t, ch).None? && Busy(s.threads[t])
  {
    if SelfBlocked(s, t) {
      assert PcBounded(s, s.threads[t]);
      hide ExitStep, OpenStep, CommitStep, WatchStep, CloseStep, SetStep;
      SelfLockBlocks(s, t, s.threads[t].d, s.threads[t].exit.c, ch);
    } else if BlockedBySelf(s, t) {
      var u: Tid :| SelfBlocked(s, u) && NeedsConns(s, s.threads[t], s.threads[u].d);
      SelfHolds(w, s, u);
      NeedsTakenConns(w, s, t, s.threads[u].d, ch);
    } else {
      var p, u :| BlockedByPair(s, t, p, u);
      PairHolds(w, s, t, p, u);
      PairCannot(w, s, t, p, u, ch);
    }
  }

  lemma PairCannot(w: World, s: State, t: Tid, p: Tid, u: Tid, ch: Choice)
    requires BlockedByPair(s, t, p, u) && s.regMtx == Some(p)
    ensures Step(w, s, t, ch).None? && Busy(s.threads[t])
  {
    hide OpenFetching, OpenNewConn, OpenAdded, WatchStep, CommitStep, CloseStep;
  }

  lemma NeedsTakenConns(w: World, s: State, t: Tid, d: DbId, ch: Choice)
    requires t < |s.threads| && NeedsConns(s, s.threads[t], d) && !s.dbs[d].pool.lock.Free()
    ensures Step(w, s, t, ch).None? && Busy(s.threads[t])
  {
    hide OpenFetching, OpenNewConn, OpenAdded, WatchStep, CommitStep, SetStep, ExitStep;
  }

  lemma SelfHolds(w: World, s: State, u: Tid)
    requires Locked(s) && Bounded(s) && SelfBlocked(s, u)
    ensures s.threads[u].d < |s.dbs| && s.dbs[s.threads[u].d].pool.lock == RwLock(Some(u), {})
  {
    assert PcBounded(s, s.threads[u]);
    assert PoolHeld(s, s.threads[u].d) && Writes(s.sql.conns, s.threads[u], s.threads[u].d);
  }

  lemma BusyHere(s: State, t: Tid)
    requires Blocked(s, t)
    ensures t < |s.threads|
  {
  }

  /** What a blocked thread waits for is blocked. */
  lemma BlockedWaits(w: World, s: State, t: Tid, v: Tid)
    requires Inv(w, s) && Blocked(s, t) && WaitsFor(s, t, v)
    ensures Blocked(s, v)
  {
    if SelfBlocked(s, t) {
      SelfHolds(w, s, t);
    } else if BlockedBySelf(s, t) {
      var u: Tid :| SelfBlocked(s, u) && NeedsConns(s, s.threads[t], s.threads[u].d);
      SelfHolds(w, s, u);
      WaitsForWriter(s, t, v, u);
    } else {
      var p, u :| BlockedByPair(s, t, p, u);
      PairHolds(w, s, t, p, u);
      hide Inv;
      assert BlockedByPair(s, v, p, u);
    }
  }

  lemma WaitsForWriter(s: State, t: Tid, v: Tid, u: Tid)
    requires WaitsFor(s, t, v) && SelfBlocked(s, u) && NeedsConns(s, s.threads[t], s.threads[u].d)
    requires s.dbs[s.threads[u].d].pool.lock == RwLock(Some(u), {})
    ensures v == u
  {
  }

  lemma {:induction false} BlockedLeadsNowhere(w: World, s: State, t: Tid, n: nat)
    requires Inv(w, s) && Blocked(s, t)
    ensures !Leads(w, s, t, n)
    decreases n
  {
    hide Inv, Blocked, WaitsFor;
    BusyHere(s, t);
    forall ch ensures Step(w, s, t, ch).None? { BlockedCannot(w, s, t, ch); }
    if n > 0 {
      forall u: Tid | WaitsFor(s, t, u) ensures !Leads(w, s, u, n - 1) {
        BlockedWaits(w, s, t, u);
        BlockedLeadsNowhere(w, s, u, n - 1);
      }
    }
  }

  // --------------------------------------------------------------- the results

  /** A thread in the middle of an operation moves on, that is, following who
      waits for whom from it reaches a thread that can step without failing
      needlessly, if and only if it is not blocked by a failed watcher that
      waits for itself or by a publisher and a failed watcher that wait for each
      other. What happens to one database says nothing about the threads of
      another. */
  lemma OnlyTwoDeadlocks(w: World, s: State, t: Tid)
    requires Inv(w, s) && t < |s.threads| && Busy(s.threads[t])
    ensures MovesOn(w, s, t) <==> !s.crashed && !Blocked(s, t)
  {
    hide Inv, Blocked;
    if Blocked(s, t) {
      forall n: nat ensures !Leads(w, s, t, n) { BlockedLeadsNowhere(w, s, t, n); }
    } else {
      BusyMoves(w, s, t);
    }
  }

  lemma {:induction false} LeadsToStep(w: World, s: State, t: Tid, n: nat)
    requires Leads(w, s, t, n) && !s.crashed
    ensures SomeStep(w, s)
    decreases n
  {
    if !CanStep(w, s, t) {
      var u: Tid :| WaitsFor(s, t, u) && Leads(w, s, u, n - 1);
      LeadsToStep(w, s, u, n - 1);
    }
  }

  /** Deadlock freedom: while no watcher has failed, every operation in progress
      moves on, and so some thread can step. */
  lemma DeadlockFree(w: World, s: State, t: Tid)
    requires Inv(w, s) && !s.crashed && t < |s.threads| && Busy(s.threads[t])
    requires forall u :: 0 <= u < |s.threads| ==> !s.threads[u].Exiting?
    ensures MovesOn(w, s, t) && SomeStep(w, s)
  {
    OnlyTwoDeadlocks(w, s, t);
    hide Inv;
    var n: nat :| Leads(w, s, t, n);
    LeadsToStep(w, s, t, n);
  }
}
