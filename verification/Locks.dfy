/** The mutex holders always agree with the program counters. */
module Locks {
  import opened Values
  import opened Refresh
  import opened Bounds

  predicate HoldsDbMtx(pc: Pc) {
    match pc
    case Opening(at) =>
      !at.OpenStart? && !at.OpenConn? && !at.OpenAdd? && !at.OpenAdding?
    case Exiting(_, exit) => exit.ExitDelete?
    case _ => false
  }

  predicate HoldsRegMtx(pc: Pc) {
    match pc
    case Opening(at) => at.OpenRead? || at.OpenAttach?
    case Setting(phase) => !phase.SetStart?
    case Exiting(_, exit) => exit.ExitUnsub?
    case _ => false
  }

  /** pc holds the connsMtx of db d for writing. */
  predicate Writes(conns: seq<Conn>, pc: Pc, d: DbId) {
    match pc
    case Opening(at) => at.OpenAdding? && at.c < |conns| && conns[at.c].db == d
    case Closing(c, stage) => stage.CloseRemove? && c < |conns| && conns[c].db == d
    case Exiting(e, exit) => e == d && (exit.ExitDrain? || exit.ExitSelf?)
    case _ => false
  }

  /** pc holds the connsMtx of db d for reading. */
  predicate Reads(pc: Pc, d: DbId) {
    pc.Watching? && pc.d == d && (pc.loop.Sweep? || pc.loop.SweepStore?)
  }

  /** A mutex is held by exactly the thread whose program counter says so. */
  ghost predicate Held(threads: seq<Pc>, m: Option<Tid>, holds: Pc -> bool) {
    && (m.Some? ==> m.value < |threads|)
    && (forall t :: 0 <= t < |threads| ==> (holds(threads[t]) <==> m == Some(t)))
  }

  ghost predicate PoolHeld(s: State, d: DbId)
    requires d < |s.dbs|
  {
    var lock := s.dbs[d].pool.lock;
    && (lock.writer.Some? ==> lock.writer.value < |s.threads| && lock.readers == {})
    && (forall t :: t in lock.readers ==> t < |s.threads|)
    && (forall t :: 0 <= t < |s.threads| ==> (Writes(s.sql.conns, s.threads[t], d) <==> lock.writer == Some(t)))
    && (forall t :: 0 <= t < |s.threads| ==> (Reads(s.threads[t], d) <==> t in lock.readers))
  }

  ghost predicate PoolsHeld(s: State) {
    forall d :: 0 <= d < |s.dbs| ==> PoolHeld(s, d)
  }

  ghost predicate Locked(s: State) {
    && Held(s.threads, s.dbMtx, HoldsDbMtx)
    && Held(s.threads, s.regMtx, HoldsRegMtx)
    && PoolsHeld(s)
  }

  // ------------------------------------------------------- moving one thread

  /** u did not move, or is new, or is a watcher receiving a hash. */
  predicate Bystander(s: State, s': State, u: Tid)
    requires u < |s'.threads|
  {
    if u < |s.threads| then
      || s'.threads[u] == s.threads[u]
      || (&& s.threads[u].Watching? && s.threads[u].loop.Select?
          && s'.threads[u].Watching? && s'.threads[u].loop.Refetch? && s'.threads[u].d == s.threads[u].d)
    else
      s'.threads[u].Idle? || (s'.threads[u].Watching? && s'.threads[u].loop.Select?)
  }

  /** Only thread t may change what it holds. */
  ghost predicate OthersHold(s: State, s': State, t: Tid) {
    && t < |s.threads| <= |s'.threads| && |s.dbs| <= |s'.dbs| && |s.sql.conns| <= |s'.sql.conns|
    && (forall c :: 0 <= c < |s.sql.conns| ==> s'.sql.conns[c].db == s.sql.conns[c].db)
    && (forall u :: 0 <= u < |s'.threads| && u != t ==> Bystander(s, s', u))
  }

  /** A mutex follows what thread t holds before and after a step. */
  predicate Follows(before: bool, after: bool, m: Option<Tid>, m': Option<Tid>, t: Tid) {
    if before == after then m' == m
    else if before then m' == None
    else m == None && m' == Some(t)
  }

  /** The connsMtx of d follows what thread t holds before and after a step. */
  predicate PoolFollows(s: State, s': State, d: DbId, t: Tid)
    requires d < |s.dbs| && d < |s'.dbs| && t < |s.threads| && t < |s'.threads|
  {
    var lock, lock' := s.dbs[d].pool.lock, s'.dbs[d].pool.lock;
    var w, w' := Writes(s.sql.conns, s.threads[t], d), Writes(s'.sql.conns, s'.threads[t], d);
    var r, r' := Reads(s.threads[t], d), Reads(s'.threads[t], d);
    || (w == w' && r == r' && lock' == lock)
    || (!w && w' && !r && !r' && lock.Free() && lock' == RwLock(Some(t), {}))
    || (w && !w' && !r && !r' && lock' == UNLOCKED)
    || (!w && !w' && !r && r' && lock.writer.None? && lock' == RwLock(None, lock.readers + {t}))
    || (!w && !w' && r && !r' && lock' == RwLock(lock.writer, lock.readers - {t}))
  }

  lemma HeldAfter(s: State, s': State, m: Option<Tid>, m': Option<Tid>, holds: Pc -> bool, t: Tid)
    requires Held(s.threads, m, holds) && OthersHold(s, s', t)
    requires holds == HoldsDbMtx || holds == HoldsRegMtx
    requires Follows(holds(s.threads[t]), holds(s'.threads[t]), m, m', t)
    ensures Held(s'.threads, m', holds)
  {
    forall u | 0 <= u < |s'.threads| && u != t
      ensures holds(s'.threads[u]) <==> u < |s.threads| && holds(s.threads[u])
    {
      assert Bystander(s, s', u);
    }
  }

  lemma PoolHeldAfter(s: State, s': State, d: DbId, t: Tid)
    requires ThreadsBounded(s) && OthersHold(s, s', t)
    requires d < |s.dbs| && PoolHeld(s, d) && PoolFollows(s, s', d, t)
    ensures PoolHeld(s', d)
  {
    forall u | 0 <= u < |s'.threads| && u != t
      ensures Writes(s'.sql.conns, s'.threads[u], d) <==> u < |s.threads| && Writes(s.sql.conns, s.threads[u], d)
      ensures Reads(s'.threads[u], d) <==> u < |s.threads| && Reads(s.threads[u], d)
    {
      assert Bystander(s, s', u);
      if u < |s.threads| { assert PcBounded(s, s.threads[u]); }
    }
  }

  /** No thread holds the connsMtx of a db that has just been made. */
  lemma NewPoolHeld(s: State, s': State, d: DbId, t: Tid)
    requires ThreadsBounded(s) && SqlBounded(s.sql, |s.dbs|, |s.disk.files|) && OthersHold(s, s', t)
    requires |s.dbs| <= d < |s'.dbs| && s'.dbs[d].pool.lock == UNLOCKED && s'.sql == s.sql
    requires !Writes(s'.sql.conns, s'.threads[t], d) && !Reads(s'.threads[t], d)
    requires |s'.threads| == |s.threads|
    ensures PoolHeld(s', d)
  {
    forall u | 0 <= u < |s'.threads|
      ensures !Writes(s'.sql.conns, s'.threads[u], d) && !Reads(s'.threads[u], d)
    {
      if u != t {
        assert Bystander(s, s', u) && PcBounded(s, s.threads[u]);
      }
    }
  }

  lemma LockedAfter(s: State, s': State, t: Tid)
    requires Bounded(s) && Locked(s) && OthersHold(s, s', t) && |s'.dbs| == |s.dbs|
    requires Follows(HoldsDbMtx(s.threads[t]), HoldsDbMtx(s'.threads[t]), s.dbMtx, s'.dbMtx, t)
    requires Follows(HoldsRegMtx(s.threads[t]), HoldsRegMtx(s'.threads[t]), s.regMtx, s'.regMtx, t)
    requires forall d :: 0 <= d < |s.dbs| ==> PoolFollows(s, s', d, t)
    ensures Locked(s')
  {
    HeldAfter(s, s', s.dbMtx, s'.dbMtx, HoldsDbMtx, t);
    HeldAfter(s, s', s.regMtx, s'.regMtx, HoldsRegMtx, t);
    forall d | 0 <= d < |s'.dbs| ensures PoolHeld(s', d) {
      assert PoolHeld(s, d);
      PoolHeldAfter(s, s', d, t);
    }
  }

  // ------------------------------------------------------------ preservation

  lemma LockedOpenAttach(w: World, s: State, t: Tid, name: string, seen: nat, hash: Hash, s': State)
    requires Bounded(s) && Locked(s) && t < |s.threads| && s.threads[t] == Opening(OpenAttach(name, seen, hash))
    requires OpenAttached(w, s, t, name, seen, hash) == s'
    ensures Locked(s')
  {
    HeldAfter(s, s', s.dbMtx, s'.dbMtx, HoldsDbMtx, t);
    HeldAfter(s, s', s.regMtx, s'.regMtx, HoldsRegMtx, t);
    forall d | 0 <= d < |s'.dbs| ensures PoolHeld(s', d) {
      if d < |s.dbs| {
        assert PoolHeld(s, d);
        PoolHeldAfter(s, s', d, t);
      } else {
        NewPoolHeld(s, s', d, t);
      }
    }
  }

  lemma LockedOpenFetch(s: State, t: Tid, name: string, seen: nat, f: Fetch, ch: Choice, s': State)
    requires Bounded(s) && Locked(s) && t < |s.threads| && s.threads[t] == Opening(OpenFetch(name, seen, f))
    requires OpenFetching(s, t, name, seen, f, ch) == Some(s')
    ensures Locked(s')
  {
    hide FetchStep, ThreadsBounded, DbsBounded, SqlBounded, NamesBounded, LinksBounded, Held, PoolHeld;
    LockedAfter(s, s', t);
  }

  lemma LockedOpenMove(w: World, s: State, t: Tid, at: OpenPc, ch: Choice, s': State)
    requires Bounded(s) && Locked(s) && t < |s.threads| && s.threads[t] == Opening(at)
    requires !at.OpenAttach? && !at.OpenFetch? && !at.OpenConn? && !at.OpenAdd? && !at.OpenAdding?
    requires OpenStep(w, s, t, at, ch) == Some(s')
    ensures Locked(s')
  {
    hide OpenFetching, ThreadsBounded, DbsBounded, SqlBounded, NamesBounded, LinksBounded, Held, PoolHeld;
    LockedAfter(s, s', t);
  }

  lemma LockedOpenConn(w: World, s: State, t: Tid, at: OpenPc, ch: Choice, s': State)
    requires Bounded(s) && Locked(s) && t < |s.threads| && s.threads[t] == Opening(at)
    requires at.OpenConn? || at.OpenAdd? || at.OpenAdding?
    requires OpenStep(w, s, t, at, ch) == Some(s')
    ensures Locked(s')
  {
    hide ThreadsBounded, DbsBounded, SqlBounded, NamesBounded, LinksBounded, Held, PoolHeld;
    LockedAfter(s, s', t);
  }

  lemma LockedOpen(w: World, s: State, t: Tid, at: OpenPc, ch: Choice, s': State)
    requires Bounded(s) && Locked(s) && t < |s.threads| && s.threads[t] == Opening(at)
    requires OpenStep(w, s, t, at, ch) == Some(s')
    ensures Locked(s')
  {
    match at
    case OpenFetch(name, seen, f) => LockedOpenFetch(s, t, name, seen, f, ch, s');
    case OpenAttach(name, seen, hash) => LockedOpenAttach(w, s, t, name, seen, hash, s');
    case OpenConn(_) => LockedOpenConn(w, s, t, at, ch, s');
    case OpenAdd(_) => LockedOpenConn(w, s, t, at, ch, s');
    case OpenAdding(_) => LockedOpenConn(w, s, t, at, ch, s');
    case _ => LockedOpenMove(w, s, t, at, ch, s');
  }

  lemma LockedClose(s: State, t: Tid, c: ConnId, stage: ClosePc, ch: Choice, s': State)
    requires Bounded(s) && Locked(s) && t < |s.threads| && s.threads[t] == Closing(c, stage)
    requires CloseStep(s, t, c, stage, ch) == Some(s')
    ensures Locked(s')
  {
    hide ThreadsBounded, DbsBounded, SqlBounded, NamesBounded, LinksBounded, Held, PoolHeld;
    LockedAfter(s, s', t);
  }

  lemma LockedSet(w: World, s: State, t: Tid, phase: SetPc, ch: Choice, s': State)
    requires Bounded(s) && Locked(s) && t < |s.threads| && s.threads[t] == Setting(phase)
    requires SetStep(w, s, t, phase, ch) == Some(s')
    ensures Locked(s')
  {
    hide ThreadsBounded, DbsBounded, SqlBounded, NamesBounded, LinksBounded, Held, PoolHeld;
    LockedAfter(s, s', t);
  }

  lemma LockedCommit(w: World, s: State, t: Tid, part: CommitPc, ch: Choice, s': State)
    requires Bounded(s) && Locked(s) && t < |s.threads| && s.threads[t] == Committing(part)
    requires CommitStep(w, s, t, part, ch) == Some(s')
    ensures Locked(s')
  {
    hide ThreadsBounded, DbsBounded, SqlBounded, NamesBounded, LinksBounded, Held, PoolHeld;
    LockedAfter(s, s', t);
  }

  lemma LockedWatch(s: State, t: Tid, d: DbId, loop: WatchPc, ch: Choice, s': State)
    requires Bounded(s) && Locked(s) && t < |s.threads| && s.threads[t] == Watching(d, loop)
    requires d < |s.dbs| && WatchStep(s, t, d, loop, ch) == Some(s')
    ensures Locked(s')
  {
    hide FetchStep, ThreadsBounded, DbsBounded, SqlBounded, NamesBounded, LinksBounded, Held, PoolHeld;
    LockedAfter(s, s', t);
  }

  /** A watcher draining its db waits for a lock that it holds itself. */
  lemma SelfLockBlocks(s: State, t: Tid, d: DbId, c: ConnId, ch: Choice)
    requires Locked(s) && t < |s.threads| && d < |s.dbs| && s.threads[t] == Exiting(d, ExitSelf(c))
    ensures ExitStep(s, t, d, ExitSelf(c), ch) == None
  {
    assert PoolHeld(s, d) && Writes(s.sql.conns, s.threads[t], d);
  }

  lemma LockedExit(s: State, t: Tid, d: DbId, exit: ExitPc, ch: Choice, s': State)
    requires Bounded(s) && Locked(s) && t < |s.threads| && s.threads[t] == Exiting(d, exit)
    requires d < |s.dbs| && ExitStep(s, t, d, exit, ch) == Some(s')
    ensures Locked(s')
  {
    hide ThreadsBounded, DbsBounded, SqlBounded, NamesBounded, LinksBounded, Held, PoolHeld;
    if exit.ExitSelf? {
      SelfLockBlocks(s, t, d, exit.c, ch);
    } else {
      LockedAfter(s, s', t);
    }
  }

  lemma LockedNext(w: World, s: State, a: Action, s': State)
    requires Bounded(s) && Locked(s) && Next(w, s, a) == Some(s')
    ensures Locked(s')
  {
    match a
    case Spawn =>
      forall d | 0 <= d < |s'.dbs| ensures PoolHeld(s', d) { assert PoolHeld(s, d); }
    case Begin(t, pc) => LockedAfter(s, s', t);
    case Write(h, content) =>
      forall d | 0 <= d < |s'.dbs| ensures PoolHeld(s', d) { assert PoolHeld(s, d); }
    case Run(t, ch) =>
      match s.threads[t]
      case Opening(at) => LockedOpen(w, s, t, at, ch, s');
      case Closing(c, stage) => LockedClose(s, t, c, stage, ch, s');
      case Setting(phase) => LockedSet(w, s, t, phase, ch, s');
      case Committing(part) => LockedCommit(w, s, t, part, ch, s');
      case Watching(d, loop) => LockedWatch(s, t, d, loop, ch, s');
      case Exiting(d, exit) => LockedExit(s, t, d, exit, ch, s');
  }
}
