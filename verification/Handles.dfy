/**
 SQLite handles: every handle ever opened is the current one of its Conn, or
 was superseded by a swap, or is about to be swapped in.
 */
module Handles {
  import opened Values
  import opened Refresh
  import opened Bounds
  import opened Locks
  import opened Watchers

  predicate Current(sql: Sql, h: HandleId) {
    && h < |sql.handles| && sql.handles[h].conn < |sql.conns|
    && sql.conns[sql.handles[h].conn].handle == h
  }

  /** The watcher of the Conn's db has opened h and not yet stored it. */
  predicate InFlight(s: State, h: HandleId) {
    && h < |s.sql.handles| && s.HasConn(s.sql.handles[h].conn)
    && var w := s.dbs[s.sql.conns[s.sql.handles[h].conn].db].watcher;
       w.Some? && w.value < |s.threads| && Storing(s.threads[w.value], h)
  }

  predicate Storing(pc: Pc, h: HandleId) {
    pc.Watching? && pc.loop.SweepStore? && pc.loop.h == h
  }

  /** A handle is on the inode that was at the path at its generation. */
  predicate HandleOk(s: State, h: HandleId)
    requires h < |s.sql.handles|
  {
    var k := s.sql.handles[h];
    && s.HasConn(k.conn) && k.name == s.dbs[s.sql.conns[k.conn].db].name
    && k.gen < |s.disk.Links(k.name)| && s.disk.Links(k.name)[k.gen].inode == k.inode
    && (Current(s.sql, h) || h in s.sql.superseded || InFlight(s, h))
  }

  predicate ConnOk(s: State, c: ConnId)
    requires c < |s.sql.conns|
  {
    var k := s.sql.conns[c];
    && k.db < |s.dbs| && k.handle < |s.sql.handles| && s.sql.handles[k.handle].conn == c
    && k.handle !in s.sql.superseded
    && (c in s.dbs[k.db].pool.conns <==> k.joined.Some? && !k.removed)
    && (k.removed ==> k.joined.Some?)
  }

  predicate HandlePcOk(s: State, t: Tid, pc: Pc) {
    match pc
    case Opening(at) =>
      at.OpenAdd? || at.OpenAdding? ==>
        at.c < |s.sql.conns| && s.sql.conns[at.c].owner == t && s.sql.conns[at.c].joined.None?
    case Closing(c, stage) =>
      c < |s.sql.conns| && s.sql.conns[c].joined.Some? && (stage.CloseHandle? ==> s.sql.conns[c].removed)
    case Watching(d, loop) =>
      d < |s.dbs| &&
      (match loop
       case Sweep(_, cs) => cs <= s.dbs[d].pool.conns
       case SweepStore(_, cs, c, h) =>
         && cs <= s.dbs[d].pool.conns && c in s.dbs[d].pool.conns && c !in cs && c < |s.sql.conns|
         && h < |s.sql.handles| && s.sql.handles[h].conn == c
         && h !in s.sql.superseded && s.sql.conns[c].handle != h
       case _ => true)
    case _ => true
  }

  predicate SpentOk(sql: Sql, h: HandleId) {
    Current(sql, h) && sql.conns[sql.handles[h].conn].removed
  }

  ghost predicate Accounted(s: State) {
    && (forall h :: 0 <= h < |s.sql.handles| ==> HandleOk(s, h))
    && (forall c :: 0 <= c < |s.sql.conns| ==> ConnOk(s, c))
    && (forall t :: 0 <= t < |s.threads| ==> HandlePcOk(s, t, s.threads[t]))
    && (forall h :: h in s.sql.closed ==> SpentOk(s.sql, h))
    && (forall h :: h in s.sql.superseded ==> h < |s.sql.handles|)
  }

  // ------------------------------------------------------------ preservation

  /** Paths only gain inodes. */
  ghost predicate LinksExtend(disk: Disk, disk': Disk) {
    forall n :: |disk.Links(n)| <= |disk'.Links(n)| && disk'.Links(n)[..|disk.Links(n)|] == disk.Links(n)
  }

  /** Conns and handles stay as they are, and no swap begins or ends. */
  ghost predicate SameHandles(s: State, s': State) {
    && s'.sql == s.sql && LinksExtend(s.disk, s'.disk)
    && |s.dbs| <= |s'.dbs| && |s.threads| <= |s'.threads|
    && (forall d :: 0 <= d < |s.dbs| ==>
          s'.dbs[d].name == s.dbs[d].name && s'.dbs[d].pool.conns == s.dbs[d].pool.conns
          && (s.dbs[d].watcher.Some? ==> s'.dbs[d].watcher == s.dbs[d].watcher))
    && (forall d :: |s.dbs| <= d < |s'.dbs| ==> s'.dbs[d].pool.conns == {})
    && (forall u :: 0 <= u < |s.threads| && s.threads[u].Watching? && s.threads[u].loop.SweepStore? ==>
          s'.threads[u] == s.threads[u])
  }

  lemma HandleStays(s: State, s': State, h: HandleId)
    requires SameHandles(s, s') && h < |s.sql.handles| && HandleOk(s, h)
    ensures HandleOk(s', h)
  {
    var n := s.sql.handles[h].name;
    assert s'.disk.Links(n)[..|s.disk.Links(n)|] == s.disk.Links(n);
  }

  lemma AccountedAfter(s: State, s': State)
    requires Accounted(s) && SameHandles(s, s')
    requires forall u :: 0 <= u < |s'.threads| ==>
      HandlePcOk(s', u, s'.threads[u]) || (u < |s.threads| && s'.threads[u] == s.threads[u])
    ensures Accounted(s')
  {
    forall h | 0 <= h < |s'.sql.handles| ensures HandleOk(s', h) { HandleStays(s, s', h); }
    forall c | 0 <= c < |s'.sql.conns| ensures ConnOk(s', c) { assert ConnOk(s, c); }
    forall u | 0 <= u < |s'.threads| ensures HandlePcOk(s', u, s'.threads[u]) {
      if u < |s.threads| && s'.threads[u] == s.threads[u] { assert HandlePcOk(s, u, s.threads[u]); }
    }
  }

  lemma AccountedOpenConn(s: State, t: Tid, d: DbId, s': State)
    requires Accounted(s) && Bounded(s) && t < |s.threads| && s.threads[t] == Opening(OpenConn(d))
    requires OpenNewConn(s, t, d) == Some(s')
    ensures Accounted(s')
  {
    forall h | 0 <= h < |s'.sql.handles| ensures HandleOk(s', h) {
      if h < |s.sql.handles| { assert HandleOk(s, h); }
    }
    forall c | 0 <= c < |s'.sql.conns| ensures ConnOk(s', c) {
      if c < |s.sql.conns| { assert ConnOk(s, c); } else { assert DbBounded(s, d); }
    }
    forall u | 0 <= u < |s'.threads| ensures HandlePcOk(s', u, s'.threads[u]) {
      if u != t { assert HandlePcOk(s, u, s.threads[u]); }
    }
  }

  lemma AccountedOpenAdd(s: State, t: Tid, c: ConnId, ends: bool, s': State)
    requires Accounted(s) && t < |s.threads| && s.threads[t] == Opening(OpenAdding(c))
    requires OpenAdded(s, t, c, ends) == Some(s')
    ensures Accounted(s')
  {
    hide Accounted;
    if s.dbs[s.sql.conns[c].db].pool.dropped {
      AccountedAfter(s, s');
    } else {
      AccountedRegister(s, t, c, s');
    }
  }

  lemma AccountedRegister(s: State, t: Tid, c: ConnId, s': State)
    requires Accounted(s) && t < |s.threads| && s.threads[t] == Opening(OpenAdding(c)) && s.HasConn(c)
    requires !s.dbs[s.sql.conns[c].db].pool.dropped && OpenAdded(s, t, c, false) == Some(s')
    ensures Accounted(s')
  {
    assert HandlePcOk(s, t, s.threads[t]);
    forall h | 0 <= h < |s'.sql.handles| ensures HandleOk(s', h) { assert HandleOk(s, h); }
    forall e | 0 <= e < |s'.sql.conns| ensures ConnOk(s', e) { assert ConnOk(s, e) && ConnOk(s, c); }
    forall u | 0 <= u < |s'.threads| ensures HandlePcOk(s', u, s'.threads[u]) {
      if u != t { assert HandlePcOk(s, u, s.threads[u]); }
    }
  }

  lemma AccountedRemove(s: State, t: Tid, c: ConnId, s': State)
    requires Accounted(s) && Locked(s) && t < |s.threads| && s.threads[t] == Closing(c, CloseRemove)
    requires s.HasConn(c) && CloseRemoved(s, t, c) == s'
    ensures Accounted(s')
  {
    var d := s.sql.conns[c].db;
    assert PoolHeld(s, d) && Writes(s.sql.conns, s.threads[t], d);
    forall h | 0 <= h < |s'.sql.handles| ensures HandleOk(s', h) { assert HandleOk(s, h); }
    forall e | 0 <= e < |s'.sql.conns| ensures ConnOk(s', e) { assert ConnOk(s, e); }
    forall u | 0 <= u < |s'.threads| ensures HandlePcOk(s', u, s'.threads[u]) {
      assert HandlePcOk(s, u, s.threads[u]) && !Reads(s.threads[u], d);
    }
  }

  lemma AccountedClose(s: State, t: Tid, c: ConnId, stage: ClosePc, ch: Choice, s': State)
    requires Accounted(s) && Locked(s) && t < |s.threads| && s.threads[t] == Closing(c, stage)
    requires CloseStep(s, t, c, stage, ch) == Some(s')
    ensures Accounted(s')
  {
    assert HandlePcOk(s, t, s.threads[t]);
    match stage
    case CloseWait => AccountedAfter(s, s');
    case CloseRemove => AccountedRemove(s, t, c, s');
    case CloseHandle =>
      assert ConnOk(s, c);
      forall h | 0 <= h < |s'.sql.handles| ensures HandleOk(s', h) { assert HandleOk(s, h); }
      forall e | 0 <= e < |s'.sql.conns| ensures ConnOk(s', e) { assert ConnOk(s, e); }
      forall u | 0 <= u < |s'.threads| ensures HandlePcOk(s', u, s'.threads[u]) {
        assert HandlePcOk(s, u, s.threads[u]);
      }
  }

  lemma AccountedSweepOpen(s: State, t: Tid, d: DbId, hash: Hash, conns: set<ConnId>, c: ConnId, s': State)
    requires Accounted(s) && Watched(s) && Bounded(s)
    requires t < |s.threads| && s.threads[t] == Watching(d, Sweep(hash, conns))
    requires c in conns && s.CanOpen(d) && SweepOpened(s, t, d, hash, conns, c) == s'
    ensures Accounted(s')
  {
    assert HandlePcOk(s, t, s.threads[t]) && PartOk(s, t) && PcBounded(s, s.threads[t]);
    assert ConnOf(s, c, d) && ConnOk(s, c);
    forall h | 0 <= h < |s'.sql.handles| ensures HandleOk(s', h) {
      if h < |s.sql.handles| { assert HandleOk(s, h); }
    }
    forall e | 0 <= e < |s'.sql.conns| ensures ConnOk(s', e) { assert ConnOk(s, e); }
    forall u | 0 <= u < |s'.threads| ensures HandlePcOk(s', u, s'.threads[u]) {
      if u != t { assert HandlePcOk(s, u, s.threads[u]); }
    }
  }

  lemma AccountedSweepStore(s: State, t: Tid, d: DbId, hash: Hash, conns: set<ConnId>, c: ConnId, h: HandleId,
          s': State)
    requires Accounted(s) && Watched(s) && Bounded(s)
    requires t < |s.threads| && s.threads[t] == Watching(d, SweepStore(hash, conns, c, h))
    requires SweepStored(s, t, d, hash, conns, c, h) == Some(s')
    ensures Accounted(s')
  {
    assert HandlePcOk(s, t, s.threads[t]) && PartOk(s, t) && ConnOk(s, c);
    forall k | 0 <= k < |s'.sql.handles| ensures HandleOk(s', k) {
      assert HandleOk(s, k);
    }
    forall e | 0 <= e < |s'.sql.conns| ensures ConnOk(s', e) { assert ConnOk(s, e) && HandleOk(s, h); }
    forall u | 0 <= u < |s'.threads| ensures HandlePcOk(s', u, s'.threads[u]) {
      assert HandlePcOk(s, u, s.threads[u]) && PartOk(s, u) && PcBounded(s, s.threads[u]) && PcBounded(s, s.threads[t]);
    }
  }

  lemma FetchExtendsLinks(disk: Disk, t: Tid, name: string, f: Fetch, ch: Choice)
    ensures var r := FetchStep(disk, t, name, f, ch); r.Some? ==> LinksExtend(disk, r.value.0)
  {
  }

  lemma AccountedOpenFetch(s: State, t: Tid, name: string, seen: nat, f: Fetch, ch: Choice, s': State)
    requires Accounted(s) && t < |s.threads| && s.threads[t] == Opening(OpenFetch(name, seen, f))
    requires OpenFetching(s, t, name, seen, f, ch) == Some(s')
    ensures Accounted(s')
  {
    hide FetchStep, LinksExtend, Accounted;
    FetchExtendsLinks(s.disk, t, name, f, ch);
    AccountedAfter(s, s');
  }

  lemma AccountedRefetch(s: State, t: Tid, d: DbId, f: Fetch, ch: Choice, s': State)
    requires Accounted(s) && t < |s.threads| && d < |s.dbs| && s.threads[t] == Watching(d, Refetch(f))
    requires Refetching(s, t, d, f, ch) == Some(s')
    ensures Accounted(s')
  {
    hide FetchStep, LinksExtend, Accounted;
    FetchExtendsLinks(s.disk, t, s.dbs[d].name, f, ch);
    AccountedAfter(s, s');
  }

  lemma AccountedAt(s: State, t: Tid)
    requires Accounted(s) && t < |s.threads|
    ensures HandlePcOk(s, t, s.threads[t])
  {
  }

  lemma AccountedOpenMove(w: World, s: State, t: Tid, at: OpenPc, ch: Choice, s': State)
    requires Accounted(s) && Watched(s) && t < |s.threads| && s.threads[t] == Opening(at)
    requires !at.OpenFetch? && !at.OpenAdding? && !at.OpenSpawn? && !at.OpenAttach? && !(at.OpenConn? && ch.Go?)
    requires OpenStep(w, s, t, at, ch) == Some(s')
    ensures Accounted(s')
  {
    hide OpenFetching, OpenNewConn, OpenAdded, OpenSpawned, OpenAttached, Accounted, Watched;
    AccountedAt(s, t);
    AccountedAfter(s, s');
  }

  lemma AccountedOpenDb(w: World, s: State, t: Tid, at: OpenPc, ch: Choice, s': State)
    requires Accounted(s) && Watched(s) && t < |s.threads| && s.threads[t] == Opening(at)
    requires at.OpenSpawn? || at.OpenAttach?
    requires OpenStep(w, s, t, at, ch) == Some(s')
    ensures Accounted(s')
  {
    hide Accounted;
    assert PartOk(s, t);
    AccountedAfter(s, s');
  }

  lemma AccountedOpen(w: World, s: State, t: Tid, at: OpenPc, ch: Choice, s': State)
    requires Accounted(s) && Watched(s) && Bounded(s) && t < |s.threads| && s.threads[t] == Opening(at)
    requires OpenStep(w, s, t, at, ch) == Some(s')
    ensures Accounted(s')
  {
    hide OpenFetching, OpenNewConn, OpenAdded, Accounted, Watched, Bounded;
    match at
    case OpenFetch(name, seen, f) => AccountedOpenFetch(s, t, name, seen, f, ch, s');
    case OpenAdding(c) => AccountedOpenAdd(s, t, c, ch.Fail?, s');
    case OpenConn(d) =>
      if ch.Go? {
        AccountedOpenConn(s, t, d, s');
      } else {
        AccountedOpenMove(w, s, t, at, ch, s');
      }
    case OpenSpawn(_) => AccountedOpenDb(w, s, t, at, ch, s');
    case OpenAttach(_, _, _) => AccountedOpenDb(w, s, t, at, ch, s');
    case _ => AccountedOpenMove(w, s, t, at, ch, s');
  }

  lemma AccountedSweepMove(s: State, t: Tid, d: DbId, loop: WatchPc, ch: Choice, s': State)
    requires Accounted(s) && t < |s.threads| && d < |s.dbs| && s.threads[t] == Watching(d, loop)
    requires !loop.Refetch? && !loop.SweepStore? && !ch.Take?
    requires WatchStep(s, t, d, loop, ch) == Some(s')
    ensures Accounted(s')
  {
    hide Refetching, SweepStored, SweepOpened, Accounted;
    AccountedAt(s, t);
    AccountedAfter(s, s');
  }

  lemma AccountedWatch(s: State, t: Tid, d: DbId, loop: WatchPc, ch: Choice, s': State)
    requires Accounted(s) && Watched(s) && Bounded(s) && t < |s.threads| && d < |s.dbs|
    requires s.threads[t] == Watching(d, loop) && WatchStep(s, t, d, loop, ch) == Some(s')
    ensures Accounted(s')
  {
    hide Refetching, SweepStored, SweepOpened, SweepBegun, Accounted, Watched, Bounded;
    match loop
    case Refetch(f) => AccountedRefetch(s, t, d, f, ch, s');
    case SweepStore(hash, conns, c, h) => AccountedSweepStore(s, t, d, hash, conns, c, h, s');
    case Sweep(hash, conns) =>
      if ch.Take? {
        AccountedSweepOpen(s, t, d, hash, conns, ch.n, s');
      } else {
        AccountedSweepMove(s, t, d, loop, ch, s');
      }
    case _ => AccountedSweepMove(s, t, d, loop, ch, s');
  }

  lemma AccountedSet(w: World, s: State, t: Tid, phase: SetPc, ch: Choice, s': State)
    requires Accounted(s) && t < |s.threads| && s.threads[t] == Setting(phase)
    requires SetStep(w, s, t, phase, ch) == Some(s')
    ensures Accounted(s')
  {
    hide Accounted;
    AccountedAfter(s, s');
  }

  lemma AccountedExit(s: State, t: Tid, d: DbId, exit: ExitPc, ch: Choice, s': State)
    requires Accounted(s) && t < |s.threads| && d < |s.dbs| && s.threads[t] == Exiting(d, exit)
    requires ExitStep(s, t, d, exit, ch) == Some(s')
    ensures Accounted(s')
  {
    hide Accounted;
    AccountedAfter(s, s');
  }

  lemma AccountedCall(w: World, s: State, a: Action, s': State)
    requires Accounted(s) && Next(w, s, a) == Some(s')
    requires a.Run? ==> s.threads[a.t].Committing?
    ensures Accounted(s')
  {
    hide Accounted, OpenStep, CloseStep, SetStep, WatchStep, ExitStep;
    AccountedAfter(s, s');
  }

  lemma AccountedNext(w: World, s: State, a: Action, s': State)
    requires Accounted(s) && Bounded(s) && Locked(s) && Watched(s) && Next(w, s, a) == Some(s')
    ensures Accounted(s')
  {
    hide Accounted, Bounded, Locked, Watched, OpenStep, CloseStep, SetStep, CommitStep, WatchStep, ExitStep, WriteStep;
    if a.Run? {
      match s.threads[a.t]
      case Opening(at) => AccountedOpen(w, s, a.t, at, a.ch, s');
      case Closing(c, stage) => AccountedClose(s, a.t, c, stage, a.ch, s');
      case Setting(phase) => AccountedSet(w, s, a.t, phase, a.ch, s');
      case Watching(d, loop) => AccountedWatch(s, a.t, d, loop, a.ch, s');
      case Exiting(d, exit) => AccountedExit(s, a.t, d, exit, a.ch, s');
      case _ => AccountedCall(w, s, a, s');
    } else {
      AccountedCall(w, s, a, s');
    }
  }

  // ----------------------------------------------------------------- results

  function Below(n: nat): (r: set<nat>)
    ensures |r| == n && forall x :: x in r <==> 0 <= x < n
  {
    if n == 0 then {} else Below(n - 1) + {n - 1}
  }

  /** The handles in use: one for each Conn that is not closed, registered or
      not yet. */
  function InUse(s: State): set<HandleId> {
    set h | 0 <= h < |s.sql.handles| && Current(s.sql, h) && h !in s.sql.closed
  }

  function Swapping(s: State): set<HandleId> {
    set h | 0 <= h < |s.sql.handles| && InFlight(s, h)
  }

  function HandlesOf(sql: Sql, n: nat): (r: set<HandleId>)
    requires n <= |sql.conns|
    ensures forall h :: h in r ==> exists c :: 0 <= c < n && sql.conns[c].handle == h
    ensures forall c :: 0 <= c < n ==> sql.conns[c].handle in r
  {
    if n == 0 then {} else HandlesOf(sql, n - 1) + {sql.conns[n - 1].handle}
  }

  lemma HandlesApart(s: State, n: nat)
    requires Accounted(s) && n < |s.sql.conns|
    ensures forall c :: 0 <= c < n ==> s.sql.conns[c].handle != s.sql.conns[n].handle
  {
    assert ConnOk(s, n);
    forall c | 0 <= c < n ensures s.sql.conns[c].handle != s.sql.conns[n].handle { assert ConnOk(s, c); }
  }

  /** Conns hold pairwise different handles. */
  lemma {:induction false} OneHandleEach(s: State, n: nat)
    requires Accounted(s) && n <= |s.sql.conns|
    ensures |HandlesOf(s.sql, n)| == n
  {
    if n > 0 {
      OneHandleEach(s, n - 1);
      HandlesApart(s, n - 1);
      hide Accounted;
    }
  }

  /** The handles opened are, without overlap, those in use, those closed, those
      superseded by a swap, and those a watcher is about to swap in. */
  lemma HandlePartition(s: State)
    requires Accounted(s)
    ensures Below(|s.sql.handles|) == InUse(s) + s.sql.closed + s.sql.superseded + Swapping(s)
    ensures InUse(s) !! s.sql.closed !! s.sql.superseded !! Swapping(s)
  {
    forall h | h in Below(|s.sql.handles|) ensures h in InUse(s) + s.sql.closed + s.sql.superseded + Swapping(s) {
      assert HandleOk(s, h);
    }
    forall h | h in s.sql.closed ensures h < |s.sql.handles| && h !in s.sql.superseded {
      assert SpentOk(s.sql, h) && ConnOk(s, s.sql.handles[h].conn);
    }
    forall h | h in Swapping(s) ensures !Current(s.sql, h) && h !in s.sql.superseded && h !in s.sql.closed {
      var t := s.dbs[s.sql.conns[s.sql.handles[h].conn].db].watcher.value;
      assert HandlePcOk(s, t, s.threads[t]);
      assert h in s.sql.closed ==> SpentOk(s.sql, h);
    }
    forall h | h in InUse(s) ensures h !in s.sql.superseded {
      assert ConnOk(s, s.sql.handles[h].conn);
    }
  }

  /** Each Conn has exactly one handle that is in use or closed. */
  lemma HandlePerConn(s: State)
    requires Accounted(s)
    ensures InUse(s) + s.sql.closed == HandlesOf(s.sql, |s.sql.conns|)
  {
    var each := HandlesOf(s.sql, |s.sql.conns|);
    forall h | h in each ensures h in InUse(s) + s.sql.closed {
      var c :| 0 <= c < |s.sql.conns| && s.sql.conns[c].handle == h;
      assert ConnOk(s, c);
    }
    forall h | h in InUse(s) + s.sql.closed ensures h in each {
      assert h in s.sql.closed ==> SpentOk(s.sql, h);
      assert s.sql.conns[s.sql.handles[h].conn].handle == h;
    }
  }

  /** Conservation, counted: so a superseded handle is one no Close reaches. */
  lemma HandleConservation(s: State)
    requires Accounted(s)
    ensures |s.sql.handles| == |InUse(s)| + |s.sql.closed| + |s.sql.superseded| + |Swapping(s)|
    ensures |InUse(s)| + |s.sql.closed| == |s.sql.conns|
    ensures s.sql.closed !! s.sql.superseded
  {
    HandlePartition(s);
    HandlePerConn(s);
    OneHandleEach(s, |s.sql.conns|);
    hide Accounted, InUse, Swapping, HandlesOf;
    var kept := InUse(s) + s.sql.closed;
    assert |kept + s.sql.superseded + Swapping(s)| == |kept| + |s.sql.superseded| + |Swapping(s)|;
  }

  /** Close against reopen: once removeConn has run for c, nothing stores into c
      any more, so the handle that Close closes is its final one. */
  lemma RemovedKeepsHandle(w: World, s: State, a: Action, s': State, c: ConnId)
    requires Accounted(s) && Bounded(s) && Next(w, s, a) == Some(s')
    requires c < |s.sql.conns| && s.sql.conns[c].removed
    ensures c < |s'.sql.conns| && s'.sql.conns[c] == s.sql.conns[c]
  {
    hide Accounted;
    ConnAt(s, c);
    if a.Run? {
      AccountedAt(s, a.t);
      match s.threads[a.t]
      case Opening(at) => RemovedDuringOpen(w, s, a.t, at, a.ch, s', c);
      case Watching(d, loop) => assert PcBounded(s, s.threads[a.t]);
      case _ =>
    }
  }

  lemma RemovedDuringOpen(w: World, s: State, t: Tid, at: OpenPc, ch: Choice, s': State, c: ConnId)
    requires t < |s.threads| && HandlePcOk(s, t, Opening(at)) && OpenStep(w, s, t, at, ch) == Some(s')
    requires c < |s.sql.conns| && s.sql.conns[c].removed && s.sql.conns[c].joined.Some?
    ensures c < |s'.sql.conns| && s'.sql.conns[c] == s.sql.conns[c]
  {
  }

  lemma ConnAt(s: State, c: ConnId)
    requires Accounted(s) && c < |s.sql.conns|
    ensures ConnOk(s, c)
  {
  }

  /** Handles are only ever added, one at a time, and each on the inode its path
      shows at that moment. */
  lemma OpensShown(w: World, s: State, a: Action, s': State)
    requires Next(w, s, a) == Some(s')
    ensures s'.sql.handles == s.sql.handles || OpenedNow(s, s')
  {
    hide WriteStep, SetStep, CommitStep, CloseStep, ExitStep, OpenStep, WatchStep;
    if a.Run? {
      match s.threads[a.t]
      case Opening(at) => OpenOpensShown(w, s, a.t, at, a.ch, s');
      case Watching(d, loop) => WatchOpensShown(s, a.t, d, loop, a.ch, s');
      case Closing(c, stage) => CallOpensNone(w, s, a.t, a.ch, s');
      case Setting(phase) => CallOpensNone(w, s, a.t, a.ch, s');
      case Committing(part) => CallOpensNone(w, s, a.t, a.ch, s');
      case Exiting(d, exit) => ExitOpensNone(s, a.t, d, exit, a.ch, s');
    } else {
      IdleOpensNone(w, s, a, s');
    }
  }

  ghost predicate OpenedNow(s: State, s': State) {
    && |s'.sql.handles| == |s.sql.handles| + 1 && s.sql.handles <= s'.sql.handles
    && var h := s'.sql.handles[|s.sql.handles|];
       var links := s.disk.Links(h.name);
       links != [] && h.gen == |links| - 1 && h.inode == links[h.gen].inode
  }

  lemma OpenOpensShown(w: World, s: State, t: Tid, at: OpenPc, ch: Choice, s': State)
    requires t < |s.threads| && OpenStep(w, s, t, at, ch) == Some(s')
    ensures s'.sql.handles == s.sql.handles || OpenedNow(s, s')
  {
    hide FetchStep;
  }

  lemma WatchOpensShown(s: State, t: Tid, d: DbId, loop: WatchPc, ch: Choice, s': State)
    requires t < |s.threads| && d < |s.dbs| && WatchStep(s, t, d, loop, ch) == Some(s')
    ensures s'.sql.handles == s.sql.handles || OpenedNow(s, s')
  {
    hide FetchStep;
  }

  lemma CallOpensNone(w: World, s: State, t: Tid, ch: Choice, s': State)
    requires t < |s.threads| && Step(w, s, t, ch) == Some(s')
    requires s.threads[t].Closing? || s.threads[t].Setting? || s.threads[t].Committing?
    ensures s'.sql.handles == s.sql.handles
  {
    hide OpenStep, WatchStep, ExitStep;
  }

  lemma ExitOpensNone(s: State, t: Tid, d: DbId, exit: ExitPc, ch: Choice, s': State)
    requires t < |s.threads| && d < |s.dbs| && ExitStep(s, t, d, exit, ch) == Some(s')
    ensures s'.sql == s.sql
  {
  }

  lemma IdleOpensNone(w: World, s: State, a: Action, s': State)
    requires Next(w, s, a) == Some(s') && !a.Run?
    ensures s'.sql == s.sql
  {
    hide Step;
  }

  /** newConn makes Conn c, with the handle it opens. */
  ghost predicate MadeNow(s: State, s': State, c: ConnId) {
    && c == |s.sql.conns| < |s'.sql.conns| && s'.sql.conns[c].handle == |s.sql.handles| && OpenedNow(s, s')
  }

  /** reopenConns swaps a handle it has opened into Conn c. */
  ghost predicate SwappedNow(s: State, a: Action, s': State, c: ConnId) {
    && c < |s.sql.conns| && c < |s'.sql.conns| && a.Run? && a.t < |s.threads|
    && s.threads[a.t].Watching? && s.threads[a.t].loop.SweepStore? && s.threads[a.t].loop.c == c
    && s.threads[a.t].loop.h == s'.sql.conns[c].handle && s'.sql.conns[c].handle < |s.sql.handles|
  }

  /** A Conn gets its handle from newConn or from a swap, and from nothing else. */
  lemma HandleChanges(w: World, s: State, a: Action, s': State, c: ConnId)
    requires Bounded(s) && Next(w, s, a) == Some(s') && c < |s'.sql.conns|
    ensures (c < |s.sql.conns| && s'.sql.conns[c].handle == s.sql.conns[c].handle)
      || MadeNow(s, s', c) || SwappedNow(s, a, s', c)
  {
    hide WriteStep, SetStep, CommitStep, CloseStep, ExitStep, OpenStep, WatchStep;
    if a.Run? {
      match s.threads[a.t]
      case Opening(at) => OpenKeepsHandles(w, s, a.t, at, a.ch, s', c);
      case Watching(d, loop) =>
        assert PcBounded(s, s.threads[a.t]);
        WatchKeepsHandles(s, a.t, d, loop, a.ch, s', c);
      case Closing(_, _) => CallKeepsHandles(w, s, a.t, a.ch, s', c);
      case Setting(_) => CallKeepsHandles(w, s, a.t, a.ch, s', c);
      case Committing(_) => CallKeepsHandles(w, s, a.t, a.ch, s', c);
      case Exiting(d, exit) => ExitOpensNone(s, a.t, d, exit, a.ch, s');
    } else {
      IdleOpensNone(w, s, a, s');
    }
  }

  ghost predicate ConnStays(s: State, s': State, c: ConnId) {
    c < |s.sql.conns| ==> c < |s'.sql.conns| && s'.sql.conns[c].db == s.sql.conns[c].db
  }

  /** Conns stay, and with their db. */
  lemma ConnsStay(w: World, s: State, a: Action, s': State, c: ConnId)
    requires Next(w, s, a) == Some(s')
    ensures ConnStays(s, s', c)
  {
    hide WriteStep, SetStep, CommitStep, CloseStep, ExitStep, OpenStep, WatchStep;
    if a.Run? {
      match s.threads[a.t]
      case Opening(at) => OpenConnsStay(w, s, a.t, at, a.ch, s', c);
      case Watching(d, loop) => WatchConnsStay(s, a.t, d, loop, a.ch, s', c);
      case Exiting(d, exit) => ExitOpensNone(s, a.t, d, exit, a.ch, s');
      case Closing(_, _) => CallConnsStay(w, s, a.t, a.ch, s', c);
      case Setting(_) => CallConnsStay(w, s, a.t, a.ch, s', c);
      case Committing(_) => CallConnsStay(w, s, a.t, a.ch, s', c);
    } else {
      IdleOpensNone(w, s, a, s');
    }
  }

  lemma OpenConnsStay(w: World, s: State, t: Tid, at: OpenPc, ch: Choice, s': State, c: ConnId)
    requires t < |s.threads| && OpenStep(w, s, t, at, ch) == Some(s')
    ensures ConnStays(s, s', c)
  {
    hide FetchStep;
  }

  lemma WatchConnsStay(s: State, t: Tid, d: DbId, loop: WatchPc, ch: Choice, s': State, c: ConnId)
    requires t < |s.threads| && d < |s.dbs| && WatchStep(s, t, d, loop, ch) == Some(s')
    ensures ConnStays(s, s', c)
  {
    hide FetchStep;
  }

  lemma CallConnsStay(w: World, s: State, t: Tid, ch: Choice, s': State, c: ConnId)
    requires t < |s.threads| && Step(w, s, t, ch) == Some(s')
    requires s.threads[t].Closing? || s.threads[t].Setting? || s.threads[t].Committing?
    ensures ConnStays(s, s', c)
  {
    hide OpenStep, WatchStep, ExitStep;
  }

  lemma OpenKeepsHandles(w: World, s: State, t: Tid, at: OpenPc, ch: Choice, s': State, c: ConnId)
    requires t < |s.threads| && OpenStep(w, s, t, at, ch) == Some(s') && c < |s'.sql.conns|
    ensures (c < |s.sql.conns| && s'.sql.conns[c].handle == s.sql.conns[c].handle) || MadeNow(s, s', c)
  {
    hide FetchStep;
  }

  lemma WatchKeepsHandles(s: State, t: Tid, d: DbId, loop: WatchPc, ch: Choice, s': State, c: ConnId)
    requires t < |s.threads| && d < |s.dbs| && WatchStep(s, t, d, loop, ch) == Some(s')
    requires loop.SweepStore? ==> loop.h < |s.sql.handles|
    requires c < |s'.sql.conns|
    ensures c < |s.sql.conns|
    ensures s'.sql.conns[c].handle == s.sql.conns[c].handle
      || (loop.SweepStore? && loop.c == c && s'.sql.conns[c].handle == loop.h)
  {
    hide FetchStep;
  }

  lemma CallKeepsHandles(w: World, s: State, t: Tid, ch: Choice, s': State, c: ConnId)
    requires t < |s.threads| && Step(w, s, t, ch) == Some(s') && c < |s'.sql.conns|
    requires s.threads[t].Closing? || s.threads[t].Setting? || s.threads[t].Committing?
    ensures c < |s.sql.conns| && s'.sql.conns[c].handle == s.sql.conns[c].handle
  {
    hide OpenStep, WatchStep, ExitStep;
  }
}
