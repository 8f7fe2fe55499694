/**
 How current the handles of registered Conns are. A path's generation is the
 number of renames before the one it shows.
 */
module Freshness {
  import opened Values
  import opened Refresh
  import opened Bounds
  import opened Locks
  import opened Watchers
  import opened Delivery
  import opened Disks
  import opened Handles

  /** The generation of the handle Conn c uses. */
  function GenOf(sql: Sql, c: ConnId): nat
    requires c < |sql.conns| && sql.conns[c].handle < |sql.handles|
  {
    sql.handles[sql.conns[c].handle].gen
  }

  /** gen is the generation the path of db d shows now. */
  predicate Newest(s: State, d: DbId, gen: nat) {
    d < |s.dbs| && gen + 1 == |s.disk.Links(s.dbs[d].name)|
  }

  /** A Conn no sweep has reached has the handle newConn gave it. */
  predicate AgeOk(s: State, c: ConnId)
    requires c < |s.sql.conns|
  {
    var k := s.sql.conns[c];
    && k.db < |s.dbs| && k.handle < |s.sql.handles|
    && k.born <= GenOf(s.sql, c)
    && (k.joined.None? ==> GenOf(s.sql, c) == k.born)
    && (k.joined.Some? ==>
          k.joined.value <= s.dbs[k.db].pool.sweeps
          && (k.joined.value == s.dbs[k.db].pool.sweeps ==> GenOf(s.sql, c) == k.born))
  }

  /** c was registered before the last sweep of db d began. */
  predicate Swept(s: State, d: DbId, c: ConnId) {
    && d < |s.dbs| && c < |s.sql.conns| && s.sql.conns[c].handle < |s.sql.handles|
    && s.sql.conns[c].joined.Some? && s.sql.conns[c].joined.value < s.dbs[d].pool.sweeps
  }

  /** What the last sweep has achieved so far, by where the watcher is. */
  ghost predicate SweepOk(s: State, d: DbId, loop: WatchPc) {
    d < |s.dbs| &&
    match loop
    case Select => forall c :: c in s.dbs[d].pool.conns && Swept(s, d, c) ==> Newest(s, d, GenOf(s.sql, c))
    case Refetch(_) => forall c :: c in s.dbs[d].pool.conns && Swept(s, d, c) ==> Newest(s, d, GenOf(s.sql, c))
    case SweepStart(_) => true
    case Sweep(_, cs) =>
      forall c :: c in s.dbs[d].pool.conns ==> Swept(s, d, c) && (c in cs || Newest(s, d, GenOf(s.sql, c)))
    case SweepStore(_, cs, e, h) =>
      && h < |s.sql.handles| && Newest(s, d, s.sql.handles[h].gen)
      && forall c :: c in s.dbs[d].pool.conns ==>
           Swept(s, d, c) && (c in cs || c == e || Newest(s, d, GenOf(s.sql, c)))
  }

  ghost predicate FreshPcOk(s: State, pc: Pc) {
    pc.Watching? ==> SweepOk(s, pc.d, pc.loop)
  }

  ghost predicate Fresh(s: State) {
    && (forall c :: 0 <= c < |s.sql.conns| ==> AgeOk(s, c))
    && (forall t :: 0 <= t < |s.threads| ==> FreshPcOk(s, s.threads[t]))
    && (forall d :: 0 <= d < |s.dbs| && s.dbs[d].watcher.None? ==> s.dbs[d].pool.sweeps == 0)
  }

  // ------------------------------------------------------------ preservation

  /** Nothing about the handles, registrations, sweeps or paths of the databases
      with a live watcher changes. */
  ghost predicate SameAges(s: State, s': State) {
    && s'.sql.conns == s.sql.conns && s'.sql.handles == s.sql.handles
    && s'.disk.links == s.disk.links && |s.dbs| <= |s'.dbs|
    && (forall d :: 0 <= d < |s.dbs| ==>
          s'.dbs[d].name == s.dbs[d].name && s'.dbs[d].pool.conns == s.dbs[d].pool.conns
          && s'.dbs[d].pool.sweeps == s.dbs[d].pool.sweeps
          && (s'.dbs[d].watcher.None? ==> s.dbs[d].watcher.None?))
    && (forall d :: |s.dbs| <= d < |s'.dbs| ==> s'.dbs[d].pool.sweeps == 0)
  }

  lemma FreshAfter(s: State, s': State)
    requires Fresh(s) && SameAges(s, s')
    requires forall u :: 0 <= u < |s'.threads| ==>
      FreshPcOk(s', s'.threads[u]) || (u < |s.threads| && s'.threads[u] == s.threads[u])
    ensures Fresh(s')
  {
    forall c | 0 <= c < |s'.sql.conns| ensures AgeOk(s', c) { assert AgeOk(s, c); }
    forall u | 0 <= u < |s'.threads| ensures FreshPcOk(s', s'.threads[u]) {
      if u < |s.threads| && s'.threads[u] == s.threads[u] { assert FreshPcOk(s, s.threads[u]); }
    }
  }

  /** A rename is done only by the thread in charge of the name, which claims
      nothing about generations until it has swept. */
  lemma FreshRename(s: State, s': State, t: Tid, name: string, link: Link)
    requires Fresh(s) && Watched(s) && Locked(s) && t < |s.threads|
    requires PartOf(s.threads[t]) == Absent(name)
      || (PartOf(s.threads[t]).Watcher? && !PartOf(s.threads[t]).gone
          && PartOf(s.threads[t]).d < |s.dbs| && s.dbs[PartOf(s.threads[t]).d].name == name)
    requires s'.dbs == s.dbs && s'.sql == s.sql
    requires s'.disk.links == s.disk.links[name := s.disk.Links(name) + [link]]
    requires |s'.threads| == |s.threads| && forall u :: 0 <= u < |s.threads| && u != t ==> s'.threads[u] == s.threads[u]
    requires FreshPcOk(s', s'.threads[t])
    ensures Fresh(s')
  {
    forall c | 0 <= c < |s'.sql.conns| ensures AgeOk(s', c) { assert AgeOk(s, c); }
    forall u | 0 <= u < |s'.threads| ensures FreshPcOk(s', s'.threads[u]) {
      if u != t {
        assert FreshPcOk(s, s.threads[u]) && PartOk(s, u);
        if s.threads[u].Watching? && s.dbs[s.threads[u].d].name == name {
          OnlyFetcher(s, t, name, s.threads[u].d);
        }
      }
    }
  }

  lemma FreshOpenFetch(w: World, s: State, t: Tid, name: string, seen: nat, f: Fetch, ch: Choice, s': State)
    requires Fresh(s) && Watched(s) && Locked(s) && Stable(w, s)
    requires t < |s.threads| && s.threads[t] == Opening(OpenFetch(name, seen, f))
    requires OpenFetching(s, t, name, seen, f, ch) == Some(s')
    ensures Fresh(s')
  {
    assert DiskPcOk(s.disk, t, s.threads[t]);
    var (disk, p) := FetchStep(s.disk, t, name, f, ch).value;
    FetchEffect(s.disk, t, name, f, ch, disk, p);
    hide FetchStep, TmpOk, Fresh, Watched, Locked, Stable;
    if p.Renamed? {
      FreshRename(s, s', t, name, Link(f.tmp.value, f.hash));
    } else {
      FreshAfter(s, s');
    }
  }

  lemma FreshRefetch(w: World, s: State, t: Tid, d: DbId, f: Fetch, ch: Choice, s': State)
    requires Fresh(s) && Watched(s) && Locked(s) && Stable(w, s)
    requires t < |s.threads| && d < |s.dbs| && s.threads[t] == Watching(d, Refetch(f))
    requires Refetching(s, t, d, f, ch) == Some(s')
    ensures Fresh(s')
  {
    assert DiskPcOk(s.disk, t, s.threads[t]) && FreshPcOk(s, s.threads[t]);
    var (disk, p) := FetchStep(s.disk, t, s.dbs[d].name, f, ch).value;
    FetchEffect(s.disk, t, s.dbs[d].name, f, ch, disk, p);
    hide FetchStep, TmpOk, Fresh, Watched, Locked, Stable;
    if p.Renamed? {
      FreshRename(s, s', t, s.dbs[d].name, Link(f.tmp.value, f.hash));
    } else {
      FreshAfter(s, s');
    }
  }

  lemma FreshOpenConn(s: State, t: Tid, d: DbId, s': State)
    requires Fresh(s) && Bounded(s) && t < |s.threads| && s.threads[t] == Opening(OpenConn(d))
    requires OpenNewConn(s, t, d) == Some(s')
    ensures Fresh(s')
  {
    forall c | 0 <= c < |s'.sql.conns| ensures AgeOk(s', c) {
      if c < |s.sql.conns| { assert AgeOk(s, c); }
    }
    forall u | 0 <= u < |s'.threads| ensures FreshPcOk(s', s'.threads[u]) {
      if u != t {
        assert FreshPcOk(s, s.threads[u]);
        if s.threads[u].Watching? { assert DbBounded(s, s.threads[u].d); }
      }
    }
  }

  lemma FreshOpenAdd(s: State, t: Tid, c: ConnId, ends: bool, s': State)
    requires Fresh(s) && Bounded(s) && Locked(s) && Accounted(s)
    requires t < |s.threads| && s.threads[t] == Opening(OpenAdding(c))
    requires OpenAdded(s, t, c, ends) == Some(s')
    ensures Fresh(s')
  {
    hide Fresh, Bounded, Locked, Accounted;
    if s.dbs[s.sql.conns[c].db].pool.dropped {
      FreshAfter(s, s');
    } else {
      FreshRegister(s, t, c, s');
    }
  }

  lemma FreshRegister(s: State, t: Tid, c: ConnId, s': State)
    requires Fresh(s) && Bounded(s) && Locked(s) && Accounted(s)
    requires t < |s.threads| && s.threads[t] == Opening(OpenAdding(c)) && s.HasConn(c)
    requires !s.dbs[s.sql.conns[c].db].pool.dropped && OpenAdded(s, t, c, false) == Some(s')
    ensures Fresh(s')
  {
    hide HandleOk, ConnOk, LinksBounded, SqlBounded, NamesBounded, Held, PcBounded;
    var d := s.sql.conns[c].db;
    assert AgeOk(s, c) && HandlePcOk(s, t, s.threads[t]);
    assert PoolHeld(s, d) && Writes(s.sql.conns, s.threads[t], d);
    forall e | 0 <= e < |s'.sql.conns| ensures AgeOk(s', e) { assert AgeOk(s, e); }
    forall u | 0 <= u < |s'.threads| ensures FreshPcOk(s', s'.threads[u]) {
      assert FreshPcOk(s, s.threads[u]) && !Reads(s.threads[u], d);
      if s.threads[u].Watching? { assert DbBounded(s, s.threads[u].d); }
    }
  }

  lemma FreshRemove(s: State, t: Tid, c: ConnId, s': State)
    requires Fresh(s) && t < |s.threads| && s.threads[t] == Closing(c, CloseRemove)
    requires s.HasConn(c) && CloseRemoved(s, t, c) == s'
    ensures Fresh(s')
  {
    forall e | 0 <= e < |s'.sql.conns| ensures AgeOk(s', e) { assert AgeOk(s, e); }
    forall u | 0 <= u < |s'.threads| ensures FreshPcOk(s', s'.threads[u]) {
      assert FreshPcOk(s, s.threads[u]);
    }
  }

  lemma FreshSweepBegin(s: State, t: Tid, d: DbId, hash: Hash, s': State)
    requires Fresh(s) && Accounted(s) && Bounded(s) && Watched(s)
    requires t < |s.threads| && d < |s.dbs| && s.threads[t] == Watching(d, SweepStart(hash))
    requires SweepBegun(s, t, d, hash) == Some(s')
    ensures Fresh(s')
  {
    assert PartOk(s, t) && DbBounded(s, d);
    forall e | 0 <= e < |s'.sql.conns| ensures AgeOk(s', e) { assert AgeOk(s, e); }
    forall c | c in s.dbs[d].pool.conns ensures Swept(s', d, c) {
      assert ConnOf(s, c, d) && ConnOk(s, c) && AgeOk(s, c);
    }
    forall u | 0 <= u < |s'.threads| ensures FreshPcOk(s', s'.threads[u]) {
      if u != t { assert FreshPcOk(s, s.threads[u]) && PartOk(s, u); }
    }
  }

  lemma FreshSweepOpen(s: State, t: Tid, d: DbId, hash: Hash, conns: set<ConnId>, c: ConnId, s': State)
    requires Fresh(s) && Bounded(s) && t < |s.threads| && d < |s.dbs| && s.threads[t] == Watching(d, Sweep(hash, conns))
    requires c in conns && s.CanOpen(d) && SweepOpened(s, t, d, hash, conns, c) == s'
    ensures Fresh(s')
  {
    forall e | 0 <= e < |s'.sql.conns| ensures AgeOk(s', e) { assert AgeOk(s, e); }
    forall u | 0 <= u < |s'.threads| ensures FreshPcOk(s', s'.threads[u]) {
      assert FreshPcOk(s, s.threads[u]);
      if s.threads[u].Watching? { assert DbBounded(s, s.threads[u].d); }
    }
  }

  lemma FreshSweepStore(s: State, t: Tid, d: DbId, hash: Hash, conns: set<ConnId>, c: ConnId, h: HandleId, s': State)
    requires Fresh(s) && Accounted(s) && Bounded(s) && Watched(s)
    requires t < |s.threads| && d < |s.dbs| && s.threads[t] == Watching(d, SweepStore(hash, conns, c, h))
    requires SweepStored(s, t, d, hash, conns, c, h) == Some(s')
    ensures Fresh(s')
    ensures GenOf(s.sql, c) <= GenOf(s'.sql, c)
  {
    assert FreshPcOk(s, s.threads[t]) && HandlePcOk(s, t, s.threads[t]) && PartOk(s, t);
    assert PcBounded(s, s.threads[t]) && ConnOk(s, c) && AgeOk(s, c) && HandleOk(s, s.sql.conns[c].handle);
    forall e | 0 <= e < |s'.sql.conns| ensures AgeOk(s', e) { assert AgeOk(s, e); }
    forall u | 0 <= u < |s'.threads| ensures FreshPcOk(s', s'.threads[u]) {
      assert FreshPcOk(s, s.threads[u]) && PartOk(s, u);
      if u != t && s.threads[u].Watching? { assert DbBounded(s, s.threads[u].d); }
    }
  }

  // ---------------------------------------------------------- all the actions

  lemma FreshAt(s: State, t: Tid)
    requires Fresh(s) && t < |s.threads|
    ensures FreshPcOk(s, s.threads[t])
  {
  }

  lemma FreshOpenMove(w: World, s: State, t: Tid, at: OpenPc, ch: Choice, s': State)
    requires Fresh(s) && t < |s.threads| && s.threads[t] == Opening(at)
    requires !at.OpenFetch? && !at.OpenAdding? && !at.OpenSpawn? && !(at.OpenConn? && ch.Go?)
    requires OpenStep(w, s, t, at, ch) == Some(s')
    ensures Fresh(s')
  {
    hide OpenFetching, OpenNewConn, OpenAdded, OpenSpawned, Fresh, SweepOk;
    FreshAfter(s, s');
  }

  /** No sweep of a db has happened before its watcher is spawned. */
  lemma FreshOpenSpawn(s: State, t: Tid, d: DbId, s': State)
    requires Fresh(s) && Watched(s) && t < |s.threads| && s.threads[t] == Opening(OpenSpawn(d))
    requires OpenSpawned(s, t, d) == Some(s')
    ensures Fresh(s')
  {
    assert PartOk(s, t);
    FreshAfter(s, s');
  }

  lemma FreshOpen(w: World, s: State, t: Tid, at: OpenPc, ch: Choice, s': State)
    requires Fresh(s) && Bounded(s) && Locked(s) && Watched(s) && Stable(w, s) && Accounted(s)
    requires t < |s.threads| && s.threads[t] == Opening(at) && OpenStep(w, s, t, at, ch) == Some(s')
    ensures Fresh(s')
  {
    hide OpenFetching, OpenNewConn, OpenAdded, OpenSpawned, Fresh, Bounded, Locked, Watched, Stable, Accounted;
    match at
    case OpenFetch(name, seen, f) => FreshOpenFetch(w, s, t, name, seen, f, ch, s');
    case OpenAdding(c) => FreshOpenAdd(s, t, c, ch.Fail?, s');
    case OpenSpawn(d) => FreshOpenSpawn(s, t, d, s');
    case OpenConn(d) =>
      if ch.Go? {
        FreshOpenConn(s, t, d, s');
      } else {
        FreshOpenMove(w, s, t, at, ch, s');
      }
    case _ => FreshOpenMove(w, s, t, at, ch, s');
  }

  lemma FreshSweepMove(s: State, t: Tid, d: DbId, loop: WatchPc, ch: Choice, s': State)
    requires Fresh(s) && t < |s.threads| && d < |s.dbs| && s.threads[t] == Watching(d, loop)
    requires !loop.Refetch? && !loop.SweepStore? && !loop.SweepStart? && !ch.Take?
    requires WatchStep(s, t, d, loop, ch) == Some(s')
    ensures Fresh(s')
  {
    hide Refetching, SweepBegun, SweepStored, SweepOpened, Fresh;
    FreshAt(s, t);
    FreshAfter(s, s');
  }

  lemma FreshWatch(w: World, s: State, t: Tid, d: DbId, loop: WatchPc, ch: Choice, s': State)
    requires Fresh(s) && Bounded(s) && Locked(s) && Watched(s) && Stable(w, s) && Accounted(s)
    requires t < |s.threads| && d < |s.dbs| && s.threads[t] == Watching(d, loop)
    requires WatchStep(s, t, d, loop, ch) == Some(s')
    ensures Fresh(s')
  {
    hide Refetching, SweepBegun, SweepStored, SweepOpened, Fresh, Bounded, Locked, Watched, Stable, Accounted;
    match loop
    case Refetch(f) => FreshRefetch(w, s, t, d, f, ch, s');
    case SweepStart(hash) => FreshSweepBegin(s, t, d, hash, s');
    case SweepStore(hash, conns, c, h) => FreshSweepStore(s, t, d, hash, conns, c, h, s');
    case Sweep(hash, conns) =>
      if ch.Take? {
        FreshSweepOpen(s, t, d, hash, conns, ch.n, s');
      } else {
        FreshSweepMove(s, t, d, loop, ch, s');
      }
    case Select => FreshSweepMove(s, t, d, loop, ch, s');
  }

  lemma FreshClose(s: State, t: Tid, c: ConnId, stage: ClosePc, ch: Choice, s': State)
    requires Fresh(s) && t < |s.threads| && s.threads[t] == Closing(c, stage)
    requires CloseStep(s, t, c, stage, ch) == Some(s')
    ensures Fresh(s')
  {
    hide Fresh;
    if stage.CloseRemove? {
      FreshRemove(s, t, c, s');
    } else {
      FreshAfter(s, s');
    }
  }

  lemma FreshSet(w: World, s: State, t: Tid, phase: SetPc, ch: Choice, s': State)
    requires Fresh(s) && t < |s.threads| && s.threads[t] == Setting(phase)
    requires SetStep(w, s, t, phase, ch) == Some(s')
    ensures Fresh(s')
  {
    hide Fresh;
    if phase.SetSend? {
      var u := s.dbs[phase.d].watcher.value;
      FreshAt(s, u);
      assert FreshPcOk(s', s'.threads[u]) || u == t;
    }
    FreshAfter(s, s');
  }

  lemma FreshExit(s: State, t: Tid, d: DbId, exit: ExitPc, ch: Choice, s': State)
    requires Fresh(s) && t < |s.threads| && d < |s.dbs| && s.threads[t] == Exiting(d, exit)
    requires ExitStep(s, t, d, exit, ch) == Some(s')
    ensures Fresh(s')
  {
    hide Fresh, SweepOk;
    FreshAfter(s, s');
  }

  lemma FreshCall(w: World, s: State, a: Action, s': State)
    requires Fresh(s) && Next(w, s, a) == Some(s')
    requires a.Run? ==> s.threads[a.t].Committing?
    ensures Fresh(s')
  {
    hide Fresh, SweepOk, OpenStep, CloseStep, SetStep, WatchStep, ExitStep;
    FreshAfter(s, s');
  }

  lemma FreshNext(w: World, s: State, a: Action, s': State)
    requires Fresh(s) && Bounded(s) && Locked(s) && Watched(s) && Stable(w, s) && Accounted(s)
    requires Next(w, s, a) == Some(s')
    ensures Fresh(s')
  {
    hide Fresh, Bounded, Locked, Watched, Stable, Accounted;
    hide OpenStep, CloseStep, SetStep, CommitStep, WatchStep, ExitStep, WriteStep;
    if a.Run? {
      match s.threads[a.t]
      case Opening(at) => FreshOpen(w, s, a.t, at, a.ch, s');
      case Closing(c, stage) => FreshClose(s, a.t, c, stage, a.ch, s');
      case Setting(phase) => FreshSet(w, s, a.t, phase, a.ch, s');
      case Watching(d, loop) => FreshWatch(w, s, a.t, d, loop, a.ch, s');
      case Exiting(d, exit) => FreshExit(s, a.t, d, exit, a.ch, s');
      case _ => FreshCall(w, s, a, s');
    } else {
      FreshCall(w, s, a, s');
    }
  }

  // ----------------------------------------------------------------- results

  /** With the watcher of d back at its select, a registered Conn uses the inode
      the path shows if and only if the last sweep reached it or newConn opened
      it after the last rename. */
  lemma FreshAtRest(s: State, d: DbId, c: ConnId)
    requires Fresh(s) && Accounted(s) && Bounded(s) && Watched(s) && Looping(s, d) && InHand(s, d) == []
    requires c in s.dbs[d].pool.conns
    ensures c < |s.sql.conns| && s.sql.conns[c].handle < |s.sql.handles|
    ensures Newest(s, d, GenOf(s.sql, c)) <==> Swept(s, d, c) || Newest(s, d, s.sql.conns[c].born)
  {
    assert DbBounded(s, d) && ConnOf(s, c, d) && ConnOk(s, c) && AgeOk(s, c);
    assert FreshPcOk(s, s.threads[s.dbs[d].watcher.value]) && Tended(s, d);
  }

  /** When reopenConns returns, every registered Conn is on the newest inode. */
  lemma FreshAfterSweep(s: State, t: Tid, d: DbId, hash: Hash, c: ConnId)
    requires Fresh(s) && Accounted(s) && Bounded(s)
    requires t < |s.threads| && s.threads[t] == Watching(d, Sweep(hash, {}))
    requires d < |s.dbs| && c in s.dbs[d].pool.conns
    ensures c < |s.sql.conns| && s.sql.conns[c].handle < |s.sql.handles|
    ensures Newest(s, d, GenOf(s.sql, c))
  {
    assert DbBounded(s, d) && ConnOf(s, c, d) && ConnOk(s, c);
    assert FreshPcOk(s, s.threads[t]);
  }

  /** The generation a Conn uses never goes back. */
  lemma GenerationsGrow(w: World, s: State, a: Action, s': State, c: ConnId)
    requires Fresh(s) && Accounted(s) && Bounded(s) && Locked(s) && Watched(s) && Next(w, s, a) == Some(s')
    requires c < |s.sql.conns|
    ensures c < |s'.sql.conns| && s.sql.conns[c].handle < |s.sql.handles| && s'.sql.conns[c].handle < |s'.sql.handles|
    ensures s'.sql.conns[c].db == s.sql.conns[c].db
    ensures GenOf(s.sql, c) <= GenOf(s'.sql, c)
  {
    hide Fresh, Accounted, Bounded, Locked, Watched, FetchStep;
    ConnAt(s, c);
    ConnsStay(w, s, a, s', c);
    HandleChanges(w, s, a, s', c);
    OpensShown(w, s, a, s');
    if SwappedNow(s, a, s', c) {
      AccountedAt(s, a.t);
      var d, loop := s.threads[a.t].d, s.threads[a.t].loop;
      hide OpenStep, ExitStep, SetStep, CommitStep, CloseStep;
      FreshSweepStore(s, a.t, d, loop.hash, loop.conns, loop.c, loop.h, s');
    } else {
      hide Next;
    }
  }
}
