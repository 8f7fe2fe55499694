/** A name is in the driver's map exactly while its one watcher is alive. */
module Watchers {
  import opened Values
  import opened Refresh
  import opened Locks

  /** What a thread is to the map of open databases: the watcher of a db, or an
      opener that has found a name absent, made its db, or stored it. */
  datatype Part = Nobody | Watcher(d: DbId, gone: bool) | Absent(name: string) | Installing(d: DbId) | Spawning(d: DbId)

  function PartOf(pc: Pc): Part {
    match pc
    case Watching(d, _) => Watcher(d, false)
    case Exiting(d, exit) => Watcher(d, exit.Exited?)
    case Opening(at) =>
      (match at
       case OpenGraph(n) => Absent(n)
       case OpenRead(n) => Absent(n)
       case OpenFetch(n, _, _) => Absent(n)
       case OpenSubscribe(n, _, _) => Absent(n)
       case OpenAttach(n, _, _) => Absent(n)
       case OpenInstall(d) => Installing(d)
       case OpenSpawn(d) => Spawning(d)
       case _ => Nobody)
    case _ => Nobody
  }

  predicate Stored(s: State, d: DbId)
    requires d < |s.dbs|
  {
    s.dbs[d].name in s.byName && s.byName[s.dbs[d].name] == d
  }

  predicate PartOk(s: State, t: Tid)
    requires t < |s.threads|
  {
    match PartOf(s.threads[t])
    case Nobody => true
    case Watcher(d, gone) => d < |s.dbs| && s.dbs[d].watcher == Some(t) && (gone || Stored(s, d))
    case Absent(n) => n !in s.byName
    case Installing(d) => d < |s.dbs| && s.dbs[d].watcher.None? && s.dbs[d].name !in s.byName
    case Spawning(d) => d < |s.dbs| && s.dbs[d].watcher.None? && Stored(s, d)
  }

  /** The thread that db d was handed to: its watcher, or else its opener. */
  predicate Tended(s: State, d: DbId)
    requires d < |s.dbs|
  {
    match s.dbs[d].watcher
    case Some(t) => t < |s.threads| && PartOf(s.threads[t]).Watcher? && PartOf(s.threads[t]).d == d
    case None =>
      s.dbMtx.Some? && s.dbMtx.value < |s.threads| && PartOf(s.threads[s.dbMtx.value]) in {Installing(d), Spawning(d)}
  }

  /** The watcher of d was spawned, or is about to be, and has not yet removed
      the name. */
  predicate Present(s: State, d: DbId)
    requires d < |s.dbs|
  {
    match s.dbs[d].watcher
    case Some(t) => t < |s.threads| && PartOf(s.threads[t]) == Watcher(d, false)
    case None => s.dbMtx.Some? && s.dbMtx.value < |s.threads| && PartOf(s.threads[s.dbMtx.value]) == Spawning(d)
  }

  ghost predicate Watched(s: State) {
    && (forall t :: 0 <= t < |s.threads| ==> PartOk(s, t))
    && (forall d :: 0 <= d < |s.dbs| ==> Tended(s, d))
    && (forall n :: n in s.byName ==> s.byName[n] < |s.dbs| && s.dbs[s.byName[n]].name == n && Present(s, s.byName[n]))
  }

  // ------------------------------------------------------------ preservation

  /** Nothing the invariant speaks of changes, except that thread t may come to
      know that a name is absent, or forget it. */
  ghost predicate SameParts(s: State, s': State, t: Tid) {
    && t < |s.threads| <= |s'.threads| && |s'.dbs| == |s.dbs| && s'.byName == s.byName
    && (forall d :: 0 <= d < |s.dbs| ==> s'.dbs[d].name == s.dbs[d].name && s'.dbs[d].watcher == s.dbs[d].watcher)
    && (forall u :: 0 <= u < |s'.threads| && u != t ==>
          PartOf(s'.threads[u]) == if u < |s.threads| then PartOf(s.threads[u]) else Nobody)
    && (s'.dbMtx == s.dbMtx || s.dbMtx.None? || s.dbMtx == Some(t))
    && var p, p' := PartOf(s.threads[t]), PartOf(s'.threads[t]);
       if p.Nobody? || p.Absent? then p'.Nobody? || (p'.Absent? && p'.name !in s.byName)
       else p' == p && (s'.dbMtx == s.dbMtx || p.Watcher?)
  }

  lemma WatchedAfter(s: State, s': State, t: Tid)
    requires Watched(s) && Locked(s) && SameParts(s, s', t)
    ensures Watched(s')
  {
    forall u | 0 <= u < |s'.threads| ensures PartOk(s', u) {
      if u < |s.threads| { assert PartOk(s, u); }
    }
    forall d | 0 <= d < |s'.dbs| ensures Tended(s', d) { assert Tended(s, d); }
    forall n | n in s'.byName ensures Present(s', s'.byName[n]) { assert Present(s, s.byName[n]); }
  }

  lemma WatchedOpenAttach(w: World, s: State, t: Tid, name: string, seen: nat, hash: Hash, s': State)
    requires Watched(s) && Locked(s) && t < |s.threads| && s.threads[t] == Opening(OpenAttach(name, seen, hash))
    requires OpenAttached(w, s, t, name, seen, hash) == s'
    ensures Watched(s')
  {
    assert PartOk(s, t) && s.dbMtx == Some(t);
    forall u | 0 <= u < |s'.threads| ensures PartOk(s', u) { assert PartOk(s, u); }
    forall d | 0 <= d < |s'.dbs| ensures Tended(s', d) {
      if d < |s.dbs| { assert Tended(s, d); }
    }
    forall n | n in s'.byName ensures Present(s', s'.byName[n]) { assert Present(s, s.byName[n]); }
  }

  lemma WatchedOpenInstall(s: State, t: Tid, d: DbId, s': State)
    requires Watched(s) && Locked(s) && t < |s.threads| && s.threads[t] == Opening(OpenInstall(d))
    requires OpenInstalled(s, t, d) == Some(s')
    ensures Watched(s')
  {
    hide PoolsHeld;
    assert PartOk(s, t) && s.dbMtx == Some(t);
    forall u | 0 <= u < |s'.threads| ensures PartOk(s', u) {
      assert PartOk(s, u) && (HoldsDbMtx(s.threads[u]) ==> u == t);
    }
    forall e | 0 <= e < |s'.dbs| ensures Tended(s', e) { assert Tended(s, e); }
    forall n | n in s'.byName ensures Present(s', s'.byName[n]) {
      if n in s.byName { assert Present(s, s.byName[n]); }
    }
  }

  lemma WatchedOpenSpawn(s: State, t: Tid, d: DbId, s': State)
    requires Watched(s) && Locked(s) && t < |s.threads| && s.threads[t] == Opening(OpenSpawn(d))
    requires OpenSpawned(s, t, d) == Some(s')
    ensures Watched(s')
  {
    hide PoolsHeld;
    assert PartOk(s, t) && s.dbMtx == Some(t);
    forall u | 0 <= u < |s'.threads| ensures PartOk(s', u) {
      if u < |s.threads| { assert PartOk(s, u) && (HoldsDbMtx(s.threads[u]) ==> u == t); }
    }
    forall e | 0 <= e < |s'.dbs| ensures Tended(s', e) { assert Tended(s, e); }
    forall n | n in s'.byName ensures Present(s', s'.byName[n]) { assert Present(s, s.byName[n]); }
  }

  lemma WatchedExitDelete(s: State, t: Tid, d: DbId, s': State)
    requires Watched(s) && Locked(s) && t < |s.threads| && d < |s.dbs| && s.threads[t] == Exiting(d, ExitDelete)
    requires ExitStep(s, t, d, ExitDelete, Go) == Some(s')
    ensures Watched(s')
  {
    assert PartOk(s, t) && s.dbMtx == Some(t);
    forall u | 0 <= u < |s'.threads| ensures PartOk(s', u) {
      assert PartOk(s, u) && (HoldsDbMtx(s.threads[u]) ==> u == t);
      if u != t && PartOf(s.threads[u]).Watcher? && !PartOf(s.threads[u]).gone {
        assert s.dbs[PartOf(s.threads[u]).d].watcher == Some(u);
      }
    }
    forall e | 0 <= e < |s'.dbs| ensures Tended(s', e) { assert Tended(s, e); }
    forall n | n in s'.byName ensures Present(s', s'.byName[n]) { assert Present(s, s.byName[n]); }
  }

  lemma WatchedOpenMove(w: World, s: State, t: Tid, at: OpenPc, ch: Choice, s': State)
    requires Watched(s) && Locked(s) && t < |s.threads| && s.threads[t] == Opening(at)
    requires !at.OpenAttach? && !at.OpenInstall? && !at.OpenSpawn? && !at.OpenConn? && !at.OpenAdd? && !at.OpenAdding?
    requires !at.OpenFetch? && OpenStep(w, s, t, at, ch) == Some(s')
    ensures Watched(s')
  {
    hide OpenFetching, Tended, Present, PoolsHeld;
    assert PartOk(s, t);
    WatchedAfter(s, s', t);
  }

  lemma WatchedOpenFetch(s: State, t: Tid, name: string, seen: nat, f: Fetch, ch: Choice, s': State)
    requires Watched(s) && Locked(s) && t < |s.threads| && s.threads[t] == Opening(OpenFetch(name, seen, f))
    requires OpenFetching(s, t, name, seen, f, ch) == Some(s')
    ensures Watched(s')
  {
    hide FetchStep, Tended, Present, PoolsHeld;
    assert PartOk(s, t);
    WatchedAfter(s, s', t);
  }

  lemma WatchedOpenConn(w: World, s: State, t: Tid, at: OpenPc, ch: Choice, s': State)
    requires Watched(s) && Locked(s) && t < |s.threads| && s.threads[t] == Opening(at)
    requires at.OpenConn? || at.OpenAdd?
    requires OpenStep(w, s, t, at, ch) == Some(s')
    ensures Watched(s')
  {
    hide OpenAdded, OpenFetching, Tended, Present, PoolsHeld, PartOk;
    WatchedAfter(s, s', t);
  }

  lemma WatchedOpenAdd(s: State, t: Tid, c: ConnId, ends: bool, s': State)
    requires Watched(s) && Locked(s) && t < |s.threads| && s.threads[t] == Opening(OpenAdding(c))
    requires OpenAdded(s, t, c, ends) == Some(s')
    ensures Watched(s')
  {
    hide Watched, Locked, Held;
    WatchedAfter(s, s', t);
  }

  lemma WatchedOpen(w: World, s: State, t: Tid, at: OpenPc, ch: Choice, s': State)
    requires Watched(s) && Locked(s) && t < |s.threads| && s.threads[t] == Opening(at)
    requires OpenStep(w, s, t, at, ch) == Some(s')
    ensures Watched(s')
  {
    match at
    case OpenFetch(name, seen, f) => WatchedOpenFetch(s, t, name, seen, f, ch, s');
    case OpenAttach(name, seen, hash) => WatchedOpenAttach(w, s, t, name, seen, hash, s');
    case OpenInstall(d) => WatchedOpenInstall(s, t, d, s');
    case OpenSpawn(d) => WatchedOpenSpawn(s, t, d, s');
    case OpenConn(_) => WatchedOpenConn(w, s, t, at, ch, s');
    case OpenAdd(_) => WatchedOpenConn(w, s, t, at, ch, s');
    case OpenAdding(c) => WatchedOpenAdd(s, t, c, ch.Fail?, s');
    case _ => WatchedOpenMove(w, s, t, at, ch, s');
  }

  lemma WatchedExit(s: State, t: Tid, d: DbId, exit: ExitPc, ch: Choice, s': State)
    requires Watched(s) && Locked(s) && t < |s.threads| && d < |s.dbs| && s.threads[t] == Exiting(d, exit)
    requires ExitStep(s, t, d, exit, ch) == Some(s')
    ensures Watched(s')
  {
    if exit.ExitDelete? {
      WatchedExitDelete(s, t, d, s');
    } else {
      hide Tended, Present, PoolsHeld;
      WatchedAfter(s, s', t);
    }
  }

  lemma WatchedClose(s: State, t: Tid, c: ConnId, stage: ClosePc, ch: Choice, s': State)
    requires Watched(s) && Locked(s) && t < |s.threads| && s.threads[t] == Closing(c, stage)
    requires CloseStep(s, t, c, stage, ch) == Some(s')
    ensures Watched(s')
  {
    WatchedAfter(s, s', t);
  }

  lemma WatchedSet(w: World, s: State, t: Tid, phase: SetPc, ch: Choice, s': State)
    requires Watched(s) && Locked(s) && t < |s.threads| && s.threads[t] == Setting(phase)
    requires SetStep(w, s, t, phase, ch) == Some(s')
    ensures Watched(s')
  {
    WatchedAfter(s, s', t);
  }

  lemma WatchedCommit(w: World, s: State, t: Tid, part: CommitPc, ch: Choice, s': State)
    requires Watched(s) && Locked(s) && t < |s.threads| && s.threads[t] == Committing(part)
    requires CommitStep(w, s, t, part, ch) == Some(s')
    ensures Watched(s')
  {
    WatchedAfter(s, s', t);
  }

  lemma WatchedWatch(s: State, t: Tid, d: DbId, loop: WatchPc, ch: Choice, s': State)
    requires Watched(s) && Locked(s) && t < |s.threads| && d < |s.dbs| && s.threads[t] == Watching(d, loop)
    requires WatchStep(s, t, d, loop, ch) == Some(s')
    ensures Watched(s')
  {
    hide Refetching, Tended, Present, PoolsHeld, PartOk;
    if loop.Refetch? {
      WatchedRefetch(s, t, d, loop.fetch, ch, s');
    } else if ch.Take? {
      WatchedSweepOpen(s, t, d, loop, ch, s');
    } else {
      WatchedSweep(s, t, d, loop, ch, s');
    }
  }

  lemma WatchedRefetch(s: State, t: Tid, d: DbId, f: Fetch, ch: Choice, s': State)
    requires Watched(s) && Locked(s) && t < |s.threads| && d < |s.dbs| && s.threads[t] == Watching(d, Refetch(f))
    requires Refetching(s, t, d, f, ch) == Some(s')
    ensures Watched(s')
  {
    hide FetchStep, Tended, Present, PoolsHeld, PartOk;
    WatchedAfter(s, s', t);
  }

  lemma WatchedSweepOpen(s: State, t: Tid, d: DbId, loop: WatchPc, ch: Choice, s': State)
    requires Watched(s) && Locked(s) && t < |s.threads| && d < |s.dbs| && s.threads[t] == Watching(d, loop)
    requires !loop.Refetch? && ch.Take? && WatchStep(s, t, d, loop, ch) == Some(s')
    ensures Watched(s')
  {
    hide Refetching, SweepBegun, SweepStored, SweepEnded, SweepFailed, Tended, Present, PoolsHeld, PartOk;
    WatchedAfter(s, s', t);
  }

  lemma WatchedSweep(s: State, t: Tid, d: DbId, loop: WatchPc, ch: Choice, s': State)
    requires Watched(s) && Locked(s) && t < |s.threads| && d < |s.dbs| && s.threads[t] == Watching(d, loop)
    requires !loop.Refetch? && !ch.Take? && WatchStep(s, t, d, loop, ch) == Some(s')
    ensures Watched(s')
  {
    hide Refetching, SweepOpened, Tended, Present, PoolsHeld, PartOk;
    WatchedAfter(s, s', t);
  }

  lemma WatchedNext(w: World, s: State, a: Action, s': State)
    requires Watched(s) && Locked(s) && Next(w, s, a) == Some(s')
    ensures Watched(s')
  {
    match a
    case Spawn =>
      forall u | 0 <= u < |s'.threads| ensures PartOk(s', u) {
        if u < |s.threads| { assert PartOk(s, u); }
      }
      forall d | 0 <= d < |s'.dbs| ensures Tended(s', d) { assert Tended(s, d); }
    case Begin(t, pc) => WatchedAfter(s, s', t);
    case Write(h, content) =>
      forall u | 0 <= u < |s'.threads| ensures PartOk(s', u) { assert PartOk(s, u); }
      forall d | 0 <= d < |s'.dbs| ensures Tended(s', d) { assert Tended(s, d); }
    case Run(t, ch) =>
      match s.threads[t]
      case Opening(at) => WatchedOpen(w, s, t, at, ch, s');
      case Closing(c, stage) => WatchedClose(s, t, c, stage, ch, s');
      case Setting(phase) => WatchedSet(w, s, t, phase, ch, s');
      case Committing(part) => WatchedCommit(w, s, t, part, ch, s');
      case Watching(d, loop) => WatchedWatch(s, t, d, loop, ch, s');
      case Exiting(d, exit) => WatchedExit(s, t, d, exit, ch, s');
  }

  // ----------------------------------------------------------------- results

  predicate Attends(s: State, t: Tid, d: DbId) {
    t < |s.threads| && PartOf(s.threads[t]).Watcher? && PartOf(s.threads[t]).d == d
  }

  /** A name is in the map iff its watcher was spawned, or is about to be, and
      has not yet removed it; there is one such db and one such watcher. */
  lemma SingleWatcher(s: State, n: string)
    requires Watched(s)
    ensures n in s.byName <==> exists d :: 0 <= d < |s.dbs| && s.dbs[d].name == n && Present(s, d)
    ensures forall d, e :: 0 <= d < |s.dbs| && 0 <= e < |s.dbs| ==>
      (Present(s, d) && Present(s, e) && s.dbs[d].name == s.dbs[e].name ==> d == e)
    ensures forall t, u, d :: Attends(s, t, d) && Attends(s, u, d) ==> t == u
  {
    forall d | 0 <= d < |s.dbs| && Present(s, d) ensures Stored(s, d) {
      match s.dbs[d].watcher
      case Some(t) => assert PartOk(s, t);
      case None => assert PartOk(s, s.dbMtx.value);
    }
    forall t, u, d | Attends(s, t, d) && Attends(s, u, d) ensures t == u {
      assert PartOk(s, t) && PartOk(s, u);
    }
  }

  /** The deletion at the end of a watcher removes its own entry, never that of
      a db opened later under the same name. */
  lemma DeletesOwnEntry(s: State, t: Tid, d: DbId)
    requires Watched(s) && t < |s.threads| && s.threads[t] == Exiting(d, ExitDelete)
    ensures d < |s.dbs| && s.dbs[d].name in s.byName && s.byName[s.dbs[d].name] == d
    ensures ExitStep(s, t, d, ExitDelete, Go).value.byName == map n | n in s.byName && s.byName[n] != d :: s.byName[n]
  {
    assert PartOk(s, t);
  }

  /** Whoever may rename onto the path of a name, its opener or its watcher, is
      the only thread concerned with a db of that name. */
  lemma OnlyFetcher(s: State, t: Tid, name: string, d: DbId)
    requires Watched(s) && Locked(s) && t < |s.threads| && d < |s.dbs| && s.dbs[d].name == name
    requires PartOf(s.threads[t]) == Absent(name)
      || (PartOf(s.threads[t]).Watcher? && !PartOf(s.threads[t]).gone
          && PartOf(s.threads[t]).d < |s.dbs| && s.dbs[PartOf(s.threads[t]).d].name == name)
    ensures s.dbs[d].watcher.Some?
    ensures s.dbs[d].watcher.value < |s.threads|
    ensures PartOf(s.threads[s.dbs[d].watcher.value]) == Watcher(d, false) ==> s.dbs[d].watcher == Some(t)
  {
    assert PartOk(s, t) && Tended(s, d);
    Opener(s, d);
    if s.dbs[d].watcher.Some? { assert PartOk(s, s.dbs[d].watcher.value); }
  }

  /** A db without a watcher is being installed by the thread that holds dbMtx. */
  lemma Opener(s: State, d: DbId)
    requires Watched(s) && d < |s.dbs|
    ensures s.dbs[d].watcher.None? ==>
      s.dbMtx.Some? && s.dbMtx.value < |s.threads| && PartOk(s, s.dbMtx.value)
      && PartOf(s.threads[s.dbMtx.value]) in {Installing(d), Spawning(d)}
  {
    assert Tended(s, d);
  }

  /** While a name has a live watcher or an opener past its lookup, no other
      opener is past its lookup. */
  lemma OnlyOpener(s: State, t: Tid, name: string, u: Tid)
    requires Watched(s) && Locked(s) && t < |s.threads| && u < |s.threads| && u != t
    requires PartOf(s.threads[t]) == Absent(name)
      || (PartOf(s.threads[t]).Watcher? && !PartOf(s.threads[t]).gone
          && PartOf(s.threads[t]).d < |s.dbs| && s.dbs[PartOf(s.threads[t]).d].name == name)
    ensures PartOf(s.threads[u]) != Absent(name)
  {
    assert PartOk(s, t) && PartOk(s, u);
    assert HoldsDbMtx(s.threads[u]) <==> s.dbMtx == Some(u);
  }
}
