/**
 The file at a path mirrors the registry: its last rename is for the hash the
 watcher has last applied, or is applying.
 */
module Mirror {
  import opened Values
  import opened Refresh
  import opened Locks
  import opened Watchers
  import opened Delivery
  import opened Disks

  /** What a thread knows about the last rename onto a path: an opener that has
      fetched, or a watcher in its loop with the hash it renamed and has not yet
      finished applying. */
  datatype Stage = Elsewhere | Fetched(name: string, hash: Hash) | Loop(d: DbId, renamed: Option<Hash>)

  function StageOf(pc: Pc): Stage {
    match pc
    case Opening(at) =>
      (match at
       case OpenSubscribe(name, _, hash) => Fetched(name, hash)
       case OpenAttach(name, _, hash) => Fetched(name, hash)
       case _ => Elsewhere)
    case Watching(d, loop) =>
      Loop(d, match loop
              case Select => None
              case Refetch(_) => None
              case SweepStart(hash) => Some(hash)
              case Sweep(hash, _) => Some(hash)
              case SweepStore(hash, _, _, _) => Some(hash))
    case _ => Elsewhere
  }

  predicate Ends(disk: Disk, name: string, hash: Hash) {
    |disk.Links(name)| > 0 && disk.Links(name)[|disk.Links(name)| - 1].hash == hash
  }

  predicate StageOk(s: State, pc: Pc) {
    match StageOf(pc)
    case Elsewhere => true
    case Fetched(name, hash) => Ends(s.disk, name, hash)
    case Loop(d, renamed) =>
      && d < |s.dbs|
      && Ends(s.disk, s.dbs[d].name, if renamed.Some? then renamed.value else LastFetched(s, d))
  }

  ghost predicate Mirrored(s: State) {
    && (forall t :: 0 <= t < |s.threads| ==> StageOk(s, s.threads[t]))
    && (forall d :: 0 <= d < |s.dbs| && s.dbs[d].watcher.None? ==> Ends(s.disk, s.dbs[d].name, LastFetched(s, d)))
  }

  // ------------------------------------------------------------ preservation

  /** No rename, no new db, and no thread but t moves between stages. */
  ghost predicate SameStages(s: State, s': State) {
    && s'.disk.links == s.disk.links && |s.dbs| <= |s'.dbs|
    && (forall d :: 0 <= d < |s.dbs| ==>
          s'.dbs[d].name == s.dbs[d].name && LastFetched(s', d) == LastFetched(s, d)
          && (s'.dbs[d].watcher.None? ==> s.dbs[d].watcher.None?))
    && (forall d :: |s.dbs| <= d < |s'.dbs| ==> Ends(s'.disk, s'.dbs[d].name, LastFetched(s', d)))
    && (forall u :: 0 <= u < |s'.threads| ==>
          StageOk(s', s'.threads[u]) || (u < |s.threads| && StageOf(s'.threads[u]) == StageOf(s.threads[u])))
  }

  lemma MirroredAfter(s: State, s': State)
    requires Mirrored(s) && SameStages(s, s')
    ensures Mirrored(s')
  {
    forall u | 0 <= u < |s'.threads| ensures StageOk(s', s'.threads[u]) {
      if u < |s.threads| && StageOf(s'.threads[u]) == StageOf(s.threads[u]) {
        assert StageOk(s, s.threads[u]);
      }
    }
  }

  /** Thread t renames a file for `hash` onto the path of `name`. */
  lemma MirroredRename(s: State, s': State, t: Tid, name: string, link: Link)
    requires Mirrored(s) && Watched(s) && Locked(s) && t < |s.threads|
    requires PartOf(s.threads[t]) == Absent(name)
      || (PartOf(s.threads[t]).Watcher? && !PartOf(s.threads[t]).gone
          && PartOf(s.threads[t]).d < |s.dbs| && s.dbs[PartOf(s.threads[t]).d].name == name)
    requires s'.dbs == s.dbs && s'.disk.links == s.disk.links[name := s.disk.Links(name) + [link]]
    requires |s'.threads| == |s.threads| && forall u :: 0 <= u < |s.threads| && u != t ==> s'.threads[u] == s.threads[u]
    requires StageOk(s', s'.threads[t])
    ensures Mirrored(s')
  {
    forall u | 0 <= u < |s'.threads| ensures StageOk(s', s'.threads[u]) {
      if u != t {
        assert StageOk(s, s.threads[u]);
        OnlyOpener(s, t, name, u);
        var stage := StageOf(s.threads[u]);
        if stage.Loop? && s.dbs[stage.d].name == name {
          assert PartOk(s, u);
          OnlyFetcher(s, t, name, stage.d);
        }
      }
    }
    forall d | 0 <= d < |s'.dbs| && s'.dbs[d].watcher.None? ensures Ends(s'.disk, s'.dbs[d].name, LastFetched(s', d)) {
      if s.dbs[d].name == name { OnlyFetcher(s, t, name, d); }
    }
  }

  lemma MirroredOpenFetch(w: World, s: State, t: Tid, name: string, seen: nat, f: Fetch, ch: Choice, s': State)
    requires Mirrored(s) && Watched(s) && Locked(s) && Stable(w, s)
    requires t < |s.threads| && s.threads[t] == Opening(OpenFetch(name, seen, f))
    requires OpenFetching(s, t, name, seen, f, ch) == Some(s')
    ensures Mirrored(s')
  {
    assert DiskPcOk(s.disk, t, s.threads[t]);
    var (disk, p) := FetchStep(s.disk, t, name, f, ch).value;
    FetchEffect(s.disk, t, name, f, ch, disk, p);
    hide FetchStep, TmpOk, Mirrored, Watched, Locked, Stable, DiskPcOk, LinkOk;
    if p.Renamed? {
      MirroredRename(s, s', t, name, Link(f.tmp.value, f.hash));
    } else {
      MirroredAfter(s, s');
    }
  }

  lemma MirroredRefetch(w: World, s: State, t: Tid, d: DbId, f: Fetch, ch: Choice, s': State)
    requires Mirrored(s) && Watched(s) && Locked(s) && Stable(w, s)
    requires t < |s.threads| && d < |s.dbs| && s.threads[t] == Watching(d, Refetch(f))
    requires Refetching(s, t, d, f, ch) == Some(s')
    ensures Mirrored(s')
  {
    assert DiskPcOk(s.disk, t, s.threads[t]);
    var (disk, p) := FetchStep(s.disk, t, s.dbs[d].name, f, ch).value;
    FetchEffect(s.disk, t, s.dbs[d].name, f, ch, disk, p);
    hide FetchStep, TmpOk, Mirrored, Watched, Locked, Stable, DiskPcOk;
    if p.Renamed? {
      MirroredRefetched(s, t, d, f, disk);
    } else {
      MirroredCopied(s, t, d, f, disk, s'.threads[t]);
    }
  }

  /** The fetch goes on or fails: nothing was renamed. */
  lemma MirroredCopied(s: State, t: Tid, d: DbId, f: Fetch, disk: Disk, pc: Pc)
    requires Mirrored(s) && t < |s.threads| && s.threads[t] == Watching(d, Refetch(f)) && disk.links == s.disk.links
    requires (pc.Watching? && pc.d == d && pc.loop.Refetch?) || pc.Exiting?
    ensures Mirrored(s.(disk := disk).Goto(t, pc))
  {
    hide Mirrored;
    MirroredAfter(s, s.(disk := disk).Goto(t, pc));
  }

  lemma MirroredRefetched(s: State, t: Tid, d: DbId, f: Fetch, disk: Disk)
    requires Mirrored(s) && Watched(s) && Locked(s) && f.tmp.Some?
    requires t < |s.threads| && d < |s.dbs| && s.threads[t] == Watching(d, Refetch(f))
    requires disk.links == s.disk.links[s.dbs[d].name := s.disk.Links(s.dbs[d].name) + [Link(f.tmp.value, f.hash)]]
    ensures Mirrored(s.(disk := disk).Goto(t, Watching(d, SweepStart(f.hash))))
  {
    hide Mirrored, Watched, Locked;
    var s' := s.(disk := disk).Goto(t, Watching(d, SweepStart(f.hash)));
    MirroredRename(s, s', t, s.dbs[d].name, Link(f.tmp.value, f.hash));
  }

  lemma MirroredOpenMove(w: World, s: State, t: Tid, at: OpenPc, ch: Choice, s': State)
    requires Mirrored(s) && t < |s.threads| && s.threads[t] == Opening(at)
    requires !at.OpenFetch? && !at.OpenSpawn? && !at.OpenAttach? && !at.OpenConn? && !at.OpenAdd? && !at.OpenAdding?
    requires OpenStep(w, s, t, at, ch) == Some(s')
    ensures Mirrored(s')
  {
    hide OpenFetching, OpenSpawned, OpenAttached, OpenNewConn, LockConns, OpenAdded, Mirrored;
    assert StageOk(s, s.threads[t]) by { MirroredAt(s, t); }
    MirroredAfter(s, s');
  }

  lemma MirroredOpenConn(w: World, s: State, t: Tid, at: OpenPc, ch: Choice, s': State)
    requires Mirrored(s) && t < |s.threads| && s.threads[t] == Opening(at)
    requires at.OpenConn? || at.OpenAdd?
    requires OpenStep(w, s, t, at, ch) == Some(s')
    ensures Mirrored(s')
  {
    hide OpenAdded, OpenFetching, Mirrored;
    MirroredAfter(s, s');
  }

  lemma MirroredOpenAdd(s: State, t: Tid, c: ConnId, ends: bool, s': State)
    requires Mirrored(s) && t < |s.threads| && s.threads[t] == Opening(OpenAdding(c))
    requires OpenAdded(s, t, c, ends) == Some(s')
    ensures Mirrored(s')
  {
    hide Mirrored;
    MirroredAfter(s, s');
  }

  lemma MirroredOpenAttach(w: World, s: State, t: Tid, name: string, seen: nat, hash: Hash, s': State)
    requires Mirrored(s) && t < |s.threads| && s.threads[t] == Opening(OpenAttach(name, seen, hash))
    requires OpenAttached(w, s, t, name, seen, hash) == s'
    ensures Mirrored(s')
  {
    hide Mirrored;
    assert StageOk(s, s.threads[t]) by { MirroredAt(s, t); }
    MirroredAfter(s, s');
  }

  lemma MirroredAt(s: State, t: Tid)
    requires Mirrored(s) && t < |s.threads|
    ensures StageOk(s, s.threads[t])
  {
  }

  lemma MirroredOpen(w: World, s: State, t: Tid, at: OpenPc, ch: Choice, s': State)
    requires Mirrored(s) && Watched(s) && Locked(s) && Stable(w, s) && t < |s.threads| && s.threads[t] == Opening(at)
    requires OpenStep(w, s, t, at, ch) == Some(s')
    ensures Mirrored(s')
  {
    hide OpenFetching, Mirrored, Watched, Locked, Stable;
    match at
    case OpenFetch(name, seen, f) => MirroredOpenFetch(w, s, t, name, seen, f, ch, s');
    case OpenSpawn(d) => MirroredOpenSpawn(s, t, d, s');
    case OpenConn(_) => MirroredOpenConn(w, s, t, at, ch, s');
    case OpenAdd(_) => MirroredOpenConn(w, s, t, at, ch, s');
    case OpenAdding(c) => MirroredOpenAdd(s, t, c, ch.Fail?, s');
    case OpenAttach(name, seen, hash) => MirroredOpenAttach(w, s, t, name, seen, hash, s');
    case _ => MirroredOpenMove(w, s, t, at, ch, s');
  }

  lemma MirroredOpenSpawn(s: State, t: Tid, d: DbId, s': State)
    requires Mirrored(s) && Watched(s) && t < |s.threads| && s.threads[t] == Opening(OpenSpawn(d))
    requires OpenSpawned(s, t, d) == Some(s')
    ensures Mirrored(s')
  {
    assert PartOk(s, t);
    MirroredAfter(s, s');
  }

  lemma MirroredWatch(w: World, s: State, t: Tid, d: DbId, loop: WatchPc, ch: Choice, s': State)
    requires Mirrored(s) && Watched(s) && Locked(s) && Stable(w, s)
    requires t < |s.threads| && d < |s.dbs| && s.threads[t] == Watching(d, loop)
    requires WatchStep(s, t, d, loop, ch) == Some(s')
    ensures Mirrored(s')
  {
    hide Refetching, Watched, Locked, Stable, Mirrored;
    if loop.Refetch? {
      MirroredRefetch(w, s, t, d, loop.fetch, ch, s');
    } else if loop.Sweep? && ch.Go? {
      MirroredSweepEnd(s, t, d, loop.hash, s');
    } else {
      MirroredSweep(s, t, d, loop, ch, s');
    }
  }

  lemma MirroredSweep(s: State, t: Tid, d: DbId, loop: WatchPc, ch: Choice, s': State)
    requires Mirrored(s) && t < |s.threads| && d < |s.dbs| && s.threads[t] == Watching(d, loop)
    requires !loop.Refetch? && !(loop.Sweep? && ch.Go?) && WatchStep(s, t, d, loop, ch) == Some(s')
    ensures Mirrored(s')
  {
    hide Refetching, SweepEnded, Mirrored, Ends;
    MirroredAfter(s, s');
  }

  lemma MirroredSweepEnd(s: State, t: Tid, d: DbId, hash: Hash, s': State)
    requires Mirrored(s) && Watched(s) && t < |s.threads| && d < |s.dbs|
    requires s.threads[t] == Watching(d, Sweep(hash, {})) && SweepEnded(s, t, d, hash) == s'
    ensures Mirrored(s')
  {
    assert PartOk(s, t);
    forall u | 0 <= u < |s'.threads| ensures StageOk(s', s'.threads[u]) {
      assert StageOk(s, s.threads[u]) && PartOk(s, u);
    }
  }

  lemma MirroredSet(w: World, s: State, t: Tid, phase: SetPc, ch: Choice, s': State)
    requires Mirrored(s) && t < |s.threads| && s.threads[t] == Setting(phase)
    requires SetStep(w, s, t, phase, ch) == Some(s')
    ensures Mirrored(s')
  {
    hide Mirrored, Ends;
    MirroredAfter(s, s');
  }

  lemma MirroredExit(s: State, t: Tid, d: DbId, exit: ExitPc, ch: Choice, s': State)
    requires Mirrored(s) && t < |s.threads| && d < |s.dbs| && s.threads[t] == Exiting(d, exit)
    requires ExitStep(s, t, d, exit, ch) == Some(s')
    ensures Mirrored(s')
  {
    hide Mirrored;
    MirroredAfter(s, s');
  }

  lemma MirroredCall(w: World, s: State, a: Action, s': State)
    requires Mirrored(s) && Next(w, s, a) == Some(s')
    requires !a.Run?
    ensures Mirrored(s')
  {
    hide Mirrored, Step;
    MirroredAfter(s, s');
  }

  lemma MirroredClose(s: State, t: Tid, c: ConnId, stage: ClosePc, ch: Choice, s': State)
    requires Mirrored(s) && t < |s.threads| && s.threads[t] == Closing(c, stage)
    requires CloseStep(s, t, c, stage, ch) == Some(s')
    ensures Mirrored(s')
  {
    hide Mirrored;
    MirroredAfter(s, s');
  }

  lemma MirroredCommit(w: World, s: State, t: Tid, part: CommitPc, ch: Choice, s': State)
    requires Mirrored(s) && t < |s.threads| && s.threads[t] == Committing(part)
    requires CommitStep(w, s, t, part, ch) == Some(s')
    ensures Mirrored(s')
  {
    hide Mirrored;
    MirroredAfter(s, s');
  }

  lemma MirroredNext(w: World, s: State, a: Action, s': State)
    requires Mirrored(s) && Watched(s) && Locked(s) && Stable(w, s) && Next(w, s, a) == Some(s')
    ensures Mirrored(s')
  {
    hide Mirrored, Watched, Locked, Stable, OpenStep, WatchStep, CloseStep, SetStep, CommitStep, ExitStep, WriteStep;
    if a.Run? {
      match s.threads[a.t]
      case Opening(at) => MirroredOpen(w, s, a.t, at, a.ch, s');
      case Watching(d, loop) => MirroredWatch(w, s, a.t, d, loop, a.ch, s');
      case Setting(phase) => MirroredSet(w, s, a.t, phase, a.ch, s');
      case Exiting(d, exit) => MirroredExit(s, a.t, d, exit, a.ch, s');
      case Closing(c, stage) => MirroredClose(s, a.t, c, stage, a.ch, s');
      case Committing(part) => MirroredCommit(w, s, a.t, part, a.ch, s');
    } else {
      MirroredCall(w, s, a, s');
    }
  }

  // ----------------------------------------------------------------- results

  /** At quiescence the bytes at the path, unless SQLite changed them since, are
      those of the last hash the watcher fetched. */
  lemma QuiescentFile(w: World, s: State, d: DbId)
    requires Mirrored(s) && Stable(w, s) && Watched(s) && Looping(s, d) && InHand(s, d) == []
    ensures s.disk.Available(LastFetched(s, d))
    ensures Shown(s.disk, s.dbs[d].name).Some?
    ensures var file := Shown(s.disk, s.dbs[d].name).value;
      file.linked && file.origin == LastFetched(s, d)
      && (file.version == 0 ==> file.content == s.disk.Source(LastFetched(s, d)))
  {
    var t := s.dbs[d].watcher.value;
    assert PartOk(s, t) && Tended(s, d) && StageOk(s, s.threads[t]);
    LinkAt(s.disk, s.dbs[d].name, |s.disk.Links(s.dbs[d].name)| - 1);
  }
}
