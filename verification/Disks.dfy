/**
 The files: a path only ever shows a complete fetched content, possibly changed
 since by SQLite, and a Commit that no write disturbs returns the key of the
 bytes it opened.
 */
module Disks {
  import opened Values
  import opened Refresh

  /** A copy in progress holds a prefix of what it is fetched for. */
  predicate Copied(disk: Disk, file: File) {
    || file.content == []
    || (disk.Available(file.origin) && |file.content| <= |disk.Source(file.origin)|
        && file.content == disk.Source(file.origin)[..|file.content|])
  }

  predicate TmpOk(disk: Disk, t: Tid, f: Fetch) {
    f.tmp.Some? ==>
      && f.tmp.value < |disk.files|
      && var file := disk.files[f.tmp.value];
         file.owner == t && !file.linked && file.version == 0 && file.origin == f.hash && Copied(disk, file)
  }

  /** A commit has the bytes of its file as they were, unless SQLite wrote. */
  predicate CommitOk(disk: Disk, part: CommitPc) {
    match part
    case CommitStart(_) => true
    case CommitStat(_, i, version, start) =>
      && i < |disk.files| && disk.files[i].linked && version <= disk.files[i].version
      && (disk.files[i].version == version ==> disk.files[i].content == start)
    case CommitRead(_, i, version, start, size, buf) =>
      && i < |disk.files| && disk.files[i].linked && version <= disk.files[i].version
      && |buf| <= size
      && (disk.files[i].version == version ==>
            disk.files[i].content == start && size == |start| && buf == start[..|buf|])
  }

  predicate DiskPcOk(disk: Disk, t: Tid, pc: Pc) {
    match pc
    case Opening(at) => at.OpenFetch? ==> TmpOk(disk, t, at.fetch)
    case Watching(_, loop) => loop.Refetch? ==> TmpOk(disk, t, loop.fetch)
    case Committing(part) => CommitOk(disk, part)
    case _ => true
  }

  predicate LinkOk(disk: Disk, link: Link) {
    && link.inode < |disk.files|
    && var file := disk.files[link.inode];
       && file.linked && file.origin == link.hash && disk.Available(link.hash)
       && (file.version == 0 ==> file.content == disk.Source(link.hash))
  }

  ghost predicate LinksOk(disk: Disk) {
    forall n, k :: n in disk.links && 0 <= k < |disk.links[n]| ==> LinkOk(disk, disk.links[n][k])
  }

  ghost predicate StoreOk(w: World, store: map<Hash, Bytes>) {
    forall h :: h in store ==> w.digest(store[h]) == h
  }

  predicate CommittedOk(w: World, disk: Disk, c: Committed) {
    c.quiet ==> c.hash == w.digest(c.start) && c.hash in disk.store && disk.store[c.hash] == c.start
  }

  ghost predicate CommitsOk(w: World, disk: Disk) {
    forall k :: 0 <= k < |disk.commits| ==> CommittedOk(w, disk, disk.commits[k])
  }

  ghost predicate HandlesLinked(s: State) {
    forall h :: 0 <= h < |s.sql.handles| ==>
      s.sql.handles[h].inode < |s.disk.files| && s.disk.files[s.sql.handles[h].inode].linked
  }

  ghost predicate Stable(w: World, s: State) {
    && StoreOk(w, s.disk.store) && LinksOk(s.disk) && CommitsOk(w, s.disk) && HandlesLinked(s)
    && (forall t :: 0 <= t < |s.threads| ==> DiskPcOk(s.disk, t, s.threads[t]))
  }

  // ------------------------------------------------------------ preservation

  /** The files and the store did not change. */
  lemma StableAfter(w: World, s: State, s': State)
    requires Stable(w, s) && s'.disk == s.disk && HandlesLinked(s')
    requires forall u :: 0 <= u < |s'.threads| ==>
      DiskPcOk(s'.disk, u, s'.threads[u]) || (u < |s.threads| && s'.threads[u] == s.threads[u])
    ensures Stable(w, s')
  {
    forall u | 0 <= u < |s'.threads| ensures DiskPcOk(s'.disk, u, s'.threads[u]) {
      if u < |s.threads| && s'.threads[u] == s.threads[u] { assert DiskPcOk(s.disk, u, s.threads[u]); }
    }
  }

  /** A fetch step changes only its own temporary file, until it renames it. */
  lemma FetchEffect(disk: Disk, t: Tid, name: string, f: Fetch, ch: Choice, disk': Disk, p: Progress)
    requires TmpOk(disk, t, f) && FetchStep(disk, t, name, f, ch) == Some((disk', p))
    ensures disk'.store == disk.store && disk'.commits == disk.commits && |disk.files| <= |disk'.files|
    ensures forall i :: 0 <= i < |disk.files| ==>
      disk'.files[i] == disk.files[i] || (disk.files[i].owner == t && !disk.files[i].linked)
    ensures p.Running? ==> TmpOk(disk', t, p.fetch) && disk'.links == disk.links && p.fetch.hash == f.hash
    ensures p.Failed? ==> disk' == disk
    ensures p.Renamed? ==>
      && f.tmp.Some? && LinkOk(disk', Link(f.tmp.value, f.hash)) && disk'.files[f.tmp.value].version == 0
      && disk'.links == disk.links[name := disk.Links(name) + [Link(f.tmp.value, f.hash)]]
  {
    if p.Renamed? {
      var file := disk.files[f.tmp.value];
      assert disk.Source(f.hash)[..|file.content|] == disk.Source(f.hash);
    }
  }

  lemma FetchKeepsLinks(disk: Disk, t: Tid, name: string, f: Fetch, ch: Choice, disk': Disk, p: Progress)
    requires TmpOk(disk, t, f) && FetchStep(disk, t, name, f, ch) == Some((disk', p)) && LinksOk(disk)
    ensures LinksOk(disk')
  {
    FetchEffect(disk, t, name, f, ch, disk', p);
    hide FetchStep, TmpOk;
    forall n, k | n in disk'.links && 0 <= k < |disk'.links[n]| ensures LinkOk(disk', disk'.links[n][k]) {
      if n in disk.links && k < |disk.links[n]| { assert LinkOk(disk, disk.links[n][k]); }
    }
  }

  lemma FetchKeepsPc(disk: Disk, t: Tid, name: string, f: Fetch, ch: Choice, disk': Disk, p: Progress, u: Tid, pc: Pc)
    requires TmpOk(disk, t, f) && FetchStep(disk, t, name, f, ch) == Some((disk', p)) && u != t && DiskPcOk(disk, u, pc)
    ensures DiskPcOk(disk', u, pc)
  {
    FetchEffect(disk, t, name, f, ch, disk', p);
    hide FetchStep;
  }

  lemma StableFetch(w: World, s: State, t: Tid, name: string, f: Fetch, ch: Choice, disk: Disk, p: Progress, s': State)
    requires Stable(w, s) && t < |s.threads| && TmpOk(s.disk, t, f)
    requires FetchStep(s.disk, t, name, f, ch) == Some((disk, p))
    requires s'.disk == disk && s'.sql == s.sql && |s'.threads| == |s.threads|
    requires forall u :: 0 <= u < |s.threads| && u != t ==> s'.threads[u] == s.threads[u]
    requires DiskPcOk(disk, t, s'.threads[t])
    ensures Stable(w, s')
  {
    FetchEffect(s.disk, t, name, f, ch, disk, p);
    FetchKeepsLinks(s.disk, t, name, f, ch, disk, p);
    hide FetchStep, LinksOk, TmpOk, DiskPcOk;
    forall u | 0 <= u < |s'.threads| ensures DiskPcOk(s'.disk, u, s'.threads[u]) {
      if u != t {
        assert DiskPcOk(s.disk, u, s.threads[u]);
        FetchKeepsPc(s.disk, t, name, f, ch, disk, p, u, s.threads[u]);
      }
    }
    forall k | 0 <= k < |s'.disk.commits| ensures CommittedOk(w, s'.disk, s'.disk.commits[k]) {
      assert CommittedOk(w, s.disk, s.disk.commits[k]);
    }
  }

  lemma StableOpenFetch(w: World, s: State, t: Tid, name: string, seen: nat, f: Fetch, ch: Choice, s': State)
    requires Stable(w, s) && t < |s.threads| && s.threads[t] == Opening(OpenFetch(name, seen, f))
    requires OpenFetching(s, t, name, seen, f, ch) == Some(s')
    ensures Stable(w, s')
  {
    assert DiskPcOk(s.disk, t, s.threads[t]);
    var (disk, p) := FetchStep(s.disk, t, name, f, ch).value;
    FetchEffect(s.disk, t, name, f, ch, disk, p);
    hide FetchStep, StoreOk, LinksOk, CommitsOk, HandlesLinked, TmpOk;
    StableFetch(w, s, t, name, f, ch, disk, p, s');
  }

  lemma StableRefetch(w: World, s: State, t: Tid, d: DbId, f: Fetch, ch: Choice, s': State)
    requires Stable(w, s) && t < |s.threads| && d < |s.dbs| && s.threads[t] == Watching(d, Refetch(f))
    requires Refetching(s, t, d, f, ch) == Some(s')
    ensures Stable(w, s')
  {
    assert DiskPcOk(s.disk, t, s.threads[t]);
    var (disk, p) := FetchStep(s.disk, t, s.dbs[d].name, f, ch).value;
    FetchEffect(s.disk, t, s.dbs[d].name, f, ch, disk, p);
    hide FetchStep, StoreOk, LinksOk, CommitsOk, HandlesLinked, TmpOk;
    StableFetch(w, s, t, s.dbs[d].name, f, ch, disk, p, s');
  }

  /** The store never changes what a hash stands for. */
  lemma StoreGrows(w: World, disk: Disk, buf: Bytes, disk': Disk)
    requires w.Ideal() && StoreOk(w, disk.store) && disk'.store == disk.store[w.digest(buf) := buf]
    ensures StoreOk(w, disk'.store)
    ensures forall h :: disk.Available(h) ==> disk'.Available(h) && disk'.Source(h) == disk.Source(h)
    ensures forall h :: h in disk.store ==> disk'.store[h] == disk.store[h]
  {
    forall h | h in disk.store ensures disk'.store[h] == disk.store[h] {
      assert w.digest(disk.store[h]) == h;
    }
  }

  lemma StableCommitStore(w: World, s: State, t: Tid, part: CommitPc, s': State)
    requires w.Ideal() && Stable(w, s) && t < |s.threads| && s.threads[t] == Committing(part) && part.CommitRead?
    requires CommitStep(w, s, t, part, Go) == Some(s')
    ensures Stable(w, s')
  {
    assert DiskPcOk(s.disk, t, s.threads[t]);
    StoreGrows(w, s.disk, part.buf, s'.disk);
    assert part.buf[..|part.buf|] == part.buf;
    assert |part.buf| == |part.start| ==> part.start[..|part.buf|] == part.start;
    forall k | 0 <= k < |s'.disk.commits| ensures CommittedOk(w, s'.disk, s'.disk.commits[k]) {
      if k < |s.disk.commits| { assert CommittedOk(w, s.disk, s.disk.commits[k]); }
    }
    forall n, k | n in s'.disk.links && 0 <= k < |s'.disk.links[n]| ensures LinkOk(s'.disk, s'.disk.links[n][k]) {
      assert LinkOk(s.disk, s.disk.links[n][k]);
    }
    forall u | 0 <= u < |s'.threads| ensures DiskPcOk(s'.disk, u, s'.threads[u]) {
      if u != t { assert DiskPcOk(s.disk, u, s.threads[u]); }
    }
  }

  lemma StableCommit(w: World, s: State, t: Tid, part: CommitPc, ch: Choice, s': State)
    requires w.Ideal() && Stable(w, s) && t < |s.threads| && s.threads[t] == Committing(part)
    requires CommitStep(w, s, t, part, ch) == Some(s')
    ensures Stable(w, s')
  {
    if part.CommitRead? && ch.Go? {
      StableCommitStore(w, s, t, part, s');
    } else {
      assert DiskPcOk(s.disk, t, s.threads[t]);
      if part.CommitStart? && ch.Go? {
        var links := s.disk.Links(part.name);
        assert LinkOk(s.disk, links[|links| - 1]);
      }
      hide StoreOk, LinksOk, CommitsOk;
      StableAfter(w, s, s');
    }
  }

  lemma StableWrite(w: World, s: State, h: HandleId, content: Bytes, s': State)
    requires Stable(w, s) && WriteStep(s, h, content) == Some(s')
    ensures Stable(w, s')
  {
    forall k | 0 <= k < |s'.disk.commits| ensures CommittedOk(w, s'.disk, s'.disk.commits[k]) {
      assert CommittedOk(w, s.disk, s.disk.commits[k]);
    }
    forall n, k | n in s'.disk.links && 0 <= k < |s'.disk.links[n]| ensures LinkOk(s'.disk, s'.disk.links[n][k]) {
      assert LinkOk(s.disk, s.disk.links[n][k]);
    }
    forall u | 0 <= u < |s'.threads| ensures DiskPcOk(s'.disk, u, s'.threads[u]) {
      assert DiskPcOk(s.disk, u, s.threads[u]);
    }
  }

  /** A newly opened handle is on a file some rename put at the path. */
  lemma NewHandleLinked(s: State, d: DbId, c: ConnId)
    requires LinksOk(s.disk) && s.CanOpen(d)
    ensures s.NewHandle(d, c).inode < |s.disk.files| && s.disk.files[s.NewHandle(d, c).inode].linked
  {
    var links := s.disk.Links(s.dbs[d].name);
    assert LinkOk(s.disk, links[|links| - 1]);
  }

  lemma StableOpenConn(w: World, s: State, t: Tid, d: DbId, s': State)
    requires Stable(w, s) && t < |s.threads| && s.threads[t] == Opening(OpenConn(d))
    requires OpenNewConn(s, t, d) == Some(s')
    ensures Stable(w, s')
  {
    hide StoreOk, LinksOk, CommitsOk;
    NewHandleLinked(s, d, |s.sql.conns|);
    StableAfter(w, s, s');
  }

  lemma StableOpen(w: World, s: State, t: Tid, at: OpenPc, ch: Choice, s': State)
    requires Stable(w, s) && t < |s.threads| && s.threads[t] == Opening(at)
    requires OpenStep(w, s, t, at, ch) == Some(s')
    ensures Stable(w, s')
  {
    hide StoreOk, LinksOk, CommitsOk, OpenFetching, OpenNewConn, OpenAdded, CommitOk, Stable;
    match at
    case OpenFetch(name, seen, f) => StableOpenFetch(w, s, t, name, seen, f, ch, s');
    case OpenConn(d) =>
      if ch.Go? {
        StableOpenConn(w, s, t, d, s');
      } else {
        StableOpenMove(w, s, t, at, ch, s');
      }
    case _ => StableOpenMove(w, s, t, at, ch, s');
  }

  lemma StableOpenMove(w: World, s: State, t: Tid, at: OpenPc, ch: Choice, s': State)
    requires Stable(w, s) && t < |s.threads| && s.threads[t] == Opening(at)
    requires !at.OpenFetch? && !(at.OpenConn? && ch.Go?) && OpenStep(w, s, t, at, ch) == Some(s')
    ensures Stable(w, s')
  {
    hide StoreOk, LinksOk, CommitsOk, OpenFetching, OpenNewConn, CommitOk;
    StableAfter(w, s, s');
  }

  lemma StableWatch(w: World, s: State, t: Tid, d: DbId, loop: WatchPc, ch: Choice, s': State)
    requires Stable(w, s) && t < |s.threads| && d < |s.dbs| && s.threads[t] == Watching(d, loop)
    requires WatchStep(s, t, d, loop, ch) == Some(s')
    ensures Stable(w, s')
  {
    hide StoreOk, LinksOk, CommitsOk, FetchStep, CommitOk;
    match loop
    case Refetch(f) => StableRefetch(w, s, t, d, f, ch, s');
    case Sweep(_, _) =>
      if ch.Take? { NewHandleLinked(s, d, ch.n); }
      StableAfter(w, s, s');
    case _ => StableAfter(w, s, s');
  }

  lemma StableClose(w: World, s: State, t: Tid, c: ConnId, stage: ClosePc, ch: Choice, s': State)
    requires Stable(w, s) && t < |s.threads| && s.threads[t] == Closing(c, stage)
    requires CloseStep(s, t, c, stage, ch) == Some(s')
    ensures Stable(w, s')
  {
    StableAfter(w, s, s');
  }

  lemma StableSet(w: World, s: State, t: Tid, phase: SetPc, ch: Choice, s': State)
    requires Stable(w, s) && t < |s.threads| && s.threads[t] == Setting(phase)
    requires SetStep(w, s, t, phase, ch) == Some(s')
    ensures Stable(w, s')
  {
    StableAfter(w, s, s');
  }

  lemma StableExit(w: World, s: State, t: Tid, d: DbId, exit: ExitPc, ch: Choice, s': State)
    requires Stable(w, s) && t < |s.threads| && d < |s.dbs| && s.threads[t] == Exiting(d, exit)
    requires ExitStep(s, t, d, exit, ch) == Some(s')
    ensures Stable(w, s')
  {
    StableAfter(w, s, s');
  }

  lemma StableNext(w: World, s: State, a: Action, s': State)
    requires w.Ideal() && Stable(w, s) && Next(w, s, a) == Some(s')
    ensures Stable(w, s')
  {
    hide StoreOk, LinksOk, CommitsOk;
    match a
    case Spawn => StableAfter(w, s, s');
    case Begin(t, pc) => StableAfter(w, s, s');
    case Write(h, content) => StableWrite(w, s, h, content, s');
    case Run(t, ch) =>
      match s.threads[t]
      case Opening(at) => StableOpen(w, s, t, at, ch, s');
      case Closing(c, stage) => StableClose(w, s, t, c, stage, ch, s');
      case Setting(phase) => StableSet(w, s, t, phase, ch, s');
      case Committing(part) => StableCommit(w, s, t, part, ch, s');
      case Watching(d, loop) => StableWatch(w, s, t, d, loop, ch, s');
      case Exiting(d, exit) => StableExit(w, s, t, d, exit, ch, s');
  }

  // ----------------------------------------------------------------- results

  /** The file a path shows, when there is one. */
  function Shown(disk: Disk, name: string): Option<File> {
    var links := disk.Links(name);
    if links == [] || links[|links| - 1].inode >= |disk.files| then None
    else Some(disk.files[links[|links| - 1].inode])
  }

  /** What a path shows is left alone, or replaced at once by a file holding
      the complete bytes of the hash it was fetched for. */
  ghost predicate Replaced(disk: Disk, disk': Disk, name: string) {
    || (disk'.Links(name) == disk.Links(name) && Shown(disk', name) == Shown(disk, name))
    || (&& |disk'.Links(name)| == |disk.Links(name)| + 1
        && disk'.Links(name)[..|disk.Links(name)|] == disk.Links(name)
        && var link := disk'.Links(name)[|disk.Links(name)|];
           LinkOk(disk', link) && disk'.files[link.inode].version == 0)
  }

  lemma FetchReplaces(disk: Disk, t: Tid, name: string, f: Fetch, ch: Choice, disk': Disk, p: Progress, n: string)
    requires TmpOk(disk, t, f) && FetchStep(disk, t, name, f, ch) == Some((disk', p)) && LinksOk(disk)
    ensures Replaced(disk, disk', n)
  {
    FetchEffect(disk, t, name, f, ch, disk', p);
    hide FetchStep, TmpOk, Copied;
    var links := disk.Links(n);
    if p.Renamed? && n == name {
      assert disk'.Links(n) == links + [Link(f.tmp.value, f.hash)];
    } else {
      hide LinksOk;
      assert disk'.Links(n) == links;
      if links != [] {
        LinkAt(disk, n, |links| - 1);
        assert Shown(disk', n) == Shown(disk, n);
      }
    }
  }

  lemma LinkAt(disk: Disk, n: string, k: nat)
    requires LinksOk(disk) && k < |disk.Links(n)|
    ensures LinkOk(disk, disk.Links(n)[k])
  {
  }

  lemma WatchReplaces(s: State, t: Tid, d: DbId, loop: WatchPc, ch: Choice, s': State, n: string)
    requires LinksOk(s.disk) && t < |s.threads| && d < |s.dbs| && DiskPcOk(s.disk, t, Watching(d, loop))
    requires WatchStep(s, t, d, loop, ch) == Some(s')
    ensures Replaced(s.disk, s'.disk, n)
  {
    if loop.Refetch? {
      var (disk, p) := FetchStep(s.disk, t, s.dbs[d].name, loop.fetch, ch).value;
      FetchReplaces(s.disk, t, s.dbs[d].name, loop.fetch, ch, disk, p, n);
    }
  }

  lemma OpenReplaces(w: World, s: State, t: Tid, at: OpenPc, ch: Choice, s': State, n: string)
    requires LinksOk(s.disk) && t < |s.threads| && DiskPcOk(s.disk, t, Opening(at))
    requires OpenStep(w, s, t, at, ch) == Some(s')
    ensures Replaced(s.disk, s'.disk, n)
  {
    if at.OpenFetch? {
      var (disk, p) := FetchStep(s.disk, t, at.name, at.fetch, ch).value;
      FetchReplaces(s.disk, t, at.name, at.fetch, ch, disk, p, n);
    }
  }

  /** Atomic replacement: at every step but a SQLite write, a path goes on
      showing the same bytes, or shows a complete fetched content. */
  lemma AtomicReplacement(w: World, s: State, a: Action, s': State, n: string)
    requires Stable(w, s) && Next(w, s, a) == Some(s') && !a.Write?
    ensures Replaced(s.disk, s'.disk, n)
  {
    hide LinksOk, TmpOk, CommitOk, Replaced;
    if a.Run? {
      assert DiskPcOk(s.disk, a.t, s.threads[a.t]);
      match s.threads[a.t]
      case Opening(at) => OpenReplaces(w, s, a.t, at, a.ch, s', n);
      case Watching(d, loop) => WatchReplaces(s, a.t, d, loop, a.ch, s', n);
      case _ => QuietReplaces(w, s, a, s', n);
    } else {
      QuietReplaces(w, s, a, s', n);
    }
  }

  lemma QuietReplaces(w: World, s: State, a: Action, s': State, n: string)
    requires Next(w, s, a) == Some(s') && !a.Write?
    requires a.Run? ==> !s.threads[a.t].Opening? && !s.threads[a.t].Watching?
    ensures Replaced(s.disk, s'.disk, n)
  {
    hide OpenStep, WatchStep;
  }

  /** A commit that no SQLite write disturbed stored the bytes it opened, and
      every refresh to its result, at any path, put exactly those bytes there. */
  lemma CommitRoundTrip(w: World, s: State, k: nat, name: string, j: nat)
    requires w.Ideal() && Stable(w, s)
    requires k < |s.disk.commits| && s.disk.commits[k].quiet
    requires j < |s.disk.Links(name)| && s.disk.Links(name)[j].hash == s.disk.commits[k].hash
    ensures s.disk.Links(name)[j].inode < |s.disk.files|
    ensures var file := s.disk.files[s.disk.Links(name)[j].inode];
      file.version == 0 ==> file.content == s.disk.commits[k].start
    ensures s.disk.commits[k].hash == w.digest(s.disk.commits[k].start)
  {
    assert CommittedOk(w, s.disk, s.disk.commits[k]) && LinkOk(s.disk, s.disk.Links(name)[j]);
  }
}
