/**
 What a call of Driver.Commit stores: the file that the path of the name it was
 called with showed when the call opened it.
 */
module CommitCalls {
  import opened Values
  import opened Refresh
  import opened Delivery
  import opened Disks
  import opened Runs
  import opened Calls

  // ------------------------------------------------------------- file versions

  /** A SQLite transaction on file f. */
  ghost predicate WritesFile(s: State, a: Action, f: Inode) {
    a.Write? && a.h < |s.sql.handles| && s.sql.handles[a.h].inode == f
  }

  /** The version of a file counts the SQLite writes that hit it. */
  ghost predicate Counts(s: State, a: Action, s': State, f: Inode) {
    f < |s.disk.files| ==>
      && f < |s'.disk.files|
      && s'.disk.files[f].version == s.disk.files[f].version + (if WritesFile(s, a, f) then 1 else 0)
  }

  lemma FetchCounts(disk: Disk, t: Tid, name: string, f: Fetch, ch: Choice, i: Inode)
    requires FetchStep(disk, t, name, f, ch).Some? && i < |disk.files|
    ensures var disk' := FetchStep(disk, t, name, f, ch).value.0;
      i < |disk'.files| && disk'.files[i].version == disk.files[i].version
  {
  }

  lemma OpenCounts(w: World, s: State, a: Action, at: OpenPc, s': State, f: Inode)
    requires a.Run? && a.t < |s.threads| && OpenStep(w, s, a.t, at, a.ch) == Some(s')
    ensures Counts(s, a, s', f)
  {
    if at.OpenFetch? && f < |s.disk.files| {
      FetchCounts(s.disk, a.t, at.name, at.fetch, a.ch, f);
    }
    hide FetchStep;
  }

  lemma WatchCounts(s: State, a: Action, d: DbId, loop: WatchPc, s': State, f: Inode)
    requires a.Run? && a.t < |s.threads| && d < |s.dbs| && WatchStep(s, a.t, d, loop, a.ch) == Some(s')
    ensures Counts(s, a, s', f)
  {
    if loop.Refetch? && f < |s.disk.files| {
      FetchCounts(s.disk, a.t, s.dbs[d].name, loop.fetch, a.ch, f);
    }
    hide FetchStep;
  }

  lemma CallCounts(w: World, s: State, a: Action, s': State, f: Inode)
    requires a.Run? && a.t < |s.threads| && Step(w, s, a.t, a.ch) == Some(s')
    requires !s.threads[a.t].Opening? && !s.threads[a.t].Watching?
    ensures Counts(s, a, s', f)
  {
    hide OpenStep, WatchStep;
  }

  lemma NextCounts(w: World, s: State, a: Action, s': State, f: Inode)
    requires Next(w, s, a) == Some(s')
    ensures Counts(s, a, s', f)
  {
    hide OpenStep, CloseStep, SetStep, CommitStep, WatchStep, ExitStep;
    if a.Run? {
      match s.threads[a.t]
      case Opening(at) => OpenCounts(w, s, a, at, s', f);
      case Watching(d, loop) => WatchCounts(s, a, d, loop, s', f);
      case Closing(_, _) => CallCounts(w, s, a, s', f);
      case Setting(_) => CallCounts(w, s, a, s', f);
      case Committing(_) => CallCounts(w, s, a, s', f);
      case Exiting(_, _) => CallCounts(w, s, a, s', f);
    }
  }

  /** No SQLite write hits file f between run[o] and run[m]. */
  ghost predicate Untouched(run: seq<State>, actions: seq<Action>, o: nat, m: nat, f: Inode)
    requires m <= |actions| && m <= |run|
  {
    forall q: nat :: o <= q < m ==> !WritesFile(run[q], actions[q], f)
  }

  lemma {:induction false} VersionTells(w: World, run: seq<State>, actions: seq<Action>, o: nat, m: nat, f: Inode)
    requires Behaviour(w, run, actions) && o <= m < |run| && f < |run[o].disk.files|
    ensures f < |run[m].disk.files| && run[o].disk.files[f].version <= run[m].disk.files[f].version
    ensures run[o].disk.files[f].version == run[m].disk.files[f].version <==> Untouched(run, actions, o, m, f)
  {
    hide Next, WritesFile;
    if o < m {
      VersionTells(w, run, actions, o, m - 1, f);
      assert Next(w, run[m - 1], actions[m - 1]) == Some(run[m]);
      NextCounts(w, run[m - 1], actions[m - 1], run[m], f);
      assert Untouched(run, actions, o, m, f) <==>
        Untouched(run, actions, o, m - 1, f) && !WritesFile(run[m - 1], actions[m - 1], f);
    }
  }

  // ------------------------------------------------------------ file contents

  /** A file that is at a path has what the last SQLite write left in it. */
  ghost predicate Rewrites(s: State, a: Action, s': State, f: Inode) {
    f < |s.disk.files| && s.disk.files[f].linked ==>
      && f < |s'.disk.files| && s'.disk.files[f].linked
      && s'.disk.files[f].content == (if WritesFile(s, a, f) then a.content else s.disk.files[f].content)
  }

  lemma OpenRewrites(w: World, s: State, a: Action, at: OpenPc, s': State, f: Inode)
    requires a.Run? && a.t < |s.threads| && OpenStep(w, s, a.t, at, a.ch) == Some(s')
    requires DiskPcOk(s.disk, a.t, Opening(at))
    ensures Rewrites(s, a, s', f)
  {
    if at.OpenFetch? {
      var (disk, p) := FetchStep(s.disk, a.t, at.name, at.fetch, a.ch).value;
      FetchEffect(s.disk, a.t, at.name, at.fetch, a.ch, disk, p);
    }
    hide FetchStep, TmpOk;
  }

  lemma WatchRewrites(s: State, a: Action, d: DbId, loop: WatchPc, s': State, f: Inode)
    requires a.Run? && a.t < |s.threads| && d < |s.dbs| && WatchStep(s, a.t, d, loop, a.ch) == Some(s')
    requires DiskPcOk(s.disk, a.t, Watching(d, loop))
    ensures Rewrites(s, a, s', f)
  {
    if loop.Refetch? {
      var (disk, p) := FetchStep(s.disk, a.t, s.dbs[d].name, loop.fetch, a.ch).value;
      FetchEffect(s.disk, a.t, s.dbs[d].name, loop.fetch, a.ch, disk, p);
    }
    hide FetchStep, TmpOk;
  }

  lemma CallRewrites(w: World, s: State, a: Action, s': State, f: Inode)
    requires a.Run? && a.t < |s.threads| && Step(w, s, a.t, a.ch) == Some(s')
    requires !s.threads[a.t].Opening? && !s.threads[a.t].Watching?
    ensures Rewrites(s, a, s', f)
  {
    hide OpenStep, WatchStep;
  }

  lemma NextRewrites(w: World, s: State, a: Action, s': State, f: Inode)
    requires Stable(w, s) && Next(w, s, a) == Some(s')
    ensures Rewrites(s, a, s', f)
  {
    hide OpenStep, CloseStep, SetStep, CommitStep, WatchStep, ExitStep, LinksOk, HandlesLinked, TmpOk, CommitOk;
    if a.Run? {
      assert DiskPcOk(s.disk, a.t, s.threads[a.t]);
      match s.threads[a.t]
      case Opening(at) => OpenRewrites(w, s, a, at, s', f);
      case Watching(d, loop) => WatchRewrites(s, a, d, loop, s', f);
      case Closing(_, _) => CallRewrites(w, s, a, s', f);
      case Setting(_) => CallRewrites(w, s, a, s', f);
      case Committing(_) => CallRewrites(w, s, a, s', f);
      case Exiting(_, _) => CallRewrites(w, s, a, s', f);
    }
  }

  /** What the SQLite writes between run[o] and run[m] leave in file f. */
  ghost function LastWritten(run: seq<State>, actions: seq<Action>, o: nat, m: nat, f: Inode, start: Bytes): Bytes
    requires o <= m <= |actions| && m <= |run|
  {
    if m == o then start
    else if WritesFile(run[m - 1], actions[m - 1], f) then actions[m - 1].content
    else LastWritten(run, actions, o, m - 1, f, start)
  }

  /** Once renamed to a path, a file is changed by SQLite writes and nothing else,
      whatever is fetched, renamed over it or committed. */
  lemma {:induction false} ContentTells(w: World, run: seq<State>, actions: seq<Action>, o: nat, m: nat, f: Inode)
    requires w.Ideal() && Behaviour(w, run, actions) && o <= m < |run|
    requires f < |run[o].disk.files| && run[o].disk.files[f].linked
    ensures f < |run[m].disk.files| && run[m].disk.files[f].linked
    ensures run[m].disk.files[f].content == LastWritten(run, actions, o, m, f, run[o].disk.files[f].content)
  {
    hide Next, Stable, WritesFile;
    if o < m {
      ContentTells(w, run, actions, o, m - 1, f);
      assert Next(w, run[m - 1], actions[m - 1]) == Some(run[m]);
      InvAlways(w, run, actions, m - 1);
      NextRewrites(w, run[m - 1], actions[m - 1], run[m], f);
    }
  }

  // --------------------------------------------------------- the steps of a call

  /** Step k opens the file the path of the name shows. */
  ghost predicate OpenedFile(run: seq<State>, actions: seq<Action>, k: nat, t: Tid, name: string, f: Inode,
          version: nat, start: Bytes)
  {
    && k < |actions| < |run| && IsStepOf(actions[k], t)
    && |run[k].disk.Links(name)| > 0 && run[k].disk.Links(name)[|run[k].disk.Links(name)| - 1].inode == f
    && f < |run[k].disk.files|
    && run[k].disk.files[f].content == start && run[k].disk.files[f].version == version
  }

  /** Step k asks for the size of file f. */
  ghost predicate SizedAt(run: seq<State>, actions: seq<Action>, k: nat, t: Tid, f: Inode, size: nat) {
    && k < |actions| < |run| && IsStepOf(actions[k], t)
    && f < |run[k].disk.files| && |run[k].disk.files[f].content| == size
  }

  /** At step k file f has byte b at position p. */
  ghost predicate ByteAt(run: seq<State>, k: nat, f: Inode, p: nat, b: byte) {
    && k < |run| && f < |run[k].disk.files|
    && p < |run[k].disk.files[f].content| && run[k].disk.files[f].content[p] == b
  }

  ghost predicate Opened(run: seq<State>, actions: seq<Action>, i: nat, j: nat, t: Tid, name: string, f: Inode,
          version: nat, start: Bytes)
  {
    exists k: nat :: i < k < j && OpenedFile(run, actions, k, t, name, f, version, start)
  }

  ghost predicate Sized(run: seq<State>, actions: seq<Action>, i: nat, j: nat, t: Tid, f: Inode, size: nat) {
    exists k: nat :: i < k < j && SizedAt(run, actions, k, t, f, size)
  }

  ghost predicate ByteSeen(run: seq<State>, i: nat, j: nat, f: Inode, p: nat, b: byte) {
    exists k: nat :: i < k < j && ByteAt(run, k, f, p, b)
  }

  /** Every byte was in file f, at its position, at some moment of the call. */
  ghost predicate ReadFrom(run: seq<State>, i: nat, j: nat, f: Inode, buf: Bytes) {
    forall p: nat :: p < |buf| ==> ByteSeen(run, i, j, f, p, buf[p])
  }

  /** What a call of Commit for the name has done when it has come to a point. */
  ghost predicate CommitSoFar(run: seq<State>, actions: seq<Action>, i: nat, j: nat, t: Tid, name: string,
          part: CommitPc)
  {
    match part
    case CommitStart(n) => n == name
    case CommitStat(n, f, version, start) => n == name && Opened(run, actions, i, j, t, name, f, version, start)
    case CommitRead(n, f, version, start, size, buf) =>
      && n == name && Opened(run, actions, i, j, t, name, f, version, start)
      && Sized(run, actions, i, j, t, f, size) && ReadFrom(run, i, j, f, buf)
  }

  lemma CommitSoFarLater(run: seq<State>, actions: seq<Action>, i: nat, j: nat, t: Tid, name: string, part: CommitPc)
    requires CommitSoFar(run, actions, i, j, t, name, part)
    ensures CommitSoFar(run, actions, i, j + 1, t, name, part)
  {
    hide OpenedFile, SizedAt;
    if part.CommitRead? { ReadLater(run, i, j, part.file, part.buf); }
  }

  lemma ReadLater(run: seq<State>, i: nat, j: nat, f: Inode, buf: Bytes)
    requires ReadFrom(run, i, j, f, buf)
    ensures ReadFrom(run, i, j + 1, f, buf)
  {
    hide ByteAt;
    forall p: nat | p < |buf| ensures ByteSeen(run, i, j + 1, f, p, buf[p]) {
      assert ByteSeen(run, i, j, f, p, buf[p]);
    }
  }

  lemma ReadsOn(run: seq<State>, i: nat, j: nat, f: Inode, buf: Bytes, n: nat)
    requires ReadFrom(run, i, j, f, buf) && i < j < |run| && f < |run[j].disk.files|
    requires |buf| + n <= |run[j].disk.files[f].content|
    ensures ReadFrom(run, i, j + 1, f, buf + run[j].disk.files[f].content[|buf|..|buf| + n])
  {
    ReadLater(run, i, j, f, buf);
    var read := buf + run[j].disk.files[f].content[|buf|..|buf| + n];
    forall p: nat | p < |read| ensures ByteSeen(run, i, j + 1, f, p, read[p]) {
      if p < |buf| {
        assert ByteSeen(run, i, j + 1, f, p, buf[p]);
      } else {
        assert ByteAt(run, j, f, p, read[p]);
      }
    }
  }

  /** A step of the call moves to its next point or returns. */
  ghost predicate CommitMoved(run: seq<State>, actions: seq<Action>, i: nat, j: nat, t: Tid, name: string)
    requires j < |run|
  {
    && t < |run[j].threads|
    && match run[j].threads[t]
       case Idle => true
       case Committing(part) => CommitSoFar(run, actions, i, j, t, name, part)
       case _ => false
  }

  lemma CommitMoves(w: World, run: seq<State>, actions: seq<Action>, i: nat, j: nat, t: Tid, name: string,
          part: CommitPc)
    requires i < j < |actions| && |run| == |actions| + 1 && StepAt(run, actions, j, t, Committing(part))
    requires CommitStep(w, run[j], t, part, actions[j].ch) == Some(run[j + 1])
    requires CommitSoFar(run, actions, i, j, t, name, part)
    ensures CommitMoved(run, actions, i, j + 1, t, name)
  {
    var s, ch := run[j], actions[j].ch;
    CommitSoFarLater(run, actions, i, j, t, name, part);
    if !ch.Fail? {
      match part
      case CommitStart(n) =>
        var file := s.disk.Links(n)[|s.disk.Links(n)| - 1].inode;
        assert OpenedFile(run, actions, j, t, name, file, s.disk.files[file].version, s.disk.files[file].content);
      case CommitStat(n, f, version, start) =>
        hide Opened;
        assert SizedAt(run, actions, j, t, f, |s.disk.files[f].content|);
        assert ReadFrom(run, i, j + 1, f, []);
      case CommitRead(n, f, version, start, size, buf) =>
        hide Opened, Sized;
        if ch.Take? { ReadsOn(run, i, j, f, buf, ch.n); }
    }
  }

  lemma {:induction false} CommitAlways(w: World, run: seq<State>, actions: seq<Action>, i: nat, j: nat, t: Tid,
          name: string)
    requires Behaviour(w, run, actions) && InCall(run, actions, i, j, t, Committing(CommitStart(name)))
    ensures run[j].threads[t].Committing? && CommitSoFar(run, actions, i, j, t, name, run[j].threads[t].part)
  {
    hide Step, CommitSoFar;
    assert Next(w, run[j - 1], actions[j - 1]) == Some(run[j]);
    if j == i + 1 {
      CommitBegins(run, actions, i, t, name);
    } else {
      CommitAlways(w, run, actions, i, j - 1, t, name);
      var part := run[j - 1].threads[t].part;
      if IsStepOf(actions[j - 1], t) {
        CommitterSteps(w, run[j - 1], t, part, actions[j - 1].ch, run[j]);
        CommitMoves(w, run, actions, i, j - 1, t, name, part);
      } else {
        CallerWaits(w, run[j - 1], actions[j - 1], run[j], t);
        CommitSoFarLater(run, actions, i, j - 1, t, name, part);
      }
    }
  }

  lemma CommitBegins(run: seq<State>, actions: seq<Action>, i: nat, t: Tid, name: string)
    ensures CommitSoFar(run, actions, i, i + 1, t, name, CommitStart(name))
  {
  }

  lemma CommitterSteps(w: World, s: State, t: Tid, part: CommitPc, ch: Choice, s': State)
    requires t < |s.threads| && s.threads[t] == Committing(part) && Step(w, s, t, ch) == Some(s')
    ensures CommitStep(w, s, t, part, ch) == Some(s')
  {
    hide CommitStep;
  }

  // ----------------------------------------------------------------- results

  /** A call that has read as many bytes as its file had stores them. */
  ghost predicate Stores(w: World, s: State, t: Tid, s': State) {
    && t < |s.threads| && s.threads[t].Committing? && s.threads[t].part.CommitRead?
    && var p := s.threads[t].part;
       && p.file < |s.disk.files| && |p.buf| == p.size
       && s'.disk.store == s.disk.store[w.digest(p.buf) := p.buf] && |s'.disk.commits| == |s.disk.commits| + 1
       && s'.disk.commits[..|s.disk.commits|] == s.disk.commits
       && s'.disk.commits[|s.disk.commits|]
          == Committed(p.name, w.digest(p.buf), p.file, p.start, s.disk.files[p.file].version == p.version)
  }

  /** The list of finished commits grows by such steps and not otherwise. */
  ghost predicate CommitsStep(w: World, s: State, a: Action, s': State) {
    s'.disk.commits == s.disk.commits || (a.Run? && Stores(w, s, a.t, s'))
  }

  lemma OpenCommitsNone(w: World, s: State, t: Tid, at: OpenPc, ch: Choice, s': State)
    requires t < |s.threads| && OpenStep(w, s, t, at, ch) == Some(s')
    ensures s'.disk.commits == s.disk.commits
  {
    if at.OpenFetch? { FetchCommitsNone(s.disk, t, at.name, at.fetch, ch); }
    hide FetchStep;
  }

  lemma FetchCommitsNone(disk: Disk, t: Tid, name: string, f: Fetch, ch: Choice)
    ensures FetchStep(disk, t, name, f, ch).Some? ==>
      FetchStep(disk, t, name, f, ch).value.0.commits == disk.commits
  {
  }

  lemma WatchCommitsNone(s: State, t: Tid, d: DbId, loop: WatchPc, ch: Choice, s': State)
    requires t < |s.threads| && d < |s.dbs| && WatchStep(s, t, d, loop, ch) == Some(s')
    ensures s'.disk.commits == s.disk.commits
  {
    if loop.Refetch? { FetchCommitsNone(s.disk, t, s.dbs[d].name, loop.fetch, ch); }
    hide FetchStep;
  }

  lemma CallCommitsNone(w: World, s: State, t: Tid, ch: Choice, s': State)
    requires t < |s.threads| && Step(w, s, t, ch) == Some(s')
    requires s.threads[t].Closing? || s.threads[t].Setting? || s.threads[t].Exiting?
    ensures s'.disk.commits == s.disk.commits
  {
    hide OpenStep, WatchStep, CommitStep;
  }

  /** A commit's step stores, or leaves the list alone; one that ends the call
      without failing stores. */
  lemma CommitStepStores(w: World, s: State, t: Tid, part: CommitPc, ch: Choice, s': State)
    requires t < |s.threads| && s.threads[t] == Committing(part) && CommitStep(w, s, t, part, ch) == Some(s')
    ensures t < |s'.threads|
    ensures if s'.threads[t].Idle? && !ch.Fail? then Stores(w, s, t, s') else s'.disk.commits == s.disk.commits
  {
  }

  lemma NextCommits(w: World, s: State, a: Action, s': State)
    requires Next(w, s, a) == Some(s')
    ensures CommitsStep(w, s, a, s')
  {
    hide OpenStep, CloseStep, SetStep, CommitStep, WatchStep, ExitStep, Stores;
    if a.Run? {
      match s.threads[a.t]
      case Opening(at) => OpenCommitsNone(w, s, a.t, at, a.ch, s');
      case Watching(d, loop) => WatchCommitsNone(s, a.t, d, loop, a.ch, s');
      case Committing(part) => CommitStepStores(w, s, a.t, part, a.ch, s');
      case Closing(_, _) => CallCommitsNone(w, s, a.t, a.ch, s');
      case Setting(_) => CallCommitsNone(w, s, a.t, a.ch, s');
      case Exiting(_, _) => CallCommitsNone(w, s, a.t, a.ch, s');
    }
  }

  /** The call that step i begins in thread t, which opens its file at step o and
      stores it at step m, finishes commit c: of the name it was called with, of
      the file the path of that name showed at step o, and of nothing but bytes
      that file had; quiet exactly if no SQLite write hit the file from o to m. */
  ghost predicate Finishes(w: World, run: seq<State>, actions: seq<Action>, i: nat, o: nat, m: nat, t: Tid,
          c: Committed)
  {
    && InCall(run, actions, i, m, t, Committing(CommitStart(c.name)))
    && i < o < m < |actions| && IsStepOf(actions[o], t) && IsStepOf(actions[m], t)
    && |run[o].disk.Links(c.name)| > 0
    && run[o].disk.Links(c.name)[|run[o].disk.Links(c.name)| - 1].inode == c.file
    && Shown(run[o].disk, c.name).Some? && Shown(run[o].disk, c.name).value.content == c.start
    && (c.quiet <==> Untouched(run, actions, o, m, c.file))
    && c.hash in run[m + 1].disk.store
    && var stored := run[m + 1].disk.store[c.hash];
       && c.hash == w.digest(stored)
       && Sized(run, actions, i, m, t, c.file, |stored|) && ReadFrom(run, i, m, c.file, stored)
  }

  /** Step m finishes commit k, of a call as above. */
  ghost predicate CommittedBy(w: World, run: seq<State>, actions: seq<Action>, k: nat, i: nat, o: nat, m: nat, t: Tid) {
    && m + 1 < |run| && |run[m].disk.commits| == k && k < |run[m + 1].disk.commits|
    && Finishes(w, run, actions, i, o, m, t, run[m + 1].disk.commits[k])
  }

  /** A step that stores finishes the call its thread is in. */
  lemma StoreFinishes(w: World, run: seq<State>, actions: seq<Action>, m: nat, t: Tid)
    requires Behaviour(w, run, actions) && m < |actions| && IsStepOf(actions[m], t)
    requires Stores(w, run[m], t, run[m + 1])
    ensures exists i: nat, o: nat :: CommittedBy(w, run, actions, |run[m].disk.commits|, i, o, m, t)
  {
    hide Next, CanBegin;
    CallBegun(w, run, actions, m, t);
    var i: nat, pc :| InCall(run, actions, i, m, t, pc) && SameOperation(pc, run[m].threads[t]) && CanBegin(run[i], pc);
    BeginsCommit(run[i], pc);
    var name := pc.part.name;
    CommitAlways(w, run, actions, i, m, t, name);
    var p := run[m].threads[t].part;
    var o: nat :| i < o < m && OpenedFile(run, actions, o, t, name, p.file, p.version, p.start);
    VersionTells(w, run, actions, o, m, p.file);
    hide ByteAt, Untouched, SizedAt, Behaviour;
    assert Finishes(w, run, actions, i, o, m, t, run[m + 1].disk.commits[|run[m].disk.commits|]);
    assert CommittedBy(w, run, actions, |run[m].disk.commits|, i, o, m, t);
  }

  lemma BeginsCommit(s: State, pc: Pc)
    requires CanBegin(s, pc) && pc.Committing?
    ensures pc.part.CommitStart?
  {
  }

  /** Every commit there is was finished so, and stays as it is. */
  lemma {:induction false} CommitExplained(w: World, run: seq<State>, actions: seq<Action>, j: nat, k: nat)
    requires Behaviour(w, run, actions) && j < |run| && k < |run[j].disk.commits|
    ensures exists i: nat, o: nat, m: nat, t: nat ::
      m < j && CommittedBy(w, run, actions, k, i, o, m, t) && run[m + 1].disk.commits[k] == run[j].disk.commits[k]
  {
    hide Next, Finishes;
    if j > 0 {
      var s, a, s' := run[j - 1], actions[j - 1], run[j];
      assert Next(w, s, a) == Some(s');
      NextCommits(w, s, a, s');
      if k < |s.disk.commits| {
        CommitExplained(w, run, actions, j - 1, k);
        assert s'.disk.commits[k] == s.disk.commits[k];
      } else {
        StoreFinishes(w, run, actions, j - 1, a.t);
      }
    }
  }

  /** A call of Commit returns with its commit finished, unless a step failed. */
  lemma CommitReturns(w: World, run: seq<State>, actions: seq<Action>, i: nat, m: nat, t: Tid, name: string)
    requires Behaviour(w, run, actions) && InCall(run, actions, i, m, t, Committing(CommitStart(name)))
    requires m < |actions| && IsStepOf(actions[m], t) && t < |run[m + 1].threads| && run[m + 1].threads[t].Idle?
    requires actions[m] != Run(t, Fail)
    ensures exists o: nat :: CommittedBy(w, run, actions, |run[m].disk.commits|, i, o, m, t)
    ensures run[m + 1].disk.commits[|run[m].disk.commits|].name == name
  {
    hide Step;
    assert Next(w, run[m], actions[m]) == Some(run[m + 1]);
    CommitAlways(w, run, actions, i, m, t, name);
    CommitterSteps(w, run[m], t, run[m].threads[t].part, actions[m].ch, run[m + 1]);
    CommitStepStores(w, run[m], t, run[m].threads[t].part, actions[m].ch, run[m + 1]);
    StoreFinishes(w, run, actions, m, t);
    var b: nat, o: nat :| CommittedBy(w, run, actions, |run[m].disk.commits|, b, o, m, t);
    OneBegin(w, run, actions, i, b, m, t, Committing(CommitStart(name)), actions[b].pc);
  }

  /** A call has one beginning. */
  lemma OneBegin(w: World, run: seq<State>, actions: seq<Action>, i: nat, b: nat, m: nat, t: Tid, pc: Pc, pc': Pc)
    requires Behaviour(w, run, actions)
    requires InCall(run, actions, i, m, t, pc) && InCall(run, actions, b, m, t, pc')
    ensures i == b && pc == pc'
  {
    hide Step;
    assert Next(w, run[i], actions[i]) == Some(run[i + 1]);
    assert Next(w, run[b], actions[b]) == Some(run[b + 1]);
  }

  /** A commit that no SQLite write disturbed returns the hash of the bytes that
      the path of its name showed when it opened it, and every file fetched for
      that hash, onto any path, holds those bytes, unless SQLite changed them. */
  lemma CommitRestored(w: World, run: seq<State>, actions: seq<Action>, j: nat, k: nat, n: string, l: nat)
    requires w.Ideal() && Behaviour(w, run, actions) && j < |run|
    requires k < |run[j].disk.commits| && run[j].disk.commits[k].quiet
    requires l < |run[j].disk.Links(n)| && run[j].disk.Links(n)[l].hash == run[j].disk.commits[k].hash
    ensures run[j].disk.Links(n)[l].inode < |run[j].disk.files|
    ensures exists i: nat, o: nat, m: nat, t: nat ::
      m < j && CommittedBy(w, run, actions, k, i, o, m, t) && run[m + 1].disk.commits[k] == run[j].disk.commits[k]
      && Restores(w, run[o], run[j].disk.commits[k], run[j].disk.files[run[j].disk.Links(n)[l].inode])
  {
    InvAlways(w, run, actions, j);
    CommitRoundTrip(w, run[j], k, n, l);
    CommitExplained(w, run, actions, j, k);
    hide Next, Untouched, Sized, ReadFrom, Inv, Behaviour;
  }

  /** The commit returned the hash of what its path showed in s, and the file has it. */
  ghost predicate Restores(w: World, s: State, c: Committed, file: File) {
    && Shown(s.disk, c.name).Some? && c.hash == w.digest(Shown(s.disk, c.name).value.content)
    && (file.version == 0 ==> file.content == Shown(s.disk, c.name).value.content)
  }

  /** Path n' shows in s' the bytes that path n showed in s, unless SQLite wrote. */
  ghost predicate ShowsAgain(s: State, n: string, s': State, n': string) {
    && Shown(s.disk, n).Some? && Shown(s'.disk, n').Some?
    && (Shown(s'.disk, n').value.version == 0 ==>
          Shown(s'.disk, n').value.content == Shown(s.disk, n).value.content)
  }

  /** The whole circle: the database of some name is committed, no SQLite write
      hitting its file meanwhile, the result is published for an address, and the
      watcher of a database of that address, opened before, has come to rest.
      Then its path shows the bytes that the path of the committed name showed
      when the commit opened it, unless SQLite has changed them since. */
  lemma PublishedCommitShown(w: World, run: seq<State>, actions: seq<Action>, j: nat, d: DbId, k: nat, name: string)
    requires w.Ideal() && Behaviour(w, run, actions) && j < |run|
    requires Looping(run[j], d) && InHand(run[j], d) == [] && Sending(run[j], d) == []
    requires k < |run[j].disk.commits| && run[j].disk.commits[k].quiet && run[j].disk.commits[k].name == name
    requires HashAt(run[j].ledger.hashes, run[j].dbs[d].feed.addr) == run[j].disk.commits[k].hash
    requires |run[j].ledger.History(run[j].dbs[d].feed.addr)| > run[j].dbs[d].feed.since
    ensures Shown(run[j].disk, run[j].dbs[d].name).Some?
    ensures exists i: nat, o: nat, m: nat, t: nat ::
      m < j && CommittedBy(w, run, actions, k, i, o, m, t) && run[m + 1].disk.commits[k] == run[j].disk.commits[k]
      && ShowsAgain(run[o], name, run[j], run[j].dbs[d].name)
  {
    InvAlways(w, run, actions, j);
    PublishedShown(w, run[j], d, k);
    CommitExplained(w, run, actions, j, k);
    hide Next, Untouched, Sized, ReadFrom, Inv, Behaviour;
  }
}
