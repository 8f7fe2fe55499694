/** When the driver panics: only by adding a Conn to a db that was torn down. */
module Panics {
  import opened Values
  import opened Refresh
  import opened Bounds
  import opened Locks
  import opened Watchers
  import opened Delivery
  import opened Disks
  import opened Mirror
  import opened Handles
  import opened Freshness
  import opened Runs

  /** The thread is a watcher that has closed db.closed. */
  predicate PastClose(pc: Pc) {
    pc.Exiting? && !pc.exit.ExitStart? && !pc.exit.ExitUnsub? && !pc.exit.ExitClose?
  }

  /** The thread is a watcher that has left db.close, and so set conns to nil. */
  predicate PastDrop(pc: Pc) {
    pc.Exiting? && (pc.exit.ExitDb? || pc.exit.ExitDelete? || pc.exit.Exited?)
  }

  predicate WatcherPast(s: State, d: DbId, past: Pc -> bool)
    requires d < |s.dbs|
  {
    s.dbs[d].watcher.Some? && s.dbs[d].watcher.value < |s.threads| && past(s.threads[s.dbs[d].watcher.value])
  }

  /** A db is closed, and its conns are nil, exactly from the point on at which
      its watcher makes them so. */
  ghost predicate Torn(s: State) {
    forall d :: 0 <= d < |s.dbs| ==>
      && (s.dbs[d].closed <==> WatcherPast(s, d, PastClose))
      && (s.dbs[d].pool.dropped <==> WatcherPast(s, d, PastDrop))
  }

  // ------------------------------------------------------------ preservation

  /** No db is closed or dropped and no watcher passes one of the two points. */
  ghost predicate SameTearing(s: State, s': State) {
    && |s.dbs| <= |s'.dbs| && |s.threads| <= |s'.threads|
    && (forall u :: 0 <= u < |s.threads| ==>
          PastClose(s'.threads[u]) == PastClose(s.threads[u]) && PastDrop(s'.threads[u]) == PastDrop(s.threads[u]))
    && (forall u :: |s.threads| <= u < |s'.threads| ==> !s'.threads[u].Exiting?)
    && (forall d :: 0 <= d < |s.dbs| ==>
          && s'.dbs[d].closed == s.dbs[d].closed && s'.dbs[d].pool.dropped == s.dbs[d].pool.dropped
          && (s'.dbs[d].watcher == s.dbs[d].watcher
              || (s.dbs[d].watcher.None? && s'.dbs[d].watcher == Some(|s.threads|))))
    && (forall d :: |s.dbs| <= d < |s'.dbs| ==>
          !s'.dbs[d].closed && !s'.dbs[d].pool.dropped && s'.dbs[d].watcher.None?)
  }

  lemma TornAfter(s: State, s': State)
    requires Torn(s) && Bounded(s) && SameTearing(s, s')
    ensures Torn(s')
  {
    forall d | 0 <= d < |s'.dbs|
      ensures s'.dbs[d].closed <==> WatcherPast(s', d, PastClose)
      ensures s'.dbs[d].pool.dropped <==> WatcherPast(s', d, PastDrop)
    {
      if d < |s.dbs| { assert DbBounded(s, d); }
    }
  }

  lemma TornOpenFetch(s: State, t: Tid, name: string, seen: nat, f: Fetch, ch: Choice, s': State)
    requires Torn(s) && Bounded(s) && t < |s.threads| && s.threads[t] == Opening(OpenFetch(name, seen, f))
    requires OpenFetching(s, t, name, seen, f, ch) == Some(s')
    ensures Torn(s')
  {
    hide FetchStep, Torn, Bounded;
    TornAfter(s, s');
  }

  lemma TornOpen(w: World, s: State, t: Tid, at: OpenPc, ch: Choice, s': State)
    requires Torn(s) && Bounded(s) && Watched(s) && t < |s.threads| && s.threads[t] == Opening(at)
    requires OpenStep(w, s, t, at, ch) == Some(s')
    ensures Torn(s')
  {
    assert PartOk(s, t);
    hide OpenFetching, OpenAdded, OpenSpawned, OpenAttached, Torn, Bounded, Watched;
    match at
    case OpenFetch(name, seen, f) => TornOpenFetch(s, t, name, seen, f, ch, s');
    case OpenAdding(c) => TornOpenAdd(s, t, c, ch.Fail?, s');
    case OpenSpawn(d) => TornOpenDb(w, s, t, at, ch, s');
    case OpenAttach(name, seen, hash) => TornOpenDb(w, s, t, at, ch, s');
    case _ => TornOpenMove(w, s, t, at, ch, s');
  }

  lemma TornOpenAdd(s: State, t: Tid, c: ConnId, ends: bool, s': State)
    requires Torn(s) && Bounded(s) && t < |s.threads| && s.threads[t] == Opening(OpenAdding(c))
    requires OpenAdded(s, t, c, ends) == Some(s')
    ensures Torn(s')
  {
    hide Torn, Bounded;
    TornAfter(s, s');
  }

  lemma TornOpenDb(w: World, s: State, t: Tid, at: OpenPc, ch: Choice, s': State)
    requires Torn(s) && Bounded(s) && t < |s.threads| && s.threads[t] == Opening(at)
    requires at.OpenSpawn? || at.OpenAttach?
    requires at.OpenSpawn? ==> at.d < |s.dbs| && s.dbs[at.d].watcher.None?
    requires OpenStep(w, s, t, at, ch) == Some(s')
    ensures Torn(s')
  {
    hide OpenFetching, OpenAdded, OpenNewConn, Torn, Bounded;
    TornAfter(s, s');
  }

  lemma TornOpenMove(w: World, s: State, t: Tid, at: OpenPc, ch: Choice, s': State)
    requires Torn(s) && Bounded(s) && t < |s.threads| && s.threads[t] == Opening(at)
    requires !at.OpenFetch? && !at.OpenAdding? && !at.OpenSpawn? && !at.OpenAttach?
    requires OpenStep(w, s, t, at, ch) == Some(s')
    ensures Torn(s')
  {
    hide OpenFetching, OpenAdded, OpenSpawned, OpenAttached, Torn, Bounded;
    TornAfter(s, s');
  }

  lemma TornWatch(s: State, t: Tid, d: DbId, loop: WatchPc, ch: Choice, s': State)
    requires Torn(s) && Bounded(s) && t < |s.threads| && d < |s.dbs| && s.threads[t] == Watching(d, loop)
    requires WatchStep(s, t, d, loop, ch) == Some(s')
    ensures Torn(s')
  {
    hide Refetching, Torn, Bounded;
    if loop.Refetch? {
      TornRefetch(s, t, d, loop.fetch, ch, s');
    } else {
      TornAfter(s, s');
    }
  }

  lemma TornRefetch(s: State, t: Tid, d: DbId, f: Fetch, ch: Choice, s': State)
    requires Torn(s) && Bounded(s) && t < |s.threads| && d < |s.dbs| && s.threads[t] == Watching(d, Refetch(f))
    requires Refetching(s, t, d, f, ch) == Some(s')
    ensures Torn(s')
  {
    hide FetchStep, Torn, Bounded;
    TornAfter(s, s');
  }

  lemma TornClose(s: State, t: Tid, c: ConnId, stage: ClosePc, ch: Choice, s': State)
    requires Torn(s) && Bounded(s) && t < |s.threads| && s.threads[t] == Closing(c, stage)
    requires CloseStep(s, t, c, stage, ch) == Some(s')
    ensures Torn(s')
  {
    hide Torn, Bounded;
    TornAfter(s, s');
  }

  lemma TornCommit(w: World, s: State, t: Tid, part: CommitPc, ch: Choice, s': State)
    requires Torn(s) && Bounded(s) && t < |s.threads| && s.threads[t] == Committing(part)
    requires CommitStep(w, s, t, part, ch) == Some(s')
    ensures Torn(s')
  {
    hide Torn, Bounded;
    TornAfter(s, s');
  }

  lemma TornSet(w: World, s: State, t: Tid, phase: SetPc, ch: Choice, s': State)
    requires Torn(s) && Bounded(s) && t < |s.threads| && s.threads[t] == Setting(phase)
    requires SetStep(w, s, t, phase, ch) == Some(s')
    ensures Torn(s')
  {
    hide Torn, Bounded;
    TornAfter(s, s');
  }

  /** The thread that leaves db d is the watcher of d and of no other db. */
  lemma ExitersOwn(s: State, t: Tid, d: DbId, exit: ExitPc)
    requires Watched(s) && t < |s.threads| && s.threads[t] == Exiting(d, exit)
    ensures d < |s.dbs| && forall e :: 0 <= e < |s.dbs| ==> (s.dbs[e].watcher == Some(t) <==> e == d)
  {
    assert PartOk(s, t);
    forall e | 0 <= e < |s.dbs| && s.dbs[e].watcher == Some(t) ensures e == d { assert Tended(s, e); }
  }

  lemma TornExit(s: State, t: Tid, d: DbId, exit: ExitPc, ch: Choice, s': State)
    requires Torn(s) && Bounded(s) && Watched(s) && t < |s.threads| && d < |s.dbs| && s.threads[t] == Exiting(d, exit)
    requires ExitStep(s, t, d, exit, ch) == Some(s')
    ensures Torn(s')
  {
    ExitersOwn(s, t, d, exit);
    hide Watched, Bounded;
    if exit.ExitClose? || exit.ExitDrain? {
      forall e | 0 <= e < |s'.dbs|
        ensures s'.dbs[e].closed <==> WatcherPast(s', e, PastClose)
        ensures s'.dbs[e].pool.dropped <==> WatcherPast(s', e, PastDrop)
      {
      }
    } else {
      hide Torn;
      TornAfter(s, s');
    }
  }

  lemma TornNext(w: World, s: State, a: Action, s': State)
    requires Torn(s) && Bounded(s) && Watched(s) && Next(w, s, a) == Some(s')
    ensures Torn(s')
  {
    hide Torn, Bounded, Watched, OpenStep, WatchStep, CloseStep, SetStep, CommitStep, ExitStep, WriteStep;
    if a.Run? {
      match s.threads[a.t]
      case Opening(at) => TornOpen(w, s, a.t, at, a.ch, s');
      case Watching(d, loop) => TornWatch(s, a.t, d, loop, a.ch, s');
      case Setting(phase) => TornSet(w, s, a.t, phase, a.ch, s');
      case Exiting(d, exit) => TornExit(s, a.t, d, exit, a.ch, s');
      case Closing(c, stage) => TornClose(s, a.t, c, stage, a.ch, s');
      case Committing(part) => TornCommit(w, s, a.t, part, a.ch, s');
    } else {
      TornIdle(w, s, a, s');
    }
  }

  lemma TornIdle(w: World, s: State, a: Action, s': State)
    requires Torn(s) && Bounded(s) && Next(w, s, a) == Some(s') && !a.Run?
    ensures Torn(s')
  {
    hide Torn, Bounded, Step;
    TornAfter(s, s');
  }

  lemma {:induction false} TornAlways(w: World, run: seq<State>, actions: seq<Action>, i: nat)
    requires w.Ideal() && Behaviour(w, run, actions) && i < |run|
    ensures Torn(run[i])
  {
    if i > 0 {
      hide Next, Torn;
      assert Next(w, run[i - 1], actions[i - 1]) == Some(run[i]);
      TornAlways(w, run, actions, i - 1);
      InvAlways(w, run, actions, i - 1);
      TornNext(w, run[i - 1], actions[i - 1], run[i]);
    }
  }

  // ----------------------------------------------------------------- results

  /** The step that registers a Conn of a db whose watcher has left db.close. */
  ghost predicate AddsToTornDb(s: State, a: Action) {
    && a.Run? && a.t < |s.threads| && s.threads[a.t].Opening? && s.threads[a.t].at.OpenAdding?
    && s.HasConn(s.threads[a.t].at.c) && WatcherPast(s, s.sql.conns[s.threads[a.t].at.c].db, PastDrop)
  }

  /** A step writes to the nil map if and only if it is the addConn of a Conn
      whose db's watcher has left db.close. Then connsMtx is released, the call is
      over, and nothing else changes; the process may end, and ends so only. */
  lemma PanicExactly(w: World, s: State, a: Action, s': State)
    requires Torn(s) && Next(w, s, a) == Some(s')
    ensures s'.panics == s.panics + (if AddsToTornDb(s, a) then 1 else 0)
    ensures s'.crashed ==> s'.panics == s.panics + 1
    ensures AddsToTornDb(s, a) ==>
      && s'.sql == s.sql && s'.byName == s.byName && s'.ledger == s.ledger && s'.disk == s.disk
      && s'.threads == s.threads[a.t := Idle]
      && s'.dbs[s.sql.conns[s.threads[a.t].at.c].db].pool.lock == UNLOCKED
  {
    if a.Run? {
      var t, ch := a.t, a.ch;
      if s.threads[t].Opening? {
        OpenerPanics(w, s, t, s.threads[t].at, ch, s');
      } else {
        OthersCalm(w, s, t, ch, s');
      }
    }
  }

  lemma OpenerPanics(w: World, s: State, t: Tid, at: OpenPc, ch: Choice, s': State)
    requires Torn(s) && !s.crashed && t < |s.threads| && OpenStep(w, s, t, at, ch) == Some(s')
    ensures var panics := at.OpenAdding? && s.HasConn(at.c) && WatcherPast(s, s.sql.conns[at.c].db, PastDrop);
      && s'.panics == s.panics + (if panics then 1 else 0)
      && (panics ==> |s'.dbs| == |s.dbs| && s' == s.SetLock(s.sql.conns[at.c].db, UNLOCKED).Goto(t, Idle)
                                                   .(panics := s'.panics, crashed := s'.crashed))
      && (!panics ==> !s'.crashed)
  {
    hide FetchStep;
  }

  lemma OthersCalm(w: World, s: State, t: Tid, ch: Choice, s': State)
    requires !s.crashed && t < |s.threads| && Step(w, s, t, ch) == Some(s') && !s.threads[t].Opening?
    ensures !s'.crashed && s'.panics == s.panics
  {
    hide FetchStep, OpenStep;
  }

  /** The channel db.closed is closed once only, and while the watcher is at its
      select it is open: the branch that waits for it is never taken. */
  lemma ClosedOnce(s: State, t: Tid, d: DbId)
    requires Torn(s) && Watched(s) && t < |s.threads|
    requires s.threads[t] == Exiting(d, ExitClose) || (s.threads[t].Watching? && s.threads[t].d == d)
    ensures d < |s.dbs| && !s.dbs[d].closed
  {
    assert PartOk(s, t);
  }

  /** A refresh fails. */
  predicate RefreshFails(s: State, a: Action) {
    a.Run? && a.t < |s.threads| && s.threads[a.t].Watching? && a.ch.Fail?
  }

  lemma FetchFailsOnly(disk: Disk, t: Tid, name: string, f: Fetch, ch: Choice)
    ensures var r := FetchStep(disk, t, name, f, ch); r.Some? && r.value.1.Failed? ==> ch.Fail?
  {
  }

  lemma WatcherStaysIn(s: State, t: Tid, d: DbId, loop: WatchPc, ch: Choice, s': State)
    requires t < |s.threads| && d < |s.dbs| && !s.dbs[d].closed && !ch.Fail?
    requires WatchStep(s, t, d, loop, ch) == Some(s')
    ensures |s'.threads| == |s.threads| && !s'.threads[t].Exiting?
    ensures forall u :: 0 <= u < |s.threads| && u != t ==> s'.threads[u] == s.threads[u]
  {
    if loop.Refetch? { FetchFailsOnly(s.disk, t, s.dbs[d].name, loop.fetch, ch); }
    hide FetchStep;
  }

  lemma CallersStayIn(w: World, s: State, t: Tid, ch: Choice, s': State)
    requires t < |s.threads| && Step(w, s, t, ch) == Some(s')
    requires !s.threads[t].Watching? && !s.threads[t].Exiting?
    requires forall u :: 0 <= u < |s.threads| ==> !s.threads[u].Exiting?
    ensures forall u :: 0 <= u < |s'.threads| ==> !s'.threads[u].Exiting?
  {
    hide OpenStep, WatchStep, ExitStep;
    if s.threads[t].Opening? { OpenersStayIn(w, s, t, s.threads[t].at, ch, s'); }
  }

  lemma OpenersStayIn(w: World, s: State, t: Tid, at: OpenPc, ch: Choice, s': State)
    requires t < |s.threads| && OpenStep(w, s, t, at, ch) == Some(s')
    requires forall u :: 0 <= u < |s.threads| ==> !s.threads[u].Exiting?
    ensures forall u :: 0 <= u < |s'.threads| ==> !s'.threads[u].Exiting?
  {
    hide FetchStep;
  }

  /** Only a failed refresh makes a watcher leave. */
  lemma OnlyFailuresExit(w: World, s: State, a: Action, s': State)
    requires Torn(s) && Watched(s) && Next(w, s, a) == Some(s') && !RefreshFails(s, a)
    requires forall u :: 0 <= u < |s.threads| ==> !s.threads[u].Exiting?
    ensures forall u :: 0 <= u < |s'.threads| ==> !s'.threads[u].Exiting?
  {
    if a.Run? {
      var t, ch := a.t, a.ch;
      if s.threads[t].Watching? {
        ClosedOnce(s, t, s.threads[t].d);
        hide WatchStep, Torn, Watched;
        WatcherStaysIn(s, t, s.threads[t].d, s.threads[t].loop, ch, s');
      } else {
        hide Torn, Watched;
        CallersStayIn(w, s, t, ch, s');
      }
    }
  }

  /** No behaviour panics before a refresh has failed. */
  lemma {:induction false} NoFailureNoPanic(w: World, run: seq<State>, actions: seq<Action>, j: nat)
    requires w.Ideal() && Behaviour(w, run, actions) && j < |run|
    requires forall i :: 0 <= i < j ==> !RefreshFails(run[i], actions[i])
    ensures run[j].panics == 0 && !run[j].crashed
    ensures forall u :: 0 <= u < |run[j].threads| ==> !run[j].threads[u].Exiting?
  {
    if j > 0 {
      hide Next, Torn, Bounded, Locked, Delivered, Stable, Mirrored, Accounted, Fresh, Watched;
      NoFailureNoPanic(w, run, actions, j - 1);
      InvAlways(w, run, actions, j - 1);
      TornAlways(w, run, actions, j - 1);
      assert Next(w, run[j - 1], actions[j - 1]) == Some(run[j]);
      PanicExactly(w, run[j - 1], actions[j - 1], run[j]);
      OnlyFailuresExit(w, run[j - 1], actions[j - 1], run[j]);
    }
  }

  // ------------------------------------------------- after a recovered panic

  predicate Adding(pc: Pc, c: ConnId) {
    pc.Opening? && (pc.at.OpenAdd? || pc.at.OpenAdding?) && pc.at.c == c
  }

  /** Conn c is not registered and nobody is about to register it. */
  ghost predicate Lost(s: State, c: ConnId) {
    && c < |s.sql.conns| && s.sql.conns[c].joined.None?
    && forall t :: 0 <= t < |s.threads| ==> !Adding(s.threads[t], c)
  }

  /** A panic loses the Conn it was to register. */
  lemma PanicLosesConn(w: World, s: State, a: Action, s': State)
    requires Torn(s) && Accounted(s) && Next(w, s, a) == Some(s') && AddsToTornDb(s, a)
    ensures Lost(s', s.threads[a.t].at.c)
  {
    PanicExactly(w, s, a, s');
    hide Next, Torn;
    AccountedAt(s, a.t);
    var c := s.threads[a.t].at.c;
    forall u | 0 <= u < |s'.threads| ensures !Adding(s'.threads[u], c) {
      if u != a.t { assert HandlePcOk(s, u, s.threads[u]); }
    }
  }

  /** No thread comes to register c, and its record does not change. */
  ghost predicate LeavesLost(s: State, s': State, c: ConnId) {
    && c < |s'.sql.conns| && (c < |s.sql.conns| ==> s'.sql.conns[c] == s.sql.conns[c])
    && forall t :: 0 <= t < |s'.threads| ==> !Adding(s'.threads[t], c)
  }

  lemma OpenLeavesLost(w: World, s: State, t: Tid, at: OpenPc, ch: Choice, s': State, c: ConnId)
    requires t < |s.threads| && s.threads[t] == Opening(at) && OpenStep(w, s, t, at, ch) == Some(s') && Lost(s, c)
    ensures LeavesLost(s, s', c)
  {
    assert !Adding(s.threads[t], c);
    hide FetchStep;
  }

  lemma WatchLeavesLost(s: State, t: Tid, d: DbId, loop: WatchPc, ch: Choice, s': State, c: ConnId)
    requires t < |s.threads| && d < |s.dbs| && s.threads[t] == Watching(d, loop)
    requires WatchStep(s, t, d, loop, ch) == Some(s') && Lost(s, c) && !(loop.SweepStore? && loop.c == c)
    ensures LeavesLost(s, s', c)
  {
    hide FetchStep;
  }

  lemma CloseLeavesLost(s: State, t: Tid, e: ConnId, stage: ClosePc, ch: Choice, s': State, c: ConnId)
    requires t < |s.threads| && s.threads[t] == Closing(e, stage) && CloseStep(s, t, e, stage, ch) == Some(s')
    requires Lost(s, c) && e != c
    ensures LeavesLost(s, s', c)
  {
  }

  lemma OthersLeaveLost(w: World, s: State, a: Action, s': State, c: ConnId)
    requires Next(w, s, a) == Some(s') && Lost(s, c)
    requires a.Run? ==> s.threads[a.t].Setting? || s.threads[a.t].Committing? || s.threads[a.t].Exiting?
    ensures LeavesLost(s, s', c)
  {
    hide OpenStep, WatchStep, CloseStep, SetStep, CommitStep, ExitStep;
    if a.Run? { OtherStepsLeaveLost(w, s, a.t, a.ch, s', c); }
  }

  lemma OtherStepsLeaveLost(w: World, s: State, t: Tid, ch: Choice, s': State, c: ConnId)
    requires t < |s.threads| && Step(w, s, t, ch) == Some(s') && Lost(s, c)
    requires s.threads[t].Setting? || s.threads[t].Committing? || s.threads[t].Exiting?
    ensures LeavesLost(s, s', c)
  {
    hide OpenStep, WatchStep, CloseStep, SetStep, CommitStep, ExitStep;
    match s.threads[t]
    case Setting(phase) => SetLeavesLost(w, s, t, phase, ch, s', c);
    case Committing(part) => CommitLeavesLost(w, s, t, part, ch, s', c);
    case Exiting(d, exit) => ExitLeavesLost(s, t, d, exit, ch, s', c);
  }

  lemma SetLeavesLost(w: World, s: State, t: Tid, phase: SetPc, ch: Choice, s': State, c: ConnId)
    requires t < |s.threads| && SetStep(w, s, t, phase, ch) == Some(s') && Lost(s, c)
    ensures LeavesLost(s, s', c)
  {
  }

  lemma CommitLeavesLost(w: World, s: State, t: Tid, part: CommitPc, ch: Choice, s': State, c: ConnId)
    requires t < |s.threads| && CommitStep(w, s, t, part, ch) == Some(s') && Lost(s, c)
    ensures LeavesLost(s, s', c)
  {
  }

  lemma ExitLeavesLost(s: State, t: Tid, d: DbId, exit: ExitPc, ch: Choice, s': State, c: ConnId)
    requires t < |s.threads| && d < |s.dbs| && ExitStep(s, t, d, exit, ch) == Some(s') && Lost(s, c)
    ensures LeavesLost(s, s', c)
  {
  }

  /** A lost Conn stays lost: no step touches it. */
  lemma LostStays(w: World, s: State, a: Action, s': State, c: ConnId)
    requires Accounted(s) && Bounded(s) && Next(w, s, a) == Some(s') && Lost(s, c)
    ensures Lost(s', c) && s'.sql.conns[c] == s.sql.conns[c]
  {
    hide Lost, Accounted;
    LostAt(s, c);
    if a.Run? {
      AccountedAt(s, a.t);
      ConnAt(s, c);
      assert PcBounded(s, s.threads[a.t]);
      hide OpenStep, WatchStep, CloseStep, SetStep, CommitStep, ExitStep;
      match s.threads[a.t]
      case Opening(at) => OpenLeavesLost(w, s, a.t, at, a.ch, s', c);
      case Watching(d, loop) => WatchLeavesLost(s, a.t, d, loop, a.ch, s', c);
      case Closing(e, stage) => CloseLeavesLost(s, a.t, e, stage, a.ch, s', c);
      case Setting(_) => OthersLeaveLost(w, s, a, s', c);
      case Committing(_) => OthersLeaveLost(w, s, a, s', c);
      case Exiting(_, _) => OthersLeaveLost(w, s, a, s', c);
    } else {
      OthersLeaveLost(w, s, a, s', c);
    }
    LeftLost(s, s', c);
  }

  lemma LostAt(s: State, c: ConnId)
    requires Lost(s, c)
    ensures c < |s.sql.conns| && s.sql.conns[c].joined.None?
  {
  }

  lemma LeftLost(s: State, s': State, c: ConnId)
    requires Lost(s, c) && LeavesLost(s, s', c)
    ensures Lost(s', c)
  {
  }

  /** A Conn whose registration panicked is never registered, swapped or closed:
      its handle is in use for the rest of the behaviour. */
  lemma {:induction false} LostForever(w: World, run: seq<State>, actions: seq<Action>, i: nat, j: nat, c: ConnId)
    requires w.Ideal() && Behaviour(w, run, actions) && i <= j < |run| && Lost(run[i], c)
    ensures Lost(run[j], c) && run[j].sql.conns[c] == run[i].sql.conns[c]
    ensures run[j].sql.conns[c].handle in InUse(run[j])
  {
    hide Next, Torn, Lost, Bounded, Locked, Watched, Delivered, Stable, Mirrored, Accounted, Fresh;
    LostAt(run[i], c);
    if i < j {
      LostForever(w, run, actions, i, j - 1, c);
      InvAlways(w, run, actions, j - 1);
      assert Next(w, run[j - 1], actions[j - 1]) == Some(run[j]);
      LostStays(w, run[j - 1], actions[j - 1], run[j], c);
    }
    InvAlways(w, run, actions, j);
    LostInUse(run[j], c);
  }

  lemma LostInUse(s: State, c: ConnId)
    requires Accounted(s) && Lost(s, c)
    ensures s.sql.conns[c].handle in InUse(s)
  {
    var h := s.sql.conns[c].handle;
    assert ConnOk(s, c);
    assert h in s.sql.closed ==> SpentOk(s.sql, h);
  }
}
