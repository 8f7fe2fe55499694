/** What is blocked stays blocked, and how a failed refresh gets there. */
module Stuck {
  import opened Values
  import opened Refresh
  import opened Bounds
  import opened Locks
  import opened Watchers
  import opened Delivery
  import opened Disks
  import opened Mirror
  import opened Handles
  import opened Freshness
  import opened Runs
  import opened Liveness

  lemma OpenerLeavesOthers(w: World, s: State, t: Tid, at: OpenPc, ch: Choice, s': State, u: Tid)
    requires t < |s.threads| && OpenStep(w, s, t, at, ch) == Some(s') && u < |s.threads| && u != t
    ensures u < |s'.threads| && s'.threads[u] == s.threads[u]
  {
    hide FetchStep;
  }

  lemma WatcherLeavesOthers(s: State, t: Tid, d: DbId, loop: WatchPc, ch: Choice, s': State, u: Tid)
    requires t < |s.threads| && d < |s.dbs| && WatchStep(s, t, d, loop, ch) == Some(s') && u < |s.threads| && u != t
    ensures u < |s'.threads| && s'.threads[u] == s.threads[u]
  {
    hide FetchStep;
  }

  /** A step moves its own thread, and at most a watcher at its select. */
  lemma OthersStay(w: World, s: State, t: Tid, ch: Choice, s': State, u: Tid)
    requires t < |s.threads| && Step(w, s, t, ch) == Some(s') && u < |s.threads| && u != t
    requires !(s.threads[u].Watching? && s.threads[u].loop.Select?)
    ensures u < |s'.threads| && s'.threads[u] == s.threads[u]
  {
    hide OpenStep, WatchStep, SetStep, CommitStep;
    match s.threads[t]
    case Opening(at) => OpenerLeavesOthers(w, s, t, at, ch, s', u);
    case Watching(d, loop) => WatcherLeavesOthers(s, t, d, loop, ch, s', u);
    case Setting(phase) => SetterLeavesOthers(w, s, t, phase, ch, s', u);
    case Committing(part) => CommitterLeavesOthers(w, s, t, part, ch, s', u);
    case _ =>
  }

  lemma SetterLeavesOthers(w: World, s: State, t: Tid, phase: SetPc, ch: Choice, s': State, u: Tid)
    requires t < |s.threads| && SetStep(w, s, t, phase, ch) == Some(s') && u < |s.threads| && u != t
    requires !(s.threads[u].Watching? && s.threads[u].loop.Select?)
    ensures u < |s'.threads| && s'.threads[u] == s.threads[u]
  {
  }

  lemma CommitterLeavesOthers(w: World, s: State, t: Tid, part: CommitPc, ch: Choice, s': State, u: Tid)
    requires t < |s.threads| && CommitStep(w, s, t, part, ch) == Some(s') && u < |s.threads| && u != t
    ensures u < |s'.threads| && s'.threads[u] == s.threads[u]
  {
  }

  lemma OpenerLeavesWatchers(w: World, s: State, t: Tid, at: OpenPc, ch: Choice, s': State, d: DbId)
    requires t < |s.threads| && s.threads[t] == Opening(at) && PartOk(s, t) && OpenStep(w, s, t, at, ch) == Some(s')
    requires d < |s.dbs| && s.dbs[d].watcher.Some?
    ensures d < |s'.dbs| && s'.dbs[d].watcher == s.dbs[d].watcher
  {
    hide OpenFetching;
    if at.OpenFetch? {
      OpenFetchLeavesDbs(s, t, at.name, at.seen, at.fetch, ch, s');
    }
  }

  lemma OpenFetchLeavesDbs(s: State, t: Tid, name: string, seen: nat, f: Fetch, ch: Choice, s': State)
    requires t < |s.threads| && OpenFetching(s, t, name, seen, f, ch) == Some(s')
    ensures s'.dbs == s.dbs
  {
    hide FetchStep;
  }

  /** A db keeps its watcher. */
  lemma WatcherStays(w: World, s: State, t: Tid, ch: Choice, s': State, d: DbId)
    requires Watched(s) && t < |s.threads| && Step(w, s, t, ch) == Some(s')
    requires d < |s.dbs| && s.dbs[d].watcher.Some?
    ensures d < |s'.dbs| && s'.dbs[d].watcher == s.dbs[d].watcher
  {
    hide OpenStep, WatchStep, Watched;
    match s.threads[t]
    case Opening(at) =>
      PartAt(s, t);
      OpenerLeavesWatchers(w, s, t, at, ch, s', d);
    case Watching(e, loop) => WatchLeavesWatchers(s, t, e, loop, ch, s');
    case _ =>
  }

  lemma WatchLeavesWatchers(s: State, t: Tid, d: DbId, loop: WatchPc, ch: Choice, s': State)
    requires t < |s.threads| && d < |s.dbs| && WatchStep(s, t, d, loop, ch) == Some(s')
    ensures forall e :: 0 <= e < |s.dbs| ==> e < |s'.dbs| && s'.dbs[e].watcher == s.dbs[e].watcher
  {
    hide FetchStep;
  }

  lemma PartAt(s: State, t: Tid)
    requires Watched(s) && t < |s.threads|
    ensures PartOk(s, t)
  {
  }

  /** A watcher that waits for its own lock stays there, and keeps the lock. */
  lemma SelfBlockedStays(w: World, s: State, a: Action, s': State, t: Tid)
    requires Inv(w, s) && Next(w, s, a) == Some(s') && SelfBlocked(s, t)
    ensures SelfBlocked(s', t) && s'.threads[t] == s.threads[t]
  {
    hide OpenStep, CloseStep, SetStep, CommitStep, WatchStep;
    if a.Run? {
      if a.t == t {
        SelfLockBlocks(s, t, s.threads[t].d, s.threads[t].exit.c, a.ch);
      } else {
        hide ExitStep;
        OthersStay(w, s, a.t, a.ch, s', t);
      }
    }
  }

  /** A publisher and a failed watcher that wait for each other stay so. */
  lemma MutuallyBlockedStays(w: World, s: State, a: Action, s': State, p: Tid, t: Tid)
    requires Inv(w, s) && Next(w, s, a) == Some(s') && MutuallyBlocked(s, p, t)
    ensures MutuallyBlocked(s', p, t) && s'.threads[p] == s.threads[p]
  {
    hide OpenStep, CloseStep, CommitStep, WatchStep;
    assert HoldsRegMtx(s.threads[p]) && s.regMtx == Some(p);
    if a.Run? {
      assert a.t != p && a.t != t;
      hide SetStep, ExitStep, Bounded, Locked, Delivered, Stable, Mirrored, Accounted, Fresh;
      OthersStay(w, s, a.t, a.ch, s', p);
      OthersStay(w, s, a.t, a.ch, s', t);
      WatcherStays(w, s, a.t, a.ch, s', s.threads[p].phase.d);
    }
  }

  /** A refresh that fails while a publisher is sending the next hash to the
      same watcher blocks both. */
  lemma FailedRefreshBlocksSender(w: World, s: State, p: Tid, t: Tid, d: DbId, f: Fetch)
    requires Inv(w, s) && !s.crashed && p < |s.threads| && t < |s.threads|
    requires s.threads[p].Setting? && s.threads[p].phase.SetSend? && s.threads[p].phase.d == d
    requires s.threads[t] == Watching(d, Refetch(f))
    ensures Next(w, s, Run(t, Fail)).Some? && MutuallyBlocked(Next(w, s, Run(t, Fail)).value, p, t)
  {
    assert PartOk(s, t);
  }

  /** From the failure of a refresh, with nobody else moving, to the lock of the
      connections. */
  lemma FailedRefreshExits(w: World, s: State, t: Tid, d: DbId, f: Fetch)
    returns (s1: State, s2: State, s3: State, s4: State)
    requires Inv(w, s) && !s.crashed && t < |s.threads| && s.threads[t] == Watching(d, Refetch(f))
    requires d < |s.dbs| && s.regMtx.None?
    ensures Next(w, s, Run(t, Fail)) == Some(s1) && Next(w, s1, Run(t, Go)) == Some(s2)
    ensures Next(w, s2, Run(t, Go)) == Some(s3) && Next(w, s3, Run(t, Go)) == Some(s4)
    ensures !s4.crashed && t < |s4.threads| && s4.threads[t] == Exiting(d, ExitConns)
    ensures s4.dbs == s.dbs[d := s.dbs[d].(closed := true)] && s4.sql == s.sql && s4.disk == s.disk
    ensures s4.threads == s.threads[t := Exiting(d, ExitConns)] && s4.regMtx == None && s4.panics == s.panics
  {
    hide Inv, OpenStep, CloseStep, SetStep, CommitStep;
    s1 := s.Goto(t, Exiting(d, ExitStart));
    s2 := s1.(regMtx := Some(t)).Goto(t, Exiting(d, ExitUnsub));
    s3 := s2.(regMtx := None, ledger := s2.ledger.(subs := s2.ledger.subs - {d})).Goto(t, Exiting(d, ExitClose));
    s4 := s3.SetDb(d, s3.dbs[d].(closed := true)).Goto(t, Exiting(d, ExitConns));
    assert s.(disk := s.disk) == s;
    assert Next(w, s, Run(t, Fail)) == Some(s1);
    hide WatchStep;
    assert Next(w, s1, Run(t, Go)) == Some(s2);
    assert Next(w, s2, Run(t, Go)) == Some(s3);
  }

  /** A refresh that fails while a Conn is registered leads, with nobody else
      moving, to a watcher that waits for itself. */
  lemma FailedRefreshBlocksItself(w: World, s: State, t: Tid, d: DbId, f: Fetch, c: ConnId)
    returns (s1: State, s2: State, s3: State, s4: State, s5: State, end: State)
    requires Inv(w, s) && !s.crashed && t < |s.threads| && s.threads[t] == Watching(d, Refetch(f))
    requires d < |s.dbs| && c in s.dbs[d].pool.conns && s.dbs[d].pool.lock.Free() && s.regMtx.None?
    ensures Next(w, s, Run(t, Fail)) == Some(s1) && Next(w, s1, Run(t, Go)) == Some(s2)
    ensures Next(w, s2, Run(t, Go)) == Some(s3) && Next(w, s3, Run(t, Go)) == Some(s4)
    ensures Next(w, s4, Run(t, Go)) == Some(s5) && Next(w, s5, Run(t, Take(c))) == Some(end)
    ensures SelfBlocked(end, t)
  {
    s1, s2, s3, s4 := FailedRefreshExits(w, s, t, d, f);
    hide Inv, OpenStep, CloseStep, SetStep, CommitStep, WatchStep;
    s5 := s4.SetLock(d, RwLock(Some(t), {})).Goto(t, Exiting(d, ExitDrain));
    end := s5.Goto(t, Exiting(d, ExitSelf(c)));
    assert Next(w, s4, Run(t, Go)) == Some(s5);
  }

  /** A thread that is blocked stays where it is, blocked, whatever step any
      thread takes. */
  lemma BlockedStays(w: World, s: State, a: Action, s': State, t: Tid)
    requires w.Ideal() && Inv(w, s) && Next(w, s, a) == Some(s') && Blocked(s, t)
    ensures Blocked(s', t) && t < |s.threads| && t < |s'.threads| && s'.threads[t] == s.threads[t]
  {
    InvNext(w, s, a, s');
    BlockedKeepsPlace(w, s, a, s', t);
    if SelfBlocked(s, t) {
    } else if BlockedBySelf(s, t) {
      var u: Tid :| SelfBlocked(s, u) && NeedsConns(s, s.threads[t], s.threads[u].d);
      SelfBlockedStays(w, s, a, s', u);
      SelfHolds(w, s, u);
      ConnsKeepDb(w, s, a, s', t, s.threads[u].d);
      assert SelfBlocked(s', u) && NeedsConns(s', s'.threads[t], s'.threads[u].d);
    } else {
      var p, u :| BlockedByPair(s, t, p, u);
      PairStays(w, s, a, s', t, p, u);
    }
  }

  lemma BlockedKeepsPlace(w: World, s: State, a: Action, s': State, t: Tid)
    requires Inv(w, s) && Next(w, s, a) == Some(s') && Blocked(s, t)
    ensures t < |s.threads| && t < |s'.threads| && s'.threads[t] == s.threads[t]
  {
    BlockedCannot(w, s, t, Go);
    hide Inv, Blocked, Step;
    if a.Run? {
      if a.t == t { BlockedCannot(w, s, t, a.ch); }
      OthersStay(w, s, a.t, a.ch, s', t);
    }
  }

  lemma ConnsKeepDb(w: World, s: State, a: Action, s': State, t: Tid, d: DbId)
    requires Inv(w, s) && Next(w, s, a) == Some(s') && t < |s.threads| && NeedsConns(s, s.threads[t], d)
    requires d < |s'.dbs|
    ensures NeedsConns(s', s.threads[t], d)
  {
    var c := if s.threads[t].Opening? then s.threads[t].at.c else s.threads[t].c;
    GenerationsGrow(w, s, a, s', c);
  }

  lemma PairStays(w: World, s: State, a: Action, s': State, t: Tid, p: Tid, u: Tid)
    requires Inv(w, s) && Inv(w, s') && Next(w, s, a) == Some(s') && BlockedByPair(s, t, p, u)
    requires t < |s'.threads| && s'.threads[t] == s.threads[t]
    ensures BlockedByPair(s', t, p, u)
  {
    MutuallyBlockedStays(w, s, a, s', p, u);
    if t != p && !NeedsRegMtx(s.threads[t]) {
      var v := s.dbMtx.value;
      assert BlockedByPair(s, v, p, u);
      BlockedKeepsPlace(w, s, a, s', v);
      assert HoldsDbMtx(s.threads[v]) && HoldsDbMtx(s'.threads[v]);
    }
  }

  /** Blocked is for ever: in every later state of a behaviour the same thread is
      at the same point and blocked. */
  lemma {:induction false} BlockedForever(w: World, run: seq<State>, actions: seq<Action>, i: nat, j: nat, t: Tid)
    requires w.Ideal() && Behaviour(w, run, actions) && i <= j < |run| && Blocked(run[i], t)
    ensures t < |run[i].threads| && t < |run[j].threads| && run[j].threads[t] == run[i].threads[t]
    ensures Blocked(run[j], t)
  {
    hide Next, Inv, Blocked;
    BusyHere(run[i], t);
    if i < j {
      BlockedForever(w, run, actions, i, j - 1, t);
      InvAlways(w, run, actions, j - 1);
      assert Next(w, run[j - 1], actions[j - 1]) == Some(run[j]);
      BlockedStays(w, run[j - 1], actions[j - 1], run[j], t);
    }
  }
}
