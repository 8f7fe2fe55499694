/** What a call of Conn.Close leaves: its Conn removed and its handle closed, for good. */
module CloseCalls {
  import opened Values
  import opened Refresh
  import opened Bounds
  import opened Handles
  import opened Runs
  import opened Calls

  // ---------------------------------------------------------- what one step does

  /** Thread t is about to close the handle of Conn c, which it has removed. */
  predicate ClosesNext(s: State, t: Tid, c: ConnId) {
    t < |s.threads| && s.threads[t] == Closing(c, CloseHandle)
  }

  /** Handles are closed by nothing but such a thread, one at a time. */
  ghost predicate ClosesStep(s: State, a: Action, s': State) {
    || s'.sql.closed == s.sql.closed
    || (&& a.Run? && a.t < |s.threads| && s.threads[a.t].Closing? && s.threads[a.t].stage.CloseHandle?
        && s.threads[a.t].c < |s.sql.conns|
        && s'.sql.closed == s.sql.closed + {s.sql.conns[s.threads[a.t].c].handle})
  }

  /** A Conn is removed by nothing but a thread that then closes its handle. */
  ghost predicate RemovesStep(s: State, a: Action, s': State) {
    forall c :: 0 <= c < |s'.sql.conns| && s'.sql.conns[c].removed ==>
      && c < |s.sql.conns|
      && (s.sql.conns[c].removed || (a.Run? && ClosesNext(s', a.t, c)))
  }

  lemma OpenClosesNone(w: World, s: State, a: Action, at: OpenPc, s': State)
    requires a.Run? && a.t < |s.threads| && OpenStep(w, s, a.t, at, a.ch) == Some(s')
    ensures s'.sql.closed == s.sql.closed && RemovesStep(s, a, s')
  {
    hide FetchStep;
  }

  lemma WatchClosesNone(s: State, a: Action, d: DbId, loop: WatchPc, s': State)
    requires a.Run? && a.t < |s.threads| && d < |s.dbs| && WatchStep(s, a.t, d, loop, a.ch) == Some(s')
    ensures s'.sql.closed == s.sql.closed && RemovesStep(s, a, s')
  {
    hide FetchStep;
  }

  lemma OtherClosesNone(w: World, s: State, a: Action, s': State)
    requires Next(w, s, a) == Some(s')
    requires a.Run? ==> s.threads[a.t].Setting? || s.threads[a.t].Committing? || s.threads[a.t].Exiting?
    ensures s'.sql.closed == s.sql.closed && RemovesStep(s, a, s')
  {
    hide OpenStep, WatchStep, CloseStep;
  }

  lemma CloseCloses(s: State, a: Action, c: ConnId, stage: ClosePc, s': State)
    requires a.Run? && a.t < |s.threads| && s.threads[a.t] == Closing(c, stage)
    requires CloseStep(s, a.t, c, stage, a.ch) == Some(s')
    ensures ClosesStep(s, a, s') && RemovesStep(s, a, s') && a.t < |s'.threads|
    ensures s'.threads[a.t].Idle? ==> stage.CloseHandle? && s.HasConn(c) && s.sql.conns[c].handle in s'.sql.closed
    ensures s'.threads[a.t].Idle? || s'.threads[a.t] == Closing(c, CloseRemove) || ClosesNext(s', a.t, c)
  {
  }

  lemma NextCloses(w: World, s: State, a: Action, s': State)
    requires Next(w, s, a) == Some(s')
    ensures ClosesStep(s, a, s') && RemovesStep(s, a, s')
  {
    hide OpenStep, CloseStep, SetStep, CommitStep, WatchStep, ExitStep, RemovesStep, ClosesStep;
    if a.Run? {
      match s.threads[a.t]
      case Opening(at) => OpenClosesNone(w, s, a, at, s');
      case Watching(d, loop) => WatchClosesNone(s, a, d, loop, s');
      case Closing(c, stage) => CloseCloses(s, a, c, stage, s');
      case Setting(_) => OtherClosesNone(w, s, a, s');
      case Committing(_) => OtherClosesNone(w, s, a, s');
      case Exiting(_, _) => OtherClosesNone(w, s, a, s');
    } else {
      OtherClosesNone(w, s, a, s');
    }
    Unchanged(s, a, s');
  }

  lemma Unchanged(s: State, a: Action, s': State)
    ensures s'.sql.closed == s.sql.closed ==> ClosesStep(s, a, s')
  {
  }

  // ---------------------------------------------------------- every behaviour

  ghost predicate BeingClosed(s: State, c: ConnId) {
    exists t: nat :: ClosesNext(s, t, c)
  }

  /** The handle of a removed Conn is closed, or about to be. */
  ghost predicate ClosedOrNext(s: State, c: ConnId)
    requires c < |s.sql.conns|
  {
    s.sql.conns[c].handle in s.sql.closed || BeingClosed(s, c)
  }

  /** One step of ClosedAlways. */
  lemma StaysClosed(w: World, s: State, a: Action, s': State, c: ConnId)
    requires Next(w, s, a) == Some(s') && Accounted(s) && Bounded(s)
    requires c < |s.sql.conns| && s.sql.conns[c].removed && ClosedOrNext(s, c)
    ensures c < |s'.sql.conns| && s'.sql.conns[c] == s.sql.conns[c] && ClosedOrNext(s', c)
  {
    hide Next, Bounded;
    RemovedKeepsHandle(w, s, a, s', c);
    NextCloses(w, s, a, s');
    if s.sql.conns[c].handle !in s.sql.closed {
      var t: nat :| ClosesNext(s, t, c);
      if IsStepOf(a, t) {
        CloserActs(w, s, a, s', t, c);
      } else {
        CallerWaits(w, s, a, s', t);
        assert ClosesNext(s', t, c);
      }
    }
  }

  lemma CloserActs(w: World, s: State, a: Action, s': State, t: Tid, c: ConnId)
    requires Next(w, s, a) == Some(s') && IsStepOf(a, t) && ClosesNext(s, t, c)
    ensures c < |s.sql.conns| && s.sql.conns[c].handle in s'.sql.closed
  {
    hide OpenStep, SetStep, CommitStep, WatchStep, ExitStep;
  }

  /** In every behaviour, the handle of a Conn that Close has removed is closed,
      or a thread is about to close it. */
  lemma {:induction false} ClosedAlways(w: World, run: seq<State>, actions: seq<Action>, j: nat, c: ConnId)
    requires w.Ideal() && Behaviour(w, run, actions) && j < |run|
    requires c < |run[j].sql.conns| && run[j].sql.conns[c].removed
    ensures run[j].sql.conns[c].handle in run[j].sql.closed || BeingClosed(run[j], c)
  {
    hide Next, Inv;
    if j > 0 {
      assert Next(w, run[j - 1], actions[j - 1]) == Some(run[j]);
      NextCloses(w, run[j - 1], actions[j - 1], run[j]);
      if c < |run[j - 1].sql.conns| && run[j - 1].sql.conns[c].removed {
        ClosedAlways(w, run, actions, j - 1, c);
        InvBefore(w, run, actions, j);
        StaysClosed(w, run[j - 1], actions[j - 1], run[j], c);
      } else {
        assert ClosesNext(run[j], actions[j - 1].t, c);
      }
    }
  }

  lemma InvBefore(w: World, run: seq<State>, actions: seq<Action>, j: nat)
    requires w.Ideal() && Behaviour(w, run, actions) && 0 < j <= |run|
    ensures Accounted(run[j - 1]) && Bounded(run[j - 1])
  {
    InvAlways(w, run, actions, j - 1);
  }

  /** Where no thread is about to close a handle, the handles closed are exactly
      those of the removed Conns. */
  lemma ClosedExactly(w: World, run: seq<State>, actions: seq<Action>, j: nat, c: ConnId)
    requires w.Ideal() && Behaviour(w, run, actions) && j < |run| && c < |run[j].sql.conns|
    requires !BeingClosed(run[j], c)
    ensures run[j].sql.conns[c].handle in run[j].sql.closed <==> run[j].sql.conns[c].removed
  {
    hide Next, Inv;
    InvBefore(w, run, actions, j + 1);
    if run[j].sql.conns[c].handle in run[j].sql.closed { ClosedIsRemoved(run[j], c); }
    if run[j].sql.conns[c].removed { ClosedAlways(w, run, actions, j, c); }
  }

  lemma ClosedIsRemoved(s: State, c: ConnId)
    requires Accounted(s) && c < |s.sql.conns| && s.sql.conns[c].handle in s.sql.closed
    ensures s.sql.conns[c].removed
  {
    assert ConnOk(s, c) && SpentOk(s.sql, s.sql.conns[c].handle);
  }

  // -------------------------------------------------------------- a whole call

  /** A call stays with its Conn, and has removed it before the last point. */
  lemma {:induction false} CloseAlways(w: World, run: seq<State>, actions: seq<Action>, i: nat, j: nat, t: Tid,
          c: ConnId)
    requires w.Ideal() && Behaviour(w, run, actions) && InCall(run, actions, i, j, t, Closing(c, CloseWait))
    ensures run[j].threads[t].Closing? && run[j].threads[t].c == c
  {
    hide Step;
    assert Next(w, run[j - 1], actions[j - 1]) == Some(run[j]);
    if j > i + 1 {
      CloseAlways(w, run, actions, i, j - 1, t, c);
      if IsStepOf(actions[j - 1], t) {
        CloserSteps(w, run[j - 1], t, c, run[j - 1].threads[t].stage, actions[j - 1].ch, run[j]);
        CloseCloses(run[j - 1], actions[j - 1], c, run[j - 1].threads[t].stage, run[j]);
      } else {
        CallerWaits(w, run[j - 1], actions[j - 1], run[j], t);
      }
    }
  }

  lemma CloserSteps(w: World, s: State, t: Tid, c: ConnId, stage: ClosePc, ch: Choice, s': State)
    requires t < |s.threads| && s.threads[t] == Closing(c, stage) && Step(w, s, t, ch) == Some(s')
    ensures CloseStep(s, t, c, stage, ch) == Some(s')
  {
    hide CloseStep;
  }

  lemma {:induction false} ClosedForGood(w: World, run: seq<State>, actions: seq<Action>, j: nat, l: nat, h: HandleId)
    requires Behaviour(w, run, actions) && j <= l < |run| && h in run[j].sql.closed
    ensures h in run[l].sql.closed
  {
    hide Next;
    if j < l {
      ClosedForGood(w, run, actions, j, l - 1, h);
      assert Next(w, run[l - 1], actions[l - 1]) == Some(run[l]);
      NextCloses(w, run[l - 1], actions[l - 1], run[l]);
    }
  }

  /** When a call of Close has returned, its Conn is out of its database's Conns,
      and the handle it had then, which is the last it will ever have, is closed:
      in the state after the return and in every later one. */
  lemma CloseReturns(w: World, run: seq<State>, actions: seq<Action>, i: nat, j: nat, l: nat, t: Tid, c: ConnId)
    requires w.Ideal() && Behaviour(w, run, actions) && InCall(run, actions, i, j, t, Closing(c, CloseWait))
    requires j < |actions| && IsStepOf(actions[j], t) && t < |run[j + 1].threads| && run[j + 1].threads[t].Idle?
    requires j < l < |run|
    ensures c < |run[j].sql.conns| && c < |run[l].sql.conns| && run[l].sql.conns[c] == run[j].sql.conns[c]
    ensures run[l].sql.conns[c].removed && run[l].sql.conns[c].handle in run[l].sql.closed
    ensures run[l].HasConn(c) && c !in run[l].dbs[run[l].sql.conns[c].db].pool.conns
  {
    hide Step, Inv, Accounted, Bounded, CloseStep;
    assert Next(w, run[j], actions[j]) == Some(run[j + 1]);
    CloseAlways(w, run, actions, i, j, t, c);
    CloserSteps(w, run[j], t, c, run[j].threads[t].stage, actions[j].ch, run[j + 1]);
    CloseCloses(run[j], actions[j], c, run[j].threads[t].stage, run[j + 1]);
    InvBefore(w, run, actions, j + 1);
    RemovedHere(run[j], t, c);
    hide Next;
    FinalHandle(w, run, actions, j, l, c);
    ClosedForGood(w, run, actions, j + 1, l, run[j].sql.conns[c].handle);
    InvBefore(w, run, actions, l + 1);
    RemovedConn(run[l], c);
  }

  lemma RemovedHere(s: State, t: Tid, c: ConnId)
    requires Accounted(s) && ClosesNext(s, t, c)
    ensures c < |s.sql.conns| && s.sql.conns[c].removed
  {
    assert HandlePcOk(s, t, s.threads[t]);
  }

  lemma RemovedConn(s: State, c: ConnId)
    requires Accounted(s) && c < |s.sql.conns| && s.sql.conns[c].removed
    ensures s.HasConn(c) && c !in s.dbs[s.sql.conns[c].db].pool.conns
  {
    assert ConnOk(s, c);
  }
}
