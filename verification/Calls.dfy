/** One call of a thread, from the step that begins it to its return. */
module Calls {
  import opened Values
  import opened Refresh
  import opened Stuck

  /** The call that step i begins in thread t is still running in run[j]. */
  ghost predicate InCall(run: seq<State>, actions: seq<Action>, i: nat, j: nat, t: Tid, pc: Pc) {
    && i < j < |run| == |actions| + 1 && actions[i] == Begin(t, pc)
    && forall m :: i < m <= j ==> t < |run[m].threads| && !run[m].threads[t].Idle?
  }

  /** Step k is one of thread t, taken at the point pc. */
  ghost predicate StepAt(run: seq<State>, actions: seq<Action>, k: nat, t: Tid, pc: Pc) {
    && k < |actions| < |run| && actions[k].Run? && actions[k].t == t
    && t < |run[k].threads| && run[k].threads[t] == pc
  }

  ghost predicate IsStepOf(a: Action, t: Tid) {
    a.Run? && a.t == t
  }

  /** A caller that is not scheduled stays where it is. */
  lemma CallerWaits(w: World, s: State, a: Action, s': State, t: Tid)
    requires Next(w, s, a) == Some(s') && t < |s.threads| && !IsStepOf(a, t)
    requires !s.threads[t].Idle? && !s.threads[t].Watching?
    ensures t < |s'.threads| && s'.threads[t] == s.threads[t]
  {
    hide Step, WriteStep;
    if a.Run? {
      OthersStay(w, s, a.t, a.ch, s', t);
    } else {
      WriteMovesNone(w, s, a, s');
    }
  }

  lemma WriteMovesNone(w: World, s: State, a: Action, s': State)
    requires Next(w, s, a) == Some(s') && !a.Run?
    ensures |s.threads| <= |s'.threads|
    ensures forall t :: 0 <= t < |s.threads| ==>
      s'.threads[t] == s.threads[t] || (a.Begin? && a.t == t && s.threads[t].Idle?)
  {
    hide Step;
  }

  // --------------------------------------------------------- where it began

  predicate IsCaller(pc: Pc) {
    pc.Opening? || pc.Closing? || pc.Setting? || pc.Committing?
  }

  /** A point of the operation that pc is a point of, on the same Conn. */
  predicate SameOperation(pc: Pc, pc': Pc) {
    match pc
    case Opening(_) => pc'.Opening?
    case Closing(c, _) => pc'.Closing? && pc'.c == c
    case Setting(_) => pc'.Setting?
    case Committing(_) => pc'.Committing?
    case _ => false
  }

  /** A thread in an operation was in it before, or begins it now. */
  ghost predicate CameFrom(s: State, a: Action, s': State, t: Tid)
    requires t < |s'.threads|
  {
    IsCaller(s'.threads[t]) ==>
      && t < |s.threads|
      && (SameOperation(s.threads[t], s'.threads[t]) || (s.threads[t].Idle? && a == Begin(t, s'.threads[t])))
  }

  lemma OpenerMoves(w: World, s: State, t: Tid, at: OpenPc, ch: Choice, s': State)
    requires t < |s.threads| && OpenStep(w, s, t, at, ch) == Some(s')
    ensures t < |s'.threads| && (s'.threads[t].Opening? || s'.threads[t].Idle?)
    ensures forall u :: |s.threads| <= u < |s'.threads| ==> s'.threads[u].Watching?
  {
    hide FetchStep;
  }

  lemma WatcherMoves(s: State, t: Tid, d: DbId, loop: WatchPc, ch: Choice, s': State)
    requires t < |s.threads| && d < |s.dbs| && WatchStep(s, t, d, loop, ch) == Some(s')
    ensures |s'.threads| == |s.threads| && (s'.threads[t].Watching? || s'.threads[t].Exiting?)
  {
    hide FetchStep;
  }

  lemma SetterMoves(w: World, s: State, t: Tid, phase: SetPc, ch: Choice, s': State)
    requires t < |s.threads| && SetStep(w, s, t, phase, ch) == Some(s')
    ensures |s'.threads| == |s.threads| && (s'.threads[t].Setting? || s'.threads[t].Idle?)
    ensures forall u :: 0 <= u < |s.threads| && u != t && s'.threads[u] != s.threads[u] ==> s'.threads[u].Watching?
  {
  }

  lemma CallerMoves(w: World, s: State, t: Tid, ch: Choice, s': State)
    requires t < |s.threads| && Step(w, s, t, ch) == Some(s')
    requires s.threads[t].Closing? || s.threads[t].Committing?
    ensures |s'.threads| == |s.threads| && (s'.threads[t].Idle? || SameOperation(s.threads[t], s'.threads[t]))
    ensures forall u :: 0 <= u < |s.threads| && u != t ==> s'.threads[u] == s.threads[u]
  {
    hide OpenStep, WatchStep, SetStep, ExitStep;
  }

  lemma ExiterMoves(s: State, t: Tid, d: DbId, exit: ExitPc, ch: Choice, s': State)
    requires t < |s.threads| && d < |s.dbs| && ExitStep(s, t, d, exit, ch) == Some(s')
    ensures |s'.threads| == |s.threads| && s'.threads[t].Exiting?
    ensures forall u :: 0 <= u < |s.threads| && u != t ==> s'.threads[u] == s.threads[u]
  {
  }

  lemma NextCameFrom(w: World, s: State, a: Action, s': State, t: Tid)
    requires Next(w, s, a) == Some(s') && t < |s'.threads|
    ensures CameFrom(s, a, s', t)
  {
    hide OpenStep, CloseStep, SetStep, CommitStep, WatchStep, ExitStep;
    if a.Run? {
      match s.threads[a.t]
      case Opening(at) =>
        OpenerMoves(w, s, a.t, at, a.ch, s');
        if t < |s.threads| && t != a.t { OpenerLeavesOthers(w, s, a.t, at, a.ch, s', t); }
      case Watching(d, loop) =>
        WatcherMoves(s, a.t, d, loop, a.ch, s');
        if t < |s.threads| && t != a.t { WatcherLeavesOthers(s, a.t, d, loop, a.ch, s', t); }
      case Setting(phase) => SetterMoves(w, s, a.t, phase, a.ch, s');
      case Closing(_, _) => CallerMoves(w, s, a.t, a.ch, s');
      case Committing(_) => CallerMoves(w, s, a.t, a.ch, s');
      case Exiting(d, exit) => ExiterMoves(s, a.t, d, exit, a.ch, s');
    }
  }

  /** Every thread in an operation is in a call that some step began. */
  lemma {:induction false} CallBegun(w: World, run: seq<State>, actions: seq<Action>, j: nat, t: Tid)
    requires Behaviour(w, run, actions) && j < |run| && t < |run[j].threads| && IsCaller(run[j].threads[t])
    ensures exists i: nat, pc ::
      InCall(run, actions, i, j, t, pc) && SameOperation(pc, run[j].threads[t]) && CanBegin(run[i], pc)
  {
    hide Next, CanBegin;
    if j > 0 {
      var s, a, s' := run[j - 1], actions[j - 1], run[j];
      assert Next(w, s, a) == Some(s');
      NextCameFrom(w, s, a, s', t);
      if s.threads[t].Idle? {
        BeginsAt(w, s, a, s', t);
        assert InCall(run, actions, j - 1, j, t, s'.threads[t]);
      } else {
        CallBegun(w, run, actions, j - 1, t);
        var i: nat, pc :| InCall(run, actions, i, j - 1, t, pc) && SameOperation(pc, s.threads[t])
          && CanBegin(run[i], pc);
        assert InCall(run, actions, i, j, t, pc);
      }
    }
  }

  lemma BeginsAt(w: World, s: State, a: Action, s': State, t: Tid)
    requires Next(w, s, a) == Some(s') && t < |s'.threads| && a == Begin(t, s'.threads[t])
    ensures CanBegin(s, s'.threads[t])
  {
  }

  // ------------------------------------------------------ what a db remembers

  /** A db keeps its name and where it subscribed. */
  ghost predicate DbStays(s: State, s': State, d: DbId) {
    d < |s.dbs| ==>
      && d < |s'.dbs| && s'.dbs[d].name == s.dbs[d].name
      && s'.dbs[d].feed.(applied := []) == s.dbs[d].feed.(applied := [])
  }

  lemma OpenKeepsDb(w: World, s: State, t: Tid, at: OpenPc, ch: Choice, s': State, d: DbId)
    requires t < |s.threads| && OpenStep(w, s, t, at, ch) == Some(s')
    ensures DbStays(s, s', d)
  {
    hide FetchStep;
  }

  lemma WatchKeepsDb(s: State, t: Tid, e: DbId, loop: WatchPc, ch: Choice, s': State, d: DbId)
    requires t < |s.threads| && e < |s.dbs| && WatchStep(s, t, e, loop, ch) == Some(s')
    ensures DbStays(s, s', d)
  {
    hide FetchStep;
  }

  lemma CloseKeepsDb(s: State, t: Tid, c: ConnId, stage: ClosePc, ch: Choice, s': State, d: DbId)
    requires t < |s.threads| && CloseStep(s, t, c, stage, ch) == Some(s')
    ensures DbStays(s, s', d) && |s'.dbs| == |s.dbs|
  {
  }

  lemma ExitKeepsDb(s: State, t: Tid, e: DbId, exit: ExitPc, ch: Choice, s': State, d: DbId)
    requires t < |s.threads| && e < |s.dbs| && ExitStep(s, t, e, exit, ch) == Some(s')
    ensures DbStays(s, s', d) && |s'.dbs| == |s.dbs|
  {
  }

  lemma SetKeepsDb(w: World, s: State, t: Tid, phase: SetPc, ch: Choice, s': State)
    requires t < |s.threads| && SetStep(w, s, t, phase, ch) == Some(s')
    ensures s'.dbs == s.dbs
  {
  }

  lemma CommitKeepsDb(w: World, s: State, t: Tid, part: CommitPc, ch: Choice, s': State)
    requires t < |s.threads| && CommitStep(w, s, t, part, ch) == Some(s')
    ensures s'.dbs == s.dbs
  {
  }

  lemma DbKept(w: World, s: State, a: Action, s': State, d: DbId)
    requires Next(w, s, a) == Some(s')
    ensures DbStays(s, s', d)
  {
    hide OpenStep, WatchStep, CloseStep, SetStep, CommitStep, ExitStep;
    if a.Run? {
      match s.threads[a.t]
      case Opening(at) => OpenKeepsDb(w, s, a.t, at, a.ch, s', d);
      case Watching(e, loop) => WatchKeepsDb(s, a.t, e, loop, a.ch, s', d);
      case Closing(c, stage) => CloseKeepsDb(s, a.t, c, stage, a.ch, s', d);
      case Exiting(e, exit) => ExitKeepsDb(s, a.t, e, exit, a.ch, s', d);
      case Setting(phase) => SetKeepsDb(w, s, a.t, phase, a.ch, s');
      case Committing(part) => CommitKeepsDb(w, s, a.t, part, a.ch, s');
    }
  }

  /** Over a behaviour. */
  lemma {:induction false} DbKeptLater(w: World, run: seq<State>, actions: seq<Action>, i: nat, j: nat, d: DbId)
    requires Behaviour(w, run, actions) && i <= j < |run|
    ensures DbStays(run[i], run[j], d)
  {
    hide Next;
    if i < j {
      DbKeptLater(w, run, actions, i, j - 1, d);
      assert Next(w, run[j - 1], actions[j - 1]) == Some(run[j]);
      DbKept(w, run[j - 1], actions[j - 1], run[j], d);
    }
  }

  // ------------------------------------------------------ the address of a db

  /** A db subscribes to the address its name denotes. */
  ghost predicate AddressOk(w: World, s: State, d: DbId) {
    d < |s.dbs| ==> s.dbs[d].feed.addr == w.addressOf(s.dbs[d].name)
  }

  /** A db that a step adds is the last one, and on its own address. */
  ghost predicate AddsAddressed(w: World, s: State, s': State) {
    |s'.dbs| <= |s.dbs| || (|s'.dbs| == |s.dbs| + 1 && AddressOk(w, s', |s.dbs|))
  }

  lemma OpenAddsAddressed(w: World, s: State, t: Tid, at: OpenPc, ch: Choice, s': State)
    requires t < |s.threads| && OpenStep(w, s, t, at, ch) == Some(s')
    ensures AddsAddressed(w, s, s')
  {
    hide FetchStep;
  }

  lemma WatchAddsNone(s: State, t: Tid, e: DbId, loop: WatchPc, ch: Choice, s': State)
    requires t < |s.threads| && e < |s.dbs| && WatchStep(s, t, e, loop, ch) == Some(s')
    ensures |s'.dbs| == |s.dbs|
  {
    hide FetchStep;
  }

  lemma NextAddsAddressed(w: World, s: State, a: Action, s': State)
    requires Next(w, s, a) == Some(s')
    ensures AddsAddressed(w, s, s')
  {
    hide OpenStep, WatchStep, CloseStep, SetStep, CommitStep, ExitStep;
    if a.Run? {
      match s.threads[a.t]
      case Opening(at) => OpenAddsAddressed(w, s, a.t, at, a.ch, s');
      case Watching(e, loop) => WatchAddsNone(s, a.t, e, loop, a.ch, s');
      case Closing(c, stage) => CloseKeepsDb(s, a.t, c, stage, a.ch, s', 0);
      case Exiting(e, exit) => ExitKeepsDb(s, a.t, e, exit, a.ch, s', 0);
      case Setting(phase) => SetKeepsDb(w, s, a.t, phase, a.ch, s');
      case Committing(part) => CommitKeepsDb(w, s, a.t, part, a.ch, s');
    }
  }

  /** In every behaviour each db is subscribed to the address of its name. */
  lemma {:induction false} AddressAlways(w: World, run: seq<State>, actions: seq<Action>, j: nat, d: DbId)
    requires Behaviour(w, run, actions) && j < |run| && d < |run[j].dbs|
    ensures run[j].dbs[d].feed.addr == w.addressOf(run[j].dbs[d].name)
  {
    hide Next;
    if j > 0 {
      assert Next(w, run[j - 1], actions[j - 1]) == Some(run[j]);
      NextAddsAddressed(w, run[j - 1], actions[j - 1], run[j]);
      if d < |run[j - 1].dbs| {
        AddressAlways(w, run, actions, j - 1, d);
        DbKept(w, run[j - 1], actions[j - 1], run[j], d);
      }
    }
  }
}
