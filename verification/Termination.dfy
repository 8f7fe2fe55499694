/** Operations end: a run of steps that begins nothing new is finite. */
module Termination {
  import opened Values
  import opened Refresh
  import opened Bounds
  import opened Locks
  import opened Watchers
  import opened Delivery
  import opened Disks
  import opened Mirror
  import opened Handles
  import opened Freshness
  import opened Runs
  import opened Liveness

  // ----------------------------------------------------- what is left to do

  /** How many program points of a call are ahead. */
  function Stage(pc: Pc): nat {
    match pc
    case Opening(at) =>
      (match at
       case OpenStart(_) => 13
       case OpenLookup(_) => 12
       case OpenGraph(_) => 11
       case OpenRead(_) => 10
       case OpenFetch(_, _, _) => 9
       case OpenSubscribe(_, _, _) => 8
       case OpenAttach(_, _, _) => 7
       case OpenInstall(_) => 6
       case OpenSpawn(_) => 5
       case OpenReturn(_) => 4
       case OpenConn(_) => 3
       case OpenAdd(_) => 2
       case OpenAdding(_) => 1)
    case Closing(_, stage) => (match stage case CloseWait => 3 case CloseRemove => 2 case CloseHandle => 1)
    case Setting(phase) => if phase.SetStart? then 3 else if phase.SetCheck? then 2 else 1
    case Committing(part) => if part.CommitStart? then 3 else if part.CommitStat? then 2 else 1
    case _ => 0
  }

  /** How many sends a publisher still owes, two steps each. */
  function Debt(pc: Pc): nat {
    if !pc.Setting? then 0
    else if pc.phase.SetNext? then 2 * |pc.phase.todo|
    else if pc.phase.SetSend? then 2 * |pc.phase.todo| + 1
    else 0
  }

  /** How many bytes a fetch still has to copy, and the steps around it. */
  function ToCopy(disk: Disk, f: Fetch): nat {
    if f.tmp.None? then (if disk.Available(f.hash) then |disk.Source(f.hash)| + 2 else 2)
    else if f.tmp.value < |disk.files| && disk.Available(f.hash)
            && |disk.files[f.tmp.value].content| <= |disk.Source(f.hash)| then
      |disk.Source(f.hash)| - |disk.files[f.tmp.value].content| + 1
    else 1
  }

  function Work(disk: Disk, conns: nat, pc: Pc): nat {
    match pc
    case Opening(at) => if at.OpenFetch? then ToCopy(disk, at.fetch) else 0
    case Committing(part) => if part.CommitRead? && |part.buf| <= part.size then part.size - |part.buf| else 0
    case Watching(_, loop) =>
      (match loop
       case Select => 10
       case Refetch(f) => 13 + 2 * conns + ToCopy(disk, f)
       case SweepStart(_) => 12 + 2 * conns
       case Sweep(_, cs) => 11 + 2 * |cs|
       case SweepStore(_, cs, _, _) => 12 + 2 * |cs|)
    case Exiting(_, exit) =>
      (match exit
       case ExitStart => 9
       case ExitUnsub => 8
       case ExitClose => 7
       case ExitConns => 6
       case ExitDrain => 5
       case ExitSelf(_) => 4
       case ExitDb => 3
       case ExitDelete => 2
       case Exited => 0)
    case _ => 0
  }

  /** The registered Conns of the db a watcher looks after. */
  function Load(s: State, pc: Pc): nat {
    if pc.Watching? && pc.d < |s.dbs| then |s.dbs[pc.d].pool.conns| else 0
  }

  function Sum(xs: seq<nat>): nat {
    if xs == [] then 0 else Sum(xs[..|xs| - 1]) + xs[|xs| - 1]
  }

  function Stages(s: State): seq<nat> {
    seq(|s.threads|, i requires 0 <= i < |s.threads| => Stage(s.threads[i]))
  }

  function Debts(s: State): seq<nat> {
    seq(|s.threads|, i requires 0 <= i < |s.threads| => Debt(s.threads[i]))
  }

  function Works(s: State): seq<nat> {
    seq(|s.threads|, i requires 0 <= i < |s.threads| => Work(s.disk, Load(s, s.threads[i]), s.threads[i]))
  }

  /** The work left, compared lexicographically. */
  ghost predicate Decreases(s: State, s': State) {
    || Sum(Stages(s')) < Sum(Stages(s))
    || (Sum(Stages(s')) == Sum(Stages(s)) && Sum(Debts(s')) < Sum(Debts(s)))
    || (Sum(Stages(s')) == Sum(Stages(s)) && Sum(Debts(s')) == Sum(Debts(s)) && Sum(Works(s')) < Sum(Works(s)))
  }

  /** Lowering one entry lowers the sum; new entries of zero do not matter. */
  lemma {:induction false} SumFalls(xs: seq<nat>, ys: seq<nat>, t: nat)
    requires t < |xs| <= |ys| && ys[t] < xs[t]
    requires forall i :: 0 <= i < |ys| && i != t ==> ys[i] == if i < |xs| then xs[i] else 0
    ensures Sum(ys) < Sum(xs)
    decreases |ys|
  {
    if |ys| > |xs| {
      SumFalls(xs, ys[..|ys| - 1], t);
    } else if t == |xs| - 1 {
      assert ys[..t] == xs[..t];
    } else {
      SumFalls(xs[..|xs| - 1], ys[..|ys| - 1], t);
    }
  }

  // ------------------------------------------------------ each step makes less

  /** Every thread but t, and a watcher being sent to, has the same stage. */
  lemma StageFalls(s: State, s': State, t: Tid)
    requires t < |s.threads| <= |s'.threads| && Stage(s'.threads[t]) < Stage(s.threads[t])
    requires forall u :: 0 <= u < |s'.threads| && u != t ==>
      Stage(s'.threads[u]) == if u < |s.threads| then Stage(s.threads[u]) else 0
    ensures Decreases(s, s')
  {
    SumFalls(Stages(s), Stages(s'), t);
  }

  lemma DebtFalls(s: State, s': State, t: Tid)
    requires t < |s.threads| == |s'.threads| && Debt(s'.threads[t]) < Debt(s.threads[t])
    requires forall u :: 0 <= u < |s'.threads| ==> Stage(s'.threads[u]) == Stage(s.threads[u])
    requires forall u :: 0 <= u < |s'.threads| && u != t ==> Debt(s'.threads[u]) == Debt(s.threads[u])
    ensures Decreases(s, s')
  {
    assert Stages(s') == Stages(s);
    SumFalls(Debts(s), Debts(s'), t);
  }

  lemma WorkFalls(s: State, s': State, t: Tid)
    requires t < |s.threads| == |s'.threads|
    requires forall u :: 0 <= u < |s'.threads| && u != t ==>
      s'.threads[u] == s.threads[u]
      && Work(s'.disk, Load(s', s'.threads[u]), s'.threads[u]) == Work(s.disk, Load(s, s.threads[u]), s.threads[u])
    requires Stage(s'.threads[t]) == Stage(s.threads[t]) && Debt(s'.threads[t]) == Debt(s.threads[t])
    requires Work(s'.disk, Load(s', s'.threads[t]), s'.threads[t]) < Work(s.disk, Load(s, s.threads[t]), s.threads[t])
    ensures Decreases(s, s')
  {
    assert Stages(s') == Stages(s) && Debts(s') == Debts(s);
    SumFalls(Works(s), Works(s'), t);
  }

  lemma FetchCopies(disk: Disk, t: Tid, name: string, f: Fetch, ch: Choice, disk': Disk, p: Progress)
    requires TmpOk(disk, t, f) && FetchStep(disk, t, name, f, ch) == Some((disk', p)) && p.Running?
    ensures ToCopy(disk', p.fetch) < ToCopy(disk, f)
  {
  }

  /** A fetch step of t leaves the work of every other thread as it was. */
  lemma FetchLeavesWork(disk: Disk, t: Tid, name: string, f: Fetch, ch: Choice, disk': Disk, p: Progress, u: Tid,
          conns: nat, pc: Pc)
    requires TmpOk(disk, t, f) && FetchStep(disk, t, name, f, ch) == Some((disk', p)) && u != t && DiskPcOk(disk, u, pc)
    ensures Work(disk', conns, pc) == Work(disk, conns, pc)
  {
    FetchEffect(disk, t, name, f, ch, disk', p);
    hide FetchStep;
  }

  lemma OpenFetchEnds(s: State, t: Tid, name: string, seen: nat, f: Fetch, ch: Choice, s': State)
    requires t < |s.threads| && s.threads[t] == Opening(OpenFetch(name, seen, f))
    requires forall u :: 0 <= u < |s.threads| ==> DiskPcOk(s.disk, u, s.threads[u])
    requires OpenFetching(s, t, name, seen, f, ch) == Some(s')
    ensures Decreases(s, s')
  {
    assert DiskPcOk(s.disk, t, s.threads[t]);
    var (disk, p) := FetchStep(s.disk, t, name, f, ch).value;
    if p.Running? {
      FetchCopies(s.disk, t, name, f, ch, disk, p);
      hide FetchStep, TmpOk, ToCopy;
      forall u | 0 <= u < |s.threads| && u != t
        ensures Work(disk, Load(s, s.threads[u]), s.threads[u]) == Work(s.disk, Load(s, s.threads[u]), s.threads[u])
      {
        FetchLeavesWork(s.disk, t, name, f, ch, disk, p, u, Load(s, s.threads[u]), s.threads[u]);
      }
      hide DiskPcOk, Decreases;
      WorkFalls(s, s', t);
    } else {
      hide FetchStep, Decreases;
      StageFalls(s, s', t);
    }
  }

  lemma RefetchEnds(s: State, t: Tid, d: DbId, f: Fetch, ch: Choice, s': State)
    requires t < |s.threads| && d < |s.dbs| && s.threads[t] == Watching(d, Refetch(f))
    requires forall u :: 0 <= u < |s.threads| ==> DiskPcOk(s.disk, u, s.threads[u])
    requires Refetching(s, t, d, f, ch) == Some(s')
    ensures Decreases(s, s')
  {
    assert DiskPcOk(s.disk, t, s.threads[t]);
    var (disk, p) := FetchStep(s.disk, t, s.dbs[d].name, f, ch).value;
    if p.Running? { FetchCopies(s.disk, t, s.dbs[d].name, f, ch, disk, p); }
    hide FetchStep, TmpOk, ToCopy;
    forall u | 0 <= u < |s.threads| && u != t
      ensures Work(disk, Load(s, s.threads[u]), s.threads[u]) == Work(s.disk, Load(s, s.threads[u]), s.threads[u])
    {
      FetchLeavesWork(s.disk, t, s.dbs[d].name, f, ch, disk, p, u, Load(s, s.threads[u]), s.threads[u]);
    }
    hide DiskPcOk, Decreases;
    WorkFalls(s, s', t);
  }

  lemma OpenEnds(w: World, s: State, t: Tid, at: OpenPc, ch: Choice, s': State)
    requires t < |s.threads| && s.threads[t] == Opening(at)
    requires forall u :: 0 <= u < |s.threads| ==> DiskPcOk(s.disk, u, s.threads[u])
    requires OpenStep(w, s, t, at, ch) == Some(s')
    ensures Decreases(s, s')
  {
    hide OpenFetching, DiskPcOk, Decreases;
    if at.OpenFetch? {
      OpenFetchEnds(s, t, at.name, at.seen, at.fetch, ch, s');
    } else {
      StageFalls(s, s', t);
    }
  }

  lemma SetEnds(w: World, s: State, t: Tid, phase: SetPc, ch: Choice, s': State)
    requires t < |s.threads| && s.threads[t] == Setting(phase) && SetStep(w, s, t, phase, ch) == Some(s')
    ensures Decreases(s, s')
  {
    hide Decreases, SetSent, SetChecked;
    match phase
    case SetSend(addr, hash, d, todo) => SendEnds(s, t, addr, hash, d, todo, s');
    case SetNext(_, _, todo) =>
      if ch.Take? {
        assert |todo - {ch.n}| == |todo| - 1;
        DebtFalls(s, s', t);
      } else {
        StageFalls(s, s', t);
      }
    case SetCheck(hash, sig) => CheckEnds(w, s, t, hash, sig, s');
    case SetStart(_, _) => StageFalls(s, s', t);
  }

  lemma SendEnds(s: State, t: Tid, addr: Address, hash: Hash, d: DbId, todo: set<DbId>, s': State)
    requires t < |s.threads| && s.threads[t] == Setting(SetSend(addr, hash, d, todo))
    requires SetSent(s, t, addr, hash, d, todo) == Some(s')
    ensures Decreases(s, s')
  {
    hide Decreases;
    DebtFalls(s, s', t);
  }

  lemma CheckEnds(w: World, s: State, t: Tid, hash: Hash, sig: Bytes, s': State)
    requires t < |s.threads| && s.threads[t] == Setting(SetCheck(hash, sig)) && SetChecked(w, s, t, hash, sig) == s'
    ensures Decreases(s, s')
  {
    hide Decreases;
    StageFalls(s, s', t);
  }

  lemma CloseEnds(s: State, t: Tid, c: ConnId, stage: ClosePc, ch: Choice, s': State)
    requires t < |s.threads| && s.threads[t] == Closing(c, stage) && CloseStep(s, t, c, stage, ch) == Some(s')
    ensures Decreases(s, s')
  {
    hide Decreases;
    StageFalls(s, s', t);
  }

  lemma CommitEnds(w: World, s: State, t: Tid, part: CommitPc, ch: Choice, s': State)
    requires t < |s.threads| && s.threads[t] == Committing(part) && CommitStep(w, s, t, part, ch) == Some(s')
    ensures Decreases(s, s')
  {
    hide Decreases;
    if part.CommitRead? && ch.Take? {
      WorkFalls(s, s', t);
    } else {
      StageFalls(s, s', t);
    }
  }

  lemma WatchEnds(s: State, t: Tid, d: DbId, loop: WatchPc, ch: Choice, s': State)
    requires t < |s.threads| && d < |s.dbs| && s.threads[t] == Watching(d, loop)
    requires forall u :: 0 <= u < |s.threads| ==> DiskPcOk(s.disk, u, s.threads[u])
    requires WatchStep(s, t, d, loop, ch) == Some(s')
    ensures Decreases(s, s')
  {
    hide Refetching, DiskPcOk, Decreases;
    match loop
    case Refetch(f) => RefetchEnds(s, t, d, f, ch, s');
    case Sweep(_, _) => SweepEnds(s, t, d, loop, ch, s');
    case _ => WorkFalls(s, s', t);
  }

  lemma SweepEnds(s: State, t: Tid, d: DbId, loop: WatchPc, ch: Choice, s': State)
    requires t < |s.threads| && d < |s.dbs| && s.threads[t] == Watching(d, loop) && loop.Sweep?
    requires WatchStep(s, t, d, loop, ch) == Some(s')
    ensures Decreases(s, s')
  {
    hide Refetching, SweepBegun, SweepStored, Decreases, DiskPcOk;
    if ch.Take? { assert |loop.conns - {ch.n}| == |loop.conns| - 1; }
    WorkFalls(s, s', t);
  }

  lemma ExitEnds(s: State, t: Tid, d: DbId, exit: ExitPc, ch: Choice, s': State)
    requires t < |s.threads| && d < |s.dbs| && s.threads[t] == Exiting(d, exit) && !exit.ExitSelf?
    requires ExitStep(s, t, d, exit, ch) == Some(s')
    ensures Decreases(s, s')
  {
    hide Decreases;
    WorkFalls(s, s', t);
  }

  /** Every step of every thread leaves less to do. */
  lemma StepsDecrease(w: World, s: State, t: Tid, ch: Choice, s': State)
    requires Inv(w, s) && Next(w, s, Run(t, ch)) == Some(s')
    ensures Decreases(s, s')
  {
    hide OpenStep, SetStep, CommitStep, WatchStep, CloseStep, ExitStep, Decreases, DiskPcOk;
    match s.threads[t]
    case Opening(at) => OpenEnds(w, s, t, at, ch, s');
    case Closing(c, stage) => CloseEnds(s, t, c, stage, ch, s');
    case Setting(phase) => SetEnds(w, s, t, phase, ch, s');
    case Committing(part) => CommitEnds(w, s, t, part, ch, s');
    case Watching(d, loop) => WatchEnds(s, t, d, loop, ch, s');
    case Exiting(d, exit) =>
      if exit.ExitSelf? {
        SelfLockBlocks(s, t, d, exit.c, ch);
      } else {
        ExitEnds(s, t, d, exit, ch, s');
      }
  }

  // ----------------------------------------------------------------- results

  ghost predicate Steps(w: World, s: State, s': State) {
    exists t, ch :: Next(w, s, Run(t, ch)) == Some(s')
  }

  /** There is no infinite run of steps that begins no new operation. */
  lemma {:induction false} NoEndlessRun(w: World, f: nat -> State, i: nat)
    requires w.Ideal() && Inv(w, f(i))
    ensures exists j: nat :: i <= j && !Steps(w, f(j), f(j + 1))
    decreases Sum(Stages(f(i))), Sum(Debts(f(i))), Sum(Works(f(i)))
  {
    hide Next, Inv;
    if Steps(w, f(i), f(i + 1)) {
      var t, ch :| Next(w, f(i), Run(t, ch)) == Some(f(i + 1));
      InvNext(w, f(i), Run(t, ch), f(i + 1));
      StepsDecrease(w, f(i), t, ch, f(i + 1));
      NoEndlessRun(w, f, i + 1);
    }
  }

  ghost predicate AtRest(s: State) {
    forall t :: 0 <= t < |s.threads| ==> !Busy(s.threads[t])
  }

  /** The hash a thread is fetching or publishing. */
  function HashOf(pc: Pc): Hash {
    match pc
    case Opening(at) => if at.OpenFetch? then at.fetch.hash else EMPTY_HASH
    case Setting(phase) => phase.hash
    case Watching(_, loop) => if loop.Refetch? then loop.fetch.hash else EMPTY_HASH
    case _ => EMPTY_HASH
  }

  /** No watcher has failed, and the store can deliver every hash in play. */
  ghost predicate Healthy(s: State) {
    && !s.crashed
    && (forall d :: 0 <= d < |s.dbs| ==> !s.dbs[d].pool.dropped && !s.dbs[d].closed)
    && (forall t :: 0 <= t < |s.threads| ==> !s.threads[t].Exiting? && s.disk.Available(HashOf(s.threads[t])))
    && (forall a :: s.disk.Available(HashAt(s.ledger.hashes, a)))
  }

  /** The step of a thread that does not fail needlessly. */
  ghost predicate GentleStep(w: World, s: State, s': State) {
    exists t: Tid, ch :: t < |s.threads| && Gentle(s.disk, s.threads[t], ch) && Next(w, s, Run(t, ch)) == Some(s')
  }

  lemma HealthyAfter(s: State, s': State, t: Tid)
    requires Healthy(s) && t < |s.threads| && !s'.crashed
    requires forall h :: s.disk.Available(h) ==> s'.disk.Available(h)
    requires forall d :: 0 <= d < |s'.dbs| ==>
      (!s'.dbs[d].pool.dropped && !s'.dbs[d].closed)
      || (d < |s.dbs| && s'.dbs[d].pool.dropped == s.dbs[d].pool.dropped && s'.dbs[d].closed == s.dbs[d].closed)
    requires forall u :: 0 <= u < |s'.threads| ==>
      (u < |s.threads| && s'.threads[u] == s.threads[u])
      || (!s'.threads[u].Exiting? && s.disk.Available(HashOf(s'.threads[u])))
    requires s'.ledger.hashes == s.ledger.hashes
    ensures Healthy(s')
  {
  }

  lemma FetchKeepsAvailable(disk: Disk, t: Tid, name: string, f: Fetch, ch: Choice)
    ensures var r := FetchStep(disk, t, name, f, ch);
      r.Some? ==> r.value.0.store == disk.store && (r.value.1.Running? ==> r.value.1.fetch.hash == f.hash)
                  && (r.value.1.Failed? ==> ch.Fail?)
  {
  }

  lemma HealthyOpen(w: World, s: State, t: Tid, at: OpenPc, ch: Choice, s': State)
    requires Healthy(s) && t < |s.threads| && s.threads[t] == Opening(at) && Gentle(s.disk, s.threads[t], ch)
    requires !at.OpenFetch? && OpenStep(w, s, t, at, ch) == Some(s')
    ensures Healthy(s')
  {
    hide OpenFetching;
    HealthyAfter(s, s', t);
  }

  lemma HealthyFetch(w: World, s: State, t: Tid, ch: Choice, s': State)
    requires Healthy(s) && t < |s.threads| && Gentle(s.disk, s.threads[t], ch) && Step(w, s, t, ch) == Some(s')
    requires (s.threads[t].Opening? && s.threads[t].at.OpenFetch?)
      || (s.threads[t].Watching? && s.threads[t].loop.Refetch?)
    ensures Healthy(s')
  {
    hide FetchStep;
    assert s.disk.Available(HashOf(s.threads[t]));
    match s.threads[t]
    case Opening(at) =>
      FetchKeepsAvailable(s.disk, t, at.name, at.fetch, ch);
      HealthyAfter(s, s', t);
    case Watching(d, loop) =>
      FetchKeepsAvailable(s.disk, t, s.dbs[d].name, loop.fetch, ch);
      HealthyAfter(s, s', t);
  }

  lemma HealthySet(w: World, s: State, t: Tid, phase: SetPc, ch: Choice, s': State)
    requires Healthy(s) && t < |s.threads| && s.threads[t] == Setting(phase) && SetStep(w, s, t, phase, ch) == Some(s')
    ensures Healthy(s')
  {
    assert s.disk.Available(HashOf(s.threads[t]));
    if phase.SetCheck? && w.signer(phase.hash, phase.sig).Some? {
      forall a ensures s'.disk.Available(HashAt(s'.ledger.hashes, a)) {
        assert s.disk.Available(HashAt(s.ledger.hashes, a));
      }
    } else {
      HealthyAfter(s, s', t);
    }
  }

  lemma HealthyWatch(s: State, t: Tid, d: DbId, loop: WatchPc, ch: Choice, s': State)
    requires Healthy(s) && t < |s.threads| && d < |s.dbs| && s.threads[t] == Watching(d, loop)
    requires !loop.Refetch? && Gentle(s.disk, s.threads[t], ch) && WatchStep(s, t, d, loop, ch) == Some(s')
    ensures Healthy(s')
  {
    hide Refetching;
    HealthyAfter(s, s', t);
  }

  lemma HealthyStep(w: World, s: State, t: Tid, ch: Choice, s': State)
    requires Healthy(s) && t < |s.threads| && Gentle(s.disk, s.threads[t], ch) && Step(w, s, t, ch) == Some(s')
    ensures Healthy(s')
  {
    hide Healthy, OpenStep, SetStep, WatchStep, ExitStep, CloseStep, CommitStep;
    match s.threads[t]
    case Opening(at) =>
      if at.OpenFetch? {
        HealthyFetch(w, s, t, ch, s');
      } else {
        HealthyOpen(w, s, t, at, ch, s');
      }
    case Watching(d, loop) =>
      if loop.Refetch? {
        HealthyFetch(w, s, t, ch, s');
      } else {
        HealthyWatch(s, t, d, loop, ch, s');
      }
    case Setting(phase) => HealthySet(w, s, t, phase, ch, s');
    case Exiting(_, _) => NoExits(s, t);
    case Closing(c, stage) => HealthyClose(s, t, c, stage, ch, s');
    case Committing(part) => HealthyCommit(w, s, t, part, ch, s');
  }

  lemma HealthyClose(s: State, t: Tid, c: ConnId, stage: ClosePc, ch: Choice, s': State)
    requires Healthy(s) && t < |s.threads| && s.threads[t] == Closing(c, stage)
    requires CloseStep(s, t, c, stage, ch) == Some(s')
    ensures Healthy(s')
  {
    NoExits(s, t);
    hide Healthy;
    HealthyAfter(s, s', t);
  }

  lemma HealthyCommit(w: World, s: State, t: Tid, part: CommitPc, ch: Choice, s': State)
    requires Healthy(s) && t < |s.threads| && s.threads[t] == Committing(part)
    requires CommitStep(w, s, t, part, ch) == Some(s')
    ensures Healthy(s')
  {
    NoExits(s, t);
    hide Healthy;
    HealthyAfter(s, s', t);
  }

  lemma NoExits(s: State, t: Tid)
    requires Healthy(s) && t < |s.threads|
    ensures !s.threads[t].Exiting? && !s.crashed
  {
  }

  lemma NextIsStep(w: World, s: State, t: Tid, ch: Choice)
    requires t < |s.threads| && !s.crashed
    ensures Next(w, s, Run(t, ch)) == Step(w, s, t, ch)
  {
  }

  /** From a healthy state, needing nobody to begin anything, the threads' own
      steps lead without a failed open or refresh to a state where every call has
      returned and every watcher is back at its select. */
  lemma {:induction false} EveryOperationEnds(w: World, s: State) returns (run: seq<State>)
    requires w.Ideal() && Inv(w, s) && Healthy(s)
    ensures |run| > 0 && run[0] == s
    ensures forall i :: 0 <= i < |run| - 1 ==> GentleStep(w, run[i], run[i + 1])
    ensures Inv(w, run[|run| - 1]) && Healthy(run[|run| - 1]) && AtRest(run[|run| - 1])
    decreases Sum(Stages(s)), Sum(Debts(s)), Sum(Works(s))
  {
    hide Next, Inv, Gentle, Step;
    if AtRest(s) {
      run := [s];
    } else {
      var b :| 0 <= b < |s.threads| && Busy(s.threads[b]);
      DeadlockFree(w, s, b);
      var t: Tid :| CanStep(w, s, t);
      var ch: Choice :| Step(w, s, t, ch).Some? && Gentle(s.disk, s.threads[t], ch);
      var s' := Step(w, s, t, ch).value;
      NextIsStep(w, s, t, ch);
      HealthyStep(w, s, t, ch, s');
      InvNext(w, s, Run(t, ch), s');
      StepsDecrease(w, s, t, ch, s');
      var rest := EveryOperationEnds(w, s');
      run := [s] + rest;
      forall i | 0 <= i < |run| - 1 ensures GentleStep(w, run[i], run[i + 1]) {
        if i > 0 { assert run[i] == rest[i - 1] && run[i + 1] == rest[i]; }
      }
    }
  }

  /** A run of steps that do not fail needlessly, nobody beginning anything. */
  ghost predicate GentleRun(w: World, run: seq<State>) {
    |run| > 0 && forall i :: 0 <= i < |run| - 1 ==> GentleStep(w, run[i], run[i + 1])
  }

  lemma {:induction false} GentleRunsStayHealthy(w: World, run: seq<State>, k: nat)
    requires w.Ideal() && GentleRun(w, run) && Inv(w, run[0]) && Healthy(run[0]) && k < |run|
    ensures Inv(w, run[k]) && Healthy(run[k])
  {
    hide Next, Inv, Gentle, Step;
    if k > 0 {
      GentleRunsStayHealthy(w, run, k - 1);
      var s, s' := run[k - 1], run[k];
      assert GentleStep(w, s, s');
      var t: Tid, ch :| t < |s.threads| && Gentle(s.disk, s.threads[t], ch) && Next(w, s, Run(t, ch)) == Some(s');
      NextIsStep(w, s, t, ch);
      HealthyStep(w, s, t, ch, s');
      InvNext(w, s, Run(t, ch), s');
    }
  }

  /** Some thread can step without failing needlessly. */
  ghost predicate CanGoOn(w: World, s: State) {
    exists s' :: GentleStep(w, s, s')
  }

  lemma RestIsEnd(w: World, s: State, s': State)
    requires Healthy(s) && AtRest(s)
    ensures !GentleStep(w, s, s')
  {
    forall t: Tid, ch: Choice | t < |s.threads| ensures Next(w, s, Run(t, ch)) == None {
      assert !Busy(s.threads[t]);
      hide OpenStep, CloseStep, SetStep, CommitStep, ExitStep, Refetching, SweepBegun, SweepStored;
    }
  }

  /** Whatever the schedule, a run from a healthy state that nobody begins
      anything in and nothing fails needlessly in can be extended exactly while
      some call or refresh is in progress. By NoEndlessRun it cannot be extended
      for ever, so every such run ends with every call returned and every watcher
      back at its select. */
  lemma EveryRunEndsAtRest(w: World, run: seq<State>)
    requires w.Ideal() && GentleRun(w, run) && Inv(w, run[0]) && Healthy(run[0])
    ensures CanGoOn(w, run[|run| - 1]) <==> !AtRest(run[|run| - 1])
  {
    var s := run[|run| - 1];
    GentleRunsStayHealthy(w, run, |run| - 1);
    hide Inv, Next, Gentle, Step, Healthy;
    if AtRest(s) {
      forall s' ensures !GentleStep(w, s, s') { RestIsEnd(w, s, s'); }
    } else {
      var more := EveryOperationEnds(w, s);
      if |more| > 1 { assert GentleStep(w, s, more[1]); }
    }
  }

  /** Where every such run ends: a database whose address had a hash accepted
      since it subscribed shows, at its path, the file fetched for the hash the
      registry has. */
  lemma EveryRunEndsCurrent(w: World, run: seq<State>, d: DbId)
    requires w.Ideal() && GentleRun(w, run) && Inv(w, run[0]) && Healthy(run[0])
    requires var s := run[|run| - 1];
      && !CanGoOn(w, s) && d < |s.dbs| && |s.ledger.History(s.dbs[d].feed.addr)| > s.dbs[d].feed.since
    ensures var s := run[|run| - 1];
      && Shown(s.disk, s.dbs[d].name).Some?
      && var file, hash := Shown(s.disk, s.dbs[d].name).value, HashAt(s.ledger.hashes, s.dbs[d].feed.addr);
         && s.disk.Available(hash) && file.linked && file.origin == hash
         && (file.version == 0 ==> file.content == s.disk.Source(hash))
  {
    var s := run[|run| - 1];
    EveryRunEndsAtRest(w, run);
    GentleRunsStayHealthy(w, run, |run| - 1);
    RestLoops(w, s, d);
    hide Bounded, Locked, Watched, Delivered, Stable, Mirrored, Accounted, Fresh;
    QuiescentAgreement(w, s, d);
    QuiescentFile(w, s, d);
  }

  /** At rest without failures, every watcher is at its select and nothing is
      being sent. */
  lemma RestLoops(w: World, s: State, d: DbId)
    requires Inv(w, s) && Healthy(s) && AtRest(s) && d < |s.dbs|
    ensures Looping(s, d) && InHand(s, d) == [] && Sending(s, d) == []
  {
    NobodyHolds(s);
    assert Tended(s, d);
    var t := s.dbs[d].watcher.value;
    assert !Busy(s.threads[t]) && !s.threads[t].Exiting?;
  }

  lemma HoldersBusy(pc: Pc)
    ensures HoldsDbMtx(pc) || HoldsRegMtx(pc) ==> Busy(pc)
  {
  }

  lemma NobodyHolds(s: State)
    requires Locked(s) && AtRest(s)
    ensures s.dbMtx.None? && s.regMtx.None?
  {
    forall t | 0 <= t < |s.threads| ensures !HoldsDbMtx(s.threads[t]) && !HoldsRegMtx(s.threads[t]) {
      HoldersBusy(s.threads[t]);
    }
  }
}
