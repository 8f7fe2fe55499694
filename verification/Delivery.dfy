/**
 What the registry promises its subscribers: every accepted hash reaches every
 live watcher once, in order.
 */
module Delivery {
  import opened Values
  import opened Refresh
  import opened Bounds
  import opened Locks
  import opened Watchers

  /** What a thread means to the delivery of hashes: a publisher with the
      subscriptions it still owes a send, a watcher with the hash it is working
      on, or a watcher that has left its loop. */
  datatype Mail =
    | Quiet
    | Publishing(addr: Address, hash: Hash, owed: set<DbId>)
    | Working(d: DbId, on: seq<Hash>)
    | Leaving(d: DbId, subscribed: bool)

  function MailOf(pc: Pc): Mail {
    match pc
    case Setting(phase) =>
      (match phase
       case SetNext(addr, hash, todo) => Publishing(addr, hash, todo)
       case SetSend(addr, hash, d, todo) => Publishing(addr, hash, todo + {d})
       case _ => Quiet)
    case Watching(d, loop) =>
      Working(d, match loop
                 case Select => []
                 case Refetch(f) => [f.hash]
                 case SweepStart(hash) => [hash]
                 case Sweep(hash, _) => [hash]
                 case SweepStore(hash, _, _, _) => [hash])
    case Exiting(d, exit) => Leaving(d, exit.ExitStart? || exit.ExitUnsub?)
    case _ => Quiet
  }

  /** The hash a publisher still has to send to db d, if any. */
  function Sending(s: State, d: DbId): seq<Hash> {
    if s.regMtx.Some? && s.regMtx.value < |s.threads| then
      var m := MailOf(s.threads[s.regMtx.value]);
      if m.Publishing? && d in m.owed then [m.hash] else []
    else []
  }

  /** The hashes accepted for the address of db d since it subscribed. */
  function Accepted(s: State, d: DbId): seq<Hash>
    requires d < |s.dbs| && s.dbs[d].feed.since <= |s.ledger.History(s.dbs[d].feed.addr)|
  {
    s.ledger.History(s.dbs[d].feed.addr)[s.dbs[d].feed.since..]
  }

  function LastOr(hashes: seq<Hash>): Hash {
    if hashes == [] then EMPTY_HASH else hashes[|hashes| - 1]
  }

  ghost predicate FeedOk(s: State, d: DbId)
    requires d < |s.dbs|
  {
    var f := s.dbs[d].feed;
    && f.seen <= f.since <= |s.ledger.History(f.addr)|
    && f.readHash == LastOr(s.ledger.History(f.addr)[..f.seen])
    && match s.dbs[d].watcher
       case None => d in s.ledger.subs && f.applied == [] && Accepted(s, d) == Sending(s, d)
       case Some(t) =>
         t < |s.threads| &&
         match MailOf(s.threads[t])
         case Working(e, on) => e == d && d in s.ledger.subs && Accepted(s, d) == f.applied + on + Sending(s, d)
         case Leaving(e, subscribed) => e == d && (d in s.ledger.subs <==> subscribed)
         case _ => false
  }

  ghost predicate PublisherOk(s: State, m: Mail) {
    m.Publishing? ==>
      && s.ledger.History(m.addr) != [] && LastOr(s.ledger.History(m.addr)) == m.hash
      && forall d :: d in m.owed ==> d in s.ledger.subs && d < |s.dbs| && s.dbs[d].feed.addr == m.addr
  }

  predicate ReadAt(w: World, s: State, name: string, seen: nat, hash: Hash) {
    var h := s.ledger.History(w.addressOf(name));
    seen <= |h| && hash == LastOr(h[..seen])
  }

  /** An opener that has read a hash remembers where in the history it was, and
      a publisher no longer owes the send it is busy with. */
  predicate PcOk(w: World, s: State, pc: Pc) {
    match pc
    case Opening(at) =>
      (match at
       case OpenFetch(name, seen, f) => ReadAt(w, s, name, seen, f.hash)
       case OpenSubscribe(name, seen, hash) => ReadAt(w, s, name, seen, hash)
       case OpenAttach(name, seen, hash) => ReadAt(w, s, name, seen, hash)
       case _ => true)
    case Setting(phase) => phase.SetSend? ==> phase.d !in phase.todo
    case _ => true
  }

  ghost predicate LedgerOk(ledger: Ledger) {
    forall a :: HashAt(ledger.hashes, a) == LastOr(ledger.History(a))
  }

  ghost predicate Delivered(w: World, s: State) {
    && LedgerOk(s.ledger)
    && (forall d :: 0 <= d < |s.dbs| ==> FeedOk(s, d))
    && (forall t :: 0 <= t < |s.threads| ==> PublisherOk(s, MailOf(s.threads[t])) && PcOk(w, s, s.threads[t]))
  }

  // ------------------------------------------------------------ preservation

  /** A thread keeps its part, a publisher that owes nothing returns, or a
      watcher leaves its loop. */
  predicate MailStays(m: Mail, m': Mail) {
    || m' == m
    || (m.Publishing? && m.owed == {} && m'.Quiet?)
    || (m.Working? && m' == Leaving(m.d, true))
  }

  ghost predicate SameMail(s: State, s': State) {
    && |s.threads| <= |s'.threads| && s'.ledger == s.ledger && |s'.dbs| == |s.dbs|
    && (forall d :: 0 <= d < |s.dbs| ==> s'.dbs[d].feed == s.dbs[d].feed && s'.dbs[d].watcher == s.dbs[d].watcher)
    && (forall u :: 0 <= u < |s'.threads| ==>
          MailStays(if u < |s.threads| then MailOf(s.threads[u]) else Quiet, MailOf(s'.threads[u])))
    && (forall d :: 0 <= d < |s.dbs| ==> Sending(s', d) == Sending(s, d))
  }

  lemma DeliveredAfter(w: World, s: State, s': State)
    requires Delivered(w, s) && SameMail(s, s')
    requires forall u :: 0 <= u < |s'.threads| ==>
      PcOk(w, s', s'.threads[u]) || (u < |s.threads| && s'.threads[u] == s.threads[u])
    ensures Delivered(w, s')
  {
    forall d | 0 <= d < |s'.dbs| ensures FeedOk(s', d) { assert FeedOk(s, d); }
    forall u | 0 <= u < |s'.threads|
      ensures PublisherOk(s', MailOf(s'.threads[u])) && PcOk(w, s', s'.threads[u])
    {
      if u < |s.threads| { assert PublisherOk(s, MailOf(s.threads[u])) && PcOk(w, s, s.threads[u]); }
    }
  }

  lemma DeliveredOpenRead(w: World, s: State, t: Tid, name: string, s': State)
    requires Delivered(w, s) && Locked(s) && t < |s.threads| && s.threads[t] == Opening(OpenRead(name))
    requires OpenHash(w, s, t, name) == s'
    ensures Delivered(w, s')
  {
    var h := s.ledger.History(w.addressOf(name));
    assert h[..|h|] == h;
    assert s.regMtx == Some(t);
    DeliveredAfter(w, s, s');
  }

  lemma DeliveredOpenAttach(w: World, s: State, t: Tid, name: string, seen: nat, hash: Hash, s': State)
    requires Delivered(w, s) && Locked(s) && Bounded(s)
    requires t < |s.threads| && s.threads[t] == Opening(OpenAttach(name, seen, hash))
    requires OpenAttached(w, s, t, name, seen, hash) == s'
    ensures Delivered(w, s')
  {
    assert s.regMtx == Some(t) && PcOk(w, s, s.threads[t]);
    forall d | 0 <= d < |s'.dbs| ensures FeedOk(s', d) {
      if d < |s.dbs| { assert FeedOk(s, d); }
    }
    forall u | 0 <= u < |s'.threads|
      ensures PublisherOk(s', MailOf(s'.threads[u])) && PcOk(w, s', s'.threads[u])
    {
      assert PublisherOk(s, MailOf(s.threads[u])) && PcOk(w, s, s.threads[u]);
    }
  }

  lemma DeliveredOpenSpawn(w: World, s: State, t: Tid, d: DbId, s': State)
    requires Delivered(w, s) && Locked(s) && Bounded(s) && Watched(s)
    requires t < |s.threads| && s.threads[t] == Opening(OpenSpawn(d))
    requires OpenSpawned(s, t, d) == Some(s')
    ensures Delivered(w, s')
  {
    assert PartOk(s, t);
    forall e | 0 <= e < |s'.dbs| ensures FeedOk(s', e) {
      assert FeedOk(s, e) && Sending(s', e) == Sending(s, e);
    }
    forall u | 0 <= u < |s'.threads|
      ensures PublisherOk(s', MailOf(s'.threads[u])) && PcOk(w, s', s'.threads[u])
    {
      if u < |s.threads| { assert PublisherOk(s, MailOf(s.threads[u])) && PcOk(w, s, s.threads[u]); }
    }
  }

  lemma FetchKeepsHash(disk: Disk, t: Tid, name: string, f: Fetch, ch: Choice)
    ensures var r := FetchStep(disk, t, name, f, ch);
      r.Some? && r.value.1.Running? ==> r.value.1.fetch.hash == f.hash
  {
  }

  /** A thread that holds no registry mutex moves, whatever happens on disk. */
  lemma DeliveredGoto(w: World, s: State, t: Tid, disk: Disk, pc: Pc)
    requires Delivered(w, s) && t < |s.threads| && !s.threads[t].Setting? && !pc.Setting?
    requires MailStays(MailOf(s.threads[t]), MailOf(pc)) && PcOk(w, s, pc)
    ensures Delivered(w, s.(disk := disk).Goto(t, pc))
  {
    hide FeedOk, LedgerOk;
    DeliveredAfter(w, s, s.(disk := disk).Goto(t, pc));
  }

  lemma DeliveredOpenFetch(w: World, s: State, t: Tid, name: string, seen: nat, f: Fetch, ch: Choice, s': State)
    requires Delivered(w, s) && t < |s.threads| && s.threads[t] == Opening(OpenFetch(name, seen, f))
    requires OpenFetching(s, t, name, seen, f, ch) == Some(s')
    ensures Delivered(w, s')
  {
    hide FetchStep, FeedOk, LedgerOk;
    FetchKeepsHash(s.disk, t, name, f, ch);
    assert PcOk(w, s, s.threads[t]);
    hide Delivered, ReadAt;
    DeliveredGoto(w, s, t, s'.disk, s'.threads[t]);
  }

  lemma DeliveredOpenMove(w: World, s: State, t: Tid, at: OpenPc, ch: Choice, s': State)
    requires Delivered(w, s) && t < |s.threads| && s.threads[t] == Opening(at)
    requires !at.OpenRead? && !at.OpenAttach? && !at.OpenSpawn? && !at.OpenFetch? && !at.OpenAdding?
    requires OpenStep(w, s, t, at, ch) == Some(s')
    ensures Delivered(w, s')
  {
    hide OpenFetching, OpenAdded, OpenAttached, OpenSpawned, OpenHash, FeedOk, LedgerOk, PublisherOk;
    assert PcOk(w, s, s.threads[t]);
    DeliveredAfter(w, s, s');
  }

  lemma DeliveredOpenAdd(w: World, s: State, t: Tid, c: ConnId, ends: bool, s': State)
    requires Delivered(w, s) && t < |s.threads| && s.threads[t] == Opening(OpenAdding(c))
    requires OpenAdded(s, t, c, ends) == Some(s')
    ensures Delivered(w, s')
  {
    hide FeedOk, LedgerOk, PublisherOk;
    DeliveredAfter(w, s, s');
  }

  lemma DeliveredOpen(w: World, s: State, t: Tid, at: OpenPc, ch: Choice, s': State)
    requires Delivered(w, s) && Locked(s) && Bounded(s) && Watched(s) && t < |s.threads| && s.threads[t] == Opening(at)
    requires OpenStep(w, s, t, at, ch) == Some(s')
    ensures Delivered(w, s')
  {
    hide Delivered, Bounded, Watched, Locked, OpenFetching, OpenAdded, OpenSpawned;
    match at
    case OpenRead(name) => DeliveredOpenRead(w, s, t, name, s');
    case OpenAttach(name, seen, hash) => DeliveredOpenAttach(w, s, t, name, seen, hash, s');
    case OpenSpawn(d) => DeliveredOpenSpawn(w, s, t, d, s');
    case OpenFetch(name, seen, f) => DeliveredOpenFetch(w, s, t, name, seen, f, ch, s');
    case OpenAdding(c) => DeliveredOpenAdd(w, s, t, c, ch.Fail?, s');
    case _ => DeliveredOpenMove(w, s, t, at, ch, s');
  }

  /** Recording a publish grows the history of one address at its end. */
  lemma PublishGrowsHistory(l: Ledger, addr: Address, hash: Hash, l': Ledger)
    requires l' == l.(hashes := l.hashes[addr := hash], history := l.history[addr := l.History(addr) + [hash]])
    requires LedgerOk(l)
    ensures LedgerOk(l')
    ensures forall a :: l'.History(a) == if a == addr then l.History(a) + [hash] else l.History(a)
    ensures forall a, n: nat :: n <= |l.History(a)| ==>
      l'.History(a)[..n] == l.History(a)[..n]
      && l'.History(a)[n..] == l.History(a)[n..] + (if a == addr then [hash] else [])
  {
    forall a ensures HashAt(l'.hashes, a) == LastOr(l'.History(a)) {
      assert HashAt(l.hashes, a) == LastOr(l.History(a));
    }
  }

  lemma DeliveredPublish(w: World, s: State, t: Tid, hash: Hash, sig: Bytes, addr: Address, s': State)
    requires Delivered(w, s) && Locked(s) && t < |s.threads| && s.threads[t] == Setting(SetCheck(hash, sig))
    requires w.signer(hash, sig) == Some(addr) && SetChecked(w, s, t, hash, sig) == s'
    ensures Delivered(w, s')
  {
    hide LedgerOk, PoolsHeld;
    assert s.regMtx == Some(t);
    PublishGrowsHistory(s.ledger, addr, hash, s'.ledger);
    forall d | 0 <= d < |s'.dbs| ensures FeedOk(s', d) {
      assert FeedOk(s, d) && Sending(s, d) == [];
      assert Sending(s', d) == if d in s.ledger.subs && s.dbs[d].feed.addr == addr then [hash] else [];
    }
    forall u | 0 <= u < |s'.threads|
      ensures PublisherOk(s', MailOf(s'.threads[u])) && PcOk(w, s', s'.threads[u])
    {
      assert PublisherOk(s, MailOf(s.threads[u])) && PcOk(w, s, s.threads[u]);
      assert HoldsRegMtx(s.threads[u]) <==> u == t;
    }
  }

  lemma DeliveredSetCheck(w: World, s: State, t: Tid, hash: Hash, sig: Bytes, s': State)
    requires Delivered(w, s) && Locked(s) && t < |s.threads| && s.threads[t] == Setting(SetCheck(hash, sig))
    requires SetChecked(w, s, t, hash, sig) == s'
    ensures Delivered(w, s')
  {
    match w.signer(hash, sig)
    case None =>
      assert s.regMtx == Some(t);
      DeliveredAfter(w, s, s');
    case Some(addr) => DeliveredPublish(w, s, t, hash, sig, addr, s');
  }

  lemma DeliveredSetSend(w: World, s: State, t: Tid, addr: Address, hash: Hash, d: DbId, todo: set<DbId>, s': State)
    requires Delivered(w, s) && Locked(s) && Watched(s)
    requires t < |s.threads| && s.threads[t] == Setting(SetSend(addr, hash, d, todo))
    requires SetSent(s, t, addr, hash, d, todo) == Some(s')
    ensures Delivered(w, s')
  {
    assert s.regMtx == Some(t) && PublisherOk(s, MailOf(s.threads[t])) && PcOk(w, s, s.threads[t]);
    var u := s.dbs[d].watcher.value;
    forall e | 0 <= e < |s'.dbs| ensures FeedOk(s', e) {
      assert FeedOk(s, e);
      assert e != d ==> Sending(s', e) == Sending(s, e);
      assert e != d && s.dbs[e].watcher.Some? ==> s.dbs[e].watcher.value != u;
    }
    forall v | 0 <= v < |s'.threads|
      ensures PublisherOk(s', MailOf(s'.threads[v])) && PcOk(w, s', s'.threads[v])
    {
      assert PublisherOk(s, MailOf(s.threads[v])) && PcOk(w, s, s.threads[v]);
    }
  }

  lemma DeliveredSet(w: World, s: State, t: Tid, phase: SetPc, ch: Choice, s': State)
    requires Delivered(w, s) && Locked(s) && Watched(s) && t < |s.threads| && s.threads[t] == Setting(phase)
    requires SetStep(w, s, t, phase, ch) == Some(s')
    ensures Delivered(w, s')
  {
    match phase
    case SetCheck(hash, sig) => DeliveredSetCheck(w, s, t, hash, sig, s');
    case SetSend(addr, hash, d, todo) => DeliveredSetSend(w, s, t, addr, hash, d, todo, s');
    case SetNext(addr, hash, todo) =>
      assert s.regMtx == Some(t);
      if ch.Take? { assert todo - {ch.n} + {ch.n} == todo; }
      DeliveredAfter(w, s, s');
    case SetStart(_, _) => DeliveredAfter(w, s, s');
  }

  lemma DeliveredSweepEnd(w: World, s: State, t: Tid, d: DbId, hash: Hash, s': State)
    requires Delivered(w, s) && Watched(s) && t < |s.threads| && d < |s.dbs|
    requires s.threads[t] == Watching(d, Sweep(hash, {})) && SweepEnded(s, t, d, hash) == s'
    ensures Delivered(w, s')
  {
    assert PartOk(s, t);
    forall e | 0 <= e < |s'.dbs| ensures FeedOk(s', e) {
      assert FeedOk(s, e) && Sending(s', e) == Sending(s, e);
      assert e != d && s.dbs[e].watcher.Some? ==> s.dbs[e].watcher.value != t;
      assert s.dbs[d].feed.applied + [hash] + Sending(s, d) == s.dbs[d].feed.applied + [hash] + [] + Sending(s, d);
    }
    forall u | 0 <= u < |s'.threads|
      ensures PublisherOk(s', MailOf(s'.threads[u])) && PcOk(w, s', s'.threads[u])
    {
      assert PublisherOk(s, MailOf(s.threads[u])) && PcOk(w, s, s.threads[u]);
    }
  }

  lemma DeliveredRefetch(w: World, s: State, t: Tid, d: DbId, f: Fetch, ch: Choice, s': State)
    requires Delivered(w, s) && t < |s.threads| && d < |s.dbs| && s.threads[t] == Watching(d, Refetch(f))
    requires Refetching(s, t, d, f, ch) == Some(s')
    ensures Delivered(w, s')
  {
    hide FetchStep, Delivered;
    FetchKeepsHash(s.disk, t, s.dbs[d].name, f, ch);
    DeliveredGoto(w, s, t, s'.disk, s'.threads[t]);
  }

  lemma DeliveredSweep(w: World, s: State, t: Tid, d: DbId, loop: WatchPc, ch: Choice, s': State)
    requires Delivered(w, s) && t < |s.threads| && d < |s.dbs| && s.threads[t] == Watching(d, loop)
    requires !loop.Refetch? && !(loop.Sweep? && ch.Go?)
    requires WatchStep(s, t, d, loop, ch) == Some(s')
    ensures Delivered(w, s')
  {
    hide FeedOk, LedgerOk, PublisherOk, ReadAt, Refetching, SweepEnded;
    DeliveredAfter(w, s, s');
  }

  lemma DeliveredWatch(w: World, s: State, t: Tid, d: DbId, loop: WatchPc, ch: Choice, s': State)
    requires Delivered(w, s) && Watched(s) && t < |s.threads| && d < |s.dbs| && s.threads[t] == Watching(d, loop)
    requires WatchStep(s, t, d, loop, ch) == Some(s')
    ensures Delivered(w, s')
  {
    if loop.Sweep? && ch.Go? {
      DeliveredSweepEnd(w, s, t, d, loop.hash, s');
    } else if loop.Refetch? {
      DeliveredRefetch(w, s, t, d, loop.fetch, ch, s');
    } else {
      DeliveredSweep(w, s, t, d, loop, ch, s');
    }
  }

  lemma DeliveredExitUnsub(w: World, s: State, t: Tid, d: DbId, s': State)
    requires Delivered(w, s) && Locked(s) && Watched(s)
    requires t < |s.threads| && d < |s.dbs| && s.threads[t] == Exiting(d, ExitUnsub)
    requires ExitStep(s, t, d, ExitUnsub, Go) == Some(s')
    ensures Delivered(w, s')
  {
    assert s.regMtx == Some(t) && PartOk(s, t);
    forall e | 0 <= e < |s'.dbs| ensures FeedOk(s', e) {
      assert FeedOk(s, e);
      assert e != d && s.dbs[e].watcher.Some? ==> s.dbs[e].watcher.value != t;
    }
    forall u | 0 <= u < |s'.threads|
      ensures PublisherOk(s', MailOf(s'.threads[u])) && PcOk(w, s', s'.threads[u])
    {
      assert PublisherOk(s, MailOf(s.threads[u])) && PcOk(w, s, s.threads[u]);
      assert HoldsRegMtx(s.threads[u]) <==> u == t;
    }
  }

  lemma DeliveredExitMove(w: World, s: State, t: Tid, d: DbId, exit: ExitPc, ch: Choice, s': State)
    requires Delivered(w, s) && t < |s.threads| && d < |s.dbs| && s.threads[t] == Exiting(d, exit)
    requires s.regMtx == Some(t) ==> exit.ExitUnsub?
    requires !exit.ExitUnsub? && ExitStep(s, t, d, exit, ch) == Some(s')
    ensures Delivered(w, s')
  {
    hide FeedOk, LedgerOk, PublisherOk, ReadAt;
    DeliveredAfter(w, s, s');
  }

  lemma DeliveredExit(w: World, s: State, t: Tid, d: DbId, exit: ExitPc, ch: Choice, s': State)
    requires Delivered(w, s) && Locked(s) && Watched(s)
    requires t < |s.threads| && d < |s.dbs| && s.threads[t] == Exiting(d, exit)
    requires ExitStep(s, t, d, exit, ch) == Some(s')
    ensures Delivered(w, s')
  {
    if exit.ExitUnsub? {
      DeliveredExitUnsub(w, s, t, d, s');
    } else {
      DeliveredExitMove(w, s, t, d, exit, ch, s');
    }
  }

  lemma DeliveredIdle(w: World, s: State, a: Action, s': State)
    requires Delivered(w, s) && Next(w, s, a) == Some(s') && !a.Run?
    ensures Delivered(w, s')
  {
    hide FeedOk, LedgerOk, PublisherOk, ReadAt;
    DeliveredAfter(w, s, s');
  }

  lemma DeliveredNext(w: World, s: State, a: Action, s': State)
    requires Delivered(w, s) && Bounded(s) && Locked(s) && Watched(s) && Next(w, s, a) == Some(s')
    ensures Delivered(w, s')
  {
    hide Delivered, Bounded, Locked, Watched;
    if a.Run? {
      match s.threads[a.t]
      case Opening(at) => DeliveredOpen(w, s, a.t, at, a.ch, s');
      case Closing(c, stage) => DeliveredClose(w, s, a.t, c, stage, a.ch, s');
      case Setting(phase) => DeliveredSet(w, s, a.t, phase, a.ch, s');
      case Committing(part) => DeliveredCommit(w, s, a.t, part, a.ch, s');
      case Watching(d, loop) => DeliveredWatch(w, s, a.t, d, loop, a.ch, s');
      case Exiting(d, exit) => DeliveredExit(w, s, a.t, d, exit, a.ch, s');
    } else {
      DeliveredIdle(w, s, a, s');
    }
  }

  lemma DeliveredClose(w: World, s: State, t: Tid, c: ConnId, stage: ClosePc, ch: Choice, s': State)
    requires Delivered(w, s) && t < |s.threads| && s.threads[t] == Closing(c, stage)
    requires CloseStep(s, t, c, stage, ch) == Some(s')
    ensures Delivered(w, s')
  {
    hide FeedOk, LedgerOk, PublisherOk, ReadAt;
    DeliveredAfter(w, s, s');
  }

  lemma DeliveredCommit(w: World, s: State, t: Tid, part: CommitPc, ch: Choice, s': State)
    requires Delivered(w, s) && t < |s.threads| && s.threads[t] == Committing(part)
    requires CommitStep(w, s, t, part, ch) == Some(s')
    ensures Delivered(w, s')
  {
    hide FeedOk, LedgerOk, PublisherOk, ReadAt;
    DeliveredAfter(w, s, s');
  }

  // ----------------------------------------------------------------- results

  /** The watcher of d is in its loop. */
  predicate Looping(s: State, d: DbId) {
    && d < |s.dbs| && s.dbs[d].watcher.Some? && s.dbs[d].watcher.value < |s.threads|
    && s.threads[s.dbs[d].watcher.value].Watching?
  }

  /** The hash the watcher of d is working on, if any. */
  function InHand(s: State, d: DbId): seq<Hash>
    requires Looping(s, d)
  {
    var m := MailOf(s.threads[s.dbs[d].watcher.value]);
    m.on
  }

  /** Exact delivery: what a live watcher has applied, then what it works on,
      then what is being sent to it, are the hashes accepted for its address
      since it subscribed. Once no publisher is sending, it lags by at most one. */
  lemma ExactDelivery(w: World, s: State, d: DbId)
    requires Delivered(w, s) && Looping(s, d)
    ensures s.dbs[d].feed.since <= |s.ledger.History(s.dbs[d].feed.addr)|
    ensures Accepted(s, d) == s.dbs[d].feed.applied + InHand(s, d) + Sending(s, d)
    ensures Sending(s, d) == [] ==> |Accepted(s, d)| <= |s.dbs[d].feed.applied| + 1
    ensures s.regMtx.None? ==> Sending(s, d) == []
  {
    assert FeedOk(s, d);
  }

  /** The hash of the last completed refresh of db d. */
  function LastFetched(s: State, d: DbId): Hash
    requires d < |s.dbs|
  {
    var f := s.dbs[d].feed;
    if f.applied == [] then f.readHash else f.applied[|f.applied| - 1]
  }

  /** Quiescent agreement: with nothing in hand and nothing being sent, the last
      hash fetched is the registry's, except that a hash accepted between the
      read and the subscription is missed until the next one arrives. */
  lemma QuiescentAgreement(w: World, s: State, d: DbId)
    requires Delivered(w, s) && Looping(s, d) && InHand(s, d) == [] && Sending(s, d) == []
    ensures var f, h := s.dbs[d].feed, s.ledger.History(s.dbs[d].feed.addr);
      && f.seen <= f.since <= |h|
      && (|h| == f.since <==> f.applied == [])
      && (LastFetched(s, d) == HashAt(s.ledger.hashes, f.addr)
          <==> |h| > f.since || LastOr(h[..f.seen]) == LastOr(h[..f.since]))
  {
    assert FeedOk(s, d);
    var f, h := s.dbs[d].feed, s.ledger.History(s.dbs[d].feed.addr);
    assert HashAt(s.ledger.hashes, f.addr) == LastOr(h);
    assert f.applied == h[f.since..];
    if |h| == f.since { assert h[..f.since] == h; }
  }
}
