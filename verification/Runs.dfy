/**
 All the invariants together, and what they say of whole behaviours.
 */
module Runs {
  import opened Values
  import opened Refresh
  import opened Bounds
  import opened Locks
  import opened Watchers
  import opened Delivery
  import opened Disks
  import opened Mirror
  import opened Handles
  import opened Freshness

  ghost predicate Inv(w: World, s: State) {
    && Bounded(s) && Locked(s) && Watched(s) && Delivered(w, s)
    && Stable(w, s) && Mirrored(s) && Accounted(s) && Fresh(s)
  }

  lemma InvInit(w: World)
    ensures Inv(w, INIT)
  {
  }

  lemma InvNext(w: World, s: State, a: Action, s': State)
    requires w.Ideal() && Inv(w, s) && Next(w, s, a) == Some(s')
    ensures Inv(w, s')
  {
    hide Bounded, Locked, Watched, Delivered, Stable, Mirrored, Accounted, Fresh, Next;
    BoundedNext(w, s, a, s');
    LockedNext(w, s, a, s');
    WatchedNext(w, s, a, s');
    DeliveredNext(w, s, a, s');
    StableNext(w, s, a, s');
    MirroredNext(w, s, a, s');
    AccountedNext(w, s, a, s');
    FreshNext(w, s, a, s');
  }

  /** Every state of every behaviour satisfies the invariants, panics included. */
  lemma {:induction false} InvAlways(w: World, run: seq<State>, actions: seq<Action>, i: nat)
    requires w.Ideal() && Behaviour(w, run, actions) && i < |run|
    ensures Inv(w, run[i])
  {
    if i == 0 {
      InvInit(w);
    } else {
      assert Next(w, run[i - 1], actions[i - 1]) == Some(run[i]);
      InvAlways(w, run, actions, i - 1);
      InvNext(w, run[i - 1], actions[i - 1], run[i]);
    }
  }

  /** Handle freshness over a behaviour: a Conn registered when a reopenConns
      ends successfully is, from then on, on the inode of that refresh or on one
      renamed to its path later. */
  lemma {:induction false} FreshForever(w: World, run: seq<State>, actions: seq<Action>, i: nat, j: nat, t: Tid,
          d: DbId, hash: Hash, c: ConnId)
    requires w.Ideal() && Behaviour(w, run, actions) && i <= j < |run|
    requires t < |run[i].threads| && run[i].threads[t] == Watching(d, Sweep(hash, {}))
    requires d < |run[i].dbs| && c in run[i].dbs[d].pool.conns
    ensures c < |run[j].sql.conns| && run[j].sql.conns[c].handle < |run[j].sql.handles|
    ensures |run[i].disk.Links(run[i].dbs[d].name)| <= GenOf(run[j].sql, c) + 1
  {
    hide Next, Bounded, Locked, Watched, Delivered, Stable, Mirrored, Accounted;
    if j == i {
      InvAlways(w, run, actions, i);
      FreshAfterSweep(run[i], t, d, hash, c);
    } else {
      assert Next(w, run[j - 1], actions[j - 1]) == Some(run[j]);
      FreshForever(w, run, actions, i, j - 1, t, d, hash, c);
      InvAlways(w, run, actions, j - 1);
      GenerationsGrow(w, run[j - 1], actions[j - 1], run[j], c);
    }
  }

  /** Close against reopen over a behaviour: once removeConn has run for c, its
      handle never changes again, so the handle that Close closes is final. */
  lemma {:induction false} FinalHandle(w: World, run: seq<State>, actions: seq<Action>, i: nat, j: nat, c: ConnId)
    requires w.Ideal() && Behaviour(w, run, actions) && i <= j < |run|
    requires c < |run[i].sql.conns| && run[i].sql.conns[c].removed
    ensures c < |run[j].sql.conns| && run[j].sql.conns[c] == run[i].sql.conns[c]
  {
    hide Next, Bounded, Locked, Watched, Delivered, Stable, Mirrored, Accounted, Fresh;
    if i < j {
      assert Next(w, run[j - 1], actions[j - 1]) == Some(run[j]);
      FinalHandle(w, run, actions, i, j - 1, c);
      InvAlways(w, run, actions, j - 1);
      RemovedKeepsHandle(w, run[j - 1], actions[j - 1], run[j], c);
    }
  }

  /** Atomic replacement over a behaviour without SQLite writes: whatever a path
      shows is the complete bytes of the hash of its last rename. */
  lemma NeverPartial(w: World, run: seq<State>, actions: seq<Action>, i: nat, name: string)
    requires w.Ideal() && Behaviour(w, run, actions) && i < |run|
    requires Shown(run[i].disk, name).Some? && Shown(run[i].disk, name).value.version == 0
    ensures |run[i].disk.Links(name)| > 0
    ensures var links := run[i].disk.Links(name);
      && run[i].disk.Available(links[|links| - 1].hash)
      && Shown(run[i].disk, name).value.content == run[i].disk.Source(links[|links| - 1].hash)
  {
    InvAlways(w, run, actions, i);
    LinkAt(run[i].disk, name, |run[i].disk.Links(name)| - 1);
  }

  /** At rest on the published result of an undisturbed commit, a path shows the
      bytes that the commit opened, unless SQLite has changed them since. */
  lemma PublishedShown(w: World, s: State, d: DbId, k: nat)
    requires w.Ideal() && Inv(w, s) && Looping(s, d) && InHand(s, d) == [] && Sending(s, d) == []
    requires k < |s.disk.commits| && s.disk.commits[k].quiet
    requires HashAt(s.ledger.hashes, s.dbs[d].feed.addr) == s.disk.commits[k].hash
    requires |s.ledger.History(s.dbs[d].feed.addr)| > s.dbs[d].feed.since
    ensures Shown(s.disk, s.dbs[d].name).Some?
    ensures var file := Shown(s.disk, s.dbs[d].name).value;
      file.version == 0 ==> file.content == s.disk.commits[k].start
  {
    hide Bounded, Locked, Watched, Delivered, Mirrored, Accounted, Fresh;
    QuiescentAgreement(w, s, d);
    QuiescentFile(w, s, d);
    assert CommittedOk(w, s.disk, s.disk.commits[k]);
  }

  /** Step i opens handle h, on the inode its path then shows. */
  ghost predicate OpenedAt(run: seq<State>, i: nat, h: HandleId) {
    && i + 1 < |run| && |run[i].sql.handles| == h && OpenedNow(run[i], run[i + 1])
  }

  /** Every handle was opened at some step, on the inode its path showed then,
      and never changes. */
  lemma {:induction false} HandleFromPath(w: World, run: seq<State>, actions: seq<Action>, j: nat, h: HandleId)
    requires Behaviour(w, run, actions) && j < |run| && h < |run[j].sql.handles|
    ensures exists i :: 0 <= i < j && OpenedAt(run, i, h) && run[i + 1].sql.handles[h] == run[j].sql.handles[h]
  {
    hide Next, OpenedNow;
    if j > 0 {
      assert Next(w, run[j - 1], actions[j - 1]) == Some(run[j]);
      OpensShown(w, run[j - 1], actions[j - 1], run[j]);
      OnlyAdds(run[j - 1], run[j]);
      if h < |run[j - 1].sql.handles| {
        HandleFromPath(w, run, actions, j - 1, h);
      } else {
        assert OpenedAt(run, j - 1, h);
      }
    }
  }

  lemma OnlyAdds(s: State, s': State)
    requires s'.sql.handles == s.sql.handles || OpenedNow(s, s')
    ensures |s.sql.handles| <= |s'.sql.handles| <= |s.sql.handles| + 1 && s.sql.handles <= s'.sql.handles
    ensures |s'.sql.handles| > |s.sql.handles| ==> OpenedNow(s, s')
  {
  }

  /** Conn c got the handle it has in run[j] at step k, when newConn made it or
      reopenConns swapped it in, and that handle was opened at step i. */
  ghost predicate HandleSince(run: seq<State>, actions: seq<Action>, j: nat, c: ConnId, i: nat, k: nat) {
    && i <= k < j < |run| == |actions| + 1 && c < |run[j].sql.conns|
    && var h := run[j].sql.conns[c].handle;
       && h < |run[j].sql.handles| && OpenedAt(run, i, h) && run[i + 1].sql.handles[h] == run[j].sql.handles[h]
       && ((i == k && MadeNow(run[k], run[k + 1], c)) || SwappedNow(run[k], actions[k], run[k + 1], c))
       && forall m :: k < m <= j ==> c < |run[m].sql.conns| && run[m].sql.conns[c].handle == h
  }

  /** At any time the inode a Conn uses is the one its path showed when newConn
      opened it or, if it has been swapped since, when its last swap opened the
      handle swapped in. */
  lemma {:induction false} ConnFromPath(w: World, run: seq<State>, actions: seq<Action>, j: nat, c: ConnId)
    requires w.Ideal() && Behaviour(w, run, actions) && j < |run| && c < |run[j].sql.conns|
    ensures exists i, k :: HandleSince(run, actions, j, c, i, k)
  {
    if j > 0 {
      hide Next, OpenedNow, HandleSince, MadeNow, SwappedNow, Bounded;
      var s, a, s' := run[j - 1], actions[j - 1], run[j];
      assert Next(w, s, a) == Some(s');
      BoundedBefore(w, run, actions, j);
      HandleChanges(w, s, a, s', c);
      OpensShown(w, s, a, s');
      OnlyAdds(s, s');
      if MadeNow(s, s', c) {
        HandleMade(run, actions, j, c);
      } else if SwappedNow(s, a, s', c) {
        var i := HandleSwapped(w, run, actions, j, c);
      } else {
        ConnFromPath(w, run, actions, j - 1, c);
        var i, k :| HandleSince(run, actions, j - 1, c, i, k);
        HandleStillHeld(run, actions, j, c, i, k);
      }
    }
  }

  lemma BoundedBefore(w: World, run: seq<State>, actions: seq<Action>, j: nat)
    requires w.Ideal() && Behaviour(w, run, actions) && 0 < j < |run|
    ensures Bounded(run[j - 1])
  {
    InvAlways(w, run, actions, j - 1);
  }

  lemma HandleMade(run: seq<State>, actions: seq<Action>, j: nat, c: ConnId)
    requires 0 < j < |run| == |actions| + 1 && MadeNow(run[j - 1], run[j], c)
    ensures HandleSince(run, actions, j, c, j - 1, j - 1)
  {
    OpenedIsLast(run[j - 1], run[j]);
    hide OpenedNow;
  }

  lemma HandleSwapped(w: World, run: seq<State>, actions: seq<Action>, j: nat, c: ConnId) returns (i: nat)
    requires Behaviour(w, run, actions) && 0 < j < |run| && SwappedNow(run[j - 1], actions[j - 1], run[j], c)
    requires run[j - 1].sql.handles <= run[j].sql.handles
    ensures HandleSince(run, actions, j, c, i, j - 1)
  {
    hide Next;
    var s, h := run[j - 1], run[j].sql.conns[c].handle;
    HandleFromPath(w, run, actions, j - 1, h);
    i :| 0 <= i < j - 1 && OpenedAt(run, i, h) && run[i + 1].sql.handles[h] == s.sql.handles[h];
  }

  lemma HandleStillHeld(run: seq<State>, actions: seq<Action>, j: nat, c: ConnId, i: nat, k: nat)
    requires 0 < j < |run| && HandleSince(run, actions, j - 1, c, i, k) && c < |run[j].sql.conns|
    requires run[j].sql.conns[c].handle == run[j - 1].sql.conns[c].handle
    requires run[j - 1].sql.handles <= run[j].sql.handles
    ensures HandleSince(run, actions, j, c, i, k)
  {
    hide OpenedNow;
  }

  lemma OpenedIsLast(s: State, s': State)
    requires OpenedNow(s, s')
    ensures |s'.sql.handles| == |s.sql.handles| + 1
  {
  }

  /** Some behaviour ends in s. */
  ghost predicate Reachable(w: World, s: State) {
    exists run, actions :: Behaviour(w, run, actions) && run[|run| - 1] == s
  }

  lemma InitReachable(w: World)
    ensures Reachable(w, INIT)
  {
    assert Behaviour(w, [INIT], []);
  }

  lemma NextReachable(w: World, s: State, a: Action, s': State)
    requires Reachable(w, s) && Next(w, s, a) == Some(s')
    ensures Reachable(w, s')
  {
    hide Next;
    var run, actions :| Behaviour(w, run, actions) && run[|run| - 1] == s;
    var run', actions' := run + [s'], actions + [a];
    forall i | 0 <= i < |actions'| ensures Next(w, run'[i], actions'[i]) == Some(run'[i + 1]) {
      if i < |actions| { assert Next(w, run[i], actions[i]) == Some(run[i + 1]); }
    }
    assert Behaviour(w, run', actions') && run'[|run'| - 1] == s';
  }

  lemma ReachableInv(w: World, s: State)
    requires w.Ideal() && Reachable(w, s)
    ensures Inv(w, s)
  {
    hide Next, Inv;
    var run, actions :| Behaviour(w, run, actions) && run[|run| - 1] == s;
    InvAlways(w, run, actions, |run| - 1);
  }
}
