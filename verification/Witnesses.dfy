/**
 Behaviours from the start that reach what the other modules say can happen: both
 ways of being stuck, the panic, a Conn on an old inode, and a missed hash.
 */
module Witnesses {
  import opened Values
  import opened Refresh
  import opened Delivery
  import opened Freshness
  import opened Runs
  import opened Liveness
  import opened Stuck
  import opened Panics

  // ------------------------------------------------------ an ideal world exists

  /** A collision-free key: the bytes as a number, after a leading one. */
  function Key(b: Bytes): (k: nat)
    ensures k > 0 && (b != [] ==> k >= 256)
  {
    if b == [] then 1 else Key(b[..|b| - 1]) * 256 + b[|b| - 1] as nat
  }

  lemma {:induction false} KeyInjective(a: Bytes, b: Bytes)
    requires Key(a) == Key(b)
    ensures a == b
  {
    if a != [] && b != [] {
      assert Key(a) / 256 == Key(a[..|a| - 1]) && Key(a) % 256 == a[|a| - 1] as nat;
      assert Key(b) / 256 == Key(b[..|b| - 1]) && Key(b) % 256 == b[|b| - 1] as nat;
      KeyInjective(a[..|a| - 1], b[..|b| - 1]);
      assert a == a[..|a| - 1] + [a[|a| - 1]] && b == b[..|b| - 1] + [b[|b| - 1]];
    }
  }

  /** A world with one address, which every signature is by. */
  ghost function OneAddress(addr: Address): World {
    World(_ => addr, b => Key(b), (_, _) => Some(addr))
  }

  /** So there is an ideal world in which any hash can be published for any name,
      as every witness below asks. */
  lemma SomeWorld(addr: Address, name: string, hash: Hash, sig: Bytes)
    ensures OneAddress(addr).Ideal() && CanPublish(OneAddress(addr), name, hash, sig)
  {
    var w := OneAddress(addr);
    forall a, b | w.digest(a) == w.digest(b) ensures a == b { KeyInjective(a, b); }
  }

  /** sig signs hash for the address of the name. */
  predicate CanPublish(w: World, name: string, hash: Hash, sig: Bytes) {
    w.signer(hash, sig) == Some(w.addressOf(name))
  }

  // ------------------------------------------------------- the way to each state

  const NO_SQL := Sql([], [], {}, {})

  /** Thread 0 opens the name, has read the empty hash and is about to fetch it;
      thread 1 is idle. */
  function Fetching(name: string, ledger: Ledger): State {
    State([Opening(OpenFetch(name, 0, Fetch(EMPTY_HASH, None))), Idle], Some(0), None, map[], [], NO_SQL,
          ledger, Disk([], map[], map[], []), 0, false)
  }

  const NO_LEDGER := Ledger(map[], map[], {})

  lemma FetchingReached(w: World, name: string)
    ensures Reachable(w, Fetching(name, NO_LEDGER))
  {
    hide Reachable;
    InitReachable(w);
    var s1 := INIT.(threads := [Idle]);
    assert INIT.threads + [Idle] == s1.threads;
    NextReachable(w, INIT, Spawn, s1);
    var s2 := s1.(threads := [Idle, Idle]);
    assert s1.threads + [Idle] == s2.threads;
    NextReachable(w, s1, Spawn, s2);
    var s3 := s2.Goto(0, Opening(OpenStart(name)));
    NextReachable(w, s2, Begin(0, Opening(OpenStart(name))), s3);
    var s4 := s3.(dbMtx := Some(0)).Goto(0, Opening(OpenLookup(name)));
    NextReachable(w, s3, Run(0, Go), s4);
    var s5 := s4.Goto(0, Opening(OpenGraph(name)));
    NextReachable(w, s4, Run(0, Go), s5);
    var s6 := s5.(regMtx := Some(0)).Goto(0, Opening(OpenRead(name)));
    NextReachable(w, s5, Run(0, Go), s6);
    assert s6.threads[0 := Fetching(name, NO_LEDGER).threads[0]] == Fetching(name, NO_LEDGER).threads;
    NextReachable(w, s6, Run(0, Go), Fetching(name, NO_LEDGER));
  }

  function OneFile(name: string): Disk {
    Disk([File([], 0, EMPTY_HASH, 0, true)], map[name := [Link(0, EMPTY_HASH)]], map[], [])
  }

  function OneDb(w: World, name: string, ledger: Ledger): Db {
    Db(name, Feed(w.addressOf(name), 0, EMPTY_HASH, |ledger.History(w.addressOf(name))|, []), Some(2),
       Pool({}, false, UNLOCKED, 0), false)
  }

  /** openDB has returned in thread 0, before newConn; thread 2 is the watcher. */
  function Opened(w: World, name: string, ledger: Ledger): State {
    State([Opening(OpenConn(0)), Idle, Watching(0, Select)], None, None, map[name := 0], [OneDb(w, name, ledger)],
          NO_SQL, ledger.(subs := ledger.subs + {0}), OneFile(name), 0, false)
  }

  lemma OpenedReached(w: World, name: string, ledger: Ledger)
    requires Reachable(w, Fetching(name, ledger))
    ensures Reachable(w, Opened(w, name, ledger))
  {
    hide Reachable;
    var s0 := Fetching(name, ledger);
    var s1 := s0.(disk := Disk([File([], 0, EMPTY_HASH, 0, false)], map[], map[], []))
              .Goto(0, Opening(OpenFetch(name, 0, Fetch(EMPTY_HASH, Some(0)))));
    assert s0.disk.files + [File([], 0, EMPTY_HASH, 0, false)] == s1.disk.files;
    NextReachable(w, s0, Run(0, Go), s1);
    var s2 := Subscribing(name, ledger);
    assert s1.disk.files[0 := File([], 0, EMPTY_HASH, 0, true)] == s2.disk.files;
    assert s1.disk.Links(name) + [Link(0, EMPTY_HASH)] == [Link(0, EMPTY_HASH)];
    assert s1.threads[0 := s2.threads[0]] == s2.threads;
    NextReachable(w, s1, Run(0, Go), s2);
    OpenedFromSubscribe(w, name, ledger);
  }

  function Subscribing(name: string, ledger: Ledger): State {
    Fetching(name, ledger).(threads := [Opening(OpenSubscribe(name, 0, EMPTY_HASH)), Idle], disk := OneFile(name))
  }

  lemma OpenedFromSubscribe(w: World, name: string, ledger: Ledger)
    requires Reachable(w, Subscribing(name, ledger))
    ensures Reachable(w, Opened(w, name, ledger))
  {
    hide Reachable, OpenFetching, OpenNewConn, OpenAdded, WatchStep, SetStep, CommitStep, CloseStep, ExitStep;
    var s2 := Subscribing(name, ledger);
    var s3 := s2.(regMtx := Some(0)).Goto(0, Opening(OpenAttach(name, 0, EMPTY_HASH)));
    NextReachable(w, s2, Run(0, Go), s3);
    var s4 := s3.(regMtx := None, dbs := [OneDb(w, name, ledger).(watcher := None)],
                  ledger := ledger.(subs := ledger.subs + {0}))
              .Goto(0, Opening(OpenInstall(0)));
    assert s3.dbs + s4.dbs == s4.dbs;
    NextReachable(w, s3, Run(0, Go), s4);
    OpenedFromInstall(w, name, ledger, s4);
  }

  lemma OpenedFromInstall(w: World, name: string, ledger: Ledger, s4: State)
    requires Reachable(w, s4)
    requires s4 == Opened(w, name, ledger).(threads := [Opening(OpenInstall(0)), Idle], dbMtx := Some(0),
                                            byName := map[], dbs := [OneDb(w, name, ledger).(watcher := None)])
    ensures Reachable(w, Opened(w, name, ledger))
  {
    hide Reachable, OpenFetching, OpenNewConn, OpenAdded, WatchStep, SetStep, CommitStep, CloseStep, ExitStep;
    var s5 := s4.(byName := map[name := 0]).Goto(0, Opening(OpenSpawn(0)));
    NextReachable(w, s4, Run(0, Go), s5);
    var s6 := s5.(threads := [Opening(OpenReturn(Some(0))), Idle, Watching(0, Select)],
                  dbs := [OneDb(w, name, ledger)]);
    assert s5.dbs[0 := OneDb(w, name, ledger)] == s6.dbs;
    assert s5.threads[0 := Opening(OpenReturn(Some(0)))] + [Watching(0, Select)] == s6.threads;
    NextReachable(w, s5, Run(0, Go), s6);
    assert s6.threads[0 := Opening(OpenConn(0))] == Opened(w, name, ledger).threads;
    NextReachable(w, s6, Run(0, Go), Opened(w, name, ledger));
  }

  /** newConn has opened its handle and not yet registered the Conn. */
  function Unregistered(w: World, name: string): State {
    Opened(w, name, NO_LEDGER).(
      threads := [Opening(OpenAdd(0)), Idle, Watching(0, Select)],
      sql := Sql([Conn(0, 0, 0, 0, None, false)], [Handle(0, name, 0, 0)], {}, {}))
  }

  lemma UnregisteredReached(w: World, name: string)
    ensures Reachable(w, Unregistered(w, name))
  {
    hide Reachable;
    FetchingReached(w, name);
    OpenedReached(w, name, NO_LEDGER);
    var s0, s1 := Opened(w, name, NO_LEDGER), Unregistered(w, name);
    assert s0.threads[0 := Opening(OpenAdd(0))] == s1.threads;
    assert s0.sql.handles + s1.sql.handles == s1.sql.handles && s0.sql.conns + s1.sql.conns == s1.sql.conns;
    NextReachable(w, s0, Run(0, Go), s1);
  }

  /** addConn has registered the Conn, and Driver.Open has returned. */
  lemma RegisteredReached(w: World, name: string) returns (s: State)
    ensures Reachable(w, s) && !s.crashed && s.threads == [Idle, Idle, Watching(0, Select)] && s.regMtx == None
    ensures s.dbs == [OneDb(w, name, NO_LEDGER).(pool := Pool({0}, false, UNLOCKED, 0))]
    ensures s.ledger == Ledger(map[], map[], {0})
  {
    hide Reachable;
    UnregisteredReached(w, name);
    var s0 := Unregistered(w, name);
    var s1 := s0.SetLock(0, RwLock(Some(0), {})).Goto(0, Opening(OpenAdding(0)));
    NextReachable(w, s0, Run(0, Go), s1);
    s := OpenAdded(s1, 0, 0, false).value;
    NextReachable(w, s1, Run(0, Go), s);
    assert s.threads == [Idle, Idle, Watching(0, Select)];
    assert s.dbs[0].pool == Pool({0}, false, UNLOCKED, 0);
    assert s.dbs == [OneDb(w, name, NO_LEDGER).(pool := Pool({0}, false, UNLOCKED, 0))];
    assert s.ledger.subs == {0};
  }

  /** The registry after one more accepted hash. */
  function Published(ledger: Ledger, addr: Address, hash: Hash): Ledger {
    ledger.(hashes := ledger.hashes[addr := hash], history := ledger.history[addr := ledger.History(addr) + [hash]])
  }

  /** Thread 1 publishes, up to the loop over the subscribers. */
  lemma PublishStarts(w: World, s: State, name: string, hash: Hash, sig: Bytes) returns (s': State)
    requires Reachable(w, s) && !s.crashed && CanPublish(w, name, hash, sig)
    requires 1 < |s.threads| && s.threads[1] == Idle && s.regMtx == None
    ensures Reachable(w, s')
    ensures var addr := w.addressOf(name);
      s' == s.(regMtx := Some(1), ledger := Published(s.ledger, addr, hash),
               threads := s.threads[1 := Setting(SetNext(addr, hash, Subscribers(s, addr)))])
  {
    hide Reachable, Subscribers;
    var s1 := s.Goto(1, Setting(SetStart(hash, sig)));
    NextReachable(w, s, Begin(1, Setting(SetStart(hash, sig))), s1);
    var s2 := s1.(regMtx := Some(1)).Goto(1, Setting(SetCheck(hash, sig)));
    NextReachable(w, s1, Run(1, Go), s2);
    s' := SetChecked(w, s2, 1, hash, sig);
    NextReachable(w, s2, Run(1, Go), s');
    SameSubscribers(s, s2, w.addressOf(name));
    assert s'.threads == s.threads[1 := Setting(SetNext(w.addressOf(name), hash, Subscribers(s, w.addressOf(name))))];
  }

  lemma SameSubscribers(s: State, s': State, addr: Address)
    requires s'.ledger == s.ledger && s'.dbs == s.dbs
    ensures Subscribers(s', addr) == Subscribers(s, addr)
  {
  }

  /** Thread 1 is sending to db 0, the one subscriber. */
  lemma PublishSends(w: World, s: State, name: string, hash: Hash, sig: Bytes) returns (s': State)
    requires Reachable(w, s) && !s.crashed && CanPublish(w, name, hash, sig)
    requires 1 < |s.threads| && s.threads[1] == Idle && s.regMtx == None
    requires |s.dbs| == 1 && s.dbs[0].feed.addr == w.addressOf(name) && s.ledger.subs == {0}
    ensures Reachable(w, s')
    ensures var addr := w.addressOf(name);
      s' == s.(regMtx := Some(1), ledger := Published(s.ledger, addr, hash),
               threads := s.threads[1 := Setting(SetSend(addr, hash, 0, {}))])
  {
    var addr := w.addressOf(name);
    assert Subscribers(s, addr) == {0};
    hide Reachable, Subscribers;
    var s1 := PublishStarts(w, s, name, hash, sig);
    s' := s1.Goto(1, Setting(SetSend(addr, hash, 0, {})));
    assert {0} - {0} == {};
    NextReachable(w, s1, Run(1, Take(0)), s');
  }

  /** Thread 1 publishes to the one watcher, thread 2, and returns. */
  lemma PublishRuns(w: World, s: State, name: string, hash: Hash, sig: Bytes) returns (s': State)
    requires Reachable(w, s) && !s.crashed && CanPublish(w, name, hash, sig)
    requires |s.threads| == 3 && s.threads[1] == Idle && s.threads[2] == Watching(0, Select) && s.regMtx == None
    requires |s.dbs| == 1 && s.dbs[0].feed.addr == w.addressOf(name) && s.dbs[0].watcher == Some(2)
    requires s.ledger.subs == {0}
    ensures Reachable(w, s')
    ensures s' == s.(ledger := Published(s.ledger, w.addressOf(name), hash),
                     threads := s.threads[2 := Watching(0, Refetch(Fetch(hash, None)))])
  {
    hide Reachable;
    var addr := w.addressOf(name);
    var s1 := PublishSends(w, s, name, hash, sig);
    var s2 := s1.Goto(2, Watching(0, Refetch(Fetch(hash, None)))).Goto(1, Setting(SetNext(addr, hash, {})));
    NextReachable(w, s1, Run(1, Go), s2);
    s' := s2.(regMtx := None).Goto(1, Idle);
    NextReachable(w, s2, Run(1, Go), s');
  }

  // ----------------------------------------------------------------- the results

  /** A failed watcher that waits for the connsMtx it holds is reached. */
  lemma SelfBlockedReached(w: World, name: string, hash: Hash, sig: Bytes) returns (s: State)
    requires w.Ideal() && CanPublish(w, name, hash, sig)
    ensures Reachable(w, s) && SelfBlocked(s, 2) && Blocked(s, 2)
  {
    hide Reachable, Inv, Next;
    var s0 := RegisteredReached(w, name);
    var s1 := PublishRuns(w, s0, name, hash, sig);
    ReachableInv(w, s1);
    var a, b, c, d, e, end := FailedRefreshBlocksItself(w, s1, 2, 0, Fetch(hash, None), 0);
    NextReachable(w, s1, Run(2, Fail), a);
    NextReachable(w, a, Run(2, Go), b);
    NextReachable(w, b, Run(2, Go), c);
    NextReachable(w, c, Run(2, Go), d);
    NextReachable(w, d, Run(2, Go), e);
    NextReachable(w, e, Run(2, Take(0)), end);
    s := end;
  }

  /** A publisher and a failed watcher that wait for each other are reached. */
  lemma MutuallyBlockedReached(w: World, name: string, hash: Hash, sig: Bytes) returns (s: State)
    requires w.Ideal() && CanPublish(w, name, hash, sig)
    ensures Reachable(w, s) && MutuallyBlocked(s, 1, 2) && Blocked(s, 1) && Blocked(s, 2)
  {
    hide Reachable, Inv, Next;
    var s0 := RegisteredReached(w, name);
    var s1 := PublishRuns(w, s0, name, hash, sig);
    var s2 := PublishSends(w, s1, name, hash, sig);
    ReachableInv(w, s2);
    FailedRefreshBlocksSender(w, s2, 1, 2, 0, Fetch(hash, None));
    s := Next(w, s2, Run(2, Fail)).value;
    NextReachable(w, s2, Run(2, Fail), s);
    assert BlockedByPair(s, 1, 1, 2) && BlockedByPair(s, 2, 1, 2);
  }

  /** A watcher fails and tears its db down while an opener is between openDB and
      addConn, whose registration then panics. The panic is recovered, and the
      behaviour goes on without the Conn, or it ends the process. */
  lemma PanicReached(w: World, name: string, hash: Hash, sig: Bytes, ends: bool) returns (s: State)
    requires w.Ideal() && CanPublish(w, name, hash, sig)
    ensures Reachable(w, s) && s.panics == 1 && s.crashed == ends && Lost(s, 0)
  {
    UnregisteredReached(w, name);
    hide Reachable, Inv, Next;
    var s1 := PublishRuns(w, Unregistered(w, name), name, hash, sig);
    ReachableInv(w, s1);
    var a, b, c, d := FailedRefreshExits(w, s1, 2, 0, Fetch(hash, None));
    NextReachable(w, s1, Run(2, Fail), a);
    NextReachable(w, a, Run(2, Go), b);
    NextReachable(w, b, Run(2, Go), c);
    NextReachable(w, c, Run(2, Go), d);
    s := TornDown(w, d, ends);
  }

  /** From the watcher about to close the Conns of a db that has none, to the
      panic of the opener about to add one. */
  lemma TornDown(w: World, d: State, ends: bool) returns (s: State)
    requires Reachable(w, d) && !d.crashed && d.panics == 0 && |d.threads| == 3 && d.threads[1] == Idle
    requires d.threads[0] == Opening(OpenAdd(0)) && d.threads[2] == Exiting(0, ExitConns)
    requires |d.dbs| == 1 && d.dbs[0].pool == Pool({}, false, UNLOCKED, 0)
    requires |d.sql.conns| == 1 && d.sql.conns[0].db == 0 && d.sql.conns[0].joined.None?
    ensures Reachable(w, s) && s.panics == 1 && s.crashed == ends && Lost(s, 0)
  {
    hide Reachable;
    var e := d.SetLock(0, RwLock(Some(2), {})).Goto(2, Exiting(0, ExitDrain));
    NextReachable(w, d, Run(2, Go), e);
    var f := e.SetPool(0, Pool({}, true, UNLOCKED, 0)).Goto(2, Exiting(0, ExitDb));
    NextReachable(w, e, Run(2, Go), f);
    var g := f.SetLock(0, RwLock(Some(0), {})).Goto(0, Opening(OpenAdding(0)));
    NextReachable(w, f, Run(0, Go), g);
    s := OpenAdded(g, 0, 0, ends).value;
    NextReachable(w, g, Run(0, if ends then Fail else Go), s);
  }

  /** A registered Conn on an old inode, with the watcher at rest: newConn opened
      before a refresh and registered after it. */
  lemma OldInodeReached(w: World, name: string, sig: Bytes) returns (s: State)
    requires CanPublish(w, name, EMPTY_HASH, sig)
    ensures Reachable(w, s) && Looping(s, 0) && InHand(s, 0) == []
    ensures 0 in s.dbs[0].pool.conns && |s.sql.conns| == 1 && s.sql.conns[0].handle < |s.sql.handles|
    ensures !Newest(s, 0, GenOf(s.sql, 0))
  {
    UnregisteredReached(w, name);
    hide Reachable;
    var s1 := PublishRuns(w, Unregistered(w, name), name, EMPTY_HASH, sig);
    var file := File([], 0, EMPTY_HASH, 0, true);
    var s2 := s1.(disk := s1.disk.(files := [file, File([], 0, EMPTY_HASH, 2, false)]))
              .Goto(2, Watching(0, Refetch(Fetch(EMPTY_HASH, Some(1)))));
    assert s1.disk.files + [File([], 0, EMPTY_HASH, 2, false)] == s2.disk.files;
    NextReachable(w, s1, Run(2, Go), s2);
    var s3 := s2.(disk := s2.disk.(files := [file, File([], 0, EMPTY_HASH, 2, true)],
                                   links := s2.disk.links[name := [Link(0, EMPTY_HASH), Link(1, EMPTY_HASH)]]))
              .Goto(2, Watching(0, SweepStart(EMPTY_HASH)));
    assert s2.disk.files[1 := File([], 0, EMPTY_HASH, 2, true)] == s3.disk.files;
    assert s2.disk.Links(name) + [Link(1, EMPTY_HASH)] == s3.disk.Links(name);
    NextReachable(w, s2, Run(2, Go), s3);
    s := OldInodeKept(w, s3, name);
  }

  /** The sweep finds no Conn, and then the opener registers its Conn. */
  lemma OldInodeKept(w: World, s3: State, name: string) returns (s: State)
    requires Reachable(w, s3) && !s3.crashed && |s3.threads| == 3
    requires s3.threads[0] == Opening(OpenAdd(0)) && s3.threads[2] == Watching(0, SweepStart(EMPTY_HASH))
    requires |s3.dbs| == 1 && s3.dbs[0].pool == Pool({}, false, UNLOCKED, 0) && s3.dbs[0].watcher == Some(2)
    requires s3.sql == Sql([Conn(0, 0, 0, 0, None, false)], [Handle(0, name, 0, 0)], {}, {})
    requires s3.dbs[0].name == name && |s3.disk.Links(name)| == 2
    ensures Reachable(w, s) && Looping(s, 0) && InHand(s, 0) == []
    ensures 0 in s.dbs[0].pool.conns && |s.sql.conns| == 1 && s.sql.conns[0].handle < |s.sql.handles|
    ensures !Newest(s, 0, GenOf(s.sql, 0))
  {
    hide Reachable;
    var s4 := SweepBegun(s3, 2, 0, EMPTY_HASH).value;
    NextReachable(w, s3, Run(2, Go), s4);
    var s5 := SweepEnded(s4, 2, 0, EMPTY_HASH);
    NextReachable(w, s4, Run(2, Go), s5);
    assert s5.dbs[0].pool == Pool({}, false, UNLOCKED, 1);
    var s6 := s5.SetLock(0, RwLock(Some(0), {})).Goto(0, Opening(OpenAdding(0)));
    NextReachable(w, s5, Run(0, Go), s6);
    s := OpenAdded(s6, 0, 0, false).value;
    NextReachable(w, s6, Run(0, Go), s);
  }

  /** A hash published between the read and the subscription of an opener is
      missed: the watcher is at rest and has fetched another. */
  lemma MissedHashReached(w: World, name: string, hash: Hash, sig: Bytes) returns (s: State)
    requires CanPublish(w, name, hash, sig) && hash != EMPTY_HASH
    ensures Reachable(w, s) && Looping(s, 0) && InHand(s, 0) == [] && Sending(s, 0) == []
    ensures LastFetched(s, 0) != HashAt(s.ledger.hashes, s.dbs[0].feed.addr)
  {
    FetchingReached(w, name);
    hide Reachable;
    var s0 := Fetching(name, NO_LEDGER);
    var s1 := PublishStarts(w, s0, name, hash, sig);
    assert Subscribers(s0, w.addressOf(name)) == {};
    var ledger := Published(NO_LEDGER, w.addressOf(name), hash);
    assert s1.threads[1 := Idle] == Fetching(name, ledger).threads;
    NextReachable(w, s1, Run(1, Go), Fetching(name, ledger));
    OpenedReached(w, name, ledger);
    s := Opened(w, name, ledger);
  }
}
