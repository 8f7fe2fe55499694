/**
 What a call of SetGraph does to the registry: it books its hash for the address
 its signature recovers to, and returns when every subscriber of that address
 has received it.
 */
module SetCalls {
  import opened Values
  import opened Refresh
  import opened Calls

  // ---------------------------------------------------------- what one step does

  /** The publication a step of a SetGraph that holds the mutex books for addr. */
  function Booked(w: World, s: State, a: Action, addr: Address): seq<Hash> {
    if a.Run? && a.ch.Go? && a.t < |s.threads| && s.threads[a.t].Setting? && s.threads[a.t].phase.SetCheck?
      && w.signer(s.threads[a.t].phase.hash, s.threads[a.t].phase.sig) == Some(addr)
    then [s.threads[a.t].phase.hash]
    else []
  }

  /** The hashes booked for addr by the first n steps. */
  function Bookings(w: World, run: seq<State>, actions: seq<Action>, n: nat, addr: Address): seq<Hash>
    requires n <= |actions| && n <= |run|
  {
    if n == 0 then [] else Bookings(w, run, actions, n - 1, addr) + Booked(w, run[n - 1], actions[n - 1], addr)
  }

  ghost predicate BooksStep(w: World, s: State, a: Action, s': State) {
    && (forall addr :: s'.ledger.History(addr) == s.ledger.History(addr) + Booked(w, s, a, addr))
    && (forall addr :: Booked(w, s, a, addr) == [] ==>
          HashAt(s'.ledger.hashes, addr) == HashAt(s.ledger.hashes, addr))
    && (forall addr :: Booked(w, s, a, addr) != [] ==>
          HashAt(s'.ledger.hashes, addr) == Booked(w, s, a, addr)[0])
  }

  lemma OpenBooksNone(w: World, s: State, t: Tid, at: OpenPc, ch: Choice, s': State)
    requires t < |s.threads| && OpenStep(w, s, t, at, ch) == Some(s')
    ensures s'.ledger.hashes == s.ledger.hashes && s'.ledger.history == s.ledger.history
  {
    hide FetchStep;
  }

  lemma WatchBooksNone(s: State, t: Tid, d: DbId, loop: WatchPc, ch: Choice, s': State)
    requires t < |s.threads| && d < |s.dbs| && WatchStep(s, t, d, loop, ch) == Some(s')
    ensures s'.ledger.hashes == s.ledger.hashes && s'.ledger.history == s.ledger.history
  {
    hide FetchStep;
  }

  lemma CallBooksNone(w: World, s: State, t: Tid, ch: Choice, s': State)
    requires t < |s.threads| && Step(w, s, t, ch) == Some(s')
    requires s.threads[t].Closing? || s.threads[t].Committing? || s.threads[t].Exiting?
    ensures s'.ledger.hashes == s.ledger.hashes && s'.ledger.history == s.ledger.history
  {
    hide OpenStep, WatchStep, SetStep;
  }

  lemma SetBooks(w: World, s: State, a: Action, phase: SetPc, s': State)
    requires a.Run? && a.t < |s.threads| && s.threads[a.t] == Setting(phase)
    requires SetStep(w, s, a.t, phase, a.ch) == Some(s')
    ensures BooksStep(w, s, a, s')
  {
  }

  lemma NextBooks(w: World, s: State, a: Action, s': State)
    requires Next(w, s, a) == Some(s')
    ensures BooksStep(w, s, a, s')
  {
    hide OpenStep, CloseStep, SetStep, CommitStep, WatchStep, ExitStep;
    if a.Run? {
      match s.threads[a.t]
      case Opening(at) => OpenBooksNone(w, s, a.t, at, a.ch, s');
      case Watching(d, loop) => WatchBooksNone(s, a.t, d, loop, a.ch, s');
      case Setting(phase) => SetBooks(w, s, a, phase, s');
      case Closing(_, _) => CallBooksNone(w, s, a.t, a.ch, s');
      case Committing(_) => CallBooksNone(w, s, a.t, a.ch, s');
      case Exiting(_, _) => CallBooksNone(w, s, a.t, a.ch, s');
    }
  }

  /** The publish history of each address is what was booked for it, in order, and
      its hash the last of these. */
  lemma {:induction false} HistoryIsBookings(w: World, run: seq<State>, actions: seq<Action>, j: nat, addr: Address)
    requires Behaviour(w, run, actions) && j < |run|
    ensures var booked := Bookings(w, run, actions, j, addr);
      && run[j].ledger.History(addr) == booked
      && HashAt(run[j].ledger.hashes, addr) == if booked == [] then EMPTY_HASH else booked[|booked| - 1]
  {
    hide Next, Booked;
    if j > 0 {
      HistoryIsBookings(w, run, actions, j - 1, addr);
      assert Next(w, run[j - 1], actions[j - 1]) == Some(run[j]);
      NextBooks(w, run[j - 1], actions[j - 1], run[j]);
      BookedOnce(w, run[j - 1], actions[j - 1], addr);
    }
  }

  lemma BookedOnce(w: World, s: State, a: Action, addr: Address)
    ensures |Booked(w, s, a, addr)| <= 1
  {
  }

  // -------------------------------------------------------------- a whole call

  /** Step k books the hash for addr and for no other address. */
  ghost predicate BookedAt(w: World, run: seq<State>, actions: seq<Action>, k: nat, t: Tid, addr: Address, hash: Hash) {
    && k < |actions| && k + 1 < |run| && IsStepOf(actions[k], t)
    && run[k + 1].ledger.History(addr) == run[k].ledger.History(addr) + [hash]
    && HashAt(run[k + 1].ledger.hashes, addr) == hash
    && forall b :: b != addr ==>
         run[k + 1].ledger.History(b) == run[k].ledger.History(b)
         && HashAt(run[k + 1].ledger.hashes, b) == HashAt(run[k].ledger.hashes, b)
  }

  ghost predicate IsSubscribed(s: State, d: DbId, addr: Address) {
    d in s.ledger.subs && d < |s.dbs| && s.dbs[d].feed.addr == addr
  }

  /** Step k hands the hash to the watcher of d, which begins to fetch it. */
  ghost predicate SentAt(run: seq<State>, actions: seq<Action>, k: nat, t: Tid, d: DbId, hash: Hash) {
    && k < |actions| && k + 1 < |run| && IsStepOf(actions[k], t)
    && d < |run[k].dbs| && run[k].dbs[d].watcher.Some?
    && var watcher := run[k].dbs[d].watcher.value;
       && watcher < |run[k].threads| && watcher < |run[k + 1].threads|
       && run[k].threads[watcher] == Watching(d, Select)
       && run[k + 1].threads[watcher] == Watching(d, Refetch(Fetch(hash, None)))
  }

  ghost predicate Sent(run: seq<State>, actions: seq<Action>, i: nat, j: nat, t: Tid, d: DbId, hash: Hash) {
    exists k: nat :: i < k < j && SentAt(run, actions, k, t, d, hash)
  }

  /** Of those subscribed in s to addr, all have been sent the hash but for todo. */
  ghost predicate SentBut(s: State, run: seq<State>, actions: seq<Action>, i: nat, j: nat, t: Tid, addr: Address,
          hash: Hash, todo: set<DbId>)
  {
    forall d :: IsSubscribed(s, d, addr) && d !in todo ==> Sent(run, actions, i, j, t, d, hash)
  }

  /** The call has booked the hash and sent it to all subscribers but for todo. */
  ghost predicate Published(w: World, run: seq<State>, actions: seq<Action>, i: nat, j: nat, t: Tid, addr: Address,
          hash: Hash, todo: set<DbId>)
  {
    exists k: nat :: i < k < j && BookedAt(w, run, actions, k, t, addr, hash) && k < |run|
      && SentBut(run[k], run, actions, k, j, t, addr, hash, todo)
  }

  /** What a call of SetGraph has done when it has come to a point. */
  ghost predicate SetSoFar(w: World, run: seq<State>, actions: seq<Action>, i: nat, j: nat, t: Tid, hash: Hash,
          sig: Bytes, phase: SetPc)
  {
    match phase
    case SetStart(h, g) => h == hash && g == sig
    case SetCheck(h, g) => h == hash && g == sig
    case SetNext(addr, h, todo) =>
      h == hash && w.signer(hash, sig) == Some(addr) && Published(w, run, actions, i, j, t, addr, hash, todo)
    case SetSend(addr, h, d, todo) =>
      h == hash && w.signer(hash, sig) == Some(addr) && Published(w, run, actions, i, j, t, addr, hash, todo + {d})
  }

  lemma PublishedLater(w: World, run: seq<State>, actions: seq<Action>, i: nat, j: nat, t: Tid, addr: Address,
          hash: Hash, todo: set<DbId>)
    requires Published(w, run, actions, i, j, t, addr, hash, todo)
    ensures Published(w, run, actions, i, j + 1, t, addr, hash, todo)
  {
    hide BookedAt, SentAt;
    var k: nat :| i < k < j && BookedAt(w, run, actions, k, t, addr, hash) && k < |run|
      && SentBut(run[k], run, actions, k, j, t, addr, hash, todo);
    forall d | IsSubscribed(run[k], d, addr) && d !in todo ensures Sent(run, actions, k, j + 1, t, d, hash) {
      assert Sent(run, actions, k, j, t, d, hash);
    }
    assert SentBut(run[k], run, actions, k, j + 1, t, addr, hash, todo);
  }

  lemma SetSoFarLater(w: World, run: seq<State>, actions: seq<Action>, i: nat, j: nat, t: Tid, hash: Hash, sig: Bytes,
          phase: SetPc)
    requires SetSoFar(w, run, actions, i, j, t, hash, sig, phase)
    ensures SetSoFar(w, run, actions, i, j + 1, t, hash, sig, phase)
  {
    hide Published;
    match phase
    case SetNext(addr, _, todo) => PublishedLater(w, run, actions, i, j, t, addr, hash, todo);
    case SetSend(addr, _, d, todo) => PublishedLater(w, run, actions, i, j, t, addr, hash, todo + {d});
    case _ =>
  }

  ghost predicate SetMoved(w: World, run: seq<State>, actions: seq<Action>, i: nat, j: nat, t: Tid, hash: Hash,
          sig: Bytes)
    requires j < |run|
  {
    && t < |run[j].threads|
    && match run[j].threads[t]
       case Idle => Finished(w, run, actions, i, j, t, hash, sig)
       case Setting(phase) => SetSoFar(w, run, actions, i, j, t, hash, sig, phase)
       case _ => false
  }

  /** The signature recovers to nothing, or the call has published to everyone. */
  ghost predicate Finished(w: World, run: seq<State>, actions: seq<Action>, i: nat, j: nat, t: Tid, hash: Hash,
          sig: Bytes)
  {
    match w.signer(hash, sig)
    case None => true
    case Some(addr) => Published(w, run, actions, i, j, t, addr, hash, {})
  }

  ghost predicate OwnStep(w: World, run: seq<State>, actions: seq<Action>, i: nat, j: nat, t: Tid, phase: SetPc) {
    && |run| == |actions| + 1 && i < j < |actions| && StepAt(run, actions, j, t, Setting(phase))
    && SetStep(w, run[j], t, phase, actions[j].ch) == Some(run[j + 1])
  }

  lemma CheckMoves(w: World, run: seq<State>, actions: seq<Action>, i: nat, j: nat, t: Tid, hash: Hash, sig: Bytes)
    requires OwnStep(w, run, actions, i, j, t, SetCheck(hash, sig))
    ensures SetMoved(w, run, actions, i, j + 1, t, hash, sig)
  {
    if w.signer(hash, sig).Some? {
      var addr := w.signer(hash, sig).value;
      var todo := run[j + 1].threads[t].phase.todo;
      SetBooks(w, run[j], actions[j], SetCheck(hash, sig), run[j + 1]);
      assert BookedAt(w, run, actions, j, t, addr, hash);
      hide BookedAt;
      assert SentBut(run[j], run, actions, j, j + 1, t, addr, hash, todo);
    }
  }

  /** One more subscriber has been sent the hash. */
  lemma PublishedTo(w: World, run: seq<State>, actions: seq<Action>, i: nat, j: nat, t: Tid, addr: Address,
          hash: Hash, todo: set<DbId>, d: DbId)
    requires Published(w, run, actions, i, j, t, addr, hash, todo + {d}) && SentAt(run, actions, j, t, d, hash)
    ensures Published(w, run, actions, i, j + 1, t, addr, hash, todo)
  {
    hide BookedAt, SentAt, IsSubscribed;
    var k: nat :| i < k < j && BookedAt(w, run, actions, k, t, addr, hash) && k < |run|
      && SentBut(run[k], run, actions, k, j, t, addr, hash, todo + {d});
    forall e | IsSubscribed(run[k], e, addr) && e !in todo ensures Sent(run, actions, k, j + 1, t, e, hash) {
      assert e != d ==> Sent(run, actions, k, j, t, e, hash);
    }
    assert SentBut(run[k], run, actions, k, j + 1, t, addr, hash, todo);
  }

  lemma SendMoves(w: World, run: seq<State>, actions: seq<Action>, i: nat, j: nat, t: Tid, hash: Hash, sig: Bytes,
          addr: Address, d: DbId, todo: set<DbId>)
    requires OwnStep(w, run, actions, i, j, t, SetSend(addr, hash, d, todo)) && w.signer(hash, sig) == Some(addr)
    requires Published(w, run, actions, i, j, t, addr, hash, todo + {d})
    ensures SetMoved(w, run, actions, i, j + 1, t, hash, sig)
  {
    hide Published;
    assert SentAt(run, actions, j, t, d, hash);
    PublishedTo(w, run, actions, i, j, t, addr, hash, todo, d);
  }

  lemma NextMoves(w: World, run: seq<State>, actions: seq<Action>, i: nat, j: nat, t: Tid, hash: Hash, sig: Bytes,
          addr: Address, todo: set<DbId>)
    requires OwnStep(w, run, actions, i, j, t, SetNext(addr, hash, todo)) && w.signer(hash, sig) == Some(addr)
    requires Published(w, run, actions, i, j + 1, t, addr, hash, todo)
    ensures SetMoved(w, run, actions, i, j + 1, t, hash, sig)
  {
    hide Published;
    if actions[j].ch.Take? { assert todo - {actions[j].ch.n} + {actions[j].ch.n} == todo; }
  }

  lemma SetMoves(w: World, run: seq<State>, actions: seq<Action>, i: nat, j: nat, t: Tid, hash: Hash, sig: Bytes,
          phase: SetPc)
    requires OwnStep(w, run, actions, i, j, t, phase) && SetSoFar(w, run, actions, i, j, t, hash, sig, phase)
    ensures SetMoved(w, run, actions, i, j + 1, t, hash, sig)
  {
    SetSoFarLater(w, run, actions, i, j, t, hash, sig, phase);
    hide Published;
    match phase
    case SetStart(_, _) =>
    case SetCheck(_, _) => CheckMoves(w, run, actions, i, j, t, hash, sig);
    case SetNext(addr, _, todo) => NextMoves(w, run, actions, i, j, t, hash, sig, addr, todo);
    case SetSend(addr, _, d, todo) => SendMoves(w, run, actions, i, j, t, hash, sig, addr, d, todo);
  }

  lemma {:induction false} SetAlways(w: World, run: seq<State>, actions: seq<Action>, i: nat, j: nat, t: Tid,
          hash: Hash, sig: Bytes)
    requires Behaviour(w, run, actions) && InCall(run, actions, i, j, t, Setting(SetStart(hash, sig)))
    ensures run[j].threads[t].Setting? && SetSoFar(w, run, actions, i, j, t, hash, sig, run[j].threads[t].phase)
  {
    hide Step, SetSoFar;
    assert Next(w, run[j - 1], actions[j - 1]) == Some(run[j]);
    if j == i + 1 {
      SetBegins(w, run, actions, i, t, hash, sig);
    } else {
      SetAlways(w, run, actions, i, j - 1, t, hash, sig);
      var phase := run[j - 1].threads[t].phase;
      if IsStepOf(actions[j - 1], t) {
        SetterSteps(w, run[j - 1], t, phase, actions[j - 1].ch, run[j]);
        SetMoves(w, run, actions, i, j - 1, t, hash, sig, phase);
      } else {
        CallerWaits(w, run[j - 1], actions[j - 1], run[j], t);
        SetSoFarLater(w, run, actions, i, j - 1, t, hash, sig, phase);
      }
    }
  }

  lemma SetBegins(w: World, run: seq<State>, actions: seq<Action>, i: nat, t: Tid, hash: Hash, sig: Bytes)
    ensures SetSoFar(w, run, actions, i, i + 1, t, hash, sig, SetStart(hash, sig))
  {
  }

  lemma SetterSteps(w: World, s: State, t: Tid, phase: SetPc, ch: Choice, s': State)
    requires t < |s.threads| && s.threads[t] == Setting(phase) && Step(w, s, t, ch) == Some(s')
    ensures SetStep(w, s, t, phase, ch) == Some(s')
  {
    hide SetStep;
  }

  // ----------------------------------------------------------------- results

  /** A call of SetGraph whose signature recovers to an address has, when it
      returns, booked its hash for that address and no other at one of its steps,
      and handed it to the watcher of every database subscribed to that address
      at that step. */
  lemma SetReturns(w: World, run: seq<State>, actions: seq<Action>, i: nat, j: nat, t: Tid, hash: Hash, sig: Bytes)
    requires Behaviour(w, run, actions) && InCall(run, actions, i, j, t, Setting(SetStart(hash, sig)))
    requires j < |actions| && IsStepOf(actions[j], t) && t < |run[j + 1].threads| && run[j + 1].threads[t].Idle?
    requires w.signer(hash, sig).Some?
    ensures Published(w, run, actions, i, j + 1, t, w.signer(hash, sig).value, hash, {})
  {
    hide Step, Published;
    assert Next(w, run[j], actions[j]) == Some(run[j + 1]);
    SetAlways(w, run, actions, i, j, t, hash, sig);
    SetterSteps(w, run[j], t, run[j].threads[t].phase, actions[j].ch, run[j + 1]);
    SetMoves(w, run, actions, i, j, t, hash, sig, run[j].threads[t].phase);
  }
}
