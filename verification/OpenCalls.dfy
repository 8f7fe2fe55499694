/**
 What a call of Driver.Open answers: a connection to the database held under the
 name asked for, the one the map had or one this call fetched, subscribed and
 installed for that name.
 */
module OpenCalls {
  import opened Values
  import opened Refresh
  import opened Bounds
  import opened Handles
  import opened Runs
  import opened Calls

  // ------------------------------------------- the steps that make an answer

  /** Step k reads the map: what it holds under the name. */
  ghost predicate LookupAt(run: seq<State>, actions: seq<Action>, k: nat, t: Tid, name: string, found: Option<DbId>) {
    && StepAt(run, actions, k, t, Opening(OpenLookup(name)))
    && (found.Some? <==> name in run[k].byName)
    && (found.Some? ==> found.value == run[k].byName[name])
  }

  /** Step k reads the registry's hash for the address of the name. */
  ghost predicate HashReadAt(w: World, run: seq<State>, actions: seq<Action>, k: nat, t: Tid, name: string,
          seen: nat, hash: Hash)
  {
    && StepAt(run, actions, k, t, Opening(OpenRead(name)))
    && hash == HashAt(run[k].ledger.hashes, w.addressOf(name))
    && seen == |run[k].ledger.History(w.addressOf(name))|
  }

  /** Step k renames a file fetched for the hash onto the path of the name. */
  ghost predicate RenamedAt(run: seq<State>, actions: seq<Action>, k: nat, t: Tid, name: string, hash: Hash) {
    && k < |actions| && k + 1 < |run| && IsStepOf(actions[k], t)
    && var links := run[k].disk.Links(name);
       && |run[k + 1].disk.Links(name)| == |links| + 1 && run[k + 1].disk.Links(name)[..|links|] == links
       && run[k + 1].disk.Links(name)[|links|].hash == hash
  }

  /** Step k makes db d for the name, subscribed to its address. */
  ghost predicate MadeAt(w: World, run: seq<State>, actions: seq<Action>, k: nat, t: Tid, name: string, d: DbId) {
    && k < |actions| && k + 1 < |run| && IsStepOf(actions[k], t)
    && |run[k].dbs| == d && d < |run[k + 1].dbs|
    && run[k + 1].dbs[d].name == name && run[k + 1].dbs[d].feed.addr == w.addressOf(name)
    && run[k + 1].dbs[d].feed.since == |run[k].ledger.History(w.addressOf(name))|
    && d in run[k + 1].ledger.subs
  }

  /** Step k stores db d under the name. */
  ghost predicate InstalledAt(run: seq<State>, actions: seq<Action>, k: nat, t: Tid, name: string, d: DbId) {
    && k < |actions| && k + 1 < |run| && IsStepOf(actions[k], t)
    && run[k + 1].byName == run[k].byName[name := d]
  }

  /** Step k opens Conn c of db d. */
  ghost predicate ConnMadeAt(run: seq<State>, actions: seq<Action>, k: nat, t: Tid, c: ConnId, d: DbId) {
    && k < |actions| && k + 1 < |run| && IsStepOf(actions[k], t)
    && |run[k].sql.conns| == c && c < |run[k + 1].sql.conns|
    && run[k + 1].sql.conns[c].db == d && run[k + 1].sql.conns[c].owner == t
  }

  ghost predicate FailedAt(actions: seq<Action>, k: nat, t: Tid) {
    k < |actions| && actions[k] == Run(t, Fail)
  }

  // ------------------------------------- those between step i and run[j], in order

  ghost predicate LookedUp(run: seq<State>, actions: seq<Action>, i: nat, j: nat, t: Tid, name: string,
          found: Option<DbId>)
  {
    exists k: nat :: i < k < j && LookupAt(run, actions, k, t, name, found)
  }

  ghost predicate HashRead(w: World, run: seq<State>, actions: seq<Action>, i: nat, j: nat, t: Tid, name: string,
          seen: nat, hash: Hash)
  {
    exists k: nat :: i < k < j && HashReadAt(w, run, actions, k, t, name, seen, hash)
      && LookedUp(run, actions, i, k, t, name, None)
  }

  ghost predicate Fetched(w: World, run: seq<State>, actions: seq<Action>, i: nat, j: nat, t: Tid, name: string,
          seen: nat, hash: Hash)
  {
    exists k: nat :: i < k < j && RenamedAt(run, actions, k, t, name, hash)
      && HashRead(w, run, actions, i, k, t, name, seen, hash)
  }

  ghost predicate Made(w: World, run: seq<State>, actions: seq<Action>, i: nat, j: nat, t: Tid, name: string, d: DbId)
  {
    exists k: nat :: i < k < j && MadeAt(w, run, actions, k, t, name, d)
      && Fetched(w, run, actions, i, k, t, name, run[k + 1].dbs[d].feed.seen, run[k + 1].dbs[d].feed.readHash)
  }

  ghost predicate Installed(w: World, run: seq<State>, actions: seq<Action>, i: nat, j: nat, t: Tid, name: string,
          d: DbId)
  {
    exists k: nat :: i < k < j && InstalledAt(run, actions, k, t, name, d) && Made(w, run, actions, i, k, t, name, d)
  }

  /** The db a call answers with: the one the map held, or the one it put there. */
  ghost predicate Answer(w: World, run: seq<State>, actions: seq<Action>, i: nat, j: nat, t: Tid, name: string,
          d: DbId)
  {
    LookedUp(run, actions, i, j, t, name, Some(d)) || Installed(w, run, actions, i, j, t, name, d)
  }

  ghost predicate ConnMade(run: seq<State>, actions: seq<Action>, i: nat, j: nat, t: Tid, c: ConnId, d: DbId) {
    exists k: nat :: i < k < j && ConnMadeAt(run, actions, k, t, c, d)
  }

  ghost predicate HasFailed(actions: seq<Action>, i: nat, j: nat, t: Tid) {
    exists k: nat :: i < k < j && FailedAt(actions, k, t)
  }

  ghost predicate IsNamed(s: State, d: DbId, name: string) {
    d < |s.dbs| && s.dbs[d].name == name
  }

  /** What a call of Open for the name has done when it has come to a point. */
  ghost predicate OpenSoFar(w: World, run: seq<State>, actions: seq<Action>, i: nat, j: nat, t: Tid, name: string,
          at: OpenPc)
    requires j < |run|
  {
    match at
    case OpenStart(n) => n == name
    case OpenLookup(n) => n == name
    case OpenGraph(n) => n == name && LookedUp(run, actions, i, j, t, name, None)
    case OpenRead(n) => n == name && LookedUp(run, actions, i, j, t, name, None)
    case OpenFetch(n, seen, f) => n == name && HashRead(w, run, actions, i, j, t, name, seen, f.hash)
    case OpenSubscribe(n, seen, hash) => n == name && Fetched(w, run, actions, i, j, t, name, seen, hash)
    case OpenAttach(n, seen, hash) => n == name && Fetched(w, run, actions, i, j, t, name, seen, hash)
    case OpenInstall(d) => IsNamed(run[j], d, name) && Made(w, run, actions, i, j, t, name, d)
    case OpenSpawn(d) => IsNamed(run[j], d, name) && Answer(w, run, actions, i, j, t, name, d)
    case OpenReturn(r) =>
      if r.None? then HasFailed(actions, i, j, t)
      else IsNamed(run[j], r.value, name) && Answer(w, run, actions, i, j, t, name, r.value)
    case OpenConn(d) => IsNamed(run[j], d, name) && Answer(w, run, actions, i, j, t, name, d)
    case OpenAdd(c) => ConnFor(w, run, actions, i, j, t, name, c)
    case OpenAdding(c) => ConnFor(w, run, actions, i, j, t, name, c)
  }

  /** Conn c was made by this call, on the database it answers with. */
  ghost predicate ConnFor(w: World, run: seq<State>, actions: seq<Action>, i: nat, j: nat, t: Tid, name: string,
          c: ConnId)
    requires j < |run|
  {
    && c < |run[j].sql.conns|
    && var d := run[j].sql.conns[c].db;
       && IsNamed(run[j], d, name) && Answer(w, run, actions, i, j, t, name, d)
       && ConnMade(run, actions, i, j, t, c, d)
  }

  // --------------------------------------------------------------- induction

  /** What has been done stays done. */
  lemma OpenSoFarLater(w: World, run: seq<State>, actions: seq<Action>, i: nat, j: nat, t: Tid, name: string,
          at: OpenPc)
    requires Behaviour(w, run, actions) && j + 1 < |run| && OpenSoFar(w, run, actions, i, j, t, name, at)
    ensures OpenSoFar(w, run, actions, i, j + 1, t, name, at)
  {
    hide Next, LookupAt, HashReadAt, RenamedAt, MadeAt, InstalledAt, ConnMadeAt, FailedAt;
    assert Next(w, run[j], actions[j]) == Some(run[j + 1]);
    match at
    case OpenInstall(d) => DbKept(w, run[j], actions[j], run[j + 1], d);
    case OpenSpawn(d) => DbKept(w, run[j], actions[j], run[j + 1], d);
    case OpenConn(d) => DbKept(w, run[j], actions[j], run[j + 1], d);
    case OpenReturn(r) => if r.Some? { DbKept(w, run[j], actions[j], run[j + 1], r.value); }
    case OpenAdd(c) => ConnForLater(w, run, actions, i, j, t, name, c);
    case OpenAdding(c) => ConnForLater(w, run, actions, i, j, t, name, c);
    case _ =>
  }

  lemma ConnForLater(w: World, run: seq<State>, actions: seq<Action>, i: nat, j: nat, t: Tid, name: string, c: ConnId)
    requires Behaviour(w, run, actions) && j + 1 < |run| && ConnFor(w, run, actions, i, j, t, name, c)
    ensures ConnFor(w, run, actions, i, j + 1, t, name, c)
  {
    hide Next, LookupAt, HashReadAt, RenamedAt, MadeAt, InstalledAt, ConnMadeAt, FailedAt, Made;
    assert Next(w, run[j], actions[j]) == Some(run[j + 1]);
    DbKept(w, run[j], actions[j], run[j + 1], run[j].sql.conns[c].db);
    ConnsStay(w, run[j], actions[j], run[j + 1], c);
  }

  // The steps of the call itself.

  ghost predicate OwnStep(w: World, run: seq<State>, actions: seq<Action>, i: nat, j: nat, t: Tid, at: OpenPc) {
    && |run| == |actions| + 1 && i < j < |actions| && StepAt(run, actions, j, t, Opening(at)) && Bounded(run[j])
    && OpenStep(w, run[j], t, at, actions[j].ch) == Some(run[j + 1])
  }

  /** The call has got to its next point, or has returned. */
  ghost predicate MovesOn(w: World, run: seq<State>, actions: seq<Action>, i: nat, j: nat, t: Tid, name: string)
    requires j < |run|
  {
    && t < |run[j].threads|
    && match run[j].threads[t]
       case Idle => true
       case Opening(at) => OpenSoFar(w, run, actions, i, j, t, name, at)
       case _ => false
  }

  lemma LookupMoves(w: World, run: seq<State>, actions: seq<Action>, i: nat, j: nat, t: Tid, name: string)
    requires OwnStep(w, run, actions, i, j, t, OpenLookup(name))
    ensures MovesOn(w, run, actions, i, j + 1, t, name)
  {
    var s := run[j];
    assert LookupAt(run, actions, j, t, name, if name in s.byName then Some(s.byName[name]) else None);
  }

  lemma ReadMoves(w: World, run: seq<State>, actions: seq<Action>, i: nat, j: nat, t: Tid, name: string)
    requires OwnStep(w, run, actions, i, j, t, OpenRead(name))
    requires LookedUp(run, actions, i, j, t, name, None)
    ensures MovesOn(w, run, actions, i, j + 1, t, name)
  {
    hide LookedUp;
    var s, addr := run[j], w.addressOf(name);
    assert HashReadAt(w, run, actions, j, t, name, |s.ledger.History(addr)|, HashAt(s.ledger.hashes, addr));
  }

  lemma FetchMoves(w: World, run: seq<State>, actions: seq<Action>, i: nat, j: nat, t: Tid, name: string, seen: nat,
          f: Fetch)
    requires OwnStep(w, run, actions, i, j, t, OpenFetch(name, seen, f))
    requires OpenSoFar(w, run, actions, i, j + 1, t, name, OpenFetch(name, seen, f))
    requires HashRead(w, run, actions, i, j, t, name, seen, f.hash)
    ensures MovesOn(w, run, actions, i, j + 1, t, name)
  {
    hide HashRead;
    var s, ch := run[j], actions[j].ch;
    FetchTells(s.disk, t, name, f, ch);
    var (disk, p) := FetchStep(s.disk, t, name, f, ch).value;
    hide FetchStep;
    if p.Renamed? {
      assert RenamedAt(run, actions, j, t, name, f.hash);
    } else if p.Failed? {
      assert FailedAt(actions, j, t);
    }
  }

  /** Running keeps the hash, a rename adds it to the path, only Fail fails. */
  lemma FetchTells(disk: Disk, t: Tid, name: string, f: Fetch, ch: Choice)
    ensures FetchStep(disk, t, name, f, ch).Some? ==>
      var (disk', p) := FetchStep(disk, t, name, f, ch).value;
      && (p.Running? ==> p.fetch.hash == f.hash)
      && (p.Renamed? ==> |disk'.Links(name)| == |disk.Links(name)| + 1
                         && disk'.Links(name)[..|disk.Links(name)|] == disk.Links(name)
                         && disk'.Links(name)[|disk.Links(name)|].hash == f.hash)
      && (p.Failed? ==> ch.Fail?)
  {
  }

  lemma AttachMoves(w: World, run: seq<State>, actions: seq<Action>, i: nat, j: nat, t: Tid, name: string, seen: nat,
          hash: Hash)
    requires OwnStep(w, run, actions, i, j, t, OpenAttach(name, seen, hash))
    requires Fetched(w, run, actions, i, j, t, name, seen, hash)
    ensures MovesOn(w, run, actions, i, j + 1, t, name)
  {
    hide Fetched;
    var d := |run[j].dbs|;
    assert run[j + 1].dbs[d].feed.seen == seen && run[j + 1].dbs[d].feed.readHash == hash;
    assert MadeAt(w, run, actions, j, t, name, d);
  }

  lemma InstallMoves(w: World, run: seq<State>, actions: seq<Action>, i: nat, j: nat, t: Tid, name: string, d: DbId)
    requires OwnStep(w, run, actions, i, j, t, OpenInstall(d)) && IsNamed(run[j], d, name)
    requires Made(w, run, actions, i, j, t, name, d)
    ensures MovesOn(w, run, actions, i, j + 1, t, name)
  {
    hide Made;
    assert InstalledAt(run, actions, j, t, name, d);
  }

  lemma ConnMoves(w: World, run: seq<State>, actions: seq<Action>, i: nat, j: nat, t: Tid, name: string, d: DbId)
    requires OwnStep(w, run, actions, i, j, t, OpenConn(d))
    requires OpenSoFar(w, run, actions, i, j + 1, t, name, OpenConn(d))
    ensures MovesOn(w, run, actions, i, j + 1, t, name)
  {
    hide Answer;
    if actions[j].ch.Go? {
      assert ConnMadeAt(run, actions, j, t, |run[j].sql.conns|, d);
    }
  }

  lemma OtherMoves(w: World, run: seq<State>, actions: seq<Action>, i: nat, j: nat, t: Tid, name: string, at: OpenPc)
    requires OwnStep(w, run, actions, i, j, t, at) && OpenSoFar(w, run, actions, i, j + 1, t, name, at)
    requires !at.OpenLookup? && !at.OpenRead? && !at.OpenFetch? && !at.OpenAttach? && !at.OpenInstall? && !at.OpenConn?
    ensures MovesOn(w, run, actions, i, j + 1, t, name)
  {
    hide LookedUp, HashRead, Fetched, Made, Answer, OpenAttached, OpenFetching, OpenNewConn, OpenInstalled;
  }

  lemma OpenMoves(w: World, run: seq<State>, actions: seq<Action>, i: nat, j: nat, t: Tid, name: string, at: OpenPc)
    requires Behaviour(w, run, actions) && OwnStep(w, run, actions, i, j, t, at)
    requires OpenSoFar(w, run, actions, i, j, t, name, at)
    ensures MovesOn(w, run, actions, i, j + 1, t, name)
  {
    OpenSoFarLater(w, run, actions, i, j, t, name, at);
    hide OwnStep, MovesOn, LookedUp, HashRead, Fetched, Made, Answer, Behaviour;
    match at
    case OpenLookup(n) => LookupMoves(w, run, actions, i, j, t, name);
    case OpenRead(n) => ReadMoves(w, run, actions, i, j, t, name);
    case OpenFetch(n, seen, f) => FetchMoves(w, run, actions, i, j, t, name, seen, f);
    case OpenAttach(n, seen, hash) => AttachMoves(w, run, actions, i, j, t, name, seen, hash);
    case OpenInstall(d) => InstallMoves(w, run, actions, i, j, t, name, d);
    case OpenConn(d) => ConnMoves(w, run, actions, i, j, t, name, d);
    case _ => OtherMoves(w, run, actions, i, j, t, name, at);
  }

  lemma {:induction false} OpenAlways(w: World, run: seq<State>, actions: seq<Action>, i: nat, j: nat, t: Tid,
          name: string)
    requires w.Ideal() && Behaviour(w, run, actions) && InCall(run, actions, i, j, t, Opening(OpenStart(name)))
    ensures run[j].threads[t].Opening? && OpenSoFar(w, run, actions, i, j, t, name, run[j].threads[t].at)
  {
    hide Step, OpenSoFar;
    assert Next(w, run[j - 1], actions[j - 1]) == Some(run[j]);
    if j == i + 1 {
      OpenStarts(w, run, actions, i, t, name);
    } else {
      OpenAlways(w, run, actions, i, j - 1, t, name);
      var at := run[j - 1].threads[t].at;
      if IsStepOf(actions[j - 1], t) {
        InvAlways(w, run, actions, j - 1);
        OwnSteps(w, run, actions, i, j - 1, t, at);
        OpenMoves(w, run, actions, i, j - 1, t, name, at);
      } else {
        CallerWaits(w, run[j - 1], actions[j - 1], run[j], t);
        OpenSoFarLater(w, run, actions, i, j - 1, t, name, at);
      }
    }
  }

  lemma OpenStarts(w: World, run: seq<State>, actions: seq<Action>, i: nat, t: Tid, name: string)
    requires Behaviour(w, run, actions) && i < |actions| && actions[i] == Begin(t, Opening(OpenStart(name)))
    ensures t < |run[i + 1].threads| && run[i + 1].threads[t] == Opening(OpenStart(name))
    ensures OpenSoFar(w, run, actions, i, i + 1, t, name, OpenStart(name))
  {
    hide Step;
    assert Next(w, run[i], actions[i]) == Some(run[i + 1]);
  }

  lemma OwnSteps(w: World, run: seq<State>, actions: seq<Action>, i: nat, j: nat, t: Tid, at: OpenPc)
    requires Behaviour(w, run, actions) && i < j < |actions| && IsStepOf(actions[j], t) && Inv(w, run[j])
    requires t < |run[j].threads| && run[j].threads[t] == Opening(at)
    ensures OwnStep(w, run, actions, i, j, t, at)
  {
    hide OpenStep, Bounded;
    assert Next(w, run[j], actions[j]) == Some(run[j + 1]);
  }

  // ----------------------------------------------------------------- results

  /** The Conn a call of Open holds before it returns is one this call made, on
      the database held under the name it was called with: the one the map held
      when the call looked it up or, if it held none, the one this call made from
      the registry's hash of that moment, subscribed and installed. */
  lemma OpenAnswers(w: World, run: seq<State>, actions: seq<Action>, i: nat, j: nat, t: Tid, name: string, c: ConnId)
    requires w.Ideal() && Behaviour(w, run, actions) && InCall(run, actions, i, j, t, Opening(OpenStart(name)))
    requires run[j].threads[t] == Opening(OpenAdd(c)) || run[j].threads[t] == Opening(OpenAdding(c))
    ensures c < |run[j].sql.conns| && run[j].sql.conns[c].db < |run[j].dbs|
    ensures var d := run[j].sql.conns[c].db;
      && run[j].dbs[d].name == name && run[j].dbs[d].feed.addr == w.addressOf(name)
      && Answer(w, run, actions, i, j, t, name, d) && ConnMade(run, actions, i, j, t, c, d)
  {
    hide Step, Next, Answer, ConnMade;
    OpenAlways(w, run, actions, i, j, t, name);
    assert ConnFor(w, run, actions, i, j, t, name, c);
    AddressAlways(w, run, actions, j, run[j].sql.conns[c].db);
  }

  /** Conn c is registered with a database of that name. */
  ghost predicate OpenedFor(s: State, c: ConnId, name: string) {
    && c < |s.sql.conns| && s.sql.conns[c].joined.Some?
    && IsNamed(s, s.sql.conns[c].db, name) && c in s.dbs[s.sql.conns[c].db].pool.conns
  }

  lemma OnlyReturns(w: World, s: State, t: Tid, at: OpenPc, ch: Choice, s': State)
    requires t < |s.threads| && OpenStep(w, s, t, at, ch) == Some(s') && t < |s'.threads| && s'.threads[t].Idle?
    ensures ch.Fail? || at == OpenReturn(None) || (at.OpenAdding? && AddedNow(s, at.c, s'))
  {
    hide FetchStep;
  }

  ghost predicate AddedNow(s: State, c: ConnId, s': State) {
    || s'.panics == s.panics + 1
    || (&& s.HasConn(c) && s'.HasConn(c) && s'.sql.conns[c].db == s.sql.conns[c].db && s'.sql.conns[c].joined.Some?
        && s'.dbs[s.sql.conns[c].db].name == s.dbs[s.sql.conns[c].db].name
        && c in s'.dbs[s.sql.conns[c].db].pool.conns)
  }

  /** A call of Open returns with that Conn registered, unless a step of its own
      failed or addConn found the map of its database nil and panicked. */
  lemma OpenReturns(w: World, run: seq<State>, actions: seq<Action>, i: nat, j: nat, t: Tid, name: string)
    requires w.Ideal() && Behaviour(w, run, actions) && InCall(run, actions, i, j, t, Opening(OpenStart(name)))
    requires j < |actions| && IsStepOf(actions[j], t) && t < |run[j + 1].threads| && run[j + 1].threads[t].Idle?
    ensures HasFailed(actions, i, j + 1, t) || run[j + 1].panics == run[j].panics + 1
      || (run[j].threads[t].Opening? && run[j].threads[t].at.OpenAdding?
          && OpenedFor(run[j + 1], run[j].threads[t].at.c, name))
  {
    hide OpenStep, Next, Answer, ConnMade, Inv;
    OpenAlways(w, run, actions, i, j, t, name);
    InvAlways(w, run, actions, j);
    var at := run[j].threads[t].at;
    OwnSteps(w, run, actions, i, j, t, at);
    OnlyReturns(w, run[j], t, at, actions[j].ch, run[j + 1]);
    if actions[j].ch.Fail? { assert FailedAt(actions, j, t); }
  }

  /** From then on the Conn serves that name: it stays with its database, and
      whatever handle it uses was opened at the path of that name. */
  lemma OpenServes(w: World, run: seq<State>, actions: seq<Action>, j: nat, l: nat, c: ConnId, name: string)
    requires w.Ideal() && Behaviour(w, run, actions) && j <= l < |run|
    requires c < |run[j].sql.conns| && IsNamed(run[j], run[j].sql.conns[c].db, name)
    ensures c < |run[l].sql.conns| && run[l].sql.conns[c].db == run[j].sql.conns[c].db
    ensures IsNamed(run[l], run[l].sql.conns[c].db, name)
    ensures run[l].sql.conns[c].handle < |run[l].sql.handles|
    ensures var h := run[l].sql.handles[run[l].sql.conns[c].handle];
      h.name == name && h.gen < |run[l].disk.Links(name)| && run[l].disk.Links(name)[h.gen].inode == h.inode
  {
    hide Next;
    ConnKeptLater(w, run, actions, j, l, c);
    DbKeptLater(w, run, actions, j, l, run[j].sql.conns[c].db);
    InvAlways(w, run, actions, l);
    HandleOfConn(run[l], c);
  }

  lemma HandleOfConn(s: State, c: ConnId)
    requires Accounted(s) && c < |s.sql.conns|
    ensures s.sql.conns[c].handle < |s.sql.handles| && HandleOk(s, s.sql.conns[c].handle)
    ensures s.sql.handles[s.sql.conns[c].handle].conn == c
  {
    assert ConnOk(s, c);
  }

  lemma {:induction false} ConnKeptLater(w: World, run: seq<State>, actions: seq<Action>, j: nat, l: nat, c: ConnId)
    requires Behaviour(w, run, actions) && j <= l < |run|
    ensures ConnStays(run[j], run[l], c)
  {
    hide Next;
    if j < l {
      ConnKeptLater(w, run, actions, j, l - 1, c);
      assert Next(w, run[l - 1], actions[l - 1]) == Some(run[l]);
      ConnsStay(w, run[l - 1], actions[l - 1], run[l], c);
    }
  }
}
