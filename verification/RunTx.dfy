/**
 runTx itself (db/graph.go:79-162): two loops over a batch, with cached prepared
 statements, on a transaction that may fail at any call.
 */
module RunTx {
  import opened Values
  import opened QuadLaws
  import opened QuadTables
  import opened Statements

  /** A prepared statement and how often it was closed. */
  datatype Stmt = Stmt(sql: Sql, closes: nat)

  /** The sql.Tx. Call number c to the database fails with a Fault if faults(c),
      whatever schedule faults is. */
  class Tx {
    var tables: Tables
    var stmts: seq<Stmt>
    var execs: seq<Exec>
    var calls: nat
    const faults: nat -> bool

    constructor (tables: Tables, faults: nat -> bool)
      ensures this.tables == tables && this.faults == faults
      ensures stmts == [] && execs == [] && calls == 0
    {
      this.tables, this.faults := tables, faults;
      stmts, execs, calls := [], [], 0;
    }

    method Prepare(sql: Sql) returns (id: nat, err: Option<DbError>)
      modifies this
      ensures tables == old(tables) && execs == old(execs) && calls == old(calls) + 1
      ensures err == if faults(old(calls)) then Some(Fault) else None
      ensures id == |old(stmts)| && stmts == if err.None? then old(stmts) + [Stmt(sql, 0)] else old(stmts)
    {
      id := |stmts|;
      err := if faults(calls) then Some(Fault) else None;
      if err.None? { stmts := stmts + [Stmt(sql, 0)]; }
      calls := calls + 1;
    }

    method Exec(id: nat, args: seq<SqlValue>) returns (err: Option<DbError>)
      requires id < |stmts| && stmts[id].closes == 0
      modifies this
      ensures stmts == old(stmts) && calls == old(calls) + 1
      ensures execs == old(execs) + [Statements.Exec(stmts[id].sql, args)]
      ensures if faults(old(calls)) then tables == old(tables) && err == Some(Fault)
              else (tables, err) == Execute(old(tables), stmts[id].sql, args)
    {
      execs := execs + [Statements.Exec(stmts[id].sql, args)];
      if faults(calls) {
        err := Some(Fault);
      } else {
        var (after, e) := Execute(tables, stmts[id].sql, args);
        tables, err := after, e;
      }
      calls := calls + 1;
    }

    method Close(id: nat)
      requires id < |stmts|
      modifies this
      ensures tables == old(tables) && execs == old(execs) && calls == old(calls)
      ensures stmts == old(stmts)[id := Stmt(old(stmts)[id].sql, old(stmts)[id].closes + 1)]
    {
      stmts := stmts[id := Stmt(stmts[id].sql, stmts[id].closes + 1)];
    }
  }

  datatype TxError = InvalidRefInc(n: int) | NoValue | UnexpectedDelete | DeltaQuadExists | Db(e: DbError)

  const FAULT: Option<TxError> := Some(Db(Fault))

  /** The error reports why the batch was refused. */
  predicate Reports(err: Option<TxError>, refused: Option<Reason>) {
    match err
    case None => refused == None
    case Some(InvalidRefInc(n)) => refused == Some(NegativeRefs) && n < 0
    case Some(NoValue) => refused == Some(BadValue)
    case Some(UnexpectedDelete) => refused == Some(QuadDelete)
    case Some(DeltaQuadExists) => refused == Some(QuadExists)
    case Some(Db(e)) => refused == Some(NullHash) && e == Sqlite(Constraint, ConstraintNotNull)
  }

  /** Statements from `base` on are open and pairwise different, and the
      deferred closes are theirs, in order. */
  ghost predicate OpenStmts(stmts: seq<Stmt>, base: nat, deferred: seq<nat>) {
    && base + |deferred| == |stmts|
    && (forall i :: 0 <= i < |deferred| ==> deferred[i] == base + i)
    && (forall i :: base <= i < |stmts| ==> stmts[i].closes == 0)
    && (forall i, j :: base <= i < j < |stmts| ==> stmts[i].sql != stmts[j].sql)
  }

  /** The statement is one the caches hold. */
  predicate Cached(sql: Sql, insertValue: map<ValueType, nat>, updateValue: Option<nat>) {
    match sql
    case InsertNode(_, _) => exists t :: t in insertValue && sql == InsertSql(t)
    case UpdateRefs => updateValue.Some?
    case InsertQuad => false
  }

  /** Exactly the statements prepared so far are cached, under their own keys. */
  ghost predicate Caches(stmts: seq<Stmt>, base: nat, insertValue: map<ValueType, nat>, updateValue: Option<nat>) {
    && (forall t :: t in insertValue ==> base <= insertValue[t] < |stmts| && stmts[insertValue[t]].sql == InsertSql(t))
    && (updateValue.Some? ==> base <= updateValue.value < |stmts| && stmts[updateValue.value].sql == UpdateRefs)
    && (forall j :: base <= j < |stmts| ==> Cached(stmts[j].sql, insertValue, updateValue))
  }

  /** No database call from number `from` up to number `to` failed. */
  ghost predicate NoFaults(faults: nat -> bool, from: nat, to: nat) {
    forall c: nat :: from <= c < to ==> !faults(c)
  }

  lemma {:induction false} NodeExecsPrefix(nodes: map<NodeHash, Row>, ns: seq<NodeUpdate>, k: nat)
    requires k <= |ns|
    ensures NodeExecs(nodes, ns[..k]) <= NodeExecs(nodes, ns)
    ensures RunNodes(nodes, ns).Ok() ==> RunNodes(nodes, ns[..k]).Ok()
    ensures k < |ns| && !RunNodes(nodes, ns[..k + 1]).Ok() ==>
      RunNodes(nodes, ns) == RunNodes(nodes, ns[..k + 1]) && NodeExecs(nodes, ns) == NodeExecs(nodes, ns[..k + 1])
    decreases |ns|
  {
    if k == |ns| {
      assert ns[..k] == ns;
    } else {
      var before := ns[..|ns| - 1];
      NodeExecsPrefix(nodes, before, k);
      assert before[..k] == ns[..k];
      if k + 1 == |ns| {
        assert ns[..k + 1] == ns;
      } else {
        assert before[..k + 1] == ns[..k + 1];
      }
    }
  }

  lemma {:induction false} QuadExecsPrefix(quads: set<Quad>, qs: seq<QuadUpdate>, ignoreDup: bool, k: nat)
    requires k <= |qs|
    ensures QuadExecs(quads, qs[..k], ignoreDup) <= QuadExecs(quads, qs, ignoreDup)
    ensures k < |qs| && !RunQuads(quads, qs[..k + 1], ignoreDup).Ok() ==>
      RunQuads(quads, qs, ignoreDup) == RunQuads(quads, qs[..k + 1], ignoreDup)
      && QuadExecs(quads, qs, ignoreDup) == QuadExecs(quads, qs[..k + 1], ignoreDup)
    decreases |qs|
  {
    if k == |qs| {
      assert qs[..k] == qs;
    } else {
      var before := qs[..|qs| - 1];
      QuadExecsPrefix(quads, before, ignoreDup, k);
      assert before[..k] == qs[..k];
      if k + 1 == |qs| {
        assert qs[..k + 1] == qs;
      } else {
        assert before[..k + 1] == qs[..k + 1];
      }
    }
  }

  // ------------------------------------------------------------ the node loop

  /** Preparing a missing insert statement keeps the caches exact. */
  lemma CacheInsert(stmts: seq<Stmt>, base: nat, ins: map<ValueType, nat>, upd: Option<nat>, deferred: seq<nat>,
          t: ValueType)
    requires OpenStmts(stmts, base, deferred) && Caches(stmts, base, ins, upd) && t !in ins
    ensures OpenStmts(stmts + [Stmt(InsertSql(t), 0)], base, deferred + [|stmts|])
    ensures Caches(stmts + [Stmt(InsertSql(t), 0)], base, ins[t := |stmts|], upd)
  {
    var after := stmts + [Stmt(InsertSql(t), 0)];
    NotYetPrepared(stmts, base, ins, upd, t);
    hide InsertSql;
    forall j | base <= j < |after| ensures Cached(after[j].sql, ins[t := |stmts|], upd) {
      if j < |stmts| {
        assert Cached(stmts[j].sql, ins, upd);
        StillCached(stmts[j].sql, ins, upd, t, |stmts|);
      } else {
        assert t in ins[t := |stmts|];
      }
    }
  }

  lemma NotYetPrepared(stmts: seq<Stmt>, base: nat, ins: map<ValueType, nat>, upd: Option<nat>, t: ValueType)
    requires Caches(stmts, base, ins, upd) && t !in ins
    ensures forall j :: base <= j < |stmts| ==> stmts[j].sql != InsertSql(t)
  {
    forall j | base <= j < |stmts| ensures stmts[j].sql != InsertSql(t) {
      assert Cached(stmts[j].sql, ins, upd);
      if stmts[j].sql == InsertSql(t) {
        var u :| u in ins && stmts[j].sql == InsertSql(u);
        InsertSqlInjective(t, u);
      }
    }
  }

  lemma StillCached(sql: Sql, ins: map<ValueType, nat>, upd: Option<nat>, t: ValueType, id: nat)
    requires Cached(sql, ins, upd)
    ensures Cached(sql, ins[t := id], upd)
  {
    if sql.InsertNode? {
      var u :| u in ins && sql == InsertSql(u);
      assert u in ins[t := id];
    }
  }

  lemma CacheUpdate(stmts: seq<Stmt>, base: nat, ins: map<ValueType, nat>, deferred: seq<nat>)
    requires OpenStmts(stmts, base, deferred) && Caches(stmts, base, ins, None)
    ensures OpenStmts(stmts + [Stmt(UpdateRefs, 0)], base, deferred + [|stmts|])
    ensures Caches(stmts + [Stmt(UpdateRefs, 0)], base, ins, Some(|stmts|))
  {
    var after := stmts + [Stmt(UpdateRefs, 0)];
    forall j | base <= j < |after| ensures Cached(after[j].sql, ins, Some(|stmts|)) {
      if j < |stmts| { assert Cached(stmts[j].sql, ins, None); }
    }
  }

  /** What the node loop leaves behind: the tables and executions it started
      from and ended with, whether a database call failed, and its error. */
  ghost predicate NodesApplied(t: Tables, execs: seq<Exec>, t': Tables, execs': seq<Exec>, nodes: seq<NodeUpdate>,
          err: Option<TxError>) {
    && t'.quads == t.quads
    && if err != FAULT then
         && execs' == execs + NodeExecs(t.nodes, nodes)
         && var r := RunNodes(t.nodes, nodes); t'.nodes == r.table && Reports(err, r.refused)
       else
         && execs <= execs' <= execs + NodeExecs(t.nodes, nodes)
         && exists k :: NodesStopped(t, execs, t', execs', nodes, k)
  }

  /** The loop stopped at update k: the table is that of the updates before it,
      and what was executed is theirs and at most its own. */
  ghost predicate NodesStopped(t: Tables, execs: seq<Exec>, t': Tables, execs': seq<Exec>, nodes: seq<NodeUpdate>,
          k: nat) {
    && k < |nodes| && RunNodes(t.nodes, nodes[..k]).Ok() && t'.nodes == RunNodes(t.nodes, nodes[..k]).table
    && execs + NodeExecs(t.nodes, nodes[..k]) <= execs' <= execs + NodeExecs(t.nodes, nodes[..k + 1])
  }

  /** The cached insert for a value type, prepared if it is missing
      (db/graph.go:96-112). */
  method InsertStmt(tx: Tx, nodeKey: ValueType, arity: nat, ins: map<ValueType, nat>, ghost upd: Option<nat>,
          defs: seq<nat>, ghost base: nat)
    returns (stmt: nat, err: Option<DbError>, insertValue: map<ValueType, nat>, deferred: seq<nat>)
    requires OpenStmts(tx.stmts, base, defs) && Caches(tx.stmts, base, ins, upd) && arity == 2 + |Columns(nodeKey)|
    modifies tx
    ensures tx.tables == old(tx.tables) && tx.execs == old(tx.execs) && old(tx.stmts) <= tx.stmts
    ensures old(tx.calls) <= tx.calls
    ensures err == if NoFaults(tx.faults, old(tx.calls), tx.calls) then None else Some(Fault)
    ensures OpenStmts(tx.stmts, base, deferred) && Caches(tx.stmts, base, insertValue, upd)
    ensures err.None? ==> stmt < |tx.stmts| && tx.stmts[stmt] == Stmt(InsertSql(nodeKey), 0)
  {
    insertValue, deferred, err := ins, defs, None;
    if nodeKey in insertValue {
      stmt := insertValue[nodeKey];
    } else {
      var ph := Placeholders(arity);
      hide Columns, OpenStmts, Caches;
      stmt, err := tx.Prepare(InsertNode(Columns(nodeKey), ph));
      if err.None? {
        CacheInsert(old(tx.stmts), base, ins, upd, defs, nodeKey);
        deferred := deferred + [stmt];
        insertValue := insertValue[nodeKey := stmt];
      }
    }
  }

  /** The cached update, prepared if it is missing (db/graph.go:115-121). */
  method UpdateStmt(tx: Tx, ghost ins: map<ValueType, nat>, upd: Option<nat>, defs: seq<nat>, ghost base: nat)
    returns (err: Option<DbError>, updateValue: Option<nat>, deferred: seq<nat>)
    requires OpenStmts(tx.stmts, base, defs) && Caches(tx.stmts, base, ins, upd)
    modifies tx
    ensures tx.tables == old(tx.tables) && tx.execs == old(tx.execs) && old(tx.stmts) <= tx.stmts
    ensures old(tx.calls) <= tx.calls
    ensures err == if NoFaults(tx.faults, old(tx.calls), tx.calls) then None else Some(Fault)
    ensures OpenStmts(tx.stmts, base, deferred) && Caches(tx.stmts, base, ins, updateValue)
    ensures err.None? ==>
      updateValue.Some? && updateValue.value < |tx.stmts| && tx.stmts[updateValue.value] == Stmt(UpdateRefs, 0)
  {
    updateValue, deferred, err := upd, defs, None;
    if updateValue.None? {
      var u;
      u, err := tx.Prepare(UpdateRefs);
      if err.None? {
        CacheUpdate(old(tx.stmts), base, ins, defs);
        updateValue := Some(u);
        deferred := deferred + [u];
      }
    }
  }

  /** Inserts a node, or updates the one that is there (db/graph.go:96-128);
      `steps` counts the executions. */
  method UpsertNode(tx: Tx, n: NodeUpdate, nodeKey: ValueType, values: seq<SqlValue>, ins: map<ValueType, nat>,
          upd: Option<nat>, defs: seq<nat>, ghost base: nat)
    returns (e: Option<DbError>, insertValue: map<ValueType, nat>, updateValue: Option<nat>, deferred: seq<nat>,
          ghost steps: nat)
    requires OpenStmts(tx.stmts, base, defs) && Caches(tx.stmts, base, ins, upd)
    requires Valid(n) && InsertExec(n) == Statements.Exec(InsertSql(nodeKey), values)
    requires |values| == 2 + |Columns(nodeKey)|
    modifies tx
    ensures old(tx.stmts) <= tx.stmts && OpenStmts(tx.stmts, base, deferred)
    ensures Caches(tx.stmts, base, insertValue, updateValue) && old(tx.calls) <= tx.calls
    ensures e == if NoFaults(tx.faults, old(tx.calls), tx.calls) then None else Some(Fault)
    ensures steps <= |UpsertExecs(old(tx.tables.nodes), n)|
    ensures tx.execs == old(tx.execs) + UpsertExecs(old(tx.tables.nodes), n)[..steps]
    ensures e.None? ==>
      steps == |UpsertExecs(old(tx.tables.nodes), n)|
      && tx.tables == old(tx.tables).(nodes := PutNode(old(tx.tables.nodes), n))
    ensures e.Some? ==> tx.tables == old(tx.tables)
  {
    InsertNodeWorks(tx.tables, n);
    hide Execute, Bindable, PutNode, OpenStmts, Caches, Columns, NodeValues, InsertSql, InsertExec, Valid;
    updateValue, steps := upd, 0;
    var stmt;
    stmt, e, insertValue, deferred := InsertStmt(tx, nodeKey, |values|, ins, upd, defs, base);
    if e.Some? { return; }
    e := tx.Exec(stmt, values);
    steps := 1;
    if IsUniqueErr(e) {
      e, updateValue, deferred := UpdateStmt(tx, insertValue, upd, deferred, base);
      if e.Some? { return; }
      e := tx.Exec(updateValue.value, [Number(n.refInc), SqlHash(n.hash)]);
      steps := 2;
    }
  }

  /** The loop has dealt with the first i updates. */
  ghost predicate NodesDone(t: Tables, execs: seq<Exec>, t': Tables, execs': seq<Exec>, nodes: seq<NodeUpdate>,
          i: nat) {
    && i <= |nodes| && t'.quads == t.quads && RunNodes(t.nodes, nodes[..i]).Ok()
    && t'.nodes == RunNodes(t.nodes, nodes[..i]).table && execs' == execs + NodeExecs(t.nodes, nodes[..i])
  }

  lemma NodesEnd(t: Tables, execs: seq<Exec>, t': Tables, execs': seq<Exec>, nodes: seq<NodeUpdate>)
    requires NodesDone(t, execs, t', execs', nodes, |nodes|)
    ensures NodesApplied(t, execs, t', execs', nodes, None)
  {
    assert nodes[..|nodes|] == nodes;
  }

  lemma NodesRefused(t: Tables, execs: seq<Exec>, t': Tables, execs': seq<Exec>, nodes: seq<NodeUpdate>, i: nat,
          err: Option<TxError>)
    requires i < |nodes| && NodesDone(t, execs, t', execs', nodes, i)
    requires RefuseNode(nodes[i]).Some? && Reports(err, RefuseNode(nodes[i]))
    ensures NodesApplied(t, execs, t', execs', nodes, err)
  {
    assert nodes[..i + 1][..i] == nodes[..i];
    NodeExecsPrefix(t.nodes, nodes, i);
  }

  lemma NodesStep(t: Tables, execs: seq<Exec>, t': Tables, execs': seq<Exec>, nodes: seq<NodeUpdate>, i: nat)
    requires i < |nodes| && NodesDone(t, execs, t', execs', nodes, i) && RefuseNode(nodes[i]).None?
    ensures NodesDone(t, execs, t'.(nodes := PutNode(t'.nodes, nodes[i])), execs' + UpsertExecs(t'.nodes, nodes[i]),
                      nodes, i + 1)
  {
    hide UpsertExecs, PutNode, RefuseNode;
    assert nodes[..i + 1][..i] == nodes[..i] && nodes[..i + 1][i] == nodes[i];
  }

  /** Stopping part of the way through u leaves a prefix of the whole. */
  lemma PrefixChain<T>(base: seq<T>, now: seq<T>, u: seq<T>, done: seq<T>, all: seq<T>, steps: nat)
    requires now == base + done && now + u <= base + all && steps <= |u|
    ensures base <= now + u[..steps] <= base + all && now <= now + u[..steps] <= now + u
  {
  }

  lemma PrefixAfter<T>(base: seq<T>, done: seq<T>, all: seq<T>)
    requires done <= all
    ensures base + done <= base + all
  {
  }

  lemma NodesFaulted(t: Tables, execs: seq<Exec>, t': Tables, execs': seq<Exec>, nodes: seq<NodeUpdate>, i: nat,
          steps: nat)
    requires i < |nodes| && NodesDone(t, execs, t', execs', nodes, i) && RefuseNode(nodes[i]).None?
    requires steps <= |UpsertExecs(t'.nodes, nodes[i])|
    ensures NodesApplied(t, execs, t', execs' + UpsertExecs(t'.nodes, nodes[i])[..steps], nodes, FAULT)
  {
    var u := UpsertExecs(t'.nodes, nodes[i]);
    hide RunNodes, NodeExecs, PutNode, UpsertExecs, RefuseNode;
    NodesStep(t, execs, t', execs', nodes, i);
    NodeExecsPrefix(t.nodes, nodes, i + 1);
    assert execs' + u == execs + NodeExecs(t.nodes, nodes[..i + 1]);
    PrefixAfter(execs, NodeExecs(t.nodes, nodes[..i + 1]), NodeExecs(t.nodes, nodes));
    hide NodesDone;
    PrefixChain(execs, execs', u, NodeExecs(t.nodes, nodes[..i]), NodeExecs(t.nodes, nodes), steps);
    assert NodesStopped(t, execs, t', execs' + u[..steps], nodes, i);
  }

  /** The node loop (db/graph.go:81-129). */
  method ApplyNodes(tx: Tx, nodes: seq<NodeUpdate>) returns (err: Option<TxError>, deferred: seq<nat>)
    modifies tx
    ensures NodesApplied(old(tx.tables), old(tx.execs), tx.tables, tx.execs, nodes, err)
    ensures old(tx.calls) <= tx.calls && (err == FAULT <==> !NoFaults(tx.faults, old(tx.calls), tx.calls))
    ensures old(tx.stmts) <= tx.stmts && OpenStmts(tx.stmts, |old(tx.stmts)|, deferred)
    ensures NoQuadStmts(tx.stmts, |old(tx.stmts)|)
  {
    hide NodesDone, NodesApplied, OpenStmts, Caches, NodeValues, UpsertExecs, InsertExec, InsertSql, PutNode;
    hide NoQuadStmts;
    var insertValue: map<ValueType, nat> := map[];
    var updateValue: Option<nat> := None;
    deferred := [];
    LoopStarts(tx.tables, tx.execs, nodes, tx.stmts);
    for i := 0 to |nodes|
      invariant old(tx.stmts) <= tx.stmts && old(tx.calls) <= tx.calls
      invariant OpenStmts(tx.stmts, |old(tx.stmts)|, deferred)
      invariant Caches(tx.stmts, |old(tx.stmts)|, insertValue, updateValue)
      invariant NoFaults(tx.faults, old(tx.calls), tx.calls)
      invariant NodesDone(old(tx.tables), old(tx.execs), tx.tables, tx.execs, nodes, i)
    {
      var n := nodes[i];
      ghost var t, execs := tx.tables, tx.execs;
      CachesNoQuads(tx.stmts, |old(tx.stmts)|, insertValue, updateValue);
      if n.refInc < 0 {
        err := Some(InvalidRefInc(n.refInc));
        NodesRefused(old(tx.tables), old(tx.execs), t, execs, nodes, i, err);
        return;
      }
      var nv := NodeValues(n.hash, n.val);
      if nv.None? {
        err := Some(NoValue);
        NodesRefused(old(tx.tables), old(tx.execs), t, execs, nodes, i, err);
        return;
      }
      var (nodeKey, vals) := nv.value;
      InsertExecIs(n);
      var e; ghost var steps;
      e, insertValue, updateValue, deferred, steps :=
        UpsertNode(tx, n, nodeKey, [Number(n.refInc)] + vals, insertValue, updateValue, deferred, |old(tx.stmts)|);
      if e.Some? {
        err := Some(Db(e.value));
        NodesFaulted(old(tx.tables), old(tx.execs), t, execs, nodes, i, steps);
        CachesNoQuads(tx.stmts, |old(tx.stmts)|, insertValue, updateValue);
        return;
      }
      NodesStep(old(tx.tables), old(tx.execs), t, execs, nodes, i);
      assert UpsertExecs(t.nodes, n)[..steps] == UpsertExecs(t.nodes, n);
    }
    CachesNoQuads(tx.stmts, |old(tx.stmts)|, insertValue, updateValue);
    NodesEnd(old(tx.tables), old(tx.execs), tx.tables, tx.execs, nodes);
    err := None;
  }

  lemma LoopStarts(t: Tables, execs: seq<Exec>, nodes: seq<NodeUpdate>, stmts: seq<Stmt>)
    ensures NodesDone(t, execs, t, execs, nodes, 0)
    ensures OpenStmts(stmts, |stmts|, []) && Caches(stmts, |stmts|, map[], None)
  {
  }

  lemma InsertExecIs(n: NodeUpdate)
    requires Valid(n)
    ensures var (t, vals) := NodeValues(n.hash, n.val).value;
      InsertExec(n) == Statements.Exec(InsertSql(t), [Number(n.refInc)] + vals) && |vals| == 1 + |Columns(t)|
  {
  }

  ghost predicate NoQuadStmts(stmts: seq<Stmt>, base: nat) {
    forall i :: base <= i < |stmts| ==> !stmts[i].sql.InsertQuad?
  }

  lemma CachesNoQuads(stmts: seq<Stmt>, base: nat, ins: map<ValueType, nat>, upd: Option<nat>)
    requires Caches(stmts, base, ins, upd)
    ensures NoQuadStmts(stmts, base)
  {
    forall i | base <= i < |stmts| ensures !stmts[i].sql.InsertQuad? { assert Cached(stmts[i].sql, ins, upd); }
  }

  // ------------------------------------------------------------ the quad loop

  /** What the quad loop leaves behind. */
  ghost predicate QuadsApplied(t: Tables, execs: seq<Exec>, t': Tables, execs': seq<Exec>, quads: seq<QuadUpdate>,
          ignoreDup: bool, err: Option<TxError>) {
    && t'.nodes == t.nodes
    && if err != FAULT then
         && execs' == execs + QuadExecs(t.quads, quads, ignoreDup)
         && var r := RunQuads(t.quads, quads, ignoreDup); t'.quads == r.table && Reports(err, r.refused)
       else
         && execs <= execs' <= execs + QuadExecs(t.quads, quads, ignoreDup)
         && exists k :: QuadsStopped(t, execs, t', execs', quads, ignoreDup, k)
  }

  ghost predicate QuadsStopped(t: Tables, execs: seq<Exec>, t': Tables, execs': seq<Exec>, quads: seq<QuadUpdate>,
          ignoreDup: bool, k: nat) {
    && k < |quads| && RunQuads(t.quads, quads[..k], ignoreDup).Ok()
    && t'.quads == RunQuads(t.quads, quads[..k], ignoreDup).table
    && execs + QuadExecs(t.quads, quads[..k], ignoreDup) <= execs'
    && execs' <= execs + QuadExecs(t.quads, quads[..k + 1], ignoreDup)
  }

  ghost predicate QuadsDone(t: Tables, execs: seq<Exec>, t': Tables, execs': seq<Exec>, quads: seq<QuadUpdate>,
          ignoreDup: bool, i: nat) {
    && i <= |quads| && t'.nodes == t.nodes && RunQuads(t.quads, quads[..i], ignoreDup).Ok()
    && t'.quads == RunQuads(t.quads, quads[..i], ignoreDup).table
    && execs' == execs + QuadExecs(t.quads, quads[..i], ignoreDup)
  }

  lemma QuadsEnd(t: Tables, execs: seq<Exec>, t': Tables, execs': seq<Exec>, quads: seq<QuadUpdate>, ignoreDup: bool)
    requires QuadsDone(t, execs, t', execs', quads, ignoreDup, |quads|)
    ensures QuadsApplied(t, execs, t', execs', quads, ignoreDup, None)
  {
    assert quads[..|quads|] == quads;
  }

  lemma QuadsRefused(t: Tables, execs: seq<Exec>, t': Tables, execs': seq<Exec>, quads: seq<QuadUpdate>,
          ignoreDup: bool, i: nat, err: Option<TxError>)
    requires i < |quads| && QuadsDone(t, execs, t', execs', quads, ignoreDup, i)
    requires RefuseQuad(t'.quads, quads[i], ignoreDup).Some? && Reports(err, RefuseQuad(t'.quads, quads[i], ignoreDup))
    ensures var more := if quads[i].del then [] else [QuadExec(quads[i].quad)];
      QuadsApplied(t, execs, t', execs' + more, quads, ignoreDup, err)
  {
    assert quads[..i + 1][..i] == quads[..i];
    QuadExecsPrefix(t.quads, quads, ignoreDup, i);
  }

  lemma QuadsStep(t: Tables, execs: seq<Exec>, t': Tables, execs': seq<Exec>, quads: seq<QuadUpdate>,
          ignoreDup: bool, i: nat)
    requires i < |quads| && QuadsDone(t, execs, t', execs', quads, ignoreDup, i)
    requires RefuseQuad(t'.quads, quads[i], ignoreDup).None?
    ensures QuadsDone(t, execs, t'.(quads := t'.quads + {quads[i].quad}), execs' + [QuadExec(quads[i].quad)], quads,
                      ignoreDup, i + 1)
  {
    assert quads[..i + 1][..i] == quads[..i];
  }

  lemma QuadsFaulted(t: Tables, execs: seq<Exec>, t': Tables, execs': seq<Exec>, quads: seq<QuadUpdate>,
          ignoreDup: bool, i: nat, steps: nat)
    requires i < |quads| && QuadsDone(t, execs, t', execs', quads, ignoreDup, i) && !quads[i].del && steps <= 1
    ensures QuadsApplied(t, execs, t', execs' + [QuadExec(quads[i].quad)][..steps], quads, ignoreDup, FAULT)
  {
    var u := [QuadExec(quads[i].quad)];
    assert quads[..i + 1][..i] == quads[..i];
    QuadExecsPrefix(t.quads, quads, ignoreDup, i + 1);
    assert QuadExecs(t.quads, quads[..i + 1], ignoreDup) == QuadExecs(t.quads, quads[..i], ignoreDup) + u;
    hide RunQuads, QuadExecs, QuadExec;
    assert execs' + u == execs + QuadExecs(t.quads, quads[..i + 1], ignoreDup);
    PrefixChain(execs, execs', u, QuadExecs(t.quads, quads[..i], ignoreDup), QuadExecs(t.quads, quads, ignoreDup),
                steps);
    assert QuadsStopped(t, execs, t', execs' + u[..steps], quads, ignoreDup, i);
  }

  /** The quad insert, once it has been prepared. */
  ghost predicate QuadCached(stmts: seq<Stmt>, base: nat, insertQuad: Option<nat>) {
    match insertQuad
    case None => NoQuadStmts(stmts, base)
    case Some(id) => base <= id < |stmts| && stmts[id] == Stmt(InsertQuad, 0)
  }

  lemma CacheQuad(stmts: seq<Stmt>, base: nat, deferred: seq<nat>)
    requires OpenStmts(stmts, base, deferred) && NoQuadStmts(stmts, base)
    ensures OpenStmts(stmts + [Stmt(InsertQuad, 0)], base, deferred + [|stmts|])
    ensures QuadCached(stmts + [Stmt(InsertQuad, 0)], base, Some(|stmts|))
  {
  }

  /** The quad loop (db/graph.go:131-160). */
  method ApplyQuads(tx: Tx, quads: seq<QuadUpdate>, ignoreDup: bool, defs: seq<nat>, ghost base: nat)
    returns (err: Option<TxError>, deferred: seq<nat>)
    requires OpenStmts(tx.stmts, base, defs) && NoQuadStmts(tx.stmts, base)
    modifies tx
    ensures QuadsApplied(old(tx.tables), old(tx.execs), tx.tables, tx.execs, quads, ignoreDup, err)
    ensures old(tx.calls) <= tx.calls && (err == FAULT <==> !NoFaults(tx.faults, old(tx.calls), tx.calls))
    ensures old(tx.stmts) <= tx.stmts && OpenStmts(tx.stmts, base, deferred)
  {
    hide QuadsDone, QuadsApplied, OpenStmts, NoQuadStmts, Execute;
    var insertQuad: Option<nat> := None;
    deferred := defs;
    QuadsStart(tx.tables, tx.execs, quads, ignoreDup);
    for i := 0 to |quads|
      invariant old(tx.stmts) <= tx.stmts && old(tx.calls) <= tx.calls
      invariant OpenStmts(tx.stmts, base, deferred) && QuadCached(tx.stmts, base, insertQuad)
      invariant NoFaults(tx.faults, old(tx.calls), tx.calls)
      invariant QuadsDone(old(tx.tables), old(tx.execs), tx.tables, tx.execs, quads, ignoreDup, i)
    {
      var d := quads[i];
      ghost var t, execs := tx.tables, tx.execs;
      if d.del {
        err := Some(UnexpectedDelete);
        assert execs + [] == execs;
        QuadsRefused(old(tx.tables), old(tx.execs), t, execs, quads, ignoreDup, i, err);
        return;
      }
      if insertQuad.None? {
        CacheQuad(tx.stmts, base, deferred);
        var id, e := tx.Prepare(InsertQuad);
        if e.Some? {
          err := Some(Db(e.value));
          QuadsFaulted(old(tx.tables), old(tx.execs), t, execs, quads, ignoreDup, i, 0);
          assert execs + [QuadExec(d.quad)][..0] == execs;
          return;
        }
        deferred := deferred + [id];
        insertQuad := Some(id);
      }
      InsertQuadWorks(t, d.quad);
      var e := tx.Exec(insertQuad.value, d.quad.Dirs());
      assert tx.execs == execs + [QuadExec(d.quad)];
      if e == Some(Fault) {
        QuadsFaulted(old(tx.tables), old(tx.execs), t, execs, quads, ignoreDup, i, 1);
        assert [QuadExec(d.quad)][..1] == [QuadExec(d.quad)];
      } else if RefuseQuad(t.quads, d, ignoreDup).None? {
        QuadsStep(old(tx.tables), old(tx.execs), t, execs, quads, ignoreDup, i);
      }
      if IsUniqueErr(e) {
        if !ignoreDup {
          err := Some(DeltaQuadExists);
          QuadsRefused(old(tx.tables), old(tx.execs), t, execs, quads, ignoreDup, i, err);
          return;
        }
        assert tx.tables == t.(quads := t.quads + {d.quad});
      } else if e.Some? {
        err := Some(Db(e.value));
        if e != Some(Fault) {
          QuadsRefused(old(tx.tables), old(tx.execs), t, execs, quads, ignoreDup, i, err);
        }
        return;
      }
    }
    QuadsEnd(old(tx.tables), old(tx.execs), tx.tables, tx.execs, quads, ignoreDup);
    err := None;
  }

  lemma QuadsStart(t: Tables, execs: seq<Exec>, quads: seq<QuadUpdate>, ignoreDup: bool)
    ensures QuadsDone(t, execs, t, execs, quads, ignoreDup, 0)
  {
  }

  // ------------------------------------------------------------ the whole call

  /** What a call that prepared every statement afresh would execute. */
  function BatchExecs(t: Tables, b: Batch): seq<Exec> {
    NodeExecs(t.nodes, b.nodes) +
    if RunNodes(t.nodes, b.nodes).Ok() then QuadExecs(t.quads, b.quads, b.ignoreDup) else []
  }

  /** The call did what the batch means, or, when a database call failed,
      stopped after a part of it. */
  ghost predicate Applied(t: Tables, execs: seq<Exec>, t': Tables, execs': seq<Exec>, b: Batch, err: Option<TxError>) {
    if err != FAULT then
      t' == Run(t, b).table && Reports(err, Run(t, b).refused) && execs' == execs + BatchExecs(t, b)
    else
      && execs <= execs' <= execs + BatchExecs(t, b)
      && exists k :: StoppedAt(t, execs, t', execs', b, k)
  }

  /** The call stopped at element k: the tables are those of the elements before
      it, and what was executed is theirs and at most its own. */
  ghost predicate StoppedAt(t: Tables, execs: seq<Exec>, t': Tables, execs': seq<Exec>, b: Batch, k: nat) {
    && k < |b.nodes| + |b.quads| && Run(t, Prefix(b, k)) == Outcome(t', k, None)
    && execs + BatchExecs(t, Prefix(b, k)) <= execs' <= execs + BatchExecs(t, Prefix(b, k + 1))
  }

  lemma PrefixExecs(t: Tables, b: Batch, k: nat)
    requires k <= |b.nodes| + |b.quads|
    ensures BatchExecs(t, Prefix(b, k)) ==
      if k <= |b.nodes| then NodeExecs(t.nodes, b.nodes[..k])
      else NodeExecs(t.nodes, b.nodes)
           + if RunNodes(t.nodes, b.nodes).Ok() then QuadExecs(t.quads, b.quads[..k - |b.nodes|], b.ignoreDup) else []
  {
    assert QuadExecs(t.quads, [], b.ignoreDup) == [];
    hide RunNodes, NodeExecs, QuadExecs;
  }

  lemma OnlyNodes(t: Tables, execs: seq<Exec>, t': Tables, execs': seq<Exec>, b: Batch, err: Option<TxError>)
    requires NodesApplied(t, execs, t', execs', b.nodes, err) && err != None
    ensures Applied(t, execs, t', execs', b, err)
  {
    hide RunNodes, NodeExecs, QuadExecs, RunQuads;
    if err == FAULT {
      var k: nat :| NodesStopped(t, execs, t', execs', b.nodes, k);
      FaultAmongNodes(t, t', b, k);
      PrefixExecs(t, b, k);
      PrefixExecs(t, b, k + 1);
      assert StoppedAt(t, execs, t', execs', b, k);
      assert execs <= execs' <= execs + BatchExecs(t, b) by {
        assert execs + NodeExecs(t.nodes, b.nodes) <= execs + BatchExecs(t, b);
      }
    } else {
      assert BatchExecs(t, b) == NodeExecs(t.nodes, b.nodes);
    }
  }

  lemma FaultAmongNodes(t: Tables, t': Tables, b: Batch, k: nat)
    requires k < |b.nodes| && RunNodes(t.nodes, b.nodes[..k]).Ok()
    requires t' == Tables(RunNodes(t.nodes, b.nodes[..k]).table, t.quads)
    ensures Run(t, Prefix(b, k)) == Outcome(t', k, None)
  {
  }

  lemma BothLoops(t: Tables, execs: seq<Exec>, mid: Tables, midExecs: seq<Exec>, t': Tables, execs': seq<Exec>,
          b: Batch, err: Option<TxError>)
    requires NodesApplied(t, execs, mid, midExecs, b.nodes, None)
    requires QuadsApplied(mid, midExecs, t', execs', b.quads, b.ignoreDup, err)
    ensures Applied(t, execs, t', execs', b, err)
  {
    hide RunNodes, NodeExecs, QuadExecs, RunQuads;
    var ne, qe := NodeExecs(t.nodes, b.nodes), QuadExecs(t.quads, b.quads, b.ignoreDup);
    assert execs + (ne + qe) == (execs + ne) + qe;
    if err == FAULT {
      var k: nat :| QuadsStopped(mid, midExecs, t', execs', b.quads, b.ignoreDup, k);
      FaultAmongQuads(t, mid, t', b, k);
      QuadsStoppedAt(t, execs, mid, midExecs, t', execs', b, k);
      assert execs <= midExecs;
    }
  }

  lemma QuadsStoppedAt(t: Tables, execs: seq<Exec>, mid: Tables, midExecs: seq<Exec>, t': Tables, execs': seq<Exec>,
          b: Batch, k: nat)
    requires midExecs == execs + NodeExecs(t.nodes, b.nodes) && mid.quads == t.quads && RunNodes(t.nodes, b.nodes).Ok()
    requires QuadsStopped(mid, midExecs, t', execs', b.quads, b.ignoreDup, k)
    requires Run(t, Prefix(b, |b.nodes| + k)) == Outcome(t', |b.nodes| + k, None)
    ensures StoppedAt(t, execs, t', execs', b, |b.nodes| + k)
  {
    hide Run, Prefix, BatchExecs, NodeExecs, QuadExecs, RunNodes, RunQuads;
    QuadPrefixExecs(t, b, k);
    QuadPrefixExecs(t, b, k + 1);
    Regroup(execs, NodeExecs(t.nodes, b.nodes), QuadExecs(t.quads, b.quads[..k], b.ignoreDup),
            QuadExecs(t.quads, b.quads[..k + 1], b.ignoreDup), execs');
  }

  lemma Regroup<T>(base: seq<T>, one: seq<T>, low: seq<T>, high: seq<T>, now: seq<T>)
    requires base + one + low <= now <= base + one + high
    ensures base + (one + low) <= now <= base + (one + high)
  {
    assert base + (one + low) == base + one + low && base + (one + high) == base + one + high;
  }

  lemma QuadPrefixExecs(t: Tables, b: Batch, k: nat)
    requires k <= |b.quads| && RunNodes(t.nodes, b.nodes).Ok()
    ensures BatchExecs(t, Prefix(b, |b.nodes| + k)) ==
      NodeExecs(t.nodes, b.nodes) + QuadExecs(t.quads, b.quads[..k], b.ignoreDup)
  {
    PrefixExecs(t, b, |b.nodes| + k);
    assert b.nodes[..|b.nodes|] == b.nodes;
    if k == 0 {
      assert b.quads[..0] == [] && QuadExecs(t.quads, [], b.ignoreDup) == [];
    }
    hide BatchExecs, Prefix, NodeExecs, QuadExecs, RunNodes, RunQuads;
  }

  lemma FaultAmongQuads(t: Tables, mid: Tables, t': Tables, b: Batch, k: nat)
    requires RunNodes(t.nodes, b.nodes).Ok() && mid == Tables(RunNodes(t.nodes, b.nodes).table, t.quads)
    requires k < |b.quads|
    requires RunQuads(t.quads, b.quads[..k], b.ignoreDup).Ok() && t'.nodes == mid.nodes
    requires t'.quads == RunQuads(t.quads, b.quads[..k], b.ignoreDup).table
    ensures Run(t, Prefix(b, |b.nodes| + k)) == Outcome(t', |b.nodes| + k, None)
  {
    assert b.nodes[..|b.nodes|] == b.nodes;
    if k == 0 { assert b.quads[..0] == []; }
  }

  /** The deferred closes, last first. */
  method CloseAll(tx: Tx, deferred: seq<nat>, ghost base: nat)
    requires OpenStmts(tx.stmts, base, deferred)
    modifies tx
    ensures tx.tables == old(tx.tables) && tx.execs == old(tx.execs) && tx.calls == old(tx.calls)
    ensures |tx.stmts| == |old(tx.stmts)| && tx.stmts[..base] == old(tx.stmts)[..base]
    ensures forall j :: base <= j < |tx.stmts| ==> tx.stmts[j] == old(tx.stmts)[j].(closes := 1)
  {
    var i := |deferred|;
    while i > 0
      invariant 0 <= i <= |deferred| && base + |deferred| == |old(tx.stmts)|
      invariant tx.tables == old(tx.tables) && tx.execs == old(tx.execs) && tx.calls == old(tx.calls)
      invariant |tx.stmts| == |old(tx.stmts)| && tx.stmts[..base + i] == old(tx.stmts)[..base + i]
      invariant forall j :: base + i <= j < |tx.stmts| ==> tx.stmts[j] == old(tx.stmts)[j].(closes := 1)
    {
      i := i - 1;
      assert tx.stmts[base + i] == tx.stmts[..base + i + 1][base + i] == old(tx.stmts)[base + i];
      tx.Close(deferred[i]);
    }
  }

  /** runTx. Its statements are cached, yet on every schedule of failures it
      executes what preparing each statement afresh would have executed, and on
      every exit path closes each statement it prepared exactly once, having
      prepared none twice. */
  method RunTx(tx: Tx, b: Batch) returns (err: Option<TxError>)
    modifies tx
    ensures Applied(old(tx.tables), old(tx.execs), tx.tables, tx.execs, b, err)
    ensures err == FAULT <==> !NoFaults(tx.faults, old(tx.calls), tx.calls)
    ensures |old(tx.stmts)| <= |tx.stmts| && tx.stmts[..|old(tx.stmts)|] == old(tx.stmts)
    ensures forall i :: |old(tx.stmts)| <= i < |tx.stmts| ==> tx.stmts[i].closes == 1
    ensures forall i, j :: |old(tx.stmts)| <= i < j < |tx.stmts| ==> tx.stmts[i].sql != tx.stmts[j].sql
  {
    hide Applied, NodesApplied, QuadsApplied, NoQuadStmts;
    var deferred;
    err, deferred := ApplyNodes(tx, b.nodes);
    if err.Some? {
      OnlyNodes(old(tx.tables), old(tx.execs), tx.tables, tx.execs, b, err);
    } else {
      ghost var mid, midExecs := tx.tables, tx.execs;
      err, deferred := ApplyQuads(tx, b.quads, b.ignoreDup, deferred, |old(tx.stmts)|);
      BothLoops(old(tx.tables), old(tx.execs), mid, midExecs, tx.tables, tx.execs, b, err);
    }
    CloseAll(tx, deferred, |old(tx.stmts)|);
  }
}
