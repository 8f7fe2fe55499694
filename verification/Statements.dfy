/** SQL statements, what SQLite does with them, and those runTx must execute. */
module Statements {
  import opened Values
  import opened QuadTables

  /** The three statements of runTx, as text with its column and placeholder
      lists left apart. */
  datatype Sql = InsertNode(columns: seq<string>, placeholders: seq<string>) | UpdateRefs | InsertQuad

  function Decimal(n: nat): string {
    (if n < 10 then "" else Decimal(n / 10)) + ["0123456789"[n % 10]]
  }

  /** QueryDialect.Placeholder. */
  function Placeholder(n: nat): string {
    "$" + Decimal(n)
  }

  function Placeholders(n: nat): (ph: seq<string>)
    ensures |ph| == n
  {
    seq(n, i requires 0 <= i < n => Placeholder(i + 1))
  }

  /** The statement a fresh Prepare gives for a value type. */
  function InsertSql(t: ValueType): Sql {
    InsertNode(Columns(t), Placeholders(2 + |Columns(t)|))
  }

  // ------------------------------------------------------------------- errors

  datatype Code = Constraint | OtherCode
  datatype Extended = ConstraintUnique | ConstraintPrimaryKey | ConstraintNotNull | OtherExtended

  /** An error of the SQLite driver, or any other, such as a failing disk. */
  datatype DbError = Sqlite(code: Code, extended: Extended) | Fault

  predicate IsUniqueErr(e: Option<DbError>) {
    e.Some? && e.value.Sqlite? && e.value.code == Constraint
    && (e.value.extended == ConstraintUnique || e.value.extended == ConstraintPrimaryKey)
  }

  // ---------------------------------------------------------------- execution

  predicate Bindable(sql: Sql, args: seq<SqlValue>) {
    match sql
    case InsertNode(cols, ph) =>
      && |ph| == |args| == |cols| + 2 && (forall i :: 0 <= i < |ph| ==> ph[i] == Placeholder(i + 1))
      && args[0].Number? && args[1].Key?
    case UpdateRefs => |args| == 2 && args[0].Number? && args[1].Key?
    case InsertQuad => |args| == 4 && forall i :: 0 <= i < 4 ==> args[i].Key? || args[i].Null?
  }

  function HashOfSql(v: SqlValue): nat {
    if v.Key? then v.h else 0
  }

  /** SQLite: the primary key of nodes, the unique quads, the NOT NULL columns. */
  function Execute(t: Tables, sql: Sql, args: seq<SqlValue>): (Tables, Option<DbError>) {
    if !Bindable(sql, args) then (t, Some(Sqlite(OtherCode, OtherExtended)))
    else
      match sql
      case InsertNode(cols, _) =>
        if args[1].h in t.nodes then (t, Some(Sqlite(Constraint, ConstraintPrimaryKey)))
        else (t.(nodes := t.nodes[args[1].h := Row(args[0].n, Zip(cols, args[2..]))]), None)
      case UpdateRefs =>
        if args[1].h in t.nodes then
          (t.(nodes := t.nodes[args[1].h := t.nodes[args[1].h].(refs := args[0].n)]), None)
        else (t, None)
      case InsertQuad =>
        var q := Quad(HashOfSql(args[0]), HashOfSql(args[1]), HashOfSql(args[2]), HashOfSql(args[3]));
        if !q.Complete() then (t, Some(Sqlite(Constraint, ConstraintNotNull)))
        else if q in t.quads then (t, Some(Sqlite(Constraint, ConstraintUnique)))
        else (t.(quads := t.quads + {q}), None)
  }

  /** One execution of a statement. */
  datatype Exec = Exec(sql: Sql, args: seq<SqlValue>)

  function InsertExec(n: NodeUpdate): Exec
    requires Valid(n)
  {
    var (t, values) := NodeValues(n.hash, n.val).value;
    Exec(InsertSql(t), [Number(n.refInc)] + values)
  }

  function UpdateExec(n: NodeUpdate): Exec {
    Exec(UpdateRefs, [Number(n.refInc), SqlHash(n.hash)])
  }

  function QuadExec(q: Quad): Exec {
    Exec(InsertQuad, q.Dirs())
  }

  /** The executions for an accepted node update. */
  function UpsertExecs(nodes: map<NodeHash, Row>, n: NodeUpdate): seq<Exec>
    requires Valid(n)
  {
    if n.hash in nodes then [InsertExec(n), UpdateExec(n)] else [InsertExec(n)]
  }

  /** What a program that prepares every statement afresh executes. */
  function NodeExecs(nodes: map<NodeHash, Row>, ns: seq<NodeUpdate>): seq<Exec> {
    if ns == [] then []
    else
      var r := RunNodes(nodes, ns[..|ns| - 1]);
      var n := ns[|ns| - 1];
      NodeExecs(nodes, ns[..|ns| - 1]) +
      if !r.Ok() || RefuseNode(n).Some? then [] else UpsertExecs(r.table, n)
  }

  function QuadExecs(quads: set<Quad>, qs: seq<QuadUpdate>, ignoreDup: bool): seq<Exec> {
    if qs == [] then []
    else
      var r := RunQuads(quads, qs[..|qs| - 1], ignoreDup);
      var q := qs[|qs| - 1];
      QuadExecs(quads, qs[..|qs| - 1], ignoreDup) + if !r.Ok() || q.del then [] else [QuadExec(q.quad)]
  }

  // ------------------------------------------------ the statements are right

  /** Column, placeholder and argument counts of every node insert agree, and it
      stores the node, or fails on the primary key and the update then sets its
      reference count. */
  lemma InsertNodeWorks(t: Tables, n: NodeUpdate)
    requires Valid(n)
    ensures var e := InsertExec(n);
      && |e.sql.placeholders| == |e.args| == |e.sql.columns| + 2 && Bindable(e.sql, e.args)
      && Execute(t, e.sql, e.args) ==
         if n.hash in t.nodes then (t, Some(Sqlite(Constraint, ConstraintPrimaryKey)))
         else (t.(nodes := PutNode(t.nodes, n)), None)
    ensures n.hash in t.nodes ==>
      Execute(t, UpdateRefs, UpdateExec(n).args) == (t.(nodes := PutNode(t.nodes, n)), None)
  {
    var (vt, values) := NodeValues(n.hash, n.val).value;
    assert ([Number(n.refInc)] + values)[2..] == values[1..];
  }

  lemma InsertQuadWorks(t: Tables, q: Quad)
    ensures Execute(t, InsertQuad, q.Dirs()) ==
      if !q.Complete() then (t, Some(Sqlite(Constraint, ConstraintNotNull)))
      else if q in t.quads then (t, Some(Sqlite(Constraint, ConstraintUnique)))
      else (t.(quads := t.quads + {q}), None)
  {
  }

  /** Different positions have different placeholders, so each argument is bound
      to its own column. */
  lemma {:induction false} PlaceholderInjective(m: nat, n: nat)
    requires Placeholder(m) == Placeholder(n)
    ensures m == n
  {
    assert Placeholder(m)[1..] == Decimal(m) && Placeholder(n)[1..] == Decimal(n);
    DecimalInjective(m, n);
  }

  lemma {:induction false} DecimalInjective(m: nat, n: nat)
    requires Decimal(m) == Decimal(n)
    ensures m == n
  {
    LastDigit(m);
    LastDigit(n);
    if m >= 10 && n >= 10 {
      assert Decimal(m)[..|Decimal(m)| - 1] == Decimal(m / 10) && Decimal(n)[..|Decimal(n)| - 1] == Decimal(n / 10);
      DecimalInjective(m / 10, n / 10);
    }
  }

  lemma LastDigit(n: nat)
    ensures var d := Decimal(n);
      |d| > 0 && d[|d| - 1] as int == '0' as int + n % 10 && (|d| == 1 <==> n < 10)
  {
    assert "0123456789"[n % 10] as int == '0' as int + n % 10;
    if n >= 10 { assert |Decimal(n / 10)| > 0; }
  }

  /** Different value types have different statements. */
  lemma InsertSqlInjective(t: ValueType, u: ValueType)
    requires InsertSql(t) == InsertSql(u)
    ensures t == u
  {
    var a, b := Columns(t), Columns(u);
    assert |a| == |b| && a[0] == b[0] && (|a| == 2 ==> a[1] == b[1]);
  }
}
