/**
 The meaning of db/graph.go's runTx: what a batch of node and quad updates does
 to the nodes and quads tables, element by element.
 */
module QuadTables {
  import opened Values

  /** graph.ValueHash; SplitDeltas makes node updates only for existing values,
      whose hash is never the zero hash. */
  type NodeHash = h: nat | h > 0 witness 1

  // -------------------------------------------------------------- node values

  /** A quad.Value; a value outside the named types is stored as its protobuf
      encoding, which may fail. */
  datatype Value =
    | Iri(s: string)
    | BNode(s: string)
    | Text(s: string)
    | Typed(s: string, datatyp: string)
    | Lang(s: string, lang: string)
    | Int(i: int)
    | Bool(b: bool)
    | Float(r: real)
    | Time(t: int)
    | Foreign(encoded: Option<Bytes>)

  type ValueType = t: nat | t < 10

  datatype SqlValue = Null | Key(h: NodeHash) | Number(n: int) | Str(s: string) | Flag(b: bool) | Double(r: real)
    | Stamp(t: int) | Blob(bytes: Bytes)

  /** NodeHash.SQLValue: the zero hash is stored as NULL. */
  function SqlHash(h: nat): SqlValue {
    if h == 0 then Null else Key(h)
  }

  function EscapeChar(c: char): string {
    if c == '\0' then "\\x00" else [c]
  }

  function EscapeNullByte(s: string): string {
    if s == "" then "" else EscapeChar(s[0]) + EscapeNullByte(s[1..])
  }

  /** ValueType.Columns. */
  function Columns(t: ValueType): seq<string> {
    if t == 0 then ["value"]
    else if t == 1 then ["value_string", "iri"]
    else if t == 2 then ["value_string", "bnode"]
    else if t == 3 then ["value_string"]
    else if t == 4 then ["value_string", "datatype"]
    else if t == 5 then ["value_string", "language"]
    else if t == 6 then ["value_int"]
    else if t == 7 then ["value_bool"]
    else if t == 8 then ["value_float"]
    else ["value_time"]
  }

  /** NodeValues: the value type and, after the hash, one value per column. */
  function NodeValues(h: NodeHash, v: Value): (r: Option<(ValueType, seq<SqlValue>)>)
    ensures r.Some? ==> |r.value.1| == 1 + |Columns(r.value.0)| && r.value.1[0] == Key(h)
    ensures r.None? <==> v.Foreign? && v.encoded.None?
  {
    var k := Key(h);
    match v
    case Iri(s) => Some((1, [k, Str(s), Flag(true)]))
    case BNode(s) => Some((2, [k, Str(s), Flag(true)]))
    case Text(s) => Some((3, [k, Str(EscapeNullByte(s))]))
    case Typed(s, d) => Some((4, [k, Str(EscapeNullByte(s)), Str(d)]))
    case Lang(s, l) => Some((5, [k, Str(EscapeNullByte(s)), Str(l)]))
    case Int(i) => Some((6, [k, Number(i)]))
    case Bool(b) => Some((7, [k, Flag(b)]))
    case Float(r) => Some((8, [k, Double(r)]))
    case Time(t) => Some((9, [k, Stamp(t)]))
    case Foreign(e) => if e.Some? then Some((0, [k, Blob(e.value)])) else None
  }

  // ------------------------------------------------------------------- tables

  /** A row of the nodes table: its reference count and its filled columns. */
  datatype Row = Row(refs: int, cells: map<string, SqlValue>)

  /** A row of the quads table; label 0 is NULL. */
  datatype Quad = Quad(subject: nat, predicat: nat, object_: nat, label_: nat) {
    predicate Complete() { subject > 0 && predicat > 0 && object_ > 0 }

    /** QuadHash.Dirs, as SQL values. */
    function Dirs(): seq<SqlValue> {
      [SqlHash(subject), SqlHash(predicat), SqlHash(object_), SqlHash(label_)]
    }
  }

  datatype Tables = Tables(nodes: map<NodeHash, Row>, quads: set<Quad>)

  datatype NodeUpdate = NodeUpdate(hash: NodeHash, val: Value, refInc: int)

  datatype QuadUpdate = QuadUpdate(quad: Quad, del: bool)

  /** One call of runTx. */
  datatype Batch = Batch(nodes: seq<NodeUpdate>, quads: seq<QuadUpdate>, ignoreDup: bool)

  // ------------------------------------------------------ one update at a time

  datatype Reason = NegativeRefs | BadValue | QuadDelete | NullHash | QuadExists

  /** What processing a list of updates comes to: the table after the updates
      that took effect, how many those are, and why the next one was refused. */
  datatype Outcome<T> = Outcome(table: T, done: nat, refused: Option<Reason>) {
    predicate Ok() { refused.None? }
  }

  function Zip(cols: seq<string>, vals: seq<SqlValue>): map<string, SqlValue>
    requires |cols| <= |vals|
  {
    map c | c in cols :: vals[IndexOf(cols, c)]
  }

  function IndexOf(cols: seq<string>, c: string): (i: nat)
    requires c in cols
    ensures i < |cols| && cols[i] == c
  {
    if cols[0] == c then 0 else 1 + IndexOf(cols[1..], c)
  }

  /** The cells an update stores when its hash is new. */
  function CellsOf(n: NodeUpdate): map<string, SqlValue>
    requires Valid(n)
  {
    var (t, values) := NodeValues(n.hash, n.val).value;
    Zip(Columns(t), values[1..])
  }

  predicate Valid(n: NodeUpdate) {
    NodeValues(n.hash, n.val).Some?
  }

  /** An update of a stored node only overwrites its reference count. */
  function PutNode(nodes: map<NodeHash, Row>, n: NodeUpdate): map<NodeHash, Row>
    requires Valid(n)
  {
    nodes[n.hash := if n.hash in nodes then nodes[n.hash].(refs := n.refInc) else Row(n.refInc, CellsOf(n))]
  }

  function RefuseNode(n: NodeUpdate): Option<Reason> {
    if n.refInc < 0 then Some(NegativeRefs) else if !Valid(n) then Some(BadValue) else None
  }

  function RunNodes(nodes: map<NodeHash, Row>, ns: seq<NodeUpdate>): (r: Outcome<map<NodeHash, Row>>)
    ensures r.done <= |ns| && (r.Ok() <==> r.done == |ns|)
  {
    if ns == [] then Outcome(nodes, 0, None)
    else
      var r := RunNodes(nodes, ns[..|ns| - 1]);
      var n := ns[|ns| - 1];
      if !r.Ok() then r
      else if RefuseNode(n).Some? then r.(refused := RefuseNode(n))
      else Outcome(PutNode(r.table, n), |ns|, None)
  }

  function RefuseQuad(quads: set<Quad>, q: QuadUpdate, ignoreDup: bool): Option<Reason> {
    if q.del then Some(QuadDelete)
    else if !q.quad.Complete() then Some(NullHash)
    else if q.quad in quads && !ignoreDup then Some(QuadExists)
    else None
  }

  function RunQuads(quads: set<Quad>, qs: seq<QuadUpdate>, ignoreDup: bool): (r: Outcome<set<Quad>>)
    ensures r.done <= |qs| && (r.Ok() <==> r.done == |qs|)
  {
    if qs == [] then Outcome(quads, 0, None)
    else
      var r := RunQuads(quads, qs[..|qs| - 1], ignoreDup);
      var q := qs[|qs| - 1];
      if !r.Ok() then r
      else if RefuseQuad(r.table, q, ignoreDup).Some? then r.(refused := RefuseQuad(r.table, q, ignoreDup))
      else Outcome(r.table + {q.quad}, |qs|, None)
  }

  /** runTx: the node loop, then, if it went through, the quad loop. */
  function Run(t: Tables, b: Batch): Outcome<Tables> {
    var n := RunNodes(t.nodes, b.nodes);
    if !n.Ok() then Outcome(Tables(n.table, t.quads), n.done, n.refused)
    else
      var q := RunQuads(t.quads, b.quads, b.ignoreDup);
      Outcome(Tables(n.table, q.table), n.done + q.done, q.refused)
  }
}
