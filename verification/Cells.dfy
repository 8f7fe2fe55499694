/**
 What the nodes table holds for a value, cell by cell, and what is read back
 (vendor/github.com/cayleygraph/cayley/graph/sql/quadstore.go:281-345, 593-630).
 */
module Cells {
  import opened Values
  import opened QuadTables
  import opened QuadLaws
  import opened Statements

  // ------------------------------------------------------------- what is stored

  /** The cells of a stored value, for each kind. */
  ghost predicate StoredAs(v: Value, cells: map<string, SqlValue>) {
    match v
    case Iri(s) => cells == map["value_string" := Str(s), "iri" := Flag(true)]
    case BNode(s) => cells == map["value_string" := Str(s), "bnode" := Flag(true)]
    case Text(s) => cells == map["value_string" := Str(EscapeNullByte(s))]
    case Typed(s, d) => cells == map["value_string" := Str(EscapeNullByte(s)), "datatype" := Str(d)]
    case Lang(s, l) => cells == map["value_string" := Str(EscapeNullByte(s)), "language" := Str(l)]
    case Int(i) => cells == map["value_int" := Number(i)]
    case Bool(b) => cells == map["value_bool" := Flag(b)]
    case Float(r) => cells == map["value_float" := Double(r)]
    case Time(t) => cells == map["value_time" := Stamp(t)]
    case Foreign(e) => e.Some? && cells == map["value" := Blob(e.value)]
  }

  lemma ZipOne(a: string, x: SqlValue)
    ensures Zip([a], [x]) == map[a := x]
  {
  }

  lemma ZipTwo(a: string, b: string, x: SqlValue, y: SqlValue)
    requires a != b
    ensures Zip([a, b], [x, y]) == map[a := x, b := y]
  {
    assert [a, b][1..] == [b];
  }

  lemma CellsStored(n: NodeUpdate)
    requires Valid(n)
    ensures StoredAs(n.val, CellsOf(n))
  {
    var (t, values) := NodeValues(n.hash, n.val).value;
    if |values| == 2 {
      assert values[1..] == [values[1]];
      ZipOne(Columns(t)[0], values[1]);
    } else {
      assert values[1..] == [values[1], values[2]];
      ZipTwo(Columns(t)[0], Columns(t)[1], values[1], values[2]);
    }
    hide Zip, EscapeNullByte;
    assert Columns(t) == if |values| == 2 then [Columns(t)[0]] else [Columns(t)[0], Columns(t)[1]];
  }

  /** Whatever the tables and the batch, a runTx that succeeds leaves a node that
      was new with the cells of the value first given for it. */
  lemma NewNodeStored(t: Tables, b: Batch, h: NodeHash)
    requires Run(t, b).Ok() && Mentions(b.nodes, h) && h !in t.nodes
    ensures h in Run(t, b).table.nodes
    ensures StoredAs(FirstOf(b.nodes, h).val, Run(t, b).table.nodes[h].cells)
    ensures Run(t, b).table.nodes[h].refs == LastOf(b.nodes, h).refInc
  {
    NodesExact(t.nodes, b.nodes, h);
    CellsStored(FirstOf(b.nodes, h));
  }

  /** The insert for a node: its columns, in order, and what is bound to them. */
  ghost predicate InsertsAs(n: NodeUpdate, columns: seq<string>, args: seq<SqlValue>) {
    var first := [Number(n.refInc), Key(n.hash)];
    match n.val
    case Iri(s) => columns == ["value_string", "iri"] && args == first + [Str(s), Flag(true)]
    case BNode(s) => columns == ["value_string", "bnode"] && args == first + [Str(s), Flag(true)]
    case Text(s) => columns == ["value_string"] && args == first + [Str(EscapeNullByte(s))]
    case Typed(s, d) => columns == ["value_string", "datatype"] && args == first + [Str(EscapeNullByte(s)), Str(d)]
    case Lang(s, l) => columns == ["value_string", "language"] && args == first + [Str(EscapeNullByte(s)), Str(l)]
    case Int(i) => columns == ["value_int"] && args == first + [Number(i)]
    case Bool(b) => columns == ["value_bool"] && args == first + [Flag(b)]
    case Float(r) => columns == ["value_float"] && args == first + [Double(r)]
    case Time(t) => columns == ["value_time"] && args == first + [Stamp(t)]
    case Foreign(e) => e.Some? && columns == ["value"] && args == first + [Blob(e.value)]
  }

  /** The text and the arguments of the statements runTx executes. */
  lemma StatementsSpelled(n: NodeUpdate, q: Quad)
    requires Valid(n)
    ensures var e := InsertExec(n);
      && e.sql.InsertNode? && InsertsAs(n, e.sql.columns, e.args)
      && e.sql.placeholders == if |e.args| == 3 then ["$1", "$2", "$3"] else ["$1", "$2", "$3", "$4"]
    ensures UpdateExec(n) == Exec(UpdateRefs, [Number(n.refInc), Key(n.hash)])
    ensures q.Complete() ==> QuadExec(q) == Exec(InsertQuad,
      [Key(q.subject), Key(q.predicat), Key(q.object_), if q.label_ == 0 then Null else Key(q.label_)])
  {
    hide EscapeNullByte, Placeholders, Decimal;
    PlaceholdersSpelled();
  }

  lemma PlaceholdersSpelled()
    ensures Placeholders(3) == ["$1", "$2", "$3"] && Placeholders(4) == ["$1", "$2", "$3", "$4"]
    ensures Placeholder(12) == "$12"
  {
    assert Decimal(1) == "1" && Decimal(2) == "2" && Decimal(3) == "3" && Decimal(4) == "4";
    assert forall n :: 1 <= n <= 4 ==> Placeholder(n) == "$" + Decimal(n);
    var three, four := Placeholders(3), Placeholders(4);
    assert three[0] == "$1" && three[1] == "$2" && three[2] == "$3";
    assert four[0] == "$1" && four[1] == "$2" && four[2] == "$3" && four[3] == "$4";
    assert 12 / 10 == 1 && 12 % 10 == 2;
  }

  // ------------------------------------------------------------ the null bytes

  const NUL := '\0'
  const BACKSLASH := '\\'
  const ESCAPED := [BACKSLASH, 'x', '0', '0']

  /** Escaping replaces each null byte, and nothing else, by its four characters. */
  lemma EscapeLaws(s: string, t: string)
    ensures EscapeNullByte([NUL]) == [BACKSLASH, 'x', '0', '0']
    ensures NUL !in s ==> EscapeNullByte(s) == s
    ensures EscapeNullByte(s + t) == EscapeNullByte(s) + EscapeNullByte(t)
    ensures NUL !in EscapeNullByte(s)
  {
    assert [NUL][1..] == "";
    EscapeJoins(s, t);
    EscapePlain(s);
  }

  lemma {:induction false} EscapeJoins(s: string, t: string)
    ensures EscapeNullByte(s + t) == EscapeNullByte(s) + EscapeNullByte(t)
  {
    if s == "" {
      assert s + t == t;
    } else {
      EscapeJoins(s[1..], t);
      hide EscapeChar;
      assert (s + t)[1..] == s[1..] + t;
      Associative(EscapeChar(s[0]), EscapeNullByte(s[1..]), EscapeNullByte(t));
    }
  }

  lemma Associative(x: string, y: string, z: string)
    ensures x + (y + z) == x + y + z
  {
  }

  lemma {:induction false} EscapePlain(s: string)
    ensures NUL !in s ==> EscapeNullByte(s) == s
    ensures NUL !in EscapeNullByte(s)
  {
    if s != "" {
      EscapePlain(s[1..]);
      assert s == [s[0]] + s[1..];
    }
  }

  /** strings.Replace of the four characters by a null byte, left to right. */
  function UnescapeNullByte(s: string): string {
    if s == "" then ""
    else if ESCAPED <= s then [NUL] + UnescapeNullByte(s[4..])
    else [s[0]] + UnescapeNullByte(s[1..])
  }

  /** The text has the four characters that a null byte is escaped to. */
  predicate HoldsEscape(s: string) {
    exists i :: 0 <= i <= |s| && ESCAPED <= s[i..]
  }

  lemma HoldsFirst(s: string)
    requires s != ""
    ensures HoldsEscape(s) <==> ESCAPED <= s || HoldsEscape(s[1..])
  {
    if HoldsEscape(s) && !(ESCAPED <= s) {
      var i :| 0 <= i <= |s| && ESCAPED <= s[i..];
      assert i != 0 && s[1..][i - 1..] == s[i..];
    }
    if HoldsEscape(s[1..]) {
      var i :| 0 <= i <= |s| - 1 && ESCAPED <= s[1..][i..];
      assert s[1..][i..] == s[i + 1..];
    }
    if ESCAPED <= s { assert s[0..] == s; }
  }

  /** Escaping a text that does not begin with the characters makes none of its
      own begin there, unless with a null byte. */
  lemma EscapeBegins(s: string)
    requires s != "" && s[0] != NUL
    ensures ESCAPED <= EscapeNullByte(s) <==> ESCAPED <= s
  {
    EscapeBeginsWith(s[1..], "x00");
    assert EscapeNullByte(s) == [s[0]] + EscapeNullByte(s[1..]);
    assert ESCAPED == [BACKSLASH] + "x00";
    PrefixCons(BACKSLASH, "x00", s[0], EscapeNullByte(s[1..]));
    PrefixCons(BACKSLASH, "x00", s[0], s[1..]);
    assert s == [s[0]] + s[1..];
  }

  lemma PrefixCons(a: char, p: string, b: char, s: string)
    ensures [a] + p <= [b] + s <==> a == b && p <= s
  {
    if [a] + p <= [b] + s {
      assert ([a] + p)[0] == ([b] + s)[0];
      assert forall i :: 0 <= i < |p| ==> p[i] == ([a] + p)[i + 1] == ([b] + s)[i + 1] == s[i];
    }
  }

  lemma {:induction false} EscapeBeginsWith(s: string, p: string)
    requires BACKSLASH !in p && NUL !in p
    ensures p <= EscapeNullByte(s) <==> p <= s
  {
    if p != "" && s != "" {
      var e := EscapeNullByte(s[1..]);
      assert p == [p[0]] + p[1..] && s == [s[0]] + s[1..];
      PrefixCons(p[0], p[1..], s[0], s[1..]);
      if s[0] == NUL {
        assert EscapeNullByte(s)[0] == BACKSLASH && p[0] != BACKSLASH;
      } else {
        EscapeBeginsWith(s[1..], p[1..]);
        PrefixCons(p[0], p[1..], s[0], e);
      }
    }
  }

  /** Null bytes survive storage, and every text does, if and only if it does not
      hold the four characters of an escaped null byte itself. */
  lemma {:induction false} EscapeRoundTrip(s: string)
    ensures UnescapeNullByte(EscapeNullByte(s)) == s <==> !HoldsEscape(s)
  {
    if s != "" {
      EscapeRoundTrip(s[1..]);
      HoldsFirst(s);
      var e := EscapeNullByte(s[1..]);
      assert s == [s[0]] + s[1..];
      if s[0] == NUL {
        assert EscapeNullByte(s) == ESCAPED + e && (ESCAPED + e)[4..] == e;
      } else {
        EscapeBegins(s);
        assert EscapeNullByte(s) == [s[0]] + e && ([s[0]] + e)[1..] == e;
      }
    }
  }

  // -------------------------------------------------------------- what is read

  function Cell(cells: map<string, SqlValue>, column: string): SqlValue {
    if column in cells then cells[column] else Null
  }

  /** QuadStore.NameOf, once the row is scanned. */
  function NameOf(cells: map<string, SqlValue>): Option<Value> {
    if Cell(cells, "value_string").Str? then
      var s := cells["value_string"].s;
      if Cell(cells, "iri") == Flag(true) then Some(Iri(s))
      else if Cell(cells, "bnode") == Flag(true) then Some(BNode(s))
      else if Cell(cells, "language").Str? then Some(Lang(UnescapeNullByte(s), cells["language"].s))
      else if Cell(cells, "datatype").Str? then Some(Typed(UnescapeNullByte(s), cells["datatype"].s))
      else Some(Text(UnescapeNullByte(s)))
    else if Cell(cells, "value_int").Number? then Some(Int(cells["value_int"].n))
    else if Cell(cells, "value_bool").Flag? then Some(Bool(cells["value_bool"].b))
    else if Cell(cells, "value_float").Double? then Some(Float(cells["value_float"].r))
    else if Cell(cells, "value_time").Stamp? then Some(Time(cells["value_time"].t))
    else if Cell(cells, "value").Blob? then Some(Foreign(Some(cells["value"].bytes)))
    else None
  }

  /** A text, of any kind but an IRI or a blank node, holding those characters. */
  predicate Garbled(v: Value) {
    (v.Text? || v.Typed? || v.Lang?) && HoldsEscape(v.s)
  }

  /** Reading a stored value gives it back, of its own kind, if and only if it is
      not such a text. */
  lemma ReadBack(v: Value, cells: map<string, SqlValue>)
    requires StoredAs(v, cells)
    ensures NameOf(cells) == Some(v) <==> !Garbled(v)
  {
    hide EscapeNullByte, UnescapeNullByte, HoldsEscape;
    if v.Text? || v.Typed? || v.Lang? { EscapeRoundTrip(v.s); }
  }

  /** Over any run of runTx calls, what is read for a node that was new is the
      value first given for it by any of them, exactly unless it is such a text. */
  lemma ReadAfterRun(ts: seq<Tables>, bs: seq<Batch>, h: NodeHash)
    requires History(ts, bs) && Mentions(AllNodes(bs), h) && h !in ts[0].nodes
    ensures h in ts[|bs|].nodes
    ensures NameOf(ts[|bs|].nodes[h].cells) == Some(FirstOf(AllNodes(bs), h).val)
      <==> !Garbled(FirstOf(AllNodes(bs), h).val)
  {
    WholeRun(ts, bs);
    NodesExact(ts[0].nodes, AllNodes(bs), h);
    CellsStored(FirstOf(AllNodes(bs), h));
    ReadBack(FirstOf(AllNodes(bs), h).val, ts[|bs|].nodes[h].cells);
  }
}
