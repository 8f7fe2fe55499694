/**
 A whole write of the SQL quad store: runTx, and then the deletes the store makes
 itself (vendor/github.com/cayleygraph/cayley/graph/sql/quadstore.go:340-449). It
 counts references down and removes nodes without any, while runTx sets counts.
 */
module Deletes {
  import opened Values
  import opened QuadTables
  import opened QuadLaws

  // ------------------------------------------------------------ splitting a write

  datatype Delta = Delta(quad: Quad, del: bool)

  /** How many directions of q are node h. */
  function Uses(q: Quad, h: nat): nat {
    (if q.subject == h then 1 else 0) + (if q.predicat == h then 1 else 0)
    + (if q.object_ == h then 1 else 0) + (if q.label_ == h then 1 else 0)
  }

  /** A node at two ends of a quad is used twice. */
  lemma UsesSpelled(a: nat, b: nat, c: nat)
    requires a != b && b != c && a != c
    ensures Uses(Quad(a, b, a, c), a) == 2 && Uses(Quad(b, a, c, b), a) == 1 && Uses(Quad(b, c, b, a), a) == 1
  {
  }

  function UsesOf(qs: seq<Quad>, h: nat): nat {
    if qs == [] then 0 else UsesOf(qs[..|qs| - 1], h) + Uses(qs[|qs| - 1], h)
  }

  function QuadsWith(ds: seq<Delta>, del: bool): seq<Quad> {
    if ds == [] then []
    else QuadsWith(ds[..|ds| - 1], del) + if ds[|ds| - 1].del == del then [ds[|ds| - 1].quad] else []
  }

  /** What an added quad means to runTx. */
  function Inserts(qs: seq<Quad>): (us: seq<QuadUpdate>)
    ensures |us| == |qs|
  {
    seq(|qs|, i requires 0 <= i < |qs| => QuadUpdate(qs[i], false))
  }

  datatype Deltas = Deltas(incNodes: seq<NodeUpdate>, quadAdd: seq<Quad>, quadDel: seq<Quad>, decNodes: seq<NodeUpdate>)

  /** The change a write makes to the uses of h. */
  function Net(ds: seq<Delta>, h: nat): int {
    UsesOf(QuadsWith(ds, false), h) - UsesOf(QuadsWith(ds, true), h)
  }

  predicate Touches(ds: seq<Delta>, h: nat) {
    h > 0 && UsesOf(QuadsWith(ds, false), h) + UsesOf(QuadsWith(ds, true), h) > 0
  }

  /** One update for each of these nodes, with its net change. */
  ghost predicate OneEach(ds: seq<Delta>, ns: seq<NodeUpdate>, down: bool) {
    && (forall i :: 0 <= i < |ns| ==>
          Touches(ds, ns[i].hash) && (Net(ds, ns[i].hash) < 0) == down && ns[i].refInc == Net(ds, ns[i].hash))
    && (forall i, j :: 0 <= i < j < |ns| ==> ns[i].hash != ns[j].hash)
    && (forall h: NodeHash :: Touches(ds, h) && (Net(ds, h) < 0) == down ==> Mentions(ns, h))
  }

  /** graphlog.SplitDeltas, up to the order of the nodes. */
  ghost predicate Splits(ds: seq<Delta>, d: Deltas) {
    && d.quadAdd == QuadsWith(ds, false) && d.quadDel == QuadsWith(ds, true)
    && OneEach(ds, d.incNodes, false) && OneEach(ds, d.decNodes, true)
  }

  // ------------------------------------------------------------------- the write

  /** The quads left and, if that is no error, those that were not there. */
  function DeleteQuads(quads: set<Quad>, qs: seq<Quad>, ignoreMissing: bool): Option<(set<Quad>, seq<Quad>)> {
    if qs == [] then Some((quads, []))
    else
      var q := qs[|qs| - 1];
      match DeleteQuads(quads, qs[..|qs| - 1], ignoreMissing)
      case None => None
      case Some((left, missing)) =>
        if q in left then Some((left - {q}, missing))
        else if ignoreMissing then Some((left, missing + [q]))
        else None
  }

  /** The counts after the updates, each corrected for the missing quads. */
  function Decrease(nodes: map<NodeHash, Row>, ns: seq<NodeUpdate>, missing: seq<Quad>): map<NodeHash, Row> {
    if ns == [] then nodes
    else
      var before := Decrease(nodes, ns[..|ns| - 1], missing);
      var n := ns[|ns| - 1];
      if n.hash in before then
        before[n.hash := before[n.hash].(refs := before[n.hash].refs + n.refInc + UsesOf(missing, n.hash))]
      else before
  }

  /** DELETE FROM nodes WHERE refs <= 0. */
  function RemoveUnused(nodes: map<NodeHash, Row>): map<NodeHash, Row> {
    map h | h in nodes && nodes[h].refs > 0 :: nodes[h]
  }

  /** The tables when the write is committed; on any error it is rolled back. */
  function Write(t: Tables, d: Deltas, ignoreDup: bool, ignoreMissing: bool): Option<Tables> {
    var run := Run(t, Batch(d.incNodes, Inserts(d.quadAdd), ignoreDup));
    if !run.Ok() then None
    else
      match DeleteQuads(run.table.quads, d.quadDel, ignoreMissing)
      case None => None
      case Some((left, missing)) =>
        if d.decNodes == [] then Some(Tables(run.table.nodes, left))
        else Some(Tables(RemoveUnused(Decrease(run.table.nodes, d.decNodes, missing)), left))
  }

  // ------------------------------------------------------- what it does, exactly

  /** How much the updates of a list change the count of h. */
  function Change(ns: seq<NodeUpdate>, missing: seq<Quad>, h: nat): int {
    if ns == [] then 0
    else
      Change(ns[..|ns| - 1], missing, h)
      + if ns[|ns| - 1].hash == h then ns[|ns| - 1].refInc + UsesOf(missing, h) else 0
  }

  lemma {:induction false} DecreaseExact(nodes: map<NodeHash, Row>, ns: seq<NodeUpdate>, missing: seq<Quad>,
          h: NodeHash)
    ensures var after := Decrease(nodes, ns, missing);
      && (h in after <==> h in nodes)
      && (h in nodes ==> after[h] == nodes[h].(refs := nodes[h].refs + Change(ns, missing, h)))
  {
    if ns != [] { DecreaseExact(nodes, ns[..|ns| - 1], missing, h); }
  }

  /** The nodes these quads use have a positive count after the updates. */
  ghost predicate StayCounted(nodes: map<NodeHash, Row>, quads: set<Quad>, ns: seq<NodeUpdate>, missing: seq<Quad>) {
    forall q, h :: q in quads && h in Ends(q) ==> h > 0 && h in nodes && nodes[h].refs + Change(ns, missing, h) > 0
  }

  /** A write that goes through leaves a node that runTx left, with its count
      changed by its updates, unless it is then removed, which happens only where
      some count is to be lowered and exactly at a count of zero or less. */
  lemma WriteExact(t: Tables, d: Deltas, ignoreDup: bool, ignoreMissing: bool, h: NodeHash)
    requires Write(t, d, ignoreDup, ignoreMissing).Some?
    ensures var mid, after := Run(t, Batch(d.incNodes, Inserts(d.quadAdd), ignoreDup)).table,
                              Write(t, d, ignoreDup, ignoreMissing).value;
      var change := Change(d.decNodes, DeleteQuads(mid.quads, d.quadDel, ignoreMissing).value.1, h);
      && (h in after.nodes <==> h in mid.nodes && (d.decNodes == [] || mid.nodes[h].refs + change > 0))
      && (h in after.nodes ==> after.nodes[h] == mid.nodes[h].(refs := mid.nodes[h].refs + change))
  {
    var mid := Run(t, Batch(d.incNodes, Inserts(d.quadAdd), ignoreDup)).table;
    var missing := DeleteQuads(mid.quads, d.quadDel, ignoreMissing).value.1;
    DecreaseExact(mid.nodes, d.decNodes, missing, h);
    NoChange(missing, h);
    hide Run, DeleteQuads, Inserts, Decrease, Change, UsesOf;
  }

  lemma NoChange(missing: seq<Quad>, h: nat)
    ensures Change([], missing, h) == 0
  {
  }

  /** After runTx nothing dangles; after the deletes too, if and only if every node
      that a remaining quad uses still has a positive count. */
  lemma DanglingExactly(t: Tables, d: Deltas, ignoreDup: bool, ignoreMissing: bool)
    requires Write(t, d, ignoreDup, ignoreMissing).Some?
    requires NoneDangling(Run(t, Batch(d.incNodes, Inserts(d.quadAdd), ignoreDup)).table)
    ensures var mid, after := Run(t, Batch(d.incNodes, Inserts(d.quadAdd), ignoreDup)).table,
                              Write(t, d, ignoreDup, ignoreMissing).value;
      var missing := DeleteQuads(mid.quads, d.quadDel, ignoreMissing).value.1;
      && after.quads <= mid.quads
      && (NoneDangling(after) <==>
            d.decNodes == [] || StayCounted(mid.nodes, after.quads, d.decNodes, missing))
  {
    var mid, after := Run(t, Batch(d.incNodes, Inserts(d.quadAdd), ignoreDup)).table,
                      Write(t, d, ignoreDup, ignoreMissing).value;
    var (left, missing) := DeleteQuads(mid.quads, d.quadDel, ignoreMissing).value;
    LeftSubset(mid.quads, d.quadDel, ignoreMissing);
    hide Run, DeleteQuads, Inserts, Decrease, Change;
    if d.decNodes == [] {
      forall q | q in after.quads ensures Anchored(after.nodes, q) { assert Anchored(mid.nodes, q); }
    } else {
      forall q | q in after.quads
        ensures Anchored(after.nodes, q) <==>
          forall h :: h in Ends(q) ==> h > 0 && h in mid.nodes && mid.nodes[h].refs + Change(d.decNodes, missing, h) > 0
      {
        assert Anchored(mid.nodes, q);
        forall h: NodeHash | h in Ends(q)
          ensures h in after.nodes <==> mid.nodes[h].refs + Change(d.decNodes, missing, h) > 0
        {
          DecreaseExact(mid.nodes, d.decNodes, missing, h);
        }
      }
    }
  }

  lemma {:induction false} LeftSubset(quads: set<Quad>, qs: seq<Quad>, ignoreMissing: bool)
    ensures var r := DeleteQuads(quads, qs, ignoreMissing);
      r.Some? ==> r.value.0 <= quads && forall q :: q in qs ==> q !in r.value.0
  {
    if qs != [] { LeftSubset(quads, qs[..|qs| - 1], ignoreMissing); }
  }

  // -------------------------------------------------- what deletes remove

  function Members(qs: seq<Quad>): set<Quad> {
    set q | q in qs
  }

  lemma MembersSnoc(qs: seq<Quad>)
    requires qs != []
    ensures Members(qs) == Members(qs[..|qs| - 1]) + {qs[|qs| - 1]}
  {
    assert qs == qs[..|qs| - 1] + [qs[|qs| - 1]];
  }

  /** The uses of h in the stored quads. */
  ghost function TotalUses(quads: set<Quad>, h: nat): nat {
    if quads == {} then 0
    else
      var q :| q in quads;
      TotalUses(quads - {q}, h) + Uses(q, h)
  }

  lemma {:induction false} TotalUsesRemove(quads: set<Quad>, q: Quad, h: nat)
    requires q in quads
    ensures TotalUses(quads, h) == TotalUses(quads - {q}, h) + Uses(q, h)
    decreases quads
  {
    var p :| p in quads && TotalUses(quads, h) == TotalUses(quads - {p}, h) + Uses(p, h);
    if p != q {
      TotalUsesRemove(quads - {p}, q, h);
      TotalUsesRemove(quads - {q}, p, h);
      assert quads - {p} - {q} == quads - {q} - {p};
    }
  }

  /** How many uses of h the removal of these quads takes away. */
  ghost function Lost(quads: set<Quad>, deleted: seq<Quad>, h: nat): int {
    TotalUses(quads, h) - TotalUses(quads - Members(deleted), h)
  }

  /** Each quad is stored, and named once. */
  predicate AllStored(quads: set<Quad>, qs: seq<Quad>) {
    Members(qs) <= quads && forall i, j :: 0 <= i < j < |qs| ==> qs[i] != qs[j]
  }

  lemma AllStoredSnoc(quads: set<Quad>, qs: seq<Quad>)
    requires qs != []
    ensures var k := |qs| - 1;
      AllStored(quads, qs) <==> AllStored(quads, qs[..k]) && qs[k] in quads - Members(qs[..k])
  {
    var k := |qs| - 1;
    MembersSnoc(qs);
    if AllStored(quads, qs[..k]) && qs[k] in quads - Members(qs[..k]) {
      forall i, j | 0 <= i < j < |qs| ensures qs[i] != qs[j] {
        assert qs[i] == qs[..k][i] && qs[i] in Members(qs[..k]);
        assert j < k ==> qs[j] == qs[..k][j];
      }
    }
    if AllStored(quads, qs) {
      forall i | 0 <= i < k ensures qs[..k][i] != qs[k] { assert qs[..k][i] == qs[i]; }
    }
  }

  /** The deletes go through exactly when missing quads are ignored or there are
      none. They remove the quads named and no others, and what they report as
      missing accounts, for every node, for the uses named but not lost. */
  lemma {:induction false} DeleteQuadsExact(quads: set<Quad>, qs: seq<Quad>, ignoreMissing: bool, h: nat)
    ensures var r := DeleteQuads(quads, qs, ignoreMissing);
      && (r.Some? <==> ignoreMissing || AllStored(quads, qs))
      && (r.Some? ==> r.value.0 == quads - Members(qs))
      && (r.Some? ==> UsesOf(r.value.1, h) + Lost(quads, qs, h) == UsesOf(qs, h) && Lost(quads, qs, h) >= 0)
      && (r.Some? && AllStored(quads, qs) ==> r.value.1 == [])
  {
    if qs == [] {
      assert quads - Members(qs) == quads;
    } else {
      var k := |qs| - 1;
      DeleteQuadsExact(quads, qs[..k], ignoreMissing, h);
      MembersSnoc(qs);
      AllStoredSnoc(quads, qs);
      hide AllStored;
      var before := quads - Members(qs[..k]);
      assert quads - Members(qs) == before - {qs[k]};
      if qs[k] in before {
        TotalUsesRemove(before, qs[k], h);
      } else if ignoreMissing {
        assert before - {qs[k]} == before;
        MissingOneMore(quads, qs, ignoreMissing, h);
      }
    }
  }

  lemma MissingOneMore(quads: set<Quad>, qs: seq<Quad>, ignoreMissing: bool, h: nat)
    requires qs != [] && DeleteQuads(quads, qs, ignoreMissing).Some?
    requires DeleteQuads(quads, qs[..|qs| - 1], ignoreMissing).Some?
    requires qs[|qs| - 1] !in DeleteQuads(quads, qs[..|qs| - 1], ignoreMissing).value.0
    ensures UsesOf(DeleteQuads(quads, qs, ignoreMissing).value.1, h)
      == UsesOf(DeleteQuads(quads, qs[..|qs| - 1], ignoreMissing).value.1, h) + Uses(qs[|qs| - 1], h)
  {
    var missing := DeleteQuads(quads, qs[..|qs| - 1], ignoreMissing).value.1;
    assert (missing + [qs[|qs| - 1]])[..|missing|] == missing;
  }

  // ------------------------------------------------------------ only deletes

  /** A write of deletes only. */
  ghost predicate OnlyDeletes(ds: seq<Delta>, d: Deltas) {
    Splits(ds, d) && d.quadAdd == []
  }

  /** With one update for each node, the change is that node's. */
  lemma {:induction false} ChangeOfOne(ns: seq<NodeUpdate>, missing: seq<Quad>, h: NodeHash)
    requires forall i, j :: 0 <= i < j < |ns| ==> ns[i].hash != ns[j].hash
    ensures Change(ns, missing, h) == if Mentions(ns, h) then LastOf(ns, h).refInc + UsesOf(missing, h) else 0
  {
    if ns != [] {
      var k := |ns| - 1;
      ChangeOfOne(ns[..k], missing, h);
      MentionsSnoc(ns, h);
      forall i | 0 <= i < k ensures ns[..k][i].hash != ns[k].hash { assert ns[..k][i] == ns[i]; }
    }
  }

  lemma DeleteChange(ds: seq<Delta>, d: Deltas, missing: seq<Quad>, h: NodeHash)
    requires OnlyDeletes(ds, d) && UsesOf(missing, h) <= UsesOf(d.quadDel, h)
    ensures Change(d.decNodes, missing, h) == UsesOf(missing, h) - UsesOf(d.quadDel, h)
  {
    ChangeOfOne(d.decNodes, missing, h);
    hide UsesOf, QuadsWith, Change, Members;
    assert UsesOf([], h) == 0 by { NoUses(h); }
    if Mentions(d.decNodes, h) {
      var n := LastOf(d.decNodes, h);
    } else {
      assert !Touches(ds, h) || Net(ds, h) >= 0;
    }
  }

  lemma NoUses(h: nat)
    ensures UsesOf([], h) == 0
  {
  }

  lemma TouchedFalls(ds: seq<Delta>, h: nat)
    requires QuadsWith(ds, false) == []
    ensures Touches(ds, h) ==> Net(ds, h) < 0
  {
    NoUses(h);
  }

  lemma NothingUp(ds: seq<Delta>, d: Deltas)
    requires OnlyDeletes(ds, d)
    ensures d.incNodes == []
  {
    hide Touches, Net, UsesOf, QuadsWith;
    if d.incNodes != [] {
      var h := FirstUp(ds, d.incNodes);
      TouchedFalls(ds, h);
    }
  }

  lemma FirstUp(ds: seq<Delta>, ns: seq<NodeUpdate>) returns (h: NodeHash)
    requires OneEach(ds, ns, false) && ns != []
    ensures Touches(ds, h) && Net(ds, h) >= 0
  {
    h := ns[0].hash;
  }

  /** In such a write runTx has nothing to do. */
  lemma NothingRuns(t: Tables, ds: seq<Delta>, d: Deltas, ignoreDup: bool)
    requires OnlyDeletes(ds, d)
    ensures Run(t, Batch(d.incNodes, Inserts(d.quadAdd), ignoreDup)) == Outcome(t, 0, None)
  {
    NothingUp(ds, d);
    hide QuadsWith, UsesOf;
  }

  /** A write of deletes, stored or missing: it goes through exactly when missing
      quads are ignored or there are none; it removes exactly the quads named; it
      lowers the count of each node by the uses that are lost, whatever missing
      quads would have used; and where any count is to be lowered it removes
      exactly the nodes that are then counted zero times or less. */
  lemma DeletesExact(t: Tables, ds: seq<Delta>, d: Deltas, ignoreDup: bool, ignoreMissing: bool, h: NodeHash)
    requires OnlyDeletes(ds, d)
    ensures var after := Write(t, d, ignoreDup, ignoreMissing);
      && (after.Some? <==> ignoreMissing || AllStored(t.quads, d.quadDel))
      && (after.Some? ==>
            && after.value.quads == t.quads - Members(d.quadDel)
            && (h in after.value.nodes <==>
                  h in t.nodes && (d.decNodes == [] || t.nodes[h].refs > Lost(t.quads, d.quadDel, h)))
            && (h in after.value.nodes ==>
                  after.value.nodes[h] == t.nodes[h].(refs := t.nodes[h].refs - Lost(t.quads, d.quadDel, h))))
  {
    NothingRuns(t, ds, d, ignoreDup);
    DeleteQuadsExact(t.quads, d.quadDel, ignoreMissing, h);
    hide Run, AllStored, Members, Lost, OnlyDeletes;
    if ignoreMissing || AllStored(t.quads, d.quadDel) {
      var missing := DeleteQuads(t.quads, d.quadDel, ignoreMissing).value.1;
      hide DeleteQuads, UsesOf, Change, Decrease;
      DeleteChange(ds, d, missing, h);
      WriteExact(t, d, ignoreDup, ignoreMissing, h);
    }
  }

  /** The nodes these quads use are counted more often than uses are lost. */
  ghost predicate CountedBeyond(t: Tables, left: set<Quad>, deleted: seq<Quad>) {
    forall q, h :: q in left && h in Ends(q) ==> h > 0 && h in t.nodes && t.nodes[h].refs > Lost(t.quads, deleted, h)
  }

  /** Deleting leaves nothing dangling if and only if no count is to be lowered or
      each node that a remaining quad uses is counted more often than its uses are
      lost. */
  lemma DeleteHarmlessExactly(t: Tables, ds: seq<Delta>, d: Deltas, ignoreDup: bool, ignoreMissing: bool)
    requires OnlyDeletes(ds, d) && NoneDangling(t) && (ignoreMissing || AllStored(t.quads, d.quadDel))
    ensures Write(t, d, ignoreDup, ignoreMissing).Some?
    ensures NoneDangling(Write(t, d, ignoreDup, ignoreMissing).value) <==>
      d.decNodes == [] || CountedBeyond(t, t.quads - Members(d.quadDel), d.quadDel)
  {
    DeletesExact(t, ds, d, ignoreDup, ignoreMissing, 1);
    var after, left := Write(t, d, ignoreDup, ignoreMissing).value, t.quads - Members(d.quadDel);
    hide Write, Lost, Members, AllStored, OnlyDeletes;
    forall q | q in left
      ensures Anchored(after.nodes, q) <==>
        d.decNodes == [] ||
        forall h: nat :: h in Ends(q) ==> h > 0 && h in t.nodes && t.nodes[h].refs > Lost(t.quads, d.quadDel, h)
    {
      assert Anchored(t.nodes, q);
      forall h: NodeHash | h in Ends(q)
        ensures h in after.nodes <==> d.decNodes == [] || t.nodes[h].refs > Lost(t.quads, d.quadDel, h)
      {
        DeletesExact(t, ds, d, ignoreDup, ignoreMissing, h);
      }
    }
  }

  // -------------------------------------------------------- counts that are kept

  /** Every node is counted at least as often as the stored quads use it. */
  ghost predicate Counted(t: Tables) {
    forall h: NodeHash :: h in t.nodes ==> t.nodes[h].refs >= TotalUses(t.quads, h)
  }

  /** If the counts are right, deletes leave nothing dangling and the counts right,
      missing quads among them or not. */
  lemma CountedDeletes(t: Tables, ds: seq<Delta>, d: Deltas, ignoreDup: bool, ignoreMissing: bool)
    requires OnlyDeletes(ds, d) && NoneDangling(t) && Counted(t)
    requires ignoreMissing || AllStored(t.quads, d.quadDel)
    ensures var after := Write(t, d, ignoreDup, ignoreMissing);
      after.Some? && NoneDangling(after.value) && Counted(after.value)
  {
    hide *;
    DeleteHarmlessExactly(t, ds, d, ignoreDup, ignoreMissing);
    CountedIsBeyond(t, d.quadDel);
    StayCountedRight(t, ds, d, ignoreDup, ignoreMissing);
  }

  lemma CountedIsBeyond(t: Tables, deleted: seq<Quad>)
    requires NoneDangling(t) && Counted(t)
    ensures CountedBeyond(t, t.quads - Members(deleted), deleted)
  {
    hide TotalUses, Members;
    var left := t.quads - Members(deleted);
    forall q, h | q in left && h in Ends(q)
      ensures h > 0 && h in t.nodes && t.nodes[h].refs > Lost(t.quads, deleted, h)
    {
      assert Anchored(t.nodes, q) by { assert q in t.quads; }
      TotalUsesRemove(left, q, h);
      assert Uses(q, h) > 0;
    }
  }

  lemma StayCountedRight(t: Tables, ds: seq<Delta>, d: Deltas, ignoreDup: bool, ignoreMissing: bool)
    requires OnlyDeletes(ds, d) && Counted(t) && (ignoreMissing || AllStored(t.quads, d.quadDel))
    ensures Write(t, d, ignoreDup, ignoreMissing).Some? && Counted(Write(t, d, ignoreDup, ignoreMissing).value)
  {
    hide Write, TotalUses, AllStored, OnlyDeletes, Members;
    DeletesExact(t, ds, d, ignoreDup, ignoreMissing, 1);
    var after := Write(t, d, ignoreDup, ignoreMissing).value;
    forall h: NodeHash | h in after.nodes ensures after.nodes[h].refs >= TotalUses(after.quads, h) {
      DeletesExact(t, ds, d, ignoreDup, ignoreMissing, h);
    }
  }

  // ------------------------------------------- a delete after counts were set

  const FIRST := Quad(1, 2, 3, 0)
  const SECOND := Quad(1, 2, 4, 0)
  const THIRD := Quad(1, 2, 5, 0)

  /** Two quads share their subject and predicate. */
  const ADD_TWO := Deltas([NodeUpdate(1, Iri("a"), 2), NodeUpdate(2, Iri("p"), 2), NodeUpdate(3, Iri("b"), 1),
                           NodeUpdate(4, Iri("c"), 1)], [FIRST, SECOND], [], [])

  /** A third shares them too, and sets their counts to one. */
  const ADD_ONE := Deltas([NodeUpdate(1, Iri("a"), 1), NodeUpdate(2, Iri("p"), 1), NodeUpdate(5, Iri("d"), 1)],
                          [THIRD], [], [])

  /** Deleting it takes the counts to zero. */
  const DELETE_ONE := Deltas([], [], [THIRD], [NodeUpdate(1, Iri("a"), -1), NodeUpdate(2, Iri("p"), -1),
                                               NodeUpdate(5, Iri("d"), -1)])

  lemma UsesOfOne(q: Quad, h: nat)
    ensures UsesOf([q], h) == Uses(q, h)
  {
    assert [q][..0] == [] && UsesOf([], h) == 0;
  }

  lemma UsesOfTwo(p: Quad, q: Quad, h: nat)
    ensures UsesOf([p, q], h) == Uses(p, h) + Uses(q, h)
  {
    UsesOfOne(p, h);
    assert [p, q][..1] == [p];
  }

  lemma OneDelta(q: Quad, del: bool)
    ensures QuadsWith([Delta(q, del)], del) == [q] && QuadsWith([Delta(q, del)], !del) == []
  {
    var ds := [Delta(q, del)];
    assert ds[..0] == [] && QuadsWith([], del) == [] && QuadsWith([], !del) == [];
  }

  lemma TwoDeltas(p: Quad, q: Quad)
    ensures QuadsWith([Delta(p, false), Delta(q, false)], false) == [p, q]
    ensures QuadsWith([Delta(p, false), Delta(q, false)], true) == []
  {
    var ds := [Delta(p, false), Delta(q, false)];
    OneDelta(p, false);
    assert ds[..1] == [Delta(p, false)];
  }

  lemma AddTwoSplits()
    ensures Splits([Delta(FIRST, false), Delta(SECOND, false)], ADD_TWO)
  {
    var ds := [Delta(FIRST, false), Delta(SECOND, false)];
    TwoDeltas(FIRST, SECOND);
    hide UsesOf, QuadsWith;
    forall h: nat ensures UsesOf([FIRST, SECOND], h) == Uses(FIRST, h) + Uses(SECOND, h) && UsesOf([], h) == 0 {
      UsesOfTwo(FIRST, SECOND, h);
      NoUses(h);
    }
    var ns := ADD_TWO.incNodes;
    forall h: NodeHash | Touches(ds, h) ensures Mentions(ns, h) {
      assert ns[0].hash == 1 && ns[1].hash == 2 && ns[2].hash == 3 && ns[3].hash == 4;
    }
  }

  lemma AddOneSplits()
    ensures Splits([Delta(THIRD, false)], ADD_ONE)
  {
    var ds := [Delta(THIRD, false)];
    OneDelta(THIRD, false);
    hide UsesOf, QuadsWith;
    forall h: nat ensures UsesOf([THIRD], h) == Uses(THIRD, h) && UsesOf([], h) == 0 {
      UsesOfOne(THIRD, h);
      NoUses(h);
    }
    var ns := ADD_ONE.incNodes;
    forall h: NodeHash | Touches(ds, h) ensures Mentions(ns, h) {
      assert ns[0].hash == 1 && ns[1].hash == 2 && ns[2].hash == 5;
    }
  }

  lemma DeleteOneSplits()
    ensures Splits([Delta(THIRD, true)], DELETE_ONE)
  {
    var ds := [Delta(THIRD, true)];
    OneDelta(THIRD, true);
    hide UsesOf, QuadsWith;
    forall h: nat ensures UsesOf([THIRD], h) == Uses(THIRD, h) && UsesOf([], h) == 0 {
      UsesOfOne(THIRD, h);
      NoUses(h);
    }
    var ns := DELETE_ONE.decNodes;
    forall h: NodeHash | Touches(ds, h) ensures Mentions(ns, h) {
      assert ns[0].hash == 1 && ns[1].hash == 2 && ns[2].hash == 5;
    }
  }

  /** Writes that only add complete quads go through, and leave the nodes of their
      node loop and the quads together. */
  lemma AddsRun(t: Tables, d: Deltas)
    requires d.quadDel == [] && d.decNodes == [] && forall q :: q in d.quadAdd ==> q.Complete()
    requires forall i :: 0 <= i < |d.incNodes| ==> d.incNodes[i].refInc >= 0 && Valid(d.incNodes[i])
    ensures RunNodes(t.nodes, d.incNodes).Ok()
    ensures Write(t, d, true, false) ==
      Some(Tables(RunNodes(t.nodes, d.incNodes).table, t.quads + Members(d.quadAdd)))
  {
    NodesSucceed(t.nodes, d.incNodes);
    QuadsExact(t.quads, Inserts(d.quadAdd), true);
    assert QuadsOf(Inserts(d.quadAdd)) == Members(d.quadAdd) by { InsertsQuads(d.quadAdd); }
    hide RunNodes, RunQuads, Inserts;
  }

  lemma InsertsQuads(qs: seq<Quad>)
    ensures QuadsOf(Inserts(qs)) == Members(qs)
  {
    forall q | q in qs ensures q in QuadsOf(Inserts(qs)) {
      var i :| 0 <= i < |qs| && qs[i] == q;
      assert Inserts(qs)[i].quad == q;
    }
  }

  /** Setting counts makes deletes unsafe: two quads are stored, a third that
      shares their nodes sets the counts to one, and deleting it removes nodes the
      first two still use. Nothing dangled before. */
  lemma OverwriteDangles() returns (one: Tables, two: Tables, three: Tables)
    ensures Splits([Delta(FIRST, false), Delta(SECOND, false)], ADD_TWO)
    ensures Splits([Delta(THIRD, false)], ADD_ONE) && Splits([Delta(THIRD, true)], DELETE_ONE)
    ensures Write(Tables(map[], {}), ADD_TWO, true, false) == Some(one)
    ensures Write(one, ADD_ONE, true, false) == Some(two) && NoneDangling(two)
    ensures Write(two, DELETE_ONE, true, false) == Some(three)
    ensures three.quads == {FIRST, SECOND} && !NoneDangling(three)
  {
    AddTwoSplits();
    AddOneSplits();
    DeleteOneSplits();
    hide Write, Splits, RunNodes, NoneDangling;
    one := Tables(RunNodes(map[], ADD_TWO.incNodes).table, {FIRST, SECOND});
    two := Tables(RunNodes(one.nodes, ADD_ONE.incNodes).table, {FIRST, SECOND, THIRD});
    AddsTwo();
    AddsOne(one);
    TwoAnchored(one, two);
    three := ThirdDeleted(two);
  }

  lemma AddsTwo()
    ensures RunNodes(map[], ADD_TWO.incNodes).Ok()
    ensures Write(Tables(map[], {}), ADD_TWO, true, false) ==
      Some(Tables(RunNodes(map[], ADD_TWO.incNodes).table, {FIRST, SECOND}))
  {
    AddsRun(Tables(map[], {}), ADD_TWO);
    hide Write, RunNodes;
    assert {} + Members([FIRST, SECOND]) == {FIRST, SECOND};
  }

  lemma AddsOne(one: Tables)
    requires one.quads == {FIRST, SECOND}
    ensures RunNodes(one.nodes, ADD_ONE.incNodes).Ok()
    ensures Write(one, ADD_ONE, true, false) ==
      Some(Tables(RunNodes(one.nodes, ADD_ONE.incNodes).table, {FIRST, SECOND, THIRD}))
  {
    AddsRun(one, ADD_ONE);
    hide Write, RunNodes;
    assert one.quads + Members([THIRD]) == {FIRST, SECOND, THIRD};
  }

  /** All nodes are there, the shared subject counted once. */
  lemma TwoAnchored(one: Tables, two: Tables)
    requires RunNodes(map[], ADD_TWO.incNodes).Ok() && one.nodes == RunNodes(map[], ADD_TWO.incNodes).table
    requires RunNodes(one.nodes, ADD_ONE.incNodes).Ok() && two.nodes == RunNodes(one.nodes, ADD_ONE.incNodes).table
    requires two.quads == {FIRST, SECOND, THIRD}
    ensures NoneDangling(two) && 1 in two.nodes && two.nodes[1].refs == 1
  {
    hide RunNodes;
    assert ADD_TWO.incNodes[0].hash == 1 && ADD_TWO.incNodes[1].hash == 2;
    assert ADD_TWO.incNodes[2].hash == 3 && ADD_TWO.incNodes[3].hash == 4;
    assert ADD_ONE.incNodes[0].hash == 1 && ADD_ONE.incNodes[2].hash == 5;
    forall h: NodeHash ensures 1 <= h <= 5 ==> h in two.nodes {
      NodesExact(map[], ADD_TWO.incNodes, h);
      NodesExact(one.nodes, ADD_ONE.incNodes, h);
    }
    NodesExact(one.nodes, ADD_ONE.incNodes, 1);
    forall q | q in two.quads ensures Anchored(two.nodes, q) {
      assert forall h :: h in Ends(q) ==> 1 <= h <= 5;
    }
  }

  lemma ThirdDeleted(two: Tables) returns (three: Tables)
    requires two.quads == {FIRST, SECOND, THIRD} && NoneDangling(two) && 1 in two.nodes && two.nodes[1].refs == 1
    ensures Write(two, DELETE_ONE, true, false) == Some(three)
    ensures three.quads == {FIRST, SECOND} && !NoneDangling(three)
  {
    var ds := [Delta(THIRD, true)];
    DeleteOneSplits();
    assert OnlyDeletes(ds, DELETE_ONE) && AllStored(two.quads, [THIRD]);
    DeletesExact(two, ds, DELETE_ONE, true, false, 1);
    DeleteHarmlessExactly(two, ds, DELETE_ONE, true, false);
    hide Write, OnlyDeletes, Splits, NoneDangling;
    three := Write(two, DELETE_ONE, true, false).value;
    assert two.quads - Members([THIRD]) == {FIRST, SECOND} && two.quads - {THIRD} == {FIRST, SECOND};
    TotalUsesRemove(two.quads, THIRD, 1);
    assert FIRST in three.quads && 1 in Ends(FIRST) && two.nodes[1].refs == Lost(two.quads, [THIRD], 1);
  }
}
