/** What batches of updates do to the quad store, over any tables and batches. */
module QuadLaws {
  import opened Values
  import opened QuadTables

  // ------------------------------------------------------------ exact results

  predicate Mentions(ns: seq<NodeUpdate>, h: NodeHash) {
    exists i :: 0 <= i < |ns| && ns[i].hash == h
  }

  lemma MentionsSnoc(ns: seq<NodeUpdate>, h: NodeHash)
    requires ns != []
    ensures Mentions(ns, h) <==> Mentions(ns[..|ns| - 1], h) || ns[|ns| - 1].hash == h
  {
    var before := ns[..|ns| - 1];
    if Mentions(before, h) {
      var i :| 0 <= i < |before| && before[i].hash == h;
      assert ns[i].hash == h;
    }
    if Mentions(ns, h) && ns[|ns| - 1].hash != h {
      var i :| 0 <= i < |ns| && ns[i].hash == h;
      assert before[i].hash == h;
    }
  }

  /** The last update of h in the list. */
  function LastOf(ns: seq<NodeUpdate>, h: NodeHash): (n: NodeUpdate)
    requires Mentions(ns, h)
    ensures exists i :: 0 <= i < |ns| && ns[i] == n && n.hash == h && forall j :: i < j < |ns| ==> ns[j].hash != h
  {
    MentionsSnoc(ns, h);
    var k := |ns| - 1;
    if ns[k].hash == h then ns[k]
    else
      var n := LastOf(ns[..k], h);
      assert forall j :: 0 <= j < k ==> ns[..k][j] == ns[j];
      n
  }

  /** The first update of h in the list. */
  function FirstOf(ns: seq<NodeUpdate>, h: NodeHash): (n: NodeUpdate)
    requires Mentions(ns, h)
    ensures exists i :: 0 <= i < |ns| && ns[i] == n && n.hash == h && forall j :: 0 <= j < i ==> ns[j].hash != h
  {
    MentionsSnoc(ns, h);
    var k := |ns| - 1;
    if Mentions(ns[..k], h) then
      var n := FirstOf(ns[..k], h);
      assert forall j :: 0 <= j < k ==> ns[..k][j] == ns[j];
      n
    else
      assert forall j :: 0 <= j < k && ns[j].hash == h ==> ns[..k][j].hash == h;
      ns[k]
  }

  /** The node loop goes through exactly when every update is acceptable. */
  lemma {:induction false} NodesSucceed(nodes: map<NodeHash, Row>, ns: seq<NodeUpdate>)
    ensures RunNodes(nodes, ns).Ok() <==> forall i :: 0 <= i < |ns| ==> ns[i].refInc >= 0 && Valid(ns[i])
  {
    hide NodeValues, PutNode;
    if ns != [] {
      NodesSucceed(nodes, ns[..|ns| - 1]);
      var r := RunNodes(nodes, ns[..|ns| - 1]);
      var n := ns[|ns| - 1];
      if r.Ok() {
        assert RunNodes(nodes, ns).Ok() <==> n.refInc >= 0 && Valid(n);
      } else {
        var i :| 0 <= i < |ns| - 1 && !(ns[..|ns| - 1][i].refInc >= 0 && Valid(ns[..|ns| - 1][i]));
        assert !(ns[i].refInc >= 0 && Valid(ns[i]));
      }
    }
  }

  /** On success a mentioned hash has its last RefInc and the cells it had, or
      else those of its first mention; no other node changes. */
  lemma {:induction false} NodesExact(nodes: map<NodeHash, Row>, ns: seq<NodeUpdate>, h: NodeHash)
    requires RunNodes(nodes, ns).Ok()
    ensures var after := RunNodes(nodes, ns).table;
      && (h in after <==> h in nodes || Mentions(ns, h))
      && (h in nodes && !Mentions(ns, h) ==> after[h] == nodes[h])
      && (Mentions(ns, h) ==> after[h].refs == LastOf(ns, h).refInc)
      && (h in nodes ==> after[h].cells == nodes[h].cells)
      && (Mentions(ns, h) && h !in nodes ==>
            Valid(FirstOf(ns, h)) && after[h].cells == CellsOf(FirstOf(ns, h)))
  {
    if ns != [] {
      NodesExact(nodes, ns[..|ns| - 1], h);
      MentionsSnoc(ns, h);
    }
  }

  function QuadsOf(qs: seq<QuadUpdate>): set<Quad> {
    set i | 0 <= i < |qs| :: qs[i].quad
  }

  /** The batch names each quad once. */
  predicate NoRepeats(qs: seq<QuadUpdate>) {
    forall i, j :: 0 <= i < j < |qs| ==> qs[i].quad != qs[j].quad
  }

  predicate Insertable(q: QuadUpdate) { !q.del && q.quad.Complete() }

  /** When the quad loop goes through: every update is an insert of a complete
      quad and, unless duplicates are ignored, none is repeated or stored. */
  predicate QuadsAcceptable(quads: set<Quad>, qs: seq<QuadUpdate>, ignoreDup: bool) {
    && (forall i :: 0 <= i < |qs| ==> Insertable(qs[i]))
    && (!ignoreDup ==> NoRepeats(qs) && forall i :: 0 <= i < |qs| ==> qs[i].quad !in quads)
  }

  lemma QuadsOfSnoc(qs: seq<QuadUpdate>)
    requires qs != []
    ensures QuadsOf(qs) == QuadsOf(qs[..|qs| - 1]) + {qs[|qs| - 1].quad}
  {
    var before := qs[..|qs| - 1];
    forall q | q in QuadsOf(qs) ensures q in QuadsOf(before) + {qs[|qs| - 1].quad} {
      var i :| 0 <= i < |qs| && qs[i].quad == q;
      if i < |before| { assert before[i].quad == q; }
    }
    forall q | q in QuadsOf(before) ensures q in QuadsOf(qs) {
      var i :| 0 <= i < |before| && before[i].quad == q;
      assert qs[i].quad == q;
    }
  }

  lemma AcceptableSnoc(quads: set<Quad>, qs: seq<QuadUpdate>, ignoreDup: bool)
    requires qs != []
    ensures var before, q := qs[..|qs| - 1], qs[|qs| - 1];
      QuadsAcceptable(quads, qs, ignoreDup) <==>
        && QuadsAcceptable(quads, before, ignoreDup) && Insertable(q)
        && (ignoreDup || q.quad !in quads + QuadsOf(before))
  {
    var k := |qs| - 1;
    var before := qs[..k];
    assert forall i :: 0 <= i < k ==> before[i] == qs[i];
    if QuadsAcceptable(quads, qs, ignoreDup) { assert Insertable(qs[k]); }
    if QuadsAcceptable(quads, before, ignoreDup) && Insertable(qs[k])
       && (ignoreDup || qs[k].quad !in quads + QuadsOf(before)) {
      forall i | 0 <= i < |qs| ensures Insertable(qs[i]) { assert i < k ==> Insertable(before[i]); }
      forall i, j | 0 <= i < j < |qs| && !ignoreDup ensures qs[i].quad != qs[j].quad {
        assert if j < k then before[i].quad != before[j].quad else before[i].quad in QuadsOf(before);
      }
      forall i | 0 <= i < |qs| && !ignoreDup ensures qs[i].quad !in quads {
        assert i < k ==> before[i].quad !in quads;
      }
    }
  }

  /** The quad loop stores the whole batch, and goes through exactly when the
      batch is acceptable. */
  lemma {:induction false} QuadsExact(quads: set<Quad>, qs: seq<QuadUpdate>, ignoreDup: bool)
    ensures RunQuads(quads, qs, ignoreDup).Ok() <==> QuadsAcceptable(quads, qs, ignoreDup)
    ensures RunQuads(quads, qs, ignoreDup).Ok() ==> RunQuads(quads, qs, ignoreDup).table == quads + QuadsOf(qs)
  {
    if qs == [] {
      assert QuadsOf(qs) == {};
    } else {
      QuadsExact(quads, qs[..|qs| - 1], ignoreDup);
      QuadsOfSnoc(qs);
      AcceptableSnoc(quads, qs, ignoreDup);
    }
  }

  /** runTx succeeds exactly when every node update and the quads are acceptable. */
  lemma RunSucceeds(t: Tables, b: Batch)
    ensures Run(t, b).Ok() <==>
      && (forall i :: 0 <= i < |b.nodes| ==> b.nodes[i].refInc >= 0 && Valid(b.nodes[i]))
      && QuadsAcceptable(t.quads, b.quads, b.ignoreDup)
  {
    NodesSucceed(t.nodes, b.nodes);
    QuadsExact(t.quads, b.quads, b.ignoreDup);
  }

  // ------------------------------------------------------- refusal: the prefix

  /** The batch up to an element, counting nodes first. */
  function Prefix(b: Batch, k: nat): Batch
    requires k <= |b.nodes| + |b.quads|
  {
    if k <= |b.nodes| then b.(nodes := b.nodes[..k], quads := [])
    else b.(quads := b.quads[..k - |b.nodes|])
  }

  lemma {:induction false} NodesPrefix(nodes: map<NodeHash, Row>, ns: seq<NodeUpdate>)
    ensures var r := RunNodes(nodes, ns);
      && RunNodes(nodes, ns[..r.done]) == Outcome(r.table, r.done, None)
      && (!r.Ok() ==> RefuseNode(ns[r.done]) == r.refused)
  {
    hide RefuseNode, PutNode;
    if ns != [] {
      var before := ns[..|ns| - 1];
      NodesPrefix(nodes, before);
      var r := RunNodes(nodes, ns);
      if r.Ok() {
        assert ns[..r.done] == ns;
      } else {
        assert before[..r.done] == ns[..r.done];
        if RunNodes(nodes, before).Ok() { assert before[..r.done] == before; }
      }
    }
  }

  lemma {:induction false} QuadsPrefix(quads: set<Quad>, qs: seq<QuadUpdate>, ignoreDup: bool)
    ensures var r := RunQuads(quads, qs, ignoreDup);
      && RunQuads(quads, qs[..r.done], ignoreDup) == Outcome(r.table, r.done, None)
      && (!r.Ok() ==> RefuseQuad(r.table, qs[r.done], ignoreDup) == r.refused)
  {
    hide RefuseQuad;
    if qs != [] {
      var before := qs[..|qs| - 1];
      QuadsPrefix(quads, before, ignoreDup);
      var r := RunQuads(quads, qs, ignoreDup);
      if r.Ok() {
        assert qs[..r.done] == qs;
      } else {
        assert before[..r.done] == qs[..r.done];
        if RunQuads(quads, before, ignoreDup).Ok() { assert before[..r.done] == before; }
      }
    }
  }

  /** On an error the tables are exactly those of the elements before the first
      offending one, which alone would have succeeded. */
  lemma ErrorKeepsPrefix(t: Tables, b: Batch)
    requires !Run(t, b).Ok()
    ensures var r := Run(t, b);
      && r.done < |b.nodes| + |b.quads|
      && Run(t, Prefix(b, r.done)).Ok() && Run(t, Prefix(b, r.done)).table == r.table
      && !Run(t, Prefix(b, r.done + 1)).Ok()
  {
    if RunNodes(t.nodes, b.nodes).Ok() {
      QuadErrorKeepsPrefix(t, b);
    } else {
      NodesPrefix(t.nodes, b.nodes);
      var k := Run(t, b).done;
      assert b.nodes[..k + 1][..k] == b.nodes[..k];
      hide RunQuads;
    }
  }

  lemma QuadErrorKeepsPrefix(t: Tables, b: Batch)
    requires !Run(t, b).Ok() && RunNodes(t.nodes, b.nodes).Ok()
    ensures var r := Run(t, b);
      && r.done < |b.nodes| + |b.quads|
      && Run(t, Prefix(b, r.done)).Ok() && Run(t, Prefix(b, r.done)).table == r.table
      && !Run(t, Prefix(b, r.done + 1)).Ok()
  {
    QuadsPrefix(t.quads, b.quads, b.ignoreDup);
    var k := RunQuads(t.quads, b.quads, b.ignoreDup).done;
    assert b.nodes[..|b.nodes|] == b.nodes && b.quads[..0] == [];
    assert b.quads[..k + 1][..k] == b.quads[..k];
    assert !RunQuads(t.quads, b.quads[..k + 1], b.ignoreDup).Ok();
    hide RunNodes, RunQuads;
    QuadPrefixRun(t, b, k);
    QuadPrefixRun(t, b, k + 1);
    hide Prefix;
  }

  lemma QuadPrefixRun(t: Tables, b: Batch, k: nat)
    requires k <= |b.quads| && RunNodes(t.nodes, b.nodes).Ok()
    ensures var r, q := Run(t, Prefix(b, |b.nodes| + k)), RunQuads(t.quads, b.quads[..k], b.ignoreDup);
      r.Ok() == q.Ok() && r.table == Tables(RunNodes(t.nodes, b.nodes).table, q.table)
  {
    assert b.nodes[..|b.nodes|] == b.nodes && b.quads[..0] == [];
    hide RunNodes, RunQuads;
  }

  /** Why a batch is refused: the element it stops at has a negative RefInc or,
      having none, a value that cannot be encoded; or it is a delete, or else has a
      null end, or else is stored by then and duplicates are not ignored. */
  lemma RefusedBecause(t: Tables, b: Batch)
    requires !Run(t, b).Ok()
    ensures var r := Run(t, b);
      && r.done < |b.nodes| + |b.quads|
      && (r.done < |b.nodes| ==>
            var n := b.nodes[r.done];
            && (r.refused == Some(NegativeRefs) <==> n.refInc < 0)
            && (r.refused == Some(BadValue) <==> n.refInc >= 0)
            && (n.refInc >= 0 ==> n.val == Foreign(None)))
      && (r.done >= |b.nodes| ==>
            var q := b.quads[r.done - |b.nodes|];
            var nullEnd := q.quad.subject == 0 || q.quad.predicat == 0 || q.quad.object_ == 0;
            && (r.refused == Some(QuadDelete) <==> q.del)
            && (r.refused == Some(NullHash) <==> !q.del && nullEnd)
            && (r.refused == Some(QuadExists) <==> !q.del && !nullEnd)
            && (!q.del && !nullEnd ==>
                  !b.ignoreDup
                  && q.quad in t.quads + QuadsOf(b.quads[..r.done - |b.nodes|])))
  {
    NodesPrefix(t.nodes, b.nodes);
    if RunNodes(t.nodes, b.nodes).Ok() {
      QuadsPrefix(t.quads, b.quads, b.ignoreDup);
      var k := RunQuads(t.quads, b.quads, b.ignoreDup).done;
      QuadsExact(t.quads, b.quads[..k], b.ignoreDup);
    }
    hide RunNodes, RunQuads, QuadsOf;
  }

  // ---------------------------------------------------------- batch splitting

  lemma {:induction false} NodesAppend(nodes: map<NodeHash, Row>, a: seq<NodeUpdate>, b: seq<NodeUpdate>)
    ensures RunNodes(nodes, a + b).Ok() <==> RunNodes(nodes, a).Ok() && RunNodes(RunNodes(nodes, a).table, b).Ok()
    ensures RunNodes(nodes, a + b).Ok() ==> RunNodes(nodes, a + b).table == RunNodes(RunNodes(nodes, a).table, b).table
  {
    if b == [] {
      assert a + b == a;
    } else {
      assert (a + b)[..|a + b| - 1] == a + b[..|b| - 1];
      NodesAppend(nodes, a, b[..|b| - 1]);
    }
  }

  lemma {:induction false} QuadsAppend(quads: set<Quad>, a: seq<QuadUpdate>, b: seq<QuadUpdate>, ignoreDup: bool)
    ensures RunQuads(quads, a + b, ignoreDup).Ok() <==>
      RunQuads(quads, a, ignoreDup).Ok() && RunQuads(RunQuads(quads, a, ignoreDup).table, b, ignoreDup).Ok()
    ensures RunQuads(quads, a + b, ignoreDup).Ok() ==>
      RunQuads(quads, a + b, ignoreDup).table == RunQuads(RunQuads(quads, a, ignoreDup).table, b, ignoreDup).table
  {
    if b == [] {
      assert a + b == a;
    } else {
      assert (a + b)[..|a + b| - 1] == a + b[..|b| - 1];
      QuadsAppend(quads, a, b[..|b| - 1], ignoreDup);
    }
  }

  function Join(a: Batch, b: Batch): Batch {
    Batch(a.nodes + b.nodes, a.quads + b.quads, a.ignoreDup)
  }

  /** One call on two batches joined succeeds exactly when two calls in sequence
      do, and leaves the same tables: the second batch's node loop may run
      before or after the first batch's quad loop. */
  lemma BatchSplitting(t: Tables, a: Batch, b: Batch)
    requires a.ignoreDup == b.ignoreDup
    ensures Run(t, Join(a, b)).Ok() <==> Run(t, a).Ok() && Run(Run(t, a).table, b).Ok()
    ensures Run(t, Join(a, b)).Ok() ==> Run(t, Join(a, b)).table == Run(Run(t, a).table, b).table
  {
    NodesAppend(t.nodes, a.nodes, b.nodes);
    QuadsAppend(t.quads, a.quads, b.quads, a.ignoreDup);
  }

  // --------------------------------------------------------------- whole runs

  /** A sequence of transactions, each of which went through. */
  ghost predicate History(ts: seq<Tables>, bs: seq<Batch>) {
    && |ts| == |bs| + 1
    && forall i :: 0 <= i < |bs| ==> Run(ts[i], bs[i]).Ok() && ts[i + 1] == Run(ts[i], bs[i]).table
  }

  /** All the node updates of a run, in order. */
  function AllNodes(bs: seq<Batch>): seq<NodeUpdate> {
    if bs == [] then [] else AllNodes(bs[..|bs| - 1]) + bs[|bs| - 1].nodes
  }

  function AllQuads(bs: seq<Batch>): set<Quad> {
    if bs == [] then {} else AllQuads(bs[..|bs| - 1]) + QuadsOf(bs[|bs| - 1].quads)
  }

  /** After any run of successful batches the node table is what one node loop
      over all their updates would give, and the quads are all those stored or
      inserted. With NodesExact: nodes and quads only grow, the cells of a node
      are fixed when it first appears, and its refs are the last RefInc ever
      given for it. */
  lemma {:induction false} WholeRun(ts: seq<Tables>, bs: seq<Batch>)
    requires History(ts, bs)
    ensures RunNodes(ts[0].nodes, AllNodes(bs)).Ok()
    ensures ts[|bs|].nodes == RunNodes(ts[0].nodes, AllNodes(bs)).table
    ensures ts[|bs|].quads == ts[0].quads + AllQuads(bs)
  {
    if bs != [] {
      var k := |bs| - 1;
      assert History(ts[..|ts| - 1], bs[..k]);
      WholeRun(ts[..|ts| - 1], bs[..k]);
      assert Run(ts[k], bs[k]).Ok() && ts[k + 1] == Run(ts[k], bs[k]).table;
      NodesAppend(ts[0].nodes, AllNodes(bs[..k]), bs[k].nodes);
      QuadsExact(ts[k].quads, bs[k].quads, bs[k].ignoreDup);
    }
  }

  /** The nodes a quad refers to. */
  function Ends(q: Quad): set<nat> {
    {q.subject, q.predicat, q.object_} + if q.label_ == 0 then {} else {q.label_}
  }

  predicate Anchored(nodes: map<NodeHash, Row>, q: Quad) {
    forall h | h in Ends(q) :: h > 0 && h in nodes
  }

  ghost predicate NoneDangling(t: Tables) {
    forall q :: q in t.quads ==> Anchored(t.nodes, q)
  }

  /** Every node the quads of a batch use is stored or mentioned by the batch. */
  predicate SelfContained(t: Tables, b: Batch) {
    forall i :: 0 <= i < |b.quads| ==>
      forall h | h in Ends(b.quads[i].quad) :: h > 0 && (h in t.nodes || Mentions(b.nodes, h))
  }

  lemma BatchAnchors(t: Tables, b: Batch)
    requires NoneDangling(t) && SelfContained(t, b) && Run(t, b).Ok()
    ensures NoneDangling(Run(t, b).table)
  {
    var after := Run(t, b).table;
    QuadsExact(t.quads, b.quads, b.ignoreDup);
    forall q | q in after.quads ensures Anchored(after.nodes, q) {
      forall h: nat | h in Ends(q) ensures h > 0 && h in after.nodes {
        if q in t.quads { assert Anchored(t.nodes, q); }
        NodesExact(t.nodes, b.nodes, h);
      }
    }
  }

  /** Although foreign keys are off, no stored quad dangles, if every batch brings
      or finds the nodes its quads use. */
  lemma {:induction false} NothingDangles(ts: seq<Tables>, bs: seq<Batch>, n: nat)
    requires History(ts, bs) && NoneDangling(ts[0]) && n <= |bs|
    requires forall i :: 0 <= i < |bs| ==> SelfContained(ts[i], bs[i])
    ensures NoneDangling(ts[n])
  {
    if n > 0 {
      NothingDangles(ts, bs, n - 1);
      assert Run(ts[n - 1], bs[n - 1]).Ok() && SelfContained(ts[n - 1], bs[n - 1]);
      BatchAnchors(ts[n - 1], bs[n - 1]);
    }
  }

  /** What a run does to one node: it stays once stored, with the cells it first
      had, and its refs are the last RefInc any batch gave. */
  lemma NodeOverRun(ts: seq<Tables>, bs: seq<Batch>, h: NodeHash)
    requires History(ts, bs)
    ensures h in ts[|bs|].nodes <==> h in ts[0].nodes || Mentions(AllNodes(bs), h)
    ensures h in ts[0].nodes ==> ts[|bs|].nodes[h].cells == ts[0].nodes[h].cells
    ensures Mentions(AllNodes(bs), h) ==> ts[|bs|].nodes[h].refs == LastOf(AllNodes(bs), h).refInc
    ensures ts[0].quads <= ts[|bs|].quads
  {
    WholeRun(ts, bs);
    NodesExact(ts[0].nodes, AllNodes(bs), h);
  }

  // ------------------------------------------------------------------- replay

  /** Two tables agree on the nodes a list mentions, as that list left them. */
  lemma {:induction false} NodesReplay(nodes: map<NodeHash, Row>, ns: seq<NodeUpdate>)
    requires RunNodes(nodes, ns).Ok()
    ensures RunNodes(RunNodes(nodes, ns).table, ns).Ok()
    ensures RunNodes(RunNodes(nodes, ns).table, ns).table == RunNodes(nodes, ns).table
  {
    var once := RunNodes(nodes, ns).table;
    NodesSucceed(nodes, ns);
    NodesSucceed(once, ns);
    var twice := RunNodes(once, ns).table;
    forall h: NodeHash ensures h in twice <==> h in once
    {
      NodesExact(nodes, ns, h);
      NodesExact(once, ns, h);
    }
    forall h: NodeHash | h in once ensures twice[h] == once[h] {
      NodesExact(nodes, ns, h);
      NodesExact(once, ns, h);
    }
    assert twice == once;
  }

  /** Applying a successful batch again changes nothing when duplicates are
      ignored, and is refused when they are not and it has quads. */
  lemma ReplayIdempotent(t: Tables, b: Batch)
    requires Run(t, b).Ok()
    ensures var after := Run(t, b).table;
      && Run(after, b.(ignoreDup := true)).Ok() && Run(after, b.(ignoreDup := true)).table == after
      && (Run(after, b.(ignoreDup := false)).Ok() <==> b.quads == [])
  {
    NodesReplay(t.nodes, b.nodes);
    var after := Run(t, b).table;
    QuadsExact(t.quads, b.quads, b.ignoreDup);
    QuadsExact(after.quads, b.quads, true);
    QuadsExact(after.quads, b.quads, false);
    if b.quads != [] {
      assert b.quads[0].quad in QuadsOf(b.quads);
    }
  }
}
