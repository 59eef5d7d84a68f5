/** Metric records and the sequences of single-field writes by which the two visitors fill them. */
module NodeWrites {
  import opened Basics
  import opened Plans

  /** PWH_NODE_MAGIC */
  const NODE_MAGIC: nat := 0xDEADBEEF

  datatype Execution = Execution(
    tuplesReturned: real, loopsExecuted: real, startupTimeUs: real, totalTimeUs: real,
    rowsFilteredByJoins: real, rowsFilteredByExpressions: real)

  datatype BufferUsage = BufferUsage(
    cacheHits: nat, cacheMisses: nat, localCacheHits: nat, localCacheMisses: nat,
    spillFileReads: nat, spillFileWrites: nat)

  /** `nodeId` and `parentId` hold the bits of a u32; -1 is stored as 2^32 - 1. */
  datatype NodeMetrics = NodeMetrics(
    tag: nat, nodeId: nat, parentId: nat, execution: Execution, bufferUsage: BufferUsage, magic: nat)

  datatype Op =
    | SetNodeId(id: nat) | SetParent(parent: nat) | SetTag(tag: nat)
    | SetTuples(r: real) | SetStartup(r: real) | SetTotal(r: real) | SetLoops(r: real)
    | SetByJoins(r: real) | SetByExprs(r: real)
    | SetHits(n: nat) | SetMisses(n: nat) | SetLocalHits(n: nat) | SetLocalMisses(n: nat)
    | SetSpillReads(n: nat) | SetSpillWrites(n: nat)
    | SetMagic

  function ApplyOp(m: NodeMetrics, op: Op): NodeMetrics {
    match op
    case SetNodeId(i) => m.(nodeId := i)
    case SetParent(p) => m.(parentId := p)
    case SetTag(t) => m.(tag := t)
    case SetTuples(r) => m.(execution := m.execution.(tuplesReturned := r))
    case SetStartup(r) => m.(execution := m.execution.(startupTimeUs := r))
    case SetTotal(r) => m.(execution := m.execution.(totalTimeUs := r))
    case SetLoops(r) => m.(execution := m.execution.(loopsExecuted := r))
    case SetByJoins(r) => m.(execution := m.execution.(rowsFilteredByJoins := r))
    case SetByExprs(r) => m.(execution := m.execution.(rowsFilteredByExpressions := r))
    case SetHits(n) => m.(bufferUsage := m.bufferUsage.(cacheHits := n))
    case SetMisses(n) => m.(bufferUsage := m.bufferUsage.(cacheMisses := n))
    case SetLocalHits(n) => m.(bufferUsage := m.bufferUsage.(localCacheHits := n))
    case SetLocalMisses(n) => m.(bufferUsage := m.bufferUsage.(localCacheMisses := n))
    case SetSpillReads(n) => m.(bufferUsage := m.bufferUsage.(spillFileReads := n))
    case SetSpillWrites(n) => m.(bufferUsage := m.bufferUsage.(spillFileWrites := n))
    case SetMagic => m.(magic := NODE_MAGIC)
  }

  /** Writes that leave the topology fields and the magic number alone. */
  predicate CounterOp(op: Op) {
    !op.SetNodeId? && !op.SetParent? && !op.SetTag? && !op.SetMagic?
  }

  datatype Write = Write(at: nat, op: Op)

  function ApplyWrite(m: seq<NodeMetrics>, w: Write): (r: seq<NodeMetrics>)
    ensures |r| == |m|
  {
    if w.at < |m| then m[w.at := ApplyOp(m[w.at], w.op)] else m
  }

  /** Memory after a sequence of writes. */
  function ApplyWrites(m: seq<NodeMetrics>, ws: seq<Write>): (r: seq<NodeMetrics>)
    ensures |r| == |m|
    decreases |ws|
  {
    if ws == [] then m else ApplyWrites(ApplyWrite(m, ws[0]), ws[1..])
  }

  lemma {:induction false} ApplyConcat(m: seq<NodeMetrics>, a: seq<Write>, b: seq<Write>)
    ensures ApplyWrites(m, a + b) == ApplyWrites(ApplyWrites(m, a), b)
    decreases |a|
  {
    if a == [] {
      assert a + b == b;
    } else {
      assert (a + b)[1..] == a[1..] + b;
      ApplyConcat(ApplyWrite(m, a[0]), a[1..], b);
    }
  }

  lemma {:induction false} ApplyOne(m: seq<NodeMetrics>, a: seq<Write>, w: Write)
    ensures ApplyWrites(m, a + [w]) == ApplyWrite(ApplyWrites(m, a), w)
  {
    ApplyConcat(m, a, [w]);
    assert ApplyWrites(ApplyWrites(m, a), [w]) == ApplyWrites(ApplyWrite(ApplyWrites(m, a), w), []);
  }

  // ---- What one visit writes --------------------------------------------------------------------

  datatype Visitor = Topology | Refresh

  function BufferOpsOf(b: BufUsage): seq<Op> {
    [SetHits(b.sharedHit), SetMisses(b.sharedRead), SetLocalHits(b.localHit),
     SetLocalMisses(b.localRead), SetSpillReads(b.tempRead), SetSpillWrites(b.tempWritten)]
  }

  /** The stores of the topology visitor for one node, in program order. */
  function TopologyOps(id: nat, parent: int, tag: nat): seq<Op>
  {
    [SetNodeId(id), SetParent(ToU32(parent)), SetTag(tag)]
    + [SetTuples(0.0), SetStartup(0.0), SetTotal(0.0), SetLoops(0.0), SetByJoins(0.0), SetByExprs(0.0)]
    + BufferOpsOf(BufUsage(0, 0, 0, 0, 0, 0))
    + [SetMagic]
  }

  function Running(i: Instrumentation): real { if i.running then 1.0 else 0.0 }

  /** The stores of the instrumentation visitor for one node, in program order. */
  function RefreshOps(i: Instrumentation): seq<Op> {
    [SetTuples(i.ntuples + i.tuplecount), SetLoops(i.nloops + Running(i)),
     SetStartup((i.startup + i.firsttuple) * 1000000.0), SetTotal((i.total + i.counter) * 1000000.0),
     SetByJoins(i.nfiltered1), SetByExprs(i.nfiltered2)]
    + BufferOpsOf(i.bufusage)
  }

  /** The values a node shows once the instrumentation `i` has been copied into it. */
  function Snapshot(i: Instrumentation): (Execution, BufferUsage) {
    (Execution(i.ntuples + i.tuplecount, i.nloops + Running(i), (i.startup + i.firsttuple) * 1000000.0,
               (i.total + i.counter) * 1000000.0, i.nfiltered1, i.nfiltered2),
     BufferUsage(i.bufusage.sharedHit, i.bufusage.sharedRead, i.bufusage.localHit, i.bufusage.localRead,
                 i.bufusage.tempRead, i.bufusage.tempWritten))
  }

  /** The record shows the executor's counters: tuples and loops with those of the running cycle, times in
      microseconds, filtered rows, and buffer usage. */
  predicate ShowsInstrumentation(n: NodeMetrics, i: Instrumentation) {
    && n.execution.tuplesReturned == i.ntuples + i.tuplecount
    && (i.running ==> n.execution.loopsExecuted == i.nloops + 1.0)
    && (!i.running ==> n.execution.loopsExecuted == i.nloops)
    && n.execution.startupTimeUs == (i.startup + i.firsttuple) * 1000000.0
    && n.execution.totalTimeUs == (i.total + i.counter) * 1000000.0
    && n.execution.rowsFilteredByJoins == i.nfiltered1 && n.execution.rowsFilteredByExpressions == i.nfiltered2
    && n.bufferUsage.cacheHits == i.bufusage.sharedHit && n.bufferUsage.cacheMisses == i.bufusage.sharedRead
    && n.bufferUsage.localCacheHits == i.bufusage.localHit && n.bufferUsage.localCacheMisses == i.bufusage.localRead
    && n.bufferUsage.spillFileReads == i.bufusage.tempRead
    && n.bufferUsage.spillFileWrites == i.bufusage.tempWritten
  }

  const NOTHING_RUN := Execution(0.0, 0.0, 0.0, 0.0, 0.0, 0.0)
  const NOTHING_READ := BufferUsage(0, 0, 0, 0, 0, 0)

  function At(id: nat, ops: seq<Op>): (ws: seq<Write>)
    ensures |ws| == |ops| && forall i :: 0 <= i < |ws| ==> ws[i] == Write(id, ops[i])
  {
    seq(|ops|, i requires 0 <= i < |ops| => Write(id, ops[i]))
  }

  /** An entry of a preorder list that may be visited: a node of the graph with a plan. */
  predicate Visible(h: Heap, e: Entry<nat>) {
    e.item in h && h[e.item].planTag.Some?
  }

  predicate AllVisible(h: Heap, es: seq<Entry<nat>>) {
    forall i :: 0 <= i < |es| ==> Visible(h, es[i])
  }

  function VisitWrites(v: Visitor, h: Heap, id: nat, e: Entry<nat>): seq<Write>
    requires Visible(h, e)
  {
    match v
    case Topology => At(id, TopologyOps(id, e.parent, h[e.item].planTag.value))
    case Refresh =>
      match h[e.item].instrument
      case None => []
      case Some(i) => At(id, RefreshOps(i))
  }

  /** All stores of a pass over `es`, whose first node has number `start`. */
  function PassWrites(v: Visitor, h: Heap, es: seq<Entry<nat>>, start: nat): seq<Write>
    requires AllVisible(h, es)
    decreases |es|
  {
    if es == [] then []
    else VisitWrites(v, h, start, es[0]) + PassWrites(v, h, es[1..], start + 1)
  }

  lemma {:induction false} PassConcat(v: Visitor, h: Heap, a: seq<Entry<nat>>, b: seq<Entry<nat>>, start: nat)
    requires AllVisible(h, a) && AllVisible(h, b)
    ensures AllVisible(h, a + b)
    ensures PassWrites(v, h, a + b, start) == PassWrites(v, h, a, start) + PassWrites(v, h, b, start + |a|)
    decreases |a|
  {
    assert AllVisible(h, a + b);
    if a == [] {
      assert a + b == b;
    } else {
      var rest, first := a[1..], VisitWrites(v, h, start, a[0]);
      assert (a + b)[1..] == rest + b && (a + b)[0] == a[0];
      PassNext(v, h, a, start);
      PassNext(v, h, a + b, start);
      PassConcat(v, h, rest, b, start + 1);
      Assoc(first, PassWrites(v, h, rest, start + 1), PassWrites(v, h, b, start + |a|));
    }
  }

  lemma {:induction false} PassNext(v: Visitor, h: Heap, es: seq<Entry<nat>>, start: nat)
    requires AllVisible(h, es) && es != []
    ensures AllVisible(h, es[1..])
    ensures PassWrites(v, h, es, start) == VisitWrites(v, h, start, es[0]) + PassWrites(v, h, es[1..], start + 1)
  {
  }

  // ---- What a pass leaves in memory -------------------------------------------------------------

  function ApplyOps(m: NodeMetrics, ops: seq<Op>): NodeMetrics
    decreases |ops|
  {
    if ops == [] then m else ApplyOps(ApplyOp(m, ops[0]), ops[1..])
  }

  /** A node after one visit. */
  function Visited(v: Visitor, h: Heap, id: nat, e: Entry<nat>, m: NodeMetrics): NodeMetrics
    requires Visible(h, e)
  {
    match v
    case Topology =>
      NodeMetrics(h[e.item].planTag.value, id, ToU32(e.parent), NOTHING_RUN, NOTHING_READ, NODE_MAGIC)
    case Refresh =>
      match h[e.item].instrument
      case None => m
      case Some(i) => m.(execution := Snapshot(i).0, bufferUsage := Snapshot(i).1)
  }

  lemma {:induction false} ApplyAt(m: seq<NodeMetrics>, id: nat, ops: seq<Op>)
    requires id < |m|
    ensures ApplyWrites(m, At(id, ops)) == m[id := ApplyOps(m[id], ops)]
    decreases |ops|
  {
    if ops != [] {
      assert At(id, ops)[1..] == At(id, ops[1..]);
      ApplyAt(ApplyWrite(m, At(id, ops)[0]), id, ops[1..]);
    }
  }

  lemma {:induction false} OpsConcat(m: NodeMetrics, a: seq<Op>, b: seq<Op>)
    ensures ApplyOps(m, a + b) == ApplyOps(ApplyOps(m, a), b)
    decreases |a|
  {
    if a == [] {
      assert a + b == b;
    } else {
      assert (a + b)[1..] == a[1..] + b;
      OpsConcat(ApplyOp(m, a[0]), a[1..], b);
    }
  }

  lemma {:induction false} ThreeOps(m: NodeMetrics, a: Op, b: Op, c: Op)
    ensures ApplyOps(m, [a, b, c]) == ApplyOp(ApplyOp(ApplyOp(m, a), b), c)
  {
    var m1 := ApplyOp(m, a);
    assert [a, b, c][1..] == [b, c] && [b, c][1..] == [c] && [c][1..] == [];
    assert ApplyOps(m1, [b, c]) == ApplyOps(ApplyOp(m1, b), [c]);
  }

  lemma {:induction false} ExecutionOps(m: NodeMetrics, t: real, s: real, w: real, l: real, j: real, x: real)
    ensures ApplyOps(m, [SetTuples(t), SetStartup(s), SetTotal(w)] + [SetLoops(l), SetByJoins(j), SetByExprs(x)])
         == m.(execution := Execution(t, l, s, w, j, x))
  {
    OpsConcat(m, [SetTuples(t), SetStartup(s), SetTotal(w)], [SetLoops(l), SetByJoins(j), SetByExprs(x)]);
    ThreeOps(m, SetTuples(t), SetStartup(s), SetTotal(w));
    var m' := ApplyOps(m, [SetTuples(t), SetStartup(s), SetTotal(w)]);
    ThreeOps(m', SetLoops(l), SetByJoins(j), SetByExprs(x));
  }

  lemma {:induction false} RefreshExecutionOps(m: NodeMetrics, t: real, s: real, w: real, l: real, j: real, x: real)
    ensures ApplyOps(m, [SetTuples(t), SetLoops(l), SetStartup(s)] + [SetTotal(w), SetByJoins(j), SetByExprs(x)])
         == m.(execution := Execution(t, l, s, w, j, x))
  {
    OpsConcat(m, [SetTuples(t), SetLoops(l), SetStartup(s)], [SetTotal(w), SetByJoins(j), SetByExprs(x)]);
    ThreeOps(m, SetTuples(t), SetLoops(l), SetStartup(s));
    var m' := ApplyOps(m, [SetTuples(t), SetLoops(l), SetStartup(s)]);
    ThreeOps(m', SetTotal(w), SetByJoins(j), SetByExprs(x));
  }

  lemma {:induction false} BufferOps(m: NodeMetrics, a: nat, b: nat, c: nat, d: nat, e: nat, f: nat)
    ensures ApplyOps(m, [SetHits(a), SetMisses(b), SetLocalHits(c)]
        + [SetLocalMisses(d), SetSpillReads(e), SetSpillWrites(f)])
         == m.(bufferUsage := BufferUsage(a, b, c, d, e, f))
  {
    OpsConcat(m, [SetHits(a), SetMisses(b), SetLocalHits(c)], [SetLocalMisses(d), SetSpillReads(e), SetSpillWrites(f)]);
    ThreeOps(m, SetHits(a), SetMisses(b), SetLocalHits(c));
    var m' := ApplyOps(m, [SetHits(a), SetMisses(b), SetLocalHits(c)]);
    ThreeOps(m', SetLocalMisses(d), SetSpillReads(e), SetSpillWrites(f));
  }

  /** The sixteen stores of a topology visit leave nothing of the node's old contents. */
  lemma {:induction false} TopologyOpsEffect(m: NodeMetrics, id: nat, parent: int, tag: nat)
    ensures ApplyOps(m, TopologyOps(id, parent, tag))
         == NodeMetrics(tag, id, ToU32(parent), NOTHING_RUN, NOTHING_READ, NODE_MAGIC)
  {
    var ids := [SetNodeId(id), SetParent(ToU32(parent)), SetTag(tag)];
    var run := [SetTuples(0.0), SetStartup(0.0), SetTotal(0.0)] + [SetLoops(0.0), SetByJoins(0.0), SetByExprs(0.0)];
    var read := [SetHits(0), SetMisses(0), SetLocalHits(0)] + [SetLocalMisses(0), SetSpillReads(0), SetSpillWrites(0)];
    assert TopologyOps(id, parent, tag) == ids + (run + (read + [SetMagic]));
    OpsConcat(m, ids, run + (read + [SetMagic]));
    ThreeOps(m, ids[0], ids[1], ids[2]);
    var m1 := ApplyOps(m, ids);
    OpsConcat(m1, run, read + [SetMagic]);
    ExecutionOps(m1, 0.0, 0.0, 0.0, 0.0, 0.0, 0.0);
    var m2 := ApplyOps(m1, run);
    OpsConcat(m2, read, [SetMagic]);
    BufferOps(m2, 0, 0, 0, 0, 0, 0);
    var m3 := ApplyOps(m2, read);
    assert ApplyOps(m3, [SetMagic]) == ApplyOps(ApplyOp(m3, SetMagic), []);
  }

  /** The twelve stores of a refresh replace the counters and nothing else. */
  lemma {:induction false} RefreshOpsEffect(m: NodeMetrics, i: Instrumentation)
    ensures ApplyOps(m, RefreshOps(i)) == m.(execution := Snapshot(i).0, bufferUsage := Snapshot(i).1)
    ensures ShowsInstrumentation(ApplyOps(m, RefreshOps(i)), i)
  {
    var ops := RefreshOps(i);
    var run := [ops[0], ops[1], ops[2]] + [ops[3], ops[4], ops[5]];
    var read := [ops[6], ops[7], ops[8]] + [ops[9], ops[10], ops[11]];
    assert ops == run + read;
    OpsConcat(m, run, read);
    RefreshExecutionOps(m, ops[0].r, ops[2].r, ops[3].r, ops[1].r, ops[4].r, ops[5].r);
    BufferOps(ApplyOps(m, run), ops[6].n, ops[7].n, ops[8].n, ops[9].n, ops[10].n, ops[11].n);
  }

  lemma {:induction false} VisitEffect(v: Visitor, h: Heap, id: nat, e: Entry<nat>, m: seq<NodeMetrics>)
    requires Visible(h, e) && id < |m|
    ensures ApplyWrites(m, VisitWrites(v, h, id, e)) == m[id := Visited(v, h, id, e, m[id])]
  {
    match v
    case Topology =>
      var ops := TopologyOps(id, e.parent, h[e.item].planTag.value);
      ApplyAt(m, id, ops);
      TopologyOpsEffect(m[id], id, e.parent, h[e.item].planTag.value);
    case Refresh =>
      if h[e.item].instrument.Some? {
        var i := h[e.item].instrument.value;
        ApplyAt(m, id, RefreshOps(i));
        RefreshOpsEffect(m[id], i);
      }
  }

  /** `r` is `m` with exactly the records of the nodes of the list changed, each by its own plan node. */
  ghost predicate Passed(v: Visitor, h: Heap, es: seq<Entry<nat>>, start: nat, m: seq<NodeMetrics>, r: seq<NodeMetrics>)
    requires AllVisible(h, es) && start + |es| <= |m|
  {
    && |r| == |m|
    && (forall j :: 0 <= j < start || start + |es| <= j < |m| ==> r[j] == m[j])
    && (forall j :: start <= j < start + |es| ==> r[j] == Visited(v, h, j, es[j - start], m[j]))
  }

  lemma {:induction false} PassedOne(
      v: Visitor, h: Heap, es: seq<Entry<nat>>, start: nat, m: seq<NodeMetrics>, m1: seq<NodeMetrics>,
          r: seq<NodeMetrics>)
    requires es != [] && AllVisible(h, es) && AllVisible(h, es[1..]) && start + |es| <= |m|
    requires m1 == m[start := Visited(v, h, start, es[0], m[start])] && Passed(v, h, es[1..], start + 1, m1, r)
    ensures Passed(v, h, es, start, m, r)
  {
    forall j | start + 1 <= j < start + |es| ensures r[j] == Visited(v, h, j, es[j - start], m[j]) {
      assert es[j - start] == es[1..][j - start - 1] && m1[j] == m[j];
    }
  }

  /** A pass changes exactly the records of the nodes it visits, each by its own plan node. */
  lemma {:induction false} PassEffect(v: Visitor, h: Heap, es: seq<Entry<nat>>, start: nat, m: seq<NodeMetrics>)
    requires AllVisible(h, es) && start + |es| <= |m|
    ensures var r := ApplyWrites(m, PassWrites(v, h, es, start));
      && (forall j :: 0 <= j < start || start + |es| <= j < |m| ==> r[j] == m[j])
      && (forall j :: start <= j < start + |es| ==> r[j] == Visited(v, h, j, es[j - start], m[j]))
  {
    PassIs(v, h, es, start, m);
  }

  lemma {:induction false} PassIs(v: Visitor, h: Heap, es: seq<Entry<nat>>, start: nat, m: seq<NodeMetrics>)
    requires AllVisible(h, es) && start + |es| <= |m|
    ensures Passed(v, h, es, start, m, ApplyWrites(m, PassWrites(v, h, es, start)))
    decreases |es|
  {
    if es != [] {
      var ws, rest := VisitWrites(v, h, start, es[0]), es[1..];
      var m1 := ApplyWrites(m, ws);
      ApplyConcat(m, ws, PassWrites(v, h, rest, start + 1));
      VisitEffect(v, h, start, es[0], m);
      PassIs(v, h, rest, start + 1, m1);
      PassedOne(v, h, es, start, m, m1, ApplyWrites(m1, PassWrites(v, h, rest, start + 1)));
    }
  }
}
