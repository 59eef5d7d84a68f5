/** The two entry points of the walk, and why the second pass may run later and often. */
module TwoPass {
  import opened Basics
  import opened Plans
  import opened Rebuild
  import opened NodeWrites
  import opened PlanWalker

  /** pwh_remember_planstate_tree_as_metric_structure. `failAt` is the number of visits at which the next recursive
      call raises an error, if one does; `deepest` is the deepest recursion reached. */
  method Remember(h: Heap, r: Ref, metrics: array<NodeMetrics>, max: nat, failAt: Option<nat>)
    returns (n: nat, failed: bool, ghost trace: seq<Write>, ghost deepest: nat)
    requires Closed(h) && RefsIn(h, [r]) && max <= metrics.Length
    modifies metrics
    ensures FailsIff(failed, failAt, |Preorder(h, r, max)|)
    ensures !failed ==> n == |Preorder(h, r, max)| && trace == TopologyStores(h, r, max)
    ensures failed ==> trace == StoresOf(Topology, h, Cut(Preorder(h, r, max), failAt.value))
    ensures metrics[..] == ApplyWrites(old(metrics[..]), trace)
    ensures deepest <= max + 1
  {
    PreorderVisible(h, r, max);
    if r.None? {
      NullPreorder(h, r, max);
      return 0, false, [], 0;
    }
    var walker := new Walker(Topology, h, metrics, max, failAt);
    var out := walker.Walk(r, -1, max + 1);
    WholeWalk(Topology, h, walker.limit, r, max + 1, out, walker.counter, walker.trace);
    CutTwice(Below(h, [r], -1, max + 1, 0), max, walker.limit);
    return walker.counter, out.Raised?, walker.trace, walker.deepest;
  }

  /** pwh_collect_planstate_metrics. */
  method Collect(h: Heap, r: Ref, metrics: array<NodeMetrics>, max: nat, failAt: Option<nat>)
    returns (failed: bool, ghost trace: seq<Write>, ghost deepest: nat)
    requires Closed(h) && RefsIn(h, [r]) && max <= metrics.Length
    modifies metrics
    ensures FailsIff(failed, failAt, |Refreshed(h, r, old(metrics[..]), max)|)
    ensures !failed ==> trace == RefreshStores(h, r, old(metrics[..]), max)
    ensures failed ==> trace == StoresOf(Refresh, h, Cut(Refreshed(h, r, old(metrics[..]), max), failAt.value))
    ensures metrics[..] == ApplyWrites(old(metrics[..]), trace)
    ensures deepest <= max + 1
  {
    PreorderVisible(h, r, max);
    if r.None? {
      NullPreorder(h, r, max);
      return false, [], 0;
    }
    var walker := new Walker(Refresh, h, metrics, max, failAt);
    ghost var visits := VisitLimit(Refresh, metrics[..], max);
    RefreshedIsCut(h, r, metrics[..], max);
    var out := walker.Walk(r, -1, max + 1);
    WholeWalk(Refresh, h, walker.limit, r, max + 1, out, walker.counter, walker.trace);
    CutTwice(Below(h, [r], -1, max + 1, 0), visits, walker.limit);
    return out.Raised?, walker.trace, walker.deepest;
  }

  /** An error at `failAt` visits is raised if a node is still to be visited then, and not if fewer are visited. */
  predicate FailsIff(failed: bool, failAt: Option<nat>, n: nat) {
    && (failed ==> failAt.Some? && failAt.value <= n)
    && (failAt.Some? && failAt.value < n ==> failed)
  }

  /** The stores of a pass over the nodes `es`, as far as they have a plan. */
  function StoresOf(v: Visitor, h: Heap, es: seq<Entry<nat>>): seq<Write> {
    if AllVisible(h, es) then PassWrites(v, h, es, 0) else []
  }

  /** What a walk from the root tells about the list of all nodes. */
  lemma {:induction false} WholeWalk(v: Visitor, h: Heap, limit: nat, r: Ref, d: nat, out: Outcome,
                                     n: nat, trace: seq<Write>)
    requires Walked(v, h, limit, [r], -1, d, 0, [], out, n, trace)
    ensures var es := Below(h, [r], -1, d, 0);
      && AllVisible(h, es) && AllVisible(h, Cut(es, limit))
      && trace == PassWrites(v, h, Cut(es, limit), 0)
      && (match out case Done => |es| <= limit case Stopped => |es| > limit case Raised => |es| >= limit)
      && (out.Done? || v.Topology? ==> n == Min(|es|, limit))
  {
    WalkedIff(v, h, limit, [r], -1, d, 0, [], out, n, trace);
    assert [] + PassWrites(v, h, Cut(Below(h, [r], -1, d, 0), limit), 0) == trace;
  }

  lemma {:induction false} CutTwice<T>(s: seq<T>, a: nat, b: nat)
    requires b <= a
    ensures Cut(Cut(s, a), b) == Cut(s, b)
  {
  }

  lemma {:induction false} RefreshedIsCut(h: Heap, r: Ref, m: seq<NodeMetrics>, max: nat)
    requires Closed(h) && RefsIn(h, [r]) && max <= |m|
    ensures Refreshed(h, r, m, max) == Cut(Below(h, [r], -1, max + 1, 0), VisitLimit(Refresh, m, max))
  {
    CutTwice(Below(h, [r], -1, max + 1, 0), max, FirstUnset(m, max));
  }

  /** The stores made before an error are a prefix of those of the whole pass. */
  lemma {:induction false} StoresPrefix(v: Visitor, h: Heap, es: seq<Entry<nat>>, n: nat)
    requires AllVisible(h, es)
    ensures var part := StoresOf(v, h, Cut(es, n));
      AllVisible(h, Cut(es, n)) && part == Cut(StoresOf(v, h, es), |part|)
  {
    if n < |es| {
      var a, b := es[..n], es[n..];
      assert a + b == es;
      PassConcat(v, h, a, b, 0);
    }
  }

  /** The nodes a refresh pass reaches: it stops at the first record without the magic number. */
  function Refreshed(h: Heap, r: Ref, m: seq<NodeMetrics>, max: nat): (es: seq<Entry<nat>>)
    requires Closed(h) && RefsIn(h, [r]) && max <= |m|
    ensures |es| <= max
  {
    Cut(Preorder(h, r, max), FirstUnset(m, max))
  }

  /** The stores of a topology pass, and of a refresh of the records `m`. */
  function TopologyStores(h: Heap, r: Ref, max: nat): seq<Write>
    requires Closed(h) && RefsIn(h, [r])
  {
    PreorderVisible(h, r, max);
    PassWrites(Topology, h, Preorder(h, r, max), 0)
  }

  function RefreshStores(h: Heap, r: Ref, m: seq<NodeMetrics>, max: nat): seq<Write>
    requires Closed(h) && RefsIn(h, [r]) && max <= |m|
  {
    PreorderVisible(h, r, max);
    PassWrites(Refresh, h, Refreshed(h, r, m, max), 0)
  }

  lemma {:induction false} PreorderVisible(h: Heap, r: Ref, max: nat)
    requires Closed(h) && RefsIn(h, [r])
    ensures AllVisible(h, Preorder(h, r, max))
  {
    BelowVisible(h, [r], -1, max + 1, 0);
  }

  lemma {:induction false} NullPreorder(h: Heap, r: Ref, max: nat)
    requires Closed(h) && RefsIn(h, [r]) && r.None?
    ensures Preorder(h, r, max) == []
  {
    assert [r][0] == r && [r][1..] == [];
    assert Unfold(h, [], max + 1) == Nil;
    assert Unfold(h, [r], max + 1) == Nil;
  }

  // ---- The recorded topology --------------------------------------------------------------------

  /** The recorded array is the numbering of the plan cut at `max` nodes, on any graph, however deep
      it is unfolded: parents precede children and only node 0 is a root. */
  lemma {:induction false} PreorderIsTree(h: Heap, r: Ref, max: nat, d: nat)
    requires Closed(h) && RefsIn(h, [r]) && d > max
    ensures var es := Preorder(h, r, max);
      && ParseAll(es) == CutForest(Unfold(h, [r], d), max)
      && Nested(es)
      && forall k :: 0 <= k < |es| ==> -1 <= es[k].parent < k && (es[k].parent == -1 <==> k == 0)
  {
    var f := Unfold(h, [r], max + 1);
    CutStable(h, [r], max + 1, d, max);
    TruncatedReadsBack(f, max);
    assert [r][1..] == [] && Unfold(h, [], max + 1) == Nil;
    assert f.Nil? || f.rest.Nil?;
    if f.Cons? {
      FlattenCons(f, -1, 0);
      assert Flatten(f.rest, -1, 1 + Size(f.kids)) == [];
      ParentsAtLeast(f.kids, 0, 1);
    }
  }

  /** Nodes listed below node `parent` have it or a later node as parent. */
  lemma {:induction false} ParentsAtLeast<X>(f: Forest<X>, parent: int, start: nat)
    requires parent < start
    ensures forall k :: 0 <= k < Size(f) ==> parent <= Flatten(f, parent, start)[k].parent
    decreases f
  {
    if f.Cons? {
      FlattenCons(f, parent, start);
      ParentsAtLeast(f.kids, start, start + 1);
      ParentsAtLeast(f.rest, parent, start + 1 + Size(f.kids));
    }
  }

  /** The records below `|es|` carry the topology of `es`. */
  ghost predicate ShowsTopology(m: seq<NodeMetrics>, h: Heap, es: seq<Entry<nat>>) {
    && AllVisible(h, es)
    && |es| <= |m|
    && forall j :: 0 <= j < |es| ==> ShowsNode(m[j], h, j, es[j])
  }

  ghost predicate ShowsNode(n: NodeMetrics, h: Heap, j: nat, e: Entry<nat>)
    requires Visible(h, e)
  {
    && n.nodeId == j
    && n.parentId == ToU32(e.parent)
    && n.tag == h[e.item].planTag.value
    && n.magic == 0xDEAD_BEEF
  }

  /** After the topology pass the first min(size, max) records are the preorder list with all counters
      at zero, and the remaining records are untouched. */
  lemma {:induction false} TopologyPass(h: Heap, r: Ref, m: seq<NodeMetrics>, max: nat)
    requires Closed(h) && RefsIn(h, [r]) && max <= |m|
    ensures AllVisible(h, Preorder(h, r, max))
    ensures var es := Preorder(h, r, max);
      var m' := ApplyWrites(m, PassWrites(Topology, h, es, 0));
      && ShowsTopology(m', h, es)
      && (forall j :: 0 <= j < |es| ==> m'[j].execution == NOTHING_RUN && m'[j].bufferUsage == NOTHING_READ)
      && (forall j :: |es| <= j < |m| ==> m'[j] == m[j])
  {
    var es := Preorder(h, r, max);
    PreorderVisible(h, r, max);
    PassEffect(Topology, h, es, 0, m);
  }

  // ---- The refresh pass -------------------------------------------------------------------------

  /** Two states of one plan graph that differ only in the executor's counters. */
  ghost predicate SameShape(h: Heap, h': Heap) {
    && h.Keys == h'.Keys
    && forall a :: a in h ==> h'[a] == h[a].(instrument := h'[a].instrument)
  }

  lemma {:induction false} SameShapeUnfold(h: Heap, h': Heap, refs: seq<Ref>, d: nat)
    requires SameShape(h, h') && Closed(h) && RefsIn(h, refs)
    ensures Closed(h') && RefsIn(h', refs)
    ensures Unfold(h', refs, d) == Unfold(h, refs, d)
    decreases d, |refs|
  {
    assert forall a :: a in h ==> Children(h'[a]) == Children(h[a]);
    if d > 0 && refs != [] {
      SameShapeUnfold(h, h', refs[1..], d);
      if !Skipped(h, refs[0]) {
        var a := refs[0].value;
        SameShapeUnfold(h, h', Children(h[a]), d - 1);
        assert Children(h'[a]) == Children(h[a]);
      }
    }
  }

  lemma {:induction false} SameShapePreorder(h: Heap, h': Heap, r: Ref, max: nat)
    requires SameShape(h, h') && Closed(h) && RefsIn(h, [r])
    ensures Closed(h') && RefsIn(h', [r])
    ensures Preorder(h', r, max) == Preorder(h, r, max)
  {
    SameShapeUnfold(h, h', [r], max + 1);
  }

  /** On records that show the plan's topology the refresh pass never stops at the magic number. */
  lemma {:induction false} RefreshNeverStops(h: Heap, r: Ref, m: seq<NodeMetrics>, max: nat)
    requires Closed(h) && RefsIn(h, [r]) && max <= |m|
    requires ShowsTopology(m, h, Preorder(h, r, max))
    ensures Refreshed(h, r, m, max) == Preorder(h, r, max)
  {
    var es := Preorder(h, r, max);
    forall j | 0 <= j < |es| ensures m[j].magic == NODE_MAGIC {
      assert ShowsNode(m[j], h, j, es[j]);
    }
  }

  /** The later pass pairs every index with the plan node of the first pass: record j shows exactly the
      counters of plan node j (nodes without instrumentation keep their values), every topology field
      and magic number stays, and records behind the plan are untouched. */
  lemma {:induction false} TwoPassAgreement(h: Heap, h': Heap, r: Ref, m: seq<NodeMetrics>, max: nat)
    requires SameShape(h, h') && Closed(h) && RefsIn(h, [r]) && max <= |m|
    requires ShowsTopology(m, h, Preorder(h, r, max))
    ensures Closed(h') && RefsIn(h', [r]) && Refreshed(h', r, m, max) == Preorder(h, r, max)
    ensures AllVisible(h', Preorder(h, r, max))
    ensures var es := Preorder(h, r, max);
      var m' := ApplyWrites(m, PassWrites(Refresh, h', es, 0));
      && ShowsTopology(m', h', es)
      && (forall j :: 0 <= j < |es| ==> ShowsCounters(m'[j], m[j], h'[es[j].item]))
      && (forall j :: |es| <= j < |m| ==> m'[j] == m[j])
  {
    SameShapePreorder(h, h', r, max);
    var es := Preorder(h, r, max);
    PreorderVisible(h', r, max);
    forall j | 0 <= j < |es| ensures ShowsNode(m[j], h', j, es[j]) {
      assert ShowsNode(m[j], h, j, es[j]);
      assert h'[es[j].item].planTag == h[es[j].item].planTag;
    }
    RefreshNeverStops(h', r, m, max);
    RefreshShows(h', es, m);
  }

  lemma {:induction false} RefreshShows(h: Heap, es: seq<Entry<nat>>, m: seq<NodeMetrics>)
    requires ShowsTopology(m, h, es)
    ensures var m' := ApplyWrites(m, PassWrites(Refresh, h, es, 0));
      && ShowsTopology(m', h, es)
      && (forall j :: 0 <= j < |es| ==> ShowsCounters(m'[j], m[j], h[es[j].item]))
      && (forall j :: |es| <= j < |m| ==> m'[j] == m[j])
  {
    PassEffect(Refresh, h, es, 0, m);
    var m' := ApplyWrites(m, PassWrites(Refresh, h, es, 0));
    forall j | 0 <= j < |es| ensures ShowsNode(m'[j], h, j, es[j]) && ShowsCounters(m'[j], m[j], h[es[j].item]) {
      assert ShowsNode(m[j], h, j, es[j]);
      RefreshedNode(h, j, es[j], m[j]);
    }
  }

  lemma {:induction false} RefreshedNode(h: Heap, j: nat, e: Entry<nat>, n: NodeMetrics)
    requires Visible(h, e) && ShowsNode(n, h, j, e)
    ensures var n' := Visited(Refresh, h, j, e, n); ShowsNode(n', h, j, e) && ShowsCounters(n', n, h[e.item])
  {
  }

  ghost predicate ShowsCounters(n: NodeMetrics, before: NodeMetrics, p: PlanState) {
    match p.instrument
    case None => n == before
    case Some(i) => ShowsInstrumentation(n, i)
  }

  // ---- Reading the plan back from shared memory -------------------------------------------------

  /** The (parent, tag) pairs stored in the first `n` records. */
  function StoredPlan(m: seq<NodeMetrics>, n: nat): seq<Entry<nat>>
    requires n <= |m|
  {
    seq(n, j requires 0 <= j < n => Entry(m[j].tag, ToI32(m[j].parentId % U32_SIZE)))
  }

  function TagOf(h: Heap, a: nat): nat { if a in h && h[a].planTag.Some? then h[a].planTag.value else 0 }

  function TagForest(h: Heap, f: Forest<nat>): (g: Forest<nat>)
    ensures Size(g) == Size(f)
  {
    match f
    case Nil => Nil
    case Cons(a, kids, rest) => Cons(TagOf(h, a), TagForest(h, kids), TagForest(h, rest))
  }

  function Tagged(h: Heap, es: seq<Entry<nat>>): seq<Entry<nat>> {
    seq(|es|, k requires 0 <= k < |es| => Entry(TagOf(h, es[k].item), es[k].parent))
  }

  lemma {:induction false} TaggedParts(h: Heap, e: Entry<nat>, a: seq<Entry<nat>>, b: seq<Entry<nat>>)
    ensures Tagged(h, [e] + a + b) == [Entry(TagOf(h, e.item), e.parent)] + Tagged(h, a) + Tagged(h, b)
  {
  }

  lemma {:induction false} FlattenTags(h: Heap, f: Forest<nat>, parent: int, start: nat)
    ensures Flatten(TagForest(h, f), parent, start) == Tagged(h, Flatten(f, parent, start))
    decreases f
  {
    if f.Cons? {
      var kids, rest := TagForest(h, f.kids), TagForest(h, f.rest);
      FlattenTags(h, f.kids, start, start + 1);
      FlattenTags(h, f.rest, parent, start + 1 + Size(f.kids));
      FlattenCons(f, parent, start);
      FlattenCons(Cons(TagOf(h, f.item), kids, rest), parent, start);
      TaggedParts(h, Entry(f.item, parent), Flatten(f.kids, start, start + 1),
                  Flatten(f.rest, parent, start + 1 + Size(f.kids)));
    }
  }

  /** A poller can rebuild the tagged plan tree, cut at `max` nodes, from the records alone. */
  lemma {:induction false} StoredReadsBack(h: Heap, r: Ref, m: seq<NodeMetrics>, max: nat, d: nat)
    requires Closed(h) && RefsIn(h, [r]) && max <= |m| && max < 0x8000_0000 && d > max
    requires ShowsTopology(m, h, Preorder(h, r, max))
    ensures ParseAll(StoredPlan(m, |Preorder(h, r, max)|)) == TagForest(h, CutForest(Unfold(h, [r], d), max))
  {
    var es := Preorder(h, r, max);
    var f := CutForest(Unfold(h, [r], d), max);
    PreorderIsTree(h, r, max, d);
    NestedIsNumbering(es);
    var tags := Tagged(h, es);
    FlattenTags(h, f, -1, 0);
    forall j | 0 <= j < |es| ensures StoredPlan(m, |es|)[j] == tags[j] {
      assert ShowsNode(m[j], h, j, es[j]);
      SignedRoundTrip(es[j].parent);
    }
    assert StoredPlan(m, |es|) == tags;
    ParseAfterFlatten(TagForest(h, f));
  }
}
