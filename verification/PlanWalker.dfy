/** The bounded recursive walk over a plan state graph and its two visitors. */
module PlanWalker {
  import opened Basics
  import opened Plans
  import opened NodeWrites

  // ---- Specification of a walk over part of the graph -------------------------------------------

  /** The first index below `n` whose record lacks the magic number, or `n`. */
  function FirstUnset(m: seq<NodeMetrics>, n: nat): (k: nat)
    requires n <= |m|
    ensures k <= n
    ensures forall j :: 0 <= j < k ==> m[j].magic == NODE_MAGIC
    ensures k < n ==> m[k].magic != NODE_MAGIC
  {
    if n == 0 then 0
    else
      var k := FirstUnset(m, n - 1);
      if k < n - 1 || m[k].magic != NODE_MAGIC then k else n
  }

  /** How many visits a visitor grants before it stops the traversal. */
  function VisitLimit(v: Visitor, m: seq<NodeMetrics>, max: nat): (limit: nat)
    requires max <= |m|
    ensures limit <= max
  {
    match v case Topology => max case Refresh => FirstUnset(m, max)
  }

  /** An error may end the visits earlier. */
  function Limit(visits: nat, failAt: Option<nat>): nat { if failAt.Some? then Min(visits, failAt.value) else visits }

  /** The nodes below `refs` in preorder, numbered from `start`. */
  ghost function Below(h: Heap, refs: seq<Ref>, parent: int, d: nat, start: nat): seq<Entry<nat>>
    requires Closed(h) && RefsIn(h, refs)
  {
    Flatten(Unfold(h, refs, d), parent, start)
  }

  lemma {:induction false} BelowVisible(h: Heap, refs: seq<Ref>, parent: int, d: nat, start: nat)
    requires Closed(h) && RefsIn(h, refs)
    ensures AllVisible(h, Below(h, refs, parent, d, start))
    decreases d, |refs|
  {
    if d > 0 && refs != [] {
      if Skipped(h, refs[0]) {
        BelowVisible(h, refs[1..], parent, d, start);
      } else {
        var kids := Unfold(h, Children(h[refs[0].value]), d - 1);
        BelowVisible(h, Children(h[refs[0].value]), start, d - 1, start + 1);
        BelowVisible(h, refs[1..], parent, d, start + 1 + Size(kids));
      }
    }
  }

  /** How a walk ends: it visited everything, the visitor stopped it, or a recursive call raised an error. */
  datatype Outcome = Done | Stopped | Raised

  /** Of the nodes `es` still to be visited, the first `limit - c` are, and all of them if the walk is done. */
  ghost predicate Progress(v: Visitor, h: Heap, limit: nat, es: seq<Entry<nat>>,
                           c: nat, t: seq<Write>, out: Outcome, c': nat, t': seq<Write>)
  {
    && c <= limit
    && AllVisible(h, es)
    && t' == t + PassWrites(v, h, Cut(es, limit - c), c)
    && (match out
        case Done => |es| <= limit - c && c' == c + |es|
        case Stopped => |es| > limit - c
        case Raised => |es| >= limit - c)
    && (!out.Done? && v.Topology? ==> c' == limit)
  }

  lemma {:induction false} ProgressNone(v: Visitor, h: Heap, limit: nat, c: nat, t: seq<Write>)
    requires c <= limit
    ensures Progress(v, h, limit, [], c, t, Done, c, t)
  {
    assert t == t + [];
  }

  lemma {:induction false} StoresThen(v: Visitor, h: Heap, x: seq<Entry<nat>>, y: seq<Entry<nat>>, n: nat,
                                      c: nat, t: seq<Write>)
    requires |x| <= n && AllVisible(h, x) && AllVisible(h, y)
    ensures AllVisible(h, x + y) && AllVisible(h, Cut(y, n - |x|)) && AllVisible(h, Cut(x + y, n))
    ensures t + PassWrites(v, h, x, c) + PassWrites(v, h, Cut(y, n - |x|), c + |x|)
         == t + PassWrites(v, h, Cut(x + y, n), c)
  {
    var cut := Cut(y, n - |x|);
    CutOfConcat(x, y, n);
    PassConcat(v, h, x, cut, c);
    Assoc(t, PassWrites(v, h, x, c), PassWrites(v, h, cut, c + |x|));
  }

  lemma {:induction false} ProgressThen(v: Visitor, h: Heap, limit: nat, x: seq<Entry<nat>>, y: seq<Entry<nat>>,
      c: nat, t: seq<Write>, c1: nat, t1: seq<Write>, out: Outcome, c2: nat, t2: seq<Write>)
    requires Progress(v, h, limit, x, c, t, Done, c1, t1)
    requires Progress(v, h, limit, y, c1, t1, out, c2, t2)
    ensures Progress(v, h, limit, x + y, c, t, out, c2, t2)
  {
    StoresThen(v, h, x, y, limit - c, c, t);
    assert Cut(x, limit - c) == x;
  }

  lemma {:induction false} ProgressEnded(v: Visitor, h: Heap, limit: nat, x: seq<Entry<nat>>, y: seq<Entry<nat>>,
      c: nat, t: seq<Write>, out: Outcome, c1: nat, t1: seq<Write>)
    requires Progress(v, h, limit, x, c, t, out, c1, t1) && !out.Done? && AllVisible(h, y)
    ensures Progress(v, h, limit, x + y, c, t, out, c1, t1)
  {
    CutOfConcat(x, y, limit - c);
    assert x + [] == x && Cut(y, 0) == [];
  }

  lemma {:induction false} ProgressVisit(v: Visitor, h: Heap, limit: nat, e: Entry<nat>, c: nat, t: seq<Write>)
    requires c < limit && Visible(h, e)
    ensures Progress(v, h, limit, [e], c, t, Done, c + 1, t + VisitWrites(v, h, c, e))
  {
    assert Cut([e], limit - c) == [e] && [e][1..] == [];
    assert PassWrites(v, h, [e], c) == VisitWrites(v, h, c, e) + PassWrites(v, h, [], c + 1);
  }

  ghost predicate IsBelow(h: Heap, refs: seq<Ref>, parent: int, d: nat, start: nat, es: seq<Entry<nat>>)
    requires Closed(h) && RefsIn(h, refs)
  {
    es == Below(h, refs, parent, d, start)
  }

  /** A walk over `refs` with counter `c` and write history `t` ends with `out`, `c'` and `t'`. */
  ghost predicate Walked(v: Visitor, h: Heap, limit: nat, refs: seq<Ref>, parent: int, d: nat,
                         c: nat, t: seq<Write>, out: Outcome, c': nat, t': seq<Write>)
  {
    && Closed(h) && RefsIn(h, refs)
    && forall es :: IsBelow(h, refs, parent, d, c, es) ==> Progress(v, h, limit, es, c, t, out, c', t')
  }

  lemma {:induction false} WalkedIff(v: Visitor, h: Heap, limit: nat, refs: seq<Ref>, parent: int, d: nat,
      c: nat, t: seq<Write>, out: Outcome, c': nat, t': seq<Write>)
    requires Closed(h) && RefsIn(h, refs)
    ensures Walked(v, h, limit, refs, parent, d, c, t, out, c', t')
        <==> Progress(v, h, limit, Below(h, refs, parent, d, c), c, t, out, c', t')
  {
    assert IsBelow(h, refs, parent, d, c, Below(h, refs, parent, d, c));
  }

  lemma {:induction false} WalkedNothing(v: Visitor, h: Heap, limit: nat, parent: int, d: nat, c: nat, t: seq<Write>)
    requires Closed(h) && c <= limit
    ensures Walked(v, h, limit, [], parent, d, c, t, Done, c, t)
  {
    ProgressNone(v, h, limit, c, t);
    WalkedIff(v, h, limit, [], parent, d, c, t, Done, c, t);
  }

  lemma {:induction false} WalkedSkipped(v: Visitor, h: Heap, limit: nat, r: Ref, parent: int, d: nat,
                                         c: nat, t: seq<Write>)
    requires Closed(h) && c <= limit && RefsIn(h, [r])
    requires [r][0].Some? ==> r.value in h
    requires Skipped(h, r)
    ensures Walked(v, h, limit, [r], parent, d, c, t, Done, c, t)
  {
    assert [r][1..] == [] && Unfold(h, [], d) == Nil;
    assert Unfold(h, [r], d) == Nil;
    ProgressNone(v, h, limit, c, t);
    WalkedIff(v, h, limit, [r], parent, d, c, t, Done, c, t);
  }

  /** An error at the entry of a recursive call, when as many nodes have been visited as ever will be. */
  lemma {:induction false} WalkedRaised(v: Visitor, h: Heap, limit: nat, r: Ref, parent: int, d: nat, t: seq<Write>)
    requires Closed(h) && RefsIn(h, [r])
    ensures Walked(v, h, limit, [r], parent, d, limit, t, Raised, limit, t)
  {
    BelowVisible(h, [r], parent, d, limit);
    assert Cut(Below(h, [r], parent, d, limit), 0) == [] && t == t + [];
    WalkedIff(v, h, limit, [r], parent, d, limit, t, Raised, limit, t);
  }

  lemma {:induction false} BelowConcat(h: Heap, a: seq<Ref>, b: seq<Ref>, parent: int, d: nat, c: nat)
    requires Closed(h) && RefsIn(h, a) && RefsIn(h, b)
    ensures RefsIn(h, a + b)
    ensures Below(h, a + b, parent, d, c)
         == Below(h, a, parent, d, c) + Below(h, b, parent, d, c + |Below(h, a, parent, d, c)|)
  {
    UnfoldConcat(h, a, b, d);
    FlattenAppend(Unfold(h, a, d), Unfold(h, b, d), parent, c);
  }

  /** Two walks in a row, the first completed, are one walk over both lists. */
  lemma {:induction false} WalkedThen(v: Visitor, h: Heap, limit: nat, a: seq<Ref>, b: seq<Ref>, parent: int, d: nat,
                   c: nat, t: seq<Write>, c1: nat, t1: seq<Write>, out: Outcome, c2: nat, t2: seq<Write>)
    requires Walked(v, h, limit, a, parent, d, c, t, Done, c1, t1)
    requires Walked(v, h, limit, b, parent, d, c1, t1, out, c2, t2)
    ensures Walked(v, h, limit, a + b, parent, d, c, t, out, c2, t2)
  {
    BelowConcat(h, a, b, parent, d, c);
    WalkedIff(v, h, limit, a, parent, d, c, t, Done, c1, t1);
    WalkedIff(v, h, limit, b, parent, d, c1, t1, out, c2, t2);
    WalkedIff(v, h, limit, a + b, parent, d, c, t, out, c2, t2);
    ProgressThen(v, h, limit, Below(h, a, parent, d, c), Below(h, b, parent, d, c1), c, t, c1, t1, out, c2, t2);
  }

  /** A walk that ended early ends whatever was still to come. */
  lemma {:induction false} WalkedEnded(v: Visitor, h: Heap, limit: nat, a: seq<Ref>, b: seq<Ref>, parent: int, d: nat,
                      c: nat, t: seq<Write>, out: Outcome, c1: nat, t1: seq<Write>)
    requires Walked(v, h, limit, a, parent, d, c, t, out, c1, t1) && !out.Done? && RefsIn(h, b)
    ensures Walked(v, h, limit, a + b, parent, d, c, t, out, c1, t1)
  {
    var x := Below(h, a, parent, d, c);
    BelowConcat(h, a, b, parent, d, c);
    BelowVisible(h, b, parent, d, c + |x|);
    WalkedIff(v, h, limit, a, parent, d, c, t, out, c1, t1);
    WalkedIff(v, h, limit, a + b, parent, d, c, t, out, c1, t1);
    ProgressEnded(v, h, limit, x, Below(h, b, parent, d, c + |x|), c, t, out, c1, t1);
  }

  /** A granted visit followed by the walk over the children is the walk over the node. */
  lemma {:induction false} WalkedNode(v: Visitor, h: Heap, limit: nat, r: Ref, parent: int, d: nat,
                   c: nat, t: seq<Write>, out: Outcome, c2: nat, t2: seq<Write>)
    requires Closed(h) && RefsIn(h, [r]) && d > 0 && c < limit
    requires r.Some? && r.value in h && !Skipped(h, r)
    requires Walked(v, h, limit, Children(h[r.value]), c, d - 1, c + 1,
                    t + VisitWrites(v, h, c, Entry(r.value, parent)), out, c2, t2)
    ensures Walked(v, h, limit, [r], parent, d, c, t, out, c2, t2)
  {
    var first := Entry(r.value, parent);
    NodeBelow(h, r, parent, d, c);
    ProgressVisit(v, h, limit, first, c, t);
    WalkedIff(v, h, limit, Children(h[r.value]), c, d - 1, c + 1, t + VisitWrites(v, h, c, first), out, c2, t2);
    WalkedIff(v, h, limit, [r], parent, d, c, t, out, c2, t2);
    ProgressThen(v, h, limit, [first], Below(h, Children(h[r.value]), c, d - 1, c + 1),
                 c, t, c + 1, t + VisitWrites(v, h, c, first), out, c2, t2);
  }

  lemma {:induction false} NodeBelow(h: Heap, r: Ref, parent: int, d: nat, c: nat)
    requires Closed(h) && RefsIn(h, [r]) && d > 0
    requires r.Some? && r.value in h && !Skipped(h, r)
    ensures RefsIn(h, Children(h[r.value]))
    ensures Below(h, [r], parent, d, c)
         == [Entry(r.value, parent)] + Below(h, Children(h[r.value]), c, d - 1, c + 1)
  {
    var kids := Unfold(h, Children(h[r.value]), d - 1);
    assert [r][0] == r && [r][1..] == [];
    assert Unfold(h, [], d) == Nil;
    assert Unfold(h, [r], d) == Cons(r.value, kids, Nil);
    FlattenCons(Unfold(h, [r], d), parent, c);
    assert Flatten<nat>(Nil, parent, c + 1 + Size(kids)) == [];
  }

  /** A refused visit is a stopped walk. */
  lemma {:induction false} WalkedRefused(
      v: Visitor, h: Heap, limit: nat, r: Ref, parent: int, d: nat, t: seq<Write>, c': nat)
    requires Closed(h) && RefsIn(h, [r]) && d > 0
    requires r.Some? && r.value in h && !Skipped(h, r)
    requires v.Topology? ==> c' == limit
    ensures Walked(v, h, limit, [r], parent, d, limit, t, Stopped, c', t)
  {
    BelowVisible(h, [r], parent, d, limit);
    NodeBelow(h, r, parent, d, limit);
    WalkedIff(v, h, limit, [r], parent, d, limit, t, Stopped, c', t);
    assert Cut(Below(h, [r], parent, d, limit), 0) == [];
    assert t == t + [];
  }

  /** The stores of a topology visit, as four groups behind the history `t`. */
  lemma {:induction false} TopologyInOrder(id: nat, parent: int, tag: nat, t: seq<Write>)
    ensures t + At(id, [SetNodeId(id), SetParent(ToU32(parent)), SetTag(tag)])
              + At(id, [SetTuples(0.0), SetStartup(0.0), SetTotal(0.0), SetLoops(0.0), SetByJoins(0.0),
                  SetByExprs(0.0)])
              + At(id, BufferOpsOf(BufUsage(0, 0, 0, 0, 0, 0))) + [Write(id, SetMagic)]
         == t + At(id, TopologyOps(id, parent, tag))
  {
  }

  // ---- The walk ---------------------------------------------------------------------------------

  /** The context of one pass. `trace` records every store in order, `depth` the open recursive calls. */
  class Walker {
    const heap: Heap
    const metrics: array<NodeMetrics>
    const maxNodes: nat
    const visitor: Visitor
    /** The number of visits at which the next recursive call raises an error, if one does. */
    const failAt: Option<nat>
    var counter: nat
    ghost const base: seq<NodeMetrics>
    ghost const limit: nat
    ghost var trace: seq<Write>
    ghost var depth: nat
    ghost var deepest: nat

    ghost predicate Valid()
      reads this, metrics
    {
      && Closed(heap)
      && maxNodes <= metrics.Length == |base|
      && limit == Limit(VisitLimit(visitor, base, maxNodes), failAt)
      && counter <= maxNodes
      && metrics[..] == ApplyWrites(base, trace)
      && (visitor.Refresh? ==> MagicKept())
    }

    ghost predicate MagicKept()
      reads this, metrics
    {
      |base| == metrics.Length && forall j :: 0 <= j < |base| ==> metrics[j].magic == base[j].magic
    }

    constructor (v: Visitor, h: Heap, m: array<NodeMetrics>, max: nat, fail: Option<nat>)
      requires Closed(h) && max <= m.Length
      ensures Valid() && counter == 0 && trace == [] && depth == 0 && deepest == 0
      ensures visitor == v && heap == h && metrics == m && maxNodes == max && failAt == fail
      ensures base == m[..] && limit == Limit(VisitLimit(v, m[..], max), fail)
    {
      heap, metrics, maxNodes, visitor, failAt, counter := h, m, max, v, fail, 0;
      base, limit, trace, depth, deepest := m[..], Limit(VisitLimit(v, m[..], max), fail), [], 0, 0;
    }

    /** An ending before the last node is due to the visitor's limit, or to the error. */
    ghost predicate Explained(out: Outcome) {
      maxNodes <= |base|
      && (out.Stopped? ==> limit == VisitLimit(visitor, base, maxNodes))
      && (out.Raised? ==> failAt == Some(limit))
    }

    /** One store to one field of one record. */
    method Put(id: nat, op: Op)
      requires Valid() && id < metrics.Length
      requires visitor.Refresh? ==> CounterOp(op)
      modifies this`trace, metrics
      ensures Valid() && trace == old(trace) + [Write(id, op)]
    {
      metrics[id] := ApplyOp(metrics[id], op);
      ApplyOne(base, trace, Write(id, op));
      trace := trace + [Write(id, op)];
    }

    method PutThree(id: nat, a: Op, b: Op, c: Op)
      requires Valid() && id < metrics.Length
      requires visitor.Refresh? ==> CounterOp(a) && CounterOp(b) && CounterOp(c)
      modifies this`trace, metrics
      ensures Valid() && trace == old(trace) + At(id, [a, b, c])
    {
      Put(id, a);
      Put(id, b);
      Put(id, c);
    }

    method PutSix(id: nat, a: Op, b: Op, c: Op, d: Op, e: Op, f: Op)
      requires Valid() && id < metrics.Length
      requires visitor.Refresh? ==>
          CounterOp(a) && CounterOp(b) && CounterOp(c) && CounterOp(d) && CounterOp(e) && CounterOp(f)
      modifies this`trace, metrics
      ensures Valid() && trace == old(trace) + At(id, [a, b, c, d, e, f])
    {
      PutThree(id, a, b, c);
      PutThree(id, d, e, f);
      assert At(id, [a, b, c]) + At(id, [d, e, f]) == At(id, [a, b, c, d, e, f]);
    }

    method PutBufferUsage(id: nat, b: BufUsage)
      requires Valid() && id < metrics.Length
      modifies this`trace, metrics
      ensures Valid() && trace == old(trace) + At(id, BufferOpsOf(b))
    {
      PutSix(id, SetHits(b.sharedHit), SetMisses(b.sharedRead), SetLocalHits(b.localHit),
             SetLocalMisses(b.localRead), SetSpillReads(b.tempRead), SetSpillWrites(b.tempWritten));
    }

    method PutTopology(id: nat, parent: int, tag: nat)
      requires Valid() && id < metrics.Length && visitor.Topology?
      modifies this`trace, metrics
      ensures Valid() && trace == old(trace) + At(id, TopologyOps(id, parent, tag))
    {
      PutThree(id, SetNodeId(id), SetParent(ToU32(parent)), SetTag(tag));
      PutSix(id, SetTuples(0.0), SetStartup(0.0), SetTotal(0.0), SetLoops(0.0), SetByJoins(0.0), SetByExprs(0.0));
      PutBufferUsage(id, BufUsage(0, 0, 0, 0, 0, 0));
      Put(id, SetMagic);
      TopologyInOrder(id, parent, tag, old(trace));
    }

    method PutInstrumentation(id: nat, i: Instrumentation)
      requires Valid() && id < metrics.Length
      modifies this`trace, metrics
      ensures Valid() && trace == old(trace) + At(id, RefreshOps(i))
    {
      PutSix(id, SetTuples(i.ntuples + i.tuplecount), SetLoops(i.nloops + Running(i)),
             SetStartup((i.startup + i.firsttuple) * 1000000.0), SetTotal((i.total + i.counter) * 1000000.0),
             SetByJoins(i.nfiltered1), SetByExprs(i.nfiltered2));
      PutBufferUsage(id, i.bufusage);
    }

    /** Calls the visitor; a negative result asks the walk to stop. */
    method Visit(node: nat, parent: int) returns (id: int)
      requires Valid() && counter <= limit
      requires node in heap && heap[node].planTag.Some? && (failAt.Some? ==> counter < failAt.value)
      modifies this`counter, this`trace, metrics
      ensures Valid()
      ensures 0 <= id <==> old(counter) < limit
      ensures 0 <= id ==> id == old(counter) && counter == id + 1
      ensures 0 <= id ==> trace == old(trace) + VisitWrites(visitor, heap, id, Entry(node, parent))
      ensures id < 0 ==> trace == old(trace) && counter >= old(counter) && (visitor.Topology? ==> counter == limit)
      ensures id < 0 ==> Explained(Stopped)
    {
      if counter >= maxNodes {
        return -1;
      }
      id := counter;
      counter := counter + 1;
      match visitor
      case Topology =>
        PutTopology(id, parent, heap[node].planTag.value);
      case Refresh =>
        if metrics[id].magic != NODE_MAGIC {
          return -1;
        }
        if heap[node].instrument.Some? {
          PutInstrumentation(id, heap[node].instrument.value);
        }
    }

    /** walk_planstate_recursive, which may raise an error when it is entered. */
    method Walk(r: Ref, parent: int, ghost d: nat) returns (out: Outcome)
      requires Valid() && counter <= limit && RefsIn(heap, [r]) && d > maxNodes - counter
      modifies this`counter, this`trace, this`depth, this`deepest, metrics
      ensures Valid()
      ensures Walked(visitor, heap, limit, [r], parent, d, old(counter), old(trace), out, counter, trace)
      ensures old(counter) <= counter && (out.Done? ==> counter <= limit) && Explained(out)
      ensures depth == old(depth)
      ensures old(deepest) <= deepest <= Max(old(deepest), depth + 1 + maxNodes - old(counter))
      decreases maxNodes - counter, 1
    {
      assert [r][0] == r;
      depth := depth + 1;
      deepest := Max(deepest, depth);
      if failAt.Some? && counter >= failAt.value {
        WalkedRaised(visitor, heap, limit, r, parent, d, trace);
        out := Raised;
      } else if r.None? || heap[r.value].planTag.None? {
        WalkedSkipped(visitor, heap, limit, r, parent, d, counter, trace);
        out := Done;
      } else {
        out := WalkNode(r.value, parent, d);
      }
      depth := depth - 1;
    }

    /** Visits a node with a plan and, if the visitor agrees, its children. */
    method WalkNode(node: nat, parent: int, ghost d: nat) returns (out: Outcome)
      requires Valid() && counter <= limit && RefsIn(heap, [Some(node)]) && d > maxNodes - counter
      requires node in heap && heap[node].planTag.Some? && (failAt.Some? ==> counter < failAt.value)
      modifies this`counter, this`trace, this`depth, this`deepest, metrics
      ensures Valid()
      ensures Walked(visitor, heap, limit, [Some(node)], parent, d, old(counter), old(trace), out, counter, trace)
      ensures old(counter) <= counter && (out.Done? ==> counter <= limit) && Explained(out)
      ensures depth == old(depth)
      ensures old(deepest) <= deepest <= Max(old(deepest), depth + maxNodes - old(counter))
      decreases maxNodes - counter, 0
    {
      ghost var c, t := counter, trace;
      var id := Visit(node, parent);
      ChildrenIn(heap, node);
      if id < 0 {
        WalkedRefused(visitor, heap, limit, Some(node), parent, d, t, counter);
        out := Stopped;
      } else {
        out := WalkChildren(heap[node], id, d - 1);
        WalkedNode(visitor, heap, limit, Some(node), parent, d, c, t, out, counter, trace);
      }
    }

    /** The children of a node that has just been visited: the standard ones, then its kind's own. */
    method WalkChildren(n: PlanState, id: nat, ghost d: nat) returns (out: Outcome)
      requires Valid() && counter <= limit && RefsIn(heap, Children(n)) && d > maxNodes - counter
      modifies this`counter, this`trace, this`depth, this`deepest, metrics
      ensures Valid()
      ensures Walked(visitor, heap, limit, Children(n), id, d, old(counter), old(trace), out, counter, trace)
      ensures old(counter) <= counter && (out.Done? ==> counter <= limit) && Explained(out)
      ensures depth == old(depth)
      ensures old(deepest) <= deepest <= Max(old(deepest), depth + 1 + maxNodes - old(counter))
      decreases maxNodes - counter, 4
    {
      ghost var c, t := counter, trace;
      RefsInParts(heap, Standard(n), KindChildren(n.kind));
      out := WalkStandard(n, id, d);
      if !out.Done? {
        WalkedEnded(visitor, heap, limit, Standard(n), KindChildren(n.kind), id, d, c, t, out, counter, trace);
        return;
      }
      ghost var c1, t1 := counter, trace;
      out := WalkList(KindChildren(n.kind), id, d);
      WalkedThen(visitor, heap, limit, Standard(n), KindChildren(n.kind), id, d, c, t, c1, t1, out, counter, trace);
    }

    /** Left child, right child and the list of subplans. */
    method WalkStandard(n: PlanState, id: nat, ghost d: nat) returns (out: Outcome)
      requires Valid() && counter <= limit && RefsIn(heap, Standard(n)) && d > maxNodes - counter
      modifies this`counter, this`trace, this`depth, this`deepest, metrics
      ensures Valid()
      ensures Walked(visitor, heap, limit, Standard(n), id, d, old(counter), old(trace), out, counter, trace)
      ensures old(counter) <= counter && (out.Done? ==> counter <= limit) && Explained(out)
      ensures depth == old(depth)
      ensures old(deepest) <= deepest <= Max(old(deepest), depth + 1 + maxNodes - old(counter))
      decreases maxNodes - counter, 3
    {
      ghost var c, t := counter, trace;
      var sides := [n.lefttree, n.righttree];
      RefsInParts(heap, sides, SubPlans(n));
      out := WalkList(sides, id, d);
      if !out.Done? {
        WalkedEnded(visitor, heap, limit, sides, SubPlans(n), id, d, c, t, out, counter, trace);
        return;
      }
      ghost var c1, t1 := counter, trace;
      out := WalkList(SubPlans(n), id, d);
      WalkedThen(visitor, heap, limit, sides, SubPlans(n), id, d, c, t, c1, t1, out, counter, trace);
    }

    /** The loops over subplan lists and child arrays. */
    method WalkList(refs: seq<Ref>, id: nat, ghost d: nat) returns (out: Outcome)
      requires Valid() && counter <= limit && RefsIn(heap, refs) && d > maxNodes - counter
      modifies this`counter, this`trace, this`depth, this`deepest, metrics
      ensures Valid()
      ensures Walked(visitor, heap, limit, refs, id, d, old(counter), old(trace), out, counter, trace)
      ensures old(counter) <= counter && (out.Done? ==> counter <= limit) && Explained(out)
      ensures depth == old(depth)
      ensures old(deepest) <= deepest <= Max(old(deepest), depth + 1 + maxNodes - old(counter))
      decreases maxNodes - counter, 2
    {
      ghost var c, t := counter, trace;
      WalkedNothing(visitor, heap, limit, id, d, c, t);
      assert refs[..0] == [];
      var i := 0;
      while i < |refs|
        invariant 0 <= i <= |refs|
        invariant Valid() && c <= counter <= limit
        invariant Walked(visitor, heap, limit, refs[..i], id, d, c, t, Done, counter, trace)
        invariant depth == old(depth)
        invariant old(deepest) <= deepest <= Max(old(deepest), depth + 1 + maxNodes - c)
      {
        ghost var c1, t1 := counter, trace;
        RefIn(heap, refs, i);
        out := Walk(refs[i], id, d);
        WalkedNext(visitor, heap, limit, refs, i, id, d, c, t, c1, t1, out, counter, trace);
        if !out.Done? {
          return;
        }
        i := i + 1;
      }
      assert refs[..i] == refs;
      out := Done;
    }
  }

  lemma {:induction false} RefIn(h: Heap, refs: seq<Ref>, i: nat)
    requires RefsIn(h, refs) && i < |refs|
    ensures RefsIn(h, [refs[i]])
  {
  }

  /** One more turn of the loop over a list: on to the next element, or out of the whole list. */
  lemma {:induction false} WalkedNext(v: Visitor, h: Heap, limit: nat, refs: seq<Ref>, i: nat, parent: int, d: nat,
                   c: nat, t: seq<Write>, c1: nat, t1: seq<Write>, out: Outcome, c2: nat, t2: seq<Write>)
    requires i < |refs| && RefsIn(h, refs)
    requires Walked(v, h, limit, refs[..i], parent, d, c, t, Done, c1, t1)
    requires Walked(v, h, limit, [refs[i]], parent, d, c1, t1, out, c2, t2)
    ensures out.Done? ==> Walked(v, h, limit, refs[..i + 1], parent, d, c, t, Done, c2, t2)
    ensures !out.Done? ==> Walked(v, h, limit, refs, parent, d, c, t, out, c2, t2)
  {
    var next, rest := refs[..i + 1], refs[i + 1..];
    assert refs[..i] + [refs[i]] == next && next + rest == refs;
    WalkedThen(v, h, limit, refs[..i], [refs[i]], parent, d, c, t, c1, t1, out, c2, t2);
    if !out.Done? {
      RefsInParts(h, next, rest);
      WalkedEnded(v, h, limit, next, rest, parent, d, c, t, out, c2, t2);
    }
  }

  lemma {:induction false} RefsInParts(h: Heap, a: seq<Ref>, b: seq<Ref>)
    requires RefsIn(h, a + b)
    ensures RefsIn(h, a) && RefsIn(h, b)
  {
    forall i | 0 <= i < |a| && a[i].Some? ensures a[i].value in h {
      assert (a + b)[i] == a[i];
    }
    forall i | 0 <= i < |b| && b[i].Some? ensures b[i].value in h {
      assert (a + b)[|a| + i] == b[i];
    }
  }
}
