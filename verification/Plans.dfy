/** Plan state graphs, their preorder numbering, and the inverse of that numbering.
    A `Forest` is an ordered rose forest in first-child / next-sibling form. */
module Plans {
  import opened Basics

  /** A pointer to a plan state; None is NULL. */
  type Ref = Option<nat>

  datatype BufUsage = BufUsage(
    sharedHit: nat, sharedRead: nat, localHit: nat, localRead: nat, tempRead: nat, tempWritten: nat)

  /** The executor's counters for one node. */
  datatype Instrumentation = Instrumentation(
    ntuples: real, tuplecount: real, nloops: real, running: bool, startup: real, firsttuple: real,
    total: real, counter: real, nfiltered1: real, nfiltered2: real, bufusage: BufUsage)

  /** The children that only one kind of plan state has. */
  datatype Kind =
    | AppendState(appendplans: seq<Ref>)
    | CteScanState(cteplanstate: Ref)
    | MergeAppendState(mergeplans: seq<Ref>)
    | BitmapAndState(andplans: seq<Ref>)
    | BitmapOrState(orplans: seq<Ref>)
    | SubqueryScanState(subplan: Ref)
    | OtherState

  /** `planTag` is the tag of the node's plan, None when its plan pointer is NULL. */
  datatype PlanState = PlanState(
    planTag: Option<nat>, kind: Kind, lefttree: Ref, righttree: Ref,
    subPlan: Option<seq<Ref>>, instrument: Option<Instrumentation>)

  /** One backend's plan states. Several parents may share a child and cycles are not excluded. */
  type Heap = map<nat, PlanState>

  function KindChildren(k: Kind): seq<Ref> {
    match k
    case AppendState(ps) => ps
    case CteScanState(c) => [c]
    case MergeAppendState(ps) => ps
    case BitmapAndState(ps) => ps
    case BitmapOrState(ps) => ps
    case SubqueryScanState(s) => [s]
    case OtherState => []
  }

  function SubPlans(n: PlanState): seq<Ref> {
    match n.subPlan case None => [] case Some(ps) => ps
  }

  function Standard(n: PlanState): seq<Ref> { [n.lefttree, n.righttree] + SubPlans(n) }

  function Children(n: PlanState): seq<Ref> { Standard(n) + KindChildren(n.kind) }

  predicate RefsIn(h: Heap, refs: seq<Ref>) {
    forall i :: 0 <= i < |refs| && refs[i].Some? ==> refs[i].value in h
  }

  /** Every pointer stored in the graph is NULL or leads to a plan state. */
  predicate Closed(h: Heap) {
    forall a :: a in h ==> RefsIn(h, Children(h[a]))
  }

  lemma {:induction false} ChildrenIn(h: Heap, a: nat)
    requires Closed(h) && a in h
    ensures RefsIn(h, Children(h[a]))
  {
  }

  /** The walk steps over a NULL plan state and one whose plan is NULL. */
  predicate Skipped(h: Heap, r: Ref)
    requires r.Some? ==> r.value in h
  {
    r.None? || h[r.value].planTag.None?
  }

  datatype Forest<X> = Nil | Cons(item: X, kids: Forest<X>, rest: Forest<X>)

  function Size<X>(f: Forest<X>): nat {
    match f case Nil => 0 case Cons(_, k, r) => 1 + Size(k) + Size(r)
  }

  /** The visible part of the graph below `refs`, unfolded to depth `d`. */
  function Unfold(h: Heap, refs: seq<Ref>, d: nat): Forest<nat>
    requires Closed(h) && RefsIn(h, refs)
    decreases d, |refs|
  {
    if d == 0 || refs == [] then Nil
    else if Skipped(h, refs[0]) then Unfold(h, refs[1..], d)
    else Cons(refs[0].value, Unfold(h, Children(h[refs[0].value]), d - 1), Unfold(h, refs[1..], d))
  }

  /** What the unfolding of a list makes of a first pointer that is not skipped. */
  lemma {:induction false} UnfoldNext(h: Heap, refs: seq<Ref>, d: nat)
    requires Closed(h) && RefsIn(h, refs) && d > 0 && refs != [] && !Skipped(h, refs[0])
    ensures RefsIn(h, Children(h[refs[0].value]))
    ensures Unfold(h, refs, d)
         == Cons(refs[0].value, Unfold(h, Children(h[refs[0].value]), d - 1), Unfold(h, refs[1..], d))
  {
    ChildrenIn(h, refs[0].value);
  }

  datatype Entry<X> = Entry(item: X, parent: int)

  /** Preorder list of a forest whose first node gets number `start`, each with its parent's number. */
  function Flatten<X>(f: Forest<X>, parent: int, start: nat): (es: seq<Entry<X>>)
    ensures |es| == Size(f)
  {
    match f
    case Nil => []
    case Cons(x, kids, rest) =>
      [Entry(x, parent)] + Flatten(kids, start, start + 1) + Flatten(rest, parent, start + 1 + Size(kids))
  }

  function Append<X>(f: Forest<X>, g: Forest<X>): (r: Forest<X>)
    ensures Size(r) == Size(f) + Size(g)
  {
    match f case Nil => g case Cons(x, k, rest) => Cons(x, k, Append(rest, g))
  }

  lemma {:induction false} FlattenAppend<X>(f: Forest<X>, g: Forest<X>, parent: int, start: nat)
    ensures Flatten(Append(f, g), parent, start)
         == Flatten(f, parent, start) + Flatten(g, parent, start + Size(f))
  {
    if f.Cons? {
      var next := start + 1 + Size(f.kids);
      FlattenAppend(f.rest, g, parent, next);
      AppendedCons(f, g, parent, start, Flatten(f.rest, parent, next), Flatten(g, parent, start + Size(f)));
    }
  }

  lemma {:induction false} AppendedCons<X>(f: Forest<X>, g: Forest<X>, parent: int, start: nat,
                                           rest: seq<Entry<X>>, more: seq<Entry<X>>)
    requires f.Cons? && rest == Flatten(f.rest, parent, start + 1 + Size(f.kids))
    requires Flatten(Append(f.rest, g), parent, start + 1 + Size(f.kids)) == rest + more
    ensures Flatten(Append(f, g), parent, start) == Flatten(f, parent, start) + more
  {
    FlattenCons(f, parent, start);
    FlattenCons(Append(f, g), parent, start);
    Assoc([Entry(f.item, parent)] + Flatten(f.kids, start, start + 1), rest, more);
  }

  lemma {:induction false} UnfoldConcat(h: Heap, a: seq<Ref>, b: seq<Ref>, d: nat)
    requires Closed(h) && RefsIn(h, a) && RefsIn(h, b)
    ensures RefsIn(h, a + b)
    ensures Unfold(h, a + b, d) == Append(Unfold(h, a, d), Unfold(h, b, d))
    decreases |a|
  {
    if a == [] {
      assert a + b == b;
    } else {
      assert (a + b)[1..] == a[1..] + b;
      UnfoldConcat(h, a[1..], b, d);
    }
  }

  // ---- Truncation -------------------------------------------------------------------------------

  /** The first `n` nodes of a forest in preorder, with the shape they had. */
  function CutForest<X>(f: Forest<X>, n: nat): (r: Forest<X>)
    ensures Size(r) == Min(Size(f), n)
  {
    match f
    case Nil => Nil
    case Cons(x, k, rest) =>
      if n == 0 then Nil
      else if 1 + Size(k) <= n then Cons(x, k, CutForest(rest, n - 1 - Size(k)))
      else Cons(x, CutForest(k, n - 1), Nil)
  }

  lemma {:induction false} CutParts<X>(x: X, head: seq<X>, tail: seq<X>, n: nat)
    requires n > 0
    ensures 1 + |head| <= n ==> Cut([x] + head + tail, n) == [x] + head + Cut(tail, n - 1 - |head|)
    ensures 1 + |head| > n ==> Cut([x] + head + tail, n) == [x] + Cut(head, n - 1)
  {
  }

  lemma {:induction false} FlattenCons<X>(f: Forest<X>, parent: int, start: nat)
    requires f.Cons?
    ensures Flatten(f, parent, start) == [Entry(f.item, parent)] + Flatten(f.kids, start, start + 1)
                                       + Flatten(f.rest, parent, start + 1 + Size(f.kids))
  {
  }

  lemma {:induction false} FlattenCutBehind<X>(x: X, kids: Forest<X>, rest: Forest<X>, cut: Forest<X>,
                                               parent: int, start: nat, n: nat)
    requires 1 + Size(kids) <= n
    requires var next := start + 1 + Size(kids);
      Flatten(cut, parent, next) == Cut(Flatten(rest, parent, next), n - 1 - Size(kids))
    ensures Flatten(Cons(x, kids, cut), parent, start) == Cut(Flatten(Cons(x, kids, rest), parent, start), n)
  {
    var next := start + 1 + Size(kids);
    var head, tail := Flatten(kids, start, start + 1), Flatten(rest, parent, next);
    FlattenCons(Cons(x, kids, rest), parent, start);
    FlattenCons(Cons(x, kids, cut), parent, start);
    CutParts(Entry(x, parent), head, tail, n);
  }

  lemma {:induction false} FlattenCutInside<X>(f: Forest<X>, parent: int, start: nat, n: nat)
    requires f.Cons? && 0 < n < 1 + Size(f.kids)
    requires Flatten(CutForest(f.kids, n - 1), start, start + 1) == Cut(Flatten(f.kids, start, start + 1), n - 1)
    ensures Flatten(CutForest(f, n), parent, start) == Cut(Flatten(f, parent, start), n)
  {
    var head := [Entry(f.item, parent)] + Flatten(CutForest(f.kids, n - 1), start, start + 1);
    assert CutForest(f, n) == Cons(f.item, CutForest(f.kids, n - 1), Nil);
    FlattenCons(CutForest(f, n), parent, start);
    assert head + [] == head;
    FlattenCons(f, parent, start);
    CutParts(Entry(f.item, parent), Flatten(f.kids, start, start + 1),
        Flatten(f.rest, parent, start + 1 + Size(f.kids)), n);
  }

  /** Truncating the numbering is numbering the truncated forest. */
  lemma {:induction false} FlattenCut<X>(f: Forest<X>, parent: int, start: nat, n: nat)
    ensures Flatten(CutForest(f, n), parent, start) == Cut(Flatten(f, parent, start), n)
    decreases f
  {
    if f.Cons? && n > 0 {
      if 1 + Size(f.kids) <= n {
        FlattenCut(f.rest, parent, start + 1 + Size(f.kids), n - 1 - Size(f.kids));
        CutBehind(f.item, f.kids, f.rest, n);
        FlattenCutBehind(f.item, f.kids, f.rest, CutForest(f.rest, n - 1 - Size(f.kids)), parent, start, n);
      } else {
        FlattenCut(f.kids, start, start + 1, n - 1);
        FlattenCutInside(f, parent, start, n);
      }
    }
  }

  /** The first `n` nodes do not depend on which of the two depths the graph is unfolded to. */
  ghost predicate Stable(h: Heap, refs: seq<Ref>, d: nat, e: nat, n: nat)
    requires Closed(h) && RefsIn(h, refs)
  {
    CutForest(Unfold(h, refs, d), n) == CutForest(Unfold(h, refs, e), n)
  }

  /** However deep the graph is unfolded beyond `n`, the first `n` preorder nodes are the same:
      this is what makes a bounded walk meaningful on cyclic graphs. */
  lemma {:induction false} CutStable(h: Heap, refs: seq<Ref>, d: nat, e: nat, n: nat)
    requires Closed(h) && RefsIn(h, refs) && n <= d && n <= e
    ensures Stable(h, refs, d, e, n)
    decreases n, |refs|
  {
    if n == 0 || refs == [] {
      CutZero(Unfold(h, refs, d));
      CutZero(Unfold(h, refs, e));
    } else if Skipped(h, refs[0]) {
      CutStable(h, refs[1..], d, e, n);
    } else {
      var kids := Children(h[refs[0].value]);
      var size := Size(Unfold(h, kids, d - 1));
      ChildrenIn(h, refs[0].value);
      CutStable(h, kids, d - 1, e - 1, n - 1);
      if 1 + size < n {
        CutStable(h, refs[1..], d, e, n - 1 - size);
      }
      StableNext(h, refs, d, e, n, kids, size);
    }
  }

  lemma {:induction false} StableNext(h: Heap, refs: seq<Ref>, d: nat, e: nat, n: nat, kids: seq<Ref>, size: nat)
    requires Closed(h) && RefsIn(h, refs) && 0 < n <= d && n <= e && refs != [] && !Skipped(h, refs[0])
    requires kids == Children(h[refs[0].value]) && RefsIn(h, kids) && size == Size(Unfold(h, kids, d - 1))
    requires Stable(h, kids, d - 1, e - 1, n - 1)
    requires 1 + size < n ==> Stable(h, refs[1..], d, e, n - 1 - size)
    ensures Stable(h, refs, d, e, n)
  {
    UnfoldNext(h, refs, d);
    UnfoldNext(h, refs, e);
    CutConsed(Unfold(h, refs, d), Unfold(h, refs, e), n);
  }

  lemma {:induction false} CutConsed<X>(f: Forest<X>, g: Forest<X>, n: nat)
    requires n > 0 && f.Cons? && g.Cons? && f.item == g.item && CutForest(f.kids, n - 1) == CutForest(g.kids, n - 1)
    requires var m := n - 1 - Size(f.kids); m > 0 ==> CutForest(f.rest, m) == CutForest(g.rest, m)
    ensures CutForest(f, n) == CutForest(g, n)
  {
    CutCons(f.item, f.kids, g.kids, f.rest, g.rest, n);
  }

  lemma {:induction false} SameWhole<X>(k: Forest<X>, l: Forest<X>, n: nat)
    requires CutForest(k, n) == CutForest(l, n) && (Size(k) < n || Size(l) < n)
    ensures k == l
  {
    CutWhole(k, n);
    CutWhole(l, n);
  }

  lemma {:induction false} CutCons<X>(x: X, k: Forest<X>, l: Forest<X>, a: Forest<X>, b: Forest<X>, n: nat)
    requires n > 0 && CutForest(k, n - 1) == CutForest(l, n - 1)
    requires 1 + Size(k) < n ==> CutForest(a, n - 1 - Size(k)) == CutForest(b, n - 1 - Size(k))
    ensures CutForest(Cons(x, k, a), n) == CutForest(Cons(x, l, b), n)
  {
    if 1 + Size(k) < n || 1 + Size(l) < n {
      SameWhole(k, l, n - 1);
      CutBehind(x, k, a, n);
      CutBehind(x, k, b, n);
    } else {
      CutAtSize(x, k, a, n);
      CutAtSize(x, l, b, n);
    }
  }

  lemma {:induction false} CutBehind<X>(x: X, k: Forest<X>, rest: Forest<X>, n: nat)
    requires 1 + Size(k) <= n
    ensures CutForest(Cons(x, k, rest), n) == Cons(x, k, CutForest(rest, n - 1 - Size(k)))
  {
  }

  /** Once the first subtree fills the budget nothing to its right is kept. */
  lemma {:induction false} CutAtSize<X>(x: X, k: Forest<X>, rest: Forest<X>, n: nat)
    requires 1 <= n <= 1 + Size(k)
    ensures CutForest(Cons(x, k, rest), n) == Cons(x, CutForest(k, n - 1), Nil)
  {
    CutZero(rest);
    if n == 1 + Size(k) {
      CutWhole(k, n - 1);
    }
  }

  lemma {:induction false} CutZero<X>(f: Forest<X>)
    ensures CutForest(f, 0) == Nil
  {
  }

  lemma {:induction false} CutWhole<X>(f: Forest<X>, n: nat)
    requires Size(f) <= n
    ensures CutForest(f, n) == f
  {
    match f case Nil => case Cons(x, k, rest) => CutWhole(rest, n - 1 - Size(k));
  }

  /** What the bounded walk is meant to record: the first `max` nodes below `r` in preorder. */
  function Preorder(h: Heap, r: Ref, max: nat): (es: seq<Entry<nat>>)
    requires Closed(h) && RefsIn(h, [r])
    ensures |es| <= max
  {
    Cut(Flatten(Unfold(h, [r], max + 1), -1, 0), max)
  }
}
