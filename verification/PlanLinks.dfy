/** What the numbering of a plan says about the plan: which pointers of a plan state its children are, each read
    through its own field, and which plan states are recorded at all. */
module PlanLinks {
  import opened Basics
  import opened Plans
  import opened TwoPass

  // ---- Pointers and the nodes behind them ---------------------------------------------------------

  /** A pointer leads to a node that is recorded: it is not NULL and the plan state behind it has a plan. */
  predicate Leads(h: Heap, r: Ref) { r.Some? && r.value in h && h[r.value].planTag.Some? }

  /** The nodes behind a list of pointers, in its order. */
  function Behind(h: Heap, refs: seq<Ref>): seq<nat>
    decreases |refs|
  {
    if refs == [] then []
    else (if Leads(h, refs[0]) then [refs[0].value] else []) + Behind(h, refs[1..])
  }

  /** The nodes behind the pointers that every plan state has: left child, right child, subplans. */
  function BehindStandard(h: Heap, n: PlanState): seq<nat> {
    Behind(h, [n.lefttree]) + Behind(h, [n.righttree]) + if n.subPlan.Some? then Behind(h, n.subPlan.value) else []
  }

  /** `below` are the nodes behind the pointers of `n`: the standard ones, then those of its kind. */
  predicate AreChildren(h: Heap, n: PlanState, below: seq<nat>) {
    var standard := BehindStandard(h, n);
    && (n.kind.AppendState? ==> below == standard + Behind(h, n.kind.appendplans))
    && (n.kind.CteScanState? ==> below == standard + Behind(h, [n.kind.cteplanstate]))
    && (n.kind.MergeAppendState? ==> below == standard + Behind(h, n.kind.mergeplans))
    && (n.kind.BitmapAndState? ==> below == standard + Behind(h, n.kind.andplans))
    && (n.kind.BitmapOrState? ==> below == standard + Behind(h, n.kind.orplans))
    && (n.kind.SubqueryScanState? ==> below == standard + Behind(h, [n.kind.subplan]))
    && (n.kind.OtherState? ==> below == standard)
  }

  lemma {:induction false} BehindConcat(h: Heap, a: seq<Ref>, b: seq<Ref>)
    ensures Behind(h, a + b) == Behind(h, a) + Behind(h, b)
    decreases |a|
  {
    if a == [] {
      assert a + b == b;
    } else {
      assert (a + b)[1..] == a[1..] + b;
      BehindConcat(h, a[1..], b);
    }
  }

  lemma {:induction false} BehindChildren(h: Heap, n: PlanState)
    ensures AreChildren(h, n, Behind(h, Children(n)))
  {
    BehindConcat(h, [n.lefttree], [n.righttree]);
    assert [n.lefttree] + [n.righttree] == [n.lefttree, n.righttree];
    BehindConcat(h, [n.lefttree, n.righttree], SubPlans(n));
    BehindConcat(h, Standard(n), KindChildren(n.kind));
    assert Behind(h, []) == [];
  }

  // ---- The nodes listed below a node --------------------------------------------------------------

  /** The items listed with this parent, in the order of the list. */
  function ItemsBelow(es: seq<Entry<nat>>, parent: int): seq<nat>
    decreases |es|
  {
    if es == [] then [] else (if es[0].parent == parent then [es[0].item] else []) + ItemsBelow(es[1..], parent)
  }

  lemma {:induction false} ItemsConcat(a: seq<Entry<nat>>, b: seq<Entry<nat>>, parent: int)
    ensures ItemsBelow(a + b, parent) == ItemsBelow(a, parent) + ItemsBelow(b, parent)
    decreases |a|
  {
    if a == [] {
      assert a + b == b;
    } else {
      assert (a + b)[1..] == a[1..] + b && (a + b)[0] == a[0];
      ItemsConcat(a[1..], b, parent);
      Assoc(if a[0].parent == parent then [a[0].item] else [], ItemsBelow(a[1..], parent), ItemsBelow(b, parent));
    }
  }

  lemma {:induction false} NoItems(es: seq<Entry<nat>>, parent: int)
    requires forall k :: 0 <= k < |es| ==> es[k].parent != parent
    ensures ItemsBelow(es, parent) == []
    decreases |es|
  {
    if es != [] {
      NoItems(es[1..], parent);
    }
  }

  function Roots(f: Forest<nat>): seq<nat> { match f case Nil => [] case Cons(x, _, rest) => [x] + Roots(rest) }

  /** Parents of listed nodes are the common parent or listed themselves. */
  predicate ParentsIn(es: seq<Entry<nat>>, parent: int, lo: int, hi: int) {
    forall k :: 0 <= k < |es| ==> es[k].parent == parent || lo <= es[k].parent < hi
  }

  lemma {:induction false} ParentRange(f: Forest<nat>, parent: int, start: nat)
    ensures ParentsIn(Flatten(f, parent, start), parent, start, start + Size(f))
    decreases f
  {
    if f.Cons? {
      FlattenCons(f, parent, start);
      ParentRange(f.kids, start, start + 1);
      ParentRange(f.rest, parent, start + 1 + Size(f.kids));
    }
  }

  lemma {:induction false} ItemsOfParts(e: Entry<nat>, a: seq<Entry<nat>>, b: seq<Entry<nat>>, p: int)
    ensures ItemsBelow([e] + a + b, p)
         == (if e.parent == p then [e.item] else []) + ItemsBelow(a, p) + ItemsBelow(b, p)
  {
    ItemsConcat([e] + a, b, p);
    ItemsConcat([e], a, p);
    assert [e][1..] == [];
  }

  lemma {:induction false} NotBelow(es: seq<Entry<nat>>, parent: int, lo: int, hi: int, p: int)
    requires ParentsIn(es, parent, lo, hi) && p != parent && !(lo <= p < hi)
    ensures ItemsBelow(es, p) == []
  {
    NoItems(es, p);
  }

  lemma {:induction false} ItemsAreRoots(f: Forest<nat>, parent: int, start: nat)
    requires parent < start
    ensures ItemsBelow(Flatten(f, parent, start), parent) == Roots(f)
    decreases f
  {
    if f.Cons? {
      var kids, rest := Flatten(f.kids, start, start + 1), Flatten(f.rest, parent, start + 1 + Size(f.kids));
      FlattenCons(f, parent, start);
      ParentRange(f.kids, start, start + 1);
      ItemsOfParts(Entry(f.item, parent), kids, rest, parent);
      NotBelow(kids, start, start + 1, start + 1 + Size(f.kids), parent);
      ItemsAreRoots(f.rest, parent, start + 1 + Size(f.kids));
    }
  }

  lemma {:induction false} RootsAreBehind(h: Heap, refs: seq<Ref>, d: nat)
    requires Closed(h) && RefsIn(h, refs) && d > 0
    ensures Roots(Unfold(h, refs, d)) == Behind(h, refs)
    decreases |refs|
  {
    if refs != [] {
      RootsAreBehind(h, refs[1..], d);
    }
  }

  /** The node at index k, of number `id`, has the nodes behind its pointers listed below it. */
  ghost predicate ChildrenAt(h: Heap, es: seq<Entry<nat>>, k: nat, id: nat)
    requires k < |es|
  {
    es[k].item in h && forall below :: AreItems(es, id, below) ==> below == Behind(h, Children(h[es[k].item]))
  }

  ghost predicate AreItems(es: seq<Entry<nat>>, id: nat, below: seq<nat>) { below == ItemsBelow(es, id) }

  lemma {:induction false} ChildrenAtIff(h: Heap, es: seq<Entry<nat>>, k: nat, id: nat)
    requires k < |es| && es[k].item in h
    ensures ChildrenAt(h, es, k, id) <==> ItemsBelow(es, id) == Behind(h, Children(h[es[k].item]))
  {
    assert AreItems(es, id, ItemsBelow(es, id));
  }

  lemma {:induction false} RootChildren(
      h: Heap, x: nat, parent: int, a: seq<Entry<nat>>, b: seq<Entry<nat>>, start: nat)
    requires x in h && parent < start && ItemsBelow(a, start) == Behind(h, Children(h[x]))
    requires ParentsIn(b, parent, start + 1 + |a|, start + 1 + |a| + |b|)
    ensures ChildrenAt(h, [Entry(x, parent)] + a + b, 0, start)
  {
    ItemsOfParts(Entry(x, parent), a, b, start);
    NotBelow(b, parent, start + 1 + |a|, start + 1 + |a| + |b|, start);
    ChildrenAtIff(h, [Entry(x, parent)] + a + b, 0, start);
  }

  lemma {:induction false} KidChildren(
      h: Heap, e: Entry<nat>, a: seq<Entry<nat>>, b: seq<Entry<nat>>, start: nat, k: nat, id: nat)
    requires 0 < k <= |a| && e.parent < start < id < start + 1 + |a| && ChildrenAt(h, a, k - 1, id)
    requires ParentsIn(b, e.parent, start + 1 + |a|, start + 1 + |a| + |b|)
    ensures ChildrenAt(h, [e] + a + b, k, id)
  {
    ItemsOfParts(e, a, b, id);
    NotBelow(b, e.parent, start + 1 + |a|, start + 1 + |a| + |b|, id);
    ChildrenAtIff(h, a, k - 1, id);
    ChildrenAtIff(h, [e] + a + b, k, id);
  }

  lemma {:induction false} RestChildren(
      h: Heap, e: Entry<nat>, a: seq<Entry<nat>>, b: seq<Entry<nat>>, start: nat, i: nat, k: nat, id: nat)
    requires i < |b| && k == 1 + |a| + i && e.parent < start && start + 1 + |a| <= id && ChildrenAt(h, b, i, id)
    requires ParentsIn(a, start, start + 1, start + 1 + |a|)
    ensures ChildrenAt(h, [e] + a + b, k, id)
  {
    assert ([e] + a + b)[k] == b[i];
    ItemsOfParts(e, a, b, id);
    NotBelow(a, start, start + 1, start + 1 + |a|, id);
    ChildrenAtIff(h, b, i, id);
    ChildrenAtIff(h, [e] + a + b, k, id);
  }

  /** The same of node k of a forest that is numbered from `start`. */
  ghost predicate NodeOk(h: Heap, f: Forest<nat>, parent: int, start: nat, k: nat) {
    k < Size(f) && ChildrenAt(h, Flatten(f, parent, start), k, start + k)
  }

  lemma {:induction false} FirstOk(h: Heap, f: Forest<nat>, d: nat, parent: int, start: nat)
    requires Closed(h) && f.Cons? && f.item in h && RefsIn(h, Children(h[f.item])) && d > 0 && parent < start
    requires f.kids == Unfold(h, Children(h[f.item]), d)
    ensures NodeOk(h, f, parent, start, 0)
  {
    var next := start + 1 + Size(f.kids);
    FlattenCons(f, parent, start);
    ParentRange(f.rest, parent, next);
    ItemsAreRoots(f.kids, start, start + 1);
    RootsAreBehind(h, Children(h[f.item]), d);
    RootChildren(h, f.item, parent, Flatten(f.kids, start, start + 1), Flatten(f.rest, parent, next), start);
  }

  lemma {:induction false} KidOk(h: Heap, f: Forest<nat>, parent: int, start: nat, k: nat)
    requires f.Cons? && k > 0 && NodeOk(h, f.kids, start, start + 1, k - 1) && parent < start
    ensures NodeOk(h, f, parent, start, k)
  {
    var next := start + 1 + Size(f.kids);
    var a, b := Flatten(f.kids, start, start + 1), Flatten(f.rest, parent, next);
    FlattenCons(f, parent, start);
    ParentRange(f.rest, parent, next);
    KidChildren(h, Entry(f.item, parent), a, b, start, k, start + k);
  }

  lemma {:induction false} RestOk(h: Heap, f: Forest<nat>, parent: int, start: nat, k: nat, i: nat)
    requires f.Cons? && k == 1 + Size(f.kids) + i && parent < start
    requires NodeOk(h, f.rest, parent, start + 1 + Size(f.kids), i)
    ensures NodeOk(h, f, parent, start, k)
  {
    var next := start + 1 + Size(f.kids);
    var a, b := Flatten(f.kids, start, start + 1), Flatten(f.rest, parent, next);
    FlattenCons(f, parent, start);
    ParentRange(f.kids, start, start + 1);
    RestChildren(h, Entry(f.item, parent), a, b, start, i, k, start + k);
  }

  lemma {:induction false} NodeChildren(h: Heap, refs: seq<Ref>, d: nat, parent: int, start: nat, k: nat)
    requires Closed(h) && RefsIn(h, refs) && parent < start && k + 1 < d && k < Size(Unfold(h, refs, d))
    ensures NodeOk(h, Unfold(h, refs, d), parent, start, k)
    decreases d, |refs|
  {
    if Skipped(h, refs[0]) {
      NodeChildren(h, refs[1..], d, parent, start, k);
    } else {
      UnfoldNext(h, refs, d);
      var f, x := Unfold(h, refs, d), refs[0].value;
      if k == 0 {
        FirstOk(h, f, d - 1, parent, start);
      } else if k <= Size(f.kids) {
        NodeChildren(h, Children(h[x]), d - 1, start, start + 1, k - 1);
        KidOk(h, f, parent, start, k);
      } else {
        var i := k - 1 - Size(f.kids);
        NodeChildren(h, refs[1..], d, parent, start + 1 + Size(f.kids), i);
        RestOk(h, f, parent, start, k, i);
      }
    }
  }

  // ---- The recorded list --------------------------------------------------------------------------

  /** `a` are the first elements of `b`. */
  predicate Prefix(a: seq<nat>, b: seq<nat>) { a <= b }

  lemma {:induction false} CutItems(es: seq<Entry<nat>>, n: nat, parent: int)
    ensures Prefix(ItemsBelow(Cut(es, n), parent), ItemsBelow(es, parent))
  {
    if n < |es| {
      assert es[..n] + es[n..] == es;
      ItemsConcat(es[..n], es[n..], parent);
    }
  }

  /** With a larger budget nothing more would be recorded. */
  predicate Whole(h: Heap, r: Ref, max: nat)
    requires Closed(h) && RefsIn(h, [r])
  {
    |Preorder(h, r, max + 1)| <= max
  }

  lemma {:induction false} WholeIsUnfolded(h: Heap, r: Ref, max: nat)
    requires Closed(h) && RefsIn(h, [r]) && Whole(h, r, max)
    ensures Preorder(h, r, max) == Flatten(Unfold(h, [r], max + 2), -1, 0)
  {
    var f, g := Unfold(h, [r], max + 1), Unfold(h, [r], max + 2);
    CutStable(h, [r], max + 1, max + 2, max);
    FlattenCut(f, -1, 0, max);
    FlattenCut(g, -1, 0, max);
    assert Preorder(h, r, max + 1) == Cut(Flatten(g, -1, 0), max + 1) && Size(g) <= max;
  }

  /** The nodes recorded below node j are, in the order of their numbers, the first of the nodes behind its
      pointers, and all of them if the plan fitted. */
  lemma {:induction false} RecordedChildren(h: Heap, r: Ref, max: nat, j: nat) returns (all: seq<nat>)
    requires Closed(h) && RefsIn(h, [r]) && j < |Preorder(h, r, max)|
    ensures var es := Preorder(h, r, max);
      && es[j].item in h && AreChildren(h, h[es[j].item], all)
      && ItemsBelow(es, j) <= all && (Whole(h, r, max) ==> ItemsBelow(es, j) == all)
  {
    var es, full := Preorder(h, r, max), Flatten(Unfold(h, [r], max + 1), -1, 0);
    NodeChildren(h, [r], max + 1, -1, 0, j);
    ChildrenAtIff(h, full, j, j);
    assert es[j] == full[j];
    all := Behind(h, Children(h[es[j].item]));
    BehindChildren(h, h[es[j].item]);
    CutItems(full, max, j);
    if Whole(h, r, max) {
      WholeIsUnfolded(h, r, max);
      NodeChildren(h, [r], max + 2, -1, 0, j);
      ChildrenAtIff(h, es, j, j);
    }
  }

  /** And node 0 is the root, if the root has a plan. */
  lemma {:induction false} RecordedRoot(h: Heap, r: Ref, max: nat)
    requires Closed(h) && RefsIn(h, [r]) && max > 0
    ensures var es := Preorder(h, r, max);
      && (Leads(h, r) ==> es != [] && es[0] == Entry(r.value, -1))
      && (!Leads(h, r) ==> es == [])
  {
    var f := Unfold(h, [r], max + 1);
    assert [r][0] == r && [r][1..] == [] && Unfold(h, [], max + 1) == Nil;
    if Leads(h, r) {
      FlattenCons(f, -1, 0);
    }
  }

  // ---- Which plan states are recorded -------------------------------------------------------------

  /** Some pointer of `n`, of those that its kind has, is to `a`. */
  predicate PointsTo(n: PlanState, a: nat) {
    || n.lefttree == Some(a) || n.righttree == Some(a)
    || (n.subPlan.Some? && Some(a) in n.subPlan.value)
    || (n.kind.AppendState? && Some(a) in n.kind.appendplans)
    || (n.kind.CteScanState? && n.kind.cteplanstate == Some(a))
    || (n.kind.MergeAppendState? && Some(a) in n.kind.mergeplans)
    || (n.kind.BitmapAndState? && Some(a) in n.kind.andplans)
    || (n.kind.BitmapOrState? && Some(a) in n.kind.orplans)
    || (n.kind.SubqueryScanState? && n.kind.subplan == Some(a))
  }

  lemma {:induction false} BehindIff(h: Heap, refs: seq<Ref>, a: nat)
    ensures a in Behind(h, refs) <==> Some(a) in refs && Leads(h, Some(a))
    decreases |refs|
  {
    if refs != [] {
      BehindIff(h, refs[1..], a);
      assert refs == [refs[0]] + refs[1..];
    }
  }

  lemma {:induction false} ChildIffPointed(h: Heap, n: PlanState, below: seq<nat>, a: nat)
    requires AreChildren(h, n, below)
    ensures a in below <==> PointsTo(n, a) && Leads(h, Some(a))
  {
    BehindIff(h, [n.lefttree], a);
    BehindIff(h, [n.righttree], a);
    if n.subPlan.Some? {
      BehindIff(h, n.subPlan.value, a);
    }
    match n.kind
    case AppendState(ps) => BehindIff(h, ps, a);
    case CteScanState(c) => BehindIff(h, [c], a);
    case MergeAppendState(ps) => BehindIff(h, ps, a);
    case BitmapAndState(ps) => BehindIff(h, ps, a);
    case BitmapOrState(ps) => BehindIff(h, ps, a);
    case SubqueryScanState(c) => BehindIff(h, [c], a);
    case OtherState =>
  }

  /** A path of pointers from the root through nodes that have a plan. */
  ghost predicate IsPath(h: Heap, r: Ref, path: seq<nat>) {
    && path != [] && r == Some(path[0])
    && (forall i :: 0 <= i < |path| ==> Leads(h, Some(path[i])))
    && (forall i :: 0 <= i < |path| - 1 ==> Linked(h, path, i))
  }

  predicate Linked(h: Heap, path: seq<nat>, i: nat)
    requires i + 1 < |path| && Leads(h, Some(path[i]))
  {
    PointsTo(h[path[i]], path[i + 1])
  }

  ghost predicate Recorded(es: seq<Entry<nat>>, a: nat) { exists k :: 0 <= k < |es| && es[k].item == a }

  lemma {:induction false} ItemsRecorded(es: seq<Entry<nat>>, parent: int, a: nat)
    ensures a in ItemsBelow(es, parent) <==> exists k :: 0 <= k < |es| && es[k] == Entry(a, parent)
    decreases |es|
  {
    if es != [] {
      ItemsRecorded(es[1..], parent, a);
      if k :| 0 <= k < |es[1..]| && es[1..][k] == Entry(a, parent) {
        assert es[k + 1] == Entry(a, parent);
      }
      if k :| 0 <= k < |es| && es[k] == Entry(a, parent) {
        assert k > 0 ==> es[1..][k - 1] == es[k];
      }
    }
  }

  lemma {:induction false} ExtendPath(h: Heap, r: Ref, path: seq<nat>, a: nat)
    requires IsPath(h, r, path) && PointsTo(h[path[|path| - 1]], a) && Leads(h, Some(a))
    ensures IsPath(h, r, path + [a])
  {
    var longer := path + [a];
    forall i | 0 <= i < |longer| - 1 ensures Linked(h, longer, i) {
      assert i < |path| - 1 ==> Linked(h, path, i);
    }
  }

  /** Even of a plan that was truncated every recorded node is the end of such a path. */
  lemma {:induction false} RecordedHasPath(h: Heap, r: Ref, max: nat, k: nat) returns (path: seq<nat>)
    requires Closed(h) && RefsIn(h, [r]) && k < |Preorder(h, r, max)|
    ensures IsPath(h, r, path) && path[|path| - 1] == Preorder(h, r, max)[k].item
    decreases k
  {
    var es := Preorder(h, r, max);
    PreorderIsTree(h, r, max, max + 1);
    if k == 0 {
      RecordedRoot(h, r, max);
      path := [es[0].item];
    } else {
      var j, a := es[k].parent, es[k].item;
      var all := RecordedChildren(h, r, max, j);
      path := RecordedHasPath(h, r, max, j);
      ItemsRecorded(es, j, a);
      assert es[k] == Entry(a, j);
      ChildIffPointed(h, h[es[j].item], all, a);
      ExtendPath(h, r, path, a);
      path := path + [a];
    }
  }

  lemma {:induction false} PathRecorded(h: Heap, r: Ref, max: nat, path: seq<nat>)
    requires Closed(h) && RefsIn(h, [r]) && Whole(h, r, max) && IsPath(h, r, path)
    ensures Recorded(Preorder(h, r, max), path[|path| - 1])
    decreases |path|
  {
    var es, n := Preorder(h, r, max), |path| - 1;
    if n == 0 {
      RootRecorded(h, r, max);
    } else {
      var a, before := path[n], path[..n];
      assert Linked(h, path, n - 1);
      forall i | 0 <= i < |before| - 1 ensures Linked(h, before, i) {
        assert Linked(h, path, i);
      }
      PathRecorded(h, r, max, before);
      var j :| 0 <= j < |es| && es[j].item == before[n - 1];
      var all := RecordedChildren(h, r, max, j);
      ChildIffPointed(h, h[es[j].item], all, a);
      ItemsRecorded(es, j, a);
    }
  }

  lemma {:induction false} RootRecorded(h: Heap, r: Ref, max: nat)
    requires Closed(h) && RefsIn(h, [r]) && Whole(h, r, max) && Leads(h, r)
    ensures Recorded(Preorder(h, r, max), r.value)
  {
    RecordedRoot(h, r, max + 1);
    WholeIsUnfolded(h, r, max);
    assert max > 0;
    RecordedRoot(h, r, max);
    assert Preorder(h, r, max)[0].item == r.value;
  }

  /** Of a plan that fitted exactly the plan states are recorded to which a path of pointers leads from the root,
      through plan states that have a plan. */
  lemma {:induction false} RecordedIffReached(h: Heap, r: Ref, max: nat, a: nat)
    requires Closed(h) && RefsIn(h, [r]) && Whole(h, r, max)
    ensures Recorded(Preorder(h, r, max), a) <==> exists path :: IsPath(h, r, path) && path[|path| - 1] == a
  {
    var es := Preorder(h, r, max);
    if Recorded(es, a) {
      var k :| 0 <= k < |es| && es[k].item == a;
      var path := RecordedHasPath(h, r, max, k);
    }
    if path :| IsPath(h, r, path) && path[|path| - 1] == a {
      PathRecorded(h, r, max, path);
    }
  }
}
