/** The inverse of the preorder numbering: a stored (parent, tag) array determines the plan's shape.
    `es[k]` is the node numbered k. */
module Rebuild {
  import opened Basics
  import opened Plans

  /** Reads the children of `parent` that start at index `i`, up to the first node of another parent. */
  function Parse<X>(es: seq<Entry<X>>, i: nat, parent: int): (f: Forest<X>)
    ensures i + Size(f) <= Max(i, |es|)
    decreases |es| - i
  {
    if i >= |es| || es[i].parent != parent then Nil
    else
      var kids := Parse(es, i + 1, i);
      Cons(es[i].item, kids, Parse(es, i + 1 + Size(kids), parent))
  }

  function ParseAll<X>(es: seq<Entry<X>>): Forest<X> { Parse(es, 0, -1) }

  /** From index `i` on `es` lists the nodes of `f` in preorder, hung below `parent`. */
  ghost predicate Lists<X>(es: seq<Entry<X>>, i: nat, parent: int, f: Forest<X>)
    decreases f
  {
    match f
    case Nil => i <= |es|
    case Cons(x, kids, rest) =>
      && i < |es|
      && es[i] == Entry(x, parent)
      && Lists(es, i + 1, i, kids)
      && Lists(es, i + 1 + Size(kids), parent, rest)
  }

  lemma {:induction false} FlattenSlice<X>(es: seq<Entry<X>>, i: nat, parent: int, f: Forest<X>)
    requires f.Cons? && i + Size(f) <= |es| && es[i..i + Size(f)] == Flatten(f, parent, i)
    ensures var j := i + 1 + Size(f.kids);
      && es[i] == Entry(f.item, parent)
      && es[i + 1..j] == Flatten(f.kids, i, i + 1)
      && es[j..j + Size(f.rest)] == Flatten(f.rest, parent, j)
  {
    FlattenCons(f, parent, i);
    SplitSlice(es, i, i + Size(f), Entry(f.item, parent), Flatten(f.kids, i, i + 1),
               Flatten(f.rest, parent, i + 1 + Size(f.kids)));
  }

  lemma {:induction false} SliceLists<X>(es: seq<Entry<X>>, i: nat, parent: int, f: Forest<X>)
    requires i + Size(f) <= |es| && es[i..i + Size(f)] == Flatten(f, parent, i)
    ensures Lists(es, i, parent, f)
    decreases f
  {
    if f.Cons? {
      FlattenSlice(es, i, parent, f);
      SliceLists(es, i + 1, i, f.kids);
      SliceLists(es, i + 1 + Size(f.kids), parent, f.rest);
    }
  }

  lemma {:induction false} ListsSlice<X>(es: seq<Entry<X>>, i: nat, parent: int, f: Forest<X>)
    requires Lists(es, i, parent, f)
    ensures i + Size(f) <= |es| && Flatten(f, parent, i) == es[i..i + Size(f)]
    decreases f
  {
    if f.Cons? {
      ListsSlice(es, i + 1, i, f.kids);
      ListsSlice(es, i + 1 + Size(f.kids), parent, f.rest);
      FlattenCons(f, parent, i);
      JoinSlice(es, i, i + 1 + Size(f.kids), i + Size(f));
    }
  }

  lemma {:induction false} ParseLists<X>(es: seq<Entry<X>>, i: nat, parent: int, f: Forest<X>)
    requires Lists(es, i, parent, f) && parent < i
    requires var e := i + Size(f); e >= |es| || es[e].parent < parent
    ensures Parse(es, i, parent) == f
    decreases f
  {
    if f.Cons? {
      ParseLists(es, i + 1, i, f.kids);
      ParseLists(es, i + 1 + Size(f.kids), parent, f.rest);
    }
  }

  /** Numbering a plan and reading the array back gives the plan. */
  lemma {:induction false} ParseAfterFlatten<X>(f: Forest<X>)
    ensures ParseAll(Flatten(f, -1, 0)) == f
  {
    var es := Flatten(f, -1, 0);
    assert es[0..|es|] == es;
    SliceLists(es, 0, -1, f);
    ParseLists(es, 0, -1, f);
  }

  /** Whatever is read is listed where it was read from. */
  lemma {:induction false} ListsParse<X>(es: seq<Entry<X>>, i: nat, parent: int)
    requires i <= |es|
    ensures Lists(es, i, parent, Parse(es, i, parent))
    decreases |es| - i
  {
    if i < |es| && es[i].parent == parent {
      ListsParse(es, i + 1, i);
      ListsParse(es, i + 1 + Size(Parse(es, i + 1, i)), parent);
    }
  }

  // ---- Which arrays are numberings --------------------------------------------------------------

  /** `a` lies strictly above `b` on the chain of parents (-1 lies above every node). */
  predicate Above<X>(es: seq<Entry<X>>, a: int, b: int)
    decreases b
  {
    0 <= b < |es| && -1 <= es[b].parent < b && (a == es[b].parent || Above(es, a, es[b].parent))
  }

  /** Every node hangs below the node visited just before it, or one of that node's ancestors. */
  ghost predicate Nested<X>(es: seq<Entry<X>>) {
    forall k :: 0 <= k < |es| ==> OnSpine(es, k)
  }

  predicate OnSpine<X>(es: seq<Entry<X>>, k: nat)
    requires k < |es|
  {
    es[k].parent == k - 1 || Above(es, es[k].parent, k - 1)
  }

  lemma {:induction false} AboveTransitive<X>(es: seq<Entry<X>>, a: int, b: int, c: int)
    requires Above(es, a, b) && Above(es, b, c)
    ensures Above(es, a, c)
    decreases c
  {
    if b != es[c].parent {
      AboveTransitive(es, a, b, es[c].parent);
    }
  }

  lemma {:induction false} AboveIsSmaller<X>(es: seq<Entry<X>>, a: int, b: int)
    requires Above(es, a, b)
    ensures -1 <= a < b
    decreases b
  {
    if a != es[b].parent {
      AboveIsSmaller(es, a, es[b].parent);
    }
  }

  /** In a nested array the parser stops only at the end or at a child of an ancestor. */
  lemma {:induction false} ParseStops<X>(es: seq<Entry<X>>, i: nat, parent: int)
    requires Nested(es) && i <= |es| && -1 <= parent < i
    requires i == |es| || es[i].parent == parent || Above(es, es[i].parent, parent)
    ensures var e := i + Size(Parse(es, i, parent)); e == |es| || Above(es, es[e].parent, parent)
    decreases |es| - i
  {
    if i < |es| && es[i].parent == parent {
      var j := i + 1 + Size(Parse(es, i + 1, i));
      if i + 1 < |es| {
        assert OnSpine(es, i + 1);
      }
      ParseStops(es, i + 1, i);
      ParseStops(es, j, parent);
    }
  }

  /** A nested array is the numbering of the forest read from it. */
  lemma {:induction false} NestedIsNumbering<X>(es: seq<Entry<X>>)
    requires Nested(es)
    ensures Flatten(ParseAll(es), -1, 0) == es
  {
    if es != [] {
      assert OnSpine(es, 0);
    }
    ParseStops(es, 0, -1);
    ListsParse(es, 0, -1);
    ListsSlice(es, 0, -1, ParseAll(es));
    assert es[0..|es|] == es;
  }

  /** Node k of a listed subtree hangs below `parent`; used to build `Nested`. */
  ghost predicate Hung<X>(es: seq<Entry<X>>, i: nat, e: nat, parent: int) {
    && -1 <= parent < i <= e <= |es|
    && (forall k :: i <= k < e ==> es[k].parent == parent || Above(es, parent, k))
    && (forall k :: i <= k < e ==> OnSpine(es, k))
  }

  lemma {:induction false} ListsHung<X>(es: seq<Entry<X>>, i: nat, parent: int, f: Forest<X>)
    requires -1 <= parent < i && i + Size(f) <= |es| && Lists(es, i, parent, f)
    requires parent == i - 1 || Above(es, parent, i - 1)
    ensures Hung(es, i, i + Size(f), parent)
    decreases f
  {
    if f.Cons? {
      var j := i + 1 + Size(f.kids);
      ListsHung(es, i + 1, i, f.kids);
      forall k | i + 1 <= k < j ensures Above(es, parent, k) {
        assert es[k].parent == i || Above(es, i, k);
        if es[k].parent != i {
          AboveTransitive(es, parent, i, k);
        }
      }
      ListsHung(es, j, parent, f.rest);
    }
  }

  /** Exactly the nested arrays are preorder numberings. */
  lemma {:induction false} NumberingIffNested<X>(es: seq<Entry<X>>)
    ensures Nested(es) <==> exists f: Forest<X> :: Flatten(f, -1, 0) == es
  {
    if Nested(es) {
      NestedIsNumbering(es);
    }
    forall f: Forest<X> | Flatten(f, -1, 0) == es ensures Nested(es) {
      assert es[0..|es|] == es;
      SliceLists(es, 0, -1, f);
      ListsHung(es, 0, -1, f);
    }
  }

  /** Distinct plans never share an array. */
  lemma {:induction false} NumberingInjective<X>(f: Forest<X>, g: Forest<X>)
    requires Flatten(f, -1, 0) == Flatten(g, -1, 0)
    ensures f == g
  {
    ParseAfterFlatten(f);
    ParseAfterFlatten(g);
  }

  /** Every subtree occupies a contiguous range of numbers. */
  lemma {:induction false} SubtreeContiguous<X>(es: seq<Entry<X>>, a: nat, b: nat, c: nat)
    requires Nested(es) && a < b < c < |es| && Above(es, a, c)
    ensures Above(es, a, b)
    decreases c
  {
    assert OnSpine(es, c);
    var p := es[c].parent;
    if b < c - 1 || p != c - 1 {
      assert a == p || Above(es, a, p);
      if p == c - 1 {
      } else if a != p {
        AboveTransitive(es, a, p, c - 1);
      }
      if b < c - 1 {
        SubtreeContiguous(es, a, b, c - 1);
      }
    }
  }

  /** A truncated array is closed under parents, keeps the ancestors of every node that it keeps, and reads
      back as the truncated plan. */
  lemma {:induction false} TruncatedReadsBack<X>(f: Forest<X>, n: nat)
    ensures var full := Flatten(f, -1, 0);
      var es := Cut(full, n);
      && ParseAll(es) == CutForest(f, n)
      && Nested(es)
      && (forall k :: 0 <= k < |es| ==> -1 <= es[k].parent < k)
      && forall a, b :: b < |es| ==> Above(es, a, b) == Above(full, a, b)
  {
    var full := Flatten(f, -1, 0);
    var es := Cut(full, n);
    FlattenCut(f, -1, 0, n);
    ParseAfterFlatten(CutForest(f, n));
    NumberingIffNested(es);
    forall k | 0 <= k < |es| ensures -1 <= es[k].parent < k {
      ParentIsSmaller(es, k);
    }
    forall a, b | b < |es| ensures Above(es, a, b) == Above(full, a, b) {
      AncestorsKept(full, n, a, b);
    }
  }

  lemma {:induction false} AncestorsKept<X>(es: seq<Entry<X>>, n: nat, a: int, b: int)
    requires b < n && b < |es|
    ensures Above(Cut(es, n), a, b) == Above(es, a, b)
    decreases b
  {
    if 0 <= b && -1 <= es[b].parent < b {
      AncestorsKept(es, n, a, es[b].parent);
    }
  }

  lemma {:induction false} ParentIsSmaller<X>(es: seq<Entry<X>>, k: nat)
    requires Nested(es) && k < |es|
    ensures -1 <= es[k].parent < k
  {
    assert OnSpine(es, k);
    if es[k].parent != k - 1 {
      AboveIsSmaller(es, es[k].parent, k - 1);
    }
  }
}
