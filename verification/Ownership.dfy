/** Which histories leave a backend with a slot and a current query, and what claims and reaping do. */
module Ownership {
  import opened Basics
  import opened NodeWrites
  import opened Slots
  import opened Lifecycle

  // ---- Claims -----------------------------------------------------------------------------------

  /** A claim returns the caller's own slot if it has one, else the lowest free one; it fails exactly when
      it finds neither, and it changes nothing but the pid of a free slot. */
  lemma {:induction false} ClaimChoice(sh: Shared, p: int, create: bool)
    requires p != 0
    ensures var (sh', got) := Claim(sh, p, create);
      && (got.None? <==> forall i :: 0 <= i < |sh.slots| ==> sh.slots[i].pid != p && (create ==> sh.slots[i].pid != 0))
      && (got.Some? ==>
            || sh.slots[got.value].pid == p
            || (&& (forall j :: 0 <= j < |sh.slots| ==> sh.slots[j].pid != p)
                && sh.slots[got.value].pid == 0
                && (forall j :: 0 <= j < got.value ==> sh.slots[j].pid != 0)))
      && (forall j :: 0 <= j < |sh.slots| && got != Some(j) ==> sh'.slots[j] == sh.slots[j])
      && (got.Some? ==> sh'.slots[got.value] == sh.slots[got.value].(pid := p))
  {
  }

  // ---- Reaping ----------------------------------------------------------------------------------

  predicate Orphan(s: Slot, alive: set<int>) { Active(s) && s.pid !in alive }

  /** Reaping frees exactly the slots of dead processes and leaves every other slot as it was. */
  lemma {:induction false} ReapExact(sh: Shared, alive: set<int>, n: nat)
    requires n <= |sh.slots|
    ensures var r := Reap(sh, alive, n);
      forall i :: 0 <= i < |sh.slots| ==>
        r.slots[i] == if i < n && Orphan(sh.slots[i], alive) then Released(sh.slots[i]) else sh.slots[i]
    decreases n
  {
    if n > 0 {
      ReapExact(sh, alive, n - 1);
    }
  }

  /** The number of orphans among the first `n` slots. */
  function Orphans(slots: seq<Slot>, alive: set<int>, n: nat): nat
    requires n <= |slots|
  {
    if n == 0 then 0 else Orphans(slots, alive, n - 1) + if Orphan(slots[n - 1], alive) then 1 else 0
  }

  /** Reaping logs one release per orphan, leaves no orphan behind, and so a second reaping does nothing. */
  lemma {:induction false} ReapTwice(sh: Shared, alive: set<int>)
    ensures var r := Reap(sh, alive, |sh.slots|);
      && |r.log| == |sh.log| + Orphans(sh.slots, alive, |sh.slots|)
      && Orphans(r.slots, alive, |r.slots|) == 0
      && Reap(r, alive, |r.slots|) == r
  {
    var r := Reap(sh, alive, |sh.slots|);
    ReapLog(sh, alive, |sh.slots|);
    ReapExact(sh, alive, |sh.slots|);
    NoOrphans(r, alive, |r.slots|);
  }

  lemma {:induction false} ReapLog(sh: Shared, alive: set<int>, n: nat)
    requires n <= |sh.slots|
    ensures |Reap(sh, alive, n).log| == |sh.log| + Orphans(sh.slots, alive, n)
    decreases n
  {
    if n > 0 {
      ReapLog(sh, alive, n - 1);
      ReapExact(sh, alive, n - 1);
    }
  }

  lemma {:induction false} NoOrphans(sh: Shared, alive: set<int>, n: nat)
    requires n <= |sh.slots| && forall i :: 0 <= i < n ==> !Orphan(sh.slots[i], alive)
    ensures Orphans(sh.slots, alive, n) == 0 && Reap(sh, alive, n) == sh
    decreases n
  {
    if n > 0 {
      NoOrphans(sh, alive, n - 1);
    }
  }

  // ---- One backend seen from outside ------------------------------------------------------------

  /** All that a history can change about backend `p`: is it alive, which flags are set, does a slot carry
      its pid, is its current query set. */
  datatype View = View(live: bool, initialized: bool, hooked: bool, slot: bool, desc: bool)

  function ViewOf(s: System, p: int): View {
    var slot := FindPid(s.sh.slots, p).Some?;
    if p in s.backends then
      var b := s.backends[p];
      View(true, b.initialized, b.hooked, slot, b.desc.Some?)
    else View(false, false, false, slot, false)
  }

  predicate Full(s: System) { FindPid(s.sh.slots, 0).None? }

  /** What an event does to the view of `p`; of all other backends only a full table matters. */
  function NextView(c: Settings, v: View, e: Event, p: int, full: bool): View {
    match e
    case ReapOrphans(others) => v.(slot := v.slot && (v.live || p in others))
    case Spawn(o, _) => if o == p && !v.live then View(true, false, false, v.slot, false) else v
    case Crash(o) => if o == p then View(false, false, false, v.slot, false) else v
    case Exit(o) => if o == p && v.live then View(false, false, false, v.slot && !v.hooked, false) else v
    case Abort(o) => if o == p && v.live && v.hooked then v.(slot := false, desc := false) else v
    case StartQuery(o, q, _, _, f) =>
      if o != p || !v.live || q.cost < c.minCost then v
      else
        var v1 := v.(initialized := true, hooked := v.hooked || !v.initialized);
        var got := v.slot || !full;
        if f.AtOnce? || (!f.NoFault? && got) then v1.(initialized := false, slot := false, desc := false)
        else if got then v1.(slot := true, desc := true)
        else v1
    case EndQuery(o, _, f) =>
      if o != p || !v.live || !v.initialized then v
      else if f.AtOnce? then v.(desc := false)
      else if !v.slot then v
      else if !f.NoFault? then v.(desc := false)
      else v.(slot := false, desc := false)
    case Signal(_, _) => v
  }

  lemma {:induction false} FreedView(slots: seq<Slot>, i: nat, s: Slot, p: int)
    requires Unique(slots) && i < |slots| && p != 0 && s.pid == 0
    ensures FindPid(slots[i := s], p).Some? <==> FindPid(slots, p).Some? && slots[i].pid != p
  {
    if slots[i].pid != p {
      FindPidKept(slots, i, s, p);
    } else {
      assert forall j :: 0 <= j < |slots| && j != i ==> slots[j].pid != p;
    }
  }

  lemma {:induction false} ReleaseView(sh: Shared, o: int, p: int)
    requires Unique(sh.slots) && p != 0 && o != 0
    ensures FindPid(ReleaseMine(sh, o).slots, p).Some? <==> FindPid(sh.slots, p).Some? && o != p
  {
    var own := FindPid(sh.slots, o);
    if own.Some? {
      FreedView(sh.slots, own.value, Released(sh.slots[own.value]), p);
    }
  }

  lemma {:induction false} StoredView(sh: Shared, i: nat, ws: seq<Write>, p: int)
    requires i < |sh.slots|
    ensures FindPid(Stored(sh, i, ws).slots, p) == FindPid(sh.slots, p)
    ensures Unique(sh.slots) ==> Unique(Stored(sh, i, ws).slots)
  {
    FindPidKept(sh.slots, i, Stored(sh, i, ws).slots[i], p);
  }

  lemma {:induction false} ClaimView(sh: Shared, o: int, p: int)
    requires Unique(sh.slots) && p != 0 && o != 0
    ensures var (sh1, got) := Claim(sh, o, true);
      && Unique(sh1.slots)
      && (got.Some? <==> FindPid(sh.slots, o).Some? || FindPid(sh.slots, 0).Some?)
      && (FindPid(sh1.slots, p).Some? <==> if o == p then got.Some? else FindPid(sh.slots, p).Some?)
  {
    var own, free := FindPid(sh.slots, o), FindPid(sh.slots, 0);
    if own.None? && free.Some? {
      var i := free.value;
      if o != p {
        FindPidKept(sh.slots, i, sh.slots[i].(pid := o), p);
      } else {
        assert sh.slots[i := sh.slots[i].(pid := o)][i].pid == o;
      }
    }
  }

  lemma {:induction false} ReapView(sh: Shared, alive: set<int>, p: int)
    requires Unique(sh.slots) && p != 0
    ensures FindPid(Reap(sh, alive, |sh.slots|).slots, p).Some? <==> FindPid(sh.slots, p).Some? && p in alive
  {
    var r := Reap(sh, alive, |sh.slots|);
    ReapExact(sh, alive, |sh.slots|);
    var a := FindPid(sh.slots, p);
    if a.Some? && p in alive {
      assert r.slots[a.value].pid == p;
    }
    var b := FindPid(r.slots, p);
    if b.Some? {
      assert sh.slots[b.value].pid == p;
    }
  }

  lemma {:induction false} SameHeadPids(slots: seq<Slot>, i: nat, s: Slot, p: int)
    requires i < |slots| && s.pid == slots[i].pid && Unique(slots)
    ensures Unique(slots[i := s]) && FindPid(slots[i := s], p) == FindPid(slots, p)
  {
    FindPidKept(slots, i, s, p);
  }

  lemma {:induction false} TryView(c: Settings, sh: Shared, o: int, b: Backend, q: QueryDesc, ws: seq<Write>,
                                   count: nat, f: Fault, p: int)
    requires Unique(sh.slots) && p != 0 && o != 0
    ensures var (sh', b', failed) := TryStart(c, sh, o, b, q, ws, count, f);
      var got := !f.AtOnce? && (FindPid(sh.slots, o).Some? || FindPid(sh.slots, 0).Some?);
      && Unique(sh'.slots)
      && failed == (f.AtOnce? || (!f.NoFault? && got))
      && b' == b.(desc := if f.NoFault? && got then Some(q) else b.desc)
      && (FindPid(sh'.slots, p).Some? <==> if o == p && got then true else FindPid(sh.slots, p).Some?)
  {
    ClaimView(sh, o, p);
    var (sh1, got) := Claim(sh, o, true);
    if got.Some? {
      SameHeadPids(sh1.slots, got.value, Begun(sh1.slots[got.value], q, ws, count, c.textLen, f), p);
    }
  }

  lemma {:induction false} StartView(c: Settings, s: System, e: Event, p: int)
    requires TableOk(s.sh) && p != 0 && e.StartQuery? && e.p != 0 && e.p in s.backends
    ensures ViewOf(Apply(c, s, e), p) == NextView(c, ViewOf(s, p), e, p, Full(s))
  {
    if e.q.cost >= c.minCost {
      var b := Initialized(s.backends[e.p]);
      TryView(c, s.sh, e.p, b, e.q, e.ws, e.count, e.f, p);
      ReleaseView(TryStart(c, s.sh, e.p, b, e.q, e.ws, e.count, e.f).0, e.p, p);
    }
  }

  lemma {:induction false} EndView(c: Settings, s: System, e: Event, p: int)
    requires TableOk(s.sh) && p != 0 && e.EndQuery? && e.p != 0 && e.p in s.backends
    ensures ViewOf(Apply(c, s, e), p) == NextView(c, ViewOf(s, p), e, p, Full(s))
  {
    EndKeepsPids(s.sh, e.p, s.backends[e.p], e.ws, e.f, p);
  }

  /** Which pids an end hook leaves with a slot. */
  lemma {:induction false} EndKeepsPids(sh: Shared, o: int, b: Backend, ws: seq<Write>, f: Fault, p: int)
    requires Unique(sh.slots) && p != 0 && o != 0
    ensures FindPid(EndHook(sh, o, b, ws, f).0.slots, p).Some?
        <==> FindPid(sh.slots, p).Some? && !(o == p && b.initialized && f.NoFault?)
  {
    var own := FindPid(sh.slots, o);
    if own.Some? {
      var i := own.value;
      StoredView(sh, i, ws, p);
      FreedView(Stored(sh, i, ws).slots, i, Released(Stored(sh, i, ws).slots[i]), p);
      StoredView(sh, i, Reached(ws, f), p);
    }
  }

  lemma {:induction false} SignalView(c: Settings, s: System, e: Event, p: int)
    requires TableOk(s.sh) && p != 0 && e.Signal? && e.p in s.backends
    ensures ViewOf(Apply(c, s, e), p) == ViewOf(s, p)
  {
    var own := FindPid(s.sh.slots, e.p);
    if own.Some? {
      var i := own.value;
      var t := Stored(s.sh, i, e.ws).slots[i];
      FindPidKept(s.sh.slots, i, t.(generation := Inc32(t.generation)), p);
    }
  }

  /** The table with all its backends refines, for each single pid, a machine of five bits. */
  lemma {:induction false} ViewStep(c: Settings, s: System, e: Event, p: int)
    requires TableOk(s.sh) && 0 !in s.backends && p != 0
    ensures ViewOf(Apply(c, s, e), p) == NextView(c, ViewOf(s, p), e, p, Full(s))
  {
    match e
    case StartQuery(o, _, _, _, _) => if o in s.backends { StartView(c, s, e, p); }
    case EndQuery(o, _, _) => if o in s.backends { EndView(c, s, e, p); }
    case Signal(o, _) => if o in s.backends { SignalView(c, s, e, p); }
    case Exit(o) => if o in s.backends { ReleaseView(s.sh, o, p); }
    case Abort(o) => if o in s.backends { ReleaseView(s.sh, o, p); }
    case ReapOrphans(others) => ReapView(s.sh, s.backends.Keys + others, p);
    case _ =>
  }

  /** The last event of a history. */
  lemma {:induction false} ViewLast(c: Settings, n: nat, max: nat, tr: seq<Event>, p: int)
    requires p != 0 && tr != []
    ensures var past := tr[..|tr| - 1];
      ViewOf(Run(c, n, max, tr), p)
      == NextView(c, ViewOf(Run(c, n, max, past), p), tr[|tr| - 1], p, Full(Run(c, n, max, past)))
  {
    var past := tr[..|tr| - 1];
    HistoryBalanced(c, n, max, past);
    ViewStep(c, Run(c, n, max, past), tr[|tr| - 1], p);
  }

  lemma {:induction false} ViewAfter(c: Settings, n: nat, max: nat, past: seq<Event>, e: Event, p: int)
    requires p != 0
    ensures ViewOf(Run(c, n, max, past + [e]), p)
         == NextView(c, ViewOf(Run(c, n, max, past), p), e, p, Full(Run(c, n, max, past)))
  {
    assert (past + [e])[..|past|] == past;
    ViewLast(c, n, max, past + [e], p);
  }

  // ---- What the history says --------------------------------------------------------------------

  /** A tracked start of `p` has succeeded since its last end, abort, exit or failed start. */
  function TrackedSince(c: Settings, n: nat, max: nat, tr: seq<Event>, p: int): bool
    decreases |tr|
  {
    if tr == [] then false
    else
      var past := tr[..|tr| - 1];
      var before := TrackedSince(c, n, max, past, p);
      match tr[|tr| - 1]
      case StartQuery(o, q, _, _, f) =>
        if o != p || q.cost < c.minCost || p !in Run(c, n, max, past).backends then before
        else f.NoFault? && (before || !Full(Run(c, n, max, past)))
      case EndQuery(o, _, _) => before && o != p
      case Abort(o) => before && o != p
      case Exit(o) => before && o != p
      case _ => before
  }

  /** Backend `p` never crashes and the final refresh of its queries raises no error. */
  predicate Undisturbed(tr: seq<Event>, p: int) {
    forall i :: 0 <= i < |tr| ==> tr[i] != Crash(p) && (tr[i].EndQuery? && tr[i].p == p ==> tr[i].f.NoFault?)
  }

  /** Ownership: at every hook boundary of every such history, with any nesting of queries and any
      behaviour of the others, a backend holds a slot iff its current query is set, iff a tracked start
      has succeeded since its last end, abort, exit or failed start. */
  lemma {:induction false} OwnershipByHistory(c: Settings, n: nat, max: nat, tr: seq<Event>, p: int)
    requires p != 0 && Undisturbed(tr, p)
    ensures var v := ViewOf(Run(c, n, max, tr), p);
      && v.slot == v.desc == TrackedSince(c, n, max, tr, p)
      && (v.slot ==> v.live && v.initialized && v.hooked)
      && (v.initialized ==> v.hooked)
    decreases |tr|
  {
    if tr == [] {
      assert forall i :: 0 <= i < n ==> BlankTable(n, max)[i].pid == 0;
    } else {
      var past, e := tr[..|tr| - 1], tr[|tr| - 1];
      assert e != Crash(p);
      OwnershipByHistory(c, n, max, past, p);
      ViewLast(c, n, max, tr, p);
    }
  }

  /** A current query is set only while the slot is held. */
  predicate Consistent(v: View) { (v.desc ==> v.live && v.slot && v.initialized) && (v.initialized ==> v.hooked) }

  lemma {:induction false} NextConsistent(c: Settings, v: View, e: Event, p: int, full: bool)
    requires Consistent(v)
    ensures Consistent(NextView(c, v, e, p, full))
  {
  }

  /** For all histories, crashes and errors included, a current query is set only while the slot is held. */
  lemma {:induction false} QueryImpliesSlot(c: Settings, n: nat, max: nat, tr: seq<Event>, p: int)
    requires p != 0
    ensures Consistent(ViewOf(Run(c, n, max, tr), p))
    decreases |tr|
  {
    if tr != [] {
      var past, e := tr[..|tr| - 1], tr[|tr| - 1];
      QueryImpliesSlot(c, n, max, past, p);
      ViewLast(c, n, max, tr, p);
      NextConsistent(c, ViewOf(Run(c, n, max, past), p), e, p, Full(Run(c, n, max, past)));
    }
  }

  /** For all histories, crashes and errors included, the current query of `p` is set iff a tracked start
      has succeeded since its last end, abort, exit, crash or failed start. */
  lemma {:induction false} QueryByHistory(c: Settings, n: nat, max: nat, tr: seq<Event>, p: int)
    requires p != 0
    ensures ViewOf(Run(c, n, max, tr), p).desc == PublishedSince(c, n, max, tr, p)
    decreases |tr|
  {
    if tr != [] {
      var past, e := tr[..|tr| - 1], tr[|tr| - 1];
      QueryByHistory(c, n, max, past, p);
      QueryImpliesSlot(c, n, max, past, p);
      ViewLast(c, n, max, tr, p);
    }
  }

  function PublishedSince(c: Settings, n: nat, max: nat, tr: seq<Event>, p: int): bool
    decreases |tr|
  {
    if tr == [] then false
    else
      var past := tr[..|tr| - 1];
      var before := PublishedSince(c, n, max, past, p);
      match tr[|tr| - 1]
      case StartQuery(o, q, _, _, f) =>
        var s := Run(c, n, max, past);
        if o != p || q.cost < c.minCost || p !in s.backends then before
        else f.NoFault? && (FindPid(s.sh.slots, p).Some? || !Full(s))
      case EndQuery(o, _, _) => before && o != p
      case Abort(o) => before && o != p
      case Exit(o) => before && o != p
      case Crash(o) => before && o != p
      case _ => before
  }

  /** The converse of holding a query only with a slot fails in two ways: of all events that find slot and
      query in agreement, exactly an error in the final refresh and a crash, while the slot is held, leave
      a slot without a query. */
  lemma {:induction false} LeakIff(c: Settings, n: nat, max: nat, tr: seq<Event>, e: Event, p: int)
    requires p != 0
    requires var v := ViewOf(Run(c, n, max, tr), p); v.slot == v.desc
    ensures var v, v' := ViewOf(Run(c, n, max, tr), p), ViewOf(Run(c, n, max, tr + [e]), p);
      v'.slot != v'.desc <==> v.slot && (e == Crash(p) || (e.EndQuery? && e.p == p && !e.f.NoFault?))
  {
    QueryImpliesSlot(c, n, max, tr, p);
    ViewAfter(c, n, max, tr, e, p);
  }

  /** And a slot without a query stays so exactly until its process starts a tracked query, ends one without
      an error, aborts or exits, or, the process being dead, its pid is reaped. */
  lemma {:induction false} LeakEndsIff(c: Settings, n: nat, max: nat, tr: seq<Event>, e: Event, p: int)
    requires p != 0
    requires var v := ViewOf(Run(c, n, max, tr), p); v.slot && !v.desc
    ensures var v, v' := ViewOf(Run(c, n, max, tr), p), ViewOf(Run(c, n, max, tr + [e]), p);
      v'.slot == v'.desc <==>
        || (v.live && e.StartQuery? && e.p == p && e.q.cost >= c.minCost)
        || (v.live && v.initialized && e.EndQuery? && e.p == p && e.f.NoFault?)
        || (v.live && v.hooked && (e == Abort(p) || e == Exit(p)))
        || (!v.live && e.ReapOrphans? && p !in e.others)
  {
    QueryImpliesSlot(c, n, max, tr, p);
    ViewAfter(c, n, max, tr, e, p);
  }

  /** In a table of any size, and whatever plan was recorded, such a leak happens: a tracked query ends and its
      final refresh raises an error behind `k` stores. */
  lemma {:induction false} LeakHappens(
      c: Settings, p: int, q: QueryDesc, ws: seq<Write>, count: nat, last: seq<Write>, k: nat,
                                       n: nat, max: nat)
    requires p != 0 && q.cost >= c.minCost && n > 0
    ensures var tr := [Spawn(p, true), StartQuery(p, q, ws, count, NoFault), EndQuery(p, last, AfterStores(k))];
      var v := ViewOf(Run(c, n, max, tr), p); v.live && v.slot && !v.desc
  {
    var t2 := [Spawn(p, true), StartQuery(p, q, ws, count, NoFault)];
    var tr := [Spawn(p, true), StartQuery(p, q, ws, count, NoFault), EndQuery(p, last, AfterStores(k))];
    StartedAlone(c, p, q, ws, count, n, max);
    assert tr[..2] == t2;
    HistoryBalanced(c, n, max, t2);
    ViewStep(c, Run(c, n, max, t2), tr[2], p);
  }

  /** The end of any query, tracked or not, untracks the backend, also when another query is the published one. */
  lemma {:induction false} InnerEndUntracksOuter(c: Settings, n: nat, max: nat, tr: seq<Event>, p: int, ws: seq<Write>)
    requires p != 0 && ViewOf(Run(c, n, max, tr), p).desc
    ensures var v := ViewOf(Run(c, n, max, tr + [EndQuery(p, ws, NoFault)]), p); v.live && !v.slot && !v.desc
  {
    var e := EndQuery(p, ws, NoFault);
    QueryImpliesSlot(c, n, max, tr, p);
    ViewAfter(c, n, max, tr, e, p);
  }

  /** Nested histories, in a table of any size: a tracked query calls one that is too cheap to be tracked, and
      when the inner one has ended the outer one, which has not, is published no longer and has lost its slot. */
  lemma {:induction false} NestedHistory(c: Settings, p: int, outer: QueryDesc, ws: seq<Write>, count: nat,
                                         inner: QueryDesc, last: seq<Write>, n: nat, max: nat)
    requires p != 0 && inner.cost < c.minCost <= outer.cost && n > 0
    ensures var tr := [Spawn(p, true), StartQuery(p, outer, ws, count, NoFault), StartQuery(p, inner, [], 0, NoFault)];
      && p in Run(c, n, max, tr).backends && Run(c, n, max, tr).backends[p].desc == Some(outer)
      && var v := ViewOf(Run(c, n, max, tr + [EndQuery(p, last, NoFault)]), p); v.live && !v.slot && !v.desc
  {
    var t2 := [Spawn(p, true), StartQuery(p, outer, ws, count, NoFault)];
    var tr := [Spawn(p, true), StartQuery(p, outer, ws, count, NoFault), StartQuery(p, inner, [], 0, NoFault)];
    StartedAlone(c, p, outer, ws, count, n, max);
    assert tr[..2] == t2 && tr[2] == StartQuery(p, inner, [], 0, NoFault);
    assert Run(c, n, max, tr) == Apply(c, Run(c, n, max, t2), tr[2]);
    InnerEndUntracksOuter(c, n, max, tr, p, last);
  }

  /** The only backend starts a tracked query. */
  lemma {:induction false} StartedAlone(c: Settings, p: int, q: QueryDesc, ws: seq<Write>, count: nat, n: nat, max: nat)
    requires p != 0 && q.cost >= c.minCost && n > 0
    ensures var s := Run(c, n, max, [Spawn(p, true), StartQuery(p, q, ws, count, NoFault)]);
      p in s.backends && s.backends[p].desc == Some(q) && ViewOf(s, p).live && ViewOf(s, p).initialized
      && ViewOf(s, p).hooked && ViewOf(s, p).slot && ViewOf(s, p).desc
  {
    var t1 := [Spawn(p, true)];
    var t2 := [Spawn(p, true), StartQuery(p, q, ws, count, NoFault)];
    assert t1[..0] == [] && t2[..1] == t1;
    var s0 := Run(c, n, max, []);
    assert s0.sh.slots[0].pid == 0;
    var s1 := Apply(c, s0, t1[0]);
    assert Run(c, n, max, t1) == s1;
    HistoryBalanced(c, n, max, t1);
    ViewStep(c, s1, t2[1], p);
  }
}
