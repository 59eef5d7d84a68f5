/** The current query of a backend in the machine of single accesses, in which nothing serialises claims: when an
    end hook leaves the pointer set, exactly when the pointer dangles, and what exclusive sections change. */
module Publication {
  import opened Basics
  import opened Plans
  import opened NodeWrites
  import opened Slots
  import opened Interleaving
  import opened ClaimSafety

  // ---- The private side of a backend -------------------------------------------------------------

  /** `current` is CURRENT_QUERY_DESC, `alive` the queries whose descriptors exist, `hook` the query for which a
      hook is running, `hooked` that the callbacks are registered, `leaving` that the exit callback has run. */
  datatype Private = Private(
    current: Option<nat>, alive: set<nat>, hook: Option<nat>, initialized: bool, hooked: bool, leaving: bool)

  const FRESH := Private(None, {}, None, false, false, false)

  datatype World = World(table: Table, backends: map<int, Private>)

  /** A step of the table by which no query starts or ends, or an event in the life of queries. */
  datatype Act =
    | Access(s: Step)
    | Start(p: int, q: nat, plan: Option<(Heap, Ref)>)   // None if the query is too cheap to be tracked
    | End(p: int, q: nat, ws: seq<Write>)
    | Abort(p: int) | SubAbort(p: int, gone: set<nat>) | Exit(p: int)

  /** The process runs, and neither a hook nor its handler does. */
  predicate Calm(w: World, p: int) {
    p in w.backends && p in w.table.procs && p !in w.table.handlers && w.table.procs[p] == Idle
  }

  predicate Can(w: World, a: Act, max: nat) {
    match a
    case Access(s) => !s.Begin? && !s.Leave? && Enabled(w.table, s, max)
    case Start(p, q, plan) =>
      && Calm(w, p) && !w.backends[p].leaving
      && q !in w.backends[p].alive && w.backends[p].current != Some(q)
      && (plan.Some? ==> JobOk(Track(plan.value.0, plan.value.1), max))
    case End(p, q, ws) => Calm(w, p) && !w.backends[p].leaving && q in w.backends[p].alive && CountersOnly(ws)
    case Abort(p) => Calm(w, p)
    case SubAbort(p, gone) => Calm(w, p) && !w.backends[p].leaving && gone <= w.backends[p].alive
    case Exit(p) => Calm(w, p)
  }

  /** What the table sees of an act. */
  function TableStep(w: World, a: Act): Option<Step>
    requires !a.Access? ==> a.p in w.backends
  {
    match a
    case Access(s) => Some(s)
    case Start(p, _, plan) => if plan.Some? then Some(Begin(p, Track(plan.value.0, plan.value.1))) else None
    case End(p, _, ws) => if w.backends[p].initialized then Some(Begin(p, Finish(ws))) else None
    case Abort(p) => if w.backends[p].hooked then Some(Leave(p)) else None
    case SubAbort(_, _) => None
    case Exit(p) => if w.backends[p].hooked then Some(Leave(p)) else None
  }

  /** The end hook has returned, and the executor frees its query. */
  function Ended(b: Private): Private {
    if b.hook.Some? then b.(alive := b.alive - {b.hook.value}, hook := None) else b
  }

  /** The private effect of a hook's move from `pc` to `pc'`. An end hook that has found no slot leaves the
      current query as it is. */
  function Moved(b: Private, pc: Pc, pc': Pc): Private {
    if pc.Publishing? then b.(current := b.hook, hook := None)
    else if !pc'.Idle? then b
    else
      match pc
      case Scanning(job, _, _) => if job.Track? then b.(hook := None) else Ended(b)
      case Checking(_, _) => Ended(b.(current := None))
      case Ageing(_) => if b.hook.Some? then Ended(b.(current := None)) else b
      case _ => b
  }

  /** The catch blocks. */
  function Raised(b: Private, pc: Pc): Private
    requires Guarded(pc)
  {
    if Caught(pc).Idle? then Ended(b.(current := None)) else b.(current := None, hook := None, initialized := false)
  }

  function Update(w: World, t: Table, p: int, b: Private): World { World(t, w.backends[p := b]) }

  ghost function TableAfter(w: World, a: Act, max: nat): Table
    requires PcsOk(w.table, max) && Can(w, a, max)
  {
    if TableStep(w, a).Some? then Next(w.table, TableStep(w, a).value, max) else w.table
  }

  ghost predicate Ready(w: World, max: nat) { PcsOk(w.table, max) && w.backends.Keys == w.table.procs.Keys }

  ghost function Go(w: World, a: Act, max: nat): World
    requires Ready(w, max) && Can(w, a, max)
  {
    var t := TableAfter(w, a, max);
    match a
    case Access(s) =>
      (match s
       case Spawn(p) => Update(w, t, p, FRESH)
       case Die(p) => World(t, w.backends - {p})
       case Move(p) => Update(w, t, p, Moved(w.backends[p], w.table.procs[p], t.procs[p]))
       case Raise(p) => Update(w, t, p, Raised(w.backends[p], w.table.procs[p]))
       case _ => World(t, w.backends))
    case Start(p, q, plan) =>
      var b := w.backends[p].(alive := w.backends[p].alive + {q});
      Update(w, t, p, if plan.Some? then b.(hook := Some(q), initialized := true, hooked := true) else b)
    case End(p, q, _) =>
      var b := w.backends[p].(hook := Some(q));
      Update(w, t, p, if b.initialized then b else Ended(b))
    // the callback clears the pointer before the server frees the queries
    case Abort(p) =>
      var b := w.backends[p].(alive := {});
      Update(w, t, p, if b.hooked then b.(current := None) else b)
    case SubAbort(p, gone) => Update(w, t, p, w.backends[p].(alive := w.backends[p].alive - gone))
    case Exit(p) => Update(w, t, p, w.backends[p].(initialized := false, leaving := true))
  }

  /** Nothing is kept from happening: whatever the table allows to a process, a handler or the reaper, and between
      hooks a query of the process can start, end, or be aborted. */
  lemma {:induction false} NoActExcluded(w: World, s: Step, max: nat, p: int, q: nat, plan: (Heap, Ref), gone: set<nat>)
    ensures Enabled(w.table, s, max) && !s.Begin? && !s.Leave? ==> Can(w, Access(s), max)
    ensures Calm(w, p) && !w.backends[p].leaving ==>
      var b := w.backends[p];
      && Can(w, Abort(p), max) && Can(w, Exit(p), max)
      && (q !in b.alive && b.current != Some(q) ==> Can(w, Start(p, q, None), max))
      && (q !in b.alive && b.current != Some(q) && Closed(plan.0) && RefsIn(plan.0, [plan.1]) && max < 0x8000_0000 ==>
            Can(w, Start(p, q, Some(plan)), max))
      && (q in b.alive ==> Can(w, End(p, q, []), max))
      && (gone <= b.alive ==> Can(w, SubAbort(p, gone), max))
  {
  }

  // ---- Losing a slot ------------------------------------------------------------------------------

  /** The slot whose pid the next move of a hook overwrites. */
  function PidTarget(pc: Pc): Option<nat> {
    match pc case Claiming(_, slot) => Some(slot) case Zeroing(slot) => Some(slot) case _ => None
  }

  /** The step is a store of another process, or of the reaper, over the pid `p`. */
  predicate Robs(w: Table, s: Step, p: int) {
    match s
    case Move(o) => o != p && o in w.procs && PidTarget(w.procs[o]).Some? && Labels(w, PidTarget(w.procs[o]).value, p)
    case ReaperMove => w.reaper.Sentenced? && Labels(w, w.reaper.slot, p)
    case _ => false
  }

  predicate Labels(w: Table, i: nat, p: int) { i < |w.slots| && w.slots[i].pid == p }

  predicate NextRobbed(w: World, a: Act, p: int, before: bool)
    requires !a.Access? ==> a.p in w.backends
  {
    match TableStep(w, a)
    case None => before
    case Some(s) =>
      if s == Spawn(p) then false
      else if Robs(w.table, s, p) then true
      else if s == Move(p) && p in w.table.procs && w.table.procs[p].Claiming? then false
      else before
  }

  // ---- What every step keeps ----------------------------------------------------------------------

  predicate Starting(pc: Pc) {
    match pc
    case Scanning(job, _, _) => job.Track?
    case Claiming(_, _) => true
    case Storing(_, _, _, ending) => ending.Publish?
    case Counting(_, _) => true
    case Publishing(_) => true
    case _ => false
  }

  predicate Finishing(pc: Pc) {
    match pc
    case Scanning(job, _, _) => job.Finish?
    case Checking(_, _) => true
    case Storing(_, _, _, ending) => ending.Release?
    case _ => false
  }

  predicate Releasing(pc: Pc) { pc.Zeroing? || pc.Ageing? }

  predicate HookOk(pc: Pc, b: Private) {
    && (Starting(pc) || Finishing(pc) ==> b.hook.Some? && b.initialized)
    && (b.hook.Some? ==> b.hook.value in b.alive && !b.leaving && b.initialized)
    && (pc.Idle? || pc.Searching? ==> b.hook.None?)
    && (pc.Searching? || (Releasing(pc) && b.hook.None?) ==> b.current.None? || b.leaving)
    && (!b.initialized ==> b.current.None? || b.leaving)
    && (b.initialized ==> b.hooked)
    && (!b.hooked ==> b.current.None?)
    && (pc.Claiming? ==> pc.job.Track?)
  }

  /** The process has stored its pid for a query that is published or about to be, and has not freed the slot. */
  predicate Holding(pc: Pc, b: Private) {
    || (b.current.Some? && !b.leaving && !pc.Ageing?)
    || (Starting(pc) && !pc.Scanning? && !pc.Claiming?)
  }

  /** A process that holds a slot and has not been robbed of it finds it. */
  predicate Keeps(w: World, p: int, robbed: bool) {
    p in w.backends && p in w.table.procs && Holding(w.table.procs[p], w.backends[p]) && !robbed ==>
      FindPid(w.table.slots, p).Some?
  }

  predicate HookFits(w: World, p: int) {
    p in w.backends && p in w.table.procs ==> HookOk(w.table.procs[p], w.backends[p])
  }

  ghost predicate Inv(w: World, p: int, robbed: bool, max: nat) {
    && TableInv(w.table, max) && Ready(w, max)
    && HookFits(w, p) && Keeps(w, p, robbed)
    && (p in w.backends && robbed ==> FindPid(w.table.slots, p).None?)
  }

  /** The one pid that a step stores, and where. */
  function PidStore(w: Table, s: Step): Option<(nat, int)> {
    match s
    case Move(o) =>
      if o in w.procs && w.procs[o].Claiming? then Some((w.procs[o].target, o))
      else if o in w.procs && w.procs[o].Zeroing? then Some((w.procs[o].slot, 0))
      else None
    case ReaperMove => if w.reaper.Sentenced? then Some((w.reaper.slot, 0)) else None
    case _ => None
  }

  lemma {:induction false} PidsAre(w: Table, s: Step, max: nat)
    requires PcsOk(w, max) && Enabled(w, s, max)
    ensures var w' := Next(w, s, max);
      |w'.slots| == |w.slots|
      && forall i :: 0 <= i < |w.slots| ==>
           w'.slots[i].pid
             == if PidStore(w, s).Some? && PidStore(w, s).value.0 == i then PidStore(w, s).value.1 else w.slots[i].pid
  {
    match s
    case Move(_) =>
    case Handle(_) =>
    case ReaperMove =>
    case _ =>
  }

  lemma {:induction false} Found(slots: seq<Slot>, p: int)
    ensures FindPid(slots, p).Some? <==> exists i :: 0 <= i < |slots| && slots[i].pid == p
  {
  }

  /** Who labels a slot after a step: a process loses its slot to its own release or to a robbery, and gets one
      only by its own claim. */
  lemma {:induction false} SlotAfter(w: Table, s: Step, max: nat, p: int)
    requires TableInv(w, max) && PcsOk(w, max) && Enabled(w, s, max) && p != 0
    ensures var w' := Next(w, s, max);
      && (Robs(w, s, p) ==> FindPid(w'.slots, p).None?)
      && (s == Move(p) && w.procs[p].Claiming? ==> FindPid(w'.slots, p).Some?)
      && (!Robs(w, s, p) && !(s == Move(p) && (w.procs[p].Claiming? || w.procs[p].Zeroing?)) ==>
            (FindPid(w'.slots, p).Some? <==> FindPid(w.slots, p).Some?))
      && (FindPid(w.slots, p).None? && !(s == Move(p) && w.procs[p].Claiming?) ==> FindPid(w'.slots, p).None?)
  {
    var w' := Next(w, s, max);
    PidsAre(w, s, max);
    Found(w.slots, p);
    Found(w'.slots, p);
    if s == Move(p) && w.procs[p].Claiming? {
      assert PcShapes(w.procs[p], w.slots, max);
      assert w'.slots[w.procs[p].target].pid == p;
    }
    if FindPid(w.slots, p).Some? {
      var i := FindPid(w.slots, p).value;
      assert w'.slots[i].pid == p || (PidStore(w, s).Some? && PidStore(w, s).value.0 == i);
    }
  }

  /** The act changes what process `p` is about to do, or its private state. */
  predicate By(a: Act, p: int) {
    match a
    case Access(s) =>
      (match s
       case Spawn(o) => o == p
       case Die(o) => o == p
       case Move(o) => o == p
       case Raise(o) => o == p
       case _ => false)
    case _ => a.p == p
  }

  lemma {:induction false} OthersStay(w: World, a: Act, max: nat, p: int)
    requires Ready(w, max) && Can(w, a, max) && !By(a, p)
    ensures var w' := Go(w, a, max);
      && (p in w'.backends <==> p in w.backends) && (p in w'.table.procs <==> p in w.table.procs)
      && (p in w.backends ==> w'.backends[p] == w.backends[p] && w'.table.procs[p] == w.table.procs[p])
  {
    if a.Access? {
      match a.s
      case Handle(_) =>
      case ReaperMove =>
      case _ =>
    }
  }

  lemma {:induction false} StaysReady(w: World, a: Act, max: nat)
    requires TableInv(w.table, max) && Ready(w, max) && Can(w, a, max)
    ensures TableInv(Go(w, a, max).table, max) && Ready(Go(w, a, max), max)
  {
    if TableStep(w, a).Some? {
      PidsStep(w.table, TableStep(w, a).value, max);
      TopologyStep(w.table, TableStep(w, a).value, max);
    }
    var w' := Go(w, a, max);
    forall p ensures p in w'.backends <==> p in w'.table.procs {
      if !By(a, p) {
        OthersStay(w, a, max, p);
      }
    }
    assert w'.backends.Keys == w'.table.procs.Keys;
  }

  lemma {:induction false} MoveHook(w: World, p: int, max: nat)
    requires TableInv(w.table, max) && Ready(w, max) && Can(w, Access(Move(p)), max)
    requires HookFits(w, p)
    ensures HookFits(Go(w, Access(Move(p)), max), p)
  {
    match w.table.procs[p]
    case Scanning(job, next, free) =>
      if next < |w.table.slots| {
        assert job.Track? || job.Finish?;
      }
    case Claiming(_, _) =>
    case Storing(_, _, _, _) =>
    case _ =>
  }

  lemma {:induction false} HookStep(w: World, a: Act, max: nat, p: int)
    requires TableInv(w.table, max) && Ready(w, max) && Can(w, a, max)
    requires HookFits(w, p)
    ensures HookFits(Go(w, a, max), p)
  {
    if !By(a, p) {
      OthersStay(w, a, max, p);
    } else if a == Access(Move(p)) {
      MoveHook(w, p, max);
    } else {
      match a
      case Access(s) => match s { case Spawn(_) => case Die(_) => case Raise(_) => }
      case Start(_, _, _) =>
      case End(_, _, _) =>
      case Abort(_) =>
      case SubAbort(_, _) =>
      case Exit(_) =>
    }
  }

  /** A fruitless scan has seen all slots, none of which carried its process' pid when it was read. */
  lemma {:induction false} ScannedNone(w: Table, p: int, max: nat)
    requires TableInv(w, max) && p in w.procs && w.procs[p].Scanning? && w.procs[p].next >= |w.slots|
    ensures FindPid(w.slots, p).None?
  {
    assert SeenNone(w.slots, p, w.procs[p]);
    Found(w.slots, p);
  }

  lemma {:induction false} ScanHolds(w: World, p: int, robbed: bool, max: nat)
    requires Inv(w, p, robbed, max) && p in w.backends && Can(w, Access(Move(p)), max)
    requires w.table.procs[p].Scanning?
    ensures Keeps(Go(w, Access(Move(p)), max), p, NextRobbed(w, Access(Move(p)), p, robbed))
  {
    SlotAfter(w.table, Move(p), max, p);
    if w.table.procs[p].next < |w.table.slots| {
      Found(w.table.slots, p);
    } else {
      ScannedNone(w.table, p, max);
    }
  }

  lemma {:induction false} MoveHolds(w: World, p: int, robbed: bool, max: nat)
    requires Inv(w, p, robbed, max) && p in w.backends && Can(w, Access(Move(p)), max)
    ensures Keeps(Go(w, Access(Move(p)), max), p, NextRobbed(w, Access(Move(p)), p, robbed))
  {
    match w.table.procs[p]
    case Scanning(_, _, _) => ScanHolds(w, p, robbed, max);
    case _ => SlotAfter(w.table, Move(p), max, p);
  }

  lemma {:induction false} HoldsStep(w: World, a: Act, p: int, robbed: bool, max: nat)
    requires Inv(w, p, robbed, max) && Can(w, a, max)
    ensures Keeps(Go(w, a, max), p, NextRobbed(w, a, p, robbed))
  {
    if TableStep(w, a).Some? && p in w.backends {
      SlotAfter(w.table, TableStep(w, a).value, max, p);
    }
    if !By(a, p) {
      OthersStay(w, a, max, p);
    } else if a == Access(Move(p)) {
      MoveHolds(w, p, robbed, max);
    } else if a.Access? {
      match a.s { case Spawn(_) => case Die(_) => case Raise(_) => }
    } else {
      QueryHolds(w, a, p, robbed, max);
    }
  }

  /** The events in the life of queries leave the slot alone. */
  lemma {:induction false} QueryHolds(w: World, a: Act, p: int, robbed: bool, max: nat)
    requires Inv(w, p, robbed, max) && Can(w, a, max) && !a.Access? && a.p == p
    ensures Keeps(Go(w, a, max), p, NextRobbed(w, a, p, robbed))
  {
    if TableStep(w, a).Some? {
      SlotAfter(w.table, TableStep(w, a).value, max, p);
    }
    match a
    case Start(_, _, _) =>
    case End(_, _, _) =>
    case Abort(_) =>
    case SubAbort(_, _) =>
    case Exit(_) =>
  }

  lemma {:induction false} InvStep(w: World, a: Act, p: int, robbed: bool, max: nat)
    requires Inv(w, p, robbed, max) && Can(w, a, max)
    ensures Inv(Go(w, a, max), p, NextRobbed(w, a, p, robbed), max)
  {
    StaysReady(w, a, max);
    HookStep(w, a, max, p);
    HoldsStep(w, a, p, robbed, max);
    if p in w.backends && TableStep(w, a).Some? {
      SlotAfter(w.table, TableStep(w, a).value, max, p);
    }
    if p !in w.backends && !By(a, p) {
      OthersStay(w, a, max, p);
    }
  }

  // ---- Whole runs ---------------------------------------------------------------------------------

  const NOBODY: map<int, Private> := map[]

  function Initial(n: nat, max: nat): World { World(Interleaving.Start(n, max), NOBODY) }

  ghost predicate IsTrace(run: seq<World>, acts: seq<Act>, n: nat, max: nat) {
    && |run| == |acts| + 1 && run[0] == Initial(n, max)
    && forall i :: 0 <= i < |acts| ==> Leads(run, acts, i, max)
  }

  ghost predicate Leads(run: seq<World>, acts: seq<Act>, i: nat, max: nat)
    requires i < |acts| && i + 1 < |run|
  {
    Ready(run[i], max) && Can(run[i], acts[i], max) && run[i + 1] == Go(run[i], acts[i], max)
  }

  /** After `k` acts: another process or the reaper has stored over the pid by which `p` held a slot, and `p`
      has claimed none since. */
  ghost predicate Robbed(run: seq<World>, acts: seq<Act>, p: int, k: nat)
    requires k <= |acts| < |run|
  {
    k > 0
    && (acts[k - 1].Access? || acts[k - 1].p in run[k - 1].backends)
    && NextRobbed(run[k - 1], acts[k - 1], p, Robbed(run, acts, p, k - 1))
  }

  lemma {:induction false} TraceInv(run: seq<World>, acts: seq<Act>, n: nat, max: nat, p: int, k: nat)
    requires IsTrace(run, acts, n, max) && k <= |acts|
    ensures Inv(run[k], p, Robbed(run, acts, p, k), max)
  {
    if k == 0 {
      RunInvariant([Interleaving.Start(n, max)], n, max, 0);
    } else {
      TraceInv(run, acts, n, max, p, k - 1);
      assert Leads(run, acts, k - 1, max);
      InvStep(run[k - 1], acts[k - 1], p, Robbed(run, acts, p, k - 1), max);
    }
  }

  /** While a query is published a backend finds its slot if and only if it has not been robbed of it. */
  lemma {:induction false} LostIffRobbed(run: seq<World>, acts: seq<Act>, n: nat, max: nat, p: int, k: nat)
    requires IsTrace(run, acts, n, max) && k <= |acts| && Calm(run[k], p)
    requires run[k].backends[p].current.Some? && !run[k].backends[p].leaving
    ensures FindPid(run[k].table.slots, p).None? <==> Robbed(run, acts, p, k)
  {
    TraceInv(run, acts, n, max, p, k);
  }

  // ---- When the pointer dangles -------------------------------------------------------------------

  predicate Dangles(w: World, p: int) {
    p in w.backends && w.backends[p].current.Some? && w.backends[p].current.value !in w.backends[p].alive
  }

  /** The end hook of the published query has looked at all slots and found none. */
  predicate GivesUp(w: World, p: int) {
    && p in w.backends && p in w.table.procs && w.table.procs[p].Scanning?
    && w.table.procs[p].job.Finish? && w.table.procs[p].next >= |w.table.slots|
    && w.backends[p].hook.Some? && w.backends[p].current == w.backends[p].hook
  }

  /** The next move of the process sets or clears the current query. */
  predicate StoresQuery(w: World, p: int) {
    && p in w.backends && p in w.table.procs
    && match w.table.procs[p]
       case Publishing(_) => true
       case Checking(slot, _) => SlotAt(w.table.slots, slot).pid == 0
       case Ageing(_) => w.backends[p].hook.Some?
       case _ => false
  }

  predicate NextAbandoned(w: World, a: Act, p: int, before: bool, robbed: bool) {
    match a
    case Access(s) =>
      if s == Move(p) then (before || (GivesUp(w, p) && robbed)) && !StoresQuery(w, p)
      else before && s != Spawn(p) && s != Raise(p)
    case Abort(o) => before && o != p
    case SubAbort(o, gone) =>
      before || (o == p && p in w.backends && w.backends[p].current.Some? && w.backends[p].current.value in gone)
    case _ => before
  }

  /** After `k` acts: the published query of `p` has been torn down by a subtransaction abort, or its end hook
      has looked for its slot in vain after a robbery, and the current query has not been stored to since. */
  ghost predicate Abandoned(run: seq<World>, acts: seq<Act>, p: int, k: nat)
    requires k <= |acts| < |run|
  {
    k > 0 && NextAbandoned(run[k - 1], acts[k - 1], p, Abandoned(run, acts, p, k - 1), Robbed(run, acts, p, k - 1))
  }

  lemma {:induction false} MoveDangles(w: World, p: int, before: bool, robbed: bool, max: nat)
    requires Inv(w, p, robbed, max) && Can(w, Access(Move(p)), max) && p in w.backends
    requires Dangles(w, p) <==> before
    ensures Dangles(Go(w, Access(Move(p)), max), p) <==> NextAbandoned(w, Access(Move(p)), p, before, robbed)
  {
    match w.table.procs[p]
    case Scanning(job, next, free) =>
      if next >= |w.table.slots| {
        ScannedNone(w.table, p, max);
      }
    case _ =>
  }

  lemma {:induction false} DanglesStep(w: World, a: Act, p: int, before: bool, robbed: bool, max: nat)
    requires Inv(w, p, robbed, max) && Can(w, a, max)
    requires p in w.backends ==> (Dangles(w, p) <==> before)
    requires p in Go(w, a, max).backends
    ensures Dangles(Go(w, a, max), p) <==> NextAbandoned(w, a, p, before, robbed)
  {
    if !By(a, p) {
      OthersStay(w, a, max, p);
    } else if a == Access(Move(p)) {
      MoveDangles(w, p, before, robbed, max);
    } else {
      match a
      case Access(s) => match s { case Spawn(_) => case Die(_) => case Raise(_) => }
      case Start(_, _, _) =>
      case End(_, _, _) =>
      case Abort(_) =>
      case SubAbort(_, _) =>
      case Exit(_) =>
    }
  }

  /** The current query of a process is one that is gone if and only if it has been abandoned so. */
  lemma {:induction false} DanglesIff(run: seq<World>, acts: seq<Act>, n: nat, max: nat, p: int, k: nat)
    requires IsTrace(run, acts, n, max) && k <= |acts| && p in run[k].backends
    ensures Dangles(run[k], p) <==> Abandoned(run, acts, p, k)
  {
    if k > 0 {
      assert Leads(run, acts, k - 1, max);
      TraceInv(run, acts, n, max, p, k - 1);
      if p in run[k - 1].backends {
        DanglesIff(run, acts, n, max, p, k - 1);
      }
      DanglesStep(run[k - 1], acts[k - 1], p, Abandoned(run, acts, p, k - 1), Robbed(run, acts, p, k - 1), max);
    }
  }

  // ---- The end hook -------------------------------------------------------------------------------

  /** From act `a` on, by which the executor ends query `q`, up to table `k` the end hook of `p` is running. */
  ghost predicate EndRuns(run: seq<World>, acts: seq<Act>, p: int, q: nat, a: nat, k: nat)
    requires k <= |acts| < |run|
  {
    && a < k && acts[a].End? && acts[a].p == p && acts[a].q == q
    && p in run[a].backends && run[a].backends[p].initialized
    && forall j :: a < j <= k ==> Busy(run[j], p)
  }

  predicate Busy(w: World, p: int) { p in w.backends && p in w.table.procs && !w.table.procs[p].Idle? }

  /** While it runs the end hook works for its query and leaves the current query alone; if the slot was gone
      when it began, it is still looking. */
  ghost predicate AtEnd(run: seq<World>, acts: seq<Act>, p: int, q: nat, a: nat, k: nat)
    requires a < k <= |acts| < |run| && p in run[a].backends && Busy(run[k], p)
  {
    var b, pc := run[k].backends[p], run[k].table.procs[p];
    && b.hook == Some(q) && b.current == run[a].backends[p].current && (Finishing(pc) || Releasing(pc))
    && (Robbed(run, acts, p, a) ==> Robbed(run, acts, p, k) && pc.Scanning?)
  }

  lemma {:induction false} EndMove(w: World, p: int, robbed: bool, max: nat)
    requires Inv(w, p, robbed, max) && Can(w, Access(Move(p)), max) && Busy(w, p) && w.backends[p].hook.Some?
    requires Finishing(w.table.procs[p]) || Releasing(w.table.procs[p])
    ensures var w', b := Go(w, Access(Move(p)), max), w.backends[p];
      && p in w'.backends && p in w'.table.procs
      && (!w'.table.procs[p].Idle? ==>
            && w'.backends[p] == b && (Finishing(w'.table.procs[p]) || Releasing(w'.table.procs[p]))
            && (robbed && w.table.procs[p].Scanning? ==>
                  NextRobbed(w, Access(Move(p)), p, robbed) && w'.table.procs[p].Scanning?))
      && (w'.table.procs[p].Idle? ==>
            if w.table.procs[p].Scanning? then w'.backends[p].current == b.current && FindPid(w.table.slots, p).None?
            else w'.backends[p].current == None)
  {
    match w.table.procs[p]
    case Scanning(job, next, free) =>
      if next >= |w.table.slots| {
        ScannedNone(w.table, p, max);
      } else {
        Found(w.table.slots, p);
      }
    case Checking(_, _) =>
    case Storing(_, _, _, _) =>
    case Zeroing(_) =>
    case Ageing(_) =>
  }

  lemma {:induction false} EndOther(w: World, a: Act, p: int, robbed: bool, max: nat)
    requires Inv(w, p, robbed, max) && Can(w, a, max) && Busy(w, p) && a != Access(Move(p)) && a != Access(Raise(p))
    requires p in Go(w, a, max).backends
    ensures var w' := Go(w, a, max);
      && p in w'.table.procs && w'.backends[p] == w.backends[p] && w'.table.procs[p] == w.table.procs[p]
      && (robbed ==> NextRobbed(w, a, p, robbed))
  {
    assert !By(a, p);
    OthersStay(w, a, max, p);
  }

  lemma {:induction false} EndRunning(run: seq<World>, acts: seq<Act>, n: nat, max: nat, p: int, q: nat, a: nat, k: nat)
    requires IsTrace(run, acts, n, max) && k <= |acts| && EndRuns(run, acts, p, q, a, k)
    ensures Busy(run[k], p) && AtEnd(run, acts, p, q, a, k)
  {
    var j, robbed := k - 1, Robbed(run, acts, p, k - 1);
    assert Leads(run, acts, j, max);
    TraceInv(run, acts, n, max, p, j);
    if j > a {
      EndRunning(run, acts, n, max, p, q, a, j);
      if acts[j] == Access(Move(p)) {
        EndMove(run[j], p, robbed, max);
      } else if acts[j] != Access(Raise(p)) {
        EndOther(run[j], acts[j], p, robbed, max);
      }
    }
  }

  /** An end hook that returns without an error has left the current query set if and only if it found no slot;
      it does so only if its process has been robbed by then, and always if it had been when the query ended. */
  lemma {:induction false} EndHookIff(run: seq<World>, acts: seq<Act>, n: nat, max: nat, p: int, q: nat, a: nat, k: nat)
    requires IsTrace(run, acts, n, max) && k < |acts| && EndRuns(run, acts, p, q, a, k)
    requires acts[k] == Access(Move(p)) && p in run[k + 1].table.procs && run[k + 1].table.procs[p].Idle?
    ensures p in run[k].table.procs && p in run[k + 1].backends
    ensures var before, after := run[a].backends[p].current, run[k + 1].backends[p].current;
      && after == (if run[k].table.procs[p].Scanning? then before else None)
      && (run[k].table.procs[p].Scanning? ==> FindPid(run[k].table.slots, p).None?)
      && (after.Some? ==> Robbed(run, acts, p, k))
      && (Robbed(run, acts, p, a) ==> after == before)
  {
    EndRunning(run, acts, n, max, p, q, a, k);
    TraceInv(run, acts, n, max, p, k);
    assert Leads(run, acts, k, max);
    EndMove(run[k], p, Robbed(run, acts, p, k), max);
  }

  // ---- Robbery and intrusion ----------------------------------------------------------------------

  /** Where all writers own their slots, the intruding steps are those that rob a process at work. */
  lemma {:induction false} IntrudesIffRobs(w: Table, s: Step, max: nat)
    requires TableInv(w, max) && WritersOwn(w) && Enabled(w, s, max)
    ensures Intrudes(w, s) <==> exists p :: p in w.procs && RobsAtWork(w, s, p)
  {
    if Intrudes(w, s) {
      var t := PidStore(w, s).value.0;
      var p :| p in w.procs && s != Move(p) && WorksIn(w, p, t);
      assert Names(w.slots, p, WorkSlot(w.procs[p]));
      assert p in w.handlers ==> Names(w.slots, p, HandlerSlot(w.handlers[p]));
      assert RobsAtWork(w, s, p);
    }
    if p :| p in w.procs && RobsAtWork(w, s, p) {
      if s.Move? {
        assert Names(w.slots, s.p, WorkSlot(w.procs[s.p]));
      }
    }
  }

  predicate RobsAtWork(w: Table, s: Step, p: int) {
    Robs(w, s, p) && PidStore(w, s).Some? && WorksIn(w, p, PidStore(w, s).value.0)
  }

  /** Exclusive sections exclude robbery, of processes at work and of those whose query runs. */
  lemma {:induction false} CarefulNoRobbery(w: Table, s: Step, max: nat, p: int)
    requires TableInv(w, max) && WritersOwn(w) && Careful(w) && Enabled(w, s, max) && p in w.procs
    ensures !Robs(w, s, p)
  {
    if s.Move? {
      assert Reserved(w.slots, w.procs[s.p]) && Names(w.slots, s.p, WorkSlot(w.procs[s.p]));
    }
  }

  ghost predicate IsSerialTrace(run: seq<World>, acts: seq<Act>, n: nat, max: nat) {
    && IsTrace(run, acts, n, max)
    && forall i :: 0 <= i < |acts| ==> SerialAct(run[i], acts[i], max)
  }

  ghost predicate SerialAct(w: World, a: Act, max: nat) {
    (a.Access? || a.p in w.backends) && (TableStep(w, a).Some? ==> Serial(w.table, TableStep(w, a).value, max))
  }

  lemma {:induction false} SerialTraceOwns(run: seq<World>, acts: seq<Act>, n: nat, max: nat, p: int, k: nat)
    requires IsSerialTrace(run, acts, n, max) && k <= |acts|
    ensures WritersOwn(run[k].table) && Careful(run[k].table)
    ensures p in run[k].backends ==> !Robbed(run, acts, p, k)
  {
    if k > 0 {
      var j := k - 1;
      var w, a := run[j], acts[j];
      SerialTraceOwns(run, acts, n, max, p, j);
      TraceInv(run, acts, n, max, p, j);
      assert Leads(run, acts, j, max) && SerialAct(w, a, max);
      if TableStep(w, a).Some? {
        var s := TableStep(w, a).value;
        CarefulNoIntrusion(w.table, s, max);
        OwnershipStepIff(w.table, s, max);
        CarefulStep(w.table, s, max);
        if p in w.backends {
          CarefulNoRobbery(w.table, s, max, p);
        }
      }
      if !By(a, p) {
        OthersStay(w, a, max, p);
      }
    }
  }

  /** The published query has been torn down by a subtransaction abort and the current query not stored to since. */
  ghost predicate TornDown(run: seq<World>, acts: seq<Act>, p: int, k: nat)
    requires k <= |acts| < |run|
  {
    k > 0 && NextAbandoned(run[k - 1], acts[k - 1], p, TornDown(run, acts, p, k - 1), false)
  }

  /** With exclusive sections the only way for a published query to go unnoticed is a subtransaction abort. */
  lemma {:induction false} SerialDanglesIff(run: seq<World>, acts: seq<Act>, n: nat, max: nat, p: int, k: nat)
    requires IsSerialTrace(run, acts, n, max) && k <= |acts| && p in run[k].backends
    ensures Dangles(run[k], p) <==> TornDown(run, acts, p, k)
  {
    DanglesIff(run, acts, n, max, p, k);
    SameHistory(run, acts, n, max, p, k);
  }

  lemma {:induction false} SameHistory(run: seq<World>, acts: seq<Act>, n: nat, max: nat, p: int, k: nat)
    requires IsSerialTrace(run, acts, n, max) && k <= |acts| && p in run[k].backends
    ensures Abandoned(run, acts, p, k) <==> TornDown(run, acts, p, k)
  {
    if k > 0 {
      var j := k - 1;
      assert Leads(run, acts, j, max);
      SerialTraceOwns(run, acts, n, max, p, j);
      if p in run[j].backends {
        SameHistory(run, acts, n, max, p, j);
      }
    }
  }
}
