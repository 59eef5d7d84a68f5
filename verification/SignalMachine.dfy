/** The hooks and the SIGUSR2 handler statement by statement, for any number of backends that share one
    table. Claims and pid searches are single steps; everything else is one store per step, and the
    handler of a backend may run between any two of that backend's own statements. Each backend has at
    most one query in flight; the plan graph is its private memory. */
module SignalMachine {
  import opened Basics
  import opened Plans
  import opened NodeWrites
  import opened TwoPass
  import opened Slots

  /** What follows once a slot has been freed. */
  datatype After = ThenClearDesc | ThenIdle | ThenUninit | ThenGone

  datatype Pc =
    | Idle
    // query_start_hook
    | Claiming(q: QueryDesc)
    | Filling(i: nat, q: QueryDesc, ws: seq<Write>)
    | PutCount(i: nat, q: QueryDesc) | PutTime(i: nat, q: QueryDesc) | PutId(i: nat, q: QueryDesc)
    | PutText(i: nat, q: QueryDesc) | PutDesc(i: nat, q: QueryDesc)
    | CatchDesc | CatchFind | CatchFlag
    // query_end_hook
    | Finding(q: QueryDesc)
    | Collecting(i: nat, q: QueryDesc, ws: seq<Write>)
    | ClearDesc
    // query_cleanup_callback and backend_exit_callback
    | AbortDesc | AbortFind | ExitFind
    // pwh_release_backend_entry_unlocked
    | Freeing(i: nat, after: After)
    | Bumping(i: nat, after: After)

  /** Where the signal handler is, if it has interrupted the backend. */
  datatype Handler =
    | Quiet
    | Entered
    | Looking(q: QueryDesc)
    | Refreshing(i: nat, q: QueryDesc, ws: seq<Write>)
    | Bump(i: nat, q: QueryDesc)
    | Counting
    | Astray                                             // it has followed a pointer to a query that is gone

  /** `desc` is CURRENT_QUERY_DESC, `dead` that the query it points to is gone, `attached` that PWH_SHMEM is set,
      `hooked` that the callbacks and the handler are installed. */
  datatype Proc = Proc(
    heap: Heap, desc: Option<QueryDesc>, dead: bool, inFlight: Option<QueryDesc>, pc: Pc, handler: Handler,
    initialized: bool, hooked: bool, attached: bool, tally: Tally)

  datatype World = World(slots: seq<Slot>, procs: map<int, Proc>)

  datatype Config = Config(slots: nat, maxNodes: nat, textLen: nat)

  datatype Step =
    | Spawn(p: int, attached: bool) | Crash(p: int) | Exit(p: int)
    | Begin(p: int, q: QueryDesc, h: Heap, tracked: bool) | End(p: int) | Abort(p: int) | SubAbort(p: int)
    | Main(p: int) | Fault(p: int) | Run(p: int, h: Heap)
    | Deliver(p: int) | Handle(p: int)
    | Reap(i: nat)

  // ---- Counters of the executor -----------------------------------------------------------------

  /** The exported counters a node has reached. */
  function RunSoFar(n: PlanState): Execution {
    match n.instrument case None => NOTHING_RUN case Some(i) => Snapshot(i).0
  }

  /** Tuples, loops, startup and total time of `a` do not exceed those of `b`. */
  predicate AtMost(a: Execution, b: Execution) {
    && a.tuplesReturned <= b.tuplesReturned && a.loopsExecuted <= b.loopsExecuted
    && a.startupTimeUs <= b.startupTimeUs && a.totalTimeUs <= b.totalTimeUs
  }

  ghost predicate PlanOk(h: Heap, q: QueryDesc) {
    && Closed(h) && RefsIn(h, [q.planstate])
    && forall a :: a in h ==> AtMost(NOTHING_RUN, RunSoFar(h[a]))
  }

  /** What running the query may do: the shape stays, the counters only grow. */
  ghost predicate Grows(h: Heap, h': Heap) {
    && SameShape(h, h')
    && forall a :: a in h ==>
      AtMost(RunSoFar(h[a]), RunSoFar(h'[a])) && (h[a].instrument.Some? <==> h'[a].instrument.Some?)
  }

  // ---- Steps ------------------------------------------------------------------------------------

  ghost predicate Sized(c: Config, slots: seq<Slot>) {
    forall i :: 0 <= i < |slots| ==> |slots[i].metrics| == c.maxNodes
  }

  ghost predicate Starting(pc: Pc) {
    pc.Claiming? || pc.Filling? || pc.PutCount? || pc.PutTime? || pc.PutId? || pc.PutText? || pc.PutDesc?
  }

  ghost predicate Resting(w: World, p: int) {
    p in w.procs && w.procs[p].handler == Quiet && w.procs[p].pc == Idle
  }

  ghost predicate Enabled(w: World, s: Step) {
    match s
    case Spawn(p, _) => p != 0 && p !in w.procs
    case Crash(p) => p in w.procs
    case Exit(p) => Resting(w, p)
    case Begin(p, q, h, _) => Resting(w, p) && w.procs[p].inFlight.None? && PlanOk(h, q)
    case End(p) => Resting(w, p) && w.procs[p].inFlight.Some?
    case Abort(p) => Resting(w, p)
    case SubAbort(p) => Resting(w, p) && w.procs[p].inFlight.Some?
    case Main(p) => p in w.procs && w.procs[p].handler == Quiet && w.procs[p].pc != Idle
    case Fault(p) => p in w.procs && w.procs[p].handler == Quiet
        && (Starting(w.procs[p].pc) || w.procs[p].pc.Finding? || w.procs[p].pc.Collecting?)
    case Run(p, h) => Resting(w, p) && Grows(w.procs[p].heap, h)
    case Deliver(p) => p in w.procs && w.procs[p].hooked && w.procs[p].handler == Quiet
    case Handle(p) => p in w.procs && w.procs[p].handler != Quiet && w.procs[p].handler != Astray
    case Reap(i) => i < |w.slots| && w.slots[i].pid != 0 && w.slots[i].pid !in w.procs
  }

  ghost predicate ProcOk(c: Config, slots: seq<Slot>, p: int, pr: Proc) {
    && Sized(c, slots)
    && (pr.inFlight.Some? ==> PlanOk(pr.heap, pr.inFlight.value))
    && (pr.desc.Some? && !pr.dead ==> pr.desc == pr.inFlight)
    && (pr.dead ==> pr.desc.Some?)
    && QueryOf(pr.pc, pr) && HandlerQuery(pr)
  }

  /** Whichever query a statement works on is the one in flight. */
  ghost predicate QueryOf(pc: Pc, pr: Proc) {
    match pc
    case Claiming(q) => pr.inFlight == Some(q)
    case Filling(_, q, _) => pr.inFlight == Some(q)
    case PutCount(_, q) => pr.inFlight == Some(q)
    case PutTime(_, q) => pr.inFlight == Some(q)
    case PutId(_, q) => pr.inFlight == Some(q)
    case PutText(_, q) => pr.inFlight == Some(q)
    case PutDesc(_, q) => pr.inFlight == Some(q)
    case Finding(q) => pr.inFlight == Some(q)
    case Collecting(_, q, _) => pr.inFlight == Some(q)
    case _ => true
  }

  ghost predicate HandlerQuery(pr: Proc) {
    match pr.handler
    case Looking(q) => pr.desc == Some(q) && !pr.dead
    case Refreshing(_, q, _) => pr.desc == Some(q) && !pr.dead
    case Bump(_, q) => pr.desc == Some(q) && !pr.dead
    case _ => true
  }

  function Edit(slots: seq<Slot>, i: nat, s: Slot): seq<Slot> {
    if i < |slots| then slots[i := s] else slots
  }

  /** The slot a claim gets: the caller's own if it has one, else the first free one. */
  function ClaimTarget(slots: seq<Slot>, p: int): Option<nat> {
    var own := FindPid(slots, p);
    if own.Some? then own else FindPid(slots, 0)
  }

  /** Continuation behind the release of a slot; None when the process is gone. */
  function Continue(pr: Proc, after: After): Option<Proc> {
    match after
    case ThenClearDesc => Some(pr.(pc := ClearDesc))
    case ThenIdle => Some(pr.(pc := Idle))
    case ThenUninit => Some(pr.(pc := CatchFlag))
    case ThenGone => None
  }

  /** The next statement of process `p`; the result is the new table and the new process. */
  ghost function MainStep(c: Config, slots: seq<Slot>, p: int, pr: Proc): (seq<Slot>, Option<Proc>)
    requires ProcOk(c, slots, p, pr)
  {
    match pr.pc
    case Idle => (slots, Some(pr))
    case Claiming(q) =>
      var t := ClaimTarget(slots, p);
      if t.None? then (slots, Some(pr.(pc := Idle)))
      else (slots[t.value := slots[t.value].(pid := p)],
            Some(pr.(pc := Filling(t.value, q, TopologyStores(pr.heap, q.planstate, c.maxNodes)))))
    case Filling(i, q, ws) =>
      if ws == [] then (slots, Some(pr.(pc := PutCount(i, q))))
      else (Store(slots, i, ws[0]), Some(pr.(pc := Filling(i, q, ws[1..]))))
    case PutCount(i, q) =>
      var n := |Preorder(pr.heap, q.planstate, c.maxNodes)|;
      (Edit(slots, i, SlotAt(slots, i).(count := n)), Some(pr.(pc := PutTime(i, q))))
    case PutTime(i, q) =>
      (Edit(slots, i, SlotAt(slots, i).(startTime := q.startedAt)), Some(pr.(pc := PutId(i, q))))
    case PutId(i, q) =>
      (Edit(slots, i, SlotAt(slots, i).(queryId := q.queryId)), Some(pr.(pc := PutText(i, q))))
    case PutText(i, q) =>
      (Edit(slots, i, SlotAt(slots, i).(text := StoredText(q, c.textLen))), Some(pr.(pc := PutDesc(i, q))))
    case PutDesc(i, q) => (slots, Some(pr.(pc := Idle, desc := Some(q), dead := false)))
    case CatchDesc => (slots, Some(pr.(pc := CatchFind, desc := None, dead := false)))
    case CatchFind => (slots, Some(pr.(pc := FreeOr(slots, p, ThenUninit, CatchFlag))))
    case CatchFlag => (slots, Some(pr.(pc := Idle, initialized := false)))
    case Finding(q) =>
      var own := FindPid(slots, p);
      if own.None? then (slots, Some(pr.(pc := Idle, inFlight := None)))
      else
        var ws := RefreshStores(pr.heap, q.planstate, slots[own.value].metrics, c.maxNodes);
        (slots, Some(pr.(pc := Collecting(own.value, q, ws))))
    case Collecting(i, q, ws) =>
      if ws == [] then (slots, Some(pr.(pc := Freeing(i, ThenClearDesc))))
      else (Store(slots, i, ws[0]), Some(pr.(pc := Collecting(i, q, ws[1..]))))
    case ClearDesc => (slots, Some(pr.(pc := Idle, desc := None, dead := false, inFlight := None)))
    case AbortDesc => (slots, Some(pr.(pc := AbortFind, desc := None, dead := false, inFlight := None)))
    case AbortFind => (slots, Some(pr.(pc := FreeOr(slots, p, ThenIdle, Idle))))
    case ExitFind =>
      var own := FindPid(slots, p);
      (slots, if own.Some? then Some(pr.(pc := Freeing(own.value, ThenGone))) else None)
    case Freeing(i, after) =>
      (Edit(slots, i, SlotAt(slots, i).(pid := 0)), Some(pr.(pc := Bumping(i, after))))
    case Bumping(i, after) =>
      (Edit(slots, i, Bumped(SlotAt(slots, i))), Continue(pr, after))
  }

  function Bumped(s: Slot): Slot { s.(generation := Inc32(s.generation)) }

  function FreeOr(slots: seq<Slot>, p: int, after: After, otherwise: Pc): Pc {
    var own := FindPid(slots, p);
    if own.Some? then Freeing(own.value, after) else otherwise
  }

  function Store(slots: seq<Slot>, i: nat, w: Write): seq<Slot> {
    Edit(slots, i, SlotAt(slots, i).(metrics := ApplyWrite(SlotAt(slots, i).metrics, w)))
  }

  /** The next statement of the handler of process `p`. */
  ghost function HandlerStep(c: Config, slots: seq<Slot>, p: int, pr: Proc): (seq<Slot>, Proc)
    requires ProcOk(c, slots, p, pr)
  {
    match pr.handler
    case Quiet => (slots, pr)
    case Entered =>
      if pr.dead then (slots, pr.(handler := Astray))
      else if pr.desc.None? || pr.desc.value.planstate.None? then
        (slots, pr.(handler := Quiet, tally := pr.tally.(noQueryDesc := pr.tally.noQueryDesc + 1)))
      else if !pr.attached then
        (slots, pr.(handler := Quiet, tally := pr.tally.(shmemNull := pr.tally.shmemNull + 1)))
      else (slots, pr.(handler := Looking(pr.desc.value)))
    case Looking(q) =>
      var own := FindPid(slots, p);
      if own.None? then
        (slots, pr.(handler := Quiet, tally := pr.tally.(noSlot := pr.tally.noSlot + 1)))
      else
        var ws := RefreshStores(pr.heap, q.planstate, slots[own.value].metrics, c.maxNodes);
        (slots, pr.(handler := Refreshing(own.value, q, ws)))
    case Refreshing(i, q, ws) =>
      if ws == [] then (slots, pr.(handler := Bump(i, q)))
      else (Store(slots, i, ws[0]), pr.(handler := Refreshing(i, q, ws[1..])))
    case Bump(i, q) => (Edit(slots, i, Bumped(SlotAt(slots, i))), pr.(handler := Counting))
    case Astray => (slots, pr)
    case Counting => (slots, pr.(handler := Quiet, tally := pr.tally.(success := pr.tally.success + 1)))
  }

  /** The effect on process `p` of a step that is not a statement of a hook. */
  ghost function Turn(pr: Proc, s: Step): Option<Proc>
    requires s.Exit? || s.Begin? || s.End? || s.Abort? || s.SubAbort? || s.Fault? || s.Run? || s.Deliver?
    requires s.End? ==> pr.inFlight.Some?
  {
    match s
    case Exit(_) => if pr.hooked then Some(pr.(pc := ExitFind)) else None
    case Begin(_, q, h, tracked) =>
      var started := pr.(heap := h, inFlight := Some(q));
      if tracked then
        Some(started.(pc := Claiming(q), initialized := true, hooked := true,
                      attached := pr.attached || !pr.initialized))
      else Some(started)
    case End(_) =>
      if pr.initialized then Some(pr.(pc := Finding(pr.inFlight.value))) else Some(pr.(inFlight := None))
    case Abort(_) => if pr.hooked then Some(pr.(pc := AbortDesc)) else Some(pr.(inFlight := None))
    // the query is torn down, and no callback of the extension hears of it
    case SubAbort(_) => Some(pr.(inFlight := None, dead := pr.desc.Some?))
    case Fault(_) => Some(pr.(pc := if Starting(pr.pc) then CatchDesc else ClearDesc))
    case Run(_, h) => Some(pr.(heap := h))
    case Deliver(_) => Some(pr.(handler := Entered, tally := pr.tally.(calls := pr.tally.calls + 1)))
  }

  ghost function With(w: World, slots: seq<Slot>, p: int, pr: Option<Proc>): World {
    World(slots, if pr.Some? then w.procs[p := pr.value] else w.procs - {p})
  }

  ghost predicate WorldOk(c: Config, w: World) {
    forall p :: p in w.procs ==> ProcOk(c, w.slots, p, w.procs[p])
  }

  ghost function Next(c: Config, w: World, s: Step): World
    requires WorldOk(c, w) && Enabled(w, s)
  {
    match s
    case Spawn(p, attached) =>
      With(w, w.slots, p, Some(Proc(map[], None, false, None, Idle, Quiet, false, false, attached, NEWBORN)))
    case Crash(p) => With(w, w.slots, p, None)
    case Main(p) => var (slots, pr) := MainStep(c, w.slots, p, w.procs[p]); With(w, slots, p, pr)
    case Handle(p) => var (slots, pr) := HandlerStep(c, w.slots, p, w.procs[p]); With(w, slots, p, Some(pr))
    case Reap(i) => World(w.slots[i := Released(w.slots[i])], w.procs)
    case _ => With(w, w.slots, s.p, Turn(w.procs[s.p], s))
  }
}
