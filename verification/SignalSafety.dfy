/** What every run of the statement-level machine keeps, whenever the signal arrives. */
module SignalSafety {
  import opened Basics
  import opened Plans
  import opened NodeWrites
  import opened TwoPass
  import opened Slots
  import opened SignalMachine

  function OwnMetrics(slots: seq<Slot>, p: int): seq<NodeMetrics> {
    var own := FindPid(slots, p);
    if own.Some? then slots[own.value].metrics else []
  }

  // ---- Records of a published plan --------------------------------------------------------------

  function Nodes(h: Heap, q: QueryDesc, max: nat): seq<Entry<nat>>
    requires Closed(h) && RefsIn(h, [q.planstate])
  {
    Preorder(h, q.planstate, max)
  }

  /** The records show the plan's topology and no counter is ahead of the executor. */
  ghost predicate Good(m: seq<NodeMetrics>, h: Heap, q: QueryDesc, max: nat) {
    && PlanOk(h, q) && |m| == max
    && ShowsTopology(m, h, Nodes(h, q, max))
    && forall j :: 0 <= j < |Nodes(h, q, max)| ==> Behind(m[j], h[Nodes(h, q, max)[j].item])
  }

  predicate Behind(n: NodeMetrics, p: PlanState) { AtMost(n.execution, RunSoFar(p)) }

  /** Every instrumented node shows exactly the counters of its plan node. */
  ghost predicate Fresh(m: seq<NodeMetrics>, h: Heap, es: seq<Entry<nat>>) {
    && AllVisible(h, es) && |es| <= |m|
    && forall j :: 0 <= j < |es| ==> Exact(m[j], h[es[j].item])
  }

  predicate Exact(n: NodeMetrics, p: PlanState) {
    p.instrument.Some? ==>
      n.execution == Snapshot(p.instrument.value).0 && n.bufferUsage == Snapshot(p.instrument.value).1
  }

  /** The op stores one field of the given counters. */
  predicate FieldOf(op: Op, e: Execution, b: BufferUsage) {
    match op
    case SetTuples(r) => r == e.tuplesReturned
    case SetLoops(r) => r == e.loopsExecuted
    case SetStartup(r) => r == e.startupTimeUs
    case SetTotal(r) => r == e.totalTimeUs
    case SetByJoins(r) => r == e.rowsFilteredByJoins
    case SetByExprs(r) => r == e.rowsFilteredByExpressions
    case SetHits(n) => n == b.cacheHits
    case SetMisses(n) => n == b.cacheMisses
    case SetLocalHits(n) => n == b.localCacheHits
    case SetLocalMisses(n) => n == b.localCacheMisses
    case SetSpillReads(n) => n == b.spillFileReads
    case SetSpillWrites(n) => n == b.spillFileWrites
    case _ => false
  }

  /** A store into record j that carries a counter of plan node j. */
  predicate FromPlan(w: Write, h: Heap, es: seq<Entry<nat>>) {
    && w.at < |es| && es[w.at].item in h
    && var i := h[es[w.at].item].instrument;
       i.Some? && FieldOf(w.op, Snapshot(i.value).0, Snapshot(i.value).1)
  }

  predicate AllFromPlan(ws: seq<Write>, h: Heap, es: seq<Entry<nat>>) {
    forall u :: 0 <= u < |ws| ==> FromPlan(ws[u], h, es)
  }

  lemma {:induction false} RefreshOpsFields(i: Instrumentation)
    ensures forall u :: 0 <= u < |RefreshOps(i)| ==> FieldOf(RefreshOps(i)[u], Snapshot(i).0, Snapshot(i).1)
  {
  }

  lemma {:induction false} PassFromPlan(h: Heap, es: seq<Entry<nat>>, k: nat)
    requires AllVisible(h, es) && k <= |es|
    ensures AllVisible(h, es[k..])
    ensures AllFromPlan(PassWrites(Refresh, h, es[k..], k), h, es)
    decreases |es| - k
  {
    if k < |es| {
      PassFromPlan(h, es, k + 1);
      assert es[k..][1..] == es[k + 1..] && es[k..][0] == es[k];
      var a, b := VisitWrites(Refresh, h, k, es[k]), PassWrites(Refresh, h, es[k + 1..], k + 1);
      assert AllFromPlan(a, h, es) by {
        if h[es[k].item].instrument.Some? {
          RefreshOpsFields(h[es[k].item].instrument.value);
        }
      }
      assert PassWrites(Refresh, h, es[k..], k) == a + b;
    }
  }

  lemma {:induction false} StoreGood(m: seq<NodeMetrics>, w: Write, h: Heap, q: QueryDesc, max: nat)
    requires Good(m, h, q, max) && FromPlan(w, h, Nodes(h, q, max))
    ensures Good(ApplyWrite(m, w), h, q, max)
    ensures forall j :: 0 <= j < max ==> AtMost(m[j].execution, ApplyWrite(m, w)[j].execution)
  {
    var es, m' := Nodes(h, q, max), ApplyWrite(m, w);
    var k := w.at;
    assert ShowsNode(m[k], h, k, es[k]) && Behind(m[k], h[es[k].item]);
    forall j | 0 <= j < |es| ensures ShowsNode(m'[j], h, j, es[j]) && Behind(m'[j], h[es[j].item]) {
      assert ShowsNode(m[j], h, j, es[j]) && Behind(m[j], h[es[j].item]);
    }
  }

  /** What a whole topology pass leaves is good, whatever was there before. */
  lemma {:induction false} FilledGood(m: seq<NodeMetrics>, h: Heap, q: QueryDesc, max: nat)
    requires PlanOk(h, q) && |m| == max
    ensures Good(ApplyWrites(m, TopologyStores(h, q.planstate, max)), h, q, max)
  {
    TopologyPass(h, q.planstate, m, max);
    var es, m' := Nodes(h, q, max), ApplyWrites(m, TopologyStores(h, q.planstate, max));
    forall j | 0 <= j < |es| ensures Behind(m'[j], h[es[j].item]) {
      assert Visible(h, es[j]);
    }
  }

  /** A refresh of good records takes only stores from the plan and ends fresh. */
  lemma {:induction false} RefreshGood(m: seq<NodeMetrics>, h: Heap, q: QueryDesc, max: nat)
    requires Good(m, h, q, max)
    ensures AllFromPlan(RefreshStores(h, q.planstate, m, max), h, Nodes(h, q, max))
    ensures Fresh(ApplyWrites(m, RefreshStores(h, q.planstate, m, max)), h, Nodes(h, q, max))
  {
    var es := Nodes(h, q, max);
    TwoPassAgreement(h, h, q.planstate, m, max);
    assert es[0..] == es;
    PassFromPlan(h, es, 0);
    var m' := ApplyWrites(m, PassWrites(Refresh, h, es, 0));
    forall j | 0 <= j < |es| ensures Exact(m'[j], h[es[j].item]) {
      assert ShowsCounters(m'[j], m[j], h[es[j].item]);
    }
  }

  lemma {:induction false} GrownGood(m: seq<NodeMetrics>, h: Heap, h': Heap, q: QueryDesc, max: nat)
    requires Good(m, h, q, max) && Grows(h, h')
    ensures Good(m, h', q, max)
  {
    SameShapePreorder(h, h', q.planstate, max);
    PreorderVisible(h', q.planstate, max);
    var es := Nodes(h, q, max);
    forall j | 0 <= j < |es| ensures ShowsNode(m[j], h', j, es[j]) && Behind(m[j], h'[es[j].item]) {
      assert ShowsNode(m[j], h, j, es[j]) && Behind(m[j], h[es[j].item]);
      assert Visible(h, es[j]);
    }
  }

  // ---- The invariant of one process -------------------------------------------------------------

  /** Points of the hooks at which no query is published. */
  predicate Unpublished(pc: Pc) {
    match pc
    case Idle => false
    case Finding(_) => false
    case Collecting(_, _, _) => false
    case ClearDesc => false
    case AbortDesc => false
    case ExitFind => false
    case Freeing(_, after) => after.ThenIdle? || after.ThenUninit?
    case Bumping(_, after) => after.ThenIdle? || after.ThenUninit?
    case _ => true
  }

  /** Points behind the clearing of the current query. */
  predicate Cleared(pc: Pc) {
    match pc
    case CatchFind => true
    case CatchFlag => true
    case AbortFind => true
    case Freeing(_, after) => after.ThenIdle? || after.ThenUninit?
    case Bumping(_, after) => after.ThenIdle? || after.ThenUninit?
    case _ => false
  }

  /** A query is published and has not gone. */
  predicate Live(pr: Proc) { pr.desc.Some? && !pr.dead }

  predicate Flags(pr: Proc) { pr.initialized && pr.hooked && pr.attached }

  ghost predicate Published(c: Config, own: Option<nat>, m: seq<NodeMetrics>, pr: Proc) {
    pr.desc.Some? ==>
      && Flags(pr) && !Cleared(pr.pc)
      && (!pr.dead ==> !Unpublished(pr.pc) && (own.Some? ==> Good(m, pr.heap, pr.desc.value, c.maxNodes)))
      && (pr.pc.Idle? || pr.pc.Finding? || pr.pc.Claiming? ==> own.Some?)
  }

  ghost predicate Filled(c: Config, own: Option<nat>, m: seq<NodeMetrics>, pr: Proc, i: nat, q: QueryDesc) {
    own == Some(i) && Flags(pr) && Good(m, pr.heap, q, c.maxNodes)
  }

  ghost predicate AtPc(c: Config, own: Option<nat>, m: seq<NodeMetrics>, pr: Proc) {
    match pr.pc
    case Claiming(_) => Flags(pr)
    case Filling(i, q, ws) => Filled(c, own, ApplyWrites(m, ws), pr, i, q)
    case PutCount(i, q) => Filled(c, own, m, pr, i, q)
    case PutTime(i, q) => Filled(c, own, m, pr, i, q)
    case PutId(i, q) => Filled(c, own, m, pr, i, q)
    case PutText(i, q) => Filled(c, own, m, pr, i, q)
    case PutDesc(i, q) => Filled(c, own, m, pr, i, q)
    case Collecting(i, q, ws) =>
      own == Some(i) && (Live(pr) ==> PlanOk(pr.heap, q) && AllFromPlan(ws, pr.heap, Nodes(pr.heap, q, c.maxNodes)))
    case Freeing(i, _) => own == Some(i)
    case Bumping(i, _) => own == None && i < c.slots
    case _ => true
  }

  ghost predicate AtHandler(c: Config, own: Option<nat>, m: seq<NodeMetrics>, pr: Proc) {
    match pr.handler
    case Refreshing(i, q, ws) =>
      && own == Some(i) && Good(m, pr.heap, q, c.maxNodes)
      && AllFromPlan(ws, pr.heap, Nodes(pr.heap, q, c.maxNodes))
      && Fresh(ApplyWrites(m, ws), pr.heap, Nodes(pr.heap, q, c.maxNodes))
    case Bump(i, q) =>
      own == Some(i) && Good(m, pr.heap, q, c.maxNodes) && Fresh(m, pr.heap, Nodes(pr.heap, q, c.maxNodes))
    case _ => true
  }

  /** Each handler call is counted once more under exactly one outcome; the PWH_SHMEM check never fires. */
  predicate Accounted(pr: Proc) {
    && pr.tally.shmemNull == 0
    && (pr.initialized ==> pr.attached && pr.hooked)
    && pr.tally.calls == pr.tally.success + pr.tally.noQueryDesc + pr.tally.noSlot
                         + if pr.handler.Quiet? then 0 else 1
  }

  ghost predicate Local(c: Config, own: Option<nat>, m: seq<NodeMetrics>, pr: Proc) {
    && Published(c, own, m, pr) && AtPc(c, own, m, pr) && AtHandler(c, own, m, pr) && Accounted(pr)
  }

  ghost predicate TableInv(c: Config, slots: seq<Slot>) {
    Sized(c, slots) && Unique(slots) && |slots| == c.slots
  }

  ghost predicate ProcInv(c: Config, slots: seq<Slot>, p: int, pr: Proc) {
    ProcOk(c, slots, p, pr) && Local(c, FindPid(slots, p), OwnMetrics(slots, p), pr)
  }

  ghost predicate Inv(c: Config, w: World) {
    && TableInv(c, w.slots)
    && 0 !in w.procs
    && forall p :: p in w.procs ==> ProcInv(c, w.slots, p, w.procs[p])
  }

  // ---- A step of one process leaves the others alone --------------------------------------------

  /** At most slot `i` changes, and only if `p` names it, or is about to, or the change is of no concern. */
  ghost predicate OwnEdit(slots: seq<Slot>, slots': seq<Slot>, i: nat, p: int) {
    && i < |slots| == |slots'| && slots' == slots[i := slots'[i]]
    && |slots'[i].metrics| == |slots[i].metrics|
    && (|| (slots[i].pid in {0, p} && slots'[i].pid in {0, p})
        || (slots'[i].pid == slots[i].pid && slots'[i].metrics == slots[i].metrics))
  }

  ghost predicate OwnChange(slots: seq<Slot>, slots': seq<Slot>, p: int) {
    slots' == slots || (|slots'| == |slots| && exists i: nat :: OwnEdit(slots, slots', i, p))
  }

  lemma {:induction false} OthersSame(slots: seq<Slot>, slots': seq<Slot>, p: int, o: int)
    requires OwnChange(slots, slots', p) && o != p && o != 0
    ensures FindPid(slots', o) == FindPid(slots, o)
    ensures OwnMetrics(slots', o) == OwnMetrics(slots, o)
  {
    if slots' != slots {
      var i: nat :| OwnEdit(slots, slots', i, p);
      FindPidKept(slots, i, slots'[i], o);
    }
  }

  lemma {:induction false} OthersInv(c: Config, slots: seq<Slot>, slots': seq<Slot>, p: int, o: int, pr: Proc)
    requires OwnChange(slots, slots', p) && o != p && o != 0 && ProcInv(c, slots, o, pr)
    requires Sized(c, slots')
    ensures ProcInv(c, slots', o, pr)
  {
    OthersSame(slots, slots', p, o);
  }

  /** A store into a record of the own slot. */
  lemma {:induction false} StoreOwn(c: Config, slots: seq<Slot>, i: nat, w: Write, p: int)
    requires TableInv(c, slots) && FindPid(slots, p) == Some(i)
    ensures var slots' := Store(slots, i, w);
      && TableInv(c, slots') && OwnChange(slots, slots', p)
      && FindPid(slots', p) == Some(i)
      && OwnMetrics(slots', p) == ApplyWrite(OwnMetrics(slots, p), w)
  {
    var slots' := Store(slots, i, w);
    FindPidKept(slots, i, slots'[i], p);
    assert OwnEdit(slots, slots', i, p);
  }

  /** A store into a header field other than the pid, of whatever slot. */
  lemma {:induction false} HeaderEdit(c: Config, slots: seq<Slot>, i: nat, s: Slot, p: int)
    requires TableInv(c, slots) && i < |slots| && s.pid == slots[i].pid && s.metrics == slots[i].metrics
    ensures var slots' := Edit(slots, i, s);
      && TableInv(c, slots') && OwnChange(slots, slots', p)
      && FindPid(slots', p) == FindPid(slots, p)
      && OwnMetrics(slots', p) == OwnMetrics(slots, p)
  {
    FindPidKept(slots, i, s, p);
    assert OwnEdit(slots, Edit(slots, i, s), i, p);
  }

  lemma {:induction false} FreeOwn(c: Config, slots: seq<Slot>, i: nat, p: int)
    requires TableInv(c, slots) && p != 0 && FindPid(slots, p) == Some(i)
    ensures var slots' := Edit(slots, i, SlotAt(slots, i).(pid := 0));
      && TableInv(c, slots') && OwnChange(slots, slots', p) && FindPid(slots', p) == None
  {
    var slots' := Edit(slots, i, SlotAt(slots, i).(pid := 0));
    assert OwnEdit(slots, slots', i, p);
    assert forall k :: 0 <= k < |slots| && slots[k].pid == p ==> k == i;
  }

  lemma {:induction false} ClaimOwn(c: Config, slots: seq<Slot>, p: int)
    requires TableInv(c, slots) && p != 0 && ClaimTarget(slots, p).Some?
    ensures var t := ClaimTarget(slots, p).value;
      var slots' := slots[t := slots[t].(pid := p)];
      && TableInv(c, slots') && OwnChange(slots, slots', p)
      && FindPid(slots', p) == Some(t) && OwnMetrics(slots', p) == slots[t].metrics
  {
    var t := ClaimTarget(slots, p).value;
    var slots' := slots[t := slots[t].(pid := p)];
    assert OwnEdit(slots, slots', t, p);
    assert forall k :: 0 <= k < |slots| && k != t ==> slots[k].pid != p;
    assert slots'[t].pid == p;
  }

  ghost predicate Kept(c: Config, slots: seq<Slot>, slots': seq<Slot>, p: int, pr': Proc) {
    TableInv(c, slots') && OwnChange(slots, slots', p) && ProcInv(c, slots', p, pr')
  }

  ghost predicate Ready(c: Config, slots: seq<Slot>, p: int, pr: Proc) {
    TableInv(c, slots) && p != 0 && ProcInv(c, slots, p, pr)
  }

  lemma {:induction false} MainClaiming(c: Config, slots: seq<Slot>, p: int, pr: Proc)
    requires Ready(c, slots, p, pr) && pr.handler.Quiet? && pr.pc.Claiming?
    ensures var (slots', pr') := MainStep(c, slots, p, pr); pr'.Some? && Kept(c, slots, slots', p, pr'.value)
  {
    if ClaimTarget(slots, p).Some? {
      ClaimOwn(c, slots, p);
      FilledGood(slots[ClaimTarget(slots, p).value].metrics, pr.heap, pr.pc.q, c.maxNodes);
    }
  }

  lemma {:induction false} MainFilling(c: Config, slots: seq<Slot>, p: int, pr: Proc)
    requires Ready(c, slots, p, pr) && pr.handler.Quiet? && pr.pc.Filling?
    ensures var (slots', pr') := MainStep(c, slots, p, pr); pr'.Some? && Kept(c, slots, slots', p, pr'.value)
  {
    if pr.pc.ws != [] {
      StoreOwn(c, slots, pr.pc.i, pr.pc.ws[0], p);
    }
  }

  lemma {:induction false} MainHeader(c: Config, slots: seq<Slot>, p: int, pr: Proc)
    requires Ready(c, slots, p, pr) && pr.handler.Quiet?
    requires pr.pc.PutCount? || pr.pc.PutTime? || pr.pc.PutId? || pr.pc.PutText? || pr.pc.PutDesc?
    ensures var (slots', pr') := MainStep(c, slots, p, pr); pr'.Some? && Kept(c, slots, slots', p, pr'.value)
  {
    if !pr.pc.PutDesc? {
      HeaderEdit(c, slots, pr.pc.i, MainStep(c, slots, p, pr).0[pr.pc.i], p);
    }
  }

  lemma {:induction false} MainFinding(c: Config, slots: seq<Slot>, p: int, pr: Proc)
    requires Ready(c, slots, p, pr) && pr.handler.Quiet? && pr.pc.Finding?
    ensures var (slots', pr') := MainStep(c, slots, p, pr); pr'.Some? && Kept(c, slots, slots', p, pr'.value)
  {
    if Live(pr) {
      RefreshGood(OwnMetrics(slots, p), pr.heap, pr.pc.q, c.maxNodes);
    }
  }

  lemma {:induction false} MainCollecting(c: Config, slots: seq<Slot>, p: int, pr: Proc)
    requires Ready(c, slots, p, pr) && pr.handler.Quiet? && pr.pc.Collecting?
    ensures var (slots', pr') := MainStep(c, slots, p, pr); pr'.Some? && Kept(c, slots, slots', p, pr'.value)
  {
    var Collecting(i, q, ws) := pr.pc;
    if ws != [] {
      StoreOwn(c, slots, i, ws[0], p);
      if Live(pr) {
        StoreGood(OwnMetrics(slots, p), ws[0], pr.heap, q, c.maxNodes);
      }
    }
  }

  lemma {:induction false} MainFreeing(c: Config, slots: seq<Slot>, p: int, pr: Proc)
    requires Ready(c, slots, p, pr) && pr.handler.Quiet? && pr.pc.Freeing?
    ensures var (slots', pr') := MainStep(c, slots, p, pr); pr'.Some? && Kept(c, slots, slots', p, pr'.value)
  {
    FreeOwn(c, slots, pr.pc.i, p);
  }

  lemma {:induction false} MainBumping(c: Config, slots: seq<Slot>, p: int, pr: Proc)
    requires Ready(c, slots, p, pr) && pr.handler.Quiet? && pr.pc.Bumping?
    ensures var (slots', pr') := MainStep(c, slots, p, pr);
      && TableInv(c, slots') && OwnChange(slots, slots', p)
      && (pr'.Some? ==> ProcInv(c, slots', p, pr'.value))
  {
    var i := pr.pc.i;
    HeaderEdit(c, slots, i, Bumped(slots[i]), p);
    var slots' := Edit(slots, i, Bumped(slots[i]));
    match pr.pc.after
    case ThenClearDesc => BumpedGoesOn(c, slots', p, pr, pr.(pc := ClearDesc));
    case ThenIdle => BumpedGoesOn(c, slots', p, pr, pr.(pc := Idle));
    case ThenUninit => BumpedGoesOn(c, slots', p, pr, pr.(pc := CatchFlag));
    case ThenGone =>
  }

  /** Behind the second store of a release the process has no slot, and no query unless it still has to clear it. */
  lemma {:induction false} BumpedGoesOn(c: Config, slots: seq<Slot>, p: int, pr: Proc, pr': Proc)
    requires Sized(c, slots) && ProcOk(c, slots, p, pr) && Local(c, None, [], pr) && FindPid(slots, p) == None
    requires pr.pc.Bumping? && pr.handler.Quiet? && Some(pr') == Continue(pr, pr.pc.after)
    ensures ProcInv(c, slots, p, pr')
  {
    match pr.pc.after
    case ThenClearDesc =>
    case ThenIdle =>
    case ThenUninit =>
    case ThenGone =>
  }

  lemma {:induction false} MainKept(c: Config, slots: seq<Slot>, p: int, pr: Proc)
    requires Ready(c, slots, p, pr) && pr.handler.Quiet?
    ensures var (slots', pr') := MainStep(c, slots, p, pr);
      && TableInv(c, slots') && OwnChange(slots, slots', p)
      && (pr'.Some? ==> ProcInv(c, slots', p, pr'.value))
  {
    match pr.pc
    case Claiming(_) => MainClaiming(c, slots, p, pr);
    case Filling(_, _, _) => MainFilling(c, slots, p, pr);
    case PutCount(_, _) => MainHeader(c, slots, p, pr);
    case PutTime(_, _) => MainHeader(c, slots, p, pr);
    case PutId(_, _) => MainHeader(c, slots, p, pr);
    case PutText(_, _) => MainHeader(c, slots, p, pr);
    case PutDesc(_, _) => MainHeader(c, slots, p, pr);
    case Finding(_) => MainFinding(c, slots, p, pr);
    case Collecting(_, _, _) => MainCollecting(c, slots, p, pr);
    case Freeing(_, _) => MainFreeing(c, slots, p, pr);
    case Bumping(_, _) => MainBumping(c, slots, p, pr);
    case _ => MainQuiet(c, slots, p, pr);
  }

  lemma {:induction false} MainQuiet(c: Config, slots: seq<Slot>, p: int, pr: Proc)
    requires Ready(c, slots, p, pr) && pr.handler.Quiet?
    requires pr.pc.Idle? || pr.pc.CatchDesc? || pr.pc.CatchFind? || pr.pc.CatchFlag? || pr.pc.ClearDesc?
          || pr.pc.AbortDesc? || pr.pc.AbortFind? || pr.pc.ExitFind?
    ensures var (slots', pr') := MainStep(c, slots, p, pr);
      slots' == slots && (pr'.Some? ==> ProcInv(c, slots', p, pr'.value))
  {
  }

  lemma {:induction false} HandlerStore(
      c: Config, slots: seq<Slot>, p: int, pr: Proc, i: nat, q: QueryDesc, ws: seq<Write>)
    requires Ready(c, slots, p, pr) && pr.handler == Refreshing(i, q, ws) && ws != []
    ensures var (slots', pr') := HandlerStep(c, slots, p, pr); Kept(c, slots, slots', p, pr')
  {
    StoreOwn(c, slots, i, ws[0], p);
    StoreGood(OwnMetrics(slots, p), ws[0], pr.heap, q, c.maxNodes);
  }

  lemma {:induction false} HandlerLooking(c: Config, slots: seq<Slot>, p: int, pr: Proc)
    requires Ready(c, slots, p, pr) && pr.handler.Looking?
    ensures var (slots', pr') := HandlerStep(c, slots, p, pr); Kept(c, slots, slots', p, pr')
  {
    if FindPid(slots, p).Some? {
      RefreshGood(OwnMetrics(slots, p), pr.heap, pr.handler.q, c.maxNodes);
    }
  }

  lemma {:induction false} HandlerBump(c: Config, slots: seq<Slot>, p: int, pr: Proc)
    requires Ready(c, slots, p, pr) && pr.handler.Bump?
    ensures var (slots', pr') := HandlerStep(c, slots, p, pr); Kept(c, slots, slots', p, pr')
  {
    HeaderEdit(c, slots, pr.handler.i, Bumped(slots[pr.handler.i]), p);
  }

  lemma {:induction false} HandlerEntered(c: Config, slots: seq<Slot>, p: int, pr: Proc)
    requires Ready(c, slots, p, pr) && (pr.handler.Entered? || pr.handler.Counting?)
    ensures var (slots', pr') := HandlerStep(c, slots, p, pr); slots' == slots && ProcInv(c, slots, p, pr')
  {
  }

  /** Behind the last store of a refresh the records are fresh. */
  lemma {:induction false} HandlerRefreshed(c: Config, slots: seq<Slot>, p: int, pr: Proc, i: nat, q: QueryDesc)
    requires Ready(c, slots, p, pr) && pr.handler == Refreshing(i, q, [])
    ensures var (slots', pr') := HandlerStep(c, slots, p, pr); slots' == slots && ProcInv(c, slots, p, pr')
  {
    assert ApplyWrites(OwnMetrics(slots, p), []) == OwnMetrics(slots, p);
  }

  lemma {:induction false} HandlerKept(c: Config, slots: seq<Slot>, p: int, pr: Proc)
    requires Ready(c, slots, p, pr)
    ensures var (slots', pr') := HandlerStep(c, slots, p, pr); Kept(c, slots, slots', p, pr')
  {
    if pr.handler.Looking? {
      HandlerLooking(c, slots, p, pr);
    } else if pr.handler.Bump? {
      HandlerBump(c, slots, p, pr);
    } else if pr.handler.Refreshing? {
      if pr.handler.ws == [] {
        HandlerRefreshed(c, slots, p, pr, pr.handler.i, pr.handler.q);
      } else {
        HandlerStore(c, slots, p, pr, pr.handler.i, pr.handler.q, pr.handler.ws);
      }
    } else if pr.handler.Entered? || pr.handler.Counting? {
      HandlerEntered(c, slots, p, pr);
    }
  }

  lemma {:induction false} TurnKept(c: Config, w: World, p: int, s: Step)
    requires Inv(c, w) && Enabled(w, s) && p in w.procs
    requires s.Exit? || s.Begin? || s.End? || s.Abort? || s.SubAbort? || s.Fault? || s.Run? || s.Deliver?
    requires s.p == p
    ensures Turn(w.procs[p], s).Some? ==> ProcInv(c, w.slots, p, Turn(w.procs[p], s).value)
  {
    var pr := w.procs[p];
    assert ProcInv(c, w.slots, p, pr);
    match s
    case Run(_, h) => RunKept(c, w.slots, p, pr, h);
    case _ =>
  }

  lemma {:induction false} RunKept(c: Config, slots: seq<Slot>, p: int, pr: Proc, h: Heap)
    requires ProcInv(c, slots, p, pr) && pr.pc == Idle && pr.handler == Quiet && Grows(pr.heap, h)
    ensures ProcInv(c, slots, p, pr.(heap := h))
  {
    if pr.inFlight.Some? {
      SameShapePreorder(pr.heap, h, pr.inFlight.value.planstate, c.maxNodes);
    }
    if Live(pr) && FindPid(slots, p).Some? {
      GrownGood(OwnMetrics(slots, p), pr.heap, h, pr.desc.value, c.maxNodes);
    }
  }

  lemma {:induction false} ReapKept(c: Config, w: World, i: nat)
    requires Inv(c, w) && Enabled(w, Reap(i))
    ensures Inv(c, Next(c, w, Reap(i)))
  {
    var slots' := w.slots[i := Released(w.slots[i])];
    var dead := w.slots[i].pid;
    assert OwnEdit(w.slots, slots', i, dead);
    forall o | o in w.procs ensures ProcInv(c, slots', o, w.procs[o]) {
      OthersInv(c, w.slots, slots', dead, o, w.procs[o]);
    }
  }

  /** Every step keeps the invariant. */
  lemma {:induction false} StepKept(c: Config, w: World, s: Step)
    requires Inv(c, w) && Enabled(w, s)
    ensures WorldOk(c, w) && Inv(c, Next(c, w, s))
  {
    forall o | o in w.procs ensures ProcOk(c, w.slots, o, w.procs[o]) {
      assert ProcInv(c, w.slots, o, w.procs[o]);
    }
    if s.Reap? {
      ReapKept(c, w, s.i);
    } else {
      var p, w' := s.p, Next(c, w, s);
      if p in w.procs {
        assert ProcInv(c, w.slots, p, w.procs[p]);
        StepOfOwn(c, w, s);
      }
      forall o | o in w'.procs && o != p ensures ProcInv(c, w'.slots, o, w'.procs[o]) {
        assert ProcInv(c, w.slots, o, w.procs[o]);
        OthersInv(c, w.slots, w'.slots, p, o, w.procs[o]);
      }
    }
  }

  lemma {:induction false} StepOfOwn(c: Config, w: World, s: Step)
    requires Inv(c, w) && WorldOk(c, w) && Enabled(w, s) && !s.Reap? && s.p in w.procs
    ensures var w' := Next(c, w, s);
      && TableInv(c, w'.slots) && OwnChange(w.slots, w'.slots, s.p)
      && (s.p in w'.procs ==> ProcInv(c, w'.slots, s.p, w'.procs[s.p]))
  {
    var p := s.p;
    assert ProcInv(c, w.slots, p, w.procs[p]);
    match s
    case Main(_) => MainKept(c, w.slots, p, w.procs[p]);
    case Handle(_) => HandlerKept(c, w.slots, p, w.procs[p]);
    case Crash(_) =>
    case _ => TurnKept(c, w, p, s);
  }

  // ---- Runs -------------------------------------------------------------------------------------

  function Start(c: Config): World { World(BlankTable(c.slots, c.maxNodes), map[]) }

  ghost predicate Follows(c: Config, run: seq<World>, i: nat)
    requires i + 1 < |run|
  {
    exists s :: WorldOk(c, run[i]) && Enabled(run[i], s) && run[i + 1] == Next(c, run[i], s)
  }

  ghost predicate IsRun(c: Config, run: seq<World>) {
    && run != [] && run[0] == Start(c)
    && forall i :: 0 <= i < |run| - 1 ==> Follows(c, run, i)
  }

  lemma {:induction false} RunInv(c: Config, run: seq<World>, i: nat)
    requires IsRun(c, run) && i < |run|
    ensures Inv(c, run[i])
  {
    if i > 0 {
      RunInv(c, run, i - 1);
      assert Follows(c, run, i - 1);
      var s :| WorldOk(c, run[i - 1]) && Enabled(run[i - 1], s) && run[i] == Next(c, run[i - 1], s);
      StepKept(c, run[i - 1], s);
    }
  }

  /** Signal safety: whenever, in any run, a handler is refreshing slot i for query q, the slot is its own
      and only its own, q is the published query and the one in flight, the slot holds the preorder
      topology of q's plan, and every store still to come carries a counter of plan node j into record j. */
  lemma {:induction false} HandlerRefreshesOwnPlan(c: Config, run: seq<World>, k: nat, p: int)
    requires IsRun(c, run) && k < |run| && p in run[k].procs && run[k].procs[p].handler.Refreshing?
    ensures var pr := run[k].procs[p];
      var Refreshing(i, q, ws) := pr.handler;
      && pr.desc == pr.inFlight == Some(q) && Closed(pr.heap) && RefsIn(pr.heap, [q.planstate])
      && FindPid(run[k].slots, p) == Some(i)
      && (forall j :: 0 <= j < |run[k].slots| && run[k].slots[j].pid == p ==> j == i)
      && ShowsTopology(run[k].slots[i].metrics, pr.heap, Preorder(pr.heap, q.planstate, c.maxNodes))
      && AllFromPlan(ws, pr.heap, Preorder(pr.heap, q.planstate, c.maxNodes))
  {
    RunInv(c, run, k);
    assert ProcInv(c, run[k].slots, p, run[k].procs[p]);
    assert Unique(run[k].slots);
  }

  /** When the handler announces a refresh by bumping the generation, every instrumented node of the
      published plan shows exactly its own counters. */
  lemma {:induction false} RefreshIsCompleteAtBump(c: Config, run: seq<World>, k: nat, p: int)
    requires IsRun(c, run) && k < |run| && p in run[k].procs && run[k].procs[p].handler.Bump?
    ensures var pr := run[k].procs[p];
      var Bump(i, q) := pr.handler;
      && pr.desc == Some(q) && Closed(pr.heap) && RefsIn(pr.heap, [q.planstate])
      && FindPid(run[k].slots, p) == Some(i)
      && var es := Preorder(pr.heap, q.planstate, c.maxNodes);
        && |es| <= |run[k].slots[i].metrics|
        && forall j :: 0 <= j < |es| && es[j].item in pr.heap && pr.heap[es[j].item].instrument.Some? ==>
            ShowsInstrumentation(run[k].slots[i].metrics[j], pr.heap[es[j].item].instrument.value)
  {
    RunInv(c, run, k);
    var pr := run[k].procs[p];
    assert ProcInv(c, run[k].slots, p, pr);
    var Bump(i, q) := pr.handler;
    var es := Preorder(pr.heap, q.planstate, c.maxNodes);
    forall j | 0 <= j < |es| && es[j].item in pr.heap && pr.heap[es[j].item].instrument.Some?
      ensures Exact(run[k].slots[i].metrics[j], pr.heap[es[j].item])
    {
    }
  }

  /** Between statements of no hook a published query always has its slot, filled for its plan unless the
      query is gone. */
  lemma {:induction false} PublishedHasSlot(c: Config, run: seq<World>, k: nat, p: int)
    requires IsRun(c, run) && k < |run| && p in run[k].procs
    requires run[k].procs[p].pc == Idle && run[k].procs[p].desc.Some?
    ensures var pr := run[k].procs[p];
      && FindPid(run[k].slots, p).Some?
      && (!pr.dead ==>
            && pr.inFlight == pr.desc && Closed(pr.heap) && RefsIn(pr.heap, [pr.desc.value.planstate])
            && ShowsTopology(OwnMetrics(run[k].slots, p), pr.heap,
                Preorder(pr.heap, pr.desc.value.planstate, c.maxNodes)))
  {
    RunInv(c, run, k);
    assert ProcInv(c, run[k].slots, p, run[k].procs[p]);
  }

  /** Outside the handler its call count is the sum of its outcomes, and the PWH_SHMEM test never fails. */
  lemma {:induction false} HandlerCallsAccounted(c: Config, run: seq<World>, k: nat, p: int)
    requires IsRun(c, run) && k < |run| && p in run[k].procs && run[k].procs[p].handler == Quiet
    ensures var t := run[k].procs[p].tally;
      t.calls == t.success + t.noQueryDesc + t.shmemNull + t.noSlot && t.shmemNull == 0
  {
    RunInv(c, run, k);
    assert ProcInv(c, run[k].slots, p, run[k].procs[p]);
  }

  // ---- Exported counters never go backwards -----------------------------------------------------

  /** Process `p` has query `q` published and alive, and still names a slot. */
  ghost predicate Shows(w: World, p: int, q: QueryDesc) {
    p in w.procs && w.procs[p].desc == Some(q) && !w.procs[p].dead && FindPid(w.slots, p).Some?
  }

  lemma {:induction false} StepMonotone(c: Config, w: World, s: Step, p: int, q: QueryDesc)
    requires Inv(c, w) && WorldOk(c, w) && Enabled(w, s)
    requires Shows(w, p, q) && Shows(Next(c, w, s), p, q)
    ensures ExportGrows(w, Next(c, w, s), p)
  {
    var w' := Next(c, w, s);
    var pr := w.procs[p];
    var m := OwnMetrics(w.slots, p);
    assert ProcInv(c, w.slots, p, pr);
    if s == Main(p) {
      if pr.pc.Collecting? && pr.pc.ws != [] {
        StoreOwn(c, w.slots, pr.pc.i, pr.pc.ws[0], p);
        StoreGood(m, pr.pc.ws[0], pr.heap, q, c.maxNodes);
      } else if pr.pc.Freeing? {
        FreeOwn(c, w.slots, pr.pc.i, p);
      }
    } else if s == Handle(p) {
      if pr.handler.Refreshing? && pr.handler.ws != [] {
        StoreOwn(c, w.slots, pr.handler.i, pr.handler.ws[0], p);
        StoreGood(m, pr.handler.ws[0], pr.heap, q, c.maxNodes);
      } else if pr.handler.Bump? {
        HeaderEdit(c, w.slots, pr.handler.i, Bumped(w.slots[pr.handler.i]), p);
      }
    } else {
      OtherStepSame(c, w, s, p);
    }
  }

  lemma {:induction false} OtherStepSame(c: Config, w: World, s: Step, p: int)
    requires Inv(c, w) && WorldOk(c, w) && Enabled(w, s) && p in w.procs && s != Main(p) && s != Handle(p)
    ensures OwnMetrics(Next(c, w, s).slots, p) == OwnMetrics(w.slots, p)
  {
    var w' := Next(c, w, s);
    if s.Reap? {
      assert OwnEdit(w.slots, w'.slots, s.i, w.slots[s.i].pid);
      OthersSame(w.slots, w'.slots, w.slots[s.i].pid, p);
    } else if s.p != p && s.p in w.procs {
      StepOfOwn(c, w, s);
      OthersSame(w.slots, w'.slots, s.p, p);
    }
  }

  ghost predicate ExportGrows(w: World, w': World, p: int) {
    var m, m' := OwnMetrics(w.slots, p), OwnMetrics(w'.slots, p);
    |m| == |m'| && forall j :: 0 <= j < |m| ==> AtMost(m[j].execution, m'[j].execution)
  }

  /** As long as a query stays published and its slot is held, no exported tuple count, loop count or time
      of any node is ever smaller than it was before, at any point of any run. */
  lemma {:induction false} CountersNeverGoBack(c: Config, run: seq<World>, a: nat, b: nat, p: int, q: QueryDesc)
    requires IsRun(c, run) && a <= b < |run|
    requires forall k :: a <= k <= b ==> Shows(run[k], p, q)
    ensures var i, i' := FindPid(run[a].slots, p), FindPid(run[b].slots, p);
      i.Some? && i'.Some? &&
      var m, m' := run[a].slots[i.value].metrics, run[b].slots[i'.value].metrics;
      && |m| == |m'|
      && forall j :: 0 <= j < |m| ==>
           && m[j].execution.tuplesReturned <= m'[j].execution.tuplesReturned
           && m[j].execution.loopsExecuted <= m'[j].execution.loopsExecuted
           && m[j].execution.startupTimeUs <= m'[j].execution.startupTimeUs
           && m[j].execution.totalTimeUs <= m'[j].execution.totalTimeUs
  {
    RunMonotone(c, run, a, b, p, q);
    assert Shows(run[a], p, q) && Shows(run[b], p, q);
  }

  lemma {:induction false} RunMonotone(c: Config, run: seq<World>, a: nat, b: nat, p: int, q: QueryDesc)
    requires IsRun(c, run) && a <= b < |run|
    requires forall k :: a <= k <= b ==> Shows(run[k], p, q)
    ensures ExportGrows(run[a], run[b], p)
    decreases b
  {
    if a < b {
      RunMonotone(c, run, a, b - 1, p, q);
      LinkMonotone(c, run, b - 1, p, q);
      GrowthChains(run[a], run[b - 1], run[b], p);
    }
  }

  lemma {:induction false} LinkMonotone(c: Config, run: seq<World>, k: nat, p: int, q: QueryDesc)
    requires IsRun(c, run) && k + 1 < |run| && Shows(run[k], p, q) && Shows(run[k + 1], p, q)
    ensures ExportGrows(run[k], run[k + 1], p)
  {
    RunInv(c, run, k);
    assert Follows(c, run, k);
    var s :| WorldOk(c, run[k]) && Enabled(run[k], s) && run[k + 1] == Next(c, run[k], s);
    StepMonotone(c, run[k], s, p, q);
  }

  lemma {:induction false} GrowthChains(x: World, y: World, z: World, p: int)
    requires ExportGrows(x, y, p) && ExportGrows(y, z, p)
    ensures ExportGrows(x, z, p)
  {
    var m, n := OwnMetrics(x.slots, p), OwnMetrics(y.slots, p);
    forall j | 0 <= j < |m| ensures AtMost(m[j].execution, OwnMetrics(z.slots, p)[j].execution) {
      assert AtMost(m[j].execution, n[j].execution);
    }
  }

  /** No counter of `b` is below that of `a`, as far as they are exported as tuples, loops and times. */
  predicate RunsOn(a: Instrumentation, b: Instrumentation) {
    && a.ntuples + a.tuplecount <= b.ntuples + b.tuplecount && a.startup + a.firsttuple <= b.startup + b.firsttuple
    && a.nloops + (if a.running then 1.0 else 0.0) <= b.nloops + (if b.running then 1.0 else 0.0)
    && a.total + a.counter <= b.total + b.counter
  }

  /** `h'` is `h` with counters that have gone on, node by node. */
  ghost predicate HeapRunsOn(h: Heap, h': Heap) {
    && h.Keys == h'.Keys
    && forall a :: a in h ==>
         && h'[a] == h[a].(instrument := h'[a].instrument) && (h[a].instrument.Some? <==> h'[a].instrument.Some?)
         && (h[a].instrument.Some? ==> RunsOn(h[a].instrument.value, h'[a].instrument.value))
  }

  lemma {:induction false} RunsOnGrows(h: Heap, h': Heap)
    requires HeapRunsOn(h, h')
    ensures Grows(h, h')
  {
    forall a | a in h ensures AtMost(RunSoFar(h[a]), RunSoFar(h'[a])) {
    }
  }

  /** Instrumentation of a query that has not begun to run. */
  const AT_REST := Instrumentation(0.0, 0.0, 0.0, false, 0.0, 0.0, 0.0, 0.0, 0.0, 0.0, BufUsage(0, 0, 0, 0, 0, 0))

  ghost predicate CanStart(h: Heap, q: QueryDesc) {
    && Closed(h) && RefsIn(h, [q.planstate])
    && forall a :: a in h && h[a].instrument.Some? ==> RunsOn(AT_REST, h[a].instrument.value)
  }

  lemma {:induction false} CanStartOk(h: Heap, q: QueryDesc)
    requires CanStart(h, q)
    ensures PlanOk(h, q)
  {
    forall a | a in h ensures AtMost(NOTHING_RUN, RunSoFar(h[a])) {
    }
  }

  /** Nothing is kept from happening: a live process can crash at any moment, can be signalled whenever its handler
      is installed and not running, goes on with its handler or else its hook, and between hooks its query can run,
      end, or be aborted as a whole or in a subtransaction; the slot of a dead process can be reaped. */
  lemma {:induction false} NoEventExcluded(w: World, p: int, i: nat, h: Heap, q: QueryDesc)
    requires p in w.procs
    ensures var pr := w.procs[p];
      && Enabled(w, Crash(p))
      && (pr.hooked && pr.handler.Quiet? ==> Enabled(w, Deliver(p)))
      && (!pr.handler.Quiet? && !pr.handler.Astray? ==> Enabled(w, Handle(p)))
      && (pr.handler.Quiet? && !pr.pc.Idle? ==> Enabled(w, Main(p)))
      && (pr.handler.Quiet? && pr.pc.Idle? ==>
            && Enabled(w, Exit(p)) && Enabled(w, Abort(p))
            && (HeapRunsOn(pr.heap, h) ==> Enabled(w, Run(p, h)))
            && (pr.inFlight.Some? ==> Enabled(w, End(p)) && Enabled(w, SubAbort(p)))
            && (pr.inFlight.None? && CanStart(h, q) ==>
                Enabled(w, Begin(p, q, h, true)) && Enabled(w, Begin(p, q, h, false))))
    ensures i < |w.slots| && w.slots[i].pid != 0 && w.slots[i].pid !in w.procs ==> Enabled(w, Reap(i))
  {
    if HeapRunsOn(w.procs[p].heap, h) {
      RunsOnGrows(w.procs[p].heap, h);
    }
    if CanStart(h, q) {
      CanStartOk(h, q);
    }
  }
}
