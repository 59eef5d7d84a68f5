/** The executor hooks, the callbacks and the signal handler of one backend process. */
module Tracker {
  import opened Basics
  import opened Plans
  import opened NodeWrites
  import opened TwoPass
  import opened Slots
  import opened Lifecycle
  import opened SharedMemory

  /** Where the guarded part of a hook raises an error: before it has its slot, at the entry of a recursive call
      of its walk, or behind the walk and `k` stores of the header. Errors come from the server. */
  datatype Raise = Never | First | InWalk(at: nat) | Behind(k: nat)

  class Process {
    const pid: int
    var currentQueryDesc: Option<QueryDesc>
    var wasInitialized: bool
    var wasHooked: bool
    var shmem: Memory?
    var tally: Tally

    ghost function State(): Backend
      reads this
    {
      Backend(currentQueryDesc, wasInitialized, wasHooked, shmem != null, tally)
    }

    /** The process sees the one shared table, or has not attached to it yet. */
    ghost predicate Sees(table: Memory)
      reads this
    {
      pid != 0 && (shmem == null || shmem == table) && (wasInitialized ==> shmem == table)
    }

    constructor (me: int, inherited: Memory?)
      requires me != 0
      ensures pid == me && shmem == inherited && State() == Backend(None, false, false, inherited != null, NEWBORN)
    {
      pid, currentQueryDesc, wasInitialized, wasHooked, shmem := me, None, false, false, inherited;
      tally := NEWBORN;
    }

    /** backend_exit_callback. */
    method ExitCallback(table: Memory)
      requires Sees(table) && table.Valid() && this !in table.Footprint()
      modifies this`wasInitialized, table.Footprint()
      ensures Sees(table) && table.Valid() && table.model == ReleaseMine(old(table.model), pid)
      ensures State() == old(State()).(initialized := false)
    {
      table.ReleaseMyEntry(pid);
      wasInitialized := false;
    }

    /** The guarded part of the start hook. */
    method TryTrack(c: Settings, table: Memory, h: Heap, q: QueryDesc, raise: Raise)
      returns (failed: bool, ghost fault: Fault)
      requires Sees(table) && table.Valid() && this !in table.Footprint()
      requires Closed(h) && RefsIn(h, [q.planstate])
      modifies this`currentQueryDesc, table.Footprint()
      ensures Sees(table) && table.Valid() && IsFault(fault, raise, StartNodes(h, q, table.maxNodes), Topology, h)
      ensures (table.model, State(), failed) == TryStart(c, old(table.model), pid, old(State()), q,
                TopologyStores(h, q.planstate, table.maxNodes), |StartNodes(h, q, table.maxNodes)|, fault)
    {
      fault := FaultAt(raise, StartNodes(h, q, table.maxNodes), Topology, h);
      if raise.First? {
        return true, fault;
      }
      var be := table.GetOrCreateEntry(pid, true);
      if be.None? {
        return false, fault;
      }
      failed, fault := FillSlot(c, table, be.value, h, q, raise);
    }

    /** Records the plan in slot `i`, fills its header and sets the current query. */
    method FillSlot(c: Settings, table: Memory, i: nat, h: Heap, q: QueryDesc, raise: Raise)
      returns (failed: bool, ghost fault: Fault)
      requires table.Valid() && this !in table.Footprint() && i < |table.entries| && !raise.First?
      requires Closed(h) && RefsIn(h, [q.planstate])
      modifies this`currentQueryDesc, table.Footprint()
      ensures table.Valid() && failed == !fault.NoFault?
      ensures !fault.AtOnce? && IsFault(fault, raise, StartNodes(h, q, table.maxNodes), Topology, h)
      ensures currentQueryDesc == if failed then old(currentQueryDesc) else Some(q)
      ensures var ws, sh := TopologyStores(h, q.planstate, table.maxNodes), old(table.model);
        table.model == sh.(slots := sh.slots[i :=
          Begun(sh.slots[i], q, ws, |StartNodes(h, q, table.maxNodes)|, c.textLen, fault)])
    {
      ghost var es, ws := StartNodes(h, q, table.maxNodes), TopologyStores(h, q.planstate, table.maxNodes);
      PreorderVisible(h, q.planstate, table.maxNodes);
      var numNodes, raised := table.RememberPlan(i, h, q.planstate, if raise.InWalk? then Some(raise.at) else None);
      if raised {
        StoresPrefix(Topology, h, es, raise.at);
        return true, FaultAt(raise, es, Topology, h);
      }
      HeaderAfterStores(old(table.model), i, q, ws, numNodes, c.textLen, if raise.Behind? then raise.k else 4);
      if raise.Behind? {
        table.PublishHeader(i, numNodes, q, c.textLen, raise.k);
        return true, FaultAt(raise, es, Topology, h);
      }
      table.PublishHeader(i, numNodes, q, c.textLen, 4);
      currentQueryDesc := Some(q);
      return false, NoFault;
    }

    /** query_start_hook, after the executor has built the plan states `h`. */
    method QueryStart(c: Settings, table: Memory, h: Heap, q: QueryDesc, raise: Raise) returns (ghost fault: Fault)
      requires Sees(table) && table.Valid() && this !in table.Footprint()
      requires Closed(h) && RefsIn(h, [q.planstate])
      modifies this, table.Footprint()
      ensures Sees(table) && table.Valid() && IsFault(fault, raise, StartNodes(h, q, table.maxNodes), Topology, h)
      ensures (table.model, State()) == StartHook(c, old(table.model), pid, old(State()), q,
                TopologyStores(h, q.planstate, table.maxNodes), |StartNodes(h, q, table.maxNodes)|, fault)
    {
      fault := FaultAt(raise, StartNodes(h, q, table.maxNodes), Topology, h);
      if q.cost < c.minCost {
        return;
      }
      if !wasInitialized {
        wasHooked, shmem, wasInitialized := true, table, true;
      }
      var failed;
      failed, fault := TryTrack(c, table, h, q, raise);
      if failed {
        currentQueryDesc := None;
        ExitCallback(table);
      }
    }

    /** query_end_hook. */
    method QueryEnd(table: Memory, h: Heap, q: QueryDesc, raise: Raise) returns (ghost fault: Fault)
      requires Sees(table) && table.Valid() && this !in table.Footprint()
      requires Closed(h) && RefsIn(h, [q.planstate])
      modifies this`currentQueryDesc, table.Footprint()
      ensures Sees(table) && table.Valid()
      ensures IsFault(fault, raise, EndNodes(old(table.model), pid, h, q, table.maxNodes), Refresh, h)
      ensures (table.model, State()) == EndHook(old(table.model), pid, old(State()),
                EndStores(old(table.model), pid, h, q, table.maxNodes), fault)
    {
      fault := FaultAt(raise, EndNodes(table.model, pid, h, q, table.maxNodes), Refresh, h);
      if !wasInitialized {
        return;
      }
      if raise.First? {
        currentQueryDesc := None;
        return;
      }
      var be := table.GetOrCreateEntry(pid, false);
      if be.Some? {
        fault := EndOwn(table, be.value, h, q, raise);
        currentQueryDesc := None;
      }
    }

    /** The final refresh and the release of the own slot `i`. */
    method EndOwn(table: Memory, i: nat, h: Heap, q: QueryDesc, raise: Raise) returns (ghost fault: Fault)
      requires table.Valid() && this !in table.Footprint() && !raise.First?
      requires FindPid(table.model.slots, pid) == Some(i) && pid != 0 && Closed(h) && RefsIn(h, [q.planstate])
      modifies table.Footprint()
      ensures table.Valid() && !fault.AtOnce?
      ensures IsFault(fault, raise, EndNodes(old(table.model), pid, h, q, table.maxNodes), Refresh, h)
      ensures var sh, ws := old(table.model), EndStores(old(table.model), pid, h, q, table.maxNodes);
        table.model == if fault.NoFault? then Free(Stored(sh, i, ws), i) else Stored(sh, i, Reached(ws, fault))
    {
      ghost var es := EndNodes(table.model, pid, h, q, table.maxNodes);
      table.RecordLength(i);
      EndNodesVisible(table.model, pid, h, q, table.maxNodes);
      var raised := table.CollectPlan(i, h, q.planstate, if raise.InWalk? then Some(raise.at) else None);
      if raised {
        StoresPrefix(Refresh, h, es, raise.at);
        return FaultAt(raise, es, Refresh, h);
      }
      if raise.Behind? {
        return FaultAt(raise, es, Refresh, h);
      }
      table.ReleaseEntry(i);
      return NoFault;
    }

    /** query_cleanup_callback. */
    method XactCallback(table: Memory, isAbort: bool)
      requires Sees(table) && table.Valid() && this !in table.Footprint() && wasHooked
      modifies this`currentQueryDesc, table.Footprint()
      ensures Sees(table) && table.Valid()
      ensures isAbort ==> (table.model, State()) == AbortHook(old(table.model), pid, old(State()))
      ensures !isAbort ==> table.model == old(table.model) && State() == old(State())
    {
      if !isAbort {
        return;
      }
      currentQueryDesc := None;
      table.ReleaseMyEntry(pid);
    }

    /** pwh_sigusr2_handler, while the plan states of the current query are `h`. */
    method HandleSignal(table: Memory, h: Heap)
      requires Sees(table) && table.Valid() && this !in table.Footprint() && Closed(h)
      requires currentQueryDesc.Some? ==> RefsIn(h, [currentQueryDesc.value.planstate])
      modifies this`tally, table.Footprint()
      ensures Sees(table) && table.Valid()
      ensures (table.model, State()) == SignalHandler(old(table.model), pid, old(State()),
                if old(currentQueryDesc).None? then []
                else EndStores(old(table.model), pid, h, old(currentQueryDesc).value, table.maxNodes))
    {
      ghost var sh, b := table.model, State();
      tally := tally.(calls := tally.calls + 1);
      if currentQueryDesc.None? || currentQueryDesc.value.planstate.None? {
        tally := tally.(noQueryDesc := tally.noQueryDesc + 1);
        return;
      }
      if shmem == null {
        tally := tally.(shmemNull := tally.shmemNull + 1);
        return;
      }
      ghost var ws := EndStores(sh, pid, h, currentQueryDesc.value, table.maxNodes);
      RefreshCounted(table, h, currentQueryDesc.value);
      assert table.model == SignalHandler(sh, pid, b, ws).0;
      assert State() == SignalHandler(sh, pid, b, ws).1;
    }

    /** What the handler does once it knows the query and the table. */
    method RefreshCounted(table: Memory, h: Heap, q: QueryDesc)
      requires Sees(table) && table.Valid() && this !in table.Footprint() && Closed(h) && RefsIn(h, [q.planstate])
      modifies this`tally, table.Footprint()
      ensures Sees(table) && table.Valid()
      ensures var own, sh, t := FindPid(old(table.model).slots, pid), old(table.model), old(tally);
        && table.model == (if own.Some? then Polling(sh, own.value, EndStores(sh, pid, h, q, table.maxNodes)) else sh)
        && tally == (if own.Some? then t.(success := t.success + 1) else t.(noSlot := t.noSlot + 1))
    {
      var refreshed := RefreshOwn(table, h, q);
      if refreshed {
        tally := tally.(success := tally.success + 1);
      } else {
        tally := tally.(noSlot := tally.noSlot + 1);
      }
    }

    /** The handler's search for its slot and the refresh of what it found. */
    method RefreshOwn(table: Memory, h: Heap, q: QueryDesc) returns (found: bool)
      requires table.Valid() && this !in table.Footprint() && Closed(h) && RefsIn(h, [q.planstate])
      modifies table.Footprint()
      ensures table.Valid()
      ensures var own, sh := FindPid(old(table.model).slots, pid), old(table.model);
        && found == own.Some?
        && table.model == if found then Polling(sh, own.value, EndStores(sh, pid, h, q, table.maxNodes)) else sh
    {
      var entry := table.FindEntry(pid);
      if entry.None? {
        return false;
      }
      table.RecordLength(entry.value);
      table.RefreshEntry(entry.value, h, q.planstate);
      return true;
    }
  }

  /** The nodes that the start hook records, and those that a refresh of the caller's own slot reaches. */
  ghost function StartNodes(h: Heap, q: QueryDesc, max: nat): seq<Entry<nat>>
    requires Closed(h) && RefsIn(h, [q.planstate])
  {
    Preorder(h, q.planstate, max)
  }

  ghost function EndNodes(sh: Shared, p: int, h: Heap, q: QueryDesc, max: nat): seq<Entry<nat>>
    requires Closed(h) && RefsIn(h, [q.planstate])
  {
    var own := FindPid(sh.slots, p);
    if own.Some? && |sh.slots[own.value].metrics| == max then
      Refreshed(h, q.planstate, sh.slots[own.value].metrics, max)
    else []
  }

  lemma {:induction false} EndNodesVisible(sh: Shared, p: int, h: Heap, q: QueryDesc, max: nat)
    requires Closed(h) && RefsIn(h, [q.planstate])
    ensures AllVisible(h, EndNodes(sh, p, h, q, max))
    ensures EndStores(sh, p, h, q, max) == StoresOf(Refresh, h, EndNodes(sh, p, h, q, max))
  {
    PreorderVisible(h, q.planstate, max);
  }

  /** The stores of a refresh of the caller's own slot. */
  ghost function EndStores(sh: Shared, p: int, h: Heap, q: QueryDesc, max: nat): seq<Write>
    requires Closed(h) && RefsIn(h, [q.planstate])
  {
    var own := FindPid(sh.slots, p);
    if own.Some? && |sh.slots[own.value].metrics| == max then
      RefreshStores(h, q.planstate, sh.slots[own.value].metrics, max)
    else []
  }

  /** What an error at this point leaves of a walk over `es`. */
  ghost function FaultAt(raise: Raise, es: seq<Entry<nat>>, v: Visitor, h: Heap): Fault {
    match raise
    case Never => NoFault
    case First => AtOnce
    case InWalk(at) => if at <= |es| then AfterStores(|StoresOf(v, h, Cut(es, at))|) else NoFault
    case Behind(k) => AfterHeader(k)
  }

  /** `fault` is what the point leaves. When all nodes have been visited the walk may make further calls, for
      children without a plan, or none, so an error at that point may be raised or not. */
  ghost predicate IsFault(fault: Fault, raise: Raise, es: seq<Entry<nat>>, v: Visitor, h: Heap) {
    fault == FaultAt(raise, es, v, h) || (raise.InWalk? && raise.at == |es| && fault.NoFault?)
  }

  /** What a successful tracked start shows to pollers: the caller's pid, the query's id, its truncated
      text, the node count, and its plan in preorder with all counters at zero. */
  lemma {:induction false} StartShowsQuery(c: Settings, sh: Shared, p: int, b: Backend, h: Heap, q: QueryDesc, max: nat)
    requires p != 0 && q.cost >= c.minCost && max < U32_SIZE
    requires Closed(h) && RefsIn(h, [q.planstate])
    requires forall i :: 0 <= i < |sh.slots| ==> |sh.slots[i].metrics| == max
    requires FindPid(sh.slots, p).Some? || FindPid(sh.slots, 0).Some?
    ensures var es := Preorder(h, q.planstate, max);
      var (sh', b') := StartHook(c, sh, p, b, q, TopologyStores(h, q.planstate, max), |es|, NoFault);
      && b'.desc == Some(q) && b'.hooked == (b.hooked || !b.initialized)
      && exists i: nat :: i < |sh'.slots| && ShowsQuery(sh'.slots[i], p, q, c, h, es)
          && forall j :: 0 <= j < |sh.slots| && j != i ==> sh'.slots[j] == sh.slots[j]
  {
    var es := Preorder(h, q.planstate, max);
    var (sh1, got) := Claim(sh, p, true);
    var i := got.value;
    PublishedShows(c, sh1.slots[i], p, h, q, max);
    var sh' := StartHook(c, sh, p, b, q, TopologyStores(h, q.planstate, max), |es|, NoFault).0;
    assert ShowsQuery(sh'.slots[i], p, q, c, h, es);
  }

  lemma {:induction false} PublishedShows(c: Settings, s: Slot, p: int, h: Heap, q: QueryDesc, max: nat)
    requires s.pid == p && |s.metrics| == max < U32_SIZE && Closed(h) && RefsIn(h, [q.planstate])
    ensures var es := Preorder(h, q.planstate, max);
      ShowsQuery(Published(s, q, TopologyStores(h, q.planstate, max), |es|, c.textLen), p, q, c, h, es)
  {
    TopologyPass(h, q.planstate, s.metrics, max);
    StoredTextShows(q, c.textLen);
  }

  ghost predicate ShowsQuery(s: Slot, p: int, q: QueryDesc, c: Settings, h: Heap, es: seq<Entry<nat>>) {
    && s.pid == p && s.queryId == q.queryId && s.startTime == q.startedAt && s.count == |es|
    && ShowsText(s.text, q.sourceText, c.textLen)
    && ShowsTopology(s.metrics, h, es)
    && forall j :: 0 <= j < |es| ==> s.metrics[j].execution == NOTHING_RUN && s.metrics[j].bufferUsage == NOTHING_READ
  }
}
