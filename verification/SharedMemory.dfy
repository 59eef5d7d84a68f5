/** The shared table and the operations that scan it, on the memory itself. */
module SharedMemory {
  import opened Basics
  import opened Plans
  import opened NodeWrites
  import opened TwoPass
  import opened Slots
  import opened Lifecycle

  /** `-1U` kept in a u64: no free slot seen yet. */
  const NO_SLOT: nat := 0xFFFF_FFFF

  class BackendEntry {
    var pid: int
    var queryId: nat
    var generation: nat
    var startTime: int
    var count: nat
    var text: string
    const metrics: array<NodeMetrics>

    ghost function Record(): Slot
      reads this, metrics
    {
      Slot(pid, queryId, generation, startTime, count, text, metrics[..])
    }

    /** A zeroed entry. */
    constructor (max: nat)
      ensures Record() == Blank(max) && AllZero(Record()) && fresh(metrics)
    {
      pid, queryId, generation, startTime, count, text := 0, 0, 0, 0, 0, "";
      metrics := new NodeMetrics[max](_ => ZEROED);
    }

    /** Zeroes all bytes of the slot. */
    method Clear()
      modifies this, metrics
      ensures Record() == Blank(metrics.Length)
    {
      pid, queryId, generation, startTime, count, text := 0, 0, 0, 0, 0, "";
      for j := 0 to metrics.Length
        invariant pid == queryId == generation == startTime == count == 0 && text == ""
        invariant forall k :: 0 <= k < j ==> metrics[k] == ZEROED
      {
        metrics[j] := ZEROED;
      }
    }
  }

  /** `model` is the table as a value, with the history of every slot. */
  class Memory {
    const entries: seq<BackendEntry>
    const maxNodes: nat
    ghost var model: Shared

    ghost function Footprint(): set<object> {
      (set e: BackendEntry | e in entries :: e as object)
          + (set e: BackendEntry | e in entries :: e.metrics as object) + {this}
    }

    ghost predicate Distinct() {
      && (forall i, j :: 0 <= i < j < |entries| ==>
          entries[i] != entries[j] && entries[i].metrics != entries[j].metrics)
      && (forall i :: 0 <= i < |entries| ==> entries[i].metrics.Length == maxNodes)
    }

    ghost predicate Valid()
      reads Footprint()
    {
      && Distinct()
      && |entries| == |model.slots| < NO_SLOT
      && forall i :: 0 <= i < |entries| ==> model.slots[i] == entries[i].Record()
    }

    /** A region of memory, whatever it holds. */
    constructor (es: seq<BackendEntry>, max: nat)
      requires |es| < NO_SLOT
      requires forall i, j :: 0 <= i < j < |es| ==> es[i] != es[j] && es[i].metrics != es[j].metrics
      requires forall i :: 0 <= i < |es| ==> es[i].metrics.Length == max
      ensures Valid() && entries == es && maxNodes == max && model == Shared(Records(es, |es|), [])
    {
      entries, maxNodes := es, max;
      model := Shared(Records(es, |es|), []);
    }

    /** The startup hook: a region that was not found is zeroed slot by slot, a found one is taken as it is. */
    method Startup(found: bool)
      requires Valid()
      modifies Footprint()
      ensures Valid() && model == if found then old(model) else Shared(BlankTable(|entries|, maxNodes), [])
      ensures !found ==> forall i :: 0 <= i < |model.slots| ==> AllZero(model.slots[i])
    {
      if !found {
        for i := 0 to |entries|
          invariant Valid() && forall j :: 0 <= j < i ==> model.slots[j] == Blank(maxNodes)
        {
          entries[i].Clear();
          model := model.(slots := model.slots[i := Blank(maxNodes)]);
        }
        model := Shared(BlankTable(|entries|, maxNodes), []);
      }
    }

    /** pwh_get_or_create_my_backend_entry_impl. */
    method GetOrCreateEntry(me: int, shouldCreate: bool) returns (slot: Option<nat>)
      requires Valid() && me != 0
      modifies Footprint()
      ensures Valid() && (model, slot) == Claim(old(model), me, shouldCreate)
    {
      var free: nat := NO_SLOT;
      var i := 0;
      while i < |entries|
        invariant 0 <= i <= |entries| && Valid() && model == old(model)
        invariant forall j :: 0 <= j < i ==> model.slots[j].pid != me
        invariant free == NO_SLOT ==> forall j :: 0 <= j < i ==> model.slots[j].pid != 0
        invariant free != NO_SLOT ==> free < i && model.slots[free].pid == 0
        invariant free != NO_SLOT ==> forall j :: 0 <= j < free ==> model.slots[j].pid != 0
      {
        if free == NO_SLOT && entries[i].pid == 0 {
          free := i;
        } else if entries[i].pid == me {
          return Some(i);
        }
        i := i + 1;
      }
      if shouldCreate && free != NO_SLOT {
        StorePid(free, me);
        return Some(free);
      }
      return None;
    }

    method StorePid(i: nat, me: int)
      requires Valid() && i < |entries|
      modifies Footprint()
      ensures var sh := old(model);
        Valid() && model == Shared(sh.slots[i := sh.slots[i].(pid := me)], sh.log + [Claimed(i)])
    {
      assert entries[i] in entries && model.slots[i] == entries[i].Record();
      entries[i].pid := me;
      model := Shared(model.slots[i := model.slots[i].(pid := me)], model.log + [Claimed(i)]);
    }

    /** pwh_release_backend_entry_unlocked. */
    method ReleaseEntry(i: nat)
      requires Valid() && i < |entries| && Active(model.slots[i])
      modifies Footprint()
      ensures Valid() && model == Free(old(model), i)
    {
      assert entries[i] in entries;
      entries[i].pid := 0;
      entries[i].generation := Inc32(entries[i].generation);
      model := Free(model, i);
    }

    /** pwh_release_my_backend_entry, and the loop of backend_exit_callback. */
    method ReleaseMyEntry(me: int)
      requires Valid() && me != 0
      modifies Footprint()
      ensures Valid() && model == ReleaseMine(old(model), me)
    {
      var i := 0;
      while i < |entries|
        invariant 0 <= i <= |entries| && Valid() && model == old(model)
        invariant forall j :: 0 <= j < i ==> model.slots[j].pid != me
      {
        if entries[i].pid == me {
          ReleaseEntry(i);
          return;
        }
        i := i + 1;
      }
    }

    /** The handler's search for its own slot. */
    method FindEntry(me: int) returns (slot: Option<nat>)
      requires Valid()
      ensures slot == FindPid(model.slots, me)
    {
      var i := 0;
      while i < |entries|
        invariant 0 <= i <= |entries|
        invariant forall j :: 0 <= j < i ==> model.slots[j].pid != me
      {
        if entries[i].pid == me {
          return Some(i);
        }
        i := i + 1;
      }
      return None;
    }

    /** pwh_cleanup_orphaned_slots; `alive` are the pids the kernel knows. */
    method CleanupOrphans(alive: set<int>) returns (cleaned: nat)
      requires Valid()
      modifies Footprint()
      ensures Valid() && model == Reap(old(model), alive, |entries|)
      ensures cleaned == |model.log| - |old(model.log)|
    {
      cleaned := 0;
      var i := 0;
      while i < |entries|
        invariant 0 <= i <= |entries| && Valid()
        invariant model == Reap(old(model), alive, i)
        invariant cleaned == |model.log| - |old(model.log)|
      {
        var freed := CleanupEntry(i, alive);
        if freed {
          cleaned := cleaned + 1;
        }
        i := i + 1;
      }
    }

    /** One turn of that loop. */
    method CleanupEntry(i: nat, alive: set<int>) returns (freed: bool)
      requires Valid() && i < |entries|
      modifies Footprint()
      ensures var sh := old(model);
        && Valid() && freed == (Active(sh.slots[i]) && sh.slots[i].pid !in alive)
        && model == (if freed then Free(sh, i) else sh) && |model.log| == |sh.log| + (if freed then 1 else 0)
    {
      assert model.slots[i] == entries[i].Record();
      freed := false;
      if entries[i].pid != 0 {
        if entries[i].pid !in alive {
          ReleaseEntry(i);
          freed := true;
        }
      }
    }

    /** pwh_request_backend_metrics_unlocked: the pids signalled, which are those of the slots `at`, and how many
        were reached. Every active slot is among `at`, once and in slot order. */
    method RequestMetrics(alive: set<int>) returns (sent: seq<int>, reached: nat, ghost at: seq<nat>)
      requires Valid()
      ensures SentTo(model.slots, sent, at, |model.slots|)
      ensures forall p :: p in sent <==> p != 0 && exists i :: 0 <= i < |model.slots| && model.slots[i].pid == p
      ensures Unique(model.slots) ==> forall j, k :: 0 <= j < k < |sent| ==> sent[j] != sent[k]
      ensures reached == |set i: nat | i < |model.slots| && model.slots[i].pid != 0 && model.slots[i].pid in alive|
    {
      sent, reached, at := [], 0, [];
      var i := 0;
      while i < |entries|
        invariant 0 <= i <= |entries|
        invariant SentTo(model.slots, sent, at, i)
        invariant reached == |LiveBelow(model.slots, i, alive)|
      {
        SentNext(model.slots, sent, at, i);
        LiveNext(model.slots, i, alive);
        if entries[i].pid != 0 {
          sent, at := sent + [entries[i].pid], at + [i];
          if entries[i].pid in alive {
            reached := reached + 1;
          }
        }
        i := i + 1;
      }
      SentPids(model.slots, sent, at);
      assert LiveBelow(model.slots, |model.slots|, alive)
          == set j: nat | j < |model.slots| && model.slots[j].pid != 0 && model.slots[j].pid in alive;
    }

    /** The topology pass on the records of slot `i`, which an error may end at `failAt` nodes. */
    method RememberPlan(i: nat, h: Heap, r: Ref, failAt: Option<nat>) returns (n: nat, failed: bool)
      requires Valid() && i < |entries| && Closed(h) && RefsIn(h, [r])
      modifies Footprint()
      ensures Valid() && FailsIff(failed, failAt, |Preorder(h, r, maxNodes)|)
      ensures !failed ==> n == |Preorder(h, r, maxNodes)|
      ensures model == Stored(old(model), i,
                if failed then StoresOf(Topology, h, Cut(Preorder(h, r, maxNodes), failAt.value))
                else TopologyStores(h, r, maxNodes))
    {
      ghost var ws, depth;
      n, failed, ws, depth := Remember(h, r, entries[i].metrics, maxNodes, failAt);
      model := Stored(model, i, ws);
    }

    /** A refresh of the records of slot `i`, which an error may end at `failAt` nodes. */
    method CollectPlan(i: nat, h: Heap, r: Ref, failAt: Option<nat>) returns (failed: bool)
      requires Valid() && i < |entries| && Closed(h) && RefsIn(h, [r])
      modifies Footprint()
      ensures Valid() && |old(model).slots[i].metrics| == maxNodes
      ensures FailsIff(failed, failAt, |Refreshed(h, r, old(model).slots[i].metrics, maxNodes)|)
      ensures model == Stored(old(model), i,
                if failed then StoresOf(Refresh, h,
                    Cut(Refreshed(h, r, old(model).slots[i].metrics, maxNodes), failAt.value))
                else RefreshStores(h, r, old(model).slots[i].metrics, maxNodes))
    {
      ghost var ws, depth;
      failed, ws, depth := Collect(h, r, entries[i].metrics, maxNodes, failAt);
      model := Stored(model, i, ws);
    }

    /** The first `k` of the four header stores of the start hook. */
    method PublishHeader(i: nat, count: nat, q: QueryDesc, textLen: nat, k: nat)
      requires Valid() && i < |entries|
      modifies Footprint()
      ensures Valid()
      ensures var s := old(model).slots[i];
        model == old(model).(slots := old(model).slots[i := HeaderUpTo(s, q, count, textLen, k)])
      ensures k >= 4 ==> ShowsText(model.slots[i].text, q.sourceText, textLen)
    {
      StoredTextShows(q, textLen);
      if k >= 1 {
        entries[i].count := count % U32_SIZE;
      }
      if k >= 2 {
        entries[i].startTime := q.startedAt;
      }
      if k >= 3 {
        entries[i].queryId := q.queryId;
      }
      if k >= 4 {
        entries[i].text := StoredText(q, textLen);
      }
      model := model.(slots := model.slots[i := HeaderUpTo(model.slots[i], q, count, textLen, k)]);
    }

    /** The handler's announcement that slot `i` has been refreshed. */
    method BumpGeneration(i: nat)
      requires Valid() && i < |entries|
      modifies Footprint()
      ensures Valid()
      ensures var s := old(model).slots[i];
        model.slots == old(model).slots[i := s.(generation := Inc32(s.generation))]
      ensures model.log == old(model).log + [Polled(i)]
    {
      entries[i].generation := Inc32(entries[i].generation);
      model := Shared(model.slots[i := model.slots[i].(generation := Inc32(model.slots[i].generation))],
                      model.log + [Polled(i)]);
    }

    /** The handler's refresh of slot `i`. */
    method RefreshEntry(i: nat, h: Heap, r: Ref)
      requires Valid() && i < |entries| && Closed(h) && RefsIn(h, [r])
      modifies Footprint()
      ensures Valid()
      ensures model == Polling(old(model), i, RefreshStores(h, r, old(model).slots[i].metrics, maxNodes))
    {
      var _ := CollectPlan(i, h, r, None);
      BumpGeneration(i);
    }

    lemma {:induction false} RecordLength(i: nat)
      requires Valid() && i < |entries|
      ensures |model.slots[i].metrics| == maxNodes
    {
    }
  }

  /** What the first `n` slots hold. */
  ghost function Records(es: seq<BackendEntry>, n: nat): (rs: seq<Slot>)
    requires n <= |es|
    reads set e: BackendEntry | e in es :: e as object, set e: BackendEntry | e in es :: e.metrics as object
    ensures |rs| == n && forall i :: 0 <= i < n ==> rs[i] == es[i].Record()
  {
    if n == 0 then [] else Records(es, n - 1) + [es[n - 1].Record()]
  }

  /** `sent` are the pids of the slots `at`, which are the active ones of the first `n`, in slot order. */
  ghost predicate SentTo(slots: seq<Slot>, sent: seq<int>, at: seq<nat>, n: nat) {
    && |sent| == |at| && n <= |slots|
    && (forall k :: 0 <= k < |at| ==> at[k] < n && slots[at[k]].pid == sent[k] != 0)
    && (forall j, k :: 0 <= j < k < |at| ==> at[j] < at[k])
    && (forall i :: 0 <= i < n && slots[i].pid != 0 ==> i in at)
  }

  lemma {:induction false} SentNext(slots: seq<Slot>, sent: seq<int>, at: seq<nat>, i: nat)
    requires SentTo(slots, sent, at, i) && i < |slots|
    ensures if slots[i].pid != 0 then SentTo(slots, sent + [slots[i].pid], at + [i], i + 1)
            else SentTo(slots, sent, at, i + 1)
  {
    if slots[i].pid != 0 {
      var more := at + [i];
      forall j | 0 <= j < i + 1 && slots[j].pid != 0 ensures j in more {
        assert j < i ==> j in at;
        assert more[|at|] == i;
      }
    }
  }

  /** The slots below `n` whose pids are alive. */
  ghost function LiveBelow(slots: seq<Slot>, n: nat, alive: set<int>): set<nat>
    requires n <= |slots|
  {
    set j: nat | j < n && slots[j].pid != 0 && slots[j].pid in alive
  }

  lemma {:induction false} LiveNext(slots: seq<Slot>, i: nat, alive: set<int>)
    requires i < |slots|
    ensures |LiveBelow(slots, i + 1, alive)|
         == |LiveBelow(slots, i, alive)| + if slots[i].pid != 0 && slots[i].pid in alive then 1 else 0
  {
    var all, below := LiveBelow(slots, i + 1, alive), LiveBelow(slots, i, alive);
    assert i !in below && forall j :: j in all && j != i <==> j in below;
    if slots[i].pid != 0 && slots[i].pid in alive {
      assert all == below + {i};
    } else {
      assert all == below;
    }
  }

  lemma {:induction false} SentPids(slots: seq<Slot>, sent: seq<int>, at: seq<nat>)
    requires SentTo(slots, sent, at, |slots|)
    ensures forall p :: p in sent <==> p != 0 && exists i :: 0 <= i < |slots| && slots[i].pid == p
    ensures Unique(slots) ==> forall j, k :: 0 <= j < k < |sent| ==> sent[j] != sent[k]
  {
    forall p ensures p in sent <==> p != 0 && exists i :: 0 <= i < |slots| && slots[i].pid == p {
      if p in sent {
        var k :| 0 <= k < |sent| && sent[k] == p;
        assert slots[at[k]].pid == p;
      }
      if i :| p != 0 && 0 <= i < |slots| && slots[i].pid == p {
        var k :| 0 <= k < |at| && at[k] == i;
        assert sent[k] == p;
      }
    }
    if Unique(slots) {
      forall j, k | 0 <= j < k < |sent| ensures sent[j] != sent[k] {
        assert at[j] < at[k] && slots[at[j]].pid == sent[j] && slots[at[k]].pid == sent[k];
      }
    }
  }
}
