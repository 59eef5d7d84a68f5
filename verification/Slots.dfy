/** Slot records of the shared table and the operations on whole tables that hold the search lock. */
module Slots {
  import opened Basics
  import opened Plans
  import opened NodeWrites

  /** `pid` is 0 while the slot is free; `generation` is a u32. */
  datatype Slot = Slot(
    pid: int, queryId: nat, generation: nat, startTime: int, count: nat, text: string, metrics: seq<NodeMetrics>)

  /** What the hooks read of a query: its descriptor, the resolved identifier, and the clock at its start. */
  datatype QueryDesc = QueryDesc(
    planstate: Ref, cost: real, queryId: nat, sourceText: Option<string>, startedAt: int)

  /** The handler's counters: its calls and the four outcomes. */
  datatype Tally = Tally(calls: nat, success: nat, noQueryDesc: nat, shmemNull: nat, noSlot: nat)

  const NEWBORN := Tally(0, 0, 0, 0, 0)

  predicate Active(s: Slot) { s.pid != 0 }

  /** The first slot with this pid. */
  function FindPid(slots: seq<Slot>, pid: int): (r: Option<nat>)
    ensures r.None? ==> forall i :: 0 <= i < |slots| ==> slots[i].pid != pid
    ensures r.Some? ==> r.value < |slots| && slots[r.value].pid == pid
    ensures r.Some? ==> forall i :: 0 <= i < r.value ==> slots[i].pid != pid
    decreases |slots|
  {
    if slots == [] then None
    else
      var before := FindPid(slots[..|slots| - 1], pid);
      if before.Some? then before
      else if slots[|slots| - 1].pid == pid then Some(|slots| - 1) else None
  }

  /** No pid labels two slots. */
  ghost predicate Unique(slots: seq<Slot>) {
    forall i, j :: 0 <= i < j < |slots| && slots[i].pid == slots[j].pid ==> slots[i].pid == 0
  }

  function Released(s: Slot): Slot { s.(pid := 0, generation := Inc32(s.generation)) }

  const ZEROED := NodeMetrics(0, 0, 0, NOTHING_RUN, NOTHING_READ, 0)

  /** A slot as the startup hook leaves it: all bytes zero. */
  function Blank(max: nat): Slot { Slot(0, 0, 0, 0, 0, "", seq(max, _ => ZEROED)) }

  /** Every field and every field of every record is zero. */
  predicate AllZero(s: Slot) {
    && s.pid == s.queryId == s.generation == s.startTime == s.count == 0 && s.text == ""
    && forall j :: 0 <= j < |s.metrics| ==>
         var n := s.metrics[j];
         && n.tag == n.nodeId == n.parentId == n.magic == 0
         && n.execution == Execution(0.0, 0.0, 0.0, 0.0, 0.0, 0.0) && n.bufferUsage == BufferUsage(0, 0, 0, 0, 0, 0)
  }

  /** The slot, or a blank one behind the last. */
  function SlotAt(slots: seq<Slot>, i: nat): Slot { if i < |slots| then slots[i] else Blank(0) }

  function BlankTable(n: nat, max: nat): seq<Slot> { seq(n, _ => Blank(max)) }

  lemma {:induction false} FindPidKept(slots: seq<Slot>, i: nat, s: Slot, pid: int)
    requires i < |slots| && (slots[i].pid == pid <==> s.pid == pid)
    ensures FindPid(slots[i := s], pid) == FindPid(slots, pid)
  {
    var a, b := FindPid(slots, pid), FindPid(slots[i := s], pid);
    if a.Some? {
      assert slots[i := s][a.value].pid == pid;
    }
    if b.Some? {
      assert slots[b.value].pid == pid;
    }
  }

  /** snprintf keeps at most `textLen - 1` bytes. */
  function StoredText(q: QueryDesc, textLen: nat): string {
    match q.sourceText case None => "" case Some(t) => Cut(t, if textLen > 0 then textLen - 1 else 0)
  }

  /** `text` is the source text as far as it fits an area of `textLen` bytes beside its NUL. */
  predicate ShowsText(text: string, source: Option<string>, textLen: nat) {
    match source
    case None => text == ""
    case Some(t) => text <= t && |text| == (if |t| < textLen then |t| else if textLen == 0 then 0 else textLen - 1)
  }

  lemma {:induction false} StoredTextShows(q: QueryDesc, textLen: nat)
    ensures ShowsText(StoredText(q, textLen), q.sourceText, textLen)
  {
  }
}
