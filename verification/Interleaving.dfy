/** The slot table at the grain of single reads and writes. The table lock is held in shared mode by
    every step below, so it orders nothing: any process may run between any two accesses of another. */
module Interleaving {
  import opened Basics
  import opened Plans
  import opened NodeWrites
  import opened TwoPass
  import opened Slots

  /** What a hook does with the slot it is looking for: fill it for a query, or refresh it a last time. */
  datatype Job = Track(h: Heap, r: Ref) | Finish(ws: seq<Write>)

  /** What follows the stores of a pass: the number of nodes, or the release of the slot. */
  datatype Ending = Publish(count: nat) | Release

  datatype Pc =
    | Idle
    | Scanning(job: Job, next: nat, free: Option<nat>)   // reads the pid of slot `next`
    | Claiming(job: Job, target: nat)                    // about to write its pid
    | Checking(slot: nat, ws: seq<Write>)                // the end hook looks once more whether its slot is active
    | Storing(slot: nat, ws: seq<Write>, done: nat, ending: Ending)
    | Counting(slot: nat, count: nat)                    // about to publish the number of nodes
    | Publishing(slot: nat)                              // about to set the current query, which is private
    | Searching(next: nat)                               // looks for its slot in order to release it
    | Zeroing(slot: nat)                                 // about to write pid 0
    | Ageing(slot: nat)                                  // about to write the generation

  /** The signal handler, while it has interrupted its process. */
  datatype Handler =
    | Seeking(ws: seq<Write>, next: nat)
    | Refreshing(slot: nat, ws: seq<Write>, done: nat)
    | Bumping(slot: nat)

  /** The reaper: it has read the pid of a slot, found its process dead, or freed the slot. */
  datatype Reaper = Resting | Read(slot: nat, pid: int) | Sentenced(slot: nat) | Freed(slot: nat)

  datatype Table = Table(slots: seq<Slot>, procs: map<int, Pc>, handlers: map<int, Handler>, reaper: Reaper)

  datatype Step =
    | Spawn(p: int) | Die(p: int)
    | Begin(p: int, job: Job) | Leave(p: int) | Move(p: int) | Raise(p: int)
    | Interrupt(p: int, ws: seq<Write>) | Handle(p: int)
    | ReaperRead(slot: nat) | ReaperMove

  predicate CountersOnly(ws: seq<Write>) { forall i :: 0 <= i < |ws| ==> CounterOp(ws[i].op) }

  predicate JobOk(job: Job, max: nat) {
    match job
    case Track(h, r) => Closed(h) && RefsIn(h, [r]) && max < 0x8000_0000
    case Finish(ws) => CountersOnly(ws)
  }

  /** A process whose handler runs makes no step of its own until the handler has returned. */
  predicate Enabled(w: Table, s: Step, max: nat) {
    match s
    case Spawn(p) => p != 0 && p !in w.procs
    case Die(p) => p in w.procs
    case Begin(p, job) => p in w.procs && p !in w.handlers && w.procs[p] == Idle && JobOk(job, max)
    case Leave(p) => p in w.procs && p !in w.handlers && w.procs[p] == Idle
    case Move(p) => p in w.procs && p !in w.handlers && w.procs[p] != Idle
    case Raise(p) => p in w.procs && p !in w.handlers && Guarded(w.procs[p])
    case Interrupt(p, ws) => p in w.procs && p !in w.handlers && CountersOnly(ws)
    case Handle(p) => p in w.handlers
    case ReaperRead(i) => w.reaper.Resting? && i < |w.slots| && w.slots[i].pid != 0
    case ReaperMove => !w.reaper.Resting?
  }

  /** Inside the guarded part of a hook, where an error may be raised. */
  predicate Guarded(pc: Pc) {
    pc.Scanning? || pc.Claiming? || pc.Checking? || pc.Storing? || pc.Counting? || pc.Publishing?
  }

  /** The catch blocks: a failed start releases its slot, a failed end does not. */
  function Caught(pc: Pc): Pc
    requires Guarded(pc)
  {
    match pc
    case Scanning(job, _, _) => if job.Track? then Searching(0) else Idle
    case Claiming(_, _) => Searching(0)
    case Checking(_, _) => Idle
    case Storing(_, _, _, ending) => if ending.Publish? then Searching(0) else Idle
    case Counting(_, _) => Searching(0)
    case Publishing(_) => Searching(0)
  }

  function PutSlot(w: Table, i: nat, s: Slot): Table {
    if i < |w.slots| then w.(slots := w.slots[i := s]) else w
  }

  function PutPc(w: Table, p: int, pc: Pc): Table { w.(procs := w.procs[p := pc]) }

  /** What a job does on the slot it got. */
  function StartJob(slot: nat, job: Job, max: nat): Pc
    requires JobOk(job, max)
  {
    match job
    case Track(h, r) => Storing(slot, TopologyStores(h, r, max), 0, Publish(|Preorder(h, r, max)|))
    case Finish(ws) => Checking(slot, ws)
  }

  ghost predicate PcOk(pc: Pc, max: nat) {
    match pc
    case Scanning(job, _, _) => JobOk(job, max)
    case Claiming(job, _) => JobOk(job, max)
    case Storing(_, ws, done, _) => done <= |ws|
    case _ => true
  }

  ghost predicate PcsOk(w: Table, max: nat) {
    forall p :: p in w.procs ==> PcOk(w.procs[p], max)
  }

  /** One access of process `p`. */
  ghost function MoveStep(w: Table, p: int, max: nat): Table
    requires p in w.procs && PcOk(w.procs[p], max)
  {
    match w.procs[p]
    case Idle => w
    case Scanning(job, next, free) =>
      if next < |w.slots| then
        var pid := w.slots[next].pid;
        if free.None? && pid == 0 then PutPc(w, p, Scanning(job, next + 1, Some(next)))
        else if pid == p then PutPc(w, p, StartJob(next, job, max))
        else PutPc(w, p, Scanning(job, next + 1, free))
      else if job.Track? && free.Some? then PutPc(w, p, Claiming(job, free.value))
      else PutPc(w, p, Idle)
    case Claiming(job, target) =>
      PutPc(PutSlot(w, target, SlotAt(w.slots, target).(pid := p)), p, StartJob(target, job, max))
    case Checking(slot, ws) =>
      PutPc(w, p, if SlotAt(w.slots, slot).pid != 0 then Storing(slot, ws, 0, Release) else Idle)
    case Storing(slot, ws, done, ending) =>
      if done < |ws| then PutPc(StoreStep(w, slot, ws[done]), p, Storing(slot, ws, done + 1, ending))
      else PutPc(w, p, if ending.Publish? then Counting(slot, ending.count) else Zeroing(slot))
    case Counting(slot, n) => PutPc(PutSlot(w, slot, SlotAt(w.slots, slot).(count := n)), p, Publishing(slot))
    case Publishing(_) => PutPc(w, p, Idle)
    case Searching(next) =>
      PutPc(w, p, if next >= |w.slots| then Idle
                  else if w.slots[next].pid == p then Zeroing(next) else Searching(next + 1))
    case Zeroing(slot) => PutPc(PutSlot(w, slot, SlotAt(w.slots, slot).(pid := 0)), p, Ageing(slot))
    case Ageing(slot) => PutPc(AgeStep(w, slot), p, Idle)
  }

  function StoreStep(w: Table, slot: nat, x: Write): Table {
    var s := SlotAt(w.slots, slot);
    PutSlot(w, slot, s.(metrics := ApplyWrite(s.metrics, x)))
  }

  function AgeStep(w: Table, slot: nat): Table {
    var s := SlotAt(w.slots, slot);
    PutSlot(w, slot, s.(generation := Inc32(s.generation)))
  }

  /** One access of the handler of process `p`. */
  function HandlerStep(w: Table, p: int): Table
    requires p in w.handlers
  {
    match w.handlers[p]
    case Seeking(ws, next) =>
      if next >= |w.slots| then w.(handlers := w.handlers - {p})
      else if w.slots[next].pid == p then w.(handlers := w.handlers[p := Refreshing(next, ws, 0)])
      else w.(handlers := w.handlers[p := Seeking(ws, next + 1)])
    case Refreshing(slot, ws, done) =>
      if done < |ws| then StoreStep(w, slot, ws[done]).(handlers := w.handlers[p := Refreshing(slot, ws, done + 1)])
      else w.(handlers := w.handlers[p := Bumping(slot)])
    case Bumping(slot) => AgeStep(w, slot).(handlers := w.handlers - {p})
  }

  /** The reaper tests the pid it read, and writes the two fields of a release one after the other. */
  function ReaperStep(w: Table): Table
    requires !w.reaper.Resting?
  {
    match w.reaper
    case Read(slot, pid) => w.(reaper := if pid in w.procs then Resting else Sentenced(slot))
    case Sentenced(slot) => PutSlot(w, slot, SlotAt(w.slots, slot).(pid := 0)).(reaper := Freed(slot))
    case Freed(slot) => AgeStep(w, slot).(reaper := Resting)
  }

  ghost function Next(w: Table, s: Step, max: nat): Table
    requires PcsOk(w, max) && Enabled(w, s, max)
  {
    match s
    case Spawn(p) => PutPc(w, p, Idle).(handlers := w.handlers - {p})
    case Die(p) => w.(procs := w.procs - {p}, handlers := w.handlers - {p})
    case Begin(p, job) => PutPc(w, p, Scanning(job, 0, None))
    case Leave(p) => PutPc(w, p, Searching(0))
    case Move(p) => MoveStep(w, p, max)
    case Raise(p) => PutPc(w, p, Caught(w.procs[p]))
    case Interrupt(p, ws) => w.(handlers := w.handlers[p := Seeking(ws, 0)])
    case Handle(p) => HandlerStep(w, p)
    case ReaperRead(i) => w.(reaper := Read(i, w.slots[i].pid))
    case ReaperMove => ReaperStep(w)
  }

  /** Nothing is kept from happening: a live process can die at any moment, be interrupted whenever no handler of
      its own runs, and makes its next access unless one does; between hooks it can begin any job or leave; the
      reaper can read any slot in use and always goes on. */
  lemma {:induction false} NoStepExcluded(w: Table, p: int, job: Job, ws: seq<Write>, i: nat, max: nat)
    ensures p in w.procs ==> Enabled(w, Die(p), max)
    ensures p != 0 && p !in w.procs ==> Enabled(w, Spawn(p), max)
    ensures p in w.handlers ==> Enabled(w, Handle(p), max)
    ensures p in w.procs && p !in w.handlers ==>
      && (CountersOnly(ws) ==> Enabled(w, Interrupt(p, ws), max))
      && (!w.procs[p].Idle? ==> Enabled(w, Move(p), max))
      && (w.procs[p].Idle? ==>
            && Enabled(w, Leave(p), max) && (job.Finish? && CountersOnly(job.ws) ==> Enabled(w, Begin(p, job), max))
            && (job.Track? && Closed(job.h) && RefsIn(job.h, [job.r]) && max < 0x8000_0000 ==>
                  Enabled(w, Begin(p, job), max)))
    ensures i < |w.slots| && w.slots[i].pid != 0 && w.reaper.Resting? ==> Enabled(w, ReaperRead(i), max)
    ensures !w.reaper.Resting? ==> Enabled(w, ReaperMove, max)
  {
  }

  // ---- No pid ever labels two slots -------------------------------------------------------------

  /** A process that is looking for its slot has seen no slot of its own so far. */
  ghost predicate SeenNone(slots: seq<Slot>, p: int, pc: Pc) {
    match pc
    case Scanning(_, next, _) => forall k :: 0 <= k < next && k < |slots| ==> slots[k].pid != p
    case Claiming(_, _) => forall k :: 0 <= k < |slots| ==> slots[k].pid != p
    case _ => true
  }

  ghost predicate PidsOk(w: Table) {
    && Unique(w.slots)
    && 0 !in w.procs
    && forall p :: p in w.procs ==> SeenNone(w.slots, p, w.procs[p])
  }

  /** Writing pid 0 or leaving pids alone can only help. */
  ghost predicate PidsShrink(a: seq<Slot>, b: seq<Slot>) {
    |a| == |b| && forall k :: 0 <= k < |a| ==> b[k].pid == a[k].pid || b[k].pid == 0
  }

  lemma {:induction false} ShrinkKeeps(w: Table, slots: seq<Slot>)
    requires PidsOk(w) && PidsShrink(w.slots, slots)
    ensures PidsOk(w.(slots := slots))
  {
    forall p | p in w.procs ensures SeenNone(slots, p, w.procs[p]) {
      assert SeenNone(w.slots, p, w.procs[p]);
    }
  }

  lemma {:induction false} ClaimKeeps(w: Table, p: int, target: nat, max: nat)
    requires PidsOk(w) && p in w.procs && PcOk(w.procs[p], max)
    requires w.procs[p].Claiming? && w.procs[p].target == target < |w.slots|
    ensures PidsOk(MoveStep(w, p, max))
  {
    var w' := MoveStep(w, p, max);
    assert SeenNone(w.slots, p, w.procs[p]);
    forall q | q in w'.procs ensures SeenNone(w'.slots, q, w'.procs[q]) {
      if q != p {
        assert SeenNone(w.slots, q, w.procs[q]);
      }
    }
  }

  predicate ClaimStores(w: Table, s: Step) {
    s.Move? && s.p in w.procs && w.procs[s.p].Claiming? && w.procs[s.p].target < |w.slots|
  }

  /** Only a claim gives a slot a pid. */
  lemma {:induction false} PidsOnlyShrink(w: Table, s: Step, max: nat)
    requires PcsOk(w, max) && Enabled(w, s, max) && !ClaimStores(w, s)
    ensures PidsShrink(w.slots, Next(w, s, max).slots)
  {
  }

  lemma {:induction false} SearcherKeeps(w: Table, s: Step, max: nat, q: int)
    requires PcsOk(w, max) && Enabled(w, s, max) && PidsShrink(w.slots, Next(w, s, max).slots)
    requires !ClaimStores(w, s) && q in Next(w, s, max).procs && 0 !in w.procs
    requires q in w.procs ==> SeenNone(w.slots, q, w.procs[q])
    ensures SeenNone(Next(w, s, max).slots, q, Next(w, s, max).procs[q])
  {
    assert q in w.procs ==> SeenNone(Next(w, s, max).slots, q, w.procs[q]);
    match s
    case Move(_) =>
    case Handle(_) =>
    case ReaperMove =>
    case _ =>
  }

  lemma {:induction false} SearchersKeep(w: Table, s: Step, max: nat)
    requires PcsOk(w, max) && PidsOk(w) && Enabled(w, s, max) && PidsShrink(w.slots, Next(w, s, max).slots)
    requires !ClaimStores(w, s)
    ensures PidsOk(Next(w, s, max))
  {
    var w' := Next(w, s, max);
    ShrinkKeeps(w, w'.slots);
    forall q | q in w'.procs ensures SeenNone(w'.slots, q, w'.procs[q]) {
      assert q in w.procs ==> SeenNone(w.slots, q, w.procs[q]);
      SearcherKeeps(w, s, max, q);
    }
  }

  lemma {:induction false} PidsStep(w: Table, s: Step, max: nat)
    requires PcsOk(w, max) && PidsOk(w) && Enabled(w, s, max)
    ensures PidsOk(Next(w, s, max))
  {
    if ClaimStores(w, s) {
      ClaimKeeps(w, s.p, w.procs[s.p].target, max);
    } else {
      PidsOnlyShrink(w, s, max);
      SearchersKeep(w, s, max);
    }
  }

  // ---- The topology is well formed after every single store -------------------------------------

  /** The stored form of a parent number: -1 exactly at node 0, and otherwise an earlier node. */
  predicate ParentOk(k: nat, u: nat) {
    if k == 0 then u == U32_SIZE - 1 else u < k
  }

  predicate NodeOk(k: nat, n: NodeMetrics) { n.nodeId == k && ParentOk(k, n.parentId) }

  predicate Set(m: seq<NodeMetrics>, k: nat) { k < |m| && m[k].magic == NODE_MAGIC }

  ghost predicate SlotOk(s: Slot, max: nat) {
    && |s.metrics| == max
    && s.count <= max
    && (forall k :: 0 <= k < max && s.metrics[k].magic == NODE_MAGIC ==> NodeOk(k, s.metrics[k]))
    && (forall k :: 0 <= k < s.count ==> Set(s.metrics, k))
  }

  /** A store that could only put a well-formed number in place. */
  predicate WriteOk(w: Write) {
    match w.op
    case SetNodeId(i) => i == w.at
    case SetParent(u) => ParentOk(w.at, u)
    case _ => true
  }

  /** What stays true of memory once the store has happened, whoever else stores later. */
  predicate InEffect(w: Write, m: seq<NodeMetrics>) {
    w.at < |m| ==>
      match w.op
      case SetNodeId(_) => m[w.at].nodeId == w.at
      case SetParent(_) => ParentOk(w.at, m[w.at].parentId)
      case SetMagic => m[w.at].magic == NODE_MAGIC
      case _ => true
  }

  /** The magic number is stored only behind the node's number and parent. */
  ghost predicate MagicLast(ws: seq<Write>) {
    forall u :: 0 <= u < |ws| && ws[u].op.SetMagic? ==> Prepared(ws, u)
  }

  ghost predicate Prepared(ws: seq<Write>, u: nat)
    requires u < |ws|
  {
    && (exists a :: 0 <= a < u && ws[a].at == ws[u].at && ws[a].op.SetNodeId?)
    && (exists b :: 0 <= b < u && ws[b].at == ws[u].at && ws[b].op.SetParent?)
  }

  ghost predicate Marks(ws: seq<Write>, k: nat) {
    exists u :: 0 <= u < |ws| && ws[u] == Write(k, SetMagic)
  }

  ghost predicate ProgramOk(ws: seq<Write>) {
    && (forall u :: 0 <= u < |ws| ==> WriteOk(ws[u]))
    && MagicLast(ws)
  }

  ghost predicate PcShapes(pc: Pc, slots: seq<Slot>, max: nat) {
    match pc
    case Scanning(_, _, free) => free.Some? ==> free.value < |slots|
    case Claiming(_, target) => target < |slots|
    case Checking(slot, ws) => slot < |slots| && CountersOnly(ws)
    case Storing(slot, ws, done, ending) =>
      && slot < |slots| && done <= |ws|
      && ProgramOk(ws)
      && (forall u :: 0 <= u < done ==> InEffect(ws[u], slots[slot].metrics))
      && (ending.Publish? ==> ending.count <= max && forall k :: 0 <= k < ending.count ==> Marks(ws, k))
    case Counting(slot, n) =>
      slot < |slots| && n <= max && forall k :: 0 <= k < n ==> Set(slots[slot].metrics, k)
    case Publishing(slot) => slot < |slots|
    case Zeroing(slot) => slot < |slots|
    case Ageing(slot) => slot < |slots|
    case _ => true
  }

  ghost predicate HandlerShapes(hd: Handler, slots: seq<Slot>) {
    match hd
    case Seeking(ws, _) => CountersOnly(ws)
    case Refreshing(slot, ws, done) => slot < |slots| && done <= |ws| && CountersOnly(ws)
    case Bumping(slot) => slot < |slots|
  }

  predicate ReaperInRange(r: Reaper, slots: seq<Slot>) { !r.Resting? ==> r.slot < |slots| }

  ghost predicate TopologyOk(w: Table, max: nat) {
    && (forall i :: 0 <= i < |w.slots| ==> SlotOk(w.slots[i], max))
    && (forall p :: p in w.procs ==> PcOk(w.procs[p], max) && PcShapes(w.procs[p], w.slots, max))
    && (forall p :: p in w.handlers ==> p in w.procs && HandlerShapes(w.handlers[p], w.slots))
    && ReaperInRange(w.reaper, w.slots)
  }

  /** One slot may gain well-formed stores and never loses one. */
  ghost predicate Gains(m: seq<NodeMetrics>, m': seq<NodeMetrics>) {
    && |m| == |m'|
    && forall k :: 0 <= k < |m| ==>
      && (m[k].nodeId == k ==> m'[k].nodeId == k)
      && (ParentOk(k, m[k].parentId) ==> ParentOk(k, m'[k].parentId))
      && (m[k].magic == NODE_MAGIC ==> m'[k].magic == NODE_MAGIC)
  }

  lemma {:induction false} StoreGains(m: seq<NodeMetrics>, w: Write)
    requires WriteOk(w)
    ensures Gains(m, ApplyWrite(m, w)) && InEffect(w, ApplyWrite(m, w))
  {
  }

  ghost predicate AllGain(a: seq<Slot>, b: seq<Slot>) {
    |a| == |b| && forall i :: 0 <= i < |a| ==> Gains(a[i].metrics, b[i].metrics)
  }

  lemma {:induction false} ShapesGain(pc: Pc, a: seq<Slot>, b: seq<Slot>, max: nat)
    requires PcShapes(pc, a, max) && AllGain(a, b)
    requires forall i :: 0 <= i < |a| ==> |a[i].metrics| == max
    ensures PcShapes(pc, b, max)
  {
    if pc.Storing? {
      assert Gains(a[pc.slot].metrics, b[pc.slot].metrics);
      forall u | 0 <= u < pc.done ensures InEffect(pc.ws[u], b[pc.slot].metrics) {
        assert InEffect(pc.ws[u], a[pc.slot].metrics);
      }
    } else if pc.Counting? {
      assert Gains(a[pc.slot].metrics, b[pc.slot].metrics);
      SetGains(a[pc.slot].metrics, b[pc.slot].metrics, pc.count);
    }
  }

  lemma {:induction false} SetGains(m: seq<NodeMetrics>, m': seq<NodeMetrics>, n: nat)
    requires Gains(m, m') && forall k :: 0 <= k < n ==> Set(m, k)
    ensures forall k :: 0 <= k < n ==> Set(m', k)
  {
    forall k | 0 <= k < n ensures Set(m', k) {
      assert Set(m, k);
    }
  }

  /** The next store of a well-formed program keeps the slot well formed. */
  lemma {:induction false} StoreKeepsSlot(s: Slot, ws: seq<Write>, done: nat, max: nat)
    requires SlotOk(s, max) && ProgramOk(ws) && done < |ws|
    requires forall u :: 0 <= u < done ==> InEffect(ws[u], s.metrics)
    ensures SlotOk(s.(metrics := ApplyWrite(s.metrics, ws[done])), max)
  {
    var w := ws[done];
    var m, m' := s.metrics, ApplyWrite(s.metrics, w);
    assert WriteOk(w);
    StoreGains(m, w);
    SetGains(m, m', s.count);
    forall k | 0 <= k < max && m'[k].magic == NODE_MAGIC ensures NodeOk(k, m'[k]) {
      if m[k].magic == NODE_MAGIC {
        assert NodeOk(k, m[k]);
      } else {
        assert k == w.at && w.op.SetMagic?;
        assert Prepared(ws, done);
        var a :| 0 <= a < done && ws[a].at == k && ws[a].op.SetNodeId?;
        var b :| 0 <= b < done && ws[b].at == k && ws[b].op.SetParent?;
        assert InEffect(ws[a], m) && InEffect(ws[b], m);
      }
    }
  }

  /** Entry i of a list numbered from `start` hangs below an earlier node. */
  predicate EntryOk(es: seq<Entry<nat>>, i: nat, start: nat) {
    i < |es| ==> ParentOk(start + i, ToU32(es[i].parent))
  }

  /** The stores of the topology visitor form such a program. */
  lemma {:induction false} TopologyProgram(h: Heap, es: seq<Entry<nat>>, start: nat)
    requires AllVisible(h, es)
    requires forall i :: 0 <= i < |es| ==> EntryOk(es, i, start)
    ensures ProgramOk(PassWrites(Topology, h, es, start))
    decreases |es|
  {
    if es != [] {
      var rest, next := es[1..], start + 1;
      forall i | 0 <= i < |rest| ensures EntryOk(rest, i, next) {
        assert EntryOk(es, i + 1, start) && rest[i] == es[i + 1];
      }
      TopologyProgram(h, rest, next);
      assert EntryOk(es, 0, start);
      VisitProgram(h, start, es[0]);
      var a, b := VisitWrites(Topology, h, start, es[0]), PassWrites(Topology, h, rest, next);
      ProgramConcat(a, b);
      assert PassWrites(Topology, h, es, start) == a + b;
    }
  }

  /** They mark every listed node. */
  lemma {:induction false} TopologyMarks(h: Heap, es: seq<Entry<nat>>, start: nat, k: nat)
    requires AllVisible(h, es) && start <= k < start + |es|
    ensures Marks(PassWrites(Topology, h, es, start), k)
    decreases |es|
  {
    var rest := es[1..];
    if k == start {
      VisitMarks(h, start, es[0]);
    } else {
      TopologyMarks(h, rest, start + 1, k);
    }
    MarksConcat(VisitWrites(Topology, h, start, es[0]), PassWrites(Topology, h, rest, start + 1), k);
  }

  lemma {:induction false} VisitMarks(h: Heap, id: nat, e: Entry<nat>)
    requires Visible(h, e)
    ensures Marks(VisitWrites(Topology, h, id, e), id)
  {
    var ops := TopologyOps(id, e.parent, h[e.item].planTag.value);
    assert |ops| == 16 && ops[15] == SetMagic;
    assert VisitWrites(Topology, h, id, e)[15] == Write(id, SetMagic);
  }

  lemma {:induction false} VisitProgram(h: Heap, id: nat, e: Entry<nat>)
    requires Visible(h, e) && ParentOk(id, ToU32(e.parent))
    ensures ProgramOk(VisitWrites(Topology, h, id, e))
  {
    var ops := TopologyOps(id, e.parent, h[e.item].planTag.value);
    var ws := VisitWrites(Topology, h, id, e);
    assert |ops| == 16 && ops[0] == SetNodeId(id) && ops[1] == SetParent(ToU32(e.parent)) && ops[15] == SetMagic;
    assert ws[0] == Write(id, ops[0]) && ws[1] == Write(id, ops[1]) && ws[15] == Write(id, SetMagic);
    forall u | 0 <= u < |ws| && ws[u].op.SetMagic? ensures Prepared(ws, u) {
      assert u == 15;
    }
  }

  lemma {:induction false} ProgramConcat(a: seq<Write>, b: seq<Write>)
    requires ProgramOk(a) && ProgramOk(b)
    ensures ProgramOk(a + b)
  {
    var ws := a + b;
    forall u | 0 <= u < |ws| ensures WriteOk(ws[u]) {
      assert if u < |a| then ws[u] == a[u] else ws[u] == b[u - |a|];
    }
    forall u | 0 <= u < |ws| && ws[u].op.SetMagic? ensures Prepared(ws, u) {
      if u < |a| {
        assert Prepared(a, u);
        var x :| 0 <= x < u && a[x].at == a[u].at && a[x].op.SetNodeId?;
        var y :| 0 <= y < u && a[y].at == a[u].at && a[y].op.SetParent?;
        assert ws[x] == a[x] && ws[y] == a[y];
      } else {
        var v := u - |a|;
        assert Prepared(b, v);
        var x :| 0 <= x < v && b[x].at == b[v].at && b[x].op.SetNodeId?;
        var y :| 0 <= y < v && b[y].at == b[v].at && b[y].op.SetParent?;
        assert ws[x + |a|] == b[x] && ws[y + |a|] == b[y];
      }
    }
  }

  lemma {:induction false} MarksConcat(a: seq<Write>, b: seq<Write>, k: nat)
    requires Marks(a, k) || Marks(b, k)
    ensures Marks(a + b, k)
  {
    if Marks(a, k) {
      var u :| 0 <= u < |a| && a[u] == Write(k, SetMagic);
      assert (a + b)[u] == a[u];
    } else {
      var u :| 0 <= u < |b| && b[u] == Write(k, SetMagic);
      assert (a + b)[u + |a|] == b[u];
    }
  }

  lemma {:induction false} ParentStored(k: nat, parent: int)
    requires -1 <= parent < k < U32_SIZE && (parent == -1 <==> k == 0)
    ensures ParentOk(k, ToU32(parent))
  {
  }

  lemma {:induction false} PreorderProgram(h: Heap, r: Ref, max: nat)
    requires Closed(h) && RefsIn(h, [r]) && max < 0x8000_0000
    ensures AllVisible(h, Preorder(h, r, max))
    ensures var ws := PassWrites(Topology, h, Preorder(h, r, max), 0);
      ProgramOk(ws) && forall k :: 0 <= k < |Preorder(h, r, max)| ==> Marks(ws, k)
  {
    var es := Preorder(h, r, max);
    PreorderVisible(h, r, max);
    PreorderIsTree(h, r, max, max + 1);
    forall i | 0 <= i < |es| ensures EntryOk(es, i, 0) {
      ParentStored(i, es[i].parent);
    }
    TopologyProgram(h, es, 0);
    forall k | 0 <= k < |es| ensures Marks(PassWrites(Topology, h, es, 0), k) {
      TopologyMarks(h, es, 0, k);
    }
  }

  lemma {:induction false} CountersAreProgram(ws: seq<Write>)
    requires CountersOnly(ws)
    ensures ProgramOk(ws)
  {
    assert forall u :: 0 <= u < |ws| ==> CounterOp(ws[u].op);
  }

  lemma {:induction false} JobShapes(slots: seq<Slot>, slot: nat, job: Job, max: nat)
    requires slot < |slots| && JobOk(job, max)
    ensures PcShapes(StartJob(slot, job, max), slots, max) && PcOk(StartJob(slot, job, max), max)
  {
    if job.Track? {
      PreorderProgram(job.h, job.r, max);
    }
  }

  /** Slots keep their shape and gain at most well-formed stores. */
  ghost predicate SlotsKept(a: seq<Slot>, b: seq<Slot>, max: nat) {
    AllGain(a, b) && forall i :: 0 <= i < |b| ==> SlotOk(b[i], max)
  }

  lemma {:induction false} ScanShapes(w: Table, p: int, max: nat)
    requires TopologyOk(w, max) && p in w.procs && (w.procs[p].Scanning? || w.procs[p].Claiming?)
    ensures var w' := MoveStep(w, p, max);
      SlotsKept(w.slots, w'.slots, max) && PcOk(w'.procs[p], max) && PcShapes(w'.procs[p], w'.slots, max)
  {
    assert PcShapes(w.procs[p], w.slots, max);
    match w.procs[p]
    case Scanning(job, next, free) =>
      if next < |w.slots| && w.slots[next].pid == p && !(free.None? && w.slots[next].pid == 0) {
        JobShapes(w.slots, next, job, max);
      }
    case Claiming(job, target) =>
      JobShapes(MoveStep(w, p, max).slots, target, job, max);
  }

  lemma {:induction false} OtherShapes(w: Table, p: int, max: nat)
    requires TopologyOk(w, max) && p in w.procs
    requires !w.procs[p].Scanning? && !w.procs[p].Claiming? && !w.procs[p].Storing?
    ensures var w' := MoveStep(w, p, max);
      SlotsKept(w.slots, w'.slots, max) && PcOk(w'.procs[p], max) && PcShapes(w'.procs[p], w'.slots, max)
  {
    assert PcShapes(w.procs[p], w.slots, max);
    if w.procs[p].Checking? {
      CountersAreProgram(w.procs[p].ws);
    }
  }

  lemma {:induction false} MoveShapes(w: Table, p: int, max: nat)
    requires TopologyOk(w, max) && p in w.procs
    ensures var w' := MoveStep(w, p, max);
      && SlotsKept(w.slots, w'.slots, max)
      && PcOk(w'.procs[p], max) && PcShapes(w'.procs[p], w'.slots, max)
      && w'.procs == w.procs[p := w'.procs[p]] && w'.handlers == w.handlers && w'.reaper == w.reaper
  {
    match w.procs[p]
    case Scanning(_, _, _) => ScanShapes(w, p, max);
    case Claiming(_, _) => ScanShapes(w, p, max);
    case Storing(slot, ws, done, ending) => StoringShapes(w, p, slot, ws, done, ending, max);
    case _ => OtherShapes(w, p, max);
  }

  lemma {:induction false} StoringShapes(w: Table, p: int, slot: nat, ws: seq<Write>, done: nat,
                                         ending: Ending, max: nat)
    requires TopologyOk(w, max) && p in w.procs && w.procs[p] == Storing(slot, ws, done, ending)
    ensures var w' := MoveStep(w, p, max);
      && SlotsKept(w.slots, w'.slots, max)
      && PcShapes(w'.procs[p], w'.slots, max)
  {
    assert PcShapes(w.procs[p], w.slots, max);
    var m := w.slots[slot].metrics;
    if done < |ws| {
      StoreKeepsSlot(w.slots[slot], ws, done, max);
      StoreGains(m, ws[done]);
      forall u | 0 <= u < done + 1 ensures InEffect(ws[u], ApplyWrite(m, ws[done])) {
        if u < done {
          assert InEffect(ws[u], m);
        }
      }
    } else if ending.Publish? {
      forall k | 0 <= k < ending.count ensures Set(m, k) {
        assert Marks(ws, k);
        var u :| 0 <= u < |ws| && ws[u] == Write(k, SetMagic);
        assert InEffect(ws[u], m);
      }
    }
  }

  /** The handler may interrupt its own process in the middle of a topology pass. */
  lemma {:induction false} HandleShapes(w: Table, p: int, max: nat)
    requires TopologyOk(w, max) && p in w.handlers
    ensures var w' := HandlerStep(w, p);
      && SlotsKept(w.slots, w'.slots, max)
      && (forall q :: q in w'.handlers ==> q in w'.procs && HandlerShapes(w'.handlers[q], w'.slots))
      && w'.procs == w.procs && w'.reaper == w.reaper
  {
    assert HandlerShapes(w.handlers[p], w.slots);
    if w.handlers[p].Refreshing? && w.handlers[p].done < |w.handlers[p].ws| {
      var Refreshing(slot, ws, done) := w.handlers[p];
      var one := [ws[done]];
      assert CounterOp(one[0].op);
      CountersAreProgram(one);
      StoreKeepsSlot(w.slots[slot], one, 0, max);
      StoreGains(w.slots[slot].metrics, ws[done]);
    }
  }

  lemma {:induction false} ProcShapes(w: Table, s: Step, max: nat, q: int)
    requires TopologyOk(w, max) && Enabled(w, s, max)
    requires q in Next(w, s, max).procs && SlotsKept(w.slots, Next(w, s, max).slots, max)
    ensures var w' := Next(w, s, max); PcOk(w'.procs[q], max) && PcShapes(w'.procs[q], w'.slots, max)
  {
    var w' := Next(w, s, max);
    if s.Move? {
      MoveShapes(w, s.p, max);
    }
    if q in w.procs && w'.procs[q] == w.procs[q] {
      ShapesGain(w.procs[q], w.slots, w'.slots, max);
    }
  }

  lemma {:induction false} TopologyStep(w: Table, s: Step, max: nat)
    requires TopologyOk(w, max) && Enabled(w, s, max)
    ensures PcsOk(w, max) && TopologyOk(Next(w, s, max), max) && AllGain(w.slots, Next(w, s, max).slots)
  {
    var w' := Next(w, s, max);
    if s.Move? {
      MoveShapes(w, s.p, max);
    } else if s.Handle? {
      HandleShapes(w, s.p, max);
    }
    assert SlotsKept(w.slots, w'.slots, max);
    forall q | q in w'.procs ensures PcOk(w'.procs[q], max) && PcShapes(w'.procs[q], w'.slots, max) {
      ProcShapes(w, s, max, q);
    }
  }

  // ---- Whole runs -------------------------------------------------------------------------------

  /** Shared memory as the startup hook leaves it, before any process is tracked. */
  function Start(n: nat, max: nat): Table { Table(BlankTable(n, max), map[], map[], Resting) }

  /** `run` is a sequence of tables, each reached from the one before by some enabled step. */
  ghost predicate IsRun(run: seq<Table>, n: nat, max: nat) {
    && run != [] && run[0] == Start(n, max)
    && forall i :: 0 <= i < |run| - 1 ==> Follows(run, i, max)
  }

  ghost predicate Follows(run: seq<Table>, i: nat, max: nat)
    requires i + 1 < |run|
  {
    exists s :: PcsOk(run[i], max) && Enabled(run[i], s, max) && run[i + 1] == Next(run[i], s, max)
  }

  lemma {:induction false} RunInvariant(run: seq<Table>, n: nat, max: nat, i: nat)
    requires IsRun(run, n, max) && i < |run|
    ensures PidsOk(run[i]) && TopologyOk(run[i], max)
  {
    if i == 0 {
    } else {
      RunInvariant(run, n, max, i - 1);
      assert Follows(run, i - 1, max);
      var s :| PcsOk(run[i - 1], max) && Enabled(run[i - 1], s, max) && run[i] == Next(run[i - 1], s, max);
      PidsStep(run[i - 1], s, max);
      TopologyStep(run[i - 1], s, max);
    }
  }

  /** Slot uniqueness: although claims are not serialised, at no point of any run do two slots carry
      the same backend pid, so every first-match search finds the only match. */
  lemma {:induction false} NoPidTwice(run: seq<Table>, n: nat, max: nat, i: nat, a: nat, b: nat)
    requires IsRun(run, n, max) && i < |run| && a < |run[i].slots| && b < |run[i].slots|
    requires run[i].slots[a].pid == run[i].slots[b].pid != 0
    ensures a == b && FindPid(run[i].slots, run[i].slots[a].pid) == Some(a)
  {
    RunInvariant(run, n, max, i);
    var f := FindPid(run[i].slots, run[i].slots[a].pid);
    assert Unique(run[i].slots);
  }

  /** After every single store of any run each marked record has its own number and an earlier parent,
      and every record below the published count is marked. */
  lemma {:induction false} TopologyAlwaysWellFormed(run: seq<Table>, n: nat, max: nat, i: nat, slot: nat)
    requires IsRun(run, n, max) && i < |run| && slot < |run[i].slots|
    ensures var s := run[i].slots[slot];
      && s.count <= max == |s.metrics|
      && (forall k :: 0 <= k < s.count ==> s.metrics[k].magic == NODE_MAGIC)
      && (forall k :: 0 <= k < max && s.metrics[k].magic == NODE_MAGIC ==>
            s.metrics[k].nodeId == k
                && (if k == 0 then s.metrics[k].parentId == U32_SIZE - 1 else s.metrics[k].parentId < k))
  {
    RunInvariant(run, n, max, i);
    var s := run[i].slots[slot];
    assert SlotOk(s, max);
    forall k | 0 <= k < s.count ensures s.metrics[k].magic == NODE_MAGIC {
      assert Set(s.metrics, k);
    }
  }

  lemma {:induction false} LinkGains(run: seq<Table>, n: nat, max: nat, k: nat)
    requires IsRun(run, n, max) && k + 1 < |run|
    ensures AllGain(run[k].slots, run[k + 1].slots)
  {
    RunInvariant(run, n, max, k);
    assert Follows(run, k, max);
    var s :| PcsOk(run[k], max) && Enabled(run[k], s, max) && run[k + 1] == Next(run[k], s, max);
    TopologyStep(run[k], s, max);
  }

  lemma {:induction false} RunGains(run: seq<Table>, n: nat, max: nat, i: nat, j: nat, slot: nat)
    requires IsRun(run, n, max) && i <= j < |run| && slot < |run[i].slots|
    ensures slot < |run[j].slots| && Gains(run[i].slots[slot].metrics, run[j].slots[slot].metrics)
    decreases j
  {
    if i < j {
      var k := j - 1;
      RunGains(run, n, max, i, k, slot);
      LinkGains(run, n, max, k);
      assert Gains(run[k].slots[slot].metrics, run[j].slots[slot].metrics);
    }
  }

  /** A reader that sees node k below the count at one moment never skips it for lack of the magic
      number at any later moment, whatever other processes did in between. */
  lemma {:induction false} ReaderNeverSkips(run: seq<Table>, n: nat, max: nat, i: nat, j: nat, slot: nat, k: nat)
    requires IsRun(run, n, max) && i <= j < |run| && slot < |run[i].slots|
    requires k < run[i].slots[slot].count
    ensures slot < |run[j].slots| && k < |run[j].slots[slot].metrics|
    ensures run[j].slots[slot].metrics[k].magic == NODE_MAGIC
  {
    TopologyAlwaysWellFormed(run, n, max, i, slot);
    RunGains(run, n, max, i, j, slot);
  }
}
