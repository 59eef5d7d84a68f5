/** The machine of single accesses performs the hooks of `Lifecycle`: where nobody else accesses the table in
    between, the accesses of one hook, one handler or one turn of the reaper add up to the whole operation. */
module AccessRefinement {
  import opened Basics
  import opened Plans
  import opened NodeWrites
  import opened TwoPass
  import opened Slots
  import opened Interleaving
  import opened ClaimSafety
  import P = Publication
  import L = Lifecycle

  // ---- Uninterrupted accesses ---------------------------------------------------------------------

  /** `run` goes from element to element by the relation `r`. */
  ghost predicate Chain<T(!new)>(r: (T, T) -> bool, run: seq<T>) {
    run != [] && forall i :: 0 <= i < |run| - 1 ==> Linked(r, run, i)
  }

  ghost predicate Linked<T(!new)>(r: (T, T) -> bool, run: seq<T>, i: nat)
    requires i + 1 < |run|
  {
    r(run[i], run[i + 1])
  }

  ghost predicate Reaches<T(!new)>(r: (T, T) -> bool, a: T, b: T) {
    exists run :: Chain(r, run) && run[0] == a && run[|run| - 1] == b
  }

  lemma {:induction false} ReachesSelf<T(!new)>(r: (T, T) -> bool, a: T)
    ensures Reaches(r, a, a)
  {
    var run := [a];
    assert Chain(r, run) && run[0] == a && run[|run| - 1] == a;
  }

  lemma {:induction false} ReachesNext<T(!new)>(r: (T, T) -> bool, a: T, b: T, c: T)
    requires Reaches(r, a, b) && r(b, c)
    ensures Reaches(r, a, c)
  {
    var run :| Chain(r, run) && run[0] == a && run[|run| - 1] == b;
    var longer := run + [c];
    forall i | 0 <= i < |longer| - 1 ensures Linked(r, longer, i) {
      assert i < |run| - 1 ==> Linked(r, run, i);
    }
    assert Chain(r, longer) && longer[0] == a && longer[|longer| - 1] == c;
  }

  ghost predicate OneStep(w: Table, s: Step, v: Table, max: nat) {
    PcsOk(w, max) && Enabled(w, s, max) && v == Next(w, s, max)
  }

  ghost function Succeeds(s: Step, max: nat): (Table, Table) -> bool { (w: Table, v: Table) => OneStep(w, s, v, max) }

  /** By some number of times the same step: the next access of a hook, of a handler, or of the reaper. */
  ghost predicate Performs(w: Table, s: Step, w': Table, max: nat) { Reaches(Succeeds(s, max), w, w') }

  lemma {:induction false} PerformsNothing(w: Table, s: Step, max: nat)
    ensures Performs(w, s, w, max)
  {
    ReachesSelf(Succeeds(s, max), w);
  }

  /** One more access behind those already performed. */
  lemma {:induction false} PerformsNext(w: Table, s: Step, v: Table, max: nat)
    requires Performs(w, s, v, max) && TopologyOk(v, max) && Enabled(v, s, max)
    ensures PcsOk(v, max) && Performs(w, s, Next(v, s, max), max) && TopologyOk(Next(v, s, max), max)
  {
    TopologyStep(v, s, max);
    ReachesNext(Succeeds(s, max), w, v, Next(v, s, max));
  }

  /** `v` has been reached from `w` by moves of `p`, and `p` can move on. */
  ghost predicate At(w: Table, p: int, v: Table, max: nat) {
    Performs(w, Move(p), v, max) && TopologyOk(v, max) && p in v.procs && p !in v.handlers && p != 0
  }

  lemma {:induction false} MoveOn(w: Table, p: int, v: Table, max: nat)
    requires At(w, p, v, max) && !v.procs[p].Idle?
    ensures PcOk(v.procs[p], max) && At(w, p, MoveStep(v, p, max), max)
  {
    PerformsNext(w, Move(p), v, max);
  }

  // ---- Searching and claiming ---------------------------------------------------------------------

  lemma {:induction false} NotFoundBefore(slots: seq<Slot>, p: int, i: nat)
    requires FindPid(slots, p) == Some(i)
    ensures i < |slots| && slots[i].pid == p && forall k :: 0 <= k < i ==> slots[k].pid != p
  {
  }

  lemma {:induction false} SamePc(w: Table, p: int)
    requires p in w.procs
    ensures PutPc(w, p, w.procs[p]) == w
  {
    assert w.procs[p := w.procs[p]] == w.procs;
  }

  lemma {:induction false} PutTwice(w: Table, slots: seq<Slot>, p: int, a: Pc, b: Pc)
    ensures PutPc(PutPc(w, p, a).(slots := slots), p, b) == PutPc(w.(slots := slots), p, b)
  {
    assert w.procs[p := a][p := b] == w.procs[p := b];
  }

  function Seen(slots: seq<Slot>, next: nat, free: Option<nat>): Option<nat> {
    if free.None? && SlotAt(slots, next).pid == 0 then Some(next) else free
  }

  /** A scan passes over the slot of another process, or a free one. */
  lemma {:induction false} ScansOn(w: Table, p: int, v: Table, job: Job, next: nat, free: Option<nat>, max: nat)
    requires At(w, p, v, max) && v.procs[p] == Scanning(job, next, free)
    requires next < |v.slots| && v.slots[next].pid != p
    ensures At(w, p, PutPc(v, p, Scanning(job, next + 1, Seen(v.slots, next, free))), max)
  {
    MoveOn(w, p, v, max);
  }

  lemma {:induction false} ScanFinds(w: Table, p: int, v: Table, job: Job, next: nat, free: Option<nat>, max: nat)
    requires At(w, p, v, max) && v.procs[p] == Scanning(job, next, free)
    requires next < |v.slots| && v.slots[next].pid == p
    ensures JobOk(job, max) && At(w, p, PutPc(v, p, StartJob(next, job, max)), max)
  {
    MoveOn(w, p, v, max);
  }

  /** A scan finds the process' own slot. */
  lemma {:induction false} ScansToOwn(
      w: Table, p: int, v: Table, job: Job, next: nat, free: Option<nat>, i: nat, max: nat)
    requires At(w, p, v, max) && v.procs[p] == Scanning(job, next, free) && next <= i
    requires FindPid(v.slots, p) == Some(i)
    ensures JobOk(job, max) && At(w, p, PutPc(v, p, StartJob(i, job, max)), max)
    decreases i - next
  {
    NotFoundBefore(v.slots, p, i);
    if next < i {
      var pc := Scanning(job, next + 1, Seen(v.slots, next, free));
      ScansOn(w, p, v, job, next, free, max);
      ScansToOwn(w, p, PutPc(v, p, pc), job, next + 1, pc.free, i, max);
      PutTwice(v, v.slots, p, pc, StartJob(i, job, max));
    } else {
      ScanFinds(w, p, v, job, i, free, max);
    }
  }

  /** Or comes to the end of the table with the first free one. */
  lemma {:induction false} ScansToEnd(w: Table, p: int, v: Table, job: Job, next: nat, free: Option<nat>, max: nat)
    requires At(w, p, v, max) && v.procs[p] == Scanning(job, next, free)
    requires next <= |v.slots| && FindPid(v.slots, p).None?
    ensures At(w, p, PutPc(v, p, Scanning(job, |v.slots|, FirstFree(v.slots, next, free))), max)
    decreases |v.slots| - next
  {
    if next < |v.slots| {
      var pc := Scanning(job, next + 1, Seen(v.slots, next, free));
      ScansOn(w, p, v, job, next, free, max);
      ScansToEnd(w, p, PutPc(v, p, pc), job, next + 1, pc.free, max);
      PutTwice(v, v.slots, p, pc, Scanning(job, |v.slots|, FirstFree(v.slots, next, free)));
    } else {
      SamePc(v, p);
    }
  }

  lemma {:induction false} FirstFreeIs(slots: seq<Slot>, next: nat)
    requires next <= |slots| && forall k :: 0 <= k < next ==> slots[k].pid != 0
    ensures FirstFree(slots, next, None) == FindPid(slots, 0)
    decreases |slots| - next
  {
    if next < |slots| && slots[next].pid != 0 {
      FirstFreeIs(slots, next + 1);
    }
  }

  // ---- Stores and releases ------------------------------------------------------------------------

  function WithRecords(slots: seq<Slot>, i: nat, m: seq<NodeMetrics>): seq<Slot>
    requires i < |slots|
  {
    slots[i := slots[i].(metrics := m)]
  }

  lemma {:induction false} ApplyRest(m: seq<NodeMetrics>, ws: seq<Write>, k: nat)
    requires k < |ws|
    ensures ApplyWrites(m, ws[k..]) == ApplyWrites(ApplyWrite(m, ws[k]), ws[k + 1..])
  {
    assert ws[k..][1..] == ws[k + 1..] && ws[k..][0] == ws[k];
  }

  lemma {:induction false} StoresAll(
      w: Table, p: int, v: Table, slot: nat, ws: seq<Write>, done: nat, e: Ending, max: nat)
    requires At(w, p, v, max) && v.procs[p] == Storing(slot, ws, done, e)
    ensures slot < |v.slots| && done <= |ws|
    ensures var slots := WithRecords(v.slots, slot, ApplyWrites(v.slots[slot].metrics, ws[done..]));
      At(w, p, PutPc(v.(slots := slots), p, Storing(slot, ws, |ws|, e)), max)
    decreases |ws| - done
  {
    assert PcShapes(v.procs[p], v.slots, max);
    if done < |ws| {
      var m := v.slots[slot].metrics;
      MoveOn(w, p, v, max);
      var v1 := MoveStep(v, p, max);
      assert v1 == PutPc(v.(slots := WithRecords(v.slots, slot, ApplyWrite(m, ws[done]))), p,
                         Storing(slot, ws, done + 1, e));
      StoresAll(w, p, v1, slot, ws, done + 1, e, max);
      ApplyRest(m, ws, done);
      SameSlots(v, p, slot, ApplyWrite(m, ws[done]), ApplyWrites(m, ws[done..]),
                Storing(slot, ws, done + 1, e), Storing(slot, ws, |ws|, e));
    } else {
      assert ws[done..] == [] && WithRecords(v.slots, slot, v.slots[slot].metrics) == v.slots;
      SamePc(v, p);
    }
  }

  lemma {:induction false} SameSlots(
      v: Table, p: int, i: nat, a: seq<NodeMetrics>, b: seq<NodeMetrics>, pc: Pc, pc': Pc)
    requires i < |v.slots|
    ensures var v1 := PutPc(v.(slots := WithRecords(v.slots, i, a)), p, pc);
      PutPc(v1.(slots := WithRecords(v1.slots, i, b)), p, pc') == PutPc(v.(slots := WithRecords(v.slots, i, b)), p, pc')
  {
  }

  /** The two stores of a release. */
  lemma {:induction false} Releases(w: Table, p: int, v: Table, i: nat, max: nat)
    requires At(w, p, v, max) && v.procs[p] == Zeroing(i)
    ensures i < |v.slots|
    ensures At(w, p, PutPc(v.(slots := v.slots[i := Released(v.slots[i])]), p, Idle), max)
  {
    assert PcShapes(v.procs[p], v.slots, max);
    MoveOn(w, p, v, max);
    var v1 := MoveStep(v, p, max);
    MoveOn(w, p, v1, max);
    assert MoveStep(v1, p, max) == PutPc(v.(slots := v.slots[i := Released(v.slots[i])]), p, Idle);
  }

  /** The search for the own slot, and its release. */
  lemma {:induction false} ReleasesOwn(w: Table, p: int, v: Table, next: nat, max: nat)
    requires At(w, p, v, max) && v.procs[p] == Searching(next) && next <= |v.slots|
    requires forall k :: 0 <= k < next ==> v.slots[k].pid != p
    ensures At(w, p, PutPc(v.(slots := L.ReleaseMine(L.Shared(v.slots, []), p).slots), p, Idle), max)
    decreases |v.slots| - next
  {
    MoveOn(w, p, v, max);
    var v1, own := MoveStep(v, p, max), FindPid(v.slots, p);
    if next < |v.slots| && v.slots[next].pid != p {
      ReleasesOwn(w, p, v1, next + 1, max);
      PutTwice(v, L.ReleaseMine(L.Shared(v.slots, []), p).slots, p, Searching(next + 1), Idle);
    } else if next < |v.slots| {
      assert own == Some(next);
      Releases(w, p, v1, next, max);
      PutTwice(v, v.slots[next := Released(v.slots[next])], p, Zeroing(next), Idle);
    } else {
      assert own.None? && v1 == PutPc(v, p, Idle);
    }
  }

  // ---- The hooks ----------------------------------------------------------------------------------

  predicate Resting(w: Table, p: int) { p != 0 && p in w.procs && p !in w.handlers && w.procs[p].Idle? }

  lemma {:induction false} Begins(w: Table, p: int, s: Step, max: nat)
    requires TopologyOk(w, max) && Resting(w, p) && Enabled(w, s, max) && (s.Begin? || s.Leave?) && s.p == p
    ensures PcsOk(w, max) && At(Next(w, s, max), p, Next(w, s, max), max)
  {
    TopologyStep(w, s, max);
    PerformsNothing(Next(w, s, max), Move(p), max);
  }

  /** The pass, the count and the publication. */
  lemma {:induction false} Fills(w: Table, p: int, v: Table, slot: nat, ws: seq<Write>, n: nat, max: nat)
    requires At(w, p, v, max) && v.procs[p] == Storing(slot, ws, 0, Publish(n))
    ensures slot < |v.slots|
    ensures var s := v.slots[slot];
      var filled := s.(metrics := ApplyWrites(s.metrics, ws), count := n);
      At(w, p, PutPc(v.(slots := v.slots[slot := filled]), p, Idle), max)
  {
    StoresAll(w, p, v, slot, ws, 0, Publish(n), max);
    assert ws[0..] == ws;
    var slots := WithRecords(v.slots, slot, ApplyWrites(v.slots[slot].metrics, ws));
    var v1 := PutPc(v.(slots := slots), p, Storing(slot, ws, |ws|, Publish(n)));
    MoveOn(w, p, v1, max);
    var v2 := MoveStep(v1, p, max);
    MoveOn(w, p, v2, max);
    var v3 := MoveStep(v2, p, max);
    MoveOn(w, p, v3, max);
    var filled := v.slots[slot].(metrics := ApplyWrites(v.slots[slot].metrics, ws), count := n);
    assert v3.slots == v.slots[slot := filled];
    assert MoveStep(v3, p, max) == PutPc(v.(slots := v.slots[slot := filled]), p, Idle);
  }

  /** The slots agree in pid, count, generation and records. */
  predicate SameCores(a: seq<Slot>, b: seq<Slot>) {
    |a| == |b| && forall i :: 0 <= i < |a| ==> SameCore(a[i], b[i])
  }

  predicate SameCore(a: Slot, b: Slot) {
    a.pid == b.pid && a.count == b.count && a.generation == b.generation && a.metrics == b.metrics
  }

  /** Only the slots have changed. */
  predicate Back(w: Table, w': Table) { w' == w.(slots := w'.slots) }

  lemma {:induction false} BackIs(w: Table, v: Table, p: int, slots: seq<Slot>)
    requires p in w.procs && w.procs[p].Idle? && p in v.procs && v.procs == w.procs[p := v.procs[p]]
    requires v.handlers == w.handlers && v.reaper == w.reaper
    ensures PutPc(v.(slots := slots), p, Idle) == w.(slots := slots)
  {
    assert w.procs[p := v.procs[p]][p := Idle] == w.procs;
  }

  /** The claim: the own slot, else the first free one, else none. */
  lemma {:induction false} Claims(w: Table, p: int, job: Job, max: nat) returns (v: Table)
    requires TopologyOk(w, max) && Resting(w, p) && JobOk(job, max) && job.Track?
    ensures PcsOk(w, max)
    ensures var w1, (sh, got) := Next(w, Begin(p, job), max), L.Claim(L.Shared(w.slots, []), p, true);
      v == PutPc(w.(slots := sh.slots), p, if got.Some? then StartJob(got.value, job, max) else Idle)
      && At(w1, p, v, max)
  {
    Begins(w, p, Begin(p, job), max);
    var w1 := Next(w, Begin(p, job), max);
    var own, free := FindPid(w.slots, p), FindPid(w.slots, 0);
    if own.Some? {
      ScansToOwn(w1, p, w1, job, 0, None, own.value, max);
      PutTwice(w, w.slots, p, Scanning(job, 0, None), StartJob(own.value, job, max));
      v := PutPc(w, p, StartJob(own.value, job, max));
    } else {
      ScansToEnd(w1, p, w1, job, 0, None, max);
      FirstFreeIs(w.slots, 0);
      PutTwice(w, w.slots, p, Scanning(job, 0, None), Scanning(job, |w.slots|, free));
      var v1 := PutPc(w, p, Scanning(job, |w.slots|, free));
      MoveOn(w1, p, v1, max);
      v := MoveStep(v1, p, max);
      if free.Some? {
        PutTwice(w, w.slots, p, v1.procs[p], Claiming(job, free.value));
        MoveOn(w1, p, v, max);
        v := ClaimStored(w, p, job, free.value, max);
      } else {
        PutTwice(w, w.slots, p, v1.procs[p], Idle);
      }
    }
  }

  lemma {:induction false} ClaimStored(w: Table, p: int, job: Job, slot: nat, max: nat) returns (v: Table)
    requires JobOk(job, max) && slot < |w.slots|
    ensures var slots := w.slots[slot := w.slots[slot].(pid := p)];
      v == MoveStep(PutPc(w, p, Claiming(job, slot)), p, max)
        && v == PutPc(w.(slots := slots), p, StartJob(slot, job, max))
  {
    var slots := w.slots[slot := w.slots[slot].(pid := p)];
    v := MoveStep(PutPc(w, p, Claiming(job, slot)), p, max);
    PutTwice(w, slots, p, Claiming(job, slot), StartJob(slot, job, max));
  }

  lemma {:induction false} StartedSlots(
      c: L.Settings, sh: L.Shared, p: int, b: L.Backend, q: QueryDesc, ws: seq<Write>, n: nat)
    requires p != 0 && q.cost >= c.minCost && n < U32_SIZE && L.Claim(sh, p, true).1.Some?
    ensures var (sh1, got) := L.Claim(sh, p, true);
      var s := sh1.slots[got.value];
      SameCores(sh1.slots[got.value := s.(metrics := ApplyWrites(s.metrics, ws), count := n)],
                L.StartHook(c, sh, p, b, q, ws, n, L.NoFault).0.slots)
  {
    assert n % U32_SIZE == n;
  }

  /** The accesses of a tracked start leave pid, count, generation and records of every slot as the hook does. */
  lemma {:induction false} StartMoves(w: Table, p: int, h: Heap, q: QueryDesc, c: L.Settings, b: L.Backend, max: nat)
    returns (w': Table)
    requires TopologyOk(w, max) && Resting(w, p) && q.cost >= c.minCost
    requires Closed(h) && RefsIn(h, [q.planstate]) && max < 0x8000_0000
    ensures PcsOk(w, max) && Performs(Next(w, Begin(p, Track(h, q.planstate)), max), Move(p), w', max) && Back(w, w')
    ensures SameCores(w'.slots, L.StartHook(c, L.Shared(w.slots, []), p, b, q, TopologyStores(h, q.planstate, max),
                                            |Preorder(h, q.planstate, max)|, L.NoFault).0.slots)
  {
    var job, ws, n := Track(h, q.planstate), TopologyStores(h, q.planstate, max), |Preorder(h, q.planstate, max)|;
    var (sh, got) := L.Claim(L.Shared(w.slots, []), p, true);
    var w1 := Next(w, Begin(p, job), max);
    var v := Claims(w, p, job, max);
    if got.Some? {
      Fills(w1, p, v, got.value, ws, n, max);
      var s := sh.slots[got.value];
      var slots := sh.slots[got.value := s.(metrics := ApplyWrites(s.metrics, ws), count := n)];
      BackIs(w, v, p, slots);
      w' := w.(slots := slots);
      StartedSlots(c, L.Shared(w.slots, []), p, b, q, ws, n);
    } else {
      BackIs(w, v, p, sh.slots);
      w' := w.(slots := sh.slots);
      assert w.procs[p := Idle] == w.procs;
    }
  }

  /** The accesses of an end hook leave the slots exactly as the hook does. */
  lemma {:induction false} EndMoves(w: Table, p: int, ws: seq<Write>, b: L.Backend, max: nat) returns (w': Table)
    requires TopologyOk(w, max) && Resting(w, p) && CountersOnly(ws) && b.initialized
    ensures PcsOk(w, max) && Performs(Next(w, Begin(p, Finish(ws)), max), Move(p), w', max) && Back(w, w')
    ensures w'.slots == L.EndHook(L.Shared(w.slots, []), p, b, ws, L.NoFault).0.slots
  {
    var job, own := Finish(ws), FindPid(w.slots, p);
    var w1 := Next(w, Begin(p, job), max);
    Begins(w, p, Begin(p, job), max);
    if own.Some? {
      var i := own.value;
      ScansToOwn(w1, p, w1, job, 0, None, i, max);
      PutTwice(w, w.slots, p, Scanning(job, 0, None), Checking(i, ws));
      w' := Finishes(w1, p, w, i, ws, max);
    } else {
      ScansToEnd(w1, p, w1, job, 0, None, max);
      var v := PutPc(w1, p, Scanning(job, |w.slots|, FirstFree(w.slots, 0, None)));
      MoveOn(w1, p, v, max);
      BackIs(w, v, p, w.slots);
      w' := w;
    }
  }

  lemma {:induction false} Finishes(w1: Table, p: int, w: Table, i: nat, ws: seq<Write>, max: nat) returns (w': Table)
    requires Resting(w, p) && FindPid(w.slots, p) == Some(i) && At(w1, p, PutPc(w, p, Checking(i, ws)), max)
    ensures Performs(w1, Move(p), w', max) && Back(w, w')
    ensures w'.slots == L.Free(L.Stored(L.Shared(w.slots, []), i, ws), i).slots
  {
    var v := PutPc(w, p, Checking(i, ws));
    MoveOn(w1, p, v, max);
    var v1 := MoveStep(v, p, max);
    PutTwice(w, w.slots, p, Checking(i, ws), Storing(i, ws, 0, Release));
    StoresAll(w1, p, v1, i, ws, 0, Release, max);
    assert ws[0..] == ws;
    var slots := WithRecords(w.slots, i, ApplyWrites(w.slots[i].metrics, ws));
    var v2 := PutPc(v1.(slots := slots), p, Storing(i, ws, |ws|, Release));
    MoveOn(w1, p, v2, max);
    var v3 := MoveStep(v2, p, max);
    Releases(w1, p, v3, i, max);
    BackIs(w, v3, p, slots[i := Released(slots[i])]);
    w' := w.(slots := slots[i := Released(slots[i])]);
  }

  /** Those of an abort or an exit release the own slot. */
  lemma {:induction false} LeaveMoves(w: Table, p: int, max: nat) returns (w': Table)
    requires TopologyOk(w, max) && Resting(w, p)
    ensures PcsOk(w, max) && Performs(Next(w, Leave(p), max), Move(p), w', max) && Back(w, w')
    ensures w'.slots == L.ReleaseMine(L.Shared(w.slots, []), p).slots
  {
    var w1 := Next(w, Leave(p), max);
    Begins(w, p, Leave(p), max);
    ReleasesOwn(w1, p, w1, 0, max);
    w' := w.(slots := L.ReleaseMine(L.Shared(w.slots, []), p).slots);
    BackIs(w, w1, p, w'.slots);
  }

  // ---- Errors -------------------------------------------------------------------------------------

  predicate Tracks(pc: Pc) {
    match pc
    case Scanning(job, _, _) => job.Track?
    case Claiming(_, _) => true
    case Storing(_, _, _, ending) => ending.Publish?
    case Counting(_, _) => true
    case Publishing(_) => true
    case _ => false
  }

  /** An error at any access of the guarded part: the catch block of a start releases the own slot, that of an end
      leaves the table alone. */
  lemma {:induction false} RaiseMoves(w: Table, p: int, max: nat) returns (w': Table)
    requires TopologyOk(w, max) && p != 0 && p in w.procs && p !in w.handlers && Guarded(w.procs[p])
    ensures PcsOk(w, max) && Performs(Next(w, Raise(p), max), Move(p), w', max)
    ensures w' == PutPc(w.(slots := w'.slots), p, Idle)
    ensures w'.slots
         == if Tracks(w.procs[p]) then L.ReleaseMine(L.Shared(w.slots, []), p).slots else w.slots
  {
    var w1 := Next(w, Raise(p), max);
    TopologyStep(w, Raise(p), max);
    PerformsNothing(w1, Move(p), max);
    if w1.procs[p].Searching? {
      ReleasesOwn(w1, p, w1, 0, max);
      var slots := L.ReleaseMine(L.Shared(w.slots, []), p).slots;
      PutTwice(w, slots, p, Searching(0), Idle);
      w' := PutPc(w.(slots := slots), p, Idle);
    } else {
      w' := w1;
    }
  }

  // ---- The handler --------------------------------------------------------------------------------

  ghost predicate In(w: Table, p: int, v: Table, max: nat) {
    Performs(w, Handle(p), v, max) && TopologyOk(v, max) && p in v.handlers
  }

  function PutHandler(w: Table, p: int, hd: Handler): Table { w.(handlers := w.handlers[p := hd]) }

  lemma {:induction false} HandleOn(w: Table, p: int, v: Table, max: nat)
    requires In(w, p, v, max)
    ensures Performs(w, Handle(p), HandlerStep(v, p), max) && TopologyOk(HandlerStep(v, p), max)
  {
    PerformsNext(w, Handle(p), v, max);
  }

  lemma {:induction false} PutHandlerTwice(w: Table, slots: seq<Slot>, p: int, a: Handler, b: Handler)
    ensures PutHandler(PutHandler(w, p, a).(slots := slots), p, b) == PutHandler(w.(slots := slots), p, b)
    ensures p !in w.handlers ==> PutHandler(w, p, a).handlers - {p} == w.handlers
  {
    assert w.handlers[p := a][p := b] == w.handlers[p := b];
    assert p !in w.handlers ==> w.handlers[p := a] - {p} == w.handlers;
  }

  /** The handler looks for its slot and refreshes it, or finds none and returns. */
  lemma {:induction false} SeeksSlot(w: Table, p: int, v: Table, ws: seq<Write>, next: nat, max: nat)
    requires In(w, p, v, max) && v.handlers[p] == Seeking(ws, next) && next <= |v.slots|
    requires forall k :: 0 <= k < next ==> v.slots[k].pid != p
    ensures var own := FindPid(v.slots, p);
      if own.Some? then In(w, p, PutHandler(v, p, Refreshing(own.value, ws, 0)), max)
      else Performs(w, Handle(p), v.(handlers := v.handlers - {p}), max)
    decreases |v.slots| - next
  {
    HandleOn(w, p, v, max);
    var v1, own := HandlerStep(v, p), FindPid(v.slots, p);
    if next < |v.slots| && v.slots[next].pid != p {
      SeeksSlot(w, p, v1, ws, next + 1, max);
      if own.Some? {
        PutHandlerTwice(v, v.slots, p, Seeking(ws, next + 1), Refreshing(own.value, ws, 0));
      } else {
        assert v.handlers[p := Seeking(ws, next + 1)] - {p} == v.handlers - {p};
      }
    } else if next < |v.slots| {
      assert own == Some(next);
    }
  }

  lemma {:induction false} RefreshesAll(
      w: Table, p: int, v: Table, slot: nat, ws: seq<Write>, done: nat, max: nat)
    requires In(w, p, v, max) && v.handlers[p] == Refreshing(slot, ws, done)
    ensures slot < |v.slots| && done <= |ws|
    ensures var slots := WithRecords(v.slots, slot, ApplyWrites(v.slots[slot].metrics, ws[done..]));
      In(w, p, PutHandler(v.(slots := slots), p, Refreshing(slot, ws, |ws|)), max)
    decreases |ws| - done
  {
    assert HandlerShapes(v.handlers[p], v.slots);
    if done < |ws| {
      var m := v.slots[slot].metrics;
      HandleOn(w, p, v, max);
      var v1 := HandlerStep(v, p);
      var one := WithRecords(v.slots, slot, ApplyWrite(m, ws[done]));
      assert v1 == PutHandler(v.(slots := one), p, Refreshing(slot, ws, done + 1));
      RefreshesAll(w, p, v1, slot, ws, done + 1, max);
      ApplyRest(m, ws, done);
      var slots := WithRecords(v.slots, slot, ApplyWrites(m, ws[done..]));
      assert WithRecords(one, slot, ApplyWrites(m, ws[done..])) == slots;
      PutHandlerTwice(v.(slots := one), slots, p, Refreshing(slot, ws, done + 1), Refreshing(slot, ws, |ws|));
    } else {
      assert ws[done..] == [] && WithRecords(v.slots, slot, v.slots[slot].metrics) == v.slots;
      assert v.handlers[p := v.handlers[p]] == v.handlers;
    }
  }

  /** The accesses of a handler, whatever its process was doing when it was interrupted. */
  lemma {:induction false} PollMoves(w: Table, p: int, ws: seq<Write>, max: nat) returns (w': Table)
    requires TopologyOk(w, max) && p in w.procs && p !in w.handlers && CountersOnly(ws)
    ensures PcsOk(w, max) && Performs(Next(w, Interrupt(p, ws), max), Handle(p), w', max) && Back(w, w')
    ensures var own, sh := FindPid(w.slots, p), L.Shared(w.slots, []);
      w'.slots == (if own.Some? then L.Polling(sh, own.value, ws).slots else w.slots)
  {
    var w1, own := Next(w, Interrupt(p, ws), max), FindPid(w.slots, p);
    TopologyStep(w, Interrupt(p, ws), max);
    PerformsNothing(w1, Handle(p), max);
    SeeksSlot(w1, p, w1, ws, 0, max);
    if own.Some? {
      w' := Polls(w1, p, w, own.value, ws, max);
    } else {
      PutHandlerTwice(w, w.slots, p, Seeking(ws, 0), Seeking(ws, 0));
      w' := w;
    }
  }

  lemma {:induction false} Polls(w1: Table, p: int, w: Table, i: nat, ws: seq<Write>, max: nat) returns (w': Table)
    requires p !in w.handlers && w1 == PutHandler(w, p, Seeking(ws, 0))
    requires In(w1, p, PutHandler(w1, p, Refreshing(i, ws, 0)), max)
    ensures i < |w.slots| && Performs(w1, Handle(p), w', max) && Back(w, w')
    ensures w'.slots == L.Polling(L.Shared(w.slots, []), i, ws).slots
  {
    var v := PutHandler(w, p, Refreshing(i, ws, 0));
    PutHandlerTwice(w, w.slots, p, Seeking(ws, 0), Refreshing(i, ws, 0));
    RefreshesAll(w1, p, v, i, ws, 0, max);
    assert ws[0..] == ws;
    var slots := WithRecords(w.slots, i, ApplyWrites(w.slots[i].metrics, ws));
    PutHandlerTwice(w, slots, p, Refreshing(i, ws, 0), Refreshing(i, ws, |ws|));
    var v1 := PutHandler(w.(slots := slots), p, Refreshing(i, ws, |ws|));
    HandleOn(w1, p, v1, max);
    var v2 := HandlerStep(v1, p);
    PutHandlerTwice(w, slots, p, Refreshing(i, ws, |ws|), Bumping(i));
    HandleOn(w1, p, v2, max);
    w' := HandlerStep(v2, p);
    PutHandlerTwice(w, slots, p, Bumping(i), Bumping(i));
  }

  // ---- The reaper ---------------------------------------------------------------------------------

  /** One turn of the reaper at slot `i`: a free slot is passed over, any other is read, tested, and freed if its
      process is dead. */
  ghost predicate Turn(w: Table, i: nat, w': Table, max: nat) {
    && i < |w.slots| && PcsOk(w, max) && w.reaper.Resting? && w'.reaper.Resting?
    && if w.slots[i].pid == 0 then w' == w else Performs(Next(w, ReaperRead(i), max), ReaperMove, w', max)
  }

  lemma {:induction false} ReapTurn(w: Table, i: nat, max: nat) returns (w': Table)
    requires TopologyOk(w, max) && w.reaper.Resting? && i < |w.slots|
    ensures Turn(w, i, w', max) && TopologyOk(w', max) && Back(w, w')
    ensures var s := w.slots[i];
      w'.slots == if Active(s) && s.pid !in w.procs then w.slots[i := Released(s)] else w.slots
  {
    assert PcsOk(w, max);
    if w.slots[i].pid == 0 {
      w' := w;
    } else {
      TopologyStep(w, ReaperRead(i), max);
      var w1 := Next(w, ReaperRead(i), max);
      PerformsNothing(w1, ReaperMove, max);
      PerformsNext(w1, ReaperMove, w1, max);
      w' := ReaperStep(w1);
      if w.slots[i].pid !in w.procs {
        PerformsNext(w1, ReaperMove, w', max);
        w' := ReaperStep(w');
        PerformsNext(w1, ReaperMove, w', max);
        w' := ReaperStep(w');
      }
    }
  }

  /** The turns at the first slots, one after the other. */
  ghost predicate Pass(turns: seq<Table>, max: nat) {
    turns != [] && forall i :: 0 <= i < |turns| - 1 ==> TurnAt(turns, i, max)
  }

  ghost predicate TurnAt(turns: seq<Table>, i: nat, max: nat)
    requires i + 1 < |turns|
  {
    Turn(turns[i], i, turns[i + 1], max)
  }

  /** A pass of the reaper over the first `n` slots frees what the operation frees. */
  lemma {:induction false} ReapMoves(w: Table, n: nat, max: nat) returns (turns: seq<Table>)
    requires TopologyOk(w, max) && w.reaper.Resting? && n <= |w.slots|
    ensures Pass(turns, max) && |turns| == n + 1 && turns[0] == w
    ensures TopologyOk(turns[n], max) && turns[n].reaper.Resting? && Back(w, turns[n])
    ensures turns[n].slots == L.Reap(L.Shared(w.slots, []), w.procs.Keys, n).slots
    decreases n
  {
    if n == 0 {
      turns := [w];
    } else {
      var i := n - 1;
      var before := ReapMoves(w, i, max);
      var last := ReapTurn(before[i], i, max);
      turns := before + [last];
      ReapNext(w, i, before[i], last);
      forall k | 0 <= k < |turns| - 1 ensures TurnAt(turns, k, max) {
        assert k < i ==> TurnAt(before, k, max);
      }
    }
  }

  lemma {:induction false} ReapNext(w: Table, i: nat, v: Table, w': Table)
    requires i < |w.slots| && v.slots == L.Reap(L.Shared(w.slots, []), w.procs.Keys, i).slots && v.procs == w.procs
    requires |v.slots| == |w.slots|
    requires var s := v.slots[i];
      w'.slots == if Active(s) && s.pid !in v.procs then v.slots[i := Released(s)] else v.slots
    ensures w'.slots == L.Reap(L.Shared(w.slots, []), w.procs.Keys, i + 1).slots
  {
  }

  // ---- The private side of the hooks --------------------------------------------------------------

  /** The private state of `Publication` as that of `Lifecycle`; `name` gives the descriptor of a query. */
  function Mind(b: P.Private, name: nat -> QueryDesc, attached: bool, t: Tally): L.Backend {
    var desc := if b.current.Some? then Some(name(b.current.value)) else None;
    L.Backend(desc, b.initialized, b.hooked, attached, t)
  }

  /** A tracked start initialises the backend, and leaves the current query for its last access. */
  lemma {:induction false} StartActs(
      w: P.World, p: int, q: nat, h: Heap, r: Ref, max: nat, name: nat -> QueryDesc, attached: bool, t: Tally)
    requires P.Ready(w, max) && P.Can(w, P.Start(p, q, Some((h, r))), max) && P.HookFits(w, p)
    requires w.backends[p].initialized ==> attached
    ensures var b, b' := w.backends[p], P.Go(w, P.Start(p, q, Some((h, r))), max).backends[p];
      Mind(b', name, true, t) == L.Initialized(Mind(b, name, attached, t)) && b'.hook == Some(q)
  {
  }

  /** The last access of a start sets the current query to its own, that of an end hook that found a slot clears
      it, and no other access of a hook changes what `Lifecycle` sees of its process. */
  lemma {:induction false} MoveActs(w: P.World, p: int, max: nat, name: nat -> QueryDesc, attached: bool, t: Tally)
    requires P.Ready(w, max) && P.Can(w, P.Access(Move(p)), max) && P.HookFits(w, p) && TopologyOk(w.table, max)
    ensures var b, w' := w.backends[p], P.Go(w, P.Access(Move(p)), max);
      var pc, pc', m := w.table.procs[p], w'.table.procs[p], Mind(b, name, attached, t);
      Mind(w'.backends[p], name, attached, t)
        == if pc.Publishing? then m.(desc := Some(name(b.hook.value)))
           else if pc'.Idle? && (pc.Checking? || (pc.Ageing? && b.hook.Some?)) then m.(desc := None)
           else m
  {
    match w.table.procs[p]
    case Scanning(_, _, _) =>
    case Checking(_, _) =>
    case Ageing(_) =>
    case Publishing(_) =>
    case _ =>
  }

  /** The catch blocks do to the process what those of `Lifecycle` do. */
  lemma {:induction false} RaiseActs(
      w: P.World, p: int, max: nat, name: nat -> QueryDesc, attached: bool, t: Tally, sh: L.Shared)
    requires P.Ready(w, max) && P.Can(w, P.Access(Raise(p)), max) && P.HookFits(w, p)
    ensures var m := Mind(w.backends[p], name, attached, t);
      Mind(P.Go(w, P.Access(Raise(p)), max).backends[p], name, attached, t)
        == if Tracks(w.table.procs[p]) then L.StartFailed(sh, p, m).1 else L.EndHook(sh, p, m, [], L.AtOnce).1
  {
  }

  /** And so does the abort callback. */
  lemma {:induction false} AbortActs(
      w: P.World, p: int, max: nat, name: nat -> QueryDesc, attached: bool, t: Tally, sh: L.Shared)
    requires P.Ready(w, max) && P.Can(w, P.Abort(p), max)
    ensures Mind(P.Go(w, P.Abort(p), max).backends[p], name, attached, t)
         == L.AbortHook(sh, p, Mind(w.backends[p], name, attached, t)).1
  {
  }
}
