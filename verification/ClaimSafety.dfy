/** Who owns a slot while claims and the reaper share the table lock: exactly which steps take a slot away
    from a process at work in it, runs in which that happens, and what exclusive sections would give. */
module ClaimSafety {
  import opened Basics
  import opened Plans
  import opened Slots
  import opened Interleaving

  // ---- Writers and their slots ------------------------------------------------------------------

  /** The slot in which a hook is at work, from finding it to giving it back. */
  function WorkSlot(pc: Pc): Option<nat> {
    match pc
    case Checking(slot, _) => Some(slot)
    case Storing(slot, _, _, _) => Some(slot)
    case Counting(slot, _) => Some(slot)
    case Publishing(slot) => Some(slot)
    case Zeroing(slot) => Some(slot)
    case _ => None
  }

  function HandlerSlot(hd: Handler): Option<nat> {
    match hd
    case Seeking(_, _) => None
    case Refreshing(slot, _, _) => Some(slot)
    case Bumping(slot) => Some(slot)
  }

  predicate Names(slots: seq<Slot>, p: int, at: Option<nat>) {
    at.Some? ==> at.value < |slots| && slots[at.value].pid == p
  }

  /** Every process that is at work in a slot, by a hook or by its handler, is the one the slot names. */
  ghost predicate WritersOwn(w: Table) {
    && (forall p :: p in w.procs ==> Names(w.slots, p, WorkSlot(w.procs[p])))
    && (forall p :: p in w.handlers ==> Names(w.slots, p, HandlerSlot(w.handlers[p])))
  }

  predicate WorksIn(w: Table, p: int, i: nat) {
    (p in w.procs && WorkSlot(w.procs[p]) == Some(i)) || (p in w.handlers && HandlerSlot(w.handlers[p]) == Some(i))
  }

  /** The step writes a pid into a slot in which another live process is at work: a claim's store, or the
      store by which the reaper frees a slot. */
  ghost predicate Intrudes(w: Table, s: Step) {
    match s
    case Move(p) =>
      p in w.procs && w.procs[p].Claiming? && exists q :: q in w.procs && q != p && WorksIn(w, q, w.procs[p].target)
    case ReaperMove => w.reaper.Sentenced? && exists q :: q in w.procs && WorksIn(w, q, w.reaper.slot)
    case _ => false
  }

  ghost predicate TableInv(w: Table, max: nat) { PidsOk(w) && TopologyOk(w, max) }

  lemma {:induction false} ClaimStoreOwn(w: Table, p: int, max: nat)
    requires TableInv(w, max) && WritersOwn(w) && Enabled(w, Move(p), max) && w.procs[p].Claiming?
    ensures WritersOwn(MoveStep(w, p, max)) <==> !Intrudes(w, Move(p))
  {
    var w', t := MoveStep(w, p, max), w.procs[p].target;
    assert PcShapes(w.procs[p], w.slots, max);
    if Intrudes(w, Move(p)) {
      var q :| q in w.procs && q != p && WorksIn(w, q, t);
      assert WorksIn(w', q, t) && !Names(w'.slots, q, Some(t));
    } else {
      forall q | q in w'.procs ensures Names(w'.slots, q, WorkSlot(w'.procs[q])) {
        assert q != p ==> Names(w.slots, q, WorkSlot(w.procs[q])) && !WorksIn(w, q, t);
      }
      forall q | q in w'.handlers ensures Names(w'.slots, q, HandlerSlot(w'.handlers[q])) {
        assert q != p && Names(w.slots, q, HandlerSlot(w.handlers[q])) && !WorksIn(w, q, t);
      }
    }
  }

  lemma {:induction false} ReaperStoreOwn(w: Table, max: nat)
    requires TableInv(w, max) && WritersOwn(w) && w.reaper.Sentenced?
    ensures WritersOwn(ReaperStep(w)) <==> !Intrudes(w, ReaperMove)
  {
    var w', t := ReaperStep(w), w.reaper.slot;
    if Intrudes(w, ReaperMove) {
      var q :| q in w.procs && WorksIn(w, q, t);
      assert WorksIn(w', q, t) && !Names(w'.slots, q, Some(t));
    } else {
      forall q | q in w'.procs ensures Names(w'.slots, q, WorkSlot(w'.procs[q])) {
        assert Names(w.slots, q, WorkSlot(w.procs[q])) && !WorksIn(w, q, t);
      }
      forall q | q in w'.handlers ensures Names(w'.slots, q, HandlerSlot(w'.handlers[q])) {
        assert Names(w.slots, q, HandlerSlot(w.handlers[q])) && !WorksIn(w, q, t);
      }
    }
  }

  /** Every other step of a hook leaves the pids alone, or clears the pid of the process' own slot. */
  lemma {:induction false} HookMoveOwn(w: Table, p: int, max: nat)
    requires TableInv(w, max) && WritersOwn(w) && Enabled(w, Move(p), max) && !w.procs[p].Claiming?
    ensures WritersOwn(MoveStep(w, p, max))
  {
    var w' := MoveStep(w, p, max);
    assert Names(w.slots, p, WorkSlot(w.procs[p]));
    forall q | q in w'.procs ensures Names(w'.slots, q, WorkSlot(w'.procs[q])) {
      assert q != p ==> Names(w.slots, q, WorkSlot(w.procs[q]));
    }
    forall q | q in w'.handlers ensures Names(w'.slots, q, HandlerSlot(w'.handlers[q])) {
      assert q != p && Names(w.slots, q, HandlerSlot(w.handlers[q]));
    }
  }

  lemma {:induction false} HandleOwn(w: Table, p: int, max: nat)
    requires TableInv(w, max) && WritersOwn(w) && p in w.handlers
    ensures WritersOwn(HandlerStep(w, p))
  {
    var w' := HandlerStep(w, p);
    forall q | q in w'.procs ensures Names(w'.slots, q, WorkSlot(w'.procs[q])) {
      assert Names(w.slots, q, WorkSlot(w.procs[q]));
    }
    forall q | q in w'.handlers ensures Names(w'.slots, q, HandlerSlot(w'.handlers[q])) {
      assert Names(w.slots, q, HandlerSlot(w.handlers[q]));
    }
  }

  /** The remaining steps write no pid and put no process to work. */
  lemma {:induction false} QuietStepOwn(w: Table, s: Step, max: nat)
    requires PcsOk(w, max) && WritersOwn(w) && Enabled(w, s, max) && !s.Move? && !s.Handle?
    requires !(s.ReaperMove? && w.reaper.Sentenced?)
    ensures WritersOwn(Next(w, s, max))
  {
    var w' := Next(w, s, max);
    assert |w'.slots| == |w.slots| && forall i :: 0 <= i < |w.slots| ==> w'.slots[i].pid == w.slots[i].pid;
    forall q | q in w'.procs ensures Names(w'.slots, q, WorkSlot(w'.procs[q])) {
      assert q in w.procs && w'.procs[q] == w.procs[q] ==> Names(w.slots, q, WorkSlot(w.procs[q]));
    }
    forall q | q in w'.handlers ensures Names(w'.slots, q, HandlerSlot(w'.handlers[q])) {
      assert q in w.handlers && w'.handlers[q] == w.handlers[q] ==> Names(w.slots, q, HandlerSlot(w.handlers[q]));
    }
  }

  /** Of all steps, exactly the intruding ones end the ownership of the writers. */
  lemma {:induction false} OwnershipStepIff(w: Table, s: Step, max: nat)
    requires TableInv(w, max) && PcsOk(w, max) && WritersOwn(w) && Enabled(w, s, max)
    ensures WritersOwn(Next(w, s, max)) <==> !Intrudes(w, s)
  {
    if s.Move? {
      if w.procs[s.p].Claiming? {
        ClaimStoreOwn(w, s.p, max);
      } else {
        HookMoveOwn(w, s.p, max);
      }
    } else if s.ReaperMove? && w.reaper.Sentenced? {
      ReaperStoreOwn(w, max);
    } else if s.Handle? {
      HandleOwn(w, s.p, max);
    } else {
      QuietStepOwn(w, s, max);
    }
  }

  ghost predicate Took(run: seq<Table>, i: nat, s: Step, max: nat)
    requires i + 1 < |run|
  {
    PcsOk(run[i], max) && Enabled(run[i], s, max) && run[i + 1] == Next(run[i], s, max)
  }

  ghost predicate IntrudedAt(run: seq<Table>, j: nat, max: nat)
    requires j + 1 < |run|
  {
    exists s :: Took(run, j, s, max) && Intrudes(run[j], s)
  }

  lemma {:induction false} OwnershipAt(run: seq<Table>, n: nat, max: nat, k: nat)
    requires IsRun(run, n, max) && k + 1 < |run| && WritersOwn(run[k])
    ensures WritersOwn(run[k + 1]) <==> !IntrudedAt(run, k, max)
  {
    RunInvariant(run, n, max, k);
    assert Follows(run, k, max);
    var s :| PcsOk(run[k], max) && Enabled(run[k], s, max) && run[k + 1] == Next(run[k], s, max);
    assert Took(run, k, s, max);
    OwnershipStepIff(run[k], s, max);
    if IntrudedAt(run, k, max) {
      var t :| Took(run, k, t, max) && Intrudes(run[k], t);
      OwnershipStepIff(run[k], t, max);
    }
  }

  /** Up to any point of any run, whoever is at work in a slot is the process it names, if and only if no
      claim store and no store of the reaper hit a slot in which another live process was at work. */
  lemma {:induction false} OwnershipIff(run: seq<Table>, n: nat, max: nat, i: nat)
    requires IsRun(run, n, max) && i < |run|
    ensures (forall j :: 0 <= j <= i ==> WritersOwn(run[j])) <==> (forall j :: 0 <= j < i ==> !IntrudedAt(run, j, max))
    decreases i
  {
    if i == 0 {
      assert run[0] == Start(n, max);
    } else {
      var k := i - 1;
      OwnershipIff(run, n, max, k);
      if WritersOwn(run[k]) {
        OwnershipAt(run, n, max, k);
      }
    }
  }

  // ---- Exclusive sections -----------------------------------------------------------------------

  predicate InClaim(pc: Pc) { pc.Scanning? || pc.Claiming? }

  predicate InReap(r: Reaper) { r.Read? || r.Sentenced? }

  ghost predicate NoClaim(w: Table) { forall q :: q in w.procs ==> !InClaim(w.procs[q]) }

  /** A step of a system in which the sections that claim slots and those that reap them exclude each other,
      and in which a pid that still labels a slot is not given to a new process. */
  ghost predicate Serial(w: Table, s: Step, max: nat) {
    && Enabled(w, s, max)
    && (s.Begin? ==> NoClaim(w) && !InReap(w.reaper))
    && (s.ReaperRead? ==> NoClaim(w))
    && (s.Spawn? ==> forall i :: 0 <= i < |w.slots| ==> w.slots[i].pid != s.p)
  }

  predicate Reserved(slots: seq<Slot>, pc: Pc) {
    match pc
    case Scanning(_, _, free) => free.Some? ==> free.value < |slots| && slots[free.value].pid == 0
    case Claiming(_, target) => target < |slots| && slots[target].pid == 0
    case _ => true
  }

  predicate ReaperSure(w: Table) {
    match w.reaper
    case Read(slot, pid) => slot < |w.slots| && w.slots[slot].pid in {0, pid}
    case Sentenced(slot) => slot < |w.slots| && w.slots[slot].pid !in w.procs
    case _ => true
  }

  ghost predicate OneClaimer(w: Table) {
    forall p, q :: p in w.procs && q in w.procs && p != q ==> !InClaim(w.procs[p]) || !InClaim(w.procs[q])
  }

  /** What exclusive sections keep: the slot a claimer has chosen stays free, one process claims at a time
      and none while the reaper decides, and what the reaper decided stays true. */
  ghost predicate Careful(w: Table) {
    && (forall p :: p in w.procs ==> Reserved(w.slots, w.procs[p]))
    && OneClaimer(w)
    && (InReap(w.reaper) ==> NoClaim(w))
    && ReaperSure(w)
  }

  lemma {:induction false} CarefulNoIntrusion(w: Table, s: Step, max: nat)
    requires TableInv(w, max) && WritersOwn(w) && Careful(w) && Enabled(w, s, max)
    ensures !Intrudes(w, s)
  {
    if s.Move? && w.procs[s.p].Claiming? {
      assert Reserved(w.slots, w.procs[s.p]);
      forall q | q in w.procs && q != s.p ensures !WorksIn(w, q, w.procs[s.p].target) {
        assert Names(w.slots, q, WorkSlot(w.procs[q]));
        assert q in w.handlers ==> Names(w.slots, q, HandlerSlot(w.handlers[q]));
      }
    } else if s.ReaperMove? && w.reaper.Sentenced? {
      forall q | q in w.procs ensures !WorksIn(w, q, w.reaper.slot) {
        assert Names(w.slots, q, WorkSlot(w.procs[q]));
        assert q in w.handlers ==> Names(w.slots, q, HandlerSlot(w.handlers[q]));
      }
    }
  }

  /** What a claimer relies on survives a move of another process that is not claiming. */
  lemma {:induction false} ReservedKept(w: Table, p: int, q: int, max: nat)
    requires TableInv(w, max) && Enabled(w, Move(p), max) && q in w.procs && q != p && Reserved(w.slots, w.procs[q])
    requires !InClaim(w.procs[p]) || !InClaim(w.procs[q])
    ensures Reserved(MoveStep(w, p, max).slots, w.procs[q])
  {
    MoveShapes(w, p, max);
  }

  lemma {:induction false} MoverCareful(w: Table, p: int, max: nat)
    requires TableInv(w, max) && Careful(w) && Enabled(w, Move(p), max)
    ensures var w' := MoveStep(w, p, max);
      Reserved(w'.slots, w'.procs[p]) && ReaperSure(w') && (InClaim(w'.procs[p]) ==> InClaim(w.procs[p]))
  {
    MoveShapes(w, p, max);
    assert Reserved(w.slots, w.procs[p]);
  }

  lemma {:induction false} CarefulMove(w: Table, p: int, max: nat)
    requires TableInv(w, max) && Careful(w) && Enabled(w, Move(p), max)
    ensures Careful(MoveStep(w, p, max))
  {
    var w' := MoveStep(w, p, max);
    MoveShapes(w, p, max);
    MoverCareful(w, p, max);
    forall q | q in w'.procs && q != p ensures Reserved(w'.slots, w'.procs[q]) {
      ReservedKept(w, p, q, max);
    }
  }

  lemma {:induction false} CarefulQuiet(w: Table, s: Step, max: nat)
    requires TableInv(w, max) && PcsOk(w, max) && Careful(w) && Serial(w, s, max) && !s.Move?
    ensures var w' := Next(w, s, max); ReaperSure(w') && forall q :: q in w'.procs ==> Reserved(w'.slots, w'.procs[q])
  {
    var w' := Next(w, s, max);
    forall q | q in w'.procs ensures Reserved(w'.slots, w'.procs[q]) {
      assert q in w.procs && w'.procs[q] == w.procs[q] ==> Reserved(w.slots, w.procs[q]);
    }
  }

  lemma {:induction false} CarefulStep(w: Table, s: Step, max: nat)
    requires TableInv(w, max) && PcsOk(w, max) && Careful(w) && Serial(w, s, max)
    ensures Careful(Next(w, s, max))
  {
    if s.Move? {
      CarefulMove(w, s.p, max);
    } else {
      CarefulQuiet(w, s, max);
    }
  }

  /** A run whose claims and reaping exclude each other. */
  ghost predicate IsSerialRun(run: seq<Table>, n: nat, max: nat) {
    && run != [] && run[0] == Start(n, max)
    && forall i :: 0 <= i < |run| - 1 ==> SerialFollows(run, i, max)
  }

  ghost predicate SerialFollows(run: seq<Table>, i: nat, max: nat)
    requires i + 1 < |run|
  {
    exists s :: Took(run, i, s, max) && Serial(run[i], s, max)
  }

  lemma {:induction false} SerialRunIsRun(run: seq<Table>, n: nat, max: nat)
    requires IsSerialRun(run, n, max)
    ensures IsRun(run, n, max)
  {
    forall i | 0 <= i < |run| - 1 ensures Follows(run, i, max) {
      assert SerialFollows(run, i, max);
    }
  }

  lemma {:induction false} SerialStep(w: Table, s: Step, max: nat)
    requires TableInv(w, max) && PcsOk(w, max) && WritersOwn(w) && Careful(w) && Serial(w, s, max)
    ensures WritersOwn(Next(w, s, max)) && Careful(Next(w, s, max))
  {
    CarefulNoIntrusion(w, s, max);
    OwnershipStepIff(w, s, max);
    CarefulStep(w, s, max);
  }

  lemma {:induction false} SerialNext(run: seq<Table>, i: nat, max: nat) returns (s: Step)
    requires i + 1 < |run| && SerialFollows(run, i, max)
    ensures Took(run, i, s, max) && Serial(run[i], s, max)
  {
    s :| Took(run, i, s, max) && Serial(run[i], s, max);
  }

  /** With exclusive sections no step of any run intrudes, so every writer owns its slot. */
  lemma {:induction false} SerialOwnership(run: seq<Table>, n: nat, max: nat, i: nat)
    requires IsSerialRun(run, n, max) && i < |run|
    ensures WritersOwn(run[i]) && Careful(run[i])
    decreases i
  {
    if i > 0 {
      var k := i - 1;
      SerialOwnership(run, n, max, k);
      SerialRunIsRun(run, n, max);
      RunInvariant(run, n, max, k);
      assert SerialFollows(run, k, max);
      var s := SerialNext(run, k, max);
      SerialStep(run[k], s, max);
    }
  }

  // ---- Runs in which a slot is lost -------------------------------------------------------------

  lemma {:induction false} Extend(run: seq<Table>, n: nat, max: nat, s: Step) returns (longer: seq<Table>)
    requires IsRun(run, n, max) && PcsOk(run[|run| - 1], max) && Enabled(run[|run| - 1], s, max)
    ensures longer == run + [Next(run[|run| - 1], s, max)] && IsRun(longer, n, max)
  {
    longer := run + [Next(run[|run| - 1], s, max)];
    forall i | 0 <= i < |longer| - 1 ensures Follows(longer, i, max) {
      if i < |run| - 1 {
        assert Follows(run, i, max);
        var t :| PcsOk(run[i], max) && Enabled(run[i], t, max) && run[i + 1] == Next(run[i], t, max);
        assert longer[i] == run[i] && longer[i + 1] == run[i + 1];
      } else {
        assert longer[i] == run[i] && longer[i + 1] == Next(longer[i], s, max);
      }
    }
  }

  /** The first free slot a scan comes to. */
  function FirstFree(slots: seq<Slot>, next: nat, free: Option<nat>): Option<nat>
    decreases |slots| - next
  {
    if free.Some? || next >= |slots| then free
    else if slots[next].pid == 0 then Some(next)
    else FirstFree(slots, next + 1, free)
  }

  /** A scan that finds no slot of its own runs to the end of the table. */
  lemma {:induction false} ScanOn(run: seq<Table>, n: nat, max: nat, p: int, job: Job, next: nat, free: Option<nat>)
    returns (longer: seq<Table>)
    requires IsRun(run, n, max) && p in run[|run| - 1].procs && p !in run[|run| - 1].handlers
    requires run[|run| - 1].procs[p] == Scanning(job, next, free) && JobOk(job, max)
    requires next <= |run[|run| - 1].slots| && FindPid(run[|run| - 1].slots, p).None? && p != 0
    ensures IsRun(longer, n, max)
    ensures var w := run[|run| - 1];
      longer[|longer| - 1] == PutPc(w, p, Scanning(job, |w.slots|, FirstFree(w.slots, next, free)))
    decreases |run[|run| - 1].slots| - next
  {
    var w := run[|run| - 1];
    if next == |w.slots| {
      longer := run;
      assert w.procs[p := w.procs[p]] == w.procs;
    } else {
      RunInvariant(run, n, max, |run| - 1);
      var free' := if free.None? && w.slots[next].pid == 0 then Some(next) else free;
      longer := Extend(run, n, max, Move(p));
      assert longer[|longer| - 1] == PutPc(w, p, Scanning(job, next + 1, free'));
      longer := ScanOn(longer, n, max, p, job, next + 1, free');
    }
  }

  lemma {:induction false} BlankScan(n: nat, max: nat, p: int)
    requires n > 0 && p != 0
    ensures FindPid(BlankTable(n, max), p).None? && FirstFree(BlankTable(n, max), 0, None) == Some(0)
  {
  }

  /** Under the shared lock ownership does fail, in tables of any size: both backends see slot 0 free and both
      claim it, and the first goes on storing into a slot that now names the second. */
  lemma {:induction false} SharedLockLosesClaim(p: int, q: int, h: Heap, r: Ref, n: nat, max: nat)
    returns (run: seq<Table>)
    requires p != 0 && q != 0 && p != q && JobOk(Track(h, r), max) && n > 0
    ensures IsRun(run, n, max)
    ensures var w := run[|run| - 1];
      && p in w.procs && q in w.procs && w.procs[p] == w.procs[q] == StartJob(0, Track(h, r), max)
      && |w.slots| == n && w.slots[0].pid == q && FindPid(w.slots, p).None? && !WritersOwn(w)
  {
    run := BothHaveScanned(p, q, Track(h, r), n, max);
    run := Extend(run, n, max, Move(p));
    run := Extend(run, n, max, Move(q));
    run := Extend(run, n, max, Move(p));
    run := Extend(run, n, max, Move(q));
    assert !Names(run[|run| - 1].slots, p, WorkSlot(run[|run| - 1].procs[p]));
  }

  lemma {:induction false} BothHaveScanned(p: int, q: int, job: Job, n: nat, max: nat) returns (run: seq<Table>)
    requires p != 0 && q != 0 && p != q && JobOk(job, max) && n > 0
    ensures IsRun(run, n, max)
    ensures var seen := Scanning(job, n, Some(0));
      run[|run| - 1] == Table(BlankTable(n, max), map[p := seen, q := seen], map[], Resting)
  {
    BlankScan(n, max, p);
    BlankScan(n, max, q);
    run := [Start(n, max)];
    run := Extend(run, n, max, Spawn(p));
    run := Extend(run, n, max, Begin(p, job));
    run := ScanOn(run, n, max, p, job, 0, None);
    run := Extend(run, n, max, Spawn(q));
    run := Extend(run, n, max, Begin(q, job));
    run := ScanOn(run, n, max, q, job, 0, None);
    assert run[|run| - 1].procs == map[p := Scanning(job, n, Some(0)), q := Scanning(job, n, Some(0))];
  }

  /** Without any second claimer the reaper can do it: it finds the owner of slot 0 dead, a new process gets
      the same pid, recognises the slot as its own and fills it, and only then is the slot freed. */
  lemma {:induction false} ReaperTakesReusedPid(p: int, h: Heap, r: Ref, n: nat, max: nat) returns (run: seq<Table>)
    requires p != 0 && JobOk(Track(h, r), max) && n > 0
    ensures IsRun(run, n, max)
    ensures var w := run[|run| - 1];
      && p in w.procs && w.procs[p] == StartJob(0, Track(h, r), max)
      && |w.slots| == n && w.slots[0].pid == 0 && !WritersOwn(w)
  {
    run := OneHasClaimed(p, Track(h, r), n, max);
    run := Extend(run, n, max, Die(p));
    run := Extend(run, n, max, ReaperRead(0));
    run := Extend(run, n, max, ReaperMove);
    run := Extend(run, n, max, Spawn(p));
    run := Extend(run, n, max, Begin(p, Track(h, r)));
    run := Extend(run, n, max, Move(p));
    run := Extend(run, n, max, ReaperMove);
    assert !Names(run[|run| - 1].slots, p, WorkSlot(run[|run| - 1].procs[p]));
  }

  lemma {:induction false} OneHasClaimed(p: int, job: Job, n: nat, max: nat) returns (run: seq<Table>)
    requires p != 0 && job.Track? && JobOk(job, max) && n > 0
    ensures IsRun(run, n, max)
    ensures var w := run[|run| - 1];
      w == Table(BlankTable(n, max)[0 := Blank(max).(pid := p)], map[p := StartJob(0, job, max)], map[], Resting)
  {
    BlankScan(n, max, p);
    run := [Start(n, max)];
    run := Extend(run, n, max, Spawn(p));
    run := Extend(run, n, max, Begin(p, job));
    run := ScanOn(run, n, max, p, job, 0, None);
    run := Extend(run, n, max, Move(p));
    run := Extend(run, n, max, Move(p));
  }
}
