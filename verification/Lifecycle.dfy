/** The hooks as whole operations on the slot table, for any number of backends and any nesting of
    queries, and what the history of events says about slots, generations and the current query. */
module Lifecycle {
  import opened Basics
  import opened NodeWrites
  import opened Slots

  // ---- Operations on the shared table -----------------------------------------------------------

  /** What happened to a slot: it was taken, freed, or refreshed by a signal. */
  datatype Effect = Claimed(slot: nat) | Freed(slot: nat) | Polled(slot: nat)

  /** The table together with everything that happened to it since it was initialised. */
  datatype Shared = Shared(slots: seq<Slot>, log: seq<Effect>)

  function Free(sh: Shared, i: nat): Shared
    requires i < |sh.slots|
  {
    Shared(sh.slots[i := Released(sh.slots[i])], sh.log + [Freed(i)])
  }

  /** pwh_get_or_create_my_backend_entry_impl: the table afterwards and the slot returned. */
  function Claim(sh: Shared, p: int, create: bool): (r: (Shared, Option<nat>))
    requires p != 0
    ensures |r.0.slots| == |sh.slots|
    ensures r.1.Some? ==> r.1.value < |sh.slots| && r.0.slots[r.1.value].pid == p
    ensures r.1.None? ==> r.0 == sh
  {
    var own, free := FindPid(sh.slots, p), FindPid(sh.slots, 0);
    if own.Some? then (sh, own)
    else if create && free.Some? then
      (Shared(sh.slots[free.value := sh.slots[free.value].(pid := p)], sh.log + [Claimed(free.value)]), free)
    else (sh, None)
  }

  /** pwh_release_my_backend_entry. */
  function ReleaseMine(sh: Shared, p: int): Shared {
    var own := FindPid(sh.slots, p);
    if own.Some? then Free(sh, own.value) else sh
  }

  /** pwh_cleanup_orphaned_slots on the first `n` slots: every active slot of a dead process is freed. */
  function Reap(sh: Shared, alive: set<int>, n: nat): (r: Shared)
    requires n <= |sh.slots|
    ensures |r.slots| == |sh.slots|
    decreases n
  {
    if n == 0 then sh
    else
      var before := Reap(sh, alive, n - 1);
      if Active(before.slots[n - 1]) && before.slots[n - 1].pid !in alive then Free(before, n - 1) else before
  }

  // ---- The hooks of one backend -----------------------------------------------------------------

  /** One process: CURRENT_QUERY_DESC, WAS_BACKEND_INITIALIZED, whether the callbacks and the handler are
      installed, whether PWH_SHMEM is set, and the handler's counters. */
  datatype Backend = Backend(desc: Option<QueryDesc>, initialized: bool, hooked: bool, attached: bool, tally: Tally)

  /** Where, if anywhere, the guarded part of a hook raises an error: before it has a slot, behind some stores
      of its pass, or behind the pass and some stores of the header. */
  datatype Fault = NoFault | AtOnce | AfterStores(k: nat) | AfterHeader(k: nat)

  datatype Settings = Settings(minCost: real, textLen: nat)

  function Stored(sh: Shared, i: nat, ws: seq<Write>): Shared
    requires i < |sh.slots|
  {
    sh.(slots := sh.slots[i := sh.slots[i].(metrics := ApplyWrites(sh.slots[i].metrics, ws))])
  }

  /** The first `k` stores of the header. */
  function HeaderUpTo(s: Slot, q: QueryDesc, count: nat, textLen: nat, k: nat): Slot {
    var s1 := if k >= 1 then s.(count := count % U32_SIZE) else s;
    var s2 := if k >= 2 then s1.(startTime := q.startedAt) else s1;
    var s3 := if k >= 3 then s2.(queryId := q.queryId) else s2;
    if k >= 4 then s3.(text := StoredText(q, textLen)) else s3
  }

  /** The slot a successful start leaves: the stores `ws` done and the header published. */
  function Published(s: Slot, q: QueryDesc, ws: seq<Write>, count: nat, textLen: nat): Slot {
    s.(metrics := ApplyWrites(s.metrics, ws), count := count % U32_SIZE, startTime := q.startedAt,
       queryId := q.queryId, text := StoredText(q, textLen))
  }

  /** The slot that the guarded part of the start leaves, as far as it got. */
  function Begun(s: Slot, q: QueryDesc, ws: seq<Write>, count: nat, textLen: nat, f: Fault): Slot {
    match f
    case NoFault => Published(s, q, ws, count, textLen)
    case AtOnce => s
    case AfterStores(k) => s.(metrics := ApplyWrites(s.metrics, Cut(ws, k)))
    case AfterHeader(k) => HeaderUpTo(s.(metrics := ApplyWrites(s.metrics, ws)), q, count, textLen, k)
  }

  /** Storing the header behind the pass, in part or as a whole. */
  lemma {:induction false} HeaderAfterStores(
      sh: Shared, i: nat, q: QueryDesc, ws: seq<Write>, count: nat, textLen: nat, k: nat)
    requires i < |sh.slots|
    ensures var s := Stored(sh, i, ws);
      s.(slots := s.slots[i := HeaderUpTo(s.slots[i], q, count, textLen, k)])
      == sh.(slots := sh.slots[i := Begun(sh.slots[i], q, ws, count, textLen, AfterHeader(k))])
    ensures k >= 4 ==>
              Begun(sh.slots[i], q, ws, count, textLen, AfterHeader(k))
                == Published(sh.slots[i], q, ws, count, textLen)
  {
  }

  function Initialized(b: Backend): Backend {
    if b.initialized then b else b.(initialized := true, hooked := true, attached := true)
  }

  /** The catch block of the start hook. */
  function StartFailed(sh: Shared, p: int, b: Backend): (Shared, Backend) {
    (ReleaseMine(sh, p), b.(desc := None, initialized := false))
  }

  /** The guarded part of the start hook; the last result tells that an error was raised. */
  function TryStart(c: Settings, sh: Shared, p: int, b: Backend, q: QueryDesc, ws: seq<Write>, count: nat, f: Fault)
    : (Shared, Backend, bool)
    requires p != 0
  {
    if f.AtOnce? then (sh, b, true)
    else
      var (sh1, got) := Claim(sh, p, true);
      if got.None? then (sh1, b, false)
      else
        var i := got.value;
        (sh1.(slots := sh1.slots[i := Begun(sh1.slots[i], q, ws, count, c.textLen, f)]),
         if f.NoFault? then b.(desc := Some(q)) else b, !f.NoFault?)
  }

  /** query_start_hook. `ws` and `count` are the stores and the node count of the topology pass. */
  function StartHook(c: Settings, sh: Shared, p: int, b: Backend, q: QueryDesc, ws: seq<Write>, count: nat, f: Fault)
    : (Shared, Backend)
    requires p != 0
  {
    if q.cost < c.minCost then (sh, b)
    else
      var (sh1, b1, failed) := TryStart(c, sh, p, Initialized(b), q, ws, count, f);
      if failed then StartFailed(sh1, p, b1) else (sh1, b1)
  }

  /** The stores of the final refresh that were made. */
  function Reached(ws: seq<Write>, f: Fault): seq<Write> { if f.AfterStores? then Cut(ws, f.k) else ws }

  /** query_end_hook. `ws` are the stores of the final refresh of the caller's records. */
  function EndHook(sh: Shared, p: int, b: Backend, ws: seq<Write>, f: Fault): (Shared, Backend) {
    var own := FindPid(sh.slots, p);
    if !b.initialized then (sh, b)
    else if f.AtOnce? then (sh, b.(desc := None))
    else if own.None? then (sh, b)
    else if !f.NoFault? then (Stored(sh, own.value, Reached(ws, f)), b.(desc := None))
    else (Free(Stored(sh, own.value, ws), own.value), b.(desc := None))
  }

  /** query_cleanup_callback on an abort, when it is registered. */
  function AbortHook(sh: Shared, p: int, b: Backend): (Shared, Backend) {
    if b.hooked then (ReleaseMine(sh, p), b.(desc := None)) else (sh, b)
  }

  /** A refresh of slot `i` and its announcement. */
  function Polling(sh: Shared, i: nat, ws: seq<Write>): Shared
    requires i < |sh.slots|
  {
    var s := Stored(sh, i, ws).slots[i];
    Shared(sh.slots[i := s.(generation := Inc32(s.generation))], sh.log + [Polled(i)])
  }

  /** pwh_sigusr2_handler. `ws` are the stores of the refresh. */
  function SignalHandler(sh: Shared, p: int, b: Backend, ws: seq<Write>): (Shared, Backend) {
    var t := b.tally.(calls := b.tally.calls + 1);
    var own := FindPid(sh.slots, p);
    if b.desc.None? || b.desc.value.planstate.None? then (sh, b.(tally := t.(noQueryDesc := t.noQueryDesc + 1)))
    else if !b.attached then (sh, b.(tally := t.(shmemNull := t.shmemNull + 1)))
    else if own.None? then (sh, b.(tally := t.(noSlot := t.noSlot + 1)))
    else
      (Polling(sh, own.value, ws), b.(tally := t.(success := t.success + 1)))
  }

  /** Under which outcome a call of the handler is counted, and that only a success touches the table: the caller's
      first slot has the stores made and its generation counted. */
  lemma {:induction false} SignalOutcome(sh: Shared, p: int, b: Backend, ws: seq<Write>)
    ensures var (sh', b') := SignalHandler(sh, p, b, ws);
      var own, query := FindPid(sh.slots, p), b.desc.Some? && b.desc.value.planstate.Some?;
      && b' == b.(tally := b'.tally) && b'.tally.calls == b.tally.calls + 1
      && b'.tally.noQueryDesc == b.tally.noQueryDesc + (if query then 0 else 1)
      && b'.tally.shmemNull == b.tally.shmemNull + (if query && !b.attached then 1 else 0)
      && b'.tally.noSlot == b.tally.noSlot + (if query && b.attached && own.None? then 1 else 0)
      && b'.tally.success == b.tally.success + (if query && b.attached && own.Some? then 1 else 0)
      && |sh'.slots| == |sh.slots|
      && forall i :: 0 <= i < |sh.slots| ==>
           var a, s := sh.slots[i], sh'.slots[i];
           if query && b.attached && own == Some(i) then
             s == a.(metrics := ApplyWrites(a.metrics, ws), generation := (a.generation + 1) % 0x1_0000_0000)
           else s == a
  {
  }

  /** Slot `i` is free, with `m` as its records and its generation counted, and all other slots are as before. */
  predicate Frees(a: seq<Slot>, b: seq<Slot>, i: nat, m: seq<NodeMetrics>) {
    && i < |a| == |b|
    && b[i] == a[i].(pid := 0, generation := (a[i].generation + 1) % 0x1_0000_0000, metrics := m)
    && forall j :: 0 <= j < |a| && j != i ==> b[j] == a[j]
  }

  /** An end hook without an error: the final stores are made in the caller's first slot, which is freed, and the
      current query is cleared; without a slot nothing changes. */
  lemma {:induction false} EndFrees(sh: Shared, p: int, b: Backend, ws: seq<Write>)
    requires b.initialized
    ensures var (sh', b') := EndHook(sh, p, b, ws, NoFault);
      match FindPid(sh.slots, p)
      case None => sh' == sh && b' == b
      case Some(i) => Frees(sh.slots, sh'.slots, i, ApplyWrites(sh.slots[i].metrics, ws)) && b' == b.(desc := None)
  {
  }

  /** An abort and an exit: the caller's first slot is freed with its records kept. */
  lemma {:induction false} AbortFrees(sh: Shared, p: int, b: Backend)
    requires b.hooked
    ensures var (sh', b') := AbortHook(sh, p, b);
      && b' == b.(desc := None) && sh' == ReleaseMine(sh, p)
      && match FindPid(sh.slots, p)
         case None => sh' == sh
         case Some(i) => Frees(sh.slots, sh'.slots, i, sh.slots[i].metrics)
  {
  }

  // ---- Histories --------------------------------------------------------------------------------

  datatype Event =
    | Spawn(p: int, attached: bool) | Crash(p: int) | Exit(p: int) | Abort(p: int)
    | StartQuery(p: int, q: QueryDesc, ws: seq<Write>, count: nat, f: Fault)
    | EndQuery(p: int, ws: seq<Write>, f: Fault)
    | Signal(p: int, ws: seq<Write>)
    | ReapOrphans(others: set<int>)

  datatype System = System(sh: Shared, backends: map<int, Backend>)

  function Put(s: System, p: int, r: (Shared, Backend)): System { System(r.0, s.backends[p := r.1]) }

  /** Events of processes that do not exist are ignored; `others` are further pids the kernel knows. */
  function Apply(c: Settings, s: System, e: Event): System {
    match e
    case Spawn(p, attached) =>
      if p != 0 && p !in s.backends then Put(s, p, (s.sh, Backend(None, false, false, attached, NEWBORN))) else s
    case Crash(p) => s.(backends := s.backends - {p})
    case Exit(p) =>
      if p !in s.backends then s
      else System(if s.backends[p].hooked then ReleaseMine(s.sh, p) else s.sh, s.backends - {p})
    case Abort(p) => if p !in s.backends then s else Put(s, p, AbortHook(s.sh, p, s.backends[p]))
    case StartQuery(p, q, ws, count, f) =>
      if p == 0 || p !in s.backends then s else Put(s, p, StartHook(c, s.sh, p, s.backends[p], q, ws, count, f))
    case EndQuery(p, ws, f) => if p !in s.backends then s else Put(s, p, EndHook(s.sh, p, s.backends[p], ws, f))
    case Signal(p, ws) =>
      if p !in s.backends || !s.backends[p].hooked then s else Put(s, p, SignalHandler(s.sh, p, s.backends[p], ws))
    case ReapOrphans(others) => s.(sh := Reap(s.sh, s.backends.Keys + others, |s.sh.slots|))
  }

  function Initial(n: nat, max: nat): System { System(Shared(BlankTable(n, max), []), map[]) }

  function Run(c: Settings, n: nat, max: nat, tr: seq<Event>): System
    decreases |tr|
  {
    if tr == [] then Initial(n, max) else Apply(c, Run(c, n, max, tr[..|tr| - 1]), tr[|tr| - 1])
  }

  // ---- The ledger -------------------------------------------------------------------------------

  function Count(log: seq<Effect>, e: Effect): nat
    decreases |log|
  {
    if log == [] then 0 else Count(log[..|log| - 1], e) + if log[|log| - 1] == e then 1 else 0
  }

  lemma {:induction false} CountOne(log: seq<Effect>, x: Effect, e: Effect)
    ensures Count(log + [x], e) == Count(log, e) + if x == e then 1 else 0
  {
    assert (log + [x])[..|log|] == log;
  }

  /** Slot i is active exactly between a claim and the next release, and its generation counts its
      releases and refreshes modulo 2^32. */
  ghost predicate Ledger(sh: Shared, i: nat)
    requires i < |sh.slots|
  {
    && Count(sh.log, Claimed(i)) == Count(sh.log, Freed(i)) + (if Active(sh.slots[i]) then 1 else 0)
    && sh.slots[i].generation == (Count(sh.log, Freed(i)) + Count(sh.log, Polled(i))) % U32_SIZE
  }

  ghost predicate Balanced(sh: Shared) {
    forall i :: 0 <= i < |sh.slots| ==> Ledger(sh, i)
  }

  /** The number of active slots among the first `n`, of claims and of releases. */
  function ActiveBelow(slots: seq<Slot>, n: nat): nat
    requires n <= |slots|
  {
    if n == 0 then 0 else ActiveBelow(slots, n - 1) + if Active(slots[n - 1]) then 1 else 0
  }

  function Claims(log: seq<Effect>): nat
    decreases |log|
  {
    if log == [] then 0 else Claims(log[..|log| - 1]) + if log[|log| - 1].Claimed? then 1 else 0
  }

  function Releases(log: seq<Effect>): nat
    decreases |log|
  {
    if log == [] then 0 else Releases(log[..|log| - 1]) + if log[|log| - 1].Freed? then 1 else 0
  }

  /** Active slots are claims minus releases. */
  ghost predicate Conserved(sh: Shared) { ActiveBelow(sh.slots, |sh.slots|) + Releases(sh.log) == Claims(sh.log) }

  ghost predicate TableOk(sh: Shared) { Balanced(sh) && Unique(sh.slots) && Conserved(sh) }

  lemma {:induction false} ActiveEdit(slots: seq<Slot>, i: nat, s: Slot, n: nat)
    requires i < |slots| && n <= |slots|
    ensures ActiveBelow(slots[i := s], n) + (if i < n && Active(slots[i]) then 1 else 0)
         == ActiveBelow(slots, n) + (if i < n && Active(s) then 1 else 0)
    decreases n
  {
    if n > 0 {
      ActiveEdit(slots, i, s, n - 1);
    }
  }

  lemma {:induction false} ConservedEdit(sh: Shared, i: nat, s: Slot, e: Effect)
    requires Conserved(sh) && i < |sh.slots|
    requires e.Claimed? ==> !Active(sh.slots[i]) && Active(s)
    requires e.Freed? ==> Active(sh.slots[i]) && !Active(s)
    requires e.Polled? ==> (Active(s) <==> Active(sh.slots[i]))
    ensures Conserved(Shared(sh.slots[i := s], sh.log + [e]))
  {
    ActiveEdit(sh.slots, i, s, |sh.slots|);
    assert (sh.log + [e])[..|sh.log|] == sh.log;
  }

  lemma {:induction false} NoneActive(slots: seq<Slot>, n: nat)
    requires n <= |slots| && forall i :: 0 <= i < n ==> !Active(slots[i])
    ensures ActiveBelow(slots, n) == 0
    decreases n
  {
    if n > 0 {
      NoneActive(slots, n - 1);
    }
  }

  lemma {:induction false} OneMore(g: nat, x: nat, y: nat)
    requires g == x % U32_SIZE && y == x + 1
    ensures Inc32(g) == y % U32_SIZE
  {
  }

  /** One effect on slot `i`, with the other slots and the header fields it does not touch unchanged. */
  lemma {:induction false} LedgerEdit(sh: Shared, i: nat, s: Slot, e: Effect)
    requires TableOk(sh) && i < |sh.slots| && e.slot == i
    requires match e
      case Claimed(_) => !Active(sh.slots[i]) && Active(s) && s.generation == sh.slots[i].generation
          && FindPid(sh.slots, s.pid).None?
      case Freed(_) => Active(sh.slots[i]) && !Active(s) && s.generation == Inc32(sh.slots[i].generation)
      case Polled(_) => s.pid == sh.slots[i].pid && s.generation == Inc32(sh.slots[i].generation)
    ensures TableOk(Shared(sh.slots[i := s], sh.log + [e]))
  {
    var sh' := Shared(sh.slots[i := s], sh.log + [e]);
    forall j | 0 <= j < |sh'.slots| ensures Ledger(sh', j) {
      assert Ledger(sh, j);
      LedgerOne(sh, j, sh'.slots[j], e);
    }
    ConservedEdit(sh, i, s, e);
  }

  lemma {:induction false} LedgerOne(sh: Shared, j: nat, s: Slot, e: Effect)
    requires j < |sh.slots| && Ledger(sh, j)
    requires e.slot != j ==> s == sh.slots[j]
    requires e.slot == j ==> match e
      case Claimed(_) => !Active(sh.slots[j]) && Active(s) && s.generation == sh.slots[j].generation
      case Freed(_) => Active(sh.slots[j]) && !Active(s) && s.generation == Inc32(sh.slots[j].generation)
      case Polled(_) => s.pid == sh.slots[j].pid && s.generation == Inc32(sh.slots[j].generation)
    ensures Ledger(Shared(sh.slots[j := s], sh.log + [e]), j)
  {
    var log' := sh.log + [e];
    CountOne(sh.log, e, Claimed(j));
    CountOne(sh.log, e, Freed(j));
    CountOne(sh.log, e, Polled(j));
    var x := Count(sh.log, Freed(j)) + Count(sh.log, Polled(j));
    var y := Count(log', Freed(j)) + Count(log', Polled(j));
    if e.slot == j && !e.Claimed? {
      OneMore(sh.slots[j].generation, x, y);
    } else {
      assert x == y;
    }
  }

  lemma {:induction false} LedgerQuiet(sh: Shared, i: nat, s: Slot)
    requires TableOk(sh) && i < |sh.slots| && s.pid == sh.slots[i].pid && s.generation == sh.slots[i].generation
    ensures TableOk(sh.(slots := sh.slots[i := s]))
  {
    var sh' := sh.(slots := sh.slots[i := s]);
    forall j | 0 <= j < |sh'.slots| ensures Ledger(sh', j) {
      assert Ledger(sh, j);
    }
    ActiveEdit(sh.slots, i, s, |sh.slots|);
  }

  lemma {:induction false} FreeOk(sh: Shared, i: nat)
    requires TableOk(sh) && i < |sh.slots| && Active(sh.slots[i])
    ensures TableOk(Free(sh, i))
  {
    LedgerEdit(sh, i, Released(sh.slots[i]), Freed(i));
  }

  lemma {:induction false} ClaimOk(sh: Shared, p: int, create: bool)
    requires TableOk(sh) && p != 0
    ensures TableOk(Claim(sh, p, create).0)
  {
    var free := FindPid(sh.slots, 0);
    if FindPid(sh.slots, p).None? && create && free.Some? {
      LedgerEdit(sh, free.value, sh.slots[free.value].(pid := p), Claimed(free.value));
    }
  }

  lemma {:induction false} ReleaseOk(sh: Shared, p: int)
    requires TableOk(sh) && p != 0
    ensures TableOk(ReleaseMine(sh, p))
  {
    if FindPid(sh.slots, p).Some? {
      FreeOk(sh, FindPid(sh.slots, p).value);
    }
  }

  lemma {:induction false} ReapOk(sh: Shared, alive: set<int>, n: nat)
    requires TableOk(sh) && n <= |sh.slots|
    ensures TableOk(Reap(sh, alive, n))
    decreases n
  {
    if n > 0 {
      ReapOk(sh, alive, n - 1);
      var before := Reap(sh, alive, n - 1);
      if Active(before.slots[n - 1]) && before.slots[n - 1].pid !in alive {
        FreeOk(before, n - 1);
      }
    }
  }

  lemma {:induction false} TryOk(c: Settings, sh: Shared, p: int, b: Backend, q: QueryDesc, ws: seq<Write>,
                                 count: nat, f: Fault)
    requires TableOk(sh) && p != 0
    ensures TableOk(TryStart(c, sh, p, b, q, ws, count, f).0)
  {
    ClaimOk(sh, p, true);
    var (sh1, got) := Claim(sh, p, true);
    if got.Some? {
      LedgerQuiet(sh1, got.value, Begun(sh1.slots[got.value], q, ws, count, c.textLen, f));
    }
  }

  lemma {:induction false} StartOk(c: Settings, sh: Shared, p: int, b: Backend, q: QueryDesc, ws: seq<Write>,
                                   count: nat, f: Fault)
    requires TableOk(sh) && p != 0
    ensures TableOk(StartHook(c, sh, p, b, q, ws, count, f).0)
  {
    TryOk(c, sh, p, Initialized(b), q, ws, count, f);
    ReleaseOk(TryStart(c, sh, p, Initialized(b), q, ws, count, f).0, p);
  }

  lemma {:induction false} EndOk(sh: Shared, p: int, b: Backend, ws: seq<Write>, f: Fault)
    requires TableOk(sh) && p != 0
    ensures TableOk(EndHook(sh, p, b, ws, f).0)
  {
    var own := FindPid(sh.slots, p);
    if own.Some? {
      var i := own.value;
      LedgerQuiet(sh, i, Stored(sh, i, ws).slots[i]);
      FreeOk(Stored(sh, i, ws), i);
      LedgerQuiet(sh, i, Stored(sh, i, Reached(ws, f)).slots[i]);
    }
  }

  lemma {:induction false} SignalOk(sh: Shared, p: int, b: Backend, ws: seq<Write>)
    requires TableOk(sh) && p != 0
    ensures TableOk(SignalHandler(sh, p, b, ws).0)
  {
    var own := FindPid(sh.slots, p);
    if own.Some? {
      var i := own.value;
      var s := Stored(sh, i, ws).slots[i];
      LedgerEdit(sh, i, s.(generation := Inc32(s.generation)), Polled(i));
    }
  }

  lemma {:induction false} InitialOk(n: nat, max: nat)
    ensures TableOk(Initial(n, max).sh)
  {
    NoneActive(BlankTable(n, max), n);
  }

  /** Allocator and generation accounting over whole histories with arbitrary nesting and faults: at every
      hook boundary active slots equal claims minus releases, each slot is active iff it was claimed once
      more than released, its generation equals its releases plus successful refreshes modulo 2^32, and no
      pid names two slots. */
  lemma {:induction false} HistoryBalanced(c: Settings, n: nat, max: nat, tr: seq<Event>)
    ensures var s := Run(c, n, max, tr); TableOk(s.sh) && |s.sh.slots| == n && 0 !in s.backends
    decreases |tr|
  {
    if tr == [] {
      InitialOk(n, max);
    } else {
      var s := Run(c, n, max, tr[..|tr| - 1]);
      HistoryBalanced(c, n, max, tr[..|tr| - 1]);
      ApplyOk(c, s, tr[|tr| - 1]);
    }
  }

  lemma {:induction false} HookOk(c: Settings, sh: Shared, p: int, b: Backend, e: Event)
    requires TableOk(sh) && p != 0 && (e.StartQuery? || e.EndQuery? || e.Signal?)
    ensures match e
      case StartQuery(_, q, ws, count, f) => TableOk(StartHook(c, sh, p, b, q, ws, count, f).0)
      case EndQuery(_, ws, f) => TableOk(EndHook(sh, p, b, ws, f).0)
      case Signal(_, ws) => TableOk(SignalHandler(sh, p, b, ws).0)
  {
    match e
    case StartQuery(_, q, ws, count, f) => StartOk(c, sh, p, b, q, ws, count, f);
    case EndQuery(_, ws, f) => EndOk(sh, p, b, ws, f);
    case Signal(_, ws) => SignalOk(sh, p, b, ws);
  }

  lemma {:induction false} ApplyOk(c: Settings, s: System, e: Event)
    requires TableOk(s.sh) && 0 !in s.backends
    ensures TableOk(Apply(c, s, e).sh) && |Apply(c, s, e).sh.slots| == |s.sh.slots| && 0 !in Apply(c, s, e).backends
  {
    if e.ReapOrphans? {
      ReapOk(s.sh, s.backends.Keys + e.others, |s.sh.slots|);
    } else if e.p in s.backends {
      if e.StartQuery? || e.EndQuery? || e.Signal? {
        HookOk(c, s.sh, e.p, s.backends[e.p], e);
      } else {
        ReleaseOk(s.sh, e.p);
      }
    }
  }
}
