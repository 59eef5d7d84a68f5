/** The two levels of the protocol agree: the statements of a hook, or of the handler, that run without
    interruption have exactly the effect of the hook as one operation. */
module HookRefinement {
  import opened Basics
  import opened NodeWrites
  import opened Plans
  import opened TwoPass
  import opened Slots
  import opened SignalMachine
  import opened SignalSafety
  import L = Lifecycle

  /** What a process looks like between its hooks. */
  function Abs(pr: Proc): L.Backend { L.Backend(pr.desc, pr.initialized, pr.hooked, pr.attached, pr.tally) }

  function Table(slots: seq<Slot>): L.Shared { L.Shared(slots, []) }

  /** The next statement: the handler's if it has interrupted the process, else the hook's. */
  ghost function Act(c: Config, slots: seq<Slot>, p: int, pr: Proc): (seq<Slot>, Option<Proc>)
    requires ProcOk(c, slots, p, pr)
  {
    if pr.handler.Quiet? then MainStep(c, slots, p, pr)
    else var (slots', pr') := HandlerStep(c, slots, p, pr); (slots', Some(pr'))
  }

  /** `n` statements in a row, none of them while the process rests. */
  ghost predicate Steps(c: Config, slots: seq<Slot>, p: int, pr: Proc, slots': seq<Slot>, pr': Proc, n: nat)
    decreases n
  {
    if n == 0 then slots' == slots && pr' == pr
    else
      && ProcOk(c, slots, p, pr) && !(pr.handler.Quiet? && pr.pc.Idle?)
      && var (s1, p1) := Act(c, slots, p, pr);
        p1.Some? && Steps(c, s1, p, p1.value, slots', pr', n - 1)
  }

  ghost predicate Performs(c: Config, slots: seq<Slot>, p: int, pr: Proc, slots': seq<Slot>, pr': Proc) {
    Ready(c, slots, p, pr) && Ready(c, slots', p, pr') && exists n: nat :: Steps(c, slots, p, pr, slots', pr', n)
  }

  lemma {:induction false} StepsThen(c: Config, s0: seq<Slot>, p: int, p0: Proc, s1: seq<Slot>, p1: Proc, m: nat,
                                     s2: seq<Slot>, p2: Proc, n: nat)
    requires Steps(c, s0, p, p0, s1, p1, m) && Steps(c, s1, p, p1, s2, p2, n)
    ensures Steps(c, s0, p, p0, s2, p2, m + n)
    decreases m
  {
    if m > 0 {
      var (s, q) := Act(c, s0, p, p0);
      StepsThen(c, s, p, q.value, s1, p1, m - 1, s2, p2, n);
    }
  }

  lemma {:induction false} PerformsThen(c: Config, s0: seq<Slot>, p: int, p0: Proc, s1: seq<Slot>, p1: Proc,
                                        s2: seq<Slot>, p2: Proc)
    requires Performs(c, s0, p, p0, s1, p1) && Performs(c, s1, p, p1, s2, p2)
    ensures Performs(c, s0, p, p0, s2, p2)
  {
    var m: nat :| Steps(c, s0, p, p0, s1, p1, m);
    var n: nat :| Steps(c, s1, p, p1, s2, p2, n);
    StepsThen(c, s0, p, p0, s1, p1, m, s2, p2, n);
  }

  lemma {:induction false} PerformsNothing(c: Config, slots: seq<Slot>, p: int, pr: Proc)
    requires Ready(c, slots, p, pr)
    ensures Performs(c, slots, p, pr, slots, pr)
  {
    assert Steps(c, slots, p, pr, slots, pr, 0);
  }

  /** One statement, which keeps the invariant. */
  lemma {:induction false} PerformsOne(c: Config, slots: seq<Slot>, p: int, pr: Proc)
    requires Ready(c, slots, p, pr) && !(pr.handler.Quiet? && pr.pc.Idle?)
    ensures var (s1, p1) := Act(c, slots, p, pr); p1.Some? ==> Performs(c, slots, p, pr, s1, p1.value)
  {
    var (s1, p1) := Act(c, slots, p, pr);
    if pr.handler.Quiet? {
      MainKept(c, slots, p, pr);
    } else {
      HandlerKept(c, slots, p, pr);
    }
    if p1.Some? {
      assert Steps(c, s1, p, p1.value, s1, p1.value, 0);
      assert Steps(c, slots, p, pr, s1, p1.value, 1);
    }
  }

  lemma {:induction false} PerformsNext(c: Config, s0: seq<Slot>, p: int, p0: Proc, s1: seq<Slot>, p1: Proc)
    requires Performs(c, s0, p, p0, s1, p1) && !(p1.handler.Quiet? && p1.pc.Idle?)
    ensures var (s2, p2) := Act(c, s1, p, p1); p2.Some? ==> Performs(c, s0, p, p0, s2, p2.value)
  {
    var (s2, p2) := Act(c, s1, p, p1);
    PerformsOne(c, s1, p, p1);
    if p2.Some? {
      PerformsThen(c, s0, p, p0, s1, p1, s2, p2.value);
    }
  }

  // ---- Runs of stores ----------------------------------------------------------------------------

  /** Slot `i` after the stores `ws`. */
  function AfterStores(slots: seq<Slot>, i: nat, ws: seq<Write>): seq<Slot> {
    Edit(slots, i, SlotAt(slots, i).(metrics := ApplyWrites(SlotAt(slots, i).metrics, ws)))
  }

  lemma {:induction false} AfterStore(slots: seq<Slot>, i: nat, ws: seq<Write>)
    requires i < |slots|
    ensures ws == [] ==> AfterStores(slots, i, ws) == slots
    ensures ws != [] ==> AfterStores(Store(slots, i, ws[0]), i, ws[1..]) == AfterStores(slots, i, ws)
  {
  }

  /** One more store of a list. */
  lemma {:induction false} NextStore(slots: seq<Slot>, i: nat, ws: seq<Write>, k: nat)
    requires i < |slots| && k < |ws|
    ensures ws[k..] != [] && ws[k..][0] == ws[k] && ws[k..][1..] == ws[k + 1..]
    ensures Store(AfterStores(slots, i, ws[..k]), i, ws[k]) == AfterStores(slots, i, ws[..k + 1])
  {
    assert ws[..k + 1] == ws[..k] + [ws[k]];
    ApplyOne(slots[i].metrics, ws[..k], ws[k]);
  }

  lemma {:induction false} NoStore(slots: seq<Slot>, i: nat, ws: seq<Write>)
    requires i < |slots|
    ensures AfterStores(slots, i, ws[..0]) == slots && ws[0..] == ws
  {
    assert ws[..0] == [];
  }

  /** The first `k` stores of the topology pass. */
  lemma {:induction false} FillsPart(c: Config, slots: seq<Slot>, p: int, pr: Proc, i: nat, q: QueryDesc,
                                     ws: seq<Write>, k: nat)
    requires Ready(c, slots, p, pr) && pr.handler.Quiet? && pr.pc == Filling(i, q, ws) && k <= |ws|
    ensures i < |slots| && Performs(c, slots, p, pr, AfterStores(slots, i, ws[..k]), pr.(pc := Filling(i, q, ws[k..])))
    decreases k
  {
    if k == 0 {
      NoStore(slots, i, ws);
      PerformsNothing(c, slots, p, pr);
    } else {
      var j := k - 1;
      FillsPart(c, slots, p, pr, i, q, ws, j);
      NextStore(slots, i, ws, j);
      PerformsNext(c, slots, p, pr, AfterStores(slots, i, ws[..j]), pr.(pc := Filling(i, q, ws[j..])));
    }
  }

  lemma {:induction false} Fills(c: Config, slots: seq<Slot>, p: int, pr: Proc, i: nat, q: QueryDesc, ws: seq<Write>)
    requires Ready(c, slots, p, pr) && pr.handler.Quiet? && pr.pc == Filling(i, q, ws)
    ensures Performs(c, slots, p, pr, AfterStores(slots, i, ws), pr.(pc := PutCount(i, q)))
  {
    FillsPart(c, slots, p, pr, i, q, ws, |ws|);
    assert ws[..|ws|] == ws && ws[|ws|..] == [];
    PerformsNext(c, slots, p, pr, AfterStores(slots, i, ws), pr.(pc := Filling(i, q, [])));
  }

  /** The first `k` stores of the final refresh. */
  lemma {:induction false} CollectsPart(c: Config, slots: seq<Slot>, p: int, pr: Proc, i: nat, q: QueryDesc,
                                        ws: seq<Write>, k: nat)
    requires Ready(c, slots, p, pr) && pr.handler.Quiet? && pr.pc == Collecting(i, q, ws) && k <= |ws|
    ensures i < |slots| && Performs(c, slots, p, pr, AfterStores(slots, i, ws[..k]),
        pr.(pc := Collecting(i, q, ws[k..])))
    decreases k
  {
    if k == 0 {
      NoStore(slots, i, ws);
      PerformsNothing(c, slots, p, pr);
    } else {
      var j := k - 1;
      CollectsPart(c, slots, p, pr, i, q, ws, j);
      NextStore(slots, i, ws, j);
      PerformsNext(c, slots, p, pr, AfterStores(slots, i, ws[..j]), pr.(pc := Collecting(i, q, ws[j..])));
    }
  }

  lemma {:induction false} Collects(c: Config, slots: seq<Slot>, p: int, pr: Proc, i: nat, q: QueryDesc, ws: seq<Write>)
    requires Ready(c, slots, p, pr) && pr.handler.Quiet? && pr.pc == Collecting(i, q, ws)
    ensures Performs(c, slots, p, pr, AfterStores(slots, i, ws), pr.(pc := Freeing(i, ThenClearDesc)))
  {
    CollectsPart(c, slots, p, pr, i, q, ws, |ws|);
    assert ws[..|ws|] == ws && ws[|ws|..] == [];
    PerformsNext(c, slots, p, pr, AfterStores(slots, i, ws), pr.(pc := Collecting(i, q, [])));
  }

  lemma {:induction false} Refreshes(
      c: Config, slots: seq<Slot>, p: int, pr: Proc, i: nat, q: QueryDesc, ws: seq<Write>)
    requires Ready(c, slots, p, pr) && pr.handler == Refreshing(i, q, ws)
    ensures Performs(c, slots, p, pr, AfterStores(slots, i, ws), pr.(handler := Bump(i, q)))
    decreases |ws|
  {
    PerformsOne(c, slots, p, pr);
    AfterStore(slots, i, ws);
    if ws != [] {
      var s1, p1 := Store(slots, i, ws[0]), pr.(handler := Refreshing(i, q, ws[1..]));
      Refreshes(c, s1, p, p1, i, q, ws[1..]);
      PerformsThen(c, slots, p, pr, s1, p1, AfterStores(slots, i, ws), pr.(handler := Bump(i, q)));
    }
  }

  // ---- Each hook ---------------------------------------------------------------------------------

  /** Slot `i` with the first `k` stores of the header done. */
  function HeaderPut(slots: seq<Slot>, i: nat, q: QueryDesc, n: nat, textLen: nat, k: nat): seq<Slot> {
    Edit(slots, i, L.HeaderUpTo(SlotAt(slots, i), q, n, textLen, k))
  }

  function HeaderPc(i: nat, q: QueryDesc, k: nat): Pc {
    if k == 0 then PutCount(i, q) else if k == 1 then PutTime(i, q) else if k == 2 then PutId(i, q)
    else if k == 3 then PutText(i, q) else PutDesc(i, q)
  }

  lemma {:induction false} PutsHeaderPart(c: Config, slots: seq<Slot>, p: int, pr: Proc, i: nat, q: QueryDesc, k: nat)
    requires Ready(c, slots, p, pr) && pr.handler.Quiet? && pr.pc == PutCount(i, q) && k <= 4 && c.maxNodes < U32_SIZE
    ensures i < |slots|
    ensures var n := |Preorder(pr.heap, q.planstate, c.maxNodes)|;
      Performs(c, slots, p, pr, HeaderPut(slots, i, q, n, c.textLen, k), pr.(pc := HeaderPc(i, q, k)))
    decreases k
  {
    if k == 0 {
      assert HeaderPut(slots, i, q, |Preorder(pr.heap, q.planstate, c.maxNodes)|, c.textLen, 0) == slots;
      PerformsNothing(c, slots, p, pr);
    } else {
      var n, j := |Preorder(pr.heap, q.planstate, c.maxNodes)|, k - 1;
      var before, at := HeaderPut(slots, i, q, n, c.textLen, j), pr.(pc := HeaderPc(i, q, j));
      PutsHeaderPart(c, slots, p, pr, i, q, j);
      HeaderNext(c, slots, p, at, i, q, n, j);
      PerformsNext(c, slots, p, pr, before, at);
    }
  }

  lemma {:induction false} HeaderNext(
      c: Config, slots: seq<Slot>, p: int, at: Proc, i: nat, q: QueryDesc, n: nat, j: nat)
    requires i < |slots| && j < 4 && at.pc == HeaderPc(i, q, j) && at.handler.Quiet?
    requires ProcOk(c, HeaderPut(slots, i, q, n, c.textLen, j), p, at)
    requires n == |Preorder(at.heap, q.planstate, c.maxNodes)| < U32_SIZE
    ensures Act(c, HeaderPut(slots, i, q, n, c.textLen, j), p, at)
         == (HeaderPut(slots, i, q, n, c.textLen, j + 1), Some(at.(pc := HeaderPc(i, q, j + 1))))
  {
    var before, after := HeaderPut(slots, i, q, n, c.textLen, j), HeaderPut(slots, i, q, n, c.textLen, j + 1);
    assert SlotAt(before, i) == L.HeaderUpTo(slots[i], q, n, c.textLen, j);
    assert Act(c, before, p, at).0 == after;
  }

  lemma {:induction false} PutsHeader(c: Config, slots: seq<Slot>, p: int, pr: Proc, i: nat, q: QueryDesc)
    requires Ready(c, slots, p, pr) && pr.handler.Quiet? && pr.pc == PutCount(i, q) && c.maxNodes < U32_SIZE
    ensures var n := |Preorder(pr.heap, q.planstate, c.maxNodes)|;
      Performs(c, slots, p, pr, HeaderPut(slots, i, q, n, c.textLen, 4),
          pr.(pc := Idle, desc := Some(q), dead := false))
  {
    var n := |Preorder(pr.heap, q.planstate, c.maxNodes)|;
    PutsHeaderPart(c, slots, p, pr, i, q, 4);
    PerformsNext(c, slots, p, pr, HeaderPut(slots, i, q, n, c.textLen, 4), pr.(pc := PutDesc(i, q)));
  }

  lemma {:induction false} TurnReady(c: Config, slots: seq<Slot>, p: int, pr: Proc, s: Step)
    requires Ready(c, slots, p, pr) && Enabled(World(slots, map[p := pr]), s)
    requires s.Exit? || s.Begin? || s.End? || s.Abort? || s.SubAbort? || s.Fault? || s.Run? || s.Deliver?
    requires s.p == p
    ensures Turn(pr, s).Some? ==> Ready(c, slots, p, Turn(pr, s).value)
  {
    TurnKept(c, World(slots, map[p := pr]), p, s);
  }

  lemma {:induction false} SignalEnters(c: Config, slots: seq<Slot>, p: int, entered: Proc)
    requires Ready(c, slots, p, entered) && entered.handler.Entered? && !entered.dead
    ensures var t := entered.tally;
      if entered.desc.Some? && entered.desc.value.planstate.Some? then
        entered.attached && Performs(c, slots, p, entered, slots, entered.(handler := Looking(entered.desc.value)))
      else
        Performs(c, slots, p, entered, slots, entered.(handler := Quiet, tally := t.(noQueryDesc := t.noQueryDesc + 1)))
  {
    PerformsOne(c, slots, p, entered);
  }

  lemma {:induction false} SignalEnds(
      c: Config, slots: seq<Slot>, p: int, entered: Proc, s1: seq<Slot>, i: nat, q: QueryDesc)
    requires i < |s1| && Performs(c, slots, p, entered, s1, entered.(handler := Bump(i, q)))
    ensures var t := entered.tally;
      Performs(c, slots, p, entered, s1[i := Bumped(s1[i])],
          entered.(handler := Quiet, tally := t.(success := t.success + 1)))
  {
    PerformsNext(c, slots, p, entered, s1, entered.(handler := Bump(i, q)));
    PerformsNext(c, slots, p, entered, s1[i := Bumped(s1[i])], entered.(handler := Counting));
  }

  lemma {:induction false} SignalStores(
      c: Config, slots: seq<Slot>, p: int, entered: Proc, i: nat, q: QueryDesc, ws: seq<Write>)
    requires i < |slots| && Performs(c, slots, p, entered, slots, entered.(handler := Refreshing(i, q, ws)))
    ensures var t := entered.tally;
      Performs(c, slots, p, entered, L.Polling(Table(slots), i, ws).slots,
               entered.(handler := Quiet, tally := t.(success := t.success + 1)))
  {
    var s1, at := AfterStores(slots, i, ws), entered.(handler := Refreshing(i, q, ws));
    Refreshes(c, slots, p, at, i, q, ws);
    PerformsThen(c, slots, p, entered, slots, at, s1, entered.(handler := Bump(i, q)));
    SignalEnds(c, slots, p, entered, s1, i, q);
    assert s1[i := Bumped(s1[i])] == L.Polling(Table(slots), i, ws).slots;
  }

  /** Table and process behind an uninterrupted handler call whose refresh stores `ws`. */
  ghost function Signalled(slots: seq<Slot>, p: int, entered: Proc, ws: seq<Write>): (seq<Slot>, Proc) {
    var t, own := entered.tally, FindPid(slots, p);
    if entered.desc.None? || entered.desc.value.planstate.None? then
      (slots, entered.(handler := Quiet, tally := t.(noQueryDesc := t.noQueryDesc + 1)))
    else if own.None? then (slots, entered.(handler := Quiet, tally := t.(noSlot := t.noSlot + 1)))
    else
      (L.Polling(Table(slots), own.value, ws).slots,
       entered.(handler := Quiet, tally := t.(success := t.success + 1)))
  }

  lemma {:induction false} SignalFindsNothing(c: Config, slots: seq<Slot>, p: int, entered: Proc, q: QueryDesc)
    requires Performs(c, slots, p, entered, slots, entered.(handler := Looking(q))) && FindPid(slots, p).None?
    ensures var t := entered.tally;
      Performs(c, slots, p, entered, slots, entered.(handler := Quiet, tally := t.(noSlot := t.noSlot + 1)))
  {
    PerformsNext(c, slots, p, entered, slots, entered.(handler := Looking(q)));
  }

  lemma {:induction false} SignalFindsSlot(
      c: Config, slots: seq<Slot>, p: int, entered: Proc, q: QueryDesc, ws: seq<Write>)
    requires Performs(c, slots, p, entered, slots, entered.(handler := Looking(q))) && FindPid(slots, p).Some?
    requires ws == RefreshStores(entered.heap, q.planstate, OwnMetrics(slots, p), c.maxNodes)
    ensures Performs(c, slots, p, entered, slots, entered.(handler := Refreshing(FindPid(slots, p).value, q, ws)))
  {
    PerformsNext(c, slots, p, entered, slots, entered.(handler := Looking(q)));
  }

  lemma {:induction false} SignalRuns(c: Config, slots: seq<Slot>, p: int, entered: Proc, ws: seq<Write>)
    requires Ready(c, slots, p, entered) && entered.handler.Entered? && !entered.dead
    requires FindPid(slots, p).Some? && entered.desc.Some? ==>
      ws == RefreshStores(entered.heap, entered.desc.value.planstate, OwnMetrics(slots, p), c.maxNodes)
    ensures Performs(c, slots, p, entered, Signalled(slots, p, entered, ws).0, Signalled(slots, p, entered, ws).1)
  {
    var own := FindPid(slots, p);
    SignalEnters(c, slots, p, entered);
    if entered.desc.Some? && entered.desc.value.planstate.Some? {
      var q := entered.desc.value;
      if own.Some? {
        SignalFindsSlot(c, slots, p, entered, q, ws);
        SignalStores(c, slots, p, entered, own.value, q, ws);
        assert Signalled(slots, p, entered, ws).0 == L.Polling(Table(slots), own.value, ws).slots;
      } else {
        SignalFindsNothing(c, slots, p, entered, q);
        assert Signalled(slots, p, entered, ws).0 == slots;
      }
    }
  }

  lemma {:induction false} SignalledIsHandler(slots: seq<Slot>, p: int, pr: Proc, ws: seq<Write>)
    requires pr.desc.Some? ==> pr.attached
    requires pr.handler.Quiet?
    ensures var (slots', pr') := Signalled(slots, p, Turn(pr, Deliver(p)).value, ws);
      && (slots', Abs(pr'))
          == (L.SignalHandler(Table(slots), p, Abs(pr), ws).0.slots, L.SignalHandler(Table(slots), p, Abs(pr), ws).1)
      && pr' == pr.(tally := pr'.tally)
  {
  }

  /** A signal is a whole call of the handler: the refresh and the outcome counted are those of the hook level,
      and the interrupted hook goes on where it was. */
  lemma {:induction false} SignalRefines(
      c: Config, slots: seq<Slot>, p: int, pr: Proc, ws: seq<Write>) returns (pr': Proc)
    requires Ready(c, slots, p, pr) && pr.handler.Quiet? && pr.hooked && !pr.dead
    requires FindPid(slots, p).Some? && pr.desc.Some? ==>
      ws == RefreshStores(pr.heap, pr.desc.value.planstate, OwnMetrics(slots, p), c.maxNodes)
    ensures var (sh, b) := L.SignalHandler(Table(slots), p, Abs(pr), ws);
      Performs(c, slots, p, Turn(pr, Deliver(p)).value, sh.slots, pr') && Abs(pr') == b
    ensures pr' == pr.(tally := pr'.tally)
  {
    TurnReady(c, slots, p, pr, Deliver(p));
    SignalRuns(c, slots, p, Turn(pr, Deliver(p)).value, ws);
    SignalledIsHandler(slots, p, pr, ws);
    pr' := Signalled(slots, p, Turn(pr, Deliver(p)).value, ws).1;
  }

  // ---- Releases ----------------------------------------------------------------------------------

  /** The two stores of a release, behind which the process goes on as `after` says. */
  lemma {:induction false} Releases(c: Config, slots: seq<Slot>, p: int, pr: Proc, i: nat, after: After)
    requires Ready(c, slots, p, pr) && pr.handler.Quiet? && pr.pc == Freeing(i, after) && after != ThenGone
    ensures i < |slots| && Performs(c, slots, p, pr, slots[i := Released(slots[i])], Continue(pr, after).value)
  {
    var s1 := Edit(slots, i, SlotAt(slots, i).(pid := 0));
    PerformsOne(c, slots, p, pr);
    assert Act(c, slots, p, pr).0 == s1;
    PerformsNext(c, slots, p, pr, s1, pr.(pc := Bumping(i, after)));
    assert Act(c, s1, p, pr.(pc := Bumping(i, after))).0 == slots[i := Released(slots[i])];
  }

  /** The search for the own slot and its release, where `p1` is about to search and goes on at `next`. */
  lemma {:induction false} ReleasesOwn(c: Config, slots: seq<Slot>, p: int, p0: Proc, p1: Proc, after: After, next: Pc)
    requires Performs(c, slots, p, p0, slots, p1) && p1.handler.Quiet?
    requires (p1.pc, after, next) in {(AbortFind, ThenIdle, Idle), (CatchFind, ThenUninit, CatchFlag)}
    ensures Performs(c, slots, p, p0, L.ReleaseMine(Table(slots), p).slots, p1.(pc := next))
  {
    var own := FindPid(slots, p);
    PerformsNext(c, slots, p, p0, slots, p1);
    if own.Some? {
      var p2 := p1.(pc := Freeing(own.value, after));
      Releases(c, slots, p, p2, own.value, after);
      PerformsThen(c, slots, p, p0, slots, p2, slots[own.value := Released(slots[own.value])], p1.(pc := next));
    }
  }

  /** The abort callback. */
  lemma {:induction false} AbortRefines(c: Config, slots: seq<Slot>, p: int, pr: Proc) returns (pr': Proc)
    requires Ready(c, slots, p, pr) && pr.handler.Quiet? && pr.pc == Idle
    ensures var (sh, b) := L.AbortHook(Table(slots), p, Abs(pr));
      Performs(c, slots, p, Turn(pr, Abort(p)).value, sh.slots, pr') && Abs(pr') == b
    ensures pr'.pc == Idle && pr'.inFlight == None
  {
    var p0 := Turn(pr, Abort(p)).value;
    TurnReady(c, slots, p, pr, Abort(p));
    if pr.hooked {
      PerformsOne(c, slots, p, p0);
      ReleasesOwn(c, slots, p, p0, p0.(pc := AbortFind, desc := None, dead := false, inFlight := None), ThenIdle, Idle);
      pr' := p0.(pc := Idle, desc := None, dead := false, inFlight := None);
    } else {
      PerformsNothing(c, slots, p, p0);
      pr' := p0;
    }
  }

  lemma {:induction false} CatchClears(c: Config, slots: seq<Slot>, p: int, pr: Proc)
    requires Ready(c, slots, p, pr) && pr.handler.Quiet? && Starting(pr.pc)
    ensures var p0 := Turn(pr, Fault(p)).value;
      Performs(c, slots, p, p0, slots, p0.(pc := CatchFind, desc := None, dead := false))
  {
    TurnReady(c, slots, p, pr, Fault(p));
    PerformsOne(c, slots, p, Turn(pr, Fault(p)).value);
  }

  /** The catch block of the start hook. */
  lemma {:induction false} CatchRefines(c: Config, slots: seq<Slot>, p: int, pr: Proc) returns (pr': Proc)
    requires Ready(c, slots, p, pr) && pr.handler.Quiet? && Starting(pr.pc)
    ensures var (sh, b) := L.StartFailed(Table(slots), p, Abs(pr));
      Performs(c, slots, p, Turn(pr, Fault(p)).value, sh.slots, pr') && Abs(pr') == b
    ensures pr'.pc == Idle
  {
    var p0 := Turn(pr, Fault(p)).value;
    var p3 := p0.(pc := CatchFlag, desc := None, dead := false);
    CatchClears(c, slots, p, pr);
    ReleasesOwn(c, slots, p, p0, p0.(pc := CatchFind, desc := None, dead := false), ThenUninit, CatchFlag);
    PerformsNext(c, slots, p, p0, L.ReleaseMine(Table(slots), p).slots, p3);
    pr' := p3.(pc := Idle, initialized := false);
  }

  // ---- Start and end -----------------------------------------------------------------------------

  lemma {:induction false} ClaimSlots(slots: seq<Slot>, p: int)
    requires p != 0
    ensures var (sh, got) := L.Claim(Table(slots), p, true);
      && got == ClaimTarget(slots, p)
      && sh.slots == if got.Some? then slots[got.value := slots[got.value].(pid := p)] else slots
  {
    var own := FindPid(slots, p);
    if own.Some? {
      assert slots[own.value := slots[own.value].(pid := p)] == slots;
    }
  }

  /** The guarded part of the start hook, without an error. */
  lemma {:induction false} ClaimRefines(c: Config, slots: seq<Slot>, p: int, pr: Proc, q: QueryDesc) returns (pr': Proc)
    requires Ready(c, slots, p, pr) && pr.handler.Quiet? && pr.pc == Claiming(q) && c.maxNodes < U32_SIZE
    ensures var es := Preorder(pr.heap, q.planstate, c.maxNodes);
      var (sh, b, failed) := L.TryStart(L.Settings(0.0, c.textLen), Table(slots), p, Abs(pr), q,
                                        TopologyStores(pr.heap, q.planstate, c.maxNodes), |es|, L.NoFault);
      !failed && Performs(c, slots, p, pr, sh.slots, pr') && Abs(pr') == b
    ensures pr'
         == if ClaimTarget(slots, p).Some? then pr.(pc := Idle, desc := Some(q), dead := false) else pr.(pc := Idle)
    ensures pr'.pc == Idle && pr'.inFlight == Some(q)
  {
    var t := ClaimTarget(slots, p);
    ClaimSlots(slots, p);
    PerformsOne(c, slots, p, pr);
    if t.None? {
      pr' := pr.(pc := Idle);
    } else {
      var i, n := t.value, |Preorder(pr.heap, q.planstate, c.maxNodes)|;
      var ws := TopologyStores(pr.heap, q.planstate, c.maxNodes);
      pr' := pr.(pc := Idle, desc := Some(q), dead := false);
      var s1, p1 := slots[i := slots[i].(pid := p)], pr.(pc := Filling(i, q, ws));
      var s2, p2 := AfterStores(s1, i, ws), pr.(pc := PutCount(i, q));
      Fills(c, s1, p, p1, i, q, ws);
      PerformsThen(c, slots, p, pr, s1, p1, s2, p2);
      PutsHeader(c, s2, p, p2, i, q);
      PerformsThen(c, slots, p, pr, s2, p2, HeaderPut(s2, i, q, n, c.textLen, 4), pr');
      HeaderIsPublished(s1, i, q, ws, n, c.textLen);
    }
  }

  lemma {:induction false} HeaderIsPublished(
      slots: seq<Slot>, i: nat, q: QueryDesc, ws: seq<Write>, n: nat, textLen: nat)
    requires i < |slots| && n < U32_SIZE
    ensures HeaderPut(AfterStores(slots, i, ws), i, q, n, textLen, 4)
        == slots[i := L.Published(slots[i], q, ws, n, textLen)]
  {
  }

  /** The start hook of a query, tracked or not. */
  lemma {:induction false} StartRefines(
      c: Config, slots: seq<Slot>, p: int, pr: Proc, q: QueryDesc, h: Heap, minCost: real)
    returns (pr': Proc)
    requires Ready(c, slots, p, pr) && pr.handler.Quiet? && pr.pc == Idle && pr.inFlight == None && PlanOk(h, q)
    requires c.maxNodes < U32_SIZE
    ensures var (sh, b) := L.StartHook(L.Settings(minCost, c.textLen), Table(slots), p, Abs(pr), q,
                                       TopologyStores(h, q.planstate, c.maxNodes),
                                       |Preorder(h, q.planstate, c.maxNodes)|, L.NoFault);
      Performs(c, slots, p, Turn(pr, Begin(p, q, h, q.cost >= minCost)).value, sh.slots, pr') && Abs(pr') == b
    ensures pr'.pc == Idle && pr'.inFlight == Some(q)
  {
    var s := Begin(p, q, h, q.cost >= minCost);
    var p0 := Turn(pr, s).value;
    TurnReady(c, slots, p, pr, s);
    if q.cost >= minCost {
      pr' := ClaimRefines(c, slots, p, p0, q);
      assert Abs(p0) == L.Initialized(Abs(pr));
    } else {
      pr' := p0;
      PerformsNothing(c, slots, p, p0);
    }
  }

  /** The end hook of the query in flight, without an error. */
  lemma {:induction false} EndRefines(c: Config, slots: seq<Slot>, p: int, pr: Proc, q: QueryDesc) returns (pr': Proc)
    requires Ready(c, slots, p, pr) && pr.handler.Quiet? && pr.pc == Idle && pr.inFlight == Some(q)
    ensures var own := FindPid(slots, p);
      var ws := if own.Some? then RefreshStores(pr.heap, q.planstate, slots[own.value].metrics, c.maxNodes) else [];
      var (sh, b) := L.EndHook(Table(slots), p, Abs(pr), ws, L.NoFault);
      Performs(c, slots, p, Turn(pr, End(p)).value, sh.slots, pr') && Abs(pr') == b
    ensures pr'.pc == Idle && pr'.inFlight == None
  {
    var p0, own := Turn(pr, End(p)).value, FindPid(slots, p);
    TurnReady(c, slots, p, pr, End(p));
    if !pr.initialized {
      pr' := p0;
      PerformsNothing(c, slots, p, p0);
    } else {
      PerformsOne(c, slots, p, p0);
      pr' := p0.(pc := Idle, inFlight := None);
      if own.Some? {
        var i, ws := own.value, RefreshStores(pr.heap, q.planstate, slots[own.value].metrics, c.maxNodes);
        pr' := EndCollects(c, slots, p, p0, i, q, ws);
      }
    }
  }

  lemma {:induction false} EndCollects(
      c: Config, slots: seq<Slot>, p: int, p0: Proc, i: nat, q: QueryDesc, ws: seq<Write>)
    returns (pr': Proc)
    requires i < |slots| && p0.handler.Quiet? && Performs(c, slots, p, p0, slots, p0.(pc := Collecting(i, q, ws)))
    ensures Performs(c, slots, p, p0, L.Free(L.Stored(Table(slots), i, ws), i).slots, pr')
    ensures pr' == p0.(pc := Idle, desc := None, dead := false, inFlight := None)
  {
    var p1, p2 := p0.(pc := Collecting(i, q, ws)), p0.(pc := Freeing(i, ThenClearDesc));
    var s1 := AfterStores(slots, i, ws);
    Collects(c, slots, p, p1, i, q, ws);
    PerformsThen(c, slots, p, p0, slots, p1, s1, p2);
    Releases(c, s1, p, p2, i, ThenClearDesc);
    var s2 := s1[i := Released(s1[i])];
    PerformsThen(c, slots, p, p0, s1, p2, s2, p0.(pc := ClearDesc));
    PerformsNext(c, slots, p, p0, s2, p0.(pc := ClearDesc));
    assert s2 == L.Free(L.Stored(Table(slots), i, ws), i).slots;
    pr' := p0.(pc := Idle, desc := None, dead := false, inFlight := None);
  }

  // ---- Errors ------------------------------------------------------------------------------------

  /** The statements up to an error, in which `pr` becomes `p1` and the table `s1`, and those of the catch block. */
  ghost predicate Fails(
      c: Config, slots: seq<Slot>, p: int, pr: Proc, s1: seq<Slot>, p1: Proc, s2: seq<Slot>, p2: Proc) {
    && Performs(c, slots, p, pr, s1, p1) && p1.handler.Quiet?
    && (Starting(p1.pc) || p1.pc.Finding? || p1.pc.Collecting?)
    && Performs(c, s1, p, Turn(p1, Fault(p)).value, s2, p2)
  }

  lemma {:induction false} EndCatches(c: Config, slots: seq<Slot>, p: int, pr: Proc)
    requires Ready(c, slots, p, pr) && pr.handler.Quiet? && (pr.pc.Finding? || pr.pc.Collecting?)
    ensures Performs(c, slots, p, Turn(pr, Fault(p)).value, slots,
        pr.(pc := Idle, desc := None, dead := false, inFlight := None))
  {
    TurnReady(c, slots, p, pr, Fault(p));
    PerformsOne(c, slots, p, Turn(pr, Fault(p)).value);
  }

  /** The end hook up to an error in or behind its refresh. */
  lemma {:induction false} EndsPart(
      c: Config, slots: seq<Slot>, p: int, p0: Proc, q: QueryDesc, i: nat, ws: seq<Write>, k: nat)
    requires Ready(c, slots, p, p0) && p0.handler.Quiet? && p0.pc == Finding(q) && FindPid(slots, p) == Some(i)
    requires ws == RefreshStores(p0.heap, q.planstate, slots[i].metrics, c.maxNodes) && k <= |ws|
    ensures Performs(c, slots, p, p0, AfterStores(slots, i, ws[..k]), p0.(pc := Collecting(i, q, ws[k..])))
  {
    var at := p0.(pc := Collecting(i, q, ws));
    PerformsOne(c, slots, p, p0);
    CollectsPart(c, slots, p, at, i, q, ws, k);
    PerformsThen(c, slots, p, p0, slots, at, AfterStores(slots, i, ws[..k]), p0.(pc := Collecting(i, q, ws[k..])));
  }

  lemma {:induction false} EndReached(
      c: Config, slots: seq<Slot>, p: int, p0: Proc, q: QueryDesc, i: nat, ws: seq<Write>, f: L.Fault)
    returns (s1: seq<Slot>, p1: Proc)
    requires Ready(c, slots, p, p0) && p0.handler.Quiet? && p0.pc == Finding(q) && FindPid(slots, p) == Some(i)
    requires ws == RefreshStores(p0.heap, q.planstate, slots[i].metrics, c.maxNodes) && !f.NoFault? && !f.AtOnce?
    ensures Performs(c, slots, p, p0, s1, p1) && p1.pc.Collecting? && p1 == p0.(pc := p1.pc)
    ensures s1 == AfterStores(slots, i, L.Reached(ws, f))
  {
    var k := if f.AfterStores? then Min(f.k, |ws|) else |ws|;
    EndsPart(c, slots, p, p0, q, i, ws, k);
    s1, p1 := AfterStores(slots, i, ws[..k]), p0.(pc := Collecting(i, q, ws[k..]));
    assert L.Reached(ws, f) == ws[..k];
  }

  /** The end hook when its guarded part raises an error, wherever it does. */
  lemma {:induction false} EndFaultRefines(c: Config, slots: seq<Slot>, p: int, pr: Proc, q: QueryDesc, f: L.Fault)
    returns (s1: seq<Slot>, p1: Proc, pr': Proc)
    requires Ready(c, slots, p, pr) && pr.handler.Quiet? && pr.pc == Idle && pr.inFlight == Some(q) && pr.initialized
    requires !f.NoFault? && (!f.AtOnce? ==> FindPid(slots, p).Some?)
    ensures var own := FindPid(slots, p);
      var ws := if own.Some? then RefreshStores(pr.heap, q.planstate, slots[own.value].metrics, c.maxNodes) else [];
      var (sh, b) := L.EndHook(Table(slots), p, Abs(pr), ws, f);
      Fails(c, slots, p, Turn(pr, End(p)).value, s1, p1, sh.slots, pr') && Abs(pr') == b
    ensures pr'.pc == Idle && pr'.inFlight == None
  {
    var p0, own := Turn(pr, End(p)).value, FindPid(slots, p);
    TurnReady(c, slots, p, pr, End(p));
    if f.AtOnce? {
      s1, p1 := slots, p0;
      PerformsNothing(c, slots, p, p0);
    } else {
      var i, ws := own.value, RefreshStores(pr.heap, q.planstate, slots[own.value].metrics, c.maxNodes);
      s1, p1 := EndReached(c, slots, p, p0, q, i, ws, f);
    }
    EndCatches(c, s1, p, p1);
    pr' := p1.(pc := Idle, desc := None, dead := false, inFlight := None);
  }

  lemma {:induction false} FillsThenPuts(c: Config, slots: seq<Slot>, p: int, pr: Proc, i: nat, q: QueryDesc,
                                         ws: seq<Write>, k: nat)
    requires Ready(c, slots, p, pr) && pr.handler.Quiet? && pr.pc == Filling(i, q, ws) && k <= 4
        && c.maxNodes < U32_SIZE
    ensures i < |slots|
    ensures var n := |Preorder(pr.heap, q.planstate, c.maxNodes)|;
      Performs(c, slots, p, pr, HeaderPut(AfterStores(slots, i, ws), i, q, n, c.textLen, k),
          pr.(pc := HeaderPc(i, q, k)))
  {
    var n, s1, at := |Preorder(pr.heap, q.planstate, c.maxNodes)|, AfterStores(slots, i, ws), pr.(pc := PutCount(i, q));
    Fills(c, slots, p, pr, i, q, ws);
    PutsHeaderPart(c, s1, p, at, i, q, k);
    PerformsThen(c, slots, p, pr, s1, at, HeaderPut(s1, i, q, n, c.textLen, k), pr.(pc := HeaderPc(i, q, k)));
  }

  lemma {:induction false} FillsSome(c: Config, slots: seq<Slot>, p: int, pr: Proc, i: nat, q: QueryDesc,
                                     ws: seq<Write>, k: nat)
    requires Ready(c, slots, p, pr) && pr.handler.Quiet? && pr.pc == Filling(i, q, ws)
    ensures i < |slots|
    ensures Performs(c, slots, p, pr, AfterStores(slots, i, Cut(ws, k)), pr.(pc := Filling(i, q, ws[Min(k, |ws|)..])))
  {
    FillsPart(c, slots, p, pr, i, q, ws, Min(k, |ws|));
    assert Cut(ws, k) == ws[..Min(k, |ws|)];
  }

  lemma {:induction false} ClaimsSlot(
      c: Config, slots: seq<Slot>, p: int, pr: Proc, q: QueryDesc, i: nat, ws: seq<Write>)
    requires Ready(c, slots, p, pr) && pr.handler.Quiet? && pr.pc == Claiming(q) && ClaimTarget(slots, p) == Some(i)
    requires ws == TopologyStores(pr.heap, q.planstate, c.maxNodes)
    ensures i < |slots|
    ensures Performs(c, slots, p, pr, slots[i := slots[i].(pid := p)], pr.(pc := Filling(i, q, ws)))
  {
    PerformsOne(c, slots, p, pr);
  }

  /** How far the start has come when the error is raised, in a slot that it has got. */
  lemma {:induction false} StartsPart(c: Config, slots: seq<Slot>, p: int, pr: Proc, q: QueryDesc, f: L.Fault)
    returns (s1: seq<Slot>, p1: Proc)
    requires Ready(c, slots, p, pr) && pr.handler.Quiet? && pr.pc == Claiming(q) && c.maxNodes < U32_SIZE
    requires (f.AfterStores? || (f.AfterHeader? && f.k <= 4)) && ClaimTarget(slots, p).Some?
    ensures var es := Preorder(pr.heap, q.planstate, c.maxNodes);
      s1 == L.TryStart(L.Settings(0.0, c.textLen), Table(slots), p, Abs(pr), q,
                       TopologyStores(pr.heap, q.planstate, c.maxNodes), |es|, f).0.slots
    ensures Performs(c, slots, p, pr, s1, p1) && Starting(p1.pc) && p1 == pr.(pc := p1.pc)
  {
    var i, ws := ClaimTarget(slots, p).value, TopologyStores(pr.heap, q.planstate, c.maxNodes);
    var n := |Preorder(pr.heap, q.planstate, c.maxNodes)|;
    ClaimSlots(slots, p);
    ClaimsSlot(c, slots, p, pr, q, i, ws);
    var s0, p0 := slots[i := slots[i].(pid := p)], pr.(pc := Filling(i, q, ws));
    if f.AfterStores? {
      FillsSome(c, s0, p, p0, i, q, ws, f.k);
      s1, p1 := AfterStores(s0, i, Cut(ws, f.k)), pr.(pc := Filling(i, q, ws[Min(f.k, |ws|)..]));
    } else {
      FillsThenPuts(c, s0, p, p0, i, q, ws, f.k);
      s1, p1 := HeaderPut(AfterStores(s0, i, ws), i, q, n, c.textLen, f.k), pr.(pc := HeaderPc(i, q, f.k));
    }
    PerformsThen(c, slots, p, pr, s0, p0, s1, p1);
    PartIsBegun(s0, i, q, ws, n, c.textLen, f);
  }

  lemma {:induction false} PartIsBegun(
      slots: seq<Slot>, i: nat, q: QueryDesc, ws: seq<Write>, n: nat, textLen: nat, f: L.Fault)
    requires i < |slots|
    ensures f.AfterStores? ==>
        AfterStores(slots, i, Cut(ws, f.k)) == slots[i := L.Begun(slots[i], q, ws, n, textLen, f)]
    ensures f.AfterHeader? ==>
              HeaderPut(AfterStores(slots, i, ws), i, q, n, textLen, f.k)
                == slots[i := L.Begun(slots[i], q, ws, n, textLen, f)]
  {
  }

  /** The start hook of a tracked query when its guarded part raises an error, wherever it does. */
  lemma {:induction false} StartFaultRefines(c: Config, slots: seq<Slot>, p: int, pr: Proc, q: QueryDesc, f: L.Fault)
    returns (s1: seq<Slot>, p1: Proc, pr': Proc)
    requires Ready(c, slots, p, pr) && pr.handler.Quiet? && pr.pc == Claiming(q) && c.maxNodes < U32_SIZE
    requires f.AtOnce? || ((f.AfterStores? || (f.AfterHeader? && f.k <= 4)) && ClaimTarget(slots, p).Some?)
    ensures var es := Preorder(pr.heap, q.planstate, c.maxNodes);
      var (sh, b) := L.StartHook(L.Settings(q.cost, c.textLen), Table(slots), p, Abs(pr), q,
                                 TopologyStores(pr.heap, q.planstate, c.maxNodes), |es|, f);
      Fails(c, slots, p, pr, s1, p1, sh.slots, pr') && Abs(pr') == b
    ensures pr'.pc == Idle
  {
    if f.AtOnce? {
      s1, p1 := slots, pr;
      PerformsNothing(c, slots, p, pr);
    } else {
      ClaimSlots(slots, p);
      s1, p1 := StartsPart(c, slots, p, pr, q, f);
    }
    pr' := CatchRefines(c, s1, p, p1);
    ReleaseMineSlots(L.TryStart(L.Settings(q.cost, c.textLen), Table(slots), p, Abs(pr), q,
      TopologyStores(pr.heap, q.planstate, c.maxNodes), |Preorder(pr.heap, q.planstate, c.maxNodes)|, f).0, p);
  }

  /** A release looks at the slots only. */
  lemma {:induction false} ReleaseMineSlots(sh: L.Shared, p: int)
    ensures L.ReleaseMine(sh, p).slots == L.ReleaseMine(Table(sh.slots), p).slots
  {
  }
}
