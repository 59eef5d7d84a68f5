/** Aborts of subtransactions: no callback of the extension hears of them, so a query torn down by one stays the
    published one. When this makes the signal handler follow a pointer to a query that is gone, and when not, in
    the machine whose claims are atomic. */
module Subtransactions {
  import opened Basics
  import opened Plans
  import opened TwoPass
  import opened Slots
  import opened SignalMachine
  import opened SignalSafety
  import opened HookRefinement

  /** A run together with its steps. */
  ghost predicate IsTrace(c: Config, run: seq<World>, steps: seq<Step>) {
    && |run| == |steps| + 1 && run[0] == SignalSafety.Start(c)
    && forall i :: 0 <= i < |steps| ==> Leads(c, run, steps, i)
  }

  ghost predicate Leads(c: Config, run: seq<World>, steps: seq<Step>, i: nat)
    requires i < |steps| && i + 1 < |run|
  {
    WorldOk(c, run[i]) && Enabled(run[i], steps[i]) && run[i + 1] == Next(c, run[i], steps[i])
  }

  /** The runs of the signal machine are exactly the sequences that have such steps. */
  lemma {:induction false} RunIffTrace(c: Config, run: seq<World>)
    ensures IsRun(c, run) <==> exists steps :: IsTrace(c, run, steps)
  {
    if IsRun(c, run) {
      var steps := seq(|run| - 1, i requires 0 <= i < |run| - 1 => StepAt(c, run, i));
      forall i | 0 <= i < |steps| ensures Leads(c, run, steps, i) {
        assert steps[i] == StepAt(c, run, i);
      }
      assert IsTrace(c, run, steps);
    } else if exists steps :: IsTrace(c, run, steps) {
      var steps :| IsTrace(c, run, steps);
      forall i | 0 <= i < |run| - 1 ensures Follows(c, run, i) {
        assert Leads(c, run, steps, i);
      }
    }
  }

  ghost function StepAt(c: Config, run: seq<World>, i: nat): (s: Step)
    requires IsRun(c, run) && i + 1 < |run|
    ensures WorldOk(c, run[i]) && Enabled(run[i], s) && run[i + 1] == Next(c, run[i], s)
  {
    assert Follows(c, run, i);
    var s :| WorldOk(c, run[i]) && Enabled(run[i], s) && run[i + 1] == Next(c, run[i], s);
    s
  }

  /** The statements that set or clear the current query. */
  predicate SetsQuery(pc: Pc) { pc.PutDesc? || pc.CatchDesc? || pc.ClearDesc? || pc.AbortDesc? }

  /** After `k` steps, process `p` has had a subtransaction abort while a query was published and has not set or
      cleared the current query since. */
  ghost predicate SubAborted(run: seq<World>, steps: seq<Step>, p: int, k: nat)
    requires k <= |steps| <= |run|
  {
    if k == 0 then false
    else
      var w, before := run[k - 1], SubAborted(run, steps, p, k - 1);
      match steps[k - 1]
      case SubAbort(o) => before || (o == p && p in w.procs && w.procs[p].desc.Some?)
      case Main(o) => before && !(o == p && p in w.procs && SetsQuery(w.procs[p].pc))
      case Spawn(o, _) => before && o != p
      case _ => before
  }

  /** Where claims are atomic, the current query is one that is gone exactly since such an abort. */
  lemma {:induction false} DeadIffSubAborted(c: Config, run: seq<World>, steps: seq<Step>, p: int, k: nat)
    requires IsTrace(c, run, steps) && k <= |steps| && p in run[k].procs
    ensures run[k].procs[p].dead <==> SubAborted(run, steps, p, k)
  {
    if k > 0 {
      var w, s := run[k - 1], steps[k - 1];
      assert Leads(c, run, steps, k - 1);
      if p in w.procs {
        DeadIffSubAborted(c, run, steps, p, k - 1);
        DeadStep(c, w, s, p);
      }
    }
  }

  lemma {:induction false} DeadStep(c: Config, w: World, s: Step, p: int)
    requires WorldOk(c, w) && Enabled(w, s) && p in w.procs && p in Next(c, w, s).procs
    ensures Next(c, w, s).procs[p].dead <==>
      if s == SubAbort(p) then w.procs[p].dead || w.procs[p].desc.Some?
      else w.procs[p].dead && !(s == Main(p) && SetsQuery(w.procs[p].pc))
  {
    assert ProcOk(c, w.slots, p, w.procs[p]);
    if s == Main(p) {
      DeadMain(c, w.slots, p, w.procs[p]);
    }
  }

  /** A statement of a hook ends the mark exactly if it is a store to the current query. */
  ghost predicate MarkFollows(c: Config, slots: seq<Slot>, p: int, pr: Proc)
    requires ProcOk(c, slots, p, pr)
  {
    var pr' := MainStep(c, slots, p, pr).1;
    pr'.Some? ==> (pr'.value.dead <==> pr.dead && !SetsQuery(pr.pc))
  }

  lemma {:induction false} DeadMain(c: Config, slots: seq<Slot>, p: int, pr: Proc)
    requires ProcOk(c, slots, p, pr)
    ensures MarkFollows(c, slots, p, pr)
  {
    if SetsQuery(pr.pc) {
      MarkCleared(c, slots, p, pr);
    } else if pr.pc.Freeing? || pr.pc.Bumping? {
      MarkAtRelease(c, slots, p, pr);
    } else {
      MarkKept(c, slots, p, pr);
    }
  }

  lemma {:induction false} MarkCleared(c: Config, slots: seq<Slot>, p: int, pr: Proc)
    requires ProcOk(c, slots, p, pr) && SetsQuery(pr.pc)
    ensures MarkFollows(c, slots, p, pr)
  {
  }

  lemma {:induction false} MarkAtRelease(c: Config, slots: seq<Slot>, p: int, pr: Proc)
    requires ProcOk(c, slots, p, pr) && (pr.pc.Freeing? || pr.pc.Bumping?)
    ensures MarkFollows(c, slots, p, pr)
  {
  }

  lemma {:induction false} MarkKept(c: Config, slots: seq<Slot>, p: int, pr: Proc)
    requires ProcOk(c, slots, p, pr) && !SetsQuery(pr.pc) && !pr.pc.Freeing? && !pr.pc.Bumping?
    ensures MarkFollows(c, slots, p, pr)
  {
  }

  /** Signal safety, exactly, in a machine whose claims are atomic: a handler that comes to look at the current
      query goes astray if and only if the published query has been torn down by a subtransaction abort since it
      was set. Where claims are not atomic a lost slot has the same effect, see `Publication.DanglesIff`. */
  lemma {:induction false} AstrayIffSubAborted(c: Config, run: seq<World>, steps: seq<Step>, p: int, k: nat)
    requires IsTrace(c, run, steps) && k < |steps| && steps[k] == Handle(p) && p in run[k].procs
    requires run[k].procs[p].handler.Entered?
    ensures p in run[k + 1].procs
    ensures run[k + 1].procs[p].handler.Astray? <==> SubAborted(run, steps, p, k)
  {
    assert Leads(c, run, steps, k);
    DeadIffSubAborted(c, run, steps, p, k);
  }

  // ---- Such a run --------------------------------------------------------------------------------

  lemma {:induction false} RunOn(c: Config, run: seq<World>, s: Step) returns (longer: seq<World>)
    requires IsRun(c, run) && WorldOk(c, run[|run| - 1]) && Enabled(run[|run| - 1], s)
    ensures longer == run + [Next(c, run[|run| - 1], s)] && IsRun(c, longer)
  {
    longer := run + [Next(c, run[|run| - 1], s)];
    forall i | 0 <= i < |longer| - 1 ensures Follows(c, longer, i) {
      if i < |run| - 1 {
        assert Follows(c, run, i);
        var t :| WorldOk(c, run[i]) && Enabled(run[i], t) && run[i + 1] == Next(c, run[i], t);
        assert longer[i] == run[i] && longer[i + 1] == run[i + 1];
      } else {
        assert longer[i] == run[i] && longer[i + 1] == Next(c, longer[i], s);
      }
    }
  }

  lemma {:induction false} LastOk(c: Config, run: seq<World>)
    requires IsRun(c, run)
    ensures Inv(c, run[|run| - 1]) && WorldOk(c, run[|run| - 1])
  {
    var w := run[|run| - 1];
    RunInv(c, run, |run| - 1);
    forall o | o in w.procs ensures ProcOk(c, w.slots, o, w.procs[o]) {
      assert ProcInv(c, w.slots, o, w.procs[o]);
    }
  }

  /** The statements of the only process, one after the other, as steps of the system. */
  lemma {:induction false} RunSteps(c: Config, run: seq<World>, p: int, pr: Proc, slots: seq<Slot>, pr': Proc, n: nat)
    returns (longer: seq<World>)
    requires IsRun(c, run) && run[|run| - 1].procs == map[p := pr]
    requires Steps(c, run[|run| - 1].slots, p, pr, slots, pr', n)
    ensures IsRun(c, longer) && longer[|longer| - 1] == World(slots, map[p := pr'])
    decreases n
  {
    var w := run[|run| - 1];
    if n == 0 {
      longer := run;
    } else {
      LastOk(c, run);
      var (s1, p1) := Act(c, w.slots, p, pr);
      var s := if pr.handler.Quiet? then Main(p) else Handle(p);
      if pr.handler.Astray? {
        StuckSteps(c, w.slots, p, pr, slots, pr', n);
        longer := run;
      } else {
        var more := RunOn(c, run, s);
        assert map[p := pr][p := p1.value] == map[p := p1.value];
        longer := RunSteps(c, more, p, p1.value, slots, pr', n - 1);
      }
    }
  }

  /** A handler that has gone astray does nothing more. */
  lemma {:induction false} StuckSteps(
      c: Config, slots: seq<Slot>, p: int, pr: Proc, slots': seq<Slot>, pr': Proc, n: nat)
    requires pr.handler.Astray? && Steps(c, slots, p, pr, slots', pr', n)
    ensures slots' == slots && pr' == pr
    decreases n
  {
    if n > 0 {
      StuckSteps(c, slots, p, pr, slots', pr', n - 1);
    }
  }

  lemma {:induction false} BegunRun(c: Config, p: int, q: QueryDesc, h: Heap) returns (run: seq<World>)
    requires p != 0 && PlanOk(h, q) && c.slots > 0
    ensures IsRun(c, run)
    ensures run[|run| - 1] == World(BlankTable(c.slots, c.maxNodes),
      map[p := Proc(h, None, false, Some(q), Claiming(q), Quiet, true, true, true, NEWBORN)])
  {
    run := [SignalSafety.Start(c)];
    run := RunOn(c, run, Spawn(p, true));
    LastOk(c, run);
    run := RunOn(c, run, Begin(p, q, h, true));
  }

  /** For every plan there is a run in which its query is tracked and published, and holds a slot. */
  lemma {:induction false} TrackedRun(c: Config, p: int, q: QueryDesc, h: Heap) returns (run: seq<World>)
    requires p != 0 && PlanOk(h, q) && c.slots > 0 && c.maxNodes < U32_SIZE
    ensures IsRun(c, run)
    ensures var w := run[|run| - 1];
      w.procs == map[p := Proc(h, Some(q), false, Some(q), Idle, Quiet, true, true, true, NEWBORN)]
      && FindPid(w.slots, p).Some?
  {
    run := BegunRun(c, p, q, h);
    LastOk(c, run);
    var w := run[|run| - 1];
    var pr := w.procs[p];
    assert w.slots[0].pid == 0 && ProcInv(c, w.slots, p, pr);
    assert FindPid(w.slots, 0).Some?;
    var pr' := ClaimRefines(c, w.slots, p, pr, q);
    var s1 := L.TryStart(L.Settings(0.0, c.textLen), Table(w.slots), p, Abs(pr), q,
      TopologyStores(h, q.planstate, c.maxNodes), |Preorder(h, q.planstate, c.maxNodes)|, L.NoFault).0.slots;
    var n: nat :| Steps(c, w.slots, p, pr, s1, pr', n);
    run := RunSteps(c, run, p, pr, s1, pr', n);
    LastOk(c, run);
    assert ProcInv(c, s1, p, pr');
  }

  /** And its continuation in which the query is torn down by a subtransaction abort, a signal arrives, and the
      handler goes astray. */
  lemma {:induction false} SubAbortLeadsAstray(c: Config, p: int, q: QueryDesc, h: Heap) returns (run: seq<World>)
    requires p != 0 && PlanOk(h, q) && c.slots > 0 && c.maxNodes < U32_SIZE
    ensures IsRun(c, run) && p in run[|run| - 1].procs && run[|run| - 1].procs[p].handler.Astray?
  {
    run := TrackedRun(c, p, q, h);
    LastOk(c, run);
    run := RunOn(c, run, SubAbort(p));
    LastOk(c, run);
    run := RunOn(c, run, Deliver(p));
    LastOk(c, run);
    run := RunOn(c, run, Handle(p));
  }

  lemma {:induction false} HandlerRuns(c: Config, slots: seq<Slot>, p: int, pr: Proc)
    returns (s1: seq<Slot>, pr': Proc, n: nat)
    requires Ready(c, slots, p, pr) && pr.handler.Quiet? && pr.hooked && !pr.dead && FindPid(slots, p).Some?
    requires pr.desc.Some? && pr.desc.value.planstate.Some? && pr.attached
    ensures Steps(c, slots, p, Turn(pr, Deliver(p)).value, s1, pr', n)
    ensures pr'.handler.Quiet? && pr'.tally
         == pr.tally.(calls := pr.tally.calls + 1, success := pr.tally.success + 1)
  {
    var ws := RefreshStores(pr.heap, pr.desc.value.planstate, OwnMetrics(slots, p), c.maxNodes);
    pr' := SignalRefines(c, slots, p, pr, ws);
    s1 := L.SignalHandler(Table(slots), p, Abs(pr), ws).0.slots;
    n :| Steps(c, slots, p, Turn(pr, Deliver(p)).value, s1, pr', n);
  }

  /** Whereas a signal that arrives while the query runs leads to a complete refresh. */
  lemma {:induction false} RefreshRun(c: Config, p: int, q: QueryDesc, h: Heap) returns (run: seq<World>)
    requires p != 0 && PlanOk(h, q) && q.planstate.Some? && c.slots > 0 && c.maxNodes < U32_SIZE
    ensures IsRun(c, run)
    ensures var w := run[|run| - 1];
      p in w.procs && w.procs[p].handler == Quiet && w.procs[p].tally == Tally(1, 1, 0, 0, 0)
  {
    run := TrackedRun(c, p, q, h);
    LastOk(c, run);
    var w := run[|run| - 1];
    var pr := w.procs[p];
    assert ProcInv(c, w.slots, p, pr);
    var s1, pr', n := HandlerRuns(c, w.slots, p, pr);
    run := RunOn(c, run, Deliver(p));
    run := RunSteps(c, run, p, Turn(pr, Deliver(p)).value, s1, pr', n);
  }
}
