/** One request of the metrics endpoint: reap, signal, wait, format. It holds the table lock in shared mode, so
    while it waits the backends go on: handlers run, queries start, end and are aborted, processes come and go. */
module Scrape {
  import opened Basics
  import opened NodeWrites
  import opened Slots
  import opened Lifecycle
  import opened Ownership
  import opened TextFormat
  import opened Exporter

  /** Anything may happen meanwhile but a second reaping. */
  predicate Meanwhile(events: seq<Event>) { forall k :: 0 <= k < |events| ==> !events[k].ReapOrphans? }

  /** The processes whose slots come or go during the wait. */
  function Movers(events: seq<Event>): set<int> {
    set k | 0 <= k < |events| && (events[k].StartQuery? || events[k].EndQuery? || events[k].Abort? || events[k].Exit?)
      :: events[k].p
  }

  /** They are those that start, end, abort or exit. */
  lemma {:induction false} MoversAre(events: seq<Event>, p: int)
    ensures p in Movers(events) <==>
      exists k :: 0 <= k < |events|
        && ((events[k].StartQuery? && events[k].p == p) || (events[k].EndQuery? && events[k].p == p)
            || events[k] == Abort(p) || events[k] == Exit(p))
  {
    if p in Movers(events) {
      var k :| 0 <= k < |events|
        && (events[k].StartQuery? || events[k].EndQuery? || events[k].Abort? || events[k].Exit?)
        && events[k].p == p;
    }
  }

  function ApplyAll(c: Settings, s: System, events: seq<Event>): System
    decreases |events|
  {
    if events == [] then s else ApplyAll(c, Apply(c, s, events[0]), events[1..])
  }

  /** The state that the request formats; `others` are the pids in use outside the model. */
  function Scraped(c: Settings, s: System, others: set<int>, events: seq<Event>): System {
    ApplyAll(c, Apply(c, s, ReapOrphans(others)), events)
  }

  /** All of a slot that a signal leaves alone. */
  predicate SameHeader(a: Slot, b: Slot) {
    && a.pid == b.pid && a.queryId == b.queryId && a.count == b.count && a.text == b.text && a.startTime == b.startTime
    && |a.metrics| == |b.metrics|
  }

  /** Slots of processes outside `movers` keep their headers, and no slot becomes theirs. */
  predicate Steady(a: Slot, b: Slot, movers: set<int>) {
    (Active(a) && a.pid !in movers) || (Active(b) && b.pid !in movers) ==> SameHeader(a, b)
  }

  predicate AllSteady(a: seq<Slot>, b: seq<Slot>, movers: set<int>) {
    |a| == |b| && forall i :: 0 <= i < |a| ==> Steady(a[i], b[i], movers)
  }

  /** Counts do not exceed the records, of which every slot has `max`. */
  predicate Fits(slots: seq<Slot>, max: nat) {
    forall i :: 0 <= i < |slots| ==> slots[i].count <= max == |slots[i].metrics|
  }

  /** A change of one slot that stays in range and that only concerns movers. */
  lemma {:induction false} OneSlot(slots: seq<Slot>, i: nat, s: Slot, movers: set<int>, max: nat)
    requires i < |slots| && Steady(slots[i], s, movers) && |s.metrics| == |slots[i].metrics|
    requires s.count == slots[i].count || s.count <= max
    ensures AllSteady(slots, slots[i := s], movers) && (Fits(slots, max) ==> Fits(slots[i := s], max))
  {
  }

  lemma {:induction false} ReleaseSteady(sh: Shared, p: int, movers: set<int>, max: nat)
    requires p in movers && p != 0
    ensures var r := ReleaseMine(sh, p).slots; AllSteady(sh.slots, r, movers) && (Fits(sh.slots, max) ==> Fits(r, max))
  {
    var own := FindPid(sh.slots, p);
    if own.Some? {
      OneSlot(sh.slots, own.value, Released(sh.slots[own.value]), movers, max);
    }
  }

  lemma {:induction false} TrySteady(c: Settings, sh: Shared, p: int, b: Backend, q: QueryDesc, ws: seq<Write>,
                                     count: nat, f: Fault, movers: set<int>, max: nat)
    requires p in movers && p != 0
    ensures var r := TryStart(c, sh, p, b, q, ws, count, f).0.slots;
      AllSteady(sh.slots, r, movers) && (Fits(sh.slots, max) && count <= max ==> Fits(r, max))
  {
    var (sh1, got) := Claim(sh, p, true);
    if got.Some? && !f.AtOnce? {
      var i := got.value;
      var s := Begun(sh1.slots[i], q, ws, count, c.textLen, f);
      assert sh1.slots[i := s] == sh.slots[i := s];
      OneSlot(sh.slots, i, s, movers, Max(max, count % U32_SIZE));
      assert count <= max ==> Max(max, count % U32_SIZE) == max;
    }
  }

  lemma {:induction false} StartSteady(c: Settings, sh: Shared, p: int, b: Backend, q: QueryDesc, ws: seq<Write>,
                                       count: nat, f: Fault, movers: set<int>, max: nat)
    requires p in movers && p != 0
    ensures var r := StartHook(c, sh, p, b, q, ws, count, f).0.slots;
      AllSteady(sh.slots, r, movers) && (Fits(sh.slots, max) && count <= max ==> Fits(r, max))
  {
    var sh1 := TryStart(c, sh, p, Initialized(b), q, ws, count, f).0;
    TrySteady(c, sh, p, Initialized(b), q, ws, count, f, movers, max);
    ReleaseSteady(sh1, p, movers, max);
    SteadyChain(sh.slots, sh1.slots, ReleaseMine(sh1, p).slots, movers);
  }

  lemma {:induction false} EndSteady(
      sh: Shared, p: int, b: Backend, ws: seq<Write>, f: Fault, movers: set<int>, max: nat)
    requires p in movers && p != 0
    ensures var r := EndHook(sh, p, b, ws, f).0.slots;
      AllSteady(sh.slots, r, movers) && (Fits(sh.slots, max) ==> Fits(r, max))
  {
    var own := FindPid(sh.slots, p);
    if own.Some? {
      var i := own.value;
      var stored := Stored(sh, i, ws);
      OneSlot(sh.slots, i, Stored(sh, i, Reached(ws, f)).slots[i], movers, max);
      OneSlot(sh.slots, i, Released(stored.slots[i]), movers, max);
      assert Free(stored, i).slots == sh.slots[i := Released(stored.slots[i])];
    }
  }

  lemma {:induction false} SignalSteady(sh: Shared, p: int, b: Backend, ws: seq<Write>, movers: set<int>, max: nat)
    ensures var r := SignalHandler(sh, p, b, ws).0.slots;
      AllSteady(sh.slots, r, movers) && (Fits(sh.slots, max) ==> Fits(r, max))
  {
    var own := FindPid(sh.slots, p);
    if own.Some? {
      OneSlot(sh.slots, own.value, Polling(sh, own.value, ws).slots[own.value], movers, max);
    }
  }

  lemma {:induction false} SteadyEvent(c: Settings, s: System, e: Event, movers: set<int>, max: nat)
    requires 0 !in s.backends && !e.ReapOrphans?
    requires e.StartQuery? || e.EndQuery? || e.Abort? || e.Exit? ==> e.p in movers
    ensures var s' := Apply(c, s, e);
      AllSteady(s.sh.slots, s'.sh.slots, movers) && 0 !in s'.backends
      && (Fits(s.sh.slots, max) && (e.StartQuery? ==> e.count <= max) ==> Fits(s'.sh.slots, max))
  {
    if e.p in s.backends {
      match e
      case StartQuery(p, q, ws, count, f) => StartSteady(c, s.sh, p, s.backends[p], q, ws, count, f, movers, max);
      case EndQuery(p, ws, f) => EndSteady(s.sh, p, s.backends[p], ws, f, movers, max);
      case Signal(p, ws) => SignalSteady(s.sh, p, s.backends[p], ws, movers, max);
      case Abort(p) => ReleaseSteady(s.sh, p, movers, max);
      case Exit(p) => ReleaseSteady(s.sh, p, movers, max);
      case _ =>
    }
  }

  lemma {:induction false} SteadyChain(a: seq<Slot>, b: seq<Slot>, d: seq<Slot>, movers: set<int>)
    requires AllSteady(a, b, movers) && AllSteady(b, d, movers)
    ensures AllSteady(a, d, movers)
  {
    forall i | 0 <= i < |a| ensures Steady(a[i], d[i], movers) {
      assert Steady(a[i], b[i], movers) && Steady(b[i], d[i], movers);
    }
  }

  /** The recorded counts are those of topology passes over slots of this size. */
  predicate CountsFit(events: seq<Event>, max: nat) {
    forall k :: 0 <= k < |events| && events[k].StartQuery? ==> events[k].count <= max
  }

  lemma {:induction false} SteadyEvents(c: Settings, s: System, events: seq<Event>, movers: set<int>, max: nat)
    requires 0 !in s.backends && Meanwhile(events) && Movers(events) <= movers
    ensures var after := ApplyAll(c, s, events).sh.slots;
      AllSteady(s.sh.slots, after, movers) && (Fits(s.sh.slots, max) && CountsFit(events, max) ==> Fits(after, max))
    decreases |events|
  {
    if events != [] {
      var e, rest := events[0], events[1..];
      var s1 := Apply(c, s, e);
      assert e.StartQuery? || e.EndQuery? || e.Abort? || e.Exit? ==> e.p in Movers(events);
      assert forall k :: 0 <= k < |rest| ==> rest[k] == events[k + 1];
      SteadyEvent(c, s, e, movers, max);
      SteadyEvents(c, s1, rest, movers, max);
      SteadyChain(s.sh.slots, s1.sh.slots, ApplyAll(c, s, events).sh.slots, movers);
    }
  }

  /** The queries of the slots of the processes `keep`, as a reader of the exposition sees them. */
  function QueriesOf(slots: seq<Slot>, keep: set<int>, n: nat): seq<Option<Fact>>
    requires n <= |slots|
  {
    if n == 0 then []
    else
      var s := slots[n - 1];
      QueriesOf(slots, keep, n - 1)
      + if Active(s) && s.pid in keep then [Some(Query(s.queryId, s.pid, s.text))] else []
  }

  /** The queries among the facts of an exposition, but for those of `movers`. */
  function QueryFacts(fs: seq<Option<Fact>>, movers: set<int>): seq<Option<Fact>>
    decreases |fs|
  {
    if fs == [] then []
    else
      (if fs[0].Some? && fs[0].value.Query? && fs[0].value.pid !in movers then [fs[0]] else [])
      + QueryFacts(fs[1..], movers)
  }

  lemma {:induction false} QueryFactsConcat(a: seq<Option<Fact>>, b: seq<Option<Fact>>, movers: set<int>)
    ensures QueryFacts(a + b, movers) == QueryFacts(a, movers) + QueryFacts(b, movers)
    decreases |a|
  {
    if a == [] {
      assert a + b == b;
    } else {
      var rest := a[1..];
      assert (a + b)[1..] == rest + b && (a + b)[0] == a[0];
      QueryFactsConcat(rest, b, movers);
    }
  }

  lemma {:induction false} NoQueryInNode(sp: Spelling, s: Slot, n: NodeMetrics, total: real, k: nat, movers: set<int>)
    requires k <= METRIC_COUNT
    ensures QueryFacts(NodeFacts(sp, s, n, total, k), movers) == []
  {
    if k > 0 {
      var j := k - 1;
      var r := Some(NodeReading(sp, s, n, total, METRICS[j]));
      NoQueryInNode(sp, s, n, total, j, movers);
      QueryFactsConcat(NodeFacts(sp, s, n, total, j), [r], movers);
      assert [r][1..] == [] && QueryFacts([r], movers) == [];
    }
  }

  lemma {:induction false} NoQueryInRecords(sp: Spelling, s: Slot, total: real, j: nat, movers: set<int>)
    requires j <= |s.metrics|
    ensures QueryFacts(RecordFacts(sp, s, total, j), movers) == []
  {
    if j > 0 {
      var k := j - 1;
      NoQueryInRecords(sp, s, total, k, movers);
      if Marked(s.metrics[k]) {
        NoQueryInNode(sp, s, s.metrics[k], total, METRIC_COUNT, movers);
        QueryFactsConcat(RecordFacts(sp, s, total, k), NodeFacts(sp, s, s.metrics[k], total, METRIC_COUNT), movers);
      } else {
        assert RecordFacts(sp, s, total, j) == RecordFacts(sp, s, total, k) + [] == RecordFacts(sp, s, total, k);
      }
    }
  }

  lemma {:induction false} OneQueryPerSlot(sp: Spelling, s: Slot, movers: set<int>)
    requires s.count <= |s.metrics|
    ensures QueryFacts(SlotFacts(sp, s), movers)
         == if Active(s) && s.pid !in movers then [Some(Query(s.queryId, s.pid, s.text))] else []
  {
    if Active(s) {
      var total, query := TotalTime(s.metrics, s.count), Some(Query(s.queryId, s.pid, s.text));
      NoQueryInRecords(sp, s, total, s.count, movers);
      QueryFactsConcat([query], RecordFacts(sp, s, total, s.count), movers);
      assert [query][1..] == [];
    }
  }

  /** But for the slots of `movers`, slot i of the formatted table is the original slot i if its process lives,
      and free otherwise. */
  predicate CleanedSlot(a: Slot, b: Slot, alive: set<int>, movers: set<int>) {
    if Active(a) && a.pid in alive && a.pid !in movers then SameHeader(a, b) else !(Active(b) && b.pid !in movers)
  }

  ghost predicate Cleaned(before: seq<Slot>, after: seq<Slot>, alive: set<int>, movers: set<int>) {
    |before| == |after| && forall i :: 0 <= i < |before| ==> CleanedSlot(before[i], after[i], alive, movers)
  }

  lemma {:induction false} ScrapeCleans(c: Settings, s: System, others: set<int>, events: seq<Event>, max: nat)
    requires 0 !in s.backends && Meanwhile(events)
    ensures var after := Scraped(c, s, others, events).sh.slots;
      && Cleaned(s.sh.slots, after, s.backends.Keys + others, Movers(events))
      && (Fits(s.sh.slots, max) && CountsFit(events, max) ==> Fits(after, max))
  {
    var reaped, done, movers := Apply(c, s, ReapOrphans(others)), Scraped(c, s, others, events), Movers(events);
    ReapExact(s.sh, s.backends.Keys + others, |s.sh.slots|);
    SteadyEvents(c, reaped, events, movers, max);
    forall i | 0 <= i < |s.sh.slots|
      ensures CleanedSlot(s.sh.slots[i], done.sh.slots[i], s.backends.Keys + others, movers)
    {
      assert Steady(reaped.sh.slots[i], done.sh.slots[i], movers);
    }
  }

  lemma {:induction false} QueriesNext(
      sp: Spelling, before: seq<Slot>, after: seq<Slot>, alive: set<int>, movers: set<int>, n: nat)
    requires Cleaned(before, after, alive, movers) && CountsOk(after) && n < |after|
    requires QueryFacts(Facts(sp, after, n), movers) == QueriesOf(before, alive - movers, n)
    ensures QueryFacts(Facts(sp, after, n + 1), movers) == QueriesOf(before, alive - movers, n + 1)
  {
    QueryFactsConcat(Facts(sp, after, n), SlotFacts(sp, after[n]), movers);
    OneQueryPerSlot(sp, after[n], movers);
    assert CleanedSlot(before[n], after[n], alive, movers);
  }

  lemma {:induction false} QueriesShown(
      sp: Spelling, before: seq<Slot>, after: seq<Slot>, alive: set<int>, movers: set<int>, n: nat)
    requires Cleaned(before, after, alive, movers) && CountsOk(after) && n <= |after|
    ensures QueryFacts(Facts(sp, after, n), movers) == QueriesOf(before, alive - movers, n)
    decreases n
  {
    if n > 0 {
      var k := n - 1;
      QueriesShown(sp, before, after, alive, movers, k);
      QueriesNext(sp, before, after, alive, movers, k);
    }
  }

  /** Whatever happens during the wait, a request shows, among the processes that start, end, abort and exit
      nothing meanwhile, exactly the queries of the slots that the living ones held when it began, in slot order
      and with their own text: no orphan, and none left out. */
  lemma {:induction false} ScrapeShowsLiving(sp: Spelling, c: Settings, s: System, others: set<int>, events: seq<Event>,
                                             max: nat)
    requires SpellingOk(sp) && 0 !in s.backends && Meanwhile(events)
    requires Fits(s.sh.slots, max) && CountsFit(events, max)
    ensures var after, movers := Scraped(c, s, others, events).sh.slots, Movers(events);
      CountsOk(after) &&
      var read := ReadText(Render(Exposition(sp, after, |after|)));
      && read.Some? && |after| == |s.sh.slots|
      && QueryFacts(InterpretAll(read.value), movers)
          == QueriesOf(s.sh.slots, s.backends.Keys + others - movers, |after|)
  {
    var after, movers := Scraped(c, s, others, events).sh.slots, Movers(events);
    ScrapeCleans(c, s, others, events, max);
    ExpositionReadsBack(sp, after);
    QueriesShown(sp, s.sh.slots, after, s.backends.Keys + others, movers, |after|);
  }

  lemma {:induction false} QueryFactsIff(fs: seq<Option<Fact>>, movers: set<int>, f: Fact)
    requires f.Query? && f.pid !in movers
    ensures Some(f) in QueryFacts(fs, movers) <==> Some(f) in fs
    decreases |fs|
  {
    if fs != [] {
      QueryFactsIff(fs[1..], movers, f);
      assert fs == [fs[0]] + fs[1..];
    }
  }

  lemma {:induction false} QueriesOfIff(slots: seq<Slot>, keep: set<int>, n: nat, f: Fact)
    requires n <= |slots|
    ensures Some(f) in QueriesOf(slots, keep, n) <==> exists i :: 0 <= i < n && IsQueryOf(slots[i], keep, f)
    decreases n
  {
    if n > 0 {
      var k := n - 1;
      QueriesOfIff(slots, keep, k, f);
      if i :| 0 <= i < k && IsQueryOf(slots[i], keep, f) {
        assert 0 <= i < n && IsQueryOf(slots[i], keep, f);
      }
    }
  }

  /** The slot is in use by one of these processes, for the query `f`. */
  predicate IsQueryOf(s: Slot, keep: set<int>, f: Fact) {
    s.pid != 0 && s.pid in keep && f == Query(s.queryId, s.pid, s.text)
  }

  /** Which queries a reader of the response learns of: those of slots that a living process held when the request
      began, and no others, but for those of processes whose slots come or go meanwhile. */
  lemma {:induction false} ScrapeShowsIff(
      sp: Spelling, c: Settings, s: System, others: set<int>, events: seq<Event>, max: nat, f: Fact)
    requires SpellingOk(sp) && 0 !in s.backends && Meanwhile(events)
    requires Fits(s.sh.slots, max) && CountsFit(events, max) && f.Query? && f.pid !in Movers(events)
    ensures var after := Scraped(c, s, others, events).sh.slots;
      CountsOk(after) &&
      var read := ReadText(Render(Exposition(sp, after, |after|)));
      read.Some? && (Some(f) in InterpretAll(read.value) <==>
        exists i :: 0 <= i < |s.sh.slots| && IsQueryOf(s.sh.slots[i], s.backends.Keys + others, f))
  {
    var after, movers := Scraped(c, s, others, events).sh.slots, Movers(events);
    ScrapeShowsLiving(sp, c, s, others, events, max);
    var read := ReadText(Render(Exposition(sp, after, |after|)));
    QueryFactsIff(InterpretAll(read.value), movers, f);
    QueriesOfIff(s.sh.slots, s.backends.Keys + others - movers, |after|, f);
    assert forall i :: 0 <= i < |s.sh.slots| ==>
      (IsQueryOf(s.sh.slots[i], s.backends.Keys + others - movers, f) <==>
       IsQueryOf(s.sh.slots[i], s.backends.Keys + others, f));
  }

  /** The tables of all histories are such tables. */
  lemma {:induction false} HistoryFits(c: Settings, n: nat, max: nat, tr: seq<Event>)
    requires CountsFit(tr, max)
    ensures Fits(Run(c, n, max, tr).sh.slots, max) && 0 !in Run(c, n, max, tr).backends
    decreases |tr|
  {
    HistoryBalanced(c, n, max, tr);
    if tr != [] {
      var past, e := tr[..|tr| - 1], tr[|tr| - 1];
      var s := Run(c, n, max, past);
      HistoryFits(c, n, max, past);
      if e.ReapOrphans? {
        ReapExact(s.sh, s.backends.Keys + e.others, |s.sh.slots|);
      } else {
        SteadyEvent(c, s, e, {e.p}, max);
      }
    }
  }
}
