/** What the two interfaces show of a table that other processes are storing into: the theorems about all
    interleavings, carried over to the rows of the view and the readings of the endpoint. */
module Readers {
  import opened Basics
  import opened NodeWrites
  import opened Slots
  import opened TextFormat
  import opened Exporter
  import opened Reads
  import opened StatusScan
  import opened MovingExposition
  import opened Interleaving

  /** What one call of the view reads during a run: its `t`-th read comes at table `at(t)`. */
  function Seen(run: seq<Table>, at: nat -> nat): Memory {
    (t: nat, i: nat) => if at(t) < |run| && i < |run[at(t)].slots| then run[at(t)].slots[i] else Blank(0)
  }

  ghost predicate Schedule(run: seq<Table>, at: nat -> nat) {
    forall t, u :: 0 <= t <= u ==> at(t) <= at(u) < |run|
  }

  lemma {:induction false} TableKeepsSize(run: seq<Table>, n: nat, max: nat, i: nat)
    requires IsRun(run, n, max) && i < |run|
    ensures |run[i].slots| == n
    decreases i
  {
    if i > 0 {
      TableKeepsSize(run, n, max, i - 1);
      LinkGains(run, n, max, i - 1);
    }
  }

  lemma {:induction false} SeenAt(run: seq<Table>, n: nat, max: nat, at: nat -> nat, t: nat, i: nat)
    requires IsRun(run, n, max) && Schedule(run, at) && i < n
    ensures at(t) < |run| && |run[at(t)].slots| == n && Seen(run, at)(t, i) == run[at(t)].slots[i]
  {
    assert at(t) <= at(t) < |run|;
    TableKeepsSize(run, n, max, at(t));
  }

  lemma {:induction false} SeenIsSound(run: seq<Table>, n: nat, max: nat, at: nat -> nat)
    requires IsRun(run, n, max) && Schedule(run, at)
    ensures Sound(Seen(run, at), n, max)
  {
    forall t: nat, i: nat | i < n
      ensures Seen(run, at)(t, i).count <= |Seen(run, at)(t, i).metrics| == max
    {
      SeenAt(run, n, max, at, t, i);
      TopologyAlwaysWellFormed(run, n, max, at(t), i);
    }
  }

  /** A parent id as the interfaces show it, of node `k`: -1 exactly for the root, else an earlier node. */
  predicate ShownParent(k: nat, parent: int) { if k == 0 then parent == -1 else 0 <= parent < k }

  /** A record that was below the count at read `t` has its own number and an earlier parent at every later
      read, however many processes store meanwhile. */
  lemma {:induction false} ReadLater(run: seq<Table>, n: nat, max: nat, at: nat -> nat, c: Cursor, t: nat, u: nat)
    requires IsRun(run, n, max) && Schedule(run, at) && max <= 0x8000_0000 && c.slot < n && t <= u
    requires c.node < Seen(run, at)(t, c.slot).count
    ensures LinksUp(Seen(run, at)(u, c.slot), c.node)
  {
    SeenAt(run, n, max, at, t, c.slot);
    SeenAt(run, n, max, at, u, c.slot);
    assert at(t) <= at(u);
    ReaderNeverSkips(run, n, max, at(t), at(u), c.slot, c.node);
    TopologyAlwaysWellFormed(run, n, max, at(u), c.slot);
  }

  /** From read `t` on the record at `c` shows its own number and an earlier parent. */
  ghost predicate LinksUpFrom(memory: Memory, c: Cursor, t: nat) {
    forall u: nat :: t <= u ==> LinksUp(memory(u, c.slot), c.node)
  }

  predicate LinksUp(s: Slot, k: nat) {
    k < |s.metrics| && s.metrics[k].nodeId == k && ShownParent(k, ToI32(s.metrics[k].parentId % U32_SIZE))
  }

  lemma {:induction false} FilledRow(
      sp: Spelling, memory: Memory, n: nat, max: nat, c: Cursor, total: real, t: nat)
    requires Sound(memory, n, max) && max <= 0x8000_0000 && c.slot < n && c.node < max
    requires LinksUp(memory(t + 5, c.slot), c.node) && LinksUp(memory(t + 6, c.slot), c.node)
    ensures var row := FillRow(sp, memory, c, total, t);
      row.nodeId == c.node && ShownParent(c.node, row.parentId)
  {
  }

  lemma {:induction false} RowOfLinked(sp: Spelling, memory: Memory, n: nat, max: nat, c: Cursor, t: nat)
    requires Sound(memory, n, max) && max <= 0x8000_0000 && c.slot < n && c.node < max
    requires LinksUpFrom(memory, c, t)
    ensures var row := ReadRow(sp, memory, n, max, c, t); row.nodeId == c.node && ShownParent(c.node, row.parentId)
  {
    var (total, u) := SumFrom(memory, n, max, c.slot, 0, 0.0, t);
    SumAdvances(memory, n, max, c.slot, 0, 0.0, t);
    FilledRow(sp, memory, n, max, c, total, u);
  }

  /** A row that the view puts together read by read, while any number of processes store, has the number of
      the node it stands for and names an earlier node as its parent, so that the rows still link up. */
  lemma {:induction false} RowsLinkUp(
      sp: Spelling, run: seq<Table>, n: nat, max: nat, at: nat -> nat, memory: Memory, c: Cursor)
    requires IsRun(run, n, max) && Schedule(run, at) && memory == Seen(run, at)
    requires max <= 0x8000_0000 && c.slot <= n
    ensures Sound(memory, n, max)
    ensures var (d, t) := Look(memory, n, c, 0);
      d.slot < n ==>
        && d.node < max
        && var row := ReadRow(sp, memory, n, max, d, t);
          row.nodeId == d.node && ShownParent(d.node, row.parentId)
  {
    SeenIsSound(run, n, max, at);
    var (d, t) := Look(memory, n, c, 0);
    LookFinds(memory, n, max, c, 0);
    if d.slot < n {
      LinkedFrom(run, n, max, at, d, t - 1);
      RowOfLinked(sp, memory, n, max, d, t);
    }
  }

  lemma {:induction false} LinkedFrom(run: seq<Table>, n: nat, max: nat, at: nat -> nat, c: Cursor, t: nat)
    requires IsRun(run, n, max) && Schedule(run, at) && max <= 0x8000_0000 && c.slot < n
    requires c.node < Seen(run, at)(t, c.slot).count
    ensures LinksUpFrom(Seen(run, at), c, t)
  {
    forall u: nat | t <= u ensures LinksUp(Seen(run, at)(u, c.slot), c.node) {
      ReadLater(run, n, max, at, c, t, u);
    }
  }

  lemma {:induction false} SumAdvances(memory: Memory, n: nat, max: nat, i: nat, j: nat, sum: real, t: nat)
    requires Sound(memory, n, max) && i < n && j <= max
    ensures t < SumFrom(memory, n, max, i, j, sum, t).1
    decreases max - j
  {
    if j < memory(t, i).count {
      SumAdvances(memory, n, max, i, j + 1, sum + NodeAt(memory, t + 1, Cursor(i, j)).execution.totalTimeUs, t + 2);
    }
  }

  /** In every table of every run the endpoint gives exactly 14 readings for each row of the view. */
  lemma {:induction false} SameNodesInEveryTable(sp: Spelling, run: seq<Table>, n: nat, max: nat, i: nat)
    requires IsRun(run, n, max) && i < |run|
    ensures var slots := run[i].slots;
      CountsOk(slots) && |Readings(Facts(sp, slots, |slots|))| == METRIC_COUNT * |Cells(slots, |slots|)|
  {
    var slots := run[i].slots;
    forall k | 0 <= k < |slots|
      ensures slots[k].count <= |slots[k].metrics|
      ensures forall j :: 0 <= j < slots[k].count ==> Marked(slots[k].metrics[j])
    {
      TopologyAlwaysWellFormed(run, n, max, i, k);
    }
    ExporterVisitsCells(sp, slots, |slots|);
    CellsHaveNodes(slots, |slots|);
    SameNodesIffMarked(sp, slots, Cells(slots, |slots|));
  }

  lemma {:induction false} NodesOfHaveNodes(slots: seq<Slot>, i: nat, k: nat)
    requires i < |slots| && Active(slots[i]) && k <= slots[i].count
    ensures forall j :: 0 <= j < |NodesOf(i, k)| ==> HasNode(slots, NodesOf(i, k)[j])
    decreases k
  {
    if k > 0 {
      NodesOfHaveNodes(slots, i, k - 1);
    }
  }

  lemma {:induction false} CellsHaveNodes(slots: seq<Slot>, n: nat)
    requires n <= |slots|
    ensures forall j :: 0 <= j < |Cells(slots, n)| ==> HasNode(slots, Cells(slots, n)[j])
    decreases n
  {
    if n > 0 {
      var k := n - 1;
      CellsHaveNodes(slots, k);
      if Active(slots[k]) {
        NodesOfHaveNodes(slots, k, slots[k].count);
      }
    }
  }

  /** In every table of every run a query's percentages sum to 100 as soon as any time was spent. */
  lemma {:induction false} PercentagesInEveryTable(run: seq<Table>, n: nat, max: nat, i: nat, slot: nat)
    requires IsRun(run, n, max) && i < |run| && slot < |run[i].slots|
    ensures var s := run[i].slots[slot];
      && s.count <= |s.metrics|
      && (TimesOk(s.metrics, s.count) && TotalTime(s.metrics, s.count) > 0.0 ==>
            PercentSum(s.metrics, s.count, TotalTime(s.metrics, s.count)) == 100.0)
  {
    var s := run[i].slots[slot];
    TopologyAlwaysWellFormed(run, n, max, i, slot);
    if TimesOk(s.metrics, s.count) {
      PercentagesConserved(s.metrics, s.count);
    }
  }

  /** In every table of every run a query's readings are 14 for each node, and they name the node's own number
      and an earlier parent. */
  lemma {:induction false} ReadingsInEveryTable(
      sp: Spelling, run: seq<Table>, n: nat, max: nat, i: nat, slot: nat, total: real, k: nat, j: nat)
    requires IsRun(run, n, max) && max <= 0x8000_0000 && i < |run| && slot < |run[i].slots|
    requires k < run[i].slots[slot].count && j < METRIC_COUNT
    ensures var s := run[i].slots[slot];
      s.count <= |s.metrics| && ReadingLinksUp(RecordFacts(sp, s, total, s.count), k, j)
  {
    var s := run[i].slots[slot];
    TopologyAlwaysWellFormed(run, n, max, i, slot);
    FourteenPerNode(sp, s, total, s.count);
    assert ReadingAt(sp, s, total, s.count, k, j);
  }

  /** Reading 14 k + j is metric j of the node numbered k, which names an earlier parent. */
  predicate ReadingLinksUp(facts: seq<Option<Fact>>, k: nat, j: nat)
    requires j < METRIC_COUNT
  {
    && 14 * k + j < |facts| && facts[14 * k + j].Some? && facts[14 * k + j].value.Reading?
    && facts[14 * k + j].value.metric == Suffix(METRICS[j]) && facts[14 * k + j].value.nodeId == k
    && ShownParent(k, facts[14 * k + j].value.parentId)
  }

  // ---- The endpoint, read by read -----------------------------------------------------------------

  /** What the formatter reads during a run: the `t`-th read of a turn comes at table `at(turn)(t)`. */
  function FeedOf(run: seq<Table>, at: Turn -> nat -> nat): Feed { (turn: Turn) => Seen(run, at(turn)) }

  ghost predicate Schedules(run: seq<Table>, at: Turn -> nat -> nat) { forall turn :: Schedule(run, at(turn)) }

  lemma {:induction false} FeedIsSound(run: seq<Table>, n: nat, max: nat, at: Turn -> nat -> nat)
    requires IsRun(run, n, max) && Schedules(run, at)
    ensures FeedSound(FeedOf(run, at), n, max)
  {
    forall turn ensures Sound(FeedOf(run, at)(turn), n, max) {
      assert Schedule(run, at(turn));
      SeenIsSound(run, n, max, at(turn));
    }
  }

  /** A sample that names the node's own number and an earlier parent. */
  predicate SampleLinksUp(s: Sample, k: nat, j: nat)
    requires j < METRIC_COUNT
  {
    var f := Interpret(s);
    && f.Some? && f.value.Reading? && f.value.metric == Suffix(METRICS[j]) && f.value.nodeId == k
    && ShownParent(k, f.value.parentId)
  }

  /** Of a record below the count the endpoint never skips the samples, and though each of the 14 is put together
      from reads of its own, while any number of processes store, each names the node and an earlier parent. */
  lemma {:induction false} SamplesLinkUp(sp: Spelling, head: Slot, run: seq<Table>, n: nat, max: nat,
                                         at: Turn -> nat -> nat, c: Cursor, total: real, j: nat)
    requires IsRun(run, n, max) && Schedules(run, at) && max <= 0x8000_0000 && c.slot < n && j < METRIC_COUNT
    requires c.node < FeedOf(run, at)(Record(c.slot, c.node))(0, c.slot).count
    ensures FeedSound(FeedOf(run, at), n, max)
    ensures var memory := FeedOf(run, at)(Record(c.slot, c.node));
      Tested(memory, c) && SampleLinksUp(ShownSample(sp, head, memory, c, total, j), c.node, j)
  {
    var when := at(Record(c.slot, c.node));
    var memory := Seen(run, when);
    assert Schedule(run, when);
    FeedIsSound(run, n, max, at);
    NeverSkipped(run, n, max, when, c);
    LinkedFrom(run, n, max, when, c, 0);
    ShownLinksUp(memory, c, j);
    NodeMeans(sp, head, Shown(memory, c, j), total, METRICS[j]);
  }

  lemma {:induction false} ShownLinksUp(memory: Memory, c: Cursor, j: nat)
    requires LinksUpFrom(memory, c, 0)
    ensures Shown(memory, c, j).nodeId == c.node
    ensures ShownParent(c.node, ToI32(Shown(memory, c, j).parentId % U32_SIZE))
  {
    assert LinksUp(memory(4 + 4 * j + 2, c.slot), c.node) && LinksUp(memory(4 + 4 * j + 3, c.slot), c.node);
  }

  lemma {:induction false} NeverSkipped(run: seq<Table>, n: nat, max: nat, at: nat -> nat, c: Cursor)
    requires IsRun(run, n, max) && Schedule(run, at) && c.slot < n && c.node < Seen(run, at)(0, c.slot).count
    ensures Tested(Seen(run, at), c)
  {
    SeenAt(run, n, max, at, 0, c.slot);
    SeenAt(run, n, max, at, 1, c.slot);
    assert at(0) <= at(1);
    ReaderNeverSkips(run, n, max, at(0), at(1), c.slot, c.node);
  }

  // ---- The percentage of a row --------------------------------------------------------------------

  /** The times that the sum reads, from record `j` on. */
  function TimesRead(memory: Memory, n: nat, ghost max: nat, i: nat, j: nat, t: nat): seq<real>
    requires Sound(memory, n, max) && i < n && j <= max
    decreases max - j
  {
    if j < memory(t, i).count then
      [NodeAt(memory, t + 1, Cursor(i, j)).execution.totalTimeUs] + TimesRead(memory, n, max, i, j + 1, t + 2)
    else []
  }

  function SumOf(ts: seq<real>): real
    decreases |ts|
  {
    if ts == [] then 0.0 else ts[0] + SumOf(ts[1..])
  }

  lemma {:induction false} SumIsOfReads(memory: Memory, n: nat, max: nat, i: nat, j: nat, sum: real, t: nat)
    requires Sound(memory, n, max) && i < n && j <= max
    ensures SumFrom(memory, n, max, i, j, sum, t).0 == sum + SumOf(TimesRead(memory, n, max, i, j, t))
    decreases max - j
  {
    if j < memory(t, i).count {
      var x := NodeAt(memory, t + 1, Cursor(i, j)).execution.totalTimeUs;
      SumIsOfReads(memory, n, max, i, j + 1, sum + x, t + 2);
      assert ([x] + TimesRead(memory, n, max, i, j + 1, t + 2))[1..] == TimesRead(memory, n, max, i, j + 1, t + 2);
    }
  }

  /** The node's own time among those read, 0 if the count had fallen to or below the node meanwhile. */
  function OwnTime(ts: seq<real>, k: nat): real { if k < |ts| then ts[k] else 0.0 }

  /** The times of the other nodes among those read. */
  function OtherTimes(ts: seq<real>, k: nat): real { SumOf(if k < |ts| then ts[k := 0.0] else ts) }

  lemma {:induction false} OwnAndOthers(ts: seq<real>, k: nat)
    ensures SumOf(ts) == OwnTime(ts, k) + OtherTimes(ts, k)
    decreases k
  {
    if k < |ts| {
      if k == 0 {
        assert ts[0 := 0.0][1..] == ts[1..];
      } else {
        assert ts[k := 0.0][1..] == ts[1..][k - 1 := 0.0];
        OwnAndOthers(ts[1..], k - 1);
      }
    }
  }

  lemma {:induction false} ShareWithinIff(a: real, t: real)
    requires t > 0.0
    ensures (a / t) * 100.0 <= 100.0 <==> a <= t
  {
    var x := a / t;
    Quotient(a, t);
    if x > 1.0 {
      Larger(x, t);
    } else {
      AtMostOne(x, t);
    }
  }

  lemma {:induction false} AtMostOne(x: real, t: real)
    requires x <= 1.0 && t > 0.0
    ensures x * t <= t
  {
    assert (1.0 - x) * t >= 0.0;
    assert (1.0 - x) * t == t - x * t;
  }

  /** The time that the percentage of a row is computed from, read behind the sum. */
  function TimeShown(memory: Memory, n: nat, ghost max: nat, c: Cursor, t: nat): real
    requires Sound(memory, n, max) && c.slot < n
  {
    NodeAt(memory, SumFrom(memory, n, max, c.slot, 0, 0.0, t).1 + 1, c).execution.totalTimeUs
  }

  lemma {:induction false} PercentShown(sp: Spelling, memory: Memory, n: nat, max: nat, c: Cursor, t: nat)
    requires Sound(memory, n, max) && c.slot < n && c.node < max
    ensures var row := ReadRow(sp, memory, n, max, c, t);
      |row.values| == METRIC_COUNT && row.values[ColumnOf(TimePercent)]
        == Percent(TimeShown(memory, n, max, c, t), SumOf(TimesRead(memory, n, max, c.slot, 0, t)))
  {
    SumIsOfReads(memory, n, max, c.slot, 0, 0.0, t);
  }

  /** Whatever is stored between the reads, a row shows at most 100 percent if and only if no time was read or
      the node's own time has grown, between its two reads, by no more than the times read of the others. */
  lemma {:induction false} RowWithinHundredIff(sp: Spelling, memory: Memory, n: nat, max: nat, c: Cursor, t: nat)
    requires Sound(memory, n, max) && c.slot < n && c.node < max
    ensures var row, ts := ReadRow(sp, memory, n, max, c, t), TimesRead(memory, n, max, c.slot, 0, t);
      && |row.values| == METRIC_COUNT
      && (row.values[ColumnOf(TimePercent)] <= 100.0 <==>
            SumOf(ts) <= 0.0
            || TimeShown(memory, n, max, c, t) - OwnTime(ts, c.node) <= OtherTimes(ts, c.node))
  {
    var ts := TimesRead(memory, n, max, c.slot, 0, t);
    PercentShown(sp, memory, n, max, c, t);
    OwnAndOthers(ts, c.node);
    if SumOf(ts) > 0.0 {
      ShareWithinIff(TimeShown(memory, n, max, c, t), SumOf(ts));
    }
  }

  /** The times that the formatter's sum reads, from record `j` on. */
  function TimesSummed(feed: Feed, n: nat, ghost max: nat, i: nat, j: nat): seq<real>
    requires FeedSound(feed, n, max) && i < n && j <= max
    decreases max - j
  {
    assert Sound(feed(Sum(i, j)), n, max);
    if j < feed(Sum(i, j))(0, i).count then
      [NodeAt(feed(Sum(i, j)), 1, Cursor(i, j)).execution.totalTimeUs] + TimesSummed(feed, n, max, i, j + 1)
    else []
  }

  lemma {:induction false} TotalIsOfReads(feed: Feed, n: nat, max: nat, i: nat, j: nat, sum: real)
    requires FeedSound(feed, n, max) && i < n && j <= max
    ensures ReadTotal(feed, n, max, i, j, sum) == sum + SumOf(TimesSummed(feed, n, max, i, j))
    decreases max - j
  {
    assert Sound(feed(Sum(i, j)), n, max);
    if j < feed(Sum(i, j))(0, i).count {
      var x := NodeAt(feed(Sum(i, j)), 1, Cursor(i, j)).execution.totalTimeUs;
      TotalIsOfReads(feed, n, max, i, j + 1, sum + x);
      assert ([x] + TimesSummed(feed, n, max, i, j + 1))[1..] == TimesSummed(feed, n, max, i, j + 1);
    }
  }

  /** The same for the percentage that the endpoint prints, of which the time is read in another turn. */
  lemma {:induction false} SampleWithinHundredIff(feed: Feed, n: nat, max: nat, c: Cursor)
    requires FeedSound(feed, n, max) && c.slot < n && c.node < max
    ensures var ts, memory := TimesSummed(feed, n, max, c.slot, 0), feed(Record(c.slot, c.node));
      var shown := NodeValue(TimePercent, Shown(memory, c, 5), ReadTotal(feed, n, max, c.slot, 0, 0.0));
      METRICS[5] == TimePercent
      && (shown <= 100.0 <==>
            SumOf(ts) <= 0.0
            || NodeAt(memory, 3, c).execution.totalTimeUs - OwnTime(ts, c.node) <= OtherTimes(ts, c.node))
  {
    var ts := TimesSummed(feed, n, max, c.slot, 0);
    TotalIsOfReads(feed, n, max, c.slot, 0, 0.0);
    OwnAndOthers(ts, c.node);
    if SumOf(ts) > 0.0 {
      ShareWithinIff(NodeAt(feed(Record(c.slot, c.node)), 3, c).execution.totalTimeUs, SumOf(ts));
    }
  }

  /** One query of one node, whose time has doubled at read 5. */
  function Doubling(max: nat): Memory
    requires max > 0
  {
    (t: nat, _: nat) =>
      var time := if t < 5 then 1.0 else 2.0;
      var node := ZEROED.(execution := NOTHING_RUN.(totalTimeUs := time), magic := NODE_MAGIC);
      Blank(max).(pid := 1, count := 1, metrics := Blank(max).metrics[0 := node])
  }

  /** So a row can show more, though no counter ever decreases: here 200 percent. */
  lemma {:induction false} RowOverHundred(sp: Spelling, n: nat, max: nat)
    requires n > 0 && max > 0
    ensures var memory, c := Doubling(max), Cursor(0, 0);
      && Sound(memory, n, max) && Look(memory, n, c, 0) == (c, 2)
      && (forall t: nat, u: nat :: t <= u ==>
            NodeAt(memory, t, c).execution.totalTimeUs <= NodeAt(memory, u, c).execution.totalTimeUs)
      && ReadRow(sp, memory, n, max, c, 2).values == [0.0, 2.0, 0.0, 0.0, Seconds(2.0), 200.0]
           + [0.0, 0.0, 0.0, 0.0, 0.0, 0.0, 0.0, 0.0]
  {
    var memory, c := Doubling(max), Cursor(0, 0);
    assert Passes(memory, c, 0);
    assert SumFrom(memory, n, max, 0, 0, 0.0, 2) == SumFrom(memory, n, max, 0, 1, 1.0, 4) == (1.0, 5);
  }
}
