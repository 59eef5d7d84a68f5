/** The exposition as the endpoint puts it together: read by read, from memory that others store into. */
module MovingExposition {
  import opened Basics
  import opened NodeWrites
  import opened Slots
  import opened TextFormat
  import opened Exporter
  import opened Reads

  /** One turn of a loop of the formatter: the beginning of a slot, a record in the sum, a record to be printed. */
  datatype Turn = Head(slot: nat) | Sum(slot: nat, node: nat) | Record(slot: nat, node: nat)

  /** What each turn reads. Between two turns anything may have happened. */
  type Feed = Turn -> Memory

  function Same(slots: seq<Slot>): Feed { (_: Turn) => Still(slots) }

  ghost predicate FeedSound(feed: Feed, n: nat, max: nat) { forall turn :: Sound(feed(turn), n, max) }

  // ---- What is printed ----------------------------------------------------------------------------

  /** The read at which the value of metric `k` is taken. The times of the two derived ones are read first. */
  function ValueTick(k: nat): nat { if k == 4 then 2 else if k == 5 then 3 else 4 + 4 * k }

  /** The record as the sample of metric `k` shows it: its value, then its tag, its number and its parent. */
  function Shown(memory: Memory, c: Cursor, k: nat): NodeMetrics {
    NodeAt(memory, ValueTick(k), c).(
      tag := NodeAt(memory, 4 + 4 * k + 1, c).tag,
      nodeId := NodeAt(memory, 4 + 4 * k + 2, c).nodeId,
      parentId := NodeAt(memory, 4 + 4 * k + 3, c).parentId)
  }

  function ShownSample(sp: Spelling, head: Slot, memory: Memory, c: Cursor, total: real, k: nat): Sample
    requires k < METRIC_COUNT
  {
    NodeSample(sp, head, Shown(memory, c, k), total, METRICS[k])
  }

  /** The first `k` samples of a node. */
  function ReadNode(sp: Spelling, head: Slot, memory: Memory, c: Cursor, total: real, k: nat): seq<Line>
    requires k <= METRIC_COUNT
  {
    if k == 0 then []
    else ReadNode(sp, head, memory, c, total, k - 1) + [Data(ShownSample(sp, head, memory, c, total, k - 1))]
  }

  /** The sum of the times from record `j` on, the count being read before each. */
  function ReadTotal(feed: Feed, n: nat, ghost max: nat, i: nat, j: nat, sum: real): real
    requires FeedSound(feed, n, max) && i < n && j <= max
    decreases max - j
  {
    var memory := feed(Sum(i, j));
    assert Sound(memory, n, max);
    if j < memory(0, i).count then
      ReadTotal(feed, n, max, i, j + 1, sum + NodeAt(memory, 1, Cursor(i, j)).execution.totalTimeUs)
    else sum
  }

  /** The record at `c` carries the magic number when it is tested, just behind the count. */
  predicate Tested(memory: Memory, c: Cursor) { NodeAt(memory, 1, c).magic == NODE_MAGIC }

  function ReadRecord(sp: Spelling, head: Slot, feed: Feed, i: nat, total: real, j: nat): seq<Line> {
    var memory, c := feed(Record(i, j)), Cursor(i, j);
    if Tested(memory, c) then ReadNode(sp, head, memory, c, total, METRIC_COUNT) else []
  }

  /** The samples from record `j` on. */
  function ReadRecords(
      sp: Spelling, head: Slot, feed: Feed, n: nat, ghost max: nat, i: nat, total: real, j: nat): seq<Line>
    requires FeedSound(feed, n, max) && i < n && j <= max
    decreases max - j
  {
    assert Sound(feed(Record(i, j)), n, max);
    if j < feed(Record(i, j))(0, i).count then
      ReadRecord(sp, head, feed, i, total, j) + ReadRecords(sp, head, feed, n, max, i, total, j + 1)
    else []
  }

  /** The query as its info line shows it, and the query whose identifier labels the samples. */
  function InfoRead(memory: Memory, i: nat): Slot {
    Blank(0).(queryId := memory(1, i).queryId, pid := memory(2, i).pid, text := memory(3, i).text)
  }

  function HeadRead(memory: Memory, i: nat): Slot { Blank(0).(queryId := memory(4, i).queryId) }

  function ReadSlot(sp: Spelling, feed: Feed, n: nat, ghost max: nat, i: nat): seq<Line>
    requires FeedSound(feed, n, max) && i < n
  {
    var memory := feed(Head(i));
    if memory(0, i).pid != 0 then
      [Data(InfoSample(InfoRead(memory, i)))]
      + ReadRecords(sp, HeadRead(memory, i), feed, n, max, i, ReadTotal(feed, n, max, i, 0, 0.0), 0)
    else []
  }

  /** The exposition up to slot `k`. */
  function ReadExposition(sp: Spelling, feed: Feed, n: nat, ghost max: nat, k: nat): seq<Line>
    requires FeedSound(feed, n, max) && k <= n
  {
    if k == 0 then Headers(sp, METRIC_COUNT)
    else ReadExposition(sp, feed, n, max, k - 1) + ReadSlot(sp, feed, n, max, k - 1)
  }

  // ---- It reads back ------------------------------------------------------------------------------

  lemma {:induction false} LinesOkConcat(a: seq<Line>, b: seq<Line>)
    requires LinesOk(a) && LinesOk(b)
    ensures LinesOk(a + b)
  {
    forall i | 0 <= i < |a + b| ensures LineOk((a + b)[i]) {
      assert if i < |a| then LineOk(a[i]) else LineOk(b[i - |a|]);
    }
  }

  lemma {:induction false} NodeReadsOk(sp: Spelling, head: Slot, memory: Memory, c: Cursor, total: real, k: nat)
    requires SpellingOk(sp) && k <= METRIC_COUNT
    ensures LinesOk(ReadNode(sp, head, memory, c, total, k))
    decreases k
  {
    if k > 0 {
      NodeReadsOk(sp, head, memory, c, total, k - 1);
      NodeWellFormed(sp, head, Shown(memory, c, k - 1), total, METRICS[k - 1]);
      LinesOkConcat(ReadNode(sp, head, memory, c, total, k - 1),
          [Data(ShownSample(sp, head, memory, c, total, k - 1))]);
    }
  }

  lemma {:induction false} RecordsReadOk(
      sp: Spelling, head: Slot, feed: Feed, n: nat, max: nat, i: nat, total: real, j: nat)
    requires SpellingOk(sp) && FeedSound(feed, n, max) && i < n && j <= max
    ensures LinesOk(ReadRecords(sp, head, feed, n, max, i, total, j))
    decreases max - j
  {
    assert Sound(feed(Record(i, j)), n, max);
    if j < feed(Record(i, j))(0, i).count {
      NodeReadsOk(sp, head, feed(Record(i, j)), Cursor(i, j), total, METRIC_COUNT);
      RecordsReadOk(sp, head, feed, n, max, i, total, j + 1);
      LinesOkConcat(ReadRecord(sp, head, feed, i, total, j), ReadRecords(sp, head, feed, n, max, i, total, j + 1));
    }
  }

  lemma {:induction false} SlotReadOk(sp: Spelling, feed: Feed, n: nat, max: nat, i: nat)
    requires SpellingOk(sp) && FeedSound(feed, n, max) && i < n
    ensures LinesOk(ReadSlot(sp, feed, n, max, i))
  {
    var memory, total := feed(Head(i)), ReadTotal(feed, n, max, i, 0, 0.0);
    if memory(0, i).pid != 0 {
      InfoMeans(InfoRead(memory, i));
      RecordsReadOk(sp, HeadRead(memory, i), feed, n, max, i, total, 0);
      LinesOkConcat([Data(InfoSample(InfoRead(memory, i)))],
                    ReadRecords(sp, HeadRead(memory, i), feed, n, max, i, total, 0));
    }
  }

  lemma {:induction false} ReadIsOk(sp: Spelling, feed: Feed, n: nat, max: nat, k: nat)
    requires SpellingOk(sp) && FeedSound(feed, n, max) && k <= n
    ensures LinesOk(ReadExposition(sp, feed, n, max, k))
    decreases k
  {
    if k == 0 {
      HeadersMean(sp, METRIC_COUNT);
    } else {
      var j := k - 1;
      ReadIsOk(sp, feed, n, max, j);
      NextSlotOk(sp, feed, n, max, j);
    }
  }

  lemma {:induction false} NextSlotOk(sp: Spelling, feed: Feed, n: nat, max: nat, j: nat)
    requires SpellingOk(sp) && FeedSound(feed, n, max) && j < n && LinesOk(ReadExposition(sp, feed, n, max, j))
    ensures LinesOk(ReadExposition(sp, feed, n, max, j + 1))
  {
    SlotReadOk(sp, feed, n, max, j);
    LinesOkConcat(ReadExposition(sp, feed, n, max, j), ReadSlot(sp, feed, n, max, j));
  }

  /** Whatever is stored between the reads, a line parser recovers from the text every sample as it was read. */
  lemma {:induction false} ReadsBack(sp: Spelling, feed: Feed, n: nat, max: nat)
    requires SpellingOk(sp) && FeedSound(feed, n, max)
    ensures var lines := ReadExposition(sp, feed, n, max, n); ReadText(Render(lines)) == Some(Samples(lines))
  {
    ReadIsOk(sp, feed, n, max, n);
    ReadRendered(ReadExposition(sp, feed, n, max, n));
  }

  // ---- On a table that does not change ------------------------------------------------------------

  lemma {:induction false} ShownStill(slots: seq<Slot>, c: Cursor, k: nat)
    requires c.slot < |slots| && c.node < |slots[c.slot].metrics|
    ensures Shown(Still(slots), c, k) == slots[c.slot].metrics[c.node]
  {
  }

  lemma {:induction false} NodeStill(sp: Spelling, head: Slot, slots: seq<Slot>, c: Cursor, total: real, k: nat)
    requires c.slot < |slots| && c.node < |slots[c.slot].metrics| && head.queryId == slots[c.slot].queryId
    requires k <= METRIC_COUNT
    ensures ReadNode(sp, head, Still(slots), c, total, k)
         == NodeLines(sp, slots[c.slot], slots[c.slot].metrics[c.node], total, k)
    decreases k
  {
    if k > 0 {
      NodeStill(sp, head, slots, c, total, k - 1);
      ShownStill(slots, c, k - 1);
    }
  }

  lemma {:induction false} TotalStill(slots: seq<Slot>, max: nat, i: nat, j: nat)
    requires Roomy(slots, max) && i < |slots| && j <= slots[i].count
    ensures ReadTotal(Same(slots), |slots|, max, i, j, TotalTime(slots[i].metrics, j))
         == TotalTime(slots[i].metrics, slots[i].count)
    decreases max - j
  {
    if j < slots[i].count {
      TotalStill(slots, max, i, j + 1);
    }
  }

  lemma {:induction false} RecordStill(sp: Spelling, head: Slot, slots: seq<Slot>, i: nat, total: real, j: nat)
    requires i < |slots| && j < |slots[i].metrics| && head.queryId == slots[i].queryId
    ensures RecordLines(sp, slots[i], total, j + 1)
         == RecordLines(sp, slots[i], total, j) + ReadRecord(sp, head, Same(slots), i, total, j)
  {
    NodeStill(sp, head, slots, Cursor(i, j), total, METRIC_COUNT);
  }

  lemma {:induction false} RecordsNext(
      sp: Spelling, head: Slot, slots: seq<Slot>, max: nat, i: nat, total: real, j: nat)
    requires Roomy(slots, max) && i < |slots| && j <= slots[i].count
    ensures ReadRecords(sp, head, Same(slots), |slots|, max, i, total, j)
         == if j == slots[i].count then []
            else ReadRecord(sp, head, Same(slots), i, total, j)
                 + ReadRecords(sp, head, Same(slots), |slots|, max, i, total, j + 1)
  {
  }

  /** What is read from record `j` on completes the samples of the records before it. */
  ghost predicate Completes(sp: Spelling, head: Slot, slots: seq<Slot>, max: nat, i: nat, total: real, j: nat)
    requires Roomy(slots, max) && i < |slots| && j <= slots[i].count
  {
    RecordLines(sp, slots[i], total, j) + ReadRecords(sp, head, Same(slots), |slots|, max, i, total, j)
      == RecordLines(sp, slots[i], total, slots[i].count)
  }

  lemma {:induction false} NextCompletes(
      sp: Spelling, head: Slot, slots: seq<Slot>, max: nat, i: nat, total: real, j: nat)
    requires Roomy(slots, max) && i < |slots| && j < slots[i].count && head.queryId == slots[i].queryId
    requires Completes(sp, head, slots, max, i, total, j + 1)
    ensures Completes(sp, head, slots, max, i, total, j)
  {
    RecordsNext(sp, head, slots, max, i, total, j);
    RecordStill(sp, head, slots, i, total, j);
    Assoc(RecordLines(sp, slots[i], total, j), ReadRecord(sp, head, Same(slots), i, total, j),
          ReadRecords(sp, head, Same(slots), |slots|, max, i, total, j + 1));
  }

  lemma {:induction false} RecordsStill(
      sp: Spelling, head: Slot, slots: seq<Slot>, max: nat, i: nat, total: real, j: nat)
    requires Roomy(slots, max) && i < |slots| && j <= slots[i].count && head.queryId == slots[i].queryId
    ensures Completes(sp, head, slots, max, i, total, j)
    decreases slots[i].count - j
  {
    if j < slots[i].count {
      RecordsStill(sp, head, slots, max, i, total, j + 1);
      NextCompletes(sp, head, slots, max, i, total, j);
    } else {
      RecordsNext(sp, head, slots, max, i, total, j);
    }
  }

  lemma {:induction false} SlotStill(sp: Spelling, slots: seq<Slot>, max: nat, i: nat)
    requires Roomy(slots, max) && i < |slots|
    ensures ReadSlot(sp, Same(slots), |slots|, max, i) == SlotLines(sp, slots[i])
  {
    var s := slots[i];
    if Active(s) {
      var total := TotalTime(s.metrics, s.count);
      TotalStill(slots, max, i, 0);
      RecordsStill(sp, HeadRead(Still(slots), i), slots, max, i, total, 0);
    }
  }

  /** It is the exposition of that table. */
  lemma {:induction false} ReadsStill(sp: Spelling, slots: seq<Slot>, max: nat, k: nat)
    requires Roomy(slots, max) && k <= |slots|
    ensures CountsOk(slots) && ReadExposition(sp, Same(slots), |slots|, max, k) == Exposition(sp, slots, k)
    decreases k
  {
    if k > 0 {
      var j := k - 1;
      ReadsStill(sp, slots, max, j);
      NextSlotStill(sp, slots, max, j);
    }
  }

  lemma {:induction false} NextSlotStill(sp: Spelling, slots: seq<Slot>, max: nat, j: nat)
    requires Roomy(slots, max) && j < |slots| && CountsOk(slots)
    requires ReadExposition(sp, Same(slots), |slots|, max, j) == Exposition(sp, slots, j)
    ensures ReadExposition(sp, Same(slots), |slots|, max, j + 1) == Exposition(sp, slots, j + 1)
  {
    SlotStill(sp, slots, max, j);
  }
}
