/** What the metrics endpoint prints for a stable table, what a reader gets back, and the percentages. */
module Exporter {
  import opened Basics
  import opened NodeWrites
  import opened Slots
  import opened TextFormat

  datatype Metric =
    | TuplesReturned | StartupTimeUs | TotalTimeUs | LoopsExecuted | TimeSeconds | TimePercent
    | CacheHits | CacheMisses | LocalCacheHits | LocalCacheMisses | SpillFileReads | SpillFileWrites
    | RowsFilteredByJoins | RowsFilteredByExpressions

  /** In the order in which both the headers and the samples of a node are printed. */
  const METRICS: seq<Metric> := [
    TuplesReturned, StartupTimeUs, TotalTimeUs, LoopsExecuted, TimeSeconds, TimePercent,
    CacheHits, CacheMisses, LocalCacheHits, LocalCacheMisses, SpillFileReads, SpillFileWrites,
    RowsFilteredByJoins, RowsFilteredByExpressions]

  const METRIC_COUNT: nat := |METRICS|

  function Suffix(m: Metric): string {
    match m
    case TuplesReturned => "tuples_returned"
    case StartupTimeUs => "startup_time_us"
    case TotalTimeUs => "total_time_us"
    case LoopsExecuted => "loops_executed"
    case TimeSeconds => "time_seconds"
    case TimePercent => "time_percent"
    case CacheHits => "cache_hits"
    case CacheMisses => "cache_misses"
    case LocalCacheHits => "local_cache_hits"
    case LocalCacheMisses => "local_cache_misses"
    case SpillFileReads => "spill_file_reads"
    case SpillFileWrites => "spill_file_writes"
    case RowsFilteredByJoins => "rows_filtered_by_joins"
    case RowsFilteredByExpressions => "rows_filtered_by_expressions"
  }

  /** The server's spellings: node tags, help texts and printf's numerals. */
  datatype Spelling = Spelling(tagName: nat -> string, help: Metric -> string, numeral: (Metric, real) -> string)

  ghost predicate SpellingOk(sp: Spelling) {
    && (forall t :: Plain(sp.tagName(t)) && |sp.tagName(t)| <= 64)
    && (forall m :: Without(sp.help(m), '\n') && |sp.help(m)| <= 128)
    && (forall m, x :: Without(sp.numeral(m, x), '\n'))
  }

  /** The size of `value_buf`, in which a value is rendered. */
  const VALUE_SIZE: nat := 256

  /** A value as printed: a numeral longer than 255 characters is cut. */
  function ValueText(sp: Spelling, m: Metric, value: real): string { Cut(sp.numeral(m, value), VALUE_SIZE - 1) }

  /** The values a slot can hold in the program's types, its text a C string. */
  predicate WellTyped(s: Slot) {
    && s.queryId < 0x1_0000_0000_0000_0000 && -0x8000_0000 <= s.pid < 0x8000_0000
    && s.count <= |s.metrics|
    && (forall i :: 0 <= i < |s.metrics| ==> s.metrics[i].nodeId < U32_SIZE && s.metrics[i].parentId < U32_SIZE)
  }

  // ---- Percentages ------------------------------------------------------------------------------

  /** total_query_time over the first `n` records. */
  function TotalTime(ms: seq<NodeMetrics>, n: nat): real
    requires n <= |ms|
  {
    if n == 0 then 0.0 else TotalTime(ms, n - 1) + ms[n - 1].execution.totalTimeUs
  }

  function Seconds(time: real): real { time / 1000000.0 }

  function Percent(time: real, total: real): real {
    if total > 0.0 then (time / total) * 100.0 else 0.0
  }

  predicate Marked(n: NodeMetrics) { n.magic == NODE_MAGIC }

  /** The part of the total that belongs to printed records, those that carry the magic number. */
  function PrintedTime(ms: seq<NodeMetrics>, n: nat): real
    requires n <= |ms|
  {
    if n == 0 then 0.0 else PrintedTime(ms, n - 1) + if Marked(ms[n - 1]) then ms[n - 1].execution.totalTimeUs else 0.0
  }

  /** The sum of the percentages that are printed. */
  function PercentSum(ms: seq<NodeMetrics>, n: nat, total: real): real
    requires n <= |ms|
  {
    if n == 0 then 0.0
    else
      PercentSum(ms, n - 1, total)
      + if Marked(ms[n - 1]) then Percent(ms[n - 1].execution.totalTimeUs, total) else 0.0
  }

  predicate TimesOk(ms: seq<NodeMetrics>, n: nat)
    requires n <= |ms|
  {
    forall i :: 0 <= i < n ==> ms[i].execution.totalTimeUs >= 0.0
  }

  lemma {:induction false} Cancel(x: real, y: real, t: real)
    requires t > 0.0 && x * t == y * t
    ensures x == y
  {
    assert (x - y) * t == 0.0;
  }

  lemma {:induction false} Quotient(a: real, t: real)
    requires t > 0.0
    ensures (a / t) * t == a
  {
  }

  lemma {:induction false} ShareOfSum(a: real, b: real, t: real)
    requires t > 0.0
    ensures (a / t) * 100.0 + (b / t) * 100.0 == ((a + b) / t) * 100.0
  {
    var x, y, z := a / t, b / t, (a + b) / t;
    Quotient(a, t);
    Quotient(b, t);
    Quotient(a + b, t);
    assert (x + y) * t == x * t + y * t;
    Cancel(x + y, z, t);
  }

  lemma {:induction false} PercentIsShare(ms: seq<NodeMetrics>, n: nat, total: real)
    requires n <= |ms| && total > 0.0
    ensures PercentSum(ms, n, total) == (PrintedTime(ms, n) / total) * 100.0
  {
    if n > 0 {
      PercentIsShare(ms, n - 1, total);
      if Marked(ms[n - 1]) {
        ShareOfSum(PrintedTime(ms, n - 1), ms[n - 1].execution.totalTimeUs, total);
      }
    }
  }

  /** No record that is skipped holds any time. */
  predicate SkippedAreIdle(ms: seq<NodeMetrics>, n: nat)
    requires n <= |ms|
  {
    forall i :: 0 <= i < n && !Marked(ms[i]) ==> ms[i].execution.totalTimeUs == 0.0
  }

  lemma {:induction false} AllTimePrintedIff(ms: seq<NodeMetrics>, n: nat)
    requires n <= |ms| && TimesOk(ms, n)
    ensures PrintedTime(ms, n) <= TotalTime(ms, n)
    ensures PrintedTime(ms, n) == TotalTime(ms, n) <==> SkippedAreIdle(ms, n)
  {
    if n > 0 {
      var k := n - 1;
      AllTimePrintedIff(ms, k);
      assert SkippedAreIdle(ms, n) <==> SkippedAreIdle(ms, k) && (Marked(ms[k]) || ms[k].execution.totalTimeUs == 0.0);
    }
  }

  lemma {:induction false} FullShare(a: real, t: real)
    requires t > 0.0
    ensures (a / t) * 100.0 == 100.0 <==> a == t
  {
    Quotient(a, t);
    if a == t {
      Cancel(a / t, 1.0, t);
    }
  }

  lemma {:induction false} TotalBounds(ms: seq<NodeMetrics>, n: nat, i: nat)
    requires i < n <= |ms| && TimesOk(ms, n)
    ensures 0.0 <= ms[i].execution.totalTimeUs <= TotalTime(ms, n)
    ensures TotalTime(ms, n) >= 0.0
  {
    if i < n - 1 {
      TotalBounds(ms, n - 1, i);
    } else if n > 1 {
      TotalBounds(ms, n - 1, 0);
    }
  }

  lemma {:induction false} Fraction(a: real, t: real)
    requires 0.0 <= a <= t && t > 0.0
    ensures 0.0 <= (a / t) * 100.0 <= 100.0
  {
    var x := a / t;
    Quotient(a, t);
    if x < 0.0 {
      Negative(x, t);
    } else if x > 1.0 {
      Larger(x, t);
    }
  }

  lemma {:induction false} Larger(x: real, t: real)
    requires x > 1.0 && t > 0.0
    ensures x * t > t
  {
    assert (x - 1.0) * t > 0.0;
    assert (x - 1.0) * t == x * t - t;
  }

  lemma {:induction false} Negative(x: real, t: real)
    requires x < 0.0 && t > 0.0
    ensures x * t < 0.0
  {
  }

  /** A query's exported percentages lie in [0, 100] and sum to 0 if no time was spent. Otherwise they sum to
      exactly 100 if and only if every counted record without the magic number has spent no time. */
  lemma {:induction false} PercentagesConserved(ms: seq<NodeMetrics>, n: nat)
    requires n <= |ms| && TimesOk(ms, n)
    ensures var total := TotalTime(ms, n);
      && (total <= 0.0 ==> PercentSum(ms, n, total) == 0.0)
      && (total > 0.0 ==> (PercentSum(ms, n, total) == 100.0 <==> SkippedAreIdle(ms, n)))
      && forall i :: 0 <= i < n ==> 0.0 <= Percent(ms[i].execution.totalTimeUs, total) <= 100.0
  {
    var total := TotalTime(ms, n);
    AllTimePrintedIff(ms, n);
    if total > 0.0 {
      PercentIsShare(ms, n, total);
      FullShare(PrintedTime(ms, n), total);
      forall i | 0 <= i < n ensures 0.0 <= Percent(ms[i].execution.totalTimeUs, total) <= 100.0 {
        TotalBounds(ms, n, i);
        Fraction(ms[i].execution.totalTimeUs, total);
      }
    } else {
      ZeroPercents(ms, n, total);
    }
  }

  lemma {:induction false} ZeroPercents(ms: seq<NodeMetrics>, n: nat, total: real)
    requires n <= |ms| && total <= 0.0
    ensures PercentSum(ms, n, total) == 0.0
  {
    if n > 0 {
      ZeroPercents(ms, n - 1, total);
    }
  }

  // ---- Lines of the exposition ------------------------------------------------------------------

  /** The conversion of a `u64` counter to a `long`. */
  function AsLong(n: nat): int {
    var bits := n % 0x1_0000_0000_0000_0000;
    if bits < 0x8000_0000_0000_0000 then bits else bits - 0x1_0000_0000_0000_0000
  }

  /** The conversion is exact below 2^63, and modulo 2^64 otherwise. */
  lemma {:induction false} AsLongIs(n: nat)
    ensures -0x8000_0000_0000_0000 <= AsLong(n) < 0x8000_0000_0000_0000
    ensures (AsLong(n) - n) % 0x1_0000_0000_0000_0000 == 0
    ensures n < 0x8000_0000_0000_0000 ==> AsLong(n) == n
  {
    var q, bits := n / 0x1_0000_0000_0000_0000, n % 0x1_0000_0000_0000_0000;
    assert n == q * 0x1_0000_0000_0000_0000 + bits;
    assert AsLong(n) - n == (if bits < 0x8000_0000_0000_0000 then -q else -q - 1) * 0x1_0000_0000_0000_0000;
  }

  /** `x` is what the record `n` says about the metric: one of its counters, its total time in seconds, or its
      share of the query's time. */
  predicate IsValue(m: Metric, n: NodeMetrics, total: real, x: real) {
    && (m.TuplesReturned? ==> x == n.execution.tuplesReturned)
    && (m.StartupTimeUs? ==> x == n.execution.startupTimeUs)
    && (m.TotalTimeUs? ==> x == n.execution.totalTimeUs)
    && (m.LoopsExecuted? ==> x == n.execution.loopsExecuted)
    && (m.TimeSeconds? ==> x * 1000000.0 == n.execution.totalTimeUs)
    && (m.TimePercent? ==> if total > 0.0 then x * total == n.execution.totalTimeUs * 100.0 else x == 0.0)
    && (m.CacheHits? ==> x == n.bufferUsage.cacheHits as real)
    && (m.CacheMisses? ==> x == n.bufferUsage.cacheMisses as real)
    && (m.LocalCacheHits? ==> x == n.bufferUsage.localCacheHits as real)
    && (m.LocalCacheMisses? ==> x == n.bufferUsage.localCacheMisses as real)
    && (m.SpillFileReads? ==> x == n.bufferUsage.spillFileReads as real)
    && (m.SpillFileWrites? ==> x == n.bufferUsage.spillFileWrites as real)
    && (m.RowsFilteredByJoins? ==> x == n.execution.rowsFilteredByJoins)
    && (m.RowsFilteredByExpressions? ==> x == n.execution.rowsFilteredByExpressions)
  }

  /** Counters that a `long` can hold. */
  predicate Moderate(n: NodeMetrics) {
    var b, limit := n.bufferUsage, 0x8000_0000_0000_0000;
    && b.cacheHits < limit && b.cacheMisses < limit && b.localCacheHits < limit && b.localCacheMisses < limit
    && b.spillFileReads < limit && b.spillFileWrites < limit
  }

  lemma {:induction false} PercentIs(time: real, total: real)
    requires total > 0.0
    ensures Percent(time, total) * total == time * 100.0
  {
    var x := time / total;
    Quotient(time, total);
    assert (x * 100.0) * total == (x * total) * 100.0;
  }

  /** What is printed for a metric is what the record says, if its counters are below 2^63. */
  lemma {:induction false} ValueIs(m: Metric, n: NodeMetrics, total: real)
    requires Moderate(n)
    ensures IsValue(m, n, total, NodeValue(m, n, total))
  {
    match m
    case TimePercent =>
      if total > 0.0 {
        PercentIs(n.execution.totalTimeUs, total);
      }
    case CacheHits => AsLongIs(n.bufferUsage.cacheHits);
    case CacheMisses => AsLongIs(n.bufferUsage.cacheMisses);
    case LocalCacheHits => AsLongIs(n.bufferUsage.localCacheHits);
    case LocalCacheMisses => AsLongIs(n.bufferUsage.localCacheMisses);
    case SpillFileReads => AsLongIs(n.bufferUsage.spillFileReads);
    case SpillFileWrites => AsLongIs(n.bufferUsage.spillFileWrites);
    case _ =>
  }

  function NodeValue(m: Metric, n: NodeMetrics, total: real): real {
    match m
    case TuplesReturned => n.execution.tuplesReturned
    case StartupTimeUs => n.execution.startupTimeUs
    case TotalTimeUs => n.execution.totalTimeUs
    case LoopsExecuted => n.execution.loopsExecuted
    case TimeSeconds => Seconds(n.execution.totalTimeUs)
    case TimePercent => Percent(n.execution.totalTimeUs, total)
    case CacheHits => AsLong(n.bufferUsage.cacheHits) as real
    case CacheMisses => AsLong(n.bufferUsage.cacheMisses) as real
    case LocalCacheHits => AsLong(n.bufferUsage.localCacheHits) as real
    case LocalCacheMisses => AsLong(n.bufferUsage.localCacheMisses) as real
    case SpillFileReads => AsLong(n.bufferUsage.spillFileReads) as real
    case SpillFileWrites => AsLong(n.bufferUsage.spillFileWrites) as real
    case RowsFilteredByJoins => n.execution.rowsFilteredByJoins
    case RowsFilteredByExpressions => n.execution.rowsFilteredByExpressions
  }

  const INFO: string := "pg_what_is_happening_query_info"
  const NODE: string := "pg_what_is_happening_active_query_node_"

  function InfoSample(s: Slot): Sample {
    Sample(INFO, [Label("query_id", Decimal(s.queryId)), Label("pid", Signed(s.pid)), Label("query_text", s.text)], "1")
  }

  function NodeSample(sp: Spelling, s: Slot, n: NodeMetrics, total: real, m: Metric): Sample {
    Sample(NODE + Suffix(m),
           [Label("query_id", Decimal(s.queryId)), Label("node_id", Decimal(n.nodeId)),
            Label("parent_node_id", Signed(ToI32(n.parentId % U32_SIZE))), Label("node_tag", sp.tagName(n.tag))],
           ValueText(sp, m, NodeValue(m, n, total)))
  }

  function HelpHeader(name: string, help: string): seq<Line> {
    [Comment(" HELP " + name + " " + help), Comment(" TYPE " + name + " gauge")]
  }

  const INFO_HELP: string := "Query metadata for active queries"

  /** The header with the first `k` metrics. */
  function Headers(sp: Spelling, k: nat): seq<Line>
    requires k <= METRIC_COUNT
  {
    if k == 0 then HelpHeader(INFO, INFO_HELP)
    else Headers(sp, k - 1) + HelpHeader(NODE + Suffix(METRICS[k - 1]), sp.help(METRICS[k - 1]))
  }

  /** The first `k` samples of a node. */
  function NodeLines(sp: Spelling, s: Slot, n: NodeMetrics, total: real, k: nat): seq<Line>
    requires k <= METRIC_COUNT
  {
    if k == 0 then [] else NodeLines(sp, s, n, total, k - 1) + [Data(NodeSample(sp, s, n, total, METRICS[k - 1]))]
  }

  /** The samples of the first `j` records; a record without the magic number is skipped. */
  function RecordLines(sp: Spelling, s: Slot, total: real, j: nat): seq<Line>
    requires j <= |s.metrics|
  {
    if j == 0 then []
    else
      RecordLines(sp, s, total, j - 1)
      + if Marked(s.metrics[j - 1]) then NodeLines(sp, s, s.metrics[j - 1], total, METRIC_COUNT) else []
  }

  function SlotLines(sp: Spelling, s: Slot): seq<Line>
    requires s.count <= |s.metrics|
  {
    if Active(s) then [Data(InfoSample(s))] + RecordLines(sp, s, TotalTime(s.metrics, s.count), s.count) else []
  }

  predicate CountsOk(slots: seq<Slot>) { forall i :: 0 <= i < |slots| ==> slots[i].count <= |slots[i].metrics| }

  /** The exposition up to slot `n`. */
  function Exposition(sp: Spelling, slots: seq<Slot>, n: nat): seq<Line>
    requires n <= |slots| && CountsOk(slots)
  {
    if n == 0 then Headers(sp, METRIC_COUNT) else Exposition(sp, slots, n - 1) + SlotLines(sp, slots[n - 1])
  }

  // ---- What a reader gets back ------------------------------------------------------------------

  datatype Fact =
    | Query(queryId: nat, pid: int, text: string)
    | Reading(metric: string, queryId: nat, nodeId: nat, parentId: int, tag: string, value: string)

  /** The value of the label of this name. */
  function Lookup(ls: seq<Label>, name: string): Option<string>
    decreases |ls|
  {
    if ls == [] then None else if ls[0].name == name then Some(ls[0].value) else Lookup(ls[1..], name)
  }

  function ReadQuery(queryId: Option<string>, pid: Option<string>, text: Option<string>): Option<Fact> {
    if queryId.Some? && pid.Some? && text.Some? then
      Some(Query(ReadDecimal(queryId.value), ReadSigned(pid.value), text.value))
    else None
  }

  function ReadReading(metric: string, queryId: Option<string>, nodeId: Option<string>, parentId: Option<string>,
                       tag: Option<string>, value: string): Option<Fact> {
    if queryId.Some? && nodeId.Some? && parentId.Some? && tag.Some? then
      Some(Reading(metric, ReadDecimal(queryId.value), ReadDecimal(nodeId.value), ReadSigned(parentId.value),
                   tag.value, value))
    else None
  }

  /** A sample is known by its name, and its labels by theirs. */
  function Interpret(s: Sample): Option<Fact> {
    var ls := s.labels;
    if s.name == INFO then ReadQuery(Lookup(ls, "query_id"), Lookup(ls, "pid"), Lookup(ls, "query_text"))
    else if |s.name| > |NODE| && s.name[..|NODE|] == NODE then
      ReadReading(s.name[|NODE|..], Lookup(ls, "query_id"), Lookup(ls, "node_id"), Lookup(ls, "parent_node_id"),
                  Lookup(ls, "node_tag"), s.value)
    else None
  }

  /** Looking up one of several labels of different names. */
  lemma {:induction false} LookupAt(ls: seq<Label>, k: nat)
    requires k < |ls| && forall j :: 0 <= j < k ==> ls[j].name != ls[k].name
    ensures Lookup(ls, ls[k].name) == Some(ls[k].value)
    decreases |ls|
  {
    if k > 0 {
      assert ls[1..][k - 1] == ls[k];
      LookupAt(ls[1..], k - 1);
    }
  }

  /** The names of labels differ in length or in their first letter. */
  lemma {:induction false} LabelNamesDiffer()
    ensures "query_id" != "node_id" && "query_id" != "parent_node_id" && "query_id" != "node_tag"
    ensures "node_id" != "parent_node_id" && "node_id" != "node_tag" && "parent_node_id" != "node_tag"
    ensures "query_id" != "pid" && "query_id" != "query_text" && "pid" != "query_text"
  {
    assert "query_id"[0] == 'q' && "node_tag"[0] == 'n';
    assert |"query_id"| == 8 && |"node_id"| == 7 && |"parent_node_id"| == 14 && |"node_tag"| == 8;
    assert |"pid"| == 3 && |"query_text"| == 10;
  }

  function InterpretAll(ss: seq<Sample>): seq<Option<Fact>> {
    seq(|ss|, i requires 0 <= i < |ss| => Interpret(ss[i]))
  }

  /** What a reader should learn from one sample of a node. */
  function NodeReading(sp: Spelling, s: Slot, n: NodeMetrics, total: real, m: Metric): Fact {
    Reading(Suffix(m), s.queryId, n.nodeId, ToI32(n.parentId % U32_SIZE), sp.tagName(n.tag),
            ValueText(sp, m, NodeValue(m, n, total)))
  }

  function NodeFacts(sp: Spelling, s: Slot, n: NodeMetrics, total: real, k: nat): (fs: seq<Option<Fact>>)
    requires k <= METRIC_COUNT
    ensures |fs| == k
  {
    if k == 0 then []
    else
      var m := METRICS[k - 1];
      NodeFacts(sp, s, n, total, k - 1)
      + [Some(NodeReading(sp, s, n, total, m))]
  }

  function RecordFacts(sp: Spelling, s: Slot, total: real, j: nat): seq<Option<Fact>>
    requires j <= |s.metrics|
  {
    if j == 0 then []
    else
      RecordFacts(sp, s, total, j - 1)
      + if Marked(s.metrics[j - 1]) then NodeFacts(sp, s, s.metrics[j - 1], total, METRIC_COUNT) else []
  }

  function SlotFacts(sp: Spelling, s: Slot): seq<Option<Fact>>
    requires s.count <= |s.metrics|
  {
    if Active(s) then
      [Some(Query(s.queryId, s.pid, s.text))] + RecordFacts(sp, s, TotalTime(s.metrics, s.count), s.count)
    else []
  }

  /** The table as a reader should see it: each active slot's query, then its nodes' readings. */
  function Facts(sp: Spelling, slots: seq<Slot>, n: nat): seq<Option<Fact>>
    requires n <= |slots| && CountsOk(slots)
  {
    if n == 0 then [] else Facts(sp, slots, n - 1) + SlotFacts(sp, slots[n - 1])
  }

  lemma {:induction false} InterpretConcat(a: seq<Sample>, b: seq<Sample>)
    ensures InterpretAll(a + b) == InterpretAll(a) + InterpretAll(b)
  {
  }

  /** A list of lines is well formed and its samples mean `fs`. */
  ghost predicate Means(ls: seq<Line>, fs: seq<Option<Fact>>) {
    LinesOk(ls) && InterpretAll(Samples(ls)) == fs
  }

  lemma {:induction false} MeansConcat(a: seq<Line>, x: seq<Option<Fact>>, b: seq<Line>, y: seq<Option<Fact>>)
    requires Means(a, x) && Means(b, y)
    ensures Means(a + b, x + y)
  {
    SamplesConcat(a, b);
    InterpretConcat(Samples(a), Samples(b));
    forall i | 0 <= i < |a + b| ensures LineOk((a + b)[i]) {
      assert if i < |a| then LineOk(a[i]) else LineOk(b[i - |a|]);
    }
  }

  lemma {:induction false} DataMeans(s: Sample)
    requires WellFormed(s)
    ensures Means([Data(s)], [Interpret(s)])
  {
    assert [Data(s)][1..] == [] && Samples([]) == [];
    assert Samples([Data(s)]) == [s] + Samples([]) == [s];
  }

  lemma {:induction false} InfoMeans(s: Slot)
    ensures WellFormed(InfoSample(s)) && Interpret(InfoSample(s)) == Some(Query(s.queryId, s.pid, s.text))
  {
    DecimalText(s.queryId);
    SignedText(s.pid);
    LabelNames();
    LabelNamesDiffer();
    var ls := InfoSample(s).labels;
    LookupAt(ls, 0);
    LookupAt(ls, 1);
    LookupAt(ls, 2);
  }

  lemma {:induction false} LabelNames()
    ensures Without("query_id", '=') && Without("pid", '=') && Without("query_text", '=')
    ensures Without("node_id", '=') && Without("parent_node_id", '=') && Without("node_tag", '=')
  {
  }

  lemma {:induction false} WithoutConcat(a: string, b: string, c: char)
    requires Without(a, c) && Without(b, c)
    ensures Without(a + b, c)
  {
  }

  /** Letters and underscores only. */
  predicate Word(s: string) { forall i :: 0 <= i < |s| ==> s[i] == '_' || 'a' <= s[i] <= 'z' }

  lemma {:induction false} TimeSuffixesAreWords(m: Metric)
    requires m.TuplesReturned? || m.StartupTimeUs? || m.TotalTimeUs? || m.LoopsExecuted?
      || m.TimeSeconds? || m.TimePercent?
    ensures Word(Suffix(m)) && 0 < |Suffix(m)| <= 28
  {
  }

  lemma {:induction false} CacheSuffixesAreWords(m: Metric)
    requires m.CacheHits? || m.CacheMisses? || m.LocalCacheHits? || m.LocalCacheMisses?
    ensures Word(Suffix(m)) && 0 < |Suffix(m)| <= 28
  {
  }

  lemma {:induction false} OtherSuffixesAreWords(m: Metric)
    requires m.SpillFileReads? || m.SpillFileWrites? || m.RowsFilteredByJoins? || m.RowsFilteredByExpressions?
    ensures Word(Suffix(m)) && 0 < |Suffix(m)| <= 28
  {
  }

  lemma {:induction false} SuffixesAreWords(m: Metric)
    ensures Word(Suffix(m)) && 0 < |Suffix(m)| <= 28
  {
    match m
    case TuplesReturned | StartupTimeUs | TotalTimeUs | LoopsExecuted | TimeSeconds | TimePercent =>
      TimeSuffixesAreWords(m);
    case CacheHits | CacheMisses | LocalCacheHits | LocalCacheMisses => CacheSuffixesAreWords(m);
    case _ => OtherSuffixesAreWords(m);
  }

  lemma {:induction false} WordWithout(s: string, c: char)
    requires Word(s) && (c == '{' || c == '\n')
    ensures Without(s, c)
  {
  }

  lemma {:induction false} NodeNames(m: Metric)
    ensures Without(NODE + Suffix(m), '{') && Without(NODE + Suffix(m), '\n') && 0 < |Suffix(m)| <= 28
  {
    SuffixesAreWords(m);
    NodeIsWord();
    WordWithout(Suffix(m), '{');
    WordWithout(Suffix(m), '\n');
    WithoutConcat(NODE, Suffix(m), '{');
    WithoutConcat(NODE, Suffix(m), '\n');
  }

  lemma {:induction false} NodeIsWord()
    ensures Without(NODE, '{') && Without(NODE, '\n')
  {
    assert Word(NODE);
  }

  lemma {:induction false} NodeWellFormed(sp: Spelling, s: Slot, n: NodeMetrics, total: real, m: Metric)
    requires SpellingOk(sp)
    ensures WellFormed(NodeSample(sp, s, n, total, m))
  {
    LabelNames();
    NodeNames(m);
    assert Without(sp.numeral(m, NodeValue(m, n, total)), '\n');
  }

  lemma {:induction false} NodeMeans(sp: Spelling, s: Slot, n: NodeMetrics, total: real, m: Metric)
    ensures Interpret(NodeSample(sp, s, n, total, m)) == Some(NodeReading(sp, s, n, total, m))
  {
    DecimalText(s.queryId);
    DecimalText(n.nodeId);
    SignedText(ToI32(n.parentId % U32_SIZE));
    SuffixesAreWords(m);
    var name, ls := NODE + Suffix(m), NodeSample(sp, s, n, total, m).labels;
    NodeIsNoInfo(Suffix(m));
    assert name[|NODE|..] == Suffix(m) && name[..|NODE|] == NODE;
    LabelNamesDiffer();
    LookupAt(ls, 0);
    LookupAt(ls, 1);
    LookupAt(ls, 2);
    LookupAt(ls, 3);
  }

  /** Length and two characters tell the suffixes apart. */
  lemma {:induction false} SuffixesDiffer(m: Metric, k: Metric)
    requires Suffix(m) == Suffix(k)
    ensures m == k
  {
    SuffixKey(m);
    SuffixKey(k);
  }

  function Key(m: Metric): (nat, char, char) {
    match m
    case TuplesReturned => (15, 't', 's')
    case StartupTimeUs => (15, 's', 'u')
    case TotalTimeUs => (13, 't', '_')
    case LoopsExecuted => (14, 'l', '_')
    case TimeSeconds => (12, 't', 's')
    case TimePercent => (12, 't', 'p')
    case CacheHits => (10, 'c', '_')
    case CacheMisses => (12, 'c', '_')
    case LocalCacheHits => (16, 'l', '_')
    case LocalCacheMisses => (18, 'l', '_')
    case SpillFileReads => (16, 's', '_')
    case SpillFileWrites => (17, 's', '_')
    case RowsFilteredByJoins => (22, 'r', 'f')
    case RowsFilteredByExpressions => (28, 'r', 'f')
  }

  lemma {:induction false} SuffixKey(m: Metric)
    ensures |Suffix(m)| > 5 && Key(m) == (|Suffix(m)|, Suffix(m)[0], Suffix(m)[5])
  {
    match m
    case TuplesReturned => case StartupTimeUs => case TotalTimeUs => case LoopsExecuted =>
    case TimeSeconds => case TimePercent => case CacheHits => case CacheMisses =>
    case LocalCacheHits => case LocalCacheMisses => case SpillFileReads => case SpillFileWrites =>
    case RowsFilteredByJoins => case RowsFilteredByExpressions =>
  }

  /** The same with the metric known by the name that is printed. */
  predicate IsNamedValue(name: string, n: NodeMetrics, total: real, x: real) {
    IsNamedTime(name, n.execution, total, x) && IsNamedRows(name, n.execution, x)
        && IsNamedUsage(name, n.bufferUsage, x)
  }

  predicate IsNamedTime(name: string, e: Execution, total: real, x: real) {
    && (name == "startup_time_us" ==> x == e.startupTimeUs)
    && (name == "total_time_us" ==> x == e.totalTimeUs)
    && (name == "time_seconds" ==> x * 1000000.0 == e.totalTimeUs)
    && (name == "time_percent" && total > 0.0 ==> x * total == e.totalTimeUs * 100.0)
  }

  predicate IsNamedRows(name: string, e: Execution, x: real) {
    && (name == "tuples_returned" ==> x == e.tuplesReturned)
    && (name == "loops_executed" ==> x == e.loopsExecuted)
    && (name == "rows_filtered_by_joins" ==> x == e.rowsFilteredByJoins)
    && (name == "rows_filtered_by_expressions" ==> x == e.rowsFilteredByExpressions)
  }

  predicate IsNamedUsage(name: string, b: BufferUsage, x: real) {
    && (name == "cache_hits" ==> x == b.cacheHits as real)
    && (name == "cache_misses" ==> x == b.cacheMisses as real)
    && (name == "local_cache_hits" ==> x == b.localCacheHits as real)
    && (name == "local_cache_misses" ==> x == b.localCacheMisses as real)
    && (name == "spill_file_reads" ==> x == b.spillFileReads as real)
    && (name == "spill_file_writes" ==> x == b.spillFileWrites as real)
  }

  lemma {:induction false} NameIs(m: Metric, k: Metric, name: string)
    requires name == Suffix(m) && name == Suffix(k)
    ensures m == k
  {
    SuffixesDiffer(m, k);
  }

  lemma {:induction false} NamedTime(m: Metric, n: NodeMetrics, total: real, x: real, name: string)
    requires IsValue(m, n, total, x) && name == Suffix(m)
    ensures IsNamedTime(name, n.execution, total, x)
  {
    if name == "startup_time_us" {
      NameIs(m, StartupTimeUs, name);
    } else if name == "total_time_us" {
      NameIs(m, TotalTimeUs, name);
    } else if name == "time_seconds" {
      NameIs(m, TimeSeconds, name);
    } else if name == "time_percent" {
      NameIs(m, TimePercent, name);
    }
  }

  lemma {:induction false} NamedRows(m: Metric, n: NodeMetrics, total: real, x: real, name: string)
    requires IsValue(m, n, total, x) && name == Suffix(m)
    ensures IsNamedRows(name, n.execution, x)
  {
    if name == "tuples_returned" {
      NameIs(m, TuplesReturned, name);
    } else if name == "loops_executed" {
      NameIs(m, LoopsExecuted, name);
    } else if name == "rows_filtered_by_joins" {
      NameIs(m, RowsFilteredByJoins, name);
    } else if name == "rows_filtered_by_expressions" {
      NameIs(m, RowsFilteredByExpressions, name);
    }
  }

  lemma {:induction false} NamedUsage(m: Metric, n: NodeMetrics, total: real, x: real, name: string)
    requires IsValue(m, n, total, x) && name == Suffix(m)
    ensures IsNamedUsage(name, n.bufferUsage, x)
  {
    if name == "cache_hits" {
      NameIs(m, CacheHits, name);
    } else if name == "cache_misses" {
      NameIs(m, CacheMisses, name);
    } else if name == "local_cache_hits" {
      NameIs(m, LocalCacheHits, name);
    } else if name == "local_cache_misses" {
      NameIs(m, LocalCacheMisses, name);
    } else if name == "spill_file_reads" {
      NameIs(m, SpillFileReads, name);
    } else if name == "spill_file_writes" {
      NameIs(m, SpillFileWrites, name);
    }
  }

  /** The printed sample of a metric carries the record's own value: the numeral of what the record says, cut to
      255 characters. */
  lemma {:induction false} SampleCarriesRecord(sp: Spelling, s: Slot, n: NodeMetrics, total: real, m: Metric)
    returns (x: real)
    requires Moderate(n)
    ensures IsValue(m, n, total, x) && IsNamedValue(Suffix(m), n, total, x)
    ensures Interpret(NodeSample(sp, s, n, total, m))
         == Some(Reading(Suffix(m), s.queryId, n.nodeId, ToI32(n.parentId % U32_SIZE), sp.tagName(n.tag),
                         Cut(sp.numeral(m, x), 255)))
  {
    x := NodeValue(m, n, total);
    ValueIs(m, n, total);
    NamedTime(m, n, total, x, Suffix(m));
    NamedRows(m, n, total, x, Suffix(m));
    NamedUsage(m, n, total, x, Suffix(m));
    NodeMeans(sp, s, n, total, m);
  }

  lemma {:induction false} NodeIsNoInfo(suffix: string)
    ensures NODE + suffix != INFO
  {
    assert NODE[21] == 'a' && INFO[21] == 'q' && (NODE + suffix)[21] == NODE[21];
  }

  lemma {:induction false} NodeLinesMean(sp: Spelling, s: Slot, n: NodeMetrics, total: real, k: nat)
    requires SpellingOk(sp) && k <= METRIC_COUNT
    ensures Means(NodeLines(sp, s, n, total, k), NodeFacts(sp, s, n, total, k))
  {
    if k == 0 {
    } else {
      var m := METRICS[k - 1];
      NodeLinesMean(sp, s, n, total, k - 1);
      NodeWellFormed(sp, s, n, total, m);
      NodeMeans(sp, s, n, total, m);
      DataMeans(NodeSample(sp, s, n, total, m));
      MeansConcat(NodeLines(sp, s, n, total, k - 1), NodeFacts(sp, s, n, total, k - 1),
                  [Data(NodeSample(sp, s, n, total, m))], [Interpret(NodeSample(sp, s, n, total, m))]);
    }
  }

  lemma {:induction false} RecordLinesMean(sp: Spelling, s: Slot, total: real, j: nat)
    requires SpellingOk(sp) && j <= |s.metrics|
    ensures Means(RecordLines(sp, s, total, j), RecordFacts(sp, s, total, j))
  {
    if j > 0 {
      RecordLinesMean(sp, s, total, j - 1);
      if Marked(s.metrics[j - 1]) {
        NodeLinesMean(sp, s, s.metrics[j - 1], total, METRIC_COUNT);
        MeansConcat(RecordLines(sp, s, total, j - 1), RecordFacts(sp, s, total, j - 1),
                    NodeLines(sp, s, s.metrics[j - 1], total, METRIC_COUNT),
                    NodeFacts(sp, s, s.metrics[j - 1], total, METRIC_COUNT));
      } else {
        MeansConcat(RecordLines(sp, s, total, j - 1), RecordFacts(sp, s, total, j - 1), [], []);
      }
    }
  }

  lemma {:induction false} HelpHeaderMeans(name: string, help: string)
    requires Without(name, '\n') && Without(help, '\n')
    ensures Means(HelpHeader(name, help), [])
  {
    assert " HELP " + name + " " + help == ((" HELP " + name) + " ") + help;
    assert " TYPE " + name + " gauge" == (" TYPE " + name) + " gauge";
    assert Without(" HELP ", '\n') && Without(" TYPE ", '\n') && Without(" ", '\n') && Without(" gauge", '\n');
    WithoutConcat(" HELP ", name, '\n');
    WithoutConcat(" HELP " + name, " ", '\n');
    WithoutConcat((" HELP " + name) + " ", help, '\n');
    WithoutConcat(" TYPE ", name, '\n');
    WithoutConcat(" TYPE " + name, " gauge", '\n');
    CommentsMean(" HELP " + name + " " + help, " TYPE " + name + " gauge");
  }

  lemma {:induction false} InfoHeaderMeans()
    ensures Means(HelpHeader(INFO, INFO_HELP), [])
  {
    assert Without(INFO, '\n') && Without(INFO_HELP, '\n');
    HelpHeaderMeans(INFO, INFO_HELP);
  }

  lemma {:induction false} HeadersNext(sp: Spelling, k: nat)
    requires SpellingOk(sp) && k < METRIC_COUNT && Means(Headers(sp, k), [])
    ensures Means(Headers(sp, k + 1), [])
  {
    var m := METRICS[k];
    NodeNames(m);
    assert Without(sp.help(m), '\n');
    HelpHeaderMeans(NODE + Suffix(m), sp.help(m));
    MeansConcat(Headers(sp, k), [], HelpHeader(NODE + Suffix(m), sp.help(m)), []);
  }

  lemma {:induction false} HeadersMean(sp: Spelling, k: nat)
    requires SpellingOk(sp) && k <= METRIC_COUNT
    ensures Means(Headers(sp, k), [])
    decreases k
  {
    if k == 0 {
      InfoHeaderMeans();
    } else {
      HeadersMean(sp, k - 1);
      HeadersNext(sp, k - 1);
    }
  }

  lemma {:induction false} CommentsMean(a: string, b: string)
    requires Without(a, '\n') && Without(b, '\n')
    ensures Means([Comment(a), Comment(b)], [])
  {
    assert [Comment(a), Comment(b)][1..] == [Comment(b)] && [Comment(b)][1..] == [];
    assert Samples([Comment(b)]) == [] + Samples([]);
    assert Samples([Comment(a), Comment(b)]) == [] + Samples([Comment(b)]);
  }

  lemma {:induction false} SlotMeans(sp: Spelling, s: Slot)
    requires SpellingOk(sp) && s.count <= |s.metrics|
    ensures Means(SlotLines(sp, s), SlotFacts(sp, s))
  {
    if Active(s) {
      var total := TotalTime(s.metrics, s.count);
      InfoMeans(s);
      DataMeans(InfoSample(s));
      RecordLinesMean(sp, s, total, s.count);
      MeansConcat([Data(InfoSample(s))], [Interpret(InfoSample(s))],
                  RecordLines(sp, s, total, s.count), RecordFacts(sp, s, total, s.count));
    }
  }

  lemma {:induction false} ExpositionNext(sp: Spelling, slots: seq<Slot>, k: nat)
    requires SpellingOk(sp) && k < |slots| && CountsOk(slots) && Means(Exposition(sp, slots, k), Facts(sp, slots, k))
    ensures Means(Exposition(sp, slots, k + 1), Facts(sp, slots, k + 1))
  {
    SlotMeans(sp, slots[k]);
    MeansConcat(Exposition(sp, slots, k), Facts(sp, slots, k), SlotLines(sp, slots[k]), SlotFacts(sp, slots[k]));
  }

  lemma {:induction false} ExpositionMeans(sp: Spelling, slots: seq<Slot>, n: nat)
    requires SpellingOk(sp) && n <= |slots| && CountsOk(slots)
    ensures Means(Exposition(sp, slots, n), Facts(sp, slots, n))
    decreases n
  {
    if n == 0 {
      HeadersMean(sp, METRIC_COUNT);
    } else {
      var k := n - 1;
      ExpositionMeans(sp, slots, k);
      ExpositionNext(sp, slots, k);
    }
  }

  /** A line parser applied to the exposition of any stable table recovers, in order, each active slot's
      query id, pid and text, and for each of its marked records the readings of all metrics. */
  lemma {:induction false} ExpositionReadsBack(sp: Spelling, slots: seq<Slot>)
    requires SpellingOk(sp) && CountsOk(slots)
    ensures var read := ReadText(Render(Exposition(sp, slots, |slots|)));
      read.Some? && InterpretAll(read.value) == Facts(sp, slots, |slots|)
  {
    ExpositionMeans(sp, slots, |slots|);
    ReadRendered(Exposition(sp, slots, |slots|));
  }

  /** Where every record below the count is marked, each of them yields exactly 14 readings. */
  lemma {:induction false} FourteenPerNode(sp: Spelling, s: Slot, total: real, j: nat)
    requires j <= |s.metrics| && forall i :: 0 <= i < j ==> Marked(s.metrics[i])
    ensures |RecordFacts(sp, s, total, j)| == METRIC_COUNT * j
    ensures forall i, k :: 0 <= i < j && 0 <= k < METRIC_COUNT ==> ReadingAt(sp, s, total, j, i, k)
    decreases j
  {
    if j > 0 {
      FourteenPerNode(sp, s, total, j - 1);
      forall i, k | 0 <= i < j && 0 <= k < METRIC_COUNT ensures ReadingAt(sp, s, total, j, i, k) {
        if i < j - 1 {
          assert ReadingAt(sp, s, total, j - 1, i, k);
        } else {
          NodeFactAt(sp, s, s.metrics[i], total, METRIC_COUNT, k);
        }
      }
    }
  }

  /** Reading 14 i + k is metric k of record i. */
  ghost predicate ReadingAt(sp: Spelling, s: Slot, total: real, j: nat, i: nat, k: nat)
    requires i < j <= |s.metrics| && k < METRIC_COUNT
  {
    var fs, n, m := RecordFacts(sp, s, total, j), s.metrics[i], METRICS[k];
    14 * i + k < |fs|
    && fs[14 * i + k] == Some(NodeReading(sp, s, n, total, m))
  }

  lemma {:induction false} NodeFactAt(sp: Spelling, s: Slot, n: NodeMetrics, total: real, c: nat, k: nat)
    requires k < c <= METRIC_COUNT
    ensures NodeFacts(sp, s, n, total, c)[k]
         == Some(NodeReading(sp, s, n, total, METRICS[k]))
    decreases c
  {
    if k < c - 1 {
      NodeFactAt(sp, s, n, total, c - 1, k);
    }
  }
}
