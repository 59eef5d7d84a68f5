/** The program that prints the exposition into the growable buffer, and the proof that it prints exactly that. */
module MetricsPrinter {
  import opened Basics
  import opened NodeWrites
  import opened Slots
  import opened TextFormat
  import opened Exporter
  import opened Reads
  import opened MovingExposition
  import opened Formatting

  // ---- Formatted pieces and the lines they stand for ---------------------------------------------

  /** name="value", written without escaping. */
  function Quoted(name: string, value: string): string { name + "=\"" + value + "\"" }

  function MetricPiece(sp: Spelling, queryId: nat, n: NodeMetrics, m: Metric, value: real): string {
    NODE + Suffix(m) + "{"
    + (Quoted("query_id", Decimal(queryId)) + "," + (Quoted("node_id", Decimal(n.nodeId)) + ","
    + (Quoted("parent_node_id", Signed(ToI32(n.parentId % U32_SIZE))) + "," + Quoted("node_tag", sp.tagName(n.tag)))))
    + "} " + ValueText(sp, m, value) + "\n"
  }

  function InfoPiece(queryId: nat, pid: int): string {
    INFO + "{" + (Quoted("query_id", Decimal(queryId)) + "," + (Quoted("pid", Signed(pid)) + "," + "query_text=\""))
  }

  function HelpAndType(name: string, help: string): string {
    "# HELP " + name + " " + help + "\n" + "# TYPE " + name + " gauge\n"
  }

  lemma {:induction false} PrintLabel(name: string, value: string)
    requires Plain(value)
    ensures PrintLabels([Label(name, value)]) == Quoted(name, value)
  {
    EscapePlain(value);
    assert Quoted(name, value) + "" == Quoted(name, value);
  }

  lemma {:induction false} PrintLabelThen(name: string, value: string, more: seq<Label>)
    requires more != [] && Plain(value)
    ensures PrintLabels([Label(name, value)] + more) == Quoted(name, value) + "," + PrintLabels(more)
  {
    EscapePlain(value);
    var ls := [Label(name, value)] + more;
    assert ls[1..] == more && ls[0] == Label(name, value);
    assert Quoted(name, value) + ("," + PrintLabels(more)) == Quoted(name, value) + "," + PrintLabels(more);
  }

  lemma {:induction false} PrintFour(a: Label, b: Label, c: Label, d: Label)
    requires Plain(a.value) && Plain(b.value) && Plain(c.value) && Plain(d.value)
    ensures PrintLabels([a, b, c, d])
         == Quoted(a.name, a.value) + "," + (Quoted(b.name, b.value) + "," + (Quoted(c.name, c.value) + ","
            + Quoted(d.name, d.value)))
  {
    assert [a, b, c, d] == [a] + [b, c, d] && [b, c, d] == [b] + [c, d] && [c, d] == [c] + [d];
    PrintLabelThen(a.name, a.value, [b, c, d]);
    PrintLabelThen(b.name, b.value, [c, d]);
    PrintLabelThen(c.name, c.value, [d]);
    PrintLabel(d.name, d.value);
  }

  /** The piece formatted for one metric of a node is the line of that sample. */
  lemma {:induction false} MetricPieceIsLine(sp: Spelling, s: Slot, n: NodeMetrics, total: real, m: Metric)
    requires SpellingOk(sp)
    ensures MetricPiece(sp, s.queryId, n, m, NodeValue(m, n, total)) == PrintLine(Data(NodeSample(sp, s, n, total, m)))
  {
    var x := NodeSample(sp, s, n, total, m);
    DecimalText(s.queryId);
    DecimalText(n.nodeId);
    SignedText(ToI32(n.parentId % U32_SIZE));
    PrintFour(x.labels[0], x.labels[1], x.labels[2], x.labels[3]);
    assert x.labels == [x.labels[0], x.labels[1], x.labels[2], x.labels[3]];
  }

  lemma {:induction false} HelpAndTypeIsLines(name: string, help: string)
    ensures HelpAndType(name, help)
         == Render(HelpHeader(name, help))
  {
    CommentLine(" HELP " + name + " " + help, "# HELP " + name + " " + help);
    CommentLine(" TYPE " + name + " gauge", "# TYPE " + name + " gauge");
    RenderTwo(Comment(" HELP " + name + " " + help), Comment(" TYPE " + name + " gauge"));
    assert "# TYPE " + name + " gauge" + "\n" == "# TYPE " + name + " gauge\n";
    Assoc("# HELP " + name + " " + help + "\n", "# TYPE " + name, " gauge\n");
  }

  lemma {:induction false} CommentLine(text: string, line: string)
    requires line == "#" + text
    ensures PrintLine(Comment(text)) == line + "\n"
  {
  }

  lemma {:induction false} RenderTwo(a: Line, b: Line)
    ensures Render([a, b]) == PrintLine(a) + PrintLine(b)
  {
    RenderOne([], a);
    assert [] + [a] == [a] && [a] + [b] == [a, b];
    RenderOne([a], b);
  }

  lemma {:induction false} PrintThree(a: Label, b: Label, c: Label)
    requires Plain(a.value) && Plain(b.value)
    ensures PrintLabels([a, b, c])
         == Quoted(a.name, a.value) + "," + (Quoted(b.name, b.value) + "," + Quoted(c.name, Escape(c.value)))
  {
    assert [a, b, c] == [a] + [b, c] && [b, c] == [b] + [c];
    PrintLabelThen(a.name, a.value, [b, c]);
    PrintLabelThen(b.name, b.value, [c]);
    assert Quoted(c.name, Escape(c.value)) + "" == Quoted(c.name, Escape(c.value));
  }

  lemma {:induction false} Glue(name: string, a: string, b: string, value: string)
    ensures name + "{" + (a + "," + (b + "," + "query_text=\"")) + value + "\"} 1\n"
         == name + "{" + (a + "," + (b + "," + Quoted("query_text", value))) + "} " + "1" + "\n"
  {
    var head := name + "{" + a + "," + b + ",";
    assert Quoted("query_text", value) == "query_text=\"" + value + "\"";
    assert name + "{" + (a + "," + (b + "," + "query_text=\"")) == head + "query_text=\"";
    assert name + "{" + (a + "," + (b + "," + Quoted("query_text", value))) == head + "query_text=\"" + value + "\"";
    assert "\"" + "} " + "1" + "\n" == "\"} 1\n";
  }

  /** The three appends of a query's info line add up to the line, the text being escaped in between. */
  lemma {:induction false} InfoPiecesAreLine(s: Slot)
    ensures InfoPiece(s.queryId, s.pid) + Escape(s.text) + "\"} 1\n" == PrintLine(Data(InfoSample(s)))
  {
    var ls := InfoSample(s).labels;
    DecimalText(s.queryId);
    SignedText(s.pid);
    PrintThree(ls[0], ls[1], ls[2]);
    assert ls == [ls[0], ls[1], ls[2]];
    Glue(INFO, Quoted("query_id", Decimal(s.queryId)), Quoted("pid", Signed(s.pid)), Escape(s.text));
  }

  // ---- Every piece is short ----------------------------------------------------------------------

  /** The fields of a record that label its samples are u32 values. */
  predicate Labelled(n: NodeMetrics) { n.nodeId < U32_SIZE && n.parentId < U32_SIZE }

  lemma {:induction false} Powers()
    ensures TenTo(10) == 10000000000 && TenTo(20) == 100000000000000000000
  {
  }

  lemma {:induction false} SignedLength(i: int)
    requires -0x8000_0000 <= i < 0x8000_0000
    ensures |Signed(i)| <= 11
  {
    Powers();
    DecimalLength(if i < 0 then -i else i, 10);
  }

  lemma {:induction false} InfoPieceIsShort(s: Slot)
    requires s.queryId < 0x1_0000_0000_0000_0000 && -0x8000_0000 <= s.pid < 0x8000_0000
    ensures |InfoPiece(s.queryId, s.pid)| <= APPEND_ROOM
  {
    Powers();
    DecimalLength(s.queryId, 20);
    SignedLength(s.pid);
  }

  lemma {:induction false} HeaderIsShort(sp: Spelling, m: Metric)
    requires SpellingOk(sp)
    ensures |HelpAndType(NODE + Suffix(m), sp.help(m))| <= APPEND_ROOM
  {
    SuffixesAreWords(m);
    assert |sp.help(m)| <= 128;
  }

  lemma {:induction false} MetricPieceIsShort(sp: Spelling, queryId: nat, n: NodeMetrics, m: Metric, value: real)
    requires SpellingOk(sp) && queryId < 0x1_0000_0000_0000_0000 && Labelled(n)
    ensures |MetricPiece(sp, queryId, n, m, value)| <= APPEND_ROOM
  {
    Powers();
    DecimalLength(queryId, 20);
    DecimalLength(n.nodeId, 10);
    SignedLength(ToI32(n.parentId % U32_SIZE));
    SuffixesAreWords(m);
    assert |sp.tagName(n.tag)| <= 64;
  }

  // ---- The printer -------------------------------------------------------------------------------

  /** A valid buffer that holds a C string, in its old array or a new one. */
  twostate predicate Kept(buf: FormatterBuffer)
    reads buf, buf.data
  {
    buf.Valid() && buf.data[buf.offset] == '\0' && (fresh(buf.data) || buf.data == old(buf.data))
  }

  method AppendHeader(buf: FormatterBuffer, name: string, help: string)
    requires buf.Valid() && |HelpAndType(name, help)| <= APPEND_ROOM
    modifies buf, buf.data
    ensures Kept(buf) && buf.Text() == old(buf.Text()) + Render(HelpHeader(name, help))
  {
    HelpAndTypeIsLines(name, help);
    buf.Append(HelpAndType(name, help));
  }

  /** A node in the middle of being printed: the query's identifier, what this turn of the loop reads, and where. */
  datatype Page = Page(queryId: nat, memory: Memory, c: Cursor, total: real)

  function PageLines(sp: Spelling, page: Page, k: nat): seq<Line>
    requires k <= METRIC_COUNT
  {
    ReadNode(sp, Blank(0).(queryId := page.queryId), page.memory, page.c, page.total, k)
  }

  function PageSample(sp: Spelling, page: Page, k: nat): Sample
    requires k < METRIC_COUNT
  {
    ShownSample(sp, Blank(0).(queryId := page.queryId), page.memory, page.c, page.total, k)
  }

  /** Text `k + 1` is text `k` followed by the sample of metric `k`. */
  ghost predicate NextText(sp: Spelling, page: Page, texts: seq<string>, k: nat)
    requires k < METRIC_COUNT && |texts| == METRIC_COUNT + 1
  {
    texts[k + 1] == texts[k] + PrintLine(Data(PageSample(sp, page, k)))
  }

  ghost predicate Successive(sp: Spelling, page: Page, texts: seq<string>) {
    |texts| == METRIC_COUNT + 1 && forall k :: 0 <= k < METRIC_COUNT ==> NextText(sp, page, texts, k)
  }

  function TextAfter(sp: Spelling, page: Page, base: string, k: nat): string
    requires k <= METRIC_COUNT
  {
    base + Render(PageLines(sp, page, k))
  }

  lemma {:induction false} NextMetric(sp: Spelling, page: Page, base: string, k: nat)
    requires k < METRIC_COUNT
    ensures TextAfter(sp, page, base, k + 1) == TextAfter(sp, page, base, k) + PrintLine(Data(PageSample(sp, page, k)))
  {
    var lines, next := PageLines(sp, page, k), Data(PageSample(sp, page, k));
    RenderOne(lines, next);
    Assoc(base, Render(lines), PrintLine(next));
  }

  /** The texts in the buffer before, between and after the samples of a node. */
  lemma {:induction false} TextsOfNode(sp: Spelling, page: Page, base: string) returns (texts: seq<string>)
    ensures Successive(sp, page, texts) && texts[0] == base
    ensures texts[METRIC_COUNT] == base + Render(PageLines(sp, page, METRIC_COUNT))
  {
    texts := seq(METRIC_COUNT + 1, k requires 0 <= k <= METRIC_COUNT => TextAfter(sp, page, base, k));
    assert texts[0] == TextAfter(sp, page, base, 0) == base + "" == base;
    forall k | 0 <= k < METRIC_COUNT ensures NextText(sp, page, texts, k) {
      NextMetric(sp, page, base, k);
    }
  }

  /** The values are in the program's types, and `texts` are the texts that the samples lead through. */
  ghost predicate Printing(sp: Spelling, page: Page, texts: seq<string>) {
    && SpellingOk(sp) && page.queryId < 0x1_0000_0000_0000_0000
    && (forall t: nat :: Labelled(NodeAt(page.memory, t, page.c)))
    && Successive(sp, page, texts)
  }

  /** Prints metric `k` of a node, of which `value` has been read, behind the `k` metrics printed before it. */
  method AppendMetric(buf: FormatterBuffer, sp: Spelling, page: Page, k: nat, m: Metric, value: real,
                      ghost texts: seq<string>)
    requires buf.Valid() && Printing(sp, page, texts) && k < METRIC_COUNT && m == METRICS[k]
    requires value == NodeValue(m, Shown(page.memory, page.c, k), page.total) && buf.Text() == texts[k]
    modifies buf, buf.data
    ensures Kept(buf) && buf.Text() == texts[k + 1]
  {
    var n := Shown(page.memory, page.c, k);
    MetricPieceIsShort(sp, page.queryId, n, m, value);
    MetricPieceIsLine(sp, Blank(0).(queryId := page.queryId), n, page.total, m);
    assert NextText(sp, page, texts, k);
    buf.Append(MetricPiece(sp, page.queryId, n, m, value));
  }

  method AppendTuplesAndStartup(buf: FormatterBuffer, sp: Spelling, page: Page, ghost texts: seq<string>)
    requires buf.Valid() && Printing(sp, page, texts) && buf.Text() == texts[0]
    modifies buf, buf.data
    ensures Kept(buf) && buf.Text() == texts[2]
  {
    AppendMetric(buf, sp, page, 0, TuplesReturned, NodeAt(page.memory, 4, page.c).execution.tuplesReturned, texts);
    AppendMetric(buf, sp, page, 1, StartupTimeUs, NodeAt(page.memory, 8, page.c).execution.startupTimeUs, texts);
  }

  method AppendTotalAndLoops(buf: FormatterBuffer, sp: Spelling, page: Page, ghost texts: seq<string>)
    requires buf.Valid() && Printing(sp, page, texts) && buf.Text() == texts[2]
    modifies buf, buf.data
    ensures Kept(buf) && buf.Text() == texts[4]
  {
    AppendMetric(buf, sp, page, 2, TotalTimeUs, NodeAt(page.memory, 12, page.c).execution.totalTimeUs, texts);
    AppendMetric(buf, sp, page, 3, LoopsExecuted, NodeAt(page.memory, 16, page.c).execution.loopsExecuted, texts);
  }

  method AppendShares(buf: FormatterBuffer, sp: Spelling, page: Page, seconds: real, percent: real,
                      ghost texts: seq<string>)
    requires buf.Valid() && Printing(sp, page, texts) && buf.Text() == texts[4]
    requires seconds == Seconds(NodeAt(page.memory, 2, page.c).execution.totalTimeUs)
    requires percent == Percent(NodeAt(page.memory, 3, page.c).execution.totalTimeUs, page.total)
    modifies buf, buf.data
    ensures Kept(buf) && buf.Text() == texts[6]
  {
    AppendMetric(buf, sp, page, 4, TimeSeconds, seconds, texts);
    AppendMetric(buf, sp, page, 5, TimePercent, percent, texts);
  }

  method AppendCache(buf: FormatterBuffer, sp: Spelling, page: Page, ghost texts: seq<string>)
    requires buf.Valid() && Printing(sp, page, texts) && buf.Text() == texts[6]
    modifies buf, buf.data
    ensures Kept(buf) && buf.Text() == texts[8]
  {
    var hits := NodeAt(page.memory, 28, page.c).bufferUsage.cacheHits;
    AppendMetric(buf, sp, page, 6, CacheHits, AsLong(hits) as real, texts);
    var misses := NodeAt(page.memory, 32, page.c).bufferUsage.cacheMisses;
    AppendMetric(buf, sp, page, 7, CacheMisses, AsLong(misses) as real, texts);
  }

  method AppendLocalCache(buf: FormatterBuffer, sp: Spelling, page: Page, ghost texts: seq<string>)
    requires buf.Valid() && Printing(sp, page, texts) && buf.Text() == texts[8]
    modifies buf, buf.data
    ensures Kept(buf) && buf.Text() == texts[10]
  {
    var hits := NodeAt(page.memory, 36, page.c).bufferUsage.localCacheHits;
    AppendMetric(buf, sp, page, 8, LocalCacheHits, AsLong(hits) as real, texts);
    var misses := NodeAt(page.memory, 40, page.c).bufferUsage.localCacheMisses;
    AppendMetric(buf, sp, page, 9, LocalCacheMisses, AsLong(misses) as real, texts);
  }

  method AppendSpill(buf: FormatterBuffer, sp: Spelling, page: Page, ghost texts: seq<string>)
    requires buf.Valid() && Printing(sp, page, texts) && buf.Text() == texts[10]
    modifies buf, buf.data
    ensures Kept(buf) && buf.Text() == texts[12]
  {
    var fileReads := NodeAt(page.memory, 44, page.c).bufferUsage.spillFileReads;
    AppendMetric(buf, sp, page, 10, SpillFileReads, AsLong(fileReads) as real, texts);
    var fileWrites := NodeAt(page.memory, 48, page.c).bufferUsage.spillFileWrites;
    AppendMetric(buf, sp, page, 11, SpillFileWrites, AsLong(fileWrites) as real, texts);
  }

  method AppendFilters(buf: FormatterBuffer, sp: Spelling, page: Page, ghost texts: seq<string>)
    requires buf.Valid() && Printing(sp, page, texts) && buf.Text() == texts[12]
    modifies buf, buf.data
    ensures Kept(buf) && buf.Text() == texts[14]
  {
    var byJoins := NodeAt(page.memory, 52, page.c).execution.rowsFilteredByJoins;
    AppendMetric(buf, sp, page, 12, RowsFilteredByJoins, byJoins, texts);
    var byExpressions := NodeAt(page.memory, 56, page.c).execution.rowsFilteredByExpressions;
    AppendMetric(buf, sp, page, 13, RowsFilteredByExpressions, byExpressions, texts);
  }

  /** All metrics of a node. The times for the two derived ones are read first. */
  method AppendAllNodeMetrics(buf: FormatterBuffer, sp: Spelling, page: Page)
    requires buf.Valid() && SpellingOk(sp) && page.queryId < 0x1_0000_0000_0000_0000
    requires forall t: nat :: Labelled(NodeAt(page.memory, t, page.c))
    modifies buf, buf.data
    ensures Kept(buf) && buf.Text() == old(buf.Text()) + Render(PageLines(sp, page, METRIC_COUNT))
  {
    ghost var texts := TextsOfNode(sp, page, buf.Text());
    var seconds := Seconds(NodeAt(page.memory, 2, page.c).execution.totalTimeUs);
    var percent := Percent(NodeAt(page.memory, 3, page.c).execution.totalTimeUs, page.total);
    AppendTuplesAndStartup(buf, sp, page, texts);
    AppendTotalAndLoops(buf, sp, page, texts);
    AppendShares(buf, sp, page, seconds, percent, texts);
    AppendCache(buf, sp, page, texts);
    AppendLocalCache(buf, sp, page, texts);
    AppendSpill(buf, sp, page, texts);
    AppendFilters(buf, sp, page, texts);
  }

  /** The info line of what has been read of a query. */
  method AppendQueryInfo(buf: FormatterBuffer, s: Slot)
    requires buf.Valid() && s.queryId < 0x1_0000_0000_0000_0000 && -0x8000_0000 <= s.pid < 0x8000_0000
    modifies buf, buf.data
    ensures Kept(buf) && buf.Text() == old(buf.Text()) + PrintLine(Data(InfoSample(s)))
  {
    ghost var before := buf.Text();
    InfoPieceIsShort(s);
    buf.Append(InfoPiece(s.queryId, s.pid));
    buf.AppendEscaped(s.text);
    buf.Append("\"} 1\n");
    InfoPiecesAreLine(s);
    Regroup(before, InfoPiece(s.queryId, s.pid), Escape(s.text), "\"} 1\n");
  }

  lemma {:induction false} Regroup(a: string, b: string, c: string, d: string)
    ensures a + b + c + d == a + (b + c + d)
  {
  }

  /** Every read shows a slot in the program's types. */
  ghost predicate Typed(memory: Memory, n: nat, max: nat) {
    forall t: nat, i: nat :: i < n ==> WellTyped(memory(t, i)) && |memory(t, i).metrics| == max
  }

  ghost predicate FeedTyped(feed: Feed, n: nat, max: nat) { forall turn :: Typed(feed(turn), n, max) }

  lemma {:induction false} TypedIsSound(feed: Feed, n: nat, max: nat)
    requires FeedTyped(feed, n, max)
    ensures FeedSound(feed, n, max)
  {
    forall turn ensures Sound(feed(turn), n, max) {
      assert Typed(feed(turn), n, max);
    }
  }

  lemma {:induction false} TypedNodes(memory: Memory, n: nat, max: nat, c: Cursor)
    requires Typed(memory, n, max) && c.slot < n
    ensures forall t: nat :: Labelled(NodeAt(memory, t, c))
  {
    forall t: nat ensures Labelled(NodeAt(memory, t, c)) {
      assert WellTyped(memory(t, c.slot));
    }
  }

  method TotalQueryTime(feed: Feed, n: nat, ghost max: nat, i: nat) returns (total: real)
    requires FeedSound(feed, n, max) && i < n
    ensures total == ReadTotal(feed, n, max, i, 0, 0.0)
  {
    total := 0.0;
    var j := 0;
    assert Sound(feed(Sum(i, j)), n, max);
    while j < feed(Sum(i, j))(0, i).count
      invariant j <= max
      invariant ReadTotal(feed, n, max, i, j, total) == ReadTotal(feed, n, max, i, 0, 0.0)
      decreases max - j
    {
      assert Sound(feed(Sum(i, j)), n, max);
      total := total + NodeAt(feed(Sum(i, j)), 1, Cursor(i, j)).execution.totalTimeUs;
      j := j + 1;
    }
  }

  /** One turn of the loop over a slot's records: a record that carries the magic number is printed. */
  method AppendRecord(buf: FormatterBuffer, sp: Spelling, queryId: nat, memory: Memory, c: Cursor, total: real)
    requires buf.Valid() && buf.data[buf.offset] == '\0' && SpellingOk(sp) && queryId < 0x1_0000_0000_0000_0000
    requires forall t: nat :: Labelled(NodeAt(memory, t, c))
    modifies buf, buf.data
    ensures Kept(buf)
    ensures var lines := ReadNode(sp, Blank(0).(queryId := queryId), memory, c, total, METRIC_COUNT);
      buf.Text() == old(buf.Text()) + Render(if Tested(memory, c) then lines else [])
  {
    if NodeAt(memory, 1, c).magic == NODE_MAGIC {
      AppendAllNodeMetrics(buf, sp, Page(queryId, memory, c, total));
    } else {
      assert buf.Text() + Render([]) == buf.Text();
    }
  }

  /** The loop over a slot's records. */
  method AppendRecords(buf: FormatterBuffer, sp: Spelling, queryId: nat, feed: Feed, n: nat, ghost max: nat,
                       i: nat, total: real)
    requires buf.Valid() && buf.data[buf.offset] == '\0' && SpellingOk(sp) && queryId < 0x1_0000_0000_0000_0000
    requires FeedTyped(feed, n, max) && FeedSound(feed, n, max) && i < n
    modifies buf, buf.data
    ensures Kept(buf)
    ensures buf.Text() == old(buf.Text())
              + Render(ReadRecords(sp, Blank(0).(queryId := queryId), feed, n, max, i, total, 0))
  {
    ghost var base, head := buf.Text(), Blank(0).(queryId := queryId);
    ghost var all, done := ReadRecords(sp, head, feed, n, max, i, total, 0), [];
    assert base + Render(done) == base && done + all == all;
    var j := 0;
    assert Sound(feed(Record(i, j)), n, max);
    while j < feed(Record(i, j))(0, i).count
      invariant j <= max && Kept(buf) && buf.Text() == base + Render(done)
      invariant done + ReadRecords(sp, head, feed, n, max, i, total, j) == all
      decreases max - j
    {
      assert Sound(feed(Record(i, j)), n, max) && Typed(feed(Record(i, j)), n, max);
      TypedNodes(feed(Record(i, j)), n, max, Cursor(i, j));
      AppendRecord(buf, sp, queryId, feed(Record(i, j)), Cursor(i, j), total);
      NextRecord(base, done, ReadRecord(sp, head, feed, i, total, j),
                 ReadRecords(sp, head, feed, n, max, i, total, j + 1));
      done := done + ReadRecord(sp, head, feed, i, total, j);
      j := j + 1;
    }
    assert done + [] == done;
  }

  lemma {:induction false} NextRecord(base: string, done: seq<Line>, now: seq<Line>, later: seq<Line>)
    ensures base + Render(done) + Render(now) == base + Render(done + now)
    ensures done + (now + later) == (done + now) + later
  {
    RenderConcat(done, now);
    var a, b := Render(done), Render(now);
    Assoc(base, a, b);
    Assoc(done, now, later);
  }

  /** Prints slot `i` if it is active when the formatter comes to it: its query, then its records. */
  method AppendEntry(buf: FormatterBuffer, sp: Spelling, feed: Feed, n: nat, ghost max: nat, i: nat)
    requires buf.Valid() && buf.data[buf.offset] == '\0' && SpellingOk(sp)
    requires FeedTyped(feed, n, max) && FeedSound(feed, n, max) && i < n
    modifies buf, buf.data
    ensures Kept(buf) && buf.Text() == old(buf.Text()) + Render(ReadSlot(sp, feed, n, max, i))
  {
    var memory := feed(Head(i));
    assert Typed(memory, n, max);
    if memory(0, i).pid == 0 {
      assert buf.Text() + Render([]) == buf.Text();
      return;
    }
    assert WellTyped(memory(1, i)) && WellTyped(memory(2, i)) && WellTyped(memory(4, i));
    AppendQueryInfo(buf, InfoRead(memory, i));
    var queryId := memory(4, i).queryId;
    var total := TotalQueryTime(feed, n, max, i);
    AppendRecords(buf, sp, queryId, feed, n, max, i, total);
    SlotInParts(old(buf.Text()), Data(InfoSample(InfoRead(memory, i))),
                ReadRecords(sp, HeadRead(memory, i), feed, n, max, i, total, 0));
  }

  lemma {:induction false} SlotInParts(base: string, info: Line, records: seq<Line>)
    ensures base + PrintLine(info) + Render(records) == base + Render([info] + records)
  {
    RenderOne([], info);
    assert [] + [info] == [info];
    RenderConcat([info], records);
    Assoc(base, PrintLine(info), Render(records));
  }

  /** HELP and TYPE of metric `k` behind those of the query and of the metrics before it. */
  method AppendMetricHeader(buf: FormatterBuffer, sp: Spelling, m: Metric, ghost k: nat)
    requires buf.Valid() && SpellingOk(sp) && k < METRIC_COUNT && m == METRICS[k]
    requires buf.Text() == Render(Headers(sp, k))
    modifies buf, buf.data
    ensures Kept(buf) && buf.Text() == Render(Headers(sp, k + 1))
  {
    NextHeader(sp, k);
    AppendHeader(buf, NODE + Suffix(m), sp.help(m));
  }

  /** HELP and TYPE of the query and of all metrics. */
  method AppendHeaders(buf: FormatterBuffer, sp: Spelling)
    requires buf.Valid() && buf.Text() == "" && SpellingOk(sp)
    modifies buf, buf.data
    ensures Kept(buf) && buf.Text() == Render(Headers(sp, METRIC_COUNT))
  {
    AppendHeader(buf, INFO, INFO_HELP);
    for k := 0 to METRIC_COUNT
      invariant Kept(buf) && buf.Text() == Render(Headers(sp, k))
    {
      AppendMetricHeader(buf, sp, METRICS[k], k);
    }
  }

  lemma {:induction false} NextHeader(sp: Spelling, k: nat)
    requires SpellingOk(sp) && k < METRIC_COUNT
    ensures var name, help := NODE + Suffix(METRICS[k]), sp.help(METRICS[k]);
      && |HelpAndType(name, help)| <= APPEND_ROOM
      && Render(Headers(sp, k)) + Render(HelpHeader(name, help)) == Render(Headers(sp, k + 1))
  {
    HeaderIsShort(sp, METRICS[k]);
    RenderConcat(Headers(sp, k), HelpHeader(NODE + Suffix(METRICS[k]), sp.help(METRICS[k])));
  }

  /** The whole exposition, whatever is stored between the reads: the returned buffer holds, as a C string,
      exactly the lines made of what was read, and a line parser recovers every sample from it. */
  method FormatOpenMetrics(sp: Spelling, feed: Feed, n: nat, ghost max: nat) returns (buf: FormatterBuffer)
    requires SpellingOk(sp) && FeedTyped(feed, n, max)
    ensures FeedSound(feed, n, max) && fresh(buf) && buf.Valid() && buf.data[buf.offset] == '\0'
    ensures buf.Text() == Render(ReadExposition(sp, feed, n, max, n))
    ensures ReadText(buf.Text()) == Some(Samples(ReadExposition(sp, feed, n, max, n)))
  {
    TypedIsSound(feed, n, max);
    buf := new FormatterBuffer();
    AppendHeaders(buf, sp);
    for i := 0 to n
      invariant fresh(buf) && fresh(buf.data) && buf.Valid() && buf.data[buf.offset] == '\0'
      invariant buf.Text() == Render(ReadExposition(sp, feed, n, max, i))
    {
      AppendEntry(buf, sp, feed, n, max, i);
      RenderConcat(ReadExposition(sp, feed, n, max, i), ReadSlot(sp, feed, n, max, i));
    }
    ReadsBack(sp, feed, n, max);
  }

  /** Of a table that does not change meanwhile a parser learns every query and every reading. */
  lemma {:induction false} StillTableReadsBack(sp: Spelling, slots: seq<Slot>, max: nat)
    requires SpellingOk(sp) && Roomy(slots, max)
    ensures CountsOk(slots)
    ensures var read := ReadText(Render(ReadExposition(sp, Same(slots), |slots|, max, |slots|)));
      read.Some? && InterpretAll(read.value) == Facts(sp, slots, |slots|)
  {
    ReadsStill(sp, slots, max, |slots|);
    ExpositionReadsBack(sp, slots);
  }
}
