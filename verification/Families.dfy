/** The two rules of OpenMetrics 1.0 that the exposition may break: the samples of one metric family come
    together, and the text ends with an EOF line. */
module Families {
  import opened Basics
  import opened NodeWrites
  import opened Slots
  import opened TextFormat
  import opened Exporter

  /** Between two samples of a family there are only samples of that family. */
  ghost predicate Contiguous(names: seq<string>) {
    forall i, j, k :: 0 <= i < j < k < |names| && names[i] == names[k] ==> names[j] == names[i]
  }

  function Names(ss: seq<Sample>): seq<string> { seq(|ss|, i requires 0 <= i < |ss| => ss[i].name) }

  // ---- The exposition as blocks of samples --------------------------------------------------------

  /** A query's info line, or the samples of one node. */
  datatype Block = Info | Node

  function BlockNames(b: Block): seq<string> {
    match b case Info => [INFO] case Node => MetricNames(METRIC_COUNT)
  }

  function MetricNames(k: nat): (names: seq<string>)
    requires k <= METRIC_COUNT
    ensures |names| == k
  {
    if k == 0 then [] else MetricNames(k - 1) + [NODE + Suffix(METRICS[k - 1])]
  }

  function RecordBlocks(s: Slot, j: nat): seq<Block>
    requires j <= |s.metrics|
  {
    if j == 0 then [] else RecordBlocks(s, j - 1) + if Marked(s.metrics[j - 1]) then [Node] else []
  }

  function SlotBlocks(s: Slot): seq<Block>
    requires s.count <= |s.metrics|
  {
    if Active(s) then [Info] + RecordBlocks(s, s.count) else []
  }

  function Blocks(slots: seq<Slot>, n: nat): seq<Block>
    requires n <= |slots| && CountsOk(slots)
  {
    if n == 0 then [] else Blocks(slots, n - 1) + SlotBlocks(slots[n - 1])
  }

  function Expand(bs: seq<Block>): seq<string>
    decreases |bs|
  {
    if bs == [] then [] else Expand(bs[..|bs| - 1]) + BlockNames(bs[|bs| - 1])
  }

  lemma {:induction false} ExpandConcat(a: seq<Block>, b: seq<Block>)
    ensures Expand(a + b) == Expand(a) + Expand(b)
    decreases |b|
  {
    if b == [] {
      assert a + b == a && Expand(a) + [] == Expand(a);
    } else {
      var m := |b| - 1;
      assert (a + b)[..|a + b| - 1] == a + b[..m] && (a + b)[|a + b| - 1] == b[m];
      ExpandConcat(a, b[..m]);
      Assoc(Expand(a), Expand(b[..m]), BlockNames(b[m]));
    }
  }

  lemma {:induction false} NamesConcat(a: seq<Line>, b: seq<Line>)
    ensures Names(Samples(a + b)) == Names(Samples(a)) + Names(Samples(b))
  {
    SamplesConcat(a, b);
  }

  lemma {:induction false} OneName(s: Sample)
    ensures Names(Samples([Data(s)])) == [s.name]
  {
    assert [Data(s)][1..] == [] && Samples([]) == [];
    assert Samples([Data(s)]) == [s] + Samples([]) == [s];
  }

  lemma {:induction false} NodeLineNames(sp: Spelling, s: Slot, n: NodeMetrics, total: real, k: nat)
    requires k <= METRIC_COUNT
    ensures Names(Samples(NodeLines(sp, s, n, total, k))) == MetricNames(k)
    decreases k
  {
    if k > 0 {
      var x := NodeSample(sp, s, n, total, METRICS[k - 1]);
      NodeLineNames(sp, s, n, total, k - 1);
      NamesConcat(NodeLines(sp, s, n, total, k - 1), [Data(x)]);
      OneName(x);
    }
  }

  /** The samples among the lines belong to these blocks. */
  predicate Named(ls: seq<Line>, bs: seq<Block>) { Names(Samples(ls)) == Expand(bs) }

  lemma {:induction false} NamedConcat(a: seq<Line>, x: seq<Block>, b: seq<Line>, y: seq<Block>)
    requires Named(a, x) && Named(b, y)
    ensures Named(a + b, x + y)
  {
    NamesConcat(a, b);
    ExpandConcat(x, y);
  }

  lemma {:induction false} OneBlock(b: Block)
    ensures Expand([b]) == BlockNames(b)
  {
    assert [b][..0] == [] && Expand([]) + BlockNames(b) == BlockNames(b);
  }

  lemma {:induction false} NodeNamed(sp: Spelling, s: Slot, n: NodeMetrics, total: real)
    ensures Named(NodeLines(sp, s, n, total, METRIC_COUNT), [Node])
  {
    NodeLineNames(sp, s, n, total, METRIC_COUNT);
    OneBlock(Node);
  }

  lemma {:induction false} InfoNamed(s: Slot)
    ensures Named([Data(InfoSample(s))], [Info])
  {
    OneName(InfoSample(s));
    OneBlock(Info);
  }

  lemma {:induction false} RecordsNamed(sp: Spelling, s: Slot, total: real, j: nat)
    requires j <= |s.metrics|
    ensures Named(RecordLines(sp, s, total, j), RecordBlocks(s, j))
    decreases j
  {
    if j > 0 {
      var i := j - 1;
      RecordsNamed(sp, s, total, i);
      RecordNamedNext(sp, s, total, i);
    }
  }

  lemma {:induction false} RecordNamedNext(sp: Spelling, s: Slot, total: real, i: nat)
    requires i < |s.metrics| && Named(RecordLines(sp, s, total, i), RecordBlocks(s, i))
    ensures Named(RecordLines(sp, s, total, i + 1), RecordBlocks(s, i + 1))
  {
    var n := s.metrics[i];
    var more := if Marked(n) then NodeLines(sp, s, n, total, METRIC_COUNT) else [];
    NodeNamed(sp, s, n, total);
    NamedConcat(RecordLines(sp, s, total, i), RecordBlocks(s, i), more, if Marked(n) then [Node] else []);
  }

  lemma {:induction false} SlotNamed(sp: Spelling, s: Slot)
    requires s.count <= |s.metrics|
    ensures Named(SlotLines(sp, s), SlotBlocks(s))
  {
    if Active(s) {
      var total := TotalTime(s.metrics, s.count);
      RecordsNamed(sp, s, total, s.count);
      InfoNamed(s);
      NamedConcat([Data(InfoSample(s))], [Info], RecordLines(sp, s, total, s.count), RecordBlocks(s, s.count));
    }
  }

  lemma {:induction false} CommentsNamed(name: string, help: string)
    ensures Named(HelpHeader(name, help), [])
  {
    var ls := HelpHeader(name, help);
    assert Samples(ls) == Samples(ls[1..]) == Samples(ls[1..][1..]) && ls[1..][1..] == [];
  }

  lemma {:induction false} HeadersNamed(sp: Spelling, k: nat)
    requires k <= METRIC_COUNT
    ensures Named(Headers(sp, k), [])
    decreases k
  {
    if k == 0 {
      CommentsNamed(INFO, INFO_HELP);
    } else {
      var name, help := NODE + Suffix(METRICS[k - 1]), sp.help(METRICS[k - 1]);
      HeadersNamed(sp, k - 1);
      CommentsNamed(name, help);
      NamedConcat(Headers(sp, k - 1), [], HelpHeader(name, help), []);
    }
  }

  lemma {:induction false} NamedNext(sp: Spelling, slots: seq<Slot>, k: nat)
    requires k < |slots| && CountsOk(slots) && Named(Exposition(sp, slots, k), Blocks(slots, k))
    ensures Named(Exposition(sp, slots, k + 1), Blocks(slots, k + 1))
  {
    SlotNamed(sp, slots[k]);
    NamedConcat(Exposition(sp, slots, k), Blocks(slots, k), SlotLines(sp, slots[k]), SlotBlocks(slots[k]));
  }

  /** The families of the exposition's samples, in order. */
  lemma {:induction false} ExpositionNamed(sp: Spelling, slots: seq<Slot>, n: nat)
    requires n <= |slots| && CountsOk(slots)
    ensures Named(Exposition(sp, slots, n), Blocks(slots, n))
    decreases n
  {
    if n == 0 {
      HeadersNamed(sp, METRIC_COUNT);
    } else {
      var k := n - 1;
      ExpositionNamed(sp, slots, k);
      NamedNext(sp, slots, k);
    }
  }

  // ---- When families are contiguous ---------------------------------------------------------------

  /** Nothing follows the samples of a node. */
  predicate NodeLast(bs: seq<Block>) { forall i :: 0 <= i < |bs| - 1 ==> bs[i].Info? }

  lemma {:induction false} MetricNameAt(k: nat, i: nat)
    requires i < k <= METRIC_COUNT
    ensures MetricNames(k)[i] == NODE + Suffix(METRICS[i])
    decreases k
  {
    if i < k - 1 {
      MetricNameAt(k - 1, i);
    }
  }

  lemma {:induction false} NodeNamesDiffer(i: nat, j: nat)
    requires i < METRIC_COUNT && j < METRIC_COUNT && MetricNames(METRIC_COUNT)[i] == MetricNames(METRIC_COUNT)[j]
    ensures i == j
  {
    MetricNameAt(METRIC_COUNT, i);
    MetricNameAt(METRIC_COUNT, j);
    SamePrefix(NODE, Suffix(METRICS[i]), Suffix(METRICS[j]));
    SuffixesDiffer(METRICS[i], METRICS[j]);
    MetricsDiffer(i, j);
  }

  lemma {:induction false} SamePrefix(a: string, b: string, c: string)
    requires a + b == a + c
    ensures b == c
  {
    assert b == (a + b)[|a|..];
    assert c == (a + c)[|a|..];
  }

  function PlaceOf(m: Metric): nat {
    match m
    case TuplesReturned => 0 case StartupTimeUs => 1 case TotalTimeUs => 2 case LoopsExecuted => 3
    case TimeSeconds => 4 case TimePercent => 5 case CacheHits => 6 case CacheMisses => 7
    case LocalCacheHits => 8 case LocalCacheMisses => 9 case SpillFileReads => 10 case SpillFileWrites => 11
    case RowsFilteredByJoins => 12 case RowsFilteredByExpressions => 13
  }

  lemma {:induction false} MetricsDiffer(i: nat, j: nat)
    requires i < METRIC_COUNT && j < METRIC_COUNT && METRICS[i] == METRICS[j]
    ensures i == j
  {
    assert PlaceOf(METRICS[i]) == i && PlaceOf(METRICS[j]) == j;
  }

  lemma {:induction false} NodeIsNotInfo(i: nat)
    requires i < METRIC_COUNT
    ensures MetricNames(METRIC_COUNT)[i] != INFO
  {
    MetricNameAt(METRIC_COUNT, i);
    NodeIsNoInfo(Suffix(METRICS[i]));
  }

  lemma {:induction false} ExpandInfos(bs: seq<Block>)
    requires forall i :: 0 <= i < |bs| ==> bs[i].Info?
    ensures |Expand(bs)| == |bs| && forall i :: 0 <= i < |bs| ==> Expand(bs)[i] == INFO
    decreases |bs|
  {
    if bs != [] {
      ExpandInfos(bs[..|bs| - 1]);
    }
  }

  lemma {:induction false} InfosThenNode(names: seq<string>, m: nat, i: nat, j: nat, k: nat)
    requires m <= |names| && (forall x :: 0 <= x < m ==> names[x] == INFO)
    requires names[m..] == MetricNames(METRIC_COUNT) && i < j < k < |names| && names[i] == names[k]
    ensures names[j] == names[i]
  {
    if k >= m {
      assert names[k] == names[m..][k - m];
      NodeIsNotInfo(k - m);
      assert i >= m;
      assert names[i] == names[m..][i - m];
      NodeNamesDiffer(i - m, k - m);
    }
  }

  lemma {:induction false} LastIsContiguous(bs: seq<Block>)
    requires NodeLast(bs)
    ensures Contiguous(Expand(bs))
  {
    if bs != [] {
      var m, names := |bs| - 1, Expand(bs);
      ExpandInfos(bs[..m]);
      if bs[m].Node? {
        forall i, j, k | 0 <= i < j < k < |names| && names[i] == names[k] ensures names[j] == names[i] {
          InfosThenNode(names, m, i, j, k);
        }
      }
    }
  }

  lemma {:induction false} Around(bs: seq<Block>, i: nat)
    requires i + 1 < |bs|
    ensures Expand(bs) == Expand(bs[..i]) + BlockNames(bs[i]) + BlockNames(bs[i + 1]) + Expand(bs[i + 2..])
  {
    assert bs == bs[..i + 2] + bs[i + 2..];
    ExpandConcat(bs[..i + 2], bs[i + 2..]);
    ExpandPrefix(bs, i);
    ExpandPrefix(bs, i + 1);
  }

  lemma {:induction false} ExpandPrefix(bs: seq<Block>, i: nat)
    requires i < |bs|
    ensures Expand(bs[..i + 1]) == Expand(bs[..i]) + BlockNames(bs[i])
  {
    assert bs[..i + 1][..i] == bs[..i] && bs[..i + 1][i] == bs[i];
  }

  /** Where something follows a node's samples, a family is torn apart: the queries' if it is an info line, and
      the nodes' if it is another node. */
  lemma {:induction false} TornApart(bs: seq<Block>, i: nat)
    requires i + 1 < |bs| && bs[0].Info? && bs[i].Node?
    ensures !Contiguous(Expand(bs))
  {
    var names, all, at := Expand(bs), MetricNames(METRIC_COUNT), |Expand(bs[..i])|;
    Around(bs, i);
    NodeIsNotInfo(0);
    if bs[i + 1].Info? {
      Around(bs, 0);
      assert names[0] == INFO && names[at] == all[0] && names[at + METRIC_COUNT] == INFO && at > 0;
    } else {
      assert names[at] == all[0] && names[at + 1] == all[1] && names[at + METRIC_COUNT] == all[0];
      if all[0] == all[1] {
        NodeNamesDiffer(0, 1);
      }
    }
  }

  lemma {:induction false} ContiguousIffLast(bs: seq<Block>)
    requires bs != [] ==> bs[0].Info?
    ensures Contiguous(Expand(bs)) <==> NodeLast(bs)
  {
    if NodeLast(bs) {
      LastIsContiguous(bs);
    } else {
      var i :| 0 <= i < |bs| - 1 && !bs[i].Info?;
      TornApart(bs, i);
    }
  }

  // ---- What that means for the table --------------------------------------------------------------

  predicate NoneMarked(s: Slot, j: nat)
    requires j <= |s.metrics|
  {
    forall x :: 0 <= x < j ==> !Marked(s.metrics[x])
  }

  predicate OneMarked(s: Slot, j: nat)
    requires j <= |s.metrics|
  {
    forall x, y :: 0 <= x < y < j && Marked(s.metrics[x]) ==> !Marked(s.metrics[y])
  }

  /** At most one counted marked record is printed, and no active slot follows it. */
  predicate NodeIsLast(slots: seq<Slot>, n: nat)
    requires n <= |slots| && CountsOk(slots)
  {
    && (forall i :: 0 <= i < n && Active(slots[i]) ==> OneMarked(slots[i], slots[i].count))
    && (forall i, k :: 0 <= i < k < n && Active(slots[i]) && Active(slots[k]) ==> NoneMarked(slots[i], slots[i].count))
  }

  lemma {:induction false} RecordBlocksAre(s: Slot, j: nat)
    requires j <= |s.metrics|
    ensures forall i :: 0 <= i < |RecordBlocks(s, j)| ==> RecordBlocks(s, j)[i].Node?
    ensures RecordBlocks(s, j) == [] <==> NoneMarked(s, j)
    ensures |RecordBlocks(s, j)| <= 1 <==> OneMarked(s, j)
    decreases j
  {
    if j > 0 {
      var i := j - 1;
      RecordBlocksAre(s, i);
      assert NoneMarked(s, j) <==> NoneMarked(s, i) && !Marked(s.metrics[i]);
      assert OneMarked(s, j) <==> OneMarked(s, i) && (Marked(s.metrics[i]) ==> NoneMarked(s, i));
    }
  }

  predicate AllInfo(bs: seq<Block>) { forall i :: 0 <= i < |bs| ==> bs[i].Info? }

  lemma {:induction false} SlotBlocksAre(s: Slot)
    requires s.count <= |s.metrics|
    ensures SlotBlocks(s) != [] <==> Active(s)
    ensures Active(s) ==> SlotBlocks(s)[0].Info?
    ensures Active(s) ==> (AllInfo(SlotBlocks(s)) <==> NoneMarked(s, s.count))
    ensures Active(s) ==> (NodeLast(SlotBlocks(s)) <==> OneMarked(s, s.count))
  {
    var rs := RecordBlocks(s, s.count);
    RecordBlocksAre(s, s.count);
    if Active(s) {
      LastOfConcat([Info], rs);
      assert rs != [] ==> rs[0].Node?;
      assert rs == [] ==> [Info] + rs == [Info];
    }
  }

  lemma {:induction false} LastOfConcat(a: seq<Block>, b: seq<Block>)
    ensures b != [] ==> (NodeLast(a + b) <==> AllInfo(a) && NodeLast(b))
    ensures AllInfo(a + b) <==> AllInfo(a) && AllInfo(b)
  {
    var ab := a + b;
    if b != [] && NodeLast(ab) {
      forall i | 0 <= i < |a| ensures a[i].Info? {
        assert ab[i].Info?;
      }
      forall i | 0 <= i < |b| - 1 ensures b[i].Info? {
        assert ab[|a| + i].Info?;
      }
    }
    if AllInfo(ab) {
      forall i | 0 <= i < |a| ensures a[i].Info? {
        assert ab[i].Info?;
      }
      forall i | 0 <= i < |b| ensures b[i].Info? {
        assert ab[|a| + i].Info?;
      }
    }
  }

  predicate NoneBefore(slots: seq<Slot>, n: nat)
    requires n <= |slots| && CountsOk(slots)
  {
    forall i :: 0 <= i < n && Active(slots[i]) ==> NoneMarked(slots[i], slots[i].count)
  }

  lemma {:induction false} BlocksAre(slots: seq<Slot>, n: nat)
    requires n <= |slots| && CountsOk(slots)
    ensures Blocks(slots, n) != [] ==> Blocks(slots, n)[0].Info?
    ensures AllInfo(Blocks(slots, n)) <==> NoneBefore(slots, n)
    ensures NodeLast(Blocks(slots, n)) <==> NodeIsLast(slots, n)
    decreases n
  {
    if n > 0 {
      var k := n - 1;
      BlocksAre(slots, k);
      SlotBlocksAre(slots[k]);
      LastOfConcat(Blocks(slots, k), SlotBlocks(slots[k]));
      assert Blocks(slots, n) == Blocks(slots, k) + SlotBlocks(slots[k]);
      if Active(slots[k]) {
        NextActive(slots, k);
      } else {
        assert Blocks(slots, n) == Blocks(slots, k);
      }
    }
  }

  lemma {:induction false} NextActive(slots: seq<Slot>, k: nat)
    requires k < |slots| && CountsOk(slots) && Active(slots[k])
    ensures NoneBefore(slots, k + 1) <==> NoneBefore(slots, k) && NoneMarked(slots[k], slots[k].count)
    ensures NodeIsLast(slots, k + 1) <==> NoneBefore(slots, k) && OneMarked(slots[k], slots[k].count)
  {
    if NoneBefore(slots, k) {
      NoneIsOne(slots, k);
    }
  }

  lemma {:induction false} NoneIsOne(slots: seq<Slot>, n: nat)
    requires n <= |slots| && CountsOk(slots) && NoneBefore(slots, n)
    ensures forall i :: 0 <= i < n && Active(slots[i]) ==> OneMarked(slots[i], slots[i].count)
  {
  }

  /** The samples of every family come together if and only if at most one counted record is printed and no
      active slot follows it. */
  lemma {:induction false} FamiliesContiguousIff(sp: Spelling, slots: seq<Slot>)
    requires CountsOk(slots)
    ensures Contiguous(Names(Samples(Exposition(sp, slots, |slots|)))) <==> NodeIsLast(slots, |slots|)
  {
    ExpositionNamed(sp, slots, |slots|);
    BlocksAre(slots, |slots|);
    ContiguousIffLast(Blocks(slots, |slots|));
  }

  /** So any query of which two nodes are shown tears all 14 families of the nodes apart. */
  lemma {:induction false} TwoNodesTear(sp: Spelling, slots: seq<Slot>, i: nat, x: nat, y: nat)
    requires CountsOk(slots) && i < |slots| && Active(slots[i]) && x < y < slots[i].count
    requires Marked(slots[i].metrics[x]) && Marked(slots[i].metrics[y])
    ensures !Contiguous(Names(Samples(Exposition(sp, slots, |slots|))))
  {
    FamiliesContiguousIff(sp, slots);
    assert !OneMarked(slots[i], slots[i].count);
  }

  /** A concrete table that breaks the rule, of the smallest admissible size: one query of two nodes. */
  lemma {:induction false} TornTable(sp: Spelling)
    ensures var root, leaf := ZEROED.(parentId := U32_SIZE - 1, magic := NODE_MAGIC),
        ZEROED.(nodeId := 1, magic := NODE_MAGIC);
      var query := Blank(16).(pid := 1, count := 2, metrics := Blank(16).metrics[0 := root][1 := leaf]);
      var slots := [query, Blank(16)];
      CountsOk(slots) && !Contiguous(Names(Samples(Exposition(sp, slots, 2))))
  {
    var root, leaf := ZEROED.(parentId := U32_SIZE - 1, magic := NODE_MAGIC), ZEROED.(nodeId := 1, magic := NODE_MAGIC);
    var query := Blank(16).(pid := 1, count := 2, metrics := Blank(16).metrics[0 := root][1 := leaf]);
    var slots := [query, Blank(16)];
    assert slots[0] == query && slots[1].count == 0;
    TwoNodesTear(sp, slots, 0, 0, 1);
  }

  // ---- The end of the text ------------------------------------------------------------------------

  const EOF := Comment(" EOF")

  predicate NoEof(ls: seq<Line>) { forall i :: 0 <= i < |ls| ==> ls[i] != EOF }

  lemma {:induction false} HeaderNoEof(name: string, help: string)
    ensures NoEof(HelpHeader(name, help))
  {
    var a, b := " HELP " + name + " " + help, " TYPE " + name + " gauge";
    assert a[1] == 'H' && b[1] == 'T' && " EOF"[1] == 'E';
  }

  lemma {:induction false} HeadersNoEof(sp: Spelling, k: nat)
    requires k <= METRIC_COUNT
    ensures NoEof(Headers(sp, k)) && Headers(sp, k) != []
    decreases k
  {
    if k == 0 {
      HeaderNoEof(INFO, INFO_HELP);
    } else {
      HeadersNoEof(sp, k - 1);
      HeaderNoEof(NODE + Suffix(METRICS[k - 1]), sp.help(METRICS[k - 1]));
    }
  }

  lemma {:induction false} NodeLinesNoEof(sp: Spelling, s: Slot, n: NodeMetrics, total: real, k: nat)
    requires k <= METRIC_COUNT
    ensures NoEof(NodeLines(sp, s, n, total, k))
    decreases k
  {
    if k > 0 {
      NodeLinesNoEof(sp, s, n, total, k - 1);
    }
  }

  lemma {:induction false} RecordLinesNoEof(sp: Spelling, s: Slot, total: real, j: nat)
    requires j <= |s.metrics|
    ensures NoEof(RecordLines(sp, s, total, j))
    decreases j
  {
    if j > 0 {
      RecordLinesNoEof(sp, s, total, j - 1);
      NodeLinesNoEof(sp, s, s.metrics[j - 1], total, METRIC_COUNT);
    }
  }

  lemma {:induction false} EofConcat(a: seq<Line>, b: seq<Line>)
    requires NoEof(a) && NoEof(b)
    ensures NoEof(a + b)
  {
  }

  /** No line of any exposition, so not its last one either, is the EOF line. */
  lemma {:induction false} NeverEof(sp: Spelling, slots: seq<Slot>, n: nat)
    requires n <= |slots| && CountsOk(slots)
    ensures Exposition(sp, slots, n) != [] && NoEof(Exposition(sp, slots, n))
    decreases n
  {
    if n == 0 {
      HeadersNoEof(sp, METRIC_COUNT);
    } else {
      var k := n - 1;
      NeverEof(sp, slots, k);
      SlotNoEof(sp, slots[k]);
      EofConcat(Exposition(sp, slots, k), SlotLines(sp, slots[k]));
    }
  }

  lemma {:induction false} SlotNoEof(sp: Spelling, s: Slot)
    requires s.count <= |s.metrics|
    ensures NoEof(SlotLines(sp, s))
  {
    if Active(s) {
      RecordLinesNoEof(sp, s, TotalTime(s.metrics, s.count), s.count);
      EofConcat([Data(InfoSample(s))], RecordLines(sp, s, TotalTime(s.metrics, s.count), s.count));
    }
  }
}
