/** The SQL view's resumable iterator, alone, against memory that changes under it, and against the exporter. */
module StatusScan {
  import opened Basics
  import opened NodeWrites
  import opened Slots
  import opened Exporter
  import opened Reads

  // ---- Rows --------------------------------------------------------------------------------------

  /** The metric columns of the view, in their order. */
  const COLUMNS: seq<Metric> := [
    StartupTimeUs, TotalTimeUs, LoopsExecuted, TuplesReturned, TimeSeconds, TimePercent,
    CacheHits, CacheMisses, LocalCacheHits, LocalCacheMisses, SpillFileReads, SpillFileWrites,
    RowsFilteredByJoins, RowsFilteredByExpressions]

  datatype Row = Row(pid: int, queryId: int, text: string, nodeId: int, parentId: int, tag: string, values: seq<real>)

  /** The fields of the record at `c`, read one by one in the order of the columns; the magic number is not. */
  function RecordRead(memory: Memory, c: Cursor, t: nat): NodeMetrics {
    NodeMetrics(NodeAt(memory, t + 2, c).tag, NodeAt(memory, t, c).nodeId, NodeAt(memory, t + 1, c).parentId,
                ExecutionRead(memory, c, t + 3), BufferUsageRead(memory, c, t + 7), NodeAt(memory, t, c).magic)
  }

  function ExecutionRead(memory: Memory, c: Cursor, t: nat): Execution {
    Execution(NodeAt(memory, t + 3, c).execution.tuplesReturned, NodeAt(memory, t + 2, c).execution.loopsExecuted,
              NodeAt(memory, t, c).execution.startupTimeUs, NodeAt(memory, t + 1, c).execution.totalTimeUs,
              NodeAt(memory, t + 10, c).execution.rowsFilteredByJoins,
              NodeAt(memory, t + 11, c).execution.rowsFilteredByExpressions)
  }

  function BufferUsageRead(memory: Memory, c: Cursor, t: nat): BufferUsage {
    BufferUsage(NodeAt(memory, t, c).bufferUsage.cacheHits, NodeAt(memory, t + 1, c).bufferUsage.cacheMisses,
                NodeAt(memory, t + 2, c).bufferUsage.localCacheHits,
                NodeAt(memory, t + 3, c).bufferUsage.localCacheMisses,
                NodeAt(memory, t + 4, c).bufferUsage.spillFileReads,
                NodeAt(memory, t + 5, c).bufferUsage.spillFileWrites)
  }

  function MakeRow(
      sp: Spelling, pid: int, queryId: nat, text: string, n: NodeMetrics, seconds: real, percent: real): Row {
    var e, b := n.execution, n.bufferUsage;
    Row(pid, AsLong(queryId), text, ToI32(n.nodeId % U32_SIZE), ToI32(n.parentId % U32_SIZE), sp.tagName(n.tag),
        [e.startupTimeUs, e.totalTimeUs, e.loopsExecuted, e.tuplesReturned, seconds, percent,
         AsLong(b.cacheHits) as real, AsLong(b.cacheMisses) as real,
         AsLong(b.localCacheHits) as real, AsLong(b.localCacheMisses) as real,
         AsLong(b.spillFileReads) as real, AsLong(b.spillFileWrites) as real,
         e.rowsFilteredByJoins, e.rowsFilteredByExpressions])
  }

  /** The row of the node at `c`, read from tick `t` on: the time for the derived columns, then all columns. */
  function FillRow(sp: Spelling, memory: Memory, c: Cursor, total: real, t: nat): Row {
    MakeRow(sp, memory(t + 2, c.slot).pid, memory(t + 3, c.slot).queryId, memory(t + 4, c.slot).text,
            RecordRead(memory, c, t + 5), Seconds(NodeAt(memory, t, c).execution.totalTimeUs),
            Percent(NodeAt(memory, t + 1, c).execution.totalTimeUs, total))
  }

  // ---- One call ----------------------------------------------------------------------------------

  /** The test of one turn: the pid is read at tick `t` and, if it is set, the count at the next. */
  predicate Passes(memory: Memory, c: Cursor, t: nat) {
    memory(t, c.slot).pid != 0 && c.node < memory(t + 1, c.slot).count
  }

  function AfterTest(memory: Memory, c: Cursor, t: nat): nat { t + if memory(t, c.slot).pid != 0 then 2 else 1 }

  /** Where and when a call stops that starts to look at `c` at tick `t`: behind the test of a node, or behind
      the last slot. */
  function Look(memory: Memory, n: nat, c: Cursor, t: nat): (Cursor, nat)
    requires c.slot <= n
    decreases n - c.slot
  {
    if c.slot == n then (c, t)
    else if Passes(memory, c, t) then (c, t + 2)
    else Look(memory, n, Cursor(c.slot + 1, 0), AfterTest(memory, c, t))
  }

  lemma {:induction false} LookFinds(memory: Memory, n: nat, max: nat, c: Cursor, t: nat)
    requires Sound(memory, n, max) && c.slot <= n
    ensures var (d, u) := Look(memory, n, c, t);
      && c.slot <= d.slot <= n && t <= u
      && (d.slot < n ==> t + 2 <= u && Passes(memory, d, u - 2) && d.node < max)
      && (d.slot < n ==> d == c || (d.slot > c.slot && d.node == 0))
    decreases n - c.slot
  {
    if c.slot < n && !Passes(memory, c, t) {
      LookFinds(memory, n, max, Cursor(c.slot + 1, 0), AfterTest(memory, c, t));
    }
  }

  /** The sum of the times from record `j` on, the count being read before each, and the tick behind it. */
  function SumFrom(memory: Memory, n: nat, ghost max: nat, i: nat, j: nat, sum: real, t: nat): (real, nat)
    requires Sound(memory, n, max) && i < n && j <= max
    decreases max - j
  {
    if j < memory(t, i).count then
      SumFrom(memory, n, max, i, j + 1, sum + NodeAt(memory, t + 1, Cursor(i, j)).execution.totalTimeUs, t + 2)
    else (sum, t + 1)
  }

  /** The row of the node at `c` once its test has passed. */
  function ReadRow(sp: Spelling, memory: Memory, n: nat, ghost max: nat, c: Cursor, t: nat): Row
    requires Sound(memory, n, max) && c.slot < n && c.node < max
  {
    var (total, u) := SumFrom(memory, n, max, c.slot, 0, 0.0, t);
    FillRow(sp, memory, c, total, u)
  }

  class Scan {
    /** state[0] and state[1] of the function call context. */
    var slot: nat
    var node: nat

    constructor ()
      ensures slot == node == 0
    {
      slot, node := 0, 0;
    }

    /** One call: the row of the first node at or behind the saved position, which then points behind it. */
    method NextRow(sp: Spelling, memory: Memory, n: nat, ghost max: nat)
      returns (row: Option<Row>, ghost c: Cursor, ghost t: nat)
      requires Sound(memory, n, max) && slot <= n
      modifies this
      ensures (c, t) == Look(memory, n, old(Cursor(slot, node)), 0)
      ensures
        if c.slot < n then
          && c.node < max && row == Some(ReadRow(sp, memory, n, max, c, t))
          && Cursor(slot, node) == Cursor(c.slot, c.node + 1)
        else row == None && Cursor(slot, node) == c
    {
      row := None;
      var i: nat, j: nat := slot, node;
      var tick: nat := 0;
      ghost var found := Look(memory, n, Cursor(i, j), tick);
      c, t := found.0, found.1;
      while i < n
        invariant i <= n && Cursor(i, j) == Cursor(slot, node)
        invariant Look(memory, n, Cursor(i, j), tick) == (c, t)
        decreases n - i
      {
        var here := Passes(memory, Cursor(i, j), tick);
        tick := AfterTest(memory, Cursor(i, j), tick);
        if here {
          assert c == Cursor(i, j) && t == tick;
          var r := RowHere(sp, memory, n, max, Cursor(i, j), tick);
          j := j + 1;
          node := j;
          row := Some(r);
          return;
        }
        i := i + 1;
        j := 0;
        slot, node := i, 0;
      }
    }
  }

  method RowHere(sp: Spelling, memory: Memory, n: nat, ghost max: nat, c: Cursor, t: nat) returns (row: Row)
    requires Sound(memory, n, max) && c.slot < n && c.node < max
    ensures row == ReadRow(sp, memory, n, max, c, t)
  {
    var total, u := TotalQueryTime(memory, n, max, c.slot, t);
    row := FillRow(sp, memory, c, total, u);
  }

  method TotalQueryTime(memory: Memory, n: nat, ghost max: nat, i: nat, t: nat) returns (total: real, u: nat)
    requires Sound(memory, n, max) && i < n
    ensures (total, u) == SumFrom(memory, n, max, i, 0, 0.0, t)
  {
    total, u := 0.0, t;
    var j := 0;
    while j < memory(u, i).count
      invariant j <= max
      invariant SumFrom(memory, n, max, i, j, total, u) == SumFrom(memory, n, max, i, 0, 0.0, t)
      decreases max - j
    {
      total := total + NodeAt(memory, u + 1, Cursor(i, j)).execution.totalTimeUs;
      j := j + 1;
      u := u + 2;
    }
    u := u + 1;
  }

  // ---- The whole scan ----------------------------------------------------------------------------

  /** What each call in turn reads. */
  type Calls = nat -> Memory

  ghost predicate AllSound(calls: Calls, n: nat, max: nat) { forall k: nat :: Sound(calls(k), n, max) }

  /** The positions of the rows that calling until the end yields, from call `k` on. */
  ghost function Positions(calls: Calls, n: nat, max: nat, c: Cursor, k: nat): seq<Cursor>
    requires AllSound(calls, n, max) && c.slot <= n
    decreases n - c.slot, max - c.node
  {
    var d := Look(calls(k), n, c, 0).0;
    LookFinds(calls(k), n, max, c, 0);
    if d.slot >= n then [] else [d] + Positions(calls, n, max, Cursor(d.slot, d.node + 1), k + 1)
  }

  predicate Before(a: Cursor, b: Cursor) { a.slot < b.slot || (a.slot == b.slot && a.node < b.node) }

  function Times(k: nat, max: nat): nat { if k == 0 then 0 else Times(k - 1, max) + max }

  /** Rows still possible from position `c` on. */
  function Remaining(n: nat, max: nat, c: Cursor): nat {
    if c.slot >= n then 0 else Times(n - c.slot - 1, max) + (max - Min(c.node, max))
  }

  lemma {:induction false} TimesGrows(a: nat, b: nat, max: nat)
    requires a <= b
    ensures Times(a, max) <= Times(b, max) == b * max
    decreases b
  {
    if b > 0 {
      TimesGrows(if a < b then a else b - 1, b - 1, max);
      assert b * max == (b - 1) * max + max;
    }
  }

  lemma {:induction false} RemainingShrinks(n: nat, max: nat, c: Cursor, d: Cursor)
    requires c.slot <= d.slot < n && d.node < max
    requires d == c || (d.slot > c.slot && d.node == 0)
    ensures Remaining(n, max, Cursor(d.slot, d.node + 1)) + 1 <= Remaining(n, max, c)
  {
    if d != c {
      TimesGrows(n - d.slot, n - c.slot - 1, max);
    }
  }

  /** Positions within the table, none before `c`, each behind the one in front of it. */
  predicate Increasing(ps: seq<Cursor>, n: nat, max: nat, c: Cursor) {
    && (forall i :: 0 <= i < |ps| ==> ps[i].slot < n && ps[i].node < max && !Before(ps[i], c))
    && forall i, j :: 0 <= i < j < |ps| ==> Before(ps[i], ps[j])
  }

  lemma {:induction false} IncreasingFrom(d: Cursor, ps: seq<Cursor>, n: nat, max: nat, c: Cursor)
    requires d.slot < n && d.node < max && !Before(d, c) && Increasing(ps, n, max, Cursor(d.slot, d.node + 1))
    ensures Increasing([d] + ps, n, max, c)
  {
    var all := [d] + ps;
    forall i | 0 <= i < |all|
      ensures all[i].slot < n && all[i].node < max && !Before(all[i], c)
    {
      assert i > 0 ==> all[i] == ps[i - 1];
    }
    forall i, j | 0 <= i < j < |all| ensures Before(all[i], all[j]) {
      assert all[j] == ps[j - 1] && (i > 0 ==> all[i] == ps[i - 1]);
    }
  }

  /** Whatever happens to the memory between two reads, the scan ends after at most slots x nodes rows, and
      their positions strictly increase, so that none occurs twice. */
  lemma {:induction false} ScanIncreases(calls: Calls, n: nat, max: nat, c: Cursor, k: nat)
    requires AllSound(calls, n, max) && c.slot <= n
    ensures var ps := Positions(calls, n, max, c, k);
      |ps| <= Remaining(n, max, c) && Increasing(ps, n, max, c)
    decreases n - c.slot, max - c.node
  {
    var d := Look(calls(k), n, c, 0).0;
    LookFinds(calls(k), n, max, c, 0);
    if d.slot < n {
      var next := Cursor(d.slot, d.node + 1);
      ScanIncreases(calls, n, max, next, k + 1);
      RemainingShrinks(n, max, c, d);
      IncreasingFrom(d, Positions(calls, n, max, next, k + 1), n, max, c);
    }
  }

  lemma {:induction false} ScanFromStart(calls: Calls, n: nat, max: nat)
    requires AllSound(calls, n, max)
    ensures |Positions(calls, n, max, Cursor(0, 0), 0)| <= n * max
  {
    if n > 0 {
      TimesGrows(n - 1, n, max);
    }
    ScanIncreases(calls, n, max, Cursor(0, 0), 0);
  }

  // ---- Stable memory: the nested loops -----------------------------------------------------------

  /** Nodes 0 to k - 1 of slot `i`. */
  function NodesOf(i: nat, k: nat): seq<Cursor> { if k == 0 then [] else NodesOf(i, k - 1) + [Cursor(i, k - 1)] }

  function CellsOf(slots: seq<Slot>, i: nat): seq<Cursor>
    requires i < |slots|
  {
    if Active(slots[i]) then NodesOf(i, slots[i].count) else []
  }

  /** The order of the exporter: slot by slot, and in each active slot node by node. */
  function Cells(slots: seq<Slot>, n: nat): seq<Cursor>
    requires n <= |slots|
  {
    if n == 0 then [] else Cells(slots, n - 1) + CellsOf(slots, n - 1)
  }

  /** The cells in front of a position that a scan of `slots` can have. */
  function CellsBefore(slots: seq<Slot>, c: Cursor): seq<Cursor>
    requires c.slot <= |slots|
  {
    Cells(slots, c.slot)
    + if c.slot < |slots| && Active(slots[c.slot]) then NodesOf(c.slot, Min(c.node, slots[c.slot].count)) else []
  }

  lemma {:induction false} StepPast(slots: seq<Slot>, c: Cursor)
    requires HasNode(slots, c)
    ensures CellsBefore(slots, Cursor(c.slot, c.node + 1)) == CellsBefore(slots, c) + [c]
  {
    var before := Cells(slots, c.slot);
    assert before + (NodesOf(c.slot, c.node) + [c]) == before + NodesOf(c.slot, c.node) + [c];
  }

  lemma {:induction false} SkipStable(slots: seq<Slot>, c: Cursor)
    requires c.slot < |slots| && !HasNode(slots, c)
    ensures CellsBefore(slots, Cursor(c.slot + 1, 0)) == CellsBefore(slots, c)
  {
    assert CellsBefore(slots, Cursor(c.slot + 1, 0)) == Cells(slots, c.slot + 1) + [] == Cells(slots, c.slot + 1);
  }

  lemma {:induction false} LookStable(slots: seq<Slot>, max: nat, c: Cursor, t: nat)
    requires Roomy(slots, max) && c.slot <= |slots|
    ensures var d := Look(Still(slots), |slots|, c, t).0;
      d.slot <= |slots| && CellsBefore(slots, d) == CellsBefore(slots, c) && (d.slot < |slots| ==> HasNode(slots, d))
    decreases |slots| - c.slot
  {
    if c.slot < |slots| {
      assert Passes(Still(slots), c, t) <==> HasNode(slots, c);
      if !HasNode(slots, c) {
        SkipStable(slots, c);
        LookStable(slots, max, Cursor(c.slot + 1, 0), AfterTest(Still(slots), c, t));
      }
    }
  }

  function Repeated(slots: seq<Slot>): Calls { _ => Still(slots) }

  lemma {:induction false} PositionsNext(calls: Calls, n: nat, max: nat, c: Cursor, k: nat, d: Cursor, t: nat)
    requires AllSound(calls, n, max) && c.slot <= n && (d, t) == Look(calls(k), n, c, 0)
    ensures d.slot <= n
    ensures Positions(calls, n, max, c, k)
         == if d.slot == n then [] else [d] + Positions(calls, n, max, Cursor(d.slot, d.node + 1), k + 1)
  {
    LookFinds(calls(k), n, max, c, 0);
  }

  lemma {:induction false} StableFrom(slots: seq<Slot>, max: nat, c: Cursor, k: nat)
    requires Roomy(slots, max) && c.slot <= |slots|
    ensures CellsBefore(slots, c) + Positions(Repeated(slots), |slots|, max, c, k) == Cells(slots, |slots|)
    decreases |slots| - c.slot, max - c.node
  {
    var (d, t) := Look(Still(slots), |slots|, c, 0);
    CallOnStill(slots, max, c, d, t);
    PositionsNext(Repeated(slots), |slots|, max, c, k, d, t);
    if d.slot < |slots| {
      var next := Cursor(d.slot, d.node + 1);
      StableFrom(slots, max, next, k + 1);
      Assoc(CellsBefore(slots, c), [d], Positions(Repeated(slots), |slots|, max, next, k + 1));
    } else {
      assert CellsBefore(slots, c) + [] == CellsBefore(slots, c);
    }
  }

  /** On stable memory the rows come at exactly the exporter's cells, in the exporter's order. */
  lemma {:induction false} ScanIsNestedLoop(slots: seq<Slot>, max: nat)
    requires Roomy(slots, max)
    ensures Positions(Repeated(slots), |slots|, max, Cursor(0, 0), 0) == Cells(slots, |slots|)
  {
    StableFrom(slots, max, Cursor(0, 0), 0);
    assert CellsBefore(slots, Cursor(0, 0)) == [];
  }

  /** The row of a cell of a table that does not change. */
  function RowAt(sp: Spelling, slots: seq<Slot>, ghost max: nat, c: Cursor): Row
    requires HasNode(slots, c) && Roomy(slots, max)
  {
    var s := slots[c.slot];
    FillRow(sp, Still(slots), c, TotalTime(s.metrics, s.count), 0)
  }

  lemma {:induction false} SumStable(slots: seq<Slot>, max: nat, i: nat, j: nat, t: nat)
    requires Roomy(slots, max) && i < |slots| && j <= slots[i].count
    ensures SumFrom(Still(slots), |slots|, max, i, j, TotalTime(slots[i].metrics, j), t).0
         == TotalTime(slots[i].metrics, slots[i].count)
    decreases max - j
  {
    if j < slots[i].count {
      SumStable(slots, max, i, j + 1, t + 2);
    }
  }

  lemma {:induction false} RecordStable(slots: seq<Slot>, c: Cursor, t: nat)
    requires c.slot < |slots|
    ensures RecordRead(Still(slots), c, t) == NodeAt(Still(slots), 0, c)
  {
  }

  lemma {:induction false} FillStable(sp: Spelling, slots: seq<Slot>, c: Cursor, total: real, t: nat)
    requires c.slot < |slots|
    ensures FillRow(sp, Still(slots), c, total, t) == FillRow(sp, Still(slots), c, total, 0)
  {
    RecordStable(slots, c, t + 5);
    RecordStable(slots, c, 5);
  }

  lemma {:induction false} RowStable(sp: Spelling, slots: seq<Slot>, max: nat, c: Cursor, t: nat)
    requires HasNode(slots, c) && Roomy(slots, max)
    ensures ReadRow(sp, Still(slots), |slots|, max, c, t) == RowAt(sp, slots, max, c)
  {
    var (total, u) := SumFrom(Still(slots), |slots|, max, c.slot, 0, 0.0, t);
    SumStable(slots, max, c.slot, 0, t);
    FillStable(sp, slots, c, total, u);
  }

  ghost predicate RowsMatch(sp: Spelling, slots: seq<Slot>, max: nat, rows: seq<Row>, cells: seq<Cursor>) {
    |rows| == |cells| && Roomy(slots, max)
    && forall k :: 0 <= k < |rows| ==> RowOf(sp, slots, max, rows[k], cells[k])
  }

  ghost predicate RowOf(sp: Spelling, slots: seq<Slot>, max: nat, row: Row, c: Cursor)
    requires Roomy(slots, max)
  {
    HasNode(slots, c) && forall shown :: IsRowAt(sp, slots, max, c, shown) ==> row == shown
  }

  ghost predicate IsRowAt(sp: Spelling, slots: seq<Slot>, max: nat, c: Cursor, row: Row)
    requires Roomy(slots, max) && HasNode(slots, c)
  {
    row == RowAt(sp, slots, max, c)
  }

  lemma {:induction false} RowOfIff(sp: Spelling, slots: seq<Slot>, max: nat, row: Row, c: Cursor)
    requires Roomy(slots, max) && HasNode(slots, c)
    ensures RowOf(sp, slots, max, row, c) <==> row == RowAt(sp, slots, max, c)
  {
    assert IsRowAt(sp, slots, max, c, RowAt(sp, slots, max, c));
  }

  lemma {:induction false} LookBehind(slots: seq<Slot>, c: Cursor)
    requires c.slot == |slots|
    ensures CellsBefore(slots, c) == Cells(slots, |slots|)
  {
    assert Cells(slots, |slots|) + [] == Cells(slots, |slots|);
  }

  lemma {:induction false} MatchNext(
      sp: Spelling, slots: seq<Slot>, max: nat, rows: seq<Row>, cells: seq<Cursor>, row: Row, c: Cursor)
    requires RowsMatch(sp, slots, max, rows, cells) && RowOf(sp, slots, max, row, c)
    ensures RowsMatch(sp, slots, max, rows + [row], cells + [c])
  {
    forall k | 0 <= k < |rows| + 1 ensures RowOf(sp, slots, max, (rows + [row])[k], (cells + [c])[k]) {
      assert k < |rows| ==> RowOf(sp, slots, max, rows[k], cells[k]);
    }
  }

  /** What one call on a table that does not change yields, and where it leaves the scan. */
  lemma {:induction false} CallOnStill(slots: seq<Slot>, max: nat, c: Cursor, d: Cursor, t: nat)
    requires Roomy(slots, max) && c.slot <= |slots| && (d, t) == Look(Still(slots), |slots|, c, 0)
    ensures
      && c.slot <= d.slot <= |slots| && (d.slot < |slots| ==> HasNode(slots, d) && d.node < max && !Before(d, c))
      && (d.slot < |slots| ==> CellsBefore(slots, Cursor(d.slot, d.node + 1)) == CellsBefore(slots, c) + [d])
      && (d.slot == |slots| ==> CellsBefore(slots, c) == Cells(slots, |slots|))
  {
    LookStable(slots, max, c, 0);
    LookFinds(Still(slots), |slots|, max, c, 0);
    if d.slot < |slots| {
      StepPast(slots, d);
    } else {
      LookBehind(slots, d);
    }
  }

  /** One call on a table that does not change: the next cell's row, until none is left. */
  method NextOnStill(scan: Scan, sp: Spelling, slots: seq<Slot>, ghost max: nat)
    returns (row: Option<Row>, ghost d: Cursor)
    requires Roomy(slots, max) && scan.slot <= |slots|
    modifies scan
    ensures old(scan.slot) <= scan.slot <= |slots|
    ensures row.Some? ==>
      && RowOf(sp, slots, max, row.value, d)
      && (scan.slot > old(scan.slot) || max - scan.node < max - old(scan.node))
      && CellsBefore(slots, Cursor(scan.slot, scan.node)) == CellsBefore(slots, old(Cursor(scan.slot, scan.node))) + [d]
    ensures row.None? ==> CellsBefore(slots, old(Cursor(scan.slot, scan.node))) == Cells(slots, |slots|)
  {
    ghost var c := Cursor(scan.slot, scan.node);
    ghost var t;
    row, d, t := scan.NextRow(sp, Still(slots), |slots|, max);
    CallOnStill(slots, max, c, d, t);
    if d.slot < |slots| {
      RowStable(sp, slots, max, d, t);
      RowOfIff(sp, slots, max, row.value, d);
    }
  }

  lemma {:induction false} NothingYet(sp: Spelling, slots: seq<Slot>, max: nat)
    requires Roomy(slots, max)
    ensures RowsMatch(sp, slots, max, [], []) && CellsBefore(slots, Cursor(0, 0)) == []
  {
  }

  /** Calling until the end yields one row for every cell, in order. */
  method ReadStatus(sp: Spelling, slots: seq<Slot>, ghost max: nat) returns (rows: seq<Row>)
    requires Roomy(slots, max)
    ensures |rows| == |Cells(slots, |slots|)|
    ensures forall k :: 0 <= k < |rows| ==> RowOf(sp, slots, max, rows[k], Cells(slots, |slots|)[k])
  {
    var scan := new Scan();
    var more := true;
    rows := [];
    NothingYet(sp, slots, max);
    while more
      invariant fresh(scan) && scan.slot <= |slots|
      invariant more ==> RowsMatch(sp, slots, max, rows, CellsBefore(slots, Cursor(scan.slot, scan.node)))
      invariant !more ==> RowsMatch(sp, slots, max, rows, Cells(slots, |slots|))
      decreases more, |slots| - scan.slot, max - scan.node
    {
      ghost var cells := CellsBefore(slots, Cursor(scan.slot, scan.node));
      var row, d := NextOnStill(scan, sp, slots, max);
      match row {
        case None =>
          more := false;
        case Some(r) =>
          MatchNext(sp, slots, max, rows, cells, r, d);
          rows := rows + [r];
      }
    }
  }

  // ---- Agreement with the exporter ---------------------------------------------------------------

  /** The readings among the facts that the exposition conveys. */
  function Readings(fs: seq<Option<Fact>>): seq<Option<Fact>>
    decreases |fs|
  {
    if fs == [] then []
    else (if fs[0].Some? && fs[0].value.Reading? then [fs[0]] else []) + Readings(fs[1..])
  }

  lemma {:induction false} ReadingsConcat(a: seq<Option<Fact>>, b: seq<Option<Fact>>)
    ensures Readings(a + b) == Readings(a) + Readings(b)
    decreases |a|
  {
    if a == [] {
      assert a + b == b;
    } else {
      assert (a + b)[1..] == a[1..] + b;
      ReadingsConcat(a[1..], b);
    }
  }

  lemma {:induction false} OneReading(f: Option<Fact>)
    ensures Readings([f]) == if f.Some? && f.value.Reading? then [f] else []
  {
    assert [f][1..] == [];
  }

  /** A counted record that carries the magic number. */
  predicate MarkedAt(slots: seq<Slot>, c: Cursor) {
    HasNode(slots, c) && c.node < |slots[c.slot].metrics| && Marked(slots[c.slot].metrics[c.node])
  }

  function ReadingsAt(sp: Spelling, slots: seq<Slot>, c: Cursor): seq<Option<Fact>> {
    if MarkedAt(slots, c) && slots[c.slot].count <= |slots[c.slot].metrics| then
      var s := slots[c.slot];
      NodeFacts(sp, s, s.metrics[c.node], TotalTime(s.metrics, s.count), METRIC_COUNT)
    else []
  }

  function ReadingsOf(sp: Spelling, slots: seq<Slot>, cells: seq<Cursor>): seq<Option<Fact>>
    decreases |cells|
  {
    if cells == [] then [] else ReadingsAt(sp, slots, cells[0]) + ReadingsOf(sp, slots, cells[1..])
  }

  lemma {:induction false} ReadingsOfConcat(sp: Spelling, slots: seq<Slot>, a: seq<Cursor>, b: seq<Cursor>)
    ensures ReadingsOf(sp, slots, a + b) == ReadingsOf(sp, slots, a) + ReadingsOf(sp, slots, b)
    decreases |a|
  {
    if a == [] {
      assert a + b == b;
    } else {
      assert (a + b)[1..] == a[1..] + b;
      ReadingsOfConcat(sp, slots, a[1..], b);
    }
  }

  lemma {:induction false} NodeFactsAreReadings(sp: Spelling, s: Slot, n: NodeMetrics, total: real, k: nat)
    requires k <= METRIC_COUNT
    ensures Readings(NodeFacts(sp, s, n, total, k)) == NodeFacts(sp, s, n, total, k)
  {
    if k > 0 {
      var r := Some(NodeReading(sp, s, n, total, METRICS[k - 1]));
      NodeFactsAreReadings(sp, s, n, total, k - 1);
      ReadingsConcat(NodeFacts(sp, s, n, total, k - 1), [r]);
      OneReading(r);
    }
  }

  /** The readings among `fs` are those of the marked cells among `cells`, in the same order. */
  ghost predicate Agree(sp: Spelling, slots: seq<Slot>, fs: seq<Option<Fact>>, cells: seq<Cursor>) {
    Readings(fs) == ReadingsOf(sp, slots, cells)
  }

  lemma {:induction false} AgreeJoined(sp: Spelling, slots: seq<Slot>,
      f: seq<Option<Fact>>, g: seq<Option<Fact>>, a: seq<Cursor>, b: seq<Cursor>)
    requires Agree(sp, slots, f, a) && Agree(sp, slots, g, b)
    ensures Agree(sp, slots, f + g, a + b)
  {
    ReadingsConcat(f, g);
    ReadingsOfConcat(sp, slots, a, b);
  }

  lemma {:induction false} OneCell(sp: Spelling, slots: seq<Slot>, c: Cursor)
    requires HasNode(slots, c) && CountsOk(slots)
    ensures Agree(sp, slots, ReadingsAt(sp, slots, c), [c])
  {
    var s := slots[c.slot];
    NodeFactsAreReadings(sp, s, s.metrics[c.node], TotalTime(s.metrics, s.count), METRIC_COUNT);
    assert [c][1..] == [] && ReadingsAt(sp, slots, c) + [] == ReadingsAt(sp, slots, c);
    assert ReadingsOf(sp, slots, [c]) == ReadingsAt(sp, slots, c) + ReadingsOf(sp, slots, []);
  }

  lemma {:induction false} SlotReadings(sp: Spelling, slots: seq<Slot>, i: nat, total: real, j: nat)
    requires i < |slots| && CountsOk(slots) && Active(slots[i]) && j <= slots[i].count
    requires total == TotalTime(slots[i].metrics, slots[i].count)
    ensures Agree(sp, slots, RecordFacts(sp, slots[i], total, j), NodesOf(i, j))
    decreases j
  {
    if j > 0 {
      var k := j - 1;
      SlotReadings(sp, slots, i, total, k);
      OneCell(sp, slots, Cursor(i, k));
      AgreeJoined(sp, slots, RecordFacts(sp, slots[i], total, k), ReadingsAt(sp, slots, Cursor(i, k)), NodesOf(i, k),
          [Cursor(i, k)]);
    }
  }

  lemma {:induction false} SlotVisitsCells(sp: Spelling, slots: seq<Slot>, i: nat)
    requires i < |slots| && CountsOk(slots)
    ensures Agree(sp, slots, SlotFacts(sp, slots[i]), CellsOf(slots, i))
  {
    var s := slots[i];
    if Active(s) {
      var total, query := TotalTime(s.metrics, s.count), Some(Query(s.queryId, s.pid, s.text));
      OneReading(query);
      SlotReadings(sp, slots, i, total, s.count);
      AgreeJoined(sp, slots, [query], RecordFacts(sp, s, total, s.count), [], NodesOf(i, s.count));
      assert [] + NodesOf(i, s.count) == CellsOf(slots, i);
    }
  }

  lemma {:induction false} AgreeNext(sp: Spelling, slots: seq<Slot>, n: nat)
    requires n < |slots| && CountsOk(slots)
    requires Agree(sp, slots, Facts(sp, slots, n), Cells(slots, n))
    requires Agree(sp, slots, SlotFacts(sp, slots[n]), CellsOf(slots, n))
    ensures Agree(sp, slots, Facts(sp, slots, n + 1), Cells(slots, n + 1))
  {
    AgreeJoined(sp, slots, Facts(sp, slots, n), SlotFacts(sp, slots[n]), Cells(slots, n), CellsOf(slots, n));
  }

  /** The readings that a parser gets from the exposition are, in the scan's order, those of the marked cells. */
  lemma {:induction false} ExporterVisitsCells(sp: Spelling, slots: seq<Slot>, n: nat)
    requires n <= |slots| && CountsOk(slots)
    ensures Agree(sp, slots, Facts(sp, slots, n), Cells(slots, n))
    decreases n
  {
    if n > 0 {
      var m := n - 1;
      ExporterVisitsCells(sp, slots, m);
      SlotVisitsCells(sp, slots, m);
      AgreeNext(sp, slots, m);
    }
  }

  /** Both interfaces show the same nodes exactly if every record that is counted carries the magic number. */
  lemma {:induction false} SameNodesIffMarked(sp: Spelling, slots: seq<Slot>, cells: seq<Cursor>)
    requires CountsOk(slots)
    ensures |ReadingsOf(sp, slots, cells)| <= METRIC_COUNT * |cells|
    ensures |ReadingsOf(sp, slots, cells)| == METRIC_COUNT * |cells|
        <==> forall k :: 0 <= k < |cells| ==> MarkedAt(slots, cells[k])
    decreases |cells|
  {
    if cells != [] {
      SameNodesIffMarked(sp, slots, cells[1..]);
      assert forall k :: 1 <= k < |cells| ==> cells[k] == cells[1..][k - 1];
      assert METRIC_COUNT == 14;
    }
  }

  /** The column of the view that shows a metric. */
  function ColumnOf(m: Metric): (k: nat)
    ensures k < |COLUMNS| && COLUMNS[k] == m
  {
    match m
    case StartupTimeUs => 0 case TotalTimeUs => 1 case LoopsExecuted => 2 case TuplesReturned => 3
    case TimeSeconds => 4 case TimePercent => 5 case CacheHits => 6 case CacheMisses => 7
    case LocalCacheHits => 8 case LocalCacheMisses => 9 case SpillFileReads => 10 case SpillFileWrites => 11
    case RowsFilteredByJoins => 12 case RowsFilteredByExpressions => 13
  }

  /** A row's value in the column of a metric is that metric's value of the record. */
  lemma {:induction false} ColumnValue(sp: Spelling, slots: seq<Slot>, max: nat, c: Cursor, m: Metric)
    requires Roomy(slots, max) && HasNode(slots, c)
    ensures var s, row := slots[c.slot], RowAt(sp, slots, max, c);
      |row.values| == METRIC_COUNT
      && row.values[ColumnOf(m)] == NodeValue(m, s.metrics[c.node], TotalTime(s.metrics, s.count))
  {
  }

  /** The columns of a row that show times, loops and rows. */
  predicate ShowsExecution(v: seq<real>, n: NodeMetrics, total: real)
    requires |v| == 14
  {
    var e := n.execution;
    && v[0] == e.startupTimeUs && v[1] == e.totalTimeUs && v[2] == e.loopsExecuted && v[3] == e.tuplesReturned
    && v[4] * 1000000.0 == e.totalTimeUs && IsValue(TimePercent, n, total, v[5])
    && v[12] == e.rowsFilteredByJoins && v[13] == e.rowsFilteredByExpressions
  }

  /** And those that show buffer usage. */
  predicate ShowsBufferUsage(v: seq<real>, n: NodeMetrics)
    requires |v| == 14
  {
    var b := n.bufferUsage;
    && v[6] == b.cacheHits as real && v[7] == b.cacheMisses as real
    && v[8] == b.localCacheHits as real && v[9] == b.localCacheMisses as real
    && v[10] == b.spillFileReads as real && v[11] == b.spillFileWrites as real
  }

  lemma {:induction false} MadeRow(sp: Spelling, pid: int, queryId: nat, text: string, n: NodeMetrics, total: real)
    requires Moderate(n)
    ensures var time := n.execution.totalTimeUs;
      var v := MakeRow(sp, pid, queryId, text, n, Seconds(time), Percent(time, total)).values;
      |v| == 14 && ShowsExecution(v, n, total) && ShowsBufferUsage(v, n)
  {
    AsLongIs(n.bufferUsage.cacheHits);
    AsLongIs(n.bufferUsage.cacheMisses);
    AsLongIs(n.bufferUsage.localCacheHits);
    AsLongIs(n.bufferUsage.localCacheMisses);
    AsLongIs(n.bufferUsage.spillFileReads);
    AsLongIs(n.bufferUsage.spillFileWrites);
    ValueIs(TimePercent, n, total);
  }

  /** A row's columns, in the order of the view, are the record's own values, if its counters and the query's
      identifier are below 2^63. */
  lemma {:induction false} RowCarriesRecord(sp: Spelling, slots: seq<Slot>, max: nat, c: Cursor)
    requires Roomy(slots, max) && HasNode(slots, c) && Moderate(slots[c.slot].metrics[c.node])
    requires slots[c.slot].queryId < 0x8000_0000_0000_0000
    ensures var s, row := slots[c.slot], RowAt(sp, slots, max, c);
      var n := s.metrics[c.node];
      && row.pid == s.pid && row.queryId == s.queryId && row.text == s.text && row.tag == sp.tagName(n.tag)
      && |row.values| == 14 && ShowsExecution(row.values, n, TotalTime(s.metrics, s.count))
      && ShowsBufferUsage(row.values, n)
  {
    var s := slots[c.slot];
    AsLongIs(s.queryId);
    RecordStable(slots, c, 5);
    MadeRow(sp, s.pid, s.queryId, s.text, s.metrics[c.node], TotalTime(s.metrics, s.count));
  }

  /** A row and the 14 readings of the same cell carry the same values. */
  lemma {:induction false} RowCarriesReadings(sp: Spelling, slots: seq<Slot>, max: nat, c: Cursor, k: nat)
    requires Roomy(slots, max) && MarkedAt(slots, c) && k < METRIC_COUNT
    ensures var row, m := RowAt(sp, slots, max, c), METRICS[k];
      var reading := ReadingsAt(sp, slots, c)[k];
      && |row.values| == METRIC_COUNT && reading.Some? && reading.value.Reading?
      && reading.value.metric == Suffix(m) && reading.value.value == ValueText(sp, m, row.values[ColumnOf(m)])
      && row.pid == slots[c.slot].pid && row.text == slots[c.slot].text
      && row.queryId == AsLong(reading.value.queryId) && row.tag == reading.value.tag
      && row.parentId == reading.value.parentId && row.nodeId == ToI32(reading.value.nodeId % U32_SIZE)
  {
    var s, m := slots[c.slot], METRICS[k];
    var n, total := s.metrics[c.node], TotalTime(s.metrics, s.count);
    NodeFactAt(sp, s, n, total, METRIC_COUNT, k);
    ColumnValue(sp, slots, max, c, m);
    assert ReadingsAt(sp, slots, c)[k] == Some(NodeReading(sp, s, n, total, m));
  }
}
