/** The flat shared memory region: stride arithmetic against an array of slots made of areas. */
module Layout {
  import opened Basics
  import opened Slots

  /** Sizes of the region header, of a slot's fixed fields and of a node record, and the range of `Size`. */
  const HEADER_SIZE: nat := 16
  const ENTRY_SIZE: nat := 40
  const NODE_SIZE: nat := 120
  const SIZE_RANGE: nat := 0x1_0000_0000_0000_0000

  // ---- The two structures ------------------------------------------------------------------------

  /** The sizes of the fields: tag, node_id, parent_node_id, six doubles, six u64s, magic; and backend_pid,
      query_id, poll_generation, query_start_time, count_of_metrics. */
  const NODE_FIELDS: seq<nat> := [4, 4, 4, 8, 8, 8, 8, 8, 8, 8, 8, 8, 8, 8, 8, 8]
  const ENTRY_FIELDS: seq<nat> := [4, 8, 4, 8, 4]

  /** C's rule: a field starts at the first multiple of its size behind the field before it. */
  function Offset(fields: seq<nat>, k: nat): nat
    requires k < |fields| && AreSizes(fields)
  {
    if k == 0 then 0 else RoundUp(Offset(fields, k - 1) + fields[k - 1], fields[k])
  }

  predicate AreSizes(fields: seq<nat>) { forall k :: 0 <= k < |fields| ==> fields[k] in {1, 2, 4, 8} }

  function RoundUp(n: nat, m: nat): (r: nat)
    requires m in {1, 2, 4, 8}
    ensures n <= r < n + m && r % m == 0
  {
    NextMultiple(n, m);
    if n % m == 0 then n else n - n % m + m
  }

  lemma {:induction false} NextMultiple(n: nat, m: nat)
    requires m in {1, 2, 4, 8}
    ensures (n - n % m + m) % m == 0
  {
    if m == 1 {
    } else if m == 2 {
    } else if m == 4 {
    } else {
    }
  }

  /** The size is a multiple of 8, the largest alignment. */
  function StructSize(fields: seq<nat>): nat
    requires fields != [] && AreSizes(fields)
  {
    RoundUp(Offset(fields, |fields| - 1) + fields[|fields| - 1], 8)
  }

  /** Fields are aligned, follow one another without overlap, and fit. */
  lemma {:induction false} FieldsFit(fields: seq<nat>, j: nat, k: nat)
    requires AreSizes(fields) && j < k < |fields|
    ensures Offset(fields, j) % fields[j] == 0 && Offset(fields, k) % fields[k] == 0
    ensures Offset(fields, j) + fields[j] <= Offset(fields, k) && Offset(fields, k) + fields[k] <= StructSize(fields)
  {
    OffsetsGrow(fields, j, k);
    if k < |fields| - 1 {
      OffsetsGrow(fields, k, |fields| - 1);
    }
  }

  lemma {:induction false} OffsetsGrow(fields: seq<nat>, j: nat, k: nat)
    requires AreSizes(fields) && j < k < |fields|
    ensures Offset(fields, j) + fields[j] <= Offset(fields, k)
    decreases k
  {
    if j < k - 1 {
      OffsetsGrow(fields, j, k - 1);
    }
  }

  lemma {:induction false} NextOffset(fields: seq<nat>, k: nat, at: nat)
    requires AreSizes(fields) && k + 1 < |fields| && Offset(fields, k) == at
    ensures Offset(fields, k + 1) == RoundUp(at + fields[k], fields[k + 1])
  {
  }

  predicate IsNode(fields: seq<nat>) {
    && |fields| == 16 && fields[0] == fields[1] == fields[2] == 4
    && forall k :: 3 <= k < 16 ==> fields[k] == 8
  }

  /** Behind its three u32s a record has only fields of 8 bytes. */
  lemma {:induction false} NodeOffset(fields: seq<nat>, k: nat)
    requires IsNode(fields) && AreSizes(fields) && 3 <= k < 16
    ensures Offset(fields, k) == 16 + 8 * (k - 3)
    decreases k
  {
    if k == 3 {
      NextOffset(fields, 0, 0);
      NextOffset(fields, 1, 4);
      NextOffset(fields, 2, 8);
    } else {
      NodeOffset(fields, k - 1);
      NextOffset(fields, k - 1, 16 + 8 * (k - 4));
    }
  }

  lemma {:induction false} NodeSize(fields: seq<nat>)
    requires IsNode(fields) && AreSizes(fields)
    ensures StructSize(fields) == NODE_SIZE
  {
    NodeOffset(fields, 15);
  }

  lemma {:induction false} EntrySize(fields: seq<nat>)
    requires AreSizes(fields) && |fields| == 5 && fields[0] == fields[2] == fields[4] == 4
        && fields[1] == fields[3] == 8
    ensures StructSize(fields) == ENTRY_SIZE
  {
    NextOffset(fields, 0, 0);
    NextOffset(fields, 1, 8);
    NextOffset(fields, 2, 16);
    NextOffset(fields, 3, 24);
  }

  /** The sizes used below are those of the structures. */
  lemma {:induction false} SizesAreStructs()
    ensures AreSizes(NODE_FIELDS) && AreSizes(ENTRY_FIELDS)
    ensures StructSize(NODE_FIELDS) == NODE_SIZE == 120 && StructSize(ENTRY_FIELDS) == ENTRY_SIZE == 40
  {
    NodeSize(NODE_FIELDS);
    EntrySize(ENTRY_FIELDS);
  }

  datatype Sizes = Sizes(queries: nat, textLen: nat, nodes: nat)

  // ---- Size arithmetic ---------------------------------------------------------------------------

  /** The server's checked sum and product: None where it raises an error. */
  function AddSize(a: nat, b: nat): Option<nat> { if a + b < SIZE_RANGE then Some(a + b) else None }

  function MulSize(a: nat, b: nat): Option<nat> { if a * b < SIZE_RANGE then Some(a * b) else None }

  function CalcStride(z: Sizes): Option<nat> {
    var fixed := AddSize(ENTRY_SIZE, z.textLen);
    var records := MulSize(z.nodes, NODE_SIZE);
    if fixed.None? || records.None? then None else AddSize(fixed.value, records.value)
  }

  function CalcSize(z: Sizes): Option<nat> {
    var stride := CalcStride(z);
    if stride.None? then None
    else
      var slots := MulSize(z.queries, stride.value);
      if slots.None? then None else AddSize(HEADER_SIZE, slots.value)
  }

  function Stride(z: Sizes): nat { ENTRY_SIZE + z.textLen + z.nodes * NODE_SIZE }

  function TotalSize(z: Sizes): nat { HEADER_SIZE + z.queries * Stride(z) }

  /** The checked computation raises an error exactly if the stride or the region do not fit a `Size`. */
  lemma {:induction false} CalcSizeExact(z: Sizes)
    ensures CalcStride(z) == if Stride(z) < SIZE_RANGE then Some(Stride(z)) else None
    ensures CalcSize(z) == if Stride(z) < SIZE_RANGE && TotalSize(z) < SIZE_RANGE then Some(TotalSize(z)) else None
  {
  }

  // ---- Areas -------------------------------------------------------------------------------------

  /** The parts of a slot: its fixed fields, its query text, and its node records. */
  datatype Area = Fields | Text | Node(index: nat)

  predicate IsArea(z: Sizes, a: Area) { a.Node? ==> a.index < z.nodes }

  function AreaSize(z: Sizes, a: Area): nat {
    match a case Fields => ENTRY_SIZE case Text => z.textLen case Node(_) => NODE_SIZE
  }

  /** PWH_GET_BACKEND_ENTRY_UNSAFE, and the two accessors that add to it. */
  function EntryAddress(z: Sizes, slot: nat): nat { HEADER_SIZE + slot * Stride(z) }

  function TextAddress(entry: nat): nat { entry + ENTRY_SIZE }

  function MetricsAddress(z: Sizes, entry: nat): nat { entry + ENTRY_SIZE + z.textLen }

  function AreaAddress(z: Sizes, slot: nat, a: Area): nat {
    var entry := EntryAddress(z, slot);
    match a
    case Fields => entry
    case Text => TextAddress(entry)
    case Node(j) => MetricsAddress(z, entry) + j * NODE_SIZE
  }

  lemma {:induction false} Product(a: nat, b: nat, m: nat)
    requires a < b
    ensures a * m + m <= b * m
    decreases b
  {
    assert b * m == (b - 1) * m + m;
    if a < b - 1 {
      Product(a, b - 1, m);
    }
  }

  /** An area lies inside its slot's stride, and the slot inside the region behind the header. */
  lemma {:induction false} AreaInside(z: Sizes, slot: nat, a: Area)
    requires slot < z.queries && IsArea(z, a)
    ensures EntryAddress(z, slot) <= AreaAddress(z, slot, a)
    ensures AreaAddress(z, slot, a) + AreaSize(z, a) <= EntryAddress(z, slot) + Stride(z) <= TotalSize(z)
  {
    Product(slot, z.queries, Stride(z));
    if a.Node? {
      Product(a.index, z.nodes, NODE_SIZE);
    }
  }

  /** Different areas of one slot, and areas of different slots, do not overlap. */
  lemma {:induction false} AreasDisjoint(z: Sizes, s: nat, a: Area, t: nat, b: Area)
    requires s < z.queries && t < z.queries && IsArea(z, a) && IsArea(z, b) && (s, a) != (t, b)
    ensures AreaAddress(z, s, a) + AreaSize(z, a) <= AreaAddress(z, t, b)
         || AreaAddress(z, t, b) + AreaSize(z, b) <= AreaAddress(z, s, a)
  {
    AreaInside(z, s, a);
    AreaInside(z, t, b);
    if s < t {
      Product(s, t, Stride(z));
    } else if t < s {
      Product(t, s, Stride(z));
    } else if a.Node? && b.Node? {
      if a.index < b.index {
        Product(a.index, b.index, NODE_SIZE);
      } else {
        Product(b.index, a.index, NODE_SIZE);
      }
    }
  }

  // ---- Addresses and places ----------------------------------------------------------------------

  /** A byte of the region. */
  datatype Place = InHeader(byte: nat) | InSlot(slot: nat, area: Area, byte: nat)

  predicate IsPlace(z: Sizes, p: Place) {
    match p
    case InHeader(b) => b < HEADER_SIZE
    case InSlot(s, a, b) => s < z.queries && IsArea(z, a) && b < AreaSize(z, a)
  }

  function AddressOf(z: Sizes, p: Place): nat {
    match p case InHeader(b) => b case InSlot(s, a, b) => AreaAddress(z, s, a) + b
  }

  function PlaceOf(z: Sizes, address: nat): Place {
    if address < HEADER_SIZE then InHeader(address)
    else
      var slot, rest := (address - HEADER_SIZE) / Stride(z), (address - HEADER_SIZE) % Stride(z);
      if rest < ENTRY_SIZE then InSlot(slot, Fields, rest)
      else if rest < ENTRY_SIZE + z.textLen then InSlot(slot, Text, rest - ENTRY_SIZE)
      else
        var record := rest - ENTRY_SIZE - z.textLen;
        InSlot(slot, Node(record / NODE_SIZE), record % NODE_SIZE)
  }

  lemma {:induction false} QuotientBelow(q: nat, n: nat, m: nat, r: nat)
    requires q * m + r < n * m
    ensures q < n
  {
    if q > n {
      Product(n, q, m);
    }
  }

  /** Every byte of the region belongs to a place. */
  lemma {:induction false} PlaceOfAddress(z: Sizes, address: nat)
    requires address < TotalSize(z)
    ensures IsPlace(z, PlaceOf(z, address)) && AddressOf(z, PlaceOf(z, address)) == address
  {
    if address >= HEADER_SIZE {
      var m := Stride(z);
      var slot, rest := (address - HEADER_SIZE) / m, (address - HEADER_SIZE) % m;
      assert slot * m + rest == address - HEADER_SIZE;
      QuotientBelow(slot, z.queries, m, rest);
      if rest >= ENTRY_SIZE + z.textLen {
        var record := rest - ENTRY_SIZE - z.textLen;
        QuotientBelow(record / NODE_SIZE, z.nodes, NODE_SIZE, record % NODE_SIZE);
      }
    }
  }

  /** And to one place only: the address arithmetic is a bijection between the places and the bytes. */
  lemma {:induction false} AddressOfPlace(z: Sizes, p: Place)
    requires IsPlace(z, p)
    ensures AddressOf(z, p) < TotalSize(z) && PlaceOf(z, AddressOf(z, p)) == p
  {
    var address := AddressOf(z, p);
    if p.InSlot? {
      AreaInside(z, p.slot, p.area);
    }
    PlaceOfAddress(z, address);
    var q := PlaceOf(z, address);
    if p.InSlot? && q.InSlot? && (p.slot, p.area) != (q.slot, q.area) {
      AreasDisjoint(z, p.slot, p.area, q.slot, q.area);
    }
  }

  /** All node records start at multiples of 8, as their doubles and u64s want, if and only if the configured
      text length is one. */
  lemma {:induction false} NodesAlignedIff(z: Sizes)
    requires z.queries > 0 && z.nodes > 0
    ensures (forall s, j :: 0 <= s < z.queries && 0 <= j < z.nodes ==> AreaAddress(z, s, Node(j)) % 8 == 0)
        <==> z.textLen % 8 == 0
  {
    if z.textLen % 8 == 0 {
      forall s, j | 0 <= s < z.queries && 0 <= j < z.nodes ensures AreaAddress(z, s, Node(j)) % 8 == 0 {
        var k := StridesInEights(z, s);
        var eights := 7 + k + z.textLen / 8 + 15 * j;
        assert AreaAddress(z, s, Node(j)) == 8 * eights;
        Eights(eights);
      }
    } else {
      assert AreaAddress(z, 0, Node(0)) == 56 + z.textLen;
    }
  }

  lemma {:induction false} Eights(k: nat)
    ensures (8 * k) % 8 == 0
  {
  }

  lemma {:induction false} StridesInEights(z: Sizes, s: nat) returns (k: nat)
    requires z.textLen % 8 == 0
    ensures s * Stride(z) == 8 * k
  {
    if s == 0 {
      k := 0;
    } else {
      var before := StridesInEights(z, s - 1);
      k := before + 5 + z.textLen / 8 + 15 * z.nodes;
      assert s * Stride(z) == (s - 1) * Stride(z) + Stride(z);
    }
  }

  lemma {:induction false} MisalignedLength()
    ensures exists z: Sizes ::
      64 <= z.textLen <= 8192 && z.queries > 0 && z.nodes > 0 && AreaAddress(z, 0, Node(0)) % 8 != 0
  {
    assert AreaAddress(Sizes(32, 100, 128), 0, Node(0)) % 8 == 4;
  }

  // ---- The region --------------------------------------------------------------------------------

  /** The `n` bytes from byte `at` of an area are those places and no others. */
  predicate InPart(p: Place, slot: nat, a: Area, at: nat, n: nat) {
    p.InSlot? && p.slot == slot && p.area == a && at <= p.byte < at + n
  }

  lemma {:induction false} PartIsInterval(z: Sizes, p: Place, slot: nat, a: Area, at: nat, n: nat)
    requires IsPlace(z, p) && slot < z.queries && IsArea(z, a) && at + n <= AreaSize(z, a)
    ensures AddressOf(z, p) < TotalSize(z)
    ensures AreaAddress(z, slot, a) + at <= AddressOf(z, p) < AreaAddress(z, slot, a) + at + n
        <==> InPart(p, slot, a, at, n)
  {
    AddressOfPlace(z, p);
    AreaInside(z, slot, a);
    if p.InSlot? && (p.slot, p.area) != (slot, a) {
      AreasDisjoint(z, p.slot, p.area, slot, a);
    }
  }

  /** What stands in front of the first NUL. */
  function CString(s: seq<bv8>): seq<bv8>
    decreases |s|
  {
    if s == [] || s[0] == 0 then [] else [s[0]] + CString(s[1..])
  }

  lemma {:induction false} CStringEnds(t: seq<bv8>, rest: seq<bv8>)
    requires 0 !in t
    ensures CString(t + [0] + rest) == t
    decreases |t|
  {
    if t != [] {
      assert (t + [0] + rest)[1..] == t[1..] + [0] + rest;
      CStringEnds(t[1..], rest);
    }
  }

  function Encoded(byte: char -> bv8, s: string): (bs: seq<bv8>)
    ensures |bs| == |s|
  {
    seq(|s|, i requires 0 <= i < |s| => byte(s[i]))
  }

  lemma {:induction false} EncodedCut(byte: char -> bv8, s: string, n: nat)
    ensures Encoded(byte, Cut(s, n)) == Cut(Encoded(byte, s), n)
  {
  }

  class Region {
    const sizes: Sizes
    const bytes: array<bv8>

    ghost predicate Valid() {
      bytes.Length == TotalSize(sizes)
    }

    function ByteAt(p: Place): bv8
      requires Valid() && IsPlace(sizes, p)
      reads bytes
    {
      AddressOfPlace(sizes, p);
      bytes[AddressOf(sizes, p)]
    }

    function Contents(slot: nat, a: Area): (s: seq<bv8>)
      requires Valid() && slot < sizes.queries && IsArea(sizes, a)
      reads bytes
      ensures |s| == AreaSize(sizes, a)
      ensures forall b :: 0 <= b < |s| ==> s[b] == ByteAt(InSlot(slot, a, b))
    {
      AreaInside(sizes, slot, a);
      bytes[AreaAddress(sizes, slot, a)..AreaAddress(sizes, slot, a) + AreaSize(sizes, a)]
    }

    constructor (z: Sizes)
      ensures Valid() && sizes == z && fresh(bytes)
    {
      sizes := z;
      bytes := new bv8[TotalSize(z)];
    }

    method Put(from: nat, data: seq<bv8>)
      requires from + |data| <= bytes.Length
      modifies bytes
      ensures forall k :: 0 <= k < bytes.Length ==>
        bytes[k] == if from <= k < from + |data| then data[k - from] else old(bytes[k])
    {
      for i := 0 to |data|
        invariant forall k :: 0 <= k < bytes.Length ==>
          bytes[k] == if from <= k < from + i then data[k - from] else old(bytes[k])
      {
        bytes[from + i] := data[i];
      }
    }

    /** A write through the address of one area reaches exactly the bytes it names: every other area of every
        slot, the rest of this one and the header keep theirs. */
    method Write(slot: nat, a: Area, at: nat, data: seq<bv8>)
      requires Valid() && slot < sizes.queries && IsArea(sizes, a) && at + |data| <= AreaSize(sizes, a)
      modifies bytes
      ensures forall p :: IsPlace(sizes, p) ==>
        ByteAt(p) == if InPart(p, slot, a, at, |data|) then data[p.byte - at] else old(ByteAt(p))
    {
      AreaInside(sizes, slot, a);
      Put(AreaAddress(sizes, slot, a) + at, data);
      forall p | IsPlace(sizes, p)
        ensures ByteAt(p) == if InPart(p, slot, a, at, |data|) then data[p.byte - at] else old(ByteAt(p))
      {
        PartIsInterval(sizes, p, slot, a, at, |data|);
      }
    }

    /** snprintf of a query's text into the slot: at most one byte less than the area, and a NUL. */
    method StoreText(slot: nat, text: seq<bv8>)
      requires Valid() && slot < sizes.queries && sizes.textLen > 0 && 0 !in text
      modifies bytes
      ensures CString(Contents(slot, Text)) == Cut(text, sizes.textLen - 1)
      ensures forall p :: IsPlace(sizes, p) && !(p.InSlot? && p.slot == slot && p.area == Text) ==>
          ByteAt(p) == old(ByteAt(p))
    {
      var kept := Cut(text, sizes.textLen - 1);
      var data := kept + [0];
      Write(slot, Text, 0, data);
      ghost var now := Contents(slot, Text);
      assert forall b :: 0 <= b < |data| ==> now[b] == ByteAt(InSlot(slot, Text, b)) == data[b];
      assert now == kept + [0] + now[|data|..];
      CStringEnds(kept, now[|data|..]);
    }

    /** The text area after a start, for any encoding of characters as bytes other than NUL: it holds, as a C
        string, the text that the slot shows. */
    method StoreQueryText(slot: nat, q: QueryDesc, byte: char -> bv8)
      requires Valid() && slot < sizes.queries && sizes.textLen > 0 && forall c :: byte(c) != 0
      modifies bytes
      ensures CString(Contents(slot, Text)) == Encoded(byte, StoredText(q, sizes.textLen))
      ensures forall p :: IsPlace(sizes, p) && !(p.InSlot? && p.slot == slot && p.area == Text) ==>
          ByteAt(p) == old(ByteAt(p))
    {
      var text := match q.sourceText case None => "" case Some(t) => t;
      StoreText(slot, Encoded(byte, text));
      EncodedCut(byte, text, sizes.textLen - 1);
    }

    /** The startup hook: a region that was not found is zeroed slot by slot, which reaches every byte behind
        the header; a region found keeps everything. */
    method Startup(found: bool)
      requires Valid()
      modifies bytes
      ensures forall p :: IsPlace(sizes, p) ==> ByteAt(p) == if !found && p.InSlot? then 0 else old(ByteAt(p))
    {
      if !found {
        for i := 0 to sizes.queries
          invariant EntryAddress(sizes, i) <= bytes.Length
          invariant forall k :: 0 <= k < bytes.Length ==>
            bytes[k] == if HEADER_SIZE <= k < EntryAddress(sizes, i) then 0 else old(bytes[k])
        {
          Product(i, sizes.queries, Stride(sizes));
          assert EntryAddress(sizes, i + 1) == EntryAddress(sizes, i) + Stride(sizes);
          Put(EntryAddress(sizes, i), seq(Stride(sizes), _ => 0));
        }
      }
      forall p | IsPlace(sizes, p) ensures ByteAt(p) == if !found && p.InSlot? then 0 else old(ByteAt(p)) {
        AddressOfPlace(sizes, p);
        if p.InSlot? {
          AreaInside(sizes, p.slot, p.area);
        }
      }
    }
  }
}
