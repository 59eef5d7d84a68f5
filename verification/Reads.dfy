/** Memory as the two interfaces read it: without a snapshot, every single read at a moment of its own. */
module Reads {
  import opened NodeWrites
  import opened Slots

  datatype Cursor = Cursor(slot: nat, node: nat)

  /** What a reader sees in one stretch of reads: slot `i` at tick `t` is `memory(t, i)`,
      and each read is a tick of its own. */
  type Memory = (nat, nat) -> Slot

  function Still(slots: seq<Slot>): Memory { (_: nat, i: nat) => if i < |slots| then slots[i] else Blank(0) }

  /** At every tick the first `n` slots have room for `max` records, and none counts more. */
  ghost predicate Sound(memory: Memory, n: nat, max: nat) {
    forall t: nat, i: nat :: i < n ==> memory(t, i).count <= |memory(t, i).metrics| == max
  }

  predicate Roomy(slots: seq<Slot>, max: nat) {
    forall i :: 0 <= i < |slots| ==> slots[i].count <= |slots[i].metrics| == max
  }

  predicate HasNode(slots: seq<Slot>, c: Cursor) {
    c.slot < |slots| && Active(slots[c.slot]) && c.node < slots[c.slot].count
  }

  /** The record at `c` as tick `t` shows it; in sound memory every slot has a record for each node. */
  function NodeAt(memory: Memory, t: nat, c: Cursor): NodeMetrics {
    var ms := memory(t, c.slot).metrics;
    if c.node < |ms| then ms[c.node] else ZEROED
  }
}
