/** A run in which a backend loses its slot to a second claimer, its query ends unnoticed, and the next tracked
    start shows its pid to pollers while the current query is still the one that is gone. */
module LostQuery {
  import opened Basics
  import opened Plans
  import opened NodeWrites
  import opened Slots
  import opened Interleaving
  import opened ClaimSafety
  import opened Publication

  datatype History = History(run: seq<World>, acts: seq<Act>)

  /** No subtransaction is ever aborted. */
  ghost predicate Plain(t: History, n: nat, max: nat) {
    IsTrace(t.run, t.acts, n, max) && forall i :: 0 <= i < |t.acts| ==> !t.acts[i].SubAbort?
  }

  function Last(t: History): World
    requires t.run != []
  {
    t.run[|t.run| - 1]
  }

  lemma {:induction false} LastReady(t: History, n: nat, max: nat)
    requires Plain(t, n, max)
    ensures Ready(Last(t), max) && TableInv(Last(t).table, max)
  {
    TraceInv(t.run, t.acts, n, max, 0, |t.acts|);
  }

  lemma {:induction false} Then(t: History, n: nat, max: nat, a: Act) returns (t': History)
    requires Plain(t, n, max) && Can(Last(t), a, max) && !a.SubAbort?
    ensures Ready(Last(t), max)
    ensures Plain(t', n, max) && Last(t') == Go(Last(t), a, max)
  {
    LastReady(t, n, max);
    t' := History(t.run + [Go(Last(t), a, max)], t.acts + [a]);
    forall i | 0 <= i < |t'.acts| ensures Leads(t'.run, t'.acts, i, max) {
      if i < |t.acts| {
        assert Leads(t.run, t.acts, i, max);
        assert t'.run[i] == t.run[i] && t'.run[i + 1] == t.run[i + 1] && t'.acts[i] == t.acts[i];
      }
    }
  }

  function WithPc(w: World, p: int, pc: Pc): World { w.(table := PutPc(w.table, p, pc)) }

  predicate Alone(w: World, p: int) { p != 0 && p in w.table.procs && p in w.backends && p !in w.table.handlers }

  lemma {:induction false} ScanOne(t: History, n: nat, max: nat, p: int, job: Job, next: nat, free: Option<nat>)
    returns (t': History)
    requires Plain(t, n, max) && Alone(Last(t), p) && Last(t).table.procs[p] == Scanning(job, next, free)
    requires next < |Last(t).table.slots| && Last(t).table.slots[next].pid != p
    ensures var w := Last(t);
      Plain(t', n, max)
      && Last(t') == WithPc(w, p, Scanning(job, next + 1,
           if free.None? && w.table.slots[next].pid == 0 then Some(next) else free))
  {
    t' := Then(t, n, max, Access(Move(p)));
    assert Last(t).backends[p := Last(t).backends[p]] == Last(t).backends;
  }

  /** A scan that finds no slot of its own runs to the end of the table. */
  lemma {:induction false} ScanToEnd(t: History, n: nat, max: nat, p: int, job: Job, next: nat, free: Option<nat>)
    returns (t': History)
    requires Plain(t, n, max) && Alone(Last(t), p) && Last(t).table.procs[p] == Scanning(job, next, free)
    requires next <= |Last(t).table.slots| && FindPid(Last(t).table.slots, p).None?
    ensures var w := Last(t);
      Plain(t', n, max)
      && Last(t') == WithPc(w, p, Scanning(job, |w.table.slots|, FirstFree(w.table.slots, next, free)))
    decreases |Last(t).table.slots| - next
  {
    var w := Last(t);
    if next == |w.table.slots| {
      t' := t;
      assert w.table.procs[p := w.table.procs[p]] == w.table.procs;
    } else {
      var free' := if free.None? && w.table.slots[next].pid == 0 then Some(next) else free;
      var one := ScanOne(t, n, max, p, job, next, free);
      t' := ScanToEnd(one, n, max, p, job, next + 1, free');
    }
  }

  /** All of the table but its records and counts. */
  predicate SamePids(a: seq<Slot>, b: seq<Slot>) {
    |a| == |b| && forall i :: 0 <= i < |a| ==> a[i].pid == b[i].pid
  }

  /** `b` differs from `a` in records and counts, and in that `p` is at `pc`. */
  predicate Continued(a: World, b: World, p: int, pc: Pc) {
    && SamePids(a.table.slots, b.table.slots) && b.backends == a.backends
    && b.table.procs == a.table.procs[p := pc] && b.table.handlers == a.table.handlers
  }

  lemma {:induction false} StoreToEnd(
      t: History, n: nat, max: nat, p: int, slot: nat, ws: seq<Write>, done: nat, e: Ending)
    returns (t': History)
    requires Plain(t, n, max) && Alone(Last(t), p) && Last(t).table.procs[p] == Storing(slot, ws, done, e)
    requires done <= |ws|
    ensures Plain(t', n, max) && Continued(Last(t), Last(t'), p, Storing(slot, ws, |ws|, e))
    decreases |ws| - done
  {
    var w := Last(t);
    if done == |ws| {
      t' := t;
      assert w.table.procs[p := w.table.procs[p]] == w.table.procs;
    } else {
      var one := Then(t, n, max, Access(Move(p)));
      assert w.backends[p := w.backends[p]] == w.backends;
      assert Continued(w, Last(one), p, Storing(slot, ws, done + 1, e));
      t' := StoreToEnd(one, n, max, p, slot, ws, done + 1, e);
    }
  }

  /** Behind the end of its scan a process chooses the free slot, and with its next access claims it. */
  lemma {:induction false} Chooses(t: History, n: nat, max: nat, p: int, job: Job, slot: nat) returns (t': History)
    requires Plain(t, n, max) && Alone(Last(t), p) && job.Track?
    requires Last(t).table.procs[p] == Scanning(job, |Last(t).table.slots|, Some(slot))
    ensures Plain(t', n, max) && Last(t') == WithPc(Last(t), p, Claiming(job, slot))
  {
    t' := Then(t, n, max, Access(Move(p)));
    assert Last(t).backends[p := Last(t).backends[p]] == Last(t).backends;
  }

  lemma {:induction false} Claims(t: History, n: nat, max: nat, p: int, job: Job, slot: nat) returns (t': History)
    requires Plain(t, n, max) && Alone(Last(t), p) && Last(t).table.procs[p] == Claiming(job, slot)
    ensures JobOk(job, max) && Plain(t', n, max)
    ensures var w := WithPc(Last(t), p, StartJob(slot, job, max));
      && slot < |w.table.slots|
      && Last(t') == w.(table := PutSlot(w.table, slot, w.table.slots[slot].(pid := p)))
  {
    LastReady(t, n, max);
    assert PcOk(Last(t).table.procs[p], max) && PcShapes(Last(t).table.procs[p], Last(t).table.slots, max);
    t' := Then(t, n, max, Access(Move(p)));
    assert Last(t).backends[p := Last(t).backends[p]] == Last(t).backends;
  }

  const STARTED := Private(None, {0}, Some(0), true, true, false)
  const PUBLISHED := Private(Some(0), {0}, None, true, true, false)
  const DANGLING := Private(Some(0), {}, None, true, true, false)


  lemma {:induction false} BothScanned(p: int, q: int, h: Heap, r: Ref, n: nat, max: nat) returns (t: History)
    requires p != 0 && q != 0 && p != q && JobOk(Track(h, r), max) && n > 0
    ensures Plain(t, n, max)
    ensures var seen := Scanning(Track(h, r), n, Some(0));
      Last(t) == World(Table(BlankTable(n, max), map[p := seen, q := seen], map[], Resting),
          map[p := STARTED, q := STARTED])
  {
    var job, plan := Track(h, r), Some((h, r));
    t := History([Initial(n, max)], []);
    BlankScan(n, max, p);
    BlankScan(n, max, q);
    var none: set<nat> := {};
    assert none + {0} == {0};
    t := Then(t, n, max, Access(Spawn(p)));
    t := Then(t, n, max, Start(p, 0, plan));
    assert Last(t).backends == map[p := STARTED];
    t := ScanToEnd(t, n, max, p, job, 0, None);
    t := Then(t, n, max, Access(Spawn(q)));
    t := Then(t, n, max, Start(q, 0, plan));
    assert Last(t).backends == map[p := STARTED, q := STARTED];
    t := ScanToEnd(t, n, max, q, job, 0, None);
    assert Last(t).table.procs == map[p := Scanning(job, n, Some(0)), q := Scanning(job, n, Some(0))];
  }

  /** Slot 0 is labelled by `q`, and the others are free. */
  predicate Taken(slots: seq<Slot>, n: nat, q: int) {
    |slots| == n && forall i :: 0 <= i < n ==> slots[i].pid == if i == 0 then q else 0
  }

  lemma {:induction false} BothClaimed(p: int, q: int, h: Heap, r: Ref, n: nat, max: nat) returns (t: History)
    requires p != 0 && q != 0 && p != q && JobOk(Track(h, r), max) && n > 0
    ensures Plain(t, n, max)
    ensures var w, job := Last(t), Track(h, r);
      && Taken(w.table.slots, n, q) && w.table.handlers == map[] && Alone(w, p)
      && w.table.procs[p] == StartJob(0, job, max) && w.backends[p] == STARTED
  {
    var job := Track(h, r);
    t := BothScanned(p, q, h, r, n, max);
    t := Chooses(t, n, max, p, job, 0);
    t := Chooses(t, n, max, q, job, 0);
    t := Claims(t, n, max, p, job, 0);
    t := Claims(t, n, max, q, job, 0);
  }

  /** The loser does not notice: it stores its plan into the other's slot and publishes its query. */
  lemma {:induction false} LoserPublishes(p: int, q: int, h: Heap, r: Ref, n: nat, max: nat) returns (t: History)
    requires p != 0 && q != 0 && p != q && JobOk(Track(h, r), max) && n > 0
    ensures Plain(t, n, max)
    ensures var w := Last(t); Taken(w.table.slots, n, q) && Calm(w, p) && w.backends[p] == PUBLISHED
  {
    var job := Track(h, r);
    t := BothClaimed(p, q, h, r, n, max);
    var Storing(slot, ws, done, e) := StartJob(0, job, max);
    t := StoreToEnd(t, n, max, p, slot, ws, done, e);
    t := Then(t, n, max, Access(Move(p)));
    t := Then(t, n, max, Access(Move(p)));
    t := Then(t, n, max, Access(Move(p)));
  }

  /** Its query ends, the end hook finds no slot, and the current query is one that is gone. */
  lemma {:induction false} LoserEnds(p: int, q: int, h: Heap, r: Ref, n: nat, max: nat) returns (t: History)
    requires p != 0 && q != 0 && p != q && JobOk(Track(h, r), max) && n > 0
    ensures Plain(t, n, max)
    ensures var w := Last(t); Taken(w.table.slots, n, q) && Calm(w, p) && w.backends[p] == DANGLING && Dangles(w, p)
  {
    t := LoserPublishes(p, q, h, r, n, max);
    t := Then(t, n, max, End(p, 0, []));
    Found(Last(t).table.slots, p);
    t := ScanToEnd(t, n, max, p, Finish([]), 0, None);
    t := Then(t, n, max, Access(Move(p)));
  }

  lemma {:induction false} TakenFree(slots: seq<Slot>, n: nat, p: int, q: int)
    requires Taken(slots, n, q) && n > 1 && p != q && p != 0 && q != 0
    ensures FindPid(slots, p).None? && FirstFree(slots, 0, None) == Some(1)
  {
    Found(slots, p);
    assert FirstFree(slots, 0, None) == FirstFree(slots, 1, None) == Some(1);
  }

  /** A tracked start of a process that dangles, up to the store of its pid. */
  lemma {:induction false} StartsAgain(
      t: History, n: nat, max: nat, p: int, q: int, h: Heap, r: Ref) returns (t': History)
    requires Plain(t, n, max) && JobOk(Track(h, r), max) && n > 1 && p != q && p != 0 && q != 0
    requires Taken(Last(t).table.slots, n, q) && Calm(Last(t), p) && Last(t).backends[p] == DANGLING
    ensures Plain(t', n, max) && Alone(Last(t'), p) && Last(t').table.procs[p] == Claiming(Track(h, r), 1)
    ensures Last(t').backends[p] == DANGLING.(alive := {1}, hook := Some(1)) && Taken(Last(t').table.slots, n, q)
  {
    TakenFree(Last(t).table.slots, n, p, q);
    t' := Then(t, n, max, Start(p, 1, Some((h, r))));
    t' := ScanToEnd(t', n, max, p, Track(h, r), 0, None);
    t' := Chooses(t', n, max, p, Track(h, r), 1);
  }

  /** The next tracked start stores the pid before it sets the current query, so that a poller signals a backend
      whose handler would follow the pointer. No subtransaction has been aborted in this run. */
  lemma {:induction false} LostSlotDangles(p: int, q: int, h: Heap, r: Ref, n: nat, max: nat) returns (t: History)
    requires p != 0 && q != 0 && p != q && JobOk(Track(h, r), max) && n > 1
    ensures Plain(t, n, max)
    ensures var w := Last(t); Dangles(w, p) && FindPid(w.table.slots, p) == Some(1) && p !in w.table.handlers
  {
    t := LoserEnds(p, q, h, r, n, max);
    t := StartsAgain(t, n, max, p, q, h, r);
    t := Claims(t, n, max, p, Track(h, r), 1);
    assert Last(t).table.slots[1].pid == p && forall i :: 0 <= i < n && i != 1 ==> Last(t).table.slots[i].pid != p;
  }
}
