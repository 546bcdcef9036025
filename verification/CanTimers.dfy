/**
 The timers of a CAN network interface: a heap ordered by deadline, processed when
 the network time advances.  Times are nanoseconds; callbacks leave timers alone.
 */
module CanTimers {
  import opened Options
  import opened Arith

  type Id = nat

  /** A queued timer: its next deadline, and its period or zero for a one-shot. */
  datatype Timer = Timer(start: int, interval: nat)

  /** One invocation of a timer's callback and the deadline it was due at. */
  datatype Firing = Firing(id: Id, due: int)

  type Heap = map<Id, Timer>

  // ------------------------------------------------------------------ specification

  /** How often a timer fires when the time reaches t. */
  function Fires(tm: Timer, t: int): nat {
    if tm.start > t then 0 else if tm.interval == 0 then 1 else (t - tm.start) / tm.interval + 1
  }

  function Count(f: seq<Firing>, id: Id): nat {
    if f == [] then 0 else Count(f[..|f| - 1], id) + if f[|f| - 1].id == id then 1 else 0
  }

  predicate Minimal(h: Heap, id: Id) { id in h && forall j | j in h :: h[id].start <= h[j].start }

  predicate NextOk(h: Heap, next: int) { h != map[] ==> exists id | id in h :: Minimal(h, id) && next == h[id].start }

  /** The heap after every timer of h has fired as often as Count says. */
  predicate Advanced(h: Heap, f: seq<Firing>, h': Heap) {
    && (forall id | id in h' :: id in h)
    && (forall id | id in h && h[id].interval > 0 ::
          id in h' && h'[id] == Timer(h[id].start + Count(f, id) * h[id].interval, h[id].interval))
    && (forall id | id in h && h[id].interval == 0 ::
          Count(f, id) <= 1 && (id in h' <==> Count(f, id) == 0) && (id in h' ==> h'[id] == h[id]))
  }

  /** Every firing is of a timer of h, at its next deadline in turn, and none after t. */
  predicate InTurn(h: Heap, f: seq<Firing>, t: int) {
    forall k | 0 <= k < |f| ::
      f[k].id in h && f[k].due == h[f[k].id].start + Count(f[..k], f[k].id) * h[f[k].id].interval && f[k].due <= t
  }

  predicate Ordered(f: seq<Firing>) { forall j, k | 0 <= j < k < |f| :: f[j].due <= f[k].due }

  /** What advancing the time to t must do. */
  predicate Processed(h: Heap, t: int, f: seq<Firing>, h': Heap) {
    && (forall id | id in h :: Count(f, id) == Fires(h[id], t))
    && Advanced(h, f, h') && InTurn(h, f, t) && Ordered(f)
    && (forall id | id in h' :: h'[id].start > t)
  }

  // ------------------------------------------------------------------------- lemmas

  lemma CountSnoc(f: seq<Firing>, x: Firing, id: Id)
    ensures Count(f + [x], id) == Count(f, id) + if x.id == id then 1 else 0
  {
    assert (f + [x])[..|f|] == f;
  }

  lemma {:induction false} MinimalExists(h: Heap, ids: set<Id>) returns (id: Id)
    requires ids <= h.Keys && ids != {}
    ensures id in ids && forall j | j in ids :: h[id].start <= h[j].start
    decreases |ids|
  {
    var x :| x in ids;
    var rest := ids - {x};
    if rest == {} {
      assert ids == {x};
      id := x;
    } else {
      var y := MinimalExists(h, rest);
      id := if h[x].start <= h[y].start then x else y;
      forall j | j in ids ensures h[id].start <= h[j].start { if j != x { assert j in rest; } }
    }
  }

  /** The heap's first node. */
  method First(h: Heap) returns (id: Id)
    requires h != map[]
    ensures Minimal(h, id)
  {
    ghost var m := MinimalExists(h, h.Keys);
    assert Minimal(h, m);
    id :| id in h.Keys && forall j | j in h.Keys :: h[id].start <= h[j].start;
  }

  /** Firings still to come, summed over a list of timers. */
  function Pending(ids: seq<Id>, h: Heap, t: int): nat {
    if ids == [] then 0 else Pending(ids[1..], h, t) + if ids[0] in h then Fires(h[ids[0]], t) else 0
  }

  predicate Lists(ids: seq<Id>, h: Heap) {
    && (forall i, j | 0 <= i < j < |ids| :: ids[i] != ids[j])
    && (forall id | id in h :: id in ids)
  }

  lemma {:induction false} PendingSame(ids: seq<Id>, h: Heap, h': Heap, t: int)
    requires forall k | 0 <= k < |ids| :: (ids[k] in h <==> ids[k] in h') && (ids[k] in h ==> h[ids[k]] == h'[ids[k]])
    ensures Pending(ids, h, t) == Pending(ids, h', t)
    decreases |ids|
  {
    if ids != [] {
      forall k | 0 <= k < |ids[1..]|
        ensures (ids[1..][k] in h <==> ids[1..][k] in h') && (ids[1..][k] in h ==> h[ids[1..][k]] == h'[ids[1..][k]])
      {
        assert ids[1..][k] == ids[k + 1];
      }
      PendingSame(ids[1..], h, h', t);
    }
  }

  /** Firing one timer leaves one firing less to come. */
  lemma {:induction false} PendingLess(ids: seq<Id>, h: Heap, h': Heap, id: Id, t: int)
    requires forall i, j | 0 <= i < j < |ids| :: ids[i] != ids[j]
    requires id in ids && id in h && Fires(h[id], t) > 0
    requires forall x | x != id :: (x in h <==> x in h') && (x in h ==> h[x] == h'[x])
    requires if id in h' then Fires(h'[id], t) == Fires(h[id], t) - 1 else Fires(h[id], t) == 1
    ensures Pending(ids, h', t) == Pending(ids, h, t) - 1
    decreases |ids|
  {
    if ids[0] == id {
      forall k | 0 <= k < |ids[1..]| ensures ids[1..][k] != id { assert ids[1..][k] == ids[k + 1]; }
      PendingSame(ids[1..], h, h', t);
    } else {
      PendingLess(ids[1..], h, h', id, t);
    }
  }

  lemma {:induction false} Enumerate(s: set<Id>) returns (ids: seq<Id>)
    ensures forall i, j | 0 <= i < j < |ids| :: ids[i] != ids[j]
    ensures forall x :: x in ids <==> x in s
    decreases |s|
  {
    if s == {} {
      ids := [];
    } else {
      var x :| x in s;
      var rest := Enumerate(s - {x});
      ids := [x] + rest;
    }
  }

  lemma FiresNext(tm: Timer, t: int)
    requires tm.start <= t && tm.interval > 0
    ensures Fires(tm.(start := tm.start + tm.interval), t) == Fires(tm, t) - 1
  {
    var a, n := t - tm.start, tm.interval;
    if a < n {
      assert a / n == 0;
    } else {
      assert a == n + (a - n);
      DivStep(a - n, n);
    }
  }

  lemma DivStep(x: nat, n: nat)
    requires n > 0
    ensures (x + n) / n == x / n + 1
  {
    var q := x / n;
    assert x + n == n * (q + 1) + x % n;
    DivMod(n, q + 1, x % n);
  }

  /** The count is exact once the next deadline is after t and the last one was not. */
  lemma CountExact(tm: Timer, t: int, c: nat)
    requires tm.interval > 0 && tm.start + c * tm.interval > t && (c > 0 ==> tm.start + (c - 1) * tm.interval <= t)
    ensures c == Fires(tm, t)
  {
    var n := tm.interval;
    if c > 0 {
      MulMono(n, 0, c - 1);
      assert n * (c - 1) == (c - 1) * n;
      assert c * n == (c - 1) * n + n;
      DivMod(n, c - 1, t - tm.start - (c - 1) * n);
    }
  }

  // --------------------------------------------------------------------------- class

  class Net {
    var time: int
    var next: int
    var heap: Heap
    var fired: seq<Firing>      // history

    ghost predicate Valid()
      reads this
    {
      NextOk(heap, next)
    }

    constructor ()
      ensures Valid() && heap == map[] && fired == []
    {
      time, next, heap, fired := 0, 0, map[], [];
    }

    /** can_net_set_next: announce the earliest deadline, if there is one. */
    method SetNext()
      modifies this`next
      ensures Valid() && (heap == map[] ==> next == old(next))
    {
      if heap == map[] { return; }
      var id := First(heap);
      next := heap[id].start;
    }

    /** can_timer_stop. */
    method Stop(id: Id)
      requires Valid()
      modifies this`heap, this`next
      ensures Valid() && heap == old(heap) - {id}
    {
      if id !in heap { return; }
      heap := heap - {id};
      SetNext();
    }

    /** can_timer_start: without a start time the first deadline is one period from now. */
    method Start(id: Id, start: Option<int>, interval: Option<nat>)
      requires Valid()
      modifies this`heap, this`next
      ensures Valid()
      ensures start.None? && interval.None? ==> heap == old(heap) - {id}
      ensures start.Some? || interval.Some? ==>
                var period := if interval.Some? then interval.value else 0;
                heap == old(heap)[id := Timer(if start.Some? then start.value else time + period, period)]
    {
      Stop(id);
      if start.None? && interval.None? { return; }
      var period := if interval.Some? then interval.value else 0;
      heap := heap[id := Timer(if start.Some? then start.value else time + period, period)];
      SetNext();
    }

    /** can_net_set_time: fire everything that is due, earliest first. */
    method SetTime(t: int)
      requires Valid()
      modifies this
      ensures Valid() && time == t
      ensures old(fired) <= fired
      ensures Processed(old(heap), t, fired[|old(fired)|..], heap)
    {
      hide Advanced, InTurn, Ordered, Processed, Underway, Pending, NextOk;
      time := t;
      ghost var h0, f0 := heap, fired;
      ghost var f: seq<Firing> := [];
      ghost var ids := Enumerate(heap.Keys);
      AtFirst(h0, t, ids);
      while heap != map[]
        invariant time == t && fired == f0 + f && Underway(h0, f, heap, t, ids)
        decreases Pending(ids, heap, t)
      {
        var id := First(heap);
        var tm := heap[id];
        if tm.start > time { break; }
        ghost var h := heap;
        assert id in h && Minimal(h, id);
        heap := heap - {id};
        if tm.interval != 0 {
          heap := heap[id := tm.(start := tm.start + tm.interval)];
        }
        fired := fired + [Firing(id, tm.start)];
        StepOne(h0, f, h, id, heap, t, ids);
        f := f + [Firing(id, tm.start)];
      }
      Finished(h0, f, heap, t, ids);
      assert fired[|f0|..] == f;
      SetNext();
    }
  }

  /** What holds whenever the processing loop looks at the first timer. */
  predicate Underway(h0: Heap, f: seq<Firing>, h: Heap, t: int, ids: seq<Id>) {
    && Advanced(h0, f, h) && InTurn(h0, f, t) && Ordered(f) && Lists(ids, h)
    && forall k, id | 0 <= k < |f| && id in h :: f[k].due <= h[id].start
  }

  lemma AtFirst(h: Heap, t: int, ids: seq<Id>)
    requires Lists(ids, h)
    ensures Underway(h, [], h, t, ids)
  {
  }

  /** The heap after the first timer has fired. */
  predicate FiredOnce(h: Heap, id: Id, h': Heap)
    requires id in h
  {
    h' == if h[id].interval == 0 then h - {id} else h[id := h[id].(start := h[id].start + h[id].interval)]
  }

  /** One firing keeps what the loop knows and leaves one firing less to come. */
  lemma StepOne(h0: Heap, f: seq<Firing>, h: Heap, id: Id, h': Heap, t: int, ids: seq<Id>)
    requires Underway(h0, f, h, t, ids) && Minimal(h, id) && h[id].start <= t && FiredOnce(h, id, h')
    ensures Underway(h0, f + [Firing(id, h[id].start)], h', t, ids)
    ensures Pending(ids, h', t) < Pending(ids, h, t)
  {
    hide Advanced, InTurn;
    var x := Firing(id, h[id].start);
    AdvancedOne(h0, f, h, id, x, h');
    InTurnOne(h0, f, h, x, t);
    if h[id].interval > 0 { FiresNext(h[id], t); }
    PendingLess(ids, h, h', id, t);
  }

  lemma AdvancedOne(h0: Heap, f: seq<Firing>, h: Heap, id: Id, x: Firing, h': Heap)
    requires Advanced(h0, f, h) && id in h && FiredOnce(h, id, h') && x.id == id
    ensures Advanced(h0, f + [x], h')
  {
    var c, n := Count(f, id), h0[id].interval;
    assert (c + 1) * n == c * n + n;
    forall j | j in h0 ensures Count(f + [x], j) == Count(f, j) + if id == j then 1 else 0 { CountSnoc(f, x, j); }
  }

  lemma InTurnOne(h0: Heap, f: seq<Firing>, h: Heap, x: Firing, t: int)
    requires Advanced(h0, f, h) && InTurn(h0, f, t) && x.id in h && x.due == h[x.id].start <= t
    ensures InTurn(h0, f + [x], t)
  {
    hide InTurn;
    assert x.id in h0 && x.due == h0[x.id].start + Count(f, x.id) * h0[x.id].interval;
    InTurnSnoc(h0, f, x, t);
  }

  lemma InTurnSnoc(h0: Heap, f: seq<Firing>, x: Firing, t: int)
    requires InTurn(h0, f, t) && x.id in h0 && x.due <= t
    requires x.due == h0[x.id].start + Count(f, x.id) * h0[x.id].interval
    ensures InTurn(h0, f + [x], t)
  {
    hide Count;
    var f' := f + [x];
    forall k | 0 <= k < |f'|
      ensures f'[k].id in h0 && f'[k].due == h0[f'[k].id].start + Count(f'[..k], f'[k].id) * h0[f'[k].id].interval && f'[k].due <= t
    {
      if k < |f| { assert f'[..k] == f[..k] && f'[k] == f[k]; } else { assert f'[..k] == f; }
    }
  }

  lemma Finished(h0: Heap, f: seq<Firing>, h: Heap, t: int, ids: seq<Id>)
    requires Underway(h0, f, h, t, ids)
    requires h == map[] || exists id :: Minimal(h, id) && h[id].start > t
    ensures Processed(h0, t, f, h)
  {
    forall id | id in h0 ensures Count(f, id) == Fires(h0[id], t) { FinishedOne(h0, f, h, t, id); }
  }

  lemma FinishedOne(h0: Heap, f: seq<Firing>, h: Heap, t: int, id: Id)
    requires Advanced(h0, f, h) && InTurn(h0, f, t) && id in h0
    requires h == map[] || exists j :: Minimal(h, j) && h[j].start > t
    ensures Count(f, id) == Fires(h0[id], t)
  {
    var tm, c := h0[id], Count(f, id);
    if c > 0 { LastFiring(h0, f, t, id); }
    if tm.interval > 0 {
      assert h[id].start > t;
      CountExact(tm, t, c);
    }
  }

  /** The last of c firings of id was at its c-th deadline, not after t. */
  lemma {:induction false} LastFiring(h0: Heap, f: seq<Firing>, t: int, id: Id)
    requires InTurn(h0, f, t) && Count(f, id) > 0
    ensures id in h0 && h0[id].start + (Count(f, id) - 1) * h0[id].interval <= t
    decreases |f|
  {
    var n := |f| - 1;
    var p := f[..n];
    forall k | 0 <= k < |p| ensures p[..k] == f[..k] { }
    if f[n].id != id { LastFiring(h0, p, t, id); }
  }
}
