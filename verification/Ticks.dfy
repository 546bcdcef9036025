/** Kernel ticks, the monotonic clock built on them, and one-shot delays for deadlines. */
module Ticks {
  import opened Arith

  const BILLION: nat := 1_000_000_000

  /** A normalized time: seconds and nanoseconds. */
  datatype Time = Time(sec: int, nsec: nat)

  predicate Normal(t: Time) { t.nsec < BILLION }

  function Nanos(t: Time): int { t.sec * BILLION + t.nsec }

  /** lely_rtt_timespec_cmp. */
  function Compare(a: Time, b: Time): (r: int)
    requires Normal(a) && Normal(b)
    ensures (r < 0 <==> Nanos(a) < Nanos(b)) && (r == 0 <==> Nanos(a) == Nanos(b)) && (r > 0 <==> Nanos(a) > Nanos(b))
  {
    if a.sec < b.sec then -1 else if a.sec > b.sec then 1
    else if a.nsec < b.nsec then -1 else if a.nsec > b.nsec then 1 else 0
  }

  // -------------------------------------------------------------------- the clock

  /** The time after `ticks` ticks at rate tps. */
  function TimeOf(ticks: nat, tps: nat): (t: Time)
    requires tps > 0
  {
    Time(ticks / tps, ticks % tps * BILLION / tps)
  }

  lemma DivBounds(x: nat, n: nat)
    requires n > 0
    ensures x / n * n <= x < x / n * n + n
  {
  }

  /** The clock is the exact time, rounded down to nanoseconds. */
  lemma TimeIsFloor(ticks: nat, tps: nat)
    requires tps > 0
    ensures Normal(TimeOf(ticks, tps))
    ensures Nanos(TimeOf(ticks, tps)) * tps <= ticks * BILLION < (Nanos(TimeOf(ticks, tps)) + 1) * tps
  {
  }

  /** The wrap-extended tick counter of a runtime. */
  class Clock {
    var initialized: bool
    var last: nat
    var ticks: nat

    constructor ()
      ensures !initialized
    {
      initialized, last, ticks := false, 0, 0;
    }

    /** The counter has followed the kernel since tick `origin`, last at `now`. */
    ghost predicate Follows(wrap: nat, origin: nat, now: nat)
      reads this
      requires wrap > 0
    {
      initialized && origin <= now && last == now % wrap && ticks == now - origin
    }

    /**
     lely_rtt_time_now at kernel tick `now`, of which only the value modulo wrap is
     visible.  If less than one wrap has passed since the last sample, the counter
     equals the ticks elapsed since the first.
     */
    method Now(tps: nat, wrap: nat, now: nat, ghost origin: nat, ghost prev: nat) returns (t: Time)
      requires tps > 0 && wrap > 0
      requires initialized ==> Follows(wrap, origin, prev) && prev <= now < prev + wrap
      requires !initialized ==> origin == now
      modifies this
      ensures Follows(wrap, origin, now) && t == TimeOf(now - origin, tps)
    {
      var tick := now % wrap;
      if !initialized {
        last := tick;
        ticks := 0;
        initialized := true;
      } else {
        WrapDelta(prev, now, wrap);
        var delta := (tick + wrap - last) % wrap;
        last := tick;
        ticks := ticks + delta;
      }
      t := Time(ticks / tps, ticks % tps * BILLION / tps);
    }
  }

  /** Unsigned subtraction of wrapped ticks is the true difference below one wrap. */
  lemma WrapDelta(a: nat, b: nat, w: nat)
    requires w > 0 && a <= b < a + w
    ensures (b % w + w - a % w) % w == b - a
  {
    Divided(a, w);
    Divided(b, w);
    WrapCases(a / w, b / w, a % w, b % w, w, a, b);
    ModCases(b % w + w - a % w, b - a, w);
  }

  lemma Divided(x: nat, w: nat)
    requires w > 0
    ensures x == w * (x / w) + x % w && x % w < w
  {
  }

  lemma WrapCases(qa: nat, qb: nat, ra: nat, rb: nat, w: nat, a: nat, b: nat)
    requires ra < w && rb < w && a == w * qa + ra && b == w * qb + rb && a <= b < a + w
    ensures rb + w - ra == b - a + w || rb + w - ra == b - a
  {
    WrapQuotient(qa, qb, ra, rb, w);
    OneMore(qa, w);
  }

  lemma ModCases(d: nat, x: nat, w: nat)
    requires x < w && (d == x + w || d == x)
    ensures d % w == x
  {
  }

  lemma OneMore(q: nat, w: nat)
    ensures w * (q + 1) == w * q + w
  {
  }

  lemma WrapQuotient(qa: nat, qb: nat, ra: nat, rb: nat, w: nat)
    requires ra < w && rb < w && w * qa + ra <= w * qb + rb < w * qa + ra + w
    ensures qb == qa || qb == qa + 1
  {
    if qb < qa { MulMono(w, qb + 1, qa); }
    if qb > qa + 1 { MulMono(w, qa + 2, qb); }
  }

  /** A run of samples, each less than one wrap after the one before. */
  predicate Samples(ts: seq<nat>, wrap: nat) {
    ts != [] && forall i | 0 <= i < |ts| - 1 :: ts[i] <= ts[i + 1] < ts[i] + wrap
  }

  /** The counter after sampling the wrapped ticks of ts in turn. */
  function Extended(ts: seq<nat>, wrap: nat): nat
    requires ts != [] && wrap > 0
    decreases |ts|
  {
    if |ts| == 1 then 0
    else Extended(ts[..|ts| - 1], wrap) + (ts[|ts| - 1] % wrap + wrap - ts[|ts| - 2] % wrap) % wrap
  }

  /** Over any such run the extended counter equals the true elapsed ticks. */
  lemma {:induction false} ExtensionExact(ts: seq<nat>, wrap: nat)
    requires wrap > 0 && Samples(ts, wrap)
    ensures ts[0] + Extended(ts, wrap) == ts[|ts| - 1]
    decreases |ts|
  {
    if |ts| > 1 {
      var p := ts[..|ts| - 1];
      ExtensionExact(p, wrap);
      WrapDelta(ts[|ts| - 2], ts[|ts| - 1], wrap);
    }
  }

  // ------------------------------------------------------------------ one-shot delays

  /** The longest delay the kernel's timers accept. */
  function MaxTicks(tickMax: nat): nat
    requires tickMax >= 4
  {
    tickMax / 2 - 1
  }

  /** lely_rtt_deadline_ticks for a deadline after now. */
  function DeadlineTicks(now: Time, next: Time, tps: nat, tickMax: nat): (k: nat)
    requires Normal(now) && Normal(next) && Nanos(now) < Nanos(next) && tps > 0 && tickMax >= 4
    ensures 1 <= k <= MaxTicks(tickMax)
  {
    var borrow := next.nsec < now.nsec;
    var sec := next.sec - now.sec - if borrow then 1 else 0;
    var nsec := if borrow then BILLION + next.nsec - now.nsec else next.nsec - now.nsec;
    if sec > MaxTicks(tickMax) / tps then MaxTicks(tickMax)
    else
      SecPositive(now, next);
      var t := sec * tps + (nsec * tps + 999_999_999) / BILLION;
      if t == 0 then 1 else if t > MaxTicks(tickMax) then MaxTicks(tickMax) else t
  }

  lemma SecPositive(now: Time, next: Time)
    requires Normal(now) && Normal(next) && Nanos(now) < Nanos(next)
    ensures next.sec - now.sec - (if next.nsec < now.nsec then 1 else 0) >= 0
  {
  }

  /** Ticks needed to cover d nanoseconds, rounded up. */
  function Needed(d: nat, tps: nat): nat { (d * tps + 999_999_999) / BILLION }

  lemma NeededBounds(d: nat, tps: nat)
    ensures d * tps <= Needed(d, tps) * BILLION < d * tps + BILLION
  {
  }

  lemma NeededSplit(sec: nat, nsec: nat, tps: nat)
    ensures Needed(sec * BILLION + nsec, tps) == sec * tps + Needed(nsec, tps)
  {
  }

  /** The delay is the number of ticks needed, unless that exceeds what a timer accepts. */
  lemma DelayIsNeeded(now: Time, next: Time, tps: nat, tickMax: nat)
    requires Normal(now) && Normal(next) && Nanos(now) < Nanos(next) && tps > 0 && tickMax >= 4
    ensures var k, n := DeadlineTicks(now, next, tps, tickMax), Needed(Nanos(next) - Nanos(now), tps);
            n >= 1 && k == if n > MaxTicks(tickMax) then MaxTicks(tickMax) else n
  {
    hide Needed;
    SecPositive(now, next);
    var borrow := next.nsec < now.nsec;
    var sec := next.sec - now.sec - if borrow then 1 else 0;
    var nsec := if borrow then BILLION + next.nsec - now.nsec else next.nsec - now.nsec;
    var d := Nanos(next) - Nanos(now);
    assert d == sec * BILLION + nsec;
    NeededSplit(sec, nsec, tps);
    NeededIs(nsec, tps);
    NeededPositive(d, tps);
    if sec > MaxTicks(tickMax) / tps { LongDelay(sec, tps, MaxTicks(tickMax)); }
  }

  lemma NeededIs(d: nat, tps: nat)
    ensures Needed(d, tps) == (d * tps + 999_999_999) / BILLION
  {
  }

  lemma NeededPositive(d: nat, tps: nat)
    requires d > 0 && tps > 0
    ensures Needed(d, tps) >= 1
  {
  }

  lemma LongDelay(sec: nat, tps: nat, max: nat)
    requires tps > 0 && sec > max / tps
    ensures sec * tps > max
  {
    DivBounds(max, tps);
    MulMono(tps, max / tps + 1, sec);
  }

  /**
   If the delay is not clamped, the clock read after it is not before the deadline,
   and later than it by less than one tick period and one nanosecond; if it is
   clamped, the clock read after it is not past the deadline.
   */
  lemma DeadlineMet(start: nat, next: Time, tps: nat, tickMax: nat)
    requires tps > 0 && tickMax >= 4 && Normal(next) && Normal(TimeOf(start, tps)) && Nanos(TimeOf(start, tps)) < Nanos(next)
    ensures var k := DeadlineTicks(TimeOf(start, tps), next, tps, tickMax);
            var d := Needed(Nanos(next) - Nanos(TimeOf(start, tps)), tps);
            var wake := Nanos(TimeOf(start + k, tps));
            if d <= MaxTicks(tickMax) then Nanos(next) <= wake && (wake - Nanos(next)) * tps < BILLION + tps
            else wake <= Nanos(next)
  {
    hide DeadlineTicks, TimeOf, Needed, MaxTicks, Normal, Nanos;
    var now := TimeOf(start, tps);
    var n0, dl := Nanos(now), Nanos(next);
    var d, k := Needed(dl - n0, tps), DeadlineTicks(now, next, tps, tickMax);
    DelayIsNeeded(now, next, tps, tickMax);
    TimeIsFloor(start, tps);
    TimeIsFloor(start + k, tps);
    if d <= MaxTicks(tickMax) {
      NeededBounds(dl - n0, tps);
      WakeBounds(start, d, tps, n0, dl, Nanos(TimeOf(start + d, tps)));
    } else {
      ClampedIsEarly(now, next, tps, tickMax);
      NotPast(start, k, tps, n0, dl, Nanos(TimeOf(start + k, tps)));
    }
  }

  lemma NotPast(start: nat, k: nat, tps: nat, n0: int, dl: int, wake: int)
    requires tps > 0 && start * BILLION < (n0 + 1) * tps && wake * tps <= (start + k) * BILLION && k * BILLION < (dl - n0) * tps
    ensures wake <= dl
  {
    assert (start + k) * BILLION == start * BILLION + k * BILLION;
    assert (n0 + 1) * tps + (dl - n0) * tps == (dl + 1) * tps;
    if wake >= dl + 1 { MulMono(tps, dl + 1, wake); }
  }

  lemma WakeBounds(start: nat, d: nat, tps: nat, n0: int, dl: int, wake: int)
    requires tps > 0 && n0 < dl
    requires n0 * tps <= start * BILLION < (n0 + 1) * tps
    requires wake * tps <= (start + d) * BILLION < (wake + 1) * tps
    requires (dl - n0) * tps <= d * BILLION < (dl - n0) * tps + BILLION
    ensures dl <= wake && (wake - dl) * tps < BILLION + tps
  {
    assert (start + d) * BILLION == start * BILLION + d * BILLION;
    assert (n0 + (dl - n0)) * tps == n0 * tps + (dl - n0) * tps;
    assert (wake - dl) * tps == wake * tps - dl * tps;
    assert (n0 + 1) * tps == n0 * tps + tps;
    if wake + 1 <= dl { MulMono(tps, wake + 1, dl); }
  }

  /** A clamped delay wakes early, never late: the deadline is approached in steps. */
  lemma ClampedIsEarly(now: Time, next: Time, tps: nat, tickMax: nat)
    requires Normal(now) && Normal(next) && Nanos(now) < Nanos(next) && tps > 0 && tickMax >= 4
    requires Needed(Nanos(next) - Nanos(now), tps) > MaxTicks(tickMax)
    ensures DeadlineTicks(now, next, tps, tickMax) * BILLION < (Nanos(next) - Nanos(now)) * tps
  {
  }

  /** lely_rtt_timeout_ticks: at least one tick, at least the time asked for unless clamped. */
  function TimeoutTicks(ms: nat, tps: nat, tickMax: nat): (k: nat)
    requires tps > 0 && tickMax >= 4
    ensures 1 <= k <= 0x7FFF_FFFF && k <= MaxTicks(tickMax)
    ensures k * 1000 >= ms * tps || k == 0x7FFF_FFFF || k == MaxTicks(tickMax)
    ensures ms * tps > 0 && k > 1 ==> (k - 1) * 1000 < ms * tps
  {
    var t := (ms * tps + 999) / 1000;
    var t1 := if t == 0 then 1 else t;
    var max := if 0x7FFF_FFFF > MaxTicks(tickMax) then MaxTicks(tickMax) else 0x7FFF_FFFF;
    if t1 > max then max else t1
  }
}
