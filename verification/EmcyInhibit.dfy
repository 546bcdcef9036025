/**
 The EMCY producer's transmit queue (CiA 301, section 7.2.7): frames leave in
 order, at most one per inhibit interval.  Times are nanoseconds.
 */
module EmcyInhibit {
  import opened Options

  type Frame = nat
  datatype Sent = Sent(frame: Frame, at: int)

  datatype Queue = Queue(
    interval: nat,            // object 1015h, in nanoseconds
    inhibit: int,             // no transmission before this time
    buf: seq<Frame>,
    timer: Option<int>,       // deadline of the armed timer
    // history
    accepted: seq<Frame>, sent: seq<Sent>, time: int)

  /** 1015h counts multiples of 100 us. */
  function Interval(obj1015: nat): nat { obj1015 * 100 * 1000 }

  /** The service just after it was started, with an empty buffer. */
  function Started(interval: nat, now: int): Queue { Queue(interval, now, [], None, [], [], now) }

  // ---------------------------------------------------------------- what flush does

  function Flushed(q: Queue, now: int): (q': Queue)
    decreases |q.buf|
  {
    if q.buf == [] then q
    else if now < q.inhibit then q.(timer := Some(q.inhibit))
    else Flushed(q.(inhibit := now + q.interval, buf := q.buf[1..], sent := q.sent + [Sent(q.buf[0], now)]), now)
  }

  datatype Event =
    | SendE(f: Frame, now: int, valid: bool, room: bool)    // valid: 1014h exists and is valid; room: the buffer can grow
    | TimerE(now: int)

  function After(q: Queue, e: Event): Queue {
    match e
    case SendE(f, now, valid, room) =>
      if !valid || !room then q.(time := now)
      else Flushed(q.(buf := q.buf + [f], accepted := q.accepted + [f], time := now), now)
    case TimerE(now) => Flushed(q.(timer := None, time := now), now)
  }

  /** Time does not run backwards, and the timer fires only when it is armed and due. */
  predicate Possible(q: Queue, e: Event) {
    q.time <= e.now && (e.TimerE? ==> q.timer.Some? && q.timer.value <= e.now)
  }

  // --------------------------------------------------------------------- invariant

  function Frames(s: seq<Sent>): (r: seq<Frame>)
    ensures |r| == |s| && forall i | 0 <= i < |s| :: r[i] == s[i].frame
  {
    seq(|s|, i requires 0 <= i < |s| => s[i].frame)
  }

  /** Accepted frames are those sent, in order, followed by those waiting. */
  predicate Conserved(q: Queue) { q.accepted == Frames(q.sent) + q.buf }

  /** Transmissions keep the inhibit interval. */
  predicate Spaced(q: Queue) {
    && (forall i | 0 <= i < |q.sent| - 1 :: q.sent[i].at + q.interval <= q.sent[i + 1].at)
    && (if q.sent == [] then q.inhibit <= q.time else q.inhibit == q.sent[|q.sent| - 1].at + q.interval)
    && (forall i | 0 <= i < |q.sent| :: q.sent[i].at <= q.time)
  }

  /** Frames wait only for the inhibit deadline of one sent before, with the timer armed. */
  predicate Armed(q: Queue) { q.buf != [] ==> q.sent != [] && q.timer == Some(q.inhibit) }

  predicate Inv(q: Queue) { Conserved(q) && Spaced(q) && Armed(q) }

  lemma {:induction false} FlushKeeps(q: Queue, now: int)
    requires Conserved(q) && Spaced(q) && q.time == now
    ensures Inv(Flushed(q, now))
    ensures Flushed(q, now).accepted == q.accepted && Flushed(q, now).interval == q.interval && Flushed(q, now).time == q.time
    decreases |q.buf|
  {
    hide Conserved, Spaced;
    if q.buf != [] {
      if now < q.inhibit {
        ArmedOnly(q, now);
      } else {
        var q1 := q.(inhibit := now + q.interval, buf := q.buf[1..], sent := q.sent + [Sent(q.buf[0], now)]);
        SendOne(q, now, q1);
        FlushKeeps(q1, now);
      }
    }
  }

  lemma ArmedOnly(q: Queue, now: int)
    requires Conserved(q) && Spaced(q) && q.time == now < q.inhibit
    ensures Inv(q.(timer := Some(q.inhibit)))
  {
  }

  lemma SendOne(q: Queue, now: int, q1: Queue)
    requires Conserved(q) && Spaced(q) && q.time == now && q.buf != [] && now >= q.inhibit
    requires q1 == q.(inhibit := now + q.interval, buf := q.buf[1..], sent := q.sent + [Sent(q.buf[0], now)])
    ensures Conserved(q1) && Spaced(q1)
  {
  }

  lemma Enqueued(q: Queue, f: Frame, now: int)
    requires Conserved(q) && Spaced(q) && q.time <= now
    ensures var q1 := q.(buf := q.buf + [f], accepted := q.accepted + [f], time := now); Conserved(q1) && Spaced(q1)
  {
  }

  lemma AfterKeeps(q: Queue, e: Event)
    requires Inv(q) && Possible(q, e)
    ensures Inv(After(q, e))
  {
    hide Flushed, Frames;
    match e
    case SendE(f, now, valid, room) =>
      if valid && room {
        Enqueued(q, f, now);
        FlushKeeps(q.(buf := q.buf + [f], accepted := q.accepted + [f], time := now), now);
      }
    case TimerE(now) => FlushKeeps(q.(timer := None, time := now), now);
  }

  /** The service over a sequence of events. */
  predicate IsRun(qs: seq<Queue>, es: seq<Event>, obj1015: nat, now: int) {
    && |qs| == |es| + 1 && qs[0] == Started(Interval(obj1015), now)
    && forall i | 0 <= i < |es| :: Possible(qs[i], es[i]) && qs[i + 1] == After(qs[i], es[i])
  }

  lemma {:induction false} RunInv(qs: seq<Queue>, es: seq<Event>, obj1015: nat, now: int, i: nat)
    requires IsRun(qs, es, obj1015, now) && i < |qs|
    ensures Inv(qs[i]) && qs[i].interval == Interval(obj1015)
  {
    hide Conserved, Spaced, Armed, Flushed;
    if i == 0 {
      assert Inv(qs[0]) by { StartInv(Interval(obj1015), now); }
    } else {
      RunInv(qs, es, obj1015, now, i - 1);
      AfterKeeps(qs[i - 1], es[i - 1]);
      SameInterval(qs[i - 1], es[i - 1]);
    }
  }

  lemma StartInv(interval: nat, now: int)
    ensures Inv(Started(interval, now))
  {
  }

  lemma SameInterval(q: Queue, e: Event)
    requires Inv(q) && Possible(q, e)
    ensures After(q, e).interval == q.interval
  {
    FlushInterval(q.(timer := None, time := e.now), e.now);
    if e.SendE? { FlushInterval(q.(buf := q.buf + [e.f], accepted := q.accepted + [e.f], time := e.now), e.now); }
  }

  lemma {:induction false} FlushInterval(q: Queue, now: int)
    ensures Flushed(q, now).interval == q.interval
    decreases |q.buf|
  {
    if q.buf != [] && now >= q.inhibit {
      FlushInterval(q.(inhibit := now + q.interval, buf := q.buf[1..], sent := q.sent + [Sent(q.buf[0], now)]), now);
    }
  }

  /**
   In every state of every run the frames sent followed by those waiting are exactly
   those accepted, any two transmissions are at least the inhibit time apart for
   each one between them, and if frames wait, one has been sent before and the
   timer is armed at the time the next one may leave.
   */
  lemma InhibitHolds(qs: seq<Queue>, es: seq<Event>, obj1015: nat, now: int, i: nat)
    requires IsRun(qs, es, obj1015, now) && i < |qs|
    ensures qs[i].accepted == Frames(qs[i].sent) + qs[i].buf
    ensures forall j, k | 0 <= j < k < |qs[i].sent| ::
              qs[i].sent[j].at + (k - j) * Interval(obj1015) <= qs[i].sent[k].at
    ensures qs[i].buf != [] ==>
              qs[i].sent != [] && qs[i].timer == Some(qs[i].sent[|qs[i].sent| - 1].at + Interval(obj1015))
  {
    hide IsRun, Interval;
    RunInv(qs, es, obj1015, now, i);
    forall j, k | 0 <= j < k < |qs[i].sent|
      ensures qs[i].sent[j].at + (k - j) * Interval(obj1015) <= qs[i].sent[k].at
    {
      SpacedFar(qs[i], j, k);
    }
  }

  lemma {:induction false} SpacedFar(q: Queue, j: nat, k: nat)
    requires Spaced(q) && j < k < |q.sent|
    ensures q.sent[j].at + (k - j) * q.interval <= q.sent[k].at
    decreases k - j
  {
    if j + 1 < k {
      SpacedFar(q, j + 1, k);
      assert (k - j) * q.interval == (k - (j + 1)) * q.interval + q.interval;
    }
  }

  // ------------------------------------------------------------------------- class

  class Emcy {
    const obj1015: nat          // read from the object dictionary by every flush
    var inhibit: int
    var buf: seq<Frame>
    var timer: Option<int>
    ghost var accepted: seq<Frame>
    ghost var sent: seq<Sent>
    ghost var time: int

    ghost function Abs(): Queue
      reads this
    {
      Queue(Interval(obj1015), inhibit, buf, timer, accepted, sent, time)
    }

    constructor (obj1015: nat, now: int)
      ensures Abs() == Started(Interval(obj1015), now) && Inv(Abs())
    {
      this.obj1015 := obj1015;
      inhibit, buf, timer := now, [], None;
      accepted, sent, time := [], [], now;
      new;
      StartInv(Interval(obj1015), now);
    }

    /** co_emcy_flush. */
    method Flush(now: int)
      modifies this
      ensures Abs() == Flushed(old(Abs()), now)
    {
      var interval := obj1015 * 100 * 1000;
      while buf != []
        invariant Flushed(Abs(), now) == Flushed(old(Abs()), now)
        decreases |buf|
      {
        if now < inhibit {
          timer := Some(inhibit);
          return;
        }
        inhibit := now + interval;
        var f := buf[0];
        buf := buf[1..];
        sent := sent + [Sent(f, now)];
      }
    }

    /** co_emcy_send, with the check of the COB-ID; -1 when there is no room. */
    method SendFrame(f: Frame, now: int, valid: bool, room: bool) returns (ok: bool)
      requires Inv(Abs()) && time <= now
      modifies this
      ensures Abs() == After(old(Abs()), SendE(f, now, valid, room)) && Inv(Abs())
      ensures ok == (!valid || room)
    {
      AfterKeeps(Abs(), SendE(f, now, valid, room));
      time := now;
      if !valid { return true; }
      if !room { return false; }
      buf := buf + [f];
      accepted := accepted + [f];
      Flush(now);
      return true;
    }

    /** co_emcy_timer; the one-shot timer is no longer armed. */
    method Timer(now: int)
      requires Inv(Abs()) && Possible(Abs(), TimerE(now))
      modifies this
      ensures Abs() == After(old(Abs()), TimerE(now)) && Inv(Abs())
    {
      AfterKeeps(Abs(), TimerE(now));
      timer, time := None, now;
      Flush(now);
    }
  }
}
