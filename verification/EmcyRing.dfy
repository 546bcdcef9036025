/**
 The published EMCY history: a ring of slots, each guarded by a sequence lock,
 written by the owner and scanned by a concurrent reader.  A step is one atomic
 load or store; fields below "history" are not part of the program.
 */
module EmcyRing {
  import opened Arith

  const U32: nat := 0x1_0000_0000
  const SEQS: nat := 0xFFFF_FFFF         // sequence values 1 .. 2^32 - 1
  const GUARDS: nat := 0x7FFF_FFFF       // even guard values 2 .. 2^32 - 2

  // -------------------------------------------------------------------- packed events

  datatype Event = Event(node: nat, code: nat, reg: nat, msef: seq<nat>)

  predicate IsEvent(e: Event) {
    && 1 <= e.node <= 127 && e.code < 0x1_0000 && e.reg < 0x100
    && |e.msef| == 5 && forall i | 0 <= i < 5 :: e.msef[i] < 0x100
  }

  function Pack(e: Event): nat { e.node + 0x100 * e.code + 0x100_0000 * e.reg }
  function PackLow(e: Event): nat
    requires |e.msef| == 5
  {
    e.msef[0] + 0x100 * e.msef[1] + 0x1_0000 * e.msef[2] + 0x100_0000 * e.msef[3]
  }

  /** The event a reader assembles from the three words of a slot. */
  function Unpack(header: nat, lo: nat, hi: nat): Event {
    Event(header % 0x100, header / 0x100 % 0x1_0000, header / 0x100_0000 % 0x100,
          [lo % 0x100, lo / 0x100 % 0x100, lo / 0x1_0000 % 0x100, lo / 0x100_0000 % 0x100, hi % 0x100])
  }

  lemma HeaderRoundTrip(a: nat, b: nat, c: nat)
    requires a < 0x100 && b < 0x1_0000 && c < 0x100
    ensures var h := a + 0x100 * b + 0x100_0000 * c; h % 0x100 == a && h / 0x100 % 0x1_0000 == b && h / 0x100_0000 % 0x100 == c
  {
    var h := a + 0x100 * (b + 0x1_0000 * c);
    assert h / 0x100 == b + 0x1_0000 * c;
    assert h / 0x100_0000 == (h / 0x100) / 0x1_0000;
  }

  lemma PackRoundTrip(e: Event)
    requires IsEvent(e)
    ensures Unpack(Pack(e), PackLow(e), e.msef[4]) == e
  {
    var a, b, c, d := e.msef[0], e.msef[1], e.msef[2], e.msef[3];
    HeaderRoundTrip(e.node, e.code, e.reg);
    HeaderRoundTrip(a, b + 0x100 * c, d);
    assert (b + 0x100 * c) % 0x100 == b && (b + 0x100 * c) / 0x100 == c;
    LowBytes(a, b, c, d);
  }

  lemma LowBytes(a: nat, b: nat, c: nat, d: nat)
    requires a < 0x100 && b < 0x100 && c < 0x100 && d < 0x100
    ensures var lo := a + 0x100 * b + 0x1_0000 * c + 0x100_0000 * d;
            lo % 0x100 == a && lo / 0x100 % 0x100 == b && lo / 0x1_0000 % 0x100 == c && lo / 0x100_0000 % 0x100 == d
  {
    var lo := a + 0x100 * b + 0x1_0000 * c + 0x100_0000 * d;
    assert lo == a + 0x100 * (b + 0x100 * c + 0x1_0000 * d);
    assert lo / 0x100 == b + 0x100 * (c + 0x100 * d);
    assert lo / 0x1_0000 == (lo / 0x100) / 0x100 == c + 0x100 * d;
    assert lo / 0x100_0000 == (lo / 0x1_0000) / 0x100 == d;
  }

  // ------------------------------------------------------------------------- counters

  /** The sequence value of publication k; zero is skipped when the counter wraps. */
  function SeqOf(k: nat): nat { if k == 0 then 0 else (k - 1) % SEQS + 1 }

  /** The even guard of a slot after c publications in it. */
  function GuardOf(c: nat): nat { if c == 0 then 0 else 2 * ((c - 1) % GUARDS + 1) }

  /** The successor used by publish. */
  function NextSeq(s: nat): nat { if (s + 1) % U32 == 0 then 1 else (s + 1) % U32 }

  function PrevSeq(s: nat): nat { if s > 1 then s - 1 else 0 }

  /** The even guard value publication starts from. */
  function GuardBase(g: nat): nat {
    var e := if g % 2 == 1 then g + 1 else g;
    if e > 0xFFFF_FFFC then 0 else e
  }

  lemma NextSeqIs(k: nat)
    ensures NextSeq(SeqOf(k)) == SeqOf(k + 1)
  {
    if k > 0 {
      var m := (k - 1) % SEQS;
      if m == SEQS - 1 { ModNext(k - 1, SEQS); } else { ModNext(k - 1, SEQS); }
    }
  }

  lemma ModNext(x: nat, n: nat)
    requires n > 0
    ensures (x + 1) % n == if x % n == n - 1 then 0 else x % n + 1
  {
    var q, r := x / n, x % n;
    if r == n - 1 {
      assert x + 1 == n * (q + 1);
      DivMod(n, q + 1, 0);
    } else {
      assert x + 1 == n * q + (r + 1);
      DivMod(n, q, r + 1);
    }
  }

  lemma GuardStep(c: nat)
    ensures GuardBase(GuardOf(c)) + 2 == GuardOf(c + 1)
  {
    if c > 0 { ModNext(c - 1, GUARDS); }
  }

  /** Different counts less than a full cycle apart have different guards. */
  lemma GuardDistinct(c: nat, d: nat)
    requires 1 <= c <= d < c + GUARDS && GuardOf(c) == GuardOf(d)
    ensures c == d
  {
    ModClose(c - 1, d - 1, GUARDS);
  }

  lemma SeqDistinct(k: nat, l: nat)
    requires 1 <= k <= l < k + SEQS && SeqOf(k) == SeqOf(l)
    ensures k == l
  {
    ModClose(k - 1, l - 1, SEQS);
  }

  lemma ModClose(x: nat, y: nat, n: nat)
    requires n > 0 && x <= y < x + n && x % n == y % n
    ensures x == y
  {
    var a, b := x / n, y / n;
    assert x == n * a + x % n && y == n * b + y % n;
    MulMono(n, a + 1, b);
    MulMono(n, b + 1, a);
  }

  // ----------------------------------------------------------------------------- state

  datatype Slot = Slot(guard: nat, seq_: nat, header: nat, lo: nat, hi: nat,
                       cnt: nat, idx: nat)    // history: publications in it, the last one's number

  /** The writer inside publish, by the store it makes next. */
  datatype Writer = WIdle | WSeq(e: Event) | WHeader(e: Event) | WLo(e: Event) | WHi(e: Event) | WGuard(e: Event) | WLatest

  datatype Outcome = Empty | Found(event: Event, seq_: nat)

  /** The reader inside one call for `node`; top and cnt are history. */
  datatype Reader =
    | RLatest(node: nat)
    | RScan(node: nat, cand: nat, rem: nat, top: nat)
    | RRead(node: nat, cand: nat, rem: nat, top: nat, begin: nat, cnt: nat, got: seq<nat>)
    | RDone(node: nat, top: nat, out: Outcome)

  datatype Ring = Ring(slots: seq<Slot>, latest: nat, w: Writer, r: Reader,
                       log: seq<Event>)       // history: finished publications

  /** The slot of publication k. */
  function SlotOf(k: nat, depth: nat): nat
    requires k >= 1 && depth >= 1
  {
    (SeqOf(k) - 1) % depth
  }

  datatype Label = Publish(e: Event) | Write | Call(node: nat) | Read

  predicate Init(g: Ring) {
    && g.slots != [] && |g.slots| < GUARDS && g.latest == 0 && g.w == WIdle && g.r.RDone? && g.log == []
    && g.r.out == Empty && g.r.top == 0
    && forall i | 0 <= i < |g.slots| :: g.slots[i] == Slot(0, 0, 0, 0, 0, 0, 0)
  }

  // ---------------------------------------------------------------------------- writer

  /** The slot being written. */
  function Target(g: Ring): nat
    requires g.slots != []
  {
    SlotOf(|g.log| + 1, |g.slots|)
  }

  function PutSlot(g: Ring, i: nat, s: Slot): Ring
    requires i < |g.slots|
  {
    g.(slots := g.slots[i := s])
  }

  /** The first store of publish: the slot's guard becomes odd. */
  function Begin(g: Ring, e: Event): Ring
    requires g.slots != [] && g.w.WIdle?
  {
    var seq_ := NextSeq(g.latest);
    var i := (seq_ - 1) % |g.slots|;
    var s := g.slots[i];
    PutSlot(g, i, s.(guard := GuardBase(s.guard) + 1)).(w := WSeq(e))
  }

  function Store(g: Ring): Ring
    requires g.slots != [] && !g.w.WIdle?
  {
    var i := Target(g);
    var s := g.slots[i];
    match g.w
    case WSeq(e) => PutSlot(g, i, s.(seq_ := NextSeq(g.latest))).(w := WHeader(e))
    case WHeader(e) => PutSlot(g, i, s.(header := Pack(e))).(w := WLo(e))
    case WLo(e) => PutSlot(g, i, s.(lo := if |e.msef| == 5 then PackLow(e) else 0)).(w := WHi(e))
    case WHi(e) => PutSlot(g, i, s.(hi := if |e.msef| == 5 then e.msef[4] else 0)).(w := WGuard(e))
    case WGuard(e) =>
      PutSlot(g, i, s.(guard := s.guard + 1, cnt := s.cnt + 1, idx := |g.log| + 1)).(w := WLatest, log := g.log + [e])
    case WLatest => g.(latest := NextSeq(g.latest), w := WIdle)
  }

  // ---------------------------------------------------------------------------- reader

  /** Publications whose latest-sequence store has been made. */
  function Published(g: Ring): nat { if g.w.WLatest? && |g.log| > 0 then |g.log| - 1 else |g.log| }

  function LoadLatest(g: Ring): Reader
    requires g.r.RLatest?
  {
    if g.latest == 0 then RDone(g.r.node, 0, Empty)
    else RScan(g.r.node, g.latest, |g.slots|, Published(g))
  }

  predicate Wanted(node: nat, e: Event) { node == 0 || e.node == node }

  /** Load the slot's guard, or give up when the window is exhausted. */
  function LoadGuard(g: Ring): Reader
    requires g.slots != [] && g.r.RScan?
  {
    var r := g.r;
    if r.rem == 0 || r.cand == 0 then RDone(r.node, r.top, Empty)
    else
      var s := g.slots[(r.cand - 1) % |g.slots|];
      if s.guard == 0 then RDone(r.node, r.top, Empty)
      else if s.guard % 2 == 1 then RLatest(r.node)
      else RRead(r.node, r.cand, r.rem, r.top, s.guard, s.cnt, [])
  }

  /** Load the four words in turn, then check the guard again. */
  function LoadWord(g: Ring): Reader
    requires g.slots != [] && g.r.RRead? && g.r.cand >= 1 && g.r.rem >= 1
  {
    var r := g.r;
    var s := g.slots[(r.cand - 1) % |g.slots|];
    if |r.got| == 0 then r.(got := [s.seq_])
    else if |r.got| == 1 then r.(got := r.got + [s.header])
    else if |r.got| == 2 then r.(got := r.got + [s.lo])
    else if |r.got| == 3 then r.(got := r.got + [s.hi])
    else if r.begin != s.guard || s.guard % 2 == 1 || r.got[0] != r.cand then RLatest(r.node)
    else
      var e := Unpack(r.got[1], r.got[2], r.got[3]);
      if Wanted(r.node, e) then RDone(r.node, r.top, Found(e, r.got[0]))
      else RScan(r.node, PrevSeq(r.cand), r.rem - 1, r.top)
  }

  predicate Enabled(g: Ring, l: Label) {
    match l
    case Publish(e) => g.w.WIdle? && IsEvent(e)
    case Write => !g.w.WIdle?
    case Call(node) => g.r.RDone? && node <= 127
    case Read => !g.r.RDone? && (g.r.RRead? ==> g.r.cand >= 1 && g.r.rem >= 1)
  }

  function Apply(g: Ring, l: Label): Ring
    requires g.slots != [] && Enabled(g, l)
  {
    match l
    case Publish(e) => Begin(g, e)
    case Write => Store(g)
    case Call(node) => g.(r := RLatest(node))
    case Read =>
      g.(r := match g.r
              case RLatest(_) => LoadLatest(g)
              case RScan(_, _, _, _) => LoadGuard(g)
              case RRead(_, _, _, _, _, _, _) => LoadWord(g)
              case RDone(_, _, _) => g.r)
  }
}
