/** The exact-mode stuff-bit counter, which looks at up to five bits at a time. */
module StuffCount {
  import opened Gf2
  import opened BitStrings
  import opened Stuffing

  /** Leading zeros of a byte. */
  function Clz8(x: bv8): nat {
    if x & 0x80 != 0 then 0 else if x & 0x40 != 0 then 1 else if x & 0x20 != 0 then 2 else if x & 0x10 != 0 then 3
    else if x & 0x08 != 0 then 4 else if x & 0x04 != 0 then 5 else if x & 0x02 != 0 then 6 else if x & 0x01 != 0 then 7 else 8
  }

  /** Five bits at bit position i, as the low bits of a byte. */
  function Window(data: seq<bv8>, i: nat): bv8
    requires i / 8 + 1 < |data|
  {
    FiveOf(data[i / 8], data[i / 8 + 1], i % 8)
  }

  function FiveOf(d0: bv8, d1: bv8, j: nat): bv8
    requires j < 8
  {
    (((((d0 as bv16) << 8) | (d1 as bv16)) >> (11 - j)) & 0xff) as bv8
  }

  /** Bit k of the five, the first one highest. */
  predicate FiveBit(v: bv8, k: nat)
    requires k < 5
  {
    match k
    case 0 => v & 0x10 != 0 case 1 => v & 0x08 != 0 case 2 => v & 0x04 != 0 case 3 => v & 0x02 != 0
    case _ => v & 0x01 != 0
  }

  /** The first w of the five bits equal p up to, not including, position n. */
  predicate RunsFor(v: bv8, w: nat, p: bool, n: nat)
    requires w <= 5
  {
    if n == 5 then forall k | 0 <= k < w :: FiveBit(v, k) == p
    else n < w && FiveBit(v, n) != p && forall k | 0 <= k < n :: FiveBit(v, k) == p
  }

  function Lead(v: bv8, mask: bv8, same: bv8): int { Clz8((v & mask) ^ same) - 3 }

  /** Bit k of a byte, the first one highest. */
  predicate ByteBit(b: bv8, k: nat)
    requires k < 8
  {
    match k
    case 0 => b & 0x80 != 0 case 1 => b & 0x40 != 0 case 2 => b & 0x20 != 0 case 3 => b & 0x10 != 0
    case 4 => b & 0x08 != 0 case 5 => b & 0x04 != 0 case 6 => b & 0x02 != 0 case _ => b & 0x01 != 0
  }

  lemma MaskTops(b: bv8)
    ensures var c := Wide(b);
            && Top(c) == ByteBit(b, 0) && Top(Twice(c)) == ByteBit(b, 1) && Top(Twice(Twice(c))) == ByteBit(b, 2)
            && Top(Twice(Twice(Twice(c)))) == ByteBit(b, 3) && Top(Twice(Twice(Twice(Twice(c))))) == ByteBit(b, 4)
            && Top(Twice(Twice(Twice(Twice(Twice(c)))))) == ByteBit(b, 5)
            && Top(Twice(Twice(Twice(Twice(Twice(Twice(c))))))) == ByteBit(b, 6)
            && Top(Twice(Twice(Twice(Twice(Twice(Twice(Twice(c)))))))) == ByteBit(b, 7)
  {
  }

  lemma EightTops(c: bv16)
    ensures Bits(c, 8) == [Top(c), Top(Twice(c)), Top(Twice(Twice(c))), Top(Twice(Twice(Twice(c)))),
                           Top(Twice(Twice(Twice(Twice(c))))), Top(Twice(Twice(Twice(Twice(Twice(c)))))),
                           Top(Twice(Twice(Twice(Twice(Twice(Twice(c))))))),
                           Top(Twice(Twice(Twice(Twice(Twice(Twice(Twice(c))))))))]
  {
    hide Top, Twice, Bits, Up;
    var d := Twice(Twice(Twice(Twice(c))));
    FourTops(c);
    FourTops(d);
    FourUp(c);
    BitsSplit(c, 8, 4);
    assert Bits(c, 8) == Bits(c, 4) + Bits(d, 4);
  }

  lemma FourUp(c: bv16)
    ensures Up(c, 4) == Twice(Twice(Twice(Twice(c))))
  {
    hide Top, Twice;
    assert Up(c, 4) == Up(Twice(Twice(c)), 2);
  }

  lemma FourTops(c: bv16)
    ensures Bits(c, 4) == [Top(c), Top(Twice(c)), Top(Twice(Twice(c))), Top(Twice(Twice(Twice(c))))]
  {
    hide Top, Twice;
    assert Bits(c, 4) == [Top(c)] + ([Top(Twice(c))] + Bits(Twice(Twice(c)), 2));
  }

  function MaskBits(b: bv8): (s: seq<bool>)
    ensures |s| == 8
  {
    [ByteBit(b, 0), ByteBit(b, 1), ByteBit(b, 2), ByteBit(b, 3), ByteBit(b, 4), ByteBit(b, 5), ByteBit(b, 6), ByteBit(b, 7)]
  }

  lemma MaskBitsAt(b: bv8, k: nat)
    requires k < 8
    ensures MaskBits(b)[k] == ByteBit(b, k)
  {
  }

  lemma MaskTopSeq(b: bv8)
    ensures Bits(Wide(b), 8) == MaskBits(b)
  {
    hide ByteBit, Top, Twice, Wide, Bits;
    MaskTops(b);
    EightTops(Wide(b));
  }

  lemma ByteBitsAre(b: bv8, k: nat)
    requires k < 8
    ensures ByteBits(b)[k] == ByteBit(b, k)
  {
    hide ByteBit, Top, Twice, Wide, Bits, MaskBits;
    MaskTopSeq(b);
    MaskBitsAt(b, k);
  }

  lemma Five0(d0: bv8, d1: bv8)
    ensures var v := FiveOf(d0, d1, 0);
            && FiveBit(v, 0) == ByteBit(d0, 0) && FiveBit(v, 1) == ByteBit(d0, 1) && FiveBit(v, 2) == ByteBit(d0, 2)
            && FiveBit(v, 3) == ByteBit(d0, 3) && FiveBit(v, 4) == ByteBit(d0, 4)
  {
  }

  lemma Five1(d0: bv8, d1: bv8)
    ensures var v := FiveOf(d0, d1, 1);
            && FiveBit(v, 0) == ByteBit(d0, 1) && FiveBit(v, 1) == ByteBit(d0, 2) && FiveBit(v, 2) == ByteBit(d0, 3)
            && FiveBit(v, 3) == ByteBit(d0, 4) && FiveBit(v, 4) == ByteBit(d0, 5)
  {
  }

  lemma Five2(d0: bv8, d1: bv8)
    ensures var v := FiveOf(d0, d1, 2);
            && FiveBit(v, 0) == ByteBit(d0, 2) && FiveBit(v, 1) == ByteBit(d0, 3) && FiveBit(v, 2) == ByteBit(d0, 4)
            && FiveBit(v, 3) == ByteBit(d0, 5) && FiveBit(v, 4) == ByteBit(d0, 6)
  {
  }

  lemma Five3(d0: bv8, d1: bv8)
    ensures var v := FiveOf(d0, d1, 3);
            && FiveBit(v, 0) == ByteBit(d0, 3) && FiveBit(v, 1) == ByteBit(d0, 4) && FiveBit(v, 2) == ByteBit(d0, 5)
            && FiveBit(v, 3) == ByteBit(d0, 6) && FiveBit(v, 4) == ByteBit(d0, 7)
  {
  }

  lemma Five4(d0: bv8, d1: bv8)
    ensures var v := FiveOf(d0, d1, 4);
            && FiveBit(v, 0) == ByteBit(d0, 4) && FiveBit(v, 1) == ByteBit(d0, 5) && FiveBit(v, 2) == ByteBit(d0, 6)
            && FiveBit(v, 3) == ByteBit(d0, 7) && FiveBit(v, 4) == ByteBit(d1, 0)
  {
  }

  lemma Five5(d0: bv8, d1: bv8)
    ensures var v := FiveOf(d0, d1, 5);
            && FiveBit(v, 0) == ByteBit(d0, 5) && FiveBit(v, 1) == ByteBit(d0, 6) && FiveBit(v, 2) == ByteBit(d0, 7)
            && FiveBit(v, 3) == ByteBit(d1, 0) && FiveBit(v, 4) == ByteBit(d1, 1)
  {
  }

  lemma Five6(d0: bv8, d1: bv8)
    ensures var v := FiveOf(d0, d1, 6);
            && FiveBit(v, 0) == ByteBit(d0, 6) && FiveBit(v, 1) == ByteBit(d0, 7) && FiveBit(v, 2) == ByteBit(d1, 0)
            && FiveBit(v, 3) == ByteBit(d1, 1) && FiveBit(v, 4) == ByteBit(d1, 2)
  {
  }

  lemma Five7(d0: bv8, d1: bv8)
    ensures var v := FiveOf(d0, d1, 7);
            && FiveBit(v, 0) == ByteBit(d0, 7) && FiveBit(v, 1) == ByteBit(d1, 0) && FiveBit(v, 2) == ByteBit(d1, 1)
            && FiveBit(v, 3) == ByteBit(d1, 2) && FiveBit(v, 4) == ByteBit(d1, 3)
  {
  }

  lemma FiveBits(d0: bv8, d1: bv8, j: nat, k: nat)
    requires j < 8 && k < 5
    ensures FiveBit(FiveOf(d0, d1, j), k) == if j + k < 8 then ByteBits(d0)[j + k] else ByteBits(d1)[j + k - 8]
  {
    hide ByteBit, FiveBit, FiveOf, ByteBits;
    if j + k < 8 { ByteBitsAre(d0, j + k); } else { ByteBitsAre(d1, j + k - 8); }
    match j
    case 0 => Five0(d0, d1);
    case 1 => Five1(d0, d1);
    case 2 => Five2(d0, d1);
    case 3 => Five3(d0, d1);
    case 4 => Five4(d0, d1);
    case 5 => Five5(d0, d1);
    case 6 => Five6(d0, d1);
    case _ => Five7(d0, d1);
  }

  /** The window shows the five bits at position i. */
  lemma WindowBits(data: seq<bv8>, i: nat, k: nat)
    requires i / 8 + 1 < |data| && k < 5
    ensures i + k < 8 * |data| && FiveBit(Window(data, i), k) == BitAt(data, i + k)
  {
    hide FiveBit, FiveOf, ByteBits;
    FiveBits(data[i / 8], data[i / 8 + 1], i % 8, k);
    if i % 8 + k < 8 {
      assert (i + k) / 8 == i / 8 && (i + k) % 8 == i % 8 + k;
    } else {
      assert (i + k) / 8 == i / 8 + 1 && (i + k) % 8 == i % 8 + k - 8;
    }
  }

  /** The bits from i on up to end. */
  function From(data: seq<bv8>, i: nat, end: nat): seq<bool>
    requires end <= 8 * |data|
  {
    if i <= end then Range(data, i, end - i) else []
  }

  /** What the loop knows when it is about to look for bits equal to p. */
  predicate Pending(data: seq<bv8>, i: nat, end: nat, p: bool, run: nat, stuff: nat, total: nat)
    requires end <= 8 * |data|
  {
    && run <= 1
    && total == stuff + Count(From(data, i, end), p, run)
    && (run == 0 && i < end ==> BitAt(data, i) == p)
  }

  lemma LeadRuns(v: bv8, mask: bv8, same: bv8)
    requires (mask == 0x1f || mask == 0x1e) && (same == 0 || same == mask)
    ensures var n := Lead(v, mask, same); 0 <= n && RunsFor(v, if mask == 0x1f then 5 else 4, same != 0, n)
  {
  }

  /** The run found in the window is a run of data bits. */
  lemma RunInData(data: seq<bv8>, i: nat, w: nat, p: bool, n: nat)
    requires i / 8 + 1 < |data| && 4 <= w <= 5 && RunsFor(Window(data, i), w, p, n)
    ensures i + w <= 8 * |data|
    ensures n == 5 ==> forall m | i <= m < i + w :: BitAt(data, m) == p
    ensures n != 5 ==> n < w && BitAt(data, i + n) != p && forall m | i <= m < i + n :: BitAt(data, m) == p
  {
    hide FiveBit, Window, BitAt;
    forall m | i <= m < i + w ensures m < 8 * |data| && BitAt(data, m) == FiveBit(Window(data, i), m - i) {
      WindowBits(data, i, m - i);
    }
  }

  /** The run ends before it is complete. */
  lemma ShortStep(data: seq<bv8>, i: nat, end: nat, p: bool, run: nat, stuff: nat, total: nat, n: nat)
    requires i < end <= 8 * |data| && Pending(data, i, end, p, run, stuff, total) && run + n < 5
    requires i + n < 8 * |data| && BitAt(data, i + n) != p && forall m | i <= m < i + n :: BitAt(data, m) == p
    ensures Pending(data, i + n, end, !p, 0, stuff, total)
  {
    hide BitAt, Count;
    var b := From(data, i, end);
    var k := if n < |b| then n else |b|;
    SkipShort(b, p, run, k);
    assert b[k..] == From(data, i + k, end);
    if n < |b| {
      Flip(b[n..], p, run + n);
    } else {
      NoBits(p, run + k);
      NoBits(!p, 0);
    }
  }

  lemma NoBits(p: bool, run: nat)
    requires run < 5
    ensures Count([], p, run) == 0
  {
  }

  /** The run is complete, if it ends within the frame. */
  lemma FullStep(data: seq<bv8>, i: nat, end: nat, p: bool, run: nat, stuff: nat, total: nat)
    requires i < end <= 8 * |data| && Pending(data, i, end, p, run, stuff, total)
    requires i + (5 - run) <= 8 * |data| && forall m | i <= m < i + (5 - run) :: BitAt(data, m) == p
    ensures Pending(data, i + (5 - run), end, !p, 1, if i + (5 - run) <= end then stuff + 1 else stuff, total)
  {
    hide BitAt, Count;
    var b, w := From(data, i, end), 5 - run;
    if w <= |b| {
      SkipFive(b, p, run, w);
      assert b[w..] == From(data, i + w, end);
    } else {
      SkipShort(b, p, run, |b|);
      assert b[|b|..] == [];
      NoBits(p, run + |b|);
      NoBits(!p, 1);
    }
  }

  /**
   The stuff bits of the frame held in data[off..off + bits), whose first bit is
   zero.  Bits behind the frame may have any value.
   */
  method CountStuffBits(data: seq<bv8>, off: nat, bits: nat) returns (stuff: nat)
    requires off + bits + 8 <= 8 * |data| && bits > 0 && !BitAt(data, off)
    ensures stuff == Count(Range(data, off, bits), false, 0)
  {
    hide BitAt, Count, Pending, Lead, RunsFor, Window;
    stuff := 0;
    var mask: bv8 := 0x1f;
    var same := mask;
    var i, end := off, off + bits;
    ghost var total := Count(Range(data, off, bits), false, 0);
    Initially(data, off, bits);
    while i < end
      invariant off <= i
      invariant mask == 0x1f || mask == 0x1e
      invariant same == 0 || same == 0x1f || same == 0x1e
      invariant Pending(data, i, end, same == 0, if mask == 0x1f then 0 else 1, stuff, total)
      decreases if i < end then end - i else 0, if mask == 0x1f then 0 else 1
    {
      ghost var w, run, p := if mask == 0x1f then 5 else 4, if mask == 0x1f then 0 else 1, same == 0;
      same := if same != 0 then 0 else mask;
      var n := Lead(Window(data, i), mask, same);
      LeadRuns(Window(data, i), mask, same);
      RunInData(data, i, w, p, n);
      if n < 5 {
        ShortStep(data, i, end, p, run, stuff, total, n);
        Progress(data, i, end, p, run, stuff, total, n);
        i := i + n;
        mask := 0x1f;
      } else {
        FullStep(data, i, end, p, run, stuff, total);
        i := i + n;
        if mask == 0x1e {
          i := i - 1;
        } else {
          mask := 0x1e;
        }
        if i <= end {
          stuff := stuff + 1;
        }
      }
    }
    Finally(data, i, end, same == 0, if mask == 0x1f then 0 else 1, stuff, total);
  }

  lemma Initially(data: seq<bv8>, off: nat, bits: nat)
    requires off + bits <= 8 * |data| && bits > 0 && !BitAt(data, off)
    ensures Pending(data, off, off + bits, false, 0, 0, Count(Range(data, off, bits), false, 0))
  {
  }

  lemma Finally(data: seq<bv8>, i: nat, end: nat, p: bool, run: nat, stuff: nat, total: nat)
    requires end <= i && end <= 8 * |data| && Pending(data, i, end, p, run, stuff, total)
    ensures stuff == total
  {
  }

  /** A fresh run has at least one bit. */
  lemma Progress(data: seq<bv8>, i: nat, end: nat, p: bool, run: nat, stuff: nat, total: nat, n: nat)
    requires i < end <= 8 * |data| && Pending(data, i, end, p, run, stuff, total)
    requires i + n < 8 * |data| && BitAt(data, i + n) != p
    ensures run == 0 ==> n > 0
  {
    hide BitAt, Count;
  }
}
