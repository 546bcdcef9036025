/** Every read of the EMCY history, however it interleaves with publications. */
module EmcyReads {
  import opened EmcyRing

  // ------------------------------------------------------------------------- invariant

  /** The writer has made the slot's guard odd and not even again. */
  predicate Writing(g: Ring, i: nat)
    requires g.slots != []
  {
    !g.w.WIdle? && !g.w.WLatest? && Target(g) == i
  }

  predicate Holds(s: Slot, k: nat, e: Event) {
    s.seq_ == SeqOf(k) && s.header == Pack(e) && |e.msef| == 5 && s.lo == PackLow(e) && s.hi == e.msef[4]
  }

  /** The words already stored of the publication under way. */
  predicate Partly(w: Writer, s: Slot, k: nat) {
    && (w.WHeader? || w.WLo? || w.WHi? || w.WGuard? ==> s.seq_ == SeqOf(k))
    && (w.WLo? || w.WHi? || w.WGuard? ==> s.header == Pack(w.e))
    && (w.WHi? || w.WGuard? ==> |w.e.msef| == 5 && s.lo == PackLow(w.e))
    && (w.WGuard? ==> s.hi == w.e.msef[4])
  }

  /** Publications after the slot's last one went elsewhere. */
  predicate NoneSince(depth: nat, n: nat, i: nat, idx: nat)
    requires depth >= 1
  {
    forall k | idx < k <= n :: SlotOf(k, depth) != i
  }

  predicate SlotOk(g: Ring, i: nat)
    requires i < |g.slots|
  {
    var s := g.slots[i];
    && s.idx <= |g.log| && (s.idx == 0 <==> s.cnt == 0)
    && (s.idx > 0 ==> SlotOf(s.idx, |g.slots|) == i) && NoneSince(|g.slots|, |g.log|, i, s.idx)
    && if Writing(g, i) then s.guard == GuardBase(GuardOf(s.cnt)) + 1 && Partly(g.w, s, |g.log| + 1)
       else s.guard == GuardOf(s.cnt) && (s.idx > 0 ==> Holds(s, s.idx, g.log[s.idx - 1]))
  }

  predicate WriterOk(g: Ring) {
    && g.slots != [] && |g.slots| < GUARDS
    && (g.w.WLatest? ==> g.log != []) && g.latest == SeqOf(Published(g))
    && (!g.w.WIdle? && !g.w.WLatest? ==> IsEvent(g.w.e))
    && (forall k | 0 <= k < |g.log| :: IsEvent(g.log[k]))
    && (forall i | 0 <= i < |g.slots| :: SlotOk(g, i))
  }

  /** The publication a scan that sampled `top` looks at for sequence value cand. */
  function At(top: nat, cand: nat): int { top - (SeqOf(top) - cand) }

  /** No publication after number a up to top is wanted. */
  predicate NoneWanted(log: seq<Event>, node: nat, a: int, top: nat)
    requires top <= |log|
  {
    forall j | a <= j < top && 0 <= j :: !Wanted(node, log[j])
  }

  predicate ScanOk(log: seq<Event>, depth: nat, node: nat, cand: nat, rem: nat, top: nat) {
    && 1 <= top <= |log| && cand <= SeqOf(top)
    && rem + (SeqOf(top) - cand) == depth
    && (cand > 0 ==> At(top, cand) >= 1 && SeqOf(At(top, cand)) == cand)
    && NoneWanted(log, node, At(top, cand), top)
  }

  /** What a finished call may report. */
  predicate Right(log: seq<Event>, depth: nat, node: nat, top: nat, out: Outcome) {
    && top <= |log|
    && match out
       case Empty => NoneWanted(log, node, top - (if depth <= SeqOf(top) then depth else SeqOf(top)), top)
       case Found(e, s) =>
         var a := At(top, s);
         1 <= a <= top && top - a < depth && SeqOf(a) == s && e == log[a - 1] && Wanted(node, e) && NoneWanted(log, node, a, top)
  }

  predicate ReadOk(g: Ring, r: Reader)
    requires g.slots != [] && r.RRead? && r.cand >= 1
  {
    var i := (r.cand - 1) % |g.slots|;
    var s := g.slots[i];
    && 1 <= r.cnt <= s.cnt && r.begin == GuardOf(r.cnt) && |r.got| <= 4
    && (s.cnt == r.cnt && !Writing(g, i) ==> r.got <= [s.seq_, s.header, s.lo, s.hi])
  }

  predicate ReaderOk(g: Ring)
    requires g.slots != []
  {
    match g.r
    case RLatest(_) => true
    case RScan(node, cand, rem, top) => ScanOk(g.log, |g.slots|, node, cand, rem, top)
    case RRead(node, cand, rem, top, _, _, _) =>
      cand >= 1 && rem >= 1 && ScanOk(g.log, |g.slots|, node, cand, rem, top) && ReadOk(g, g.r)
    case RDone(node, top, out) => Right(g.log, |g.slots|, node, top, out)
  }

  predicate Inv(g: Ring) { WriterOk(g) && ReaderOk(g) }

  /**
   While the reader looks at a slot, the slot's guard does not go through all its
   values, nor does the slot come to hold the publication that has the sequence
   value looked for in a later epoch.
   */
  predicate Timely(g: Ring) {
    g.slots != [] && g.r.RRead? && g.r.cand >= 1 ==>
      var s := g.slots[(g.r.cand - 1) % |g.slots|];
      s.cnt < g.r.cnt + GUARDS && s.idx < At(g.r.top, g.r.cand) + SEQS
  }

  lemma InitInv(g: Ring)
    requires Init(g)
    ensures Inv(g)
  {
  }

  // ---------------------------------------------------------------------------- writer

  /** A step that leaves slot i and the finished publications alone. */
  lemma SameSlot(g: Ring, g': Ring, i: nat)
    requires i < |g.slots| == |g'.slots| && SlotOk(g, i) && g'.slots[i] == g.slots[i] && g'.log == g.log
    requires Writing(g, i) == Writing(g', i) && (Writing(g, i) ==> g'.w == g.w)
    ensures SlotOk(g', i)
  {
  }

  lemma BeginKeeps(g: Ring, e: Event)
    requires WriterOk(g) && g.w.WIdle? && IsEvent(e)
    ensures WriterOk(Begin(g, e)) && Target(g) == (NextSeq(g.latest) - 1) % |g.slots|
    ensures Begin(g, e).slots == g.slots[Target(g) := g.slots[Target(g)].(guard := Begin(g, e).slots[Target(g)].guard)]
  {
    hide NoneSince, Holds, SeqOf, GuardOf, NextSeq, IsEvent;
    NextSeqIs(|g.log|);
    SeqPos(|g.log| + 1);
    var g' := Begin(g, e);
    var i := Target(g);
    assert SlotOk(g, i);
    forall j | 0 <= j < |g'.slots| ensures SlotOk(g', j) {
      assert SlotOk(g, j);
      if j != i { SameSlot(g, g', j); }
    }
  }

  lemma SeqPos(k: nat)
    requires k >= 1
    ensures SeqOf(k) >= 1
  {
  }

  /** The four word stores. */
  lemma WordKeeps(g: Ring)
    requires WriterOk(g) && (g.w.WSeq? || g.w.WHeader? || g.w.WLo? || g.w.WHi?)
    ensures WriterOk(Store(g))
  {
    hide NoneSince, Holds, SeqOf, GuardOf, NextSeq;
    NextSeqIs(|g.log|);
    var g' := Store(g);
    var i := Target(g);
    assert SlotOk(g, i);
    forall j | 0 <= j < |g'.slots| ensures SlotOk(g', j) {
      assert SlotOk(g, j);
      if j != i { SameSlot(g, g', j); }
    }
  }

  lemma NoneSinceMore(depth: nat, n: nat, i: nat, idx: nat)
    requires depth >= 1 && NoneSince(depth, n, i, idx) && (SlotOf(n + 1, depth) != i || idx == n + 1)
    ensures NoneSince(depth, n + 1, i, idx)
  {
  }

  /** The store of the even guard finishes the publication. */
  lemma GuardKeeps(g: Ring)
    requires WriterOk(g) && g.w.WGuard?
    ensures WriterOk(Store(g))
  {
    hide SeqOf, GuardOf, NextSeq, IsEvent, NoneSince;
    var g' := Store(g);
    var i := Target(g);
    assert SlotOk(g, i);
    GuardStep(g.slots[i].cnt);
    forall j | 0 <= j < |g'.slots| ensures SlotOk(g', j) {
      assert SlotOk(g, j);
      if j != i {
        NoneSinceMore(|g.slots|, |g.log|, j, g.slots[j].idx);
      } else {
        Latest(|g.slots|, |g.log| + 1, i);
      }
    }
  }

  lemma Latest(depth: nat, n: nat, i: nat)
    requires depth >= 1
    ensures NoneSince(depth, n, i, n)
  {
  }

  lemma LatestKeeps(g: Ring)
    requires WriterOk(g) && g.w.WLatest?
    ensures WriterOk(Store(g))
  {
    hide NoneSince, Holds, SeqOf, GuardOf, NextSeq, IsEvent;
    NextSeqIs(|g.log| - 1);
    var g' := Store(g);
    forall j | 0 <= j < |g'.slots| ensures SlotOk(g', j) {
      assert SlotOk(g, j);
      SameSlot(g, g', j);
    }
  }

  // -------------------------------------------------- the reader during a writer's step

  /** The writer touches only its target slot, which it is writing or has just finished. */
  predicate Touches(g: Ring, g': Ring) {
    && g.slots != [] && |g'.slots| == |g.slots| && g'.r == g.r && g.log <= g'.log
    && (forall i | 0 <= i < |g.slots| ::
          && g.slots[i].cnt <= g'.slots[i].cnt
          && (g'.slots[i].cnt == g.slots[i].cnt && !Writing(g', i) ==> g'.slots[i] == g.slots[i] && !Writing(g, i)))
  }

  lemma WriterTouches(g: Ring, l: Label)
    requires WriterOk(g) && Enabled(g, l) && (l.Publish? || l.Write?)
    ensures Touches(g, Apply(g, l))
  {
    hide SlotOk, SeqOf, GuardOf, NextSeq, IsEvent, GuardBase, Pack, PackLow;
    if l.Publish? { BeginKeeps(g, l.e); }
  }

  lemma ReaderDuring(g: Ring, g': Ring)
    requires Touches(g, g') && ReaderOk(g)
    ensures ReaderOk(g')
  {
  }

  lemma WriterKeeps(g: Ring, l: Label)
    requires Inv(g) && Enabled(g, l) && (l.Publish? || l.Write?)
    ensures Inv(Apply(g, l))
  {
    hide WriterOk, ReaderOk, Touches, SlotOk;
    WriterSome(g);
    WriterTouches(g, l);
    ReaderDuring(g, Apply(g, l));
    if l.Publish? { BeginKeeps(g, l.e); }
    else if g.w.WGuard? { GuardKeeps(g); }
    else if g.w.WLatest? { LatestKeeps(g); }
    else { WordKeeps(g); }
  }

  lemma WriterSome(g: Ring)
    requires WriterOk(g)
    ensures g.slots != []
  {
  }

  // ---------------------------------------------------------------------- reader's steps

  lemma LatestLoaded(g: Ring)
    requires WriterOk(g) && g.r.RLatest?
    ensures ReaderOk(g.(r := LoadLatest(g)))
  {
  }

  /** The slot a scan looks at has been written. */
  lemma SlotWritten(g: Ring, cand: nat, top: nat)
    requires WriterOk(g) && 1 <= top <= |g.log| && 1 <= cand <= SeqOf(top) && At(top, cand) >= 1 && SeqOf(At(top, cand)) == cand
    ensures var s := g.slots[(cand - 1) % |g.slots|]; At(top, cand) <= s.idx && s.cnt >= 1
  {
    hide SeqOf, GuardOf, IsEvent, Holds, Partly;
    var i, a := (cand - 1) % |g.slots|, At(top, cand);
    assert SlotOk(g, i) && SlotOf(a, |g.slots|) == i;
  }

  lemma GuardParity(c: nat)
    ensures GuardOf(c) % 2 == 0 && (GuardOf(c) == 0 <==> c == 0) && GuardBase(GuardOf(c)) % 2 == 0
  {
  }

  lemma GuardLoaded(g: Ring)
    requires Inv(g) && g.r.RScan?
    ensures ReaderOk(g.(r := LoadGuard(g)))
  {
    hide SeqOf, GuardOf, GuardBase, NoneSince, Wanted, NoneWanted, WriterOk, At;
    WriterSome(g);
    var r := g.r;
    if r.rem == 0 || r.cand == 0 {
      Exhausted(g.log, |g.slots|, r.node, r.cand, r.rem, r.top);
    } else {
      SlotWritten(g, r.cand, r.top);
      SlotFacts(g, (r.cand - 1) % |g.slots|);
    }
  }

  /** An even, non-zero guard tells how often the slot has been written. */
  lemma SlotFacts(g: Ring, i: nat)
    requires WriterOk(g) && i < |g.slots| && g.slots[i].cnt >= 1
    ensures var s := g.slots[i]; s.guard != 0 && (s.guard % 2 == 0 ==> s.guard == GuardOf(s.cnt) && !Writing(g, i))
  {
    hide SeqOf, GuardOf, GuardBase, NoneSince, Holds, Partly;
    assert SlotOk(g, i);
    GuardParity(g.slots[i].cnt);
  }

  /** When the window is exhausted nothing in it was wanted. */
  lemma Exhausted(log: seq<Event>, depth: nat, node: nat, cand: nat, rem: nat, top: nat)
    requires ScanOk(log, depth, node, cand, rem, top) && (rem == 0 || cand == 0)
    ensures Right(log, depth, node, top, Empty)
  {
  }

  /** The words read are those of publication At(top, cand). */
  lemma StableRead(g: Ring)
    requires Inv(g) && Timely(g) && g.r.RRead? && |g.r.got| == 4
    requires var s := g.slots[(g.r.cand - 1) % |g.slots|]; g.r.begin == s.guard && s.guard % 2 == 0
    requires g.r.got[0] == g.r.cand
    ensures var a := At(g.r.top, g.r.cand);
            1 <= a <= g.r.top && Unpack(g.r.got[1], g.r.got[2], g.r.got[3]) == g.log[a - 1]
  {
    hide SeqOf, GuardOf, GuardBase, NoneSince, Wanted, NoneWanted, Unpack, Pack, PackLow, IsEvent;
    var r := g.r;
    var i, a := (r.cand - 1) % |g.slots|, At(r.top, r.cand);
    var s := g.slots[i];
    assert SlotOk(g, i);
    GuardParity(s.cnt);
    GuardDistinct(r.cnt, s.cnt);
    assert r.got == [s.seq_, s.header, s.lo, s.hi];
    SlotWritten(g, r.cand, r.top);
    SeqDistinct(a, s.idx);
    PackRoundTrip(g.log[a - 1]);
  }

  lemma WordLoaded(g: Ring)
    requires Inv(g) && Timely(g) && g.r.RRead? && g.r.cand >= 1 && g.r.rem >= 1
    ensures ReaderOk(g.(r := LoadWord(g)))
  {
    hide WriterOk, SeqOf, GuardOf, Wanted, NoneWanted, Unpack;
    WriterSome(g);
    var r := g.r;
    var i := (r.cand - 1) % |g.slots|;
    var s := g.slots[i];
    if |r.got| < 4 {
      WordAppended(g);
    } else if r.begin == s.guard && s.guard % 2 == 0 && r.got[0] == r.cand {
      StableRead(g);
      OneFurther(g.log, |g.slots|, r.node, r.cand, r.rem, r.top, Unpack(r.got[1], r.got[2], r.got[3]));
    }
  }

  lemma WordAppended(g: Ring)
    requires g.slots != [] && ReaderOk(g) && g.r.RRead? && |g.r.got| < 4
    ensures ReaderOk(g.(r := LoadWord(g)))
  {
    hide SeqOf, GuardOf, Wanted, NoneWanted;
  }

  /** The scan goes on below a publication that is not wanted, or ends with it. */
  lemma OneFurther(log: seq<Event>, depth: nat, node: nat, cand: nat, rem: nat, top: nat, e: Event)
    requires ScanOk(log, depth, node, cand, rem, top) && cand >= 1 && rem >= 1
    requires var a := At(top, cand); 1 <= a <= top && e == log[a - 1]
    ensures Wanted(node, e) ==> Right(log, depth, node, top, Found(e, cand))
    ensures !Wanted(node, e) ==> ScanOk(log, depth, node, PrevSeq(cand), rem - 1, top)
  {
  }

  lemma ReaderKeeps(g: Ring, l: Label)
    requires Inv(g) && Timely(g) && Enabled(g, l) && (l.Call? || l.Read?)
    ensures g.slots != [] && Inv(Apply(g, l))
  {
    hide WriterOk, ReaderOk, LoadWord, LoadGuard, LoadLatest;
    WriterSome(g);
    SameWriter(g, Apply(g, l).r);
    if l.Read? {
      match g.r
      case RLatest(_) => LatestLoaded(g);
      case RScan(_, _, _, _) => GuardLoaded(g);
      case RRead(_, _, _, _, _, _, _) => WordLoaded(g);
    } else {
      assert ReaderOk(Apply(g, l)) by { JustCalled(g, l.node); }
    }
  }

  lemma JustCalled(g: Ring, node: nat)
    requires g.slots != []
    ensures ReaderOk(g.(r := RLatest(node)))
  {
  }

  lemma SameWriter(g: Ring, r: Reader)
    requires WriterOk(g)
    ensures WriterOk(g.(r := r))
  {
    hide NoneSince, Holds, Partly, GuardOf, SeqOf;
    forall i | 0 <= i < |g.slots| ensures SlotOk(g.(r := r), i) {
      assert SlotOk(g, i);
      SameSlot(g, g.(r := r), i);
    }
  }

  // ------------------------------------------------------------------------------- runs

  predicate Step(g: Ring, l: Label, g': Ring) { g.slots != [] && Enabled(g, l) && g' == Apply(g, l) }

  /** An interleaving in which no read of a slot outlasts a full cycle of its guard or of the sequence counter. */
  predicate IsRun(gs: seq<Ring>, ls: seq<Label>) {
    && |gs| == |ls| + 1 && Init(gs[0])
    && (forall i | 0 <= i < |ls| :: Step(gs[i], ls[i], gs[i + 1]))
    && (forall i | 0 <= i < |gs| :: Timely(gs[i]))
  }

  lemma {:induction false} RunInv(gs: seq<Ring>, ls: seq<Label>, i: nat)
    requires IsRun(gs, ls) && i < |gs|
    ensures Inv(gs[i])
  {
    hide Inv, Apply, Enabled, Timely;
    if i == 0 {
      InitInv(gs[0]);
    } else {
      RunInv(gs, ls, i - 1);
      assert Step(gs[i - 1], ls[i - 1], gs[i]);
      if ls[i - 1].Publish? || ls[i - 1].Write? { WriterKeeps(gs[i - 1], ls[i - 1]); } else { ReaderKeeps(gs[i - 1], ls[i - 1]); }
    }
  }

  /**
   A finished read reports the newest wanted event at or below the latest sequence
   it sampled, untorn; an empty result means that none of the retained events of the
   current sequence epoch was wanted.
   */
  lemma ReadsAreRight(gs: seq<Ring>, ls: seq<Label>, i: nat)
    requires IsRun(gs, ls) && i < |gs| && gs[i].r.RDone?
    ensures Right(gs[i].log, |gs[i].slots|, gs[i].r.node, gs[i].r.top, gs[i].r.out)
  {
    hide IsRun, WriterOk, Right;
    RunInv(gs, ls, i);
  }
}
