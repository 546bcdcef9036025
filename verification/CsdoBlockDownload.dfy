/**
 Block download as a go-back-N sender: the client against a server that accepts
 segments in order, over a channel that may lose any of them.
 */
module CsdoBlockDownload {
  import opened MemBuf
  import opened CsdoModel
  import opened Sequences
  import CsdoRuns

  // --------------------------------------------------------------- the data in segments

  /** Segment i of the data: seven bytes, the last one possibly shorter. */
  function Segment(d: Bytes, i: nat): (p: Bytes)
    requires 7 * i <= |d|
    ensures |p| <= 7
  {
    d[7 * i..Min(|d|, 7 * i + 7)]
  }

  /** A segment as it travels: always seven bytes, padded with zeros. */
  function Padded7(p: Bytes): (w: Bytes)
    requires |p| <= 7
    ensures |w| == 7 && p <= w
  {
    p + seq(7 - |p|, _ => 0)
  }

  function Segments(size: nat): nat { (size + 6) / 7 }

  // -------------------------------------------------------------------------- the server

  /**
   The server's segments after a block of frames of which some are lost; acc
   counts the accepted ones and is what the server acknowledges.
   */
  function Accept(frames: seq<Out>, lost: seq<bool>, segs: seq<Bytes>, acc: nat): (r: (seq<Bytes>, nat))
    requires |lost| == |frames|
    decreases |frames|
  {
    if frames == [] then (segs, acc)
    else
      var f := frames[0];
      if !lost[0] && f.BlkDnSubReq? && f.seqno == acc + 1 && |f.payload| <= 7 then
        Accept(frames[1..], lost[1..], segs + [Padded7(f.payload)], acc + 1)
      else Accept(frames[1..], lost[1..], segs, acc)
  }

  /** The server's data set, given the number of bytes in the last segment. */
  function Assembled(segs: seq<Bytes>, tail: nat): Bytes
    requires tail <= 7
  {
    if segs == [] then [] else Flat(segs[..|segs| - 1]) + if tail <= |segs[|segs| - 1]| then segs[|segs| - 1][..tail] else []
  }

  // ------------------------------------------------------------------- the frames of a block

  /** Frames k to b of the block that starts at segment q. */
  function BlockFrames(d: Bytes, q: nat, k: nat, b: nat): (f: seq<Out>)
    requires k >= 1
    requires k <= b ==> 7 * (q + b - 1) <= |d|
    ensures |f| == if k <= b then b + 1 - k else 0
    decreases b + 1 - k
  {
    if k > b then []
    else [BlkDnSubReq(k, Segment(d, q + k - 1), 7 * (q + k) >= |d|)] + BlockFrames(d, q, k + 1, b)
  }

  lemma {:induction false} BlockSent(s: Client, q: nat, k: nat)
    requires s.size == |s.dn| && 1 <= k <= s.blksize + 1 && 0 < s.blksize <= Segments(s.size) - q
    requires s.cur == Min(s.size, 7 * (q + k - 1))
    ensures SendBlock(s, k).out == s.out + BlockFrames(s.dn, q, k, s.blksize)
    decreases s.blksize + 1 - k
  {
    hide SendBlock, Segment;
    if k <= s.blksize {
      var f := NextFrame(s.dn, q, k, s.cur);
      var s1 := SendSub(s, k);
      BlockNext(s, k);
      BlockSent(s1, q, k + 1);
      var rest := BlockFrames(s.dn, q, k + 1, s.blksize);
      assert BlockFrames(s.dn, q, k, s.blksize) == [f] + rest;
      assert (s.out + [f]) + rest == s.out + ([f] + rest);
    } else {
      BlockOver(s, k);
    }
  }

  /** The frame sent from the cursor is the block's frame k. */
  lemma NextFrame(d: Bytes, q: nat, k: nat, cur: nat) returns (f: Out)
    requires k >= 1 && cur == 7 * (q + k - 1) < |d|
    ensures f == BlkDnSubReq(k, Segment(d, q + k - 1), 7 * (q + k) >= |d|)
    ensures f == BlkDnSubReq(k, d[cur..cur + Min(|d| - cur, 7)], |d| - cur <= 7)
  {
    f := BlkDnSubReq(k, Segment(d, q + k - 1), 7 * (q + k) >= |d|);
  }

  /** Segments held so far are those of the data, in order. */
  predicate Holds(d: Bytes, segs: seq<Bytes>) {
    forall i | 0 <= i < |segs| :: 7 * i < |d| && segs[i] == Padded7(Segment(d, i))
  }

  lemma HoldsMore(d: Bytes, segs: seq<Bytes>)
    requires Holds(d, segs) && 7 * |segs| < |d|
    ensures Holds(d, segs + [Padded7(Segment(d, |segs|))])
  {
  }

  /** Whatever is lost, the server accepts a prefix of the block. */
  lemma {:induction false} AcceptsPrefix(d: Bytes, q: nat, k: nat, b: nat, lost: seq<bool>, segs: seq<Bytes>, acc: nat)
    requires 1 <= k <= b + 1 && 7 * (q + b - 1) < |d| && acc < k && Holds(d, segs) && |segs| == q + acc
    requires |lost| == b + 1 - k
    ensures var r := Accept(BlockFrames(d, q, k, b), lost, segs, acc);
            Holds(d, r.0) && acc <= r.1 <= b && |r.0| == q + r.1
    decreases b + 1 - k
  {
    hide Padded7, Segment, Holds;
    if k <= b {
      var f := BlkDnSubReq(k, Segment(d, q + k - 1), 7 * (q + k) >= |d|);
      assert BlockFrames(d, q, k, b)[1..] == BlockFrames(d, q, k + 1, b);
      if !lost[0] && k == acc + 1 {
        HoldsMore(d, segs);
        AcceptsPrefix(d, q, k + 1, b, lost[1..], segs + [Padded7(f.payload)], acc + 1);
      } else {
        AcceptsPrefix(d, q, k + 1, b, lost[1..], segs, acc);
      }
    }
  }

  // -------------------------------------------------------------------------- one block

  /** At the entry of a block the server holds exactly the data before the cursor. */
  predicate Synced(s: Client, segs: seq<Bytes>) {
    && s.cur <= s.size == |s.dn|
    && (s.cur % 7 == 0 || s.cur == s.size)
    && |segs| == Segments(s.cur) && Holds(s.dn, segs)
  }

  /** The block size actually used from the cursor on. */
  function BlockSize(s: Client): nat { if s.cur <= s.size then Min((s.size - s.cur + 6) / 7, s.blksize) else 0 }

  lemma EntersBlock(s: Client, segs: seq<Bytes>)
    requires Synced(s, segs) && s.cur < s.size && 0 < s.blksize <= MAX_SEQNO
    ensures var s', b, q := BlkDnSubEnter(s), BlockSize(s), s.cur / 7;
            && 0 < b <= Segments(s.size) - q && 7 * (q + b - 1) < |s.dn| && s.cur == 7 * q
            && s' == s.(phase := BlkDnSub, blksize := b, timerOn := s'.timerOn, cur := Min(s.size, s.cur + 7 * b), out := s'.out)
            && s'.out == s.out + BlockFrames(s.dn, q, 1, b)
  {
    hide SendBlock, BlockFrames, Holds, AbortRes;
    var n := s.size - s.cur;
    var s1 := Arm(s.(blksize := Min((n + 6) / 7, s.blksize)));
    SegmentsLeft(s.size, s.cur, s1.blksize);
    CsdoRuns.SendBlockIs(s1, 1);
    BlockSent(s1, s.cur / 7, 1);
  }

  lemma SegmentsLeft(size: nat, cur: nat, b: nat)
    requires cur < size && cur % 7 == 0 && 0 < b <= (size - cur + 6) / 7
    ensures cur == 7 * (cur / 7) && (size - cur + 6) / 7 == Segments(size) - cur / 7
    ensures 7 * (cur / 7 + b - 1) < size
  {
  }

  /** The cursor after an acknowledgement points behind the last accepted segment. */
  lemma RewindsTo(size: nat, q: nat, b: nat, a: nat)
    requires 0 < b <= Segments(size) - q && a <= b && 7 * q < size
    ensures Rewind(Min(size, 7 * q + 7 * b), b, a) == Min(size, 7 * (q + a))
  {
  }

  /** A server response: a segments accepted, next is the block size for the next block. */
  predicate IsAck(m: Msg, a: nat, next: nat) {
    && Frame(m) && m.len >= 3 && SpecOf(m.data[0]).BlkDnRes? && SubOf(m.data[0]) == 2
    && m.data[1] as int == a && m.data[2] as int == next
  }

  lemma AckHandled(s1: Client, m: Msg, a: nat, next: nat)
    requires Sound(s1) && s1.phase.BlkDnSub? && IsAck(m, a, next) && 0 <= Rewind(s1.cur, s1.blksize, a) <= s1.cur
    ensures BlkDnSubRecv(s1, m) == BlkDnSubEnter(s1.(cur := Rewind(s1.cur, s1.blksize, a), blksize := next))
  {
  }

  lemma {:induction false} FlatHolds(d: Bytes, segs: seq<Bytes>)
    requires Holds(d, segs) && (segs != [] ==> 7 * |segs| <= |d|)
    ensures Flat(segs) == d[..7 * |segs|]
    decreases |segs|
  {
    if segs != [] {
      var n := |segs| - 1;
      FlatHolds(d, segs[..n]);
      assert segs[n] == Padded7(Segment(d, n));
      assert Segment(d, n) == d[7 * n..7 * n + 7];
      assert d[..7 * n] + d[7 * n..7 * n + 7] == d[..7 * (n + 1)];
    }
  }

  /** With the right tail the segments assemble to the data. */
  lemma AssembledIs(d: Bytes, segs: seq<Bytes>)
    requires Holds(d, segs) && |segs| == Segments(|d|)
    ensures Assembled(segs, TailSize(|d|)) == d
  {
    if segs != [] {
      var n := |segs| - 1;
      FlatHolds(d, segs[..n]);
      assert segs[n] == Padded7(Segment(d, n));
      assert Segment(d, n) == d[7 * n..] && |d| - 7 * n == TailSize(|d|);
      assert d[..7 * n] + d[7 * n..] == d;
    }
  }

  // ------------------------------------------------------------------- the whole transfer

  /** The server during a block download: its segments, and how many it accepted in the current block. */
  datatype Peer = Peer(segs: seq<Bytes>, acc: nat)

  /** The events considered: acknowledgements say what the server accepted. */
  predicate Expected(s: Client, p: Peer, e: Event) {
    match e
    case RecvE(m, _) =>
      s.phase.BlkDnSub? ==>
        Frame(m) && m.len >= 1 && (SpecOf(m.data[0]).AbortCs? || (m.len >= 3 && IsAck(m, p.acc, m.data[2] as int)))
    case _ => true
  }

  /** A step of the client; the server takes what arrives of the frames sent in it. */
  predicate Round(s: Client, p: Peer, e: Event, lost: seq<bool>, s': Client, p': Peer) {
    && CsdoRuns.Step(s, e, s') && Expected(s, p, e) && |lost| == |NewOut(s, s')|
    && var r := Accept(NewOut(s, s'), lost, p.segs, if e.RecvE? then 0 else p.acc);
       p' == Peer(r.0, r.1)
  }

  /** The segment at which the current block starts. */
  function BlockStart(s: Client): int { Segments(s.cur) - s.blksize }

  /** Client and server agree on the data sent so far. */
  predicate Agree(d: Bytes, s: Client, p: Peer) {
    && s.dn == d && s.size == |d|
    && match s.phase
       case BlkDnIni => s.cur == 0 && p.segs == []
       case BlkDnSub =>
         var q := BlockStart(s);
         && 0 <= q && 7 * q < |d| && 0 < s.blksize <= Segments(|d|) - q && s.cur == Min(|d|, 7 * (q + s.blksize))
         && Holds(d, p.segs) && |p.segs| == q + p.acc && p.acc <= s.blksize
       case BlkDnEnd => Assembled(p.segs, TailSize(|d|)) == d
       case _ => false
  }

  /** The end request with the length of the last segment and, if negotiated, the checksum. */
  function EndReq(d: Bytes, crc: bool): Out { BlkDnEndReq(TailSize(|d|), if crc then Checksum(d) else 0) }

  /** From a block entry in agreement: the block goes out and the server takes a prefix, or the end request goes out. */
  lemma EnterKeeps(d: Bytes, s: Client, s2: Client, segs: seq<Bytes>, lost: seq<bool>)
    requires Synced(s2, segs) && s2.dn == d && s2.done == s.done && s2.out == s.out
    requires |lost| == |NewOut(s, BlkDnSubEnter(s2))|
    ensures var s', r := BlkDnSubEnter(s2), Accept(NewOut(s, BlkDnSubEnter(s2)), lost, segs, 0);
            || CsdoRuns.Failed(s, s')
            || (Agree(d, s', Peer(r.0, r.1)) && s'.crc == s2.crc
                && (s'.phase.BlkDnEnd? ==> NewOut(s, s') == [EndReq(d, s2.crc)]))
  {
    hide BlkDnSubEnter, Accept, Holds, AbortRes, CsdoRuns.Failed, Assembled, Checksum;
    var s' := BlkDnSubEnter(s2);
    if s2.blksize > MAX_SEQNO || (s2.cur < s2.size && s2.blksize == 0) {
      EnterRefused(s2);
      CsdoRuns.ResFails(s, s2, AC_BLK_SIZE);
    } else if s2.cur < s2.size {
      BlockTaken(d, s, s2, segs, lost);
    } else {
      EnterEnd(s2);
      assert NewOut(s, s') == [EndReq(d, s2.crc)];
      EndTaken(EndReq(d, s2.crc), lost, segs);
      AssembledIs(d, segs);
    }
  }

  lemma BlockTaken(d: Bytes, s: Client, s2: Client, segs: seq<Bytes>, lost: seq<bool>)
    requires Synced(s2, segs) && s2.dn == d && s2.out == s.out && s2.cur < s2.size && 0 < s2.blksize <= MAX_SEQNO
    requires |lost| == |NewOut(s, BlkDnSubEnter(s2))|
    ensures var s', r := BlkDnSubEnter(s2), Accept(NewOut(s, BlkDnSubEnter(s2)), lost, segs, 0);
            s'.phase.BlkDnSub? && Agree(d, s', Peer(r.0, r.1)) && s'.crc == s2.crc
  {
    hide BlkDnSubEnter, Accept, Holds, Assembled;
    var s', q, b := BlkDnSubEnter(s2), s2.cur / 7, BlockSize(s2);
    EntersBlock(s2, segs);
    assert NewOut(s, s') == BlockFrames(d, q, 1, b);
    AcceptsPrefix(d, q, 1, b, lost, segs, 0);
    BlockEnds(|d|, q, b);
  }

  lemma EnterRefused(s: Client)
    requires s.cur <= s.size == |s.dn| && (s.blksize > MAX_SEQNO || (s.cur < s.size && s.blksize == 0))
    ensures BlkDnSubEnter(s) == AbortRes(s, AC_BLK_SIZE)
  {
  }

  lemma EnterEnd(s: Client)
    requires s.cur == s.size == |s.dn| && s.blksize <= MAX_SEQNO
    ensures var s' := BlkDnSubEnter(s);
            s'.phase.BlkDnEnd? && s'.dn == s.dn && s'.size == s.size && s'.crc == s.crc && s'.out == s.out + [EndReq(s.dn, s.crc)]
  {
    hide Checksum;
  }

  /** The end request and an abort carry no segment. */
  lemma EndTaken(f: Out, lost: seq<bool>, segs: seq<Bytes>)
    requires !f.BlkDnSubReq? && |lost| == 1
    ensures Accept([f], lost, segs, 0) == (segs, 0)
  {
  }

  lemma BlockEnds(size: nat, q: nat, b: nat)
    requires 0 < b <= Segments(size) - q
    ensures Segments(Min(size, 7 * q + 7 * b)) == q + b
  {
  }

  lemma NothingTaken(segs: seq<Bytes>, acc: nat, lost: seq<bool>)
    requires lost == []
    ensures Accept([], lost, segs, acc) == (segs, acc)
  {
  }

  /** An acknowledgement puts the cursor where the server's data end. */
  lemma AckSyncs(d: Bytes, s: Client, p: Peer, m: Msg)
    requires Agree(d, s, p) && s.phase.BlkDnSub? && Frame(m) && m.len >= 3 && IsAck(m, p.acc, m.data[2] as int)
    ensures Sound(s) && 0 <= Rewind(s.cur, s.blksize, p.acc) <= s.cur
    ensures var s2 := s.(cur := Rewind(s.cur, s.blksize, p.acc), blksize := m.data[2] as int);
            Synced(s2, p.segs) && BlkDnSubRecv(s, m) == BlkDnSubEnter(s2)
  {
    hide BlkDnSubEnter, SpecOf, SubOf, Holds, Rewind, BlkDnSubRecv, IsAck;
    var q := BlockStart(s);
    RewindsTo(|d|, q, s.blksize, p.acc);
    BlockEnds(|d|, q, s.blksize);
    AckHandled(s, m, p.acc, m.data[2] as int);
  }

  lemma InitiateKeeps(d: Bytes, s: Client, p: Peer, m: Msg, memOk: bool, lost: seq<bool>)
    requires Agree(d, s, p) && s.phase.BlkDnIni? && Frame(m) && Sound(s)
    requires |lost| == |NewOut(s, BlkDnIniRecv(s, m))|
    ensures var s', r := BlkDnIniRecv(s, m), Accept(NewOut(s, BlkDnIniRecv(s, m)), lost, p.segs, 0);
            || CsdoRuns.Failed(s, s')
            || (Agree(d, s', Peer(r.0, r.1)) && (s'.phase.BlkDnEnd? ==> NewOut(s, s') == [EndReq(d, s'.crc)]))
  {
    hide SpecOf, SubOf, AbortRes, AbortBy, BlkDnSubEnter, Names, CsdoRuns.Failed, Accept, EndReq;
    CsdoRuns.ResFails(s, s, AC_NO_CS);
    CsdoRuns.ByFails(s, m);
    var s1 := s.(crc := m.data[0] & 0x04 != 0);
    CsdoRuns.ResFails(s, s1, AC_ERROR);
    CsdoRuns.ResFails(s, s1, AC_BLK_SIZE);
    var s2 := s1.(blksize := m.data[4] as int);
    if BlkDnIniRecv(s, m) == BlkDnSubEnter(s2) { EnterKeeps(d, s, s2, [], lost); }
  }

  /** Every step in agreement keeps it, fails, aborts with code zero, or is the end response, with exactly the data at the server. */
  lemma RoundKeeps(d: Bytes, s: Client, p: Peer, e: Event, lost: seq<bool>, s': Client, p': Peer)
    requires Agree(d, s, p) && Round(s, p, e, lost, s', p')
    ensures || CsdoRuns.Failed(s, s')
            || (Agree(d, s', p') && (s'.phase.BlkDnEnd? && !s.phase.BlkDnEnd? ==> NewOut(s, s') == [EndReq(d, s'.crc)]))
            || (e == AbortE(0) && !Busy(s'.phase))
            || (s.phase.BlkDnEnd? && !Busy(s'.phase) && Assembled(p'.segs, TailSize(|d|)) == d)
  {
    hide SpecOf, AbortRes, AbortBy, AbortInd, BlkDnIniRecv, BlkDnSubRecv, BlkDnEndRecv, CsdoRuns.Failed, Accept, EndReq, IsAck,
         Holds, Assembled, Requested;
    match e
    case RecvE(m, memOk) =>
      match s.phase {
        case BlkDnIni => InitiateKeeps(d, s, p, m, memOk, lost);
        case BlkDnSub =>
          if SpecOf(m.data[0]).AbortCs? {
            AbortedBy(s, m);
            CsdoRuns.ByFails(s, m);
          } else {
            AckSyncs(d, s, p, m);
            EnterKeeps(d, s, s.(cur := Rewind(s.cur, s.blksize, p.acc), blksize := m.data[2] as int), p.segs, lost);
          }
        case _ => EndKeeps(s, p.segs, m, lost);
      }
    case _ => ControlKeeps(d, s, p, e, lost, s', p');
  }

  lemma AbortedBy(s: Client, m: Msg)
    requires Frame(m) && m.len >= 1 && SpecOf(m.data[0]).AbortCs? && Sound(s) && s.phase.BlkDnSub?
    ensures BlkDnSubRecv(s, m) == AbortBy(s, m)
  {
  }

  lemma AbortOut(s: Client, m: Msg, ac: nat)
    requires Frame(m)
    ensures !Busy(AbortInd(s, ac).phase) && AbortInd(s, ac).out == s.out
    ensures !Busy(AbortBy(s, m).phase) && AbortBy(s, m).out == s.out
    ensures !Busy(AbortRes(s, ac).phase) && AbortRes(s, ac).out == s.out + [AbortReq(s.idx, s.sub, ac)]
  {
  }

  /** In the end state the client sends an abort frame or nothing. */
  lemma EndOut(s: Client, m: Msg)
    requires Frame(m)
    ensures var s' := BlkDnEndRecv(s, m);
            !Busy(s'.phase) && (s'.out == s.out || s'.out == s.out + [AbortReq(s.idx, s.sub, AC_NO_CS)])
  {
    hide SpecOf, SubOf, AbortInd, AbortRes, AbortBy;
    AbortOut(s, m, 0);
    AbortOut(s, m, AC_NO_CS);
  }

  lemma EndKeeps(s: Client, segs: seq<Bytes>, m: Msg, lost: seq<bool>)
    requires Frame(m) && |lost| == |NewOut(s, BlkDnEndRecv(s, m))|
    ensures var s' := BlkDnEndRecv(s, m);
            !Busy(s'.phase) && Accept(NewOut(s, s'), lost, segs, 0) == (segs, 0)
  {
    hide BlkDnEndRecv;
    EndOut(s, m);
    var f := AbortReq(s.idx, s.sub, AC_NO_CS);
    assert (s.out + [f])[|s.out|..] == [f] && (s.out)[|s.out|..] == [];
  }

  lemma ControlKeeps(d: Bytes, s: Client, p: Peer, e: Event, lost: seq<bool>, s': Client, p': Peer)
    requires Agree(d, s, p) && Round(s, p, e, lost, s', p') && !e.RecvE?
    ensures || CsdoRuns.Failed(s, s') || (e == AbortE(0) && !Busy(s'.phase))
            || (Agree(d, s', p') && (s'.phase.BlkDnEnd? <==> s.phase.BlkDnEnd?))
  {
    hide CsdoRuns.Failed, Accept, Holds, Assembled, React;
    CsdoRuns.ControlFails(s, e);
    if s'.out == s.out { NothingTaken(p.segs, p.acc, lost); }
  }

  /** A block download from its request on: every step is a round, and the transfer is under way before step n. */
  predicate IsDownload(c0: Client, d: Bytes, ss: seq<Client>, ps: seq<Peer>, es: seq<Event>, losts: seq<seq<bool>>) {
    && |ss| == |ps| == |es| + 1 == |losts| + 1
    && c0.valid && c0.phase.Wait? && ss[0] == Requested(c0, BlkDn, ss[0].idx, ss[0].sub, d, !ss[0].con.NoCon?)
    && ps[0] == Peer([], 0)
    && (forall i | 0 <= i < |es| :: Busy(ss[i].phase) && Round(ss[i], ps[i], es[i], losts[i], ss[i + 1], ps[i + 1]))
  }

  lemma StartAgrees(d: Bytes, c0: Client, idx: nat, sub: nat, con: bool)
    requires c0.valid && c0.phase.Wait?
    ensures Agree(d, Requested(c0, BlkDn, idx, sub, d, con), Peer([], 0))
  {
  }

  /** As long as the transfer is under way, client and server agree. */
  lemma {:induction false} Agreement(c0: Client, d: Bytes, ss: seq<Client>, ps: seq<Peer>, es: seq<Event>, losts: seq<seq<bool>>, i: nat)
    requires IsDownload(c0, d, ss, ps, es, losts) && i < |es|
    ensures Agree(d, ss[i], ps[i])
  {
    hide Agree, Round, Requested, CsdoRuns.Failed, Assembled;
    if i == 0 {
      StartAgrees(d, c0, ss[0].idx, ss[0].sub, !ss[0].con.NoCon?);
    } else {
      Agreement(c0, d, ss, ps, es, losts, i - 1);
      RoundKeeps(d, ss[i - 1], ps[i - 1], es[i - 1], losts[i - 1], ss[i], ps[i]);
      if CsdoRuns.Failed(ss[i - 1], ss[i]) { CsdoRuns.FailedMeans(ss[i - 1], ss[i]); }
    }
  }

  /** A success confirmed by this step leaves exactly the data at the server. */
  predicate Delivered(d: Bytes, s: Client, s': Client, p': Peer) {
    |s'.done| > |s.done| && s'.done[|s.done|].ac == 0 ==> Assembled(p'.segs, TailSize(|d|)) == d
  }

  /**
   Whatever is lost: the end request carries the length of the last segment and the
   checksum of the data, and when the download is confirmed with code zero the
   segments the server accepted make up exactly the data, unless the application
   itself aborted with that code.
   */
  lemma BlockDownload(c0: Client, d: Bytes, ss: seq<Client>, ps: seq<Peer>, es: seq<Event>, losts: seq<seq<bool>>, i: nat)
    requires IsDownload(c0, d, ss, ps, es, losts) && i < |es|
    ensures ss[i + 1].phase.BlkDnEnd? && !ss[i].phase.BlkDnEnd? ==>
              NewOut(ss[i], ss[i + 1]) == [EndReq(d, ss[i + 1].crc)] && Assembled(ps[i + 1].segs, TailSize(|d|)) == d
    ensures es[i] != AbortE(0) ==> Delivered(d, ss[i], ss[i + 1], ps[i + 1])
    ensures |ss[i + 1].done| > |ss[i].done| && ss[i + 1].done[|ss[i].done|].ac == 0 ==>
              ss[i].phase.BlkDnEnd? || es[i] == AbortE(0)
  {
    hide Round, Holds, Assembled, EndReq, CsdoRuns.Failed;
    Agreement(c0, d, ss, ps, es, losts, i);
    RoundKeeps(d, ss[i], ps[i], es[i], losts[i], ss[i + 1], ps[i + 1]);
    Busies(d, ss[i], ps[i], es[i], losts[i], ss[i + 1], ps[i + 1]);
    if CsdoRuns.Failed(ss[i], ss[i + 1]) { CsdoRuns.FailedMeans(ss[i], ss[i + 1]); }
  }

  /** Nothing is confirmed while the transfer goes on. */
  lemma Busies(d: Bytes, s: Client, p: Peer, e: Event, lost: seq<bool>, s': Client, p': Peer)
    requires Agree(d, s, p) && Round(s, p, e, lost, s', p')
    ensures Busy(s'.phase) ==> s'.done == s.done
  {
    hide React, Holds, Assembled, Accept;
    if !e.RequestE? { CsdoRuns.EventEnds(s, e); } else { CsdoRuns.RequestFrame(s, e); }
  }

  /** The initiate response starts the transfer with nothing sent and nothing held. */
  lemma InitiateStarts(s: Client, m: Msg)
    requires Sound(s) && s.phase.BlkDnIni? && s.cur == 0 && Frame(m)
    requires m.len >= 5 && SpecOf(m.data[0]).BlkDnRes? && SubOf(m.data[0]) == 0 && Names(m, s)
    ensures var s1 := s.(crc := m.data[0] & 0x04 != 0, blksize := m.data[4] as int);
            BlkDnIniRecv(s, m) == BlkDnSubEnter(s1) && Synced(s1, [])
  {
  }

  // ------------------------------------------------------------ aborts by the application

  /** No download has an abort with code ac that confirms data the server does not have. */
  ghost predicate AbortsWell(ac: nat) {
    forall c0, d, ss, ps, es, losts, i | IsDownload(c0, d, ss, ps, es, losts) && 0 <= i < |es| && es[i] == AbortE(ac) ::
      Delivered(d, ss[i], ss[i + 1], ps[i + 1])
  }

  lemma AbortAtOnce(s: Client, d: Bytes)
    requires s == Requested(Started(NEW, true), BlkDn, 0, 0, d, true)
    ensures s.con.DnCon? && s.phase.BlkDnIni? && Sound(s) && s.idx == 0 && s.sub == 0
    ensures var c := React(s, AbortE(0));
            NewOut(s, c) == [AbortReq(0, 0, 0)] && |c.done| == |s.done| + 1 && c.done[|s.done|].ac == 0
  {
  }

  /** A download of any data, aborted with code zero before the server has answered: a success with nothing at the server. */
  lemma NothingSent(d: Bytes) returns (c0: Client, ss: seq<Client>, ps: seq<Peer>, es: seq<Event>, losts: seq<seq<bool>>)
    requires d != []
    ensures IsDownload(c0, d, ss, ps, es, losts) && es == [AbortE(0)] && c0 == Started(NEW, true)
    ensures |ss[1].done| == |ss[0].done| + 1 && ss[1].done[|ss[0].done|].ac == 0 && ps[1].segs == []
    ensures !Delivered(d, ss[0], ss[1], ps[1])
  {
    hide React, Requested;
    c0 := Started(NEW, true);
    var s := Requested(c0, BlkDn, 0, 0, d, true);
    AbortAtOnce(s, d);
    ss, ps, es, losts := [s, React(s, AbortE(0))], [Peer([], 0), Peer([], 0)], [AbortE(0)], [[false]];
    EndTaken(AbortReq(0, 0, 0), [false], []);
    assert CsdoRuns.Step(s, es[0], ss[1]);
    assert Round(s, ps[0], es[0], losts[0], ss[1], ps[1]);
  }

  /** Every success leaves the data at the server, exactly if the application aborts with codes other than zero. */
  lemma AbortCodes(ac: nat)
    ensures AbortsWell(ac) <==> ac != 0
  {
    hide Round, Requested, Delivered;
    if ac == 0 {
      var c0, ss, ps, es, losts := NothingSent([0]);
      assert !Delivered([0], ss[0], ss[0 + 1], ps[0 + 1]);
    } else {
      forall c0, d, ss, ps, es, losts, i | IsDownload(c0, d, ss, ps, es, losts) && 0 <= i < |es| && es[i] == AbortE(ac)
        ensures Delivered(d, ss[i], ss[i + 1], ps[i + 1])
      {
        BlockDownload(c0, d, ss, ps, es, losts, i);
      }
    }
  }
}
