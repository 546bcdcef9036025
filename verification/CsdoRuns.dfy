/** What every run of a Client-SDO keeps: timers, receivers, confirmations. */
module CsdoRuns {
  import opened MemBuf
  import opened CsdoModel

  // -------------------------------------------------------------------- invariant

  /** Accepted requests are confirmed in order, and at most one is outstanding. */
  predicate Books(s: Client) {
    && |s.asked| == |s.done| + (if s.con.NoCon? then 0 else 1)
    && (forall k | 0 <= k < |s.done| :: s.done[k].what == s.asked[k])
    && (!s.con.NoCon? ==> s.asked[|s.done|] == Asked(s.idx, s.sub, s.con.UpCon?))
  }

  predicate Flags(s: Client) {
    && (s.timerOn ==> Busy(s.phase) && s.timeout > 0)
    && (s.recvOn ==> !s.phase.Stopped? && s.valid)
    && (s.con.DnCon? ==> Downloading(s.phase))
    && (s.con.UpCon? ==> Uploading(s.phase))
  }

  /** Upload data never exceed the announced size or the buffer. */
  predicate UpFits(s: Client) {
    && ((s.phase.UpIni? || s.phase.BlkUpIni?) ==> s.up == [])
    && ((s.phase.UpSeg? || s.phase.BlkUpSub? || s.phase.BlkUpEnd?) ==> |s.up| <= s.size <= s.room)
    && (s.phase.BlkUpIni? ==> 1 <= s.blksize <= MAX_SEQNO)
  }

  predicate Inv(s: Client) { Sound(s) && Books(s) && Flags(s) && UpFits(s) }

  // --------------------------------------------------------------- leaving a state

  lemma AbortIndKeeps(s: Client, ac: nat)
    requires Books(s) && (s.recvOn ==> s.valid)
    ensures Inv(AbortInd(s, ac)) && AbortInd(s, ac).phase.Wait?
  {
  }

  /** A step that stays in the transfer, or goes on to another state of the same direction. */
  predicate Continues(s: Client, s': Client) {
    && s'.asked == s.asked && s'.done == s.done && s'.con == s.con && s'.idx == s.idx && s'.sub == s.sub
    && s'.valid == s.valid && s'.recvOn == s.recvOn && s'.timeout == s.timeout
    && (s'.timerOn ==> s.timerOn || s.timeout > 0)
    && (Downloading(s.phase) ==> Downloading(s'.phase)) && (Uploading(s.phase) ==> Uploading(s'.phase))
  }

  lemma ContinuesKeeps(s: Client, s': Client)
    requires Inv(s) && Busy(s.phase) && Continues(s, s') && Sound(s') && UpFits(s')
    ensures Inv(s')
  {
  }

  // ---------------------------------------------------------------------- download

  lemma DnSegEnterKeeps(s: Client)
    requires Books(s) && Flags(s) && Downloading(s.phase) && s.cur <= s.size == |s.dn|
    ensures Inv(DnSegEnter(s))
  {
    hide Books, AbortInd;
    AbortIndKeeps(s, 0);
    var n := s.size - s.cur;
    if n > 0 || (s.size == 0 && !s.toggle) { BooksSame(s, DnSegEnter(s)); }
  }

  /** What SendBlock changes: the cursor and the frames sent. */
  lemma {:induction false} SendBlockIs(s: Client, k: nat)
    requires s.cur <= s.size == |s.dn| && 1 <= k <= s.blksize + 1
    ensures var s' := SendBlock(s, k);
            && s' == s.(cur := s'.cur, out := s'.out)
            && s'.cur == Min(s.size, s.cur + 7 * (s.blksize + 1 - k))
    decreases s.blksize + 1 - k
  {
    hide SendBlock;
    if k <= s.blksize {
      BlockNext(s, k);
      SendBlockIs(SendSub(s, k), k + 1);
    } else {
      BlockOver(s, k);
    }
  }

  lemma BlockFits(size: nat, cur: nat, b: nat)
    requires cur <= size && b <= (size - cur + 6) / 7
    ensures b <= (Min(size, cur + 7 * b) + 6) / 7
  {
  }

  lemma BlkDnSubEnterKeeps(s: Client)
    requires Books(s) && Flags(s) && Downloading(s.phase) && s.cur <= s.size == |s.dn|
    ensures Inv(BlkDnSubEnter(s))
  {
    hide Books, AbortRes, Inv, Flags, SendBlock;
    AbortResKeeps(s, AC_BLK_SIZE) by { FlagsRecv(s); }
    var n := s.size - s.cur;
    var s1 := Arm(s.(blksize := Min((n + 6) / 7, s.blksize)));
    if n > 0 {
      BlockKeeps(s, s1);
    } else {
      EndKeeps(s, s1, Send(s1, BlkDnEndReq(TailSize(s.size), if s.crc then Checksum(s.dn) else 0)).(phase := BlkDnEnd));
    }
  }

  lemma FlagsRecv(s: Client)
    requires Flags(s)
    ensures s.recvOn ==> s.valid
  {
  }

  lemma BlockKeeps(s: Client, s1: Client)
    requires Books(s) && Flags(s) && Downloading(s.phase) && s.cur < s.size == |s.dn|
    requires s1 == Arm(s.(blksize := s1.blksize)) && s1.blksize <= (s.size - s.cur + 6) / 7
    ensures Inv(SendBlock(s1, 1).(phase := BlkDnSub))
  {
    hide Books;
    SendBlockIs(s1, 1);
    BlockFits(s.size, s.cur, s1.blksize);
    BooksSame(s, SendBlock(s1, 1).(phase := BlkDnSub));
  }

  lemma EndKeeps(s: Client, s1: Client, s2: Client)
    requires Books(s) && Flags(s) && Downloading(s.phase) && s.cur == s.size == |s.dn|
    requires s1 == Arm(s.(blksize := s1.blksize)) && s2 == s1.(out := s2.out, phase := BlkDnEnd)
    ensures Inv(s2)
  {
  }

  lemma SendBooks(s: Client, f: Out)
    requires Books(s)
    ensures Books(Send(s, f))
  {
  }

  lemma BooksSame(s: Client, s': Client)
    requires Books(s) && s'.asked == s.asked && s'.done == s.done && s'.con == s.con && s'.idx == s.idx && s'.sub == s.sub
    ensures Books(s')
  {
  }

  lemma AbortResKeeps(s: Client, ac: nat)
    requires Books(s) && (s.recvOn ==> s.valid)
    ensures Inv(AbortRes(s, ac)) && AbortRes(s, ac).phase.Wait? && AbortRes(s, ac).valid == s.valid
  {
  }

  lemma AbortByKeeps(s: Client, m: Msg)
    requires Books(s) && (s.recvOn ==> s.valid) && Frame(m)
    ensures Inv(AbortBy(s, m)) && AbortBy(s, m).phase.Wait?
  {
  }

  lemma DnRecvKeeps(s: Client, m: Msg)
    requires Inv(s) && Frame(m) && (s.phase.DnIni? || s.phase.DnSeg? || s.phase.BlkDnEnd?)
    ensures s.phase.DnIni? ==> Inv(DnIniRecv(s, m))
    ensures s.phase.DnSeg? ==> Inv(DnSegRecv(s, m))
    ensures s.phase.BlkDnEnd? ==> Inv(BlkDnEndRecv(s, m))
  {
    hide Books, AbortInd, AbortRes, AbortBy, DnSegEnter, SpecOf, Inv;
    InvParts(s);
    AbortResKeeps(s, AC_NO_CS);
    AbortResKeeps(s, AC_ERROR);
    AbortResKeeps(s, AC_TOGGLE);
    AbortByKeeps(s, m);
    AbortIndKeeps(s, 0);
    DnSegEnterKeeps(s);
  }

  lemma InvParts(s: Client)
    requires Inv(s)
    ensures Sound(s) && Books(s) && Flags(s) && UpFits(s) && (s.recvOn ==> s.valid)
  {
  }

  lemma BlkDnIniKeeps(s: Client, m: Msg)
    requires Inv(s) && Frame(m) && s.phase.BlkDnIni?
    ensures Inv(BlkDnIniRecv(s, m))
  {
    hide Books, AbortInd, AbortRes, AbortBy, BlkDnSubEnter, SpecOf, Inv, UpFits;
    InvParts(s);
    var s1 := s.(crc := m.data[0] & 0x04 != 0);
    BooksSame(s, s1);
    AbortResKeeps(s, AC_NO_CS);
    AbortResKeeps(s1, AC_ERROR);
    AbortResKeeps(s1, AC_BLK_SIZE);
    AbortByKeeps(s, m);
    var s2 := s1.(blksize := m.data[4] as int);
    BooksSame(s1, s2);
    BlkDnSubEnterKeeps(s2);
  }

  lemma RewindFits(cur: nat, b: nat, a: nat)
    requires b <= (cur + 6) / 7
    ensures 0 <= Rewind(cur, b, a) <= cur
  {
  }

  lemma BlkDnSubKeeps(s: Client, m: Msg)
    requires Inv(s) && Frame(m) && s.phase.BlkDnSub?
    ensures Inv(BlkDnSubRecv(s, m))
  {
    hide Books, AbortInd, AbortRes, AbortBy, BlkDnSubEnter, SpecOf, Inv, UpFits, Rewind;
    InvParts(s);
    RewindFits(s.cur, s.blksize, m.data[1] as int);
    var s1 := s.(cur := Rewind(s.cur, s.blksize, m.data[1] as int));
    BooksSame(s, s1);
    AbortResKeeps(s, AC_NO_CS);
    AbortResKeeps(s, AC_BLK_SEQ);
    AbortResKeeps(s1, AC_BLK_SIZE);
    AbortByKeeps(s, m);
    var s2 := s1.(blksize := m.data[2] as int);
    BooksSame(s1, s2);
    BlkDnSubEnterKeeps(s2);
  }

  // ------------------------------------------------------------------------ upload

  /** After making room the announced bytes fit. */
  lemma ReserveFits(s: Client)
    requires s.up == []
    ensures Reserve(s) == s.(room := Reserve(s).room) && s.size <= Reserve(s).room
  {
  }

  lemma UpIniAcceptKeeps(s: Client, m: Msg, memOk: bool)
    requires Inv(s) && Frame(m) && m.len >= 4 && (s.phase.UpIni? || s.phase.BlkUpIni?)
    ensures Inv(UpIniAccept(s, m, memOk))
  {
    hide Books, AbortInd, AbortRes, Inv, UpIniSize, Padded, Reserve, HasRoom;
    InvParts(s);
    var s1 := s.(size := UpIniSize(m));
    ReserveFits(s1);
    BooksSame(s, s1);
    AbortResKeeps(s1, AC_NO_MEM);
    var s2 := Reserve(s1);
    var s3 := s2.(up := s2.up + Padded(m)[..Min(s2.size, 4)]);
    BooksSame(s, s3);
    AbortIndKeeps(s3, 0);
    BeginSegments(s, s2);
  }

  lemma BeginSegments(s: Client, s2: Client)
    requires Inv(s) && (s.phase.UpIni? || s.phase.BlkUpIni?) && s2 == s.(size := s2.size, room := s2.room) && s2.size <= s2.room
    ensures Inv(Send(Arm(s2), UpSegReq(s2.toggle)).(toggle := !s2.toggle, phase := UpSeg))
  {
  }

  lemma UpIniKeeps(s: Client, m: Msg, memOk: bool)
    requires Inv(s) && Frame(m) && (s.phase.UpIni? || s.phase.BlkUpIni?)
    ensures Inv(UpIniRecv(s, m, memOk))
  {
    hide Books, AbortInd, AbortRes, AbortBy, Inv, UpIniAccept, SpecOf;
    InvParts(s);
    AbortResKeeps(s, AC_NO_CS);
    AbortResKeeps(s, AC_ERROR);
    AbortByKeeps(s, m);
    if m.len >= 4 { UpIniAcceptKeeps(s, m, memOk); }
  }

  lemma UpSegAcceptKeeps(s: Client, m: Msg)
    requires Inv(s) && Frame(m) && m.len >= 1 && s.phase.UpSeg?
    ensures Inv(UpSegAccept(s, m))
  {
    hide Books, AbortInd, AbortRes, Inv, SegSize;
    InvParts(s);
    AbortResKeeps(s, AC_NO_CS);
    AbortResKeeps(s, AC_TYPE_LEN_HI);
    var n := SegSize(m.data[0]);
    if m.len >= 1 + n && |s.up| + n <= s.size {
      var s1 := s.(up := s.up + m.data[1..1 + n]);
      BooksSame(s, s1);
      AbortResKeeps(s1, AC_TYPE_LEN_LO);
      AbortIndKeeps(s1, 0);
      MoreSegments(s, s1);
    }
  }

  lemma MoreSegments(s: Client, s1: Client)
    requires Inv(s) && s.phase.UpSeg? && s1 == s.(up := s1.up) && |s1.up| <= s1.size
    ensures Inv(Send(Arm(s1), UpSegReq(s1.toggle)).(toggle := !s1.toggle))
  {
  }

  lemma UpSegKeeps(s: Client, m: Msg)
    requires Inv(s) && Frame(m) && s.phase.UpSeg?
    ensures Inv(UpSegRecv(s, m))
  {
    hide Books, AbortInd, AbortRes, AbortBy, Inv, UpSegAccept, SpecOf;
    InvParts(s);
    AbortResKeeps(s, AC_NO_CS);
    AbortByKeeps(s, m);
    if m.len >= 1 { UpSegAcceptKeeps(s, m); }
  }

  lemma HalveKeeps(s: Client)
    requires Inv(s) && s.phase.BlkUpIni? && s.blksize > 1
    ensures Inv(Halve(s))
  {
  }

  lemma BlkUpAcceptKeeps(s: Client, m: Msg, memOk: bool)
    requires Inv(s) && Frame(m) && m.len >= 4 && s.phase.BlkUpIni?
    ensures Inv(BlkUpIniAccept(s, m, memOk))
  {
    hide Books, AbortRes, Inv, BlkUpSize, Reserve, HasRoom;
    InvParts(s);
    ReserveFits(s.(size := BlkUpSize(m)));
    var s1 := s.(size := BlkUpSize(m));
    BooksSame(s, s1);
    AbortResKeeps(s1, AC_NO_MEM);
    var s2 := Reserve(s1);
    ContinuesKeeps(s, Send(Arm(s2.(ackseq := 0)), StartUpReq).(phase := BlkUpSub));
  }

  lemma BlkUpIniKeeps(s: Client, m: Msg, memOk: bool)
    requires Inv(s) && Frame(m) && s.phase.BlkUpIni?
    ensures Inv(BlkUpIniRecv(s, m, memOk))
  {
    hide Books, AbortInd, AbortRes, AbortBy, Inv, UpIniRecv, SpecOf, BlkUpIniAccept, Halve;
    InvParts(s);
    AbortResKeeps(s, AC_NO_CS);
    AbortByKeeps(s, m);
    UpIniKeeps(s, m, memOk);
    if s.blksize > 1 { HalveKeeps(s); }
    var s1 := s.(crc := m.data[0] & 0x04 != 0);
    BooksSame(s, s1);
    ContinuesKeeps(s, s1);
    AbortResKeeps(s1, AC_ERROR);
    if m.len >= 4 { BlkUpAcceptKeeps(s1, m, memOk); }
  }

  lemma BlkUpAckKeeps(s: Client, s1: Client, seqno: nat, last: bool)
    requires Inv(s) && s.phase.BlkUpSub? && Continues(s, s1) && |s1.up| <= s1.size <= s1.room
    ensures Inv(BlkUpSubAck(s1, seqno, last))
  {
    hide Books, Inv;
    InvParts(s);
    ContinuesKeeps(s, BlkUpSubAck(s1, seqno, last));
  }

  lemma BlkUpSubKeeps(s: Client, m: Msg)
    requires Inv(s) && Frame(m) && s.phase.BlkUpSub?
    ensures Inv(BlkUpSubRecv(s, m))
  {
    hide Books, AbortInd, AbortRes, AbortBy, Inv, SeqOf, LastOf, BlkUpSubAck;
    InvParts(s);
    AbortResKeeps(s, AC_NO_CS);
    AbortByKeeps(s, m);
    var n := SegBytes(s);
    var s1 := s.(ackseq := s.ackseq + 1);
    BooksSame(s, s1);
    AbortResKeeps(s1, AC_TYPE_LEN_HI);
    if m.len >= 1 {
      var seqno, last := SeqOf(m.data[0]), LastOf(m.data[0]);
      BlkUpAckKeeps(s, s, seqno, last);
      BlkUpAckKeeps(s, s1.(up := s.up + m.data[1..1 + n]), seqno, last);
    }
  }

  lemma BlkUpEndKeeps(s: Client, m: Msg, crcOk: bool)
    requires Inv(s) && Frame(m) && s.phase.BlkUpEnd?
    ensures Inv(BlkUpEndRecv(s, m, crcOk))
  {
    hide Books, AbortInd, AbortRes, AbortBy, Inv, SpecOf;
    InvParts(s);
    AbortResKeeps(s, AC_NO_CS);
    AbortResKeeps(s, AC_TYPE_LEN_LO);
    AbortResKeeps(s, AC_BLK_CRC);
    AbortByKeeps(s, m);
    SendBooks(s, BlkUpEndRes);
    AbortIndKeeps(Send(s, BlkUpEndRes), 0);
  }

  // ------------------------------------------------------------------------ events

  lemma RecvKeeps(s: Client, m: Msg, memOk: bool)
    requires Inv(s) && Frame(m)
    ensures Inv(OnRecv(s, m, memOk))
  {
    hide Books, AbortInd, AbortRes, AbortBy, Inv, DnIniRecv, DnSegRecv, UpIniRecv, UpSegRecv, BlkDnIniRecv, BlkDnSubRecv,
         BlkDnEndRecv, BlkUpIniRecv, BlkUpSubRecv, BlkUpEndRecv, SpecOf;
    InvParts(s);
    match s.phase
    case Stopped =>
    case Wait => AbortResKeeps(s, AC_NO_CS); AbortByKeeps(s, m);
    case DnIni => DnRecvKeeps(s, m);
    case DnSeg => DnRecvKeeps(s, m);
    case UpIni => UpIniKeeps(s, m, memOk);
    case UpSeg => UpSegKeeps(s, m);
    case BlkDnIni => BlkDnIniKeeps(s, m);
    case BlkDnSub => BlkDnSubKeeps(s, m);
    case BlkDnEnd => DnRecvKeeps(s, m);
    case BlkUpIni => BlkUpIniKeeps(s, m, memOk);
    case BlkUpSub => BlkUpSubKeeps(s, m);
    case BlkUpEnd => BlkUpEndKeeps(s, m, CrcMatches(s, m));
  }

  lemma RequestKeeps(s: Client, kind: Kind, idx: nat, sub: nat, data: Bytes, con: bool)
    requires Inv(s)
    ensures Inv(Requested(s, kind, idx, sub, data, con))
  {
    hide Books;
    if s.valid && s.phase.Wait? {
      var s1 := Arm(Begun(s, kind, idx, sub, data, con));
      BegunBooks(s, kind, idx, sub, data, con);
      BooksSame(s1, Requested(s, kind, idx, sub, data, con));
    }
  }

  lemma BegunBooks(s: Client, kind: Kind, idx: nat, sub: nat, data: Bytes, con: bool)
    requires Inv(s) && s.phase.Wait?
    ensures Books(Arm(Begun(s, kind, idx, sub, data, con)))
  {
  }

  lemma AbortedKeeps(s: Client, ac: nat)
    requires Inv(s) || (Books(s) && Busy(s.phase) && (s.recvOn ==> s.valid))
    ensures Inv(Aborted(s, ac)) && !Busy(Aborted(s, ac).phase)
    ensures !s.phase.Stopped? ==> Aborted(s, ac).phase.Wait? && Aborted(s, ac).valid == s.valid
  {
    hide Books, AbortRes;
    if Busy(s.phase) { AbortResKeeps(s, ac); }
  }

  lemma ControlKeeps(s: Client, e: Event)
    requires Inv(s) && Possible(s, e) && !e.RecvE? && !e.RequestE?
    ensures Inv(React(s, e))
  {
    hide Books, AbortRes;
    match e
    case StartE(valid) => BooksSame(s, React(s, e).(con := s.con));
    case StopE =>
      AbortedKeeps(s, AC_NO_SDO);
      var s1 := Aborted(s, AC_NO_SDO);
      BooksSame(s1, s1.(timerOn := false, recvOn := false, phase := Stopped));
    case UpdateE(valid) =>
      var s1 := s.(valid := valid, recvOn := false);
      UpdateAlike(s, valid);
      BooksSame(s, s1);
      AbortedKeeps(s1, AC_NO_SDO);
      BooksSame(Aborted(s1, AC_NO_SDO), React(s, e));
    case SetTimeoutE(t) => BooksSame(s, React(s, e));
    case AbortE(ac) => AbortedKeeps(s, ac);
    case TimeE =>
      BooksSame(s, s.(timerOn := false));
      AbortedKeeps(s.(timerOn := false), AC_TIMEOUT);
    case _ =>
  }

  /** Whether the receiver was on does not matter for the abort of an update. */
  lemma UpdateAlike(s: Client, valid: bool)
    ensures Updated(s, valid) == Aborted(s.(valid := valid, recvOn := false), AC_NO_SDO).(recvOn := valid)
  {
  }

  lemma ReactKeeps(s: Client, e: Event)
    requires Inv(s) && Possible(s, e)
    ensures Inv(React(s, e))
  {
    hide Inv, OnRecv, Requested, OnTime, Updated, StoppedAfter, Started, Aborted;
    match e
    case RecvE(m, memOk) => RecvKeeps(s, m, memOk);
    case RequestE(kind, idx, sub, data, con) => RequestKeeps(s, kind, idx, sub, data, con);
    case _ => ControlKeeps(s, e);
  }

  // ------------------------------------------------------------------ confirmation

  /** A step either confirms nothing, or ends idle with one confirmation more if one was due. */
  predicate Ends(s: Client, s': Client) {
    && s'.asked == s.asked
    && (s'.done == s.done
        || (!Busy(s'.phase) && s'.con.NoCon? && s.done <= s'.done && |s'.done| == |s.done| + 1))
  }

  lemma AbortIndEnds(s: Client, s1: Client, ac: nat)
    requires s1.asked == s.asked && s1.done == s.done
    ensures Ends(s, AbortInd(s1, ac)) && Ends(s, AbortRes(s1, ac))
  {
  }

  lemma AbortByEnds(s: Client, m: Msg)
    requires Frame(m)
    ensures Ends(s, AbortBy(s, m))
  {
  }

  lemma DnSegEnterEnds(s: Client)
    requires s.cur <= s.size == |s.dn|
    ensures Ends(s, DnSegEnter(s))
  {
  }

  lemma BlkDnSubEnterEnds(s: Client)
    requires s.cur <= s.size == |s.dn|
    ensures Ends(s, BlkDnSubEnter(s))
  {
    hide AbortRes, SendBlock, Checksum;
    AbortIndEnds(s, s, AC_BLK_SIZE);
    SendBlockIs(Arm(s.(blksize := Min((s.size - s.cur + 6) / 7, s.blksize))), 1);
  }

  lemma DnEnds(s: Client, m: Msg)
    requires Sound(s) && Frame(m)
    ensures s.phase.DnIni? ==> Ends(s, DnIniRecv(s, m))
    ensures s.phase.DnSeg? ==> Ends(s, DnSegRecv(s, m))
    ensures s.phase.BlkDnEnd? ==> Ends(s, BlkDnEndRecv(s, m))
  {
    hide AbortInd, AbortRes, AbortBy, DnSegEnter, SpecOf, Ends;
    AbortIndEnds(s, s, 0);
    AbortIndEnds(s, s, AC_NO_CS);
    AbortIndEnds(s, s, AC_ERROR);
    AbortIndEnds(s, s, AC_TOGGLE);
    AbortByEnds(s, m);
    if Downloading(s.phase) { DnSegEnterEnds(s); }
  }

  /** Ends looks at the histories only. */
  lemma EndsFrom(s: Client, s1: Client, s': Client)
    requires s1.asked == s.asked && s1.done == s.done && Ends(s1, s')
    ensures Ends(s, s')
  {
  }

  lemma BlkDnIniEnds(s: Client, m: Msg)
    requires Sound(s) && Frame(m) && s.phase.BlkDnIni?
    ensures Ends(s, BlkDnIniRecv(s, m))
  {
    hide AbortInd, AbortRes, AbortBy, BlkDnSubEnter, SpecOf, Ends;
    var s1 := s.(crc := m.data[0] & 0x04 != 0);
    AbortIndEnds(s, s, AC_NO_CS);
    AbortIndEnds(s, s1, AC_ERROR);
    AbortIndEnds(s, s1, AC_BLK_SIZE);
    AbortByEnds(s, m);
    var s2 := s1.(blksize := m.data[4] as int);
    BlkDnSubEnterEnds(s2);
    EndsFrom(s, s2, BlkDnSubEnter(s2));
  }

  lemma BlkDnSubEnds(s: Client, m: Msg)
    requires Sound(s) && Frame(m) && s.phase.BlkDnSub?
    ensures Ends(s, BlkDnSubRecv(s, m))
  {
    hide AbortInd, AbortRes, AbortBy, BlkDnSubEnter, SpecOf, Ends, Rewind;
    RewindFits(s.cur, s.blksize, m.data[1] as int);
    var s1 := s.(cur := Rewind(s.cur, s.blksize, m.data[1] as int));
    AbortIndEnds(s, s, AC_NO_CS);
    AbortIndEnds(s, s, AC_BLK_SEQ);
    AbortIndEnds(s, s1, AC_BLK_SIZE);
    AbortByEnds(s, m);
    var s2 := s1.(blksize := m.data[2] as int);
    BlkDnSubEnterEnds(s2);
    EndsFrom(s, s2, BlkDnSubEnter(s2));
  }

  lemma UpIniEnds(s: Client, m: Msg, memOk: bool)
    requires Frame(m)
    ensures Ends(s, UpIniRecv(s, m, memOk))
  {
    hide AbortInd, AbortRes, AbortBy, SpecOf, UpIniAccept;
    AbortIndEnds(s, s, AC_NO_CS);
    AbortIndEnds(s, s, AC_ERROR);
    AbortByEnds(s, m);
    if m.len >= 4 { UpIniAcceptEnds(s, m, memOk); }
  }

  lemma UpIniAcceptEnds(s: Client, m: Msg, memOk: bool)
    requires Frame(m) && m.len >= 4
    ensures Ends(s, UpIniAccept(s, m, memOk))
  {
    hide AbortInd, AbortRes, UpIniSize, Padded;
    var s1 := s.(size := UpIniSize(m));
    AbortIndEnds(s, s1, AC_NO_MEM);
    var s2 := Reserve(s1);
    AbortIndEnds(s, s2.(up := s2.up + Padded(m)[..Min(s2.size, 4)]), 0);
  }

  lemma UpSegEnds(s: Client, m: Msg)
    requires Frame(m)
    ensures Ends(s, UpSegRecv(s, m))
  {
    hide AbortInd, AbortRes, AbortBy, SpecOf, SegSize;
    AbortIndEnds(s, s, AC_NO_CS);
    AbortIndEnds(s, s, AC_TYPE_LEN_HI);
    AbortByEnds(s, m);
    if m.len >= 1 {
      var n := SegSize(m.data[0]);
      if m.len >= 1 + n {
        var s1 := s.(up := s.up + m.data[1..1 + n]);
        AbortIndEnds(s, s1, AC_TYPE_LEN_LO);
        AbortIndEnds(s, s1, 0);
      }
    }
  }

  lemma BlkUpAcceptEnds(s: Client, m: Msg, memOk: bool)
    requires Frame(m) && m.len >= 4
    ensures Ends(s, BlkUpIniAccept(s, m, memOk))
  {
    hide AbortRes, BlkUpSize;
    AbortIndEnds(s, s.(size := BlkUpSize(m)), AC_NO_MEM);
  }

  lemma BlkUpIniEnds(s: Client, m: Msg, memOk: bool)
    requires Frame(m)
    ensures Ends(s, BlkUpIniRecv(s, m, memOk))
  {
    hide AbortInd, AbortRes, AbortBy, SpecOf, UpIniRecv, BlkUpIniAccept, Ends;
    AbortIndEnds(s, s, AC_NO_CS);
    AbortByEnds(s, m);
    UpIniEnds(s, m, memOk);
    HalveEnds(s);
    var s1 := s.(crc := m.data[0] & 0x04 != 0);
    AbortIndEnds(s, s1, AC_ERROR);
    if m.len >= 4 {
      BlkUpAcceptEnds(s1, m, memOk);
      EndsFrom(s, s1, BlkUpIniAccept(s1, m, memOk));
    }
  }

  lemma HalveEnds(s: Client)
    ensures Ends(s, Halve(s))
  {
  }

  lemma AckEnds(s: Client, s1: Client, seqno: nat, last: bool)
    requires s1.asked == s.asked && s1.done == s.done
    ensures Ends(s, BlkUpSubAck(s1, seqno, last))
  {
  }

  lemma BlkUpSubEnds(s: Client, m: Msg)
    requires Sound(s) && Frame(m) && s.phase.BlkUpSub?
    ensures Ends(s, BlkUpSubRecv(s, m))
  {
    hide AbortInd, AbortRes, AbortBy, SeqOf, LastOf, BlkUpSubAck, Ends;
    AbortIndEnds(s, s, AC_NO_CS);
    var s1 := s.(ackseq := s.ackseq + 1);
    AbortIndEnds(s, s1, AC_TYPE_LEN_HI);
    AbortByEnds(s, m);
    if m.len >= 1 {
      var seqno, last := SeqOf(m.data[0]), LastOf(m.data[0]);
      AckEnds(s, s, seqno, last);
      AckEnds(s, s1.(up := s.up + m.data[1..1 + SegBytes(s)]), seqno, last);
    }
  }

  lemma BlkUpEndEnds(s: Client, m: Msg, crcOk: bool)
    requires Frame(m)
    ensures Ends(s, BlkUpEndRecv(s, m, crcOk))
  {
    hide AbortInd, AbortRes, AbortBy, SpecOf, Ends;
    AbortIndEnds(s, s, AC_NO_CS);
    AbortIndEnds(s, s, AC_TYPE_LEN_LO);
    AbortIndEnds(s, s, AC_BLK_CRC);
    AbortIndEnds(s, Send(s, BlkUpEndRes), 0);
    AbortByEnds(s, m);
  }

  lemma RecvEnds(s: Client, m: Msg, memOk: bool)
    requires Sound(s) && Frame(m)
    ensures Ends(s, OnRecv(s, m, memOk))
  {
    hide AbortInd, AbortRes, AbortBy, DnIniRecv, DnSegRecv, UpIniRecv, UpSegRecv, BlkDnIniRecv, BlkDnSubRecv,
         BlkDnEndRecv, BlkUpIniRecv, BlkUpSubRecv, BlkUpEndRecv, SpecOf, CrcMatches;
    match s.phase
    case Stopped =>
    case Wait => AbortIndEnds(s, s, AC_NO_CS); AbortByEnds(s, m);
    case DnIni => DnEnds(s, m);
    case DnSeg => DnEnds(s, m);
    case UpIni => UpIniEnds(s, m, memOk);
    case UpSeg => UpSegEnds(s, m);
    case BlkDnIni => BlkDnIniEnds(s, m);
    case BlkDnSub => BlkDnSubEnds(s, m);
    case BlkDnEnd => DnEnds(s, m);
    case BlkUpIni => BlkUpIniEnds(s, m, memOk);
    case BlkUpSub => BlkUpSubEnds(s, m);
    case BlkUpEnd => BlkUpEndEnds(s, m, CrcMatches(s, m));
  }

  /** Every event but a request leaves the accepted requests alone and confirms at most one, idle. */
  lemma EventEnds(s: Client, e: Event)
    requires Sound(s) && Possible(s, e) && !e.RequestE?
    ensures Ends(s, React(s, e))
  {
    hide AbortRes, OnRecv, Aborted, Ends;
    match e
    case RecvE(m, memOk) => RecvEnds(s, m, memOk);
    case StopE =>
      AbortedEnds(s, s, AC_NO_SDO);
      EndsOn(s, if s.phase.Stopped? then s else Aborted(s, AC_NO_SDO), React(s, e));
    case UpdateE(valid) =>
      var s1 := s.(valid := valid);
      AbortedEnds(s, s1, AC_NO_SDO);
      EndsOn(s, Aborted(s1, AC_NO_SDO), React(s, e));
    case AbortE(ac) => AbortedEnds(s, s, ac);
    case TimeE => AbortIndEnds(s, s.(timerOn := false), AC_TIMEOUT); EndsOn(s, s, s.(timerOn := false));
    case StartE(_) => EndsOn(s, s, React(s, e));
    case SetTimeoutE(_) => EndsOn(s, s, React(s, e));
    case _ =>
  }

  lemma AbortedEnds(s: Client, s1: Client, ac: nat)
    requires s1.asked == s.asked && s1.done == s.done
    ensures Ends(s, Aborted(s1, ac))
  {
    hide AbortRes;
    AbortIndEnds(s, s1, ac);
  }

  /** What follows without touching histories or making the client busy. */
  lemma EndsOn(s: Client, s1: Client, s2: Client)
    requires Ends(s, s1) || s1 == s
    requires s2.asked == s1.asked && s2.done == s1.done && s2.con == s1.con && (!Busy(s1.phase) ==> !Busy(s2.phase))
    ensures Ends(s, s2)
  {
  }

  lemma OneMoreDone(s: Client, e: Event)
    requires Sound(s) && Possible(s, e)
    ensures |React(s, e).done| <= |s.done| + 1
  {
    hide React;
    if e.RequestE? { RequestFrame(s, e); } else { EventEnds(s, e); }
  }

  // ------------------------------------------------------------- ends from outside

  /** The confirmations after whoever waits has been told code ac, which is not zero. */
  function Told(s: Client, ac: nat): seq<Done> {
    if s.con.NoCon? then s.done else s.done + [Done(Asked(s.idx, s.sub, s.con.UpCon?), ac, [])]
  }

  lemma TimeMeans(s: Client)
    requires Inv(s) && s.timerOn
    ensures Busy(s.phase)
    ensures var c := OnTime(s); c.phase.Wait? && c.con.NoCon? && !c.timerOn && c.done == Told(s, AC_TIMEOUT)
  {
  }

  lemma StopMeans(s: Client)
    requires Inv(s)
    ensures var c := StoppedAfter(s);
            c.phase.Stopped? && c.con.NoCon? && !c.timerOn && !c.recvOn && c.done == Told(s, AC_NO_SDO)
  {
    hide Books, UpFits;
  }

  lemma UpdateMeans(s: Client, ok: bool)
    requires Inv(s) && !s.phase.Stopped?
    ensures var c := Updated(s, ok);
            c.phase.Wait? && c.con.NoCon? && c.valid == ok && c.recvOn == ok && c.done == Told(s, AC_NO_SDO)
  {
    hide Books, UpFits;
  }

  // ------------------------------------------------------------------------ failure

  /** No success is confirmed. */
  predicate Fails(s: Client, s': Client) { s'.done == s.done || (|s'.done| == |s.done| + 1 && s'.done[|s.done|].ac != 0) }

  /** The transfer is over without success. */
  predicate Failed(s: Client, s': Client) { !Busy(s'.phase) && Fails(s, s') }

  lemma ResFails(s: Client, s1: Client, ac: nat)
    requires s1.done == s.done && ac != 0
    ensures Failed(s, AbortRes(s1, ac))
  {
  }

  lemma ByFails(s: Client, m: Msg)
    requires Frame(m)
    ensures Failed(s, AbortBy(s, m))
  {
  }

  lemma FailedOn(s: Client, c: Client, c': Client)
    requires Failed(s, c) && c'.done == c.done && (c'.phase == c.phase || c'.phase.Stopped?)
    ensures Failed(s, c')
  {
  }

  /** Without a frame received a transfer fails, is aborted with code zero, or goes on as it was. */
  lemma ControlFails(s: Client, e: Event)
    requires Sound(s) && Possible(s, e) && Busy(s.phase) && !e.RecvE?
    ensures var c := React(s, e);
            || Failed(s, c)
            || (e == AbortE(0) && !Busy(c.phase))
            || c == s.(timerOn := c.timerOn, timeout := c.timeout)
  {
    hide AbortRes, Failed;
    match e
    case StopE => ResFails(s, s, AC_NO_SDO); FailedOn(s, AbortRes(s, AC_NO_SDO), React(s, e));
    case UpdateE(v) =>
      ResFails(s, s.(valid := v), AC_NO_SDO);
      FailedOn(s, AbortRes(s.(valid := v), AC_NO_SDO), React(s, e));
    case AbortE(ac) => if ac != 0 { ResFails(s, s, ac); } else { AbortLeaves(s, 0); }
    case TimeE => ResFails(s, s.(timerOn := false), AC_TIMEOUT);
    case _ =>
  }

  lemma AbortLeaves(s: Client, ac: nat)
    ensures !Busy(AbortRes(s, ac).phase)
  {
  }

  /** A failure confirms no success. */
  lemma FailedMeans(s: Client, c: Client)
    requires Failed(s, c)
    ensures !Busy(c.phase) && (|c.done| > |s.done| ==> c.done[|s.done|].ac != 0)
  {
  }

  // -------------------------------------------------------------------------- runs

  predicate Step(s: Client, e: Event, s': Client) { Sound(s) && Possible(s, e) && s' == React(s, e) }

  /** A run of a new client; a callback that submits a request is the event after its confirmation. */
  predicate IsRun(ss: seq<Client>, es: seq<Event>) {
    |ss| == |es| + 1 && ss[0] == NEW && forall i | 0 <= i < |es| :: Step(ss[i], es[i], ss[i + 1])
  }

  lemma {:induction false} RunInv(ss: seq<Client>, es: seq<Event>, i: nat)
    requires IsRun(ss, es) && i < |ss|
    ensures Inv(ss[i])
  {
    hide React;
    if i > 0 {
      RunInv(ss, es, i - 1);
      assert Step(ss[i - 1], es[i - 1], ss[i]);
      ReactKeeps(ss[i - 1], es[i - 1]);
    }
  }

  /** States with a timeout handler, and states with a receive handler. */
  predicate HasTimeHandler(p: Phase) { !p.Stopped? && !p.Wait? }
  predicate HasRecvHandler(p: Phase) { !p.Stopped? }

  /** Timer and receiver are active only where there is a handler, and every handler finds what it asserts. */
  lemma HandlersExist(ss: seq<Client>, es: seq<Event>, i: nat)
    requires IsRun(ss, es) && i < |ss|
    ensures ss[i].timerOn ==> HasTimeHandler(ss[i].phase)
    ensures ss[i].recvOn ==> HasRecvHandler(ss[i].phase)
    ensures Sound(ss[i])
    ensures Uploading(ss[i].phase) && !ss[i].phase.UpIni? && !ss[i].phase.BlkUpIni? ==> |ss[i].up| <= ss[i].size <= ss[i].room
  {
    hide IsRun, Books;
    RunInv(ss, es, i);
  }

  /** Confirmations follow the accepted requests one for one; while idle or stopped none is owed. */
  lemma ConfirmedOnce(ss: seq<Client>, es: seq<Event>, i: nat)
    requires IsRun(ss, es) && i < |ss|
    ensures |ss[i].done| <= |ss[i].asked| <= |ss[i].done| + 1
    ensures forall k | 0 <= k < |ss[i].done| :: ss[i].done[k].what == ss[i].asked[k]
    ensures !Busy(ss[i].phase) ==> |ss[i].asked| == |ss[i].done|
  {
    hide IsRun;
    RunInv(ss, es, i);
  }

  /** Histories only grow, and a confirmation is delivered with the client idle. */
  lemma ConfirmedIdle(ss: seq<Client>, es: seq<Event>, i: nat)
    requires IsRun(ss, es) && i < |es|
    ensures ss[i].done <= ss[i + 1].done && |ss[i + 1].done| <= |ss[i].done| + 1 && ss[i].asked <= ss[i + 1].asked
    ensures |ss[i + 1].done| > |ss[i].done| ==> !Busy(ss[i + 1].phase) && !es[i].RequestE?
  {
    hide React, Inv;
    RunInv(ss, es, i);
    assert Step(ss[i], es[i], ss[i + 1]);
    if es[i].RequestE? { RequestFrame(ss[i], es[i]); } else { EventEnds(ss[i], es[i]); }
  }

  lemma RequestFrame(s: Client, e: Event)
    requires Sound(s) && e.RequestE? && Possible(s, e)
    ensures React(s, e).done == s.done && s.asked <= React(s, e).asked
  {
  }

  // -------------------------------------------------------------- block-size retry

  lemma RetryHalves(s: Client, m: Msg)
    requires Inv(s) && Frame(m) && s.phase.BlkUpIni? && BlkUpIniRecv(s, m, true).phase.BlkUpIni?
    ensures BlkUpIniRecv(s, m, true) == Halve(s) && 1 < s.blksize
  {
    hide AbortBy, UpIniRecv, UpIniAccept, Books;
    AbortByKeeps(s, m);
    UpIniLeaves(s, m);
  }

  lemma UpIniLeaves(s: Client, m: Msg)
    requires Frame(m)
    ensures !UpIniRecv(s, m, true).phase.BlkUpIni?
  {
  }

  /** Number of halvings b -> (b + 1) / 2 until one. */
  function Halvings(b: nat): nat { if b <= 1 then 0 else 1 + Halvings((b + 1) / 2) }

  lemma {:induction false} RetriesBounded(s: Client, ms: seq<Msg>)
    requires Inv(s) && s.phase.BlkUpIni? && forall i | 0 <= i < |ms| :: Frame(ms[i])
    requires StaysInitiating(s, ms)
    ensures |ms| <= Halvings(s.blksize)
    decreases |ms|
  {
    hide Inv, BlkUpIniRecv;
    if ms != [] {
      RecvKeeps(s, ms[0], true);
      RetryHalves(s, ms[0]);
      RetriesBounded(OnRecv(s, ms[0], true), ms[1..]);
    }
  }

  /** The client is still waiting for the initiate response after each of the frames. */
  predicate StaysInitiating(s: Client, ms: seq<Msg>)
    requires Inv(s) && forall i | 0 <= i < |ms| :: Frame(ms[i])
    decreases |ms|
  {
    if !s.phase.BlkUpIni? then false
    else if ms == [] then true
    else
      RecvKeeps(s, ms[0], true);
      StaysInitiating(OnRecv(s, ms[0], true), ms[1..])
  }

  /** A block upload is retried with a smaller block size at most seven times. */
  lemma SevenRetries(s: Client, ms: seq<Msg>)
    requires Inv(s) && forall i | 0 <= i < |ms| :: Frame(ms[i])
    requires s.phase.BlkUpIni? && s.blksize == MAX_SEQNO && StaysInitiating(s, ms)
    ensures |ms| <= 7
  {
    hide Inv, StaysInitiating;
    RetriesBounded(s, ms);
    assert Halvings(127) == 1 + Halvings(64) == 2 + Halvings(32) == 3 + Halvings(16) == 4 + Halvings(8);
  }
}
