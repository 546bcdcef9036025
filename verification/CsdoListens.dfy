/** What every step keeps of a Client-SDO whatever its buffers hold: while busy it listens for the object it asked for. */
module CsdoListens {
  import opened MemBuf
  import opened CsdoModel
  import CsdoRuns

  // ------------------------------------------------------------------- entering a block

  predicate Refuses(s: Client) { (s.cur < s.size && s.blksize == 0) || s.blksize > MAX_SEQNO }

  function Clamped(s: Client): Client
    requires s.cur <= s.size
  {
    Arm(s.(blksize := Min((s.size - s.cur + 6) / 7, s.blksize)))
  }

  lemma SubIs(s: Client)
    requires s.cur <= s.size == |s.dn|
    ensures BlkDnSubEnter(s)
            == if Refuses(s) then AbortRes(s, AC_BLK_SIZE)
               else if s.cur < s.size then SendBlock(Clamped(s), 1).(phase := BlkDnSub)
               else Send(Clamped(s), BlkDnEndReq(TailSize(s.size), if s.crc then Checksum(s.dn) else 0)).(phase := BlkDnEnd)
  {
    hide AbortRes, SendBlock, Checksum;
  }

  // ---------------------------------------------------------------------- received frames

  /** The same service, listening for the same object. */
  predicate Base(s: Client, s': Client) { s'.valid == s.valid && s'.recvOn == s.recvOn && s'.idx == s.idx && s'.sub == s.sub }

  predicate Steady(s: Client, s': Client) {
    Base(s, s') && !s'.phase.Stopped? && !s'.phase.BlkDnIni? && (s'.phase.BlkDnSub? ==> 0 < s'.blksize)
  }

  lemma LeavesSteady(s: Client, s1: Client, m: Msg, ac: nat)
    requires Base(s, s1) && Frame(m)
    ensures Steady(s, AbortInd(s1, ac)) && Steady(s, AbortRes(s1, ac)) && Steady(s, AbortBy(s1, m))
  {
  }

  lemma SegSteady(s: Client)
    requires s.cur <= s.size == |s.dn|
    ensures Steady(s, DnSegEnter(s))
  {
  }

  lemma SubSteady(s: Client, s1: Client)
    requires Base(s, s1) && s1.cur <= s1.size == |s1.dn|
    ensures Steady(s, BlkDnSubEnter(s1))
  {
    hide AbortRes, SendBlock, Checksum, BlkDnSubEnter;
    SubIs(s1);
    LeavesSteady(s, s1, Msg(0, [0, 0, 0, 0, 0, 0, 0, 0]), AC_BLK_SIZE);
    if s1.cur < s1.size { CsdoRuns.SendBlockIs(Clamped(s1), 1); }
  }

  lemma DnSteady(s: Client, m: Msg)
    requires Sound(s) && Frame(m) && Downloading(s.phase)
    ensures s.phase.DnIni? ==> Steady(s, DnIniRecv(s, m))
    ensures s.phase.DnSeg? ==> Steady(s, DnSegRecv(s, m))
    ensures s.phase.BlkDnEnd? ==> Steady(s, BlkDnEndRecv(s, m))
  {
    hide AbortInd, AbortRes, AbortBy, DnSegEnter, SpecOf, Steady;
    LeavesSteady(s, s, m, 0);
    LeavesSteady(s, s, m, AC_NO_CS);
    LeavesSteady(s, s, m, AC_ERROR);
    LeavesSteady(s, s, m, AC_TOGGLE);
    SegSteady(s);
  }

  lemma BlkDnSteady(s: Client, m: Msg)
    requires Sound(s) && Frame(m)
    ensures s.phase.BlkDnIni? ==> Steady(s, BlkDnIniRecv(s, m))
    ensures s.phase.BlkDnSub? ==> Steady(s, BlkDnSubRecv(s, m))
  {
    hide AbortInd, AbortRes, AbortBy, BlkDnSubEnter, SpecOf, SubOf, Steady, Rewind;
    LeavesSteady(s, s, m, AC_NO_CS);
    LeavesSteady(s, s, m, AC_BLK_SEQ);
    if s.phase.BlkDnIni? {
      var s1 := s.(crc := m.data[0] & 0x04 != 0);
      LeavesSteady(s, s1, m, AC_ERROR);
      LeavesSteady(s, s1, m, AC_BLK_SIZE);
      SubSteady(s, s1.(blksize := m.data[4] as int));
    } else if s.phase.BlkDnSub? {
      CsdoRuns.RewindFits(s.cur, s.blksize, m.data[1] as int);
      var s2 := s.(cur := Rewind(s.cur, s.blksize, m.data[1] as int));
      LeavesSteady(s, s2, m, AC_BLK_SIZE);
      SubSteady(s, s2.(blksize := m.data[2] as int));
    }
  }

  lemma UpIniSteady(s: Client, m: Msg, memOk: bool)
    requires Frame(m)
    ensures Steady(s, UpIniRecv(s, m, memOk))
  {
    hide AbortInd, AbortRes, AbortBy, SpecOf, UpIniAccept, Steady;
    LeavesSteady(s, s, m, AC_NO_CS);
    LeavesSteady(s, s, m, AC_ERROR);
    if m.len >= 4 { AcceptSteady(s, m, memOk); }
  }

  lemma AcceptSteady(s: Client, m: Msg, memOk: bool)
    requires Frame(m) && m.len >= 4
    ensures Steady(s, UpIniAccept(s, m, memOk))
  {
    hide AbortInd, AbortRes, UpIniSize, Padded;
    var s1 := s.(size := UpIniSize(m));
    LeavesSteady(s, s1, m, AC_NO_MEM);
    var s2 := Reserve(s1);
    LeavesSteady(s, s2.(up := s2.up + Padded(m)[..Min(s2.size, 4)]), m, 0);
  }

  lemma UpSegSteady(s: Client, m: Msg)
    requires Frame(m) && s.phase.UpSeg?
    ensures Steady(s, UpSegRecv(s, m))
  {
    hide AbortInd, AbortRes, AbortBy, SpecOf, SegSize;
    LeavesSteady(s, s, m, AC_NO_CS);
    LeavesSteady(s, s, m, AC_TYPE_LEN_HI);
    if m.len >= 1 {
      var n := SegSize(m.data[0]);
      if m.len >= 1 + n {
        var s1 := s.(up := s.up + m.data[1..1 + n]);
        LeavesSteady(s, s1, m, AC_TYPE_LEN_LO);
        LeavesSteady(s, s1, m, 0);
      }
    }
  }

  lemma BlkUpIniSteady(s: Client, m: Msg, memOk: bool)
    requires Frame(m) && s.phase.BlkUpIni?
    ensures Steady(s, BlkUpIniRecv(s, m, memOk))
  {
    hide AbortInd, AbortRes, AbortBy, SpecOf, UpIniRecv, BlkUpIniAccept, Halve, Steady, Le32;
    LeavesSteady(s, s, m, AC_NO_CS);
    UpIniSteady(s, m, memOk);
    HalveSteady(s);
    var s1 := s.(crc := m.data[0] & 0x04 != 0);
    LeavesSteady(s, s1, m, AC_ERROR);
    if m.len >= 4 { BlkAcceptSteady(s, s1, m, memOk); }
  }

  lemma HalveSteady(s: Client)
    requires s.phase.BlkUpIni?
    ensures Steady(s, Halve(s))
  {
  }

  lemma BlkAcceptSteady(s: Client, s1: Client, m: Msg, memOk: bool)
    requires Base(s, s1) && Frame(m) && m.len >= 4
    ensures Steady(s, BlkUpIniAccept(s1, m, memOk))
  {
    hide AbortRes, BlkUpSize;
    LeavesSteady(s, s1.(size := BlkUpSize(m)), m, AC_NO_MEM);
  }

  lemma AckSteady(s: Client, s1: Client, seqno: nat, last: bool)
    requires Base(s, s1)
    ensures Steady(s, BlkUpSubAck(s1, seqno, last))
  {
  }

  lemma BlkUpSubSteady(s: Client, m: Msg)
    requires Sound(s) && Frame(m) && s.phase.BlkUpSub?
    ensures Steady(s, BlkUpSubRecv(s, m))
  {
    hide AbortInd, AbortRes, AbortBy, SeqOf, LastOf, BlkUpSubAck, Steady;
    LeavesSteady(s, s, m, AC_NO_CS);
    var s1 := s.(ackseq := s.ackseq + 1);
    LeavesSteady(s, s1, m, AC_TYPE_LEN_HI);
    if m.len >= 1 {
      var seqno, last := SeqOf(m.data[0]), LastOf(m.data[0]);
      AckSteady(s, s, seqno, last);
      AckSteady(s, s1.(up := s.up + m.data[1..1 + SegBytes(s)]), seqno, last);
    }
  }

  lemma BlkUpEndSteady(s: Client, m: Msg, crcOk: bool)
    requires Frame(m)
    ensures Steady(s, BlkUpEndRecv(s, m, crcOk))
  {
    hide AbortInd, AbortRes, AbortBy, SpecOf, Steady;
    LeavesSteady(s, s, m, AC_NO_CS);
    LeavesSteady(s, s, m, AC_TYPE_LEN_LO);
    LeavesSteady(s, s, m, AC_BLK_CRC);
    LeavesSteady(s, Send(s, BlkUpEndRes), m, 0);
  }

  lemma RecvSteady(s: Client, m: Msg, memOk: bool)
    requires Sound(s) && Frame(m) && !s.phase.Stopped?
    ensures Steady(s, OnRecv(s, m, memOk))
  {
    hide AbortRes, AbortBy, DnIniRecv, DnSegRecv, UpIniRecv, UpSegRecv, BlkDnIniRecv, BlkDnSubRecv,
         BlkDnEndRecv, BlkUpIniRecv, BlkUpSubRecv, BlkUpEndRecv, SpecOf, CrcMatches;
    match s.phase {
      case Wait => LeavesSteady(s, s, m, AC_NO_CS);
      case DnIni => DnSteady(s, m);
      case DnSeg => DnSteady(s, m);
      case UpIni => UpIniSteady(s, m, memOk);
      case UpSeg => UpSegSteady(s, m);
      case BlkDnIni => BlkDnSteady(s, m);
      case BlkDnSub => BlkDnSteady(s, m);
      case BlkDnEnd => DnSteady(s, m);
      case BlkUpIni => BlkUpIniSteady(s, m, memOk);
      case BlkUpSub => BlkUpSubSteady(s, m);
      case BlkUpEnd => BlkUpEndSteady(s, m, CrcMatches(s, m));
    }
  }

  // ------------------------------------------------------------------------------- events

  /** A busy client is valid and listens, its object has an index and a sub-index, and it is within the block it sends. */
  predicate Listens(s: Client) {
    && (Busy(s.phase) ==> s.valid && s.idx < 0x1_0000 && s.sub < 0x100)
    && (if s.phase.Stopped? then !s.recvOn else s.recvOn == s.valid)
    && (s.phase.BlkDnIni? ==> s.cur == 0)
    && (s.phase.BlkDnSub? ==> 0 < s.blksize)
  }

  /** Indices are 16 bits wide and sub-indices 8 bits. */
  predicate Fits(e: Event) { e.RequestE? ==> e.idx < 0x1_0000 && e.sub < 0x100 }

  lemma ListensOn(s: Client, s': Client)
    requires Listens(s) && !s.phase.Stopped? && Steady(s, s') && (Busy(s.phase) || !Busy(s'.phase))
    ensures Listens(s')
  {
  }

  lemma WaitStays(s: Client, m: Msg, memOk: bool)
    requires Sound(s) && Frame(m) && s.phase.Wait?
    ensures !Busy(OnRecv(s, m, memOk).phase)
  {
    hide SpecOf, Le32;
  }

  lemma RequestListens(s: Client, kind: Kind, idx: nat, sub: nat, data: Bytes, con: bool)
    requires Listens(s) && idx < 0x1_0000 && sub < 0x100
    ensures Listens(Requested(s, kind, idx, sub, data, con))
  {
  }

  lemma ControlListens(s: Client, e: Event)
    requires Sound(s) && Possible(s, e) && Listens(s) && !e.RecvE? && !e.RequestE?
    ensures Listens(React(s, e))
  {
    hide AbortRes;
    var m := Msg(0, [0, 0, 0, 0, 0, 0, 0, 0]);
    match e
    case StopE => LeavesSteady(s, s, m, AC_NO_SDO);
    case UpdateE(v) => LeavesSteady(s.(valid := v), s.(valid := v), m, AC_NO_SDO); AbortIdle(s.(valid := v), AC_NO_SDO);
    case AbortE(ac) => LeavesSteady(s, s, m, ac); AbortIdle(s, ac);
    case TimeE => LeavesSteady(s, s.(timerOn := false), m, AC_TIMEOUT); AbortIdle(s.(timerOn := false), AC_TIMEOUT);
    case StartE(_) =>
    case SetTimeoutE(_) =>
  }

  lemma AbortIdle(s: Client, ac: nat)
    ensures AbortRes(s, ac).phase.Wait?
  {
  }

  lemma ListensKept(s: Client, e: Event)
    requires Sound(s) && Possible(s, e) && Fits(e) && Listens(s)
    ensures Listens(React(s, e))
  {
    hide OnRecv, Requested, Steady, Aborted, OnTime, Updated, StoppedAfter, Started;
    match e
    case RecvE(m, memOk) =>
      RecvSteady(s, m, memOk);
      if s.phase.Wait? { WaitStays(s, m, memOk); }
      ListensOn(s, OnRecv(s, m, memOk));
    case RequestE(kind, idx, sub, data, con) => RequestListens(s, kind, idx, sub, data, con);
    case _ => ControlListens(s, e);
  }
}
