/** What the checksum of a block upload says about its result, over every run. */
module CsdoUploadCrc {
  import opened MemBuf
  import opened CsdoModel
  import CsdoRuns

  /** One confirmation more, and if it is a success, m carries the checksum of its data. */
  predicate Checked(s: Client, c: Client, m: Msg)
    requires Frame(m)
  {
    |c.done| == |s.done| + 1 && (c.done[|s.done|].ac == 0 ==> Le16(m.data, 1) == Checksum(c.done[|s.done|].data))
  }

  lemma FailChecked(s: Client, m: Msg, ac: nat)
    requires Frame(m) && s.con.UpCon? && ac != 0
    ensures Checked(s, AbortRes(s, ac), m) && Checked(s, AbortBy(s, m), m)
  {
  }

  lemma GoodChecked(s: Client, m: Msg)
    requires Frame(m) && s.con.UpCon? && |s.up| == s.size && CrcMatches(s, m)
    ensures Checked(s, AbortInd(Send(s, BlkUpEndRes), 0), m)
  {
    hide Le16, Checksum;
    assert s.up[..Min(s.size, |s.up|)] == s.up;
  }

  lemma EndChecked(s: Client, m: Msg)
    requires CsdoRuns.Inv(s) && Frame(m) && s.phase.BlkUpEnd? && s.crc && s.con.UpCon?
    ensures Checked(s, BlkUpEndRecv(s, m, CrcMatches(s, m)), m)
  {
    hide AbortInd, AbortRes, AbortBy, SpecOf, SubOf, BlkUpTail, CsdoRuns.Books, CrcMatches, Checked;
    FailChecked(s, m, AC_NO_CS);
    FailChecked(s, m, AC_TYPE_LEN_LO);
    FailChecked(s, m, AC_BLK_CRC);
    if |s.up| == s.size && CrcMatches(s, m) { GoodChecked(s, m); }
  }

  lemma BlkUpSubFails(s: Client, m: Msg)
    requires Sound(s) && Frame(m) && s.phase.BlkUpSub?
    ensures CsdoRuns.Fails(s, BlkUpSubRecv(s, m))
  {
    hide AbortInd, AbortRes, AbortBy, SeqOf, LastOf;
    CsdoRuns.ResFails(s, s, AC_NO_CS);
    CsdoRuns.ResFails(s, s.(ackseq := s.ackseq + 1), AC_TYPE_LEN_HI);
    CsdoRuns.ByFails(s, m);
  }

  /** A checksum has been negotiated for an upload only in the block protocol. */
  predicate CrcInBlock(s: Client) { s.crc && s.con.UpCon? ==> s.phase.BlkUpSub? || s.phase.BlkUpEnd? }

  lemma IdleCrc(s: Client, ac: nat)
    ensures CrcInBlock(AbortInd(s, ac)) && CrcInBlock(AbortRes(s, ac))
  {
  }

  lemma ByCrc(s: Client, m: Msg)
    requires Frame(m)
    ensures CrcInBlock(AbortBy(s, m))
  {
  }

  lemma UpIniCrc(s: Client, m: Msg, memOk: bool)
    requires Frame(m) && !(s.crc && s.con.UpCon?)
    ensures CrcInBlock(UpIniRecv(s, m, memOk))
  {
    hide SpecOf, Le32, Padded, UpIniSize, Reserve, AbortInd, AbortRes, AbortBy, Names, CrcInBlock;
    IdleCrc(s, AC_NO_CS);
    IdleCrc(s, AC_ERROR);
    ByCrc(s, m);
    if m.len >= 4 { UpIniAcceptCrc(s, m, memOk); }
  }

  lemma UpIniAcceptCrc(s: Client, m: Msg, memOk: bool)
    requires Frame(m) && m.len >= 4 && !(s.crc && s.con.UpCon?)
    ensures CrcInBlock(UpIniAccept(s, m, memOk))
  {
    hide UpIniSize, Padded;
  }

  lemma UpSegCrc(s: Client, m: Msg)
    requires Frame(m) && !(s.crc && s.con.UpCon?)
    ensures CrcInBlock(UpSegRecv(s, m))
  {
    hide SpecOf, SegSize, Le32;
  }

  lemma BlkUpIniCrc(s: Client, m: Msg, memOk: bool)
    requires Frame(m) && !(s.crc && s.con.UpCon?)
    ensures CrcInBlock(BlkUpIniRecv(s, m, memOk))
  {
    hide SpecOf, Le32, UpIniRecv, AbortInd, AbortRes, AbortBy, Names, BlkUpSize, Reserve, CrcInBlock;
    IdleCrc(s, AC_NO_CS);
    ByCrc(s, m);
    UpIniCrc(s, m, memOk);
    HalveCrc(s);
    var s1 := s.(crc := m.data[0] & 0x04 != 0);
    IdleCrc(s1, AC_ERROR);
    if m.len >= 4 { BlkUpAcceptCrc(s1, m, memOk); }
  }

  lemma HalveCrc(s: Client)
    requires !(s.crc && s.con.UpCon?)
    ensures CrcInBlock(Halve(s))
  {
  }

  lemma BlkUpAcceptCrc(s: Client, m: Msg, memOk: bool)
    requires Frame(m) && m.len >= 4
    ensures CrcInBlock(BlkUpIniAccept(s, m, memOk))
  {
    hide BlkUpSize;
  }

  lemma BlkUpSubCrc(s: Client, m: Msg)
    requires Sound(s) && Frame(m) && s.phase.BlkUpSub?
    ensures CrcInBlock(BlkUpSubRecv(s, m))
  {
    hide SeqOf, LastOf, Le32;
  }

  lemma BlkUpEndCrc(s: Client, m: Msg, ok: bool)
    requires Frame(m)
    ensures s.phase.BlkUpEnd? ==> CrcInBlock(BlkUpEndRecv(s, m, ok))
  {
    hide SpecOf, SubOf, BlkUpTail, Le32;
  }

  lemma RecvCrc(s: Client, m: Msg, memOk: bool)
    requires CsdoRuns.Inv(s) && Frame(m) && CrcInBlock(s)
    ensures CrcInBlock(OnRecv(s, m, memOk))
  {
    hide CsdoRuns.Inv, AbortRes, AbortBy, DnIniRecv, DnSegRecv, UpIniRecv, UpSegRecv, BlkDnIniRecv, BlkDnSubRecv,
         BlkDnEndRecv, BlkUpIniRecv, BlkUpSubRecv, BlkUpEndRecv, SpecOf, CrcMatches, Le32;
    CsdoRuns.InvParts(s);
    match s.phase
    case Stopped =>
    case Wait => IdleCrc(s, AC_NO_CS); ByCrc(s, m);
    case UpIni => UpIniCrc(s, m, memOk);
    case UpSeg => UpSegCrc(s, m);
    case BlkUpIni => BlkUpIniCrc(s, m, memOk);
    case BlkUpSub => BlkUpSubCrc(s, m);
    case BlkUpEnd => BlkUpEndCrc(s, m, CrcMatches(s, m));
    case _ =>
      CsdoRuns.RecvKeeps(s, m, memOk);
      CsdoRuns.RecvEnds(s, m, memOk);
      DnCrc(s, OnRecv(s, m, memOk));
  }

  /** A download is not an upload. */
  lemma DnCrc(s: Client, c: Client)
    requires CsdoRuns.Inv(s) && Downloading(s.phase) && CsdoRuns.Inv(c) && CsdoRuns.Ends(s, c)
    ensures CrcInBlock(c)
  {
  }

  lemma EventCrc(s: Client, e: Event)
    requires CsdoRuns.Inv(s) && Sound(s) && Possible(s, e) && CrcInBlock(s)
    ensures CrcInBlock(React(s, e))
  {
    hide CsdoRuns.Inv, AbortRes, OnRecv, Requested;
    match e
    case RecvE(m, memOk) => RecvCrc(s, m, memOk);
    case RequestE(kind, idx, sub, data, con) => RequestCrc(s, kind, idx, sub, data, con);
    case StopE => CsdoRuns.StopMeans(s);
    case UpdateE(valid) => IdleCrc(s.(valid := valid), AC_NO_SDO);
    case AbortE(ac) => IdleCrc(s, ac);
    case TimeE => IdleCrc(s.(timerOn := false), AC_TIMEOUT);
    case StartE(_) => StoppedCrc(s);
    case _ =>
  }

  lemma StoppedCrc(s: Client)
    requires CsdoRuns.Inv(s) && CrcInBlock(s)
    ensures s.phase.Stopped? ==> !s.con.UpCon?
  {
  }

  lemma RequestCrc(s: Client, kind: Kind, idx: nat, sub: nat, data: Bytes, con: bool)
    requires CrcInBlock(s)
    ensures CrcInBlock(Requested(s, kind, idx, sub, data, con))
  {
  }

  lemma {:induction false} RunCrc(ss: seq<Client>, es: seq<Event>, i: nat)
    requires CsdoRuns.IsRun(ss, es) && i < |ss|
    ensures CrcInBlock(ss[i])
  {
    hide CsdoRuns.Inv, React;
    if i > 0 {
      RunCrc(ss, es, i - 1);
      CsdoRuns.RunInv(ss, es, i - 1);
      assert CsdoRuns.Step(ss[i - 1], es[i - 1], ss[i]);
      EventCrc(ss[i - 1], es[i - 1]);
    }
  }

  /**
   In any run, if a checksum has been negotiated for an upload, its success is due
   to an end-of-transfer frame with the checksum of exactly the delivered data.
   */
  lemma ChecksumMatched(ss: seq<Client>, es: seq<Event>, i: nat)
    requires CsdoRuns.IsRun(ss, es) && i < |es| && !(es[i].AbortE? && es[i].ac == 0)
    requires ss[i].crc && ss[i].con.UpCon? && |ss[i + 1].done| > |ss[i].done| && ss[i + 1].done[|ss[i].done|].ac == 0
    ensures es[i].RecvE? && Frame(es[i].m) && ss[i].phase.BlkUpEnd?
    ensures Le16(es[i].m.data, 1) == Checksum(ss[i + 1].done[|ss[i].done|].data)
  {
    hide CsdoRuns.Inv, React, Checked, CsdoRuns.Fails, Checksum;
    CsdoRuns.RunInv(ss, es, i);
    RunCrc(ss, es, i);
    assert CsdoRuns.Step(ss[i], es[i], ss[i + 1]);
    EventChecked(ss[i], es[i]);
  }

  lemma EventChecked(s: Client, e: Event)
    requires CsdoRuns.Inv(s) && Sound(s) && Possible(s, e) && !(e.AbortE? && e.ac == 0)
    requires s.con.UpCon? && s.crc && CrcInBlock(s)
    ensures var c := React(s, e);
            |c.done| > |s.done| && c.done[|s.done|].ac == 0 ==>
              e.RecvE? && s.phase.BlkUpEnd? && Le16(e.m.data, 1) == Checksum(c.done[|s.done|].data)
  {
    hide CsdoRuns.Inv, AbortRes, OnRecv, Requested, Checksum, Le16;
    match e
    case RecvE(m, memOk) => RecvChecked(s, m, memOk);
    case StopE => CsdoRuns.ResFails(s, s, AC_NO_SDO);
    case UpdateE(valid) => CsdoRuns.ResFails(s, s.(valid := valid), AC_NO_SDO);
    case AbortE(ac) => CsdoRuns.ResFails(s, s, ac);
    case TimeE => CsdoRuns.ResFails(s, s.(timerOn := false), AC_TIMEOUT);
    case _ =>
  }

  lemma RecvChecked(s: Client, m: Msg, memOk: bool)
    requires CsdoRuns.Inv(s) && Sound(s) && Frame(m) && s.con.UpCon? && s.crc && CrcInBlock(s)
    ensures var c := OnRecv(s, m, memOk);
            |c.done| > |s.done| && c.done[|s.done|].ac == 0 ==>
              s.phase.BlkUpEnd? && Le16(m.data, 1) == Checksum(c.done[|s.done|].data)
  {
    hide CsdoRuns.Inv, BlkUpSubRecv, BlkUpEndRecv, CrcMatches, Checksum, Le16;
    if s.phase.BlkUpSub? { BlkUpSubFails(s, m); } else { EndChecked(s, m); }
  }
}
