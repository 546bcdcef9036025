/** What an upload confirmation with abort code zero says, whatever the server does. */
module CsdoUploadSize {
  import opened MemBuf
  import opened CsdoModel
  import CsdoRuns

  /** A confirmation between s and c of an upload with code zero carries the buffer, as large as announced. */
  predicate Whole(s: Client, c: Client) {
    || c.done == s.done
    || (|c.done| == |s.done| + 1
        && (c.done[|s.done|].what.upload && c.done[|s.done|].ac == 0 ==> c.done[|s.done|].data == c.up && |c.up| == c.size))
  }

  lemma IndWhole(s: Client, c: Client, ac: nat)
    requires c.done == s.done && (ac == 0 && c.con.UpCon? ==> |c.up| == c.size)
    ensures Whole(s, AbortInd(c, ac))
  {
  }

  lemma ResWhole(s: Client, c: Client, ac: nat)
    requires c.done == s.done && ac != 0
    ensures Whole(s, AbortRes(c, ac))
  {
  }

  lemma ByWhole(s: Client, m: Msg)
    requires Frame(m)
    ensures Whole(s, AbortBy(s, m))
  {
  }

  lemma ExpSizes(m: Msg)
    requires Frame(m) && m.len >= 4 && m.data[0] & 0x02 != 0
    ensures UpIniSize(m) <= 4
  {
  }

  lemma UpIniWhole(s: Client, m: Msg, memOk: bool)
    requires CsdoRuns.Inv(s) && Frame(m) && (s.phase.UpIni? || s.phase.BlkUpIni?)
    ensures Whole(s, UpIniRecv(s, m, memOk))
  {
    hide AbortInd, AbortRes, AbortBy, SpecOf, Names, UpIniSize, Padded, Whole, CsdoRuns.Books;
    ResWhole(s, s, AC_NO_CS);
    ResWhole(s, s, AC_ERROR);
    ByWhole(s, m);
    if m.len >= 4 { UpAcceptWhole(s, m, memOk); }
  }

  lemma UpAcceptWhole(s: Client, m: Msg, memOk: bool)
    requires CsdoRuns.Inv(s) && Frame(m) && m.len >= 4 && (s.phase.UpIni? || s.phase.BlkUpIni?)
    ensures Whole(s, UpIniAccept(s, m, memOk))
  {
    hide AbortInd, AbortRes, UpIniSize, Padded, CsdoRuns.Books;
    var s1 := s.(size := UpIniSize(m));
    ResWhole(s, s1, AC_NO_MEM);
    var s2 := Reserve(s1);
    if m.data[0] & 0x02 != 0 {
      ExpSizes(m);
      IndWhole(s, s2.(up := s2.up + Padded(m)[..Min(s2.size, 4)]), 0);
    }
  }

  lemma UpSegWhole(s: Client, m: Msg)
    requires CsdoRuns.Inv(s) && Frame(m) && s.phase.UpSeg?
    ensures Whole(s, UpSegRecv(s, m))
  {
    hide AbortInd, AbortRes, AbortBy, SpecOf, ToggleOf, SegSize, CsdoRuns.Books;
    ResWhole(s, s, AC_NO_CS);
    ResWhole(s, s, AC_TYPE_LEN_HI);
    ByWhole(s, m);
    if m.len >= 1 {
      var n := SegSize(m.data[0]);
      if m.len >= 1 + n && |s.up| + n <= s.size {
        var s1 := s.(up := s.up + m.data[1..1 + n]);
        ResWhole(s, s1, AC_TYPE_LEN_LO);
        if s1.size == 0 || |s1.up| == s1.size { IndWhole(s, s1, 0); }
      }
    }
  }

  lemma BlkUpIniWhole(s: Client, m: Msg, memOk: bool)
    requires CsdoRuns.Inv(s) && Frame(m) && s.phase.BlkUpIni?
    ensures Whole(s, BlkUpIniRecv(s, m, memOk))
  {
    hide AbortInd, AbortRes, AbortBy, SpecOf, UpIniRecv, Names, CsdoRuns.Inv, BlkUpIniAccept, Halve, Whole, Le32;
    ResWhole(s, s, AC_NO_CS);
    ByWhole(s, m);
    UpIniWhole(s, m, memOk);
    HalveWhole(s);
    var s1 := s.(crc := m.data[0] & 0x04 != 0);
    ResWhole(s, s1, AC_ERROR);
    if m.len >= 4 { BlkAcceptWhole(s, s1, m, memOk); }
  }

  lemma HalveWhole(s: Client)
    ensures Whole(s, Halve(s))
  {
  }

  lemma BlkAcceptWhole(s: Client, s1: Client, m: Msg, memOk: bool)
    requires s1.done == s.done && Frame(m) && m.len >= 4
    ensures Whole(s, BlkUpIniAccept(s1, m, memOk))
  {
    hide BlkUpSize, AbortRes;
    ResWhole(s, s1.(size := BlkUpSize(m)), AC_NO_MEM);
  }

  lemma BlkUpSubWhole(s: Client, m: Msg)
    requires Sound(s) && Frame(m) && s.phase.BlkUpSub?
    ensures Whole(s, BlkUpSubRecv(s, m))
  {
    hide AbortInd, AbortRes, AbortBy, SeqOf, LastOf;
    ResWhole(s, s, AC_NO_CS);
    ResWhole(s, s.(ackseq := s.ackseq + 1), AC_TYPE_LEN_HI);
    ByWhole(s, m);
  }

  lemma BlkUpEndWhole(s: Client, m: Msg, crcOk: bool)
    requires CsdoRuns.Inv(s) && Frame(m) && s.phase.BlkUpEnd?
    ensures Whole(s, BlkUpEndRecv(s, m, crcOk))
  {
    hide AbortInd, AbortRes, AbortBy, SpecOf, SubOf, BlkUpTail, CsdoRuns.Books, Whole;
    ResWhole(s, s, AC_NO_CS);
    ResWhole(s, s, AC_TYPE_LEN_LO);
    ResWhole(s, s, AC_BLK_CRC);
    ByWhole(s, m);
    if s.size == 0 || |s.up| == s.size { IndWhole(s, Send(s, BlkUpEndRes), 0); }
  }

  /** A download confirms no upload. */
  lemma DnWhole(s: Client, c: Client)
    requires CsdoRuns.Inv(s) && Downloading(s.phase) && CsdoRuns.Inv(c) && c.asked == s.asked
    ensures Whole(s, c) || |c.done| != |s.done| + 1
  {
  }

  lemma RecvWhole(s: Client, m: Msg, memOk: bool)
    requires CsdoRuns.Inv(s) && Frame(m)
    ensures Whole(s, OnRecv(s, m, memOk))
  {
    hide Whole, CsdoRuns.Inv, AbortRes, AbortBy, DnIniRecv, DnSegRecv, UpIniRecv, UpSegRecv, BlkDnIniRecv, BlkDnSubRecv,
         BlkDnEndRecv, BlkUpIniRecv, BlkUpSubRecv, BlkUpEndRecv, SpecOf, CrcMatches, Le32;
    CsdoRuns.InvParts(s);
    match s.phase
    case Stopped => SameWhole(s);
    case Wait => ResWhole(s, s, AC_NO_CS); ByWhole(s, m); SameWhole(s);
    case UpIni => UpIniWhole(s, m, memOk);
    case UpSeg => UpSegWhole(s, m);
    case BlkUpIni => BlkUpIniWhole(s, m, memOk);
    case BlkUpSub => BlkUpSubWhole(s, m);
    case BlkUpEnd => BlkUpEndWhole(s, m, CrcMatches(s, m));
    case _ =>
      CsdoRuns.RecvKeeps(s, m, memOk);
      CsdoRuns.RecvEnds(s, m, memOk);
      DnWhole(s, OnRecv(s, m, memOk));
      EndsWhole(s, OnRecv(s, m, memOk));
  }

  lemma SameWhole(s: Client)
    ensures Whole(s, s)
  {
  }

  lemma EndsWhole(s: Client, c: Client)
    requires CsdoRuns.Ends(s, c) && (Whole(s, c) || |c.done| != |s.done| + 1)
    ensures Whole(s, c)
  {
  }

  /**
   In any run, an upload confirmed with code zero delivers exactly as many bytes as
   the server announced, unless the application itself aborted with code zero.
   */
  lemma ConfirmedWhole(ss: seq<Client>, es: seq<Event>, i: nat)
    requires CsdoRuns.IsRun(ss, es) && i < |es| && !(es[i].AbortE? && es[i].ac == 0)
    ensures Whole(ss[i], ss[i + 1])
  {
    hide CsdoRuns.Inv, React, Whole;
    CsdoRuns.RunInv(ss, es, i);
    assert CsdoRuns.Step(ss[i], es[i], ss[i + 1]);
    EventWhole(ss[i], es[i]);
  }

  lemma EventWhole(s: Client, e: Event)
    requires CsdoRuns.Inv(s) && Possible(s, e) && !(e.AbortE? && e.ac == 0)
    ensures Sound(s) && Whole(s, React(s, e))
  {
    hide CsdoRuns.Inv, AbortRes, OnRecv, Requested;
    CsdoRuns.InvParts(s);
    match e
    case RecvE(m, memOk) => RecvWhole(s, m, memOk);
    case StopE => ResWhole(s, s, AC_NO_SDO);
    case UpdateE(valid) => ResWhole(s, s.(valid := valid), AC_NO_SDO);
    case AbortE(ac) => ResWhole(s, s, ac);
    case TimeE => ResWhole(s, s.(timerOn := false), AC_TIMEOUT);
    case _ =>
  }

  // ------------------------------------------------------------ aborts by the application

  /** The application's code is confirmed, and with code zero the data as they stand. */
  lemma AbortConfirms(s: Client, ac: nat)
    requires Sound(s) && Uploading(s.phase) && s.con.UpCon?
    ensures var c := React(s, AbortE(ac));
            c.done == s.done + [Done(Asked(s.idx, s.sub, true), ac, if ac == 0 then s.up else [])] && c.up == s.up
  {
  }

  /** No run has an abort with code ac that confirms an incomplete upload as a success. */
  ghost predicate AbortsWell(ac: nat) {
    forall ss, es, i | CsdoRuns.IsRun(ss, es) && 0 <= i < |es| && es[i] == AbortE(ac) :: Whole(ss[i], ss[i + 1])
  }

  /** Announces eight bytes of object 0000:00. */
  const EIGHT: Msg := Msg(8, [0x41, 0, 0, 0, 8, 0, 0, 0])

  lemma Bits41()
    ensures SpecOf(0x41) == UpIniRes && 0x41 as bv8 & 0x02 == 0 && 0x41 as bv8 & 0x01 != 0
  {
  }

  lemma EightAnnounced(s: Client)
    requires s.phase.UpIni? && s.idx == 0 && s.sub == 0 && s.up == []
    ensures Frame(EIGHT)
    ensures var c := UpIniRecv(s, EIGHT, true); c.phase.UpSeg? && c.size == 8 && c.up == [] && c.con == s.con && c.done == s.done
  {
    hide SpecOf;
    Bits41();
  }

  lemma Asks(s: Client)
    requires s == Started(NEW, true)
    ensures var c := Requested(s, Up, 0, 0, [], true);
            && c.phase.UpIni? && c.idx == 0 && c.sub == 0 && c.up == [] && c.con.UpCon? && c.recvOn && Sound(c)
  {
  }

  lemma AbortHalf(s: Client)
    requires s.phase.UpSeg? && s.size == 8 && s.up == [] && s.con.UpCon?
    ensures Sound(s)
    ensures var c := React(s, AbortE(0));
            |c.done| == |s.done| + 1 && c.done[|s.done|].ac == 0 && c.done[|s.done|].data == [] && !Whole(s, c)
  {
  }

  /** An upload of eight bytes, aborted with code zero before the first segment: a success without data. */
  lemma Halfway() returns (ss: seq<Client>, es: seq<Event>)
    ensures CsdoRuns.IsRun(ss, es) && |es| == 4 && es[3] == AbortE(0)
    ensures |ss[4].done| == |ss[3].done| + 1 && ss[4].done[|ss[3].done|].ac == 0 && ss[4].done[|ss[3].done|].data == []
    ensures ss[3].size == 8 && !Whole(ss[3], ss[4])
  {
    hide UpIniRecv, Requested, Whole, Aborted;
    var s1 := Started(NEW, true);
    Asks(s1);
    var s2 := Requested(s1, Up, 0, 0, [], true);
    EightAnnounced(s2);
    var s3 := UpIniRecv(s2, EIGHT, true);
    AbortHalf(s3);
    es := [StartE(true), RequestE(Up, 0, 0, [], true), RecvE(EIGHT, true), AbortE(0)];
    ss := [NEW, s1, s2, s3, React(s3, AbortE(0))];
    assert CsdoRuns.Step(NEW, es[0], s1);
    assert CsdoRuns.Step(s1, es[1], s2);
    assert CsdoRuns.Step(s2, es[2], s3);
  }

  /** Every success delivers what was announced, exactly if the application aborts with codes other than zero. */
  lemma AbortCodes(ac: nat)
    ensures AbortsWell(ac) <==> ac != 0
  {
    hide React, Whole;
    if ac == 0 {
      var ss, es := Halfway();
      assert !Whole(ss[3], ss[3 + 1]);
    } else {
      forall ss, es, i | CsdoRuns.IsRun(ss, es) && 0 <= i < |es| && es[i] == AbortE(ac) ensures Whole(ss[i], ss[i + 1]) {
        ConfirmedWhole(ss, es, i);
      }
    }
  }
}
