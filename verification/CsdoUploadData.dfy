/** What an upload delivers, whatever the server sends: the accepted payloads in order, each once. */
module CsdoUploadData {
  import opened MemBuf
  import opened CsdoModel
  import CsdoRuns
  import CsdoUploadSize

  /** The initiate response is for the object asked for. */
  predicate Answers(s: Client, m: Msg)
    requires Frame(m)
  {
    m.len >= 4 && SpecOf(m.data[0]).UpIniRes? && Names(m, s)
  }

  /** An expedited response carries its data itself. */
  function IniPayload(s: Client, m: Msg, memOk: bool): Bytes
    requires Frame(m)
  {
    if Answers(s, m) && m.data[0] & 0x02 != 0 && (memOk || HasRoom(s.(size := ExpSize(m)))) then Padded(m)[..Min(ExpSize(m), 4)]
    else []
  }

  /** A segment is accepted if its toggle bit is fresh, its bytes are there and they fit the announced size. */
  function SegPayload(s: Client, m: Msg): Bytes
    requires Frame(m)
  {
    if m.len >= 1 && SpecOf(m.data[0]).UpSegRes? && ToggleOf(m.data[0]) != s.toggle
       && m.len >= 1 + SegSize(m.data[0]) && |s.up| + SegSize(m.data[0]) <= s.size
    then m.data[1..1 + SegSize(m.data[0])]
    else []
  }

  /** A block segment is accepted if it is the next one and full, or the last. */
  function BlkPayload(s: Client, m: Msg): Bytes
    requires Frame(m) && |s.up| <= s.size
  {
    if m.len >= 1 && m.data[0] != 0x80 && SeqOf(m.data[0]) == s.ackseq + 1 && (LastOf(m.data[0]) || SegBytes(s) == 7)
    then m.data[1..1 + SegBytes(s)]
    else []
  }

  /** The bytes an event contributes to the upload under way. */
  function Payload(s: Client, e: Event): Bytes
    requires Sound(s) && Possible(s, e)
  {
    if !e.RecvE? then []
    else match s.phase
         case UpIni => IniPayload(s, e.m, e.memOk)
         case BlkUpIni => IniPayload(s, e.m, e.memOk)
         case UpSeg => SegPayload(s, e.m)
         case BlkUpSub => BlkPayload(s, e.m)
         case _ => []
  }

  // ------------------------------------------------------------------------ one step

  lemma AbortAdds(s: Client, m: Msg, ac: nat)
    requires Frame(m)
    ensures AbortInd(s, ac).up == s.up && AbortRes(s, ac).up == s.up && AbortBy(s, m).up == s.up
  {
  }

  lemma UpIniAdds(s: Client, m: Msg, memOk: bool)
    requires Frame(m)
    ensures UpIniRecv(s, m, memOk).up == s.up + IniPayload(s, m, memOk)
  {
    hide SpecOf, Names, Padded, ExpSize, Le32, AbortInd, AbortRes, AbortBy, HasRoom, UpIniAccept;
    AbortAdds(s, m, AC_NO_CS);
    AbortAdds(s, m, AC_ERROR);
    if m.len >= 4 { UpIniAcceptAdds(s, m, memOk); }
  }

  lemma UpIniAcceptAdds(s: Client, m: Msg, memOk: bool)
    requires Frame(m) && m.len >= 4
    ensures var c := s.(size := UpIniSize(m));
            UpIniAccept(s, m, memOk).up
            == s.up + if m.data[0] & 0x02 != 0 && (memOk || HasRoom(c)) then Padded(m)[..Min(c.size, 4)] else []
  {
    hide Padded, UpIniSize, AbortInd, AbortRes, HasRoom, Reserve;
    var c := s.(size := UpIniSize(m));
    AbortAdds(c, m, AC_NO_MEM);
    ReserveOnly(c);
    var c2 := Reserve(c);
    AbortAdds(c2.(up := c2.up + Padded(m)[..Min(c2.size, 4)]), m, 0);
  }

  lemma ReserveOnly(s: Client)
    ensures Reserve(s) == s.(room := Reserve(s).room)
  {
  }

  lemma UpSegAdds(s: Client, m: Msg)
    requires Frame(m)
    ensures UpSegRecv(s, m).up == s.up + SegPayload(s, m)
  {
    hide SpecOf, SegSize, ToggleOf, AbortInd, AbortRes, AbortBy;
    AbortAdds(s, m, AC_NO_CS);
    AbortAdds(s, m, AC_TYPE_LEN_HI);
    if m.len >= 1 {
      var n := SegSize(m.data[0]);
      if m.len >= 1 + n {
        var s1 := s.(up := s.up + m.data[1..1 + n]);
        AbortAdds(s1, m, AC_TYPE_LEN_LO);
        AbortAdds(s1, m, 0);
      }
    }
  }

  lemma BlkUpIniAdds(s: Client, m: Msg, memOk: bool)
    requires Frame(m)
    ensures BlkUpIniRecv(s, m, memOk).up == s.up + IniPayload(s, m, memOk)
  {
    hide SpecOf, Names, Padded, ExpSize, Le32, AbortInd, AbortRes, AbortBy, HasRoom, UpIniRecv, BlkUpIniAccept, Halve;
    HalveAdds(s);
    AbortAdds(s, m, AC_NO_CS);
    UpIniAdds(s, m, memOk);
    var s1 := s.(crc := m.data[0] & 0x04 != 0);
    AbortAdds(s1, m, AC_ERROR);
    if m.len >= 4 { BlkUpAcceptAdds(s1, m, memOk); }
  }

  lemma HalveAdds(s: Client)
    ensures Halve(s).up == s.up
  {
  }

  lemma BlkUpAcceptAdds(s: Client, m: Msg, memOk: bool)
    requires Frame(m) && m.len >= 4
    ensures BlkUpIniAccept(s, m, memOk).up == s.up
  {
    hide BlkUpSize;
  }

  lemma BlkUpSubAdds(s: Client, m: Msg)
    requires Frame(m) && |s.up| <= s.size
    ensures BlkUpSubRecv(s, m).up == s.up + BlkPayload(s, m)
  {
    hide SeqOf, LastOf, AbortInd, AbortRes, AbortBy, BlkUpSubAck;
    AbortAdds(s, m, AC_NO_CS);
    var s1 := s.(ackseq := s.ackseq + 1);
    AbortAdds(s1, m, AC_TYPE_LEN_HI);
    if m.len >= 1 {
      var seqno, last := SeqOf(m.data[0]), LastOf(m.data[0]);
      AckAdds(s, seqno, last);
      AckAdds(s1.(up := s.up + m.data[1..1 + SegBytes(s)]), seqno, last);
    }
  }

  lemma AckAdds(s: Client, seqno: nat, last: bool)
    ensures BlkUpSubAck(s, seqno, last).up == s.up
  {
  }

  lemma BlkUpEndAdds(s: Client, m: Msg, ok: bool)
    requires Frame(m)
    ensures BlkUpEndRecv(s, m, ok).up == s.up
  {
    hide SpecOf, SubOf, BlkUpTail, AbortInd, AbortRes, AbortBy;
    AbortAdds(s, m, AC_NO_CS);
    AbortAdds(s, m, AC_TYPE_LEN_LO);
    AbortAdds(s, m, AC_BLK_CRC);
    AbortAdds(Send(s, BlkUpEndRes), m, 0);
  }

  /** Whatever happens during an upload, its data grow by the payload of the event. */
  lemma EventAdds(s: Client, e: Event)
    requires Sound(s) && Possible(s, e) && Uploading(s.phase)
    ensures React(s, e).up == s.up + Payload(s, e)
  {
    hide UpIniRecv, UpSegRecv, BlkUpIniRecv, BlkUpSubRecv, BlkUpEndRecv, IniPayload, SegPayload, BlkPayload, CrcMatches;
    if e.RecvE? {
      match s.phase
      case UpIni => UpIniAdds(s, e.m, e.memOk);
      case BlkUpIni => BlkUpIniAdds(s, e.m, e.memOk);
      case UpSeg => UpSegAdds(s, e.m);
      case BlkUpSub => BlkUpSubAdds(s, e.m);
      case BlkUpEnd => BlkUpEndAdds(s, e.m, CrcMatches(s, e.m));
      case _ =>
    }
  }

  // ---------------------------------------------------------------------------- runs

  /** The payloads of events i to j - 1, in order. */
  function Collected(ss: seq<Client>, es: seq<Event>, i: nat, j: nat): Bytes
    requires CsdoRuns.IsRun(ss, es) && i <= j <= |es|
    decreases j - i
  {
    if i == j then []
    else
      assert CsdoRuns.Step(ss[j - 1], es[j - 1], ss[j]);
      Collected(ss, es, i, j - 1) + Payload(ss[j - 1], es[j - 1])
  }

  /** The upload asked for at i is under way from then until event j. */
  predicate Under(ss: seq<Client>, es: seq<Event>, i: nat, j: nat) {
    && CsdoRuns.IsRun(ss, es) && i < j < |es| && es[i].RequestE? && !Busy(ss[i].phase)
    && forall k | i < k <= j :: Uploading(ss[k].phase)
  }

  lemma {:induction false} Collects(ss: seq<Client>, es: seq<Event>, i: nat, j: nat)
    requires Under(ss, es, i, j)
    ensures ss[j + 1].up == Collected(ss, es, i + 1, j + 1)
    decreases j - i
  {
    hide React, Payload;
    assert CsdoRuns.Step(ss[j], es[j], ss[j + 1]);
    EventAdds(ss[j], es[j]);
    if j == i + 1 {
      assert CsdoRuns.Step(ss[i], es[i], ss[i + 1]);
      AskedEmpty(ss[i], es[i]);
      assert Collected(ss, es, i + 1, i + 1) == [];
    } else {
      Collects(ss, es, i, j - 1);
    }
  }

  lemma AskedEmpty(s: Client, e: Event)
    requires Sound(s) && Possible(s, e) && e.RequestE? && !Busy(s.phase) && Uploading(React(s, e).phase)
    ensures React(s, e).up == []
  {
  }

  /** A confirmed upload delivers its buffer. */
  lemma Delivers(s: Client, e: Event)
    requires CsdoRuns.Inv(s) && Sound(s) && Possible(s, e) && Uploading(s.phase) && s.con.UpCon?
    ensures var c := React(s, e);
            |c.done| > |s.done| ==> c.done[|s.done|].what.upload && (c.done[|s.done|].ac == 0 ==> c.done[|s.done|].data == c.up)
  {
    hide React, CsdoRuns.Inv, CsdoRuns.UpFits, CsdoRuns.Flags;
    CsdoRuns.InvParts(s);
    CsdoRuns.ReactKeeps(s, e);
    CsdoRuns.InvParts(React(s, e));
    if e.RequestE? {
      CsdoRuns.RequestFrame(s, e);
    } else {
      CsdoRuns.EventEnds(s, e);
      if e.AbortE? && e.ac == 0 { CsdoUploadSize.AbortConfirms(s, 0); } else { CsdoUploadSize.EventWhole(s, e); }
    }
  }

  /** A confirmation with code zero delivers exactly the accepted payloads in order, from any server. */
  lemma UploadCollects(ss: seq<Client>, es: seq<Event>, i: nat, j: nat)
    requires Under(ss, es, i, j) && ss[j].con.UpCon? && |ss[j + 1].done| > |ss[j].done|
    ensures var d := ss[j + 1].done[|ss[j].done|];
            d.what.upload && (d.ac == 0 ==> d.data == Collected(ss, es, i + 1, j + 1))
  {
    hide React, Collected;
    Collects(ss, es, i, j);
    CsdoRuns.RunInv(ss, es, j);
    assert CsdoRuns.Step(ss[j], es[j], ss[j + 1]);
    Delivers(ss[j], es[j]);
  }
}
