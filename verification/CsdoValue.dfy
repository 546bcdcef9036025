/**
 Downloading a value by way of the client's own buffer.  Uploads and earlier value
 downloads use that buffer, too: which of them a value request disturbs, and how.
 */
module CsdoValue {
  import opened MemBuf
  import opened CsdoModel
  import CsdoRuns
  import opened CsdoListens
  import Seg = CsdoSegDownload

  // ---------------------------------------------------------------------- what a request does

  function KindOf(w: Value): Kind { if w.blk then BlkDn else Dn }

  /** An idle client downloads the bytes of the value, from its own buffer. */
  lemma IdleRequest(x: Shared, w: Value)
    requires x.c.valid && x.c.phase.Wait? && CanFill(x.c, w.v, w.memOk)
    ensures var y := ValueRequested(x, w);
            y == Shared(Requested(x.c, KindOf(w), w.idx, w.sub, w.v, w.con).(up := w.v, room := y.c.room), true)
  {
    hide Launched, Begun, Filled;
    FillIs(x, w);
    var c := Filled(x, w.v, w.memOk, w.stale).c;
    BegunAside(x.c, c, KindOf(w), w);
    LaunchedAside(Arm(Begun(x.c, KindOf(w), w.idx, w.sub, w.v, w.con)), Arm(Begun(c, KindOf(w), w.idx, w.sub, w.v, w.con)), KindOf(w), w.v);
  }

  lemma FillIs(x: Shared, w: Value)
    requires CanFill(x.c, w.v, w.memOk)
    ensures var c := Filled(x, w.v, w.memOk, w.stale).c; c == x.c.(up := w.v, room := c.room, dn := c.dn)
  {
    hide Overlay;
  }

  lemma BegunAside(s: Client, c: Client, kind: Kind, w: Value)
    requires c == s.(up := c.up, room := c.room, dn := c.dn) && (kind.Dn? || kind.BlkDn?)
    ensures Arm(Begun(c, kind, w.idx, w.sub, w.v, w.con)) == Arm(Begun(s, kind, w.idx, w.sub, w.v, w.con)).(up := c.up, room := c.room)
  {
  }

  lemma LaunchedAside(s: Client, c: Client, kind: Kind, v: Bytes)
    requires c == s.(up := c.up, room := c.room) && (kind.Dn? || kind.BlkDn?)
    ensures Launched(c, kind, v) == Launched(s, kind, v).(up := c.up, room := c.room)
  {
    hide Launched;
    LaunchedIs(s, kind, v);
    LaunchedIs(c, kind, v);
  }

  lemma LaunchedIs(s: Client, kind: Kind, v: Bytes)
    requires kind.Dn? || kind.BlkDn?
    ensures Launched(s, kind, v)
            == s.(out := s.out + [if kind.BlkDn? then BlkDnIniReq(s.idx, s.sub, |v|) else Seg.Opening(s.idx, s.sub, v)],
                  cur := if kind.Dn? && 0 < |v| <= 4 then |v| else s.cur, phase := if kind.Dn? then DnIni else BlkDnIni)
  {
  }

  /** A busy client refuses the value, but its buffer now holds it, and so does a download that reads the buffer. */
  lemma Refused(x: Shared, w: Value)
    requires Busy(x.c.phase)
    ensures var y := ValueRequested(x, w);
            && y.c == x.c.(up := if CanFill(x.c, w.v, w.memOk) then w.v else [], room := y.c.room, dn := y.c.dn)
            && |y.c.dn| == |x.c.dn| && (!x.own ==> y.c.dn == x.c.dn)
            && (x.own && CanFill(x.c, w.v, w.memOk) ==> y.c.dn == Overlay(x.c.dn, if |w.v| > x.c.room then w.stale else w.v))
  {
    hide Overlay;
  }

  // ------------------------------------------------------------------- when it makes no difference

  /** The download still has to read bytes of its data. */
  predicate ToRead(s: Client) {
    match s.phase
    case DnIni => s.cur < s.size
    case DnSeg => s.cur < s.size
    case BlkDnIni => s.size > 0
    case BlkDnSub => true
    case _ => false
  }

  /** The condition: no upload is under way, nor a download that still has to read the own buffer. */
  predicate Safe(x: Shared) { !Uploading(x.c.phase) && !(x.own && ToRead(x.c)) }

  /** Events from s on, as long as the transfer under way lasts. */
  predicate Transfer(s: Client, ss: seq<Client>, es: seq<Event>) {
    && |ss| == |es| + 1 && ss[0] == s
    && forall i | 0 <= i < |es| :: Busy(ss[i].phase) && CsdoRuns.Step(ss[i], es[i], ss[i + 1])
  }

  /** The same frames have been sent and the same confirmations given. */
  predicate SameSeen(s: Client, c: Client) { c.out == s.out && c.done == s.done && c.phase == s.phase }

  /** Whatever happens during the transfer, it goes on from c as it would from s. */
  ghost predicate Undisturbed(s: Client, c: Client) {
    forall ss, es | Transfer(s, ss, es) ::
      exists cs: seq<Client> :: Transfer(c, cs, es) && SameSeen(ss[|es|], cs[|es|])
  }

  /** The client with other contents of its buffers. */
  function Aside(s: Client, u: Bytes, r: nat, d: Bytes): Client { s.(up := u, room := r, dn := d) }

  /** A client that differs from s in its own buffer, and in its data only if it has sent them all. */
  predicate Alike(s: Client, c: Client) {
    && CsdoRuns.Inv(s) && Downloading(s.phase)
    && c == Aside(s, c.up, c.room, c.dn) && |c.dn| == |s.dn| && (c.dn == s.dn || !ToRead(s))
  }

  lemma AbortAside(s: Client, u: Bytes, r: nat, d: Bytes, ac: nat)
    requires !s.con.UpCon?
    ensures AbortInd(Aside(s, u, r, d), ac) == Aside(AbortInd(s, ac), u, r, d)
    ensures AbortRes(Aside(s, u, r, d), ac) == Aside(AbortRes(s, ac), u, r, d)
  {
  }

  lemma AbortByAside(s: Client, u: Bytes, r: nat, d: Bytes, m: Msg)
    requires !s.con.UpCon? && Frame(m)
    ensures AbortBy(Aside(s, u, r, d), m) == Aside(AbortBy(s, m), u, r, d)
  {
    hide AbortInd;
    var ac := if m.len < 8 then 0 else Le32(m.data, 4);
    AbortAside(s, u, r, d, if ac == 0 then AC_ERROR else ac);
  }

  lemma SegSends(s: Client)
    requires s.cur <= s.size == |s.dn| && (s.cur < s.size || (s.size == 0 && !s.toggle))
    ensures var n := s.size - s.cur;
            DnSegEnter(s) == Arm(s).(phase := DnSeg, toggle := !s.toggle, cur := s.cur + Min(n, 7),
                                     out := s.out + [DnSegReq(s.toggle, s.dn[s.cur..s.cur + Min(n, 7)], n <= 7)])
  {
  }

  lemma SegAside(s: Client, u: Bytes, r: nat, d: Bytes)
    requires !s.con.UpCon? && s.cur <= s.size == |s.dn| == |d| && (d == s.dn || (s.cur == s.size && s.size > 0))
    ensures DnSegEnter(Aside(s, u, r, d)) == Aside(DnSegEnter(s), u, r, d)
  {
    hide AbortInd, DnSegEnter;
    var a := Aside(s, u, r, d);
    if s.cur < s.size || (s.size == 0 && !s.toggle) {
      SegSends(s);
      SegSends(a);
    } else {
      Seg.EntersEnd(s);
      Seg.EntersEnd(a);
      AbortAside(s, u, r, d, 0);
    }
  }

  lemma {:induction false} BlockAside(s: Client, u: Bytes, r: nat, k: nat)
    requires s.cur <= s.size == |s.dn| && 1 <= k <= s.blksize + 1
    ensures SendBlock(Aside(s, u, r, s.dn), k) == Aside(SendBlock(s, k), u, r, s.dn) && SendBlock(s, k).dn == s.dn
    decreases s.blksize + 1 - k
  {
    hide SendBlock;
    var a := Aside(s, u, r, s.dn);
    if k <= s.blksize {
      BlockNext(s, k);
      BlockNext(a, k);
      assert SendSub(a, k) == Aside(SendSub(s, k), u, r, s.dn);
      BlockAside(SendSub(s, k), u, r, k + 1);
    } else {
      BlockOver(s, k);
      BlockOver(a, k);
    }
  }

  lemma ClampedAside(s: Client, u: Bytes, r: nat)
    requires s.cur <= s.size
    ensures Clamped(Aside(s, u, r, s.dn)) == Aside(Clamped(s), u, r, s.dn)
    ensures var c := Clamped(s); c.dn == s.dn && c.cur == s.cur && c.size == s.size && c.crc == s.crc && c.con == s.con
  {
  }

  lemma SendAside(s: Client, u: Bytes, r: nat, d: Bytes, f: Out, p: Phase)
    ensures Send(Aside(s, u, r, d), f).(phase := p) == Aside(Send(s, f).(phase := p), u, r, d)
    ensures Aside(s, u, r, d).(phase := p) == Aside(s.(phase := p), u, r, d)
  {
  }

  lemma SubAside(s: Client, u: Bytes, r: nat)
    requires !s.con.UpCon? && s.cur <= s.size == |s.dn|
    ensures BlkDnSubEnter(Aside(s, u, r, s.dn)) == Aside(BlkDnSubEnter(s), u, r, s.dn)
  {
    hide AbortRes, SendBlock, Checksum, BlkDnSubEnter, Clamped, Send;
    var a := Aside(s, u, r, s.dn);
    SubIs(s);
    SubIs(a);
    ClampedAside(s, u, r);
    if Refuses(s) {
      AbortAside(s, u, r, s.dn, AC_BLK_SIZE);
    } else if s.cur < s.size {
      BlockAside(Clamped(s), u, r, 1);
      SendAside(SendBlock(Clamped(s), 1), u, r, s.dn, StartUpReq, BlkDnSub);
    } else {
      SendAside(Clamped(s), u, r, s.dn, BlkDnEndReq(TailSize(s.size), if s.crc then Checksum(s.dn) else 0), BlkDnEnd);
    }
  }

  // ------------------------------------------------------------------------------- frames

  lemma IniAside(s: Client, u: Bytes, r: nat, d: Bytes, m: Msg)
    requires !s.con.UpCon? && Frame(m) && s.cur <= s.size == |s.dn| == |d| && (d == s.dn || (s.cur == s.size && s.size > 0))
    ensures DnIniRecv(Aside(s, u, r, d), m) == Aside(DnIniRecv(s, m), u, r, d)
    ensures DnSegRecv(Aside(s, u, r, d), m) == Aside(DnSegRecv(s, m), u, r, d)
  {
    hide AbortRes, AbortBy, DnSegEnter, SpecOf, ToggleOf;
    AbortAside(s, u, r, d, AC_NO_CS);
    AbortAside(s, u, r, d, AC_ERROR);
    AbortAside(s, u, r, d, AC_TOGGLE);
    AbortByAside(s, u, r, d, m);
    SegAside(s, u, r, d);
  }

  /** What a client makes of the initiate response of a block download. */
  datatype Verdict = NoCommand | Aborts | NotNamed | NoSize | Enters

  function IniVerdict(m: Msg, idx: nat, sub: nat): Verdict
    requires Frame(m)
  {
    if m.len < 1 then NoCommand
    else if SpecOf(m.data[0]).AbortCs? then Aborts
    else if !SpecOf(m.data[0]).BlkDnRes? || SubOf(m.data[0]) != 0 then NoCommand
    else if m.len < 4 || Le16(m.data, 1) != idx || m.data[3] as int != sub then NotNamed
    else if m.len < 5 then NoSize else Enters
  }

  lemma BlkIniIs(s: Client, m: Msg)
    requires Frame(m) && s.cur <= s.size == |s.dn|
    ensures var s1 := s.(crc := m.data[0] & 0x04 != 0);
            BlkDnIniRecv(s, m) == match IniVerdict(m, s.idx, s.sub)
                                  case NoCommand => AbortRes(s, AC_NO_CS)
                                  case Aborts => AbortBy(s, m)
                                  case NotNamed => AbortRes(s1, AC_ERROR)
                                  case NoSize => AbortRes(s1, AC_BLK_SIZE)
                                  case Enters => BlkDnSubEnter(s1.(blksize := m.data[4] as int))
  {
    hide AbortRes, AbortBy, BlkDnSubEnter, SpecOf, SubOf;
  }

  lemma FieldsAside(s: Client, u: Bytes, r: nat, d: Bytes, crc: bool, b: nat, cur: nat)
    ensures Aside(s, u, r, d).(crc := crc) == Aside(s.(crc := crc), u, r, d)
    ensures Aside(s, u, r, d).(blksize := b) == Aside(s.(blksize := b), u, r, d)
    ensures Aside(s, u, r, d).(cur := cur) == Aside(s.(cur := cur), u, r, d)
  {
  }

  lemma BlkIniAside(s: Client, u: Bytes, r: nat, m: Msg)
    requires !s.con.UpCon? && Frame(m) && s.cur <= s.size == |s.dn|
    ensures BlkDnIniRecv(Aside(s, u, r, s.dn), m) == Aside(BlkDnIniRecv(s, m), u, r, s.dn)
  {
    hide AbortRes, AbortBy, BlkDnSubEnter, BlkDnIniRecv, IniVerdict;
    BlkIniIs(s, m);
    BlkIniIs(Aside(s, u, r, s.dn), m);
    AbortAside(s, u, r, s.dn, AC_NO_CS);
    AbortByAside(s, u, r, s.dn, m);
    var s1 := s.(crc := m.data[0] & 0x04 != 0);
    FieldsAside(s, u, r, s.dn, s1.crc, 0, 0);
    AbortAside(s1, u, r, s.dn, AC_ERROR);
    AbortAside(s1, u, r, s.dn, AC_BLK_SIZE);
    FieldsAside(s1, u, r, s.dn, false, m.data[4] as int, 0);
    SubAside(s1.(blksize := m.data[4] as int), u, r);
  }

  lemma BlkSubAside(s: Client, u: Bytes, r: nat, m: Msg)
    requires !s.con.UpCon? && Frame(m) && s.cur <= s.size == |s.dn| && s.blksize <= (s.cur + 6) / 7
    ensures BlkDnSubRecv(Aside(s, u, r, s.dn), m) == Aside(BlkDnSubRecv(s, m), u, r, s.dn)
  {
    hide AbortRes, AbortBy, BlkDnSubEnter, SpecOf, SubOf, Rewind;
    CsdoRuns.RewindFits(s.cur, s.blksize, m.data[1] as int);
    AbortAside(s, u, r, s.dn, AC_NO_CS);
    AbortAside(s, u, r, s.dn, AC_BLK_SEQ);
    AbortByAside(s, u, r, s.dn, m);
    var s1 := s.(cur := Rewind(s.cur, s.blksize, m.data[1] as int));
    FieldsAside(s, u, r, s.dn, false, 0, s1.cur);
    AbortAside(s1, u, r, s.dn, AC_BLK_SIZE);
    FieldsAside(s1, u, r, s.dn, false, m.data[2] as int, 0);
    SubAside(s1.(blksize := m.data[2] as int), u, r);
  }

  lemma EndAside(s: Client, u: Bytes, r: nat, d: Bytes, m: Msg)
    requires !s.con.UpCon? && Frame(m)
    ensures BlkDnEndRecv(Aside(s, u, r, d), m) == Aside(BlkDnEndRecv(s, m), u, r, d)
  {
    hide AbortRes, AbortBy, AbortInd, SpecOf, SubOf;
    AbortAside(s, u, r, d, AC_NO_CS);
    AbortAside(s, u, r, d, 0);
    AbortByAside(s, u, r, d, m);
  }

  lemma FlagsAside(s: Client, u: Bytes, r: nat, d: Bytes, valid: bool, recvOn: bool, timerOn: bool, t: nat)
    ensures Aside(s, u, r, d).(valid := valid) == Aside(s.(valid := valid), u, r, d)
    ensures Aside(s, u, r, d).(recvOn := recvOn) == Aside(s.(recvOn := recvOn), u, r, d)
    ensures Aside(s, u, r, d).(timerOn := timerOn) == Aside(s.(timerOn := timerOn), u, r, d)
    ensures Aside(s, u, r, d).(timerOn := timerOn, timeout := t) == Aside(s.(timerOn := timerOn, timeout := t), u, r, d)
    ensures Aside(s, u, r, d).(timerOn := false, recvOn := false, phase := Stopped)
            == Aside(s.(timerOn := false, recvOn := false, phase := Stopped), u, r, d)
  {
  }

  /** What is known of a client during a download. */
  lemma AlikeFacts(s: Client, c: Client)
    requires Alike(s, c)
    ensures Sound(s) && Sound(c) && !s.con.UpCon? && Busy(s.phase) && c.phase == s.phase && c.timerOn == s.timerOn
    ensures c.recvOn == s.recvOn && c.timeout == s.timeout
  {
    hide CsdoRuns.Books, CsdoRuns.UpFits;
  }

  /** A step of the two clients. */
  lemma ReactAside(s: Client, c: Client, e: Event)
    requires Alike(s, c) && Possible(s, e)
    ensures Sound(s) && Sound(c) && Possible(c, e) && React(c, e) == Aside(React(s, e), c.up, c.room, c.dn)
  {
    hide AbortRes, OnRecv, Alike, Aside;
    AlikeFacts(s, c);
    var u, r, d := c.up, c.room, c.dn;
    AlikeIs(s, c);
    match e
    case RecvE(m, memOk) => RecvAside(s, c, m, memOk);
    case RequestE(_, _, _, _, _) =>
    case StopE =>
      AbortAside(s, u, r, d, AC_NO_SDO);
      FlagsAside(AbortRes(s, AC_NO_SDO), u, r, d, false, false, false, 0);
    case UpdateE(v) =>
      FlagsAside(s, u, r, d, v, v, false, 0);
      AbortAside(s.(valid := v), u, r, d, AC_NO_SDO);
      FlagsAside(AbortRes(s.(valid := v), AC_NO_SDO), u, r, d, false, v, false, 0);
    case AbortE(ac) => AbortAside(s, u, r, d, ac);
    case TimeE =>
      FlagsAside(s, u, r, d, false, false, false, 0);
      AbortAside(s.(timerOn := false), u, r, d, AC_TIMEOUT);
    case StartE(_) =>
    case SetTimeoutE(t) => FlagsAside(s, u, r, d, false, false, s.timerOn && !(s.timeout > 0 && t <= 0), if t > 0 then t else 0);
  }

  lemma AlikeIs(s: Client, c: Client)
    requires Alike(s, c)
    ensures c == Aside(s, c.up, c.room, c.dn)
  {
  }

  lemma RecvAside(s: Client, c: Client, m: Msg, memOk: bool)
    requires Alike(s, c) && Frame(m)
    ensures Sound(c) && OnRecv(c, m, memOk) == Aside(OnRecv(s, m, memOk), c.up, c.room, c.dn)
  {
    hide AbortRes, AbortBy, DnIniRecv, DnSegRecv, BlkDnIniRecv, BlkDnSubRecv, BlkDnEndRecv, SpecOf, CsdoRuns.Inv;
    AlikeFacts(s, c);
    match s.phase {
      case DnIni => IniAside(s, c.up, c.room, c.dn, m);
      case DnSeg => IniAside(s, c.up, c.room, c.dn, m);
      case BlkDnIni => BlkIniAside(s, c.up, c.room, m);
      case BlkDnSub => BlkSubAside(s, c.up, c.room, m);
      case BlkDnEnd => EndAside(s, c.up, c.room, c.dn, m);
    }
  }

  // ----------------------------------------------------------------------- staying alike

  /** A frame leaves a download in a state of downloads, or idle, with its data. */
  predicate GoesOn(s: Client, s': Client) { s'.dn == s.dn && (Downloading(s'.phase) || s'.phase.Wait?) }

  lemma LeavesGoOn(s: Client, m: Msg, ac: nat)
    requires Frame(m)
    ensures GoesOn(s, AbortInd(s, ac)) && GoesOn(s, AbortRes(s, ac)) && GoesOn(s, AbortBy(s, m))
  {
  }

  lemma SegGoesOn(s: Client)
    requires s.cur <= s.size == |s.dn|
    ensures GoesOn(s, DnSegEnter(s))
    ensures s.cur == s.size > 0 ==> DnSegEnter(s).phase.Wait?
  {
  }

  lemma SubGoesOn(s: Client)
    requires s.cur <= s.size == |s.dn|
    ensures GoesOn(s, BlkDnSubEnter(s))
  {
    hide AbortRes, SendBlock, Checksum, BlkDnSubEnter, Clamped;
    SubIs(s);
    LeavesGoOn(s, Msg(0, [0, 0, 0, 0, 0, 0, 0, 0]), AC_BLK_SIZE);
    ClampedAside(s, s.up, s.room);
    if s.cur < s.size { CsdoRuns.SendBlockIs(Clamped(s), 1); }
  }

  lemma SegRecvGoesOn(s: Client, m: Msg)
    requires Frame(m) && s.cur <= s.size == |s.dn|
    ensures GoesOn(s, DnIniRecv(s, m)) && GoesOn(s, DnSegRecv(s, m))
    ensures s.cur == s.size > 0 ==> DnIniRecv(s, m).phase.Wait? && DnSegRecv(s, m).phase.Wait?
  {
    hide AbortRes, AbortBy, DnSegEnter, SpecOf, ToggleOf, GoesOn;
    LeavesGoOn(s, m, AC_NO_CS);
    LeavesGoOn(s, m, AC_ERROR);
    LeavesGoOn(s, m, AC_TOGGLE);
    SegGoesOn(s);
    IdleAfter(s, m, AC_NO_CS);
    IdleAfter(s, m, AC_ERROR);
    IdleAfter(s, m, AC_TOGGLE);
  }

  lemma IdleAfter(s: Client, m: Msg, ac: nat)
    requires Frame(m)
    ensures AbortInd(s, ac).phase.Wait? && AbortRes(s, ac).phase.Wait? && AbortBy(s, m).phase.Wait?
  {
  }

  lemma BlkIniGoesOn(s: Client, m: Msg)
    requires Frame(m) && s.cur <= s.size == |s.dn|
    ensures GoesOn(s, BlkDnIniRecv(s, m))
  {
    hide AbortRes, AbortBy, BlkDnSubEnter, BlkDnIniRecv, IniVerdict;
    BlkIniIs(s, m);
    LeavesGoOn(s, m, AC_NO_CS);
    var s1 := s.(crc := m.data[0] & 0x04 != 0);
    LeavesGoOn(s1, m, AC_ERROR);
    LeavesGoOn(s1, m, AC_BLK_SIZE);
    SubGoesOn(s1.(blksize := m.data[4] as int));
  }

  lemma BlkSubGoesOn(s: Client, m: Msg)
    requires Frame(m) && s.cur <= s.size == |s.dn| && s.blksize <= (s.cur + 6) / 7
    ensures GoesOn(s, BlkDnSubRecv(s, m))
  {
    hide AbortRes, AbortBy, BlkDnSubEnter, SpecOf, SubOf, Rewind;
    CsdoRuns.RewindFits(s.cur, s.blksize, m.data[1] as int);
    LeavesGoOn(s, m, AC_NO_CS);
    LeavesGoOn(s, m, AC_BLK_SEQ);
    var s1 := s.(cur := Rewind(s.cur, s.blksize, m.data[1] as int));
    LeavesGoOn(s1, m, AC_BLK_SIZE);
    SubGoesOn(s1.(blksize := m.data[2] as int));
  }

  lemma BlkEndGoesOn(s: Client, m: Msg)
    requires Frame(m)
    ensures GoesOn(s, BlkDnEndRecv(s, m)) && BlkDnEndRecv(s, m).phase.Wait?
  {
    hide AbortRes, AbortBy, AbortInd, SpecOf, SubOf, GoesOn;
    LeavesGoOn(s, m, AC_NO_CS);
    LeavesGoOn(s, m, 0);
    IdleAfter(s, m, AC_NO_CS);
    IdleAfter(s, m, 0);
  }

  lemma RecvGoesOn(s: Client, m: Msg, memOk: bool)
    requires Sound(s) && Downloading(s.phase) && Frame(m)
    ensures GoesOn(s, OnRecv(s, m, memOk))
    ensures !ToRead(s) ==> OnRecv(s, m, memOk).phase.Wait? || s.dn == []
  {
    hide DnIniRecv, DnSegRecv, BlkDnIniRecv, BlkDnSubRecv, BlkDnEndRecv, GoesOn;
    match s.phase {
      case DnIni => SegRecvGoesOn(s, m);
      case DnSeg => SegRecvGoesOn(s, m);
      case BlkDnIni => BlkIniGoesOn(s, m);
      case BlkDnSub => BlkSubGoesOn(s, m);
      case BlkDnEnd => BlkEndGoesOn(s, m);
    }
  }

  lemma AsideSeen(s: Client, c: Client, u: Bytes, r: nat, d: Bytes)
    requires c == Aside(s, u, r, d)
    ensures SameSeen(s, c)
  {
  }

  /** The two clients send and confirm the same, and stay alike while the transfer lasts. */
  lemma StepAlike(s: Client, c: Client, e: Event)
    requires Alike(s, c) && Possible(s, e)
    ensures Sound(s) && Sound(c) && Possible(c, e) && SameSeen(React(s, e), React(c, e))
    ensures Busy(React(s, e).phase) ==> Alike(React(s, e), React(c, e))
  {
    hide CsdoRuns.Inv, OnRecv, React, CsdoRuns.Failed;
    ReactAside(s, c, e);
    AsideSeen(React(s, e), React(c, e), c.up, c.room, c.dn);
    CsdoRuns.ReactKeeps(s, e);
    if e.RecvE? {
      RecvIs(s, e);
      RecvGoesOn(s, e.m, e.memOk);
    } else {
      CsdoRuns.ControlFails(s, e);
      if CsdoRuns.Failed(s, React(s, e)) { CsdoRuns.FailedMeans(s, React(s, e)); }
    }
  }

  lemma RecvIs(s: Client, e: Event)
    requires Sound(s) && Possible(s, e) && e.RecvE?
    ensures React(s, e) == OnRecv(s, e.m, e.memOk)
  {
    hide OnRecv;
  }

  /** Any continuation of the transfer from s has its counterpart from c. */
  lemma {:induction false} Follows(s: Client, c: Client, ss: seq<Client>, es: seq<Event>) returns (cs: seq<Client>)
    requires SameSeen(s, c) && Transfer(s, ss, es) && (es != [] ==> Alike(s, c))
    ensures Transfer(c, cs, es) && SameSeen(ss[|es|], cs[|es|])
    decreases |es|
  {
    hide Alike, React, SameSeen;
    if es == [] {
      cs := [c];
    } else {
      assert CsdoRuns.Step(ss[0], es[0], ss[1]);
      StepAlike(s, c, es[0]);
      var c1 := React(c, es[0]);
      SameBusy(s, c);
      var rest := Follows(ss[1], c1, ss[1..], es[1..]);
      cs := [c] + rest;
      assert CsdoRuns.Step(cs[0], es[0], cs[1]);
      SameBusy(ss[1], c1);
    }
  }

  lemma SameBusy(s: Client, c: Client)
    requires SameSeen(s, c)
    ensures Busy(s.phase) == Busy(c.phase)
  {
  }

  lemma AlikeUndisturbed(s: Client, c: Client)
    requires Alike(s, c)
    ensures Undisturbed(s, c)
  {
    hide Alike, CsdoRuns.Step, SameSeen;
    AlikeIs(s, c);
    AsideSeen(s, c, c.up, c.room, c.dn);
    forall ss, es | Transfer(s, ss, es)
      ensures exists cs: seq<Client> :: Transfer(c, cs, es) && SameSeen(ss[|es|], cs[|es|])
    {
      var cs := Follows(s, c, ss, es);
    }
  }

  // ------------------------------------------------------------------------------ harmless

  /** The request keeps the client's invariant and does not disturb a transfer under way. */
  ghost predicate Harmless(x: Shared, w: Value) {
    var c := ValueRequested(x, w).c;
    CsdoRuns.Inv(c) && (Busy(x.c.phase) ==> Undisturbed(x.c, c))
  }

  lemma FillKeeps(x: Shared, w: Value)
    requires CsdoRuns.Inv(x.c) && !Uploading(x.c.phase)
    ensures CsdoRuns.Inv(Filled(x, w.v, w.memOk, w.stale).c)
  {
    hide CsdoRuns.Inv, Filled, Aside;
    var c := Filled(x, w.v, w.memOk, w.stale).c;
    FilledAside(x, w);
    BuffersInv(x.c, c.up, c.room, c.dn);
  }

  lemma FilledAside(x: Shared, w: Value)
    ensures var c := Filled(x, w.v, w.memOk, w.stale).c; c == Aside(x.c, c.up, c.room, c.dn) && |c.dn| == |x.c.dn|
  {
    hide Overlay;
  }

  lemma BuffersInv(s: Client, u: Bytes, r: nat, d: Bytes)
    requires CsdoRuns.Inv(s) && !Uploading(s.phase) && |d| == |s.dn|
    ensures CsdoRuns.Inv(Aside(s, u, r, d))
  {
    hide CsdoRuns.Books;
    CsdoRuns.BooksSame(s, Aside(s, u, r, d));
  }

  lemma KeepsInv(x: Shared, w: Value)
    requires CsdoRuns.Inv(x.c) && !Uploading(x.c.phase)
    ensures CsdoRuns.Inv(ValueRequested(x, w).c)
  {
    hide CsdoRuns.Inv, Filled, CanFill, Requested;
    FillKeeps(x, w);
    CsdoRuns.RequestKeeps(Filled(x, w.v, w.memOk, w.stale).c, KindOf(w), w.idx, w.sub, w.v, w.con);
  }

  lemma SafeHarmless(x: Shared, w: Value)
    requires CsdoRuns.Inv(x.c) && Safe(x)
    ensures Harmless(x, w)
  {
    hide CsdoRuns.Inv, ValueRequested, Undisturbed, CanFill;
    KeepsInv(x, w);
    if Busy(x.c.phase) {
      Refused(x, w);
      AlikeUndisturbed(x.c, ValueRequested(x, w).c);
    }
  }

  // ------------------------------------------------------------------------------- harmful

  /** A frame that names the client's object. */
  function Naming(s: Client, cs: bv8, last: bv8): (m: Msg)
    requires s.idx < 0x1_0000 && s.sub < 0x100
    ensures Frame(m) && Names(m, s) && m.len == 8 && m.data[0] == cs && m.data[4] == last
  {
    ByteIs(s.idx % 0x100);
    ByteIs(s.idx / 0x100);
    ByteIs(s.sub);
    Msg(8, [cs, Byte(s.idx % 0x100), Byte(s.idx / 0x100), Byte(s.sub), last, 0, 0, 0])
  }

  /** The acknowledgement that makes the client read on. */
  function Ack(s: Client): (m: Msg)
    requires s.idx < 0x1_0000 && s.sub < 0x100
    ensures Frame(m)
  {
    match s.phase
    case DnIni => Naming(s, 0x60, 0)
    case DnSeg => Msg(8, [if s.toggle then 0x20 else 0x30, 0, 0, 0, 0, 0, 0, 0])
    case BlkDnIni => Naming(s, 0xa0, 1)
    case _ => Msg(8, [0xa2, 0, 1, 0, 0, 0, 0, 0])
  }

  lemma AckBits()
    ensures SpecOf(0x60) == DnIniRes && SpecOf(0x20) == DnSegRes && SpecOf(0x30) == DnSegRes
    ensures !ToggleOf(0x20) && ToggleOf(0x30)
    ensures SpecOf(0xa0) == BlkDnRes && SubOf(0xa0) == 0 && SpecOf(0xa2) == BlkDnRes && SubOf(0xa2) == 2
  {
  }

  /** The bytes carried by the last frame. */
  function LastPayload(s: Client): Bytes {
    if s.out == [] then []
    else
      match s.out[|s.out| - 1]
      case DnSegReq(_, p, _) => p
      case BlkDnSubReq(_, p, _) => p
      case _ => []
  }

  /** n bytes of the data from position at are sent in the frame. */
  predicate ReadsOn(s: Client, s': Client, at: nat) {
    at < |s.dn| && LastPayload(s') == s.dn[at..at + Min(|s.dn| - at, 7)]
  }

  lemma SegReads(s: Client)
    requires s.cur < s.size == |s.dn|
    ensures ReadsOn(s, DnSegEnter(s), s.cur)
  {
    hide DnSegEnter;
    SegSends(s);
  }

  lemma SubReads(s: Client)
    requires s.cur < s.size == |s.dn| && s.blksize == 1
    ensures ReadsOn(s, BlkDnSubEnter(s), s.cur)
  {
    hide SendBlock, BlkDnSubEnter, AbortRes;
    SubIs(s);
    var c := Clamped(s);
    BlockNext(c, 1);
    BlockOver(SendSub(c, 1), 2);
  }

  /** Where the acknowledgement makes the client read. */
  function ReadAt(s: Client): int {
    match s.phase
    case BlkDnIni => 0
    case BlkDnSub => 7 * ((s.cur + 6) / 7 - s.blksize)
    case _ => s.cur
  }

  lemma AckReads(s: Client)
    requires CsdoRuns.Inv(s) && Listens(s) && ToRead(s)
    ensures Sound(s) && Possible(s, RecvE(Ack(s), true)) && 0 <= ReadAt(s) && ReadsOn(s, React(s, RecvE(Ack(s), true)), ReadAt(s))
  {
    hide SpecOf, ToggleOf, SubOf, DnSegEnter, BlkDnSubEnter, AbortRes, AbortBy, CsdoRuns.Books, CsdoRuns.UpFits, ReadsOn, Naming;
    AckBits();
    match s.phase {
      case DnIni => SegReads(s);
      case DnSeg => SegReads(s);
      case BlkDnIni => BlkIniReads(s);
      case BlkDnSub => BlkSubReads(s);
    }
  }

  lemma BlkIniReads(s: Client)
    requires Sound(s) && Listens(s) && s.phase.BlkDnIni? && ToRead(s)
    ensures ReadsOn(s, BlkDnIniRecv(s, Ack(s)), 0)
  {
    hide SpecOf, SubOf, BlkDnSubEnter, AbortRes, AbortBy;
    AckBits();
    SubReads(s.(crc := 0xa0 as bv8 & 0x04 != 0, blksize := 1));
  }

  lemma BlkSubReads(s: Client)
    requires Sound(s) && Listens(s) && s.phase.BlkDnSub?
    ensures 0 <= ReadAt(s) && ReadsOn(s, BlkDnSubRecv(s, Ack(s)), ReadAt(s))
  {
    hide SpecOf, SubOf, BlkDnSubEnter, AbortRes, AbortBy;
    AckBits();
    SubReads(s.(cur := ReadAt(s), blksize := 1));
  }

  /** Other data of the same length, different in every byte. */
  function Other(d: Bytes): (r: Bytes)
    ensures |r| == |d| && forall i | 0 <= i < |d| :: r[i] != d[i]
  {
    seq(|d|, i requires 0 <= i < |d| => d[i] + 1)
  }

  /** A value for which the buffer has to grow; the freed block is put to other use. */
  function Growing(s: Client): Value { Value(false, 0, 0, seq(s.room + 1, _ => 0), false, true, Other(s.dn)) }

  lemma Grown(x: Shared)
    requires Busy(x.c.phase) && x.own
    ensures var c := ValueRequested(x, Growing(x.c)).c; c == Aside(x.c, c.up, c.room, Other(x.c.dn))
  {
    hide ValueRequested, Other;
    Refused(x, Growing(x.c));
  }

  lemma SameAck(s: Client, u: Bytes, r: nat, d: Bytes)
    requires Listens(s) && ToRead(s)
    ensures var c := Aside(s, u, r, d); Listens(c) && ToRead(c) && Ack(c) == Ack(s) && ReadAt(c) == ReadAt(s)
  {
  }

  lemma DataSeen(s: Client, c: Client, s': Client, c': Client, at: nat)
    requires ReadsOn(s, s', at) && ReadsOn(c, c', at) && c'.out == s'.out && |c.dn| == |s.dn|
    ensures c.dn[at] == s.dn[at]
  {
    assert s.dn[at..at + Min(|s.dn| - at, 7)][0] == c.dn[at..at + Min(|c.dn| - at, 7)][0];
  }

  /** A download that still has to read the own buffer sends other bytes after such a request. */
  lemma Disturbed(x: Shared)
    requires CsdoRuns.Inv(x.c) && Listens(x.c) && x.own && ToRead(x.c)
    ensures !Harmless(x, Growing(x.c))
  {
    hide CsdoRuns.Inv, ValueRequested, React, Ack, ReadsOn, ToRead, Listens, Growing, Other, ReadAt;
    var s, c := x.c, ValueRequested(x, Growing(x.c)).c;
    ReadsBusy(s);
    Grown(x);
    KeepsInv(x, Growing(s));
    SameAck(s, c.up, c.room, c.dn);
    AckReads(s);
    AckReads(c);
    var e := RecvE(Ack(s), true);
    if Undisturbed(s, c) {
      var ss := [s, React(s, e)];
      assert CsdoRuns.Step(ss[0], e, ss[1]);
      assert Transfer(s, ss, [e]);
      var cs: seq<Client> :| Transfer(c, cs, [e]) && SameSeen(ss[1], cs[1]);
      assert CsdoRuns.Step(cs[0], e, cs[1]);
      DataSeen(s, c, ss[1], cs[1], ReadAt(s));
      AtIn(s, ss[1], ReadAt(s));
    }
  }

  lemma AtIn(s: Client, s': Client, at: nat)
    requires ReadsOn(s, s', at)
    ensures at < |s.dn|
  {
  }

  lemma ReadsBusy(s: Client)
    requires ToRead(s)
    ensures Busy(s.phase) && !Uploading(s.phase) && (Listens(s) ==> s.idx < 0x1_0000 && s.sub < 0x100)
  {
  }

  // -------------------------------------------------------------------------- the boundary

  /** Whatever value is asked for, the request is harmless. */
  ghost predicate TakesValues(x: Shared) { forall w :: Harmless(x, w) }

  /** A value one byte larger than the upload under way may have received breaks its bounds. */
  lemma TooLarge(x: Shared, w: Value)
    requires CsdoRuns.Inv(x.c) && Uploading(x.c.phase) && |w.v| == x.c.size + 1 && w.memOk
    ensures !CsdoRuns.Inv(ValueRequested(x, w).c)
  {
    hide CsdoRuns.Books, ValueRequested;
    Refused(x, w);
    UpBounds(x.c);
  }

  lemma UpBounds(s: Client)
    requires CsdoRuns.Inv(s) && Uploading(s.phase)
    ensures (s.phase.UpIni? || s.phase.BlkUpIni?) || s.size <= s.room
  {
  }

  /** A value request is harmless for every value exactly if nothing under way uses the own buffer any more. */
  lemma ValueSafe(x: Shared)
    requires CsdoRuns.Inv(x.c) && Listens(x.c)
    ensures TakesValues(x) <==> Safe(x)
  {
    hide CsdoRuns.Inv, ValueRequested, ToRead, Undisturbed, Listens, Growing;
    if Uploading(x.c.phase) {
      var w := Value(false, 0, 0, seq(x.c.size + 1, _ => 0), false, true, []);
      TooLarge(x, w);
      assert !Harmless(x, w);
    } else if x.own && ToRead(x.c) {
      Disturbed(x);
      assert !Harmless(x, Growing(x.c));
    } else {
      forall w ensures Harmless(x, w) { SafeHarmless(x, w); }
    }
  }

  // ---------------------------------------------------------------------------------- runs

  /** An event of the client, or a request to download a value. */
  datatype Act = Plain(e: Event) | Ask(w: Value)

  predicate Can(x: Shared, a: Act) {
    match a
    case Plain(e) => Sound(x.c) && Possible(x.c, e) && Fits(e)
    case Ask(w) => w.idx < 0x1_0000 && w.sub < 0x100
  }

  function After(x: Shared, a: Act): Shared
    requires Can(x, a)
  {
    match a
    case Plain(e) =>
      if e.RequestE? then RequestedFrom(x, e.kind, e.idx, e.sub, e.data, false, e.con)
      else Shared(React(x.c, e), x.own && Downloading(React(x.c, e).phase))
    case Ask(w) => ValueRequested(x, w)
  }

  /** A run of a new client with value requests. */
  predicate IsValueRun(xs: seq<Shared>, acts: seq<Act>) {
    && |xs| == |acts| + 1 && xs[0] == Shared(NEW, false)
    && forall i | 0 <= i < |acts| :: Can(xs[i], acts[i]) && xs[i + 1] == After(xs[i], acts[i])
  }

  lemma FilledListens(x: Shared, w: Value)
    requires Listens(x.c)
    ensures Listens(Filled(x, w.v, w.memOk, w.stale).c)
  {
    hide Overlay;
  }

  lemma AfterListens(x: Shared, a: Act)
    requires Can(x, a) && Listens(x.c)
    ensures Listens(After(x, a).c)
  {
    hide Listens, React, Requested, Filled, CanFill;
    match a
    case Plain(e) =>
      if e.RequestE? { RequestListens(x.c, e.kind, e.idx, e.sub, e.data, e.con); } else { ListensKept(x.c, e); }
    case Ask(w) =>
      FilledListens(x, w);
      RequestListens(Filled(x, w.v, w.memOk, w.stale).c, KindOf(w), w.idx, w.sub, w.v, w.con);
  }

  lemma AfterInv(x: Shared, a: Act)
    requires Can(x, a) && CsdoRuns.Inv(x.c) && (a.Ask? ==> Safe(x))
    ensures CsdoRuns.Inv(After(x, a).c)
  {
    hide CsdoRuns.Inv, React, Requested, Filled, CanFill, ToRead, ValueRequested;
    match a
    case Plain(e) =>
      if e.RequestE? { CsdoRuns.RequestKeeps(x.c, e.kind, e.idx, e.sub, e.data, e.con); } else { CsdoRuns.ReactKeeps(x.c, e); }
    case Ask(w) => KeepsInv(x, w);
  }

  lemma {:induction false} RunKeeps(xs: seq<Shared>, acts: seq<Act>, i: nat)
    requires IsValueRun(xs, acts) && i < |xs|
    ensures Listens(xs[i].c)
    ensures (forall j | 0 <= j < i :: acts[j].Ask? ==> Safe(xs[j])) ==> CsdoRuns.Inv(xs[i].c)
  {
    hide CsdoRuns.Inv, Can, After, Safe, Listens;
    if i == 0 {
      NewClient();
    } else {
      RunKeeps(xs, acts, i - 1);
      AfterListens(xs[i - 1], acts[i - 1]);
      if forall j | 0 <= j < i :: acts[j].Ask? ==> Safe(xs[j]) { AfterInv(xs[i - 1], acts[i - 1]); }
    }
  }

  lemma NewClient()
    ensures Listens(NEW) && CsdoRuns.Inv(NEW)
  {
  }

  /**
   The exact boundary, in every state of every run whose earlier value requests kept
   to it: a value request is harmless whatever the value, if and only if no upload is
   under way and no download that still has to read its data from the own buffer.
   */
  lemma ValueBoundary(xs: seq<Shared>, acts: seq<Act>, i: nat)
    requires IsValueRun(xs, acts) && i < |xs|
    requires forall j | 0 <= j < i :: acts[j].Ask? ==> Safe(xs[j])
    ensures TakesValues(xs[i]) <==> !Uploading(xs[i].c.phase) && !(xs[i].own && ToRead(xs[i].c))
  {
    hide IsValueRun, CsdoRuns.Inv, Listens, ToRead, TakesValues;
    RunKeeps(xs, acts, i);
    ValueSafe(xs[i]);
  }
}
