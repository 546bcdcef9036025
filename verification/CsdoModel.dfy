/**
 The Client-SDO of CiA 301 section 7.2.4.3 as a state machine: one function per
 event and state.  Requests, received frames, timeouts and aborts are the events;
 frames sent and confirmations delivered are collected in histories.
 */
module CsdoModel {
  import opened MemBuf
  import Crc16

  datatype Phase =
    | Stopped | Wait
    | DnIni | DnSeg
    | UpIni | UpSeg
    | BlkDnIni | BlkDnSub | BlkDnEnd
    | BlkUpIni | BlkUpSub | BlkUpEnd

  predicate Busy(p: Phase) { !p.Stopped? && !p.Wait? }
  predicate Uploading(p: Phase) { p.UpIni? || p.UpSeg? || p.BlkUpIni? || p.BlkUpSub? || p.BlkUpEnd? }
  predicate Downloading(p: Phase) { Busy(p) && !Uploading(p) }

  // abort codes of CiA 301, section 7.2.4.3.17
  const AC_TOGGLE: nat := 0x0503_0000
  const AC_TIMEOUT: nat := 0x0504_0000
  const AC_NO_CS: nat := 0x0504_0001
  const AC_BLK_SIZE: nat := 0x0504_0002
  const AC_BLK_SEQ: nat := 0x0504_0003
  const AC_BLK_CRC: nat := 0x0504_0004
  const AC_NO_MEM: nat := 0x0504_0005
  const AC_TYPE_LEN_HI: nat := 0x0607_0012
  const AC_TYPE_LEN_LO: nat := 0x0607_0013
  const AC_NO_SDO: nat := 0x060A_0023
  const AC_ERROR: nat := 0x0800_0000

  const MAX_SEQNO: nat := 127

  /** The number n as a byte. */
  function Byte(n: nat): bv8 { if n == 0 then 0 else Byte(n - 1) + 1 }

  lemma OneMore(b: bv8)
    requires b as int < 0xff
    ensures (b + 1) as int == b as int + 1
  {
  }

  lemma {:induction false} ByteIs(n: nat)
    requires n < 0x100
    ensures Byte(n) as int == n
  {
    if n > 0 {
      ByteIs(n - 1);
      OneMore(Byte(n - 1));
    }
  }

  /** A received CAN frame: its length and the eight bytes of storage behind it. */
  datatype Msg = Msg(len: nat, data: Bytes)

  predicate Frame(m: Msg) { m.len <= 8 && |m.data| == 8 }

  /** The server command specifier, the top three bits of the first byte. */
  datatype Spec = DnIniRes | DnSegRes | UpIniRes | UpSegRes | BlkDnRes | BlkUpRes | AbortCs | OtherCs

  function SpecOf(cs: bv8): Spec {
    var k := cs & 0xe0;
    if k == 0x60 then DnIniRes else if k == 0x20 then DnSegRes else if k == 0x40 then UpIniRes
    else if k == 0x00 then UpSegRes else if k == 0xa0 then BlkDnRes else if k == 0xc0 then BlkUpRes
    else if k == 0x80 then AbortCs else OtherCs
  }

  function SubOf(cs: bv8): nat { (cs & 0x03) as int }
  function ToggleOf(cs: bv8): bool { cs & 0x10 != 0 }
  function Le16(d: Bytes, i: nat): nat
    requires i + 2 <= |d|
  {
    d[i] as int + 0x100 * d[i + 1] as int
  }
  function Le32(d: Bytes, i: nat): nat
    requires i + 4 <= |d|
  {
    Le16(d, i) + 0x1_0000 * Le16(d, i + 2)
  }

  /** A request frame. */
  datatype Out =
    | DnExpReq(idx: nat, sub: nat, payload: Bytes)
    | DnIniReq(idx: nat, sub: nat, total: nat)
    | DnSegReq(toggle: bool, payload: Bytes, last: bool)
    | UpIniReq(idx: nat, sub: nat)
    | UpSegReq(toggle: bool)
    | BlkDnIniReq(idx: nat, sub: nat, total: nat)
    | BlkDnSubReq(seqno: nat, payload: Bytes, last: bool)
    | BlkDnEndReq(tail: nat, crc: nat)
    | BlkUpIniReq(idx: nat, sub: nat, blksize: nat, pst: nat)
    | StartUpReq
    | BlkUpSubRes(ackseq: nat, blksize: nat)
    | BlkUpEndRes
    | AbortReq(idx: nat, sub: nat, ac: nat)

  datatype Con = NoCon | DnCon | UpCon

  /** An accepted request with a confirmation function, and its confirmation. */
  datatype Asked = Asked(idx: nat, sub: nat, upload: bool)
  datatype Done = Done(what: Asked, ac: nat, data: Bytes)

  datatype Client = Client(
    phase: Phase, valid: bool, recvOn: bool, timerOn: bool, timeout: nat,
    ac: nat, idx: nat, sub: nat, size: nat,
    toggle: bool, blksize: nat, pst: nat, ackseq: nat, crc: bool,
    dn: Bytes, cur: nat,          // download buffer and cursor
    up: Bytes, room: nat,         // upload buffer up to its cursor, and its capacity
    con: Con,
    // history
    out: seq<Out>, asked: seq<Asked>, done: seq<Done>)

  function Min(a: nat, b: nat): (m: nat)
    ensures m == if a <= b then a else b
  {
    if a <= b then a else b
  }

  function Send(s: Client, f: Out): Client { s.(out := s.out + [f]) }
  function Arm(s: Client): Client { s.(timerOn := s.timerOn || s.timeout > 0) }

  /** Leave for the waiting state and confirm the request. */
  function AbortInd(s: Client, ac: nat): Client {
    s.(phase := Wait, timerOn := false, ac := ac, con := NoCon, done := Confirmed(s.(ac := ac)))
  }

  /** The confirmations after the outstanding request, if any, is confirmed with code ac. */
  function Confirmed(s: Client): seq<Done> {
    if s.con.NoCon? then s.done
    else s.done + [Done(Asked(s.idx, s.sub, s.con.UpCon?), s.ac, if s.con.UpCon? && s.ac == 0 then s.up else [])]
  }

  function AbortRes(s: Client, ac: nat): Client { AbortInd(Send(s, AbortReq(s.idx, s.sub, ac)), ac) }

  /** The server aborted the transfer. */
  function AbortBy(s: Client, m: Msg): Client
    requires Frame(m)
  {
    var ac := if m.len < 8 then 0 else Le32(m.data, 4);
    AbortInd(s, if ac == 0 then AC_ERROR else ac)
  }

  predicate Names(m: Msg, s: Client)
    requires Frame(m)
  {
    Le16(m.data, 1) == s.idx && m.data[3] as int == s.sub
  }

  // --------------------------------------------------------------------- download

  /** The client after sending n bytes from the cursor on. */
  function SendSeg(s: Client, n: nat, last: bool): Client
    requires s.cur + n <= |s.dn|
  {
    Send(s, DnSegReq(s.toggle, s.dn[s.cur..s.cur + n], last)).(toggle := !s.toggle, cur := s.cur + n)
  }

  function DnSegEnter(s: Client): Client
    requires s.cur <= s.size == |s.dn|
  {
    var n := s.size - s.cur;
    if n > 0 || (s.size == 0 && !s.toggle) then SendSeg(Arm(s), Min(n, 7), n <= 7).(phase := DnSeg)
    else AbortInd(s, 0)
  }

  function DnIniRecv(s: Client, m: Msg): Client
    requires Frame(m) && s.cur <= s.size == |s.dn|
  {
    if m.len < 1 then AbortRes(s, AC_NO_CS)
    else match SpecOf(m.data[0])
         case DnIniRes => if m.len < 4 || !Names(m, s) then AbortRes(s, AC_ERROR) else DnSegEnter(s)
         case AbortCs => AbortBy(s, m)
         case _ => AbortRes(s, AC_NO_CS)
  }

  function DnSegRecv(s: Client, m: Msg): Client
    requires Frame(m) && s.cur <= s.size == |s.dn|
  {
    if m.len < 1 then AbortRes(s, AC_NO_CS)
    else match SpecOf(m.data[0])
         case DnSegRes => if ToggleOf(m.data[0]) == s.toggle then AbortRes(s, AC_TOGGLE) else DnSegEnter(s)
         case AbortCs => AbortBy(s, m)
         case _ => AbortRes(s, AC_NO_CS)
  }

  // ----------------------------------------------------------------------- upload

  /** The four data bytes, padded with zeros when the frame is short. */
  function Padded(m: Msg): (d: Bytes)
    requires Frame(m) && m.len >= 4
    ensures |d| == 4
  {
    m.data[4..m.len] + seq(8 - m.len, _ => 0)
  }

  /** The buffer has room for the announced size. */
  predicate HasRoom(s: Client) { s.size == 0 || |s.up| + s.size <= s.room }

  /** The client after making room. */
  function Reserve(s: Client): Client {
    if HasRoom(s) then s else s.(room := Doubled(MEMBUF_SIZE, |s.up| + s.size))
  }

  function ExpSize(m: Msg): nat
    requires Frame(m) && m.len >= 4
  {
    if m.data[0] & 0x01 != 0 then 4 - ((m.data[0] & 0x0f) >> 2) as int else m.len - 4
  }

  function UpIniSize(m: Msg): nat
    requires Frame(m) && m.len >= 4
  {
    if m.data[0] & 0x02 != 0 then ExpSize(m)
    else if m.data[0] & 0x01 != 0 then Le32(Padded(m), 0) else 0
  }

  function UpIniAccept(s: Client, m: Msg, memOk: bool): Client
    requires Frame(m) && m.len >= 4
  {
    var s1 := s.(size := UpIniSize(m));
    if !HasRoom(s1) && !memOk then AbortRes(s1, AC_NO_MEM)
    else
      var s2 := Reserve(s1);
      if m.data[0] & 0x02 != 0 then AbortInd(s2.(up := s2.up + Padded(m)[..Min(s2.size, 4)]), 0)
      else Send(Arm(s2), UpSegReq(s2.toggle)).(toggle := !s2.toggle, phase := UpSeg)
  }

  function UpIniRecv(s: Client, m: Msg, memOk: bool): Client
    requires Frame(m)
  {
    if m.len < 1 then AbortRes(s, AC_NO_CS)
    else match SpecOf(m.data[0])
         case UpIniRes => if m.len < 4 || !Names(m, s) then AbortRes(s, AC_ERROR) else UpIniAccept(s, m, memOk)
         case AbortCs => AbortBy(s, m)
         case _ => AbortRes(s, AC_NO_CS)
  }

  function SegSize(cs: bv8): nat { 7 - ((cs & 0x0e) >> 1) as int }

  function UpSegAccept(s: Client, m: Msg): Client
    requires Frame(m) && m.len >= 1
  {
    var n := SegSize(m.data[0]);
    if m.len < 1 + n then AbortRes(s, AC_NO_CS)
    else if |s.up| + n > s.size then AbortRes(s, AC_TYPE_LEN_HI)
    else
      var s1 := s.(up := s.up + m.data[1..1 + n]);
      if m.data[0] & 0x01 != 0 then
        if s1.size != 0 && |s1.up| != s1.size then AbortRes(s1, AC_TYPE_LEN_LO) else AbortInd(s1, 0)
      else Send(Arm(s1), UpSegReq(s1.toggle)).(toggle := !s1.toggle)
  }

  function UpSegRecv(s: Client, m: Msg): Client
    requires Frame(m)
  {
    if m.len < 1 then AbortRes(s, AC_NO_CS)
    else match SpecOf(m.data[0])
         case UpSegRes => if ToggleOf(m.data[0]) == s.toggle then s else UpSegAccept(s, m)
         case AbortCs => AbortBy(s, m)
         case _ => AbortRes(s, AC_NO_CS)
  }

  // --------------------------------------------------------------- block download

  /** One segment of a block. */
  function SendSub(s: Client, seqno: nat): Client
    requires s.cur <= s.size == |s.dn|
  {
    var n := s.size - s.cur;
    Send(s, BlkDnSubReq(seqno, s.dn[s.cur..s.cur + Min(n, 7)], n <= 7)).(cur := s.cur + Min(n, 7))
  }

  /** The segments of one block, from seqno on. */
  function SendBlock(s: Client, seqno: nat): Client
    requires s.cur <= s.size == |s.dn|
    decreases s.blksize + 1 - seqno
  {
    if seqno > s.blksize then s else SendBlock(SendSub(s, seqno), seqno + 1)
  }

  lemma BlockNext(s: Client, seqno: nat)
    requires s.cur <= s.size == |s.dn| && seqno <= s.blksize
    ensures var s' := SendSub(s, seqno);
            s'.cur <= s'.size == |s'.dn| && s'.blksize == s.blksize && SendBlock(s, seqno) == SendBlock(s', seqno + 1)
  {
  }

  lemma BlockOver(s: Client, seqno: nat)
    requires s.cur <= s.size == |s.dn| && s.blksize < seqno
    ensures SendBlock(s, seqno) == s
  {
  }

  function Checksum(d: Bytes): nat { Crc16.Fold(0, d) as int }

  /** The number of data bytes in the last segment. */
  function TailSize(size: nat): nat { if size != 0 then (size - 1) % 7 + 1 else 0 }

  function BlkDnSubEnter(s: Client): Client
    requires s.cur <= s.size == |s.dn|
  {
    var n := s.size - s.cur;
    if (n > 0 && s.blksize == 0) || s.blksize > MAX_SEQNO then AbortRes(s, AC_BLK_SIZE)
    else
      var s1 := Arm(s.(blksize := Min((n + 6) / 7, s.blksize)));
      if n > 0 then SendBlock(s1, 1).(phase := BlkDnSub)
      else Send(s1, BlkDnEndReq(TailSize(s.size), if s.crc then Checksum(s.dn) else 0)).(phase := BlkDnEnd)
  }

  function BlkDnIniRecv(s: Client, m: Msg): Client
    requires Frame(m) && s.cur <= s.size == |s.dn|
  {
    if m.len < 1 then AbortRes(s, AC_NO_CS)
    else match SpecOf(m.data[0])
         case BlkDnRes =>
           if SubOf(m.data[0]) != 0 then AbortRes(s, AC_NO_CS)
           else
             var s1 := s.(crc := m.data[0] & 0x04 != 0);
             if m.len < 4 || !Names(m, s1) then AbortRes(s1, AC_ERROR)
             else if m.len < 5 then AbortRes(s1, AC_BLK_SIZE)
             else BlkDnSubEnter(s1.(blksize := m.data[4] as int))
         case AbortCs => AbortBy(s, m)
         case _ => AbortRes(s, AC_NO_CS)
  }

  /** The cursor after the server acknowledged ackseq segments of the block. */
  function Rewind(cur: nat, blksize: nat, ackseq: nat): (c: int)
    ensures blksize <= (cur + 6) / 7 ==> 0 <= c <= cur
  {
    if ackseq < blksize then 7 * ((cur + 6) / 7 - (blksize - ackseq)) else cur
  }

  function BlkDnSubRecv(s: Client, m: Msg): Client
    requires Frame(m) && s.cur <= s.size == |s.dn| && s.blksize <= (s.cur + 6) / 7
  {
    if m.len < 1 then AbortRes(s, AC_NO_CS)
    else match SpecOf(m.data[0])
         case BlkDnRes =>
           if SubOf(m.data[0]) != 2 then AbortRes(s, AC_NO_CS)
           else if m.len < 2 then AbortRes(s, AC_BLK_SEQ)
           else
             var s1 := s.(cur := Rewind(s.cur, s.blksize, m.data[1] as int));
             if m.len < 3 then AbortRes(s1, AC_BLK_SIZE) else BlkDnSubEnter(s1.(blksize := m.data[2] as int))
         case AbortCs => AbortBy(s, m)
         case _ => AbortRes(s, AC_NO_CS)
  }

  function BlkDnEndRecv(s: Client, m: Msg): Client
    requires Frame(m)
  {
    if m.len < 1 then AbortRes(s, AC_NO_CS)
    else match SpecOf(m.data[0])
         case BlkDnRes => if SubOf(m.data[0]) != 1 then AbortRes(s, AC_NO_CS) else AbortInd(s, 0)
         case AbortCs => AbortBy(s, m)
         case _ => AbortRes(s, AC_NO_CS)
  }

  // ----------------------------------------------------------------- block upload

  function BlkUpSize(m: Msg): nat
    requires Frame(m) && m.len >= 4
  {
    if m.data[0] & 0x02 != 0 then Le32(Padded(m), 0) else 0
  }

  function BlkUpIniAccept(s: Client, m: Msg, memOk: bool): Client
    requires Frame(m) && m.len >= 4
  {
    var s1 := s.(size := BlkUpSize(m));
    if !HasRoom(s1) && !memOk then AbortRes(s1, AC_NO_MEM)
    else
      Send(Arm(Reserve(s1).(ackseq := 0)), StartUpReq).(phase := BlkUpSub)
  }

  /** The server rejects the block size: try again with half of it. */
  function Halve(s: Client): Client {
    Send(Arm(s.(blksize := (s.blksize + 1) / 2)), BlkUpIniReq(s.idx, s.sub, (s.blksize + 1) / 2, s.pst))
  }

  function BlkUpIniRecv(s: Client, m: Msg, memOk: bool): Client
    requires Frame(m)
  {
    if m.len < 1 then AbortRes(s, AC_NO_CS)
    else match SpecOf(m.data[0])
         case UpIniRes => UpIniRecv(s, m, memOk)
         case BlkUpRes =>
           if m.data[0] & 0x01 != 0 then AbortRes(s, AC_NO_CS)
           else
             var s1 := s.(crc := m.data[0] & 0x04 != 0);
             if m.len < 4 || !Names(m, s1) then AbortRes(s1, AC_ERROR) else BlkUpIniAccept(s1, m, memOk)
         case AbortCs =>
           if m.len == 8 && Le32(m.data, 4) == AC_BLK_SIZE && s.blksize > 1 then Halve(s) else AbortBy(s, m)
         case _ => AbortRes(s, AC_NO_CS)
  }

  function SeqOf(cs: bv8): nat { (cs & 0x7f) as int }
  predicate LastOf(cs: bv8) { cs & 0x80 != 0 }

  /** The bytes a block segment contributes. */
  function SegBytes(s: Client): nat
    requires |s.up| <= s.size
  {
    Min(s.size - |s.up|, 7)
  }

  function BlkUpSubAck(s: Client, seqno: nat, last: bool): Client {
    var s1 := if seqno == s.blksize || last then Send(s, BlkUpSubRes(s.ackseq, s.blksize)).(ackseq := 0) else s;
    Arm(s1).(phase := if last then BlkUpEnd else BlkUpSub)
  }

  function BlkUpSubRecv(s: Client, m: Msg): Client
    requires Frame(m) && |s.up| <= s.size
  {
    if m.len < 1 then AbortRes(s, AC_NO_CS)
    else if m.data[0] == 0x80 then AbortBy(s, m)
    else
      var seqno, last := SeqOf(m.data[0]), LastOf(m.data[0]);
      if seqno == s.ackseq + 1 then
        var n := SegBytes(s);
        var s1 := s.(ackseq := s.ackseq + 1);
        if !last && n < 7 then AbortRes(s1, AC_TYPE_LEN_HI)
        else BlkUpSubAck(s1.(up := s.up + m.data[1..1 + n]), seqno, last)
      else BlkUpSubAck(s, seqno, last)
  }

  function BlkUpTail(cs: bv8): int { 7 - ((cs & 0x1c) >> 2) as int }

  /** crcOk stands for the comparison with the checksum of the received data. */
  function BlkUpEndRecv(s: Client, m: Msg, crcOk: bool): Client
    requires Frame(m)
  {
    if m.len < 1 then AbortRes(s, AC_NO_CS)
    else match SpecOf(m.data[0])
         case BlkUpRes =>
           if SubOf(m.data[0]) != 1 then AbortRes(s, AC_NO_CS)
           else if s.size != 0 && |s.up| != s.size then AbortRes(s, AC_TYPE_LEN_LO)
           else if BlkUpTail(m.data[0]) != TailSize(s.size) then AbortRes(s, AC_NO_CS)
           else if s.crc && !crcOk then AbortRes(s, AC_BLK_CRC)
           else AbortInd(Send(s, BlkUpEndRes), 0)
         case AbortCs => AbortBy(s, m)
         case _ => AbortRes(s, AC_NO_CS)
  }

  // ----------------------------------------------------------------------- events

  datatype Kind = Dn | Up | BlkDn | BlkUp(pst: nat)

  datatype Event =
    | StartE(valid: bool)
    | StopE
    | UpdateE(valid: bool)
    | SetTimeoutE(t: int)
    | AbortE(ac: nat)
    | TimeE
    | RecvE(m: Msg, memOk: bool)
    | RequestE(kind: Kind, idx: nat, sub: nat, data: Bytes, con: bool)

  /** The checksum the end-of-block frame carries equals that of the data received. */
  predicate CrcMatches(s: Client, m: Msg)
    requires Frame(m)
  {
    Le16(m.data, 1) == Checksum(s.up[..Min(s.size, |s.up|)])
  }

  function Aborted(s: Client, ac: nat): Client { if Busy(s.phase) then AbortRes(s, ac) else s }

  function Updated(s: Client, valid: bool): Client { Aborted(s.(valid := valid), AC_NO_SDO).(recvOn := valid) }

  function Started(s: Client, valid: bool): Client {
    if !s.phase.Stopped? then s else s.(phase := Wait, valid := valid, recvOn := valid)
  }

  function StoppedAfter(s: Client): Client {
    if s.phase.Stopped? then s else Aborted(s, AC_NO_SDO).(timerOn := false, recvOn := false, phase := Stopped)
  }

  /** co_csdo_dn_ind and co_csdo_up_ind: the transfer variables of a new request. */
  function Begun(s: Client, kind: Kind, idx: nat, sub: nat, data: Bytes, con: bool): (s': Client)
    ensures s'.done == s.done
    ensures s'.asked == s.asked || s'.asked == s.asked + [Asked(idx, sub, kind.Up? || kind.BlkUp?)]
  {
    var upload := kind.Up? || kind.BlkUp?;
    var s1 := s.(ac := 0, idx := idx, sub := sub, toggle := false, pst := 0, blksize := 0, ackseq := 0, crc := false,
                 con := if !con then NoCon else if upload then UpCon else DnCon,
                 asked := if con then s.asked + [Asked(idx, sub, upload)] else s.asked);
    if upload then s1.(size := 0, up := []) else s1.(size := |data|, dn := data, cur := 0)
  }

  /** The request frame goes out and the client waits for the response. */
  function Launched(s: Client, kind: Kind, data: Bytes): (s': Client)
    ensures s'.done == s.done && s'.asked == s.asked
  {
    match kind
    case Dn =>
      if 0 < |data| <= 4 then Send(s, DnExpReq(s.idx, s.sub, data)).(cur := |data|, phase := DnIni)
      else Send(s, DnIniReq(s.idx, s.sub, |data|)).(phase := DnIni)
    case Up => Send(s, UpIniReq(s.idx, s.sub)).(phase := UpIni)
    case BlkDn => Send(s, BlkDnIniReq(s.idx, s.sub, |data|)).(phase := BlkDnIni)
    case BlkUp(pst) =>
      Send(s, BlkUpIniReq(s.idx, s.sub, MAX_SEQNO, pst)).(pst := pst, blksize := MAX_SEQNO, phase := BlkUpIni)
  }

  function Requested(s: Client, kind: Kind, idx: nat, sub: nat, data: Bytes, con: bool): (s': Client)
    ensures s'.done == s.done
    ensures s'.asked == s.asked || s'.asked == s.asked + [Asked(idx, sub, kind.Up? || kind.BlkUp?)]
  {
    if !s.valid || !s.phase.Wait? then s else Launched(Arm(Begun(s, kind, idx, sub, data, con)), kind, data)
  }

  // ------------------------------------------------------------ downloads of a value

  /** A client, and whether a download under way reads its own buffer, the one uploads use. */
  datatype Shared = Shared(c: Client, own: bool)

  /** A request whose data lie in the client's own buffer, or do not. */
  function RequestedFrom(x: Shared, kind: Kind, idx: nat, sub: nat, data: Bytes, own: bool, con: bool): Shared {
    Shared(Requested(x.c, kind, idx, sub, data, con),
           if x.c.valid && x.c.phase.Wait? then own && (kind.Dn? || kind.BlkDn?) else x.own)
  }

  /** The client's own buffer can take the bytes; one that has never grown cannot take even an empty value. */
  predicate CanFill(s: Client, v: Bytes, memOk: bool) { if |v| > s.room then memOk else s.room > 0 }

  /** d with its first bytes overwritten by w. */
  function Overlay(d: Bytes, w: Bytes): (r: Bytes)
    ensures |r| == |d|
  {
    if |w| >= |d| then w[..|d|] else w + d[|w|..]
  }

  /**
   The client after v has been written to its own buffer, or could not be.  A
   download that reads the buffer now reads v; if the buffer had to grow it still
   reads the old block, which has been freed and holds whatever was put there, stale.
   */
  function Filled(x: Shared, v: Bytes, memOk: bool, stale: Bytes): Shared {
    var s := x.c;
    if !CanFill(s, v, memOk) then x.(c := s.(up := []))
    else if |v| > s.room then
      Shared(s.(up := v, room := Doubled(MEMBUF_SIZE, |v|), dn := if x.own then Overlay(s.dn, stale) else s.dn), false)
    else x.(c := s.(up := v, dn := if x.own then Overlay(s.dn, v) else s.dn))
  }

  /** The value a request asks to download, segment by segment or in blocks, and its surroundings. */
  datatype Value = Value(blk: bool, idx: nat, sub: nat, v: Bytes, con: bool, memOk: bool, stale: Bytes)

  /** co_csdo_dn_val_req and co_csdo_blk_dn_val_req: write to the client's own buffer, then request the download from there. */
  function ValueRequested(x: Shared, w: Value): Shared {
    var y := Filled(x, w.v, w.memOk, w.stale);
    if CanFill(x.c, w.v, w.memOk) then RequestedFrom(y, if w.blk then BlkDn else Dn, w.idx, w.sub, w.v, true, w.con) else y
  }

  /** What the handlers of each state rely on. */
  predicate Sound(s: Client) {
    && (Downloading(s.phase) ==> s.cur <= s.size == |s.dn|)
    && (s.phase.BlkDnSub? ==> s.blksize <= (s.cur + 6) / 7)
    && (s.phase.BlkUpSub? ==> |s.up| <= s.size)
  }

  function OnRecv(s: Client, m: Msg, memOk: bool): Client
    requires Sound(s) && Frame(m)
  {
    match s.phase
    case Stopped => s
    case Wait =>
      if m.len < 1 then AbortRes(s, AC_NO_CS) else if SpecOf(m.data[0]).AbortCs? then AbortBy(s, m) else s
    case DnIni => DnIniRecv(s, m)
    case DnSeg => DnSegRecv(s, m)
    case UpIni => UpIniRecv(s, m, memOk)
    case UpSeg => UpSegRecv(s, m)
    case BlkDnIni => BlkDnIniRecv(s, m)
    case BlkDnSub => BlkDnSubRecv(s, m)
    case BlkDnEnd => BlkDnEndRecv(s, m)
    case BlkUpIni => BlkUpIniRecv(s, m, memOk)
    case BlkUpSub => BlkUpSubRecv(s, m)
    case BlkUpEnd => BlkUpEndRecv(s, m, CrcMatches(s, m))
  }

  function OnTime(s: Client): Client {
    var s1 := s.(timerOn := false);
    if Busy(s.phase) then AbortRes(s1, AC_TIMEOUT) else s1
  }

  /** An event the environment may deliver: timer and receiver fire only while active. */
  predicate Possible(s: Client, e: Event) {
    match e
    case TimeE => s.timerOn
    case RecvE(m, _) => s.recvOn && Frame(m)
    case UpdateE(_) => !s.phase.Stopped?
    case _ => true
  }

  function React(s: Client, e: Event): Client
    requires Sound(s) && Possible(s, e)
  {
    match e
    case StartE(valid) => Started(s, valid)
    case StopE => StoppedAfter(s)
    case UpdateE(valid) => Updated(s, valid)
    case SetTimeoutE(t) => s.(timerOn := s.timerOn && !(s.timeout > 0 && t <= 0), timeout := if t > 0 then t else 0)
    case AbortE(ac) => Aborted(s, ac)
    case TimeE => OnTime(s)
    case RecvE(m, memOk) => OnRecv(s, m, memOk)
    case RequestE(kind, idx, sub, data, con) => Requested(s, kind, idx, sub, data, con)
  }

  /** The frames a client has sent in one step. */
  function NewOut(c: Client, c': Client): seq<Out> { if c.out <= c'.out then c'.out[|c.out|..] else [] }

  const NEW: Client := Client(Stopped, false, false, false, 0, 0, 0, 0, 0, false, 0, 0, 0, false, [], 0, [], 0, NoCon, [], [], [])
}
