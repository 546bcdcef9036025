/**
 Uploads against a conforming server that announces the size of its data or does
 not, over a channel that may lose frames in either direction but keeps their order.
 */
module CsdoUpload {
  import opened MemBuf
  import opened CsdoModel
  import CsdoRuns

  // ------------------------------------------------------------------ server frames

  /** Announces a segmented transfer, with the size of d or without a size. */
  predicate IniFrame(d: Bytes, told: bool, m: Msg) {
    && Frame(m) && m.len == 8 && SpecOf(m.data[0]).UpIniRes? && m.data[0] & 0x02 == 0
    && (m.data[0] & 0x01 != 0) == told && (told ==> Le32(m.data, 4) == |d|)
  }

  /** Carries all of d; the size is in the command specifier or the length of the frame. */
  predicate ExpFrame(d: Bytes, m: Msg) {
    && Frame(m) && |d| <= 4 && m.len >= 4 + |d| && SpecOf(m.data[0]).UpIniRes? && m.data[0] & 0x02 != 0
    && ExpSize(m) == |d| && m.data[4..4 + |d|] == d
  }

  predicate SegFrame(toggle: bool, chunk: Bytes, last: bool, m: Msg) {
    && Frame(m) && |chunk| <= 7 && m.len >= 1 + |chunk| && SpecOf(m.data[0]).UpSegRes?
    && ToggleOf(m.data[0]) == toggle && SegSize(m.data[0]) == |chunk| && m.data[1..1 + |chunk|] == chunk
    && (m.data[0] & 0x01 != 0) == last
  }

  predicate BlkIniFrame(d: Bytes, told: bool, m: Msg) {
    && Frame(m) && m.len == 8 && SpecOf(m.data[0]).BlkUpRes? && m.data[0] & 0x01 == 0
    && (m.data[0] & 0x02 != 0) == told && (told ==> Le32(m.data, 4) == |d|)
  }

  predicate BlkFrame(seqno: nat, chunk: Bytes, last: bool, m: Msg) {
    && Frame(m) && m.len == 8 && |chunk| <= 7 && SeqOf(m.data[0]) == seqno && LastOf(m.data[0]) == last
    && m.data[0] != 0x80 && m.data[1..1 + |chunk|] == chunk
  }

  /** The number of block segments of d; an empty data set still takes one. */
  function Count(d: Bytes): nat { if d == [] then 1 else (|d| + 6) / 7 }

  /** Block segment i of d. */
  function Chunk(d: Bytes, i: nat): (c: Bytes)
    ensures |c| <= 7
  {
    if 7 * i <= |d| then d[7 * i..Min(|d|, 7 * i + 7)] else []
  }

  // ------------------------------------------------------------------------- system

  datatype Resp =
    | RIni(m: Msg) | RSeg(m: Msg) | RBlkIni(m: Msg) | RBlk(m: Msg, seqno: nat) | REnd(m: Msg) | RAbort(m: Msg)

  /** j segments sent up to pos; a block of k segments from segment q on. */
  datatype Server = SIdle | SSeg(j: nat, pos: nat) | SBlkIni(b: nat) | SBlk(q: nat, k: nat) | SDone

  datatype Sys = Sys(c: Client, req: seq<Out>, resp: seq<Resp>, srv: Server)

  datatype Label =
    | Deliver(memOk: bool)
    | Control(e: Event)
    | LoseReq(i: nat)
    | LoseResp(i: nat)
    | Serve(rs: seq<Resp>, srv: Server)

  /** The block the server sends from segment q on. */
  predicate IsBlock(d: Bytes, q: nat, k: nat, rs: seq<Resp>) {
    && |rs| == k
    && forall i | 0 <= i < k ::
         rs[i].RBlk? && rs[i].seqno == i + 1 && BlkFrame(i + 1, Chunk(d, q + i), q + i + 1 == Count(d), rs[i].m)
  }

  predicate NextBlock(d: Bytes, q: nat, b: nat, rs: seq<Resp>, srv: Server) {
    q < Count(d) && srv == SBlk(q, Min(b, Count(d) - q)) && IsBlock(d, q, Min(b, Count(d) - q), rs)
  }

  /** How a conforming server may answer request f. */
  predicate MayServe(d: Bytes, told: bool, srv: Server, f: Out, rs: seq<Resp>, srv': Server) {
    || (rs == [] && srv' == srv)
    || (|rs| == 1 && rs[0].RAbort? && Frame(rs[0].m) && rs[0].m.len >= 1 && rs[0].m.data[0] == 0x80 && srv' == SIdle)
    || match f
       case UpIniReq(_, _) => |rs| == 1 && rs[0].RIni? && Announces(d, told, rs[0].m, srv')
       case BlkUpIniReq(_, _, b, _) =>
         |rs| == 1 && ((rs[0].RIni? && Announces(d, told, rs[0].m, srv'))
                       || (rs[0].RBlkIni? && BlkIniFrame(d, told, rs[0].m) && srv' == SBlkIni(b)))
       case UpSegReq(toggle) =>
         && srv.SSeg? && toggle == (srv.j % 2 == 1) && srv'.SSeg? && srv'.j == srv.j + 1
         && srv.pos <= srv'.pos <= |d| && srv'.pos <= srv.pos + 7
         && |rs| == 1 && rs[0].RSeg? && SegFrame(toggle, d[srv.pos..srv'.pos], srv'.pos == |d|, rs[0].m)
       case StartUpReq => srv.SBlkIni? && NextBlock(d, 0, srv.b, rs, srv')
       case BlkUpSubRes(a, b) =>
         && srv.SBlk? && a <= srv.k
         && if srv.q + a == Count(d) then |rs| == 1 && rs[0].REnd? && Frame(rs[0].m) && srv' == SDone
            else NextBlock(d, srv.q + a, b, rs, srv')
       case _ => false
  }

  predicate Announces(d: Bytes, told: bool, m: Msg, srv: Server) { (IniFrame(d, told, m) || (told && ExpFrame(d, m))) && srv == SSeg(0, 0) }

  /** Application and timer events; the application does not abort with code zero. */
  predicate Controls(e: Event) { !e.RecvE? && !e.RequestE? && !(e.AbortE? && e.ac == 0) }

  function Dropped<T>(s: seq<T>, i: nat): seq<T>
    requires i < |s|
  {
    s[..i] + s[i + 1..]
  }

  /** The client after an event, its new frames appended to the channel. */
  predicate ClientStep(y: Sys, e: Event, resp: seq<Resp>, y': Sys) {
    && Sound(y.c) && Possible(y.c, e)
    && var c' := React(y.c, e);
       y' == y.(c := c', req := y.req + NewOut(y.c, c'), resp := resp)
  }

  predicate Next(d: Bytes, told: bool, y: Sys, l: Label, y': Sys) {
    match l
    case Deliver(memOk) => y.resp != [] && ClientStep(y, RecvE(y.resp[0].m, memOk), y.resp[1..], y')
    case Control(e) => Controls(e) && ClientStep(y, e, y.resp, y')
    case LoseReq(i) => i < |y.req| && y' == y.(req := Dropped(y.req, i))
    case LoseResp(i) => i < |y.resp| && y' == y.(resp := Dropped(y.resp, i))
    case Serve(rs, srv) =>
      y.req != [] && MayServe(d, told, y.srv, y.req[0], rs, srv) && y' == y.(req := y.req[1..], resp := y.resp + rs, srv := srv)
  }

  // ---------------------------------------------------------------------- invariant

  /** What a successful upload delivers: all of d, or nothing if the size was not announced. */
  function Received(d: Bytes, told: bool): Bytes { if told then d else [] }

  /** The transfer is over; a confirmation with code zero came with what was to be received. */
  predicate Ended(d: Bytes, told: bool, done: seq<Done>, c: Client) {
    && !Busy(c.phase) && c.con.NoCon?
    && (c.done == done
        || (|c.done| == |done| + 1 && done <= c.done && (c.done[|done|].ac == 0 ==> c.done[|done|].data == Received(d, told))))
  }

  /** The transfer goes on and nothing has been confirmed. */
  predicate Ongoing(d: Bytes, told: bool, done: seq<Done>, c: Client) {
    && Uploading(c.phase) && c.done == done && !c.con.DnCon?
    && (if c.phase.UpIni? || c.phase.BlkUpIni? then c.up == [] && !c.toggle else c.size == |Received(d, told)| && c.up <= Received(d, told))
    && (c.phase.BlkUpIni? || c.phase.BlkUpSub? ==> 1 <= c.blksize <= MAX_SEQNO)
  }

  predicate Aborts(r: Resp) { r.RAbort? && Frame(r.m) && r.m.len >= 1 && r.m.data[0] == 0x80 }

  predicate IniFlow(d: Bytes, told: bool, y: Sys) {
    && |y.req| + |y.resp| <= 1
    && (y.req != [] ==> y.req[0].UpIniReq? || (y.req[0].BlkUpIniReq? && y.req[0].blksize == y.c.blksize && y.c.phase.BlkUpIni?))
    && (y.resp != [] ==>
          || Aborts(y.resp[0])
          || (y.resp[0].RIni? && Announces(d, told, y.resp[0].m, y.srv))
          || (y.resp[0].RBlkIni? && BlkIniFrame(d, told, y.resp[0].m) && y.srv == SBlkIni(y.c.blksize) && y.c.phase.BlkUpIni?))
  }

  predicate SegFlow(d: Bytes, y: Sys) {
    && |y.req| + |y.resp| <= 1
    && (y.req != [] ==> y.req[0] == UpSegReq(!y.c.toggle) && y.srv.SSeg? && y.srv.pos == |y.c.up|)
    && (y.resp != [] ==>
          || Aborts(y.resp[0])
          || (y.resp[0].RSeg? && y.srv.SSeg? && |y.c.up| <= y.srv.pos <= |d|
              && SegFrame(!y.c.toggle, d[|y.c.up|..y.srv.pos], y.srv.pos == |d|, y.resp[0].m)))
  }

  /** Bytes in the first n segments. */
  function Upto(d: Bytes, n: nat): nat { Min(|d|, 7 * n) }

  /** What is left in the channel of a block of k segments from segment q on. */
  predicate BlockRest(d: Bytes, q: nat, k: nat, rs: seq<Resp>) {
    && (forall i | 0 <= i < |rs| ::
          rs[i].RBlk? && 1 <= rs[i].seqno <= k
          && BlkFrame(rs[i].seqno, Chunk(d, q + rs[i].seqno - 1), q + rs[i].seqno == Count(d), rs[i].m))
    && (forall i, j | 0 <= i < j < |rs| :: rs[i].seqno < rs[j].seqno)
  }

  predicate AckFlow(d: Bytes, c: Client, f: Out, srv: Server) {
    || (f == StartUpReq && srv == SBlkIni(c.blksize) && c.up == [])
    || (f.BlkUpSubRes? && f.blksize == c.blksize && srv.SBlk? && f.ackseq <= srv.k
        && srv.q + f.ackseq < Count(d) && |c.up| == Upto(d, srv.q + f.ackseq))
  }

  predicate BlkFlow(d: Bytes, y: Sys) {
    && (y.req != [] ==> |y.req| == 1 && y.resp == [] && y.c.ackseq == 0 && AckFlow(d, y.c, y.req[0], y.srv))
    && (y.resp != [] ==>
          || (|y.resp| == 1 && Aborts(y.resp[0]))
          || (y.srv.SBlk? && y.srv.q < Count(d) && y.srv.k == Min(y.c.blksize, Count(d) - y.srv.q) && y.c.ackseq <= y.srv.k
              && |y.c.up| == Upto(d, y.srv.q + y.c.ackseq) && BlockRest(d, y.srv.q, y.srv.k, y.resp)))
  }

  predicate Flow(d: Bytes, told: bool, y: Sys) {
    match y.c.phase
    case UpIni => IniFlow(d, told, y)
    case BlkUpIni => IniFlow(d, told, y)
    case UpSeg => SegFlow(d, y)
    case BlkUpSub => BlkFlow(d, y)
    case _ => true
  }

  predicate Inv(d: Bytes, told: bool, done: seq<Done>, y: Sys) {
    Ended(d, told, done, y.c) || (Ongoing(d, told, done, y.c) && Flow(d, told, y))
  }

  // ------------------------------------------------------------------- leaving early

  lemma AbortEnds(d: Bytes, told: bool, done: seq<Done>, c: Client, ac: nat)
    requires c.done == done && (ac == 0 ==> c.up == Received(d, told) && !c.con.DnCon?)
    ensures Ended(d, told, done, AbortInd(c, ac))
  {
  }

  lemma AbortResEnds(d: Bytes, told: bool, done: seq<Done>, c: Client, ac: nat)
    requires c.done == done && ac != 0
    ensures Ended(d, told, done, AbortRes(c, ac))
  {
  }

  lemma AbortByEnds(d: Bytes, told: bool, done: seq<Done>, c: Client, m: Msg)
    requires c.done == done && Frame(m)
    ensures Ended(d, told, done, AbortBy(c, m))
  {
  }

  lemma AbortSpec()
    ensures SpecOf(0x80) == AbortCs
  {
  }

  // ------------------------------------------------------------------ client receives

  lemma SentOne(c: Client, c': Client, f: Out)
    requires c'.out == c.out + [f]
    ensures NewOut(c, c') == [f]
  {
  }

  lemma IniDelivers(d: Bytes, told: bool, done: seq<Done>, c: Client, m: Msg, memOk: bool)
    requires Ongoing(d, told, done, c) && (c.phase.UpIni? || c.phase.BlkUpIni?) && (IniFrame(d, told, m) || (told && ExpFrame(d, m)))
    ensures var c' := UpIniRecv(c, m, memOk);
            || Ended(d, told, done, c')
            || (Ongoing(d, told, done, c') && c'.phase.UpSeg? && c'.up == [] && c'.toggle && c'.out == c.out + [UpSegReq(false)])
  {
    hide SpecOf, Names, Ended, AbortInd, AbortRes;
    AbortResEnds(d, told, done, c, AC_ERROR);
    if m.len >= 4 && Names(m, c) { IniAccepts(d, told, done, c, m, memOk); }
  }

  lemma IniAccepts(d: Bytes, told: bool, done: seq<Done>, c: Client, m: Msg, memOk: bool)
    requires Ongoing(d, told, done, c) && (c.phase.UpIni? || c.phase.BlkUpIni?) && (IniFrame(d, told, m) || (told && ExpFrame(d, m)))
    ensures var c' := UpIniAccept(c, m, memOk);
            || Ended(d, told, done, c')
            || (Ongoing(d, told, done, c') && c'.phase.UpSeg? && c'.up == [] && c'.toggle && c'.out == c.out + [UpSegReq(false)])
  {
    hide SpecOf, Ended, AbortInd, AbortRes, ExpSize, Le32, Padded, Reserve;
    if m.len == 8 { PaddedIs(m); }
    assert UpIniSize(m) == |Received(d, told)|;
    var c1 := c.(size := |Received(d, told)|);
    AbortResEnds(d, told, done, c1, AC_NO_MEM);
    var c2 := Reserve(c1);
    var c3 := c2.(up := c2.up + Padded(m)[..Min(c2.size, 4)]);
    ReserveIs(c1);
    if m.data[0] & 0x02 != 0 {
      PaddedStarts(m, |d|);
      assert c3.up == d;
      AbortEnds(d, told, done, c3, 0);
    }
  }

  lemma ReserveIs(c: Client)
    ensures Reserve(c) == c.(room := Reserve(c).room)
  {
  }

  lemma PaddedStarts(m: Msg, n: nat)
    requires Frame(m) && n <= 4 && m.len >= 4 + n
    ensures Padded(m)[..n] == m.data[4..4 + n]
  {
  }

  lemma PaddedIs(m: Msg)
    requires Frame(m) && m.len == 8
    ensures Padded(m) == m.data[4..8] && Le32(Padded(m), 0) == Le32(m.data, 4)
  {
  }

  lemma SegDelivers(d: Bytes, told: bool, done: seq<Done>, c: Client, pos: nat, m: Msg)
    requires Ongoing(d, told, done, c) && c.phase.UpSeg? && |c.up| <= pos <= |d|
    requires SegFrame(!c.toggle, d[|c.up|..pos], pos == |d|, m)
    ensures var c' := UpSegRecv(c, m);
            || Ended(d, told, done, c')
            || (Ongoing(d, told, done, c') && c'.phase.UpSeg? && |c'.up| == pos && c'.toggle == !c.toggle
                && c'.out == c.out + [UpSegReq(c.toggle)])
  {
    hide SpecOf, Ended, AbortInd, AbortRes, ToggleOf, SegSize;
    var n := pos - |c.up|;
    AbortResEnds(d, told, done, c, AC_TYPE_LEN_HI);
    if told || n == 0 {
      var c1 := c.(up := c.up + m.data[1..1 + n]);
      assert c1.up == d[..pos];
      AbortResEnds(d, told, done, c1, AC_TYPE_LEN_LO);
      if pos == |d| {
        assert c1.up == d;
        AbortEnds(d, told, done, c1, 0);
      }
    }
  }

  lemma BlkIniDelivers(d: Bytes, told: bool, done: seq<Done>, c: Client, m: Msg, memOk: bool)
    requires Ongoing(d, told, done, c) && c.phase.BlkUpIni? && BlkIniFrame(d, told, m)
    ensures var c' := BlkUpIniRecv(c, m, memOk);
            || Ended(d, told, done, c')
            || (Ongoing(d, told, done, c') && c'.phase.BlkUpSub? && c'.up == [] && c'.ackseq == 0 && c'.blksize == c.blksize
                && c'.out == c.out + [StartUpReq])
  {
    hide SpecOf, Ended, AbortInd, AbortRes, Names, Le32, Padded, Reserve;
    PaddedIs(m);
    var c1 := c.(crc := m.data[0] & 0x04 != 0);
    AbortResEnds(d, told, done, c1, AC_ERROR);
    AbortResEnds(d, told, done, c1.(size := |Received(d, told)|), AC_NO_MEM);
    ReserveIs(c1.(size := |Received(d, told)|));
  }

  /** A segment in sequence extends the data by the next chunk. */
  lemma ChunkExtends(d: Bytes, up: Bytes, i: nat)
    requires up <= d && |up| == Upto(d, i)
    ensures Chunk(d, i) == d[|up|..Upto(d, i + 1)] && |Chunk(d, i)| == Min(|d| - |up|, 7) && up + Chunk(d, i) <= d
    ensures |up + Chunk(d, i)| == Upto(d, i + 1)
  {
  }

  /** What a block segment makes of the client. */
  lemma SubCases(c: Client, m: Msg, seqno: nat, last: bool)
    requires Frame(m) && m.len >= 1 && |c.up| <= c.size && m.data[0] != 0x80 && SeqOf(m.data[0]) == seqno && LastOf(m.data[0]) == last
    ensures var c1 := c.(ackseq := c.ackseq + 1);
            BlkUpSubRecv(c, m)
            == if seqno != c.ackseq + 1 then BlkUpSubAck(c, seqno, last)
               else if !last && SegBytes(c) < 7 then AbortRes(c1, AC_TYPE_LEN_HI)
               else BlkUpSubAck(c1.(up := c.up + m.data[1..1 + SegBytes(c)]), seqno, last)
  {
    hide SeqOf, LastOf, AbortRes, AbortBy, BlkUpSubAck;
  }

  /** Storing the next chunk keeps the data a prefix of d. */
  lemma StoreKeeps(d: Bytes, done: seq<Done>, c: Client, i: nat, seqno: nat)
    requires Ongoing(d, true, done, c) && c.phase.BlkUpSub? && |c.up| == Upto(d, i)
    ensures |c.up| <= c.size && |Chunk(d, i)| == SegBytes(c)
    ensures var c1 := c.(ackseq := seqno, up := c.up + Chunk(d, i)); Ongoing(d, true, done, c1) && |c1.up| == Upto(d, i + 1)
  {
    hide Chunk;
    ChunkExtends(d, c.up, i);
  }

  /** Without an announced size nothing is ever stored. */
  lemma NothingStored(d: Bytes, done: seq<Done>, c: Client, seqno: nat)
    requires Ongoing(d, false, done, c) && c.phase.BlkUpSub?
    ensures |c.up| <= c.size && SegBytes(c) == 0 && Ongoing(d, false, done, c.(ackseq := seqno))
  {
  }

  lemma BlkDelivers(d: Bytes, told: bool, done: seq<Done>, c: Client, q: nat, k: nat, seqno: nat, m: Msg)
    requires Ongoing(d, told, done, c) && c.phase.BlkUpSub? && q < Count(d) && k == Min(c.blksize, Count(d) - q) && c.ackseq <= k
    requires |c.up| == Upto(d, q + c.ackseq) && 1 <= seqno <= k
    requires BlkFrame(seqno, Chunk(d, q + seqno - 1), q + seqno == Count(d), m)
    ensures var c', a := BlkUpSubRecv(c, m), if seqno == c.ackseq + 1 then seqno else c.ackseq;
            || Ended(d, told, done, c')
            || (Ongoing(d, told, done, c') && c'.phase.BlkUpEnd?)
            || (Ongoing(d, told, done, c') && c'.phase.BlkUpSub? && c'.blksize == c.blksize && |c'.up| == Upto(d, q + a) && a <= k
                && if seqno == k then c'.ackseq == 0 && q + k < Count(d) && c'.out == c.out + [BlkUpSubRes(a, c.blksize)]
                   else c'.ackseq == a && c'.out == c.out)
  {
    hide SpecOf, Ended, AbortInd, AbortRes, AbortBy, SeqOf, LastOf, Chunk, BlkUpSubRecv, BlkUpSubAck;
    var last := q + seqno == Count(d);
    SubCases(c, m, seqno, last);
    if seqno == c.ackseq + 1 {
      var c1 := c.(ackseq := seqno);
      AbortResEnds(d, told, done, c1, AC_TYPE_LEN_HI);
      if told {
        StoreKeeps(d, done, c, q + c.ackseq, seqno);
        AckDelivers(d, told, done, c1.(up := c.up + Chunk(d, q + c.ackseq)), seqno, last);
      } else {
        NothingStored(d, done, c, seqno);
        assert c.up + m.data[1..1] == c.up;
        AckDelivers(d, told, done, c1, seqno, last);
      }
    } else {
      AckDelivers(d, told, done, c, seqno, last);
    }
  }

  lemma AckDelivers(d: Bytes, told: bool, done: seq<Done>, c: Client, seqno: nat, last: bool)
    requires Ongoing(d, told, done, c) && c.phase.BlkUpSub?
    ensures var c' := BlkUpSubAck(c, seqno, last);
            && Ongoing(d, told, done, c') && c'.up == c.up && c'.blksize == c.blksize
            && c'.phase == (if last then BlkUpEnd else BlkUpSub)
            && (seqno == c.blksize || last ==> c'.ackseq == 0 && c'.out == c.out + [BlkUpSubRes(c.ackseq, c.blksize)])
            && (seqno != c.blksize && !last ==> c'.ackseq == c.ackseq && c'.out == c.out)
  {
  }

  lemma EndDelivers(d: Bytes, told: bool, done: seq<Done>, c: Client, m: Msg, crcOk: bool)
    requires Ongoing(d, told, done, c) && c.phase.BlkUpEnd? && Frame(m)
    ensures Ended(d, told, done, BlkUpEndRecv(c, m, crcOk))
  {
    hide SpecOf, Ended, AbortInd, AbortRes, AbortBy, SubOf, BlkUpTail;
    AbortResEnds(d, told, done, c, AC_NO_CS);
    AbortResEnds(d, told, done, c, AC_TYPE_LEN_LO);
    AbortResEnds(d, told, done, c, AC_BLK_CRC);
    AbortByEnds(d, told, done, c, m);
    if |c.up| == c.size {
      assert c.up == Received(d, told);
      AbortEnds(d, told, done, Send(c, BlkUpEndRes), 0);
    } else {
      assert c.size != 0;
    }
  }

  // -------------------------------------------------------------------- system steps

  lemma DroppedRest(d: Bytes, q: nat, k: nat, rs: seq<Resp>, i: nat)
    requires BlockRest(d, q, k, rs) && i < |rs|
    ensures BlockRest(d, q, k, Dropped(rs, i)) && BlockRest(d, q, k, rs[1..])
  {
    hide BlkFrame, Chunk, Count;
    var s := Dropped(rs, i);
    forall a | 0 <= a < |s| ensures s[a] == rs[if a < i then a else a + 1] { }
  }

  lemma LoseKeeps(d: Bytes, told: bool, done: seq<Done>, y: Sys, l: Label, y': Sys)
    requires Inv(d, told, done, y) && Next(d, told, y, l, y') && (l.LoseReq? || l.LoseResp?)
    ensures Inv(d, told, done, y')
  {
    hide Ended, Ongoing, Announces, BlkIniFrame, SegFrame, BlkFrame, MayServe, Aborts, React, AckFlow, BlockRest;
    if Ongoing(d, told, done, y.c) && !Ended(d, told, done, y.c) && y.c.phase.BlkUpSub? && l.LoseResp? && y.srv.SBlk? {
      if |y.resp| > 1 || !Aborts(y.resp[0]) { DroppedRest(d, y.srv.q, y.srv.k, y.resp, l.i); }
    }
  }

  lemma BlockIsRest(d: Bytes, q: nat, k: nat, rs: seq<Resp>)
    requires IsBlock(d, q, k, rs)
    ensures BlockRest(d, q, k, rs)
  {
    hide BlkFrame, Chunk;
  }

  lemma ServeKeeps(d: Bytes, told: bool, done: seq<Done>, y: Sys, rs: seq<Resp>, srv: Server, y': Sys)
    requires Ongoing(d, told, done, y.c) && Flow(d, told, y) && Next(d, told, y, Serve(rs, srv), y')
    ensures Flow(d, told, y')
  {
    hide MayServe, IniFlow, SegFlow, BlkFlow, React;
    match y.c.phase
    case UpIni => ServeIni(d, told, y, rs, srv, y');
    case BlkUpIni => ServeIni(d, told, y, rs, srv, y');
    case UpSeg => ServeSeg(d, told, y, rs, srv, y');
    case BlkUpSub => ServeBlock(d, told, y, rs, srv, y');
    case _ =>
  }

  lemma ServeIni(d: Bytes, told: bool, y: Sys, rs: seq<Resp>, srv: Server, y': Sys)
    requires IniFlow(d, told, y) && y.req != [] && MayServe(d, told, y.srv, y.req[0], rs, srv)
    requires y' == y.(req := y.req[1..], resp := y.resp + rs, srv := srv)
    ensures IniFlow(d, told, y')
  {
  }

  lemma ServeSeg(d: Bytes, told: bool, y: Sys, rs: seq<Resp>, srv: Server, y': Sys)
    requires SegFlow(d, y) && y.req != [] && MayServe(d, told, y.srv, y.req[0], rs, srv)
    requires y' == y.(req := y.req[1..], resp := y.resp + rs, srv := srv)
    ensures SegFlow(d, y')
  {
  }

  lemma ServeBlock(d: Bytes, told: bool, y: Sys, rs: seq<Resp>, srv: Server, y': Sys)
    requires y.c.phase.BlkUpSub? && BlkFlow(d, y) && 1 <= y.c.blksize
    requires y.req != [] && MayServe(d, told, y.srv, y.req[0], rs, srv) && y' == y.(req := y.req[1..], resp := y.resp + rs, srv := srv)
    ensures BlkFlow(d, y')
  {
    hide Announces, BlkIniFrame, SegFrame, BlkFrame, BlockRest, Chunk;
    assert y.resp + rs == rs;
    if srv.SBlk? && rs != [] && !Aborts(rs[0]) { BlockIsRest(d, srv.q, srv.k, rs); }
  }

  lemma ControlKeeps(d: Bytes, told: bool, done: seq<Done>, y: Sys, e: Event, y': Sys)
    requires Ongoing(d, told, done, y.c) && Flow(d, told, y) && Next(d, told, y, Control(e), y')
    ensures Inv(d, told, done, y')
  {
    hide Ended, Announces, BlkIniFrame, SegFrame, BlkFrame, BlockRest, Chunk, AbortRes, OnRecv, IniFlow, SegFlow, BlkFlow, Requested;
    var c := y.c;
    match e
    case SetTimeoutE(t) => QuietKeeps(d, told, done, y, e, y');
    case StartE(_) => QuietKeeps(d, told, done, y, e, y');
    case StopE => AbortResEnds(d, told, done, c, AC_NO_SDO); EndedStop(d, told, done, AbortRes(c, AC_NO_SDO));
    case UpdateE(v) => AbortResEnds(d, told, done, c.(valid := v), AC_NO_SDO); EndedRecv(d, told, done, AbortRes(c.(valid := v), AC_NO_SDO), v);
    case AbortE(ac) => AbortResEnds(d, told, done, c, ac);
    case TimeE => AbortResEnds(d, told, done, c.(timerOn := false), AC_TIMEOUT);
    case _ =>
  }

  lemma QuietKeeps(d: Bytes, told: bool, done: seq<Done>, y: Sys, e: Event, y': Sys)
    requires Ongoing(d, told, done, y.c) && Flow(d, told, y) && Next(d, told, y, Control(e), y') && (e.SetTimeoutE? || e.StartE?)
    ensures Inv(d, told, done, y')
  {
    hide Ended, Flow;
    assert NewOut(y.c, y'.c) == [];
    Unchanged(d, told, y, y');
  }

  lemma EndedStop(d: Bytes, told: bool, done: seq<Done>, c: Client)
    requires Ended(d, told, done, c)
    ensures Ended(d, told, done, c.(timerOn := false, recvOn := false, phase := Stopped))
  {
  }

  lemma EndedRecv(d: Bytes, told: bool, done: seq<Done>, c: Client, v: bool)
    requires Ended(d, told, done, c)
    ensures Ended(d, told, done, c.(recvOn := v))
  {
  }

  /** Timer and timeout do not matter for the flow of frames. */
  lemma Unchanged(d: Bytes, told: bool, y: Sys, y': Sys)
    requires Flow(d, told, y) && y' == y.(c := y.c.(timerOn := y'.c.timerOn, timeout := y'.c.timeout), req := y'.req) && y'.req == y.req + []
    ensures Flow(d, told, y')
  {
  }

  /** Nothing happens to the result once the transfer is over. */
  lemma EndedStays(d: Bytes, told: bool, done: seq<Done>, y: Sys, l: Label, y': Sys)
    requires Ended(d, told, done, y.c) && Next(d, told, y, l, y')
    ensures Ended(d, told, done, y'.c)
  {
    hide Announces, BlkIniFrame, SegFrame, BlkFrame, MayServe, Requested, Dropped, Le32;
    match l
    case Deliver(memOk) => IdleRecv(d, told, done, y.c, y.resp[0].m, memOk);
    case Control(e) => IdleControl(d, told, done, y.c, e);
    case _ =>
  }

  lemma IdleRecv(d: Bytes, told: bool, done: seq<Done>, c: Client, m: Msg, memOk: bool)
    requires Ended(d, told, done, c) && Sound(c) && Frame(m)
    ensures Ended(d, told, done, OnRecv(c, m, memOk))
  {
    hide SpecOf, Le32;
  }

  lemma IdleControl(d: Bytes, told: bool, done: seq<Done>, c: Client, e: Event)
    requires Ended(d, told, done, c) && Sound(c) && Possible(c, e) && Controls(e)
    ensures Ended(d, told, done, React(c, e))
  {
  }

  lemma IniStep(d: Bytes, told: bool, y: Sys, memOk: bool, y': Sys)
    requires Next(d, told, y, Deliver(memOk), y') && (y.c.phase.UpIni? || y.c.phase.BlkUpIni?)
    ensures Sound(y.c) && y.resp != [] && Frame(y.resp[0].m)
    ensures var c' := if y.c.phase.UpIni? then UpIniRecv(y.c, y.resp[0].m, memOk) else BlkUpIniRecv(y.c, y.resp[0].m, memOk);
            y' == y.(c := c', req := y.req + NewOut(y.c, c'), resp := y.resp[1..])
  {
    hide UpIniRecv, BlkUpIniRecv;
  }

  lemma DeliverIni(d: Bytes, told: bool, done: seq<Done>, y: Sys, memOk: bool, y': Sys)
    requires Ongoing(d, told, done, y.c) && IniFlow(d, told, y) && (y.c.phase.UpIni? || y.c.phase.BlkUpIni?)
    requires Next(d, told, y, Deliver(memOk), y')
    ensures Inv(d, told, done, y')
  {
    hide Ended, BlkIniFrame, IniFrame, ExpFrame, AbortBy, AbortRes, UpIniRecv, BlkUpIniRecv, SpecOf, Next;
    IniStep(d, told, y, memOk, y');
    var c, r := y.c, y.resp[0];
    assert y.req == [] && y.resp[1..] == [];
    if Aborts(r) {
      AbortSpec();
      AbortIni(d, told, done, y, r.m, memOk, y');
    } else if r.RIni? {
      IniDelivers(d, told, done, c, r.m, memOk);
      IniByBoth(c, d, told, r.m, memOk);
      if !Ended(d, told, done, y'.c) { SentOne(c, y'.c, UpSegReq(false)); }
    } else {
      BlkIniDelivers(d, told, done, c, r.m, memOk);
      if !Ended(d, told, done, y'.c) { SentOne(c, y'.c, StartUpReq); }
    }
  }

  lemma IniByBoth(c: Client, d: Bytes, told: bool, m: Msg, memOk: bool)
    requires IniFrame(d, told, m) || ExpFrame(d, m)
    ensures BlkUpIniRecv(c, m, memOk) == UpIniRecv(c, m, memOk)
  {
  }

  lemma AbortIni(d: Bytes, told: bool, done: seq<Done>, y: Sys, m: Msg, memOk: bool, y': Sys)
    requires Ongoing(d, told, done, y.c) && (y.c.phase.UpIni? || y.c.phase.BlkUpIni?) && Frame(m) && m.len >= 1 && SpecOf(m.data[0]).AbortCs?
    requires y'.c == (if y.c.phase.UpIni? then UpIniRecv(y.c, m, memOk) else BlkUpIniRecv(y.c, m, memOk))
    requires y'.req == NewOut(y.c, y'.c) && y'.resp == []
    ensures Inv(d, told, done, y')
  {
    hide Ended, AbortBy, AbortRes, SpecOf, Announces, BlkIniFrame, UpIniAccept, BlkUpIniAccept, Le32, Halve;
    AbortByEnds(d, told, done, y.c, m);
    if y.c.phase.BlkUpIni? && m.len == 8 && Le32(m.data, 4) == AC_BLK_SIZE && y.c.blksize > 1 { HalveFlows(d, told, done, y, y'); }
  }

  lemma HalveFlows(d: Bytes, told: bool, done: seq<Done>, y: Sys, y': Sys)
    requires Ongoing(d, told, done, y.c) && y.c.phase.BlkUpIni? && y.c.blksize > 1
    requires y'.c == Halve(y.c) && y'.req == NewOut(y.c, y'.c) && y'.resp == []
    ensures Ongoing(d, told, done, y'.c) && Flow(d, told, y')
  {
  }

  lemma DeliverSeg(d: Bytes, told: bool, done: seq<Done>, y: Sys, memOk: bool, y': Sys)
    requires Ongoing(d, told, done, y.c) && SegFlow(d, y) && y.c.phase.UpSeg? && Next(d, told, y, Deliver(memOk), y')
    ensures Inv(d, told, done, y')
  {
    hide Ended, SegFrame, AbortBy, AbortRes, SpecOf, UpSegAccept;
    var c, r := y.c, y.resp[0];
    assert y.req == [] && y.resp[1..] == [];
    if Aborts(r) {
      AbortSpec();
      AbortByEnds(d, told, done, c, r.m);
    } else {
      SegDelivers(d, told, done, c, y.srv.pos, r.m);
      if !Ended(d, told, done, y'.c) { SentOne(c, y'.c, UpSegReq(c.toggle)); }
    }
  }

  lemma BlkStep(d: Bytes, told: bool, y: Sys, memOk: bool, y': Sys)
    requires Next(d, told, y, Deliver(memOk), y') && y.c.phase.BlkUpSub?
    ensures Sound(y.c) && y.resp != [] && Frame(y.resp[0].m)
    ensures var c' := BlkUpSubRecv(y.c, y.resp[0].m);
            y' == y.(c := c', req := y.req + NewOut(y.c, c'), resp := y.resp[1..])
  {
    hide BlkUpSubRecv;
  }

  lemma OngoingParts(d: Bytes, told: bool, done: seq<Done>, c: Client)
    requires Ongoing(d, told, done, c)
    ensures Uploading(c.phase) && (c.phase.BlkUpSub? ==> 1 <= c.blksize)
  {
  }

  lemma DeliverBlk(d: Bytes, told: bool, done: seq<Done>, y: Sys, memOk: bool, y': Sys)
    requires Ongoing(d, told, done, y.c) && BlkFlow(d, y) && y.c.phase.BlkUpSub? && Next(d, told, y, Deliver(memOk), y')
    ensures Inv(d, told, done, y')
  {
    hide Ended, Ongoing, BlkFrame, AbortBy, AbortRes, SpecOf, BlkUpSubRecv, Chunk, Next;
    BlkStep(d, told, y, memOk, y');
    OngoingParts(d, told, done, y.c);
    var c, r := y.c, y.resp[0];
    assert y.req == [];
    if |y.resp| == 1 && Aborts(r) {
      AbortBlk(d, told, done, c, r.m);
    } else {
      var q, k, seqno := y.srv.q, y.srv.k, r.seqno;
      BlkDelivers(d, told, done, c, q, k, seqno, r.m);
      DroppedRest(d, q, k, y.resp, 0);
      if !Ended(d, told, done, y'.c) && y'.c.phase.BlkUpSub? {
        var a := if seqno == c.ackseq + 1 then seqno else c.ackseq;
        if seqno == k {
          LastOfBlock(d, q, k, y.resp);
          SentOne(c, y'.c, BlkUpSubRes(a, c.blksize));
        } else {
          assert NewOut(c, y'.c) == [];
        }
      }
    }
  }

  lemma AbortBlk(d: Bytes, told: bool, done: seq<Done>, c: Client, m: Msg)
    requires Ongoing(d, told, done, c) && c.phase.BlkUpSub? && Frame(m) && m.len >= 1 && m.data[0] == 0x80 && Sound(c)
    ensures Ended(d, told, done, BlkUpSubRecv(c, m))
  {
  }

  lemma LastOfBlock(d: Bytes, q: nat, k: nat, rs: seq<Resp>)
    requires BlockRest(d, q, k, rs) && rs != [] && rs[0].seqno == k
    ensures rs[1..] == []
  {
    hide BlkFrame, Chunk;
    if |rs| > 1 { NotLast(d, q, k, rs); }
  }

  lemma NotLast(d: Bytes, q: nat, k: nat, rs: seq<Resp>)
    requires BlockRest(d, q, k, rs) && |rs| > 1
    ensures rs[0].RBlk? && rs[0].seqno < k
  {
    hide BlkFrame, Chunk;
    assert rs[0].seqno < rs[1].seqno;
  }

  lemma DeliverKeeps(d: Bytes, told: bool, done: seq<Done>, y: Sys, memOk: bool, y': Sys)
    requires Ongoing(d, told, done, y.c) && Flow(d, told, y) && Next(d, told, y, Deliver(memOk), y')
    ensures Inv(d, told, done, y')
  {
    hide Ended, Ongoing, IniFlow, SegFlow, BlkFlow, UpIniRecv, UpSegRecv, BlkUpSubRecv, BlkUpIniRecv, BlkUpEndRecv, CrcMatches;
    match y.c.phase
    case UpIni => DeliverIni(d, told, done, y, memOk, y');
    case BlkUpIni => DeliverIni(d, told, done, y, memOk, y');
    case UpSeg => DeliverSeg(d, told, done, y, memOk, y');
    case BlkUpSub => DeliverBlk(d, told, done, y, memOk, y');
    case _ => DeliverEnd(d, told, done, y, memOk, y');
  }

  lemma DeliverEnd(d: Bytes, told: bool, done: seq<Done>, y: Sys, memOk: bool, y': Sys)
    requires Ongoing(d, told, done, y.c) && Next(d, told, y, Deliver(memOk), y')
    requires !y.c.phase.UpIni? && !y.c.phase.BlkUpIni? && !y.c.phase.UpSeg? && !y.c.phase.BlkUpSub?
    ensures Inv(d, told, done, y')
  {
    hide Ended, BlkUpEndRecv, CrcMatches;
    EndDelivers(d, told, done, y.c, y.resp[0].m, CrcMatches(y.c, y.resp[0].m));
  }

  lemma StepKeeps(d: Bytes, told: bool, done: seq<Done>, y: Sys, l: Label, y': Sys)
    requires Inv(d, told, done, y) && Next(d, told, y, l, y')
    ensures Inv(d, told, done, y')
  {
    hide Ended, Ongoing, Flow, Next;
    if Ended(d, told, done, y.c) {
      EndedStays(d, told, done, y, l, y');
    } else {
      match l
      case Deliver(memOk) => DeliverKeeps(d, told, done, y, memOk, y');
      case Control(e) => ControlKeeps(d, told, done, y, e, y');
      case Serve(rs, srv) => ServeKeeps(d, told, done, y, rs, srv, y'); SameClient(d, told, y, l, y');
      case _ => LoseKeeps(d, told, done, y, l, y');
    }
  }

  lemma SameClient(d: Bytes, told: bool, y: Sys, l: Label, y': Sys)
    requires l.Serve? && Next(d, told, y, l, y')
    ensures y'.c == y.c
  {
    hide MayServe, React;
  }

  // --------------------------------------------------------------------------- runs

  /** An upload request has just been made; nothing is on its way back. */
  predicate Start(y: Sys, idx: nat, sub: nat, kind: Kind, c0: Client) {
    && CsdoRuns.Inv(c0) && c0.phase.Wait? && c0.valid && (kind.Up? || kind.BlkUp?)
    && y == Sys(Requested(c0, kind, idx, sub, [], true), NewOut(c0, Requested(c0, kind, idx, sub, [], true)), [], SIdle)
  }

  predicate IsRun(d: Bytes, told: bool, ys: seq<Sys>, ls: seq<Label>) {
    |ys| == |ls| + 1 && forall i | 0 <= i < |ls| :: Next(d, told, ys[i], ls[i], ys[i + 1])
  }

  lemma StartInv(d: Bytes, told: bool, y: Sys, idx: nat, sub: nat, kind: Kind, c0: Client)
    requires Start(y, idx, sub, kind, c0)
    ensures Inv(d, told, c0.done, y)
  {
    var f := if kind.Up? then UpIniReq(idx, sub) else BlkUpIniReq(idx, sub, MAX_SEQNO, kind.pst);
    SentOne(c0, y.c, f);
  }

  lemma {:induction false} RunInv(d: Bytes, told: bool, ys: seq<Sys>, ls: seq<Label>, i: nat, done: seq<Done>)
    requires IsRun(d, told, ys, ls) && i < |ys| && Inv(d, told, done, ys[0])
    ensures Inv(d, told, done, ys[i])
  {
    hide Inv, Next;
    if i > 0 {
      RunInv(d, told, ys, ls, i - 1, done);
      StepKeeps(d, told, done, ys[i - 1], ls[i - 1], ys[i]);
    }
  }

  /**
   Whatever is lost and whenever, there is at most one confirmation of the upload,
   and one with abort code zero comes with exactly the server's data if and only if
   the server announced their size or has none.
   */
  lemma UploadIsExact(d: Bytes, told: bool, ys: seq<Sys>, ls: seq<Label>, i: nat, idx: nat, sub: nat, kind: Kind, c0: Client)
    requires IsRun(d, told, ys, ls) && i < |ys| && Start(ys[0], idx, sub, kind, c0)
    ensures |c0.done| <= |ys[i].c.done| <= |c0.done| + 1
    ensures var done := ys[i].c.done;
            |done| == |c0.done| + 1 && done[|c0.done|].ac == 0 ==>
              done[|c0.done|].data == Received(d, told) && (done[|c0.done|].data == d <==> told || d == [])
  {
    hide IsRun, Start, Flow;
    StartInv(d, told, ys[0], idx, sub, kind, c0);
    RunInv(d, told, ys, ls, i, c0.done);
  }
}
