/**
 A block upload that loses everything.  The server does not announce the size of
 93 segments; of the block only the last segment arrives, and again when the
 server repeats the block.  Its first byte reads as the end of the transfer.
 */
module CsdoUploadLoss {
  import opened MemBuf
  import opened CsdoModel
  import CsdoRuns
  import opened CsdoUpload

  // ------------------------------------------------------------------- server frames

  /** The first byte of a block segment. */
  function Cs(seqno: nat, last: bool): bv8
    requires 1 <= seqno <= MAX_SEQNO
  {
    Byte(seqno) | (if last then 0x80 else 0x00)
  }

  lemma Narrow(n: nat)
    requires 1 <= n <= MAX_SEQNO
    ensures var b := Byte(n); b as int == n && b != 0 && b & 0x80 == 0
  {
    hide Byte;
    ByteIs(n);
    NonZero(Byte(n));
    TopBit(Byte(n));
  }

  lemma NonZero(b: bv8)
    requires b as int >= 1
    ensures b != 0
  {
  }

  lemma TopBit(b: bv8)
    requires b as int <= MAX_SEQNO
    ensures b & 0x80 == 0
  {
    assert b <= 0x7f;
  }

  lemma SeqIs(c: bv8, b: bv8)
    requires c & 0x7f == b
    ensures SeqOf(c) == b as int
  {
  }

  lemma CsBits(b: bv8, last: bool)
    requires b & 0x80 == 0 && b != 0
    ensures var c := b | (if last then 0x80 else 0x00); c & 0x7f == b && LastOf(c) == last && c != 0x80
  {
  }

  lemma CsIs(seqno: nat, last: bool)
    requires 1 <= seqno <= MAX_SEQNO
    ensures SeqOf(Cs(seqno, last)) == seqno && LastOf(Cs(seqno, last)) == last && Cs(seqno, last) != 0x80
  {
    hide LastOf, SeqOf, Byte;
    var b := Byte(seqno);
    Narrow(seqno);
    CsBits(b, last);
    SeqIs(Cs(seqno, last), b);
  }

  /** Segment i of the block of all of d. */
  function SegmentMsg(d: Bytes, i: nat): Msg
    requires i < MAX_SEQNO
  {
    var c := Chunk(d, i);
    Msg(8, [Cs(i + 1, i + 1 == Count(d))] + c + seq(7 - |c|, _ => 0))
  }

  function Block(d: Bytes): seq<Resp>
    requires Count(d) <= MAX_SEQNO
  {
    seq(Count(d), i requires 0 <= i < Count(d) => RBlk(SegmentMsg(d, i), i + 1))
  }

  lemma SegmentIs(d: Bytes, i: nat)
    requires i < MAX_SEQNO
    ensures BlkFrame(i + 1, Chunk(d, i), i + 1 == Count(d), SegmentMsg(d, i))
  {
    hide Cs, Chunk, Count, SeqOf, LastOf;
    CsIs(i + 1, i + 1 == Count(d));
  }

  lemma BlockIs(d: Bytes)
    requires Count(d) <= MAX_SEQNO
    ensures IsBlock(d, 0, Count(d), Block(d))
  {
    hide SegmentMsg, BlkFrame, Chunk, Count;
    forall i | 0 <= i < Count(d)
      ensures BlkFrame(i + 1, Chunk(d, 0 + i), 0 + i + 1 == Count(d), Block(d)[i].m)
    {
      SegmentIs(d, i);
    }
  }

  /** Initiates a block upload of object 0000:00 without size and checksum. */
  const INITIATE: Msg := Msg(8, [0xc0, 0, 0, 0, 0, 0, 0, 0])

  // ----------------------------------------------------------------- pieces of a run

  lemma Join(d: Bytes, ys: seq<Sys>, ls: seq<Label>, l: Label, y: Sys)
    requires IsRun(d, false, ys, ls) && Next(d, false, ys[|ls|], l, y)
    ensures IsRun(d, false, ys + [y], ls + [l])
  {
    hide Next;
  }

  lemma LoseOne(d: Bytes, y: Sys, y': Sys)
    requires y.resp != [] && y' == y.(resp := Dropped(y.resp, 0))
    ensures Next(d, false, y, LoseResp(0), y')
  {
  }

  lemma ServeBlock(d: Bytes, y: Sys, y': Sys)
    requires Count(d) == 93 && |y.req| == 1
    requires (y.req[0] == StartUpReq && y.srv == SBlkIni(127)) || (y.req[0] == BlkUpSubRes(0, 127) && y.srv == SBlk(0, 93))
    requires y' == y.(req := y.req[1..], resp := y.resp + Block(d), srv := SBlk(0, 93))
    ensures Next(d, false, y, Serve(Block(d), SBlk(0, 93)), y')
  {
    hide SegmentMsg, Count, IsBlock;
    BlockIs(d);
  }

  /** The first n frames from the server are lost. */
  lemma {:induction false} Lose(d: Bytes, ys: seq<Sys>, ls: seq<Label>, n: nat) returns (ys': seq<Sys>, ls': seq<Label>)
    requires IsRun(d, false, ys, ls) && n <= |ys[|ls|].resp|
    ensures IsRun(d, false, ys', ls') && |ls'| == |ls| + n && ys'[0] == ys[0]
    ensures ys'[|ls'|] == ys[|ls|].(resp := ys[|ls|].resp[n..])
  {
    hide Next;
    ys', ls' := ys, ls;
    if n > 0 {
      ys', ls' := Lose(d, ys, ls, n - 1);
      var y := ys'[|ls'|];
      var y' := y.(resp := Dropped(y.resp, 0));
      assert Dropped(y.resp, 0) == ys[|ls|].resp[n..];
      LoseOne(d, y, y');
      Join(d, ys', ls', LoseResp(0), y');
      ys', ls' := ys' + [y'], ls' + [LoseResp(0)];
    }
  }

  /** The server sends the block, and all of it but the last segment is lost. */
  lemma OnlyLast(d: Bytes, ys: seq<Sys>, ls: seq<Label>) returns (ys': seq<Sys>, ls': seq<Label>)
    requires IsRun(d, false, ys, ls) && Count(d) == 93
    requires var y := ys[|ls|];
             && |y.req| == 1 && y.resp == []
             && ((y.req[0] == StartUpReq && y.srv == SBlkIni(127)) || (y.req[0] == BlkUpSubRes(0, 127) && y.srv == SBlk(0, 93)))
    ensures IsRun(d, false, ys', ls') && ys'[0] == ys[0]
    ensures ys'[|ls'|] == ys[|ls|].(req := [], resp := [RBlk(SegmentMsg(d, 92), 93)], srv := SBlk(0, 93))
  {
    hide Next, SegmentMsg, Count;
    var y, rs := ys[|ls|], Block(d);
    var y' := y.(req := y.req[1..], resp := y.resp + rs, srv := SBlk(0, 93));
    assert y.resp + rs == rs;
    ServeBlock(d, y, y');
    Join(d, ys, ls, Serve(rs, SBlk(0, 93)), y');
    ys', ls' := Lose(d, ys + [y'], ls + [Serve(rs, SBlk(0, 93))], 92);
    assert rs[92..] == [RBlk(SegmentMsg(d, 92), 93)];
  }

  // ---------------------------------------------------------------- the client's part

  /** The client waits for the block and has nothing. */
  predicate Waiting(c: Client) {
    && c.phase.BlkUpSub? && c.size == 0 && c.ackseq == 0 && !c.crc && c.up == [] && c.blksize == 127 && c.recvOn
    && c.con.UpCon? && c.done == []
  }

  /** The client took the last segment for the end of the data and waits for the end of the transfer. */
  predicate Fooled(c: Client) {
    c.phase.BlkUpEnd? && c.size == 0 && !c.crc && c.up == [] && c.recvOn && c.con.UpCon? && c.done == []
  }

  /** A new client, started with valid parameters. */
  function Fresh(): Client { Started(NEW, true) }

  function Asking(): Client { Requested(Fresh(), BlkUp(0), 0, 0, [], true) }

  lemma FreshInv()
    ensures CsdoRuns.Inv(Fresh())
  {
  }

  /** The request has been made and nothing has come back. */
  predicate Requesting(c: Client) {
    && c.phase.BlkUpIni? && c.up == [] && c.blksize == 127 && c.recvOn && c.con.UpCon? && c.done == []
    && c.idx == 0 && c.sub == 0 && Sound(c)
  }

  lemma AskingIs()
    ensures Requesting(Asking()) && Frame(INITIATE)
  {
  }

  lemma BitsC0()
    ensures SpecOf(0xc0) == BlkUpRes && 0xc0 as bv8 & 0x01 == 0 && 0xc0 as bv8 & 0x04 == 0 && 0xc0 as bv8 & 0x02 == 0
  {
  }

  lemma InitiateWaits(c: Client)
    requires Requesting(c) && Frame(INITIATE)
    ensures var c' := BlkUpIniRecv(c, INITIATE, true); Waiting(c') && c'.out == c.out + [StartUpReq]
  {
    hide SpecOf, Le32;
    BitsC0();
  }

  lemma InitiateIs(d: Bytes)
    ensures BlkIniFrame(d, false, INITIATE)
  {
    hide Le32;
  }

  lemma StartIs()
    ensures Asking().phase.BlkUpIni? && Asking().out == [BlkUpIniReq(0, 0, 127, 0)]
    ensures Start(Sys(Asking(), [BlkUpIniReq(0, 0, 127, 0)], [], SIdle), 0, 0, BlkUp(0), Fresh())
  {
    hide CsdoRuns.Inv;
    FreshInv();
    assert NewOut(Fresh(), Asking()) == [BlkUpIniReq(0, 0, 127, 0)];
  }

  lemma Bits93()
    ensures SeqOf(0xdd) == 93 && LastOf(0xdd) && SpecOf(0xdd) == BlkUpRes && SubOf(0xdd) == 1 && BlkUpTail(0xdd) == 0
  {
  }

  lemma LastMsg(d: Bytes)
    requires Count(d) == 93
    ensures var m := SegmentMsg(d, 92); Frame(m) && m.len == 8 && m.data[0] == 0xdd
  {
    ByteIs(93);
    assert Byte(93) as int == 0x5d as bv8 as int;
    assert 0x5d as bv8 | 0x80 == 0xdd;
  }

  lemma LastFools(c: Client, m: Msg)
    requires Waiting(c) && Frame(m) && m.len == 8 && m.data[0] == 0xdd
    ensures Sound(c) && Fooled(BlkUpSubRecv(c, m)) && BlkUpSubRecv(c, m).out == c.out + [BlkUpSubRes(0, 127)]
  {
    hide SeqOf, LastOf, SpecOf;
    Bits93();
  }

  lemma LastEnds(c: Client, m: Msg)
    requires Fooled(c) && Frame(m) && m.len == 8 && m.data[0] == 0xdd
    ensures Sound(c)
    ensures var c' := BlkUpEndRecv(c, m, CrcMatches(c, m));
            c'.done == [Done(Asked(c.idx, c.sub, true), 0, [])] && c'.out == c.out + [BlkUpEndRes]
  {
    hide SpecOf, SubOf, BlkUpTail, CrcMatches;
    Bits93();
  }

  // --------------------------------------------------------------------------- the run

  lemma ReceiveOne(d: Bytes, y: Sys, f: seq<Out>, y': Sys)
    requires y.resp != [] && Sound(y.c) && y.c.recvOn && Frame(y.resp[0].m)
    requires var c' := OnRecv(y.c, y.resp[0].m, true);
             NewOut(y.c, c') == f && y' == y.(c := c', req := y.req + f, resp := y.resp[1..])
    ensures Next(d, false, y, Deliver(true), y')
  {
    hide OnRecv;
  }

  /** The client's answer to the frame at the head of the channel. */
  lemma Receive(d: Bytes, ys: seq<Sys>, ls: seq<Label>, f: seq<Out>) returns (ys': seq<Sys>, ls': seq<Label>)
    requires IsRun(d, false, ys, ls)
    requires var y := ys[|ls|];
             && |y.resp| == 1 && y.req == [] && Sound(y.c) && y.c.recvOn && Frame(y.resp[0].m)
             && OnRecv(y.c, y.resp[0].m, true).out == y.c.out + f
    ensures IsRun(d, false, ys', ls') && ys'[0] == ys[0]
    ensures ys'[|ls'|] == ys[|ls|].(c := OnRecv(ys[|ls|].c, ys[|ls|].resp[0].m, true), req := f, resp := [])
  {
    hide Next, OnRecv;
    var y := ys[|ls|];
    var c' := OnRecv(y.c, y.resp[0].m, true);
    assert NewOut(y.c, c') == f;
    var y' := y.(c := c', req := y.req + NewOut(y.c, c'), resp := y.resp[1..]);
    assert y.req + f == f && y.resp[1..] == [];
    assert Next(d, false, y, Deliver(true), y') by { ReceiveOne(d, y, f, y'); }
    Join(d, ys, ls, Deliver(true), y');
    ys', ls' := ys + [y'], ls + [Deliver(true)];
  }

  lemma ServeInitiate(d: Bytes, y: Sys, y': Sys)
    requires y.req == [BlkUpIniReq(0, 0, 127, 0)] && BlkIniFrame(d, false, INITIATE)
    requires y' == y.(req := y.req[1..], resp := y.resp + [RBlkIni(INITIATE)], srv := SBlkIni(127))
    ensures Next(d, false, y, Serve([RBlkIni(INITIATE)], SBlkIni(127)), y')
  {
    hide BlkIniFrame, Announces;
  }

  /** The upload has been initiated and the client waits for the first block. */
  lemma Opening(d: Bytes) returns (ys: seq<Sys>, ls: seq<Label>)
    ensures IsRun(d, false, ys, ls) && Start(ys[0], 0, 0, BlkUp(0), Fresh())
    ensures Waiting(ys[|ls|].c) && ys[|ls|].req == [StartUpReq] && ys[|ls|].resp == [] && ys[|ls|].srv == SBlkIni(127)
  {
    hide BlkUpIniRecv, Next, Start, Asking, Fresh, Waiting, BlkIniFrame;
    StartIs();
    InitiateIs(d);
    AskingIs();
    InitiateWaits(Asking());
    var c, f := Asking(), BlkUpIniReq(0, 0, 127, 0);
    var y := Sys(c, [f], [], SIdle);
    var r := RBlkIni(INITIATE);
    var y' := y.(req := y.req[1..], resp := y.resp + [r], srv := SBlkIni(127));
    assert y.req[1..] == [] && y.resp + [r] == [r];
    assert Next(d, false, y, Serve([r], SBlkIni(127)), y') by { ServeInitiate(d, y, y'); }
    assert IsRun(d, false, [y], []);
    Join(d, [y], [], Serve([r], SBlkIni(127)), y');
    ys, ls := Receive(d, [y] + [y'], [] + [Serve([r], SBlkIni(127))], [StartUpReq]);
  }

  /**
   For every data set of 93 segments there is such a run from a new client: the
   upload is confirmed as a success, without data.
   */
  lemma UnsizedLoss(d: Bytes) returns (ys: seq<Sys>, ls: seq<Label>)
    requires Count(d) == 93
    ensures IsRun(d, false, ys, ls) && Start(ys[0], 0, 0, BlkUp(0), Fresh()) && d != []
    ensures |ys[|ls|].c.done| == 1 && ys[|ls|].c.done[0].ac == 0 && ys[|ls|].c.done[0].data == []
  {
    hide Next, SegmentMsg, BlkUpSubRecv, BlkUpEndRecv, CrcMatches, Waiting, Fooled, Count, Start;
    NotEmpty(d);
    LastMsg(d);
    var m := SegmentMsg(d, 92);
    ys, ls := Opening(d);
    WaitingIs(ys[|ls|].c);
    ys, ls := OnlyLast(d, ys, ls);
    LastFools(ys[|ls|].c, m);
    ys, ls := Receive(d, ys, ls, [BlkUpSubRes(0, 127)]);
    FooledIs(ys[|ls|].c);
    ys, ls := OnlyLast(d, ys, ls);
    var c := ys[|ls|].c;
    LastEnds(c, m);
    ys, ls := Receive(d, ys, ls, [BlkUpEndRes]);
  }

  lemma NotEmpty(d: Bytes)
    requires Count(d) == 93
    ensures d != []
  {
  }

  lemma WaitingIs(c: Client)
    requires Waiting(c)
    ensures c.phase.BlkUpSub? && c.recvOn
  {
  }

  lemma FooledIs(c: Client)
    requires Fooled(c)
    ensures c.phase.BlkUpEnd? && c.recvOn
  {
  }
}
