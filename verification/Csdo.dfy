/**
 The Client-SDO object: its members, the download buffer over the caller's bytes,
 the growing upload buffer, and the handlers that update them in place.  `Abs` is
 the value the specification in `CsdoModel` is about.
 */
module Csdo {
  import M = CsdoModel
  import opened MemBuf
  import opened CsdoModel
  import CsdoRuns
  import Crc16

  class CSdo {
    var state: Phase
    var valid: bool         // the SDO parameter record holds valid COB-IDs
    var recvOn: bool        // the CAN frame receiver is active
    var timerOn: bool       // the CAN timer is armed
    var timeout: nat
    var ac: nat
    var idx: nat
    var subidx: nat
    var size: nat
    var toggle: bool
    var blksize: nat
    var pst: nat
    var ackseq: nat
    var crc: bool
    const dnBuf: Buffer
    const upBuf: Buffer
    var con: Con
    ghost var dn: Bytes     // the bytes the latest download reads
    ghost var out: seq<Out>
    ghost var asked: seq<Asked>
    ghost var done: seq<Done>

    /** The download buffer holds the bytes the download reads. */
    ghost predicate Loaded()
      reads this`dn, dnBuf`data, dnBuf`end, dnBuf.data
    {
      dnBuf.end <= dnBuf.data.Length && dnBuf.data[..dnBuf.end] == dn
    }

    /** A download under way reads the client's own buffer. */
    ghost predicate Own()
      reads this`state, dnBuf`data, upBuf`data
    {
      Downloading(state) && dnBuf.data == upBuf.data
    }

    ghost predicate Valid()
      reads this, dnBuf, upBuf, dnBuf.data
    {
      && dnBuf != upBuf && dnBuf.Valid() && upBuf.Valid() && |dn| == dnBuf.end
      && (Downloading(state) ==> Loaded())
    }

    ghost function Abs(): Client
      reads this, dnBuf, upBuf, dnBuf.data, upBuf.data
      requires Valid()
    {
      Client(state, valid, recvOn, timerOn, timeout, ac, idx, subidx, size, toggle, blksize, pst, ackseq, crc,
             dn, dnBuf.cur, upBuf.Contents(), upBuf.end, con, out, asked, done)
    }

    /** The abstract value together with where the download reads from. */
    ghost function View(): M.Shared
      reads this, dnBuf, upBuf, dnBuf.data, upBuf.data
      requires Valid()
    {
      M.Shared(Abs(), Own())
    }

    /** The members, read off the abstract value. */
    lemma Members()
      requires Valid()
      ensures var c := Abs();
              && c.phase == state && c.valid == valid && c.timerOn == timerOn && c.recvOn == recvOn && c.timeout == timeout
              && c.ac == ac && c.idx == idx && c.sub == subidx && c.size == size
              && c.toggle == toggle && c.blksize == blksize && c.pst == pst && c.ackseq == ackseq && c.crc == crc
              && c.con == con && c.dn == dn && c.cur == dnBuf.cur && c.up == upBuf.Contents()
              && c.room == upBuf.end && c.out == out && c.asked == asked && c.done == done
    {
    }

    constructor ()
      ensures Valid() && Abs() == M.NEW && CsdoRuns.Inv(Abs())
    {
      state, valid, recvOn, timerOn, timeout := Stopped, false, false, false, 0;
      ac, idx, subidx, size := 0, 0, 0, 0;
      toggle, blksize, pst, ackseq, crc := false, 0, 0, 0, false;
      con, dn, out, asked, done := NoCon, [], [], [], [];
      dnBuf := new Buffer();
      upBuf := new Buffer();
    }

    // ------------------------------------------------------------- single updates

    method SendFrame(f: Out)
      requires Valid()
      modifies this`out
      ensures Abs() == M.Send(old(Abs()), f)
    {
      out := out + [f];
    }

    method ArmTimer()
      requires Valid()
      modifies this`timerOn
      ensures Abs() == M.Arm(old(Abs()))
    {
      if timeout > 0 { timerOn := true; }
    }

    method StopTimer()
      requires Valid()
      modifies this`timerOn
      ensures Abs() == old(Abs()).(timerOn := false)
    {
      timerOn := false;
    }

    method Enter(next: Phase)
      requires Valid() && (Downloading(next) ==> Loaded())
      modifies this`state
      ensures Valid() && state == next && Abs() == old(Abs()).(phase := next)
    {
      state := next;
    }

    method SetAc(code: nat)
      requires Valid()
      modifies this`ac
      ensures Abs() == old(Abs()).(ac := code)
    {
      ac := code;
    }

    method SetSize(n: nat)
      requires Valid()
      modifies this`size
      ensures size == n && Abs() == old(Abs()).(size := n)
    {
      size := n;
    }

    method SetBlksize(n: nat)
      requires Valid()
      modifies this`blksize
      ensures blksize == n && Abs() == old(Abs()).(blksize := n)
    {
      blksize := n;
    }

    method SetAckseq(n: nat)
      requires Valid()
      modifies this`ackseq
      ensures ackseq == n && Abs() == old(Abs()).(ackseq := n)
    {
      ackseq := n;
    }

    method SetCrc(b: bool)
      requires Valid()
      modifies this`crc
      ensures Abs() == old(Abs()).(crc := b)
    {
      crc := b;
    }

    method SetReceiver(on: bool)
      requires Valid()
      modifies this`recvOn
      ensures Abs() == old(Abs()).(recvOn := on)
    {
      recvOn := on;
    }

    method SetValid(ok: bool)
      requires Valid()
      modifies this`valid
      ensures valid == ok && Abs() == old(Abs()).(valid := ok)
    {
      valid := ok;
    }

    method SetPst(n: nat)
      requires Valid()
      modifies this`pst
      ensures Abs() == old(Abs()).(pst := n)
    {
      pst := n;
    }

    method SetObject(i: nat, j: nat)
      requires Valid()
      modifies this`idx, this`subidx
      ensures Abs() == old(Abs()).(idx := i, sub := j)
    {
      idx, subidx := i, j;
    }

    method SetToggle(b: bool)
      requires Valid()
      modifies this`toggle
      ensures Abs() == old(Abs()).(toggle := b)
    {
      toggle := b;
    }

    // -------------------------------------------------------------- leaving a state

    method DropCon() returns (k: Con)
      requires Valid()
      modifies this`con
      ensures k == old(con) && Abs() == old(Abs()).(con := NoCon)
    {
      k := con;
      con := NoCon;
    }

    /** Call the confirmation function with the data received if there was no error. */
    method Call(upload: bool)
      requires Valid()
      modifies this`done
      ensures var c := old(Abs());
              Abs() == c.(done := c.done + [Done(Asked(c.idx, c.sub, upload), c.ac, if upload && c.ac == 0 then c.up else [])])
    {
      done := done + [Done(Asked(idx, subidx, upload), ac, if !upload || ac != 0 then [] else upBuf.Contents())];
    }

    /** Leave the abort state: tell whoever asked. */
    method Confirm()
      requires Valid()
      modifies this`con, this`done
      ensures Abs() == old(Abs()).(con := NoCon, done := Confirmed(old(Abs())))
    {
      hide Abs;
      Members();
      var k := DropCon();
      if k.DnCon? { Call(false); } else if k.UpCon? { Call(true); }
    }

    /** Enter the abort state and, through it, the waiting state; confirm on the way. */
    method AbortInd(code: nat)
      requires Valid()
      modifies this`ac, this`timerOn, this`state, this`con, this`done
      ensures Valid() && Abs() == M.AbortInd(old(Abs()), code)
    {
      hide Abs;
      SetAc(code);
      StopTimer();
      Enter(Wait);
      Confirm();
    }

    method AbortRes(code: nat)
      requires Valid()
      modifies this`ac, this`timerOn, this`state, this`con, this`done, this`out
      ensures Valid() && Abs() == M.AbortRes(old(Abs()), code)
    {
      hide Abs, M.AbortInd;
      Members();
      SendFrame(AbortReq(idx, subidx, code));
      AbortInd(code);
    }

    method AbortBy(m: Msg)
      requires Valid() && Frame(m)
      modifies this`ac, this`timerOn, this`state, this`con, this`done
      ensures Valid() && Abs() == M.AbortBy(old(Abs()), m)
    {
      hide Abs, M.AbortInd, Le32;
      var code := if m.len < 8 then 0 else Le32(m.data, 4);
      AbortInd(if code != 0 then code else AC_ERROR);
    }

    // ---------------------------------------------------------------- download

    /** Send n bytes from the cursor on. */
    method SendDnSeg(n: nat, last: bool)
      requires Valid() && Downloading(state) && n <= dnBuf.Capacity()
      modifies this`out, this`toggle, dnBuf`cur
      ensures Valid()
      ensures old(Abs()).cur + n <= |old(Abs()).dn| && Abs() == M.SendSeg(old(Abs()), n, last)
    {
      assert dnBuf.data[dnBuf.cur..dnBuf.cur + n] == dnBuf.data[..dnBuf.end][dnBuf.cur..dnBuf.cur + n];
      SendFrame(DnSegReq(toggle, dnBuf.data[dnBuf.cur..dnBuf.cur + n], last));
      toggle := !toggle;
      dnBuf.cur := dnBuf.cur + n;
    }

    method EnterDnSeg()
      requires Valid() && Downloading(state) && dnBuf.cur <= size == dnBuf.end
      modifies this`ac, this`timerOn, this`state, this`con, this`done, this`out, this`toggle, dnBuf`cur
      ensures Valid() && Abs() == M.DnSegEnter(old(Abs()))
    {
      hide M.AbortInd, M.SendSeg, Abs;
      Members();
      var n := size - dnBuf.cur;
      if n > 0 || (size == 0 && !toggle) {
        ArmTimer();
        SendDnSeg(Min(n, 7), n <= 7);
        Enter(DnSeg);
      } else {
        AbortInd(0);
      }
    }

    method DnIniRecv(m: Msg)
      requires Valid() && Frame(m) && Downloading(state) && dnBuf.cur <= size == dnBuf.end
      modifies this`ac, this`timerOn, this`state, this`con, this`done, this`out, this`toggle, dnBuf`cur
      ensures Valid() && Abs() == M.DnIniRecv(old(Abs()), m)
    {
      hide SpecOf, Abs, M.AbortRes, M.AbortBy, M.DnSegEnter;
      Members();
      if m.len < 1 { AbortRes(AC_NO_CS); return; }
      match SpecOf(m.data[0]) {
        case DnIniRes =>
        case AbortCs => AbortBy(m); return;
        case _ => AbortRes(AC_NO_CS); return;
      }
      if m.len < 4 { AbortRes(AC_ERROR); return; }
      if Le16(m.data, 1) != idx || m.data[3] as int != subidx { AbortRes(AC_ERROR); return; }
      EnterDnSeg();
    }

    method DnSegRecv(m: Msg)
      requires Valid() && Frame(m) && Downloading(state) && dnBuf.cur <= size == dnBuf.end
      modifies this`ac, this`timerOn, this`state, this`con, this`done, this`out, this`toggle, dnBuf`cur
      ensures Valid() && Abs() == M.DnSegRecv(old(Abs()), m)
    {
      hide SpecOf, Abs, ToggleOf, M.AbortRes, M.AbortBy, M.DnSegEnter;
      Members();
      if m.len < 1 { AbortRes(AC_NO_CS); return; }
      match SpecOf(m.data[0]) {
        case DnSegRes =>
        case AbortCs => AbortBy(m); return;
        case _ => AbortRes(AC_NO_CS); return;
      }
      if ToggleOf(m.data[0]) == toggle { AbortRes(AC_TOGGLE); return; }
      EnterDnSeg();
    }

    // ------------------------------------------------------------------ upload

    /** Make room for the announced size; false means that there is no memory. */
    method ReserveRoom(memOk: bool) returns (ok: bool)
      requires Valid() && !Downloading(state)
      modifies upBuf`data, upBuf`end
      ensures Valid() && (upBuf.data == old(upBuf.data) || fresh(upBuf.data))
      ensures ok == (HasRoom(old(Abs())) || memOk)
      ensures Abs() == if ok then M.Reserve(old(Abs())) else old(Abs())
      ensures ok ==> size <= upBuf.Capacity()
    {
      if size == 0 { return true; }
      ok := upBuf.Reserve(size, memOk);
    }

    /** Copy bytes to the upload buffer; all of them fit. */
    method Store(bytes: Bytes)
      requires Valid() && !Downloading(state) && |bytes| <= upBuf.Capacity()
      modifies upBuf`cur, upBuf.data
      ensures Valid()
      ensures Abs() == old(Abs()).(up := old(Abs()).up + bytes)
    {
      var n := upBuf.Write(bytes);
      assert bytes[..n] == bytes;
    }

    method SendUpSeg()
      requires Valid()
      modifies this`out, this`toggle
      ensures var c := old(Abs()); Abs() == M.Send(c, UpSegReq(c.toggle)).(toggle := !c.toggle)
    {
      SendFrame(UpSegReq(toggle));
      toggle := !toggle;
    }

    method UpIniRecv(m: Msg, memOk: bool)
      requires Valid() && Frame(m) && Uploading(state)
      modifies this, upBuf, upBuf.data
      ensures Valid() && (upBuf.data == old(upBuf.data) || fresh(upBuf.data))
      ensures Abs() == M.UpIniRecv(old(Abs()), m, memOk)
    {
      hide SpecOf, Abs, M.AbortRes, M.AbortBy, M.UpIniAccept;
      Members();
      if m.len < 1 { AbortRes(AC_NO_CS); return; }
      match SpecOf(m.data[0]) {
        case UpIniRes =>
        case AbortCs => AbortBy(m); return;
        case _ => AbortRes(AC_NO_CS); return;
      }
      if m.len < 4 { AbortRes(AC_ERROR); return; }
      if Le16(m.data, 1) != idx || m.data[3] as int != subidx { AbortRes(AC_ERROR); return; }
      UpIniAccept(m, memOk);
    }

    method UpIniAccept(m: Msg, memOk: bool)
      requires Valid() && Frame(m) && Uploading(state) && m.len >= 4
      modifies this, upBuf, upBuf.data
      ensures Valid() && (upBuf.data == old(upBuf.data) || fresh(upBuf.data))
      ensures Abs() == M.UpIniAccept(old(Abs()), m, memOk)
    {
      hide Padded, ExpSize, Le32, Abs, M.AbortInd, M.AbortRes, M.Reserve, HasRoom;
      var data := Padded(m);
      var exp := m.data[0] & 0x02 != 0;
      SetSize(if exp then ExpSize(m) else if m.data[0] & 0x01 != 0 then Le32(data, 0) else 0);
      var ok := ReserveRoom(memOk);
      if !ok { AbortRes(AC_NO_MEM); return; }
      Members();
      if exp {
        Store(data[..Min(size, 4)]);
        AbortInd(0);
      } else {
        ArmTimer();
        SendUpSeg();
        Enter(UpSeg);
      }
    }

    method UpSegRecv(m: Msg)
      requires Valid() && Frame(m) && Uploading(state) && size <= upBuf.end
      modifies this, upBuf, upBuf.data
      ensures Valid() && upBuf.data == old(upBuf.data)
      ensures Abs() == M.UpSegRecv(old(Abs()), m)
    {
      hide SpecOf, SegSize, ToggleOf, Abs, M.UpSegAccept, M.AbortRes, M.AbortBy;
      Members();
      if m.len < 1 { AbortRes(AC_NO_CS); return; }
      match SpecOf(m.data[0]) {
        case UpSegRes =>
        case AbortCs => AbortBy(m); return;
        case _ => AbortRes(AC_NO_CS); return;
      }
      if ToggleOf(m.data[0]) == toggle { return; }
      UpSegAccept(m);
    }

    method UpSegAccept(m: Msg)
      requires Valid() && Frame(m) && Uploading(state) && m.len >= 1 && size <= upBuf.end
      modifies this, upBuf, upBuf.data
      ensures Valid() && upBuf.data == old(upBuf.data)
      ensures Abs() == M.UpSegAccept(old(Abs()), m)
    {
      hide SegSize, Abs, M.AbortInd, M.AbortRes;
      Members();
      var n := SegSize(m.data[0]);
      if m.len < 1 + n { AbortRes(AC_NO_CS); return; }
      var last := m.data[0] & 0x01 != 0;
      if upBuf.cur + n > size { AbortRes(AC_TYPE_LEN_HI); return; }
      Store(m.data[1..1 + n]);
      if last {
        Members();
        if size != 0 && upBuf.cur != size { AbortRes(AC_TYPE_LEN_LO); return; }
        AbortInd(0);
      } else {
        ArmTimer();
        SendUpSeg();
      }
    }

    // ---------------------------------------------------------- block download

    /** Send the segment at the cursor under number seqno. */
    method SendBlkDnSub(seqno: nat)
      requires Valid() && Downloading(state) && dnBuf.cur <= size == dnBuf.end
      modifies this`out, dnBuf`cur
      ensures Valid() && dnBuf.cur <= size
      ensures var c := old(Abs());
              c.cur <= c.size == |c.dn| && Abs() == M.SendSub(c, seqno)
    {
      var n := size - dnBuf.cur;
      var last := n <= 7;
      n := Min(n, 7);
      assert dnBuf.data[dnBuf.cur..dnBuf.cur + n] == dnBuf.data[..dnBuf.end][dnBuf.cur..dnBuf.cur + n];
      SendFrame(BlkDnSubReq(seqno, dnBuf.data[dnBuf.cur..dnBuf.cur + n], last));
      dnBuf.cur := dnBuf.cur + n;
    }

    /** Send all segments of the current block. */
    method SendSegments()
      requires Valid() && Downloading(state) && dnBuf.cur <= size == dnBuf.end
      modifies this`out, dnBuf`cur
      ensures Valid() && Abs() == M.SendBlock(old(Abs()), 1)
    {
      hide Abs, M.SendBlock, M.SendSub;
      Members();
      var seqno := 1;
      while seqno <= blksize
        invariant Valid() && dnBuf.cur <= size
        invariant 1 <= seqno && Abs().cur <= Abs().size == |Abs().dn| && Abs().blksize == blksize
        invariant M.SendBlock(Abs(), seqno) == M.SendBlock(old(Abs()), 1)
      {
        M.BlockNext(Abs(), seqno);
        SendBlkDnSub(seqno);
        Members();
        seqno := seqno + 1;
      }
      M.BlockOver(Abs(), seqno);
    }

    method SendBlkDnEnd()
      requires Valid() && Downloading(state) && size == dnBuf.end
      modifies this`out
      ensures var c := old(Abs()); Abs() == M.Send(c, BlkDnEndReq(TailSize(c.size), if c.crc then Checksum(c.dn) else 0))
    {
      hide Abs;
      Members();
      var tail := if size != 0 then (size - 1) % 7 + 1 else 0;
      var sum := 0;
      if crc {
        var r := Crc16.Crc(0, dnBuf.data[..dnBuf.end]);
        sum := r as int;
      }
      SendFrame(BlkDnEndReq(tail, sum));
    }

    method EnterBlkDnSub()
      requires Valid() && Downloading(state) && dnBuf.cur <= size == dnBuf.end
      modifies this, dnBuf`cur
      ensures Valid() && Abs() == M.BlkDnSubEnter(old(Abs()))
    {
      hide M.SendBlock, M.AbortRes, Checksum, Abs, Loaded;
      Members();
      var n := size - dnBuf.cur;
      if (n > 0 && blksize == 0) || blksize > MAX_SEQNO { AbortRes(AC_BLK_SIZE); return; }
      SetBlksize(Min((n + 6) / 7, blksize));
      ArmTimer();
      if n > 0 {
        SendSegments();
        Enter(BlkDnSub);
      } else {
        SendBlkDnEnd();
        Enter(BlkDnEnd);
      }
    }

    method BlkDnIniRecv(m: Msg)
      requires Valid() && Frame(m) && Downloading(state) && dnBuf.cur <= size == dnBuf.end
      modifies this, dnBuf`cur
      ensures Valid() && Abs() == M.BlkDnIniRecv(old(Abs()), m)
    {
      hide SpecOf, SubOf, Le16, BlkDnSubEnter, M.AbortRes, M.AbortBy, Abs, Loaded;
      Members();
      if m.len < 1 { AbortRes(AC_NO_CS); return; }
      match SpecOf(m.data[0]) {
        case BlkDnRes =>
        case AbortCs => AbortBy(m); return;
        case _ => AbortRes(AC_NO_CS); return;
      }
      if SubOf(m.data[0]) != 0 { AbortRes(AC_NO_CS); return; }
      SetCrc(m.data[0] & 0x04 != 0);
      if m.len < 4 { AbortRes(AC_ERROR); return; }
      if Le16(m.data, 1) != idx || m.data[3] as int != subidx { AbortRes(AC_ERROR); return; }
      if m.len < 5 { AbortRes(AC_BLK_SIZE); return; }
      SetBlksize(m.data[4] as int);
      EnterBlkDnSub();
    }

    /** Step back to the first segment that was not acknowledged. */
    method RewindTo(a: nat)
      requires Valid() && blksize <= (dnBuf.cur + 6) / 7
      modifies dnBuf`cur
      ensures Valid() && dnBuf.cur <= old(dnBuf.cur)
      ensures var c := old(Abs()); Abs() == c.(cur := M.Rewind(c.cur, c.blksize, a))
    {
      if a < blksize {
        var n := (dnBuf.cur + 6) / 7;
        n := n - (blksize - a);
        dnBuf.cur := 7 * n;
      }
    }

    method BlkDnSubRecv(m: Msg)
      requires Valid() && Frame(m) && Downloading(state) && dnBuf.cur <= size == dnBuf.end && blksize <= (dnBuf.cur + 6) / 7
      modifies this, dnBuf`cur
      ensures Valid() && Abs() == M.BlkDnSubRecv(old(Abs()), m)
    {
      hide SpecOf, SubOf, BlkDnSubEnter, M.AbortRes, M.AbortBy, M.Rewind, Abs;
      Members();
      if m.len < 1 { AbortRes(AC_NO_CS); return; }
      match SpecOf(m.data[0]) {
        case BlkDnRes =>
        case AbortCs => AbortBy(m); return;
        case _ => AbortRes(AC_NO_CS); return;
      }
      if SubOf(m.data[0]) != 2 { AbortRes(AC_NO_CS); return; }
      if m.len < 2 { AbortRes(AC_BLK_SEQ); return; }
      RewindTo(m.data[1] as int);
      if m.len < 3 { AbortRes(AC_BLK_SIZE); return; }
      SetBlksize(m.data[2] as int);
      EnterBlkDnSub();
    }

    method BlkDnEndRecv(m: Msg)
      requires Valid() && Frame(m)
      modifies this`ac, this`timerOn, this`state, this`con, this`done, this`out
      ensures Valid() && Abs() == M.BlkDnEndRecv(old(Abs()), m)
    {
      hide SpecOf, SubOf, M.AbortRes, M.AbortBy, M.AbortInd, Abs;
      if m.len < 1 { AbortRes(AC_NO_CS); return; }
      match SpecOf(m.data[0]) {
        case BlkDnRes =>
        case AbortCs => AbortBy(m); return;
        case _ => AbortRes(AC_NO_CS); return;
      }
      if SubOf(m.data[0]) != 1 { AbortRes(AC_NO_CS); return; }
      AbortInd(0);
    }

    // ------------------------------------------------------------ block upload

    /** Try again with half the block size. */
    method HalveBlock()
      requires Valid()
      modifies this`blksize, this`timerOn, this`out
      ensures Abs() == M.Halve(old(Abs()))
    {
      hide Abs;
      Members();
      SetBlksize((blksize + 1) / 2);
      ArmTimer();
      SendFrame(BlkUpIniReq(idx, subidx, blksize, pst));
    }

    method BlkUpIniRecv(m: Msg, memOk: bool)
      requires Valid() && Frame(m) && Uploading(state)
      modifies this, upBuf, upBuf.data
      ensures Valid() && (upBuf.data == old(upBuf.data) || fresh(upBuf.data))
      ensures Abs() == M.BlkUpIniRecv(old(Abs()), m, memOk)
    {
      hide SpecOf, M.UpIniRecv, M.BlkUpIniAccept, M.AbortRes, M.AbortBy, M.Halve, Le32, Abs;
      Members();
      if m.len < 1 { AbortRes(AC_NO_CS); return; }
      match SpecOf(m.data[0]) {
        case UpIniRes => UpIniRecv(m, memOk); return;
        case BlkUpRes =>
        case AbortCs =>
          if m.len == 8 && Le32(m.data, 4) == AC_BLK_SIZE && blksize > 1 { HalveBlock(); } else { AbortBy(m); }
          return;
        case _ => AbortRes(AC_NO_CS); return;
      }
      if m.data[0] & 0x01 != 0 { AbortRes(AC_NO_CS); return; }
      SetCrc(m.data[0] & 0x04 != 0);
      if m.len < 4 { AbortRes(AC_ERROR); return; }
      if Le16(m.data, 1) != idx || m.data[3] as int != subidx { AbortRes(AC_ERROR); return; }
      BlkUpIniAccept(m, memOk);
    }

    method BlkUpIniAccept(m: Msg, memOk: bool)
      requires Valid() && Frame(m) && Uploading(state) && m.len >= 4
      modifies this, upBuf, upBuf.data
      ensures Valid() && (upBuf.data == old(upBuf.data) || fresh(upBuf.data))
      ensures Abs() == M.BlkUpIniAccept(old(Abs()), m, memOk)
    {
      hide M.AbortRes, Padded, Le32, Abs, M.Reserve, HasRoom;
      SetSize(if m.data[0] & 0x02 != 0 then Le32(Padded(m), 0) else 0);
      var ok := ReserveRoom(memOk);
      if !ok { AbortRes(AC_NO_MEM); return; }
      SetAckseq(0);
      ArmTimer();
      SendFrame(StartUpReq);
      Enter(BlkUpSub);
    }

    /** Acknowledge the block if this was its last segment, and go on. */
    method BlkUpSubAck(seqno: nat, last: bool)
      requires Valid()
      modifies this`out, this`ackseq, this`timerOn, this`state
      ensures Valid() && Abs() == M.BlkUpSubAck(old(Abs()), seqno, last)
    {
      hide Abs;
      Members();
      if seqno == blksize || last {
        SendFrame(BlkUpSubRes(ackseq, blksize));
        SetAckseq(0);
      }
      ArmTimer();
      Enter(if last then BlkUpEnd else BlkUpSub);
    }

    /** Store the next segment of the block; a segment that is not the last must be full. */
    method TakeSub(m: Msg, last: bool) returns (ok: bool)
      requires Valid() && Frame(m) && Uploading(state) && upBuf.cur <= size <= upBuf.end
      modifies this`ackseq, upBuf`cur, upBuf.data
      ensures Valid() && upBuf.data == old(upBuf.data) && |old(Abs()).up| <= old(Abs()).size
      ensures var c := old(Abs());
              var n, c1 := SegBytes(c), c.(ackseq := c.ackseq + 1);
              ok == (last || n == 7) && Abs() == if ok then c1.(up := c.up + m.data[1..1 + n]) else c1
    {
      hide Abs, Loaded;
      Members();
      SetAckseq(ackseq + 1);
      var n := Min(size - upBuf.cur, 7);
      ok := last || n == 7;
      if !ok { return; }
      Store(m.data[1..1 + n]);
    }

    method BlkUpSubRecv(m: Msg)
      requires Valid() && Frame(m) && Uploading(state) && upBuf.cur <= size <= upBuf.end
      modifies this, upBuf, upBuf.data
      ensures Valid() && upBuf.data == old(upBuf.data) && |old(Abs()).up| <= old(Abs()).size
      ensures Abs() == M.BlkUpSubRecv(old(Abs()), m)
    {
      hide SeqOf, LastOf, M.AbortRes, M.AbortBy, M.BlkUpSubAck, Abs, Loaded;
      Members();
      if m.len < 1 { AbortRes(AC_NO_CS); return; }
      if m.data[0] == 0x80 { AbortBy(m); return; }
      var seqno, last := SeqOf(m.data[0]), LastOf(m.data[0]);
      if seqno == ackseq + 1 {
        var ok := TakeSub(m, last);
        if !ok { AbortRes(AC_TYPE_LEN_HI); return; }
      }
      BlkUpSubAck(seqno, last);
    }

    /** Compare the checksum of the frame with that of the data received, if a checksum was negotiated. */
    method CheckCrc(m: Msg) returns (ok: bool)
      requires Valid() && Frame(m) && upBuf.cur <= size <= upBuf.end && (size == 0 || upBuf.cur == size)
      ensures ok == (!crc || CrcMatches(Abs(), m))
    {
      hide Le16;
      if !crc { return true; }
      var r := Crc16.Crc(0, upBuf.data[..size]);
      assert upBuf.data[..size] == upBuf.Contents()[..Min(size, upBuf.cur)];
      return Le16(m.data, 1) == r as int;
    }

    method BlkUpEndRecv(m: Msg)
      requires Valid() && Frame(m) && upBuf.cur <= size <= upBuf.end
      modifies this`ac, this`timerOn, this`state, this`con, this`done, this`out
      ensures Valid() && Abs() == M.BlkUpEndRecv(old(Abs()), m, CrcMatches(old(Abs()), m))
    {
      hide SpecOf, SubOf, BlkUpTail, CrcMatches, M.AbortRes, M.AbortBy, M.AbortInd, Abs;
      Members();
      if m.len < 1 { AbortRes(AC_NO_CS); return; }
      match SpecOf(m.data[0]) {
        case BlkUpRes =>
        case AbortCs => AbortBy(m); return;
        case _ => AbortRes(AC_NO_CS); return;
      }
      if SubOf(m.data[0]) != 1 { AbortRes(AC_NO_CS); return; }
      if size != 0 && upBuf.cur != size { AbortRes(AC_TYPE_LEN_LO); return; }
      var n := if size != 0 then (size - 1) % 7 + 1 else 0;
      if BlkUpTail(m.data[0]) != n { AbortRes(AC_NO_CS); return; }
      var ok := CheckCrc(m);
      if !ok { AbortRes(AC_BLK_CRC); return; }
      SendFrame(BlkUpEndRes);
      AbortInd(0);
    }

    // ------------------------------------------------------------------ events

    method WaitRecv(m: Msg)
      requires Valid() && Frame(m)
      modifies this`ac, this`timerOn, this`state, this`con, this`done, this`out
      ensures Valid()
      ensures Abs() == if m.len < 1 then M.AbortRes(old(Abs()), AC_NO_CS)
                       else if SpecOf(m.data[0]).AbortCs? then M.AbortBy(old(Abs()), m) else old(Abs())
    {
      hide SpecOf, M.AbortRes, M.AbortBy, Abs;
      if m.len < 1 { AbortRes(AC_NO_CS); } else if SpecOf(m.data[0]).AbortCs? { AbortBy(m); }
    }

    /** A frame arrives; the receiver is active only where there is a handler. */
    method Recv(m: Msg, memOk: bool)
      requires Valid() && CsdoRuns.Inv(Abs()) && Frame(m) && recvOn
      modifies this, dnBuf`cur, upBuf, upBuf.data
      ensures Valid() && (upBuf.data == old(upBuf.data) || fresh(upBuf.data))
      ensures Abs() == M.OnRecv(old(Abs()), m, memOk) && CsdoRuns.Inv(Abs())
      ensures old(Downloading(state)) ==> upBuf.data == old(upBuf.data)
    {
      hide M.DnIniRecv, M.DnSegRecv, M.UpIniRecv, M.UpSegRecv, M.BlkDnIniRecv, M.BlkDnSubRecv, M.BlkDnEndRecv,
           M.BlkUpIniRecv, M.BlkUpSubRecv, M.BlkUpEndRecv, M.AbortRes, M.AbortBy, SpecOf, CrcMatches, CsdoRuns.Books, Abs;
      Members();
      CsdoRuns.RecvKeeps(Abs(), m, memOk);
      match state
      case Stopped => assert false;
      case Wait => WaitRecv(m);
      case DnIni => DnIniRecv(m);
      case DnSeg => DnSegRecv(m);
      case UpIni => UpIniRecv(m, memOk);
      case UpSeg => UpSegRecv(m);
      case BlkDnIni => BlkDnIniRecv(m);
      case BlkDnSub => BlkDnSubRecv(m);
      case BlkDnEnd => BlkDnEndRecv(m);
      case BlkUpIni => BlkUpIniRecv(m, memOk);
      case BlkUpSub => BlkUpSubRecv(m);
      case BlkUpEnd => BlkUpEndRecv(m);
    }

    /** The timer fires; it is armed only where there is a handler. */
    method Time()
      requires Valid() && CsdoRuns.Inv(Abs()) && timerOn
      modifies this`ac, this`timerOn, this`state, this`con, this`done, this`out
      ensures Valid() && Abs() == M.OnTime(old(Abs())) && CsdoRuns.Inv(Abs())
      ensures state.Wait? && con.NoCon? && !timerOn
      ensures done == old(if con.NoCon? then done else done + [Done(Asked(idx, subidx, con.UpCon?), AC_TIMEOUT, [])])
    {
      hide Abs, CsdoRuns.Inv, M.AbortRes;
      Members();
      CsdoRuns.ReactKeeps(Abs(), TimeE) by { CsdoRuns.InvParts(Abs()); }
      CsdoRuns.TimeMeans(Abs());
      StopTimer();
      AbortRes(AC_TIMEOUT);
      Members();
    }

    method Abort(code: nat)
      requires Valid()
      modifies this`ac, this`timerOn, this`state, this`con, this`done, this`out
      ensures Valid() && Abs() == M.Aborted(old(Abs()), code)
    {
      hide Abs, M.AbortRes;
      Members();
      if state.Stopped? || state.Wait? { return; }
      AbortRes(code);
    }

    /** Start a stopped client: it becomes idle, and listens exactly if its parameters are valid. */
    method Start(ok: bool)
      requires Valid() && CsdoRuns.Inv(Abs())
      modifies this
      ensures Valid() && Abs() == M.Started(old(Abs()), ok) && CsdoRuns.Inv(Abs())
      ensures old(state).Stopped? ==> state.Wait? && valid == recvOn == ok && out == old(out) && done == old(done)
      ensures !old(state).Stopped? ==> Abs() == old(Abs())
    {
      hide Abs, CsdoRuns.Inv, M.AbortRes;
      Members();
      CsdoRuns.InvParts(Abs());
      CsdoRuns.ReactKeeps(Abs(), StartE(ok));
      if !state.Stopped? { return; }
      SetValid(ok);
      Enter(Wait);
      Abort(AC_NO_SDO);
      SetReceiver(ok);
      Members();
    }

    /** Stop: no timer, no receiver, and whoever waited has been told. */
    method Stop()
      requires Valid() && CsdoRuns.Inv(Abs())
      modifies this
      ensures Valid() && Abs() == M.StoppedAfter(old(Abs())) && CsdoRuns.Inv(Abs())
      ensures state.Stopped? && con.NoCon? && !timerOn && !recvOn
      ensures done == old(if con.NoCon? then done else done + [Done(Asked(idx, subidx, con.UpCon?), AC_NO_SDO, [])])
    {
      hide Abs, CsdoRuns.Inv, M.Aborted;
      Members();
      CsdoRuns.ReactKeeps(Abs(), StopE) by { CsdoRuns.InvParts(Abs()); }
      CsdoRuns.StopMeans(Abs());
      if state.Stopped? { return; }
      Abort(AC_NO_SDO);
      StopTimer();
      SetReceiver(false);
      Enter(Stopped);
      Members();
    }

    /** New parameters: a transfer under the old ones is aborted. */
    method Update(ok: bool)
      requires Valid() && CsdoRuns.Inv(Abs()) && !state.Stopped?
      modifies this
      ensures Valid() && Abs() == M.Updated(old(Abs()), ok) && CsdoRuns.Inv(Abs())
      ensures state.Wait? && con.NoCon? && valid == recvOn == ok
      ensures done == old(if con.NoCon? then done else done + [Done(Asked(idx, subidx, con.UpCon?), AC_NO_SDO, [])])
    {
      hide Abs, CsdoRuns.Inv, M.Aborted;
      Members();
      CsdoRuns.ReactKeeps(Abs(), UpdateE(ok)) by { CsdoRuns.InvParts(Abs()); }
      CsdoRuns.UpdateMeans(Abs(), ok);
      SetValid(ok);
      Abort(AC_NO_SDO);
      SetReceiver(ok);
      Members();
    }

    /** Start a transfer; a download is of the first n bytes of `data`, which may be the client's own buffer. */
    method Request(kind: Kind, i: nat, j: nat, data: array<bv8>, n: nat, confirm: bool) returns (accepted: bool)
      requires Valid() && CsdoRuns.Inv(Abs()) && n <= data.Length
      modifies this, dnBuf, upBuf`cur
      ensures Valid() && CsdoRuns.Inv(Abs())
      ensures View() == M.RequestedFrom(old(View()), kind, i, j, data[..n], data == upBuf.data, confirm)
      ensures accepted == (old(valid) && old(state).Wait?)
    {
      hide Abs, CsdoRuns.Inv, M.Requested;
      CsdoRuns.RequestKeeps(Abs(), kind, i, j, data[..n], confirm);
      accepted := Submit(kind, i, j, data, n, confirm);
    }

    method Submit(kind: Kind, i: nat, j: nat, data: array<bv8>, n: nat, confirm: bool) returns (accepted: bool)
      requires Valid() && n <= data.Length
      modifies this, dnBuf, upBuf`cur
      ensures Valid()
      ensures View() == M.RequestedFrom(old(View()), kind, i, j, data[..n], data == upBuf.data, confirm)
      ensures accepted == (old(valid) && old(state).Wait?)
    {
      hide M.Begun, M.Launched, Abs, Loaded;
      Members();
      if !valid || !state.Wait? { return false; }
      accepted := true;
      Begin(kind, i, j, data, n, confirm);
      ArmTimer();
      Launch(kind, data, n);
    }

    /**
     Download a value by way of the client's own buffer.  If the buffer has to grow,
     the block it had is freed; `stale` is what that block holds from then on.
     */
    method RequestValue(w: M.Value) returns (accepted: bool)
      requires Valid()
      modifies this, dnBuf, upBuf, upBuf.data
      ensures Valid() && (upBuf.data == old(upBuf.data) || fresh(upBuf.data))
      ensures View() == M.ValueRequested(old(View()), w)
      ensures accepted == (old(valid) && old(state).Wait? && CanFill(old(Abs()), w.v, w.memOk))
    {
      hide M.RequestedFrom, M.Filled, CanFill, Abs, Loaded;
      accepted := FillOwn(w.v, w.memOk, w.stale);
      if accepted { accepted := Submit(if w.blk then Kind.BlkDn else Kind.Dn, w.idx, w.sub, upBuf.data, |w.v|, w.con); }
    }

    /** Send the request frame and wait for the response. */
    method Launch(kind: Kind, data: array<bv8>, n: nat)
      requires Valid() && n <= data.Length && (kind.Dn? || kind.BlkDn? ==> Loaded() && dn == data[..n])
      modifies this`state, this`out, this`pst, this`blksize, dnBuf`cur
      ensures Valid() && Abs() == M.Launched(old(Abs()), kind, data[..n]) && (Downloading(state) <==> kind.Dn? || kind.BlkDn?)
    {
      hide Abs, Loaded;
      Members();
      match kind
      case Dn => SendDnIni(); Enter(DnIni);
      case Up => SendFrame(UpIniReq(idx, subidx)); Enter(UpIni);
      case BlkDn => SendFrame(BlkDnIniReq(idx, subidx, n)); Enter(BlkDnIni);
      case BlkUp(p) => LaunchBlkUp(p);
    }

    method LaunchBlkUp(p: nat)
      requires Valid()
      modifies this`state, this`out, this`pst, this`blksize
      ensures Valid() && state.BlkUpIni?
      ensures var c := old(Abs());
              Abs() == M.Send(c, BlkUpIniReq(c.idx, c.sub, MAX_SEQNO, p)).(pst := p, blksize := MAX_SEQNO, phase := BlkUpIni)
    {
      hide Abs, Loaded;
      Members();
      SetPst(p);
      SetBlksize(MAX_SEQNO);
      SendFrame(BlkUpIniReq(idx, subidx, MAX_SEQNO, p));
      Enter(BlkUpIni);
    }

    method SendDnIni()
      requires Valid() && Loaded()
      modifies this`out, dnBuf`cur
      ensures Valid()
      ensures var c := old(Abs());
              Abs() == if 0 < |c.dn| <= 4 then M.Send(c, DnExpReq(c.idx, c.sub, c.dn)).(cur := |c.dn|)
                       else M.Send(c, DnIniReq(c.idx, c.sub, |c.dn|))
    {
      if 0 < dnBuf.end <= 4 {
        SendFrame(DnExpReq(idx, subidx, dnBuf.data[..dnBuf.end]));
        dnBuf.cur := dnBuf.end;
      } else {
        SendFrame(DnIniReq(idx, subidx, dnBuf.end));
      }
    }

    method Begin(kind: Kind, i: nat, j: nat, data: array<bv8>, n: nat, confirm: bool)
      requires Valid() && !Busy(state) && n <= data.Length
      modifies this`ac, this`idx, this`subidx, this`toggle, this`blksize, this`pst, this`ackseq, this`crc,
               this`con, this`asked, this`size, this`dn, dnBuf, upBuf`cur
      ensures Valid() && Abs() == M.Begun(old(Abs()), kind, i, j, data[..n], confirm)
      ensures kind.Dn? || kind.BlkDn? ==> dn == data[..n] && Loaded() && dnBuf.data == data
    {
      hide Abs, Loaded;
      var upload := kind.Up? || kind.BlkUp?;
      Clear(i, j);
      Ask(i, j, confirm, upload);
      if upload { BeginUp(); } else { BeginDn(data, n); }
    }

    method Clear(i: nat, j: nat)
      requires Valid()
      modifies this`ac, this`idx, this`subidx, this`toggle, this`blksize, this`pst, this`ackseq, this`crc
      ensures Abs() == old(Abs()).(ac := 0, idx := i, sub := j, toggle := false, pst := 0, blksize := 0, ackseq := 0, crc := false)
    {
      hide Abs;
      SetAc(0);
      SetObject(i, j);
      SetToggle(false);
      SetBlksize(0);
      SetPst(0);
      SetAckseq(0);
      SetCrc(false);
    }

    method Ask(i: nat, j: nat, confirm: bool, upload: bool)
      requires Valid()
      modifies this`con, this`asked
      ensures var c := old(Abs());
              Abs() == c.(con := if !confirm then NoCon else if upload then UpCon else DnCon,
                          asked := if confirm then c.asked + [Asked(i, j, upload)] else c.asked)
    {
      con := if !confirm then NoCon else if upload then UpCon else DnCon;
      if confirm { asked := asked + [Asked(i, j, upload)]; }
    }

    method BeginUp()
      requires Valid() && !Busy(state)
      modifies this`size, upBuf`cur
      ensures Valid() && Abs() == old(Abs()).(size := 0, up := [])
    {
      size := 0;
      upBuf.Clear();
    }

    method BeginDn(data: array<bv8>, n: nat)
      requires Valid() && !Busy(state) && n <= data.Length
      modifies this`size, this`dn, dnBuf
      ensures Valid() && Loaded() && dn == data[..n] && dnBuf.data == data
      ensures Abs() == old(Abs()).(size := n, dn := data[..n], cur := 0)
    {
      size := n;
      dnBuf.Init(data, n);
      dn := data[..n];
    }

    // -------------------------------------------------------------- the client's own buffer

    /** Write a value to the emptied buffer; false if there is no room. */
    method FillOwn(v: Bytes, memOk: bool, stale: Bytes) returns (ok: bool)
      requires Valid()
      modifies this`dn, upBuf, upBuf.data
      ensures Valid() && (upBuf.data == old(upBuf.data) || fresh(upBuf.data))
      ensures ok == CanFill(old(Abs()), v, memOk) && View() == M.Filled(old(View()), v, memOk, stale)
      ensures ok ==> |v| <= upBuf.data.Length && upBuf.data[..|v|] == v
    {
      hide Abs, Loaded, Own, Overlay;
      Members();
      ClearOwn();
      if |v| > upBuf.end {
        if !memOk { return false; }
        GrowOwn(|v|, stale);
        StoreOwn(v);
      } else {
        if upBuf.end == 0 { return false; }
        StoreOwn(v);
      }
      return true;
    }

    method ClearOwn()
      requires Valid()
      modifies upBuf`cur
      ensures Valid() && upBuf.cur == 0 && Abs() == old(Abs()).(up := [])
    {
      upBuf.Clear();
    }

    /** Reallocate the empty buffer; the old block now belongs to others. */
    method GrowOwn(n: nat, stale: Bytes)
      requires Valid() && upBuf.cur == 0 && n > upBuf.end
      modifies this`dn, upBuf`data, upBuf`end, upBuf.data
      ensures Valid() && fresh(upBuf.data) && upBuf.cur == 0 && n <= upBuf.end && !Own()
      ensures var c := old(Abs());
              Abs() == c.(room := Doubled(MEMBUF_SIZE, n), dn := if old(Own()) then Overlay(c.dn, stale) else c.dn)
    {
      var block := upBuf.data;
      ghost var mine := Own();
      var ok := upBuf.Reserve(n, true);
      Reuse(block, stale);
      if mine { dn := Overlay(dn, stale); }
    }

    /** Somebody else writes to a block. */
    method Reuse(block: array<bv8>, stale: Bytes)
      modifies block
      ensures forall n | 0 <= n <= block.Length :: block[..n] == Overlay(old(block[..n]), stale)
    {
      forall k | 0 <= k < Min(|stale|, block.Length) { block[k] := stale[k]; }
    }

    /** The value now is all the buffer holds. */
    method StoreOwn(v: Bytes)
      requires Valid() && upBuf.cur == 0 && |v| <= upBuf.end
      modifies this`dn, upBuf`cur, upBuf.data
      ensures Valid() && upBuf.data == old(upBuf.data) && Own() == old(Own())
      ensures var c := old(Abs()); Abs() == c.(up := v, dn := if Own() then Overlay(c.dn, v) else c.dn)
      ensures |v| <= upBuf.data.Length && upBuf.data[..|v|] == v
    {
      hide Overlay;
      WriteOwn(v);
      if Own() { dn := Overlay(dn, v); }
    }

    /** Write at the start of the emptied buffer; a download buffer over the same storage changes, too. */
    method WriteOwn(v: Bytes)
      requires Valid() && upBuf.cur == 0 && |v| <= upBuf.end
      modifies upBuf`cur, upBuf.data
      ensures upBuf.Valid() && upBuf.data == old(upBuf.data) && upBuf.Contents() == v && upBuf.data[..|v|] == v
      ensures dnBuf.data[..dnBuf.end] == if dnBuf.data == upBuf.data then Overlay(old(dnBuf.data[..dnBuf.end]), v)
                                         else old(dnBuf.data[..dnBuf.end])
    {
      ghost var was := upBuf.data[..];
      var n := upBuf.Write(v);
      assert v[..n] == v && upBuf.data[..n] == v && upBuf.data[n..] == was[n..];
      assert upBuf.data[..] == v + was[n..];
    }
  }
}
