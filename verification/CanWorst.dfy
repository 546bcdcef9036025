/**
 How many stuff bits a CAN frame can need: always one less than a bit string of its
 length could, because of the bits its format fixes and of its CRC.
 */
module CanWorst {
  import opened Gf2
  import opened BitStrings
  import opened Stuffing
  import opened CanMsg
  import CanCrc

  // ------------------------------------------------------------- what a stuff bit costs

  /** The bits that do not go towards a stuff bit: runs broken off, and the last one. */
  function Slack(b: seq<bool>, last: bool, run: nat): nat
    requires 1 <= run < 5
    decreases |b|
  {
    if b == [] then run - 1
    else if b[0] != last then run + Slack(b[1..], b[0], 1)
    else if run == 4 then Slack(b[1..], !last, 1) else Slack(b[1..], last, run + 1)
  }

  lemma {:induction false} CountSlack(b: seq<bool>, last: bool, run: nat)
    requires 1 <= run < 5
    ensures 4 * Count(b, last, run) + Slack(b, last, run) == |b| + run - 1
    decreases |b|
  {
    if b != [] {
      if b[0] != last { CountSlack(b[1..], b[0], 1); }
      else if run == 4 { CountSlack(b[1..], !last, 1); }
      else { CountSlack(b[1..], last, run + 1); }
    }
  }

  /** The slack from position i on, after `run` equal bits. */
  function From(t: seq<bool>, i: nat, last: bool, run: nat): nat
    requires i <= |t| && 1 <= run < 5
  {
    Slack(t[i..], last, run)
  }

  lemma Step(t: seq<bool>, i: nat, last: bool, run: nat)
    requires i < |t| && 1 <= run < 5
    ensures From(t, i, last, run)
            == if t[i] != last then run + From(t, i + 1, t[i], 1)
               else if run == 4 then From(t, i + 1, !last, 1) else From(t, i + 1, last, run + 1)
  {
    assert t[i..][1..] == t[i + 1..];
  }

  /** Four bits equal to p from position i on. */
  predicate Four(t: seq<bool>, i: nat, p: bool) { i + 4 <= |t| && t[i] == t[i + 1] == t[i + 2] == t[i + 3] == p }

  lemma FourSame(t: seq<bool>, i: nat, p: bool)
    requires Four(t, i, p)
    ensures From(t, i, p, 1) == From(t, i + 4, !p, 1)
  {
    hide From;
    Step(t, i, p, 1);
    Step(t, i + 1, p, 2);
    Step(t, i + 2, p, 3);
    Step(t, i + 3, p, 4);
  }

  /** Without slack the bits come in groups of four. */
  lemma NoSlack(t: seq<bool>, i: nat, p: bool)
    requires i + 4 <= |t| && From(t, i, p, 1) == 0
    ensures Four(t, i, p) && From(t, i + 4, !p, 1) == 0
  {
    hide From;
    Step(t, i, p, 1);
    Step(t, i + 1, p, 2);
    Step(t, i + 2, p, 3);
    Step(t, i + 3, p, 4);
  }

  /** With a slack of one, a group of four follows, or one single bit and then groups only. */
  lemma OneSlack(t: seq<bool>, i: nat, p: bool)
    requires i + 5 <= |t| && From(t, i, p, 1) <= 1
    ensures || (Four(t, i, p) && From(t, i + 4, !p, 1) <= 1)
            || (t[i] != p && From(t, i + 1, !p, 1) == 0)
  {
    hide From;
    Step(t, i, p, 1);
    if t[i] == p {
      Step(t, i + 1, p, 2);
      Step(t, i + 2, p, 3);
      Step(t, i + 3, p, 4);
    }
  }

  // ------------------------------------------------------------------- extended frames

  /** Behind the start of frame an extended frame has fixed bits at positions 11, 12, 32 and 33. */
  lemma ExtSlack(t: seq<bool>)
    requires |t| >= 53 && t[11] && t[12] && !t[32] && !t[33]
    ensures From(t, 0, false, 1) > 1
  {
    hide From;
    if From(t, 0, false, 1) <= 1 {
      OneSlack(t, 0, false);
      if t[0] {
        NoSlack(t, 1, true);
        NoSlack(t, 5, false);
        FromNine(t);
      } else {
        OneSlack(t, 4, true);
        if !t[4] {
          NoSlack(t, 5, false);
          FromNine(t);
        } else {
          OneSlack(t, 8, false);
          FromNine(t);
        }
      }
    }
  }

  /** Groups of four from position nine on have a one at position 33. */
  lemma FromNine(t: seq<bool>)
    requires |t| >= 53 && From(t, 9, true, 1) == 0
    ensures t[33]
  {
    hide From;
    NoSlack(t, 9, true);
    NoSlack(t, 13, false);
    NoSlack(t, 17, true);
    NoSlack(t, 21, false);
    NoSlack(t, 25, true);
    NoSlack(t, 29, false);
    NoSlack(t, 33, true);
  }

  // ----------------------------------------------------------------------- base frames

  /** Groups of four, after thirteen bits and one more zero. */
  predicate Grouped(t: seq<bool>) {
    && |t| >= 33 && Four(t, 0, false) && Four(t, 4, true) && Four(t, 8, false) && !t[12]
    && Four(t, 13, false) && Four(t, 17, true) && Four(t, 21, false) && Four(t, 25, true) && Four(t, 29, false)
    && From(t, 33, true, 1) == 0
  }

  /** Behind the start of frame a base frame has zeros at positions 12 and 13. */
  lemma StdSlack(t: seq<bool>)
    requires |t| >= 33 && !t[12] && !t[13] && From(t, 0, false, 1) <= 1
    ensures Grouped(t)
  {
    hide From;
    OneSlack(t, 0, false);
    if t[0] {
      NoSlack(t, 1, true);
      NoSlack(t, 5, false);
      NoSlack(t, 9, true);
    } else {
      OneSlack(t, 4, true);
      if !t[4] {
        NoSlack(t, 5, false);
        NoSlack(t, 9, true);
      } else {
        OneSlack(t, 8, false);
        if t[8] {
          NoSlack(t, 9, true);
        } else {
          OneSlack(t, 12, true);
          NoSlack(t, 13, false);
          NoSlack(t, 17, true);
          NoSlack(t, 21, false);
          NoSlack(t, 25, true);
          NoSlack(t, 29, false);
        }
      }
    }
  }

  /** The only frame, if any, that could attain the bound: its body in bytes, and one bit of its CRC. */
  predicate Only(b: seq<bool>) {
    && |b| == 42 && b[..3] == Zeros(3) && b[3..11] == ByteBits(0x3c) && b[11..19] == ByteBits(0x01) && b[19..27] == ByteBits(0xe1)
    && !b[32]
  }

  lemma FourBytes()
    ensures ByteBits(0x00) == Zeros(8) && ByteBits(0x3c) == [false, false, true, true, true, true, false, false]
    ensures ByteBits(0x01) == Zeros(7) + [true] && ByteBits(0xe1) == [true, true, true, false, false, false, false, true]
  {
  }

  lemma GroupedIs(b: seq<bool>)
    requires |b| == 42 && !b[0] && Grouped(b[1..])
    ensures Only(b)
  {
    hide From, ByteBits;
    FourBytes();
    var t := b[1..];
    assert forall k | 0 <= k < 41 :: t[k] == b[k + 1];
  }

  // -------------------------------------------------------------------- the CRC of bytes

  /** The table-driven checksum of a byte string. */
  function Table(crc: bv16, data: seq<bv8>): bv16
    decreases |data|
  {
    if data == [] then crc else Table(CanCrc.TableStep(crc, data[0]), data[1..])
  }

  lemma {:induction false} TableIs(crc: bv16, data: seq<bv8>)
    ensures CanCrc.Word(Table(crc, data)) == Serial(CanCrc.POLY, CanCrc.Word(crc), Unpack(data))
    decreases |data|
  {
    hide CanCrc.TableStep, ByteBits, CanCrc.Word, CanCrc.POLY;
    if data != [] {
      CanCrc.ByteStep(crc, data[0]);
      SerialConcat(CanCrc.POLY, CanCrc.Word(crc), ByteBits(data[0]), Unpack(data[1..]));
      TableIs(CanCrc.TableStep(crc, data[0]), data[1..]);
    }
  }

  /** Leading zeros leave a zero register alone. */
  lemma {:induction false} ZerosAside(n: nat)
    ensures Serial(CanCrc.POLY, Zeros(15), Zeros(n)) == Zeros(15)
  {
    hide CanCrc.POLY;
    if n > 0 {
      ZerosAside(n - 1);
      assert Zeros(n)[1..] == Zeros(n - 1);
      assert Clock(CanCrc.POLY, Zeros(15), false) == Zeros(15);
    }
  }

  /** The CRC of a frame whose header and payload are these bytes. */
  lemma CrcIs(m: Msg, data: seq<bv8>)
    requires Classic(m) && Zeros(Offset(m)) + Body(m) == Unpack(data)
    ensures FrameBits(m) == Body(m) + CanCrc.Word(Table(0, data))
  {
    hide Body, CanCrc.Word, CanCrc.POLY, Table, Unpack, Rem, Serial;
    RemainderOf(m);
    ZeroRegister();
    ZerosAside(Offset(m));
    SerialConcat(CanCrc.POLY, Zeros(15), Zeros(Offset(m)), Body(m));
    TableIs(0, data);
  }

  // --------------------------------------------------------------------- never attained

  lemma InHeader(m: Msg, k: nat)
    requires Classic(m) && k < |HeaderBits(m)|
    ensures k < |FrameBits(m)| && FrameBits(m)[k] == HeaderBits(m)[k]
  {
    hide HeaderBits, Unpack, Rem, CanCrc.POLY;
  }

  lemma StdBits(m: Msg)
    requires !Ide(m)
    ensures var h := HeaderBits(m);
            && |h| == 19 && !h[0] && h[12] == Rtr(m) && !h[13] && !h[14]
            && h[15] == (m.len & 0x08 != 0) && h[16] == (m.len & 0x04 != 0) && h[17] == (m.len & 0x02 != 0) && h[18] == (m.len & 0x01 != 0)
  {
    hide IdBits, Ident, Rtr;
  }

  lemma ExtBits(m: Msg)
    requires Ide(m)
    ensures var h := HeaderBits(m); |h| == 39 && !h[0] && h[12] && h[13] && !h[33] && !h[34]
  {
    hide IdBits, Ident, Rtr, LenBits;
  }

  lemma LenOne(len: bv8)
    requires len as int <= 8 && len & 0x08 == 0 && len & 0x04 == 0 && len & 0x02 == 0 && len & 0x01 != 0
    ensures len as int == 1
  {
    assert len <= 8;
    assert len == 1;
  }

  /** A base frame with a slack of at most one would be the only candidate. */
  lemma Candidate(m: Msg)
    requires Classic(m) && !Ide(m) && |FrameBits(m)| > 0 && From(FrameBits(m)[1..], 0, false, 1) <= 1
    ensures Only(FrameBits(m))
  {
    hide From, FrameBits, HeaderBits, Body, Ide, Rtr, Only, Fdf;
    var t := FrameBits(m)[1..];
    FrameSize(m);
    StdBits(m);
    InHeader(m, 0);
    InHeader(m, 12);
    InHeader(m, 13);
    InHeader(m, 14);
    InHeader(m, 15);
    InHeader(m, 16);
    InHeader(m, 17);
    InHeader(m, 18);
    StdSlack(t);
    Positions(FrameBits(m), t);
    LenOne(m.len);
    GroupedIs(FrameBits(m));
  }

  lemma Positions(b: seq<bool>, t: seq<bool>)
    requires |b| > 0 && t == b[1..] && Grouped(t)
    ensures !b[12] && !b[13] && !b[14] && !b[15] && !b[16] && !b[17] && b[18]
  {
    hide From;
  }

  /** One table step, read off the shift register. */
  lemma StepIs(crc: bv16, b: bv8, r: bv16)
    requires CanCrc.Low(CanCrc.Eight(Xor(crc, (b as bv16) << 7))) == r
    ensures CanCrc.TableStep(crc, b) == r
  {
    hide CanCrc.TableStep, CanCrc.Eight, CanCrc.Low, Xor;
    CanCrc.LookupStep(crc, b);
  }

  lemma TableCons(crc: bv16, b: bv8, data: seq<bv8>)
    ensures Table(crc, [b] + data) == Table(CanCrc.TableStep(crc, b), data)
  {
    hide CanCrc.TableStep;
    assert ([b] + data)[1..] == data;
  }

  const FOUR: seq<bv8> := [0x00, 0x3c, 0x01, 0xe1]

  lemma FourSteps()
    ensures CanCrc.TableStep(0, 0x00) == 0 && CanCrc.TableStep(0, 0x3c) == 0x5a71
    ensures CanCrc.TableStep(0x5a71, 0x01) == 0x38fc && CanCrc.TableStep(0x38fc, 0xe1) == 0x7384
  {
    hide CanCrc.TableStep;
    StepIs(0, 0x00, 0);
    StepIs(0, 0x3c, 0x5a71);
    StepIs(0x5a71, 0x01, 0x38fc);
    StepIs(0x38fc, 0xe1, 0x7384);
  }

  lemma FourCrc()
    ensures Table(0, FOUR) == 0x7384
  {
    hide CanCrc.TableStep;
    FourSteps();
    TableCons(0, 0x00, [0x3c, 0x01, 0xe1]);
    TableCons(0, 0x3c, [0x01, 0xe1]);
    TableCons(0x5a71, 0x01, [0xe1]);
    TableCons(0x38fc, 0xe1, []);
    assert FOUR == [0x00] + [0x3c, 0x01, 0xe1] && [0x3c, 0x01, 0xe1] == [0x3c] + [0x01, 0xe1];
    assert [0x01, 0xe1] == [0x01] + [0xe1] && [0xe1] == [0xe1] + [];
  }

  lemma Unpacked(b: seq<bool>)
    requires Only(b)
    ensures Zeros(5) + b[..27] == Unpack(FOUR)
  {
    hide ByteBits, Unpack;
    FourBytes();
    FourAre(0x00, 0x3c, 0x01, 0xe1);
    assert b[..27] == ((b[..3] + b[3..11]) + b[11..19]) + b[19..27];
    assert Zeros(5) + b[..3] == Zeros(8);
    Regroup(Zeros(5), b[..3], b[3..11], b[11..19], b[19..27]);
  }

  lemma FourAre(b0: bv8, b1: bv8, b2: bv8, b3: bv8)
    ensures Unpack([b0, b1, b2, b3]) == ByteBits(b0) + (ByteBits(b1) + (ByteBits(b2) + ByteBits(b3)))
  {
    hide ByteBits;
    ThreeBytes(b1, b2, b3);
    UnpackTwo(b0, [b1, b2, b3]);
    assert [b0] + [b1, b2, b3] == [b0, b1, b2, b3];
  }

  lemma Regroup(z: seq<bool>, a: seq<bool>, b: seq<bool>, c: seq<bool>, d: seq<bool>)
    ensures z + (((a + b) + c) + d) == (z + a) + (b + (c + d))
  {
  }

  lemma SixthBit()
    ensures CanCrc.Word(0x7384)[5]
  {
  }

  /** The candidate is no frame: its CRC is another one. */
  lemma NoCandidate(m: Msg)
    requires Classic(m) && !Ide(m)
    ensures !Only(FrameBits(m))
  {
    hide FrameBits, Body, Table, Unpack, CanCrc.Word, Ide, Rtr, Fdf;
    if Only(FrameBits(m)) {
      RemainderOf(m);
      BodyOf(m);
      Unpacked(FrameBits(m));
      FourCrc();
      CrcIs(m, FOUR);
      SixthBit();
    }
  }

  lemma BodyOf(m: Msg)
    requires Classic(m)
    ensures |Body(m)| <= |FrameBits(m)| && Body(m) == FrameBits(m)[..|Body(m)|]
  {
    hide Body, Rem, CanCrc.POLY;
  }

  /**
   Every classic frame needs at least one stuff bit less than a bit string of its
   length could: the exact size is smaller than the worst case.
   */
  lemma NeverWorst(m: Msg)
    requires Classic(m)
    ensures |Stuffed(FrameBits(m), false, 0)| + 1 <= |FrameBits(m)| + (|FrameBits(m)| - 1) / 4
  {
    hide FrameBits, Body, HeaderBits, Ide, Rtr, Fdf, Slack, Only;
    var b := FrameBits(m);
    FrameSize(m);
    StartOfFrame(m);
    CountIsExcess(b, false, 0);
    CountSlack(b[1..], false, 1);
    assert b[1..][0..] == b[1..];
    if Ide(m) {
      ExtBits(m);
      InHeader(m, 12);
      InHeader(m, 13);
      InHeader(m, 33);
      InHeader(m, 34);
      ExtSlack(b[1..]);
    } else if Slack(b[1..], false, 1) <= 1 {
      Candidate(m);
      NoCandidate(m);
    }
  }

  // ------------------------------------------------------------------------- one less

  /** A base frame with seven data bytes. */
  const SEVEN: Msg := Msg(0x01f, 0, 7, [0x87, 0x87, 0xc1, 0xe1, 0xe1, 0xe1, 0xe1, 0x00])

  /** Padding, header and payload in bytes. */
  const TEN: seq<bv8> := [0x00, 0x0f, 0x87, 0x87, 0x87, 0xc1, 0xe1, 0xe1, 0xe1, 0xe1]

  lemma TenSteps()
    ensures CanCrc.TableStep(0, 0x00) == 0
    ensures CanCrc.TableStep(0, 0x0f) == 0x27fa
    ensures CanCrc.TableStep(0x27fa, 0x87) == 0x5fd1
    ensures CanCrc.TableStep(0x5fd1, 0x87) == 0x53be
    ensures CanCrc.TableStep(0x53be, 0x87) == 0x652e
    ensures CanCrc.TableStep(0x652e, 0xc1) == 0x5135
    ensures CanCrc.TableStep(0x5135, 0xe1) == 0x4df7
    ensures CanCrc.TableStep(0x4df7, 0xe1) == 0x48d0
    ensures CanCrc.TableStep(0x48d0, 0xe1) == 0x557c
    ensures CanCrc.TableStep(0x557c, 0xe1) == 0x70f0
  {
    hide CanCrc.TableStep;
    StepIs(0, 0x00, 0);
    StepIs(0, 0x0f, 0x27fa);
    StepIs(0x27fa, 0x87, 0x5fd1);
    StepIs(0x5fd1, 0x87, 0x53be);
    StepIs(0x53be, 0x87, 0x652e);
    StepIs(0x652e, 0xc1, 0x5135);
    StepIs(0x5135, 0xe1, 0x4df7);
    StepIs(0x4df7, 0xe1, 0x48d0);
    StepIs(0x48d0, 0xe1, 0x557c);
    StepIs(0x557c, 0xe1, 0x70f0);
  }

  lemma TenCrc()
    ensures Table(0, TEN) == 0x70f0
  {
    hide CanCrc.TableStep;
    TenSteps();
    assert TEN[0..] == TEN && TEN[10..] == [];
    assert TEN[0..] == [0x00] + TEN[1..];
    TableCons(0, 0x00, TEN[1..]);
    assert TEN[1..] == [0x0f] + TEN[2..];
    TableCons(0, 0x0f, TEN[2..]);
    assert TEN[2..] == [0x87] + TEN[3..];
    TableCons(0x27fa, 0x87, TEN[3..]);
    assert TEN[3..] == [0x87] + TEN[4..];
    TableCons(0x5fd1, 0x87, TEN[4..]);
    assert TEN[4..] == [0x87] + TEN[5..];
    TableCons(0x53be, 0x87, TEN[5..]);
    assert TEN[5..] == [0xc1] + TEN[6..];
    TableCons(0x652e, 0xc1, TEN[6..]);
    assert TEN[6..] == [0xe1] + TEN[7..];
    TableCons(0x5135, 0xe1, TEN[7..]);
    assert TEN[7..] == [0xe1] + TEN[8..];
    TableCons(0x4df7, 0xe1, TEN[8..]);
    assert TEN[8..] == [0xe1] + TEN[9..];
    TableCons(0x48d0, 0xe1, TEN[9..]);
    assert TEN[9..] == [0xe1] + TEN[10..];
    TableCons(0x557c, 0xe1, TEN[10..]);
  }

  lemma SevenHeader()
    ensures Classic(SEVEN) && !Ide(SEVEN) && !Rtr(SEVEN) && HeaderBytes(SEVEN) == [0x00, 0x0f, 0x87]
    ensures Payload(SEVEN) == [0x87, 0x87, 0xc1, 0xe1, 0xe1, 0xe1, 0xe1]
  {
  }

  lemma SevenBody()
    ensures Classic(SEVEN) && Offset(SEVEN) == 5 && Zeros(5) + Body(SEVEN) == Unpack(TEN)
  {
    hide HeaderBytes, HeaderBits, Unpack, Payload, Ide, Rtr;
    SevenHeader();
    HeaderIs(SEVEN);
    UnpackConcat(HeaderBytes(SEVEN), Payload(SEVEN));
    assert HeaderBytes(SEVEN) + Payload(SEVEN) == TEN;
    assert Zeros(5) + Body(SEVEN) == (Zeros(5) + HeaderBits(SEVEN)) + Unpack(Payload(SEVEN));
  }

  /** Eight bits of a byte string. */
  lemma EightAt(u: seq<bool>, n: nat, l: seq<bool>)
    requires |l| == 8 && n + 8 <= |u| && u[n..n + 8] == l
    ensures u[n] == l[0] && u[n + 1] == l[1] && u[n + 2] == l[2] && u[n + 3] == l[3]
    ensures u[n + 4] == l[4] && u[n + 5] == l[5] && u[n + 6] == l[6] && u[n + 7] == l[7]
  {
  }

  lemma ByteAt(data: seq<bv8>, j: nat)
    requires j < |data|
    ensures Unpack(data)[8 * j..8 * j + 8] == ByteBits(data[j])
  {
    hide Unpack, ByteBits;
    UnpackMiddle(data, j, [data[j]]);
    UnpackOne(data[j]);
  }

  lemma MoreBytes()
    ensures ByteBits(0x0f) == [false, false, false, false, true, true, true, true]
    ensures ByteBits(0x87) == [true, false, false, false, false, true, true, true]
    ensures ByteBits(0xc1) == [true, true, false, false, false, false, false, true]
  {
  }

  lemma CrcHalves()
    ensures CrcHigh(0x70f0) == 0xe1 && CrcLow(0x70f0) == 0xe0
    ensures ByteBits(0xe0) == [true, true, true, false, false, false, false, false]
  {
  }

  /** The frame, padded: the bytes and those of the CRC. */
  lemma Padded(b: seq<bool>)
    requires |b| == 90 && Zeros(5) + b == Unpack(TEN) + CanCrc.Word(0x70f0)
    ensures |Unpack(TEN + [0xe1, 0xe0])| == 96 && forall i | 0 <= i < 89 :: b[1..][i] == Unpack(TEN + [0xe1, 0xe0])[i + 6]
  {
    hide Unpack, ByteBits, CanCrc.Word, CrcHigh, CrcLow, TEN;
    CrcHalves();
    CrcBytesAre(0x70f0);
    UnpackConcat(TEN, [0xe1, 0xe0]);
    var u := Unpack(TEN + [0xe1, 0xe0]);
    assert u[..95] == Unpack(TEN) + Unpack([0xe1, 0xe0])[..15];
    forall i | 0 <= i < 89 ensures b[1..][i] == u[i + 6] { assert u[..95][i + 6] == (Zeros(5) + b)[i + 6] == b[i + 1]; }
  }

  /** Groups of four with the value of the first given. */
  predicate Alternate(t: seq<bool>, i: nat, p: bool, k: nat)
    decreases k
  {
    k == 0 || (Four(t, i, p) && Alternate(t, i + 4, !p, k - 1))
  }

  lemma {:induction false} AlternateCost(t: seq<bool>, i: nat, p: bool, k: nat)
    requires Alternate(t, i, p, k) && i + 4 * k == |t|
    ensures From(t, i, p, 1) == 0
    decreases k
  {
    hide From;
    if k > 0 {
      FourSame(t, i, p);
      AlternateCost(t, i + 4, !p, k - 1);
    } else {
      EndCost(t, p);
    }
  }

  lemma EndCost(t: seq<bool>, p: bool)
    ensures From(t, |t|, p, 1) == 0
  {
  }

  /** The bits of the frame behind its start, up to the sixth data byte and from there on. */
  predicate SevenBits(t: seq<bool>) { |t| == 89 && FrontBits(t) && BackBits(t) }

  predicate FrontBits(t: seq<bool>) {
    && |t| > 41 && Four(t, 0, false) && !t[4] && !t[5] && t[6]
    && Four(t, 7, true) && Four(t, 11, false) && Four(t, 15, true) && Four(t, 19, false) && Four(t, 23, true)
    && Four(t, 27, false) && Four(t, 31, true) && t[35] && !t[36] && Four(t, 37, false)
  }

  predicate BackBits(t: seq<bool>) {
    && Four(t, 41, true) && Four(t, 45, false) && Four(t, 49, true) && Four(t, 53, false) && Four(t, 57, true) && Four(t, 61, false)
    && Four(t, 65, true) && Four(t, 69, false) && Four(t, 73, true) && Four(t, 77, false) && Four(t, 81, true) && Four(t, 85, false)
  }

  /** The bits of byte j of the padded frame. */
  lemma ByteOfFrame(t: seq<bool>, data: seq<bv8>, j: nat, l: seq<bool>)
    requires |t| == 89 && |data| == 12 && forall i | 0 <= i < 89 :: t[i] == Unpack(data)[i + 6]
    requires 1 <= j <= 10 && l == ByteBits(data[j])
    ensures var n := 8 * j - 6;
            && t[n] == l[0] && t[n + 1] == l[1] && t[n + 2] == l[2] && t[n + 3] == l[3]
            && t[n + 4] == l[4] && t[n + 5] == l[5] && t[n + 6] == l[6] && t[n + 7] == l[7]
  {
    hide Unpack, ByteBits;
    ByteAt(data, j);
    EightAt(Unpack(data), 8 * j, l);
  }

  lemma EndsOfFrame(t: seq<bool>, data: seq<bv8>, a: seq<bool>, l: seq<bool>)
    requires |t| == 89 && |data| == 12 && forall i | 0 <= i < 89 :: t[i] == Unpack(data)[i + 6]
    requires a == ByteBits(data[0]) && l == ByteBits(data[11])
    ensures t[0] == a[6] && t[1] == a[7]
    ensures t[82] == l[0] && t[83] == l[1] && t[84] == l[2] && t[85] == l[3] && t[86] == l[4] && t[87] == l[5] && t[88] == l[6]
  {
    hide Unpack, ByteBits;
    ByteAt(data, 0);
    EightAt(Unpack(data), 0, a);
    ByteAt(data, 11);
    EightAt(Unpack(data), 88, l);
  }

  lemma FrontAre(t: seq<bool>, data: seq<bv8>)
    requires |t| == 89 && data == TEN + [0xe1, 0xe0] && forall i | 0 <= i < 89 :: t[i] == Unpack(data)[i + 6]
    ensures FrontBits(t)
  {
    hide Unpack, ByteBits;
    FourBytes();
    MoreBytes();
    EndsOfFrame(t, data, ByteBits(data[0]), ByteBits(data[11]));
    ByteOfFrame(t, data, 1, ByteBits(0x0f));
    ByteOfFrame(t, data, 2, ByteBits(0x87));
    ByteOfFrame(t, data, 3, ByteBits(0x87));
    ByteOfFrame(t, data, 4, ByteBits(0x87));
    ByteOfFrame(t, data, 5, ByteBits(0xc1));
    ByteOfFrame(t, data, 6, ByteBits(0xe1));
  }

  lemma BackAre(t: seq<bool>, data: seq<bv8>)
    requires |t| == 89 && data == TEN + [0xe1, 0xe0] && forall i | 0 <= i < 89 :: t[i] == Unpack(data)[i + 6]
    ensures BackBits(t)
  {
    hide Unpack, ByteBits;
    FourBytes();
    MoreBytes();
    CrcHalves();
    ByteOfFrame(t, data, 5, ByteBits(0xc1));
    ByteOfFrame(t, data, 6, ByteBits(0xe1));
    ByteOfFrame(t, data, 7, ByteBits(0xe1));
    ByteOfFrame(t, data, 8, ByteBits(0xe1));
    ByteOfFrame(t, data, 9, ByteBits(0xe1));
    ByteOfFrame(t, data, 10, ByteBits(0xe1));
    EndsOfFrame(t, data, ByteBits(data[0]), ByteBits(0xe0));
  }

  lemma SevenAre(b: seq<bool>)
    requires |b| == 90 && Zeros(5) + b == Unpack(TEN) + CanCrc.Word(0x70f0)
    ensures SevenBits(b[1..])
  {
    hide Unpack, CanCrc.Word, FrontBits, BackBits, TEN;
    Padded(b);
    FrontAre(b[1..], TEN + [0xe1, 0xe0]);
    BackAre(b[1..], TEN + [0xe1, 0xe0]);
  }

  lemma SevenSlack(t: seq<bool>)
    requires SevenBits(t)
    ensures From(t, 0, false, 1) == 5
  {
    hide From;
    FourSame(t, 0, false);
    Step(t, 4, true, 1);
    Step(t, 5, false, 1);
    Step(t, 6, false, 2);
    FourSame(t, 7, true);
    FourSame(t, 11, false);
    FourSame(t, 15, true);
    FourSame(t, 19, false);
    FourSame(t, 23, true);
    FourSame(t, 27, false);
    FourSame(t, 31, true);
    Step(t, 35, false, 1);
    Step(t, 36, true, 1);
    FourSame(t, 37, false);
    GroupsEnd(t);
    AlternateCost(t, 41, true, 12);
  }

  lemma GroupsEnd(t: seq<bool>)
    requires SevenBits(t)
    ensures Alternate(t, 41, true, 12)
  {
    hide Four;
    assert Alternate(t, 65, true, 6) by { assert Alternate(t, 77, false, 3); }
    assert Alternate(t, 53, false, 9);
  }

  /** One less than the worst case is attained, by a base frame with seven data bytes. */
  lemma OneLess()
    ensures Classic(SEVEN)
    ensures |Stuffed(FrameBits(SEVEN), false, 0)| + 1 == |FrameBits(SEVEN)| + (|FrameBits(SEVEN)| - 1) / 4
  {
    hide FrameBits, Body, Slack, Table, Unpack, CanCrc.Word, SevenBits;
    var b := FrameBits(SEVEN);
    SevenBody();
    TenCrc();
    CrcIs(SEVEN, TEN);
    assert |b| == 90;
    assert Zeros(5) + b == (Zeros(5) + Body(SEVEN)) + CanCrc.Word(0x70f0);
    SevenAre(b);
    SevenSlack(b[1..]);
    StartOfFrame(SEVEN);
    CountIsExcess(b, false, 0);
    CountSlack(b[1..], false, 1);
    assert b[1..][0..] == b[1..];
  }
}
