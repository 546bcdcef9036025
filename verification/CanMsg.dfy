/** The size in bits of a CAN frame: assembling the frame, its CRC and its stuff bits. */
module CanMsg {
  import opened Gf2
  import opened BitStrings
  import opened Stuffing
  import opened StuffCount
  import CanCrc

  datatype Msg = Msg(id: bv32, flags: bv8, len: bv8, data: seq<bv8>)

  predicate Ide(m: Msg) { m.flags & 0x01 != 0 }
  predicate Rtr(m: Msg) { m.flags & 0x02 != 0 }
  predicate Fdf(m: Msg) { m.flags & 0x04 != 0 }

  datatype Mode = NoStuff | Worst | Exact | Unknown

  /** The storage behind a message always has room for a classic payload. */
  predicate Storage(m: Msg) { 8 <= |m.data| }

  predicate Classic(m: Msg) { !Fdf(m) && m.len as int <= 8 && Storage(m) }

  // -------------------------------------------------------------- the frame's bits

  predicate IdBit(id: bv32, k: nat)
    requires k < 32
  {
    (id >> k) & 1 == 1
  }

  /** n identifier bits from bit hi downwards. */
  function IdBits(id: bv32, hi: int, n: nat): (s: seq<bool>)
    requires n <= hi + 1 <= 32
    ensures |s| == n
    decreases n
  {
    if n == 0 then [] else [IdBit(id, hi)] + IdBits(id, hi - 1, n - 1)
  }

  /** The data length code. */
  function LenBits(len: bv8): (s: seq<bool>)
    ensures |s| == 4
  {
    [len & 0x08 != 0, len & 0x04 != 0, len & 0x02 != 0, len & 0x01 != 0]
  }

  /** The identifier: 29 or 11 bits. */
  function Ident(m: Msg): bv32 { m.id & if Ide(m) then 0x1fff_ffff else 0x07ff }

  /** Start of frame, arbitration and control field. */
  function HeaderBits(m: Msg): seq<bool> {
    var id := Ident(m);
    if Ide(m) then
      [false] + IdBits(id, 28, 11) + [true, true] + IdBits(id, 17, 18) + [Rtr(m), false, false] + LenBits(m.len)
    else
      [false] + IdBits(id, 10, 11) + [Rtr(m), false, false] + LenBits(m.len)
  }

  /** The payload; remote frames have none. */
  function Payload(m: Msg): seq<bv8>
    requires Classic(m)
  {
    if Rtr(m) then [] else m.data[..m.len as int]
  }

  function Body(m: Msg): seq<bool>
    requires Classic(m)
  {
    HeaderBits(m) + Unpack(Payload(m))
  }

  /** The part of the frame that is subject to bit stuffing: the body and its CRC. */
  function FrameBits(m: Msg): seq<bool>
    requires Classic(m)
  {
    Body(m) + Rem(CanCrc.POLY, Body(m) + Zeros(15))
  }

  // --------------------------------------------------------------- header bytes

  function Ext0(id: bv32): bv8 { ((id >> 23) & 0x3f) as bv8 }
  function Ext1(id: bv32): bv8 { (((id >> 15) & 0xf8) | (0x03 << 1) | ((id >> 17) & 0x01)) as bv8 }
  function Ext2(id: bv32): bv8 { ((id >> 9) & 0xff) as bv8 }
  function Low8(id: bv32): bv8 { ((id >> 1) & 0xff) as bv8 }
  function Std0(id: bv32): bv8 { ((id >> 9) & 0x03) as bv8 }
  function Last(id: bv32, rtr: bool, len: bv8): bv8 {
    (((id << 7) & 0x80) as bv8) | (if rtr then 0x40 else 0x00) | (len & 0x0f)
  }

  function Offset(m: Msg): nat { if Ide(m) then 1 else 5 }

  function HeaderBytes(m: Msg): seq<bv8> {
    var id := Ident(m);
    if Ide(m) then
      [Ext0(id), Ext1(id), Ext2(id), Low8(id), Last(id, Rtr(m), m.len)]
    else
      [Std0(id), Low8(id), Last(id, Rtr(m), m.len)]
  }

  lemma Ext1Bits(id: bv32)
    ensures var b := Ext1(id);
            && ByteBit(b, 0) == IdBit(id, 22) && ByteBit(b, 1) == IdBit(id, 21) && ByteBit(b, 2) == IdBit(id, 20) && ByteBit(b, 3) == IdBit(id, 19)
            && ByteBit(b, 4) == IdBit(id, 18) && ByteBit(b, 5) && ByteBit(b, 6) && ByteBit(b, 7) == IdBit(id, 17)
  {
  }

  lemma LastBits(id: bv32, rtr: bool, len: bv8)
    requires len <= 8
    ensures var b := Last(id, rtr, len);
            && ByteBit(b, 0) == IdBit(id, 0) && ByteBit(b, 1) == rtr && !ByteBit(b, 2) && !ByteBit(b, 3)
            && ByteBit(b, 4) == (len & 0x08 != 0) && ByteBit(b, 5) == (len & 0x04 != 0) && ByteBit(b, 6) == (len & 0x02 != 0) && ByteBit(b, 7) == (len & 0x01 != 0)
  {
  }

  // ------------------------------------------------------- header bytes as bits

  lemma {:induction false} IdAt(id: bv32, hi: int, n: nat)
    requires n <= hi + 1 <= 32
    ensures forall k | 0 <= k < n :: IdBits(id, hi, n)[k] == IdBit(id, hi - k)
    decreases n
  {
    hide IdBit;
    if n > 0 {
      IdAt(id, hi - 1, n - 1);
      forall k | 0 <= k < n ensures IdBits(id, hi, n)[k] == IdBit(id, hi - k) {
        if k > 0 { assert IdBits(id, hi, n)[k] == IdBits(id, hi - 1, n - 1)[k - 1]; }
      }
    }
  }

  lemma {:induction false} IdSplit(id: bv32, hi: int, n: nat, k: nat)
    requires k <= n <= hi + 1 <= 32
    ensures IdBits(id, hi, n) == IdBits(id, hi, k) + IdBits(id, hi - k, n - k)
    decreases n
  {
    hide IdBit;
    if k > 0 { IdSplit(id, hi - 1, n - 1, k - 1); }
  }

  lemma MaskedByte(b: bv8)
    ensures ByteBits(b) == [ByteBit(b, 0), ByteBit(b, 1), ByteBit(b, 2), ByteBit(b, 3),
                            ByteBit(b, 4), ByteBit(b, 5), ByteBit(b, 6), ByteBit(b, 7)]
  {
    hide ByteBit, Wide, Bits;
    MaskTopSeq(b);
  }

  lemma Ext0Seq(id: bv32)
    ensures ByteBits(Ext0(id)) == [false, false] + IdBits(id, 28, 6)
  {
  }

  lemma Ext1Seq(id: bv32)
    ensures ByteBits(Ext1(id)) == IdBits(id, 22, 5) + [true, true] + IdBits(id, 17, 1)
  {
    hide ByteBit, ByteBits, IdBit, Ext1, IdBits;
    Ext1Bits(id);
    MaskedByte(Ext1(id));
    IdAt(id, 22, 5);
    IdAt(id, 17, 1);
  }

  lemma Ext2Seq(id: bv32)
    ensures ByteBits(Ext2(id)) == IdBits(id, 16, 8)
  {
  }

  lemma Low8Seq(id: bv32)
    ensures ByteBits(Low8(id)) == IdBits(id, 8, 8)
  {
  }

  lemma Std0Seq(id: bv32)
    ensures ByteBits(Std0(id)) == Zeros(5) + [false] + IdBits(id, 10, 2)
  {
  }

  lemma LastSeq(id: bv32, rtr: bool, len: bv8)
    requires len <= 8
    ensures ByteBits(Last(id, rtr, len)) == IdBits(id, 0, 1) + [rtr, false, false] + LenBits(len)
  {
    hide ByteBit, ByteBits, IdBit, Last, IdBits;
    LastBits(id, rtr, len);
    MaskedByte(Last(id, rtr, len));
    IdAt(id, 0, 1);
  }

  lemma UnpackTwo(b: bv8, rest: seq<bv8>)
    ensures Unpack([b] + rest) == ByteBits(b) + Unpack(rest)
  {
  }

  /** The header bytes are padding followed by the header's bits. */
  lemma HeaderIs(m: Msg)
    requires m.len <= 8
    ensures Unpack(HeaderBytes(m)) == Zeros(Offset(m)) + HeaderBits(m)
  {
    hide Ext0, Ext1, Ext2, Low8, Std0, Last, Unpack, IdBits, LenBits, ByteBits;
    if Ide(m) { ExtHeader(m); } else { StdHeader(m); }
  }

  lemma ExtHeader(m: Msg)
    requires m.len <= 8 && Ide(m)
    ensures Unpack(HeaderBytes(m)) == Zeros(Offset(m)) + HeaderBits(m)
  {
    hide Ext0, Ext1, Ext2, Low8, Std0, Last, Unpack, IdBits, LenBits, ByteBits, Ide, Rtr, Ident;
    var id := Ident(m);
    var b0, b1, b2, b3, b4 := Ext0(id), Ext1(id), Ext2(id), Low8(id), Last(id, Rtr(m), m.len);
    FiveBytes(b0, b1, b2, b3, b4);
    Ext0Seq(id);
    Ext1Seq(id);
    Ext2Seq(id);
    Low8Seq(id);
    LastSeq(id, Rtr(m), m.len);
    IdSplit(id, 28, 11, 6);
    IdSplit(id, 17, 18, 1);
    IdSplit(id, 16, 17, 8);
    IdSplit(id, 8, 9, 8);
    assert Zeros(1) == [false];
    JoinExt(IdBits(id, 28, 6), IdBits(id, 22, 5), IdBits(id, 17, 1), IdBits(id, 16, 8), IdBits(id, 8, 8), IdBits(id, 0, 1),
            [Rtr(m), false, false], LenBits(m.len));
  }

  lemma JoinExt(a: seq<bool>, b: seq<bool>, c: seq<bool>, d: seq<bool>, e: seq<bool>, f: seq<bool>, t: seq<bool>, l: seq<bool>)
    ensures ([false, false] + a) + (b + [true, true] + c) + d + e + (f + t + l)
            == [false] + ([false] + (a + b) + [true, true] + (c + (d + (e + f))) + t + l)
  {
  }

  lemma JoinStd(z: seq<bool>, a: seq<bool>, b: seq<bool>, c: seq<bool>, t: seq<bool>, l: seq<bool>)
    ensures (z + [false] + a) + b + (c + t + l) == z + ([false] + (a + (b + c)) + t + l)
  {
  }

  lemma StdHeader(m: Msg)
    requires m.len <= 8 && !Ide(m)
    ensures Unpack(HeaderBytes(m)) == Zeros(Offset(m)) + HeaderBits(m)
  {
    hide Ext0, Ext1, Ext2, Low8, Std0, Last, Unpack, IdBits, LenBits, ByteBits, Ide, Rtr, Ident;
    var id := Ident(m);
    var b0, b1, b2 := Std0(id), Low8(id), Last(id, Rtr(m), m.len);
    ThreeBytes(b0, b1, b2);
    Std0Seq(id);
    Low8Seq(id);
    LastSeq(id, Rtr(m), m.len);
    IdSplit(id, 10, 11, 2);
    IdSplit(id, 8, 9, 8);
    JoinStd(Zeros(5), IdBits(id, 10, 2), IdBits(id, 8, 8), IdBits(id, 0, 1), [Rtr(m), false, false], LenBits(m.len));
  }

  lemma ThreeBytes(b0: bv8, b1: bv8, b2: bv8)
    ensures Unpack([b0, b1, b2]) == ByteBits(b0) + ByteBits(b1) + ByteBits(b2)
  {
    hide ByteBits;
    UnpackTwo(b0, [b1, b2]);
    UnpackTwo(b1, [b2]);
    UnpackOne(b2);
    assert [b0] + [b1, b2] == [b0, b1, b2] && [b1] + [b2] == [b1, b2];
  }

  lemma FiveBytes(b0: bv8, b1: bv8, b2: bv8, b3: bv8, b4: bv8)
    ensures Unpack([b0, b1, b2, b3, b4]) == ByteBits(b0) + ByteBits(b1) + ByteBits(b2) + ByteBits(b3) + ByteBits(b4)
  {
    hide ByteBits;
    ThreeBytes(b2, b3, b4);
    UnpackTwo(b1, [b2, b3, b4]);
    UnpackTwo(b0, [b1, b2, b3, b4]);
    assert [b1] + [b2, b3, b4] == [b1, b2, b3, b4] && [b0] + [b1, b2, b3, b4] == [b0, b1, b2, b3, b4];
  }

  // ------------------------------------------------------------------- CRC bytes

  function CrcHigh(crc: bv16): bv8 { ((crc >> 7) & 0xff) as bv8 }
  function CrcLow(crc: bv16): bv8 { ((crc << 1) & 0xff) as bv8 }

  function Narrow(b: bv8): bv16 { b as bv16 }

  lemma CrcWords(crc: bv16)
    ensures Twice(crc) == Xor(Wide(CrcHigh(crc)), Narrow(CrcLow(crc)))
    ensures (Twice(crc) << 4) << 4 == Wide(CrcLow(crc))
  {
  }

  lemma HighHalf(x: bv16, h: bv8, l: bv8)
    requires x == Xor(Wide(h), Narrow(l))
    ensures Bits(x, 8) == ByteBits(h)
  {
  }

  lemma LowHalf(x: bv16, l: bv8)
    requires (x << 4) << 4 == Wide(l)
    ensures Bits(Up(x, 8), 8) == ByteBits(l)
  {
  }

  /** The two CRC bytes hold the fifteen CRC bits and one zero. */
  lemma CrcBytesAre(crc: bv16)
    ensures Unpack([CrcHigh(crc), CrcLow(crc)])[..15] == CanCrc.Word(crc)
  {
    hide CrcHigh, CrcLow, Top, Xor, Wide, Twice, Narrow, Bits, ByteBits, Up;
    var x, h, l := Twice(crc), CrcHigh(crc), CrcLow(crc);
    CrcWords(crc);
    HighHalf(x, h, l);
    LowHalf(x, l);
    BitsSplit(x, 16, 8);
    BitsLast(x, 15);
    UnpackTwo(h, [l]);
    UnpackOne(l);
    assert [h] + [l] == [h, l];
  }

  // ---------------------------------------------------------------- frame buffer

  /** Write the header and return how many bytes it takes. */
  method PutHeader(m: Msg, data: array<bv8>) returns (n: nat)
    requires data.Length == 16
    modifies data
    ensures n == |HeaderBytes(m)| && data[..n] == HeaderBytes(m)
  {
    hide Ide, Rtr, Ident, Ext0, Ext1, Ext2, Low8, Std0, Last;
    var id := Ident(m);
    n := 0;
    if Ide(m) {
      data[0], data[1], data[2], data[3] := Ext0(id), Ext1(id), Ext2(id), Low8(id);
      n := 4;
    } else {
      data[0], data[1] := Std0(id), Low8(id);
      n := 2;
    }
    data[n] := Last(id, Rtr(m), m.len);
    n := n + 1;
  }

  /** Write len bytes at position at. */
  method PutBytes(src: seq<bv8>, len: nat, data: array<bv8>, at: nat)
    requires len <= |src| && at + len <= data.Length
    modifies data
    ensures data[..at] == old(data[..at]) && data[at..at + len] == src[..len]
  {
    var i := 0;
    while i < len
      invariant 0 <= i <= len
      invariant data[..at] == old(data[..at]) && data[at..at + i] == src[..i]
    {
      data[at + i] := src[i];
      i := i + 1;
    }
  }

  /** Write header and payload. */
  method PutBody(m: Msg, data: array<bv8>) returns (n: nat)
    requires Classic(m) && data.Length == 16
    modifies data
    ensures n == |HeaderBytes(m)| + |Payload(m)| <= 13 && data[..n] == HeaderBytes(m) + Payload(m)
  {
    hide Ide, Rtr, HeaderBytes, Fdf, HeaderBits, Offset;
    HeaderSize(m);
    n := PutHeader(m, data);
    if !Rtr(m) {
      var len := m.len as int;
      PutBytes(m.data, len, data, n);
      assert data[..n + len] == data[..n] + data[n..n + len];
      assert data[n..n + len] == Payload(m);
      n := n + len;
    }
  }

  lemma HeaderSize(m: Msg)
    ensures 8 * |HeaderBytes(m)| == Offset(m) + |HeaderBits(m)| && 3 <= |HeaderBytes(m)| <= 5
    ensures |HeaderBits(m)| == if Ide(m) then 39 else 19
  {
  }

  /** The bits of a buffer that starts with padding and the frame's body. */
  lemma BodyInBuffer(m: Msg, buf: seq<bv8>)
    requires Classic(m) && HeaderBytes(m) + Payload(m) <= buf
    ensures Offset(m) + |Body(m)| == 8 * (|HeaderBytes(m)| + |Payload(m)|)
    ensures Range(buf, Offset(m), |Body(m)|) == Body(m)
  {
    hide Ide, Rtr, HeaderBytes, HeaderBits, Unpack, Range, BitAt;
    var n := |HeaderBytes(m)| + |Payload(m)|;
    HeaderSize(m);
    LenInt(m);
    HeaderIs(m);
    UnpackConcat(HeaderBytes(m), Payload(m));
    assert buf == (HeaderBytes(m) + Payload(m)) + buf[n..];
    UnpackConcat(HeaderBytes(m) + Payload(m), buf[n..]);
    RangeUnpack(buf, Offset(m), |Body(m)|);
    Inside(Zeros(Offset(m)), HeaderBits(m), Unpack(Payload(m)), Unpack(buf[n..]), Unpack(buf));
  }

  lemma LenInt(m: Msg)
    requires Classic(m)
    ensures m.len <= 8
  {
  }

  lemma Inside(z: seq<bool>, a: seq<bool>, b: seq<bool>, r: seq<bool>, all: seq<bool>)
    requires all == ((z + a) + b) + r
    ensures |z| + |a + b| <= |all| && all[|z|..|z| + |a + b|] == a + b
  {
  }

  /** Adding the two CRC bytes completes the frame. */
  lemma FrameInBuffer(m: Msg, buf: seq<bv8>, crc: bv16)
    requires Classic(m) && HeaderBytes(m) + Payload(m) + [CrcHigh(crc), CrcLow(crc)] <= buf
    requires CanCrc.Word(crc) == Serial(CanCrc.POLY, CanCrc.Word(0), Body(m))
    ensures |FrameBits(m)| == |Body(m)| + 15 && Offset(m) + |FrameBits(m)| <= 8 * |buf|
    ensures Range(buf, Offset(m), |FrameBits(m)|) == FrameBits(m)
  {
    hide Ide, Rtr, HeaderBytes, HeaderBits, Unpack, Range, BitAt, CrcHigh, CrcLow, CanCrc.Word, Body, Serial, Rem, CanCrc.POLY, Payload;
    var n, p := |HeaderBytes(m)| + |Payload(m)|, Offset(m);
    BodyInBuffer(m, buf);
    RemainderOf(m);
    CrcInBuffer(buf, n, crc);
    RangeSplit(buf, p, |Body(m)| + 15, |Body(m)|);
  }

  /** The fifteen CRC bits stand behind n bytes of header and payload. */
  lemma CrcInBuffer(buf: seq<bv8>, n: nat, crc: bv16)
    requires n + 2 <= |buf| && buf[n] == CrcHigh(crc) && buf[n + 1] == CrcLow(crc)
    ensures Range(buf, 8 * n, 15) == CanCrc.Word(crc)
  {
    hide Unpack, Range, BitAt, CrcHigh, CrcLow, CanCrc.Word;
    var c := [CrcHigh(crc), CrcLow(crc)];
    assert buf[n..n + 2] == c;
    CrcBytesAre(crc);
    RangeUnpack(buf, 8 * n, 15);
    UnpackMiddle(buf, n, c);
    assert Unpack(buf)[8 * n..8 * n + 15] == Unpack(buf)[8 * n..8 * (n + 2)][..15];
  }

  lemma UnpackMiddle(buf: seq<bv8>, n: nat, c: seq<bv8>)
    requires n + |c| <= |buf| && buf[n..n + |c|] == c
    ensures Unpack(buf)[8 * n..8 * (n + |c|)] == Unpack(c)
  {
    hide Unpack;
    assert buf == (buf[..n] + c) + buf[n + |c|..];
    UnpackConcat(buf[..n] + c, buf[n + |c|..]);
    UnpackConcat(buf[..n], c);
  }

  /** The CRC of the body is its remainder modulo the CAN polynomial. */
  lemma RemainderOf(m: Msg)
    requires Classic(m)
    ensures Serial(CanCrc.POLY, CanCrc.Word(0), Body(m)) == Rem(CanCrc.POLY, Body(m) + Zeros(15))
    ensures |FrameBits(m)| == |Body(m)| + 15
  {
    hide Body;
    SerialIsRemainder(CanCrc.POLY, CanCrc.Word(0), Body(m));
    ZeroRegister();
    assert AddLead(Body(m) + Zeros(15), Zeros(15)) == Body(m) + Zeros(15);
  }

  lemma {:induction false} ZeroBits(n: nat)
    ensures Bits(0, n) == Zeros(n)
  {
    if n > 0 {
      assert Twice(0) == 0 && !Top(0);
      ZeroBits(n - 1);
    }
  }

  lemma ZeroRegister()
    ensures CanCrc.Word(0) == Zeros(15)
  {
    assert Twice(0) == 0;
    ZeroBits(15);
  }

  lemma StartOfFrame(m: Msg)
    requires Classic(m)
    ensures |FrameBits(m)| > 0 && !FrameBits(m)[0]
  {
  }

  /**
   The size of a frame on the bus, for each way of counting stuff bits: none, the
   most that any frame of this length could need, or those of this very frame.
   Thirteen bits follow the stuffed part.
   */
  method MsgBits(m: Msg, mode: Mode) returns (r: int)
    requires Storage(m)
    ensures !Classic(m) || mode.Unknown? ==> r == -1
    ensures Classic(m) && mode.NoStuff? ==> r == |FrameBits(m)| + 13
    ensures Classic(m) && mode.Worst? ==> r == |FrameBits(m)| + (|FrameBits(m)| - 1) / 4 + 13
    ensures Classic(m) && mode.Exact? ==> r == |Stuffed(FrameBits(m), false, 0)| + 13
  {
    hide Ide, Rtr, Fdf, HeaderBytes, FrameBits, Body;
    if Fdf(m) || m.len as int > 8 { return -1; }
    FrameSize(m);
    match mode
    case NoStuff =>
      r := if Ide(m) then 67 else 47;
      if !Rtr(m) { r := r + m.len as int * 8; }
    case Worst =>
      r := if Ide(m) then 80 else 55;
      if !Rtr(m) { r := r + m.len as int * 10; }
    case Exact =>
      r := ExactBits(m);
    case Unknown =>
      r := -1;
  }

  lemma FrameSize(m: Msg)
    requires Classic(m)
    ensures |Body(m)| == (if Ide(m) then 39 else 19) + if Rtr(m) then 0 else 8 * m.len as int
    ensures |FrameBits(m)| == |Body(m)| + 15
  {
  }

  /** Fill the buffer with the frame: header, payload and CRC. */
  method PutFrame(m: Msg, data: array<bv8>) returns (bits: nat)
    requires Classic(m) && data.Length == 16
    modifies data
    ensures bits == |FrameBits(m)| && Offset(m) + bits + 8 <= 128 && Range(data[..], Offset(m), bits) == FrameBits(m)
  {
    hide Ide, Rtr, HeaderBytes, FrameBits, Body, Payload, HeaderBits, CrcHigh, CrcLow, Range, CanCrc.Word, BitAt, Serial, CanCrc.POLY;
    HeaderSize(m);
    FrameSize(m);
    var n := PutBody(m, data);
    BodyInBuffer(m, data[..]);
    var off := Offset(m);
    bits := 8 * n - off;
    var crc := CanCrc.Crc(0, data[..], 0, off, bits);
    data[n] := CrcHigh(crc);
    data[n + 1] := CrcLow(crc);
    assert data[..n + 2] == HeaderBytes(m) + Payload(m) + [CrcHigh(crc), CrcLow(crc)];
    FrameInBuffer(m, data[..], crc);
    bits := bits + 15;
  }

  method ExactBits(m: Msg) returns (r: int)
    requires Classic(m)
    ensures r == |Stuffed(FrameBits(m), false, 0)| + 13
  {
    hide FrameBits, Range, BitAt, Classic, Count, Stuffed;
    var data := new bv8[16](_ => 0);
    var bits := PutFrame(m, data);
    var off := Offset(m);
    StartOfFrame(m);
    assert Range(data[..], off, bits)[0] == BitAt(data[..], off + 0);
    var stuff := CountStuffBits(data[..], off, bits);
    CountIsExcess(FrameBits(m), false, 0);
    r := bits + stuff + 13;
  }

  /** Counting no stuff bits is a lower bound and the worst case an upper bound of the exact size. */
  lemma SizesAreOrdered(m: Msg)
    requires Classic(m)
    ensures |FrameBits(m)| <= |Stuffed(FrameBits(m), false, 0)| <= |FrameBits(m)| + (|FrameBits(m)| - 1) / 4
  {
    hide FrameBits;
    CountIsExcess(FrameBits(m), false, 0);
    StartOfFrame(m);
  }
}
