/** The CRC-16 checksum of CiA 301 block transfers: table lookup against polynomial division. */
module Crc16 {
  import opened Gf2
  import opened BitStrings

  /** x^16 + x^12 + x^5 + 1 without its leading term. */
  const POLY: Poly := Word(0x1021)

  const ROW0: seq<bv16> := [0x0000, 0x1021, 0x2042, 0x3063, 0x4084, 0x50a5, 0x60c6, 0x70e7,
    0x8108, 0x9129, 0xa14a, 0xb16b, 0xc18c, 0xd1ad, 0xe1ce, 0xf1ef]
  const ROW1: seq<bv16> := [0x1231, 0x0210, 0x3273, 0x2252, 0x52b5, 0x4294, 0x72f7, 0x62d6,
    0x9339, 0x8318, 0xb37b, 0xa35a, 0xd3bd, 0xc39c, 0xf3ff, 0xe3de]
  const ROW2: seq<bv16> := [0x2462, 0x3443, 0x0420, 0x1401, 0x64e6, 0x74c7, 0x44a4, 0x5485,
    0xa56a, 0xb54b, 0x8528, 0x9509, 0xe5ee, 0xf5cf, 0xc5ac, 0xd58d]
  const ROW3: seq<bv16> := [0x3653, 0x2672, 0x1611, 0x0630, 0x76d7, 0x66f6, 0x5695, 0x46b4,
    0xb75b, 0xa77a, 0x9719, 0x8738, 0xf7df, 0xe7fe, 0xd79d, 0xc7bc]
  const ROW4: seq<bv16> := [0x48c4, 0x58e5, 0x6886, 0x78a7, 0x0840, 0x1861, 0x2802, 0x3823,
    0xc9cc, 0xd9ed, 0xe98e, 0xf9af, 0x8948, 0x9969, 0xa90a, 0xb92b]
  const ROW5: seq<bv16> := [0x5af5, 0x4ad4, 0x7ab7, 0x6a96, 0x1a71, 0x0a50, 0x3a33, 0x2a12,
    0xdbfd, 0xcbdc, 0xfbbf, 0xeb9e, 0x9b79, 0x8b58, 0xbb3b, 0xab1a]
  const ROW6: seq<bv16> := [0x6ca6, 0x7c87, 0x4ce4, 0x5cc5, 0x2c22, 0x3c03, 0x0c60, 0x1c41,
    0xedae, 0xfd8f, 0xcdec, 0xddcd, 0xad2a, 0xbd0b, 0x8d68, 0x9d49]
  const ROW7: seq<bv16> := [0x7e97, 0x6eb6, 0x5ed5, 0x4ef4, 0x3e13, 0x2e32, 0x1e51, 0x0e70,
    0xff9f, 0xefbe, 0xdfdd, 0xcffc, 0xbf1b, 0xaf3a, 0x9f59, 0x8f78]
  const ROW8: seq<bv16> := [0x9188, 0x81a9, 0xb1ca, 0xa1eb, 0xd10c, 0xc12d, 0xf14e, 0xe16f,
    0x1080, 0x00a1, 0x30c2, 0x20e3, 0x5004, 0x4025, 0x7046, 0x6067]
  const ROW9: seq<bv16> := [0x83b9, 0x9398, 0xa3fb, 0xb3da, 0xc33d, 0xd31c, 0xe37f, 0xf35e,
    0x02b1, 0x1290, 0x22f3, 0x32d2, 0x4235, 0x5214, 0x6277, 0x7256]
  const ROW10: seq<bv16> := [0xb5ea, 0xa5cb, 0x95a8, 0x8589, 0xf56e, 0xe54f, 0xd52c, 0xc50d,
    0x34e2, 0x24c3, 0x14a0, 0x0481, 0x7466, 0x6447, 0x5424, 0x4405]
  const ROW11: seq<bv16> := [0xa7db, 0xb7fa, 0x8799, 0x97b8, 0xe75f, 0xf77e, 0xc71d, 0xd73c,
    0x26d3, 0x36f2, 0x0691, 0x16b0, 0x6657, 0x7676, 0x4615, 0x5634]
  const ROW12: seq<bv16> := [0xd94c, 0xc96d, 0xf90e, 0xe92f, 0x99c8, 0x89e9, 0xb98a, 0xa9ab,
    0x5844, 0x4865, 0x7806, 0x6827, 0x18c0, 0x08e1, 0x3882, 0x28a3]
  const ROW13: seq<bv16> := [0xcb7d, 0xdb5c, 0xeb3f, 0xfb1e, 0x8bf9, 0x9bd8, 0xabbb, 0xbb9a,
    0x4a75, 0x5a54, 0x6a37, 0x7a16, 0x0af1, 0x1ad0, 0x2ab3, 0x3a92]
  const ROW14: seq<bv16> := [0xfd2e, 0xed0f, 0xdd6c, 0xcd4d, 0xbdaa, 0xad8b, 0x9de8, 0x8dc9,
    0x7c26, 0x6c07, 0x5c64, 0x4c45, 0x3ca2, 0x2c83, 0x1ce0, 0x0cc1]
  const ROW15: seq<bv16> := [0xef1f, 0xff3e, 0xcf5d, 0xdf7c, 0xaf9b, 0xbfba, 0x8fd9, 0x9ff8,
    0x6e17, 0x7e36, 0x4e55, 0x5e74, 0x2e93, 0x3eb2, 0x0ed1, 0x1ef0]
  const TAB: seq<seq<bv16>> := [ROW0, ROW1, ROW2, ROW3, ROW4, ROW5, ROW6, ROW7,
    ROW8, ROW9, ROW10, ROW11, ROW12, ROW13, ROW14, ROW15]

  function Lookup(n: bv8): bv16 { TAB[(n >> 4) as int][(n & 0x0f) as int] }

  /** Multiply by x modulo the polynomial. */
  function Shift(crc: bv16): bv16 { if crc & 0x8000 != 0 then (crc << 1) ^ 0x1021 else crc << 1 }

  /** The table's generator. */
  function Gen(n: bv8): bv16 {
    Shift(Shift(Shift(Shift(Shift(Shift(Shift(Shift((n as bv16) << 8))))))))
  }

  /** One clock of the register on words. */
  function Feed(crc: bv16, bit: bool): bv16 { Shift(crc ^ if bit then 0x8000 else 0) }

  function ShiftN(x: bv16, n: nat): bv16
    decreases n
  {
    if n == 0 then x else ShiftN(Shift(x), n - 1)
  }

  /** A register word as a polynomial. */
  function Word(x: bv16): (s: Poly)
    ensures |s| == 16
  {
    Bits(x, 16)
  }

  lemma Row0(n: bv8)
    requires n & 0xf0 == 0x00
    ensures ROW0[(n & 0x0f) as int] == Gen(n)
  {
  }

  lemma Row1(n: bv8)
    requires n & 0xf0 == 0x10
    ensures ROW1[(n & 0x0f) as int] == Gen(n)
  {
  }

  lemma Row2(n: bv8)
    requires n & 0xf0 == 0x20
    ensures ROW2[(n & 0x0f) as int] == Gen(n)
  {
  }

  lemma Row3(n: bv8)
    requires n & 0xf0 == 0x30
    ensures ROW3[(n & 0x0f) as int] == Gen(n)
  {
  }

  lemma Row4(n: bv8)
    requires n & 0xf0 == 0x40
    ensures ROW4[(n & 0x0f) as int] == Gen(n)
  {
  }

  lemma Row5(n: bv8)
    requires n & 0xf0 == 0x50
    ensures ROW5[(n & 0x0f) as int] == Gen(n)
  {
  }

  lemma Row6(n: bv8)
    requires n & 0xf0 == 0x60
    ensures ROW6[(n & 0x0f) as int] == Gen(n)
  {
  }

  lemma Row7(n: bv8)
    requires n & 0xf0 == 0x70
    ensures ROW7[(n & 0x0f) as int] == Gen(n)
  {
  }

  lemma Row8(n: bv8)
    requires n & 0xf0 == 0x80
    ensures ROW8[(n & 0x0f) as int] == Gen(n)
  {
  }

  lemma Row9(n: bv8)
    requires n & 0xf0 == 0x90
    ensures ROW9[(n & 0x0f) as int] == Gen(n)
  {
  }

  lemma Row10(n: bv8)
    requires n & 0xf0 == 0xa0
    ensures ROW10[(n & 0x0f) as int] == Gen(n)
  {
  }

  lemma Row11(n: bv8)
    requires n & 0xf0 == 0xb0
    ensures ROW11[(n & 0x0f) as int] == Gen(n)
  {
  }

  lemma Row12(n: bv8)
    requires n & 0xf0 == 0xc0
    ensures ROW12[(n & 0x0f) as int] == Gen(n)
  {
  }

  lemma Row13(n: bv8)
    requires n & 0xf0 == 0xd0
    ensures ROW13[(n & 0x0f) as int] == Gen(n)
  {
  }

  lemma Row14(n: bv8)
    requires n & 0xf0 == 0xe0
    ensures ROW14[(n & 0x0f) as int] == Gen(n)
  {
  }

  lemma Row15(n: bv8)
    requires n & 0xf0 == 0xf0
    ensures ROW15[(n & 0x0f) as int] == Gen(n)
  {
  }

  /** The literal table is the generated one. */
  lemma TableIsGenerated(n: bv8)
    ensures Lookup(n) == Gen(n)
  {
    hide Gen;
    var h := n & 0xf0;
    if h == 0x00 { Row0(n); High(n, 0); }
    else if h == 0x10 { Row1(n); High(n, 1); }
    else if h == 0x20 { Row2(n); High(n, 2); }
    else if h == 0x30 { Row3(n); High(n, 3); }
    else if h == 0x40 { Row4(n); High(n, 4); }
    else if h == 0x50 { Row5(n); High(n, 5); }
    else if h == 0x60 { Row6(n); High(n, 6); }
    else if h == 0x70 { Row7(n); High(n, 7); }
    else if h == 0x80 { Row8(n); High(n, 8); }
    else if h == 0x90 { Row9(n); High(n, 9); }
    else if h == 0xa0 { Row10(n); High(n, 10); }
    else if h == 0xb0 { Row11(n); High(n, 11); }
    else if h == 0xc0 { Row12(n); High(n, 12); }
    else if h == 0xd0 { Row13(n); High(n, 13); }
    else if h == 0xe0 { Row14(n); High(n, 14); }
    else { Row15(n); High(n, 15); }
  }

  lemma High(n: bv8, r: int)
    requires 0 <= r < 16 && (n >> 4) as int == r
    ensures Lookup(n) == TAB[r][(n & 0x0f) as int]
  {
  }

  /** A word shifted left is its polynomial moved up by one. */
  lemma WordUp(x: bv16)
    ensures Word(Twice(x)) == Word(x)[1..] + [false]
  {
    hide Twice;
    BitsLast(Twice(x), 15);
    UpSixteen(x);
    assert !Top(0);
    assert Bits(x, 16) == [Top(x)] + Bits(Twice(x), 15);
  }

  lemma ShiftCases(y: bv16)
    ensures Shift(y) == if Top(y) then Xor(Twice(y), 0x1021) else Twice(y)
  {
  }

  lemma ShiftIsClock(y: bv16)
    ensures Word(Shift(y)) == Clock(POLY, Word(y), false)
  {
    hide Shift, Twice, Xor, Top;
    ShiftCases(y);
    WordUp(y);
    BitsXor(Twice(y), 0x1021, 16);
    assert Word(y)[0] == Top(y);
  }

  lemma FlipTop(x: bv16)
    ensures Top(x ^ 0x8000) != Top(x) && Twice(x ^ 0x8000) == Twice(x)
  {
  }

  lemma FeedIsClock(crc: bv16, bit: bool)
    ensures Word(Feed(crc, bit)) == Clock(POLY, Word(crc), bit)
  {
    hide Shift, Twice, Top;
    var y := crc ^ if bit then 0x8000 else 0;
    assert Top(y) == (Top(crc) != bit) && Twice(y) == Twice(crc) by {
      if bit { FlipTop(crc); } else { assert crc ^ 0 == crc; }
    }
    ShiftIsClock(y);
    SameTail(crc, y);
  }

  lemma SameTail(x: bv16, y: bv16)
    requires Twice(x) == Twice(y)
    ensures Word(x)[1..] == Word(y)[1..] && Word(x)[0] == Top(x) && Word(y)[0] == Top(y)
  {
  }

  lemma PeelBoth(x: bv16, c: bv16)
    ensures Top(c) && Top(x) ==> Shift(Xor(x, c)) == Xor(Feed(x, true), Twice(c))
  {
  }

  lemma PeelOne(x: bv16, c: bv16)
    ensures Top(c) && !Top(x) ==> Shift(Xor(x, c)) == Xor(Feed(x, true), Twice(c))
  {
  }

  lemma PeelZero(x: bv16, c: bv16)
    ensures !Top(c) && Top(x) ==> Shift(Xor(x, c)) == Xor(Feed(x, false), Twice(c))
  {
  }

  lemma PeelNone(x: bv16, c: bv16)
    ensures !Top(c) && !Top(x) ==> Shift(Xor(x, c)) == Xor(Feed(x, false), Twice(c))
  {
  }

  /** Moving the top bit of c into the register leaves the rest of c to be added after the shift. */
  lemma Peel(x: bv16, c: bv16)
    ensures Shift(Xor(x, c)) == Xor(Feed(x, Top(c)), Twice(c))
  {
    hide Shift, Xor, Top, Twice, Feed;
    PeelBoth(x, c);
    PeelOne(x, c);
    PeelZero(x, c);
    PeelNone(x, c);
  }

  lemma XorTwice(x: bv16, c: bv16)
    ensures Xor(Xor(x, c), c) == x && Xor(x, 0) == x
  {
  }

  /** n shifts of a register with c added are n clocks on the top bits of c. */
  lemma {:induction false} ShiftsAreClocks(x: bv16, c: bv16, n: nat)
    ensures Serial(POLY, Word(x), Bits(c, n)) == Word(Xor(ShiftN(Xor(x, c), n), Up(c, n)))
    decreases n
  {
    hide Word, Shift, Feed, Xor, Twice, Top, POLY;
    if n == 0 {
      XorTwice(x, c);
    } else {
      Peel(x, c);
      FeedIsClock(x, Top(c));
      ShiftsAreClocks(Feed(x, Top(c)), Twice(c), n - 1);
      assert Bits(c, n)[1..] == Bits(Twice(c), n - 1);
    }
  }

  /** The loop body of co_crc. */
  function TableStep(crc: bv16, b: bv8): bv16 {
    Xor(Lookup(Index(crc, b)), crc << 8)
  }

  function Index(crc: bv16, b: bv8): bv8 { b ^ ((crc >> 8) as bv8) }

  function Eight(x: bv16): bv16 { Shift(Shift(Shift(Shift(Shift(Shift(Shift(Shift(x)))))))) }

  lemma GenWords(crc: bv16, b: bv8)
    ensures Gen(b ^ ((crc >> 8) as bv8)) ^ (crc << 8) == Eight(crc ^ ((b as bv16) << 8))
  {
  }

  lemma GenStep(crc: bv16, b: bv8)
    ensures Xor(Gen(Index(crc, b)), crc << 8) == Eight(Xor(crc, (b as bv16) << 8))
  {
    hide Gen, Eight;
    GenWords(crc, b);
  }

  lemma LookupStep(crc: bv16, b: bv8)
    ensures TableStep(crc, b) == Eight(Xor(crc, (b as bv16) << 8))
  {
    hide Lookup, Gen, Eight, Xor, Index;
    TableIsGenerated(Index(crc, b));
    GenStep(crc, b);
  }

  lemma EightIs(x: bv16)
    ensures ShiftN(x, 8) == Eight(x)
  {
  }

  lemma ByteOut(b: bv8)
    ensures Up((b as bv16) << 8, 8) == 0
  {
  }

  /** One table step is eight clocks of the bit-serial register. */
  lemma ByteStep(crc: bv16, b: bv8)
    ensures Word(TableStep(crc, b)) == Serial(POLY, Word(crc), ByteBits(b))
  {
    hide TableStep, Eight, Word, Shift, Xor, POLY;
    var c := (b as bv16) << 8;
    LookupStep(crc, b);
    ShiftsAreClocks(crc, c, 8);
    ByteOut(b);
    EightIs(Xor(crc, c));
    XorTwice(Eight(Xor(crc, c)), c);
  }

  /** The register after all bytes of data. */
  function Fold(crc: bv16, data: seq<bv8>): bv16
    decreases |data|
  {
    if data == [] then crc else TableStep(Fold(crc, data[..|data| - 1]), data[|data| - 1])
  }

  /** Table-driven checksum of a byte string. */
  method Crc(crc: bv16, data: seq<bv8>) returns (r: bv16)
    ensures r == Fold(crc, data)
    ensures Word(r) == Serial(POLY, Word(crc), Unpack(data))
  {
    hide TableStep, Word, Serial, Fold, Unpack;
    r := crc;
    NoBytes(crc, data);
    var i := 0;
    while i < |data|
      invariant 0 <= i <= |data|
      invariant r == Fold(crc, data[..i])
      invariant Word(r) == Serial(POLY, Word(crc), Unpack(data[..i]))
    {
      ByteStep(r, data[i]);
      SerialByte(Word(crc), data, i);
      FoldSnoc(crc, data, i);
      r := TableStep(r, data[i]);
      i := i + 1;
    }
    assert data[..i] == data;
  }

  lemma NoBytes(crc: bv16, data: seq<bv8>)
    ensures Fold(crc, data[..0]) == crc && Serial(POLY, Word(crc), Unpack(data[..0])) == Word(crc)
  {
  }

  lemma FoldSnoc(crc: bv16, data: seq<bv8>, i: nat)
    requires i < |data|
    ensures Fold(crc, data[..i + 1]) == TableStep(Fold(crc, data[..i]), data[i])
  {
    hide TableStep;
    assert data[..i + 1][..i] == data[..i];
  }

  lemma SerialByte(w: Poly, data: seq<bv8>, i: nat)
    requires |w| == 16 && i < |data|
    ensures Serial(POLY, w, Unpack(data[..i + 1])) == Serial(POLY, Serial(POLY, w, Unpack(data[..i])), ByteBits(data[i]))
  {
    assert data[..i + 1] == data[..i] + [data[i]];
    UnpackConcat(data[..i], [data[i]]);
    UnpackOne(data[i]);
    SerialConcat(POLY, w, Unpack(data[..i]), ByteBits(data[i]));
  }

  /** A checksum can be computed piecewise, as block transfers do. */
  lemma CrcSplits(w: Poly, a: seq<bv8>, b: seq<bv8>)
    requires |w| == 16
    ensures Serial(POLY, w, Unpack(a + b)) == Serial(POLY, Serial(POLY, w, Unpack(a)), Unpack(b))
  {
    UnpackConcat(a, b);
    SerialConcat(POLY, w, Unpack(a), Unpack(b));
  }

  /**
   The checksum with initial value zero is the remainder of the message, shifted
   up by sixteen, modulo x^16 + x^12 + x^5 + 1.
   */
  lemma SerialFromZero(data: seq<bv8>)
    ensures Serial(POLY, Word(0), Unpack(data)) == Rem(POLY, Unpack(data) + Zeros(16))
  {
    SerialIsRemainder(POLY, Word(0), Unpack(data));
    ZeroWord(0, 16);
    assert AddLead(Unpack(data) + Zeros(16), Word(0)) == Unpack(data) + Zeros(16);
  }

  lemma {:induction false} ZeroWord(x: bv16, n: nat)
    requires x == 0
    ensures Bits(x, n) == Zeros(n)
    decreases n
  {
    if n > 0 {
      assert Twice(x) == 0;
      ZeroWord(Twice(x), n - 1);
    }
  }
}
