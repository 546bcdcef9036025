/** CRC-15-CAN over arbitrary bit ranges: table lookup against polynomial division. */
module CanCrc {
  import opened Gf2
  import opened BitStrings

  /** A 15-bit register as a polynomial; the top bit of the word is not part of it. */
  function Word(x: bv16): (s: Poly)
    ensures |s| == 15
  {
    Bits(Twice(x), 15)
  }

  /** x^15 + x^14 + x^10 + x^8 + x^7 + x^4 + x^3 + 1 without its leading term. */
  const POLY: Poly := Word(0x4599)

  const ROW0: seq<bv16> := [0x0000, 0x4599, 0x4eab, 0x0b32, 0x58cf, 0x1d56, 0x1664, 0x53fd,
    0x7407, 0x319e, 0x3aac, 0x7f35, 0x2cc8, 0x6951, 0x6263, 0x27fa]
  const ROW1: seq<bv16> := [0x2d97, 0x680e, 0x633c, 0x26a5, 0x7558, 0x30c1, 0x3bf3, 0x7e6a,
    0x5990, 0x1c09, 0x173b, 0x52a2, 0x015f, 0x44c6, 0x4ff4, 0x0a6d]
  const ROW2: seq<bv16> := [0x5b2e, 0x1eb7, 0x1585, 0x501c, 0x03e1, 0x4678, 0x4d4a, 0x08d3,
    0x2f29, 0x6ab0, 0x6182, 0x241b, 0x77e6, 0x327f, 0x394d, 0x7cd4]
  const ROW3: seq<bv16> := [0x76b9, 0x3320, 0x3812, 0x7d8b, 0x2e76, 0x6bef, 0x60dd, 0x2544,
    0x02be, 0x4727, 0x4c15, 0x098c, 0x5a71, 0x1fe8, 0x14da, 0x5143]
  const ROW4: seq<bv16> := [0x73c5, 0x365c, 0x3d6e, 0x78f7, 0x2b0a, 0x6e93, 0x65a1, 0x2038,
    0x07c2, 0x425b, 0x4969, 0x0cf0, 0x5f0d, 0x1a94, 0x11a6, 0x543f]
  const ROW5: seq<bv16> := [0x5e52, 0x1bcb, 0x10f9, 0x5560, 0x069d, 0x4304, 0x4836, 0x0daf,
    0x2a55, 0x6fcc, 0x64fe, 0x2167, 0x729a, 0x3703, 0x3c31, 0x79a8]
  const ROW6: seq<bv16> := [0x28eb, 0x6d72, 0x6640, 0x23d9, 0x7024, 0x35bd, 0x3e8f, 0x7b16,
    0x5cec, 0x1975, 0x1247, 0x57de, 0x0423, 0x41ba, 0x4a88, 0x0f11]
  const ROW7: seq<bv16> := [0x057c, 0x40e5, 0x4bd7, 0x0e4e, 0x5db3, 0x182a, 0x1318, 0x5681,
    0x717b, 0x34e2, 0x3fd0, 0x7a49, 0x29b4, 0x6c2d, 0x671f, 0x2286]
  const ROW8: seq<bv16> := [0x2213, 0x678a, 0x6cb8, 0x2921, 0x7adc, 0x3f45, 0x3477, 0x71ee,
    0x5614, 0x138d, 0x18bf, 0x5d26, 0x0edb, 0x4b42, 0x4070, 0x05e9]
  const ROW9: seq<bv16> := [0x0f84, 0x4a1d, 0x412f, 0x04b6, 0x574b, 0x12d2, 0x19e0, 0x5c79,
    0x7b83, 0x3e1a, 0x3528, 0x70b1, 0x234c, 0x66d5, 0x6de7, 0x287e]
  const ROW10: seq<bv16> := [0x793d, 0x3ca4, 0x3796, 0x720f, 0x21f2, 0x646b, 0x6f59, 0x2ac0,
    0x0d3a, 0x48a3, 0x4391, 0x0608, 0x55f5, 0x106c, 0x1b5e, 0x5ec7]
  const ROW11: seq<bv16> := [0x54aa, 0x1133, 0x1a01, 0x5f98, 0x0c65, 0x49fc, 0x42ce, 0x0757,
    0x20ad, 0x6534, 0x6e06, 0x2b9f, 0x7862, 0x3dfb, 0x36c9, 0x7350]
  const ROW12: seq<bv16> := [0x51d6, 0x144f, 0x1f7d, 0x5ae4, 0x0919, 0x4c80, 0x47b2, 0x022b,
    0x25d1, 0x6048, 0x6b7a, 0x2ee3, 0x7d1e, 0x3887, 0x33b5, 0x762c]
  const ROW13: seq<bv16> := [0x7c41, 0x39d8, 0x32ea, 0x7773, 0x248e, 0x6117, 0x6a25, 0x2fbc,
    0x0846, 0x4ddf, 0x46ed, 0x0374, 0x5089, 0x1510, 0x1e22, 0x5bbb]
  const ROW14: seq<bv16> := [0x0af8, 0x4f61, 0x4453, 0x01ca, 0x5237, 0x17ae, 0x1c9c, 0x5905,
    0x7eff, 0x3b66, 0x3054, 0x75cd, 0x2630, 0x63a9, 0x689b, 0x2d02]
  const ROW15: seq<bv16> := [0x276f, 0x62f6, 0x69c4, 0x2c5d, 0x7fa0, 0x3a39, 0x310b, 0x7492,
    0x5368, 0x16f1, 0x1dc3, 0x585a, 0x0ba7, 0x4e3e, 0x450c, 0x0095]
  const TAB: seq<seq<bv16>> := [ROW0, ROW1, ROW2, ROW3, ROW4, ROW5, ROW6, ROW7,
    ROW8, ROW9, ROW10, ROW11, ROW12, ROW13, ROW14, ROW15]

  function Lookup(n: bv8): bv16 { TAB[(n >> 4) as int][(n & 0x0f) as int] }

  /** Multiply by x modulo the polynomial. */
  function Shift(crc: bv16): bv16 { if crc & 0x4000 != 0 then (crc << 1) ^ 0x4599 else crc << 1 }

  function Eight(x: bv16): bv16 { Shift(Shift(Shift(Shift(Shift(Shift(Shift(Shift(x)))))))) }

  /** The table's generator. */
  function Gen(n: bv8): bv16 { Eight((n as bv16) << 7) & 0x7fff }

  /** The loop body of can_crc_bits. */
  function Feed(crc: bv16, bit: bool): bv16 {
    if bit != (crc & 0x4000 != 0) then (crc << 1) ^ 0x4599 else crc << 1
  }

  /** The loop body of can_crc_bytes. */
  function TableStep(crc: bv16, b: bv8): bv16 {
    Low(Xor(Lookup(Index(crc, b)), crc << 8))
  }

  function Index(crc: bv16, b: bv8): bv8 { b ^ (((crc >> 7) & 0xff) as bv8) }
  function Low(x: bv16): bv16 { x & 0x7fff }

  function ShiftN(x: bv16, n: nat): bv16
    decreases n
  {
    if n == 0 then x else ShiftN(Shift(x), n - 1)
  }

  lemma Row0(n: bv8)
    requires n & 0xf0 == 0x00
    ensures ROW0[(n & 0x0f) as int] == Gen(n)
  {
  }

  lemma Row1(n: bv8)
    requires n & 0xf0 == 0x10
    ensures ROW1[(n & 0x0f) as int] == Gen(n)
  {
  }

  lemma Row2(n: bv8)
    requires n & 0xf0 == 0x20
    ensures ROW2[(n & 0x0f) as int] == Gen(n)
  {
  }

  lemma Row3(n: bv8)
    requires n & 0xf0 == 0x30
    ensures ROW3[(n & 0x0f) as int] == Gen(n)
  {
  }

  lemma Row4(n: bv8)
    requires n & 0xf0 == 0x40
    ensures ROW4[(n & 0x0f) as int] == Gen(n)
  {
  }

  lemma Row5(n: bv8)
    requires n & 0xf0 == 0x50
    ensures ROW5[(n & 0x0f) as int] == Gen(n)
  {
  }

  lemma Row6(n: bv8)
    requires n & 0xf0 == 0x60
    ensures ROW6[(n & 0x0f) as int] == Gen(n)
  {
  }

  lemma Row7(n: bv8)
    requires n & 0xf0 == 0x70
    ensures ROW7[(n & 0x0f) as int] == Gen(n)
  {
  }

  lemma Row8(n: bv8)
    requires n & 0xf0 == 0x80
    ensures ROW8[(n & 0x0f) as int] == Gen(n)
  {
  }

  lemma Row9(n: bv8)
    requires n & 0xf0 == 0x90
    ensures ROW9[(n & 0x0f) as int] == Gen(n)
  {
  }

  lemma Row10(n: bv8)
    requires n & 0xf0 == 0xa0
    ensures ROW10[(n & 0x0f) as int] == Gen(n)
  {
  }

  lemma Row11(n: bv8)
    requires n & 0xf0 == 0xb0
    ensures ROW11[(n & 0x0f) as int] == Gen(n)
  {
  }

  lemma Row12(n: bv8)
    requires n & 0xf0 == 0xc0
    ensures ROW12[(n & 0x0f) as int] == Gen(n)
  {
  }

  lemma Row13(n: bv8)
    requires n & 0xf0 == 0xd0
    ensures ROW13[(n & 0x0f) as int] == Gen(n)
  {
  }

  lemma Row14(n: bv8)
    requires n & 0xf0 == 0xe0
    ensures ROW14[(n & 0x0f) as int] == Gen(n)
  {
  }

  lemma Row15(n: bv8)
    requires n & 0xf0 == 0xf0
    ensures ROW15[(n & 0x0f) as int] == Gen(n)
  {
  }

  /** The literal table is the generated one. */
  lemma TableIsGenerated(n: bv8)
    ensures Lookup(n) == Gen(n)
  {
    hide Gen;
    var h := n & 0xf0;
    if h == 0x00 { Row0(n); High(n, 0); }
    else if h == 0x10 { Row1(n); High(n, 1); }
    else if h == 0x20 { Row2(n); High(n, 2); }
    else if h == 0x30 { Row3(n); High(n, 3); }
    else if h == 0x40 { Row4(n); High(n, 4); }
    else if h == 0x50 { Row5(n); High(n, 5); }
    else if h == 0x60 { Row6(n); High(n, 6); }
    else if h == 0x70 { Row7(n); High(n, 7); }
    else if h == 0x80 { Row8(n); High(n, 8); }
    else if h == 0x90 { Row9(n); High(n, 9); }
    else if h == 0xa0 { Row10(n); High(n, 10); }
    else if h == 0xb0 { Row11(n); High(n, 11); }
    else if h == 0xc0 { Row12(n); High(n, 12); }
    else if h == 0xd0 { Row13(n); High(n, 13); }
    else if h == 0xe0 { Row14(n); High(n, 14); }
    else { Row15(n); High(n, 15); }
  }

  lemma High(n: bv8, r: int)
    requires 0 <= r < 16 && (n >> 4) as int == r
    ensures Lookup(n) == TAB[r][(n & 0x0f) as int]
  {
  }

  /** A register shifted left is its polynomial moved up by one. */
  lemma WordUp(x: bv16)
    ensures Word(Twice(x)) == Word(x)[1..] + [false]
  {
    hide Twice;
    BitsLast(Twice(Twice(x)), 14);
    UpSixteen(x);
    assert !Top(0);
    assert Bits(Twice(x), 15) == [Top(Twice(x))] + Bits(Twice(Twice(x)), 14);
  }

  lemma WordXor(x: bv16, y: bv16)
    ensures Word(Xor(x, y)) == AddLead(Word(x), Word(y))
  {
    hide Twice, Xor;
    TwiceXor(x, y);
    BitsXor(Twice(x), Twice(y), 15);
  }

  lemma WordTop(x: bv16)
    ensures Word(x)[0] == Top(Twice(x))
  {
  }

  lemma FeedTrue(x: bv16)
    ensures Feed(x, true) == if Top(Twice(x)) then Twice(x) else Xor(Twice(x), 0x4599)
  {
  }

  lemma FeedFalse(x: bv16)
    ensures Feed(x, false) == if Top(Twice(x)) then Xor(Twice(x), 0x4599) else Twice(x)
  {
  }

  lemma FeedCases(x: bv16, bit: bool)
    ensures Feed(x, bit) == if bit != Top(Twice(x)) then Xor(Twice(x), 0x4599) else Twice(x)
  {
    hide Feed, Top, Twice, Xor;
    if bit { FeedTrue(x); } else { FeedFalse(x); }
  }

  lemma SecondBit(x: bv16)
    ensures Top(Twice(x)) == (x & 0x4000 != 0)
  {
  }

  lemma FeedIsClock(x: bv16, bit: bool)
    ensures Word(Feed(x, bit)) == Clock(POLY, Word(x), bit)
  {
    hide Feed, Twice, Xor, Top, Word;
    FeedCases(x, bit);
    WordUp(x);
    WordXor(Twice(x), 0x4599);
    WordTop(x);
  }

  lemma PeelBoth(x: bv16, c: bv16)
    ensures c & 0x4000 != 0 && x & 0x4000 != 0 ==> Shift(Xor(x, c)) == Xor(Feed(x, true), Twice(c))
  {
  }

  lemma PeelOne(x: bv16, c: bv16)
    ensures c & 0x4000 != 0 && x & 0x4000 == 0 ==> Shift(Xor(x, c)) == Xor(Feed(x, true), Twice(c))
  {
  }

  lemma PeelZero(x: bv16, c: bv16)
    ensures c & 0x4000 == 0 && x & 0x4000 != 0 ==> Shift(Xor(x, c)) == Xor(Feed(x, false), Twice(c))
  {
  }

  lemma PeelNone(x: bv16, c: bv16)
    ensures c & 0x4000 == 0 && x & 0x4000 == 0 ==> Shift(Xor(x, c)) == Xor(Feed(x, false), Twice(c))
  {
  }

  /** Moving the top register bit of c into the register leaves the rest of c to be added after the shift. */
  lemma Peel(x: bv16, c: bv16)
    ensures Shift(Xor(x, c)) == Xor(Feed(x, Top(Twice(c))), Twice(c))
  {
    hide Shift, Xor, Top, Twice, Feed;
    SecondBit(c);
    PeelBoth(x, c);
    PeelOne(x, c);
    PeelZero(x, c);
    PeelNone(x, c);
  }

  lemma XorTwice(x: bv16, c: bv16)
    ensures Xor(Xor(x, c), c) == x
  {
  }

  /** n shifts of a register with c added are n clocks on the top bits of c. */
  lemma {:induction false} ShiftsAreClocks(x: bv16, c: bv16, n: nat)
    ensures Serial(POLY, Word(x), Bits(Twice(c), n)) == Word(Xor(ShiftN(Xor(x, c), n), Up(c, n)))
    decreases n
  {
    hide Word, Shift, Feed, Xor, Twice, Top, POLY;
    if n == 0 {
      XorTwice(x, c);
    } else {
      Peel(x, c);
      FeedIsClock(x, Top(Twice(c)));
      ShiftsAreClocks(Feed(x, Top(Twice(c))), Twice(c), n - 1);
      assert Bits(Twice(c), n)[1..] == Bits(Twice(Twice(c)), n - 1);
    }
  }

  lemma GenWords(crc: bv16, b: bv8)
    ensures (Gen(b ^ (((crc >> 7) & 0xff) as bv8)) ^ (crc << 8)) & 0x7fff == Eight(crc ^ ((b as bv16) << 7)) & 0x7fff
  {
  }

  lemma GenStep(crc: bv16, b: bv8)
    ensures Low(Xor(Gen(Index(crc, b)), crc << 8)) == Low(Eight(Xor(crc, (b as bv16) << 7)))
  {
    hide Gen, Eight;
    GenWords(crc, b);
  }

  lemma LookupStep(crc: bv16, b: bv8)
    ensures TableStep(crc, b) == Low(Eight(Xor(crc, (b as bv16) << 7)))
  {
    hide Lookup, Gen, Eight, Xor, Index, Low;
    TableIsGenerated(Index(crc, b));
    GenStep(crc, b);
  }

  lemma EightIs(x: bv16)
    ensures ShiftN(x, 8) == Eight(x)
  {
  }

  lemma Masked(x: bv16)
    ensures Word(Low(x)) == Word(x) && !Top(Low(x))
  {
  }

  /** A byte shifted out of the register leaves only the unused top bit. */
  lemma ByteOut(x: bv16, b: bv8)
    ensures Word(Xor(x, Up((b as bv16) << 7, 8))) == Word(x)
  {
    hide Up;
    var c := (b as bv16) << 7;
    UpEight(c);
    OnlyTop(x, b);
  }

  lemma UpEight(c: bv16)
    ensures Up(c, 8) == (c << 4) << 4
  {
  }

  lemma OnlyTop(x: bv16, b: bv8)
    ensures Twice(Xor(x, (((b as bv16) << 7) << 4) << 4)) == Twice(x)
  {
  }

  lemma ByteAligned(b: bv8)
    ensures Twice((b as bv16) << 7) == (b as bv16) << 8
  {
  }

  /** One table step is eight clocks of the bit-serial register. */
  lemma ByteStep(crc: bv16, b: bv8)
    ensures Word(TableStep(crc, b)) == Serial(POLY, Word(crc), ByteBits(b))
  {
    hide TableStep, Eight, Word, Shift, Xor, Twice, POLY, Low;
    var c := (b as bv16) << 7;
    LookupStep(crc, b);
    ShiftsAreClocks(crc, c, 8);
    ByteAligned(b);
    EightIs(Xor(crc, c));
    ByteOut(Eight(Xor(crc, c)), b);
    Masked(Eight(Xor(crc, c)));
  }

  // ------------------------------------------------------------------- methods

  predicate BitTop(b: bv8) { b & 0x80 != 0 }

  lemma ByteTwice(b: bv8)
    ensures Top(Wide(b)) == BitTop(b) && Twice(Wide(b)) == Wide(b << 1)
  {
  }

  /** The byte with its first off bits shifted out. */
  function Shl(b: bv8, off: nat): bv8
    requires off <= 8
  {
    b << off
  }

  lemma ShlZero(b: bv8)
    ensures Shl(b, 0) == b
  {
  }

  lemma ShlMore(b: bv8, off: nat)
    requires off < 8
    ensures Shl(b, off + 1) == Shl(b, off) << 1
  {
  }

  lemma {:induction false} UpLast(x: bv16, n: nat)
    ensures Up(x, n + 1) == Twice(Up(x, n))
    decreases n
  {
    hide Twice;
    if n > 0 { UpLast(Twice(x), n - 1); }
  }

  lemma {:induction false} ByteUp(b: bv8, off: nat)
    requires off <= 8
    ensures Wide(Shl(b, off)) == Up(Wide(b), off)
  {
    hide Twice, Wide, Shl;
    if off == 0 {
      ShlZero(b);
    } else {
      ShlMore(b, off - 1);
      ByteUp(b, off - 1);
      UpLast(Wide(b), off - 1);
      ByteTwice(Shl(b, off - 1));
    }
  }

  /** can_crc_bits: the bits of one byte from off on, one at a time. */
  method CrcBits(crc: bv16, byte: bv8, off: nat, bits: nat) returns (r: bv16)
    requires off + bits <= 8
    ensures Word(r) == Serial(POLY, Word(crc), ByteBits(byte)[off..off + bits]) && !Top(r)
  {
    hide Word, Serial, Bits, Feed, Low, Wide, Top;
    r := crc;
    var b, k := Shl(byte, off), bits;
    ghost var all := Bits(Wide(b), bits);
    SplitByte(byte, off, bits);
    while k > 0
      invariant 0 <= k <= bits
      invariant Serial(POLY, Word(crc), all) == Serial(POLY, Word(r), Bits(Wide(b), k))
    {
      OneClock(r, b, k);
      r := Feed(r, BitTop(b));
      b := b << 1;
      k := k - 1;
    }
    NoClocks(r, b);
    Masked(r);
    r := Low(r);
  }

  lemma NoClocks(r: bv16, b: bv8)
    ensures Serial(POLY, Word(r), Bits(Wide(b), 0)) == Word(r)
  {
  }

  lemma OneClock(r: bv16, b: bv8, k: nat)
    requires k > 0
    ensures Serial(POLY, Word(r), Bits(Wide(b), k)) == Serial(POLY, Word(Feed(r, BitTop(b))), Bits(Wide(b << 1), k - 1))
  {
    hide Word, Feed, Wide, BitTop, Bits;
    BitsStep(b, k);
    FeedIsClock(r, BitTop(b));
  }

  lemma BitsStep(b: bv8, k: nat)
    requires k > 0
    ensures Bits(Wide(b), k) == [BitTop(b)] + Bits(Wide(b << 1), k - 1)
  {
  }

  lemma SplitByte(b: bv8, off: nat, n: nat)
    requires off + n <= 8
    ensures Bits(Wide(Shl(b, off)), n) == ByteBits(b)[off..off + n]
  {
    hide Wide, Bits, Up, Shl;
    ByteUp(b, off);
    BitsSplit(Wide(b), 8, off);
    BitsSplit(Up(Wide(b), off), 8 - off, n);
    assert ByteBits(b)[off..] == Bits(Up(Wide(b), off), 8 - off);
    assert ByteBits(b)[off..off + n] == ByteBits(b)[off..][..n];
  }

  /** can_crc_bytes: n whole bytes from byte position j on. */
  method CrcBytes(crc: bv16, mem: seq<bv8>, j: nat, n: nat) returns (r: bv16)
    requires j + n <= |mem|
    ensures Word(r) == Serial(POLY, Word(crc), Range(mem, 8 * j, 8 * n))
    ensures r == crc || !Top(r)
    ensures n == 0 ==> r == crc
  {
    hide TableStep, Range, Top, Serial, Word;
    r := crc;
    var i := 0;
    EmptyRange(mem, 8 * j, crc);
    while i < n
      invariant 0 <= i <= n
      invariant Word(r) == Serial(POLY, Word(crc), Range(mem, 8 * j, 8 * i))
      invariant r == crc || !Top(r)
      invariant i == 0 ==> r == crc
    {
      ByteStep(r, mem[j + i]);
      ExtendRange(mem, 8 * j, 8 * i, 8, crc, r);
      WholeByte(mem, j + i);
      TableMasked(r, mem[j + i]);
      r := TableStep(r, mem[j + i]);
      i := i + 1;
    }
  }

  lemma TableMasked(crc: bv16, b: bv8)
    ensures !Top(TableStep(crc, b))
  {
  }

  lemma EmptyRange(mem: seq<bv8>, p: nat, crc: bv16)
    requires p <= 8 * |mem|
    ensures Serial(POLY, Word(crc), Range(mem, p, 0)) == Word(crc)
  {
  }

  lemma WholeByte(mem: seq<bv8>, j: nat)
    requires j < |mem|
    ensures Range(mem, 8 * j, 8) == ByteBits(mem[j])
  {
    hide Range, ByteBits;
    RangeInByte(mem, j, 0, 8);
    assert ByteBits(mem[j])[0..8] == ByteBits(mem[j]);
  }

  /** Continue a checksum over the next k bits. */
  lemma ExtendRange(mem: seq<bv8>, p: nat, n: nat, k: nat, crc: bv16, r: bv16)
    requires p + n + k <= 8 * |mem| && Word(r) == Serial(POLY, Word(crc), Range(mem, p, n))
    ensures Serial(POLY, Word(crc), Range(mem, p, n + k)) == Serial(POLY, Word(r), Range(mem, p + n, k))
  {
    hide Range, Word, Serial, Top, Twice;
    RangeSplit(mem, p, n + k, n);
    SerialSplit(POLY, Word(crc), Range(mem, p, n), Range(mem, p + n, k), Range(mem, p, n + k));
  }

  lemma SerialSplit(q: Poly, w: Poly, a: Poly, b: Poly, c: Poly)
    requires |w| == |q| > 0 && c == a + b
    ensures Serial(q, w, c) == Serial(q, Serial(q, w, a), b)
  {
    SerialConcat(q, w, a, b);
  }

  /** C's division of a possibly negative offset: toward zero. */
  function Quotient(a: int): (q: int)
    ensures q == if a >= 0 then a / 8 else -((-a) / 8)
  {
    if a >= 0 then a / 8 else -((-a) / 8)
  }

  /**
   can_crc: the checksum of n bits starting off bits after (or before) byte
   position at.
   */
  method Crc(crc: bv16, mem: seq<bv8>, at: nat, off: int, n: nat) returns (r: bv16)
    requires 0 <= 8 * at + off && 8 * at + off + n <= 8 * |mem|
    ensures Word(r) == Serial(POLY, Word(crc), Range(mem, 8 * at + off, n))
    ensures r == crc || !Top(r)
    ensures n == 0 ==> r == crc
  {
    hide Range, Word, Serial, Top;
    r := crc;
    var j := at + Quotient(off);
    var o := off - 8 * Quotient(off);
    if o < 0 {
      j := j - 1;
      o := o + 8;
    }
    ghost var p := 8 * at + off;
    assert p == 8 * j + o && 0 <= o < 8;
    EmptyRange(mem, p, crc);
    var left := n;
    if o != 0 && left != 0 {
      var k := if 8 - o < left then 8 - o else left;
      RangeInByte(mem, j, o, k);
      ExtendRange(mem, p, 0, k, crc, r);
      r := CrcBits(r, mem[j], o, k);
      j := j + 1;
      left := left - k;
    }
    r, j, left := CrcRest(crc, r, mem, p, n, j, left);
    if left != 0 {
      ExtendRange(mem, p, n - left, left, crc, r);
      RangeInByte(mem, j, 0, left);
      r := CrcBits(r, mem[j], 0, left);
    }
  }

  /** The whole bytes of the remaining range. */
  method CrcRest(crc: bv16, r0: bv16, mem: seq<bv8>, ghost p: nat, n: nat, j0: nat, left0: nat)
      returns (r: bv16, j: nat, left: nat)
    requires p + n <= 8 * |mem| && left0 <= n && Word(r0) == Serial(POLY, Word(crc), Range(mem, p, n - left0))
    requires left0 != 0 ==> 8 * j0 == p + (n - left0)
    requires r0 == crc || !Top(r0)
    requires left0 == n ==> r0 == crc
    ensures left < 8 && left <= n && Word(r) == Serial(POLY, Word(crc), Range(mem, p, n - left))
    ensures left != 0 ==> 8 * j == p + (n - left)
    ensures r == crc || !Top(r)
    ensures left == n ==> r == crc
  {
    hide Range, Word, Serial, Top;
    var k := left0 / 8;
    r, j, left := r0, j0, left0;
    if k != 0 {
      ExtendRange(mem, p, n - left0, 8 * k, crc, r0);
      r := CrcBytes(r0, mem, j0, k);
      j := j0 + k;
      left := left0 - 8 * k;
    }
  }
}
