/** Words and bytes as bits, most significant bit first. */
module BitStrings {
  import opened Gf2

  predicate Top(x: bv16) { x & 0x8000 != 0 }

  /** Multiply by two, dropping the top bit. */
  function Twice(x: bv16): bv16 { x << 1 }

  function Xor(x: bv16, y: bv16): bv16 { x ^ y }

  /** The n highest bits of a word. */
  function Bits(x: bv16, n: nat): (s: seq<bool>)
    ensures |s| == n
    decreases n
  {
    if n == 0 then [] else [Top(x)] + Bits(Twice(x), n - 1)
  }

  /** n single shifts. */
  function Up(x: bv16, n: nat): bv16
    decreases n
  {
    if n == 0 then x else Up(Twice(x), n - 1)
  }

  lemma TopXor(x: bv16, y: bv16)
    ensures Top(Xor(x, y)) == (Top(x) != Top(y))
  {
  }

  lemma TwiceXor(x: bv16, y: bv16)
    ensures Twice(Xor(x, y)) == Xor(Twice(x), Twice(y))
  {
  }

  lemma AddLeadCons(a: bool, m: Poly, b: bool, r: Poly)
    requires |m| == |r|
    ensures AddLead([a] + m, [b] + r) == [a != b] + AddLead(m, r)
  {
  }

  lemma {:induction false} BitsXor(x: bv16, y: bv16, n: nat)
    ensures Bits(Xor(x, y), n) == AddLead(Bits(x, n), Bits(y, n))
    decreases n
  {
    hide Top, Twice, Xor;
    if n > 0 {
      TopXor(x, y);
      TwiceXor(x, y);
      BitsXor(Twice(x), Twice(y), n - 1);
      AddLeadCons(Top(x), Bits(Twice(x), n - 1), Top(y), Bits(Twice(y), n - 1));
    }
  }

  lemma {:induction false} BitsLast(x: bv16, n: nat)
    ensures Bits(x, n + 1) == Bits(x, n) + [Top(Up(x, n))]
    decreases n
  {
    hide Top, Twice;
    if n > 0 {
      BitsLast(Twice(x), n - 1);
      assert Bits(x, n + 1) == [Top(x)] + Bits(Twice(x), n);
    } else {
      assert Bits(Twice(x), 0) == [];
    }
  }

  lemma {:induction false} BitsSplit(x: bv16, n: nat, k: nat)
    requires k <= n
    ensures Bits(x, n) == Bits(x, k) + Bits(Up(x, k), n - k)
    decreases n
  {
    hide Top, Twice;
    if k > 0 { BitsSplit(Twice(x), n - 1, k - 1); }
  }

  lemma UpFour(x: bv16, n: nat)
    ensures Up(x, n + 4) == Up(x << 4, n)
  {
    FourTwice(x);
    hide Twice;
    assert Up(x, n + 4) == Up(Twice(x), n + 3) == Up(Twice(Twice(x)), n + 2) == Up(Twice(Twice(Twice(x))), n + 1);
  }

  lemma FourTwice(x: bv16)
    ensures Twice(Twice(Twice(Twice(x)))) == x << 4
  {
  }

  lemma UpSixteen(x: bv16)
    ensures Up(x, 16) == 0
  {
    UpFour(x, 12);
    UpFour(x << 4, 8);
    UpFour((x << 4) << 4, 4);
    UpFour(((x << 4) << 4) << 4, 0);
    assert (((x << 4) << 4) << 4) << 4 == 0;
  }

  /** A byte in the upper half of a word. */
  function Wide(b: bv8): bv16 { (b as bv16) << 8 }

  function ByteBits(b: bv8): (s: seq<bool>)
    ensures |s| == 8
  {
    Bits(Wide(b), 8)
  }

  /** The bit at position i of a byte string. */
  predicate BitAt(data: seq<bv8>, i: nat)
    requires i < 8 * |data|
  {
    ByteBits(data[i / 8])[i % 8]
  }

  /** n bits from bit position p. */
  function Range(data: seq<bv8>, p: nat, n: nat): (s: seq<bool>)
    requires p + n <= 8 * |data|
    ensures |s| == n
    ensures forall i | 0 <= i < n :: s[i] == BitAt(data, p + i)
  {
    seq(n, i requires 0 <= i < n => BitAt(data, p + i))
  }

  /** All bits of a byte string. */
  function Unpack(data: seq<bv8>): (s: seq<bool>)
    ensures |s| == 8 * |data|
  {
    if data == [] then [] else ByteBits(data[0]) + Unpack(data[1..])
  }

  lemma {:induction false} UnpackAt(data: seq<bv8>, i: nat)
    requires i < 8 * |data|
    ensures Unpack(data)[i] == BitAt(data, i)
    decreases |data|
  {
    hide ByteBits;
    if i >= 8 {
      UnpackAt(data[1..], i - 8);
      assert (i - 8) / 8 == i / 8 - 1 && (i - 8) % 8 == i % 8;
    }
  }

  lemma RangeUnpack(data: seq<bv8>, p: nat, n: nat)
    requires p + n <= 8 * |data|
    ensures Range(data, p, n) == Unpack(data)[p..p + n]
  {
    hide BitAt, Unpack;
    forall i | 0 <= i < n ensures Range(data, p, n)[i] == Unpack(data)[p..p + n][i] { UnpackAt(data, p + i); }
  }

  lemma {:induction false} UnpackConcat(a: seq<bv8>, b: seq<bv8>)
    ensures Unpack(a + b) == Unpack(a) + Unpack(b)
    decreases |a|
  {
    hide ByteBits;
    if a == [] {
      assert a + b == b;
    } else {
      assert (a + b)[1..] == a[1..] + b;
      UnpackConcat(a[1..], b);
    }
  }

  lemma UnpackOne(b: bv8)
    ensures Unpack([b]) == ByteBits(b)
  {
  }

  lemma RangeSplit(data: seq<bv8>, p: nat, n: nat, k: nat)
    requires p + n <= 8 * |data| && k <= n
    ensures Range(data, p, n) == Range(data, p, k) + Range(data, p + k, n - k)
  {
    hide BitAt;
  }

  /** Bits inside one byte. */
  lemma RangeInByte(data: seq<bv8>, j: nat, off: nat, n: nat)
    requires j < |data| && off + n <= 8
    ensures Range(data, 8 * j + off, n) == ByteBits(data[j])[off..off + n]
  {
    hide ByteBits;
    var s := Range(data, 8 * j + off, n);
    forall i | 0 <= i < n ensures s[i] == ByteBits(data[j])[off + i] {
      assert (8 * j + off + i) / 8 == j && (8 * j + off + i) % 8 == off + i;
    }
  }
}
