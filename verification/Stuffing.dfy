/** Bit stuffing of CAN frames: the rule, its inverse, and what it costs. */
module Stuffing {
  /**
   The bits sent for b when the last bit sent was `last`, the run-th equal one in
   a row: after five equal bits a complementary bit is inserted, which itself
   counts as the first of the next run.
   */
  function Stuffed(b: seq<bool>, last: bool, run: nat): (s: seq<bool>)
    requires run < 5
    decreases |b|
  {
    if b == [] then []
    else
      var n := if b[0] == last then run + 1 else 1;
      if n == 5 then [b[0], !b[0]] + Stuffed(b[1..], !b[0], 1)
      else [b[0]] + Stuffed(b[1..], b[0], n)
  }

  /** The receiver: after five equal bits the next one is dropped. */
  function Destuffed(s: seq<bool>, last: bool, run: nat): seq<bool>
    requires run < 5
    decreases |s|
  {
    if s == [] then []
    else
      var n := if s[0] == last then run + 1 else 1;
      if n == 5 then [s[0]] + if |s| == 1 then [] else Destuffed(s[2..], s[1], 1)
      else [s[0]] + Destuffed(s[1..], s[0], n)
  }

  /** The receiver recovers the frame. */
  lemma {:induction false} DestuffStuffed(b: seq<bool>, last: bool, run: nat)
    requires run < 5
    ensures Destuffed(Stuffed(b, last, run), last, run) == b
    decreases |b|
  {
    if b != [] {
      var n := if b[0] == last then run + 1 else 1;
      var s := Stuffed(b, last, run);
      if n == 5 {
        DestuffStuffed(b[1..], !b[0], 1);
        assert s[2..] == Stuffed(b[1..], !b[0], 1);
      } else {
        DestuffStuffed(b[1..], b[0], n);
        assert s[1..] == Stuffed(b[1..], b[0], n);
      }
    }
  }

  /** The last six bits of run copies of last followed by s never agree. */
  predicate NoSix(s: seq<bool>, last: bool, run: nat)
    decreases |s|
  {
    s == [] || (var n := if s[0] == last then run + 1 else 1; n <= 5 && NoSix(s[1..], s[0], n))
  }

  lemma {:induction false} StuffedNoSix(b: seq<bool>, last: bool, run: nat)
    requires run < 5
    ensures NoSix(Stuffed(b, last, run), last, run)
    decreases |b|
  {
    if b != [] {
      var n := if b[0] == last then run + 1 else 1;
      var s := Stuffed(b, last, run);
      if n == 5 {
        StuffedNoSix(b[1..], !b[0], 1);
        assert s[1..][1..] == Stuffed(b[1..], !b[0], 1);
      } else {
        StuffedNoSix(b[1..], b[0], n);
        assert s[1..] == Stuffed(b[1..], b[0], n);
      }
    }
  }

  /** Number of stuff bits. */
  function Count(b: seq<bool>, last: bool, run: nat): (c: nat)
    requires run < 5
    ensures run > 0 ==> 4 * c <= |b| + run - 1
    ensures run == 0 && |b| > 0 ==> 4 * c <= |b| - 1
    ensures run == 0 && |b| == 0 ==> c == 0
    decreases |b|
  {
    if b == [] then 0
    else
      var n := if b[0] == last then run + 1 else 1;
      if n == 5 then 1 + Count(b[1..], !b[0], 1) else Count(b[1..], b[0], n)
  }

  lemma {:induction false} CountIsExcess(b: seq<bool>, last: bool, run: nat)
    requires run < 5
    ensures |Stuffed(b, last, run)| == |b| + Count(b, last, run)
    decreases |b|
  {
    if b != [] {
      var n := if b[0] == last then run + 1 else 1;
      CountIsExcess(b[1..], if n == 5 then !b[0] else b[0], if n == 5 then 1 else n);
    }
  }

  /** Groups of four equal bits with alternating values. */
  function Groups(n: nat, p: bool): (s: seq<bool>)
    ensures |s| == n
  {
    if n < 4 then seq(n, _ => p) else [p, p, p, p] + Groups(n - 4, !p)
  }

  lemma {:induction false} GroupsCost(n: nat, p: bool)
    ensures Count(Groups(n, p), p, 1) == n / 4
  {
    var g := Groups(n, p);
    if n < 4 {
      SkipShort(g, p, 1, n);
      assert g[n..] == [];
    } else {
      SkipFive(g, p, 1, 4);
      assert g[4..] == Groups(n - 4, !p);
      GroupsCost(n - 4, !p);
    }
  }

  /** For every length some bit string attains the bound on the number of stuff bits. */
  lemma WorstCase(n: nat)
    requires n > 0
    ensures exists b: seq<bool> :: |b| == n && !b[0] && Count(b, false, 0) == (n - 1) / 4
  {
    var b := [false] + Groups(n - 1, false);
    GroupsCost(n - 1, false);
    assert b[1..] == Groups(n - 1, false);
  }

  // ------------------------------------------------------------- skipping runs

  predicate AllEqual(b: seq<bool>, p: bool, k: nat)
    requires k <= |b|
  {
    forall i | 0 <= i < k :: b[i] == p
  }

  /** k more equal bits that do not complete a run of five. */
  lemma {:induction false} SkipShort(b: seq<bool>, p: bool, run: nat, k: nat)
    requires run + k < 5 && k <= |b| && AllEqual(b, p, k)
    ensures Count(b, p, run) == Count(b[k..], p, run + k)
    decreases k
  {
    if k > 0 {
      SkipShort(b[1..], p, run + 1, k - 1);
      assert b[1..][k - 1..] == b[k..];
    } else {
      assert b[0..] == b;
    }
  }

  /** k more equal bits that complete a run of five. */
  lemma SkipFive(b: seq<bool>, p: bool, run: nat, k: nat)
    requires run + k == 5 && 0 < k <= |b| && AllEqual(b, p, k)
    ensures Count(b, p, run) == 1 + Count(b[k..], !p, 1)
  {
    SkipShort(b, p, run, k - 1);
    assert b[k - 1..][1..] == b[k..];
  }

  /** A bit that breaks a run starts the next one, whatever the run's length. */
  lemma Flip(b: seq<bool>, p: bool, run: nat)
    requires run < 5 && b != [] && b[0] != p
    ensures Count(b, p, run) == Count(b, !p, 0)
  {
  }
}
