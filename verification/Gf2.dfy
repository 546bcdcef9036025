/**
 Polynomials over GF(2) as bit strings, most significant coefficient first, and
 schoolbook division by a monic polynomial.  This is the reference for both
 cyclic redundancy checks.
 */
module Gf2 {
  type Poly = seq<bool>

  /** m with r added to its leading coefficients. */
  function AddLead(m: Poly, r: Poly): (s: Poly)
    requires |r| <= |m|
    ensures |s| == |m|
    ensures forall i | 0 <= i < |m| :: s[i] == if i < |r| then m[i] != r[i] else m[i]
  {
    seq(|m|, i requires 0 <= i < |m| => if i < |r| then m[i] != r[i] else m[i])
  }

  function Zeros(n: nat): (s: Poly)
    ensures |s| == n && forall i | 0 <= i < n :: !s[i]
  {
    seq(n, _ => false)
  }

  /** Remainder of m by x^|p| + p: subtract the divisor whenever the leading coefficient is one. */
  function Rem(p: Poly, m: Poly): (r: Poly)
    requires |p| > 0
    ensures |r| == if |m| < |p| then |m| else |p|
    decreases |m|
  {
    if |m| <= |p| then m
    else Rem(p, if m[0] then AddLead(m[1..], p) else m[1..])
  }

  /** One clock of the bit-serial checksum register: shift, and subtract the divisor if needed. */
  function Clock(p: Poly, r: Poly, bit: bool): (r': Poly)
    requires |r| == |p| > 0
    ensures |r'| == |p|
  {
    var s := r[1..] + [false];
    if r[0] != bit then AddLead(s, p) else s
  }

  /** The bit-serial checksum of m from register value r. */
  function Serial(p: Poly, r: Poly, m: Poly): (r': Poly)
    requires |r| == |p| > 0
    ensures |r'| == |p|
    decreases |m|
  {
    if m == [] then r else Serial(p, Clock(p, r, m[0]), m[1..])
  }

  /** Checksums split over concatenation. */
  lemma {:induction false} SerialConcat(p: Poly, r: Poly, a: Poly, b: Poly)
    requires |r| == |p| > 0
    ensures Serial(p, r, a + b) == Serial(p, Serial(p, r, a), b)
    decreases |a|
  {
    if a == [] {
      assert a + b == b;
    } else {
      assert (a + b)[1..] == a[1..] + b;
      SerialConcat(p, Clock(p, r, a[0]), a[1..], b);
    }
  }

  /** The register computes the remainder of the message shifted up by the register width. */
  lemma {:induction false} SerialIsRemainder(p: Poly, r: Poly, m: Poly)
    requires |r| == |p| > 0
    ensures Serial(p, r, m) == Rem(p, AddLead(m + Zeros(|p|), r))
    decreases |m|
  {
    var z := Zeros(|p|);
    var a := AddLead(m + z, r);
    if m == [] {
      assert a == r;
    } else {
      var r' := Clock(p, r, m[0]);
      var b := AddLead(m[1..] + z, r');
      assert b == if a[0] then AddLead(a[1..], p) else a[1..];
      SerialIsRemainder(p, r', m[1..]);
    }
  }
}
