/** Order-preserving sublists, used for FIFO start order. */
module SdoOrder {
  import opened Options
  import opened SdoModel
  import opened SdoInvariant

  lemma SubSeqAppend(a: seq<Rid>, b: seq<Rid>, x: Rid)
    requires SubSeq(a, b)
    ensures SubSeq(a + [x], b + [x])
  {
  }

  lemma SubSeqExtend(a: seq<Rid>, b: seq<Rid>, x: Rid)
    requires SubSeq(a, b)
    ensures SubSeq(a, b + [x])
  {
  }

  /** The last element of a sublist is matched by the last element of the list or by an earlier one. */
  lemma SubSeqCases(a: seq<Rid>, b: seq<Rid>)
    requires SubSeq(a, b) && a != []
    ensures b != []
    ensures (a[|a| - 1] == b[|b| - 1] && SubSeq(a[..|a| - 1], b[..|b| - 1])) || SubSeq(a, b[..|b| - 1])
  {
  }

  lemma {:induction false} SubSeqDrop(a: seq<Rid>, i: nat, b: seq<Rid>)
    requires i < |a| && SubSeq(a, b)
    ensures SubSeq(a[..i] + a[i + 1..], b)
    decreases |b|
  {
    hide SubSeq;
    SubSeqCases(a, b);
    var a', c := a[..|a| - 1], b[..|b| - 1];
    var d := a[..i] + a[i + 1..];
    if a[|a| - 1] == b[|b| - 1] && SubSeq(a', c) {
      if i == |a| - 1 {
        assert d == a';
        SubSeqExtend(a', c, b[|b| - 1]);
        assert c + [b[|b| - 1]] == b;
      } else {
        SubSeqDrop(a', i, c);
        SubSeqAppend(a'[..i] + a'[i + 1..], c, a[|a| - 1]);
        assert (a'[..i] + a'[i + 1..]) + [a[|a| - 1]] == d;
        assert c + [b[|b| - 1]] == b;
      }
    } else {
      SubSeqDrop(a, i, c);
      SubSeqExtend(d, c, b[|b| - 1]);
      assert c + [b[|b| - 1]] == b;
    }
  }

  lemma {:induction false} SubSeqPrefix(a: seq<Rid>, i: nat, b: seq<Rid>)
    requires i <= |a| && SubSeq(a, b)
    ensures SubSeq(a[..i], b)
    decreases |a|
  {
    if i == |a| {
      assert a[..i] == a;
    } else {
      var a' := a[..|a| - 1];
      SubSeqDrop(a, |a| - 1, b);
      assert a[..|a| - 1] + a[|a|..] == a';
      SubSeqPrefix(a', i, b);
      assert a'[..i] == a[..i];
    }
  }

  /** Without removes one position. */
  lemma {:induction false} WithoutAt(p: seq<Rid>, r: Rid) returns (i: nat)
    requires r in p
    ensures i < |p| && p[i] == r && Without(p, r) == p[..i] + p[i + 1..]
  {
    if p[0] == r {
      i := 0;
    } else {
      var j := WithoutAt(p[1..], r);
      i := j + 1;
      assert p[..i] == [p[0]] + p[1..][..j];
    }
  }

  /** Removing a pending request keeps the others and their distinctness. */
  lemma WithoutMembers(p: seq<Rid>, r: Rid)
    requires NoDup(p) && r in p
    ensures NoDup(Without(p, r)) && |Without(p, r)| < |p|
    ensures forall x :: x in Without(p, r) <==> x in p && x != r
  {
    var i := WithoutAt(p, r);
    var w := p[..i] + p[i + 1..];
    forall x | x in p && x != r ensures x in w {
      var k :| 0 <= k < |p| && p[k] == x;
      assert w[if k < i then k else k - 1] == x;
    }
  }

  /** Removing a pending request keeps the order of the rest. */
  lemma WithoutOrder(s: seq<Rid>, p: seq<Rid>, r: Rid, b: seq<Rid>)
    requires r in p && SubSeq(s + p, b)
    ensures SubSeq(s + Without(p, r), b)
  {
    var i := WithoutAt(p, r);
    SubSeqDrop(s + p, |s| + i, b);
    assert (s + p)[..|s| + i] + (s + p)[|s| + i + 1..] == s + Without(p, r);
  }
}
