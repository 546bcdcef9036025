/**
 Concise DCF buffers (object 1F22h of CiA 302-3): their encoding, the two
 validators, the generator that emits them again, and the chain of downloads.
 */
module ConciseDcf {
  import opened Options
  import opened Sequences
  import CsdoModel

  type Byte = x: int | 0 <= x < 0x100

  datatype Entry = Entry(index: nat, sub: nat, value: seq<Byte>)
  const U32: nat := 0x1_0000_0000

  // --------------------------------------------------------------------- encoding

  function Put16(n: nat): (s: seq<Byte>)
    ensures |s| == 2
  {
    [n % 0x100, n / 0x100 % 0x100]
  }

  function Put32(n: nat): (s: seq<Byte>)
    ensures |s| == 4
  {
    Put16(n % 0x1_0000) + Put16(n / 0x1_0000 % 0x1_0000)
  }

  function Get16(s: seq<Byte>): (n: nat)
    requires |s| == 2
    ensures n < 0x1_0000
  {
    var lo: int, hi: int := s[0], s[1];
    lo + 0x100 * hi
  }

  /** Little-endian 32-bit field. */
  function Get32(s: seq<Byte>): (n: nat)
    requires |s| == 4
    ensures n < U32
  {
    Get16(s[..2]) + 0x1_0000 * Get16(s[2..])
  }

  lemma Fields16(n: nat, s: seq<Byte>)
    requires n < 0x1_0000 && |s| == 2
    ensures Get16(Put16(n)) == n && Put16(Get16(s)) == s
  {
  }

  lemma GetPut32(n: nat)
    requires n < U32
    ensures Get32(Put32(n)) == n
  {
  }

  lemma PutGet32(s: seq<Byte>)
    requires |s| == 4
    ensures Put32(Get32(s)) == s
  {
    hide Get16, Put16;
    var lo, hi := Get16(s[..2]), Get16(s[2..]);
    Fields16(lo, s[..2]);
    Fields16(hi, s[2..]);
    Split(lo, hi);
    assert s == s[..2] + s[2..];
  }

  lemma Split(lo: nat, hi: nat)
    requires lo < 0x1_0000 && hi < 0x1_0000
    ensures var n := lo + 0x1_0000 * hi; n % 0x1_0000 == lo && n / 0x1_0000 % 0x1_0000 == hi
  {
  }

  lemma Fields32(n: nat, s: seq<Byte>)
    requires n < U32 && |s| == 4
    ensures Get32(Put32(n)) == n && Put32(Get32(s)) == s
  {
    GetPut32(n);
    PutGet32(s);
  }

  /** Values that fit the fields of an entry. */
  predicate Fits(e: Entry) { e.index < 0x1_0000 && e.sub < 0x100 && |e.value| < U32 }

  predicate AllFit(es: seq<Entry>) { forall i | 0 <= i < |es| :: Fits(es[i]) }

  function Header(e: Entry): (s: seq<Byte>)
    requires Fits(e)
    ensures |s| == 7
  {
    Put16(e.index) + [e.sub] + Put32(|e.value|)
  }

  function Body(es: seq<Entry>): seq<Byte>
    requires AllFit(es)
  {
    if es == [] then [] else Header(es[0]) + es[0].value + Body(es[1..])
  }

  predicate Encodable(es: seq<Entry>) { 0 < |es| < U32 && AllFit(es) }

  function Encode(es: seq<Entry>): seq<Byte>
    requires Encodable(es)
  {
    Put32(|es|) + Body(es)
  }

  // --------------------------------------------------------------------- decoding

  /** The entry at the start of s, if its header and value are all there. */
  function First(s: seq<Byte>): (r: Option<Entry>)
    ensures r.Some? ==> Fits(r.value) && 7 + |r.value.value| <= |s|
  {
    if |s| < 7 || Get32(s[3..7]) > |s| - 7 then None
    else Some(Entry(Get16(s[..2]), s[2], s[7..7 + Get32(s[3..7])]))
  }

  /** Exactly n entries and nothing behind them. */
  function Decode(s: seq<Byte>, n: nat): (r: Option<seq<Entry>>)
    decreases n
  {
    if n == 0 then if s == [] then Some([]) else None
    else
      var e := First(s);
      if e.None? then None
      else
        var rest := Decode(s[7 + |e.value.value|..], n - 1);
        if rest.None? then None else Some([e.value] + rest.value)
  }

  lemma FirstOf(e: Entry, rest: seq<Byte>)
    requires Fits(e)
    ensures First(Header(e) + e.value + rest) == Some(e)
    ensures (Header(e) + e.value + rest)[7 + |e.value|..] == rest
  {
    var s := Header(e) + e.value + rest;
    assert s[..2] == Put16(e.index) && s[2] == e.sub && s[3..7] == Put32(|e.value|);
    Fields16(e.index, s[..2]);
    Fields32(|e.value|, s[3..7]);
    assert s[7..7 + |e.value|] == e.value;
  }

  lemma FirstIs(s: seq<Byte>)
    requires First(s).Some?
    ensures s == Header(First(s).value) + First(s).value.value + s[7 + |First(s).value.value|..]
  {
    var e := First(s).value;
    Fields16(0, s[..2]);
    Fields32(0, s[3..7]);
    assert s == s[..2] + [s[2]] + s[3..7] + s[7..7 + |e.value|] + s[7 + |e.value|..];
  }

  lemma {:induction false} DecodeBody(es: seq<Entry>)
    requires AllFit(es)
    ensures Decode(Body(es), |es|) == Some(es)
    decreases |es|
  {
    if es != [] {
      FirstOf(es[0], Body(es[1..]));
      DecodeBody(es[1..]);
      assert [es[0]] + es[1..] == es;
    }
  }

  lemma {:induction false} BodyOfDecoded(s: seq<Byte>, n: nat)
    requires Decode(s, n).Some?
    ensures var es := Decode(s, n).value; |es| == n && AllFit(es) && Body(es) == s
    decreases n
  {
    if n > 0 {
      var e := First(s).value;
      var t := s[7 + |e.value|..];
      FirstIs(s);
      BodyOfDecoded(t, n - 1);
      var es := Decode(s, n).value;
      assert es[0] == e && es[1..] == Decode(t, n - 1).value;
    }
  }

  /** A whole buffer: a non-zero count and that many entries. */
  function Parsed(data: seq<Byte>): Option<seq<Entry>> {
    if |data| < 4 || Get32(data[..4]) == 0 then None else Decode(data[4..], Get32(data[..4]))
  }

  /** Decoding inverts encoding. */
  lemma ParseEncoded(es: seq<Entry>)
    requires Encodable(es)
    ensures Parsed(Encode(es)) == Some(es)
  {
    var data := Encode(es);
    assert data[..4] == Put32(|es|) && data[4..] == Body(es);
    Fields32(|es|, data[..4]);
    DecodeBody(es);
  }

  /** Every accepted buffer is the encoding of the entries decoded from it. */
  lemma EncodeParsed(data: seq<Byte>)
    requires Parsed(data).Some?
    ensures Encodable(Parsed(data).value) && Encode(Parsed(data).value) == data
  {
    BodyOfDecoded(data[4..], Get32(data[..4]));
    Fields32(0, data[..4]);
    assert data == data[..4] + data[4..];
  }

  /** The buffer is the encoding of some non-empty list of entries. */
  ghost predicate IsEncoding(data: seq<Byte>) { exists es :: Encodable(es) && Encode(es) == data }

  lemma ParsedIffEncoding(data: seq<Byte>)
    ensures Parsed(data).Some? <==> IsEncoding(data)
  {
    if Parsed(data).Some? { EncodeParsed(data); }
    if IsEncoding(data) {
      var es :| Encodable(es) && Encode(es) == data;
      ParseEncoded(es);
    }
  }

  // ------------------------------------------------------------------- validators

  lemma DecodeStep(data: seq<Byte>, offset: nat, n: nat)
    requires offset <= |data| && n > 0
    ensures var s := data[offset..];
            && (|s| < 7 || Get32(data[offset + 3..offset + 7]) > |s| - 7 <==> First(s).None?)
            && (First(s).None? ==> Decode(s, n).None?)
            && (First(s).Some? ==>
                  var v := First(s).value.value;
                  var rest := Decode(data[offset + 7 + |v|..], n - 1);
                  && |v| == Get32(data[offset + 3..offset + 7]) && (Decode(s, n).Some? <==> rest.Some?)
                  && (rest.Some? ==> Decode(s, n).value == [First(s).value] + rest.value))
  {
    var s := data[offset..];
    if |s| >= 7 {
      assert s[3..7] == data[offset + 3..offset + 7];
      if First(s).Some? { assert s[7 + |First(s).value.value|..] == data[offset + 7 + |First(s).value.value|..]; }
    }
  }

  /** lely_rtt_master_cfg_validate_dcf: accept exactly the encodings, and count their entries. */
  method Validate(data: seq<Byte>) returns (ok: bool, entries: nat)
    ensures ok <==> IsEncoding(data)
    ensures ok ==> Parsed(data).Some? && entries == |Parsed(data).value|
  {
    hide Decode, First, Encode;
    ParsedIffEncoding(data);
    entries := 0;
    if |data| < 4 { return false, 0; }
    var count := Get32(data[..4]);
    if count == 0 { return false, 0; }
    var offset := 4;
    var i := 0;
    while i < count
      invariant 0 <= i <= count && 4 <= offset <= |data|
      invariant Decode(data[4..], count).Some? <==> Decode(data[offset..], count - i).Some?
    {
      DecodeStep(data, offset, count - i);
      if |data| - offset < 7 { return false, 0; }
      var size := Get32(data[offset + 3..offset + 7]);
      offset := offset + 7;
      if size > |data| - offset { return false, 0; }
      offset := offset + size;
      i := i + 1;
    }
    DecodeNone(data, offset);
    if offset != |data| { return false, 0; }
    BodyOfDecoded(data[4..], count);
    return true, count;
  }

  lemma DecodeNone(data: seq<Byte>, offset: nat)
    requires offset <= |data|
    ensures Decode(data[offset..], 0).Some? <==> offset == |data|
    ensures offset == |data| ==> Decode(data[offset..], 0) == Some([])
  {
  }

  /** parse_concise_dcf: the entries, or an error. */
  method ParseBuffer(data: seq<Byte>) returns (r: Option<seq<Entry>>)
    ensures r == Parsed(data)
    ensures r.Some? <==> IsEncoding(data)
    ensures r.Some? ==> Encodable(r.value) && Encode(r.value) == data
  {
    hide Decode, First, Encode;
    ParsedIffEncoding(data);
    if |data| < 4 { return None; }
    var count := Get32(data[..4]);
    if count == 0 { return None; }
    var entries: seq<Entry> := [];
    var offset := 4;
    var no := 1;
    NoEntries(Decode(data[offset..], count));
    while no <= count
      invariant 1 <= no <= count + 1 && 4 <= offset <= |data|
      invariant var rest := Decode(data[offset..], count + 1 - no);
                Decode(data[4..], count) == if rest.Some? then Some(entries + rest.value) else None
    {
      DecodeStep(data, offset, count + 1 - no);
      if |data| - offset < 7 { return None; }
      var size := Get32(data[offset + 3..offset + 7]);
      var e := Entry(Get16(data[offset..offset + 2]), data[offset + 2], []);
      if size <= |data| - (offset + 7) { EntryAt(data, offset); }
      offset := offset + 7;
      if size > |data| - offset { return None; }
      e := e.(value := data[offset..offset + size]);
      offset := offset + size;
      Reassoc(entries, e, Decode(data[offset..], count - no));
      entries := entries + [e];
      no := no + 1;
    }
    DecodeNone(data, offset);
    if offset != |data| { return None; }
    assert entries + [] == entries;
    EncodeParsed(data);
    return Some(entries);
  }

  lemma NoEntries(r: Option<seq<Entry>>)
    ensures r == if r.Some? then Some([] + r.value) else None
  {
    if r.Some? { assert [] + r.value == r.value; }
  }

  lemma Reassoc(es: seq<Entry>, e: Entry, r: Option<seq<Entry>>)
    ensures r.Some? ==> es + ([e] + r.value) == (es + [e]) + r.value
  {
  }

  lemma EntryAt(data: seq<Byte>, offset: nat)
    requires offset + 7 <= |data| && Get32(data[offset + 3..offset + 7]) <= |data| - (offset + 7)
    ensures var size := Get32(data[offset + 3..offset + 7]);
            First(data[offset..]) == Some(Entry(Get16(data[offset..offset + 2]), data[offset + 2], data[offset + 7..offset + 7 + size]))
  {
    var s := data[offset..];
    assert s[3..7] == data[offset + 3..offset + 7] && s[..2] == data[offset..offset + 2];
    assert s[7..7 + Get32(s[3..7])] == data[offset + 7..offset + 7 + Get32(s[3..7])];
  }

  // ---------------------------------------------------------------------- generator

  /** _format_bytes: rows of at most twelve bytes. */
  method FormatBytes(data: seq<Byte>) returns (lines: seq<seq<Byte>>)
    ensures Flat(lines) == data
    ensures forall i | 0 <= i < |lines| :: |lines[i]| <= 12
  {
    lines := [];
    var start := 0;
    while start < |data|
      invariant 0 <= start <= |data|
      invariant Flat(lines) == data[..start]
      invariant forall i | 0 <= i < |lines| :: |lines[i]| <= 12
    {
      var end := if start + 12 <= |data| then start + 12 else |data|;
      assert data[..end] == data[..start] + data[start..end];
      assert (lines + [data[start..end]])[..|lines|] == lines;
      lines := lines + [data[start..end]];
      start := end;
    }
    assert data[..start] == data;
  }

  lemma {:induction false} BodySnoc(es: seq<Entry>, i: nat)
    requires AllFit(es) && i < |es|
    ensures Body(es[..i + 1]) == Body(es[..i]) + Header(es[i]) + es[i].value
    decreases i
  {
    hide Header;
    if i == 0 {
      assert es[..1] == [es[0]] && es[..1][1..] == [] && es[..0] == [];
    } else {
      var t := es[1..];
      BodySnoc(t, i - 1);
      assert es[..i + 1][1..] == t[..i] && es[..i][1..] == t[..i - 1] && t[i - 1] == es[i];
      var e := Header(es[0]) + es[0].value;
      assert Body(es[..i + 1]) == e + Body(t[..i]) && Body(es[..i]) == e + Body(t[..i - 1]);
    }
  }

  /** render_source: the bytes emitted are the encoding of the entries. */
  method Render(es: seq<Entry>) returns (lines: seq<seq<Byte>>)
    requires Encodable(es)
    ensures Flat(lines) == Encode(es)
  {
    hide Body, Header, Flat;
    lines := FormatBytes(Put32(|es|));
    var i := 0;
    EmptyBody(es);
    while i < |es|
      invariant 0 <= i <= |es|
      invariant Flat(lines) == Put32(|es|) + Body(es[..i])
    {
      var h := FormatBytes(Header(es[i]));
      var v := FormatBytes(es[i].value);
      FlatConcat(lines, h);
      FlatConcat(lines + h, v);
      BodySnoc(es, i);
      lines := lines + h + v;
      i := i + 1;
    }
    assert es[..i] == es;
  }

  lemma EmptyBody(es: seq<Entry>)
    requires AllFit(es)
    ensures Body(es[..0]) == []
  {
  }

  /** A buffer accepted by the generator is emitted again unchanged. */
  method Regenerate(data: seq<Byte>) returns (lines: Option<seq<seq<Byte>>>)
    ensures lines.Some? <==> IsEncoding(data)
    ensures lines.Some? ==> Flat(lines.value) == data
  {
    var r := ParseBuffer(data);
    if r.None? { return None; }
    var l := Render(r.value);
    return Some(l);
  }

  // -------------------------------------------------------------- chain of downloads

  /** What the chain does when a download is confirmed. */
  datatype Action = Issue(e: Entry) | Finish(index: nat, sub: nat, ac: nat)

  /** The pending part of a concise DCF download. */
  class Chain {
    var n: nat
    var begin: nat
    var data: seq<Byte>

    constructor (buffer: seq<Byte>)
      ensures n == 0 && begin == 0 && data == buffer
    {
      n, begin, data := 0, 0, buffer;
    }

    /** The bytes not yet submitted. */
    function Left(): seq<Byte>
      reads this
    {
      if begin <= |data| then data[begin..] else []
    }

    /** co_csdo_dn_dcf_req: read the count and act as if a download had just been confirmed. */
    method Start() returns (a: Action)
      modifies this
      ensures data == old(data)
      ensures if |data| < 4 then a == Finish(0, 0, CsdoModel.AC_TYPE_LEN_LO)
              else a == NextAction(data[4..], Get32(data[..4]), 0, 0, 0)
      ensures a.Issue? ==> n == Get32(data[..4]) - 1 && begin == 11 + |a.e.value| <= |data|
    {
      var ac := 0;
      if |data| < 4 {
        ac := CsdoModel.AC_TYPE_LEN_LO;
        n := 0;
      } else {
        n := Get32(data[..4]);
      }
      begin := 4;
      a := Confirmed(0, 0, ac);
    }

    /** co_csdo_dn_dcf_dn_con: submit the next entry, or confirm the whole download. */
    method Confirmed(index: nat, sub: nat, ac: nat) returns (a: Action)
      requires ac == 0 ==> begin <= |data|
      modifies this
      ensures data == old(data)
      ensures a == NextAction(old(Left()), old(n), index, sub, ac)
      ensures a.Issue? ==> n == old(n) - 1 && begin == old(begin) + 7 + |a.e.value| <= |data|
    {
      if ac == 0 && n > 0 {
        n := n - 1;
        if |data| - begin < 2 { n, begin := 0, 0; return Finish(0, 0, CsdoModel.AC_TYPE_LEN_LO); }
        var i := Get16(data[begin..begin + 2]);
        if |data| - begin < 3 { n, begin := 0, 0; return Finish(i, 0, CsdoModel.AC_TYPE_LEN_LO); }
        var s := data[begin + 2];
        if |data| - begin < 7 { n, begin := 0, 0; return Finish(i, s, CsdoModel.AC_TYPE_LEN_LO); }
        var size := Get32(data[begin + 3..begin + 7]);
        ShortEntry(data, begin);
        if |data| - begin - 7 < size { n, begin := 0, 0; return Finish(i, s, CsdoModel.AC_TYPE_LEN_LO); }
        EntryAt(data, begin);
        begin := begin + 7;
        a := Issue(Entry(i, s, data[begin..begin + size]));
        begin := begin + size;
        return;
      }
      n, begin := 0, 0;
      a := Finish(index, sub, ac);
    }
  }

  /** The chain as a function of the bytes left and the number of entries left. */
  function NextAction(left: seq<Byte>, n: nat, index: nat, sub: nat, ac: nat): Action {
    if ac != 0 || n == 0 then Finish(index, sub, ac)
    else
      var e := First(left);
      if e.Some? then Issue(e.value)
      else if |left| < 2 then Finish(0, 0, CsdoModel.AC_TYPE_LEN_LO)
      else if |left| < 3 then Finish(Get16(left[..2]), 0, CsdoModel.AC_TYPE_LEN_LO)
      else Finish(Get16(left[..2]), left[2], CsdoModel.AC_TYPE_LEN_LO)
  }

  lemma ShortEntry(data: seq<Byte>, begin: nat)
    requires begin + 7 <= |data|
    ensures var s := data[begin..];
            && s[..2] == data[begin..begin + 2] && s[2] == data[begin + 2]
            && (|data| - begin - 7 < Get32(data[begin + 3..begin + 7]) ==> First(s).None?)
  {
    assert data[begin..][3..7] == data[begin + 3..begin + 7];
  }

  /** The entries issued and how the chain ends, when the k-th download is confirmed with replies[k]. */
  function Drive(left: seq<Byte>, n: nat, index: nat, sub: nat, ac: nat, replies: seq<nat>): (r: (seq<Entry>, Option<Action>))
    decreases n
  {
    var a := NextAction(left, n, index, sub, ac);
    if a.Finish? then ([], Some(a))
    else if replies == [] then ([a.e], None)
    else
      var r := Drive(left[7 + |a.e.value|..], n - 1, a.e.index, a.e.sub, replies[0], replies[1..]);
      ([a.e] + r.0, r.1)
  }

  /** The first download that is not confirmed with code zero. */
  function FirstBad(replies: seq<nat>): (k: nat)
    ensures k <= |replies|
    ensures forall i | 0 <= i < k :: replies[i] == 0
    ensures k < |replies| ==> replies[k] != 0
  {
    if replies == [] || replies[0] != 0 then 0 else 1 + FirstBad(replies[1..])
  }

  /**
   For the encoding of es the chain issues its entries in order, one per
   confirmation, up to and including the first that fails, and then ends once with
   that failure, or with zero after the last: it never reports an error of its own.
   */
  lemma {:induction false} ChainIssues(es: seq<Entry>, index: nat, sub: nat, replies: seq<nat>)
    requires AllFit(es) && |replies| == |es|
    ensures var r, k := Drive(Body(es), |es|, index, sub, 0, replies), FirstBad(replies);
            && r.0 == es[..if k < |es| then k + 1 else k]
            && r.1.Some? && r.1.value.Finish? && r.1.value.ac == (if k < |es| then replies[k] else 0)
            && if es == [] then r.1.value == Finish(index, sub, 0)
               else var last := es[if k < |es| then k else k - 1]; r.1.value.index == last.index && r.1.value.sub == last.sub
    decreases |es|
  {
    hide Drive, Header, First;
    if es == [] {
      DriveEnds([], 0, index, sub, 0, replies);
    } else {
      DriveStep(es, index, sub, replies);
      if replies[0] == 0 {
        ChainIssues(es[1..], es[0].index, es[0].sub, replies[1..]);
        Firsts(replies);
        var k := FirstBad(replies[1..]);
        var n := if k < |es[1..]| then k + 1 else k;
        assert [es[0]] + es[1..][..n] == es[..n + 1];
      } else {
        DriveEnds(Body(es[1..]), |es| - 1, es[0].index, es[0].sub, replies[0], replies[1..]);
        assert es[..1] == [es[0]];
      }
    }
  }

  lemma DriveEnds(left: seq<Byte>, n: nat, index: nat, sub: nat, ac: nat, replies: seq<nat>)
    requires ac != 0 || n == 0
    ensures Drive(left, n, index, sub, ac, replies) == ([], Some(Finish(index, sub, ac)))
  {
  }

  lemma DriveStep(es: seq<Entry>, index: nat, sub: nat, replies: seq<nat>)
    requires AllFit(es) && es != [] && |replies| == |es|
    ensures var r := Drive(Body(es[1..]), |es| - 1, es[0].index, es[0].sub, replies[0], replies[1..]);
            Drive(Body(es), |es|, index, sub, 0, replies) == ([es[0]] + r.0, r.1)
  {
    hide Header, First;
    FirstOf(es[0], Body(es[1..]));
    assert NextAction(Body(es), |es|, index, sub, 0) == Issue(es[0]);
  }

  lemma Firsts(replies: seq<nat>)
    requires replies != [] && replies[0] == 0
    ensures FirstBad(replies) == 1 + FirstBad(replies[1..])
  {
  }

  /** The download of an accepted buffer: exactly its entries. */
  lemma DownloadIssuesEntries(data: seq<Byte>, replies: seq<nat>)
    requires Parsed(data).Some? && |replies| == |Parsed(data).value|
    ensures var es, k := Parsed(data).value, FirstBad(replies);
            var r := Drive(data[4..], Get32(data[..4]), 0, 0, 0, replies);
            && r.0 == es[..if k < |es| then k + 1 else k]
            && r.1.Some? && r.1.value.Finish? && r.1.value.ac == (if k < |es| then replies[k] else 0)
  {
    BodyOfDecoded(data[4..], Get32(data[..4]));
    ChainIssues(Parsed(data).value, 0, 0, replies);
  }
}
