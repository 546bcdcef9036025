/**
 The chain of downloads of a concise DCF, run on a Client-SDO: each confirmation
 that the client delivers makes the chain submit the next entry or end.
 */
module DcfChain {
  import opened Options
  import opened MemBuf
  import opened CsdoModel
  import Seg = CsdoSegDownload
  import CsdoRuns
  import CsdoListens
  import opened ConciseDcf

  /** The client with the pending part of the chain; the last four fields are history. */
  datatype Chained = Chained(
    c: Client, on: bool, left: seq<Byte>, n: nat,
    issued: seq<Entry>, was: seq<Out>, acked: nat, ended: seq<Action>)

  function Raw(v: seq<Byte>): (d: Bytes)
    ensures |d| == |v|
  {
    seq(|v|, i requires 0 <= i < |v| => v[i] as bv8)
  }

  /** co_csdo_dn_dcf_dn_con: submit the next entry to the client, or end. */
  function Continue(x: Chained, index: nat, sub: nat, ac: nat): Chained {
    var a := NextAction(x.left, x.n, index, sub, ac);
    match a
    case Issue(e) =>
      IssueMeans(x.left, x.n, index, sub, ac);
      x.(c := Requested(x.c, Dn, e.index, e.sub, Raw(e.value), true), left := x.left[7 + |e.value|..], n := x.n - 1,
         issued := x.issued + [e], was := x.c.out + [Seg.Opening(e.index, e.sub, Raw(e.value))], acked := 0)
    case Finish(_, _, _) => x.(on := false, left := [], n := 0, ended := x.ended + [a])
  }

  lemma IssueMeans(left: seq<Byte>, n: nat, index: nat, sub: nat, ac: nat)
    ensures var a := NextAction(left, n, index, sub, ac);
            a.Issue? ==> n > 0 && ac == 0 && First(left) == Some(a.e) && 7 + |a.e.value| <= |left|
  {
    hide First;
  }

  /** co_csdo_dn_dcf_req on a client that is valid and idle. */
  function Begun(c: Client, data: seq<Byte>): Chained {
    if |data| < 4 then Continue(Chained(c, true, [], 0, [], c.out, 0, []), 0, 0, CsdoModel.AC_TYPE_LEN_LO)
    else Continue(Chained(c, true, data[4..], Get32(data[..4]), [], c.out, 0, []), 0, 0, 0)
  }

  /** An event of the client; a confirmation, while the chain is on, is one of its downloads. */
  function After(x: Chained, e: CsdoModel.Event): Chained
    requires Sound(x.c) && Possible(x.c, e)
  {
    var c := React(x.c, e);
    var x1 := x.(c := c, acked := x.acked + if Seg.Acks(x.c, e) then 1 else 0);
    if x.on && |c.done| > |x.c.done| then
      var d := c.done[|x.c.done|];
      Continue(x1, d.what.idx, d.what.sub, d.ac)
    else x1
  }

  predicate IsChain(c0: Client, data: seq<Byte>, xs: seq<Chained>, evs: seq<CsdoModel.Event>) {
    && |xs| == |evs| + 1 && CsdoRuns.Inv(c0) && c0.valid && c0.phase.Wait? && xs[0] == Begun(c0, data)
    && forall i | 0 <= i < |evs| :: Sound(xs[i].c) && Possible(xs[i].c, evs[i]) && xs[i + 1] == After(xs[i], evs[i])
  }

  // -------------------------------------------------------------------- what is kept

  function AskedFor(es: seq<Entry>): (r: seq<Asked>)
    ensures |r| == |es|
  {
    seq(|es|, i requires 0 <= i < |es| => Asked(es[i].index, es[i].sub, false))
  }

  /** The entry has been confirmed without error. */
  predicate Good(d: Done, e: Entry) { d.what == Asked(e.index, e.sub, false) && d.ac == 0 }

  predicate AllGood(ds: seq<Done>, es: seq<Entry>) { |ds| == |es| && forall i | 0 <= i < |es| :: Good(ds[i], es[i]) }

  /** The confirmations since the start are those of the entries, in order and without error. */
  predicate Succeeded(before: seq<Done>, now: seq<Done>, es: seq<Entry>) {
    before <= now && AllGood(now[|before|..], es)
  }

  /** What the chain still has to submit after k entries. */
  predicate Rest(c0: Client, es: seq<Entry>, x: Chained, k: nat) {
    && x.on && x.ended == [] && AllFit(es) && k <= |es| && x.issued == es[..k] && x.left == Body(es[k..]) && x.n == |es| - k
    && x.c.asked == c0.asked + AskedFor(es[..k])
  }

  /** The download of entry k - 1 is under way, those before it have succeeded and no other has been asked for. */
  predicate Going(c0: Client, es: seq<Entry>, x: Chained) {
    var k := |x.issued|;
    && k > 0 && Rest(c0, es, x, k) && CsdoRuns.Inv(x.c) && x.c.valid && x.c.con.DnCon?
    && Succeeded(c0.done, x.c.done, es[..k - 1])
    && Seg.Progress(x.c, x.was, Raw(es[k - 1].value), x.acked)
  }

  /** All downloads so far have succeeded and the client is idle. */
  predicate Ready(c0: Client, es: seq<Entry>, x: Chained) {
    && Rest(c0, es, x, |x.issued|) && CsdoRuns.Inv(x.c) && x.c.valid && x.c.phase.Wait?
    && Succeeded(c0.done, x.c.done, x.issued)
  }

  lemma FirstLeft(es: seq<Entry>, k: nat)
    requires AllFit(es) && k < |es|
    ensures First(Body(es[k..])) == Some(es[k]) && Body(es[k..])[7 + |es[k].value|..] == Body(es[k + 1..])
  {
    hide First, Header;
    FirstOf(es[k], Body(es[k + 1..]));
    assert es[k..][1..] == es[k + 1..] && es[k..][0] == es[k];
  }

  lemma AskedNext(es: seq<Entry>, k: nat)
    requires k < |es|
    ensures AskedFor(es[..k + 1]) == AskedFor(es[..k]) + [Asked(es[k].index, es[k].sub, false)]
  {
  }

  lemma AskedAt(c: Client, idx: nat, sub: nat, d: Bytes)
    requires c.valid && c.phase.Wait?
    ensures var r := Requested(c, Dn, idx, sub, d, true);
            r.asked == c.asked + [Asked(idx, sub, false)] && r.done == c.done && r.con.DnCon? && r.valid
  {
  }

  /** The request of the next entry is always accepted. */
  lemma Issues(c0: Client, es: seq<Entry>, x: Chained, index: nat, sub: nat)
    requires Ready(c0, es, x) && |x.issued| < |es|
    ensures var x' := Continue(x, index, sub, 0);
            Going(c0, es, x') && x'.issued == es[..|x.issued| + 1]
            && x'.was == x.c.out + [Seg.Opening(es[|x.issued|].index, es[|x.issued|].sub, Raw(es[|x.issued|].value))]
  {
    hide First, CsdoRuns.Inv, Requested, Seg.Opened, Seg.Sending, AskedFor, Body, AllFit;
    var k := |x.issued|;
    var e, d := es[k], Raw(es[k].value);
    FirstLeft(es, k);
    assert NextAction(x.left, x.n, index, sub, 0) == Issue(e);
    AskedNext(es, k);
    AskedAt(x.c, e.index, e.sub, d);
    CsdoRuns.RequestKeeps(x.c, Dn, e.index, e.sub, d, true);
    Seg.AskedOpens(x.c, RequestE(Dn, e.index, e.sub, d, true));
    SoundOf(x.c);
  }

  lemma SoundOf(c: Client)
    requires CsdoRuns.Inv(c)
    ensures Sound(c)
  {
  }

  // ----------------------------------------------------------------- one event of the client

  /** The frames that follow the initiate request of a complete download. */
  function Tail(d: Bytes): seq<Out> { if Seg.Expedited(d) then [] else Seg.Segs(d, Seg.Total(d)) }

  /** The frames sent when a download is confirmed with code zero: all of it, or an abort as the last. */
  predicate Sent(e: CsdoModel.Event, was: seq<Out>, d: Bytes, out: seq<Out>) {
    if e == AbortE(0) then |was| < |out| && was <= out && out[|out| - 1].AbortReq? else out == was + Tail(d)
  }

  /** A download under way: it goes on, or is confirmed, once; a success has sent everything or an abort. */
  predicate Outcome(c: Client, e: CsdoModel.Event, c': Client, was: seq<Out>, d: Bytes, acked: nat) {
    && CsdoRuns.Inv(c') && c'.asked == c.asked
    && if |c'.done| <= |c.done|
       then e != AbortE(0) && c'.done == c.done && c'.con.DnCon? && c'.valid && Seg.Progress(c', was, d, acked + if Seg.Acks(c, e) then 1 else 0)
       else
         && |c'.done| == |c.done| + 1 && c.done <= c'.done && c'.done[|c.done|].what == c.asked[|c.done|]
         && (c'.done[|c.done|].ac == 0 ==> c'.phase.Wait? && c'.valid && Sent(e, was, d, c'.out))
  }

  lemma Confirms(c: Client, e: CsdoModel.Event, was: seq<Out>, d: Bytes, acked: nat)
    requires CsdoRuns.Inv(c) && c.con.DnCon? && c.valid && Seg.Progress(c, was, d, acked) && Possible(c, e)
    ensures |c.asked| == |c.done| + 1 && Sound(c) && Outcome(c, e, React(c, e), was, d, acked)
  {
    hide React, Seg.Acks, Seg.Answers, Seg.Opened, Seg.Sending, CsdoRuns.Failed, AbortInd, CsdoRuns.Flags, CsdoRuns.UpFits;
    var c', next := React(c, e), acked + if Seg.Acks(c, e) then 1 else 0;
    SoundOf(c);
    CsdoRuns.ReactKeeps(c, e);
    Seg.SoundProgress(c, was, d, acked);
    Seg.StepProgress(c, e, was, d, acked);
    if e.RequestE? { BusyRefuses(c, e); } else { CsdoRuns.EventEnds(c, e); }
    if CsdoRuns.Failed(c, c') { CsdoRuns.FailedMeans(c, c'); }
    if Seg.Progress(c', was, d, next) { Seg.SoundProgress(c', was, d, next); }
    Idles(c, c');
    Seg.SameOut(c, was, d, acked);
    Leaves(c);
    PhaseOf(c, was, d, acked);
    if e.RecvE? { RecvValid(c, e); } else { CsdoRuns.ControlFails(c, e); }
    Unexpedited(c, was, d);
    if e == AbortE(0) { AbortSent(c, was, d, acked); }
  }

  lemma AbortSent(c: Client, was: seq<Out>, d: Bytes, acked: nat)
    requires Seg.Progress(c, was, d, acked) && Sound(c) && Busy(c.phase) && c.con.DnCon?
    ensures var c' := React(c, AbortE(0)); Sent(AbortE(0), was, d, c'.out) && |c'.done| > |c.done|
  {
    hide Seg.Segs;
  }

  lemma Unexpedited(c: Client, was: seq<Out>, d: Bytes)
    ensures Seg.Opened(c, was, d) ==> c.out == was
  {
  }

  lemma BusyRefuses(c: Client, e: CsdoModel.Event)
    requires Sound(c) && Busy(c.phase) && e.RequestE?
    ensures React(c, e) == c
  {
  }

  lemma Idles(c: Client, c': Client)
    requires CsdoRuns.Inv(c) && CsdoRuns.Inv(c') && c'.asked == c.asked && c.con.DnCon?
    ensures |c.asked| == |c.done| + 1
    ensures c'.done == c.done ==> c'.con.DnCon? && Busy(c'.phase)
    ensures |c'.done| == |c.done| + 1 ==> c'.done[|c.done|].what == c.asked[|c.done|]
  {
  }

  lemma Leaves(c: Client)
    ensures AbortInd(c, 0).phase.Wait? && AbortInd(c, 0).valid == c.valid
    ensures Sound(c) && Busy(c.phase) ==> React(c, AbortE(0)).phase.Wait? && React(c, AbortE(0)).valid == c.valid
  {
  }

  lemma RecvValid(c: Client, e: CsdoModel.Event)
    requires Sound(c) && Possible(c, e) && e.RecvE? && Busy(c.phase)
    ensures React(c, e).valid == c.valid && !React(c, e).phase.Stopped?
  {
    hide OnRecv;
    CsdoListens.RecvSteady(c, e.m, e.memOk);
  }

  lemma PhaseOf(c: Client, was: seq<Out>, d: Bytes, acked: nat)
    requires Seg.Progress(c, was, d, acked)
    ensures c.phase.DnIni? || c.phase.DnSeg?
  {
  }

  // ----------------------------------------------------------------- one event of the chain

  /** The chain has ended with the confirmation of entry k - 1, reporting its code. */
  predicate EndsWith(c0: Client, es: seq<Entry>, x: Chained, x': Chained, ac: nat) {
    var k, n := |x.issued|, |x'.c.done| - 1;
    && !x'.on && x'.issued == x.issued && 0 < k <= |es| && n == |c0.done| + k - 1
    && Succeeded(c0.done, x'.c.done[..n], es[..k - 1])
    && x'.c.done[n].what == Asked(es[k - 1].index, es[k - 1].sub, false) && x'.c.done[n].ac == ac
    && x'.ended == [Finish(es[k - 1].index, es[k - 1].sub, ac)]
    && (ac == 0 ==> k == |es|)
  }

  /** The next entry has been submitted, and the one before has been sent whole or aborted with code zero. */
  predicate Next(c0: Client, es: seq<Entry>, x: Chained, e: CsdoModel.Event, x': Chained) {
    var k, n := |x.issued|, |x'.was| - 1;
    && 0 < k < |es| && Going(c0, es, x') && x'.issued == es[..k + 1]
    && 0 <= n && x'.was[n] == Seg.Opening(es[k].index, es[k].sub, Raw(es[k].value))
    && Sent(e, x.was, Raw(es[k - 1].value), x'.was[..n])
  }

  predicate Ends(c0: Client, es: seq<Entry>, x: Chained, e: CsdoModel.Event, x': Chained) {
    && 0 < |x.issued| <= |es| && 0 < |x'.c.done|
    && var ac := x'.c.done[|x'.c.done| - 1].ac;
       EndsWith(c0, es, x, x', ac) && (ac == 0 ==> Sent(e, x.was, Raw(es[|x.issued| - 1].value), x'.c.out))
  }

  lemma ChainStep(c0: Client, es: seq<Entry>, x: Chained, e: CsdoModel.Event)
    requires Going(c0, es, x) && Possible(x.c, e)
    ensures Sound(x.c)
    ensures var x' := After(x, e);
            || (e != AbortE(0) && Going(c0, es, x') && x'.issued == x.issued && x'.was == x.was)
            || Next(c0, es, x, e, x') || Ends(c0, es, x, e, x')
  {
    hide React, Seg.Acks, Seg.Progress, CsdoRuns.Inv, Tail, AskedFor, Body, AllFit, First, Seg.Opening, Succeeded, Continue, Sent;
    var k := |x.issued|;
    Confirms(x.c, e, x.was, Raw(es[k - 1].value), x.acked);
    var c := React(x.c, e);
    if |c.done| > |x.c.done| { Told(c0, es, x, e); }
  }

  /** A confirmation makes the chain go on to the next entry, or end. */
  lemma Told(c0: Client, es: seq<Entry>, x: Chained, e: CsdoModel.Event)
    requires Going(c0, es, x) && Possible(x.c, e) && Sound(x.c) && |x.c.asked| == |x.c.done| + 1
    requires Outcome(x.c, e, React(x.c, e), x.was, Raw(es[|x.issued| - 1].value), x.acked)
    requires |React(x.c, e).done| > |x.c.done|
    ensures Next(c0, es, x, e, After(x, e)) || Ends(c0, es, x, e, After(x, e))
  {
    hide React, Seg.Acks, Seg.Progress, CsdoRuns.Inv, Tail, AskedFor, Body, AllFit, First, Seg.Opening, Succeeded, Continue, Sent;
    var k, c, m := |x.issued|, React(x.c, e), |x.c.done|;
    var x1 := x.(c := c, acked := x.acked + if Seg.Acks(x.c, e) then 1 else 0);
    AskedLast(c0.asked, es, k);
    DoneCount(c0.done, x.c.done, es[..k - 1]);
    assert c.done[m].what == Asked(es[k - 1].index, es[k - 1].sub, false);
    assert c.done[..m] == x.c.done;
    Finishes(x1, es[k - 1].index, es[k - 1].sub, c.done[m].ac);
    if c.done[m].ac == 0 {
      SucceededNext(c0.done, c.done, es, k - 1);
      if k < |es| {
        Issues(c0, es, x1, es[k - 1].index, es[k - 1].sub);
        Snoc(c.out, Seg.Opening(es[k].index, es[k].sub, Raw(es[k].value)));
      }
    }
  }

  lemma Snoc(out: seq<Out>, f: Out)
    ensures (out + [f])[..|out|] == out && (out + [f])[|out|] == f
  {
  }

  lemma DoneCount(before: seq<Done>, now: seq<Done>, es: seq<Entry>)
    requires Succeeded(before, now, es)
    ensures |now| == |before| + |es|
  {
  }

  lemma Finishes(x: Chained, index: nat, sub: nat, ac: nat)
    ensures ac != 0 || x.n == 0 ==> Continue(x, index, sub, ac) == x.(on := false, left := [], n := 0, ended := x.ended + [Finish(index, sub, ac)])
  {
  }

  lemma AskedLast(before: seq<Asked>, es: seq<Entry>, k: nat)
    requires 0 < k <= |es|
    ensures (before + AskedFor(es[..k]))[|before| + k - 1] == Asked(es[k - 1].index, es[k - 1].sub, false)
  {
  }

  lemma SucceededNext(before: seq<Done>, now: seq<Done>, es: seq<Entry>, k: nat)
    requires k < |es| && |now| == |before| + k + 1 && Succeeded(before, now[..|before| + k], es[..k])
    requires Good(now[|before| + k], es[k])
    ensures Succeeded(before, now, es[..k + 1])
  {
    hide Good;
    var earlier := now[..|before| + k];
    PrefixOn(before, earlier, now);
    assert now[|before|..] == earlier[|before|..] + [now[|before| + k]];
    GoodNext(earlier[|before|..], es[..k], now[|before| + k], es[k]);
    assert es[..k + 1] == es[..k] + [es[k]];
  }

  lemma GoodNext(ds: seq<Done>, es: seq<Entry>, d: Done, e: Entry)
    requires AllGood(ds, es) && Good(d, e)
    ensures AllGood(ds + [d], es + [e])
  {
    hide Good;
  }

  lemma PrefixOn(a: seq<Done>, b: seq<Done>, c: seq<Done>)
    requires a <= b <= c
    ensures a <= c
  {
  }

  // -------------------------------------------------------------------------------- runs

  /** The first entry is submitted at once. */
  lemma BegunGoes(c0: Client, data: seq<Byte>)
    requires CsdoRuns.Inv(c0) && c0.valid && c0.phase.Wait? && Parsed(data).Some?
    ensures var es, x := Parsed(data).value, Begun(c0, data);
            && es != [] && AllFit(es) && Going(c0, es, x) && x.issued == es[..1]
            && x.was == c0.out + [Seg.Opening(es[0].index, es[0].sub, Raw(es[0].value))]
  {
    hide First, CsdoRuns.Inv, Continue, Seg.Progress, Seg.Opening, Body;
    var es := Parsed(data).value;
    BodyOfDecoded(data[4..], Get32(data[..4]));
    assert es[..0] == [] && es[0..] == es && AskedFor([]) == [];
    Issues(c0, es, Chained(c0, true, data[4..], |es|, [], c0.out, 0, []), 0, 0);
  }

  /** The chain has ended, once. */
  predicate Closed(es: seq<Entry>, x: Chained) {
    !x.on && |x.ended| == 1 && x.ended[0].Finish? && 0 < |x.issued| <= |es| && x.issued == es[..|x.issued|]
  }

  lemma ClosedStays(es: seq<Entry>, x: Chained, e: CsdoModel.Event)
    requires !x.on && Sound(x.c) && Possible(x.c, e)
    ensures var x' := After(x, e); !x'.on && x'.ended == x.ended && x'.issued == x.issued
  {
    hide React;
  }

  lemma EndsClosed(c0: Client, es: seq<Entry>, x: Chained, e: CsdoModel.Event, x': Chained)
    requires Ends(c0, es, x, e, x') && x.issued == es[..|x.issued|]
    ensures Closed(es, x')
  {
  }

  lemma Issued(c0: Client, es: seq<Entry>, x: Chained)
    requires Going(c0, es, x)
    ensures 0 < |x.issued| <= |es| && x.issued == es[..|x.issued|] && x.on && x.ended == []
  {
    hide CsdoRuns.Inv, Seg.Progress;
  }

  lemma NextGoes(c0: Client, es: seq<Entry>, x: Chained, e: CsdoModel.Event, x': Chained)
    requires Next(c0, es, x, e, x')
    ensures Going(c0, es, x')
  {
  }

  /**
   While the chain is on, exactly the entries issued have been asked for, in order, all
   but the latest have succeeded and that one is under way, whatever events come; and
   the chain ends once.
   */
  lemma {:induction false} OneAtATime(c0: Client, data: seq<Byte>, xs: seq<Chained>, evs: seq<CsdoModel.Event>, i: nat)
    requires IsChain(c0, data, xs, evs) && Parsed(data).Some? && i < |xs|
    ensures if xs[i].on then Going(c0, Parsed(data).value, xs[i]) else Closed(Parsed(data).value, xs[i])
  {
    hide Going, Closed, Next, Ends, After, Begun, Parsed, CsdoRuns.Inv;
    var es := Parsed(data).value;
    if i == 0 {
      BegunGoes(c0, data);
      Issued(c0, es, xs[0]);
    } else {
      OneAtATime(c0, data, xs, evs, i - 1);
      var x, e, x' := xs[i - 1], evs[i - 1], xs[i];
      if x.on {
        ChainStep(c0, es, x, e);
        Issued(c0, es, x);
        if Going(c0, es, x') { Issued(c0, es, x'); }
        if Next(c0, es, x, e, x') { NextGoes(c0, es, x, e, x'); Issued(c0, es, x'); }
        if Ends(c0, es, x, e, x') { EndsClosed(c0, es, x, e, x'); OffAt(es, x'); }
      } else {
        ClosedStays(es, x, e);
        ClosedSame(es, x, x');
      }
    }
  }

  lemma OffAt(es: seq<Entry>, x: Chained)
    requires Closed(es, x)
    ensures !x.on
  {
  }

  lemma ClosedSame(es: seq<Entry>, x: Chained, x': Chained)
    requires Closed(es, x) && !x'.on && x'.ended == x.ended && x'.issued == x.issued
    ensures Closed(es, x')
  {
  }

  /**
   The chain ends with the confirmation of the latest entry and reports its code; it
   reports zero only after the last entry, all of them having succeeded.
   */
  lemma EndsOnce(c0: Client, data: seq<Byte>, xs: seq<Chained>, evs: seq<CsdoModel.Event>, i: nat)
    requires IsChain(c0, data, xs, evs) && Parsed(data).Some? && i < |evs| && xs[i].on && !xs[i + 1].on
    ensures Ends(c0, Parsed(data).value, xs[i], evs[i], xs[i + 1])
  {
    hide Going, Closed, Ends, After, Begun, Parsed, CsdoRuns.Inv;
    OneAtATime(c0, data, xs, evs, i);
    ChainStep(c0, Parsed(data).value, xs[i], evs[i]);
    if Going(c0, Parsed(data).value, xs[i + 1]) { Issued(c0, Parsed(data).value, xs[i + 1]); }
  }

  /** The frames of complete downloads of the entries, one after the other. */
  function FramesOf(es: seq<Entry>): seq<Out> {
    if es == [] then []
    else
      var e := es[|es| - 1];
      FramesOf(es[..|es| - 1]) + [Seg.Opening(e.index, e.sub, Raw(e.value))] + Tail(Raw(e.value))
  }

  lemma FramesNext(es: seq<Entry>, k: nat)
    requires k < |es|
    ensures FramesOf(es[..k + 1])
            == FramesOf(es[..k]) + [Seg.Opening(es[k].index, es[k].sub, Raw(es[k].value))] + Tail(Raw(es[k].value))
  {
    assert es[..k + 1][..k] == es[..k];
  }

  /** Before the latest request the frames of the earlier entries have been sent, and no others. */
  predicate SentSoFar(c0: Client, es: seq<Entry>, x: Chained) {
    var k := |x.issued|;
    && 0 < k <= |es|
    && x.was == c0.out + FramesOf(es[..k - 1]) + [Seg.Opening(es[k - 1].index, es[k - 1].sub, Raw(es[k - 1].value))]
  }

  lemma SentNext(c0: Client, es: seq<Entry>, x: Chained, e: CsdoModel.Event, x': Chained)
    requires SentSoFar(c0, es, x) && Next(c0, es, x, e, x') && e != AbortE(0)
    ensures SentSoFar(c0, es, x')
  {
    hide Going, FramesOf, Tail, Seg.Opening;
    FramesNext(es, |x.issued| - 1);
  }

  lemma NoFrames(es: seq<Entry>)
    ensures FramesOf(es[..0]) == []
  {
  }

  // ---------------------------------------------------------------------- aborts with code zero

  /** An abort has been sent since the chain began. */
  predicate Tainted(c0: Client, out: seq<Out>) { exists k | |c0.out| <= k < |out| :: out[k].AbortReq? }

  lemma TaintKept(c0: Client, was: seq<Out>, out: seq<Out>)
    requires Tainted(c0, was) && was <= out
    ensures Tainted(c0, out)
  {
    var k :| |c0.out| <= k < |was| && was[k].AbortReq?;
    assert out[k].AbortReq?;
  }

  /** What has been sent when a download is confirmed with code zero. */
  lemma SentTaints(c0: Client, e: CsdoModel.Event, was: seq<Out>, d: Bytes, out: seq<Out>)
    requires Sent(e, was, d, out) && |c0.out| <= |was|
    ensures |was| <= |out| && (e == AbortE(0) || Tainted(c0, was) ==> Tainted(c0, out))
  {
    hide Tail;
    if e == AbortE(0) {
      assert out[|out| - 1].AbortReq?;
    } else if Tainted(c0, was) {
      TaintKept(c0, was, out);
    }
  }

  /** Before the latest request either an abort with code zero has been sent, or all frames of the earlier entries and no others. */
  predicate SentOrTainted(c0: Client, es: seq<Entry>, x: Chained, clean: bool) {
    |c0.out| <= |x.was| && if clean then SentSoFar(c0, es, x) else Tainted(c0, x.was)
  }

  predicate Clean(evs: seq<CsdoModel.Event>, i: nat)
    requires i <= |evs|
  {
    forall j | 0 <= j < i :: evs[j] != AbortE(0)
  }

  lemma NextTold(c0: Client, es: seq<Entry>, x: Chained, e: CsdoModel.Event, x': Chained, clean: bool)
    requires SentOrTainted(c0, es, x, clean) && Next(c0, es, x, e, x')
    ensures SentOrTainted(c0, es, x', clean && e != AbortE(0))
  {
    hide Going, FramesOf, Tail, Seg.Opening, Tainted, Sent, SentSoFar;
    var k, n := |x.issued|, |x'.was| - 1;
    SentTaints(c0, e, x.was, Raw(es[k - 1].value), x'.was[..n]);
    if clean && e != AbortE(0) { SentNext(c0, es, x, e, x'); }
    else { TaintKept(c0, x'.was[..n], x'.was); }
  }

  lemma {:induction false} RunTold(c0: Client, data: seq<Byte>, xs: seq<Chained>, evs: seq<CsdoModel.Event>, i: nat)
    requires IsChain(c0, data, xs, evs) && Parsed(data).Some? && i < |xs| && xs[i].on
    ensures SentOrTainted(c0, Parsed(data).value, xs[i], Clean(evs, i))
  {
    hide Going, Next, Ends, After, Begun, Parsed, CsdoRuns.Inv, FramesOf, SentOrTainted, Seg.Opening;
    var es := Parsed(data).value;
    if i == 0 {
      BegunGoes(c0, data);
      FirstTold(c0, es, xs[0]);
    } else {
      OneAtATime(c0, data, xs, evs, i - 1);
      var x, e, x' := xs[i - 1], evs[i - 1], xs[i];
      if !x.on {
        ClosedStays(es, x, e);
      } else {
        RunTold(c0, data, xs, evs, i - 1);
        ChainStep(c0, es, x, e);
        Issued(c0, es, x);
        if Next(c0, es, x, e, x') { NextTold(c0, es, x, e, x', Clean(evs, i - 1)); }
        else if Ends(c0, es, x, e, x') { EndsClosed(c0, es, x, e, x'); OffAt(es, x'); }
        else { ToldSame(c0, es, x, x', Clean(evs, i - 1)); }
      }
    }
  }

  lemma ToldSame(c0: Client, es: seq<Entry>, x: Chained, x': Chained, clean: bool)
    requires SentOrTainted(c0, es, x, clean) && x'.was == x.was && x'.issued == x.issued
    ensures SentOrTainted(c0, es, x', clean)
  {
    hide FramesOf, Seg.Opening;
  }

  lemma FirstTold(c0: Client, es: seq<Entry>, x: Chained)
    requires es != [] && x.issued == es[..1] && x.was == c0.out + [Seg.Opening(es[0].index, es[0].sub, Raw(es[0].value))]
    ensures SentOrTainted(c0, es, x, true)
  {
    hide Seg.Opening;
    NoFrames(es);
  }

  lemma TailClean(d: Bytes)
    ensures forall k | 0 <= k < |Tail(d)| :: !Tail(d)[k].AbortReq?
  {
    hide Seg.Segs;
    SegsClean(d, Seg.Total(d));
  }

  lemma {:induction false} SegsClean(d: Bytes, n: nat)
    requires n > 0 ==> 7 * (n - 1) <= |d|
    ensures forall k | 0 <= k < n :: !Seg.Segs(d, n)[k].AbortReq?
  {
    if n > 0 { SegsClean(d, n - 1); }
  }

  /** The frames of complete downloads contain no abort. */
  lemma {:induction false} FramesClean(es: seq<Entry>)
    ensures forall k | 0 <= k < |FramesOf(es)| :: !FramesOf(es)[k].AbortReq?
    decreases |es|
  {
    hide Tail;
    if es != [] {
      FramesClean(es[..|es| - 1]);
      TailClean(Raw(es[|es| - 1].value));
    }
  }

  lemma NotTainted(c0: Client, es: seq<Entry>)
    ensures !Tainted(c0, c0.out + FramesOf(es))
  {
    hide FramesOf;
    FramesClean(es);
    var out := c0.out + FramesOf(es);
    forall k | |c0.out| <= k < |out| ensures !out[k].AbortReq? { assert out[k] == FramesOf(es)[k - |c0.out|]; }
  }

  /**
   A chain that ends with zero has sent exactly the frames of the complete downloads of
   all entries of the buffer, if and only if nobody aborted one of them with code zero.
   */
  lemma SendsAll(c0: Client, data: seq<Byte>, xs: seq<Chained>, evs: seq<CsdoModel.Event>, i: nat)
    requires IsChain(c0, data, xs, evs) && Parsed(data).Some? && i < |evs| && xs[i].on && !xs[i + 1].on
    ensures |xs[i + 1].ended| == 1 && xs[i + 1].ended[0].Finish?
    ensures xs[i + 1].ended[0].ac == 0 ==>
              (xs[i + 1].c.out == c0.out + FramesOf(Parsed(data).value) <==> forall j | 0 <= j <= i :: evs[j] != AbortE(0))
  {
    hide Going, After, Begun, Parsed, CsdoRuns.Inv, FramesOf, Tail, Succeeded, Seg.Opening, Tainted, Sent;
    var es := Parsed(data).value;
    EndsOnce(c0, data, xs, evs, i);
    RunTold(c0, data, xs, evs, i);
    if xs[i + 1].ended[0].ac == 0 {
      SentTaints(c0, evs[i], xs[i].was, Raw(es[|es| - 1].value), xs[i + 1].c.out);
      NotTainted(c0, es);
      if Clean(evs, i) && evs[i] != AbortE(0) { AllSent(c0, es, xs[i], evs[i], xs[i + 1].c.out); }
    }
  }

  lemma AllSent(c0: Client, es: seq<Entry>, x: Chained, e: CsdoModel.Event, out: seq<Out>)
    requires SentSoFar(c0, es, x) && |x.issued| == |es| && e != AbortE(0) && Sent(e, x.was, Raw(es[|es| - 1].value), out)
    ensures out == c0.out + FramesOf(es)
  {
    hide FramesOf, Tail, Seg.Opening;
    var e', n := es[|es| - 1], |es| - 1;
    FramesNext(es, n);
    assert es[..n + 1] == es;
    Assoc(c0.out, FramesOf(es[..n]), [Seg.Opening(e'.index, e'.sub, Raw(e'.value))], Tail(Raw(e'.value)));
  }

  lemma Assoc(a: seq<Out>, b: seq<Out>, c: seq<Out>, d: seq<Out>)
    ensures ((a + b) + c) + d == a + ((b + c) + d)
  {
  }

  /**
   For every entry and every valid, idle client: a run in which the chain that
   downloads it is aborted with code zero and ends with zero, with nothing answered.
   */
  lemma Skipped(c0: Client, e: Entry) returns (xs: seq<Chained>, evs: seq<CsdoModel.Event>)
    requires CsdoRuns.Inv(c0) && c0.valid && c0.phase.Wait? && Fits(e)
    ensures Encodable([e]) && IsChain(c0, Encode([e]), xs, evs) && evs == [AbortE(0)] && Parsed(Encode([e])).Some?
    ensures xs[0].on && !xs[1].on && xs[1].ended == [Finish(e.index, e.sub, 0)]
    ensures xs[1].c.out != c0.out + FramesOf([e])
  {
    hide CsdoRuns.Inv, Parsed, Encode, Begun, After, FramesOf, Next, Ends, Going;
    var data := Encode([e]);
    ParseEncoded([e]);
    BegunGoes(c0, data);
    var x := Begun(c0, data);
    Issued(c0, [e], x);
    GoingMay(c0, [e], x);
    ChainStep(c0, [e], x, AbortE(0));
    xs, evs := [x, After(x, AbortE(0))], [AbortE(0)];
    assert IsChain(c0, data, xs, evs);
    OnlyEnds(c0, [e], x, AbortE(0), xs[1]);
    AbortedZero(x);
    ZeroEnds(c0, [e], x, xs[1]);
    SendsAll(c0, data, xs, evs, 0);
    assert xs[0 + 1] == xs[1] && evs[0] == AbortE(0);
  }

  lemma GoingMay(c0: Client, es: seq<Entry>, x: Chained)
    requires Going(c0, es, x)
    ensures CsdoRuns.Inv(x.c) && x.c.con.DnCon? && Possible(x.c, AbortE(0))
  {
    hide CsdoRuns.Inv, Seg.Progress;
  }

  lemma OnlyEnds(c0: Client, es: seq<Entry>, x: Chained, e: CsdoModel.Event, x': Chained)
    requires |es| == 1 && e == AbortE(0) && (Next(c0, es, x, e, x') || Ends(c0, es, x, e, x'))
    ensures Ends(c0, es, x, e, x')
  {
    hide Going, Sent;
  }

  /** The confirmation that an abort with code zero gives. */
  lemma AbortedZero(x: Chained)
    requires CsdoRuns.Inv(x.c) && x.c.con.DnCon?
    ensures Sound(x.c) && Possible(x.c, AbortE(0))
    ensures var c := React(x.c, AbortE(0)); |c.done| == |x.c.done| + 1 && c.done[|x.c.done|].ac == 0
  {
    hide CsdoRuns.Books, CsdoRuns.UpFits;
  }

  lemma ZeroEnds(c0: Client, es: seq<Entry>, x: Chained, x': Chained)
    requires |es| == 1 && x.on && x.ended == [] && Sound(x.c) && Possible(x.c, AbortE(0)) && x' == After(x, AbortE(0))
    requires var c := React(x.c, AbortE(0)); |c.done| == |x.c.done| + 1 && c.done[|x.c.done|].ac == 0
    requires Ends(c0, es, x, AbortE(0), x') && x.issued == es[..|x.issued|]
    ensures x'.ended == [Finish(es[0].index, es[0].sub, 0)] && !x'.on
  {
    hide React, Sent, Succeeded, Requested;
  }

  // ------------------------------------------------------------- what the confirmation asserts

  /** The client at the moment it calls the confirmation function: before it stops, and with new parameters in place. */
  function Calling(c: Client, e: CsdoModel.Event): Client
    requires Sound(c) && Possible(c, e)
  {
    match e
    case StopE => Aborted(c, CsdoModel.AC_NO_SDO)
    case UpdateE(v) => Aborted(c.(valid := v), CsdoModel.AC_NO_SDO)
    case _ => React(c, e)
  }

  lemma CallingIs(c: Client, e: CsdoModel.Event)
    requires CsdoRuns.Inv(c) && Sound(c) && Possible(c, e) && c.valid && c.con.DnCon? && Busy(c.phase)
    requires |React(c, e).done| > |c.done|
    ensures var k := Calling(c, e); k.phase.Wait? && k.done == React(c, e).done && (k.valid <==> e != UpdateE(false))
  {
    hide CsdoRuns.Inv, AbortRes, OnRecv;
    AbortMeans(c, CsdoModel.AC_NO_SDO);
    match e
    case RecvE(m, memOk) =>
      RecvValid(c, e);
      CsdoRuns.EventEnds(c, e);
    case UpdateE(v) => AbortMeans(c.(valid := v), CsdoModel.AC_NO_SDO);
    case AbortE(ac) => AbortMeans(c, ac);
    case TimeE => AbortMeans(c.(timerOn := false), CsdoModel.AC_TIMEOUT);
    case RequestE(_, _, _, _, _) => BusyRefuses(c, e);
    case StopE =>
    case StartE(_) =>
    case SetTimeoutE(_) =>
  }

  lemma AbortMeans(c: Client, ac: nat)
    ensures AbortRes(c, ac).phase.Wait? && AbortRes(c, ac).valid == c.valid
  {
  }

  /**
   Whenever a download of the chain is confirmed the client is idle, as the chain
   asserts, and it is valid, as the chain asserts as well, if and only if the event
   is not an update that makes the parameters invalid.
   */
  lemma AssertsValid(c0: Client, data: seq<Byte>, xs: seq<Chained>, evs: seq<CsdoModel.Event>, i: nat)
    requires IsChain(c0, data, xs, evs) && Parsed(data).Some? && i < |evs| && xs[i].on
    requires |React(xs[i].c, evs[i]).done| > |xs[i].c.done|
    ensures var k := Calling(xs[i].c, evs[i]);
            k.phase.Wait? && |k.done| == |xs[i].c.done| + 1 && (k.valid <==> evs[i] != UpdateE(false))
  {
    hide After, Begun, Parsed, CsdoRuns.Inv, Seg.Opened, Seg.Sending, React, Calling;
    OneAtATime(c0, data, xs, evs, i);
    var x := xs[i];
    GoingBusy(c0, Parsed(data).value, x);
    CallingIs(x.c, evs[i]);
    CsdoRuns.OneMoreDone(x.c, evs[i]);
  }

  lemma GoingBusy(c0: Client, es: seq<Entry>, x: Chained)
    requires Going(c0, es, x)
    ensures CsdoRuns.Inv(x.c) && x.c.con.DnCon? && x.c.valid && Busy(x.c.phase)
  {
    hide CsdoRuns.Inv, Seg.Opened, Seg.Sending;
    Seg.SoundProgress(x.c, x.was, Raw(es[|x.issued| - 1].value), x.acked);
  }

  /** For every entry and every valid, idle client: a run in which the parameters become invalid during its download. */
  lemma Invalidated(c0: Client, e: Entry) returns (xs: seq<Chained>, evs: seq<CsdoModel.Event>)
    requires CsdoRuns.Inv(c0) && c0.valid && c0.phase.Wait? && Fits(e)
    ensures Encodable([e]) && IsChain(c0, Encode([e]), xs, evs) && evs == [UpdateE(false)] && xs[0].on
    ensures |React(xs[0].c, evs[0]).done| > |xs[0].c.done| && !Calling(xs[0].c, evs[0]).valid
  {
    hide CsdoRuns.Inv, Parsed, Encode, Begun, After, Going, React, Calling;
    var data := Encode([e]);
    ParseEncoded([e]);
    BegunGoes(c0, data);
    var x := Begun(c0, data);
    Issued(c0, [e], x);
    GoingBusy(c0, [e], x);
    SoundOf(x.c);
    UpdateConfirms(x.c);
    CallingIs(x.c, UpdateE(false));
    xs, evs := [x, After(x, UpdateE(false))], [UpdateE(false)];
  }

  lemma UpdateConfirms(c: Client)
    requires Sound(c) && Busy(c.phase) && c.con.DnCon?
    ensures Possible(c, UpdateE(false)) && |React(c, UpdateE(false)).done| > |c.done|
  {
  }
}
