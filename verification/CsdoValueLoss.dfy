/** What value requests that are refused do to the transfer under way, with runs. */
module CsdoValueLoss {
  import opened MemBuf
  import opened CsdoModel
  import opened CsdoListens
  import opened CsdoValue
  import CsdoRuns
  import CsdoUploadSize
  import Seg = CsdoSegDownload

  // ------------------------------------------------------------------ what it does to a download

  /** Two requests for values of the same length, the second while the first is under way. */
  predicate Twins(a: Value, b: Value) { |a.v| == |b.v| && (a.blk || |a.v| > 4) && |a.v| > 0 }

  /**
   The second request is refused, but from then on the client cannot be told from one
   that was asked to download the second value in the first place.
   */
  lemma SecondReplaces(x: Shared, a: Value, b: Value)
    requires x.c.valid && x.c.phase.Wait? && CanFill(x.c, a.v, a.memOk) && Twins(a, b)
    ensures ValueRequested(ValueRequested(x, a), b) == ValueRequested(x, a.(v := b.v))
  {
    hide Requested, ValueRequested;
    var y, z := ValueRequested(x, a), ValueRequested(x, a.(v := b.v));
    IdleRequest(x, a);
    IdleRequest(x, a.(v := b.v));
    RequestData(x.c, a, b);
    RoomAfter(x, a);
    Refused(y, b);
    Overwritten(y, b);
    RoomAfter(x, a.(v := b.v));
    assert y.c.dn == a.v && Overlay(a.v, b.v) == b.v;
  }

  /** The request frame of long data does not depend on them. */
  lemma RequestData(s: Client, a: Value, b: Value)
    requires s.valid && s.phase.Wait? && Twins(a, b)
    ensures var c := Requested(s, KindOf(a), a.idx, a.sub, a.v, a.con);
            && Requested(s, KindOf(a), a.idx, a.sub, b.v, a.con) == c.(dn := b.v) && c.dn == a.v && Busy(c.phase)
  {
    hide Launched;
    var c := Arm(Begun(s, KindOf(a), a.idx, a.sub, a.v, a.con));
    LaunchedIs(c, KindOf(a), a.v);
    LaunchedIs(c.(dn := b.v), KindOf(a), b.v);
  }

  lemma RoomAfter(x: Shared, a: Value)
    requires CanFill(x.c, a.v, a.memOk)
    ensures var r := ValueRequested(x, a).c.room;
            |a.v| <= r && 0 < r && r == if |a.v| > x.c.room then Doubled(MEMBUF_SIZE, |a.v|) else x.c.room
  {
    hide Overlay, Requested;
    RequestRoom(Filled(x, a.v, a.memOk, a.stale).c, a);
  }

  lemma RequestRoom(s: Client, a: Value)
    ensures Requested(s, KindOf(a), a.idx, a.sub, a.v, a.con).room == s.room
  {
  }

  /** The refused value fits the buffer. */
  lemma Overwritten(y: Shared, b: Value)
    requires Busy(y.c.phase) && y.own && |b.v| <= y.c.room && 0 < y.c.room
    ensures ValueRequested(y, b) == Shared(y.c.(up := b.v, dn := Overlay(y.c.dn, b.v)), true)
  {
    hide Overlay;
  }

  /** One more act of a run. */
  lemma ExtendRun(xs: seq<Shared>, acts: seq<Act>, a: Act) returns (xs': seq<Shared>, acts': seq<Act>)
    requires IsValueRun(xs, acts) && Can(xs[|acts|], a)
    ensures IsValueRun(xs', acts') && xs' == xs + [After(xs[|acts|], a)] && acts' == acts + [a]
  {
    hide Can, After;
    xs', acts' := xs + [After(xs[|acts|], a)], acts + [a];
  }

  lemma AckSteps(s: Client, was: seq<Out>, d: Bytes, n: nat)
    requires Seg.Sending(s, was, d, n) && s.recvOn && s.idx < 0x1_0000 && s.sub < 0x100
    ensures var e := RecvE(Ack(s), true);
            && Possible(s, e) && Sound(s) && Seg.Acks(s, e)
            && (n < Seg.Total(d) ==>
                  var c := React(s, e); c.con == s.con && c.recvOn == s.recvOn && c.idx == s.idx && c.sub == s.sub && c.done == s.done)
  {
    hide SpecOf, ToggleOf, DnSegEnter, AbortRes, AbortBy, Seg.Segs;
    AckBits();
    if n < Seg.Total(d) {
      Seg.Room(d, n);
      SegSends(s);
    }
  }

  lemma LastAck(s: Client, was: seq<Out>, d: Bytes)
    requires Seg.Sending(s, was, d, Seg.Total(d)) && s.con.DnCon?
    ensures AbortInd(s, 0).out == was + Seg.Segs(d, Seg.Total(d))
    ensures AbortInd(s, 0).done == s.done + [Done(Asked(s.idx, s.sub, false), 0, [])]
  {
    hide Seg.Segs, Seg.Total;
  }

  /** The server acknowledges whatever the client sends, up to the end of a segmented download of d. */
  lemma {:induction false} AckAll(xs: seq<Shared>, acts: seq<Act>, was: seq<Out>, d: Bytes, n: nat)
    returns (xs': seq<Shared>, acts': seq<Act>)
    requires IsValueRun(xs, acts) && Seg.Sending(xs[|acts|].c, was, d, n) && xs[|acts|].c.recvOn && xs[|acts|].c.con.DnCon?
    requires xs[|acts|].c.idx < 0x1_0000 && xs[|acts|].c.sub < 0x100
    ensures IsValueRun(xs', acts') && acts <= acts'
    ensures forall j | |acts| <= j < |acts'| :: acts'[j].Plain? && acts'[j].e.RecvE?
    ensures var s, c := xs[|acts|].c, xs'[|acts'|].c;
            c.out == was + Seg.Segs(d, Seg.Total(d)) && c.done == s.done + [Done(Asked(s.idx, s.sub, false), 0, [])]
    decreases Seg.Total(d) - n
  {
    hide React, Seg.Segs, Seg.Total, Seg.Sending, AbortInd, Seg.Acks;
    var x := xs[|acts|];
    var e := RecvE(Ack(x.c), true);
    AckSteps(x.c, was, d, n);
    Seg.SegmentStep(x.c, e, was, d, n);
    SendingMax(x.c, was, d, n);
    xs', acts' := ExtendRun(xs, acts, Plain(e));
    if n < Seg.Total(d) {
      xs', acts' := AckAll(xs', acts', was, d, n + 1);
    } else {
      LastAck(x.c, was, d);
    }
  }

  lemma SendingMax(s: Client, was: seq<Out>, d: Bytes, n: nat)
    requires Seg.Sending(s, was, d, n)
    ensures n <= Seg.Total(d)
  {
  }

  /** The client just started, as a run. */
  lemma StartsRun() returns (xs: seq<Shared>, acts: seq<Act>)
    ensures IsValueRun(xs, acts) && acts == [Plain(StartE(true))] && xs == [Shared(NEW, false), Shared(Started(NEW, true), false)]
  {
    acts := [Plain(StartE(true))];
    xs := [Shared(NEW, false), Shared(Started(NEW, true), false)];
  }

  lemma FreshOpens(v: Bytes, r: nat, u: Bytes)
    requires |v| > 4
    ensures var c := Requested(Started(NEW, true), Dn, 0, 0, v, true).(up := u, room := r);
            && Seg.Opened(c, [DnIniReq(0, 0, |v|)], v) && !Seg.Expedited(v) && c.recvOn && c.con.DnCon?
            && c.idx == 0 && c.sub == 0 && c.done == []
  {
  }

  lemma FirstAck(s: Client, was: seq<Out>, d: Bytes)
    requires Seg.Opened(s, was, d) && !Seg.Expedited(d) && s.recvOn && s.idx < 0x1_0000 && s.sub < 0x100
    ensures var e := RecvE(Ack(s), true);
            && Possible(s, e) && Sound(s) && Seg.Answers(s, e) && Sound(s)
            && var c := React(s, e); c.con == s.con && c.recvOn == s.recvOn && c.idx == s.idx && c.sub == s.sub && c.done == s.done
  {
    hide SpecOf, DnSegEnter, AbortRes, AbortBy, Naming;
    AckBits();
    SegSends(s);
  }

  /**
   For any two values of the same length, more than four bytes: a run in which the
   first is accepted, the second refused, and the success that confirms the first has
   sent the second.
   */
  lemma OtherSent(a: Bytes, b: Bytes) returns (xs: seq<Shared>, acts: seq<Act>)
    requires |a| == |b| > 4
    ensures IsValueRun(xs, acts) && |acts| > 3
    ensures acts[..3] == [Plain(StartE(true)), Ask(Value(false, 0, 0, a, true, true, [])), Ask(Value(false, 0, 0, b, true, true, []))]
    ensures forall j | 3 <= j < |acts| :: acts[j].Plain? && acts[j].e.RecvE?
    ensures var c := xs[|acts|].c;
            && c.done == [Done(Asked(0, 0, false), 0, [])]
            && c.out == [DnIniReq(0, 0, |a|)] + Seg.Segs(b, Seg.Total(b))
  {
    hide React, Seg.Segs, Seg.Total, Seg.Sending, Seg.Opened, Seg.Answers, Requested, Started, ValueRequested, CanFill;
    var wa, wb := Value(false, 0, 0, a, true, true, []), Value(false, 0, 0, b, true, true, []);
    xs, acts := StartsRun();
    var x := xs[1];
    StartedFresh(wa);
    StartedFresh(wb);
    SecondReplaces(x, wa, wb);
    IdleRequest(x, wb);
    var y := ValueRequested(x, wb);
    FreshOpens(b, y.c.room, b);
    xs, acts := ExtendRun(xs, acts, Ask(wa));
    xs, acts := ExtendRun(xs, acts, Ask(wb));
    assert xs[3] == y;
    var e := RecvE(Ack(y.c), true);
    FirstAck(y.c, [DnIniReq(0, 0, |b|)], b);
    Seg.InitiateStarts(y.c, e, [DnIniReq(0, 0, |b|)], b);
    xs, acts := ExtendRun(xs, acts, Plain(e));
    var front := acts;
    xs, acts := AckAll(xs, acts, [DnIniReq(0, 0, |b|)], b, 1);
    assert acts[..3] == front[..3];
  }

  lemma StartedFresh(w: Value)
    requires w.memOk && w.v != []
    ensures var s := Started(NEW, true); s.valid && s.phase.Wait? && CanFill(s, w.v, w.memOk)
  {
  }

  // ---------------------------------------------------------------- what it does to an upload

  /** The frame m answers the request for the final segment and carries the bytes still missing. */
  predicate Completes(s: Client, m: Msg) {
    && Frame(m) && s.phase.UpSeg? && m.len >= 1 && SpecOf(m.data[0]).UpSegRes? && ToggleOf(m.data[0]) != s.toggle
    && m.data[0] & 0x01 != 0 && m.len >= 1 + SegSize(m.data[0]) && |s.up| + SegSize(m.data[0]) == s.size
  }

  lemma CompletesUpload(s: Client, m: Msg)
    requires Completes(s, m) && s.con.UpCon?
    ensures var c := UpSegRecv(s, m);
            c.done == s.done + [Done(Asked(s.idx, s.sub, true), 0, s.up + m.data[1..1 + SegSize(m.data[0])])]
  {
    hide SpecOf, ToggleOf, SegSize;
  }

  /**
   A value as long as what has been received so far, refused between two segments:
   the upload still succeeds, and it delivers the value in place of those bytes.  It
   delivers the server's data exactly if the value happens to equal them.
   */
  lemma RefusedReplaces(x: Shared, w: Value, m: Msg)
    requires CsdoRuns.Inv(x.c) && x.c.con.UpCon? && Completes(x.c, m) && |w.v| == |x.c.up| > 0
    ensures var s, c := x.c, ValueRequested(x, w).c;
            var rest, what := m.data[1..1 + SegSize(m.data[0])], Asked(s.idx, s.sub, true);
            && Sound(s) && Sound(c)
            && OnRecv(s, m, true).done == s.done + [Done(what, 0, s.up + rest)]
            && OnRecv(c, m, true).done == s.done + [Done(what, 0, w.v + rest)]
            && (s.up + rest == w.v + rest <==> w.v == s.up)
  {
    hide SpecOf, ToggleOf, SegSize, UpSegRecv, ValueRequested, CsdoRuns.Books;
    var s, c := x.c, ValueRequested(x, w).c;
    Refused(x, w);
    CompletesUpload(s, m);
    CompletesUpload(c, m);
    var rest := m.data[1..1 + SegSize(m.data[0])];
    assert (s.up + rest)[..|s.up|] == s.up && (w.v + rest)[..|w.v|] == w.v;
  }

  // ------------------------------------------------------------------------------ a run

  /** Seven bytes of the eight announced, and the final one. */
  const SEVEN: Msg := Msg(8, [0x00, 1, 2, 3, 4, 5, 6, 7])
  const FINAL: Msg := Msg(8, [0x1d, 8, 0, 0, 0, 0, 0, 0])

  lemma SegBits()
    ensures SpecOf(0x00) == UpSegRes && !ToggleOf(0x00) && SegSize(0x00) == 7 && 0x00 as bv8 & 0x01 == 0
    ensures SpecOf(0x1d) == UpSegRes && ToggleOf(0x1d) && SegSize(0x1d) == 1 && 0x1d as bv8 & 0x01 != 0
  {
  }

  lemma SevenReceived(s: Client)
    requires s.phase.UpSeg? && s.size == 8 && s.up == [] && s.toggle && s.con.UpCon?
    ensures Frame(SEVEN)
    ensures var c := UpSegRecv(s, SEVEN);
            && c.up == [1, 2, 3, 4, 5, 6, 7] && c.con == s.con && c.recvOn == s.recvOn && c.done == s.done && c.idx == s.idx
            && c.sub == s.sub && Completes(c, FINAL)
  {
    hide SpecOf, ToggleOf, SegSize;
    SegBits();
    assert SEVEN.data[1..8] == [1, 2, 3, 4, 5, 6, 7];
  }

  /** The first segment has been asked for: the toggle bit of its answer is the one not set. */
  lemma AsksToggle(s: Client)
    requires s.phase.UpIni? && s.idx == 0 && s.sub == 0 && s.up == [] && !s.toggle
    ensures Frame(CsdoUploadSize.EIGHT)
    ensures var c := UpIniRecv(s, CsdoUploadSize.EIGHT, true); c.toggle && c.recvOn == s.recvOn && c.idx == s.idx && c.sub == s.sub
  {
    hide SpecOf;
    CsdoUploadSize.Bits41();
  }

  lemma Starts(s: Client)
    requires s == Started(NEW, true)
    ensures s.valid && s.phase.Wait? && s.done == [] && Sound(NEW) && Sound(s)
    ensures var c := Requested(s, Up, 0, 0, [], true); !c.toggle && c.done == []
  {
  }

  /** A run in which seven of eight bytes have arrived. */
  lemma SevenOfEight() returns (xs: seq<Shared>, acts: seq<Act>)
    ensures IsValueRun(xs, acts) && |acts| == 4 && forall j | 0 <= j < 4 :: acts[j].Plain?
    ensures var c := xs[4].c;
            && c.up == [1, 2, 3, 4, 5, 6, 7] && c.con.UpCon? && Completes(c, FINAL) && c.done == [] && c.idx == 0 && c.sub == 0
            && c.recvOn
  {
    hide UpIniRecv, UpSegRecv, Requested, Started, Completes;
    var s1 := Started(NEW, true);
    Starts(s1);
    CsdoUploadSize.Asks(s1);
    var s2 := Requested(s1, Up, 0, 0, [], true);
    AsksToggle(s2);
    CsdoUploadSize.EightAnnounced(s2);
    var s3 := UpIniRecv(s2, CsdoUploadSize.EIGHT, true);
    SevenReceived(s3);
    xs, acts := StartsRun();
    xs, acts := ExtendRun(xs, acts, Plain(RequestE(Up, 0, 0, [], true)));
    xs, acts := ExtendRun(xs, acts, Plain(RecvE(CsdoUploadSize.EIGHT, true)));
    xs, acts := ExtendRun(xs, acts, Plain(RecvE(SEVEN, true)));
  }

  /** Seven zeros refused at that point: zeros and the last byte are delivered as a success. */
  lemma ZerosDelivered() returns (xs: seq<Shared>, acts: seq<Act>)
    ensures IsValueRun(xs, acts) && |acts| == 6 && acts[4] == Ask(Value(false, 0, 0, [0, 0, 0, 0, 0, 0, 0], false, true, []))
    ensures xs[4].c.up == [1, 2, 3, 4, 5, 6, 7] && acts[5] == Plain(RecvE(FINAL, true))
    ensures xs[6].c.done == [Done(Asked(0, 0, true), 0, [0, 0, 0, 0, 0, 0, 0, 8])]
  {
    hide OnRecv, ValueRequested, CsdoRuns.Inv, Completes, Listens, Safe;
    xs, acts := SevenOfEight();
    RunKeeps(xs, acts, 4);
    var x, zeros: Bytes := xs[4], [0, 0, 0, 0, 0, 0, 0];
    var w := Value(false, 0, 0, zeros, false, true, []);
    RefusedReplaces(x, w, FINAL);
    RefusedOn(x, w);
    SegBits();
    assert FINAL.data[1..2] == [8];
    assert zeros + [8] == [0, 0, 0, 0, 0, 0, 0, 8];
    xs, acts := ExtendRun(xs, acts, Ask(w));
    xs, acts := ExtendRun(xs, acts, Plain(RecvE(FINAL, true)));
  }

  lemma RefusedOn(x: Shared, w: Value)
    requires Completes(x.c, FINAL)
    ensures Busy(x.c.phase) && ValueRequested(x, w).c.recvOn == x.c.recvOn
  {
    hide ValueRequested, SpecOf;
    Refused(x, w);
  }
}
