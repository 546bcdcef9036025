/**
 Expedited and segmented download: over every run and for every server, what a
 success says about the frames sent and acknowledged.
 */
module CsdoSegDownload {
  import opened MemBuf
  import opened CsdoModel
  import CsdoRuns

  // --------------------------------------------------------------- the data in segments

  /** The segment request i: alternating toggle, seven bytes, and the last one marked. */
  function Seg(d: Bytes, i: nat): (f: Out)
    requires 7 * i <= |d|
  {
    DnSegReq(i % 2 == 1, d[7 * i..Min(|d|, 7 * i + 7)], 7 * i + 7 >= |d|)
  }

  /** The first n segment requests. */
  function Segs(d: Bytes, n: nat): (fs: seq<Out>)
    requires n > 0 ==> 7 * (n - 1) <= |d|
    ensures |fs| == n
  {
    if n == 0 then [] else Segs(d, n - 1) + [Seg(d, n - 1)]
  }

  /** An empty data set still takes one segment. */
  function Total(d: Bytes): nat { if d == [] then 1 else (|d| + 6) / 7 }

  /** The bytes carried by a list of segment requests. */
  function Carried(fs: seq<Out>): Bytes {
    if fs == [] then []
    else Carried(fs[..|fs| - 1]) + if fs[|fs| - 1].DnSegReq? then fs[|fs| - 1].payload else []
  }

  lemma {:induction false} CarriedFirst(d: Bytes, n: nat)
    requires n > 0 ==> 7 * (n - 1) <= |d|
    ensures Carried(Segs(d, n)) == d[..Min(|d|, 7 * n)]
  {
    if n > 0 {
      CarriedFirst(d, n - 1);
      assert Segs(d, n)[..n - 1] == Segs(d, n - 1);
      assert d[..7 * (n - 1)] + d[7 * (n - 1)..Min(|d|, 7 * n)] == d[..Min(|d|, 7 * n)];
    }
  }

  /** All segments carry exactly the data, and only the final one is marked as last. */
  lemma SegsCarry(d: Bytes)
    ensures Carried(Segs(d, Total(d))) == d
    ensures forall i | 0 <= i < Total(d) :: 7 * i <= |d| && (Seg(d, i).last <==> i + 1 == Total(d))
  {
    CarriedFirst(d, Total(d));
  }

  // -------------------------------------------------------------------------- one step

  predicate Expedited(d: Bytes) { 0 < |d| <= 4 }

  /** The request frame: short data travel in it. */
  function Opening(idx: nat, sub: nat, d: Bytes): Out {
    if Expedited(d) then DnExpReq(idx, sub, d) else DnIniReq(idx, sub, |d|)
  }

  /** The frames up to the initiate request are was, and it is not answered yet. */
  predicate Opened(s: Client, was: seq<Out>, d: Bytes) {
    s.phase.DnIni? && s.dn == d && s.size == |d| && !s.toggle && s.cur == (if Expedited(d) then |d| else 0) && s.out == was
  }

  /** n segments have followed and all but the latest are acknowledged. */
  predicate Sending(s: Client, was: seq<Out>, d: Bytes, n: nat) {
    && s.phase.DnSeg? && !Expedited(d) && s.dn == d && s.size == |d| && 0 < n <= Total(d) && s.cur == Min(|d|, 7 * n)
    && s.toggle == (n % 2 == 1) && s.out == was + Segs(d, n)
  }

  /** The server confirms the initiate request. */
  predicate Answers(s: Client, e: Event) {
    s.phase.DnIni? && e.RecvE? && Frame(e.m) && e.m.len >= 4 && SpecOf(e.m.data[0]).DnIniRes? && Names(e.m, s)
  }

  /** The server confirms the segment sent last. */
  predicate Acks(s: Client, e: Event) {
    s.phase.DnSeg? && e.RecvE? && Frame(e.m) && e.m.len >= 1 && SpecOf(e.m.data[0]).DnSegRes? && ToggleOf(e.m.data[0]) != s.toggle
  }

  /** The segment sent on entering the segment state. */
  lemma EntersSegment(s: Client, was: seq<Out>, d: Bytes, n: nat)
    requires !Expedited(d) && s.dn == d && s.size == |d| && n < Total(d) && s.cur == 7 * n && s.toggle == (n % 2 == 1) && s.out == was + Segs(d, n)
    ensures s.cur <= |d| && Sending(DnSegEnter(s), was, d, n + 1)
  {
    hide Segs, Total;
    Room(d, n);
    SendsSeg(s, d, n);
    Flips(n);
    assert was + Segs(d, n) + [Seg(d, n)] == was + (Segs(d, n) + [Seg(d, n)]);
    Extends(d, n);
  }

  lemma SendsSeg(s: Client, d: Bytes, n: nat)
    requires s.dn == d && s.size == |d| && s.cur == 7 * n <= |d| && s.toggle == (n % 2 == 1) && (7 * n < |d| || n == 0)
    ensures DnSegEnter(s) == Arm(s).(phase := DnSeg, toggle := !s.toggle, cur := Min(|d|, 7 * n + 7), out := s.out + [Seg(d, n)])
  {
  }

  lemma Room(d: Bytes, n: nat)
    requires n < Total(d)
    ensures 7 * n <= |d| && (7 * n < |d| || n == 0)
  {
  }

  lemma Flips(n: nat)
    ensures (n + 1) % 2 == 1 <==> n % 2 != 1
  {
  }

  lemma Extends(d: Bytes, n: nat)
    requires 7 * n <= |d|
    ensures Segs(d, n + 1) == Segs(d, n) + [Seg(d, n)]
  {
  }

  lemma EntersEnd(s: Client)
    requires s.cur == s.size == |s.dn| && (s.size > 0 || s.toggle)
    ensures DnSegEnter(s) == AbortInd(s, 0)
  {
  }

  /** The answer to the initiate request leads to the first segment, or confirms an expedited download. */
  lemma InitiateStarts(s: Client, e: Event, was: seq<Out>, d: Bytes)
    requires Opened(s, was, d) && Possible(s, e) && e.RecvE?
    ensures Sound(s)
    ensures var c := React(s, e);
            if !Answers(s, e) then CsdoRuns.Failed(s, c)
            else if Expedited(d) then c == AbortInd(s, 0)
            else Sending(c, was, d, 1)
  {
    hide SpecOf, Names, DnSegEnter, AbortRes, AbortBy, AbortInd, CsdoRuns.Failed;
    CsdoRuns.ByFails(s, e.m);
    CsdoRuns.ResFails(s, s, AC_NO_CS);
    CsdoRuns.ResFails(s, s, AC_ERROR);
    if Expedited(d) { EntersEnd(s); } else {
      assert was + Segs(d, 0) == was;
      EntersSegment(s, was, d, 0);
    }
  }

  /** An acknowledgement leads to the next segment or, after the last one, to a success; anything else fails. */
  lemma SegmentStep(s: Client, e: Event, was: seq<Out>, d: Bytes, n: nat)
    requires Sending(s, was, d, n) && Possible(s, e) && e.RecvE?
    ensures Sound(s)
    ensures var c := React(s, e);
            if !Acks(s, e) then CsdoRuns.Failed(s, c)
            else if n < Total(d) then Sending(c, was, d, n + 1)
            else c == AbortInd(s, 0)
  {
    hide SpecOf, ToggleOf, DnSegEnter, AbortRes, AbortBy, AbortInd, CsdoRuns.Failed, Segs;
    CsdoRuns.ByFails(s, e.m);
    CsdoRuns.ResFails(s, s, AC_NO_CS);
    CsdoRuns.ResFails(s, s, AC_TOGGLE);
    if n < Total(d) { EntersSegment(s, was, d, n); } else { EntersEnd(s); }
  }

  // ------------------------------------------------------------------------------ runs

  /** The download of d asked for at i is under way from then until event j. */
  predicate Under(ss: seq<Client>, es: seq<Event>, i: nat, j: nat, d: Bytes) {
    && CsdoRuns.IsRun(ss, es) && i < j < |es| && es[i].RequestE? && es[i].kind.Dn? && es[i].data == d
    && ss[i].valid && ss[i].phase.Wait?
    && forall k | i < k <= j :: Busy(ss[k].phase)
  }

  /** How many of the events i to j - 1 acknowledge a segment. */
  function Acked(ss: seq<Client>, es: seq<Event>, i: nat, j: nat): nat
    requires i <= j <= |es| < |ss|
    decreases j - i
  {
    if i == j then 0 else Acked(ss, es, i, j - 1) + if Acks(ss[j - 1], es[j - 1]) then 1 else 0
  }

  /** Waiting for the initiate response, or for the acknowledgement of the segment sent last. */
  predicate Progress(s: Client, was: seq<Out>, d: Bytes, acked: nat) {
    (Opened(s, was, d) && acked == 0) || Sending(s, was, d, acked + 1)
  }

  lemma AskedOpens(s: Client, e: Event)
    requires s.valid && s.phase.Wait? && e.RequestE? && e.kind.Dn?
    ensures Sound(s) && Possible(s, e) && Opened(React(s, e), s.out + [Opening(e.idx, e.sub, e.data)], e.data)
  {
  }

  /** The frames sent up to and including the initiate request at i. */
  function Before(ss: seq<Client>, es: seq<Event>, i: nat): seq<Out>
    requires i < |es| && i < |ss| && es[i].RequestE?
  {
    ss[i].out + [Opening(es[i].idx, es[i].sub, es[i].data)]
  }

  lemma StepProgress(s: Client, e: Event, was: seq<Out>, d: Bytes, acked: nat)
    requires Progress(s, was, d, acked) && Possible(s, e)
    ensures Sound(s)
    ensures var c := React(s, e);
            || CsdoRuns.Failed(s, c) || (e == AbortE(0) && !Busy(c.phase))
            || Progress(c, was, d, acked + if Acks(s, e) then 1 else 0)
            || (c == AbortInd(s, 0) && ((Opened(s, was, d) && Expedited(d) && Answers(s, e))
                                        || (Sending(s, was, d, Total(d)) && Acks(s, e) && acked + 1 == Total(d))))
  {
    hide React, Answers, Acks, CsdoRuns.Failed, AbortInd, Segs, Total;
    SoundProgress(s, was, d, acked);
    if e.RecvE? {
      NotBoth(s, e);
      if s.phase.DnIni? { InitiateStarts(s, e, was, d); } else { SegmentStep(s, e, was, d, acked + 1); }
    } else {
      CsdoRuns.ControlFails(s, e);
      OnlyFrames(s, e);
    }
  }

  lemma SoundProgress(s: Client, was: seq<Out>, d: Bytes, acked: nat)
    requires Progress(s, was, d, acked)
    ensures Sound(s) && Busy(s.phase)
  {
  }

  lemma NotBoth(s: Client, e: Event)
    ensures s.phase.DnIni? ==> !Acks(s, e)
  {
  }

  lemma OnlyFrames(s: Client, e: Event)
    requires !e.RecvE?
    ensures !Acks(s, e)
  {
  }

  lemma {:induction false} Progresses(ss: seq<Client>, es: seq<Event>, i: nat, j: nat, d: Bytes)
    requires Under(ss, es, i, j, d)
    ensures Progress(ss[j], Before(ss, es, i), d, Acked(ss, es, i + 1, j))
    decreases j - i
  {
    hide React, Opened, Sending, Acks, Answers, CsdoRuns.Failed, AbortInd;
    if j == i + 1 {
      assert CsdoRuns.Step(ss[i], es[i], ss[i + 1]);
      AskedOpens(ss[i], es[i]);
    } else {
      Progresses(ss, es, i, j - 1, d);
      assert CsdoRuns.Step(ss[j - 1], es[j - 1], ss[j]);
      StepProgress(ss[j - 1], es[j - 1], Before(ss, es, i), d, Acked(ss, es, i + 1, j - 1));
      if CsdoRuns.Failed(ss[j - 1], ss[j]) { CsdoRuns.FailedMeans(ss[j - 1], ss[j]); }
      NotIdle(ss[j - 1]);
    }
  }

  lemma NotIdle(s: Client)
    ensures !Busy(AbortInd(s, 0).phase)
  {
  }

  /**
   What a success at j means: the only frames sent are the expedited request, and it
   was answered; or the initiate request and all segments, and each was acknowledged.
   */
  predicate Completed(ss: seq<Client>, es: seq<Event>, i: nat, j: nat, d: Bytes)
    requires Under(ss, es, i, j, d)
  {
    if Expedited(d) then ss[j + 1].out == Before(ss, es, i) && Answers(ss[j], es[j])
    else ss[j + 1].out == Before(ss, es, i) + Segs(d, Total(d)) && Acked(ss, es, i + 1, j + 1) == Total(d)
  }

  /** A success confirmed at j is what it should be. */
  predicate Earned(ss: seq<Client>, es: seq<Event>, i: nat, j: nat, d: Bytes)
    requires Under(ss, es, i, j, d)
  {
    |ss[j + 1].done| > |ss[j].done| && ss[j + 1].done[|ss[j].done|].ac == 0 ==> Completed(ss, es, i, j, d)
  }

  /**
   Over every run, with timeouts, aborts and any frames from the server: success
   means that all segments of the data, and nothing else, have been sent and each
   acknowledged, unless the application itself aborted with code zero.
   */
  lemma SegmentedDownload(ss: seq<Client>, es: seq<Event>, i: nat, j: nat, d: Bytes)
    requires Under(ss, es, i, j, d) && es[j] != AbortE(0)
    ensures Earned(ss, es, i, j, d)
  {
    hide React, Opened, Sending, Acks, Answers, CsdoRuns.Failed, AbortInd, Segs, Carried;
    Progresses(ss, es, i, j, d);
    var was, acked := Before(ss, es, i), Acked(ss, es, i + 1, j);
    assert CsdoRuns.Step(ss[j], es[j], ss[j + 1]);
    StepProgress(ss[j], es[j], was, d, acked);
    if CsdoRuns.Failed(ss[j], ss[j + 1]) { CsdoRuns.FailedMeans(ss[j], ss[j + 1]); }
    SameOut(ss[j], was, d, acked);
    CsdoRuns.ConfirmedIdle(ss, es, j);
    var next := Acked(ss, es, i + 1, j + 1);
    if Progress(ss[j + 1], was, d, next) { SoundProgress(ss[j + 1], was, d, next); }
  }

  lemma SameOut(s: Client, was: seq<Out>, d: Bytes, acked: nat)
    requires Progress(s, was, d, acked)
    ensures AbortInd(s, 0).out == s.out
    ensures Opened(s, was, d) ==> s.out == was
    ensures Sending(s, was, d, Total(d)) ==> s.out == was + Segs(d, Total(d)) && !Expedited(d)
  {
  }

  // ------------------------------------------------------------ aborts by the application

  /** No run has an abort with code ac that confirms a download that is not complete. */
  ghost predicate AbortsWell(ac: nat) {
    forall ss, es, i, j, d | 0 <= i && Under(ss, es, i, j, d) && es[j] == AbortE(ac) :: Earned(ss, es, i, j, d)
  }

  lemma AbortAtOnce(s: Client, d: Bytes)
    requires s == Requested(Started(NEW, true), Dn, 0, 0, d, true)
    ensures s.con.DnCon? && s.phase.DnIni? && Sound(s)
    ensures var c := React(s, AbortE(0)); |c.done| == |s.done| + 1 && c.done[|s.done|].ac == 0
  {
  }

  /** A download of any data, aborted with code zero before the server has answered, is confirmed as a success. */
  lemma Unanswered(d: Bytes) returns (ss: seq<Client>, es: seq<Event>)
    ensures Under(ss, es, 1, 2, d) && es == [StartE(true), RequestE(Dn, 0, 0, d, true), AbortE(0)] && |ss| == 4
    ensures |ss[3].done| == |ss[2].done| + 1 && ss[3].done[|ss[2].done|].ac == 0
    ensures !Earned(ss, es, 1, 2, d)
  {
    hide React, Requested, Started, Opening, Segs;
    var s1 := Started(NEW, true);
    var s2 := Requested(s1, Dn, 0, 0, d, true);
    AbortAtOnce(s2, d);
    es := [StartE(true), RequestE(Dn, 0, 0, d, true), AbortE(0)];
    ss := [NEW, s1, s2, React(s2, es[2])];
    Begins(s1, d);
    assert CsdoRuns.Step(NEW, es[0], s1);
    assert CsdoRuns.Step(s1, es[1], s2);
    assert CsdoRuns.Step(s2, es[2], ss[3]);
  }

  lemma Begins(s1: Client, d: Bytes)
    requires s1 == Started(NEW, true)
    ensures Sound(NEW) && React(NEW, StartE(true)) == s1 && s1.valid && s1.phase.Wait? && Sound(s1)
    ensures React(s1, RequestE(Dn, 0, 0, d, true)) == Requested(s1, Dn, 0, 0, d, true)
  {
  }

  /** Every success is that of a complete download, exactly if the application aborts with codes other than zero. */
  lemma AbortCodes(ac: nat)
    ensures AbortsWell(ac) <==> ac != 0
  {
    hide React, Earned, CsdoRuns.IsRun;
    if ac == 0 {
      var ss, es := Unanswered([]);
      assert !Earned(ss, es, 1, 2, []);
    } else {
      forall ss, es, i, j, d | 0 <= i && Under(ss, es, i, j, d) && es[j] == AbortE(ac) ensures Earned(ss, es, i, j, d) {
        SegmentedDownload(ss, es, i, j, d);
      }
    }
  }
}
