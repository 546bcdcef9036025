/** Runs that show where the promises end: a rejected post, and a poster past its second latch load. */
module SdoLimits {
  import opened Options
  import opened SdoModel
  import opened SdoInvariant
  import opened SdoRuns
  import opened SdoTheorems

  /** One node, one request, two threads. */
  datatype Small = Small(q: Req, a: Actor, b: Actor, latch: bool, quiescing: bool, refs: int, mq: seq<Cmd>, got: seq<Cmd>,
                         w: Work, pc: OPc, stage: Stage)

  function Big(s: Small): State {
    State(1, 1, s.latch, s.quiescing, s.refs, s.mq, true, false, 0, 0,
          map[0 := s.q], map[0 := s.a, 1 := s.b], map[1 := s.w], s.pc, [], s.stage, s.got + s.mq, s.got)
  }

  const START: Small := Small(EmptyReq(1), Idle, Idle, false, true, 0, [], [], Work(None, [], [], []), OFree, OpenCheck)

  /** Names used by a small state are all in range. */
  predicate Closed(s: Small) {
    && ReqOfActor(s.a) in {None, Some(0)} && ReqOfActor(s.b) in {None, Some(0)} && ReqOfPc(s.pc) in {None, Some(0)}
    && s.q.node == 1 && s.w.active.None? && s.w.pending == [] && !s.pc.OHead? && !s.pc.OHeadCas?
    && (s.mq == [] || s.mq == [SdoCmd(0)])
  }

  lemma ClosedTyped(s: Small)
    requires Closed(s)
    ensures Typed(Big(s))
  {
  }

  /** l is enabled in s and leads to s'. */
  predicate Can(s: Small, l: Label, s': Small) {
    Typed(Big(s)) && Enabled(Big(s), l) && Apply(Big(s), l) == Big(s')
  }

  lemma Extend(gs: seq<State>, ls: seq<Label>, s: Small, l: Label, s': Small) returns (gs': seq<State>, ls': seq<Label>)
    requires IsRun(gs, ls) && gs[|gs| - 1] == Big(s) && Can(s, l, s')
    ensures gs' == gs + [Big(s')] && ls' == ls + [l] && IsRun(gs', ls')
  {
    hide Typed, Enabled, Apply, Init;
    gs', ls' := gs + [Big(s')], ls + [l];
    forall i | 0 <= i < |ls'| ensures StepsTo(gs'[i], ls'[i], gs'[i + 1]) {
      if i < |ls| { assert StepsTo(gs[i], ls[i], gs[i + 1]); }
    }
  }

  lemma Begun(s: Small)
    requires Closed(s) && s.a.Idle? && s.q.st.New? && s.q.poster.None? && !s.q.retired
    ensures Can(s, ByApp(PostBeginL(0, 0, 1)), s.(a := Posting(JSdo(0), LoadLatch1), q := Posted(s.q, 0, 1)))
  {
    ClosedTyped(s);
  }

  lemma Moved(s: Small)
    requires Closed(s) && s.a.Posting? && !s.a.ppc.Send?
    ensures Can(s, ByApp(PostL(0, true)),
                s.(a := PostNext(s.latch, s.quiescing, s.a.job, s.a.ppc), refs := s.refs + RefDelta(s.a.ppc)))
  {
    hide Typed, PostNext, RefDelta;
    ClosedTyped(s);
    var a := PostNext(s.latch, s.quiescing, s.a.job, s.a.ppc);
    assert map[0 := s.a, 1 := s.b][0 := a] == map[0 := a, 1 := s.b];
  }

  lemma SentIt(s: Small)
    requires Closed(s) && s.a == Posting(JSdo(0), Send) && s.mq == []
    ensures Can(s, ByApp(PostL(0, true)),
                s.(a := Posting(JSdo(0), Wake), mq := [SdoCmd(0)], q := Accepted(s.q, JSdo(0))))
  {
    hide Typed;
    ClosedTyped(s);
    assert s.got + [] == s.got;
    assert map[0 := s.q][0 := Accepted(s.q, JSdo(0))] == map[0 := Accepted(s.q, JSdo(0))];
    assert map[0 := s.a, 1 := s.b][0 := Posting(JSdo(0), Wake)] == map[0 := Posting(JSdo(0), Wake), 1 := s.b];
  }

  lemma Rejected(s: Small)
    requires Closed(s) && s.a == Rejecting(0)
    ensures Can(s, ByApp(RejectL(0)), s.(a := Idle, q := s.q.(st := New, poster := None, won := false)))
  {
    hide Typed;
    ClosedTyped(s);
    var q := s.q.(st := New, poster := None, won := false);
    assert map[0 := s.a, 1 := s.b][0 := Idle] == map[0 := Idle, 1 := s.b] && map[0 := s.q][0 := q] == map[0 := q];
  }

  lemma CancelBegun(s: Small)
    requires Closed(s) && s.b.Idle? && !s.q.freed
    ensures Can(s, ByApp(CancelBeginL(1, 0)), s.(b := CLoop(0, s.q.st)))
  {
    ClosedTyped(s);
  }

  lemma CancelTried(s: Small)
    requires Closed(s) && s.b.CLoop? && !s.q.freed
    ensures Can(s, ByApp(CancelLoopL(1)), s.(b := CancelNext(0, s.b.seen, s.q), q := CancelReq(1, s.b.seen, s.q)))
  {
    ClosedTyped(s);
  }

  lemma Stopped(s: Small)
    requires Closed(s) && s.b.Idle?
    ensures Can(s, ByApp(StopBeginL(1)), s.(b := StopSecond, latch := true))
  {
    ClosedTyped(s);
  }

  lemma Opened(s: Small)
    requires Closed(s) && s.pc.OFree? && Rank(s.stage) < 3
    ensures Can(s, ByTheOwner(StageL), s.(stage := NextStage(Big(s)), quiescing := s.quiescing && !s.stage.OpenStore?))
  {
    hide CancelNode;
    ClosedTyped(s);
  }

  lemma Received(s: Small)
    requires Closed(s) && s.pc.OFree? && s.stage.Run? && s.mq == [SdoCmd(0)]
    ensures Can(s, ByTheOwner(RecvL(true)),
                s.(mq := [], got := s.got + [SdoCmd(0)], q := s.q.(loc := OwnerHand), pc := ODispatch(0, true)))
  {
    ClosedTyped(s);
    assert (s.got + [SdoCmd(0)]) + [] == s.got + [SdoCmd(0)];
  }

  lemma Claimed(s: Small)
    requires Closed(s) && s.pc == ODispatch(0, true) && s.q.st.Queued?
    ensures Can(s, ByTheOwner(ClaimL),
                s.(q := s.q.(st := Active), pc := OStart(0),
                   w := s.w.(dispatched := s.w.dispatched + [0], started := s.w.started + [0])))
  {
    ClosedTyped(s);
  }

  /** The owner opens admission. */
  lemma Open(gs: seq<State>, ls: seq<Label>, s: Small) returns (gs': seq<State>, ls': seq<Label>, s': Small)
    requires IsRun(gs, ls) && gs[|gs| - 1] == Big(s) && Closed(s) && s.pc.OFree? && s.stage.OpenCheck? && !s.latch
    ensures IsRun(gs', ls') && gs <= gs' && gs'[|gs'| - 1] == Big(s') && s' == s.(stage := Run, quiescing := false)
  {
    hide IsRun, Can;
    var s1, s2 := s.(stage := OpenStore), s.(stage := OpenRecheck, quiescing := false);
    s' := s.(stage := Run, quiescing := false);
    Opened(s);
    gs', ls' := Extend(gs, ls, s, ByTheOwner(StageL), s1);
    Opened(s1);
    gs', ls' := Extend(gs', ls', s1, ByTheOwner(StageL), s2);
    Opened(s2);
    gs', ls' := Extend(gs', ls', s2, ByTheOwner(StageL), s');
  }

  /** The poster moves through command_post while its loads see latch and quiescing as they are. */
  lemma Poll(gs: seq<State>, ls: seq<Label>, s: Small, k: nat) returns (gs': seq<State>, ls': seq<Label>, s': Small)
    requires |gs| > 0 && IsRun(gs, ls) && gs[|gs| - 1] == Big(s) && Closed(s) && k <= 5
    requires s.a == Posting(JSdo(0), LoadLatch1) && !s.latch && !s.quiescing
    ensures IsRun(gs', ls') && gs <= gs' && gs'[|gs'| - 1] == Big(s')
    ensures s' == s.(a := Posting(JSdo(0), Along(k)), refs := s.refs + if k < 3 then 0 else 1)
  {
    hide IsRun, Can, Big;
    gs', ls', s' := gs, ls, s;
    var i := 0;
    while i < k
      invariant i <= k && Closed(s') && IsRun(gs', ls') && gs <= gs' && |gs'| > 0 && gs'[|gs'| - 1] == Big(s')
      invariant s' == s.(a := Posting(JSdo(0), Along(i)), refs := s.refs + if i < 3 then 0 else 1)
    {
      Moved(s');
      var s1 := s.(a := Posting(JSdo(0), Along(i + 1)), refs := s.refs + if i + 1 < 3 then 0 else 1);
      gs', ls' := Extend(gs', ls', s', ByApp(PostL(0, true)), s1);
      s', i := s1, i + 1;
    }
  }

  function Along(k: nat): PPc {
    if k == 0 then LoadLatch1 else if k == 1 then LoadQuiesce1 else if k == 2 then AddRef
    else if k == 3 then LoadLatch2 else if k == 4 then LoadQuiesce2 else Send
  }

  lemma Started()
    ensures IsRun([Big(START)], []) && Closed(START)
  {
  }

  /** Post, be cancelled while queued, and be rejected because admission is still closed. */
  lemma PostAndLose() returns (gs: seq<State>, ls: seq<Label>, s: Small, i: nat)
    ensures IsRun(gs, ls) && i < |gs| && gs[i].acts == map[0 := Posting(JSdo(0), LoadLatch1), 1 := CRet(0, Queued, 1, true)]
    ensures gs[|gs| - 1] == Big(s) && Closed(s) && s.a.Idle? && s.q.st.New? && s.q.poster.None? && !s.q.retired
    ensures s.pc.OFree? && s.stage.OpenCheck? && !s.latch && s.mq == [] && s.w == START.w
  {
    hide IsRun, Can;
    Started();
    gs, ls, s := [Big(START)], [], START;
    var s1 := s.(a := Posting(JSdo(0), LoadLatch1), q := Posted(s.q, 0, 1));
    Begun(s);
    gs, ls := Extend(gs, ls, s, ByApp(PostBeginL(0, 0, 1)), s1);
    var s2 := s1.(b := CLoop(0, Queued));
    CancelBegun(s1);
    gs, ls := Extend(gs, ls, s1, ByApp(CancelBeginL(1, 0)), s2);
    var s3 := s2.(b := CRet(0, Queued, 1, true), q := CancelReq(1, Queued, s2.q));
    CancelTried(s2);
    gs, ls := Extend(gs, ls, s2, ByApp(CancelLoopL(1)), s3);
    i := 3;
    gs, ls, s := Turned(gs, ls, s3);
  }

  /** A post that finds admission closed is rejected. */
  lemma Turned(gs: seq<State>, ls: seq<Label>, s: Small) returns (gs': seq<State>, ls': seq<Label>, s': Small)
    requires IsRun(gs, ls) && gs[|gs| - 1] == Big(s) && Closed(s) && s.a == Posting(JSdo(0), LoadLatch1) && !s.latch && s.quiescing
    ensures IsRun(gs', ls') && gs <= gs' && gs'[|gs'| - 1] == Big(s')
    ensures s' == s.(a := Idle, q := s.q.(st := New, poster := None, won := false))
  {
    hide IsRun, Can, Big;
    var s1 := s.(a := Posting(JSdo(0), LoadQuiesce1));
    Moved(s);
    gs', ls' := Extend(gs, ls, s, ByApp(PostL(0, true)), s1);
    var s2 := s.(a := Posting(JSdo(0), Fin(false)));
    Moved(s1);
    gs', ls' := Extend(gs', ls', s1, ByApp(PostL(0, true)), s2);
    var s3 := s.(a := Rejecting(0));
    Moved(s2);
    gs', ls' := Extend(gs', ls', s2, ByApp(PostL(0, true)), s3);
    s' := s.(a := Idle, q := s.q.(st := New, poster := None, won := false));
    Rejected(s3);
    gs', ls' := Extend(gs', ls', s3, ByApp(RejectL(0)), s');
  }

  /** Post a free request while admission is open. */
  lemma Posts(gs: seq<State>, ls: seq<Label>, s: Small) returns (gs': seq<State>, ls': seq<Label>, s': Small)
    requires IsRun(gs, ls) && gs[|gs| - 1] == Big(s) && Closed(s) && s.a.Idle?
    requires s.q.st.New? && s.q.poster.None? && !s.q.retired && !s.latch && !s.quiescing && s.mq == []
    ensures IsRun(gs', ls') && gs <= gs' && gs'[|gs'| - 1] == Big(s')
    ensures s'.q.st.Queued? && s'.q.node == 1 && s' == s.(a := Posting(JSdo(0), Wake), refs := s.refs + 1, mq := [SdoCmd(0)], q := s'.q)
  {
    hide IsRun, Can, Big;
    var s1 := s.(a := Posting(JSdo(0), LoadLatch1), q := Posted(s.q, 0, 1));
    Begun(s);
    gs', ls' := Extend(gs, ls, s, ByApp(PostBeginL(0, 0, 1)), s1);
    var s2;
    gs', ls', s2 := Poll(gs', ls', s1, 5);
    s' := s2.(a := Posting(JSdo(0), Wake), mq := [SdoCmd(0)], q := Accepted(s2.q, JSdo(0)));
    SentIt(s2);
    gs', ls' := Extend(gs', ls', s2, ByApp(PostL(0, true)), s');
  }

  /** The owner takes the command of an idle node and claims the request. */
  lemma Runs(gs: seq<State>, ls: seq<Label>, s: Small) returns (gs': seq<State>, ls': seq<Label>, s': Small)
    requires IsRun(gs, ls) && gs[|gs| - 1] == Big(s) && Closed(s)
    requires s.q.st.Queued? && s.pc.OFree? && s.stage.Run? && s.mq == [SdoCmd(0)]
    ensures IsRun(gs', ls') && gs <= gs' && gs'[|gs'| - 1] == Big(s') && s'.q.st.Active?
  {
    hide IsRun, Can, Big;
    var s1 := s.(mq := [], got := s.got + [SdoCmd(0)], q := s.q.(loc := OwnerHand), pc := ODispatch(0, true));
    Received(s);
    gs', ls' := Extend(gs, ls, s, ByTheOwner(RecvL(true)), s1);
    s' := s1.(q := s1.q.(st := Active), pc := OStart(0),
              w := s1.w.(dispatched := s1.w.dispatched + [0], started := s1.w.started + [0]));
    Claimed(s1);
    gs', ls' := Extend(gs', ls', s1, ByTheOwner(ClaimL), s');
  }

  /**
   A run in which cancel returns RT_EOK for a request it found QUEUED, and that
   request becomes ACTIVE later: its post was rejected, so it was free to be
   posted again.
   */
  lemma CancelOfRejectedPost() returns (gs: seq<State>, ls: seq<Label>, i: nat)
    ensures IsRun(gs, ls) && i < |gs| && 1 in gs[i].acts && gs[i].acts[1] == CRet(0, Queued, 1, true)
    ensures 0 in gs[|gs| - 1].reqs && gs[|gs| - 1].reqs[0].st.Active?
  {
    hide IsRun, Can;
    var s;
    gs, ls, s, i := PostAndLose();
    gs, ls, s := Open(gs, ls, s);
    gs, ls, s := Posts(gs, ls, s);
    gs, ls, s := Runs(gs, ls, s);
  }

  /** A run in which a thread enters the queue section after the stop latch was set. */
  lemma EntersAfterLatch() returns (gs: seq<State>, ls: seq<Label>, i: nat)
    ensures IsRun(gs, ls) && i < |gs| && gs[i].latch && 0 in gs[i].acts && !InQueueSection(gs[i].acts[0])
    ensures 0 in gs[|gs| - 1].acts && InQueueSection(gs[|gs| - 1].acts[0])
  {
    hide IsRun, Can;
    Started();
    var s;
    gs, ls, s := Open([Big(START)], [], START);
    var s1 := s.(a := Posting(JSdo(0), LoadLatch1), q := Posted(s.q, 0, 1));
    Begun(s);
    gs, ls := Extend(gs, ls, s, ByApp(PostBeginL(0, 0, 1)), s1);
    gs, ls, s := Poll(gs, ls, s1, 4);
    gs, ls, i := StopsThenEnters(gs, ls, s);
  }

  lemma StopsThenEnters(gs: seq<State>, ls: seq<Label>, s: Small) returns (gs': seq<State>, ls': seq<Label>, i: nat)
    requires IsRun(gs, ls) && gs[|gs| - 1] == Big(s) && Closed(s) && s.a == Posting(JSdo(0), LoadQuiesce2) && s.b.Idle? && !s.quiescing
    ensures IsRun(gs', ls') && i + 2 == |gs'| && gs'[i].latch && gs'[i].acts == map[0 := s.a, 1 := StopSecond]
    ensures gs'[i + 1].acts == map[0 := Posting(JSdo(0), Send), 1 := StopSecond]
  {
    hide IsRun, Can;
    var s1 := s.(b := StopSecond, latch := true);
    Stopped(s);
    gs', ls' := Extend(gs, ls, s, ByApp(StopBeginL(1)), s1);
    i := |gs'| - 1;
    Moved(s1);
    gs', ls' := Extend(gs', ls', s1, ByApp(PostL(0, true)), s1.(a := Posting(JSdo(0), Send)));
  }
}
