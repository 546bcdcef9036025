/** Every step of an application thread, callback or stop() caller keeps the invariant. */
module SdoAppSteps {
  import opened Options
  import opened SdoModel
  import opened SdoInvariant
  import opened SdoFrame

  // ------------------------------------------------------------ post and reject

  lemma PostLocal(pc: OPc, t: Tid, r: Rid, q: Req, n: Node)
    requires Before(pc, t, Idle, r, q) && q.st.New? && q.poster.None? && !q.retired
    ensures LocalStep(pc, t, Idle, Posting(JSdo(r), LoadLatch1), r, q, Posted(q, t, n))
  {
  }

  lemma BeginPost(g: State, t: Tid, r: Rid, n: Node)
    requires Inv(g) && AppEnabled(g, PostBeginL(t, r, n))
    ensures Inv(PostBegin(g, t, r, n))
  {
    hide Inv, LocalStep, Before, Typed;
    Facts(g, t, r);
    PostLocal(g.pc, t, r, g.reqs[r], n);
    var g' := PostBegin(g, t, r, n);
    ActReq(g, g', t, g'.acts[t], r, g'.reqs[r]);
  }

  lemma RejectLocal(pc: OPc, t: Tid, r: Rid, q: Req)
    requires Before(pc, t, Rejecting(r), r, q)
    ensures LocalStep(pc, t, Rejecting(r), Idle, r, q, q.(st := New, poster := None, won := false))
  {
  }

  lemma RejectPost(g: State, t: Tid)
    requires Inv(g) && AppEnabled(g, RejectL(t))
    ensures Inv(Reject(g, t))
  {
    hide Inv, LocalStep, Before, Typed;
    InvTyped(g);
    var r := g.acts[t].r;
    NamedReq(g, t);
    Facts(g, t, r);
    RejectLocal(g.pc, t, r, g.reqs[r]);
    var g' := Reject(g, t);
    ActReq(g, g', t, Idle, r, g'.reqs[r]);
  }

  lemma InvTyped(g: State)
    requires Inv(g)
    ensures Typed(g)
  {
  }

  lemma NamedReq(g: State, t: Tid)
    requires Typed(g) && t in g.acts
    ensures Named(g.reqs, ReqOfActor(g.acts[t]))
  {
  }

  /** A thread step from a to b that holds the same things before and after. */
  ghost predicate Quiet(stage: Stage, t: Tid, a: Actor, b: Actor) {
    && PinOf(a) == PinOf(b) && PostOf(a) == PostOf(b) && PubOf(a) == PubOf(b) && OwesOf(a) == OwesOf(b)
    && StageActor(stage, b)
    && (ReqOfActor(b) == None || ReqOfActor(b) == ReqOfActor(a))
    && forall q | ReqOk(q) && ActorReq(t, a, q) :: ActorReq(t, b, q)
  }

  lemma Move(g: State, g': State, t: Tid, a: Actor)
    requires Inv(g) && t in g.acts
    requires g' == g.(acts := g.acts[t := a], latch := g'.latch, quiescing := g'.quiescing,
                      cmdRefs := g'.cmdRefs, cbRefs := g'.cbRefs)
    requires g.latch ==> g'.latch
    requires Quiet(g.stage, t, g.acts[t], a) && Recount(g, g', g.acts[t], a, 0)
    ensures Inv(g')
  {
    hide Inv, Typed, Before, ActorReq, PinOf, PostOf, PubOf, StageActor, Recount;
    InvTyped(g);
    NamedReq(g, t);
    if ReqOfActor(g.acts[t]).Some? { Facts2(g, t, ReqOfActor(g.acts[t]).value); }
    ActOnly(g, g', t, a);
  }

  lemma Facts2(g: State, t: Tid, r: Rid)
    requires Inv(g) && t in g.acts && r in g.reqs && ReqOfActor(g.acts[t]) == Some(r)
    ensures ReqOk(g.reqs[r]) && ActorReq(t, g.acts[t], g.reqs[r])
  {
    hide ActorReq, ReqOk, PcReq, OwnerOk, StageOwner, StageFlags, CountsOk;
  }

  lemma StageFacts(g: State, t: Tid)
    requires Inv(g) && t in g.acts
    ensures StageActor(g.stage, g.acts[t]) && (Rank(g.stage) >= 6 ==> g.latch) && (Rank(g.stage) >= 9 ==> g.cbQuiescing)
  {
  }

  lemma PostNextCounts(latch: bool, quiescing: bool, job: Job, p: PPc)
    requires !p.Send?
    ensures RefDelta(p) == B(HoldsCmd(PostNext(latch, quiescing, job, p))) - B(HoldsCmd(Posting(job, p)))
    ensures HoldsCb(PostNext(latch, quiescing, job, p)) == HoldsCb(Posting(job, p))
  {
  }

  lemma PostNextKeeps(latch: bool, quiescing: bool, t: Tid, job: Job, p: PPc, q: Req)
    requires !p.Send? && ActorReq(t, Posting(job, p), q)
    ensures ActorReq(t, PostNext(latch, quiescing, job, p), q)
  {
  }

  lemma PostNextQuiet(stage: Stage, latch: bool, quiescing: bool, t: Tid, job: Job, p: PPc)
    requires !p.Send? && StageActor(stage, Posting(job, p)) && (Rank(stage) >= 6 ==> latch)
    ensures Quiet(stage, t, Posting(job, p), PostNext(latch, quiescing, job, p))
  {
    hide ActorReq, ReqOk;
    var a, b := Posting(job, p), PostNext(latch, quiescing, job, p);
    forall q | ReqOk(q) && ActorReq(t, a, q) ensures ActorReq(t, b, q) {
      PostNextKeeps(latch, quiescing, t, job, p, q);
    }
  }

  lemma PostMove(g: State, t: Tid, sendOk: bool)
    requires Inv(g) && AppEnabled(g, PostL(t, sendOk)) && !g.acts[t].ppc.Send?
    ensures Inv(PostStep(g, t, sendOk))
  {
    hide Inv, Typed, Quiet, PostNext, HoldsCmd, HoldsCb, RefDelta, StageActor;
    InvTyped(g);
    StageFacts(g, t);
    PostNextCounts(g.latch, g.quiescing, g.acts[t].job, g.acts[t].ppc);
    PostNextQuiet(g.stage, g.latch, g.quiescing, t, g.acts[t].job, g.acts[t].ppc);
    var g' := PostStep(g, t, sendOk);
    Move(g, g', t, g'.acts[t]);
  }

  // ------------------------------------------------- steps that touch no request

  lemma OtherBegin(g: State, t: Tid, k: nat)
    requires Inv(g) && AppEnabled(g, OtherBeginL(t, k))
    ensures Inv(AppStep(g, OtherBeginL(t, k)))
  {
    hide Inv, Typed;
    InvTyped(g);
    Move(g, At(g, t, Posting(JOther(k), LoadLatch1)), t, Posting(JOther(k), LoadLatch1));
  }

  /** A pinned or unreturned request keeps the owner before its cancel barrier. */
  lemma PinsBeforeBarrier(g: State, t: Tid)
    requires Inv(g) && t in g.acts && (PinOf(g.acts[t]).Some? || OwesOf(g.acts[t]).Some?)
    ensures Rank(g.stage) < 12
  {
    hide PcReq, WrittenOk, NodeInv, WorkTyped, ActOk, MqInv, TodoInv, CountsOk, StageThreads;
    var r := ReqOfActor(g.acts[t]).value;
    assert ActorInv(g.reqs, t, g.acts[t]) && ReqOk(g.reqs[r]);
    assert PlacedIn(g.nodes, g.mq, g.todo, g.pc, r, g.reqs[r]);
    assert g.reqs[r].pinOwner.Some? ==> r in StagedPins(g.reqs);
  }

  lemma CallbackQuiet(stage: Stage, quiescing: bool, t: Tid, a: Actor)
    requires a.CPinned? || ((a.CbAdd? || a.CbCheck? || a.CbUndo?) && a.c.k.PendingK?)
    requires StageActor(stage, a) && (Rank(stage) >= 9 ==> quiescing) && Rank(stage) < 12
    ensures Quiet(stage, t, a, CallbackNext(quiescing, a))
  {
    hide ActorReq, ReqOk;
    var b := CallbackNext(quiescing, a);
    forall q | ReqOk(q) && ActorReq(t, a, q) ensures ActorReq(t, b, q) { CallbackKeeps(quiescing, t, a, q); }
  }

  lemma CallbackKeeps(quiescing: bool, t: Tid, a: Actor, q: Req)
    requires a.CPinned? || ((a.CbAdd? || a.CbCheck? || a.CbUndo?) && a.c.k.PendingK?)
    requires ReqOk(q) && ActorReq(t, a, q)
    ensures ActorReq(t, CallbackNext(quiescing, a), q)
  {
  }

  lemma CallbackCounts(quiescing: bool, a: Actor)
    requires a.CPinned? || ((a.CbAdd? || a.CbCheck? || a.CbUndo?) && a.c.k.PendingK?)
    ensures HoldsCmd(CallbackNext(quiescing, a)) == HoldsCmd(a)
    ensures B(HoldsCb(CallbackNext(quiescing, a))) == B(HoldsCb(a)) + if a.CbAdd? then 1 else if a.CbUndo? then -1 else 0
  {
  }

  lemma PendingCall(g: State, t: Tid)
    requires Inv(g) && t in g.acts && (g.acts[t].CbAdd? || g.acts[t].CbCheck? || g.acts[t].CbUndo?)
    ensures g.acts[t].c.k.PendingK?
  {
    hide PcReq, WrittenOk, NodeInv, WorkTyped, OwnerOk, CountsOk, StageThreads, StageOwner, StageFlags, ReqOk;
    assert ActorInv(g.reqs, t, g.acts[t]);
  }

  lemma CallbackIs(g: State, t: Tid)
    requires t in g.acts && (g.acts[t].CPinned? || g.acts[t].CbAdd? || g.acts[t].CbCheck? || g.acts[t].CbUndo?)
    ensures var a := g.acts[t];
            CallbackStep(g, t) == g.(acts := g.acts[t := CallbackNext(g.cbQuiescing, a)],
                                     cbRefs := g.cbRefs + if a.CbAdd? then 1 else if a.CbUndo? then -1 else 0)
  {
    hide CallbackNext;
  }

  lemma CallbackMove(g: State, t: Tid)
    requires Inv(g) && t in g.acts && (g.acts[t].CPinned? || g.acts[t].CbAdd? || g.acts[t].CbCheck? || g.acts[t].CbUndo?)
    ensures Inv(CallbackStep(g, t))
  {
    hide Inv, Typed, Quiet, CallbackNext, HoldsCmd, HoldsCb, StageActor, CallbackStep;
    InvTyped(g);
    CallbackIs(g, t);
    StageFacts(g, t);
    PinsBeforeBarrier(g, t);
    if !g.acts[t].CPinned? { PendingCall(g, t); }
    CallbackQuiet(g.stage, g.cbQuiescing, t, g.acts[t]);
    CallbackCounts(g.cbQuiescing, g.acts[t]);
    var g' := CallbackStep(g, t);
    Move(g, g', t, g'.acts[t]);
  }

  lemma TailQuiet(stage: Stage, t: Tid, a: Actor)
    requires (a.CTail? || a.CRet?) && StageActor(stage, a)
    ensures Quiet(stage, t, a, TailNext(a))
  {
    hide ReqOk;
  }

  lemma TailCounts(a: Actor)
    requires a.CTail? || a.CRet?
    ensures HoldsCmd(TailNext(a)) == HoldsCmd(a)
    ensures B(HoldsCb(TailNext(a))) == B(HoldsCb(a)) - if a.CTail? && a.cb && !a.wake then 1 else 0
  {
  }

  lemma TailMove(g: State, t: Tid)
    requires Inv(g) && AppEnabled(g, TailL(t))
    ensures Inv(TailStep(g, t))
  {
    hide Inv, Typed, Quiet, TailNext, HoldsCmd, HoldsCb, StageActor;
    InvTyped(g);
    StageFacts(g, t);
    TailQuiet(g.stage, t, g.acts[t]);
    TailCounts(g.acts[t]);
    var g' := TailStep(g, t);
    Move(g, g', t, g'.acts[t]);
  }

  lemma ExtMove(g: State, t: Tid)
    requires Inv(g) && t in g.acts && g.acts[t].Ext?
    ensures Inv(ExtStep(g, t))
  {
    hide Inv, Typed;
    InvTyped(g);
    StageFacts(g, t);
    var g' := ExtStep(g, t);
    Move(g, g', t, g'.acts[t]);
  }

  lemma SmallMoves(g: State, l: AppLabel)
    requires Inv(g) && AppEnabled(g, l)
    requires l.ExtBeginL? || l.StopBeginL? || l.StopEndL?
    ensures Inv(AppStep(g, l))
  {
    hide Inv, Typed, Quiet;
    InvTyped(g);
    var g' := AppStep(g, l);
    SmallQuiet(g.stage, l.t, g.acts[l.t], g'.acts[l.t]);
    Move(g, g', l.t, g'.acts[l.t]);
  }

  lemma SmallQuiet(stage: Stage, t: Tid, a: Actor, b: Actor)
    requires a.Idle? || a.StopSecond?
    requires b.Idle? || b.StopSecond? || b == Ext(EAdd)
    ensures Quiet(stage, t, a, b)
  {
  }

  lemma BeginCancel(g: State, t: Tid, r: Rid)
    requires Inv(g) && AppEnabled(g, CancelBeginL(t, r))
    ensures Inv(AppStep(g, CancelBeginL(t, r)))
  {
    hide Inv, Typed;
    InvTyped(g);
    ActOnly(g, AppStep(g, CancelBeginL(t, r)), t, CLoop(r, g.reqs[r].st));
  }

  // ------------------------------------------------------------ cancel and unpin

  lemma PinLocal(pc: OPc, t: Tid, r: Rid, q: Req, k: Kind)
    requires Before(pc, t, CLoop(r, Base(k)), r, q) && q.st == Base(k)
    ensures LocalStep(pc, t, CLoop(r, Base(k)), CPinned(Call(r, k, q.posts)), r, q, q.(st := Pinned(k), pinner := Some(t)))
  {
  }

  lemma ClaimQueuedLocal(pc: OPc, t: Tid, r: Rid, q: Req)
    requires Before(pc, t, CLoop(r, Queued), r, q) && q.st.Queued?
    ensures LocalStep(pc, t, CLoop(r, Queued), CRet(r, Queued, q.posts, true), r, q, q.(st := CancelPending, won := true))
  {
  }

  lemma Pin(g: State, t: Tid)
    requires Inv(g) && t in g.acts && g.acts[t].CLoop? && (g.acts[t].seen.Pending? || g.acts[t].seen.Active?)
    requires Named(g.reqs, ReqOfActor(g.acts[t])) && g.reqs[g.acts[t].r].st == g.acts[t].seen
    ensures Inv(CancelLoop(g, t))
  {
    hide Inv, Typed, LocalStep, Before;
    InvTyped(g);
    var r, k := g.acts[t].r, if g.acts[t].seen.Pending? then PendingK else ActiveK;
    Facts(g, t, r);
    PinLocal(g.pc, t, r, g.reqs[r], k);
    ActReq(g, CancelLoop(g, t), t, CPinned(Call(r, k, g.reqs[r].posts)), r, g.reqs[r].(st := Pinned(k), pinner := Some(t)));
  }

  lemma ClaimQueued(g: State, t: Tid)
    requires Inv(g) && t in g.acts && g.acts[t].CLoop? && g.acts[t].seen.Queued?
    requires Named(g.reqs, ReqOfActor(g.acts[t])) && g.reqs[g.acts[t].r].st.Queued?
    ensures Inv(CancelLoop(g, t))
  {
    hide Inv, Typed, LocalStep, Before;
    InvTyped(g);
    var r := g.acts[t].r;
    Facts(g, t, r);
    ClaimQueuedLocal(g.pc, t, r, g.reqs[r]);
    ActReq(g, CancelLoop(g, t), t, CRet(r, Queued, g.reqs[r].posts, true), r, g.reqs[r].(st := CancelPending, won := true));
  }

  lemma CancelMove(g: State, t: Tid)
    requires Inv(g) && AppEnabled(g, CancelLoopL(t))
    ensures Inv(CancelLoop(g, t))
  {
    hide Inv, Typed, CancelLoop;
    InvTyped(g);
    NamedReq(g, t);
    var r, seen := g.acts[t].r, g.acts[t].seen;
    if (seen.Pending? || seen.Active?) && g.reqs[r].st == seen {
      Pin(g, t);
    } else if seen.Queued? && g.reqs[r].st.Queued? {
      ClaimQueued(g, t);
    } else {
      CancelRetry(g, t);
    }
  }

  lemma CancelRetry(g: State, t: Tid)
    requires Inv(g) && t in g.acts && g.acts[t].CLoop? && Named(g.reqs, ReqOfActor(g.acts[t]))
    requires !((g.acts[t].seen.Pending? || g.acts[t].seen.Active?) && g.reqs[g.acts[t].r].st == g.acts[t].seen)
    requires !(g.acts[t].seen.Queued? && g.reqs[g.acts[t].r].st.Queued?)
    ensures Inv(CancelLoop(g, t))
  {
    hide Inv, Typed, ReqOk, StageActor, ActorInv;
    InvTyped(g);
    var r, seen := g.acts[t].r, g.acts[t].seen;
    var a := CancelNext(r, seen, g.reqs[r]);
    assert g.reqs == g.reqs[r := g.reqs[r]];
    RetryOk(g.stage, g.reqs, t, a, r);
    ActOnly(g, CancelLoop(g, t), t, a);
  }

  lemma RetryOk(stage: Stage, reqs: map<Rid, Req>, t: Tid, a: Actor, r: Rid)
    requires r in reqs && (a.CLoop? || a.CRet?) && a.r == r
    requires a.CRet? ==> a.ep == reqs[r].posts && !(a.ok && (a.found.Pending? || a.found.Queued?))
    ensures StageActor(stage, a) && ActorInv(reqs, t, a)
  {
  }

  // ----------------------------------------------------- unpin and publication

  lemma UnpinLocal(pc: OPc, t: Tid, q: Req, c: Call, ok: bool, cb: bool)
    requires Before(pc, t, CUnpin(c, ok, cb), c.r, q) && q.st == Pinned(c.k)
    ensures LocalStep(pc, t, CUnpin(c, ok, cb), CTail(c, ok, cb, !ok && c.k.PendingK?), c.r, q, Unpinned(q, c, ok))
  {
  }

  lemma UnpinIs(g: State, t: Tid)
    requires Typed(g) && t in g.acts && g.acts[t].CUnpin? && g.acts[t].c.r in g.reqs
    ensures var c, ok, cb := g.acts[t].c, g.acts[t].ok, g.acts[t].cb;
            UnpinStep(g, t)
            == if g.reqs[c.r].st == Pinned(c.k)
               then g.(acts := g.acts[t := CTail(c, ok, cb, !ok && c.k.PendingK?)],
                       reqs := g.reqs[c.r := Unpinned(g.reqs[c.r], c, ok)])
               else if g.reqs[c.r].st == Staged(c.k) then g.(acts := g.acts[t := CPub(c, ok, cb, Refs1)])
               else g.(acts := g.acts[t := CTail(c, ok, cb, false)])
  {
    hide Typed, Unpinned, Pinned, Staged;
  }

  lemma Unpin(g: State, t: Tid)
    requires Inv(g) && t in g.acts && g.acts[t].CUnpin?
    requires Named(g.reqs, ReqOfActor(g.acts[t])) && g.reqs[g.acts[t].c.r].st == Pinned(g.acts[t].c.k)
    ensures Inv(UnpinStep(g, t))
  {
    hide Inv, Typed, LocalStep, Before, StageActor, Unpinned, HoldsCmd, HoldsCb, UnpinStep;
    InvTyped(g);
    UnpinIs(g, t);
    var c, ok, cb := g.acts[t].c, g.acts[t].ok, g.acts[t].cb;
    Facts(g, t, c.r);
    UnpinLocal(g.pc, t, g.reqs[c.r], c, ok, cb);
    UnpinCounts(g.stage, g.reqs[c.r], c, ok, cb);
    ActReq(g, UnpinStep(g, t), t, CTail(c, ok, cb, !ok && c.k.PendingK?), c.r, Unpinned(g.reqs[c.r], c, ok));
  }

  lemma UnpinCounts(stage: Stage, q: Req, c: Call, ok: bool, cb: bool)
    requires StageActor(stage, CUnpin(c, ok, cb))
    ensures StageActor(stage, CTail(c, ok, cb, !ok && c.k.PendingK?))
    ensures HoldsCmd(CTail(c, ok, cb, !ok && c.k.PendingK?)) == HoldsCmd(CUnpin(c, ok, cb))
    ensures HoldsCb(CTail(c, ok, cb, !ok && c.k.PendingK?)) == HoldsCb(CUnpin(c, ok, cb))
    ensures Unpinned(q, c, ok).node == q.node && Unpinned(q, c, ok).pinOwner == q.pinOwner
  {
  }

  lemma BeginPublishLocal(pc: OPc, t: Tid, q: Req, c: Call, ok: bool, cb: bool)
    requires Before(pc, t, CUnpin(c, ok, cb), c.r, q) && q.st != Pinned(c.k)
    ensures q.st == Staged(c.k)
    ensures LocalStep(pc, t, CUnpin(c, ok, cb), CPub(c, ok, cb, Refs1), c.r, q, q)
  {
  }

  lemma UnpinMove(g: State, t: Tid)
    requires Inv(g) && AppEnabled(g, UnpinL(t))
    ensures Inv(UnpinStep(g, t))
  {
    hide Inv, Typed, LocalStep, Before, UnpinStep;
    InvTyped(g);
    NamedReq(g, t);
    UnpinIs(g, t);
    var c, ok, cb := g.acts[t].c, g.acts[t].ok, g.acts[t].cb;
    var q := g.reqs[c.r];
    if q.st == Pinned(c.k) {
      Unpin(g, t);
    } else {
      Facts(g, t, c.r);
      PinsBeforeBarrier(g, t);
      BeginPublishLocal(g.pc, t, q, c, ok, cb);
      assert g.reqs[c.r := q] == g.reqs;
      ActReq(g, UnpinStep(g, t), t, CPub(c, ok, cb, Refs1), c.r, q);
    }
  }

  lemma PublishLocal(pc: OPc, t: Tid, a: Actor, q: Req)
    requires (a.CPub? || a.CSub?) && Before(pc, t, a, a.c.r, q)
    ensures LocalStep(pc, t, a, PublishNext(a), a.c.r, q, PublishReq(t, a, q))
  {
    hide HoldsAgree, Change;
    if a.CSub? || a.ph.SendEvent? || a.ph.Refs0? { PublishLateChange(pc, t, a, q); } else { PublishChange(pc, t, a, q); }
    PublishAgree(pc, t, a, q);
  }

  lemma PublishLateChange(pc: OPc, t: Tid, a: Actor, q: Req)
    requires (a.CSub? || (a.CPub? && (a.ph.SendEvent? || a.ph.Refs0?))) && Before(pc, t, a, a.c.r, q)
    ensures Change(pc, a.c.r, q, PublishReq(t, a, q), Some(t))
  {
  }

  lemma PublishChange(pc: OPc, t: Tid, a: Actor, q: Req)
    requires a.CPub? && (a.ph.Refs1? || a.ph.CasDone?) && Before(pc, t, a, a.c.r, q)
    ensures Change(pc, a.c.r, q, PublishReq(t, a, q), Some(t))
  {
  }

  lemma PublishAgree(pc: OPc, t: Tid, a: Actor, q: Req)
    requires (a.CPub? || a.CSub?) && Before(pc, t, a, a.c.r, q)
    ensures HoldsAgree(t, a, PublishNext(a), a.c.r, q, PublishReq(t, a, q))
  {
    hide PcReq;
  }

  lemma PublishCounts(stage: Stage, t: Tid, a: Actor, q: Req)
    requires (a.CPub? || a.CSub?) && StageActor(stage, a) && ActorReq(t, a, q)
    ensures HoldsCmd(PublishNext(a)) == HoldsCmd(a) && HoldsCb(PublishNext(a)) == HoldsCb(a)
    ensures StageActor(stage, PublishNext(a))
    ensures B(PublishReq(t, a, q).pinOwner.Some?) - B(q.pinOwner.Some?) == if a.CSub? then -1 else 0
    ensures PublishReq(t, a, q).node == q.node
    ensures a.CPub? && a.ph.CasDone? ==> q.st == Staged(a.c.k)
  {
  }

  lemma PublishIs(g: State, t: Tid)
    requires Typed(g) && t in g.acts && (g.acts[t].CPub? || g.acts[t].CSub?) && g.acts[t].c.r in g.reqs
    requires g.acts[t].CPub? && g.acts[t].ph.CasDone? ==> g.reqs[g.acts[t].c.r].st == Staged(g.acts[t].c.k)
    ensures var a := g.acts[t];
            PublishStep(g, t) == g.(acts := g.acts[t := PublishNext(a)],
                                    reqs := g.reqs[a.c.r := PublishReq(t, a, g.reqs[a.c.r])],
                                    cancelRefs := g.cancelRefs - if a.CSub? then 1 else 0)
  {
    hide Typed, PublishNext, PublishReq, Staged;
  }

  lemma PublishMove(g: State, t: Tid)
    requires Inv(g) && Typed(g) && t in g.acts && (g.acts[t].CPub? || g.acts[t].CSub?)
    ensures Inv(PublishStep(g, t))
  {
    hide Inv, Typed, LocalStep, Before, PublishNext, PublishReq, HoldsCmd, HoldsCb, StageActor, ActorReq, PublishStep;
    InvTyped(g);
    NamedReq(g, t);
    var a := g.acts[t];
    Facts(g, t, a.c.r);
    Facts2(g, t, a.c.r);
    PublishLocal(g.pc, t, a, g.reqs[a.c.r]);
    PublishCounts(g.stage, t, a, g.reqs[a.c.r]);
    PublishIs(g, t);
    ActReq(g, PublishStep(g, t), t, PublishNext(a), a.c.r, PublishReq(t, a, g.reqs[a.c.r]));
  }

  // ------------------------------------------------------------------- destroy

  lemma DestroyLocal(pc: OPc, t: Tid, r: Rid, q: Req)
    requires Before(pc, t, Idle, r, q) && !q.retired && q.poster.None? && (q.st.New? || q.st.Done?)
    ensures LocalStep(pc, t, Idle, DWait(r), r, q, q.(retired := true))
  {
  }

  lemma FreeLocal(pc: OPc, t: Tid, r: Rid, q: Req)
    requires Before(pc, t, DWait(r), r, q) && q.refs == 0
    ensures LocalStep(pc, t, DWait(r), Idle, r, q, q.(freed := true))
  {
  }

  lemma DestroyMove(g: State, l: AppLabel)
    requires Inv(g) && AppEnabled(g, l) && (l.DestroyBeginL? || l.DestroyFreeL?)
    ensures Inv(AppStep(g, l))
  {
    hide Inv, Typed, LocalStep, Before;
    InvTyped(g);
    NamedReq(g, l.t);
    var r := if l.DestroyBeginL? then l.r else g.acts[l.t].r;
    Facts(g, l.t, r);
    var g' := AppStep(g, l);
    if l.DestroyBeginL? { DestroyLocal(g.pc, l.t, r, g.reqs[r]); } else { FreeLocal(g.pc, l.t, r, g.reqs[r]); }
    ActReq(g, g', l.t, g'.acts[l.t], r, g'.reqs[r]);
  }

  // ------------------------------------------------------------- the queue send

  lemma SendFailQuiet(stage: Stage, t: Tid, job: Job)
    requires StageActor(stage, Posting(job, Send))
    ensures Quiet(stage, t, Posting(job, Send), Posting(job, Release(false))) && Rank(stage) < 8
  {
  }

  lemma SendFail(g: State, t: Tid)
    requires Inv(g) && t in g.acts && g.acts[t].Posting? && g.acts[t].ppc.Send?
    ensures Inv(At(g, t, Posting(g.acts[t].job, Release(false)))) && Rank(g.stage) < 8
  {
    hide Inv, Typed, Quiet;
    StageFacts(g, t);
    SendFailQuiet(g.stage, t, g.acts[t].job);
    Move(g, At(g, t, Posting(g.acts[t].job, Release(false))), t, Posting(g.acts[t].job, Release(false)));
  }

  /** Queue a command that carries no request storage. */
  lemma MqAppend(g: State, cmd: Cmd)
    requires Inv(g) && !cmd.SdoCmd? && CmdTyped(g.reqs, g.nodes, cmd) && |g.mq| < g.mqDepth && Rank(g.stage) < 8
    ensures Inv(g.(mq := g.mq + [cmd], sent := g.sent + [cmd]))
  {
    hide PcReq, NodeInv, WorkTyped, ReqOk, StageThreads, ThreadsOk, PcOk, TodoInv;
    var mq' := g.mq + [cmd];
    assert g.received + mq' == (g.received + g.mq) + [cmd];
    forall r | r in g.reqs ensures PlacedIn(g.nodes, mq', g.todo, g.pc, r, g.reqs[r]) {
      assert PlacedIn(g.nodes, g.mq, g.todo, g.pc, r, g.reqs[r]);
    }
  }

  lemma SendOther(g: State, t: Tid)
    requires Inv(g) && t in g.acts && g.acts[t].Posting? && g.acts[t].ppc.Send? && g.acts[t].job.JOther?
    requires |g.mq| < g.mqDepth && Typed(g)
    ensures Inv(SendStep(g, t, g.acts[t].job))
  {
    hide Inv, Typed, Quiet;
    SendFail(g, t);
    var job := g.acts[t].job;
    var cmd := OtherCmd(job.k);
    var g1 := g.(mq := g.mq + [cmd], sent := g.sent + [cmd]);
    MqAppend(g, cmd);
    SendQuiet(g.stage, t, job);
    Move(g1, At(g1, t, Posting(job, Wake)), t, Posting(job, Wake));
  }

  lemma SendQuiet(stage: Stage, t: Tid, job: Job)
    requires Rank(stage) < 8 && job.JOther?
    ensures Quiet(stage, t, Posting(job, Send), Posting(job, Wake))
  {
  }

  lemma SendCancelLocal(pc: OPc, t: Tid, q: Req, c: Call)
    requires Before(pc, t, Posting(JCancel(c), Send), c.r, q)
    ensures LocalStep(pc, t, Posting(JCancel(c), Send), Posting(JCancel(c), Wake), c.r, q, Accepted(q, JCancel(c)))
    ensures Accepted(q, JCancel(c)).node == q.node && Accepted(q, JCancel(c)).pinOwner == q.pinOwner
  {
    hide Change, HoldsAgree;
    SendCancelChange(pc, t, q, c);
    SendCancelAgree(pc, t, q, c);
  }

  lemma SendCancelChange(pc: OPc, t: Tid, q: Req, c: Call)
    requires Before(pc, t, Posting(JCancel(c), Send), c.r, q)
    ensures Change(pc, c.r, q, Accepted(q, JCancel(c)), Some(t))
  {
  }

  lemma SendCancelAgree(pc: OPc, t: Tid, q: Req, c: Call)
    requires Before(pc, t, Posting(JCancel(c), Send), c.r, q)
    ensures HoldsAgree(t, Posting(JCancel(c), Send), Posting(JCancel(c), Wake), c.r, q, Accepted(q, JCancel(c)))
  {
    hide PcReq;
  }

  lemma SendCancel(g: State, t: Tid)
    requires Inv(g) && t in g.acts && g.acts[t].Posting? && g.acts[t].ppc.Send? && g.acts[t].job.JCancel?
    requires |g.mq| < g.mqDepth && Typed(g) && g.acts[t].job.c.r in g.reqs
    ensures Inv(SendStep(g, t, g.acts[t].job))
  {
    hide Inv, Typed, LocalStep, Before, Accepted;
    SendFail(g, t);
    var c := g.acts[t].job.c;
    Facts(g, t, c.r);
    var cmd := CancelCmd(g.reqs[c.r].node, c.r);
    var g1 := g.(mq := g.mq + [cmd], sent := g.sent + [cmd]);
    MqAppend(g, cmd);
    SendCancelLocal(g.pc, t, g.reqs[c.r], c);
    ActReq(g1, SendStep(g, t, JCancel(c)), t, Posting(JCancel(c), Wake), c.r, Accepted(g.reqs[c.r], JCancel(c)));
  }

  lemma SendSdoLocal(pc: OPc, t: Tid, r: Rid, q: Req)
    requires Before(pc, t, Posting(JSdo(r), Send), r, q)
    ensures var q' := q.(loc := InQueue, poster := None);
            ReqOk(q') && Tolerable(q, q', Some(t)) && ReqOfPc(pc) != Some(r)
            && HoldsAgree(t, Posting(JSdo(r), Send), Posting(JSdo(r), Wake), r, q, q') && q.loc.App?
  {
  }

  lemma SendSdoOwner(g: State, r: Rid, q: Req)
    requires Inv(g) && r in g.reqs && g.reqs[r].loc.App? && ReqOfPc(g.pc) != Some(r)
    requires q == g.reqs[r].(loc := InQueue, poster := None) && !g.reqs[r].pub.ByOwner?
    ensures var reqs', mq' := g.reqs[r := q], g.mq + [SdoCmd(r)];
            OwnerTyped(reqs', g.nodes, mq', g.todo, g.pc) && OwnerOk(reqs', g.nodes, g.sdoDepth, mq', g.todo, g.pc)
  {
    hide NodeInv, WorkTyped, TodoInv, PcOk, ReqOk, ThreadsOk, StageThreads, StageOwner, CountsOk, StageFlags, OwnerOk, OwnerTyped,
         WorkOk, PcFits, MqTyped, MqInv, TodoOk, OwnerPub, Hand;
    var n, mq' := g.reqs[r].node, g.mq + [SdoCmd(r)];
    OwnerParts(g.reqs, g.nodes, g.sdoDepth, g.mq, g.todo, g.pc, r);
    MqPush(g.reqs, g.nodes, g.mq, r, q);
    TodoKeep(g.reqs, g.todo, r, q);
    WorkKeep(g.reqs, g.sdoDepth, n, g.nodes[n], r, q);
    PcFitsSame(g.reqs, g.nodes, g.todo, g.pc, r, q);
    assert SdoCmd(r) == mq'[|g.mq|];
    OwnerReplace(g.reqs, g.sdoDepth, r, q, n, g.nodes, g.nodes, g.mq, mq', g.todo, g.todo, g.pc, g.pc);
  }

  lemma MqPush(reqs: map<Rid, Req>, nodes: map<Node, Work>, mq: seq<Cmd>, r: Rid, q: Req)
    requires MqTyped(reqs, nodes, mq) && MqInv(reqs, mq) && r in reqs && !reqs[r].loc.InQueue? && q.loc.InQueue?
    ensures MqTyped(reqs, nodes, mq + [SdoCmd(r)]) && MqInv(reqs[r := q], mq + [SdoCmd(r)])
  {
  }

  lemma SendSdo(g: State, t: Tid)
    requires Inv(g) && t in g.acts && g.acts[t].Posting? && g.acts[t].ppc.Send? && g.acts[t].job.JSdo?
    requires |g.mq| < g.mqDepth && Typed(g) && g.acts[t].job.r in g.reqs
    ensures Inv(SendStep(g, t, g.acts[t].job))
  {
    hide Inv, Typed, HoldsAgree, Before, Tolerable, StageActor, ReqOk, OwnerOk, OwnerTyped;
    var r := g.acts[t].job.r;
    var q, q' := g.reqs[r], g.reqs[r].(loc := InQueue, poster := None);
    SendFail(g, t);
    Facts(g, t, r);
    SendSdoLocal(g.pc, t, r, q);
    NotByOwner(g.pc, t, r, q);
    SendSdoOwner(g, r, q');
    SendSdoInv(g, t, r, q');
  }

  lemma SendSdoInv(g: State, t: Tid, r: Rid, q: Req)
    requires Inv(g) && t in g.acts && g.acts[t] == Posting(JSdo(r), Send) && r in g.reqs
    requires ReqOk(q) && Tolerable(g.reqs[r], q, Some(t)) && q.pinOwner == g.reqs[r].pinOwner
    requires HoldsAgree(t, g.acts[t], Posting(JSdo(r), Wake), r, g.reqs[r], q)
    requires Rank(g.stage) < 8 && |g.mq| < g.mqDepth
    requires var reqs', mq' := g.reqs[r := q], g.mq + [SdoCmd(r)];
             OwnerTyped(reqs', g.nodes, mq', g.todo, g.pc) && OwnerOk(reqs', g.nodes, g.sdoDepth, mq', g.todo, g.pc)
    ensures Inv(With(At(g, t, Posting(JSdo(r), Wake)), r, q).(mq := g.mq + [SdoCmd(r)], sent := g.sent + [SdoCmd(r)]))
  {
    hide OwnerOk, OwnerTyped, ReqOk, HoldsAgree, Tolerable, HoldsCmd, HoldsCb, StageActor, ActorInv, HeldBy;
    ThreadsActReq(g.reqs, g.acts, t, Posting(JSdo(r), Wake), r, q);
    HolderCounts(g.acts, t, Posting(JSdo(r), Wake));
    SendHolds(g.stage, r);
    PinCount(g.reqs, r, q);
    assert g.received + (g.mq + [SdoCmd(r)]) == (g.received + g.mq) + [SdoCmd(r)];
  }

  lemma NotByOwner(pc: OPc, t: Tid, r: Rid, q: Req)
    requires Before(pc, t, Posting(JSdo(r), Send), r, q)
    ensures !q.pub.ByOwner?
  {
  }

  lemma SendHolds(stage: Stage, r: Rid)
    requires Rank(stage) < 8
    ensures HoldsCmd(Posting(JSdo(r), Send)) && HoldsCmd(Posting(JSdo(r), Wake))
    ensures !HoldsCb(Posting(JSdo(r), Send)) && !HoldsCb(Posting(JSdo(r), Wake))
    ensures StageActor(stage, Posting(JSdo(r), Wake))
  {
  }

  lemma SendMove(g: State, t: Tid, sendOk: bool)
    requires Inv(g) && t in g.acts && g.acts[t].Posting? && g.acts[t].ppc.Send? && Typed(g)
    ensures Inv(PostStep(g, t, sendOk))
  {
    hide Inv, Typed, SendStep;
    NamedReq(g, t);
    SendFail(g, t);
    if g.mqOpen && sendOk && |g.mq| < g.mqDepth {
      match g.acts[t].job
      case JOther(_) => SendOther(g, t);
      case JCancel(_) => SendCancel(g, t);
      case JSdo(_) => SendSdo(g, t);
    }
  }

  /** Application-side steps keep the invariant. */
  lemma AppPreserves(g: State, l: AppLabel)
    requires Inv(g) && AppEnabled(g, l)
    ensures Inv(AppStep(g, l))
  {
    hide Inv, Typed, PostStep, PostBegin, Reject, CancelLoop, CallbackStep, UnpinStep, PublishStep, TailStep, ExtStep;
    InvTyped(g);
    match l
    case PostBeginL(t, r, n) => BeginPost(g, t, r, n);
    case OtherBeginL(t, k) => OtherBegin(g, t, k);
    case PostL(t, sendOk) => if g.acts[t].ppc.Send? { SendMove(g, t, sendOk); } else { PostMove(g, t, sendOk); }
    case RejectL(t) => RejectPost(g, t);
    case CancelBeginL(t, r) => BeginCancel(g, t, r);
    case CancelLoopL(t) => CancelMove(g, t);
    case CallbackL(t) => CallbackMove(g, t);
    case UnpinL(t) => UnpinMove(g, t);
    case PublishL(t) => PublishMove(g, t);
    case TailL(t) => TailMove(g, t);
    case DestroyBeginL(t, r) => DestroyMove(g, l);
    case DestroyFreeL(t) => DestroyMove(g, l);
    case ExtBeginL(t) => SmallMoves(g, l);
    case ExtL(t) => ExtMove(g, t);
    case StopBeginL(t) => SmallMoves(g, l);
    case StopEndL(t) => SmallMoves(g, l);
  }
}
