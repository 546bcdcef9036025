/**
 What becomes of a request whose post is rejected: it can still run, exactly as
 long as the owner is in or before its main loop and the stop latch is clear.
 */
module SdoRepost {
  import opened Options
  import opened SdoModel
  import opened SdoInvariant
  import opened SdoAppSteps
  import opened SdoOwnerSteps
  import opened SdoOwnerLists
  import opened SdoOwnerClaim
  import opened SdoOwnerStages
  import opened SdoRuns
  import opened SdoAdmission
  import opened SdoLatch
  import SdoTheorems

  // ------------------------------------------------------- one owner operation at a time

  /** The only step the owner can take in the middle of an operation, with the transfer of a start issued. */
  function Duty(g: State): OwnerLabel {
    match g.pc
    case OFree => NextL
    case ODispatch(_, _) => ClaimL
    case OStart(_) => StartL(Issued)
    case OHead(_) => HeadL
    case OHeadCas(_) => HeadL
    case OQueuedLoad(_) => QueuedL
    case OQueuedCas(_) => QueuedL
    case _ => CompleteL
  }

  lemma DutyEnabled(g: State)
    requires Inv(g) && Typed(g) && !OwnerFree(g)
    ensures OwnerEnabled(g, Duty(g))
  {
    hide Typed, ReqsOk, ThreadsOk, StageThreads, CountsOk, StageFlags, StageOwner, PlacedIn, MqInv, TodoInv, NodeInv;
  }

  /** Steps to the end of the operation if no thread interferes; a stale compare-and-swap costs one more round. */
  function StepsLeft(pc: OPc, current: bool): nat {
    match pc
    case OFree => 0
    case OPubEnd(_) => 1
    case OPubSend(_) => 2
    case OPubCas(_, _) => if current then 3 else 6
    case OStageCas(_, _) => if current then 3 else 6
    case OLoop(_, _) => if current then 4 else 7
    case OPubUndo(_, _) => if current then 5 else 8
    case OStageUndo(_, _) => if current then 5 else 8
    case OLoad(_, _) => 5
    case OStart(_) => 1
    case OHeadCas(_) => 2
    case OHead(_) => 6
    case OQueuedCas(_) => 6
    case OQueuedLoad(_) => 7
    case ODispatch(_, _) => 6
  }

  /** What the owner has seen of the request it completes is its state. */
  predicate Current(reqs: map<Rid, Req>, pc: OPc) {
    match pc
    case OLoop(r, seen) => r in reqs && reqs[r].st == seen
    case OStageCas(r, seen) => r in reqs && reqs[r].st == seen
    case OStageUndo(r, seen) => r in reqs && reqs[r].st == seen
    case OPubCas(r, seen) => r in reqs && reqs[r].st == seen
    case OPubUndo(r, seen) => r in reqs && reqs[r].st == seen
    case _ => false
  }

  function Remaining(g: State): nat { 10 * |g.todo| + StepsLeft(g.pc, Current(g.reqs, g.pc)) }

  lemma CompleteShrinks(g: State)
    requires Typed(g) && InComplete(g.pc)
    requires ReqOfPc(g.pc).Some? && ReqOfPc(g.pc).value in g.reqs && PcReq(g.pc, g.reqs[ReqOfPc(g.pc).value])
    ensures Remaining(OwnerComplete(g)) < Remaining(g)
  {
    hide Typed;
  }

  lemma DutyShrinks(g: State)
    requires Inv(g) && Typed(g) && !OwnerFree(g) && OwnerEnabled(g, Duty(g))
    ensures Remaining(OwnerStep(g, Duty(g))) < Remaining(g)
  {
    hide Inv, Typed, OwnerComplete, Claim, Start, Head, CancelQueued, NextTodo;
    PcNamed(g);
    if InComplete(g.pc) {
      HandFacts(g, ReqOfPc(g.pc).value);
      CompleteShrinks(g);
    } else {
      OtherShrinks(g);
    }
  }

  lemma ClaimShrinks(g: State)
    requires Typed(g) && g.pc.ODispatch?
    ensures Remaining(Claim(g)) < Remaining(g)
  {
    hide Typed, Judge, ClaimReq, ClaimWork;
    PcIn(g, g.pc.r);
  }

  lemma StartShrinks(g: State)
    requires Typed(g) && g.pc.OStart?
    ensures Remaining(Start(g, Issued)) < Remaining(g)
  {
    hide Typed;
    PcIn(g, g.pc.r);
  }

  lemma HeadShrinks(g: State)
    requires Typed(g) && (g.pc.OHead? || g.pc.OHeadCas?) && g.nodes[g.pc.n].pending != []
    ensures Remaining(Head(g)) < Remaining(g)
  {
    hide Typed;
    HeadIn(g);
  }

  lemma QueuedShrinks(g: State)
    requires Typed(g) && (g.pc.OQueuedLoad? || g.pc.OQueuedCas?)
    ensures Remaining(CancelQueued(g)) < Remaining(g)
  {
    hide Typed, QueuedReq;
    PcIn(g, g.pc.r);
  }

  lemma NextShrinks(g: State)
    requires Typed(g) && g.pc.OFree? && g.todo != []
    ensures Remaining(NextTodo(g)) < Remaining(g)
  {
    hide Typed;
    TodoIn(g);
  }

  lemma PcIn(g: State, r: Rid)
    requires Typed(g) && ReqOfPc(g.pc) == Some(r)
    ensures r in g.reqs && g.reqs[r].node in g.nodes
  {
  }

  lemma HeadIn(g: State)
    requires Typed(g) && (g.pc.OHead? || g.pc.OHeadCas?)
    ensures g.pc.n in g.nodes && (g.nodes[g.pc.n].pending != [] ==> g.nodes[g.pc.n].pending[0] in g.reqs)
  {
  }

  lemma TodoIn(g: State)
    requires Typed(g) && g.todo != []
    ensures g.todo[0] in g.reqs
  {
  }

  lemma OtherShrinks(g: State)
    requires Typed(g) && !OwnerFree(g) && !InComplete(g.pc) && OwnerEnabled(g, Duty(g))
    ensures Remaining(OwnerStep(g, Duty(g))) < Remaining(g)
  {
    hide Typed, Claim, Start, Head, CancelQueued, NextTodo, Remaining;
    match g.pc
    case OFree => NextShrinks(g);
    case ODispatch(_, _) => ClaimShrinks(g);
    case OStart(_) => StartShrinks(g);
    case OHead(_) => HeadShrinks(g);
    case OHeadCas(_) => HeadShrinks(g);
    case OQueuedLoad(_) => QueuedShrinks(g);
    case OQueuedCas(_) => QueuedShrinks(g);
    case _ =>
  }

  // ------------------------------------------------------------------ what is left alone

  /** The owner's work in the main loop leaves threads, flags, the queue and a request in its poster's hands alone. */
  predicate Alone(g: State, g': State, r: Rid) {
    && g'.acts == g.acts && g'.stage == g.stage && g'.latch == g.latch && g'.quiescing == g.quiescing
    && g'.mqDepth == g.mqDepth && g'.mqOpen == g.mqOpen
    && r in g.reqs && r in g'.reqs && (g.reqs[r].loc.App? ==> g'.reqs[r] == g.reqs[r])
  }

  lemma OwnerAlone(g: State, l: OwnerLabel, r: Rid)
    requires Inv(g) && Typed(g) && OwnerEnabled(g, l) && !l.StageL? && r in g.reqs
    ensures Alone(g, OwnerStep(g, l), r)
  {
    hide Inv, Typed, Evolves, Recv, Confirm, CancelNode, Claim, Start, Head, CancelQueued, NextTodo, OwnerComplete;
    OwnerFollows(g, l, r);
  }

  /** The owner is not about to claim, start or reap anything. */
  predicate Finishing(pc: OPc) { pc.OFree? || InComplete(pc) }

  lemma DutyQueue(g: State)
    requires Typed(g) && !OwnerFree(g) && OwnerEnabled(g, Duty(g))
    ensures var g' := OwnerStep(g, Duty(g));
            g'.mq == g.mq && (Finishing(g.pc) ==> Finishing(g'.pc) && g'.nodes == g.nodes)
  {
    hide Typed, Claim, Start, Head, CancelQueued, NextTodo, OwnerComplete;
    match g.pc
    case OFree => NextQueue(g);
    case ODispatch(_, _) => ClaimQueue(g);
    case OStart(_) => StartQueue(g);
    case OHead(_) => HeadQueue(g);
    case OHeadCas(_) => HeadQueue(g);
    case OQueuedLoad(_) => QueuedQueue(g);
    case OQueuedCas(_) => QueuedQueue(g);
    case _ => CompleteQueue(g);
  }

  lemma NextQueue(g: State)
    requires Typed(g) && g.pc.OFree? && g.todo != []
    ensures g.todo[0] in g.reqs
    ensures var g' := NextTodo(g); g'.mq == g.mq && g'.nodes == g.nodes && Finishing(g'.pc)
  {
    hide Typed;
    TodoIn(g);
  }

  lemma CompleteQueue(g: State)
    requires Typed(g) && InComplete(g.pc)
    ensures var g' := OwnerComplete(g); g'.mq == g.mq && g'.nodes == g.nodes && Finishing(g'.pc)
  {
    hide Typed, CompleteReq;
    PcIn(g, ReqOfPc(g.pc).value);
  }

  lemma ClaimQueue(g: State)
    requires Typed(g) && g.pc.ODispatch?
    ensures Claim(g).mq == g.mq
  {
    hide Typed, Judge, ClaimReq, ClaimWork, ClaimPc;
    PcIn(g, g.pc.r);
  }

  lemma StartQueue(g: State)
    requires Typed(g) && g.pc.OStart?
    ensures Start(g, Issued).mq == g.mq
  {
    hide Typed;
    PcIn(g, g.pc.r);
  }

  lemma HeadQueue(g: State)
    requires Typed(g) && (g.pc.OHead? || g.pc.OHeadCas?) && g.nodes[g.pc.n].pending != []
    ensures Head(g).mq == g.mq
  {
    hide Typed;
    HeadIn(g);
  }

  lemma QueuedQueue(g: State)
    requires Typed(g) && (g.pc.OQueuedLoad? || g.pc.OQueuedCas?)
    ensures CancelQueued(g).mq == g.mq
  {
    hide Typed, QueuedReq, QueuedPc;
    PcIn(g, g.pc.r);
  }

  // ------------------------------------------------------------------------ continuations

  function Last(gs: seq<State>): State
    requires gs != []
  {
    gs[|gs| - 1]
  }

  /** One more step of the run. */
  lemma StepOn(gs: seq<State>, ls: seq<Label>, l: Label) returns (gs': seq<State>, ls': seq<Label>)
    requires IsRun(gs, ls) && Typed(Last(gs)) && Enabled(Last(gs), l)
    ensures IsRun(gs', ls') && gs < gs' && Last(gs') == Apply(Last(gs), l)
  {
    hide Typed, Enabled, Apply;
    Extended(gs, ls, l);
    gs', ls' := gs + [Apply(gs[|ls|], l)], ls + [l];
  }

  lemma LastInv(gs: seq<State>, ls: seq<Label>)
    requires IsRun(gs, ls)
    ensures gs != [] && Inv(Last(gs)) && Typed(Last(gs))
  {
    hide Inv, Typed;
    RunInv(gs, ls, |gs| - 1);
    InvTyped(Last(gs));
  }

  /** The owner brings the operation it is in to an end while nobody interferes. */
  lemma {:induction false} Finishes(gs: seq<State>, ls: seq<Label>, r: Rid) returns (gs': seq<State>, ls': seq<Label>)
    requires IsRun(gs, ls) && gs != [] && r in Last(gs).reqs
    ensures IsRun(gs', ls') && gs <= gs' && OwnerFree(Last(gs')) && Alone(Last(gs), Last(gs'), r)
    ensures Last(gs').mq == Last(gs).mq && (Finishing(Last(gs).pc) ==> Last(gs').nodes == Last(gs).nodes)
    decreases Remaining(Last(gs))
  {
    hide IsRun, Inv, Typed, OwnerEnabled, OwnerStep, Remaining, Finishing;
    var g := Last(gs);
    gs', ls' := gs, ls;
    if !OwnerFree(g) {
      LastInv(gs, ls);
      DutyEnabled(g);
      DutyShrinks(g);
      DutyQueue(g);
      OwnerAlone(g, Duty(g), r);
      gs', ls' := StepOn(gs, ls, ByTheOwner(Duty(g)));
      gs', ls' := Finishes(gs', ls', r);
    }
  }

  lemma PopQueue(g: State)
    requires Typed(g) && g.mq != []
    ensures Recv(g, false).mq == g.mq[1..]
  {
    hide Typed;
    PopIn(g);
  }

  lemma PopIn(g: State)
    requires Typed(g) && g.mq != []
    ensures CmdTyped(g.reqs, g.nodes, g.mq[0])
    ensures forall n | n in g.nodes :: WorkTyped(g.reqs, g.nodes[n])
  {
  }

  /** The owner drains the command queue, refusing every request. */
  lemma {:induction false} Drains(gs: seq<State>, ls: seq<Label>, r: Rid) returns (gs': seq<State>, ls': seq<Label>)
    requires IsRun(gs, ls) && gs != [] && r in Last(gs).reqs && OwnerFree(Last(gs)) && Last(gs).stage.Run?
    ensures IsRun(gs', ls') && gs <= gs' && OwnerFree(Last(gs')) && Alone(Last(gs), Last(gs'), r) && Last(gs').mq == []
    decreases |Last(gs).mq|
  {
    hide IsRun, Inv, Typed, Recv, Finishing;
    var g := Last(gs);
    gs', ls' := gs, ls;
    if g.mq != [] {
      LastInv(gs, ls);
      PopQueue(g);
      OwnerAlone(g, RecvL(false), r);
      gs', ls' := StepOn(gs, ls, ByTheOwner(RecvL(false)));
      gs', ls' := Finishes(gs', ls', r);
      gs', ls' := Drains(gs', ls', r);
    }
  }

  /** The owner gives up all work of the node. */
  lemma Clears(gs: seq<State>, ls: seq<Label>, r: Rid, n: Node) returns (gs': seq<State>, ls': seq<Label>)
    requires IsRun(gs, ls) && gs != [] && r in Last(gs).reqs && OwnerFree(Last(gs)) && Last(gs).stage.Run?
    requires n in Last(gs).nodes && Last(gs).mq == []
    ensures IsRun(gs', ls') && gs <= gs' && OwnerFree(Last(gs')) && Alone(Last(gs), Last(gs'), r) && Last(gs').mq == []
    ensures n in Last(gs').nodes && Empty(Last(gs').nodes[n])
  {
    hide IsRun, Inv, Typed;
    var g := Last(gs);
    LastInv(gs, ls);
    OwnerAlone(g, CancelNodeL(n), r);
    gs', ls' := StepOn(gs, ls, ByTheOwner(CancelNodeL(n)));
    gs', ls' := Finishes(gs', ls', r);
  }

  // ------------------------------------------------------------------- a post that is admitted

  /** Admission is open, the owner is idle with an empty queue, and the node of r has nothing to do. */
  predicate Calm(g: State, r: Rid) {
    && !g.latch && !g.quiescing && g.stage.Run? && OwnerFree(g) && g.mq == [] && g.mqOpen && g.mqDepth > 0
    && r in g.reqs && g.reqs[r].node in g.nodes && Empty(g.nodes[g.reqs[r].node])
  }

  /** Thread t is at p in posting r. */
  predicate AtPost(g: State, t: Tid, r: Rid, p: PPc) { Calm(g, r) && g.reqs[r].st.Queued? && t in g.acts && g.acts[t] == Posting(JSdo(r), p) }

  /** The loads of command_post in turn, up to the queue send. */
  function Along(k: nat): PPc {
    if k == 0 then LoadLatch1 else if k == 1 then LoadQuiesce1 else if k == 2 then AddRef
    else if k == 3 then LoadLatch2 else if k == 4 then LoadQuiesce2 else Send
  }

  lemma CalmHas(g: State, r: Rid)
    requires Calm(g, r)
    ensures r in g.reqs && g.reqs[r].node in g.nodes
  {
  }

  lemma BeginsAt(g: State, t: Tid, r: Rid)
    requires Typed(g) && Calm(g, r) && t in g.acts && g.acts[t].Idle?
    requires g.reqs[r].st.New? && g.reqs[r].poster.None? && !g.reqs[r].retired
    ensures AppEnabled(g, PostBeginL(t, r, g.reqs[r].node)) && AtPost(AppStep(g, PostBeginL(t, r, g.reqs[r].node)), t, r, LoadLatch1)
  {
    hide Typed;
  }

  lemma GoesAlong(g: State, t: Tid, r: Rid, k: nat)
    requires Typed(g) && AtPost(g, t, r, Along(k)) && k < 5
    ensures AppEnabled(g, PostL(t, true)) && AtPost(AppStep(g, PostL(t, true)), t, r, Along(k + 1))
  {
    hide Typed;
  }

  lemma SendsIt(g: State, t: Tid, r: Rid)
    requires Typed(g) && AtPost(g, t, r, Send)
    ensures AppEnabled(g, PostL(t, true))
    ensures var g' := AppStep(g, PostL(t, true));
            && g'.mq == [SdoCmd(r)] && Calm(g'.(mq := []), r) && g'.reqs[r].st.Queued?
  {
    hide Typed;
  }

  lemma ClaimsIt(g: State, r: Rid)
    requires Typed(g) && g.mq == [SdoCmd(r)] && Calm(g.(mq := []), r) && g.reqs[r].st.Queued?
    ensures var g1 := Recv(g, true);
            && OwnerEnabled(g, RecvL(true)) && g1.pc == ODispatch(r, true)
            && (Typed(g1) ==> r in Claim(g1).reqs && Claim(g1).reqs[r].st.Active?)
  {
    hide Typed;
  }

  /** From such a state an idle thread can post a free request and the owner makes it ACTIVE. */
  lemma PostsAndRuns(gs: seq<State>, ls: seq<Label>, t: Tid, r: Rid) returns (gs': seq<State>, ls': seq<Label>)
    requires IsRun(gs, ls) && gs != [] && Calm(Last(gs), r) && t in Last(gs).acts && Last(gs).acts[t].Idle?
    requires Last(gs).reqs[r].st.New? && Last(gs).reqs[r].poster.None? && !Last(gs).reqs[r].retired
    ensures IsRun(gs', ls') && gs <= gs' && gs' != [] && r in Last(gs').reqs && Last(gs').reqs[r].st.Active?
  {
    hide IsRun, Inv, Typed, AppEnabled, AppStep, Recv, Claim, Calm, Along;
    LastInv(gs, ls);
    CalmHas(Last(gs), r);
    BeginsAt(Last(gs), t, r);
    gs', ls' := StepOn(gs, ls, ByApp(PostBeginL(t, r, Last(gs).reqs[r].node)));
    gs', ls' := Admitted(gs', ls', t, r);
    LastInv(gs', ls');
    ClaimsIt(Last(gs'), r);
    gs', ls' := StepOn(gs', ls', ByTheOwner(RecvL(true)));
    LastInv(gs', ls');
    gs', ls' := StepOn(gs', ls', ByTheOwner(ClaimL));
  }

  lemma Admitted(gs: seq<State>, ls: seq<Label>, t: Tid, r: Rid) returns (gs': seq<State>, ls': seq<Label>)
    requires IsRun(gs, ls) && gs != [] && AtPost(Last(gs), t, r, LoadLatch1)
    ensures IsRun(gs', ls') && gs <= gs' && gs' != []
    ensures var g := Last(gs'); g.mq == [SdoCmd(r)] && Calm(g.(mq := []), r) && g.reqs[r].st.Queued?
  {
    hide IsRun, Inv, Typed, AppEnabled, AppStep, Calm;
    gs', ls' := gs, ls;
    var k := 0;
    while k < 5
      invariant k <= 5 && gs' != [] && IsRun(gs', ls') && gs <= gs' && AtPost(Last(gs'), t, r, Along(k))
    {
      LastInv(gs', ls');
      GoesAlong(Last(gs'), t, r, k);
      gs', ls' := StepOn(gs', ls', ByApp(PostL(t, true)));
      k := k + 1;
    }
    LastInv(gs', ls');
    SendsIt(Last(gs'), t, r);
    gs', ls' := StepOn(gs', ls', ByApp(PostL(t, true)));
  }

  // --------------------------------------------------------------------- admission and latch

  /** While the latch is clear nobody is stopping, and admission stays open once the owner has opened it. */
  predicate LatchFirst(g: State) {
    !g.latch ==> (StorePast(g) ==> !g.quiescing) && !g.stage.OpenUndo? && forall t | t in g.acts :: !g.acts[t].StopSecond?
  }

  lemma AppSame(g: State, l: AppLabel)
    requires Typed(g) && AppEnabled(g, l) && !l.StopBeginL? && !l.StopEndL?
    ensures var g' := AppStep(g, l);
            && g'.latch == g.latch && g'.quiescing == g.quiescing && g'.stage == g.stage && g'.mqDepth == g.mqDepth
            && l.t in g.acts && l.t in g'.acts && g'.acts == g.acts[l.t := g'.acts[l.t]]
  {
    hide Typed, PostStep, PostBegin, Reject, CancelLoop, CallbackStep, UnpinStep, PublishStep, TailStep, ExtStep;
  }

  lemma NotStopping(g: State, l: AppLabel)
    requires Typed(g) && AppEnabled(g, l) && !l.StopBeginL?
    ensures l.t in AppStep(g, l).acts && !AppStep(g, l).acts[l.t].StopSecond?
  {
    hide Typed, AppStep, PostStep, PostNext;
    if l.PostL? {
      PostActs(g, l.t, l.sendOk);
      PostIs(g, l);
      AppFlags(g, l);
      if !g.acts[l.t].ppc.Send? { PostNoStop(g.latch, g.quiescing, g.acts[l.t].job, g.acts[l.t].ppc); }
    } else {
      NotCarrying(g, l);
    }
  }

  lemma PostNoStop(latch: bool, quiescing: bool, job: Job, p: PPc)
    requires !p.Send?
    ensures !PostNext(latch, quiescing, job, p).StopSecond?
  {
  }

  lemma StopFlags(g: State, l: AppLabel)
    requires Typed(g) && AppEnabled(g, l) && (l.StopBeginL? || l.StopEndL?)
    ensures AppStep(g, l).mqDepth == g.mqDepth
    ensures AppStep(g, l).latch == (g.latch || l.StopBeginL?) && (l.StopEndL? ==> l.t in g.acts && g.acts[l.t].StopSecond?)
  {
    hide Typed;
  }

  lemma StageLatch(g: State)
    requires Rank(g.stage) >= 6 ==> g.latch
    requires LatchFirst(g)
    ensures LatchFirst(StageStep(g))
  {
    hide CancelNode;
  }

  lemma OwnerSame(g: State, l: OwnerLabel)
    requires Typed(g) && OwnerEnabled(g, l) && !l.StageL?
    ensures var g' := OwnerStep(g, l);
            && g'.latch == g.latch && g'.quiescing == g.quiescing && g'.stage == g.stage && g'.acts == g.acts
            && g'.mqDepth == g.mqDepth
  {
    hide Typed, Recv, Confirm, CancelNode, Claim, Start, Head, CancelQueued, NextTodo, OwnerComplete;
  }

  lemma LatchFirstKept(g: State, l: Label)
    requires Inv(g) && Typed(g) && Enabled(g, l) && LatchFirst(g)
    ensures LatchFirst(Apply(g, l))
  {
    hide Inv, Typed, AppStep, AppEnabled, OwnerStep, OwnerEnabled, StageThreads, StageOwner, CountsOk;
    match l
    case ByTheOwner(o) =>
      if o.StageL? { StageOf(g); StageLatch(g); StageIs(g); } else { OwnerSame(g, o); }
    case ByApp(a) =>
      if a.StopBeginL? || a.StopEndL? {
        StopFlags(g, a);
      } else {
        AppSame(g, a);
        NotStopping(g, a);
      }
  }

  lemma StageIs(g: State)
    requires Typed(g) && OwnerEnabled(g, StageL)
    ensures OwnerStep(g, StageL) == StageStep(g)
  {
    hide Typed, StageStep;
  }

  lemma {:induction false} RunLatchFirst(gs: seq<State>, ls: seq<Label>, i: nat)
    requires IsRun(gs, ls) && i < |gs|
    ensures LatchFirst(gs[i])
  {
    hide Inv, Typed, Enabled, Apply;
    if i > 0 {
      RunLatchFirst(gs, ls, i - 1);
      RunInv(gs, ls, i - 1);
      assert StepsTo(gs[i - 1], ls[i - 1], gs[i]);
      LatchFirstKept(gs[i - 1], ls[i - 1]);
    }
  }

  lemma DepthSame(g: State, l: Label)
    requires Typed(g) && Enabled(g, l)
    ensures Apply(g, l).mqDepth == g.mqDepth
  {
    hide Typed, AppStep, AppEnabled, OwnerStep, OwnerEnabled;
    match l
    case ByApp(a) => if a.StopBeginL? || a.StopEndL? { StopFlags(g, a); } else { AppSame(g, a); }
    case ByTheOwner(o) => if o.StageL? { StageIs(g); StageDepth(g); } else { OwnerSame(g, o); }
  }

  lemma StageDepth(g: State)
    ensures StageStep(g).mqDepth == g.mqDepth
  {
    hide CancelNode;
  }

  lemma {:induction false} RunDepth(gs: seq<State>, ls: seq<Label>, i: nat)
    requires IsRun(gs, ls) && i < |gs|
    ensures gs[i].mqDepth > 0
  {
    hide Typed, Enabled, Apply;
    if i > 0 {
      RunDepth(gs, ls, i - 1);
      assert StepsTo(gs[i - 1], ls[i - 1], gs[i]);
      DepthSame(gs[i - 1], ls[i - 1]);
    }
  }

  // ------------------------------------------------------------------------- running again

  lemma OpensOne(g: State)
    requires Inv(g) && Typed(g) && LatchFirst(g) && !g.latch && Rank(g.stage) < 4
    ensures OwnerEnabled(g, StageL)
    ensures var g' := OwnerStep(g, StageL);
            && g'.reqs == g.reqs && g'.acts == g.acts && !g'.latch && Rank(g.stage) < Rank(g'.stage) <= 4
  {
    hide Inv, Typed, StageThreads, CountsOk, CancelNode;
    StageOf(g);
  }

  /** While the latch is clear the owner gets to its main loop. */
  lemma {:induction false} Opens(gs: seq<State>, ls: seq<Label>) returns (gs': seq<State>, ls': seq<Label>)
    requires IsRun(gs, ls) && gs != [] && !Last(gs).latch && Rank(Last(gs).stage) <= 4
    ensures IsRun(gs', ls') && gs <= gs' && gs' != [] && Last(gs').reqs == Last(gs).reqs && Last(gs').acts == Last(gs).acts
    ensures Last(gs').stage.Run? && !Last(gs').latch
    decreases 4 - Rank(Last(gs).stage)
  {
    hide IsRun, Inv, Typed, OwnerStep, OwnerEnabled, LatchFirst;
    gs', ls' := gs, ls;
    if Rank(Last(gs).stage) < 4 {
      LastInv(gs, ls);
      RunLatchFirst(gs, ls, |gs| - 1);
      OpensOne(Last(gs));
      gs', ls' := StepOn(gs, ls, ByTheOwner(StageL));
      gs', ls' := Opens(gs', ls');
    }
  }

  /** Thread t is idle and may post r. */
  predicate MayPost(g: State, t: Tid, r: Rid) {
    && t in g.acts && g.acts[t].Idle? && r in g.reqs && g.reqs[r].loc.App?
    && g.reqs[r].st.New? && g.reqs[r].poster.None? && !g.reqs[r].retired
  }

  lemma RejectedMay(g: State, t: Tid)
    requires Inv(g) && Typed(g) && t in g.acts && g.acts[t].Rejecting?
    ensures AppEnabled(g, RejectL(t)) && g.acts[t].r in g.reqs
    ensures var g' := AppStep(g, RejectL(t)); MayPost(g', t, g.acts[t].r) && g'.stage == g.stage && g'.latch == g.latch
  {
    hide Inv, Typed, ReqOk, ActorReq;
    NamedReq(g, t);
    var r := g.acts[t].r;
    Facts2(g, t, r);
    RejectedIs(t, g.acts[t], g.reqs[r]);
  }

  lemma RejectedIs(t: Tid, a: Actor, q: Req)
    requires ReqOk(q) && a.Rejecting? && ActorReq(t, a, q)
    ensures q.loc.App? && !q.retired
  {
  }

  lemma NodeIn(g: State, r: Rid)
    requires Typed(g) && r in g.reqs
    ensures g.reqs[r].node in g.nodes
  {
  }

  lemma OpenQueue(g: State)
    requires Inv(g) && g.stage.Run?
    ensures g.mqOpen
  {
    hide Typed, ReqsOk, ThreadsOk, OwnerOk, CountsOk, StageThreads, StageOwner;
  }

  /** From any state with a clear latch and the owner not past its main loop, a request that may be posted can run. */
  lemma CanRun(gs: seq<State>, ls: seq<Label>, t: Tid, r: Rid) returns (gs': seq<State>, ls': seq<Label>)
    requires IsRun(gs, ls) && gs != [] && !Last(gs).latch && Rank(Last(gs).stage) <= 4 && MayPost(Last(gs), t, r)
    ensures IsRun(gs', ls') && gs <= gs' && gs' != [] && r in Last(gs').reqs && Last(gs').reqs[r].st.Active?
  {
    hide IsRun, Inv, Typed, LatchFirst;
    gs', ls' := Opens(gs, ls);
    gs', ls' := Finishes(gs', ls', r);
    gs', ls' := Drains(gs', ls', r);
    LastInv(gs', ls');
    NodeIn(Last(gs'), r);
    gs', ls' := Clears(gs', ls', r, Last(gs').reqs[r].node);
    LastInv(gs', ls');
    OpenQueue(Last(gs'));
    RunDepth(gs', ls', |gs'| - 1);
    RunLatchFirst(gs', ls', |gs'| - 1);
    OpenNow(Last(gs'));
    gs', ls' := PostsAndRuns(gs', ls', t, r);
  }

  lemma OpenNow(g: State)
    requires LatchFirst(g) && !g.latch && g.stage.Run?
    ensures !g.quiescing
  {
  }

  // ------------------------------------------------------------------------- never running

  /** The latch is set, and whoever posts r has not got past it. */
  predicate Barred(g: State, r: Rid) {
    && g.latch && r in g.reqs && g.reqs[r].loc.App?
    && forall t | t in g.acts :: PostOf(g.acts[t]) == Some(r) ==> !PastLatch(g.acts[t])
  }

  lemma PostBarred(latch: bool, quiescing: bool, job: Job, p: PPc, r: Rid)
    requires latch && !p.Send? && (PostOf(Posting(job, p)) == Some(r) ==> !PastLatch(Posting(job, p)))
    ensures var a := PostNext(latch, quiescing, job, p); PostOf(a) == Some(r) ==> !PastLatch(a)
  {
  }

  lemma SendBarred(job: Job, r: Rid)
    requires job != JSdo(r)
    ensures PostOf(Posting(job, Wake)) != Some(r) && PostOf(Posting(job, Release(false))) != Some(r)
  {
  }

  lemma AtSend(job: Job, r: Rid)
    requires PostOf(Posting(job, Send)) == Some(r) ==> !PastLatch(Posting(job, Send))
    ensures job != JSdo(r)
  {
  }

  lemma MoverBarred(g: State, l: AppLabel, r: Rid)
    requires Typed(g) && AppEnabled(g, l) && Barred(g, r)
    ensures var a := AppStep(g, l).acts; l.t in a && (PostOf(a[l.t]) == Some(r) ==> !PastLatch(a[l.t]))
  {
    hide Typed, AppStep, PostStep, PostNext, PostOf, PastLatch;
    if l.PostL? {
      PostActs(g, l.t, l.sendOk);
      PostIs(g, l);
      AppFlags(g, l);
      var job, p := g.acts[l.t].job, g.acts[l.t].ppc;
      if p.Send? { AtSend(job, r); SendBarred(job, r); } else { PostBarred(g.latch, g.quiescing, job, p, r); }
    } else {
      NotCarrying(g, l);
      OutsideLatch(AppStep(g, l).acts[l.t]);
    }
  }

  lemma NotHanded(g: State, l: Label, r: Rid)
    requires Barred(g, r)
    ensures !HandsOver(g, l, r)
  {
    if HandsOver(g, l, r) { AtSend(g.acts[l.a.t].job, r); }
  }

  lemma BarredKept(g: State, l: Label, r: Rid)
    requires Inv(g) && Typed(g) && Enabled(g, l) && Barred(g, r)
    ensures Barred(Apply(g, l), r)
  {
    hide Inv, Typed, AppStep, AppEnabled, OwnerStep, OwnerEnabled, PostOf, PastLatch, HandsOver;
    LocStep(g, l, r);
    NotHanded(g, l, r);
    match l
    case ByTheOwner(o) => OwnerFlags(g, o);
    case ByApp(a) =>
      AppFlags(g, a);
      MoverBarred(g, a, r);
  }

  /** Neither claimed for a transfer nor waiting for one. */
  predicate NotRun(q: Req) { q.st.New? || q.st.Queued? || q.st.CancelPending? || q.st.TeardownPending? || q.st.Done? }

  lemma CancelNotRun(t: Tid, seen: RState, q: Req)
    requires NotRun(q)
    ensures NotRun(CancelReq(t, seen, q))
  {
  }

  lemma PublishNotRun(t: Tid, a: Actor, q: Req)
    requires NotRun(q) && (a.CPub? || a.CSub?)
    ensures NotRun(PublishReq(t, a, q))
  {
  }

  lemma CompleteNotRun(pc: OPc, q: Req)
    requires NotRun(q)
    ensures NotRun(CompleteReq(pc, q)) && NotRun(QueuedReq(pc, q))
  {
  }

  lemma LoopNotRun(g: State, t: Tid, r: Rid)
    requires Typed(g) && t in g.acts && g.acts[t].CLoop? && r in g.reqs && NotRun(g.reqs[r])
    ensures var g' := CancelLoop(g, t); r in g'.reqs && NotRun(g'.reqs[r])
  {
    hide Typed, CancelReq, CancelNext, NotRun;
    NamedReq(g, t);
    if g.acts[t].r == r { CancelNotRun(t, g.acts[t].seen, g.reqs[r]); }
  }

  lemma UnpinNotRun(g: State, t: Tid, r: Rid)
    requires Typed(g) && t in g.acts && g.acts[t].CUnpin? && r in g.reqs && NotRun(g.reqs[r])
    ensures var g' := UnpinStep(g, t); r in g'.reqs && NotRun(g'.reqs[r])
  {
    hide Typed, Unpinned;
    NamedReq(g, t);
  }

  lemma PubNotRun(g: State, t: Tid, r: Rid)
    requires Typed(g) && t in g.acts && (g.acts[t].CPub? || g.acts[t].CSub?) && r in g.reqs && NotRun(g.reqs[r])
    ensures var g' := PublishStep(g, t); r in g'.reqs && NotRun(g'.reqs[r])
  {
    hide Typed, PublishStep, PublishReq, NotRun;
    NamedReq(g, t);
    PublishReqs(g, t);
    if g.acts[t].c.r == r { PublishNotRun(t, g.acts[t], g.reqs[r]); }
  }

  /** The record that a publishing thread touches. */
  lemma PublishReqs(g: State, t: Tid)
    requires Typed(g) && t in g.acts && (g.acts[t].CPub? || g.acts[t].CSub?) && g.acts[t].c.r in g.reqs
    ensures var x := g.acts[t].c.r;
            var reqs := PublishStep(g, t).reqs;
            reqs == g.reqs || reqs == g.reqs[x := PublishReq(t, g.acts[t], g.reqs[x])]
  {
    hide Typed, PublishReq, PublishNext;
  }

  lemma RestNotRun(g: State, l: AppLabel, r: Rid)
    requires Typed(g) && AppEnabled(g, l) && r in g.reqs && NotRun(g.reqs[r])
    requires !l.PostL? && !l.PublishL? && !l.CancelLoopL? && !l.UnpinL?
    ensures r in AppStep(g, l).reqs && NotRun(AppStep(g, l).reqs[r])
  {
    hide Typed, CallbackNext, TailNext, ExtNext;
    NamedReq(g, l.t);
  }

  lemma AppNotRun(g: State, l: AppLabel, r: Rid)
    requires Typed(g) && AppEnabled(g, l) && r in g.reqs && NotRun(g.reqs[r])
    ensures r in AppStep(g, l).reqs && NotRun(AppStep(g, l).reqs[r])
  {
    hide Typed, PostStep, PublishStep, CancelLoop, UnpinStep, HandsOver;
    match l
    case PostL(t, sendOk) => PostLoc(g, t, sendOk, r);
    case PublishL(t) => PubNotRun(g, t, r);
    case CancelLoopL(t) => LoopNotRun(g, t, r);
    case UnpinL(t) => UnpinNotRun(g, t, r);
    case _ => RestNotRun(g, l, r);
  }

  /** An owner past its main loop has nothing left to claim, start or reap. */
  lemma PastRun(g: State)
    requires Inv(g) && Rank(g.stage) >= 5
    ensures !g.pc.ODispatch? && !g.pc.OStart? && !g.pc.OHead? && !g.pc.OHeadCas?
  {
    hide Typed, ReqsOk, ThreadsOk, OwnerOk, CountsOk, StageThreads, StageFlags;
  }

  lemma RecvNotRun(g: State, avail: bool, r: Rid)
    requires Typed(g) && g.mq != [] && g.stage.Drain? && r in g.reqs && NotRun(g.reqs[r])
    ensures var g' := Recv(g, avail); r in g'.reqs && NotRun(g'.reqs[r])
  {
    hide Typed;
    PopIn(g);
  }

  lemma QueuedNotRun(g: State, r: Rid)
    requires Typed(g) && (g.pc.OQueuedLoad? || g.pc.OQueuedCas?) && r in g.reqs && NotRun(g.reqs[r])
    ensures var g' := CancelQueued(g); r in g'.reqs && NotRun(g'.reqs[r])
  {
    hide Typed, QueuedReq, QueuedPc, NotRun;
    PcIn(g, g.pc.r);
    CompleteNotRun(g.pc, g.reqs[r]);
  }

  lemma OpNotRun(g: State, r: Rid)
    requires Typed(g) && InComplete(g.pc) && r in g.reqs && NotRun(g.reqs[r])
    ensures var g' := OwnerComplete(g); r in g'.reqs && NotRun(g'.reqs[r])
  {
    hide Typed, CompleteReq, CompletePc, CompleteDelta, NotRun;
    PcIn(g, ReqOfPc(g.pc).value);
    CompleteNotRun(g.pc, g.reqs[r]);
  }

  lemma NextNotRun(g: State, r: Rid)
    requires Typed(g) && g.todo != [] && r in g.reqs && NotRun(g.reqs[r])
    ensures g.todo[0] in g.reqs
    ensures var g' := NextTodo(g); r in g'.reqs && NotRun(g'.reqs[r])
  {
    hide Typed;
    TodoIn(g);
  }

  lemma StageNotRun(g: State, r: Rid)
    requires r in g.reqs && NotRun(g.reqs[r])
    ensures var g' := StageStep(g); r in g'.reqs && NotRun(g'.reqs[r])
  {
    hide NextStage;
  }

  lemma OwnerNotRun(g: State, l: OwnerLabel, r: Rid)
    requires Inv(g) && Typed(g) && OwnerEnabled(g, l) && Rank(g.stage) >= 5 && r in g.reqs && NotRun(g.reqs[r])
    ensures r in OwnerStep(g, l).reqs && NotRun(OwnerStep(g, l).reqs[r])
  {
    hide Inv, Typed, Recv, Confirm, CancelNode, Claim, Start, Head, CancelQueued, NextTodo, OwnerComplete, StageStep, NotRun;
    PastRun(g);
    match l
    case RecvL(avail) => RecvNotRun(g, avail, r);
    case QueuedL => QueuedNotRun(g, r);
    case CompleteL => OpNotRun(g, r);
    case NextL => NextNotRun(g, r);
    case StageL => StageNotRun(g, r);
    case ConfirmL(_, _, _) =>
    case CancelNodeL(_) =>
    case ReapL(_) =>
    case ClaimL =>
    case StartL(_) =>
    case HeadL =>
  }

  /** r can never become ACTIVE: its post will be turned away, or the owner has left the main loop. */
  predicate Over(g: State, r: Rid) {
    r in g.reqs && (Barred(g, r) || (Rank(g.stage) >= 5 && NotRun(g.reqs[r])))
  }

  lemma OverKept(g: State, l: Label, r: Rid)
    requires Inv(g) && Typed(g) && Enabled(g, l) && Over(g, r)
    ensures Over(Apply(g, l), r)
  {
    hide Inv, Typed, AppStep, AppEnabled, OwnerStep, OwnerEnabled, Barred, NotRun;
    if Barred(g, r) {
      BarredKept(g, l, r);
      BarredIn(Apply(g, l), r);
    } else {
      match l
      case ByApp(a) => AppNotRun(g, a, r); SdoTheorems.AppRanks(g, a);
      case ByTheOwner(o) => OwnerNotRun(g, o, r); SdoTheorems.OwnerRanks(g, o);
    }
  }

  lemma BarredIn(g: State, r: Rid)
    requires Barred(g, r)
    ensures r in g.reqs
  {
  }

  lemma {:induction false} OverForGood(gs: seq<State>, ls: seq<Label>, i: nat, k: nat, r: Rid)
    requires IsRun(gs, ls) && i <= k < |gs| && Over(gs[i], r)
    ensures Over(gs[k], r)
    decreases k - i
  {
    hide Inv, Typed, Enabled, Apply, Over, Init;
    if i < k {
      RunInv(gs, ls, i);
      assert StepsTo(gs[i], ls[i], gs[i + 1]);
      OverKept(gs[i], ls[i], r);
      OverForGood(gs, ls, i + 1, k, r);
    }
  }

  lemma OverIdle(g: State, r: Rid)
    requires Inv(g) && Over(g, r)
    ensures r in g.reqs && !g.reqs[r].st.Active?
  {
    hide Inv;
    ReqsFact(g, r);
  }

  // --------------------------------------------------------------------------- the boundary

  /** A run that agrees with gs up to state i and has r ACTIVE at state k. */
  predicate RunsAt(gs: seq<State>, i: nat, r: Rid, gs': seq<State>, ls': seq<Label>, k: nat)
    requires i < |gs|
  {
    IsRun(gs', ls') && i <= k < |gs'| && gs'[..i + 1] == gs[..i + 1] && r in gs'[k].reqs && gs'[k].reqs[r].st.Active?
  }

  ghost predicate MayRun(gs: seq<State>, i: nat, r: Rid)
    requires i < |gs|
  {
    exists gs': seq<State>, ls': seq<Label>, k: nat :: RunsAt(gs, i, r, gs', ls', k)
  }

  /** Only the thread that rejects the post of r holds it. */
  lemma RejecterOnly(g: State, t: Tid, u: Tid, r: Rid)
    requires Inv(g) && t in g.acts && u in g.acts && g.acts[t] == Rejecting(r) && PostOf(g.acts[u]) == Some(r)
    ensures u == t && r in g.reqs && g.reqs[r].loc.App? && NotRun(g.reqs[r])
  {
    hide Inv, ReqOk, ActorReq;
    InvTyped(g);
    NamedReq(g, t);
    NamedReq(g, u);
    PostNames(g.acts[u]);
    Facts2(g, t, r);
    Facts2(g, u, r);
    PosterIs(t, u, g.acts[t], g.acts[u], g.reqs[r]);
  }

  lemma PostNames(a: Actor)
    requires PostOf(a).Some?
    ensures ReqOfActor(a) == PostOf(a)
  {
  }

  lemma PosterIs(t: Tid, u: Tid, a: Actor, b: Actor, q: Req)
    requires ReqOk(q) && ActorReq(t, a, q) && ActorReq(u, b, q) && PostOf(a).Some? && PostOf(b).Some?
    ensures t == u && q.loc.App? && NotRun(q)
  {
  }

  lemma RejectedOver(g: State, t: Tid)
    requires Inv(g) && t in g.acts && g.acts[t].Rejecting? && (g.latch || Rank(g.stage) >= 5)
    ensures Over(g, g.acts[t].r)
  {
    hide Inv, NotRun;
    var r := g.acts[t].r;
    RejecterOnly(g, t, t, r);
    forall u | u in g.acts && PostOf(g.acts[u]) == Some(r) ensures !PastLatch(g.acts[u]) { RejecterOnly(g, t, u, r); }
  }

  lemma RejectedRuns(gs: seq<State>, ls: seq<Label>, i: nat, t: Tid)
    requires IsRun(gs, ls) && i < |gs| && t in gs[i].acts && gs[i].acts[t].Rejecting?
    requires !gs[i].latch && Rank(gs[i].stage) <= 4
    ensures MayRun(gs, i, gs[i].acts[t].r)
  {
    hide StepsTo, Init, Inv, Typed, AppEnabled, AppStep;
    var r := gs[i].acts[t].r;
    Cut(gs, ls, i);
    LastOf(gs, ls, i);
    var hs, ks := gs[..i + 1], ls[..i];
    LastInv(hs, ks);
    RejectedMay(gs[i], t);
    hs, ks := StepOn(hs, ks, ByApp(RejectL(t)));
    hs, ks := CanRun(hs, ks, t, r);
    assert hs[..i + 1] == gs[..i + 1];
    assert RunsAt(gs, i, r, hs, ks, |hs| - 1);
  }

  /**
   What becomes of a request whose post is being rejected: some continuation makes it
   ACTIVE if and only if the stop latch is clear and the owner is not past its main
   loop.  A cancel that returned RT_EOK for it before does not change that.
   */
  lemma RejectedBoundary(gs: seq<State>, ls: seq<Label>, i: nat, t: Tid)
    requires IsRun(gs, ls) && i < |gs| && t in gs[i].acts && gs[i].acts[t].Rejecting?
    ensures MayRun(gs, i, gs[i].acts[t].r) <==> !gs[i].latch && Rank(gs[i].stage) <= 4
  {
    hide IsRun, Inv, Over;
    var r := gs[i].acts[t].r;
    if !gs[i].latch && Rank(gs[i].stage) <= 4 {
      RejectedRuns(gs, ls, i, t);
    } else if MayRun(gs, i, r) {
      var gs': seq<State>, ls': seq<Label>, k: nat :| RunsAt(gs, i, r, gs', ls', k);
      assert gs'[i] == gs'[..i + 1][i] == gs[i];
      RunInv(gs', ls', i);
      RejectedOver(gs'[i], t);
      OverForGood(gs', ls', i, k, r);
      RunInv(gs', ls', k);
      OverIdle(gs'[k], r);
    }
  }
}
