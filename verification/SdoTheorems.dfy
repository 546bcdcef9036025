/** What the request protocol guarantees over every run. */
module SdoTheorems {
  import opened Options
  import opened SdoModel
  import opened SdoInvariant
  import opened SdoFrame
  import opened SdoAppSteps
  import opened SdoOwnerSteps
  import opened SdoOwnerLists
  import opened SdoOwnerStages
  import opened SdoRuns
  import opened SdoAdmission

  // -------------------------------------------------------- completion and freeing

  /** A completion event is sent at most once, only for DONE, and always by the time its publisher has left. */
  lemma CompletionOnce(gs: seq<State>, ls: seq<Label>, i: nat, r: Rid)
    requires IsRun(gs, ls) && i < |gs| && r in gs[i].reqs
    ensures gs[i].reqs[r].sends <= 1
    ensures gs[i].reqs[r].sends == 1 ==> gs[i].reqs[r].st.Done?
    ensures gs[i].reqs[r].st.Done? && gs[i].reqs[r].refs == 0 ==> gs[i].reqs[r].sends == 1
  {
    hide Inv, IsRun;
    RunInv(gs, ls, i);
    ReqsFact(gs[i], r);
  }

  /** DONE is absorbing, and a staged or published result never changes again. */
  lemma ResultFrozen(gs: seq<State>, ls: seq<Label>, i: nat, j: nat, r: Rid)
    requires IsRun(gs, ls) && i <= j < |gs| && r in gs[i].reqs && IsFinal(gs[i].reqs[r].st)
    ensures r in gs[j].reqs && IsFinal(gs[j].reqs[r].st) && gs[j].reqs[r].result == gs[i].reqs[r].result
    ensures gs[i].reqs[r].st.Done? ==> gs[j].reqs[r].st.Done?
  {
    hide IsRun;
    RunFollows(gs, ls, i, j, r);
  }

  /** The owner holds no reference to r. */
  predicate OwnerForgot(g: State, r: Rid) {
    && SdoCmd(r) !in g.mq && r !in g.todo && ReqOfPc(g.pc) != Some(r)
    && forall n | n in g.nodes :: g.nodes[n].active != Some(r) && r !in g.nodes[n].pending
  }

  /** No thread is posting r, between its cancel pin and unpin, or inside its event send. */
  predicate ThreadsForgot(acts: map<Tid, Actor>, r: Rid) {
    forall t | t in acts ::
      PinOf(acts[t]) != Some(r) && PostOf(acts[t]) != Some(r) && PubOf(acts[t]) != Some(r)
  }

  lemma FreedOwner(g: State, r: Rid)
    requires Inv(g) && r in g.reqs && g.reqs[r].freed
    ensures OwnerForgot(g, r)
  {
    hide ThreadsOk, CountsOk, StageThreads, StageOwner, StageFlags, SubSeq;
    assert ReqOk(g.reqs[r]);
    assert ReqOfPc(g.pc) == Some(r) ==> PcReq(g.pc, g.reqs[r]);
    forall n | n in g.nodes ensures g.nodes[n].active != Some(r) && r !in g.nodes[n].pending {
      assert NodeInv(g.reqs, g.sdoDepth, n, g.nodes[n]);
    }
  }

  lemma FreedThread(t: Tid, a: Actor, r: Rid, q: Req)
    requires ReqOk(q) && q.freed && (ReqOfActor(a) == Some(r) ==> ActorReq(t, a, q))
    ensures PinOf(a) != Some(r) && PostOf(a) != Some(r) && PubOf(a) != Some(r)
  {
  }

  lemma FreedThreads(g: State, r: Rid)
    requires Inv(g) && r in g.reqs && g.reqs[r].freed
    ensures ThreadsForgot(g.acts, r)
  {
    hide Inv, ReqOk, ActorReq;
    ReqsFact(g, r);
    forall t | t in g.acts
      ensures PinOf(g.acts[t]) != Some(r) && PostOf(g.acts[t]) != Some(r) && PubOf(g.acts[t]) != Some(r)
    {
      if ReqOfActor(g.acts[t]) == Some(r) { Facts2(g, t, r); }
      FreedThread(t, g.acts[t], r, g.reqs[r]);
    }
  }

  /**
   From the moment destroy frees a request, nobody holds it and no step of the
   run changes its state word, references, result or event again.
   */
  lemma FreeIsSafe(gs: seq<State>, ls: seq<Label>, i: nat, j: nat, r: Rid)
    requires IsRun(gs, ls) && i <= j < |gs| && r in gs[i].reqs && gs[i].reqs[r].freed
    ensures r in gs[j].reqs && OwnerForgot(gs[j], r) && ThreadsForgot(gs[j].acts, r)
    ensures var q, q' := gs[i].reqs[r], gs[j].reqs[r];
            q'.st == q.st && q'.refs == q.refs && q'.result == q.result && q'.sends == q.sends && q'.starts == q.starts
  {
    hide Inv, IsRun, OwnerForgot, ThreadsForgot;
    RunFollows(gs, ls, i, j, r);
    RunInv(gs, ls, j);
    FreedOwner(gs[j], r);
    FreedThreads(gs[j], r);
  }

  // ------------------------------------------------------------ teardown barrier

  /** Requests in CANCEL_DONE, or published by a canceler that has not yet subtracted its pin. */
  ghost function Unreturned(g: State): set<Rid> {
    set r | r in g.reqs && (IsStaged(g.reqs[r].st) || exists t | t in g.acts :: OwesOf(g.acts[t]) == Some(r))
  }

  lemma PinsAreUnreturned(g: State, r: Rid)
    requires Inv(g) && r in g.reqs
    ensures r in StagedPins(g.reqs) <==> r in Unreturned(g)
  {
    hide OwnerOk, CountsOk, StageThreads, StageOwner, StageFlags, ActOk;
    assert ReqOk(g.reqs[r]) && HeldBy(g.acts, r, g.reqs[r]);
    forall t | t in g.acts && OwesOf(g.acts[t]) == Some(r) ensures r in StagedPins(g.reqs) {
      assert ActorInv(g.reqs, t, g.acts[t]);
    }
    if r in StagedPins(g.reqs) && !IsStaged(g.reqs[r].st) {
      var t := g.reqs[r].pinOwner.value;
      DoneOwes(t, g.acts[t], r, g.reqs[r]);
    }
  }

  lemma DoneOwes(t: Tid, a: Actor, r: Rid, q: Req)
    requires ReqOk(q) && q.st.Done? && Linked(a, r)
    requires ReqOfActor(a) == Some(r) ==> ActorReq(t, a, q)
    ensures OwesOf(a) == Some(r)
  {
  }

  /** sdo_cancel_refs counts staged requests, unreturned publishers and the owner's speculative add. */
  lemma CancelRefsCount(gs: seq<State>, ls: seq<Label>, i: nat)
    requires IsRun(gs, ls) && i < |gs|
    ensures gs[i].cancelRefs == |Unreturned(gs[i])| + Speculative(gs[i].pc)
  {
    hide IsRun, Inv, Unreturned, StagedPins;
    RunInv(gs, ls, i);
    var g := gs[i];
    forall r | r in g.reqs ensures r in StagedPins(g.reqs) <==> r in Unreturned(g) { PinsAreUnreturned(g, r); }
    SetsOfReqs(g);
    assert StagedPins(g.reqs) == Unreturned(g);
    StageOf(g);
  }

  lemma SetsOfReqs(g: State)
    ensures StagedPins(g.reqs) <= g.reqs.Keys && Unreturned(g) <= g.reqs.Keys
  {
  }

  /** A thread inside cancel that has used, or will still use, the runtime object. */
  predicate RuntimeBound(a: Actor) {
    PinOf(a).Some? || OwesOf(a).Some? || (a.CTail? && a.cb)
  }

  lemma BarrierAt(g: State, t: Tid)
    requires Inv(g) && t in g.acts
    ensures Rank(g.stage) >= 12 ==> PinOf(g.acts[t]).None? && OwesOf(g.acts[t]).None?
    ensures g.stage.Exited? ==> !RuntimeBound(g.acts[t])
  {
    hide Inv, PinOf, OwesOf;
    StageFacts(g, t);
    if PinOf(g.acts[t]).Some? || OwesOf(g.acts[t]).Some? { PinsBeforeBarrier(g, t); }
  }

  lemma OwnerRanks(g: State, l: OwnerLabel)
    requires Typed(g) && OwnerEnabled(g, l) && Rank(g.stage) >= 4
    ensures Rank(OwnerStep(g, l).stage) >= Rank(g.stage)
  {
    hide Typed, Recv, Confirm, CancelNode, Claim, Start, Head, CancelQueued, NextTodo, OwnerComplete, StageStep;
    if l.StageL? { StageRanks(g); }
  }

  lemma StageRanks(g: State)
    requires Rank(g.stage) >= 4
    ensures Rank(StageStep(g).stage) >= Rank(g.stage)
  {
    hide CancelNode;
  }

  lemma AppRanks(g: State, l: AppLabel)
    requires Typed(g) && AppEnabled(g, l)
    ensures AppStep(g, l).stage == g.stage
  {
    hide Typed, PostBegin, PostStep, Reject, CancelLoop, CallbackStep, UnpinStep, PublishStep, TailStep, ExtStep;
  }

  /** The owner never goes back. */
  lemma {:induction false} StagesAdvance(gs: seq<State>, ls: seq<Label>, i: nat, j: nat)
    requires IsRun(gs, ls) && i <= j < |gs| && Rank(gs[i].stage) >= 4
    ensures Rank(gs[j].stage) >= Rank(gs[i].stage)
    decreases j - i
  {
    hide Inv, Typed, AppStep, OwnerStep, AppEnabled, OwnerEnabled, Init;
    if i < j {
      RunInv(gs, ls, i);
      assert StepsTo(gs[i], ls[i], gs[i + 1]);
      match ls[i] {
        case ByApp(a) => AppRanks(gs[i], a);
        case ByTheOwner(o) => OwnerRanks(gs[i], o);
      }
      StagesAdvance(gs, ls, i + 1, j);
    }
  }

  /**
   Teardown barrier: once the owner has exited, no thread inside cancel refers to
   the runtime, then or at any later point; pins are gone already when the
   command queue is deleted.
   */
  lemma TeardownBarrier(gs: seq<State>, ls: seq<Label>, i: nat, j: nat, t: Tid)
    requires IsRun(gs, ls) && i <= j < |gs| && t in gs[j].acts && Rank(gs[i].stage) >= 12
    ensures PinOf(gs[j].acts[t]).None? && OwesOf(gs[j].acts[t]).None?
    ensures gs[i].stage.Exited? ==> !RuntimeBound(gs[j].acts[t])
  {
    hide IsRun, Inv, RuntimeBound, PinOf, OwesOf;
    StagesAdvance(gs, ls, i, j);
    RunInv(gs, ls, j);
    BarrierAt(gs[j], t);
  }

  // ---------------------------------------------------------------- cancel wins

  /** No transfer was or can be issued, and the only terminal status is CANCELED. */
  predicate NeverRan(q: Req) {
    && q.starts == 0
    && (q.st.CancelPending? || q.st.PendingPinned? || q.st.PendingCancelDone? || q.st.Done?)
    && (IsFinal(q.st) ==> q.result.status.Canceled?)
  }

  /**
   cancel returned RT_EOK for a request it found QUEUED or PENDING in post attempt
   ep.  In every continuation the request has not run, as long as that attempt
   stands; for a PENDING one it always stands, and for a QUEUED one it stands for
   good once the post has been admitted.
   */
  lemma CancelWins(gs: seq<State>, ls: seq<Label>, i: nat, j: nat, t: Tid, r: Rid, found: RState, ep: nat)
    requires IsRun(gs, ls) && i <= j < |gs| && t in gs[i].acts && r in gs[i].reqs
    requires gs[i].acts[t] == CRet(r, found, ep, true) && (found.Queued? || found.Pending?)
    ensures r in gs[j].reqs && gs[j].reqs[r].posts >= ep
    ensures found.Pending? ==> gs[j].reqs[r].posts == ep && !gs[j].reqs[r].loc.App?
    ensures gs[j].reqs[r].posts == ep && !gs[j].reqs[r].st.New? ==> NeverRan(gs[j].reqs[r])
  {
    hide IsRun, Inv;
    RunInv(gs, ls, i);
    RunInv(gs, ls, j);
    Facts2(gs[i], t, r);
    RunFollows(gs, ls, i, j, r);
    ReqsFact(gs[j], r);
  }

  /** The attempt stands for good once the request is out of the poster's hands. */
  lemma AdmittedStands(gs: seq<State>, ls: seq<Label>, i: nat, j: nat, r: Rid)
    requires IsRun(gs, ls) && i <= j < |gs| && r in gs[i].reqs && !gs[i].reqs[r].loc.App?
    ensures r in gs[j].reqs && gs[j].reqs[r].posts == gs[i].reqs[r].posts && !gs[j].reqs[r].st.New?
  {
    hide IsRun, Inv;
    RunInv(gs, ls, j);
    RunFollows(gs, ls, i, j, r);
    ReqsFact(gs[j], r);
  }

  /**
   A rejected post, in contrast, voids a cancel that already returned RT_EOK: the
   request is NEW again in the same attempt and any idle thread may post it anew.
   */
  lemma RejectionFrees(gs: seq<State>, ls: seq<Label>, i: nat, t: Tid)
    requires IsRun(gs, ls) && i < |gs| && t in gs[i].acts && gs[i].acts[t].Rejecting?
    ensures Typed(gs[i]) && Enabled(gs[i], ByApp(RejectL(t)))
    ensures var g, r := gs[i], gs[i].acts[t].r; var g' := Reject(g, t);
            && Typed(g') && r in g.reqs && r in g'.reqs
            && g'.reqs[r].st.New? && !g'.reqs[r].won && g'.reqs[r].posts == g.reqs[r].posts
            && forall n | n in g'.nodes :: Enabled(g', ByApp(PostBeginL(t, r, n)))
  {
    hide IsRun, Inv, Typed, ReqOk, OwnerForgot;
    RunInv(gs, ls, i);
    InvTyped(gs[i]);
    Preserves(gs[i], ByApp(RejectL(t)));
    NamedReq(gs[i], t);
    var r := gs[i].acts[t].r;
    Facts2(gs[i], t, r);
    NotRetired(t, gs[i].acts[t], gs[i].reqs[r]);
  }

  lemma NotRetired(t: Tid, a: Actor, q: Req)
    requires ReqOk(q) && a.Rejecting? && ActorReq(t, a, q)
    ensures !q.retired
  {
  }

  lemma WonNeverRan(q: Req)
    requires ReqOk(q) && q.won
    ensures NeverRan(q)
  {
  }

  lemma NewIsApp(q: Req)
    requires ReqOk(q) && q.st.New?
    ensures q.loc.App? && !NeverRan(q)
  {
  }

  /** A claimed cancel survives every step but the one that takes a rejected post back. */
  lemma StaysWon(g: State, l: Label, r: Rid)
    requires Inv(g) && Typed(g) && Enabled(g, l) && r in g.reqs && g.reqs[r].won && !g.reqs[r].st.New? && !Rejects(g, l, r)
    ensures r in Apply(g, l).reqs && Apply(g, l).reqs[r].won && !Apply(g, l).reqs[r].st.New?
  {
    hide Inv, Typed, AppStep, OwnerStep, OwnerEnabled, ReqOk, PostStep;
    StepFollows(g, l, r);
    Preserves(g, l);
    ReqsFact(Apply(g, l), r);
    if Apply(g, l).reqs[r].st.New? { NewIsApp(Apply(g, l).reqs[r]); }
    match l
    case ByTheOwner(o) => OwnerFollows(g, o, r);
    case ByApp(a) =>
      if a.PostL? {
        PostLoc(g, a.t, a.sendOk, r);
        PostIs(g, a);
      } else {
        OthersLoc(g, a, r);
      }
  }

  lemma {:induction false} StaysCanceled(gs: seq<State>, ls: seq<Label>, i: nat, j: nat, r: Rid)
    requires IsRun(gs, ls) && i <= j < |gs| && r in gs[i].reqs && gs[i].reqs[r].won && !gs[i].reqs[r].st.New?
    requires forall k | i <= k < j :: !Rejects(gs[k], ls[k], r)
    ensures r in gs[j].reqs && gs[j].reqs[r].won && !gs[j].reqs[r].st.New?
    decreases j - i
  {
    hide Inv, Typed, Enabled, Apply, Init, Rejects;
    if i < j {
      RunInv(gs, ls, i);
      assert StepsTo(gs[i], ls[i], gs[i + 1]);
      StaysWon(gs[i], ls[i], r);
      StaysCanceled(gs, ls, i + 1, j, r);
    }
  }

  lemma RejectIsNew(g: State, l: Label, r: Rid)
    requires Inv(g) && Typed(g) && Enabled(g, l) && Rejects(g, l, r)
    ensures r in Apply(g, l).reqs && Apply(g, l).reqs[r].st.New?
  {
    hide Inv, Typed;
    NamedReq(g, l.a.t);
  }

  /**
   The exact promise of cancel.  At i a cancel of attempt ep that found QUEUED or
   PENDING has returned RT_EOK and the attempt stands.  Up to n the request has not
   run and can end only as CANCELED, if and only if its post is not rejected up to n.
   */
  lemma CancelIffNotRejected(gs: seq<State>, ls: seq<Label>, i: nat, n: nat, t: Tid, r: Rid, found: RState, ep: nat)
    requires IsRun(gs, ls) && i <= n < |gs| && t in gs[i].acts && r in gs[i].reqs
    requires gs[i].acts[t] == CRet(r, found, ep, true) && (found.Queued? || found.Pending?)
    requires gs[i].reqs[r].posts == ep && !gs[i].reqs[r].st.New?
    ensures (forall j | i <= j <= n :: r in gs[j].reqs && NeverRan(gs[j].reqs[r]))
            <==> (forall k | i <= k < n :: !Rejects(gs[k], ls[k], r))
  {
    hide Inv, Typed, Enabled, Apply, Init, Rejects, NeverRan, ReqOk;
    RunInv(gs, ls, i);
    Facts2(gs[i], t, r);
    if forall k | i <= k < n :: !Rejects(gs[k], ls[k], r) {
      forall j | i <= j <= n ensures r in gs[j].reqs && NeverRan(gs[j].reqs[r]) {
        StaysCanceled(gs, ls, i, j, r);
        RunInv(gs, ls, j);
        ReqsFact(gs[j], r);
        WonNeverRan(gs[j].reqs[r]);
      }
    } else {
      var k :| i <= k < n && Rejects(gs[k], ls[k], r);
      RunInv(gs, ls, k);
      assert StepsTo(gs[k], ls[k], gs[k + 1]);
      RejectIsNew(gs[k], ls[k], r);
      RunInv(gs, ls, k + 1);
      ReqsFact(gs[k + 1], r);
      NewIsApp(gs[k + 1].reqs[r]);
    }
  }

  // ------------------------------------------------------------------- nothing is lost

  lemma NobodyHolds(g: State, r: Rid)
    requires Inv(g) && Rank(g.stage) >= 12 && r in g.reqs && !g.reqs[r].loc.App?
    ensures g.reqs[r].loc.Gone? && !g.reqs[r].pub.ByOwner? && g.reqs[r].pinOwner.None?
  {
    hide ThreadsOk, CountsOk, StageThreads, NodeInv, MqInv, TodoInv, ReqOk;
    assert PlacedIn(g.nodes, g.mq, g.todo, g.pc, r, g.reqs[r]);
    assert r !in StagedPins(g.reqs);
    assert Empty(g.nodes[g.reqs[r].node]);
  }

  lemma GoneIsDone(q: Req)
    requires ReqOk(q) && q.loc.Gone? && !q.pub.ByOwner? && q.pinOwner.None?
    ensures q.st.Done? && q.refs == 0 && q.sends == 1
  {
  }

  /** Once the cancel pins have drained, and from then on, every admitted request is DONE and its completion has been sent. */
  lemma AllCompleted(gs: seq<State>, ls: seq<Label>, i: nat, r: Rid)
    requires IsRun(gs, ls) && i < |gs| && Rank(gs[i].stage) >= 12 && r in gs[i].reqs && !gs[i].reqs[r].loc.App?
    ensures var q := gs[i].reqs[r]; q.st.Done? && q.refs == 0 && q.sends == 1
  {
    hide IsRun, Inv, ReqOk;
    RunInv(gs, ls, i);
    NobodyHolds(gs[i], r);
    ReqsFact(gs[i], r);
    GoneIsDone(gs[i].reqs[r]);
  }

  // ---------------------------------------------------------------------- admission

  /** After the owner's wait for command references no thread is inside the queue section. */
  lemma NoneInside(gs: seq<State>, ls: seq<Label>, i: nat, j: nat, t: Tid)
    requires IsRun(gs, ls) && i <= j < |gs| && t in gs[j].acts && Rank(gs[i].stage) >= 8
    ensures !InQueueSection(gs[j].acts[t])
  {
    hide IsRun, Inv;
    StagesAdvance(gs, ls, i, j);
    RunInv(gs, ls, j);
    StageFacts(gs[j], t);
  }

  /** Commands are consumed in order and exactly once; after the drain all of them have been. */
  lemma Consumed(gs: seq<State>, ls: seq<Label>, i: nat)
    requires IsRun(gs, ls) && i < |gs|
    ensures gs[i].sent == gs[i].received + gs[i].mq && |gs[i].mq| <= gs[i].mqDepth
    ensures Rank(gs[i].stage) >= 10 ==> gs[i].received == gs[i].sent
  {
    hide IsRun, Inv;
    RunInv(gs, ls, i);
    InvOwner(gs[i]);
  }

  // -------------------------------------------------------------- per-node FIFO

  /** One node's queue, as promised: bounded, without repetition, in dispatch order. */
  predicate FifoOk(reqs: map<Rid, Req>, depth: nat, n: Node, w: Work) {
    && |w.pending| <= depth && NoDup(w.pending)
    && (forall i | 0 <= i < |w.pending| ::
          w.pending[i] in reqs && reqs[w.pending[i]].node == n
          && (reqs[w.pending[i]].st.Pending? || reqs[w.pending[i]].st.PendingPinned? || reqs[w.pending[i]].st.CancelPending?))
    && (w.active.Some? ==> w.active.value in reqs && w.active.value !in w.pending
                           && (reqs[w.active.value].st.Active? || reqs[w.active.value].st.ActivePinned?))
    && SubSeq(w.started, w.dispatched)
  }

  lemma NodeFifo(gs: seq<State>, ls: seq<Label>, i: nat, n: Node)
    requires IsRun(gs, ls) && i < |gs| && n in gs[i].nodes
    ensures FifoOk(gs[i].reqs, gs[i].sdoDepth, n, gs[i].nodes[n])
  {
    hide IsRun, Inv, SubSeq, ReqOk;
    RunInv(gs, ls, i);
    var g := gs[i];
    ActiveFacts(g, n);
    var w := g.nodes[n];
    StartedOnly(g.reqs, g.sdoDepth, n, w);
    assert w.started + [] == w.started;
    forall k | 0 <= k < |w.pending|
      ensures g.reqs[w.pending[k]].st.Pending? || g.reqs[w.pending[k]].st.PendingPinned? || g.reqs[w.pending[k]].st.CancelPending?
    {
      ReqsFact(g, w.pending[k]);
      LocFacts(g.reqs[w.pending[k]]);
    }
    if w.active.Some? {
      ReqsFact(g, w.active.value);
      LocFacts(g.reqs[w.active.value]);
    }
  }

  /** At most one request of a node has a transfer under way, and a transfer starts only while there is none. */
  lemma OneActive(gs: seq<State>, ls: seq<Label>, i: nat, r: Rid, x: Rid)
    requires IsRun(gs, ls) && i < |gs| && r in gs[i].reqs && x in gs[i].reqs
    ensures gs[i].reqs[r].loc.IsActive? && gs[i].reqs[x].loc.IsActive? && gs[i].reqs[r].node == gs[i].reqs[x].node ==> r == x
    ensures gs[i].pc == OStart(r) && gs[i].reqs[r].node == gs[i].reqs[x].node ==> !gs[i].reqs[x].loc.IsActive?
  {
    hide IsRun, Inv;
    RunInv(gs, ls, i);
    ActiveSlot(gs[i], r);
    ActiveSlot(gs[i], x);
  }

  lemma ActiveSlot(g: State, r: Rid)
    requires Inv(g) && r in g.reqs
    ensures g.reqs[r].node in g.nodes
    ensures g.reqs[r].loc.IsActive? ==> g.nodes[g.reqs[r].node].active == Some(r)
    ensures g.pc == OStart(r) ==> g.nodes[g.reqs[r].node].active.None?
  {
    hide ThreadsOk, CountsOk, StageThreads, StageOwner, StageFlags, NodeInv, MqInv, TodoInv, ReqsOk;
    assert PlacedIn(g.nodes, g.mq, g.todo, g.pc, r, g.reqs[r]);
  }

  lemma LocFacts(q: Req)
    requires ReqOk(q)
    ensures q.loc.InPending? ==> q.st.Pending? || q.st.PendingPinned? || q.st.CancelPending?
    ensures q.loc.IsActive? ==> q.st.Active? || q.st.ActivePinned?
  {
  }
}
