/** Runs of the request protocol: every reachable state satisfies the invariant. */
module SdoRuns {
  import opened Options
  import opened SdoModel
  import opened SdoInvariant
  import opened SdoFrame
  import opened SdoAppSteps
  import opened SdoOwnerStages
  import opened SdoOwnerSteps
  import opened SdoOwnerLists
  import opened SdoOwnerClaim

  /** Any step of any thread keeps the invariant. */
  lemma Preserves(g: State, l: Label)
    requires Inv(g) && Typed(g) && Enabled(g, l)
    ensures Inv(Apply(g, l)) && Typed(Apply(g, l))
  {
    hide Inv, Typed, AppStep, OwnerStep, OwnerEnabled;
    match l {
      case ByApp(a) => AppPreserves(g, a);
      case ByTheOwner(o) => OwnerPreserves(g, o);
    }
    InvTyped(Apply(g, l));
  }

  /** gs[0], ls[0], gs[1], ... is an interleaving of enabled steps from an initial state. */
  predicate IsRun(gs: seq<State>, ls: seq<Label>) {
    && |gs| == |ls| + 1 && Init(gs[0])
    && forall i | 0 <= i < |ls| :: StepsTo(gs[i], ls[i], gs[i + 1])
  }

  predicate StepsTo(g: State, l: Label, g': State) { Typed(g) && Enabled(g, l) && g' == Apply(g, l) }

  lemma {:induction false} RunInv(gs: seq<State>, ls: seq<Label>, i: nat)
    requires IsRun(gs, ls) && i < |gs|
    ensures Inv(gs[i])
  {
    hide Inv, Typed, Enabled, Apply, Init;
    if i == 0 {
      InitInv(gs[0]);
    } else {
      RunInv(gs, ls, i - 1);
      assert StepsTo(gs[i - 1], ls[i - 1], gs[i]);
      Preserves(gs[i - 1], ls[i - 1]);
    }
  }

  // --------------------------------------------------- how one record may change

  /** What every step guarantees about a request record, whoever takes the step. */
  predicate Evolves(q: Req, q': Req) {
    && (IsFinal(q.st) ==> IsFinal(q'.st) && q'.result == q.result)
    && (q.st.Done? ==> q'.st.Done?)
    && q.sends <= q'.sends && q.starts <= q'.starts && q.posts <= q'.posts
    && (q'.posts == q.posts ==> q'.node == q.node)
    && (!q.loc.App? ==> !q'.loc.App? && q'.posts == q.posts && (q.won ==> q'.won))
    && (q'.posts == q.posts ==> q'.st.New? || (!q.st.New? && (q.won ==> q'.won)))
    && (q.freed ==> q'.freed && q'.st == q.st && q'.refs == q.refs && q'.result == q.result
                    && q'.sends == q.sends && q'.starts == q.starts && q'.node == q.node)
  }

  lemma EvolvesSame(q: Req)
    ensures Evolves(q, q)
  {
  }

  lemma EvolvesOn(q: Req, q': Req, q'': Req)
    requires Evolves(q, q') && Evolves(q', q'')
    ensures Evolves(q, q'')
  {
  }

  lemma UnpinEvolves(t: Tid, q: Req, a: Actor)
    requires ReqOk(q) && a.CUnpin? && ActorReq(t, a, q) && q.st == Pinned(a.c.k)
    ensures Evolves(q, Unpinned(q, a.c, a.ok))
  {
  }

  lemma PublishEvolves(t: Tid, q: Req, a: Actor)
    requires ReqOk(q) && (a.CPub? || a.CSub?) && ActorReq(t, a, q)
    ensures Evolves(q, PublishReq(t, a, q))
  {
  }

  lemma PostEvolves(t: Tid, q: Req, a: Actor)
    requires ReqOk(q) && a.Posting? && a.ppc.Send? && !a.job.JOther? && ActorReq(t, a, q)
    ensures Evolves(q, Accepted(q, a.job))
  {
  }

  lemma RejectEvolves(t: Tid, q: Req, a: Actor)
    requires ReqOk(q) && a.Rejecting? && ActorReq(t, a, q)
    ensures Evolves(q, q.(st := New, poster := None, won := false))
  {
  }

  lemma SmallEvolves(q: Req, t: Tid, n: Node)
    requires ReqOk(q)
    ensures q.st.New? && !q.retired ==> Evolves(q, Posted(q, t, n))
    ensures !q.retired ==> Evolves(q, q.(retired := true))
    ensures Evolves(q, q.(freed := true))
  {
  }

  /** Request r after a step. */
  predicate Follows(g: State, g': State, r: Rid)
    requires r in g.reqs
  {
    r in g'.reqs && Evolves(g.reqs[r], g'.reqs[r])
  }

  lemma PostFollows(g: State, t: Tid, sendOk: bool, r: Rid)
    requires Inv(g) && Typed(g) && t in g.acts && g.acts[t].Posting? && r in g.reqs
    ensures Follows(g, PostStep(g, t, sendOk), r)
  {
    hide Inv, Typed, Evolves, Accepted, ReqOk, ActorReq, PostNext;
    var a, q := g.acts[t], g.reqs[r];
    NamedReq(g, t);
    EvolvesSame(q);
    if ReqOfActor(a) == Some(r) && a.ppc.Send? && !a.job.JOther? {
      Facts2(g, t, r);
      PostEvolves(t, q, a);
    }
  }

  lemma UnpinFollows(g: State, t: Tid, r: Rid)
    requires Inv(g) && Typed(g) && t in g.acts && g.acts[t].CUnpin? && r in g.reqs
    ensures Follows(g, UnpinStep(g, t), r)
  {
    hide Inv, Typed, Evolves, Unpinned, ReqOk, ActorReq;
    var a, q := g.acts[t], g.reqs[r];
    NamedReq(g, t);
    EvolvesSame(q);
    if ReqOfActor(a) == Some(r) && q.st == Pinned(a.c.k) {
      Facts2(g, t, r);
      UnpinEvolves(t, q, a);
    }
  }

  lemma PublishFollows(g: State, t: Tid, r: Rid)
    requires Inv(g) && Typed(g) && t in g.acts && (g.acts[t].CPub? || g.acts[t].CSub?) && r in g.reqs
    ensures Follows(g, PublishStep(g, t), r)
  {
    hide Inv, Typed, Evolves, PublishReq, PublishNext, ReqOk, ActorReq;
    var a, q := g.acts[t], g.reqs[r];
    NamedReq(g, t);
    EvolvesSame(q);
    if ReqOfActor(a) == Some(r) {
      Facts2(g, t, r);
      PublishEvolves(t, q, a);
    }
  }

  lemma RejectFollows(g: State, t: Tid, r: Rid)
    requires Inv(g) && Typed(g) && t in g.acts && g.acts[t].Rejecting? && r in g.reqs
    ensures Follows(g, Reject(g, t), r)
  {
    hide Inv, Typed, Evolves, ReqOk, ActorReq;
    var a, q := g.acts[t], g.reqs[r];
    NamedReq(g, t);
    EvolvesSame(q);
    if ReqOfActor(a) == Some(r) {
      Facts2(g, t, r);
      RejectEvolves(t, q, a);
    }
  }

  lemma CancelEvolves(t: Tid, seen: RState, q: Req)
    requires ReqOk(q)
    ensures Evolves(q, CancelReq(t, seen, q))
  {
  }

  /** A step that updates only record x. */
  lemma FollowsOne(g: State, g': State, x: Rid, q: Req, r: Rid)
    requires r in g.reqs && x in g.reqs && g'.reqs == g.reqs[x := q] && Evolves(g.reqs[x], q)
    ensures Follows(g, g', r)
  {
    EvolvesSame(g.reqs[r]);
  }

  lemma CancelFollows(g: State, t: Tid, r: Rid)
    requires Inv(g) && Typed(g) && t in g.acts && g.acts[t].CLoop? && r in g.reqs
    ensures Follows(g, CancelLoop(g, t), r)
  {
    hide Inv, Typed, Follows, Evolves, ReqOk, CancelNext, CancelReq;
    NamedReq(g, t);
    var x, seen := g.acts[t].r, g.acts[t].seen;
    ReqsFact(g, x);
    CancelEvolves(t, seen, g.reqs[x]);
    FollowsOne(g, CancelLoop(g, t), x, CancelReq(t, seen, g.reqs[x]), r);
  }

  lemma OtherFollows(g: State, l: AppLabel, r: Rid)
    requires Inv(g) && Typed(g) && AppEnabled(g, l) && r in g.reqs
    requires !l.PostL? && !l.RejectL? && !l.CancelLoopL? && !l.UnpinL? && !l.PublishL?
    ensures Follows(g, AppStep(g, l), r)
  {
    hide Inv, Typed, Evolves, ReqOk, Posted, CallbackNext, TailNext, ExtNext;
    var a, q := g.acts[l.t], g.reqs[r];
    NamedReq(g, l.t);
    EvolvesSame(q);
    ReqsFact(g, r);
    SmallEvolves(q, l.t, if l.PostBeginL? then l.n else 0);
  }

  lemma AppFollows(g: State, l: AppLabel, r: Rid)
    requires Inv(g) && Typed(g) && AppEnabled(g, l) && r in g.reqs
    ensures Follows(g, AppStep(g, l), r)
  {
    hide Inv, Typed, Follows, PostBegin, PostStep, Reject, CancelLoop, CallbackStep, UnpinStep, PublishStep, TailStep, ExtStep;
    match l
    case PostL(t, sendOk) => PostFollows(g, t, sendOk, r);
    case RejectL(t) => RejectFollows(g, t, r);
    case CancelLoopL(t) => CancelFollows(g, t, r);
    case UnpinL(t) => UnpinFollows(g, t, r);
    case PublishL(t) => PublishFollows(g, t, r);
    case _ => OtherFollows(g, l, r);
  }

  // ------------------------------------------------------------- owner's changes

  /** Request r after a step of the owner, who leaves requests that are not handed over alone. */
  predicate Filed(g: State, g': State, r: Rid)
    requires r in g.reqs
  {
    Follows(g, g', r) && (g.reqs[r].loc.App? ==> g'.reqs[r] == g.reqs[r])
  }

  lemma CompleteEvolves(pc: OPc, r: Rid, q: Req)
    requires InComplete(pc) && ReqOk(q) && ReqOfPc(pc) == Some(r) && PcReq(pc, q)
    ensures Evolves(q, CompleteReq(pc, q)) && !q.loc.App?
  {
  }

  lemma CompleteFollows(g: State, r: Rid)
    requires Inv(g) && Typed(g) && InComplete(g.pc) && r in g.reqs
    ensures Filed(g, OwnerComplete(g), r)
  {
    hide Inv, Typed, Evolves, CompleteReq, CompletePc, CompleteDelta, ReqOk, PcReq;
    EvolvesSame(g.reqs[r]);
    PcNamed(g);
    if ReqOfPc(g.pc) == Some(r) {
      HandFacts(g, r);
      CompleteEvolves(g.pc, r, g.reqs[r]);
    }
  }

  /** A request the owner holds or lists changes owner-side fields only. */
  lemma FiledEvolves(q: Req, q': Req)
    requires ReqOk(q) && !q.loc.App? && !q.loc.Gone?
    requires q' == q.(st := q'.st, loc := q'.loc, cancelRequested := q'.cancelRequested, starts := q'.starts)
    requires q.starts <= q'.starts && !q'.loc.App?
    ensures Evolves(q, q')
  {
  }

  /** An owner step that updates only record x. */
  lemma FiledOne(g: State, g': State, x: Rid, q: Req, r: Rid)
    requires r in g.reqs && x in g.reqs && g'.reqs == g.reqs[x := q] && Evolves(g.reqs[x], q)
    requires g.reqs[x].loc.App? ==> q == g.reqs[x]
    ensures Filed(g, g', r)
  {
  }

  lemma PopFollows(g: State, avail: bool, r: Rid)
    requires Inv(g) && Typed(g) && g.mq != [] && g.mq[0].SdoCmd? && r in g.reqs
    ensures Filed(g, Recv(g, avail), r)
  {
    hide Inv, Typed, Filed, Evolves, ReqOk, MqTyped, MqInv, CancelDispatch;
    InvMq(g);
    MqHead(g.reqs, g.mq);
    var x := g.mq[0].r;
    ReqsFact(g, x);
    FiledEvolves(g.reqs[x], g.reqs[x].(loc := OwnerHand));
    FiledOne(g, Recv(g, avail), x, g.reqs[x].(loc := OwnerHand), r);
  }

  /** The record that a cancel command touches, if any. */
  lemma DispatchReqs(g: State, n: Node, x: Rid)
    requires n in g.nodes && WorkTyped(g.reqs, g.nodes[n])
    ensures var w, reqs := g.nodes[n], CancelDispatch(g, n, x).reqs;
            if w.active == Some(x) || x in w.pending
            then x in g.reqs && reqs == g.reqs[x := g.reqs[x].(loc := OwnerHand, cancelRequested := true)]
            else reqs == g.reqs
  {
  }

  lemma DispatchFollows(g: State, n: Node, x: Rid, r: Rid)
    requires Inv(g) && n in g.nodes && WorkTyped(g.reqs, g.nodes[n]) && r in g.reqs
    ensures Filed(g, CancelDispatch(g, n, x), r)
  {
    hide Inv, Evolves, ReqOk, WorkOk, WorkTyped, CancelDispatch;
    EvolvesSame(g.reqs[r]);
    ActiveFacts(g, n);
    DispatchReqs(g, n, x);
    if x == r && (g.nodes[n].active == Some(r) || r in g.nodes[n].pending) {
      ReqsFact(g, r);
      FiledEvolves(g.reqs[r], g.reqs[r].(loc := OwnerHand, cancelRequested := true));
    }
  }

  lemma RecvFollows(g: State, avail: bool, r: Rid)
    requires Inv(g) && Typed(g) && OwnerEnabled(g, RecvL(avail)) && r in g.reqs
    ensures Filed(g, Recv(g, avail), r)
  {
    hide Inv, Evolves, CancelDispatch;
    EvolvesSame(g.reqs[r]);
    if g.mq[0].SdoCmd? {
      PopFollows(g, avail, r);
    } else if g.mq[0].CancelCmd? && g.stage.Run? {
      PopOther(g);
      DispatchFollows(g.(mq := g.mq[1..], received := g.received + [g.mq[0]]), g.mq[0].node, g.mq[0].r, r);
    }
  }

  lemma ConfirmFollows(g: State, n: Node, ac: nat, copied: bool, r: Rid)
    requires Inv(g) && Typed(g) && OwnerEnabled(g, ConfirmL(n, ac, copied)) && r in g.reqs
    ensures Filed(g, Confirm(g, n, ac, copied), r)
  {
    hide Inv, Typed, Evolves, ReqOk, WorkOk;
    EvolvesSame(g.reqs[r]);
    ActiveFacts(g, n);
    if g.nodes[n].active == Some(r) {
      ReqsFact(g, r);
      FiledEvolves(g.reqs[r], g.reqs[r].(loc := OwnerHand));
    }
  }

  /** The record that a pass over the FIFO head touches, if any. */
  lemma HeadReqs(g: State)
    requires Typed(g) && (g.pc.OHead? || g.pc.OHeadCas?) && g.pc.n in g.nodes && g.nodes[g.pc.n].pending != []
    requires g.nodes[g.pc.n].pending[0] in g.reqs
    ensures var x := g.nodes[g.pc.n].pending[0];
            var q := g.reqs[x];
            Head(g).reqs == if g.pc.OHead? && q.st.CancelPending? then g.reqs[x := q.(loc := OwnerHand, cancelRequested := true)]
                            else if g.pc.OHeadCas? && q.st.Pending? then g.reqs[x := q.(loc := OwnerHand, st := Active)]
                            else g.reqs
  {
    hide Typed;
  }

  lemma HeadFollows(g: State, r: Rid)
    requires Inv(g) && Typed(g) && (g.pc.OHead? || g.pc.OHeadCas?) && g.nodes[g.pc.n].pending != [] && r in g.reqs
    ensures Filed(g, Head(g), r)
  {
    hide Inv, Typed, Evolves, ReqOk, WorkOk, Head;
    HeadFacts(g);
    ActiveFacts(g, g.pc.n);
    HeadReqs(g);
    EvolvesSame(g.reqs[r]);
    if g.nodes[g.pc.n].pending[0] == r {
      var q := g.reqs[r];
      ReqsFact(g, r);
      FiledEvolves(q, q.(loc := OwnerHand, cancelRequested := true));
      FiledEvolves(q, q.(loc := OwnerHand, st := Active));
    }
  }

  lemma NextFollows(g: State, r: Rid)
    requires Inv(g) && Typed(g) && g.todo != [] && r in g.reqs
    ensures Filed(g, NextTodo(g), r)
  {
    hide Inv, Filed, Evolves, ReqOk, TodoOk;
    InvTodo(g);
    TodoHead(g.reqs, g.todo);
    var x := g.todo[0];
    ReqsFact(g, x);
    FiledEvolves(g.reqs[x], g.reqs[x].(loc := OwnerHand, cancelRequested := true));
    FiledOne(g, NextTodo(g), x, NextTodo(g).reqs[x], r);
  }

  /** A record whose owner-side fields alone may differ. */
  predicate SameBut(q: Req, q': Req) {
    q' == q.(st := q'.st, loc := q'.loc, cancelRequested := q'.cancelRequested) && !q'.loc.App?
  }

  lemma ClaimSame(v: Verdict, pc: OPc, q: Req)
    requires q.loc.OwnerHand?
    ensures SameBut(q, ClaimReq(v, q)) && SameBut(q, QueuedReq(pc, q))
  {
  }

  lemma ClaimFollows(g: State, r: Rid)
    requires Inv(g) && Typed(g) && g.pc.ODispatch? && r in g.reqs
    ensures Filed(g, Claim(g), r)
  {
    hide Inv, Typed, Filed, Evolves, ReqOk, PcReq, Judge, ClaimReq, ClaimWork, ClaimPc;
    var x := g.pc.r;
    Holding(g, x);
    var v := Judge(g.pc.avail, g.nodes[g.reqs[x].node], g.sdoDepth);
    ClaimSame(v, g.pc, g.reqs[x]);
    FiledEvolves(g.reqs[x], ClaimReq(v, g.reqs[x]));
    FiledOne(g, Claim(g), x, ClaimReq(v, g.reqs[x]), r);
  }

  lemma StartFollows(g: State, outcome: StartOutcome, r: Rid)
    requires Inv(g) && Typed(g) && g.pc.OStart? && r in g.reqs
    ensures Filed(g, Start(g, outcome), r)
  {
    hide Inv, Typed, Evolves, ReqOk, PcReq;
    EvolvesSame(g.reqs[r]);
    Holding(g, g.pc.r);
    if g.pc.r == r { FiledEvolves(g.reqs[r], g.reqs[r].(loc := IsActive, starts := g.reqs[r].starts + 1)); }
  }

  lemma QueuedFollows(g: State, r: Rid)
    requires Inv(g) && Typed(g) && (g.pc.OQueuedLoad? || g.pc.OQueuedCas?) && r in g.reqs
    ensures Filed(g, CancelQueued(g), r)
  {
    hide Inv, Typed, Filed, Evolves, ReqOk, PcReq, QueuedReq, QueuedPc;
    var x := g.pc.r;
    Holding(g, x);
    ClaimSame(Refuse, g.pc, g.reqs[x]);
    FiledEvolves(g.reqs[x], QueuedReq(g.pc, g.reqs[x]));
    FiledOne(g, CancelQueued(g), x, QueuedReq(g.pc, g.reqs[x]), r);
  }

  lemma DetachFollows(g: State, n: Node, r: Rid)
    requires Inv(g) && n in g.nodes && r in g.reqs
    ensures Filed(g, CancelNode(g, n), r)
  {
    hide Inv, Evolves, ReqOk, WorkOk;
    EvolvesSame(g.reqs[r]);
    ReqsFact(g, r);
    ActiveFacts(g, n);
    WorkFiled(g.reqs, g.sdoDepth, n, g.nodes[n]);
    var q' := CancelNode(g, n).reqs[r];
    if q' != g.reqs[r] { FiledEvolves(g.reqs[r], q'); }
  }

  lemma StageFollows(g: State, r: Rid)
    requires Inv(g) && Typed(g) && OwnerFree(g) && r in g.reqs
    ensures Filed(g, StageStep(g), r)
  {
    hide Inv, Typed, Evolves, CancelNode, NextStage;
    EvolvesSame(g.reqs[r]);
    if g.stage.CancelAll? && g.stage.next in g.nodes { DetachFollows(g, g.stage.next, r); }
  }

  lemma OwnerFollows(g: State, l: OwnerLabel, r: Rid)
    requires Inv(g) && Typed(g) && OwnerEnabled(g, l) && r in g.reqs
    ensures Filed(g, OwnerStep(g, l), r)
  {
    hide Inv, Typed, Evolves, Recv, Confirm, CancelNode, Claim, Start, Head, CancelQueued, NextTodo, OwnerComplete, StageStep;
    EvolvesSame(g.reqs[r]);
    match l
    case RecvL(avail) => RecvFollows(g, avail, r);
    case ConfirmL(n, ac, copied) => ConfirmFollows(g, n, ac, copied, r);
    case CancelNodeL(n) => DetachFollows(g, n, r);
    case ReapL(n) =>
    case ClaimL => ClaimFollows(g, r);
    case StartL(outcome) => StartFollows(g, outcome, r);
    case HeadL => HeadFollows(g, r);
    case QueuedL => QueuedFollows(g, r);
    case NextL => NextFollows(g, r);
    case CompleteL => CompleteFollows(g, r);
    case StageL => StageFollows(g, r);
  }

  /** One step, any thread, any request. */
  lemma StepFollows(g: State, l: Label, r: Rid)
    requires Inv(g) && Typed(g) && Enabled(g, l) && r in g.reqs
    ensures Follows(g, Apply(g, l), r)
  {
    hide Inv, Typed, Evolves, AppStep, OwnerStep;
    match l
    case ByApp(a) => AppFollows(g, a, r);
    case ByTheOwner(o) => OwnerFollows(g, o, r);
  }

  /** From any state of a run to any later one. */
  lemma {:induction false} RunFollows(gs: seq<State>, ls: seq<Label>, i: nat, j: nat, r: Rid)
    requires IsRun(gs, ls) && i <= j < |gs| && r in gs[i].reqs
    ensures Follows(gs[i], gs[j], r)
    decreases j - i
  {
    hide Inv, Typed, Enabled, Apply, Evolves, Init;
    if i == j {
      EvolvesSame(gs[i].reqs[r]);
    } else {
      RunInv(gs, ls, i);
      assert StepsTo(gs[i], ls[i], gs[i + 1]);
      StepFollows(gs[i], ls[i], r);
      RunFollows(gs, ls, i + 1, j, r);
      EvolvesOn(gs[i].reqs[r], gs[i + 1].reqs[r], gs[j].reqs[r]);
    }
  }
}
