/** Commands: every successful post puts its command into the queue once, and every queued command is received once. */
module SdoAdmission {
  import opened Options
  import opened SdoModel
  import opened SdoInvariant
  import opened SdoFrame
  import opened SdoAppSteps
  import opened SdoOwnerSteps
  import opened SdoRuns

  // ------------------------------------------------------------------ the queue send

  /** A thread passes the queue send with success. */
  predicate Passes(g: State, l: Label, t: Tid) {
    && l.ByApp? && l.a.PostL? && l.a.t == t && t in g.acts && g.acts[t].Posting? && g.acts[t].ppc.Send?
    && g.mqOpen && l.a.sendOk && |g.mq| < g.mqDepth
  }

  /** The thread's post returns success. */
  predicate Returns(g: State, l: Label, t: Tid) {
    l.ByApp? && l.a.PostL? && l.a.t == t && t in g.acts && g.acts[t].Posting? && g.acts[t].ppc == Fin(true)
  }

  /** The command of a thread inside command_post. */
  function CmdOf(reqs: map<Rid, Req>, a: Actor): Option<Cmd> {
    match a
    case Posting(JSdo(r), _) => Some(SdoCmd(r))
    case Posting(JCancel(c), _) => if c.r in reqs then Some(CancelCmd(reqs[c.r].node, c.r)) else None
    case Posting(JOther(k), _) => Some(OtherCmd(k))
    case _ => None
  }

  /** What the history of sent commands gains in a step. */
  function Gained(g: State, l: Label): seq<Cmd> {
    if l.ByApp? && Passes(g, l, l.a.t) && CmdOf(g.reqs, g.acts[l.a.t]).Some? then [CmdOf(g.reqs, g.acts[l.a.t]).value] else []
  }

  lemma PostSends(g: State, t: Tid, sendOk: bool)
    requires Typed(g) && AppEnabled(g, PostL(t, sendOk))
    ensures PostStep(g, t, sendOk).sent == g.sent + Gained(g, ByApp(PostL(t, sendOk)))
  {
    hide Typed, PostNext;
    NamedReq(g, t);
  }

  lemma StepSends(g: State, l: Label)
    requires Typed(g) && Enabled(g, l)
    ensures Apply(g, l).sent == g.sent + Gained(g, l)
  {
    hide Typed, PostStep, PostBegin, Reject, CancelLoop, CallbackStep, UnpinStep, PublishStep, TailStep, ExtStep, OwnerStep;
    match l
    case ByApp(a) =>
      if a.PostL? { PostSends(g, a.t, a.sendOk); } else { OthersSendNone(g, a); }
    case ByTheOwner(o) => OwnerSendsNone(g, o);
  }

  lemma OthersSendNone(g: State, l: AppLabel)
    requires Typed(g) && AppEnabled(g, l) && !l.PostL?
    ensures AppStep(g, l).sent == g.sent
  {
    hide Typed, PostBegin, Reject, CancelLoop, CallbackStep, UnpinStep, PublishStep, TailStep, ExtStep;
  }

  lemma OwnerSendsNone(g: State, l: OwnerLabel)
    requires Typed(g) && OwnerEnabled(g, l)
    ensures OwnerStep(g, l).sent == g.sent && OwnerStep(g, l).acts == g.acts
  {
    hide Typed, Recv, Confirm, Claim, Start, Head, CancelQueued, NextTodo, OwnerComplete;
  }

  // --------------------------------------------------- a request is handed over once

  /** A step leaves the place and the attempt of a request alone and does not make it NEW. */
  predicate Kept(q: Req, q': Req) { q'.loc == q.loc && q'.posts == q.posts && (q'.st.New? ==> q.st.New?) }

  /** The step posts request r anew, or takes a rejected post of it back. */
  predicate Renews(g: State, l: Label, r: Rid) {
    l.ByApp? && ((l.a.PostBeginL? && l.a.r == r) || Rejects(g, l, r))
  }

  predicate Rejects(g: State, l: Label, r: Rid) { l.ByApp? && l.a.RejectL? && l.a.t in g.acts && g.acts[l.a.t] == Rejecting(r) }

  /** The step hands over request r. */
  predicate HandsOver(g: State, l: Label, r: Rid) { l.ByApp? && Passes(g, l, l.a.t) && g.acts[l.a.t].job == JSdo(r) }

  lemma PostLoc(g: State, t: Tid, sendOk: bool, r: Rid)
    requires Typed(g) && AppEnabled(g, PostL(t, sendOk)) && r in g.reqs
    ensures var g' := PostStep(g, t, sendOk);
            && r in g'.reqs
            && g'.reqs[r].loc == (if HandsOver(g, ByApp(PostL(t, sendOk)), r) then InQueue else g.reqs[r].loc)
            && g'.reqs[r].posts == g.reqs[r].posts && g'.reqs[r].st == g.reqs[r].st
  {
    hide Typed, PostNext, JobCmd;
    NamedReq(g, t);
  }

  lemma PublishLoc(t: Tid, a: Actor, q: Req)
    requires a.CPub? || a.CSub?
    ensures Kept(q, PublishReq(t, a, q))
  {
  }

  lemma CancelLoc(t: Tid, seen: RState, q: Req)
    ensures Kept(q, CancelReq(t, seen, q))
  {
  }

  lemma PublishLocStep(g: State, t: Tid, r: Rid)
    requires Typed(g) && t in g.acts && (g.acts[t].CPub? || g.acts[t].CSub?) && r in g.reqs
    ensures r in PublishStep(g, t).reqs && Kept(g.reqs[r], PublishStep(g, t).reqs[r])
  {
    hide Typed, PublishReq, PublishNext;
    NamedReq(g, t);
    PublishLoc(t, g.acts[t], g.reqs[g.acts[t].c.r]);
  }

  lemma CancelLocStep(g: State, t: Tid, r: Rid)
    requires Typed(g) && t in g.acts && g.acts[t].CLoop? && r in g.reqs
    ensures r in CancelLoop(g, t).reqs && Kept(g.reqs[r], CancelLoop(g, t).reqs[r])
  {
    hide Typed, CancelReq, CancelNext;
    NamedReq(g, t);
    CancelLoc(t, g.acts[t].seen, g.reqs[g.acts[t].r]);
  }

  lemma UnpinLocStep(g: State, t: Tid, r: Rid)
    requires Typed(g) && t in g.acts && g.acts[t].CUnpin? && r in g.reqs
    ensures r in UnpinStep(g, t).reqs && Kept(g.reqs[r], UnpinStep(g, t).reqs[r])
  {
    hide Typed;
    NamedReq(g, t);
  }

  lemma RestLoc(g: State, l: AppLabel, r: Rid)
    requires Typed(g) && AppEnabled(g, l) && r in g.reqs
    requires !l.PostL? && !l.PublishL? && !l.CancelLoopL? && !l.UnpinL?
    ensures r in AppStep(g, l).reqs && AppStep(g, l).reqs[r].loc == g.reqs[r].loc
    ensures !Renews(g, ByApp(l), r) ==> Kept(g.reqs[r], AppStep(g, l).reqs[r])
  {
    hide Typed, CallbackNext, TailNext, ExtNext;
    NamedReq(g, l.t);
  }

  lemma OthersLoc(g: State, l: AppLabel, r: Rid)
    requires Typed(g) && AppEnabled(g, l) && !l.PostL? && r in g.reqs
    ensures r in AppStep(g, l).reqs && AppStep(g, l).reqs[r].loc == g.reqs[r].loc
    ensures !Renews(g, ByApp(l), r) ==> Kept(g.reqs[r], AppStep(g, l).reqs[r])
  {
    hide Typed, PublishStep, CancelLoop, UnpinStep;
    match l
    case PublishL(t) => PublishLocStep(g, t, r);
    case CancelLoopL(t) => CancelLocStep(g, t, r);
    case UnpinL(t) => UnpinLocStep(g, t, r);
    case _ => RestLoc(g, l, r);
  }

  /** A request leaves its poster's hands when its command is queued, and only then. */
  lemma LocStep(g: State, l: Label, r: Rid)
    requires Inv(g) && Typed(g) && Enabled(g, l) && r in g.reqs
    ensures r in Apply(g, l).reqs && (Apply(g, l).reqs[r].loc.App? <==> g.reqs[r].loc.App? && !HandsOver(g, l, r))
  {
    hide Inv, Typed, AppStep, AppEnabled, OwnerStep, OwnerEnabled, Evolves, Passes, PostStep;
    match l
    case ByApp(a) => if a.PostL? { PostLocApp(g, a, r); } else { OthersLoc(g, a, r); NotPassing(g, a); }
    case ByTheOwner(o) => OwnerFollows(g, o, r); NotBack(g.reqs[r], OwnerStep(g, o).reqs[r]);
  }

  lemma NotPassing(g: State, l: AppLabel)
    requires !l.PostL?
    ensures !Passes(g, ByApp(l), l.t)
  {
  }

  lemma NotBack(q: Req, q': Req)
    requires Evolves(q, q')
    ensures !q.loc.App? ==> !q'.loc.App?
  {
  }

  lemma PostLocApp(g: State, l: AppLabel, r: Rid)
    requires Inv(g) && Typed(g) && AppEnabled(g, l) && l.PostL? && r in g.reqs
    ensures r in AppStep(g, l).reqs
    ensures AppStep(g, l).reqs[r].loc.App? <==> g.reqs[r].loc.App? && !HandsOver(g, ByApp(l), r)
  {
    hide Inv, Typed, Passes, PostStep;
    PostLoc(g, l.t, l.sendOk, r);
  }

  /** The poster has not handed over before. */
  lemma HandsOnce(g: State, l: Label, r: Rid)
    requires Inv(g) && HandsOver(g, l, r)
    ensures r in g.reqs && g.reqs[r].loc.App?
  {
    hide Inv, ReqOk, ActOk;
    var t := l.a.t;
    InvTyped(g);
    NamedReq(g, t);
    Facts2(g, t, r);
    PosterHas(g.reqs[r]);
  }

  lemma PosterHas(q: Req)
    requires ReqOk(q) && q.poster.Some?
    ensures q.loc.App?
  {
  }

  /** Occurrences of the command of request r. */
  function Times(s: seq<Cmd>, r: Rid): nat { multiset(s)[SdoCmd(r)] }

  lemma TimesGained(g: State, l: Label, r: Rid)
    ensures Times(g.sent + Gained(g, l), r) == Times(g.sent, r) + if HandsOver(g, l, r) then 1 else 0
  {
  }

  /** Over every run a request's command has been queued once if its post was admitted, and never otherwise. */
  lemma {:induction false} QueuedOnce(gs: seq<State>, ls: seq<Label>, i: nat, r: Rid)
    requires IsRun(gs, ls) && i < |gs| && r in gs[0].reqs
    ensures r in gs[i].reqs && Times(gs[i].sent, r) == if gs[i].reqs[r].loc.App? then 0 else 1
  {
    hide Inv, Typed, Enabled, Apply, HandsOver, Gained, Times;
    if i == 0 {
      NoneSent(gs[0], r);
    } else {
      QueuedOnce(gs, ls, i - 1, r);
      RunInv(gs, ls, i - 1);
      var g, l := gs[i - 1], ls[i - 1];
      assert StepsTo(g, l, gs[i]);
      StepSends(g, l);
      LocStep(g, l, r);
      TimesGained(g, l, r);
      if HandsOver(g, l, r) { HandsOnce(g, l, r); }
    }
  }

  lemma NoneSent(g: State, r: Rid)
    requires Init(g) && r in g.reqs
    ensures Times(g.sent, r) == 0 && g.reqs[r].loc.App?
  {
  }

  // ------------------------------------------------- every success is one command

  /** The thread has put command c into the queue and has not returned yet. */
  predicate Carries(reqs: map<Rid, Req>, a: Actor, c: Cmd) { a.Posting? && Sent(a.ppc) && CmdOf(reqs, a) == Some(c) }

  function Carriers(reqs: map<Rid, Req>, acts: map<Tid, Actor>, c: Cmd): set<Tid> {
    set t | t in acts && Carries(reqs, acts[t], c)
  }

  predicate PassesWith(g: State, l: Label, c: Cmd) { l.ByApp? && Passes(g, l, l.a.t) && CmdOf(g.reqs, g.acts[l.a.t]) == Some(c) }
  predicate ReturnsWith(g: State, l: Label, c: Cmd) { l.ByApp? && Returns(g, l, l.a.t) && CmdOf(g.reqs, g.acts[l.a.t]) == Some(c) }

  lemma PinnedNotApp(q: Req, c: Call, sent: bool)
    requires ReqOk(q) && SentOk(q, c, sent)
    ensures !q.loc.App?
  {
  }

  lemma SamePosts(q: Req, q': Req)
    requires Evolves(q, q') && !q.loc.App?
    ensures q'.node == q.node
  {
  }

  /** While a thread posts a cancel command, the node of its request stays. */
  lemma CmdStable(g: State, l: Label, t: Tid)
    requires Inv(g) && Typed(g) && Enabled(g, l) && t in g.acts && g.acts[t].Posting?
    ensures CmdOf(Apply(g, l).reqs, g.acts[t]) == CmdOf(g.reqs, g.acts[t])
  {
    hide Inv, Typed, Enabled, Apply, ReqOk, Evolves;
    if g.acts[t].job.JCancel? {
      NamedReq(g, t);
      var c := g.acts[t].job.c;
      Facts2(g, t, c.r);
      ReqsFact(g, c.r);
      PinnedNotApp(g.reqs[c.r], c, Sent(g.acts[t].ppc));
      StepFollows(g, l, c.r);
      SamePosts(g.reqs[c.r], Apply(g, l).reqs[c.r]);
    }
  }

  lemma PostActs(g: State, t: Tid, sendOk: bool)
    requires Typed(g) && AppEnabled(g, PostL(t, sendOk))
    ensures var a := g.acts[t];
            PostStep(g, t, sendOk).acts[t]
            == if !a.ppc.Send? then PostNext(g.latch, g.quiescing, a.job, a.ppc)
               else if g.mqOpen && sendOk && |g.mq| < g.mqDepth then Posting(a.job, Wake) else Posting(a.job, Release(false))
  {
    hide Typed, PostNext;
  }

  lemma PostMoves(g: State, t: Tid, sendOk: bool)
    requires Typed(g) && AppEnabled(g, PostL(t, sendOk))
    ensures var a, a', l := g.acts[t], PostStep(g, t, sendOk).acts[t], ByApp(PostL(t, sendOk));
            && (Passes(g, l, t) ==> a' == Posting(a.job, Wake) && !Sent(a.ppc))
            && (Returns(g, l, t) ==> !a'.Posting? && Sent(a.ppc))
            && (!Passes(g, l, t) && !Returns(g, l, t) ==>
                  if a'.Posting? then a'.job == a.job && (Sent(a'.ppc) <==> Sent(a.ppc)) else !Sent(a.ppc))
  {
    hide Typed, PostNext, PostStep;
    var a := g.acts[t];
    PostActs(g, t, sendOk);
    if !a.ppc.Send? { PostNextMoves(g.latch, g.quiescing, a.job, a.ppc); }
  }

  lemma PostNextMoves(latch: bool, quiescing: bool, job: Job, p: PPc)
    requires !p.Send?
    ensures var a' := PostNext(latch, quiescing, job, p);
            if p == Fin(true) then !a'.Posting? && Sent(p)
            else if a'.Posting? then a'.job == job && (Sent(a'.ppc) <==> Sent(p)) else !Sent(p)
  {
  }

  /** Whether a thread carries command c after a step. */
  lemma ThreadCarries(g: State, l: Label, t: Tid, c: Cmd)
    requires Inv(g) && Typed(g) && Enabled(g, l) && t in g.acts
    ensures t in Apply(g, l).acts
    ensures Carries(Apply(g, l).reqs, Apply(g, l).acts[t], c)
            == if l.ByApp? && l.a.t == t && PassesWith(g, l, c) then true
               else if l.ByApp? && l.a.t == t && ReturnsWith(g, l, c) then false
               else Carries(g.reqs, g.acts[t], c)
  {
    hide Inv, Typed, AppStep, OwnerStep, OwnerEnabled, PostStep;
    if g.acts[t].Posting? { CmdStable(g, l, t); }
    match l
    case ByTheOwner(o) => OwnerSendsNone(g, o);
    case ByApp(a) =>
      AppActs(g, a);
      if a.t == t {
        if a.PostL? { PostMoves(g, t, a.sendOk); PostIs(g, a); CmdSameJob(g, Apply(g, l), t); } else { NotCarrying(g, a); }
      }
  }

  lemma CmdSameJob(g: State, g': State, t: Tid)
    requires t in g.acts && t in g'.acts && g.acts[t].Posting? && g'.acts[t].Posting? ==> g'.acts[t].job == g.acts[t].job
    ensures t in g.acts && t in g'.acts && g.acts[t].Posting? && g'.acts[t].Posting? ==>
              CmdOf(g'.reqs, g'.acts[t]) == CmdOf(g'.reqs, g.acts[t])
  {
  }

  lemma PostIs(g: State, l: AppLabel)
    requires Typed(g) && AppEnabled(g, l) && l.PostL?
    ensures AppStep(g, l) == PostStep(g, l.t, l.sendOk)
  {
    hide Typed, PostStep;
  }

  lemma AppActs(g: State, l: AppLabel)
    requires Typed(g) && AppEnabled(g, l)
    ensures var g' := AppStep(g, l); l.t in g'.acts && g'.acts == g.acts[l.t := g'.acts[l.t]]
  {
    hide Typed, PostStep, PostBegin, Reject, CancelLoop, CallbackStep, UnpinStep, PublishStep, TailStep, ExtStep;
  }

  /** Neither inside command_post past its beginning, nor between the two stores of stop. */
  predicate Outside(a: Actor) { (a.Posting? ==> a.ppc.LoadLatch1?) && !a.StopSecond? }

  lemma NextsOutside(r: Rid, seen: RState, q: Req, b: bool, a: Actor, e: ExtPc)
    ensures Outside(CancelNext(r, seen, q)) && Outside(ExtNext(b, e))
    ensures a.CPinned? || a.CbAdd? || a.CbCheck? || a.CbUndo? ==> Outside(CallbackNext(b, a))
    ensures a.CPub? || a.CSub? ==> Outside(PublishNext(a))
    ensures a.CTail? || a.CRet? ==> Outside(TailNext(a))
  {
  }

  lemma LoopOutside(g: State, t: Tid)
    requires Typed(g) && t in g.acts && g.acts[t].CLoop?
    ensures Outside(CancelLoop(g, t).acts[t])
  {
    hide Typed, CancelNext, CancelReq, Outside;
    NamedReq(g, t);
    NextsOutside(g.acts[t].r, g.acts[t].seen, g.reqs[g.acts[t].r], true, Idle, EAdd);
  }

  lemma CallbackOutside(g: State, t: Tid)
    requires t in g.acts && (g.acts[t].CPinned? || g.acts[t].CbAdd? || g.acts[t].CbCheck? || g.acts[t].CbUndo?)
    ensures Outside(CallbackStep(g, t).acts[t])
  {
    hide CallbackNext, Outside;
    NextsOutside(0, New, EmptyReq(0), g.cbQuiescing, g.acts[t], EAdd);
  }

  lemma PublishOutside(g: State, t: Tid)
    requires Typed(g) && t in g.acts && (g.acts[t].CPub? || g.acts[t].CSub?)
    ensures Outside(PublishStep(g, t).acts[t])
  {
    hide Typed, PublishNext, PublishReq;
    NamedReq(g, t);
    NextsOutside(0, New, EmptyReq(0), true, g.acts[t], EAdd);
  }

  lemma UnpinOutside(g: State, t: Tid)
    requires Typed(g) && t in g.acts && g.acts[t].CUnpin?
    ensures Outside(UnpinStep(g, t).acts[t])
  {
    hide Typed, UnpinStep;
    UnpinActs(g, t);
  }

  lemma UnpinActs(g: State, t: Tid)
    requires Typed(g) && t in g.acts && g.acts[t].CUnpin?
    ensures UnpinStep(g, t).acts[t].CTail? || UnpinStep(g, t).acts[t].CPub?
  {
    hide Typed, Unpinned;
    NamedReq(g, t);
  }

  lemma TailOutside(g: State, t: Tid)
    requires t in g.acts && (g.acts[t].CTail? || g.acts[t].CRet?)
    ensures Outside(TailStep(g, t).acts[t])
  {
    hide TailNext, Outside;
    NextsOutside(0, New, EmptyReq(0), true, g.acts[t], EAdd);
  }

  lemma ExtOutside(g: State, t: Tid)
    requires t in g.acts && g.acts[t].Ext?
    ensures Outside(ExtStep(g, t).acts[t])
  {
    hide ExtNext, Outside;
    NextsOutside(0, New, EmptyReq(0), g.cbQuiescing, Idle, g.acts[t].eph);
  }

  /** Outside command_post nobody is past the send, neither before nor after the step. */
  lemma NotCarrying(g: State, l: AppLabel)
    requires Typed(g) && AppEnabled(g, l) && !l.PostL?
    ensures l.t in g.acts && !g.acts[l.t].Posting?
    ensures l.t in AppStep(g, l).acts
    ensures if l.StopBeginL? then AppStep(g, l).acts[l.t].StopSecond? else Outside(AppStep(g, l).acts[l.t])
  {
    hide Typed, PostBegin, CancelLoop, CallbackStep, UnpinStep, PublishStep, TailStep, ExtStep, Reject;
    match l
    case PostBeginL(t, r, n) => BeginOutside(g, t, r, n);
    case RejectL(t) => RejectOutside(g, t);
    case CancelLoopL(t) => LoopOutside(g, t);
    case CallbackL(t) => CallbackOutside(g, t);
    case UnpinL(t) => UnpinOutside(g, t);
    case PublishL(t) => PublishOutside(g, t);
    case TailL(t) => TailOutside(g, t);
    case ExtL(t) => ExtOutside(g, t);
    case _ =>
  }

  lemma BeginOutside(g: State, t: Tid, r: Rid, n: Node)
    requires r in g.reqs
    ensures Outside(PostBegin(g, t, r, n).acts[t])
  {
    hide Posted;
  }

  lemma RejectOutside(g: State, t: Tid)
    requires Typed(g) && t in g.acts && g.acts[t].Rejecting?
    ensures Outside(Reject(g, t).acts[t])
  {
    hide Typed;
    NamedReq(g, t);
  }

  /** A step adds the thread that passes the send and removes the one that returns. */
  lemma CarriersStep(g: State, l: Label, c: Cmd)
    requires Inv(g) && Typed(g) && Enabled(g, l)
    ensures var g' := Apply(g, l);
            |Carriers(g'.reqs, g'.acts, c)| + (if ReturnsWith(g, l, c) then 1 else 0)
            == |Carriers(g.reqs, g.acts, c)| + if PassesWith(g, l, c) then 1 else 0
  {
    hide Inv, Typed, Enabled, Apply, Carries, CmdOf, Passes, Returns;
    var g' := Apply(g, l);
    var before, after := Carriers(g.reqs, g.acts, c), Carriers(g'.reqs, g'.acts, c);
    forall t | t in g.acts
      ensures t in after <==> if l.ByApp? && l.a.t == t && PassesWith(g, l, c) then true
                              else if l.ByApp? && l.a.t == t && ReturnsWith(g, l, c) then false else t in before
    {
      ThreadCarries(g, l, t, c);
    }
    SameThreads(g, l);
    if PassesWith(g, l, c) {
      PassingThread(g, l, c);
      assert after == before + {l.a.t};
    } else if ReturnsWith(g, l, c) {
      ReturningThread(g, l, c);
      assert before == after + {l.a.t};
    } else {
      assert after == before;
    }
  }

  lemma PassingThread(g: State, l: Label, c: Cmd)
    requires PassesWith(g, l, c)
    ensures l.a.t in g.acts && !Carries(g.reqs, g.acts[l.a.t], c) && !ReturnsWith(g, l, c)
  {
  }

  lemma ReturningThread(g: State, l: Label, c: Cmd)
    requires ReturnsWith(g, l, c)
    ensures l.a.t in g.acts && Carries(g.reqs, g.acts[l.a.t], c) && !PassesWith(g, l, c)
  {
  }

  lemma SameThreads(g: State, l: Label)
    requires Typed(g) && Enabled(g, l)
    ensures Apply(g, l).acts.Keys == g.acts.Keys
  {
    hide Typed, AppStep, OwnerStep, OwnerEnabled, AppEnabled;
    match l
    case ByTheOwner(o) => OwnerSendsNone(g, o);
    case ByApp(a) => AppActs(g, a); ActsOfL(g, a);
  }

  lemma ActsOfL(g: State, l: AppLabel)
    requires Typed(g) && AppEnabled(g, l)
    ensures l.t in g.acts
  {
    hide Typed;
  }

  /** How many posts of command c have returned success before step i. */
  function Returned(gs: seq<State>, ls: seq<Label>, i: nat, c: Cmd): nat
    requires i <= |gs| && i <= |ls|
  {
    if i == 0 then 0 else Returned(gs, ls, i - 1, c) + if ReturnsWith(gs[i - 1], ls[i - 1], c) then 1 else 0
  }

  lemma CountGained(g: State, l: Label, c: Cmd)
    ensures multiset(g.sent + Gained(g, l))[c] == multiset(g.sent)[c] + if PassesWith(g, l, c) then 1 else 0
  {
  }

  /**
   Over every run, and for every command: it has been queued as often as posts of it
   have returned success, plus once for each thread that is about to.
   */
  lemma {:induction false} SuccessIsQueued(gs: seq<State>, ls: seq<Label>, i: nat, c: Cmd)
    requires IsRun(gs, ls) && i < |gs|
    ensures multiset(gs[i].sent)[c] == Returned(gs, ls, i, c) + |Carriers(gs[i].reqs, gs[i].acts, c)|
  {
    hide Inv, Typed, Enabled, Apply, Gained, PassesWith, ReturnsWith, Carriers;
    if i == 0 {
      NoCarriers(gs[0], c);
    } else {
      SuccessIsQueued(gs, ls, i - 1, c);
      RunInv(gs, ls, i - 1);
      var g, l := gs[i - 1], ls[i - 1];
      assert StepsTo(g, l, gs[i]);
      StepSends(g, l);
      CountGained(g, l, c);
      CarriersStep(g, l, c);
    }
  }

  lemma NoCarriers(g: State, c: Cmd)
    requires Init(g)
    ensures multiset(g.sent)[c] == 0 && Carriers(g.reqs, g.acts, c) == {}
  {
  }

  // ------------------------------------------------------------------------ the result

  lemma Drained(gs: seq<State>, ls: seq<Label>, i: nat)
    requires IsRun(gs, ls) && i < |gs| && Rank(gs[i].stage) >= 10
    ensures gs[i].received == gs[i].sent
  {
    hide IsRun, Inv;
    RunInv(gs, ls, i);
    InvOwner(gs[i]);
  }

  /**
   Once the owner has drained the queue, every command has been received exactly as
   often as posts of it succeeded, and the command of a request exactly once if its
   post was admitted and never if every post of it was rejected.
   */
  lemma ReceivedOnce(gs: seq<State>, ls: seq<Label>, i: nat, c: Cmd, r: Rid)
    requires IsRun(gs, ls) && i < |gs| && Rank(gs[i].stage) >= 10 && r in gs[0].reqs
    ensures multiset(gs[i].received)[c] == Returned(gs, ls, i, c) + |Carriers(gs[i].reqs, gs[i].acts, c)|
    ensures r in gs[i].reqs && multiset(gs[i].received)[SdoCmd(r)] == if gs[i].reqs[r].loc.App? then 0 else 1
  {
    hide IsRun, Carriers;
    Drained(gs, ls, i);
    SuccessIsQueued(gs, ls, i, c);
    QueuedOnce(gs, ls, i, r);
  }

  /** What a post of a request reports: success if and only if the command of the request has been queued. */
  lemma PostReports(gs: seq<State>, ls: seq<Label>, i: nat, t: Tid, r: Rid, ok: bool)
    requires IsRun(gs, ls) && i < |gs| && t in gs[i].acts && gs[i].acts[t] == Posting(JSdo(r), Fin(ok)) && r in gs[0].reqs
    ensures multiset(gs[i].sent)[SdoCmd(r)] == if ok then 1 else 0
  {
    hide IsRun, Inv, Carriers, ReqOk;
    QueuedOnce(gs, ls, i, r);
    if ok {
      SuccessIsQueued(gs, ls, i, SdoCmd(r));
      CarriesIt(gs[i], t, r);
    } else {
      RunInv(gs, ls, i);
      Facts2(gs[i], t, r);
      ReqsFact(gs[i], r);
      PosterHas(gs[i].reqs[r]);
    }
  }

  lemma CarriesIt(g: State, t: Tid, r: Rid)
    requires t in g.acts && g.acts[t] == Posting(JSdo(r), Fin(true))
    ensures |Carriers(g.reqs, g.acts, SdoCmd(r))| > 0
  {
    assert t in Carriers(g.reqs, g.acts, SdoCmd(r));
  }
}
