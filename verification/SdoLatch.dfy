/** Which threads can still enter the queue section once the stop latch is set. */
module SdoLatch {
  import opened Options
  import opened SdoModel
  import opened SdoInvariant
  import opened SdoAppSteps
  import opened SdoAdmission
  import opened SdoRuns

  // -------------------------------------------------------------- before admission opens

  /** The owner's store that opens admission lies behind. */
  predicate StorePast(g: State) { !g.stage.OpenCheck? && !g.stage.OpenStore? }

  /** Not admitted to the queue, nor on the way to it past the first load of the quiescing flag. */
  predicate Early(a: Actor) { a.Posting? ==> a.ppc.LoadLatch1? || a.ppc.LoadQuiesce1? || a.ppc.Fin? }

  /** Until the owner opens admission, command posting is quiesced and nobody gets past its first two loads. */
  predicate Unopened(g: State) { !StorePast(g) ==> g.quiescing && forall t | t in g.acts :: Early(g.acts[t]) }

  lemma PostEarly(latch: bool, job: Job, p: PPc)
    requires p.LoadLatch1? || p.LoadQuiesce1? || p.Fin?
    ensures Early(PostNext(latch, true, job, p))
  {
  }

  lemma OutsideEarly(a: Actor)
    requires Outside(a) || a.StopSecond?
    ensures Early(a)
  {
  }

  /** What a step of a thread does to the flags and the other threads. */
  lemma AppFlags(g: State, l: AppLabel)
    requires Typed(g) && AppEnabled(g, l)
    ensures var g' := AppStep(g, l);
            && (g.latch ==> g'.latch) && (g.quiescing ==> g'.quiescing) && g'.stage == g.stage
            && l.t in g.acts && l.t in g'.acts && g'.acts == g.acts[l.t := g'.acts[l.t]]
  {
    hide Typed, PostStep, PostBegin, Reject, CancelLoop, CallbackStep, UnpinStep, PublishStep, TailStep, ExtStep;
  }

  /** The owner never clears the latch, and clears the quiescing flag only when it opens admission. */
  lemma OwnerFlags(g: State, l: OwnerLabel)
    requires Typed(g) && OwnerEnabled(g, l)
    ensures var g' := OwnerStep(g, l);
            && (g.latch ==> g'.latch) && g'.acts == g.acts
            && (StorePast(g) ==> StorePast(g') && (g.quiescing ==> g'.quiescing))
            && (!StorePast(g') ==> (g.quiescing ==> g'.quiescing))
  {
    hide Typed, Recv, Confirm, Claim, Start, Head, CancelQueued, NextTodo, OwnerComplete, CancelNode, StageStep;
    if l.StageL? { StageFlagsOf(g); }
  }

  lemma StageFlagsOf(g: State)
    ensures var g' := StageStep(g);
            && (g.latch ==> g'.latch) && g'.acts == g.acts
            && (StorePast(g) ==> StorePast(g') && (g.quiescing ==> g'.quiescing))
            && (!StorePast(g') ==> (g.quiescing ==> g'.quiescing))
  {
    hide CancelNode;
  }

  /** Where the moving thread gets to while posting is quiesced. */
  lemma MoverEarly(g: State, l: AppLabel)
    requires Typed(g) && AppEnabled(g, l) && g.quiescing && l.t in g.acts && Early(g.acts[l.t])
    ensures l.t in AppStep(g, l).acts && Early(AppStep(g, l).acts[l.t])
  {
    hide Typed, AppStep, PostStep, PostNext;
    if l.PostL? {
      PostActs(g, l.t, l.sendOk);
      PostIs(g, l);
      PostEarly(g.latch, g.acts[l.t].job, g.acts[l.t].ppc);
      AppFlags(g, l);
    } else {
      NotCarrying(g, l);
      OutsideEarly(AppStep(g, l).acts[l.t]);
    }
  }

  lemma UnopenedKept(g: State, l: Label)
    requires Typed(g) && Enabled(g, l) && Unopened(g)
    ensures Unopened(Apply(g, l))
  {
    hide Typed, AppStep, AppEnabled, OwnerStep, OwnerEnabled, Early;
    match l
    case ByTheOwner(o) => OwnerFlags(g, o);
    case ByApp(a) =>
      AppFlags(g, a);
      if !StorePast(g) { MoverEarly(g, a); }
  }

  lemma {:induction false} RunUnopened(gs: seq<State>, ls: seq<Label>, i: nat)
    requires IsRun(gs, ls) && i < |gs|
    ensures Unopened(gs[i])
  {
    hide Typed, Enabled, Apply;
    if i > 0 {
      RunUnopened(gs, ls, i - 1);
      assert StepsTo(gs[i - 1], ls[i - 1], gs[i]);
      UnopenedKept(gs[i - 1], ls[i - 1]);
    }
  }

  // -------------------------------------------------------------------- never entering

  /** The next load of the quiescing flag decides alone, and finds it clear. */
  predicate Slips(g: State, a: Actor) { a.Posting? && a.ppc.LoadQuiesce2? && !g.quiescing }

  /** Past the second latch load of command_post and not yet released. */
  predicate PastLatch(a: Actor) { a.Posting? && (a.ppc.LoadQuiesce2? || a.ppc.Send? || a.ppc.Wake? || a.ppc.Release?) }

  /** The thread can never enter: it has not got past the latch, or the quiescing flag turns it back for good. */
  predicate ShutOut(g: State, t: Tid) {
    && g.latch && t in g.acts
    && (PastLatch(g.acts[t]) ==> g.acts[t].ppc.LoadQuiesce2? && g.quiescing && StorePast(g))
  }

  lemma PostShut(latch: bool, quiescing: bool, job: Job, p: PPc)
    requires latch && !p.Send? && (PastLatch(Posting(job, p)) ==> p.LoadQuiesce2? && quiescing)
    ensures !PastLatch(PostNext(latch, quiescing, job, p))
  {
  }

  lemma OutsideLatch(a: Actor)
    requires Outside(a) || a.StopSecond?
    ensures !PastLatch(a)
  {
  }

  lemma MoverShut(g: State, l: AppLabel)
    requires Typed(g) && AppEnabled(g, l) && ShutOut(g, l.t)
    ensures l.t in AppStep(g, l).acts && !PastLatch(AppStep(g, l).acts[l.t])
  {
    hide Typed, AppStep, PostStep, PostNext;
    if l.PostL? {
      PostActs(g, l.t, l.sendOk);
      PostIs(g, l);
      AppFlags(g, l);
      PostShut(g.latch, g.quiescing, g.acts[l.t].job, g.acts[l.t].ppc);
    } else {
      NotCarrying(g, l);
      OutsideLatch(AppStep(g, l).acts[l.t]);
    }
  }

  lemma StaysShut(g: State, l: Label, t: Tid)
    requires Typed(g) && Enabled(g, l) && ShutOut(g, t)
    ensures ShutOut(Apply(g, l), t)
  {
    hide Typed, AppStep, AppEnabled, OwnerStep, OwnerEnabled;
    match l
    case ByTheOwner(o) => OwnerFlags(g, o);
    case ByApp(a) =>
      AppFlags(g, a);
      if a.t == t { MoverShut(g, a); }
  }

  lemma {:induction false} ShutForGood(gs: seq<State>, ls: seq<Label>, i: nat, j: nat, t: Tid)
    requires IsRun(gs, ls) && i <= j < |gs| && ShutOut(gs[i], t)
    ensures ShutOut(gs[j], t)
    decreases j - i
  {
    hide Typed, Enabled, Apply, Init, ShutOut;
    if i < j {
      assert StepsTo(gs[i], ls[i], gs[i + 1]);
      StaysShut(gs[i], ls[i], t);
      ShutForGood(gs, ls, i + 1, j, t);
    }
  }

  /** A thread outside the queue section that does not slip through now never enters, in this post or a later one. */
  lemma LatchShuts(gs: seq<State>, ls: seq<Label>, i: nat, j: nat, t: Tid)
    requires IsRun(gs, ls) && i <= j < |gs| && gs[i].latch && t in gs[i].acts
    requires !InQueueSection(gs[i].acts[t]) && !Slips(gs[i], gs[i].acts[t])
    ensures t in gs[j].acts && !InQueueSection(gs[j].acts[t])
  {
    hide IsRun;
    RunUnopened(gs, ls, i);
    ShutForGood(gs, ls, i, j, t);
  }

  // ------------------------------------------------------------------------- the boundary

  /** A run that agrees with gs up to state i and has the thread in the queue section at state j. */
  predicate EntersAt(gs: seq<State>, i: nat, t: Tid, gs': seq<State>, ls': seq<Label>, j: nat)
    requires i < |gs|
  {
    IsRun(gs', ls') && i <= j < |gs'| && gs'[..i + 1] == gs[..i + 1] && t in gs'[j].acts && InQueueSection(gs'[j].acts[t])
  }

  ghost predicate MayEnter(gs: seq<State>, i: nat, t: Tid)
    requires i < |gs|
  {
    exists gs': seq<State>, ls': seq<Label>, j: nat :: EntersAt(gs, i, t, gs', ls', j)
  }

  lemma Extended(gs: seq<State>, ls: seq<Label>, l: Label)
    requires IsRun(gs, ls) && Typed(gs[|ls|]) && Enabled(gs[|ls|], l)
    ensures IsRun(gs + [Apply(gs[|ls|], l)], ls + [l])
  {
    hide Typed, Enabled, Apply, Init;
    var gs', ls' := gs + [Apply(gs[|ls|], l)], ls + [l];
    forall k | 0 <= k < |ls'| ensures StepsTo(gs'[k], ls'[k], gs'[k + 1]) {
      if k < |ls| { assert StepsTo(gs[k], ls[k], gs[k + 1]); }
    }
  }

  lemma Cut(gs: seq<State>, ls: seq<Label>, i: nat)
    requires IsRun(gs, ls) && i < |gs|
    ensures IsRun(gs[..i + 1], ls[..i])
  {
    hide Typed, Enabled, Apply, Init;
    forall k | 0 <= k < i ensures StepsTo(gs[..i + 1][k], ls[..i][k], gs[..i + 1][k + 1]) {
      assert StepsTo(gs[k], ls[k], gs[k + 1]);
    }
  }

  lemma SlipsIn(g: State, t: Tid)
    requires Inv(g) && t in g.acts && Slips(g, g.acts[t])
    ensures Typed(g) && Enabled(g, ByApp(PostL(t, true)))
    ensures var g' := Apply(g, ByApp(PostL(t, true))); t in g'.acts && InQueueSection(g'.acts[t])
  {
    hide Inv, Typed;
    InvTyped(g);
  }

  /** A thread that slips through is in the queue section after its next step. */
  lemma Enters(gs: seq<State>, ls: seq<Label>, i: nat, t: Tid)
    requires IsRun(gs, ls) && i < |gs| && t in gs[i].acts && Slips(gs[i], gs[i].acts[t])
    ensures MayEnter(gs, i, t)
  {
    hide StepsTo, Init, Inv, Typed, Enabled, Apply, Slips;
    RunInv(gs, ls, i);
    SlipsIn(gs[i], t);
    Cut(gs, ls, i);
    LastOf(gs, ls, i);
    var l := ByApp(PostL(t, true));
    Extended(gs[..i + 1], ls[..i], l);
    var gs' := gs[..i + 1] + [Apply(gs[i], l)];
    assert gs'[..i + 1] == gs[..i + 1];
    assert EntersAt(gs, i, t, gs', ls[..i] + [l], i + 1);
  }

  lemma LastOf(gs: seq<State>, ls: seq<Label>, i: nat)
    requires IsRun(gs, ls) && i < |gs|
    ensures |ls[..i]| == i && gs[..i + 1][|ls[..i]|] == gs[i]
  {
    hide StepsTo, Init;
  }

  /**
   The exact boundary of the stop latch.  In a state with the latch set, a thread
   outside the queue section may still enter it in some continuation if and only if
   it is about to load the quiescing flag for the second time and that is clear.
   */
  lemma LatchBoundary(gs: seq<State>, ls: seq<Label>, i: nat, t: Tid)
    requires IsRun(gs, ls) && i < |gs| && gs[i].latch && t in gs[i].acts && !InQueueSection(gs[i].acts[t])
    ensures MayEnter(gs, i, t) <==>
              gs[i].acts[t].Posting? && gs[i].acts[t].ppc.LoadQuiesce2? && !gs[i].quiescing
  {
    hide IsRun, InQueueSection;
    if Slips(gs[i], gs[i].acts[t]) {
      Enters(gs, ls, i, t);
    } else if MayEnter(gs, i, t) {
      var gs': seq<State>, ls': seq<Label>, j: nat :| EntersAt(gs, i, t, gs', ls', j);
      assert gs'[i] == gs'[..i + 1][i] == gs[i];
      LatchShuts(gs', ls', i, j, t);
    }
  }
}
