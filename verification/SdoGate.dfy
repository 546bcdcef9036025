/** The request protocol together with the NMT gate: availability at dispatch and reap is the gate's. */
module SdoGate {
  import opened Options
  import opened SdoModel
  import opened SdoInvariant
  import opened SdoFrame
  import opened SdoAppSteps
  import opened SdoOwnerSteps
  import opened SdoOwnerLists
  import opened SdoOwnerClaim
  import opened SdoRuns
  import NmtGate

  /** The protocol's state and the gate of every node. */
  datatype Gated = Gated(g: State, gates: map<Node, NmtGate.Node>)

  /** A step of the protocol, or an NMT event of a node between two operations of the owner. */
  datatype Step = Move(l: Label) | Nmt(n: Node, e: NmtGate.Event)

  predicate Open(y: Gated, n: Node) { n in y.gates && !y.gates[n].suspended }

  /** The node has no active request and an empty FIFO. */
  predicate NoWork(g: State, n: Node) { n in g.nodes && Empty(g.nodes[n]) }

  /** Events before which the owner has cancelled all work of the node. */
  predicate Detaches(e: NmtGate.Event) {
    match e
    case Commanded(c) => c.CmdStop? || NmtGate.IsReset(c)
    case Indicated(s, _, _) => s.Bootup? || s.StopSt?
    case _ => false
  }

  /** Dispatch and reap find the node available only if its gate is open; a boot or a configuration may close it too. */
  predicate Asks(y: Gated, l: Label)
    requires Typed(y.g) && Enabled(y.g, l)
  {
    match l
    case ByTheOwner(RecvL(avail)) =>
      avail && y.g.mq[0].SdoCmd? ==> Open(y, y.g.reqs[y.g.mq[0].r].node)
    case ByTheOwner(ReapL(n)) => Open(y, n)
    case _ => true
  }

  predicate Next(y: Gated, s: Step, y': Gated) {
    match s
    case Move(l) => StepsTo(y.g, l, y'.g) && Asks(y, l) && y'.gates == y.gates
    case Nmt(n, e) =>
      && OwnerFree(y.g) && n in y.gates && y'.g == y.g && y'.gates == y.gates[n := NmtGate.After(y.gates[n], e)]
      && (Detaches(e) ==> NoWork(y.g, n))
  }

  predicate IsGatedRun(ys: seq<Gated>, ss: seq<Step>) {
    && |ys| == |ss| + 1 && Init(ys[0].g)
    && forall i | 0 <= i < |ss| :: Next(ys[i], ss[i], ys[i + 1])
  }

  lemma {:induction false} GatedInv(ys: seq<Gated>, ss: seq<Step>, i: nat)
    requires IsGatedRun(ys, ss) && i < |ys|
    ensures Inv(ys[i].g)
  {
    hide Inv, Typed, Enabled, Apply, Init, Asks;
    if i == 0 {
      InitInv(ys[0].g);
    } else {
      GatedInv(ys, ss, i - 1);
      assert Next(ys[i - 1], ss[i - 1], ys[i]);
      if ss[i - 1].Move? { Preserves(ys[i - 1].g, ss[i - 1].l); }
    }
  }

  // ------------------------------------------------------------- while a node is held

  predicate HeldAt(y: Gated, n: Node) { n in y.gates && NmtGate.Held(y.gates[n]) }

  /** The owner is not on its way to starting a transfer for node n. */
  predicate NotStarting(g: State, n: Node) {
    && !(g.pc.OHead? && g.pc.n == n) && !(g.pc.OHeadCas? && g.pc.n == n)
    && (g.pc.OStart? ==> g.pc.r in g.reqs && g.reqs[g.pc.r].node != n)
    && (g.pc.ODispatch? && g.pc.avail ==> g.pc.r in g.reqs && g.reqs[g.pc.r].node != n)
  }

  lemma RecvNoWork(g: State, avail: bool, n: Node)
    requires Typed(g) && OwnerEnabled(g, RecvL(avail)) && NoWork(g, n)
    ensures NoWork(Recv(g, avail), n)
  {
    hide Typed, CancelDispatch;
    HeadTyped(g);
    var g1 := g.(mq := g.mq[1..], received := g.received + [g.mq[0]]);
    if g.mq[0].CancelCmd? { DispatchNoWork(g1, g.mq[0].node, g.mq[0].r, n); }
  }

  lemma DispatchNoWork(g: State, m: Node, r: Rid, n: Node)
    requires m in g.nodes && WorkTyped(g.reqs, g.nodes[m]) && NoWork(g, n)
    ensures NoWork(CancelDispatch(g, m, r), n)
  {
  }

  lemma HeadTyped(g: State)
    requires Typed(g) && g.mq != []
    ensures CmdTyped(g.reqs, g.nodes, g.mq[0])
    ensures g.mq[0].CancelCmd? ==> WorkTyped(g.reqs, g.nodes[g.mq[0].node])
  {
  }

  lemma ClaimNoWork(g: State, n: Node)
    requires Inv(g) && Typed(g) && g.pc.ODispatch? && NotStarting(g, n) && NoWork(g, n)
    ensures NoWork(Claim(g), n)
  {
    hide Inv, Typed, ReqOk, PcReq, ClaimReq, ClaimPc;
    Holding(g, g.pc.r);
  }

  lemma StartNoWork(g: State, outcome: StartOutcome, n: Node)
    requires Inv(g) && Typed(g) && g.pc.OStart? && NotStarting(g, n) && NoWork(g, n)
    ensures NoWork(Start(g, outcome), n)
  {
    hide Inv, Typed, ReqOk, PcReq;
    Holding(g, g.pc.r);
  }

  lemma ConfirmNoWork(g: State, m: Node, ac: nat, copied: bool, n: Node)
    requires Typed(g) && m in g.nodes && g.nodes[m].active.Some? && NoWork(g, n)
    ensures NoWork(Confirm(g, m, ac, copied), n)
  {
    hide Typed;
  }

  lemma DetachNoWork(g: State, m: Node, n: Node)
    requires m in g.nodes && NoWork(g, n)
    ensures NoWork(CancelNode(g, m), n)
  {
  }

  lemma HeadNoWork(g: State, n: Node)
    requires Typed(g) && (g.pc.OHead? || g.pc.OHeadCas?) && g.nodes[g.pc.n].pending != [] && NoWork(g, n)
    ensures NoWork(Head(g), n)
  {
    hide Typed;
  }

  lemma OtherNoWork(g: State, l: OwnerLabel, n: Node)
    requires Typed(g) && OwnerEnabled(g, l) && !l.RecvL? && !l.ClaimL? && !l.StartL? && NoWork(g, n)
    ensures NoWork(OwnerStep(g, l), n)
  {
    hide Typed, CompleteReq, CompletePc, CompleteDelta, QueuedReq, QueuedPc, NextStage, Confirm, CancelNode, Head;
    match l
    case ConfirmL(m, ac, copied) => ConfirmNoWork(g, m, ac, copied, n);
    case CancelNodeL(m) => DetachNoWork(g, m, n);
    case HeadL => HeadNoWork(g, n);
    case StageL => if g.stage.CancelAll? && g.stage.next in g.nodes { DetachNoWork(g, g.stage.next, n); }
    case _ =>
  }

  /** The owner gives the node no work while it is not starting anything for it. */
  lemma StaysNoWork(g: State, l: OwnerLabel, n: Node)
    requires Inv(g) && Typed(g) && OwnerEnabled(g, l) && NotStarting(g, n) && NoWork(g, n)
    ensures NoWork(OwnerStep(g, l), n)
  {
    hide Inv, Typed, Recv, Claim, Start, NotStarting, NoWork;
    match l
    case RecvL(avail) => RecvNoWork(g, avail, n);
    case ClaimL => ClaimNoWork(g, n);
    case StartL(outcome) => StartNoWork(g, outcome, n);
    case _ => OtherNoWork(g, l, n);
  }

  lemma SameNodes(g: State, l: AppLabel)
    requires Typed(g) && AppEnabled(g, l)
    ensures AppStep(g, l).nodes == g.nodes
  {
    hide Typed, AppEnabled, PostStep, PostBegin, Reject, CancelLoop, CallbackStep, UnpinStep, PublishStep, TailStep, ExtStep;
    ActorOf(g, l);
  }

  lemma ActorOf(g: State, l: AppLabel)
    requires Typed(g) && AppEnabled(g, l)
    ensures l.t in g.acts
    ensures l.PostL? ==> g.acts[l.t].Posting?
    ensures l.RejectL? ==> g.acts[l.t].Rejecting?
    ensures l.CancelLoopL? ==> g.acts[l.t].CLoop?
    ensures l.UnpinL? ==> g.acts[l.t].CUnpin?
  {
    hide Typed;
  }

  /** A Client-SDO transfer is issued for node n. */
  predicate Issues(y: Gated, s: Step, n: Node) {
    && s.Move? && s.l == ByTheOwner(StartL(Issued)) && y.g.pc.OStart?
    && y.g.pc.r in y.g.reqs && y.g.reqs[y.g.pc.r].node == n
  }

  lemma AppHeld(g: State, l: AppLabel, n: Node)
    requires Inv(g) && Typed(g) && AppEnabled(g, l) && NotStarting(g, n)
    ensures NotStarting(AppStep(g, l), n)
  {
    hide Inv, Typed, AppEnabled, AppStep, ReqOk, PcReq;
    SamePc(g, l);
    if g.pc.OStart? || g.pc.ODispatch? {
      Holding(g, g.pc.r);
      AppFollows(g, l, g.pc.r);
    }
  }

  lemma SamePc(g: State, l: AppLabel)
    requires Typed(g) && AppEnabled(g, l)
    ensures AppStep(g, l).pc == g.pc
  {
    hide Typed, PostStep, PostBegin, Reject, CancelLoop, CallbackStep, UnpinStep, PublishStep, TailStep, ExtStep;
  }

  lemma RecvHeld(y: Gated, avail: bool, n: Node)
    requires Typed(y.g) && OwnerEnabled(y.g, RecvL(avail)) && Asks(y, ByTheOwner(RecvL(avail))) && HeldAt(y, n)
    ensures NotStarting(Recv(y.g, avail), n)
  {
    hide Typed;
    MqTyped1(y.g);
  }

  lemma MqTyped1(g: State)
    requires Typed(g) && g.mq != []
    ensures CmdTyped(g.reqs, g.nodes, g.mq[0])
  {
  }

  lemma ClaimHeld(g: State, n: Node)
    requires Inv(g) && Typed(g) && g.pc.ODispatch? && NotStarting(g, n)
    ensures NotStarting(Claim(g), n)
  {
    hide Inv, Typed, ReqOk, PcReq, ClaimWork;
    Holding(g, g.pc.r);
  }

  lemma HeadHeld(g: State, n: Node)
    requires Inv(g) && Typed(g) && (g.pc.OHead? || g.pc.OHeadCas?) && g.pc.n in g.nodes && g.nodes[g.pc.n].pending != []
    requires NotStarting(g, n)
    ensures NotStarting(Head(g), n)
  {
    hide Inv, Typed, Head, With, ToCancel, OnNode;
    HeadFacts(g);
    ActiveFacts(g, g.pc.n);
    var r := g.nodes[g.pc.n].pending[0];
    HeadPcs(g, g.pc.n, r);
  }

  lemma HeadPcs(g: State, m: Node, r: Rid)
    requires Typed(g) && (g.pc.OHead? || g.pc.OHeadCas?) && g.pc.n == m && m in g.nodes && g.nodes[m].pending != []
    requires g.nodes[m].pending[0] == r && r in g.reqs
    ensures var g' := Head(g);
            && (g'.pc.OHeadCas? ==> g'.pc.n == m) && !g'.pc.OHead? && !g'.pc.ODispatch?
            && (g'.pc.OStart? ==> g'.pc.r == r && r in g'.reqs && g'.reqs[r].node == g.reqs[r].node)
  {
    hide Typed, Head;
    HeadIs(g, m, r);
  }

  lemma DetachPc(g: State, m: Node)
    requires m in g.nodes
    ensures CancelNode(g, m).pc == g.pc
  {
  }

  lemma OtherHeld(g: State, l: OwnerLabel, n: Node)
    requires Typed(g) && OwnerEnabled(g, l) && !l.RecvL? && !l.ReapL? && !l.ClaimL? && !l.HeadL?
    ensures NotStarting(OwnerStep(g, l), n)
  {
    hide Typed, CompleteReq, QueuedReq, NextStage, CompleteDelta, CancelNode;
    match l
    case CancelNodeL(m) => DetachPc(g, m);
    case StageL => if g.stage.CancelAll? && g.stage.next in g.nodes { DetachPc(g, g.stage.next); }
    case _ =>
  }

  lemma OwnerHeld(y: Gated, l: OwnerLabel, n: Node)
    requires Inv(y.g) && Typed(y.g) && OwnerEnabled(y.g, l) && Asks(y, ByTheOwner(l)) && HeldAt(y, n) && NotStarting(y.g, n)
    ensures NotStarting(OwnerStep(y.g, l), n)
  {
    hide Inv, Typed, Recv, Claim, Head, NotStarting;
    match l
    case RecvL(avail) => RecvHeld(y, avail, n);
    case ReapL(m) => ReapHeld(y, m, n);
    case ClaimL => ClaimHeld(y.g, n);
    case HeadL => HeadFacts(y.g); HeadHeld(y.g, n);
    case _ => OtherHeld(y.g, l, n);
  }

  lemma ReapHeld(y: Gated, m: Node, n: Node)
    requires Open(y, m) && HeldAt(y, n)
    ensures NotStarting(y.g.(pc := OHead(m)), n)
  {
  }

  /** A step keeps a held node from starting anything, unless the gate releases it. */
  lemma StepHeld(y: Gated, s: Step, y': Gated, n: Node)
    requires Inv(y.g) && Next(y, s, y') && HeldAt(y, n) && NotStarting(y.g, n) && NoWork(y.g, n)
    requires s.Nmt? && s.n == n ==> !NmtGate.Releases(s.e)
    ensures HeldAt(y', n) && NotStarting(y'.g, n) && NoWork(y'.g, n) && !Issues(y, s, n)
  {
    hide Inv, Typed, AppEnabled, AppStep, OwnerStep, OwnerEnabled, NotStarting, NoWork, Asks, NmtGate.After, NmtGate.Held,
         NmtGate.Releases;
    match s
    case Nmt(m, e) => if m == n { NmtGate.HeldIffNotReleased(y.gates[n], e); }
    case Move(l) =>
      NoIssue(y, s, n);
      match l {
        case ByApp(a) => AppHeld(y.g, a, n); NodesKept(y.g, a, n);
        case ByTheOwner(o) => OwnerHeld(y, o, n); StaysNoWork(y.g, o, n);
      }
  }

  lemma NodesKept(g: State, l: AppLabel, n: Node)
    requires Typed(g) && AppEnabled(g, l) && NoWork(g, n)
    ensures NoWork(AppStep(g, l), n)
  {
    hide Typed, AppEnabled, AppStep;
    SameNodes(g, l);
  }

  lemma NoIssue(y: Gated, s: Step, n: Node)
    requires NotStarting(y.g, n)
    ensures !Issues(y, s, n)
  {
  }

  lemma {:induction false} StaysHeld(ys: seq<Gated>, ss: seq<Step>, i: nat, j: nat, n: Node)
    requires IsGatedRun(ys, ss) && i <= j < |ys| && HeldAt(ys[i], n) && NotStarting(ys[i].g, n) && NoWork(ys[i].g, n)
    requires forall k | i <= k < j :: ss[k].Nmt? && ss[k].n == n ==> !NmtGate.Releases(ss[k].e)
    ensures HeldAt(ys[j], n) && NotStarting(ys[j].g, n) && NoWork(ys[j].g, n)
    decreases j - i
  {
    hide Next, Inv, HeldAt, NotStarting, NoWork, Init, NmtGate.Releases, Issues;
    if i < j {
      GatedInv(ys, ss, i);
      StepHeld(ys[i], ss[i], ys[i + 1], n);
      StaysHeld(ys, ss, i + 1, j, n);
    }
  }

  /**
   From an accepted reset command on, until a Boot-up outside a boot process, a boot
   completion or the teardown, the node has no transfer under way, none is issued for
   it and no request waits for it, in any interleaving and whatever requests, commands
   and states come in between.
   */
  lemma NoTransferWhileHeld(ys: seq<Gated>, ss: seq<Step>, i: nat, j: nat, n: Node, c: NmtGate.Command)
    requires IsGatedRun(ys, ss) && i < j < |ss| && ss[i] == Nmt(n, NmtGate.Commanded(c)) && NmtGate.IsReset(c)
    requires forall k | i < k <= j :: ss[k].Nmt? && ss[k].n == n ==> !NmtGate.Releases(ss[k].e)
    ensures HeldAt(ys[j], n) && NoWork(ys[j].g, n) && !Issues(ys[j], ss[j], n)
  {
    hide Init, Inv, NmtGate.Releases, Asks, StepsTo;
    assert Next(ys[i], ss[i], ys[i + 1]);
    StaysHeld(ys, ss, i + 1, j, n);
    NoIssue(ys[j], ss[j], n);
  }
}
