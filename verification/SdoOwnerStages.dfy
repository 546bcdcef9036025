/** Detaching a node's work, and the owner's life cycle from admission to exit. */
module SdoOwnerStages {
  import opened Options
  import NmtGate
  import opened SdoModel
  import opened SdoInvariant
  import opened SdoFrame
  import opened SdoOrder
  import opened SdoOwnerSteps
  import opened SdoOwnerLists
  import opened SdoOwnerClaim

  // --------------------------------------------------------- the detached list

  lemma TodoPop(reqs: map<Rid, Req>, todo: seq<Rid>, q: Req)
    requires TodoOk(reqs, todo) && todo != []
    ensures TodoOk(reqs[todo[0] := q], todo[1..])
    ensures forall x | x in todo && x != todo[0] :: x in todo[1..]
  {
  }

  lemma TodoHead(reqs: map<Rid, Req>, todo: seq<Rid>)
    requires TodoOk(reqs, todo) && todo != []
    ensures todo[0] in reqs && reqs[todo[0]].loc.InTodo?
  {
  }

  lemma InvTodo(g: State)
    requires Inv(g)
    ensures TodoOk(g.reqs, g.todo)
  {
  }

  lemma NextStep(g: State)
    requires Inv(g) && Typed(g) && g.pc.OFree? && g.todo != []
    ensures Inv(NextTodo(g))
  {
    hide Inv, Typed, OwnerChange, ReqOk, OwnerTyped, OwnerOk, WorkOk, MqTyped, MqInv, TodoOk, PcFits, Cancelish;
    InvTodo(g);
    var r := g.todo[0];
    TodoHead(g.reqs, g.todo);
    var q := g.reqs[r].(loc := OwnerHand, cancelRequested := true);
    TodoPop(g.reqs, g.todo, q);
    OwnerFacts(g, r);
    TakeLocal(g.reqs[r], q);
    MqKeep(g.reqs, g.mq, r, q);
    WorkKeep(g.reqs, g.sdoDepth, q.node, g.nodes[q.node], r, q);
    var g' := NextTodo(g);
    LoadFits(g'.reqs, g'.nodes, g'.todo, r, CANCELED);
    MoveReq(g, g', r, q);
  }

  // ------------------------------------------------------ detach a node's work

  function Detached(reqs: map<Rid, Req>, w: seq<Rid>): map<Rid, Req> {
    map r | r in reqs :: if r in w then reqs[r].(loc := InTodo) else reqs[r]
  }

  /** Every request in w is filed under node n. */
  predicate Filed(reqs: map<Rid, Req>, n: Node, w: seq<Rid>) {
    && NoDup(w)
    && forall i | 0 <= i < |w| ::
         w[i] in reqs && reqs[w[i]].node == n && (reqs[w[i]].loc.InPending? || reqs[w[i]].loc.IsActive?)
  }

  lemma WorkFiled(reqs: map<Rid, Req>, depth: nat, n: Node, w: Work)
    requires WorkOk(reqs, depth, n, w)
    ensures Filed(reqs, n, NodeWork(w))
    ensures forall x | x in w.pending :: x in NodeWork(w)
    ensures w.active.Some? ==> w.active.value in NodeWork(w)
  {
  }

  lemma StartedOnly(reqs: map<Rid, Req>, depth: nat, n: Node, w: Work)
    requires WorkOk(reqs, depth, n, w)
    ensures SubSeq(w.started + [], w.dispatched)
  {
    SubSeqPrefix(w.started + w.pending, |w.started|, w.dispatched);
    assert (w.started + w.pending)[..|w.started|] == w.started + [];
  }

  lemma DetachLocal(q: Req)
    requires ReqOk(q) && (q.loc.InPending? || q.loc.IsActive?)
    ensures ReqOk(q.(loc := InTodo)) && Tolerable(q, q.(loc := InTodo), None)
  {
  }

  lemma DetachReqs(reqs: map<Rid, Req>, n: Node, w: seq<Rid>)
    requires ReqsOk(reqs) && Filed(reqs, n, w)
    ensures ReqsOk(Detached(reqs, w)) && StagedPins(Detached(reqs, w)) == StagedPins(reqs)
  {
    hide ReqOk, Tolerable;
    var reqs' := Detached(reqs, w);
    forall r | r in reqs' ensures ReqOk(reqs'[r]) { if r in w { DetachLocal(reqs[r]); } }
  }

  lemma DetachThreads(reqs: map<Rid, Req>, acts: map<Tid, Actor>, n: Node, w: seq<Rid>)
    requires ReqsOk(reqs) && ActsTyped(reqs, acts) && ThreadsOk(reqs, acts) && Filed(reqs, n, w)
    ensures ActsTyped(Detached(reqs, w), acts) && ThreadsOk(Detached(reqs, w), acts)
  {
    hide ReqOk, Tolerable, ActorReq;
    var reqs' := Detached(reqs, w);
    forall r | r in reqs' ensures HeldBy(acts, r, reqs'[r]) { assert HeldBy(acts, r, reqs[r]); }
    forall t | t in acts ensures Named(reqs', ReqOfActor(acts[t])) && ActorInv(reqs', t, acts[t]) {
      assert ActorInv(reqs, t, acts[t]);
      if ReqOfActor(acts[t]).Some? && ReqOfActor(acts[t]).value in w {
        var r := ReqOfActor(acts[t]).value;
        DetachLocal(reqs[r]);
        ActorTolerates(t, acts[t], reqs[r], reqs[r].(loc := InTodo), None);
      }
    }
  }

  lemma DetachOther(reqs: map<Rid, Req>, depth: nat, n: Node, s: seq<Rid>, m: Node, w: Work)
    requires Filed(reqs, n, s) && m != n && WorkOk(reqs, depth, m, w)
    ensures WorkOk(Detached(reqs, s), depth, m, w)
  {
  }

  lemma DetachMq(reqs: map<Rid, Req>, nodes: map<Node, Work>, n: Node, s: seq<Rid>, mq: seq<Cmd>)
    requires Filed(reqs, n, s) && MqInv(reqs, mq) && MqTyped(reqs, nodes, mq)
    ensures MqInv(Detached(reqs, s), mq) && MqTyped(Detached(reqs, s), nodes, mq)
  {
  }

  lemma DetachTodo(reqs: map<Rid, Req>, n: Node, s: seq<Rid>)
    requires Filed(reqs, n, s)
    ensures TodoOk(Detached(reqs, s), s)
  {
  }

  lemma DetachPlaced(reqs: map<Rid, Req>, nodes: map<Node, Work>, n: Node, w': Work, mq: seq<Cmd>, r: Rid)
    requires r in reqs && n in nodes && reqs[r].node in nodes && PlacedIn(nodes, mq, [], OFree, r, reqs[r])
    requires Filed(reqs, n, NodeWork(nodes[n]))
    requires forall x | x in nodes[n].pending :: x in NodeWork(nodes[n])
    requires nodes[n].active.Some? ==> nodes[n].active.value in NodeWork(nodes[n])
    ensures PlacedIn(nodes[n := w'], mq, NodeWork(nodes[n]), OFree, r, Detached(reqs, NodeWork(nodes[n]))[r])
  {
  }

  lemma DetachOwner(reqs: map<Rid, Req>, nodes: map<Node, Work>, depth: nat, mq: seq<Cmd>, n: Node)
    requires OwnerTyped(reqs, nodes, mq, [], OFree) && OwnerOk(reqs, nodes, depth, mq, [], OFree) && n in nodes
    ensures Filed(reqs, n, NodeWork(nodes[n]))
    ensures var s, nodes' := NodeWork(nodes[n]), nodes[n := nodes[n].(active := None, pending := [])];
            OwnerTyped(Detached(reqs, s), nodes', mq, s, OFree) && OwnerOk(Detached(reqs, s), nodes', depth, mq, s, OFree)
  {
    hide MqInv, TodoInv, PlacedIn, SubSeq, NodeWork, Filed, WorkTyped, NodeInv;
    var s, w' := NodeWork(nodes[n]), nodes[n].(active := None, pending := []);
    var reqs', nodes' := Detached(reqs, s), nodes[n := w'];
    WorkFiled(reqs, depth, n, nodes[n]);
    StartedOnly(reqs, depth, n, nodes[n]);
    DetachMq(reqs, nodes, n, s, mq);
    DetachTodo(reqs, n, s);
    forall m | m in nodes' ensures WorkOk(reqs', depth, m, nodes'[m]) {
      if m != n { DetachOther(reqs, depth, n, s, m, nodes[m]); } else { EmptiedOk(reqs', depth, n, nodes[n]); }
    }
    forall r | r in reqs' ensures PlacedIn(nodes', mq, s, OFree, r, reqs'[r]) {
      DetachPlaced(reqs, nodes, n, w', mq, r);
    }
    MqNodes(reqs', nodes, nodes', mq);
  }

  lemma EmptiedOk(reqs: map<Rid, Req>, depth: nat, n: Node, w: Work)
    requires SubSeq(w.started + [], w.dispatched)
    ensures WorkOk(reqs, depth, n, w.(active := None, pending := []))
  {
  }

  lemma MqNodes(reqs: map<Rid, Req>, nodes: map<Node, Work>, nodes': map<Node, Work>, mq: seq<Cmd>)
    requires MqTyped(reqs, nodes, mq) && nodes.Keys == nodes'.Keys
    ensures MqTyped(reqs, nodes', mq)
  {
  }

  lemma CancelNodeInv(g: State, n: Node)
    requires Inv(g) && n in g.nodes && OwnerFree(g) && (g.stage.Run? || g.stage.CancelAll?)
    ensures Inv(CancelNode(g, n)) && Empty(CancelNode(g, n).nodes[n])
  {
    hide OwnerTyped, OwnerOk, ReqsOk, ThreadsOk, StageThreads, NodeWork, Filed;
    DetachOwner(g.reqs, g.nodes, g.sdoDepth, g.mq, n);
    var s := NodeWork(g.nodes[n]);
    DetachReqs(g.reqs, n, s);
    DetachThreads(g.reqs, g.acts, n, s);
    assert CancelNode(g, n).reqs == Detached(g.reqs, s);
  }

  // -------------------------------------------------------------- life cycle

  /** An owner step that changes only admission flags and its own stage. */
  predicate StageOnly(g: State, g': State) {
    g' == g.(latch := g'.latch, quiescing := g'.quiescing, cbQuiescing := g'.cbQuiescing, mqOpen := g'.mqOpen, stage := g'.stage)
  }

  lemma StageMove(g: State, g': State)
    requires Inv(g) && StageOnly(g, g')
    requires StageThreads(g'.stage, g.acts) && StageOwner(g'.stage, g.nodes, g.mq, g.todo, g.pc)
    requires var k := Rank(g'.stage);
             (k >= 6 ==> g'.latch) && (k >= 9 ==> g'.cbQuiescing) && (k >= 12 ==> StagedPins(g.reqs) == {}) && (!g'.mqOpen ==> k >= 13)
    ensures Inv(g')
  {
  }

  lemma StageOf(g: State)
    requires Inv(g)
    ensures StageThreads(g.stage, g.acts) && StageOwner(g.stage, g.nodes, g.mq, g.todo, g.pc) && CountsOk(g) && StageFlags(g)
    ensures forall n | n in g.nodes :: 1 <= n <= NmtGate.NUM_NODES
  {
  }

  lemma ThreadsLater(s: Stage, s': Stage, acts: map<Tid, Actor>)
    requires StageThreads(s, acts)
    requires Rank(s') >= 8 ==> Rank(s) >= 8 || CmdHolders(acts) == {}
    requires Rank(s') >= 14 ==> Rank(s) >= 14 || CbHolders(acts) == {}
    ensures StageThreads(s', acts)
  {
    hide HoldsCmd, HoldsCb;
    forall t | t in acts ensures StageActor(s', acts[t]) {
      assert StageActor(s, acts[t]);
      assert HoldsCmd(acts[t]) ==> t in CmdHolders(acts);
      assert HoldsCb(acts[t]) ==> t in CbHolders(acts);
    }
  }

  /** No thread holds a command reference, so none is inside the queue section. */
  lemma NoHolders(g: State)
    requires CountsOk(g)
    ensures g.cmdRefs == 0 ==> CmdHolders(g.acts) == {}
    ensures g.cbRefs == 0 ==> CbHolders(g.acts) == {}
    ensures g.cancelRefs == 0 && g.pc.OFree? ==> StagedPins(g.reqs) == {}
  {
  }

  lemma OwnerLater(s: Stage, s': Stage, nodes: map<Node, Work>, mq: seq<Cmd>)
    requires StageOwner(s, nodes, mq, [], OFree) && !s.CancelAll?
    requires Rank(s') < 4 ==> Rank(s) < 4
    requires Rank(s') >= 10 ==> mq == []
    requires Rank(s') >= 11 ==> Rank(s) >= 11
    requires s'.CancelAll? ==> s'.next == 1 && 0 !in nodes
    ensures StageOwner(s', nodes, mq, [], OFree)
  {
  }

  lemma OpenStages(g: State)
    requires Inv(g) && Typed(g) && OwnerFree(g) && Rank(g.stage) < 4
    ensures Inv(StageStep(g))
  {
    hide Inv, Typed, CancelNode, CmdHolders, CbHolders, StagedPins, CountsOk, StageThreads, StageOwner;
    StageOf(g);
    var g' := StageStep(g);
    ThreadsLater(g.stage, g'.stage, g.acts);
    OwnerLater(g.stage, g'.stage, g.nodes, g.mq);
    StageMove(g, g');
  }

  lemma LatchStages(g: State)
    requires Inv(g) && Typed(g) && OwnerFree(g) && 4 <= Rank(g.stage) < 7
    ensures Inv(StageStep(g))
  {
    hide Inv, Typed, CancelNode, CmdHolders, CbHolders, StagedPins, CountsOk, StageThreads, StageOwner;
    StageOf(g);
    var g' := StageStep(g);
    ThreadsLater(g.stage, g'.stage, g.acts);
    OwnerLater(g.stage, g'.stage, g.nodes, g.mq);
    StageMove(g, g');
  }

  lemma CloseStages(g: State)
    requires Inv(g) && Typed(g) && OwnerFree(g) && 7 <= Rank(g.stage) < 10
    ensures Inv(StageStep(g))
  {
    hide Inv, Typed, CancelNode, CmdHolders, CbHolders, StagedPins, CountsOk, StageThreads, StageOwner;
    StageOf(g);
    NoHolders(g);
    var g' := StageStep(g);
    ThreadsLater(g.stage, g'.stage, g.acts);
    OwnerLater(g.stage, g'.stage, g.nodes, g.mq);
    StageMove(g, g');
  }

  lemma ExitStages(g: State)
    requires Inv(g) && Typed(g) && OwnerFree(g) && Rank(g.stage) > 10
    ensures Inv(StageStep(g))
  {
    hide Inv, Typed, CancelNode, CmdHolders, CbHolders, StagedPins, CountsOk, StageThreads, StageOwner;
    StageOf(g);
    NoHolders(g);
    MqEmpty(g);
    var g' := StageStep(g);
    ThreadsLater(g.stage, g'.stage, g.acts);
    OwnerLater(g.stage, g'.stage, g.nodes, g.mq);
    StageMove(g, g');
  }

  lemma MqEmpty(g: State)
    requires StageOwner(g.stage, g.nodes, g.mq, g.todo, g.pc) && Rank(g.stage) >= 10
    ensures g.mq == []
  {
  }

  lemma CancelAllStage(g: State)
    requires Inv(g) && Typed(g) && OwnerFree(g) && g.stage.CancelAll?
    ensures Inv(StageStep(g))
  {
    hide Inv, CountsOk, StageThreads, NodeWork;
    var n := g.stage.next;
    var g1 := g;
    if n in g.nodes && n <= NmtGate.NUM_NODES { CancelNodeInv(g, n); g1 := CancelNode(g, n); }
    StageOf(g);
    StageOf(g1);
    var g' := StageStep(g);
    ThreadsLater(g.stage, g'.stage, g.acts);
    StageMove(g1, g');
  }

  /** Every step of the owner keeps the invariant. */
  lemma OwnerPreserves(g: State, l: OwnerLabel)
    requires Inv(g) && Typed(g) && OwnerEnabled(g, l)
    ensures Inv(OwnerStep(g, l))
  {
    hide Inv, Typed, Recv, Confirm, CancelNode, Claim, Start, Head, CancelQueued, NextTodo, OwnerComplete, StageStep;
    match l
    case RecvL(avail) => RecvStep(g, avail);
    case ConfirmL(n, ac, copied) => ConfirmStep(g, n, ac, copied);
    case CancelNodeL(n) => CancelNodeInv(g, n);
    case ReapL(n) => PcOnly(g, OHead(n));
    case ClaimL => ClaimStep(g);
    case StartL(outcome) => StartStep(g, outcome);
    case HeadL => HeadFacts(g); HeadStep(g);
    case QueuedL => QueuedStep(g);
    case NextL => NextStep(g);
    case CompleteL => CompleteStep(g);
    case StageL =>
      if g.stage.CancelAll? { CancelAllStage(g); }
      else if Rank(g.stage) < 4 { OpenStages(g); }
      else if Rank(g.stage) < 7 { LatchStages(g); }
      else if Rank(g.stage) < 10 { CloseStages(g); }
      else { ExitStages(g); }
  }
}
