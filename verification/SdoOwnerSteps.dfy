/** Every step of the owner thread keeps the invariant. */
module SdoOwnerSteps {
  import opened Options
  import opened SdoModel
  import opened SdoInvariant
  import opened SdoFrame
  import opened SdoOrder

  // ------------------------------------------------------------------- complete

  /** Fields the owner may rely on for the request its program counter names. */
  predicate OwnerBefore(pc: OPc, r: Rid, q: Req) {
    ReqOk(q) && ReqOfPc(pc) == Some(r) && PcReq(pc, q)
  }

  lemma CompleteChange(pc: OPc, r: Rid, q: Req)
    requires InComplete(pc) && OwnerBefore(pc, r, q)
    ensures OwnerChange(q, CompleteReq(pc, q)) && CompleteReq(pc, q).node == q.node
  {
  }

  lemma CompletePlace(pc: OPc, r: Rid, q: Req)
    requires InComplete(pc) && OwnerBefore(pc, r, q)
    ensures var q', pc' := CompleteReq(pc, q), CompletePc(pc, q);
            && (q'.loc.OwnerHand? || q'.loc.Gone?)
            && (q'.loc.OwnerHand? ==> Hand(pc') == Some(r)) && (q'.pub.ByOwner? ==> OwnerPub(pc') == Some(r))
            && (pc' == OFree || (ReqOfPc(pc') == Some(r) && PcReq(pc', q') && InComplete(pc')))
            && Speculative(pc') - Speculative(pc) + B(q'.pinOwner.Some?) - B(q.pinOwner.Some?) == CompleteDelta(pc)
            && (q.loc.OwnerHand? || q.loc.Gone?)
  {
  }

  lemma CompleteOwner(g: State)
    requires Inv(g) && InComplete(g.pc)
    ensures var g' := OwnerComplete(g);
            OwnerTyped(g'.reqs, g'.nodes, g'.mq, g'.todo, g'.pc)
            && OwnerOk(g'.reqs, g'.nodes, g'.sdoDepth, g'.mq, g'.todo, g'.pc)
  {
    hide NodeInv, WorkTyped, TodoInv, PcOk, ReqOk, ThreadsOk, StageThreads, StageOwner, CountsOk, StageFlags,
         WorkOk, MqTyped, MqInv, TodoOk, OwnerOk, OwnerTyped, PcReq, CompleteReq, CompletePc, OwnerPub, Hand, OwnerChange;
    var r := ReqOfPc(g.pc).value;
    PcNamed(g);
    var q := g.reqs[r];
    var q', pc' := CompleteReq(g.pc, q), CompletePc(g.pc, q);
    OwnerParts(g.reqs, g.nodes, g.sdoDepth, g.mq, g.todo, g.pc, r);
    assert ReqOk(q);
    PcFacts(g.reqs, g.nodes, g.todo, g.pc, r);
    CompleteChange(g.pc, r, q);
    CompletePlace(g.pc, r, q);
    MqKeep(g.reqs, g.mq, r, q');
    TodoKeep(g.reqs, g.todo, r, q');
    WorkKeep(g.reqs, g.sdoDepth, q.node, g.nodes[q.node], r, q');
    CompleteFits(g.reqs[r := q'], g.nodes, g.todo, pc', r, q');
    HandIs(g.pc, r);
    OwnerReplace(g.reqs, g.sdoDepth, r, q', q.node, g.nodes, g.nodes, g.mq, g.mq, g.todo, g.todo, g.pc, pc');
  }

  lemma HandIs(pc: OPc, r: Rid)
    requires ReqOfPc(pc) == Some(r)
    ensures (Hand(pc) == None || Hand(pc) == Some(r)) && (OwnerPub(pc) == None || OwnerPub(pc) == Some(r))
  {
  }

  lemma PcNamed(g: State)
    requires Inv(g)
    ensures Named(g.reqs, ReqOfPc(g.pc))
  {
  }

  lemma PcFacts(reqs: map<Rid, Req>, nodes: map<Node, Work>, todo: seq<Rid>, pc: OPc, r: Rid)
    requires r in reqs && ReqOfPc(pc) == Some(r) && PcFits(reqs, nodes, todo, pc)
    ensures PcReq(pc, reqs[r])
  {
  }

  lemma CompleteFits(reqs: map<Rid, Req>, nodes: map<Node, Work>, todo: seq<Rid>, pc: OPc, r: Rid, q: Req)
    requires r in reqs && reqs[r] == q
    requires pc == OFree || (ReqOfPc(pc) == Some(r) && PcReq(pc, q) && InComplete(pc))
    ensures PcFits(reqs, nodes, todo, pc)
  {
  }

  lemma CompleteStep(g: State)
    requires Inv(g) && InComplete(g.pc) && Typed(g)
    ensures Inv(OwnerComplete(g))
  {
    hide Inv, Typed, CompleteReq, CompletePc, CompleteDelta, Speculative, OwnerOk, OwnerTyped, StageOwner, PcReq, OwnerPub, Hand;
    var r := ReqOfPc(g.pc).value;
    PcNamed(g);
    var q := g.reqs[r];
    HandFacts(g, r);
    CompleteChange(g.pc, r, q);
    CompletePlace(g.pc, r, q);
    CompleteOwner(g);
    CompleteStage(g, CompletePc(g.pc, q), r);
    OwnReq(g, OwnerComplete(g), r, CompleteReq(g.pc, q));
  }

  lemma HandFacts(g: State, r: Rid)
    requires Inv(g) && r in g.reqs && ReqOfPc(g.pc) == Some(r)
    ensures ReqOk(g.reqs[r]) && PcReq(g.pc, g.reqs[r])
  {
  }

  lemma CompleteStage(g: State, pc': OPc, r: Rid)
    requires Inv(g) && InComplete(g.pc) && (pc' == OFree || InComplete(pc'))
    ensures StageOwner(g.stage, g.nodes, g.mq, g.todo, pc') && Rank(g.stage) < 12
  {
    hide ReqOk, PcReq, NodeInv, WorkTyped, ThreadsOk, StageThreads, CountsOk, MqInv, TodoInv, PlacedIn, OwnerOk, OwnerTyped;
  }

  // ------------------------------------------------------- moving one request

  /** The owner moves request r between its lists; the runtime pins stay as they are. */
  lemma MoveReq(g: State, g': State, r: Rid, q: Req)
    requires Inv(g) && r in g.reqs && q.node == g.reqs[r].node && q.node in g.nodes && q.node in g'.nodes
    requires g' == g.(reqs := g.reqs[r := q], nodes := g'.nodes, mq := g'.mq, todo := g'.todo, pc := g'.pc,
                      received := g'.received)
    requires OwnerChange(g.reqs[r], q) && q.pinOwner == g.reqs[r].pinOwner
    requires Speculative(g.pc) == Speculative(g'.pc)
    requires OthersStay(r, q.node, g.nodes, g'.nodes, g.mq, g'.mq, g.todo, g'.todo, g.pc, g'.pc)
    requires PlacedIn(g'.nodes, g'.mq, g'.todo, g'.pc, r, q)
    requires WorkOk(g'.reqs, g.sdoDepth, q.node, g'.nodes[q.node])
    requires MqTyped(g.reqs, g.nodes, g'.mq) && MqInv(g'.reqs, g'.mq) && TodoOk(g'.reqs, g'.todo)
    requires PcFits(g'.reqs, g'.nodes, g'.todo, g'.pc)
    requires StageOwner(g'.stage, g'.nodes, g'.mq, g'.todo, g'.pc)
    requires |g'.mq| <= |g.mq| && g'.received + g'.mq == g.received + g.mq
    ensures Inv(g')
  {
    hide Inv, OwnerChange, Speculative, OwnerTyped, OwnerOk, PlacedIn, OthersStay, WorkOk, MqTyped, MqInv, TodoOk, PcFits, StageOwner;
    InvOwner(g);
    OwnerReplace(g.reqs, g.sdoDepth, r, q, q.node, g.nodes, g'.nodes, g.mq, g'.mq, g.todo, g'.todo, g.pc, g'.pc);
    OwnReq(g, g', r, q);
  }

  lemma InvOwner(g: State)
    requires Inv(g)
    ensures OwnerTyped(g.reqs, g.nodes, g.mq, g.todo, g.pc) && OwnerOk(g.reqs, g.nodes, g.sdoDepth, g.mq, g.todo, g.pc)
    ensures StageOwner(g.stage, g.nodes, g.mq, g.todo, g.pc)
    ensures |g.mq| <= g.mqDepth && g.sent == g.received + g.mq
  {
  }

  /** What the owner knows of request r and of its node. */
  lemma OwnerFacts(g: State, r: Rid)
    requires Inv(g) && r in g.reqs
    ensures ReqOk(g.reqs[r]) && g.reqs[r].node in g.nodes
    ensures PlacedIn(g.nodes, g.mq, g.todo, g.pc, r, g.reqs[r])
    ensures WorkOk(g.reqs, g.sdoDepth, g.reqs[r].node, g.nodes[g.reqs[r].node])
    ensures MqTyped(g.reqs, g.nodes, g.mq) && MqInv(g.reqs, g.mq) && TodoOk(g.reqs, g.todo)
    ensures PcFits(g.reqs, g.nodes, g.todo, g.pc)
    ensures StageOwner(g.stage, g.nodes, g.mq, g.todo, g.pc)
  {
    hide Inv, OwnerTyped, OwnerOk, PlacedIn, WorkOk, MqTyped, MqInv, TodoOk, PcFits, StageOwner, ReqOk;
    InvOwner(g);
    ReqsFact(g, r);
    OwnerParts(g.reqs, g.nodes, g.sdoDepth, g.mq, g.todo, g.pc, r);
  }

  lemma ReqsFact(g: State, r: Rid)
    requires Inv(g) && r in g.reqs
    ensures ReqOk(g.reqs[r])
  {
    hide ReqOk, ThreadsOk, OwnerOk, StageThreads, StageOwner, CountsOk, StageFlags;
  }

  // ------------------------------------------------------------ command receive

  lemma PopLocal(q: Req)
    requires ReqOk(q) && q.loc.InQueue?
    ensures OwnerChange(q, q.(loc := OwnerHand))
    ensures (q.st.Queued? || q.st.CancelPending?) && !q.pub.ByOwner?
  {
  }

  lemma MqHead(reqs: map<Rid, Req>, mq: seq<Cmd>)
    requires mq != [] && mq[0].SdoCmd? && MqInv(reqs, mq)
    ensures mq[0].r in reqs && reqs[mq[0].r].loc.InQueue?
  {
  }

  lemma MqPop(reqs: map<Rid, Req>, nodes: map<Node, Work>, mq: seq<Cmd>, r: Rid, q: Req)
    requires mq != [] && mq[0] == SdoCmd(r) && MqTyped(reqs, nodes, mq) && MqInv(reqs, mq)
    ensures MqTyped(reqs, nodes, mq[1..]) && MqInv(reqs[r := q], mq[1..])
    ensures forall c | c in mq && c.SdoCmd? && c.r != r :: c in mq[1..]
  {
  }

  lemma RecvSdo(g: State, avail: bool)
    requires Inv(g) && Typed(g) && OwnerEnabled(g, RecvL(avail)) && g.mq[0].SdoCmd?
    ensures Inv(Recv(g, avail))
  {
    hide Inv, OwnerChange, ReqOk, OwnerTyped, OwnerOk, WorkOk, MqTyped, MqInv, TodoOk;
    InvMq(g);
    var r := g.mq[0].r;
    MqHead(g.reqs, g.mq);
    var q' := g.reqs[r].(loc := OwnerHand);
    MqPop(g.reqs, g.nodes, g.mq, r, q');
    OwnerFacts(g, r);
    PopLocal(g.reqs[r]);
    TodoKeep(g.reqs, g.todo, r, q');
    WorkKeep(g.reqs, g.sdoDepth, q'.node, g.nodes[q'.node], r, q');
    var g' := Recv(g, avail);
    assert g'.received + g'.mq == g.received + g.mq;
    MoveReq(g, g', r, q');
  }

  lemma InvMq(g: State)
    requires Inv(g)
    ensures MqTyped(g.reqs, g.nodes, g.mq) && MqInv(g.reqs, g.mq)
  {
  }

  /** A command that carries no request storage leaves the queue. */
  lemma PopOther(g: State)
    requires Inv(g) && g.mq != [] && !g.mq[0].SdoCmd? && g.pc.OFree?
    ensures Inv(g.(mq := g.mq[1..], received := g.received + [g.mq[0]]))
  {
    hide Inv, OwnerTyped, OwnerOk;
    InvOwner(g);
    var g' := g.(mq := g.mq[1..], received := g.received + [g.mq[0]]);
    assert g'.received + g'.mq == g.received + g.mq;
    PopOtherOwner(g.reqs, g.nodes, g.sdoDepth, g.mq, g.todo, g.pc);
    OwnOnly(g, g');
  }

  lemma PopOtherOwner(reqs: map<Rid, Req>, nodes: map<Node, Work>, depth: nat, mq: seq<Cmd>, todo: seq<Rid>, pc: OPc)
    requires OwnerTyped(reqs, nodes, mq, todo, pc) && OwnerOk(reqs, nodes, depth, mq, todo, pc)
    requires mq != [] && !mq[0].SdoCmd?
    ensures OwnerTyped(reqs, nodes, mq[1..], todo, pc) && OwnerOk(reqs, nodes, depth, mq[1..], todo, pc)
  {
  }
}
