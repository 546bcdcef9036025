/** Owner steps on the request in its hand: claim, start, teardown cancel and the detached list. */
module SdoOwnerClaim {
  import opened Options
  import opened SdoModel
  import opened SdoInvariant
  import opened SdoFrame
  import opened SdoOwnerSteps
  import opened SdoOwnerLists

  /** The owner's program counter names r, which it holds. */
  lemma Holding(g: State, r: Rid)
    requires Inv(g) && ReqOfPc(g.pc) == Some(r) && (g.pc.ODispatch? || g.pc.OStart? || g.pc.OQueuedLoad? || g.pc.OQueuedCas?)
    ensures r in g.reqs && ReqOk(g.reqs[r]) && g.reqs[r].loc.OwnerHand? && g.reqs[r].node in g.nodes && g.todo == []
    ensures !g.reqs[r].pub.ByOwner? && PcReq(g.pc, g.reqs[r])
    ensures g.pc.OStart? ==> g.nodes[g.reqs[r].node].active.None?
    ensures if g.pc.OQueuedLoad? || g.pc.OQueuedCas? then g.stage.Drain? else g.stage.Run?
  {
    hide ReqOk, ThreadsOk, StageThreads, CountsOk, StageFlags, PlacedIn, MqInv, TodoInv, NodeInv, WorkTyped;
    PcNamed(g);
    assert ReqOk(g.reqs[r]);
  }

  /** The owner rewrites the record in its hand and keeps or files it under its node. */
  lemma Rewrite(g: State, r: Rid, q: Req, w: Work, pc: OPc)
    requires Inv(g) && ReqOfPc(g.pc) == Some(r) && (g.pc.ODispatch? || g.pc.OStart? || g.pc.OQueuedLoad? || g.pc.OQueuedCas?)
    requires r in g.reqs && g.reqs[r].node in g.nodes && q.node == g.reqs[r].node
    requires OwnerChange(g.reqs[r], q) && q.pinOwner == g.reqs[r].pinOwner && !q.pub.ByOwner?
    requires WorkOk(g.reqs[r := q], g.sdoDepth, q.node, w)
    requires w.pending == g.nodes[q.node].pending || w.pending == g.nodes[q.node].pending + [r]
    requires w.active == g.nodes[q.node].active || g.nodes[q.node].active.None?
    requires (q.loc.OwnerHand? && Hand(pc) == Some(r)) || (q.loc.InPending? && r in w.pending)
             || (q.loc.IsActive? && w.active == Some(r))
    requires PcFits(g.reqs[r := q], g.nodes[q.node := w], g.todo, pc)
    requires pc.OFree? || pc.OLoad? || (pc.OStart? && g.stage.Run?) || (pc.OQueuedCas? && g.stage.Drain?)
    requires g.stage.Run? || g.stage.Drain?
    ensures Inv(With(OnNode(g, q.node, w), r, q).(pc := pc))
  {
    hide Inv, OwnerChange, ReqOk, OwnerTyped, OwnerOk, WorkOk, MqTyped, MqInv, TodoOk, PcFits, PcReq;
    Holding(g, r);
    OwnerFacts(g, r);
    MqKeep(g.reqs, g.mq, r, q);
    TodoKeep(g.reqs, g.todo, r, q);
    MoveReq(g, With(OnNode(g, q.node, w), r, q).(pc := pc), r, q);
  }

  // ---------------------------------------------------------------------- claim

  lemma ClaimLocal(q: Req, q': Req)
    requires ReqOk(q) && q.loc.OwnerHand? && q.st.Queued? && !q.pub.ByOwner?
    requires q' == q.(st := Active) || q' == q.(st := Pending, loc := InPending) || q' == q.(st := TeardownPending, cancelRequested := true)
    ensures OwnerChange(q, q')
  {
  }

  lemma FlagLocal(q: Req)
    requires ReqOk(q) && q.loc.OwnerHand?
    ensures OwnerChange(q, q.(cancelRequested := true))
  {
  }

  lemma ClaimBusy(g: State, r: Rid)
    requires Inv(g) && g.pc.ODispatch? && g.pc.r == r && r in g.reqs && g.reqs[r].node in g.nodes && g.reqs[r].st.Queued?
    ensures var q, w := g.reqs[r], g.nodes[g.reqs[r].node];
            Inv(With(OnNode(g, q.node, w.(dispatched := w.dispatched + [r])), r, q.(st := Active)).(
                  pc := OLoad(r, Result(LocalError, EBusy, 0))))
  {
    hide Inv, OwnerChange, ReqOk, WorkOk, PcFits;
    Holding(g, r);
    var q, w := g.reqs[r], g.nodes[g.reqs[r].node];
    var q', w' := q.(st := Active), w.(dispatched := w.dispatched + [r]);
    ClaimLocal(q, q');
    ActiveFacts(g, q.node);
    DispatchedIn(g.reqs, g.sdoDepth, q.node, w, r, q');
    LoadFits(g.reqs[r := q'], g.nodes[q.node := w'], g.todo, r, Result(LocalError, EBusy, 0));
    Rewrite(g, r, q', w', OLoad(r, Result(LocalError, EBusy, 0)));
  }

  lemma ClaimPending(g: State, r: Rid)
    requires Inv(g) && g.pc.ODispatch? && g.pc.r == r && r in g.reqs && g.reqs[r].node in g.nodes && g.reqs[r].st.Queued?
    requires |g.nodes[g.reqs[r].node].pending| < g.sdoDepth
    ensures var q, w := g.reqs[r], g.nodes[g.reqs[r].node];
            Inv(With(OnNode(g, q.node, w.(pending := w.pending + [r], dispatched := w.dispatched + [r])), r,
                     q.(st := Pending, loc := InPending)).(pc := OFree))
  {
    hide Inv, OwnerChange, ReqOk, WorkOk;
    Holding(g, r);
    var q, w := g.reqs[r], g.nodes[g.reqs[r].node];
    var q', w' := q.(st := Pending, loc := InPending), w.(pending := w.pending + [r], dispatched := w.dispatched + [r]);
    ClaimLocal(q, q');
    ActiveFacts(g, q.node);
    PendingIn(g.reqs, g.sdoDepth, q.node, w, r, q');
    assert w'.pending[|w.pending|] == r;
    Rewrite(g, r, q', w', OFree);
  }

  lemma ClaimStart(g: State, r: Rid)
    requires Inv(g) && g.pc.ODispatch? && g.pc.r == r && r in g.reqs && g.reqs[r].node in g.nodes && g.reqs[r].st.Queued?
    requires Empty(g.nodes[g.reqs[r].node])
    ensures var q, w := g.reqs[r], g.nodes[g.reqs[r].node];
            Inv(With(OnNode(g, q.node, w.(started := w.started + [r], dispatched := w.dispatched + [r])), r,
                     q.(st := Active)).(pc := OStart(r)))
  {
    hide Inv, OwnerChange, ReqOk, WorkOk, PcFits;
    Holding(g, r);
    var q, w := g.reqs[r], g.nodes[g.reqs[r].node];
    var q', w' := q.(st := Active), w.(started := w.started + [r], dispatched := w.dispatched + [r]);
    ClaimLocal(q, q');
    ActiveFacts(g, q.node);
    StartedIn(g.reqs, g.sdoDepth, q.node, w, r, q');
    StartFits(g.reqs[r := q'], g.nodes[q.node := w'], g.todo, r);
    Rewrite(g, r, q', w', OStart(r));
  }

  lemma ClaimCanceled(g: State, r: Rid)
    requires Inv(g) && g.pc.ODispatch? && g.pc.r == r && r in g.reqs && g.reqs[r].node in g.nodes && g.reqs[r].st.CancelPending?
    ensures var q, w := g.reqs[r], g.nodes[g.reqs[r].node];
            Inv(With(OnNode(g, q.node, w.(dispatched := w.dispatched + [r])), r, q.(cancelRequested := true)).(
                  pc := OLoad(r, CANCELED)))
  {
    hide Inv, OwnerChange, ReqOk, WorkOk, PcFits;
    Holding(g, r);
    var q, w := g.reqs[r], g.nodes[g.reqs[r].node];
    var q', w' := q.(cancelRequested := true), w.(dispatched := w.dispatched + [r]);
    FlagLocal(q);
    ActiveFacts(g, q.node);
    DispatchedIn(g.reqs, g.sdoDepth, q.node, w, r, q');
    LoadFits(g.reqs[r := q'], g.nodes[q.node := w'], g.todo, r, CANCELED);
    Rewrite(g, r, q', w', OLoad(r, CANCELED));
  }

  lemma ClaimStep(g: State)
    requires Inv(g) && Typed(g) && g.pc.ODispatch?
    ensures Inv(Claim(g))
  {
    hide Inv, Typed, ReqOk;
    var r := g.pc.r;
    Holding(g, r);
    var q, w := g.reqs[r], g.nodes[g.reqs[r].node];
    if q.st.CancelPending? {
      ClaimCanceled(g, r);
    } else {
      match Judge(g.pc.avail, w, g.sdoDepth)
      case Refuse => ClaimBusy(g, r);
      case Enqueue => ClaimPending(g, r);
      case Begin => ClaimStart(g, r);
    }
  }

  // ---------------------------------------------------------------------- start

  lemma StartLocal(q: Req)
    requires ReqOk(q) && q.loc.OwnerHand? && (q.st.Active? || q.st.ActivePinned?) && !q.pub.ByOwner?
    ensures OwnerChange(q, q.(loc := IsActive, starts := q.starts + 1))
    ensures OwnerChange(q, q) && !q.won
  {
  }

  lemma StartStep(g: State, outcome: StartOutcome)
    requires Inv(g) && Typed(g) && g.pc.OStart?
    ensures Inv(Start(g, outcome))
  {
    hide Inv, Typed, ReqOk, OwnerChange, WorkOk, PcFits;
    var r := g.pc.r;
    Holding(g, r);
    var q := g.reqs[r];
    var w := g.nodes[q.node];
    StartLocal(q);
    ActiveFacts(g, q.node);
    match outcome
    case Issued =>
      var q' := q.(loc := IsActive, starts := q.starts + 1);
      ActiveIn(g.reqs, g.sdoDepth, q.node, w, r, q');
      FreeFits(g.reqs[r := q'], g.nodes[q.node := w.(active := Some(r))], g.todo);
      Rewrite(g, r, q', w.(active := Some(r)), OFree);
    case NotIssued(err) =>
      var pc := OLoad(r, Result(LocalError, err, 0));
      assert g.reqs[r := q] == g.reqs && g.nodes[q.node := w] == g.nodes;
      LoadFits(g.reqs, g.nodes, g.todo, r, pc.res);
      Rewrite(g, r, q, w, pc);
      assert With(OnNode(g, q.node, w), r, q).(pc := pc) == g.(pc := pc);
  }

  lemma FreeFits(reqs: map<Rid, Req>, nodes: map<Node, Work>, todo: seq<Rid>)
    ensures PcFits(reqs, nodes, todo, OFree)
  {
  }

  // ------------------------------------------------------------ teardown cancel

  lemma QueuedLocal(pc: OPc, r: Rid, q: Req)
    requires (pc.OQueuedLoad? || pc.OQueuedCas?) && PcReq(pc, q) && ReqOk(q)
    ensures var q', pc' := QueuedReq(pc, q), QueuedPc(pc, r, q);
            && OwnerChange(q, q') && q'.pinOwner == q.pinOwner && q'.node == q.node && q'.loc.OwnerHand? && !q'.pub.ByOwner?
            && ((pc' == OQueuedCas(r) && q'.st.Queued?)
                || (pc'.OLoad? && pc'.r == r && !q'.st.Queued? && pc'.res.status.Canceled?))
  {
  }

  lemma QueuedStep(g: State)
    requires Inv(g) && Typed(g) && (g.pc.OQueuedLoad? || g.pc.OQueuedCas?)
    ensures Inv(CancelQueued(g))
  {
    hide Inv, Typed, ReqOk, OwnerChange, WorkOk, PcFits, QueuedReq, QueuedPc, PcReq;
    var r := g.pc.r;
    Holding(g, r);
    var q, w := g.reqs[r], g.nodes[g.reqs[r].node];
    var q', pc' := QueuedReq(g.pc, q), QueuedPc(g.pc, r, q);
    QueuedLocal(g.pc, r, q);
    assert g.nodes[q.node := w] == g.nodes;
    if pc'.OLoad? {
      LoadFits(g.reqs[r := q'], g.nodes, g.todo, r, pc'.res);
    } else {
      QueuedFits(g.reqs[r := q'], g.nodes, g.todo, r);
    }
    ActiveFacts(g, q.node);
    WorkKeep(g.reqs, g.sdoDepth, q.node, w, r, q');
    Rewrite(g, r, q', w, pc');
  }

  lemma QueuedFits(reqs: map<Rid, Req>, nodes: map<Node, Work>, todo: seq<Rid>, r: Rid)
    requires r in reqs && reqs[r].loc.OwnerHand? && !reqs[r].pub.ByOwner? && reqs[r].st.Queued? && todo == []
    ensures PcFits(reqs, nodes, todo, OQueuedCas(r))
  {
  }
}
