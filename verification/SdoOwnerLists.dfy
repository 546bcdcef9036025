/** Owner steps that move a request between a node's lists, its active slot and the owner's hand. */
module SdoOwnerLists {
  import opened Options
  import opened SdoModel
  import opened SdoInvariant
  import opened SdoFrame
  import opened SdoOrder
  import opened SdoOwnerSteps

  // ---------------------------------------------------------- one node's lists

  lemma ActiveOut(reqs: map<Rid, Req>, depth: nat, n: Node, w: Work, r: Rid, q: Req)
    requires r in reqs && WorkOk(reqs, depth, n, w) && w.active == Some(r)
    ensures WorkOk(reqs[r := q], depth, n, w.(active := None))
  {
  }

  lemma PendingOut(reqs: map<Rid, Req>, depth: nat, n: Node, w: Work, r: Rid, q: Req)
    requires r in reqs && WorkOk(reqs, depth, n, w) && r in w.pending
    ensures WorkOk(reqs[r := q], depth, n, w.(pending := Without(w.pending, r)))
    ensures forall x | x in w.pending && x != r :: x in Without(w.pending, r)
  {
    WithoutMembers(w.pending, r);
    WithoutOrder(w.started, w.pending, r, w.dispatched);
    var p := Without(w.pending, r);
    forall i | 0 <= i < |p| ensures p[i] in reqs && p[i] != r && reqs[p[i]].loc.InPending? && reqs[p[i]].node == n {
      assert p[i] in w.pending;
    }
  }

  lemma HeadOut(reqs: map<Rid, Req>, depth: nat, n: Node, w: Work, q: Req)
    requires WorkOk(reqs, depth, n, w) && w.pending != []
    ensures w.pending[0] in reqs
    ensures WorkOk(reqs[w.pending[0] := q], depth, n,
                   w.(pending := w.pending[1..], started := w.started + [w.pending[0]]))
  {
    assert (w.started + [w.pending[0]]) + w.pending[1..] == w.started + w.pending;
  }

  lemma TailStays(p: seq<Rid>)
    requires p != []
    ensures forall x | x in p && x != p[0] :: x in p[1..]
  {
  }

  lemma PendingIn(reqs: map<Rid, Req>, depth: nat, n: Node, w: Work, r: Rid, q: Req)
    requires r in reqs && WorkOk(reqs, depth, n, w) && reqs[r].loc.OwnerHand? && |w.pending| < depth
    requires q.loc.InPending? && q.node == n
    ensures WorkOk(reqs[r := q], depth, n, w.(pending := w.pending + [r], dispatched := w.dispatched + [r]))
  {
    SubSeqAppend(w.started + w.pending, w.dispatched, r);
    assert (w.started + w.pending) + [r] == w.started + (w.pending + [r]);
  }

  lemma StartedIn(reqs: map<Rid, Req>, depth: nat, n: Node, w: Work, r: Rid, q: Req)
    requires r in reqs && WorkOk(reqs, depth, n, w) && reqs[r].loc.OwnerHand? && Empty(w)
    ensures WorkOk(reqs[r := q], depth, n, w.(started := w.started + [r], dispatched := w.dispatched + [r]))
  {
    assert w.started + w.pending == w.started;
    SubSeqAppend(w.started, w.dispatched, r);
    assert (w.started + [r]) + w.pending == w.started + [r];
  }

  lemma DispatchedIn(reqs: map<Rid, Req>, depth: nat, n: Node, w: Work, r: Rid, q: Req)
    requires r in reqs && WorkOk(reqs, depth, n, w) && reqs[r].loc.OwnerHand?
    ensures WorkOk(reqs[r := q], depth, n, w.(dispatched := w.dispatched + [r]))
  {
  }

  lemma ActiveIn(reqs: map<Rid, Req>, depth: nat, n: Node, w: Work, r: Rid, q: Req)
    requires r in reqs && WorkOk(reqs, depth, n, w) && reqs[r].loc.OwnerHand? && w.active.None?
    requires q.loc.IsActive? && q.node == n
    ensures WorkOk(reqs[r := q], depth, n, w.(active := Some(r)))
  {
  }

  // ------------------------------------------------ taking a request off a node

  /** The record after the owner has taken it off its node. */
  predicate Taken(q: Req, q': Req) {
    q' == q.(loc := OwnerHand, cancelRequested := q'.cancelRequested)
  }

  lemma TakeLocal(q: Req, q': Req)
    requires ReqOk(q) && (q.loc.InPending? || q.loc.IsActive? || q.loc.InTodo?) && Taken(q, q')
    ensures OwnerChange(q, q') && !q.st.Queued? && !q.pub.ByOwner?
    ensures q.loc.IsActive? ==> !Cancelish(q.st)
  {
  }

  lemma LoadFits(reqs: map<Rid, Req>, nodes: map<Node, Work>, todo: seq<Rid>, r: Rid, res: Result)
    requires r in reqs && reqs[r].loc.OwnerHand? && !reqs[r].pub.ByOwner? && !reqs[r].st.Queued?
    requires Cancelish(reqs[r].st) ==> res.status.Canceled?
    ensures PcFits(reqs, nodes, todo, OLoad(r, res))
  {
  }

  /** The owner takes a request off node n and starts completing it. */
  lemma Take(g: State, r: Rid, q: Req, w: Work, res: Result)
    requires Inv(g) && r in g.reqs && g.reqs[r].node in g.nodes && g.stage.Run? && g.todo == []
    requires g.pc.OFree? || g.pc.OHead? || g.pc.OHeadCas?
    requires g.reqs[r].loc.InPending? || g.reqs[r].loc.IsActive?
    requires Taken(g.reqs[r], q) && WorkOk(g.reqs[r := q], g.sdoDepth, q.node, w)
    requires forall x | x in g.nodes[q.node].pending && x != r :: x in w.pending
    requires g.nodes[q.node].active == w.active || g.nodes[q.node].active == Some(r)
    requires Cancelish(q.st) ==> res.status.Canceled?
    ensures Inv(With(OnNode(g, q.node, w), r, q).(pc := OLoad(r, res)))
  {
    hide Inv, OwnerChange, ReqOk, OwnerTyped, OwnerOk, WorkOk, MqTyped, MqInv, TodoOk, PcFits, Cancelish;
    OwnerFacts(g, r);
    TakeLocal(g.reqs[r], q);
    MqKeep(g.reqs, g.mq, r, q);
    TodoKeep(g.reqs, g.todo, r, q);
    var g' := With(OnNode(g, q.node, w), r, q).(pc := OLoad(r, res));
    LoadFits(g'.reqs, g'.nodes, g'.todo, r, res);
    MoveReq(g, g', r, q);
  }

  lemma ActiveFacts(g: State, n: Node)
    requires Inv(g) && n in g.nodes
    ensures WorkOk(g.reqs, g.sdoDepth, n, g.nodes[n])
    ensures var w := g.nodes[n]; w.active.Some? ==>
              w.active.value in g.reqs && g.reqs[w.active.value].loc.IsActive? && g.reqs[w.active.value].node == n
    ensures var p := g.nodes[n].pending; forall i | 0 <= i < |p| ::
              p[i] in g.reqs && g.reqs[p[i]].loc.InPending? && g.reqs[p[i]].node == n
  {
  }

  lemma CancelActive(g: State, n: Node, r: Rid)
    requires Inv(g) && n in g.nodes && g.stage.Run? && OwnerFree(g) && g.nodes[n].active == Some(r)
    ensures r in g.reqs
    ensures Inv(ToCancel(OnNode(g, n, g.nodes[n].(active := None)), r))
  {
    hide Inv, WorkOk, Cancelish;
    ActiveFacts(g, n);
    var q := g.reqs[r].(loc := OwnerHand, cancelRequested := true);
    ActiveOut(g.reqs, g.sdoDepth, n, g.nodes[n], r, q);
    Take(g, r, q, g.nodes[n].(active := None), CANCELED);
  }

  lemma CancelPendingReq(g: State, n: Node, r: Rid)
    requires Inv(g) && n in g.nodes && g.stage.Run? && g.todo == [] && (g.pc.OFree? || g.pc.OHead?) && r in g.nodes[n].pending
    ensures r in g.reqs
    ensures Inv(ToCancel(OnNode(g, n, g.nodes[n].(pending := Without(g.nodes[n].pending, r))), r))
  {
    hide Inv, WorkOk, Cancelish, Without;
    ActiveFacts(g, n);
    var q := g.reqs[r].(loc := OwnerHand, cancelRequested := true);
    PendingOut(g.reqs, g.sdoDepth, n, g.nodes[n], r, q);
    Take(g, r, q, g.nodes[n].(pending := Without(g.nodes[n].pending, r)), CANCELED);
  }

  lemma RecvStep(g: State, avail: bool)
    requires Inv(g) && Typed(g) && OwnerEnabled(g, RecvL(avail))
    ensures Inv(Recv(g, avail))
  {
    hide Inv, ToCancel, Without, Rank;
    if g.mq[0].SdoCmd? {
      RecvSdo(g, avail);
    } else {
      PopOther(g);
      var g1 := g.(mq := g.mq[1..], received := g.received + [g.mq[0]]);
      if g.mq[0].CancelCmd? && g.stage.Run? {
        var n, r := g.mq[0].node, g.mq[0].r;
        if g1.nodes[n].active == Some(r) { CancelActive(g1, n, r); }
        else if r in g1.nodes[n].pending { CancelPendingReq(g1, n, r); }
      }
    }
  }

  lemma ConfirmStep(g: State, n: Node, ac: nat, copied: bool)
    requires Inv(g) && Typed(g) && OwnerEnabled(g, ConfirmL(n, ac, copied))
    ensures Inv(Confirm(g, n, ac, copied))
  {
    hide Inv, WorkOk, Cancelish, Typed;
    ActiveFacts(g, n);
    var r := g.nodes[n].active.value;
    var q := g.reqs[r].(loc := OwnerHand);
    ActiveOut(g.reqs, g.sdoDepth, n, g.nodes[n], r, q);
    OwnerFacts(g, r);
    TakeLocal(g.reqs[r], q);
    var g' := Confirm(g, n, ac, copied);
    Take(g, r, q, g.nodes[n].(active := None), g'.pc.res);
  }

  // ------------------------------------------------------------- FIFO promotion

  lemma PromoteLocal(q: Req)
    requires ReqOk(q) && q.loc.InPending? && q.st.Pending?
    ensures OwnerChange(q, q.(st := Active, loc := OwnerHand)) && !q.pub.ByOwner?
  {
  }

  lemma StartFits(reqs: map<Rid, Req>, nodes: map<Node, Work>, todo: seq<Rid>, r: Rid)
    requires r in reqs && reqs[r].loc.OwnerHand? && !reqs[r].pub.ByOwner? && reqs[r].st.Active?
    requires reqs[r].node in nodes && nodes[reqs[r].node].active.None? && todo == []
    ensures PcFits(reqs, nodes, todo, OStart(r))
  {
  }

  lemma Promote(g: State, n: Node, r: Rid)
    requires Inv(g) && n in g.nodes && g.stage.Run? && g.todo == [] && g.pc.OHeadCas?
    requires g.nodes[n].pending != [] && g.nodes[n].active.None? && r == g.nodes[n].pending[0] && r in g.reqs && g.reqs[r].st.Pending?
    ensures var w := g.nodes[n];
            Inv(With(OnNode(g, n, w.(pending := w.pending[1..], started := w.started + [r])), r,
                     g.reqs[r].(st := Active, loc := OwnerHand)).(pc := OStart(r)))
  {
    hide Inv, OwnerChange, ReqOk, OwnerTyped, OwnerOk, WorkOk, MqTyped, MqInv, TodoOk, PcFits;
    ActiveFacts(g, n);
    var w, q := g.nodes[n], g.reqs[r].(st := Active, loc := OwnerHand);
    HeadOut(g.reqs, g.sdoDepth, n, w, q);
    TailStays(w.pending);
    OwnerFacts(g, r);
    PromoteLocal(g.reqs[r]);
    MqKeep(g.reqs, g.mq, r, q);
    TodoKeep(g.reqs, g.todo, r, q);
    var g' := With(OnNode(g, n, w.(pending := w.pending[1..], started := w.started + [r])), r, q).(pc := OStart(r));
    StartFits(g'.reqs, g'.nodes, g'.todo, r);
    MoveReq(g, g', r, q);
  }

  /** The owner's program counter changes and names no request before or after. */
  lemma PcOnly(g: State, pc: OPc)
    requires Inv(g) && g.stage.Run? && g.todo == []
    requires g.pc.OFree? || g.pc.OHead? || g.pc.OHeadCas?
    requires pc.OFree? || ((pc.OHead? || pc.OHeadCas?) && pc.n in g.nodes && g.nodes[pc.n].pending != [] && g.nodes[pc.n].active.None?)
    ensures Inv(g.(pc := pc))
  {
    hide Inv, NodeInv, WorkTyped, MqInv, TodoInv;
    InvOwner(g);
    forall r | r in g.reqs ensures PlacedIn(g.nodes, g.mq, g.todo, pc, r, g.reqs[r]) {
      assert PlacedIn(g.nodes, g.mq, g.todo, g.pc, r, g.reqs[r]);
    }
    OwnOnly(g, g.(pc := pc));
  }

  /** The three outcomes of a pass over the FIFO head. */
  lemma HeadIs(g: State, n: Node, r: Rid)
    requires Typed(g) && (g.pc.OHead? || g.pc.OHeadCas?) && g.pc.n == n && n in g.nodes && g.nodes[n].pending != []
    requires g.nodes[n].pending[0] == r && r in g.reqs
    ensures var w, q := g.nodes[n], g.reqs[r];
            Head(g)
            == if g.pc.OHead? && q.st.CancelPending? then ToCancel(OnNode(g, n, w.(pending := w.pending[1..])), r)
               else if g.pc.OHeadCas? && q.st.Pending? then
                 With(OnNode(g, n, w.(pending := w.pending[1..], started := w.started + [r])), r,
                      q.(st := Active, loc := OwnerHand)).(pc := OStart(r))
               else g.(pc := if g.pc.OHead? then OHeadCas(n) else OFree)
  {
    hide Typed, ToCancel, With, OnNode;
  }

  lemma HeadCancels(g: State, n: Node, r: Rid)
    requires Inv(g) && g.pc == OHead(n) && n in g.nodes && g.nodes[n].pending != [] && g.nodes[n].pending[0] == r
    requires g.stage.Run? && g.todo == [] && r in g.reqs && g.reqs[r].st.CancelPending?
    ensures Inv(ToCancel(OnNode(g, n, g.nodes[n].(pending := g.nodes[n].pending[1..])), r))
  {
    hide Inv, ToCancel;
    assert Without(g.nodes[n].pending, r) == g.nodes[n].pending[1..];
    CancelPendingReq(g, n, r);
  }

  lemma HeadStep(g: State)
    requires Inv(g) && Typed(g) && (g.pc.OHead? || g.pc.OHeadCas?) && g.pc.n in g.nodes && g.nodes[g.pc.n].pending != []
    ensures Inv(Head(g))
  {
    hide Inv, Typed, ToCancel, With, OnNode, Head;
    var n := g.pc.n;
    HeadFacts(g);
    var r := g.nodes[n].pending[0];
    ActiveFacts(g, n);
    HeadIs(g, n, r);
    if g.pc.OHead? && g.reqs[r].st.CancelPending? {
      HeadCancels(g, n, r);
    } else if g.pc.OHeadCas? && g.reqs[r].st.Pending? {
      Promote(g, n, r);
    } else {
      PcOnly(g, if g.pc.OHead? then OHeadCas(n) else OFree);
    }
  }

  lemma HeadFacts(g: State)
    requires Inv(g) && (g.pc.OHead? || g.pc.OHeadCas?)
    ensures g.stage.Run? && g.todo == [] && g.pc.n in g.nodes && g.nodes[g.pc.n].active.None?
  {
    hide ReqsOk, ThreadsOk, StageThreads, CountsOk, StageFlags, PlacedIn, MqInv, TodoInv, NodeInv, WorkTyped;
  }
}
