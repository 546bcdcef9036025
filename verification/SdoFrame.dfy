/** Frame lemmas: what a step must re-establish when it changes one thread and one request. */
module SdoFrame {
  import opened Options
  import NmtGate
  import opened SdoModel
  import opened SdoInvariant

  function B(b: bool): int { if b then 1 else 0 }

  lemma CardSplit<T>(s: set<T>, s': set<T>, x: T)
    requires s - {x} == s' - {x}
    ensures |s'| == |s| + B(x in s') - B(x in s)
  {
    assert x in s ==> s == (s - {x}) + {x};
    assert x !in s ==> s == s - {x};
    assert x in s' ==> s' == (s' - {x}) + {x};
    assert x !in s' ==> s' == s' - {x};
  }

  /** Changing one thread changes each holder set by at most that thread. */
  lemma HolderCounts(acts: map<Tid, Actor>, t: Tid, a: Actor)
    requires t in acts
    ensures |CmdHolders(acts[t := a])| == |CmdHolders(acts)| + B(HoldsCmd(a)) - B(HoldsCmd(acts[t]))
    ensures |CbHolders(acts[t := a])| == |CbHolders(acts)| + B(HoldsCb(a)) - B(HoldsCb(acts[t]))
  {
    CardSplit(CmdHolders(acts), CmdHolders(acts[t := a]), t);
    CardSplit(CbHolders(acts), CbHolders(acts[t := a]), t);
  }

  lemma PinCount(reqs: map<Rid, Req>, r: Rid, q: Req)
    requires r in reqs
    ensures |StagedPins(reqs[r := q])| == |StagedPins(reqs)| + B(q.pinOwner.Some?) - B(reqs[r].pinOwner.Some?)
    ensures q.pinOwner.None? && StagedPins(reqs) == {} ==> StagedPins(reqs[r := q]) == {}
  {
    CardSplit(StagedPins(reqs), StagedPins(reqs[r := q]), r);
  }

  // ----------------------------------------- one thread and one request, locally

  /** What the invariant says about thread t and request r before a step of t. */
  predicate Before(pc: OPc, t: Tid, a: Actor, r: Rid, q: Req) {
    && ReqOk(q)
    && (ReqOfPc(pc) == Some(r) ==> PcReq(pc, q))
    && (ReqOfActor(a) == Some(r) ==> ActorReq(t, a, q))
    && (q.pinner == Some(t) ==> PinOf(a) == Some(r))
    && (q.poster == Some(t) ==> PostOf(a) == Some(r))
    && (q.pub == ByActor(t) ==> PubOf(a) == Some(r))
    && (q.pinOwner == Some(t) ==> Linked(a, r))
  }

  /** The thread's holds and the record's back pointers after the step agree again. */
  predicate HoldsAgree(t: Tid, a: Actor, a': Actor, r: Rid, q: Req, q': Req) {
    && (PinOf(a) == PinOf(a') || PinOf(a).None? || PinOf(a) == Some(r))
    && (PostOf(a) == PostOf(a') || PostOf(a).None? || PostOf(a) == Some(r))
    && (PubOf(a) == PubOf(a') || PubOf(a).None? || PubOf(a) == Some(r))
    && (OwesOf(a) == OwesOf(a') || OwesOf(a).None? || OwesOf(a) == Some(r))
    && (q'.pinOwner.Some? ==> if q'.pinOwner == Some(t) then Linked(a', r) else q'.pinOwner == q.pinOwner)
    && (q'.pinner.Some? ==> if q'.pinner == Some(t) then PinOf(a') == Some(r) else q'.pinner == q.pinner)
    && (q'.poster.Some? ==> if q'.poster == Some(t) then PostOf(a') == Some(r) else q'.poster == q.poster)
    && (q'.pub.ByActor? ==> if q'.pub.t == t then PubOf(a') == Some(r) else q'.pub == q.pub)
    && (ReqOfActor(a') == None || (ReqOfActor(a') == Some(r) && ActorReq(t, a', q')))
  }

  /** A change of a request record that no thread other than `who` can notice. */
  predicate Tolerable(q: Req, q': Req, who: Option<Tid>) {
    && (q.retired ==> q'.retired)
    && q.posts <= q'.posts
    && (q.posts == q'.posts ==> q'.st.New? || (!q.st.New? && (q.won ==> q'.won)))
    && (!q.loc.App? ==> !q'.loc.App? && q.posts == q'.posts && (q.won ==> q'.won))
    && (q.pinner.Some? && q.pinner != who ==>
          q'.pinner == q.pinner && q.posts == q'.posts && q'.won == q.won
          && (q'.st == q.st || (IsPinned(q.st) && q'.st == StagedOf(q.st))))
    && (q.poster.Some? && q.poster != who ==> q'.poster == q.poster)
    && (q.pub.ByActor? && Some(q.pub.t) != who ==> q'.pub == q.pub)
    && (q.pinOwner.Some? && q.pinOwner != who ==> q'.pinOwner == q.pinOwner && q'.st == q.st && q'.sends == q.sends)
  }

  lemma ActorTolerates(t: Tid, a: Actor, q: Req, q': Req, who: Option<Tid>)
    requires ReqOk(q) && ActorReq(t, a, q) && Tolerable(q, q', who) && Some(t) != who
    ensures ActorReq(t, a, q')
  {
  }

  lemma ThreadsActReq(reqs: map<Rid, Req>, acts: map<Tid, Actor>, t: Tid, a: Actor, r: Rid, q: Req)
    requires ActsTyped(reqs, acts) && ThreadsOk(reqs, acts) && t in acts && r in reqs && ReqOk(reqs[r])
    requires HoldsAgree(t, acts[t], a, r, reqs[r], q)
    requires Tolerable(reqs[r], q, Some(t))
    ensures ActsTyped(reqs[r := q], acts[t := a]) && ThreadsOk(reqs[r := q], acts[t := a])
  {
    hide ActOk, Tolerable, ReqOk;
    var reqs', acts' := reqs[r := q], acts[t := a];
    forall r' | r' in reqs' ensures HeldBy(acts', r', reqs'[r']) { assert HeldBy(acts, r', reqs[r']); }
    hide HoldsAgree, ActorReq, HeldBy;
    forall t' | t' in acts' ensures Named(reqs', ReqOfActor(acts'[t'])) && ActorInv(reqs', t', acts'[t']) {
      if t' != t && ReqOfActor(acts[t']) == Some(r) { ActorTolerates(t', acts[t'], reqs[r], q, Some(t)); }
    }
  }

  lemma ThreadsActOnly(reqs: map<Rid, Req>, acts: map<Tid, Actor>, t: Tid, a: Actor)
    requires ActsTyped(reqs, acts) && ThreadsOk(reqs, acts) && t in acts
    requires PinOf(acts[t]) == PinOf(a) && PostOf(acts[t]) == PostOf(a) && PubOf(acts[t]) == PubOf(a) && OwesOf(acts[t]) == OwesOf(a)
    requires Named(reqs, ReqOfActor(a)) && ActorInv(reqs, t, a)
    ensures ActsTyped(reqs, acts[t := a]) && ThreadsOk(reqs, acts[t := a])
  {
  }

  /** A request record keeps its place in the owner's lists. */
  predicate SamePlace(q: Req, q': Req) {
    q'.loc == q.loc && (q'.node == q.node || q.loc.App?) && (q'.pub.ByOwner? <==> q.pub.ByOwner?)
  }

  lemma OwnerTypedSame(reqs: map<Rid, Req>, nodes: map<Node, Work>, mq: seq<Cmd>,
                       todo: seq<Rid>, pc: OPc, r: Rid, q: Req)
    requires OwnerTyped(reqs, nodes, mq, todo, pc) && r in reqs && q.node in nodes
    ensures OwnerTyped(reqs[r := q], nodes, mq, todo, pc)
  {
  }

  lemma NodesSamePlace(reqs: map<Rid, Req>, nodes: map<Node, Work>, depth: nat, r: Rid, q: Req)
    requires forall n | n in nodes :: WorkTyped(reqs, nodes[n]) && NodeInv(reqs, depth, n, nodes[n])
    requires r in reqs && SamePlace(reqs[r], q)
    ensures forall n | n in nodes :: WorkTyped(reqs[r := q], nodes[n]) && NodeInv(reqs[r := q], depth, n, nodes[n])
  {
  }

  /** A request changes without moving between the owner's lists. */
  lemma OwnerSamePlace(reqs: map<Rid, Req>, nodes: map<Node, Work>, depth: nat, mq: seq<Cmd>,
                       todo: seq<Rid>, pc: OPc, r: Rid, q: Req)
    requires OwnerTyped(reqs, nodes, mq, todo, pc) && OwnerOk(reqs, nodes, depth, mq, todo, pc)
    requires r in reqs && SamePlace(reqs[r], q) && q.node in nodes
    requires ReqOfPc(pc) == Some(r) ==> PcReq(pc, q)
    ensures OwnerTyped(reqs[r := q], nodes, mq, todo, pc) && OwnerOk(reqs[r := q], nodes, depth, mq, todo, pc)
  {
    hide ReqOk, NodeInv, WorkTyped;
    OwnerTypedSame(reqs, nodes, mq, todo, pc, r, q);
    NodesSamePlace(reqs, nodes, depth, r, q);
    var reqs' := reqs[r := q];
    forall r' | r' in reqs' ensures PlacedIn(nodes, mq, todo, pc, r', reqs'[r']) {
      assert PlacedIn(nodes, mq, todo, pc, r', reqs[r']);
    }
  }

  /** A change of request r by `who` that keeps its record consistent and its place. */
  predicate Change(pc: OPc, r: Rid, q: Req, q': Req, who: Option<Tid>) {
    ReqOk(q') && SamePlace(q, q') && Tolerable(q, q', who) && (ReqOfPc(pc) == Some(r) ==> PcReq(pc, q'))
  }

  /** A step of thread t that moves it from a to a' and request r from q to q'. */
  predicate LocalStep(pc: OPc, t: Tid, a: Actor, a': Actor, r: Rid, q: Req, q': Req) {
    Change(pc, r, q, q', Some(t)) && HoldsAgree(t, a, a', r, q, q')
  }

  /** Reference counts move with the thread and the request. */
  predicate Recount(g: State, g': State, a: Actor, a': Actor, pins: int) {
    && g'.cmdRefs == g.cmdRefs + B(HoldsCmd(a')) - B(HoldsCmd(a))
    && g'.cbRefs == g.cbRefs + B(HoldsCb(a')) - B(HoldsCb(a))
    && g'.cancelRefs == g.cancelRefs + pins
  }

  /** A thread steps and updates request r in place. */
  lemma ActReq(g: State, g': State, t: Tid, a: Actor, r: Rid, q: Req)
    requires Inv(g) && t in g.acts && r in g.reqs && q.node in g.nodes
    requires g' == g.(acts := g.acts[t := a], reqs := g.reqs[r := q],
                      cmdRefs := g'.cmdRefs, cbRefs := g'.cbRefs, cancelRefs := g'.cancelRefs)
    requires LocalStep(g.pc, t, g.acts[t], a, r, g.reqs[r], q)
    requires StageActor(g.stage, a)
    requires Recount(g, g', g.acts[t], a, B(q.pinOwner.Some?) - B(g.reqs[r].pinOwner.Some?))
    requires q.pinOwner.Some? ==> g.reqs[r].pinOwner.Some?
    ensures Inv(g')
  {
    hide HeldBy, ActorInv, PcReq, NodeInv, WorkTyped, ReqOk, HoldsCmd, HoldsCb, HoldsAgree, SamePlace, Tolerable, StageActor;
    HolderCounts(g.acts, t, a);
    PinCount(g.reqs, r, q);
    ThreadsActReq(g.reqs, g.acts, t, a, r, q);
    OwnerSamePlace(g.reqs, g.nodes, g.sdoDepth, g.mq, g.todo, g.pc, r, q);
  }

  /** A thread moves on without touching a request. */
  lemma ActOnly(g: State, g': State, t: Tid, a: Actor)
    requires Inv(g) && t in g.acts
    requires g' == g.(acts := g.acts[t := a], latch := g'.latch, quiescing := g'.quiescing,
                      cmdRefs := g'.cmdRefs, cbRefs := g'.cbRefs)
    requires g.latch ==> g'.latch
    requires PinOf(g.acts[t]) == PinOf(a) && PostOf(g.acts[t]) == PostOf(a) && PubOf(g.acts[t]) == PubOf(a) && OwesOf(g.acts[t]) == OwesOf(a)
    requires Named(g.reqs, ReqOfActor(a)) && ActorInv(g.reqs, t, a) && StageActor(g.stage, a)
    requires Recount(g, g', g.acts[t], a, 0)
    ensures Inv(g')
  {
    hide HeldBy, ActorInv, PcReq, NodeInv, WorkTyped, ReqOk, HoldsCmd, HoldsCb, StageActor;
    HolderCounts(g.acts, t, a);
    ThreadsActOnly(g.reqs, g.acts, t, a);
  }

  /** The parts of the invariant that concern one thread and one request. */
  lemma Facts(g: State, t: Tid, r: Rid)
    requires Inv(g) && t in g.acts && r in g.reqs
    ensures Before(g.pc, t, g.acts[t], r, g.reqs[r]) && g.reqs[r].node in g.nodes
    ensures StageActor(g.stage, g.acts[t]) && (Rank(g.stage) >= 6 ==> g.latch) && (Rank(g.stage) >= 9 ==> g.cbQuiescing)
  {
    hide NodeInv, WorkTyped, ActOk, PcReq, StageOwner, CountsOk;
    assert HeldBy(g.acts, r, g.reqs[r]);
  }

  // ------------------------------------------------------------- owner side

  /** The owner's lists for every request but r contain at least what they did. */
  predicate OthersStay(r: Rid, n: Node, nodes: map<Node, Work>, nodes': map<Node, Work>, mq: seq<Cmd>, mq': seq<Cmd>,
                       todo: seq<Rid>, todo': seq<Rid>, pc: OPc, pc': OPc)
    requires n in nodes && n in nodes'
  {
    && nodes' == nodes[n := nodes'[n]]
    && (forall x | x in nodes[n].pending && x != r :: x in nodes'[n].pending)
    && (nodes[n].active.Some? && nodes[n].active != Some(r) ==> nodes'[n].active == nodes[n].active)
    && (forall c | c in mq && c.SdoCmd? && c.r != r :: c in mq')
    && (forall x | x in todo && x != r :: x in todo')
    && (Hand(pc) == None || Hand(pc) == Some(r) || Hand(pc) == Hand(pc'))
    && (OwnerPub(pc) == None || OwnerPub(pc) == Some(r) || OwnerPub(pc) == OwnerPub(pc'))
  }

  predicate MqTyped(reqs: map<Rid, Req>, nodes: map<Node, Work>, mq: seq<Cmd>) {
    forall i | 0 <= i < |mq| :: CmdTyped(reqs, nodes, mq[i])
  }

  predicate TodoOk(reqs: map<Rid, Req>, todo: seq<Rid>) {
    (forall i | 0 <= i < |todo| :: todo[i] in reqs) && TodoInv(reqs, todo)
  }

  predicate WorkOk(reqs: map<Rid, Req>, depth: nat, n: Node, w: Work) {
    WorkTyped(reqs, w) && NodeInv(reqs, depth, n, w)
  }

  predicate PcFits(reqs: map<Rid, Req>, nodes: map<Node, Work>, todo: seq<Rid>, pc: OPc) {
    && Named(reqs, ReqOfPc(pc)) && ((pc.OHead? || pc.OHeadCas?) ==> pc.n in nodes)
    && (pc.OStart? ==> reqs[pc.r].node in nodes)
    && PcOk(reqs, nodes, todo, pc)
  }

  lemma OtherNodes(reqs: map<Rid, Req>, depth: nat, m: Node, w: Work, r: Rid, q: Req)
    requires r in reqs && WorkOk(reqs, depth, m, w) && reqs[r].node != m
    ensures WorkOk(reqs[r := q], depth, m, w)
  {
  }

  /** The owner moves request r, of node n, between its lists. */
  lemma OwnerReplace(reqs: map<Rid, Req>, depth: nat, r: Rid, q: Req, n: Node,
                     nodes: map<Node, Work>, nodes': map<Node, Work>, mq: seq<Cmd>, mq': seq<Cmd>,
                     todo: seq<Rid>, todo': seq<Rid>, pc: OPc, pc': OPc)
    requires OwnerTyped(reqs, nodes, mq, todo, pc) && OwnerOk(reqs, nodes, depth, mq, todo, pc)
    requires r in reqs && n == reqs[r].node && q.node == n && n in nodes'
    requires OthersStay(r, n, nodes, nodes', mq, mq', todo, todo', pc, pc')
    requires PlacedIn(nodes', mq', todo', pc', r, q)
    requires WorkOk(reqs[r := q], depth, n, nodes'[n])
    requires MqTyped(reqs, nodes, mq') && MqInv(reqs[r := q], mq') && TodoOk(reqs[r := q], todo')
    requires PcFits(reqs[r := q], nodes', todo', pc')
    ensures OwnerTyped(reqs[r := q], nodes', mq', todo', pc') && OwnerOk(reqs[r := q], nodes', depth, mq', todo', pc')
  {
    hide NodeInv, WorkTyped, MqInv, TodoInv, PcOk, ReqOfPc, Hand, OwnerPub;
    var reqs' := reqs[r := q];
    forall m | m in nodes' ensures 1 <= m <= NmtGate.NUM_NODES && WorkTyped(reqs', nodes'[m]) && NodeInv(reqs', depth, m, nodes'[m]) {
      if m != n { OtherNodes(reqs, depth, m, nodes[m], r, q); }
    }
    assert MqTyped(reqs', nodes', mq') by {
      forall i | 0 <= i < |mq'| ensures CmdTyped(reqs', nodes', mq'[i]) { assert CmdTyped(reqs, nodes, mq'[i]); }
    }
    forall x | x in reqs' ensures PlacedIn(nodes', mq', todo', pc', x, reqs'[x]) {
      if x != r { OtherPlaced(reqs, x, r, n, nodes, nodes', mq, mq', todo, todo', pc, pc'); }
    }
  }

  lemma OtherPlaced(reqs: map<Rid, Req>, x: Rid, r: Rid, n: Node,
                    nodes: map<Node, Work>, nodes': map<Node, Work>, mq: seq<Cmd>, mq': seq<Cmd>,
                    todo: seq<Rid>, todo': seq<Rid>, pc: OPc, pc': OPc)
    requires x in reqs && x != r && n in nodes && n in nodes' && reqs[x].node in nodes
    requires PlacedIn(nodes, mq, todo, pc, x, reqs[x])
    requires OthersStay(r, n, nodes, nodes', mq, mq', todo, todo', pc, pc')
    ensures reqs[x].node in nodes' && PlacedIn(nodes', mq', todo', pc', x, reqs[x])
  {
  }

  lemma ThreadsOwnerReq(reqs: map<Rid, Req>, acts: map<Tid, Actor>, r: Rid, q: Req)
    requires ActsTyped(reqs, acts) && ThreadsOk(reqs, acts) && r in reqs && ReqOk(reqs[r])
    requires Tolerable(reqs[r], q, None) && HeldBy(acts, r, q)
    ensures ActsTyped(reqs[r := q], acts) && ThreadsOk(reqs[r := q], acts)
  {
    hide ActOk, Tolerable, ReqOk, HeldBy, ActorReq;
    var reqs' := reqs[r := q];
    forall t | t in acts ensures Named(reqs', ReqOfActor(acts[t])) && ActorInv(reqs', t, acts[t]) {
      if ReqOfActor(acts[t]) == Some(r) { ActorTolerates(t, acts[t], reqs[r], q, None); }
    }
  }

  /** A change of a record by the owner: consistent, unnoticed by threads, same or fewer holders. */
  predicate OwnerChange(q: Req, q': Req) {
    && ReqOk(q') && Tolerable(q, q', None)
    && (q'.pinner.Some? ==> q'.pinner == q.pinner)
    && (q'.poster.Some? ==> q'.poster == q.poster)
    && (q'.pub.ByActor? ==> q'.pub == q.pub)
    && (q'.pinOwner.Some? ==> q'.pinOwner == q.pinOwner || q'.pinOwner == q.pinner)
  }

  /** One owner step that touches request r. */
  lemma OwnReq(g: State, g': State, r: Rid, q: Req)
    requires Inv(g) && r in g.reqs
    requires g' == g.(reqs := g.reqs[r := q], nodes := g'.nodes, mq := g'.mq, todo := g'.todo, pc := g'.pc,
                      cancelRefs := g'.cancelRefs, received := g'.received)
    requires OwnerChange(g.reqs[r], q)
    requires OwnerTyped(g'.reqs, g'.nodes, g'.mq, g'.todo, g'.pc)
    requires OwnerOk(g'.reqs, g'.nodes, g'.sdoDepth, g'.mq, g'.todo, g'.pc)
    requires g'.cancelRefs == g.cancelRefs + Speculative(g'.pc) - Speculative(g.pc)
                              + B(q.pinOwner.Some?) - B(g.reqs[r].pinOwner.Some?)
    requires q.pinOwner.Some? ==> Rank(g.stage) < 12 || g.reqs[r].pinOwner.Some?
    requires StageOwner(g'.stage, g'.nodes, g'.mq, g'.todo, g'.pc)
    requires |g'.mq| <= |g.mq| && g'.received + g'.mq == g.received + g.mq
    ensures Inv(g')
  {
    hide PcReq, NodeInv, WorkTyped, ReqOk, Tolerable, OwnerTyped, OwnerOk, StageOwner, StageThreads, Speculative;
    PinCount(g.reqs, r, q);
    assert HeldBy(g.acts, r, g.reqs[r]);
    ThreadsOwnerReq(g.reqs, g.acts, r, q);
  }

  /** An owner step that touches no request. */
  lemma OwnOnly(g: State, g': State)
    requires Inv(g)
    requires g' == g.(nodes := g'.nodes, mq := g'.mq, todo := g'.todo, pc := g'.pc,
                      cancelRefs := g'.cancelRefs, received := g'.received)
    requires OwnerTyped(g'.reqs, g'.nodes, g'.mq, g'.todo, g'.pc)
    requires OwnerOk(g'.reqs, g'.nodes, g'.sdoDepth, g'.mq, g'.todo, g'.pc)
    requires g'.cancelRefs == g.cancelRefs + Speculative(g'.pc) - Speculative(g.pc)
    requires StageOwner(g'.stage, g'.nodes, g'.mq, g'.todo, g'.pc)
    requires |g'.mq| <= |g.mq| && g'.received + g'.mq == g.received + g.mq
    ensures Inv(g')
  {
  }

  lemma MqKeep(reqs: map<Rid, Req>, mq: seq<Cmd>, r: Rid, q: Req)
    requires MqInv(reqs, mq) && r in reqs && (!reqs[r].loc.InQueue? || q.loc.InQueue?)
    ensures MqInv(reqs[r := q], mq)
  {
  }

  lemma TodoKeep(reqs: map<Rid, Req>, todo: seq<Rid>, r: Rid, q: Req)
    requires TodoOk(reqs, todo) && r in reqs && !reqs[r].loc.InTodo?
    ensures TodoOk(reqs[r := q], todo)
  {
  }

  lemma WorkKeep(reqs: map<Rid, Req>, depth: nat, n: Node, w: Work, r: Rid, q: Req)
    requires WorkOk(reqs, depth, n, w) && r in reqs && !reqs[r].loc.InPending? && !reqs[r].loc.IsActive?
    ensures WorkOk(reqs[r := q], depth, n, w)
  {
  }

  /** The owner-side invariant, unpacked for one request. */
  lemma OwnerParts(reqs: map<Rid, Req>, nodes: map<Node, Work>, depth: nat, mq: seq<Cmd>, todo: seq<Rid>, pc: OPc, r: Rid)
    requires OwnerTyped(reqs, nodes, mq, todo, pc) && OwnerOk(reqs, nodes, depth, mq, todo, pc) && r in reqs
    ensures reqs[r].node in nodes && PlacedIn(nodes, mq, todo, pc, r, reqs[r])
    ensures WorkOk(reqs, depth, reqs[r].node, nodes[reqs[r].node])
    ensures MqTyped(reqs, nodes, mq) && MqInv(reqs, mq) && TodoOk(reqs, todo) && PcFits(reqs, nodes, todo, pc)
  {
  }

  lemma PcFitsSame(reqs: map<Rid, Req>, nodes: map<Node, Work>, todo: seq<Rid>, pc: OPc, r: Rid, q: Req)
    requires PcFits(reqs, nodes, todo, pc) && r in reqs && ReqOfPc(pc) != Some(r)
    ensures PcFits(reqs[r := q], nodes, todo, pc)
  {
  }
}
