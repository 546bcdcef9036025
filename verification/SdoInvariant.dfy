/**
 The inductive invariant of the request protocol.  `ReqOk` is local to one
 request record; the remaining predicates tie records to threads, to the owner's
 lists and to the reference counts.
 */
module SdoInvariant {
  import opened Options
  import opened SdoModel

  // ------------------------------------------------------- what a thread holds

  /** The request a thread has pinned. */
  function PinOf(a: Actor): Option<Rid> {
    match a
    case Posting(JCancel(c), _) => Some(c.r)
    case CPinned(c) => Some(c.r)
    case CbAdd(c) => Some(c.r)
    case CbCheck(c) => Some(c.r)
    case CbUndo(c) => Some(c.r)
    case CUnpin(c, _, _) => Some(c.r)
    case CPub(c, _, _, ph) => if ph.Refs1? || ph.CasDone? then Some(c.r) else None
    case _ => None
  }

  /** The request a thread is posting and has not handed over. */
  function PostOf(a: Actor): Option<Rid> {
    match a
    case Posting(JSdo(r), p) => if Sent(p) then None else Some(r)
    case Rejecting(r) => Some(r)
    case _ => None
  }

  predicate Sent(p: PPc) { p.Wake? || p == Release(true) || p == Fin(true) }

  /** The request a thread is publishing. */
  function PubOf(a: Actor): Option<Rid> {
    match a
    case CPub(c, _, _, ph) => if ph.Refs1? then None else Some(c.r)
    case _ => None
  }

  /** The request whose staged runtime pin a thread must still give back. */
  function OwesOf(a: Actor): Option<Rid> {
    match a
    case CPub(c, _, _, _) => Some(c.r)
    case CSub(c, _, _) => Some(c.r)
    case _ => None
  }

  predicate HoldsCmd(a: Actor) {
    a.Posting? && (a.ppc.LoadLatch2? || a.ppc.LoadQuiesce2? || a.ppc.UndoRef?
                   || a.ppc.Send? || a.ppc.Wake? || a.ppc.Release?)
  }

  /** Inside the queue section: admitted and not yet released. */
  predicate InQueueSection(a: Actor) {
    a.Posting? && (a.ppc.Send? || a.ppc.Wake? || a.ppc.Release?)
  }

  predicate HoldsCb(a: Actor) {
    match a
    case CbCheck(_) => true
    case CbUndo(_) => true
    case Posting(JCancel(c), _) => c.k.PendingK?
    case CUnpin(_, _, cb) => cb
    case CPub(_, _, cb, _) => cb
    case CSub(_, _, cb) => cb
    case CTail(_, _, cb, _) => cb
    case Ext(e) => !e.EAdd?
    case _ => false
  }

  function CmdHolders(acts: map<Tid, Actor>): set<Tid> { set t | t in acts && HoldsCmd(acts[t]) }
  function CbHolders(acts: map<Tid, Actor>): set<Tid> { set t | t in acts && HoldsCb(acts[t]) }
  function StagedPins(reqs: map<Rid, Req>): set<Rid> { set r | r in reqs && reqs[r].pinOwner.Some? }

  /** The owner's speculative addition before its staging compare-and-swap. */
  function Speculative(pc: OPc): int { if pc.OStageCas? || pc.OStageUndo? then 1 else 0 }

  /** The request the owner has taken out of every list. */
  function Hand(pc: OPc): Option<Rid> {
    if pc.OPubSend? || pc.OPubEnd? then None else ReqOfPc(pc)
  }

  function OwnerPub(pc: OPc): Option<Rid> {
    if pc.OPubCas? || pc.OPubUndo? || pc.OPubSend? || pc.OPubEnd? then ReqOfPc(pc) else None
  }

  // -------------------------------------------------------------- one request

  predicate LocOk(q: Req) {
    match q.loc
    case App => q.st.New? || q.st.Queued? || q.st.CancelPending?
    case InQueue => q.st.Queued? || q.st.CancelPending?
    case OwnerHand => !q.st.New? && !IsFinal(q.st)
    case InPending => q.st.Pending? || q.st.PendingPinned? || q.st.CancelPending?
    case InTodo => q.st.Pending? || q.st.PendingPinned? || q.st.CancelPending? || q.st.Active? || q.st.ActivePinned?
    case IsActive => q.st.Active? || q.st.ActivePinned?
    case Gone => IsFinal(q.st)
  }

  predicate ReqOk(q: Req) {
    && LocOk(q)
    && (q.poster.Some? <==> q.loc.App? && !q.st.New?)
    && (q.pinner.Some? <==> IsPinned(q.st) || IsStaged(q.st))
    && (q.pinOwner.Some? ==> IsFinal(q.st))
    && (IsStaged(q.st) ==> q.pinOwner == q.pinner)
    && q.refs == (if q.pub.NoPub? then 0 else 1)
    && (q.pub.ByOwner? ==> q.loc.OwnerHand? || q.st.Done?)
    && (q.pub.ByOwner? ==> q.pinOwner.None?)
    && (q.pub.ByActor? ==> IsFinal(q.st) && q.pinOwner == Some(q.pub.t))
    && q.sends <= 1 && (!q.st.Done? ==> q.sends == 0)
    && (q.st.Done? && q.pub.NoPub? ==> q.sends == 1)
    && (q.starts > 0 ==> q.st.Active? || q.st.ActivePinned? || q.st.ActiveCancelDone? || q.st.Done?)
    && (q.won ==> q.starts == 0 && (q.st.CancelPending? || q.st.PendingPinned? || q.st.PendingCancelDone? || q.st.Done?))
    && (q.won && IsFinal(q.st) ==> q.result.status.Canceled?)
    && (q.st.PendingCancelDone? ==> q.result.status.Canceled?)
    && (q.st.CancelPending? ==> q.won)
    && (q.retired ==> q.st.New? || q.st.Done?)
    && (q.freed ==> q.retired && q.pub.NoPub?)
  }

  predicate ReqsOk(reqs: map<Rid, Req>) { forall r | r in reqs :: ReqOk(reqs[r]) }

  // ------------------------------------------------------ requests and threads

  /** A request record names the threads that hold it, and they agree. */
  predicate HeldBy(acts: map<Tid, Actor>, r: Rid, q: Req) {
    && (q.pinner.Some? ==> q.pinner.value in acts && PinOf(acts[q.pinner.value]) == Some(r))
    && (q.poster.Some? ==> q.poster.value in acts && PostOf(acts[q.poster.value]) == Some(r))
    && (q.pub.ByActor? ==> q.pub.t in acts && PubOf(acts[q.pub.t]) == Some(r))
    && (q.pinOwner.Some? ==> q.pinOwner.value in acts && Linked(acts[q.pinOwner.value], r))
  }

  /** The thread has pinned r or must still give back its staged runtime pin. */
  predicate Linked(a: Actor, r: Rid) { PinOf(a) == Some(r) || OwesOf(a) == Some(r) }

  /** The thread holds the pin of call c; `sent` says whether its cancel command is queued. */
  predicate SentOk(q: Req, c: Call, sent: bool) {
    (q.st == Pinned(c.k) || q.st == Staged(c.k)) && q.posts == c.ep && (c.k.PendingK? ==> q.won == sent)
  }

  /** What a thread's program counter says about the record of the request it refers to. */
  predicate ActOk(a: Actor, q: Req) {
    match a
    case Posting(JCancel(c), p) => SentOk(q, c, Sent(p))
    case CPinned(c) => SentOk(q, c, false)
    case CbAdd(c) => SentOk(q, c, false) && c.k.PendingK?
    case CbCheck(c) => SentOk(q, c, false) && c.k.PendingK?
    case CbUndo(c) => SentOk(q, c, false) && c.k.PendingK?
    case CUnpin(c, ok, cb) => SentOk(q, c, ok)
    case CPub(c, ok, cb, ph) =>
      && (ph.Refs1? || ph.CasDone? ==> q.st == Staged(c.k))
      && (ph.SendEvent? ==> q.st.Done? && q.sends == 0)
      && (ph.Refs0? ==> q.st.Done? && q.sends == 1)
      && q.posts == c.ep && (ok && c.k.PendingK? ==> q.won)
    case CSub(c, ok, cb) => q.st.Done? && q.posts == c.ep && (ok && c.k.PendingK? ==> q.won)
    case CTail(c, ok, cb, wake) => q.posts == c.ep && !q.loc.App? && (ok && c.k.PendingK? ==> q.won)
    case CRet(r, found, ep, ok) =>
      && ep <= q.posts
      && (found.Pending? && ok ==> q.posts == ep && !q.loc.App? && q.won)
      && (found.Queued? && ok && q.posts == ep && !q.st.New? ==> q.won)
    case DWait(r) => q.retired
    case _ => true
  }

  predicate ActorReq(t: Tid, a: Actor, q: Req) {
    && ActOk(a, q)
    && (PinOf(a).Some? ==> q.pinner == Some(t))
    && (PostOf(a).Some? ==> q.poster == Some(t))
    && (PubOf(a).Some? ==> q.pub == ByActor(t))
    && (OwesOf(a).Some? ==> q.pinOwner == Some(t))
  }

  predicate ActorInv(reqs: map<Rid, Req>, t: Tid, a: Actor)
    requires Named(reqs, ReqOfActor(a))
  {
    ReqOfActor(a).Some? ==> ActorReq(t, a, reqs[ReqOfActor(a).value])
  }

  predicate NoDup(s: seq<Rid>) { forall i, j | 0 <= i < j < |s| :: s[i] != s[j] }

  predicate ThreadsOk(reqs: map<Rid, Req>, acts: map<Tid, Actor>)
    requires ActsTyped(reqs, acts)
  {
    && (forall r | r in reqs :: HeldBy(acts, r, reqs[r]))
    && (forall t | t in acts :: ActorInv(reqs, t, acts[t]))
  }

  // -------------------------------------------------------- requests and owner

  /** The owner's list, slot or hand a request record claims to be in. */
  predicate PlacedIn(nodes: map<Node, Work>, mq: seq<Cmd>, todo: seq<Rid>, pc: OPc, r: Rid, q: Req)
    requires q.node in nodes
  {
    && (q.pub.ByOwner? ==> OwnerPub(pc) == Some(r))
    && (q.loc.InQueue? ==> SdoCmd(r) in mq)
    && (q.loc.OwnerHand? ==> Hand(pc) == Some(r))
    && (q.loc.InPending? ==> r in nodes[q.node].pending)
    && (q.loc.IsActive? ==> nodes[q.node].active == Some(r))
    && (q.loc.InTodo? ==> r in todo)
  }

  /** One node's FIFO and active slot. */
  predicate NodeInv(reqs: map<Rid, Req>, depth: nat, n: Node, w: Work)
    requires WorkTyped(reqs, w)
  {
    && NoDup(w.pending) && |w.pending| <= depth
    && (forall i | 0 <= i < |w.pending| :: reqs[w.pending[i]].loc.InPending? && reqs[w.pending[i]].node == n)
    && (w.active.Some? ==> reqs[w.active.value].loc.IsActive? && reqs[w.active.value].node == n)
    && SubSeq(w.started + w.pending, w.dispatched)
  }

  predicate MqInv(reqs: map<Rid, Req>, mq: seq<Cmd>) {
    && (forall i | 0 <= i < |mq| :: mq[i].SdoCmd? ==> mq[i].r in reqs && reqs[mq[i].r].loc.InQueue?)
    && (forall i, j | 0 <= i < j < |mq| :: mq[i].SdoCmd? ==> mq[i] != mq[j])
  }

  predicate TodoInv(reqs: map<Rid, Req>, todo: seq<Rid>)
    requires forall i | 0 <= i < |todo| :: todo[i] in reqs
  {
    NoDup(todo) && forall i | 0 <= i < |todo| :: reqs[todo[i]].loc.InTodo?
  }

  /** What the owner's program counter says about the request it is working on. */
  predicate PcReq(pc: OPc, q: Req) {
    && (Hand(pc).Some? ==> q.loc.OwnerHand?)
    && (OwnerPub(pc).Some? <==> q.pub.ByOwner?)
    && match pc
       case ODispatch(_, _) => q.st.Queued? || q.st.CancelPending?
       case OQueuedLoad(_) => q.st.Queued? || q.st.CancelPending?
       case OQueuedCas(_) => q.st.Queued? || q.st.CancelPending?
       case OStart(_) => q.st.Active? || q.st.ActivePinned?
       case OLoad(_, res) => !q.st.Queued? && (Cancelish(q.st) ==> res.status.Canceled?)
       case OLoop(_, seen) => WrittenOk(q, seen)
       case OStageCas(_, seen) => WrittenOk(q, seen) && IsPinned(seen)
       case OStageUndo(_, seen) => WrittenOk(q, seen)
       case OPubCas(_, seen) => WrittenOk(q, seen) && !IsPinned(seen)
       case OPubUndo(_, seen) => WrittenOk(q, seen)
       case OPubSend(_) => q.st.Done? && q.sends == 0
       case OPubEnd(_) => q.st.Done? && q.sends == 1
       case _ => true
  }

  predicate PcOk(reqs: map<Rid, Req>, nodes: map<Node, Work>, todo: seq<Rid>, pc: OPc)
    requires Named(reqs, ReqOfPc(pc)) && ((pc.OHead? || pc.OHeadCas?) ==> pc.n in nodes)
    requires pc.OStart? ==> reqs[pc.r].node in nodes
  {
    && (ReqOfPc(pc).Some? ==> PcReq(pc, reqs[ReqOfPc(pc).value]))
    && (pc.OStart? ==> nodes[reqs[pc.r].node].active.None?)
    && ((pc.OHead? || pc.OHeadCas?) ==> nodes[pc.n].pending != [] && nodes[pc.n].active.None?)
    && ((pc.ODispatch? || pc.OStart? || pc.OHead? || pc.OHeadCas? || pc.OQueuedLoad? || pc.OQueuedCas?) ==> todo == [])
  }

  predicate OwnerOk(reqs: map<Rid, Req>, nodes: map<Node, Work>, depth: nat, mq: seq<Cmd>, todo: seq<Rid>, pc: OPc)
    requires OwnerTyped(reqs, nodes, mq, todo, pc)
  {
    && (forall r | r in reqs :: PlacedIn(nodes, mq, todo, pc, r, reqs[r]))
    && (forall n | n in nodes :: NodeInv(reqs, depth, n, nodes[n]))
    && MqInv(reqs, mq) && TodoInv(reqs, todo) && PcOk(reqs, nodes, todo, pc)
  }

  predicate WrittenOk(q: Req, seen: RState) {
    && !q.st.Queued? && (Cancelish(q.st) ==> q.result.status.Canceled?)
    && !seen.New? && !seen.Queued? && !IsFinal(seen)
  }

  predicate CountsOk(g: State) {
    && g.cmdRefs == |CmdHolders(g.acts)|
    && g.cbRefs == |CbHolders(g.acts)|
    && g.cancelRefs == |StagedPins(g.reqs)| + Speculative(g.pc)
  }

  predicate StageActor(stage: Stage, a: Actor) {
    && (Rank(stage) >= 8 && HoldsCmd(a) ==> a.ppc.LoadLatch2? || a.ppc.UndoRef?)
    && (Rank(stage) >= 14 && HoldsCb(a) ==> a.Ext? && !a.eph.EIn?)
  }

  predicate StageThreads(stage: Stage, acts: map<Tid, Actor>) {
    forall t | t in acts :: StageActor(stage, acts[t])
  }

  predicate StageFlags(g: State) {
    var k := Rank(g.stage);
    && (k >= 6 ==> g.latch)
    && (k >= 9 ==> g.cbQuiescing)
    && (k >= 12 ==> StagedPins(g.reqs) == {})
    && (!g.mqOpen ==> k >= 13)
    && |g.mq| <= g.mqDepth
    && g.sent == g.received + g.mq
  }

  predicate StageOwner(stage: Stage, nodes: map<Node, Work>, mq: seq<Cmd>, todo: seq<Rid>, pc: OPc) {
    var k := Rank(stage);
    && (k >= 10 ==> mq == [])
    && (stage.CancelAll? ==> forall n | n in nodes && n < stage.next :: Empty(nodes[n]))
    && (k >= 11 || k < 4 ==> pc.OFree? && todo == [] && forall n | n in nodes :: Empty(nodes[n]))
    && (k in {5, 6, 7, 8} ==> pc.OFree? && todo == [])
    && ((pc.ODispatch? || pc.OHead? || pc.OHeadCas? || pc.OStart?) ==> stage.Run?)
    && ((pc.OQueuedLoad? || pc.OQueuedCas?) ==> stage.Drain?)
  }

  // -------------------------------------------------------------- FIFO order

  predicate SubSeq(a: seq<Rid>, b: seq<Rid>)
    decreases |b|
  {
    if a == [] then true
    else if b == [] then false
    else if a[|a| - 1] == b[|b| - 1] then SubSeq(a[..|a| - 1], b[..|b| - 1]) || SubSeq(a, b[..|b| - 1])
    else SubSeq(a, b[..|b| - 1])
  }

  predicate Inv(g: State) {
    && Typed(g)
    && ReqsOk(g.reqs)
    && ThreadsOk(g.reqs, g.acts)
    && OwnerOk(g.reqs, g.nodes, g.sdoDepth, g.mq, g.todo, g.pc)
    && CountsOk(g)
    && StageThreads(g.stage, g.acts)
    && StageOwner(g.stage, g.nodes, g.mq, g.todo, g.pc)
    && StageFlags(g)
  }

  lemma InitInv(g: State)
    requires Init(g)
    ensures Inv(g)
  {
    hide ReqsOk, ThreadsOk, OwnerOk, Typed, StageThreads, Init;
    InitTyped(g);
    InitThreads(g);
    InitOwner(g);
    InitCounts(g);
  }

  lemma InitTyped(g: State)
    requires Init(g)
    ensures Typed(g) && ReqsOk(g.reqs)
  {
  }

  lemma InitThreads(g: State)
    requires Init(g)
    ensures ActsTyped(g.reqs, g.acts) && ThreadsOk(g.reqs, g.acts) && StageThreads(g.stage, g.acts)
  {
  }

  lemma InitOwner(g: State)
    requires Init(g)
    ensures OwnerTyped(g.reqs, g.nodes, g.mq, g.todo, g.pc) && OwnerOk(g.reqs, g.nodes, g.sdoDepth, g.mq, g.todo, g.pc)
    ensures StageOwner(g.stage, g.nodes, g.mq, g.todo, g.pc)
  {
  }

  lemma InitCounts(g: State)
    requires Init(g)
    ensures CountsOk(g) && StageFlags(g)
  {
    assert CmdHolders(g.acts) == {};
    assert CbHolders(g.acts) == {};
    assert StagedPins(g.reqs) == {};
  }
}
