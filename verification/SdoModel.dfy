/**
 The application Client-SDO request protocol as a transition system.

 One owner thread and any number of application threads share request objects,
 the command queue and the runtime's admission flags and reference counts.  A
 step is one atomic operation of the C code together with the thread-local work
 up to the next one; any thread may step at any time, so a run is an arbitrary
 interleaving.  Fields below the line "history" do not exist in the C code: they
 record who holds what, so that the invariants can be stated.
 */
module SdoModel {
  import opened Options
  import NmtGate

  type Rid = nat
  type Tid = nat
  type Node = nat

  /** The eleven values of the atomic request state word. */
  datatype RState =
    | New | Queued | Pending | CancelPending | TeardownPending
    | PendingPinned | PendingCancelDone
    | Active | ActivePinned | ActiveCancelDone
    | Done

  /** Which of the two cancel pins a caller took. */
  datatype Kind = PendingK | ActiveK

  function Base(k: Kind): RState { if k.PendingK? then Pending else Active }
  function Pinned(k: Kind): RState { if k.PendingK? then PendingPinned else ActivePinned }
  function Staged(k: Kind): RState { if k.PendingK? then PendingCancelDone else ActiveCancelDone }

  predicate IsPinned(s: RState) { s.PendingPinned? || s.ActivePinned? }
  predicate IsStaged(s: RState) { s.PendingCancelDone? || s.ActiveCancelDone? }
  predicate IsFinal(s: RState) { s.Done? || IsStaged(s) }

  function StagedOf(s: RState): RState
    requires IsPinned(s)
  {
    if s.PendingPinned? then PendingCancelDone else ActiveCancelDone
  }

  /** A pending request or one whose cancellation has been claimed. */
  predicate Cancelish(s: RState) {
    s.Pending? || s.PendingPinned? || s.CancelPending? || s.TeardownPending?
  }

  datatype Status = Ok | Abort | LocalError | Canceled
  datatype Err = EOk | EBusy | ENoMem | EError
  datatype Result = Result(status: Status, err: Err, ac: nat)

  /** Abort code "resource not available: SDO connection". */
  const AC_NO_SDO: nat := 0x060A_0023

  const CANCELED: Result := Result(Canceled, EOk, AC_NO_SDO)

  /** Where the responsibility for a request currently lies. */
  datatype Loc = App | InQueue | OwnerHand | InPending | InTodo | IsActive | Gone

  /** Who is between `completion_refs = 1` and `completion_refs = 0`. */
  datatype Pub = NoPub | ByOwner | ByActor(t: Tid)

  datatype Req = Req(
    st: RState,
    refs: int,              // completion_refs
    node: Node,
    result: Result,
    cancelRequested: bool,
    // history
    loc: Loc,
    poster: Option<Tid>,       // the thread inside post_sdo that has not handed it over
    pinner: Option<Tid>,       // the thread between cancel pin and unpin
    pub: Pub,
    pinOwner: Option<Tid>,     // the thread that owes one subtraction from sdo_cancel_refs
    won: bool,              // a cancel of this post has been claimed before the transfer
    posts: nat,             // number of post attempts
    starts: nat,            // Client-SDO transfers issued
    sends: nat,             // completion events sent
    retired: bool,          // destroy has passed its state check
    freed: bool)

  datatype Cmd = SdoCmd(r: Rid) | CancelCmd(node: Node, r: Rid) | OtherCmd(k: nat)

  /** What a thread inside lely_rtt_master_command_post is posting. */
  datatype Job = JSdo(r: Rid) | JCancel(c: Call) | JOther(k: nat)

  /** Program counter inside lely_rtt_master_command_post. */
  datatype PPc =
    | LoadLatch1 | LoadQuiesce1 | AddRef | LoadLatch2 | LoadQuiesce2 | UndoRef
    | Send | Wake | Release(ok: bool) | Fin(ok: bool)

  /** A cancel call that pinned request r, post attempt ep, with pin k. */
  datatype Call = Call(r: Rid, k: Kind, ep: nat)

  datatype PubPc = Refs1 | CasDone | SendEvent | Refs0
  datatype ExtPc = EAdd | ECheck | EUndo | EIn

  /** Program counter and locals of an application thread, stop() caller or callback. */
  datatype Actor =
    | Idle
    | Posting(job: Job, ppc: PPc)
    | Rejecting(r: Rid)
    | CLoop(r: Rid, seen: RState)
    | CPinned(c: Call)
    | CbAdd(c: Call) | CbCheck(c: Call) | CbUndo(c: Call)
    | CUnpin(c: Call, ok: bool, cb: bool)
    | CPub(c: Call, ok: bool, cb: bool, ph: PubPc)
    | CSub(c: Call, ok: bool, cb: bool)
    | CTail(c: Call, ok: bool, cb: bool, wake: bool)
    | CRet(r: Rid, found: RState, ep: nat, ok: bool)
    | DWait(r: Rid)
    | Ext(eph: ExtPc)
    | StopSecond

  /** Owner program counter inside one owner operation. */
  datatype OPc =
    | OFree
    | ODispatch(r: Rid, avail: bool)
    | OStart(r: Rid)
    | OHead(n: Node) | OHeadCas(n: Node)
    | OQueuedLoad(r: Rid) | OQueuedCas(r: Rid)
    | OLoad(r: Rid, res: Result)
    | OLoop(r: Rid, seen: RState)
    | OStageCas(r: Rid, seen: RState) | OStageUndo(r: Rid, seen: RState)
    | OPubCas(r: Rid, seen: RState) | OPubUndo(r: Rid, seen: RState)
    | OPubSend(r: Rid) | OPubEnd(r: Rid)

  /** The owner's next life-cycle action; Run is the main loop. */
  datatype Stage =
    | OpenCheck | OpenStore | OpenRecheck | OpenUndo | Run
    | CleanLatch | CleanQuiesce | CleanWait | CleanClose | Drain
    | CancelAll(next: nat) | CancelWait | DeleteMq | CbWait | Exited

  function Rank(s: Stage): nat {
    match s
    case OpenCheck => 0 case OpenStore => 1 case OpenRecheck => 2 case OpenUndo => 3
    case Run => 4 case CleanLatch => 5 case CleanQuiesce => 6 case CleanWait => 7
    case CleanClose => 8 case Drain => 9 case CancelAll(_) => 10 case CancelWait => 11
    case DeleteMq => 12 case CbWait => 13 case Exited => 14
  }

  /** Owner-only state of one remote node: sdo_active, sdo_pending, and history. */
  datatype Work = Work(active: Option<Rid>, pending: seq<Rid>, dispatched: seq<Rid>, started: seq<Rid>)

  predicate Empty(w: Work) { w.active.None? && w.pending == [] }

  datatype State = State(
    mqDepth: nat, sdoDepth: nat,
    latch: bool, quiescing: bool, cmdRefs: int,
    mq: seq<Cmd>, mqOpen: bool,
    cbQuiescing: bool, cbRefs: int,
    cancelRefs: int,
    reqs: map<Rid, Req>,
    acts: map<Tid, Actor>,
    nodes: map<Node, Work>,
    pc: OPc, todo: seq<Rid>, stage: Stage,
    // history
    sent: seq<Cmd>, received: seq<Cmd>)

  // ----------------------------------------------------------------- steps

  /** A step of an application thread, callback or stop() caller t. */
  datatype AppLabel =
    | PostBeginL(t: Tid, r: Rid, n: Node)
    | OtherBeginL(t: Tid, k: nat)
    | PostL(t: Tid, sendOk: bool)
    | RejectL(t: Tid)
    | CancelBeginL(t: Tid, r: Rid)
    | CancelLoopL(t: Tid)
    | CallbackL(t: Tid)
    | UnpinL(t: Tid)
    | PublishL(t: Tid)
    | TailL(t: Tid)
    | DestroyBeginL(t: Tid, r: Rid)
    | DestroyFreeL(t: Tid)
    | ExtBeginL(t: Tid)
    | ExtL(t: Tid)
    | StopBeginL(t: Tid)
    | StopEndL(t: Tid)

  /** A step of the owner thread. */
  datatype OwnerLabel =
    | RecvL(avail: bool)
    | ConfirmL(n: Node, ac: nat, copied: bool)
    | CancelNodeL(n: Node)
    | ReapL(n: Node)
    | ClaimL
    | StartL(outcome: StartOutcome)
    | HeadL
    | QueuedL
    | NextL
    | CompleteL
    | StageL

  datatype StartOutcome = Issued | NotIssued(err: Err)

  function EmptyReq(n: Node): Req {
    Req(New, 0, n, Result(LocalError, EOk, 0), false,
        App, None, None, NoPub, None, false, 0, 0, 0, false, false)
  }

  predicate Init(g: State) {
    && 1 <= g.mqDepth && 1 <= g.sdoDepth
    && !g.latch && g.quiescing && g.cmdRefs == 0
    && g.mq == [] && g.mqOpen
    && !g.cbQuiescing && g.cbRefs == 0 && g.cancelRefs == 0
    && (forall r | r in g.reqs :: g.reqs[r] == EmptyReq(g.reqs[r].node) && g.reqs[r].node in g.nodes)
    && (forall t | t in g.acts :: g.acts[t] == Idle)
    && (forall n | n in g.nodes :: 1 <= n <= NmtGate.NUM_NODES)
    && (forall n | n in g.nodes :: g.nodes[n] == Work(None, [], [], []))
    && g.pc == OFree && g.todo == [] && g.stage == OpenCheck
    && g.sent == [] && g.received == []
  }

  /** Every name used in a state denotes something. */
  predicate Typed(g: State) {
    && ActsTyped(g.reqs, g.acts)
    && OwnerTyped(g.reqs, g.nodes, g.mq, g.todo, g.pc)
  }

  predicate ActsTyped(reqs: map<Rid, Req>, acts: map<Tid, Actor>) {
    forall t | t in acts :: Named(reqs, ReqOfActor(acts[t]))
  }

  predicate OwnerTyped(reqs: map<Rid, Req>, nodes: map<Node, Work>, mq: seq<Cmd>, todo: seq<Rid>, pc: OPc) {
    && (forall n | n in nodes :: 1 <= n <= NmtGate.NUM_NODES && WorkTyped(reqs, nodes[n]))
    && (forall r | r in reqs :: reqs[r].node in nodes)
    && Named(reqs, ReqOfPc(pc))
    && ((pc.OHead? || pc.OHeadCas?) ==> pc.n in nodes)
    && (forall i | 0 <= i < |mq| :: CmdTyped(reqs, nodes, mq[i]))
    && (forall i | 0 <= i < |todo| :: todo[i] in reqs)
  }

  predicate Named(reqs: map<Rid, Req>, o: Option<Rid>) { o.Some? ==> o.value in reqs }

  predicate WorkTyped(reqs: map<Rid, Req>, w: Work) {
    Named(reqs, w.active) && forall i | 0 <= i < |w.pending| :: w.pending[i] in reqs
  }

  predicate CmdTyped(reqs: map<Rid, Req>, nodes: map<Node, Work>, c: Cmd) {
    match c
    case SdoCmd(r) => r in reqs
    case CancelCmd(n, _) => n in nodes
    case OtherCmd(_) => true
  }

  /** The request an actor still refers to. */
  function ReqOfActor(a: Actor): Option<Rid> {
    match a
    case Idle => None
    case Posting(JSdo(r), _) => Some(r)
    case Posting(JCancel(c), _) => Some(c.r)
    case Posting(JOther(_), _) => None
    case Rejecting(r) => Some(r)
    case CLoop(r, _) => Some(r)
    case CPinned(c) => Some(c.r)
    case CbAdd(c) => Some(c.r)
    case CbCheck(c) => Some(c.r)
    case CbUndo(c) => Some(c.r)
    case CUnpin(c, _, _) => Some(c.r)
    case CPub(c, _, _, _) => Some(c.r)
    case CSub(c, _, _) => Some(c.r)
    case CTail(c, _, _, _) => Some(c.r)
    case CRet(r, _, _, _) => Some(r)
    case DWait(r) => Some(r)
    case Ext(_) => None
    case StopSecond => None
  }

  function ReqOfPc(pc: OPc): Option<Rid> {
    match pc
    case OFree => None
    case OHead(_) => None
    case OHeadCas(_) => None
    case ODispatch(r, _) => Some(r)
    case OStart(r) => Some(r)
    case OQueuedLoad(r) => Some(r)
    case OQueuedCas(r) => Some(r)
    case OLoad(r, _) => Some(r)
    case OLoop(r, _) => Some(r)
    case OStageCas(r, _) => Some(r)
    case OStageUndo(r, _) => Some(r)
    case OPubCas(r, _) => Some(r)
    case OPubUndo(r, _) => Some(r)
    case OPubSend(r) => Some(r)
    case OPubEnd(r) => Some(r)
  }

  function At(g: State, t: Tid, a: Actor): State { g.(acts := g.acts[t := a]) }
  function With(g: State, r: Rid, q: Req): State { g.(reqs := g.reqs[r := q]) }
  function OnNode(g: State, n: Node, w: Work): State { g.(nodes := g.nodes[n := w]) }

  /** A step of thread t leaves the owner, the admission flags and other threads alone. */
  predicate ThreadFrame(g: State, g': State, t: Tid) {
    && t in g'.acts && g'.acts == g.acts[t := g'.acts[t]]
    && g'.stage == g.stage && g'.pc == g.pc && g'.todo == g.todo && g'.nodes == g.nodes && g'.received == g.received
    && g'.latch == g.latch && g'.quiescing == g.quiescing && g'.cbQuiescing == g.cbQuiescing
    && g'.mqDepth == g.mqDepth && g'.mqOpen == g.mqOpen
  }

  // --- lely_rtt_master_command_post and its acquire/release

  function JobCmd(g: State, job: Job): Cmd
    requires Typed(g)
    requires job.JCancel? ==> job.c.r in g.reqs
  {
    match job
    case JSdo(r) => SdoCmd(r)
    case JCancel(c) => CancelCmd(g.reqs[c.r].node, c.r)
    case JOther(k) => OtherCmd(k)
  }

  /** A successful rt_mq_send hands the request over, or settles a pending cancel. */
  function Accepted(q: Req, job: Job): Req {
    match job
    case JSdo(_) => q.(loc := InQueue, poster := None)
    case JCancel(c) => if c.k.PendingK? then q.(won := true) else q
    case JOther(_) => q
  }

  function SendStep(g: State, t: Tid, job: Job): (g': State)
    requires Typed(g) && t in g.acts && g.acts[t] == Posting(job, Send)
    ensures ThreadFrame(g, g', t)
    ensures g'.acts[t] == Posting(job, Wake)
    ensures g'.mq == g.mq + [JobCmd(g, job)] && g'.sent == g.sent + [JobCmd(g, job)]
  {
    var cmd := JobCmd(g, job);
    var g1 := At(g, t, Posting(job, Wake)).(mq := g.mq + [cmd], sent := g.sent + [cmd]);
    match job
    case JOther(_) => g1
    case JSdo(r) => With(g1, r, Accepted(g.reqs[r], job))
    case JCancel(c) => With(g1, c.r, Accepted(g.reqs[c.r], job))
  }

  /** Where the caller of command_post continues with its result. */
  function PostReturn(job: Job, ok: bool): Actor {
    match job
    case JSdo(r) => if ok then Idle else Rejecting(r)
    case JCancel(c) => CUnpin(c, ok, c.k.PendingK?)
    case JOther(_) => Idle
  }

  /** Where a thread inside command_post goes next, except at the queue send itself. */
  function PostNext(latch: bool, quiescing: bool, job: Job, p: PPc): Actor
    requires !p.Send?
  {
    match p
    case LoadLatch1 => Posting(job, if latch then Fin(false) else LoadQuiesce1)
    case LoadQuiesce1 => Posting(job, if quiescing then Fin(false) else AddRef)
    case AddRef => Posting(job, LoadLatch2)
    case LoadLatch2 => Posting(job, if latch then UndoRef else LoadQuiesce2)
    case LoadQuiesce2 => Posting(job, if quiescing then UndoRef else Send)
    case UndoRef => Posting(job, Fin(false))
    case Wake => Posting(job, Release(true))
    case Release(ok) => Posting(job, Fin(ok))
    case Fin(ok) => PostReturn(job, ok)
  }

  function RefDelta(p: PPc): int {
    if p.AddRef? then 1 else if p.UndoRef? || p.Release? then -1 else 0
  }

  function PostStep(g: State, t: Tid, sendOk: bool): (g': State)
    requires Typed(g) && t in g.acts && g.acts[t].Posting?
    ensures ThreadFrame(g, g', t)
  {
    var job, p := g.acts[t].job, g.acts[t].ppc;
    if p.Send? then
      if g.mqOpen && sendOk && |g.mq| < g.mqDepth then SendStep(g, t, job)
      else At(g, t, Posting(job, Release(false)))
    else At(g, t, PostNext(g.latch, g.quiescing, job, p)).(cmdRefs := g.cmdRefs + RefDelta(p))
  }

  // --- lely_rtt_runtime_post_sdo

  function Posted(q: Req, t: Tid, n: Node): Req {
    q.(st := Queued, node := n, result := Result(LocalError, EOk, 0), cancelRequested := false,
       poster := Some(t), won := false, posts := q.posts + 1)
  }

  function PostBegin(g: State, t: Tid, r: Rid, n: Node): (g': State)
    requires r in g.reqs
    ensures ThreadFrame(g, g', t) && g'.sent == g.sent
  {
    With(At(g, t, Posting(JSdo(r), LoadLatch1)), r, Posted(g.reqs[r], t, n))
  }

  function Reject(g: State, t: Tid): (g': State)
    requires Typed(g) && t in g.acts && g.acts[t].Rejecting?
    ensures ThreadFrame(g, g', t) && g'.sent == g.sent
  {
    var r := g.acts[t].r;
    With(At(g, t, Idle), r, g.reqs[r].(st := New, poster := None, won := false))
  }

  // --- lely_rtt_sdo_request_cancel

  /** Which pin the caller takes when it saw PENDING or ACTIVE. */
  function PinKind(seen: RState): Kind { if seen.Pending? then PendingK else ActiveK }

  function CancelNext(r: Rid, seen: RState, q: Req): Actor {
    if seen.CancelPending? then CRet(r, seen, q.posts, true)
    else if seen.Pending? || seen.Active? then
      if q.st == seen then CPinned(Call(r, PinKind(seen), q.posts)) else CLoop(r, q.st)
    else if seen.Queued? then
      if q.st.Queued? then CRet(r, seen, q.posts, true) else CLoop(r, q.st)
    else CRet(r, seen, q.posts, false)
  }

  function CancelReq(t: Tid, seen: RState, q: Req): Req {
    if q.st != seen then q
    else if seen.Pending? || seen.Active? then q.(st := Pinned(PinKind(seen)), pinner := Some(t))
    else if seen.Queued? then q.(st := CancelPending, won := true)
    else q
  }

  /** One pass of the compare-and-swap loop of lely_rtt_sdo_request_cancel. */
  function CancelLoop(g: State, t: Tid): (g': State)
    requires Typed(g) && t in g.acts && g.acts[t].CLoop?
    ensures ThreadFrame(g, g', t) && g'.sent == g.sent
  {
    var r, seen := g.acts[t].r, g.acts[t].seen;
    var q := g.reqs[r];
    With(At(g, t, CancelNext(r, seen, q)), r, CancelReq(t, seen, q))
  }

  /** Identity copy and, for a pending request, lely_rtt_callback_acquire. */
  function CallbackNext(quiescing: bool, a: Actor): Actor
    requires a.CPinned? || a.CbAdd? || a.CbCheck? || a.CbUndo?
  {
    match a
    case CPinned(c) =>
      if c.k.ActiveK? then Posting(JCancel(c), LoadLatch1)
      else if quiescing then CUnpin(c, false, false) else CbAdd(c)
    case CbAdd(c) => CbCheck(c)
    case CbCheck(c) => if quiescing then CbUndo(c) else Posting(JCancel(c), LoadLatch1)
    case CbUndo(c) => CUnpin(c, false, false)
  }

  function CallbackStep(g: State, t: Tid): (g': State)
    requires t in g.acts && (g.acts[t].CPinned? || g.acts[t].CbAdd? || g.acts[t].CbCheck? || g.acts[t].CbUndo?)
    ensures ThreadFrame(g, g', t) && g'.sent == g.sent
  {
    var a := g.acts[t];
    At(g, t, CallbackNext(g.cbQuiescing, a)).(
      cbRefs := g.cbRefs + if a.CbAdd? then 1 else if a.CbUndo? then -1 else 0)
  }

  function Unpinned(q: Req, c: Call, ok: bool): Req {
    q.(st := if ok && c.k.PendingK? then CancelPending else Base(c.k), pinner := None)
  }

  /** First compare-and-swap of lely_rtt_sdo_request_cancel_unpin. */
  function UnpinStep(g: State, t: Tid): (g': State)
    requires Typed(g) && t in g.acts && g.acts[t].CUnpin?
    ensures ThreadFrame(g, g', t) && g'.sent == g.sent
  {
    var c, ok, cb := g.acts[t].c, g.acts[t].ok, g.acts[t].cb;
    var q := g.reqs[c.r];
    if q.st == Pinned(c.k) then
      With(At(g, t, CTail(c, ok, cb, !ok && c.k.PendingK?)), c.r, Unpinned(q, c, ok))
    else if q.st == Staged(c.k) then At(g, t, CPub(c, ok, cb, Refs1))
    else At(g, t, CTail(c, ok, cb, false))
  }

  /** Staged publication inside cancel_unpin, ending with the runtime pin release. */
  function PublishNext(a: Actor): Actor
    requires a.CPub? || a.CSub?
  {
    match a
    case CPub(c, ok, cb, Refs1) => CPub(c, ok, cb, CasDone)
    case CPub(c, ok, cb, CasDone) => CPub(c, ok, cb, SendEvent)
    case CPub(c, ok, cb, SendEvent) => CPub(c, ok, cb, Refs0)
    case CPub(c, ok, cb, Refs0) => CSub(c, ok, cb)
    case CSub(c, ok, cb) => CTail(c, ok, cb, false)
  }

  function PublishReq(t: Tid, a: Actor, q: Req): Req
    requires a.CPub? || a.CSub?
  {
    match a
    case CPub(_, _, _, Refs1) => q.(refs := 1, pub := ByActor(t))
    case CPub(_, _, _, CasDone) => q.(st := Done, pinner := None)
    case CPub(_, _, _, SendEvent) => q.(sends := q.sends + 1)
    case CPub(_, _, _, Refs0) => q.(refs := 0, pub := NoPub)
    case CSub(_, _, _) => q.(pinOwner := None)
  }

  function PublishStep(g: State, t: Tid): (g': State)
    requires Typed(g) && t in g.acts && (g.acts[t].CPub? || g.acts[t].CSub?)
    ensures ThreadFrame(g, g', t) && g'.sent == g.sent
  {
    var a := g.acts[t];
    var q := g.reqs[a.c.r];
    if a.CPub? && a.ph.CasDone? && q.st != Staged(a.c.k) then At(g, t, CPub(a.c, a.ok, a.cb, Refs0))
    else With(At(g, t, PublishNext(a)), a.c.r, PublishReq(t, a, q)).(
           cancelRefs := g.cancelRefs - if a.CSub? then 1 else 0)
  }

  /** Recovery wake and lely_rtt_callback_release at the end of cancel. */
  function TailNext(a: Actor): Actor
    requires a.CTail? || a.CRet?
  {
    match a
    case CTail(c, ok, cb, wake) =>
      if wake && cb then CTail(c, ok, cb, false) else CRet(c.r, Base(c.k), c.ep, ok)
    case CRet(_, _, _, _) => Idle
  }

  function TailStep(g: State, t: Tid): (g': State)
    requires t in g.acts && (g.acts[t].CTail? || g.acts[t].CRet?)
    ensures ThreadFrame(g, g', t) && g'.sent == g.sent
  {
    var a := g.acts[t];
    At(g, t, TailNext(a)).(cbRefs := g.cbRefs - if a.CTail? && a.cb && !a.wake then 1 else 0)
  }

  // --- external callbacks (CAN, timer) and stop()

  function ExtNext(quiescing: bool, e: ExtPc): Actor {
    match e
    case EAdd => Ext(ECheck)
    case ECheck => Ext(if quiescing then EUndo else EIn)
    case EUndo => Idle
    case EIn => Idle
  }

  function ExtStep(g: State, t: Tid): (g': State)
    requires t in g.acts && g.acts[t].Ext?
    ensures ThreadFrame(g, g', t) && g'.sent == g.sent
  {
    var e := g.acts[t].eph;
    At(g, t, ExtNext(g.cbQuiescing, e)).(
      cbRefs := g.cbRefs + if e.EAdd? then 1 else if e.ECheck? then 0 else -1)
  }

  /** The owner's work on requests leaves threads, admission and its own stage alone. */
  predicate OwnerFrame(g: State, g': State) {
    && g'.acts == g.acts && g'.stage == g.stage
    && g'.latch == g.latch && g'.quiescing == g.quiescing && g'.cmdRefs == g.cmdRefs && g'.cbRefs == g.cbRefs
    && g'.sent == g.sent && g'.mqDepth == g.mqDepth && g'.mqOpen == g.mqOpen
  }

  // --- owner: lely_rtt_master_sdo_complete

  predicate InComplete(pc: OPc) {
    pc.OLoad? || pc.OLoop? || pc.OStageCas? || pc.OStageUndo?
    || pc.OPubCas? || pc.OPubUndo? || pc.OPubSend? || pc.OPubEnd?
  }

  /** The request record after the next atomic operation of complete. */
  function CompleteReq(pc: OPc, q: Req): Req {
    match pc
    case OLoad(_, res) => if IsFinal(q.st) then q else q.(result := res)
    case OLoop(_, seen) => if IsFinal(seen) || IsPinned(seen) then q else q.(refs := 1, pub := ByOwner)
    case OStageCas(_, seen) =>
      if q.st == seen && IsPinned(seen) then q.(st := StagedOf(seen), loc := Gone, pinOwner := q.pinner) else q
    case OPubCas(_, seen) => if q.st == seen then q.(st := Done, loc := Gone) else q
    case OPubUndo(_, _) => q.(refs := 0, pub := NoPub)
    case OPubSend(_) => q.(sends := q.sends + 1)
    case OPubEnd(_) => q.(refs := 0, pub := NoPub)
    case _ => q
  }

  /** The owner's program counter after the next atomic operation of complete. */
  function CompletePc(pc: OPc, q: Req): OPc {
    match pc
    case OLoad(r, _) => if IsFinal(q.st) then OFree else OLoop(r, q.st)
    case OLoop(r, seen) =>
      if IsFinal(seen) then OFree else if IsPinned(seen) then OStageCas(r, seen) else OPubCas(r, seen)
    case OStageCas(r, seen) => if q.st == seen && IsPinned(seen) then OFree else OStageUndo(r, q.st)
    case OStageUndo(r, seen) => OLoop(r, seen)
    case OPubCas(r, seen) => if q.st == seen then OPubSend(r) else OPubUndo(r, q.st)
    case OPubUndo(r, seen) => OLoop(r, seen)
    case OPubSend(r) => OPubEnd(r)
    case _ => OFree
  }

  /** Its effect on sdo_cancel_refs. */
  function CompleteDelta(pc: OPc): int {
    if pc.OLoop? && IsPinned(pc.seen) then 1 else if pc.OStageUndo? then -1 else 0
  }

  function OwnerComplete(g: State): (g': State)
    requires Typed(g) && InComplete(g.pc)
    ensures OwnerFrame(g, g')
  {
    var r := ReqOfPc(g.pc).value;
    var q := g.reqs[r];
    With(g, r, CompleteReq(g.pc, q)).(pc := CompletePc(g.pc, q), cancelRefs := g.cancelRefs + CompleteDelta(g.pc))
  }

  // --- owner: dispatch, claim, FIFO, start, cancel

  /** Take one command from the queue: dispatch in the main loop, cancel in the final drain. */
  function Recv(g: State, avail: bool): (g': State)
    requires Typed(g) && g.mq != []
    ensures OwnerFrame(g, g')
  {
    var cmd := g.mq[0];
    var g1 := g.(mq := g.mq[1..], received := g.received + [cmd]);
    match cmd
    case OtherCmd(_) => g1
    case SdoCmd(r) =>
      var q := g.reqs[r].(loc := OwnerHand);
      With(g1, r, q).(pc := if g.stage.Drain? then OQueuedLoad(r) else ODispatch(r, avail))
    case CancelCmd(n, r) => if g.stage.Drain? then g1 else CancelDispatch(g1, n, r)
  }

  /** Unlink and complete a request as canceled. */
  function ToCancel(g: State, r: Rid): (g': State)
    requires r in g.reqs
    ensures OwnerFrame(g, g')
  {
    With(g, r, g.reqs[r].(loc := OwnerHand, cancelRequested := true)).(pc := OLoad(r, CANCELED))
  }

  /** lely_rtt_master_sdo_cancel_dispatch: aborting the transfer confirms synchronously. */
  function CancelDispatch(g: State, n: Node, r: Rid): (g': State)
    requires n in g.nodes && WorkTyped(g.reqs, g.nodes[n])
    ensures OwnerFrame(g, g')
  {
    var w := g.nodes[n];
    if w.active == Some(r) then ToCancel(OnNode(g, n, w.(active := None)), r)
    else if r in w.pending then ToCancel(OnNode(g, n, w.(pending := Without(w.pending, r))), r)
    else g
  }

  function Without(s: seq<Rid>, r: Rid): seq<Rid> {
    if s == [] then [] else if s[0] == r then s[1..] else [s[0]] + Without(s[1..], r)
  }

  /** What dispatch wants to do with a request: refuse it, append it to the FIFO or start it. */
  datatype Verdict = Refuse | Enqueue | Begin

  function Judge(avail: bool, w: Work, depth: nat): Verdict {
    if !avail then Refuse
    else if Empty(w) then Begin
    else if |w.pending| >= depth then Refuse else Enqueue
  }

  function ClaimReq(v: Verdict, q: Req): Req {
    if q.st.Queued? then if v.Enqueue? then q.(st := Pending, loc := InPending) else q.(st := Active)
    else if q.st.CancelPending? then q.(cancelRequested := true) else q
  }

  function ClaimWork(v: Verdict, q: Req, r: Rid, w: Work): Work {
    var w1 := w.(dispatched := w.dispatched + [r]);
    if !q.st.Queued? || v.Refuse? then w1
    else if v.Enqueue? then w1.(pending := w.pending + [r]) else w1.(started := w.started + [r])
  }

  function ClaimPc(v: Verdict, q: Req, r: Rid): OPc {
    if q.st.Queued? then
      match v
      case Refuse => OLoad(r, Result(LocalError, EBusy, 0))
      case Enqueue => OFree
      case Begin => OStart(r)
    else if q.st.CancelPending? then OLoad(r, CANCELED) else OFree
  }

  /** lely_rtt_master_sdo_dispatch after the availability check, up to the claim. */
  function Claim(g: State): (g': State)
    requires Typed(g) && g.pc.ODispatch?
    ensures OwnerFrame(g, g')
  {
    var r := g.pc.r;
    var q := g.reqs[r];
    var w := g.nodes[q.node];
    var v := Judge(g.pc.avail, w, g.sdoDepth);
    With(OnNode(g, q.node, ClaimWork(v, q, r, w)), r, ClaimReq(v, q)).(pc := ClaimPc(v, q, r))
  }

  /** lely_rtt_master_sdo_start_active. */
  function Start(g: State, outcome: StartOutcome): (g': State)
    requires Typed(g) && g.pc.OStart?
    ensures OwnerFrame(g, g')
  {
    var r := g.pc.r;
    var q := g.reqs[r];
    match outcome
    case Issued =>
      With(OnNode(g, q.node, g.nodes[q.node].(active := Some(r))), r,
           q.(loc := IsActive, starts := q.starts + 1)).(pc := OFree)
    case NotIssued(err) => g.(pc := OLoad(r, Result(LocalError, err, 0)))
  }

  /** Transfer confirmation: up_con/dn_con and finish_protocol. */
  function Confirm(g: State, n: Node, ac: nat, copied: bool): (g': State)
    requires Typed(g) && n in g.nodes && g.nodes[n].active.Some?
    ensures OwnerFrame(g, g')
  {
    var r := g.nodes[n].active.value;
    var q := g.reqs[r];
    var res := if ac == 0 && !copied then Result(LocalError, ENoMem, 0)
               else if q.cancelRequested then Result(Canceled, EOk, ac)
               else if ac != 0 then Result(Abort, EOk, ac) else Result(Ok, EOk, 0);
    With(OnNode(g, n, g.nodes[n].(active := None)), r, q.(loc := OwnerHand)).(pc := OLoad(r, res))
  }

  /** Requests owned by a node, the active one first. */
  function NodeWork(w: Work): seq<Rid> {
    (if w.active.Some? then [w.active.value] else []) + w.pending
  }

  /** Detach all work of a node (lely_rtt_master_sdo_cancel_node); LNext completes it. */
  function CancelNode(g: State, n: Node): (g': State)
    requires n in g.nodes
    ensures OwnerFrame(g, g')
  {
    var w := NodeWork(g.nodes[n]);
    OnNode(g, n, g.nodes[n].(active := None, pending := [])).(
      todo := w,
      reqs := map r | r in g.reqs :: if r in w then g.reqs[r].(loc := InTodo) else g.reqs[r])
  }

  /** lely_rtt_master_sdo_start_pending on a non-empty FIFO. */
  function Head(g: State): (g': State)
    requires Typed(g) && (g.pc.OHead? || g.pc.OHeadCas?) && g.nodes[g.pc.n].pending != []
    ensures OwnerFrame(g, g')
  {
    var n := g.pc.n;
    var w := g.nodes[n];
    var r := w.pending[0];
    var q := g.reqs[r];
    if g.pc.OHead? then
      if q.st.CancelPending? then ToCancel(OnNode(g, n, w.(pending := w.pending[1..])), r)
      else g.(pc := OHeadCas(n))
    else if q.st.Pending? then
      With(OnNode(g, n, w.(pending := w.pending[1..], started := w.started + [r])), r,
           q.(st := Active, loc := OwnerHand)).(pc := OStart(r))
    else g.(pc := OFree)
  }

  function QueuedReq(pc: OPc, q: Req): Req {
    if q.st.CancelPending? then q.(cancelRequested := true)
    else if q.st.Queued? && pc.OQueuedCas? then q.(st := TeardownPending, cancelRequested := true) else q
  }

  function QueuedPc(pc: OPc, r: Rid, q: Req): OPc {
    if q.st.CancelPending? then OLoad(r, CANCELED)
    else if !q.st.Queued? then OFree
    else if pc.OQueuedLoad? then OQueuedCas(r) else OLoad(r, Result(Canceled, EOk, 0))
  }

  /** lely_rtt_master_sdo_cancel_queued. */
  function CancelQueued(g: State): (g': State)
    requires Typed(g) && (g.pc.OQueuedLoad? || g.pc.OQueuedCas?)
    ensures OwnerFrame(g, g')
  {
    var r := g.pc.r;
    var q := g.reqs[r];
    With(g, r, QueuedReq(g.pc, q)).(pc := QueuedPc(g.pc, r, q))
  }

  function NextTodo(g: State): (g': State)
    requires g.todo != [] && g.todo[0] in g.reqs
    ensures OwnerFrame(g, g')
  {
    ToCancel(g.(todo := g.todo[1..]), g.todo[0])
  }

  /** Admission opening, main-loop exit and lely_rtt_owner_cleanup: the action after this one. */
  function NextStage(g: State): Stage {
    match g.stage
    case OpenCheck => if g.latch then Run else OpenStore
    case OpenStore => OpenRecheck
    case OpenRecheck => if g.latch then OpenUndo else Run
    case OpenUndo => Run
    case Run => CleanLatch
    case CleanLatch => CleanQuiesce
    case CleanQuiesce => CleanWait
    case CleanWait => if g.cmdRefs == 0 then CleanClose else CleanWait
    case CleanClose => Drain
    case Drain => if g.mq == [] then CancelAll(1) else Drain
    case CancelAll(n) => if n > NmtGate.NUM_NODES then CancelWait else CancelAll(n + 1)
    case CancelWait => if g.cancelRefs == 0 then DeleteMq else CancelWait
    case DeleteMq => CbWait
    case CbWait => if g.cbRefs == 0 then Exited else CbWait
    case Exited => Exited
  }

  function StageStep(g: State): State {
    if g.stage.CancelAll? && g.stage.next <= NmtGate.NUM_NODES && g.stage.next in g.nodes then
      CancelNode(g, g.stage.next).(stage := NextStage(g))
    else
      g.(latch := g.latch || g.stage.CleanLatch?,
         quiescing := if g.stage.OpenStore? then false else g.quiescing || g.stage.OpenUndo? || g.stage.CleanQuiesce?,
         cbQuiescing := g.cbQuiescing || g.stage.CleanClose?,
         mqOpen := g.mqOpen && !g.stage.DeleteMq?,
         stage := NextStage(g))
  }

  /** The owner is between two operations. */
  predicate OwnerFree(g: State) { g.pc.OFree? && g.todo == [] }

  predicate AppEnabled(g: State, l: AppLabel)
    requires Typed(g)
  {
    && l.t in g.acts
    && var a := g.acts[l.t];
    match l
    case PostBeginL(t, r, n) =>
      a.Idle? && r in g.reqs && n in g.nodes && g.reqs[r].st.New? && g.reqs[r].poster.None? && !g.reqs[r].retired
    case OtherBeginL(t, _) => a.Idle?
    case PostL(t, _) => a.Posting?
    case RejectL(t) => a.Rejecting?
    case CancelBeginL(t, r) => a.Idle? && r in g.reqs && !g.reqs[r].freed
    case CancelLoopL(t) => a.CLoop? && !g.reqs[a.r].freed
    case CallbackL(t) => a.CPinned? || a.CbAdd? || a.CbCheck? || a.CbUndo?
    case UnpinL(t) => a.CUnpin?
    case PublishL(t) => a.CPub? || a.CSub?
    case TailL(t) => a.CTail? || a.CRet?
    case DestroyBeginL(t, r) =>
      a.Idle? && r in g.reqs && !g.reqs[r].retired && g.reqs[r].poster.None? && (g.reqs[r].st.New? || g.reqs[r].st.Done?)
    case DestroyFreeL(t) => a.DWait? && g.reqs[a.r].refs == 0
    case ExtBeginL(t) => a.Idle? && !g.cbQuiescing
    case ExtL(t) => a.Ext?
    case StopBeginL(t) => a.Idle?
    case StopEndL(t) => a.StopSecond?
  }

  function AppStep(g: State, l: AppLabel): State
    requires Typed(g) && AppEnabled(g, l)
  {
    match l
    case PostBeginL(t, r, n) => PostBegin(g, t, r, n)
    case OtherBeginL(t, k) => At(g, t, Posting(JOther(k), LoadLatch1))
    case PostL(t, sendOk) => PostStep(g, t, sendOk)
    case RejectL(t) => Reject(g, t)
    case CancelBeginL(t, r) => At(g, t, CLoop(r, g.reqs[r].st))
    case CancelLoopL(t) => CancelLoop(g, t)
    case CallbackL(t) => CallbackStep(g, t)
    case UnpinL(t) => UnpinStep(g, t)
    case PublishL(t) => PublishStep(g, t)
    case TailL(t) => TailStep(g, t)
    case DestroyBeginL(t, r) => With(At(g, t, DWait(r)), r, g.reqs[r].(retired := true))
    case DestroyFreeL(t) => With(At(g, t, Idle), g.acts[t].r, g.reqs[g.acts[t].r].(freed := true))
    case ExtBeginL(t) => At(g, t, Ext(EAdd))
    case ExtL(t) => ExtStep(g, t)
    case StopBeginL(t) => At(g, t, StopSecond).(latch := true)
    case StopEndL(t) => At(g, t, Idle).(quiescing := true)
  }

  predicate OwnerEnabled(g: State, l: OwnerLabel)
    requires Typed(g)
  {
    match l
    case RecvL(_) => OwnerFree(g) && (g.stage.Run? || g.stage.Drain?) && g.mq != []
    case ConfirmL(n, _, _) => OwnerFree(g) && g.stage.Run? && n in g.nodes && g.nodes[n].active.Some?
    case CancelNodeL(n) => OwnerFree(g) && g.stage.Run? && n in g.nodes
    case ReapL(n) =>
      OwnerFree(g) && g.stage.Run? && n in g.nodes && g.nodes[n].active.None? && g.nodes[n].pending != []
    case ClaimL => g.pc.ODispatch?
    case StartL(_) => g.pc.OStart?
    case HeadL => (g.pc.OHead? || g.pc.OHeadCas?) && g.nodes[g.pc.n].pending != []
    case QueuedL => g.pc.OQueuedLoad? || g.pc.OQueuedCas?
    case NextL => g.pc.OFree? && g.todo != []
    case CompleteL => InComplete(g.pc)
    case StageL => OwnerFree(g)
  }

  function OwnerStep(g: State, l: OwnerLabel): State
    requires Typed(g) && OwnerEnabled(g, l)
  {
    match l
    case RecvL(avail) => Recv(g, avail)
    case ConfirmL(n, ac, copied) => Confirm(g, n, ac, copied)
    case CancelNodeL(n) => CancelNode(g, n)
    case ReapL(n) => g.(pc := OHead(n))
    case ClaimL => Claim(g)
    case StartL(outcome) => Start(g, outcome)
    case HeadL => Head(g)
    case QueuedL => CancelQueued(g)
    case NextL => NextTodo(g)
    case CompleteL => OwnerComplete(g)
    case StageL => StageStep(g)
  }

  datatype Label = ByApp(a: AppLabel) | ByTheOwner(o: OwnerLabel)

  predicate Enabled(g: State, l: Label)
    requires Typed(g)
  {
    match l
    case ByApp(a) => AppEnabled(g, a)
    case ByTheOwner(o) => OwnerEnabled(g, o)
  }

  function Apply(g: State, l: Label): State
    requires Typed(g) && Enabled(g, l)
  {
    match l
    case ByApp(a) => AppStep(g, a)
    case ByTheOwner(o) => OwnerStep(g, o)
  }
}
