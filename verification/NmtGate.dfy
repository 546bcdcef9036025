/** The per-node gate that keeps application SDO transfers away from resets and boots. */
module NmtGate {
  import opened Options

  const NUM_NODES: nat := 127

  /** NMT states of a remote node, and the commands of the master. */
  datatype State = Bootup | StopSt | Preop | Start | OtherSt
  datatype Command = CmdStart | CmdStop | CmdPreop | CmdResetNode | CmdResetComm | CmdOther

  predicate IsReset(c: Command) { c.CmdResetNode? || c.CmdResetComm? }
  predicate Usable(s: State) { s.Preop? || s.Start? }

  // ------------------------------------------------------------- one node's gate

  datatype Node = Node(suspended: bool, reset: bool, bootValid: bool)

  function AfterCommand(g: Node, c: Command): Node {
    match c
    case CmdStop => g.(suspended := true)
    case CmdResetNode => g.(suspended := true, reset := true)
    case CmdResetComm => g.(suspended := true, reset := true)
    case CmdStart => if g.reset then g else g.(suspended := false)
    case CmdPreop => if g.reset then g else g.(suspended := false)
    case CmdOther => g
  }

  function AfterBoot(g: Node, s: State): Node { g.(suspended := !Usable(s), reset := false, bootValid := true) }

  /** The gate's reaction to a state, after the NMT service has processed it. */
  function AfterState(g: Node, s: State, booting: bool): Node {
    match s
    case Bootup => g.(suspended := booting, reset := booting)
    case StopSt => g.(suspended := true)
    case Preop => if g.reset then g else g.(suspended := false, reset := false)
    case Start => if g.reset then g else g.(suspended := false, reset := false)
    case OtherSt => g
  }

  /**
   A state indication.  The NMT service may complete a boot process while it
   processes the state (sync), and may be booting the node afterwards.
   */
  function AfterInd(g: Node, s: State, sync: Option<State>, booting: bool): Node {
    var g1 := if s.Bootup? then g.(bootValid := false, suspended := true, reset := true) else g;
    var g2 := if sync.Some? then AfterBoot(g1, sync.value) else g1;
    if s.Bootup? && g2.bootValid then g2 else AfterState(g2, s, booting)
  }

  datatype Event =
    | Commanded(c: Command)
    | Indicated(s: State, sync: Option<State>, booting: bool)
    | Booted(s: State)
    | TornDown

  function After(g: Node, e: Event): Node {
    match e
    case Commanded(c) => AfterCommand(g, c)
    case Indicated(s, sync, booting) => AfterInd(g, s, sync, booting)
    case Booted(s) => AfterBoot(g, s)
    case TornDown => g.(suspended := false, reset := false)
  }

  /** Owner policy: may a transfer start for the node now? */
  predicate Available(g: Node, booting: bool, cfgBusy: bool) { !g.suspended && !booting && !cfgBusy }

  // ------------------------------------------------------------------- theorems

  predicate Held(g: Node) { g.suspended && g.reset }
  predicate Sane(g: Node) { g.reset ==> g.suspended }

  /** The events that end a reset hold. */
  predicate Releases(e: Event) {
    match e
    case Commanded(_) => false
    case Indicated(s, sync, booting) => sync.Some? || (s.Bootup? && !booting)
    case Booted(_) => true
    case TornDown => true
  }

  /**
   Of these, the ones that leave the gate open: a boot that completes opens it if the
   node ended in a usable state; after it a state indication other than Boot-up has
   the last word, and Boot-up itself opens the gate if it starts no boot process.
   */
  predicate Opens(e: Event) {
    match e
    case Commanded(_) => false
    case Indicated(Bootup, Some(b), _) => Usable(b)
    case Indicated(Bootup, None, booting) => !booting
    case Indicated(StopSt, _, _) => false
    case Indicated(Preop, sync, _) => sync.Some?
    case Indicated(Start, sync, _) => sync.Some?
    case Indicated(OtherSt, sync, _) => sync.Some? && Usable(sync.value)
    case Booted(b) => Usable(b)
    case TornDown => true
  }

  lemma HeldIffNotReleased(g: Node, e: Event)
    requires Held(g)
    ensures Held(After(g, e)) <==> !Releases(e)
    ensures !After(g, e).suspended <==> Opens(e)
  {
  }

  /** A boot that completes while Boot-up is processed decides alone: unusable states stay closed. */
  lemma SyncBootDecides(g: Node, s: State, booting: bool)
    ensures AfterInd(g, Bootup, Some(s), booting) == Node(!Usable(s), false, true)
  {
  }

  /** The gate after a sequence of events. */
  function Afterwards(g: Node, es: seq<Event>): Node
    decreases |es|
  {
    if es == [] then g else Afterwards(After(g, es[0]), es[1..])
  }

  lemma {:induction false} AfterwardsNext(g: Node, es: seq<Event>, k: nat)
    requires k < |es|
    ensures Afterwards(g, es[..k + 1]) == After(Afterwards(g, es[..k]), es[k])
    decreases k
  {
    hide After;
    if k > 0 {
      AfterwardsNext(After(g, es[0]), es[1..], k - 1);
      assert es[..k + 1][1..] == es[1..][..k] && es[..k][1..] == es[1..][..k - 1];
    } else {
      assert es[..1] == [es[0]];
    }
  }

  /** A node stays held throughout a sequence of events exactly if none of them is a release. */
  lemma HeldThroughout(g: Node, es: seq<Event>)
    requires Held(g)
    ensures (forall k | 0 <= k <= |es| :: Held(Afterwards(g, es[..k]))) <==> (forall i | 0 <= i < |es| :: !Releases(es[i]))
  {
    hide Held, Releases, After;
    if forall k | 0 <= k <= |es| :: Held(Afterwards(g, es[..k])) {
      forall i | 0 <= i < |es| ensures !Releases(es[i]) {
        AfterwardsNext(g, es, i);
        HeldIffNotReleased(Afterwards(g, es[..i]), es[i]);
        assert Held(Afterwards(g, es[..i + 1]));
      }
    }
    if forall i | 0 <= i < |es| :: !Releases(es[i]) {
      forall k | 0 <= k <= |es| ensures Held(Afterwards(g, es[..k])) {
        StaysHeld(g, es[..k]);
      }
    }
  }

  /** Whatever happened before, a boot that completes while Boot-up is processed decides the gate alone. */
  lemma BootDecides(g: Node, es: seq<Event>, s: State, booting: bool)
    ensures Afterwards(g, es + [Indicated(Bootup, Some(s), booting)]) == Node(!Usable(s), false, true)
  {
    hide After;
    var all := es + [Indicated(Bootup, Some(s), booting)];
    AfterwardsNext(g, all, |es|);
    assert all[..|es|] == es && all[..|es| + 1] == all;
    SyncBootDecides(Afterwards(g, es), s, booting);
    IndAfter(Afterwards(g, es), s, booting);
  }

  lemma IndAfter(g: Node, s: State, booting: bool)
    ensures After(g, Indicated(Bootup, Some(s), booting)) == AfterInd(g, Bootup, Some(s), booting)
  {
  }

  /** Whatever happens, a pending reset keeps the gate closed. */
  lemma {:induction false} SaneKept(g: Node, es: seq<Event>)
    requires Sane(g)
    ensures Sane(Afterwards(g, es))
    decreases |es|
  {
    if es != [] { SaneKept(After(g, es[0]), es[1..]); }
  }

  /**
   From an accepted reset on, as long as there is no Boot-up outside a boot process,
   no boot completion and no teardown, the node is not available, whatever commands
   and states come in between.
   */
  lemma {:induction false} NoTransferAfterReset(g: Node, c: Command, es: seq<Event>, booting: bool, cfgBusy: bool)
    requires IsReset(c) && forall i | 0 <= i < |es| :: !Releases(es[i])
    ensures Held(Afterwards(AfterCommand(g, c), es))
    ensures !Available(Afterwards(AfterCommand(g, c), es), booting, cfgBusy)
  {
    StaysHeld(AfterCommand(g, c), es);
  }

  lemma {:induction false} StaysHeld(g: Node, es: seq<Event>)
    requires Held(g) && forall i | 0 <= i < |es| :: !Releases(es[i])
    ensures Held(Afterwards(g, es))
    decreases |es|
  {
    if es != [] {
      HeldIffNotReleased(g, es[0]);
      StaysHeld(After(g, es[0]), es[1..]);
    }
  }

  // ----------------------------------------------------------------------- class

  class Gate {
    const suspended: array<bool>
    const resetPending: array<bool>
    const bootValid: array<bool>

    ghost predicate Valid()
      reads this, suspended, resetPending, bootValid
    {
      && suspended.Length == resetPending.Length == bootValid.Length == NUM_NODES + 1
      && suspended != resetPending && suspended != bootValid && resetPending != bootValid
    }

    ghost function At(id: nat): Node
      requires Valid() && 1 <= id <= NUM_NODES
      reads this, suspended, resetPending, bootValid
    {
      Node(suspended[id], resetPending[id], bootValid[id])
    }

    constructor ()
      ensures Valid() && forall id | 1 <= id <= NUM_NODES :: At(id) == Node(false, false, false)
    {
      suspended := new bool[NUM_NODES + 1](_ => false);
      resetPending := new bool[NUM_NODES + 1](_ => false);
      bootValid := new bool[NUM_NODES + 1](_ => false);
    }

    /** Zero addresses all nodes. */
    predicate Addressed(id: nat, node: nat) { 1 <= id <= NUM_NODES && (node == 0 || id == node) }

    /** lely_rtt_master_sdo_set_suspended. */
    method SetSuspended(node: nat, s: bool, r: bool)
      requires Valid() && node <= NUM_NODES
      modifies suspended, resetPending
      ensures Valid() && forall id | 1 <= id <= NUM_NODES ::
                At(id) == if Addressed(id, node) then old(At(id)).(suspended := s, reset := r) else old(At(id))
    {
      var first, last := if node != 0 then node else 1, if node != 0 then node else NUM_NODES;
      var id := first;
      while id <= last
        invariant first <= id <= last + 1
        invariant forall k | 1 <= k <= NUM_NODES ::
                    At(k) == if first <= k < id then old(At(k)).(suspended := s, reset := r) else old(At(k))
      {
        suspended[id] := s;
        resetPending[id] := r;
        id := id + 1;
      }
    }

    /** lely_rtt_master_sdo_on_nmt_command, for a command the NMT service accepted. */
    method OnCommand(node: nat, c: Command)
      requires Valid() && node <= NUM_NODES
      modifies suspended, resetPending
      ensures Valid() && forall id | 1 <= id <= NUM_NODES ::
                At(id) == if Addressed(id, node) then AfterCommand(old(At(id)), c) else old(At(id))
    {
      var first, last := if node != 0 then node else 1, if node != 0 then node else NUM_NODES;
      var id := first;
      if IsReset(c) {
        SetSuspended(node, true, true);
      } else if c.CmdStop? {
        while id <= last
          invariant first <= id <= last + 1
          invariant forall k | 1 <= k <= NUM_NODES ::
                      At(k) == if first <= k < id then AfterCommand(old(At(k)), c) else old(At(k))
        {
          suspended[id] := true;
          id := id + 1;
        }
      } else if c.CmdStart? || c.CmdPreop? {
        while id <= last
          invariant first <= id <= last + 1
          invariant forall k | 1 <= k <= NUM_NODES ::
                      At(k) == if first <= k < id then AfterCommand(old(At(k)), c) else old(At(k))
        {
          if !resetPending[id] { suspended[id] := false; }
          id := id + 1;
        }
      }
    }

    /** lely_rtt_master_boot_ind, the part that concerns the gate. */
    method OnBootComplete(id: nat, s: State)
      requires Valid() && 1 <= id <= NUM_NODES
      modifies suspended, resetPending, bootValid
      ensures Valid() && forall k | 1 <= k <= NUM_NODES :: At(k) == if k == id then AfterBoot(old(At(k)), s) else old(At(k))
    {
      SetSuspended(id, !Usable(s), false);
      bootValid[id] := true;
    }

    /** lely_rtt_master_sdo_on_nmt_state. */
    method OnState(id: nat, s: State, booting: bool)
      requires Valid() && 1 <= id <= NUM_NODES
      modifies suspended, resetPending
      ensures Valid() && forall k | 1 <= k <= NUM_NODES ::
                At(k) == if k == id then AfterState(old(At(k)), s, booting) else old(At(k))
    {
      match s
      case Bootup => if booting { SetSuspended(id, true, true); } else { SetSuspended(id, false, false); }
      case StopSt => suspended[id] := true;
      case OtherSt =>
      case _ => if !resetPending[id] { SetSuspended(id, false, false); }
    }

    /** lely_rtt_master_state_ind for a remote node; sync is what the NMT service did meanwhile. */
    method OnStateInd(id: nat, s: State, sync: Option<State>, booting: bool)
      requires Valid() && 1 <= id <= NUM_NODES
      modifies suspended, resetPending, bootValid
      ensures Valid() && forall k | 1 <= k <= NUM_NODES ::
                At(k) == if k == id then AfterInd(old(At(k)), s, sync, booting) else old(At(k))
    {
      if s.Bootup? {
        bootValid[id] := false;
        SetSuspended(id, true, true);
      }
      if sync.Some? { OnBootComplete(id, sync.value); }
      if s.Bootup? && bootValid[id] { return; }
      OnState(id, s, booting);
    }
  }
}
