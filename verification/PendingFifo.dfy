/** One node's pending requests: the linked FIFO that the owner edits in place, and the reap loop. */
module PendingFifo {
  class Request {
    const id: nat
    var next: Request?

    constructor (i: nat)
      ensures id == i && next == null
    {
      id, next := i, null;
    }
  }

  ghost function Nth(l: seq<Request>, i: int): Request? { if 0 <= i < |l| then l[i] else null }

  /** Requests stay distinct and in order when one is taken out. */
  lemma CutDistinct(l: seq<Request>, i: nat)
    requires i < |l| && forall a, b | 0 <= a < b < |l| :: l[a] != l[b]
    ensures var c := l[..i] + l[i + 1..];
            && (forall a, b | 0 <= a < b < |c| :: c[a] != c[b])
            && (forall k | 0 <= k < |c| ::
                  c[k] == l[if k < i then k else k + 1] && Nth(c, k + 1) == Nth(l, if k + 1 < i then k + 1 else k + 2))
  {
    var c := l[..i] + l[i + 1..];
    forall a, b | 0 <= a < b < |c| ensures c[a] != c[b] {
      assert c[a] == l[if a < i then a else a + 1] && c[b] == l[if b < i then b else b + 1];
    }
  }

  /** The requests of l are distinct and linked in this order. */
  ghost predicate Linked(l: seq<Request>)
    reads l
  {
    && (forall i | 0 <= i < |l| :: l[i].next == Nth(l, i + 1))
    && (forall i, j | 0 <= i < j < |l| :: l[i] != l[j])
  }

  /** The first n requests are loose, the others still linked in order. */
  ghost predicate Unlinked(l: seq<Request>, n: nat)
    reads l
  {
    && (forall i | 0 <= i < |l| :: l[i].next == if i < n then null else Nth(l, i + 1))
    && (forall i, j | 0 <= i < j < |l| :: l[i] != l[j])
  }

  lemma NoneLoose(l: seq<Request>)
    requires Linked(l)
    ensures Unlinked(l, 0)
  {
  }

  lemma AllLoose(l: seq<Request>)
    requires Unlinked(l, |l|)
    ensures Linked([]) && l[..|l|] == l && forall k | 0 <= k < |l| :: l[k].next == null
  {
  }

  /** What promoting the head of the FIFO comes to. */
  datatype Outcome =
    | Cancelled       // its cancellation was claimed: it is unlinked and completed
    | Pinned          // a cancel caller still holds it
    | Transferring    // its transfer was issued
    | Finished        // it finished before start_active returned

  class NodeQueue {
    var head: Request?
    var active: Request?
    ghost var list: seq<Request>

    /** head leads through exactly the requests of list, each once, and then ends. */
    ghost predicate Valid()
      reads this, list
    {
      head == Nth(list, 0) && Linked(list)
    }

    constructor ()
      ensures Valid() && list == [] && active == null
    {
      head, active, list := null, null, [];
    }

    /**
     lely_rtt_master_sdo_pending_append: false when the FIFO is full.  A request that
     is cancelled instead of claimed is not linked.
     */
    method Append(r: Request, depth: nat, claim: bool) returns (ok: bool)
      requires Valid() && r !in list && depth >= 1
      modifies this`head, this`list, list, r
      ensures Valid() && ok == (|old(list)| < depth)
      ensures list == if ok && claim then old(list) + [r] else old(list)
    {
      var cursor, tail: Request? := head, null;
      var count := 0;
      while cursor != null
        invariant 0 <= count <= |list| && count < depth
        invariant cursor == Nth(list, count) && tail == Nth(list, count - 1)
        invariant Valid() && list == old(list) && head == old(head)
        decreases |list| - count
      {
        count := count + 1;
        if count >= depth { return false; }
        tail := cursor;
        cursor := cursor.next;
      }
      ok := true;
      if !claim { return; }
      r.next := null;
      if tail != null { tail.next := r; } else { head := r; }
      list := list + [r];
    }

    /** lely_rtt_master_sdo_cancel_pending: unlink the request with this identity. */
    method Unlink(id: nat) returns (r: Request?)
      requires Valid()
      modifies this`head, this`list, list
      ensures Valid()
      ensures r == null ==> list == old(list) && forall k | 0 <= k < |list| :: list[k].id != id
      ensures r != null ==> (r.id == id && r.next == null
                && exists i | 0 <= i < |old(list)| :: old(list)[i] == r && list == old(list)[..i] + old(list)[i + 1..])
    {
      var prev: Request?, cur := null, head;
      ghost var i := 0;
      while cur != null
        invariant 0 <= i <= |list| && Valid() && list == old(list)
        invariant cur == Nth(list, i) && prev == Nth(list, i - 1)
        invariant forall k | 0 <= k < i :: list[k].id != id
        decreases |list| - i
      {
        if cur.id == id {
          Cut(prev, cur, i);
          return cur;
        }
        prev := cur;
        cur := cur.next;
        i := i + 1;
      }
      return null;
    }

    /** Let the link before cur lead past it. */
    method Cut(prev: Request?, cur: Request, ghost i: nat)
      requires Valid() && i < |list| && cur == list[i] && prev == Nth(list, i - 1)
      modifies this`head, this`list, list
      ensures Valid() && cur.next == null && list == old(list)[..i] + old(list)[i + 1..]
    {
      ghost var l := list;
      assert cur.next == Nth(l, i + 1);
      if prev == null { head := cur.next; } else { prev.next := cur.next; }
      cur.next := null;
      list := l[..i] + l[i + 1..];
      CutDistinct(l, i);
      forall k | 0 <= k < |list| ensures list[k].next == Nth(list, k + 1) {
        assert l[if k < i then k else k + 1] != cur;
      }
    }

    /** Take the head off the FIFO. */
    method Pop() returns (r: Request)
      requires Valid() && list != []
      modifies this`head, this`list, list
      ensures Valid() && r == old(list)[0] && list == old(list)[1..] && r.next == null
    {
      r := head;
      ghost var l := list;
      head := r.next;
      r.next := null;
      list := l[1..];
      assert forall k | 0 <= k < |list| :: list[k] == l[k + 1] && list[k] != r;
    }

    /** Detach the complete FIFO and hand out its requests in order (lely_rtt_master_sdo_cancel_node). */
    method Detach() returns (all: seq<Request>)
      requires Valid()
      modifies this`head, this`list, list
      ensures Valid() && list == [] && all == old(list)
      ensures forall k | 0 <= k < |all| :: all[k].next == null
    {
      hide Unlinked, Linked;
      var pending := head;
      ghost var l := list;
      NoneLoose(l);
      head := null;
      list := [];
      all := [];
      while pending != null
        invariant head == null && list == [] && |all| <= |l| && all == l[..|all|]
        invariant pending == Nth(l, |all|)
        invariant Unlinked(l, |all|)
        decreases |l| - |all|
      {
        var next := Loosen(pending, l, |all|);
        all := all + [pending];
        pending := next;
      }
      AllLoose(l);
    }

    /** Cut the link of request n of a list, all before it being cut already. */
    method Loosen(r: Request, ghost l: seq<Request>, ghost n: nat) returns (next: Request?)
      requires Unlinked(l, n) && n < |l| && r == l[n]
      modifies r
      ensures Unlinked(l, n + 1) && next == Nth(l, n + 1)
    {
      next := r.next;
      r.next := null;
      forall k | 0 <= k < |l| && k != n ensures l[k] != r { }
    }

    /** lely_rtt_master_sdo_start_pending: true when the head finished at once and the next may be tried. */
    method StartPending(avail: bool, o: Outcome) returns (again: bool, popped: seq<Request>)
      requires Valid() && active == null
      modifies this, list
      ensures Valid() && old(list) == popped + list && |popped| <= 1
      ensures again <==> avail && old(list) != [] && o.Finished?
      ensures again ==> |popped| == 1 && active == null
      ensures active == if avail && old(list) != [] && o.Transferring? then old(list)[0] else null
    {
      popped := [];
      if !avail || head == null { return false, []; }
      if o.Pinned? { return false, []; }
      var r := Pop();
      popped := [r];
      if o.Cancelled? { return false, popped; }
      if o.Transferring? {
        active := r;
        return false, popped;
      }
      return true, popped;
    }

    /**
     The reap loop for one node.  Every retry consumes one FIFO entry, so it ends;
     what it takes off the FIFO is a prefix, in order.
     */
    method Reap(avail: seq<bool>, outcomes: seq<Outcome>) returns (taken: seq<Request>)
      requires Valid()
      modifies this, list
      ensures Valid() && old(list) == taken + list
      ensures old(active) != null ==> taken == []
    {
      hide Linked, Nth;
      taken := [];
      var k := 0;
      ghost var all := list;
      while active == null
        invariant Valid() && all == old(list) && |taken| <= |all| && taken == all[..|taken|] && list == all[|taken|..]
        invariant old(active) != null ==> taken == []
        decreases |list|, if active == null then 1 else 0
      {
        var a := k < |avail| && avail[k];
        var again, popped := StartPending(a, if k < |outcomes| then outcomes[k] else Pinned);
        Shift(all, |taken|, popped, list);
        taken := taken + popped;
        k := k + 1;
        if !again { break; }
      }
    }
  }

  /** What was taken and what is left keep adding up. */
  lemma Shift(all: seq<Request>, n: nat, popped: seq<Request>, rest: seq<Request>)
    requires n <= |all| && all[n..] == popped + rest
    ensures n + |popped| <= |all| && all[..n] + popped == all[..n + |popped|] && rest == all[n + |popped|..]
  {
  }
}
