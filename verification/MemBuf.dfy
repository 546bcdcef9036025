/** The growable byte buffer with a cursor. */
module MemBuf {
  type Bytes = seq<bv8>

  const MEMBUF_SIZE: nat := 16

  /** The size membuf_reserve allocates for n bytes: the first of 16, 32, 64, ... that is large enough. */
  function Doubled(size: nat, n: nat): (k: nat)
    requires size > 0
    ensures n <= k && size <= k && (k < 2 * n || k == size)
    decreases n - size
  {
    if size >= n then size else Doubled(2 * size, n)
  }

  class Buffer {
    var data: array<bv8>
    var end: nat            // the buffer is the first `end` bytes of data
    var cur: nat

    ghost predicate Valid()
      reads this
    {
      cur <= end <= data.Length
    }

    /** The bytes before the cursor. */
    ghost function Contents(): (s: Bytes)
      reads this, data
      requires Valid()
    {
      data[..cur]
    }

    constructor ()
      ensures Valid() && fresh(data) && end == 0 && cur == 0
    {
      data := new bv8[0];
      end, cur := 0, 0;
    }

    /** A buffer over the first n bytes of the caller's storage. */
    method Init(storage: array<bv8>, n: nat)
      requires n <= storage.Length
      modifies this
      ensures Valid() && data == storage && end == n && cur == 0
    {
      data, end, cur := storage, n, 0;
    }

    method Clear()
      modifies this`cur
      ensures cur == 0
    {
      cur := 0;
    }

    function Capacity(): (n: nat)
      reads this
      requires Valid()
    {
      end - cur
    }

    /** Make room for n bytes more; `memOk` says whether the allocation succeeds if there is one. */
    method Reserve(n: nat, memOk: bool) returns (ok: bool)
      requires Valid()
      modifies this`data, this`end
      ensures Valid() && Contents() == old(Contents())
      ensures ok == (n <= old(Capacity()) || memOk)
      ensures ok ==> n <= Capacity()
      ensures end == if old(Capacity()) < n && memOk then Doubled(MEMBUF_SIZE, cur + n) else old(end)
      ensures if old(Capacity()) < n && memOk then fresh(data) else data == old(data)
    {
      if n <= Capacity() { return true; }
      var size := MEMBUF_SIZE;
      while size < cur + n
        invariant 0 < size && Doubled(size, cur + n) == Doubled(MEMBUF_SIZE, cur + n)
        decreases cur + n - size
      {
        size := 2 * size;
      }
      if !memOk { return false; }
      var begin := new bv8[size];
      for i := 0 to cur
        invariant data == old(data) && end == old(end) && begin[..i] == data[..i]
      {
        begin[i] := data[i];
      }
      data, end := begin, size;
      return true;
    }

    /** Write at the cursor what fits. */
    method Write(src: Bytes) returns (n: nat)
      requires Valid()
      modifies this`cur, data
      ensures Valid() && n == if |src| <= old(Capacity()) then |src| else old(Capacity())
      ensures Contents() == old(Contents()) + src[..n] && data[cur..] == old(data[..])[cur..]
    {
      n := if |src| <= Capacity() then |src| else Capacity();
      var at := cur;
      cur := cur + n;
      for i := 0 to n
        invariant cur == at + n
        invariant data[..at] == old(data[..at]) && data[at..at + i] == src[..i] && data[cur..] == old(data[..])[cur..]
      {
        data[at + i] := src[i];
      }
      assert data[..cur] == data[..at] + data[at..at + n];
    }
  }
}
