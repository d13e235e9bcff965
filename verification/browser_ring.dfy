/** The byte ring of the browser client: one count, and two positions that wrap by remainder. */
module BrowserRing {
  /** The position k places after p. */
  function At(p: nat, k: nat, capacity: nat): nat {
    if p + k < capacity then p + k else p + k - capacity
  }

  /** The count bytes from tail on, around the end. */
  function Bytes(s: seq<bv8>, tail: nat, count: nat): (r: seq<bv8>)
    requires (tail < |s| || (tail == 0 && s == [])) && count <= |s|
    ensures |r| == count
  {
    if tail + count <= |s| then s[tail..tail + count] else s[tail..] + s[..tail + count - |s|]
  }

  lemma RemainderWraps(p: nat, capacity: nat)
    requires p < capacity
    ensures (p + 1) % capacity == At(p, 1, capacity)
  {
    if p + 1 < capacity {
    } else {
      assert p + 1 == capacity;
    }
  }

  lemma NextPlace(p: nat, k: nat, capacity: nat)
    requires p < capacity && k < capacity
    ensures At(At(p, k, capacity), 1, capacity) == At(p, k + 1, capacity)
  {
  }

  lemma NextTail(p: nat, k: nat, capacity: nat)
    requires p < capacity && 0 < k <= capacity
    ensures At(At(p, 1, capacity), k - 1, capacity) == At(p, k, capacity)
  {
  }

  lemma BytesPut(s: seq<bv8>, tail: nat, count: nat, b: bv8)
    requires tail < |s| && count < |s|
    ensures At(tail, count, |s|) < |s|
    ensures Bytes(s[At(tail, count, |s|) := b], tail, count + 1) == Bytes(s, tail, count) + [b]
  {
  }

  lemma BytesTake(s: seq<bv8>, tail: nat, count: nat)
    requires tail < |s| && 0 < count <= |s|
    ensures Bytes(s, tail, count) == [s[tail]] + Bytes(s, At(tail, 1, |s|), count - 1)
  {
  }

  class ByteRing {
    var buffer: seq<bv8>
    var head: nat
    var tail: nat
    var count: nat

    /** The count is always the distance from tail to head; when they meet it tells full from empty. */
    ghost predicate Valid()
      reads this
    {
      && count <= |buffer|
      && (if buffer == [] then tail == 0 && head == 0 else tail < |buffer| && head == At(tail, count, |buffer|))
    }

    ghost function Contents(): seq<bv8>
      requires Valid()
      reads this
    {
      Bytes(buffer, tail, count)
    }

    constructor (bytes: nat)
      ensures Valid() && Contents() == [] && |buffer| == bytes
    {
      buffer := seq(bytes, i => 0);
      head, tail, count := 0, 0, 0;
    }

    /** While a call runs: k bytes from tail on, with head behind them. */
    ghost predicate Holds(k: nat, contents: seq<bv8>)
      reads this
    {
      tail < |buffer| && k <= |buffer| && head == At(tail, k, |buffer|) && Bytes(buffer, tail, k) == contents
    }

    method Following(p: nat) returns (q: nat)
      requires p < |buffer|
      ensures q == At(p, 1, |buffer|)
    {
      RemainderWraps(p, |buffer|);
      q := (p + 1) % |buffer|;
    }

    method PutByte(ghost k: nat, ghost contents: seq<bv8>, b: bv8)
      requires Holds(k, contents) && k < |buffer|
      modifies this`buffer, this`head
      ensures Holds(k + 1, contents + [b]) && |buffer| == |old(buffer)|
    {
      BytesPut(buffer, tail, k, b);
      NextPlace(tail, k, |buffer|);
      buffer := buffer[head := b];
      head := Following(head);
    }

    method TakeByte(ghost k: nat, ghost contents: seq<bv8>) returns (b: bv8)
      requires Holds(k, contents) && 0 < k
      modifies this`tail
      ensures |contents| == k && b == contents[0] && Holds(k - 1, contents[1..])
    {
      BytesTake(buffer, tail, k);
      NextTail(tail, k, |buffer|);
      b := buffer[tail];
      tail := Following(tail);
    }

    /** Storing appends as much of the data as fits. */
    method Write(data: seq<bv8>) returns (n: nat)
      requires Valid()
      modifies this
      ensures Valid() && n == (if |data| < |buffer| - old(count) then |data| else |buffer| - old(count))
      ensures |buffer| == |old(buffer)| && Contents() == old(Contents()) + data[..n]
    {
      if |buffer| == 0 || |data| == 0 {
        return 0;
      }
      n := if |data| < |buffer| - count then |data| else |buffer| - count;
      ghost var before := Contents();
      assert before + data[..0] == before;
      for i := 0 to n
        invariant count == old(count) && |buffer| == |old(buffer)| && Holds(count + i, before + data[..i])
      {
        OneMore(before, data, i);
        PutByte(count + i, before + data[..i], data[i]);
      }
      count := count + n;
    }

    /** Reading takes the oldest bytes. */
    method Read(dst: array<bv8>) returns (n: nat)
      requires Valid()
      modifies this`tail, this`count, dst
      ensures Valid() && n == (if dst.Length < old(count) then dst.Length else old(count))
      ensures dst[..] == old(Contents())[..n] + old(dst[n..]) && Contents() == old(Contents())[n..]
    {
      if |buffer| == 0 || dst.Length == 0 {
        return 0;
      }
      n := if dst.Length < count then dst.Length else count;
      ghost var before, rest := Contents(), dst[..];
      TakeAll(dst, n, before, rest);
      count := count - n;
    }

    method TakeAll(dst: array<bv8>, n: nat, ghost before: seq<bv8>, ghost rest: seq<bv8>)
      requires Partly(dst, before, rest, count, 0) && n <= count && n <= dst.Length
      modifies this`tail, dst
      ensures Partly(dst, before, rest, count - n, n)
    {
      for i := 0 to n
        invariant Partly(dst, before, rest, count - i, i)
      {
        TakeInto(dst, i, before, rest, count - i);
      }
    }

    /** While a read runs: the first i bytes have moved to dst. */
    ghost predicate Partly(dst: array<bv8>, before: seq<bv8>, rest: seq<bv8>, k: int, i: nat)
      reads this, dst
    {
      && 0 <= k && i <= |before| && i <= |rest| == dst.Length
      && Holds(k, before[i..]) && dst[..] == before[..i] + rest[i..]
    }

    method TakeInto(dst: array<bv8>, i: nat, ghost before: seq<bv8>, ghost rest: seq<bv8>, ghost k: nat)
      requires Partly(dst, before, rest, k, i) && 0 < k && i < dst.Length
      modifies this`tail, dst
      ensures Partly(dst, before, rest, k - 1, i + 1)
    {
      var b := TakeByte(k, before[i..]);
      dst[i] := b;
      OneLess(before, rest, i, b, dst[..]);
    }
  }

  lemma OneMore(before: seq<bv8>, data: seq<bv8>, i: nat)
    requires i < |data|
    ensures before + data[..i + 1] == (before + data[..i]) + [data[i]]
  {
  }

  lemma OneLess(before: seq<bv8>, rest: seq<bv8>, i: nat, b: bv8, dst: seq<bv8>)
    requires i < |before| && i < |rest| && b == before[i..][0]
    requires dst == (before[..i] + rest[i..])[i := b]
    ensures dst == before[..i + 1] + rest[i + 1..] && before[i..][1..] == before[i + 1..]
  {
  }
}
