/** The byte ring of a connection: a wrapping array that refines a byte queue. */
module RingBuffers {
  import opened Wire

  /** Index r + i in a ring of the given capacity. */
  function Wrap(x: nat, capacity: nat): nat
    requires capacity > 0
  {
    if x < capacity then x else x - capacity
  }

  lemma WrapIsModulo(x: nat, capacity: nat)
    requires capacity > 0 && x < 2 * capacity
    ensures x % capacity == Wrap(x, capacity)
  {
    if x >= capacity {
      assert (x - capacity) % capacity == x - capacity;
    }
  }

  /** The queue stored in a ring: `used` bytes from `readhead` on, across the wrap. */
  function Window(ring: seq<byte>, readhead: nat, used: nat): (q: seq<byte>)
    requires readhead < |ring| && used <= |ring|
    ensures |q| == used
  {
    seq(used, i requires 0 <= i < used => ring[Wrap(readhead + i, |ring|)])
  }

  function Splice(ring: seq<byte>, at: nat, src: seq<byte>): (r: seq<byte>)
    requires at + |src| <= |ring|
    ensures |r| == |ring|
  {
    ring[..at] + src + ring[at + |src|..]
  }

  /** Writing in two pieces around the end of the array appends to the queue. */
  lemma TwoPieceWriteAppends(ring: seq<byte>, readhead: nat, used: nat, src: seq<byte>, first: nat)
    requires readhead < |ring| && used + |src| <= |ring|
    requires var room := |ring| - Wrap(readhead + used, |ring|); first == if room > |src| then |src| else room
    ensures Window(Splice(Splice(ring, Wrap(readhead + used, |ring|), src[..first]), 0, src[first..]), readhead, used + |src|)
         == Window(ring, readhead, used) + src
  {
    var c, w := |ring|, Wrap(readhead + used, |ring|);
    var after := Splice(Splice(ring, w, src[..first]), 0, src[first..]);
    var q := Window(after, readhead, used + |src|);
    forall i | 0 <= i < used + |src|
      ensures q[i] == (Window(ring, readhead, used) + src)[i]
    {
      var at := Wrap(readhead + i, c);
      if i >= used {
        assert at == Wrap(w + (i - used), c);
      }
    }
  }

  /** Reading in two pieces around the end of the array yields the front of the queue. */
  lemma TwoPieceReadTakes(ring: seq<byte>, readhead: nat, used: nat, n: nat, first: nat)
    requires readhead < |ring| && n <= used <= |ring|
    requires var room := |ring| - readhead; first == if room > n then n else room
    ensures ring[readhead..readhead + first] + ring[..n - first] == Window(ring, readhead, used)[..n]
  {
    var got, want := ring[readhead..readhead + first] + ring[..n - first], Window(ring, readhead, used)[..n];
    forall i | 0 <= i < n
      ensures got[i] == want[i]
    {
      assert want[i] == ring[Wrap(readhead + i, |ring|)];
    }
  }

  lemma ConsumeDrops(ring: seq<byte>, readhead: nat, used: nat, n: nat)
    requires readhead < |ring| && n <= used <= |ring|
    ensures Window(ring, Wrap(readhead + n, |ring|), used - n) == Window(ring, readhead, used)[n..]
  {
    var rest := Window(ring, Wrap(readhead + n, |ring|), used - n);
    forall i | 0 <= i < used - n
      ensures rest[i] == Window(ring, readhead, used)[n..][i]
    {
      assert Wrap(Wrap(readhead + n, |ring|) + i, |ring|) == Wrap(readhead + (n + i), |ring|);
    }
  }

  /** memcpy into an array. */
  method CopyInto(dst: array<byte>, at: nat, src: seq<byte>)
    requires at + |src| <= dst.Length
    modifies dst
    ensures dst[..] == Splice(old(dst[..]), at, src)
  {
    forall i | 0 <= i < |src| {
      dst[at + i] := src[i];
    }
  }

  class Ringbuff {
    const buff: array<byte>
    var readhead: nat
    var writehead: nat
    const capacity: nat
    var used: nat
    /** Whether the storage is still allocated; freeing is final. */
    var live: bool

    /** Invariant of every sequence of calls. */
    ghost predicate Valid()
      reads this
    {
      && capacity > 0 && buff.Length == capacity
      && readhead < capacity && used <= capacity
      && writehead == Wrap(readhead + used, capacity)
    }

    lemma WriteheadIsModulo()
      requires Valid()
      ensures writehead == (readhead + used) % capacity
    {
      WrapIsModulo(readhead + used, capacity);
    }

    ghost function Contents(): (q: seq<byte>)
      requires Valid()
      reads this, buff
      ensures live ==> |q| == used
    {
      if live then Window(buff[..], readhead, used) else []
    }

    constructor (size: nat)
      requires size > 0
      ensures Valid() && live && fresh(buff) && capacity == size && Contents() == []
    {
      buff := new byte[size];
      capacity := size;
      readhead, writehead, used, live := 0, 0, 0, true;
    }

    /** Appends all of src, or nothing when it does not fit. */
    method Write(src: seq<byte>) returns (n: nat)
      requires Valid() && live
      modifies this`writehead, this`used, buff
      ensures Valid()
      ensures n == if |src| <= capacity - |old(Contents())| then |src| else 0
      ensures Contents() == if |src| <= capacity - |old(Contents())| then old(Contents()) + src else old(Contents())
    {
      var free := capacity - used;
      if |src| > free {
        return 0;
      }
      ghost var ring := buff[..];
      ghost var firstWrite := CopyAround(src);
      TwoPieceWriteAppends(ring, readhead, used, src, firstWrite);
      WrapIsModulo(writehead + |src|, capacity);
      writehead := (writehead + |src|) % capacity;
      used := used + |src|;
      return |src|;
    }

    /** Copies src behind the write head, around the end of the array. */
    method CopyAround(src: seq<byte>) returns (firstWrite: nat)
      requires Valid() && |src| <= capacity - used && writehead < capacity
      modifies buff
      ensures firstWrite == if capacity - writehead > |src| then |src| else capacity - writehead
      ensures buff[..] == Splice(Splice(old(buff[..]), writehead, src[..firstWrite]), 0, src[firstWrite..])
    {
      firstWrite := capacity - writehead;
      if firstWrite > |src| {
        firstWrite := |src|;
      }
      CopyInto(buff, writehead, src[..firstWrite]);
      var secondWrite := |src| - firstWrite;
      if secondWrite > 0 {
        CopyInto(buff, 0, src[firstWrite..]);
      } else {
        assert Splice(buff[..], 0, src[firstWrite..]) == buff[..];
      }
    }

    /** Copies the first min(used, dst.Length) bytes out and leaves the queue alone. */
    method Peek(dst: array<byte>) returns (n: nat)
      requires Valid() && live && dst != buff
      modifies dst
      ensures n == if used < dst.Length then used else dst.Length
      ensures dst[..n] == Contents()[..n] && dst[n..] == old(dst[n..])
      ensures Contents() == old(Contents())
    {
      if used == 0 {
        return 0;
      }
      n := dst.Length;
      if used < n {
        n := used;
      }
      var firstRead := capacity - readhead;
      if firstRead > n {
        firstRead := n;
      }
      CopyInto(dst, 0, buff[readhead..readhead + firstRead]);
      var secondRead := n - firstRead;
      if secondRead > 0 {
        CopyInto(dst, firstRead, buff[..secondRead]);
      }
      TwoPieceReadTakes(buff[..], readhead, used, n, firstRead);
    }

    /** Drops the first min(used, consume) bytes. */
    method Consume(consume: nat) returns (n: nat)
      requires Valid() && live
      modifies this`readhead, this`used
      ensures Valid()
      ensures n == if consume > |old(Contents())| then |old(Contents())| else consume
      ensures Contents() == old(Contents())[n..]
    {
      if used == 0 {
        return 0;
      }
      n := consume;
      if n > used {
        n := used;
      }
      WrapIsModulo(readhead + n, capacity);
      ConsumeDrops(buff[..], readhead, used, n);
      readhead := (readhead + n) % capacity;
      used := used - n;
    }

    method Free()
      requires Valid()
      modifies this`live
      ensures !live && Valid() && Contents() == []
    {
      live := false;
    }
  }
}
