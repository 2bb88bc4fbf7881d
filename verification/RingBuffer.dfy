/** The byte ring of src/common/ring_buffer.c: a bounded queue across wraparound. */
module RingBuffer {
  import opened Wire

  function Min(a: nat, b: nat): nat {
    if a < b then a else b
  }

  /** Where position a lands in a ring of the given capacity. */
  function Wrap(a: nat, capacity: nat): (r: nat)
    requires a < 2 * capacity
    ensures r < capacity
  {
    if a < capacity then a else a - capacity
  }

  lemma WrapIsMod(a: nat, capacity: nat)
    requires a < 2 * capacity
    ensures a % capacity == Wrap(a, capacity)
  {
    var q, r := a / capacity, a % capacity;
    assert a == q * capacity + r;
    TwiceOrMore(q, capacity);
    assert q == 0 || (q == 1 && 1 * capacity == capacity);
  }

  lemma TwiceOrMore(q: nat, n: nat)
    ensures q >= 2 ==> q * n >= 2 * n
  {
    if q >= 2 {
      assert q * n == 2 * n + (q - 2) * n;
    }
  }

  /** The bytes of a ring read from `start`, across the end of its storage. */
  function Window(cells: seq<byte>, start: nat, size: nat): (s: seq<byte>)
    requires start < |cells| && size <= |cells|
    ensures |s| == size
  {
    seq(size, i requires 0 <= i < size => cells[Wrap(start + i, |cells|)])
  }

  /** Two copies, one up to the end of the storage and one from its beginning, extend the window. */
  lemma WindowExtends(cells: seq<byte>, start: nat, size: nat, data: seq<byte>, first: nat)
    requires start < |cells| && size + |data| <= |cells|
    requires first == Min(|data|, |cells| - Wrap(start + size, |cells|))
    ensures Window(Splice(Splice(cells, Wrap(start + size, |cells|), data[..first]), 0, data[first..]), start,
                   size + |data|)
         == Window(cells, start, size) + data
  {
    hide Splice;
    var at := Wrap(start + size, |cells|);
    var twice := Splice(Splice(cells, at, data[..first]), 0, data[first..]);
    forall i | 0 <= i < size + |data|
      ensures Window(twice, start, size + |data|)[i] == (Window(cells, start, size) + data)[i]
    {
      var slot := Wrap(start + i, |cells|);
      if i < size {
        assert twice[slot] == cells[slot];
      } else if i - size < first {
        assert slot == at + (i - size);
      } else {
        assert slot == i - size - first;
      }
    }
  }

  class Ring {
    const storage: array<byte>
    var readPos: nat
    var size: nat

    ghost predicate Valid()
      reads this
    {
      readPos < storage.Length && size <= storage.Length
    }

    /** The queued bytes, oldest first. */
    ghost function Contents(): (s: seq<byte>)
      requires Valid()
      reads this, storage
      ensures |s| == size
    {
      Window(storage[..], readPos, size)
    }

    constructor (storage: array<byte>)
      requires storage.Length > 0
      ensures this.storage == storage && Valid() && Contents() == []
    {
      this.storage := storage;
      readPos := 0;
      size := 0;
    }

    /** devmgr_ring_init: a ring over no storage is refused. */
    static method Init(storage: array<byte>) returns (status: Status, ring: Ring?)
      ensures status == if storage.Length == 0 then Invalid else Ok
      ensures status == Ok ==>
                ring != null && fresh(ring) && ring.storage == storage && ring.Valid() && ring.Contents() == []
      ensures status != Ok ==> ring == null
    {
      if storage.Length == 0 {
        return Invalid, null;
      }
      ring := new Ring(storage);
      status := Ok;
    }

    method Reset()
      requires Valid()
      modifies this
      ensures Valid() && Contents() == []
    {
      readPos, size := 0, 0;
    }

    function Space(): (n: nat)
      requires Valid()
      reads this
    {
      storage.Length - size
    }

    /** Appends as much as fits and says how much that was. */
    method Write(data: seq<byte>) returns (count: nat)
      requires Valid()
      modifies this, storage
      ensures Valid() && count == Min(|data|, old(Space()))
      ensures Contents() == old(Contents()) + data[..count]
    {
      hide Splice, Window;
      if |data| == 0 {
        assert data[..0] == [];
        return 0;
      }
      count := Min(|data|, Space());
      WrapIsMod(readPos + size, storage.Length);
      var writePos := (readPos + size) % storage.Length;
      var first := Min(count, storage.Length - writePos);
      CopyIn(writePos, data[..first]);
      CopyIn(0, data[first..count]);
      assert data[..count][..first] == data[..first] && data[..count][first..] == data[first..count];
      WindowExtends(old(storage[..]), readPos, size, data[..count], first);
      size := size + count;
    }

    /** memcpy into the storage. */
    method CopyIn(at: nat, data: seq<byte>)
      requires at + |data| <= storage.Length
      modifies storage
      ensures storage[..] == Splice(old(storage[..]), at, data)
    {
      forall i | 0 <= i < |data| {
        storage[at + i] := data[i];
      }
    }

    /** Up to `length` queued bytes from `offset` on, left in place. */
    method Peek(offset: nat, length: nat) returns (data: seq<byte>)
      requires Valid()
      ensures data == if offset < size then Contents()[offset..offset + Min(length, size - offset)] else []
    {
      if offset >= size || length == 0 {
        return [];
      }
      var count := Min(length, size - offset);
      WrapIsMod(readPos + offset, storage.Length);
      var position := (readPos + offset) % storage.Length;
      var first := Min(count, storage.Length - position);
      data := storage[position..position + first] + storage[..count - first];
      forall i | 0 <= i < count
        ensures data[i] == Contents()[offset + i]
      {
        assert Wrap(readPos + (offset + i), storage.Length) == if i < first then position + i else i - first;
      }
    }

    method Discard(length: nat) returns (count: nat)
      requires Valid()
      modifies this
      ensures Valid() && count == Min(length, old(size)) && Contents() == old(Contents())[count..]
    {
      if length == 0 {
        return 0;
      }
      count := Min(length, size);
      WrapIsMod(readPos + count, storage.Length);
      readPos := (readPos + count) % storage.Length;
      size := size - count;
      if size == 0 {
        readPos := 0;
      }
      forall i | 0 <= i < size
        ensures Contents()[i] == old(Contents())[count + i]
      {
        assert Wrap(readPos + i, storage.Length) == Wrap(old(readPos) + (count + i), storage.Length);
      }
    }

    method Read(length: nat) returns (data: seq<byte>)
      requires Valid()
      modifies this
      ensures Valid() && data == old(Contents())[..Min(length, old(size))]
      ensures Contents() == old(Contents())[|data|..]
    {
      hide Window;
      data := Peek(0, length);
      assert data == Contents()[..Min(length, size)];
      var count := Discard(|data|);
    }
  }

  // ----- Any sequence of operations -----

  datatype Op = Write(data: seq<byte>) | Peek(offset: nat, length: nat) | Discard(length: nat) | Read(length: nat)

  datatype Output = Count(n: nat) | Bytes(data: seq<byte>)

  /** What an operation does to a queue of at most `capacity` bytes. */
  function OnQueue(q: seq<byte>, capacity: nat, op: Op): (seq<byte>, Output)
    requires |q| <= capacity
  {
    match op
    case Write(data) =>
      var n := Min(|data|, capacity - |q|);
      (q + data[..n], Count(n))
    case Peek(offset, length) =>
      (q, Bytes(if offset < |q| then q[offset..offset + Min(length, |q| - offset)] else []))
    case Discard(length) => (q[Min(length, |q|)..], Count(Min(length, |q|)))
    case Read(length) => (q[Min(length, |q|)..], Bytes(q[..Min(length, |q|)]))
  }

  function Script(q: seq<byte>, capacity: nat, ops: seq<Op>): (seq<byte>, seq<Output>)
    requires |q| <= capacity
    decreases |ops|
  {
    if ops == [] then (q, [])
    else
      var (p, out) := OnQueue(q, capacity, ops[0]);
      var (r, outs) := Script(p, capacity, ops[1..]);
      (r, [out] + outs)
  }

  method PerformOne(ring: Ring, op: Op) returns (out: Output)
    requires ring.Valid()
    modifies ring, ring.storage
    ensures ring.Valid()
    ensures (ring.Contents(), out) == OnQueue(old(ring.Contents()), ring.storage.Length, op)
  {
    match op {
      case Write(data) =>
        var n := ring.Write(data);
        out := Count(n);
      case Peek(offset, length) =>
        var data := ring.Peek(offset, length);
        out := Bytes(data);
      case Discard(length) =>
        var n := ring.Discard(length);
        out := Count(n);
      case Read(length) =>
        var data := ring.Read(length);
        out := Bytes(data);
    }
  }

  /** Whatever is done to a ring, it answers as a bounded queue would. */
  method Perform(ring: Ring, ops: seq<Op>) returns (outputs: seq<Output>)
    requires ring.Valid()
    modifies ring, ring.storage
    ensures ring.Valid()
    ensures (ring.Contents(), outputs) == Script(old(ring.Contents()), ring.storage.Length, ops)
    decreases |ops|
  {
    hide OnQueue;
    if ops == [] {
      return [];
    }
    var out := PerformOne(ring, ops[0]);
    var outs := Perform(ring, ops[1..]);
    return [out] + outs;
  }
}
