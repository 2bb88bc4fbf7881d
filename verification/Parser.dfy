/** The incremental parser of src/protocol/parser.c over its ring buffer. */
module Parser {
  import opened Wire
  import opened FrameCodec
  import opened StreamScan
  import opened RingBuffer

  const CAPACITY: nat := 2 * MAX_FRAME

  /** Counters; 64-bit in the source, here unbounded. */
  datatype Stats = Stats(received: nat, decoded: nat, crcErrors: nat, lengthErrors: nat, discarded: nat, overflow: nat)

  /** The counters after a scan has read the given items. */
  function Counted(s: Stats, items: seq<Item>): Stats {
    s.(decoded := s.decoded + |Frames(items)|,
       crcErrors := s.crcErrors + Dropouts(items, CrcMismatch),
       lengthErrors := s.lengthErrors + Dropouts(items, TooLong),
       discarded := s.discarded + Discarded(items))
  }

  lemma CountedAppend(s: Stats, a: seq<Item>, b: seq<Item>)
    ensures Counted(Counted(s, a), b) == Counted(s, a + b)
  {
    FramesAppend(a, b);
    CountsAppend(a, b, CrcMismatch);
    CountsAppend(a, b, TooLong);
  }

  lemma CountedNothing(s: Stats)
    ensures Counted(s, []) == s
  {
  }

  lemma CountedOne(s: Stats, item: Item)
    ensures Counted(s, [item]) == match item
              case Emitted(_) => s.(decoded := s.decoded + 1)
              case Dropped(_, TooLong) => s.(discarded := s.discarded + 1, lengthErrors := s.lengthErrors + 1)
              case Dropped(_, CrcMismatch) => s.(discarded := s.discarded + 1, crcErrors := s.crcErrors + 1)
              case Dropped(_, _) => s.(discarded := s.discarded + 1)
  {
    var one := [item];
    assert one[1..] == [];
    assert |Frames(one)| == if item.Emitted? then 1 else 0;
    assert Discarded(one) == if item.Dropped? then 1 else 0;
    assert Dropouts(one, CrcMismatch) == if item.Dropped? && item.cause == CrcMismatch then 1 else 0;
    assert Dropouts(one, TooLong) == if item.Dropped? && item.cause == TooLong then 1 else 0;
  }

  /** The scan of the whole input is what was done so far, then the scan of what is held. */
  ghost predicate Ahead(done: seq<Item>, held: seq<byte>, k: nat, reply: nat -> Status, whole: Scan) {
    whole == Then(Scan(done, [], Ok), StreamScan.Drain(held, k + |Frames(done)|, reply))
  }

  lemma AheadSkip(done: seq<Item>, held: seq<byte>, k: nat, reply: nat -> Status, whole: Scan)
    requires Ahead(done, held, k, reply, whole) && Look(held).Skip?
    ensures Ahead(done + [Dropped(held[0], Look(held).cause)], held[1..], k, reply, whole)
    ensures Frames(done + [Dropped(held[0], Look(held).cause)]) == Frames(done)
  {
    hide Look;
    var item := Dropped(held[0], Look(held).cause);
    FramesAppend(done, [item]);
    assert Frames([item]) == [];
    var t := StreamScan.Drain(held[1..], k + |Frames(done)|, reply);
    assert done + ([item] + t.items) == done + [item] + t.items;
  }

  lemma AheadGot(done: seq<Item>, held: seq<byte>, k: nat, reply: nat -> Status, whole: Scan)
    requires Ahead(done, held, k, reply, whole) && Look(held).Got?
    ensures var f := Look(held).frame;
            var rest := held[FrameLength(f)..];
            var more := done + [Emitted(f)];
            && Frames(more) == Frames(done) + [f]
            && if reply(k + |Frames(done)|) == Ok then Ahead(more, rest, k, reply, whole)
               else whole == Scan(more, rest, reply(k + |Frames(done)|))
  {
    hide Look, Frames, StreamScan.Drain;
    var f := Look(held).frame;
    OneFrame(f);
    FramesAppend(done, [Emitted(f)]);
    DrainGot(held, k + |Frames(done)|, reply);
    if reply(k + |Frames(done)|) == Ok {
      var t := StreamScan.Drain(held[FrameLength(f)..], k + |Frames(done)| + 1, reply);
      assert done + ([Emitted(f)] + t.items) == done + [Emitted(f)] + t.items;
    }
  }

  lemma OneFrame(f: Frame)
    ensures Frames([Emitted(f)]) == [f]
  {
    assert [Emitted(f)][1..] == [];
  }

  lemma DrainGot(held: seq<byte>, k: nat, reply: nat -> Status)
    requires Look(held).Got?
    ensures var f := Look(held).frame;
            var rest := held[FrameLength(f)..];
            StreamScan.Drain(held, k, reply) ==
              if reply(k) != Ok then Scan([Emitted(f)], rest, reply(k))
              else Cons(Emitted(f), StreamScan.Drain(rest, k + 1, reply))
  {
    hide Look;
  }

  lemma AheadStarts(held: seq<byte>, k: nat, reply: nat -> Status)
    ensures Ahead([], held, k, reply, StreamScan.Drain(held, k, reply))
  {
    hide StreamScan.Drain;
    var s := StreamScan.Drain(held, k, reply);
    assert [] + s.items == s.items;
  }

  lemma AheadStops(done: seq<Item>, held: seq<byte>, k: nat, reply: nat -> Status, whole: Scan)
    requires Ahead(done, held, k, reply, whole) && Look(held) == NeedMore
    ensures whole == Scan(done, held, Ok)
  {
    hide Look;
    assert done + [] == done;
  }

  class Parser {
    const input: Ring
    var stats: Stats

    /** Between calls at least one minimal frame fits, so the next write makes progress. */
    ghost predicate Valid()
      reads this, input
    {
      && input.Valid() && input.storage.Length == CAPACITY
      && input.size + HEADER_SIZE + CRC_SIZE <= CAPACITY
    }

    ghost function Held(): seq<byte>
      requires input.Valid()
      reads this, input, input.storage
    {
      input.Contents()
    }

    constructor ()
      ensures Valid() && fresh(input) && fresh(input.storage)
      ensures Held() == [] && stats == Stats(0, 0, 0, 0, 0, 0)
    {
      var storage := new byte[CAPACITY](_ => 0);
      input := new Ring(storage);
      stats := Stats(0, 0, 0, 0, 0, 0);
    }

    method Reset()
      requires Valid()
      modifies this, input
      ensures Valid() && Held() == [] && stats == Stats(0, 0, 0, 0, 0, 0)
    {
      input.Reset();
      stats := Stats(0, 0, 0, 0, 0, 0);
    }

    method DropByte(cause: Cause)
      requires input.Valid() && input.size > 0
      modifies this, input
      ensures input.Valid() && Held() == old(Held())[1..]
      ensures stats == Counted(old(stats), [Dropped(old(Held())[0], cause)])
    {
      CountedOne(stats, Dropped(Held()[0], cause));
      var count := input.Discard(1);
      if cause == TooLong {
        stats := stats.(lengthErrors := stats.lengthErrors + 1);
      }
      if cause == CrcMismatch {
        stats := stats.(crcErrors := stats.crcErrors + 1);
      }
      stats := stats.(discarded := stats.discarded + 1);
    }

    /** The bytes of the first frame, or what to do instead. */
    method Inspect() returns (v: Verdict)
      requires input.Valid()
      ensures v == Look(Held())
    {
      hide Decode;
      ghost var held := Held();
      if input.size < 2 {
        return NeedMore;
      }
      var header := input.Peek(0, 2);
      if GetLe16(header) != MAGIC {
        return Skip(NoMagic);
      }
      if input.size < HEADER_SIZE {
        return NeedMore;
      }
      header := input.Peek(0, HEADER_SIZE);
      if header[2] != VERSION || header[5] != 0 {
        return Skip(BadHeader);
      }
      assert header == held[..HEADER_SIZE] && GetLe16(header[10..]) == GetLe16(held[10..]);
      var length := GetLe16(header[10..]);
      if length > MAX_PAYLOAD {
        return Skip(TooLong);
      }
      var frameLength := HEADER_SIZE + length + CRC_SIZE;
      if input.size < frameLength {
        return NeedMore;
      }
      var encoded := input.Peek(0, frameLength);
      assert encoded == held[..frameLength];
      var result := DecodeFrame(encoded);
      match result {
        case Failure(BadCrc) => return Skip(CrcMismatch);
        case Failure(_) => return Skip(Undecodable);
        case Success(f) => return Got(f);
      }
    }

    /** Scans what is held, handing each frame to the callback until one fails. */
    method Drain(emitted: nat, callback: nat -> Status) returns (status: Status, frames: seq<Frame>)
      requires input.Valid()
      modifies this, input
      ensures input.Valid()
      ensures var s := StreamScan.Drain(old(Held()), emitted, callback);
              && status == s.status && Held() == s.rest
              && frames == Frames(s.items) && stats == Counted(old(stats), s.items)
    {
      hide Look, Counted, Ahead;
      frames := [];
      ghost var whole := StreamScan.Drain(Held(), emitted, callback);
      ghost var done: seq<Item> := [];
      CountedNothing(stats);
      AheadStarts(Held(), emitted, callback);
      while true
        invariant input.Valid() && Ahead(done, Held(), emitted, callback, whole)
        invariant frames == Frames(done) && stats == Counted(old(stats), done)
        decreases input.size
      {
        ghost var held, k := Held(), emitted + |frames|;
        var verdict := Inspect();
        match verdict {
          case NeedMore =>
            AheadStops(done, held, emitted, callback, whole);
            return Ok, frames;
          case Skip(cause) =>
            AheadSkip(done, held, emitted, callback, whole);
            CountedAppend(old(stats), done, [Dropped(held[0], cause)]);
            done := done + [Dropped(held[0], cause)];
            DropByte(cause);
          case Got(f) =>
            AheadGot(done, held, emitted, callback, whole);
            CountedAppend(old(stats), done, [Emitted(f)]);
            CountedOne(stats, Emitted(f));
            done := done + [Emitted(f)];
            var count := input.Discard(FrameLength(f));
            stats := stats.(decoded := stats.decoded + 1);
            frames := frames + [f];
            status := callback(emitted + |frames| - 1);
            if status != Ok {
              return status, frames;
            }
        }
      }
    }

    /** Takes in the data and scans it. The counters, the frames and the bytes kept are those
        of the pure scan of everything held and accepted, and the ring never overflows. */
    method Feed(data: seq<byte>, callback: nat -> Status)
      returns (status: Status, frames: seq<Frame>, ghost accepted: nat)
      requires Valid()
      modifies this, input, input.storage
      ensures Valid()
      ensures accepted <= |data| && (status == Ok ==> accepted == |data|)
      ensures var s := StreamScan.Drain(old(Held()) + data[..accepted], 0, callback);
              && status == s.status && Held() == s.rest && frames == Frames(s.items)
              && stats == Counted(old(stats), s.items).(received := old(stats).received + accepted)
      ensures stats.received - old(stats.received) + old(input.size)
           == stats.discarded - old(stats.discarded) + FrameBytes(frames) + input.size
    {
      hide Look, Counted, StreamScan.Drain, Then, Frames, Ahead;
      var offset := 0;
      frames := [];
      ghost var items: seq<Item> := [];
      FeedStarts(Held(), data, callback, stats);
      while offset < |data|
        invariant Valid() && offset <= |data|
        invariant Ahead(items, Held(), 0, callback, StreamScan.Drain(old(Held()) + data[..offset], 0, callback))
        invariant frames == Frames(items)
        invariant stats == Counted(old(stats), items).(received := old(stats).received + offset)
      {
        ghost var held := Held();
        var written := input.Write(data[offset..]);
        // The source counts an overflow when nothing fits; the space that every scan leaves rules it out.
        assert written > 0;
        AheadWrite(items, held, old(Held()) + data[..offset], data[offset..][..written], callback);
        assert old(Held()) + data[..offset] + data[offset..][..written] == old(Held()) + data[..offset + written];
        stats := stats.(received := stats.received + written);
        offset := offset + written;
        held := Held();
        CountedOnwards(old(stats), items, held, callback, offset);
        var more: seq<Frame>;
        status, more := Drain(|frames|, callback);
        items := AheadDrains(items, held, callback, StreamScan.Drain(old(Held()) + data[..offset], 0, callback));
        frames := frames + more;
        if status != Ok {
          FeedConserves(old(stats), old(Held()) + data[..offset], callback);
          accepted := offset;
          return;
        }
      }
      accepted := |data|;
      ghost var held := Held();
      CountedOnwards(old(stats), items, held, callback, offset);
      var more: seq<Frame>;
      status, more := Drain(|frames|, callback);
      items := AheadDrains(items, held, callback, StreamScan.Drain(old(Held()) + data[..offset], 0, callback));
      frames := frames + more;
      FeedConserves(old(stats), old(Held()) + data[..offset], callback);
    }
  }

  lemma FeedConserves(s: Stats, buf: seq<byte>, reply: nat -> Status)
    ensures var t := StreamScan.Drain(buf, 0, reply);
            |buf| == Counted(s, t.items).discarded - s.discarded + FrameBytes(Frames(t.items)) + |t.rest|
  {
    DrainConserves(buf, 0, reply);
  }

  lemma FeedStarts(held: seq<byte>, data: seq<byte>, reply: nat -> Status, s: Stats)
    ensures Ahead([], held, 0, reply, StreamScan.Drain(held + data[..0], 0, reply))
    ensures Frames([]) == [] && Counted(s, []) == s
  {
    AheadStarts(held, 0, reply);
    assert held + data[..0] == held;
  }

  lemma ThenAssociates(a: Scan, b: Scan, c: Scan)
    ensures Then(a, Then(b, c)) == Then(Then(a, b), c)
  {
    assert a.items + (b.items + c.items) == a.items + b.items + c.items;
  }

  /** Writing more behind what is held is scanning a longer input. */
  lemma AheadWrite(done: seq<Item>, held: seq<byte>, input: seq<byte>, more: seq<byte>, reply: nat -> Status)
    requires Ahead(done, held, 0, reply, StreamScan.Drain(input, 0, reply))
    ensures Ahead(done, held + more, 0, reply, StreamScan.Drain(input + more, 0, reply))
  {
    hide StreamScan.Drain;
    var s, t := StreamScan.Drain(input, 0, reply), StreamScan.Drain(held, |Frames(done)|, reply);
    DrainAppend(input, more, 0, reply);
    DrainAppend(held, more, |Frames(done)|, reply);
    FramesAppend(done, t.items);
    if s.status == Ok {
      ThenAssociates(Scan(done, [], Ok), t, StreamScan.Drain(t.rest + more, |Frames(done)| + |Frames(t.items)|, reply));
    }
  }

  /** After a scan of what is held: the outcome, and the room it leaves. */
  lemma AheadDrains(done: seq<Item>, held: seq<byte>, reply: nat -> Status, whole: Scan) returns (items: seq<Item>)
    requires Ahead(done, held, 0, reply, whole)
    ensures var t := StreamScan.Drain(held, |Frames(done)|, reply);
            && items == done + t.items && Frames(items) == Frames(done) + Frames(t.items)
            && whole == Scan(items, t.rest, t.status)
            && (t.status == Ok ==> |t.rest| < MAX_FRAME && Ahead(items, t.rest, 0, reply, whole))
            && (t.status != Ok ==> |t.rest| + HEADER_SIZE + CRC_SIZE <= |held|)
  {
    var t := StreamScan.Drain(held, |Frames(done)|, reply);
    items := done + t.items;
    FramesAppend(done, t.items);
    DrainLeavesRoom(held, |Frames(done)|, reply);
    if t.status == Ok {
      assert items + [] == items;
    }
  }

  lemma CountedOnwards(s: Stats, done: seq<Item>, held: seq<byte>, reply: nat -> Status, offset: nat)
    ensures var n, more := s.received + offset, StreamScan.Drain(held, |Frames(done)|, reply).items;
            Counted(Counted(s, done).(received := n), more) == Counted(s, done + more).(received := n)
  {
    hide StreamScan.Drain;
    CountedAppend(s, done, StreamScan.Drain(held, |Frames(done)|, reply).items);
  }

  lemma {:induction false} IndexIrrelevant(buf: seq<byte>, k: nat, reply: nat -> Status)
    requires AlwaysOk(reply)
    ensures StreamScan.Drain(buf, k, reply) == StreamScan.Drain(buf, 0, reply)
    decreases |buf|
  {
    hide Look;
    match Look(buf) {
      case NeedMore =>
      case Skip(_) =>
        IndexIrrelevant(buf[1..], k, reply);
      case Got(f) =>
        IndexIrrelevant(buf[FrameLength(f)..], k + 1, reply);
        IndexIrrelevant(buf[FrameLength(f)..], 1, reply);
    }
  }

  /** Slicing independence of the parser itself: however a stream is cut into reads, frames,
      counters and remaining bytes are those of one scan of the whole stream. */
  method FeedSlices(parser: Parser, pieces: seq<seq<byte>>, callback: nat -> Status) returns (frames: seq<Frame>)
    requires parser.Valid() && AlwaysOk(callback) && Look(parser.Held()) == NeedMore
    modifies parser, parser.input, parser.input.storage
    ensures parser.Valid()
    ensures var s := StreamScan.Drain(old(parser.Held()) + Concat(pieces), 0, callback);
            && frames == Frames(s.items) && parser.Held() == s.rest
            && parser.stats == Counted(old(parser.stats), s.items)
                                 .(received := old(parser.stats).received + |Concat(pieces)|)
  {
    hide Look, StreamScan.Drain, Counted, Frames;
    frames := [];
    ghost var start, items := old(parser.Held()), [];
    ghost var fed: seq<byte> := [];
    SliceStarts(start, callback, parser.stats);
    for i := 0 to |pieces|
      invariant parser.Valid() && fed + Concat(pieces[i..]) == Concat(pieces)
      invariant StreamScan.Drain(start + fed, 0, callback) == Scan(items, parser.Held(), Ok)
      invariant frames == Frames(items)
      invariant parser.stats == Counted(old(parser.stats), items).(received := old(parser.stats).received + |fed|)
    {
      ghost var held, before := parser.Held(), parser.stats;
      var status, more, accepted := parser.Feed(pieces[i], callback);
      AllOkDrain(held + pieces[i][..accepted], 0, callback);
      SliceStep(start + fed, held, pieces[i], items, callback);
      assert pieces[i][..accepted] == pieces[i];
      ghost var t := StreamScan.Drain(held + pieces[i], 0, callback);
      CountedReceived(old(parser.stats), items, t.items, old(parser.stats).received + |fed|, before);
      items := items + t.items;
      frames := frames + more;
      assert start + fed + pieces[i] == start + (fed + pieces[i]);
      assert pieces[i..][1..] == pieces[i + 1..];
      assert fed + (pieces[i] + Concat(pieces[i + 1..])) == fed + pieces[i] + Concat(pieces[i + 1..]);
      fed := fed + pieces[i];
    }
    assert fed + [] == fed;
  }

  lemma SliceStarts(held: seq<byte>, reply: nat -> Status, s: Stats)
    requires Look(held) == NeedMore
    ensures StreamScan.Drain(held + [], 0, reply) == Scan([], held, Ok)
    ensures Frames([]) == [] && Counted(s, []) == s
  {
    assert held + [] == held;
  }

  lemma SliceStep(input: seq<byte>, held: seq<byte>, piece: seq<byte>, items: seq<Item>, reply: nat -> Status)
    requires AlwaysOk(reply) && StreamScan.Drain(input, 0, reply) == Scan(items, held, Ok)
    ensures var t := StreamScan.Drain(held + piece, 0, reply);
            && t.status == Ok && Frames(items + t.items) == Frames(items) + Frames(t.items)
            && StreamScan.Drain(input + piece, 0, reply) == Scan(items + t.items, t.rest, Ok)
  {
    hide StreamScan.Drain, AlwaysOk;
    DrainAppend(input, piece, 0, reply);
    IndexIrrelevant(held + piece, |Frames(items)|, reply);
    AllOkDrain(held + piece, 0, reply);
    FramesAppend(items, StreamScan.Drain(held + piece, 0, reply).items);
  }

  lemma CountedReceived(s: Stats, done: seq<Item>, more: seq<Item>, n: nat, before: Stats)
    requires before == Counted(s, done).(received := n)
    ensures forall m: nat :: Counted(before, more).(received := m) == Counted(s, done + more).(received := m)
  {
    CountedAppend(s, done, more);
  }
}
