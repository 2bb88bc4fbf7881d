/** The greedy scan of a byte stream for frames, as a pure function of the stream: what the
    parser of src/protocol/parser.c does, without its buffer. */
module StreamScan {
  import opened Wire
  import opened FrameCodec

  datatype Cause = NoMagic | BadHeader | TooLong | CrcMismatch | Undecodable

  datatype Verdict = NeedMore | Skip(cause: Cause) | Got(frame: Frame)

  /** What the first bytes of a buffer call for. */
  function Look(buf: seq<byte>): (v: Verdict)
    ensures v.NeedMore? ==> |buf| < MAX_FRAME
    ensures v.Skip? ==> |buf| >= 2
    ensures v.Got? ==> FrameLength(v.frame) <= |buf|
  {
    if |buf| < 2 then NeedMore
    else if GetLe16(buf) != MAGIC then Skip(NoMagic)
    else if |buf| < HEADER_SIZE then NeedMore
    else if buf[2] != VERSION || buf[5] != 0 then Skip(BadHeader)
    else
      var length := GetLe16(buf[10..]);
      if length > MAX_PAYLOAD then Skip(TooLong)
      else if |buf| < HEADER_SIZE + length + CRC_SIZE then NeedMore
      else match Decode(buf[..HEADER_SIZE + length + CRC_SIZE])
        case Success(f) => Got(f)
        case Failure(BadCrc) => Skip(CrcMismatch)
        case Failure(_) => Skip(Undecodable)
  }

  function FrameLength(f: Frame): nat {
    HEADER_SIZE + |f.payload| + CRC_SIZE
  }

  datatype Item = Dropped(value: byte, cause: Cause) | Emitted(frame: Frame)

  datatype Scan = Scan(items: seq<Item>, rest: seq<byte>, status: Status)

  /** Callbacks that never fail. */
  ghost predicate AlwaysOk(reply: nat -> Status) {
    forall i :: reply(i) == Ok
  }

  function Cons(item: Item, s: Scan): Scan {
    s.(items := [item] + s.items)
  }

  /** Scans until the buffer runs short or a callback fails; `reply(k)` is the verdict of
      the callback on the k-th frame. */
  function Drain(buf: seq<byte>, k: nat, reply: nat -> Status): Scan
    decreases |buf|
  {
    match Look(buf)
    case NeedMore => Scan([], buf, Ok)
    case Skip(cause) =>
      Cons(Dropped(buf[0], cause), Drain(buf[1..], k, reply))
    case Got(f) =>
      var rest := buf[FrameLength(f)..];
      if reply(k) != Ok then Scan([Emitted(f)], rest, reply(k))
      else Cons(Emitted(f), Drain(rest, k + 1, reply))
  }

  // ----- What a scan delivers and counts -----

  function Frames(items: seq<Item>): seq<Frame> {
    if items == [] then []
    else if items[0].Emitted? then [items[0].frame] + Frames(items[1..])
    else Frames(items[1..])
  }

  function Discarded(items: seq<Item>): nat {
    if items == [] then 0 else (if items[0].Dropped? then 1 else 0) + Discarded(items[1..])
  }

  function Dropouts(items: seq<Item>, cause: Cause): nat {
    if items == [] then 0
    else (if items[0].Dropped? && items[0].cause == cause then 1 else 0) + Dropouts(items[1..], cause)
  }

  ghost predicate AllSendable(items: seq<Item>) {
    forall i :: 0 <= i < |items| && items[i].Emitted? ==> Sendable(items[i].frame)
  }

  function Piece(item: Item): seq<byte>
    requires item.Emitted? ==> Sendable(item.frame)
  {
    match item
    case Dropped(b, _) => [b]
    case Emitted(f) => Encode(f)
  }

  /** The stream that the items were read from. */
  function Source(items: seq<Item>): seq<byte>
    requires AllSendable(items)
  {
    if items == [] then [] else Piece(items[0]) + Source(items[1..])
  }

  function FrameBytes(frames: seq<Frame>): nat {
    if frames == [] then 0 else FrameLength(frames[0]) + FrameBytes(frames[1..])
  }

  lemma {:induction false} FramesAppend(a: seq<Item>, b: seq<Item>)
    ensures Frames(a + b) == Frames(a) + Frames(b)
  {
    if a == [] {
      assert a + b == b;
    } else {
      var tail := a[1..] + b;
      assert (a + b)[1..] == tail && (a + b)[0] == a[0];
      FramesAppend(a[1..], b);
      if a[0].Emitted? {
        assert Frames(a + b) == [a[0].frame] + Frames(tail);
      } else {
        assert Frames(a + b) == Frames(tail);
      }
    }
  }

  lemma {:induction false} CountsAppend(a: seq<Item>, b: seq<Item>, cause: Cause)
    ensures Discarded(a + b) == Discarded(a) + Discarded(b)
    ensures Dropouts(a + b, cause) == Dropouts(a, cause) + Dropouts(b, cause)
  {
    if a == [] {
      assert a + b == b;
    } else {
      assert (a + b)[1..] == a[1..] + b;
      CountsAppend(a[1..], b, cause);
    }
  }

  // ----- Soundness and conservation -----

  lemma GotIsPrefix(buf: seq<byte>)
    requires Look(buf).Got?
    ensures var f := Look(buf).frame;
            Sendable(f) && FrameLength(f) <= |buf| && Encode(f) == buf[..FrameLength(f)]
  {
    hide Encode;
    EncodeDecode(buf[..HEADER_SIZE + GetLe16(buf[10..]) + CRC_SIZE]);
  }

  ghost predicate Reassembles(s: Scan, buf: seq<byte>) {
    AllSendable(s.items) && Source(s.items) + s.rest == buf
  }

  lemma ReassembleCons(item: Item, s: Scan, tail: seq<byte>)
    requires Reassembles(s, tail) && (item.Emitted? ==> Sendable(item.frame))
    ensures Reassembles(Cons(item, s), Piece(item) + tail)
  {
    hide Piece;
    assert ([item] + s.items)[1..] == s.items;
    assert Source([item] + s.items) == Piece(item) + Source(s.items);
    assert Piece(item) + Source(s.items) + s.rest == Piece(item) + (Source(s.items) + s.rest);
  }

  /** The items and the remainder are the buffer, cut into pieces in order: every emitted
      frame re-encodes to the bytes it was read from. */
  lemma {:induction false} DrainReassembles(buf: seq<byte>, k: nat, reply: nat -> Status)
    ensures Reassembles(Drain(buf, k, reply), buf)
    decreases |buf|
  {
    hide Look, Encode, Reassembles;
    match Look(buf) {
      case NeedMore =>
        ReassembleNothing(buf, Ok);
      case Skip(cause) =>
        DrainReassembles(buf[1..], k, reply);
        ReassembleCons(Dropped(buf[0], cause), Drain(buf[1..], k, reply), buf[1..]);
        assert buf == [buf[0]] + buf[1..];
      case Got(f) =>
        GotIsPrefix(buf);
        var rest := buf[FrameLength(f)..];
        assert buf == Encode(f) + rest;
        if reply(k) != Ok {
          ReassembleNothing(rest, reply(k));
          ReassembleCons(Emitted(f), Scan([], rest, reply(k)), rest);
          assert [Emitted(f)] + [] == [Emitted(f)];
        } else {
          DrainReassembles(rest, k + 1, reply);
          ReassembleCons(Emitted(f), Drain(rest, k + 1, reply), rest);
        }
    }
  }

  lemma ReassembleNothing(rest: seq<byte>, status: Status)
    ensures Reassembles(Scan([], rest, status), rest)
  {
    assert [] + rest == rest;
  }

  lemma {:induction false} SourceLength(items: seq<Item>)
    requires AllSendable(items)
    ensures |Source(items)| == Discarded(items) + FrameBytes(Frames(items))
  {
    hide Encode;
    if items != [] {
      SourceLength(items[1..]);
      assert |Piece(items[0])| == if items[0].Dropped? then 1 else FrameLength(items[0].frame);
      if items[0].Emitted? {
        assert Frames(items)[1..] == Frames(items[1..]);
      } else {
        assert Frames(items) == Frames(items[1..]);
      }
    }
  }

  /** Every byte of the buffer is discarded, delivered in a frame, or still held. */
  lemma DrainConserves(buf: seq<byte>, k: nat, reply: nat -> Status)
    ensures var s := Drain(buf, k, reply);
            |buf| == Discarded(s.items) + FrameBytes(Frames(s.items)) + |s.rest|
  {
    DrainReassembles(buf, k, reply);
    SourceLength(Drain(buf, k, reply).items);
  }

  /** A scan that runs to its end holds less than one frame; one that a callback stops has
      at least consumed a whole frame. */
  lemma {:induction false} DrainLeavesRoom(buf: seq<byte>, k: nat, reply: nat -> Status)
    ensures var s := Drain(buf, k, reply);
            if s.status == Ok then Look(s.rest) == NeedMore && |s.rest| < MAX_FRAME
            else |s.rest| + HEADER_SIZE + CRC_SIZE <= |buf|
    decreases |buf|
  {
    hide Look;
    match Look(buf) {
      case NeedMore =>
      case Skip(cause) =>
        DrainLeavesRoom(buf[1..], k, reply);
      case Got(f) =>
        if reply(k) == Ok {
          DrainLeavesRoom(buf[FrameLength(f)..], k + 1, reply);
        }
    }
  }

  // ----- However the stream is sliced -----

  /** A decision once taken does not depend on what arrives later. */
  lemma LookIsStable(a: seq<byte>, b: seq<byte>)
    requires Look(a) != NeedMore
    ensures Look(a + b) == Look(a)
  {
    hide Decode;
    if |a| >= HEADER_SIZE {
      assert (a + b)[10..][..2] == a[10..][..2];
      var n := HEADER_SIZE + GetLe16(a[10..]) + CRC_SIZE;
      if n <= |a| {
        assert (a + b)[..n] == a[..n];
      }
    }
  }

  function Then(s: Scan, t: Scan): Scan {
    t.(items := s.items + t.items)
  }

  lemma ThenCons(item: Item, s: Scan, t: Scan)
    ensures Then(Cons(item, s), t) == Cons(item, Then(s, t))
    ensures |Frames(Cons(item, s).items)| == |Frames(s.items)| + if item.Emitted? then 1 else 0
  {
    assert [item] + s.items + t.items == [item] + (s.items + t.items);
    assert ([item] + s.items)[1..] == s.items;
  }

  lemma {:induction false} DrainAppend(a: seq<byte>, b: seq<byte>, k: nat, reply: nat -> Status)
    ensures var s := Drain(a, k, reply);
            Drain(a + b, k, reply) ==
              if s.status != Ok then s.(rest := s.rest + b)
              else Then(s, Drain(s.rest + b, k + |Frames(s.items)|, reply))
    decreases |a|
  {
    hide Look, Cons, Then, Frames;
    match Look(a) {
      case NeedMore =>
        ThenNil(Drain(a, k, reply), Drain(a + b, k, reply));
      case Skip(cause) =>
        LookIsStable(a, b);
        assert (a + b)[1..] == a[1..] + b && (a + b)[0] == a[0];
        var s := Drain(a[1..], k, reply);
        DrainAppend(a[1..], b, k, reply);
        ThenCons(Dropped(a[0], cause), s, Drain(s.rest + b, k + |Frames(s.items)|, reply));
        ConsFields(Dropped(a[0], cause), s, b);
      case Got(f) =>
        LookIsStable(a, b);
        var n := FrameLength(f);
        assert (a + b)[n..] == a[n..] + b;
        if reply(k) == Ok {
          var s := Drain(a[n..], k + 1, reply);
          DrainAppend(a[n..], b, k + 1, reply);
          ThenCons(Emitted(f), s, Drain(s.rest + b, k + 1 + |Frames(s.items)|, reply));
          ConsFields(Emitted(f), s, b);
        }
    }
  }

  lemma ConsFields(item: Item, s: Scan, b: seq<byte>)
    ensures Cons(item, s).status == s.status && Cons(item, s).rest == s.rest
    ensures Cons(item, s).(rest := s.rest + b) == Cons(item, s.(rest := s.rest + b))
  {
  }

  lemma ThenNil(s: Scan, t: Scan)
    requires s.items == []
    ensures Then(s, t) == t && Frames(s.items) == []
  {
  }

  function Concat(pieces: seq<seq<byte>>): seq<byte> {
    if pieces == [] then [] else pieces[0] + Concat(pieces[1..])
  }

  lemma {:induction false} AllOkDrain(buf: seq<byte>, k: nat, reply: nat -> Status)
    requires AlwaysOk(reply)
    ensures Drain(buf, k, reply).status == Ok
    decreases |buf|
  {
    hide Look;
    match Look(buf) {
      case NeedMore =>
      case Skip(cause) => AllOkDrain(buf[1..], k, reply);
      case Got(f) => AllOkDrain(buf[FrameLength(f)..], k + 1, reply);
    }
  }

  // ----- Frames get through, and garbage in front of them does not stop them -----

  lemma LookAtFrame(f: Frame, t: seq<byte>)
    requires Sendable(f)
    ensures Look(Encode(f) + t) == Got(f)
  {
    hide Decode, Encode;
    EncodeStarts(f, t);
    DecodeEncode(f);
    assert (Encode(f) + t)[..FrameLength(f)] == Encode(f);
  }

  lemma EncodeStarts(f: Frame, t: seq<byte>)
    requires Sendable(f)
    ensures var data := Encode(f) + t;
            && GetLe16(data) == MAGIC && data[2] == VERSION && data[5] == 0
            && GetLe16(data[10..]) == |f.payload|
  {
    hide Body, GetLe16;
    var tail := PutLe32(Crc32.Checksum(Body(f)));
    assert Encode(f) + t == Body(f) + (tail + t);
    HeaderFields(f, tail + t);
  }

  function EncodeAll(frames: seq<Frame>): seq<byte>
    requires forall i :: 0 <= i < |frames| ==> Sendable(frames[i])
  {
    if frames == [] then [] else Encode(frames[0]) + EncodeAll(frames[1..])
  }

  /** A stream of encoded frames scans to exactly those frames, with nothing dropped or left. */
  lemma {:induction false} StreamRoundTrip(frames: seq<Frame>, k: nat, reply: nat -> Status)
    requires forall i :: 0 <= i < |frames| ==> Sendable(frames[i])
    requires AlwaysOk(reply)
    ensures var s := Drain(EncodeAll(frames), k, reply);
            s.rest == [] && s.status == Ok && Frames(s.items) == frames && Discarded(s.items) == 0
    decreases |frames|
  {
    hide Look, Encode;
    if frames == [] {
      assert Look([]) == NeedMore by { LookAtNothing(); }
    } else {
      var later := EncodeAll(frames[1..]);
      LookAtFrame(frames[0], later);
      assert (Encode(frames[0]) + later)[FrameLength(frames[0])..] == later;
      StreamRoundTrip(frames[1..], k + 1, reply);
      var s := Drain(later, k + 1, reply);
      assert ([Emitted(frames[0])] + s.items)[1..] == s.items;
      assert frames == [frames[0]] + frames[1..];
    }
  }

  lemma LookAtNothing()
    ensures Look([]) == NeedMore
  {
  }

  /** No accepted byte string starts in the first n bytes of the stream. */
  ghost predicate NoFrameStartsBefore(stream: seq<byte>, n: nat) {
    forall i, j :: 0 <= i < n && i <= j <= |stream| ==> Decode(stream[i..j]).Failure?
  }

  lemma NoGotBefore(stream: seq<byte>, n: nat)
    requires NoFrameStartsBefore(stream, n) && 0 < n <= |stream|
    ensures !Look(stream).Got?
    ensures NoFrameStartsBefore(stream[1..], n - 1)
  {
    hide Decode;
    if |stream| >= HEADER_SIZE {
      var m := HEADER_SIZE + GetLe16(stream[10..]) + CRC_SIZE;
      if m <= |stream| {
        assert stream[..m] == stream[0..m];
      }
    }
    forall i, j | 0 <= i < n - 1 && i <= j <= |stream[1..]|
      ensures Decode(stream[1..][i..j]).Failure?
    {
      assert stream[1..][i..j] == stream[i + 1..j + 1];
    }
  }

  /** After any garbage g, with enough bytes behind it to decide every position in it,
      exactly g is discarded and the frame that follows is the first one delivered. */
  lemma {:induction false} Resynchronises(g: seq<byte>, f: Frame, t: seq<byte>, k: nat, reply: nat -> Status)
    requires Sendable(f) && |Encode(f) + t| >= MAX_FRAME - 1
    requires NoFrameStartsBefore(g + Encode(f) + t, |g|)
    ensures var items := Drain(g + Encode(f) + t, k, reply).items;
            && |items| > |g| && items[|g|] == Emitted(f)
            && forall i :: 0 <= i < |g| ==> items[i].Dropped? && items[i].value == g[i]
    decreases |g|
  {
    hide Look, Encode;
    var stream := g + Encode(f) + t;
    if g == [] {
      assert stream == Encode(f) + t;
      LookAtFrame(f, t);
    } else {
      NoGotBefore(stream, |g|);
      assert stream[1..] == g[1..] + Encode(f) + t;
      Resynchronises(g[1..], f, t, k, reply);
      var cause := Look(stream).cause;
      var tail := Drain(stream[1..], k, reply);
      assert Drain(stream, k, reply).items == [Dropped(g[0], cause)] + tail.items;
      forall i | 0 <= i < |g|
        ensures Drain(stream, k, reply).items[i].Dropped? && Drain(stream, k, reply).items[i].value == g[i]
      {
        if i > 0 {
          assert tail.items[i - 1].value == g[1..][i - 1];
        }
      }
    }
  }
}
