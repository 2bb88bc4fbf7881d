/** The update core of the STM32 bootloader (firmware/stm32f103/bootloader/update.c) over a
    flash whose every operation may fail. */
module Stm32Update {
  import opened Wire
  import opened Crc32

  const SCRATCH: nat := 32

  const INVALID_STATE: u16 := 2
  const INVALID_PAYLOAD: u16 := 3
  const BAD_OFFSET: u16 := 5
  const STORAGE: u16 := 6
  const VERIFY: u16 := 7

  datatype Stage = Idle | Receiving | Transferred | Verified

  /** The update context together with the flash behind it. */
  datatype State = State(stage: Stage, sessionId: u32, imageSize: u32, imageCrc: u32, nextOffset: u32,
                         chunkSize: u16, version: CString, flash: seq<byte>)

  /** How the flash driver behaves during one request: what an erase leaves behind, what ends up
      in the cells a failing write was to fill, which reads of the scratch buffer succeed, and
      whether activation does. */
  datatype Driver = Driver(erases: bool, blank: seq<byte>, writes: bool, debris: nat -> byte,
                           readable: nat -> bool, activates: bool)

  /** What the core has the flash driver do at the end of a request, if anything. */
  datatype Call = Nothing | Activate(imageSize: u32, imageCrc: u32, version: CString) | Restart

  datatype Outcome = Outcome(next: State, reply: Frame, call: Call)

  function Refuse(u: State, request: Frame, code: u16): Outcome {
    Outcome(u, Nack(request, code), Nothing)
  }

  function Answer(u: State, request: Frame, payload: seq<byte>): Outcome {
    Outcome(u, Reply(request, payload), Nothing)
  }

  /** The flash after an erase for an image: what the driver reports if it is large enough. */
  predicate EraseWorks(size: nat, driver: Driver) {
    driver.erases && |driver.blank| >= size
  }

  function HandleBegin(u: State, request: Frame, driver: Driver): Outcome {
    var p := request.payload;
    if |p| < 11 then Refuse(u, request, INVALID_PAYLOAD)
    else
      var size, crc, chunk, version := GetLe32(p), GetLe32(p[4..]), GetLe16(p[8..]), StringAt(p[10..]);
      if size == 0 || chunk == 0 || |version| == 0 || |version| >= VERSION_BUFFER then
        Refuse(u, request, INVALID_PAYLOAD)
      else if u.stage == Receiving && size == u.imageSize && crc == u.imageCrc && version == u.version then
        Answer(u, request, SessionReport(u.sessionId, u.nextOffset))
      else if !EraseWorks(size, driver) then Refuse(u, request, STORAGE)
      else
        var v := State(Receiving, NextNonzero(u.sessionId), size, crc, 0, chunk, version, driver.blank);
        Answer(v, request, SessionReport(v.sessionId, v.nextOffset))
  }

  /** The scratch reads that a comparison of n bytes takes. */
  function Pieces(n: nat): nat {
    (n + SCRATCH - 1) / SCRATCH
  }

  ghost predicate ReadsBack(driver: Driver, n: nat) {
    forall i :: 0 <= i < Pieces(n) ==> driver.readable(i)
  }

  /** What a write leaves in the cells it was to fill: the data or, if it fails, anything. */
  function Filled(data: seq<byte>, driver: Driver): (cells: seq<byte>)
    ensures |cells| == |data|
  {
    if driver.writes then data else seq(|data|, i requires 0 <= i < |data| => driver.debris(i))
  }

  /** The flash after a write. */
  function Written(flash: seq<byte>, offset: nat, data: seq<byte>, driver: Driver): seq<byte>
    requires offset + |data| <= |flash|
  {
    Splice(flash, offset, Filled(data, driver))
  }

  ghost function HandleData(u: State, request: Frame, driver: Driver): Outcome
    requires Valid(u)
  {
    var p := request.payload;
    if u.stage != Receiving || |p| <= 8 || GetLe32(p) != u.sessionId then Refuse(u, request, INVALID_STATE)
    else
      var offset, data := GetLe32(p[4..]), p[8..];
      if |data| > u.chunkSize || offset > u.imageSize || |data| > u.imageSize - offset then
        Refuse(u, request, BAD_OFFSET)
      else if offset < u.nextOffset then
        if offset + |data| > u.nextOffset || !ReadsBack(driver, |data|) || u.flash[offset..offset + |data|] != data then
          Refuse(u, request, BAD_OFFSET)
        else Answer(u, request, PutLe32(u.nextOffset))
      else if offset == u.nextOffset then
        var v := u.(flash := Written(u.flash, offset, data, driver));
        if !driver.writes then Refuse(v, request, STORAGE)
        else
          var w := v.(nextOffset := u.nextOffset + |data|);
          Answer(w, request, PutLe32(w.nextOffset))
      else Refuse(u, request, BAD_OFFSET)
  }

  /** The flash reaches as far as the image, and what has been received is within it. */
  ghost predicate Valid(u: State) {
    u.nextOffset <= u.imageSize <= |u.flash|
  }

  ghost function Handle(u: State, request: Frame, driver: Driver): Outcome
    requires Valid(u)
  {
    if request.kind == ENTER_BOOTLOADER then Answer(u, request, [])
    else if request.kind == FW_BEGIN then HandleBegin(u, request, driver)
    else if request.kind == FW_DATA then HandleData(u, request, driver)
    else if request.kind == FW_STATUS then
      if |request.payload| != 4 || GetLe32(request.payload) != u.sessionId then Refuse(u, request, INVALID_STATE)
      else Answer(u, request, SessionReport(u.sessionId, u.nextOffset))
    else if request.kind == FW_END then
      if u.stage != Receiving || u.nextOffset != u.imageSize then Refuse(u, request, BAD_OFFSET)
      else Answer(u.(stage := Transferred), request, [])
    else if request.kind == FW_VERIFY then
      if u.stage != Transferred || Checksum(u.flash[..u.imageSize]) != u.imageCrc then Refuse(u, request, VERIFY)
      else Answer(u.(stage := Verified), request, PutLe32(u.imageCrc))
    else if request.kind == FW_ACTIVATE then
      if u.stage != Verified then Refuse(u, request, INVALID_STATE)
      else
        var call := Activate(u.imageSize, u.imageCrc, u.version);
        if !driver.activates then Outcome(u, Nack(request, INVALID_STATE), call)
        else Outcome(u, Reply(request, []), call)
    else if request.kind == REBOOT then Outcome(u, Reply(request, []), Restart)
    else Refuse(u, request, INVALID_PAYLOAD)
  }

  lemma NoPieces()
    ensures Pieces(0) == 0
  {
  }

  lemma CountPieces(n: nat, piece: nat)
    requires SCRATCH * piece < n
    ensures piece < Pieces(n)
    ensures n <= SCRATCH * (piece + 1) ==> Pieces(n) == piece + 1
  {
  }

  lemma SliceOfSlice(s: seq<byte>, offset: nat, length: nat, i: nat, n: nat)
    requires offset + length <= |s| && i + n <= length
    ensures s[offset..offset + length][i..i + n] == s[offset + i..offset + i + n]
  {
    var whole := s[offset..offset + length];
    var left, right := whole[i..i + n], s[offset + i..offset + i + n];
    forall k | 0 <= k < n
      ensures left[k] == right[k]
    {
      assert whole[i + k] == s[offset + (i + k)];
    }
  }

  // ----- The object -----

  class Bootloader {
    var stage: Stage
    var sessionId: u32
    var imageSize: u32
    var imageCrc: u32
    var nextOffset: u32
    var chunkSize: u16
    var version: CString
    var flash: seq<byte>

    ghost function View(): State
      reads this
    {
      State(stage, sessionId, imageSize, imageCrc, nextOffset, chunkSize, version, flash)
    }

    constructor ()
      ensures View() == State(Idle, 1, 0, 0, 0, 0, [], [])
    {
      stage, sessionId, imageSize, imageCrc, nextOffset, chunkSize := Idle, 1, 0, 0, 0, 0;
      version, flash := [], [];
    }

    /** Compares stored bytes with a chunk, one scratch buffer at a time. */
    method DuplicateMatches(offset: nat, data: seq<byte>, driver: Driver) returns (same: bool)
      requires offset + |data| <= |flash|
      ensures same <==> ReadsBack(driver, |data|) && flash[offset..offset + |data|] == data
    {
      hide Pieces;
      ghost var stored := flash[offset..offset + |data|];
      var checked, piece := 0, 0;
      NoPieces();
      while checked < |data|
        invariant checked <= |data|
                  && (if checked < |data| then checked == SCRATCH * piece else piece == Pieces(|data|))
        invariant forall i :: 0 <= i < piece ==> driver.readable(i)
        invariant stored[..checked] == data[..checked]
      {
        var remaining := |data| - checked;
        var count := if remaining < SCRATCH then remaining else SCRATCH;
        var scratch := flash[offset + checked..offset + checked + count];
        CountPieces(|data|, piece);
        assert scratch == stored[checked..checked + count] by { SliceOfSlice(flash, offset, |data|, checked, count); }
        if !driver.readable(piece) || scratch != data[checked..checked + count] {
          return false;
        }
        assert stored[..checked + count] == stored[..checked] + scratch;
        assert data[..checked + count] == data[..checked] + scratch;
        checked, piece := checked + count, piece + 1;
      }
      assert data[..|data|] == data && stored[..|data|] == stored;
      return true;
    }

    method OnBegin(request: Frame, driver: Driver) returns (reply: Frame)
      modifies this
      ensures Outcome(View(), reply, Nothing) == HandleBegin(old(View()), request, driver)
    {
      hide GetLe32, GetLe16, PutLe32, PutLe16, StringAt;
      var p := request.payload;
      if |p| < 11 {
        return Nack(request, INVALID_PAYLOAD);
      }
      var size, crc, chunk, name := GetLe32(p), GetLe32(p[4..]), GetLe16(p[8..]), StringAt(p[10..]);
      if size == 0 || chunk == 0 || |name| == 0 || |name| >= VERSION_BUFFER {
        return Nack(request, INVALID_PAYLOAD);
      }
      if stage == Receiving && size == imageSize && crc == imageCrc && name == version {
        return Reply(request, PutLe32(sessionId) + PutLe32(nextOffset));
      }
      if !EraseWorks(size, driver) {
        return Nack(request, STORAGE);
      }
      flash := driver.blank;
      sessionId := (sessionId + 1) % 0x1_0000_0000;
      if sessionId == 0 {
        sessionId := 1;
      }
      imageSize, imageCrc, chunkSize, nextOffset := size, crc, chunk, 0;
      version, stage := name, Receiving;
      return Reply(request, PutLe32(sessionId) + PutLe32(0));
    }

    method OnData(request: Frame, driver: Driver) returns (reply: Frame)
      requires Valid(View())
      modifies this
      ensures Outcome(View(), reply, Nothing) == HandleData(old(View()), request, driver)
    {
      hide GetLe32, PutLe32, PutLe16;
      var p := request.payload;
      if stage != Receiving || |p| <= 8 || GetLe32(p) != sessionId {
        return Nack(request, INVALID_STATE);
      }
      var offset, data := GetLe32(p[4..]), p[8..];
      if |data| > chunkSize || offset > imageSize || |data| > imageSize - offset {
        return Nack(request, BAD_OFFSET);
      }
      if offset < nextOffset {
        if offset + |data| > nextOffset {
          return Nack(request, BAD_OFFSET);
        }
        var same := DuplicateMatches(offset, data, driver);
        if !same {
          return Nack(request, BAD_OFFSET);
        }
      } else if offset == nextOffset {
        flash := Written(flash, offset, data, driver);
        if !driver.writes {
          return Nack(request, STORAGE);
        }
        nextOffset := nextOffset + |data|;
      } else {
        return Nack(request, BAD_OFFSET);
      }
      return Reply(request, PutLe32(nextOffset));
    }

    method OnRequest(request: Frame, driver: Driver) returns (reply: Frame, call: Call)
      requires Valid(View())
      modifies this
      ensures Outcome(View(), reply, call) == Handle(old(View()), request, driver)
    {
      hide GetLe32, PutLe32, PutLe16, HandleBegin, HandleData, Checksum;
      call := Nothing;
      reply := Reply(request, []);
      if request.kind == ENTER_BOOTLOADER {
        return;
      } else if request.kind == FW_BEGIN {
        reply := OnBegin(request, driver);
      } else if request.kind == FW_DATA {
        reply := OnData(request, driver);
      } else if request.kind == FW_STATUS {
        if |request.payload| != 4 || GetLe32(request.payload) != sessionId {
          return Nack(request, INVALID_STATE), Nothing;
        }
        reply := Reply(request, PutLe32(sessionId) + PutLe32(nextOffset));
      } else if request.kind == FW_END {
        if stage != Receiving || nextOffset != imageSize {
          return Nack(request, BAD_OFFSET), Nothing;
        }
        stage := Transferred;
      } else if request.kind == FW_VERIFY {
        var crc := ComputeChecksum(flash[..imageSize]);
        if stage != Transferred || crc != imageCrc {
          return Nack(request, VERIFY), Nothing;
        }
        stage := Verified;
        reply := Reply(request, PutLe32(imageCrc));
      } else if request.kind == FW_ACTIVATE {
        if stage != Verified {
          return Nack(request, INVALID_STATE), Nothing;
        }
        call := Activate(imageSize, imageCrc, version);
        if !driver.activates {
          reply := Nack(request, INVALID_STATE);
        }
      } else if request.kind == REBOOT {
        call := Restart;
      } else {
        reply := Nack(request, INVALID_PAYLOAD);
      }
    }
  }

  // ----- Activation safety over every sequence of requests -----

  datatype Event = Event(request: Frame, driver: Driver)

  /** The event starts a new session, erasing the flash. */
  ghost predicate Opens(u: State, e: Event)
    requires Valid(u)
  {
    e.request.kind == FW_BEGIN && Handle(u, e.request, e.driver).next != u
  }

  /** The event stores the next chunk. */
  ghost predicate Stores(u: State, e: Event)
    requires Valid(u)
  {
    e.request.kind == FW_DATA && Handle(u, e.request, e.driver).next.nextOffset > u.nextOffset
  }

  function Join(chunks: seq<seq<byte>>): seq<byte> {
    if chunks == [] then [] else Join(chunks[..|chunks| - 1]) + chunks[|chunks| - 1]
  }

  /** A run with the chunks of the present session in the order they were accepted. */
  datatype Trace = Trace(device: State, chunks: seq<seq<byte>>)

  ghost function Extend(t: Trace, e: Event): Trace
    requires Valid(t.device)
  {
    var next := Handle(t.device, e.request, e.driver).next;
    if Opens(t.device, e) then Trace(next, [])
    else if Stores(t.device, e) then Trace(next, t.chunks + [e.request.payload[8..]])
    else Trace(next, t.chunks)
  }

  ghost predicate Inv(t: Trace) {
    var u := t.device;
    && Valid(u) && u.flash[..u.nextOffset] == Join(t.chunks)
    && (u.stage == Transferred || u.stage == Verified ==> u.nextOffset == u.imageSize)
    && (u.stage == Verified ==> Checksum(u.flash[..u.imageSize]) == u.imageCrc)
  }

  lemma JoinOneMore(chunks: seq<seq<byte>>, chunk: seq<byte>)
    ensures Join(chunks + [chunk]) == Join(chunks) + chunk
  {
    assert (chunks + [chunk])[..|chunks|] == chunks;
  }

  lemma BeginKeeps(t: Trace, e: Event)
    requires Inv(t) && e.request.kind == FW_BEGIN
    ensures Inv(Extend(t, e))
  {
    hide GetLe32, GetLe16, PutLe32, PutLe16, StringAt, Checksum;
  }

  /** FW_DATA changes nothing, or fills the cells at the next offset and moves on if that worked. */
  lemma DataEffect(u: State, request: Frame, driver: Driver)
    requires Valid(u)
    ensures var (v, p) := (HandleData(u, request, driver).next, request.payload);
            || v == u
            || (&& u.stage == Receiving && |p| > 8 && u.nextOffset + |p| - 8 <= u.imageSize
                && v == u.(flash := Written(u.flash, u.nextOffset, p[8..], driver),
                           nextOffset := if driver.writes then u.nextOffset + |p| - 8 else u.nextOffset))
  {
    hide GetLe32, PutLe32, PutLe16, Splice;
  }

  lemma DataKeeps(t: Trace, e: Event)
    requires Inv(t) && e.request.kind == FW_DATA
    ensures Inv(Extend(t, e))
  {
    hide HandleData, Checksum, Splice;
    var u, v, p := t.device, Extend(t, e).device, e.request.payload;
    DataEffect(u, e.request, e.driver);
    if v != u {
      JoinOneMore(t.chunks, p[8..]);
      SpliceParts(u.flash, u.nextOffset, Filled(p[8..], e.driver));
    }
  }

  lemma ExtendKeeps(t: Trace, e: Event)
    requires Inv(t)
    ensures Inv(Extend(t, e))
  {
    if e.request.kind == FW_BEGIN {
      BeginKeeps(t, e);
    } else if e.request.kind == FW_DATA {
      DataKeeps(t, e);
    } else {
      hide GetLe32, PutLe32, PutLe16, Checksum;
    }
  }

  ghost function Follow(t: Trace, e: Event): (next: Trace)
    requires Inv(t)
    ensures Inv(next)
  {
    ExtendKeeps(t, e);
    Extend(t, e)
  }

  const INITIAL: Trace := Trace(State(Idle, 1, 0, 0, 0, 0, [], []), [])

  ghost function Run(t: Trace, events: seq<Event>): (last: Trace)
    requires Inv(t)
    ensures Inv(last)
    decreases |events|
  {
    if events == [] then t else Run(Follow(t, events[0]), events[1..])
  }

  /** Whatever requests arrive and however the flash fails: whenever activation is called for, it
      is for an image that is the concatenation, in order, of the chunks accepted in this session,
      and whose checksum is the one announced. */
  lemma ActivationSafe(events: seq<Event>, e: Event)
    ensures var t := Run(INITIAL, events);
            var u := t.device;
            var call := Handle(u, e.request, e.driver).call;
            call.Activate? ==>
              && call == Activate(u.imageSize, u.imageCrc, u.version)
              && call.imageSize == |Join(t.chunks)| <= |u.flash| && u.flash[..call.imageSize] == Join(t.chunks)
              && Checksum(u.flash[..call.imageSize]) == call.imageCrc
  {
    hide GetLe32, PutLe32, PutLe16, Checksum, Run;
  }

  // ----- What has been acknowledged stays -----

  lemma FollowKeepsPrefix(t: Trace, e: Event)
    requires Inv(t) && !Opens(t.device, e)
    ensures var u, v := t.device, Follow(t, e).device;
            Valid(v) && v.nextOffset >= u.nextOffset && v.flash[..u.nextOffset] == u.flash[..u.nextOffset]
  {
    hide GetLe32, GetLe16, PutLe32, PutLe16, Checksum, Splice, StringAt;
  }

  /** No event of the run starts a new session. */
  ghost predicate SameSession(t: Trace, events: seq<Event>)
    requires Inv(t)
    decreases |events|
  {
    events == [] || (!Opens(t.device, events[0]) && SameSession(Follow(t, events[0]), events[1..]))
  }

  lemma {:induction false} PrefixStays(t: Trace, events: seq<Event>)
    requires Inv(t) && SameSession(t, events)
    ensures var u, v := t.device, Run(t, events).device;
            Valid(v) && v.nextOffset >= u.nextOffset && v.flash[..u.nextOffset] == u.flash[..u.nextOffset]
    decreases |events|
  {
    hide Follow, Opens;
    if events != [] {
      FollowKeepsPrefix(t, events[0]);
      var m := Follow(t, events[0]);
      PrefixStays(m, events[1..]);
      var u, v := t.device, Run(t, events).device;
      assert v.flash[..u.nextOffset] == v.flash[..m.device.nextOffset][..u.nextOffset];
      assert m.device.flash[..m.device.nextOffset][..u.nextOffset] == m.device.flash[..u.nextOffset];
    }
  }

  /** The chunk of a FW_DATA payload can be read back at its offset, below the limit. */
  ghost predicate Holds(flash: seq<byte>, limit: nat, payload: seq<byte>) {
    && |payload| > 8 && limit <= |flash|
    && var (offset, data) := (GetLe32(payload[4..]), payload[8..]);
       offset + |data| <= limit && flash[offset..offset + |data|] == data
  }

  lemma AcceptedIsStored(u: State, request: Frame, driver: Driver)
    requires Valid(u) && request.kind == FW_DATA && HandleData(u, request, driver).reply.kind == FW_DATA
    ensures var v := HandleData(u, request, driver).next; Holds(v.flash, v.nextOffset, request.payload)
  {
    hide GetLe32, PutLe32, PutLe16, Splice, ReadsBack;
    var offset, data := GetLe32(request.payload[4..]), request.payload[8..];
    if offset >= u.nextOffset {
      SpliceParts(u.flash, offset, data);
    }
  }

  lemma AcknowledgedIsStored(t: Trace, e: Event)
    requires Inv(t) && e.request.kind == FW_DATA && Handle(t.device, e.request, e.driver).reply.kind == FW_DATA
    ensures var v := Follow(t, e).device; Holds(v.flash, v.nextOffset, e.request.payload)
  {
    hide HandleData, Holds, Checksum, Join;
    AcceptedIsStored(t.device, e.request, e.driver);
  }

  lemma HoldsOn(flash: seq<byte>, later: seq<byte>, limit: nat, payload: seq<byte>)
    requires Holds(flash, limit, payload) && limit <= |later| && later[..limit] == flash[..limit]
    ensures Holds(later, limit, payload)
  {
    hide GetLe32;
    var i := GetLe32(payload[4..]);
    var j := i + |payload[8..]|;
    assert later[i..j] == later[..limit][i..j];
    assert flash[i..j] == flash[..limit][i..j];
  }

  /** Every acknowledged chunk stays readable at its offset until a new session erases the flash. */
  lemma AcknowledgedStays(before: seq<Event>, e: Event, after: seq<Event>)
    requires var t := Run(INITIAL, before);
             && e.request.kind == FW_DATA && Handle(t.device, e.request, e.driver).reply.kind == FW_DATA
             && SameSession(Follow(t, e), after)
    ensures var flash := Run(Follow(Run(INITIAL, before), e), after).device.flash;
            Holds(flash, |flash|, e.request.payload)
  {
    assert Inv(INITIAL);
    hide Holds, Handle, Run, Extend, SameSession, Join, Checksum;
    var t := Follow(Run(INITIAL, before), e);
    var u, v := t.device, Run(t, after).device;
    AcknowledgedIsStored(Run(INITIAL, before), e);
    PrefixStays(t, after);
    HoldsOn(u.flash, v.flash, u.nextOffset, e.request.payload);
    HoldsBelow(v.flash, u.nextOffset, |v.flash|, e.request.payload);
  }

  lemma HoldsBelow(flash: seq<byte>, limit: nat, higher: nat, payload: seq<byte>)
    requires Holds(flash, limit, payload) && limit <= higher <= |flash|
    ensures Holds(flash, higher, payload)
  {
  }

  // ----- Which requests can be repeated -----

  /** The flash works. */
  ghost predicate Reliable(driver: Driver, request: Frame) {
    && driver.writes && driver.activates && (forall i :: driver.readable(i))
    && (|request.payload| >= 4 ==> EraseWorks(GetLe32(request.payload), driver))
  }

  /** The request moves the device to its next stage; the same request is refused there. */
  ghost predicate Advances(u: State, request: Frame)
    requires Valid(u)
  {
    || (request.kind == FW_END && u.stage == Receiving && u.nextOffset == u.imageSize)
    || (request.kind == FW_VERIFY && u.stage == Transferred && Checksum(u.flash[..u.imageSize]) == u.imageCrc)
  }

  lemma HandleKeepsValid(u: State, request: Frame, driver: Driver)
    requires Valid(u)
    ensures Valid(Handle(u, request, driver).next)
  {
    hide GetLe32, GetLe16, PutLe32, PutLe16, StringAt, Checksum, Splice;
  }

  lemma BeginTwice(u: State, request: Frame, driver: Driver)
    requires Valid(u) && Reliable(driver, request)
    ensures var first := HandleBegin(u, request, driver); HandleBegin(first.next, request, driver) == first
  {
    hide GetLe32, GetLe16, PutLe32, PutLe16, StringAt;
  }

  lemma DataTwice(u: State, request: Frame, driver: Driver)
    requires Valid(u) && Reliable(driver, request)
    ensures var first := HandleData(u, request, driver);
            Valid(first.next) && HandleData(first.next, request, driver) == first
  {
    hide GetLe32, PutLe32, PutLe16, Splice;
    var first := HandleData(u, request, driver);
    if first.next != u {
      var offset, data := GetLe32(request.payload[4..]), request.payload[8..];
      assert first.next.flash[offset..offset + |data|] == data;
    }
  }

  /** On a working flash, handling a request again leaves the device unchanged and gives the same
      answer, unless it is the FW_END or FW_VERIFY that moves the device on: repeated, those two
      are refused. */
  lemma RepeatableUnlessAdvancing(u: State, request: Frame, driver: Driver)
    requires Valid(u) && Reliable(driver, request)
    ensures Valid(Handle(u, request, driver).next)
    ensures (Handle(Handle(u, request, driver).next, request, driver) == Handle(u, request, driver)) <==>
              !Advances(u, request)
  {
    HandleKeepsValid(u, request, driver);
    if request.kind == FW_BEGIN {
      BeginTwice(u, request, driver);
    } else if request.kind == FW_DATA {
      DataTwice(u, request, driver);
    }
    hide GetLe32, PutLe32, PutLe16, Checksum, HandleBegin, HandleData;
  }

  /** A concrete repeated FW_END that is refused. */
  lemma RepeatedEndRefused(flash: seq<byte>, driver: Driver)
    requires |flash| == 1
    ensures var u := State(Receiving, 2, 1, 0, 1, 1, [0x31], flash);
            var end := Frame(FW_END, FLAG_ACK_REQUIRED, 7, PutLe32(2));
            && Valid(u) && Handle(u, end, driver).reply.kind == FW_END
            && Valid(Handle(u, end, driver).next) && Handle(Handle(u, end, driver).next, end, driver).reply.kind == NACK
  {
  }
}
