/** The device side of a firmware update: the update requests of the simulator
    (simulator/device/simulator.c). */
module Simulator {
  import opened Wire
  import opened Crc32
  import opened Upgrade

  datatype Device = Device(telemetry: bool, bootloader: bool, upgrading: bool, verified: bool, flash: seq<byte>,
                           expectedCrc: u32, chunkSize: u16, offset: u32, sessionId: u32, version: CString,
                           pendingVersion: CString, failVerify: bool)

  /** The flash is only ever allocated for an image of acceptable size; none is allocated at first. */
  type Sim = d: Device | |d.flash| <= MAX_IMAGE
    witness Device(false, false, false, false, [], 0, 0, 0, 0, [], [], false)

  /** What malloc does: fail, or hand out memory with some contents. */
  datatype Heap = Exhausted | Memory(cells: nat -> byte)

  function Allocate(heap: Heap, size: nat): (cells: seq<byte>)
    requires heap.Memory?
    ensures |cells| == size
  {
    seq(size, i requires 0 <= i < size => heap.cells(i))
  }

  predicate IsUpdate(kind: byte) {
    ENTER_BOOTLOADER <= kind <= REBOOT
  }

  /** A new session over freshly allocated flash. */
  function OpenSession(d: Sim, size: nat, crc: u32, chunk: u16, version: CString, heap: Heap): Sim
    requires heap.Memory? && size <= MAX_IMAGE
  {
    d.(flash := Allocate(heap, size), expectedCrc := crc, chunkSize := chunk, offset := 0,
       sessionId := NextNonzero(d.sessionId), pendingVersion := version, upgrading := true, verified := false)
  }

  function HandleBegin(d: Sim, request: Frame, heap: Heap): (Sim, Frame) {
    var p := request.payload;
    if !d.bootloader || |p| < 11 then (d, Nack(request, 2))
    else
      var size, crc, chunk, version := GetLe32(p), GetLe32(p[4..]), GetLe16(p[8..]), StringAt(p[10..]);
      if size == 0 || size > MAX_IMAGE || chunk == 0 || chunk > MAX_PAYLOAD - 8
         || |version| == 0 || |version| >= VERSION_BUFFER then (d, Nack(request, 3))
      else if d.upgrading && |d.flash| == size && d.expectedCrc == crc && d.chunkSize == chunk
              && d.pendingVersion == version then (d, Reply(request, SessionReport(d.sessionId, d.offset)))
      else if heap.Exhausted? then (d, Nack(request, 6))
      else
        var e := OpenSession(d, size, crc, chunk, version, heap);
        (e, Reply(request, SessionReport(e.sessionId, e.offset)))
  }

  function HandleData(d: Sim, request: Frame): (Sim, Frame) {
    var p := request.payload;
    if !d.upgrading || |p| <= 8 || GetLe32(p) != d.sessionId then (d, Nack(request, 2))
    else
      var offset, data := GetLe32(p[4..]), p[8..];
      if |data| > d.chunkSize || offset > |d.flash| || |data| > |d.flash| - offset then (d, Nack(request, 5))
      else if offset < d.offset then
        if offset + |data| > d.offset || d.flash[offset..offset + |data|] != data then (d, Nack(request, 5))
        else (d, Reply(request, PutLe32(d.offset)))
      else if offset == d.offset then
        var e := d.(flash := Splice(d.flash, offset, data), offset := d.offset + |data|);
        (e, Reply(request, PutLe32(e.offset)))
      else (d, Nack(request, 5))
  }

  /** The request names the running session and nothing else. */
  predicate NamesSession(d: Sim, request: Frame) {
    |request.payload| == 4 && GetLe32(request.payload) == d.sessionId
  }

  function Handle(d: Sim, request: Frame, heap: Heap): (Sim, Frame)
    requires IsUpdate(request.kind)
  {
    if request.kind == ENTER_BOOTLOADER then (d.(telemetry := false, bootloader := true), Reply(request, []))
    else if request.kind == FW_BEGIN then HandleBegin(d, request, heap)
    else if request.kind == FW_DATA then HandleData(d, request)
    else if request.kind == FW_STATUS then
      if !d.upgrading || !NamesSession(d, request) then (d, Nack(request, 2))
      else (d, Reply(request, SessionReport(d.sessionId, d.offset)))
    else if request.kind == FW_END then
      if !d.upgrading || !NamesSession(d, request) || d.offset != |d.flash| then (d, Nack(request, 5))
      else (d, Reply(request, []))
    else if request.kind == FW_VERIFY then
      var actual := if d.flash == [] then 0 else Checksum(d.flash);
      if !d.upgrading || !NamesSession(d, request) || d.failVerify || actual != d.expectedCrc then (d, Nack(request, 7))
      else (d.(verified := true), Reply(request, PutLe32(actual)))
    else if request.kind == FW_ACTIVATE then
      if !d.verified || !NamesSession(d, request) then (d, Nack(request, 2))
      else (d.(version := d.pendingVersion), Reply(request, []))
    else
      (d.(bootloader := false, upgrading := false, verified := false), Reply(request, []))
  }

  // ----- The object -----

  class SimulatedDevice {
    var telemetry: bool
    var bootloader: bool
    var upgrading: bool
    var verified: bool
    var flash: seq<byte>
    var expectedCrc: u32
    var chunkSize: u16
    var offset: u32
    var sessionId: u32
    var version: CString
    var pendingVersion: CString
    var failVerify: bool

    ghost predicate Valid()
      reads this
    {
      |flash| <= MAX_IMAGE
    }

    ghost function View(): Sim
      requires Valid()
      reads this
    {
      Device(telemetry, bootloader, upgrading, verified, flash, expectedCrc, chunkSize, offset, sessionId,
             version, pendingVersion, failVerify)
    }

    constructor (initialVersion: CString, failVerify: bool)
      ensures Valid()
      ensures View() == Device(false, false, false, false, [], 0, 0, 0, 0, initialVersion, [], failVerify)
    {
      telemetry, bootloader, upgrading, verified := false, false, false, false;
      flash, expectedCrc, chunkSize, offset, sessionId := [], 0, 0, 0, 0;
      version, pendingVersion := initialVersion, [];
      this.failVerify := failVerify;
    }

    method OnBegin(request: Frame, heap: Heap) returns (response: Frame)
      requires Valid()
      modifies this
      ensures Valid() && (View(), response) == HandleBegin(old(View()), request, heap)
    {
      hide GetLe32, GetLe16, PutLe32, PutLe16, StringAt, OpenSession;
      var p := request.payload;
      if !bootloader || |p| < 11 {
        return Nack(request, 2);
      }
      var imageSize, imageCrc, chunk := GetLe32(p), GetLe32(p[4..]), GetLe16(p[8..]);
      var name := StringAt(p[10..]);
      if imageSize == 0 || imageSize > MAX_IMAGE || chunk == 0 || chunk > MAX_PAYLOAD - 8
         || |name| == 0 || |name| >= VERSION_BUFFER {
        return Nack(request, 3);
      }
      if upgrading && |flash| == imageSize && expectedCrc == imageCrc && chunkSize == chunk && pendingVersion == name {
        return Reply(request, PutLe32(sessionId) + PutLe32(offset));
      }
      if heap.Exhausted? {
        return Nack(request, 6);
      }
      Open(imageSize, imageCrc, chunk, name, heap);
      return Reply(request, PutLe32(sessionId) + PutLe32(offset));
    }

    method Open(imageSize: nat, imageCrc: u32, chunk: u16, name: CString, heap: Heap)
      requires Valid() && heap.Memory? && imageSize <= MAX_IMAGE
      modifies this
      ensures Valid() && View() == OpenSession(old(View()), imageSize, imageCrc, chunk, name, heap)
    {
      hide Allocate;
      var session := (sessionId + 1) % 0x1_0000_0000;
      if session == 0 {
        session := 1;
      }
      flash, expectedCrc, chunkSize, offset := Allocate(heap, imageSize), imageCrc, chunk, 0;
      sessionId, pendingVersion, upgrading, verified := session, name, true, false;
    }

    method OnData(request: Frame) returns (response: Frame)
      requires Valid()
      modifies this
      ensures Valid() && (View(), response) == HandleData(old(View()), request)
    {
      var p := request.payload;
      if !upgrading || |p| <= 8 || GetLe32(p) != sessionId {
        return Nack(request, 2);
      }
      var at, data := GetLe32(p[4..]), p[8..];
      if |data| > chunkSize || at > |flash| || |data| > |flash| - at {
        return Nack(request, 5);
      }
      if at < offset {
        if at + |data| > offset || flash[at..at + |data|] != data {
          return Nack(request, 5);
        }
      } else if at == offset {
        flash := Splice(flash, at, data);
        offset := offset + |data|;
      } else {
        return Nack(request, 5);
      }
      return Reply(request, PutLe32(offset));
    }

    method OnFrame(request: Frame, heap: Heap) returns (response: Frame)
      requires Valid() && IsUpdate(request.kind)
      modifies this
      ensures Valid() && (View(), response) == Handle(old(View()), request, heap)
    {
      hide HandleBegin, HandleData, GetLe32, PutLe32, PutLe16, Checksum;
      response := Reply(request, []);
      if request.kind == ENTER_BOOTLOADER {
        telemetry, bootloader := false, true;
      } else if request.kind == FW_BEGIN {
        response := OnBegin(request, heap);
      } else if request.kind == FW_DATA {
        response := OnData(request);
      } else if request.kind == FW_STATUS {
        if !upgrading || |request.payload| != 4 || GetLe32(request.payload) != sessionId {
          response := Nack(request, 2);
        } else {
          response := Reply(request, PutLe32(sessionId) + PutLe32(offset));
        }
      } else if request.kind == FW_END {
        if !upgrading || |request.payload| != 4 || GetLe32(request.payload) != sessionId || offset != |flash| {
          response := Nack(request, 5);
        }
      } else if request.kind == FW_VERIFY {
        var actual := 0;
        if flash != [] {
          actual := ComputeChecksum(flash);
        }
        if !upgrading || |request.payload| != 4 || GetLe32(request.payload) != sessionId || failVerify
           || actual != expectedCrc {
          response := Nack(request, 7);
        } else {
          verified := true;
          response := Reply(request, PutLe32(actual));
        }
      } else if request.kind == FW_ACTIVATE {
        if !verified || |request.payload| != 4 || GetLe32(request.payload) != sessionId {
          response := Nack(request, 2);
        } else {
          version := pendingVersion;
        }
      } else {
        bootloader, upgrading, verified := false, false, false;
      }
    }
  }

  // ----- A repeated request changes nothing more and gets the same answer -----

  /** The request is a FW_BEGIN in order that the running session does not already serve. */
  predicate NeedsMemory(d: Sim, request: Frame) {
    var p := request.payload;
    && request.kind == FW_BEGIN && d.bootloader && |p| >= 11
    && var (size, crc, chunk, version) := (GetLe32(p), GetLe32(p[4..]), GetLe16(p[8..]), StringAt(p[10..]));
       && 0 < size <= MAX_IMAGE && 0 < chunk <= MAX_PAYLOAD - 8 && 0 < |version| < VERSION_BUFFER
       && !(d.upgrading && |d.flash| == size && d.expectedCrc == crc && d.chunkSize == chunk
            && d.pendingVersion == version)
  }

  lemma BeginTwice(d: Sim, request: Frame, again: Frame, heap: Heap, later: Heap)
    requires request.kind == FW_BEGIN && again == request.(flags := again.flags)
    ensures var (e, r) := HandleBegin(d, request, heap);
            HandleBegin(e, again, later) == (e, r) <==> !(NeedsMemory(d, request) && heap.Exhausted? && later.Memory?)
  {
    hide GetLe32, GetLe16, PutLe32, PutLe16, StringAt, Allocate;
  }

  lemma DataTwice(d: Sim, request: Frame, again: Frame)
    requires again == request.(flags := again.flags)
    ensures var (e, r) := HandleData(d, request); HandleData(e, again) == (e, r)
  {
    hide GetLe32, PutLe32, PutLe16;
    var (e, r) := HandleData(d, request);
    if e != d {
      var offset, data := GetLe32(request.payload[4..]), request.payload[8..];
      assert e.flash[offset..offset + |data|] == data;
    }
  }

  /** Handling an update request again, with or without the retry flag, leaves the device as
      it was after the first time and gives the same answer: in every state, for every
      request, unless it needs memory that is missing the first time and there the second. */
  lemma RetryIdempotent(d: Sim, request: Frame, again: Frame, heap: Heap, later: Heap)
    requires IsUpdate(request.kind) && again == request.(flags := again.flags)
    ensures var (e, r) := Handle(d, request, heap);
            Handle(e, again, later) == (e, r) <==> !(NeedsMemory(d, request) && heap.Exhausted? && later.Memory?)
  {
    hide GetLe32, PutLe32, PutLe16, Checksum, HandleBegin, HandleData;
    if request.kind == FW_BEGIN {
      BeginTwice(d, request, again, heap, later);
    } else if request.kind == FW_DATA {
      DataTwice(d, request, again);
    }
  }

  /** A concrete FW_BEGIN that is refused for want of memory and served when it is repeated. */
  lemma RefusedThenServed(request: Frame, heap: Heap)
    requires heap.Memory? && request.kind == FW_BEGIN
    requires request.payload == PutLe32(1) + PutLe32(0) + PutLe16(1) + [0x31, 0]
    ensures var d := Device(false, true, false, false, [], 0, 0, 0, 0, [], [], false);
            && NeedsMemory(d, request) && Handle(d, request, Exhausted) == (d, Nack(request, 6))
            && Handle(d, request, heap).1.kind == FW_BEGIN
  {
    hide Checksum, HandleData, Allocate;
    var p := request.payload;
    assert p == [1, 0, 0, 0, 0, 0, 0, 0, 1, 0, 0x31, 0];
    var name := p[10..];
    assert name == [0x31, 0] && name[1..] == [0];
    assert FirstZero(name[1..]) == 0 && FirstZero(name) == 1;
    assert StringAt(name) == [0x31];
    assert GetLe32(p[4..]) == 0 && GetLe16(p[8..]) == 1 && GetLe32(p) == 1;
  }
}
