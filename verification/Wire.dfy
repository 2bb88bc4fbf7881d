/** Bytes, little-endian fields, message numbers and frames of protocol version 1.
    Unsigned C integers are bounded mathematical integers: every conversion to one of
    these types carries the proof that the C operation does not wrap. */
module Wire {

  type byte = x: int | 0 <= x < 0x100
  type u16 = x: int | 0 <= x < 0x1_0000
  type u32 = x: int | 0 <= x < 0x1_0000_0000
  type u64 = x: int | 0 <= x < 0x1_0000_0000_0000_0000

  const U32_MAX: int := 0xFFFF_FFFF
  const U64_MAX: int := 0xFFFF_FFFF_FFFF_FFFF

  datatype Option<+T> = None | Some(value: T)

  function Bit(b: bool): nat {
    if b then 1 else 0
  }

  /** The error codes of the host library. */
  datatype Status =
    | Ok | Invalid | Overflow | BadCrc | Protocol | Timeout | Disconnected | Io
    | BadState | Busy | NotFound | Limit

  datatype Result<+T> = Success(value: T) | Failure(status: Status)

  /** What a change of a descriptor's epoll events comes to. */
  type EpollStatus = s: Status | s == Ok || s == Io witness Ok

  /** What queueing a frame for the device comes to: queued; refused, because another frame is
      still in the output buffer; or put there without the transport being told to send it. */
  type QueueStatus = s: Status | s == Ok || s == Busy || s == Io witness Ok

  const MAGIC: u16 := 0x4D44
  const VERSION: byte := 1
  const HEADER_SIZE: nat := 12
  const CRC_SIZE: nat := 4
  const MAX_PAYLOAD: nat := 4096
  const MAX_FRAME: nat := HEADER_SIZE + MAX_PAYLOAD + CRC_SIZE
  const MAX_IMAGE: nat := 16 * 1024 * 1024

  const PING: byte := 0x01
  const START_TELEMETRY: byte := 0x05
  const STOP_TELEMETRY: byte := 0x06
  const ENTER_BOOTLOADER: byte := 0x10
  const FW_BEGIN: byte := 0x11
  const FW_DATA: byte := 0x12
  const FW_STATUS: byte := 0x13
  const FW_END: byte := 0x14
  const FW_VERIFY: byte := 0x15
  const FW_ACTIVATE: byte := 0x16
  const REBOOT: byte := 0x17
  const ACK: byte := 0x80
  const NACK: byte := 0x81
  const ERROR: byte := 0x82
  const TELEMETRY: byte := 0x83

  const FLAG_RESPONSE: byte := 1
  const FLAG_ACK_REQUIRED: byte := 2
  const FLAG_RETRY: byte := 4

  datatype Frame = Frame(kind: byte, flags: byte, sequence: u32, payload: seq<byte>)

  /** flags & RESPONSE */
  predicate IsResponse(flags: byte) {
    flags % 2 == 1
  }

  /** flags | RETRY */
  function WithRetry(flags: byte): (r: byte)
    ensures (r / 4) % 2 == 1
    ensures r % 4 == flags % 4 && r / 8 == flags / 8
  {
    if (flags / FLAG_RETRY) % 2 == 1 then flags else flags + FLAG_RETRY
  }

  /** A counter whose wrap-around skips zero. */
  function NextNonzero(n: u32): (r: u32)
    ensures r != 0 && r != n
  {
    if n == U32_MAX then 1 else n + 1
  }

  /** A C string without its terminator. */
  type CString = s: seq<byte> | 0 !in s witness []

  /** memchr for the terminator; the length when there is none. */
  function FirstZero(p: seq<byte>): (n: nat)
    ensures n <= |p| && 0 !in p[..n] && (n < |p| ==> p[n] == 0)
  {
    if p == [] || p[0] == 0 then 0 else 1 + FirstZero(p[1..])
  }

  /** The string at the start of the field, empty when it is not terminated. */
  function StringAt(p: seq<byte>): CString {
    if FirstZero(p) == |p| then [] else p[..FirstZero(p)]
  }

  function PutLe16(n: u16): (s: seq<byte>)
    ensures |s| == 2
  {
    [n % 0x100, n / 0x100]
  }

  function PutLe32(n: u32): (s: seq<byte>)
    ensures |s| == 4
  {
    [n % 0x100, n / 0x100 % 0x100, n / 0x1_0000 % 0x100, n / 0x100_0000]
  }

  function GetLe16(s: seq<byte>): u16
    requires |s| >= 2
  {
    s[0] as int + 0x100 * s[1] as int
  }

  function GetLe32(s: seq<byte>): u32
    requires |s| >= 4
  {
    s[0] as int + 0x100 * s[1] as int + 0x1_0000 * s[2] as int + 0x100_0000 * s[3] as int
  }

  /** Reading back a 16-bit field, whatever follows it. */
  lemma GetPut16(n: u16, rest: seq<byte>)
    ensures GetLe16(PutLe16(n) + rest) == n
  {
  }

  lemma PutGet16(s: seq<byte>)
    requires |s| == 2
    ensures PutLe16(GetLe16(s)) == s
  {
  }

  lemma GetPut32(n: u32, rest: seq<byte>)
    ensures GetLe32(PutLe32(n) + rest) == n
  {
    var a := n / 0x100;
    var b := a / 0x100;
    var c := b / 0x100;
    assert n / 0x1_0000 == b;
    assert n / 0x100_0000 == c;
    assert n == n % 0x100 + 0x100 * (a % 0x100 + 0x100 * (b % 0x100 + 0x100 * c));
  }

  lemma PutGet32(s: seq<byte>)
    requires |s| == 4
    ensures PutLe32(GetLe32(s)) == s
  {
    var n := GetLe32(s);
    var a := s[1] as int + 0x100 * s[2] as int + 0x1_0000 * s[3] as int;
    var b := s[2] as int + 0x100 * s[3] as int;
    assert n == s[0] as int + 0x100 * a && a == s[1] as int + 0x100 * b;
    assert n / 0x100 == a;
    assert n / 0x1_0000 == b;
    assert n / 0x100_0000 == s[3];
  }

  // ----- Answers of a device -----

  /** Where a device keeps the name of a version, its terminator included. */
  const VERSION_BUFFER: nat := 32

  function Reply(request: Frame, payload: seq<byte>): Frame {
    Frame(request.kind, FLAG_RESPONSE, request.sequence, payload)
  }

  function Nack(request: Frame, code: u16): Frame {
    Frame(NACK, FLAG_RESPONSE, request.sequence, PutLe16(code))
  }

  /** What a device reports of an update's session. */
  function SessionReport(sessionId: u32, offset: u32): seq<byte> {
    PutLe32(sessionId) + PutLe32(offset)
  }

  // ----- Buffers -----

  /** A buffer after a memcpy of data to position `at`. */
  function Splice(cells: seq<byte>, at: nat, data: seq<byte>): (s: seq<byte>)
    requires at + |data| <= |cells|
    ensures |s| == |cells|
    ensures forall j :: 0 <= j < |s| ==> s[j] == if at <= j < at + |data| then data[j - at] else cells[j]
  {
    cells[..at] + data + cells[at + |data|..]
  }

  lemma SpliceParts(cells: seq<byte>, at: nat, data: seq<byte>)
    requires at + |data| <= |cells|
    ensures Splice(cells, at, data)[..at] == cells[..at]
    ensures Splice(cells, at, data)[..at + |data|] == cells[..at] + data
  {
  }

  /** Copies laid down one behind the other are one copy. */
  lemma SpliceTwice(cells: seq<byte>, at: nat, a: seq<byte>, b: seq<byte>)
    requires at + |a| + |b| <= |cells|
    ensures Splice(Splice(cells, at, a), at + |a|, b) == Splice(cells, at, a + b)
  {
  }
}
