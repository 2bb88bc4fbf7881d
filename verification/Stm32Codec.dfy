/** The device's own codec (firmware/stm32f103/common/protocol.c), proved to agree with the
    host's byte for byte and verdict for verdict. */
module Stm32Codec {
  import opened Wire
  import opened Crc32
  import opened FrameCodec

  method ComputeCrc(data: seq<byte>) returns (crc: u32)
    ensures crc == Checksum(data)
  {
    hide Xor, And, Half, Mask, Pad, ByteBits, Number;
    var register := ONES;
    for index := 0 to |data|
      invariant register == Update(INIT, data[..index])
    {
      register := Xor(register, Pad(ByteBits(data[index])));
      ghost var entered := register;
      for bit := 0 to 8
        invariant register == BitSteps(entered, bit)
      {
        var mask := Mask(register);
        register := Xor(Half(register), And(POLYNOMIAL, mask));
      }
      assert data[..index + 1][..index] == data[..index];
    }
    assert data[..|data|] == data;
    crc := Number(Xor(register, ONES));
  }

  /** Stores the low bytes of a value; the casts to uint8_t truncate. */
  method StoreLe(output: array<byte>, at: nat, value: u32, width: nat)
    requires width <= 4 && at + width <= output.Length
    modifies output
    ensures output[..] == Splice(old(output[..]), at, PutLe32(value)[..width])
  {
    if width > 0 { output[at] := value % 0x100; }
    if width > 1 { output[at + 1] := value / 0x100 % 0x100; }
    if width > 2 { output[at + 2] := value / 0x1_0000 % 0x100; }
    if width > 3 { output[at + 3] := value / 0x100_0000 % 0x100; }
  }

  lemma Le16IsLowLe32(value: u16)
    ensures PutLe32(value)[..2] == PutLe16(value)
  {
  }

  method StoreBody(kind: byte, flags: byte, sequence: u32, payload: seq<byte>, output: array<byte>)
    requires |payload| <= MAX_PAYLOAD && HEADER_SIZE + |payload| <= output.Length
    modifies output
    ensures output[..] == Splice(old(output[..]), 0, Body(Frame(kind, flags, sequence, payload)))
  {
    hide PutLe16, PutLe32, Splice;
    ghost var was := output[..];
    Le16IsLowLe32(MAGIC);
    Le16IsLowLe32(|payload|);
    assert PutLe32(sequence)[..4] == PutLe32(sequence);
    StoreLe(output, 0, MAGIC, 2);
    Put(output, 2, [VERSION, kind, flags, 0]);
    StoreLe(output, 6, sequence, 4);
    StoreLe(output, 10, |payload|, 2);
    Put(output, HEADER_SIZE, payload);
    SpliceBody(Frame(kind, flags, sequence, payload), was);
  }

  /** Both encoders succeed together and write the same bytes. */
  method EncodeView(kind: byte, flags: byte, sequence: u32, payload: seq<byte>, output: array<byte>)
    returns (code: int, length: nat)
    modifies output
    ensures var f := Frame(kind, flags, sequence, payload);
            code == if Sendable(f) && HEADER_SIZE + |payload| + CRC_SIZE <= output.Length then 0 else -1
    ensures code == 0 ==>
              && length == |Encode(Frame(kind, flags, sequence, payload))| <= output.Length
              && output[..] == Splice(old(output[..]), 0, Encode(Frame(kind, flags, sequence, payload)))
    ensures code != 0 ==> output[..] == old(output[..])
  {
    hide Checksum, Body, PutLe32, Splice;
    var total := HEADER_SIZE + |payload| + CRC_SIZE;
    if |payload| > MAX_PAYLOAD || output.Length < total {
      return -1, 0;
    }
    var n := HEADER_SIZE + |payload|;
    ghost var f := Frame(kind, flags, sequence, payload);
    StoreBody(kind, flags, sequence, payload, output);
    assert output[..n] == Body(f);
    var crc := ComputeCrc(output[..n]);
    StoreLe(output, n, crc, 4);
    assert PutLe32(crc)[..4] == PutLe32(crc);
    SpliceTwice(old(output[..]), 0, Body(f), PutLe32(crc));
    return 0, total;
  }

  /** The device's error code for a verdict of the host's decoder. */
  function CodeFor(verdict: Result<Frame>, length: nat): int {
    match verdict
    case Success(_) => 0
    case Failure(Protocol) => -2
    case Failure(Limit) => -3
    case Failure(BadCrc) => -4
    case Failure(_) => if length < HEADER_SIZE + CRC_SIZE then -1 else -3
  }

  /** Both decoders accept and reject together, with the same fields. */
  method DecodeView(data: seq<byte>) returns (code: int, view: Frame)
    ensures code == CodeFor(Decode(data), |data|)
    ensures code == 0 <==> Decode(data).Success?
    ensures code == 0 ==> view == Decode(data).value
  {
    hide Checksum;
    view := Frame(0, 0, 0, []);
    if |data| < HEADER_SIZE + CRC_SIZE {
      return -1, view;
    }
    if GetLe16(data) != MAGIC || data[2] != VERSION || data[5] != 0 {
      return -2, view;
    }
    var length := GetLe16(data[10..]);
    if length > MAX_PAYLOAD || |data| != HEADER_SIZE + length + CRC_SIZE {
      return -3, view;
    }
    var expected := GetLe32(data[HEADER_SIZE + length..]);
    var actual := ComputeCrc(data[..HEADER_SIZE + length]);
    if actual != expected {
      return -4, view;
    }
    return 0, Frame(data[3], data[4], GetLe32(data[6..]), data[HEADER_SIZE..HEADER_SIZE + length]);
  }
}
