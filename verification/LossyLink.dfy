/** Host and device joined by a serial line that may lose any frame in either direction but
    never reorders. The host is the daemon's update driver, the device the simulator. */
module LossyLink {
  import opened Wire
  import opened Crc32
  import opened Simulator
  import opened Driver
  import S = Session
  import U = Upgrade

  /** What the device does beyond updates: whether it gets memory, whether it sends telemetry, and
      how it answers a request that is not part of an update. */
  datatype DeviceEnv = DeviceEnv(heap: Heap, telemetry: bool, answer: Frame)

  function Respond(d: Sim, f: Frame, env: DeviceEnv): (Sim, Frame) {
    if IsUpdate(f.kind) then Handle(d, f, env.heap)
    else (d.(telemetry := env.telemetry), env.answer.(sequence := f.sequence))
  }

  /** The device refuses the request for want of memory. */
  predicate Starves(d: Sim, f: Frame, heap: Heap) {
    NeedsMemory(d, f) && heap.Exhausted?
  }

  /** `running` is false once a handler of the daemon has failed. For the record, `asked` is the
      update as it was when the last request was numbered, and `starved` says whether the
      device has ever refused for want of memory. */
  datatype Link = Link(host: Host, running: bool, asked: U.State, device: Sim, starved: bool,
                       toDevice: seq<Frame>, toHost: seq<Frame>)

  /** `queued` is the verdict of the host's output buffer on a frame sent in the step. */
  datatype Step =
    | DeviceHandles(env: DeviceEnv, lost: bool)
    | DeviceReports(payload: seq<byte>)
    | HostReceives(now: u64, queued: QueueStatus)
    | HostTicks(now: u64, queued: QueueStatus)
    | LoseToDevice(i: nat)
    | LoseToHost(i: nat)

  function Without(q: seq<Frame>, i: nat): seq<Frame> {
    if i < |q| then q[..i] + q[i + 1..] else q
  }

  function Sending(q: seq<Frame>, sent: Option<Frame>): seq<Frame> {
    match sent
    case None => q
    case Some(f) => q + [f]
  }

  function DeviceStep(l: Link, env: DeviceEnv, lost: bool): Link {
    if l.toDevice == [] then l
    else
      var f := l.toDevice[0];
      var (d, r) := Respond(l.device, f, env);
      l.(device := d, starved := l.starved || Starves(l.device, f, env.heap), toDevice := l.toDevice[1..],
         toHost := if lost then l.toHost else l.toHost + [r])
  }

  function Report(payload: seq<byte>): Frame {
    Frame(TELEMETRY, FLAG_RESPONSE, 0, payload)
  }

  /** What the host makes of a frame or of its timer, and what it sends. */
  datatype Turn = Turn(host: Host, running: bool, asked: U.State, sent: Option<Frame>)

  function Receipt(h: Host, asked: U.State, f: Frame, now: u64, queued: QueueStatus): Turn {
    if U.Active(h.upgrade) then
      var (g, status, sent) := OnUpgradeFrame(h, f, now, queued);
      Turn(g, status == Ok, if g.session.stats.requests > h.session.stats.requests then g.upgrade else asked, sent)
    else if IsTelemetry(f) then Turn(h, true, asked, None)
    else Turn(h.(session := S.Accept(h.session, f).0), true, asked, None)
  }

  function Expiry(h: Host, asked: U.State, now: u64, queued: QueueStatus): Turn {
    var (s, status, again) := S.Tick(h.session, now, queued);
    var g := h.(session := s);
    if status == Timeout && U.Active(h.upgrade) then
      var (e, sent) := OnUpgradeTimeout(g, now, queued);
      Turn(e, true, if e.session.stats.requests > s.stats.requests then U.BeginRecovery(h.upgrade).0 else asked, sent)
    else Turn(g, status == Ok, asked, if again.Some? then Reaching(again.value, queued) else None)
  }

  function ReceiveStep(l: Link, now: u64, queued: QueueStatus): Link {
    if !l.running || l.toHost == [] then l
    else
      var t := Receipt(l.host, l.asked, l.toHost[0], now, queued);
      l.(host := t.host, running := t.running, asked := t.asked, toDevice := Sending(l.toDevice, t.sent),
         toHost := l.toHost[1..])
  }

  function TickStep(l: Link, now: u64, queued: QueueStatus): Link {
    if !l.running then l
    else
      var t := Expiry(l.host, l.asked, now, queued);
      l.(host := t.host, running := t.running, asked := t.asked, toDevice := Sending(l.toDevice, t.sent))
  }

  function Next(l: Link, step: Step): Link {
    match step
    case DeviceHandles(env, lost) => DeviceStep(l, env, lost)
    case DeviceReports(payload) => l.(toHost := l.toHost + [Report(payload)])
    case HostReceives(now, queued) => ReceiveStep(l, now, queued)
    case HostTicks(now, queued) => TickStep(l, now, queued)
    case LoseToDevice(i) => l.(toDevice := Without(l.toDevice, i))
    case LoseToHost(i) => l.(toHost := Without(l.toHost, i))
  }

  function Run(l: Link, steps: seq<Step>): Link
    decreases |steps|
  {
    if steps == [] then l else Run(Next(l, steps[0]), steps[1..])
  }

  // ----- The device as the host may rely on it -----

  function Rank(phase: U.Phase): int {
    match phase
    case Entering => 0
    case Beginning => 1
    case Transferring => 2
    case Recovering => 2
    case Ending => 3
    case Verifying => 4
    case Activating => 5
    case Restarting => 6
    case _ => -1
  }

  /** What a FW_BEGIN tells of an image, and what a session is recognised by. */
  datatype Label = Label(size: nat, crc: u32, chunkSize: u16, version: CString)

  function LabelOf(a: U.State): Label {
    Label(|a.image|, a.imageCrc, a.chunkSize, a.version)
  }

  function SessionLabel(d: Sim): Label {
    Label(|d.flash|, d.expectedCrc, d.chunkSize, d.pendingVersion)
  }

  /** What the device has stored so far is the beginning of the image. */
  ghost predicate Begun(image: seq<byte>, d: Sim) {
    && d.sessionId != 0 && |d.flash| == |image| && d.offset <= |image|
    && d.flash[..d.offset] == image[..d.offset]
  }

  /** The device has a session for this image, and the beginning of it. */
  ghost predicate Stored(a: U.State, d: Sim) {
    d.upgrading && SessionLabel(d) == LabelOf(a) && Begun(a.image, d)
  }

  ghost predicate Open(a: U.State, d: Sim) {
    d.bootloader && Stored(a, d) && d.sessionId == a.sessionId
  }

  ghost predicate AllStored(a: U.State, d: Sim) {
    Open(a, d) && d.offset == |a.image|
  }

  ghost predicate Installed(a: U.State, d: Sim) {
    d.flash == a.image && d.version == a.version
  }

  /** The device is out of its bootloader and has no session left. */
  ghost predicate Rebooted(d: Sim) {
    !d.bootloader && !d.upgrading && !d.verified
  }

  ghost predicate AllReboot(q: seq<Frame>) {
    forall i :: 0 <= i < |q| ==> q[i].kind == REBOOT
  }

  ghost predicate DeviceOk(a: U.State, d: Sim, q: seq<Frame>) {
    && !d.failVerify
    && match a.phase
       case Entering => d.upgrading && SessionLabel(d) == LabelOf(a) ==> Stored(a, d)
       case Beginning => d.bootloader && (d.upgrading && SessionLabel(d) == LabelOf(a) ==> Stored(a, d))
       case Transferring => Open(a, d) && (d.offset == a.offset || d.offset == U.ChunkEnd(a, a.offset))
       case Recovering => Open(a, d) && (d.offset == a.offset || d.offset == U.ChunkEnd(a, a.offset))
       case Ending => AllStored(a, d)
       case Verifying => AllStored(a, d)
       case Activating => AllStored(a, d) && d.verified
       case Restarting => Installed(a, d) && (if d.upgrading then AllStored(a, d) && d.verified else AllReboot(q))
       case _ => false
  }

  // ----- The frames on the line -----

  /** A chunk of the image at p, at or before the one the host is working on. */
  ghost predicate ChunkOf(payload: seq<byte>, a: U.State, p: nat) {
    && p < |a.image| && p <= a.offset && (p == a.offset || U.ChunkEnd(a, p) <= a.offset)
    && payload == U.DataPayload(a.sessionId, p, a.image[p..U.ChunkEnd(a, p)])
  }

  /** A request this update has sent, at its present phase or before. */
  ghost predicate RequestOk(f: Frame, a: U.State) {
    || f.kind == ENTER_BOOTLOADER
    || (f.kind == FW_BEGIN && Rank(a.phase) >= 1 && f.payload == U.BeginPayload(a))
    || (f.kind == FW_DATA && Rank(a.phase) >= 2 && exists p :: ChunkOf(f.payload, a, p))
    || (f.kind == FW_STATUS && Rank(a.phase) >= 2 && f.payload == PutLe32(a.sessionId))
    || (f.kind == FW_END && Rank(a.phase) >= 3 && f.payload == PutLe32(a.sessionId))
    || (f.kind == FW_VERIFY && Rank(a.phase) >= 4 && f.payload == PutLe32(a.sessionId))
    || (f.kind == FW_ACTIVATE && Rank(a.phase) >= 5 && f.payload == PutLe32(a.sessionId))
    || (f.kind == REBOOT && Rank(a.phase) >= 6)
  }

  /** A started update of an image the device can take. */
  ghost predicate Sound(a: U.State) {
    && U.Good(a) && U.Active(a) && |a.image| <= MAX_IMAGE && a.imageCrc == Checksum(a.image)
    && (a.phase == U.Transferring ==> a.lastChunkEnd == U.ChunkEnd(a, a.offset))
    && (Rank(a.phase) >= 3 ==> a.offset == |a.image|)
    && (Rank(a.phase) >= 2 ==> a.sessionId != 0)
  }

  function Question(a: U.State): Frame
    requires Sound(a)
  {
    U.BuildSucceeds(a);
    U.Build(a).1.value
  }

  ghost predicate Asks(f: Frame, a: U.State)
    requires Sound(a)
  {
    f.kind == Question(a).kind && f.payload == Question(a).payload
  }

  /** The device's answer to the request in flight, while the device is in state d. */
  ghost predicate ReplyOk(f: Frame, a: U.State, d: Sim)
    requires Sound(a)
  {
    && f.kind == Question(a).kind && f.flags == FLAG_RESPONSE
    && match a.phase
       case Entering => d.bootloader
       case Beginning => Stored(a, d) && f.payload == SessionReport(d.sessionId, d.offset)
       case Transferring => d.offset == U.ChunkEnd(a, a.offset) && f.payload == PutLe32(d.offset)
       case Recovering => f.payload == SessionReport(d.sessionId, d.offset)
       case Ending => true
       case Verifying => d.verified && f.payload == PutLe32(a.imageCrc)
       case Activating => d.version == a.version
       case Restarting => Rebooted(d)
       case _ => false
  }

  // ----- Reading the payloads back -----

  lemma {:induction false} FirstZeroAtEnd(v: seq<byte>)
    requires 0 !in v
    ensures FirstZero(v + [0]) == |v|
  {
    if v != [] {
      assert (v + [0])[1..] == v[1..] + [0];
      FirstZeroAtEnd(v[1..]);
    }
  }

  lemma BeginFields(a: U.State)
    requires |a.image| <= MAX_IMAGE
    ensures var p := U.BeginPayload(a);
            && |p| == 11 + |a.version|
            && GetLe32(p) == |a.image| && GetLe32(p[4..]) == a.imageCrc && GetLe16(p[8..]) == a.chunkSize
            && StringAt(p[10..]) == a.version
  {
    hide GetLe32, GetLe16, PutLe32, PutLe16;
    var size, crc, chunk, name := PutLe32(U.Truncate32(|a.image|)), PutLe32(a.imageCrc), PutLe16(a.chunkSize),
                                  a.version + [0];
    FieldsInOrder(size, crc, chunk, name);
    assert U.BeginPayload(a) == size + crc + chunk + name;
    GetPut32(U.Truncate32(|a.image|), crc + (chunk + name));
    GetPut32(a.imageCrc, chunk + name);
    GetPut16(a.chunkSize, name);
    FirstZeroAtEnd(a.version);
  }

  lemma FieldsInOrder(a: seq<byte>, b: seq<byte>, c: seq<byte>, rest: seq<byte>)
    requires |a| == 4 && |b| == 4 && |c| == 2
    ensures var p := a + b + c + rest;
            p == a + (b + (c + rest)) && p[4..] == b + (c + rest) && p[8..] == c + rest && p[10..] == rest
  {
  }

  lemma DataFields(sessionId: u32, offset: u32, data: seq<byte>)
    ensures var p := U.DataPayload(sessionId, offset, data);
            && |p| == 8 + |data| && GetLe32(p) == sessionId && GetLe32(p[4..]) == offset && p[8..] == data
  {
    hide GetLe32, PutLe32;
    var p := U.DataPayload(sessionId, offset, data);
    GetPut32(sessionId, p[4..]);
    assert p == PutLe32(sessionId) + p[4..];
    GetPut32(offset, p[8..]);
    assert p[4..] == PutLe32(offset) + p[8..];
  }

  lemma WordField(n: u32)
    ensures GetLe32(PutLe32(n)) == n
  {
    GetPut32(n, []);
    assert PutLe32(n) + [] == PutLe32(n);
  }

  lemma ReportFields(d: Sim)
    ensures var p := SessionReport(d.sessionId, d.offset);
            |p| == 8 && GetLe32(p) == d.sessionId && GetLe32(p[4..]) == d.offset
  {
    hide GetLe32, PutLe32;
    var p := SessionReport(d.sessionId, d.offset);
    GetPut32(d.sessionId, PutLe32(d.offset));
    assert p[4..] == PutLe32(d.offset);
    WordField(d.offset);
  }

  // ----- The device serves every request of the update -----

  /** The device stays good for the host and answers the request in flight as the host
      expects. It refuses nothing but a FW_BEGIN for which there is no memory. */
  ghost predicate Served(a: U.State, d: Sim, f: Frame, heap: Heap, rest: seq<Frame>)
    requires Sound(a) && IsUpdate(f.kind)
  {
    var (e, r) := Handle(d, f, heap);
    && DeviceOk(a, e, rest)
    && if Starves(d, f, heap) then a.phase == U.Beginning && e == d && r == Nack(f, 6)
       else r == Reply(f, r.payload) && (Asks(f, a) ==> ReplyOk(r, a, e))
  }

  /** A further copy of the request in flight does not outdate an answer already given. */
  ghost predicate KeepsReply(a: U.State, d: Sim, f: Frame, heap: Heap)
    requires Sound(a) && IsUpdate(f.kind)
  {
    Asks(f, a) ==> forall x :: ReplyOk(x, a, d) ==> ReplyOk(x, a, Handle(d, f, heap).0)
  }

  ghost predicate Serves(a: U.State, d: Sim, f: Frame, heap: Heap, rest: seq<Frame>)
    requires Sound(a) && IsUpdate(f.kind)
  {
    Served(a, d, f, heap, rest) && KeepsReply(a, d, f, heap)
  }

  /** A request other than REBOOT finds the device still in its session. */
  lemma NotRebooted(a: U.State, d: Sim, f: Frame, rest: seq<Frame>)
    requires DeviceOk(a, d, [f] + rest) && f.kind != REBOOT && Rank(a.phase) >= 2
    ensures Open(a, d) && (Rank(a.phase) >= 3 ==> AllStored(a, d)) && (Rank(a.phase) >= 5 ==> d.verified)
  {
    assert ([f] + rest)[0] == f;
  }

  lemma QueueShortens(a: U.State, d: Sim, f: Frame, rest: seq<Frame>)
    requires DeviceOk(a, d, [f] + rest)
    ensures DeviceOk(a, d, rest)
  {
    if AllReboot([f] + rest) {
      forall i | 0 <= i < |rest|
        ensures rest[i].kind == REBOOT
      {
        assert ([f] + rest)[i + 1] == rest[i];
      }
    }
  }

  lemma ServesEnter(a: U.State, d: Sim, f: Frame, heap: Heap, rest: seq<Frame>)
    requires Sound(a) && DeviceOk(a, d, [f] + rest) && f.kind == ENTER_BOOTLOADER
    ensures Serves(a, d, f, heap, rest)
  {
    hide U.Build, Checksum;
    QueueShortens(a, d, f, rest);
    if Rank(a.phase) >= 2 {
      NotRebooted(a, d, f, rest);
    }
    AsksKind(a);
  }

  /** Each phase has its own kind of request. */
  lemma AsksKind(a: U.State)
    requires Sound(a)
    ensures Question(a).kind == match a.phase
              case Entering => ENTER_BOOTLOADER
              case Beginning => FW_BEGIN
              case Transferring => FW_DATA
              case Recovering => FW_STATUS
              case Ending => FW_END
              case Verifying => FW_VERIFY
              case Activating => FW_ACTIVATE
              case _ => REBOOT
  {
    hide PutLe32, PutLe16, Checksum;
  }

  lemma ServesBegin(a: U.State, d: Sim, f: Frame, heap: Heap, rest: seq<Frame>)
    requires Sound(a) && DeviceOk(a, d, [f] + rest) && f.kind == FW_BEGIN && RequestOk(f, a)
    ensures Serves(a, d, f, heap, rest)
  {
    hide GetLe32, GetLe16, PutLe32, PutLe16, StringAt;
    QueueShortens(a, d, f, rest);
    BeginFields(a);
    if Rank(a.phase) >= 2 {
      NotRebooted(a, d, f, rest);
    }
  }

  /** A chunk at p either is already in flash or is the next one. */
  lemma ChunkHandled(a: U.State, d: Sim, f: Frame, p: nat)
    requires Sound(a) && Open(a, d) && f.kind == FW_DATA && ChunkOf(f.payload, a, p)
    requires d.offset >= a.offset && d.offset <= |a.image|
    requires d.offset == a.offset || U.ChunkEnd(a, a.offset) <= d.offset
    ensures var end := U.ChunkEnd(a, p);
            var (e, r) := HandleData(d, f);
            && r == Reply(f, PutLe32(e.offset))
            && (if p == d.offset then e == d.(flash := Splice(d.flash, p, a.image[p..end]), offset := end)
                else e == d && end <= d.offset)
  {
    hide GetLe32, PutLe32, PutLe16, Splice, U.DataPayload, Checksum;
    var end := U.ChunkEnd(a, p);
    var data := a.image[p..end];
    DataFields(a.sessionId, p, data);
    assert |data| <= a.chunkSize && p + |data| == end;
    if p < d.offset {
      PrefixSlice(d.flash, a.image, d.offset, p, end);
      assert d.flash[p..p + |data|] == data;
    }
  }

  lemma PrefixSlice(s: seq<byte>, t: seq<byte>, n: nat, i: nat, j: nat)
    requires i <= j <= n <= |s| && n <= |t| && s[..n] == t[..n]
    ensures s[i..j] == t[i..j]
  {
    assert s[i..j] == s[..n][i..j];
    assert t[i..j] == t[..n][i..j];
  }

  lemma StoredGrows(a: U.State, d: Sim, p: nat, end: nat)
    requires Stored(a, d) && p == d.offset && p <= end <= |a.image| <= MAX_IMAGE
    ensures Stored(a, d.(flash := Splice(d.flash, p, a.image[p..end]), offset := end))
  {
    var flash := Splice(d.flash, p, a.image[p..end]);
    forall i | 0 <= i < end
      ensures flash[..end][i] == a.image[..end][i]
    {
      if i < p {
        assert d.flash[..p][i] == a.image[..p][i];
      }
    }
  }

  lemma ServesData(a: U.State, d: Sim, f: Frame, heap: Heap, rest: seq<Frame>)
    requires Sound(a) && DeviceOk(a, d, [f] + rest) && f.kind == FW_DATA && RequestOk(f, a)
    ensures Serves(a, d, f, heap, rest)
  {
    hide GetLe32, PutLe32, PutLe16, Splice, HandleData;
    QueueShortens(a, d, f, rest);
    NotRebooted(a, d, f, rest);
    var p :| ChunkOf(f.payload, a, p);
    ChunkHandled(a, d, f, p);
    if p == d.offset {
      StoredGrows(a, d, p, U.ChunkEnd(a, p));
    }
    if Asks(f, a) {
      CurrentChunk(a, f, p);
    }
  }

  /** The request in flight carries the chunk at the host's own offset. */
  lemma CurrentChunk(a: U.State, f: Frame, p: nat)
    requires Sound(a) && f.kind == FW_DATA && Asks(f, a) && ChunkOf(f.payload, a, p)
    ensures a.phase == U.Transferring && p == a.offset
  {
    hide GetLe32, PutLe32;
    DataFields(a.sessionId, p, a.image[p..U.ChunkEnd(a, p)]);
    DataFields(a.sessionId, a.offset, a.image[a.offset..U.ChunkEnd(a, a.offset)]);
  }

  lemma ServesStatus(a: U.State, d: Sim, f: Frame, heap: Heap, rest: seq<Frame>)
    requires Sound(a) && DeviceOk(a, d, [f] + rest) && f.kind == FW_STATUS && RequestOk(f, a)
    ensures Serves(a, d, f, heap, rest)
  {
    hide GetLe32, PutLe32, PutLe16;
    QueueShortens(a, d, f, rest);
    NotRebooted(a, d, f, rest);
    WordField(a.sessionId);
  }

  lemma ServesEnd(a: U.State, d: Sim, f: Frame, heap: Heap, rest: seq<Frame>)
    requires Sound(a) && DeviceOk(a, d, [f] + rest) && f.kind == FW_END && RequestOk(f, a)
    ensures Serves(a, d, f, heap, rest)
  {
    hide GetLe32, PutLe32, PutLe16;
    QueueShortens(a, d, f, rest);
    NotRebooted(a, d, f, rest);
    WordField(a.sessionId);
  }

  lemma ServesVerify(a: U.State, d: Sim, f: Frame, heap: Heap, rest: seq<Frame>)
    requires Sound(a) && DeviceOk(a, d, [f] + rest) && f.kind == FW_VERIFY && RequestOk(f, a)
    ensures Serves(a, d, f, heap, rest)
  {
    hide GetLe32, PutLe32, PutLe16, Checksum;
    QueueShortens(a, d, f, rest);
    NotRebooted(a, d, f, rest);
    WordField(a.sessionId);
    assert d.flash == d.flash[..d.offset] == a.image;
  }

  lemma ServesActivate(a: U.State, d: Sim, f: Frame, heap: Heap, rest: seq<Frame>)
    requires Sound(a) && DeviceOk(a, d, [f] + rest) && f.kind == FW_ACTIVATE && RequestOk(f, a)
    ensures Serves(a, d, f, heap, rest)
  {
    hide GetLe32, PutLe32, PutLe16;
    QueueShortens(a, d, f, rest);
    NotRebooted(a, d, f, rest);
    WordField(a.sessionId);
  }

  /** REBOOT is only ever followed by REBOOT. */
  lemma ServesReboot(a: U.State, d: Sim, f: Frame, heap: Heap, rest: seq<Frame>)
    requires Sound(a) && DeviceOk(a, d, [f] + rest) && f.kind == REBOOT && RequestOk(f, a) && AllReboot(rest)
    ensures Serves(a, d, f, heap, rest)
  {
    hide GetLe32, PutLe32, PutLe16;
    QueueShortens(a, d, f, rest);
  }

  lemma ServesRequest(a: U.State, d: Sim, f: Frame, heap: Heap, rest: seq<Frame>)
    requires Sound(a) && DeviceOk(a, d, [f] + rest) && RequestOk(f, a)
    requires f.kind == REBOOT ==> AllReboot(rest)
    ensures IsUpdate(f.kind) && Serves(a, d, f, heap, rest)
  {
    hide Serves, DeviceOk, Sound;
    if f.kind == ENTER_BOOTLOADER {
      ServesEnter(a, d, f, heap, rest);
    } else if f.kind == FW_BEGIN {
      ServesBegin(a, d, f, heap, rest);
    } else if f.kind == FW_DATA {
      ServesData(a, d, f, heap, rest);
    } else if f.kind == FW_STATUS {
      ServesStatus(a, d, f, heap, rest);
    } else if f.kind == FW_END {
      ServesEnd(a, d, f, heap, rest);
    } else if f.kind == FW_VERIFY {
      ServesVerify(a, d, f, heap, rest);
    } else if f.kind == FW_ACTIVATE {
      ServesActivate(a, d, f, heap, rest);
    } else {
      ServesReboot(a, d, f, heap, rest);
    }
  }
}
