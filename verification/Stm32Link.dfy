/** The daemon's update driver and the STM32 bootloader joined by a line that may lose any frame:
    the bootloader behaves like the simulator on a line that loses more. */
module Stm32Link {
  import opened Wire
  import opened Crc32
  import opened Driver
  import opened LossyLink
  import opened Resumption
  import opened LinkInvariant
  import opened LinkRuns
  import opened Simulator
  import B = Stm32Update
  import S = Session
  import U = Upgrade

  type Boot = u: B.State | u.nextOffset <= u.imageSize <= |u.flash|
    witness B.State(B.Idle, 1, 0, 0, 0, 0, [], [])

  /** What the flash driver has been told to activate, and what it then held. */
  datatype Activation = Activation(size: nat, crc: u32, version: CString, image: seq<byte>)

  /** The line to the bootloader has the frames from before the update first, then those of the update.
      Of what these do, `activated` records the last activation that succeeded, `restarted` whether the
      device has been told to restart. The rest is as in a link with the simulator. */
  datatype BootLink = BootLink(host: Host, running: bool, asked: U.State, boot: Boot, activated: Option<Activation>,
                               restarted: bool, before: seq<Frame>, toBoot: seq<Frame>, toHost: seq<Frame>)

  datatype BootStep =
    | BootHandles(driver: B.Driver, lost: bool)
    | HostAccepts(now: u64, queued: QueueStatus)
    | HostExpires(now: u64, queued: QueueStatus)
    | LoseToBoot(i: nat)
    | LoseFromBoot(i: nat)

  /** The bootloader handles a request: its next state, its answer, and what it has the flash driver do. */
  ghost function OutcomeOf(u: Boot, f: Frame, driver: B.Driver): (out: B.Outcome)
    ensures B.Valid(out.next)
  {
    B.HandleKeepsValid(u, f, driver);
    B.Handle(u, f, driver)
  }

  ghost function Activated(u: Boot, out: B.Outcome, driver: B.Driver, before: Option<Activation>): Option<Activation> {
    if out.call.Activate? && driver.activates then
      Some(Activation(out.call.imageSize, out.call.imageCrc, out.call.version, u.flash[..u.imageSize]))
    else before
  }

  /** The bootloader handles a frame from before the update. */
  ghost function HandleOld(l: BootLink, driver: B.Driver, lost: bool): BootLink
    requires l.before != []
  {
    var out := OutcomeOf(l.boot, l.before[0], driver);
    l.(boot := out.next, before := l.before[1..], toHost := if lost then l.toHost else l.toHost + [out.reply])
  }

  ghost function HandleStep(l: BootLink, driver: B.Driver, lost: bool): BootLink {
    if l.before != [] then HandleOld(l, driver, lost)
    else if l.toBoot == [] then l
    else
      var out := OutcomeOf(l.boot, l.toBoot[0], driver);
      l.(boot := out.next, activated := Activated(l.boot, out, driver, l.activated),
         restarted := l.restarted || out.call.Restart?, toBoot := l.toBoot[1..],
         toHost := if lost then l.toHost else l.toHost + [out.reply])
  }

  ghost function NextBoot(l: BootLink, step: BootStep): BootLink {
    match step
    case BootHandles(driver, lost) => HandleStep(l, driver, lost)
    case HostAccepts(now, queued) =>
      if !l.running || l.toHost == [] then l
      else
        var t := Receipt(l.host, l.asked, l.toHost[0], now, queued);
        l.(host := t.host, running := t.running, asked := t.asked, toBoot := Sending(l.toBoot, t.sent),
           toHost := l.toHost[1..])
    case HostExpires(now, queued) =>
      if !l.running then l
      else
        var t := Expiry(l.host, l.asked, now, queued);
        l.(host := t.host, running := t.running, asked := t.asked, toBoot := Sending(l.toBoot, t.sent))
    case LoseToBoot(i) =>
      if i < |l.before| then l.(before := Without(l.before, i)) else l.(toBoot := Without(l.toBoot, i - |l.before|))
    case LoseFromBoot(i) => l.(toHost := Without(l.toHost, i))
  }

  ghost function RunBoot(l: BootLink, steps: seq<BootStep>): BootLink
    decreases |steps|
  {
    if steps == [] then l else RunBoot(NextBoot(l, steps[0]), steps[1..])
  }

  // ----- The bootloader seen as the simulator -----

  /** The bootloader's session is one of this update's image, and not one it would begin anew. */
  ghost predicate Own(a: U.State, u: Boot) {
    && u.imageSize == |a.image| && u.imageCrc == a.imageCrc && u.version == a.version
    && (u.stage == B.Receiving || Rank(a.phase) >= 3)
  }

  function Zeros(n: nat): seq<byte> {
    seq(n, _ => 0)
  }

  /** What the update has stored so far; what lies behind it does not count. */
  function Contents(u: Boot): (contents: seq<byte>)
    ensures |contents| == u.imageSize
  {
    u.flash[..u.nextOffset] + Zeros(u.imageSize - u.nextOffset)
  }

  ghost function AsSim(a: U.State, u: Boot, activated: Option<Activation>, restarted: bool): Sim
    requires |a.image| <= MAX_IMAGE
  {
    var version := if activated.Some? then activated.value.version else [];
    if Own(a, u) then
      Device(false, !restarted, !restarted, !restarted && u.stage == B.Verified, Contents(u), u.imageCrc, a.chunkSize,
             u.nextOffset, u.sessionId, version, u.version, false)
    else Device(false, !restarted, false, false, [], 0, 0, 0, u.sessionId, version, [], false)
  }

  /** The answers on the line that are no refusals. */
  function Sift(q: seq<Frame>): seq<Frame> {
    if q == [] then [] else if Negative(q[0]) then Sift(q[1..]) else [q[0]] + Sift(q[1..])
  }

  ghost function Image(l: BootLink): Link
    requires |l.asked.image| <= MAX_IMAGE
  {
    Link(l.host, l.running, l.asked, AsSim(l.asked, l.boot, l.activated, l.restarted), false, l.toBoot, Sift(l.toHost))
  }

  const ZEROED: Heap := Memory(_ => 0)

  /** The bootloader answers as the simulator does, or refuses and stays what it is to the update. */
  ghost predicate Refines(a: U.State, u: Boot, activated: Option<Activation>, restarted: bool, f: Frame,
                          driver: B.Driver)
    requires |a.image| <= MAX_IMAGE && IsUpdate(f.kind)
  {
    var out := OutcomeOf(u, f, driver);
    var d := AsSim(a, u, activated, restarted);
    var e := AsSim(a, out.next, Activated(u, out, driver, activated), restarted || out.call.Restart?);
    if out.reply.kind == NACK then e == d else Handle(d, f, ZEROED) == (e, out.reply)
  }

  /** No FW_BEGIN finds the bootloader past the end of the transfer, where it would erase the image. */
  ghost predicate InOrder(a: U.State, u: Boot, f: Frame) {
    f.kind == FW_BEGIN && Own(a, u) ==> u.stage == B.Receiving
  }

  lemma RefinesEnter(a: U.State, u: Boot, activated: Option<Activation>, f: Frame, driver: B.Driver)
    requires Sound(a) && f.kind == ENTER_BOOTLOADER
    ensures Refines(a, u, activated, false, f, driver)
  {
    hide Checksum, PutLe32, PutLe16;
  }

  ghost predicate IsBegin(f: Frame, a: U.State) {
    f.kind == FW_BEGIN && f.payload == U.BeginPayload(a)
  }

  lemma BootBegins(a: U.State, u: Boot, f: Frame, driver: B.Driver)
    requires Sound(a) && IsBegin(f, a)
    ensures B.Handle(u, f, driver) ==
              if u.stage == B.Receiving && u.imageSize == |a.image| && u.imageCrc == a.imageCrc
                 && u.version == a.version
              then B.Answer(u, f, SessionReport(u.sessionId, u.nextOffset))
              else if !B.EraseWorks(|a.image|, driver) then B.Refuse(u, f, B.STORAGE)
              else
                var id := NextNonzero(u.sessionId);
                var v := B.State(B.Receiving, id, |a.image|, a.imageCrc, 0, a.chunkSize, a.version, driver.blank);
                B.Answer(v, f, SessionReport(id, 0))
  {
    BeginFields(a);
    hide GetLe32, GetLe16, PutLe32, PutLe16, StringAt, Checksum, U.BeginPayload;
  }

  lemma SimBegins(a: U.State, d: Sim, f: Frame)
    requires Sound(a) && IsBegin(f, a) && d.bootloader
    ensures Handle(d, f, ZEROED) ==
              if d.upgrading && SessionLabel(d) == LabelOf(a) then (d, Reply(f, SessionReport(d.sessionId, d.offset)))
              else (OpenSession(d, |a.image|, a.imageCrc, a.chunkSize, a.version, ZEROED),
                    Reply(f, SessionReport(NextNonzero(d.sessionId), 0)))
  {
    BeginFields(a);
    hide GetLe32, GetLe16, PutLe32, PutLe16, StringAt, Checksum, U.BeginPayload, Allocate;
  }

  lemma RefinesBegin(a: U.State, u: Boot, activated: Option<Activation>, f: Frame, driver: B.Driver)
    requires Sound(a) && IsBegin(f, a) && InOrder(a, u, f)
    ensures Refines(a, u, activated, false, f, driver)
  {
    hide Handle, B.Handle, Sound, SessionReport, U.BeginPayload, Contents, Allocate;
    SoundSize(a);
    BootBegins(a, u, f, driver);
    SimBegins(a, AsSim(a, u, activated, false), f);
    var v := OutcomeOf(u, f, driver).next;
    if v != u {
      FreshContents(v);
    }
  }

  lemma FreshContents(u: Boot)
    requires u.nextOffset == 0
    ensures Contents(u) == Allocate(ZEROED, u.imageSize)
  {
  }

  /** A request other than REBOOT, past the beginning of the session, finds the update's own session open. */
  lemma OpenIsOwn(a: U.State, u: Boot, activated: Option<Activation>, restarted: bool, f: Frame, rest: seq<Frame>)
    requires |a.image| <= MAX_IMAGE && DeviceOk(a, AsSim(a, u, activated, restarted), [f] + rest)
    requires f.kind != REBOOT && Rank(a.phase) >= 2
    ensures Own(a, u) && !restarted && u.sessionId == a.sessionId && u.flash[..u.nextOffset] == a.image[..u.nextOffset]
    ensures Open(a, AsSim(a, u, activated, restarted))
    ensures Rank(a.phase) >= 3 ==> u.nextOffset == |a.image| && AsSim(a, u, activated, restarted).flash == a.image
    ensures Rank(a.phase) >= 5 ==> u.stage == B.Verified
  {
    var d := AsSim(a, u, activated, restarted);
    NotRebooted(a, d, f, rest);
    hide DeviceOk;
    assert Contents(u)[..u.nextOffset] == u.flash[..u.nextOffset];
    assert d.flash[..|d.flash|] == d.flash && a.image[..|a.image|] == a.image;
  }

  lemma RefinesStatus(a: U.State, u: Boot, activated: Option<Activation>, f: Frame, driver: B.Driver)
    requires |a.image| <= MAX_IMAGE && Own(a, u) && f.kind == FW_STATUS
    ensures Refines(a, u, activated, false, f, driver)
  {
    hide GetLe32, PutLe32, PutLe16, Checksum, Own;
  }

  lemma RefinesEnd(a: U.State, u: Boot, activated: Option<Activation>, f: Frame, driver: B.Driver)
    requires |a.image| <= MAX_IMAGE && Own(a, u) && f.kind == FW_END && f.payload == PutLe32(u.sessionId)
             && Rank(a.phase) >= 3
    ensures Refines(a, u, activated, false, f, driver)
  {
    WordField(u.sessionId);
    hide GetLe32, PutLe32, PutLe16, Checksum;
  }

  lemma RefinesVerify(a: U.State, u: Boot, activated: Option<Activation>, f: Frame, driver: B.Driver)
    requires |a.image| <= MAX_IMAGE && Own(a, u) && f.kind == FW_VERIFY && f.payload == PutLe32(u.sessionId)
             && Rank(a.phase) >= 3
    requires u.nextOffset == u.imageSize > 0
    ensures Refines(a, u, activated, false, f, driver)
  {
    WordField(u.sessionId);
    assert Contents(u) == u.flash[..u.imageSize];
    hide GetLe32, PutLe32, PutLe16, Checksum, Contents;
  }

  lemma RefinesActivate(a: U.State, u: Boot, activated: Option<Activation>, f: Frame, driver: B.Driver)
    requires |a.image| <= MAX_IMAGE && Own(a, u) && f.kind == FW_ACTIVATE && f.payload == PutLe32(u.sessionId)
    ensures Refines(a, u, activated, false, f, driver)
  {
    WordField(u.sessionId);
    hide GetLe32, PutLe32, PutLe16, Checksum, Contents;
  }

  lemma RefinesReboot(a: U.State, u: Boot, activated: Option<Activation>, restarted: bool, f: Frame, driver: B.Driver)
    requires |a.image| <= MAX_IMAGE && f.kind == REBOOT
    ensures Refines(a, u, activated, restarted, f, driver)
  {
    hide PutLe32, PutLe16, Checksum, Contents, Own;
  }

  lemma ContentsGrow(u: Boot, v: Boot, data: seq<byte>)
    requires u.nextOffset + |data| <= u.imageSize
    requires v == u.(flash := Splice(u.flash, u.nextOffset, data), nextOffset := u.nextOffset + |data|)
    ensures Contents(v) == Splice(Contents(u), u.nextOffset, data)
  {
    SpliceParts(u.flash, u.nextOffset, data);
  }

  lemma ContentsStay(u: Boot, v: Boot, data: seq<byte>)
    requires u.nextOffset + |data| <= |u.flash| && v == u.(flash := Splice(u.flash, u.nextOffset, data))
    ensures Contents(v) == Contents(u)
  {
    SpliceParts(u.flash, u.nextOffset, data);
    assert v.flash[..u.nextOffset] == u.flash[..u.nextOffset];
  }

  /** A chunk of the update is refused, known already, or written at the next offset. */
  lemma BootStores(a: U.State, u: Boot, f: Frame, driver: B.Driver, p: nat)
    requires 0 < a.chunkSize && Own(a, u) && u.sessionId == a.sessionId && f.kind == FW_DATA && ChunkOf(f.payload, a, p)
    ensures var (out, data) := (B.Handle(u, f, driver), a.image[p..U.ChunkEnd(a, p)]);
            && out.call == B.Nothing
            && if out.reply.kind == NACK then
                 out.next == u || (p == u.nextOffset && out.next == u.(flash := B.Written(u.flash, p, data, driver)))
               else
                 && out.reply == Reply(f, PutLe32(out.next.nextOffset)) && |data| <= u.chunkSize
                 && out.next ==
                      if p == u.nextOffset then u.(flash := Splice(u.flash, p, data), nextOffset := p + |data|) else u
  {
    hide GetLe32, PutLe32, PutLe16, U.DataPayload, Splice, B.ReadsBack;
    var data := a.image[p..U.ChunkEnd(a, p)];
    DataFields(a.sessionId, p, data);
  }

  lemma AsSimGrows(a: U.State, u: Boot, v: Boot, activated: Option<Activation>, data: seq<byte>)
    requires |a.image| <= MAX_IMAGE && Own(a, u) && u.nextOffset + |data| <= u.imageSize
    requires v == u.(flash := Splice(u.flash, u.nextOffset, data), nextOffset := u.nextOffset + |data|)
    ensures var d := AsSim(a, u, activated, false);
            AsSim(a, v, activated, false) ==
              d.(flash := Splice(d.flash, u.nextOffset, data), offset := u.nextOffset + |data|)
  {
    hide Splice, Contents;
    ContentsGrow(u, v, data);
  }

  lemma AsSimStays(a: U.State, u: Boot, v: Boot, activated: Option<Activation>, data: seq<byte>)
    requires |a.image| <= MAX_IMAGE && Own(a, u) && u.nextOffset + |data| <= |u.flash|
    requires v == u.(flash := Splice(u.flash, u.nextOffset, data))
    ensures AsSim(a, v, activated, false) == AsSim(a, u, activated, false)
  {
    hide Splice, Contents;
    ContentsStay(u, v, data);
  }

  lemma RefinesData(a: U.State, u: Boot, activated: Option<Activation>, f: Frame, driver: B.Driver, p: nat)
    requires Sound(a) && Own(a, u) && f.kind == FW_DATA && ChunkOf(f.payload, a, p)
    requires |a.image| <= MAX_IMAGE && Open(a, AsSim(a, u, activated, false)) && u.nextOffset >= a.offset
    requires u.nextOffset == a.offset || U.ChunkEnd(a, a.offset) <= u.nextOffset
    ensures Refines(a, u, activated, false, f, driver)
  {
    hide PutLe32, Splice, HandleData, B.Handle, Contents, ChunkOf, AsSim, Own, Checksum;
    OwnFields(a, u, activated, p, f);
    var d, data := AsSim(a, u, activated, false), a.image[p..U.ChunkEnd(a, p)];
    ChunkHandled(a, d, f, p);
    BootStores(a, u, f, driver, p);
    assert Handle(d, f, ZEROED) == HandleData(d, f);
    var v := OutcomeOf(u, f, driver).next;
    if v.nextOffset != u.nextOffset {
      AsSimGrows(a, u, v, activated, data);
    } else if v != u {
      AsSimStays(a, u, v, activated, B.Filled(data, driver));
    }
  }

  lemma OwnFields(a: U.State, u: Boot, activated: Option<Activation>, p: nat, f: Frame)
    requires Sound(a) && Own(a, u) && |a.image| <= MAX_IMAGE && Open(a, AsSim(a, u, activated, false))
             && ChunkOf(f.payload, a, p)
    ensures u.sessionId == a.sessionId && 0 < a.chunkSize
    ensures AsSim(a, u, activated, false).offset == u.nextOffset <= |a.image|
    ensures p < U.ChunkEnd(a, p) <= u.imageSize == |a.image|
  {
    hide Contents;
  }

  /** Every request of the update is handled as the simulator would, or refused. */
  lemma RefinesRequest(a: U.State, u: Boot, activated: Option<Activation>, restarted: bool, f: Frame, rest: seq<Frame>,
                       driver: B.Driver)
    requires Sound(a) && RequestOk(f, a) && InOrder(a, u, f) && (f.kind != REBOOT && Rank(a.phase) < 2 ==> !restarted)
    requires DeviceOk(a, AsSim(a, u, activated, restarted), [f] + rest)
    ensures IsUpdate(f.kind) && Refines(a, u, activated, restarted, f, driver)
  {
    hide DeviceOk, Refines, AsSim, Own, Open, Sound;
    SoundSize(a);
    if f.kind == REBOOT {
      RefinesReboot(a, u, activated, restarted, f, driver);
    } else if Rank(a.phase) >= 2 {
      OpenIsOwn(a, u, activated, restarted, f, rest);
      if f.kind == ENTER_BOOTLOADER {
        RefinesEnter(a, u, activated, f, driver);
      } else if f.kind == FW_BEGIN {
        RefinesBegin(a, u, activated, f, driver);
      } else if f.kind == FW_DATA {
        var p :| ChunkOf(f.payload, a, p);
        OffsetNear(a, u, activated, f, rest);
        RefinesData(a, u, activated, f, driver, p);
      } else if f.kind == FW_STATUS {
        RefinesStatus(a, u, activated, f, driver);
      } else if f.kind == FW_END {
        RefinesEnd(a, u, activated, f, driver);
      } else if f.kind == FW_VERIFY {
        OwnSize(a, u);
        RefinesVerify(a, u, activated, f, driver);
      } else {
        RefinesActivate(a, u, activated, f, driver);
      }
    } else if f.kind == ENTER_BOOTLOADER {
      RefinesEnter(a, u, activated, f, driver);
    } else {
      RefinesBegin(a, u, activated, f, driver);
    }
  }

  lemma SoundSize(a: U.State)
    requires Sound(a)
    ensures 0 < |a.image| <= MAX_IMAGE
  {
  }

  lemma OwnSize(a: U.State, u: Boot)
    requires Own(a, u)
    ensures u.imageSize == |a.image|
  {
  }

  lemma OffsetNear(a: U.State, u: Boot, activated: Option<Activation>, f: Frame, rest: seq<Frame>)
    requires Sound(a) && |a.image| <= MAX_IMAGE && Own(a, u) && Rank(a.phase) >= 2 && f.kind != REBOOT
    requires DeviceOk(a, AsSim(a, u, activated, false), [f] + rest)
    ensures u.nextOffset >= a.offset && (u.nextOffset == a.offset || U.ChunkEnd(a, a.offset) <= u.nextOffset)
  {
    NotRebooted(a, AsSim(a, u, activated, false), f, rest);
    hide Checksum, Contents;
  }

  // ----- What the host sends -----

  /** The host's step adds nothing to the line, or a frame with the last number. */
  ghost predicate Adds(l: Link, m: Link) {
    || m.toDevice == l.toDevice
    || (|m.toDevice| == |l.toDevice| + 1 && m.toDevice[..|l.toDevice|] == l.toDevice
        && Current(m, m.toDevice[|l.toDevice|]))
  }

  ghost predicate Numbered(sent: Option<Frame>, k: nat) {
    sent.Some? ==> k > 0 && sent.value.sequence == S.Numbered(k)
  }

  lemma QueueNumbered(h: Host, now: u64, queued: QueueStatus)
    requires S.Consistent(h.session)
    ensures var (g, _, sent) := QueueRequest(h, now, queued); Numbered(sent, g.session.stats.requests)
  {
    hide U.Build, S.Numbered;
  }

  lemma ReceiptNumbered(h: Host, asked: U.State, f: Frame, now: u64, queued: QueueStatus)
    requires S.Consistent(h.session)
    ensures var t := Receipt(h, asked, f, now, queued); Numbered(t.sent, t.host.session.stats.requests)
  {
    S.ApplyConsistent(h.session, S.Response(f));
    hide QueueRequest, S.Accept, U.Accept, S.Numbered, S.Consistent, FinishUpgrade;
    QueueNumbered(Host(S.Accept(h.session, f).0, U.Accept(h.upgrade, h.session.pending.frame.kind, f).0), now, queued);
  }

  lemma ExpiryNumbered(h: Host, asked: U.State, now: u64, queued: QueueStatus)
    requires S.Consistent(h.session)
    ensures var t := Expiry(h, asked, now, queued); Numbered(t.sent, t.host.session.stats.requests)
  {
    TickEffect(h.session, now, queued);
    var s := S.Tick(h.session, now, queued).0;
    QueueNumbered(Host(s, U.BeginRecovery(h.upgrade).0), now, queued);
    FinishSameRequests(h, s, now, queued);
    hide QueueRequest, S.Tick, S.Numbered, U.BeginRecovery, FinishUpgrade;
  }

  lemma FinishSameRequests(h: Host, s: S.State, now: u64, queued: QueueStatus)
    ensures var (next, _, sent) := QueueRequest(Host(s, U.BeginRecovery(h.upgrade).0), now, queued);
            var (g, out) := OnUpgradeTimeout(Host(s, h.upgrade), now, queued);
            out.Some? ==> out == sent && g.session.stats.requests == next.session.stats.requests
  {
    hide QueueRequest, U.BeginRecovery;
  }

  lemma HostAdds(l: Link, step: Step)
    requires S.Consistent(l.host.session) && (step.HostReceives? || step.HostTicks?)
    ensures Adds(l, Next(l, step))
  {
    hide Receipt, Expiry, S.Numbered;
    match step {
      case HostReceives(now, queued) =>
        if l.toHost != [] {
          ReceiptNumbered(l.host, l.asked, l.toHost[0], now, queued);
        }
      case HostTicks(now, queued) => ExpiryNumbered(l.host, l.asked, now, queued);
      case _ =>
    }
  }

  // ----- Where the host goes -----

  /** The update goes on to another request: never back to the first, never away from the last, and past
      the transfer only with its session open. */
  ghost predicate GoesOn(a: U.State, b: U.State, d: Sim) {
    && SameJob(b, a)
    && (b == a || (&& Rank(a.phase) < 6 && b.phase != U.Entering && Rank(a.phase) <= Rank(b.phase)
                   && (Rank(a.phase) < 3 <= Rank(b.phase) ==> d.upgrading)))
  }

  lemma ReceiptGoesOn(l: Link, base: nat, lib: Library, now: u64, queued: QueueStatus)
    requires Inv(l, base, lib) && (l.toHost != [] ==> !Negative(l.toHost[0]))
    ensures GoesOn(l.asked, Next(l, HostReceives(now, queued)).asked, l.device)
  {
    hide Inv, ReceiveStep, Refusal, Negative, Sound, DeviceOk, U.Build, Advanced, ReplyOk, S.Numbered;
    InvJob(l, base, lib);
    NextKeepsJob(l, HostReceives(now, queued));
    if l.toHost == [] || !l.running {
      NothingTaken(l, now, queued);
    } else if U.Active(l.host.upgrade) && Current(l, l.toHost[0]) {
      CurrentReply(l, base, lib, 0);
      AnswerKeeps(l, base, lib, now, queued);
      AnswerGoesTo(l, base, lib, now, queued);
      if l.asked.phase == U.Restarting {
        LastAsked(l, ReceiveStep(l, now, queued), base, lib);
      } else {
        AdvanceGoesOn(l, base, lib);
      }
    } else {
      StaleReplyKeeps(l, base, lib, now, queued);
    }
  }

  lemma NothingTaken(l: Link, now: u64, queued: QueueStatus)
    requires l.toHost == [] || !l.running
    ensures ReceiveStep(l, now, queued) == l
  {
  }

  lemma InvJob(l: Link, base: nat, lib: Library)
    requires Inv(l, base, lib)
    ensures SameJob(l.host.upgrade, l.asked)
  {
    hide DeviceOk, RequestsOk, RepliesOk, Budgeted, Resumes, S.Consistent;
  }

  lemma LastAsked(l: Link, m: Link, base: nat, lib: Library)
    requires Inv(l, base, lib) && Inv(m, base, lib) && l.asked.phase == U.Restarting
    requires m.host.upgrade == Advanced(l.asked, l.device)
    ensures m.asked == l.asked
  {
    hide DeviceOk, RequestsOk, RepliesOk, Budgeted, Resumes, S.Consistent;
  }

  lemma AdvanceGoesOn(l: Link, base: nat, lib: Library)
    requires Inv(l, base, lib) && Sound(l.asked) && l.toHost != [] && ReplyOk(l.toHost[0], l.asked, l.device)
    requires l.asked.phase != U.Restarting
    ensures var b := U.Build(Advanced(l.asked, l.device)).0;
            && Rank(l.asked.phase) < 6 && b.phase != U.Entering && Rank(l.asked.phase) <= Rank(b.phase)
            && (Rank(l.asked.phase) < 3 <= Rank(b.phase) ==> l.device.upgrading)
  {
    BuildKeepsPhase(Advanced(l.asked, l.device));
    hide U.Build, RequestsOk, RepliesOk, Budgeted, Resumes, S.Consistent, HostOk, Question;
  }

  lemma ExpiryGoesOn(l: Link, base: nat, lib: Library, now: u64, queued: QueueStatus)
    requires Inv(l, base, lib)
    ensures GoesOn(l.asked, Next(l, HostTicks(now, queued)).asked, l.device)
  {
    hide Inv, S.Tick, OnUpgradeTimeout, S.Consistent, Sound, U.BeginRecovery;
    InvJob(l, base, lib);
    NextKeepsJob(l, HostTicks(now, queued));
    HostWaits(l, base, lib);
    InvIsSound(l, base, lib);
    RecoveryGoesOn(l.asked);
    var s := S.Tick(l.host.session, now, queued).0;
    NoRecoveryNoRequest(l.host.(session := s), now, queued);
  }

  lemma RecoveryGoesOn(a: U.State)
    ensures U.BeginRecovery(a).1 == Ok ==>
              U.BeginRecovery(a).0.phase == U.Recovering && (a.phase == U.Transferring || a.phase == U.Recovering)
  {
  }

  lemma NoRecoveryNoRequest(h: Host, now: u64, queued: QueueStatus)
    ensures U.BeginRecovery(h.upgrade).1 != Ok ==>
              OnUpgradeTimeout(h, now, queued).0.session.stats.requests == h.session.stats.requests
  {
    hide QueueRequest, U.BeginRecovery;
  }

  // ----- The invariant -----

  ghost predicate NoBegin(q: seq<Frame>) {
    forall i :: 0 <= i < |q| ==> q[i].kind != FW_BEGIN
  }

  /** No FW_BEGIN follows a FW_END. */
  ghost predicate EndsLast(q: seq<Frame>) {
    forall i, j :: 0 <= i < j < |q| && q[i].kind == FW_END ==> q[j].kind != FW_BEGIN
  }

  /** The transfer of the image is over on the bootloader's side. */
  ghost predicate Past(a: U.State, u: Boot) {
    Own(a, u) && u.stage != B.Receiving
  }

  ghost predicate QueueOk(q: seq<Frame>, a: U.State, u: Boot) {
    && (a.phase == U.Entering ==> forall i :: 0 <= i < |q| ==> q[i].kind == ENTER_BOOTLOADER)
    && EndsLast(q) && (Past(a, u) ==> NoBegin(q))
  }

  /** Whatever has been activated is the image of the update, under its name. */
  ghost predicate RecordOk(activated: Option<Activation>, a: U.State) {
    activated.Some? ==> activated.value == Activation(|a.image|, a.imageCrc, a.version, a.image)
  }

  /** If the bootloader would resume its session for the update, it holds the beginning of the image. */
  ghost predicate BootShelved(a: U.State, u: Boot) {
    Own(a, u) ==> u.sessionId != 0 && u.flash[..u.nextOffset] == a.image[..u.nextOffset]
  }

  /** So it does whichever of the frames it gets to handle, and however the flash fails. */
  ghost predicate BootCalm(a: U.State, u: Boot, q: seq<Frame>)
    decreases |q|
  {
    && BootShelved(a, u)
    && (q != [] ==> BootCalm(a, u, q[1..]) && forall driver :: BootCalm(a, OutcomeOf(u, q[0], driver).next, q[1..]))
  }

  /** Frames from before are left only while the first request has not been handled. */
  ghost predicate OldOk(l: BootLink, base: nat) {
    l.before != [] ==>
      && l.asked.phase == U.Entering && AllForeign(l.before, base) && AllForeign(l.toHost, base)
      && BootCalm(l.asked, l.boot, l.before)
  }

  ghost predicate BootInv(l: BootLink, base: nat, lib: Library) {
    && |l.asked.image| <= MAX_IMAGE && Inv(Image(l), base, lib)
    && QueueOk(l.toBoot, l.asked, l.boot) && RecordOk(l.activated, l.asked)
    && (l.restarted ==> Rank(l.asked.phase) >= 6) && OldOk(l, base)
  }

  lemma {:induction false} BootCalmWithout(a: U.State, u: Boot, q: seq<Frame>, i: nat)
    requires BootCalm(a, u, q)
    ensures BootCalm(a, u, Without(q, i))
    decreases |q|
  {
    hide BootShelved, OutcomeOf;
    if 0 < i < |q| {
      var r := Without(q, i);
      assert r[1..] == Without(q[1..], i - 1);
      BootCalmWithout(a, u, q[1..], i - 1);
      forall driver
        ensures BootCalm(a, OutcomeOf(u, r[0], driver).next, r[1..])
      {
        BootCalmWithout(a, OutcomeOf(u, q[0], driver).next, q[1..], i - 1);
      }
    } else if i == 0 && q != [] {
      assert Without(q, 0) == q[1..];
    }
  }

  // ----- Frames from before the update -----

  /** The bootloader would store bytes at its offset that the image does not have there. */
  ghost predicate BootSpoils(a: U.State, u: Boot, f: Frame, driver: B.Driver) {
    && f.kind == FW_DATA && Own(a, u) && u.stage == B.Receiving && |f.payload| > 8 && GetLe32(f.payload) == u.sessionId
    && var (offset, data) := (GetLe32(f.payload[4..]), f.payload[8..]);
       && offset == u.nextOffset && |data| <= u.chunkSize && offset + |data| <= u.imageSize && driver.writes
       && a.image[offset..offset + |data|] != data
  }

  /** Handling a request leaves a session that would be resumed with the beginning of the image exactly
      unless it is such a chunk. */
  lemma BootStaysResumable(a: U.State, u: Boot, f: Frame, driver: B.Driver)
    requires a.phase == U.Entering && BootShelved(a, u)
    ensures BootShelved(a, OutcomeOf(u, f, driver).next) <==> !BootSpoils(a, u, f, driver)
  {
    hide GetLe32, GetLe16, PutLe32, PutLe16, StringAt, Checksum, B.HandleData;
    if f.kind == FW_DATA {
      BootDataResumable(a, u, f, driver);
    }
  }

  lemma BootDataResumable(a: U.State, u: Boot, f: Frame, driver: B.Driver)
    requires a.phase == U.Entering && BootShelved(a, u) && f.kind == FW_DATA
    ensures B.Valid(B.HandleData(u, f, driver).next)
    ensures BootShelved(a, B.HandleData(u, f, driver).next) <==> !BootSpoils(a, u, f, driver)
  {
    hide GetLe32, PutLe32, PutLe16, Splice, B.ReadsBack;
    B.HandleKeepsValid(u, f, driver);
    var v := B.HandleData(u, f, driver).next;
    if v != u {
      var data := f.payload[8..];
      SpliceParts(u.flash, u.nextOffset, B.Filled(data, driver));
      if Own(a, u) {
        PrefixGrows(u.flash[..u.nextOffset], data, a.image);
      }
    }
  }

  /** Chunks that the image has where they belong, and any other requests, are such frames. */
  ghost predicate Honest(q: seq<Frame>, image: seq<byte>) {
    forall i :: 0 <= i < |q| && q[i].kind == FW_DATA && |q[i].payload| > 8 ==> Agrees(q[i].payload, image)
  }

  lemma {:induction false} HonestIsCalm(a: U.State, u: Boot, q: seq<Frame>)
    requires a.phase == U.Entering && BootShelved(a, u) && Honest(q, a.image)
    ensures BootCalm(a, u, q)
    decreases |q|
  {
    hide BootShelved, OutcomeOf, Agrees, BootSpoils;
    if q != [] {
      assert Honest(q[1..], a.image);
      HonestIsCalm(a, u, q[1..]);
      forall driver
        ensures BootCalm(a, OutcomeOf(u, q[0], driver).next, q[1..])
      {
        HonestNeverSpoils(a, u, q[0], driver);
        BootStaysResumable(a, u, q[0], driver);
        HonestIsCalm(a, OutcomeOf(u, q[0], driver).next, q[1..]);
      }
    }
  }

  lemma HonestNeverSpoils(a: U.State, u: Boot, f: Frame, driver: B.Driver)
    requires f.kind == FW_DATA && |f.payload| > 8 ==> Agrees(f.payload, a.image)
    ensures !BootSpoils(a, u, f, driver)
  {
    hide GetLe32;
  }

  lemma {:induction false} EnteringIsCalm(d: Sim, q: seq<Frame>, lib: Library)
    requires Shelved(d, lib) && forall i :: 0 <= i < |q| ==> q[i].kind == ENTER_BOOTLOADER
    ensures Calm(d, q, lib)
    decreases |q|
  {
    hide Shelved;
    if q != [] {
      var n := |q| - 1;
      EnteringIsCalm(d, q[..n], lib);
      CalmAppend(d, q[..n], q[n], lib);
      assert q == q[..n] + [q[n]];
    }
  }

  /** While an update enters, any device will do whose session can be resumed. */
  lemma EnteringDevice(n: Link, d: Sim, base: nat, lib: Library)
    requires Inv(n, base, lib) && n.asked.phase == U.Entering && n.host.upgrade.phase != U.Complete
    requires forall i :: 0 <= i < |n.toDevice| ==> n.toDevice[i].kind == ENTER_BOOTLOADER
    requires d.bootloader && Shelved(d, lib)
    ensures Inv(n.(device := d), base, lib)
  {
    EnteringIsCalm(d, n.toDevice, lib);
    hide Sound, RequestsOk, Budgeted, HostOk, S.Consistent, Calm, Question, S.Numbered, Recent, Foreign, AllCurrent;
  }

  lemma ForeignReplyKeeps(n: Link, r: Frame, base: nat, lib: Library)
    requires Inv(n, base, lib) && Foreign(r.sequence, base)
    ensures Inv(n.(toHost := n.toHost + [r]), base, lib)
  {
    var k := n.host.session.stats.requests;
    NumbersDoNotRepeat(n.asked, k - base);
    assert r.sequence != S.Numbered(k);
    hide Sound, DeviceOk, HostOk, RepliesOk, RequestsOk, Budgeted, S.Consistent, Resumes;
    NewReply(n.toHost, n.toDevice, n.asked, n.device, n.starved, base, k, r);
  }

  lemma ShelvedAsSim(a: U.State, u: Boot, activated: Option<Activation>, lib: Library)
    requires |a.image| <= MAX_IMAGE && Listed(lib, a) && BootShelved(a, u)
    ensures Shelved(AsSim(a, u, activated, false), lib)
  {
    assert Contents(u)[..u.nextOffset] == u.flash[..u.nextOffset];
  }

  lemma EnteringListed(n: Link, base: nat, lib: Library)
    requires Inv(n, base, lib) && n.asked.phase == U.Entering
    ensures Listed(lib, n.asked) && n.host.upgrade.phase != U.Complete
  {
    hide Sound, DeviceOk, RepliesOk, RequestsOk, Budgeted, S.Consistent, Calm, Question;
  }

  lemma OldHandled(l: BootLink, base: nat, lib: Library, driver: B.Driver, lost: bool)
    requires BootInv(l, base, lib) && l.before != []
    ensures BootInv(HandleOld(l, driver, lost), base, lib)
  {
    hide Inv, AsSim, RecordOk, OutcomeOf, BootShelved, Listed, Shelved, Foreign;
    var m, n, out := HandleOld(l, driver, lost), Image(l), OutcomeOf(l.boot, l.before[0], driver);
    EnteringListed(n, base, lib);
    CalmIsBootShelved(l.asked, out.next, l.before[1..]);
    ShelvedAsSim(l.asked, out.next, l.activated, lib);
    OutOfReach(l.asked, out.next, l.activated);
    var o := n.(device := AsSim(l.asked, out.next, l.activated, false));
    EnteringDevice(n, o.device, base, lib);
    OldNumber(l.boot, l.before[0], driver);
    ForeignReplyKeeps(o, out.reply, base, lib);
    SiftAppend(l.toHost, out.reply);
    assert Sift(l.toHost) + [] == Sift(l.toHost);
    assert Image(m) == o || Image(m) == o.(toHost := o.toHost + [out.reply]);
  }

  lemma CalmIsBootShelved(a: U.State, u: Boot, q: seq<Frame>)
    requires BootCalm(a, u, q)
    ensures BootShelved(a, u)
  {
  }

  lemma OutOfReach(a: U.State, u: Boot, activated: Option<Activation>)
    requires |a.image| <= MAX_IMAGE
    ensures AsSim(a, u, activated, false).bootloader && (a.phase == U.Entering ==> !Past(a, u))
  {
  }

  lemma OldNumber(u: Boot, f: Frame, driver: B.Driver)
    ensures OutcomeOf(u, f, driver).reply.sequence == f.sequence
  {
    hide GetLe32, GetLe16, PutLe32, PutLe16, StringAt, Checksum;
  }

  /** Past the first request nothing from before is left. */
  lemma NoneLeft(l: BootLink, base: nat, lib: Library)
    requires BootInv(l, base, lib) && l.asked.phase != U.Entering
    ensures l.before == []
  {
    hide Inv, AsSim, BootCalm;
  }

  lemma SiftAppend(q: seq<Frame>, f: Frame)
    ensures Sift(q + [f]) == Sift(q) + if Negative(f) then [] else [f]
  {
    if q == [] {
      assert q + [f] == [f];
    } else {
      assert (q + [f])[1..] == q[1..] + [f];
      SiftAppend(q[1..], f);
    }
  }

  /** Losing an answer loses it from the answers that count, or changes nothing there. */
  lemma {:induction false} SiftWithout(q: seq<Frame>, i: nat) returns (j: nat)
    requires i < |q|
    ensures Sift(Without(q, i)) == Without(Sift(q), j)
    decreases |q|
  {
    hide Negative;
    if i == 0 {
      assert Without(q, 0) == q[1..];
      j := if Negative(q[0]) then |Sift(q)| else 0;
    } else {
      assert Without(q, i) == [q[0]] + Without(q[1..], i - 1);
      assert Without(q, i)[1..] == Without(q[1..], i - 1);
      var k := SiftWithout(q[1..], i - 1);
      j := if Negative(q[0]) then k else k + 1;
    }
  }

  // ----- The bootloader moves -----

  lemma HeadIsOurs(l: BootLink, base: nat, lib: Library)
    requires BootInv(l, base, lib) && l.toBoot != []
    ensures Sound(l.asked) && RequestOk(l.toBoot[0], l.asked) && InOrder(l.asked, l.boot, l.toBoot[0])
    ensures DeviceOk(l.asked, Image(l).device, [l.toBoot[0]] + l.toBoot[1..])
  {
    assert [l.toBoot[0]] + l.toBoot[1..] == l.toBoot;
    hide Sound, DeviceOk, RepliesOk, Budgeted, S.Consistent, Resumes, HostOk, AsSim, Own, S.Numbered;
  }

  lemma AnswerShape(u: Boot, f: Frame, driver: B.Driver)
    requires IsUpdate(f.kind)
    ensures Negative(B.Handle(u, f, driver).reply) <==> B.Handle(u, f, driver).reply.kind == NACK
  {
    hide GetLe32, GetLe16, PutLe32, PutLe16, StringAt, Checksum;
  }

  /** The line to the simulator moves as the line to the bootloader does, or loses the request. */
  lemma HandleRefines(l: BootLink, base: nat, lib: Library, driver: B.Driver, lost: bool)
    requires BootInv(l, base, lib) && l.before == [] && l.toBoot != []
    ensures var m := HandleStep(l, driver, lost);
            Inv(Image(m), base, lib) && m.asked == l.asked && m.host == l.host
  {
    hide Inv, DeviceOk, AsSim, QueueOk, RecordOk, OutcomeOf, Handle, Sound, Refines, InOrder, RequestOk, NeedsMemory;
    var f, rest, u := l.toBoot[0], l.toBoot[1..], l.boot;
    HeadIsOurs(l, base, lib);
    RefinesRequest(l.asked, u, l.activated, l.restarted, f, rest, driver);
    AnswerShape(u, f, driver);
    var step := if OutcomeOf(u, f, driver).reply.kind == NACK then LoseToDevice(0)
                else DeviceHandles(DeviceEnv(ZEROED, false, f), lost);
    NextKeeps(Image(l), step, base, lib);
    OutcomeSame(u, f, driver);
    RefinedStep(l, driver, lost);
  }

  lemma OutcomeSame(u: Boot, f: Frame, driver: B.Driver)
    ensures OutcomeOf(u, f, driver) == B.Handle(u, f, driver)
  {
  }

  lemma RefinedStep(l: BootLink, driver: B.Driver, lost: bool)
    requires l.before == [] && l.toBoot != [] && IsUpdate(l.toBoot[0].kind) && |l.asked.image| <= MAX_IMAGE
    requires Refines(l.asked, l.boot, l.activated, l.restarted, l.toBoot[0], driver)
    requires Negative(OutcomeOf(l.boot, l.toBoot[0], driver).reply) <==>
               OutcomeOf(l.boot, l.toBoot[0], driver).reply.kind == NACK
    ensures Image(HandleStep(l, driver, lost)) ==
              Next(Image(l), if OutcomeOf(l.boot, l.toBoot[0], driver).reply.kind == NACK then LoseToDevice(0)
                             else DeviceHandles(DeviceEnv(ZEROED, false, l.toBoot[0]), lost))
  {
    hide AsSim, OutcomeOf, Handle, NeedsMemory;
    SiftAppend(l.toHost, OutcomeOf(l.boot, l.toBoot[0], driver).reply);
    assert Without(l.toBoot, 0) == l.toBoot[1..];
  }

  /** What a request does to the stage, the activation and the restart. */
  lemma HandleStage(u: Boot, f: Frame, driver: B.Driver)
    ensures var out := B.Handle(u, f, driver);
            && (out.next.stage == u.stage || f.kind == FW_BEGIN || f.kind == FW_END || f.kind == FW_VERIFY)
            && (f.kind == FW_VERIFY && out.next.stage != u.stage ==> u.stage == B.Transferred)
            && (f.kind == FW_BEGIN ==> out.next == u || out.next.stage == B.Receiving)
            && (f.kind != FW_BEGIN ==>
                out.next.imageSize == u.imageSize && out.next.imageCrc == u.imageCrc && out.next.version == u.version)
            && (out.call.Restart? ==> f.kind == REBOOT)
            && (out.call.Activate? ==>
                f.kind == FW_ACTIVATE && out.call == B.Activate(u.imageSize, u.imageCrc, u.version))
  {
    hide GetLe32, GetLe16, PutLe32, PutLe16, StringAt, Checksum;
  }

  lemma HandleKeepsQueue(l: BootLink, base: nat, lib: Library, driver: B.Driver)
    requires BootInv(l, base, lib) && l.toBoot != []
    ensures QueueOk(l.toBoot[1..], l.asked, OutcomeOf(l.boot, l.toBoot[0], driver).next)
  {
    hide B.Handle, Inv, AsSim, RecordOk, QueueOk;
    HandleStage(l.boot, l.toBoot[0], driver);
    QueueShifts(l.toBoot, l.asked, l.boot, OutcomeOf(l.boot, l.toBoot[0], driver).next);
  }

  lemma QueueShifts(q: seq<Frame>, a: U.State, u: Boot, v: Boot)
    requires q != [] && QueueOk(q, a, u) && (Past(a, v) ==> Past(a, u) || q[0].kind == FW_END)
    ensures QueueOk(q[1..], a, v)
  {
    hide Past;
  }

  lemma HandleKeepsRecord(l: BootLink, base: nat, lib: Library, driver: B.Driver)
    requires BootInv(l, base, lib) && l.toBoot != []
    ensures var out := OutcomeOf(l.boot, l.toBoot[0], driver);
            && RecordOk(Activated(l.boot, out, driver, l.activated), l.asked)
            && (out.call.Restart? ==> Rank(l.asked.phase) >= 6)
  {
    hide B.Handle, Inv, AsSim, DeviceOk, Sound;
    var u, f := l.boot, l.toBoot[0];
    HandleStage(u, f, driver);
    HeadIsOurs(l, base, lib);
    if f.kind == FW_ACTIVATE {
      OpenIsOwn(l.asked, u, l.activated, l.restarted, f, l.toBoot[1..]);
      assert l.asked.image[..|l.asked.image|] == l.asked.image;
    }
  }

  lemma HandleKeeps(l: BootLink, base: nat, lib: Library, driver: B.Driver, lost: bool)
    requires BootInv(l, base, lib)
    ensures BootInv(HandleStep(l, driver, lost), base, lib)
  {
    hide Inv, AsSim, QueueOk, RecordOk, B.Handle, Activated, BootCalm;
    if l.before != [] {
      OldHandled(l, base, lib, driver, lost);
    } else if l.toBoot != [] {
      HandleRefines(l, base, lib, driver, lost);
      HandleKeepsQueue(l, base, lib, driver);
      HandleKeepsRecord(l, base, lib, driver);
    }
  }

  // ----- The host moves -----

  lemma AsSimKept(a: U.State, b: U.State, u: Boot, activated: Option<Activation>, restarted: bool)
    requires |a.image| <= MAX_IMAGE && GoesOn(a, b, AsSim(a, u, activated, restarted))
    ensures |b.image| <= MAX_IMAGE && AsSim(b, u, activated, restarted) == AsSim(a, u, activated, restarted)
    ensures Past(b, u) <==> Past(a, u)
  {
    hide Contents;
  }

  /** The frame that the host adds is the question of its phase. */
  lemma AddedKind(n: Link, base: nat, lib: Library, i: nat)
    requires Inv(n, base, lib) && i < |n.toDevice| && Current(n, n.toDevice[i])
    ensures (n.toDevice[i].kind == FW_BEGIN <==> n.asked.phase == U.Beginning)
    ensures (n.asked.phase == U.Entering ==> n.toDevice[i].kind == ENTER_BOOTLOADER)
  {
    InvIsSound(n, base, lib);
    AsksKind(n.asked);
    hide Sound, DeviceOk, RepliesOk, Budgeted, S.Consistent, Resumes, HostOk, S.Numbered, Expected, Question;
  }

  lemma NoEndYet(n: Link, base: nat, lib: Library, i: nat)
    requires Inv(n, base, lib) && i < |n.toDevice| && n.asked.phase == U.Beginning
    ensures n.toDevice[i].kind != FW_END
  {
    hide Sound, DeviceOk, RepliesOk, Budgeted, S.Consistent, Resumes, HostOk, S.Numbered, Recent;
  }

  lemma QueueKept(l: Link, n: Link, base: nat, lib: Library, u: Boot)
    requires QueueOk(l.toDevice, l.asked, u) && Inv(n, base, lib) && Adds(l, n)
    requires n.asked == l.asked || n.asked.phase != U.Entering
    requires Past(n.asked, u) ==> Past(l.asked, u) && Rank(n.asked.phase) >= 3
    ensures QueueOk(n.toDevice, n.asked, u)
  {
    hide Inv, Past, Current;
    if n.toDevice != l.toDevice {
      var k := |l.toDevice|;
      AddedKind(n, base, lib, k);
      assert forall i :: 0 <= i < k ==> n.toDevice[i] == l.toDevice[i];
      if n.toDevice[k].kind == FW_BEGIN {
        forall i | 0 <= i < k
          ensures n.toDevice[i].kind != FW_END
        {
          NoEndYet(n, base, lib, i);
        }
      }
    }
  }

  lemma PastIsLate(a: U.State, u: Boot)
    requires Past(a, u)
    ensures Rank(a.phase) >= 3
  {
  }

  /** A step of the host that the line to the simulator makes as well. */
  lemma SharedStepKeeps(l: BootLink, m: BootLink, base: nat, lib: Library, step: Step)
    requires BootInv(l, base, lib) && (step.HostReceives? || step.HostTicks?)
    requires m == l.(host := m.host, running := m.running, asked := m.asked, toBoot := m.toBoot, toHost := m.toHost)
    requires var n := Next(Image(l), step);
             && m.host == n.host && m.running == n.running && m.asked == n.asked && m.toBoot == n.toDevice
             && Sift(m.toHost) == n.toHost && n.device == Image(l).device && !n.starved
             && GoesOn(l.asked, n.asked, n.device) && (l.before != [] ==> n.asked == l.asked)
    requires m.toHost == l.toHost || (l.toHost != [] && m.toHost == l.toHost[1..])
    ensures BootInv(m, base, lib) && SameJob(m.asked, l.asked)
  {
    hide Inv, Next, AsSim, QueueOk, Past, Sift, BootCalm, Foreign;
    var n := Next(Image(l), step);
    NextKeeps(Image(l), step, base, lib);
    HostWaits(Image(l), base, lib);
    HostAdds(Image(l), step);
    AsSimKept(l.asked, m.asked, l.boot, l.activated, l.restarted);
    if Past(m.asked, l.boot) {
      PastIsLate(m.asked, l.boot);
    }
    QueueKept(Image(l), n, base, lib, l.boot);
  }

  lemma ExpiryKeeps(l: BootLink, base: nat, lib: Library, now: u64, queued: QueueStatus)
    requires BootInv(l, base, lib)
    ensures var m := NextBoot(l, HostExpires(now, queued)); BootInv(m, base, lib) && SameJob(m.asked, l.asked)
  {
    hide Inv, Expiry, AsSim, QueueOk, RecordOk, Sift, GoesOn, BootCalm, Foreign;
    ExpiryGoesOn(Image(l), base, lib, now, queued);
    HostWaits(Image(l), base, lib);
    EnteringExpires(l.host, l.asked, now, queued);
    SharedStepKeeps(l, NextBoot(l, HostExpires(now, queued)), base, lib, HostTicks(now, queued));
  }

  lemma EnteringExpires(h: Host, a: U.State, now: u64, queued: QueueStatus)
    requires U.Active(h.upgrade) ==> h.upgrade == a
    ensures a.phase == U.Entering ==> Expiry(h, a, now, queued).asked == a
  {
    hide OnUpgradeTimeout, U.BeginRecovery;
    var s := S.Tick(h.session, now, queued).0;
    RecoveryGoesOn(h.upgrade);
    NoRecoveryNoRequest(h.(session := s), now, queued);
  }

  /** A frame that carries no number of the update leaves it as it is. */
  lemma ForeignPasses(n: Link, base: nat, lib: Library, now: u64, queued: QueueStatus)
    requires Inv(n, base, lib) && n.toHost != [] && Foreign(n.toHost[0].sequence, base)
    ensures Next(n, HostReceives(now, queued)).asked == n.asked
  {
    var k := n.host.session.stats.requests;
    NumbersDoNotRepeat(n.asked, k - base);
    assert !Current(n, n.toHost[0]);
    hide Inv, ReceiveStep, S.Numbered;
    StaleReplyKeeps(n, base, lib, now, queued);
  }

  lemma AcceptanceKeeps(l: BootLink, base: nat, lib: Library, now: u64, queued: QueueStatus)
    requires BootInv(l, base, lib) && l.toHost != [] && !Negative(l.toHost[0])
    ensures var m := NextBoot(l, HostAccepts(now, queued)); BootInv(m, base, lib) && SameJob(m.asked, l.asked)
  {
    hide Inv, Receipt, AsSim, QueueOk, RecordOk, GoesOn, Negative, BootCalm, Foreign;
    assert Sift(l.toHost) == [l.toHost[0]] + Sift(l.toHost[1..]);
    ReceiptGoesOn(Image(l), base, lib, now, queued);
    if l.before != [] {
      ForeignPasses(Image(l), base, lib, now, queued);
    }
    SharedStepKeeps(l, NextBoot(l, HostAccepts(now, queued)), base, lib, HostReceives(now, queued));
  }

  /** A refusal of the last request ends the update; any other is passed over. */
  lemma RefusalReceipt(h: Host, a: U.State, f: Frame, now: u64, queued: QueueStatus)
    requires Negative(f) && S.Consistent(h.session)
             && (U.Active(h.upgrade) ==> h.upgrade == a && h.session.pending.active)
    requires !U.Active(h.upgrade) ==> !h.session.pending.active
    ensures var t := Receipt(h, a, f, now, queued);
            var s := S.Accept(h.session, f).0;
            && t.running && t.asked == a && t.sent.None? && S.Consistent(s)
            && s.stats.requests == h.session.stats.requests
            && if U.Active(h.upgrade) && f.sequence == h.session.pending.frame.sequence
               then !s.pending.active && t.host == FinishUpgrade(Host(s, a.(phase := U.Errored)))
               else s.pending == h.session.pending && t.host == h.(session := s)
  {
    hide S.Numbered, QueueRequest;
  }

  lemma RefusalKeepsBoot(l: BootLink, base: nat, lib: Library, now: u64, queued: QueueStatus)
    requires BootInv(l, base, lib) && l.running && l.toHost != [] && Negative(l.toHost[0])
    ensures var m := NextBoot(l, HostAccepts(now, queued)); BootInv(m, base, lib) && SameJob(m.asked, l.asked)
  {
    hide Inv, Receipt, AsSim, QueueOk, RecordOk, FinishUpgrade, S.Consistent, S.Accept, BootCalm, Foreign;
    var n, f := Image(l), l.toHost[0];
    assert Sift(l.toHost) == Sift(l.toHost[1..]);
    HostWaits(n, base, lib);
    RefusalReceipt(l.host, l.asked, f, now, queued);
    var s := S.Accept(l.host.session, f).0;
    if U.Active(l.host.upgrade) && f.sequence == l.host.session.pending.frame.sequence {
      FailureKeeps(n, base, lib, s);
    } else {
      SessionMayTurn(n, base, lib, s);
    }
  }

  // ----- Every run -----

  lemma LossToBootKeeps(l: BootLink, base: nat, lib: Library, i: nat)
    requires BootInv(l, base, lib)
    ensures BootInv(NextBoot(l, LoseToBoot(i)), base, lib)
  {
    hide Inv, AsSim, RecordOk, Past, Sift, BootCalm, Foreign;
    if i < |l.before| {
      BootCalmWithout(l.asked, l.boot, l.before, i);
    } else {
      NextKeeps(Image(l), LoseToDevice(i - |l.before|), base, lib);
    }
  }

  lemma LossFromBootKeeps(l: BootLink, base: nat, lib: Library, i: nat)
    requires BootInv(l, base, lib)
    ensures BootInv(NextBoot(l, LoseFromBoot(i)), base, lib)
  {
    hide Inv, AsSim, RecordOk, QueueOk, Sift, BootCalm, Foreign;
    if i < |l.toHost| {
      var j := SiftWithout(l.toHost, i);
      NextKeeps(Image(l), LoseToHost(j), base, lib);
    }
  }

  /** Every step keeps the bootloader a simulator on a line that loses more. */
  lemma NextBootKeeps(l: BootLink, base: nat, lib: Library, step: BootStep)
    requires BootInv(l, base, lib)
    ensures BootInv(NextBoot(l, step), base, lib) && SameJob(NextBoot(l, step).asked, l.asked)
  {
    hide BootInv, Receipt, Expiry, OutcomeOf, Negative;
    match step {
      case BootHandles(driver, lost) => HandleKeeps(l, base, lib, driver, lost);
      case HostAccepts(now, queued) =>
        if l.running && l.toHost != [] {
          if Negative(l.toHost[0]) {
            RefusalKeepsBoot(l, base, lib, now, queued);
          } else {
            AcceptanceKeeps(l, base, lib, now, queued);
          }
        }
      case HostExpires(now, queued) => ExpiryKeeps(l, base, lib, now, queued);
      case LoseToBoot(i) => LossToBootKeeps(l, base, lib, i);
      case LoseFromBoot(i) => LossFromBootKeeps(l, base, lib, i);
    }
  }

  lemma {:induction false} RunBootKeeps(l: BootLink, base: nat, lib: Library, steps: seq<BootStep>)
    requires BootInv(l, base, lib)
    ensures BootInv(RunBoot(l, steps), base, lib) && SameJob(RunBoot(l, steps).asked, l.asked)
    decreases |steps|
  {
    hide BootInv, NextBoot;
    if steps != [] {
      NextBootKeeps(l, base, lib, steps[0]);
      RunBootKeeps(NextBoot(l, steps[0]), base, lib, steps[1..]);
    }
  }

  /** An update about to be started in front of a bootloader, with what is still on the line. */
  datatype BootSetting = BootSetting(session: S.State, update: U.State, boot: Boot, before: seq<Frame>,
                                     toHost: seq<Frame>, now: u64, queued: QueueStatus)

  function LaunchBoot(x: BootSetting): BootLink {
    var (h, status, sent) := QueueRequest(Host(S.Transition(x.session, S.StartUpgrade).0, x.update), x.now, x.queued);
    var host := if status == Ok then h else FailUpgrade(h);
    BootLink(host, true, x.update, x.boot, None, false, x.before, Sending([], sent), x.toHost)
  }

  /** As for the simulator: frames from before carry no number the update is going to use, and whichever of
      them the bootloader gets to handle, a session it would resume holds the beginning of the image. */
  ghost predicate BootLaunchable(x: BootSetting) {
    && S.Consistent(x.session) && !x.session.pending.active
    && U.Good(x.update) && x.update.phase == U.Entering && x.update.chunksSent == 0
    && |x.update.image| <= MAX_IMAGE && x.update.imageCrc == Checksum(x.update.image)
    && AllForeign(x.before, x.session.stats.requests) && AllForeign(x.toHost, x.session.stats.requests)
    && BootCalm(x.update, x.boot, x.before)
  }

  ghost function SimSetting(x: BootSetting): Setting
    requires |x.update.image| <= MAX_IMAGE
  {
    Setting(x.session, x.update, AsSim(x.update, x.boot, None, false), [], Sift(x.toHost), x.now, x.queued)
  }

  lemma {:induction false} SiftForeign(q: seq<Frame>, base: nat)
    requires AllForeign(q, base)
    ensures AllForeign(Sift(q), base)
  {
    hide Foreign, Negative;
    if q != [] {
      SiftForeign(q[1..], base);
    }
  }

  lemma SimLaunchable(x: BootSetting)
    requires BootLaunchable(x)
    ensures Launchable(SimSetting(x), Only(x.update))
  {
    hide S.Consistent, Checksum, U.Good, AsSim, Foreign, Shelved, BootShelved, OutcomeOf;
    SiftForeign(x.toHost, x.session.stats.requests);
    CalmIsBootShelved(x.update, x.boot, x.before);
    ShelvedAsSim(x.update, x.boot, None, Only(x.update));
  }

  lemma LaunchBootEstablishes(x: BootSetting)
    requires BootLaunchable(x)
    ensures BootInv(LaunchBoot(x), x.session.stats.requests, Only(x.update))
  {
    hide Inv, QueueRequest, FailUpgrade, AsSim, S.Transition, Checksum, Only, U.Good, S.Consistent, Launchable,
      BootCalm, Foreign;
    var base, lib, y := x.session.stats.requests, Only(x.update), SimSetting(x);
    SimLaunchable(x);
    LaunchEstablishes(y, lib);
    assert Image(LaunchBoot(x)) == Launch(y);
    FirstQueueOk(x);
  }

  lemma FirstQueueOk(x: BootSetting)
    requires BootLaunchable(x)
    ensures QueueOk(LaunchBoot(x).toBoot, x.update, x.boot)
  {
    StartConsistent(x.session);
    QueueNumbers(Host(S.Transition(x.session, S.StartUpgrade).0, x.update), x.now, x.queued);
    FirstKind(x.update);
    hide QueueRequest, S.Transition, U.Build, S.Numbered, Checksum, FailUpgrade;
  }

  lemma FirstKind(u: U.State)
    requires u.phase == U.Entering
    ensures U.Build(u).1 == Success(U.Ask(ENTER_BOOTLOADER, []))
  {
  }

  /** In every run of the daemon's driver with the bootloader, whatever frames are lost and however the
      flash fails: if the update is reported complete, the bootloader has activated an image under the
      update's size, checksum and version, its flash held exactly the update's image when it did, and
      the device has been told to restart. */
  lemma CompleteMeansActivated(x: BootSetting, steps: seq<BootStep>)
    requires BootLaunchable(x)
    ensures var (l, u) := (RunBoot(LaunchBoot(x), steps), x.update);
            l.host.upgrade.phase == U.Complete ==>
              l.activated == Some(Activation(|u.image|, u.imageCrc, u.version, u.image)) && l.restarted
  {
    hide BootInv, RunBoot, BootLaunchable, QueueRequest, FailUpgrade;
    var l, base, lib := RunBoot(LaunchBoot(x), steps), x.session.stats.requests, Only(x.update);
    LaunchBootEstablishes(x);
    RunBootKeeps(LaunchBoot(x), base, lib, steps);
    if l.host.upgrade.phase == U.Complete {
      CompleteIsActivated(l, base, lib);
    }
  }

  lemma CompleteIsActivated(l: BootLink, base: nat, lib: Library)
    requires BootInv(l, base, lib) && l.host.upgrade.phase == U.Complete
    ensures var a := l.asked; l.activated == Some(Activation(|a.image|, a.imageCrc, a.version, a.image)) && l.restarted
  {
    InvIsSound(Image(l), base, lib);
    hide RequestsOk, RepliesOk, Budgeted, Resumes, S.Consistent, Contents, QueueOk, Checksum;
  }
}
