/** What holds of every run of an update over the lossy link. */
module LinkRuns {
  import opened Wire
  import opened Crc32
  import opened Simulator
  import opened Driver
  import opened LossyLink
  import opened Resumption
  import opened LinkInvariant
  import S = Session
  import U = Upgrade

  lemma NextKeeps(l: Link, step: Step, base: nat, lib: Library)
    requires Inv(l, base, lib)
    ensures Inv(Next(l, step), base, lib)
  {
    match step {
      case DeviceHandles(env, lost) => DeviceStepKeeps(l, env, lost, base, lib);
      case DeviceReports(payload) => ReportKeeps(l, payload, base, lib);
      case HostReceives(now, queued) => ReceiveStepKeeps(l, base, lib, now, queued);
      case HostTicks(now, queued) => TickStepKeeps(l, base, lib, now, queued);
      case LoseToDevice(i) => LoseRequestKeeps(l, i, base, lib);
      case LoseToHost(i) => LoseReplyKeeps(l, i, base, lib);
    }
  }

  lemma ReportKeeps(l: Link, payload: seq<byte>, base: nat, lib: Library)
    requires Inv(l, base, lib)
    ensures Inv(l.(toHost := l.toHost + [Report(payload)]), base, lib)
  {
    hide Sound, DeviceOk, HostOk, RepliesOk, RequestsOk, Budgeted, S.Consistent, Resumes;
    NewReply(l.toHost, l.toDevice, l.asked, l.device, l.starved, base, l.host.session.stats.requests, Report(payload));
  }

  lemma LoseReplyKeeps(l: Link, i: nat, base: nat, lib: Library)
    requires Inv(l, base, lib)
    ensures Inv(l.(toHost := Without(l.toHost, i)), base, lib)
  {
    hide Sound, DeviceOk, HostOk, RepliesOk, RequestsOk, Budgeted, S.Consistent, Resumes;
    LosingReply(l.toHost, i, l.toDevice, l.asked, l.device, l.starved, base, l.host.session.stats.requests);
  }

  lemma LoseRequestKeeps(l: Link, i: nat, base: nat, lib: Library)
    requires Inv(l, base, lib)
    ensures Inv(l.(toDevice := Without(l.toDevice, i)), base, lib)
  {
    hide RequestsOk, RepliesOk, DeviceOk, Sound, Budgeted, HostOk, S.Consistent, Calm, Shelved, Without, AllReboot,
      AllCurrent;
    var a, q, k := l.asked, l.toDevice, l.host.session.stats.requests;
    LosingRequest(q, i, a, base, k);
    if a.phase == U.Entering {
      CalmWithout(l.device, q, i, lib);
    }
    FewerRequests(l.toHost, q, Without(q, i), a, l.device, l.starved, base, k);
  }

  /** Device and answers are as good with fewer requests on the line. */
  lemma FewerRequests(r: seq<Frame>, q: seq<Frame>, fewer: seq<Frame>, a: U.State, d: Sim, starved: bool, base: nat,
                      k: nat)
    requires Sound(a) && k > 0 && DeviceOk(a, d, q) && RepliesOk(r, q, a, d, starved, base, k)
    requires (AllCurrent(q, k) ==> AllCurrent(fewer, k)) && (AllReboot(q) ==> AllReboot(fewer))
    ensures DeviceOk(a, d, fewer) && RepliesOk(r, fewer, a, d, starved, base, k)
  {
    hide Sound, ReplyOk, Refusal, Recent, Foreign, AllCurrent, AllReboot, S.Numbered;
  }

  lemma {:induction false} RunKeeps(l: Link, steps: seq<Step>, base: nat, lib: Library)
    requires Inv(l, base, lib)
    ensures Inv(Run(l, steps), base, lib)
    decreases |steps|
  {
    hide Inv, Next;
    if steps != [] {
      NextKeeps(l, steps[0], base, lib);
      RunKeeps(Next(l, steps[0]), steps[1..], base, lib);
    }
  }

  // ----- The start of an update -----

  /** What an update starts from: the tracker, the update itself, the device, what is still on the
      line, and the verdict of the output buffer on the first request. */
  datatype Setting = Setting(session: S.State, update: U.State, device: Sim, toDevice: seq<Frame>, toHost: seq<Frame>,
                             now: u64, queued: QueueStatus)

  /** The link just after an update has been started. */
  function Launch(x: Setting): Link {
    var (h, status, sent) := QueueRequest(Host(S.Transition(x.session, S.StartUpgrade).0, x.update), x.now, x.queued);
    var host := if status == Ok then h else FailUpgrade(h);
    Link(host, true, x.update, x.device, false, Sending(x.toDevice, sent), x.toHost)
  }

  ghost predicate AllForeign(q: seq<Frame>, base: nat) {
    forall i :: 0 <= i < |q| ==> Foreign(q[i].sequence, base)
  }

  /** A started update of an image of acceptable size with its true checksum, on a tracker with
      nothing in flight. Frames may still be on the line if they carry no number the update is
      going to use; a session they or earlier updates leave on the device under this update's label
      is of this very image. */
  ghost predicate Launchable(x: Setting, lib: Library) {
    && S.Consistent(x.session) && !x.session.pending.active
    && U.Good(x.update) && x.update.phase == U.Entering && x.update.chunksSent == 0
    && |x.update.image| <= MAX_IMAGE && x.update.imageCrc == Checksum(x.update.image) && Listed(lib, x.update)
    && Calm(x.device, x.toDevice, lib)
    && AllForeign(x.toDevice, x.session.stats.requests) && AllForeign(x.toHost, x.session.stats.requests)
  }

  /** Numbers of the last 2^32 - 2^26 requests or so are none that an update is going to use. */
  lemma EarlierIsForeign(j: nat, base: nat)
    requires 0 < j <= base && base + LONGEST - j < S.PERIOD
    ensures Foreign(S.Numbered(j), base)
  {
    forall i | base < i <= base + LONGEST
      ensures S.Numbered(i) != S.Numbered(j)
    {
      S.NumberedDistinct(j, i);
    }
  }

  /** The library that has this one image. */
  function Only(u: U.State): Library {
    m => if m == LabelOf(u) then Some(u.image) else None
  }

  /** An empty line and a device that has no session, one under another label, or an interrupted one of
      this image, is such a start. */
  lemma QuietStart(x: Setting)
    requires S.Consistent(x.session) && !x.session.pending.active
    requires U.Good(x.update) && x.update.phase == U.Entering && x.update.chunksSent == 0
    requires |x.update.image| <= MAX_IMAGE && x.update.imageCrc == Checksum(x.update.image)
    requires x.toDevice == [] && x.toHost == [] && !x.device.failVerify
    requires x.device.upgrading && SessionLabel(x.device) == LabelOf(x.update) ==> Begun(x.update.image, x.device)
    ensures Launchable(x, Only(x.update))
  {
    hide S.Numbered, Checksum, U.Good;
  }

  lemma LaunchSound(u: U.State, d: Sim, q: seq<Frame>, lib: Library)
    requires U.Good(u) && u.phase == U.Entering && u.chunksSent == 0 && Listed(lib, u) && Shelved(d, lib)
    requires |u.image| <= MAX_IMAGE && u.imageCrc == Checksum(u.image)
    ensures Sound(u) && DeviceOk(u, d, q) && U.Build(u).0 == u && Budgeted(u, 1)
  {
    FirstBudget(u);
    hide PutLe32, PutLe16, Checksum, U.ChunksLeft, U.Reserve;
  }

  lemma FirstRequest(u: U.State, q: seq<Frame>, f: Frame, sent: Option<Frame>, base: nat)
    requires Sound(u) && Asks(f, u) && u.phase == U.Entering && f.sequence == S.Numbered(base + 1)
    requires AllForeign(q, base) && (sent.Some? ==> sent.value == f)
    ensures RequestsOk(Sending(q, sent), u, base, base + 1)
  {
    QuestionIsOk(u, f);
    hide S.Numbered, RequestOk, Sound, Asks;
    assert Recent(f.sequence, base, base + 1);
    var r := Sending(q, sent);
    forall i | 0 <= i < |r|
      ensures Expected(r[i], u, base, base + 1)
      ensures r[i].sequence == S.Numbered(base + 1) ==> Asks(r[i], u) && AllCurrent(r[i..], base + 1)
    {
      if i < |q| {
        assert Foreign(q[i].sequence, base);
      } else {
        assert r[i..] == [f];
      }
    }
  }

  lemma FirstReplies(x: Setting, q: seq<Frame>)
    requires Sound(x.update) && AllForeign(x.toHost, x.session.stats.requests)
    ensures RepliesOk(x.toHost, q, x.update, x.device, false, x.session.stats.requests, x.session.stats.requests + 1)
  {
    hide Sound, S.Numbered, ReplyOk, Recent;
    forall i | 0 <= i < |x.toHost|
      ensures x.toHost[i].sequence != S.Numbered(x.session.stats.requests + 1)
    {
      assert Foreign(x.toHost[i].sequence, x.session.stats.requests);
    }
  }

  lemma LaunchEstablishes(x: Setting, lib: Library)
    requires Launchable(x, lib)
    ensures Inv(Launch(x), x.session.stats.requests, lib)
  {
    hide Sound, DeviceOk, Budgeted, S.Consistent, S.Numbered, QueueRequest, U.Build, RequestsOk, RepliesOk, Checksum,
      U.Good, Calm, Shelved, FailUpgrade, Question, AllForeign, HostOk, S.Transition, AllReboot;
    var t, u, base := S.Transition(x.session, S.StartUpgrade).0, x.update, x.session.stats.requests;
    StartConsistent(x.session);
    QueueNumbers(Host(t, u), x.now, x.queued);
    var (h, status, sent) := QueueRequest(Host(t, u), x.now, x.queued);
    var f := h.session.pending.frame;
    CalmIsShelved(x.device, x.toDevice, lib);
    LaunchSound(u, x.device, Sending(x.toDevice, sent), lib);
    QuestionOf(u);
    AsksKind(u);
    FirstRequest(u, x.toDevice, f, sent, base);
    FirstReplies(x, Sending(x.toDevice, sent));
    CalmAppend(x.device, x.toDevice, f, lib);
    FirstHost(h, u, status);
  }

  lemma FirstHost(h: Host, u: U.State, status: Status)
    requires Sound(u) && u.phase == U.Entering && h.upgrade == u && S.Consistent(h.session)
    requires h.session.pending.active == (status == Ok) && Asks(h.session.pending.frame, u)
    ensures var g := if status == Ok then h else FailUpgrade(h);
            && HostOk(g, true, u) && S.Consistent(g.session) && g.session.stats.requests == h.session.stats.requests
            && g.upgrade.phase != U.Complete
  {
    FinishKeepsSession(h.(upgrade := u.(phase := U.Errored)));
    hide Sound, S.Consistent, Question, FinishUpgrade;
  }

  lemma StartConsistent(s: S.State)
    requires S.Consistent(s)
    ensures var t := S.Transition(s, S.StartUpgrade).0;
            S.Consistent(t) && t.pending == s.pending && t.stats == s.stats
  {
    hide S.Numbered;
  }

  // ----- The image stays the same -----

  /** The image, its checksum and its name never change during an update. */
  ghost predicate SameJob(a: U.State, b: U.State) {
    a.image == b.image && LabelOf(a) == LabelOf(b)
  }

  lemma QueueKeepsJob(h: Host, now: u64, queued: QueueStatus)
    ensures SameJob(QueueRequest(h, now, queued).0.upgrade, h.upgrade)
  {
    hide PutLe32, PutLe16;
  }

  lemma FrameKeepsJob(h: Host, f: Frame, now: u64, queued: QueueStatus)
    ensures SameJob(OnUpgradeFrame(h, f, now, queued).0.upgrade, h.upgrade)
  {
    hide QueueRequest, GetLe32;
    QueueKeepsJob(Host(S.Accept(h.session, f).0, U.Accept(h.upgrade, h.session.pending.frame.kind, f).0), now, queued);
  }

  lemma TimeoutKeepsJob(h: Host, now: u64, queued: QueueStatus)
    ensures SameJob(OnUpgradeTimeout(h, now, queued).0.upgrade, h.upgrade)
  {
    hide QueueRequest;
    QueueKeepsJob(Host(h.session, U.BeginRecovery(h.upgrade).0), now, queued);
  }

  lemma NextKeepsJob(l: Link, step: Step)
    requires SameJob(l.host.upgrade, l.asked)
    ensures SameJob(Next(l, step).host.upgrade, l.asked) && SameJob(Next(l, step).asked, l.asked)
  {
    hide OnUpgradeFrame, OnUpgradeTimeout, Respond, NeedsMemory;
    match step {
      case HostReceives(now, queued) =>
        if l.toHost != [] {
          FrameKeepsJob(l.host, l.toHost[0], now, queued);
        }
      case HostTicks(now, queued) =>
        TimeoutKeepsJob(l.host.(session := S.Tick(l.host.session, now, queued).0), now, queued);
      case _ =>
    }
  }

  lemma {:induction false} RunKeepsJob(l: Link, steps: seq<Step>)
    requires SameJob(l.host.upgrade, l.asked)
    ensures SameJob(Run(l, steps).host.upgrade, l.asked) && SameJob(Run(l, steps).asked, l.asked)
    decreases |steps|
  {
    hide Next;
    if steps != [] {
      NextKeepsJob(l, steps[0]);
      RunKeepsJob(Next(l, steps[0]), steps[1..]);
    }
  }

  // ----- Whole runs -----

  /** What every state of every run satisfies. */
  lemma ReachableKeeps(x: Setting, lib: Library, steps: seq<Step>)
    requires Launchable(x, lib)
    ensures var l := Run(Launch(x), steps);
            Inv(l, x.session.stats.requests, lib) && SameJob(l.host.upgrade, x.update) && SameJob(l.asked, x.update)
  {
    LaunchEstablishes(x, lib);
    RunKeeps(Launch(x), steps, x.session.stats.requests, lib);
    QueueKeepsJob(Host(S.Transition(x.session, S.StartUpgrade).0, x.update), x.now, x.queued);
    hide Inv, Run, QueueRequest, Launchable;
    RunKeepsJob(Launch(x), steps);
  }

  /** In every run over a lossy line: when the host reports the update complete, the device
      holds exactly the image, runs under the requested version, and has left its bootloader
      and closed the session. */
  lemma CompleteMeansInstalled(x: Setting, lib: Library, steps: seq<Step>)
    requires Launchable(x, lib)
    ensures var l := Run(Launch(x), steps);
            l.host.upgrade.phase == U.Complete ==>
              l.device.flash == x.update.image && l.device.version == x.update.version && Rebooted(l.device)
  {
    ReachableKeeps(x, lib, steps);
    hide Run, Launch, Launchable, RequestsOk, RepliesOk, Budgeted, Resumes;
  }

  /** While a session is open the host trails the device by at most the chunk in flight, and what the
      device has is the beginning of the image. */
  lemma HostTrailsByOneChunk(x: Setting, lib: Library, steps: seq<Step>)
    requires Launchable(x, lib)
    ensures var l := Run(Launch(x), steps);
            var (h, e, image) := (l.host.upgrade, l.device, x.update.image);
            h.phase == U.Transferring || h.phase == U.Recovering ==>
              && h.offset <= e.offset <= |image| == |e.flash| && e.offset <= h.offset + x.update.chunkSize
              && (e.offset == h.offset || e.offset == U.ChunkEnd(h, h.offset))
              && e.flash[..e.offset] == image[..e.offset]
  {
    ReachableKeeps(x, lib, steps);
    hide Run, Launch, Launchable, RequestsOk, RepliesOk, Budgeted, Resumes;
  }

  /** The timer finds the last retry gone, with no recovery left or no room to queue it, or the host
      receives a refusal. */
  ghost predicate Fatal(l: Link, step: Step) {
    && l.running
    && match step
       case HostTicks(now, queued) =>
         S.Tick(l.host.session, now, queued).1 == Timeout && (!CanRecover(l.host.upgrade) || queued != Ok)
       case HostReceives(_, _) => l.toHost != [] && Current(l, l.toHost[0]) && Negative(l.toHost[0])
       case _ => false
  }

  /** In every run, such a step and no other fails the update. */
  lemma FailsExactly(x: Setting, lib: Library, steps: seq<Step>, step: Step)
    requires Launchable(x, lib)
    ensures var l := Run(Launch(x), steps);
            U.Active(l.host.upgrade) ==> (Next(l, step).host.upgrade.phase == U.Errored <==> Fatal(l, step))
  {
    ReachableKeeps(x, lib, steps);
    var l, base := Run(Launch(x), steps), x.session.stats.requests;
    hide Run, Launch, Launchable, Inv, TickStep, ReceiveStep, Respond, NeedsMemory, Refusal, S.Tick, S.Numbered,
      SameJob;
    if U.Active(l.host.upgrade) {
      match step {
        case HostTicks(now, queued) => TimerFails(l, base, lib, now, queued);
        case HostReceives(now, queued) => ReceiptFails(l, base, lib, now, queued);
        case _ =>
      }
    }
  }

  lemma TimerFails(l: Link, base: nat, lib: Library, now: u64, queued: QueueStatus)
    requires Inv(l, base, lib) && U.Active(l.host.upgrade)
    ensures TickStep(l, now, queued).host.upgrade.phase == U.Errored <==>
              l.running && S.Tick(l.host.session, now, queued).1 == Timeout
              && (!CanRecover(l.host.upgrade) || queued != Ok)
  {
    var (s, status, again) := S.Tick(l.host.session, now, queued);
    if l.running {
      TickEffect(l.host.session, now, queued);
      assert l.host.upgrade == l.asked;
      if status == Timeout {
        TimeoutKeeps(l, base, lib, s, now, queued);
      }
    }
    hide Inv, S.Tick, OnUpgradeTimeout;
  }

  lemma ReceiptFails(l: Link, base: nat, lib: Library, now: u64, queued: QueueStatus)
    requires Inv(l, base, lib) && U.Active(l.host.upgrade)
    ensures ReceiveStep(l, now, queued).host.upgrade.phase == U.Errored <==>
              l.running && l.toHost != [] && Current(l, l.toHost[0]) && Negative(l.toHost[0])
  {
    hide Inv, ReceiveStep, S.Numbered, Negative, Refusal, Sound, ReplyOk, AllCurrent;
    ReceiveStepKeeps(l, base, lib, now, queued);
    if l.toHost != [] && Current(l, l.toHost[0]) {
      CurrentReply(l, base, lib, 0);
    }
  }

  /** What an answer to the request in flight can be. */
  lemma CurrentReply(l: Link, base: nat, lib: Library, i: nat)
    requires Inv(l, base, lib) && i < |l.toHost| && Current(l, l.toHost[i])
    ensures Sound(l.asked) && AllCurrent(l.toDevice, l.host.session.stats.requests)
    ensures Negative(l.toHost[i]) <==> Refusal(l.toHost[i], l.asked)
    ensures !Negative(l.toHost[i]) ==> ReplyOk(l.toHost[i], l.asked, l.device)
  {
    hide Sound, DeviceOk, RequestsOk, HostOk, Budgeted, S.Consistent, S.Numbered, Resumes, Question, AllCurrent;
    AsksKind(l.asked);
  }

  /** Memory is short at some point of the run. */
  ghost predicate Short(steps: seq<Step>) {
    exists i :: 0 <= i < |steps| && steps[i].DeviceHandles? && steps[i].env.heap.Exhausted?
  }

  /** Loss alone never makes the device refuse a request of the update: it refuses only a FW_BEGIN for
      which there is no memory, and no other refusal is ever on the line. */
  lemma RefusesOnlyForMemory(x: Setting, lib: Library, steps: seq<Step>, heap: Heap)
    requires Launchable(x, lib)
    ensures var (l, base) := (Run(Launch(x), steps), x.session.stats.requests);
            && (forall i :: 0 <= i < |l.toHost| && Negative(l.toHost[i]) && !Foreign(l.toHost[i].sequence, base) ==>
                l.starved)
            && (l.starved ==> Short(steps))
            && (l.toDevice != [] && !Foreign(l.toDevice[0].sequence, base) ==>
                  && IsUpdate(l.toDevice[0].kind)
                  && (Negative(Handle(l.device, l.toDevice[0], heap).1) <==> Starves(l.device, l.toDevice[0], heap)))
  {
    assert !Launch(x).starved;
    hide Run, Launch, Launchable, Inv, Handle, NeedsMemory, Foreign, RequestOk, Recent, SameJob, S.Numbered;
    ReachableKeeps(x, lib, steps);
    var l, base := Run(Launch(x), steps), x.session.stats.requests;
    if !Short(steps) {
      NeverStarved(Launch(x), steps);
    }
    RefusalsOnLine(l, base, lib);
    if l.toDevice != [] && !Foreign(l.toDevice[0].sequence, base) {
      OwnHead(l, base, lib);
      HeadRefused(l, heap, base, lib);
    }
  }

  lemma RefusalsOnLine(l: Link, base: nat, lib: Library)
    requires Inv(l, base, lib)
    ensures forall i :: 0 <= i < |l.toHost| && Negative(l.toHost[i]) && !Foreign(l.toHost[i].sequence, base) ==>
              l.starved
  {
    hide Sound, DeviceOk, RequestsOk, HostOk, Budgeted, S.Consistent, S.Numbered, Resumes, ReplyOk, Foreign, Recent;
  }

  lemma HeadRefused(l: Link, heap: Heap, base: nat, lib: Library)
    requires Inv(l, base, lib) && l.toDevice != [] && RequestOk(l.toDevice[0], l.asked)
    requires l.asked.phase == U.Entering ==> l.toDevice[0].sequence == S.Numbered(l.host.session.stats.requests)
    ensures IsUpdate(l.toDevice[0].kind)
    ensures Negative(Handle(l.device, l.toDevice[0], heap).1) <==> Starves(l.device, l.toDevice[0], heap)
  {
    hide Inv, Handle, NeedsMemory, DeviceOk, Sound, RequestOk, KeepsReply, ReplyOk, Asks, S.Numbered;
    InvIsSound(l, base, lib);
    HeadServed(l, heap, base, lib);
  }

  /** A frame on the line that is not from before the update is a request of it. */
  lemma OwnHead(l: Link, base: nat, lib: Library)
    requires Inv(l, base, lib) && l.toDevice != [] && !Foreign(l.toDevice[0].sequence, base)
    ensures RequestOk(l.toDevice[0], l.asked) && Recent(l.toDevice[0].sequence, base, l.host.session.stats.requests)
    ensures l.asked.phase == U.Entering ==> l.toDevice[0].sequence == S.Numbered(l.host.session.stats.requests)
  {
    HeadRequest(l.toDevice, l.asked, base, l.host.session.stats.requests);
    if l.asked.phase == U.Entering {
      FirstIsCurrent(l.asked, l.toDevice[0].sequence, base, l.host.session.stats.requests);
    }
    hide RequestOk, Sound, DeviceOk, RequestsOk, RepliesOk, HostOk, Foreign, Recent, Budgeted, S.Numbered;
  }

  lemma {:induction false} NeverStarved(l: Link, steps: seq<Step>)
    requires !Short(steps)
    ensures Run(l, steps).starved == l.starved
    decreases |steps|
  {
    if steps != [] {
      assert !(steps[0].DeviceHandles? && steps[0].env.heap.Exhausted?);
      assert !Short(steps[1..]) by {
        forall i | 0 <= i < |steps[1..]|
          ensures !(steps[1..][i].DeviceHandles? && steps[1..][i].env.heap.Exhausted?)
        {
          assert steps[1..][i] == steps[i + 1];
        }
      }
      assert Next(l, steps[0]).starved == l.starved by {
        hide OnUpgradeFrame, OnUpgradeTimeout, S.Tick, Respond, NeedsMemory;
      }
      hide Next;
      NeverStarved(Next(l, steps[0]), steps[1..]);
    }
  }

  /** One update sends each chunk once, and again at most once for each of its three recoveries. */
  lemma FewChunksSent(x: Setting, lib: Library, steps: seq<Step>)
    requires Launchable(x, lib)
    ensures Run(Launch(x), steps).host.upgrade.chunksSent
         <= U.ChunksLeft(|x.update.image|, 0, x.update.chunkSize) + U.MAX_RECOVERIES
  {
    ReachableKeeps(x, lib, steps);
    var a := Run(Launch(x), steps).asked;
    hide Run, Launch, RequestsOk, RepliesOk, DeviceOk, U.RoundsLeft, Resumes;
    assert a.phase == U.Transferring || a.phase == U.Recovering ==> U.Left(a, a.offset) > 0;
  }

  ghost predicate OffsetKept(u: U.State, v: U.State) {
    v.sessionId == u.sessionId && v.offset >= u.offset
  }

  lemma TimerKeepsOffset(l: Link, now: u64, queued: QueueStatus)
    ensures OffsetKept(l.host.upgrade, TickStep(l, now, queued).host.upgrade)
  {
    BuildCounts(U.BeginRecovery(l.host.upgrade).0);
    hide U.Build, S.Begin, S.Tick;
  }

  lemma ReceiveKeepsOffset(l: Link, base: nat, lib: Library, now: u64, queued: QueueStatus)
    requires Inv(l, base, lib) && Rank(l.asked.phase) >= 2
    ensures OffsetKept(l.host.upgrade, ReceiveStep(l, now, queued).host.upgrade)
  {
    if l.toHost != [] {
      if l.running && U.Active(l.host.upgrade) && Current(l, l.toHost[0]) {
        AnswerRaisesOffset(l, base, lib, now, queued);
      } else {
        StaleReplyKeeps(l, base, lib, now, queued);
      }
    }
    hide Inv, ReceiveStep;
  }

  /** Once a session is open, no step of the link takes the host's offset back. */
  lemma OffsetNeverFalls(x: Setting, lib: Library, steps: seq<Step>, step: Step)
    requires Launchable(x, lib)
    ensures var l := Run(Launch(x), steps);
            Rank(l.asked.phase) >= 2 ==> OffsetKept(l.host.upgrade, Next(l, step).host.upgrade)
  {
    hide Run, Launch, Launchable, Inv, ReceiveStep, TickStep, Respond, NeedsMemory, SameJob;
    ReachableKeeps(x, lib, steps);
    var l := Run(Launch(x), steps);
    if Rank(l.asked.phase) >= 2 {
      match step {
        case HostReceives(t, queued) => ReceiveKeepsOffset(l, x.session.stats.requests, lib, t, queued);
        case HostTicks(t, queued) => TimerKeepsOffset(l, t, queued);
        case _ =>
      }
    }
  }

  lemma AdvanceRaises(a: U.State, d: Sim, q: seq<Frame>, f: Frame)
    requires Sound(a) && DeviceOk(a, d, q) && ReplyOk(f, a, d) && Rank(a.phase) >= 2
    ensures OffsetKept(a, Advanced(a, d))
  {
    hide Question, Checksum;
  }

  lemma AnswerRaisesOffset(l: Link, base: nat, lib: Library, now: u64, queued: QueueStatus)
    requires Inv(l, base, lib) && l.toHost != [] && l.running && U.Active(l.host.upgrade) && Current(l, l.toHost[0])
    requires Rank(l.asked.phase) >= 2
    ensures OffsetKept(l.host.upgrade, ReceiveStep(l, now, queued).host.upgrade)
  {
    hide Sound, DeviceOk, RequestsOk, Budgeted, S.Consistent, S.Numbered, Resumes, ReplyOk, ReceiveStep, U.Build,
      Advanced, AllCurrent;
    var a, d, f := l.asked, l.device, l.toHost[0];
    assert ReplyOk(f, a, d) && l.host.upgrade == a;
    AdvanceRaises(a, d, l.toDevice, f);
    AnswerGoesTo(l, base, lib, now, queued);
    BuildCounts(Advanced(a, d));
  }

  lemma AnswerGoesTo(l: Link, base: nat, lib: Library, now: u64, queued: QueueStatus)
    requires Inv(l, base, lib) && l.toHost != [] && l.running && U.Active(l.host.upgrade) && Current(l, l.toHost[0])
    requires ReplyOk(l.toHost[0], l.asked, l.device)
    ensures ReceiveStep(l, now, queued).host.upgrade ==
              if l.asked.phase == U.Restarting then Advanced(l.asked, l.device)
              else U.Build(Advanced(l.asked, l.device)).0
  {
    var a, d, f := l.asked, l.device, l.toHost[0];
    SessionAccepts(l.host.session, f, a, d);
    DriverTakesAnswer(l.host, a, d, l.toDevice, f, now, queued);
    QueueBuilds(Host(S.Accept(l.host.session, f).0, Advanced(a, d)), now, queued);
    hide Sound, RequestsOk, RepliesOk, Budgeted, S.Consistent, S.Numbered, S.Accept, OnUpgradeFrame, U.Build, ReplyOk,
      DeviceOk, QueueRequest, Resumes, Question, Advanced;
  }
}
