/** How far the STM32 bootloader and the host are apart in every run: a lost answer strands exactly the
    updates whose request the bootloader does not take twice. */
module Stm32Runs {
  import opened Wire
  import opened Crc32
  import opened Driver
  import opened LossyLink
  import opened Resumption
  import opened LinkInvariant
  import opened LinkRuns
  import opened Simulator
  import opened Stm32Link
  import B = Stm32Update
  import Q = QuietLine
  import S = Session
  import U = Upgrade

  // ----- Which lost answer is fatal -----

  /** The frame belongs to the last request. */
  ghost predicate IsLast(l: BootLink, f: Frame) {
    l.host.session.stats.requests > 0 && f.sequence == S.Numbered(l.host.session.stats.requests)
  }

  /** The bootloader has taken the step that the host still asks for, and no word of it is on the line:
      the same request again is refused. */
  ghost predicate Stranded(l: BootLink) {
    && U.Active(l.host.upgrade)
    && (|| (l.asked.phase == U.Ending && (l.boot.stage == B.Transferred || l.boot.stage == B.Verified))
        || (l.asked.phase == U.Verifying && l.boot.stage == B.Verified))
    && forall i :: 0 <= i < |l.toHost| && IsLast(l, l.toHost[i]) ==> Negative(l.toHost[i])
  }

  ghost predicate Failing(l: BootLink) {
    Stranded(l) || (!U.Active(l.host.upgrade) && l.host.upgrade.phase != U.Complete)
  }

  lemma RefusesAgain(u: Boot, f: Frame, driver: B.Driver)
    requires u.stage == B.Transferred || u.stage == B.Verified
    ensures var out := B.Handle(u, f, driver);
            && (f.kind == FW_END || (f.kind == FW_VERIFY && u.stage == B.Verified) ==>
                out.next == u && out.reply.kind == NACK)
            && out.reply.sequence == f.sequence
            && (f.kind != FW_BEGIN && f.kind != FW_VERIFY ==> out.next.stage == u.stage)
  {
    hide GetLe32, GetLe16, PutLe32, PutLe16, StringAt, Checksum;
  }

  /** What the head of the line can be while the update is stranded. */
  lemma StrandedHead(l: BootLink, base: nat, lib: Library)
    requires BootInv(l, base, lib) && Stranded(l) && l.toBoot != []
    ensures var f := l.toBoot[0];
            && (IsLast(l, f) ==> f.kind == if l.asked.phase == U.Ending then FW_END else FW_VERIFY)
            && f.kind != FW_BEGIN && (l.asked.phase == U.Ending ==> f.kind != FW_VERIFY)
  {
    HeadIsOurs(l, base, lib);
    StrandedIsPast(l, base, lib);
    AsksKind(l.asked);
    HeadRequest(l.toBoot, l.asked, base, l.host.session.stats.requests);
    hide Sound, DeviceOk, RepliesOk, Budgeted, S.Consistent, Resumes, HostOk, S.Numbered, Question, AsSim, Own,
      RequestsOk, B.Handle;
  }

  lemma StrandedIsPast(l: BootLink, base: nat, lib: Library)
    requires BootInv(l, base, lib) && Stranded(l)
    ensures Past(l.asked, l.boot)
  {
    hide RequestsOk, RepliesOk, Budgeted, Resumes, S.Consistent, Contents, QueueOk, Checksum, HostOk, Sound;
  }

  lemma StrandedHandles(l: BootLink, base: nat, lib: Library, driver: B.Driver, lost: bool)
    requires BootInv(l, base, lib) && Stranded(l)
    ensures Stranded(HandleStep(l, driver, lost))
  {
    hide BootInv, B.Handle, S.Numbered, Activated;
    NoneLeft(l, base, lib);
    if l.toBoot != [] {
      StrandedHead(l, base, lib);
      RefusesAgain(l.boot, l.toBoot[0], driver);
    }
  }

  lemma StrandedAccepts(l: BootLink, base: nat, lib: Library, now: u64, queued: QueueStatus)
    requires BootInv(l, base, lib) && Stranded(l)
    ensures Failing(NextBoot(l, HostAccepts(now, queued)))
  {
    hide Inv, Receipt, AsSim, QueueOk, RecordOk, S.Consistent, S.Accept, S.Numbered, FinishUpgrade;
    if l.running && l.toHost != [] {
      var n, f := Image(l), l.toHost[0];
      HostWaits(n, base, lib);
      PendingIsLast(n, base, lib);
      if Negative(f) {
        RefusalReceipt(l.host, l.asked, f, now, queued);
        FinishKeepsSession(Host(S.Accept(l.host.session, f).0, l.asked.(phase := U.Errored)));
      } else {
        StaleReceipt(l.host, l.asked, f, now, queued);
      }
    }
  }

  lemma PendingIsLast(n: Link, base: nat, lib: Library)
    requires Inv(n, base, lib) && n.running && U.Active(n.host.upgrade)
    ensures n.host.session.stats.requests > 0
    ensures n.host.session.pending.frame.sequence == S.Numbered(n.host.session.stats.requests)
  {
    hide RequestsOk, RepliesOk, Budgeted, Resumes, DeviceOk, Sound, S.Numbered;
  }

  lemma StaleReceipt(h: Host, a: U.State, f: Frame, now: u64, queued: QueueStatus)
    requires U.Active(h.upgrade) && h.session.pending.active && f.sequence != h.session.pending.frame.sequence
    ensures var t := Receipt(h, a, f, now, queued);
            t.asked == a && t.host.upgrade == h.upgrade && t.host.session.stats.requests == h.session.stats.requests
  {
    hide QueueRequest, U.Accept;
  }

  lemma StrandedExpires(l: BootLink, base: nat, lib: Library, now: u64, queued: QueueStatus)
    requires BootInv(l, base, lib) && Stranded(l)
    ensures Failing(NextBoot(l, HostExpires(now, queued)))
  {
    hide Inv, AsSim, QueueOk, RecordOk, S.Consistent, S.Numbered, S.Tick, FinishUpgrade, QueueRequest;
    var s := S.Tick(l.host.session, now, queued).0;
    HostWaits(Image(l), base, lib);
    TickEffect(l.host.session, now, queued);
    FinishKeepsSession(Host(s, l.asked.(phase := U.Errored)));
  }

  lemma FailingStays(l: BootLink, base: nat, lib: Library, step: BootStep)
    requires BootInv(l, base, lib) && Failing(l)
    ensures Failing(NextBoot(l, step))
  {
    hide BootInv, OutcomeOf;
    if Stranded(l) {
      hide Receipt, Expiry, HandleStep;
      match step {
        case BootHandles(driver, lost) => StrandedHandles(l, base, lib, driver, lost);
        case HostAccepts(now, queued) => StrandedAccepts(l, base, lib, now, queued);
        case HostExpires(now, queued) => StrandedExpires(l, base, lib, now, queued);
        case _ =>
      }
    } else {
      hide S.Accept, S.Tick, Stranded;
    }
  }

  /** From there no continuation completes the update. */
  lemma {:induction false} StrandedNeverCompletes(l: BootLink, base: nat, lib: Library, steps: seq<BootStep>)
    requires BootInv(l, base, lib) && Failing(l)
    ensures RunBoot(l, steps).host.upgrade.phase != U.Complete
    decreases |steps|
  {
    hide BootInv, NextBoot;
    if steps != [] {
      NextBootKeeps(l, base, lib, steps[0]);
      FailingStays(l, base, lib, steps[0]);
      StrandedNeverCompletes(NextBoot(l, steps[0]), base, lib, steps[1..]);
    }
  }

  /** Losing the answer to the last request strands the update exactly if the request was the FW_END or
      the FW_VERIFY that moved the bootloader on. */
  lemma LostAnswerStrands(l: BootLink, base: nat, lib: Library, driver: B.Driver)
    requires BootInv(l, base, lib) && U.Active(l.host.upgrade) && !Stranded(l)
    requires l.toBoot != [] && IsLast(l, l.toBoot[0]) && forall i :: 0 <= i < |l.toHost| ==> !IsLast(l, l.toHost[i])
    ensures Stranded(NextBoot(l, BootHandles(driver, true))) <==> B.Advances(l.boot, l.toBoot[0])
  {
    hide BootInv, B.Handle, Question, Sound, RequestOk, DeviceOk, B.Advances, S.Numbered, Activated;
    LastKind(l, base, lib);
    LastHandled(l.boot, l.toBoot[0], driver);
    if l.asked.phase != U.Entering {
      NoneLeft(l, base, lib);
    }
  }

  lemma LastKind(l: BootLink, base: nat, lib: Library)
    requires BootInv(l, base, lib) && l.toBoot != [] && IsLast(l, l.toBoot[0])
    ensures l.toBoot[0].kind == FW_END <==> l.asked.phase == U.Ending
    ensures l.toBoot[0].kind == FW_VERIFY <==> l.asked.phase == U.Verifying
  {
    HeadIsOurs(l, base, lib);
    AsksKind(l.asked);
    HeadRequest(l.toBoot, l.asked, base, l.host.session.stats.requests);
    hide BootInv, Question, Sound, RequestOk, DeviceOk, S.Numbered;
  }

  lemma LastHandled(u: Boot, f: Frame, driver: B.Driver)
    ensures f.kind == FW_END ==>
              B.Handle(u, f, driver).next.stage == if B.Advances(u, f) then B.Transferred else u.stage
    ensures f.kind == FW_VERIFY ==>
              B.Handle(u, f, driver).next.stage == if B.Advances(u, f) then B.Verified else u.stage
    ensures B.Advances(u, f) ==> f.kind == FW_END || f.kind == FW_VERIFY
  {
    hide GetLe32, GetLe16, PutLe32, PutLe16, StringAt, Checksum;
  }

  /** In every run: losing the bootloader's answer to the last request, when no other is on the line, strands
      the update exactly if that request is the FW_END or the FW_VERIFY that moved the bootloader on; and then
      no continuation completes it. */
  lemma LostAnswerIsFatal(x: BootSetting, steps: seq<BootStep>, driver: B.Driver, more: seq<BootStep>)
    requires BootLaunchable(x)
    requires var l := RunBoot(LaunchBoot(x), steps);
             && U.Active(l.host.upgrade) && !Stranded(l) && l.toBoot != [] && IsLast(l, l.toBoot[0])
             && forall i :: 0 <= i < |l.toHost| ==> !IsLast(l, l.toHost[i])
    ensures var l := RunBoot(LaunchBoot(x), steps);
            var m := NextBoot(l, BootHandles(driver, true));
            && (Stranded(m) <==> B.Advances(l.boot, l.toBoot[0]))
            && (Stranded(m) ==> RunBoot(m, more).host.upgrade.phase != U.Complete)
  {
    hide BootInv, RunBoot, BootLaunchable, LaunchBoot, S.Numbered, B.Advances, NextBoot, Stranded;
    var l, base, lib := RunBoot(LaunchBoot(x), steps), x.session.stats.requests, Only(x.update);
    LaunchBootEstablishes(x);
    RunBootKeeps(LaunchBoot(x), base, lib, steps);
    LostAnswerStrands(l, base, lib, driver);
    var m := NextBoot(l, BootHandles(driver, true));
    NextBootKeeps(l, base, lib, BootHandles(driver, true));
    if Stranded(m) {
      StrandedNeverCompletes(m, base, lib, more);
    }
  }

  // ----- The bootloader keeps pace with the host -----

  /** A chunk that the bootloader has stored ahead of the host is one that its session takes; past the
      transfer all are stored. */
  ghost predicate Fits(a: U.State, u: Boot) {
    Own(a, u) ==>
      && (Rank(a.phase) == 2 ==> u.nextOffset - a.offset <= u.chunkSize)
      && (Rank(a.phase) >= 3 ==> u.nextOffset == u.imageSize)
  }

  /** The session that the bootloader resumes takes only smaller chunks than the update sends, and more
      than one of them is missing. */
  ghost predicate Cramped(a: U.State, u: Boot) {
    Own(a, u) && u.chunkSize < a.chunkSize && u.chunkSize < u.imageSize - u.nextOffset
  }

  /** An answer that is no refusal is on the line. */
  ghost predicate Granted(l: BootLink) {
    exists i :: 0 <= i < |l.toHost| && IsLast(l, l.toHost[i]) && !Negative(l.toHost[i])
  }

  /** The bootloader is no further than the request in flight takes it, and is there if it is granted. */
  ghost predicate Paced(l: BootLink) {
    && Fits(l.asked, l.boot)
    && (l.asked.phase == U.Ending ==> l.boot.stage == B.Transferred || (l.boot.stage == B.Receiving && !Granted(l)))
    && (l.asked.phase == U.Verifying ==> l.boot.stage == B.Transferred || l.boot.stage == B.Verified)
  }

  /** What FW_DATA does to the session of an update, and what other requests leave of it. */
  lemma HandleChunk(u: Boot, f: Frame, driver: B.Driver)
    ensures var v := B.Handle(u, f, driver).next;
            && (f.kind != FW_BEGIN ==> v.chunkSize == u.chunkSize)
            && (f.kind != FW_BEGIN && f.kind != FW_DATA ==> v.nextOffset == u.nextOffset)
  {
    hide GetLe32, GetLe16, PutLe32, PutLe16, StringAt, Checksum;
  }

  lemma ChunkStored(l: BootLink, base: nat, lib: Library, driver: B.Driver)
    requires BootInv(l, base, lib) && l.toBoot != [] && l.toBoot[0].kind == FW_DATA
    ensures var (a, u, v) := (l.asked, l.boot, OutcomeOf(l.boot, l.toBoot[0], driver).next);
            && Own(a, u) && Own(a, v) && a.offset <= u.nextOffset && Sound(a)
            && (|| v.nextOffset == u.nextOffset
                || (&& u.nextOffset == a.offset && v.nextOffset == U.ChunkEnd(a, a.offset)
                    && v.nextOffset - a.offset <= u.chunkSize))
  {
    var a, u, f := l.asked, l.boot, l.toBoot[0];
    HeadIsOurs(l, base, lib);
    var p :| ChunkOf(f.payload, a, p);
    SoundSize(a);
    OpenIsOwn(a, u, l.activated, l.restarted, f, l.toBoot[1..]);
    OffsetNear(a, u, l.activated, f, l.toBoot[1..]);
    SoundChunk(a);
    BootStores(a, u, f, driver, p);
    OutcomeSame(u, f, driver);
    hide BootInv, B.Handle, OutcomeOf, Sound, DeviceOk, AsSim, Splice, PutLe32;
  }

  lemma SoundChunk(a: U.State)
    requires Sound(a)
    ensures 0 < a.chunkSize
  {
  }

  lemma HandleFits(l: BootLink, base: nat, lib: Library, driver: B.Driver)
    requires BootInv(l, base, lib) && Fits(l.asked, l.boot) && l.toBoot != []
    ensures Fits(l.asked, OutcomeOf(l.boot, l.toBoot[0], driver).next)
    ensures Cramped(l.asked, OutcomeOf(l.boot, l.toBoot[0], driver).next) <==> Cramped(l.asked, l.boot)
  {
    hide BootInv, B.Handle, Sound, DeviceOk, SessionReport;
    var a, u, f := l.asked, l.boot, l.toBoot[0];
    HandleChunk(u, f, driver);
    HandleStage(u, f, driver);
    HeadIsOurs(l, base, lib);
    if f.kind == FW_BEGIN {
      if Rank(a.phase) >= 2 {
        SoundSize(a);
        OpenIsOwn(a, u, l.activated, l.restarted, f, l.toBoot[1..]);
      }
      BootBegins(a, u, f, driver);
    } else if f.kind == FW_DATA {
      ChunkStored(l, base, lib, driver);
    } else {
      OwnStays(l, base, lib, driver);
    }
  }

  /** No other request changes whose session it is. */
  lemma OwnStays(l: BootLink, base: nat, lib: Library, driver: B.Driver)
    requires BootInv(l, base, lib) && l.toBoot != [] && l.toBoot[0].kind != FW_BEGIN && l.toBoot[0].kind != FW_DATA
    ensures Own(l.asked, OutcomeOf(l.boot, l.toBoot[0], driver).next) <==> Own(l.asked, l.boot)
  {
    OutcomeSame(l.boot, l.toBoot[0], driver);
    hide BootInv, B.Handle, OutcomeOf, Sound, DeviceOk, SessionReport;
    HandleStage(l.boot, l.toBoot[0], driver);
    HeadIsOurs(l, base, lib);
  }

  lemma LateIsOwn(l: BootLink, base: nat, lib: Library)
    requires BootInv(l, base, lib) && (l.asked.phase == U.Ending || l.asked.phase == U.Verifying)
    ensures Own(l.asked, l.boot)
  {
    hide RequestsOk, RepliesOk, Budgeted, Resumes, S.Consistent, Contents, QueueOk, Checksum, HostOk, Sound;
  }

  /** What the head of the line can be past the transfer. */
  lemma LateHead(l: BootLink, base: nat, lib: Library, driver: B.Driver)
    requires BootInv(l, base, lib) && l.toBoot != [] && (l.asked.phase == U.Ending || l.asked.phase == U.Verifying)
    ensures l.toBoot[0].kind == FW_BEGIN ==> B.Handle(l.boot, l.toBoot[0], driver).next == l.boot
    ensures l.asked.phase == U.Ending ==> l.toBoot[0].kind != FW_VERIFY
    ensures IsLast(l, l.toBoot[0]) ==> l.toBoot[0].kind == if l.asked.phase == U.Ending then FW_END else FW_VERIFY
  {
    var f := l.toBoot[0];
    HeadIsOurs(l, base, lib);
    LateIsOwn(l, base, lib);
    AsksKind(l.asked);
    HeadRequest(l.toBoot, l.asked, base, l.host.session.stats.requests);
    if f.kind == FW_BEGIN {
      BootBegins(l.asked, l.boot, f, driver);
    }
    hide BootInv, Sound, DeviceOk, S.Numbered, Question, B.Handle, SessionReport;
  }

  /** What FW_END and FW_VERIFY do to the stage, and when they are granted. */
  lemma LateHandled(u: Boot, f: Frame, driver: B.Driver)
    requires u.stage == B.Receiving || u.stage == B.Transferred || u.stage == B.Verified
    ensures var out := B.Handle(u, f, driver);
            && out.reply.sequence == f.sequence
            && (f.kind != FW_BEGIN && f.kind != FW_END && f.kind != FW_VERIFY ==> out.next.stage == u.stage)
            && (f.kind == FW_END ==>
                out.next.stage == u.stage || (u.stage == B.Receiving && out.next.stage == B.Transferred))
            && (f.kind == FW_END && out.reply.kind != NACK ==> out.next.stage == B.Transferred)
            && (f.kind == FW_VERIFY ==>
                out.next.stage == u.stage || (u.stage == B.Transferred && out.next.stage == B.Verified))
  {
    hide GetLe32, GetLe16, PutLe32, PutLe16, StringAt, Checksum;
  }

  lemma OldPaced(l: BootLink, base: nat, lib: Library, driver: B.Driver, lost: bool)
    requires BootInv(l, base, lib) && l.before != []
    ensures Paced(HandleOld(l, driver, lost))
  {
    hide Inv, AsSim, QueueOk, RecordOk, OutcomeOf, BootCalm, Granted;
  }

  lemma PacedHandles(l: BootLink, base: nat, lib: Library, driver: B.Driver, lost: bool)
    requires BootInv(l, base, lib) && Paced(l)
    ensures Paced(HandleStep(l, driver, lost))
  {
    hide BootInv, B.Handle, S.Numbered, Activated, Fits, Cramped;
    if l.before != [] {
      OldPaced(l, base, lib, driver, lost);
    } else if l.toBoot != [] {
      HandleFits(l, base, lib, driver);
      if l.asked.phase == U.Ending || l.asked.phase == U.Verifying {
        LateHead(l, base, lib, driver);
        LateHandled(l.boot, l.toBoot[0], driver);
      }
    }
  }

  // ----- The host accepts an answer -----

  lemma {:induction false} SiftHas(q: seq<Frame>, i: nat) returns (j: nat)
    requires i < |q| && !Negative(q[i])
    ensures j < |Sift(q)| && Sift(q)[j] == q[i]
  {
    if i == 0 {
      j := 0;
    } else {
      var k := SiftHas(q[1..], i - 1);
      j := if Negative(q[0]) then k else k + 1;
    }
  }

  /** The bootloader is where the request in flight finds it. */
  ghost predicate Awaiting(l: BootLink) {
    && (l.asked.phase == U.Ending ==> l.boot.stage == B.Receiving)
    && (l.asked.phase == U.Verifying ==> l.boot.stage == B.Transferred)
  }

  ghost predicate GrantFirst(l: BootLink) {
    l.running && U.Active(l.host.upgrade) && l.toHost != [] && IsLast(l, l.toHost[0]) && !Negative(l.toHost[0])
  }

  lemma AdvanceStage(l: BootLink, base: nat, lib: Library)
    requires BootInv(l, base, lib) && Paced(l) && GrantFirst(l) && l.asked.phase != U.Restarting
    requires ReplyOk(l.toHost[0], l.asked, Image(l).device)
    ensures var b := U.Build(Advanced(l.asked, Image(l).device)).0;
            && (b.phase == U.Ending ==> l.boot.stage == B.Receiving)
            && (b.phase == U.Verifying ==> l.boot.stage == B.Transferred)
  {
    BuildKeepsPhase(Advanced(l.asked, Image(l).device));
    InvIsSound(Image(l), base, lib);
    hide U.Build, RequestsOk, RepliesOk, Budgeted, Resumes, S.Consistent, HostOk, Question, Contents, QueueOk, Fits,
      S.Numbered, Negative;
  }

  /** The image of a grant at the head of the line is an answer at the head of the line. */
  lemma GrantImage(l: BootLink, base: nat, lib: Library)
    requires BootInv(l, base, lib) && GrantFirst(l)
    ensures var n := Image(l);
            && n.toHost == [l.toHost[0]] + Sift(l.toHost[1..]) && Current(n, n.toHost[0])
            && Sound(n.asked) && ReplyOk(n.toHost[0], n.asked, n.device)
  {
    hide Inv, AsSim, S.Numbered, ReplyOk, Sound, Refusal;
    CurrentReply(Image(l), base, lib, 0);
  }

  /** The line to the simulator takes the same answer. */
  lemma GrantStep(l: BootLink, base: nat, lib: Library, now: u64, queued: QueueStatus)
    requires BootInv(l, base, lib) && GrantFirst(l)
    ensures var (m, n) := (NextBoot(l, HostAccepts(now, queued)), Next(Image(l), HostReceives(now, queued)));
            && m.host == n.host && m.running == n.running && m.asked == n.asked && m.toBoot == n.toDevice
            && Sift(m.toHost) == n.toHost && m.toHost == l.toHost[1..] && m.boot == l.boot
  {
    hide Inv, AsSim, Receipt, S.Numbered, Negative;
  }

  /** The answer to the last request of an update completes it. */
  lemma GrantCompletes(l: BootLink, base: nat, lib: Library, now: u64, queued: QueueStatus)
    requires BootInv(l, base, lib) && GrantFirst(l) && l.asked.phase == U.Restarting
    ensures var m := NextBoot(l, HostAccepts(now, queued));
            m.host.upgrade.phase == U.Complete && m.asked.phase == U.Restarting
  {
    hide Inv, AsSim, ReceiveStep, S.Numbered, ReplyOk, Advanced, Sound, QueueOk, RecordOk, NextBoot, Sift;
    var n := Image(l);
    GrantImage(l, base, lib);
    GrantStep(l, base, lib, now, queued);
    AnswerKeeps(n, base, lib, now, queued);
    AnswerGoesTo(n, base, lib, now, queued);
    LastAsked(n, ReceiveStep(n, now, queued), base, lib);
  }

  /** Any other answer takes the update to its next request. */
  lemma GrantAsks(l: BootLink, base: nat, lib: Library, now: u64, queued: QueueStatus)
    requires BootInv(l, base, lib) && GrantFirst(l) && l.asked.phase != U.Restarting
    ensures var m := NextBoot(l, HostAccepts(now, queued));
            && m.asked == U.Build(Advanced(l.asked, Image(l).device)).0 && m.boot == l.boot
            && U.Active(m.host.upgrade) && m.running == (queued == Ok)
            && |m.toBoot| <= |l.toBoot| + 1 && m.toHost == l.toHost[1..]
            && m.host.session.stats.requests > l.host.session.stats.requests
            && (m.running ==> m.toBoot != [] && IsLast(m, m.toBoot[|m.toBoot| - 1]))
  {
    hide Inv, AsSim, ReceiveStep, S.Numbered, U.Build, ReplyOk, Advanced, Sound, QueueOk, RecordOk, NextBoot, Sift,
      BootCalm;
    GrantImage(l, base, lib);
    GrantStep(l, base, lib, now, queued);
    AnswerKeeps(Image(l), base, lib, now, queued);
  }

  /** Nothing on the line answers it yet. */
  lemma GrantIsNew(l: BootLink, base: nat, lib: Library, now: u64, queued: QueueStatus)
    requires BootInv(l, base, lib) && GrantFirst(l) && l.asked.phase != U.Restarting
    ensures !Granted(NextBoot(l, HostAccepts(now, queued)))
  {
    hide Inv, AsSim, ReceiveStep, S.Numbered, U.Build, ReplyOk, Advanced, Sound, QueueOk, RecordOk, NextBoot, Sift,
      BootCalm, Granted;
    var n, m := Image(l), NextBoot(l, HostAccepts(now, queued));
    GrantImage(l, base, lib);
    GrantStep(l, base, lib, now, queued);
    AnswerKeeps(n, base, lib, now, queued);
    var o := Next(n, HostReceives(now, queued));
    Q.NothingAnsweredYet(n, base, lib, o);
    GrantedIsAnswered(m, o);
  }

  lemma GrantAdvances(l: BootLink, base: nat, lib: Library, now: u64, queued: QueueStatus)
    requires BootInv(l, base, lib) && Paced(l) && GrantFirst(l) && l.asked.phase != U.Restarting
    ensures var m := NextBoot(l, HostAccepts(now, queued));
            && Awaiting(m) && (Rank(l.asked.phase) < 3 ==> Rank(m.asked.phase) <= 3)
            && Sound(l.asked) && Sound(m.asked) && U.RoundsLeft(m.asked) < U.RoundsLeft(l.asked)
  {
    hide Inv, AsSim, U.Build, ReplyOk, DeviceOk, Advanced, U.RoundsLeft, Sound, QueueOk, RecordOk, NextBoot, Paced,
      Sift, BootCalm, S.Numbered;
    var n := Image(l);
    GrantImage(l, base, lib);
    GrantAsks(l, base, lib, now, queued);
    AdvanceStage(l, base, lib);
    AdvanceRank(l.asked, n.device);
    Q.DeviceSuits(n, base, lib);
    AdvanceLeavesRounds(l.asked, n.device, l.toBoot, l.toHost[0]);
  }

  lemma AdvanceRank(a: U.State, d: Sim)
    ensures Rank(a.phase) < 3 ==> Rank(U.Build(Advanced(a, d)).0.phase) <= 3
  {
    BuildKeepsPhase(Advanced(a, d));
    hide U.Build;
  }

  lemma GrantedIsAnswered(m: BootLink, o: Link)
    requires m.host == o.host && Sift(m.toHost) == o.toHost
    ensures Granted(m) ==> exists i :: 0 <= i < |o.toHost| && Current(o, o.toHost[i])
  {
    hide S.Numbered, Negative, Sift;
    if i :| 0 <= i < |m.toHost| && IsLast(m, m.toHost[i]) && !Negative(m.toHost[i]) {
      var j := SiftHas(m.toHost, i);
      assert Current(o, o.toHost[j]);
    }
  }

  /** A frame that is no grant leaves the request as it is. */
  lemma OtherAccepted(l: BootLink, base: nat, lib: Library, now: u64, queued: QueueStatus)
    requires BootInv(l, base, lib) && !GrantFirst(l)
    ensures var m := NextBoot(l, HostAccepts(now, queued));
            && m.asked == l.asked && m.boot == l.boot && m.host.session.stats.requests == l.host.session.stats.requests
            && (m.toHost == l.toHost || (l.toHost != [] && m.toHost == l.toHost[1..]))
  {
    hide Inv, Receipt, AsSim, QueueOk, RecordOk, S.Consistent, S.Accept, S.Numbered, FinishUpgrade;
    if l.running && l.toHost != [] {
      var n, f := Image(l), l.toHost[0];
      HostWaits(n, base, lib);
      if U.Active(l.host.upgrade) {
        PendingIsLast(n, base, lib);
      }
      if Negative(f) {
        RefusalReceipt(l.host, l.asked, f, now, queued);
        FinishKeepsSession(Host(S.Accept(l.host.session, f).0, l.asked.(phase := U.Errored)));
      } else if U.Active(l.host.upgrade) {
        StaleReceipt(l.host, l.asked, f, now, queued);
      } else {
        IdleReceipt(l.host, l.asked, f, now, queued);
      }
    }
  }

  lemma IdleReceipt(h: Host, a: U.State, f: Frame, now: u64, queued: QueueStatus)
    requires !U.Active(h.upgrade)
    ensures var t := Receipt(h, a, f, now, queued);
            t.asked == a && t.host.session.stats.requests == h.session.stats.requests
  {
  }

  lemma GrantedBefore(l: BootLink, m: BootLink)
    requires m.host.session.stats.requests == l.host.session.stats.requests
    requires forall f :: f in m.toHost ==> f in l.toHost
    ensures Granted(m) ==> Granted(l)
  {
    hide S.Numbered, Negative;
    if i :| 0 <= i < |m.toHost| && IsLast(m, m.toHost[i]) && !Negative(m.toHost[i]) {
      assert m.toHost[i] in l.toHost;
    }
  }

  /** The host goes on to a request of the same session. */
  lemma FitsOn(a: U.State, b: U.State, u: Boot, activated: Option<Activation>, restarted: bool)
    requires |a.image| <= MAX_IMAGE && GoesOn(a, b, AsSim(a, u, activated, restarted))
    ensures Own(b, u) <==> Own(a, u)
    ensures Cramped(b, u) <==> Cramped(a, u)
  {
    hide Contents;
  }

  lemma PacedAccepts(l: BootLink, base: nat, lib: Library, now: u64, queued: QueueStatus)
    requires BootInv(l, base, lib) && Paced(l)
    ensures Paced(NextBoot(l, HostAccepts(now, queued)))
  {
    hide BootInv, Receipt, Granted, GrantFirst, Fits, Sound, U.RoundsLeft;
    var m := NextBoot(l, HostAccepts(now, queued));
    if GrantFirst(l) {
      GrantFits(l, base, lib, now, queued);
      if l.asked.phase == U.Restarting {
        GrantCompletes(l, base, lib, now, queued);
      } else {
        GrantAdvances(l, base, lib, now, queued);
        GrantAsks(l, base, lib, now, queued);
        GrantIsNew(l, base, lib, now, queued);
      }
    } else {
      OtherAccepted(l, base, lib, now, queued);
      GrantedBefore(l, m);
    }
  }

  lemma GrantFits(l: BootLink, base: nat, lib: Library, now: u64, queued: QueueStatus)
    requires BootInv(l, base, lib) && Fits(l.asked, l.boot) && GrantFirst(l)
    ensures var b := NextBoot(l, HostAccepts(now, queued)).asked;
            Fits(b, l.boot) && (Cramped(b, l.boot) <==> Cramped(l.asked, l.boot))
  {
    hide Inv, AsSim, QueueOk, RecordOk, Sound, ReplyOk, Cramped, NextBoot, ReceiveStep, S.Numbered, Advanced, U.Build,
      Own, GoesOn, Sift, BootCalm;
    var n, b := Image(l), NextBoot(l, HostAccepts(now, queued)).asked;
    GrantImage(l, base, lib);
    GrantStep(l, base, lib, now, queued);
    ReceiptGoesOn(n, base, lib, now, queued);
    FitsOn(l.asked, b, l.boot, l.activated, l.restarted);
    if l.asked.phase == U.Restarting {
      GrantCompletes(l, base, lib, now, queued);
    } else {
      AnswerKeeps(n, base, lib, now, queued);
      if Own(l.asked, l.boot) {
        GrantOffset(l);
      }
    }
  }

  /** An answer in or into the transfer puts the host where the bootloader is, and past it only at its end. */
  lemma GrantOffset(l: BootLink)
    requires |l.asked.image| <= MAX_IMAGE && Own(l.asked, l.boot)
    ensures var b := U.Build(Advanced(l.asked, Image(l).device)).0;
            && (Rank(b.phase) == 2 ==> b.offset == l.boot.nextOffset)
            && (Rank(l.asked.phase) < 3 <= Rank(b.phase) ==> l.boot.nextOffset == l.boot.imageSize)
  {
    BuildCounts(Advanced(l.asked, Image(l).device));
    BuildKeepsPhase(Advanced(l.asked, Image(l).device));
    hide U.Build, Contents, Sift;
  }

  lemma PacedExpires(l: BootLink, base: nat, lib: Library, now: u64, queued: QueueStatus)
    requires BootInv(l, base, lib) && Paced(l)
    ensures Paced(NextBoot(l, HostExpires(now, queued)))
  {
    hide Inv, AsSim, QueueOk, RecordOk, Expiry, Granted, Own, GoesOn;
    var m := NextBoot(l, HostExpires(now, queued));
    ExpiryGoesOn(Image(l), base, lib, now, queued);
    FitsOn(l.asked, m.asked, l.boot, l.activated, l.restarted);
    HostWaits(Image(l), base, lib);
    ExpiryAsks(l.host, l.asked, now, queued);
    if m.asked.phase == U.Ending {
      GrantedBefore(l, m);
    }
  }

  /** The timer changes the request only by recovering. */
  lemma ExpiryAsks(h: Host, a: U.State, now: u64, queued: QueueStatus)
    requires U.Active(h.upgrade) ==> h.upgrade == a
    ensures var t := Expiry(h, a, now, queued);
            && (t.asked == a || (t.asked.phase == U.Recovering && Rank(a.phase) == 2 && t.asked.offset == a.offset))
            && (t.asked.phase == U.Ending ==> t.host.session.stats.requests == h.session.stats.requests)
  {
    hide OnUpgradeTimeout;
    var s := S.Tick(h.session, now, queued).0;
    NoRecoveryNoRequest(h.(session := s), now, queued);
  }

  lemma PacedNext(l: BootLink, base: nat, lib: Library, step: BootStep)
    requires BootInv(l, base, lib) && Paced(l)
    ensures Paced(NextBoot(l, step))
  {
    hide BootInv;
    match step {
      case BootHandles(driver, lost) => PacedHandles(l, base, lib, driver, lost);
      case HostAccepts(now, queued) => PacedAccepts(l, base, lib, now, queued);
      case HostExpires(now, queued) => PacedExpires(l, base, lib, now, queued);
      case LoseToBoot(i) => GrantedBefore(l, NextBoot(l, step));
      case LoseFromBoot(i) => GrantedBefore(l, NextBoot(l, step));
    }
    hide Paced, Receipt, Expiry, HandleStep;
  }

  lemma {:induction false} PacedRun(l: BootLink, base: nat, lib: Library, steps: seq<BootStep>)
    requires BootInv(l, base, lib) && Paced(l)
    ensures BootInv(RunBoot(l, steps), base, lib) && Paced(RunBoot(l, steps))
    decreases |steps|
  {
    hide BootInv, NextBoot, Paced;
    if steps != [] {
      NextBootKeeps(l, base, lib, steps[0]);
      PacedNext(l, base, lib, steps[0]);
      PacedRun(NextBoot(l, steps[0]), base, lib, steps[1..]);
    }
  }

  // ----- A session that is too cramped stays so, and any other stays roomy -----

  lemma CrampedAccepts(l: BootLink, base: nat, lib: Library, now: u64, queued: QueueStatus)
    requires BootInv(l, base, lib) && Paced(l)
    ensures var m := NextBoot(l, HostAccepts(now, queued));
            m.boot == l.boot && m.before == l.before && (Cramped(m.asked, m.boot) <==> Cramped(l.asked, l.boot))
  {
    hide BootInv, Receipt, Granted, GrantFirst, Fits, Cramped;
    if GrantFirst(l) {
      GrantFits(l, base, lib, now, queued);
    } else {
      OtherAccepted(l, base, lib, now, queued);
    }
  }

  lemma CrampedExpires(l: BootLink, base: nat, lib: Library, now: u64, queued: QueueStatus)
    requires BootInv(l, base, lib)
    ensures var m := NextBoot(l, HostExpires(now, queued));
            m.boot == l.boot && m.before == l.before && (Cramped(m.asked, m.boot) <==> Cramped(l.asked, l.boot))
  {
    hide Inv, AsSim, QueueOk, RecordOk, Expiry, Cramped, GoesOn, BootCalm;
    var m := NextBoot(l, HostExpires(now, queued));
    ExpiryGoesOn(Image(l), base, lib, now, queued);
    FitsOn(l.asked, m.asked, l.boot, l.activated, l.restarted);
  }

  lemma CrampedStays(l: BootLink, base: nat, lib: Library, step: BootStep)
    requires BootInv(l, base, lib) && Paced(l) && l.before == []
    ensures var m := NextBoot(l, step); m.before == [] && (Cramped(m.asked, m.boot) <==> Cramped(l.asked, l.boot))
  {
    hide BootInv, Receipt, Expiry, OutcomeOf, Granted, Fits, Cramped;
    match step {
      case BootHandles(driver, lost) =>
        if l.toBoot != [] {
          HandleFits(l, base, lib, driver);
        }
      case HostAccepts(now, queued) => CrampedAccepts(l, base, lib, now, queued);
      case HostExpires(now, queued) => CrampedExpires(l, base, lib, now, queued);
      case _ =>
    }
  }

  // ----- A working flash grants what is asked -----

  function Working(size: nat): B.Driver {
    B.Driver(true, Zeros(size), true, _ => 0, _ => true, true)
  }

  /** The request in flight is all there is on the line, and finds the bootloader where it expects it. */
  ghost predicate Clean(l: BootLink, base: nat, lib: Library) {
    && BootInv(l, base, lib) && Paced(l) && Awaiting(l) && l.running && U.Active(l.host.upgrade)
    && !Cramped(l.asked, l.boot) && l.before == [] && |l.toBoot| == 1 && IsLast(l, l.toBoot[0]) && l.toHost == []
  }

  lemma WorkingStores(a: U.State, u: Boot, f: Frame)
    requires Sound(a) && a.phase == U.Transferring && Asks(f, a) && Own(a, u) && u.sessionId == a.sessionId
             && Fits(a, u) && !Cramped(a, u)
    requires u.flash[..u.nextOffset] == a.image[..u.nextOffset]
    requires u.nextOffset == a.offset || u.nextOffset == U.ChunkEnd(a, a.offset)
    ensures B.Handle(u, f, Working(|a.image|)).reply.kind != NACK
  {
    var end := U.ChunkEnd(a, a.offset);
    var data := a.image[a.offset..end];
    assert f.kind == FW_DATA && f.payload == U.DataPayload(a.sessionId, a.offset, data);
    DataFields(a.sessionId, a.offset, data);
    if u.nextOffset == end {
      PrefixSlice(u.flash, a.image, end, a.offset, end);
    }
    hide GetLe32, PutLe32, PutLe16, U.DataPayload, Splice, Checksum, Question;
  }

  /** Requests other than FW_BEGIN and FW_DATA. */
  lemma WorkingAnswers(a: U.State, u: Boot, f: Frame)
    requires Sound(a) && Asks(f, a) && a.phase != U.Beginning && a.phase != U.Transferring
    requires Rank(a.phase) >= 2 && a.phase != U.Restarting ==> Own(a, u) && u.sessionId == a.sessionId
    requires Rank(a.phase) >= 3 && a.phase != U.Restarting ==>
               u.nextOffset == |a.image| && u.flash[..u.nextOffset] == a.image
    requires a.phase == U.Ending ==> u.stage == B.Receiving
    requires a.phase == U.Verifying ==> u.stage == B.Transferred
    requires a.phase == U.Activating ==> u.stage == B.Verified
    ensures B.Handle(u, f, Working(|a.image|)).reply.kind != NACK
  {
    AsksKind(a);
    assert a.phase == U.Recovering ==> f.payload == PutLe32(a.sessionId);
    WordField(a.sessionId);
    hide GetLe32, PutLe32, PutLe16, Checksum, Question;
  }

  lemma WorkingGrants(l: BootLink, base: nat, lib: Library)
    requires Clean(l, base, lib)
    ensures Sound(l.asked) && OutcomeOf(l.boot, l.toBoot[0], Working(|l.asked.image|)).reply.kind != NACK
  {
    var a, u, f := l.asked, l.boot, l.toBoot[0];
    HeadIsOurs(l, base, lib);
    HeadRequest(l.toBoot, a, base, l.host.session.stats.requests);
    AsksKind(a);
    hide BootInv, B.Handle, Question, DeviceOk, AsSim, Open, S.Numbered;
    if Rank(a.phase) >= 2 && a.phase != U.Restarting {
      OpenIsOwn(a, u, l.activated, l.restarted, f, l.toBoot[1..]);
      assert a.image[..|a.image|] == a.image;
    }
    if a.phase == U.Beginning {
      BeginAsked(a, f);
      BootBegins(a, u, f, Working(|a.image|));
    } else if a.phase == U.Transferring {
      OffsetKnown(l, base, lib);
      WorkingStores(a, u, f);
    } else {
      WorkingAnswers(a, u, f);
    }
  }

  lemma BeginAsked(a: U.State, f: Frame)
    requires Sound(a) && a.phase == U.Beginning && Asks(f, a)
    ensures IsBegin(f, a)
  {
    hide PutLe32, PutLe16, Checksum;
  }

  lemma OffsetKnown(l: BootLink, base: nat, lib: Library)
    requires BootInv(l, base, lib) && l.asked.phase == U.Transferring
    ensures Own(l.asked, l.boot)
    ensures l.boot.nextOffset == l.asked.offset || l.boot.nextOffset == U.ChunkEnd(l.asked, l.asked.offset)
  {
    hide RequestsOk, RepliesOk, Budgeted, Resumes, S.Consistent, Contents, QueueOk, Checksum, HostOk, Sound;
  }

  /** One round trip: the bootloader grants the request, and the host makes the next one. */
  lemma CleanRound(l: BootLink, base: nat, lib: Library)
    requires Clean(l, base, lib)
    ensures Sound(l.asked)
    ensures var m := NextBoot(NextBoot(l, BootHandles(Working(|l.asked.image|), false)), HostAccepts(0, Ok));
            if l.asked.phase == U.Restarting then m.host.upgrade.phase == U.Complete
            else
              && Clean(m, base, lib) && (Rank(l.asked.phase) < 3 ==> Rank(m.asked.phase) <= 3)
              && Sound(m.asked) && U.RoundsLeft(m.asked) < U.RoundsLeft(l.asked)
  {
    hide BootInv, Paced, NextBoot, Sound, U.RoundsLeft, S.Numbered, Granted, Cramped;
    var handle := BootHandles(Working(|l.asked.image|), false);
    WorkingGrants(l, base, lib);
    GrantHandled(l, base, lib);
    var m := NextBoot(l, handle);
    RoundKeeps(l, base, lib, handle);
    RoundKeeps(m, base, lib, HostAccepts(0, Ok));
    if l.asked.phase == U.Restarting {
      GrantCompletes(m, base, lib, 0, Ok);
    } else {
      GrantAdvances(m, base, lib, 0, Ok);
      GrantAsks(m, base, lib, 0, Ok);
    }
  }

  lemma RoundKeeps(l: BootLink, base: nat, lib: Library, step: BootStep)
    requires BootInv(l, base, lib) && Paced(l) && l.before == [] && !Cramped(l.asked, l.boot)
    ensures var m := NextBoot(l, step);
            BootInv(m, base, lib) && Paced(m) && m.before == [] && !Cramped(m.asked, m.boot)
  {
    hide BootInv, Paced, NextBoot, Cramped;
    NextBootKeeps(l, base, lib, step);
    PacedNext(l, base, lib, step);
    CrampedStays(l, base, lib, step);
  }

  lemma GrantHandled(l: BootLink, base: nat, lib: Library)
    requires Clean(l, base, lib) && OutcomeOf(l.boot, l.toBoot[0], Working(|l.asked.image|)).reply.kind != NACK
    ensures var m := NextBoot(l, BootHandles(Working(|l.asked.image|), false));
            GrantFirst(m) && m.toBoot == [] && |m.toHost| == 1 && m.asked == l.asked
  {
    var u, f, driver := l.boot, l.toBoot[0], Working(|l.asked.image|);
    HeadIsOurs(l, base, lib);
    AnswerShape(u, f, driver);
    AnswerSequence(u, f, driver);
    hide BootInv, Paced, B.Handle, Sound, DeviceOk, S.Numbered, Granted, Negative;
  }

  lemma AnswerSequence(u: Boot, f: Frame, driver: B.Driver)
    ensures B.Handle(u, f, driver).reply.sequence == f.sequence
  {
    hide GetLe32, GetLe16, PutLe32, PutLe16, StringAt, Checksum;
  }

  lemma RunBootTwo(l: BootLink, a: BootStep, b: BootStep, rest: seq<BootStep>)
    ensures RunBoot(l, [a, b] + rest) == RunBoot(NextBoot(NextBoot(l, a), b), rest)
  {
    hide NextBoot;
    assert ([a, b] + rest)[1..] == [b] + rest && ([b] + rest)[1..] == rest;
    assert RunBoot(NextBoot(l, a), [b] + rest) == RunBoot(NextBoot(NextBoot(l, a), b), rest);
  }

  lemma {:induction false} RoundsComplete(l: BootLink, base: nat, lib: Library) returns (steps: seq<BootStep>)
    requires Clean(l, base, lib)
    ensures RunBoot(l, steps).host.upgrade.phase == U.Complete
    decreases assert Sound(l.asked) by { CleanRound(l, base, lib); } U.RoundsLeft(l.asked)
  {
    hide Clean, NextBoot, Sound, U.RoundsLeft;
    var handle := BootHandles(Working(|l.asked.image|), false);
    CleanRound(l, base, lib);
    var m := NextBoot(NextBoot(l, handle), HostAccepts(0, Ok));
    var rest := [];
    if l.asked.phase != U.Restarting {
      rest := RoundsComplete(m, base, lib);
    }
    RunBootTwo(l, handle, HostAccepts(0, Ok), rest);
    steps := [handle, HostAccepts(0, Ok)] + rest;
  }
}
