/** Which updates of the STM32 bootloader can still be completed, from every state of every run. */
module Stm32Completion {
  import opened Wire
  import opened Crc32
  import opened Driver
  import opened LossyLink
  import opened Resumption
  import opened LinkInvariant
  import opened LinkRuns
  import opened Simulator
  import opened Stm32Link
  import opened Stm32Runs
  import B = Stm32Update
  import Q = QuietLine
  import S = Session
  import U = Upgrade

  ghost predicate RetryLeft(l: BootLink) {
    l.host.session.pending.retriesDone < l.host.session.pending.policy.maxRetries
  }

  /** The request in flight is on its way to the bootloader. */
  ghost predicate Requested(l: BootLink) {
    exists i :: 0 <= i < |l.toBoot| && IsLast(l, l.toBoot[i])
  }

  /** The daemon still runs the update, and its request is on the line, granted, can be repeated, or can be
      followed by a recovery. */
  ghost predicate BootHopeful(l: BootLink) {
    && l.running && U.Active(l.host.upgrade)
    && (Requested(l) || Granted(l) || RetryLeft(l) || CanRecover(l.host.upgrade))
  }

  /** With some of the frames lost, and the flash behaving in some way, the others leave the bootloader
      without a cramped session. */
  ghost predicate Escapes(a: U.State, u: Boot, q: seq<Frame>)
    decreases |q|
  {
    if q == [] then !Cramped(a, u)
    else Escapes(a, u, q[1..]) || exists driver :: Escapes(a, OutcomeOf(u, q[0], driver).next, q[1..])
  }

  /** The update can get a session that takes its chunks. */
  ghost predicate Roomy(l: BootLink) {
    Escapes(l.asked, l.boot, l.before)
  }

  // ----- Runs -----

  lemma RunBootOne(l: BootLink, step: BootStep)
    ensures RunBoot(l, [step]) == NextBoot(l, step)
  {
    hide NextBoot;
    assert [step][1..] == [];
  }

  lemma {:induction false} RunBootOn(l: BootLink, a: seq<BootStep>, b: seq<BootStep>)
    ensures RunBoot(l, a + b) == RunBoot(RunBoot(l, a), b)
    decreases |a|
  {
    hide NextBoot;
    if a == [] {
      assert a + b == b;
    } else {
      RunBootOn(NextBoot(l, a[0]), a[1..], b);
      assert (a + b)[1..] == a[1..] + b;
    }
  }

  lemma {:induction false} Cleared(l: BootLink) returns (steps: seq<BootStep>)
    requires l.before == []
    ensures RunBoot(l, steps) == l.(toBoot := [], toHost := [])
    decreases |l.toBoot| + |l.toHost|
  {
    hide Receipt, Expiry, HandleStep;
    steps := [];
    if l.toBoot != [] || l.toHost != [] {
      var step := if l.toBoot != [] then LoseToBoot(0) else LoseFromBoot(0);
      var rest := Cleared(NextBoot(l, step));
      steps := [step] + rest;
      assert steps[1..] == rest;
    }
  }

  /** All frames are lost but one that is on its way to the bootloader. */
  lemma {:induction false} ClearedBut(l: BootLink, i: nat) returns (steps: seq<BootStep>)
    requires l.before == [] && i < |l.toBoot|
    ensures RunBoot(l, steps) == l.(toBoot := [l.toBoot[i]], toHost := [])
    decreases |l.toBoot| + |l.toHost|
  {
    hide Receipt, Expiry, HandleStep;
    steps := [];
    if i > 0 || |l.toBoot| > 1 || l.toHost != [] {
      var step := if i > 0 then LoseToBoot(0) else if |l.toBoot| > 1 then LoseToBoot(1) else LoseFromBoot(0);
      var rest := ClearedBut(NextBoot(l, step), if i > 0 then i - 1 else i);
      steps := [step] + rest;
      assert steps[1..] == rest;
    } else {
      assert l.toBoot == [l.toBoot[i]];
    }
  }

  // ----- Every update that is not stranded, and not too cramped, can be completed -----

  lemma RepeatsAlone(l: BootLink, base: nat, lib: Library)
    requires BootInv(l, base, lib) && l.running && U.Active(l.host.upgrade) && l.toBoot == [] && l.toHost == []
             && RetryLeft(l)
    ensures var m := NextBoot(l, HostExpires(l.host.session.pending.deadline, Ok));
            && m.running && m.host.upgrade == l.host.upgrade && m.asked == l.asked && m.boot == l.boot
            && |m.toBoot| == 1 && IsLast(m, m.toBoot[0]) && m.toHost == []
  {
    hide Inv, AsSim, QueueOk, RecordOk, Expiry, S.Numbered;
    Q.RetryEffect(Image(l), base, lib, l.host.session.pending.deadline);
  }

  lemma RecoversAlone(l: BootLink, base: nat, lib: Library)
    requires BootInv(l, base, lib) && l.running && U.Active(l.host.upgrade) && l.toBoot == [] && l.toHost == []
             && !RetryLeft(l) && CanRecover(l.host.upgrade)
    ensures var m := NextBoot(l, HostExpires(l.host.session.pending.deadline, Ok));
            && m.running && U.Active(m.host.upgrade) && m.asked.phase == U.Recovering && m.boot == l.boot
            && |m.toBoot| == 1 && IsLast(m, m.toBoot[0]) && m.toHost == []
  {
    hide Inv, AsSim, QueueOk, RecordOk, Expiry, S.Numbered, BootCalm, U.BeginRecovery;
    Q.RecoveryEffect(Image(l), base, lib, l.host.session.pending.deadline);
    HostWaits(Image(l), base, lib);
    InvIsSound(Image(l), base, lib);
    RecoveryBegins(l.asked);
    RecoveryGoesOn(l.asked);
  }

  /** All is in place for round trips, once the line is clear. */
  ghost predicate Placed(l: BootLink, base: nat, lib: Library) {
    && BootInv(l, base, lib) && Paced(l) && l.running && U.Active(l.host.upgrade)
    && !Cramped(l.asked, l.boot) && l.before == []
  }

  lemma {:induction false} PlacedRun(l: BootLink, base: nat, lib: Library, steps: seq<BootStep>)
    requires BootInv(l, base, lib) && Paced(l) && l.before == [] && !Cramped(l.asked, l.boot)
    ensures var m := RunBoot(l, steps);
            BootInv(m, base, lib) && Paced(m) && m.before == [] && !Cramped(m.asked, m.boot)
    decreases |steps|
  {
    hide BootInv, Paced, NextBoot, Cramped;
    if steps != [] {
      RoundKeeps(l, base, lib, steps[0]);
      PlacedRun(NextBoot(l, steps[0]), base, lib, steps[1..]);
    }
  }

  /** With the line cleared, the timer brings the request or a recovery, and round trips lead to the end. */
  lemma TimerCompletes(l: BootLink, base: nat, lib: Library) returns (steps: seq<BootStep>)
    requires Placed(l, base, lib) && Awaiting(l) && (RetryLeft(l) || CanRecover(l.host.upgrade))
    ensures RunBoot(l, steps).host.upgrade.phase == U.Complete
  {
    hide BootInv, Paced, NextBoot, RunBoot, S.Numbered, Cramped, CanRecover;
    var clearing := Cleared(l);
    PlacedRun(l, base, lib, clearing);
    var m, tick := RunBoot(l, clearing), HostExpires(l.host.session.pending.deadline, Ok);
    if RetryLeft(m) {
      RepeatsAlone(m, base, lib);
    } else {
      RecoversAlone(m, base, lib);
    }
    RoundKeeps(m, base, lib, tick);
    var rounds := RoundsComplete(NextBoot(m, tick), base, lib);
    RunBootOne(m, tick);
    RunBootOn(m, [tick], rounds);
    RunBootOn(l, clearing, [tick] + rounds);
    steps := clearing + ([tick] + rounds);
  }

  /** With nothing but the request on the line, round trips lead to the end. */
  lemma RequestCompletes(l: BootLink, base: nat, lib: Library) returns (steps: seq<BootStep>)
    requires Placed(l, base, lib) && Awaiting(l) && Requested(l)
    ensures RunBoot(l, steps).host.upgrade.phase == U.Complete
  {
    hide BootInv, Paced, RunBoot, S.Numbered, Cramped;
    var i :| 0 <= i < |l.toBoot| && IsLast(l, l.toBoot[i]);
    var clearing := ClearedBut(l, i);
    PlacedRun(l, base, lib, clearing);
    var rounds := RoundsComplete(RunBoot(l, clearing), base, lib);
    RunBootOn(l, clearing, rounds);
    steps := clearing + rounds;
  }

  /** A request that has just been numbered has all its retries left. */
  lemma FreshRetries(h: Host, a: U.State, f: Frame, now: u64, queued: QueueStatus)
    ensures var t := Receipt(h, a, f, now, queued);
            t.host.session.stats.requests > h.session.stats.requests ==>
              t.host.session.pending.retriesDone < t.host.session.pending.policy.maxRetries
  {
    hide U.Build, U.Accept;
  }

  lemma {:induction false} GrantedCompletes(l: BootLink, base: nat, lib: Library) returns (steps: seq<BootStep>)
    requires Placed(l, base, lib) && Granted(l)
    ensures RunBoot(l, steps).host.upgrade.phase == U.Complete
    decreases |l.toHost|
  {
    hide BootInv, Paced, NextBoot, S.Numbered, Negative, Sound, U.RoundsLeft, Awaiting, Cramped;
    var step := if GrantFirst(l) then HostAccepts(0, Ok) else LoseFromBoot(0);
    var m := NextBoot(l, step);
    RoundKeeps(l, base, lib, step);
    var rest := [];
    if !GrantFirst(l) {
      StillGranted(l);
      rest := GrantedCompletes(m, base, lib);
    } else if l.asked.phase == U.Restarting {
      GrantCompletes(l, base, lib, 0, Ok);
    } else {
      GrantAdvances(l, base, lib, 0, Ok);
      GrantAsks(l, base, lib, 0, Ok);
      RetriesAnew(l);
      rest := TimerCompletes(m, base, lib);
    }
    RunBootOne(l, step);
    RunBootOn(l, [step], rest);
    steps := [step] + rest;
  }

  lemma StillGranted(l: BootLink)
    requires Granted(l) && l.running && U.Active(l.host.upgrade) && !GrantFirst(l)
    ensures var m := NextBoot(l, LoseFromBoot(0));
            m == l.(toHost := m.toHost) && Granted(m) && |m.toHost| < |l.toHost|
  {
    hide S.Numbered, Negative;
    var i :| 0 <= i < |l.toHost| && IsLast(l, l.toHost[i]) && !Negative(l.toHost[i]);
    var m := NextBoot(l, LoseFromBoot(0));
    assert m.toHost[i - 1] == l.toHost[i];
    assert IsLast(m, m.toHost[i - 1]);
  }

  lemma RetriesAnew(l: BootLink)
    requires l.running && l.toHost != []
    requires NextBoot(l, HostAccepts(0, Ok)).host.session.stats.requests > l.host.session.stats.requests
    ensures RetryLeft(NextBoot(l, HostAccepts(0, Ok)))
  {
    hide Receipt;
    FreshRetries(l.host, l.asked, l.toHost[0], 0, Ok);
  }

  lemma PlacedCompletes(l: BootLink, base: nat, lib: Library) returns (more: seq<BootStep>)
    requires Placed(l, base, lib) && BootHopeful(l) && !Stranded(l)
    ensures RunBoot(l, more).host.upgrade.phase == U.Complete
  {
    hide BootInv, RunBoot, Fits, S.Numbered, Negative, Cramped, CanRecover;
    if Granted(l) {
      more := GrantedCompletes(l, base, lib);
    } else if Requested(l) {
      more := RequestCompletes(l, base, lib);
    } else {
      more := TimerCompletes(l, base, lib);
    }
  }

  /** What is left from before is lost or handled so that the update finds room. */
  lemma {:induction false} Unburdened(l: BootLink) returns (steps: seq<BootStep>)
    requires Roomy(l)
    ensures var m := RunBoot(l, steps); m == l.(before := [], boot := m.boot) && !Cramped(m.asked, m.boot)
    ensures l.before == [] ==> RunBoot(l, steps) == l
    decreases |l.before|
  {
    hide Receipt, Expiry, OutcomeOf, Cramped;
    steps := [];
    if l.before != [] {
      var step: BootStep;
      if Escapes(l.asked, l.boot, l.before[1..]) {
        step := LoseToBoot(0);
        assert Without(l.before, 0) == l.before[1..];
      } else {
        var driver :| Escapes(l.asked, OutcomeOf(l.boot, l.before[0], driver).next, l.before[1..]);
        step := BootHandles(driver, true);
      }
      var rest := Unburdened(NextBoot(l, step));
      steps := [step] + rest;
      assert steps[1..] == rest;
    }
  }

  lemma HopefulCompletes(l: BootLink, base: nat, lib: Library) returns (more: seq<BootStep>)
    requires BootInv(l, base, lib) && Paced(l) && BootHopeful(l) && !Stranded(l) && Roomy(l)
    ensures RunBoot(l, more).host.upgrade.phase == U.Complete
  {
    hide BootInv, RunBoot, Paced, S.Numbered, Negative, Cramped, CanRecover;
    var clearing := Unburdened(l);
    PacedRun(l, base, lib, clearing);
    var m := RunBoot(l, clearing);
    if l.before != [] {
      OldIsEntering(l, base, lib);
    }
    SameHope(l, m);
    var rest := PlacedCompletes(m, base, lib);
    RunBootOn(l, clearing, rest);
    more := clearing + rest;
  }

  lemma OldIsEntering(l: BootLink, base: nat, lib: Library)
    requires BootInv(l, base, lib) && l.before != []
    ensures l.asked.phase == U.Entering
  {
    hide Inv, AsSim, BootCalm;
  }

  lemma SameHope(l: BootLink, m: BootLink)
    requires m == l.(before := m.before, boot := m.boot) && BootHopeful(l)
    ensures BootHopeful(m)
  {
    hide S.Numbered, Negative, CanRecover;
    if Requested(l) {
      var i :| 0 <= i < |l.toBoot| && IsLast(l, l.toBoot[i]);
      assert IsLast(m, m.toBoot[i]);
    } else if Granted(l) {
      var i :| 0 <= i < |l.toHost| && IsLast(l, l.toHost[i]) && !Negative(l.toHost[i]);
      assert IsLast(m, m.toHost[i]);
    }
  }

  // ----- No other can -----

  lemma BootHopefulImage(l: BootLink)
    requires |l.asked.image| <= MAX_IMAGE
    ensures BootHopeful(l) <==> Q.Hopeful(Image(l))
  {
    hide AsSim, S.Numbered, Negative, CanRecover;
    var n := Image(l);
    if Requested(l) {
      var i :| 0 <= i < |l.toBoot| && IsLast(l, l.toBoot[i]);
      assert Current(n, n.toDevice[i]);
    }
    if Q.Asked(n) {
      var i :| 0 <= i < |n.toDevice| && Current(n, n.toDevice[i]);
      assert IsLast(l, l.toBoot[i]);
    }
    GrantedImage(l);
  }

  lemma GrantedImage(l: BootLink)
    requires |l.asked.image| <= MAX_IMAGE
    ensures Granted(l) <==> Q.Answered(Image(l))
  {
    hide AsSim, S.Numbered, Negative, Sift;
    var n := Image(l);
    if Granted(l) {
      var i :| 0 <= i < |l.toHost| && IsLast(l, l.toHost[i]) && !Negative(l.toHost[i]);
      var j := SiftHas(l.toHost, i);
      assert Current(n, n.toHost[j]);
    }
    if Q.Answered(n) {
      var j :| 0 <= j < |n.toHost| && Current(n, n.toHost[j]) && !Negative(n.toHost[j]);
      var i := SiftedFrom(l.toHost, j);
      assert IsLast(l, l.toHost[i]);
    }
  }

  lemma {:induction false} SiftedFrom(q: seq<Frame>, j: nat) returns (i: nat)
    requires j < |Sift(q)|
    ensures i < |q| && q[i] == Sift(q)[j]
  {
    if Negative(q[0]) {
      var k := SiftedFrom(q[1..], j);
      i := k + 1;
    } else if j == 0 {
      i := 0;
    } else {
      var k := SiftedFrom(q[1..], j - 1);
      i := k + 1;
    }
  }

  ghost predicate BootHopeless(l: BootLink) {
    l.host.upgrade.phase != U.Complete && !BootHopeful(l)
  }

  /** No step brings hope back: the line to the simulator makes the same step, or loses a frame. */
  lemma HopelessShared(l: BootLink, m: BootLink, base: nat, lib: Library, step: Step)
    requires BootInv(l, base, lib) && BootHopeless(l)
    requires |m.asked.image| <= MAX_IMAGE && Image(m) == Next(Image(l), step)
    ensures BootHopeless(m)
  {
    hide Inv, AsSim, QueueOk, RecordOk, BootCalm, BootHopeful, Q.Hopeful, Next;
    BootHopefulImage(l);
    BootHopefulImage(m);
    Q.HopelessStays(Image(l), base, lib, step);
  }

  /** Nor does one that brings nothing of the request to the line. */
  lemma HopelessSame(l: BootLink, m: BootLink)
    requires BootHopeless(l) && m.toBoot == l.toBoot && m.running == l.running && m.host.upgrade == l.host.upgrade
    requires m.host.session.pending == l.host.session.pending
    requires m.host.session.stats.requests == l.host.session.stats.requests
    requires forall f :: f in m.toHost ==> f in l.toHost || !IsLast(m, f)
    ensures BootHopeless(m)
  {
    hide S.Numbered, Negative, CanRecover;
    if Requested(m) {
      var i :| 0 <= i < |m.toBoot| && IsLast(m, m.toBoot[i]);
      assert IsLast(l, l.toBoot[i]);
    }
    if i :| 0 <= i < |m.toHost| && IsLast(m, m.toHost[i]) && !Negative(m.toHost[i]) {
      assert m.toHost[i] in l.toHost;
    }
  }

  lemma HopelessHandles(l: BootLink, base: nat, lib: Library, driver: B.Driver, lost: bool)
    requires BootInv(l, base, lib) && BootHopeless(l) && l.before == [] && l.toBoot != []
    ensures BootHopeless(HandleStep(l, driver, lost))
  {
    hide Inv, DeviceOk, AsSim, QueueOk, RecordOk, OutcomeOf, Handle, Sound, Refines, InOrder, RequestOk, NeedsMemory,
      Next, BootHopeless;
    var f, u := l.toBoot[0], l.boot;
    HeadIsOurs(l, base, lib);
    RefinesRequest(l.asked, u, l.activated, l.restarted, f, l.toBoot[1..], driver);
    AnswerShape(u, f, driver);
    OutcomeSame(u, f, driver);
    RefinedStep(l, driver, lost);
    var step := if OutcomeOf(u, f, driver).reply.kind == NACK then LoseToDevice(0)
                else DeviceHandles(DeviceEnv(ZEROED, false, f), lost);
    HopelessShared(l, HandleStep(l, driver, lost), base, lib, step);
  }

  lemma HopelessOld(l: BootLink, base: nat, lib: Library, driver: B.Driver, lost: bool)
    requires BootInv(l, base, lib) && BootHopeless(l) && l.before != []
    ensures BootHopeless(HandleOld(l, driver, lost))
  {
    hide Inv, AsSim, RecordOk, OutcomeOf, QueueOk, BootCalm, BootHopeless, Foreign, S.Numbered;
    NumberedForeign(Image(l), base, lib, l.before[0].sequence);
    OldNumber(l.boot, l.before[0], driver);
    HopelessSame(l, HandleOld(l, driver, lost));
  }

  lemma NumberedForeign(n: Link, base: nat, lib: Library, sequence: u32)
    requires Inv(n, base, lib)
    ensures Foreign(sequence, base) ==> sequence != S.Numbered(KeptRequests(n, base, lib))
  {
    NumbersDoNotRepeat(n.asked, n.host.session.stats.requests - base);
    hide Sound, DeviceOk, HostOk, RepliesOk, RequestsOk, S.Consistent, Resumes, S.Numbered;
  }

  lemma HopelessRefused(l: BootLink, base: nat, lib: Library, now: u64, queued: QueueStatus)
    requires BootInv(l, base, lib) && BootHopeless(l) && l.running && l.toHost != [] && Negative(l.toHost[0])
    ensures BootHopeless(NextBoot(l, HostAccepts(now, queued)))
  {
    hide Inv, Receipt, AsSim, QueueOk, RecordOk, FinishUpgrade, S.Consistent, S.Accept, BootCalm, Requested, Granted,
      CanRecover;
    var f, m := l.toHost[0], NextBoot(l, HostAccepts(now, queued));
    HostWaits(Image(l), base, lib);
    RefusalReceipt(l.host, l.asked, f, now, queued);
    if U.Active(l.host.upgrade) && f.sequence == l.host.session.pending.frame.sequence {
      FinishKeepsSession(Host(S.Accept(l.host.session, f).0, l.asked.(phase := U.Errored)));
    } else {
      HopelessSame(l, m);
    }
  }

  lemma HopelessAccepts(l: BootLink, base: nat, lib: Library, now: u64, queued: QueueStatus)
    requires BootInv(l, base, lib) && BootHopeless(l)
    ensures BootHopeless(NextBoot(l, HostAccepts(now, queued)))
  {
    hide BootInv, Receipt, BootHopeless, Negative;
    if l.running && l.toHost != [] {
      if Negative(l.toHost[0]) {
        HopelessRefused(l, base, lib, now, queued);
      } else {
        HopelessAnswered(l, base, lib, now, queued);
      }
    }
  }

  lemma HopelessAnswered(l: BootLink, base: nat, lib: Library, now: u64, queued: QueueStatus)
    requires BootInv(l, base, lib) && BootHopeless(l) && l.running && l.toHost != [] && !Negative(l.toHost[0])
    ensures BootHopeless(NextBoot(l, HostAccepts(now, queued)))
  {
    hide Inv, Receipt, AsSim, QueueOk, RecordOk, BootCalm, GoesOn, Negative, BootHopeless;
    assert Sift(l.toHost) == [l.toHost[0]] + Sift(l.toHost[1..]);
    var m := NextBoot(l, HostAccepts(now, queued));
    ReceiptGoesOn(Image(l), base, lib, now, queued);
    AsSimKept(l.asked, m.asked, l.boot, l.activated, l.restarted);
    HopelessShared(l, m, base, lib, HostReceives(now, queued));
  }

  lemma HopelessExpires(l: BootLink, base: nat, lib: Library, now: u64, queued: QueueStatus)
    requires BootInv(l, base, lib) && BootHopeless(l)
    ensures BootHopeless(NextBoot(l, HostExpires(now, queued)))
  {
    hide Inv, Expiry, AsSim, QueueOk, RecordOk, BootCalm, GoesOn, BootHopeless, Sift;
    var m := NextBoot(l, HostExpires(now, queued));
    ExpiryGoesOn(Image(l), base, lib, now, queued);
    AsSimKept(l.asked, m.asked, l.boot, l.activated, l.restarted);
    HopelessShared(l, m, base, lib, HostTicks(now, queued));
  }

  lemma HopelessLoses(l: BootLink, base: nat, lib: Library, i: nat)
    requires BootInv(l, base, lib) && BootHopeless(l)
    ensures BootHopeless(NextBoot(l, LoseToBoot(i))) && BootHopeless(NextBoot(l, LoseFromBoot(i)))
  {
    hide Inv, AsSim, QueueOk, RecordOk, BootCalm, BootHopeless, S.Numbered, Sift;
    if i < |l.before| {
      HopelessSame(l, NextBoot(l, LoseToBoot(i)));
    } else {
      HopelessShared(l, NextBoot(l, LoseToBoot(i)), base, lib, LoseToDevice(i - |l.before|));
    }
    HopelessSame(l, NextBoot(l, LoseFromBoot(i)));
  }

  lemma HopelessNext(l: BootLink, base: nat, lib: Library, step: BootStep)
    requires BootInv(l, base, lib) && BootHopeless(l)
    ensures BootHopeless(NextBoot(l, step))
  {
    hide BootInv, BootHopeless, OutcomeOf, Receipt, Expiry;
    match step {
      case BootHandles(driver, lost) =>
        if l.before != [] {
          HopelessOld(l, base, lib, driver, lost);
        } else if l.toBoot != [] {
          HopelessHandles(l, base, lib, driver, lost);
        }
      case HostAccepts(now, queued) => HopelessAccepts(l, base, lib, now, queued);
      case HostExpires(now, queued) => HopelessExpires(l, base, lib, now, queued);
      case LoseToBoot(i) => HopelessLoses(l, base, lib, i);
      case LoseFromBoot(i) => HopelessLoses(l, base, lib, i);
    }
  }

  // ----- A session that is too cramped for good -----

  lemma {:induction false} EscapesWithout(a: U.State, u: Boot, q: seq<Frame>, i: nat)
    requires Escapes(a, u, Without(q, i))
    ensures Escapes(a, u, q)
    decreases |q|
  {
    hide OutcomeOf, Cramped;
    if 0 < i < |q| {
      var r := Without(q, i);
      assert r[1..] == Without(q[1..], i - 1) && r[0] == q[0];
      if Escapes(a, u, r[1..]) {
        EscapesWithout(a, u, q[1..], i - 1);
      } else {
        var driver :| Escapes(a, OutcomeOf(u, r[0], driver).next, r[1..]);
        EscapesWithout(a, OutcomeOf(u, q[0], driver).next, q[1..], i - 1);
      }
    } else if i == 0 && q != [] {
      assert Without(q, 0) == q[1..];
    }
  }

  lemma CrampedIsBehind(l: BootLink, base: nat, lib: Library)
    requires BootInv(l, base, lib) && Paced(l) && !Roomy(l)
    ensures l.host.upgrade.phase != U.Complete
  {
    hide Sound, DeviceOk, RequestsOk, RepliesOk, Budgeted, Resumes, S.Consistent, AsSim, QueueOk, RecordOk, BootCalm,
      Granted;
  }

  /** No step makes room. */
  lemma CrampedNext(l: BootLink, base: nat, lib: Library, step: BootStep)
    requires BootInv(l, base, lib) && Paced(l) && !Roomy(l)
    ensures !Roomy(NextBoot(l, step))
  {
    hide BootInv, Paced, OutcomeOf, Receipt, Expiry, Cramped;
    if l.before == [] {
      CrampedStays(l, base, lib, step);
    } else {
      OldIsEntering(l, base, lib);
      match step {
        case LoseToBoot(i) =>
          if Roomy(NextBoot(l, step)) && i < |l.before| {
            EscapesWithout(l.asked, l.boot, l.before, i);
          }
        case HostAccepts(now, queued) => OldAsks(l, base, lib, step);
        case HostExpires(now, queued) => OldAsks(l, base, lib, step);
        case _ =>
      }
    }
  }

  /** While frames from before are left, the host goes on asking to enter. */
  lemma OldAsks(l: BootLink, base: nat, lib: Library, step: BootStep)
    requires BootInv(l, base, lib) && l.before != [] && (step.HostAccepts? || step.HostExpires?)
    ensures var m := NextBoot(l, step); m.asked == l.asked && m.boot == l.boot && m.before == l.before
  {
    hide Inv, AsSim, QueueOk, RecordOk, BootCalm, Foreign, Receipt, Expiry;
    var n := Image(l);
    HostWaits(n, base, lib);
    match step {
      case HostAccepts(now, queued) =>
        if l.running && l.toHost != [] {
          NumberedForeign(n, base, lib, l.toHost[0].sequence);
          assert !GrantFirst(l);
          OtherAccepted(l, base, lib, now, queued);
        }
      case HostExpires(now, queued) => EnteringExpires(l.host, l.asked, now, queued);
    }
  }

  lemma {:induction false} CrampedNeverCompletes(l: BootLink, base: nat, lib: Library, steps: seq<BootStep>)
    requires BootInv(l, base, lib) && Paced(l) && !Roomy(l)
    ensures RunBoot(l, steps).host.upgrade.phase != U.Complete
    decreases |steps|
  {
    hide BootInv, Paced, NextBoot, Roomy;
    if steps == [] {
      CrampedIsBehind(l, base, lib);
    } else {
      NextBootKeeps(l, base, lib, steps[0]);
      PacedNext(l, base, lib, steps[0]);
      CrampedNext(l, base, lib, steps[0]);
      CrampedNeverCompletes(NextBoot(l, steps[0]), base, lib, steps[1..]);
    }
  }

  lemma {:induction false} HopelessNeverCompletes(l: BootLink, base: nat, lib: Library, steps: seq<BootStep>)
    requires BootInv(l, base, lib) && BootHopeless(l)
    ensures RunBoot(l, steps).host.upgrade.phase != U.Complete
    decreases |steps|
  {
    hide BootInv, NextBoot, BootHopeful;
    if steps != [] {
      NextBootKeeps(l, base, lib, steps[0]);
      HopelessNext(l, base, lib, steps[0]);
      HopelessNeverCompletes(NextBoot(l, steps[0]), base, lib, steps[1..]);
    }
  }

  // ----- Exactly which updates can still be completed -----

  lemma NeverUnless(l: BootLink, base: nat, lib: Library, more: seq<BootStep>)
    requires BootInv(l, base, lib) && Paced(l) && l.host.upgrade.phase != U.Complete
    requires !BootHopeful(l) || Stranded(l) || !Roomy(l)
    ensures RunBoot(l, more).host.upgrade.phase != U.Complete
  {
    hide BootInv, Paced, RunBoot, BootHopeful, Stranded, Roomy;
    if !Roomy(l) {
      CrampedNeverCompletes(l, base, lib, more);
    } else if Stranded(l) {
      StrandedNeverCompletes(l, base, lib, more);
    } else {
      HopelessNeverCompletes(l, base, lib, more);
    }
  }

  /** From any point of any run of the daemon's driver with the bootloader, whatever was on the line when the
      update began, whatever has been lost since and however the flash has failed: some continuation completes
      the update if and only if the daemon still runs it and its request is on the line, granted, can be
      repeated or can be followed by a recovery; it is not stranded by a lost answer; and it can get a session
      that takes its chunks. */
  lemma CompletableExactly(x: BootSetting, steps: seq<BootStep>)
    requires BootLaunchable(x)
    ensures var l := RunBoot(LaunchBoot(x), steps);
            l.host.upgrade.phase != U.Complete ==>
              ((exists more :: RunBoot(l, more).host.upgrade.phase == U.Complete) <==>
               BootHopeful(l) && !Stranded(l) && Roomy(l))
  {
    hide BootInv, RunBoot, BootLaunchable, LaunchBoot, Paced, BootHopeful, Stranded, Roomy;
    var l, base, lib := RunBoot(LaunchBoot(x), steps), x.session.stats.requests, Only(x.update);
    LaunchBootEstablishes(x);
    PacedAtLaunch(x);
    PacedRun(LaunchBoot(x), base, lib, steps);
    if l.host.upgrade.phase != U.Complete {
      if BootHopeful(l) && !Stranded(l) && Roomy(l) {
        var more := HopefulCompletes(l, base, lib);
      } else {
        forall more
          ensures RunBoot(l, more).host.upgrade.phase != U.Complete
        {
          NeverUnless(l, base, lib, more);
        }
      }
    }
  }

  lemma PacedAtLaunch(x: BootSetting)
    requires BootLaunchable(x)
    ensures Paced(LaunchBoot(x))
  {
    hide QueueRequest, FailUpgrade, Granted, BootCalm;
  }

  lemma LaunchHopes(x: BootSetting)
    requires BootLaunchable(x) && x.queued == Ok
    ensures var l := LaunchBoot(x);
            && l.running && U.Active(l.host.upgrade) && BootHopeful(l) && l.asked.phase == U.Entering
            && l.before == x.before && l.boot == x.boot
  {
    StartConsistent(x.session);
    QueueNumbers(Host(S.Transition(x.session, S.StartUpgrade).0, x.update), x.now, Ok);
    BuildKeepsPhase(x.update);
    var l := LaunchBoot(x);
    assert IsLast(l, l.toBoot[0]);
    hide QueueRequest, S.Transition, U.Build, S.Numbered, Checksum, BootCalm, CanRecover, Granted;
  }

  /** An update whose first request is queued can be completed if and only if it can get a session that takes
      its chunks: with nothing from before on the line, unless the bootloader would resume a session that takes
      only smaller ones and has more than one of them to come. */
  lemma LaunchCompletable(x: BootSetting)
    requires BootLaunchable(x) && x.queued == Ok
    ensures (exists steps :: RunBoot(LaunchBoot(x), steps).host.upgrade.phase == U.Complete) <==>
              Escapes(x.update, x.boot, x.before)
    ensures x.before == [] ==> (Escapes(x.update, x.boot, x.before) <==> !Cramped(x.update, x.boot))
  {
    hide RunBoot, BootLaunchable, BootHopeful;
    assert x.before == [] ==> (Escapes(x.update, x.boot, x.before) <==> !Cramped(x.update, x.boot));
    hide Escapes;
    LaunchHopes(x);
    var l := LaunchBoot(x);
    assert RunBoot(l, []) == l by { RunBootNone(l); }
    CompletableExactly(x, []);
    LaunchAsked(x);
    hide LaunchBoot;
  }

  lemma RunBootNone(l: BootLink)
    ensures RunBoot(l, []) == l
  {
  }

  lemma LaunchAsked(x: BootSetting)
    ensures LaunchBoot(x).asked == x.update
  {
    hide QueueRequest, FailUpgrade;
  }

  // ----- A client's smaller chunks -----

  const IDLE: Boot := B.State(B.Idle, 1, 0, 0, 0, 0, [], [])

  lemma SmallSession(a: U.State, chunk: u16, f: Frame)
    requires Sound(a) && a.phase == U.Entering && 0 < chunk < a.chunkSize && chunk < |a.image|
    requires IsBegin(f, a.(chunkSize := chunk))
    ensures var u := OutcomeOf(IDLE, f, Working(|a.image|)).next; Cramped(a, u) && BootShelved(a, u)
  {
    BootBegins(a.(chunkSize := chunk), IDLE, f, Working(|a.image|));
    hide B.Handle, Sound, SessionReport, U.BeginPayload;
  }

  /** A client's own FW_BEGIN for the image of an update, with a smaller chunk size, makes the bootloader refuse
      every chunk of the update that comes after it: it resumes the session without comparing chunk sizes. */
  lemma SmallerChunksBlock(session: S.State, update: U.State, chunk: u16, f: Frame, now: u64, steps: seq<BootStep>)
    requires S.Consistent(session) && !session.pending.active
    requires Sound(update) && update.phase == U.Entering && update.chunksSent == 0
    requires 0 < chunk < update.chunkSize && chunk < |update.image| && IsBegin(f, update.(chunkSize := chunk))
    ensures var u := OutcomeOf(IDLE, f, Working(|update.image|)).next;
            var x := BootSetting(session, update, u, [], [], now, Ok);
            BootLaunchable(x) && RunBoot(LaunchBoot(x), steps).host.upgrade.phase != U.Complete
  {
    var u := OutcomeOf(IDLE, f, Working(|update.image|)).next;
    var x := BootSetting(session, update, u, [], [], now, Ok);
    SmallSession(update, chunk, f);
    assert BootLaunchable(x) by { hide OutcomeOf, BootShelved, S.Consistent, Cramped, IsBegin; }
    hide OutcomeOf, BootLaunchable, RunBoot, Cramped, IsBegin;
    LaunchCompletable(x);
  }

  /** A concrete one: an image of two bytes, in a session that takes one at a time. */
  lemma SmallerChunksInput(now: u64, steps: seq<BootStep>)
    ensures var image: seq<byte> := [0, 0];
            var update := U.INITIAL.(phase := U.Entering, image := image, imageCrc := Checksum(image),
                                     version := [0x31], chunkSize := 1024);
            var f := Frame(FW_BEGIN, FLAG_ACK_REQUIRED, 1, U.BeginPayload(update.(chunkSize := 1)));
            var u := OutcomeOf(IDLE, f, Working(2)).next;
            var x := BootSetting(S.INITIAL, update, u, [], [], now, Ok);
            BootLaunchable(x) && RunBoot(LaunchBoot(x), steps).host.upgrade.phase != U.Complete
  {
    hide OutcomeOf, BootLaunchable, RunBoot, U.BeginPayload, LaunchBoot, Checksum;
    var image: seq<byte> := [0, 0];
    var update := U.INITIAL.(phase := U.Entering, image := image, imageCrc := Checksum(image), version := [0x31],
                             chunkSize := 1024);
    var f := Frame(FW_BEGIN, FLAG_ACK_REQUIRED, 1, U.BeginPayload(update.(chunkSize := 1)));
    SmallerChunksBlock(S.INITIAL, update, 1, f, now, steps);
  }

  // ----- A run that is stranded -----

  lemma {:induction false} ReachesEnding(l: BootLink, base: nat, lib: Library) returns (steps: seq<BootStep>)
    requires Clean(l, base, lib) && Rank(l.asked.phase) <= 3
    ensures var m := RunBoot(l, steps); Clean(m, base, lib) && m.asked.phase == U.Ending
    decreases assert Sound(l.asked) by { CleanRound(l, base, lib); } U.RoundsLeft(l.asked)
  {
    hide Clean, NextBoot, Sound, U.RoundsLeft;
    steps := [];
    if Rank(l.asked.phase) < 3 {
      var handle := BootHandles(Working(|l.asked.image|), false);
      CleanRound(l, base, lib);
      var rest := ReachesEnding(NextBoot(NextBoot(l, handle), HostAccepts(0, Ok)), base, lib);
      RunBootTwo(l, handle, HostAccepts(0, Ok), rest);
      steps := [handle, HostAccepts(0, Ok)] + rest;
    } else {
      CleanIsActive(l, base, lib);
    }
  }

  lemma CleanIsActive(l: BootLink, base: nat, lib: Library)
    requires Clean(l, base, lib)
    ensures l.asked.phase == U.Entering || Rank(l.asked.phase) >= 1
  {
    InvIsSound(Image(l), base, lib);
    hide Inv, AsSim, QueueOk, RecordOk, BootCalm, Paced;
  }

  /** Losing the answer to FW_END strands an update that was going well. */
  lemma EndingStrands(l: BootLink, base: nat, lib: Library)
    requires Clean(l, base, lib) && l.asked.phase == U.Ending
    ensures Stranded(NextBoot(l, BootHandles(Working(|l.asked.image|), true)))
  {
    hide BootInv, Paced, OutcomeOf, S.Numbered, Cramped, B.Handle;
    WorkingGrants(l, base, lib);
    LastKind(l, base, lib);
    OutcomeSame(l.boot, l.toBoot[0], Working(|l.asked.image|));
    LateHandled(l.boot, l.toBoot[0], Working(|l.asked.image|));
  }

  /** From any start whose first request is queued, and that finds room, there is a run in which the answer to
      FW_END is lost and the update stranded. */
  lemma StrandedReached(x: BootSetting) returns (steps: seq<BootStep>)
    requires BootLaunchable(x) && x.queued == Ok && Escapes(x.update, x.boot, x.before)
    ensures Stranded(RunBoot(LaunchBoot(x), steps))
  {
    hide BootInv, RunBoot, BootLaunchable, Paced, LaunchBoot, NextBoot, Cramped, Escapes, Stranded;
    var l, base, lib := LaunchBoot(x), x.session.stats.requests, Only(x.update);
    LaunchBootEstablishes(x);
    PacedAtLaunch(x);
    LaunchHopes(x);
    LaunchAsked(x);
    var clearing := Unburdened(l);
    PacedRun(l, base, lib, clearing);
    var m := RunBoot(l, clearing);
    var i := LaunchRequests(x);
    var alone := ClearedBut(m, i);
    PlacedRun(m, base, lib, alone);
    var n := RunBoot(m, alone);
    assert Clean(n, base, lib) by { hide S.Numbered; }
    var rounds := ReachesEnding(n, base, lib);
    var o := RunBoot(n, rounds);
    EndingStrands(o, base, lib);
    var last := BootHandles(Working(|o.asked.image|), true);
    RunBootOne(o, last);
    RunBootOn(n, rounds, [last]);
    RunBootOn(m, alone, rounds + [last]);
    RunBootOn(l, clearing, alone + (rounds + [last]));
    steps := clearing + (alone + (rounds + [last]));
  }

  lemma LaunchRequests(x: BootSetting) returns (i: nat)
    requires BootLaunchable(x) && x.queued == Ok
    ensures i < |LaunchBoot(x).toBoot| && IsLast(LaunchBoot(x), LaunchBoot(x).toBoot[i])
  {
    StartConsistent(x.session);
    QueueNumbers(Host(S.Transition(x.session, S.StartUpgrade).0, x.update), x.now, Ok);
    hide QueueRequest, S.Transition, U.Build, S.Numbered, Checksum, BootCalm;
    i := 0;
  }
}
