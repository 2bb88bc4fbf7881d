/** Which updates can still be completed: from every state of every run, whether the line loses
    nothing from there on, or may go on losing frames. */
module QuietLine {
  import opened Wire
  import opened Simulator
  import opened Driver
  import opened LossyLink
  import opened Resumption
  import opened LinkInvariant
  import opened LinkRuns
  import S = Session
  import U = Upgrade

  /** A step in which no frame is lost, memory is there and the output buffer has room. */
  predicate Harmless(step: Step) {
    match step
    case DeviceHandles(env, lost) => !lost && env.heap.Memory?
    case DeviceReports(_) => true
    case HostReceives(_, queued) => queued == Ok
    case HostTicks(_, queued) => queued == Ok
    case _ => false
  }

  ghost predicate Lossless(steps: seq<Step>) {
    forall i :: 0 <= i < |steps| ==> Harmless(steps[i])
  }

  /** The request in flight is on its way to the device. */
  ghost predicate Asked(l: Link) {
    exists i :: 0 <= i < |l.toDevice| && Current(l, l.toDevice[i])
  }

  /** An answer to it, other than a refusal, is on its way to the host. */
  ghost predicate Answered(l: Link) {
    exists i :: 0 <= i < |l.toHost| && Current(l, l.toHost[i]) && !Negative(l.toHost[i])
  }

  ghost predicate OnLine(l: Link) {
    Asked(l) || Answered(l)
  }

  ghost predicate RefusedAt(l: Link, i: nat) {
    && i < |l.toHost| && Current(l, l.toHost[i]) && Negative(l.toHost[i])
    && forall j :: 0 <= j < i ==> !Current(l, l.toHost[j])
  }

  /** The first answer that the host will see is a refusal. */
  ghost predicate Refused(l: Link) {
    exists i :: RefusedAt(l, i)
  }

  ghost predicate RetryLeft(l: Link) {
    l.host.session.pending.retriesDone < l.host.session.pending.policy.maxRetries
  }

  /** The daemon still runs the update, and its request is on the line, can be repeated, or can be
      followed by a recovery. */
  ghost predicate Hopeful(l: Link) {
    l.running && U.Active(l.host.upgrade) && (OnLine(l) || RetryLeft(l) || CanRecover(l.host.upgrade))
  }

  // ----- Runs -----

  lemma {:induction false} RunAppend(l: Link, a: seq<Step>, b: seq<Step>)
    ensures Run(l, a + b) == Run(Run(l, a), b)
    decreases |a|
  {
    hide Next;
    if a == [] {
      assert a + b == b;
    } else {
      assert (a + b)[1..] == a[1..] + b;
      RunAppend(Next(l, a[0]), a[1..], b);
    }
  }

  lemma RunOne(l: Link, step: Step)
    ensures Run(l, [step]) == Next(l, step)
  {
    hide Next;
    assert [step][1..] == [];
  }

  // ----- A line that loses nothing does its work -----

  /** The update waits for an answer that can reach it. */
  ghost predicate Waits(l: Link) {
    l.running && U.Active(l.host.upgrade) && OnLine(l) && !Refused(l)
  }

  /** What is left to do: the rounds of the update, a frame each way, and what is on the line. */
  function Work(l: Link): nat
    requires Sound(l.asked)
  {
    2 * U.RoundsLeft(l.asked) + 2 * |l.toDevice| + |l.toHost|
  }

  /** A step that moves a frame on. */
  predicate Productive(l: Link, step: Step) {
    match step
    case DeviceHandles(_, _) => l.toDevice != []
    case HostReceives(_, _) => l.running && l.toHost != []
    case _ => false
  }

  /** What a step can add to the work: a report, or a request sent again. */
  function Burden(step: Step): nat {
    match step
    case DeviceReports(_) => 1
    case HostTicks(_, _) => 2
    case _ => 0
  }

  /** m is where a step leads from l: to the end, or on with no less done than the step did. */
  ghost predicate Worked(l: Link, m: Link, base: nat, lib: Library, step: Step)
    requires Inv(l, base, lib)
  {
    && Inv(m, base, lib)
    && (|| m.host.upgrade.phase == U.Complete
        || (Waits(m) && Work(m) + Bit(Productive(l, step)) <= Work(l) + Burden(step)))
  }

  /** An answer on the line means that the device has only copies of the request left to handle. */
  lemma RequestStillQueued(l: Link, base: nat, lib: Library) returns (i: nat)
    requires Inv(l, base, lib) && OnLine(l) && l.toDevice != []
    ensures i < |l.toDevice| && Current(l, l.toDevice[i])
  {
    hide Inv, S.Numbered;
    if Answered(l) {
      var j :| 0 <= j < |l.toHost| && Current(l, l.toHost[j]);
      CurrentReply(l, base, lib, j);
      i := 0;
    } else {
      i :| 0 <= i < |l.toDevice| && Current(l, l.toDevice[i]);
    }
  }

  /** The device's answer to the head of the line answers the request in flight only if that was it. */
  lemma HeadAnswered(l: Link, base: nat, lib: Library, env: DeviceEnv)
    requires Inv(l, base, lib) && l.toDevice != [] && env.heap.Memory?
    ensures var r := Respond(l.device, l.toDevice[0], env).1;
            (Current(l, r) <==> Current(l, l.toDevice[0])) && (Current(l, r) ==> !Negative(r))
  {
    AnswerNumbered(l.device, l.toDevice[0], env);
    InvIsSound(l, base, lib);
    if Current(l, l.toDevice[0]) {
      CurrentIsOurs(l, base, lib);
      HeadRefused(l, env.heap, base, lib);
    }
    hide Inv, Handle, S.Numbered, NeedsMemory, RequestOk;
  }

  lemma CurrentIsOurs(l: Link, base: nat, lib: Library)
    requires Inv(l, base, lib) && l.toDevice != [] && Current(l, l.toDevice[0])
    ensures RequestOk(l.toDevice[0], l.asked)
  {
    HeadRequest(l.toDevice, l.asked, base, l.host.session.stats.requests);
    QuestionIsOk(l.asked, l.toDevice[0]);
    hide Sound, DeviceOk, RequestsOk, RepliesOk, HostOk, Budgeted, S.Consistent, S.Numbered, Resumes, Question,
      RequestOk;
  }

  /** The host sees no refusal first in m unless it does in l: m has the answers of l, and one behind
      them that is no refusal of the request in flight. */
  lemma LaterAnswer(l: Link, m: Link, r: Frame)
    requires m.toHost == l.toHost + [r] && m.host == l.host && (Current(l, r) ==> !Negative(r))
    ensures Refused(m) ==> Refused(l)
  {
    hide S.Numbered, Negative;
    if t: nat :| RefusedAt(m, t) {
      assert RefusedAt(l, t) by {
        forall j | 0 <= j < t
          ensures !Current(l, l.toHost[j])
        {
          assert !Current(m, m.toHost[j]);
        }
      }
    }
  }

  lemma StillOnLine(l: Link, m: Link, r: Frame, i: nat)
    requires l.toDevice != [] && m.toDevice == l.toDevice[1..] && m.toHost == l.toHost + [r] && m.host == l.host
    requires i < |l.toDevice| && Current(l, l.toDevice[i])
    requires Current(l, l.toDevice[0]) ==> Current(l, r) && !Negative(r)
    ensures OnLine(m)
  {
    hide S.Numbered, Negative;
    if i == 0 {
      assert Current(m, m.toHost[|l.toHost|]);
    } else {
      assert Current(m, m.toDevice[i - 1]);
    }
  }

  lemma HandlingWorks(l: Link, base: nat, lib: Library, env: DeviceEnv)
    requires Inv(l, base, lib) && Waits(l) && env.heap.Memory?
    ensures var step := DeviceHandles(env, false); Worked(l, Next(l, step), base, lib, step)
  {
    hide Respond, Inv, S.Numbered, NeedsMemory, Negative, OnLine, Refused, Current, U.RoundsLeft;
    InvIsSound(l, base, lib);
    if l.toDevice != [] {
      var step := DeviceHandles(env, false);
      NextKeeps(l, step, base, lib);
      HeadAnswered(l, base, lib, env);
      var i := RequestStillQueued(l, base, lib);
      var m, r := Next(l, step), Respond(l.device, l.toDevice[0], env).1;
      StillOnLine(l, m, r, i);
      LaterAnswer(l, m, r);
    }
  }

  lemma ReportingWorks(l: Link, base: nat, lib: Library, payload: seq<byte>)
    requires Inv(l, base, lib) && Waits(l)
    ensures var step := DeviceReports(payload); Worked(l, Next(l, step), base, lib, step)
  {
    hide Inv, S.Numbered, U.RoundsLeft;
    InvIsSound(l, base, lib);
    var m := Next(l, DeviceReports(payload));
    NextKeeps(l, DeviceReports(payload), base, lib);
    LaterAnswer(l, m, Report(payload));
    if Asked(l) {
      var i :| 0 <= i < |l.toDevice| && Current(l, l.toDevice[i]);
      assert Current(m, m.toDevice[i]);
    } else {
      var i :| 0 <= i < |l.toHost| && Current(l, l.toHost[i]) && !Negative(l.toHost[i]);
      assert Current(m, m.toHost[i]);
    }
  }

  /** Nothing on the line answers a request that is only just numbered. */
  lemma NothingAnsweredYet(l: Link, base: nat, lib: Library, m: Link)
    requires Inv(l, base, lib) && Inv(m, base, lib)
    requires m.toHost == l.toHost || (l.toHost != [] && m.toHost == l.toHost[1..])
    requires m.host.session.stats.requests == l.host.session.stats.requests + 1
    ensures forall i :: 0 <= i < |m.toHost| ==> !Current(m, m.toHost[i])
  {
    hide Sound, DeviceOk, RequestsOk, HostOk, Budgeted, S.Consistent, S.Numbered, Resumes, ReplyOk, Refusal, Foreign,
      Recent, AllCurrent, AllReboot;
    var k := l.host.session.stats.requests;
    NumbersDoNotRepeat(m.asked, k + 1 - base);
    forall i | 0 <= i < |m.toHost|
      ensures !Current(m, m.toHost[i])
    {
      var j := if m.toHost == l.toHost then i else i + 1;
      assert m.toHost[i] == l.toHost[j];
      OldIsNotCurrent(l.toHost[j].sequence, base, k);
    }
  }

  lemma RefusedFirst(l: Link)
    requires l.toHost != [] && Current(l, l.toHost[0])
    ensures Negative(l.toHost[0]) ==> Refused(l)
  {
    if Negative(l.toHost[0]) {
      assert RefusedAt(l, 0);
    }
  }

  lemma LastIsAsked(m: Link)
    requires m.toDevice != [] && Current(m, m.toDevice[|m.toDevice| - 1])
    ensures OnLine(m)
  {
    hide S.Numbered;
    assert Asked(m);
  }

  lemma DeviceSuits(l: Link, base: nat, lib: Library)
    requires Inv(l, base, lib)
    ensures DeviceOk(l.asked, l.device, l.toDevice)
  {
    hide Sound, DeviceOk, RequestsOk, RepliesOk, HostOk, Budgeted, S.Consistent, Resumes;
  }

  lemma AnswerWorks(l: Link, base: nat, lib: Library, now: u64)
    requires Inv(l, base, lib) && Waits(l) && l.toHost != [] && Current(l, l.toHost[0])
    ensures var step := HostReceives(now, Ok); Worked(l, Next(l, step), base, lib, step)
  {
    hide Inv, ReceiveStep, Sound, S.Numbered, U.RoundsLeft, U.Build, ReplyOk, DeviceOk, Advanced, Refusal, Negative,
      OnLine;
    var m := Next(l, HostReceives(now, Ok));
    InvIsSound(l, base, lib);
    CurrentReply(l, base, lib, 0);
    RefusedFirst(l);
    AnswerKeeps(l, base, lib, now, Ok);
    InvIsSound(m, base, lib);
    if l.asked.phase != U.Restarting {
      DeviceSuits(l, base, lib);
      AdvanceLeavesRounds(l.asked, l.device, l.toDevice, l.toHost[0]);
      NothingAnsweredYet(l, base, lib, m);
      LastIsAsked(m);
    }
  }

  lemma StaleWorks(l: Link, base: nat, lib: Library, now: u64)
    requires Inv(l, base, lib) && Waits(l) && l.toHost != [] && !Current(l, l.toHost[0])
    ensures var step := HostReceives(now, Ok); Worked(l, Next(l, step), base, lib, step)
  {
    hide Inv, ReceiveStep, S.Numbered, Negative, U.RoundsLeft;
    InvIsSound(l, base, lib);
    StaleReplyKeeps(l, base, lib, now, Ok);
    var m := Next(l, HostReceives(now, Ok));
    if Asked(l) {
      var i :| 0 <= i < |l.toDevice| && Current(l, l.toDevice[i]);
      assert Current(m, m.toDevice[i]);
    } else {
      var i :| 0 <= i < |l.toHost| && Current(l, l.toHost[i]) && !Negative(l.toHost[i]);
      assert Current(m, m.toHost[i - 1]) && !Negative(m.toHost[i - 1]);
    }
    RefusedBefore(l, m);
  }

  lemma RefusedBefore(l: Link, m: Link)
    requires m.host.session.stats.requests == l.host.session.stats.requests
    requires m.toHost == l.toHost || (l.toHost != [] && !Current(l, l.toHost[0]) && m.toHost == l.toHost[1..])
    ensures Refused(m) ==> Refused(l)
  {
    hide S.Numbered, Negative;
    if t: nat :| RefusedAt(m, t) {
      var shift := if m.toHost == l.toHost then 0 else 1;
      assert RefusedAt(l, t + shift) by {
        forall j | 0 <= j < t + shift
          ensures !Current(l, l.toHost[j])
        {
          if j >= shift {
            assert !Current(m, m.toHost[j - shift]);
          }
        }
      }
    }
  }

  // ----- A round trip with nothing else on the line -----

  lemma AskedHead(l: Link, base: nat, lib: Library)
    requires Inv(l, base, lib) && Waits(l) && |l.toDevice| == 1 && l.toHost == []
    ensures Sound(l.asked) && Current(l, l.toDevice[0]) && Asks(l.toDevice[0], l.asked)
  {
    hide Sound, DeviceOk, RepliesOk, HostOk, Budgeted, S.Consistent, S.Numbered, Resumes, Question, Expected,
      AllCurrent;
  }

  lemma AnsweredHead(l: Link, base: nat, lib: Library, env: DeviceEnv)
    requires Inv(l, base, lib) && Waits(l) && |l.toDevice| == 1 && l.toHost == [] && env.heap.Memory?
    ensures var m := Next(l, DeviceHandles(env, false));
            && Inv(m, base, lib) && Waits(m) && m.toDevice == [] && |m.toHost| == 1 && Current(m, m.toHost[0])
            && !Negative(m.toHost[0])
            && m.device == Respond(l.device, l.toDevice[0], env).0 && m.host == l.host && m.asked == l.asked
  {
    hide Inv, Sound, Asks, Respond, S.Numbered, NeedsMemory, OnLine, Refused;
    AskedHead(l, base, lib);
    HeadAnswered(l, base, lib, env);
    HandlingWorks(l, base, lib, env);
    InvIsSound(l, base, lib);
  }

  lemma AnswerTaken(l: Link, base: nat, lib: Library)
    requires Inv(l, base, lib) && Waits(l) && l.toDevice == [] && |l.toHost| == 1 && Current(l, l.toHost[0])
             && !Negative(l.toHost[0])
    requires l.asked.phase != U.Restarting
    ensures var m := Next(l, HostReceives(0, Ok));
            && |m.toDevice| == 1 && m.toHost == [] && m.device == l.device
            && m.host.upgrade == m.asked == U.Build(Advanced(l.asked, l.device)).0
  {
    hide Inv, Sound, ReceiveStep, S.Numbered, U.Build, ReplyOk, Advanced, Refusal, OnLine, Refused;
    CurrentReply(l, base, lib, 0);
    AnswerKeeps(l, base, lib, 0, Ok);
    AnswerGoesTo(l, base, lib, 0, Ok);
    ReceiptLeavesDevice(l);
  }

  lemma ReceiptLeavesDevice(l: Link)
    ensures ReceiveStep(l, 0, Ok).device == l.device
  {
    hide OnUpgradeFrame;
  }

  // ----- The timer brings a lost request back -----

  /** With a retry left, a request whose deadline has come is on the line again. */
  lemma Retransmits(l: Link, base: nat, lib: Library, now: u64)
    requires Inv(l, base, lib) && l.running && U.Active(l.host.upgrade) && RetryLeft(l) && !Refused(l)
    requires now >= l.host.session.pending.deadline
    ensures var m := Next(l, HostTicks(now, Ok));
            && Inv(m, base, lib) && Waits(m) && m.asked == l.asked
            && |m.toDevice| == |l.toDevice| + 1 && m.toHost == l.toHost
  {
    hide Inv, TickStep, S.Numbered, Negative, Refused, OnLine;
    var m := Next(l, HostTicks(now, Ok));
    NextKeeps(l, HostTicks(now, Ok), base, lib);
    RetryEffect(l, base, lib, now);
    LastIsAsked(m);
    RefusedBefore(l, m);
  }

  lemma RetryEffect(l: Link, base: nat, lib: Library, now: u64)
    requires Inv(l, base, lib) && l.running && U.Active(l.host.upgrade) && RetryLeft(l)
    requires now >= l.host.session.pending.deadline
    ensures var m := TickStep(l, now, Ok);
            && m.running && m.host.upgrade == l.host.upgrade && m.toHost == l.toHost && m.asked == l.asked
            && m.host.session.stats.requests == l.host.session.stats.requests
            && |m.toDevice| == |l.toDevice| + 1 && Current(m, m.toDevice[|m.toDevice| - 1])
  {
    hide Sound, DeviceOk, RequestsOk, RepliesOk, S.Numbered, Budgeted, Resumes, OnUpgradeTimeout, Question;
  }

  /** With its retries gone and a recovery left, it is followed by a recovery that is on the line. */
  lemma Recovers(l: Link, base: nat, lib: Library, now: u64)
    requires Inv(l, base, lib) && l.running && U.Active(l.host.upgrade) && !RetryLeft(l) && CanRecover(l.host.upgrade)
    requires now >= l.host.session.pending.deadline
    ensures var m := Next(l, HostTicks(now, Ok));
            && Inv(m, base, lib) && Waits(m) && m.asked == U.BeginRecovery(l.asked).0
            && |m.toDevice| == |l.toDevice| + 1 && m.toHost == l.toHost
  {
    hide Inv, TickStep, S.Numbered, Negative, OnLine, U.BeginRecovery;
    var m := Next(l, HostTicks(now, Ok));
    NextKeeps(l, HostTicks(now, Ok), base, lib);
    RecoveryEffect(l, base, lib, now);
    LastIsAsked(m);
    RequestsGrowByOne(l, m, base, lib, now);
    NothingAnsweredYet(l, base, lib, m);
  }

  lemma RecoveryEffect(l: Link, base: nat, lib: Library, now: u64)
    requires Inv(l, base, lib) && l.running && U.Active(l.host.upgrade) && !RetryLeft(l) && CanRecover(l.host.upgrade)
    requires now >= l.host.session.pending.deadline
    ensures var m := TickStep(l, now, Ok);
            && m.running && U.Active(m.host.upgrade) && m.toHost == l.toHost && m.asked == U.BeginRecovery(l.asked).0
            && m.host.session.stats.requests > l.host.session.stats.requests
            && |m.toDevice| == |l.toDevice| + 1 && Current(m, m.toDevice[|m.toDevice| - 1])
  {
    hide Inv, S.Tick, OnUpgradeTimeout, S.Numbered, S.Consistent, U.BeginRecovery;
    HostWaits(l, base, lib);
    TickEffect(l.host.session, now, Ok);
    TimeoutKeeps(l, base, lib, S.Tick(l.host.session, now, Ok).0, now, Ok);
  }

  lemma RequestsGrowByOne(l: Link, m: Link, base: nat, lib: Library, now: u64)
    requires Inv(l, base, lib) && m == Next(l, HostTicks(now, Ok))
    requires m.host.session.stats.requests > l.host.session.stats.requests
    ensures m.host.session.stats.requests == l.host.session.stats.requests + 1
  {
    hide Inv, U.Build, U.BeginRecovery, S.Numbered;
  }

  lemma TickingWorks(l: Link, base: nat, lib: Library, now: u64)
    requires Inv(l, base, lib) && Waits(l) && !Fatal(l, HostTicks(now, Ok))
    ensures var step := HostTicks(now, Ok); Worked(l, Next(l, step), base, lib, step)
  {
    hide Inv, TickStep, S.Tick, S.Numbered, S.Consistent, OnLine, Refused, U.RoundsLeft, U.BeginRecovery;
    InvIsSound(l, base, lib);
    HostWaits(l, base, lib);
    TickEffect(l.host.session, now, Ok);
    if now < l.host.session.pending.deadline {
      EarlyTick(l, now);
    } else if RetryLeft(l) {
      Retransmits(l, base, lib, now);
    } else {
      Recovers(l, base, lib, now);
      var m := Next(l, HostTicks(now, Ok));
      InvIsSound(m, base, lib);
      RecoveryBegins(l.asked);
      RecoveryShortens(l.asked, U.BeginRecovery(l.asked).0);
    }
  }

  lemma EarlyTick(l: Link, now: u64)
    requires l.host.session.pending.active && now < l.host.session.pending.deadline
    ensures TickStep(l, now, Ok) == l
  {
  }

  // ----- Every schedule that does not run out of time completes the update -----

  /** Whatever the next step is, as long as nothing is lost and it is not the timer ending the update, the
      update completes or gets on. */
  lemma StepWorks(l: Link, base: nat, lib: Library, step: Step)
    requires Inv(l, base, lib) && Waits(l) && Harmless(step) && !Fatal(l, step)
    ensures Worked(l, Next(l, step), base, lib, step)
  {
    hide Inv, Next, Fatal, Waits, Worked, Current;
    match step {
      case DeviceHandles(env, lost) => HandlingWorks(l, base, lib, env);
      case DeviceReports(payload) => ReportingWorks(l, base, lib, payload);
      case HostReceives(now, queued) =>
        if l.toHost == [] {
          IdleWorks(l, base, lib, now);
        } else if Current(l, l.toHost[0]) {
          AnswerWorks(l, base, lib, now);
        } else {
          StaleWorks(l, base, lib, now);
        }
      case HostTicks(now, queued) => TickingWorks(l, base, lib, now);
    }
  }

  lemma IdleWorks(l: Link, base: nat, lib: Library, now: u64)
    requires Inv(l, base, lib) && Waits(l) && l.toHost == []
    ensures var step := HostReceives(now, Ok); Worked(l, Next(l, step), base, lib, step)
  {
    hide Inv, Waits, U.RoundsLeft;
    InvIsSound(l, base, lib);
  }

  lemma CompleteStays(l: Link, base: nat, lib: Library, step: Step)
    requires Inv(l, base, lib) && l.host.upgrade.phase == U.Complete
    ensures Next(l, step).host.upgrade.phase == U.Complete
  {
    hide Inv, ReceiveStep, Respond, NeedsMemory, S.Tick, OnUpgradeTimeout;
    match step {
      case HostReceives(now, queued) => ReceiveStepKeeps(l, base, lib, now, queued);
      case _ =>
    }
  }

  /** How many steps of a run are productive, and how much the run adds to the work. */
  function Progress(l: Link, steps: seq<Step>): nat
    decreases |steps|
  {
    if steps == [] then 0 else Bit(Productive(l, steps[0])) + Progress(Next(l, steps[0]), steps[1..])
  }

  function Burdens(steps: seq<Step>): nat {
    if steps == [] then 0 else Burden(steps[0]) + Burdens(steps[1..])
  }

  /** The timer never ends the update in the run. */
  ghost predicate Survives(l: Link, steps: seq<Step>)
    decreases |steps|
  {
    steps == [] || (!Fatal(l, steps[0]) && Survives(Next(l, steps[0]), steps[1..]))
  }

  lemma {:induction false} CompletionLasts(l: Link, base: nat, lib: Library, steps: seq<Step>)
    requires Inv(l, base, lib) && l.host.upgrade.phase == U.Complete
    ensures var m := Run(l, steps); Inv(m, base, lib) && m.host.upgrade.phase == U.Complete
    decreases |steps|
  {
    hide Inv, Next;
    if steps != [] {
      NextKeeps(l, steps[0], base, lib);
      CompleteStays(l, base, lib, steps[0]);
      CompletionLasts(Next(l, steps[0]), base, lib, steps[1..]);
    }
  }

  lemma {:induction false} ScheduleWorks(l: Link, base: nat, lib: Library, steps: seq<Step>)
    requires Inv(l, base, lib) && Lossless(steps) && Waits(l) && Survives(l, steps)
    ensures var m := Run(l, steps);
            && Inv(m, base, lib)
            && (|| m.host.upgrade.phase == U.Complete
                || (Waits(m) && Work(m) + Progress(l, steps) <= Work(l) + Burdens(steps)))
    decreases |steps|
  {
    hide Inv, Next, Waits, Fatal, Productive, Burden, U.RoundsLeft;
    InvIsSound(l, base, lib);
    if steps != [] {
      var m, rest := Next(l, steps[0]), steps[1..];
      assert Harmless(steps[0]) && Lossless(rest);
      StepWorks(l, base, lib, steps[0]);
      if m.host.upgrade.phase == U.Complete {
        CompletionLasts(m, base, lib, rest);
      } else {
        ScheduleWorks(m, base, lib, rest);
      }
    }
  }

  const HANDLE: Step := DeviceHandles(DeviceEnv(Memory(_ => 0), false, Frame(ACK, FLAG_RESPONSE, 0, [])), false)
  const RECEIVE: Step := HostReceives(0, Ok)

  /** While an update waits, device or host has something to do. */
  lemma SomethingToDo(l: Link)
    requires Waits(l)
    ensures Productive(l, HANDLE) || Productive(l, RECEIVE)
  {
    hide Current, Refused;
  }

  /** So doing it brings the update to its end. */
  lemma {:induction false} Finish(l: Link, base: nat, lib: Library) returns (steps: seq<Step>)
    requires Inv(l, base, lib) && Waits(l)
    ensures Lossless(steps) && Run(l, steps).host.upgrade.phase == U.Complete
    decreases assert Sound(l.asked) by { InvIsSound(l, base, lib); } Work(l)
  {
    hide Inv, Next, Waits, U.RoundsLeft, Fatal;
    InvIsSound(l, base, lib);
    SomethingToDo(l);
    var step := if Productive(l, HANDLE) then HANDLE else RECEIVE;
    NeverFatal(l, base, lib);
    StepWorks(l, base, lib, step);
    RunOne(l, step);
    steps := [step];
    if Next(l, step).host.upgrade.phase != U.Complete {
      var more := Finish(Next(l, step), base, lib);
      RunAppend(l, [step], more);
      steps := [step] + more;
    }
  }

  /** What an update waits for is no refusal. */
  lemma NeverFatal(l: Link, base: nat, lib: Library)
    requires Inv(l, base, lib) && Waits(l)
    ensures !Fatal(l, HANDLE) && !Fatal(l, RECEIVE)
  {
    hide Inv, Current, Negative, OnLine;
    if l.toHost != [] && Current(l, l.toHost[0]) {
      RefusedFirst(l);
    }
  }

  lemma Completes(l: Link, base: nat, lib: Library) returns (more: seq<Step>)
    requires Inv(l, base, lib) && Hopeful(l) && !Refused(l)
    ensures Lossless(more) && Run(l, more).host.upgrade.phase == U.Complete
  {
    hide Inv, Next, OnLine, Refused, RetryLeft;
    if OnLine(l) {
      more := Finish(l, base, lib);
    } else {
      var deadline := l.host.session.pending.deadline;
      var tick := HostTicks(deadline, Ok);
      if RetryLeft(l) {
        Retransmits(l, base, lib, deadline);
      } else {
        Recovers(l, base, lib, deadline);
      }
      RunOne(l, tick);
      var rest := Finish(Next(l, tick), base, lib);
      RunAppend(l, [tick], rest);
      more := [tick] + rest;
    }
  }

  // ----- No step brings hope back -----

  /** The update has not completed, and never will. */
  ghost predicate Hopeless(l: Link) {
    l.host.upgrade.phase != U.Complete && !Hopeful(l)
  }

  /** m's line holds nothing of the request that l's did not, and its host is where l's is. */
  ghost predicate NoNews(l: Link, m: Link) {
    && m.running == l.running && m.host.upgrade == l.host.upgrade && m.host.session.pending == l.host.session.pending
    && (OnLine(m) ==> OnLine(l))
  }

  lemma LossIsNoNews(l: Link, i: nat)
    ensures NoNews(l, Next(l, LoseToDevice(i))) && NoNews(l, Next(l, LoseToHost(i)))
  {
    hide S.Numbered, Negative;
    var m, n := Next(l, LoseToDevice(i)), Next(l, LoseToHost(i));
    if Asked(m) {
      var j :| 0 <= j < |m.toDevice| && Current(m, m.toDevice[j]);
      assert Current(l, l.toDevice[if i < |l.toDevice| && j >= i then j + 1 else j]);
    }
    if Answered(n) {
      var j :| 0 <= j < |n.toHost| && Current(n, n.toHost[j]) && !Negative(n.toHost[j]);
      var t := if i < |l.toHost| && j >= i then j + 1 else j;
      assert Current(l, l.toHost[t]) && !Negative(l.toHost[t]);
    }
  }

  lemma DeviceIsNoNews(l: Link, env: DeviceEnv, lost: bool)
    ensures NoNews(l, Next(l, DeviceHandles(env, lost)))
  {
    var m := Next(l, DeviceHandles(env, lost));
    if l.toDevice != [] {
      AnswerNumbered(l.device, l.toDevice[0], env);
      hide S.Numbered, Negative, Respond, NeedsMemory;
      if Asked(m) {
        var j :| 0 <= j < |m.toDevice| && Current(m, m.toDevice[j]);
        assert Current(l, l.toDevice[j + 1]);
      }
      if Answered(m) {
        var j :| 0 <= j < |m.toHost| && Current(m, m.toHost[j]) && !Negative(m.toHost[j]);
        if j < |l.toHost| {
          assert Current(l, l.toHost[j]) && !Negative(l.toHost[j]);
        } else {
          assert Current(l, l.toDevice[0]);
        }
      }
    }
  }

  lemma ReportIsNoNews(l: Link, payload: seq<byte>)
    ensures NoNews(l, Next(l, DeviceReports(payload)))
  {
    hide S.Numbered;
    var m := Next(l, DeviceReports(payload));
    if Answered(m) {
      var j :| 0 <= j < |m.toHost| && Current(m, m.toHost[j]) && !Negative(m.toHost[j]);
      assert j < |l.toHost| && Current(l, l.toHost[j]);
    }
    if Asked(m) {
      var j :| 0 <= j < |m.toDevice| && Current(m, m.toDevice[j]);
      assert Current(l, l.toDevice[j]);
    }
  }

  lemma StaleIsNoNews(l: Link, base: nat, lib: Library, now: u64, queued: QueueStatus)
    requires Inv(l, base, lib) && l.toHost != [] && !(l.running && U.Active(l.host.upgrade) && Current(l, l.toHost[0]))
    ensures NoNews(l, Next(l, HostReceives(now, queued)))
  {
    hide Inv, ReceiveStep, S.Numbered, Negative;
    var m := Next(l, HostReceives(now, queued));
    StaleReplyKeeps(l, base, lib, now, queued);
    if Answered(m) {
      var j :| 0 <= j < |m.toHost| && Current(m, m.toHost[j]) && !Negative(m.toHost[j]);
      var t := if l.running then j + 1 else j;
      assert Current(l, l.toHost[t]) && !Negative(l.toHost[t]);
    }
    if Asked(m) {
      var j :| 0 <= j < |m.toDevice| && Current(m, m.toDevice[j]);
      assert Current(l, l.toDevice[j]);
    }
  }

  lemma AnsweredFirst(l: Link)
    requires l.toHost != [] && Current(l, l.toHost[0]) && !Negative(l.toHost[0])
    ensures OnLine(l)
  {
    hide S.Numbered;
    assert Answered(l);
  }

  lemma ReceiptIsNoHope(l: Link, base: nat, lib: Library, now: u64, queued: QueueStatus)
    requires Inv(l, base, lib) && Hopeless(l)
    ensures Hopeless(Next(l, HostReceives(now, queued)))
  {
    hide Inv, ReceiveStep, S.Numbered, Negative, Refusal, OnLine;
    if l.toHost == [] {
      assert ReceiveStep(l, now, queued) == l by { NothingToReceive(l, now, queued); }
    } else if !(l.running && U.Active(l.host.upgrade) && Current(l, l.toHost[0])) {
      StaleIsNoNews(l, base, lib, now, queued);
    } else {
      CurrentReply(l, base, lib, 0);
      if Negative(l.toHost[0]) {
        RefusalKeeps(l, base, lib, now, queued);
      } else {
        AnsweredFirst(l);
      }
    }
  }

  lemma NothingToReceive(l: Link, now: u64, queued: QueueStatus)
    requires l.toHost == []
    ensures ReceiveStep(l, now, queued) == l
  {
  }

  lemma TimerIsNoHope(l: Link, base: nat, lib: Library, now: u64, queued: QueueStatus)
    requires Inv(l, base, lib) && Hopeless(l)
    ensures Hopeless(Next(l, HostTicks(now, queued)))
  {
    hide Inv, S.Tick, OnLine, OnUpgradeTimeout, S.Consistent, U.BeginRecovery;
    var m := Next(l, HostTicks(now, queued));
    HostWaits(l, base, lib);
    if U.Active(l.host.upgrade) {
      TimerFails(l, base, lib, now, queued);
    }
    TickEffect(l.host.session, now, queued);
    var (s, status, again) := S.Tick(l.host.session, now, queued);
    if l.running && status != Timeout {
      assert again.None? by { StillTicking(l.host.session, now, queued); }
      assert m == l;
    }
  }

  lemma StillTicking(s: S.State, now: u64, queued: QueueStatus)
    requires S.Tick(s, now, queued).1 != Timeout
             && (!s.pending.active || s.pending.retriesDone >= s.pending.policy.maxRetries)
    ensures S.Tick(s, now, queued).2.None?
  {
  }

  lemma HopelessStays(l: Link, base: nat, lib: Library, step: Step)
    requires Inv(l, base, lib) && Hopeless(l)
    ensures Hopeless(Next(l, step))
  {
    hide Inv, OnLine, Next;
    match step {
      case DeviceHandles(env, lost) => DeviceIsNoNews(l, env, lost);
      case DeviceReports(payload) => ReportIsNoNews(l, payload);
      case HostReceives(now, queued) => ReceiptIsNoHope(l, base, lib, now, queued);
      case HostTicks(now, queued) => TimerIsNoHope(l, base, lib, now, queued);
      case LoseToDevice(i) => LossIsNoNews(l, i);
      case LoseToHost(i) => LossIsNoNews(l, i);
    }
  }

  lemma {:induction false} HopelessForever(l: Link, base: nat, lib: Library, steps: seq<Step>)
    requires Inv(l, base, lib) && Hopeless(l)
    ensures Run(l, steps).host.upgrade.phase != U.Complete
    decreases |steps|
  {
    hide Inv, Next;
    if steps != [] {
      hide Hopeless;
      NextKeeps(l, steps[0], base, lib);
      HopelessStays(l, base, lib, steps[0]);
      HopelessForever(Next(l, steps[0]), base, lib, steps[1..]);
    }
  }

  // ----- A refusal is final on a line that loses nothing -----

  ghost predicate Doomed(l: Link) {
    l.host.upgrade.phase != U.Complete && (Hopeful(l) ==> Refused(l))
  }

  lemma RefusedStays(l: Link, base: nat, lib: Library, step: Step, i: nat)
    requires Inv(l, base, lib) && Hopeful(l) && RefusedAt(l, i) && Harmless(step)
    ensures var m := Next(l, step);
            m.host.upgrade.phase == U.Errored || (m.host.upgrade.phase != U.Complete && Refused(m))
  {
    var m := Next(l, step);
    CurrentReply(l, base, lib, i);
    match step {
      case DeviceHandles(env, lost) =>
        hide Respond, Inv, NeedsMemory, S.Numbered, Negative, Refusal;
        assert RefusedAt(m, i);
      case DeviceReports(payload) =>
        hide Inv, S.Numbered, Negative, Refusal;
        assert RefusedAt(m, i);
      case HostReceives(now, queued) =>
        if i == 0 {
          RefusalKeeps(l, base, lib, now, queued);
        } else {
          StaleReplyKeeps(l, base, lib, now, queued);
          hide Inv, ReceiveStep, S.Numbered, Negative, Refusal;
          assert RefusedAt(m, i - 1) by {
            forall j | 0 <= j < i - 1
              ensures !Current(m, m.toHost[j])
            {
              assert !Current(l, l.toHost[j + 1]);
            }
          }
        }
      case HostTicks(now, queued) => RefusedTick(l, base, lib, now, i);
    }
  }

  lemma RefusedTick(l: Link, base: nat, lib: Library, now: u64, i: nat)
    requires Inv(l, base, lib) && Hopeful(l) && RefusedAt(l, i) && Refusal(l.toHost[i], l.asked)
    ensures var m := Next(l, HostTicks(now, Ok));
            m.host.upgrade.phase == U.Errored || (m.host.upgrade.phase != U.Complete && Refused(m))
  {
    hide Inv, S.Tick, OnUpgradeTimeout, S.Consistent, Negative, S.Numbered, U.BeginRecovery, OnLine;
    HostWaits(l, base, lib);
    TickEffect(l.host.session, now, Ok);
    TimerFails(l, base, lib, now, Ok);
    var m := Next(l, HostTicks(now, Ok));
    if m.host.upgrade.phase != U.Errored {
      assert RefusedAt(m, i);
    }
  }

  lemma DoomedStays(l: Link, base: nat, lib: Library, step: Step)
    requires Inv(l, base, lib) && Doomed(l) && Harmless(step)
    ensures Doomed(Next(l, step))
  {
    hide Inv, Next, OnLine;
    if Hopeful(l) {
      var i: nat :| RefusedAt(l, i);
      RefusedStays(l, base, lib, step, i);
    } else {
      HopelessStays(l, base, lib, step);
    }
  }

  lemma {:induction false} DoomedForever(l: Link, base: nat, lib: Library, steps: seq<Step>)
    requires Inv(l, base, lib) && Doomed(l) && Lossless(steps)
    ensures Run(l, steps).host.upgrade.phase != U.Complete
    decreases |steps|
  {
    hide Inv, Next;
    if steps != [] {
      assert Harmless(steps[0]) && Lossless(steps[1..]);
      hide Doomed;
      NextKeeps(l, steps[0], base, lib);
      DoomedStays(l, base, lib, steps[0]);
      DoomedForever(Next(l, steps[0]), base, lib, steps[1..]);
    }
  }

  /** A refusal that is lost leaves the update as it was. */
  lemma RefusalLost(l: Link, i: nat)
    requires Hopeful(l) && RefusedAt(l, i)
    ensures Hopeful(Next(l, LoseToHost(i)))
  {
    hide S.Numbered, Negative;
    var m := Next(l, LoseToHost(i));
    if Asked(l) {
      var j :| 0 <= j < |l.toDevice| && Current(l, l.toDevice[j]);
      assert Current(m, m.toDevice[j]);
    } else if Answered(l) {
      var j :| 0 <= j < |l.toHost| && Current(l, l.toHost[j]) && !Negative(l.toHost[j]);
      var t := if j > i then j - 1 else j;
      assert Current(m, m.toHost[t]) && !Negative(m.toHost[t]);
    }
  }

  lemma {:induction false} LoseRefusals(l: Link, base: nat, lib: Library) returns (steps: seq<Step>)
    requires Inv(l, base, lib) && Hopeful(l)
    ensures Inv(Run(l, steps), base, lib) && Hopeful(Run(l, steps)) && !Refused(Run(l, steps))
    decreases |l.toHost|
  {
    hide Inv, Hopeful;
    if i: nat :| RefusedAt(l, i) {
      var lose := LoseToHost(i);
      RefusalLost(l, i);
      NextKeeps(l, lose, base, lib);
      assert |Next(l, lose).toHost| < |l.toHost|;
      var more := LoseRefusals(Next(l, lose), base, lib);
      RunOne(l, lose);
      RunAppend(l, [lose], more);
      steps := [lose] + more;
    } else {
      steps := [];
    }
  }

  // ----- From every state of every run -----

  /** From any point of any run, some continuation that loses nothing completes the update if and
      only if the daemon still runs it; its request is on the line, can still be repeated, or can be
      followed by a recovery; and the first answer on its way is not a refusal. */
  lemma QuietLineCompletes(x: Setting, lib: Library, steps: seq<Step>)
    requires Launchable(x, lib)
    ensures var l := Run(Launch(x), steps);
            l.host.upgrade.phase != U.Complete ==>
              ((exists more :: Lossless(more) && Run(l, more).host.upgrade.phase == U.Complete) <==>
               Hopeful(l) && !Refused(l))
  {
    ReachableKeeps(x, lib, steps);
    var l, base := Run(Launch(x), steps), x.session.stats.requests;
    hide Inv, Run, Launch, Launchable, Hopeful, Refused, Lossless;
    if l.host.upgrade.phase != U.Complete {
      if Hopeful(l) && !Refused(l) {
        var more := Completes(l, base, lib);
      } else {
        forall more | Lossless(more)
          ensures Run(l, more).host.upgrade.phase != U.Complete
        {
          DoomedForever(l, base, lib, more);
        }
      }
    }
  }

  /** From any point of any run where the update waits for an answer that can reach it: every continuation
      that loses nothing, and in which the timer does not end the update, has completed it after as many
      productive steps as there is work left, counting what reports and retransmissions add. */
  lemma EveryScheduleCompletes(x: Setting, lib: Library, steps: seq<Step>, more: seq<Step>)
    requires Launchable(x, lib)
    requires var l := Run(Launch(x), steps); Waits(l) && Lossless(more) && Survives(l, more)
    ensures var l := Run(Launch(x), steps);
            && Sound(l.asked)
            && (Progress(l, more) >= Work(l) + Burdens(more) ==> Run(l, more).host.upgrade.phase == U.Complete)
  {
    ReachableKeeps(x, lib, steps);
    var l, base := Run(Launch(x), steps), x.session.stats.requests;
    InvIsSound(l, base, lib);
    hide Inv, Launch, Launchable, Waits, Survives, Run, SameJob;
    ScheduleWorks(l, base, lib, more);
    if Run(l, more).host.upgrade.phase != U.Complete {
      InvIsSound(Run(l, more), base, lib);
      WaitingIsWork(Run(l, more), base, lib);
    }
  }

  lemma WaitingIsWork(l: Link, base: nat, lib: Library)
    requires Inv(l, base, lib) && Waits(l)
    ensures Sound(l.asked) && Work(l) > 0
  {
    hide DeviceOk, RequestsOk, RepliesOk, HostOk, Budgeted, Resumes, S.Consistent, OnLine, Refused;
    U.StillToGo(l.asked);
    hide U.RoundsLeft;
  }

  /** From any point of any run, some continuation at all completes the update if and only if the
      daemon still runs it and its request is on the line, can still be repeated, or can be followed
      by a recovery. */
  lemma AnyLineCompletes(x: Setting, lib: Library, steps: seq<Step>)
    requires Launchable(x, lib)
    ensures var l := Run(Launch(x), steps);
            l.host.upgrade.phase != U.Complete ==>
              ((exists more :: Run(l, more).host.upgrade.phase == U.Complete) <==> Hopeful(l))
  {
    hide Inv, Run, Launch, Launchable, Hopeful, Refused, Lossless, SameJob;
    ReachableKeeps(x, lib, steps);
    var l, base := Run(Launch(x), steps), x.session.stats.requests;
    if l.host.upgrade.phase != U.Complete {
      if Hopeful(l) {
        var lose := LoseRefusals(l, base, lib);
        var more := Completes(Run(l, lose), base, lib);
        RunAppend(l, lose, more);
      } else {
        forall more: seq<Step>
          ensures Run(l, more).host.upgrade.phase != U.Complete
        {
          HopelessForever(l, base, lib, more);
        }
      }
    }
  }
}
