/** Runs of the whole system in which an update comes to grief: a client undoes it, or it fails because
    the output buffer is full. */
module Mishaps {
  import opened Wire
  import opened Crc32
  import opened FirstUpdate
  import opened Simulator
  import opened LossyLink
  import opened Resumption
  import opened LinkInvariant
  import opened LinkRuns
  import D = Daemon
  import Driver
  import I = Installation
  import Q = QuietLine
  import S = Session
  import U = Upgrade

  // ----- A client undoes it -----

  function Sent(c: D.Context, command: byte, payload: seq<byte>): Frame {
    Frame(command, FLAG_ACK_REQUIRED, c.session.nextSequence, payload)
  }

  /** A request of an update that a client sends itself goes out as it is. */
  lemma Forwarded(p: I.Plant, client: nat, command: byte, payload: seq<byte>)
    requires Quiet(p) && !U.Active(p.daemon.upgrade) && IsUpdate(command) && |payload| <= MAX_PAYLOAD
    ensures var q := I.Next(I.Next(p, I.Reacts(D.ClientCommand(client, command, payload, CALM))), I.Flushes);
            && q == p.(daemon := p.daemon.(session := q.daemon.session, activeClient := Some(client)),
                       toDevice := [Sent(p.daemon, command, payload)])
            && q.daemon.session.device == S.Ready && q.daemon.session.pending.active
            && q.daemon.session.pending.frame == Sent(p.daemon, command, payload)
  {
    hide D.OnWorkerReady, D.OnTimer, D.OnDeviceFrame, D.StartUpgradeCommand;
  }

  lemma AnswerKind(d: Sim, f: Frame)
    requires IsUpdate(f.kind)
    ensures var r := Respond(d, f, Willing(d)).1;
            r.sequence == f.sequence && !Driver.IsTelemetry(r)
            && (r.kind == NACK || (r.kind == f.kind && r.flags == FLAG_RESPONSE))
  {
    hide GetLe32, GetLe16, PutLe32, PutLe16, StringAt, Checksum;
  }

  lemma TakesAnswer(c: D.Context, r: Frame)
    requires c.session.device == S.Ready && c.session.pending.active && IsUpdate(c.session.pending.frame.kind)
    requires c.activeClient.Some? && !U.Active(c.upgrade) && !Driver.IsTelemetry(r)
             && r.sequence == c.session.pending.frame.sequence
    requires r.kind == NACK || (r.kind == c.session.pending.frame.kind && r.flags == FLAG_RESPONSE)
    ensures var (d, status) := D.OnDeviceFrame(c, r, CALM);
            && status == Ok && d == c.(session := d.session, activeClient := None, responses := d.responses)
            && d.session.device == S.Ready && !d.session.pending.active
  {
    hide D.QueueUpgrade, D.EndUpgrade, U.Accept;
  }

  function Exchange(p: I.Plant, client: nat, command: byte, payload: seq<byte>): seq<I.Move> {
    [I.Reacts(D.ClientCommand(client, command, payload, CALM)), I.Flushes, I.DeviceMoves(Willing(p.device), false),
     I.Receives(CALM)]
  }

  /** The device answers it, and all is quiet again. */
  lemma Exchanged(p: I.Plant, client: nat, command: byte, payload: seq<byte>)
    requires Quiet(p) && !U.Active(p.daemon.upgrade) && IsUpdate(command) && |payload| <= MAX_PAYLOAD
    ensures var q := I.Run(p, Exchange(p, client, command, payload));
            && Quiet(q) && q.daemon.upgrade == p.daemon.upgrade && q.file == p.file
            && q.device == Respond(p.device, Sent(p.daemon, command, payload), Willing(p.device)).0
  {
    var moves := Exchange(p, client, command, payload);
    Forwarded(p, client, command, payload);
    AnswerKind(p.device, Sent(p.daemon, command, payload));
    var q := I.Next(I.Next(p, moves[0]), moves[1]);
    RunFour(p, moves[0], moves[1], moves[2], moves[3]);
    hide D.React, Respond, IsUpdate, I.Run, D.OnDeviceFrame;
    AnswerArrives(q);
  }

  lemma AnswerArrives(p: I.Plant)
    requires p.running && |p.toDevice| == 1 && p.toHost == [] && p.daemon.output.None?
             && p.daemon.session.device == S.Ready
    requires p.daemon.session.pending.active && p.daemon.session.pending.frame == p.toDevice[0]
             && IsUpdate(p.toDevice[0].kind)
    requires p.daemon.activeClient.Some? && !U.Active(p.daemon.upgrade)
    ensures var q := I.Next(I.Next(p, I.DeviceMoves(Willing(p.device), false)), I.Receives(CALM));
            && Quiet(q) && q.daemon.upgrade == p.daemon.upgrade && q.file == p.file
            && q.device == Respond(p.device, p.toDevice[0], Willing(p.device)).0
  {
    var r := Respond(p.device, p.toDevice[0], Willing(p.device)).1;
    AnswerKind(p.device, p.toDevice[0]);
    TakesAnswer(p.daemon, r);
    hide Respond, D.OnDeviceFrame, IsUpdate;
    assert I.Next(p, I.DeviceMoves(Willing(p.device), false)).toHost == [r];
  }

  lemma RunFour(p: I.Plant, a: I.Move, b: I.Move, c: I.Move, d: I.Move)
    ensures I.Run(p, [a, b, c, d]) == I.Next(I.Next(I.Next(I.Next(p, a), b), c), d)
  {
    hide I.Next;
    RunThree(I.Next(p, a), b, c, d);
    assert [a, b, c, d][1..] == [b, c, d];
  }

  lemma RunThree(p: I.Plant, a: I.Move, b: I.Move, c: I.Move)
    ensures I.Run(p, [a, b, c]) == I.Next(I.Next(I.Next(p, a), b), c)
  {
    hide I.Next;
    assert [a, b, c][1..] == [b, c] && [b, c][1..] == [c] && [c][1..] == [];
    assert I.Run(I.Next(I.Next(p, a), b), [c]) == I.Next(I.Next(I.Next(p, a), b), c);
    assert I.Run(I.Next(p, a), [b, c]) == I.Next(I.Next(I.Next(p, a), b), c);
  }

  /** A FW_BEGIN in order, for an image of another size. */
  predicate BeginsOther(payload: seq<byte>, size: nat) {
    && 11 <= |payload| <= MAX_PAYLOAD && 0 < GetLe32(payload) <= MAX_IMAGE && GetLe32(payload) != size
    && 0 < GetLe16(payload[8..]) <= MAX_PAYLOAD - 8 && 0 < |StringAt(payload[10..])| < VERSION_BUFFER
  }

  lemma BeginReplaces(d: Sim, f: Frame)
    requires d.bootloader && !d.upgrading && f.kind == FW_BEGIN && BeginsOther(f.payload, |d.flash|)
    ensures Respond(d, f, Willing(d)).0.flash != d.flash
  {
    hide GetLe32, GetLe16, PutLe32, StringAt, Allocate;
  }

  /** Once an update is complete, a client that enters the bootloader and begins an image of its own
      replaces the one installed, while the daemon goes on reporting the update complete. */
  lemma ClientUndoesUpdate(p: I.Plant, client: nat, payload: seq<byte>)
    requires Quiet(p) && p.daemon.upgrade.phase == U.Complete && p.device.flash == p.file && !p.device.upgrading
    requires BeginsOther(payload, |p.file|)
    ensures var first := Exchange(p, client, ENTER_BOOTLOADER, []);
            var q := I.Run(p, first + Exchange(I.Run(p, first), client, FW_BEGIN, payload)[..3]);
            q.daemon.upgrade.phase == U.Complete && q.file == p.file && q.device.flash != q.file
  {
    var first := Exchange(p, client, ENTER_BOOTLOADER, []);
    Exchanged(p, client, ENTER_BOOTLOADER, []);
    var entered := I.Run(p, first);
    EnterOnly(p.device, Sent(p.daemon, ENTER_BOOTLOADER, []));
    var second := Exchange(entered, client, FW_BEGIN, payload);
    Forwarded(entered, client, FW_BEGIN, payload);
    BeginReplaces(entered.device, Sent(entered.daemon, FW_BEGIN, payload));
    assert second[..3] == [second[0], second[1], second[2]];
    RunThree(entered, second[0], second[1], second[2]);
    RunOn(p, first, second[..3]);
    hide I.Run, Respond, D.React, BeginsOther;
  }

  lemma EnterOnly(d: Sim, f: Frame)
    requires f.kind == ENTER_BOOTLOADER
    ensures Respond(d, f, Willing(d)).0 == d.(telemetry := false, bootloader := true)
  {
  }

  lemma SomeOther(size: nat) returns (payload: seq<byte>)
    ensures BeginsOther(payload, size)
  {
    var image: seq<byte> := if size == 1 then [0, 0] else [0];
    var u := U.INITIAL.(image := image, chunkSize := 1, version := [0x31]);
    BeginFields(u);
    hide GetLe32, GetLe16, StringAt;
    payload := U.BeginPayload(u);
  }

  /** Such a run starts where the daemon does: what is allowed brings an update to its end, and seven
      moves later, the fifth of them that FW_BEGIN, its image is gone from a device that is still
      reported as updated. */
  lemma CompletionCanBeUndone(env: D.Env, device: Sim, file: seq<byte>, version: CString, lib: Library)
    returns (moves: seq<I.Move>, more: seq<I.Move>)
    requires env.transport == Ok && Shelved(device, lib) && 0 < |file| <= MAX_IMAGE && 0 < |version| <= U.VERSION_MAX
    requires lib(Label(|file|, Checksum(file), D.DEFAULT_CHUNK, version)) == Some(file)
    ensures I.AllAllowed(I.Start(env, device), moves, lib) && |more| == 7
    ensures var p := I.Run(I.Start(env, device), moves);
            p.daemon.upgrade.phase == U.Complete && p.device.flash == p.file
    ensures var q := I.Run(I.Start(env, device), moves + more);
            q.daemon.upgrade.phase == U.Complete && q.file == file && q.device.flash != file
  {
    hide I.Run, I.AllAllowed, Shelved, Checksum, Quiet, BeginsOther;
    var p;
    moves, p := UpdateCanComplete(env, device, file, version, lib);
    var payload := SomeOther(|file|);
    ClientUndoesUpdate(p, 0, payload);
    var first := Exchange(p, 0, ENTER_BOOTLOADER, []);
    more := first + Exchange(I.Run(p, first), 0, FW_BEGIN, payload)[..3];
    RunOn(I.Start(env, device), moves, more);
  }

  // ----- An update that fails on a full output buffer -----

  /** The request in flight is all there is on the line, and no answer. */
  ghost predicate JustAsked(p: I.Plant) {
    |I.Outgoing(p)| == 1 && p.toHost == []
  }

  /** The device handles the request, and the update goes on with the answer. */
  lemma RoundTrip(p: I.Plant, a: U.State, starved: bool, base: nat, lib: Library)
    returns (moves: seq<I.Move>, q: I.Plant, b: U.State, hungry: bool)
    requires Follows(p, a, starved, base, lib) && JustAsked(p) && a.phase != U.Restarting
    ensures I.AllAllowed(p, moves, lib) && q == I.Run(p, moves)
    ensures Follows(q, b, hungry, base, lib) && JustAsked(q) && q.toDevice == []
    ensures Sound(a) && Asks(I.Outgoing(p)[0], a)
            && q.device == Respond(p.device, I.Outgoing(p)[0], Willing(p.device)).0
    ensures q.daemon.upgrade == b == U.Build(Advanced(a, q.device)).0
  {
    hide I.PlantOk, Inv, Q.Waits, I.Allowed, I.Next, Next, Sound, U.RoundsLeft, Asks, U.Build, Advanced, Respond,
      Negative, Shorter, Current;
    var l := I.LinkOf(p, a, starved);
    Q.AskedHead(l, base, lib);
    Flushed(p, a, starved, base, lib);
    var p1 := I.Next(p, I.Flushes);
    var handle := I.DeviceMoves(Willing(p1.device), false);
    Handled(p1, a, starved, base, lib);
    Q.AnsweredHead(l, base, lib, Willing(p1.device));
    var p2, m := I.Next(p1, handle), Next(l, DeviceHandles(Willing(p1.device), false));
    Received(p2, m.asked, m.starved, base, lib);
    Q.AnswerTaken(m, base, lib);
    q := I.Next(p2, I.Receives(CALM));
    var n := Next(m, HostReceives(0, Ok));
    b, hungry := n.asked, n.starved;
    ReceiptStays(p2);
    StillActive(a, q.device);
    RunNone(q, lib);
    Prepend(p2, I.Receives(CALM), [], lib);
    Prepend(p1, handle, [I.Receives(CALM)] + [], lib);
    Prepend(p, I.Flushes, [handle] + ([I.Receives(CALM)] + []), lib);
    moves := [I.Flushes] + ([handle] + ([I.Receives(CALM)] + []));
  }

  lemma ReceiptStays(p: I.Plant)
    ensures I.Next(p, I.Receives(CALM)).toDevice == p.toDevice
  {
    hide D.React;
  }

  lemma StillActive(a: U.State, d: Sim)
    requires a.phase != U.Restarting && Sound(a)
    ensures U.Build(Advanced(a, d)).0.phase != U.Complete
  {
    BuildKeepsPhase(Advanced(a, d));
    hide U.Build;
  }

  /** On a device that has no session, the first chunk is sent after two round trips. */
  lemma BeginsAnew(a: U.State, d: Sim, f: Frame)
    requires Sound(a) && a.phase == U.Beginning && Asks(f, a) && d.bootloader && !d.upgrading
    ensures Respond(d, f, Willing(d)).0.offset == 0
  {
    AsksKind(a);
    BeginFields(a);
    assert f.payload == U.BeginPayload(a);
    hide GetLe32, GetLe16, PutLe32, PutLe16, StringAt, Checksum, U.BeginPayload;
  }

  lemma Enters(a: U.State, d: Sim, f: Frame)
    requires Sound(a) && a.phase == U.Entering && Asks(f, a)
    ensures Respond(d, f, Willing(d)).0 == d.(telemetry := false, bootloader := true)
  {
    AsksKind(a);
    hide Question, Sound;
    EnterOnly(d, f);
  }

  lemma FirstAdvances(a: U.State, d: Sim)
    requires a.recoveries == 0 && 0 < |a.image|
    ensures var b := U.Build(Advanced(a, d)).0;
            && b.recoveries == 0 && b.image == a.image
            && (a.phase == U.Entering ==> b.phase == U.Beginning)
            && (a.phase == U.Beginning && d.offset == 0 ==> b.phase == U.Transferring)
  {
    BuildCounts(Advanced(a, d));
    hide U.Build;
  }

  /** The first chunk waits in the output buffer. */
  lemma SendsFirstChunk(p: I.Plant, a: U.State, base: nat, lib: Library)
    returns (moves: seq<I.Move>, q: I.Plant, b: U.State, hungry: bool)
    requires Follows(p, a, false, base, lib) && JustAsked(p) && a.phase == U.Entering && a.recoveries == 0
             && 0 < |a.image|
    requires !p.device.upgrading
    ensures I.AllAllowed(p, moves, lib) && q == I.Run(p, moves)
    ensures Follows(q, b, hungry, base, lib) && q.daemon.output.Some?
    ensures q.daemon.upgrade.phase == U.Transferring && q.daemon.upgrade.recoveries == 0
  {
    hide Follows, I.AllAllowed, I.Run, U.Build, Advanced, Respond, Sound, Asks;
    var first, p1, a1, h1 := RoundTrip(p, a, false, base, lib);
    Enters(a, p.device, I.Outgoing(p)[0]);
    FirstAdvances(a, p1.device);
    var second, p2, a2, h2 := RoundTrip(p1, a1, h1, base, lib);
    BeginsAnew(a1, p1.device, I.Outgoing(p1)[0]);
    FirstAdvances(a1, p2.device);
    Append(p, first, second, lib);
    moves, q, b, hungry := first + second, p2, a2, h2;
  }

  /** The chunk is sent again, as often as it may be, each time at its deadline; then its last copy is
      still in the output buffer when the deadline comes for good. */
  lemma {:induction false} RetriesRunOut(p: I.Plant, a: U.State, starved: bool, base: nat, lib: Library)
    returns (moves: seq<I.Move>, q: I.Plant)
    requires Follows(p, a, starved, base, lib) && p.daemon.output.Some?
    ensures I.AllAllowed(p, moves, lib) && q == I.Run(p, moves)
    ensures Follows(q, a, starved, base, lib) && q.daemon.output.Some? && q.daemon.upgrade == p.daemon.upgrade
    ensures q.daemon.session.pending.retriesDone >= q.daemon.session.pending.policy.maxRetries
    decreases 255 - p.daemon.session.pending.retriesDone
  {
    hide Follows, I.AllAllowed, I.Run, I.Next, I.Allowed;
    var pending := p.daemon.session.pending;
    if pending.retriesDone >= pending.policy.maxRetries {
      RunNone(p, lib);
      moves, q := [], p;
    } else {
      Flushed(p, a, starved, base, lib);
      var p1 := I.Next(p, I.Flushes);
      var tick := I.Reacts(D.TimerFires(D.Env(pending.deadline, Ok, Ok)));
      Retries(p1, a, starved, base, lib);
      var p2 := I.Next(p1, tick);
      moves, q := RetriesRunOut(p2, a, starved, base, lib);
      Prepend(p1, tick, moves, lib);
      Prepend(p, I.Flushes, [tick] + moves, lib);
      moves := [I.Flushes] + ([tick] + moves);
    }
  }

  lemma Retries(p: I.Plant, a: U.State, starved: bool, base: nat, lib: Library)
    requires Follows(p, a, starved, base, lib) && p.daemon.output.None?
    requires p.daemon.session.pending.retriesDone < p.daemon.session.pending.policy.maxRetries
    ensures var tick := I.Reacts(D.TimerFires(D.Env(p.daemon.session.pending.deadline, Ok, Ok)));
            var q := I.Next(p, tick);
            && I.Allowed(p, tick, lib) && Follows(q, a, starved, base, lib) && q.daemon.output.Some?
            && q.daemon.upgrade == p.daemon.upgrade
            && q.daemon.session.pending.retriesDone == p.daemon.session.pending.retriesDone + 1
  {
    hide I.PlantOk, Inv, D.Joint, Sound, D.OnTimer, I.Fresh, Q.Waits;
    var now := p.daemon.session.pending.deadline;
    var e := D.TimerFires(D.Env(now, Ok, Ok));
    FollowsTransfer(p, a, starved, base, lib);
    HostWaits(I.LinkOf(p, a, starved), base, lib);
    RetryAtDeadline(p.daemon);
    RetryTracked(p, a, starved, base, lib);
    assert I.Allowed(p, I.Reacts(e), lib);
    I.NextKeepsPlant(p, I.Reacts(e), lib);
  }

  lemma RetryTracked(p: I.Plant, a: U.State, starved: bool, base: nat, lib: Library)
    requires Follows(p, a, starved, base, lib) && p.daemon.output.None?
    requires p.daemon.session.pending.retriesDone < p.daemon.session.pending.policy.maxRetries
    ensures var q := I.Next(p, I.Reacts(D.TimerFires(D.Env(p.daemon.session.pending.deadline, Ok, Ok))));
            q.running && I.Tracked(q, a, starved, base, lib) && Q.Waits(I.LinkOf(q, a, starved))
  {
    hide I.PlantOk, Inv, D.Joint, Sound, TickStep, D.OnTimer, I.Fresh, Q.OnLine, Q.Refused, I.React;
    var now := p.daemon.session.pending.deadline;
    var l := I.LinkOf(p, a, starved);
    FollowsTransfer(p, a, starved, base, lib);
    I.TimerIsLinked(p, a, starved, D.Env(now, Ok, Ok));
    I.LinkSteps(l, HostTicks(now, Ok));
    I.NextReacts(p, D.TimerFires(D.Env(now, Ok, Ok)));
    Q.Retransmits(l, base, lib, now);
    TickLeavesStarved(l, now);
  }

  lemma TickLeavesStarved(l: Link, now: u64)
    ensures TickStep(l, now, Ok).starved == l.starved
  {
    hide S.Tick, Driver.OnUpgradeTimeout, U.BeginRecovery;
  }

  lemma RetryAtDeadline(c: D.Context)
    requires c.session.pending.active && c.output.None?
             && c.session.pending.retriesDone < c.session.pending.policy.maxRetries
    ensures var (d, status) := D.OnTimer(c, D.Env(c.session.pending.deadline, Ok, Ok));
            && status == Ok && d == c.(session := d.session, output := d.output) && d.output.Some?
            && d.session.pending.retriesDone == c.session.pending.retriesDone + 1
  {
    hide D.RecoverUpgrade;
  }

  lemma LaunchAsks(x: Setting)
    requires U.Good(x.update) && x.update.phase == U.Entering && S.Consistent(x.session) && !x.session.pending.active
    requires x.queued == Ok && x.toHost == [] && x.toDevice == []
    ensures |Launch(x).toDevice| == 1 && Launch(x).toHost == []
  {
    Driver.QueueNumbers(Driver.Host(S.Transition(x.session, S.StartUpgrade).0, x.update), x.now, Ok);
    hide Driver.QueueRequest, S.Numbered, U.Build;
  }

  /** A failure that a full output buffer alone brings about, in a run from the daemon's start: the first
      chunk has been sent as often as it may be and no recovery has been tried yet. If its last copy is
      still in the output buffer when its deadline comes, the update fails; had it left, the update would
      recover. */
  lemma BusyTimeoutReached(env: D.Env, device: Sim, file: seq<byte>, version: CString, lib: Library)
    returns (moves: seq<I.Move>, p: I.Plant, late: I.Move)
    requires env.transport == Ok && Shelved(device, lib) && 0 < |file| <= MAX_IMAGE && 0 < |version| <= U.VERSION_MAX
    requires lib(Label(|file|, Checksum(file), D.DEFAULT_CHUNK, version)) == Some(file) && !device.upgrading
    ensures I.AllAllowed(I.Start(env, device), moves, lib) && p == I.Run(I.Start(env, device), moves)
    ensures p.daemon.upgrade.phase == U.Transferring && p.daemon.upgrade.recoveries == 0 && p.daemon.output.Some?
    ensures I.Next(p, late).daemon.upgrade.phase == U.Errored
    ensures I.Next(I.Next(p, I.Flushes), late).daemon.upgrade.phase != U.Errored
  {
    hide I.PlantOk, I.Next, I.Run, I.AllAllowed, I.Allowed, Shelved, Follows, I.Start, Checksum, Launch;
    var p0 := I.Start(env, device);
    var offering, p1 := Offers(env, device, file, version, lib);
    var adopt := I.Reacts(D.WorkerReady(file, CALM));
    UpdateStarts(p1, file, lib);
    var p2, x, base := I.Next(p1, adopt), I.SettingOf(p1, file, CALM), p1.daemon.session.stats.requests;
    FirstAsks(p1, file, lib);
    var sending, p3, b, hungry := SendsFirstChunk(p2, x.update, base, lib);
    var retrying, p4 := RetriesRunOut(p3, b, hungry, base, lib);
    Append(p2, sending, retrying, lib);
    Prepend(p1, adopt, sending + retrying, lib);
    Append(p0, offering, [adopt] + (sending + retrying), lib);
    moves, p := offering + ([adopt] + (sending + retrying)), p4;
    late := I.Reacts(D.TimerFires(D.Env(p.daemon.session.pending.deadline, Ok, Ok)));
    FailsUnlessFlushed(p, b, hungry, base, lib);
  }

  lemma FirstAsks(p: I.Plant, file: seq<byte>, lib: Library)
    requires I.PlantOk(p, lib) && Offered(p, file)
    requires lib(Label(|file|, Checksum(file), D.DEFAULT_CHUNK, p.daemon.version)) == Some(file)
    ensures var x := I.SettingOf(p, file, CALM);
            && JustAsked(I.Next(p, I.Reacts(D.WorkerReady(file, CALM)))) && x.update.phase == U.Entering
            && x.update.recoveries == 0 && x.update.image == file
  {
    assert I.Outgoing(p) == [];
    UpdateStarts(p, file, lib);
    hide I.Next, Launch, Checksum, Follows, I.LineOk, I.JobOk, D.Joint;
    LaunchAsks(I.SettingOf(p, file, CALM));
  }

  lemma FailsUnlessFlushed(p: I.Plant, a: U.State, starved: bool, base: nat, lib: Library)
    requires Follows(p, a, starved, base, lib) && p.daemon.output.Some?
    requires p.daemon.upgrade.phase == U.Transferring && p.daemon.upgrade.recoveries == 0
    requires p.daemon.session.pending.retriesDone >= p.daemon.session.pending.policy.maxRetries
    ensures var late := I.Reacts(D.TimerFires(D.Env(p.daemon.session.pending.deadline, Ok, Ok)));
            && I.Next(p, late).daemon.upgrade.phase == U.Errored
            && I.Next(I.Next(p, I.Flushes), late).daemon.upgrade.phase != U.Errored
  {
    hide D.Joint, D.OnTimer, Follows, I.PlantOk, I.Fresh, Inv, Sound, S.Tick;
    var env, q := D.Env(p.daemon.session.pending.deadline, Ok, Ok), I.Next(p, I.Flushes);
    FollowsTransfer(p, a, starved, base, lib);
    LastTick(p, a, starved, base, lib);
    Flushed(p, a, starved, base, lib);
    FollowsTransfer(q, a, starved, base, lib);
    D.BusyTimeoutFails(p.daemon, env);
    D.TimeoutFailsExactly(q.daemon, env);
    I.NextReacts(p, D.TimerFires(env));
    I.NextReacts(q, D.TimerFires(env));
    hide I.Next;
  }

  lemma LastTick(p: I.Plant, a: U.State, starved: bool, base: nat, lib: Library)
    requires Follows(p, a, starved, base, lib)
    requires p.daemon.session.pending.retriesDone >= p.daemon.session.pending.policy.maxRetries
    ensures p.running
    ensures forall sent :: S.Tick(p.daemon.session, p.daemon.session.pending.deadline, sent).1 == Timeout
  {
    HostWaits(I.LinkOf(p, a, starved), base, lib);
    hide Inv, Q.Waits, I.PlantOk, Sound;
  }
}
