/** A run of the whole system, from the daemon's start, in which any file of the library is installed. */
module FirstUpdate {
  import opened Wire
  import opened Crc32
  import opened Simulator
  import opened LossyLink
  import opened Resumption
  import opened LinkInvariant
  import opened LinkRuns
  import D = Daemon
  import Driver
  import I = Installation
  import Q = QuietLine
  import S = Session
  import U = Upgrade
  import W = Worker

  /** Surroundings in which nothing goes wrong, and a device that answers with an acknowledgement. */
  const CALM: D.Env := D.Env(0, Ok, Ok)

  function Willing(d: Sim): DeviceEnv {
    DeviceEnv(Memory(_ => 0), d.telemetry, Frame(ACK, FLAG_RESPONSE, 0, []))
  }

  /** The daemon serves its clients, with nothing in flight and nothing on the line. */
  ghost predicate Quiet(p: I.Plant) {
    var c := p.daemon;
    && p.running && p.toDevice == [] && p.toHost == [] && c.output.None? && !c.session.pending.active
    && c.activeClient.None? && c.session.device == S.Ready
  }

  // ----- Putting runs together -----

  lemma RunNone(p: I.Plant, lib: Library)
    ensures I.Run(p, []) == p && I.AllAllowed(p, [], lib)
  {
    hide I.Next, I.Allowed;
  }

  lemma Prepend(p: I.Plant, move: I.Move, rest: seq<I.Move>, lib: Library)
    requires I.Allowed(p, move, lib) && I.AllAllowed(I.Next(p, move), rest, lib)
    ensures I.Run(p, [move] + rest) == I.Run(I.Next(p, move), rest) && I.AllAllowed(p, [move] + rest, lib)
  {
    hide I.Next, I.Allowed;
    assert ([move] + rest)[1..] == rest;
  }

  lemma {:induction false} RunOn(p: I.Plant, a: seq<I.Move>, b: seq<I.Move>)
    ensures I.Run(p, a + b) == I.Run(I.Run(p, a), b)
    decreases |a|
  {
    hide I.Next;
    if a == [] {
      assert a + b == b;
    } else {
      RunOn(I.Next(p, a[0]), a[1..], b);
      assert (a + b)[1..] == a[1..] + b;
    }
  }

  lemma {:induction false} Append(p: I.Plant, a: seq<I.Move>, b: seq<I.Move>, lib: Library)
    requires I.AllAllowed(p, a, lib) && I.AllAllowed(I.Run(p, a), b, lib)
    ensures I.Run(p, a + b) == I.Run(I.Run(p, a), b) && I.AllAllowed(p, a + b, lib)
    decreases |a|
  {
    hide I.Next, I.Allowed;
    RunOn(p, a, b);
    if a == [] {
      assert a + b == b;
    } else {
      Append(I.Next(p, a[0]), a[1..], b, lib);
      assert (a + b)[1..] == a[1..] + b;
    }
  }

  // ----- The handshake and the validation -----

  /** What the daemon is like when its handshake is over. */
  ghost predicate Greeted(p: I.Plant, device: Sim) {
    Quiet(p) && p.daemon.upgrade == U.INITIAL && p.daemon.sys == W.START && p.daemon.operationId == 0
    && p.device == device
  }

  const GREETING: Frame := Frame(PING, FLAG_ACK_REQUIRED, 1, [])

  lemma Greets(env: D.Env)
    requires env.transport == Ok
    ensures var (c, status) := D.Boot(env);
            && status == Ok && c == D.FRESH.(session := c.session, output := Some(GREETING))
            && c.session.device == S.Handshaking && c.session.pending.active && c.session.pending.frame == GREETING
  {
  }

  lemma IsGreeted(c: D.Context)
    requires c.session.device == S.Handshaking && c.session.pending.active && c.session.pending.frame == GREETING
    ensures var (d, status) := D.OnDeviceFrame(c, Frame(ACK, FLAG_RESPONSE, 1, []), CALM);
            && status == Ok && d == c.(session := d.session) && d.session.device == S.Ready && !d.session.pending.active
  {
    hide D.QueueUpgrade, D.EndUpgrade, U.Accept;
  }

  lemma Handshake(env: D.Env, device: Sim)
    requires env.transport == Ok
    ensures var p := I.Next(I.Start(env, device), I.Flushes);
            Greeted(I.Next(I.Next(p, I.DeviceMoves(Willing(device), false)), I.Receives(CALM)), device)
  {
    hide Handle, D.OnTimer, D.OnWorkerReady, D.StartRequest, D.OnDeviceFrame, D.Boot;
    Greets(env);
    var a := I.Start(env, device);
    var b := I.Next(a, I.Flushes);
    assert b == a.(daemon := a.daemon.(output := None), toDevice := [GREETING]);
    var c := I.Next(b, I.DeviceMoves(Willing(device), false));
    assert Respond(device, GREETING, Willing(device)) == (device, Frame(ACK, FLAG_RESPONSE, 1, []));
    IsGreeted(c.daemon);
  }

  const PATH: CString := [0x66]

  function Command(version: CString): seq<byte> {
    PATH + [0] + version + [0]
  }

  lemma CommandNames(version: CString)
    requires 0 < |version| <= U.VERSION_MAX
    ensures D.UpgradeNames(Command(version)) == Some((PATH, version))
  {
    var p := Command(version);
    assert p == [0x66, 0] + (version + [0]);
    assert p[1..] == [0] + (version + [0]) && p[2..] == version + [0];
    assert FirstZero(p[1..]) == 0 && FirstZero(p) == 1;
    FirstZeroAtEnd(version);
    assert p[..1] == PATH && (version + [0])[..|version|] == version;
  }

  /** The client's command, and the moves of the worker that validates the file. */
  lemma Validated(p: I.Plant, device: Sim, version: CString) returns (q: I.Plant)
    requires Greeted(p, device) && 0 < |version| <= U.VERSION_MAX
    ensures q == I.Next(I.Next(I.Next(I.Next(I.Next(p,
                   I.Reacts(D.ClientCommand(0, D.UPGRADE, Command(version), CALM))),
                   I.Reacts(D.WorkerMoves(W.WorkerWakes))),
                   I.Reacts(D.WorkerMoves(W.WorkerOpens(Ok)))),
                   I.Reacts(D.WorkerMoves(W.WorkerPosts))),
                   I.Reacts(D.WorkerMoves(W.WorkerSignals)))
    ensures Quiet(q) && q.device == device && q.daemon.upgrade.phase == U.Validating && q.daemon.version == version
    ensures q.daemon.sys.box.events == 1 && q.daemon.sys.reactor == W.Serving && q.daemon.session == p.daemon.session
    ensures W.Take(q.daemon.sys.box).1 == Success(W.Validation(q.daemon.operationId, Ok, Some(0)))
  {
    CommandNames(version);
    hide D.UpgradeNames, Command, PutLe32, Respond, D.OnTimer, D.OnDeviceFrame, D.PassOn, D.TellProgress;
    var names := D.UpgradeNames(Command(version));
    var a := I.Next(p, I.Reacts(D.ClientCommand(0, D.UPGRADE, Command(version), CALM)));
    assert a.daemon == D.SubmitUpgrade(p.daemon, 0, PATH, version);
    assert a.running && a.daemon.sys == W.START.(box := W.EMPTY.(jobPath := PATH, jobId := 1, jobPending := true));
    var b := I.Next(a, I.Reacts(D.WorkerMoves(W.WorkerWakes)));
    var c := I.Next(b, I.Reacts(D.WorkerMoves(W.WorkerOpens(Ok))));
    var d := I.Next(c, I.Reacts(D.WorkerMoves(W.WorkerPosts)));
    q := I.Next(d, I.Reacts(D.WorkerMoves(W.WorkerSignals)));
  }

  // ----- The transfer -----

  /** The update is under way, and what it waits for is on its way. */
  ghost predicate Follows(p: I.Plant, a: U.State, starved: bool, base: nat, lib: Library) {
    I.PlantOk(p, lib) && p.running && I.Tracked(p, a, starved, base, lib) && Q.Waits(I.LinkOf(p, a, starved))
  }

  /** It is over, and the daemon serves its clients again. */
  ghost predicate Ended(p: I.Plant) {
    var c := p.daemon;
    && p.running && c.upgrade.phase == U.Complete && c.session.device == S.Ready && !c.session.pending.active
    && c.activeClient.None? && c.output.None?
  }

  ghost predicate SameFile(p: I.Plant, q: I.Plant) {
    q.file == p.file && q.daemon.version == p.daemon.version
  }

  lemma FollowsTransfer(p: I.Plant, a: U.State, starved: bool, base: nat, lib: Library)
    requires Follows(p, a, starved, base, lib)
    ensures D.InTransfer(p.daemon.upgrade.phase) && D.Joint(p.daemon) && Sound(a)
  {
    I.TransferPhase(I.LinkOf(p, a, starved), base, lib);
    InvIsSound(I.LinkOf(p, a, starved), base, lib);
    hide Inv, D.Joint, Sound, I.LineOk, I.JobOk, S.Consistent;
  }

  lemma Flushed(p: I.Plant, a: U.State, starved: bool, base: nat, lib: Library)
    requires Follows(p, a, starved, base, lib)
    ensures var q := I.Next(p, I.Flushes);
            && Follows(q, a, starved, base, lib) && I.LinkOf(q, a, starved) == I.LinkOf(p, a, starved) && SameFile(p, q)
            && q.daemon == p.daemon.(output := None) && q.toDevice == I.Outgoing(p) && q.toHost == p.toHost
            && q.device == p.device
            && I.Allowed(p, I.Flushes, lib)
  {
    I.FlushIsLinked(p, a, starved);
    hide I.PlantOk, Inv, Q.Waits, D.React, I.Fresh;
    I.NextKeepsPlant(p, I.Flushes, lib);
  }

  /** What link steps do to the work left, the plant does too. */
  ghost predicate Shorter(p: I.Plant, q: I.Plant, a: U.State, b: U.State) {
    && Sound(a) && Sound(b)
    && Q.Work(I.LinkOf(q, b, false)) < Q.Work(I.LinkOf(p, a, false))
  }

  lemma StepShortens(p: I.Plant, q: I.Plant, a: U.State, starved: bool, base: nat, lib: Library, step: Step)
    requires Follows(p, a, starved, base, lib) && Q.Harmless(step) && Q.Productive(I.LinkOf(p, a, starved), step)
             && Q.Burden(step) == 0
    requires !Fatal(I.LinkOf(p, a, starved), step) && I.PlantOk(q, lib)
    requires var m := Next(I.LinkOf(p, a, starved), step); I.LinkOf(q, m.asked, m.starved) == m
    ensures var m := Next(I.LinkOf(p, a, starved), step);
            || q.daemon.upgrade.phase == U.Complete
            || (Follows(q, m.asked, m.starved, base, lib) && Shorter(p, q, a, m.asked))
  {
    hide I.PlantOk, Inv, Next, Fatal, U.RoundsLeft;
    var l := I.LinkOf(p, a, starved);
    var m := Next(l, step);
    InvIsSound(l, base, lib);
    Q.StepWorks(l, base, lib, step);
    InvIsSound(m, base, lib);
  }

  lemma Handled(p: I.Plant, a: U.State, starved: bool, base: nat, lib: Library)
    requires Follows(p, a, starved, base, lib) && p.toDevice != []
    ensures var q := I.Next(p, I.DeviceMoves(Willing(p.device), false));
            var m := Next(I.LinkOf(p, a, starved), DeviceHandles(Willing(p.device), false));
            && I.LinkOf(q, m.asked, m.starved) == m && SameFile(p, q) && q.daemon == p.daemon
            && Follows(q, m.asked, m.starved, base, lib) && Shorter(p, q, a, m.asked)
            && I.Allowed(p, I.DeviceMoves(Willing(p.device), false), lib)
  {
    hide I.PlantOk, Inv, Q.Waits, D.React, D.Joint, I.Fresh, Respond, NeedsMemory, Shorter, Sound;
    var l, step := I.LinkOf(p, a, starved), DeviceHandles(Willing(p.device), false);
    FollowsTransfer(p, a, starved, base, lib);
    I.DeviceIsLinked(p, a, starved, I.DeviceMoves(Willing(p.device), false));
    I.NextKeepsPlant(p, I.DeviceMoves(Willing(p.device), false), lib);
    StepShortens(p, I.Next(p, I.DeviceMoves(Willing(p.device), false)), a, starved, base, lib, step);
  }

  lemma QueueCompletesNothing(c: D.Context)
    requires c.upgrade.phase != U.Complete
    ensures D.QueueUpgrade(c, CALM).0.upgrade.phase != U.Complete
  {
    BuildKeepsPhase(c.upgrade);
    hide U.Build, S.Begin;
  }

  lemma EndIsQuiet(c: D.Context)
    requires c.session.device == S.Upgrading
    ensures var d := D.EndUpgrade(c, Ok);
            && d.session.device == S.Ready && d.session.pending == c.session.pending && d.activeClient == c.activeClient
            && d.output == c.output && d.upgrade == c.upgrade
  {
    hide W.Held;
  }

  lemma RefusedIsErrored(u: U.State, kind: byte, f: Frame)
    ensures U.Accept(u, kind, f).1 != Ok ==> U.Accept(u, kind, f).0.phase == U.Errored
  {
    hide GetLe32;
  }

  lemma EndKeepsUpdate(c: D.Context, status: Status)
    ensures D.EndUpgrade(c, status).upgrade == c.upgrade
  {
    hide W.Held, S.Transition;
  }

  /** The answer that completes an update leaves the daemon with nothing to do. */
  lemma CompletionEnds(c: D.Context, f: Frame)
    requires D.InTransfer(c.upgrade.phase) && c.session.device == S.Upgrading && c.activeClient.None? && c.output.None?
    requires D.OnDeviceFrame(c, f, CALM).0.upgrade.phase == U.Complete
    ensures var (d, status) := D.OnDeviceFrame(c, f, CALM);
            && status == Ok && d.session.device == S.Ready && !d.session.pending.active && d.activeClient.None?
            && d.output.None?
  {
    D.AcceptEffect(c.session, f);
    var (u, status) := U.Accept(c.upgrade, c.session.pending.frame.kind, f);
    RefusedIsErrored(c.upgrade, c.session.pending.frame.kind, f);
    var e := c.(session := S.Accept(c.session, f).0, upgrade := u);
    hide S.Accept, U.Accept, D.QueueUpgrade, D.EndUpgrade, S.Transition, D.Tell;
    if u.phase != U.Complete {
      QueueCompletesNothing(e);
    }
    EndIsQuiet(e);
    EndKeepsUpdate(e, status);
  }

  lemma Received(p: I.Plant, a: U.State, starved: bool, base: nat, lib: Library)
    requires Follows(p, a, starved, base, lib) && p.toHost != [] && p.daemon.output.None?
    ensures var q := I.Next(p, I.Receives(CALM));
            var m := Next(I.LinkOf(p, a, starved), HostReceives(0, Ok));
            && I.LinkOf(q, m.asked, m.starved) == m && SameFile(p, q) && I.PlantOk(q, lib)
            && (Ended(q) || (Follows(q, m.asked, m.starved, base, lib) && Shorter(p, q, a, m.asked)))
            && I.Allowed(p, I.Receives(CALM), lib)
  {
    hide I.PlantOk, Inv, Q.Waits, I.Fresh, Shorter, Sound, ReceiveStep, D.OnDeviceFrame, Fatal, D.WorkerOk,
      D.ImagesOwned;
    var l, q := I.LinkOf(p, a, starved), I.Next(p, I.Receives(CALM));
    FollowsTransfer(p, a, starved, base, lib);
    I.ReceiptIsLinked(p, a, starved, CALM);
    I.LinkSteps(l, HostReceives(0, Ok));
    I.NextKeepsPlant(p, I.Receives(CALM), lib);
    Q.NeverFatal(l, base, lib);
    StepShortens(p, q, a, starved, base, lib, HostReceives(0, Ok));
    if q.daemon.upgrade.phase == U.Complete {
      CompletionEnds(p.daemon, p.toHost[0]);
    }
  }

  /** Flushing, letting the device answer and receiving, over and over, completes the update. */
  lemma {:induction false} Finishes(p: I.Plant, a: U.State, starved: bool, base: nat, lib: Library)
    returns (moves: seq<I.Move>, q: I.Plant)
    requires Follows(p, a, starved, base, lib)
    ensures I.AllAllowed(p, moves, lib) && q == I.Run(p, moves)
    ensures I.PlantOk(q, lib) && Ended(q) && SameFile(p, q)
    decreases assert Sound(a) by { FollowsTransfer(p, a, starved, base, lib); } Q.Work(I.LinkOf(p, a, false))
  {
    hide I.PlantOk, Inv, Q.Waits, I.Allowed, I.Next, Next, Sound, U.RoundsLeft;
    FollowsTransfer(p, a, starved, base, lib);
    Flushed(p, a, starved, base, lib);
    var b := I.Next(p, I.Flushes);
    Q.SomethingToDo(I.LinkOf(b, a, starved));
    var move := if b.toDevice != [] then I.DeviceMoves(Willing(b.device), false) else I.Receives(CALM);
    var step := if b.toDevice != [] then DeviceHandles(Willing(b.device), false) else HostReceives(0, Ok);
    if b.toDevice != [] {
      Handled(b, a, starved, base, lib);
    } else {
      Received(b, a, starved, base, lib);
    }
    q := I.Next(b, move);
    moves := [];
    RunNone(q, lib);
    if !Ended(q) {
      var m := Next(I.LinkOf(b, a, starved), step);
      moves, q := Finishes(q, m.asked, m.starved, base, lib);
    }
    Prepend(b, move, moves, lib);
    Prepend(p, I.Flushes, [move] + moves, lib);
    moves := [I.Flushes] + ([move] + moves);
  }

  // ----- The line runs dry -----

  /** Late frames change nothing once an update has ended. */
  lemma LateFrame(c: D.Context, f: Frame)
    requires !c.session.pending.active
    ensures var (d, status) := D.OnDeviceFrame(c, f, CALM);
            status == Ok
            && d == c.(telemetry := d.telemetry, telemetryFrames := d.telemetryFrames, session := d.session)
            && d.session == c.session.(stats := d.session.stats)
  {
    hide U.Accept, D.QueueUpgrade, D.EndUpgrade;
  }

  lemma {:induction false} Drains(p: I.Plant, lib: Library) returns (moves: seq<I.Move>, q: I.Plant)
    requires I.PlantOk(p, lib) && Ended(p)
    ensures I.AllAllowed(p, moves, lib) && q == I.Run(p, moves)
    ensures I.PlantOk(q, lib) && Quiet(q) && q.daemon.upgrade.phase == U.Complete && SameFile(p, q)
    decreases 2 * |p.toDevice| + |p.toHost|
  {
    hide I.PlantOk, D.OnDeviceFrame, Respond, I.AllAllowed, I.Run, I.Fresh, D.StartRequest, D.OnTimer, D.OnWorkerReady;
    if p.toDevice == [] && p.toHost == [] {
      RunNone(p, lib);
      moves, q := [], p;
    } else {
      var move := if p.toDevice != [] then I.DeviceMoves(Willing(p.device), false) else I.Receives(CALM);
      if p.toDevice == [] {
        LateFrame(p.daemon, p.toHost[0]);
      }
      I.NextKeepsPlant(p, move, lib);
      moves, q := Drains(I.Next(p, move), lib);
      Prepend(p, move, moves, lib);
      moves := [move] + moves;
    }
  }

  // ----- The first update -----

  /** A file that is validated for the version a client has asked for. */
  ghost predicate Offered(p: I.Plant, file: seq<byte>) {
    && Quiet(p) && p.daemon.upgrade.phase == U.Validating && 0 < |p.daemon.version| <= U.VERSION_MAX
    && 0 < |file| <= MAX_IMAGE
    && p.daemon.sys.box.events == 1 && p.daemon.sys.reactor == W.Serving
    && W.Take(p.daemon.sys.box).1 == Success(W.Validation(p.daemon.operationId, Ok, Some(0)))
  }

  lemma AdoptsFile(c: D.Context, file: seq<byte>)
    requires c.session.device == S.Ready && !c.session.pending.active && c.output.None?
    requires 0 < |c.version| <= U.VERSION_MAX && 0 < |file| <= MAX_IMAGE
    ensures D.Adopt(c, Some(0), file, CALM).upgrade.phase == U.Entering
  {
    hide Checksum;
  }

  lemma Adopted(p: I.Plant, file: seq<byte>)
    requires Offered(p, file) && D.Joint(p.daemon)
    ensures var q := I.Next(p, I.Reacts(D.WorkerReady(file, CALM)));
            var x := I.SettingOf(p, file, CALM);
            && q.running && q.file == file && q.daemon.version == p.daemon.version
            && D.InTransfer(q.daemon.upgrade.phase)
            && x.update.phase == U.Entering && U.Good(x.update) && I.LinkOf(q, x.update, false) == Launch(x)
            && q.device == p.device && q.toHost == []
  {
    hide D.Joint, D.Adopt, Checksum, Launch, I.SettingOf, D.CollectResult, W.Take;
    AdoptsFile(p.daemon.(sys := D.CollectResult(p.daemon.sys)), file);
    I.ValidationLaunches(p, file, CALM);
  }

  lemma LaunchWaits(x: Setting)
    requires U.Good(x.update) && x.update.phase == U.Entering && S.Consistent(x.session) && !x.session.pending.active
    requires x.session.device == S.Ready && x.queued == Ok && x.toHost == []
    ensures Q.Waits(Launch(x))
  {
    var s := S.Transition(x.session, S.StartUpgrade).0;
    Driver.QueueNumbers(Driver.Host(s, x.update), x.now, Ok);
    hide Driver.QueueRequest, S.Numbered, U.Build;
    BuildKeepsPhase(x.update);
    var l := Launch(x);
    assert Current(l, l.toDevice[|l.toDevice| - 1]);
  }

  lemma UpdateStarts(p: I.Plant, file: seq<byte>, lib: Library)
    requires I.PlantOk(p, lib) && Offered(p, file)
    requires lib(Label(|file|, Checksum(file), D.DEFAULT_CHUNK, p.daemon.version)) == Some(file)
    ensures var q := I.Next(p, I.Reacts(D.WorkerReady(file, CALM)));
            var x := I.SettingOf(p, file, CALM);
            && I.Allowed(p, I.Reacts(D.WorkerReady(file, CALM)), lib)
            && Follows(q, x.update, false, p.daemon.session.stats.requests, lib)
            && I.LinkOf(q, x.update, false) == Launch(x)
            && q.file == file && q.daemon.version == p.daemon.version && q.device == p.device && q.toHost == []
  {
    var move := I.Reacts(D.WorkerReady(file, CALM));
    assert I.Outgoing(p) == [] && I.Allowed(p, move, lib);
    Adopted(p, file);
    I.NextKeepsPlant(p, move, lib);
    StartsTracked(p, file, lib);
    hide I.PlantOk, I.Next, I.Allowed, Launch, Inv, D.InTransfer;
    LaunchWaits(I.SettingOf(p, file, CALM));
  }

  lemma StartsTracked(p: I.Plant, file: seq<byte>, lib: Library)
    requires I.PlantOk(p, lib) && p.running && !D.InTransfer(p.daemon.upgrade.phase)
    requires I.Allowed(p, I.Reacts(D.WorkerReady(file, CALM)), lib)
    requires D.InTransfer(I.React(p, D.WorkerReady(file, CALM)).daemon.upgrade.phase)
    ensures Inv(Launch(I.SettingOf(p, file, CALM)), p.daemon.session.stats.requests, lib)
            && S.Consistent(p.daemon.session)
  {
    hide D.Joint, I.React, Inv, Launch, Checksum, Launchable, S.Consistent, I.LineOk, I.JobOk, I.PlainRequest, I.Fresh;
    I.ValidationLaunches(p, file, CALM);
    I.SettingLaunchable(p, file, CALM, lib);
    LaunchEstablishes(I.SettingOf(p, file, CALM), lib);
  }

  /** The daemon starts, greets the device, takes a client's command and has the file validated. */
  lemma Offers(env: D.Env, device: Sim, file: seq<byte>, version: CString, lib: Library)
    returns (moves: seq<I.Move>, q: I.Plant)
    requires env.transport == Ok && Shelved(device, lib) && 0 < |file| <= MAX_IMAGE && 0 < |version| <= U.VERSION_MAX
    ensures I.AllAllowed(I.Start(env, device), moves, lib) && q == I.Run(I.Start(env, device), moves)
    ensures I.PlantOk(q, lib) && Offered(q, file) && q.daemon.version == version && q.device == device
  {
    hide I.PlantOk, I.Next, I.Run, I.AllAllowed, Shelved, Command;
    Handshake(env, device);
    var greeting := [I.Flushes, I.DeviceMoves(Willing(device), false), I.Receives(CALM)];
    var command := I.Reacts(D.ClientCommand(0, D.UPGRADE, Command(version), CALM));
    var steps := [W.WorkerWakes, W.WorkerOpens(Ok), W.WorkerPosts, W.WorkerSignals];
    var p0 := I.Start(env, device);
    var p1 := I.Next(p0, greeting[0]);
    var p2 := I.Next(p1, greeting[1]);
    var p3 := I.Next(p2, greeting[2]);
    var p4 := I.Next(p3, command);
    var p5 := I.Next(p4, I.Reacts(D.WorkerMoves(steps[0])));
    var p6 := I.Next(p5, I.Reacts(D.WorkerMoves(steps[1])));
    var p7 := I.Next(p6, I.Reacts(D.WorkerMoves(steps[2])));
    q := Validated(p3, device, version);
    RunNone(q, lib);
    moves := Onto(p7, I.Reacts(D.WorkerMoves(steps[3])), [], lib);
    moves := Onto(p6, I.Reacts(D.WorkerMoves(steps[2])), moves, lib);
    moves := Onto(p5, I.Reacts(D.WorkerMoves(steps[1])), moves, lib);
    moves := Onto(p4, I.Reacts(D.WorkerMoves(steps[0])), moves, lib);
    moves := Onto(p3, command, moves, lib);
    moves := Onto(p2, greeting[2], moves, lib);
    moves := Onto(p1, greeting[1], moves, lib);
    moves := Onto(p0, greeting[0], moves, lib);
    I.StartIsOk(env, device, lib);
    I.RunKeepsPlant(p0, moves, lib);
  }

  /** A move in front of a run; one that neither adopts a file nor sends a chunk is allowed anywhere. */
  lemma Onto(p: I.Plant, move: I.Move, rest: seq<I.Move>, lib: Library) returns (moves: seq<I.Move>)
    requires I.AllAllowed(I.Next(p, move), rest, lib)
    requires move.Flushes? || move.DeviceMoves? || move.Receives? ||
             (move.Reacts? && D.Possible(move.event)
              && (move.event.WorkerMoves?
                  || (move.event.ClientCommand? && move.event.command != FW_DATA && move.event.command != FW_BEGIN)))
    ensures I.AllAllowed(p, moves, lib) && I.Run(p, moves) == I.Run(I.Next(p, move), rest)
  {
    assert I.Allowed(p, move, lib) by { hide I.Next, I.Fresh, I.Run, I.AllAllowed; }
    hide I.Next, I.Run, I.AllAllowed, I.Allowed;
    Prepend(p, move, rest, lib);
    moves := [move] + rest;
  }

  /** Any file in the library can be installed, under any version it is listed for, on any device whose
      session can be resumed: some run of the whole system, with nothing lost, completes its update and
      leaves the file in the device's flash. */
  lemma UpdateCanComplete(env: D.Env, device: Sim, file: seq<byte>, version: CString, lib: Library)
    returns (moves: seq<I.Move>, p: I.Plant)
    requires env.transport == Ok && Shelved(device, lib) && 0 < |file| <= MAX_IMAGE && 0 < |version| <= U.VERSION_MAX
    requires lib(Label(|file|, Checksum(file), D.DEFAULT_CHUNK, version)) == Some(file)
    ensures I.AllAllowed(I.Start(env, device), moves, lib) && p == I.Run(I.Start(env, device), moves)
    ensures Quiet(p) && p.daemon.upgrade.phase == U.Complete && p.file == file && p.daemon.version == version
    ensures p.device.flash == file && p.device.version == version && !p.device.upgrading
  {
    hide I.PlantOk, I.Next, I.Run, I.AllAllowed, I.Allowed, Shelved, Offered, Follows, Quiet, Ended, I.Start, Checksum,
      I.SettingOf, Launch;
    var p0 := I.Start(env, device);
    var offering, p1 := Offers(env, device, file, version, lib);
    var adopt := I.Reacts(D.WorkerReady(file, CALM));
    UpdateStarts(p1, file, lib);
    var p2 := I.Next(p1, adopt);
    var finishing, p3 := Finishes(p2, I.SettingOf(p1, file, CALM).update, false, p1.daemon.session.stats.requests, lib);
    var draining, p4 := Drains(p3, lib);
    p := p4;
    Append(p2, finishing, draining, lib);
    Prepend(p1, adopt, finishing + draining, lib);
    Append(p0, offering, [adopt] + (finishing + draining), lib);
    moves := offering + ([adopt] + (finishing + draining));
    I.CompleteMeansFileInstalled(env, device, lib, moves);
  }
}
