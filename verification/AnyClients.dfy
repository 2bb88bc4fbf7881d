/** The whole system with any device and with clients that send whatever they like. */
module AnyClients {
  import opened Wire
  import opened Crc32
  import opened Simulator
  import opened LinkInvariant
  import opened LinkRuns
  import opened Numbering
  import opened Installation
  import A = AnySession
  import D = Daemon
  import L = LossyLink
  import S = Session
  import U = Upgrade
  import W = Worker

  /** What is asked of the surroundings: frames come from the device and go out by flushing, and a file
      that is validated has an acceptable size. Clients and device may do as they please. */
  ghost predicate Plausible(move: Move) {
    move.Reacts? ==> D.Possible(move.event) && !move.event.DeviceFrame? && !move.event.OutputFlushed?
  }

  predicate Adopts(move: Move) {
    move.Reacts? && move.event.WorkerReady?
  }

  ghost predicate AllPlausible(p: Plant, moves: seq<Move>)
    decreases |moves|
  {
    moves == [] ||
      (Plausible(moves[0]) && (Adopts(moves[0]) ==> Fresh(p)) && AllPlausible(Next(p, moves[0]), moves[1..]))
  }

  // ----- The invariant -----

  ghost predicate Watched(p: Plant, a: U.State, starved: bool, base: nat) {
    A.Holds(LinkOf(p, a, starved), base)
  }

  ghost predicate LoopOk(p: Plant) {
    p.running ==> D.Joint(p.daemon) && S.Consistent(p.daemon.session)
  }

  ghost predicate Assigned(p: Plant) {
    p.daemon.upgrade.image == p.file && p.daemon.upgrade.version == p.daemon.version
  }

  ghost predicate SystemOk(p: Plant) {
    && LoopOk(p)
    && (D.InTransfer(p.daemon.upgrade.phase) ==> Assigned(p) && exists a, starved, base :: Watched(p, a, starved, base))
  }

  /** The device's flash has the size and checksum of the file, it runs under the version the client
      asked for, and it is out of its bootloader. */
  ghost predicate Passed(p: Plant) {
    && |p.device.flash| == |p.file| && Checksum(p.device.flash) == Checksum(p.file)
    && p.device.version == p.daemon.version && L.Rebooted(p.device)
  }

  /** Between p and q no update has become complete, or the one that has is passed. */
  ghost predicate Honours(p: Plant, q: Plant) {
    p.daemon.upgrade.phase != U.Complete && q.daemon.upgrade.phase == U.Complete ==> Passed(q)
  }

  // ----- Inside a transfer -----

  lemma WatchedPhase(l: L.Link, base: nat)
    requires A.Holds(l, base)
    ensures U.Active(l.host.upgrade) <==> D.InTransfer(l.host.upgrade.phase)
    ensures SameJob(l.host.upgrade, l.asked) && l.asked.imageCrc == Checksum(l.asked.image)
  {
    hide A.DeviceHolds, A.QueueHolds, A.RepliesHold, A.Spent, S.Consistent, L.Question;
  }

  lemma WatchedStep(p: Plant, q: Plant, a: U.State, starved: bool, base: nat, step: L.Step)
    requires Watched(p, a, starved, base) && Assigned(p) && D.InTransfer(p.daemon.upgrade.phase)
    requires var l := L.Next(LinkOf(p, a, starved), step); LinkOf(q, l.asked, l.starved) == l
    requires q.file == p.file && q.daemon.version == p.daemon.version
    ensures Assigned(q) && Honours(p, q) && exists b, starved', base' :: Watched(q, b, starved', base')
  {
    hide A.Holds, L.Next;
    var l := LinkOf(p, a, starved);
    var m := L.Next(l, step);
    WatchedPhase(l, base);
    A.NextHolds(l, step, base);
    NextKeepsJob(l, step);
    WatchedPhase(m, base);
    A.HoldsVerified(m, base);
    assert Watched(q, m.asked, m.starved, base);
    hide Checksum;
  }

  lemma StopHolds(l: L.Link, base: nat, run: bool)
    requires A.Holds(l, base) && U.Active(l.host.upgrade) && (run ==> l.running)
    ensures A.Holds(l.(running := run), base)
  {
    hide L.Sound, A.DeviceHolds, A.QueueHolds, A.RepliesHold, A.Spent, S.Consistent, L.Question;
  }

  lemma DeviceSide(p: Plant, move: Move)
    requires SystemOk(p) && OutsideDaemon(move)
    ensures SystemOk(Next(p, move)) && Honours(p, Next(p, move))
  {
    hide Next, A.Holds, D.Joint, S.Consistent, Checksum;
    var q := Next(p, move);
    DeviceIsLinked(p, U.INITIAL, false, move);
    if D.InTransfer(p.daemon.upgrade.phase) {
      var a, starved, base :| Watched(p, a, starved, base);
      DeviceIsLinked(p, a, starved, move);
      if StepOf(p, move).Some? {
        WatchedStep(p, q, a, starved, base, StepOf(p, move).value);
      }
    }
  }

  lemma LoopKeeps(p: Plant, move: Move)
    requires p.running && LoopOk(p) && !OutsideDaemon(move) && (move.Receives? ==> p.toHost != []) && Plausible(move)
    ensures LoopOk(Next(p, move))
  {
    hide D.React, D.Joint, S.Consistent, Next;
    var e := EventOf(p, move);
    DaemonMoves(p, move);
    D.ReactKeeps(p.daemon, e);
    HandlerContinues(p.daemon, e);
    hide Continues;
  }

  lemma TransferHolds(p: Plant, move: Move)
    requires SystemOk(p) && p.running && D.InTransfer(p.daemon.upgrade.phase) && Plausible(move)
    requires !OutsideDaemon(move) && (move.Receives? ==> p.toHost != [])
    ensures SystemOk(Next(p, move)) && Honours(p, Next(p, move))
  {
    hide A.Holds, D.Joint, S.Consistent, Next, React, L.Next, D.QueueVerdict, Passed;
    var q := Next(p, move);
    var a, starved, base :| Watched(p, a, starved, base);
    LoopKeeps(p, move);
    if move.Receives? {
      ReceiptIsLinked(p, a, starved, move.env);
      var step := L.HostReceives(move.env.now, D.QueueVerdict(p.daemon, move.env));
      LinkSteps(LinkOf(p, a, starved), step);
      WatchedStep(p, q, a, starved, base, step);
    } else if move.Flushes? {
      FlushIsLinked(p, a, starved);
      assert Watched(q, a, starved, base);
    } else if move.event.TimerFires? {
      TimerIsLinked(p, a, starved, move.event.env);
      var step := L.HostTicks(move.event.env.now, D.QueueVerdict(p.daemon, move.event.env));
      LinkSteps(LinkOf(p, a, starved), step);
      NextReacts(p, move.event);
      WatchedStep(p, q, a, starved, base, step);
    } else {
      NextReacts(p, move.event);
      OthersAreLinked(p, a, starved, move.event);
      WatchedPhase(LinkOf(p, a, starved), base);
      StopHolds(LinkOf(p, a, starved), base, q.running);
      assert Watched(q, a, starved, base);
    }
  }

  // ----- Outside a transfer -----

  /** Nothing but a validation starts a transfer, and no update becomes complete. */
  ghost predicate Rests(c: D.Context, d: D.Context) {
    !D.InTransfer(d.upgrade.phase) && (d.upgrade.phase == U.Complete ==> c.upgrade.phase == U.Complete)
  }

  lemma CompleteRests(c: D.Context, e: D.Event)
    requires c.upgrade.phase == U.Complete
    ensures Rests(c, D.React(c, e).0)
  {
    hide D.OnDeviceFrame, D.OnTimer, D.StartRequest;
    match e {
      case DeviceFrame(frame, env) => FrameRests(c, frame, env);
      case TimerFires(env) => TimerRests(c, env);
      case ClientCommand(client, command, payload, env) => CommandRests(c, client, command, payload, env);
      case _ =>
    }
  }

  lemma FrameRests(c: D.Context, frame: Frame, env: D.Env)
    requires c.upgrade.phase == U.Complete
    ensures Rests(c, D.OnDeviceFrame(c, frame, env).0)
  {
    hide S.Accept, S.Transition, D.QueueUpgrade, U.Accept;
  }

  lemma TimerRests(c: D.Context, env: D.Env)
    requires c.upgrade.phase == U.Complete
    ensures Rests(c, D.OnTimer(c, env).0)
  {
    hide S.Tick, S.Transition, D.QueueUpgrade;
  }

  lemma CommandRests(c: D.Context, client: nat, command: byte, payload: seq<byte>, env: D.Env)
    requires c.upgrade.phase == U.Complete
    ensures Rests(c, D.StartRequest(c, client, command, payload, env).0)
  {
    hide S.Begin, W.Submit, D.UpgradeNames, D.Progress, PutLe32, GetLe32;
  }

  lemma IdlesRests(c: D.Context, d: D.Context, asked: Option<Frame>)
    requires Idles(c, d, asked)
    ensures Rests(c, d)
  {
    hide Sends, PlainRequest;
  }

  lemma StaysAtRest(c: D.Context, d: D.Context)
    requires !D.InTransfer(c.upgrade.phase) && d.upgrade == c.upgrade
    ensures Rests(c, d)
  {
  }

  lemma OutsideRests(c: D.Context, e: D.Event)
    requires D.Joint(c) && !D.InTransfer(c.upgrade.phase)
    ensures e.WorkerReady? || Rests(c, D.React(c, e).0)
    ensures e.WorkerReady? ==> D.InTransfer(D.React(c, e).0.upgrade.phase) || Rests(c, D.React(c, e).0)
  {
    hide D.Joint, D.OnDeviceFrame, D.OnTimer, D.StartRequest, D.OnWorkerReady, W.Next, S.Consistent, Idles, Rests;
    if c.upgrade.phase == U.Complete {
      CompleteRests(c, e);
    } else {
      match e {
        case DeviceFrame(frame, env) =>
          FrameIdles(c, frame, env);
          IdlesRests(c, D.OnDeviceFrame(c, frame, env).0, None);
        case TimerFires(env) =>
          TimerIdles(c, env);
          IdlesRests(c, D.OnTimer(c, env).0, None);
        case ClientCommand(client, command, payload, env) =>
          CommandIdles(c, client, command, payload, env);
          IdlesRests(c, D.StartRequest(c, client, command, payload, env).0, Some(Asking(command, payload)));
        case WorkerReady(file, env) =>
          ValidationIdles(c, file, env);
          if !D.InTransfer(D.OnWorkerReady(c, file, env).0.upgrade.phase) {
            IdlesRests(c, D.OnWorkerReady(c, file, env).0, None);
          }
        case _ => StaysAtRest(c, D.React(c, e).0);
      }
    }
  }

  lemma AdoptionHolds(p: Plant, file: seq<byte>, env: D.Env)
    requires SystemOk(p) && p.running && !D.InTransfer(p.daemon.upgrade.phase) && Fresh(p)
    requires Plausible(Reacts(D.WorkerReady(file, env)))
    requires D.InTransfer(React(p, D.WorkerReady(file, env)).daemon.upgrade.phase)
    ensures var q := React(p, D.WorkerReady(file, env));
            Assigned(q) && exists a, starved, base :: Watched(q, a, starved, base)
  {
    hide A.Holds, D.Joint, S.Consistent, React, Launch, Checksum, SettingOf, AllForeign;
    var q, x := React(p, D.WorkerReady(file, env)), SettingOf(p, file, env);
    ValidationLaunches(p, file, env);
    SettingStartable(p, file, env);
    A.LaunchHolds(x);
    assert Watched(q, x.update, false, x.session.stats.requests);
  }

  lemma SettingStartable(p: Plant, file: seq<byte>, env: D.Env)
    requires S.Consistent(p.daemon.session) && Fresh(p) && |file| <= MAX_IMAGE
    requires var x := SettingOf(p, file, env);
             && !p.daemon.session.pending.active && 0 < |p.daemon.version| <= U.VERSION_MAX && 0 < |file|
             && x.update == Started(file, Checksum(file), p.daemon.version)
    ensures A.Startable(SettingOf(p, file, env))
  {
    hide S.Consistent, Checksum, U.Start, AllForeign;
  }

  lemma OutsideHolds(p: Plant, move: Move)
    requires SystemOk(p) && p.running && !D.InTransfer(p.daemon.upgrade.phase) && Plausible(move)
    requires !OutsideDaemon(move) && (move.Receives? ==> p.toHost != []) && (Adopts(move) ==> Fresh(p))
    ensures SystemOk(Next(p, move)) && Honours(p, Next(p, move))
  {
    hide D.Joint, S.Consistent, Next, React, D.React, Passed, Fresh;
    LoopKeeps(p, move);
    DaemonMoves(p, move);
    OutsideRests(p.daemon, EventOf(p, move));
    if D.InTransfer(Next(p, move).daemon.upgrade.phase) {
      NextReacts(p, move.event);
      AdoptionHolds(p, move.event.file, move.event.env);
    }
  }

  // ----- Whole runs -----

  /** Every move keeps it, and completes an update only if it is passed. */
  lemma NextHolds(p: Plant, move: Move)
    requires SystemOk(p) && Plausible(move) && (Adopts(move) ==> Fresh(p))
    ensures SystemOk(Next(p, move)) && Honours(p, Next(p, move))
  {
    hide SystemOk, Next, Fresh, Passed;
    if OutsideDaemon(move) {
      DeviceSide(p, move);
    } else if !p.running || (move.Receives? && p.toHost == []) {
      StoppedStays(p, move);
    } else if D.InTransfer(p.daemon.upgrade.phase) {
      TransferHolds(p, move);
    } else {
      OutsideHolds(p, move);
    }
  }

  lemma {:induction false} RunHolds(p: Plant, moves: seq<Move>)
    requires SystemOk(p) && AllPlausible(p, moves)
    ensures SystemOk(Run(p, moves))
    decreases |moves|
  {
    hide SystemOk, Next, Plausible, Fresh;
    if moves != [] {
      NextHolds(p, moves[0]);
      RunHolds(Next(p, moves[0]), moves[1..]);
    }
  }

  lemma StartHolds(env: D.Env, device: Sim)
    ensures SystemOk(Start(env, device))
  {
    D.BootEstablishes(env);
    BootConsistent(env);
    hide D.Joint, D.Boot, S.Consistent, Carries, D.FRESH;
  }

  /** The last move of a run, apart from those before it. */
  lemma {:induction false} LastMove(p: Plant, moves: seq<Move>, last: Move)
    requires AllPlausible(p, moves + [last])
    ensures AllPlausible(p, moves) && Plausible(last) && (Adopts(last) ==> Fresh(Run(p, moves)))
    ensures Run(p, moves + [last]) == Next(Run(p, moves), last)
    decreases |moves|
  {
    hide Plausible, Fresh, Next, Adopts;
    if moves == [] {
      assert moves + [last] == [last];
      assert Run(Next(p, last), [last][1..]) == Next(p, last);
    } else {
      assert (moves + [last])[1..] == moves[1..] + [last] && (moves + [last])[0] == moves[0];
      LastMove(Next(p, moves[0]), moves[1..], last);
    }
  }

  /** In every run of the whole system, whatever the device holds at first and whatever clients send: in
      the moment an update becomes complete, size and checksum of the device's flash are those of the
      file that was adopted for it, the device runs under the version the client asked for, and its
      session is closed. */
  lemma CompletionIsVerified(env: D.Env, device: Sim, moves: seq<Move>, last: Move)
    requires AllPlausible(Start(env, device), moves + [last])
    ensures var p, q := Run(Start(env, device), moves), Run(Start(env, device), moves + [last]);
            p.daemon.upgrade.phase != U.Complete && q.daemon.upgrade.phase == U.Complete ==>
              && |q.device.flash| == |q.file| && Checksum(q.device.flash) == Checksum(q.file)
              && q.device.version == q.daemon.version && L.Rebooted(q.device)
  {
    hide SystemOk, Next, Plausible, Fresh, Run, Start, Checksum, AllPlausible;
    StartHolds(env, device);
    LastMove(Start(env, device), moves, last);
    RunHolds(Start(env, device), moves);
    NextHolds(Run(Start(env, device), moves), last);
  }

  /** A run whose updates are all adopted before the numbers come round. */
  ghost predicate AllTimely(p: Plant, moves: seq<Move>)
    decreases |moves|
  {
    moves == [] ||
      (&& Plausible(moves[0]) && (Adopts(moves[0]) ==> p.daemon.session.stats.requests + LONGEST < S.PERIOD)
       && AllTimely(Next(p, moves[0]), moves[1..]))
  }

  lemma {:induction false} TimelyIsPlausible(p: Plant, moves: seq<Move>)
    requires NumbersOk(p) && AllTimely(p, moves)
    ensures AllPlausible(p, moves)
    decreases |moves|
  {
    hide NumbersOk, Plausible, Fresh, Next;
    if moves != [] {
      if Adopts(moves[0]) {
        NumbersFresh(p);
      }
      NextKeepsNumbers(p, moves[0]);
      TimelyIsPlausible(Next(p, moves[0]), moves[1..]);
    }
  }

  /** The same, with nothing asked of the frames on the line: until the numbers come round, none of them
      can be mistaken. */
  lemma EarlyCompletionIsVerified(env: D.Env, device: Sim, moves: seq<Move>, last: Move)
    requires AllTimely(Start(env, device), moves + [last])
    ensures var p, q := Run(Start(env, device), moves), Run(Start(env, device), moves + [last]);
            p.daemon.upgrade.phase != U.Complete && q.daemon.upgrade.phase == U.Complete ==>
              && |q.device.flash| == |q.file| && Checksum(q.device.flash) == Checksum(q.file)
              && q.device.version == q.daemon.version && L.Rebooted(q.device)
  {
    hide Run, Start, AllPlausible, AllTimely, NumbersOk, Next, Checksum, Plausible, Fresh;
    StartNumbers(env, device);
    TimelyIsPlausible(Start(env, device), moves + [last]);
    CompletionIsVerified(env, device, moves, last);
  }
}
