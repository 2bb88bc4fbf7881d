/** The whole system: the daemon's event loop with its clients and its worker, the device, and the
    lossy line between them, from the daemon's start through any number of updates. */
module Installation {
  import opened Wire
  import opened Crc32
  import opened Simulator
  import opened Driver
  import opened LossyLink
  import opened Resumption
  import opened LinkInvariant
  import opened LinkRuns
  import opened Numbering
  import D = Daemon
  import S = Session
  import U = Upgrade
  import W = Worker

  /** `running` is false once a handler has failed; `file` is the file last adopted for an update. */
  datatype Plant = Plant(daemon: D.Context, running: bool, file: seq<byte>, device: Sim,
                         toDevice: seq<Frame>, toHost: seq<Frame>)

  datatype Move =
    | Reacts(event: D.Event)
    | Receives(env: D.Env)
    | Flushes
    | DeviceMoves(whim: DeviceEnv, lost: bool)
    | Reports(payload: seq<byte>)
    | LosesToDevice(i: nat)
    | LosesToHost(i: nat)

  /** What is on its way to the device, the daemon's output buffer included. */
  function Outgoing(p: Plant): seq<Frame> {
    Sending(p.toDevice, p.daemon.output)
  }

  function React(p: Plant, e: D.Event): Plant {
    var (c, status) := D.React(p.daemon, e);
    if !p.running then p
    else
      var adopted := e.WorkerReady? && D.InTransfer(c.upgrade.phase) && !D.InTransfer(p.daemon.upgrade.phase);
      p.(daemon := c, running := status == Ok, file := if adopted then e.file else p.file)
  }

  function Next(p: Plant, move: Move): Plant {
    match move
    case Reacts(e) => React(p, e)
    case Receives(env) =>
      if !p.running || p.toHost == [] then p
      else React(p.(toHost := p.toHost[1..]), D.DeviceFrame(p.toHost[0], env))
    case Flushes => if !p.running then p else React(p, D.OutputFlushed).(toDevice := Outgoing(p))
    case DeviceMoves(env, lost) =>
      if p.toDevice == [] then p
      else
        var (d, r) := Respond(p.device, p.toDevice[0], env);
        p.(device := d, toDevice := p.toDevice[1..], toHost := if lost then p.toHost else p.toHost + [r])
    case Reports(payload) => p.(toHost := p.toHost + [Report(payload)])
    case LosesToDevice(i) => p.(toDevice := Without(p.toDevice, i))
    case LosesToHost(i) => p.(toHost := Without(p.toHost, i))
  }

  function Run(p: Plant, moves: seq<Move>): Plant
    decreases |moves|
  {
    if moves == [] then p else Run(Next(p, moves[0]), moves[1..])
  }

  /** The daemon as it starts, in front of some device. */
  function Start(env: D.Env, device: Sim): Plant {
    Plant(D.Boot(env).0, D.Boot(env).1 == Ok, [], device, [], [])
  }

  /** What a client may send: no FW_BEGIN after an update is complete, and no chunk that, with some of
      what is on its way lost, puts other bytes into a session under a label of the library. */
  ghost predicate Admits(p: Plant, command: byte, payload: seq<byte>, lib: Library) {
    && (command == FW_BEGIN ==> p.daemon.upgrade.phase != U.Complete)
    && (command == FW_DATA ==> Calm(p.device, Outgoing(p) + [Asking(command, payload)], lib))
  }

  function Asking(command: byte, payload: seq<byte>): Frame {
    Frame(command, FLAG_ACK_REQUIRED, 0, payload)
  }

  /** What is asked of the surroundings: frames come from the device and go out by flushing; clients send
      what they may; and a file that is validated is the one the library has under its label. */
  ghost predicate Admissible(p: Plant, move: Move, lib: Library) {
    move.Reacts? ==>
      var e, c := move.event, p.daemon;
      && D.Possible(e) && !e.DeviceFrame? && !e.OutputFlushed?
      && (e.ClientCommand? ==> Admits(p, e.command, e.payload, lib))
      && (e.WorkerReady? ==>
            lib(Label(|e.file|, Checksum(e.file), D.DEFAULT_CHUNK, c.version)) == Some(e.file))
  }

  /** No frame on the line is so old that its number is about to be used again. */
  ghost predicate Fresh(p: Plant) {
    var k := p.daemon.session.stats.requests;
    AllForeign(Outgoing(p), k) && AllForeign(p.toHost, k)
  }

  ghost predicate Allowed(p: Plant, move: Move, lib: Library) {
    Admissible(p, move, lib) && (move.Reacts? && move.event.WorkerReady? ==> Fresh(p))
  }

  ghost predicate AllAllowed(p: Plant, moves: seq<Move>, lib: Library)
    decreases |moves|
  {
    moves == [] || (Allowed(p, moves[0], lib) && AllAllowed(Next(p, moves[0]), moves[1..], lib))
  }

  // ----- The daemon outside a transfer -----

  /** After an update is complete, the request in flight is no FW_BEGIN. */
  ghost predicate PlainRequest(c: D.Context) {
    c.upgrade.phase == U.Complete && c.session.pending.active ==> c.session.pending.frame.kind != FW_BEGIN
  }

  /** A frame that is no chunk, the request in flight again, or the one that is asked for. */
  ghost predicate Known(c: D.Context, f: Frame, asked: Option<Frame>) {
    || f.kind != FW_DATA
    || (c.session.pending.active && SameRequest(c.session.pending.frame, f))
    || (asked.Some? && SameRequest(asked.value, f))
  }

  /** Output buffer and request in flight of c and d: the same, or d has sent one more frame. */
  ghost predicate Sends(c: D.Context, d: D.Context, asked: Option<Frame>) {
    var before, after := c.session.pending, d.session.pending;
    || (d.output == c.output && (after.active ==> before.active && SameRequest(before.frame, after.frame)))
    || (&& c.output.None? && d.output.Some? && Known(c, d.output.value, asked)
        && (d.upgrade.phase == U.Complete ==> d.output.value.kind != FW_BEGIN)
        && (after.active ==> after.frame == d.output.value))
  }

  /** d is c after an event that starts no transfer. */
  ghost predicate Idles(c: D.Context, d: D.Context, asked: Option<Frame>) {
    && !D.InTransfer(d.upgrade.phase) && PlainRequest(d) && Sends(c, d, asked)
    && (d.upgrade.phase == U.Complete ==> d.upgrade == c.upgrade && d.version == c.version)
  }

  lemma FrameIdles(c: D.Context, frame: Frame, env: D.Env)
    requires D.Joint(c) && !D.InTransfer(c.upgrade.phase) && PlainRequest(c)
    ensures Idles(c, D.OnDeviceFrame(c, frame, env).0, None)
  {
    hide D.WorkerOk, D.ImagesOwned, D.QueueUpgrade, U.Good, S.Accept, U.Accept, S.Transition, W.Held, Idles,
      PlainRequest;
    D.AcceptEffect(c.session, frame);
    ValidatingRefuses(c.upgrade, c.session.pending.frame.kind, frame);
    var s := S.Accept(c.session, frame).0;
    ChangeKeepsRequest(s, S.HandshakeOk);
    ChangeKeepsRequest(s, S.UpgradeDone);
    ChangeKeepsRequest(s, S.StartStream);
    ChangeKeepsRequest(s, S.StopStream);
    RequestIdles(c, D.OnDeviceFrame(c, frame, env).0);
  }

  lemma ChangeKeepsRequest(s: S.State, event: S.Event)
    requires !event.TransportLost? && !event.Fail?
    ensures S.Transition(s, event).0.pending == s.pending
  {
  }

  /** At most the request in flight has ended, or an update that was being validated. */
  lemma RequestIdles(c: D.Context, d: D.Context)
    requires PlainRequest(c) && !D.InTransfer(c.upgrade.phase)
    requires d.output == c.output && d.version == c.version
    requires d.upgrade == c.upgrade || d.upgrade.phase == U.Errored
    requires d.session.pending.active ==> d.session.pending == c.session.pending
    ensures Idles(c, d, None)
  {
    hide IsUpdate;
  }

  /** An update whose file is still being validated takes no answer. */
  lemma ValidatingRefuses(u: U.State, kind: byte, frame: Frame)
    requires u.phase == U.Validating || !U.Active(u)
    ensures U.Active(u) ==> U.Accept(u, kind, frame) == (u.(phase := U.Errored), Protocol)
  {
  }

  lemma TimerIdles(c: D.Context, env: D.Env)
    requires D.Joint(c) && !D.InTransfer(c.upgrade.phase) && PlainRequest(c)
    ensures Idles(c, D.OnTimer(c, env).0, None)
  {
    hide D.WorkerOk, D.ImagesOwned, D.QueueUpgrade, U.Good, IsUpdate, W.Held, S.Transition;
    ChangeKeepsRequest(S.Tick(c.session, env.now, D.QueueVerdict(c, env)).0, S.UpgradeDone);
  }

  lemma CommandIdles(c: D.Context, client: nat, command: byte, payload: seq<byte>, env: D.Env)
    requires D.Joint(c) && !D.InTransfer(c.upgrade.phase) && PlainRequest(c)
    requires command == FW_BEGIN ==> c.upgrade.phase != U.Complete
    ensures Idles(c, D.StartRequest(c, client, command, payload, env).0, Some(Asking(command, payload)))
  {
    hide D.WorkerOk, D.ImagesOwned, D.UpgradeNames, D.TellProgress, U.Good, D.PassOn, D.SubmitUpgrade, W.Held;
    PassOnIdles(c, client, command, payload, env);
    var names := D.UpgradeNames(payload);
    if names.Some? {
      SubmitIdles(c, client, names.value.0, names.value.1);
    }
    ProgressIdles(c, client, payload);
  }

  lemma PassOnIdles(c: D.Context, client: nat, command: byte, payload: seq<byte>, env: D.Env)
    requires !D.InTransfer(c.upgrade.phase) && PlainRequest(c)
    requires command == FW_BEGIN ==> c.upgrade.phase != U.Complete
    ensures Idles(c, D.PassOn(c, client, command, payload, env).0, Some(Asking(command, payload)))
  {
  }

  lemma SubmitIdles(c: D.Context, client: nat, path: CString, version: CString)
    requires !D.InTransfer(c.upgrade.phase) && PlainRequest(c)
    ensures Idles(c, D.SubmitUpgrade(c, client, path, version), None)
  {
    hide W.Submit, PutLe32, IsUpdate;
  }

  lemma ProgressIdles(c: D.Context, client: nat, payload: seq<byte>)
    requires !D.InTransfer(c.upgrade.phase) && PlainRequest(c)
    ensures Idles(c, D.TellProgress(c, client, payload), None)
  {
    hide D.Progress, GetLe32, IsUpdate;
  }

  /** A validation either starts a transfer or leaves the daemon outside one. */
  lemma ValidationIdles(c: D.Context, file: seq<byte>, env: D.Env)
    requires D.Joint(c) && !D.InTransfer(c.upgrade.phase) && PlainRequest(c)
    ensures var d := D.OnWorkerReady(c, file, env).0; D.InTransfer(d.upgrade.phase) || Idles(c, d, None)
  {
    hide D.WorkerOk, D.ImagesOwned, D.Adopt, D.CollectResult, W.Take, U.Good;
    if c.sys.box.events > 0 && c.upgrade.phase == U.Validating {
      forall d: D.Context, image | d == c.(sys := d.sys)
        ensures var e := D.Adopt(d, image, file, env); D.InTransfer(e.upgrade.phase) || Idles(c, e, None)
      {
        AdoptionIdles(d, image, file, env);
      }
    }
  }

  lemma AdoptionIdles(c: D.Context, image: Option<nat>, file: seq<byte>, env: D.Env)
    requires !D.InTransfer(c.upgrade.phase) && PlainRequest(c)
    ensures var d := D.Adopt(c, image, file, env); D.InTransfer(d.upgrade.phase) || Idles(c, d, None)
  {
    hide U.Start, Checksum, D.QueueUpgrade, S.Transition, W.Held, IsUpdate;
    var (u, started) := U.Start(c.upgrade, file, Checksum(file), c.version, D.DEFAULT_CHUNK);
    StartEnters(c.upgrade, file, Checksum(file), c.version, D.DEFAULT_CHUNK);
    var d := c.(firmware := image, upgrade := u);
    var (s, moved) := S.Transition(d.session, S.StartUpgrade);
    ChangeKeepsRequest(d.session, S.StartUpgrade);
    if started != Ok {
      AbandonIdles(c, d, started);
    } else if moved != Ok {
      AbandonIdles(c, d, moved);
    } else {
      FirstQueue(d.(session := s), env);
      var (e, queued) := D.QueueUpgrade(d.(session := s), env);
      if queued != Ok {
        AbandonIdles(c, e, queued);
      }
    }
  }

  lemma FirstQueue(c: D.Context, env: D.Env)
    requires c.upgrade.phase == U.Entering
    ensures var (d, status) := D.QueueUpgrade(c, env);
            && d == c.(session := d.session, output := d.output) && (status != Ok ==> !d.session.pending.active)
            && (d.output == c.output || (c.output.None? && d.output.Some? && d.output.value.kind == ENTER_BOOTLOADER))
  {
    hide S.Numbered;
  }

  lemma AbandonIdles(c: D.Context, d: D.Context, status: Status)
    requires PlainRequest(c) && !D.InTransfer(c.upgrade.phase)
    requires || (d.output == c.output && (d.session.pending.active ==> d.session.pending == c.session.pending))
             || (&& c.output.None? && d.output.Some? && d.output.value.kind == ENTER_BOOTLOADER
                 && !d.session.pending.active)
    ensures Idles(c, D.AbandonUpgrade(d, status), None)
  {
    hide W.Held;
  }

  lemma StartEnters(u: U.State, file: seq<byte>, crc: u32, version: CString, chunk: u16)
    ensures var (v, status) := U.Start(u, file, crc, version, chunk);
            if status != Ok then v == u
            else v.phase == U.Entering && U.Build(v) == (v, Success(U.Ask(ENTER_BOOTLOADER, [])))
  {
  }

  // ----- A transfer is a run of the link -----

  /** The daemon's session and update, and all frames on their way, as a link. */
  function LinkOf(p: Plant, asked: U.State, starved: bool): Link {
    Link(Host(p.daemon.session, p.daemon.upgrade), p.running, asked, p.device, starved, Outgoing(p), p.toHost)
  }

  /** The update of a file that has just been adopted. */
  function Started(file: seq<byte>, crc: u32, version: CString): U.State {
    U.INITIAL.(phase := U.Entering, image := file, imageCrc := crc, version := version, chunkSize := D.DEFAULT_CHUNK)
  }

  function SettingOf(p: Plant, file: seq<byte>, env: D.Env): Setting {
    var u := U.Start(p.daemon.upgrade, file, Checksum(file), p.daemon.version, D.DEFAULT_CHUNK).0;
    Setting(p.daemon.session, u, p.device, Outgoing(p), p.toHost, env.now, D.QueueVerdict(p.daemon, env))
  }

  lemma AdoptionLaunches(c: D.Context, image: Option<nat>, file: seq<byte>, env: D.Env)
    requires D.InTransfer(D.Adopt(c, image, file, env).upgrade.phase)
    ensures var d := D.Adopt(c, image, file, env);
            var (u, started) := U.Start(c.upgrade, file, Checksum(file), c.version, D.DEFAULT_CHUNK);
            var (h, status, sent) :=
              QueueRequest(Host(S.Transition(c.session, S.StartUpgrade).0, u), env.now, D.QueueVerdict(c, env));
            && started == Ok && status == Ok && Host(d.session, d.upgrade) == h && !c.session.pending.active
            && D.Drives(c, d, h, sent)
  {
    hide U.Start, Checksum, W.Held;
    StartEnters(c.upgrade, file, Checksum(file), c.version, D.DEFAULT_CHUNK);
    ChangeKeepsRequest(c.session, S.StartUpgrade);
  }

  lemma ValidationLaunches(p: Plant, file: seq<byte>, env: D.Env)
    requires p.running && D.Joint(p.daemon) && !D.InTransfer(p.daemon.upgrade.phase)
    requires D.InTransfer(React(p, D.WorkerReady(file, env)).daemon.upgrade.phase)
    ensures var q := React(p, D.WorkerReady(file, env));
            var x := SettingOf(p, file, env);
            && q.running && q.file == file && q.daemon.version == p.daemon.version
            && LinkOf(q, x.update, false) == Launch(x) && q.daemon.upgrade.image == file
            && q.daemon.upgrade.version == p.daemon.version
            && !p.daemon.session.pending.active && x.update.phase == U.Entering
            && x.update == Started(file, Checksum(file), p.daemon.version)
            && 0 < |p.daemon.version| <= U.VERSION_MAX && 0 < |file|
  {
    var c := p.daemon;
    hide D.WorkerOk, D.ImagesOwned, D.Adopt, D.CollectResult, W.Take, U.Good, Checksum, QueueRequest, S.Transition;
    assert D.React(c, D.WorkerReady(file, env)) == D.OnWorkerReady(c, file, env);
    var d := c.(sys := D.CollectResult(c.sys));
    var v := W.Take(c.sys.box).1.value;
    assert D.OnWorkerReady(c, file, env).0 == D.Adopt(d, v.image, file, env);
    AdoptionLaunches(d, v.image, file, env);
    StartedUpdate(c.upgrade, file, Checksum(file), c.version);
    var x := SettingOf(p, file, env);
    QueueKeepsJob(Host(S.Transition(x.session, S.StartUpgrade).0, x.update), x.now, x.queued);
  }

  lemma StartedUpdate(u: U.State, file: seq<byte>, crc: u32, version: CString)
    ensures var (v, status) := U.Start(u, file, crc, version, D.DEFAULT_CHUNK);
            status == Ok ==> v == Started(file, crc, version) && 0 < |file| && 0 < |version| <= U.VERSION_MAX
  {
  }

  lemma ReceiptIsLinked(p: Plant, a: U.State, starved: bool, env: D.Env)
    requires p.running && p.toHost != [] && D.Joint(p.daemon) && D.InTransfer(p.daemon.upgrade.phase)
    ensures var l := ReceiveStep(LinkOf(p, a, starved), env.now, D.QueueVerdict(p.daemon, env));
            var q := Next(p, Receives(env));
            LinkOf(q, l.asked, l.starved) == l && q.file == p.file && q.daemon.version == p.daemon.version
  {
    D.FrameIsDriven(p.daemon, p.toHost[0], env);
    hide D.Joint, D.OnDeviceFrame, OnUpgradeFrame;
    var c, d := p.daemon, D.OnDeviceFrame(p.daemon, p.toHost[0], env).0;
    var sent := OnUpgradeFrame(Host(c.session, c.upgrade), p.toHost[0], env.now, D.QueueVerdict(c, env)).2;
    assert Sending(p.toDevice, d.output) == Sending(Sending(p.toDevice, c.output), sent);
  }

  lemma TimerIsLinked(p: Plant, a: U.State, starved: bool, env: D.Env)
    requires p.running && D.Joint(p.daemon) && D.InTransfer(p.daemon.upgrade.phase)
    ensures var l := TickStep(LinkOf(p, a, starved), env.now, D.QueueVerdict(p.daemon, env));
            var q := React(p, D.TimerFires(env));
            LinkOf(q, l.asked, l.starved) == l && q.file == p.file && q.daemon.version == p.daemon.version
  {
    D.TimerIsDriven(p.daemon, env);
    hide D.Joint, D.OnTimer, OnUpgradeTimeout, S.Tick, U.BeginRecovery;
  }

  /** Any other event leaves the link as it is, unless it stops the daemon. */
  lemma OthersAreLinked(p: Plant, a: U.State, starved: bool, e: D.Event)
    requires p.running && D.Joint(p.daemon) && D.InTransfer(p.daemon.upgrade.phase)
    requires e.WorkerMoves? || e.WorkerReady? || e.ClientCommand? || e.ClientGone?
    ensures var q := React(p, e);
            && LinkOf(q, a, starved) == LinkOf(p, a, starved).(running := q.running)
            && q.file == p.file && q.daemon.version == p.daemon.version
  {
    D.OthersStandStill(p.daemon, e);
    hide D.Joint, D.React;
  }

  lemma FlushIsLinked(p: Plant, a: U.State, starved: bool)
    requires p.running
    ensures var q := Next(p, Flushes);
            && LinkOf(q, a, starved) == LinkOf(p, a, starved) && q.running && q.file == p.file
            && q.daemon == p.daemon.(output := None)
  {
  }

  /** The step of the link that a move of device or line is, if it is one. */
  function StepOf(p: Plant, move: Move): Option<Step> {
    match move
    case DeviceMoves(env, lost) => if p.toDevice == [] then None else Some(DeviceHandles(env, lost))
    case Reports(payload) => Some(DeviceReports(payload))
    case LosesToDevice(i) => if i >= |p.toDevice| then None else Some(LoseToDevice(i))
    case LosesToHost(i) => Some(LoseToHost(i))
    case _ => None
  }

  predicate OutsideDaemon(move: Move) {
    move.DeviceMoves? || move.Reports? || move.LosesToDevice? || move.LosesToHost?
  }

  lemma DeviceIsLinked(p: Plant, a: U.State, starved: bool, move: Move)
    requires OutsideDaemon(move)
    ensures var q := Next(p, move);
            && q == p.(device := q.device, toDevice := q.toDevice, toHost := q.toHost)
            && match StepOf(p, move)
               case None => q == p
               case Some(step) => (var l := LossyLink.Next(LinkOf(p, a, starved), step);
                                   LinkOf(q, l.asked, l.starved) == l)
  {
    hide Respond, NeedsMemory, Outgoing;
    OutgoingMoves(p, move);
  }

  // ----- The invariant of the whole system -----

  /** The device holds what the update has installed, has no session, and none is about to be opened. */
  ghost predicate Kept(u: U.State, d: Sim, q: seq<Frame>) {
    Installed(u, d) && !d.upgrading && !d.verified && forall i :: 0 <= i < |q| ==> q[i].kind != FW_BEGIN
  }

  ghost predicate Tracked(p: Plant, a: U.State, starved: bool, base: nat, lib: Library) {
    Inv(LinkOf(p, a, starved), base, lib)
  }

  ghost predicate DaemonOk(p: Plant) {
    p.running ==> D.Joint(p.daemon) && S.Consistent(p.daemon.session) && PlainRequest(p.daemon)
  }

  ghost predicate JobOk(p: Plant) {
    D.InTransfer(p.daemon.upgrade.phase) || p.daemon.upgrade.phase == U.Complete ==>
      p.daemon.upgrade.image == p.file && p.daemon.upgrade.version == p.daemon.version
  }

  /** What is on its way to the device, and the request in flight once more. */
  function Coming(p: Plant): seq<Frame> {
    var pending := p.daemon.session.pending;
    Sending(Outgoing(p), if pending.active then Some(pending.frame) else None)
  }

  ghost predicate LineOk(p: Plant, lib: Library) {
    && (if D.InTransfer(p.daemon.upgrade.phase) then exists a, starved, base :: Tracked(p, a, starved, base, lib)
        else Calm(p.device, Coming(p), lib))
    && (p.daemon.upgrade.phase == U.Complete ==> Kept(p.daemon.upgrade, p.device, Outgoing(p)))
  }

  ghost predicate PlantOk(p: Plant, lib: Library) {
    DaemonOk(p) && JobOk(p) && LineOk(p, lib)
  }

  /** What an update leaves behind when it ends. */
  lemma LinkLeaves(l: Link, base: nat, lib: Library)
    requires Inv(l, base, lib) && !U.Active(l.host.upgrade)
    ensures Calm(l.device, l.toDevice, lib) && !l.host.session.pending.active
    ensures l.host.upgrade.phase == U.Complete ==> Kept(l.host.upgrade, l.device, l.toDevice)
  {
    var a, k, q := l.asked, l.host.session.stats.requests, l.toDevice;
    if a.phase != U.Entering {
      RebootsStayTogether(q, a, base, k);
      assert AllOk(q, a) by { hide RequestOk, Sound, DeviceOk, RepliesOk, HostOk; }
      RequestsAreCalm(a, l.device, q, lib);
    }
    hide Sound, RequestsOk, RepliesOk, Budgeted, Calm, Shelved, S.Consistent;
  }

  lemma TransferPhase(l: Link, base: nat, lib: Library)
    requires Inv(l, base, lib)
    ensures U.Active(l.host.upgrade) <==> D.InTransfer(l.host.upgrade.phase)
    ensures SameJob(l.host.upgrade, l.asked)
  {
    hide DeviceOk, RequestsOk, RepliesOk, Budgeted, Resumes, S.Consistent;
  }

  /** A state that the link tracks is in order. */
  lemma TrackedIsOk(p: Plant, a: U.State, starved: bool, base: nat, lib: Library)
    requires Tracked(p, a, starved, base, lib)
    requires p.daemon.upgrade.image == p.file && p.daemon.upgrade.version == p.daemon.version
    ensures JobOk(p) && LineOk(p, lib)
  {
    hide Inv, Calm;
    TransferPhase(LinkOf(p, a, starved), base, lib);
    if !D.InTransfer(p.daemon.upgrade.phase) {
      LinkLeaves(LinkOf(p, a, starved), base, lib);
    }
  }

  /** A move that the link makes as well keeps everything in order. */
  lemma LinkedKeeps(p: Plant, q: Plant, a: U.State, starved: bool, base: nat, lib: Library, step: Step)
    requires Tracked(p, a, starved, base, lib) && JobOk(p) && D.InTransfer(p.daemon.upgrade.phase)
    requires var l := LossyLink.Next(LinkOf(p, a, starved), step); LinkOf(q, l.asked, l.starved) == l
    requires q.file == p.file && q.daemon.version == p.daemon.version
    ensures JobOk(q) && LineOk(q, lib)
  {
    hide Inv, LossyLink.Next;
    var l := LinkOf(p, a, starved);
    var m := LossyLink.Next(l, step);
    TransferPhase(l, base, lib);
    NextKeeps(l, step, base, lib);
    NextKeepsJob(l, step);
    TrackedIsOk(q, m.asked, m.starved, base, lib);
  }

  lemma StopKeeps(l: Link, base: nat, lib: Library, run: bool)
    requires Inv(l, base, lib) && U.Active(l.host.upgrade) && (run ==> l.running)
    ensures Inv(l.(running := run), base, lib)
  {
    hide Sound, DeviceOk, RequestsOk, RepliesOk, Budgeted, Resumes, S.Consistent;
  }

  // ----- Moves of the device and the line -----

  /** A request that changes the image or the version of the device: a FW_BEGIN that gets memory with
      something else in it, the next chunk of the open session with other bytes, the activation of
      another version. */
  ghost predicate Disturbs(d: Sim, f: Frame, env: DeviceEnv) {
    var p := f.payload;
    || (NeedsMemory(d, f) && env.heap.Memory? && Allocate(env.heap, GetLe32(p)) != d.flash)
    || (f.kind == FW_DATA && d.upgrading && |p| > 8 && GetLe32(p) == d.sessionId && GetLe32(p[4..]) == d.offset
        && |p| - 8 <= d.chunkSize && d.offset + |p| - 8 <= |d.flash| && d.flash[d.offset..d.offset + |p| - 8] != p[8..])
    || (f.kind == FW_ACTIVATE && d.verified && NamesSession(d, f) && d.pendingVersion != d.version)
  }

  /** A device that has an update installed keeps it exactly if the request it handles is none of these. */
  lemma InstalledUnlessDisturbed(u: U.State, d: Sim, f: Frame, env: DeviceEnv)
    requires Installed(u, d)
    ensures Installed(u, Respond(d, f, env).0) <==> !Disturbs(d, f, env)
  {
    hide GetLe32, GetLe16, PutLe32, PutLe16, StringAt, Checksum, HandleData, Allocate;
    if f.kind == FW_DATA {
      DataDisturbs(d, f);
    }
  }

  lemma DataDisturbs(d: Sim, f: Frame)
    requires f.kind == FW_DATA
    ensures var e := HandleData(d, f).0;
            e.version == d.version && (e.flash == d.flash <==> !Disturbs(d, f, DeviceEnv(Exhausted, false, f)))
  {
    hide GetLe32, PutLe32, PutLe16, Splice;
    var e := HandleData(d, f).0;
    if e != d {
      var data := f.payload[8..];
      SpliceParts(d.flash, d.offset, data);
      SpliceChanges(d.flash, d.offset, data);
    }
  }

  lemma SpliceChanges(s: seq<byte>, at: nat, data: seq<byte>)
    requires at + |data| <= |s|
    ensures Splice(s, at, data) == s <==> s[at..at + |data|] == data
  {
    assert s == s[..at] + s[at..at + |data|] + s[at + |data|..];
    assert Splice(s, at, data)[at..at + |data|] == data;
  }

  /** After an update is complete, only a FW_BEGIN could disturb it. */
  lemma KeptUnlessBegun(u: U.State, d: Sim, f: Frame, env: DeviceEnv)
    requires Installed(u, d) && !d.upgrading && !d.verified && f.kind != FW_BEGIN
    ensures var e := Respond(d, f, env).0; Installed(u, e) && !e.upgrading && !e.verified
  {
    InstalledUnlessDisturbed(u, d, f, env);
    hide GetLe32, GetLe16, PutLe32, PutLe16, StringAt, Checksum, HandleBegin;
  }

  lemma DeviceSideKeeps(p: Plant, move: Move, lib: Library)
    requires PlantOk(p, lib) && OutsideDaemon(move)
    ensures PlantOk(Next(p, move), lib)
  {
    hide Next, Inv, Calm, DaemonOk, JobOk, Installed;
    var q := Next(p, move);
    if D.InTransfer(p.daemon.upgrade.phase) {
      var a, starved, base :| Tracked(p, a, starved, base, lib);
      DeviceIsLinked(p, a, starved, move);
      assert DaemonOk(q) by { DaemonStays(p, q); }
      if StepOf(p, move).Some? {
        LinkedKeeps(p, q, a, starved, base, lib, StepOf(p, move).value);
      }
    } else {
      DeviceIsLinked(p, U.INITIAL, false, move);
      DaemonStays(p, q);
      CalmMoves(p, move, lib);
      if p.daemon.upgrade.phase == U.Complete {
        KeptMoves(p, move);
      }
    }
  }

  lemma DaemonStays(p: Plant, q: Plant)
    requires DaemonOk(p) && JobOk(p) && q == p.(device := q.device, toDevice := q.toDevice, toHost := q.toHost)
    ensures DaemonOk(q) && JobOk(q)
  {
    hide D.Joint, S.Consistent;
  }

  lemma OutgoingMoves(p: Plant, move: Move)
    requires OutsideDaemon(move)
    ensures var q := Next(p, move);
            match move
            case DeviceMoves(env, _) =>
              if p.toDevice == [] then q == p
              else Outgoing(p) != [] && Outgoing(p)[0] == p.toDevice[0] && Outgoing(q) == Outgoing(p)[1..]
                   && q.device == Respond(p.device, Outgoing(p)[0], env).0
            case LosesToDevice(i) =>
              q.device == p.device && (if i < |p.toDevice| then Outgoing(q) == Without(Outgoing(p), i) else q == p)
            case _ => q.device == p.device && Outgoing(q) == Outgoing(p)
  {
    hide Respond;
    var q := Next(p, move);
    if p.daemon.output.Some? {
      var f := p.daemon.output.value;
      match move {
        case DeviceMoves(env, lost) =>
          if p.toDevice != [] {
            assert Outgoing(p)[1..] == q.toDevice + [f];
          }
        case LosesToDevice(i) =>
          if i < |p.toDevice| {
            assert Without(Outgoing(p), i) == Without(p.toDevice, i) + [f];
          }
        case _ =>
      }
    }
  }

  lemma CalmMoves(p: Plant, move: Move, lib: Library)
    requires Calm(p.device, Coming(p), lib) && OutsideDaemon(move)
    ensures Calm(Next(p, move).device, Coming(Next(p, move)), lib)
  {
    hide Next, Outgoing, Shelved, Respond;
    OutgoingMoves(p, move);
    DaemonUnmoved(p, move);
    var q := Next(p, move);
    if move.DeviceMoves? && p.toDevice != [] {
      assert Coming(q) == Coming(p)[1..] && Coming(p)[0] == Outgoing(p)[0];
    } else if move.LosesToDevice? && move.i < |p.toDevice| {
      CalmWithout(p.device, Coming(p), move.i, lib);
      LostComes(p, q, move.i);
    }
  }

  lemma LostComes(p: Plant, q: Plant, i: nat)
    requires i < |p.toDevice| && q.daemon == p.daemon && Outgoing(q) == Without(Outgoing(p), i)
    ensures Coming(q) == Without(Coming(p), i)
  {
    assert i < |Outgoing(p)|;
    hide Outgoing;
  }

  lemma DaemonUnmoved(p: Plant, move: Move)
    requires OutsideDaemon(move)
    ensures Next(p, move).daemon == p.daemon
  {
    hide Respond;
  }

  lemma KeptMoves(p: Plant, move: Move)
    requires Kept(p.daemon.upgrade, p.device, Outgoing(p)) && OutsideDaemon(move)
    ensures Kept(p.daemon.upgrade, Next(p, move).device, Outgoing(Next(p, move)))
  {
    hide Next, Outgoing, Respond, Installed;
    OutgoingMoves(p, move);
    if move.DeviceMoves? && p.toDevice != [] {
      KeptUnlessBegun(p.daemon.upgrade, p.device, Outgoing(p)[0], move.whim);
    }
  }

  // ----- Moves of the daemon -----

  /** The event that a move of the daemon is. */
  function EventOf(p: Plant, move: Move): D.Event
    requires !OutsideDaemon(move) && (move.Receives? ==> p.toHost != [])
  {
    match move
    case Reacts(e) => e
    case Receives(env) => D.DeviceFrame(p.toHost[0], env)
    case _ => D.OutputFlushed
  }

  lemma DaemonMoves(p: Plant, move: Move)
    requires p.running && !OutsideDaemon(move) && (move.Receives? ==> p.toHost != [])
    ensures var (c, status) := D.React(p.daemon, EventOf(p, move));
            Next(p, move).daemon == c && Next(p, move).running == (status == Ok) && Next(p, move).device == p.device
  {
    hide D.React;
  }

  /** The daemon's own part of the invariant, given that what is in flight outside a transfer is no
      request of an update. */
  lemma DaemonKeeps(p: Plant, move: Move, lib: Library)
    requires p.running && DaemonOk(p) && !OutsideDaemon(move) && (move.Receives? ==> p.toHost != [])
             && Allowed(p, move, lib)
    requires PlainRequest(Next(p, move).daemon)
    ensures DaemonOk(Next(p, move))
  {
    hide D.React, D.Joint, S.Consistent, Next, PlainRequest;
    var e := EventOf(p, move);
    DaemonMoves(p, move);
    D.ReactKeeps(p.daemon, e);
    HandlerContinues(p.daemon, e);
    hide Continues;
  }

  /** The request of an update that has just ended is no longer in flight. */
  lemma EndedIsPlain(p: Plant, a: U.State, starved: bool, base: nat, lib: Library)
    requires Tracked(p, a, starved, base, lib)
    ensures PlainRequest(p.daemon)
  {
    TransferPhase(LinkOf(p, a, starved), base, lib);
    hide Sound, DeviceOk, RequestsOk, RepliesOk, Budgeted, Resumes, S.Consistent;
  }

  lemma LinkedPlain(p: Plant, q: Plant, a: U.State, starved: bool, base: nat, lib: Library, step: Step)
    requires Tracked(p, a, starved, base, lib)
    requires var l := LossyLink.Next(LinkOf(p, a, starved), step); LinkOf(q, l.asked, l.starved) == l
    ensures PlainRequest(q.daemon)
  {
    hide Inv, LossyLink.Next;
    var l := LossyLink.Next(LinkOf(p, a, starved), step);
    NextKeeps(LinkOf(p, a, starved), step, base, lib);
    EndedIsPlain(q, l.asked, l.starved, base, lib);
  }

  lemma TransferKeeps(p: Plant, move: Move, lib: Library)
    requires PlantOk(p, lib) && p.running && D.InTransfer(p.daemon.upgrade.phase) && Allowed(p, move, lib)
    requires !OutsideDaemon(move) && (move.Receives? ==> p.toHost != [])
    ensures PlantOk(Next(p, move), lib)
  {
    hide Inv, D.Joint, S.Consistent, Next, React, PlainRequest, LossyLink.Next, D.QueueVerdict;
    var q := Next(p, move);
    var a, starved, base :| Tracked(p, a, starved, base, lib);
    if move.Receives? {
      ReceiptIsLinked(p, a, starved, move.env);
      var step := HostReceives(move.env.now, D.QueueVerdict(p.daemon, move.env));
      LinkSteps(LinkOf(p, a, starved), step);
      LinkedKeeps(p, q, a, starved, base, lib, step);
      LinkedPlain(p, q, a, starved, base, lib, step);
    } else if move.Flushes? {
      FlushIsLinked(p, a, starved);
      TrackedIsOk(q, a, starved, base, lib);
      EndedIsPlain(q, a, starved, base, lib);
    } else if move.event.TimerFires? {
      TimerIsLinked(p, a, starved, move.event.env);
      var step := HostTicks(move.event.env.now, D.QueueVerdict(p.daemon, move.event.env));
      LinkSteps(LinkOf(p, a, starved), step);
      NextReacts(p, move.event);
      LinkedKeeps(p, q, a, starved, base, lib, step);
      LinkedPlain(p, q, a, starved, base, lib, step);
    } else {
      NextReacts(p, move.event);
      OthersAreLinked(p, a, starved, move.event);
      TransferPhase(LinkOf(p, a, starved), base, lib);
      StopKeeps(LinkOf(p, a, starved), base, lib, q.running);
      TrackedIsOk(q, a, starved, base, lib);
      EndedIsPlain(q, a, starved, base, lib);
    }
    DaemonKeeps(p, move, lib);
  }

  lemma NextReacts(p: Plant, e: D.Event)
    ensures Next(p, Reacts(e)) == React(p, e)
  {
    hide React;
  }

  lemma LinkSteps(l: Link, step: Step)
    ensures step.HostReceives? ==> LossyLink.Next(l, step) == ReceiveStep(l, step.now, step.queued)
    ensures step.HostTicks? ==> LossyLink.Next(l, step) == TickStep(l, step.now, step.queued)
  {
    hide ReceiveStep, TickStep;
  }

  /** An event outside a transfer leaves the line calm and the installed image alone. */
  lemma IdlesKeeps(p: Plant, q: Plant, lib: Library, asked: Option<Frame>)
    requires PlantOk(p, lib) && !D.InTransfer(p.daemon.upgrade.phase) && Idles(p.daemon, q.daemon, asked)
    requires asked.Some? && asked.value.kind == FW_DATA ==> Calm(p.device, Outgoing(p) + [asked.value], lib)
    requires q.device == p.device && q.toDevice == p.toDevice && q.file == p.file
    ensures JobOk(q) && LineOk(q, lib) && PlainRequest(q.daemon)
  {
    hide Calm, DaemonOk, IsUpdate, D.Joint, Sends, Installed;
    SendsCalmly(p, q, lib, asked);
    if q.daemon.upgrade.phase == U.Complete {
      SendsNoBegin(p, q, asked);
    }
  }

  lemma SendsNoBegin(p: Plant, q: Plant, asked: Option<Frame>)
    requires Sends(p.daemon, q.daemon, asked) && q.toDevice == p.toDevice && q.daemon.upgrade.phase == U.Complete
    requires forall i :: 0 <= i < |Outgoing(p)| ==> Outgoing(p)[i].kind != FW_BEGIN
    ensures forall i :: 0 <= i < |Outgoing(q)| ==> Outgoing(q)[i].kind != FW_BEGIN
  {
    OutgoingSends(p, q, asked);
    hide Outgoing, SameRequest, Known;
  }

  /** A frame that can go out without harm can do so and wait to be sent again. */
  lemma SendsCalmly(p: Plant, q: Plant, lib: Library, asked: Option<Frame>)
    requires Calm(p.device, Coming(p), lib) && Sends(p.daemon, q.daemon, asked)
    requires asked.Some? && asked.value.kind == FW_DATA ==> Calm(p.device, Outgoing(p) + [asked.value], lib)
    requires q.device == p.device && q.toDevice == p.toDevice
    ensures Calm(q.device, Coming(q), lib)
  {
    hide Calm, Outgoing, SameRequest;
    var before, after, line := p.daemon.session.pending, q.daemon.session.pending, Outgoing(p);
    if before.active {
      CalmPrefix(p.device, line, before.frame, lib);
    }
    OutgoingSends(p, q, asked);
    if q.daemon.output == p.daemon.output {
      if after.active {
        CalmSame(p.device, line, before.frame, after.frame, lib);
      }
    } else {
      var f := q.daemon.output.value;
      if f.kind != FW_DATA {
        CalmAppend(p.device, line, f, lib);
      } else if before.active && SameRequest(before.frame, f) {
        CalmSame(p.device, line, before.frame, f, lib);
      } else {
        KindOfSame(asked.value, f);
        CalmSame(p.device, line, asked.value, f, lib);
      }
      CalmTwice(p.device, line, f, lib);
    }
  }

  lemma KindOfSame(f: Frame, g: Frame)
    requires SameRequest(f, g)
    ensures f.kind == g.kind
  {
  }

  lemma OutgoingSends(p: Plant, q: Plant, asked: Option<Frame>)
    requires Sends(p.daemon, q.daemon, asked) && q.toDevice == p.toDevice
    ensures Outgoing(q) ==
              if q.daemon.output == p.daemon.output then Outgoing(p) else Outgoing(p) + [q.daemon.output.value]
  {
    hide SameRequest;
  }

  /** What the move asks the daemon to send. */
  function AskedBy(move: Move): Option<Frame> {
    if move.Reacts? && move.event.ClientCommand? then Some(Asking(move.event.command, move.event.payload)) else None
  }

  lemma OutsideIdles(p: Plant, move: Move, lib: Library)
    requires PlantOk(p, lib) && p.running && !D.InTransfer(p.daemon.upgrade.phase) && Allowed(p, move, lib)
    requires !OutsideDaemon(move) && (move.Receives? ==> p.toHost != []) && !move.Flushes?
    ensures D.InTransfer(Next(p, move).daemon.upgrade.phase) || Idles(p.daemon, Next(p, move).daemon, AskedBy(move))
    ensures D.InTransfer(Next(p, move).daemon.upgrade.phase) ==> move.Reacts? && move.event.WorkerReady?
  {
    hide D.Joint, LineOk, JobOk, D.OnDeviceFrame, D.OnTimer, D.StartRequest, D.OnWorkerReady, Next, W.Next,
      S.Consistent, Idles, PlainRequest, Calm;
    var c, e := p.daemon, EventOf(p, move);
    DaemonMoves(p, move);
    match e {
      case DeviceFrame(frame, env) =>
        FrameIdles(c, frame, env);
        IdlesOutside(c, D.OnDeviceFrame(c, frame, env).0, None);
      case TimerFires(env) =>
        TimerIdles(c, env);
        IdlesOutside(c, D.OnTimer(c, env).0, None);
      case ClientCommand(client, command, payload, env) =>
        CommandIdles(c, client, command, payload, env);
        IdlesOutside(c, D.StartRequest(c, client, command, payload, env).0, Some(Asking(command, payload)));
      case WorkerReady(file, env) => ValidationIdles(c, file, env);
      case _ =>
        RequestIdles(c, Next(p, move).daemon);
        IdlesOutside(c, Next(p, move).daemon, None);
    }
  }

  lemma IdlesOutside(c: D.Context, d: D.Context, asked: Option<Frame>)
    requires Idles(c, d, asked)
    ensures !D.InTransfer(d.upgrade.phase)
  {
  }

  lemma LaunchKeeps(p: Plant, file: seq<byte>, env: D.Env, lib: Library)
    requires PlantOk(p, lib) && p.running && !D.InTransfer(p.daemon.upgrade.phase)
    requires Allowed(p, Reacts(D.WorkerReady(file, env)), lib)
    requires D.InTransfer(React(p, D.WorkerReady(file, env)).daemon.upgrade.phase)
    ensures var q := React(p, D.WorkerReady(file, env)); JobOk(q) && LineOk(q, lib) && PlainRequest(q.daemon)
  {
    hide Inv, D.Joint, S.Consistent, React, PlainRequest, Launch, Calm, Checksum, SettingOf;
    var q, x := React(p, D.WorkerReady(file, env)), SettingOf(p, file, env);
    ValidationLaunches(p, file, env);
    SettingLaunchable(p, file, env, lib);
    LaunchEstablishes(x, lib);
    TrackedIsOk(q, x.update, false, x.session.stats.requests, lib);
    EndedIsPlain(q, x.update, false, x.session.stats.requests, lib);
  }

  lemma SettingLaunchable(p: Plant, file: seq<byte>, env: D.Env, lib: Library)
    requires PlantOk(p, lib) && p.running && !D.InTransfer(p.daemon.upgrade.phase)
    requires Allowed(p, Reacts(D.WorkerReady(file, env)), lib)
    requires var x := SettingOf(p, file, env);
             && !p.daemon.session.pending.active && 0 < |p.daemon.version| <= U.VERSION_MAX && 0 < |file|
             && x.update == Started(file, Checksum(file), p.daemon.version)
    ensures Launchable(SettingOf(p, file, env), lib)
  {
    hide D.Joint, S.Consistent, Calm, Checksum, U.Start, AllForeign;
  }

  lemma OutsideKeeps(p: Plant, move: Move, lib: Library)
    requires PlantOk(p, lib) && p.running && !D.InTransfer(p.daemon.upgrade.phase) && Allowed(p, move, lib)
    requires !OutsideDaemon(move) && (move.Receives? ==> p.toHost != [])
    ensures PlantOk(Next(p, move), lib)
  {
    hide D.Joint, S.Consistent, Next, React, PlainRequest, Calm, Idles, Inv, DaemonOk, Installed, Kept, LineOk, JobOk;
    var q := Next(p, move);
    if move.Flushes? {
      FlushIdles(p, lib);
    } else {
      OutsideIdles(p, move, lib);
      if D.InTransfer(q.daemon.upgrade.phase) {
        NextReacts(p, move.event);
        LaunchKeeps(p, move.event.file, move.event.env, lib);
      } else {
        PlantStays(p, move);
        IdlesKeeps(p, q, lib, AskedBy(move));
      }
    }
    DaemonKeeps(p, move, lib);
  }

  lemma PlantStays(p: Plant, move: Move)
    requires p.running && !OutsideDaemon(move) && !move.Flushes? && !D.InTransfer(Next(p, move).daemon.upgrade.phase)
    ensures var q := Next(p, move); q.device == p.device && q.toDevice == p.toDevice && q.file == p.file
  {
    hide D.React;
  }

  lemma FlushIdles(p: Plant, lib: Library)
    requires PlantOk(p, lib) && p.running && !D.InTransfer(p.daemon.upgrade.phase)
    ensures var q := Next(p, Flushes); JobOk(q) && LineOk(q, lib) && PlainRequest(q.daemon)
  {
    FlushIsLinked(p, U.INITIAL, false);
    hide Next, Calm, D.Joint, S.Consistent, Installed, Kept, Outgoing;
  }

  lemma StoppedStays(p: Plant, move: Move)
    requires !OutsideDaemon(move) && (!p.running || (move.Receives? && p.toHost == []))
    ensures Next(p, move) == p
  {
    hide D.React;
  }

  lemma NextKeepsPlant(p: Plant, move: Move, lib: Library)
    requires PlantOk(p, lib) && Allowed(p, move, lib)
    ensures PlantOk(Next(p, move), lib)
  {
    hide PlantOk, Next, Allowed;
    if OutsideDaemon(move) {
      DeviceSideKeeps(p, move, lib);
    } else if !p.running || (move.Receives? && p.toHost == []) {
      StoppedStays(p, move);
    } else if D.InTransfer(p.daemon.upgrade.phase) {
      TransferKeeps(p, move, lib);
    } else {
      OutsideKeeps(p, move, lib);
    }
  }

  lemma {:induction false} RunKeepsPlant(p: Plant, moves: seq<Move>, lib: Library)
    requires PlantOk(p, lib) && AllAllowed(p, moves, lib)
    ensures PlantOk(Run(p, moves), lib)
    decreases |moves|
  {
    hide PlantOk, Next, Allowed;
    if moves != [] {
      NextKeepsPlant(p, moves[0], lib);
      RunKeepsPlant(Next(p, moves[0]), moves[1..], lib);
    }
  }

  lemma StartIsOk(env: D.Env, device: Sim, lib: Library)
    requires Shelved(device, lib)
    ensures PlantOk(Start(env, device), lib)
  {
    hide D.Joint, D.Boot, Calm, Shelved, S.Consistent, Carries, D.FRESH;
    var p := Start(env, device);
    D.BootEstablishes(env);
    BootConsistent(env);
    GreetingIsCalm(p, lib);
  }

  lemma GreetingIsCalm(p: Plant, lib: Library)
    requires Shelved(p.device, lib) && p.toDevice == [] && p.daemon.output.Some?
    requires p.daemon.output.value.kind == PING && p.daemon.session.pending.frame.kind == PING
    ensures Calm(p.device, Coming(p), lib)
  {
    hide Shelved;
    var f, g := p.daemon.output.value, p.daemon.session.pending.frame;
    assert Calm(p.device, [], lib);
    assert Outgoing(p) == [] + [f];
    CalmAppend(p.device, [], f, lib);
    CalmAppend(p.device, [] + [f], g, lib);
  }

  lemma BootConsistent(env: D.Env)
    ensures var c := D.Boot(env).0;
            && S.Consistent(c.session) && c.upgrade == U.INITIAL && c.output.Some? && c.output.value.kind == PING
            && c.session.pending.frame.kind == PING && Carries(c.output.value, c.session.stats.requests)
  {
  }

  /** In every run of the whole system, from the daemon's start, with any clients, any number of
      updates, and any frames lost: whenever an update is reported complete, the device's flash is
      exactly the file that was adopted for it, the device runs under the version the client asked
      for, and its session is closed. */
  lemma CompleteMeansFileInstalled(env: D.Env, device: Sim, lib: Library, moves: seq<Move>)
    requires Shelved(device, lib) && AllAllowed(Start(env, device), moves, lib)
    ensures var p := Run(Start(env, device), moves);
            p.daemon.upgrade.phase == U.Complete ==>
              p.device.flash == p.file && p.device.version == p.daemon.version && !p.device.upgrading
              && !p.device.verified
  {
    StartIsOk(env, device, lib);
    RunKeepsPlant(Start(env, device), moves, lib);
    hide Run, Start, Calm, D.Joint, S.Consistent, AllAllowed;
  }

  // ----- The numbers on the line -----

  /** Each frame carries no number, or that of one of the first k requests. */
  ghost predicate AllUsed(q: seq<Frame>, k: nat) {
    forall i :: 0 <= i < |q| ==> q[i].sequence == 0 || Recent(q[i].sequence, 0, k)
  }

  ghost predicate NumbersOk(p: Plant) {
    var k := p.daemon.session.stats.requests;
    S.Consistent(p.daemon.session) && AllUsed(Outgoing(p), k) && AllUsed(p.toHost, k)
  }

  lemma UsedGrows(q: seq<Frame>, r: seq<Frame>, f: Frame, k: nat, n: nat)
    requires AllUsed(q, k) && k <= n && (r == q || (r == q + [f] && Carries(f, n)))
    ensures AllUsed(r, n)
  {
    hide S.Numbered;
    forall i | 0 <= i < |r|
      ensures r[i].sequence == 0 || Recent(r[i].sequence, 0, n)
    {
      if i < |q| {
        assert r[i] == q[i];
      }
    }
  }

  /** A handler adds at most the last request numbered. */
  lemma ContinuesUsed(p: Plant, q: Plant)
    requires NumbersOk(p) && Continues(p.daemon, q.daemon) && q.toDevice == p.toDevice
    requires forall f :: f in q.toHost ==> f in p.toHost
    ensures NumbersOk(q)
  {
    hide S.Consistent, Carries, Recent;
    var k, n := p.daemon.session.stats.requests, q.daemon.session.stats.requests;
    UsedGrows(p.toHost, p.toHost, Frame(0, 0, 0, []), k, n);
    assert AllUsed(q.toHost, n) by {
      forall i | 0 <= i < |q.toHost|
        ensures q.toHost[i].sequence == 0 || Recent(q.toHost[i].sequence, 0, n)
      {
        assert q.toHost[i] in p.toHost;
      }
    }
    var f := if q.daemon.output.Some? then q.daemon.output.value else Frame(0, 0, 0, []);
    UsedGrows(Outgoing(p), Outgoing(q), f, k, n);
  }

  lemma DeviceSideNumbers(p: Plant, move: Move)
    requires NumbersOk(p) && OutsideDaemon(move)
    ensures NumbersOk(Next(p, move))
  {
    hide Next, Outgoing, Respond, S.Consistent, Recent;
    var q := Next(p, move);
    OutgoingMoves(p, move);
    ToHostMoves(p, move);
    if move.DeviceMoves? && p.toDevice != [] {
      AnswerNumbered(p.device, p.toDevice[0], move.whim);
    }
  }

  lemma ToHostMoves(p: Plant, move: Move)
    requires OutsideDaemon(move)
    ensures var q := Next(p, move);
            && q.daemon == p.daemon
            && match move
               case DeviceMoves(env, lost) =>
                 p.toDevice != [] && !lost ==> q.toHost == p.toHost + [Respond(p.device, p.toDevice[0], env).1]
               case Reports(payload) => q.toHost == p.toHost + [Report(payload)]
               case LosesToHost(i) => q.toHost == Without(p.toHost, i)
               case _ => true
    ensures move.LosesToDevice? || (move.DeviceMoves? && (p.toDevice == [] || move.lost)) ==>
              Next(p, move).toHost == p.toHost
  {
    hide Respond;
  }

  /** Every move of the whole system keeps the numbers in order. */
  lemma NextKeepsNumbers(p: Plant, move: Move)
    requires NumbersOk(p)
    ensures NumbersOk(Next(p, move))
  {
    hide Next, NumbersOk, Continues, D.React;
    var q := Next(p, move);
    if OutsideDaemon(move) {
      DeviceSideNumbers(p, move);
    } else if !p.running || (move.Receives? && p.toHost == []) {
      StoppedStays(p, move);
    } else {
      DaemonNumbers(p, move);
    }
  }

  lemma DaemonNumbers(p: Plant, move: Move)
    requires NumbersOk(p) && p.running && !OutsideDaemon(move) && (move.Receives? ==> p.toHost != [])
    ensures NumbersOk(Next(p, move))
  {
    hide D.React, Continues, S.Consistent;
    var e, q := EventOf(p, move), Next(p, move);
    HandlerContinues(p.daemon, e);
    if e.OutputFlushed? {
      FlushedNumbers(p, move);
    } else {
      ContinuesUsed(p, q);
    }
  }

  lemma FlushedNumbers(p: Plant, move: Move)
    requires NumbersOk(p) && p.running && (move == Flushes || move == Reacts(D.OutputFlushed))
    ensures NumbersOk(Next(p, move))
  {
    hide S.Consistent, Recent;
    var q := Next(p, move);
    assert Outgoing(q) == Outgoing(p) || Outgoing(q) == p.toDevice;
    forall i | 0 <= i < |p.toDevice|
      ensures Outgoing(p)[i] == p.toDevice[i]
    {
    }
  }

  lemma StartNumbers(env: D.Env, device: Sim)
    ensures NumbersOk(Start(env, device))
  {
    BootConsistent(env);
    var p := Start(env, device);
    assert Outgoing(p) == [] + [p.daemon.output.value];
    UsedGrows([], Outgoing(p), p.daemon.output.value, 0, p.daemon.session.stats.requests);
    hide D.Boot, S.Consistent, Carries;
  }

  /** With so few requests behind it, no number an update is going to use is on the line. */
  lemma NumbersFresh(p: Plant)
    requires NumbersOk(p) && p.daemon.session.stats.requests + LONGEST < S.PERIOD
    ensures Fresh(p)
  {
    hide S.Consistent;
    UsedIsForeign(Outgoing(p), p.daemon.session.stats.requests);
    UsedIsForeign(p.toHost, p.daemon.session.stats.requests);
  }

  lemma UsedIsForeign(q: seq<Frame>, k: nat)
    requires AllUsed(q, k) && k + LONGEST < S.PERIOD
    ensures AllForeign(q, k)
  {
    hide S.Numbered;
    forall i | 0 <= i < |q|
      ensures Foreign(q[i].sequence, k)
    {
      if q[i].sequence != 0 {
        var j :| 0 < j <= k && S.Numbered(j) == q[i].sequence;
        EarlierIsForeign(j, k);
      }
    }
  }

  /** A run whose updates are all adopted before the numbers come round. */
  ghost predicate AllEarly(p: Plant, moves: seq<Move>, lib: Library)
    decreases |moves|
  {
    moves == [] ||
      (&& Admissible(p, moves[0], lib)
       && (moves[0].Reacts? && moves[0].event.WorkerReady? ==> p.daemon.session.stats.requests + LONGEST < S.PERIOD)
       && AllEarly(Next(p, moves[0]), moves[1..], lib))
  }

  lemma {:induction false} EarlyIsAllowed(p: Plant, moves: seq<Move>, lib: Library)
    requires NumbersOk(p) && AllEarly(p, moves, lib)
    ensures AllAllowed(p, moves, lib)
    decreases |moves|
  {
    hide NumbersOk, Admissible, Fresh, Next;
    if moves != [] {
      if moves[0].Reacts? && moves[0].event.WorkerReady? {
        NumbersFresh(p);
      }
      NextKeepsNumbers(p, moves[0]);
      EarlyIsAllowed(Next(p, moves[0]), moves[1..], lib);
    }
  }

  /** The same, with nothing asked of the frames on the line: until the numbers come round, which takes
      more than four thousand million requests, none of them can be mistaken. */
  lemma EarlyCompletionMeansFileInstalled(env: D.Env, device: Sim, lib: Library, moves: seq<Move>)
    requires Shelved(device, lib) && AllEarly(Start(env, device), moves, lib)
    ensures var p := Run(Start(env, device), moves);
            p.daemon.upgrade.phase == U.Complete ==>
              p.device.flash == p.file && p.device.version == p.daemon.version && !p.device.upgrading
              && !p.device.verified
  {
    hide Run, Start, AllAllowed, AllEarly, Shelved, NumbersOk;
    StartNumbers(env, device);
    EarlyIsAllowed(Start(env, device), moves, lib);
    CompleteMeansFileInstalled(env, device, lib, moves);
  }
}
