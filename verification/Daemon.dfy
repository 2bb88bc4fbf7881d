/** The state that the reactor's handlers share (apps/devmgrd/daemon.c): session, update, client
    in service, output buffer, mapped image, and the worker behind its mailbox. */
module Daemon {
  import opened Wire
  import opened Crc32
  import opened Driver
  import S = Session
  import U = Upgrade
  import W = Worker

  const CLIENT_POLICY: S.Policy := S.Policy(1000, 500, 2)
  const HANDSHAKE_POLICY: S.Policy := S.Policy(1000, 500, 3)
  const DEFAULT_CHUNK: u16 := 1024

  const GET_TELEMETRY: byte := 0xF0
  const UPGRADE: byte := 0xF1
  const UPGRADE_STATUS: byte := 0xF2

  /** What a client is sent. */
  datatype Response = Response(command: byte, status: Status, payload: seq<byte>)

  /** The most a client is sent at a time. */
  const RESPONSE_MAX: nat := 4096

  /** `output` is the frame in the output buffer, and `responses` what the clients' own buffers hold.
      `firmware` is the mapped image, known by its number; `released` records the images the
      reactor has unmapped. The counter is 64-bit in the source, here unbounded. */
  datatype Context = Context(session: S.State, upgrade: U.State, activeClient: Option<nat>, output: Option<Frame>,
                             firmware: Option<nat>, operationId: u32, result: Status, version: CString,
                             telemetry: seq<byte>, telemetryFrames: nat, responses: map<nat, Response>,
                             released: multiset<nat>, sys: W.System)

  /** What a handler cannot decide itself: the clock, whether epoll accepts a change of the
      transport's or a client's events. */
  datatype Env = Env(now: u64, transport: EpollStatus, client: EpollStatus)

  predicate InTransfer(phase: U.Phase) {
    phase != U.Idle && phase != U.Validating && phase != U.Complete && phase != U.Errored
  }

  // ----- The handlers -----

  /** queue_frame: the output buffer holds one frame at a time. */
  function QueueVerdict(c: Context, env: Env): QueueStatus {
    if c.output.Some? then Busy else env.transport
  }

  /** The output buffer after a frame has been queued, which it is unless the buffer is in use. */
  function Buffered(c: Context, f: Frame): Option<Frame> {
    if c.output.Some? then c.output else Some(f)
  }

  function CloseFirmware(c: Context): Context {
    c.(firmware := None, released := c.released + W.Held(c.firmware))
  }

  /** queue_upgrade_request */
  function QueueUpgrade(c: Context, env: Env): (Context, Status) {
    var (h, status, sent) := QueueRequest(Host(c.session, c.upgrade), env.now, QueueVerdict(c, env));
    (c.(session := h.session, upgrade := h.upgrade, output := if sent.Some? then sent else c.output), status)
  }

  /** queue_client_response: a payload too long for a client is left out. */
  function Tell(c: Context, client: nat, command: byte, status: Status, payload: seq<byte>): Context {
    var response := if |payload| > RESPONSE_MAX then Response(command, Limit, [])
                    else Response(command, status, payload);
    c.(responses := c.responses[client := response])
  }

  /** The reactor reads the eventfd and takes the validation in one go. */
  function CollectResult(s: W.System): W.System {
    W.Next(W.Next(s, W.ReactorReads), W.ReactorTakes)
  }

  /** An update that could not be set going. */
  function AbandonUpgrade(c: Context, status: Status): Context {
    var closed := CloseFirmware(c.(result := status, upgrade := c.upgrade.(phase := U.Errored)));
    if closed.session.device == S.Upgrading
    then closed.(session := S.Transition(closed.session, S.UpgradeDone).0) else closed
  }

  /** The reactor maps the validated image and sets the update going. */
  function Adopt(c: Context, image: Option<nat>, file: seq<byte>, env: Env): Context {
    var (u, started) := U.Start(c.upgrade, file, Checksum(file), c.version, DEFAULT_CHUNK);
    var d := c.(firmware := image, upgrade := u);
    if started != Ok then AbandonUpgrade(d, started)
    else
      var (s, moved) := S.Transition(d.session, S.StartUpgrade);
      if moved != Ok then AbandonUpgrade(d, moved)
      else
        var (e, queued) := QueueUpgrade(d.(session := s), env);
        if queued != Ok then AbandonUpgrade(e, queued) else e
  }

  /** A validation reaches the reactor: stale, failed, or the one it waits for. */
  function Deliver(c: Context, v: W.Validation, file: seq<byte>, env: Env): Context {
    if v.jobId != c.operationId || c.upgrade.phase != U.Validating then
      c.(released := c.released + W.Held(v.image))
    else if v.status != Ok then c.(result := v.status, upgrade := c.upgrade.(phase := U.Errored))
    else Adopt(c, v.image, file, env)
  }

  /** handle_worker_completion, for a file with the given contents. */
  function OnWorkerReady(c: Context, file: seq<byte>, env: Env): (Context, Status) {
    if c.sys.box.events == 0 || c.sys.reactor != W.Serving then (c, Io)
    else
      var taken := W.Take(c.sys.box).1;
      var d := c.(sys := CollectResult(c.sys));
      if taken.Failure? then (d, taken.status) else (Deliver(d, taken.value, file, env), Ok)
  }

  /** An update that has ended, well or badly. */
  function EndUpgrade(c: Context, status: Status): Context {
    CloseFirmware(c.(result := status, session := S.Transition(c.session, S.UpgradeDone).0))
  }

  const TELEMETRY_SIZE: nat := 16

  /** on_device_frame */
  function OnDeviceFrame(c: Context, frame: Frame, env: Env): (Context, Status) {
    if IsTelemetry(frame) then
      (if |frame.payload| == TELEMETRY_SIZE
       then c.(telemetry := frame.payload, telemetryFrames := c.telemetryFrames + 1) else c, Ok)
    else OnResponse(c, frame, env)
  }

  function OnResponse(c: Context, frame: Frame, env: Env): (Context, Status) {
    var requestKind := c.session.pending.frame.kind;
    var (s, accepted) := S.Accept(c.session, frame);
    var d := c.(session := s);
    var refused := frame.kind == NACK || frame.kind == ERROR;
    if accepted != Ok then (d, Ok)
    else if s.device == S.Handshaking then
      if refused then (d, Protocol)
      else
        var (t, status) := S.Transition(s, S.HandshakeOk);
        (d.(session := t), status)
    else if U.Active(d.upgrade) then
      var (u, status) := U.Accept(d.upgrade, requestKind, frame);
      var e := d.(upgrade := u);
      if status == Ok && u.phase == U.Complete then (EndUpgrade(e, Ok), Ok)
      else if status != Ok then (EndUpgrade(e, status), Ok)
      else QueueUpgrade(e, env)
    else if d.activeClient.Some? then
      var t := if refused then s
               else if requestKind == START_TELEMETRY then S.Transition(s, S.StartStream).0
               else if requestKind == STOP_TELEMETRY then S.Transition(s, S.StopStream).0
               else s;
      (Tell(d.(activeClient := None, session := t), d.activeClient.value, requestKind,
            if refused then Protocol else Ok, frame.payload), env.client)
    else (d, Ok)
  }

  /** The path and the version that an upgrade command names. */
  function UpgradeNames(payload: seq<byte>): Option<(CString, CString)> {
    var n := FirstZero(payload);
    if n == |payload| || n == 0 || n + 1 >= |payload| then None
    else
      var rest := payload[n + 1..];
      var m := FirstZero(rest);
      if m == |rest| || m == 0 || m > U.VERSION_MAX then None else Some((payload[..n], rest[..m]))
  }

  function StartUpgradeCommand(c: Context, client: nat, payload: seq<byte>, env: Env): (Context, Status) {
    var names := UpgradeNames(payload);
    if names.None? then (Tell(c, client, UPGRADE, Invalid, []), env.client)
    else if c.session.device != S.Ready || c.activeClient.Some? || U.Active(c.upgrade) then
      (Tell(c, client, UPGRADE, Busy, []), env.client)
    else (SubmitUpgrade(c, client, names.value.0, names.value.1), env.client)
  }

  /** The file is given to the worker for validation, under a new operation. */
  function SubmitUpgrade(c: Context, client: nat, path: CString, version: CString): Context {
    var id := NextNonzero(c.operationId);
    var (box, submitted) := W.Submit(c.sys.box, id, path);
    var d := c.(operationId := id, result := submitted, version := version,
                upgrade := c.upgrade.(phase := if submitted == Ok then U.Validating else U.Errored),
                sys := c.sys.(box := box));
    Tell(d, client, UPGRADE, submitted, if submitted == Ok then PutLe32(id) else [])
  }

  /** The C enumeration's value of a phase. */
  function PhaseCode(phase: U.Phase): byte {
    match phase
    case Idle => 0
    case Validating => 1
    case Entering => 2
    case Beginning => 3
    case Transferring => 4
    case Recovering => 5
    case Ending => 6
    case Verifying => 7
    case Activating => 8
    case Restarting => 9
    case Complete => 10
    case Errored => 11
  }

  /** A status, which is zero or negative, as a uint32_t. */
  function StatusCode(status: Status): u32 {
    match status
    case Ok => 0
    case Invalid => 0x1_0000_0000 - 1
    case Overflow => 0x1_0000_0000 - 3
    case BadCrc => 0x1_0000_0000 - 5
    case Protocol => 0x1_0000_0000 - 6
    case Timeout => 0x1_0000_0000 - 7
    case Disconnected => 0x1_0000_0000 - 8
    case Io => 0x1_0000_0000 - 9
    case BadState => 0x1_0000_0000 - 10
    case Busy => 0x1_0000_0000 - 11
    case NotFound => 0x1_0000_0000 - 12
    case Limit => 0x1_0000_0000 - 13
  }

  /** What a client is told of the operation it asks for. */
  function Progress(c: Context): seq<byte> {
    PutLe32(c.operationId) + [PhaseCode(c.upgrade.phase), 0, 0, 0] + PutLe32(StatusCode(c.result))
    + PutLe32(c.upgrade.offset) + PutLe32(U.Truncate32(|c.upgrade.image|))
  }

  function TellProgress(c: Context, client: nat, payload: seq<byte>): Context {
    if |payload| != 4 || c.operationId == 0 || GetLe32(payload) != c.operationId
    then Tell(c, client, UPGRADE_STATUS, NotFound, []) else Tell(c, client, UPGRADE_STATUS, Ok, Progress(c))
  }

  /** Why a command that is to be passed on to the device is not; Ok if it is. */
  function Refusal(c: Context, command: byte): Status {
    if U.Active(c.upgrade) then Busy
    else if command == START_TELEMETRY && c.session.device != S.Ready then BadState
    else if command == STOP_TELEMETRY && c.session.device != S.Streaming then BadState
    else if c.session.device != S.Ready && c.session.device != S.Streaming then BadState
    else if c.activeClient.Some? then Busy
    else Ok
  }

  /** A command is passed on to the device. */
  function PassOn(c: Context, client: nat, command: byte, payload: seq<byte>, env: Env): (Context, Status) {
    var (s, begun) := S.Begin(c.session, command, FLAG_ACK_REQUIRED, payload, CLIENT_POLICY, env.now);
    if begun.Failure? then (Tell(c.(session := s), client, command, begun.status, []), env.client)
    else
      var queued := QueueVerdict(c, env);
      var d := c.(session := s, output := Buffered(c, begun.value));
      if queued != Ok then (Tell(d.(session := S.Cancel(s)), client, command, queued, []), env.client)
      else (d.(activeClient := Some(client)), Ok)
  }

  /** start_request: a client's command. */
  function StartRequest(c: Context, client: nat, command: byte, payload: seq<byte>, env: Env): (Context, Status) {
    if command == GET_TELEMETRY then
      (Tell(c, client, command, if c.telemetry == [] then NotFound else Ok, c.telemetry), env.client)
    else if command == UPGRADE_STATUS then (TellProgress(c, client, payload), env.client)
    else if command == UPGRADE then StartUpgradeCommand(c, client, payload, env)
    else if Refusal(c, command) != Ok then (Tell(c, client, command, Refusal(c, command), []), env.client)
    else PassOn(c, client, command, payload, env)
  }

  function CloseClient(c: Context, client: nat): Context {
    if c.activeClient == Some(client) then c.(activeClient := None) else c
  }

  /** A request of the update has run out of retries. */
  function RecoverUpgrade(c: Context, env: Env): Context {
    var (u, recovering) := U.BeginRecovery(c.upgrade);
    var d := c.(upgrade := u);
    var (e, queued) := if recovering == Ok then QueueUpgrade(d, env) else (d, recovering);
    if queued == Ok then e else EndUpgrade(e.(upgrade := e.upgrade.(phase := U.Errored)), Timeout)
  }

  /** The timer branch of the event loop. */
  function OnTimer(c: Context, env: Env): (Context, Status) {
    var (s, status, again) := S.Tick(c.session, env.now, QueueVerdict(c, env));
    var d := c.(session := s, output := if again.Some? then Buffered(c, again.value) else c.output);
    if status != Timeout then (d, status)
    else if U.Active(d.upgrade) then (RecoverUpgrade(d, env), Ok)
    else if d.activeClient.Some? then
      (Tell(d.(activeClient := None), d.activeClient.value, 0, Timeout, []), env.client)
    else (d, Timeout)
  }

  // ----- The object -----

  class Reactor {
    var session: S.State
    var upgrade: U.State
    var activeClient: Option<nat>
    var output: Option<Frame>
    var firmware: Option<nat>
    var operationId: u32
    var result: Status
    var version: CString
    var telemetry: seq<byte>
    var telemetryFrames: nat
    var responses: map<nat, Response>
    var released: multiset<nat>
    var sys: W.System

    ghost function View(): Context
      reads this
    {
      Context(session, upgrade, activeClient, output, firmware, operationId, result, version, telemetry,
              telemetryFrames, responses, released, sys)
    }

    constructor ()
      ensures View() == FRESH
    {
      session, upgrade, activeClient, output, firmware := S.INITIAL, U.INITIAL, None, None, None;
      operationId, result, version, telemetry, telemetryFrames, responses := 0, Ok, [], [], 0, map[];
      released, sys := multiset{}, W.START;
    }

    method StartHandshake(env: Env) returns (status: Status)
      requires View() == FRESH
      modifies this
      ensures (View(), status) == Boot(env)
    {
      hide S.Begin;
      session := S.Transition(session, S.Connect).0;
      session := S.Transition(session, S.TransportConnected).0;
      var (s, begun) := S.Begin(session, PING, FLAG_ACK_REQUIRED, [], HANDSHAKE_POLICY, env.now);
      session := s;
      if begun.Failure? {
        return begun.status;
      }
      status := QueueOutput(begun.value, env);
    }

    method QueueOutput(f: Frame, env: Env) returns (status: Status)
      modifies this`output
      ensures status == QueueVerdict(old(View()), env) && output == Buffered(old(View()), f)
    {
      if output.Some? {
        return Busy;
      }
      output := Some(f);
      return env.transport;
    }

    method Answer(client: nat, command: byte, status: Status, payload: seq<byte>)
      modifies this`responses
      ensures View() == Tell(old(View()), client, command, status, payload)
    {
      var response := Response(command, status, payload);
      if |payload| > RESPONSE_MAX {
        response := Response(command, Limit, []);
      }
      responses := responses[client := response];
    }

    method QueueUpgradeRequest(env: Env) returns (status: Status)
      modifies this
      ensures (View(), status) == QueueUpgrade(old(View()), env)
    {
      hide PutLe32, PutLe16;
      var (u, built) := U.Build(upgrade);
      upgrade := u;
      if built.Failure? {
        status := built.status;
      } else {
        var f := built.value;
        var (s, begun) := S.Begin(session, f.kind, f.flags, f.payload, UPGRADE_POLICY, env.now);
        session := s;
        if begun.Failure? {
          status := begun.status;
        } else {
          status := QueueOutput(begun.value, env);
        }
      }
      if status != Ok {
        session := S.Cancel(session);
      }
    }

    method UnmapFirmware()
      modifies this
      ensures View() == CloseFirmware(old(View()))
    {
      released := released + W.Held(firmware);
      firmware := None;
    }

    method FinishUpgradeWith(status: Status)
      modifies this
      ensures View() == EndUpgrade(old(View()), status)
    {
      hide S.Transition;
      result := status;
      session := S.Transition(session, S.UpgradeDone).0;
      UnmapFirmware();
    }

    method AdoptImage(image: Option<nat>, file: seq<byte>, env: Env)
      modifies this
      ensures View() == Adopt(old(View()), image, file, env)
    {
      hide U.Start, S.Transition, QueueUpgrade, Checksum, AbandonUpgrade;
      firmware := image;
      var crc := ComputeChecksum(file);
      var (u, status) := U.Start(upgrade, file, crc, version, DEFAULT_CHUNK);
      upgrade := u;
      if status == Ok {
        var (s, moved) := S.Transition(session, S.StartUpgrade);
        status := moved;
        if moved == Ok {
          session := s;
          status := QueueUpgradeRequest(env);
        }
      }
      if status != Ok {
        AbandonWith(status);
      }
    }

    method AbandonWith(status: Status)
      modifies this
      ensures View() == AbandonUpgrade(old(View()), status)
    {
      hide S.Transition, W.Held;
      result := status;
      upgrade := upgrade.(phase := U.Errored);
      UnmapFirmware();
      if session.device == S.Upgrading {
        session := S.Transition(session, S.UpgradeDone).0;
      }
    }

    method HandleWorkerCompletion(file: seq<byte>, env: Env) returns (status: Status)
      modifies this
      ensures (View(), status) == OnWorkerReady(old(View()), file, env)
    {
      hide Adopt, CollectResult, W.Take;
      if sys.box.events == 0 || sys.reactor != W.Serving {
        return Io;
      }
      var taken := W.Take(sys.box).1;
      sys := CollectResult(sys);
      if taken.Failure? {
        return taken.status;
      }
      var validation := taken.value;
      if validation.jobId != operationId || upgrade.phase != U.Validating {
        released := released + W.Held(validation.image);
        return Ok;
      }
      if validation.status != Ok {
        result := validation.status;
        upgrade := upgrade.(phase := U.Errored);
        return Ok;
      }
      AdoptImage(validation.image, file, env);
      return Ok;
    }

    method HandleDeviceFrame(frame: Frame, env: Env) returns (status: Status)
      modifies this
      ensures (View(), status) == OnDeviceFrame(old(View()), frame, env)
    {
      hide S.Accept, U.Accept, S.Transition, QueueUpgrade, EndUpgrade, Tell;
      if IsTelemetry(frame) {
        if |frame.payload| == TELEMETRY_SIZE {
          telemetry := frame.payload;
          telemetryFrames := telemetryFrames + 1;
        }
        return Ok;
      }
      var requestKind := session.pending.frame.kind;
      var (s, accepted) := S.Accept(session, frame);
      session := s;
      if accepted != Ok {
        return Ok;
      }
      var refused := frame.kind == NACK || frame.kind == ERROR;
      if session.device == S.Handshaking {
        if refused {
          return Protocol;
        }
        var (t, ready) := S.Transition(session, S.HandshakeOk);
        session := t;
        return ready;
      }
      if U.Active(upgrade) {
        var (u, answered) := U.Accept(upgrade, requestKind, frame);
        upgrade := u;
        if answered == Ok && upgrade.phase == U.Complete {
          FinishUpgradeWith(Ok);
          return Ok;
        }
        if answered != Ok {
          FinishUpgradeWith(answered);
          return Ok;
        }
        status := QueueUpgradeRequest(env);
        return;
      }
      if activeClient.Some? {
        var client := activeClient.value;
        activeClient := None;
        if !refused {
          if requestKind == START_TELEMETRY {
            session := S.Transition(session, S.StartStream).0;
          } else if requestKind == STOP_TELEMETRY {
            session := S.Transition(session, S.StopStream).0;
          }
        }
        Answer(client, requestKind, if refused then Protocol else Ok, frame.payload);
        return env.client;
      }
      return Ok;
    }

    method HandleUpgradeCommand(client: nat, payload: seq<byte>, env: Env) returns (status: Status)
      modifies this
      ensures (View(), status) == StartUpgradeCommand(old(View()), client, payload, env)
    {
      hide SubmitUpgrade, UpgradeNames;
      var names := UpgradeNames(payload);
      if names.None? {
        Answer(client, UPGRADE, Invalid, []);
        return env.client;
      }
      if session.device != S.Ready || activeClient.Some? || U.Active(upgrade) {
        Answer(client, UPGRADE, Busy, []);
        return env.client;
      }
      SubmitJob(client, names.value.0, names.value.1);
      return env.client;
    }

    method SubmitJob(client: nat, path: CString, name: CString)
      modifies this
      ensures View() == SubmitUpgrade(old(View()), client, path, name)
    {
      hide W.Submit, PutLe32, Tell, NextNonzero;
      operationId, result, version := NextNonzero(operationId), Ok, name;
      upgrade := upgrade.(phase := U.Validating);
      var (box, submitted) := W.Submit(sys.box, operationId, path);
      sys := sys.(box := box);
      if submitted != Ok {
        result, upgrade := submitted, upgrade.(phase := U.Errored);
        Answer(client, UPGRADE, submitted, []);
      } else {
        Answer(client, UPGRADE, Ok, PutLe32(operationId));
      }
    }

    method ReportProgress(client: nat, payload: seq<byte>)
      modifies this
      ensures View() == TellProgress(old(View()), client, payload)
    {
      hide PutLe32, GetLe32;
      if |payload| != 4 || operationId == 0 || GetLe32(payload) != operationId {
        Answer(client, UPGRADE_STATUS, NotFound, []);
      } else {
        Answer(client, UPGRADE_STATUS, Ok,
               PutLe32(operationId) + [PhaseCode(upgrade.phase), 0, 0, 0] + PutLe32(StatusCode(result))
               + PutLe32(upgrade.offset) + PutLe32(U.Truncate32(|upgrade.image|)));
      }
    }

    method HandleCommand(client: nat, command: byte, payload: seq<byte>, env: Env) returns (status: Status)
      modifies this
      ensures (View(), status) == StartRequest(old(View()), client, command, payload, env)
    {
      hide StartUpgradeCommand, TellProgress, PassOn;
      if command == GET_TELEMETRY {
        if telemetry == [] {
          Answer(client, command, NotFound, []);
        } else {
          Answer(client, command, Ok, telemetry);
        }
        return env.client;
      }
      if command == UPGRADE_STATUS {
        ReportProgress(client, payload);
        return env.client;
      }
      if command == UPGRADE {
        status := HandleUpgradeCommand(client, payload, env);
        return;
      }
      var refusal := Ok;
      if U.Active(upgrade) {
        refusal := Busy;
      } else if command == START_TELEMETRY && session.device != S.Ready {
        refusal := BadState;
      } else if command == STOP_TELEMETRY && session.device != S.Streaming {
        refusal := BadState;
      } else if session.device != S.Ready && session.device != S.Streaming {
        refusal := BadState;
      } else if activeClient.Some? {
        refusal := Busy;
      }
      if refusal != Ok {
        Answer(client, command, refusal, []);
        return env.client;
      }
      status := ForwardCommand(client, command, payload, env);
    }

    method ForwardCommand(client: nat, command: byte, payload: seq<byte>, env: Env) returns (status: Status)
      modifies this
      ensures (View(), status) == PassOn(old(View()), client, command, payload, env)
    {
      hide S.Begin;
      var (s, begun) := S.Begin(session, command, FLAG_ACK_REQUIRED, payload, CLIENT_POLICY, env.now);
      session := s;
      if begun.Failure? {
        Answer(client, command, begun.status, []);
        return env.client;
      }
      var queued := QueueOutput(begun.value, env);
      if queued != Ok {
        session := S.Cancel(session);
        Answer(client, command, queued, []);
        return env.client;
      }
      activeClient := Some(client);
      return Ok;
    }

    method RecoverOrFail(env: Env)
      modifies this
      ensures View() == RecoverUpgrade(old(View()), env)
    {
      hide U.BeginRecovery, QueueUpgrade, EndUpgrade;
      var (u, recovering) := U.BeginRecovery(upgrade);
      upgrade := u;
      var queued := recovering;
      if recovering == Ok {
        queued := QueueUpgradeRequest(env);
      }
      if queued != Ok {
        upgrade := upgrade.(phase := U.Errored);
        FinishUpgradeWith(Timeout);
      }
    }

    method HandleTimer(env: Env) returns (status: Status)
      modifies this
      ensures (View(), status) == OnTimer(old(View()), env)
    {
      hide S.Tick, RecoverUpgrade;
      var (s, ticked, again) := S.Tick(session, env.now, if output.Some? then Busy else env.transport);
      session := s;
      if again.Some? && output.None? {
        output := again;
      }
      if ticked != Timeout {
        return ticked;
      }
      if U.Active(upgrade) {
        RecoverOrFail(env);
        return Ok;
      }
      if activeClient.Some? {
        Answer(activeClient.value, 0, Timeout, []);
        activeClient := None;
        return env.client;
      }
      return Timeout;
    }
  }

  // ----- The event loop -----

  datatype Event =
    | WorkerMoves(step: W.Step)
    | WorkerReady(file: seq<byte>, env: Env)
    | DeviceFrame(frame: Frame, env: Env)
    | ClientCommand(client: nat, command: byte, payload: seq<byte>, env: Env)
    | ClientGone(client: nat)
    | TimerFires(env: Env)
    | OutputFlushed

  /** The worker thread moves on its own; everything else is a handler of the reactor. */
  predicate Possible(e: Event) {
    && (e.WorkerMoves? ==> e.step.WorkerWakes? || e.step.WorkerOpens? || e.step.WorkerPosts? || e.step.WorkerSignals?)
    && (e.WorkerReady? ==> 0 < |e.file| <= MAX_IMAGE)
  }

  function React(c: Context, e: Event): (Context, Status) {
    match e
    case WorkerMoves(step) => (c.(sys := W.Next(c.sys, step)), Ok)
    case WorkerReady(file, env) => OnWorkerReady(c, file, env)
    case DeviceFrame(frame, env) => OnDeviceFrame(c, frame, env)
    case ClientCommand(client, command, payload, env) => StartRequest(c, client, command, payload, env)
    case ClientGone(client) => (CloseClient(c, client), Ok)
    case TimerFires(env) => OnTimer(c, env)
    case OutputFlushed => (c.(output := None), Ok)
  }

  /** The loop's state after the events, or nothing once a handler has failed. */
  function Loop(c: Context, events: seq<Event>): Option<Context>
    decreases |events|
  {
    if events == [] then Some(c)
    else
      var (d, status) := React(c, events[0]);
      if status != Ok then None else Loop(d, events[1..])
  }

  const FRESH: Context := Context(S.INITIAL, U.INITIAL, None, None, None, 0, Ok, [], [], 0, map[], multiset{}, W.START)

  /** start_handshake, on a fresh context whose output buffer is empty. */
  function Boot(env: Env): (Context, Status) {
    var s := S.Transition(S.Transition(S.INITIAL, S.Connect).0, S.TransportConnected).0;
    var (t, begun) := S.Begin(s, PING, FLAG_ACK_REQUIRED, [], HANDSHAKE_POLICY, env.now);
    if begun.Failure? then (FRESH.(session := t), begun.status)
    else (FRESH.(session := t, output := Some(begun.value)), env.transport)
  }

  // ----- The joint invariant -----

  /** The request that each phase waits for. */
  function KindOf(phase: U.Phase): byte {
    match phase
    case Entering => ENTER_BOOTLOADER
    case Beginning => FW_BEGIN
    case Transferring => FW_DATA
    case Recovering => FW_STATUS
    case Ending => FW_END
    case Verifying => FW_VERIFY
    case Activating => FW_ACTIVATE
    case _ => REBOOT
  }

  /** The worker and its mailbox are all about the last job submitted. */
  ghost predicate OneJob(s: W.System) {
    && (s.worker.Opening? ==> s.worker.jobId == s.box.jobId)
    && (s.worker.Posting? ==> s.worker.validation.jobId == s.box.jobId)
    && (s.worker.Posting? ==> (s.worker.validation.status == Ok <==> s.worker.validation.image.Some?))
    && (s.box.resultPending ==> s.box.result.jobId == s.box.jobId)
    && (s.box.resultPending ==> (s.box.result.status == Ok <==> s.box.result.image.Some?))
  }

  ghost predicate WorkerOk(s: W.System) {
    W.Inv(s) && OneJob(s) && s.reactor == W.Serving
  }

  /** An image the reactor has taken is mapped or has been released, once. */
  ghost predicate ImagesOwned(c: Context) {
    forall i: nat :: c.sys.taken[i] == c.released[i] + Bit(c.firmware == Some(i))
  }

  ghost predicate StatesAgree(c: Context) {
    && (c.session.device == S.Upgrading <==> InTransfer(c.upgrade.phase))
    && (InTransfer(c.upgrade.phase) <==> c.firmware.Some?)
    && (InTransfer(c.upgrade.phase) ==>
          c.session.pending.active && c.session.pending.frame.kind == KindOf(c.upgrade.phase) && U.Good(c.upgrade))
    && (U.Active(c.upgrade) ==> c.activeClient.None?)
    && (c.activeClient.Some? ==>
          c.session.pending.active && (c.session.device == S.Ready || c.session.device == S.Streaming))
  }

  /** While validation is under way its job is with the worker. */
  ghost predicate ValidationAgrees(c: Context) {
    c.upgrade.phase == U.Validating ==>
      && c.session.device == S.Ready && 0 < |c.version| <= U.VERSION_MAX
      && c.sys.box.jobId == c.operationId
      && (c.sys.box.jobPending || c.sys.box.jobRunning || c.sys.box.resultPending)
  }

  ghost predicate HandshakeAgrees(c: Context) {
    && (c.session.device == S.Handshaking ==> c.session.pending.active && c.upgrade.phase == U.Idle)
    && c.session.device != S.Unplugged && c.session.device != S.Connecting && c.session.device != S.Rebooting
  }

  ghost predicate Joint(c: Context) {
    WorkerOk(c.sys) && ImagesOwned(c) && StatesAgree(c) && ValidationAgrees(c) && HandshakeAgrees(c)
  }

  // ----- Each handler keeps it -----

  lemma WorkerMovesKeeps(c: Context, step: W.Step)
    requires Joint(c) && Possible(WorkerMoves(step))
    ensures Joint(React(c, WorkerMoves(step)).0)
  {
    W.NextKeepsSlot(c.sys, step);
    W.NextKeepsImages(c.sys, step);
    hide W.SlotOk, W.WakeupsOk, W.ImagesOk, StatesAgree;
    assert W.Next(c.sys, step).taken == c.sys.taken;
  }

  lemma SubmitKeeps(s: W.System, jobId: u32, path: CString)
    requires WorkerOk(s)
    ensures var (b, status) := W.Submit(s.box, jobId, path);
            && WorkerOk(s.(box := b))
            && (status == Ok ==> b.jobPending && b.jobId == jobId)
  {
    var step := W.ReactorSubmits(jobId, path);
    W.NextKeepsSlot(s, step);
    W.NextKeepsImages(s, step);
    hide W.SlotOk, W.WakeupsOk, W.ImagesOk;
  }

  /** Taking the result hands its image to the reactor and leaves the mailbox empty. */
  lemma CollectKeeps(s: W.System)
    requires WorkerOk(s) && s.box.events > 0
    ensures var t := CollectResult(s);
            && WorkerOk(t) && W.Take(s.box).1 == Success(s.box.result) && s.box.result.jobId == s.box.jobId
            && (s.box.result.status == Ok <==> s.box.result.image.Some?)
            && forall i: nat :: t.taken[i] == s.taken[i] + Bit(s.box.result.image == Some(i))
  {
    var r := W.Next(s, W.ReactorReads);
    W.NextKeepsSlot(s, W.ReactorReads);
    W.NextKeepsImages(s, W.ReactorReads);
    W.NextKeepsSlot(r, W.ReactorTakes);
    W.NextKeepsImages(r, W.ReactorTakes);
    hide W.ImagesOk;
  }

  /** Queueing touches only the session's request, the update's counters and the output buffer; on
      success the request in flight is the one the phase calls for. */
  lemma QueueUpgradeEffect(c: Context, env: Env)
    requires U.Good(c.upgrade) && U.Active(c.upgrade)
    ensures var (d, status) := QueueUpgrade(c, env);
            && d == c.(session := d.session, upgrade := d.upgrade, output := d.output)
            && d.session.device == c.session.device && d.upgrade.phase == c.upgrade.phase && U.Good(d.upgrade)
            && (status == Ok ==> d.session.pending.active && d.session.pending.frame.kind == KindOf(d.upgrade.phase))
            && (status != Ok ==> !d.session.pending.active)
            && (!c.session.pending.active ==> status == QueueVerdict(c, env))
  {
    U.BuildSucceeds(c.upgrade);
    hide PutLe32, PutLe16;
  }

  /** An accepted answer leads to another phase of the update, or to its end. */
  lemma AcceptStaysGood(u: U.State, requestKind: byte, frame: Frame)
    requires U.Active(u) && (u.phase == U.Validating || U.Good(u))
    ensures var (w, status) := U.Accept(u, requestKind, frame);
            && (status != Ok ==> w.phase == U.Errored)
            && (status == Ok && w.phase != U.Complete ==> U.Good(w) && InTransfer(w.phase))
  {
    hide GetLe32;
  }

  lemma CloseOwned(c: Context)
    requires ImagesOwned(c)
    ensures ImagesOwned(CloseFirmware(c))
  {
  }

  lemma EndKeeps(c: Context, status: Status)
    requires WorkerOk(c.sys) && ImagesOwned(c) && HandshakeAgrees(c)
    requires c.upgrade.phase == U.Complete || c.upgrade.phase == U.Errored
    requires c.session.device == S.Upgrading || c.session.device == S.Ready
    requires c.activeClient.None?
    ensures Joint(EndUpgrade(c, status))
  {
    CloseOwned(c.(result := status, session := S.Transition(c.session, S.UpgradeDone).0));
    hide WorkerOk, ImagesOwned;
  }

  lemma ResponseDuringUpgrade(c: Context, frame: Frame, env: Env)
    requires Joint(c) && U.Active(c.upgrade) && S.Accept(c.session, frame).1 == Ok
    ensures var (d, status) := OnResponse(c, frame, env); status == Ok ==> Joint(d)
  {
    var requestKind := c.session.pending.frame.kind;
    var s := S.Accept(c.session, frame).0;
    var (u, accepted) := U.Accept(c.upgrade, requestKind, frame);
    AcceptStaysGood(c.upgrade, requestKind, frame);
    assert s.device == c.session.device;
    var e := c.(session := s, upgrade := u);
    assert ImagesOwned(e);
    hide U.Accept, S.Accept, WorkerOk, ImagesOwned, QueueUpgrade, EndUpgrade;
    if accepted != Ok {
      EndKeeps(e, accepted);
    } else if u.phase == U.Complete {
      EndKeeps(e, Ok);
    } else {
      QueueUpgradeEffect(e, env);
      assert ImagesOwned(QueueUpgrade(e, env).0) by { SameImages(e, QueueUpgrade(e, env).0); }
    }
  }

  lemma SameImages(c: Context, d: Context)
    requires ImagesOwned(c) && d.sys == c.sys && d.released == c.released && d.firmware == c.firmware
    ensures ImagesOwned(d)
  {
  }

  lemma AcceptEffect(s: S.State, frame: Frame)
    ensures var (t, status) := S.Accept(s, frame);
            && t == s.(lastCompleted := t.lastCompleted, stats := t.stats, pending := t.pending)
            && t.pending == s.pending.(active := s.pending.active && status != Ok)
            && (status == Ok ==> s.pending.active)
  {
  }

  lemma ResponseOtherwise(c: Context, frame: Frame, env: Env)
    requires Joint(c) && !(U.Active(c.upgrade) && S.Accept(c.session, frame).1 == Ok)
    ensures var (d, status) := OnResponse(c, frame, env); status == Ok ==> Joint(d)
  {
    AcceptEffect(c.session, frame);
    var (s, accepted) := S.Accept(c.session, frame);
    hide S.Accept, WorkerOk, ImagesOwned, U.Accept, QueueUpgrade, EndUpgrade, U.Good;
    var d := OnResponse(c, frame, env).0;
    if accepted != Ok {
      assert d == c.(session := s);
    } else if s.device == S.Handshaking {
      assert d == c.(session := d.session);
    } else if c.activeClient.Some? {
      assert d == c.(session := d.session, activeClient := None, responses := d.responses);
    } else {
      assert d == c.(session := s);
    }
    SameImages(c, d);
  }

  lemma DeviceFrameKeeps(c: Context, frame: Frame, env: Env)
    requires Joint(c)
    ensures var (d, status) := OnDeviceFrame(c, frame, env); status == Ok ==> Joint(d)
  {
    if U.Active(c.upgrade) && S.Accept(c.session, frame).1 == Ok {
      ResponseDuringUpgrade(c, frame, env);
    } else {
      ResponseOtherwise(c, frame, env);
    }
    hide Joint, OnResponse;
  }

  lemma TimerKeeps(c: Context, env: Env)
    requires Joint(c)
    ensures var (d, status) := OnTimer(c, env); status == Ok ==> Joint(d)
  {
    var (s, status, again) := S.Tick(c.session, env.now, QueueVerdict(c, env));
    var d := c.(session := s, output := if again.Some? then Buffered(c, again.value) else c.output);
    SameImages(c, d);
    assert s.device == c.session.device && s.pending.frame.kind == c.session.pending.frame.kind;
    assert status == Ok ==> s.pending.active == c.session.pending.active;
    hide WorkerOk, ImagesOwned, S.Tick, RecoverUpgrade;
    if status == Timeout && U.Active(d.upgrade) {
      RecoveryKeeps(d, env);
    } else if status == Timeout {
      SameImages(c, d.(activeClient := None));
    }
  }

  lemma RecoveryKeeps(d: Context, env: Env)
    requires WorkerOk(d.sys) && ImagesOwned(d) && HandshakeAgrees(d) && U.Active(d.upgrade) && d.activeClient.None?
    requires (d.session.device == S.Upgrading <==> InTransfer(d.upgrade.phase))
             && (d.upgrade.phase == U.Validating ==> d.session.device == S.Ready)
    requires (InTransfer(d.upgrade.phase) <==> d.firmware.Some?) && (InTransfer(d.upgrade.phase) ==> U.Good(d.upgrade))
    ensures Joint(RecoverUpgrade(d, env))
  {
    var (u, recovering) := U.BeginRecovery(d.upgrade);
    var e := d.(upgrade := u);
    SameImages(d, e);
    hide WorkerOk, ImagesOwned, QueueUpgrade, EndUpgrade;
    if recovering == Ok {
      QueueUpgradeEffect(e, env);
      var (f, queued) := QueueUpgrade(e, env);
      SameImages(d, f);
      if queued != Ok {
        SameImages(f, f.(upgrade := f.upgrade.(phase := U.Errored)));
        EndKeeps(f.(upgrade := f.upgrade.(phase := U.Errored)), Timeout);
      }
    } else {
      SameImages(d, e.(upgrade := e.upgrade.(phase := U.Errored)));
      EndKeeps(e.(upgrade := e.upgrade.(phase := U.Errored)), Timeout);
    }
  }

  /** When the last retry of a request is gone, the daemon fails the update exactly if no recovery is
      left, or the output buffer cannot take the request for it. */
  lemma TimeoutFailsExactly(c: Context, env: Env)
    requires Joint(c) && InTransfer(c.upgrade.phase) && S.Tick(c.session, env.now, QueueVerdict(c, env)).1 == Timeout
    ensures OnTimer(c, env).0.upgrade.phase == U.Errored <==>
              (c.upgrade.phase != U.Transferring && c.upgrade.phase != U.Recovering)
              || c.upgrade.recoveries == U.MAX_RECOVERIES || QueueVerdict(c, env) != Ok
  {
    var s := S.Tick(c.session, env.now, QueueVerdict(c, env)).0;
    assert !s.pending.active && S.Tick(c.session, env.now, QueueVerdict(c, env)).2.None?;
    var d := c.(session := s);
    var (u, recovering) := U.BeginRecovery(d.upgrade);
    hide S.Tick, QueueUpgrade, WorkerOk, ImagesOwned;
    if recovering == Ok {
      QueueUpgradeEffect(d.(upgrade := u), env);
    }
  }

  /** So a frame still in the output buffer makes the very first unanswered request the last. */
  lemma BusyTimeoutFails(c: Context, env: Env)
    requires Joint(c) && InTransfer(c.upgrade.phase) && S.Tick(c.session, env.now, Busy).1 == Timeout
    requires c.upgrade.recoveries == 0 && c.output.Some?
    ensures OnTimer(c, env).0.upgrade.phase == U.Errored
  {
    hide OnTimer, Joint, S.Tick;
    TimeoutFailsExactly(c, env);
  }

  lemma AbandonKeeps(c: Context, status: Status)
    requires WorkerOk(c.sys) && ImagesOwned(c) && c.activeClient.None?
    requires c.session.device == S.Ready || c.session.device == S.Upgrading
    ensures Joint(AbandonUpgrade(c, status))
  {
    CloseOwned(c.(result := status, upgrade := c.upgrade.(phase := U.Errored)));
    hide WorkerOk, ImagesOwned;
  }

  /** The validated image is adopted: from here the update runs or is abandoned, its image released. */
  lemma AdoptKeeps(d: Context, image: Option<nat>, file: seq<byte>, env: Env)
    requires WorkerOk(d.sys) && HandshakeAgrees(d) && d.activeClient.None? && d.session.device == S.Ready
    requires d.upgrade.phase == U.Validating && 0 < |d.version| <= U.VERSION_MAX && 0 < |file| <= MAX_IMAGE
    requires image.Some? && ImagesOwned(d.(firmware := image))
    ensures Joint(Adopt(d, image, file, env))
  {
    var u := U.Start(d.upgrade, file, Checksum(file), d.version, DEFAULT_CHUNK).0;
    var s := S.Transition(d.session, S.StartUpgrade).0;
    var e := d.(firmware := image, upgrade := u, session := s);
    hide WorkerOk, ImagesOwned, QueueUpgrade, AbandonUpgrade, Checksum;
    QueueUpgradeEffect(e, env);
    var (f, queued) := QueueUpgrade(e, env);
    SameImages(d.(firmware := image), f);
    if queued != Ok {
      AbandonKeeps(f, queued);
    }
  }

  lemma TakenImage(c: Context, d: Context, v: W.Validation)
    requires ImagesOwned(c) && d == c.(sys := d.sys)
    requires forall i: nat :: d.sys.taken[i] == c.sys.taken[i] + Bit(v.image == Some(i))
    ensures ImagesOwned(d.(released := d.released + W.Held(v.image)))
    ensures v.image.None? ==> ImagesOwned(d)
    ensures c.firmware.None? ==> ImagesOwned(d.(firmware := v.image))
  {
  }

  lemma DeliverKeeps(c: Context, d: Context, v: W.Validation, file: seq<byte>, env: Env)
    requires Joint(c) && 0 < |file| <= MAX_IMAGE && c.sys.box.events > 0
    requires d == c.(sys := d.sys) && WorkerOk(d.sys) && v.jobId == c.sys.box.jobId
             && (v.status == Ok <==> v.image.Some?)
    requires forall i: nat :: d.sys.taken[i] == c.sys.taken[i] + Bit(v.image == Some(i))
    ensures Joint(Deliver(d, v, file, env))
  {
    TakenImage(c, d, v);
    hide WorkerOk, ImagesOwned, Adopt, U.Good;
    if v.jobId != d.operationId || d.upgrade.phase != U.Validating {
      StaleResultKeeps(c, d, v);
    } else if v.status != Ok {
      SameImages(d, d.(result := v.status, upgrade := d.upgrade.(phase := U.Errored)));
    } else {
      AdoptKeeps(d, v.image, file, env);
    }
  }

  lemma WorkerReadyKeeps(c: Context, file: seq<byte>, env: Env)
    requires Joint(c) && 0 < |file| <= MAX_IMAGE
    ensures var (d, status) := OnWorkerReady(c, file, env);
            (status == Ok ==> Joint(d)) && (status != Ok ==> d == c)
  {
    hide StatesAgree, ValidationAgrees, HandshakeAgrees, Deliver, CollectResult, ImagesOwned;
    if c.sys.box.events > 0 {
      CollectKeeps(c.sys);
      DeliverKeeps(c, c.(sys := CollectResult(c.sys)), c.sys.box.result, file, env);
    }
  }

  /** A result nobody waits for is released, and no other validation is under way. */
  lemma StaleResultKeeps(c: Context, d: Context, v: W.Validation)
    requires Joint(c) && d == c.(sys := d.sys) && WorkerOk(d.sys) && c.sys.box.events > 0 && v.jobId == c.sys.box.jobId
    requires ImagesOwned(d.(released := d.released + W.Held(v.image)))
    requires v.jobId != d.operationId || d.upgrade.phase != U.Validating
    ensures Joint(d.(released := d.released + W.Held(v.image)))
  {
    hide WorkerOk, ImagesOwned;
  }

  lemma CommandKeeps(c: Context, client: nat, command: byte, payload: seq<byte>, env: Env)
    requires Joint(c)
    ensures var (d, status) := StartRequest(c, client, command, payload, env); status == Ok ==> Joint(d)
  {
    hide Joint, PassOn, StartUpgradeCommand, Progress, GetLe32;
    if command == UPGRADE {
      UpgradeCommandKeeps(c, client, payload, env);
    } else if command != GET_TELEMETRY && command != UPGRADE_STATUS && Refusal(c, command) == Ok {
      PassOnKeeps(c, client, command, payload, env);
    } else {
      var d := StartRequest(c, client, command, payload, env).0;
      assert d == c.(responses := d.responses);
      ToldKeeps(c, d);
    }
  }

  lemma ToldKeeps(c: Context, d: Context)
    requires Joint(c) && d == c.(responses := d.responses)
    ensures Joint(d)
  {
    SameImages(c, d);
    hide WorkerOk, ImagesOwned, U.Good;
  }

  lemma PassOnKeeps(c: Context, client: nat, command: byte, payload: seq<byte>, env: Env)
    requires Joint(c) && Refusal(c, command) == Ok
    ensures Joint(PassOn(c, client, command, payload, env).0)
  {
    hide WorkerOk, ImagesOwned, U.Good;
    var d := PassOn(c, client, command, payload, env).0;
    assert d == c.(session := d.session, output := d.output, activeClient := d.activeClient, responses := d.responses)
           && d.session.device == c.session.device;
    SameImages(c, d);
  }

  lemma UpgradeCommandKeeps(c: Context, client: nat, payload: seq<byte>, env: Env)
    requires Joint(c)
    ensures Joint(StartUpgradeCommand(c, client, payload, env).0)
  {
    hide Joint, SubmitUpgrade, UpgradeNames;
    var names := UpgradeNames(payload);
    var d := StartUpgradeCommand(c, client, payload, env).0;
    if names.Some? && c.session.device == S.Ready && c.activeClient.None? && !U.Active(c.upgrade) {
      NamesAreSized(payload);
      SubmitUpgradeKeeps(c, client, names.value.0, names.value.1);
    } else {
      ToldKeeps(c, d);
    }
  }

  lemma SubmitUpgradeKeeps(c: Context, client: nat, path: CString, version: CString)
    requires Joint(c) && c.session.device == S.Ready && c.activeClient.None? && !U.Active(c.upgrade)
    requires 0 < |version| <= U.VERSION_MAX
    ensures Joint(SubmitUpgrade(c, client, path, version))
  {
    SubmitKeeps(c.sys, NextNonzero(c.operationId), path);
    hide WorkerOk, W.Submit, U.Good, PutLe32;
    var d := SubmitUpgrade(c, client, path, version);
    assert d.sys.taken == c.sys.taken && d.released == c.released && d.firmware == c.firmware;
  }

  lemma NamesAreSized(payload: seq<byte>)
    ensures UpgradeNames(payload).Some? ==> 0 < |UpgradeNames(payload).value.1| <= U.VERSION_MAX
  {
  }

  lemma ReactKeeps(c: Context, e: Event)
    requires Joint(c) && Possible(e)
    ensures React(c, e).1 == Ok ==> Joint(React(c, e).0)
  {
    hide OnWorkerReady, OnDeviceFrame, OnTimer, StartRequest;
    match e {
      case WorkerMoves(step) => WorkerMovesKeeps(c, step);
      case WorkerReady(file, env) => WorkerReadyKeeps(c, file, env);
      case DeviceFrame(frame, env) => DeviceFrameKeeps(c, frame, env);
      case ClientCommand(client, command, payload, env) => CommandKeeps(c, client, command, payload, env);
      case ClientGone(client) => SameImages(c, CloseClient(c, client));
      case TimerFires(env) => TimerKeeps(c, env);
      case OutputFlushed => SameImages(c, c.(output := None));
    }
  }

  lemma {:induction false} LoopKeeps(c: Context, events: seq<Event>)
    requires Joint(c) && forall i :: 0 <= i < |events| ==> Possible(events[i])
    ensures Loop(c, events).Some? ==> Joint(Loop(c, events).value)
    decreases |events|
  {
    hide Joint, React, Possible;
    if events != [] {
      ReactKeeps(c, events[0]);
      if React(c, events[0]).1 == Ok {
        LoopKeeps(React(c, events[0]).0, events[1..]);
      }
    }
  }

  lemma BootEstablishes(env: Env)
    ensures Joint(Boot(env).0)
  {
  }

  /** In every state the running loop passes through: the device session is upgrading exactly while
      an update is being transferred, exactly while its image is mapped, and then the one request
      in flight is the one its phase calls for; an active update excludes a client in service; a
      client in service has a request in flight; and a validation under way has its job with the
      worker. */
  lemma ReactorStatesAgree(env: Env, events: seq<Event>)
    requires forall i :: 0 <= i < |events| ==> Possible(events[i])
    ensures match Loop(Boot(env).0, events)
              case None => true
              case Some(c) =>
                && (c.session.device == S.Upgrading <==> InTransfer(c.upgrade.phase))
                && (InTransfer(c.upgrade.phase) <==> c.firmware.Some?)
                && (InTransfer(c.upgrade.phase) ==>
                      c.session.pending.active && c.session.pending.frame.kind == KindOf(c.upgrade.phase))
                && (U.Active(c.upgrade) ==> c.activeClient.None?)
                && (c.activeClient.Some? ==> c.session.pending.active)
                && (c.upgrade.phase == U.Validating ==>
                      c.sys.box.jobId == c.operationId
                      && (c.sys.box.jobPending || c.sys.box.jobRunning || c.sys.box.resultPending))
  {
    BootEstablishes(env);
    LoopKeeps(Boot(env).0, events);
    hide Loop, Boot;
  }

  // ----- During a transfer the reactor is the update driver -----

  /** d's session, update and output buffer are those of c after the driver's move. */
  ghost predicate Drives(c: Context, d: Context, h: Host, sent: Option<Frame>) {
    && Host(d.session, d.upgrade) == h && d.version == c.version
    && d.output == (if sent.Some? then sent else c.output) && (sent.Some? ==> c.output.None?)
  }

  lemma FrameIsDriven(c: Context, frame: Frame, env: Env)
    requires Joint(c) && InTransfer(c.upgrade.phase)
    ensures var (h, stop, sent) := OnUpgradeFrame(Host(c.session, c.upgrade), frame, env.now, QueueVerdict(c, env));
            var (d, status) := OnDeviceFrame(c, frame, env);
            Drives(c, d, h, sent) && status == stop
  {
    hide WorkerOk, ImagesOwned, U.Accept, U.Build, S.Begin, U.Good;
  }

  lemma TimerIsDriven(c: Context, env: Env)
    requires Joint(c) && InTransfer(c.upgrade.phase)
    ensures var queued := QueueVerdict(c, env);
            var (s, ticked, again) := S.Tick(c.session, env.now, queued);
            var (d, status) := OnTimer(c, env);
            if ticked == Timeout then
              var (h, sent) := OnUpgradeTimeout(Host(s, c.upgrade), env.now, queued);
              Drives(c, d, h, sent) && status == Ok
            else
              && Drives(c, d, Host(s, c.upgrade), if again.Some? then Reaching(again.value, queued) else None)
              && status == ticked
  {
    hide WorkerOk, ImagesOwned, U.Build, S.Begin, U.Good, U.BeginRecovery;
  }

  /** Nothing but frames and the timer moves an update that is being transferred. */
  lemma OthersStandStill(c: Context, e: Event)
    requires Joint(c) && InTransfer(c.upgrade.phase)
    requires e.WorkerMoves? || e.WorkerReady? || e.ClientCommand? || e.ClientGone?
    ensures var d := React(c, e).0;
            d.session == c.session && d.upgrade == c.upgrade && d.output == c.output && d.version == c.version
  {
    hide WorkerOk, ImagesOwned, W.Next, Adopt, SubmitUpgrade, PassOn, Progress, U.Good, UpgradeNames;
  }

  // ----- No image is leaked or closed twice -----

  ghost predicate Owned(c: Context) {
    WorkerOk(c.sys) && ImagesOwned(c)
  }

  /** The context as the loop leaves it, whether it still runs or a handler has failed. */
  function Last(c: Context, events: seq<Event>): Context
    decreases |events|
  {
    if events == [] then c
    else
      var (d, status) := React(c, events[0]);
      if status != Ok then d else Last(d, events[1..])
  }

  lemma EndOwned(c: Context, status: Status)
    requires Owned(c)
    ensures Owned(EndUpgrade(c, status))
  {
    CloseOwned(c.(result := status, session := S.Transition(c.session, S.UpgradeDone).0));
    hide WorkerOk, ImagesOwned;
  }

  lemma QueueOwned(c: Context, env: Env)
    requires Owned(c)
    ensures Owned(QueueUpgrade(c, env).0)
  {
    SameImages(c, QueueUpgrade(c, env).0);
    hide WorkerOk, ImagesOwned, QueueRequest;
  }

  lemma ResponseOwned(c: Context, frame: Frame, env: Env)
    requires Owned(c)
    ensures Owned(OnDeviceFrame(c, frame, env).0)
  {
    hide WorkerOk, ImagesOwned, U.Accept, S.Accept, QueueUpgrade, EndUpgrade;
    var (s, accepted) := S.Accept(c.session, frame);
    var (u, status) := U.Accept(c.upgrade, c.session.pending.frame.kind, frame);
    var e := c.(session := s, upgrade := u);
    SameImages(c, e);
    EndOwned(e, Ok);
    EndOwned(e, status);
    QueueOwned(e, env);
    var d := OnDeviceFrame(c, frame, env).0;
    if IsTelemetry(frame) || !(accepted == Ok && s.device != S.Handshaking && U.Active(c.upgrade)) {
      SameImages(c, d);
    }
  }

  lemma RecoverOwned(c: Context, env: Env)
    requires Owned(c)
    ensures Owned(RecoverUpgrade(c, env))
  {
    var (u, recovering) := U.BeginRecovery(c.upgrade);
    var d := c.(upgrade := u);
    SameImages(c, d);
    QueueOwned(d, env);
    var (e, queued) := if recovering == Ok then QueueUpgrade(d, env) else (d, recovering);
    hide WorkerOk, ImagesOwned, QueueUpgrade, EndUpgrade;
    SameImages(e, e.(upgrade := e.upgrade.(phase := U.Errored)));
    EndOwned(e.(upgrade := e.upgrade.(phase := U.Errored)), Timeout);
  }

  lemma TimerOwned(c: Context, env: Env)
    requires Owned(c)
    ensures Owned(OnTimer(c, env).0)
  {
    hide WorkerOk, ImagesOwned, S.Tick, RecoverUpgrade;
    var (s, status, again) := S.Tick(c.session, env.now, QueueVerdict(c, env));
    var d := c.(session := s, output := if again.Some? then Buffered(c, again.value) else c.output);
    if status == Timeout && U.Active(d.upgrade) {
      SameImages(c, d);
      RecoverOwned(d, env);
    } else {
      SameImages(c, OnTimer(c, env).0);
    }
  }

  lemma CommandOwned(c: Context, client: nat, command: byte, payload: seq<byte>, env: Env)
    requires Owned(c)
    ensures Owned(StartRequest(c, client, command, payload, env).0)
  {
    hide WorkerOk, ImagesOwned, SubmitUpgrade, UpgradeNames;
    var names := UpgradeNames(payload);
    if names.Some? {
      SubmitOwned(c, client, names.value.0, names.value.1);
    }
    var d := StartRequest(c, client, command, payload, env).0;
    if command != UPGRADE {
      SameImages(c, d);
    } else if d.sys == c.sys && d.released == c.released && d.firmware == c.firmware {
      SameImages(c, d);
    }
  }

  lemma SubmitOwned(c: Context, client: nat, path: CString, version: CString)
    requires Owned(c)
    ensures Owned(SubmitUpgrade(c, client, path, version))
  {
    SubmitKeeps(c.sys, NextNonzero(c.operationId), path);
    hide WorkerOk, W.Submit, PutLe32;
    var d := SubmitUpgrade(c, client, path, version);
    assert d.sys.taken == c.sys.taken && d.released == c.released && d.firmware == c.firmware;
  }

  /** A handler that fails still knows where every image is. */
  lemma ReactOwned(c: Context, e: Event)
    requires Joint(c) && Possible(e)
    ensures Owned(React(c, e).0)
  {
    hide OnWorkerReady, OnDeviceFrame, OnTimer, StartRequest;
    match e {
      case WorkerMoves(step) => WorkerMovesKeeps(c, step);
      case WorkerReady(file, env) =>
        WorkerReadyKeeps(c, file, env);
      case DeviceFrame(frame, env) => ResponseOwned(c, frame, env);
      case ClientCommand(client, command, payload, env) => CommandOwned(c, client, command, payload, env);
      case ClientGone(client) => SameImages(c, CloseClient(c, client));
      case TimerFires(env) => TimerOwned(c, env);
      case OutputFlushed => SameImages(c, c.(output := None));
    }
  }

  lemma {:induction false} LastOwned(c: Context, events: seq<Event>)
    requires Joint(c) && forall i :: 0 <= i < |events| ==> Possible(events[i])
    ensures Owned(Last(c, events))
    decreases |events|
  {
    if events != [] {
      ReactOwned(c, events[0]);
      ReactKeeps(c, events[0]);
      hide Joint, React, Possible, Owned;
      if React(c, events[0]).1 == Ok {
        LastOwned(React(c, events[0]).0, events[1..]);
      }
    }
  }

  /** cleanup_context: the worker is told to stop, makes its last moves, is joined, and the mapped
      image is closed. */
  function Shutdown(c: Context, moves: seq<W.Step>): Context {
    var stopping := W.Run(W.Next(c.sys, W.ReactorStops), moves);
    CloseFirmware(c.(sys := W.Next(stopping, W.ReactorJoins)))
  }

  ghost predicate WorkerOnly(moves: seq<W.Step>) {
    forall i :: 0 <= i < |moves| ==> Possible(WorkerMoves(moves[i]))
  }

  lemma {:induction false} WorkerTakesNothing(s: W.System, moves: seq<W.Step>)
    requires WorkerOnly(moves)
    ensures W.Run(s, moves).taken == s.taken
    decreases |moves|
  {
    if moves != [] {
      assert Possible(WorkerMoves(moves[0]));
      assert W.Next(s, moves[0]).taken == s.taken;
      hide W.Next;
      WorkerTakesNothing(W.Next(s, moves[0]), moves[1..]);
    }
  }

  lemma StopKeeps(s: W.System, moves: seq<W.Step>)
    requires W.Inv(s) && WorkerOnly(moves)
    ensures var t := W.Next(W.Run(W.Next(s, W.ReactorStops), moves), W.ReactorJoins);
            W.Inv(t) && t.taken == s.taken
  {
    var stopped := W.Next(s, W.ReactorStops);
    var stopping := W.Run(stopped, moves);
    W.NextKeepsSlot(s, W.ReactorStops);
    W.NextKeepsImages(s, W.ReactorStops);
    W.RunKeeps(stopped, moves);
    WorkerTakesNothing(stopped, moves);
    W.NextKeepsSlot(stopping, W.ReactorJoins);
    W.NextKeepsImages(stopping, W.ReactorJoins);
    hide W.Run, W.SlotOk, W.WakeupsOk, W.ImagesOk, WorkerOnly;
  }

  lemma GoneAccounts(s: W.System, image: nat)
    requires W.Inv(s) && s.reactor == W.Gone
    ensures s.taken[image] + s.closed[image] == Bit(image < s.openings)
  {
    assert W.Places(s, image) == Bit(image < s.openings);
  }

  lemma ShutdownClosesAll(c: Context, moves: seq<W.Step>, image: nat)
    requires Owned(c) && WorkerOnly(moves)
    ensures var d := Shutdown(c, moves);
            d.sys.reactor == W.Gone ==> d.released[image] + d.sys.closed[image] == Bit(image < d.sys.openings)
  {
    StopKeeps(c.sys, moves);
    var d := Shutdown(c, moves);
    if d.sys.reactor == W.Gone {
      GoneAccounts(d.sys, image);
    }
    hide W.Run, W.Next, W.Inv;
    assert c.sys.taken[image] == c.released[image] + Bit(c.firmware == Some(image));
  }

  /** Whatever the worker has done since it was told to stop, its last moves let the cleanup finish. */
  lemma ShutdownFinishes(c: Context, moves: seq<W.Step>)
    requires Owned(c) && WorkerOnly(moves)
    ensures Shutdown(c, moves + W.LAST_MOVES).sys.reactor == W.Gone
  {
    var stopped := W.Next(c.sys, W.ReactorStops);
    W.NextKeepsSlot(c.sys, W.ReactorStops);
    W.NextKeepsImages(c.sys, W.ReactorStops);
    assert stopped.reactor == W.Joining;
    hide W.Next, W.SlotOk, W.WakeupsOk, W.ImagesOk, ImagesOwned;
    W.RunKeeps(stopped, moves);
    StaysJoining(stopped, moves);
    W.RunAppend(stopped, moves, W.LAST_MOVES);
    W.JoinFinishes(W.Run(stopped, moves));
  }

  lemma {:induction false} StaysJoining(s: W.System, moves: seq<W.Step>)
    requires WorkerOnly(moves)
    ensures W.Run(s, moves).reactor == s.reactor
    decreases |moves|
  {
    if moves != [] {
      assert Possible(WorkerMoves(moves[0]));
      assert W.Next(s, moves[0]).reactor == s.reactor;
      hide W.Next;
      StaysJoining(W.Next(s, moves[0]), moves[1..]);
    }
  }

  /** However the loop ends, and whatever the worker was doing: the daemon can finish cleaning up, and
      when it has, every image ever opened has been closed exactly once. */
  lemma EveryImageClosedOnce(env: Env, events: seq<Event>, moves: seq<W.Step>, image: nat)
    requires forall i :: 0 <= i < |events| ==> Possible(events[i])
    requires WorkerOnly(moves)
    ensures var c := Shutdown(Last(Boot(env).0, events), moves);
            c.sys.reactor == W.Gone ==> c.released[image] + c.sys.closed[image] == Bit(image < c.sys.openings)
    ensures Shutdown(Last(Boot(env).0, events), moves + W.LAST_MOVES).sys.reactor == W.Gone
  {
    BootEstablishes(env);
    LastOwned(Boot(env).0, events);
    hide Last, Boot, Joint, Owned, Shutdown, WorkerOnly, Possible;
    ShutdownClosesAll(Last(Boot(env).0, events), moves, image);
    ShutdownFinishes(Last(Boot(env).0, events), moves);
  }
}
