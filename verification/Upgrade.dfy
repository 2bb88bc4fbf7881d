/** The host side of a firmware update (src/upgrade/upgrade.c). */
module Upgrade {
  import opened Wire

  datatype Phase =
    | Idle | Validating | Entering | Beginning | Transferring | Recovering | Ending | Verifying
    | Activating | Restarting | Complete | Errored

  const VERSION_MAX: nat := 31
  const MAX_RECOVERIES: nat := 3

  datatype State = State(phase: Phase, image: seq<byte>, imageCrc: u32, version: CString, sessionId: u32,
                         offset: u32, lastChunkEnd: u32, chunkSize: u16, chunksSent: u32, recoveries: byte)

  const INITIAL: State := State(Idle, [], 0, [], 0, 0, 0, 0, 0, 0)

  /** Conversion to uint32_t. */
  function Truncate32(n: nat): u32 {
    n % 0x1_0000_0000
  }

  // ----- The operations on values -----

  function Start(u: State, image: seq<byte>, crc: u32, version: CString, chunkSize: u16): (State, Status) {
    if |image| == 0 || |image| > U32_MAX || chunkSize == 0 || chunkSize > MAX_PAYLOAD - 8 then (u, Invalid)
    else if |version| == 0 || |version| > VERSION_MAX then (u, Invalid)
    else (INITIAL.(phase := Entering, image := image, imageCrc := crc, version := version, chunkSize := chunkSize), Ok)
  }

  /** Where the chunk that starts at an offset ends. */
  function ChunkEnd(u: State, offset: nat): nat {
    if |u.image| < offset + u.chunkSize then |u.image| else offset + u.chunkSize
  }

  function Ask(kind: byte, payload: seq<byte>): Frame {
    Frame(kind, FLAG_ACK_REQUIRED, 0, payload)
  }

  function BeginPayload(u: State): seq<byte> {
    PutLe32(Truncate32(|u.image|)) + PutLe32(u.imageCrc) + PutLe16(u.chunkSize) + u.version + [0]
  }

  function DataPayload(sessionId: u32, offset: u32, data: seq<byte>): seq<byte> {
    PutLe32(sessionId) + PutLe32(offset) + data
  }

  /** The next request, without its sequence number. */
  function Build(u: State): (State, Result<Frame>) {
    match u.phase
    case Entering => (u, Success(Ask(ENTER_BOOTLOADER, [])))
    case Beginning => (u, Success(Ask(FW_BEGIN, BeginPayload(u))))
    case Transferring =>
      if u.offset >= |u.image| then (u, Failure(BadState))
      else
        var end := ChunkEnd(u, u.offset);
        (u.(lastChunkEnd := Truncate32(end), chunksSent := Truncate32(u.chunksSent + 1)),
         Success(Ask(FW_DATA, DataPayload(u.sessionId, u.offset, u.image[u.offset..end]))))
    case Recovering =>
      if u.sessionId == 0 then (u, Failure(BadState)) else (u, Success(Ask(FW_STATUS, PutLe32(u.sessionId))))
    case Ending => (u, Success(Ask(FW_END, PutLe32(u.sessionId))))
    case Verifying => (u, Success(Ask(FW_VERIFY, PutLe32(u.sessionId))))
    case Activating => (u, Success(Ask(FW_ACTIVATE, PutLe32(u.sessionId))))
    case Restarting => (u, Success(Ask(REBOOT, [0])))
    case _ => (u, Failure(BadState))
  }

  function Reject(u: State): (State, Status) {
    (u.(phase := Errored), Protocol)
  }

  /** Continue from an offset the device reported. */
  function Resume(u: State): (State, Status)
    requires u.offset <= |u.image|
  {
    (u.(phase := if u.offset == |u.image| then Ending else Transferring), Ok)
  }

  /** Takes a response to a request of the given kind. Offsets and the session are stored
      before they are checked. */
  function Accept(u: State, requestKind: byte, response: Frame): (State, Status) {
    var p := response.payload;
    if response.kind == NACK || response.kind == ERROR then Reject(u)
    else match u.phase
      case Entering =>
        if requestKind != ENTER_BOOTLOADER then Reject(u) else (u.(phase := Beginning), Ok)
      case Beginning =>
        if requestKind != FW_BEGIN || |p| != 8 then Reject(u)
        else
          var v := u.(sessionId := GetLe32(p), offset := GetLe32(p[4..]));
          if v.sessionId == 0 || v.offset > |v.image| then Reject(v) else Resume(v)
      case Transferring =>
        if requestKind != FW_DATA || |p| != 4 then Reject(u)
        else
          var v := u.(offset := GetLe32(p));
          if v.offset != v.lastChunkEnd || v.offset > |v.image| then Reject(v) else Resume(v)
      case Recovering =>
        if requestKind != FW_STATUS || |p| != 8 || GetLe32(p) != u.sessionId then Reject(u)
        else
          var v := u.(offset := GetLe32(p[4..]));
          if v.offset > |v.image| then Reject(v) else Resume(v)
      case Ending =>
        if requestKind != FW_END then Reject(u) else (u.(phase := Verifying), Ok)
      case Verifying =>
        if requestKind != FW_VERIFY || |p| != 4 || GetLe32(p) != u.imageCrc then Reject(u)
        else (u.(phase := Activating), Ok)
      case Activating =>
        if requestKind != FW_ACTIVATE then Reject(u) else (u.(phase := Restarting), Ok)
      case Restarting =>
        if requestKind != REBOOT then Reject(u) else (u.(phase := Complete), Ok)
      case _ => Reject(u)
  }

  predicate Active(u: State) {
    u.phase != Idle && u.phase != Complete && u.phase != Errored
  }

  function BeginRecovery(u: State): (State, Status) {
    if u.sessionId == 0 || (u.phase != Transferring && u.phase != Recovering) then (u, BadState)
    else if u.recoveries >= MAX_RECOVERIES then (u.(phase := Errored), Timeout)
    else (u.(recoveries := u.recoveries + 1, phase := Recovering), Ok)
  }

  // ----- The object -----

  class Updater {
    var phase: Phase
    var image: seq<byte>
    var imageCrc: u32
    var version: CString
    var sessionId: u32
    var offset: u32
    var lastChunkEnd: u32
    var chunkSize: u16
    var chunksSent: u32
    var recoveries: byte

    ghost function View(): State
      reads this
    {
      State(phase, image, imageCrc, version, sessionId, offset, lastChunkEnd, chunkSize, chunksSent, recoveries)
    }

    constructor ()
      ensures View() == INITIAL
    {
      phase, image, imageCrc, version := Idle, [], 0, [];
      sessionId, offset, lastChunkEnd, chunkSize, chunksSent, recoveries := 0, 0, 0, 0, 0, 0;
    }

    method StartUpdate(data: seq<byte>, crc: u32, name: CString, chunk: u16) returns (status: Status)
      modifies this
      ensures (View(), status) == Start(old(View()), data, crc, name, chunk)
    {
      if |data| == 0 || |data| > U32_MAX || chunk == 0 || chunk > MAX_PAYLOAD - 8 {
        return Invalid;
      }
      if |name| == 0 || |name| > VERSION_MAX {
        return Invalid;
      }
      sessionId, offset, lastChunkEnd, chunksSent, recoveries := 0, 0, 0, 0, 0;
      image, imageCrc, version, chunkSize := data, crc, name, chunk;
      phase := Entering;
      return Ok;
    }

    method BuildRequest() returns (r: Result<Frame>)
      modifies this
      ensures (View(), r) == Build(old(View()))
    {
      var kind: byte, payload: seq<byte> := 0, [];
      match phase {
        case Entering =>
          kind := ENTER_BOOTLOADER;
        case Beginning =>
          kind := FW_BEGIN;
          payload := PutLe32(Truncate32(|image|)) + PutLe32(imageCrc) + PutLe16(chunkSize) + version + [0];
        case Transferring =>
          if offset >= |image| {
            return Failure(BadState);
          }
          kind := FW_DATA;
          var remaining := |image| - offset;
          var chunk := if remaining < chunkSize then remaining else chunkSize;
          payload := PutLe32(sessionId) + PutLe32(offset) + image[offset..offset + chunk];
          lastChunkEnd := Truncate32(offset + chunk);
          chunksSent := Truncate32(chunksSent + 1);
        case Recovering =>
          if sessionId == 0 {
            return Failure(BadState);
          }
          kind := FW_STATUS;
          payload := PutLe32(sessionId);
        case Ending =>
          kind := FW_END;
          payload := PutLe32(sessionId);
        case Verifying =>
          kind := FW_VERIFY;
          payload := PutLe32(sessionId);
        case Activating =>
          kind := FW_ACTIVATE;
          payload := PutLe32(sessionId);
        case Restarting =>
          kind := REBOOT;
          payload := [0];
        case _ =>
          return Failure(BadState);
      }
      return Success(Frame(kind, FLAG_ACK_REQUIRED, 0, payload));
    }

    method AcceptResponse(requestKind: byte, response: Frame) returns (status: Status)
      modifies this
      ensures (View(), status) == Accept(old(View()), requestKind, response)
    {
      var p := response.payload;
      if response.kind == NACK || response.kind == ERROR {
        phase := Errored;
        return Protocol;
      }
      match phase {
        case Entering =>
          if requestKind == ENTER_BOOTLOADER { phase := Beginning; return Ok; }
        case Beginning =>
          if requestKind == FW_BEGIN && |p| == 8 {
            sessionId := GetLe32(p);
            offset := GetLe32(p[4..]);
            if sessionId != 0 && offset <= |image| {
              phase := if offset == |image| then Ending else Transferring;
              return Ok;
            }
          }
        case Transferring =>
          if requestKind == FW_DATA && |p| == 4 {
            offset := GetLe32(p);
            if offset == lastChunkEnd && offset <= |image| {
              phase := if offset == |image| then Ending else Transferring;
              return Ok;
            }
          }
        case Recovering =>
          if requestKind == FW_STATUS && |p| == 8 && GetLe32(p) == sessionId {
            offset := GetLe32(p[4..]);
            if offset <= |image| {
              phase := if offset == |image| then Ending else Transferring;
              return Ok;
            }
          }
        case Ending =>
          if requestKind == FW_END { phase := Verifying; return Ok; }
        case Verifying =>
          if requestKind == FW_VERIFY && |p| == 4 && GetLe32(p) == imageCrc { phase := Activating; return Ok; }
        case Activating =>
          if requestKind == FW_ACTIVATE { phase := Restarting; return Ok; }
        case Restarting =>
          if requestKind == REBOOT { phase := Complete; return Ok; }
        case _ =>
      }
      phase := Errored;
      return Protocol;
    }

    method StartRecovery() returns (status: Status)
      modifies this
      ensures (View(), status) == BeginRecovery(old(View()))
    {
      if sessionId == 0 || (phase != Transferring && phase != Recovering) {
        return BadState;
      }
      if recoveries >= MAX_RECOVERIES {
        phase := Errored;
        return Timeout;
      }
      recoveries := recoveries + 1;
      phase := Recovering;
      return Ok;
    }
  }

  // ----- Rounds against an arbitrary device -----

  /** What comes back for a request: any frame at all, or nothing before the last retry expires,
      with the verdict of the output buffer on the request for recovery. */
  datatype Outcome = Answer(response: Frame) | Silence(queued: QueueStatus)

  /** A started update between rounds. */
  ghost predicate Good(u: State) {
    && 0 < |u.image| <= U32_MAX && 0 < u.chunkSize <= MAX_PAYLOAD - 8
    && 0 < |u.version| <= VERSION_MAX && u.recoveries <= MAX_RECOVERIES
    && u.phase != Idle && u.phase != Validating
    && (u.phase == Entering || u.phase == Beginning ==> u.recoveries == 0)
    && (u.phase == Transferring || u.phase == Recovering ==> u.sessionId != 0 && u.offset < |u.image|)
  }

  lemma StartIsGood(u: State, image: seq<byte>, crc: u32, version: CString, chunkSize: u16)
    ensures var (v, status) := Start(u, image, crc, version, chunkSize);
            (status == Ok ==> Good(v) && v.phase == Entering && v.image == image) && (status != Ok ==> v == u)
  {
  }

  /** An active update can always build its next request, and the request fits a frame. */
  lemma BuildSucceeds(u: State)
    requires Good(u) && Active(u)
    ensures var (v, r) := Build(u);
            && r.Success? && |r.value.payload| <= MAX_PAYLOAD
            && Good(v) && v.phase == u.phase && v.offset == u.offset
  {
  }

  /** One request and what became of it. A timeout that cannot be recovered from, or whose
      recovery request cannot be queued, ends the update. */
  function Round(u: State, outcome: Outcome): State {
    var (v, r) := Build(u);
    if r.Failure? then v.(phase := Errored)
    else match outcome
      case Answer(response) => Accept(v, r.value.kind, response).0
      case Silence(queued) =>
        var (w, status) := BeginRecovery(v);
        if status == Ok && queued == Ok then w else w.(phase := Errored)
  }

  function Rounds(u: State, outcomes: seq<Outcome>): State
    decreases |outcomes|
  {
    if outcomes == [] || !Active(u) then u else Rounds(Round(u, outcomes[0]), outcomes[1..])
  }

  /** The chunks from an offset to the end of the image. */
  function ChunksLeft(size: nat, offset: nat, chunk: nat): nat
    requires chunk > 0
    decreases size - offset
  {
    if offset >= size then 0 else 1 + ChunksLeft(size, offset + chunk, chunk)
  }

  function Left(u: State, offset: nat): nat
    requires u.chunkSize > 0
  {
    ChunksLeft(|u.image|, offset, u.chunkSize)
  }

  /** The number of chunks is the remaining size divided by the chunk size, rounded up. */
  lemma {:induction false} ChunksLeftIsCeiling(size: nat, offset: nat, chunk: nat)
    requires chunk > 0 && offset < size
    ensures var n := ChunksLeft(size, offset, chunk);
            n > 0 && offset + (n - 1) * chunk < size <= offset + n * chunk
    decreases size - offset
  {
    var n := ChunksLeft(size, offset, chunk);
    if offset + chunk < size {
      ChunksLeftIsCeiling(size, offset + chunk, chunk);
      assert (n - 1) * chunk == (n - 2) * chunk + chunk && n * chunk == (n - 1) * chunk + chunk;
    } else {
      assert ChunksLeft(size, offset + chunk, chunk) == 0;
      assert n == 1;
    }
  }

  lemma {:induction false} ChunksLeftMonotone(size: nat, a: nat, b: nat, chunk: nat)
    requires chunk > 0 && a <= b
    ensures ChunksLeft(size, b, chunk) <= ChunksLeft(size, a, chunk)
    decreases size - a
  {
    if a < size {
      ChunksLeftMonotone(size, a + chunk, b + chunk, chunk);
    }
  }

  /** Rounds that the recoveries still allowed can add. */
  function Reserve(recoveries: nat, all: nat): nat
    requires recoveries <= MAX_RECOVERIES
  {
    (MAX_RECOVERIES - recoveries) * (all + 1)
  }

  /** How many rounds an update can still take. */
  function RoundsLeft(u: State): nat
    requires Good(u)
  {
    var all := Left(u, 0);
    var recoveries := Reserve(u.recoveries, all);
    match u.phase
    case Entering => 4 + all + 1 + recoveries + 1
    case Beginning => 4 + all + 1 + recoveries
    case Transferring => 4 + Left(u, u.offset) + recoveries
    case Recovering => 4 + all + 1 + recoveries
    case Ending => 4
    case Verifying => 3
    case Activating => 2
    case Restarting => 1
    case Complete => 0
    case Errored => 0
  }

  lemma ChunkEndLeft(u: State, offset: nat)
    requires u.chunkSize > 0 && offset < |u.image|
    ensures Left(u, ChunkEnd(u, offset)) == Left(u, offset) - 1
  {
    if offset + u.chunkSize > |u.image| {
      assert ChunksLeft(|u.image|, offset + u.chunkSize, u.chunkSize) == 0;
    }
  }

  /** w is u one phase on, or failed. */
  ghost predicate Moves(u: State, w: State) {
    && w.image == u.image && w.chunkSize == u.chunkSize && w.recoveries == u.recoveries
    && (w.phase == Errored || match u.phase
          case Entering => w.phase == Beginning
          case Beginning => w.phase == Transferring || w.phase == Ending
          case Transferring => w.offset == ChunkEnd(u, u.offset) && (w.phase == Transferring || w.phase == Ending)
          case Recovering => w.phase == Transferring || w.phase == Ending
          case Ending => w.phase == Verifying
          case Verifying => w.phase == Activating
          case Activating => w.phase == Restarting
          case Restarting => w.phase == Complete
          case _ => false)
  }

  lemma AnswerMoves(u: State, response: Frame)
    requires Good(u) && Active(u)
    ensures Good(Round(u, Answer(response))) && Moves(u, Round(u, Answer(response)))
  {
    hide GetLe32, PutLe32, PutLe16;
  }

  lemma MoveProgress(u: State, w: State)
    requires Good(u) && Active(u) && Good(w) && Moves(u, w)
    ensures RoundsLeft(w) < RoundsLeft(u)
  {
    hide ChunksLeft, Reserve;
    if u.phase == Transferring {
      ChunkEndLeft(u, u.offset);
    }
    ChunksLeftMonotone(|u.image|, 0, w.offset, u.chunkSize);
  }

  lemma AnswerProgress(u: State, response: Frame)
    requires Good(u) && Active(u)
    ensures var v := Round(u, Answer(response));
            Good(v) && v.image == u.image && v.chunkSize == u.chunkSize && RoundsLeft(v) < RoundsLeft(u)
  {
    hide Round, RoundsLeft;
    AnswerMoves(u, response);
    MoveProgress(u, Round(u, Answer(response)));
  }

  lemma ReserveStep(recoveries: nat, all: nat)
    requires recoveries < MAX_RECOVERIES
    ensures Reserve(recoveries, all) == Reserve(recoveries + 1, all) + all + 1
  {
    var k := MAX_RECOVERIES - recoveries;
    assert k * (all + 1) == (k - 1) * (all + 1) + (all + 1);
  }

  lemma SilenceProgress(u: State, queued: QueueStatus)
    requires Good(u) && Active(u)
    ensures var v := Round(u, Silence(queued));
            Good(v) && v.image == u.image && v.chunkSize == u.chunkSize && RoundsLeft(v) < RoundsLeft(u)
  {
    BuildSucceeds(u);
    StillToGo(u);
    SilenceLeads(u, queued);
    var v := Round(u, Silence(queued));
    if v.phase != Errored {
      assert u.phase == Transferring ==> Left(u, u.offset) > 0;
      ReserveStep(u.recoveries, Left(u, 0));
      hide Round, ChunksLeft, Reserve;
    }
  }

  /** Where an unanswered request leads. */
  lemma SilenceLeads(u: State, queued: QueueStatus)
    requires Good(u) && Active(u)
    ensures var v := Round(u, Silence(queued));
            && Good(v) && v.image == u.image && v.chunkSize == u.chunkSize
            && (v.phase == Errored || (v.phase == Recovering && v.offset == u.offset && v.recoveries == u.recoveries + 1
                                       && (u.phase == Transferring || u.phase == Recovering)))
  {
    hide PutLe32, PutLe16;
  }

  /** Every round, whatever the device does, uses up a round. */
  lemma RoundProgress(u: State, outcome: Outcome)
    requires Good(u) && Active(u)
    ensures var v := Round(u, outcome);
            Good(v) && v.image == u.image && v.chunkSize == u.chunkSize && RoundsLeft(v) < RoundsLeft(u)
  {
    hide Round, RoundsLeft;
    match outcome {
      case Answer(response) => AnswerProgress(u, response);
      case Silence(queued) => SilenceProgress(u, queued);
    }
  }

  /** Whatever the device answers, an update ends: after as many rounds as RoundsLeft allows
      it is complete or has failed. */
  lemma {:induction false} UpdateTerminates(u: State, outcomes: seq<Outcome>)
    requires Good(u)
    ensures Good(Rounds(u, outcomes))
    ensures |outcomes| >= RoundsLeft(u) ==>
              Rounds(u, outcomes).phase == Complete || Rounds(u, outcomes).phase == Errored
    decreases |outcomes|
  {
    hide RoundsLeft, Round;
    if Active(u) && outcomes != [] {
      RoundProgress(u, outcomes[0]);
      UpdateTerminates(Round(u, outcomes[0]), outcomes[1..]);
    } else if Active(u) {
      StillToGo(u);
    }
  }

  lemma StillToGo(u: State)
    requires Good(u) && Active(u)
    ensures RoundsLeft(u) > 0
  {
  }

  /** From the start: nine rounds besides four passes over the image. */
  lemma FreshUpdateRounds(u: State, image: seq<byte>, crc: u32, version: CString, chunkSize: u16)
    requires Start(u, image, crc, version, chunkSize).1 == Ok
    ensures var v := Start(u, image, crc, version, chunkSize).0;
            Good(v) && RoundsLeft(v) == 4 * ChunksLeft(|image|, 0, chunkSize) + 9
  {
  }

  // ----- What an update can send, and how it can fail by timeout -----

  /** The FW_DATA requests built in a run. */
  function DataRequests(u: State, outcomes: seq<Outcome>): nat
    decreases |outcomes|
  {
    if outcomes == [] || !Active(u) then 0
    else (if u.phase == Transferring then 1 else 0) + DataRequests(Round(u, outcomes[0]), outcomes[1..])
  }

  /** How many FW_DATA requests can still follow. */
  function DataBudget(u: State): nat
    requires Good(u)
  {
    var all := Left(u, 0);
    var later := Passes(u.recoveries, all);
    if u.phase == Entering || u.phase == Beginning || u.phase == Recovering then all + later
    else if u.phase == Transferring then Left(u, u.offset) + later
    else 0
  }

  /** Full passes over the image that the recoveries still allowed can cause. */
  function Passes(recoveries: nat, all: nat): nat
    requires recoveries <= MAX_RECOVERIES
  {
    (MAX_RECOVERIES - recoveries) * all
  }

  lemma PassesStep(recoveries: nat, all: nat)
    requires recoveries < MAX_RECOVERIES
    ensures Passes(recoveries, all) == Passes(recoveries + 1, all) + all
  {
    var k := MAX_RECOVERIES - recoveries;
    assert k * all == (k - 1) * all + all;
  }

  lemma MoveBudget(u: State, w: State)
    requires Good(u) && Active(u) && Good(w) && Moves(u, w)
    ensures DataBudget(w) + (if u.phase == Transferring then 1 else 0) <= DataBudget(u)
  {
    if u.phase == Transferring {
      ChunkEndLeft(u, u.offset);
    }
    ChunksLeftMonotone(|u.image|, 0, w.offset, u.chunkSize);
    hide ChunksLeft, Passes;
  }

  lemma RoundBudget(u: State, outcome: Outcome)
    requires Good(u) && Active(u)
    ensures Good(Round(u, outcome))
    ensures DataBudget(Round(u, outcome)) + (if u.phase == Transferring then 1 else 0) <= DataBudget(u)
  {
    if outcome.Answer? {
      hide Round;
      AnswerMoves(u, outcome.response);
      MoveBudget(u, Round(u, outcome));
    } else {
      BuildSucceeds(u);
      if u.recoveries < MAX_RECOVERIES {
        PassesStep(u.recoveries, Left(u, 0));
      }
      assert u.phase == Transferring ==> Left(u, u.offset) > 0;
      hide ChunksLeft, Passes, PutLe32, PutLe16;
    }
  }

  /** Whatever the device does, at most four passes over the image are sent, and chunksSent
      counts them modulo 2^32. */
  lemma {:induction false} DataRequestsBounded(u: State, outcomes: seq<Outcome>)
    requires Good(u)
    ensures DataRequests(u, outcomes) <= DataBudget(u)
    ensures Rounds(u, outcomes).chunksSent == Truncate32(u.chunksSent + DataRequests(u, outcomes))
    decreases |outcomes|
  {
    hide DataBudget, Round, Truncate32;
    if Active(u) && outcomes != [] {
      var v, n := Round(u, outcomes[0]), if u.phase == Transferring then 1 else 0;
      RoundBudget(u, outcomes[0]);
      RoundCountsData(u, outcomes[0]);
      DataRequestsBounded(v, outcomes[1..]);
      TruncateTwice(u.chunksSent, n, DataRequests(v, outcomes[1..]));
    } else {
      TruncateTwice(u.chunksSent, 0, 0);
    }
  }

  lemma TruncateTwice(a: u32, n: nat, m: nat)
    ensures Truncate32(Truncate32(a + n) + m) == Truncate32(a + (n + m))
    ensures Truncate32(a) == a
  {
  }

  lemma RoundCountsData(u: State, outcome: Outcome)
    requires Good(u)
    ensures Round(u, outcome).chunksSent == Truncate32(u.chunksSent + if u.phase == Transferring then 1 else 0)
  {
    hide GetLe32, PutLe32, PutLe16;
  }

  lemma FreshUpdateData(u: State, image: seq<byte>, crc: u32, version: CString, chunkSize: u16, outcomes: seq<Outcome>)
    requires Start(u, image, crc, version, chunkSize).1 == Ok
    ensures var v := Start(u, image, crc, version, chunkSize).0;
            DataRequests(v, outcomes) <= 4 * ChunksLeft(|image|, 0, chunkSize)
  {
    DataRequestsBounded(Start(u, image, crc, version, chunkSize).0, outcomes);
  }

  function Silences(outcomes: seq<Outcome>): nat {
    if outcomes == [] then 0 else (if outcomes[0].Silence? then 1 else 0) + Silences(outcomes[1..])
  }

  lemma RoundCountsRecoveries(u: State, outcome: Outcome)
    requires Good(u) && Active(u) && Active(Round(u, outcome))
    ensures Round(u, outcome).recoveries == u.recoveries + Silences([outcome])
    ensures outcome.Silence? ==> u.phase == Transferring || u.phase == Recovering
  {
    hide GetLe32, PutLe32, PutLe16;
    assert [outcome][1..] == [];
  }

  /** While an update is active, its recoveries are exactly the requests that went unanswered. */
  lemma {:induction false} RecoveriesAreSilences(u: State, outcomes: seq<Outcome>)
    requires Good(u) && Active(Rounds(u, outcomes))
    ensures Rounds(u, outcomes).recoveries == u.recoveries + Silences(outcomes)
    decreases |outcomes|
  {
    hide Good, Round;
    if outcomes != [] {
      var v := Round(u, outcomes[0]);
      RoundProgress(u, outcomes[0]);
      assert Active(v);
      RoundCountsRecoveries(u, outcomes[0]);
      assert [outcomes[0]][1..] == [];
      RecoveriesAreSilences(v, outcomes[1..]);
    }
  }

  /** In transfer or recovery an unanswered request ends the update exactly when it is the
      fourth one or the recovery request cannot be queued; in any other phase the first one does. */
  lemma FourthSilenceFails(u: State, image: seq<byte>, crc: u32, version: CString, chunkSize: u16,
                           outcomes: seq<Outcome>, queued: QueueStatus)
    requires Start(u, image, crc, version, chunkSize).1 == Ok
    requires Active(Rounds(Start(u, image, crc, version, chunkSize).0, outcomes))
    ensures var v := Rounds(Start(u, image, crc, version, chunkSize).0, outcomes);
            (Round(v, Silence(queued)).phase == Errored) <==>
            ((v.phase != Transferring && v.phase != Recovering) || Silences(outcomes) == MAX_RECOVERIES || queued != Ok)
  {
    var start := Start(u, image, crc, version, chunkSize).0;
    RecoveriesAreSilences(start, outcomes);
    UpdateTerminates(start, outcomes);
    BuildSucceeds(Rounds(start, outcomes));
  }
}
