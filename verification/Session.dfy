/** The request tracker of src/device/session.c: one request in flight, sequence numbers that
    wrap past zero, bounded retries against saturating deadlines. */
module Session {
  import opened Wire

  datatype DeviceState = Unplugged | Connecting | Handshaking | Ready | Streaming | Upgrading | Rebooting

  datatype Event =
    | Connect | TransportConnected | HandshakeOk | StartStream | StopStream | StartUpgrade
    | UpgradeDone | RebootDevice | TransportLost | Fail

  datatype Policy = Policy(timeoutMs: u32, retryIntervalMs: u32, maxRetries: byte)

  datatype Pending = Pending(frame: Frame, policy: Policy, deadline: u64, retriesDone: byte, active: bool)

  /** Counters; 64-bit in the source, here unbounded. */
  datatype Stats = Stats(requests: nat, responses: nat, retries: nat, timeouts: nat,
                         sequenceMismatches: nat, duplicates: nat, unexpected: nat)

  datatype State = State(device: DeviceState, nextSequence: u32, lastCompleted: u32, pending: Pending, stats: Stats)

  const INITIAL: State :=
    State(Unplugged, 1, 0, Pending(Frame(0, 0, 0, []), Policy(0, 0, 0), 0, 0, false), Stats(0, 0, 0, 0, 0, 0, 0))

  function MillisToNs(ms: u32): u64 {
    ms * 1_000_000
  }

  function SaturatingAdd(a: u64, b: u64): u64 {
    if U64_MAX - a < b then U64_MAX else a + b
  }

  /** The wait after a retransmission. */
  function Interval(p: Policy): u64 {
    MillisToNs(if p.retryIntervalMs == 0 then p.timeoutMs else p.retryIntervalMs)
  }

  // ----- The operations on values -----

  function Cancel(s: State): State {
    s.(pending := s.pending.(active := false))
  }

  function Transition(s: State, event: Event): (State, Status) {
    if event.TransportLost? || event.Fail? then (Cancel(s.(device := Unplugged)), Ok)
    else match (s.device, event)
      case (Unplugged, Connect) => (s.(device := Connecting), Ok)
      case (Connecting, TransportConnected) => (s.(device := Handshaking), Ok)
      case (Handshaking, HandshakeOk) => (s.(device := Ready), Ok)
      case (Ready, StartStream) => (s.(device := Streaming), Ok)
      case (Ready, StartUpgrade) => (s.(device := Upgrading), Ok)
      case (Ready, RebootDevice) => (s.(device := Rebooting), Ok)
      case (Streaming, StopStream) => (s.(device := Ready), Ok)
      case (Streaming, RebootDevice) => (s.(device := Rebooting), Ok)
      case (Upgrading, UpgradeDone) => (s.(device := Ready), Ok)
      case (Upgrading, RebootDevice) => (s.(device := Rebooting), Ok)
      case (Rebooting, TransportConnected) => (s.(device := Handshaking), Ok)
      case _ => (s, BadState)
  }

  function Begin(s: State, kind: byte, flags: byte, payload: seq<byte>, policy: Policy, now: u64)
    : (State, Result<Frame>)
  {
    if |payload| > MAX_PAYLOAD || policy.timeoutMs == 0 then (s, Failure(Invalid))
    else if s.pending.active then (s, Failure(Busy))
    else
      var request := Frame(kind, flags, s.nextSequence, payload);
      var deadline := SaturatingAdd(now, MillisToNs(policy.timeoutMs));
      (s.(nextSequence := NextNonzero(s.nextSequence),
          pending := Pending(request, policy, deadline, 0, true),
          stats := s.stats.(requests := s.stats.requests + 1)),
       Success(request))
  }

  predicate Terminal(kind: byte) {
    kind == ACK || kind == NACK || kind == ERROR
  }

  function Accept(s: State, response: Frame): (State, Status) {
    if !s.pending.active then
      (s.(stats := if response.sequence == s.lastCompleted then s.stats.(duplicates := s.stats.duplicates + 1)
                   else s.stats.(unexpected := s.stats.unexpected + 1)), NotFound)
    else if response.sequence != s.pending.frame.sequence then
      (s.(stats := s.stats.(sequenceMismatches := s.stats.sequenceMismatches + 1)), Protocol)
    else if !IsResponse(response.flags) && !Terminal(response.kind) then
      (s.(stats := s.stats.(unexpected := s.stats.unexpected + 1)), Protocol)
    else if response.kind != s.pending.frame.kind && !Terminal(response.kind) then
      (s.(stats := s.stats.(unexpected := s.stats.unexpected + 1)), Protocol)
    else
      (Cancel(s.(lastCompleted := response.sequence, stats := s.stats.(responses := s.stats.responses + 1))), Ok)
  }

  /** The request as it goes out again. */
  function Retry(f: Frame): Frame {
    f.(flags := WithRetry(f.flags))
  }

  /** A timer tick; `sent` is the verdict of the retransmit callback, and the last component
      the frame handed to it, if any. */
  function Tick(s: State, now: u64, sent: Status): (State, Status, Option<Frame>) {
    if !s.pending.active || now < s.pending.deadline then (s, Ok, None)
    else if s.pending.retriesDone >= s.pending.policy.maxRetries then
      (Cancel(s).(stats := s.stats.(timeouts := s.stats.timeouts + 1)), Timeout, None)
    else
      var again := Retry(s.pending.frame);
      var marked := s.(pending := s.pending.(frame := again));
      if sent != Ok then (marked, sent, Some(again))
      else
        (marked.(pending := marked.pending.(retriesDone := s.pending.retriesDone + 1,
                                            deadline := SaturatingAdd(now, Interval(s.pending.policy))),
                 stats := s.stats.(retries := s.stats.retries + 1)),
         Ok, Some(again))
  }

  // ----- The object -----

  class Tracker {
    var device: DeviceState
    var nextSequence: u32
    var lastCompleted: u32
    var pending: Pending
    var stats: Stats

    ghost function View(): State
      reads this
    {
      State(device, nextSequence, lastCompleted, pending, stats)
    }

    constructor ()
      ensures View() == INITIAL
    {
      device, nextSequence, lastCompleted := Unplugged, 1, 0;
      pending := Pending(Frame(0, 0, 0, []), Policy(0, 0, 0), 0, 0, false);
      stats := Stats(0, 0, 0, 0, 0, 0, 0);
    }

    method CancelRequest()
      modifies this
      ensures View() == Cancel(old(View()))
    {
      pending := pending.(active := false);
    }

    method ChangeState(event: Event) returns (status: Status)
      modifies this
      ensures (View(), status) == Transition(old(View()), event)
    {
      if event.TransportLost? || event.Fail? {
        device := Unplugged;
        CancelRequest();
        return Ok;
      }
      var next := device;
      match device {
        case Unplugged =>
          if event.Connect? { next := Connecting; } else { return BadState; }
        case Connecting =>
          if event.TransportConnected? { next := Handshaking; } else { return BadState; }
        case Handshaking =>
          if event.HandshakeOk? { next := Ready; } else { return BadState; }
        case Ready =>
          if event.StartStream? { next := Streaming; }
          else if event.StartUpgrade? { next := Upgrading; }
          else if event.RebootDevice? { next := Rebooting; }
          else { return BadState; }
        case Streaming =>
          if event.StopStream? { next := Ready; }
          else if event.RebootDevice? { next := Rebooting; }
          else { return BadState; }
        case Upgrading =>
          if event.UpgradeDone? { next := Ready; }
          else if event.RebootDevice? { next := Rebooting; }
          else { return BadState; }
        case Rebooting =>
          if event.TransportConnected? { next := Handshaking; } else { return BadState; }
      }
      device := next;
      return Ok;
    }

    method BeginRequest(kind: byte, flags: byte, payload: seq<byte>, policy: Policy, now: u64)
      returns (r: Result<Frame>)
      modifies this
      ensures (View(), r) == Begin(old(View()), kind, flags, payload, policy, now)
    {
      if |payload| > MAX_PAYLOAD || policy.timeoutMs == 0 {
        return Failure(Invalid);
      }
      if pending.active {
        return Failure(Busy);
      }
      var request := Frame(kind, flags, nextSequence, payload);
      nextSequence := (nextSequence + 1) % 0x1_0000_0000;
      if nextSequence == 0 {
        nextSequence := 1;
      }
      pending := pending.(frame := request, policy := policy);
      pending := pending.(deadline := SaturatingAdd(now, MillisToNs(policy.timeoutMs)));
      pending := pending.(retriesDone := 0, active := true);
      stats := stats.(requests := stats.requests + 1);
      return Success(request);
    }

    method AcceptResponse(response: Frame) returns (status: Status)
      modifies this
      ensures (View(), status) == Accept(old(View()), response)
    {
      if !pending.active {
        if response.sequence == lastCompleted {
          stats := stats.(duplicates := stats.duplicates + 1);
        } else {
          stats := stats.(unexpected := stats.unexpected + 1);
        }
        return NotFound;
      }
      if response.sequence != pending.frame.sequence {
        stats := stats.(sequenceMismatches := stats.sequenceMismatches + 1);
        return Protocol;
      }
      if !IsResponse(response.flags) && response.kind != ACK && response.kind != NACK && response.kind != ERROR {
        stats := stats.(unexpected := stats.unexpected + 1);
        return Protocol;
      }
      if response.kind != pending.frame.kind && response.kind != ACK && response.kind != NACK
         && response.kind != ERROR {
        stats := stats.(unexpected := stats.unexpected + 1);
        return Protocol;
      }
      lastCompleted := response.sequence;
      pending := pending.(active := false);
      stats := stats.(responses := stats.responses + 1);
      return Ok;
    }

    method OnTick(now: u64, retransmit: Frame -> Status) returns (status: Status, sent: Option<Frame>)
      modifies this
      ensures (View(), status, sent) == Tick(old(View()), now, retransmit(Retry(old(pending.frame))))
    {
      if !pending.active || now < pending.deadline {
        return Ok, None;
      }
      if pending.retriesDone >= pending.policy.maxRetries {
        pending := pending.(active := false);
        stats := stats.(timeouts := stats.timeouts + 1);
        return Timeout, None;
      }
      pending := pending.(frame := Retry(pending.frame));
      status := retransmit(pending.frame);
      if status != Ok {
        return status, Some(pending.frame);
      }
      pending := pending.(retriesDone := pending.retriesDone + 1);
      stats := stats.(retries := stats.retries + 1);
      pending := pending.(deadline := SaturatingAdd(now, Interval(pending.policy)));
      return Ok, Some(pending.frame);
    }
  }

  // ----- Runs -----

  datatype Op =
    | Request(kind: byte, flags: byte, payload: seq<byte>, policy: Policy, now: u64)
    | Response(frame: Frame)
    | Timer(now: u64, sent: Status)
    | Drop
    | Change(event: Event)

  function Apply(s: State, op: Op): State {
    match op
    case Request(kind, flags, payload, policy, now) => Begin(s, kind, flags, payload, policy, now).0
    case Response(frame) => Accept(s, frame).0
    case Timer(now, sent) => Tick(s, now, sent).0
    case Drop => Cancel(s)
    case Change(event) => Transition(s, event).0
  }

  function Run(s: State, ops: seq<Op>): State
    decreases |ops|
  {
    if ops == [] then s else Run(Apply(s, ops[0]), ops[1..])
  }

  /** How many pending requests a run cancels. */
  function Cancelled(s: State, ops: seq<Op>): nat
    decreases |ops|
  {
    if ops == [] then 0
    else
      var drops := ops[0].Drop? || ops[0] == Change(TransportLost) || ops[0] == Change(Fail);
      Bit(s.pending.active && drops) + Cancelled(Apply(s, ops[0]), ops[1..])
  }

  /** Sequence numbers skip zero, so they repeat after 2^32 - 1 requests. */
  const PERIOD: nat := 0xFFFF_FFFF

  /** The number that the k-th request carries, counting from 1. */
  function Numbered(k: nat): (n: u32)
    requires k > 0
    ensures n != 0
  {
    (k - 1) % PERIOD + 1
  }

  ghost predicate Consistent(s: State) {
    && s.nextSequence == Numbered(s.stats.requests + 1)
    && (s.pending.active ==> s.stats.requests > 0 && s.pending.frame.sequence == Numbered(s.stats.requests))
  }

  lemma NumberedNext(k: nat)
    requires k > 0
    ensures NextNonzero(Numbered(k)) == Numbered(k + 1)
  {
    var q, r := (k - 1) / PERIOD, (k - 1) % PERIOD;
    assert k - 1 == q * PERIOD + r;
    if r == PERIOD - 1 {
      assert k == (q + 1) * PERIOD;
    } else {
      assert k == q * PERIOD + (r + 1);
    }
  }

  lemma ApplyConsistent(s: State, op: Op)
    requires Consistent(s)
    ensures Consistent(Apply(s, op))
  {
    NumberedNext(s.stats.requests + 1);
    hide Numbered;
  }

  lemma {:induction false} RunConsistent(s: State, ops: seq<Op>)
    requires Consistent(s)
    ensures Consistent(Run(s, ops))
    decreases |ops|
  {
    if ops != [] {
      ApplyConsistent(s, ops[0]);
      hide Consistent, Apply;
      RunConsistent(Apply(s, ops[0]), ops[1..]);
    }
  }

  /** In every run the next request is number `requests + 1`, wherever the counter has wrapped. */
  lemma KthRequestNumber(ops: seq<Op>, kind: byte, flags: byte, payload: seq<byte>, policy: Policy, now: u64)
    ensures var s := Run(INITIAL, ops);
            var (t, r) := Begin(s, kind, flags, payload, policy, now);
            && (r.Success? ==> t.stats.requests == s.stats.requests + 1
                               && r.value == Frame(kind, flags, Numbered(t.stats.requests), payload))
            && (r.Success? <==> !s.pending.active && |payload| <= MAX_PAYLOAD && policy.timeoutMs != 0)
  {
    RunConsistent(INITIAL, ops);
  }

  lemma NumberedDistinct(j: nat, k: nat)
    requires 0 < j < k && k - j < PERIOD
    ensures Numbered(j) != Numbered(k)
  {
    var q, r := (j - 1) / PERIOD, (j - 1) % PERIOD;
    var p, t := (k - 1) / PERIOD, (k - 1) % PERIOD;
    assert j - 1 == q * PERIOD + r && k - 1 == p * PERIOD + t;
    assert r == t ==> k - j == (p - q) * PERIOD;
  }

  /** A late echo of an earlier request never completes the one in flight. */
  lemma EchoIgnored(ops: seq<Op>, echo: Frame, j: nat)
    requires var s := Run(INITIAL, ops);
             && s.pending.active && 0 < j < s.stats.requests && s.stats.requests - j < PERIOD
             && echo.sequence == Numbered(j)
    ensures var s := Run(INITIAL, ops);
            Accept(s, echo).1 == Protocol && Accept(s, echo).0.pending == s.pending
  {
    var s := Run(INITIAL, ops);
    RunConsistent(INITIAL, ops);
    NumberedDistinct(j, s.stats.requests);
  }

  function Outstanding(s: State): nat {
    if s.pending.active then 1 else 0
  }

  /** Requests that are neither answered, nor timed out, nor in flight. */
  function Unresolved(s: State): int {
    s.stats.requests - s.stats.responses - s.stats.timeouts - Outstanding(s)
  }

  lemma UnresolvedStep(s: State, op: Op)
    ensures Unresolved(Apply(s, op)) == Unresolved(s) + Cancelled(s, [op])
  {
    assert [op][1..] == [];
  }

  lemma {:induction false} UnresolvedAreCancelled(s: State, ops: seq<Op>)
    ensures Unresolved(Run(s, ops)) == Unresolved(s) + Cancelled(s, ops)
    decreases |ops|
  {
    if ops != [] {
      UnresolvedStep(s, ops[0]);
      assert [ops[0]][1..] == [];
      hide Unresolved, Apply;
      UnresolvedAreCancelled(Apply(s, ops[0]), ops[1..]);
    }
  }

  /** Every request is answered, timed out, cancelled, or still in flight. */
  lemma RequestsAccounted(ops: seq<Op>)
    ensures var t := Run(INITIAL, ops);
            t.stats.requests == t.stats.responses + t.stats.timeouts + Cancelled(INITIAL, ops) + Outstanding(t)
  {
    UnresolvedAreCancelled(INITIAL, ops);
  }

  // ----- Retry timing -----

  /** The request stays in flight after every prefix of the run. */
  ghost predicate InFlight(s: State, ops: seq<Op>)
    decreases |ops|
  {
    s.pending.active && (ops != [] ==> InFlight(Apply(s, ops[0]), ops[1..]))
  }

  /** The frames that a run retransmits with success. */
  function Resent(s: State, ops: seq<Op>): seq<Frame>
    decreases |ops|
  {
    if ops == [] then []
    else
      var now := if ops[0].Timer? && ops[0].sent == Ok then Tick(s, ops[0].now, Ok).2 else None;
      (if now.Some? then [now.value] else []) + Resent(Apply(s, ops[0]), ops[1..])
  }

  /** The earliest deadline a request can have after n retransmissions. */
  function EarliestDeadline(t0: u64, p: Policy, n: nat): nat {
    var t := t0 + MillisToNs(p.timeoutMs) + n * Interval(p);
    if t <= U64_MAX then t else U64_MAX
  }

  /** n retransmissions after the request went out at t0. */
  ghost predicate Waiting(s: State, f: Frame, p: Policy, t0: u64, n: nat) {
    && s.pending.active && s.pending.policy == p
    && (s.pending.frame == f || s.pending.frame == Retry(f))
    && s.pending.retriesDone == n <= p.maxRetries
    && s.pending.deadline >= EarliestDeadline(t0, p, n)
  }

  lemma BeginWaits(s: State, kind: byte, flags: byte, payload: seq<byte>, p: Policy, t0: u64)
    requires Begin(s, kind, flags, payload, p, t0).1.Success?
    ensures var (t, r) := Begin(s, kind, flags, payload, p, t0); Waiting(t, r.value, p, t0, 0)
  {
  }

  lemma WaitingStep(s: State, op: Op, f: Frame, p: Policy, t0: u64, n: nat)
    requires Waiting(s, f, p, t0, n) && Apply(s, op).pending.active
    ensures var again := op.Timer? && op.sent == Ok && Tick(s, op.now, Ok).2.Some?;
            && Waiting(Apply(s, op), f, p, t0, if again then n + 1 else n)
            && (again ==> Tick(s, op.now, Ok).2.value == Retry(f))
  {
    if op.Timer? {
      WaitingTick(s, op.now, op.sent, f, p, t0, n);
    } else {
      hide EarliestDeadline, WithRetry, Tick;
    }
  }

  lemma WaitingTick(s: State, now: u64, sent: Status, f: Frame, p: Policy, t0: u64, n: nat)
    requires Waiting(s, f, p, t0, n) && Tick(s, now, sent).0.pending.active
    ensures var (t, _, again) := Tick(s, now, sent);
            && Waiting(t, f, p, t0, if sent == Ok && again.Some? then n + 1 else n)
            && (again.Some? ==> again.value == Retry(f))
            && (again.Some? <==> Tick(s, now, Ok).2.Some?)
  {
    LaterDeadline(t0, p, n, now);
    assert WithRetry(WithRetry(f.flags)) == WithRetry(f.flags);
    hide EarliestDeadline, WithRetry, Interval;
  }

  /** A deadline one interval after a time past the earliest one is past the next earliest. */
  lemma LaterDeadline(t0: u64, p: Policy, n: nat, now: u64)
    ensures now >= EarliestDeadline(t0, p, n) ==> SaturatingAdd(now, Interval(p)) >= EarliestDeadline(t0, p, n + 1)
  {
    assert (n + 1) * Interval(p) == n * Interval(p) + Interval(p);
    hide Interval;
  }

  lemma {:induction false} WaitingRun(s: State, ops: seq<Op>, f: Frame, p: Policy, t0: u64, n: nat)
    requires Waiting(s, f, p, t0, n) && InFlight(s, ops)
    ensures Waiting(Run(s, ops), f, p, t0, n + |Resent(s, ops)|)
    ensures forall i :: 0 <= i < |Resent(s, ops)| ==> Resent(s, ops)[i] == Retry(f)
    decreases |ops|
  {
    hide Waiting, Apply, Tick;
    if ops != [] {
      WaitingStep(s, ops[0], f, p, t0, n);
      var again := ops[0].Timer? && ops[0].sent == Ok && Tick(s, ops[0].now, Ok).2.Some?;
      WaitingRun(Apply(s, ops[0]), ops[1..], f, p, t0, if again then n + 1 else n);
    }
  }

  /** A request times out no earlier than its timeout and all its retry intervals allow, and
      only after exactly the allowed number of retransmissions, each the original request
      but for the retry flag. */
  lemma TimeoutIsEarned(s: State, kind: byte, flags: byte, payload: seq<byte>, p: Policy, t0: u64,
                        ops: seq<Op>, now: u64, sent: Status)
    requires var (t, r) := Begin(s, kind, flags, payload, p, t0);
             && r.Success? && InFlight(t, ops)
             && Tick(Run(t, ops), now, sent).0.stats.timeouts > Run(t, ops).stats.timeouts
    ensures var (t, r) := Begin(s, kind, flags, payload, p, t0);
            && now >= EarliestDeadline(t0, p, p.maxRetries)
            && |Resent(t, ops)| == p.maxRetries
            && forall i :: 0 <= i < |Resent(t, ops)| ==> Resent(t, ops)[i] == Retry(r.value)
  {
    var (t, r) := Begin(s, kind, flags, payload, p, t0);
    BeginWaits(s, kind, flags, payload, p, t0);
    WaitingRun(t, ops, r.value, p, t0, 0);
  }
}
