/** How the daemon drives an update through the request tracker (apps/devmgrd/daemon.c):
    the part of its handlers that touches only the session and the update. */
module Driver {
  import opened Wire
  import Session
  import Upgrade

  const UPGRADE_POLICY: Session.Policy := Session.Policy(2000, 750, 4)

  datatype Host = Host(session: Session.State, upgrade: Upgrade.State)

  /** queue_upgrade_request: build, number and queue the next request; `queued` is the
      verdict of the output buffer. Any failure leaves no request in flight, but a frame that
      reached the buffer stays there. */
  function QueueRequest(h: Host, now: u64, queued: QueueStatus): (Host, Status, Option<Frame>) {
    var (u, built) := Upgrade.Build(h.upgrade);
    if built.Failure? then (Host(Session.Cancel(h.session), u), built.status, None)
    else
      var f := built.value;
      var (s, begun) := Session.Begin(h.session, f.kind, f.flags, f.payload, UPGRADE_POLICY, now);
      if begun.Failure? then (Host(Session.Cancel(s), u), begun.status, None)
      else (Host(if queued == Ok then s else Session.Cancel(s), u), queued, Reaching(begun.value, queued))
  }

  /** The frame, if it got into the output buffer. */
  function Reaching(f: Frame, queued: QueueStatus): Option<Frame> {
    if queued == Busy then None else Some(f)
  }

  function FinishUpgrade(h: Host): Host {
    h.(session := Session.Transition(h.session, Session.UpgradeDone).0)
  }

  /** An update that ends with an error. */
  function FailUpgrade(h: Host): Host {
    FinishUpgrade(h.(upgrade := h.upgrade.(phase := Upgrade.Errored)))
  }

  predicate IsTelemetry(f: Frame) {
    f.kind == TELEMETRY && f.sequence == 0
  }

  /** A frame from the device while an update is active, the session being past its
      handshake: on_device_frame for the update. A status other than Ok stops the daemon. */
  function OnUpgradeFrame(h: Host, frame: Frame, now: u64, queued: QueueStatus): (Host, Status, Option<Frame>) {
    var requestKind := h.session.pending.frame.kind;
    var (s, accepted) := Session.Accept(h.session, frame);
    if IsTelemetry(frame) then (h, Ok, None)
    else if accepted != Ok then (Host(s, h.upgrade), Ok, None)
    else
      var (u, status) := Upgrade.Accept(h.upgrade, requestKind, frame);
      var next := Host(s, u);
      if status != Ok || u.phase == Upgrade.Complete then (FinishUpgrade(next), Ok, None)
      else QueueRequest(next, now, queued)
  }

  /** The timer branch after a request of an active update ran out of retries. */
  function OnUpgradeTimeout(h: Host, now: u64, queued: QueueStatus): (Host, Option<Frame>) {
    var (u, recovering) := Upgrade.BeginRecovery(h.upgrade);
    var (next, status, sent) :=
      if recovering == Ok then QueueRequest(Host(h.session, u), now, queued)
      else (Host(h.session, u), recovering, None);
    (if status == Ok then next else FailUpgrade(next), sent)
  }

  lemma QueueBuilds(h: Host, now: u64, queued: QueueStatus)
    ensures QueueRequest(h, now, queued).0.upgrade == Upgrade.Build(h.upgrade).0
  {
    hide Upgrade.Build, Session.Begin;
  }

  /** With nothing in flight, an active update always numbers its next request. The request
      waits for its answer exactly if it was queued, and is in the output buffer exactly
      unless that was occupied. */
  lemma QueueNumbers(h: Host, now: u64, queued: QueueStatus)
    requires Upgrade.Good(h.upgrade) && Upgrade.Active(h.upgrade)
    requires Session.Consistent(h.session) && !h.session.pending.active
    ensures var (g, status, sent) := QueueRequest(h, now, queued);
            var (b, built) := Upgrade.Build(h.upgrade);
            && status == queued && built.Success? && g.upgrade == b
            && g.session.stats.requests == h.session.stats.requests + 1 && Session.Consistent(g.session)
            && g.session.pending.active == (queued == Ok)
            && g.session.pending.frame == built.value.(sequence := Session.Numbered(g.session.stats.requests))
            && sent == Reaching(g.session.pending.frame, queued)
  {
    hide Session.Numbered, Upgrade.Build;
    Upgrade.BuildSucceeds(h.upgrade);
    Session.NumberedNext(h.session.stats.requests + 1);
  }
}
