/** What a completed update means when nothing is known of the device: neither of the session it
    may have open, nor of what is on its way to it, nor whether its verification works. */
module AnySession {
  import opened Wire
  import opened Crc32
  import opened Simulator
  import opened Driver
  import opened LossyLink
  import opened LinkInvariant
  import opened LinkRuns
  import S = Session
  import U = Upgrade

  // ----- What the answers tell of the device -----

  /** The device has a session under the update's label, with whatever bytes. */
  ghost predicate Labelled(a: U.State, d: Sim) {
    d.upgrading && SessionLabel(d) == LabelOf(a)
  }

  /** Size and checksum of the flash are those of the image. */
  ghost predicate Checked(a: U.State, d: Sim) {
    |d.flash| == |a.image| && Checksum(d.flash) == a.imageCrc
  }

  /** What an update of this rank has been told. */
  ghost predicate Told(a: U.State, d: Sim, rank: int) {
    && (rank >= 2 ==> Labelled(a, d))
    && (rank >= 4 ==> d.offset == |d.flash|)
    && (rank >= 5 ==> Checked(a, d))
    && (rank >= 6 ==> d.version == a.version)
  }

  /** The rank that a grant of the request in flight leads to. */
  function Granted(phase: U.Phase): int {
    match phase
    case Entering => 1
    case Beginning => 2
    case Transferring => 2
    case Recovering => 2
    case Ending => 4
    case Verifying => 5
    case Activating => 6
    case _ => 7
  }

  ghost predicate Attested(a: U.State, d: Sim) {
    if a.phase == U.Restarting then Rebooted(d) else Told(a, d, Granted(a.phase))
  }

  ghost predicate DeviceHolds(a: U.State, d: Sim, q: seq<Frame>) {
    if a.phase == U.Restarting && !d.upgrading then
      Checked(a, d) && d.version == a.version && Rebooted(d) && AllReboot(q)
    else Told(a, d, Rank(a.phase))
  }

  /** A frame of this update: all that matters is what its FW_BEGIN says, and that REBOOT comes last. */
  ghost predicate Owned(f: Frame, a: U.State) {
    && IsUpdate(f.kind)
    && (f.kind == FW_BEGIN ==> f.payload == U.BeginPayload(a))
    && (f.kind == REBOOT ==> a.phase == U.Restarting)
  }

  /** A session under the update's label stays, and so does all else that has been told. */
  lemma ToldStays(a: U.State, d: Sim, f: Frame, heap: Heap, rank: int)
    requires |a.image| <= MAX_IMAGE && Owned(f, a) && f.kind != REBOOT && Told(a, d, rank)
    ensures Told(a, Handle(d, f, heap).0, rank)
  {
    hide GetLe32, GetLe16, PutLe32, PutLe16, StringAt, Checksum, HandleData, U.BeginPayload;
    if f.kind == FW_BEGIN {
      BeginFields(a);
    } else if f.kind == FW_DATA {
      DataKeepsLabel(d, f);
    }
  }

  /** A chunk changes nothing of a session but its bytes and its offset, and nothing at all once the
      session is full. */
  lemma DataKeepsLabel(d: Sim, f: Frame)
    ensures var e := HandleData(d, f).0;
            && SessionLabel(e) == SessionLabel(d) && e.upgrading == d.upgrading && e.version == d.version
            && (d.offset == |d.flash| ==> e == d)
  {
    hide GetLe32, PutLe32, PutLe16;
  }

  lemma GrantTells(a: U.State, d: Sim, f: Frame, heap: Heap)
    requires Sound(a) && a.phase != U.Restarting && Told(a, d, Rank(a.phase)) && Asks(f, a)
    ensures IsUpdate(f.kind)
    ensures !Negative(Handle(d, f, heap).1) ==> Told(a, Handle(d, f, heap).0, Granted(a.phase))
  {
    AsksKind(a);
    AsksOwned(a, f);
    ToldStays(a, d, f, heap, Rank(a.phase));
    BeginFields(a);
    hide GetLe32, GetLe16, PutLe32, PutLe16, StringAt, Checksum, HandleData, U.BeginPayload, Question, Asks;
  }

  lemma AsksOwned(a: U.State, f: Frame)
    requires Sound(a) && Asks(f, a)
    ensures Owned(f, a)
  {
    hide PutLe32, PutLe16, Checksum, U.BeginPayload;
  }

  /** Whatever frame of the update the device handles, what has been told stays true, and a grant
      tells the next thing. */
  lemma OwnedHandled(a: U.State, d: Sim, f: Frame, heap: Heap, rest: seq<Frame>)
    requires Sound(a) && Owned(f, a) && DeviceHolds(a, d, [f] + rest) && (f.kind == REBOOT ==> AllReboot(rest))
    ensures var (e, r) := Handle(d, f, heap);
            && DeviceHolds(a, e, rest)
            && (Asks(f, a) && (Attested(a, d) || !Negative(r)) ==> Attested(a, e))
  {
    assert ([f] + rest)[0] == f;
    if f.kind != REBOOT {
      hide Sound, Handle, Asks, Told, Checksum;
      AsksKind(a);
      ToldStays(a, d, f, heap, Rank(a.phase));
      if a.phase != U.Restarting {
        if Asks(f, a) {
          GrantTells(a, d, f, heap);
          if Attested(a, d) {
            ToldStays(a, d, f, heap, Granted(a.phase));
          }
        }
      } else {
        LabelledNow(a, d, f, heap);
      }
    } else {
      hide Sound, Asks, Checksum;
    }
  }

  lemma LabelledNow(a: U.State, d: Sim, f: Frame, heap: Heap)
    requires IsUpdate(f.kind) && a.phase == U.Restarting && Told(a, Handle(d, f, heap).0, Rank(a.phase))
    ensures Handle(d, f, heap).0.upgrading
  {
    hide Handle, Checksum;
  }

  // ----- The frames on the line -----

  ghost predicate Awaited(f: Frame, a: U.State, base: nat, k: nat) {
    (Owned(f, a) && Recent(f.sequence, base, k)) || (a.phase == U.Entering && Foreign(f.sequence, base))
  }

  ghost predicate QueueHolds(q: seq<Frame>, a: U.State, base: nat, k: nat)
    requires Sound(a) && k > 0
  {
    && (forall i :: 0 <= i < |q| ==> Awaited(q[i], a, base, k))
    && (forall i :: 0 <= i < |q| && q[i].sequence == S.Numbered(k) ==> Asks(q[i], a) && AllCurrent(q[i..], k))
    && (forall i :: 0 <= i < |q| && a.phase != U.Entering && q[i].kind == REBOOT ==> q[i].sequence == S.Numbered(k))
  }

  /** A grant of the last request is true, and finds only copies of that request on the line. */
  ghost predicate RepliesHold(replies: seq<Frame>, q: seq<Frame>, a: U.State, d: Sim, base: nat, k: nat)
    requires k > 0
  {
    && (forall i :: 0 <= i < |replies| ==>
          Foreign(replies[i].sequence, base) || Recent(replies[i].sequence, base, k))
    && (forall i :: 0 <= i < |replies| && replies[i].sequence == S.Numbered(k) ==>
          (Negative(replies[i]) || Attested(a, d)) && AllCurrent(q, k))
  }

  ghost predicate Spent(a: U.State, n: nat)
    requires Sound(a)
  {
    n + U.RoundsLeft(a) <= 4 * U.Left(a, 0) + 10
  }

  ghost predicate HostHolds(h: Host, running: bool, a: U.State)
    requires Sound(a)
  {
    && SameJob(h.upgrade, a)
    && (U.Active(h.upgrade) ==> h.upgrade == a)
    && (U.Active(h.upgrade) && running ==> h.session.pending.active && Asks(h.session.pending.frame, a))
    && (!U.Active(h.upgrade) ==> running && !h.session.pending.active)
    && (h.upgrade.phase == U.Complete ==> a.phase == U.Restarting)
    && h.upgrade.phase != U.Idle
  }

  ghost predicate Holds(l: Link, base: nat) {
    var k := l.host.session.stats.requests;
    && Sound(l.asked) && S.Consistent(l.host.session) && base < k && Spent(l.asked, k - base)
    && HostHolds(l.host, l.running, l.asked) && DeviceHolds(l.asked, l.device, l.toDevice)
    && QueueHolds(l.toDevice, l.asked, base, k) && RepliesHold(l.toHost, l.toDevice, l.asked, l.device, base, k)
    && (l.host.upgrade.phase == U.Complete ==> Rebooted(l.device))
  }

  lemma SpentIsShort(a: U.State, n: nat)
    requires Sound(a) && Spent(a, n)
    ensures n + 1 < S.PERIOD && n <= LONGEST
  {
    ChunksAtMostBytes(|a.image|, 0, a.chunkSize);
    hide Checksum, U.RoundsLeft, U.ChunksLeft;
  }

  lemma LosingOwned(q: seq<Frame>, i: nat, a: U.State, base: nat, k: nat)
    requires Sound(a) && k > 0 && QueueHolds(q, a, base, k)
    ensures QueueHolds(Without(q, i), a, base, k)
    ensures AllCurrent(q, k) ==> AllCurrent(Without(q, i), k)
    ensures AllReboot(q) ==> AllReboot(Without(q, i))
  {
    hide Sound, Asks, Awaited, S.Numbered;
    var r := Without(q, i);
    forall j | 0 <= j < |r| && r[j].sequence == S.Numbered(k)
      ensures Asks(r[j], a) && AllCurrent(r[j..], k)
    {
      var m := if i < |q| && j >= i then j + 1 else j;
      assert r[j] == q[m];
      forall n | 0 <= n < |r[j..]|
        ensures r[j..][n].sequence == S.Numbered(k)
      {
        var t := if i < |q| && j + n >= i then j + n + 1 else j + n;
        assert r[j..][n] == q[t] == q[m..][t - m];
      }
    }
  }

  // ----- The device and the line -----

  /** The head of the line, and that REBOOT is followed only by REBOOT. */
  lemma HeadOwned(q: seq<Frame>, a: U.State, base: nat, k: nat)
    requires Sound(a) && k > 0 && QueueHolds(q, a, base, k) && q != []
    ensures Awaited(q[0], a, base, k)
    ensures q[0].sequence == S.Numbered(k) ==> Asks(q[0], a) && AllCurrent(q, k)
    ensures a.phase != U.Entering && q[0].kind == REBOOT ==> AllReboot(q[1..])
  {
    hide Sound, Awaited, S.Numbered, Question;
    assert q[0..] == q;
  }

  lemma RepliesStay(replies: seq<Frame>, q: seq<Frame>, a: U.State, d: Sim, e: Sim, base: nat, k: nat)
    requires k > 0 && q != [] && RepliesHold(replies, q, a, d, base, k)
    requires q[0].sequence == S.Numbered(k) && Attested(a, d) ==> Attested(a, e)
    ensures RepliesHold(replies, q[1..], a, e, base, k)
  {
    hide Attested, Recent, Foreign, S.Numbered;
  }

  lemma ReplyJoins(replies: seq<Frame>, q: seq<Frame>, a: U.State, d: Sim, base: nat, k: nat, r: Frame)
    requires k > 0 && RepliesHold(replies, q, a, d, base, k)
    requires Foreign(r.sequence, base) || Recent(r.sequence, base, k)
    requires r.sequence == S.Numbered(k) ==> (Negative(r) || Attested(a, d)) && AllCurrent(q, k)
    ensures RepliesHold(replies + [r], q, a, d, base, k)
  {
    hide Attested, Recent, Foreign, S.Numbered, AllCurrent;
  }

  /** What the device makes of the head of the line. */
  lemma HeadHandled(l: Link, env: DeviceEnv, base: nat)
    requires Holds(l, base) && l.toDevice != []
    ensures var k, a, f := l.host.session.stats.requests, l.asked, l.toDevice[0];
            var (e, r) := Respond(l.device, f, env);
            && DeviceHolds(a, e, l.toDevice[1..])
            && (Foreign(f.sequence, base) || Recent(f.sequence, base, k))
            && (f.sequence == S.Numbered(k) ==>
                  AllCurrent(l.toDevice, k) && (Attested(a, l.device) || !Negative(r) ==> Attested(a, e)))
            && (l.host.upgrade.phase == U.Complete ==> Rebooted(e))
  {
    var k, a, f, rest := l.host.session.stats.requests, l.asked, l.toDevice[0], l.toDevice[1..];
    assert l.toDevice == [f] + rest;
    HeadOwned(l.toDevice, a, base, k);
    SpentIsShort(a, k - base);
    hide Sound, S.Numbered, S.Consistent, QueueHolds, RepliesHold, Spent, Checksum, Asks, HostHolds;
    if Owned(f, a) && Recent(f.sequence, base, k) {
      hide Handle, DeviceHolds, Attested;
      OwnedHandled(a, l.device, f, env.heap, rest);
      CompleteHandled(l, base, env.heap);
    } else {
      hide Respond;
      assert a.phase == U.Entering;
      assert l.host.upgrade.phase != U.Complete by { NotComplete(l, base); }
    }
  }

  lemma NotComplete(l: Link, base: nat)
    requires Holds(l, base) && l.asked.phase != U.Restarting
    ensures l.host.upgrade.phase != U.Complete
  {
    hide Sound, S.Consistent, QueueHolds, RepliesHold, Spent, DeviceHolds, Question;
  }

  /** Once the host is done, the device sees nothing but REBOOT. */
  lemma CompleteHandled(l: Link, base: nat, heap: Heap)
    requires Holds(l, base) && l.toDevice != [] && IsUpdate(l.toDevice[0].kind)
    ensures l.host.upgrade.phase == U.Complete ==> Rebooted(Handle(l.device, l.toDevice[0], heap).0)
  {
    if l.host.upgrade.phase == U.Complete {
      assert l.asked.phase == U.Restarting && l.toDevice[0].kind == REBOOT by {
        hide Sound, S.Consistent, QueueHolds, RepliesHold, Spent, Question, Checked;
      }
      RebootRests(l.device, l.toDevice[0], heap);
    }
  }

  lemma DeviceStepHolds(l: Link, env: DeviceEnv, lost: bool, base: nat)
    requires Holds(l, base)
    ensures Holds(DeviceStep(l, env, lost), base)
  {
    if l.toDevice != [] {
      var k, a, f, rest := l.host.session.stats.requests, l.asked, l.toDevice[0], l.toDevice[1..];
      var (e, r) := Respond(l.device, f, env);
      HeadHandled(l, env, base);
      AnswerNumbered(l.device, f, env);
      LosingOwned(l.toDevice, 0, a, base, k);
      assert Without(l.toDevice, 0) == rest;
      hide Sound, DeviceHolds, Spent, S.Numbered, S.Consistent, HostHolds, Respond, RepliesHold, QueueHolds, Attested,
        Recent, Foreign, NeedsMemory, Rebooted;
      RepliesStay(l.toHost, l.toDevice, a, l.device, e, base, k);
      if Negative(r) || Attested(a, e) {
        ReplyJoins(l.toHost, rest, a, e, base, k, r);
      } else {
        assert r.sequence != S.Numbered(k);
        ReplyJoins(l.toHost, rest, a, e, base, k, r);
      }
    }
  }

  lemma LoseRequestHolds(l: Link, i: nat, base: nat)
    requires Holds(l, base)
    ensures Holds(l.(toDevice := Without(l.toDevice, i)), base)
  {
    hide Sound, Spent, HostHolds, S.Consistent, QueueHolds, Without, AllReboot, AllCurrent, Told, Attested, Checked,
      S.Numbered, Recent, Foreign;
    LosingOwned(l.toDevice, i, l.asked, base, l.host.session.stats.requests);
  }

  lemma LoseReplyHolds(l: Link, i: nat, base: nat)
    requires Holds(l, base)
    ensures Holds(l.(toHost := Without(l.toHost, i)), base)
  {
    hide Sound, Spent, HostHolds, S.Consistent, QueueHolds, DeviceHolds, Attested, S.Numbered, Recent, Foreign,
      AllCurrent;
  }

  lemma ReportHolds(l: Link, payload: seq<byte>, base: nat)
    requires Holds(l, base)
    ensures Holds(l.(toHost := l.toHost + [Report(payload)]), base)
  {
    hide Sound, DeviceHolds, HostHolds, RepliesHold, QueueHolds, Spent, S.Consistent;
    ReplyJoins(l.toHost, l.toDevice, l.asked, l.device, base, l.host.session.stats.requests, Report(payload));
  }

  // ----- The host takes an answer -----

  lemma AcceptMoves(a: U.State, f: Frame)
    requires Sound(a)
    ensures var (w, status) := U.Accept(a, Question(a).kind, f);
            && SameJob(w, a) && (status != Ok ==> w.phase == U.Errored)
            && (status == Ok ==>
                  && !Negative(f) && U.Good(w) && U.Moves(a, w) && (w.phase == U.Complete <==> a.phase == U.Restarting)
                  && w.phase != U.Errored && w.phase != U.Entering && (Rank(w.phase) >= 2 ==> w.sessionId != 0)
                  && (Rank(w.phase) >= 3 ==> w.offset == |w.image|))
  {
    AsksKind(a);
    hide GetLe32, PutLe32, PutLe16, Checksum, Question;
  }

  lemma MoveSound(a: U.State, w: U.State, b: U.State)
    requires Sound(a) && U.Good(w) && U.Moves(a, w) && U.Active(w) && SameJob(w, a) && w.phase != U.Entering
    requires (Rank(w.phase) >= 2 ==> w.sessionId != 0) && (Rank(w.phase) >= 3 ==> w.offset == |w.image|)
    requires BuiltFrom(w, b)
    ensures Sound(b) && SameJob(b, a) && b.phase == w.phase && U.Left(b, 0) == U.Left(a, 0)
    ensures U.RoundsLeft(b) == U.RoundsLeft(w)
  {
    hide Checksum, U.ChunksLeft, U.Reserve;
  }

  lemma MoveReady(a: U.State, b: U.State, d: Sim, q: seq<Frame>)
    requires U.Active(a) && U.Active(b) && U.Moves(a, b) && SameJob(b, a) && Told(a, d, Granted(a.phase))
    ensures DeviceHolds(b, d, q)
  {
    hide Checksum;
  }

  /** The question that follows is asked of a device which is ready for it. */
  lemma MoveAsks(a: U.State, w: U.State, d: Sim)
    requires Sound(a) && U.Good(w) && U.Moves(a, w) && U.Active(w) && SameJob(w, a) && w.phase != U.Entering
    requires (Rank(w.phase) >= 2 ==> w.sessionId != 0) && (Rank(w.phase) >= 3 ==> w.offset == |w.image|)
    requires Told(a, d, Granted(a.phase))
    ensures var b := U.Build(w).0;
            && Sound(b) && SameJob(b, a) && b.phase == w.phase && U.RoundsLeft(b) < U.RoundsLeft(a)
            && U.Left(b, 0) == U.Left(a, 0) && forall q :: DeviceHolds(b, d, q)
  {
    var b := U.Build(w).0;
    BuildCounts(w);
    hide U.Build, U.Good, U.RoundsLeft, Told, DeviceHolds, Checksum, U.ChunksLeft;
    U.MoveProgress(a, w);
    MoveSound(a, w, b);
    forall q: seq<Frame>
      ensures DeviceHolds(b, d, q)
    {
      MoveReady(a, b, d, q);
    }
  }

  /** Frames of the update so far, that those of b can follow. */
  ghost predicate AllOwned(q: seq<Frame>, b: U.State, base: nat, k: nat) {
    forall i :: 0 <= i < |q| ==> Owned(q[i], b) && Recent(q[i].sequence, base, k) && q[i].kind != REBOOT
  }

  lemma QueueAdvances(q: seq<Frame>, b: U.State, base: nat, k: nat, f: Frame, sent: Option<Frame>)
    requires Sound(b) && k > base && AllOwned(q, b, base, k) && k + 1 - base < S.PERIOD && k + 1 <= base + LONGEST
    requires f.sequence == S.Numbered(k + 1) && Asks(f, b) && (sent.Some? ==> sent.value == f)
    ensures QueueHolds(Sending(q, sent), b, base, k + 1)
  {
    AsksOwned(b, f);
    hide Sound, Owned, S.Numbered, Asks;
    var r := Sending(q, sent);
    assert Recent(f.sequence, base, k + 1);
    forall i | 0 <= i < |r|
      ensures Owned(r[i], b) && Recent(r[i].sequence, base, k + 1)
      ensures r[i].sequence == S.Numbered(k + 1) ==> Asks(r[i], b) && AllCurrent(r[i..], k + 1)
      ensures r[i].kind == REBOOT ==> r[i].sequence == S.Numbered(k + 1)
    {
      if i < |q| {
        OldIsNotCurrent(q[i].sequence, base, k);
      } else {
        assert r[i..] == [f];
      }
    }
  }

  lemma RepliesAge(r: seq<Frame>, q: seq<Frame>, q': seq<Frame>, a: U.State, b: U.State, d: Sim, base: nat, k: nat)
    requires k > base && RepliesHold(r, q, a, d, base, k) && k + 1 - base < S.PERIOD && k + 1 <= base + LONGEST
    ensures RepliesHold(r, q', b, d, base, k + 1)
  {
    hide S.Numbered, Attested, Recent, Foreign;
    forall i | 0 <= i < |r|
      ensures r[i].sequence != S.Numbered(k + 1)
      ensures Foreign(r[i].sequence, base) || Recent(r[i].sequence, base, k + 1)
    {
      OldIsNotCurrent(r[i].sequence, base, k);
    }
  }

  /** All that the update b needs to ask its question next. */
  ghost predicate Following(l: Link, base: nat, b: U.State) {
    var k := l.host.session.stats.requests;
    && Sound(b) && b.phase != U.Entering && k >= base && Spent(b, k - base + 1) && AllOwned(l.toDevice, b, base, k)
    && forall q :: DeviceHolds(b, l.device, q)
  }

  lemma AskHolds(l: Link, base: nat, b: U.State, h: Host, run: bool, f: Frame, sent: Option<Frame>)
    requires Holds(l, base) && Following(l, base, b)
    requires S.Consistent(h.session) && h.session.stats.requests == l.host.session.stats.requests + 1
    requires HostHolds(h, run, b) && h.upgrade.phase != U.Complete
    requires f.sequence == S.Numbered(h.session.stats.requests) && Asks(f, b) && (sent.Some? ==> sent.value == f)
    ensures Holds(l.(host := h, running := run, asked := b, toDevice := Sending(l.toDevice, sent)), base)
  {
    hide Sound, Spent, QueueHolds, RepliesHold, DeviceHolds, S.Numbered, S.Consistent, HostHolds, AllOwned, Asks;
    var k := l.host.session.stats.requests;
    SpentIsShort(b, k - base + 1);
    QueueAdvances(l.toDevice, b, base, k, f, sent);
    RepliesAge(l.toHost, l.toDevice, Sending(l.toDevice, sent), l.asked, b, l.device, base, k);
  }

  /** What is on the line when the update b follows a. */
  lemma FramesFollow(l: Link, base: nat, b: U.State)
    requires Holds(l, base) && l.asked.phase != U.Restarting && SameJob(b, l.asked)
    requires l.asked.phase == U.Entering ==> AllCurrent(l.toDevice, l.host.session.stats.requests)
    ensures AllOwned(l.toDevice, b, base, l.host.session.stats.requests)
  {
    var a, k, q := l.asked, l.host.session.stats.requests, l.toDevice;
    hide S.Numbered, S.Consistent, RepliesHold, Spent, HostHolds, DeviceHolds, Sound, Asks;
    assert Recent(S.Numbered(k), base, k);
    forall i | 0 <= i < |q|
      ensures Owned(q[i], b) && Recent(q[i].sequence, base, k) && q[i].kind != REBOOT
    {
      assert Awaited(q[i], a, base, k);
      if a.phase == U.Entering {
        AsksOwned(a, q[i]);
      }
    }
  }

  /** The host numbers the request of the update that w has moved on to. */
  lemma QueueHoldsOn(l: Link, base: nat, w: U.State, s: S.State, now: u64, queued: QueueStatus)
    requires Holds(l, base) && U.Good(w) && U.Active(w) && Following(l, base, U.Build(w).0)
    requires S.Consistent(s) && !s.pending.active && s.stats.requests == l.host.session.stats.requests
    ensures var b := U.Build(w).0;
            var (g, status, sent) := QueueRequest(Host(s, w), now, queued);
            var m := l.(asked := b, toDevice := Sending(l.toDevice, sent));
            && status == queued && g.upgrade == b && g.session.stats.requests == s.stats.requests + 1
            && Holds(m.(host := g, running := status == Ok), base)
            && (status != Ok ==> Holds(m.(host := FailUpgrade(g), running := true), base))
  {
    var b := U.Build(w).0;
    QueueNumbers(Host(s, w), now, queued);
    QuestionOf(w);
    BuildKeepsPhase(w);
    var (g, status, sent) := QueueRequest(Host(s, w), now, queued);
    FinishKeepsSession(g.(upgrade := b.(phase := U.Errored)));
    hide QueueRequest, U.Build, Sound, S.Consistent, S.Numbered, U.Good, Following, Holds, FinishUpgrade, Question;
    assert Sound(b) by { FollowingSound(l, base, b); }
    assert Asks(g.session.pending.frame, b);
    AskHolds(l, base, b, g, status == Ok, g.session.pending.frame, sent);
    if status != Ok {
      AskHolds(l, base, b, FailUpgrade(g), true, g.session.pending.frame, sent);
    }
  }

  lemma FollowingSound(l: Link, base: nat, b: U.State)
    requires Following(l, base, b)
    ensures Sound(b)
  {
    hide Sound, DeviceHolds, AllOwned, Spent;
  }

  /** What the tracker makes of a frame. */
  lemma FrameTaken(s: S.State, f: Frame)
    requires S.Consistent(s)
    ensures var (t, status) := S.Accept(s, f);
            && S.Consistent(t) && t.stats.requests == s.stats.requests
            && (if status == Ok then s.pending.active && !t.pending.active && s.stats.requests > 0
                                     && f.sequence == S.Numbered(s.stats.requests)
                else t.pending == s.pending)
  {
    hide S.Numbered;
  }

  /** A tracker that has only turned counters is of no concern. */
  lemma TurnHolds(l: Link, base: nat, s: S.State)
    requires Holds(l, base) && S.Consistent(s) && s.pending == l.host.session.pending
    requires s.stats.requests == l.host.session.stats.requests
    ensures Holds(l.(host := l.host.(session := s)), base)
  {
    hide Sound, DeviceHolds, QueueHolds, RepliesHold, Spent, S.Consistent, Question;
  }

  lemma PopHolds(l: Link, base: nat)
    requires Holds(l, base) && l.toHost != []
    ensures Holds(l.(toHost := l.toHost[1..]), base)
  {
    LoseReplyHolds(l, 0, base);
    assert Without(l.toHost, 0) == l.toHost[1..];
  }

  /** The update ends: with an error, or complete when REBOOT has been granted. */
  lemma EndHolds(l: Link, base: nat, s: S.State, w: U.State)
    requires Holds(l, base) && l.running && SameJob(w, l.asked)
    requires w.phase == U.Errored || (w.phase == U.Complete && l.asked.phase == U.Restarting && Rebooted(l.device))
    requires S.Consistent(s) && s.stats.requests == l.host.session.stats.requests && !s.pending.active
    ensures Holds(l.(host := FinishUpgrade(Host(s, w))), base)
  {
    FinishKeepsSession(Host(s, w));
    hide Sound, DeviceHolds, QueueHolds, RepliesHold, Spent, S.Consistent, FinishUpgrade, Question;
  }

  /** The host moves on to its next request. */
  lemma MoveHolds(l: Link, base: nat, s: S.State, w: U.State, now: u64, queued: QueueStatus)
    requires Holds(l, base) && l.asked.phase != U.Restarting && Told(l.asked, l.device, Granted(l.asked.phase))
    requires AllCurrent(l.toDevice, l.host.session.stats.requests)
    requires U.Good(w) && U.Moves(l.asked, w) && U.Active(w) && SameJob(w, l.asked) && w.phase != U.Entering
    requires (Rank(w.phase) >= 2 ==> w.sessionId != 0) && (Rank(w.phase) >= 3 ==> w.offset == |w.image|)
    requires S.Consistent(s) && !s.pending.active && s.stats.requests == l.host.session.stats.requests
    ensures var (g, status, sent) := QueueRequest(Host(s, w), now, queued);
            && g.upgrade == U.Build(w).0 && g.session.stats.requests == s.stats.requests + 1
            && Holds(l.(host := g, running := status == Ok, asked := g.upgrade, toDevice := Sending(l.toDevice, sent)),
                     base)
  {
    var b := U.Build(w).0;
    MoveAsks(l.asked, w, l.device);
    FramesFollow(l, base, b);
    assert Following(l, base, b) by {
      hide U.Build, U.Good, U.RoundsLeft, Sound, QueueHolds, RepliesHold, HostHolds, S.Consistent, DeviceHolds, Told,
        AllOwned, U.ChunksLeft, SameJob;
    }
    hide Holds, U.Build, QueueRequest, Following;
    QueueHoldsOn(l, base, w, s, now, queued);
  }

  /** The frame is taken for the answer to the request in flight. */
  ghost predicate Takes(l: Link) {
    && l.toHost != [] && l.running && U.Active(l.host.upgrade) && !IsTelemetry(l.toHost[0])
    && S.Accept(l.host.session, l.toHost[0]).1 == Ok
  }

  /** Where it takes the tracker and the update. */
  function Taken(l: Link): Host
    requires l.toHost != []
  {
    Host(S.Accept(l.host.session, l.toHost[0]).0,
         U.Accept(l.host.upgrade, l.host.session.pending.frame.kind, l.toHost[0]).0)
  }

  ghost predicate Over(l: Link)
    requires l.toHost != []
  {
    !U.Active(Taken(l).upgrade)
  }

  lemma TakenHost(l: Link, base: nat)
    requires Holds(l, base) && Takes(l)
    ensures var (a, s, w) := (l.asked, Taken(l).session, Taken(l).upgrade);
            && S.Consistent(s) && !s.pending.active && s.stats.requests == l.host.session.stats.requests
            && l.host.upgrade == a && SameJob(w, a) && AllCurrent(l.toDevice, l.host.session.stats.requests)
            && (if Over(l) then w.phase == U.Errored || (w.phase == U.Complete && a.phase == U.Restarting
                                                         && Rebooted(l.device))
                else U.Good(w) && U.Moves(a, w) && w.phase != U.Entering && (Rank(w.phase) >= 2 ==> w.sessionId != 0)
                     && (Rank(w.phase) >= 3 ==> w.offset == |w.image|) && a.phase != U.Restarting
                     && Told(a, l.device, Granted(a.phase)))
  {
    var a, f := l.asked, l.toHost[0];
    assert Sound(a) && l.host.upgrade == a && l.host.session.pending.frame.kind == Question(a).kind
           && S.Consistent(l.host.session) by {
      hide Sound, DeviceHolds, QueueHolds, RepliesHold, Spent, S.Consistent, Question;
    }
    AcceptMoves(a, f);
    FrameTaken(l.host.session, f);
    GrantIsTrue(l, base);
    hide Holds, Sound, S.Consistent, S.Accept, U.Accept, Question, Rebooted, Told, U.Good, SameJob, IsTelemetry, Rank,
      Granted, Negative, AllCurrent;
  }

  /** What the driver does then. */
  lemma DriverTakes(l: Link, now: u64, queued: QueueStatus)
    requires Takes(l)
    ensures var (g, status, sent) := OnUpgradeFrame(l.host, l.toHost[0], now, queued);
            if Over(l) then (g, status, sent) == (FinishUpgrade(Taken(l)), Ok, None)
            else (g, status, sent) == QueueRequest(Taken(l), now, queued)
  {
    AcceptEnds(l.host.upgrade, l.host.session.pending.frame.kind, l.toHost[0]);
    hide S.Accept, U.Accept, QueueRequest, FinishUpgrade, IsTelemetry;
  }

  lemma AcceptEnds(u: U.State, kind: byte, f: Frame)
    requires U.Active(u)
    ensures var (w, status) := U.Accept(u, kind, f); U.Active(w) <==> status == Ok && w.phase != U.Complete
  {
    hide GetLe32;
  }

  lemma AnswerHolds(l: Link, base: nat, now: u64, queued: QueueStatus)
    requires Holds(l, base) && Takes(l)
    ensures Holds(ReceiveStep(l, now, queued), base)
  {
    var rest := l.(toHost := l.toHost[1..]);
    TakenHost(l, base);
    DriverTakes(l, now, queued);
    PopHolds(l, base);
    assert l.running && U.Active(l.host.upgrade);
    hide Holds, S.Consistent, Taken, QueueRequest, FinishUpgrade, Rebooted, Told, U.Good, SameJob, U.Build, U.Moves,
      OnUpgradeFrame, Takes, AllCurrent, Rank, Granted;
    if Over(l) {
      EndHolds(rest, base, Taken(l).session, Taken(l).upgrade);
      FinishKeepsSession(Taken(l));
    } else {
      MoveHolds(rest, base, Taken(l).session, Taken(l).upgrade, now, queued);
    }
  }

  lemma GrantIsTrue(l: Link, base: nat)
    requires Holds(l, base) && l.toHost != [] && l.host.session.stats.requests > 0
    requires l.toHost[0].sequence == S.Numbered(l.host.session.stats.requests)
    ensures AllCurrent(l.toDevice, l.host.session.stats.requests)
    ensures !Negative(l.toHost[0]) ==> Attested(l.asked, l.device)
  {
    hide Sound, DeviceHolds, QueueHolds, Spent, S.Consistent, HostHolds, Attested, S.Numbered;
  }

  /** Any other frame is passed over. */
  lemma PassesOver(l: Link, now: u64, queued: QueueStatus)
    requires l.running && l.toHost != [] && !Takes(l) && (!U.Active(l.host.upgrade) ==> !l.host.session.pending.active)
    ensures var (s, status) := S.Accept(l.host.session, l.toHost[0]);
            var m, rest := ReceiveStep(l, now, queued), l.(toHost := l.toHost[1..]);
            m == rest || (status != Ok && m == rest.(host := l.host.(session := s)))
  {
    hide U.Accept, QueueRequest, FinishUpgrade, IsTelemetry;
  }

  lemma ReceiveStepHolds(l: Link, base: nat, now: u64, queued: QueueStatus)
    requires Holds(l, base)
    ensures Holds(ReceiveStep(l, now, queued), base)
  {
    if l.running && l.toHost != [] {
      hide Holds, S.Accept, S.Consistent, ReceiveStep, Takes;
      var f := l.toHost[0];
      PopHolds(l, base);
      HostSettled(l, base);
      FrameTaken(l.host.session, f);
      if Takes(l) {
        AnswerHolds(l, base, now, queued);
      } else {
        PassesOver(l, now, queued);
        var (s, status) := S.Accept(l.host.session, f);
        if status != Ok {
          TurnHolds(l.(toHost := l.toHost[1..]), base, s);
        }
      }
    }
  }

  lemma HostSettled(l: Link, base: nat)
    requires Holds(l, base)
    ensures S.Consistent(l.host.session)
    ensures U.Active(l.host.upgrade) ==> l.host.upgrade == l.asked
    ensures l.running ==> (U.Active(l.host.upgrade) <==> l.host.session.pending.active)
  {
    hide Sound, DeviceHolds, QueueHolds, RepliesHold, Spent, S.Consistent, Question;
  }

  // ----- The host's timer -----

  lemma AgainHolds(l: Link, base: nat, s: S.State, f: Frame, run: bool, sent: Option<Frame>)
    requires Holds(l, base) && U.Active(l.host.upgrade) && l.running
    requires S.Consistent(s) && s.pending.active && s.stats.requests == l.host.session.stats.requests
    requires s.pending.frame == f && f == S.Retry(l.host.session.pending.frame) && (sent.Some? ==> sent.value == f)
    ensures Holds(l.(host := l.host.(session := s), running := run, toDevice := Sending(l.toDevice, sent)), base)
  {
    var k, a, q := l.host.session.stats.requests, l.asked, l.toDevice;
    assert Sound(a) && Asks(f, a) && f.sequence == S.Numbered(k) && Recent(f.sequence, base, k) by {
      hide Sound, DeviceHolds, QueueHolds, RepliesHold, Spent, Question;
    }
    AgainQueued(q, a, base, k, f);
    HoldsGrows(a, l.device, q, f);
    hide Sound, DeviceHolds, QueueHolds, Spent, S.Numbered, S.Consistent, Attested, Recent, Foreign, Question;
    assert AllCurrent(q, k) ==> AllCurrent(q + [f], k);
  }

  lemma AgainQueued(q: seq<Frame>, a: U.State, base: nat, k: nat, f: Frame)
    requires Sound(a) && k > 0 && QueueHolds(q, a, base, k)
    requires f.sequence == S.Numbered(k) && Asks(f, a) && Recent(f.sequence, base, k)
    ensures QueueHolds(q + [f], a, base, k)
  {
    AsksOwned(a, f);
    hide Sound, Owned, S.Numbered, Asks, Recent, Foreign;
    var r := q + [f];
    forall i | 0 <= i < |r| && r[i].sequence == S.Numbered(k)
      ensures Asks(r[i], a) && AllCurrent(r[i..], k)
    {
      if i < |q| {
        assert r[i..] == q[i..] + [f];
      } else {
        assert r[i..] == [f];
      }
    }
  }

  lemma HoldsGrows(a: U.State, d: Sim, q: seq<Frame>, f: Frame)
    requires Sound(a) && DeviceHolds(a, d, q) && Asks(f, a)
    ensures DeviceHolds(a, d, q + [f])
  {
    AsksKind(a);
    hide Sound, Question, Told, Checked;
  }

  /** A recovery asks for the device's offset, and the device is as ready for that as before. */
  lemma RecoveryFollows(l: Link, base: nat, w: U.State)
    requires Holds(l, base) && U.BeginRecovery(l.asked) == (w, Ok)
    ensures U.Good(w) && U.Active(w) && U.Build(w).0 == w && SameJob(w, l.asked) && Following(l, base, w)
  {
    var a := l.asked;
    assert Sound(a) && a.phase != U.Entering && a.phase != U.Restarting by {
      hide DeviceHolds, QueueHolds, RepliesHold, Spent, S.Consistent, HostHolds;
    }
    assert w == a.(phase := U.Recovering, recoveries := a.recoveries + 1);
    assert Sound(w) by { hide Holds, Checksum; }
    RecoveryShortens(a, w);
    FramesFollow(l, base, w);
    assert DeviceHolds(a, l.device, l.toDevice) && Spent(a, l.host.session.stats.requests - base) by {
      hide DeviceHolds, QueueHolds, RepliesHold, Spent, S.Consistent, HostHolds, Sound;
    }
    hide Holds, AllOwned, U.RoundsLeft, U.ChunksLeft, Checksum;
    forall q: seq<Frame>
      ensures DeviceHolds(w, l.device, q)
    {
    }
  }

  lemma TimeoutHolds(l: Link, base: nat, s: S.State, now: u64, queued: QueueStatus)
    requires Holds(l, base) && U.Active(l.host.upgrade) && l.running && l.host.upgrade == l.asked
    requires S.Consistent(s) && !s.pending.active && s.stats.requests == l.host.session.stats.requests
    ensures var (g, sent) := OnUpgradeTimeout(l.host.(session := s), now, queued);
            var asked := if g.session.stats.requests > s.stats.requests then U.BeginRecovery(l.asked).0 else l.asked;
            Holds(l.(host := g, asked := asked, toDevice := Sending(l.toDevice, sent)), base)
  {
    var a := l.asked;
    var (w, recovering) := U.BeginRecovery(a);
    hide Holds, QueueRequest, U.Build, S.Consistent, Following, U.Good;
    if recovering == Ok {
      RecoveryFollows(l, base, w);
      QueueHoldsOn(l, base, w, s, now, queued);
      var (g, status, sent) := QueueRequest(Host(s, w), now, queued);
      FinishKeepsSession(g.(upgrade := g.upgrade.(phase := U.Errored)));
      hide FinishUpgrade;
    } else {
      EndHolds(l, base, s, w.(phase := U.Errored));
      FinishKeepsSession(Host(s, w.(phase := U.Errored)));
      hide FinishUpgrade;
    }
  }

  lemma TickStepHolds(l: Link, base: nat, now: u64, queued: QueueStatus)
    requires Holds(l, base)
    ensures Holds(TickStep(l, now, queued), base)
  {
    hide Holds, S.Tick, OnUpgradeTimeout, S.Consistent;
    var (s, status, again) := S.Tick(l.host.session, now, queued);
    HostSettled(l, base);
    TickEffect(l.host.session, now, queued);
    if l.running {
      if status == Timeout {
        TimeoutHolds(l, base, s, now, queued);
      } else if again.Some? {
        AgainHolds(l, base, s, again.value, status == Ok, Reaching(again.value, queued));
      } else {
        assert TickStep(l, now, queued) == l;
      }
    }
  }

  // ----- Whole runs -----

  /** Every step of device, host and line keeps it. */
  lemma NextHolds(l: Link, step: Step, base: nat)
    requires Holds(l, base)
    ensures Holds(Next(l, step), base)
  {
    hide Holds, DeviceStep, ReceiveStep, TickStep;
    match step {
      case DeviceHandles(env, lost) => DeviceStepHolds(l, env, lost, base);
      case DeviceReports(payload) => ReportHolds(l, payload, base);
      case HostReceives(now, queued) => ReceiveStepHolds(l, base, now, queued);
      case HostTicks(now, queued) => TickStepHolds(l, base, now, queued);
      case LoseToDevice(i) => LoseRequestHolds(l, i, base);
      case LoseToHost(i) => LoseReplyHolds(l, i, base);
    }
  }

  lemma {:induction false} RunHolds(l: Link, steps: seq<Step>, base: nat)
    requires Holds(l, base)
    ensures Holds(Run(l, steps), base)
    decreases |steps|
  {
    hide Holds, Next;
    if steps != [] {
      NextHolds(l, steps[0], base);
      RunHolds(Next(l, steps[0]), steps[1..], base);
    }
  }

  /** A started update on a tracker with nothing in flight, in front of any device, with frames on the
      line that carry no number it is going to use. */
  ghost predicate Startable(x: Setting) {
    && S.Consistent(x.session) && !x.session.pending.active
    && U.Good(x.update) && x.update.phase == U.Entering
    && |x.update.image| <= MAX_IMAGE && x.update.imageCrc == Checksum(x.update.image)
    && AllForeign(x.toDevice, x.session.stats.requests) && AllForeign(x.toHost, x.session.stats.requests)
  }

  lemma StartSound(u: U.State)
    requires U.Good(u) && u.phase == U.Entering && |u.image| <= MAX_IMAGE && u.imageCrc == Checksum(u.image)
    ensures Sound(u) && U.Build(u).0 == u && Spent(u, 1) && forall d, q :: DeviceHolds(u, d, q)
  {
    FirstBudget(u);
    hide PutLe32, PutLe16, Checksum, U.ChunksLeft, U.Reserve;
  }

  lemma FirstFrames(u: U.State, q: seq<Frame>, f: Frame, sent: Option<Frame>, base: nat)
    requires Sound(u) && Asks(f, u) && u.phase == U.Entering && f.sequence == S.Numbered(base + 1)
    requires AllForeign(q, base) && (sent.Some? ==> sent.value == f)
    ensures QueueHolds(Sending(q, sent), u, base, base + 1)
  {
    AsksOwned(u, f);
    hide S.Numbered, Owned, Sound, Asks;
    assert Recent(f.sequence, base, base + 1);
    var r := Sending(q, sent);
    forall i | 0 <= i < |r|
      ensures Awaited(r[i], u, base, base + 1)
      ensures r[i].sequence == S.Numbered(base + 1) ==> Asks(r[i], u) && AllCurrent(r[i..], base + 1)
    {
      if i < |q| {
        assert Foreign(q[i].sequence, base);
      } else {
        assert r[i..] == [f];
      }
    }
  }

  lemma FirstAnswers(r: seq<Frame>, q: seq<Frame>, u: U.State, d: Sim, base: nat)
    requires AllForeign(r, base)
    ensures RepliesHold(r, q, u, d, base, base + 1)
  {
    hide S.Numbered, Attested, Recent;
    forall i | 0 <= i < |r|
      ensures r[i].sequence != S.Numbered(base + 1)
    {
      assert Foreign(r[i].sequence, base);
    }
  }

  lemma FirstHolds(h: Host, u: U.State, status: Status)
    requires Sound(u) && u.phase == U.Entering && h.upgrade == u && S.Consistent(h.session)
    requires h.session.pending.active == (status == Ok) && Asks(h.session.pending.frame, u)
    ensures var g := if status == Ok then h else FailUpgrade(h);
            && HostHolds(g, true, u) && S.Consistent(g.session) && g.session.stats.requests == h.session.stats.requests
            && g.upgrade.phase != U.Complete
  {
    FinishKeepsSession(h.(upgrade := u.(phase := U.Errored)));
    hide Sound, S.Consistent, Question, FinishUpgrade;
  }

  lemma LaunchHolds(x: Setting)
    requires Startable(x)
    ensures Holds(Launch(x), x.session.stats.requests)
  {
    hide Sound, DeviceHolds, Spent, S.Consistent, S.Numbered, QueueRequest, U.Build, QueueHolds, RepliesHold, Checksum,
      U.Good, FailUpgrade, Question, AllForeign, HostHolds, S.Transition, Rebooted;
    var t, u, base := S.Transition(x.session, S.StartUpgrade).0, x.update, x.session.stats.requests;
    StartConsistent(x.session);
    StartSound(u);
    QueueNumbers(Host(t, u), x.now, x.queued);
    var (h, status, sent) := QueueRequest(Host(t, u), x.now, x.queued);
    QuestionOf(u);
    FirstFrames(u, x.toDevice, h.session.pending.frame, sent, base);
    FirstAnswers(x.toHost, Sending(x.toDevice, sent), u, x.device, base);
    FirstHolds(h, u, status);
  }

  /** Whatever session the device has and whatever is on its way to it: when the host reports the
      update complete, size and checksum of the device's flash are those of the image, the device
      runs under the requested version, and it has left its bootloader and closed the session. The
      host has waited for a FW_VERIFY of its own. */
  lemma CompleteMeansVerified(x: Setting, steps: seq<Step>)
    requires Startable(x)
    ensures var l := Run(Launch(x), steps);
            l.host.upgrade.phase == U.Complete ==>
              && |l.device.flash| == |x.update.image| && Checksum(l.device.flash) == Checksum(x.update.image)
              && l.device.version == x.update.version && Rebooted(l.device)
  {
    LaunchHolds(x);
    RunHolds(Launch(x), steps, x.session.stats.requests);
    QueueKeepsJob(Host(S.Transition(x.session, S.StartUpgrade).0, x.update), x.now, x.queued);
    assert SameJob(Launch(x).host.upgrade, x.update) by { hide QueueRequest, S.Transition, Startable; }
    hide Holds, Startable, Run, Launch, Checksum;
    RunKeepsJob(Launch(x), steps);
    HoldsVerified(Run(Launch(x), steps), x.session.stats.requests);
  }

  lemma HoldsVerified(l: Link, base: nat)
    requires Holds(l, base)
    ensures SameJob(l.host.upgrade, l.asked)
    ensures l.host.upgrade.phase == U.Complete ==>
              Checked(l.asked, l.device) && l.device.version == l.asked.version && Rebooted(l.device)
  {
    hide Sound, QueueHolds, RepliesHold, Spent, S.Consistent, Checksum, Question;
  }
}
