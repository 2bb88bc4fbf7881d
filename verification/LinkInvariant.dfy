/** The invariant of the lossy link, and that every step of device, host and line keeps it. */
module LinkInvariant {
  import opened Wire
  import opened Crc32
  import opened Simulator
  import opened Driver
  import opened LossyLink
  import opened Resumption
  import S = Session
  import U = Upgrade

  /** More requests than one update takes. */
  const LONGEST: nat := 4 * MAX_IMAGE + 10

  /** n is the number of a request of this update: after `base`, up to the k-th of the session. */
  ghost predicate Recent(n: u32, base: nat, k: nat) {
    exists j :: base < j <= k && S.Numbered(j) == n
  }

  /** n is no number that this update can use: it belongs to an earlier request, or to none. */
  ghost predicate Foreign(n: u32, base: nat) {
    forall j :: base < j <= base + LONGEST ==> S.Numbered(j) != n
  }

  ghost predicate AllCurrent(q: seq<Frame>, k: nat)
    requires k > 0
  {
    forall i :: 0 <= i < |q| ==> q[i].sequence == S.Numbered(k)
  }

  /** What was on the line before the update goes out of the way of its first request. */
  ghost predicate Expected(f: Frame, a: U.State, base: nat, k: nat) {
    (RequestOk(f, a) && Recent(f.sequence, base, k)) || (a.phase == U.Entering && Foreign(f.sequence, base))
  }

  ghost predicate RequestsOk(q: seq<Frame>, a: U.State, base: nat, k: nat)
    requires Sound(a) && k > 0
  {
    && (forall i :: 0 <= i < |q| ==> Expected(q[i], a, base, k))
    && (forall i :: 0 <= i < |q| && q[i].sequence == S.Numbered(k) ==> Asks(q[i], a) && AllCurrent(q[i..], k))
    && (forall i :: 0 <= i < |q| && a.phase != U.Entering && q[i].kind == REBOOT ==> q[i].sequence == S.Numbered(k))
  }

  predicate Negative(f: Frame) {
    f.kind == NACK || f.kind == ERROR
  }

  /** The refusal of a FW_BEGIN for want of memory. */
  ghost predicate Refusal(f: Frame, a: U.State) {
    a.phase == U.Beginning && f.kind == NACK
  }

  ghost predicate RepliesOk(replies: seq<Frame>, q: seq<Frame>, a: U.State, d: Sim, starved: bool, base: nat, k: nat)
    requires Sound(a) && k > 0
  {
    && (forall i :: 0 <= i < |replies| ==>
          Foreign(replies[i].sequence, base)
          || (Recent(replies[i].sequence, base, k) && (Negative(replies[i]) ==> starved)))
    && (forall i :: 0 <= i < |replies| && replies[i].sequence == S.Numbered(k) ==>
          (ReplyOk(replies[i], a, d) || Refusal(replies[i], a)) && AllCurrent(q, k))
  }

  /** Every chunk is sent once, and once more for each recovery at most. */
  ghost predicate ChunksCounted(a: U.State)
    requires a.chunkSize > 0
  {
    var all := U.Left(a, 0);
    if Rank(a.phase) <= 1 then a.chunksSent == 0
    else if a.phase == U.Transferring then a.chunksSent + U.Left(a, a.offset) <= all + a.recoveries + 1
    else if a.phase == U.Recovering then a.chunksSent + U.Left(a, a.offset) <= all + a.recoveries
    else a.chunksSent <= all + a.recoveries
  }

  ghost predicate Budgeted(a: U.State, n: nat)
    requires Sound(a)
  {
    ChunksCounted(a) && n + U.RoundsLeft(a) <= 4 * U.Left(a, 0) + 10
  }

  /** The host waits for the answer to its last question, has stopped, or is done. */
  ghost predicate HostOk(h: Host, running: bool, a: U.State)
    requires Sound(a)
  {
    && h.upgrade == a.(phase := h.upgrade.phase)
    && (U.Active(h.upgrade) ==> h.upgrade.phase == a.phase)
    && (U.Active(h.upgrade) && running ==> h.session.pending.active && Asks(h.session.pending.frame, a))
    && (!U.Active(h.upgrade) ==> running && !h.session.pending.active)
    && (h.upgrade.phase == U.Complete ==> a.phase == U.Restarting)
    && h.upgrade.phase != U.Idle
  }

  /** An earlier session on the device is one to resume, also when everything on the line has
      reached it. */
  ghost predicate Resumes(a: U.State, d: Sim, q: seq<Frame>, lib: Library) {
    Listed(lib, a) && if a.phase == U.Entering then Calm(d, q, lib) else Shelved(d, lib)
  }

  ghost predicate Inv(l: Link, base: nat, lib: Library) {
    var k := l.host.session.stats.requests;
    && Sound(l.asked) && S.Consistent(l.host.session) && base < k && Budgeted(l.asked, k - base)
    && HostOk(l.host, l.running, l.asked) && DeviceOk(l.asked, l.device, l.toDevice)
    && Resumes(l.asked, l.device, l.toDevice, lib)
    && RequestsOk(l.toDevice, l.asked, base, k)
    && RepliesOk(l.toHost, l.toDevice, l.asked, l.device, l.starved, base, k)
    && (l.host.upgrade.phase == U.Complete ==> AllReboot(l.toDevice) && Rebooted(l.device))
  }

  lemma {:induction false} ChunksAtMostBytes(size: nat, offset: nat, chunk: nat)
    requires chunk > 0 && offset <= size
    ensures U.ChunksLeft(size, offset, chunk) <= size - offset
    decreases size - offset
  {
    if offset < size {
      if offset + chunk <= size {
        ChunksAtMostBytes(size, offset + chunk, chunk);
      }
    }
  }

  /** One update is far too short for its sequence numbers to repeat. */
  lemma NumbersDoNotRepeat(a: U.State, n: nat)
    requires Sound(a) && Budgeted(a, n)
    ensures n + 1 < S.PERIOD && n <= LONGEST
  {
    ChunksAtMostBytes(|a.image|, 0, a.chunkSize);
  }

  lemma OldIsNotCurrent(n: u32, base: nat, k: nat)
    requires k + 1 - base < S.PERIOD && k + 1 <= base + LONGEST && base <= k
    ensures Recent(n, base, k) || Foreign(n, base) ==> n != S.Numbered(k + 1)
    ensures Recent(n, base, k) ==> Recent(n, base, k + 1)
  {
    hide S.Numbered;
    if Recent(n, base, k) {
      var j :| base < j <= k && S.Numbered(j) == n;
      S.NumberedDistinct(j, k + 1);
    }
  }

  // ----- Losing a frame -----

  lemma LosingRequest(q: seq<Frame>, i: nat, a: U.State, base: nat, k: nat)
    requires Sound(a) && k > 0 && RequestsOk(q, a, base, k)
    ensures RequestsOk(Without(q, i), a, base, k)
    ensures AllCurrent(q, k) ==> AllCurrent(Without(q, i), k)
    ensures AllReboot(q) ==> AllReboot(Without(q, i))
  {
    hide Sound, Asks, Expected, S.Numbered;
    var r := Without(q, i);
    forall j | 0 <= j < |r| && r[j].sequence == S.Numbered(k)
      ensures Asks(r[j], a) && AllCurrent(r[j..], k)
    {
      var m := if i < |q| && j >= i then j + 1 else j;
      assert r[j] == q[m];
      forall n | 0 <= n < |r[j..]|
        ensures r[j..][n].sequence == S.Numbered(k)
      {
        var t := if i < |q| && j + n >= i then j + n + 1 else j + n;
        assert r[j..][n] == q[t] == q[m..][t - m];
      }
    }
  }

  lemma LosingReply(r: seq<Frame>, i: nat, q: seq<Frame>, a: U.State, d: Sim, starved: bool, base: nat, k: nat)
    requires Sound(a) && k > 0 && RepliesOk(r, q, a, d, starved, base, k)
    ensures RepliesOk(Without(r, i), q, a, d, starved, base, k)
  {
    hide Sound, ReplyOk, Refusal, Recent, Foreign, AllCurrent, S.Numbered;
  }

  // ----- The device handles a request -----

  lemma RebootsStayTogether(q: seq<Frame>, a: U.State, base: nat, k: nat)
    requires Sound(a) && k > 0 && RequestsOk(q, a, base, k) && a.phase != U.Entering
    ensures Closing(q)
  {
    hide Expected, S.Numbered, Sound;
    forall i, j | 0 <= i < j < |q| && q[i].kind == REBOOT
      ensures q[j].kind == REBOOT
    {
      assert AllCurrent(q[i..], k) && q[i..][j - i] == q[j];
      assert Asks(q[i], a) && Asks(q[j], a);
    }
  }

  lemma HeadRequest(q: seq<Frame>, a: U.State, base: nat, k: nat)
    requires Sound(a) && k > 0 && RequestsOk(q, a, base, k) && q != []
    ensures Expected(q[0], a, base, k)
    ensures q[0].sequence == S.Numbered(k) ==> Asks(q[0], a) && AllCurrent(q, k)
  {
    hide Sound, Expected, S.Numbered, Asks;
    assert q[0..] == q;
  }

  lemma OldReplies(replies: seq<Frame>, q: seq<Frame>, a: U.State, d: Sim, e: Sim, starved: bool, now: bool, base: nat,
                   k: nat)
    requires Sound(a) && k > 0 && q != [] && RepliesOk(replies, q, a, d, starved, base, k) && (starved ==> now)
    requires q[0].sequence == S.Numbered(k) ==> forall x :: ReplyOk(x, a, d) ==> ReplyOk(x, a, e)
    ensures RepliesOk(replies, q[1..], a, e, now, base, k)
  {
    hide Sound, ReplyOk, Refusal, Recent, Foreign, S.Numbered;
  }

  lemma NewReply(replies: seq<Frame>, rest: seq<Frame>, a: U.State, e: Sim, starved: bool, base: nat, k: nat, r: Frame)
    requires Sound(a) && k > 0 && RepliesOk(replies, rest, a, e, starved, base, k)
    requires Foreign(r.sequence, base) || (Recent(r.sequence, base, k) && (Negative(r) ==> starved))
    requires r.sequence == S.Numbered(k) ==> (ReplyOk(r, a, e) || Refusal(r, a)) && AllCurrent(rest, k)
    ensures RepliesOk(replies + [r], rest, a, e, starved, base, k)
  {
    hide Sound, ReplyOk, Refusal, Recent, Foreign, S.Numbered, AllCurrent;
  }

  lemma AnswerNumbered(d: Sim, f: Frame, env: DeviceEnv)
    ensures Respond(d, f, env).1.sequence == f.sequence
  {
    hide GetLe32, GetLe16, PutLe32, PutLe16, Checksum, StringAt, FirstZero;
  }

  /** The answer to a frame of this update joins those on the line. */
  lemma RepliesSurvive(l: Link, heap: Heap, base: nat)
    requires l.toDevice != [] && IsUpdate(l.toDevice[0].kind) && Sound(l.asked) && l.host.session.stats.requests > 0
    requires RequestsOk(l.toDevice, l.asked, base, l.host.session.stats.requests)
    requires RepliesOk(l.toHost, l.toDevice, l.asked, l.device, l.starved, base, l.host.session.stats.requests)
    requires Serves(l.asked, l.device, l.toDevice[0], heap, l.toDevice[1..])
    requires Recent(l.toDevice[0].sequence, base, l.host.session.stats.requests)
    ensures var (e, r) := Handle(l.device, l.toDevice[0], heap);
            var k, starved := l.host.session.stats.requests, l.starved || Starves(l.device, l.toDevice[0], heap);
            && RepliesOk(l.toHost, l.toDevice[1..], l.asked, e, starved, base, k)
            && RepliesOk(l.toHost + [r], l.toDevice[1..], l.asked, e, starved, base, k)
  {
    hide Sound, DeviceOk, ReplyOk, RequestOk, Recent, Foreign, S.Numbered, Handle, RequestsOk, Asks, RepliesOk,
      NeedsMemory;
    var k, f, a := l.host.session.stats.requests, l.toDevice[0], l.asked;
    var (e, r) := Handle(l.device, f, heap);
    var starved := l.starved || Starves(l.device, f, heap);
    HeadRequest(l.toDevice, a, base, k);
    OldReplies(l.toHost, l.toDevice, a, l.device, e, l.starved, starved, base, k);
    NewReply(l.toHost, l.toDevice[1..], a, e, starved, base, k, r);
  }

  /** The head of the line is served, and followed only by what may follow it. */
  lemma HeadServed(l: Link, heap: Heap, base: nat, lib: Library)
    requires Inv(l, base, lib) && l.toDevice != [] && RequestOk(l.toDevice[0], l.asked)
    requires l.asked.phase == U.Entering ==> l.toDevice[0].sequence == S.Numbered(l.host.session.stats.requests)
    ensures IsUpdate(l.toDevice[0].kind) && Serves(l.asked, l.device, l.toDevice[0], heap, l.toDevice[1..])
  {
    var k, a, f, rest := l.host.session.stats.requests, l.asked, l.toDevice[0], l.toDevice[1..];
    assert l.toDevice == [f] + rest;
    if a.phase != U.Entering {
      RebootsStayTogether(l.toDevice, a, base, k);
      assert f.kind == REBOOT ==> AllReboot(rest);
    }
    hide Sound, DeviceOk, RequestsOk, RepliesOk, Serves, HostOk, Budgeted, S.Numbered, Resumes, S.Consistent, Question;
    ServesRequest(a, l.device, f, heap, rest);
  }

  /** The device handles a frame of this update. */
  lemma ServeKeeps(l: Link, env: DeviceEnv, lost: bool, base: nat, lib: Library)
    requires Inv(l, base, lib) && l.toDevice != []
    requires RequestOk(l.toDevice[0], l.asked) && Recent(l.toDevice[0].sequence, base, l.host.session.stats.requests)
    requires l.asked.phase == U.Entering ==> l.toDevice[0].sequence == S.Numbered(l.host.session.stats.requests)
    ensures Inv(DeviceStep(l, env, lost), base, lib)
  {
    hide Sound, DeviceOk, RequestOk, Budgeted, S.Numbered, S.Consistent, HostOk, Handle, RepliesOk, RequestsOk, Calm,
      Shelved, Serves, Recent, NeedsMemory, Listed;
    var k, a, d, f, rest := l.host.session.stats.requests, l.asked, l.device, l.toDevice[0], l.toDevice[1..];
    assert l.toDevice == [f] + rest;
    HeadServed(l, env.heap, base, lib);
    ServedKeeps(a, d, f, env.heap, rest);
    ServeResumes(l, env, base, lib);
    RepliesSurvive(l, env.heap, base);
    LosingRequest(l.toDevice, 0, a, base, k);
    assert Without(l.toDevice, 0) == rest;
    assert AllReboot(l.toDevice) ==> f.kind == REBOOT;
    RebootRests(d, f, env.heap);
  }

  lemma RebootRests(d: Sim, f: Frame, heap: Heap)
    ensures f.kind == REBOOT ==> Rebooted(Handle(d, f, heap).0)
  {
    hide GetLe32, GetLe16, PutLe32, PutLe16, Checksum, StringAt;
  }

  lemma ServeResumes(l: Link, env: DeviceEnv, base: nat, lib: Library)
    requires Inv(l, base, lib) && l.toDevice != [] && IsUpdate(l.toDevice[0].kind) && RequestOk(l.toDevice[0], l.asked)
    requires DeviceOk(l.asked, Handle(l.device, l.toDevice[0], env.heap).0, l.toDevice[1..])
    ensures Resumes(l.asked, Handle(l.device, l.toDevice[0], env.heap).0, l.toDevice[1..], lib)
  {
    hide Sound, DeviceOk, RequestOk, Handle, RequestsOk, RepliesOk, Shelved, HostOk, Budgeted, S.Consistent;
    var d, f, rest := l.device, l.toDevice[0], l.toDevice[1..];
    assert l.toDevice == [f] + rest;
    if l.asked.phase != U.Entering {
      StaysShelved(l.asked, d, f, env.heap, rest, lib);
    } else {
      assert Respond(d, f, env).0 == Handle(d, f, env.heap).0;
    }
  }

  /** The device handles a frame that was on the line before this update. */
  lemma PassKeeps(l: Link, env: DeviceEnv, lost: bool, base: nat, lib: Library)
    requires Inv(l, base, lib) && l.toDevice != [] && l.asked.phase == U.Entering
             && Foreign(l.toDevice[0].sequence, base)
    ensures Inv(DeviceStep(l, env, lost), base, lib)
  {
    var k, a, d, f, rest := l.host.session.stats.requests, l.asked, l.device, l.toDevice[0], l.toDevice[1..];
    var (e, r) := Respond(d, f, env);
    var starved := l.starved || Starves(d, f, env.heap);
    NumbersDoNotRepeat(a, k - base);
    assert f.sequence != S.Numbered(k);
    AnswerNumbered(d, f, env);
    LosingRequest(l.toDevice, 0, a, base, k);
    assert Without(l.toDevice, 0) == rest;
    assert Calm(e, rest, lib) by { hide Respond, Shelved; }
    assert DeviceOk(a, e, rest) by { hide Respond, Sound, RequestsOk, RepliesOk; }
    hide Sound, DeviceOk, RequestOk, Budgeted, S.Numbered, S.Consistent, HostOk, Respond, RepliesOk, RequestsOk, Calm,
      ReplyOk, Recent, Foreign, Expected, NeedsMemory;
    OldReplies(l.toHost, l.toDevice, a, d, e, l.starved, starved, base, k);
    NewReply(l.toHost, rest, a, e, starved, base, k, r);
  }

  lemma FirstBudget(u: U.State)
    requires U.Good(u) && u.phase == U.Entering
    ensures U.RoundsLeft(u) == 4 * U.Left(u, 0) + 9
  {
  }

  /** While an update enters, the only number of its own on the line is the current one. */
  lemma FirstIsCurrent(a: U.State, n: u32, base: nat, k: nat)
    requires Sound(a) && a.phase == U.Entering && base < k && Budgeted(a, k - base) && Recent(n, base, k)
    ensures n == S.Numbered(k)
  {
    FirstBudget(a);
    hide S.Numbered, U.RoundsLeft, Checksum;
  }

  lemma DeviceStepKeeps(l: Link, env: DeviceEnv, lost: bool, base: nat, lib: Library)
    requires Inv(l, base, lib)
    ensures Inv(DeviceStep(l, env, lost), base, lib)
  {
    if l.toDevice != [] {
      var k, a, f := KeptRequests(l, base, lib), l.asked, l.toDevice[0];
      HeadRequest(l.toDevice, a, base, k);
      NumbersDoNotRepeat(a, k - base);
      hide Inv, DeviceStep, RequestOk, S.Numbered;
      if a.phase == U.Entering && Foreign(f.sequence, base) {
        PassKeeps(l, env, lost, base, lib);
      } else {
        if a.phase == U.Entering {
          FirstIsCurrent(a, f.sequence, base, k);
        }
        ServeKeeps(l, env, lost, base, lib);
      }
    }
  }

  // ----- The host takes an answer -----

  /** Where an answer to the request in flight takes the update. */
  function Advanced(a: U.State, d: Sim): U.State {
    var resumed := if d.offset == |a.image| then U.Ending else U.Transferring;
    match a.phase
    case Entering => a.(phase := U.Beginning)
    case Beginning => a.(phase := resumed, sessionId := d.sessionId, offset := d.offset)
    case Transferring => a.(phase := resumed, offset := d.offset)
    case Recovering => a.(phase := resumed, offset := d.offset)
    case Ending => a.(phase := U.Verifying)
    case Verifying => a.(phase := U.Activating)
    case Activating => a.(phase := U.Restarting)
    case Restarting => a.(phase := U.Complete)
    case _ => a
  }

  lemma ReplyAdvances(a: U.State, d: Sim, q: seq<Frame>, f: Frame)
    requires Sound(a) && DeviceOk(a, d, q) && ReplyOk(f, a, d)
    ensures U.Accept(a, Question(a).kind, f) == (Advanced(a, d), Ok)
  {
    hide GetLe32, PutLe32, PutLe16;
    ReportFields(d);
    WordField(d.offset);
    WordField(a.imageCrc);
  }

  lemma BuildCounts(w: U.State)
    ensures var b := U.Build(w).0;
            && b == w.(lastChunkEnd := b.lastChunkEnd, chunksSent := b.chunksSent)
            && (if w.phase == U.Transferring && w.offset < |w.image|
                then b.chunksSent == U.Truncate32(w.chunksSent + 1)
                     && b.lastChunkEnd == U.Truncate32(U.ChunkEnd(w, w.offset))
                else b.chunksSent == w.chunksSent)
  {
    hide PutLe32, PutLe16;
  }

  /** The next request is a sound one, and the device is ready for it. */
  lemma AdvanceIsSound(a: U.State, d: Sim, q: seq<Frame>, f: Frame)
    requires Sound(a) && DeviceOk(a, d, q) && ReplyOk(f, a, d) && a.phase != U.Restarting
    ensures var b := U.Build(Advanced(a, d)).0; Sound(b) && DeviceOk(b, d, q)
  {
    hide U.Build, Sound, DeviceOk, ReplyOk, Advanced;
    BuildCounts(Advanced(a, d));
    AskedSoundly(a, d, q, f, U.Build(Advanced(a, d)).0);
    AskedSuitably(a, d, q, f, U.Build(Advanced(a, d)).0);
  }

  /** b is w but for the counters that building a request sets. */
  ghost predicate BuiltFrom(w: U.State, b: U.State) {
    && b == w.(lastChunkEnd := b.lastChunkEnd, chunksSent := b.chunksSent)
    && (w.phase == U.Transferring && w.offset < |w.image| ==> b.lastChunkEnd == U.Truncate32(U.ChunkEnd(w, w.offset)))
  }

  lemma AskedSoundly(a: U.State, d: Sim, q: seq<Frame>, f: Frame, b: U.State)
    requires Sound(a) && DeviceOk(a, d, q) && ReplyOk(f, a, d) && a.phase != U.Restarting
             && BuiltFrom(Advanced(a, d), b)
    ensures Sound(b)
  {
    hide Checksum, Question, PutLe32, SessionReport;
  }

  lemma AskedSuitably(a: U.State, d: Sim, q: seq<Frame>, f: Frame, b: U.State)
    requires Sound(a) && DeviceOk(a, d, q) && ReplyOk(f, a, d) && a.phase != U.Restarting
             && BuiltFrom(Advanced(a, d), b)
    ensures DeviceOk(b, d, q)
  {
    hide Checksum, Question, PutLe32, SessionReport;
    if a.phase == U.Activating {
      assert d.flash == d.flash[..d.offset] == a.image;
    }
  }

  lemma RequestStaysOk(a: U.State, b: U.State, f: Frame)
    requires Sound(a) && Sound(b) && RequestOk(f, a) && Rank(a.phase) <= Rank(b.phase)
    requires b.image == a.image && LabelOf(b) == LabelOf(a)
    requires Rank(a.phase) >= 2 ==>
               b.sessionId == a.sessionId && (b.offset == a.offset || b.offset == U.ChunkEnd(a, a.offset))
    ensures RequestOk(f, b)
  {
    hide PutLe32, PutLe16, Checksum;
    if f.kind == FW_DATA {
      var p :| ChunkOf(f.payload, a, p);
      assert ChunkOf(f.payload, b, p);
    }
  }

  lemma QuestionIsOk(b: U.State, f: Frame)
    requires Sound(b) && Asks(f, b)
    ensures RequestOk(f, b)
  {
    hide PutLe32, PutLe16, Checksum;
    if b.phase == U.Transferring {
      assert ChunkOf(f.payload, b, b.offset);
    }
  }

  lemma AdvanceMoves(a: U.State, d: Sim, q: seq<Frame>, f: Frame)
    requires Sound(a) && DeviceOk(a, d, q) && ReplyOk(f, a, d) && a.phase != U.Restarting
    ensures U.Good(Advanced(a, d)) && U.Active(Advanced(a, d)) && U.Moves(a, Advanced(a, d))
  {
    hide PutLe32, PutLe16, Checksum, Question;
  }

  lemma AdvanceLeavesRounds(a: U.State, d: Sim, q: seq<Frame>, f: Frame)
    requires Sound(a) && DeviceOk(a, d, q) && ReplyOk(f, a, d) && a.phase != U.Restarting
    ensures var b := U.Build(Advanced(a, d)).0; Sound(b) && U.RoundsLeft(b) < U.RoundsLeft(a)
  {
    var w := Advanced(a, d);
    AdvanceIsSound(a, d, q, f);
    AdvanceMoves(a, d, q, f);
    U.MoveProgress(a, w);
    hide DeviceOk, ReplyOk, Question, U.ChunksLeft, U.Reserve, PutLe32, PutLe16, Checksum;
    assert U.RoundsLeft(U.Build(w).0) == U.RoundsLeft(w);
  }

  /** What an answer says about the device's offset. */
  ghost predicate OffsetTold(a: U.State, offset: nat) {
    && (a.phase == U.Transferring ==> offset == U.ChunkEnd(a, a.offset))
    && (a.phase == U.Recovering ==> offset == a.offset || offset == U.ChunkEnd(a, a.offset))
  }

  lemma AdvanceCountsChunks(a: U.State, d: Sim)
    requires Sound(a) && a.phase != U.Restarting && ChunksCounted(a) && OffsetTold(a, d.offset)
    ensures var b := U.Build(Advanced(a, d)).0; b.chunkSize == a.chunkSize && ChunksCounted(b)
  {
    hide U.ChunksLeft, U.Build, Checksum;
    var w, size, chunk := Advanced(a, d), |a.image|, a.chunkSize;
    ChunksAtMostBytes(size, 0, chunk);
    BuildCounts(w);
    if a.phase == U.Beginning {
      U.ChunksLeftMonotone(size, 0, d.offset, chunk);
    } else if a.phase == U.Transferring {
      U.ChunkEndLeft(a, a.offset);
    } else if a.phase == U.Recovering {
      U.ChunkEndLeft(a, a.offset);
    }
  }

  /** Requests of the update so far, that those of b can follow. */
  ghost predicate Ours(q: seq<Frame>, b: U.State, base: nat, k: nat) {
    forall i :: 0 <= i < |q| ==> RequestOk(q[i], b) && Recent(q[i].sequence, base, k) && q[i].kind != REBOOT
  }

  /** Queueing the next request behind those of the update so far, if it gets that far. */
  lemma RequestsAdvance(q: seq<Frame>, b: U.State, base: nat, k: nat, f: Frame, sent: Option<Frame>)
    requires Sound(b) && k > base && Ours(q, b, base, k) && k + 1 - base < S.PERIOD && k + 1 <= base + LONGEST
    requires f.sequence == S.Numbered(k + 1) && Asks(f, b) && (sent.Some? ==> sent.value == f)
    ensures RequestsOk(Sending(q, sent), b, base, k + 1)
  {
    QuestionIsOk(b, f);
    hide Sound, RequestOk, S.Numbered, Asks;
    var r := Sending(q, sent);
    assert Recent(f.sequence, base, k + 1);
    forall i | 0 <= i < |r|
      ensures RequestOk(r[i], b) && Recent(r[i].sequence, base, k + 1)
      ensures r[i].sequence == S.Numbered(k + 1) ==> Asks(r[i], b) && AllCurrent(r[i..], k + 1)
      ensures r[i].kind == REBOOT ==> r[i].sequence == S.Numbered(k + 1)
    {
      if i < |q| {
        OldIsNotCurrent(q[i].sequence, base, k);
      } else {
        assert r[i..] == [f];
      }
    }
  }

  lemma RepliesAdvance(r: seq<Frame>, q: seq<Frame>, q': seq<Frame>, a: U.State, b: U.State, d: Sim, starved: bool,
                       base: nat, k: nat)
    requires Sound(a) && Sound(b) && k > base && RepliesOk(r, q, a, d, starved, base, k)
    requires k + 1 - base < S.PERIOD && k + 1 <= base + LONGEST
    ensures RepliesOk(r, q', b, d, starved, base, k + 1)
  {
    hide Sound, S.Numbered, ReplyOk, Recent, Foreign;
    forall i | 0 <= i < |r|
      ensures r[i].sequence != S.Numbered(k + 1)
      ensures Foreign(r[i].sequence, base) || (Recent(r[i].sequence, base, k + 1) && (Negative(r[i]) ==> starved))
    {
      OldIsNotCurrent(r[i].sequence, base, k);
    }
  }

  /** All that the update b needs to ask its question next. */
  ghost predicate Ready(l: Link, base: nat, lib: Library, b: U.State) {
    var k := l.host.session.stats.requests;
    && Sound(b) && b.phase != U.Entering && Listed(lib, b) && Shelved(l.device, lib)
    && DeviceOk(b, l.device, l.toDevice) && k >= base && Budgeted(b, k - base + 1) && Ours(l.toDevice, b, base, k)
  }

  /** The link after the host has numbered the request f of update b, whether or not it could be
      queued. */
  lemma QueueKeeps(l: Link, base: nat, lib: Library, b: U.State, h: Host, run: bool, f: Frame, sent: Option<Frame>)
    requires Inv(l, base, lib) && Ready(l, base, lib, b)
    requires S.Consistent(h.session) && h.session.stats.requests == l.host.session.stats.requests + 1
    requires HostOk(h, run, b) && h.upgrade.phase != U.Complete
    requires f.sequence == S.Numbered(h.session.stats.requests) && Asks(f, b) && (sent.Some? ==> sent.value == f)
    ensures Inv(l.(host := h, running := run, asked := b, toDevice := Sending(l.toDevice, sent)), base, lib)
  {
    hide Sound, Budgeted, RequestsOk, RepliesOk, DeviceOk, S.Numbered, S.Consistent, HostOk, Listed, Shelved, Calm,
      Ours, Asks, U.Good;
    var k := l.host.session.stats.requests;
    NumbersDoNotRepeat(b, k - base + 1);
    RequestsAdvance(l.toDevice, b, base, k, f, sent);
    RepliesAdvance(l.toHost, l.toDevice, Sending(l.toDevice, sent), l.asked, b, l.device, l.starved, base, k);
    DeviceOkGrows(b, l.device, l.toDevice, f);
  }

  lemma DeviceOkGrows(b: U.State, d: Sim, q: seq<Frame>, f: Frame)
    requires Sound(b) && DeviceOk(b, d, q) && Asks(f, b)
    ensures DeviceOk(b, d, q + [f])
  {
    hide PutLe32, PutLe16, Checksum;
  }

  lemma QuestionOf(w: U.State)
    requires Sound(U.Build(w).0) && U.Build(w).1.Success?
    ensures Question(U.Build(w).0) == U.Build(w).1.value
  {
    hide PutLe32, PutLe16, Checksum;
  }

  /** The tracker completes the request in flight exactly on an answer to it. */
  lemma SessionAccepts(s: S.State, f: Frame, a: U.State, d: Sim)
    requires Sound(a) && S.Consistent(s) && s.pending.active && Asks(s.pending.frame, a)
    requires f.sequence == S.Numbered(s.stats.requests) ==> ReplyOk(f, a, d) || Refusal(f, a)
    ensures var (t, status) := S.Accept(s, f);
            && S.Consistent(t) && t.stats.requests == s.stats.requests && t.device == s.device
            && (if f.sequence == S.Numbered(s.stats.requests) then status == Ok && !t.pending.active
                else status != Ok && t.pending == s.pending)
  {
    hide S.Numbered, Sound, Question;
  }

  lemma DriverTakesAnswer(h: Host, a: U.State, d: Sim, q: seq<Frame>, f: Frame, now: u64, queued: QueueStatus)
    requires Sound(a) && DeviceOk(a, d, q) && ReplyOk(f, a, d) && !IsTelemetry(f)
    requires h.upgrade == a && Asks(h.session.pending.frame, a) && S.Accept(h.session, f).1 == Ok
    ensures var next := Host(S.Accept(h.session, f).0, Advanced(a, d));
            OnUpgradeFrame(h, f, now, queued) ==
              if a.phase == U.Restarting then (FinishUpgrade(next), Ok, None) else QueueRequest(next, now, queued)
  {
    ReplyAdvances(a, d, q, f);
    if a.phase != U.Restarting {
      AdvanceMoves(a, d, q, f);
    }
    hide DeviceOk, Question, QueueRequest, S.Accept, U.Accept, FinishUpgrade, IsTelemetry;
  }

  /** Once the first request is answered, nothing from before the update is left on the line. */
  lemma RequestsAreOurs(l: Link, base: nat, lib: Library)
    requires Inv(l, base, lib) && l.asked.phase != U.Restarting && AnsweredAlone(l)
    ensures Ours(l.toDevice, l.asked, base, l.host.session.stats.requests)
  {
    var a, k, q := l.asked, l.host.session.stats.requests, l.toDevice;
    AsksKind(a);
    forall i | 0 <= i < |q|
      ensures RequestOk(q[i], a) && Recent(q[i].sequence, base, k) && q[i].kind != REBOOT
    {
      if a.phase == U.Entering {
        assert Asks(q[i], a) && Recent(q[i].sequence, base, k);
      }
    }
  }

  /** In the first phase an answer finds nothing but copies of its request on the line. */
  ghost predicate AnsweredAlone(l: Link) {
    l.asked.phase == U.Entering ==>
      l.host.session.stats.requests > 0 && AllCurrent(l.toDevice, l.host.session.stats.requests)
  }

  lemma CalmIsShelved(d: Sim, q: seq<Frame>, lib: Library)
    requires Calm(d, q, lib)
    ensures Shelved(d, lib)
  {
  }

  /** All that holds of the update that an answer leads to. */
  lemma AdvanceReady(l: Link, base: nat, lib: Library, f: Frame)
    requires Inv(l, base, lib) && ReplyOk(f, l.asked, l.device) && l.asked.phase != U.Restarting && AnsweredAlone(l)
    ensures var w := Advanced(l.asked, l.device);
            U.Good(w) && U.Active(w) && Ready(l, base, lib, U.Build(w).0)
  {
    var a, d, q := l.asked, l.device, l.toDevice;
    var b := U.Build(Advanced(a, d)).0;
    RequestsAreOurs(l, base, lib);
    AdvanceMoves(a, d, q, f);
    AdvanceIsSound(a, d, q, f);
    AdvanceLeavesRounds(a, d, q, f);
    AnswerTellsOffset(a, d, q, f);
    AdvanceCountsChunks(a, d);
    AdvanceKeepsSession(a, d, q, f);
    if a.phase == U.Entering {
      CalmIsShelved(d, q, lib);
    }
    hide U.Build, U.RoundsLeft, Sound, ChunksCounted, Advanced, DeviceOk, ReplyOk, RequestOk, HostOk, RepliesOk,
      RequestsOk, U.ChunksLeft, Recent, Calm, Shelved;
    forall i | 0 <= i < |q|
      ensures RequestOk(q[i], b)
    {
      RequestStaysOk(a, b, q[i]);
    }
  }

  lemma AnswerTellsOffset(a: U.State, d: Sim, q: seq<Frame>, f: Frame)
    requires Sound(a) && DeviceOk(a, d, q) && ReplyOk(f, a, d)
    ensures OffsetTold(a, d.offset)
  {
    hide Sound, Question;
  }

  lemma AdvanceKeepsSession(a: U.State, d: Sim, q: seq<Frame>, f: Frame)
    requires Sound(a) && DeviceOk(a, d, q) && ReplyOk(f, a, d) && a.phase != U.Restarting
    ensures var b := U.Build(Advanced(a, d)).0;
            && Rank(a.phase) <= Rank(b.phase)
            && b.phase != U.Entering && LabelOf(b) == LabelOf(a) && b.image == a.image
            && U.Left(b, 0) == U.Left(a, 0)
            && (Rank(a.phase) >= 2 ==>
                b.sessionId == a.sessionId && (b.offset == a.offset || b.offset == U.ChunkEnd(a, a.offset)))
  {
    BuildCounts(Advanced(a, d));
    hide U.Build, Question, U.ChunksLeft;
  }

  lemma AnswerContinues(l: Link, base: nat, lib: Library, f: Frame, s: S.State, now: u64, queued: QueueStatus)
    requires Inv(l, base, lib) && ReplyOk(f, l.asked, l.device) && l.asked.phase != U.Restarting && AnsweredAlone(l)
    requires S.Consistent(s) && !s.pending.active && s.stats.requests == l.host.session.stats.requests
    ensures var b := U.Build(Advanced(l.asked, l.device)).0;
            var (g, status, sent) := QueueRequest(Host(s, Advanced(l.asked, l.device)), now, queued);
            && Inv(l.(host := g, running := status == Ok, asked := b, toDevice := Sending(l.toDevice, sent)), base, lib)
            && status == queued && U.Active(g.upgrade) && g.upgrade == b
            && g.session.stats.requests == l.host.session.stats.requests + 1
            && (status == Ok ==> sent.Some? && sent.value.sequence == S.Numbered(g.session.stats.requests))
  {
    var w := Advanced(l.asked, l.device);
    AdvanceReady(l, base, lib, f);
    QueueNumbers(Host(s, w), now, queued);
    QuestionOf(w);
    BuildKeepsPhase(w);
    var (g, status, sent) := QueueRequest(Host(s, w), now, queued);
    hide Advanced, QueueRequest, U.Build, Sound, DeviceOk, RequestOk, Budgeted, S.Consistent, S.Numbered, ReplyOk,
      U.Good, Ready, Inv;
    assert Asks(g.session.pending.frame, U.Build(w).0);
    QueueKeeps(l, base, lib, U.Build(w).0, g, status == Ok, g.session.pending.frame, sent);
  }

  lemma BuildKeepsPhase(w: U.State)
    ensures U.Build(w).0.phase == w.phase
  {
    hide PutLe32, PutLe16;
  }

  /** The frame belongs to the last request. */
  ghost predicate Current(l: Link, f: Frame) {
    l.host.session.stats.requests > 0 && f.sequence == S.Numbered(l.host.session.stats.requests)
  }

  /** The update takes the frame for the answer to its request. */
  ghost predicate Answers(l: Link, f: Frame)
    requires Sound(l.asked)
  {
    l.running && U.Active(l.host.upgrade) && Current(l, f) && !Refusal(f, l.asked)
  }

  /** The answer to the request in flight takes the update one phase on. */
  lemma AnswerKeeps(l: Link, base: nat, lib: Library, now: u64, queued: QueueStatus)
    requires Inv(l, base, lib) && l.toHost != [] && Answers(l, l.toHost[0])
    ensures var m := ReceiveStep(l, now, queued);
            && Inv(m, base, lib)
            && (if l.asked.phase == U.Restarting then m.host.upgrade.phase == U.Complete && m.running
                else U.Active(m.host.upgrade) && m.asked == U.Build(Advanced(l.asked, l.device)).0
                     && m.running == (queued == Ok)
                     && m.toHost == l.toHost[1..] && m.host.session.stats.requests == l.host.session.stats.requests + 1
                     && |m.toDevice| <= |l.toDevice| + 1
                     && (m.running ==> m.toDevice != [] && Current(m, m.toDevice[|m.toDevice| - 1])))
  {
    hide Inv, Sound, DeviceOk, ReplyOk, S.Numbered, S.Accept, S.Consistent, QueueRequest, OnUpgradeFrame, U.Build,
      Advanced, Refusal, FinishUpgrade, IsTelemetry;
    var a, d, f := l.asked, l.device, l.toHost[0];
    var rest := l.(toHost := l.toHost[1..]);
    PopKeeps(l, base, lib);
    AnswerReceived(l, base, lib, now, queued);
    var s := S.Accept(l.host.session, f).0;
    assert l.running && U.Active(l.host.upgrade);
    if a.phase == U.Restarting {
      InvIsSound(l, base, lib);
      LastReply(f, a, d);
      CompletionKeeps(rest, base, lib, s);
    } else {
      AnswerContinues(rest, base, lib, f, s, now, queued);
    }
  }

  lemma PopKeeps(l: Link, base: nat, lib: Library)
    requires Inv(l, base, lib) && l.toHost != []
    ensures Inv(l.(toHost := l.toHost[1..]), base, lib)
  {
    hide Sound, DeviceOk, HostOk, RepliesOk, RequestsOk, Budgeted, S.Consistent, Resumes;
    LosingReply(l.toHost, 0, l.toDevice, l.asked, l.device, l.starved, base, l.host.session.stats.requests);
    assert Without(l.toHost, 0) == l.toHost[1..];
  }

  /** What the host makes of the answer it waits for. */
  lemma AnswerReceived(l: Link, base: nat, lib: Library, now: u64, queued: QueueStatus)
    requires Inv(l, base, lib) && l.toHost != [] && Answers(l, l.toHost[0])
    ensures var (a, d, f) := (l.asked, l.device, l.toHost[0]);
            var s := S.Accept(l.host.session, f).0;
            && ReplyOk(f, a, d) && AllCurrent(l.toDevice, l.host.session.stats.requests)
            && S.Consistent(s) && s.stats.requests == l.host.session.stats.requests && !s.pending.active
            && OnUpgradeFrame(l.host, f, now, queued) ==
                 if a.phase == U.Restarting then (FinishUpgrade(Host(s, Advanced(a, d))), Ok, None)
                 else QueueRequest(Host(s, Advanced(a, d)), now, queued)
  {
    hide Sound, DeviceOk, RequestsOk, Budgeted, S.Numbered, ReplyOk, S.Accept, QueueRequest, OnUpgradeFrame, Resumes,
      U.Build, Advanced, Question, FinishUpgrade;
    SessionAccepts(l.host.session, l.toHost[0], l.asked, l.device);
    DriverTakesAnswer(l.host, l.asked, l.device, l.toDevice, l.toHost[0], now, queued);
  }

  lemma CompletionKeeps(l: Link, base: nat, lib: Library, s: S.State)
    requires Inv(l, base, lib) && l.asked.phase == U.Restarting && l.running && U.Active(l.host.upgrade)
    requires AllCurrent(l.toDevice, l.host.session.stats.requests) && Rebooted(l.device)
    requires S.Consistent(s) && s.stats.requests == l.host.session.stats.requests && !s.pending.active
    ensures var h := FinishUpgrade(Host(s, Advanced(l.asked, l.device)));
            && Inv(l.(host := h), base, lib) && h.upgrade.phase == U.Complete
            && h.session.stats.requests == l.host.session.stats.requests
  {
    hide Sound, DeviceOk, RequestsOk, RepliesOk, Budgeted, S.Numbered, S.Consistent, Resumes, FinishUpgrade, Question;
    LastAnswer(l, base, lib);
    FinishKeepsSession(Host(s, Advanced(l.asked, l.device)));
  }

  lemma LastReply(f: Frame, a: U.State, d: Sim)
    requires Sound(a) && ReplyOk(f, a, d) && a.phase == U.Restarting
    ensures Rebooted(d)
  {
    hide Sound, Question;
  }

  /** When REBOOT is answered, only copies of it are left on the line. */
  lemma LastAnswer(l: Link, base: nat, lib: Library)
    requires Inv(l, base, lib) && l.asked.phase == U.Restarting && AllCurrent(l.toDevice, l.host.session.stats.requests)
    ensures AllReboot(l.toDevice)
  {
    AsksKind(l.asked);
    hide Sound, DeviceOk, RepliesOk, Budgeted, S.Numbered, Question, Expected;
  }

  lemma FinishKeepsSession(h: Host)
    ensures var g := FinishUpgrade(h);
            && g.upgrade == h.upgrade && g.session == h.session.(device := g.session.device)
            && (S.Consistent(h.session) <==> S.Consistent(g.session))
  {
    hide S.Numbered;
  }

  /** A refusal for want of memory fails the update. */
  lemma RefusalKeeps(l: Link, base: nat, lib: Library, now: u64, queued: QueueStatus)
    requires Inv(l, base, lib) && l.toHost != [] && l.running && U.Active(l.host.upgrade)
    requires Current(l, l.toHost[0]) && Refusal(l.toHost[0], l.asked)
    ensures Inv(ReceiveStep(l, now, queued), base, lib) && ReceiveStep(l, now, queued).host.upgrade.phase == U.Errored
  {
    hide Inv, S.Numbered, S.Accept, S.Consistent, QueueRequest, FinishUpgrade, IsTelemetry;
    PopKeeps(l, base, lib);
    RefusalReceived(l, base, lib);
    FailureKeeps(l.(toHost := l.toHost[1..]), base, lib, S.Accept(l.host.session, l.toHost[0]).0);
  }

  lemma RefusalReceived(l: Link, base: nat, lib: Library)
    requires Inv(l, base, lib) && l.toHost != [] && l.running && U.Active(l.host.upgrade)
    requires Current(l, l.toHost[0]) && Refusal(l.toHost[0], l.asked)
    ensures var (s, status) := S.Accept(l.host.session, l.toHost[0]);
            && status == Ok && S.Consistent(s) && s.stats.requests == l.host.session.stats.requests && !s.pending.active
            && !IsTelemetry(l.toHost[0])
            && U.Accept(l.host.upgrade, l.host.session.pending.frame.kind, l.toHost[0]) ==
                 (l.asked.(phase := U.Errored), Protocol)
  {
    hide Sound, DeviceOk, RequestsOk, RepliesOk, Budgeted, S.Numbered, Resumes, Question, U.Good, S.Accept;
    SessionAccepts(l.host.session, l.toHost[0], l.asked, l.device);
  }

  lemma FailureKeeps(l: Link, base: nat, lib: Library, s: S.State)
    requires Inv(l, base, lib) && l.running
    requires S.Consistent(s) && s.stats.requests == l.host.session.stats.requests && !s.pending.active
    ensures var h := FinishUpgrade(Host(s, l.asked.(phase := U.Errored)));
            && Inv(l.(host := h), base, lib) && h.upgrade == l.asked.(phase := U.Errored)
            && h.session.stats.requests == l.host.session.stats.requests
  {
    FinishKeepsSession(Host(s, l.asked.(phase := U.Errored)));
    hide Sound, DeviceOk, RequestsOk, RepliesOk, Budgeted, S.Consistent, S.Numbered, Resumes, FinishUpgrade, Question;
  }

  /** Any other frame is passed over. */
  lemma StaleReplyKeeps(l: Link, base: nat, lib: Library, now: u64, queued: QueueStatus)
    requires Inv(l, base, lib) && l.toHost != []
    requires !(l.running && U.Active(l.host.upgrade) && Current(l, l.toHost[0]))
    ensures var m := ReceiveStep(l, now, queued);
            && Inv(m, base, lib) && m.host.upgrade == l.host.upgrade && m.running == l.running
            && m.asked == l.asked && m.toDevice == l.toDevice && m.host.session.pending == l.host.session.pending
            && m.host.session.stats.requests == l.host.session.stats.requests
            && m.toHost == if l.running then l.toHost[1..] else l.toHost
  {
    hide Inv, S.Numbered, S.Accept, S.Consistent, QueueRequest, U.Accept, FinishUpgrade;
    var f := l.toHost[0];
    PopKeeps(l, base, lib);
    StaleAccepted(l, base, lib);
    SessionMayTurn(l.(toHost := l.toHost[1..]), base, lib, S.Accept(l.host.session, f).0);
  }

  lemma StaleAccepted(l: Link, base: nat, lib: Library)
    requires Inv(l, base, lib) && l.toHost != []
    requires !(l.running && U.Active(l.host.upgrade) && Current(l, l.toHost[0]))
    ensures var (t, status) := S.Accept(l.host.session, l.toHost[0]);
            l.running ==>
              S.Consistent(t) && t.pending == l.host.session.pending
              && t.stats.requests == l.host.session.stats.requests && status != Ok
  {
    hide Sound, DeviceOk, RequestsOk, RepliesOk, Budgeted, S.Numbered, Resumes, Question, U.Good;
    if U.Active(l.host.upgrade) && l.running {
      SessionAccepts(l.host.session, l.toHost[0], l.asked, l.device);
    }
  }

  /** The session's counters and state are of no concern to the update. */
  lemma SessionMayTurn(l: Link, base: nat, lib: Library, s: S.State)
    requires Inv(l, base, lib)
    ensures S.Consistent(s) && s.pending == l.host.session.pending
            && s.stats.requests == l.host.session.stats.requests ==>
              Inv(l.(host := l.host.(session := s)), base, lib)
  {
    hide Sound, DeviceOk, RequestsOk, RepliesOk, Budgeted, S.Consistent, Resumes, Question;
  }

  /** Receiving a frame fails the update exactly on a refusal for want of memory. */
  lemma ReceiveStepKeeps(l: Link, base: nat, lib: Library, now: u64, queued: QueueStatus)
    requires Inv(l, base, lib)
    ensures Inv(ReceiveStep(l, now, queued), base, lib)
    ensures U.Active(l.host.upgrade) ==>
              (ReceiveStep(l, now, queued).host.upgrade.phase == U.Errored <==>
               l.running && l.toHost != [] && Current(l, l.toHost[0]) && Refusal(l.toHost[0], l.asked))
    ensures !U.Active(l.host.upgrade) ==> ReceiveStep(l, now, queued).host.upgrade == l.host.upgrade
  {
    if l.toHost != [] {
      hide Inv, ReceiveStep, Refusal;
      if !(l.running && U.Active(l.host.upgrade) && Current(l, l.toHost[0])) {
        StaleReplyKeeps(l, base, lib, now, queued);
      } else if Refusal(l.toHost[0], l.asked) {
        RefusalKeeps(l, base, lib, now, queued);
      } else {
        assert Sound(l.asked) by { InvIsSound(l, base, lib); }
        AnswerKeeps(l, base, lib, now, queued);
      }
    }
  }

  lemma InvIsSound(l: Link, base: nat, lib: Library)
    requires Inv(l, base, lib)
    ensures Sound(l.asked) && l.host.session.stats.requests > base
  {
    hide Sound, DeviceOk, RequestsOk, RepliesOk, Budgeted, S.Consistent, Resumes, HostOk;
  }

  function KeptRequests(l: Link, base: nat, lib: Library): (k: nat)
    requires Inv(l, base, lib)
    ensures k > base
  {
    l.host.session.stats.requests
  }

  // ----- The host's timer -----

  lemma RetransmitKeeps(l: Link, base: nat, lib: Library, s: S.State, f: Frame, run: bool, sent: Option<Frame>)
    requires Inv(l, base, lib) && U.Active(l.host.upgrade) && l.running
    requires S.Consistent(s) && s.pending.active && s.stats.requests == l.host.session.stats.requests
    requires s.pending.frame == f && f == S.Retry(l.host.session.pending.frame) && (sent.Some? ==> sent.value == f)
    ensures Inv(l.(host := l.host.(session := s), running := run, toDevice := Sending(l.toDevice, sent)), base, lib)
  {
    var k, a, q := l.host.session.stats.requests, l.asked, l.toDevice;
    assert Asks(f, a) && f.sequence == S.Numbered(k);
    QuestionIsOk(a, f);
    DeviceOkGrows(a, l.device, q, f);
    assert Recent(f.sequence, base, k);
    RetransmitQueue(q, a, base, k, f);
    assert Resumes(a, l.device, q + [f], lib) by {
      hide Sound, DeviceOk, RequestsOk, RepliesOk, Calm, S.Numbered, RequestOk;
      AsksKind(a);
      if a.phase == U.Entering {
        CalmAppend(l.device, q, f, lib);
      }
    }
    hide Sound, DeviceOk, RequestsOk, Budgeted, S.Numbered, S.Consistent, RequestOk, ReplyOk, Recent, Resumes, Foreign;
    assert AllCurrent(q, k) ==> AllCurrent(q + [f], k);
  }

  lemma RetransmitQueue(q: seq<Frame>, a: U.State, base: nat, k: nat, f: Frame)
    requires Sound(a) && k > 0 && RequestsOk(q, a, base, k)
    requires f.sequence == S.Numbered(k) && Asks(f, a) && RequestOk(f, a) && Recent(f.sequence, base, k)
    ensures RequestsOk(q + [f], a, base, k)
  {
    hide Sound, RequestOk, S.Numbered, Asks, Recent, Foreign;
    var r := q + [f];
    forall i | 0 <= i < |r| && r[i].sequence == S.Numbered(k)
      ensures Asks(r[i], a) && AllCurrent(r[i..], k)
    {
      if i < |q| {
        assert r[i..] == q[i..] + [f];
      } else {
        assert r[i..] == [f];
      }
    }
  }

  lemma RecoverySound(a: U.State, d: Sim, q: seq<Frame>, w: U.State)
    requires Sound(a) && DeviceOk(a, d, q) && U.BeginRecovery(a) == (w, Ok)
    ensures Sound(w) && DeviceOk(w, d, q) && U.Build(w).0 == w
    ensures w == a.(phase := U.Recovering, recoveries := w.recoveries) && Rank(a.phase) == 2
  {
    hide PutLe32, PutLe16, Checksum;
  }

  lemma RecoveryBudget(a: U.State, n: nat, w: U.State)
    requires Sound(a) && Budgeted(a, n) && U.BeginRecovery(a) == (w, Ok) && Sound(w)
    ensures Budgeted(w, n + 1)
  {
    RecoveryShortens(a, w);
    assert a.phase == U.Transferring || a.phase == U.Recovering;
    assert w == a.(phase := U.Recovering, recoveries := a.recoveries + 1);
    hide Sound, U.BeginRecovery, U.Good, U.ChunksLeft, U.RoundsLeft, Checksum;
    assert ChunksCounted(w);
  }

  /** A recovery uses up rounds too. */
  lemma RecoveryShortens(a: U.State, w: U.State)
    requires Sound(a) && U.BeginRecovery(a) == (w, Ok) && Sound(w)
    ensures U.RoundsLeft(w) < U.RoundsLeft(a)
  {
    assert a.phase == U.Transferring || a.phase == U.Recovering;
    assert w == a.(phase := U.Recovering, recoveries := a.recoveries + 1) && w.recoveries <= U.MAX_RECOVERIES;
    assert U.Left(a, a.offset) > 0;
    U.ReserveStep(a.recoveries, U.Left(a, 0));
    hide Sound, U.BeginRecovery, U.Good, U.ChunksLeft, U.Reserve, Checksum;
  }

  /** The recovery that a timeout leads to asks for the device's offset. */
  lemma RecoveryReady(l: Link, base: nat, lib: Library, w: U.State)
    requires Inv(l, base, lib) && U.BeginRecovery(l.asked) == (w, Ok)
    ensures Ready(l, base, lib, w) && U.Build(w).0 == w && w.phase == U.Recovering
  {
    var a := l.asked;
    RecoverySound(a, l.device, l.toDevice, w);
    RecoveryBudget(a, l.host.session.stats.requests - base, w);
    assert a.phase == U.Transferring || a.phase == U.Recovering;
    RequestsAreOurs(l, base, lib);
    hide U.Build, U.BeginRecovery, Sound, DeviceOk, RequestOk, RepliesOk, RequestsOk, HostOk, S.Consistent, Budgeted,
      Shelved, Calm, Recent;
    forall i | 0 <= i < |l.toDevice|
      ensures RequestOk(l.toDevice[i], w)
    {
      RequestStaysOk(a, w, l.toDevice[i]);
    }
  }

  /** A recovery is open to the update. */
  ghost predicate CanRecover(u: U.State) {
    (u.phase == U.Transferring || u.phase == U.Recovering) && u.recoveries < U.MAX_RECOVERIES
  }

  lemma RecoveryBegins(a: U.State)
    requires Sound(a)
    ensures U.BeginRecovery(a).1 == Ok <==> CanRecover(a)
    ensures !CanRecover(a) ==> U.BeginRecovery(a).0.(phase := U.Errored) == a.(phase := U.Errored)
  {
    hide Checksum;
  }

  /** A request that has run out of retries leads to recovery, or ends the update: exactly if no
      recovery is open to it or the request for it cannot be queued. */
  lemma TimeoutKeeps(l: Link, base: nat, lib: Library, s: S.State, now: u64, queued: QueueStatus)
    requires Inv(l, base, lib) && U.Active(l.host.upgrade) && l.running
    requires S.Consistent(s) && !s.pending.active && s.stats.requests == l.host.session.stats.requests
    ensures var (g, sent) := OnUpgradeTimeout(l.host.(session := s), now, queued);
            var asked := if CanRecover(l.asked) then U.BeginRecovery(l.asked).0 else l.asked;
            && Inv(l.(host := g, asked := asked, toDevice := Sending(l.toDevice, sent)), base, lib)
            && (g.session.stats.requests > s.stats.requests <==> CanRecover(l.asked))
            && (g.upgrade.phase == U.Errored <==> !CanRecover(l.asked) || queued != Ok)
            && (g.upgrade.phase != U.Errored ==>
                  U.Active(g.upgrade) && sent.Some? && sent.value.sequence == S.Numbered(g.session.stats.requests))
  {
    var a := l.asked;
    var (w, recovering) := U.BeginRecovery(a);
    assert l.host.upgrade == a;
    RecoveryBegins(a);
    if recovering == Ok {
      RecoveryReady(l, base, lib, w);
      RecoveryQueues(l, base, lib, s, w, now, queued);
    } else {
      FinishKeepsSession(Host(s, w.(phase := U.Errored)));
      hide QueueRequest, U.Build, Sound, DeviceOk, Budgeted, S.Consistent, S.Numbered, RequestsOk, RepliesOk,
        FinishUpgrade, Resumes;
    }
  }

  lemma RecoveryQueues(l: Link, base: nat, lib: Library, s: S.State, w: U.State, now: u64, queued: QueueStatus)
    requires Inv(l, base, lib) && Ready(l, base, lib, w) && U.Build(w).0 == w && w.phase == U.Recovering
    requires S.Consistent(s) && !s.pending.active && s.stats.requests == l.host.session.stats.requests
    ensures var (next, status, sent) := QueueRequest(Host(s, w), now, queued);
            var g := if status == Ok then next else FailUpgrade(next);
            && status == queued && next.upgrade == w
            && Inv(l.(host := g, running := true, asked := w, toDevice := Sending(l.toDevice, sent)), base, lib)
            && g.session.stats.requests == s.stats.requests + 1
            && (status == Ok ==> sent.Some? && sent.value.sequence == S.Numbered(g.session.stats.requests))
  {
    assert U.Good(w) && U.Active(w);
    QueueNumbers(Host(s, w), now, queued);
    QuestionOf(w);
    var (next, status, sent) := QueueRequest(Host(s, w), now, queued);
    FinishKeepsSession(next.(upgrade := next.upgrade.(phase := U.Errored)));
    hide QueueRequest, U.Build, Sound, DeviceOk, RequestOk, Budgeted, S.Consistent, S.Numbered, U.Good, RequestsOk,
      RepliesOk, FinishUpgrade, Ready, Inv;
    var g := if status == Ok then next else FailUpgrade(next);
    assert Asks(next.session.pending.frame, w);
    QueueKeeps(l, base, lib, w, g, true, next.session.pending.frame, sent);
  }

  lemma TickEffect(s: S.State, now: u64, queued: QueueStatus)
    requires S.Consistent(s)
    ensures var (t, status, again) := S.Tick(s, now, queued);
            && S.Consistent(t) && t.stats.requests == s.stats.requests
            && (status == Timeout <==> s.pending.active && now >= s.pending.deadline
                                       && s.pending.retriesDone >= s.pending.policy.maxRetries)
            && (status == Timeout ==> !t.pending.active && again.None?)
            && (status != Timeout ==> t.pending.active == s.pending.active)
            && (again.Some? ==>
                s.pending.active && again.value == S.Retry(s.pending.frame) == t.pending.frame && status == queued)
            && (again.None? && status != Timeout ==> t == s && status == Ok)
  {
    hide S.Numbered;
  }

  lemma TickStepKeeps(l: Link, base: nat, lib: Library, now: u64, queued: QueueStatus)
    requires Inv(l, base, lib)
    ensures Inv(TickStep(l, now, queued), base, lib)
  {
    hide Inv, S.Tick, OnUpgradeTimeout, S.Consistent;
    var (s, status, again) := S.Tick(l.host.session, now, queued);
    HostWaits(l, base, lib);
    TickEffect(l.host.session, now, queued);
    if l.running {
      if status == Timeout {
        TimeoutKeeps(l, base, lib, s, now, queued);
      } else if again.Some? {
        RetransmitKeeps(l, base, lib, s, again.value, status == Ok, Reaching(again.value, queued));
      } else {
        assert TickStep(l, now, queued) == l;
      }
    }
  }

  lemma HostWaits(l: Link, base: nat, lib: Library)
    requires Inv(l, base, lib)
    ensures S.Consistent(l.host.session)
    ensures U.Active(l.host.upgrade) ==> l.host.upgrade == l.asked
    ensures l.running ==> (U.Active(l.host.upgrade) <==> l.host.session.pending.active)
  {
    hide Sound, DeviceOk, RequestsOk, RepliesOk, Budgeted, S.Consistent, Resumes, Question;
  }
}
