/** Every request the daemon sends carries the next number: what each of its handlers leaves in the
    output buffer is the last request numbered. */
module Numbering {
  import opened Wire
  import opened Crc32
  import opened Driver
  import D = Daemon
  import S = Session
  import U = Upgrade
  import W = Worker

  /** A frame with the number of the k-th request. */
  ghost predicate Carries(f: Frame, k: nat) {
    k > 0 && f.sequence == S.Numbered(k)
  }

  /** A handler that finds c leaves this session and this output buffer, and the numbers in order. */
  ghost predicate Leaves(c: D.Context, s: S.State, output: Option<Frame>) {
    && S.Consistent(s) && s.stats.requests >= c.session.stats.requests
    && (output == c.output || (c.output.None? && output.Some? && Carries(output.value, s.stats.requests)))
  }

  ghost predicate Continues(c: D.Context, d: D.Context) {
    Leaves(c, d.session, d.output)
  }

  lemma ChangeLeaves(c: D.Context, s: S.State, output: Option<Frame>, event: S.Event)
    requires Leaves(c, s, output)
    ensures Leaves(c, S.Transition(s, event).0, output)
  {
    hide S.Numbered;
  }

  lemma RequestLeaves(s: S.State, kind: byte, flags: byte, payload: seq<byte>, policy: S.Policy, now: u64)
    requires S.Consistent(s)
    ensures var (t, begun) := S.Begin(s, kind, flags, payload, policy, now);
            && S.Consistent(t) && S.Consistent(S.Cancel(t)) && t.stats.requests >= s.stats.requests
            && (begun.Success? ==> Carries(begun.value, t.stats.requests))
  {
    S.NumberedNext(s.stats.requests + 1);
    hide S.Numbered;
  }

  lemma QueueLeaves(c: D.Context, env: D.Env)
    requires S.Consistent(c.session)
    ensures Continues(c, D.QueueUpgrade(c, env).0)
  {
    var built := U.Build(c.upgrade).1;
    if built.Success? {
      var f := built.value;
      RequestLeaves(c.session, f.kind, f.flags, f.payload, UPGRADE_POLICY, env.now);
    }
    hide U.Build, S.Numbered, S.Begin, Carries;
  }

  lemma AbandonLeaves(c: D.Context, d: D.Context, status: Status)
    requires Continues(c, d)
    ensures Continues(c, D.AbandonUpgrade(d, status))
  {
    hide S.Transition, Leaves, W.Held;
    ChangeLeaves(c, d.session, d.output, S.UpgradeDone);
  }

  lemma EndLeaves(c: D.Context, d: D.Context, status: Status)
    requires Continues(c, d)
    ensures Continues(c, D.EndUpgrade(d, status))
  {
    hide S.Transition, Leaves, W.Held;
    ChangeLeaves(c, d.session, d.output, S.UpgradeDone);
  }

  lemma Stays(c: D.Context, d: D.Context)
    requires S.Consistent(c.session) && d.session == c.session && d.output == c.output
    ensures Continues(c, d)
  {
    hide S.Consistent;
  }

  /** What continues c after its session has changed state continues c. */
  lemma ChangeFirst(c: D.Context, d: D.Context, event: S.Event, e: D.Context)
    requires d.session == S.Transition(c.session, event).0 && d.output == c.output && Continues(d, e)
    ensures Continues(c, e)
  {
    hide S.Consistent, Carries;
  }

  lemma AdoptionLeaves(c: D.Context, image: Option<nat>, file: seq<byte>, env: D.Env)
    requires S.Consistent(c.session)
    ensures Continues(c, D.Adopt(c, image, file, env))
  {
    hide D.QueueUpgrade, S.Transition, S.Consistent, U.Start, Checksum, Leaves, D.AbandonUpgrade, Continues;
    var (u, started) := U.Start(c.upgrade, file, Checksum(file), c.version, D.DEFAULT_CHUNK);
    var d := c.(firmware := image, upgrade := u);
    Stays(c, d);
    var (s, moved) := S.Transition(c.session, S.StartUpgrade);
    if started != Ok {
      AbandonLeaves(c, d, started);
    } else if moved != Ok {
      AbandonLeaves(c, d, moved);
    } else {
      var e := d.(session := s);
      S.ApplyConsistent(c.session, S.Change(S.StartUpgrade));
      QueueLeaves(e, env);
      var (f, queued) := D.QueueUpgrade(e, env);
      ChangeFirst(c, e, S.StartUpgrade, f);
      AbandonLeaves(c, f, queued);
    }
  }

  lemma ValidationLeaves(c: D.Context, file: seq<byte>, env: D.Env)
    requires S.Consistent(c.session)
    ensures Continues(c, D.OnWorkerReady(c, file, env).0)
  {
    hide D.Adopt, D.CollectResult, W.Take, S.Consistent, Carries;
    var d := c.(sys := D.CollectResult(c.sys));
    var taken := W.Take(c.sys.box).1;
    if taken.Success? {
      AdoptionLeaves(d, taken.value.image, file, env);
    }
  }

  lemma AnswerLeaves(s: S.State, frame: Frame)
    requires S.Consistent(s)
    ensures var t := S.Accept(s, frame).0; S.Consistent(t) && t.stats.requests == s.stats.requests
  {
  }

  lemma FrameLeaves(c: D.Context, frame: Frame, env: D.Env)
    requires S.Consistent(c.session)
    ensures Continues(c, D.OnDeviceFrame(c, frame, env).0)
  {
    AnswerLeaves(c.session, frame);
    hide D.QueueUpgrade, D.EndUpgrade, S.Transition, S.Consistent, S.Accept, U.Accept, Carries;
    var s := S.Accept(c.session, frame).0;
    ChangeLeaves(c, s, c.output, S.HandshakeOk);
    ChangeLeaves(c, s, c.output, S.StartStream);
    ChangeLeaves(c, s, c.output, S.StopStream);
    var (u, status) := U.Accept(c.upgrade, c.session.pending.frame.kind, frame);
    var e := c.(session := s, upgrade := u);
    QueueLeaves(e, env);
    EndLeaves(c, e, Ok);
    EndLeaves(c, e, status);
  }

  lemma CommandLeaves(c: D.Context, client: nat, command: byte, payload: seq<byte>, env: D.Env)
    requires S.Consistent(c.session)
    ensures Continues(c, D.StartRequest(c, client, command, payload, env).0)
  {
    RequestLeaves(c.session, command, FLAG_ACK_REQUIRED, payload, D.CLIENT_POLICY, env.now);
    hide S.Begin, D.UpgradeNames, W.Submit, D.Progress, S.Numbered, S.Consistent, Carries;
  }

  lemma TickLeaves(s: S.State, now: u64, sent: Status)
    requires S.Consistent(s)
    ensures var (t, status, again) := S.Tick(s, now, sent);
            && S.Consistent(t) && t.stats.requests == s.stats.requests
            && (again.Some? ==> Carries(again.value, s.stats.requests))
            && (status == Timeout ==> again.None? || sent == Timeout)
  {
    hide S.Numbered;
  }

  lemma TimerLeaves(c: D.Context, env: D.Env)
    requires S.Consistent(c.session)
    ensures Continues(c, D.OnTimer(c, env).0)
  {
    TickLeaves(c.session, env.now, D.QueueVerdict(c, env));
    hide S.Tick, S.Consistent, D.RecoverUpgrade, Carries;
    var (s, status, again) := S.Tick(c.session, env.now, D.QueueVerdict(c, env));
    if status == Timeout {
      RecoverLeaves(c.(session := s), env);
    }
  }

  lemma RecoverLeaves(c: D.Context, env: D.Env)
    requires S.Consistent(c.session)
    ensures Continues(c, D.RecoverUpgrade(c, env))
  {
    hide D.QueueUpgrade, D.EndUpgrade, S.Consistent, U.BeginRecovery, Carries;
    var (u, recovering) := U.BeginRecovery(c.upgrade);
    var d := c.(upgrade := u);
    QueueLeaves(d, env);
    var (e, queued) := if recovering == Ok then D.QueueUpgrade(d, env) else (d, recovering);
    EndLeaves(c, e.(upgrade := e.upgrade.(phase := U.Errored)), Timeout);
  }

  /** Every handler keeps the numbers in order. */
  lemma HandlerContinues(c: D.Context, e: D.Event)
    requires S.Consistent(c.session)
    ensures var d := D.React(c, e).0;
            S.Consistent(d.session) && (if e.OutputFlushed? then d.session == c.session else Continues(c, d))
  {
    hide D.OnWorkerReady, D.OnDeviceFrame, D.StartRequest, D.OnTimer, S.Consistent, W.Next, Carries;
    match e {
      case WorkerReady(file, env) => ValidationLeaves(c, file, env);
      case DeviceFrame(frame, env) => FrameLeaves(c, frame, env);
      case ClientCommand(client, command, payload, env) => CommandLeaves(c, client, command, payload, env);
      case TimerFires(env) => TimerLeaves(c, env);
      case _ =>
    }
  }
}
