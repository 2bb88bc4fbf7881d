/** The single-slot mailbox between the reactor and its validation thread (src/worker/worker.c),
    as the interleaving of the critical sections of the two threads. */
module Worker {
  import opened Wire

  const PATH_MAX: nat := 4096

  /** What validating a file yields; an image is known by the order in which it was opened. */
  datatype Validation = Validation(jobId: u32, status: Status, image: Option<nat>)

  /** The fields both threads share, and the eventfd between them. */
  datatype Box = Box(stop: bool, jobPending: bool, jobRunning: bool, resultPending: bool,
                     jobId: u32, jobPath: CString, result: Validation, events: nat)

  const EMPTY: Box := Box(false, false, false, false, 0, [], Validation(0, Ok, None), 0)

  // ----- The critical sections -----

  function Submit(b: Box, jobId: u32, path: CString): (Box, Status) {
    if jobId == 0 then (b, Invalid)
    else if |path| == 0 || |path| >= PATH_MAX then (b, Limit)
    else if b.stop || b.jobPending || b.jobRunning || b.resultPending then (b, Busy)
    else (b.(jobPath := path, jobId := jobId, jobPending := true), Ok)
  }

  function Take(b: Box): (Box, Result<Validation>) {
    if !b.resultPending then (b, Failure(NotFound))
    else (b.(result := b.result.(image := None), resultPending := false), Success(b.result))
  }

  function StartJob(b: Box): Box {
    b.(jobPending := false, jobRunning := true)
  }

  function StoreResult(b: Box, v: Validation): Box {
    b.(result := v, jobRunning := false, resultPending := true)
  }

  class Mailbox {
    var stop: bool
    var jobPending: bool
    var jobRunning: bool
    var resultPending: bool
    var jobId: u32
    var jobPath: CString
    var result: Validation
    var events: nat

    ghost function View(): Box
      reads this
    {
      Box(stop, jobPending, jobRunning, resultPending, jobId, jobPath, result, events)
    }

    constructor ()
      ensures View() == EMPTY
    {
      stop, jobPending, jobRunning, resultPending := false, false, false, false;
      jobId, jobPath, result, events := 0, [], Validation(0, Ok, None), 0;
    }

    method SubmitFirmware(job: u32, path: CString) returns (status: Status)
      modifies this
      ensures (View(), status) == Submit(old(View()), job, path)
    {
      if job == 0 {
        return Invalid;
      }
      if |path| == 0 || |path| >= PATH_MAX {
        return Limit;
      }
      if stop || jobPending || jobRunning || resultPending {
        return Busy;
      }
      jobPath, jobId, jobPending := path, job, true;
      return Ok;
    }

    method TakeResult() returns (r: Result<Validation>)
      modifies this
      ensures (View(), r) == Take(old(View()))
    {
      if !resultPending {
        return Failure(NotFound);
      }
      r := Success(result);
      result := result.(image := None);
      resultPending := false;
    }

    /** The worker's first critical section, once a job is there. */
    method BeginJob() returns (job: u32, path: CString)
      requires !stop && jobPending
      modifies this
      ensures View() == StartJob(old(View())) && job == old(jobId) && path == old(jobPath)
    {
      job, path := jobId, jobPath;
      jobPending, jobRunning := false, true;
    }

    /** The worker's second critical section. */
    method PostResult(v: Validation)
      modifies this
      ensures View() == StoreResult(old(View()), v)
    {
      result := v;
      jobRunning, resultPending := false, true;
    }
  }

  // ----- The two threads -----

  /** Where the worker is: waiting for a job, opening a file, about to post the outcome, about
      to signal the reactor, or gone. */
  datatype WorkerAt = Waiting | Opening(jobId: u32) | Posting(validation: Validation) | Signalling | Exited

  /** Where the reactor is: serving its loop, between reading the eventfd and taking the result,
      joining the worker, or past destroying it. */
  datatype ReactorAt = Serving | Collecting | Joining | Gone

  /** The ledger records how many images were opened, and which were taken and closed. */
  datatype System = System(box: Box, worker: WorkerAt, reactor: ReactorAt,
                           openings: nat, taken: multiset<nat>, closed: multiset<nat>)

  const START: System := System(EMPTY, Waiting, Serving, 0, multiset{}, multiset{})

  datatype Step =
    | WorkerWakes
    | WorkerOpens(status: Status)
    | WorkerPosts
    | WorkerSignals
    | ReactorSubmits(jobId: u32, path: CString)
    | ReactorReads
    | ReactorTakes
    | ReactorStops
    | ReactorJoins

  function Held(image: Option<nat>): multiset<nat> {
    match image
    case None => multiset{}
    case Some(i) => multiset{i}
  }

  /** One critical section of either thread; a thread that cannot move stays where it is. */
  function Next(s: System, step: Step): System {
    match step
    case WorkerWakes =>
      if s.worker != Waiting then s
      else if s.box.stop then s.(worker := Exited)
      else if s.box.jobPending then s.(box := StartJob(s.box), worker := Opening(s.box.jobId))
      else s
    case WorkerOpens(status) =>
      if !s.worker.Opening? then s
      else if status == Ok then
        s.(worker := Posting(Validation(s.worker.jobId, Ok, Some(s.openings))), openings := s.openings + 1)
      else s.(worker := Posting(Validation(s.worker.jobId, status, None)))
    case WorkerPosts =>
      if !s.worker.Posting? then s
      else s.(box := StoreResult(s.box, s.worker.validation), worker := Signalling)
    case WorkerSignals =>
      if s.worker != Signalling then s
      else s.(box := s.box.(events := s.box.events + 1), worker := Waiting)
    case ReactorSubmits(jobId, path) =>
      if s.reactor != Serving then s else s.(box := Submit(s.box, jobId, path).0)
    case ReactorReads =>
      if s.reactor != Serving || s.box.events == 0 then s
      else s.(box := s.box.(events := 0), reactor := Collecting)
    case ReactorTakes =>
      if s.reactor != Collecting then s
      else
        var (b, r) := Take(s.box);
        s.(box := b, reactor := Serving, taken := s.taken + if r.Success? then Held(r.value.image) else multiset{})
    case ReactorStops =>
      if s.reactor != Serving then s else s.(box := s.box.(stop := true), reactor := Joining)
    case ReactorJoins =>
      if s.reactor != Joining || s.worker != Exited then s
      else
        var left := if s.box.resultPending then Held(s.box.result.image) else multiset{};
        s.(reactor := Gone, closed := s.closed + left)
  }

  function Run(s: System, steps: seq<Step>): System
    decreases |steps|
  {
    if steps == [] then s else Run(Next(s, steps[0]), steps[1..])
  }

  /** The slot is in at most one of its uses, and the worker is where it says. */
  ghost predicate SlotOk(s: System) {
    var b := s.box;
    && Bit(b.jobPending) + Bit(b.jobRunning) + Bit(b.resultPending) <= 1
    && (b.jobRunning <==> s.worker.Opening? || s.worker.Posting?)
    && (b.jobPending ==> s.worker == Waiting || (b.stop && s.worker == Exited))
    && (b.stop <==> s.reactor == Joining || s.reactor == Gone) && (s.worker == Exited ==> b.stop)
    && (s.reactor == Gone ==> s.worker == Exited)
  }

  /** There is exactly one wake-up for each result: unsent, in the eventfd, or in the reactor's hand. */
  ghost predicate WakeupsOk(s: System) {
    s.box.events + Bit(s.worker == Signalling) + Bit(s.reactor == Collecting) == Bit(s.box.resultPending)
  }

  /** How often an image is with the worker or offered in the slot. */
  function InTransit(s: System, image: nat): nat {
    Bit(s.worker.Posting? && s.worker.validation.image == Some(image))
    + Bit(s.box.resultPending && s.reactor != Gone && s.box.result.image == Some(image))
  }

  /** How often an image is anywhere at all. */
  function Places(s: System, image: nat): nat {
    s.taken[image] + s.closed[image] + InTransit(s, image)
  }

  /** Every image opened so far is in exactly one place. */
  ghost predicate ImagesOk(s: System) {
    forall i: nat :: Places(s, i) == Bit(i < s.openings)
  }

  ghost predicate Inv(s: System) {
    SlotOk(s) && WakeupsOk(s) && ImagesOk(s)
  }

  lemma NextKeepsSlot(s: System, step: Step)
    requires SlotOk(s) && WakeupsOk(s)
    ensures SlotOk(Next(s, step)) && WakeupsOk(Next(s, step))
  {
  }

  lemma NextKeepsPlaces(s: System, step: Step, image: nat)
    requires SlotOk(s) && WakeupsOk(s)
    ensures Places(Next(s, step), image) ==
              Places(s, image) + Bit(step == WorkerOpens(Ok) && s.worker.Opening? && image == s.openings)
    ensures Next(s, step).openings == s.openings + Bit(step == WorkerOpens(Ok) && s.worker.Opening?)
  {
  }

  lemma NextKeepsImages(s: System, step: Step)
    requires Inv(s)
    ensures ImagesOk(Next(s, step))
  {
    hide Next, Places, SlotOk, WakeupsOk;
    forall i: nat
      ensures Places(Next(s, step), i) == Bit(i < Next(s, step).openings)
    {
      NextKeepsPlaces(s, step, i);
    }
  }

  lemma {:induction false} RunKeeps(s: System, steps: seq<Step>)
    requires Inv(s)
    ensures Inv(Run(s, steps))
    decreases |steps|
  {
    hide Next, SlotOk, WakeupsOk, ImagesOk;
    if steps != [] {
      NextKeepsSlot(s, steps[0]);
      NextKeepsImages(s, steps[0]);
      RunKeeps(Next(s, steps[0]), steps[1..]);
    }
  }

  /** In every interleaving the slot holds at most one of a waiting job, a running job and a
      result, and each result has exactly one wake-up on its way. */
  lemma OneUseOneWakeup(steps: seq<Step>)
    ensures var s := Run(START, steps);
            && Bit(s.box.jobPending) + Bit(s.box.jobRunning) + Bit(s.box.resultPending) <= 1
            && s.box.events + Bit(s.worker == Signalling) + Bit(s.reactor == Collecting) == Bit(s.box.resultPending)
  {
    RunKeeps(START, steps);
  }

  /** No result is overwritten, and the reactor never comes for a result that is not there. */
  lemma NothingOverwritten(steps: seq<Step>)
    ensures var s := Run(START, steps);
            && (s.worker.Posting? ==> !s.box.resultPending)
            && (s.reactor == Collecting ==> Take(s.box).1.Success?)
  {
    RunKeeps(START, steps);
  }

  /** Every opened image is, at any time, in exactly one place; once the worker is destroyed it has
      been handed over or closed, exactly once. */
  lemma EveryImageOnce(steps: seq<Step>, image: nat)
    ensures var s := Run(START, steps);
            && s.taken[image] + s.closed[image] + InTransit(s, image) == Bit(image < s.openings)
            && (s.reactor == Gone ==> s.taken[image] + s.closed[image] == Bit(image < s.openings))
  {
    RunKeeps(START, steps);
    hide Run;
    assert Places(Run(START, steps), image) == Bit(image < Run(START, steps).openings);
  }

  /** A pending job is never stuck: the worker is waiting for it, unless it was told to stop. */
  lemma PendingJobIsServed(steps: seq<Step>)
    ensures var s := Run(START, steps);
            s.box.jobPending && !s.box.stop ==>
              Next(s, WorkerWakes).worker == Opening(s.box.jobId) && Next(s, WorkerWakes).box.jobRunning
  {
    RunKeeps(START, steps);
  }

  /** The moves that bring the worker to its end once it has been told to stop. */
  const LAST_MOVES: seq<Step> := [WorkerOpens(Io), WorkerPosts, WorkerSignals, WorkerWakes]

  lemma {:induction false} RunAppend(s: System, a: seq<Step>, b: seq<Step>)
    ensures Run(s, a + b) == Run(Run(s, a), b)
    decreases |a|
  {
    hide Next;
    if a == [] {
      assert a + b == b;
    } else {
      assert (a + b)[1..] == a[1..] + b;
      RunAppend(Next(s, a[0]), a[1..], b);
    }
  }

  /** Wherever the worker is when it is told to stop, the join comes to an end. */
  lemma JoinFinishes(s: System)
    requires Inv(s) && s.reactor == Joining
    ensures Next(Run(s, LAST_MOVES), ReactorJoins).reactor == Gone
  {
    var a := Next(s, LAST_MOVES[0]);
    var b := Next(a, LAST_MOVES[1]);
    var c := Next(b, LAST_MOVES[2]);
    var d := Next(c, LAST_MOVES[3]);
    assert LAST_MOVES[1..][1..][1..][1..] == [];
    assert Run(s, LAST_MOVES) == d;
    assert d.worker == Exited && d.reactor == Joining;
  }
}
