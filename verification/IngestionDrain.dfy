/** The pipeline drains: without new requests the worker does a bounded number of steps, a few
    more for every crash, and no job is attempted more often than configured until a crash is
    recovered. */
module IngestionDrain {
  import opened Options
  import opened IngestionModel
  import opened IngestionSteps
  import opened IngestionSafety

  /** How many stages a job can still hand over to. */
  function Later(ty: JobType): nat {
    match ty
    case ReindexDocument => 3
    case Pipeline => 2
    case ParseDocument => 2
    case ChunkDocument => 1
    case EmbedAndIndex => 0
    case DeleteFromIndex => 0
  }

  /** One more attempt than the limit allows: the one running, or the one that a recovery
      grants a job without any left. */
  function Extra(job: Job, limit: nat): nat {
    if RunningState(job.state) || job.attempts >= limit then 1 else 0
  }

  /** Attempts a job and its successors may still use. */
  function Weight(job: Job, limit: nat): nat {
    if !ActiveState(job.state) then 0
    else (if job.attempts < limit then limit - job.attempts else 0) + Later(job.jobType) * limit + Extra(job, limit)
  }

  function Work(jobs: seq<Job>, limit: nat): nat {
    if jobs == [] then 0 else Weight(jobs[0], limit) + Work(jobs[1..], limit)
  }

  /** Steps a running job can still take. */
  function Rank(phase: Phase): nat {
    match phase
    case Claimed => 7
    case Loaded(_) => 6
    case EmbedStarted => 5
    case IndexStarted(_) => 4
    case IndexWiped(_) => 3
    case DeleteMarked(_) => 3
    case IndexUpserted => 2
    case DeleteWiped(_) => 2
    case ParseStarted => 1
    case ChunkStarted => 1
    case InactiveDropped => 1
    case ReindexWiped => 1
  }

  function Budget(s: State): nat {
    8 * Work(s.store.jobs, s.store.maxAttempts) + if s.worker.Busy? then Rank(s.worker.phase) else 8
  }

  /** Every job was made under the configured limit. */
  ghost predicate Uniform(t: Store) {
    t.maxAttempts >= 1 && forall j | 0 <= j < |t.jobs| :: t.jobs[j].maxAttempts == t.maxAttempts
  }

  ghost predicate Fit(s: State) {
    && Uniform(s.store)
    && (s.worker.Busy? ==>
          s.worker.job < |s.store.jobs| && s.store.jobs[s.worker.job].state == InProgress)
  }

  /** No active job has used up its attempts before it may be claimed. */
  ghost predicate Bounded(t: Store) {
    && Uniform(t)
    && forall j | 0 <= j < |t.jobs| ::
         && t.jobs[j].attempts <= t.maxAttempts
         && (ClaimableState(t.jobs[j].state) ==> t.jobs[j].attempts < t.maxAttempts)
  }

  ghost predicate Within(s: State) {
    Fit(s) && Bounded(s.store)
  }

  lemma {:induction false} WorkAppend(jobs: seq<Job>, job: Job, limit: nat)
    ensures Work(jobs + [job], limit) == Work(jobs, limit) + Weight(job, limit)
  {
    if jobs == [] {
      assert jobs + [job] == [job];
    } else {
      assert (jobs + [job])[1..] == jobs[1..] + [job];
      WorkAppend(jobs[1..], job, limit);
    }
  }

  lemma {:induction false} WorkUpdate(jobs: seq<Job>, j: nat, job: Job, limit: nat)
    requires j < |jobs|
    ensures Work(jobs[j := job], limit) + Weight(jobs[j], limit) == Work(jobs, limit) + Weight(job, limit)
  {
    if j == 0 {
      assert jobs[j := job][1..] == jobs[1..];
    } else {
      assert jobs[j := job][1..] == jobs[1..][j - 1 := job];
      WorkUpdate(jobs[1..], j - 1, job, limit);
    }
  }

  lemma {:induction false} WorkPointwise(a: seq<Job>, b: seq<Job>, limit: nat)
    requires |a| == |b| && forall i | 0 <= i < |a| :: Weight(b[i], limit) <= Weight(a[i], limit)
    ensures Work(b, limit) <= Work(a, limit)
  {
    hide Weight;
    if a != [] {
      assert forall i | 0 <= i < |a[1..]| :: a[1..][i] == a[i + 1] && b[1..][i] == b[i + 1];
      WorkPointwise(a[1..], b[1..], limit);
    }
  }

  /** Ending a job, or failing it for now, uses up the attempt that was running. */
  lemma EndDrains(t: Store, j: nat, job: Job)
    requires Uniform(t) && j < |t.jobs| && t.jobs[j].state == InProgress && !RunningState(job.state)
    requires job.attempts == t.jobs[j].attempts && job.maxAttempts == t.jobs[j].maxAttempts && job.jobType == t.jobs[j].jobType
    requires ActiveState(job.state) ==> job.attempts < t.maxAttempts
    ensures Uniform(SetJob(t, j, job)) && (Bounded(t) ==> Bounded(SetJob(t, j, job)))
    ensures Work(SetJob(t, j, job).jobs, t.maxAttempts) < Work(t.jobs, t.maxAttempts)
  {
    WorkUpdate(t.jobs, j, job, t.maxAttempts);
  }

  /** A queued successor of a strictly later stage weighs no more than what its predecessor was
      still entitled to hand over. */
  lemma SuccessorFits(limit: nat, follow: JobType, ty: JobType)
    requires Later(follow) < Later(ty)
    ensures limit + Later(follow) * limit <= Later(ty) * limit
  {
    assert Later(follow) + 1 <= Later(ty);
    assert (Later(follow) + 1) * limit <= Later(ty) * limit;
  }

  lemma EnqueueDrains(t: Store, tenant: Id, d: Id, v: Option<Id>, follow: JobType)
    requires Uniform(t)
    ensures var t' := Enqueue(t, tenant, d, v, follow);
      && Uniform(t') && (Bounded(t) ==> Bounded(t')) && t'.maxAttempts == t.maxAttempts
      && Work(t'.jobs, t.maxAttempts) <= Work(t.jobs, t.maxAttempts) + t.maxAttempts + Later(follow) * t.maxAttempts
  {
    var job := NewJob(t, tenant, d, v, follow);
    WorkAppend(t.jobs, job, t.maxAttempts);
  }

  /** Success frees the running attempt and all that the job's stage could still lead to. */
  lemma SuccessFrees(t: Store, j: nat)
    requires Uniform(t) && j < |t.jobs| && t.jobs[j].state == InProgress
    ensures var done := Succeed(t, j);
      && Uniform(done) && (Bounded(t) ==> Bounded(done)) && done.maxAttempts == t.maxAttempts
      && Work(done.jobs, t.maxAttempts) + Later(t.jobs[j].jobType) * t.maxAttempts + 1 <= Work(t.jobs, t.maxAttempts)
  {
    hide Work;
    WorkUpdate(t.jobs, j, Succeed(t, j).jobs[j], t.maxAttempts);
  }

  /** A stage that ends well leaves less work than it found. */
  lemma HandOverDrains(t: Store, t1: Store, j: nat, follow: JobType)
    requires Uniform(t) && j < |t.jobs| && t1.jobs == t.jobs && t1.maxAttempts == t.maxAttempts
    requires t.jobs[j].state == InProgress && Later(follow) < Later(t.jobs[j].jobType)
    ensures
      var t' := Enqueue(Succeed(t1, j), t.jobs[j].tenant, t.jobs[j].document, t.jobs[j].version, follow);
      && Uniform(t') && (Bounded(t) ==> Bounded(t')) && t'.maxAttempts == t.maxAttempts
      && Work(t'.jobs, t.maxAttempts) < Work(t.jobs, t.maxAttempts)
  {
    hide Work, Later, Enqueue, Succeed;
    var job := t.jobs[j];
    SuccessFrees(t1, j);
    SuccessorFits(t.maxAttempts, follow, job.jobType);
    EnqueueDrains(Succeed(t1, j), job.tenant, job.document, job.version, follow);
  }

  /** The last step of each stage that hands over. */
  lemma DoneDrains(t: Store, j: nat, phase: Phase, answer: Answer)
    requires Uniform(t) && Ready(t, j, phase) && t.jobs[j].state == InProgress
    requires StageStep(t, j, phase, answer).Done?
    ensures var t' := StageStep(t, j, phase, answer).store;
      && Uniform(t') && (Bounded(t) ==> Bounded(t')) && t'.maxAttempts == t.maxAttempts
      && Work(t'.jobs, t.maxAttempts) < Work(t.jobs, t.maxAttempts)
  {
    var job := t.jobs[j];
    if phase.Loaded? && job.jobType in {Pipeline, ParseDocument} {
      var v := job.version.value;
      if t.ChunksOf(v) != [] {
        HandOverDrains(t, ClearError(WriteStatus(t, v, phase.view.statuses[v], Chunked), v), j, EmbedAndIndex);
      } else {
        HandOverDrains(t, WriteStatus(t, v, phase.view.statuses[v], Parsed), j, ChunkDocument);
      }
    } else if phase.ParseStarted? {
      var v := job.version.value;
      HandOverDrains(t, WriteStatus(t.(sections := t.sections[v := answer.sections]), v, IngestionStatus.Parsing, Parsed), j, ChunkDocument);
    } else if phase.ChunkStarted? {
      HandOverDrains(t, ChunkedStore(t, job.version.value, answer.texts), j, EmbedAndIndex);
    } else if phase.ReindexWiped? {
      var v := job.version.value;
      HandOverDrains(t, SetStatus(t.(chunks := t.chunks - {v}, sections := t.sections - {v}), v, Received, None), j, ParseDocument);
    } else {
      EndDrains(t, j, Succeed(t, j).jobs[j]);
    }
  }

  lemma StageDrains(t: Store, j: nat, phase: Phase, answer: Answer)
    requires Uniform(t) && Ready(t, j, phase) && t.jobs[j].state == InProgress
    ensures
      match StageStep(t, j, phase, answer)
      case Next(t', phase') => t'.jobs == t.jobs && t'.maxAttempts == t.maxAttempts && Rank(phase') < Rank(phase)
      case Done(t') =>
        && Uniform(t') && (Bounded(t) ==> Bounded(t')) && t'.maxAttempts == t.maxAttempts
        && Work(t'.jobs, t.maxAttempts) < Work(t.jobs, t.maxAttempts)
      case Raise(_) => true
  {
    if StageStep(t, j, phase, answer).Done? {
      DoneDrains(t, j, phase, answer);
    }
  }

  predicate WorkerEvent(e: Event) {
    e.Claim? || e.Stage? || e.Exception?
  }

  lemma FailDrains(t: Store, j: nat, fault: Fault, retryAt: int)
    requires Uniform(t) && j < |t.jobs| && t.jobs[j].state == InProgress
    ensures var t' := Fail(t, j, fault, retryAt);
      && Uniform(t') && (Bounded(t) ==> Bounded(t')) && t'.maxAttempts == t.maxAttempts
      && Work(t'.jobs, t.maxAttempts) < Work(t.jobs, t.maxAttempts)
  {
    EndDrains(t, j, Fail(t, j, fault, retryAt).jobs[j]);
  }

  lemma ClaimDrains(t: Store, j: nat, now: int)
    requires Uniform(t) && j < |t.jobs| && Claimable(t.jobs[j], now)
    ensures var t' := ClaimAt(t, j, now);
      Uniform(t') && (Bounded(t) ==> Bounded(t')) && Work(t'.jobs, t.maxAttempts) == Work(t.jobs, t.maxAttempts)
  {
    WorkUpdate(t.jobs, j, ClaimAt(t, j, now).jobs[j], t.maxAttempts);
  }

  /** Every step of the worker uses up budget, attempts that a recovery granted included. */
  lemma StepDrains(s: State, e: Event)
    requires Fit(s) && Enabled(s, e) && WorkerEvent(e)
    ensures Fit(Apply(s, e)) && Budget(Apply(s, e)) < Budget(s)
    ensures Apply(s, e).store.maxAttempts == s.store.maxAttempts && (Within(s) ==> Within(Apply(s, e)))
  {
    hide Work, Ready, StageStep, Fail;
    var t := s.store;
    match e
    case Claim(j, now) => ClaimDrains(t, j, now);
    case Stage(answer) =>
      ReadyJob(t, s.worker.job, s.worker.phase);
      StageDrains(t, s.worker.job, s.worker.phase, answer);
      FailDrains(t, s.worker.job, InvalidValue, 0);
      RaisedInvalid(t, s.worker.job, s.worker.phase, answer);
    case Exception(fault, retryAt) => FailDrains(t, s.worker.job, fault, retryAt);
  }

  lemma ReadyJob(t: Store, j: nat, phase: Phase)
    requires Ready(t, j, phase)
    ensures j < |t.jobs|
  {
  }

  /** A recovery hands out at most the attempts that crashes cut short. */
  lemma RecoveryDrains(t: Store, limit: Option<int>, now: int)
    requires Uniform(t)
    ensures var t' := Recover(t, limit, now);
      Uniform(t') && Work(t'.jobs, t.maxAttempts) <= Work(t.jobs, t.maxAttempts)
  {
    WorkPointwise(t.jobs, Recover(t, limit, now).jobs, t.maxAttempts);
  }

  function WorkerSteps(events: seq<Event>): nat {
    if events == [] then 0 else (if WorkerEvent(events[0]) then 1 else 0) + WorkerSteps(events[1..])
  }

  function Crashes(events: seq<Event>): nat {
    if events == [] then 0 else (if events[0].Crash? then 1 else 0) + Crashes(events[1..])
  }

  /** Without new requests the worker's claims, steps and failures are bounded by the budget of the
      state they start from, with at most seven more for every crash, however often and whatever
      is recovered. */
  lemma {:induction false} PipelineDrains(s: State, events: seq<Event>)
    requires Fit(s) && IsRun(s, events)
    requires forall i | 0 <= i < |events| :: !Request(events[i])
    ensures WorkerSteps(events) + Budget(After(s, events)) <= Budget(s) + 7 * Crashes(events)
    ensures Fit(After(s, events))
    decreases |events|
  {
    hide Work;
    if events != [] {
      var e := events[0];
      if WorkerEvent(e) {
        StepDrains(s, e);
      } else if e.Recovery? {
        RecoveryDrains(s.store, e.limit, e.now);
      }
      PipelineDrains(Apply(s, e), events[1..]);
    }
  }

  /** Short of a recovery, requests and crashes keep every job within its attempts as well. */
  lemma StepBounded(s: State, e: Event)
    requires Within(s) && Enabled(s, e) && !e.Recovery?
    ensures Within(Apply(s, e)) && Apply(s, e).store.maxAttempts == s.store.maxAttempts
  {
    if WorkerEvent(e) {
      StepDrains(s, e);
    }
  }

  lemma {:induction false} AttemptsBounded(s: State, events: seq<Event>)
    requires Within(s) && IsRun(s, events) && forall i | 0 <= i < |events| :: !events[i].Recovery?
    ensures
      var t := After(s, events).store;
      && Within(After(s, events))
      && t.maxAttempts == s.store.maxAttempts
      && forall j | 0 <= j < |t.jobs| :: t.jobs[j].attempts <= s.store.maxAttempts
    decreases |events|
  {
    if events != [] {
      StepBounded(s, events[0]);
      AttemptsBounded(Apply(s, events[0]), events[1..]);
    }
  }

  /** Recovery ignores the limit: it keeps jobs within their attempts exactly when every job
      it recovers still has one left. */
  lemma RecoveryBoundedIff(t: Store, limit: Option<int>, now: int)
    requires Bounded(t)
    ensures Bounded(Recover(t, limit, now)) <==>
              forall j | 0 <= j < |t.jobs| && Recovered(t.jobs[j], limit, now) != t.jobs[j] :: t.jobs[j].attempts < t.maxAttempts
  {
    var t' := Recover(t, limit, now);
    if j :| 0 <= j < |t.jobs| && Recovered(t.jobs[j], limit, now) != t.jobs[j] && t.jobs[j].attempts >= t.maxAttempts {
      assert ClaimableState(t'.jobs[j].state) && t'.jobs[j].attempts == t.jobs[j].attempts;
    }
  }

  /** One job, one attempt allowed, a worker that dies: the recovered job is attempted twice. */
  lemma RecoveryExceedsTheLimit()
    ensures
      var t := Store(map[0 := Document(0, "k", false, Some(0))], map[0 := Version(0, 0, "h", Received, None)],
                     [Job(0, 0, Some(0), ParseDocument, Pending, 0, 1, None, None)], map[], map[], [], 0, 1);
      var events := [Claim(0, 10), Crash, Recovery(None, 20), Claim(0, 20)];
      Within(State(t, Idle)) && IsRun(State(t, Idle), events) && After(State(t, Idle), events).store.jobs[0].attempts == 2
  {
    var t := Store(map[0 := Document(0, "k", false, Some(0))], map[0 := Version(0, 0, "h", Received, None)],
                   [Job(0, 0, Some(0), ParseDocument, Pending, 0, 1, None, None)], map[], map[], [], 0, 1);
    var s := State(t, Idle);
    var events := [Claim(0, 10), Crash, Recovery(None, 20), Claim(0, 20)];
    var s1 := Apply(s, events[0]);
    var s2 := Apply(s1, events[1]);
    var s3 := Apply(s2, events[2]);
    var s4 := Apply(s3, events[3]);
    assert events[1..][0] == events[1] && events[1..][1..] == events[2..];
    assert events[2..][0] == events[2] && events[2..][1..] == events[3..];
    assert events[3..][0] == events[3] && events[3..][1..] == [];
    assert IsRun(s4, []) && After(s4, []) == s4;
    assert Enabled(s3, events[3]);
    assert IsRun(s3, events[3..]) && After(s3, events[3..]) == s4;
    assert IsRun(s2, events[2..]) && After(s2, events[2..]) == s4;
    assert IsRun(s1, events[1..]) && After(s1, events[1..]) == s4;
  }
}
