/** The vector store, the repository, the worker and the acceptance service as objects. Every
    method is proved against the functions of the transition system, and `trace` records the
    run of that system the objects have gone through. */
module IngestionWorker {
  import opened Options
  import opened IngestionModel
  import opened IngestionSteps
  import opened IngestionSafety
  import opened IngestionLiveness

  // ------------------------------------------------------------ vector store

  /** `InMemoryVectorStore`: a dictionary of points in insertion order. */
  class InMemoryVectorStore {
    var points: seq<Point>

    constructor ()
      ensures points == []
    {
      points := [];
    }

    method Upsert(updates: seq<Point>)
      modifies this
      ensures points == IngestionModel.Upsert(old(points), updates)
    {
      for i := 0 to |updates|
        invariant IngestionModel.Upsert(points, updates[i..]) == IngestionModel.Upsert(old(points), updates)
      {
        assert updates[i..][0] == updates[i] && updates[i..][1..] == updates[i + 1..];
        ghost var before := points;
        var k := 0;
        while k < |points| && points[k].id != updates[i].id
          invariant 0 <= k <= |points| && points == before
          invariant Put(points, updates[i]) == points[..k] + Put(points[k..], updates[i])
        {
          assert points[k..][0] == points[k] && points[k..][1..] == points[k + 1..];
          assert points[..k + 1] == points[..k] + [points[k]];
          k := k + 1;
        }
        if k < |points| {
          assert points[k..][0] == points[k] && points[k..][1..] == points[k + 1..];
          points := points[..k] + [updates[i]] + points[k + 1..];
        } else {
          points := points + [updates[i]];
        }
        assert points == Put(before, updates[i]);
      }
    }

    method DeleteDocument(tenant: Id, d: Id)
      modifies this
      ensures points == RemoveDocument(old(points), tenant, d)
    {
      var kept := [];
      for i := 0 to |points|
        invariant points == old(points)
        invariant RemoveDocument(points, tenant, d) == kept + RemoveDocument(points[i..], tenant, d)
      {
        assert points[i..][0] == points[i] && points[i..][1..] == points[i + 1..];
        if points[i].tenant != tenant || points[i].document != d {
          kept := kept + [points[i]];
        }
      }
      points := kept;
    }

    method DeleteVersion(tenant: Id, v: Id)
      modifies this
      ensures points == RemoveVersion(old(points), tenant, v)
    {
      var kept := [];
      for i := 0 to |points|
        invariant points == old(points)
        invariant RemoveVersion(points, tenant, v) == kept + RemoveVersion(points[i..], tenant, v)
      {
        assert points[i..][0] == points[i] && points[i..][1..] == points[i + 1..];
        if points[i].tenant != tenant || points[i].version != v {
          kept := kept + [points[i]];
        }
      }
      points := kept;
    }
  }

  // -------------------------------------------------------------- repository

  lemma {:induction false} Extend(s: State, events: seq<Event>, e: Event)
    requires IsRun(s, events) && Enabled(After(s, events), e)
    ensures IsRun(s, events + [e]) && After(s, events + [e]) == Apply(After(s, events), e)
    decreases |events|
  {
    if events == [] {
      assert events + [e] == [e];
      assert [e][1..] == [];
      assert IsRun(Apply(s, e), [e][1..]);
    } else {
      assert (events + [e])[0] == events[0] && (events + [e])[1..] == events[1..] + [e];
      Extend(Apply(s, events[0]), events[1..], e);
    }
  }

  /** How many rows a recovery rewrites. */
  function Changed(jobs: seq<Job>, limit: Option<int>, now: int): nat {
    if jobs == [] then 0
    else
      var last := jobs[|jobs| - 1];
      Changed(jobs[..|jobs| - 1], limit, now) + if Recovered(last, limit, now) != last then 1 else 0
  }

  /** `DocumentRepository` over the database session, with the vector store beside it. */
  class DocumentRepository {
    var docs: map<Id, Document>
    var versions: map<Id, Version>
    var jobs: seq<Job>
    var sections: map<Id, seq<string>>
    var chunks: map<Id, seq<Chunk>>
    var nextChunk: Id
    const maxAttempts: nat
    const vectors: InMemoryVectorStore

    ghost var trace: seq<Event>

    constructor (maxAttempts: nat)
      ensures Valid(Idle) && fresh(vectors) && this.maxAttempts == maxAttempts && trace == []
    {
      this.maxAttempts := maxAttempts;
      docs, versions, jobs, sections, chunks, nextChunk := map[], map[], [], map[], map[], 0;
      vectors := new InMemoryVectorStore();
      trace := [];
    }

    ghost function Snapshot(): Store
      reads this, vectors
    {
      Store(docs, versions, jobs, sections, chunks, vectors.points, nextChunk, maxAttempts)
    }

    /** The tables are those of a run from the empty deployment, and nothing is lost in them. */
    ghost predicate Valid(worker: Worker)
      reads this, vectors
    {
      && IsRun(Initial(maxAttempts), trace)
      && After(Initial(maxAttempts), trace) == State(Snapshot(), worker)
      && Live(State(Snapshot(), worker))
    }

    /** Notes that the last change was the event `e` of the transition system. */
    ghost method Record(s: State, e: Event, worker: Worker)
      requires IsRun(Initial(maxAttempts), trace) && After(Initial(maxAttempts), trace) == s
      requires Live(s) && Enabled(s, e) && Careful(s, e) && Apply(s, e) == State(Snapshot(), worker)
      modifies this`trace
      ensures Valid(worker) && trace == old(trace) + [e]
    {
      Extend(Initial(maxAttempts), trace, e);
      StepLive(s, e);
      trace := trace + [e];
    }

    method EnqueueJob(tenant: Id, d: Id, v: Option<Id>, ty: JobType)
      modifies this`jobs
      ensures Snapshot() == Enqueue(old(Snapshot()), tenant, d, v, ty)
    {
      ghost var t := Snapshot();
      for k := 0 to |jobs|
        invariant jobs == old(jobs)
        invariant forall i | 0 <= i < k :: ty == DeleteFromIndex ==> !ActiveDelete(jobs[i], d)
        invariant forall i | 0 <= i < k :: ty != DeleteFromIndex && v.Some? ==> !ActiveStage(jobs[i], v.value, ty)
      {
        if ty == DeleteFromIndex && ActiveDelete(jobs[k], d) {
          assert HasDelete(t, d);
          return;
        }
        if ty != DeleteFromIndex && v.Some? && ActiveStage(jobs[k], v.value, ty) {
          assert HasStage(t, v.value, ty);
          return;
        }
      }
      jobs := jobs + [Job(tenant, d, v, ty, Pending, 0, maxAttempts, None, None)];
    }

    /** The oldest job that may be claimed now, if there is one. */
    method ClaimJob(now: int) returns (claimed: Option<nat>)
      requires Valid(Idle)
      modifies this`jobs, this`trace
      ensures claimed.None? ==>
                && Snapshot() == old(Snapshot()) && trace == old(trace) && Valid(Idle)
                && forall j | 0 <= j < |jobs| :: !Claimable(jobs[j], now)
      ensures claimed.Some? ==>
                && claimed.value < |old(jobs)|
                && Claimable(old(jobs)[claimed.value], now)
                && (forall i | 0 <= i < claimed.value :: !Claimable(old(jobs)[i], now))
                && Snapshot() == ClaimAt(old(Snapshot()), claimed.value, now)
                && trace == old(trace) + [Event.Claim(claimed.value, now)]
                && Valid(Busy(claimed.value, Claimed))
    {
      hide Live, IsRun, After;
      ghost var t := Snapshot();
      for j := 0 to |jobs|
        invariant jobs == old(jobs) && trace == old(trace)
        invariant forall i | 0 <= i < j :: !Claimable(jobs[i], now)
      {
        if Claimable(jobs[j], now) {
          jobs := jobs[j := jobs[j].(state := InProgress, lockedAt := Some(now), attempts := jobs[j].attempts + 1)];
          Record(State(t, Idle), Event.Claim(j, now), Busy(j, Claimed));
          return Some(j);
        }
      }
      return None;
    }

    /** `recover_stale_jobs`, and with no threshold `recover_orphaned_jobs_after_lock_handoff`. */
    method RecoverJobs(limit: Option<int>, now: int) returns (count: nat)
      requires Valid(Idle)
      modifies this`jobs, this`trace
      ensures Valid(Idle) && trace == old(trace) + [Event.Recovery(limit, now)]
      ensures Snapshot() == Recover(old(Snapshot()), limit, now)
      ensures count == Changed(old(jobs), limit, now)
    {
      hide Live, IsRun, After;
      ghost var t := Snapshot();
      count := 0;
      for j := 0 to |jobs|
        invariant |jobs| == |t.jobs| && trace == old(trace)
        invariant forall i | 0 <= i < j :: jobs[i] == Recovered(t.jobs[i], limit, now)
        invariant forall i | j <= i < |jobs| :: jobs[i] == t.jobs[i]
        invariant count == Changed(t.jobs[..j], limit, now)
      {
        hide Recover;
        var job := jobs[j];
        assert t.jobs[..j + 1][..j] == t.jobs[..j];
        if RunningState(job.state) && (limit.Some? ==> job.lockedAt.Some? && job.lockedAt.value < limit.value) {
          jobs := jobs[j := job.(state := FailedRetryable, retryAt := Some(now), lockedAt := None)];
          count := count + 1;
        }
      }
      assert t.jobs[..|jobs|] == t.jobs;
      assert jobs == Recover(t, limit, now).jobs;
      assert Snapshot() == Recover(t, limit, now);
      Record(State(t, Idle), Event.Recovery(limit, now), Idle);
    }
  }

  // ------------------------------------------------------------------ worker

  /** What the outside world answers during one attempt of a job: the parser, the chunker, the
      embedding provider, and whether the vector store's calls fail. `retryAt` is the backoff. */
  datatype Environment = Environment(
    parsed: seq<string>, parserFault: Option<Fault>, texts: seq<string>,
    vectors: seq<Vector>, embeddingFault: Option<Fault>,
    deleteFault: bool, upsertFault: bool, retryAt: int)
  {
    function Replies(): Answer {
      Answer(parsed, texts, vectors)
    }
  }

  /** What a stage leaves behind: the store as last committed, and the exception it stopped with. */
  datatype Ending = Ending(store: Store, fault: Option<Fault>)

  function Settle(t: Store, o: Outcome): Ending
    requires !o.Next?
  {
    match o
    case Done(t') => Ending(t', None)
    case Raise(fault) => Ending(t, Some(fault))
  }

  ghost predicate Staged(t: Store, j: nat) {
    Loadable(t, j) && t.jobs[j].version.Some? && t.jobs[j].version.value in t.versions
  }

  function AfterParse(t: Store, j: nat, seen: IngestionStatus, env: Environment): Ending
    requires Staged(t, j)
  {
    var o := BeginParse(t, j, seen);
    if !o.Next? then Settle(t, o)
    else if env.parserFault.Some? then Ending(o.store, env.parserFault)
    else Settle(o.store, FinishParse(o.store, j, env.parsed))
  }

  function AfterChunk(t: Store, j: nat, seen: IngestionStatus, env: Environment): Ending
    requires Staged(t, j)
  {
    var o := BeginChunk(t, j, seen);
    if !o.Next? then Settle(t, o) else Settle(o.store, FinishChunk(o.store, j, env.texts))
  }

  /** From the INDEXING commit on. */
  function AfterPublish(t: Store, j: nat, env: Environment): Ending
    requires Staged(t, j) && |env.vectors| == |t.ChunksOf(t.jobs[j].version.value)|
  {
    var job := t.jobs[j];
    if env.deleteFault then Ending(t, Some(QdrantUnavailable))
    else
      var wiped := t.(index := RemoveDocument(t.index, job.tenant, job.document));
      if env.upsertFault then Ending(wiped, Some(QdrantUnavailable))
      else
        var points := MakePoints(job.tenant, job.document, job.version.value, t.ChunksOf(job.version.value), env.vectors, true);
        Ending(FinishEmbed(wiped.(index := Upsert(wiped.index, points)), j), None)
  }

  function AfterEmbed(t: Store, j: nat, view: View, env: Environment): Ending
    requires Staged(t, j) && t.jobs[j].version.value in view.statuses
  {
    var o := BeginEmbed(t, j, view);
    if !o.Next? then Settle(t, o)
    else if o.phase.InactiveDropped? then
      if env.deleteFault then Ending(t, Some(Unexpected)) else Ending(IngestionModel.Succeed(o.store, j), None)
    else if env.embeddingFault.Some? then Ending(o.store, env.embeddingFault)
    else
      var i := BeginIndex(o.store, j, env.vectors);
      if !i.Next? then Settle(o.store, i) else AfterPublish(i.store, j, env)
  }

  function AfterReindex(t: Store, j: nat, env: Environment): Ending
    requires Staged(t, j)
  {
    if env.deleteFault then Ending(t, Some(Unexpected))
    else Ending(FinishReindex(t.(index := RemoveDocument(t.index, t.jobs[j].tenant, t.jobs[j].document)), j), None)
  }

  function AfterDelete(t: Store, j: nat, view: View, env: Environment): Ending
    requires Loadable(t, j)
  {
    var o := BeginDelete(t, j, view);
    if !o.Next? then Settle(t, o)
    else if env.deleteFault then Ending(o.store, Some(Unexpected))
    else
      var wiped := o.store.(index := RemoveDocument(o.store.index, t.jobs[j].tenant, t.jobs[j].document));
      Ending(FinishDelete(wiped, j, ToDelete(view)), None)
  }

  function AfterStage(t: Store, j: nat, view: View, env: Environment): Ending
    requires Loadable(t, j)
    requires t.jobs[j].jobType != DeleteFromIndex ==> Staged(t, j) && t.jobs[j].version.value in view.statuses
  {
    match t.jobs[j].jobType
    case Pipeline => AfterParse(t, j, view.statuses[t.jobs[j].version.value], env)
    case ParseDocument => AfterParse(t, j, view.statuses[t.jobs[j].version.value], env)
    case ChunkDocument => AfterChunk(t, j, view.statuses[t.jobs[j].version.value], env)
    case EmbedAndIndex => AfterEmbed(t, j, view, env)
    case ReindexDocument => AfterReindex(t, j, env)
    case DeleteFromIndex => AfterDelete(t, j, view, env)
  }

  /** A stage's ending with its exception recorded by the failure handler. */
  function Closed(e: Ending, j: nat, retryAt: int): Store {
    if e.fault.None? || j >= |e.store.jobs| then e.store else IngestionSteps.Fail(e.store, j, e.fault.value, retryAt)
  }

  /** What a turn makes of the claimed job. */
  ghost predicate TurnResult(t: Store, j: nat, env: Environment, result: Store) {
    && j < |t.jobs| && OwnJob(t, t.jobs[j])
    && result == Closed(AfterStage(t, j, ViewOf(t, t.jobs[j]), env), j, env.retryAt)
  }

  /** `after` continues `before` with commits of the running job only. */
  ghost predicate OwnSteps(before: seq<Event>, after: seq<Event>) {
    before <= after && forall i | |before| <= i < |after| :: after[i].Stage? || after[i].Exception?
  }

  /** `IngestionWorker`. A stage method returns the exception it stops with, if any, and in
      `phase` how far its commits had come. */
  class IngestionWorker {
    const repository: DocumentRepository

    constructor (repository: DocumentRepository)
      ensures this.repository == repository
    {
      this.repository := repository;
    }

    ghost predicate At(j: nat, phase: Phase)
      reads repository, repository.vectors
    {
      repository.Valid(Busy(j, phase))
    }

    /** How every stage method ends: as computed, idle or at the phase the exception struck in,
        and by steps of job `j` alone. */
    ghost predicate Ended(e: Ending, fault: Option<Fault>, j: nat, phase: Phase, before: seq<Event>)
      reads repository, repository.vectors
    {
      && repository.Snapshot() == e.store && fault == e.fault
      && (if fault.None? then repository.Valid(Idle) else At(j, phase))
      && OwnSteps(before, repository.trace)
    }

    lemma RowsAt(j: nat, phase: Phase)
      requires At(j, phase) && j < |repository.jobs|
      ensures IndexTied(repository.Snapshot()) && OwnJob(repository.Snapshot(), repository.jobs[j])
    {
    }

    lemma NowReady(j: nat, phase: Phase)
      requires At(j, phase)
      ensures Ready(repository.Snapshot(), j, phase)
    {
    }

    method Succeed(j: nat)
      requires j < |repository.jobs|
      modifies repository`jobs
      ensures repository.Snapshot() == IngestionModel.Succeed(old(repository.Snapshot()), j)
    {
      repository.jobs := repository.jobs[j := repository.jobs[j].(state := Succeeded, lockedAt := None)];
    }

    /** `transition` on the loaded row, once the table has allowed it. */
    method Transition(v: Id, seen: IngestionStatus, target: IngestionStatus)
      requires v in repository.versions
      modifies repository`versions
      ensures repository.Snapshot() == WriteStatus(old(repository.Snapshot()), v, seen, target)
    {
      if seen != target {
        repository.versions := repository.versions[v := repository.versions[v].(status := target)];
      }
    }

    method MarkAll(vs: set<Id>, target: IngestionStatus)
      modifies repository`versions
      ensures repository.Snapshot() == SetStatuses(old(repository.Snapshot()), vs, target)
    {
      ghost var t := repository.Snapshot();
      var rest := vs;
      while rest != {}
        invariant rest <= vs
        invariant repository.Snapshot() == SetStatuses(t, vs - rest, target)
        decreases |rest|
      {
        var v :| v in rest;
        if v in repository.versions {
          repository.versions := repository.versions[v := repository.versions[v].(status := target)];
        }
        rest := rest - {v};
        assert repository.versions == SetStatuses(t, vs - rest, target).versions;
      }
      assert vs - rest == vs;
    }

    method Parse(j: nat, seen: IngestionStatus, env: Environment, ghost view: View) returns (fault: Option<Fault>, ghost phase: Phase)
      requires At(j, Loaded(view)) && repository.jobs[j].jobType in {Pipeline, ParseDocument}
      requires Staged(repository.Snapshot(), j) && seen == view.statuses[repository.jobs[j].version.value]
      modifies repository
      ensures Ended(AfterParse(old(repository.Snapshot()), j, seen, env), fault, j, phase, old(repository.trace))
    {
      var v := repository.jobs[j].version.value;
      fault, phase := None, Loaded(view);
      if v in repository.chunks && repository.chunks[v] != [] {
        ResumeFromChunks(j, seen, env, view);
      } else if v in repository.sections && repository.sections[v] != [] {
        ResumeFromSections(j, seen, env, view);
      } else if !Allowed(seen, IngestionStatus.Parsing) {
        fault := Some(InvalidValue);
      } else {
        fault, phase := ParseObject(j, seen, env, view);
      }
    }

    method ParseObject(j: nat, seen: IngestionStatus, env: Environment, ghost view: View) returns (fault: Option<Fault>, ghost phase: Phase)
      requires At(j, Loaded(view)) && repository.jobs[j].jobType in {Pipeline, ParseDocument}
      requires Staged(repository.Snapshot(), j) && seen == view.statuses[repository.jobs[j].version.value]
      requires BeginParse(repository.Snapshot(), j, seen).Next?
      modifies repository
      ensures Ended(AfterParse(old(repository.Snapshot()), j, seen, env), fault, j, phase, old(repository.trace))
    {
      EnterParsing(j, seen, env, view);
      fault, phase := None, ParseStarted;
      if env.parserFault.Some? {
        fault := env.parserFault;
      } else {
        fault := StoreSections(j, env);
      }
    }

    method EnterParsing(j: nat, seen: IngestionStatus, env: Environment, ghost view: View)
      requires At(j, Loaded(view)) && repository.jobs[j].jobType in {Pipeline, ParseDocument}
      requires Staged(repository.Snapshot(), j) && seen == view.statuses[repository.jobs[j].version.value]
      requires BeginParse(repository.Snapshot(), j, seen).Next?
      modifies repository
      ensures At(j, ParseStarted) && OwnSteps(old(repository.trace), repository.trace)
      ensures repository.Snapshot() == BeginParse(old(repository.Snapshot()), j, seen).store
    {
      ghost var t := repository.Snapshot();
      Transition(repository.jobs[j].version.value, seen, IngestionStatus.Parsing);
      repository.Record(State(t, Busy(j, Loaded(view))), Event.Stage(env.Replies()), Busy(j, ParseStarted));
    }

    method ResumeFromChunks(j: nat, seen: IngestionStatus, env: Environment, ghost view: View)
      requires At(j, Loaded(view)) && repository.jobs[j].jobType in {Pipeline, ParseDocument}
      requires Staged(repository.Snapshot(), j) && seen == view.statuses[repository.jobs[j].version.value]
      requires repository.Snapshot().ChunksOf(repository.jobs[j].version.value) != []
      modifies repository
      ensures Ended(Settle(old(repository.Snapshot()), BeginParse(old(repository.Snapshot()), j, seen)),
                    None, j, Loaded(view), old(repository.trace))
    {
      hide Live, IsRun, After;
      NowReady(j, Loaded(view));
      ghost var t := repository.Snapshot();
      var job := repository.jobs[j];
      var v := job.version.value;
      Transition(v, seen, IngestionStatus.Chunked);
      repository.versions := repository.versions[v := repository.versions[v].(error := None)];
      Succeed(j);
      repository.EnqueueJob(job.tenant, job.document, Some(v), JobType.EmbedAndIndex);
      assert repository.Snapshot() == BeginParse(t, j, seen).store;
      repository.Record(State(t, Busy(j, Loaded(view))), Event.Stage(env.Replies()), Idle);
    }

    method ResumeFromSections(j: nat, seen: IngestionStatus, env: Environment, ghost view: View)
      requires At(j, Loaded(view)) && repository.jobs[j].jobType in {Pipeline, ParseDocument}
      requires Staged(repository.Snapshot(), j) && seen == view.statuses[repository.jobs[j].version.value]
      requires repository.Snapshot().ChunksOf(repository.jobs[j].version.value) == []
      requires repository.Snapshot().SectionsOf(repository.jobs[j].version.value) != []
      modifies repository
      ensures Ended(Settle(old(repository.Snapshot()), BeginParse(old(repository.Snapshot()), j, seen)),
                    None, j, Loaded(view), old(repository.trace))
    {
      hide Live, IsRun, After;
      NowReady(j, Loaded(view));
      ghost var t := repository.Snapshot();
      var job := repository.jobs[j];
      var v := job.version.value;
      Transition(v, seen, IngestionStatus.Parsed);
      Succeed(j);
      repository.EnqueueJob(job.tenant, job.document, Some(v), ChunkDocument);
      assert repository.Snapshot() == BeginParse(t, j, seen).store;
      repository.Record(State(t, Busy(j, Loaded(view))), Event.Stage(env.Replies()), Idle);
    }

    method StoreSections(j: nat, env: Environment) returns (fault: Option<Fault>)
      requires At(j, ParseStarted) && Staged(repository.Snapshot(), j)
      modifies repository
      ensures Ended(Settle(old(repository.Snapshot()), FinishParse(old(repository.Snapshot()), j, env.parsed)),
                    fault, j, ParseStarted, old(repository.trace))
    {
      hide Live, IsRun, After;
      NowReady(j, ParseStarted);
      ghost var t := repository.Snapshot();
      var job := repository.jobs[j];
      var v := job.version.value;
      if !Usable(env.parsed) {
        return Some(InvalidValue);
      }
      repository.sections := repository.sections[v := env.parsed];
      Transition(v, IngestionStatus.Parsing, IngestionStatus.Parsed);
      Succeed(j);
      repository.EnqueueJob(job.tenant, job.document, Some(v), ChunkDocument);
      repository.Record(State(t, Busy(j, ParseStarted)), Event.Stage(env.Replies()), Idle);
      return None;
    }

    method Chunk(j: nat, seen: IngestionStatus, env: Environment, ghost view: View) returns (fault: Option<Fault>, ghost phase: Phase)
      requires At(j, Loaded(view)) && repository.jobs[j].jobType == ChunkDocument
      requires Staged(repository.Snapshot(), j) && seen == view.statuses[repository.jobs[j].version.value]
      modifies repository
      ensures Ended(AfterChunk(old(repository.Snapshot()), j, seen, env), fault, j, phase, old(repository.trace))
    {
      hide Live, IsRun, After;
      NowReady(j, Loaded(view));
      ghost var t := repository.Snapshot();
      fault, phase := None, Loaded(view);
      if !Allowed(seen, Chunking) {
        fault := Some(InvalidValue);
      } else {
        Transition(repository.jobs[j].version.value, seen, Chunking);
        repository.Record(State(t, Busy(j, phase)), Event.Stage(env.Replies()), Busy(j, ChunkStarted));
        phase := ChunkStarted;
        fault := StoreChunks(j, env);
      }
    }

    method StoreChunks(j: nat, env: Environment) returns (fault: Option<Fault>)
      requires At(j, ChunkStarted) && Staged(repository.Snapshot(), j)
      modifies repository
      ensures Ended(Settle(old(repository.Snapshot()), FinishChunk(old(repository.Snapshot()), j, env.texts)),
                    fault, j, ChunkStarted, old(repository.trace))
    {
      ghost var t := repository.Snapshot();
      var job := repository.jobs[j];
      var v := job.version.value;
      if env.texts == [] {
        return Some(InvalidValue);
      }
      PutRows(v, env.texts);
      Transition(v, Chunking, IngestionStatus.Chunked);
      Succeed(j);
      repository.EnqueueJob(job.tenant, job.document, Some(v), JobType.EmbedAndIndex);
      assert repository.Snapshot() == FinishChunk(t, j, env.texts).store;
      repository.Record(State(t, Busy(j, ChunkStarted)), Event.Stage(env.Replies()), Idle);
      return None;
    }

    method PutRows(v: Id, texts: seq<string>)
      modifies repository`chunks, repository`nextChunk
      ensures
        var t := old(repository.Snapshot());
        repository.Snapshot() == t.(chunks := t.chunks[v := NewRows(t.nextChunk, texts)], nextChunk := t.nextChunk + |texts|)
    {
      var rows := MakeRows(repository.nextChunk, texts);
      repository.chunks := repository.chunks[v := rows];
      repository.nextChunk := repository.nextChunk + |texts|;
    }

    method MakeRows(first: Id, texts: seq<string>) returns (rows: seq<IngestionModel.Chunk>)
      ensures rows == NewRows(first, texts)
    {
      rows := [];
      for i := 0 to |texts|
        invariant rows == NewRows(first, texts)[..i]
      {
        rows := rows + [IngestionModel.Chunk(first + i, texts[i])];
      }
    }

    method EmbedAndIndex(j: nat, view: View, env: Environment) returns (fault: Option<Fault>, ghost phase: Phase)
      requires At(j, Loaded(view)) && repository.jobs[j].jobType == JobType.EmbedAndIndex
      requires Staged(repository.Snapshot(), j) && repository.jobs[j].version.value in view.statuses
      modifies repository, repository.vectors
      ensures Ended(AfterEmbed(old(repository.Snapshot()), j, view, env), fault, j, phase, old(repository.trace))
      ensures
        var t, job := old(repository.Snapshot()), old(repository.jobs)[j];
        fault.None? && !view.deleted && view.current == job.version ==>
          && job.version.value in t.chunks
          && Published(t, repository.Snapshot(), job, job.version.value, t.chunks[job.version.value], env.vectors)
    {
      hide Published;
      var v := repository.jobs[j].version.value;
      fault, phase := None, Loaded(view);
      if view.deleted || view.current != Some(v) {
        if env.deleteFault {
          fault := Some(Unexpected);
        } else {
          DropInactive(j, view, env);
        }
      } else {
        var rows := if v in repository.chunks then repository.chunks[v] else [];
        if rows == [] || !Allowed(view.statuses[v], Embedding) {
          fault := Some(InvalidValue);
        } else {
          fault, phase := Embed(j, view, rows, env);
        }
      }
    }

    method Embed(j: nat, view: View, rows: seq<IngestionModel.Chunk>, env: Environment) returns (fault: Option<Fault>, ghost phase: Phase)
      requires At(j, Loaded(view)) && repository.jobs[j].jobType == JobType.EmbedAndIndex
      requires Staged(repository.Snapshot(), j) && repository.jobs[j].version.value in view.statuses
      requires BeginEmbed(repository.Snapshot(), j, view).Next? && BeginEmbed(repository.Snapshot(), j, view).phase.EmbedStarted?
      requires rows == repository.Snapshot().ChunksOf(repository.jobs[j].version.value)
      modifies repository, repository.vectors
      ensures Ended(AfterEmbed(old(repository.Snapshot()), j, view, env), fault, j, phase, old(repository.trace))
      ensures
        var t, job := old(repository.Snapshot()), old(repository.jobs)[j];
        fault.None? ==> Published(t, repository.Snapshot(), job, job.version.value, rows, env.vectors)
    {
      hide DocumentRepository.Valid, FinishEmbed, MakePoints, Upsert, RemoveDocument, RemoveVersion, WriteStatus;
      EnterEmbedding(j, view, env);
      fault, phase := None, EmbedStarted;
      if env.embeddingFault.Some? {
        fault := env.embeddingFault;
      } else if |env.vectors| != |rows| {
        fault := Some(InvalidValue);
      } else {
        EnterIndexing(j, env);
        fault, phase := Publish(j, rows, env);
      }
    }

    method DropInactive(j: nat, view: View, env: Environment)
      requires At(j, Loaded(view)) && repository.jobs[j].jobType == JobType.EmbedAndIndex
      requires Staged(repository.Snapshot(), j) && repository.jobs[j].version.value in view.statuses
      requires view.deleted || view.current != repository.jobs[j].version
      modifies repository, repository.vectors
      ensures Ended(Ending(IngestionModel.Succeed(BeginEmbed(old(repository.Snapshot()), j, view).store, j), None),
                    None, j, Loaded(view), old(repository.trace))
    {
      ghost var t := repository.Snapshot();
      repository.vectors.DeleteVersion(repository.jobs[j].tenant, repository.jobs[j].version.value);
      repository.Record(State(t, Busy(j, Loaded(view))), Event.Stage(env.Replies()), Busy(j, InactiveDropped));
      CloseDropped(j, env);
    }

    method CloseDropped(j: nat, env: Environment)
      requires At(j, InactiveDropped) && j < |repository.jobs|
      modifies repository
      ensures Ended(Ending(IngestionModel.Succeed(old(repository.Snapshot()), j), None), None, j, InactiveDropped, old(repository.trace))
    {
      ghost var t := repository.Snapshot();
      Succeed(j);
      repository.Record(State(t, Busy(j, InactiveDropped)), Event.Stage(env.Replies()), Idle);
    }

    method EnterEmbedding(j: nat, view: View, env: Environment)
      requires At(j, Loaded(view)) && repository.jobs[j].jobType == JobType.EmbedAndIndex
      requires Staged(repository.Snapshot(), j) && repository.jobs[j].version.value in view.statuses
      requires BeginEmbed(repository.Snapshot(), j, view).Next? && BeginEmbed(repository.Snapshot(), j, view).phase.EmbedStarted?
      modifies repository
      ensures At(j, EmbedStarted) && OwnSteps(old(repository.trace), repository.trace)
      ensures Staged(repository.Snapshot(), j) && repository.jobs == old(repository.jobs) && repository.chunks == old(repository.chunks)
      ensures repository.Snapshot() == BeginEmbed(old(repository.Snapshot()), j, view).store
    {
      hide Live, IsRun, After;
      NowReady(j, Loaded(view));
      ghost var t := repository.Snapshot();
      var v := repository.jobs[j].version.value;
      Transition(v, view.statuses[v], Embedding);
      repository.Record(State(t, Busy(j, Loaded(view))), Event.Stage(env.Replies()), Busy(j, EmbedStarted));
    }

    method EnterIndexing(j: nat, env: Environment)
      requires At(j, EmbedStarted) && Staged(repository.Snapshot(), j)
      requires |env.vectors| == |repository.Snapshot().ChunksOf(repository.jobs[j].version.value)|
      modifies repository
      ensures At(j, IndexStarted(env.vectors)) && OwnSteps(old(repository.trace), repository.trace)
      ensures Staged(repository.Snapshot(), j) && repository.jobs == old(repository.jobs) && repository.chunks == old(repository.chunks)
      ensures BeginIndex(old(repository.Snapshot()), j, env.vectors) == Next(repository.Snapshot(), IndexStarted(env.vectors))
    {
      hide Live, IsRun, After;
      NowReady(j, EmbedStarted);
      ghost var t := repository.Snapshot();
      Transition(repository.jobs[j].version.value, Embedding, Indexing);
      repository.Record(State(t, Busy(j, EmbedStarted)), Event.Stage(env.Replies()), Busy(j, IndexStarted(env.vectors)));
    }

    method Publish(j: nat, rows: seq<IngestionModel.Chunk>, env: Environment) returns (fault: Option<Fault>, ghost phase: Phase)
      requires At(j, IndexStarted(env.vectors)) && Staged(repository.Snapshot(), j)
      requires rows == repository.Snapshot().ChunksOf(repository.jobs[j].version.value) && |rows| == |env.vectors|
      modifies repository, repository.vectors
      ensures Ended(AfterPublish(old(repository.Snapshot()), j, env), fault, j, phase, old(repository.trace))
      ensures
        var t, job := old(repository.Snapshot()), old(repository.jobs)[j];
        fault.None? ==> Published(t, repository.Snapshot(), job, job.version.value, rows, env.vectors)
    {
      hide Live, IsRun, After, Published;
      NowReady(j, IndexStarted(env.vectors));
      RowsAt(j, IndexStarted(env.vectors));
      ghost var t := repository.Snapshot();
      var job := repository.jobs[j];
      fault, phase := None, IndexStarted(env.vectors);
      if env.deleteFault {
        fault := Some(QdrantUnavailable);
      } else {
        repository.vectors.DeleteDocument(job.tenant, job.document);
        repository.Record(State(t, Busy(j, phase)), Event.Stage(env.Replies()), Busy(j, IndexWiped(env.vectors)));
        phase := IndexWiped(env.vectors);
        if env.upsertFault {
          fault := Some(QdrantUnavailable);
        } else {
          ghost var wiped := repository.Snapshot();
          PutPoints(j, rows, env);
          CloseIndexed(j, env);
          PublishOutcome(t, wiped, repository.Snapshot(), job, job.version.value, rows, env.vectors);
        }
      }
    }

    method PutPoints(j: nat, rows: seq<IngestionModel.Chunk>, env: Environment)
      requires At(j, IndexWiped(env.vectors)) && Staged(repository.Snapshot(), j)
      requires rows == repository.Snapshot().ChunksOf(repository.jobs[j].version.value) && |rows| == |env.vectors|
      modifies repository`trace, repository.vectors
      ensures At(j, IndexUpserted) && OwnSteps(old(repository.trace), repository.trace)
      ensures
        var t, job := old(repository.Snapshot()), repository.jobs[j];
        repository.Snapshot() == t.(index := Upsert(t.index, MakePoints(job.tenant, job.document, job.version.value, rows, env.vectors, true)))
    {
      hide Live, IsRun, After;
      NowReady(j, IndexWiped(env.vectors));
      ghost var t := repository.Snapshot();
      var job := repository.jobs[j];
      repository.vectors.Upsert(MakePoints(job.tenant, job.document, job.version.value, rows, env.vectors, true));
      repository.Record(State(t, Busy(j, IndexWiped(env.vectors))), Event.Stage(env.Replies()), Busy(j, IndexUpserted));
    }

    method CloseIndexed(j: nat, env: Environment)
      requires At(j, IndexUpserted) && Staged(repository.Snapshot(), j)
      modifies repository
      ensures Ended(Ending(FinishEmbed(old(repository.Snapshot()), j), None), None, j, IndexUpserted, old(repository.trace))
    {
      hide Live, IsRun, After;
      NowReady(j, IndexUpserted);
      ghost var t := repository.Snapshot();
      var v := repository.jobs[j].version.value;
      repository.versions := repository.versions[v := repository.versions[v].(status := Indexed, error := None)];
      Succeed(j);
      repository.Record(State(t, Busy(j, IndexUpserted)), Event.Stage(env.Replies()), Idle);
    }

    method Reindex(j: nat, env: Environment, ghost view: View) returns (fault: Option<Fault>)
      requires At(j, Loaded(view)) && repository.jobs[j].jobType == ReindexDocument && Staged(repository.Snapshot(), j)
      modifies repository, repository.vectors
      ensures Ended(AfterReindex(old(repository.Snapshot()), j, env), fault, j, Loaded(view), old(repository.trace))
    {
      hide Live, IsRun, After;
      NowReady(j, Loaded(view));
      ghost var t := repository.Snapshot();
      if env.deleteFault {
        return Some(Unexpected);
      }
      repository.vectors.DeleteDocument(repository.jobs[j].tenant, repository.jobs[j].document);
      repository.Record(State(t, Busy(j, Loaded(view))), Event.Stage(env.Replies()), Busy(j, ReindexWiped));
      ResetVersion(j, env);
      return None;
    }

    method ResetVersion(j: nat, env: Environment)
      requires At(j, ReindexWiped) && Staged(repository.Snapshot(), j)
      modifies repository
      ensures Ended(Ending(FinishReindex(old(repository.Snapshot()), j), None), None, j, ReindexWiped, old(repository.trace))
    {
      hide Live, IsRun, After;
      NowReady(j, ReindexWiped);
      ghost var t := repository.Snapshot();
      var job := repository.jobs[j];
      var v := job.version.value;
      repository.chunks := repository.chunks - {v};
      repository.sections := repository.sections - {v};
      repository.versions := repository.versions[v := repository.versions[v].(status := Received, error := None)];
      Succeed(j);
      repository.EnqueueJob(job.tenant, job.document, Some(v), ParseDocument);
      repository.Record(State(t, Busy(j, ReindexWiped)), Event.Stage(env.Replies()), Idle);
    }

    method Delete(j: nat, view: View, env: Environment) returns (fault: Option<Fault>, ghost phase: Phase)
      requires At(j, Loaded(view)) && repository.jobs[j].jobType == DeleteFromIndex && Loadable(repository.Snapshot(), j)
      requires view == ViewOf(repository.Snapshot(), repository.jobs[j])
      modifies repository, repository.vectors
      ensures Ended(AfterDelete(old(repository.Snapshot()), j, view, env), fault, j, phase, old(repository.trace))
    {
      hide DocumentRepository.Valid, FinishDelete, RemoveDocument, SetStatuses;
      fault, phase := None, Loaded(view);
      if !view.deleted {
        CloseUndeleted(j, view, env);
      } else {
        MarkDeleted(j, view, env);
        phase := DeleteMarked(ToDelete(view));
        if env.deleteFault {
          fault := Some(Unexpected);
        } else {
          WipeDeleted(j, ToDelete(view), env);
          CloseDeleted(j, ToDelete(view), env);
        }
      }
    }

    method CloseUndeleted(j: nat, view: View, env: Environment)
      requires At(j, Loaded(view)) && repository.jobs[j].jobType == DeleteFromIndex && Loadable(repository.Snapshot(), j)
      requires !view.deleted && view == ViewOf(repository.Snapshot(), repository.jobs[j])
      modifies repository
      ensures Ended(Ending(IngestionModel.Succeed(old(repository.Snapshot()), j), None), None, j, Loaded(view), old(repository.trace))
    {
      ghost var t := repository.Snapshot();
      Succeed(j);
      repository.Record(State(t, Busy(j, Loaded(view))), Event.Stage(env.Replies()), Idle);
    }

    method MarkDeleted(j: nat, view: View, env: Environment)
      requires At(j, Loaded(view)) && repository.jobs[j].jobType == DeleteFromIndex && Loadable(repository.Snapshot(), j)
      requires view.deleted && view == ViewOf(repository.Snapshot(), repository.jobs[j])
      modifies repository
      ensures At(j, DeleteMarked(ToDelete(view))) && OwnSteps(old(repository.trace), repository.trace)
      ensures Loadable(repository.Snapshot(), j) && repository.jobs == old(repository.jobs)
      ensures repository.Snapshot() == BeginDelete(old(repository.Snapshot()), j, view).store
    {
      hide Live, IsRun, After;
      NowReady(j, Loaded(view));
      ghost var t := repository.Snapshot();
      MarkAll(ToMark(view), DeletePending);
      repository.Record(State(t, Busy(j, Loaded(view))), Event.Stage(env.Replies()), Busy(j, DeleteMarked(ToDelete(view))));
    }

    method WipeDeleted(j: nat, targets: set<Id>, env: Environment)
      requires At(j, DeleteMarked(targets)) && Loadable(repository.Snapshot(), j)
      modifies repository`trace, repository.vectors
      ensures At(j, DeleteWiped(targets)) && OwnSteps(old(repository.trace), repository.trace)
      ensures
        var t, job := old(repository.Snapshot()), repository.jobs[j];
        repository.Snapshot() == t.(index := RemoveDocument(t.index, job.tenant, job.document))
    {
      hide Live, IsRun, After;
      NowReady(j, DeleteMarked(targets));
      ghost var t := repository.Snapshot();
      repository.vectors.DeleteDocument(repository.jobs[j].tenant, repository.jobs[j].document);
      repository.Record(State(t, Busy(j, DeleteMarked(targets))), Event.Stage(env.Replies()), Busy(j, DeleteWiped(targets)));
    }

    method CloseDeleted(j: nat, targets: set<Id>, env: Environment)
      requires At(j, DeleteWiped(targets)) && Loadable(repository.Snapshot(), j)
      modifies repository
      ensures Ended(Ending(FinishDelete(old(repository.Snapshot()), j, targets), None), None, j, DeleteWiped(targets), old(repository.trace))
    {
      hide Live, IsRun, After;
      NowReady(j, DeleteWiped(targets));
      ghost var t := repository.Snapshot();
      var d := repository.jobs[j].document;
      repository.chunks := map v | v in repository.chunks
        && !(v in repository.versions && repository.versions[v].document == d) :: repository.chunks[v];
      assert repository.chunks == OtherChunks(t, d);
      MarkAll(targets, DeletedFromIndex);
      Succeed(j);
      repository.Record(State(t, Busy(j, DeleteWiped(targets))), Event.Stage(env.Replies()), Idle);
    }

    /** `_fail`. */
    method Fail(j: nat, ghost phase: Phase, fault: Fault, retryAt: int)
      requires At(j, phase)
      modifies repository
      ensures repository.Snapshot() == IngestionSteps.Fail(old(repository.Snapshot()), j, fault, retryAt)
      ensures repository.Valid(Idle) && repository.trace == old(repository.trace) + [Exception(fault, retryAt)]
    {
      hide Live, IsRun, After;
      NowReady(j, phase);
      ghost var t := repository.Snapshot();
      var job := repository.jobs[j];
      if Permanent(fault) || job.attempts >= job.maxAttempts {
        job := job.(state := FailedPermanent, lockedAt := None);
      } else {
        job := job.(state := FailedRetryable, lockedAt := None, retryAt := Some(retryAt));
      }
      repository.jobs := repository.jobs[j := job];
      if job.version.Some? && job.jobType != DeleteFromIndex && job.version.value in repository.versions {
        var version := repository.versions[job.version.value];
        if fault in {NotConfigured, EmbeddingUnavailable, QdrantUnavailable} {
          version := version.(status := Chunked);
        } else {
          version := version.(status := Failed);
        }
        repository.versions := repository.versions[job.version.value := version.(error := Some(ErrorCode(fault)))];
      }
      repository.Record(State(t, Busy(j, phase)), Exception(fault, retryAt), Idle);
    }

    /** `_records`: the rows the stage will decide on. */
    method LoadRows(j: nat, env: Environment) returns (view: View)
      requires At(j, Claimed)
      modifies repository`trace
      ensures At(j, Loaded(view)) && view == ViewOf(repository.Snapshot(), repository.jobs[j])
      ensures repository.trace == old(repository.trace) + [Event.Stage(env.Replies())]
    {
      var d := repository.jobs[j].document;
      ghost var t := repository.Snapshot();
      assert OwnJob(t, t.jobs[j]);
      view := View(repository.docs[d].deleted, repository.docs[d].current,
                   map v | v in repository.versions && repository.versions[v].document == d :: repository.versions[v].status);
      repository.Record(State(t, Busy(j, Claimed)), Event.Stage(env.Replies()), Busy(j, Loaded(view)));
    }

    /** The dispatch of `run_once`. */
    method RunStage(j: nat, view: View, env: Environment) returns (fault: Option<Fault>, ghost phase: Phase)
      requires At(j, Loaded(view)) && Loadable(repository.Snapshot(), j)
      requires repository.jobs[j].jobType != DeleteFromIndex ==>
                 Staged(repository.Snapshot(), j) && repository.jobs[j].version.value in view.statuses
      requires view == ViewOf(repository.Snapshot(), repository.jobs[j])
      modifies repository, repository.vectors
      ensures Ended(AfterStage(old(repository.Snapshot()), j, view, env), fault, j, phase, old(repository.trace))
    {
      phase := Loaded(view);
      match repository.jobs[j].jobType {
        case Pipeline => fault, phase := Parse(j, view.statuses[repository.jobs[j].version.value], env, view);
        case ParseDocument => fault, phase := Parse(j, view.statuses[repository.jobs[j].version.value], env, view);
        case ChunkDocument => fault, phase := Chunk(j, view.statuses[repository.jobs[j].version.value], env, view);
        case EmbedAndIndex => fault, phase := EmbedAndIndex(j, view, env);
        case ReindexDocument => fault := Reindex(j, env, view);
        case DeleteFromIndex => fault, phase := Delete(j, view, env);
      }
    }

    lemma JobIsOwn(j: nat)
      requires At(j, Claimed)
      ensures j < |repository.jobs| && OwnJob(repository.Snapshot(), repository.jobs[j])
    {
    }

    lemma JobIsLoaded(j: nat, view: View)
      requires At(j, Loaded(view)) && j < |repository.jobs| && OwnJob(repository.Snapshot(), repository.jobs[j])
      requires view == ViewOf(repository.Snapshot(), repository.jobs[j])
      ensures Loadable(repository.Snapshot(), j)
      ensures repository.jobs[j].jobType != DeleteFromIndex ==>
                Staged(repository.Snapshot(), j) && repository.jobs[j].version.value in view.statuses
    {
    }

    /** The stage with the failure handler around it. */
    method RunGuarded(j: nat, view: View, env: Environment)
      requires At(j, Loaded(view)) && Loadable(repository.Snapshot(), j)
      requires repository.jobs[j].jobType != DeleteFromIndex ==>
                 Staged(repository.Snapshot(), j) && repository.jobs[j].version.value in view.statuses
      requires view == ViewOf(repository.Snapshot(), repository.jobs[j])
      modifies repository, repository.vectors
      ensures repository.Valid(Idle) && OwnSteps(old(repository.trace), repository.trace)
      ensures repository.Snapshot() == Closed(AfterStage(old(repository.Snapshot()), j, view, env), j, env.retryAt)
    {
      hide AfterStage, Loadable, Staged;
      var fault;
      ghost var phase;
      fault, phase := RunStage(j, view, env);
      if fault.Some? {
        NowReady(j, phase);
        hide DocumentRepository.Valid;
        Fail(j, phase, fault.value, env.retryAt);
      }
    }

    /** The turn of a claimed job. */
    method Turn(j: nat, env: Environment)
      requires At(j, Claimed)
      modifies repository, repository.vectors
      ensures repository.Valid(Idle)
      ensures TurnResult(old(repository.Snapshot()), j, env, repository.Snapshot())
      ensures OwnSteps(old(repository.trace), repository.trace)
    {
      JobIsOwn(j);
      hide DocumentRepository.Valid, AfterStage, OwnJob, Loadable, ViewOf, Closed;
      var view := LoadRows(j, env);
      JobIsLoaded(j, view);
      RunGuarded(j, view, env);
    }

    /** One turn of the worker: recover stale jobs, claim the oldest job that is due, run its
        stage, and turn an exception into a failed job. The turn is a run of the transition
        system: the recovery, the claim, and then steps of the claimed job only. */
    method RunOnce(now: int, stale: int, env: Environment) returns (processed: bool)
      requires repository.Valid(Idle)
      modifies repository, repository.vectors
      ensures repository.Valid(Idle)
      ensures
        var t := Recover(old(repository.Snapshot()), Some(stale), now);
        var start := old(repository.trace) + [Event.Recovery(Some(stale), now)];
        if processed then
          exists j: nat | j < |t.jobs| ::
            && Claimable(t.jobs[j], now) && (forall i | 0 <= i < j :: !Claimable(t.jobs[i], now))
            && OwnSteps(start + [Event.Claim(j, now)], repository.trace)
            && TurnResult(ClaimAt(t, j, now), j, env, repository.Snapshot())
        else
          repository.trace == start && repository.Snapshot() == t && forall i | 0 <= i < |t.jobs| :: !Claimable(t.jobs[i], now)
    {
      var recovered := repository.RecoverJobs(Some(stale), now);
      ghost var t := repository.Snapshot();
      var claimed := repository.ClaimJob(now);
      if claimed.None? {
        return false;
      }
      Turn(claimed.value, env);
      return true;
    }
  }
}
