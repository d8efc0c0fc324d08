/** The ingestion plane as a transition system. A step is one database commit or one
    call to the vector store, so a request or a crash can fall between any two of them. */
module IngestionSteps {
  import opened Options
  import opened PythonText
  import opened IngestionModel

  /** What a stage has loaded: the session does not expire its rows on commit, so the
      worker keeps deciding on this copy for the rest of the job. */
  datatype View = View(deleted: bool, current: Option<Id>, statuses: map<Id, IngestionStatus>)

  datatype Phase =
    | Claimed
    | Loaded(view: View)
    | ParseStarted
    | ChunkStarted
    | EmbedStarted
    | IndexStarted(vectors: seq<Vector>)
    | IndexWiped(vectors: seq<Vector>)
    | IndexUpserted
    | InactiveDropped
    | ReindexWiped
    | DeleteMarked(targets: set<Id>)
    | DeleteWiped(targets: set<Id>)

  datatype Worker = Idle | Busy(job: nat, phase: Phase)

  datatype State = State(store: Store, worker: Worker)

  /** The exceptions `_fail` tells apart. */
  datatype Fault = NotConfigured | EmbeddingUnavailable | QdrantUnavailable | InvalidValue | MissingFile | Unexpected

  /** What the parser, the chunker and the embedding provider answer. */
  datatype Answer = Answer(sections: seq<string>, texts: seq<string>, vectors: seq<Vector>)

  datatype Outcome =
    | Next(store: Store, phase: Phase)
    | Done(store: Store)
    | Raise(fault: Fault)

  // ------------------------------------------------------------- stage steps

  function ViewOf(t: Store, job: Job): View
    requires job.document in t.docs
  {
    var d := t.docs[job.document];
    View(d.deleted, d.current,
         map v | v in t.versions && t.versions[v].document == job.document :: t.versions[v].status)
  }

  /** `_records`, or the document lookup of `_delete`. */
  function Load(t: Store, job: Job): Outcome {
    if job.document !in t.docs then Raise(InvalidValue)
    else if job.jobType != DeleteFromIndex && (job.version.None? || job.version.value !in t.versions) then Raise(InvalidValue)
    else Next(t, Loaded(ViewOf(t, job)))
  }

  /** The job's rows exist, as they do from `Load` on: no row is ever removed. */
  ghost predicate Loadable(t: Store, j: nat) {
    && j < |t.jobs|
    && t.jobs[j].document in t.docs
    && (t.jobs[j].jobType != DeleteFromIndex ==> t.jobs[j].version.Some? && t.jobs[j].version.value in t.versions)
  }

  function Usable(sections: seq<string>): bool {
    exists i | 0 <= i < |sections| :: !Blank(sections[i])
  }

  function BeginParse(t: Store, j: nat, seen: IngestionStatus): Outcome
    requires Loadable(t, j) && t.jobs[j].version.Some? && t.jobs[j].version.value in t.versions
  {
    var job := t.jobs[j];
    var v := job.version.value;
    if t.ChunksOf(v) != [] then
      Done(Enqueue(Succeed(ClearError(WriteStatus(t, v, seen, Chunked), v), j),
                   job.tenant, job.document, Some(v), EmbedAndIndex))
    else if t.SectionsOf(v) != [] then
      Done(Enqueue(Succeed(WriteStatus(t, v, seen, Parsed), j), job.tenant, job.document, Some(v), ChunkDocument))
    else if !Allowed(seen, Parsing) then Raise(InvalidValue)
    else Next(WriteStatus(t, v, seen, Parsing), ParseStarted)
  }

  function FinishParse(t: Store, j: nat, sections: seq<string>): Outcome
    requires Loadable(t, j) && t.jobs[j].version.Some? && t.jobs[j].version.value in t.versions
  {
    var job := t.jobs[j];
    var v := job.version.value;
    if !Usable(sections) then Raise(InvalidValue)
    else Done(Enqueue(Succeed(WriteStatus(t.(sections := t.sections[v := sections]), v, Parsing, Parsed), j),
                      job.tenant, job.document, Some(v), ChunkDocument))
  }

  function BeginChunk(t: Store, j: nat, seen: IngestionStatus): Outcome
    requires Loadable(t, j) && t.jobs[j].version.Some? && t.jobs[j].version.value in t.versions
  {
    if !Allowed(seen, Chunking) then Raise(InvalidValue)
    else Next(WriteStatus(t, t.jobs[j].version.value, seen, Chunking), ChunkStarted)
  }

  function NewRows(first: Id, texts: seq<string>): (rows: seq<Chunk>)
    ensures |rows| == |texts|
  {
    seq(|texts|, i requires 0 <= i < |texts| => Chunk(first + i, texts[i]))
  }

  /** Every run of the chunker gives its rows new ids. */
  function FinishChunk(t: Store, j: nat, texts: seq<string>): Outcome
    requires Loadable(t, j) && t.jobs[j].version.Some? && t.jobs[j].version.value in t.versions
  {
    var job := t.jobs[j];
    var v := job.version.value;
    if texts == [] then Raise(InvalidValue)
    else
      Done(Enqueue(Succeed(WriteStatus(t.(chunks := t.chunks[v := NewRows(t.nextChunk, texts)], nextChunk := t.nextChunk + |texts|), v, Chunking, Chunked), j),
                   job.tenant, job.document, Some(v), EmbedAndIndex))
  }

  function BeginEmbed(t: Store, j: nat, view: View): Outcome
    requires Loadable(t, j) && t.jobs[j].version.Some? && t.jobs[j].version.value in t.versions
    requires t.jobs[j].version.value in view.statuses
  {
    var job := t.jobs[j];
    var v := job.version.value;
    if view.deleted || view.current != Some(v) then
      Next(t.(index := RemoveVersion(t.index, job.tenant, v)), InactiveDropped)
    else if t.ChunksOf(v) == [] then Raise(InvalidValue)
    else if !Allowed(view.statuses[v], Embedding) then Raise(InvalidValue)
    else Next(WriteStatus(t, v, view.statuses[v], Embedding), EmbedStarted)
  }

  function BeginIndex(t: Store, j: nat, vectors: seq<Vector>): Outcome
    requires Loadable(t, j) && t.jobs[j].version.Some? && t.jobs[j].version.value in t.versions
  {
    var v := t.jobs[j].version.value;
    if |vectors| != |t.ChunksOf(v)| then Raise(InvalidValue)
    else Next(WriteStatus(t, v, Embedding, Indexing), IndexStarted(vectors))
  }

  function FinishEmbed(t: Store, j: nat): Store
    requires Loadable(t, j) && t.jobs[j].version.Some? && t.jobs[j].version.value in t.versions
  {
    Succeed(SetStatus(t, t.jobs[j].version.value, Indexed, None), j)
  }

  function FinishReindex(t: Store, j: nat): Store
    requires Loadable(t, j) && t.jobs[j].version.Some? && t.jobs[j].version.value in t.versions
  {
    var job := t.jobs[j];
    var v := job.version.value;
    Enqueue(Succeed(SetStatus(t.(chunks := t.chunks - {v}, sections := t.sections - {v}), v, Received, None), j),
            job.tenant, job.document, Some(v), ParseDocument)
  }

  function ToDelete(view: View): set<Id> {
    set v | v in view.statuses && view.statuses[v] != DeletedFromIndex
  }

  function ToMark(view: View): set<Id> {
    set v | v in view.statuses && view.statuses[v] != DeletedFromIndex && view.statuses[v] != DeletePending
  }

  function BeginDelete(t: Store, j: nat, view: View): Outcome
    requires Loadable(t, j)
  {
    if !view.deleted then Done(Succeed(t, j))
    else Next(SetStatuses(t, ToMark(view), DeletePending), DeleteMarked(ToDelete(view)))
  }

  /** The rows the chunk table keeps when a document's chunks are deleted. */
  function OtherChunks(t: Store, d: Id): map<Id, seq<Chunk>> {
    map v | v in t.chunks && !(v in t.versions && t.versions[v].document == d) :: t.chunks[v]
  }

  function FinishDelete(t: Store, j: nat, targets: set<Id>): Store
    requires Loadable(t, j)
  {
    Succeed(SetStatuses(t.(chunks := OtherChunks(t, t.jobs[j].document)), targets, DeletedFromIndex), j)
  }

  /** The phases a job type goes through. */
  predicate PhaseFits(ty: JobType, phase: Phase) {
    match phase
    case Claimed => true
    case Loaded(_) => true
    case ParseStarted => ty in {Pipeline, ParseDocument}
    case ChunkStarted => ty == ChunkDocument
    case EmbedStarted => ty == EmbedAndIndex
    case IndexStarted(_) => ty == EmbedAndIndex
    case IndexWiped(_) => ty == EmbedAndIndex
    case IndexUpserted => ty == EmbedAndIndex
    case InactiveDropped => ty == EmbedAndIndex
    case ReindexWiped => ty == ReindexDocument
    case DeleteMarked(_) => ty == DeleteFromIndex
    case DeleteWiped(_) => ty == DeleteFromIndex
  }

  /** What has to hold for the worker's next step to make sense. */
  ghost predicate Ready(t: Store, j: nat, phase: Phase) {
    && j < |t.jobs|
    && PhaseFits(t.jobs[j].jobType, phase)
    && (!phase.Claimed? ==> Loadable(t, j))
    && (phase.Loaded? && t.jobs[j].jobType != DeleteFromIndex ==> t.jobs[j].version.value in phase.view.statuses)
    && (phase.IndexWiped? ==> |phase.vectors| == |t.ChunksOf(t.jobs[j].version.value)|)
  }

  /** The next commit or vector-store call of the running job. */
  function StageStep(t: Store, j: nat, phase: Phase, answer: Answer): Outcome
    requires Ready(t, j, phase)
  {
    var job := t.jobs[j];
    match phase
    case Claimed => Load(t, job)
    case Loaded(view) =>
      (match job.jobType
       case Pipeline => BeginParse(t, j, view.statuses[job.version.value])
       case ParseDocument => BeginParse(t, j, view.statuses[job.version.value])
       case ChunkDocument => BeginChunk(t, j, view.statuses[job.version.value])
       case EmbedAndIndex => BeginEmbed(t, j, view)
       case ReindexDocument => Next(t.(index := RemoveDocument(t.index, job.tenant, job.document)), ReindexWiped)
       case DeleteFromIndex => BeginDelete(t, j, view))
    case ParseStarted => FinishParse(t, j, answer.sections)
    case ChunkStarted => FinishChunk(t, j, answer.texts)
    case EmbedStarted => BeginIndex(t, j, answer.vectors)
    case IndexStarted(vectors) => Next(t.(index := RemoveDocument(t.index, job.tenant, job.document)), IndexWiped(vectors))
    case IndexWiped(vectors) =>
      var v := job.version.value;
      Next(t.(index := Upsert(t.index, MakePoints(job.tenant, job.document, v, t.ChunksOf(v), vectors, true))), IndexUpserted)
    case IndexUpserted => Done(FinishEmbed(t, j))
    case InactiveDropped => Done(Succeed(t, j))
    case ReindexWiped => Done(FinishReindex(t, j))
    case DeleteMarked(targets) =>
      Next(t.(index := RemoveDocument(t.index, job.tenant, job.document)), DeleteWiped(targets))
    case DeleteWiped(targets) => Done(FinishDelete(t, j, targets))
  }

  // ----------------------------------------------------------------- failure

  predicate Permanent(fault: Fault) {
    fault in {InvalidValue, MissingFile, NotConfigured}
  }

  function ErrorCode(fault: Fault): string {
    match fault
    case NotConfigured => "NOT_CONFIGURED"
    case EmbeddingUnavailable => "EMBEDDING_UNAVAILABLE"
    case QdrantUnavailable => "QDRANT_UNAVAILABLE"
    case InvalidValue => "ValueError"
    case MissingFile => "FileNotFoundError"
    case Unexpected => "Exception"
  }

  /** `_fail`: uncommitted work is rolled back; `retryAt` is the backoff's answer. */
  function Fail(t: Store, j: nat, fault: Fault, retryAt: int): Store
    requires j < |t.jobs|
  {
    var job := t.jobs[j];
    var failed :=
      if Permanent(fault) || job.attempts >= job.maxAttempts
      then job.(state := FailedPermanent, lockedAt := None)
      else job.(state := FailedRetryable, lockedAt := None, retryAt := Some(retryAt));
    var t' := SetJob(t, j, failed);
    if job.version.None? || job.jobType == DeleteFromIndex || job.version.value !in t.versions then t'
    else
      var status := if fault in {NotConfigured, EmbeddingUnavailable, QdrantUnavailable} then Chunked else Failed;
      SetStatus(t', job.version.value, status, Some(ErrorCode(fault)))
  }

  // ---------------------------------------------------------------- requests

  /** `get_logical`: at most one document answers, by the unique (tenant, key) constraint. */
  ghost predicate IsLogical(t: Store, d: Id, tenant: Id, key: string) {
    d in t.docs && t.docs[d].tenant == tenant && t.docs[d].key == key
  }

  ghost predicate IsHashed(t: Store, v: Id, d: Id, hash: string) {
    v in t.versions && t.versions[v].document == d && t.versions[v].hash == hash
  }

  /** A stored upload of content the document has not had before, under the unused id `v`. */
  function AcceptNew(t: Store, d: Id, tenant: Id, key: string, v: Id, hash: string): Store {
    Enqueue(t.(docs := t.docs[d := Document(tenant, key, false, Some(v))],
               versions := t.versions[v := Version(tenant, d, hash, Received, None)]),
            tenant, d, Some(v), ParseDocument)
  }

  predicate RequiresReindex(t: Store, d: Id, v: Id)
    requires d in t.docs && v in t.versions
  {
    t.docs[d].current != Some(v) || t.versions[v].status != Indexed
  }

  /** An upload whose content the document already has as version `v`. */
  function AcceptExisting(t: Store, d: Id, v: Id): Store
    requires d in t.docs && v in t.versions
  {
    var t' := t.(docs := t.docs[d := t.docs[d].(deleted := false, current := Some(v))]);
    if RequiresReindex(t, d, v)
    then Enqueue(SetStatus(t', v, Received, None), t.docs[d].tenant, d, Some(v), ReindexDocument)
    else t'
  }

  function RequestDelete(t: Store, d: Id): Store
    requires d in t.docs
  {
    if t.docs[d].deleted then t
    else Enqueue(t.(docs := t.docs[d := t.docs[d].(deleted := true)]), t.docs[d].tenant, d, None, DeleteFromIndex)
  }

  function EnqueueIfIdle(t: Store, d: Id, v: Id, ty: JobType): Store
    requires d in t.docs
  {
    if HasActiveJob(t, v) then t else Enqueue(t, t.docs[d].tenant, d, Some(v), ty)
  }

  /** The administrator's reindex: refused for a deleted document or one without a version. */
  function RequestReindex(t: Store, d: Id): Store
    requires d in t.docs
  {
    if t.docs[d].deleted || t.docs[d].current.None? then t
    else EnqueueIfIdle(t, d, t.docs[d].current.value, ReindexDocument)
  }

  predicate Blocked(version: Version) {
    && version.status == Chunked
    && version.error in {Some("NOT_CONFIGURED"), Some("EMBEDDING_UNAVAILABLE"), Some("QDRANT_UNAVAILABLE")}
  }

  /** The administrator's retry of a failed or blocked current version. */
  function RequestRetry(t: Store, d: Id): Store
    requires d in t.docs && (t.docs[d].current.Some? ==> t.docs[d].current.value in t.versions)
  {
    if t.docs[d].current.None? then t
    else
      var v := t.docs[d].current.value;
      var version := t.versions[v];
      if version.status != Failed && !Blocked(version) then t
      else if Blocked(version) || t.ChunksOf(v) != []
      then EnqueueIfIdle(t.(versions := t.versions[v := version.(error := None)]), d, v, EmbedAndIndex)
      else EnqueueIfIdle(t, d, v, ParseDocument)
  }

  // ------------------------------------------------------------------ events

  datatype Event =
    | Claim(j: nat, now: int)
    | Stage(answer: Answer)
    | Exception(fault: Fault, retryAt: int)
    | Crash
    | Recovery(limit: Option<int>, now: int)
    | Upload(d: Id, tenant: Id, key: string, v: Id, hash: string)
    | Repeat(d: Id, v: Id)
    | Delete(d: Id)
    | AskReindex(d: Id)
    | AskRetry(d: Id)

  /** Whether an event comes from outside the worker. */
  predicate Request(e: Event) {
    e.Upload? || e.Repeat? || e.Delete? || e.AskReindex? || e.AskRetry?
  }

  ghost predicate Enabled(s: State, e: Event) {
    var t := s.store;
    match e
    case Claim(j, now) => s.worker.Idle? && j < |t.jobs| && Claimable(t.jobs[j], now)
    case Stage(_) => s.worker.Busy? && Ready(t, s.worker.job, s.worker.phase)
    case Exception(_, _) => s.worker.Busy? && s.worker.job < |t.jobs|
    case Crash => s.worker.Busy?
    case Recovery(_, _) => s.worker.Idle?
    case Upload(d, tenant, key, v, hash) =>
      // get_logical found this document, or found none and `d` is a new id
      && (if d in t.docs then IsLogical(t, d, tenant, key) else forall x :: !IsLogical(t, x, tenant, key))
      && v !in t.versions
      && (forall x :: !IsHashed(t, x, d, hash))
    case Repeat(d, v) => d in t.docs && v in t.versions && t.versions[v].document == d
    case Delete(d) => d in t.docs
    case AskReindex(d) => d in t.docs
    case AskRetry(d) => d in t.docs && (t.docs[d].current.Some? ==> t.docs[d].current.value in t.versions)
  }

  ghost function Apply(s: State, e: Event): State
    requires Enabled(s, e)
  {
    var t := s.store;
    match e
    case Claim(j, now) => State(ClaimAt(t, j, now), Busy(j, Claimed))
    case Stage(answer) =>
      var j := s.worker.job;
      (match StageStep(t, j, s.worker.phase, answer)
       case Next(t', phase) => State(t', Busy(j, phase))
       case Done(t') => State(t', Idle)
       case Raise(fault) => State(Fail(t, j, fault, 0), Idle))
    case Exception(fault, retryAt) => State(Fail(t, s.worker.job, fault, retryAt), Idle)
    case Crash => s.(worker := Idle)
    case Recovery(limit, now) => s.(store := Recover(t, limit, now))
    case Upload(d, tenant, key, v, hash) => s.(store := AcceptNew(t, d, tenant, key, v, hash))
    case Repeat(d, v) => s.(store := AcceptExisting(t, d, v))
    case Delete(d) => s.(store := RequestDelete(t, d))
    case AskReindex(d) => s.(store := RequestReindex(t, d))
    case AskRetry(d) => s.(store := RequestRetry(t, d))
  }

  /** A run from `s`: every event is enabled where it happens. */
  ghost predicate IsRun(s: State, events: seq<Event>)
    decreases |events|
  {
    events == [] || (Enabled(s, events[0]) && IsRun(Apply(s, events[0]), events[1..]))
  }

  ghost function After(s: State, events: seq<Event>): State
    requires IsRun(s, events)
    decreases |events|
  {
    if events == [] then s else After(Apply(s, events[0]), events[1..])
  }

  /** An empty deployment. */
  function Initial(maxAttempts: nat): State {
    State(Store(map[], map[], [], map[], map[], [], 0, maxAttempts), Idle)
  }
}
