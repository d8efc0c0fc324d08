/** The tables of the document-ingestion plane, the vector index beside them, and
    the small operations every stage is made of. */
module IngestionModel {
  import opened Options

  type Id = nat

  datatype IngestionStatus =
    | Received | Parsing | Parsed | Chunking | Chunked | Embedding | Indexing | Indexed
    | Failed | DeletePending | DeletedFromIndex

  datatype JobType =
    | Pipeline | ParseDocument | ChunkDocument | EmbedAndIndex | DeleteFromIndex | ReindexDocument

  datatype JobState =
    | Pending | InProgress | Succeeded | FailedRetryable | FailedPermanent | Cancelled
    | Running | Retry | Completed | FailedLegacy

  /** `deleted` stands for `is_deleted` and `lifecycle_status`, which are always written together. */
  datatype Document = Document(tenant: Id, key: string, deleted: bool, current: Option<Id>)

  datatype Version = Version(tenant: Id, document: Id, hash: string, status: IngestionStatus, error: Option<string>)

  datatype Job = Job(
    tenant: Id, document: Id, version: Option<Id>, jobType: JobType, state: JobState,
    attempts: nat, maxAttempts: nat, retryAt: Option<int>, lockedAt: Option<int>)

  /** `id` is the row's random UUID; the chunk's index is its position in its version. */
  datatype Chunk = Chunk(id: Id, text: string)

  /** uuid5 of the version and the chunk index, which is injective in the two. */
  datatype PointId = PointId(version: Id, index: nat)

  type Vector = seq<real>

  datatype Point = Point(
    id: PointId, vector: Vector, tenant: Id, document: Id, version: Id, chunk: Id, text: string, active: bool)

  /** The database and the vector index. `jobs` is in creation order and `index` in
      the insertion order of the store's dictionary. `nextChunk` is the next unused chunk id
      and `maxAttempts` the configured retry limit. */
  datatype Store = Store(
    docs: map<Id, Document>, versions: map<Id, Version>, jobs: seq<Job>,
    sections: map<Id, seq<string>>, chunks: map<Id, seq<Chunk>>, index: seq<Point>,
    nextChunk: Id, maxAttempts: nat)
  {
    function ChunksOf(v: Id): seq<Chunk> {
      if v in chunks then chunks[v] else []
    }

    function SectionsOf(v: Id): seq<string> {
      if v in sections then sections[v] else []
    }
  }

  // ---------------------------------------------------------------- statuses

  /** The table of the status service; staying put is always allowed. */
  predicate Allowed(seen: IngestionStatus, target: IngestionStatus) {
    seen == target ||
    match seen
    case Received => target in {Parsing, Failed}
    case Parsing => target in {Parsed, Failed}
    case Parsed => target in {Chunking, Parsing, Failed}
    case Chunking => target in {Chunked, Failed}
    case Chunked => target in {Embedding, Parsing, Failed}
    case Embedding => target in {Indexing, Chunked, Failed}
    case Indexing => target in {Indexed, Chunked, Failed}
    case Indexed => target in {Parsing, Embedding, DeletePending, Failed}
    case Failed => target in {Received, Parsing, Embedding}
    case DeletePending => target in {DeletedFromIndex, Failed}
    case DeletedFromIndex => target in {Parsing}
  }

  /** A status assignment through the session: the row is written only when the value
      differs from the one the session has loaded. */
  function WriteStatus(t: Store, v: Id, seen: IngestionStatus, target: IngestionStatus): Store
    requires v in t.versions
  {
    if seen == target then t else t.(versions := t.versions[v := t.versions[v].(status := target)])
  }

  function SetStatus(t: Store, v: Id, target: IngestionStatus, error: Option<string>): Store
    requires v in t.versions
  {
    t.(versions := t.versions[v := t.versions[v].(status := target, error := error)])
  }

  function ClearError(t: Store, v: Id): Store
    requires v in t.versions
  {
    t.(versions := t.versions[v := t.versions[v].(error := None)])
  }

  function SetStatuses(t: Store, vs: set<Id>, target: IngestionStatus): Store {
    t.(versions := map v | v in t.versions :: if v in vs then t.versions[v].(status := target) else t.versions[v])
  }

  // -------------------------------------------------------------------- jobs

  predicate ActiveState(s: JobState) {
    s in {Pending, InProgress, FailedRetryable, Running, Retry}
  }

  predicate ClaimableState(s: JobState) {
    s in {Pending, FailedRetryable, Retry}
  }

  predicate RunningState(s: JobState) {
    s in {InProgress, Running}
  }

  /** An active job of this stage for this version. */
  predicate ActiveStage(job: Job, v: Id, ty: JobType) {
    job.version == Some(v) && job.jobType == ty && ActiveState(job.state)
  }

  predicate ActiveDelete(job: Job, d: Id) {
    job.document == d && job.jobType == DeleteFromIndex && ActiveState(job.state)
  }

  predicate HasStage(t: Store, v: Id, ty: JobType) {
    exists j | 0 <= j < |t.jobs| :: ActiveStage(t.jobs[j], v, ty)
  }

  predicate HasDelete(t: Store, d: Id) {
    exists j | 0 <= j < |t.jobs| :: ActiveDelete(t.jobs[j], d)
  }

  predicate HasActiveJob(t: Store, v: Id) {
    exists j | 0 <= j < |t.jobs| :: t.jobs[j].version == Some(v) && ActiveState(t.jobs[j].state)
  }

  function NewJob(t: Store, tenant: Id, d: Id, v: Option<Id>, ty: JobType): Job {
    Job(tenant, d, v, ty, Pending, 0, t.maxAttempts, None, None)
  }

  /** `enqueue_job`: an active job of the same stage is returned instead of a second one. */
  function Enqueue(t: Store, tenant: Id, d: Id, v: Option<Id>, ty: JobType): Store {
    if ty == DeleteFromIndex && HasDelete(t, d) then t
    else if ty != DeleteFromIndex && v.Some? && HasStage(t, v.value, ty) then t
    else t.(jobs := t.jobs + [NewJob(t, tenant, d, v, ty)])
  }

  function SetJob(t: Store, j: nat, job: Job): Store
    requires j < |t.jobs|
  {
    t.(jobs := t.jobs[j := job])
  }

  function Succeed(t: Store, j: nat): Store
    requires j < |t.jobs|
  {
    SetJob(t, j, t.jobs[j].(state := Succeeded, lockedAt := None))
  }

  predicate Claimable(job: Job, now: int) {
    ClaimableState(job.state) && (job.retryAt.Some? ==> job.retryAt.value <= now)
  }

  function ClaimAt(t: Store, j: nat, now: int): Store
    requires j < |t.jobs|
  {
    SetJob(t, j, t.jobs[j].(state := InProgress, lockedAt := Some(now), attempts := t.jobs[j].attempts + 1))
  }

  /** One row of the recovery loops: `limit` is the stale threshold, and None recovers every running job. */
  function Recovered(job: Job, limit: Option<int>, now: int): Job {
    if RunningState(job.state) && (limit.Some? ==> job.lockedAt.Some? && job.lockedAt.value < limit.value)
    then job.(state := FailedRetryable, retryAt := Some(now), lockedAt := None)
    else job
  }

  function Recover(t: Store, limit: Option<int>, now: int): Store {
    t.(jobs := seq(|t.jobs|, j requires 0 <= j < |t.jobs| => Recovered(t.jobs[j], limit, now)))
  }

  // ------------------------------------------------------------------- index

  function RemoveDocument(index: seq<Point>, tenant: Id, d: Id): seq<Point> {
    if index == [] then []
    else if index[0].tenant == tenant && index[0].document == d then RemoveDocument(index[1..], tenant, d)
    else [index[0]] + RemoveDocument(index[1..], tenant, d)
  }

  function RemoveVersion(index: seq<Point>, tenant: Id, v: Id): seq<Point> {
    if index == [] then []
    else if index[0].tenant == tenant && index[0].version == v then RemoveVersion(index[1..], tenant, v)
    else [index[0]] + RemoveVersion(index[1..], tenant, v)
  }

  /** One `dict` assignment: an existing key keeps its place, a new one goes last. */
  function Put(index: seq<Point>, p: Point): seq<Point> {
    if index == [] then [p]
    else if index[0].id == p.id then [p] + index[1..]
    else [index[0]] + Put(index[1..], p)
  }

  function Upsert(index: seq<Point>, points: seq<Point>): seq<Point>
    decreases |points|
  {
    if points == [] then index else Upsert(Put(index, points[0]), points[1..])
  }

  /** The points of one document, in index order. */
  function PointsOf(index: seq<Point>, d: Id): seq<Point> {
    if index == [] then []
    else if index[0].document == d then [index[0]] + PointsOf(index[1..], d)
    else PointsOf(index[1..], d)
  }

  /** The points the embedding stage builds from a version's chunk rows. */
  function MakePoints(tenant: Id, d: Id, v: Id, chunks: seq<Chunk>, vectors: seq<Vector>, active: bool): seq<Point>
    requires |chunks| == |vectors|
  {
    seq(|chunks|, i requires 0 <= i < |chunks| =>
      Point(PointId(v, i), vectors[i], tenant, d, v, chunks[i].id, chunks[i].text, active))
  }
}
