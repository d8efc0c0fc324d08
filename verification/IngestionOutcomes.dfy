/** What each operation of the pipeline leaves behind, column by column: the turn of a job of every
    type, with every fault that may strike it, and every request. Statuses, states and codes are
    spelled out here and nowhere taken from the functions that compute them. */
module IngestionOutcomes {
  import opened Options
  import opened PythonText
  import opened IngestionModel
  import opened IngestionSteps
  import opened IndexLemmas
  import opened IngestionSafety
  import opened IngestionWorker

  // ------------------------------------------------------------ status table

  const TRANSITIONS: set<(IngestionStatus, IngestionStatus)> := {
    (Received, IngestionStatus.Parsing), (Received, IngestionStatus.Failed),
    (IngestionStatus.Parsing, Parsed), (IngestionStatus.Parsing, IngestionStatus.Failed),
    (Parsed, Chunking), (Parsed, IngestionStatus.Parsing), (Parsed, IngestionStatus.Failed),
    (Chunking, Chunked), (Chunking, IngestionStatus.Failed),
    (Chunked, Embedding), (Chunked, IngestionStatus.Parsing), (Chunked, IngestionStatus.Failed),
    (Embedding, Indexing), (Embedding, Chunked), (Embedding, IngestionStatus.Failed),
    (Indexing, Indexed), (Indexing, Chunked), (Indexing, IngestionStatus.Failed),
    (Indexed, IngestionStatus.Parsing), (Indexed, Embedding), (Indexed, DeletePending), (Indexed, IngestionStatus.Failed),
    (IngestionStatus.Failed, Received), (IngestionStatus.Failed, IngestionStatus.Parsing), (IngestionStatus.Failed, Embedding),
    (DeletePending, DeletedFromIndex), (DeletePending, IngestionStatus.Failed),
    (DeletedFromIndex, IngestionStatus.Parsing)}

  lemma TransitionTable(seen: IngestionStatus, target: IngestionStatus)
    ensures Allowed(seen, target) <==> seen == target || (seen, target) in TRANSITIONS
  {
  }

  // -------------------------------------------------------------------- jobs

  predicate IsActive(job: Job) {
    job.state in {Pending, InProgress, FailedRetryable, JobState.Running, Retry}
  }

  /** Job `j` has succeeded, and a job of the next stage waits: the one that is active already, or a new one. */
  ghost predicate HandedOver(t: Store, r: Store, j: nat, v: Id, next: JobType)
    requires j < |t.jobs|
  {
    && |t.jobs| <= |r.jobs| <= |t.jobs| + 1
    && (forall k | 0 <= k < |t.jobs| && k != j :: r.jobs[k] == t.jobs[k])
    && r.jobs[j] == t.jobs[j].(state := Succeeded, lockedAt := None)
    && (|r.jobs| == |t.jobs| <==>
          exists k | 0 <= k < |t.jobs| && k != j :: t.jobs[k].version == Some(v) && t.jobs[k].jobType == next && IsActive(t.jobs[k]))
    && (|r.jobs| > |t.jobs| ==>
          r.jobs[|t.jobs|] == Job(t.jobs[j].tenant, t.jobs[j].document, Some(v), next, Pending, 0, t.maxAttempts, None, None))
  }

  lemma HandsOver(t: Store, t1: Store, j: nat, v: Id, next: JobType)
    requires j < |t.jobs| && t1.jobs == t.jobs && t1.maxAttempts == t.maxAttempts
    requires t.jobs[j].version == Some(v) && next != DeleteFromIndex && t.jobs[j].jobType != next
    ensures var r := Enqueue(Succeed(t1, j), t.jobs[j].tenant, t.jobs[j].document, Some(v), next);
      HandedOver(t, r, j, v, next) && r == t1.(jobs := r.jobs)
  {
    var done := Succeed(t1, j);
    if HasStage(done, v, next) {
      var k :| 0 <= k < |done.jobs| && ActiveStage(done.jobs[k], v, next);
      assert k != j && t.jobs[k] == done.jobs[k];
    } else {
      forall k | 0 <= k < |t.jobs| && k != j
        ensures !(t.jobs[k].version == Some(v) && t.jobs[k].jobType == next && IsActive(t.jobs[k]))
      {
        assert done.jobs[k] == t.jobs[k] && !ActiveStage(done.jobs[k], v, next);
      }
    }
  }

  function Code(fault: Fault): string {
    match fault
    case NotConfigured => "NOT_CONFIGURED"
    case EmbeddingUnavailable => "EMBEDDING_UNAVAILABLE"
    case QdrantUnavailable => "QDRANT_UNAVAILABLE"
    case InvalidValue => "ValueError"
    case MissingFile => "FileNotFoundError"
    case Unexpected => "Exception"
  }

  /** The job failed: for good if the fault cannot pass or no attempt is left, and to be retried at
      `retryAt` otherwise. Its version goes back to CHUNKED if a provider was missing and to FAILED
      otherwise, with the code; a deletion touches no version. */
  ghost predicate FailedWith(t: Store, r: Store, j: nat, fault: Fault, retryAt: int)
    requires j < |t.jobs|
  {
    var job := t.jobs[j];
    && r == t.(jobs := r.jobs, versions := r.versions)
    && |r.jobs| == |t.jobs| && (forall k | 0 <= k < |t.jobs| && k != j :: r.jobs[k] == t.jobs[k])
    && r.jobs[j] == (
         if fault in {InvalidValue, MissingFile, NotConfigured} || job.attempts >= job.maxAttempts
         then job.(state := FailedPermanent, lockedAt := None)
         else job.(state := FailedRetryable, lockedAt := None, retryAt := Some(retryAt)))
    && r.versions == (
         if job.jobType == DeleteFromIndex || job.version.None? || job.version.value !in t.versions then t.versions
         else t.versions[job.version.value := t.versions[job.version.value].(
                error := Some(Code(fault)),
                status := if fault in {NotConfigured, EmbeddingUnavailable, QdrantUnavailable} then Chunked
                          else IngestionStatus.Failed)])
  }

  lemma FailOutcome(t: Store, j: nat, fault: Fault, retryAt: int)
    requires j < |t.jobs|
    ensures FailedWith(t, Fail(t, j, fault, retryAt), j, fault, retryAt)
  {
  }

  /** A job may be claimed when it waits, for the first time or again, and its time has come. */
  lemma ClaimOutcome(t: Store, j: nat, now: int)
    requires j < |t.jobs|
    ensures var job := t.jobs[j];
      && (Claimable(job, now) <==>
            job.state in {Pending, FailedRetryable, Retry} && (job.retryAt.None? || job.retryAt.value <= now))
      && ClaimAt(t, j, now) ==
           t.(jobs := t.jobs[j := job.(state := InProgress, lockedAt := Some(now), attempts := job.attempts + 1)])
  {
  }

  lemma RecoverOutcome(t: Store, limit: Option<int>, now: int)
    ensures var r := Recover(t, limit, now);
      && r == t.(jobs := r.jobs) && |r.jobs| == |t.jobs|
      && forall k | 0 <= k < |t.jobs| ::
           r.jobs[k] ==
             if t.jobs[k].state in {InProgress, JobState.Running}
                && (limit.None? || (t.jobs[k].lockedAt.Some? && t.jobs[k].lockedAt.value < limit.value))
             then t.jobs[k].(state := FailedRetryable, retryAt := Some(now), lockedAt := None)
             else t.jobs[k]
  {
  }

  ghost predicate IsStale(job: Job, limit: Option<int>) {
    job.state in {InProgress, JobState.Running} && (limit.None? || (job.lockedAt.Some? && job.lockedAt.value < limit.value))
  }

  ghost function Stale(jobs: seq<Job>, limit: Option<int>): set<int> {
    set k | 0 <= k < |jobs| && IsStale(jobs[k], limit)
  }

  /** The reported count is that of the jobs recovered. */
  lemma {:induction false} ChangedIs(jobs: seq<Job>, limit: Option<int>, now: int)
    ensures Changed(jobs, limit, now) == |Stale(jobs, limit)|
  {
    if jobs != [] {
      var n := |jobs| - 1;
      ChangedIs(jobs[..n], limit, now);
      assert Recovered(jobs[n], limit, now) != jobs[n] <==> IsStale(jobs[n], limit);
      hide IsStale, Recovered;
      var front := Stale(jobs[..n], limit);
      assert Stale(jobs, limit) == if IsStale(jobs[n], limit) then front + {n} else front;
    }
  }

  // --------------------------------------------------------- turns of stages

  ghost predicate Has<T>(table: map<Id, seq<T>>, v: Id) {
    v in table && table[v] != []
  }

  function WithStatus(t: Store, v: Id, status: IngestionStatus): map<Id, Version>
    requires v in t.versions
  {
    t.versions[v := t.versions[v].(status := status)]
  }

  /** A version that has chunks already goes on from them, whatever its status. */
  lemma ParseFromChunks(t: Store, j: nat, env: Environment, r: Store)
    requires TurnResult(t, j, env, r) && t.jobs[j].jobType in {Pipeline, ParseDocument}
    requires Has(t.chunks, t.jobs[j].version.value)
    ensures
      var v := t.jobs[j].version.value;
      && r == t.(jobs := r.jobs, versions := t.versions[v := t.versions[v].(status := Chunked, error := None)])
      && HandedOver(t, r, j, v, EmbedAndIndex)
  {
    hide Enqueue, Succeed, Fail, HandedOver;
    var v := t.jobs[j].version.value;
    var resumed := ClearError(WriteStatus(t, v, t.versions[v].status, Chunked), v);
    assert resumed == t.(versions := t.versions[v := t.versions[v].(status := Chunked, error := None)]);
    HandsOver(t, resumed, j, v, EmbedAndIndex);
  }

  lemma ParseFromSections(t: Store, j: nat, env: Environment, r: Store)
    requires TurnResult(t, j, env, r) && t.jobs[j].jobType in {Pipeline, ParseDocument}
    requires !Has(t.chunks, t.jobs[j].version.value) && Has(t.sections, t.jobs[j].version.value)
    ensures
      var v := t.jobs[j].version.value;
      r == t.(jobs := r.jobs, versions := WithStatus(t, v, Parsed)) && HandedOver(t, r, j, v, ChunkDocument)
  {
    hide Enqueue, Succeed, Fail, HandedOver;
    var v := t.jobs[j].version.value;
    var parsed := WriteStatus(t, v, t.versions[v].status, Parsed);
    assert parsed == t.(versions := WithStatus(t, v, Parsed));
    HandsOver(t, parsed, j, v, ChunkDocument);
  }

  ghost predicate NoText(sections: seq<string>) {
    forall i | 0 <= i < |sections| :: forall k | 0 <= k < |sections[i]| :: IsSpace(sections[i][k])
  }

  /** Otherwise the object is parsed, */
  lemma ParseAnew(t: Store, j: nat, env: Environment, r: Store)
    requires TurnResult(t, j, env, r) && t.jobs[j].jobType in {Pipeline, ParseDocument}
    requires !Has(t.chunks, t.jobs[j].version.value) && !Has(t.sections, t.jobs[j].version.value)
    requires t.versions[t.jobs[j].version.value].status !in {Chunking, Embedding, Indexing, DeletePending}
    requires env.parserFault.None? && !NoText(env.parsed)
    ensures
      var v := t.jobs[j].version.value;
      && r == t.(jobs := r.jobs, versions := WithStatus(t, v, Parsed), sections := t.sections[v := env.parsed])
      && HandedOver(t, r, j, v, ChunkDocument)
  {
    hide Enqueue, Succeed, Fail, HandedOver, NoText, Usable;
    var v := t.jobs[j].version.value;
    var begun := WriteStatus(t, v, t.versions[v].status, IngestionStatus.Parsing);
    var finished := WriteStatus(begun.(sections := begun.sections[v := env.parsed]), v, IngestionStatus.Parsing, Parsed);
    assert finished == t.(versions := WithStatus(t, v, Parsed), sections := t.sections[v := env.parsed]);
    UsableIff(env.parsed);
    HandsOver(t, finished, j, v, ChunkDocument);
  }

  /** unless the status forbids it, the parser fails, or finds no text. */
  lemma ParseFaultTurn(t: Store, j: nat, env: Environment, r: Store)
    requires TurnResult(t, j, env, r) && t.jobs[j].jobType in {Pipeline, ParseDocument}
    requires !Has(t.chunks, t.jobs[j].version.value) && !Has(t.sections, t.jobs[j].version.value)
    ensures
      var v := t.jobs[j].version.value;
      var begun := t.(versions := WithStatus(t, v, IngestionStatus.Parsing));
      if t.versions[v].status in {Chunking, Embedding, Indexing, DeletePending} then
        FailedWith(t, r, j, InvalidValue, env.retryAt)
      else if env.parserFault.Some? then FailedWith(begun, r, j, env.parserFault.value, env.retryAt)
      else NoText(env.parsed) ==> FailedWith(begun, r, j, InvalidValue, env.retryAt)
  {
    hide Enqueue, Succeed, Fail, FailedWith, NoText, Usable;
    var v := t.jobs[j].version.value;
    var begun := WriteStatus(t, v, t.versions[v].status, IngestionStatus.Parsing);
    assert begun == t.(versions := WithStatus(t, v, IngestionStatus.Parsing));
    UsableIff(env.parsed);
    FailOutcome(t, j, InvalidValue, env.retryAt);
    FailOutcome(begun, j, InvalidValue, env.retryAt);
    if env.parserFault.Some? {
      FailOutcome(begun, j, env.parserFault.value, env.retryAt);
    }
  }

  lemma UsableIff(sections: seq<string>)
    ensures Usable(sections) <==> !NoText(sections)
  {
  }

  lemma ChunkTurn(t: Store, j: nat, env: Environment, r: Store)
    requires TurnResult(t, j, env, r) && t.jobs[j].jobType == ChunkDocument
    requires t.versions[t.jobs[j].version.value].status in {Parsed, Chunking} && env.texts != []
    ensures
      var v := t.jobs[j].version.value;
      && v in r.chunks
      && r == t.(jobs := r.jobs, versions := WithStatus(t, v, Chunked), chunks := t.chunks[v := r.chunks[v]],
                 nextChunk := t.nextChunk + |env.texts|)
      && |r.chunks[v]| == |env.texts|
      && (forall i | 0 <= i < |env.texts| :: r.chunks[v][i] == Chunk(t.nextChunk + i, env.texts[i]))
      && HandedOver(t, r, j, v, EmbedAndIndex)
  {
    hide Enqueue, Succeed, Fail, HandedOver;
    var v := t.jobs[j].version.value;
    var finished := ChunkedStore(WriteStatus(t, v, t.versions[v].status, Chunking), v, env.texts);
    assert finished == t.(versions := WithStatus(t, v, Chunked), chunks := t.chunks[v := NewRows(t.nextChunk, env.texts)],
                          nextChunk := t.nextChunk + |env.texts|);
    HandsOver(t, finished, j, v, EmbedAndIndex);
  }

  lemma ChunkFaultTurn(t: Store, j: nat, env: Environment, r: Store)
    requires TurnResult(t, j, env, r) && t.jobs[j].jobType == ChunkDocument
    requires t.versions[t.jobs[j].version.value].status !in {Parsed, Chunking} || env.texts == []
    ensures
      var v := t.jobs[j].version.value;
      if t.versions[v].status !in {Parsed, Chunking} then FailedWith(t, r, j, InvalidValue, env.retryAt)
      else FailedWith(t.(versions := WithStatus(t, v, Chunking)), r, j, InvalidValue, env.retryAt)
  {
    hide Fail, FailedWith;
    var v := t.jobs[j].version.value;
    var begun := WriteStatus(t, v, t.versions[v].status, Chunking);
    assert begun == t.(versions := WithStatus(t, v, Chunking));
    FailOutcome(t, j, InvalidValue, env.retryAt);
    FailOutcome(begun, j, InvalidValue, env.retryAt);
  }

  /** The rows may be indexed, and the provider answers with a vector for each. */
  ghost predicate EmbedReady(t: Store, v: Id, env: Environment)
    requires v in t.versions
  {
    && v in t.chunks && t.chunks[v] != [] && t.versions[v].status in {Chunked, Embedding, Indexed, IngestionStatus.Failed}
    && env.embeddingFault.None? && |env.vectors| == |t.chunks[v]|
  }

  ghost predicate IsCurrent(t: Store, d: Id, v: Id) {
    d in t.docs && !t.docs[d].deleted && t.docs[d].current == Some(v)
  }

  /** A successful turn of a current version leaves it INDEXED, with a point for every row that carries the row's
      own vector; an inactive version only loses its points. */
  lemma EmbedTurn(t: Store, j: nat, env: Environment, r: Store)
    requires TurnResult(t, j, env, r) && t.jobs[j].jobType == EmbedAndIndex && IndexTied(t)
    requires IsCurrent(t, t.jobs[j].document, t.jobs[j].version.value)
    requires EmbedReady(t, t.jobs[j].version.value, env) && !env.deleteFault && !env.upsertFault
    ensures
      var job, v := t.jobs[j], t.jobs[j].version.value;
      && r == t.(jobs := t.jobs[j := job.(state := Succeeded, lockedAt := None)], index := r.index,
                 versions := t.versions[v := t.versions[v].(status := Indexed, error := None)])
      && Published(t, r, job, v, t.chunks[v], env.vectors)
  {
    hide Published, Upsert, RemoveDocument, RemoveVersion;
    var job, v := t.jobs[j], t.jobs[j].version.value;
    var rows := t.chunks[v];
    var t2 := WriteStatus(WriteStatus(t, v, t.versions[v].status, Embedding), v, Embedding, Indexing);
    var wiped := t2.(index := RemoveDocument(t.index, job.tenant, job.document));
    var points := MakePoints(job.tenant, job.document, v, rows, env.vectors, true);
    assert r == FinishEmbed(wiped.(index := Upsert(wiped.index, points)), j);
    PublishOutcome(t, t.(index := wiped.index), r, job, v, rows, env.vectors);
  }

  /** The statuses that an EMBED job has committed when its fault strikes. */
  lemma EmbedRefusedTurn(t: Store, j: nat, env: Environment, r: Store)
    requires TurnResult(t, j, env, r) && t.jobs[j].jobType == EmbedAndIndex
    requires IsCurrent(t, t.jobs[j].document, t.jobs[j].version.value)
    ensures
      var v := t.jobs[j].version.value;
      var rows := if v in t.chunks then t.chunks[v] else [];
      if rows == [] || t.versions[v].status !in {Chunked, Embedding, Indexed, IngestionStatus.Failed} then
        FailedWith(t, r, j, InvalidValue, env.retryAt)
      else if env.embeddingFault.Some? then
        FailedWith(t.(versions := WithStatus(t, v, Embedding)), r, j, env.embeddingFault.value, env.retryAt)
      else |env.vectors| != |rows| ==> FailedWith(t.(versions := WithStatus(t, v, Embedding)), r, j, InvalidValue, env.retryAt)
  {
    hide Fail, FailedWith, Upsert, MakePoints, RemoveDocument;
    var v := t.jobs[j].version.value;
    var t1 := WriteStatus(t, v, t.versions[v].status, Embedding);
    assert t1 == t.(versions := WithStatus(t, v, Embedding));
    FailOutcome(t, j, InvalidValue, env.retryAt);
    FailOutcome(t1, j, InvalidValue, env.retryAt);
    if env.embeddingFault.Some? {
      FailOutcome(t1, j, env.embeddingFault.value, env.retryAt);
    }
  }

  /** The index is wiped before it is filled. */
  lemma EmbedStoreFaultTurn(t: Store, j: nat, env: Environment, r: Store)
    requires TurnResult(t, j, env, r) && t.jobs[j].jobType == EmbedAndIndex && IndexTied(t)
    requires IsCurrent(t, t.jobs[j].document, t.jobs[j].version.value)
    requires EmbedReady(t, t.jobs[j].version.value, env)
    ensures
      var v := t.jobs[j].version.value;
      if env.deleteFault then FailedWith(t.(versions := WithStatus(t, v, Indexing)), r, j, QdrantUnavailable, env.retryAt)
      else env.upsertFault ==>
        && Wiped(t, r, t.jobs[j].document)
        && FailedWith(t.(versions := WithStatus(t, v, Indexing), index := r.index), r, j, QdrantUnavailable, env.retryAt)
  {
    hide Fail, FailedWith, Wiped, Upsert, MakePoints;
    var job, v := t.jobs[j], t.jobs[j].version.value;
    var t2 := WriteStatus(WriteStatus(t, v, t.versions[v].status, Embedding), v, Embedding, Indexing);
    assert t2 == t.(versions := WithStatus(t, v, Indexing));
    var wiped := t2.(index := RemoveDocument(t.index, job.tenant, job.document));
    FailOutcome(t2, j, QdrantUnavailable, env.retryAt);
    FailOutcome(wiped, j, QdrantUnavailable, env.retryAt);
    WipeOutcome(t, wiped, job);
    FailKeepsIndex(wiped, j, QdrantUnavailable, env.retryAt);
    WipedAgain(t, wiped, r, job.document);
  }

  lemma FailKeepsIndex(t: Store, j: nat, fault: Fault, retryAt: int)
    requires j < |t.jobs|
    ensures Fail(t, j, fault, retryAt).index == t.index
  {
  }

  lemma WipedAgain(t: Store, wiped: Store, r: Store, d: Id)
    requires Wiped(t, wiped, d)
    ensures r.index == wiped.index ==> Wiped(t, r, d)
  {
  }

  /** An inactive version: deleted document, or superseded. */
  lemma EmbedInactiveTurn(t: Store, j: nat, env: Environment, r: Store)
    requires TurnResult(t, j, env, r) && t.jobs[j].jobType == EmbedAndIndex && IndexTied(t)
    requires !IsCurrent(t, t.jobs[j].document, t.jobs[j].version.value)
    ensures
      var job, v := t.jobs[j], t.jobs[j].version.value;
      if env.deleteFault then FailedWith(t, r, j, Unexpected, env.retryAt)
      else
        && r == t.(jobs := t.jobs[j := job.(state := Succeeded, lockedAt := None)], index := r.index)
        && forall p :: p in r.index <==> p in t.index && p.version != v
  {
    var job, v := t.jobs[j], t.jobs[j].version.value;
    FailOutcome(t, j, Unexpected, env.retryAt);
    forall p | p in t.index && p.version == v ensures p.tenant == job.tenant { assert Tied(t, p); }
    RemoveVersionEffect(t.index, job.tenant, v);
  }

  lemma ReindexTurn(t: Store, j: nat, env: Environment, r: Store)
    requires TurnResult(t, j, env, r) && t.jobs[j].jobType == ReindexDocument && IndexTied(t)
    ensures
      var v := t.jobs[j].version.value;
      if env.deleteFault then FailedWith(t, r, j, Unexpected, env.retryAt)
      else
        && r == t.(jobs := r.jobs, index := r.index, chunks := t.chunks - {v}, sections := t.sections - {v},
                   versions := t.versions[v := t.versions[v].(status := Received, error := None)])
        && Wiped(t, r, t.jobs[j].document) && HandedOver(t, r, j, v, ParseDocument)
  {
    hide Enqueue, Succeed, Fail, HandedOver, FailedWith, Wiped;
    var job, v := t.jobs[j], t.jobs[j].version.value;
    FailOutcome(t, j, Unexpected, env.retryAt);
    var wiped := t.(index := RemoveDocument(t.index, job.tenant, job.document));
    WipeOutcome(t, wiped, job);
    var reset := SetStatus(wiped.(chunks := wiped.chunks - {v}, sections := wiped.sections - {v}), v, Received, None);
    HandsOver(t, reset, j, v, ParseDocument);
    WipedAgain(t, wiped, r, job.document);
  }

  /** Every version of the document gets the status, and no other. */
  ghost predicate AllGet(t: Store, r: Store, d: Id, status: IngestionStatus, but: set<IngestionStatus>) {
    && r.versions.Keys == t.versions.Keys
    && forall v | v in t.versions ::
         r.versions[v] == if t.versions[v].document == d && t.versions[v].status !in but
                          then t.versions[v].(status := status) else t.versions[v]
  }

  lemma DeleteTurn(t: Store, j: nat, env: Environment, r: Store)
    requires TurnResult(t, j, env, r) && t.jobs[j].jobType == DeleteFromIndex && IndexTied(t)
    ensures
      var job, d := t.jobs[j], t.jobs[j].document;
      if !t.docs[d].deleted then r == t.(jobs := t.jobs[j := job.(state := Succeeded, lockedAt := None)])
      else if env.deleteFault then
        && AllGet(t, r, d, DeletePending, {DeletedFromIndex})
        && FailedWith(t.(versions := r.versions), r, j, Unexpected, env.retryAt)
      else
        && r == t.(jobs := t.jobs[j := job.(state := Succeeded, lockedAt := None)], index := r.index,
                   versions := r.versions, chunks := r.chunks)
        && Wiped(t, r, d) && AllGet(t, r, d, DeletedFromIndex, {})
        && forall v :: (v in r.chunks <==> v in t.chunks && !(v in t.versions && t.versions[v].document == d))
                       && (v in r.chunks ==> r.chunks[v] == t.chunks[v])
  {
    hide Fail, Wiped;
    var job, d := t.jobs[j], t.jobs[j].document;
    if t.docs[d].deleted {
      var view := ViewOf(t, job);
      var marked := SetStatuses(t, ToMark(view), DeletePending);
      FailOutcome(marked, j, Unexpected, env.retryAt);
      var wiped := marked.(index := RemoveDocument(t.index, job.tenant, d));
      WipeOutcome(t, wiped, job);
      WipedAgain(t, wiped, r, d);
    }
  }

  // ---------------------------------------------------------------- requests

  /** The jobs are the old ones, and a new one at the end unless one of its kind is active. */
  ghost predicate Queues(t: Store, r: Store, tenant: Id, d: Id, v: Id, ty: JobType) {
    && |t.jobs| <= |r.jobs| <= |t.jobs| + 1 && r.jobs[..|t.jobs|] == t.jobs
    && (|r.jobs| == |t.jobs| <==>
          exists k | 0 <= k < |t.jobs| :: t.jobs[k].version == Some(v) && t.jobs[k].jobType == ty && IsActive(t.jobs[k]))
    && (|r.jobs| > |t.jobs| ==> r.jobs[|t.jobs|] == Job(tenant, d, Some(v), ty, Pending, 0, t.maxAttempts, None, None))
  }

  lemma EnqueueOutcome(t: Store, t1: Store, tenant: Id, d: Id, v: Id, ty: JobType)
    requires t1.jobs == t.jobs && t1.maxAttempts == t.maxAttempts && ty != DeleteFromIndex
    ensures var r := Enqueue(t1, tenant, d, Some(v), ty); Queues(t, r, tenant, d, v, ty) && r == t1.(jobs := r.jobs)
  {
    if HasStage(t1, v, ty) {
      var k :| 0 <= k < |t1.jobs| && ActiveStage(t1.jobs[k], v, ty);
      assert t.jobs[k].version == Some(v) && IsActive(t.jobs[k]);
    } else {
      forall k | 0 <= k < |t.jobs| ensures !(t.jobs[k].version == Some(v) && t.jobs[k].jobType == ty && IsActive(t.jobs[k])) {
        assert !ActiveStage(t1.jobs[k], v, ty);
      }
    }
  }

  /** An upload of new content makes its version current and queues its parsing. */
  lemma UploadOutcome(t: Store, d: Id, tenant: Id, key: string, v: Id, hash: string)
    requires v !in t.versions
    ensures var r := AcceptNew(t, d, tenant, key, v, hash);
      && r == t.(jobs := r.jobs, docs := t.docs[d := Document(tenant, key, false, Some(v))],
                 versions := t.versions[v := Version(tenant, d, hash, Received, None)])
      && Queues(t, r, tenant, d, v, ParseDocument)
  {
    EnqueueOutcome(t, t.(docs := t.docs[d := Document(tenant, key, false, Some(v))],
                         versions := t.versions[v := Version(tenant, d, hash, Received, None)]), tenant, d, v, ParseDocument);
  }

  /** An upload of known content revives the document with it; unless it was current and INDEXED it is
      received anew and a REINDEX queued. */
  lemma RepeatOutcome(t: Store, d: Id, v: Id)
    requires d in t.docs && v in t.versions
    ensures var r := AcceptExisting(t, d, v);
      var docs := t.docs[d := Document(t.docs[d].tenant, t.docs[d].key, false, Some(v))];
      if t.docs[d].current == Some(v) && t.versions[v].status == Indexed then r == t.(docs := docs)
      else
        && r == t.(jobs := r.jobs, docs := docs, versions := t.versions[v := t.versions[v].(status := Received, error := None)])
        && Queues(t, r, t.docs[d].tenant, d, v, ReindexDocument)
  {
    EnqueueOutcome(t, SetStatus(t.(docs := t.docs[d := t.docs[d].(deleted := false, current := Some(v))]), v, Received, None),
                   t.docs[d].tenant, d, v, ReindexDocument);
  }

  /** A deletion sets the tombstone once, with a DELETE job unless one is active. */
  lemma DeletionOutcome(t: Store, d: Id)
    requires d in t.docs
    ensures var r := RequestDelete(t, d);
      if t.docs[d].deleted then r == t
      else
        && r == t.(jobs := r.jobs, docs := t.docs[d := t.docs[d].(deleted := true)])
        && r.jobs == t.jobs + if exists k | 0 <= k < |t.jobs| ::
                                   t.jobs[k].document == d && t.jobs[k].jobType == DeleteFromIndex && IsActive(t.jobs[k])
                              then [] else [Job(t.docs[d].tenant, d, None, DeleteFromIndex, Pending, 0, t.maxAttempts, None, None)]
  {
    var t1 := t.(docs := t.docs[d := t.docs[d].(deleted := true)]);
    if HasDelete(t1, d) {
      var k :| 0 <= k < |t1.jobs| && ActiveDelete(t1.jobs[k], d);
      assert t.jobs[k].document == d && IsActive(t.jobs[k]);
    } else {
      forall k | 0 <= k < |t.jobs|
        ensures !(t.jobs[k].document == d && t.jobs[k].jobType == DeleteFromIndex && IsActive(t.jobs[k]))
      {
        assert !ActiveDelete(t1.jobs[k], d);
      }
    }
  }

  ghost predicate Busy(t: Store, v: Id) {
    exists k | 0 <= k < |t.jobs| :: t.jobs[k].version == Some(v) && IsActive(t.jobs[k])
  }

  lemma BusyIff(t: Store, t1: Store, v: Id)
    requires t1.jobs == t.jobs
    ensures HasActiveJob(t1, v) <==> Busy(t, v)
  {
    if HasActiveJob(t1, v) {
      var k :| 0 <= k < |t1.jobs| && t1.jobs[k].version == Some(v) && ActiveState(t1.jobs[k].state);
      assert t.jobs[k].version == Some(v) && IsActive(t.jobs[k]);
    }
    if Busy(t, v) {
      var k :| 0 <= k < |t.jobs| && t.jobs[k].version == Some(v) && IsActive(t.jobs[k]);
      assert t1.jobs[k].version == Some(v) && ActiveState(t1.jobs[k].state);
    }
  }

  /** The administrator's reindex queues one for the current version of a live document without work. */
  lemma AskReindexOutcome(t: Store, d: Id)
    requires d in t.docs
    ensures var r := RequestReindex(t, d);
      if t.docs[d].deleted || t.docs[d].current.None? || Busy(t, t.docs[d].current.value) then r == t
      else r == t.(jobs := r.jobs) && Queues(t, r, t.docs[d].tenant, d, t.docs[d].current.value, ReindexDocument)
  {
    if t.docs[d].current.Some? {
      BusyIff(t, t, t.docs[d].current.value);
      EnqueueOutcome(t, t, t.docs[d].tenant, d, t.docs[d].current.value, ReindexDocument);
    }
  }

  /** The administrator's retry applies to a failed version, or a chunked one that lacks a provider; it goes on
      from the chunks if there are any and parses otherwise. */
  lemma AskRetryOutcome(t: Store, d: Id)
    requires d in t.docs && t.docs[d].current.Some? && t.docs[d].current.value in t.versions
    ensures
      var v := t.docs[d].current.value;
      var r := RequestRetry(t, d);
      var blocked := t.versions[v].status == Chunked
        && t.versions[v].error in {Some("NOT_CONFIGURED"), Some("EMBEDDING_UNAVAILABLE"), Some("QDRANT_UNAVAILABLE")};
      if t.versions[v].status != IngestionStatus.Failed && !blocked then r == t
      else
        var ty := if blocked || Has(t.chunks, v) then EmbedAndIndex else ParseDocument;
        var versions := if ty == EmbedAndIndex then t.versions[v := t.versions[v].(error := None)] else t.versions;
        && r == t.(jobs := r.jobs, versions := versions)
        && if Busy(t, v) then r.jobs == t.jobs else Queues(t, r, t.docs[d].tenant, d, v, ty)
  {
    hide Enqueue, Queues, Busy, HasActiveJob;
    var v := t.docs[d].current.value;
    var cleared := t.(versions := t.versions[v := t.versions[v].(error := None)]);
    BusyIff(t, t, v);
    BusyIff(t, cleared, v);
    EnqueueOutcome(t, cleared, t.docs[d].tenant, d, v, EmbedAndIndex);
    EnqueueOutcome(t, t, t.docs[d].tenant, d, v, ParseDocument);
  }
}
