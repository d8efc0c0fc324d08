/** Index agreement: in every reachable state, however requests, failures and crashes
    fall between the worker's commits, an INDEXED current version is matched by exactly
    its own points, as long as REINDEX wipes only what the code may wipe. */
module IngestionSafety {
  import opened Options
  import opened IngestionModel
  import opened IngestionSteps
  import opened IndexLemmas

  // --------------------------------------------------------------- invariant

  ghost predicate OwnJob(t: Store, job: Job) {
    && job.document in t.docs
    && job.tenant == t.docs[job.document].tenant
    && (job.version.Some? ==> job.version.value in t.versions && t.versions[job.version.value].document == job.document)
    && (job.jobType != DeleteFromIndex <==> job.version.Some?)
  }

  /** Foreign keys, and the tenant a row carries is its document's tenant. */
  ghost predicate Tables(t: Store) {
    && (forall v | v in t.versions ::
          t.versions[v].document in t.docs && t.versions[v].tenant == t.docs[t.versions[v].document].tenant)
    && (forall d | d in t.docs && t.docs[d].current.Some? ::
          t.docs[d].current.value in t.versions && t.versions[t.docs[d].current.value].document == d)
    && (forall j | 0 <= j < |t.jobs| :: OwnJob(t, t.jobs[j]))
  }

  /** At most one active job per version and stage. */
  ghost predicate OneActive(t: Store) {
    forall i, k | 0 <= i < k < |t.jobs| && t.jobs[i].jobType != DeleteFromIndex && t.jobs[i].version.Some?
      && ActiveStage(t.jobs[i], t.jobs[i].version.value, t.jobs[i].jobType)
      :: !ActiveStage(t.jobs[k], t.jobs[i].version.value, t.jobs[i].jobType)
  }

  ghost predicate Tied(t: Store, p: Point) {
    && p.version == p.id.version
    && p.version in t.versions
    && p.document == t.versions[p.version].document
    && p.document in t.docs
    && p.tenant == t.docs[p.document].tenant
  }

  /** Every point's payload names the rows its id was built from. */
  ghost predicate IndexTied(t: Store) {
    DistinctIds(t.index) && forall p | p in t.index :: Tied(t, p)
  }

  ghost predicate IsIndexed(t: Store, v: Id) {
    v in t.versions && t.versions[v].status == Indexed
  }

  ghost predicate IndexedFacts(t: Store) {
    forall v | IsIndexed(t, v) :: !HasStage(t, v, EmbedAndIndex) && t.ChunksOf(v) != []
  }

  /** Point by point and in order, the points are those of these chunk rows. */
  ghost predicate Match(points: seq<Point>, v: Id, chunks: seq<Chunk>) {
    && |points| == |chunks|
    && forall i | 0 <= i < |chunks| ::
         && points[i].id == PointId(v, i)
         && points[i].version == v
         && points[i].chunk == chunks[i].id
         && points[i].text == chunks[i].text
         && points[i].active
  }

  /** A REINDEX of this version has started and not ended, so the points may be gone already;
      there are never some of them, or others. */
  ghost predicate Dirty(t: Store, v: Id) {
    exists j | 0 <= j < |t.jobs| :: ActiveStage(t.jobs[j], v, ReindexDocument) && t.jobs[j].attempts > 0
  }

  ghost predicate Agrees(t: Store, d: Id)
    requires d in t.docs
  {
    t.docs[d].current.Some? && IsIndexed(t, t.docs[d].current.value) ==>
      var v := t.docs[d].current.value;
      Match(PointsOf(t.index, d), v, t.ChunksOf(v)) || (Dirty(t, v) && PointsOf(t.index, d) == [])
  }

  ghost predicate Agreement(t: Store) {
    forall d | d in t.docs :: Agrees(t, d)
  }

  /** Wiping the document's points hurts nobody: its current version is `v` or is not INDEXED. */
  ghost predicate WipeSafe(t: Store, d: Id, v: Id) {
    d in t.docs && (t.docs[d].current.Some? && t.docs[d].current.value != v ==> !IsIndexed(t, t.docs[d].current.value))
  }

  /** What a running job relies on until its last commit. */
  ghost predicate InFlight(t: Store, j: nat, phase: Phase) {
    && Ready(t, j, phase)
    && t.jobs[j].state == InProgress
    && t.jobs[j].attempts > 0
    && var job := t.jobs[j];
    var d := job.document;
    match phase
    case Claimed => true
    case Loaded(view) =>
      && (forall v | IsIndexed(t, v) && t.versions[v].document == d :: v in view.statuses && view.statuses[v] == Indexed)
      && (job.jobType == EmbedAndIndex && !view.deleted && view.current == job.version ==> WipeSafe(t, d, job.version.value))
    case ParseStarted => !IsIndexed(t, job.version.value)
    case ChunkStarted => !IsIndexed(t, job.version.value)
    case EmbedStarted => WipeSafe(t, d, job.version.value) && t.ChunksOf(job.version.value) != []
    case IndexStarted(vectors) =>
      && WipeSafe(t, d, job.version.value) && t.ChunksOf(job.version.value) != []
      && |vectors| == |t.ChunksOf(job.version.value)|
    case IndexWiped(_) =>
      && WipeSafe(t, d, job.version.value) && t.ChunksOf(job.version.value) != [] && PointsOf(t.index, d) == []
    case IndexUpserted =>
      && WipeSafe(t, d, job.version.value)
      && t.ChunksOf(job.version.value) != [] && Match(PointsOf(t.index, d), job.version.value, t.ChunksOf(job.version.value))
    case InactiveDropped => true
    case ReindexWiped => true
    case DeleteMarked(_) => forall v | IsIndexed(t, v) :: t.versions[v].document != d
    case DeleteWiped(_) => forall v | IsIndexed(t, v) :: t.versions[v].document != d
  }

  ghost predicate Base(t: Store) {
    Tables(t) && OneActive(t) && IndexTied(t) && IndexedFacts(t)
  }

  ghost predicate Inv(s: State) {
    && Base(s.store)
    && Agreement(s.store)
    && (s.worker.Busy? ==> InFlight(s.store, s.worker.job, s.worker.phase))
  }

  /** Nor does it hurt a current version that is being reindexed itself. */
  ghost predicate WipeAllowed(t: Store, d: Id, v: Id) {
    WipeSafe(t, d, v) || (d in t.docs && t.docs[d].current.Some? && Dirty(t, t.docs[d].current.value))
  }

  /** The guard: when a REINDEX is about to wipe its document, the document's current
      version is the job's own version, is not INDEXED, or is being reindexed itself. */
  ghost predicate Guarded(s: State, e: Event) {
    e.Stage? && s.worker.Busy? && s.worker.phase.Loaded?
    && s.worker.job < |s.store.jobs| && s.store.jobs[s.worker.job].jobType == ReindexDocument
    && s.store.jobs[s.worker.job].version.Some?
    ==> WipeAllowed(s.store, s.store.jobs[s.worker.job].document, s.store.jobs[s.worker.job].version.value)
  }

  // ------------------------------------------------- small effects on tables

  /** Ending job `j` can only remove active jobs. */
  lemma EndJobKeeps(t: Store, j: nat, job: Job)
    requires Base(t) && j < |t.jobs|
    requires job.document == t.jobs[j].document && job.tenant == t.jobs[j].tenant
    requires job.version == t.jobs[j].version && job.jobType == t.jobs[j].jobType
    requires ActiveState(job.state) ==> ActiveState(t.jobs[j].state)
    ensures Base(SetJob(t, j, job))
    ensures forall v, ty | HasStage(SetJob(t, j, job), v, ty) :: HasStage(t, v, ty)
  {
    var t' := SetJob(t, j, job);
    forall v, ty | HasStage(t', v, ty) ensures HasStage(t, v, ty) {
      var k :| 0 <= k < |t'.jobs| && ActiveStage(t'.jobs[k], v, ty);
      assert ActiveStage(t.jobs[k], v, ty);
    }
    forall v | IsIndexed(t', v) ensures !HasStage(t', v, EmbedAndIndex) && t'.ChunksOf(v) != [] {
      assert IsIndexed(t, v);
    }
  }

  lemma EnqueueKeeps(t: Store, d: Id, v: Option<Id>, ty: JobType)
    requires Base(t) && d in t.docs
    requires v.Some? ==> v.value in t.versions && t.versions[v.value].document == d
    requires ty != DeleteFromIndex <==> v.Some?
    requires ty == EmbedAndIndex ==> !IsIndexed(t, v.value)
    ensures Base(Enqueue(t, t.docs[d].tenant, d, v, ty))
  {
    var t' := Enqueue(t, t.docs[d].tenant, d, v, ty);
    if t' != t {
      forall i, k | 0 <= i < k < |t'.jobs| && t'.jobs[i].jobType != DeleteFromIndex && t'.jobs[i].version.Some?
        && ActiveStage(t'.jobs[i], t'.jobs[i].version.value, t'.jobs[i].jobType)
        ensures !ActiveStage(t'.jobs[k], t'.jobs[i].version.value, t'.jobs[i].jobType)
      {
        assert t'.jobs[i] == t.jobs[i];
      }
      forall w | IsIndexed(t', w) ensures !HasStage(t', w, EmbedAndIndex) && t'.ChunksOf(w) != [] {
        assert IsIndexed(t, w);
      }
    }
  }

  /** Agreement survives any change that indexes nothing new, leaves the points alone and
      keeps the chunk rows and the dirty marks of what stays INDEXED. */
  lemma AgreementKept(t: Store, t': Store)
    requires Agreement(t) && t'.index == t.index
    requires forall d | d in t'.docs && t'.docs[d].current.Some? && IsIndexed(t', t'.docs[d].current.value) ::
               && d in t.docs && t.docs[d].current == t'.docs[d].current
               && IsIndexed(t, t'.docs[d].current.value)
               && t.ChunksOf(t'.docs[d].current.value) == t'.ChunksOf(t'.docs[d].current.value)
               && (Dirty(t, t'.docs[d].current.value) ==> Dirty(t', t'.docs[d].current.value))
    ensures Agreement(t')
  {
    forall d | d in t'.docs ensures Agrees(t', d) {
      if t'.docs[d].current.Some? && IsIndexed(t', t'.docs[d].current.value) {
        assert Agrees(t, d);
      }
    }
  }

  /** Everything but agreement survives a change that keeps the jobs and every row's
      owner, adds no untied point and indexes nothing new. */
  lemma BaseKept(t: Store, t': Store)
    requires Base(t) && t'.docs == t.docs && t'.jobs == t.jobs && t'.versions.Keys == t.versions.Keys
    requires forall v | v in t.versions ::
               t'.versions[v].document == t.versions[v].document && t'.versions[v].tenant == t.versions[v].tenant
    requires DistinctIds(t'.index) && forall p | p in t'.index :: Tied(t, p)
    requires forall v | IsIndexed(t', v) :: IsIndexed(t, v) && t'.ChunksOf(v) == t.ChunksOf(v)
    ensures Base(t')
    ensures forall v :: Dirty(t', v) == Dirty(t, v)
  {
    forall v | IsIndexed(t', v) ensures !HasStage(t', v, EmbedAndIndex) && t'.ChunksOf(v) != [] {
      assert IsIndexed(t, v);
      assert !HasStage(t, v, EmbedAndIndex);
    }
    forall p | p in t'.index ensures Tied(t', p) {
      assert Tied(t, p);
    }
    forall j | 0 <= j < |t'.jobs| ensures OwnJob(t', t'.jobs[j]) {
      assert OwnJob(t, t.jobs[j]);
    }
  }

  // ------------------------------------------------------------ worker steps

  lemma ClaimInv(s: State, j: nat, now: int)
    requires Inv(s) && Enabled(s, Claim(j, now))
    ensures Inv(Apply(s, Claim(j, now)))
  {
    var t := s.store;
    var t' := ClaimAt(t, j, now);
    EndJobKeeps(t, j, t'.jobs[j]);
    forall v | Dirty(t, v) ensures Dirty(t', v) {
      var k :| 0 <= k < |t.jobs| && ActiveStage(t.jobs[k], v, ReindexDocument) && t.jobs[k].attempts > 0;
      assert ActiveStage(t'.jobs[k], v, ReindexDocument) && t'.jobs[k].attempts > 0;
    }
    AgreementKept(t, t');
  }

  /** The outcome of a stage step leads to a state satisfying the invariant. A raised
      exception is followed by `Fail`, which `FailInv` covers. */
  ghost predicate Good(o: Outcome, j: nat) {
    match o
    case Next(t, phase) => Inv(State(t, Busy(j, phase)))
    case Done(t) => Inv(State(t, Idle))
    case Raise(_) => true
  }

  ghost predicate Running(t: Store, j: nat, phase: Phase) {
    Base(t) && Agreement(t) && InFlight(t, j, phase)
  }

  /** Changes to job `j` and later jobs leave the dirty marks other jobs make. */
  lemma DirtyKept(t: Store, t': Store, j: nat)
    requires j < |t.jobs| <= |t'.jobs|
    requires forall k | 0 <= k < |t.jobs| && k != j :: t'.jobs[k] == t.jobs[k]
    ensures forall v: Id | (t.jobs[j].version != Some(v) || t.jobs[j].jobType != ReindexDocument) && Dirty(t, v) :: Dirty(t', v)
  {
    forall v: Id | (t.jobs[j].version != Some(v) || t.jobs[j].jobType != ReindexDocument) && Dirty(t, v) ensures Dirty(t', v) {
      var k :| 0 <= k < |t.jobs| && ActiveStage(t.jobs[k], v, ReindexDocument) && t.jobs[k].attempts > 0;
      assert k != j;
      assert ActiveStage(t'.jobs[k], v, ReindexDocument) && t'.jobs[k].attempts > 0;
    }
  }

  /** The shape of every stage's last commit: its version is not INDEXED afterwards, job `j`
      ends and one follow-up job may be queued. */
  lemma HandOver(t: Store, t1: Store, j: nat, version: Version, follow: JobType)
    requires Base(t) && Agreement(t) && j < |t.jobs| && t.jobs[j].version.Some?
    requires t.jobs[j].version.value in t.versions
    requires t1 == t.(chunks := t1.chunks, sections := t1.sections, nextChunk := t1.nextChunk,
                      versions := t.versions[t.jobs[j].version.value := version])
    requires forall v | IsIndexed(t, v) && v != t.jobs[j].version.value :: t1.ChunksOf(v) == t.ChunksOf(v)
    requires version.document == t.versions[t.jobs[j].version.value].document
    requires version.tenant == t.versions[t.jobs[j].version.value].tenant
    requires version.status != Indexed && follow != DeleteFromIndex
    ensures Inv(State(Enqueue(Succeed(t1, j), t.jobs[j].tenant, t.jobs[j].document, t.jobs[j].version, follow), Idle))
  {
    var job := t.jobs[j];
    var v := job.version.value;
    assert OwnJob(t, job);
    forall w | IsIndexed(t1, w) ensures IsIndexed(t, w) && t1.ChunksOf(w) == t.ChunksOf(w) {
      assert w != v;
    }
    BaseKept(t, t1);
    var t2 := Succeed(t1, j);
    EndJobKeeps(t1, j, t2.jobs[j]);
    EnqueueKeeps(t2, job.document, job.version, follow);
    var t3 := Enqueue(t2, job.tenant, job.document, job.version, follow);
    DirtyKept(t, t3, j);
    assert forall w | IsIndexed(t3, w) :: IsIndexed(t, w) && w != v;
    AgreementKept(t, t3);
  }

  /** A stage's first commit: its version takes a status short of INDEXED. */
  lemma Started(t: Store, j: nat, v: Id, seen: IngestionStatus, target: IngestionStatus)
    requires Base(t) && Agreement(t) && v in t.versions && target != Indexed
    ensures var t' := WriteStatus(t, v, seen, target);
      && Base(t') && Agreement(t')
      && (forall w | IsIndexed(t', w) :: IsIndexed(t, w))
      && (seen == target || !IsIndexed(t', v))
  {
    var t' := WriteStatus(t, v, seen, target);
    if seen != target {
      BaseKept(t, t');
      AgreementKept(t, t');
    }
  }

  lemma LoadInv(t: Store, j: nat)
    requires Running(t, j, Claimed)
    ensures Good(Load(t, t.jobs[j]), j)
  {
    assert OwnJob(t, t.jobs[j]);
  }

  lemma BeginParseInv(t: Store, j: nat, view: View)
    requires Running(t, j, Loaded(view)) && t.jobs[j].jobType in {Pipeline, ParseDocument}
    ensures Good(BeginParse(t, j, view.statuses[t.jobs[j].version.value]), j)
  {
    var v := t.jobs[j].version.value;
    var seen := view.statuses[v];
    assert OwnJob(t, t.jobs[j]);
    if t.ChunksOf(v) != [] {
      ResumeInv(t, ClearError(WriteStatus(t, v, seen, Chunked), v), j, view, EmbedAndIndex);
    } else if t.SectionsOf(v) != [] {
      ResumeInv(t, WriteStatus(t, v, seen, Parsed), j, view, ChunkDocument);
    } else {
      Started(t, j, v, seen, IngestionStatus.Parsing);
    }
  }

  /** A parse job whose work is already done hands over at once. */
  lemma ResumeInv(t: Store, t1: Store, j: nat, view: View, follow: JobType)
    requires Running(t, j, Loaded(view)) && t.jobs[j].jobType in {Pipeline, ParseDocument}
    requires OwnJob(t, t.jobs[j]) && t.jobs[j].version.Some? && t.jobs[j].version.value in t.versions
    requires var v, seen := t.jobs[j].version.value, view.statuses[t.jobs[j].version.value];
      || (t1 == ClearError(WriteStatus(t, v, seen, Chunked), v) && follow == EmbedAndIndex)
      || (t1 == WriteStatus(t, v, seen, Parsed) && follow == ChunkDocument)
    ensures Good(Done(Enqueue(Succeed(t1, j), t.jobs[j].tenant, t.jobs[j].document, t.jobs[j].version, follow)), j)
  {
    var v := t.jobs[j].version.value;
    assert t1.versions == t.versions[v := t1.versions[v]];
    HandOver(t, t1, j, t1.versions[v], follow);
  }

  lemma FinishParseInv(t: Store, j: nat, sections: seq<string>)
    requires Running(t, j, ParseStarted)
    ensures Good(FinishParse(t, j, sections), j)
  {
    var v := t.jobs[j].version.value;
    var t1 := WriteStatus(t.(sections := t.sections[v := sections]), v, IngestionStatus.Parsing, Parsed);
    HandOver(t, t1, j, t1.versions[v], ChunkDocument);
  }

  lemma BeginChunkInv(t: Store, j: nat, view: View)
    requires Running(t, j, Loaded(view)) && t.jobs[j].jobType == ChunkDocument
    ensures Good(BeginChunk(t, j, view.statuses[t.jobs[j].version.value]), j)
  {
    var v := t.jobs[j].version.value;
    assert OwnJob(t, t.jobs[j]);
    Started(t, j, v, view.statuses[v], Chunking);
  }

  function ChunkedStore(t: Store, v: Id, texts: seq<string>): Store
    requires v in t.versions
  {
    WriteStatus(t.(chunks := t.chunks[v := NewRows(t.nextChunk, texts)], nextChunk := t.nextChunk + |texts|), v, Chunking, Chunked)
  }

  lemma ChunkedStoreKeeps(t: Store, v: Id, texts: seq<string>)
    requires v in t.versions
    ensures var t1 := ChunkedStore(t, v, texts);
      t1 == t.(chunks := t1.chunks, sections := t1.sections, nextChunk := t1.nextChunk, versions := t.versions[v := t1.versions[v]])
    ensures forall w | w != v :: ChunkedStore(t, v, texts).ChunksOf(w) == t.ChunksOf(w)
  {
  }

  lemma FinishChunkInv(t: Store, j: nat, texts: seq<string>)
    requires Running(t, j, ChunkStarted)
    ensures Good(FinishChunk(t, j, texts), j)
  {
    var v := t.jobs[j].version.value;
    if texts != [] {
      var t1 := ChunkedStore(t, v, texts);
      ChunkedStoreKeeps(t, v, texts);
      HandOver(t, t1, j, t1.versions[v], EmbedAndIndex);
    }
  }

  /** The active EMBED job itself keeps its version from being INDEXED. */
  lemma EmbedNotIndexed(t: Store, j: nat)
    requires Base(t) && j < |t.jobs| && t.jobs[j].version.Some?
    requires ActiveStage(t.jobs[j], t.jobs[j].version.value, EmbedAndIndex)
    ensures !IsIndexed(t, t.jobs[j].version.value)
  {
    assert HasStage(t, t.jobs[j].version.value, EmbedAndIndex);
  }

  lemma BeginEmbedInv(t: Store, j: nat, view: View)
    requires Running(t, j, Loaded(view)) && t.jobs[j].jobType == EmbedAndIndex
    ensures Good(BeginEmbed(t, j, view), j)
  {
    var job := t.jobs[j];
    var v := job.version.value;
    assert OwnJob(t, job);
    EmbedNotIndexed(t, j);
    if view.deleted || view.current != Some(v) {
      RemoveVersionEffect(t.index, job.tenant, v);
      var t' := t.(index := RemoveVersion(t.index, job.tenant, v));
      BaseKept(t, t');
      forall d | d in t'.docs ensures Agrees(t', d) {
        assert Agrees(t, d);
        if t.docs[d].current.Some? && IsIndexed(t, t.docs[d].current.value) && !Dirty(t, t.docs[d].current.value) {
          assert t.docs[d].current.value != v;
        }
      }
    } else {
      Started(t, j, v, view.statuses[v], Embedding);
    }
  }

  lemma BeginIndexInv(t: Store, j: nat, vectors: seq<Vector>)
    requires Running(t, j, EmbedStarted)
    ensures Good(BeginIndex(t, j, vectors), j)
  {
    Started(t, j, t.jobs[j].version.value, Embedding, Indexing);
  }

  /** Wiping a document's points, as EMBED, REINDEX and DELETE do. */
  lemma WipeKeeps(t: Store, d: Id)
    requires Base(t) && Agreement(t) && d in t.docs
    requires t.docs[d].current.Some? && IsIndexed(t, t.docs[d].current.value) ==> Dirty(t, t.docs[d].current.value)
    ensures var t' := t.(index := RemoveDocument(t.index, t.docs[d].tenant, d));
      && Base(t') && Agreement(t') && PointsOf(t'.index, d) == []
      && (forall w :: IsIndexed(t', w) == IsIndexed(t, w))
  {
    var t' := t.(index := RemoveDocument(t.index, t.docs[d].tenant, d));
    RemoveDocumentEffect(t.index, t.docs[d].tenant, d);
    BaseKept(t, t');
    forall x | x in t'.docs ensures Agrees(t', x) {
      assert Agrees(t, x);
    }
  }

  lemma WipeForIndexInv(t: Store, j: nat, vectors: seq<Vector>)
    requires Running(t, j, IndexStarted(vectors))
    ensures Good(Next(t.(index := RemoveDocument(t.index, t.jobs[j].tenant, t.jobs[j].document)), IndexWiped(vectors)), j)
  {
    assert OwnJob(t, t.jobs[j]);
    EmbedNotIndexed(t, j);
    WipeKeeps(t, t.jobs[j].document);
  }

  /** Points of a document that has none are appended. */
  lemma NewPoints(t: Store, d: Id, points: seq<Point>)
    requires IndexTied(t) && PointsOf(t.index, d) == [] && DistinctIds(points)
    requires forall p | p in points :: p.document == d && p.id.version in t.versions && t.versions[p.id.version].document == d
    ensures Upsert(t.index, points) == t.index + points && DistinctIds(t.index + points)
  {
    PointsOfMembers(t.index, d);
    forall q, p | q in t.index && p in points ensures q.id != p.id {
      assert Tied(t, q);
    }
    UpsertFresh(t.index, points);
    var all := t.index + points;
    forall i, k | 0 <= i < k < |all| ensures all[i].id != all[k].id {
      if i < |t.index| <= k {
        assert all[i] in t.index && all[k] in points;
      }
    }
  }

  /** The document's points are those of the rows, each with its own vector, and nobody else's changed. */
  ghost predicate Published(t: Store, r: Store, job: Job, v: Id, rows: seq<Chunk>, vectors: seq<Vector>) {
    var points := PointsOf(r.index, job.document);
    && |points| == |rows| == |vectors|
    && (forall i | 0 <= i < |rows| ::
          points[i] == Point(PointId(v, i), vectors[i], job.tenant, job.document, v, rows[i].id, rows[i].text, true))
    && (forall d | d != job.document :: PointsOf(r.index, d) == PointsOf(t.index, d))
  }

  ghost predicate Wiped(t: Store, r: Store, d: Id) {
    PointsOf(r.index, d) == [] && forall x | x != d :: PointsOf(r.index, x) == PointsOf(t.index, x)
  }

  lemma WipeOutcome(t: Store, r: Store, job: Job)
    requires IndexTied(t) && OwnJob(t, job) && r.index == RemoveDocument(t.index, job.tenant, job.document)
    ensures Wiped(t, r, job.document) && DistinctIds(r.index)
    ensures forall p | p in r.index :: p in t.index
  {
    RemoveDocumentEffect(t.index, job.tenant, job.document);
  }

  lemma PublishOutcome(t: Store, wiped: Store, r: Store, job: Job, v: Id, rows: seq<Chunk>, vectors: seq<Vector>)
    requires IndexTied(t) && OwnJob(t, job) && job.version == Some(v) && |rows| == |vectors|
    requires wiped.index == RemoveDocument(t.index, job.tenant, job.document) && wiped.docs == t.docs && wiped.versions == t.versions
    requires r.index == Upsert(wiped.index, MakePoints(job.tenant, job.document, v, rows, vectors, true))
    ensures Published(t, r, job, v, rows, vectors)
  {
    var d := job.document;
    var points := MakePoints(job.tenant, d, v, rows, vectors, true);
    WipeOutcome(t, wiped, job);
    forall p | p in wiped.index ensures Tied(wiped, p) { assert Tied(t, p); }
    NewPoints(wiped, d, points);
    PointsOfAll(points, d);
    forall x ensures PointsOf(r.index, x) == PointsOf(wiped.index, x) + PointsOf(points, x) {
      PointsOfAppend(wiped.index, points, x);
    }
    forall x | x != d ensures PointsOf(points, x) == [] {
      PointsOfNone(points, x);
    }
  }

  lemma UpsertInv(t: Store, j: nat, vectors: seq<Vector>)
    requires Running(t, j, IndexWiped(vectors))
    ensures
      var job := t.jobs[j];
      var v := job.version.value;
      var points := MakePoints(job.tenant, job.document, v, t.ChunksOf(v), vectors, true);
      Good(Next(t.(index := Upsert(t.index, points)), IndexUpserted), j)
  {
    hide Upsert;
    var job := t.jobs[j];
    var v := job.version.value;
    var d := job.document;
    var points := MakePoints(job.tenant, d, v, t.ChunksOf(v), vectors, true);
    assert OwnJob(t, job);
    EmbedNotIndexed(t, j);
    NewPoints(t, d, points);
    var t' := t.(index := t.index + points);
    BaseKept(t, t');
    PointsOfAll(points, d);
    PointsOfAppend(t.index, points, d);
    forall x | x in t'.docs ensures Agrees(t', x) {
      assert Agrees(t, x);
      PointsOfAppend(t.index, points, x);
      if x != d {
        PointsOfNone(points, x);
      }
    }
  }

  lemma FinishEmbedInv(t: Store, j: nat)
    requires Running(t, j, IndexUpserted)
    ensures Inv(State(FinishEmbed(t, j), Idle))
  {
    var job := t.jobs[j];
    var v := job.version.value;
    var d := job.document;
    assert OwnJob(t, job);
    var t1 := Succeed(t, j);
    EndJobKeeps(t, j, t1.jobs[j]);
    var t' := FinishEmbed(t, j);
    assert t'.versions == t1.versions[v := t'.versions[v]];
    assert !HasStage(t', v, EmbedAndIndex) by {
      forall k | 0 <= k < |t'.jobs| ensures !ActiveStage(t'.jobs[k], v, EmbedAndIndex) {
        if k != j { assert t'.jobs[k] == t.jobs[k]; }
      }
    }
    forall w | IsIndexed(t', w) ensures !HasStage(t', w, EmbedAndIndex) && t'.ChunksOf(w) != [] {
      if w != v {
        assert IsIndexed(t1, w);
        assert t'.jobs == t1.jobs && HasStage(t', w, EmbedAndIndex) == HasStage(t1, w, EmbedAndIndex);
      }
    }
    forall p | p in t'.index ensures Tied(t', p) { assert Tied(t, p); }
    forall k | 0 <= k < |t'.jobs| ensures OwnJob(t', t'.jobs[k]) { assert OwnJob(t1, t1.jobs[k]); }
    DirtyKept(t, t', j);
    forall x | x in t'.docs ensures Agrees(t', x) { assert Agrees(t, x); }
  }

  lemma DroppedInv(t: Store, j: nat)
    requires Running(t, j, InactiveDropped)
    ensures Inv(State(Succeed(t, j), Idle))
  {
    var t' := Succeed(t, j);
    EndJobKeeps(t, j, t'.jobs[j]);
    DirtyKept(t, t', j);
    AgreementKept(t, t');
  }

  lemma ReindexWipeInv(t: Store, j: nat, view: View)
    requires Running(t, j, Loaded(view)) && t.jobs[j].jobType == ReindexDocument
    requires WipeAllowed(t, t.jobs[j].document, t.jobs[j].version.value)
    ensures Good(Next(t.(index := RemoveDocument(t.index, t.jobs[j].tenant, t.jobs[j].document)), ReindexWiped), j)
  {
    assert OwnJob(t, t.jobs[j]);
    assert ActiveStage(t.jobs[j], t.jobs[j].version.value, ReindexDocument);
    WipeKeeps(t, t.jobs[j].document);
  }

  lemma FinishReindexInv(t: Store, j: nat)
    requires Running(t, j, ReindexWiped)
    ensures Inv(State(FinishReindex(t, j), Idle))
  {
    var v := t.jobs[j].version.value;
    var t1 := SetStatus(t.(chunks := t.chunks - {v}, sections := t.sections - {v}), v, Received, None);
    HandOver(t, t1, j, t1.versions[v], ParseDocument);
  }

  /** Marking versions DELETE_PENDING or DELETED_FROM_INDEX. */
  lemma MarkKeeps(t: Store, vs: set<Id>, target: IngestionStatus)
    requires Base(t) && Agreement(t) && target != Indexed
    ensures var t' := SetStatuses(t, vs, target);
      && Base(t') && Agreement(t')
      && (forall w :: IsIndexed(t', w) <==> IsIndexed(t, w) && w !in vs)
  {
    var t' := SetStatuses(t, vs, target);
    assert forall w :: IsIndexed(t', w) <==> IsIndexed(t, w) && w !in vs;
    forall w | IsIndexed(t', w) ensures t'.ChunksOf(w) == t.ChunksOf(w) {}
    BaseKept(t, t');
    AgreementKept(t, t');
  }

  lemma BeginDeleteInv(t: Store, j: nat, view: View)
    requires Running(t, j, Loaded(view)) && t.jobs[j].jobType == DeleteFromIndex
    ensures Good(BeginDelete(t, j, view), j)
  {
    if !view.deleted {
      var t' := Succeed(t, j);
      EndJobKeeps(t, j, t'.jobs[j]);
      DirtyKept(t, t', j);
      AgreementKept(t, t');
    } else {
      MarkKeeps(t, ToMark(view), DeletePending);
    }
  }

  lemma DeleteWipeInv(t: Store, j: nat, targets: set<Id>)
    requires Running(t, j, DeleteMarked(targets))
    ensures Good(Next(t.(index := RemoveDocument(t.index, t.jobs[j].tenant, t.jobs[j].document)), DeleteWiped(targets)), j)
  {
    var d := t.jobs[j].document;
    assert OwnJob(t, t.jobs[j]);
    WipeKeeps(t, d);
  }

  lemma FinishDeleteInv(t: Store, j: nat, targets: set<Id>)
    requires Running(t, j, DeleteWiped(targets))
    ensures Inv(State(FinishDelete(t, j, targets), Idle))
  {
    var d := t.jobs[j].document;
    var t1 := t.(chunks := OtherChunks(t, d));
    BaseKept(t, t1);
    AgreementKept(t, t1);
    MarkKeeps(t1, targets, DeletedFromIndex);
    var t2 := SetStatuses(t1, targets, DeletedFromIndex);
    var t' := Succeed(t2, j);
    EndJobKeeps(t2, j, t'.jobs[j]);
    DirtyKept(t2, t', j);
    AgreementKept(t2, t');
  }

  lemma StageInv(s: State, e: Event)
    requires Inv(s) && Enabled(s, e) && e.Stage? && Guarded(s, e)
    ensures Good(StageStep(s.store, s.worker.job, s.worker.phase, e.answer), s.worker.job)
  {
    var t, j := s.store, s.worker.job;
    match s.worker.phase
    case Claimed => LoadInv(t, j);
    case Loaded(view) =>
      match t.jobs[j].jobType {
        case Pipeline => BeginParseInv(t, j, view);
        case ParseDocument => BeginParseInv(t, j, view);
        case ChunkDocument => BeginChunkInv(t, j, view);
        case EmbedAndIndex => BeginEmbedInv(t, j, view);
        case ReindexDocument => ReindexWipeInv(t, j, view);
        case DeleteFromIndex => BeginDeleteInv(t, j, view);
      }
    case ParseStarted => FinishParseInv(t, j, e.answer.sections);
    case ChunkStarted => FinishChunkInv(t, j, e.answer.texts);
    case EmbedStarted => BeginIndexInv(t, j, e.answer.vectors);
    case IndexStarted(vectors) => WipeForIndexInv(t, j, vectors);
    case IndexWiped(vectors) => UpsertInv(t, j, vectors);
    case IndexUpserted => FinishEmbedInv(t, j);
    case InactiveDropped => DroppedInv(t, j);
    case ReindexWiped => FinishReindexInv(t, j);
    case DeleteMarked(targets) => DeleteWipeInv(t, j, targets);
    case DeleteWiped(targets) => FinishDeleteInv(t, j, targets);
  }

  lemma FailBase(t: Store, j: nat, phase: Phase, fault: Fault, retryAt: int)
    requires Running(t, j, phase)
    ensures Base(Fail(t, j, fault, retryAt))
  {
    var job := t.jobs[j];
    var t' := Fail(t, j, fault, retryAt);
    assert OwnJob(t, job);
    var t1 := SetJob(t, j, t'.jobs[j]);
    EndJobKeeps(t, j, t'.jobs[j]);
    if t' != t1 {
      assert t'.versions == t1.versions[job.version.value := t'.versions[job.version.value]];
      BaseKept(t1, t');
    }
  }

  /** However a job fails, its version is left FAILED or CHUNKED and never INDEXED. */
  lemma FailInv(t: Store, j: nat, phase: Phase, fault: Fault, retryAt: int)
    requires Running(t, j, phase)
    ensures Inv(State(Fail(t, j, fault, retryAt), Idle))
  {
    hide Base;
    var t' := Fail(t, j, fault, retryAt);
    FailBase(t, j, phase, fault, retryAt);
    DirtyKept(t, t', j);
    AgreementKept(t, t');
  }

  lemma RecoverInv(t: Store, limit: Option<int>, now: int)
    requires Base(t) && Agreement(t)
    ensures Base(Recover(t, limit, now)) && Agreement(Recover(t, limit, now))
  {
    var t' := Recover(t, limit, now);
    forall j | 0 <= j < |t.jobs|
      ensures t'.jobs[j].(state := t.jobs[j].state, retryAt := t.jobs[j].retryAt, lockedAt := t.jobs[j].lockedAt) == t.jobs[j]
      ensures ActiveState(t'.jobs[j].state) == ActiveState(t.jobs[j].state)
    {
    }
    forall v, ty ensures HasStage(t', v, ty) == HasStage(t, v, ty) {
      if HasStage(t, v, ty) {
        var k :| 0 <= k < |t.jobs| && ActiveStage(t.jobs[k], v, ty);
        assert ActiveStage(t'.jobs[k], v, ty);
      }
    }
    forall v | Dirty(t, v) ensures Dirty(t', v) {
      var k :| 0 <= k < |t.jobs| && ActiveStage(t.jobs[k], v, ReindexDocument) && t.jobs[k].attempts > 0;
      assert ActiveStage(t'.jobs[k], v, ReindexDocument) && t'.jobs[k].attempts > 0;
    }
    forall v | IsIndexed(t', v) ensures !HasStage(t', v, EmbedAndIndex) && t'.ChunksOf(v) != [] {
      assert IsIndexed(t, v);
    }
    forall p | p in t'.index ensures Tied(t', p) { assert Tied(t, p); }
    forall j | 0 <= j < |t'.jobs| ensures OwnJob(t', t'.jobs[j]) { assert OwnJob(t, t.jobs[j]); }
    AgreementKept(t, t');
  }

  // ---------------------------------------------------------------- requests

  /** What a request may do without disturbing the running job: it removes no row, moves no
      version to another document, indexes nothing and makes no INDEXED version current. */
  ghost predicate Gentle(t: Store, t': Store) {
    && t'.index == t.index && t'.chunks == t.chunks
    && |t.jobs| <= |t'.jobs| && (forall k | 0 <= k < |t.jobs| :: t'.jobs[k] == t.jobs[k])
    && (forall v | v in t.versions :: v in t'.versions && t'.versions[v].document == t.versions[v].document)
    && (forall v | IsIndexed(t', v) :: IsIndexed(t, v))
    && (forall d | d in t.docs :: d in t'.docs
          && (t'.docs[d].current == t.docs[d].current
              || (t'.docs[d].current.Some? && !IsIndexed(t', t'.docs[d].current.value))))
  }

  lemma InFlightKept(t: Store, t': Store, j: nat, phase: Phase)
    requires InFlight(t, j, phase) && Gentle(t, t') && Tables(t)
    ensures InFlight(t', j, phase)
  {
    assert OwnJob(t, t.jobs[j]);
  }

  /** Queueing a job and rewriting one version and one document, as every request does. */
  lemma RequestKeeps(t: Store, t1: Store, d: Id, v: Option<Id>, ty: JobType)
    requires Base(t) && Agreement(t) && Gentle(t, t1) && t1.jobs == t.jobs
    requires Base(t1) && Agreement(t1)
    requires d in t1.docs && (v.Some? ==> v.value in t1.versions && t1.versions[v.value].document == d)
    requires (ty != DeleteFromIndex <==> v.Some?) && (ty == EmbedAndIndex ==> !IsIndexed(t1, v.value))
    ensures var t' := Enqueue(t1, t1.docs[d].tenant, d, v, ty); Base(t') && Agreement(t') && Gentle(t, t')
  {
    var t' := Enqueue(t1, t1.docs[d].tenant, d, v, ty);
    EnqueueKeeps(t1, d, v, ty);
    forall w | Dirty(t1, w) ensures Dirty(t', w) {
      var k :| 0 <= k < |t1.jobs| && ActiveStage(t1.jobs[k], w, ReindexDocument) && t1.jobs[k].attempts > 0;
      assert t'.jobs[k] == t1.jobs[k];
    }
    AgreementKept(t1, t');
  }

  lemma UploadInv(t: Store, e: Event)
    requires Base(t) && Agreement(t) && e.Upload? && Enabled(State(t, Idle), e)
    ensures var t' := AcceptNew(t, e.d, e.tenant, e.key, e.v, e.hash); Base(t') && Agreement(t') && Gentle(t, t')
  {
    var t1 := t.(docs := t.docs[e.d := Document(e.tenant, e.key, false, Some(e.v))],
                 versions := t.versions[e.v := Version(e.tenant, e.d, e.hash, Received, None)]);
    forall v | v in t.versions ensures t1.versions[v].tenant == t1.docs[t1.versions[v].document].tenant {
      assert t1.versions[v] == t.versions[v];
    }
    forall p | p in t1.index ensures Tied(t1, p) { assert Tied(t, p); }
    forall j | 0 <= j < |t1.jobs| ensures OwnJob(t1, t1.jobs[j]) { assert OwnJob(t, t.jobs[j]); }
    forall v | IsIndexed(t1, v) ensures !HasStage(t1, v, EmbedAndIndex) && t1.ChunksOf(v) != [] {
      assert IsIndexed(t, v);
    }
    forall v | Dirty(t, v) ensures Dirty(t1, v) {}
    AgreementKept(t, t1);
    RequestKeeps(t, t1, e.d, Some(e.v), ParseDocument);
  }

  /** Making version `v` current, either as it stands or as RECEIVED. */
  lemma CurrentKeeps(t: Store, t1: Store, d: Id, v: Id)
    requires Base(t) && Agreement(t) && d in t.docs && v in t.versions && t.versions[v].document == d
    requires d in t1.docs && v in t1.versions
    requires t1 == t.(docs := t.docs[d := t.docs[d].(deleted := t1.docs[d].deleted, current := Some(v))],
                      versions := t.versions[v := t1.versions[v]])
    requires t1.versions[v].document == d && t1.versions[v].tenant == t.versions[v].tenant
    requires t1.versions[v].status != Indexed || (t.docs[d].current == Some(v) && t1.versions[v].status == t.versions[v].status)
    ensures Base(t1) && Agreement(t1) && Gentle(t, t1)
  {
    forall w | IsIndexed(t1, w) ensures !HasStage(t1, w, EmbedAndIndex) && t1.ChunksOf(w) != [] {
      assert IsIndexed(t, w);
    }
    forall p | p in t1.index ensures Tied(t1, p) { assert Tied(t, p); }
    forall j | 0 <= j < |t1.jobs| ensures OwnJob(t1, t1.jobs[j]) { assert OwnJob(t, t.jobs[j]); }
    assert forall w :: Dirty(t1, w) == Dirty(t, w);
    AgreementKept(t, t1);
  }

  lemma RepeatInv(t: Store, d: Id, v: Id)
    requires Base(t) && Agreement(t) && d in t.docs && v in t.versions && t.versions[v].document == d
    ensures var t' := AcceptExisting(t, d, v); Base(t') && Agreement(t') && Gentle(t, t')
  {
    var t1 := t.(docs := t.docs[d := t.docs[d].(deleted := false, current := Some(v))]);
    if RequiresReindex(t, d, v) {
      t1 := SetStatus(t1, v, Received, None);
      CurrentKeeps(t, t1, d, v);
      RequestKeeps(t, t1, d, Some(v), ReindexDocument);
    } else {
      assert t1.versions == t.versions[v := t1.versions[v]];
      CurrentKeeps(t, t1, d, v);
    }
  }

  lemma DeleteInv(t: Store, d: Id)
    requires Base(t) && Agreement(t) && d in t.docs
    ensures var t' := RequestDelete(t, d); Base(t') && Agreement(t') && Gentle(t, t')
  {
    if !t.docs[d].deleted {
      var t1 := t.(docs := t.docs[d := t.docs[d].(deleted := true)]);
      forall w | IsIndexed(t1, w) ensures !HasStage(t1, w, EmbedAndIndex) && t1.ChunksOf(w) != [] {
        assert IsIndexed(t, w);
      }
      forall p | p in t1.index ensures Tied(t1, p) { assert Tied(t, p); }
      forall j | 0 <= j < |t1.jobs| ensures OwnJob(t1, t1.jobs[j]) { assert OwnJob(t, t.jobs[j]); }
      assert forall w :: Dirty(t1, w) == Dirty(t, w);
      AgreementKept(t, t1);
      RequestKeeps(t, t1, d, None, DeleteFromIndex);
    }
  }

  lemma AskReindexInv(t: Store, d: Id)
    requires Base(t) && Agreement(t) && d in t.docs
    ensures var t' := RequestReindex(t, d); Base(t') && Agreement(t') && Gentle(t, t')
  {
    if t.docs[d].current.Some? {
      RequestKeeps(t, t, d, t.docs[d].current, ReindexDocument);
    }
  }

  lemma RetryEmbedInv(t: Store, d: Id, v: Id)
    requires Base(t) && Agreement(t) && d in t.docs && t.docs[d].current == Some(v) && v in t.versions
    requires t.versions[v].status != Indexed
    ensures
      var t1 := t.(versions := t.versions[v := t.versions[v].(error := None)]);
      var t' := EnqueueIfIdle(t1, d, v, EmbedAndIndex);
      Base(t') && Agreement(t') && Gentle(t, t')
  {
    var t1 := t.(versions := t.versions[v := t.versions[v].(error := None)]);
    assert t1.docs == t.docs[d := t.docs[d].(deleted := t1.docs[d].deleted, current := Some(v))];
    CurrentKeeps(t, t1, d, v);
    RequestKeeps(t, t1, d, Some(v), EmbedAndIndex);
  }

  lemma AskRetryInv(t: Store, d: Id)
    requires Base(t) && Agreement(t) && d in t.docs
    requires t.docs[d].current.Some? ==> t.docs[d].current.value in t.versions
    ensures var t' := RequestRetry(t, d); Base(t') && Agreement(t') && Gentle(t, t')
  {
    if t.docs[d].current.Some? {
      var v := t.docs[d].current.value;
      var version := t.versions[v];
      if version.status == Failed || Blocked(version) {
        if Blocked(version) || t.ChunksOf(v) != [] {
          RetryEmbedInv(t, d, v);
        } else {
          RequestKeeps(t, t, d, Some(v), ParseDocument);
        }
      }
    }
  }

  // -------------------------------------------------------------------- runs

  lemma StepInv(s: State, e: Event)
    requires Inv(s) && Enabled(s, e) && Guarded(s, e)
    ensures Inv(Apply(s, e))
  {
    var t := s.store;
    match e
    case Claim(j, now) => ClaimInv(s, j, now);
    case Stage(answer) =>
      StageInv(s, e);
      FailInv(t, s.worker.job, s.worker.phase, InvalidValue, 0);
      RaisedInvalid(t, s.worker.job, s.worker.phase, answer);
    case Exception(fault, retryAt) => FailInv(t, s.worker.job, s.worker.phase, fault, retryAt);
    case Crash =>
    case Recovery(limit, now) => RecoverInv(t, limit, now);
    case Upload(_, _, _, _, _) => UploadInv(t, e); KeepWorker(s, e);
    case Repeat(d, v) => RepeatInv(t, d, v); KeepWorker(s, e);
    case Delete(d) => DeleteInv(t, d); KeepWorker(s, e);
    case AskReindex(d) => AskReindexInv(t, d); KeepWorker(s, e);
    case AskRetry(d) => AskRetryInv(t, d); KeepWorker(s, e);
  }

  lemma KeepWorker(s: State, e: Event)
    requires Inv(s) && Enabled(s, e) && Request(e) && Gentle(s.store, Apply(s, e).store)
    ensures s.worker.Busy? ==> InFlight(Apply(s, e).store, s.worker.job, s.worker.phase)
  {
    if s.worker.Busy? {
      InFlightKept(s.store, Apply(s, e).store, s.worker.job, s.worker.phase);
    }
  }

  /** The stages themselves raise only ValueErrors; everything else comes from outside. */
  lemma RaisedInvalid(t: Store, j: nat, phase: Phase, answer: Answer)
    requires Ready(t, j, phase)
    ensures StageStep(t, j, phase, answer).Raise? ==> StageStep(t, j, phase, answer).fault == InvalidValue
  {
  }

  ghost predicate GuardedRun(s: State, events: seq<Event>)
    requires IsRun(s, events)
    decreases |events|
  {
    events == [] || (Guarded(s, events[0]) && GuardedRun(Apply(s, events[0]), events[1..]))
  }

  lemma {:induction false} RunInv(s: State, events: seq<Event>)
    requires Inv(s) && IsRun(s, events) && GuardedRun(s, events)
    ensures Inv(After(s, events))
    decreases |events|
  {
    if events != [] {
      StepInv(s, events[0]);
      RunInv(Apply(s, events[0]), events[1..]);
    }
  }

  /** Index agreement over whole runs: in every state a guarded run reaches from the empty
      deployment, a document whose current version is INDEXED has exactly the points of that
      version's chunk rows, in order, or none at all while a REINDEX of it is under way. */
  lemma IndexAgreement(maxAttempts: nat, events: seq<Event>, d: Id)
    requires IsRun(Initial(maxAttempts), events) && GuardedRun(Initial(maxAttempts), events)
    ensures
      var t := After(Initial(maxAttempts), events).store;
      d in t.docs && t.docs[d].current.Some? && IsIndexed(t, t.docs[d].current.value) ==>
        var v := t.docs[d].current.value;
        Match(PointsOf(t.index, d), v, t.ChunksOf(v)) || (Dirty(t, v) && PointsOf(t.index, d) == [])
  {
    RunInv(Initial(maxAttempts), events);
    var t := After(Initial(maxAttempts), events).store;
    if d in t.docs {
      assert Agrees(t, d);
    }
  }

  /** The guard is exact: a REINDEX about to wipe keeps agreement if and only if the guard holds. */
  lemma ReindexWipeIff(t: Store, j: nat, view: View)
    requires Running(t, j, Loaded(view)) && t.jobs[j].jobType == ReindexDocument
    ensures
      var wiped := t.(index := RemoveDocument(t.index, t.jobs[j].tenant, t.jobs[j].document));
      && (Agreement(wiped) <==> WipeAllowed(t, t.jobs[j].document, t.jobs[j].version.value))
      && forall answer :: Guarded(State(t, Busy(j, Loaded(view))), Stage(answer)) <==> Agreement(wiped)
  {
    var d := t.jobs[j].document;
    var wiped := t.(index := RemoveDocument(t.index, t.jobs[j].tenant, d));
    assert OwnJob(t, t.jobs[j]);
    assert ActiveStage(t.jobs[j], t.jobs[j].version.value, ReindexDocument);
    RemoveDocumentEffect(t.index, t.jobs[j].tenant, d);
    BaseKept(t, wiped);
    assert forall v :: IsIndexed(wiped, v) == IsIndexed(t, v);
    if WipeAllowed(t, d, t.jobs[j].version.value) {
      forall x | x in wiped.docs ensures Agrees(wiped, x) { assert Agrees(t, x); }
    } else {
      assert !Agrees(wiped, d);
    }
  }
}
