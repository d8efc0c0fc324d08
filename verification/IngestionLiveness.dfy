/** No lost work: wherever requests fall between the worker's commits, no active document is
    left without an index, a job or a recorded error, and no deleted document keeps points
    that nobody will remove, as long as the first commit of a DELETE job does not overlook
    what was asked for since the job read its document. No guard on REINDEX is needed here. */
module IngestionLiveness {
  import opened Options
  import opened IngestionModel
  import opened IngestionSteps
  import opened IndexLemmas
  import opened IngestionSafety

  ghost predicate StageJob(job: Job, v: Id) {
    job.version == Some(v) && job.jobType != DeleteFromIndex && ActiveState(job.state)
  }

  ghost predicate HasWork(t: Store, v: Id) {
    exists j | 0 <= j < |t.jobs| :: StageJob(t.jobs[j], v)
  }

  /** The version is indexed, is being worked on, or says why not. */
  ghost predicate Handled(t: Store, v: Id) {
    && v in t.versions
    && (t.versions[v].status == Indexed
        || HasWork(t, v)
        || (t.versions[v].status in {Failed, Chunked} && t.versions[v].error.Some?))
  }

  ghost predicate Covered(t: Store) {
    forall d | d in t.docs && !t.docs[d].deleted ::
      t.docs[d].current.Some? && Handled(t, t.docs[d].current.value)
  }

  ghost predicate DeleteJob(job: Job, d: Id) {
    job.document == d && job.jobType == DeleteFromIndex && (ActiveState(job.state) || job.state == FailedPermanent)
  }

  ghost predicate HasDeleteJob(t: Store, d: Id) {
    exists j | 0 <= j < |t.jobs| :: DeleteJob(t.jobs[j], d)
  }

  /** A deleted document has no points, or a DELETE job that is active or gave up for good. */
  ghost predicate Cleared(t: Store) {
    forall d | d in t.docs && t.docs[d].deleted :: PointsOf(t.index, d) == [] || HasDeleteJob(t, d)
  }

  ghost predicate Rows(t: Store) {
    Tables(t) && IndexTied(t)
  }

  ghost predicate Belong(t: Store, vs: set<Id>, d: Id) {
    forall v | v in vs :: v in t.versions && t.versions[v].document == d
  }

  /** Another job than `j` deletes the document, or gave up on it. */
  ghost predicate OtherDelete(t: Store, j: nat, d: Id) {
    exists k | 0 <= k < |t.jobs| && k != j :: DeleteJob(t.jobs[k], d)
  }

  ghost predicate OtherWork(t: Store, j: nat, v: Id) {
    exists k | 0 <= k < |t.jobs| && k != j :: StageJob(t.jobs[k], v)
  }

  /** An EMBED job that found its version inactive may end without a successor. */
  ghost predicate Excused(t: Store, j: nat)
    requires j < |t.jobs| && t.jobs[j].document in t.docs
  {
    var d := t.docs[t.jobs[j].document];
    !d.deleted && d.current.Some? && d.current == t.jobs[j].version ==>
      IsIndexed(t, d.current.value) || OtherWork(t, j, d.current.value)
  }

  /** A document deleted since the job began has a job of its own for that. */
  ghost predicate Followed(t: Store, d: Id)
    requires d in t.docs
  {
    t.docs[d].deleted ==> HasDeleteJob(t, d)
  }

  /** A document revived since a DELETE job began has work queued. */
  ghost predicate Revived(t: Store, d: Id)
    requires d in t.docs
  {
    !t.docs[d].deleted && t.docs[d].current.Some? ==> HasWork(t, t.docs[d].current.value)
  }

  ghost predicate NoneIndexed(t: Store, d: Id) {
    forall v | IsIndexed(t, v) :: t.versions[v].document != d
  }

  /** What a DELETE job that saw the tombstone knows of its document, however stale its view. */
  ghost predicate TombstoneSeen(t: Store, d: Id, view: View)
    requires d in t.docs
  {
    && Belong(t, view.statuses.Keys, d)
    && (forall v | IsIndexed(t, v) && t.versions[v].document == d :: v in view.statuses && view.statuses[v] == Indexed)
    && (!t.docs[d].deleted && t.docs[d].current.Some? ==>
          HasWork(t, t.docs[d].current.value) || IsIndexed(t, t.docs[d].current.value))
  }

  /** What the running job relies on; requests may have come since it loaded its view. */
  ghost predicate Steady(t: Store, j: nat, phase: Phase) {
    && Ready(t, j, phase)
    && t.jobs[j].state == InProgress
    && var d := t.jobs[j].document;
    match phase
    case Claimed => true
    case Loaded(view) =>
      && (t.jobs[j].jobType == EmbedAndIndex ==>
            if view.deleted || view.current != t.jobs[j].version then Excused(t, j) else Followed(t, d))
      && (t.jobs[j].jobType == DeleteFromIndex && view.deleted ==> TombstoneSeen(t, d, view))
    case ParseStarted => true
    case ChunkStarted => true
    case EmbedStarted => Followed(t, d)
    case IndexStarted(vectors) => Followed(t, d) && |vectors| == |t.ChunksOf(t.jobs[j].version.value)|
    case IndexWiped(_) => Followed(t, d) && PointsOf(t.index, d) == []
    case IndexUpserted => true
    case InactiveDropped => Excused(t, j)
    case ReindexWiped => true
    case DeleteMarked(targets) => Belong(t, targets, d) && NoneIndexed(t, d) && Revived(t, d)
    case DeleteWiped(targets) => Belong(t, targets, d) && NoneIndexed(t, d) && Revived(t, d) && PointsOf(t.index, d) == []
  }

  ghost predicate Settled(t: Store) {
    Rows(t) && Covered(t) && Cleared(t)
  }

  ghost predicate Live(s: State) {
    Settled(s.store) && (s.worker.Busy? ==> Steady(s.store, s.worker.job, s.worker.phase))
  }

  ghost predicate LiveOutcome(o: Outcome, j: nat) {
    match o
    case Next(t, phase) => Live(State(t, Busy(j, phase)))
    case Done(t) => Live(State(t, Idle))
    case Raise(_) => true
  }

  // ----------------------------------------------------------------- framing

  ghost predicate SameIdentity(a: Job, b: Job) {
    a.tenant == b.tenant && a.document == b.document && a.version == b.version && a.jobType == b.jobType
  }

  /** One step of job `j`: the documents stay, every row keeps its owner, and jobs are only
      added, except that job `j` may change state. */
  ghost predicate JobStep(t: Store, t': Store, j: nat) {
    && j < |t.jobs| <= |t'.jobs|
    && t'.docs == t.docs
    && t'.versions.Keys == t.versions.Keys
    && (forall v | v in t.versions ::
          t'.versions[v].document == t.versions[v].document && t'.versions[v].tenant == t.versions[v].tenant)
    && (forall k | 0 <= k < |t.jobs| && k != j :: t'.jobs[k] == t.jobs[k])
    && SameIdentity(t.jobs[j], t'.jobs[j])
    && (forall k | |t.jobs| <= k < |t'.jobs| :: OwnJob(t, t'.jobs[k]))
  }

  lemma RowsKept(t: Store, t': Store, j: nat)
    requires Rows(t) && JobStep(t, t', j)
    requires DistinctIds(t'.index) && forall p | p in t'.index :: Tied(t, p)
    ensures Rows(t')
  {
    forall k | 0 <= k < |t'.jobs| ensures OwnJob(t', t'.jobs[k]) {
      if k < |t.jobs| {
        assert OwnJob(t, t.jobs[k]);
        assert SameIdentity(t.jobs[k], t'.jobs[k]);
      }
    }
    forall p | p in t'.index ensures Tied(t', p) { assert Tied(t, p); }
  }

  /** Only the job's own version has to be accounted for afterwards. */
  lemma CoveredKept(t: Store, t': Store, j: nat)
    requires Covered(t) && Tables(t) && JobStep(t, t', j)
    requires forall d | d in t.docs && !t.docs[d].deleted && t.docs[d].current.Some? ::
               t.jobs[j].version == t.docs[d].current ==> Handled(t', t.docs[d].current.value)
    requires forall v | v in t.versions && t.jobs[j].version != Some(v) && !t.docs[t.versions[v].document].deleted ::
               t'.versions[v] == t.versions[v]
    ensures Covered(t')
  {
    forall d | d in t'.docs && !t'.docs[d].deleted ensures t'.docs[d].current.Some? && Handled(t', t'.docs[d].current.value) {
      var v := t.docs[d].current.value;
      assert Handled(t, v);
      if t.jobs[j].version != Some(v) && HasWork(t, v) {
        var k :| 0 <= k < |t.jobs| && StageJob(t.jobs[k], v);
        assert k != j;
        assert StageJob(t'.jobs[k], v);
      }
    }
  }

  lemma ClearedKept(t: Store, t': Store, j: nat)
    requires Cleared(t) && JobStep(t, t', j)
    requires forall d | d in t.docs && t.docs[d].deleted && PointsOf(t.index, d) == [] ::
               PointsOf(t'.index, d) == [] || HasDeleteJob(t', d)
    requires DeleteJob(t.jobs[j], t.jobs[j].document) && t.jobs[j].document in t.docs && t.docs[t.jobs[j].document].deleted ==>
               || DeleteJob(t'.jobs[j], t.jobs[j].document) || PointsOf(t'.index, t.jobs[j].document) == []
               || OtherDelete(t, j, t.jobs[j].document)
    ensures Cleared(t')
  {
    forall d | d in t'.docs && t'.docs[d].deleted ensures PointsOf(t'.index, d) == [] || HasDeleteJob(t', d) {
      if PointsOf(t.index, d) != [] {
        var k :| 0 <= k < |t.jobs| && DeleteJob(t.jobs[k], d);
        if k != j || DeleteJob(t'.jobs[j], d) {
          assert DeleteJob(t'.jobs[k], d);
        } else if PointsOf(t'.index, d) != [] {
          var i :| 0 <= i < |t.jobs| && i != j && DeleteJob(t.jobs[i], d);
          assert DeleteJob(t'.jobs[i], d);
        }
      }
    }
  }

  /** A step that keeps its job running, whatever it does to its own version's row. */
  lemma StillRunning(t: Store, t': Store, j: nat)
    requires Settled(t) && JobStep(t, t', j) && t'.jobs[j] == t.jobs[j] && t.jobs[j].state == InProgress
    requires forall v | v in t.versions && t.jobs[j].version != Some(v) && !t.docs[t.versions[v].document].deleted ::
               t'.versions[v] == t.versions[v]
    requires forall d | d in t.docs && t.docs[d].deleted && PointsOf(t.index, d) == [] ::
               PointsOf(t'.index, d) == [] || HasDeleteJob(t', d)
    requires DistinctIds(t'.index) && forall p | p in t'.index :: Tied(t, p)
    ensures Settled(t')
  {
    RowsKept(t, t', j);
    forall d | d in t.docs && !t.docs[d].deleted && t.docs[d].current.Some? && t.jobs[j].version == t.docs[d].current
      ensures Handled(t', t.docs[d].current.value)
    {
      assert Handled(t, t.docs[d].current.value);
      assert OwnJob(t, t.jobs[j]);
      assert StageJob(t'.jobs[j], t.docs[d].current.value);
    }
    CoveredKept(t, t', j);
    ClearedKept(t, t', j);
  }

  /** Queueing a stage job leaves its version with work to do. */
  lemma EnqueueCovers(t: Store, tenant: Id, d: Id, v: Id, ty: JobType)
    requires ty != DeleteFromIndex
    ensures HasWork(Enqueue(t, tenant, d, Some(v), ty), v)
  {
    var t' := Enqueue(t, tenant, d, Some(v), ty);
    if HasStage(t, v, ty) {
      var k :| 0 <= k < |t.jobs| && ActiveStage(t.jobs[k], v, ty);
      assert StageJob(t'.jobs[k], v);
    } else {
      assert StageJob(t'.jobs[|t.jobs|], v);
    }
  }

  /** A stage's last commit with its follow-up job. */
  lemma HandOverLive(t: Store, t1: Store, j: nat, follow: JobType)
    requires Settled(t) && j < |t.jobs| && t.jobs[j].version.Some? && t.jobs[j].version.value in t.versions
    requires t.jobs[j].jobType != DeleteFromIndex && follow != DeleteFromIndex
    requires JobStep(t, t1, j) && t1.jobs == t.jobs && t1.index == t.index
    requires forall v | v in t.versions && t.jobs[j].version != Some(v) :: t1.versions[v] == t.versions[v]
    ensures Live(State(Enqueue(Succeed(t1, j), t.jobs[j].tenant, t.jobs[j].document, t.jobs[j].version, follow), Idle))
  {
    hide Covered, Cleared;
    var job := t.jobs[j];
    assert OwnJob(t, job);
    var t' := Enqueue(Succeed(t1, j), job.tenant, job.document, job.version, follow);
    EnqueueCovers(Succeed(t1, j), job.tenant, job.document, job.version.value, follow);
    RowsKept(t, t', j);
    CoveredKept(t, t', j);
    ClearedKept(t, t', j);
  }

  // ------------------------------------------------------------ worker steps

  lemma LoadLive(t: Store, j: nat)
    requires Settled(t) && Steady(t, j, Claimed)
    ensures LiveOutcome(Load(t, t.jobs[j]), j)
  {
    assert OwnJob(t, t.jobs[j]);
  }

  ghost predicate SameOwner(a: Version, b: Version) {
    a.document == b.document && a.tenant == b.tenant
  }

  /** A stage's first commit. */
  lemma StartLive(t: Store, j: nat, seen: IngestionStatus, target: IngestionStatus)
    requires Settled(t) && Loadable(t, j) && t.jobs[j].state == InProgress && t.jobs[j].jobType != DeleteFromIndex
    ensures Settled(WriteStatus(t, t.jobs[j].version.value, seen, target))
  {
    StillRunning(t, WriteStatus(t, t.jobs[j].version.value, seen, target), j);
  }

  lemma ResumeLive(t: Store, j: nat, version: Version, follow: JobType)
    requires Settled(t) && Loadable(t, j) && t.jobs[j].jobType != DeleteFromIndex && follow != DeleteFromIndex
    requires version.document == t.versions[t.jobs[j].version.value].document
    requires version.tenant == t.versions[t.jobs[j].version.value].tenant
    ensures
      var t1 := t.(versions := t.versions[t.jobs[j].version.value := version]);
      Live(State(Enqueue(Succeed(t1, j), t.jobs[j].tenant, t.jobs[j].document, t.jobs[j].version, follow), Idle))
  {
    HandOverLive(t, t.(versions := t.versions[t.jobs[j].version.value := version]), j, follow);
  }

  lemma WriteIsUpdate(t: Store, v: Id, seen: IngestionStatus, target: IngestionStatus)
    requires v in t.versions
    ensures var t1 := WriteStatus(t, v, seen, target);
      t1 == t.(versions := t.versions[v := t1.versions[v]]) && SameOwner(t1.versions[v], t.versions[v])
    ensures var t1 := ClearError(WriteStatus(t, v, seen, target), v);
      t1 == t.(versions := t.versions[v := t1.versions[v]]) && SameOwner(t1.versions[v], t.versions[v])
  {
    var t1 := WriteStatus(t, v, seen, target);
    assert t1.versions == t.versions[v := t1.versions[v]];
    var t2 := ClearError(t1, v);
    assert t2.versions == t.versions[v := t2.versions[v]];
  }

  lemma ParseLive(t: Store, j: nat, seen: IngestionStatus)
    requires Settled(t) && Loadable(t, j) && t.jobs[j].state == InProgress && t.jobs[j].jobType in {Pipeline, ParseDocument}
    ensures LiveOutcome(BeginParse(t, j, seen), j)
  {
    hide Settled;
    var v := t.jobs[j].version.value;
    if t.ChunksOf(v) != [] {
      WriteIsUpdate(t, v, seen, Chunked);
      ResumeLive(t, j, ClearError(WriteStatus(t, v, seen, Chunked), v).versions[v], EmbedAndIndex);
    } else if t.SectionsOf(v) != [] {
      WriteIsUpdate(t, v, seen, Parsed);
      ResumeLive(t, j, WriteStatus(t, v, seen, Parsed).versions[v], ChunkDocument);
    } else {
      StartLive(t, j, seen, IngestionStatus.Parsing);
    }
  }

  lemma FinishParseLive(t: Store, j: nat, sections: seq<string>)
    requires Settled(t) && Steady(t, j, ParseStarted)
    ensures LiveOutcome(FinishParse(t, j, sections), j)
  {
    var v := t.jobs[j].version.value;
    HandOverLive(t, WriteStatus(t.(sections := t.sections[v := sections]), v, IngestionStatus.Parsing, Parsed), j, ChunkDocument);
  }

  lemma ChunkLive(t: Store, j: nat, view: View)
    requires Settled(t) && Steady(t, j, Loaded(view)) && t.jobs[j].jobType == ChunkDocument
    ensures LiveOutcome(BeginChunk(t, j, view.statuses[t.jobs[j].version.value]), j)
  {
    var v := t.jobs[j].version.value;
    StartLive(t, j, view.statuses[v], Chunking);
  }

  lemma FinishChunkLive(t: Store, j: nat, texts: seq<string>)
    requires Settled(t) && Steady(t, j, ChunkStarted)
    ensures LiveOutcome(FinishChunk(t, j, texts), j)
  {
    HandOverLive(t, ChunkedStore(t, t.jobs[j].version.value, texts), j, EmbedAndIndex);
  }

  lemma DropLive(t: Store, j: nat)
    requires Settled(t) && Loadable(t, j) && t.jobs[j].state == InProgress && t.jobs[j].jobType == EmbedAndIndex
    ensures Settled(t.(index := RemoveVersion(t.index, t.jobs[j].tenant, t.jobs[j].version.value)))
  {
    var job := t.jobs[j];
    var v := job.version.value;
    assert OwnJob(t, job);
    RemoveVersionEffect(t.index, job.tenant, v);
    var t' := t.(index := RemoveVersion(t.index, job.tenant, v));
    forall d | PointsOf(t.index, d) == [] ensures PointsOf(t'.index, d) == [] {
      assert forall p | p in PointsOf(t.index, d) :: p.version != v;
    }
    StillRunning(t, t', j);
  }

  lemma EmbedLive(t: Store, j: nat, view: View)
    requires Settled(t) && Steady(t, j, Loaded(view)) && t.jobs[j].jobType == EmbedAndIndex
    ensures LiveOutcome(BeginEmbed(t, j, view), j)
  {
    var v := t.jobs[j].version.value;
    if view.deleted || view.current != Some(v) {
      DropLive(t, j);
    } else {
      StartLive(t, j, view.statuses[v], Embedding);
    }
  }

  lemma WipeLive(t: Store, j: nat)
    requires Settled(t) && j < |t.jobs| && t.jobs[j].state == InProgress
    ensures t.jobs[j].document in t.docs
    ensures var t' := t.(index := RemoveDocument(t.index, t.jobs[j].tenant, t.jobs[j].document));
      Settled(t') && PointsOf(t'.index, t.jobs[j].document) == []
  {
    assert OwnJob(t, t.jobs[j]);
    RemoveDocumentEffect(t.index, t.jobs[j].tenant, t.jobs[j].document);
    StillRunning(t, t.(index := RemoveDocument(t.index, t.jobs[j].tenant, t.jobs[j].document)), j);
  }

  lemma UpsertLive(t: Store, j: nat, vectors: seq<Vector>)
    requires Settled(t) && Steady(t, j, IndexWiped(vectors))
    ensures LiveOutcome(StageStep(t, j, IndexWiped(vectors), Answer([], [], [])), j)
  {
    var job := t.jobs[j];
    var d, v := job.document, job.version.value;
    var points := MakePoints(job.tenant, d, v, t.ChunksOf(v), vectors, true);
    assert OwnJob(t, job);
    forall q, p | q in t.index && p in points ensures q.id != p.id {
      assert Tied(t, q);
      PointsOfMembers(t.index, d);
    }
    UpsertFresh(t.index, points);
    var t' := t.(index := t.index + points);
    forall i, k | 0 <= i < k < |t'.index| ensures t'.index[i].id != t'.index[k].id {
      if i < |t.index| <= k {
        assert t'.index[i] in t.index && t'.index[k] in points;
      }
    }
    forall x | x != d ensures PointsOf(t'.index, x) == PointsOf(t.index, x) {
      PointsOfAppend(t.index, points, x);
      PointsOfNone(points, x);
    }
    if t.docs[d].deleted {
      var k :| 0 <= k < |t.jobs| && DeleteJob(t.jobs[k], d);
      assert DeleteJob(t'.jobs[k], d);
    }
    StillRunning(t, t', j);
  }

  lemma FinishEmbedLive(t: Store, j: nat)
    requires Settled(t) && Steady(t, j, IndexUpserted)
    ensures Live(State(FinishEmbed(t, j), Idle))
  {
    var t' := FinishEmbed(t, j);
    RowsKept(t, t', j);
    CoveredKept(t, t', j);
    ClearedKept(t, t', j);
  }

  lemma DroppedLive(t: Store, j: nat)
    requires Settled(t) && Steady(t, j, InactiveDropped)
    ensures Live(State(Succeed(t, j), Idle))
  {
    var t' := Succeed(t, j);
    assert OwnJob(t, t.jobs[j]);
    RowsKept(t, t', j);
    var v := t.jobs[j].version.value;
    if OtherWork(t, j, v) {
      var k :| 0 <= k < |t.jobs| && k != j && StageJob(t.jobs[k], v);
      assert StageJob(t'.jobs[k], v);
    }
    assert t.versions[v].document == t.jobs[j].document;
    CoveredKept(t, t', j);
    ClearedKept(t, t', j);
  }

  lemma FinishReindexLive(t: Store, j: nat)
    requires Settled(t) && Steady(t, j, ReindexWiped)
    ensures Live(State(FinishReindex(t, j), Idle))
  {
    var v := t.jobs[j].version.value;
    HandOverLive(t, SetStatus(t.(chunks := t.chunks - {v}, sections := t.sections - {v}), v, Received, None), j, ParseDocument);
  }

  /** The first commit of a DELETE job overlooks nothing: a document that was live when it was
      read is not deleted now, or has no points or another job to remove them, and one that was
      deleted is so still, or has work queued. */
  ghost predicate DeleteSafe(t: Store, j: nat, view: View)
    requires j < |t.jobs| && t.jobs[j].document in t.docs
  {
    var d := t.jobs[j].document;
    if view.deleted then Revived(t, d)
    else t.docs[d].deleted ==> PointsOf(t.index, d) == [] || OtherDelete(t, j, d)
  }

  /** Marking a document's versions, when a live document's current version has work anyway. */
  lemma MarkLive(t: Store, vs: set<Id>, d: Id, target: IngestionStatus)
    requires Settled(t) && d in t.docs && Belong(t, vs, d) && Revived(t, d)
    ensures Settled(SetStatuses(t, vs, target))
  {
    hide Rows, Tables;
    var t' := SetStatuses(t, vs, target);
    MarkRows(t, vs, target);
    assert forall v :: HasWork(t', v) == HasWork(t, v);
    assert forall x :: HasDeleteJob(t', x) == HasDeleteJob(t, x);
    forall x | x in t'.docs && !t'.docs[x].deleted ensures t'.docs[x].current.Some? && Handled(t', t'.docs[x].current.value) {
      assert Handled(t, t.docs[x].current.value);
      CurrentIsOwn(t, x);
    }
  }

  lemma CurrentIsOwn(t: Store, d: Id)
    requires Rows(t) && d in t.docs && t.docs[d].current.Some?
    ensures t.docs[d].current.value in t.versions && t.versions[t.docs[d].current.value].document == d
  {
  }

  lemma MarkRows(t: Store, vs: set<Id>, target: IngestionStatus)
    requires Rows(t)
    ensures Rows(SetStatuses(t, vs, target))
  {
    var t' := SetStatuses(t, vs, target);
    forall p | p in t'.index ensures Tied(t', p) { assert Tied(t, p); }
    forall k | 0 <= k < |t'.jobs| ensures OwnJob(t', t'.jobs[k]) { assert OwnJob(t, t.jobs[k]); }
  }

  lemma BeginDeleteLive(t: Store, j: nat, view: View)
    requires Settled(t) && Steady(t, j, Loaded(view)) && t.jobs[j].jobType == DeleteFromIndex && DeleteSafe(t, j, view)
    ensures LiveOutcome(BeginDelete(t, j, view), j)
  {
    var job := t.jobs[j];
    assert OwnJob(t, job);
    if !view.deleted {
      EndDeleteLive(t, j);
    } else {
      MarkLive(t, ToMark(view), job.document, DeletePending);
      var t' := SetStatuses(t, ToMark(view), DeletePending);
      assert forall v :: HasWork(t', v) == HasWork(t, v);
      assert forall v | IsIndexed(t', v) :: IsIndexed(t, v);
    }
  }

  /** A DELETE job ends once its document is live, is without points, or is another job's business. */
  lemma EndDeleteLive(t: Store, j: nat)
    requires Settled(t) && j < |t.jobs| && t.jobs[j].jobType == DeleteFromIndex && t.jobs[j].document in t.docs
    requires t.docs[t.jobs[j].document].deleted ==>
               PointsOf(t.index, t.jobs[j].document) == [] || OtherDelete(t, j, t.jobs[j].document)
    ensures Settled(Succeed(t, j))
  {
    var t' := Succeed(t, j);
    assert OwnJob(t, t.jobs[j]);
    RowsKept(t, t', j);
    DeleteJobsCoverNothing(t, t', j);
    CoveredKept(t, t', j);
    ClearedKept(t, t', j);
  }

  /** A DELETE job is nobody's stage job, so ending it uncovers nothing. */
  lemma DeleteJobsCoverNothing(t: Store, t': Store, j: nat)
    requires Covered(t) && JobStep(t, t', j) && t.jobs[j].jobType == DeleteFromIndex
    requires forall v | v in t.versions && !(t.versions[v].document in t.docs && t.docs[t.versions[v].document].deleted) ::
               t'.versions[v] == t.versions[v]
    requires Tables(t)
    ensures forall d | d in t.docs && !t.docs[d].deleted :: Handled(t', t.docs[d].current.value)
  {
    forall d | d in t.docs && !t.docs[d].deleted ensures Handled(t', t.docs[d].current.value) {
      var v := t.docs[d].current.value;
      assert Handled(t, v);
      if HasWork(t, v) {
        var k :| 0 <= k < |t.jobs| && StageJob(t.jobs[k], v);
        assert StageJob(t'.jobs[k], v);
      }
    }
  }

  lemma FinishDeleteLive(t: Store, j: nat, targets: set<Id>)
    requires Settled(t) && Steady(t, j, DeleteWiped(targets))
    ensures Live(State(FinishDelete(t, j, targets), Idle))
  {
    var d := t.jobs[j].document;
    var t1 := t.(chunks := OtherChunks(t, d));
    ChunksAside(t, t1);
    MarkLive(t1, targets, d, DeletedFromIndex);
    EndDeleteLive(SetStatuses(t1, targets, DeletedFromIndex), j);
  }

  lemma ChunksAside(t: Store, t1: Store)
    requires Settled(t) && t1 == t.(chunks := t1.chunks)
    ensures Settled(t1)
    ensures forall v :: HasWork(t1, v) == HasWork(t, v)
  {
    forall p | p in t1.index ensures Tied(t1, p) { assert Tied(t, p); }
    forall k | 0 <= k < |t1.jobs| ensures OwnJob(t1, t1.jobs[k]) { assert OwnJob(t, t.jobs[k]); }
    assert forall v :: HasWork(t1, v) == HasWork(t, v);
    assert forall d :: HasDeleteJob(t1, d) == HasDeleteJob(t, d);
    forall d | d in t1.docs && !t1.docs[d].deleted ensures t1.docs[d].current.Some? && Handled(t1, t1.docs[d].current.value) {
      assert Handled(t, t.docs[d].current.value);
    }
  }

  lemma LoadedLive(t: Store, j: nat, view: View, answer: Answer)
    requires Settled(t) && Steady(t, j, Loaded(view)) && (t.jobs[j].jobType == DeleteFromIndex ==> DeleteSafe(t, j, view))
    ensures LiveOutcome(StageStep(t, j, Loaded(view), answer), j)
  {
    match t.jobs[j].jobType
    case Pipeline => ParseLive(t, j, view.statuses[t.jobs[j].version.value]);
    case ParseDocument => ParseLive(t, j, view.statuses[t.jobs[j].version.value]);
    case ChunkDocument => ChunkLive(t, j, view);
    case EmbedAndIndex => EmbedLive(t, j, view);
    case ReindexDocument => WipeLive(t, j);
    case DeleteFromIndex => BeginDeleteLive(t, j, view);
  }

  lemma StageLive(t: Store, j: nat, phase: Phase, answer: Answer)
    requires Settled(t) && Steady(t, j, phase)
    requires phase.Loaded? && t.jobs[j].jobType == DeleteFromIndex ==> DeleteSafe(t, j, phase.view)
    ensures LiveOutcome(StageStep(t, j, phase, answer), j)
  {
    hide Settled;
    match phase
    case Claimed => LoadLive(t, j);
    case Loaded(view) => LoadedLive(t, j, view, answer);
    case ParseStarted => FinishParseLive(t, j, answer.sections);
    case ChunkStarted => FinishChunkLive(t, j, answer.texts);
    case EmbedStarted => StartLive(t, j, Embedding, Indexing);
    case IndexStarted(vectors) => WipeLive(t, j);
    case IndexWiped(vectors) => UpsertLive(t, j, vectors);
    case IndexUpserted => FinishEmbedLive(t, j);
    case InactiveDropped => DroppedLive(t, j);
    case ReindexWiped => FinishReindexLive(t, j);
    case DeleteMarked(targets) => WipeLive(t, j);
    case DeleteWiped(targets) => FinishDeleteLive(t, j, targets);
  }

  /** A failure records its error on the version, or leaves the DELETE job behind as evidence. */
  lemma FailLive(t: Store, j: nat, fault: Fault, retryAt: int)
    requires Settled(t) && j < |t.jobs| && t.jobs[j].state == InProgress
    ensures Settled(Fail(t, j, fault, retryAt))
  {
    hide Covered, Cleared;
    var t' := Fail(t, j, fault, retryAt);
    assert OwnJob(t, t.jobs[j]);
    RowsKept(t, t', j);
    if t.jobs[j].jobType == DeleteFromIndex {
      DeleteJobsCoverNothing(t, t', j);
    }
    CoveredKept(t, t', j);
    ClearedKept(t, t', j);
  }

  lemma RecoverLive(t: Store, limit: Option<int>, now: int)
    requires Settled(t)
    ensures Settled(Recover(t, limit, now))
  {
    var t' := Recover(t, limit, now);
    forall j | 0 <= j < |t.jobs|
      ensures SameIdentity(t'.jobs[j], t.jobs[j]) && ActiveState(t'.jobs[j].state) == ActiveState(t.jobs[j].state)
      ensures t'.jobs[j].state == FailedPermanent <==> t.jobs[j].state == FailedPermanent
    {
    }
    forall j | 0 <= j < |t'.jobs| ensures OwnJob(t', t'.jobs[j]) { assert OwnJob(t, t.jobs[j]); }
    forall p | p in t'.index ensures Tied(t', p) { assert Tied(t, p); }
    forall v | HasWork(t, v) ensures HasWork(t', v) {
      var k :| 0 <= k < |t.jobs| && StageJob(t.jobs[k], v);
      assert StageJob(t'.jobs[k], v);
    }
    forall d | HasDeleteJob(t, d) ensures HasDeleteJob(t', d) {
      var k :| 0 <= k < |t.jobs| && DeleteJob(t.jobs[k], d);
      assert DeleteJob(t'.jobs[k], d);
    }
  }

  // ---------------------------------------------------------------- requests

  /** Requests only add jobs, so work and deletions already queued stay queued. */
  lemma MoreJobs(t: Store, t': Store)
    requires |t.jobs| <= |t'.jobs| && forall k | 0 <= k < |t.jobs| :: t'.jobs[k] == t.jobs[k]
    ensures forall v | HasWork(t, v) :: HasWork(t', v)
    ensures forall d | HasDeleteJob(t, d) :: HasDeleteJob(t', d)
  {
    forall v | HasWork(t, v) ensures HasWork(t', v) {
      var k :| 0 <= k < |t.jobs| && StageJob(t.jobs[k], v);
      assert StageJob(t'.jobs[k], v);
    }
    forall d | HasDeleteJob(t, d) ensures HasDeleteJob(t', d) {
      var k :| 0 <= k < |t.jobs| && DeleteJob(t.jobs[k], d);
      assert DeleteJob(t'.jobs[k], d);
    }
  }

  /** The request touches document `d` and its version `v` only, and only adds jobs. */
  ghost predicate RequestStep(t: Store, t': Store, d: Id, v: Id) {
    && t'.index == t.index
    && |t.jobs| <= |t'.jobs| && (forall k | 0 <= k < |t.jobs| :: t'.jobs[k] == t.jobs[k])
    && t'.docs.Keys == t.docs.Keys + {d} && t'.versions.Keys == t.versions.Keys + {v}
    && (forall x | x in t.docs && x != d :: t'.docs[x] == t.docs[x])
    && (forall x | x in t.versions && x != v :: t'.versions[x] == t.versions[x])
    && t'.versions[v].document == d && t'.versions[v].tenant == t'.docs[d].tenant
    && (d in t.docs ==> t.docs[d].tenant == t'.docs[d].tenant)
    && (v in t.versions ==> t.versions[v].document == d)
    && t'.docs[d].current.Some?
    && t'.docs[d].current.value in t'.versions && t'.versions[t'.docs[d].current.value].document == d
    && (forall k | |t.jobs| <= k < |t'.jobs| :: OwnJob(t', t'.jobs[k]))
  }

  lemma RequestRows(t: Store, t': Store, d: Id, v: Id)
    requires Rows(t) && RequestStep(t, t', d, v)
    ensures Rows(t')
  {
    forall p | p in t'.index ensures Tied(t', p) { assert Tied(t, p); }
    forall j | 0 <= j < |t'.jobs| ensures OwnJob(t', t'.jobs[j]) {
      if j < |t.jobs| { assert OwnJob(t, t.jobs[j]); }
    }
    forall w | w in t'.versions
      ensures t'.versions[w].document in t'.docs && t'.versions[w].tenant == t'.docs[t'.versions[w].document].tenant
    {
      if w != v { assert t'.versions[w] == t.versions[w]; }
    }
    forall x | x in t'.docs && t'.docs[x].current.Some?
      ensures t'.docs[x].current.value in t'.versions && t'.versions[t'.docs[x].current.value].document == x
    {
      if x != d { assert t'.docs[x] == t.docs[x]; }
    }
  }

  /** A request rewrites one document and one version and may queue one job. */
  lemma RequestLive(t: Store, t': Store, d: Id, v: Id)
    requires Settled(t) && RequestStep(t, t', d, v)
    requires !t'.docs[d].deleted ==> Handled(t', t'.docs[d].current.value)
    requires t'.docs[d].deleted ==> PointsOf(t.index, d) == [] || HasDeleteJob(t', d)
    ensures Settled(t')
  {
    MoreJobs(t, t');
    RequestRows(t, t', d, v);
    forall x | x in t'.docs && !t'.docs[x].deleted ensures t'.docs[x].current.Some? && Handled(t', t'.docs[x].current.value) {
      if x != d {
        assert Handled(t, t.docs[x].current.value);
        assert t.versions[t.docs[x].current.value].document == x;
      }
    }
  }

  lemma UploadLive(t: Store, e: Event)
    requires Settled(t) && e.Upload? && Enabled(State(t, Idle), e)
    ensures Settled(AcceptNew(t, e.d, e.tenant, e.key, e.v, e.hash))
  {
    var t1 := t.(docs := t.docs[e.d := Document(e.tenant, e.key, false, Some(e.v))],
                 versions := t.versions[e.v := Version(e.tenant, e.d, e.hash, Received, None)]);
    EnqueueCovers(t1, e.tenant, e.d, e.v, ParseDocument);
    RequestLive(t, AcceptNew(t, e.d, e.tenant, e.key, e.v, e.hash), e.d, e.v);
  }

  lemma RepeatLive(t: Store, d: Id, v: Id)
    requires Settled(t) && d in t.docs && v in t.versions && t.versions[v].document == d
    ensures Settled(AcceptExisting(t, d, v))
  {
    hide Cleared;
    var t1 := t.(docs := t.docs[d := t.docs[d].(deleted := false, current := Some(v))]);
    if RequiresReindex(t, d, v) {
      EnqueueCovers(SetStatus(t1, v, Received, None), t.docs[d].tenant, d, v, ReindexDocument);
    }
    RequestLive(t, AcceptExisting(t, d, v), d, v);
  }

  lemma DeleteLive(t: Store, d: Id)
    requires Settled(t) && d in t.docs
    ensures Settled(RequestDelete(t, d))
  {
    if !t.docs[d].deleted {
      var t1 := t.(docs := t.docs[d := t.docs[d].(deleted := true)]);
      var t' := RequestDelete(t, d);
      if HasDelete(t1, d) {
        var k :| 0 <= k < |t1.jobs| && ActiveDelete(t1.jobs[k], d);
        assert DeleteJob(t'.jobs[k], d);
      } else {
        assert DeleteJob(t'.jobs[|t.jobs|], d);
      }
      assert Handled(t, t.docs[d].current.value);
      RequestLive(t, t', d, t.docs[d].current.value);
    }
  }

  /** A retry or reindex either finds an active job of the version or queues one. */
  lemma AdminLive(t: Store, t1: Store, d: Id, v: Id, ty: JobType)
    requires Settled(t) && d in t.docs && t.docs[d].current == Some(v) && v in t.versions && ty != DeleteFromIndex
    requires v in t1.versions && t1 == t.(versions := t.versions[v := t1.versions[v]])
    requires t1.versions[v].document == d && t1.versions[v].tenant == t.versions[v].tenant
    ensures Settled(EnqueueIfIdle(t1, d, v, ty))
  {
    var t' := EnqueueIfIdle(t1, d, v, ty);
    if !t.docs[d].deleted && HasActiveJob(t1, v) {
      var k :| 0 <= k < |t1.jobs| && t1.jobs[k].version == Some(v) && ActiveState(t1.jobs[k].state);
      assert OwnJob(t, t.jobs[k]);
      assert StageJob(t'.jobs[k], v);
    } else {
      EnqueueCovers(t1, t.docs[d].tenant, d, v, ty);
    }
    RequestLive(t, t', d, v);
  }

  // ----------------------------------------------- requests in the middle of a job

  ghost predicate FreshWork(t: Store, v: Id) {
    exists k | 0 <= k < |t.jobs| :: StageJob(t.jobs[k], v) && t.jobs[k].jobType in {ParseDocument, ReindexDocument}
  }

  /** A document that a request leaves live is as it was, or its current version is INDEXED, or a PARSE
      or REINDEX job is queued for it; one that it deletes has a DELETE job. */
  ghost predicate Answered(t: Store, t': Store, d: Id)
    requires d in t.docs && d in t'.docs
  {
    if t'.docs[d].deleted then t.docs[d].deleted || HasDeleteJob(t', d)
    else t'.docs[d].current.Some? ==>
      var v := t'.docs[d].current.value;
      || (t'.docs[d] == t.docs[d] && (IsIndexed(t, v) ==> IsIndexed(t', v)))
      || IsIndexed(t', v) || FreshWork(t', v)
  }

  /** What every request leaves to the running job. */
  ghost predicate Polite(t: Store, t': Store) {
    && t'.index == t.index && t'.chunks == t.chunks
    && |t.jobs| <= |t'.jobs| && (forall k | 0 <= k < |t.jobs| :: t'.jobs[k] == t.jobs[k])
    && (forall v | v in t.versions :: v in t'.versions && t'.versions[v].document == t.versions[v].document)
    && (forall v | IsIndexed(t', v) :: IsIndexed(t, v))
    && (forall d | d in t.docs :: d in t'.docs && Answered(t, t', d))
  }

  lemma OtherJobsStay(t: Store, t': Store, j: nat)
    requires |t.jobs| <= |t'.jobs| && forall k | 0 <= k < |t.jobs| :: t'.jobs[k] == t.jobs[k]
    ensures forall v | OtherWork(t, j, v) :: OtherWork(t', j, v)
    ensures forall d | OtherDelete(t, j, d) :: OtherDelete(t', j, d)
  {
    forall v | OtherWork(t, j, v) ensures OtherWork(t', j, v) {
      var k :| 0 <= k < |t.jobs| && k != j && StageJob(t.jobs[k], v);
      assert StageJob(t'.jobs[k], v);
    }
    forall d | OtherDelete(t, j, d) ensures OtherDelete(t', j, d) {
      var k :| 0 <= k < |t.jobs| && k != j && DeleteJob(t.jobs[k], d);
      assert DeleteJob(t'.jobs[k], d);
    }
  }

  lemma ExcusedKept(t: Store, t': Store, j: nat)
    requires Polite(t, t') && j < |t.jobs| && t.jobs[j].document in t.docs && t.jobs[j].jobType == EmbedAndIndex
    requires Excused(t, j)
    ensures Excused(t', j)
  {
    OtherJobsStay(t, t', j);
    var d := t.jobs[j].document;
    assert Answered(t, t', d);
    if !t'.docs[d].deleted && t'.docs[d].current.Some? && FreshWork(t', t'.docs[d].current.value) {
      var k :| 0 <= k < |t'.jobs| && StageJob(t'.jobs[k], t'.docs[d].current.value)
               && t'.jobs[k].jobType in {ParseDocument, ReindexDocument};
      assert k != j;
    }
  }

  lemma FollowedKept(t: Store, t': Store, d: Id)
    requires Polite(t, t') && d in t.docs && Followed(t, d)
    ensures Followed(t', d)
  {
    MoreJobs(t, t');
    assert Answered(t, t', d);
  }

  lemma FreshIsWork(t: Store)
    ensures forall v | FreshWork(t, v) :: HasWork(t, v)
  {
    forall v | FreshWork(t, v) ensures HasWork(t, v) {
      var k :| 0 <= k < |t.jobs| && StageJob(t.jobs[k], v) && t.jobs[k].jobType in {ParseDocument, ReindexDocument};
    }
  }

  lemma TombstoneSeenKept(t: Store, t': Store, d: Id, view: View)
    requires Polite(t, t') && d in t.docs && Tables(t) && TombstoneSeen(t, d, view)
    ensures TombstoneSeen(t', d, view)
  {
    MoreJobs(t, t');
    FreshIsWork(t');
    assert Answered(t, t', d);
  }

  lemma RevivedKept(t: Store, t': Store, d: Id)
    requires Polite(t, t') && d in t.docs && Tables(t) && Tables(t') && NoneIndexed(t, d) && Revived(t, d)
    ensures NoneIndexed(t', d) && Revived(t', d)
  {
    MoreJobs(t, t');
    FreshIsWork(t');
    assert Answered(t, t', d);
  }

  /** A running job goes on whatever is requested. */
  lemma SteadyKept(t: Store, t': Store, j: nat, phase: Phase)
    requires Polite(t, t') && Tables(t) && Tables(t') && Steady(t, j, phase)
    ensures Steady(t', j, phase)
  {
    hide Excused, Followed, TombstoneSeen, Revived, NoneIndexed, Answered;
    assert OwnJob(t, t.jobs[j]);
    var d := t.jobs[j].document;
    match phase
    case Loaded(view) =>
      if t.jobs[j].jobType == EmbedAndIndex {
        if view.deleted || view.current != t.jobs[j].version {
          ExcusedKept(t, t', j);
        } else {
          FollowedKept(t, t', d);
        }
      } else if t.jobs[j].jobType == DeleteFromIndex && view.deleted {
        TombstoneSeenKept(t, t', d, view);
      }
    case EmbedStarted => FollowedKept(t, t', d);
    case IndexStarted(_) => FollowedKept(t, t', d);
    case IndexWiped(_) => FollowedKept(t, t', d);
    case InactiveDropped => ExcusedKept(t, t', j);
    case DeleteMarked(targets) => RevivedKept(t, t', d); BelongKept(t, t', targets, d);
    case DeleteWiped(targets) => RevivedKept(t, t', d); BelongKept(t, t', targets, d);
    case _ =>
  }

  lemma BelongKept(t: Store, t': Store, vs: set<Id>, d: Id)
    requires Polite(t, t') && Belong(t, vs, d)
    ensures Belong(t', vs, d)
  {
  }

  /** Queueing after one document and one version were rewritten. */
  lemma EnqueuePolite(t: Store, t1: Store, d: Id, v: Id, ty: JobType)
    requires t1 == t.(docs := t1.docs, versions := t1.versions) && ty in {ParseDocument, ReindexDocument}
    requires d in t1.docs && (d in t.docs ==> t1.docs == t.docs[d := t1.docs[d]])
    requires d !in t.docs ==> t1.docs == t.docs[d := t1.docs[d]]
    requires t1.docs[d].current == Some(v) && !t1.docs[d].deleted
    requires v in t1.versions && t1.versions == t.versions[v := t1.versions[v]]
    requires v in t.versions ==> t1.versions[v].document == t.versions[v].document
    requires t1.versions[v].status != Indexed
    requires forall x | x in t.docs && x != d && t.docs[x].current.Some? :: t.docs[x].current.value != v
    ensures Polite(t, Enqueue(t1, t1.docs[d].tenant, d, Some(v), ty))
  {
    var t' := Enqueue(t1, t1.docs[d].tenant, d, Some(v), ty);
    assert FreshWork(t', v) by {
      if HasStage(t1, v, ty) {
        var k :| 0 <= k < |t1.jobs| && ActiveStage(t1.jobs[k], v, ty);
        assert StageJob(t'.jobs[k], v);
      } else {
        assert StageJob(t'.jobs[|t1.jobs|], v);
      }
    }
    forall x | x in t.docs ensures Answered(t, t', x) {
    }
  }

  lemma UploadPolite(t: Store, e: Event)
    requires Settled(t) && e.Upload? && Enabled(State(t, Idle), e)
    ensures Polite(t, AcceptNew(t, e.d, e.tenant, e.key, e.v, e.hash))
  {
    var t1 := t.(docs := t.docs[e.d := Document(e.tenant, e.key, false, Some(e.v))],
                 versions := t.versions[e.v := Version(e.tenant, e.d, e.hash, Received, None)]);
    EnqueuePolite(t, t1, e.d, e.v, ParseDocument);
  }

  lemma RepeatPolite(t: Store, d: Id, v: Id)
    requires Settled(t) && d in t.docs && v in t.versions && t.versions[v].document == d
    ensures Polite(t, AcceptExisting(t, d, v))
  {
    var t1 := t.(docs := t.docs[d := t.docs[d].(deleted := false, current := Some(v))]);
    if RequiresReindex(t, d, v) {
      EnqueuePolite(t, SetStatus(t1, v, Received, None), d, v, ReindexDocument);
    }
  }

  lemma DeletePolite(t: Store, d: Id)
    requires Settled(t) && d in t.docs
    ensures Polite(t, RequestDelete(t, d))
  {
    DeleteLive(t, d);
    if !t.docs[d].deleted {
      var t1 := t.(docs := t.docs[d := t.docs[d].(deleted := true)]);
      var t' := RequestDelete(t, d);
      assert HasDeleteJob(t', d) by {
        if HasDelete(t1, d) {
          var k :| 0 <= k < |t1.jobs| && ActiveDelete(t1.jobs[k], d);
          assert DeleteJob(t'.jobs[k], d);
        } else {
          assert DeleteJob(t'.jobs[|t.jobs|], d);
        }
      }
    }
  }

  /** The administrator's requests leave documents and statuses alone. */
  lemma QuietPolite(t: Store, t1: Store, d: Id, v: Id, ty: JobType)
    requires t1 == t.(versions := t1.versions) && t1.versions.Keys == t.versions.Keys && d in t.docs
    requires forall w | w in t.versions ::
               t1.versions[w].document == t.versions[w].document && t1.versions[w].status == t.versions[w].status
    ensures Polite(t, EnqueueIfIdle(t1, d, v, ty))
  {
    var t' := EnqueueIfIdle(t1, d, v, ty);
    forall x | x in t.docs ensures Answered(t, t', x) {
      assert t'.docs[x] == t.docs[x];
    }
  }

  lemma SelfPolite(t: Store)
    ensures Polite(t, t)
  {
  }

  lemma AdminPolite(t: Store, d: Id)
    requires Settled(t) && d in t.docs
    ensures Polite(t, RequestReindex(t, d)) && Polite(t, RequestRetry(t, d))
  {
    hide Polite, EnqueueIfIdle, Covered, Cleared;
    SelfPolite(t);
    if t.docs[d].current.Some? {
      var v := t.docs[d].current.value;
      QuietPolite(t, t, d, v, ReindexDocument);
      QuietPolite(t, t, d, v, ParseDocument);
      QuietPolite(t, t.(versions := t.versions[v := t.versions[v].(error := None)]), d, v, EmbedAndIndex);
    }
  }

  lemma RequestSteady(s: State, e: Event)
    requires Live(s) && Enabled(s, e) && Request(e)
    ensures Live(Apply(s, e))
  {
    hide Polite, Covered, Cleared, Steady;
    var t := s.store;
    match e {
      case Upload(_, _, _, _, _) => UploadLive(t, e); UploadPolite(t, e);
      case Repeat(d, v) => RepeatLive(t, d, v); RepeatPolite(t, d, v);
      case Delete(d) => DeleteLive(t, d); DeletePolite(t, d);
      case AskReindex(d) => AskReindexLive(t, d); AdminPolite(t, d);
      case AskRetry(d) => AskRetryLive(t, d); AdminPolite(t, d);
    }
    if s.worker.Busy? {
      SteadyKept(t, Apply(s, e).store, s.worker.job, s.worker.phase);
    }
  }

  // -------------------------------------------------------------------- runs

  /** The guard: the first commit of a DELETE job overlooks nothing. Requests may come anywhere. */
  ghost predicate Careful(s: State, e: Event) {
    e.Stage? && s.worker.Busy? && s.worker.phase.Loaded?
    && s.worker.job < |s.store.jobs| && s.store.jobs[s.worker.job].jobType == DeleteFromIndex
    && s.store.jobs[s.worker.job].document in s.store.docs
    ==> DeleteSafe(s.store, s.worker.job, s.worker.phase.view)
  }

  lemma StepLive(s: State, e: Event)
    requires Live(s) && Enabled(s, e) && Careful(s, e)
    ensures Live(Apply(s, e))
  {
    hide Settled, Steady;
    var t := s.store;
    if Request(e) {
      RequestSteady(s, e);
    } else {
      match e
      case Claim(j, now) => ClaimLive(t, j, now);
      case Stage(answer) => StepStageLive(s, answer);
      case Exception(fault, retryAt) => InProgressNow(t, s.worker.job, s.worker.phase); FailLive(t, s.worker.job, fault, retryAt);
      case Crash =>
      case Recovery(limit, now) => RecoverLive(t, limit, now);
    }
  }

  lemma InProgressNow(t: Store, j: nat, phase: Phase)
    requires Steady(t, j, phase)
    ensures j < |t.jobs| && t.jobs[j].state == InProgress && Ready(t, j, phase)
  {
  }

  lemma StepStageLive(s: State, answer: Answer)
    requires Live(s) && s.worker.Busy? && Enabled(s, Stage(answer)) && Careful(s, Stage(answer))
    ensures Live(Apply(s, Stage(answer)))
  {
    hide Settled, Steady, StageStep;
    var t, j, phase := s.store, s.worker.job, s.worker.phase;
    InProgressNow(t, j, phase);
    StageLive(t, j, phase, answer);
    FailLive(t, j, InvalidValue, 0);
    RaisedInvalid(t, j, phase, answer);
  }

  lemma ClaimLive(t: Store, j: nat, now: int)
    requires Settled(t) && j < |t.jobs| && Claimable(t.jobs[j], now)
    ensures Live(State(ClaimAt(t, j, now), Busy(j, Claimed)))
  {
    var t' := ClaimAt(t, j, now);
    assert OwnJob(t, t.jobs[j]);
    RowsKept(t, t', j);
    forall d | d in t.docs && !t.docs[d].deleted && t.docs[d].current.Some? && t.jobs[j].version == t.docs[d].current
      ensures Handled(t', t.docs[d].current.value)
    {
      assert StageJob(t'.jobs[j], t.docs[d].current.value);
    }
    CoveredKept(t, t', j);
    ClearedKept(t, t', j);
  }

  lemma AskReindexLive(t: Store, d: Id)
    requires Settled(t) && d in t.docs
    ensures Settled(RequestReindex(t, d))
  {
    if !t.docs[d].deleted && t.docs[d].current.Some? {
      AdminLive(t, t, d, t.docs[d].current.value, ReindexDocument);
    }
  }

  lemma AskRetryLive(t: Store, d: Id)
    requires Settled(t) && d in t.docs && (t.docs[d].current.Some? ==> t.docs[d].current.value in t.versions)
    ensures Settled(RequestRetry(t, d))
  {
    if t.docs[d].current.Some? {
      var v := t.docs[d].current.value;
      AdminLive(t, t, d, v, ParseDocument);
      AdminLive(t, t.(versions := t.versions[v := t.versions[v].(error := None)]), d, v, EmbedAndIndex);
    }
  }

  ghost predicate CarefulRun(s: State, events: seq<Event>)
    requires IsRun(s, events)
    decreases |events|
  {
    events == [] || (Careful(s, events[0]) && CarefulRun(Apply(s, events[0]), events[1..]))
  }

  lemma {:induction false} RunLive(s: State, events: seq<Event>)
    requires Live(s) && IsRun(s, events) && CarefulRun(s, events)
    ensures Live(After(s, events))
    decreases |events|
  {
    hide Live;
    if events != [] {
      StepLive(s, events[0]);
      RunLive(Apply(s, events[0]), events[1..]);
    }
  }

  /** No lost document and no lost deletion, in every state a careful run reaches from the
      empty deployment, whatever is requested, fails, crashes or is recovered on the way, and
      wherever it falls between the worker's commits. */
  lemma NoLostWork(maxAttempts: nat, events: seq<Event>, d: Id)
    requires IsRun(Initial(maxAttempts), events) && CarefulRun(Initial(maxAttempts), events)
    requires d in After(Initial(maxAttempts), events).store.docs
    ensures
      var t := After(Initial(maxAttempts), events).store;
      && (!t.docs[d].deleted ==> t.docs[d].current.Some? && Handled(t, t.docs[d].current.value))
      && (t.docs[d].deleted ==> PointsOf(t.index, d) == [] || HasDeleteJob(t, d))
  {
    RunLive(Initial(maxAttempts), events);
  }

  /** The guard is exact: the first commit of a DELETE job loses nothing if and only if it holds. */
  lemma DeleteCommitIff(t: Store, j: nat, view: View)
    requires Settled(t) && Steady(t, j, Loaded(view)) && t.jobs[j].jobType == DeleteFromIndex
    ensures Settled(BeginDelete(t, j, view).store) <==> DeleteSafe(t, j, view)
  {
    var d := t.jobs[j].document;
    var t' := BeginDelete(t, j, view).store;
    if DeleteSafe(t, j, view) {
      BeginDeleteLive(t, j, view);
    } else if view.deleted {
      var v := t.docs[d].current.value;
      assert IsIndexed(t, v) && v in ToMark(view);
      assert HasWork(t', v) == HasWork(t, v);
      assert !Handled(t', v);
    } else {
      assert !HasDeleteJob(t', d) by {
        forall k | 0 <= k < |t'.jobs| ensures !DeleteJob(t'.jobs[k], d) {
          assert k != j ==> t'.jobs[k] == t.jobs[k];
        }
      }
    }
  }

  // ----------------------------------------------------- where requests may fall

  /** The two requests that a DELETE job between its read and its first commit must be spared: a repeat of
      content that is current and INDEXED, without work queued, when the job saw the tombstone; and
      a deletion that finds only this job, of a document with points, when the job saw it live. */
  ghost predicate Placed(s: State, e: Event) {
    s.worker.Busy? && s.worker.phase.Loaded?
    && s.worker.job < |s.store.jobs| && s.store.jobs[s.worker.job].jobType == DeleteFromIndex ==>
      var t, d := s.store, s.store.jobs[s.worker.job].document;
      if s.worker.phase.view.deleted
      then e.Repeat? && e.d == d && d in t.docs && e.v in t.versions ==> RequiresReindex(t, d, e.v) || HasWork(t, e.v)
      else e.Delete? && e.d == d && d in t.docs && !t.docs[d].deleted ==>
             PointsOf(t.index, d) == [] || OtherDelete(t, s.worker.job, d)
  }

  ghost predicate PlacedRun(s: State, events: seq<Event>)
    requires IsRun(s, events)
    decreases |events|
  {
    events == [] || (Placed(s, events[0]) && PlacedRun(Apply(s, events[0]), events[1..]))
  }

  /** What such placement keeps. */
  ghost predicate Poised(s: State) {
    s.worker.Busy? && s.worker.phase.Loaded?
    && s.worker.job < |s.store.jobs| && s.store.jobs[s.worker.job].jobType == DeleteFromIndex
    && s.store.jobs[s.worker.job].document in s.store.docs
    ==> DeleteSafe(s.store, s.worker.job, s.worker.phase.view)
  }

  /** Whether the document's row was rewritten, and how. */
  lemma RequestOnDoc(t: Store, t': Store, j: nat, e: Event, w: Worker)
    requires Settled(t) && Enabled(State(t, w), e) && Request(e) && t' == Apply(State(t, w), e).store
    requires j < |t.jobs| && t.jobs[j].document in t.docs
    ensures var d := t.jobs[j].document;
      && d in t'.docs && t'.index == t.index && |t.jobs| <= |t'.jobs| && t'.jobs[..|t.jobs|] == t.jobs
      && (t'.docs[d] == t.docs[d]
          || (e.Delete? && e.d == d && !t.docs[d].deleted && t'.docs[d] == t.docs[d].(deleted := true))
          || (e.Repeat? && e.d == d && !t'.docs[d].deleted && t'.docs[d].current == Some(e.v)
              && (RequiresReindex(t, d, e.v) ==> FreshWork(t', e.v)))
          || (e.Upload? && e.d == d && !t'.docs[d].deleted && t'.docs[d].current == Some(e.v) && FreshWork(t', e.v)))
  {
    hide Settled, FreshWork, HasStage, HasActiveJob, HasDelete;
    if e.Repeat? && RequiresReindex(t, e.d, e.v) {
      FreshAfter(SetStatus(t.(docs := t.docs[e.d := t.docs[e.d].(deleted := false, current := Some(e.v))]), e.v, Received, None),
                 t.docs[e.d].tenant, e.d, e.v, ReindexDocument);
    } else if e.Upload? {
      FreshAfter(t.(docs := t.docs[e.d := Document(e.tenant, e.key, false, Some(e.v))],
                    versions := t.versions[e.v := Version(e.tenant, e.d, e.hash, Received, None)]),
                 e.tenant, e.d, e.v, ParseDocument);
    }
  }

  lemma FreshAfter(t: Store, tenant: Id, d: Id, v: Id, ty: JobType)
    requires ty in {ParseDocument, ReindexDocument}
    ensures FreshWork(Enqueue(t, tenant, d, Some(v), ty), v)
  {
    var t' := Enqueue(t, tenant, d, Some(v), ty);
    if HasStage(t, v, ty) {
      var k :| 0 <= k < |t.jobs| && ActiveStage(t.jobs[k], v, ty);
      assert StageJob(t'.jobs[k], v);
    } else {
      assert StageJob(t'.jobs[|t.jobs|], v);
    }
  }

  lemma PlacedKeepsPoised(s: State, e: Event)
    requires Live(s) && Poised(s) && Enabled(s, e) && Placed(s, e)
    ensures Poised(Apply(s, e))
  {
    hide StageStep, Settled;
    var t, t' := s.store, Apply(s, e).store;
    if Request(e) && s.worker.Busy? && s.worker.phase.Loaded? && t.jobs[s.worker.job].jobType == DeleteFromIndex {
      var j := s.worker.job;
      RequestOnDoc(t, t', j, e, s.worker);
      assert forall k | 0 <= k < |t.jobs| :: t'.jobs[k] == t'.jobs[..|t.jobs|][k];
      MoreJobs(t, t');
      FreshIsWork(t');
      OtherJobsStay(t, t', j);
    } else if e.Stage? {
      LoadIsPoised(s, e);
    }
  }

  /** Right after its read a job overlooks nothing. */
  lemma LoadIsPoised(s: State, e: Event)
    requires Live(s) && e.Stage? && Enabled(s, e)
    ensures Poised(Apply(s, e))
  {
  }

  lemma {:induction false} PlacedIsCareful(s: State, events: seq<Event>)
    requires Live(s) && Poised(s) && IsRun(s, events) && PlacedRun(s, events)
    ensures CarefulRun(s, events)
    decreases |events|
  {
    hide Live, Poised, Placed, Careful;
    if events != [] {
      PoisedIsCareful(s, events[0]);
      StepLive(s, events[0]);
      PlacedKeepsPoised(s, events[0]);
      PlacedIsCareful(Apply(s, events[0]), events[1..]);
    }
  }

  lemma PoisedIsCareful(s: State, e: Event)
    requires Poised(s)
    ensures Careful(s, e)
  {
  }

  /** So nothing is lost when requests fall anywhere but in those two places. */
  lemma NoLostWorkPlaced(maxAttempts: nat, events: seq<Event>, d: Id)
    requires IsRun(Initial(maxAttempts), events) && PlacedRun(Initial(maxAttempts), events)
    requires d in After(Initial(maxAttempts), events).store.docs
    ensures
      var t := After(Initial(maxAttempts), events).store;
      && (!t.docs[d].deleted ==> t.docs[d].current.Some? && Handled(t, t.docs[d].current.value))
      && (t.docs[d].deleted ==> PointsOf(t.index, d) == [] || HasDeleteJob(t, d))
  {
    PlacedIsCareful(Initial(maxAttempts), events);
    NoLostWork(maxAttempts, events, d);
  }
}
