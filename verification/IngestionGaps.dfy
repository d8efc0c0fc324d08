/** Where the pipeline falls short of what its documentation promises, each with the exact
    condition under which it does not. */
module IngestionGaps {
  import opened Options
  import opened IngestionModel
  import opened IngestionSteps
  import opened IndexLemmas
  import opened IngestionSafety
  import opened IngestionLiveness

  // ------------------------------------------------------ the late REINDEX

  /** One document; version 1 is current and INDEXED; an old REINDEX of version 0, delayed by
      a failed attempt, has just been claimed again. */
  function LateReindex(): Store {
    Store(map[0 := Document(0, "k", false, Some(1))],
          map[0 := Version(0, 0, "a", Failed, Some("Exception")), 1 := Version(0, 0, "b", Indexed, None)],
          [Job(0, 0, Some(0), ReindexDocument, InProgress, 2, 5, Some(0), Some(0))],
          map[], map[1 := [Chunk(0, "text")]],
          [Point(PointId(1, 0), [1.0], 0, 0, 1, 0, "text", true)], 1, 5)
  }

  /** The state satisfies the whole invariant, and the wipe empties the index of an INDEXED
      current version. */
  lemma LateReindexEmptiesTheIndex()
    ensures
      var t := LateReindex();
      var s := State(t, Busy(0, Loaded(ViewOf(t, t.jobs[0]))));
      var e := Stage(Answer([], [], []));
      && Inv(s) && Enabled(s, e) && !Guarded(s, e)
      && Apply(s, e).store.index == [] && !Agreement(Apply(s, e).store)
  {
    var t := LateReindex();
    var view := ViewOf(t, t.jobs[0]);
    assert Tied(t, t.index[0]);
    assert PointsOf(t.index, 0) == t.index by {
      PointsOfAll(t.index, 0);
    }
    assert OwnJob(t, t.jobs[0]);
    assert !HasStage(t, 1, EmbedAndIndex);
    assert Agrees(t, 0);
    assert IngestionSafety.Running(t, 0, Loaded(view));
    assert !Dirty(t, 1);
    ReindexWipeIff(t, 0, view);
    assert RemoveDocument(t.index, 0, 0) == [] by {
      assert t.index[1..] == [];
    }
  }

  // ------------------------------------------------------ hopeless retries

  /** The status the worker's last commit left on its version. */
  function Committed(phase: Phase): IngestionStatus {
    match phase
    case ParseStarted => IngestionStatus.Parsing
    case ChunkStarted => Chunking
    case EmbedStarted => Embedding
    case IndexStarted(_) => Indexing
    case IndexWiped(_) => Indexing
    case IndexUpserted => Indexing
    case _ => Received
  }

  /** The first step after a reload of the rows, as a fresh attempt of the job takes it. */
  function Reattempt(t: Store, j: nat): Outcome
    requires Loadable(t, j)
    requires t.jobs[j].version.Some? ==>
               t.jobs[j].version.value in t.versions && t.versions[t.jobs[j].version.value].document == t.jobs[j].document
  {
    StageStep(t, j, Loaded(ViewOf(t, t.jobs[j])), Answer([], [], []))
  }

  /** A worker that dies between two commits of a stage leaves a job that its next attempt
      fails for good if and only if it died after the INDEXING commit. */
  lemma CrashIsFatalIff(t: Store, j: nat, phase: Phase)
    requires Tables(t) && Ready(t, j, phase)
    requires phase.ParseStarted? || phase.ChunkStarted? || phase.EmbedStarted? || phase.IndexStarted? || phase.IndexWiped? || phase.IndexUpserted?
    requires t.versions[t.jobs[j].version.value].status == Committed(phase)
    requires t.docs[t.jobs[j].document].current == t.jobs[j].version && !t.docs[t.jobs[j].document].deleted
    requires t.jobs[j].jobType == EmbedAndIndex ==> t.ChunksOf(t.jobs[j].version.value) != []
    ensures OwnJob(t, t.jobs[j])
    ensures Reattempt(t, j).Raise? <==> phase.IndexStarted? || phase.IndexWiped? || phase.IndexUpserted?
    ensures Reattempt(t, j).Raise? ==> Fail(t, j, Reattempt(t, j).fault, 0).jobs[j].state == FailedPermanent
  {
    assert OwnJob(t, t.jobs[j]);
  }

  /** After a failure that is to be retried, the next attempt is refused by the status table, and the
      job then fails for good, if and only if the job is a CHUNK job: the retry of a chunking failure
      never succeeds. */
  lemma RetryIsFatalIff(t: Store, j: nat, fault: Fault, retryAt: int)
    requires Tables(t) && j < |t.jobs| && t.jobs[j].jobType != DeleteFromIndex
    requires t.docs[t.jobs[j].document].current == t.jobs[j].version && !t.docs[t.jobs[j].document].deleted
    requires t.jobs[j].jobType == EmbedAndIndex ==> t.ChunksOf(t.jobs[j].version.value) != []
    requires Fail(t, j, fault, retryAt).jobs[j].state == FailedRetryable
    ensures OwnJob(t, t.jobs[j]) && OwnJob(Fail(t, j, fault, retryAt), Fail(t, j, fault, retryAt).jobs[j])
    ensures var failed := Fail(t, j, fault, retryAt);
      && (Reattempt(failed, j).Raise? <==> t.jobs[j].jobType == ChunkDocument)
      && (Reattempt(failed, j).Raise? ==> Fail(failed, j, Reattempt(failed, j).fault, 0).jobs[j].state == FailedPermanent)
  {
    assert OwnJob(t, t.jobs[j]);
  }

  // ----------------------------------------------- an upload inside a delete

  /** The document's state once a DELETE job that saw the tombstone has run to its end, when the
      same content was uploaded again right after the job read the tombstone. */
  function RevivedInside(t: Store, j: nat, view: View, v: Id): Store
    requires Loadable(t, j) && t.jobs[j].jobType == DeleteFromIndex && view.deleted
    requires v in t.versions
  {
    var d := t.jobs[j].document;
    var t1 := AcceptExisting(t, d, v);
    var t2 := SetStatuses(t1, ToMark(view), DeletePending);
    var t3 := t2.(index := RemoveDocument(t2.index, t.jobs[j].tenant, d));
    FinishDelete(t3, j, ToDelete(view))
  }

  lemma RevivedJobs(t: Store, j: nat, view: View, v: Id)
    requires Tables(t) && Loadable(t, j) && t.jobs[j].jobType == DeleteFromIndex && view.deleted
    requires v in t.versions && t.versions[v].document == t.jobs[j].document
    ensures HasWork(RevivedInside(t, j, view, v), v) <==> RequiresReindex(t, t.jobs[j].document, v) || HasWork(t, v)
  {
    var d := t.jobs[j].document;
    var t1 := AcceptExisting(t, d, v);
    var t' := RevivedInside(t, j, view, v);
    assert OwnJob(t, t.jobs[j]) && t.jobs[j].version.None?;
    assert |t'.jobs| == |t1.jobs| && forall k | 0 <= k < |t1.jobs| && k != j :: t'.jobs[k] == t1.jobs[k];
    if HasWork(t, v) {
      var k :| 0 <= k < |t.jobs| && StageJob(t.jobs[k], v);
      assert StageJob(t'.jobs[k], v);
    }
    if RequiresReindex(t, d, v) {
      EnqueueCovers(SetStatus(t.(docs := t.docs[d := t.docs[d].(deleted := false, current := Some(v))]), v, Received, None),
                    t.docs[d].tenant, d, v, ReindexDocument);
      var k :| 0 <= k < |t1.jobs| && StageJob(t1.jobs[k], v);
      assert StageJob(t'.jobs[k], v);
    } else if HasWork(t', v) {
      var k :| 0 <= k < |t'.jobs| && StageJob(t'.jobs[k], v);
      assert StageJob(t.jobs[k], v);
    }
  }

  /** Such an upload is lost, leaving an active document without index, job or error, if and
      only if it found its version current and INDEXED, with no job of its own queued. */
  lemma UploadLostIff(t: Store, j: nat, view: View, v: Id)
    requires Settled(t) && Steady(t, j, Loaded(view)) && t.jobs[j].jobType == DeleteFromIndex && view.deleted
    requires view == ViewOf(t, t.jobs[j])
    requires v in t.versions && t.versions[v].document == t.jobs[j].document
    ensures Handled(RevivedInside(t, j, view, v), v) <==> RequiresReindex(t, t.jobs[j].document, v) || HasWork(t, v)
    ensures !RevivedInside(t, j, view, v).docs[t.jobs[j].document].deleted
  {
    RevivedJobs(t, j, view, v);
    if !RequiresReindex(t, t.jobs[j].document, v) {
      assert v in view.statuses && view.statuses[v] == Indexed;
      assert RevivedInside(t, j, view, v).versions[v].status == DeletedFromIndex;
    }
  }

  // ---------------------------------------------- a deletion inside a deletion

  /** A deletion that is asked for while a DELETE job, having read its document live, is about to end finds
      that job active and queues none. It is lost, leaving a deleted document's points in the index
      with no job to remove them, if and only if the document has points and no other DELETE job. */
  lemma DeletionLostIff(t: Store, j: nat, view: View)
    requires Settled(t) && Steady(t, j, Loaded(view)) && t.jobs[j].jobType == DeleteFromIndex && !view.deleted
    requires !t.docs[t.jobs[j].document].deleted
    ensures
      var d := t.jobs[j].document;
      var t' := Succeed(RequestDelete(t, d), j);
      && t'.docs[d].deleted && RequestDelete(t, d).jobs == t.jobs
      && (PointsOf(t'.index, d) == [] || HasDeleteJob(t', d) <==> PointsOf(t.index, d) == [] || OtherDelete(t, j, d))
  {
    var d := t.jobs[j].document;
    var t1 := t.(docs := t.docs[d := t.docs[d].(deleted := true)]);
    assert HasDelete(t1, d) by {
      assert ActiveDelete(t1.jobs[j], d);
    }
    var t' := Succeed(RequestDelete(t, d), j);
    if HasDeleteJob(t', d) {
      var k :| 0 <= k < |t'.jobs| && DeleteJob(t'.jobs[k], d);
      assert DeleteJob(t.jobs[k], d);
    }
    if OtherDelete(t, j, d) {
      var k :| 0 <= k < |t.jobs| && k != j && DeleteJob(t.jobs[k], d);
      assert DeleteJob(t'.jobs[k], d);
    }
  }
}
