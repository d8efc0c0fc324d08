/** Two complete runs from the empty deployment that the guards of the main results exclude. They share
    their beginning: a document's old version fails, its new version is indexed. Then either a
    delayed REINDEX of the old version empties the index, or a deletion inside a superseded
    DELETE job is lost. */
module ConcreteRuns {
  import opened Options
  import opened PythonText
  import opened IngestionModel
  import opened IngestionSteps
  import opened IndexLemmas
  import opened IngestionSafety
  import opened IngestionLiveness

  ghost predicate Moves(s: State, e: Event, u: State) {
    Enabled(s, e) && Apply(s, e) == u
  }

  /** `events` leads from `s` to `end`. */
  ghost predicate Leads(s: State, events: seq<Event>, end: State) {
    IsRun(s, events) && After(s, events) == end
  }

  lemma Before(s: State, e: Event, u: State, events: seq<Event>, end: State)
    requires Moves(s, e, u) && Leads(u, events, end)
    ensures Leads(s, [e] + events, end)
  {
    assert ([e] + events)[1..] == events;
  }

  lemma Nothing(s: State)
    ensures Leads(s, [], s)
  {
  }

  // ------------------------------------------------------------- the store

  function TheJob(version: Id, ty: JobType, state: JobState, attempts: nat, retryAt: Option<int>, lockedAt: Option<int>): Job {
    Job(0, 0, Some(version), ty, state, attempts, 5, retryAt, lockedAt)
  }

  /** The document with its old version 0, which failed, and its new version 1. */
  function Snapshot(status: IngestionStatus, jobs: seq<Job>, parsed: bool, chunked: bool, indexed: bool): Store {
    Store(map[0 := Document(0, "k", false, Some(1))],
          map[0 := Version(0, 0, "a", Chunked, Some("QDRANT_UNAVAILABLE")), 1 := Version(0, 0, "b", status, None)],
          jobs, if parsed then map[1 := ["text"]] else map[],
          if chunked then map[1 := [Chunk(0, "text")]] else map[],
          if indexed then [ThePoint()] else [], if chunked then 1 else 0, 5)
  }

  function ThePoint(): Point {
    Point(PointId(1, 0), [1.0], 0, 0, 1, 0, "text", true)
  }

  function First(status: IngestionStatus, error: Option<string>, jobs: seq<Job>): Store {
    Store(map[0 := Document(0, "k", false, Some(0))], map[0 := Version(0, 0, "a", status, error)], jobs, map[], map[], [], 0, 5)
  }

  /** What the outside answers in every stage. */
  function Reply(): Answer {
    Answer(["text"], ["text"], [[1.0]])
  }

  function Parse0(): Job {
    TheJob(0, ParseDocument, FailedPermanent, 1, None, None)
  }

  function Waiting(): Job {
    TheJob(0, ReindexDocument, Pending, 0, None, None)
  }

  function Reindex0(): Job {
    TheJob(0, ReindexDocument, FailedRetryable, 1, Some(100), None)
  }

  function Ended(ty: JobType): Job {
    TheJob(1, ty, Succeeded, 1, None, None)
  }

  function Queue(ty: JobType, claimed: bool): seq<Job> {
    [Parse0(), Reindex0()]
    + (if ty == ParseDocument then [] else [Ended(ParseDocument)])
    + (if ty == EmbedAndIndex then [Ended(ChunkDocument)] else [])
    + [if claimed then TheJob(1, ty, InProgress, 1, None, Some(1)) else TheJob(1, ty, Pending, 0, None, None)]
  }

  function Rest(): seq<Job> {
    [Parse0(), Reindex0(), Ended(ParseDocument), Ended(ChunkDocument), Ended(EmbedAndIndex)]
  }

  function Seen(status: IngestionStatus): View {
    View(false, Some(1), map[0 := Chunked, 1 := status])
  }

  // --------------------------------------------------- the old version fails

  lemma Uploaded()
    ensures var queued := TheJob(0, ParseDocument, Pending, 0, None, None);
      && Moves(Initial(5), Upload(0, 0, "k", 0, "a"), State(First(Received, None, [queued]), Idle))
      && Moves(State(First(Received, None, [queued]), Idle), Repeat(0, 0), State(First(Received, None, [queued, Waiting()]), Idle))
  {
    assert !HasStage(First(Received, None, [TheJob(0, ParseDocument, Pending, 0, None, None)]), 0, ReindexDocument);
  }

  lemma ParseFailed()
    ensures
      var u := State(First(Received, None, [TheJob(0, ParseDocument, InProgress, 1, None, Some(0)), Waiting()]), Busy(0, Claimed));
      && Moves(State(First(Received, None, [TheJob(0, ParseDocument, Pending, 0, None, None), Waiting()]), Idle), Event.Claim(0, 0), u)
      && Moves(u, Exception(InvalidValue, 0), State(First(IngestionStatus.Failed, Some("ValueError"), [Parse0(), Waiting()]), Idle))
  {
  }

  lemma ReindexFailed()
    ensures
      var u := State(First(IngestionStatus.Failed, Some("ValueError"),
                           [Parse0(), TheJob(0, ReindexDocument, InProgress, 1, None, Some(0))]), Busy(1, Claimed));
      && Moves(State(First(IngestionStatus.Failed, Some("ValueError"), [Parse0(), Waiting()]), Idle), Event.Claim(1, 0), u)
      && Moves(u, Exception(QdrantUnavailable, 100), State(First(Chunked, Some("QDRANT_UNAVAILABLE"), [Parse0(), Reindex0()]), Idle))
  {
  }

  lemma Superseded()
    ensures Moves(State(First(Chunked, Some("QDRANT_UNAVAILABLE"), [Parse0(), Reindex0()]), Idle), Upload(0, 0, "k", 1, "b"),
                  State(Snapshot(Received, Queue(ParseDocument, false), false, false, false), Idle))
  {
    assert !HasStage(First(Chunked, Some("QDRANT_UNAVAILABLE"), [Parse0(), Reindex0()]), 1, ParseDocument);
  }

  /** The first content is uploaded twice, so a PARSE and a REINDEX wait; both fail, the second for
      want of the vector store, and the second content arrives. */
  lemma OldVersion(rest: seq<Event>, end: State) returns (events: seq<Event>)
    requires Leads(State(Snapshot(Received, Queue(ParseDocument, false), false, false, false), Idle), rest, end)
    ensures Leads(Initial(5), events, end)
  {
    hide Moves, Leads, Snapshot, Queue, First;
    var queued := TheJob(0, ParseDocument, Pending, 0, None, None);
    var t1, t2 := First(Received, None, [queued]), First(Received, None, [queued, Waiting()]);
    var t3 := First(Received, None, [TheJob(0, ParseDocument, InProgress, 1, None, Some(0)), Waiting()]);
    var t4 := First(IngestionStatus.Failed, Some("ValueError"), [Parse0(), Waiting()]);
    var t5 := First(IngestionStatus.Failed, Some("ValueError"), [Parse0(), TheJob(0, ReindexDocument, InProgress, 1, None, Some(0))]);
    var t6 := First(Chunked, Some("QDRANT_UNAVAILABLE"), [Parse0(), Reindex0()]);
    Superseded();
    ReindexFailed();
    ParseFailed();
    Uploaded();
    events := Prepend(State(t6, Idle), Upload(0, 0, "k", 1, "b"),
                      State(Snapshot(Received, Queue(ParseDocument, false), false, false, false), Idle), rest, end);
    events := Prepend(State(t5, Busy(1, Claimed)), Exception(QdrantUnavailable, 100), State(t6, Idle), events, end);
    events := Prepend(State(t4, Idle), Event.Claim(1, 0), State(t5, Busy(1, Claimed)), events, end);
    events := Prepend(State(t3, Busy(0, Claimed)), Exception(InvalidValue, 0), State(t4, Idle), events, end);
    events := Prepend(State(t2, Idle), Event.Claim(0, 0), State(t3, Busy(0, Claimed)), events, end);
    events := Prepend(State(t1, Idle), Repeat(0, 0), State(t2, Idle), events, end);
    events := Prepend(Initial(5), Upload(0, 0, "k", 0, "a"), State(t1, Idle), events, end);
  }

  lemma Prepend(s: State, e: Event, u: State, rest: seq<Event>, end: State) returns (events: seq<Event>)
    requires Moves(s, e, u) && Leads(u, rest, end)
    ensures Leads(s, events, end)
  {
    Before(s, e, u, rest, end);
    events := [e] + rest;
  }

  // ------------------------------------------------- the new version is indexed

  /** A worker picks up job `j` and loads its rows. */
  lemma PickUp(t: Store, u: Store, j: nat, now: int, view: View, rest: seq<Event>, end: State) returns (events: seq<Event>)
    requires j < |t.jobs| && Claimable(t.jobs[j], now) && u == ClaimAt(t, j, now)
    requires u.jobs[j].document in u.docs && view == ViewOf(u, u.jobs[j])
    requires u.jobs[j].jobType != DeleteFromIndex ==> u.jobs[j].version.Some? && u.jobs[j].version.value in u.versions
    requires Leads(State(u, Busy(j, Loaded(view))), rest, end)
    ensures Leads(State(t, Idle), events, end)
  {
    hide Leads;
    events := Prepend(State(u, Busy(j, Claimed)), Stage(Reply()), State(u, Busy(j, Loaded(view))), rest, end);
    events := Prepend(State(t, Idle), Event.Claim(j, now), State(u, Busy(j, Claimed)), events, end);
  }

  /** One step of the running job. */
  lemma Continue(t: Store, j: nat, phase: Phase, u: Store, next: Phase, rest: seq<Event>, end: State) returns (events: seq<Event>)
    requires Ready(t, j, phase) && StageStep(t, j, phase, Reply()) == Next(u, next)
    requires Leads(State(u, Busy(j, next)), rest, end)
    ensures Leads(State(t, Busy(j, phase)), events, end)
  {
    hide Leads, Ready, StageStep;
    events := Prepend(State(t, Busy(j, phase)), Stage(Reply()), State(u, Busy(j, next)), rest, end);
  }

  lemma Finish(t: Store, j: nat, phase: Phase, u: Store, rest: seq<Event>, end: State) returns (events: seq<Event>)
    requires Ready(t, j, phase) && StageStep(t, j, phase, Reply()) == Done(u)
    requires Leads(State(u, Idle), rest, end)
    ensures Leads(State(t, Busy(j, phase)), events, end)
  {
    hide Leads, Ready, StageStep;
    events := Prepend(State(t, Busy(j, phase)), Stage(Reply()), State(u, Idle), rest, end);
  }

  lemma ClaimedView(ty: JobType, status: IngestionStatus, parsed: bool, chunked: bool)
    requires ty in {ParseDocument, ChunkDocument, EmbedAndIndex}
    ensures var j := match ty case ParseDocument => 2 case ChunkDocument => 3 case _ => 4;
      var t, u := Snapshot(status, Queue(ty, false), parsed, chunked, false), Snapshot(status, Queue(ty, true), parsed, chunked, false);
      && j < |t.jobs| && Claimable(t.jobs[j], 1) && u == ClaimAt(t, j, 1) && u.jobs[j].jobType == ty
      && u.jobs[j].document in u.docs && u.jobs[j].version == Some(1) && 1 in u.versions && ViewOf(u, u.jobs[j]) == Seen(status)
  {
  }

  lemma ParseSteps()
    ensures var jobs := Queue(ParseDocument, true);
      var t1, t2 := Snapshot(Received, jobs, false, false, false), Snapshot(IngestionStatus.Parsing, jobs, false, false, false);
      && Ready(t1, 2, Loaded(Seen(Received))) && StageStep(t1, 2, Loaded(Seen(Received)), Reply()) == Next(t2, ParseStarted)
      && Ready(t2, 2, ParseStarted)
      && StageStep(t2, 2, ParseStarted, Reply()) == Done(Snapshot(Parsed, Queue(ChunkDocument, false), true, false, false))
  {
    assert !Blank("text") by { assert "text"[0] == 't' && !IsSpace('t'); }
    assert Usable(["text"]) by { assert ["text"][0] == "text"; }
  }

  lemma ChunkSteps()
    ensures var jobs := Queue(ChunkDocument, true);
      var t1, t2 := Snapshot(Parsed, jobs, true, false, false), Snapshot(Chunking, jobs, true, false, false);
      && Ready(t1, 3, Loaded(Seen(Parsed))) && StageStep(t1, 3, Loaded(Seen(Parsed)), Reply()) == Next(t2, ChunkStarted)
      && Ready(t2, 3, ChunkStarted)
      && StageStep(t2, 3, ChunkStarted, Reply()) == Done(Snapshot(Chunked, Queue(EmbedAndIndex, false), true, true, false))
  {
    assert NewRows(0, ["text"]) == [Chunk(0, "text")];
  }

  lemma EmbedSteps(jobs: seq<Job>)
    requires jobs == Queue(EmbedAndIndex, true)
    ensures var t1, t2, t3 :=
        Snapshot(Chunked, jobs, true, true, false), Snapshot(Embedding, jobs, true, true, false), Snapshot(Indexing, jobs, true, true, false);
      && Ready(t1, 4, Loaded(Seen(Chunked))) && StageStep(t1, 4, Loaded(Seen(Chunked)), Reply()) == Next(t2, EmbedStarted)
      && Ready(t2, 4, EmbedStarted) && StageStep(t2, 4, EmbedStarted, Reply()) == Next(t3, IndexStarted([[1.0]]))
      && Ready(t3, 4, IndexStarted([[1.0]])) && StageStep(t3, 4, IndexStarted([[1.0]]), Reply()) == Next(t3, IndexWiped([[1.0]]))
  {
  }

  lemma PublishSteps(jobs: seq<Job>)
    requires jobs == Queue(EmbedAndIndex, true)
    ensures var t3, t4 := Snapshot(Indexing, jobs, true, true, false), Snapshot(Indexing, jobs, true, true, true);
      && Ready(t3, 4, IndexWiped([[1.0]])) && StageStep(t3, 4, IndexWiped([[1.0]]), Reply()) == Next(t4, IndexUpserted)
      && Ready(t4, 4, IndexUpserted)
      && StageStep(t4, 4, IndexUpserted, Reply()) == Done(Snapshot(Indexed, Rest(), true, true, true))
  {
    assert MakePoints(0, 0, 1, [Chunk(0, "text")], [[1.0]], true) == [ThePoint()];
    assert [ThePoint()][1..] == [];
    assert Upsert([], [ThePoint()]) == [ThePoint()];
  }

  /** From the empty deployment to a document whose old version waits for a REINDEX and whose new
      version is INDEXED, and on from there. */
  lemma Beginning(rest: seq<Event>, end: State) returns (events: seq<Event>)
    requires Leads(State(Snapshot(Indexed, Rest(), true, true, true), Idle), rest, end)
    ensures Leads(Initial(5), events, end)
  {
    events := NewVersion(rest, end);
    events := OldVersion(events, end);
  }

  lemma NewVersion(rest: seq<Event>, end: State) returns (events: seq<Event>)
    requires Leads(State(Snapshot(Indexed, Rest(), true, true, true), Idle), rest, end)
    ensures Leads(State(Snapshot(Received, Queue(ParseDocument, false), false, false, false), Idle), events, end)
  {
    hide Leads, Ready, StageStep, Snapshot, Queue, Seen, Reply, Rest, ClaimAt, ViewOf, Claimable;
    var parse, chunk, embed := Queue(ParseDocument, true), Queue(ChunkDocument, true), Queue(EmbedAndIndex, true);
    EmbedSteps(embed);
    PublishSteps(embed);
    ChunkSteps();
    ParseSteps();
    ClaimedView(EmbedAndIndex, Chunked, true, true);
    ClaimedView(ChunkDocument, Parsed, true, false);
    ClaimedView(ParseDocument, Received, false, false);
    var t3, t4 := Snapshot(Indexing, embed, true, true, false), Snapshot(Indexing, embed, true, true, true);
    events := Finish(t4, 4, IndexUpserted, Snapshot(Indexed, Rest(), true, true, true), rest, end);
    events := Continue(t3, 4, IndexWiped([[1.0]]), t4, IndexUpserted, events, end);
    events := Continue(t3, 4, IndexStarted([[1.0]]), t3, IndexWiped([[1.0]]), events, end);
    events := Continue(Snapshot(Embedding, embed, true, true, false), 4, EmbedStarted, t3, IndexStarted([[1.0]]), events, end);
    events := Continue(Snapshot(Chunked, embed, true, true, false), 4, Loaded(Seen(Chunked)),
                       Snapshot(Embedding, embed, true, true, false), EmbedStarted, events, end);
    events := PickUp(Snapshot(Chunked, Queue(EmbedAndIndex, false), true, true, false),
                     Snapshot(Chunked, embed, true, true, false), 4, 1, Seen(Chunked), events, end);
    events := Finish(Snapshot(Chunking, chunk, true, false, false), 3, ChunkStarted,
                     Snapshot(Chunked, Queue(EmbedAndIndex, false), true, true, false), events, end);
    events := Continue(Snapshot(Parsed, chunk, true, false, false), 3, Loaded(Seen(Parsed)),
                       Snapshot(Chunking, chunk, true, false, false), ChunkStarted, events, end);
    events := PickUp(Snapshot(Parsed, Queue(ChunkDocument, false), true, false, false),
                     Snapshot(Parsed, chunk, true, false, false), 3, 1, Seen(Parsed), events, end);
    events := Finish(Snapshot(IngestionStatus.Parsing, parse, false, false, false), 2, ParseStarted,
                     Snapshot(Parsed, Queue(ChunkDocument, false), true, false, false), events, end);
    events := Continue(Snapshot(Received, parse, false, false, false), 2, Loaded(Seen(Received)),
                       Snapshot(IngestionStatus.Parsing, parse, false, false, false), ParseStarted, events, end);
    events := PickUp(Snapshot(Received, Queue(ParseDocument, false), false, false, false),
                     Snapshot(Received, parse, false, false, false), 2, 1, Seen(Received), events, end);
  }

  // ------------------------------------------------------- the late REINDEX

  function Late(): seq<Job> {
    [Parse0(), TheJob(0, ReindexDocument, InProgress, 2, Some(100), Some(100)),
     Ended(ParseDocument), Ended(ChunkDocument), Ended(EmbedAndIndex)]
  }

  /** Agreement is not kept by every run: this one ends with the current version INDEXED, its chunk row in
      the database, no REINDEX of it under way, and nothing in the index. */
  lemma AgreementCanBreak() returns (events: seq<Event>)
    ensures IsRun(Initial(5), events)
    ensures var t := After(Initial(5), events).store;
      && 0 in t.docs && t.docs[0].current == Some(1) && IsIndexed(t, 1) && !Dirty(t, 1) && !t.docs[0].deleted
      && |t.ChunksOf(1)| == 1 && t.index == [] && !Agreement(t)
  {
    var t0, t1, t2 := Snapshot(Indexed, Rest(), true, true, true), Snapshot(Indexed, Late(), true, true, true), Snapshot(Indexed, Late(), true, true, false);
    var end := State(t2, Busy(1, ReindexWiped));
    Nothing(end);
    assert ViewOf(t1, t1.jobs[1]) == Seen(Indexed);
    assert RemoveDocument([ThePoint()], 0, 0) == [] by {
      assert [ThePoint()][1..] == [];
    }
    events := Continue(t1, 1, Loaded(Seen(Indexed)), t2, ReindexWiped, [], end);
    events := PickUp(t0, t1, 1, 100, Seen(Indexed), events, end);
    events := Beginning(events, end);
    assert !Agrees(t2, 0);
  }

  // ------------------------------------------------------- the lost deletion

  function Removal(state: JobState): Job {
    Job(0, 0, None, DeleteFromIndex, state, if state == Pending then 0 else 1, 5, None, if state == InProgress then Some(2) else None)
  }

  function Removing(deleted: bool, state: JobState): Store {
    Snapshot(Indexed, Rest() + [Removal(state)], true, true, true).(docs := map[0 := Document(0, "k", deleted, Some(1))])
  }

  lemma Requests()
    ensures Moves(State(Snapshot(Indexed, Rest(), true, true, true), Idle), Event.Delete(0), State(Removing(true, Pending), Idle))
    ensures Moves(State(Removing(true, Pending), Idle), Repeat(0, 1), State(Removing(false, Pending), Idle))
  {
    assert !HasDelete(Snapshot(Indexed, Rest(), true, true, true).(docs := map[0 := Document(0, "k", true, Some(1))]), 0);
  }

  lemma Inside()
    ensures var u := Busy(5, Loaded(Seen(Indexed)));
      && Moves(State(Removing(false, InProgress), u), Event.Delete(0), State(Removing(true, InProgress), u))
      && Moves(State(Removing(true, InProgress), u), Stage(Reply()), State(Removing(true, Succeeded), Idle))
  {
    assert HasDelete(Removing(true, InProgress), 0) by {
      assert ActiveDelete(Removing(true, InProgress).jobs[5], 0);
    }
  }

  /** Nor is every deletion carried out: this run ends idle with the document deleted, its point in the
      index and its version INDEXED, and no job that would remove them. A DELETE job found
      its document live again and ended, while a second deletion, arriving in between, took it for its own. */
  lemma DeletionCanBeLost() returns (events: seq<Event>)
    ensures IsRun(Initial(5), events) && After(Initial(5), events).worker.Idle?
    ensures var t := After(Initial(5), events).store;
      && 0 in t.docs && t.docs[0].deleted && PointsOf(t.index, 0) == [ThePoint()] && !HasDeleteJob(t, 0) && IsIndexed(t, 1)
  {
    var end := State(Removing(true, Succeeded), Idle);
    events := LostTail(end);
    events := Beginning(events, end);
    assert [ThePoint()][1..] == [];
    assert PointsOf([ThePoint()], 0) == [ThePoint()];
  }

  lemma PickedUp()
    ensures var t, u := Removing(false, Pending), Removing(false, InProgress);
      && 5 < |t.jobs| && Claimable(t.jobs[5], 2) && u == ClaimAt(t, 5, 2) && u.jobs[5].jobType == DeleteFromIndex
      && u.jobs[5].document in u.docs && ViewOf(u, u.jobs[5]) == Seen(Indexed)
  {
  }

  lemma LostTail(end: State) returns (events: seq<Event>)
    requires end == State(Removing(true, Succeeded), Idle)
    ensures Leads(State(Snapshot(Indexed, Rest(), true, true, true), Idle), events, end)
  {
    hide Leads, Moves, Snapshot, Removing, ClaimAt, Claimable, ViewOf, Seen, Reply;
    Nothing(end);
    Requests();
    Inside();
    PickedUp();
    var u := Busy(5, Loaded(Seen(Indexed)));
    events := Prepend(State(Removing(true, InProgress), u), Stage(Reply()), end, [], end);
    events := Prepend(State(Removing(false, InProgress), u), Event.Delete(0), State(Removing(true, InProgress), u), events, end);
    events := PickUp(Removing(false, Pending), Removing(false, InProgress), 5, 2, Seen(Indexed), events, end);
    events := Prepend(State(Removing(true, Pending), Idle), Repeat(0, 1), State(Removing(false, Pending), Idle), events, end);
    events := Prepend(State(Snapshot(Indexed, Rest(), true, true, true), Idle), Event.Delete(0), State(Removing(true, Pending), Idle), events, end);
  }
}
