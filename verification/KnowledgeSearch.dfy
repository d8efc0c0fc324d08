/** Retrieval: the vector store's ranking and the post-filtering of its hits against the
    database. `score` stands for the similarity of a point to the query. */
module KnowledgeSearch {
  import opened Options
  import opened IngestionModel
  import opened IngestionSteps
  import opened IndexLemmas
  import opened IngestionSafety

  datatype Hit = Hit(point: Point, score: real)

  datatype Result = Result(document: Id, version: Id, chunk: Id, text: string, score: real)

  // ------------------------------------------------------------ vector store

  predicate Passes(p: Point, tenant: Id, document: Option<Id>) {
    p.tenant == tenant && p.active && (document.Some? ==> p.document == document.value)
  }

  /** The points the store's filter lets through, in its own order. */
  function Candidates(index: seq<Point>, tenant: Id, document: Option<Id>, score: Point -> real): seq<Hit> {
    if index == [] then []
    else if Passes(index[0], tenant, document)
    then [Hit(index[0], score(index[0]))] + Candidates(index[1..], tenant, document, score)
    else Candidates(index[1..], tenant, document, score)
  }

  function Insert(h: Hit, hits: seq<Hit>): seq<Hit> {
    if hits == [] || h.score >= hits[0].score then [h] + hits else [hits[0]] + Insert(h, hits[1..])
  }

  /** `sorted(key=score, reverse=True)`: descending, equal scores in their original order. */
  function Ranked(hits: seq<Hit>): seq<Hit> {
    if hits == [] then [] else Insert(hits[0], Ranked(hits[1..]))
  }

  ghost predicate Descending(hits: seq<Hit>) {
    forall i, k | 0 <= i < k < |hits| :: hits[i].score >= hits[k].score
  }

  function OfScore(hits: seq<Hit>, x: real): seq<Hit> {
    if hits == [] then [] else (if hits[0].score == x then [hits[0]] else []) + OfScore(hits[1..], x)
  }

  lemma {:induction false} InsertKeeps(h: Hit, hits: seq<Hit>)
    ensures multiset(Insert(h, hits)) == multiset(hits) + multiset{h}
  {
    if hits != [] && h.score < hits[0].score {
      InsertKeeps(h, hits[1..]);
      assert hits == [hits[0]] + hits[1..];
    }
  }

  lemma {:induction false} InsertRanks(h: Hit, hits: seq<Hit>)
    requires Descending(hits)
    ensures Descending(Insert(h, hits))
  {
    if hits != [] && h.score < hits[0].score {
      InsertRanks(h, hits[1..]);
      InsertKeeps(h, hits[1..]);
      var rest := Insert(h, hits[1..]);
      forall k | 0 <= k < |rest| ensures hits[0].score >= rest[k].score {
        assert rest[k] in multiset(hits[1..]) + multiset{h};
        if rest[k] != h {
          assert rest[k] in hits[1..];
        }
      }
    }
  }

  lemma {:induction false} InsertIsStable(h: Hit, hits: seq<Hit>, x: real)
    ensures OfScore(Insert(h, hits), x) == OfScore([h] + hits, x)
  {
    assert ([h] + hits)[1..] == hits;
    if hits != [] && h.score < hits[0].score {
      InsertIsStable(h, hits[1..], x);
      assert ([hits[0]] + Insert(h, hits[1..]))[1..] == Insert(h, hits[1..]);
      assert ([h] + hits[1..])[1..] == hits[1..];
    }
  }

  /** The ranking is a stable descending sort. */
  lemma {:induction false} RankedIsStableSort(hits: seq<Hit>)
    ensures Descending(Ranked(hits)) && multiset(Ranked(hits)) == multiset(hits) && |Ranked(hits)| == |hits|
    ensures forall x :: OfScore(Ranked(hits), x) == OfScore(hits, x)
  {
    hide Insert;
    if hits != [] {
      RankedIsStableSort(hits[1..]);
      InsertRanks(hits[0], Ranked(hits[1..]));
      InsertKeeps(hits[0], Ranked(hits[1..]));
      assert hits == [hits[0]] + hits[1..];
      forall x ensures OfScore(Ranked(hits), x) == OfScore(hits, x) {
        InsertIsStable(hits[0], Ranked(hits[1..]), x);
        assert ([hits[0]] + Ranked(hits[1..]))[1..] == Ranked(hits[1..]);
      }
      assert |multiset(Ranked(hits))| == |multiset(hits)|;
    }
  }

  function Top(hits: seq<Hit>, k: nat): seq<Hit> {
    if |hits| <= k then hits else hits[..k]
  }

  method InsertHit(h: Hit, sorted: seq<Hit>) returns (r: seq<Hit>)
    ensures r == Insert(h, sorted)
  {
    hide Ranked;
    var k := 0;
    while k < |sorted| && h.score < sorted[k].score
      invariant 0 <= k <= |sorted|
      invariant Insert(h, sorted) == sorted[..k] + Insert(h, sorted[k..])
    {
      assert sorted[k..][0] == sorted[k] && sorted[k..][1..] == sorted[k + 1..];
      assert sorted[..k + 1] == sorted[..k] + [sorted[k]];
      k := k + 1;
    }
    r := sorted[..k] + [h] + sorted[k..];
  }

  method SortHits(hits: seq<Hit>) returns (sorted: seq<Hit>)
    ensures sorted == Ranked(hits)
  {
    hide Insert;
    sorted := [];
    var i := |hits|;
    while i > 0
      invariant 0 <= i <= |hits| && sorted == Ranked(hits[i..])
    {
      i := i - 1;
      assert hits[i..][0] == hits[i] && hits[i..][1..] == hits[i + 1..];
      sorted := InsertHit(hits[i], sorted);
    }
    assert hits[0..] == hits;
  }

  /** `InMemoryVectorStore.search`. */
  method VectorSearch(index: seq<Point>, tenant: Id, document: Option<Id>, score: Point -> real, limit: nat) returns (hits: seq<Hit>)
    ensures hits == Top(Ranked(Candidates(index, tenant, document, score)), limit)
  {
    hits := [];
    for i := 0 to |index|
      invariant Candidates(index, tenant, document, score) == hits + Candidates(index[i..], tenant, document, score)
    {
      assert index[i..][0] == index[i] && index[i..][1..] == index[i + 1..];
      if Passes(index[i], tenant, document) {
        hits := hits + [Hit(index[i], score(index[i]))];
      }
    }
    assert index[|index|..] == [];
    assert hits == Candidates(index, tenant, document, score);
    hits := SortHits(hits);
    hits := if |hits| <= limit then hits else hits[..limit];
  }

  // ---------------------------------------------------------------- service

  predicate HasRow(rows: seq<Chunk>, id: Id) {
    exists i | 0 <= i < |rows| :: rows[i].id == id
  }

  /** The row's position; the first one, should the id be repeated. */
  function RowIndex(rows: seq<Chunk>, id: Id): (i: nat)
    requires HasRow(rows, id)
    ensures i < |rows| && rows[i].id == id
  {
    if rows[0].id == id then 0 else 1 + RowIndex(rows[1..], id)
  }

  /** A hit survives when its document is the tenant's and active, and its chunk row still
      belongs to the document's current, INDEXED version. */
  predicate Visible(t: Store, tenant: Id, p: Point) {
    && p.document in t.docs && t.docs[p.document].tenant == tenant
    && p.version in t.versions && t.versions[p.version].tenant == tenant
    && t.versions[p.version].document == p.document
    && HasRow(t.ChunksOf(p.version), p.chunk)
    && !t.docs[p.document].deleted
    && t.docs[p.document].current == Some(p.version)
    && t.versions[p.version].status == Indexed
  }

  /** The result carries the database's text, not the payload's. */
  function ToResult(t: Store, h: Hit): Result
    requires HasRow(t.ChunksOf(h.point.version), h.point.chunk)
  {
    var rows := t.ChunksOf(h.point.version);
    Result(h.point.document, h.point.version, h.point.chunk, rows[RowIndex(rows, h.point.chunk)].text, h.score)
  }

  function Survivors(t: Store, tenant: Id, hits: seq<Hit>): seq<Result> {
    if hits == [] then []
    else if Visible(t, tenant, hits[0].point) then [ToResult(t, hits[0])] + Survivors(t, tenant, hits[1..])
    else Survivors(t, tenant, hits[1..])
  }

  /** `KnowledgeService.search` without connector or source filters. */
  method Search(t: Store, tenant: Id, document: Option<Id>, score: Point -> real, topK: nat) returns (results: seq<Result>)
    ensures results == Survivors(t, tenant, Top(Ranked(Candidates(t.index, tenant, document, score)), topK))
  {
    var hits := VectorSearch(t.index, tenant, document, score, topK);
    results := [];
    for i := 0 to |hits|
      invariant Survivors(t, tenant, hits) == results + Survivors(t, tenant, hits[i..])
    {
      assert hits[i..][0] == hits[i] && hits[i..][1..] == hits[i + 1..];
      if !Visible(t, tenant, hits[i].point) {
        continue;
      }
      results := results + [ToResult(t, hits[i])];
    }
  }

  // -------------------------------------------- what is looked at and what is shown

  /** The store ranks exactly the tenant's active points, of one document if one is asked for, in index order:
      each point of the index is judged by itself. */
  lemma {:induction false} CandidatesAre(a: seq<Point>, p: Point, b: seq<Point>, tenant: Id, document: Option<Id>, score: Point -> real)
    ensures Candidates([], tenant, document, score) == []
    ensures Candidates(a + [p] + b, tenant, document, score)
         == Candidates(a, tenant, document, score)
            + (if p.tenant == tenant && p.active && (document.None? || p.document == document.value) then [Hit(p, score(p))] else [])
            + Candidates(b, tenant, document, score)
  {
    if a == [] {
      assert (a + [p] + b)[0] == p && (a + [p] + b)[1..] == b;
    } else {
      assert (a + [p] + b)[0] == a[0] && (a + [p] + b)[1..] == a[1..] + [p] + b;
      CandidatesAre(a[1..], p, b, tenant, document, score);
    }
  }

  /** At most `topK` hits, the best ones. */
  lemma TopIs(hits: seq<Hit>, topK: nat)
    ensures Top(hits, topK) <= hits && |Top(hits, topK)| == if topK < |hits| then topK else |hits|
  {
  }

  /** The database still has the chunk, in the current INDEXED version of an active document of the tenant. */
  ghost predicate Showable(t: Store, tenant: Id, p: Point) {
    && p.version in t.versions && p.version in t.chunks && (exists i | 0 <= i < |t.chunks[p.version]| :: t.chunks[p.version][i].id == p.chunk)
    && t.versions[p.version].tenant == tenant && t.versions[p.version].status == Indexed
    && t.versions[p.version].document == p.document && p.document in t.docs
    && t.docs[p.document].tenant == tenant && !t.docs[p.document].deleted && t.docs[p.document].current == Some(p.version)
  }

  /** The result names the chunk and carries the text of its row, the first one with its id. */
  ghost predicate ShowsRow(t: Store, h: Hit, r: Result) {
    && h.point.version in t.chunks && r.document == h.point.document && r.version == h.point.version && r.chunk == h.point.chunk && r.score == h.score
    && var rows := t.chunks[r.version];
       exists i | 0 <= i < |rows| :: rows[i] == Chunk(r.chunk, r.text) && forall k | 0 <= k < i :: rows[k].id != r.chunk
  }

  lemma VisibleShows(t: Store, tenant: Id, h: Hit)
    ensures Visible(t, tenant, h.point) <==> Showable(t, tenant, h.point)
    ensures Visible(t, tenant, h.point) ==> ShowsRow(t, h, ToResult(t, h))
  {
    if Visible(t, tenant, h.point) {
      FirstRow(t.ChunksOf(h.point.version), h.point.chunk);
    }
  }

  lemma {:induction false} FirstRow(rows: seq<Chunk>, id: Id)
    requires HasRow(rows, id)
    ensures forall k | 0 <= k < RowIndex(rows, id) :: rows[k].id != id
  {
    if rows[0].id != id {
      assert exists i | 0 <= i < |rows[1..]| :: rows[1..][i].id == id by {
        var i :| 0 <= i < |rows| && rows[i].id == id;
        assert rows[1..][i - 1].id == id;
      }
      FirstRow(rows[1..], id);
      forall k | 0 < k < RowIndex(rows, id) ensures rows[k].id != id {
        assert rows[1..][k - 1] == rows[k];
      }
    }
  }

  /** The results are the hits that may be shown, in the order of the hits. */
  lemma {:induction false} SurvivorsAre(t: Store, tenant: Id, a: seq<Hit>, h: Hit, b: seq<Hit>)
    ensures Survivors(t, tenant, []) == []
    ensures !Showable(t, tenant, h.point) ==>
              Survivors(t, tenant, a + [h] + b) == Survivors(t, tenant, a) + Survivors(t, tenant, b)
    ensures Showable(t, tenant, h.point) ==>
              exists r | ShowsRow(t, h, r) :: Survivors(t, tenant, a + [h] + b) == Survivors(t, tenant, a) + [r] + Survivors(t, tenant, b)
  {
    hide Visible, Showable, ShowsRow, ToResult;
    VisibleShows(t, tenant, h);
    if a == [] {
      assert (a + [h] + b)[0] == h && (a + [h] + b)[1..] == b;
    } else {
      assert (a + [h] + b)[0] == a[0] && (a + [h] + b)[1..] == a[1..] + [h] + b;
      SurvivorsAre(t, tenant, a[1..], h, b);
    }
  }

  // --------------------------------------------------------------- soundness

  /** Whatever the index holds, a result is a chunk row of the tenant's own active document,
      of its current INDEXED version, with the row's text and the score of a stored point. */
  lemma {:induction false} SearchIsSound(t: Store, tenant: Id, hits: seq<Hit>, r: Result)
    requires r in Survivors(t, tenant, hits)
    ensures r.document in t.docs && t.docs[r.document].tenant == tenant && !t.docs[r.document].deleted
    ensures t.docs[r.document].current == Some(r.version) && IsIndexed(t, r.version)
    ensures exists i | 0 <= i < |t.ChunksOf(r.version)| :: t.ChunksOf(r.version)[i] == Chunk(r.chunk, r.text)
    ensures exists h | h in hits :: h.point.chunk == r.chunk && h.score == r.score
  {
    if Visible(t, tenant, hits[0].point) && r == ToResult(t, hits[0]) {
      var rows := t.ChunksOf(r.version);
      assert rows[RowIndex(rows, r.chunk)] == Chunk(r.chunk, r.text);
      assert hits[0] in hits;
    } else {
      SearchIsSound(t, tenant, hits[1..], r);
      var h :| h in hits[1..] && h.point.chunk == r.chunk && h.score == r.score;
      assert h in hits;
    }
  }

  // ------------------------------------------------------------ completeness

  ghost predicate DistinctRows(t: Store) {
    forall v | v in t.chunks :: forall i, k | 0 <= i < k < |t.chunks[v]| :: t.chunks[v][i].id != t.chunks[v][k].id
  }

  /** The document is fully indexed, or has nothing in the index. */
  ghost predicate SettledDocument(t: Store, d: Id)
    requires d in t.docs
  {
    || PointsOf(t.index, d) == []
    || (!t.docs[d].deleted && t.docs[d].current.Some? && IsIndexed(t, t.docs[d].current.value)
        && Match(PointsOf(t.index, d), t.docs[d].current.value, t.ChunksOf(t.docs[d].current.value)))
  }

  ghost predicate SettledTenant(t: Store, tenant: Id) {
    forall d | d in t.docs && t.docs[d].tenant == tenant :: SettledDocument(t, d)
  }

  /** A naive scan of the database: every chunk of the current INDEXED version of every active
      document of the tenant. */
  ghost predicate Searchable(t: Store, tenant: Id, id: PointId) {
    && id.version in t.versions && IsIndexed(t, id.version)
    && id.index < |t.ChunksOf(id.version)|
    && var d := t.versions[id.version].document;
       d in t.docs && t.docs[d].tenant == tenant && !t.docs[d].deleted && t.docs[d].current == Some(id.version)
  }

  lemma {:induction false} CandidateMembers(index: seq<Point>, tenant: Id, score: Point -> real)
    ensures forall h :: h in Candidates(index, tenant, None, score) <==>
              h.point in index && h.point.tenant == tenant && h.point.active && h.score == score(h.point)
    ensures DistinctIds(index) ==>
              forall i, k | 0 <= i < k < |Candidates(index, tenant, None, score)| ::
                Candidates(index, tenant, None, score)[i].point.id != Candidates(index, tenant, None, score)[k].point.id
  {
    if index != [] {
      assert index == [index[0]] + index[1..];
      CandidateMembers(index[1..], tenant, score);
      if DistinctIds(index) {
        forall i, k | 0 <= i < k < |index[1..]| ensures index[1..][i].id != index[1..][k].id {
          assert index[i + 1].id != index[k + 1].id;
        }
        var rest := Candidates(index[1..], tenant, None, score);
        forall k | 0 <= k < |rest| ensures rest[k].point.id != index[0].id {
          var q :| 0 <= q < |index[1..]| && index[1..][q] == rest[k].point;
          assert index[q + 1].id != index[0].id;
        }
      }
    }
  }

  lemma {:induction false} RowFound(rows: seq<Chunk>, i: nat)
    requires i < |rows| && forall a, b | 0 <= a < b < |rows| :: rows[a].id != rows[b].id
    ensures HasRow(rows, rows[i].id) && RowIndex(rows, rows[i].id) == i
  {
    assert HasRow(rows, rows[i].id);
    if i > 0 {
      RowFound(rows[1..], i - 1);
    }
  }

  /** When the tenant is settled, a point of the tenant is searchable content under its own id. */
  lemma PointIsSearchable(t: Store, tenant: Id, p: Point)
    requires Base(t) && DistinctRows(t) && SettledTenant(t, tenant) && p in t.index && p.tenant == tenant
    ensures Searchable(t, tenant, p.id) && Visible(t, tenant, p) && p.active
    ensures p.chunk == t.ChunksOf(p.id.version)[p.id.index].id
    ensures ToResult(t, Hit(p, 0.0)).text == t.ChunksOf(p.id.version)[p.id.index].text
  {
    assert Tied(t, p);
    PointsOfMembers(t.index, p.document);
    var points := PointsOf(t.index, p.document);
    assert p in points;
    assert SettledDocument(t, p.document);
    var v := t.docs[p.document].current.value;
    var i :| 0 <= i < |points| && points[i] == p;
    assert p.id == PointId(v, i);
    RowFound(t.ChunksOf(v), i);
  }

  /** When the tenant is settled and indexed documents have their points, every searchable chunk
      has exactly its point. */
  lemma SearchableHasPoint(t: Store, tenant: Id, id: PointId)
    requires Base(t) && SettledTenant(t, tenant) && Searchable(t, tenant, id)
    requires PointsOf(t.index, t.versions[id.version].document) != []
    ensures exists p | p in t.index :: p.id == id && p.tenant == tenant && p.active
  {
    var d := t.versions[id.version].document;
    assert SettledDocument(t, d);
    var p := PointsOf(t.index, d)[id.index];
    PointsOfMembers(t.index, d);
    assert p in t.index && Tied(t, p);
  }

  lemma {:induction false} AllSurvive(t: Store, tenant: Id, hits: seq<Hit>)
    requires forall i | 0 <= i < |hits| :: Visible(t, tenant, hits[i].point)
    ensures |Survivors(t, tenant, hits)| == |hits|
    ensures forall i | 0 <= i < |hits| :: Visible(t, tenant, hits[i].point) && Survivors(t, tenant, hits)[i] == ToResult(t, hits[i])
  {
    if hits != [] {
      AllSurvive(t, tenant, hits[1..]);
    }
  }

  /** The hit stands for a searchable chunk, and the result shows that chunk's row. */
  ghost predicate Shows(t: Store, tenant: Id, h: Hit, r: Result) {
    && Searchable(t, tenant, h.point.id)
    && var row := t.ChunksOf(h.point.id.version)[h.point.id.index];
       r == Result(t.versions[h.point.id.version].document, h.point.id.version, row.id, row.text, h.score)
  }

  /** The hits are the searchable chunks, one each. */
  lemma HitsAreScan(t: Store, tenant: Id, score: Point -> real)
    requires Base(t) && DistinctRows(t) && SettledTenant(t, tenant)
    requires forall id | Searchable(t, tenant, id) :: PointsOf(t.index, t.versions[id.version].document) != []
    ensures
      var hits := Candidates(t.index, tenant, None, score);
      && (forall id :: Searchable(t, tenant, id) <==> exists h | h in hits :: h.point.id == id)
      && (forall i, k | 0 <= i < k < |hits| :: hits[i].point.id != hits[k].point.id)
  {
    var hits := Candidates(t.index, tenant, None, score);
    CandidateMembers(t.index, tenant, score);
    forall id ensures Searchable(t, tenant, id) <==> exists h | h in hits :: h.point.id == id {
      if Searchable(t, tenant, id) {
        SearchableHasPoint(t, tenant, id);
        var p :| p in t.index && p.id == id && p.tenant == tenant && p.active;
        assert Hit(p, score(p)) in hits;
      }
      if h :| h in hits && h.point.id == id {
        PointIsSearchable(t, tenant, h.point);
      }
    }
  }

  /** The refinement: `results` is the first `topK` of a stable descending ranking of hits that
      stand one for one for the searchable chunks, none of them lost to the post-filter. */
  ghost predicate RefinesScan(t: Store, tenant: Id, score: Point -> real, topK: nat, results: seq<Result>) {
    var hits := Candidates(t.index, tenant, None, score);
    var ranked := Ranked(hits);
    && (forall id :: Searchable(t, tenant, id) <==> exists h | h in hits :: h.point.id == id)
    && (forall i, k | 0 <= i < k < |hits| :: hits[i].point.id != hits[k].point.id)
    && Descending(ranked) && multiset(ranked) == multiset(hits)
    && (forall x :: OfScore(ranked, x) == OfScore(hits, x))
    && |results| == (if topK < |hits| then topK else |hits|) && |ranked| == |hits|
    && forall i | 0 <= i < |results| :: Shows(t, tenant, ranked[i], results[i])
  }

  lemma HitShows(t: Store, tenant: Id, score: Point -> real, h: Hit)
    requires Base(t) && DistinctRows(t) && SettledTenant(t, tenant)
    requires h in Candidates(t.index, tenant, None, score)
    ensures Visible(t, tenant, h.point) && Shows(t, tenant, h, ToResult(t, h))
  {
    CandidateMembers(t.index, tenant, score);
    assert Tied(t, h.point);
    PointIsSearchable(t, tenant, h.point);
  }

  lemma SettledSearch(t: Store, tenant: Id, score: Point -> real, topK: nat)
    requires Base(t) && DistinctRows(t) && SettledTenant(t, tenant)
    requires forall id | Searchable(t, tenant, id) :: PointsOf(t.index, t.versions[id.version].document) != []
    ensures RefinesScan(t, tenant, score, topK, Survivors(t, tenant, Top(Ranked(Candidates(t.index, tenant, None, score)), topK)))
  {
    var hits := Candidates(t.index, tenant, None, score);
    var ranked := Ranked(hits);
    HitsAreScan(t, tenant, score);
    RankedIsStableSort(hits);
    var top := Top(ranked, topK);
    forall i | 0 <= i < |top| ensures Visible(t, tenant, top[i].point) && Shows(t, tenant, ranked[i], ToResult(t, ranked[i])) {
      assert ranked[i] in multiset(hits);
      HitShows(t, tenant, score, ranked[i]);
    }
    AllSurvive(t, tenant, top);
  }

  // ------------------------------------------------------- settled in practice

  ghost predicate AtRest(t: Store, tenant: Id) {
    forall d | d in t.docs && t.docs[d].tenant == tenant ::
      if t.docs[d].deleted then PointsOf(t.index, d) == []
      else t.docs[d].current.Some? && IsIndexed(t, t.docs[d].current.value) && !Dirty(t, t.docs[d].current.value)
  }

  /** A guarded run that has come to rest: every active document of the tenant is INDEXED with
      no REINDEX under way, and deleted ones have no points. Then the tenant is settled. */
  lemma AtRestIsSettled(t: Store, tenant: Id)
    requires Base(t) && Agreement(t)
    requires AtRest(t, tenant)
    ensures SettledTenant(t, tenant)
    ensures forall id | Searchable(t, tenant, id) :: PointsOf(t.index, t.versions[id.version].document) != []
  {
    forall d | d in t.docs && t.docs[d].tenant == tenant ensures SettledDocument(t, d) {
      assert Agrees(t, d);
    }
    forall id | Searchable(t, tenant, id) ensures PointsOf(t.index, t.versions[id.version].document) != [] {
      assert Agrees(t, t.versions[id.version].document);
    }
  }

  /** A chunk list is as before, or was made by the chunking stage just now. */
  ghost predicate RowsFrom(t: Store, t': Store, texts: seq<string>) {
    forall v | v in t'.chunks ::
      (v in t.chunks && t'.chunks[v] == t.chunks[v]) || t'.chunks[v] == NewRows(t.nextChunk, texts)
  }

  lemma StageRows(t: Store, j: nat, phase: Phase, answer: Answer)
    requires Ready(t, j, phase) && !StageStep(t, j, phase, answer).Raise?
    ensures RowsFrom(t, StageStep(t, j, phase, answer).store, answer.texts)
  {
    hide NewRows, MakePoints, Upsert, RemoveDocument, RemoveVersion;
  }

  lemma RowsStillDistinct(t: Store, t': Store, texts: seq<string>)
    requires DistinctRows(t) && RowsFrom(t, t', texts)
    ensures DistinctRows(t')
  {
  }

  /** Chunk rows of one version never share an id. */
  lemma RowsStayDistinct(s: State, e: Event)
    requires DistinctRows(s.store) && Enabled(s, e)
    ensures DistinctRows(Apply(s, e).store)
  {
    hide StageStep, Recover, ClaimAt;
    if e.Stage? && !StageStep(s.store, s.worker.job, s.worker.phase, e.answer).Raise? {
      StageRows(s.store, s.worker.job, s.worker.phase, e.answer);
      RowsStillDistinct(s.store, Apply(s, e).store, e.answer.texts);
    } else {
      SameRows(s, e);
    }
  }

  lemma SameRows(s: State, e: Event)
    requires Enabled(s, e)
    requires e.Stage? ==> StageStep(s.store, s.worker.job, s.worker.phase, e.answer).Raise?
    ensures Apply(s, e).store.chunks == s.store.chunks
  {
    hide StageStep;
  }

  lemma {:induction false} RunKeepsRows(s: State, events: seq<Event>)
    requires DistinctRows(s.store) && IsRun(s, events)
    ensures DistinctRows(After(s, events).store)
    decreases |events|
  {
    if events != [] {
      RowsStayDistinct(s, events[0]);
      RunKeepsRows(Apply(s, events[0]), events[1..]);
    }
  }

  /** From the empty deployment to a search: after any guarded run that leaves the tenant at
      rest, search is the stable top-k over the tenant's searchable chunks. */
  lemma SearchAtRest(maxAttempts: nat, events: seq<Event>, tenant: Id, score: Point -> real, topK: nat)
    requires IsRun(Initial(maxAttempts), events) && GuardedRun(Initial(maxAttempts), events)
    requires AtRest(After(Initial(maxAttempts), events).store, tenant)
    ensures
      var t := After(Initial(maxAttempts), events).store;
      RefinesScan(t, tenant, score, topK, Survivors(t, tenant, Top(Ranked(Candidates(t.index, tenant, None, score)), topK)))
  {
    var t := After(Initial(maxAttempts), events).store;
    RunInv(Initial(maxAttempts), events);
    RunKeepsRows(Initial(maxAttempts), events);
    AtRestIsSettled(t, tenant);
    SettledSearch(t, tenant, score, topK);
  }
}
