/** What the vector store's three operations do to the points of each document. */
module IndexLemmas {
  import opened Options
  import opened IngestionModel

  ghost predicate DistinctIds(index: seq<Point>) {
    forall i, k | 0 <= i < k < |index| :: index[i].id != index[k].id
  }

  /** One update: the point of that id is replaced where it stands. */
  lemma {:induction false} PutReplaces(index: seq<Point>, p: Point, i: nat)
    requires i < |index| && index[i].id == p.id && forall k | 0 <= k < i :: index[k].id != p.id
    ensures Put(index, p) == index[..i] + [p] + index[i + 1..]
  {
    if i > 0 {
      var rest := index[1..];
      assert forall k | 0 <= k < |rest| :: rest[k] == index[k + 1];
      PutReplaces(rest, p, i - 1);
      assert index[..i] == [index[0]] + rest[..i - 1] && rest[i..] == index[i + 1..];
    }
  }

  /** Updates are made one after another. */
  lemma {:induction false} UpsertSplits(index: seq<Point>, a: seq<Point>, p: Point)
    ensures Upsert(index, []) == index && Upsert(index, a + [p]) == Put(Upsert(index, a), p)
    decreases |a|
  {
    if a == [] {
      assert [p][1..] == [] && [] + [p] == [p];
    } else {
      assert (a + [p])[0] == a[0] && (a + [p])[1..] == a[1..] + [p];
      UpsertSplits(Put(index, a[0]), a[1..], p);
    }
  }

  /** A deletion judges each point by itself. */
  lemma {:induction false} DeletionSplits(a: seq<Point>, p: Point, b: seq<Point>, tenant: Id, x: Id)
    ensures RemoveDocument([], tenant, x) == [] && RemoveVersion([], tenant, x) == []
    ensures RemoveDocument(a + [p] + b, tenant, x)
         == RemoveDocument(a, tenant, x) + (if p.tenant == tenant && p.document == x then [] else [p]) + RemoveDocument(b, tenant, x)
    ensures RemoveVersion(a + [p] + b, tenant, x)
         == RemoveVersion(a, tenant, x) + (if p.tenant == tenant && p.version == x then [] else [p]) + RemoveVersion(b, tenant, x)
  {
    if a == [] {
      assert (a + [p] + b)[0] == p && (a + [p] + b)[1..] == b;
    } else {
      assert (a + [p] + b)[0] == a[0] && (a + [p] + b)[1..] == a[1..] + [p] + b;
      DeletionSplits(a[1..], p, b, tenant, x);
    }
  }

  lemma {:induction false} PointsOfAppend(a: seq<Point>, b: seq<Point>, d: Id)
    ensures PointsOf(a + b, d) == PointsOf(a, d) + PointsOf(b, d)
  {
    if a == [] {
      assert a + b == b;
    } else {
      assert (a + b)[1..] == a[1..] + b;
      PointsOfAppend(a[1..], b, d);
    }
  }

  lemma {:induction false} PointsOfMembers(index: seq<Point>, d: Id)
    ensures forall p :: p in PointsOf(index, d) <==> p in index && p.document == d
  {
    if index != [] {
      PointsOfMembers(index[1..], d);
      assert index == [index[0]] + index[1..];
    }
  }

  lemma DistinctTail(index: seq<Point>)
    requires index != [] && DistinctIds(index)
    ensures DistinctIds(index[1..]) && forall p | p in index[1..] :: p.id != index[0].id
  {
    assert forall k | 0 <= k < |index[1..]| :: index[1..][k] == index[k + 1];
  }

  lemma DistinctMore(p: Point, index: seq<Point>)
    requires DistinctIds(index) && forall q | q in index :: q.id != p.id
    ensures DistinctIds([p] + index)
  {
    assert forall k | 0 <= k < |index| :: index[k] in index;
  }

  /** Deleting by document empties that document and touches no other one. */
  lemma {:induction false} RemoveDocumentEffect(index: seq<Point>, tenant: Id, d: Id)
    requires forall p | p in index && p.document == d :: p.tenant == tenant
    requires DistinctIds(index)
    ensures PointsOf(RemoveDocument(index, tenant, d), d) == []
    ensures forall d' | d' != d :: PointsOf(RemoveDocument(index, tenant, d), d') == PointsOf(index, d')
    ensures forall p :: p in RemoveDocument(index, tenant, d) <==> p in index && p.document != d
    ensures DistinctIds(RemoveDocument(index, tenant, d))
  {
    if index != [] {
      assert index == [index[0]] + index[1..];
      DistinctTail(index);
      RemoveDocumentEffect(index[1..], tenant, d);
      hide DistinctIds;
      if index[0].document != d {
        DistinctMore(index[0], RemoveDocument(index[1..], tenant, d));
      }
    }
  }

  /** Deleting by version removes that version's points and keeps every list of points without them. */
  lemma {:induction false} RemoveVersionEffect(index: seq<Point>, tenant: Id, v: Id)
    requires forall p | p in index && p.version == v :: p.tenant == tenant
    requires DistinctIds(index)
    ensures forall p :: p in RemoveVersion(index, tenant, v) <==> p in index && p.version != v
    ensures forall d | (forall p | p in PointsOf(index, d) :: p.version != v) ::
              PointsOf(RemoveVersion(index, tenant, v), d) == PointsOf(index, d)
    ensures DistinctIds(RemoveVersion(index, tenant, v))
  {
    if index != [] {
      assert index == [index[0]] + index[1..];
      DistinctTail(index);
      RemoveVersionEffect(index[1..], tenant, v);
      hide DistinctIds;
      if index[0].version != v {
        DistinctMore(index[0], RemoveVersion(index[1..], tenant, v));
      }
      forall d | forall p | p in PointsOf(index, d) :: p.version != v
        ensures PointsOf(RemoveVersion(index, tenant, v), d) == PointsOf(index, d)
      {
        if index[0].document == d {
          assert index[0] in PointsOf(index, d);
          assert forall p | p in PointsOf(index[1..], d) :: p in PointsOf(index, d);
        }
      }
    }
  }

  /** The point of a new id goes last. */
  lemma {:induction false} PutFresh(index: seq<Point>, p: Point)
    requires forall q | q in index :: q.id != p.id
    ensures Put(index, p) == index + [p]
  {
    if index != [] {
      PutFresh(index[1..], p);
    }
  }

  /** Points under ids the store does not hold go to the end, in their own order. */
  lemma {:induction false} UpsertFresh(index: seq<Point>, points: seq<Point>)
    requires forall q, p | q in index && p in points :: q.id != p.id
    requires DistinctIds(points)
    ensures Upsert(index, points) == index + points
    decreases |points|
  {
    if points == [] {
      assert index + points == index;
    } else {
      PutFresh(index, points[0]);
      var rest := points[1..];
      assert forall k | 0 <= k < |rest| :: rest[k] == points[k + 1];
      assert forall p | p in rest :: p in points && p.id != points[0].id;
      UpsertFresh(index + [points[0]], points[1..]);
      assert index + [points[0]] + points[1..] == index + points;
    }
  }

  lemma {:induction false} PointsOfNone(index: seq<Point>, d: Id)
    requires forall p | p in index :: p.document != d
    ensures PointsOf(index, d) == []
  {
    if index != [] {
      PointsOfNone(index[1..], d);
    }
  }

  lemma {:induction false} PointsOfAll(index: seq<Point>, d: Id)
    requires forall p | p in index :: p.document == d
    ensures PointsOf(index, d) == index
  {
    if index != [] {
      PointsOfAll(index[1..], d);
    }
  }
}
