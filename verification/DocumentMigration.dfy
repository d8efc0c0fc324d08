/** The migration that merges the connector-scoped copies of a document into one document per
    tenant and document key. */
module DocumentMigration {
  import opened Options

  type Id = nat

  datatype Key = Key(tenant: Id, name: string)

  /** `provenance` stands for connector, source, file name, path and type, which are copied together. */
  datatype Document = Document(key: Key, current: Option<Id>, updatedAt: int, provenance: Id)

  datatype Version = Version(document: Id, hash: string, indexed: bool, createdAt: int)

  /** A chunk or a parsed section. */
  datatype Part = Part(document: Id, version: Id, content: string)

  /** A job or an audit event. */
  datatype Ref = Ref(document: Id, version: Option<Id>, content: string)

  /** An idempotency record. */
  datatype Replay = Replay(document: Option<Id>, version: Option<Id>)

  datatype Database = Database(
    docs: map<Id, Document>, versions: map<Id, Version>, chunks: map<Id, Part>, sections: map<Id, Part>,
    jobs: map<Id, Ref>, audits: map<Id, Ref>, replays: map<Id, Replay>)

  // --------------------------------------------------------------- integrity

  ghost predicate PartsSound(versions: map<Id, Version>, parts: map<Id, Part>) {
    forall k | k in parts :: parts[k].version in versions && parts[k].document == versions[parts[k].version].document
  }

  ghost predicate RefsSound(docs: map<Id, Document>, versions: map<Id, Version>, refs: map<Id, Ref>) {
    forall k | k in refs ::
      && refs[k].document in docs
      && (refs[k].version.Some? ==>
            refs[k].version.value in versions && refs[k].document == versions[refs[k].version.value].document)
  }

  ghost predicate ReplaysSound(docs: map<Id, Document>, versions: map<Id, Version>, replays: map<Id, Replay>) {
    forall k | k in replays ::
      && (replays[k].document.Some? ==> replays[k].document.value in docs)
      && (replays[k].version.Some? ==>
            replays[k].version.value in versions
            && replays[k].document == Some(versions[replays[k].version.value].document))
  }

  ghost predicate Placed(docs: map<Id, Document>, versions: map<Id, Version>) {
    forall v | v in versions :: versions[v].document in docs
  }

  ghost predicate Distinct(versions: map<Id, Version>) {
    forall v, w | v in versions && w in versions && versions[v].document == versions[w].document
                  && versions[v].hash == versions[w].hash :: v == w
  }

  /** No row points at a document or version that is gone, and a document's hashes are distinct. */
  ghost predicate Sound(db: Database) {
    && Placed(db.docs, db.versions) && Distinct(db.versions)
    && PartsSound(db.versions, db.chunks) && PartsSound(db.versions, db.sections)
    && RefsSound(db.docs, db.versions, db.jobs) && RefsSound(db.docs, db.versions, db.audits)
    && ReplaysSound(db.docs, db.versions, db.replays)
  }

  ghost predicate OwnCurrent(db: Database, d: Id) {
    d in db.docs && db.docs[d].current.Some? && db.docs[d].current.value in db.versions ==>
      db.versions[db.docs[d].current.value].document == d
  }

  /** A document's current version, where it exists, is its own. */
  ghost predicate OwnCurrents(db: Database) {
    forall d | d in db.docs :: OwnCurrent(db, d)
  }

  // -------------------------------------------------------------- statements

  function DeleteParts(parts: map<Id, Part>, version: Id): map<Id, Part> {
    map k | k in parts && parts[k].version != version :: parts[k]
  }

  function MoveParts(parts: map<Id, Part>, version: Id, document: Id): map<Id, Part> {
    map k | k in parts :: if parts[k].version == version then parts[k].(document := document) else parts[k]
  }

  function DeleteRefsOf(refs: map<Id, Ref>, version: Id): map<Id, Ref> {
    map k | k in refs && refs[k].version != Some(version) :: refs[k]
  }

  function DeleteRefsOn(refs: map<Id, Ref>, document: Id): map<Id, Ref> {
    map k | k in refs && refs[k].document != document :: refs[k]
  }

  function MoveRefsOf(refs: map<Id, Ref>, version: Id, document: Id, to: Id): map<Id, Ref> {
    map k | k in refs :: if refs[k].version == Some(version) then Ref(document, Some(to), refs[k].content) else refs[k]
  }

  function MoveRefsOn(refs: map<Id, Ref>, document: Id, to: Id): map<Id, Ref> {
    map k | k in refs :: if refs[k].document == document then refs[k].(document := to) else refs[k]
  }

  function DeleteReplays(replays: map<Id, Replay>, document: Id): map<Id, Replay> {
    map k | k in replays && replays[k].document != Some(document) :: replays[k]
  }

  // ---------------------------------------------------- what a merge may change

  ghost predicate SameContent(a: Database, v: Id, b: Database, w: Id) {
    && v in a.versions && w in b.versions && a.versions[v].hash == b.versions[w].hash
    && a.versions[v].document in a.docs && b.versions[w].document in b.docs
    && a.docs[a.versions[v].document].key == b.docs[b.versions[w].document].key
  }

  /** Documents go, none come, and a document keeps its key. */
  ghost predicate DocsKept(a: Database, b: Database) {
    forall d | d in b.docs :: d in a.docs && b.docs[d].key == a.docs[d].key
  }

  /** A surviving version keeps its content and its document's key. */
  ghost predicate VersionsKept(a: Database, b: Database) {
    forall v | v in b.versions ::
      SameContent(a, v, b, v) && a.versions[v].indexed == b.versions[v].indexed
      && a.versions[v].createdAt == b.versions[v].createdAt
  }

  /** Every content is still there, under the same key. */
  ghost predicate HashesKept(a: Database, b: Database) {
    forall v | v in a.versions :: exists w :: w in b.versions && SameContent(a, v, b, w)
  }

  /** A surviving version keeps exactly its parts. */
  ghost predicate PartsKept(b: Database, before: map<Id, Part>, after: map<Id, Part>) {
    && (forall k | k in after :: k in before && after[k].version == before[k].version && after[k].content == before[k].content)
    && forall k | k in before && before[k].version in b.versions :: k in after
  }

  /** A surviving version keeps exactly its jobs. */
  ghost predicate JobsKept(a: Database, b: Database) {
    && (forall k | k in b.jobs ::
          k in a.jobs && b.jobs[k].version == a.jobs[k].version && b.jobs[k].content == a.jobs[k].content)
    && forall k | k in a.jobs && a.jobs[k].version.Some? && a.jobs[k].version.value in b.versions :: k in b.jobs
  }

  /** No audit event is lost, and each still tells of the same key and the same content. */
  ghost predicate AuditsKept(a: Database, b: Database) {
    && a.audits.Keys == b.audits.Keys
    && forall k | k in a.audits ::
         && a.audits[k].content == b.audits[k].content
         && a.audits[k].document in a.docs && b.audits[k].document in b.docs
         && a.docs[a.audits[k].document].key == b.docs[b.audits[k].document].key
         && (a.audits[k].version.None? <==> b.audits[k].version.None?)
         && (a.audits[k].version.Some? ==> SameContent(a, a.audits[k].version.value, b, b.audits[k].version.value))
  }

  ghost predicate ReplaysKept(a: Database, b: Database) {
    forall k | k in b.replays :: k in a.replays && b.replays[k] == a.replays[k]
  }

  ghost predicate Derived(a: Database, b: Database) {
    && DocsKept(a, b) && VersionsKept(a, b) && HashesKept(a, b)
    && PartsKept(b, a.chunks, b.chunks) && PartsKept(b, a.sections, b.sections)
    && JobsKept(a, b) && AuditsKept(a, b) && ReplaysKept(a, b)
  }

  /** Documents of other keys, and their versions, are left alone. */
  ghost predicate Local(a: Database, b: Database, key: Key) {
    && (forall d | d in a.docs && a.docs[d].key != key :: d in b.docs && b.docs[d] == a.docs[d])
    && forall v | v in a.versions && a.versions[v].document in a.docs && a.docs[a.versions[v].document].key != key ::
         v in b.versions && b.versions[v] == a.versions[v]
  }

  /** The versions that `document` has, it keeps. */
  ghost predicate Grows(a: Database, b: Database, document: Id) {
    forall v | v in a.versions && a.versions[v].document == document :: v in b.versions && b.versions[v] == a.versions[v]
  }

  /** An idempotency record stays if and only if its document does, if it names one; and so does a job that
      names no version. What stays is unchanged. */
  ghost predicate LooseKept(a: Database, b: Database) {
    && (forall k | k in a.replays :: k in b.replays <==> a.replays[k].document.None? || a.replays[k].document.value in b.docs)
    && (forall k | k in b.replays :: k in a.replays && b.replays[k] == a.replays[k])
    && (forall k | k in a.jobs && a.jobs[k].version.None? ::
          if a.jobs[k].document in b.docs then k in b.jobs && b.jobs[k] == a.jobs[k] else k !in b.jobs)
    && (forall k | k in b.jobs :: k in a.jobs && (b.jobs[k].version.None? ==> b.jobs[k] == a.jobs[k]))
  }

  /** Jobs that name no version are as they were. */
  ghost predicate LooseJobs(a: Database, b: Database) {
    && (forall k | k in a.jobs && a.jobs[k].version.None? :: k in b.jobs && b.jobs[k] == a.jobs[k])
    && (forall k | k in b.jobs :: k in a.jobs && (b.jobs[k].version.None? ==> b.jobs[k] == a.jobs[k]))
  }

  lemma LooseTransitive(a: Database, b: Database, c: Database)
    requires LooseKept(a, b) && LooseKept(b, c) && DocsKept(b, c)
    ensures LooseKept(a, c)
  {
  }

  lemma LooseUnchanged(db: Database)
    requires Sound(db)
    ensures LooseKept(db, db)
  {
  }

  lemma LooseDropped(db: Database, merged: Database, canonical: Id, copy: Id)
    requires Sound(db) && merged.docs == db.docs && LooseJobs(db, merged)
    requires merged.replays == DeleteReplays(db.replays, copy)
    ensures LooseKept(db, Drop(merged, canonical, copy))
  {
  }

  lemma HashesKeptTransitive(a: Database, b: Database, c: Database)
    requires HashesKept(a, b) && HashesKept(b, c)
    ensures HashesKept(a, c)
  {
    forall v | v in a.versions ensures exists x :: x in c.versions && SameContent(a, v, c, x) {
      var w :| w in b.versions && SameContent(a, v, b, w);
      var x :| x in c.versions && SameContent(b, w, c, x);
      assert SameContent(a, v, c, x);
    }
  }

  lemma PartsKeptTransitive(b: Database, c: Database, p: map<Id, Part>, q: map<Id, Part>, r: map<Id, Part>)
    requires VersionsKept(b, c) && PartsKept(b, p, q) && PartsKept(c, q, r)
    ensures PartsKept(c, p, r)
  {
  }

  lemma JobsKeptTransitive(a: Database, b: Database, c: Database)
    requires VersionsKept(b, c) && JobsKept(a, b) && JobsKept(b, c)
    ensures JobsKept(a, c)
  {
  }

  lemma AuditsKeptTransitive(a: Database, b: Database, c: Database)
    requires AuditsKept(a, b) && AuditsKept(b, c)
    ensures AuditsKept(a, c)
  {
  }

  lemma VersionsKeptTransitive(a: Database, b: Database, c: Database)
    requires VersionsKept(a, b) && VersionsKept(b, c)
    ensures VersionsKept(a, c)
  {
  }

  lemma DerivedTransitive(a: Database, b: Database, c: Database)
    requires Derived(a, b) && Derived(b, c)
    ensures Derived(a, c)
  {
    hide VersionsKept, HashesKept, PartsKept, JobsKept, AuditsKept;
    VersionsKeptTransitive(a, b, c);
    HashesKeptTransitive(a, b, c);
    PartsKeptTransitive(b, c, a.chunks, b.chunks, c.chunks);
    PartsKeptTransitive(b, c, a.sections, b.sections, c.sections);
    JobsKeptTransitive(a, b, c);
    AuditsKeptTransitive(a, b, c);
  }

  lemma LocalTransitive(a: Database, b: Database, c: Database, key: Key)
    requires Local(a, b, key) && Local(b, c, key) && Placed(a.docs, a.versions)
    ensures Local(a, c, key)
  {
    forall v | v in a.versions && a.docs[a.versions[v].document].key != key
      ensures v in c.versions && c.versions[v] == a.versions[v]
    {
      assert b.docs[b.versions[v].document].key != key;
    }
  }

  /** When only rows hanging on documents and versions change, hashes are kept if versions are. */
  lemma HashesByVersions(a: Database, b: Database)
    requires VersionsKept(a, b) && b.versions.Keys == a.versions.Keys
    ensures HashesKept(a, b)
  {
    hide SameContent;
    forall v | v in a.versions ensures exists w :: w in b.versions && SameContent(a, v, b, w) {
      assert v in b.versions && SameContent(a, v, b, v);
    }
  }

  // --------------------------------------------------- one version of a copy

  /** The canonical document has the content already: the copy goes, its audit events move. */
  function Absorb(db: Database, canonical: Id, existing: Id, version: Id): Database {
    db.(audits := MoveRefsOf(db.audits, version, canonical, existing),
        jobs := DeleteRefsOf(db.jobs, version),
        chunks := DeleteParts(db.chunks, version), sections := DeleteParts(db.sections, version),
        versions := db.versions - {version})
  }

  /** The canonical document has not: the version moves, with all that hangs on it. */
  function Move(db: Database, canonical: Id, version: Id): Database
    requires version in db.versions
  {
    db.(versions := db.versions[version := db.versions[version].(document := canonical)],
        chunks := MoveParts(db.chunks, version, canonical), sections := MoveParts(db.sections, version, canonical),
        jobs := MoveRefsOf(db.jobs, version, canonical, version),
        audits := MoveRefsOf(db.audits, version, canonical, version))
  }

  /** `version` belongs to a copy of the canonical document that no idempotency record mentions. */
  ghost predicate Mergeable(db: Database, canonical: Id, version: Id) {
    && Sound(db) && canonical in db.docs && version in db.versions
    && db.versions[version].document != canonical
    && db.docs[db.versions[version].document].key == db.docs[canonical].key
    && forall k | k in db.replays :: db.replays[k].document != Some(db.versions[version].document)
  }

  lemma AbsorbSound(db: Database, canonical: Id, existing: Id, version: Id)
    requires Mergeable(db, canonical, version) && existing in db.versions && existing != version
    requires db.versions[existing].document == canonical && db.versions[existing].hash == db.versions[version].hash
    ensures Sound(Absorb(db, canonical, existing, version))
  {
  }

  lemma AbsorbVersions(db: Database, version: Id, b: Database)
    requires Placed(db.docs, db.versions)
    requires b.docs == db.docs && b.versions == db.versions - {version}
    ensures VersionsKept(db, b)
  {
  }

  lemma AbsorbHashes(db: Database, existing: Id, version: Id, b: Database)
    requires Placed(db.docs, db.versions) && existing != version
    requires existing in db.versions && SameContent(db, version, db, existing)
    requires b.docs == db.docs && b.versions == db.versions - {version}
    ensures HashesKept(db, b)
  {
    hide SameContent;
    forall v | v in db.versions ensures exists w :: w in b.versions && SameContent(db, v, b, w) {
      if v == version {
        Inherited(db, v, b, existing);
      } else {
        Present(db, v, b);
      }
    }
  }

  lemma Inherited(db: Database, v: Id, b: Database, w: Id)
    requires SameContent(db, v, db, w) && w in b.versions && b.versions[w] == db.versions[w] && b.docs == db.docs
    ensures SameContent(db, v, b, w)
  {
  }

  lemma Present(db: Database, v: Id, b: Database)
    requires Placed(db.docs, db.versions) && v in db.versions
    requires v in b.versions && b.versions[v] == db.versions[v] && b.docs == db.docs
    ensures SameContent(db, v, b, v)
  {
  }

  lemma AbsorbAudits(db: Database, canonical: Id, existing: Id, version: Id)
    requires Mergeable(db, canonical, version) && existing in db.versions && existing != version
    requires db.versions[existing].document == canonical && db.versions[existing].hash == db.versions[version].hash
    ensures AuditsKept(db, Absorb(db, canonical, existing, version))
  {
  }

  lemma AbsorbDerived(db: Database, canonical: Id, existing: Id, version: Id)
    requires Mergeable(db, canonical, version) && existing in db.versions && existing != version
    requires db.versions[existing].document == canonical && db.versions[existing].hash == db.versions[version].hash
    ensures Derived(db, Absorb(db, canonical, existing, version))
  {
    hide HashesKept, VersionsKept, AuditsKept, PartsKept, JobsKept, Placed, Distinct, SameContent;
    var b := Absorb(db, canonical, existing, version);
    SameCopy(db, existing, version);
    AbsorbVersions(db, version, b);
    AbsorbHashes(db, existing, version, b);
    AbsorbAudits(db, canonical, existing, version);
    AbsorbRows(db, canonical, existing, version);
  }

  lemma SameCopy(db: Database, existing: Id, version: Id)
    requires Placed(db.docs, db.versions) && existing in db.versions && version in db.versions
    requires db.docs[db.versions[existing].document].key == db.docs[db.versions[version].document].key
    requires db.versions[existing].hash == db.versions[version].hash
    ensures SameContent(db, version, db, existing)
  {
  }

  lemma AbsorbRows(db: Database, canonical: Id, existing: Id, version: Id)
    ensures var b := Absorb(db, canonical, existing, version);
      PartsKept(b, db.chunks, b.chunks) && PartsKept(b, db.sections, b.sections) && JobsKept(db, b)
  {
  }

  lemma MoveSound(db: Database, canonical: Id, version: Id)
    requires Mergeable(db, canonical, version)
    requires forall w | w in db.versions && db.versions[w].document == canonical :: db.versions[w].hash != db.versions[version].hash
    ensures Sound(Move(db, canonical, version))
  {
  }

  lemma MoveVersions(db: Database, canonical: Id, version: Id, b: Database)
    requires Placed(db.docs, db.versions) && canonical in db.docs && version in db.versions
    requires db.docs[db.versions[version].document].key == db.docs[canonical].key
    requires b.docs == db.docs && b.versions == db.versions[version := db.versions[version].(document := canonical)]
    ensures HashesKept(db, b) && VersionsKept(db, b)
  {
    assert VersionsKept(db, b);
    HashesByVersions(db, b);
  }

  lemma MoveAudits(db: Database, canonical: Id, version: Id)
    requires Mergeable(db, canonical, version)
    ensures AuditsKept(db, Move(db, canonical, version))
  {
  }

  lemma MoveRows(db: Database, canonical: Id, version: Id)
    requires version in db.versions
    ensures var b := Move(db, canonical, version);
      PartsKept(b, db.chunks, b.chunks) && PartsKept(b, db.sections, b.sections) && JobsKept(db, b)
  {
  }

  lemma MoveDerived(db: Database, canonical: Id, version: Id)
    requires Mergeable(db, canonical, version)
    ensures Derived(db, Move(db, canonical, version))
  {
    hide HashesKept, VersionsKept, AuditsKept, PartsKept, JobsKept, Placed, Distinct;
    MoveVersions(db, canonical, version, Move(db, canonical, version));
    MoveAudits(db, canonical, version);
    MoveRows(db, canonical, version);
  }

  ghost predicate Belongs(db: Database, v: Id, document: Id) {
    v in db.versions && db.versions[v].document == document
  }

  lemma LooseJobsStay(db: Database, canonical: Id, version: Id)
    requires version in db.versions
    ensures LooseJobs(db, Move(db, canonical, version))
    ensures forall existing :: LooseJobs(db, Absorb(db, canonical, existing, version))
  {
  }

  method MergeVersion(db: Database, canonical: Id, version: Id) returns (out: Database)
    requires Mergeable(db, canonical, version)
    ensures Sound(out) && Derived(db, out) && Local(db, out, db.docs[canonical].key) && Grows(db, out, canonical)
    ensures out.docs == db.docs && out.replays == db.replays && LooseJobs(db, out)
    ensures forall v :: Belongs(out, v, db.versions[version].document)
                   <==> Belongs(db, v, db.versions[version].document) && v != version
  {
    hide Sound, Derived, LooseJobs;
    LooseJobsStay(db, canonical, version);
    var hash := db.versions[version].hash;
    assert Sound(db);
    if existing: Id :|
      existing in db.versions && db.versions[existing].document == canonical && db.versions[existing].hash == hash {
      AbsorbSound(db, canonical, existing, version);
      AbsorbDerived(db, canonical, existing, version);
      out := Absorb(db, canonical, existing, version);
    } else {
      MoveSound(db, canonical, version);
      MoveDerived(db, canonical, version);
      out := Move(db, canonical, version);
    }
  }

  // ------------------------------------------------------ one copy of a document

  lemma GrowsTransitive(a: Database, b: Database, c: Database, d: Id)
    requires Grows(a, b, d) && Grows(b, c, d)
    ensures Grows(a, c, d)
  {
  }

  lemma SameVersions(a: Database, b: Database)
    requires Placed(a.docs, a.versions) && b.docs == a.docs && b.versions == a.versions
    ensures VersionsKept(a, b) && HashesKept(a, b)
  {
    hide HashesKept;
    HashesByVersions(a, b);
  }

  lemma DropReplays(db: Database, document: Id)
    requires Sound(db)
    ensures var b := db.(replays := DeleteReplays(db.replays, document)); Sound(b) && Derived(db, b)
  {
    hide HashesKept, VersionsKept, Placed, Distinct;
    SameVersions(db, db.(replays := DeleteReplays(db.replays, document)));
  }

  /** The copy's remaining jobs, which name no version, and the copy itself go; its audit events move. */
  function Drop(db: Database, canonical: Id, copy: Id): Database {
    db.(jobs := DeleteRefsOn(db.jobs, copy), audits := MoveRefsOn(db.audits, copy, canonical), docs := db.docs - {copy})
  }

  ghost predicate Droppable(db: Database, canonical: Id, copy: Id) {
    && Sound(db) && canonical in db.docs && copy in db.docs && canonical != copy
    && db.docs[canonical].key == db.docs[copy].key
    && (forall v :: !Belongs(db, v, copy)) && forall k | k in db.replays :: db.replays[k].document != Some(copy)
  }

  lemma DropSound(db: Database, canonical: Id, copy: Id)
    requires Droppable(db, canonical, copy)
    ensures Sound(Drop(db, canonical, copy))
  {
    assert forall v | v in db.versions :: !Belongs(db, v, copy);
  }

  lemma DropVersions(db: Database, copy: Id, b: Database)
    requires Placed(db.docs, db.versions) && forall v :: !Belongs(db, v, copy)
    requires b.docs == db.docs - {copy} && b.versions == db.versions
    ensures VersionsKept(db, b) && HashesKept(db, b)
  {
    assert forall v | v in db.versions :: !Belongs(db, v, copy);
    assert VersionsKept(db, b);
    HashesByVersions(db, b);
  }

  lemma DropAudits(db: Database, canonical: Id, copy: Id)
    requires Droppable(db, canonical, copy)
    ensures AuditsKept(db, Drop(db, canonical, copy))
  {
    assert forall v | v in db.versions :: !Belongs(db, v, copy);
  }

  lemma DropJobs(db: Database, canonical: Id, copy: Id)
    requires Droppable(db, canonical, copy)
    ensures JobsKept(db, Drop(db, canonical, copy))
  {
    assert forall v | v in db.versions :: !Belongs(db, v, copy);
  }

  lemma DropDerived(db: Database, canonical: Id, copy: Id)
    requires Droppable(db, canonical, copy)
    ensures Derived(db, Drop(db, canonical, copy))
  {
    hide HashesKept, VersionsKept, AuditsKept, JobsKept, Placed, Distinct, Belongs;
    DropVersions(db, copy, Drop(db, canonical, copy));
    DropAudits(db, canonical, copy);
    DropJobs(db, canonical, copy);
  }

  method MergeDocument(db: Database, canonical: Id, copy: Id) returns (out: Database)
    requires Sound(db) && canonical in db.docs && copy in db.docs && canonical != copy
    requires db.docs[canonical].key == db.docs[copy].key
    ensures Sound(out) && Derived(db, out) && Local(db, out, db.docs[canonical].key) && Grows(db, out, canonical)
    ensures out.docs == db.docs - {copy} && LooseKept(db, out)
  {
    hide Sound, Derived, Local, Grows, LooseKept, LooseJobs;
    DropReplays(db, copy);
    out := db.(replays := DeleteReplays(db.replays, copy));
    ghost var start := out;
    out := MergeVersions(out, canonical, copy);
    CopyMerged(db, start, out, canonical, copy);
    SameLoose(db, start, out);
    LooseDropped(db, out, canonical, copy);
    out := Drop(out, canonical, copy);
  }

  lemma SameLoose(db: Database, start: Database, merged: Database)
    requires start.jobs == db.jobs && LooseJobs(start, merged)
    ensures LooseJobs(db, merged)
  {
  }

  lemma CopyMerged(db: Database, start: Database, merged: Database, canonical: Id, copy: Id)
    requires Sound(db) && Droppable(merged, canonical, copy) && merged.docs == db.docs && db.docs == start.docs
    requires start == db.(replays := DeleteReplays(db.replays, copy))
    requires Derived(start, merged) && Local(start, merged, db.docs[canonical].key) && Grows(start, merged, canonical)
    ensures var out := Drop(merged, canonical, copy);
      && Sound(out) && Derived(db, out) && Local(db, out, db.docs[canonical].key) && Grows(db, out, canonical)
  {
    hide Sound, Derived, Belongs;
    DropReplays(db, copy);
    DropSound(merged, canonical, copy);
    DropDerived(merged, canonical, copy);
    DerivedTransitive(db, start, merged);
    DerivedTransitive(db, merged, Drop(merged, canonical, copy));
  }

  method MergeVersions(db: Database, canonical: Id, copy: Id) returns (out: Database)
    requires Sound(db) && canonical in db.docs && copy in db.docs && canonical != copy
    requires db.docs[canonical].key == db.docs[copy].key
    requires forall k | k in db.replays :: db.replays[k].document != Some(copy)
    ensures Sound(out) && Derived(db, out) && Local(db, out, db.docs[canonical].key) && Grows(db, out, canonical)
    ensures out.docs == db.docs && out.replays == db.replays && LooseJobs(db, out) && forall v :: !Belongs(out, v, copy)
  {
    hide Derived, Local, Grows;
    out := db;
    var rest := set v | v in db.versions && db.versions[v].document == copy;
    Unchanged(db, db.docs[canonical].key, canonical);
    while rest != {}
      invariant Sound(out) && Derived(db, out) && Local(db, out, db.docs[canonical].key) && Grows(db, out, canonical)
      invariant out.docs == db.docs && out.replays == db.replays && LooseJobs(db, out)
      invariant forall v :: Belongs(out, v, copy) <==> v in rest
      decreases rest
    {
      var version :| version in rest;
      assert Belongs(out, version, copy);
      ghost var before := out;
      out := MergeVersion(out, canonical, version);
      MergeChains(db, before, out, db.docs[canonical].key, canonical);
      rest := rest - {version};
    }
  }

  lemma Unchanged(db: Database, key: Key, canonical: Id)
    requires Sound(db)
    ensures Derived(db, db) && Local(db, db, key) && Grows(db, db, canonical)
  {
    hide HashesKept, VersionsKept, Placed, Distinct;
    SameVersions(db, db);
  }

  lemma MergeChains(a: Database, b: Database, c: Database, key: Key, canonical: Id)
    requires Sound(a) && Derived(a, b) && Derived(b, c) && Local(a, b, key) && Local(b, c, key)
    requires Grows(a, b, canonical) && Grows(b, c, canonical)
    ensures Derived(a, c) && Local(a, c, key) && Grows(a, c, canonical)
  {
    hide Derived;
    DerivedTransitive(a, b, c);
    LocalTransitive(a, b, c, key);
    GrowsTransitive(a, b, c, canonical);
  }

  // ----------------------------------------------------- one group of copies

  ghost predicate CurrentIndexed(db: Database, d: Id) {
    && d in db.docs && db.docs[d].current.Some? && db.docs[d].current.value in db.versions
    && db.versions[db.docs[d].current.value].indexed
  }

  /** The status joined to the document's row is INDEXED. */
  predicate Joined(db: Database, d: Id)
    requires d in db.docs
  {
    match db.docs[d].current
    case None => false
    case Some(v) => v in db.versions && db.versions[v].indexed
  }

  /** `x` is preferred to `y` as the canonical copy. */
  predicate Better(db: Database, x: Id, y: Id)
    requires x in db.docs && y in db.docs
  {
    (Joined(db, x) && !Joined(db, y))
    || (Joined(db, x) == Joined(db, y) && db.docs[x].updatedAt > db.docs[y].updatedAt)
  }

  /** `v` is preferred to `w` as the current version. */
  predicate Outranks(versions: map<Id, Version>, v: Id, w: Id)
    requires v in versions && w in versions
  {
    (versions[v].indexed && !versions[w].indexed)
    || (versions[v].indexed == versions[w].indexed && versions[v].createdAt > versions[w].createdAt)
  }

  /** `x` shows an INDEXED version if `y` does, and is at least as recent where they agree on that. */
  ghost predicate AsGood(db: Database, x: Id, y: Id)
    requires x in db.docs && y in db.docs
  {
    && (CurrentIndexed(db, y) ==> CurrentIndexed(db, x))
    && ((CurrentIndexed(db, x) <==> CurrentIndexed(db, y)) ==> db.docs[y].updatedAt <= db.docs[x].updatedAt)
  }

  /** Of the copies as good as any, the first. */
  method Canonical(db: Database, group: seq<Id>) returns (best: Id)
    requires group != [] && forall i | 0 <= i < |group| :: group[i] in db.docs
    ensures best in group && forall i | 0 <= i < |group| :: AsGood(db, best, group[i])
    ensures exists k | 0 <= k < |group| :: group[k] == best && forall i | 0 <= i < k :: !AsGood(db, group[i], best)
  {
    best := group[0];
    ghost var at := 0;
    for i := 1 to |group|
      invariant 0 <= at < i && best == group[at] && forall k | 0 <= k < i :: AsGood(db, best, group[k])
      invariant forall k | 0 <= k < at :: !AsGood(db, group[k], best)
    {
      if Better(db, group[i], best) {
        best, at := group[i], i;
      }
    }
  }

  /** Of the copies updated last, the first. */
  method Latest(db: Database, group: seq<Id>) returns (latest: Id)
    requires group != [] && forall i | 0 <= i < |group| :: group[i] in db.docs
    ensures latest in group && forall i | 0 <= i < |group| :: db.docs[group[i]].updatedAt <= db.docs[latest].updatedAt
    ensures exists k | 0 <= k < |group| ::
              group[k] == latest && forall i | 0 <= i < k :: db.docs[group[i]].updatedAt < db.docs[latest].updatedAt
  {
    latest := group[0];
    ghost var at := 0;
    for i := 1 to |group|
      invariant 0 <= at < i && latest == group[at] && forall k | 0 <= k < i :: db.docs[group[k]].updatedAt <= db.docs[latest].updatedAt
      invariant forall k | 0 <= k < at :: db.docs[group[k]].updatedAt < db.docs[latest].updatedAt
    {
      if db.docs[group[i]].updatedAt > db.docs[latest].updatedAt {
        latest, at := group[i], i;
      }
    }
  }

  /** `v` is INDEXED if `w` is, and at least as young where they agree on that. */
  ghost predicate AsCurrent(versions: map<Id, Version>, v: Id, w: Id)
    requires v in versions && w in versions
  {
    && (versions[w].indexed ==> versions[v].indexed)
    && ((versions[v].indexed <==> versions[w].indexed) ==> versions[w].createdAt <= versions[v].createdAt)
  }

  ghost predicate Foremost(db: Database, d: Id, current: Option<Id>) {
    match current
    case None => forall v :: !Belongs(db, v, d)
    case Some(v) => Belongs(db, v, d) && forall w | Belongs(db, w, d) :: AsCurrent(db.versions, v, w)
  }

  method PickCurrent(db: Database, d: Id) returns (current: Option<Id>)
    ensures Foremost(db, d, current)
  {
    current := None;
    ghost var seen := {};
    var rest := set v | v in db.versions && db.versions[v].document == d;
    while rest != {}
      invariant forall v :: Belongs(db, v, d) <==> v in rest + seen
      invariant current.None? ==> seen == {}
      invariant current.Some? ==> Belongs(db, current.value, d) && forall w | w in seen :: AsCurrent(db.versions, current.value, w)
      decreases rest
    {
      var v :| v in rest;
      assert Belongs(db, v, d);
      if current.None? || Outranks(db.versions, v, current.value) {
        current := Some(v);
      }
      seen, rest := seen + {v}, rest - {v};
    }
  }

  /** `c` is the only document left of its key, and what it should be: itself if it was alone, and
      otherwise the preferred copy, with the latest copy's data and the foremost surviving version. */
  ghost predicate SettledAt(a: Database, b: Database, key: Key, c: Id) {
    && c in a.docs && c in b.docs && a.docs[c].key == key
    && (forall d | d in b.docs && b.docs[d].key == key :: d == c)
    && (if forall d | d in a.docs && a.docs[d].key == key :: d == c
        then b.docs[c] == a.docs[c]
        else Chosen(a, b, key, c))
    && (forall d | CurrentIndexed(a, d) && a.docs[d].key == key :: CurrentIndexed(b, c))
    && OwnCurrent(b, c)
  }

  ghost predicate Chosen(a: Database, b: Database, key: Key, c: Id)
    requires c in a.docs && c in b.docs
  {
    && (forall d | d in a.docs && a.docs[d].key == key :: AsGood(a, c, d))
    && Foremost(b, c, b.docs[c].current)
    && exists l :: FromLatest(a, b.docs[c], key, l)
  }

  ghost predicate FromLatest(a: Database, row: Document, key: Key, l: Id) {
    && l in a.docs && a.docs[l].key == key && row.updatedAt == a.docs[l].updatedAt && row.provenance == a.docs[l].provenance
    && forall d | d in a.docs && a.docs[d].key == key :: a.docs[d].updatedAt <= row.updatedAt
  }

  ghost predicate Settled(a: Database, b: Database, key: Key) {
    exists c :: SettledAt(a, b, key, c)
  }

  /** The rows of one key, in the order of the query. */
  ghost predicate IsGroup(db: Database, group: seq<Id>, key: Key) {
    && (forall i | 0 <= i < |group| :: group[i] in db.docs && db.docs[group[i]].key == key)
    && (forall i, j | 0 <= i < j < |group| :: group[i] != group[j])
    && forall d | d in db.docs && db.docs[d].key == key :: d in group
  }

  function Update(db: Database, c: Id, current: Option<Id>, latest: Document): Database
    requires c in db.docs
  {
    db.(docs := db.docs[c := Document(db.docs[c].key, current, latest.updatedAt, latest.provenance)])
  }

  lemma UpdateKeeps(db: Database, c: Id, current: Option<Id>, latest: Document)
    requires Sound(db) && c in db.docs
    ensures var b := Update(db, c, current, latest);
      Sound(b) && Derived(db, b) && Local(db, b, db.docs[c].key)
  {
    var b := Update(db, c, current, latest);
    UpdateVersions(db, b);
    UpdateRows(db, b);
  }

  lemma UpdateVersions(db: Database, b: Database)
    requires Placed(db.docs, db.versions) && b.versions == db.versions && b.docs.Keys == db.docs.Keys
    requires forall d | d in db.docs :: b.docs[d].key == db.docs[d].key
    ensures VersionsKept(db, b) && HashesKept(db, b)
  {
    HashesByVersions(db, b);
  }

  lemma UpdateRows(db: Database, b: Database)
    requires Sound(db) && b == db.(docs := b.docs) && b.docs.Keys == db.docs.Keys
    requires forall d | d in db.docs :: b.docs[d].key == db.docs[d].key
    ensures Sound(b) && AuditsKept(db, b)
  {
  }

  /** Of equally good copies the first of the group was kept, and of equally late ones the first gave its data. */
  ghost predicate FirstOfGroup(db: Database, group: seq<Id>, b: Database, key: Key)
    requires forall i | 0 <= i < |group| :: group[i] in db.docs
  {
    forall c | c in b.docs && b.docs[c].key == key ::
      && (exists k | 0 <= k < |group| :: group[k] == c && c in db.docs && forall i | 0 <= i < k :: !AsGood(db, group[i], c))
      && exists k | 0 <= k < |group| ::
           FromLatest(db, b.docs[c], key, group[k])
           && forall i | 0 <= i < k :: db.docs[group[i]].updatedAt < db.docs[group[k]].updatedAt
  }

  lemma OnlyCanonical(db: Database, merged: Database, group: seq<Id>, key: Key, canonical: Id, current: Option<Id>, latest: Id)
    requires IsGroup(db, group, key) && canonical in group && canonical in merged.docs && latest in db.docs && db.docs[latest].key == key
    requires forall d :: d in merged.docs <==> d in db.docs && (d == canonical || d !in group)
    requires forall d | d in merged.docs :: merged.docs[d] == db.docs[d]
    requires exists k | 0 <= k < |group| :: group[k] == canonical && forall i | 0 <= i < k :: !AsGood(db, group[i], canonical)
    requires exists k | 0 <= k < |group| ::
               group[k] == latest && forall i | 0 <= i < k :: db.docs[group[i]].updatedAt < db.docs[latest].updatedAt
    requires forall i | 0 <= i < |group| :: db.docs[group[i]].updatedAt <= db.docs[latest].updatedAt
    ensures FirstOfGroup(db, group, Update(merged, canonical, current, db.docs[latest]), key)
  {
    hide AsGood;
    var b := Update(merged, canonical, current, db.docs[latest]);
    assert FromLatest(db, b.docs[canonical], key, latest);
    forall c | c in b.docs && b.docs[c].key == key ensures c == canonical {
    }
  }

  method MergeGroup(db: Database, group: seq<Id>, ghost key: Key) returns (out: Database)
    requires Sound(db) && IsGroup(db, group, key) && |group| >= 2
    requires forall d | d in group :: OwnCurrent(db, d)
    ensures Sound(out) && Derived(db, out) && Local(db, out, key) && Settled(db, out, key) && LooseKept(db, out)
    ensures FirstOfGroup(db, group, out, key)
  {
    hide Sound, Derived, Local, OwnCurrent, LooseKept, AsGood, FirstOfGroup;
    var canonical := Canonical(db, group);
    var latest := Latest(db, group);
    out := db;
    Unchanged(db, key, canonical);
    LooseUnchanged(db);
    for i := 0 to |group|
      invariant Sound(out) && Derived(db, out) && Local(db, out, key) && Grows(db, out, canonical) && LooseKept(db, out)
      invariant forall d :: d in out.docs <==> d in db.docs && (d == canonical || d !in group[..i])
      invariant forall d | d in out.docs :: out.docs[d] == db.docs[d]
    {
      assert group[..i + 1] == group[..i] + [group[i]];
      if group[i] != canonical {
        ghost var before := out;
        assert group[i] !in group[..i];
        out := MergeDocument(out, canonical, group[i]);
        MergeChains(db, before, out, key, canonical);
        LooseChains(db, before, out);
      }
    }
    assert group[..|group|] == group;
    var current := PickCurrent(out, canonical);
    ghost var merged := out;
    OnlyCanonical(db, merged, group, key, canonical, current, latest);
    UpdateKeeps(out, canonical, current, db.docs[latest]);
    out := Update(out, canonical, current, db.docs[latest]);
    GroupSettled(db, merged, out, group, key, canonical, current, latest);
    DerivedTransitive(db, merged, out);
    LocalOf(db, merged, out, key);
    LooseUpdated(db, merged, out);
  }

  lemma LooseChains(a: Database, b: Database, c: Database)
    requires LooseKept(a, b) && LooseKept(b, c) && Derived(b, c)
    ensures LooseKept(a, c)
  {
    hide LooseKept, DocsKept;
    DerivedParts(b, c);
    LooseTransitive(a, b, c);
  }

  lemma LooseUpdated(a: Database, b: Database, c: Database)
    requires LooseKept(a, b) && c == b.(docs := c.docs) && c.docs.Keys == b.docs.Keys
    ensures LooseKept(a, c)
  {
  }

  lemma LocalOf(a: Database, b: Database, c: Database, key: Key)
    requires Sound(a) && Local(a, b, key) && Local(b, c, key)
    ensures Local(a, c, key)
  {
    LocalTransitive(a, b, c, key);
  }

  lemma GroupSettled(
    a: Database, merged: Database, b: Database, group: seq<Id>, key: Key, c: Id, current: Option<Id>, latest: Id)
    requires IsGroup(a, group, key) && |group| >= 2 && c in group && latest in group && OwnCurrent(a, c)
    requires forall i | 0 <= i < |group| :: AsGood(a, c, group[i])
    requires forall i | 0 <= i < |group| :: a.docs[group[i]].updatedAt <= a.docs[latest].updatedAt
    requires Grows(a, merged, c) && Foremost(merged, c, current)
    requires forall d :: d in merged.docs <==> d in a.docs && (d == c || d !in group)
    requires forall d | d in merged.docs :: merged.docs[d] == a.docs[d]
    requires b == Update(merged, c, current, a.docs[latest])
    ensures Settled(a, b, key)
  {
    hide IsGroup, Grows, AsGood;
    GroupIs(a, group, key);
    IndexedStays(a, merged, c, current);
    assert SettledAt(a, b, key, c) by {
      assert FromLatest(a, b.docs[c], key, latest);
      assert Foremost(b, c, current) by {
        assert forall v :: Belongs(b, v, c) <==> Belongs(merged, v, c);
      }
      assert group[0] != group[1] && group[0] in a.docs && group[1] in a.docs;
      BetterIndexed(a, group, c);
    }
  }

  lemma GroupIs(a: Database, group: seq<Id>, key: Key)
    requires IsGroup(a, group, key)
    ensures forall d :: d in a.docs && a.docs[d].key == key <==> d in group
    ensures |group| >= 2 ==> group[0] != group[1]
  {
  }

  lemma BetterIndexed(a: Database, group: seq<Id>, c: Id)
    requires c in a.docs && forall i | 0 <= i < |group| :: group[i] in a.docs && AsGood(a, c, group[i])
    ensures forall d | d in group && CurrentIndexed(a, d) :: CurrentIndexed(a, c)
  {
  }

  lemma IndexedStays(a: Database, merged: Database, c: Id, current: Option<Id>)
    requires c in a.docs && OwnCurrent(a, c) && Grows(a, merged, c) && Foremost(merged, c, current)
    ensures CurrentIndexed(a, c) ==> current.Some? && current.value in merged.versions && merged.versions[current.value].indexed
  {
    if CurrentIndexed(a, c) {
      assert Belongs(merged, a.docs[c].current.value, c);
    }
  }

  // ------------------------------------------------------- the whole migration

  function Filter(db: Database, rows: seq<Id>, key: Key): (r: seq<Id>)
    requires forall i | 0 <= i < |rows| :: rows[i] in db.docs
  {
    if rows == [] then [] else
      var last := rows[|rows| - 1];
      Filter(db, rows[..|rows| - 1], key) + if db.docs[last].key == key then [last] else []
  }

  /** The query's rows: every document once. */
  ghost predicate AllRows(db: Database, rows: seq<Id>) {
    && (forall i | 0 <= i < |rows| :: rows[i] in db.docs)
    && (forall i, j | 0 <= i < j < |rows| :: rows[i] != rows[j])
    && forall d | d in db.docs :: d in rows
  }

  /** The group lists its rows in the order of the query. */
  ghost predicate InOrder(rows: seq<Id>, group: seq<Id>) {
    forall i, j, p, q | 0 <= i < j < |group| && 0 <= p < |rows| && 0 <= q < |rows| && rows[p] == group[i] && rows[q] == group[j] ::
      p < q
  }

  lemma {:induction false} FilterInOrder(db: Database, rows: seq<Id>, key: Key)
    requires forall i | 0 <= i < |rows| :: rows[i] in db.docs
    requires forall i, j | 0 <= i < j < |rows| :: rows[i] != rows[j]
    ensures InOrder(rows, Filter(db, rows, key))
  {
    if rows != [] {
      var front := rows[..|rows| - 1];
      FilterInOrder(db, front, key);
      FilterIsGroup(db, front, key);
      var g := Filter(db, front, key);
      forall i, p | 0 <= i < |g| && 0 <= p < |rows| && rows[p] == g[i] ensures p < |front| && front[p] == g[i] {
      }
    }
  }

  lemma {:induction false} FilterIsGroup(db: Database, rows: seq<Id>, key: Key)
    requires forall i | 0 <= i < |rows| :: rows[i] in db.docs
    requires forall i, j | 0 <= i < j < |rows| :: rows[i] != rows[j]
    ensures var g := Filter(db, rows, key);
      && (forall d :: d in g <==> d in rows && db.docs[d].key == key)
      && (forall i | 0 <= i < |g| :: g[i] in rows && db.docs[g[i]].key == key)
      && (forall i, j | 0 <= i < j < |g| :: g[i] != g[j])
  {
    if rows != [] {
      var front, last := rows[..|rows| - 1], rows[|rows| - 1];
      FilterIsGroup(db, front, key);
      assert rows == front + [last];
      assert last !in front;
    }
  }

  method GroupRows(db: Database, rows: seq<Id>) returns (keys: seq<Key>, groups: map<Key, seq<Id>>)
    requires AllRows(db, rows)
    ensures forall i, j | 0 <= i < j < |keys| :: keys[i] != keys[j]
    ensures forall k :: k in groups <==> k in keys
    ensures forall k | k in groups :: IsGroup(db, groups[k], k) && groups[k] != [] && InOrder(rows, groups[k])
    ensures forall d | d in db.docs :: db.docs[d].key in groups
  {
    RowsExist(db, rows);
    hide Filter, IsGroup, InOrder, AllRows;
    keys, groups := [], map[];
    NoRows(db);
    for i := 0 to |rows|
      invariant forall i, j | 0 <= i < j < |keys| :: keys[i] != keys[j]
      invariant forall k :: k in groups <==> k in keys
      invariant forall k | k in groups :: groups[k] == Filter(db, rows[..i], k) != []
      invariant forall k | k !in groups :: Filter(db, rows[..i], k) == []
    {
      FilterStep(db, rows, i);
      var key := db.docs[rows[i]].key;
      if key !in groups {
        keys := keys + [key];
        groups := groups[key := []];
      }
      groups := groups[key := groups[key] + [rows[i]]];
    }
    assert rows[..|rows|] == rows;
    FiltersAreGroups(db, rows);
  }

  lemma RowsExist(db: Database, rows: seq<Id>)
    requires AllRows(db, rows)
    ensures (forall i | 0 <= i < |rows| :: rows[i] in db.docs) && forall d | d in db.docs :: d in rows
  {
  }

  lemma NoRows(db: Database)
    ensures forall k :: Filter(db, [], k) == []
  {
  }

  lemma FiltersAreGroups(db: Database, rows: seq<Id>)
    requires AllRows(db, rows)
    ensures forall k :: IsGroup(db, Filter(db, rows, k), k) && InOrder(rows, Filter(db, rows, k))
    ensures forall d | d in db.docs :: Filter(db, rows, db.docs[d].key) != []
  {
    forall k ensures IsGroup(db, Filter(db, rows, k), k) && InOrder(rows, Filter(db, rows, k)) {
      FilterIsGroup(db, rows, k);
      FilterInOrder(db, rows, k);
    }
  }

  lemma FilterStep(db: Database, rows: seq<Id>, i: nat)
    requires i < |rows| && forall i | 0 <= i < |rows| :: rows[i] in db.docs
    ensures forall k ::
              Filter(db, rows[..i + 1], k)
              == if db.docs[rows[i]].key == k then Filter(db, rows[..i], k) + [rows[i]] else Filter(db, rows[..i], k)
  {
    assert rows[..i + 1][..i] == rows[..i];
  }

  /** Documents of this key and their versions are as they were. */
  ghost predicate Untouched(a: Database, b: Database, key: Key) {
    && (forall d | d in a.docs && a.docs[d].key == key :: d in b.docs && b.docs[d] == a.docs[d])
    && forall v | v in a.versions && a.versions[v].document in a.docs && a.docs[a.versions[v].document].key == key ::
         v in b.versions && b.versions[v] == a.versions[v]
  }

  lemma StillUntouched(a: Database, b: Database, c: Database, key: Key, other: Key)
    requires Untouched(a, b, other) && Local(b, c, key) && key != other && Placed(a.docs, a.versions)
    ensures Untouched(a, c, other)
  {
    forall v | v in a.versions && a.docs[a.versions[v].document].key == other
      ensures v in c.versions && c.versions[v] == a.versions[v]
    {
      assert b.docs[b.versions[v].document].key == other;
    }
  }

  lemma StillGroup(a: Database, b: Database, group: seq<Id>, key: Key)
    requires IsGroup(a, group, key) && Untouched(a, b, key) && DocsKept(a, b)
    ensures IsGroup(b, group, key)
  {
  }

  lemma CurrentsKept(a: Database, b: Database, key: Key)
    requires Untouched(a, b, key) && DocsKept(a, b) && VersionsKept(a, b) && OwnCurrents(a) && Placed(a.docs, a.versions)
    ensures forall d | d in b.docs && b.docs[d].key == key ::
              (CurrentIndexed(b, d) <==> CurrentIndexed(a, d)) && OwnCurrent(b, d)
  {
  }

  lemma SettledSince(a: Database, b: Database, c: Database, key: Key)
    requires Untouched(a, b, key) && DocsKept(a, b) && VersionsKept(a, b) && OwnCurrents(a) && Placed(a.docs, a.versions)
    requires Settled(b, c, key)
    ensures Settled(a, c, key)
  {
    CurrentsKept(a, b, key);
    var x :| SettledAt(b, c, key, x);
    assert forall d :: d in a.docs && a.docs[d].key == key <==> d in b.docs && b.docs[d].key == key;
    assert forall d | d in a.docs && a.docs[d].key == key :: a.docs[d] == b.docs[d];
    if !(forall d | d in a.docs && a.docs[d].key == key :: d == x) {
      var l :| FromLatest(b, c.docs[x], key, l);
      assert FromLatest(a, c.docs[x], key, l);
      assert Chosen(a, c, key, x);
    }
    assert SettledAt(a, c, key, x);
  }

  lemma StaysSettled(a: Database, b: Database, c: Database, key: Key, other: Key)
    requires Settled(a, b, other) && Local(b, c, key) && key != other
    requires DocsKept(a, b) && DocsKept(b, c) && VersionsKept(b, c)
    requires Placed(b.docs, b.versions) && Placed(c.docs, c.versions)
    ensures Settled(a, c, other)
  {
    var x :| SettledAt(a, b, other, x);
    assert b.docs[x].key == other;
    assert forall v :: Belongs(c, v, x) <==> Belongs(b, v, x);
    assert SettledAt(a, c, other, x);
  }

  ghost predicate Remaining(a: Database, b: Database, keys: seq<Key>, n: nat)
    requires n <= |keys|
  {
    && (forall i | 0 <= i < n :: Settled(a, b, keys[i]))
    && forall i | n <= i < |keys| :: Untouched(a, b, keys[i])
  }

  lemma Parts(db: Database)
    requires Sound(db)
    ensures Placed(db.docs, db.versions)
  {
  }

  lemma DerivedParts(a: Database, b: Database)
    requires Derived(a, b)
    ensures DocsKept(a, b) && VersionsKept(a, b)
  {
  }

  lemma NextSettled(a: Database, b: Database, c: Database, keys: seq<Key>, n: nat)
    requires Sound(a) && OwnCurrents(a) && Sound(b) && Sound(c) && Derived(a, b) && Derived(b, c)
    requires n < |keys| && Remaining(a, b, keys, n) && Local(b, c, keys[n]) && Settled(b, c, keys[n])
    requires forall i, j | 0 <= i < j < |keys| :: keys[i] != keys[j]
    ensures Remaining(a, c, keys, n + 1)
  {
    hide Sound, Derived, Local, Settled, Untouched, DocsKept, VersionsKept, Placed, OwnCurrents;
    Parts(a);
    Parts(b);
    Parts(c);
    DerivedParts(a, b);
    DerivedParts(b, c);
    forall i | 0 <= i < n + 1 ensures Settled(a, c, keys[i]) {
      if i < n {
        StaysSettled(a, b, c, keys[n], keys[i]);
      } else {
        SettledSince(a, b, c, keys[n]);
      }
    }
    forall i | n + 1 <= i < |keys| ensures Untouched(a, c, keys[i]) {
      StillUntouched(a, b, c, keys[n], keys[i]);
    }
  }

  lemma AloneIsSettled(a: Database, b: Database, group: seq<Id>, key: Key)
    requires Sound(a) && OwnCurrents(a) && IsGroup(a, group, key) && |group| == 1 && Untouched(a, b, key)
    requires DocsKept(a, b) && VersionsKept(a, b)
    ensures Settled(a, b, key)
  {
    CurrentsKept(a, b, key);
    var c := group[0];
    assert forall d | d in a.docs && a.docs[d].key == key :: d == c;
    assert SettledAt(a, b, key, c);
  }

  ghost predicate Precedes(rows: seq<Id>, d: Id, c: Id) {
    exists p, q | 0 <= p < q < |rows| :: rows[p] == d && rows[q] == c
  }

  ghost predicate Copies(db: Database, c: Id, d: Id) {
    c in db.docs && d in db.docs && db.docs[d].key == db.docs[c].key
  }

  /** `c` was kept although no copy before it is as good, with the data of a copy that none before it is as late as. */
  ghost predicate FirstChoice(db: Database, rows: seq<Id>, row: Document, c: Id) {
    && c in db.docs
    && (forall d | Copies(db, c, d) && Precedes(rows, d, c) :: !AsGood(db, d, c))
    && ((exists d :: Copies(db, c, d) && d != c) ==>
          exists l :: LastUpdated(db, rows, row, c, l))
  }

  ghost predicate LastUpdated(db: Database, rows: seq<Id>, row: Document, c: Id, l: Id)
    requires c in db.docs
  {
    && FromLatest(db, row, db.docs[c].key, l)
    && forall d | Copies(db, c, d) && Precedes(rows, d, l) :: db.docs[d].updatedAt < db.docs[l].updatedAt
  }

  ghost predicate FirstChoices(db: Database, rows: seq<Id>, b: Database, keys: seq<Key>, n: nat)
    requires n <= |keys|
  {
    forall c, i | c in b.docs && 0 <= i < n && b.docs[c].key == keys[i] :: FirstChoice(db, rows, b.docs[c], c)
  }

  lemma Earlier(rows: seq<Id>, group: seq<Id>, d: Id, k: nat)
    requires InOrder(rows, group) && k < |group| && d in group && Precedes(rows, d, group[k])
    requires forall i, j | 0 <= i < j < |rows| :: rows[i] != rows[j]
    ensures exists i | 0 <= i < k :: group[i] == d
  {
    var p, q :| 0 <= p < q < |rows| && rows[p] == d && rows[q] == group[k];
    var i :| 0 <= i < |group| && group[i] == d;
    assert i < k;
  }

  lemma AloneChoice(a: Database, rows: seq<Id>, b: Database, group: seq<Id>, key: Key, c: Id)
    requires IsGroup(a, group, key) && |group| < 2 && c in b.docs && b.docs[c].key == key && DocsKept(a, b)
    ensures FirstChoice(a, rows, b.docs[c], c)
    requires forall i, j | 0 <= i < j < |rows| :: rows[i] != rows[j]
  {
    forall d | Copies(a, c, d) ensures d == c {
      assert d in group && c in group;
    }
  }

  lemma GroupChoice(a: Database, rows: seq<Id>, b: Database, out: Database, group: seq<Id>, key: Key, c: Id)
    requires AllRows(a, rows) && IsGroup(a, group, key) && InOrder(rows, group)
    requires Untouched(a, b, key) && DocsKept(a, b) && VersionsKept(a, b) && OwnCurrents(a) && Placed(a.docs, a.versions)
    requires IsGroup(b, group, key) && FirstOfGroup(b, group, out, key) && c in out.docs && out.docs[c].key == key
    ensures FirstChoice(a, rows, out.docs[c], c)
  {
    hide VersionsKept, Placed, OwnCurrents, AllRows, Untouched, DocsKept, AsGood, InOrder, Precedes;
    SameGoods(a, b, group, key);
    RowsDiffer(a, rows);
    var k :| 0 <= k < |group| && group[k] == c && forall i | 0 <= i < k :: !AsGood(b, group[i], c);
    forall d | Copies(a, c, d) && Precedes(rows, d, c) ensures !AsGood(a, d, c) {
      assert d in group;
      Earlier(rows, group, d, k);
    }
    GroupLatest(a, rows, b, out.docs[c], group, key, c);
  }

  lemma GroupLatest(a: Database, rows: seq<Id>, b: Database, row: Document, group: seq<Id>, key: Key, c: Id)
    requires IsGroup(a, group, key) && InOrder(rows, group) && c in group
    requires forall i, j | 0 <= i < j < |rows| :: rows[i] != rows[j]
    requires IsGroup(b, group, key) && forall d | d in group :: d in a.docs && d in b.docs && b.docs[d] == a.docs[d]
    requires exists k | 0 <= k < |group| ::
               FromLatest(b, row, key, group[k]) && forall i | 0 <= i < k :: b.docs[group[i]].updatedAt < b.docs[group[k]].updatedAt
    ensures exists l :: LastUpdated(a, rows, row, c, l)
  {
    hide InOrder, Precedes;
    var k :| 0 <= k < |group| && FromLatest(b, row, key, group[k])
             && forall i | 0 <= i < k :: b.docs[group[i]].updatedAt < b.docs[group[k]].updatedAt;
    forall d | Copies(a, c, d) && Precedes(rows, d, group[k]) ensures a.docs[d].updatedAt < a.docs[group[k]].updatedAt {
      assert d in group;
      Earlier(rows, group, d, k);
    }
    assert LastUpdated(a, rows, row, c, group[k]);
  }

  lemma RowsDiffer(a: Database, rows: seq<Id>)
    requires AllRows(a, rows)
    ensures forall i, j | 0 <= i < j < |rows| :: rows[i] != rows[j]
  {
  }

  lemma SameGoods(a: Database, b: Database, group: seq<Id>, key: Key)
    requires IsGroup(a, group, key) && IsGroup(b, group, key)
    requires Untouched(a, b, key) && DocsKept(a, b) && VersionsKept(a, b) && OwnCurrents(a) && Placed(a.docs, a.versions)
    ensures forall d | d in group :: d in a.docs && d in b.docs && b.docs[d] == a.docs[d]
    ensures forall d, e | d in group && e in group :: AsGood(a, d, e) <==> AsGood(b, d, e)
  {
    CurrentsKept(a, b, key);
  }

  lemma ChoicesKept(
    a: Database, rows: seq<Id>, b: Database, out: Database, keys: seq<Key>, n: nat)
    requires n < |keys| && FirstChoices(a, rows, b, keys, n) && DocsKept(b, out) && Local(b, out, keys[n])
    requires forall i, j | 0 <= i < j < |keys| :: keys[i] != keys[j]
    requires forall c | c in out.docs && out.docs[c].key == keys[n] :: FirstChoice(a, rows, out.docs[c], c)
    ensures FirstChoices(a, rows, out, keys, n + 1)
  {
    hide FirstChoice;
  }

  lemma AloneChoices(a: Database, rows: seq<Id>, b: Database, group: seq<Id>, keys: seq<Key>, n: nat)
    requires AllRows(a, rows) && n < |keys| && IsGroup(a, group, keys[n]) && |group| < 2
    requires DocsKept(a, b) && FirstChoices(a, rows, b, keys, n)
    ensures FirstChoices(a, rows, b, keys, n + 1)
  {
    hide FirstChoice;
    RowsDiffer(a, rows);
    forall c | c in b.docs && b.docs[c].key == keys[n] ensures FirstChoice(a, rows, b.docs[c], c) {
      AloneChoice(a, rows, b, group, keys[n], c);
    }
  }

  lemma GroupChoices(a: Database, rows: seq<Id>, b: Database, out: Database, group: seq<Id>, keys: seq<Key>, n: nat)
    requires Sound(a) && OwnCurrents(a) && AllRows(a, rows) && n < |keys| && forall i, j | 0 <= i < j < |keys| :: keys[i] != keys[j]
    requires IsGroup(a, group, keys[n]) && InOrder(rows, group) && IsGroup(b, group, keys[n]) && Untouched(a, b, keys[n])
    requires DocsKept(a, b) && VersionsKept(a, b) && Derived(b, out) && Local(b, out, keys[n])
    requires FirstOfGroup(b, group, out, keys[n]) && FirstChoices(a, rows, b, keys, n)
    ensures FirstChoices(a, rows, out, keys, n + 1)
  {
    hide Sound, Derived, FirstChoice, FirstChoices, FirstOfGroup, Local, VersionsKept, Untouched, IsGroup, InOrder, AllRows, OwnCurrents;
    Parts(a);
    DerivedParts(b, out);
    forall c | c in out.docs && out.docs[c].key == keys[n] ensures FirstChoice(a, rows, out.docs[c], c) {
      GroupChoice(a, rows, b, out, group, keys[n], c);
    }
    ChoicesKept(a, rows, b, out, keys, n);
  }

  /** Documents are merged to one per tenant and key. No row is left pointing at a document or version
      that is gone, each document's hashes stay distinct, every content is kept under its key with
      its parts and jobs, every audit event still tells of the same key and content, and each key
      is settled: an INDEXED version is current if some copy's current version was INDEXED. */
  method Deduplicate(db: Database, rows: seq<Id>) returns (out: Database)
    requires Sound(db) && OwnCurrents(db) && AllRows(db, rows)
    ensures Sound(out) && OwnCurrents(out) && Derived(db, out) && LooseKept(db, out)
    ensures forall d | d in db.docs :: Settled(db, out, db.docs[d].key)
    ensures forall c, d | c in out.docs && d in out.docs && out.docs[c].key == out.docs[d].key :: c == d
    ensures forall key :: Hashes(out, key) == Hashes(db, key)
    ensures forall c | c in out.docs :: FirstChoice(db, rows, out.docs[c], c)
  {
    hide FirstChoice, FirstOfGroup, InOrder, Sound, OwnCurrents, Derived, Settled, Untouched, Local, IsGroup, Hashes, LooseKept;
    var keys, groups := GroupRows(db, rows);
    out := db;
    Beginning(db);
    LooseUnchanged(db);
    for i := 0 to |keys|
      invariant Sound(out) && Derived(db, out) && LooseKept(db, out) && Remaining(db, out, keys, i)
      invariant FirstChoices(db, rows, out, keys, i)
    {
      ghost var before := out;
      var group := groups[keys[i]];
      GroupAgain(db, out, group, keys[i]);
      if |group| < 2 {
        AloneIsSettled(db, out, group, keys[i]);
        AloneChoices(db, rows, out, group, keys, i);
      } else {
        out := MergeGroup(out, group, keys[i]);
        NextSettled(db, before, out, keys, i);
        DerivedTransitive(db, before, out);
        LooseChains(db, before, out);
        GroupChoices(db, rows, before, out, group, keys, i);
      }
    }
    assert forall d | d in db.docs :: db.docs[d].key in keys;
    DerivedParts(db, out);
    OnePerKey(db, out);
    HashesConserved(db, out);
  }

  /** The content hashes stored under a key. */
  ghost function Hashes(db: Database, key: Key): set<string> {
    set v | v in db.versions && db.versions[v].document in db.docs && db.docs[db.versions[v].document].key == key ::
      db.versions[v].hash
  }

  lemma HashesConserved(a: Database, b: Database)
    requires Sound(a) && Sound(b) && Derived(a, b)
    ensures forall key :: Hashes(b, key) == Hashes(a, key)
  {
    hide Placed, Distinct, VersionsKept, HashesKept;
    forall key ensures Hashes(b, key) == Hashes(a, key) {
      HashesStay(a, b, key);
      NoNewHashes(a, b, key);
    }
  }

  lemma HashesStay(a: Database, b: Database, key: Key)
    requires HashesKept(a, b)
    ensures Hashes(a, key) <= Hashes(b, key)
  {
    forall h | h in Hashes(a, key) ensures h in Hashes(b, key) {
      var v :| v in a.versions && a.versions[v].document in a.docs && a.docs[a.versions[v].document].key == key
               && a.versions[v].hash == h;
      var w :| w in b.versions && SameContent(a, v, b, w);
    }
  }

  lemma NoNewHashes(a: Database, b: Database, key: Key)
    requires VersionsKept(a, b)
    ensures Hashes(b, key) <= Hashes(a, key)
  {
  }

  lemma Beginning(db: Database)
    requires Sound(db)
    ensures Derived(db, db) && forall key :: Untouched(db, db, key)
  {
    hide HashesKept, VersionsKept, Placed, Distinct;
    SameVersions(db, db);
  }

  lemma GroupAgain(a: Database, b: Database, group: seq<Id>, key: Key)
    requires Sound(a) && OwnCurrents(a) && Derived(a, b) && IsGroup(a, group, key) && Untouched(a, b, key)
    ensures IsGroup(b, group, key) && DocsKept(a, b) && VersionsKept(a, b) && forall d | d in group :: OwnCurrent(b, d)
  {
    hide OwnCurrent, OwnCurrents, Sound, Derived, VersionsKept, Untouched, Placed;
    Parts(a);
    DerivedParts(a, b);
    StillGroup(a, b, group, key);
    CurrentsKept(a, b, key);
  }

  lemma OnePerKey(a: Database, b: Database)
    requires DocsKept(a, b) && forall d | d in a.docs :: Settled(a, b, a.docs[d].key)
    ensures OwnCurrents(b)
    ensures forall c, d | c in b.docs && d in b.docs && b.docs[c].key == b.docs[d].key :: c == d
  {
    forall c | c in b.docs
      ensures OwnCurrent(b, c) && forall d | d in b.docs && b.docs[c].key == b.docs[d].key :: c == d
    {
      assert Settled(a, b, a.docs[c].key);
      var x :| SettledAt(a, b, b.docs[c].key, x);
    }
  }
}
