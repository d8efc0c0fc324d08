/** The acceptance service: validation, idempotent replay, and the upserts and deletes that
    create versions and jobs. */
module IngestionService {
  import opened Options
  import opened IngestionModel
  import opened IngestionSteps
  import opened IngestionSafety
  import opened IngestionLiveness
  import opened IngestionWorker
  import opened IngestionOutcomes

  datatype Operation = Upsert | Remove

  /** A connector's delivery: the declared metadata, and what storing its stream would give.
      `fingerprint` stands for the digest of the connector and the whole metadata. */
  datatype Delivery = Delivery(
    tenant: Id, connector: Id, operation: Operation, key: string, fingerprint: string,
    hash: Option<string>, dated: bool, hasStream: bool, mimeMatches: bool, declaredSize: nat,
    storageFails: bool, storedSize: nat, storedHash: string)

  datatype ErrorCode =
    | IdempotencyConflict | InvalidMetadata | ValidationFailed | MimeMismatch | SizeMismatch
    | StorageUnavailable | HashMismatch | DocumentNotFound

  datatype Acknowledgement = Acknowledgement(document: Id, version: Option<Id>, hash: Option<string>, status: Option<IngestionStatus>)

  datatype Reply = Accepted(ack: Acknowledgement) | Rejected(code: ErrorCode)

  datatype DeliveryKey = DeliveryKey(tenant: Id, connector: Id, key: string)

  datatype Recorded = Recorded(fingerprint: string, ack: Acknowledgement, expiresAt: int)

  class DocumentIngestionService {
    const repository: DocumentRepository
    const maxUpload: nat
    const lifetime: nat
    var idempotency: map<DeliveryKey, Recorded>

    constructor (repository: DocumentRepository, maxUpload: nat, lifetime: nat)
      ensures this.repository == repository && idempotency == map[] && this.maxUpload == maxUpload && this.lifetime == lifetime
    {
      this.repository, this.maxUpload, this.lifetime := repository, maxUpload, lifetime;
      idempotency := map[];
    }

    /** The first check an upsert fails, in the order they are made. */
    function Refusal(m: Delivery): Option<ErrorCode> {
      if m.hash.None? || !m.dated then Some(InvalidMetadata)
      else if !m.hasStream then Some(ValidationFailed)
      else if !m.mimeMatches then Some(MimeMismatch)
      else if m.declaredSize > maxUpload then Some(SizeMismatch)
      else if m.storageFails then Some(StorageUnavailable)
      else if m.storedSize > maxUpload || m.storedSize != m.declaredSize then Some(SizeMismatch)
      else if m.storedHash != m.hash.value then Some(HashMismatch)
      else None
    }

    /** The upsert is in order up to the storing of its stream. */
    static predicate WellFormed(m: Delivery) {
      m.hash.Some? && m.dated && m.hasStream && m.mimeMatches
    }

    /** What each answer to a fresh upsert says of the delivery. */
    static predicate Explains(reply: Reply, m: Delivery, max: nat) {
      && (reply.Accepted? <==>
            && m.hash == Some(m.storedHash) && m.dated && m.hasStream && m.mimeMatches && !m.storageFails
            && m.storedSize == m.declaredSize <= max)
      && (reply == Rejected(InvalidMetadata) <==> m.hash.None? || !m.dated)
      && (reply == Rejected(ValidationFailed) <==> m.hash.Some? && m.dated && !m.hasStream)
      && (reply == Rejected(MimeMismatch) <==> m.hash.Some? && m.dated && m.hasStream && !m.mimeMatches)
      && (reply == Rejected(StorageUnavailable) <==> WellFormed(m) && m.declaredSize <= max && m.storageFails)
      && (reply == Rejected(SizeMismatch) <==>
            WellFormed(m) && (m.declaredSize > max || (!m.storageFails && m.storedSize != m.declaredSize)))
      && (reply == Rejected(HashMismatch) <==>
            && WellFormed(m) && !m.storageFails && m.storedSize == m.declaredSize <= max
            && m.hash != Some(m.storedHash))
    }

    /** The rows an accepted upsert leaves: the document of the key is live with the acknowledged version,
        which is its version of that content if it had one, and else the new one; a version that was not
        already current and INDEXED is RECEIVED and has a job. */
    static ghost predicate Kept(t: IngestionModel.Store, r: IngestionModel.Store, m: Delivery, ack: Acknowledgement, d: Id, v: Id) {
      && ack.version.Some? && ack.hash == m.hash && ack.hash.Some?
      && var x, w := ack.document, ack.version.value;
      && (if exists y :: y in t.docs && t.docs[y].tenant == m.tenant && t.docs[y].key == m.key
          then x in t.docs && t.docs[x].tenant == m.tenant && t.docs[x].key == m.key else x == d)
      && (if exists y :: y in t.versions && t.versions[y].document == x && t.versions[y].hash == ack.hash.value
          then w in t.versions && t.versions[w].document == x && t.versions[w].hash == ack.hash.value else w == v)
      && r == t.(docs := r.docs, versions := r.versions, jobs := r.jobs)
      && r.docs == t.docs[x := Document(m.tenant, m.key, false, Some(w))]
      && (if w !in t.versions then
            && r.versions == t.versions[w := Version(m.tenant, x, ack.hash.value, Received, None)]
            && Queues(t, r, m.tenant, x, w, ParseDocument)
          else if x in t.docs && t.docs[x].current == Some(w) && t.versions[w].status == Indexed then
            r.versions == t.versions && r.jobs == t.jobs
          else
            && r.versions == t.versions[w := t.versions[w].(status := Received, error := None)]
            && Queues(t, r, m.tenant, x, w, ReindexDocument))
      && ack.status == Some(r.versions[w].status)
    }

    /** The rows an accepted deletion leaves: the tombstone, and a DELETE job if it was not there before. */
    static ghost predicate Tombstoned(t: IngestionModel.Store, r: IngestionModel.Store, m: Delivery, ack: Acknowledgement) {
      var x := ack.document;
      && x in t.docs && t.docs[x].tenant == m.tenant && t.docs[x].key == m.key
      && ack == Acknowledgement(x, None, None, None)
      && r == t.(docs := t.docs[x := t.docs[x].(deleted := true)], jobs := r.jobs)
      && r.jobs == t.jobs + if t.docs[x].deleted || exists k | 0 <= k < |t.jobs| ::
                                 t.jobs[k].document == x && t.jobs[k].jobType == DeleteFromIndex && IsActive(t.jobs[k])
                            then [] else [Job(m.tenant, x, None, DeleteFromIndex, Pending, 0, t.maxAttempts, None, None)]
    }

    /** `accept`. A delivery seen before is answered from its record and changes nothing; a key
        reused for something else is refused; a refused delivery changes nothing; everything
        else is exactly one Upload, Repeat or Delete of the transition system. `d` and `v` are
        the ids drawn for rows that may be created. */
    method Accept(m: Delivery, idempotencyKey: string, now: int, d: Id, v: Id) returns (reply: Reply)
      requires repository.Valid(Idle) && d !in repository.docs && v !in repository.versions
      modifies this`idempotency, repository
      ensures repository.Valid(Idle)
      ensures
        var k := DeliveryKey(m.tenant, m.connector, idempotencyKey);
        var t, r := old(repository.Snapshot()), repository.Snapshot();
        if k in old(idempotency) && now < old(idempotency)[k].expiresAt then
          && r == t && repository.trace == old(repository.trace) && idempotency == old(idempotency)
          && reply == if old(idempotency)[k].fingerprint == m.fingerprint then Accepted(old(idempotency)[k].ack)
                      else Rejected(IdempotencyConflict)
        else
          && (m.operation.Upsert? ==> Explains(reply, m, maxUpload))
          && (m.operation.Remove? ==>
                && (reply.Accepted? <==> exists x :: x in t.docs && t.docs[x].tenant == m.tenant && t.docs[x].key == m.key)
                && (reply.Rejected? ==> reply.code == DocumentNotFound))
          && if reply.Rejected? then r == t && repository.trace == old(repository.trace) && idempotency == old(idempotency)
             else
               && (m.operation.Upsert? ==> Kept(t, r, m, reply.ack, d, v))
               && (m.operation.Remove? ==> Tombstoned(t, r, m, reply.ack))
               && idempotency == old(idempotency)[k := Recorded(m.fingerprint, reply.ack, now + lifetime)]
               && IsLogical(r, reply.ack.document, m.tenant, m.key)
               && |repository.trace| == |old(repository.trace)| + 1 && old(repository.trace) <= repository.trace
               && Answers(repository.trace[|old(repository.trace)|], m, reply.ack)
    {
      var k := DeliveryKey(m.tenant, m.connector, idempotencyKey);
      if k in idempotency && now < idempotency[k].expiresAt {
        if idempotency[k].fingerprint != m.fingerprint {
          return Rejected(IdempotencyConflict);
        }
        return Accepted(idempotency[k].ack);
      }
      if m.operation.Remove? {
        reply := Delete(m);
      } else if Refusal(m).Some? {
        reply := Rejected(Refusal(m).value);
      } else {
        reply := Store(m, d, v);
      }
      if reply.Accepted? {
        idempotency := idempotency[k := Recorded(m.fingerprint, reply.ack, now + lifetime)];
      }
    }

    /** The event is the delivery's, and the acknowledgement names its rows. */
    static ghost predicate Answers(e: Event, m: Delivery, ack: Acknowledgement) {
      match e
      case Upload(d, tenant, key, v, hash) =>
        m.operation.Upsert? && tenant == m.tenant && key == m.key && Some(hash) == m.hash && ack == Acknowledgement(d, Some(v), m.hash, Some(Received))
      case Repeat(d, v) => m.operation.Upsert? && ack.document == d && ack.version == Some(v) && ack.hash == m.hash
      case Delete(d) => m.operation.Remove? && ack == Acknowledgement(d, None, None, None)
      case _ => false
    }

    method Delete(m: Delivery) returns (reply: Reply)
      requires repository.Valid(Idle) && m.operation.Remove?
      modifies repository
      ensures repository.Valid(Idle)
      ensures
        var t := old(repository.Snapshot());
        reply.Accepted? <==> exists x :: x in t.docs && t.docs[x].tenant == m.tenant && t.docs[x].key == m.key
      ensures reply.Rejected? ==>
                && repository.trace == old(repository.trace) && reply.code == DocumentNotFound
                && repository.Snapshot() == old(repository.Snapshot())
                && forall x :: !IsLogical(old(repository.Snapshot()), x, m.tenant, m.key)
      ensures reply.Accepted? ==>
                && repository.trace == old(repository.trace) + [Event.Delete(reply.ack.document)]
                && Answers(Event.Delete(reply.ack.document), m, reply.ack)
                && IsLogical(repository.Snapshot(), reply.ack.document, m.tenant, m.key)
                && Tombstoned(old(repository.Snapshot()), repository.Snapshot(), m, reply.ack)
    {
      ghost var t := repository.Snapshot();
      if d :| d in repository.docs && repository.docs[d].tenant == m.tenant && repository.docs[d].key == m.key {
        if !repository.docs[d].deleted {
          repository.docs := repository.docs[d := repository.docs[d].(deleted := true)];
          repository.EnqueueJob(m.tenant, d, None, DeleteFromIndex);
        }
        DeletionOutcome(t, d);
        repository.Record(State(t, Idle), Event.Delete(d), Idle);
        return Accepted(Acknowledgement(d, None, None, None));
      }
      return Rejected(DocumentNotFound);
    }

    /** The tail of an upsert whose stream has been stored and checked. */
    method Store(m: Delivery, newDocument: Id, v: Id) returns (reply: Reply)
      requires repository.Valid(Idle) && newDocument !in repository.docs && v !in repository.versions
      requires m.operation.Upsert? && m.hash.Some?
      modifies repository
      ensures repository.Valid(Idle) && reply.Accepted?
      ensures IsLogical(repository.Snapshot(), reply.ack.document, m.tenant, m.key)
      ensures |repository.trace| == |old(repository.trace)| + 1 && old(repository.trace) <= repository.trace
      ensures Answers(repository.trace[|old(repository.trace)|], m, reply.ack)
      ensures Kept(old(repository.Snapshot()), repository.Snapshot(), m, reply.ack, newDocument, v)
    {
      ghost var t := repository.Snapshot();
      var d := newDocument;
      if x :| x in repository.docs && repository.docs[x].tenant == m.tenant && repository.docs[x].key == m.key {
        d := x;
      }
      if w :| w in repository.versions && repository.versions[w].document == d && repository.versions[w].hash == m.hash.value {
        reply := Reuse(m, d, w, newDocument, v);
      } else {
        reply := Create(m, d, v);
      }
    }

    /** The content is new to document `d`, or the document is new itself. */
    method Create(m: Delivery, d: Id, v: Id) returns (reply: Reply)
      requires repository.Valid(Idle) && v !in repository.versions && m.operation.Upsert? && m.hash.Some?
      requires IsLogical(repository.Snapshot(), d, m.tenant, m.key)
               || (d !in repository.docs && forall x :: !IsLogical(repository.Snapshot(), x, m.tenant, m.key))
      requires forall w :: !IsHashed(repository.Snapshot(), w, d, m.hash.value)
      modifies repository
      ensures repository.Valid(Idle) && reply == Accepted(Acknowledgement(d, Some(v), m.hash, Some(Received)))
      ensures
        var t := old(repository.Snapshot());
        && repository.Snapshot() == t.(jobs := repository.jobs, docs := t.docs[d := Document(m.tenant, m.key, false, Some(v))],
                                       versions := t.versions[v := Version(m.tenant, d, m.hash.value, Received, None)])
        && Queues(t, repository.Snapshot(), m.tenant, d, v, ParseDocument)
      ensures repository.trace == old(repository.trace) + [Upload(d, m.tenant, m.key, v, m.hash.value)]
    {
      ghost var t := repository.Snapshot();
      repository.docs := repository.docs[d := Document(m.tenant, m.key, false, Some(v))];
      repository.versions := repository.versions[v := Version(m.tenant, d, m.hash.value, Received, None)];
      repository.EnqueueJob(m.tenant, d, Some(v), ParseDocument);
      UploadOutcome(t, d, m.tenant, m.key, v, m.hash.value);
      repository.Record(State(t, Idle), Upload(d, m.tenant, m.key, v, m.hash.value), Idle);
      reply := Accepted(Acknowledgement(d, Some(v), m.hash, Some(Received)));
    }

    /** The document already has this content as version `w`. */
    method Reuse(m: Delivery, d: Id, w: Id, ghost newDocument: Id, ghost v: Id) returns (reply: Reply)
      requires repository.Valid(Idle) && IsLogical(repository.Snapshot(), d, m.tenant, m.key)
      requires m.operation.Upsert? && m.hash.Some? && IsHashed(repository.Snapshot(), w, d, m.hash.value)
      modifies repository
      ensures repository.Valid(Idle) && reply.Accepted?
      ensures IsLogical(repository.Snapshot(), reply.ack.document, m.tenant, m.key)
      ensures repository.trace == old(repository.trace) + [Repeat(d, w)] && Answers(Repeat(d, w), m, reply.ack)
      ensures Kept(old(repository.Snapshot()), repository.Snapshot(), m, reply.ack, newDocument, v)
    {
      hide IsRun, After;
      ghost var t := repository.Snapshot();
      var requiresReindex := repository.docs[d].current != Some(w) || repository.versions[w].status != Indexed;
      repository.docs := repository.docs[d := repository.docs[d].(deleted := false, current := Some(w))];
      var status := repository.versions[w].status;
      if requiresReindex {
        repository.versions := repository.versions[w := repository.versions[w].(status := Received, error := None)];
        repository.EnqueueJob(m.tenant, d, Some(w), ReindexDocument);
        status := Received;
      }
      RepeatOutcome(t, d, w);
      repository.Record(State(t, Idle), Repeat(d, w), Idle);
      reply := Accepted(Acknowledgement(d, Some(w), m.hash, Some(status)));
    }
  }
}
