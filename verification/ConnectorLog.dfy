/** Connectors, the single-use tokens they register with, and the append-only event log. Every call
    of the service is one transaction with one clock reading, in microseconds, except a revocation,
    which reads its token without a lock: its reading and its writing are two steps. */
module ConnectorLog {
  import opened Options

  type Id = nat
  type Time = int

  const SECOND: nat := 1000000
  const TOKEN_LIFETIME: nat := 30 * 60 * SECOND
  const HEARTBEAT_INTERVAL: nat := 300
  const FAILURE_THRESHOLD: nat := 3

  // ------------------------------------------------------------------- rows

  datatype Status = Connected | InSync | Degraded | OutOfSync | Disconnected | AuthenticationFailed | Retired

  datatype Token = Token(
    tenant: Id, expiresAt: Time, usedAt: Option<Time>, revokedAt: Option<Time>, expirationRecordedAt: Option<Time>)

  datatype Sources = Sources(total: nat, healthy: nat, unhealthy: nat, disabled: nat)

  datatype Connector = Connector(
    tenant: Id, instance: Id, status: Status, lastHeartbeatAt: Option<Time>, interval: nat, sources: Sources,
    missed: nat, failures: nat, retiredAt: Option<Time>)

  datatype Kind =
    | TokenGenerated | TokenRevoked | TokenUsed | TokenExpired | TokenFailed
    | Registered | HeartbeatReceived | SourceHealthChanged | AuthenticationFailure
    | StatusChanged(previous: Status, current: Status) | ConnectorRetired

  datatype Entry = Entry(kind: Kind, tenant: Id, connector: Option<Id>, token: Option<Id>, at: Time)

  /** A token's row as a revoking session has read it. */
  datatype Copy = Copy(id: Id, seen: Token)

  /** Rows are numbered in the order of their creation; `limit` is the tenant's connector limit, and
      `copies` holds the copies of the sessions that are about to revoke. */
  datatype World = World(
    tokens: seq<Token>, connectors: seq<Connector>, log: seq<Entry>, limit: Option<nat>, copies: map<Id, Copy>)

  // ----------------------------------------------------------------- status

  function Max(a: int, b: int): int {
    if a >= b then a else b
  }

  /** The status a connector's row calls for at a moment. */
  function Derive(c: Connector, now: Time): Status {
    if c.retiredAt.Some? then Retired
    else if c.failures >= FAILURE_THRESHOLD then AuthenticationFailed
    else if c.lastHeartbeatAt.None? then Disconnected
    else
      var elapsed := Max(0, now - c.lastHeartbeatAt.value);
      if elapsed >= 3 * c.interval * SECOND then Disconnected
      else if 2 * elapsed > 3 * c.interval * SECOND then OutOfSync
      else if c.sources.unhealthy > 0 then Degraded
      else Connected
  }

  /** How long the connector has been silent; a heartbeat of the future counts as just now. */
  function Silence(now: Time, heartbeat: Time): (elapsed: nat)
    ensures elapsed == 0 || elapsed == now - heartbeat
    ensures heartbeat <= now ==> elapsed == now - heartbeat
  {
    if heartbeat <= now then now - heartbeat else 0
  }

  /** What each status means; no connector is derived to be in sync. */
  ghost predicate Means(s: Status, c: Connector, now: Time) {
    var alive := c.retiredAt.None? && c.failures < 3;
    match s
    case Retired => c.retiredAt.Some?
    case AuthenticationFailed => c.retiredAt.None? && c.failures >= 3
    case Disconnected =>
      alive && (c.lastHeartbeatAt.None? || Silence(now, c.lastHeartbeatAt.value) >= c.interval * 3000000)
    case OutOfSync =>
      alive && c.lastHeartbeatAt.Some?
      && c.interval * 1500000 < Silence(now, c.lastHeartbeatAt.value) < c.interval * 3000000
    case Degraded =>
      alive && c.lastHeartbeatAt.Some? && c.interval > 0
      && Silence(now, c.lastHeartbeatAt.value) <= c.interval * 1500000 && c.sources.unhealthy > 0
    case Connected =>
      alive && c.lastHeartbeatAt.Some? && c.interval > 0
      && Silence(now, c.lastHeartbeatAt.value) <= c.interval * 1500000 && c.sources.unhealthy == 0
    case InSync => false
  }

  lemma DeriveIff(c: Connector, now: Time, s: Status)
    ensures Derive(c, now) == s <==> Means(s, c, now)
  {
  }

  /** `row` is the connector with the status its row calls for and the counter of missed heartbeats that goes with it. */
  ghost predicate Refreshed(c: Connector, row: Connector, now: Time) {
    && row == c.(status := row.status, missed := row.missed) && Means(row.status, c, now)
    && row.missed == if c.lastHeartbeatAt.None? then 0 else match row.status
                     case OutOfSync => 2
                     case Disconnected => 3
                     case AuthenticationFailed | Retired => c.missed
                     case _ => 0
  }

  lemma RecalculatedIs(c: Connector, now: Time)
    ensures Refreshed(c, Recalculated(c, now), now)
  {
    hide Means;
    DeriveIff(c, now, Derive(c, now));
  }

  function Recalculated(c: Connector, now: Time): Connector {
    var current := Derive(c, now);
    c.(status := current,
       missed := if c.lastHeartbeatAt.None? then 0
                 else if current == OutOfSync then 2
                 else if current == Disconnected then 3
                 else if current in {AuthenticationFailed, Retired} then c.missed
                 else 0)
  }

  function Rank(s: Status): nat {
    match s
    case Connected | InSync | Degraded => 0
    case OutOfSync => 1
    case _ => 2
  }

  /** While nothing is heard from a connector its status only decays, and ends disconnected. */
  lemma DeriveDecays(c: Connector, earlier: Time, later: Time)
    requires earlier <= later
    ensures Rank(Derive(c, earlier)) <= Rank(Derive(c, later))
    ensures Rank(Derive(c, earlier)) == Rank(Derive(c, later)) ==> Derive(c, earlier) == Derive(c, later)
    ensures Derive(c, earlier) == Disconnected ==> Derive(c, later) == Disconnected
  {
  }

  // -------------------------------------------------------------- operations

  function Note(w: World, kind: Kind, tenant: Id, connector: Option<Id>, token: Option<Id>, now: Time): World {
    w.(log := w.log + [Entry(kind, tenant, connector, token, now)])
  }

  /** Store a connector's row, logging a change of its status. */
  function Put(w: World, id: Id, row: Connector, now: Time): World
    requires id < |w.connectors|
  {
    var was := w.connectors[id];
    var v := w.(connectors := w.connectors[id := row]);
    if was.status != row.status
    then Note(v, StatusChanged(was.status, row.status), row.tenant, Some(id), None, now) else v
  }

  function CreateToken(w: World, tenant: Id, now: Time): World {
    var v := w.(tokens := w.tokens + [Token(tenant, now + TOKEN_LIFETIME, None, None, None)]);
    Note(v, TokenGenerated, tenant, None, Some(|w.tokens|), now)
  }

  predicate ExpiryUnrecorded(t: Token, now: Time) {
    t.usedAt.None? && t.revokedAt.None? && t.expiresAt <= now && t.expirationRecordedAt.None?
  }

  function Expire(w: World, id: Id, now: Time): World {
    if id < |w.tokens| && ExpiryUnrecorded(w.tokens[id], now) then
      Note(w.(tokens := w.tokens[id := w.tokens[id].(expirationRecordedAt := Some(now))]),
           TokenExpired, w.tokens[id].tenant, None, Some(id), now)
    else w
  }

  function ExpireAll(w: World, ids: seq<Id>, now: Time): World {
    if ids == [] then w else Expire(ExpireAll(w, ids[..|ids| - 1], now), ids[|ids| - 1], now)
  }

  /** A session reads the token it is to revoke; an unknown token ends the call. */
  function ReadToken(w: World, session: Id, tenant: Id, id: Id): World {
    if id < |w.tokens| && w.tokens[id].tenant == tenant
    then w.(copies := w.copies[session := Copy(id, w.tokens[id])])
    else w.(copies := w.copies - {session})
  }

  /** It then decides on its copy, and writes the column of the row. */
  function WriteRevocation(w: World, session: Id, now: Time): World {
    if session !in w.copies then w else
      var c := w.copies[session];
      var done := w.(copies := w.copies - {session});
      if c.seen.usedAt.None? && c.seen.revokedAt.None? && c.id < |w.tokens| then
        Note(done.(tokens := w.tokens[c.id := w.tokens[c.id].(revokedAt := Some(now))]),
             TokenRevoked, w.tokens[c.id].tenant, None, Some(c.id), now)
      else done
  }

  predicate Active(c: Connector, tenant: Id) {
    c.tenant == tenant && c.retiredAt.None?
  }

  function CountActive(connectors: seq<Connector>, tenant: Id): nat {
    if connectors == [] then 0
    else CountActive(connectors[..|connectors| - 1], tenant)
         + if Active(connectors[|connectors| - 1], tenant) then 1 else 0
  }

  predicate Occupied(connectors: seq<Connector>, tenant: Id, instance: Id) {
    exists i | 0 <= i < |connectors| :: Active(connectors[i], tenant) && connectors[i].instance == instance
  }

  datatype Registration =
    | Accepted(connector: Id)
    | NotFound | Used | Revoked | Expired | NotPermitted | TenantInactive | AlreadyRegistered | LimitReached

  /** `tenantActive` is None when the token's tenant no longer exists. */
  function Answer(w: World, id: Id, instance: Id, tenantActive: Option<bool>, now: Time): Registration {
    if id >= |w.tokens| then NotFound else
      var t := w.tokens[id];
      if t.usedAt.Some? then Used
      else if t.revokedAt.Some? then Revoked
      else if t.expiresAt <= now then Expired
      else if tenantActive.None? then NotPermitted
      else if !tenantActive.value then TenantInactive
      else if Occupied(w.connectors, t.tenant, instance) then AlreadyRegistered
      else if w.limit.Some? && CountActive(w.connectors, t.tenant) >= w.limit.value then LimitReached
      else Accepted(|w.connectors|)
  }

  function NewConnector(tenant: Id, instance: Id): Connector {
    Connector(tenant, instance, Disconnected, None, HEARTBEAT_INTERVAL, Sources(0, 0, 0, 0), 0, 0, None)
  }

  function Enrol(w: World, id: Id, instance: Id, now: Time): World
    requires id < |w.tokens|
  {
    var t, c := w.tokens[id], |w.connectors|;
    var v := w.(connectors := w.connectors + [NewConnector(t.tenant, instance)],
                tokens := w.tokens[id := t.(usedAt := Some(now))]);
    Note(Note(v, TokenUsed, t.tenant, Some(c), Some(id), now), Registered, t.tenant, Some(c), Some(id), now)
  }

  function Register(w: World, id: Id, instance: Id, tenantActive: Option<bool>, now: Time): World {
    match Answer(w, id, instance, tenantActive, now)
    case NotFound => w
    case Accepted(_) => Enrol(w, id, instance, now)
    case Expired => Note(Expire(w, id, now), TokenFailed, w.tokens[id].tenant, None, Some(id), now)
    case _ => Note(w, TokenFailed, w.tokens[id].tenant, None, Some(id), now)
  }

  function RecordFailure(w: World, id: Id, now: Time): World
    requires id < |w.connectors|
  {
    var c := w.connectors[id];
    Put(Note(w, AuthenticationFailure, c.tenant, Some(id), None, now), id,
        Recalculated(c.(failures := c.failures + 1), now), now)
  }

  function Heard(c: Connector, sources: Sources, now: Time): Connector {
    Recalculated(c.(lastHeartbeatAt := Some(now), sources := sources, failures := 0, missed := 0), now)
  }

  function Heartbeat(w: World, id: Id, instance: Id, sources: Sources, now: Time): World
    requires id < |w.connectors|
  {
    var c := w.connectors[id];
    if instance != c.instance then Note(w, AuthenticationFailure, c.tenant, Some(id), None, now)
    else
      var noted := Note(w, HeartbeatReceived, c.tenant, Some(id), None, now);
      var told := if c.sources != sources then Note(noted, SourceHealthChanged, c.tenant, Some(id), None, now) else noted;
      Put(told, id, Heard(c, sources, now), now)
  }

  function Recalculate(w: World, id: Id, now: Time): World {
    if id < |w.connectors| then Put(w, id, Recalculated(w.connectors[id], now), now) else w
  }

  function RecalculateAll(w: World, ids: seq<Id>, now: Time): World {
    if ids == [] then w else Recalculate(RecalculateAll(w, ids[..|ids| - 1], now), ids[|ids| - 1], now)
  }

  function Retire(w: World, tenant: Id, id: Id, now: Time): World {
    if id < |w.connectors| && w.connectors[id].tenant == tenant then
      var c := w.connectors[id];
      var v := if c.retiredAt.None?
               then Note(w.(connectors := w.connectors[id := c.(retiredAt := Some(now), status := Retired)]),
                         ConnectorRetired, tenant, Some(id), None, now)
               else w;
      Recalculate(v, id, now)
    else w
  }

  function UpTo(n: nat): (r: seq<Id>)
    ensures |r| == n && forall i | 0 <= i < n :: r[i] == i
  {
    if n == 0 then [] else UpTo(n - 1) + [n - 1]
  }

  function Maintenance(w: World, now: Time): World {
    ExpireAll(RecalculateAll(w, UpTo(|w.connectors|), now), UpTo(|w.tokens|), now)
  }

  // ---------------------------------------------- what the operations leave

  function Those(ids: seq<Id>): set<Id> {
    set i | i in ids
  }

  /** Its expiry is still to be recorded. */
  ghost predicate Lapsed(t: Token, now: Time) {
    t.usedAt.None? && t.revokedAt.None? && t.expiresAt <= now && t.expirationRecordedAt.None?
  }

  /** The expiry of every lapsed token that was looked at is recorded, on its row and by one entry of the log. */
  ghost predicate ExpiriesRecorded(w: World, v: World, looked: set<Id>, now: Time) {
    && v == w.(tokens := v.tokens, log := v.log) && |v.tokens| == |w.tokens| && w.log <= v.log
    && (forall t | 0 <= t < |w.tokens| ::
          v.tokens[t] == if t in looked && Lapsed(w.tokens[t], now) then w.tokens[t].(expirationRecordedAt := Some(now))
                         else w.tokens[t])
    && (forall i | |w.log| <= i < |v.log| ::
          && v.log[i].token.Some? && v.log[i].token.value in looked && v.log[i].token.value < |w.tokens|
          && Lapsed(w.tokens[v.log[i].token.value], now)
          && v.log[i] == Entry(TokenExpired, w.tokens[v.log[i].token.value].tenant, None, v.log[i].token, now))
    && (forall i, j | |w.log| <= i < j < |v.log| :: v.log[i].token != v.log[j].token)
    && forall t | 0 <= t < |w.tokens| && t in looked && Lapsed(w.tokens[t], now) ::
         exists i | |w.log| <= i < |v.log| :: v.log[i].token == Some(t)
  }

  lemma ExpireAlso(w: World, v: World, looked: set<Id>, id: Id, now: Time)
    requires ExpiriesRecorded(w, v, looked, now)
    ensures ExpiriesRecorded(w, Expire(v, id, now), looked + {id}, now)
  {
    var u := Expire(v, id, now);
    assert forall i | |w.log| <= i < |v.log| :: u.log[i] == v.log[i];
    if |u.log| > |v.log| {
      assert u.log[|v.log|].token == Some(id);
    }
  }

  lemma {:induction false} ExpireAllIs(w: World, ids: seq<Id>, now: Time)
    ensures ExpiriesRecorded(w, ExpireAll(w, ids, now), Those(ids), now)
  {
    hide Expire;
    if ids == [] {
    } else {
      var front, last := ids[..|ids| - 1], ids[|ids| - 1];
      ExpireAllIs(w, front, now);
      ExpireAlso(w, ExpireAll(w, front, now), Those(front), last, now);
      assert Those(ids) == Those(front) + {last};
    }
  }

  /** Every connector that was looked at has its status refreshed, and a change of it has one entry of the log. */
  ghost predicate StatusesRefreshed(w: World, v: World, looked: set<Id>, now: Time) {
    && v == w.(connectors := v.connectors, log := v.log) && |v.connectors| == |w.connectors| && w.log <= v.log
    && (forall c | 0 <= c < |w.connectors| ::
          if c in looked then Refreshed(w.connectors[c], v.connectors[c], now) else v.connectors[c] == w.connectors[c])
    && (forall i | |w.log| <= i < |v.log| ::
          && v.log[i].connector.Some? && v.log[i].connector.value in looked && v.log[i].connector.value < |w.connectors|
          && var c := v.log[i].connector.value;
             && v.connectors[c].status != w.connectors[c].status
             && v.log[i] == Entry(StatusChanged(w.connectors[c].status, v.connectors[c].status), w.connectors[c].tenant,
                                  Some(c), None, now))
    && (forall i, j | |w.log| <= i < j < |v.log| :: v.log[i].connector != v.log[j].connector)
    && forall c | 0 <= c < |w.connectors| && v.connectors[c].status != w.connectors[c].status ::
         exists i | |w.log| <= i < |v.log| :: v.log[i].connector == Some(c)
  }

  lemma RefreshedOnce(c: Connector, row: Connector, now: Time)
    requires Refreshed(c, row, now)
    ensures Recalculated(row, now) == row
  {
    DeriveIff(c, now, row.status);
  }

  lemma RecalculateAlso(w: World, v: World, looked: set<Id>, id: Id, now: Time)
    requires StatusesRefreshed(w, v, looked, now)
    ensures StatusesRefreshed(w, Recalculate(v, id, now), looked + {id}, now)
  {
    hide Refreshed, Recalculated;
    var u := Recalculate(v, id, now);
    if id < |w.connectors| {
      if id in looked {
        RefreshedOnce(w.connectors[id], v.connectors[id], now);
        assert looked + {id} == looked && u.connectors == v.connectors;
      } else {
        RecalculatedIs(w.connectors[id], now);
        RecalculatedFields(w.connectors[id], now);
        assert forall i | |w.log| <= i < |v.log| :: u.log[i] == v.log[i];
        if |u.log| > |v.log| {
          assert u.log[|v.log|].connector == Some(id);
        }
      }
    }
  }

  lemma RecalculatedFields(c: Connector, now: Time)
    ensures Recalculated(c, now).tenant == c.tenant
  {
  }

  lemma {:induction false} RecalculateAllIs(w: World, ids: seq<Id>, now: Time)
    ensures StatusesRefreshed(w, RecalculateAll(w, ids, now), Those(ids), now)
  {
    hide Recalculate;
    if ids == [] {
    } else {
      var front, last := ids[..|ids| - 1], ids[|ids| - 1];
      RecalculateAllIs(w, front, now);
      RecalculateAlso(w, RecalculateAll(w, front, now), Those(front), last, now);
      assert Those(ids) == Those(front) + {last};
    }
  }

  /** Every connector was refreshed, and then every expiry recorded. */
  ghost predicate Maintained(w: World, v: World, now: Time) {
    exists middle | StatusesRefreshed(w, middle, Those(UpTo(|w.connectors|)), now) ::
      ExpiriesRecorded(middle, v, Those(UpTo(|w.tokens|)), now)
  }

  lemma MaintenanceIs(w: World, now: Time)
    ensures Maintained(w, Maintenance(w, now), now)
  {
    hide StatusesRefreshed, ExpiriesRecorded, RecalculateAll, ExpireAll;
    var v := RecalculateAll(w, UpTo(|w.connectors|), now);
    RecalculateAllIs(w, UpTo(|w.connectors|), now);
    ExpireAllIs(v, UpTo(|w.tokens|), now);
  }

  datatype Event =
    | Creating(now: Time, tenant: Id)
    | Listing(now: Time, tokens: seq<Id>)
    | Reading(now: Time, session: Id, tenant: Id, token: Id)
    | Writing(now: Time, session: Id)
    | Registering(now: Time, token: Id, instance: Id, tenantActive: Option<bool>)
    | Failing(now: Time, connector: Id)
    | Beating(now: Time, connector: Id, instance: Id, sources: Sources)
    | Viewing(now: Time, connectors: seq<Id>)
    | Retiring(now: Time, tenant: Id, connector: Id)
    | Maintaining(now: Time)

  function Step(w: World, e: Event): World {
    match e
    case Creating(now, tenant) => CreateToken(w, tenant, now)
    case Listing(now, ids) => ExpireAll(w, ids, now)
    case Reading(_, session, tenant, id) => ReadToken(w, session, tenant, id)
    case Writing(now, session) => WriteRevocation(w, session, now)
    case Registering(now, id, instance, active) => Register(w, id, instance, active, now)
    case Failing(now, id) => if id < |w.connectors| then RecordFailure(w, id, now) else w
    case Beating(now, id, instance, sources) => if id < |w.connectors| then Heartbeat(w, id, instance, sources, now) else w
    case Viewing(now, ids) => RecalculateAll(w, ids, now)
    case Retiring(now, tenant, id) => Retire(w, tenant, id, now)
    case Maintaining(now) => Maintenance(w, now)
  }

  /** The clock does not run backwards. */
  predicate IsRun(clock: Time, events: seq<Event>)
    decreases |events|
  {
    events == [] || (clock <= events[0].now && IsRun(events[0].now, events[1..]))
  }

  function After(w: World, events: seq<Event>): World
    decreases |events|
  {
    if events == [] then w else After(Step(w, events[0]), events[1..])
  }

  function Initial(limit: Option<nat>): World {
    World([], [], [], limit, map[])
  }

  // --------------------------------------------------------- reading the log

  /** One entry read by the automaton of connector `id`: a change must start where the previous one
      ended and go elsewhere, and nothing follows retirement. None is a log that explains nothing. */
  function Read(seen: Option<Status>, e: Entry, id: Id): Option<Status> {
    if seen.None? || e.connector != Some(id) then seen
    else if e.kind.StatusChanged? then
      if seen == Some(e.kind.previous) && e.kind.current !in {Retired, e.kind.previous} && e.kind.previous != Retired
      then Some(e.kind.current) else None
    else if e.kind.ConnectorRetired? then
      if seen == Some(Retired) then None else Some(Retired)
    else seen
  }

  /** The status of a connector according to the log alone. */
  function Replayed(log: seq<Entry>, id: Id): Option<Status> {
    if log == [] then Some(Disconnected) else Read(Replayed(log[..|log| - 1], id), log[|log| - 1], id)
  }

  function Expiries(log: seq<Entry>, token: Id): nat {
    if log == [] then 0
    else Expiries(log[..|log| - 1], token)
         + if log[|log| - 1].kind.TokenExpired? && log[|log| - 1].token == Some(token) then 1 else 0
  }

  datatype Pair = Pair(connector: Id, token: Id, at: Time)

  /** What the entries of one kind say about connectors and tokens, oldest first. */
  function Pairs(log: seq<Entry>, kind: Kind): seq<Pair> {
    if log == [] then [] else
      var last := log[|log| - 1];
      Pairs(log[..|log| - 1], kind)
      + if last.kind == kind && last.connector.Some? && last.token.Some?
        then [Pair(last.connector.value, last.token.value, last.at)] else []
  }

  // --------------------------------------------------------------- invariant

  ghost predicate TokenOk(t: Token, expiries: nat, clock: Time) {
    && (t.expirationRecordedAt.Some? ==> t.usedAt.None? && t.expiresAt <= clock)
    && expiries == (if t.expirationRecordedAt.Some? then 1 else 0)
  }

  /** The counter of missed heartbeats goes with the status. */
  ghost predicate RowOk(c: Connector, clock: Time) {
    && c.interval > 0 && (c.status == Retired <==> c.retiredAt.Some?) && c.status != InSync
    && (c.lastHeartbeatAt.Some? ==> c.lastHeartbeatAt.value <= clock)
    && (c.lastHeartbeatAt.None? ==> c.missed == 0 && c.status in {Disconnected, AuthenticationFailed, Retired})
    && (c.status in {Connected, Degraded} ==> c.missed == 0)
    && (c.status == OutOfSync ==> c.missed == 2)
    && (c.status == Disconnected && c.lastHeartbeatAt.Some? ==> c.missed == 3)
  }

  ghost predicate TokensOk(tokens: seq<Token>, log: seq<Entry>, clock: Time) {
    forall t | 0 <= t < |tokens| :: TokenOk(tokens[t], Expiries(log, t), clock)
  }

  ghost predicate RowsOk(connectors: seq<Connector>, clock: Time) {
    forall i | 0 <= i < |connectors| :: RowOk(connectors[i], clock)
  }

  /** The log gives the status of every connector. */
  ghost predicate Explained(connectors: seq<Connector>, log: seq<Entry>) {
    forall i | 0 <= i < |connectors| :: Replayed(log, i) == Some(connectors[i].status)
  }

  /** Registrations, connectors and used tokens go together one to one. */
  ghost predicate Enrolled(tokens: seq<Token>, connectors: seq<Connector>, pairs: seq<Pair>) {
    && |pairs| == |connectors|
    && (forall i | 0 <= i < |pairs| ::
          && pairs[i].connector == i && pairs[i].token < |tokens|
          && tokens[pairs[i].token].usedAt == Some(pairs[i].at)
          && tokens[pairs[i].token].tenant == connectors[i].tenant)
    && (forall i, j | 0 <= i < j < |pairs| :: pairs[i].token != pairs[j].token)
    && (forall t | 0 <= t < |tokens| && tokens[t].usedAt.Some? :: exists i | 0 <= i < |pairs| :: pairs[i].token == t)
  }

  /** No two active connectors of a tenant are one appliance, and no tenant exceeds its limit. */
  ghost predicate Bounded(connectors: seq<Connector>, limit: Option<nat>) {
    && (forall i, j | 0 <= i < j < |connectors| && connectors[i].retiredAt.None? && connectors[j].retiredAt.None?
          && connectors[i].tenant == connectors[j].tenant :: connectors[i].instance != connectors[j].instance)
    && (limit.Some? ==> forall tenant :: CountActive(connectors, tenant) <= limit.value)
  }

  /** The log speaks only of rows that exist. */
  ghost predicate Grounded(log: seq<Entry>, tokens: nat, connectors: nat) {
    forall i | 0 <= i < |log| :: Speaks(log[i], tokens, connectors)
  }

  predicate Speaks(e: Entry, tokens: nat, connectors: nat) {
    (e.connector.Some? ==> e.connector.value < connectors) && (e.token.Some? ==> e.token.value < tokens)
  }

  ghost predicate Inv(w: World, clock: Time) {
    && (forall s | s in w.copies :: w.copies[s].id < |w.tokens|)
    && TokensOk(w.tokens, w.log, clock) && RowsOk(w.connectors, clock) && Explained(w.connectors, w.log)
    && Pairs(w.log, TokenUsed) == Pairs(w.log, Registered)
    && Enrolled(w.tokens, w.connectors, Pairs(w.log, Registered))
    && Bounded(w.connectors, w.limit) && Grounded(w.log, |w.tokens|, |w.connectors|)
  }
}
