/** What every run of the connector service keeps: the log explains the rows. */
module ConnectorSafety {
  import opened Options
  import opened ConnectorLog

  // ------------------------------------------------------ one entry at a time

  lemma LogSnoc(log: seq<Entry>, e: Entry)
    ensures forall i :: Replayed(log + [e], i) == Read(Replayed(log, i), e, i)
    ensures forall t: Id ::
              Expiries(log + [e], t) == Expiries(log, t) + if e.kind.TokenExpired? && e.token == Some(t) then 1 else 0
    ensures forall k ::
              Pairs(log + [e], k) ==
                if e.kind == k && e.connector.Some? && e.token.Some?
                then Pairs(log, k) + [Pair(e.connector.value, e.token.value, e.at)] else Pairs(log, k)
  {
    assert (log + [e])[..|log|] == log;
  }

  lemma {:induction false} Unheard(log: seq<Entry>, id: Id)
    ensures (forall i | 0 <= i < |log| :: log[i].connector != Some(id)) ==> Replayed(log, id) == Some(Disconnected)
    ensures (forall i | 0 <= i < |log| :: log[i].token != Some(id)) ==> Expiries(log, id) == 0
  {
    if log != [] {
      Unheard(log[..|log| - 1], id);
    }
  }

  lemma {:induction false} CountSame(a: seq<Connector>, b: seq<Connector>, tenant: Id)
    requires |a| == |b| && forall i | 0 <= i < |a| :: Active(b[i], tenant) ==> Active(a[i], tenant)
    ensures CountActive(b, tenant) <= CountActive(a, tenant)
  {
    if a != [] {
      CountSame(a[..|a| - 1], b[..|b| - 1], tenant);
    }
  }

  lemma Ages(w: World, clock: Time, now: Time)
    requires Inv(w, clock) && clock <= now
    ensures Inv(w, now)
  {
    hide Explained, Enrolled, Bounded, Grounded;
  }

  predicate Neutral(kind: Kind) {
    kind in {TokenGenerated, TokenRevoked, TokenFailed, HeartbeatReceived, SourceHealthChanged, AuthenticationFailure}
  }

  lemma GroundedSnoc(log: seq<Entry>, e: Entry, tokens: nat, connectors: nat)
    requires Grounded(log, tokens, connectors) && Speaks(e, tokens, connectors)
    ensures Grounded(log + [e], tokens, connectors)
  {
  }

  /** An entry that tells of no status and no expiry leaves those readings as they are. */
  lemma QuietLog(w: World, e: Entry, now: Time)
    requires TokensOk(w.tokens, w.log, now) && Explained(w.connectors, w.log)
    requires !e.kind.StatusChanged? && !e.kind.ConnectorRetired? && !e.kind.TokenExpired?
    ensures TokensOk(w.tokens, w.log + [e], now) && Explained(w.connectors, w.log + [e])
  {
    hide TokenOk;
    LogSnoc(w.log, e);
  }

  lemma NoteInv(w: World, kind: Kind, tenant: Id, connector: Option<Id>, token: Option<Id>, now: Time)
    requires Inv(w, now) && Neutral(kind) && Speaks(Entry(kind, tenant, connector, token, now), |w.tokens|, |w.connectors|)
    ensures Inv(Note(w, kind, tenant, connector, token, now), now)
  {
    hide TokensOk, RowsOk, Explained, Enrolled, Bounded, Grounded, Speaks;
    var e := Entry(kind, tenant, connector, token, now);
    LogSnoc(w.log, e);
    QuietLog(w, e, now);
    GroundedSnoc(w.log, e, |w.tokens|, |w.connectors|);
  }

  /** A connector's row is replaced, and nothing else. */
  lemma RowBounded(rows: seq<Connector>, limit: Option<nat>, id: Id, row: Connector)
    requires id < |rows| && Bounded(rows, limit) && row.tenant == rows[id].tenant && row.instance == rows[id].instance
    requires row.retiredAt.None? ==> rows[id].retiredAt.None?
    ensures Bounded(rows[id := row], limit)
  {
    var after := rows[id := row];
    forall tenant ensures CountActive(after, tenant) <= CountActive(rows, tenant) {
      CountSame(rows, after, tenant);
    }
    forall i, j | 0 <= i < j < |after| && after[i].retiredAt.None? && after[j].retiredAt.None? && after[i].tenant == after[j].tenant
      ensures after[i].instance != after[j].instance
    {
      assert rows[i].instance != rows[j].instance;
    }
  }

  lemma RowEnrolled(tokens: seq<Token>, rows: seq<Connector>, pairs: seq<Pair>, id: Id, row: Connector)
    requires id < |rows| && Enrolled(tokens, rows, pairs) && row.tenant == rows[id].tenant
    ensures Enrolled(tokens, rows[id := row], pairs)
  {
  }

  lemma RowExplained(rows: seq<Connector>, log: seq<Entry>, id: Id, row: Connector, e: Entry)
    requires id < |rows| && Explained(rows, log) && e.connector == Some(id)
    requires e.kind == StatusChanged(rows[id].status, row.status) || (e.kind == ConnectorRetired && row.status == Retired)
    requires rows[id].status != Retired && rows[id].status != row.status && (e.kind.StatusChanged? ==> row.status != Retired)
    ensures Explained(rows[id := row], log + [e])
  {
    LogSnoc(log, e);
  }

  lemma RowsPut(rows: seq<Connector>, id: Id, row: Connector, now: Time)
    requires id < |rows| && RowsOk(rows, now) && RowOk(row, now)
    ensures RowsOk(rows[id := row], now)
  {
    hide RowOk;
  }

  lemma SameTokens(tokens: seq<Token>, log: seq<Entry>, e: Entry, now: Time)
    requires TokensOk(tokens, log, now) && !e.kind.TokenExpired?
    ensures TokensOk(tokens, log + [e], now)
  {
    hide TokenOk;
    LogSnoc(log, e);
  }

  /** A row with another status is stored together with the entry that tells of it. */
  lemma ChangeInv(w: World, id: Id, row: Connector, e: Entry, now: Time)
    requires Inv(w, now) && id < |w.connectors| && RowOk(row, now)
    requires row.tenant == w.connectors[id].tenant && row.instance == w.connectors[id].instance
    requires row.retiredAt.None? ==> w.connectors[id].retiredAt.None?
    requires e.connector == Some(id) && e.token.None?
    requires e.kind == StatusChanged(w.connectors[id].status, row.status) || (e.kind == ConnectorRetired && row.status == Retired)
    requires w.connectors[id].status != Retired && w.connectors[id].status != row.status
    requires e.kind.StatusChanged? ==> row.status != Retired
    ensures Inv(w.(connectors := w.connectors[id := row], log := w.log + [e]), now)
  {
    hide TokensOk, RowsOk, Explained, Enrolled, Bounded, Grounded;
    LogSnoc(w.log, e);
    RowBounded(w.connectors, w.limit, id, row);
    RowEnrolled(w.tokens, w.connectors, Pairs(w.log, Registered), id, row);
    RowExplained(w.connectors, w.log, id, row, e);
    RowsPut(w.connectors, id, row, now);
    SameTokens(w.tokens, w.log, e, now);
    GroundedSnoc(w.log, e, |w.tokens|, |w.connectors|);
  }

  lemma SameStatusInv(w: World, id: Id, row: Connector, now: Time)
    requires Inv(w, now) && id < |w.connectors| && RowOk(row, now)
    requires row.tenant == w.connectors[id].tenant && row.instance == w.connectors[id].instance
    requires row.retiredAt == w.connectors[id].retiredAt && row.status == w.connectors[id].status
    ensures Inv(w.(connectors := w.connectors[id := row]), now)
  {
    hide TokensOk, RowsOk, Enrolled, Bounded, Grounded, RowOk;
    RowBounded(w.connectors, w.limit, id, row);
    RowEnrolled(w.tokens, w.connectors, Pairs(w.log, Registered), id, row);
    RowsPut(w.connectors, id, row, now);
  }

  lemma PutInv(w: World, id: Id, row: Connector, now: Time)
    requires Inv(w, now) && id < |w.connectors| && RowOk(row, now)
    requires row.tenant == w.connectors[id].tenant && row.instance == w.connectors[id].instance
    requires row.retiredAt == w.connectors[id].retiredAt
    ensures Inv(Put(w, id, row, now), now)
  {
    hide Inv;
    RowIsOk(w, id, now);
    if row.status == w.connectors[id].status {
      SameStatusInv(w, id, row, now);
    } else {
      var e := Entry(StatusChanged(w.connectors[id].status, row.status), row.tenant, Some(id), None, now);
      ChangeInv(w, id, row, e, now);
    }
  }

  lemma RecalculatedOk(c: Connector, now: Time)
    requires c.interval > 0 && (c.lastHeartbeatAt.Some? ==> c.lastHeartbeatAt.value <= now)
    requires c.lastHeartbeatAt.None? ==> c.missed == 0
    ensures RowOk(Recalculated(c, now), now)
  {
  }

  // ---------------------------------------------------------------- tokens

  /** A token's row is replaced by one that is used no more and no less. */
  lemma TokenRowInv(w: World, id: Id, row: Token, kind: Kind, now: Time)
    requires Inv(w, now) && id < |w.tokens|
    requires row.usedAt == w.tokens[id].usedAt && row.tenant == w.tokens[id].tenant
    requires kind == TokenExpired ==> row.usedAt.None?
    requires kind == TokenExpired || kind == TokenRevoked
    requires kind == TokenExpired ==> row.expiresAt <= now
    requires row.expiresAt == w.tokens[id].expiresAt
    requires row.expirationRecordedAt ==
      if kind == TokenExpired then Some(now) else w.tokens[id].expirationRecordedAt
    requires kind == TokenExpired ==> w.tokens[id].expirationRecordedAt.None?
    ensures Inv(Note(w.(tokens := w.tokens[id := row]), kind, row.tenant, None, Some(id), now), now)
  {
    hide RowsOk, Explained, Enrolled, Bounded, Grounded;
    var e := Entry(kind, row.tenant, None, Some(id), now);
    LogSnoc(w.log, e);
    GroundedSnoc(w.log, e, |w.tokens|, |w.connectors|);
    TokenEnrolled(w.tokens, w.connectors, Pairs(w.log, Registered), id, row);
    StillExplained(w.connectors, w.log, e);
  }

  lemma TokenEnrolled(tokens: seq<Token>, rows: seq<Connector>, pairs: seq<Pair>, id: Id, row: Token)
    requires id < |tokens| && Enrolled(tokens, rows, pairs)
    requires row.usedAt == tokens[id].usedAt && row.tenant == tokens[id].tenant
    ensures Enrolled(tokens[id := row], rows, pairs)
  {
    var after := tokens[id := row];
    assert forall t | 0 <= t < |tokens| :: after[t].usedAt == tokens[t].usedAt && after[t].tenant == tokens[t].tenant;
  }

  lemma StillExplained(rows: seq<Connector>, log: seq<Entry>, e: Entry)
    requires Explained(rows, log) && !e.kind.StatusChanged? && !e.kind.ConnectorRetired?
    ensures Explained(rows, log + [e])
  {
    LogSnoc(log, e);
  }

  lemma ExpireInv(w: World, id: Id, now: Time)
    requires Inv(w, now)
    ensures Inv(Expire(w, id, now), now)
  {
    if id < |w.tokens| && ExpiryUnrecorded(w.tokens[id], now) {
      TokenRowInv(w, id, w.tokens[id].(expirationRecordedAt := Some(now)), TokenExpired, now);
    }
  }

  lemma {:induction false} ExpireAllInv(w: World, ids: seq<Id>, now: Time)
    requires Inv(w, now)
    ensures Inv(ExpireAll(w, ids, now), now)
  {
    if ids != [] {
      ExpireAllInv(w, ids[..|ids| - 1], now);
      ExpireInv(ExpireAll(w, ids[..|ids| - 1], now), ids[|ids| - 1], now);
    }
  }

  lemma WriteInv(w: World, session: Id, now: Time)
    requires Inv(w, now)
    ensures Inv(WriteRevocation(w, session, now), now)
  {
    hide TokensOk, RowsOk, Explained, Enrolled, Bounded, Grounded;
    if session in w.copies {
      var c := w.copies[session];
      var done := w.(copies := w.copies - {session});
      assert Inv(done, now);
      if c.seen.usedAt.None? && c.seen.revokedAt.None? {
        TokenRowInv(done, c.id, w.tokens[c.id].(revokedAt := Some(now)), TokenRevoked, now);
      }
    }
  }

  lemma ReadInv(w: World, session: Id, tenant: Id, id: Id, now: Time)
    requires Inv(w, now)
    ensures Inv(ReadToken(w, session, tenant, id), now)
  {
    hide TokensOk, RowsOk, Explained, Enrolled, Bounded, Grounded;
  }

  lemma CreateInv(w: World, tenant: Id, now: Time)
    requires Inv(w, now)
    ensures Inv(CreateToken(w, tenant, now), now)
  {
    hide Inv;
    var row := Token(tenant, now + TOKEN_LIFETIME, None, None, None);
    MoreTokensInv(w, row, now);
    NoteInv(w.(tokens := w.tokens + [row]), TokenGenerated, tenant, None, Some(|w.tokens|), now);
  }

  lemma MoreTokensInv(w: World, row: Token, now: Time)
    requires Inv(w, now) && row.usedAt.None? && row.revokedAt.None? && row.expirationRecordedAt.None?
    ensures Inv(w.(tokens := w.tokens + [row]), now)
  {
    hide RowsOk, Explained, Bounded;
    var after := w.tokens + [row];
    assert forall t | 0 <= t < |w.tokens| :: after[t] == w.tokens[t];
    Unheard(w.log, |w.tokens|);
  }

  // ------------------------------------------------------------ registration

  lemma CountOneMore(rows: seq<Connector>, row: Connector)
    ensures forall tenant ::
              CountActive(rows + [row], tenant) == CountActive(rows, tenant) + if Active(row, tenant) then 1 else 0
  {
    assert (rows + [row])[..|rows|] == rows;
  }

  lemma EnrolInv(w: World, id: Id, instance: Id, active: Option<bool>, now: Time)
    requires Inv(w, now) && Answer(w, id, instance, active, now).Accepted?
    ensures Inv(Enrol(w, id, instance, now), now)
  {
    hide TokensOk, RowsOk, Bounded, Enrolled, Explained, Grounded, Occupied;
    var t, c := w.tokens[id], |w.connectors|;
    var row := NewConnector(t.tenant, instance);
    var used, registered :=
      Entry(TokenUsed, t.tenant, Some(c), Some(id), now), Entry(Registered, t.tenant, Some(c), Some(id), now);
    LogSnoc(w.log, used);
    LogSnoc(w.log + [used], registered);
    EnrolPairs(w.tokens, w.connectors, Pairs(w.log, Registered), id, row, now);
    EnrolBounded(w.connectors, w.limit, row);
    EnrolRows(w, row, now);
    UsedTokenOk(w.tokens, w.log, id, now);
    var v := w.(connectors := w.connectors + [row], tokens := w.tokens[id := t.(usedAt := Some(now))]);
    QuietLog(v, used, now);
    QuietLog(v.(log := w.log + [used]), registered, now);
    GroundedSnoc(w.log, used, |w.tokens|, c + 1);
    GroundedSnoc(w.log + [used], registered, |w.tokens|, c + 1);
  }

  lemma UsedTokenOk(tokens: seq<Token>, log: seq<Entry>, id: Id, now: Time)
    requires id < |tokens| && TokensOk(tokens, log, now) && tokens[id].revokedAt.None? && tokens[id].expiresAt > now
    ensures TokensOk(tokens[id := tokens[id].(usedAt := Some(now))], log, now)
  {
  }

  lemma EnrolRows(w: World, row: Connector, now: Time)
    requires Explained(w.connectors, w.log) && Grounded(w.log, |w.tokens|, |w.connectors|) && RowsOk(w.connectors, now)
    requires row == NewConnector(row.tenant, row.instance)
    ensures Explained(w.connectors + [row], w.log) && RowsOk(w.connectors + [row], now)
    ensures Grounded(w.log, |w.tokens|, |w.connectors| + 1)
  {
    Unheard(w.log, |w.connectors|);
    assert RowOk(row, now);
  }

  lemma EnrolBounded(rows: seq<Connector>, limit: Option<nat>, row: Connector)
    requires Bounded(rows, limit) && !Occupied(rows, row.tenant, row.instance)
    requires limit.Some? ==> CountActive(rows, row.tenant) < limit.value
    ensures Bounded(rows + [row], limit)
  {
    CountOneMore(rows, row);
    var after := rows + [row];
    forall i, j | 0 <= i < j < |after| && after[i].retiredAt.None? && after[j].retiredAt.None? && after[i].tenant == after[j].tenant
      ensures after[i].instance != after[j].instance
    {
      assert j == |rows| ==> Active(rows[i], row.tenant);
    }
  }

  lemma EnrolPairs(
    tokens: seq<Token>, rows: seq<Connector>, before: seq<Pair>, id: Id, row: Connector, now: Time)
    requires Enrolled(tokens, rows, before) && id < |tokens| && tokens[id].usedAt.None? && row.tenant == tokens[id].tenant
    ensures Enrolled(tokens[id := tokens[id].(usedAt := Some(now))], rows + [row], before + [Pair(|rows|, id, now)])
  {
    var after, pairs := tokens[id := tokens[id].(usedAt := Some(now))], before + [Pair(|rows|, id, now)];
    assert forall i | 0 <= i < |before| :: pairs[i] == before[i] && before[i].token != id;
    forall t | 0 <= t < |after| && after[t].usedAt.Some? ensures exists i | 0 <= i < |pairs| :: pairs[i].token == t {
      if t == id {
        assert pairs[|before|].token == t;
      } else {
        var i :| 0 <= i < |before| && before[i].token == t;
        assert pairs[i].token == t;
      }
    }
  }

  lemma RegisterInv(w: World, id: Id, instance: Id, active: Option<bool>, now: Time)
    requires Inv(w, now)
    ensures Inv(Register(w, id, instance, active, now), now)
  {
    var answer := Answer(w, id, instance, active, now);
    if answer.Accepted? {
      EnrolInv(w, id, instance, active, now);
    } else if !answer.NotFound? {
      ExpireInv(w, id, now);
      var v := if answer == Expired then Expire(w, id, now) else w;
      NoteInv(v, TokenFailed, w.tokens[id].tenant, None, Some(id), now);
    }
  }

  // -------------------------------------------------------------- connectors

  lemma RecordFailureInv(w: World, id: Id, now: Time)
    requires Inv(w, now) && id < |w.connectors|
    ensures Inv(RecordFailure(w, id, now), now)
  {
    hide Inv;
    var c := w.connectors[id];
    NoteInv(w, AuthenticationFailure, c.tenant, Some(id), None, now);
    RowIsOk(w, id, now);
    RecalculatedOk(c.(failures := c.failures + 1), now);
    PutInv(Note(w, AuthenticationFailure, c.tenant, Some(id), None, now), id,
           Recalculated(c.(failures := c.failures + 1), now), now);
  }

  lemma RowIsOk(w: World, id: Id, now: Time)
    requires Inv(w, now) && id < |w.connectors|
    ensures RowOk(w.connectors[id], now)
  {
  }

  lemma HeartbeatInv(w: World, id: Id, instance: Id, sources: Sources, now: Time)
    requires Inv(w, now) && id < |w.connectors|
    ensures Inv(Heartbeat(w, id, instance, sources, now), now)
  {
    hide Inv;
    var c := w.connectors[id];
    NoteInv(w, AuthenticationFailure, c.tenant, Some(id), None, now);
    NoteInv(w, HeartbeatReceived, c.tenant, Some(id), None, now);
    var noted := Note(w, HeartbeatReceived, c.tenant, Some(id), None, now);
    NoteInv(noted, SourceHealthChanged, c.tenant, Some(id), None, now);
    var told := if c.sources != sources then Note(noted, SourceHealthChanged, c.tenant, Some(id), None, now) else noted;
    RowIsOk(w, id, now);
    RecalculatedOk(c.(lastHeartbeatAt := Some(now), sources := sources, failures := 0, missed := 0), now);
    PutInv(told, id, Heard(c, sources, now), now);
  }

  lemma RecalculateInv(w: World, id: Id, now: Time)
    requires Inv(w, now)
    ensures Inv(Recalculate(w, id, now), now)
  {
    hide Inv;
    if id < |w.connectors| {
      RowIsOk(w, id, now);
      RecalculatedOk(w.connectors[id], now);
      PutInv(w, id, Recalculated(w.connectors[id], now), now);
    }
  }

  lemma {:induction false} RecalculateAllInv(w: World, ids: seq<Id>, now: Time)
    requires Inv(w, now)
    ensures Inv(RecalculateAll(w, ids, now), now)
  {
    if ids != [] {
      RecalculateAllInv(w, ids[..|ids| - 1], now);
      RecalculateInv(RecalculateAll(w, ids[..|ids| - 1], now), ids[|ids| - 1], now);
    }
  }

  lemma RetireInv(w: World, tenant: Id, id: Id, now: Time)
    requires Inv(w, now)
    ensures Inv(Retire(w, tenant, id, now), now)
  {
    hide Inv;
    if id < |w.connectors| && w.connectors[id].tenant == tenant {
      var c := w.connectors[id];
      RowIsOk(w, id, now);
      if c.retiredAt.None? {
        var row := c.(retiredAt := Some(now), status := Retired);
        var e := Entry(ConnectorRetired, tenant, Some(id), None, now);
        ChangeInv(w, id, row, e, now);
        RecalculateInv(w.(connectors := w.connectors[id := row], log := w.log + [e]), id, now);
      } else {
        RecalculateInv(w, id, now);
      }
    }
  }

  lemma StepInv(w: World, e: Event, clock: Time)
    requires Inv(w, clock) && clock <= e.now
    ensures Inv(Step(w, e), e.now)
  {
    hide Inv;
    var now := e.now;
    Ages(w, clock, now);
    match e
    case Creating(_, tenant) => CreateInv(w, tenant, now);
    case Listing(_, ids) => ExpireAllInv(w, ids, now);
    case Reading(_, session, tenant, id) => ReadInv(w, session, tenant, id, now);
    case Writing(_, session) => WriteInv(w, session, now);
    case Registering(_, id, instance, active) => RegisterInv(w, id, instance, active, now);
    case Failing(_, id) =>
      if id < |w.connectors| {
        RecordFailureInv(w, id, now);
      }
    case Beating(_, id, instance, sources) =>
      if id < |w.connectors| {
        HeartbeatInv(w, id, instance, sources, now);
      }
    case Viewing(_, ids) => RecalculateAllInv(w, ids, now);
    case Retiring(_, tenant, id) => RetireInv(w, tenant, id, now);
    case Maintaining(_) =>
      RecalculateAllInv(w, UpTo(|w.connectors|), now);
      ExpireAllInv(RecalculateAll(w, UpTo(|w.connectors|), now), UpTo(|w.tokens|), now);
  }

  ghost function ClockAfter(clock: Time, events: seq<Event>): Time {
    if events == [] then clock else events[|events| - 1].now
  }

  lemma {:induction false} RunInv(w: World, clock: Time, events: seq<Event>)
    requires Inv(w, clock) && IsRun(clock, events)
    ensures Inv(After(w, events), ClockAfter(clock, events))
    decreases |events|
  {
    hide Inv;
    if events != [] {
      StepInv(w, events[0], clock);
      RunInv(Step(w, events[0]), events[0].now, events[1..]);
    }
  }

  lemma InitialInv(limit: Option<nat>, clock: Time)
    ensures Inv(Initial(limit), clock)
  {
  }

  // ------------------------------------------------------------ main results

  /** Replaying STATUS_CHANGED and RETIRED entries from DISCONNECTED gives the stored status of every
      connector, each change starting where the last one ended and none following retirement. */
  lemma LogExplainsStatus(limit: Option<nat>, clock: Time, events: seq<Event>, id: Id)
    requires IsRun(clock, events) && id < |After(Initial(limit), events).connectors|
    ensures var w := After(Initial(limit), events); Replayed(w.log, id) == Some(w.connectors[id].status)
  {
    InitialInv(limit, clock);
    RunInv(Initial(limit), clock, events);
  }

  /** REGISTERED entries, connectors and used tokens are in bijection; a token registers one
      connector, of its own tenant; active appliances are distinct and within the tenant's limit. So it
      is wherever revocations are split by other calls. */
  lemma TokensRegisterOnce(limit: Option<nat>, clock: Time, events: seq<Event>)
    requires IsRun(clock, events)
    ensures var w := After(Initial(limit), events);
      && Pairs(w.log, TokenUsed) == Pairs(w.log, Registered)
      && Enrolled(w.tokens, w.connectors, Pairs(w.log, Registered)) && Bounded(w.connectors, w.limit)
  {
    InitialInv(limit, clock);
    RunInv(Initial(limit), clock, events);
  }

  /** A token has at most one EXPIRED entry, and a token with one is not used, then or later. */
  lemma ExpiredAtMostOnce(limit: Option<nat>, clock: Time, events: seq<Event>, t: Id)
    requires IsRun(clock, events) && t < |After(Initial(limit), events).tokens|
    ensures var w := After(Initial(limit), events);
      && Expiries(w.log, t) <= 1
      && (Expiries(w.log, t) == 1 ==> w.tokens[t].usedAt.None?)
  {
    InitialInv(limit, clock);
    RunInv(Initial(limit), clock, events);
    var w := After(Initial(limit), events);
    assert TokenOk(w.tokens[t], Expiries(w.log, t), ClockAfter(clock, events));
  }

  ghost predicate Extends(v: World, w: World) {
    && |w.log| <= |v.log| && v.log[..|w.log|] == w.log
    && |w.connectors| <= |v.connectors| && |w.tokens| <= |v.tokens| && v.limit == w.limit
    && (forall i | 0 <= i < |w.connectors| && w.connectors[i].retiredAt.Some? ::
          v.connectors[i].retiredAt == w.connectors[i].retiredAt)
    && (forall t | 0 <= t < |w.tokens| && w.tokens[t].usedAt.Some? :: v.tokens[t].usedAt == w.tokens[t].usedAt)
    && (forall t | 0 <= t < |w.tokens| && w.tokens[t].revokedAt.Some? :: v.tokens[t].revokedAt.Some?)
  }

  lemma {:induction false} ExpireAllExtends(w: World, ids: seq<Id>, now: Time)
    ensures Extends(ExpireAll(w, ids, now), w) && ExpireAll(w, ids, now).connectors == w.connectors
  {
    if ids != [] {
      ExpireAllExtends(w, ids[..|ids| - 1], now);
    }
  }

  lemma {:induction false} RecalculateAllExtends(w: World, ids: seq<Id>, now: Time)
    ensures Extends(RecalculateAll(w, ids, now), w) && RecalculateAll(w, ids, now).tokens == w.tokens
  {
    if ids != [] {
      RecalculateAllExtends(w, ids[..|ids| - 1], now);
    }
  }

  lemma ExtendsTransitive(u: World, v: World, w: World)
    requires Extends(u, v) && Extends(v, w)
    ensures Extends(u, w)
  {
    assert u.log[..|w.log|] == u.log[..|v.log|][..|w.log|];
  }

  lemma MaintenanceExtends(w: World, now: Time)
    ensures Extends(Maintenance(w, now), w)
  {
    hide Extends;
    var v := RecalculateAll(w, UpTo(|w.connectors|), now);
    RecalculateAllExtends(w, UpTo(|w.connectors|), now);
    ExpireAllExtends(v, UpTo(|w.tokens|), now);
    ExtendsTransitive(Maintenance(w, now), v, w);
  }

  lemma RegisterExtends(w: World, id: Id, instance: Id, active: Option<bool>, now: Time)
    ensures Extends(Register(w, id, instance, active, now), w)
  {
    hide Occupied, CountActive;
  }

  lemma HeartbeatExtends(w: World, id: Id, instance: Id, sources: Sources, now: Time)
    requires id < |w.connectors|
    ensures Extends(Heartbeat(w, id, instance, sources, now), w)
  {
    hide Derive;
  }

  lemma RetireExtends(w: World, tenant: Id, id: Id, now: Time)
    ensures Extends(Retire(w, tenant, id, now), w)
  {
    hide Derive;
  }

  lemma StepExtends(w: World, e: Event)
    ensures Extends(Step(w, e), w)
  {
    hide ExpireAll, RecalculateAll, Register, Heartbeat, Retire, Maintenance, Derive;
    match e
    case Listing(now, ids) => ExpireAllExtends(w, ids, now);
    case Viewing(now, ids) => RecalculateAllExtends(w, ids, now);
    case Maintaining(now) => MaintenanceExtends(w, now);
    case Registering(now, id, instance, active) => RegisterExtends(w, id, instance, active, now);
    case Beating(now, id, instance, sources) =>
      if id < |w.connectors| {
        HeartbeatExtends(w, id, instance, sources, now);
      }
    case Retiring(now, tenant, id) => RetireExtends(w, tenant, id, now);
    case _ =>
  }

  /** The log only grows, a used token stays used, and a retired connector stays retired, with no
      further status change whatever arrives. */
  lemma {:induction false} RetirementIsForEver(w: World, clock: Time, events: seq<Event>)
    requires Inv(w, clock) && IsRun(clock, events)
    ensures var v := After(w, events);
      && Extends(v, w)
      && forall i | 0 <= i < |w.connectors| && w.connectors[i].retiredAt.Some? :: v.connectors[i].status == Retired
    decreases |events|
  {
    hide Inv, Step;
    if events != [] {
      var u := Step(w, events[0]);
      StepInv(w, events[0], clock);
      StepExtends(w, events[0]);
      RetirementIsForEver(u, events[0].now, events[1..]);
      var v := After(u, events[1..]);
      assert v.log[..|w.log|] == v.log[..|u.log|][..|w.log|];
    } else {
      assert forall i | 0 <= i < |w.connectors| && w.connectors[i].retiredAt.Some? :: w.connectors[i].status == Retired by {
        forall i | 0 <= i < |w.connectors| ensures RowOk(w.connectors[i], clock) {
          RowIsOk(w, i, clock);
        }
      }
    }
  }

  /** Recalculating a connector whose status stays the same changes nothing at all, so leaving out
      the commit in that case loses nothing. */
  lemma SilentRecalculation(c: Connector, clock: Time, now: Time)
    requires RowOk(c, clock) && Derive(c, now) == c.status
    ensures Recalculated(c, now) == c
  {
  }

  /** An accepted heartbeat of an active connector makes it connected, or degraded by its sources,
      and clears the count of failed authentications. */
  lemma HeartbeatRevives(w: World, clock: Time, id: Id, sources: Sources, now: Time)
    requires Inv(w, clock) && clock <= now && id < |w.connectors| && w.connectors[id].retiredAt.None?
    ensures var c := Heartbeat(w, id, w.connectors[id].instance, sources, now).connectors[id];
      && c.status == (if sources.unhealthy > 0 then Degraded else Connected) && c.failures == 0 && c.missed == 0
  {
    RowIsOk(w, id, clock);
  }
}
