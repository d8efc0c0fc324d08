/** The connector service on its tables, step by step. */
module ConnectorService {
  import opened Options
  import opened ConnectorLog

  class ConnectorStatusService {
    constructor () {
    }

    /** `recalculate`: the new row, with the previous and the current status. */
    method Recalculate(c: Connector, now: Time) returns (row: Connector, previous: Status, current: Status)
      ensures row == Recalculated(c, now) && previous == c.status && current == row.status
      ensures Refreshed(c, row, now)
    {
      RecalculatedIs(c, now);
      previous, current := c.status, Derive(c, now);
      row := c.(status := current);
      if row.lastHeartbeatAt.None? {
        row := row.(missed := 0);
      } else if current == OutOfSync {
        row := row.(missed := 2);
      } else if current == Disconnected {
        row := row.(missed := 3);
      } else if current !in {AuthenticationFailed, Retired} {
        row := row.(missed := 0);
      }
    }
  }

  /** An active connector of the tenant is this appliance. */
  ghost predicate Taken(connectors: seq<Connector>, tenant: Id, instance: Id) {
    exists i | 0 <= i < |connectors| ::
      connectors[i].tenant == tenant && connectors[i].instance == instance && connectors[i].retiredAt.None?
  }

  ghost function ActiveOnes(connectors: seq<Connector>, tenant: Id): set<int> {
    set i | 0 <= i < |connectors| && connectors[i].tenant == tenant && connectors[i].retiredAt.None?
  }

  lemma {:induction false} CountActiveIs(connectors: seq<Connector>, tenant: Id)
    ensures CountActive(connectors, tenant) == |ActiveOnes(connectors, tenant)|
  {
    if connectors != [] {
      var n := |connectors| - 1;
      var front := ActiveOnes(connectors[..n], tenant);
      CountActiveIs(connectors[..n], tenant);
      assert ActiveOnes(connectors, tenant) == if Active(connectors[n], tenant) then front + {n} else front;
    }
  }

  /** What each answer to a registration says of the token, its tenant and the connectors there are. */
  ghost predicate Says(
    r: Registration, tokens: seq<Token>, connectors: seq<Connector>, limit: Option<nat>, id: Id, instance: Id,
    tenantActive: Option<bool>, now: Time)
  {
    if id >= |tokens| then r == NotFound else
      var t := tokens[id];
      var valid := t.usedAt.None? && t.revokedAt.None? && now < t.expiresAt;
      var welcome := valid && tenantActive == Some(true) && !Taken(connectors, t.tenant, instance);
      var full := limit.Some? && |ActiveOnes(connectors, t.tenant)| >= limit.value;
      && r != NotFound
      && (r == Used <==> t.usedAt.Some?)
      && (r == Revoked <==> t.usedAt.None? && t.revokedAt.Some?)
      && (r == Expired <==> t.usedAt.None? && t.revokedAt.None? && t.expiresAt <= now)
      && (r == NotPermitted <==> valid && tenantActive.None?)
      && (r == TenantInactive <==> valid && tenantActive == Some(false))
      && (r == AlreadyRegistered <==> valid && tenantActive == Some(true) && Taken(connectors, t.tenant, instance))
      && (r == LimitReached <==> welcome && full)
      && (r == Accepted(|connectors|) <==> welcome && !full)
  }

  lemma AnswerSays(w: World, id: Id, instance: Id, tenantActive: Option<bool>, now: Time)
    ensures Says(Answer(w, id, instance, tenantActive, now), w.tokens, w.connectors, w.limit, id, instance, tenantActive, now)
  {
    if id < |w.tokens| {
      CountActiveIs(w.connectors, w.tokens[id].tenant);
      assert Occupied(w.connectors, w.tokens[id].tenant, instance) <==> Taken(w.connectors, w.tokens[id].tenant, instance) by {
        if i :| 0 <= i < |w.connectors| && Active(w.connectors[i], w.tokens[id].tenant) && w.connectors[i].instance == instance {
          assert Taken(w.connectors, w.tokens[id].tenant, instance);
        }
      }
    }
  }

  /** The entry for a change of status. */
  function Change(id: Id, was: Connector, row: Connector, now: Time): seq<Entry> {
    if was.status == row.status then []
    else [Entry(StatusChanged(was.status, row.status), was.tenant, Some(id), None, now)]
  }

  class Service {
    var tokens: seq<Token>
    var connectors: seq<Connector>
    var log: seq<Entry>
    const limit: Option<nat>
    const statusService: ConnectorStatusService
    /** What the sessions in the middle of a revocation have read. */
    ghost var reading: map<Id, Copy>

    ghost function State(): World
      reads this
    {
      World(tokens, connectors, log, limit, reading)
    }

    constructor (limit: Option<nat>)
      ensures State() == Initial(limit)
    {
      this.limit := limit;
      tokens, connectors, log, reading := [], [], [], map[];
      statusService := new ConnectorStatusService();
    }

    method AddEvent(kind: Kind, tenant: Id, connector: Option<Id>, token: Option<Id>, now: Time)
      modifies this`log
      ensures State() == Note(old(State()), kind, tenant, connector, token, now)
    {
      log := log + [Entry(kind, tenant, connector, token, now)];
    }

    method CreateRegistrationToken(tenant: Id, now: Time) returns (id: Id)
      modifies this
      ensures State() == Step(old(State()), Creating(now, tenant)) && id == |old(tokens)|
      ensures tokens == old(tokens) + [Token(tenant, now + 1800000000, None, None, None)] && connectors == old(connectors)
      ensures log == old(log) + [Entry(TokenGenerated, tenant, None, Some(id), now)]
    {
      id := |tokens|;
      tokens := tokens + [Token(tenant, now + TOKEN_LIFETIME, None, None, None)];
      AddEvent(TokenGenerated, tenant, None, Some(id), now);
    }

    /** The loop that records expiries, over the tokens a query returned. */
    method RecordExpiries(ids: seq<Id>, now: Time)
      modifies this
      ensures State() == Step(old(State()), Listing(now, ids))
      ensures ExpiriesRecorded(old(State()), State(), Those(ids), now)
    {
      ExpireAllIs(State(), ids, now);
      for i := 0 to |ids|
        invariant State() == ExpireAll(old(State()), ids[..i], now)
      {
        assert ids[..i + 1][..i] == ids[..i];
        var id := ids[i];
        if id < |tokens| && ExpiryUnrecorded(tokens[id], now) {
          tokens := tokens[id := tokens[id].(expirationRecordedAt := Some(now))];
          AddEvent(TokenExpired, tokens[id].tenant, None, Some(id), now);
        }
      }
      assert ids[..|ids|] == ids;
    }

    /** `get_registration_token`: the row as it is now, read without a lock. */
    method GetRegistrationToken(ghost session: Id, tenant: Id, id: Id, ghost now: Time) returns (seen: Option<Token>)
      modifies this`reading
      ensures State() == Step(old(State()), Reading(now, session, tenant, id))
      ensures seen == if id < |tokens| && tokens[id].tenant == tenant then Some(tokens[id]) else None
    {
      if id < |tokens| && tokens[id].tenant == tenant {
        reading := reading[session := Copy(id, tokens[id])];
        return Some(tokens[id]);
      }
      reading := reading - {session};
      return None;
    }

    /** The rest of the revocation, on a row that may have changed since. False is the refusal of a token
        that was used when it was read. */
    method RevokeSeen(ghost session: Id, id: Id, seen: Token, now: Time) returns (ok: bool)
      requires session in reading && reading[session] == Copy(id, seen) && id < |tokens|
      modifies this
      ensures State() == Step(old(State()), Writing(now, session))
      ensures ok <==> seen.usedAt.None?
      ensures connectors == old(connectors)
      ensures seen.usedAt.None? && seen.revokedAt.None? ==>
                && tokens == old(tokens)[id := old(tokens)[id].(revokedAt := Some(now))]
                && log == old(log) + [Entry(TokenRevoked, old(tokens)[id].tenant, None, Some(id), now)]
      ensures seen.usedAt.Some? || seen.revokedAt.Some? ==> tokens == old(tokens) && log == old(log)
    {
      reading := reading - {session};
      if seen.usedAt.Some? {
        return false;
      }
      if seen.revokedAt.None? {
        tokens := tokens[id := tokens[id].(revokedAt := Some(now))];
        AddEvent(TokenRevoked, tokens[id].tenant, None, Some(id), now);
      }
      return true;
    }

    /** A revocation that nothing comes between. */
    method RevokeRegistrationToken(ghost session: Id, tenant: Id, id: Id, now: Time) returns (ok: bool)
      modifies this
      ensures var read := Step(old(State()), Reading(now, session, tenant, id));
        if id < |old(tokens)| && old(tokens)[id].tenant == tenant then State() == Step(read, Writing(now, session))
        else !ok && State() == read
      ensures ok <==> id < |old(tokens)| && old(tokens)[id].tenant == tenant && old(tokens)[id].usedAt.None?
      ensures if ok && old(tokens)[id].revokedAt.None?
              then
                && tokens == old(tokens)[id := old(tokens)[id].(revokedAt := Some(now))]
                && log == old(log) + [Entry(TokenRevoked, tenant, None, Some(id), now)]
              else tokens == old(tokens) && log == old(log)
    {
      var seen := GetRegistrationToken(session, tenant, id, now);
      if seen.None? {
        return false;
      }
      ok := RevokeSeen(session, id, seen.value, now);
    }

    method GetActiveByInstance(tenant: Id, instance: Id) returns (found: bool)
      ensures found <==> Occupied(connectors, tenant, instance)
    {
      found := false;
      for i := 0 to |connectors|
        invariant !Occupied(connectors[..i], tenant, instance)
      {
        if Active(connectors[i], tenant) && connectors[i].instance == instance {
          return true;
        }
      }
      assert connectors[..|connectors|] == connectors;
    }

    method Register(id: Id, instance: Id, tenantActive: Option<bool>, now: Time) returns (r: Registration)
      modifies this
      ensures r == Answer(old(State()), id, instance, tenantActive, now)
      ensures State() == Step(old(State()), Registering(now, id, instance, tenantActive))
      ensures Says(r, old(tokens), old(connectors), limit, id, instance, tenantActive, now)
      ensures r == NotFound ==> tokens == old(tokens) && connectors == old(connectors) && log == old(log)
      ensures r.Accepted? ==>
                var t := old(tokens)[id];
                && tokens == old(tokens)[id := t.(usedAt := Some(now))]
                && connectors == old(connectors)
                     + [Connector(t.tenant, instance, Disconnected, None, 300, Sources(0, 0, 0, 0), 0, 0, None)]
                && log == old(log) + [Entry(TokenUsed, t.tenant, Some(r.connector), Some(id), now),
                                      Entry(Registered, t.tenant, Some(r.connector), Some(id), now)]
      ensures !r.Accepted? && r != NotFound ==>
                var t := old(tokens)[id];
                var lapsed := r == Expired && t.expirationRecordedAt.None?;
                && connectors == old(connectors)
                && tokens == (if lapsed then old(tokens)[id := t.(expirationRecordedAt := Some(now))] else old(tokens))
                && log == old(log) + (if lapsed then [Entry(TokenExpired, t.tenant, None, Some(id), now)] else [])
                          + [Entry(TokenFailed, t.tenant, None, Some(id), now)]
    {
      hide Says;
      AnswerSays(State(), id, instance, tenantActive, now);
      if id >= |tokens| {
        return NotFound;
      }
      var token := tokens[id];
      if token.usedAt.Some? {
        AddEvent(TokenFailed, token.tenant, None, Some(id), now);
        return Used;
      }
      if token.revokedAt.Some? {
        AddEvent(TokenFailed, token.tenant, None, Some(id), now);
        return Revoked;
      }
      if token.expiresAt <= now {
        if token.expirationRecordedAt.None? {
          tokens := tokens[id := token.(expirationRecordedAt := Some(now))];
          AddEvent(TokenExpired, token.tenant, None, Some(id), now);
        }
        AddEvent(TokenFailed, token.tenant, None, Some(id), now);
        return Expired;
      }
      if tenantActive != Some(true) {
        AddEvent(TokenFailed, token.tenant, None, Some(id), now);
        return if tenantActive.None? then NotPermitted else TenantInactive;
      }
      var taken := GetActiveByInstance(token.tenant, instance);
      if taken {
        AddEvent(TokenFailed, token.tenant, None, Some(id), now);
        return AlreadyRegistered;
      }
      if limit.Some? && CountActive(connectors, token.tenant) >= limit.value {
        AddEvent(TokenFailed, token.tenant, None, Some(id), now);
        return LimitReached;
      }
      r := Accepted(|connectors|);
      connectors := connectors + [NewConnector(token.tenant, instance)];
      tokens := tokens[id := token.(usedAt := Some(now))];
      AddEvent(TokenUsed, token.tenant, Some(|connectors| - 1), Some(id), now);
      AddEvent(Registered, token.tenant, Some(|connectors| - 1), Some(id), now);
    }

    method RecordAuthFailure(id: Id, now: Time)
      requires id < |connectors|
      modifies this
      ensures State() == Step(old(State()), Failing(now, id))
      ensures
        var c := old(connectors)[id];
        && tokens == old(tokens) && |connectors| == |old(connectors)| && connectors == old(connectors)[id := connectors[id]]
        && Refreshed(c.(failures := c.failures + 1), connectors[id], now)
        && log == old(log) + [Entry(AuthenticationFailure, c.tenant, Some(id), None, now)]
                  + Change(id, c, connectors[id], now)
    {
      var c := connectors[id].(failures := connectors[id].failures + 1);
      var row, previous, current := statusService.Recalculate(c, now);
      connectors := connectors[id := row];
      AddEvent(AuthenticationFailure, row.tenant, Some(id), None, now);
      if previous != current {
        AddEvent(StatusChanged(previous, current), row.tenant, Some(id), None, now);
      }
    }

    /** False is the refusal of a heartbeat that names another appliance. */
    method RecordHeartbeat(id: Id, instance: Id, sources: Sources, now: Time) returns (accepted: bool)
      requires id < |connectors|
      modifies this
      ensures State() == Step(old(State()), Beating(now, id, instance, sources))
      ensures accepted <==> instance == old(connectors)[id].instance
      ensures !accepted ==>
                && tokens == old(tokens) && connectors == old(connectors)
                && log == old(log) + [Entry(AuthenticationFailure, connectors[id].tenant, Some(id), None, now)]
      ensures accepted ==>
        var c := old(connectors)[id];
        && tokens == old(tokens) && |connectors| == |old(connectors)| && connectors == old(connectors)[id := connectors[id]]
        && Refreshed(c.(lastHeartbeatAt := Some(now), sources := sources, failures := 0, missed := 0), connectors[id], now)
        && log == old(log) + [Entry(HeartbeatReceived, c.tenant, Some(id), None, now)]
                  + (if c.sources != sources then [Entry(SourceHealthChanged, c.tenant, Some(id), None, now)] else [])
                  + Change(id, c, connectors[id], now)
    {
      var c := connectors[id];
      if instance != c.instance {
        AddEvent(AuthenticationFailure, c.tenant, Some(id), None, now);
        return false;
      }
      var previousSources, previousStatus := c.sources, c.status;
      c := c.(lastHeartbeatAt := Some(now), sources := sources, failures := 0, missed := 0);
      var row, previous, current := statusService.Recalculate(c, now);
      connectors := connectors[id := row];
      AddEvent(HeartbeatReceived, c.tenant, Some(id), None, now);
      if previousSources != sources {
        AddEvent(SourceHealthChanged, c.tenant, Some(id), None, now);
      }
      if previousStatus != row.status {
        AddEvent(StatusChanged(previousStatus, row.status), c.tenant, Some(id), None, now);
      }
      accepted := true;
    }

    method RecalculateMany(ids: seq<Id>, now: Time)
      modifies this
      ensures State() == Step(old(State()), Viewing(now, ids))
      ensures StatusesRefreshed(old(State()), State(), Those(ids), now)
    {
      RecalculateAllIs(State(), ids, now);
      for i := 0 to |ids|
        invariant State() == RecalculateAll(old(State()), ids[..i], now)
      {
        assert ids[..i + 1][..i] == ids[..i];
        var id := ids[i];
        if id < |connectors| {
          var row, previous, current := statusService.Recalculate(connectors[id], now);
          connectors := connectors[id := row];
          if previous != current {
            AddEvent(StatusChanged(previous, current), row.tenant, Some(id), None, now);
          }
        }
      }
      assert ids[..|ids|] == ids;
    }

    method Retire(tenant: Id, id: Id, now: Time) returns (found: bool)
      modifies this
      ensures State() == Step(old(State()), Retiring(now, tenant, id))
      ensures found <==> id < |old(connectors)| && old(connectors)[id].tenant == tenant
      ensures !found ==> tokens == old(tokens) && connectors == old(connectors) && log == old(log)
      ensures found ==>
        var c := old(connectors)[id];
        && tokens == old(tokens)
        && connectors == old(connectors)[id := c.(
             status := Retired, retiredAt := Some(if c.retiredAt.None? then now else c.retiredAt.value),
             missed := if c.lastHeartbeatAt.None? then 0 else c.missed)]
        && log == old(log) + if c.retiredAt.None? then [Entry(ConnectorRetired, tenant, Some(id), None, now)]
                             else Change(id, c, connectors[id], now)
    {
      if id >= |connectors| || connectors[id].tenant != tenant {
        return false;
      }
      if connectors[id].retiredAt.None? {
        connectors := connectors[id := connectors[id].(retiredAt := Some(now), status := Retired)];
        AddEvent(ConnectorRetired, tenant, Some(id), None, now);
      }
      RecalculateOne(State(), id, now);
      RecalculateMany([id], now);
      found := true;
    }

    method Maintenance(now: Time)
      modifies this
      ensures State() == Step(old(State()), Maintaining(now))
      ensures Maintained(old(State()), State(), now)
    {
      hide StatusesRefreshed, ExpiriesRecorded, Maintained, UpTo, Those, ExpireAll, RecalculateAll;
      MaintenanceIs(State(), now);
      RecalculateMany(UpTo(|connectors|), now);
      RecalculateManyKeepsTokens(old(State()), UpTo(|old(connectors)|), now);
      RecordExpiries(UpTo(|tokens|), now);
    }
  }

  lemma RecalculateOne(w: World, id: Id, now: Time)
    ensures RecalculateAll(w, [id], now) == Recalculate(w, id, now)
  {
    var one := [id];
    assert one[..|one| - 1] == [];
    assert RecalculateAll(w, one[..|one| - 1], now) == w;
  }

  lemma {:induction false} RecalculateManyKeepsTokens(w: World, ids: seq<Id>, now: Time)
    ensures RecalculateAll(w, ids, now).tokens == w.tokens
  {
    if ids != [] {
      RecalculateManyKeepsTokens(w, ids[..|ids| - 1], now);
    }
  }
}
