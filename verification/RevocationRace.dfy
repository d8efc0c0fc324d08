/** A revocation reads its token without a lock, so a registration may commit between its reading and its
    writing. Exactly then a token ends up both used and revoked. */
module RevocationRace {
  import opened Options
  import opened ConnectorLog
  import opened ConnectorSafety

  /** The world before event `i` of a run. */
  function At(limit: Option<nat>, events: seq<Event>, i: nat): World
    requires i <= |events|
  {
    After(Initial(limit), events[..i])
  }

  lemma {:induction false} AfterSnoc(w: World, events: seq<Event>, i: nat)
    requires i < |events|
    ensures After(w, events[..i + 1]) == Step(After(w, events[..i]), events[i])
    decreases |events|
  {
    hide Step;
    if i == 0 {
      assert events[..1] == [events[0]] && events[..1][1..] == [];
    } else {
      AfterSnoc(Step(w, events[0]), events[1..], i - 1);
      assert events[..i + 1][1..] == events[1..][..i] && events[..i][1..] == events[1..][..i - 1];
    }
  }

  // ------------------------------------------------------------- the history

  /** A session reads the token, which is neither used nor revoked. */
  ghost predicate Reads(limit: Option<nat>, events: seq<Event>, i: nat, session: Id, t: Id) {
    && i < |events| && events[i].Reading? && events[i].session == session && events[i].token == t
    && var w := At(limit, events, i);
       t < |w.tokens| && w.tokens[t].tenant == events[i].tenant && Fresh(w.tokens[t])
  }

  predicate Fresh(t: Token) {
    t.usedAt.None? && t.revokedAt.None?
  }

  /** A registration takes the token. */
  ghost predicate Registers(limit: Option<nat>, events: seq<Event>, k: nat, t: Id) {
    && k < |events| && events[k].Registering? && events[k].token == t
    && Answer(At(limit, events, k), t, events[k].instance, events[k].tenantActive, events[k].now).Accepted?
  }

  predicate BySession(e: Event, session: Id) {
    (e.Reading? || e.Writing?) && e.session == session
  }

  /** The session does nothing between two of its events. */
  ghost predicate Quiet(events: seq<Event>, i: nat, l: nat, session: Id) {
    forall m | i < m < l && m < |events| :: !BySession(events[m], session)
  }

  /** A session reads the token at `i` and writes at `l`, and the registration at `k` falls in between. */
  ghost predicate Race(limit: Option<nat>, events: seq<Event>, t: Id, i: nat, k: nat, l: nat, session: Id) {
    && i < k < l < |events| && Reads(limit, events, i, session, t) && Registers(limit, events, k, t)
    && events[l].Writing? && events[l].session == session && Quiet(events, i, l, session)
  }

  // ------------------------------------------------------------ single steps

  lemma {:induction false} ExpireAllTokens(w: World, ids: seq<Id>, now: Time)
    ensures var v := ExpireAll(w, ids, now);
      && |v.tokens| == |w.tokens| && v.copies == w.copies
      && forall t | 0 <= t < |w.tokens| :: v.tokens[t].usedAt == w.tokens[t].usedAt && v.tokens[t].revokedAt == w.tokens[t].revokedAt
  {
    if ids != [] {
      ExpireAllTokens(w, ids[..|ids| - 1], now);
    }
  }

  lemma {:induction false} RecalculateAllTokens(w: World, ids: seq<Id>, now: Time)
    ensures RecalculateAll(w, ids, now).tokens == w.tokens && RecalculateAll(w, ids, now).copies == w.copies
  {
    hide Recalculated;
    if ids != [] {
      RecalculateAllTokens(w, ids[..|ids| - 1], now);
    }
  }

  /** Only a registration uses a token, and only a write revokes one. */
  lemma StepOnToken(w: World, e: Event, t: Id)
    requires t < |w.tokens|
    ensures var v := Step(w, e);
      && t < |v.tokens|
      && (w.tokens[t].usedAt.Some? ==> v.tokens[t].usedAt == w.tokens[t].usedAt)
      && (w.tokens[t].revokedAt.Some? ==> v.tokens[t].revokedAt.Some?)
      && (w.tokens[t].usedAt.None? ==>
            (v.tokens[t].usedAt.Some? <==>
             e.Registering? && e.token == t && Answer(w, t, e.instance, e.tenantActive, e.now).Accepted?))
      && (w.tokens[t].revokedAt.None? ==>
            (v.tokens[t].revokedAt.Some? <==>
             e.Writing? && e.session in w.copies && w.copies[e.session].id == t && Fresh(w.copies[e.session].seen)))
  {
    hide Answer, Derive, Recalculated, RecalculateAll, ExpireAll;
    match e
    case Listing(now, ids) => ExpireAllTokens(w, ids, now);
    case Viewing(now, ids) => RecalculateAllTokens(w, ids, now);
    case Maintaining(now) =>
      RecalculateAllTokens(w, UpTo(|w.connectors|), now);
      ExpireAllTokens(RecalculateAll(w, UpTo(|w.connectors|), now), UpTo(|w.tokens|), now);
    case Registering(now, id, instance, active) =>
      AnswerIsAccepted(w, id, instance, active, now);
    case _ =>
  }

  lemma AnswerIsAccepted(w: World, id: Id, instance: Id, active: Option<bool>, now: Time)
    ensures var a := Answer(w, id, instance, active, now);
      && (a.NotFound? <==> id >= |w.tokens|)
      && (a.Accepted? ==> w.tokens[id].usedAt.None? && w.tokens[id].revokedAt.None?)
  {
  }

  /** Copies are made by reading and end with the session's next event. */
  lemma StepOnReads(w: World, e: Event, session: Id)
    ensures var v := Step(w, e);
      if BySession(e, session) then
        session in v.copies <==> e.Reading? && e.token < |w.tokens| && w.tokens[e.token].tenant == e.tenant
      else
        (session in v.copies <==> session in w.copies) && (session in w.copies ==> v.copies[session] == w.copies[session])
    ensures BySession(e, session) && session in Step(w, e).copies ==> Step(w, e).copies[session] == Copy(e.token, w.tokens[e.token])
  {
    hide Answer, Derive, Recalculated, RecalculateAll, ExpireAll;
    match e
    case Listing(now, ids) => ExpireAllTokens(w, ids, now);
    case Viewing(now, ids) => RecalculateAllTokens(w, ids, now);
    case Maintaining(now) =>
      RecalculateAllTokens(w, UpTo(|w.connectors|), now);
      ExpireAllTokens(RecalculateAll(w, UpTo(|w.connectors|), now), UpTo(|w.tokens|), now);
    case Registering(now, id, instance, active) =>
      AnswerIsAccepted(w, id, instance, active, now);
    case _ =>
  }

  // ------------------------------------------------------------------- runs

  /** A token keeps its number, and stays used or revoked. */
  lemma {:induction false} TokenLasts(limit: Option<nat>, events: seq<Event>, i: nat, n: nat, t: Id)
    requires i <= n <= |events| && t < |At(limit, events, i).tokens|
    ensures var a, b := At(limit, events, i), At(limit, events, n);
      && t < |b.tokens|
      && (a.tokens[t].usedAt.Some? ==> b.tokens[t].usedAt.Some?)
      && (a.tokens[t].revokedAt.Some? ==> b.tokens[t].revokedAt.Some?)
    decreases n - i
  {
    hide Step;
    if i < n {
      TokenLasts(limit, events, i, n - 1, t);
      AfterSnoc(Initial(limit), events, n - 1);
      StepOnToken(At(limit, events, n - 1), events[n - 1], t);
    }
  }

  /** Every copy that is held was read, and nothing by that session came after. */
  lemma {:induction false} CopyWasRead(limit: Option<nat>, events: seq<Event>, n: nat, session: Id) returns (i: nat)
    requires n <= |events| && session in At(limit, events, n).copies
    ensures i < n && Quiet(events, i, n, session) && events[i].Reading? && events[i].session == session
    ensures var c, w := At(limit, events, n).copies[session], At(limit, events, i);
      && events[i].token == c.id && c.id < |w.tokens| && w.tokens[c.id] == c.seen && w.tokens[c.id].tenant == events[i].tenant
  {
    hide Step;
    NothingRead(limit, events);
    AfterSnoc(Initial(limit), events, n - 1);
    StepOnReads(At(limit, events, n - 1), events[n - 1], session);
    if BySession(events[n - 1], session) {
      i := n - 1;
    } else {
      i := CopyWasRead(limit, events, n - 1, session);
    }
  }

  lemma NothingRead(limit: Option<nat>, events: seq<Event>)
    ensures At(limit, events, 0) == Initial(limit)
  {
    assert events[..0] == [];
  }

  /** A copy lasts until its session's next event. */
  lemma {:induction false} CopyLasts(limit: Option<nat>, events: seq<Event>, i: nat, n: nat, session: Id, t: Id)
    requires i < n <= |events| && Reads(limit, events, i, session, t) && Quiet(events, i, n, session)
    ensures var w := At(limit, events, n); session in w.copies && w.copies[session] == Copy(t, At(limit, events, i).tokens[t])
    decreases n
  {
    hide Step;
    AfterSnoc(Initial(limit), events, n - 1);
    StepOnReads(At(limit, events, n - 1), events[n - 1], session);
    if i < n - 1 {
      CopyLasts(limit, events, i, n - 1, session, t);
    }
  }

  /** A token that has come to be used was registered with on the way. */
  lemma {:induction false} UsedOnTheWay(limit: Option<nat>, events: seq<Event>, i: nat, n: nat, t: Id) returns (k: nat)
    requires i <= n <= |events| && t < |At(limit, events, i).tokens| && At(limit, events, i).tokens[t].usedAt.None?
    requires t < |At(limit, events, n).tokens| && At(limit, events, n).tokens[t].usedAt.Some?
    ensures i <= k < n && Registers(limit, events, k, t)
    decreases n - i
  {
    hide Step, Answer;
    AfterSnoc(Initial(limit), events, n - 1);
    TokenLasts(limit, events, i, n - 1, t);
    StepOnToken(At(limit, events, n - 1), events[n - 1], t);
    if At(limit, events, n - 1).tokens[t].usedAt.Some? {
      k := UsedOnTheWay(limit, events, i, n - 1, t);
    } else {
      k := n - 1;
    }
  }

  ghost predicate Both(w: World, t: Id) {
    t < |w.tokens| && w.tokens[t].usedAt.Some? && w.tokens[t].revokedAt.Some?
  }

  /** A token that is both used and revoked came to it through a race. */
  lemma {:induction false} BothIsRaced(limit: Option<nat>, events: seq<Event>, n: nat, t: Id)
    returns (i: nat, k: nat, l: nat, session: Id)
    requires n <= |events| && Both(At(limit, events, n), t)
    ensures Race(limit, events, t, i, k, l, session) && l < n
  {
    hide Step, Answer;
    NothingRead(limit, events);
    AfterSnoc(Initial(limit), events, n - 1);
    var w, e := At(limit, events, n - 1), events[n - 1];
    NewTokenIsFresh(w, e, t);
    if Both(w, t) {
      i, k, l, session := BothIsRaced(limit, events, n - 1, t);
    } else {
      StepOnToken(w, e, t);
      if e.Registering? {
        AnswerIsAccepted(w, t, e.instance, e.tenantActive, e.now);
      }
      l, session := n - 1, e.session;
      i := CopyWasRead(limit, events, n - 1, session);
      k := UsedOnTheWay(limit, events, i, n - 1, t);
    }
  }

  lemma NewTokenIsFresh(w: World, e: Event, t: Id)
    ensures t >= |w.tokens| ==> !Both(Step(w, e), t)
  {
    hide Answer, Derive, Recalculated, RecalculateAll, ExpireAll;
    match e
    case Listing(now, ids) => ExpireAllTokens(w, ids, now);
    case Viewing(now, ids) => RecalculateAllTokens(w, ids, now);
    case Maintaining(now) =>
      RecalculateAllTokens(w, UpTo(|w.connectors|), now);
      ExpireAllTokens(RecalculateAll(w, UpTo(|w.connectors|), now), UpTo(|w.tokens|), now);
    case Registering(now, id, instance, active) =>
      AnswerIsAccepted(w, id, instance, active, now);
    case _ =>
  }

  lemma RacedIsBoth(limit: Option<nat>, events: seq<Event>, t: Id, i: nat, k: nat, l: nat, session: Id)
    requires Race(limit, events, t, i, k, l, session)
    ensures Both(At(limit, events, |events|), t)
  {
    hide Step, Answer;
    TokenLasts(limit, events, i, k, t);
    AfterSnoc(Initial(limit), events, k);
    StepOnToken(At(limit, events, k), events[k], t);
    TokenUsedNow(limit, events, k, t);
    TokenLasts(limit, events, k + 1, l, t);
    CopyLasts(limit, events, i, l, session, t);
    AfterSnoc(Initial(limit), events, l);
    StepOnToken(At(limit, events, l), events[l], t);
    TokenLasts(limit, events, l + 1, |events|, t);
  }

  lemma TokenUsedNow(limit: Option<nat>, events: seq<Event>, k: nat, t: Id)
    requires Registers(limit, events, k, t) && t < |At(limit, events, k).tokens|
    ensures At(limit, events, k).tokens[t].usedAt.None?
  {
  }

  // ------------------------------------------------------------ main results

  /** In every run, whatever else happens in it, a token ends up both used and revoked if and only if a
      session read it fresh, a registration then took it, and the session wrote its revocation after. */
  lemma UsedAndRevokedIff(limit: Option<nat>, events: seq<Event>, t: Id)
    ensures Both(After(Initial(limit), events), t) <==>
              exists i, k, l, session :: Race(limit, events, t, i, k, l, session)
  {
    hide Race, Both;
    assert events[..|events|] == events;
    if Both(After(Initial(limit), events), t) {
      var i, k, l, session := BothIsRaced(limit, events, |events|, t);
    }
    if i: nat, k: nat, l: nat, session: Id :| Race(limit, events, t, i, k, l, session) {
      RacedIsBoth(limit, events, t, i, k, l, session);
    }
  }

  /** So no token does where every revocation writes right after it has read. */
  lemma AtomicRevocation(limit: Option<nat>, events: seq<Event>, t: Id)
    requires forall l | 0 <= l < |events| && events[l].Writing? :: l > 0 && BySession(events[l - 1], events[l].session)
    ensures !Both(After(Initial(limit), events), t)
  {
    hide Race, Both;
    UsedAndRevokedIff(limit, events, t);
    forall i: nat, k: nat, l: nat, session: Id ensures !Race(limit, events, t, i, k, l, session) {
      NothingBetween(limit, events, t, i, k, l, session);
    }
  }

  lemma NothingBetween(limit: Option<nat>, events: seq<Event>, t: Id, i: nat, k: nat, l: nat, session: Id)
    requires forall l | 0 <= l < |events| && events[l].Writing? :: l > 0 && BySession(events[l - 1], events[l].session)
    ensures !Race(limit, events, t, i, k, l, session)
  {
    hide Reads, Registers;
    assert l < |events| && l > 0 && i < l - 1 && BySession(events[l - 1], session) ==> !Quiet(events, i, l, session);
  }

  /** The race in four calls: generate, read, register, write. */
  lemma FourCalls(limit: Option<nat>, now: Time)
    requires limit.Some? ==> limit.value > 0
    ensures var events := [Creating(now, 0), Reading(now, 0, 0, 0), Registering(now, 0, 0, Some(true)), Writing(now, 0)];
      IsRun(now, events) && Both(After(Initial(limit), events), 0)
  {
    var events := [Creating(now, 0), Reading(now, 0, 0, 0), Registering(now, 0, 0, Some(true)), Writing(now, 0)];
    assert events[1..] == [events[1], events[2], events[3]] && events[1..][1..] == [events[2], events[3]];
    assert [events[2], events[3]][1..] == [events[3]] && [events[3]][1..] == [];
    assert IsRun(now, [events[3]]) && IsRun(now, [events[2], events[3]]) && IsRun(now, events[1..]);
    var w1 := Step(Initial(limit), events[0]);
    var w2 := Step(w1, events[1]);
    assert w2.connectors == [] && CountActive(w2.connectors, 0) == 0;
    var w3 := Step(w2, events[2]);
    var w4 := Step(w3, events[3]);
    assert After(w3, [events[3]]) == After(w4, []) == w4;
    assert After(w2, [events[2], events[3]]) == w4;
    assert After(w1, [events[1], events[2], events[3]]) == w4;
    assert After(Initial(limit), events) == w4;
  }
}
