/** Short-lived tool requests that a connector claims under a lease and answers once. Every call is
    one transaction, times are in microseconds, and a token stands for its hash. */
module ToolLeases {
  import opened Options

  type Id = nat
  type Token = nat
  type Time = int

  const SECOND: nat := 1000000
  const REQUEST_TTL: nat := 30 * SECOND
  const CLAIM_TTL: nat := 15 * SECOND
  const MAXIMUM_ATTEMPTS: nat := 3
  const MAXIMUM_RESULT: nat := 100000

  datatype Status = Pending | Claimed | Completed | Failed | Expired

  datatype Request = Request(
    tenant: Id, connector: Id, arguments: string, status: Status, expiresAt: Time,
    claimedAt: Option<Time>, claimExpiresAt: Option<Time>, token: Option<Token>, attempts: nat,
    completedAt: Option<Time>, result: Option<string>, error: Option<string>)

  datatype Connector = Connector(id: Id, tenant: Id)

  /** `ok` is the reported status, "completed" or "failed". */
  datatype Submission = Submission(token: Token, ok: bool, result: Option<string>, error: Option<string>)

  // ------------------------------------------------------------ one request

  predicate Owned(r: Request, c: Connector) {
    r.connector == c.id && r.tenant == c.tenant
  }

  /** Waiting, or held under a lease that has run out. */
  predicate Free(r: Request, now: Time) {
    r.status == Pending || (r.status == Claimed && r.claimExpiresAt.Some? && r.claimExpiresAt.value <= now)
  }

  predicate Claimable(r: Request, c: Connector, now: Time) {
    Owned(r, c) && r.expiresAt > now && r.attempts < MAXIMUM_ATTEMPTS && Free(r, now)
  }

  function Created(tenant: Id, connector: Id, arguments: string, now: Time): Request {
    Request(tenant, connector, arguments, Pending, now + REQUEST_TTL, None, None, None, 0, None, None, None)
  }

  function Leased(r: Request, now: Time, token: Token): Request {
    r.(status := Claimed, claimedAt := Some(now), claimExpiresAt := Some(now + CLAIM_TTL), token := Some(token),
       attempts := r.attempts + 1)
  }

  datatype Verdict = Accepted | NotFound | Conflict | TooLarge

  predicate HoldsLease(r: Request, token: Token, now: Time) {
    && r.status == Claimed && r.token == Some(token)
    && r.claimExpiresAt.Some? && r.claimExpiresAt.value > now && r.expiresAt > now
  }

  function Judge(r: Request, c: Connector, s: Submission, now: Time): Verdict {
    if !Owned(r, c) then NotFound
    else if !HoldsLease(r, s.token, now) then Conflict
    else if s.result.Some? && |s.result.value| > MAXIMUM_RESULT then TooLarge
    else Accepted
  }

  function Answered(r: Request, s: Submission, now: Time): Request {
    r.(status := if s.ok then Completed else Failed, completedAt := Some(now),
       result := if s.ok then s.result else None, error := if s.ok then None else s.error,
       token := None, claimExpiresAt := None)
  }

  /** What a reader's look at a request past its lifetime does. */
  function Looked(r: Request, now: Time): Request {
    if r.status !in {Completed, Failed} && r.expiresAt <= now then r.(status := Expired) else r
  }

  function Swept(r: Request, now: Time): Request {
    if r.status in {Pending, Claimed} && r.expiresAt <= now
    then r.(status := Expired, token := None, claimExpiresAt := None) else r
  }

  // --------------------------------------------------------------- histories

  datatype Lease = Lease(token: Token, start: Time, end: Time)

  datatype Answer = Answer(token: Token, at: Time, ok: bool)

  /** A request with everything that has happened to it. */
  datatype Entry = Entry(request: Request, createdAt: Time, leases: seq<Lease>, answers: seq<Answer>)

  /** The table in creation order, the tokens issued and the last clock reading. */
  datatype World = World(entries: seq<Entry>, issued: set<Token>, clock: Time)

  datatype Event =
    | Create(now: Time, tenant: Id, connectorId: Id, arguments: string)
    | Claiming(now: Time, connector: Connector, token: Token)
    | Submit(now: Time, connector: Connector, id: Id, submission: Submission)
    | Look(now: Time, tenant: Id, id: Id)
    | Clear(now: Time, tenant: Id, id: Id)

  /** The oldest request the connector may claim, or the number of requests. */
  function FirstClaimable(entries: seq<Entry>, c: Connector, now: Time): (i: nat)
    ensures i <= |entries|
    ensures i < |entries| ==> Claimable(entries[i].request, c, now)
    ensures forall k | 0 <= k < i :: !Claimable(entries[k].request, c, now)
  {
    if entries == [] || Claimable(entries[0].request, c, now) then 0
    else 1 + FirstClaimable(entries[1..], c, now)
  }

  function SweptAll(entries: seq<Entry>, now: Time): (r: seq<Entry>)
    ensures |r| == |entries|
    ensures forall i | 0 <= i < |r| :: r[i] == entries[i].(request := Swept(entries[i].request, now))
  {
    if entries == [] then []
    else [entries[0].(request := Swept(entries[0].request, now))] + SweptAll(entries[1..], now)
  }

  function ClaimEntry(e: Entry, now: Time, token: Token): Entry {
    e.(request := Leased(e.request, now, token), leases := e.leases + [Lease(token, now, now + CLAIM_TTL)])
  }

  function AnswerEntry(e: Entry, s: Submission, now: Time): Entry {
    e.(request := Answered(e.request, s, now), answers := e.answers + [Answer(s.token, now, s.ok)])
  }

  function Step(w: World, e: Event): World {
    var at := w.(clock := e.now);
    match e
    case Create(now, tenant, connector, arguments) =>
      at.(entries := w.entries + [Entry(Created(tenant, connector, arguments, now), now, [], [])])
    case Claiming(now, c, token) =>
      var i := FirstClaimable(w.entries, c, now);
      if i == |w.entries| then at.(entries := SweptAll(w.entries, now))
      else at.(entries := w.entries[i := ClaimEntry(w.entries[i], now, token)], issued := w.issued + {token})
    case Submit(now, c, id, s) =>
      if id < |w.entries| && Judge(w.entries[id].request, c, s, now) == Accepted
      then at.(entries := w.entries[id := AnswerEntry(w.entries[id], s, now)])
      else at
    case Look(now, tenant, id) =>
      if id < |w.entries| && w.entries[id].request.tenant == tenant
      then at.(entries := w.entries[id := w.entries[id].(request := Looked(w.entries[id].request, now))])
      else at
    case Clear(_, tenant, id) =>
      if id < |w.entries| && w.entries[id].request.tenant == tenant
      then at.(entries := w.entries[id := w.entries[id].(request := w.entries[id].request.(result := None, arguments := "{}"))])
      else at
  }

  /** The clock does not run backwards and a claim's token is new. */
  predicate Enabled(w: World, e: Event) {
    w.clock <= e.now && (e.Claiming? ==> e.token !in w.issued)
  }

  predicate IsRun(w: World, events: seq<Event>)
    decreases |events|
  {
    events == [] || (Enabled(w, events[0]) && IsRun(Step(w, events[0]), events[1..]))
  }

  function After(w: World, events: seq<Event>): World
    decreases |events|
  {
    if events == [] then w else After(Step(w, events[0]), events[1..])
  }

  function Start(clock: Time): World {
    World([], {}, clock)
  }

  // --------------------------------------------------------------- the table

  lemma ClaimableIff(c: Connector, now: Time)
    ensures forall r :: Claimable(r, c, now) <==> MayBeClaimed(r, c, now)
  {
  }

  /** The connector's own, alive, tried fewer than three times, and waiting or no longer leased. */
  ghost predicate MayBeClaimed(r: Request, c: Connector, now: Time) {
    && r.connector == c.id && r.tenant == c.tenant && now < r.expiresAt && r.attempts < 3
    && (r.status == Pending || (r.status == Claimed && exists t :: r.claimExpiresAt == Some(t) && t <= now))
  }

  /** Claimed under this token, with lease and request both running. */
  ghost predicate MayBeAnswered(r: Request, token: Token, now: Time) {
    && r.status == Claimed && r.token == Some(token) && now < r.expiresAt
    && exists t :: r.claimExpiresAt == Some(t) && now < t
  }

  /** The service on its table. The ghost fields remember what the table does not. */
  class OperationalToolService {
    var requests: seq<Request>
    ghost var world: World

    ghost predicate Valid()
      reads this
    {
      |requests| == |world.entries| && forall i | 0 <= i < |requests| :: requests[i] == world.entries[i].request
    }

    constructor (clock: Time)
      ensures Valid() && world == Start(clock)
    {
      requests, world := [], Start(clock);
    }

    method Create(now: Time, tenant: Id, connector: Id, arguments: string) returns (id: Id)
      requires Valid()
      modifies this
      ensures Valid() && world == Step(old(world), Event.Create(now, tenant, connector, arguments))
      ensures id == |old(requests)|
      ensures requests == old(requests)
                + [Request(tenant, connector, arguments, Pending, now + 30000000, None, None, None, 0, None, None, None)]
    {
      id := |requests|;
      requests := requests + [Created(tenant, connector, arguments, now)];
      world := Step(world, Event.Create(now, tenant, connector, arguments));
    }

    method Claim(now: Time, c: Connector, token: Token) returns (id: Option<Id>)
      requires Valid()
      modifies this
      ensures Valid() && world == Step(old(world), Claiming(now, c, token))
      ensures id.Some? ==> id.value < |requests| && MayBeClaimed(old(requests)[id.value], c, now)
      ensures forall k | 0 <= k < (if id.Some? then id.value else |requests|) :: !MayBeClaimed(old(requests)[k], c, now)
      ensures id.Some? ==>
                requests == old(requests)[id.value := old(requests)[id.value].(
                  status := Claimed, claimedAt := Some(now), claimExpiresAt := Some(now + 15000000), token := Some(token),
                  attempts := old(requests)[id.value].attempts + 1)]
      ensures id.None? ==>
                && |requests| == |old(requests)|
                && forall k | 0 <= k < |requests| ::
                     requests[k] == if old(requests)[k].status in {Pending, Claimed} && old(requests)[k].expiresAt <= now
                                    then old(requests)[k].(status := Expired, token := None, claimExpiresAt := None)
                                    else old(requests)[k]
    {
      ClaimableIff(c, now);
      var i := 0;
      while i < |requests| && !Claimable(requests[i], c, now)
        invariant 0 <= i <= |requests| && forall k | 0 <= k < i :: !Claimable(requests[k], c, now)
      {
        i := i + 1;
      }
      ghost var was := world;
      assert i == FirstClaimable(was.entries, c, now);
      if i == |requests| {
        ExpireOld(now);
        world := Step(was, Claiming(now, c, token));
        return None;
      }
      requests := requests[i := Leased(requests[i], now, token)];
      world := Step(was, Claiming(now, c, token));
      id := Some(i);
    }

    method ExpireOld(now: Time)
      requires Valid()
      modifies this`requests
      ensures |requests| == |old(requests)|
      ensures forall i | 0 <= i < |requests| ::
                requests[i] == (if old(requests)[i].status in {Pending, Claimed} && old(requests)[i].expiresAt <= now
                                then old(requests)[i].(status := Expired, token := None, claimExpiresAt := None)
                                else old(requests)[i])
    {
      ghost var was := requests;
      var i := 0;
      while i < |requests|
        invariant 0 <= i <= |requests| == |was|
        invariant forall k | 0 <= k < |was| :: requests[k] == if k < i then Swept(was[k], now) else was[k]
      {
        if requests[i].status in {Pending, Claimed} && requests[i].expiresAt <= now {
          requests := requests[i := requests[i].(status := Expired, token := None, claimExpiresAt := None)];
        }
        i := i + 1;
      }
    }

    method Submit(now: Time, c: Connector, id: Id, s: Submission) returns (verdict: Verdict)
      requires Valid()
      modifies this
      ensures Valid() && world == Step(old(world), Event.Submit(now, c, id, s))
      ensures verdict == NotFound <==>
                id >= |old(requests)| || old(requests)[id].connector != c.id || old(requests)[id].tenant != c.tenant
      ensures verdict == Conflict <==> verdict != NotFound && !MayBeAnswered(old(requests)[id], s.token, now)
      ensures verdict == TooLarge ==> s.result.Some? && |s.result.value| > 100000
      ensures verdict == Accepted ==> s.result.None? || |s.result.value| <= 100000
      ensures verdict != Accepted ==> requests == old(requests)
      ensures verdict == Accepted ==>
                requests == old(requests)[id := old(requests)[id].(
                  status := if s.ok then Completed else Failed, completedAt := Some(now),
                  result := if s.ok then s.result else None, error := if s.ok then None else s.error,
                  token := None, claimExpiresAt := None)]
    {
      verdict := NotFound;
      if id < |requests| && Owned(requests[id], c) {
        var r := requests[id];
        if !HoldsLease(r, s.token, now) {
          verdict := Conflict;
        } else if s.result.Some? && |s.result.value| > MAXIMUM_RESULT {
          verdict := TooLarge;
        } else {
          requests := requests[id := Answered(r, s, now)];
          verdict := Accepted;
        }
      }
      world := Step(world, Event.Submit(now, c, id, s));
    }

    method Result(now: Time, tenant: Id, id: Id) returns (r: Option<Request>)
      requires Valid()
      modifies this
      ensures Valid() && world == Step(old(world), Look(now, tenant, id))
      ensures if id < |old(requests)| && old(requests)[id].tenant == tenant
              then
                var seen := old(requests)[id];
                && requests == old(requests)[id := if seen.status in {Completed, Failed} || now < seen.expiresAt then seen
                                                   else seen.(status := Expired)]
                && r == Some(requests[id])
              else requests == old(requests) && r == None
    {
      r := None;
      if id < |requests| && requests[id].tenant == tenant {
        if requests[id].status !in {Completed, Failed} && requests[id].expiresAt <= now {
          requests := requests[id := requests[id].(status := Expired)];
        }
        r := Some(requests[id]);
      }
      world := Step(world, Look(now, tenant, id));
    }

    method ClearEphemeralPayload(now: Time, tenant: Id, id: Id)
      requires Valid()
      modifies this
      ensures Valid() && world == Step(old(world), Clear(now, tenant, id))
      ensures requests == if id < |old(requests)| && old(requests)[id].tenant == tenant
                          then old(requests)[id := old(requests)[id].(result := None, arguments := "{}")] else old(requests)
    {
      if id < |requests| && requests[id].tenant == tenant {
        requests := requests[id := requests[id].(result := None, arguments := "{}")];
      }
      world := Step(world, Clear(now, tenant, id));
    }
  }

  // --------------------------------------------------------------- invariant

  /** The leases of one request, oldest first: each lasts its 15 seconds, and none starts before the
      request was made or the previous lease has ended. */
  ghost predicate OneAfterAnother(leases: seq<Lease>, createdAt: Time) {
    && (forall k | 0 <= k < |leases| :: leases[k].end == leases[k].start + CLAIM_TTL && createdAt <= leases[k].start)
    && forall j, k | 0 <= j < k < |leases| :: leases[j].end <= leases[k].start
  }

  ghost predicate Timely(leases: seq<Lease>, createdAt: Time, clock: Time) {
    forall k | 0 <= k < |leases| :: leases[k].start < createdAt + REQUEST_TTL && leases[k].start <= clock
  }

  ghost predicate Consistent(e: Entry, clock: Time) {
    var r := e.request;
    && r.expiresAt == e.createdAt + REQUEST_TTL && e.createdAt <= clock
    && r.attempts == |e.leases| && OneAfterAnother(e.leases, e.createdAt) && Timely(e.leases, e.createdAt, clock)
    && (r.status == Pending ==> e.leases == [])
    && (r.status == Claimed ==>
          && e.leases != [] && r.token.Some? && r.claimExpiresAt.Some?
          && r.token.value == Last(e).token && r.claimExpiresAt.value == Last(e).end)
    && (r.status == Expired ==> r.expiresAt <= clock)
    && (r.status in {Completed, Failed} <==> e.answers != [])
    && (e.answers != [] ==> |e.answers| == 1 && Rightful(e))
  }

  ghost function Last(e: Entry): Lease
    requires e.leases != []
  {
    e.leases[|e.leases| - 1]
  }

  /** The answer carries the latest lease's token, came inside that lease and inside the request's
      life, and is what the status reports. */
  ghost predicate Rightful(e: Entry)
    requires e.answers != []
  {
    var a := e.answers[0];
    && e.leases != [] && a.token == Last(e).token
    && Last(e).start <= a.at < Last(e).end && a.at < e.createdAt + REQUEST_TTL
    && e.request.completedAt == Some(a.at) && e.request.status == (if a.ok then Completed else Failed)
  }

  /** No token stands for two leases. */
  ghost predicate TokensDistinct(w: World) {
    && (forall i, k | 0 <= i < |w.entries| && 0 <= k < |w.entries[i].leases| :: w.entries[i].leases[k].token in w.issued)
    && forall i, j, k, l | 0 <= i < |w.entries| && 0 <= k < |w.entries[i].leases|
                        && 0 <= j < |w.entries| && 0 <= l < |w.entries[j].leases|
                        && w.entries[i].leases[k].token == w.entries[j].leases[l].token :: i == j && k == l
  }

  ghost predicate Inv(w: World) {
    (forall i | 0 <= i < |w.entries| :: Consistent(w.entries[i], w.clock)) && TokensDistinct(w)
  }

  lemma Ages(e: Entry, before: Time, clock: Time)
    requires Consistent(e, before) && before <= clock
    ensures Consistent(e, clock)
  {
  }

  lemma TokensKept(v: World, w: World)
    requires TokensDistinct(v) && v.issued <= w.issued && |w.entries| == |v.entries|
    requires forall i | 0 <= i < |w.entries| :: w.entries[i].leases == v.entries[i].leases
    ensures TokensDistinct(w)
  {
  }

  lemma ClaimConsistent(e: Entry, clock: Time, now: Time, token: Token, c: Connector)
    requires Consistent(e, clock) && clock <= now && Claimable(e.request, c, now)
    ensures Consistent(ClaimEntry(e, now, token), now)
  {
    var f := ClaimEntry(e, now, token);
    assert forall k | 0 <= k < |e.leases| :: f.leases[k] == e.leases[k];
    assert forall k | 0 <= k < |e.leases| :: e.leases[k].end <= Last(e).end <= now;
  }

  lemma ClaimTokens(w: World, v: World, i: nat, now: Time, token: Token)
    requires TokensDistinct(w) && token !in w.issued && i < |w.entries|
    requires v.entries == w.entries[i := ClaimEntry(w.entries[i], now, token)] && v.issued == w.issued + {token}
    ensures TokensDistinct(v)
  {
    assert forall j, k | 0 <= j < |v.entries| && 0 <= k < |v.entries[j].leases| ::
      (j == i && k == |w.entries[i].leases|) || (k < |w.entries[j].leases| && v.entries[j].leases[k] == w.entries[j].leases[k]);
  }

  lemma {:induction false} ClaimInv(w: World, i: nat, now: Time, token: Token, c: Connector)
    requires Inv(w) && w.clock <= now && token !in w.issued
    requires i < |w.entries| && Claimable(w.entries[i].request, c, now)
    ensures Inv(World(w.entries[i := ClaimEntry(w.entries[i], now, token)], w.issued + {token}, now))
  {
    hide Consistent, TokensDistinct, Claimable;
    var v := World(w.entries[i := ClaimEntry(w.entries[i], now, token)], w.issued + {token}, now);
    ClaimConsistent(w.entries[i], w.clock, now, token, c);
    ClaimTokens(w, v, i, now, token);
    forall j | 0 <= j < |v.entries| ensures Consistent(v.entries[j], now) {
      if j != i {
        Ages(w.entries[j], w.clock, now);
      }
    }
  }

  lemma StepInv(w: World, e: Event)
    requires Inv(w) && Enabled(w, e)
    ensures Inv(Step(w, e))
  {
    hide TokensDistinct, OneAfterAnother, Timely, FirstClaimable, SweptAll;
    var v := Step(w, e);
    forall i | 0 <= i < |w.entries| ensures Consistent(w.entries[i], e.now) {
      Ages(w.entries[i], w.clock, e.now);
    }
    match e
    case Create(_, _, _, _) => CreateInv(w, e);
    case Claiming(now, c, token) =>
      var i := FirstClaimable(w.entries, c, now);
      if i < |w.entries| {
        ClaimInv(w, i, now, token, c);
      } else {
        SweepInv(w, now);
      }
    case Submit(_, _, _, _) =>
      if v.entries == w.entries {
        TokensKept(w, v);
      } else {
        SubmitInv(w, e);
      }
    case Look(now, tenant, id) =>
      if id < |w.entries| && w.entries[id].request.tenant == tenant {
        ChangeInv(w, id, v.entries[id], now);
      } else {
        TokensKept(w, v);
      }
    case Clear(now, tenant, id) =>
      if id < |w.entries| && w.entries[id].request.tenant == tenant {
        ChangeInv(w, id, v.entries[id], now);
      } else {
        TokensKept(w, v);
      }
  }

  lemma CreateInv(w: World, e: Event)
    requires Inv(w) && Enabled(w, e) && e.Create?
    ensures Inv(Step(w, e))
  {
    var v := Step(w, e);
    var last := |w.entries|;
    assert v.entries[last].leases == [];
    forall i | 0 <= i < |v.entries| ensures Consistent(v.entries[i], e.now) {
      if i < last {
        assert v.entries[i] == w.entries[i];
        Ages(w.entries[i], w.clock, e.now);
      }
    }
    assert forall i | 0 <= i < last :: v.entries[i] == w.entries[i];
  }

  /** A change of one row that gives no lease. */
  lemma ChangeInv(w: World, i: nat, f: Entry, now: Time)
    requires Inv(w) && w.clock <= now && i < |w.entries|
    requires Consistent(f, now) && f.leases == w.entries[i].leases
    ensures Inv(World(w.entries[i := f], w.issued, now))
  {
    hide Consistent, TokensDistinct;
    forall j | 0 <= j < |w.entries| ensures Consistent(w.entries[j], now) {
      Ages(w.entries[j], w.clock, now);
    }
    TokensKept(w, World(w.entries[i := f], w.issued, now));
  }

  lemma SweepInv(w: World, now: Time)
    requires Inv(w) && w.clock <= now
    ensures Inv(World(SweptAll(w.entries, now), w.issued, now))
  {
    hide TokensDistinct, OneAfterAnother;
    forall j | 0 <= j < |w.entries| ensures Consistent(SweptAll(w.entries, now)[j], now) {
      Ages(w.entries[j], w.clock, now);
    }
    TokensKept(w, World(SweptAll(w.entries, now), w.issued, now));
  }

  lemma SubmitInv(w: World, e: Event)
    requires Inv(w) && Enabled(w, e) && e.Submit? && Step(w, e).entries != w.entries
    ensures Inv(Step(w, e))
  {
    hide TokensDistinct, OneAfterAnother;
    Ages(w.entries[e.id], w.clock, e.now);
    ChangeInv(w, e.id, AnswerEntry(w.entries[e.id], e.submission, e.now), e.now);
  }

  lemma {:induction false} RunInv(w: World, events: seq<Event>)
    requires Inv(w) && IsRun(w, events)
    ensures Inv(After(w, events))
    decreases |events|
  {
    if events != [] {
      StepInv(w, events[0]);
      RunInv(Step(w, events[0]), events[1..]);
    }
  }

  // ------------------------------------------------------------ main results

  predicate During(l: Lease, t: Time) {
    l.start <= t < l.end
  }

  lemma TwoLeasesFillTheLife(leases: seq<Lease>, createdAt: Time)
    requires OneAfterAnother(leases, createdAt) && |leases| > 2
    ensures createdAt + REQUEST_TTL <= leases[2].start
  {
    assert leases[0].end <= leases[1].start && leases[1].end <= leases[2].start;
  }

  /** In every run the leases of a request do not overlap and there are at most two of them, because
      a third would start at the end of the request's life. */
  lemma LeasesAreDisjoint(clock: Time, events: seq<Event>, i: nat)
    requires IsRun(Start(clock), events) && i < |After(Start(clock), events).entries|
    ensures var e := After(Start(clock), events).entries[i];
      && |e.leases| <= 2
      && (forall t: Time, j, k | 0 <= j < k < |e.leases| :: !(During(e.leases[j], t) && During(e.leases[k], t)))
  {
    RunInv(Start(clock), events);
    var e := After(Start(clock), events).entries[i];
    assert Consistent(e, After(Start(clock), events).clock);
    if |e.leases| > 2 {
      TwoLeasesFillTheLife(e.leases, e.createdAt);
    }
  }

  /** The limit of three attempts never decides: whenever a claim looks at a request, the other
      conditions give the same answer without it. */
  lemma AttemptLimitNeverBinds(clock: Time, events: seq<Event>, i: nat, c: Connector, now: Time)
    requires IsRun(Start(clock), events) && i < |After(Start(clock), events).entries|
    requires After(Start(clock), events).clock <= now
    ensures var r := After(Start(clock), events).entries[i].request;
      Claimable(r, c, now) <==> Owned(r, c) && r.expiresAt > now && Free(r, now)
  {
    LeasesAreDisjoint(clock, events, i);
    RunInv(Start(clock), events);
    assert Consistent(After(Start(clock), events).entries[i], After(Start(clock), events).clock);
  }

  /** In every run a request is answered at most once; the answer carries the token of the latest
      lease, which is no other lease's token, and arrived inside that lease and the request's life. */
  lemma AnsweredOnce(clock: Time, events: seq<Event>, i: nat)
    requires IsRun(Start(clock), events) && i < |After(Start(clock), events).entries|
    ensures var w := After(Start(clock), events);
      var e := w.entries[i];
      && |e.answers| <= 1 && (e.answers != [] <==> e.request.status in {Completed, Failed})
      && (e.answers != [] ==>
            && Rightful(e)
            && forall j, l | 0 <= j < |w.entries| && 0 <= l < |w.entries[j].leases|
                 && w.entries[j].leases[l].token == e.answers[0].token :: j == i && l == |e.leases| - 1)
  {
    RunInv(Start(clock), events);
    var w := After(Start(clock), events);
    assert Consistent(w.entries[i], w.clock);
    assert w.entries[i].leases != [] ==> w.entries[i].leases[|w.entries[i].leases| - 1] == Last(w.entries[i]);
  }

  /** A submission of acceptable size is taken exactly when the history allows it: the request is the
      connector's own, unanswered, alive, and the token is that of its latest lease, still running. */
  lemma SubmitAcceptedIff(clock: Time, events: seq<Event>, i: nat, c: Connector, s: Submission, now: Time)
    requires IsRun(Start(clock), events) && i < |After(Start(clock), events).entries|
    requires After(Start(clock), events).clock <= now
    ensures var e := After(Start(clock), events).entries[i];
      Judge(e.request, c, s, now) == Accepted <==>
        && e.request.connector == c.id && e.request.tenant == c.tenant && e.answers == [] && now < e.createdAt + 30000000
        && e.leases != [] && s.token == Last(e).token && now < Last(e).end
        && (s.result.Some? ==> |s.result.value| <= 100000)
  {
    RunInv(Start(clock), events);
    var w := After(Start(clock), events);
    assert Consistent(w.entries[i], w.clock);
  }

  predicate Terminal(r: Request) {
    r.status in {Completed, Failed, Expired}
  }

  /** A request that is completed, failed or expired stays so, with the same answer, for ever; no
      later lease is given on it and nothing but its payload is cleared. */
  lemma {:induction false} TerminalIsAbsorbing(w: World, events: seq<Event>, i: nat)
    requires IsRun(w, events) && i < |w.entries| && Terminal(w.entries[i].request)
    ensures var v := After(w, events);
      && i < |v.entries| && v.entries[i].request.status == w.entries[i].request.status
      && v.entries[i].answers == w.entries[i].answers && v.entries[i].leases == w.entries[i].leases
      && v.entries[i].request.result in {w.entries[i].request.result, None}
      && v.entries[i].request.error == w.entries[i].request.error
    decreases |events|
  {
    if events != [] {
      TerminalIsAbsorbing(Step(w, events[0]), events[1..], i);
    }
  }
}
