/** Linking the identities of an OpenID provider to the users of a tenant. */
module OidcLinking {
  import opened Options

  type Id = nat

  datatype User = User(
    tenant: Id, email: string, fullName: string, sso: bool, subject: Option<string>, active: bool, locked: bool)

  type Users = map<Id, User>

  datatype Identity = Identity(oid: Option<string>, sub: Option<string>, email: string, displayName: Option<string>)

  /** `normalize` is the program's normal form of an address, `canonical` the database's. */
  datatype Forms = Forms(normalize: string -> string, canonical: string -> string)

  datatype Result = Done(id: Id) | Rejected | Conflict

  predicate Given(text: Option<string>) {
    text.Some? && text.value != ""
  }

  /** What the extraction of an identity from its claims guarantees. */
  predicate Extracted(identity: Identity) {
    Given(identity.oid) || Given(identity.sub)
  }

  function Subject(identity: Identity): string
    requires Extracted(identity)
  {
    if Given(identity.oid) then identity.oid.value else identity.sub.value
  }

  function Or(text: Option<string>, other: string): string {
    if Given(text) then text.value else other
  }

  /** The unique indexes: one user per tenant and subject, and per tenant and canonical address. */
  ghost predicate Unique(users: Users, forms: Forms) {
    forall i, j | i in users && j in users && i != j && users[i].tenant == users[j].tenant ::
      && (users[i].subject.None? || users[i].subject != users[j].subject)
      && forms.canonical(users[i].email) != forms.canonical(users[j].email)
  }

  predicate Holds(u: User, tenant: Id, subject: string) {
    u.tenant == tenant && u.subject == Some(subject)
  }

  predicate Held(users: Users, tenant: Id, subject: Option<string>) {
    Given(subject) && exists i | i in users :: Holds(users[i], tenant, subject.value)
  }

  predicate HasAddress(u: User, tenant: Id, canonical: string -> string, address: string) {
    u.tenant == tenant && canonical(u.email) == address
  }

  predicate AddressTaken(users: Users, tenant: Id, canonical: string -> string, address: string) {
    exists i | i in users :: HasAddress(users[i], tenant, canonical, address)
  }

  // ------------------------------------------------- what provisioning promises

  function LookupAddress(forms: Forms, identity: Identity): string {
    forms.normalize(forms.normalize(identity.email))
  }

  /** The user an identity stands for: the holder of its oid, else of its sub, else the owner of its
      address. */
  ghost predicate Stands(users: Users, forms: Forms, tenant: Id, identity: Identity, i: Id) {
    && i in users
    && if Held(users, tenant, identity.oid) then Holds(users[i], tenant, identity.oid.value)
       else if Held(users, tenant, identity.sub) then Holds(users[i], tenant, identity.sub.value)
       else HasAddress(users[i], tenant, forms.canonical, LookupAddress(forms, identity))
  }

  /** May that user sign in with the identity? A user found by an old subject must be an SSO user, and
      one found by address must not be bound to another subject. */
  ghost predicate Admits(users: Users, tenant: Id, identity: Identity, i: Id)
    requires i in users
  {
    && users[i].active && !users[i].locked
    && (Held(users, tenant, identity.oid) || !Held(users, tenant, identity.sub) || !Given(identity.oid) || users[i].sso)
    && (Held(users, tenant, identity.oid) || Held(users, tenant, identity.sub) || !Given(users[i].subject))
  }

  function Linked(u: User, identity: Identity): User
    requires Extracted(identity)
  {
    u.(fullName := Or(identity.displayName, u.fullName), sso := true, subject := Some(Subject(identity)))
  }

  function NewUser(forms: Forms, tenant: Id, identity: Identity): User
    requires Extracted(identity)
  {
    User(tenant, forms.normalize(identity.email), Or(identity.displayName, identity.email), true,
         Some(Subject(identity)), true, false)
  }

  /** What a call does: the user the identity stands for is linked if admitted; if there is none, a user
      is made unless the database holds the new address already; a failure changes nothing. */
  ghost predicate IsOutcome(
    users: Users, forms: Forms, tenant: Id, identity: Identity, next: Id, r: Result, after: Users)
    requires Extracted(identity)
  {
    if exists i :: Stands(users, forms, tenant, identity, i) then
      exists i :: Stands(users, forms, tenant, identity, i)
                  && if Admits(users, tenant, identity, i)
                     then r == Done(i) && after == users[i := Linked(users[i], identity)]
                     else r == Rejected && after == users
    else
      var u := NewUser(forms, tenant, identity);
      if AddressTaken(users, tenant, forms.canonical, forms.canonical(u.email)) then r == Conflict && after == users
      else next !in users && r == Done(next) && after == users[next := u]
  }

  // ------------------------------------------------------------- repository

  class TenantUserRepository {
    var users: Users
    const forms: Forms

    constructor (users: Users, forms: Forms)
      ensures this.users == users && this.forms == forms
    {
      this.users, this.forms := users, forms;
    }

    method GetBySubject(tenant: Id, subject: string) returns (found: Option<Id>)
      ensures found.Some? ==> found.value in users && Holds(users[found.value], tenant, subject)
      ensures found.None? ==> forall i | i in users :: !Holds(users[i], tenant, subject)
    {
      found := None;
      if i: Id :| i in users && Holds(users[i], tenant, subject) {
        found := Some(i);
      }
    }

    method GetByEmail(tenant: Id, email: string) returns (found: Option<Id>)
      ensures var address := forms.normalize(email);
        && (found.Some? ==> found.value in users && HasAddress(users[found.value], tenant, forms.canonical, address))
        && (found.None? ==> forall i | i in users :: !HasAddress(users[i], tenant, forms.canonical, address))
    {
      found := None;
      if i: Id :| i in users && HasAddress(users[i], tenant, forms.canonical, forms.normalize(email)) {
        found := Some(i);
      }
    }

    /** The compare-and-set; None is the violation of the unique index, which rolls back. */
    method UpdateSubjectIfMatches(tenant: Id, id: Id, expected: string, subject: string) returns (changed: Option<bool>)
      modifies this
      ensures changed == Some(true) ==>
                id in old(users) && Holds(old(users)[id], tenant, expected)
                && users == old(users)[id := old(users)[id].(subject := Some(subject))]
      ensures changed != Some(true) ==> users == old(users)
      ensures old(Unique(users, forms)) ==> Unique(users, forms)
      ensures changed == Some(false) <==> !(id in old(users) && Holds(old(users)[id], tenant, expected))
      ensures changed.None? <==>
              && id in old(users) && Holds(old(users)[id], tenant, expected)
              && exists j | j in old(users) :: j != id && Holds(old(users)[j], tenant, subject)
    {
      if !(id in users && Holds(users[id], tenant, expected)) {
        return Some(false);
      }
      if exists j | j in users :: j != id && Holds(users[j], tenant, subject) {
        return None;
      }
      users := users[id := users[id].(subject := Some(subject))];
      changed := Some(true);
    }
  }

  // ----------------------------------------------------------------- service

  class OidcUserService {
    const repository: TenantUserRepository

    constructor (repository: TenantUserRepository)
      ensures this.repository == repository
    {
      this.repository := repository;
    }

    /** Move a legacy user from sub to oid, on whatever the table holds by then: another callback may
        have done it already, and a conflict is refused without a trace. */
    method Migrate(tenant: Id, legacy: Id, sub: string, oid: string) returns (user: Option<Id>)
      requires Unique(repository.users, repository.forms)
      modifies repository
      ensures Unique(repository.users, repository.forms)
      ensures user.Some? ==> user.value == legacy && legacy in repository.users && Holds(repository.users[legacy], tenant, oid)
      ensures user.None? ==> repository.users == old(repository.users)
      ensures repository.users == old(repository.users)
           || (legacy in old(repository.users) && Holds(old(repository.users)[legacy], tenant, sub)
               && repository.users
                  == old(repository.users)[legacy := old(repository.users)[legacy].(subject := Some(oid))])
      ensures user.None? <==>
              && !(legacy in old(repository.users) && Holds(old(repository.users)[legacy], tenant, oid))
              && (!(legacy in old(repository.users) && Holds(old(repository.users)[legacy], tenant, sub))
                  || exists j | j in old(repository.users) :: j != legacy && Holds(old(repository.users)[j], tenant, oid))
    {
      var changed := repository.UpdateSubjectIfMatches(tenant, legacy, sub, oid);
      if changed == Some(true) {
        return Some(legacy);
      }
      assert changed.Some? ==> !changed.value;
      user := repository.GetBySubject(tenant, oid);
      if user.Some? && user.value != legacy {
        assert Holds(old(repository.users)[user.value], tenant, oid);
        user := None;
      }
    }

    method Provision(tenant: Id, identity: Identity, next: Id) returns (r: Result)
      requires Extracted(identity) && Unique(repository.users, repository.forms) && next !in repository.users
      modifies repository
      ensures IsOutcome(old(repository.users), repository.forms, tenant, identity, next, r, repository.users)
    {
      ghost var was := repository.users;
      var user: Option<Id> := None;
      if Given(identity.oid) {
        user := repository.GetBySubject(tenant, identity.oid.value);
      } else {
        user := repository.GetBySubject(tenant, identity.sub.value);
      }
      if user.None? && Given(identity.oid) && Given(identity.sub) {
        var legacy := repository.GetBySubject(tenant, identity.sub.value);
        if legacy.Some? {
          assert Stands(was, repository.forms, tenant, identity, legacy.value);
          var u := repository.users[legacy.value];
          if !u.sso || !u.active || u.locked {
            return Rejected;
          }
          user := Migrate(tenant, legacy.value, identity.sub.value, identity.oid.value);
          if user.None? {
            return Rejected;
          }
        }
      }
      if user.None? {
        user := repository.GetByEmail(tenant, repository.forms.normalize(identity.email));
        if user.Some? {
          assert Stands(was, repository.forms, tenant, identity, user.value);
          var bound := repository.users[user.value].subject;
          if Given(bound) && !(bound == identity.oid || bound == identity.sub) {
            return Rejected;
          }
        }
      }
      if user.None? {
        var u := NewUser(repository.forms, tenant, identity);
        if AddressTaken(repository.users, tenant, repository.forms.canonical, repository.forms.canonical(u.email)) {
          return Conflict;
        }
        repository.users := repository.users[next := u];
        return Done(next);
      }
      var u := repository.users[user.value];
      if !u.active || u.locked {
        assert Stands(was, repository.forms, tenant, identity, user.value);
        return Rejected;
      }
      u := u.(fullName := Or(identity.displayName, u.fullName), sso := true);
      if !Given(u.subject) {
        u := u.(subject := Some(Subject(identity)));
      }
      assert Stands(was, repository.forms, tenant, identity, user.value);
      repository.users := repository.users[user.value := u];
      r := Done(user.value);
    }
  }

  // ---------------------------------------------------- the outcome, in columns

  /** The user's subject is this claim, which is not empty. */
  ghost predicate BoundTo(users: Users, i: Id, tenant: Id, claim: Option<string>) {
    i in users && users[i].tenant == tenant && users[i].subject == claim && claim.Some? && claim.value != ""
  }

  ghost predicate Nobody(users: Users, tenant: Id, claim: Option<string>) {
    forall i :: !BoundTo(users, i, tenant, claim)
  }

  ghost predicate Addressed(users: Users, forms: Forms, i: Id, tenant: Id, email: string) {
    i in users && users[i].tenant == tenant && forms.canonical(users[i].email) == forms.normalize(forms.normalize(email))
  }

  /** The user found: by oid, else by sub, else by address. */
  ghost predicate Found(users: Users, forms: Forms, tenant: Id, identity: Identity, i: Id) {
    || BoundTo(users, i, tenant, identity.oid)
    || (Nobody(users, tenant, identity.oid) && BoundTo(users, i, tenant, identity.sub))
    || (Nobody(users, tenant, identity.oid) && Nobody(users, tenant, identity.sub)
        && Addressed(users, forms, i, tenant, identity.email))
  }

  /** Turned away are inactive and locked users, users found by an old subject who do not sign in here, and
      users found by address who have a subject. */
  ghost predicate TurnedAway(users: Users, tenant: Id, identity: Identity, i: Id)
    requires i in users
  {
    || !users[i].active || users[i].locked
    || (!BoundTo(users, i, tenant, identity.oid) && BoundTo(users, i, tenant, identity.sub)
        && identity.oid.Some? && identity.oid.value != "" && !users[i].sso)
    || (!BoundTo(users, i, tenant, identity.oid) && !BoundTo(users, i, tenant, identity.sub)
        && users[i].subject.Some? && users[i].subject.value != "")
  }

  lemma FoundIff(users: Users, forms: Forms, tenant: Id, identity: Identity, i: Id)
    ensures Found(users, forms, tenant, identity, i) <==> Stands(users, forms, tenant, identity, i)
    ensures Found(users, forms, tenant, identity, i) ==> i in users
  {
    HeldIff(users, tenant, identity.oid);
    HeldIff(users, tenant, identity.sub);
  }

  lemma HeldIff(users: Users, tenant: Id, claim: Option<string>)
    ensures Held(users, tenant, claim) <==> !Nobody(users, tenant, claim)
  {
    if Held(users, tenant, claim) {
      var i :| i in users && Holds(users[i], tenant, claim.value);
      assert BoundTo(users, i, tenant, claim);
    }
  }

  lemma TurnedAwayIff(users: Users, forms: Forms, tenant: Id, identity: Identity, i: Id)
    requires Found(users, forms, tenant, identity, i)
    ensures TurnedAway(users, tenant, identity, i) <==> !Admits(users, tenant, identity, i)
  {
    HeldIff(users, tenant, identity.oid);
    HeldIff(users, tenant, identity.sub);
  }

  /** Column by column what a call does. */
  lemma OutcomeIs(users: Users, forms: Forms, tenant: Id, identity: Identity, next: Id, r: Result, after: Users)
    requires Unique(users, forms) && Extracted(identity) && IsOutcome(users, forms, tenant, identity, next, r, after)
    ensures
      var subject := if identity.oid.Some? && identity.oid.value != "" then identity.oid else identity.sub;
      var named := identity.displayName.Some? && identity.displayName.value != "";
      && (forall i | Found(users, forms, tenant, identity, i) ::
            if TurnedAway(users, tenant, identity, i) then r == Rejected && after == users
            else
              && r == Done(i)
              && after == users[i := users[i].(
                   sso := true, subject := subject, fullName := if named then identity.displayName.value else users[i].fullName)])
      && ((forall i :: !Found(users, forms, tenant, identity, i)) ==>
            if exists j | j in users :: users[j].tenant == tenant
                                        && forms.canonical(users[j].email) == forms.canonical(forms.normalize(identity.email))
            then r == Conflict && after == users
            else
              && r == Done(next) && next !in users
              && after == users[next := User(
                   tenant, forms.normalize(identity.email), if named then identity.displayName.value else identity.email,
                   true, subject, true, false)])
  {
    hide Unique, Found, TurnedAway, Stands, Admits;
    forall i ensures Found(users, forms, tenant, identity, i) <==> Stands(users, forms, tenant, identity, i) {
      FoundIff(users, forms, tenant, identity, i);
    }
    forall i | Found(users, forms, tenant, identity, i)
      ensures i in users && (TurnedAway(users, tenant, identity, i) <==> !Admits(users, tenant, identity, i))
      ensures forall k | Stands(users, forms, tenant, identity, k) :: k == i
    {
      FoundIff(users, forms, tenant, identity, i);
      TurnedAwayIff(users, forms, tenant, identity, i);
      forall k | Stands(users, forms, tenant, identity, k) ensures k == i {
        OnlyOne(users, forms, tenant, identity, i, k);
      }
    }
  }

  // ------------------------------------------------------------ main results

  lemma OnlyOne(users: Users, forms: Forms, tenant: Id, identity: Identity, i: Id, j: Id)
    requires Unique(users, forms) && Stands(users, forms, tenant, identity, i) && Stands(users, forms, tenant, identity, j)
    ensures i == j
  {
  }

  /** A successful call returns a live user of the tenant bound to the identity's subject, and leaves
      subjects and addresses unique. */
  lemma LinkIsUnique(users: Users, forms: Forms, tenant: Id, identity: Identity, next: Id, r: Result, after: Users)
    requires Unique(users, forms) && Extracted(identity) && IsOutcome(users, forms, tenant, identity, next, r, after)
    ensures Unique(after, forms)
    ensures r.Done? ==>
              && r.id in after && Holds(after[r.id], tenant, Subject(identity))
              && after[r.id].active && !after[r.id].locked && after[r.id].sso
    ensures !r.Done? ==> after == users
  {
    if i :| Stands(users, forms, tenant, identity, i) {
      var k :| Stands(users, forms, tenant, identity, k)
               && if Admits(users, tenant, identity, k)
                  then r == Done(k) && after == users[k := Linked(users[k], identity)]
                  else r == Rejected && after == users;
      if r.Done? {
        assert forall j | j in users && j != k && users[j].tenant == tenant :: !Holds(users[j], tenant, Subject(identity)) by {
          NobodyElse(users, forms, tenant, identity, k);
        }
      }
    } else if r.Done? {
      assert forall j | j in users :: !Holds(users[j], tenant, Subject(identity)) by {
        NobodyAtAll(users, forms, tenant, identity);
      }
      assert forall j | j in users ::
        !HasAddress(users[j], tenant, forms.canonical, forms.canonical(after[next].email));
    }
  }

  lemma NobodyElse(users: Users, forms: Forms, tenant: Id, identity: Identity, k: Id)
    requires Unique(users, forms) && Extracted(identity) && Stands(users, forms, tenant, identity, k)
    ensures forall j | j in users && j != k :: !Holds(users[j], tenant, Subject(identity))
  {
  }

  lemma NobodyAtAll(users: Users, forms: Forms, tenant: Id, identity: Identity)
    requires Extracted(identity) && forall i :: !Stands(users, forms, tenant, identity, i)
    ensures forall j | j in users :: !Holds(users[j], tenant, Subject(identity))
  {
    forall j | j in users ensures !Holds(users[j], tenant, Subject(identity)) {
      if Holds(users[j], tenant, Subject(identity)) {
        assert Stands(users, forms, tenant, identity, j);
      }
    }
  }

  lemma OutcomeOf(
    users: Users, forms: Forms, tenant: Id, identity: Identity, next: Id, r: Result, after: Users, i: Id)
    requires Unique(users, forms) && Extracted(identity) && IsOutcome(users, forms, tenant, identity, next, r, after)
    requires Stands(users, forms, tenant, identity, i) && Admits(users, tenant, identity, i)
    ensures r == Done(i)
  {
    hide Admits;
    var k :| Stands(users, forms, tenant, identity, k)
             && if Admits(users, tenant, identity, k)
                then r == Done(k) && after == users[k := Linked(users[k], identity)]
                else r == Rejected && after == users;
    OnlyOne(users, forms, tenant, identity, i, k);
  }

  /** A user's subject, once set, changes only from the identity's sub to its oid; no other user, and
      no user's address, tenant or standing is touched. */
  lemma OnlySubMovesToOid(users: Users, forms: Forms, tenant: Id, identity: Identity, next: Id, r: Result, after: Users)
    requires Unique(users, forms) && Extracted(identity) && IsOutcome(users, forms, tenant, identity, next, r, after)
    ensures forall j | j in users ::
              && j in after && after[j].email == users[j].email && after[j].tenant == users[j].tenant
              && after[j].active == users[j].active && after[j].locked == users[j].locked
              && (r != Done(j) ==> after[j] == users[j])
              && (Given(users[j].subject) && after[j].subject != users[j].subject ==>
                    users[j].subject == identity.sub && Given(identity.oid) && after[j].subject == identity.oid)
  {
  }

  // -------------------------------------------------------------------- runs

  datatype Call = Call(tenant: Id, identity: Identity, next: Id)

  /** Calls one after another, each on the table the one before left. */
  ghost predicate IsRun(states: seq<Users>, calls: seq<Call>, results: seq<Result>, forms: Forms) {
    && |states| == |calls| + 1 && |results| == |calls|
    && forall k | 0 <= k < |calls| :: IsCall(states[k], forms, calls[k], results[k], states[k + 1])
  }

  ghost predicate IsCall(users: Users, forms: Forms, c: Call, r: Result, after: Users) {
    Extracted(c.identity) && IsOutcome(users, forms, c.tenant, c.identity, c.next, r, after)
  }

  /** A user who has signed in: live, an SSO user, bound to some subject. */
  predicate SignedIn(users: Users, tenant: Id, i: Id) {
    i in users && users[i].tenant == tenant && users[i].active && !users[i].locked && users[i].sso && Given(users[i].subject)
  }

  /** An identity of the tenant that claims the subject as its sub, under an oid of its own. */
  predicate Claims(c: Call, tenant: Id, subject: string) {
    c.tenant == tenant && Given(c.identity.oid) && c.identity.oid.value != subject && c.identity.sub == Some(subject)
  }

  /** A call takes a subject from its holder exactly when it signs the holder in with an identity that has
      the subject for its sub and another oid. */
  lemma MovedIff(users: Users, forms: Forms, c: Call, r: Result, after: Users, tenant: Id, i: Id, subject: string)
    requires Unique(users, forms) && IsCall(users, forms, c, r, after)
    requires SignedIn(users, tenant, i) && Holds(users[i], tenant, subject)
    ensures SignedIn(after, tenant, i)
    ensures !Holds(after[i], tenant, subject) <==> r == Done(i) && Claims(c, tenant, subject)
  {
    hide Unique, IsOutcome;
    OnlySubMovesToOid(users, forms, c.tenant, c.identity, c.next, r, after);
    LinkIsUnique(users, forms, c.tenant, c.identity, c.next, r, after);
    KeepsSso(users, forms, c, r, after, i);
  }

  lemma KeepsSso(users: Users, forms: Forms, c: Call, r: Result, after: Users, i: Id)
    requires IsCall(users, forms, c, r, after) && i in users && users[i].sso
    ensures i in after && after[i].sso
  {
  }

  lemma {:induction false} StaysSignedIn(
    states: seq<Users>, calls: seq<Call>, results: seq<Result>, forms: Forms, n: nat, tenant: Id, i: Id, subject: string)
    requires IsRun(states, calls, results, forms) && Unique(states[0], forms) && 1 <= n <= |calls|
    requires SignedIn(states[1], tenant, i) && Holds(states[1][i], tenant, subject)
    ensures Unique(states[n], forms) && SignedIn(states[n], tenant, i)
    ensures (forall k | 1 <= k < n :: !Claims(calls[k], tenant, subject)) ==> Holds(states[n][i], tenant, subject)
  {
    hide Unique, IsOutcome;
    if n > 1 {
      StaysSignedIn(states, calls, results, forms, n - 1, tenant, i, subject);
      assert IsCall(states[n - 1], forms, calls[n - 1], results[n - 1], states[n - 1 + 1]);
      MovedIff(states[n - 1], forms, calls[n - 1], results[n - 1], states[n], tenant, i, states[n - 1][i].subject.value);
      LinkIsUnique(states[n - 1], forms, calls[n - 1].tenant, calls[n - 1].identity, calls[n - 1].next, results[n - 1], states[n]);
    } else {
      assert IsCall(states[0], forms, calls[0], results[0], states[0 + 1]);
      LinkIsUnique(states[0], forms, calls[0].tenant, calls[0].identity, calls[0].next, results[0], states[1]);
    }
  }

  /** The user still answers to the identity: by its oid, or by its sub while nobody has the oid. */
  ghost predicate StillAnswers(users: Users, tenant: Id, identity: Identity, i: Id)
    requires Extracted(identity) && i in users
  {
    || Holds(users[i], tenant, Subject(identity))
    || (Given(identity.oid) && !Held(users, tenant, identity.oid) && Given(identity.sub) && Holds(users[i], tenant, identity.sub.value))
  }

  lemma SameUserIff(
    users: Users, forms: Forms, tenant: Id, identity: Identity, next: Id, r: Result, after: Users, i: Id)
    requires Unique(users, forms) && Extracted(identity) && IsOutcome(users, forms, tenant, identity, next, r, after)
    requires SignedIn(users, tenant, i)
    ensures r == Done(i) <==> StillAnswers(users, tenant, identity, i)
  {
    if StillAnswers(users, tenant, identity, i) {
      assert Stands(users, forms, tenant, identity, i) && Admits(users, tenant, identity, i);
      OutcomeOf(users, forms, tenant, identity, next, r, after, i);
    }
  }

  /** A later call with the same oid and sub, after any other calls and whatever address and name it brings by
      then, returns the same user if and only if that user still answers to the identity; and so it does
      unless, in between, another identity of the tenant claimed the subject as its sub under
      its own oid. The link rests on the subject and not on the address. */
  lemma LinkIsStable(
    states: seq<Users>, calls: seq<Call>, results: seq<Result>, forms: Forms, i: Id,
    again: Identity, next: Id, r: Result, later: Users)
    requires IsRun(states, calls, results, forms) && Unique(states[0], forms) && |calls| >= 1 && results[0] == Done(i)
    requires again.oid == calls[0].identity.oid && again.sub == calls[0].identity.sub && Extracted(again)
    requires IsOutcome(states[|calls|], forms, calls[0].tenant, again, next, r, later)
    ensures i in states[|calls|]
    ensures r == Done(i) <==> StillAnswers(states[|calls|], calls[0].tenant, again, i)
    ensures (forall k | 1 <= k < |calls| :: !Claims(calls[k], calls[0].tenant, Subject(again))) ==> r == Done(i)
  {
    hide Unique, IsOutcome;
    assert IsCall(states[0], forms, calls[0], results[0], states[0 + 1]);
    LinkIsUnique(states[0], forms, calls[0].tenant, calls[0].identity, calls[0].next, results[0], states[1]);
    StaysSignedIn(states, calls, results, forms, |calls|, calls[0].tenant, i, Subject(again));
    SameUserIff(states[|calls|], forms, calls[0].tenant, again, next, r, later, i);
  }

  /** The database refuses a new user exactly when its own form of the address matches a user that the
      program's form did not find; with one and the same form that never happens. */
  lemma ConflictIff(users: Users, forms: Forms, tenant: Id, identity: Identity, next: Id, r: Result, after: Users)
    requires Unique(users, forms) && Extracted(identity) && IsOutcome(users, forms, tenant, identity, next, r, after)
    ensures r == Conflict <==>
              && (forall i :: !Stands(users, forms, tenant, identity, i))
              && AddressTaken(users, tenant, forms.canonical, forms.canonical(forms.normalize(identity.email)))
    ensures forms.canonical(forms.normalize(identity.email)) == LookupAddress(forms, identity) ==> r != Conflict
  {
    if forms.canonical(forms.normalize(identity.email)) == LookupAddress(forms, identity) && r == Conflict {
      var j :| j in users && HasAddress(users[j], tenant, forms.canonical, LookupAddress(forms, identity));
      assert !Stands(users, forms, tenant, identity, j);
      if h: Id :| h in users && Given(identity.oid) && Holds(users[h], tenant, identity.oid.value) {
        assert Stands(users, forms, tenant, identity, h);
      } else if h: Id :| h in users && Given(identity.sub) && Holds(users[h], tenant, identity.sub.value) {
        assert Stands(users, forms, tenant, identity, h);
      }
    }
  }
}
