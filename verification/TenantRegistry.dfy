/** The in-memory registry of tenants, which must go on answering as the database would. `fold` stands
    for Python's `str.lower` throughout. */
module TenantRegistry {
  import opened Options

  type Id = nat
  type Fold = string -> string

  datatype Status = Active | Suspended | Retired

  datatype Tenant = Tenant(
    slug: string, primaryDomain: Option<string>, subdomain: Option<string>, status: Status,
    displayName: string, timezone: string)

  datatype Definition = Definition(
    id: Id, slug: string, hostname: string, enabled: bool, displayName: string, timezone: string)

  function Hostname(t: Tenant): string {
    if t.subdomain.Some? then t.subdomain.value else ""
  }

  function DefinitionOf(id: Id, t: Tenant): Definition {
    Definition(id, t.slug, Hostname(t), t.status == Active, t.displayName, t.timezone)
  }

  // ---------------------------------------------------------------- two maps

  datatype Maps = Maps(byHost: map<string, Definition>, bySlug: map<string, Definition>)

  function WithoutHost(m: Maps, fold: Fold, slug: string): map<string, Definition> {
    if fold(slug) in m.bySlug && m.bySlug[fold(slug)].hostname != ""
    then m.byHost - {fold(m.bySlug[fold(slug)].hostname)} else m.byHost
  }

  function Added(m: Maps, fold: Fold, d: Definition): Maps {
    var hosts := WithoutHost(m, fold, d.slug);
    Maps(if d.hostname != "" then hosts[fold(d.hostname) := d] else hosts, m.bySlug[fold(d.slug) := d])
  }

  function RemovedBySlug(m: Maps, fold: Fold, slug: string): Maps {
    Maps(WithoutHost(m, fold, slug), m.bySlug - {fold(slug)})
  }

  function RemovedByHost(m: Maps, fold: Fold, host: string): Maps {
    Maps(m.byHost - {fold(host)},
         if fold(host) in m.byHost then m.bySlug - {fold(m.byHost[fold(host)].slug)} else m.bySlug)
  }

  /** `m` without the host name under which its tenant of this slug was held. */
  ghost predicate HostDropped(m: Maps, hosts: map<string, Definition>, fold: Fold, slug: string) {
    var held := fold(slug) in m.bySlug && m.bySlug[fold(slug)].hostname != "";
    && (forall k :: k in hosts <==> k in m.byHost && !(held && k == fold(m.bySlug[fold(slug)].hostname)))
    && forall k | k in hosts :: hosts[k] == m.byHost[k]
  }

  /** `d` is under its slug, and under its host name if it has one; the old host name of its slug is gone. */
  ghost predicate IsAdded(m: Maps, n: Maps, fold: Fold, d: Definition) {
    && n.bySlug == m.bySlug[fold(d.slug) := d]
    && exists hosts | HostDropped(m, hosts, fold, d.slug) ::
         n.byHost == if d.hostname == "" then hosts else hosts[fold(d.hostname) := d]
  }

  /** The slug is gone, and the host name it had. */
  ghost predicate IsRemoved(m: Maps, n: Maps, fold: Fold, slug: string) {
    n.bySlug == m.bySlug - {fold(slug)} && HostDropped(m, n.byHost, fold, slug)
  }

  lemma AddedIs(m: Maps, fold: Fold, d: Definition)
    ensures IsAdded(m, Added(m, fold, d), fold, d)
  {
    assert HostDropped(m, WithoutHost(m, fold, d.slug), fold, d.slug);
  }

  /** The registry with its two dictionaries. */
  class Registry {
    const fold: Fold
    var byHost: map<string, Definition>
    var bySlug: map<string, Definition>

    function State(): Maps
      reads this
    {
      Maps(byHost, bySlug)
    }

    constructor (fold: Fold)
      ensures State() == Maps(map[], map[]) && this.fold == fold
    {
      this.fold := fold;
      byHost, bySlug := map[], map[];
    }

    method Get(host: string) returns (d: Option<Definition>)
      ensures d == ByHost(State(), fold, host)
    {
      if fold(host) in byHost {
        return Some(byHost[fold(host)]);
      }
      return None;
    }

    method GetBySlug(slug: string) returns (d: Option<Definition>)
      ensures d == BySlug(State(), fold, slug)
    {
      if fold(slug) in bySlug {
        return Some(bySlug[fold(slug)]);
      }
      return None;
    }

    method Add(d: Definition)
      modifies this
      ensures State() == Added(old(State()), fold, d) && IsAdded(old(State()), State(), fold, d)
      ensures old(Agree(State(), fold)) && HostIsFree(old(State()), fold, d) ==> Agree(State(), fold)
    {
      hide IsAdded;
      AddedIs(State(), fold, d);
      if Agree(State(), fold) {
        AddAgreesIff(State(), fold, d);
      }
      var existing := GetBySlug(d.slug);
      if existing.Some? && existing.value.hostname != "" {
        byHost := byHost - {fold(existing.value.hostname)};
      }
      if d.hostname != "" {
        byHost := byHost[fold(d.hostname) := d];
      }
      bySlug := bySlug[fold(d.slug) := d];
    }

    method Remove(host: string)
      modifies this
      ensures State() == RemovedByHost(old(State()), fold, host)
      ensures byHost == old(byHost) - {fold(host)}
      ensures bySlug == if fold(host) in old(byHost) then old(bySlug) - {fold(old(byHost)[fold(host)].slug)} else old(bySlug)
      ensures old(Agree(State(), fold)) ==> Agree(State(), fold)
    {
      var d := Get(host);
      byHost := byHost - {fold(host)};
      if d.Some? {
        bySlug := bySlug - {fold(d.value.slug)};
      }
    }

    method RemoveBySlug(slug: string)
      modifies this
      ensures State() == RemovedBySlug(old(State()), fold, slug) && IsRemoved(old(State()), State(), fold, slug)
      ensures old(Agree(State(), fold)) ==> Agree(State(), fold)
    {
      var d := GetBySlug(slug);
      bySlug := bySlug - {fold(slug)};
      if d.Some? && d.value.hostname != "" {
        byHost := byHost - {fold(d.value.hostname)};
      }
    }

    method Clear()
      modifies this
      ensures State() == Maps(map[], map[])
    {
      byHost, bySlug := map[], map[];
    }
  }

  function ByHost(m: Maps, fold: Fold, host: string): Option<Definition> {
    if fold(host) in m.byHost then Some(m.byHost[fold(host)]) else None
  }

  function BySlug(m: Maps, fold: Fold, slug: string): Option<Definition> {
    if fold(slug) in m.bySlug then Some(m.bySlug[fold(slug)]) else None
  }

  /** The two maps index the same definitions; those without a host name are in one map only. */
  ghost predicate Agree(m: Maps, fold: Fold) {
    && (forall k | k in m.bySlug ::
          var d := m.bySlug[k];
          k == fold(d.slug) && (d.hostname != "" ==> fold(d.hostname) in m.byHost && m.byHost[fold(d.hostname)] == d))
    && (forall k | k in m.byHost ::
          var d := m.byHost[k];
          && d.hostname != "" && k == fold(d.hostname)
          && fold(d.slug) in m.bySlug && m.bySlug[fold(d.slug)] == d)
  }

  /** No other tenant holds the host name of `d`. */
  predicate HostIsFree(m: Maps, fold: Fold, d: Definition) {
    d.hostname != "" && fold(d.hostname) in m.byHost ==> fold(m.byHost[fold(d.hostname)].slug) == fold(d.slug)
  }

  /** Adding keeps the two maps in agreement exactly when no other tenant holds the host name. */
  lemma AddAgreesIff(m: Maps, fold: Fold, d: Definition)
    requires Agree(m, fold)
    ensures Agree(Added(m, fold, d), fold) <==> HostIsFree(m, fold, d)
  {
    var n := Added(m, fold, d);
    if !HostIsFree(m, fold, d) {
      var other := m.byHost[fold(d.hostname)];
      assert n.bySlug[fold(other.slug)] == other && n.byHost[fold(other.hostname)] == d;
    }
  }

  // ---------------------------------------------------------------- resolver

  datatype Context = Context(definition: Definition, hostname: string)

  function BeforeColon(host: string): string {
    if host == "" || host[0] == ':' then "" else [host[0]] + BeforeColon(host[1..])
  }

  function Build(d: Option<Definition>, hostname: string): Option<Context> {
    if d.None? || !d.value.enabled then None else Some(Context(d.value, hostname))
  }

  function ResolveHost(m: Maps, fold: Fold, host: string): Option<Context> {
    var hostname := fold(BeforeColon(host));
    Build(ByHost(m, fold, hostname), hostname)
  }

  function ResolveSlug(m: Maps, fold: Fold, slug: string): Option<Context> {
    var d := BySlug(m, fold, slug);
    Build(d, if d.Some? then d.value.hostname else "")
  }

  // ---------------------------------------------------------------- database

  type Tenants = map<Id, Tenant>

  /** Slugs, and host names, differ by more than case. */
  ghost predicate UniqueUpToCase(tenants: Tenants, fold: Fold) {
    forall i, j | i in tenants && j in tenants && i != j ::
      && fold(tenants[i].slug) != fold(tenants[j].slug)
      && (Hostname(tenants[i]) != "" && Hostname(tenants[j]) != "" ==>
            fold(Hostname(tenants[i])) != fold(Hostname(tenants[j])))
  }

  /** A query for the active tenants, in whatever order. */
  ghost predicate ListsActive(tenants: Tenants, ids: seq<Id>) {
    && (forall i | 0 <= i < |ids| :: ids[i] in tenants && tenants[ids[i]].status == Active)
    && (forall i | i in tenants && tenants[i].status == Active :: i in ids)
  }

  /** What `load` leaves: the tenants added one by one to an empty registry. */
  function Loaded(tenants: Tenants, fold: Fold, ids: seq<Id>): Maps
    requires forall i | 0 <= i < |ids| :: ids[i] in tenants
  {
    if ids == [] then Maps(map[], map[]) else
      var last := ids[|ids| - 1];
      Added(Loaded(tenants, fold, ids[..|ids| - 1]), fold, DefinitionOf(last, tenants[last]))
  }

  /** The registry holds the definitions of some tenants, as they are now, under their own keys. */
  ghost predicate Reflects(m: Maps, tenants: Tenants, fold: Fold) {
    && (forall k | k in m.bySlug ::
          var d := m.bySlug[k];
          d.id in tenants && d == DefinitionOf(d.id, tenants[d.id]) && k == fold(d.slug))
    && Agree(m, fold)
  }

  /** No active tenant is missing. */
  ghost predicate Complete(m: Maps, tenants: Tenants, fold: Fold) {
    forall i | i in tenants && tenants[i].status == Active :: fold(tenants[i].slug) in m.bySlug
  }

  lemma HeldByTenant(m: Maps, tenants: Tenants, fold: Fold, i: Id)
    requires Reflects(m, tenants, fold) && UniqueUpToCase(tenants, fold) && i in tenants
    ensures fold(tenants[i].slug) in m.bySlug ==> m.bySlug[fold(tenants[i].slug)] == DefinitionOf(i, tenants[i])
    ensures Hostname(tenants[i]) != "" && fold(Hostname(tenants[i])) in m.byHost ==>
              m.byHost[fold(Hostname(tenants[i]))] == DefinitionOf(i, tenants[i])
  {
    if fold(tenants[i].slug) in m.bySlug {
      var d := m.bySlug[fold(tenants[i].slug)];
      assert d.id == i;
    }
    if Hostname(tenants[i]) != "" && fold(Hostname(tenants[i])) in m.byHost {
      var d := m.byHost[fold(Hostname(tenants[i]))];
      assert m.bySlug[fold(d.slug)] == d;
      assert d.id == i;
    }
  }

  /** Adding a tenant that is new, or has kept its slug and host name. */
  lemma AddReflects(m: Maps, tenants: Tenants, fold: Fold, i: Id, t: Tenant)
    requires Reflects(m, tenants, fold) && UniqueUpToCase(tenants, fold) && UniqueUpToCase(tenants[i := t], fold)
    requires i in tenants ==> tenants[i].slug == t.slug && tenants[i].subdomain == t.subdomain
    ensures var n := Added(m, fold, DefinitionOf(i, t));
      && Reflects(n, tenants[i := t], fold)
      && fold(t.slug) in n.bySlug && forall k | k in m.bySlug :: k in n.bySlug
  {
    var d, after := DefinitionOf(i, t), tenants[i := t];
    var n := Added(m, fold, d);
    if d.hostname != "" && fold(d.hostname) in m.byHost {
      var e := m.byHost[fold(d.hostname)];
      assert m.bySlug[fold(e.slug)] == e;
      assert after[i] == t && e.id in after;
      assert e.id == i;
    }
    AddAgreesIff(m, fold, d);
    forall k | k in n.bySlug
      ensures n.bySlug[k].id in after && n.bySlug[k] == DefinitionOf(n.bySlug[k].id, after[n.bySlug[k].id])
              && k == fold(n.bySlug[k].slug)
    {
      if k != fold(t.slug) {
        assert n.bySlug[k] == m.bySlug[k];
        assert m.bySlug[k].id != i;
      }
    }
  }

  lemma RemoveReflects(m: Maps, tenants: Tenants, fold: Fold, i: Id)
    requires Reflects(m, tenants, fold) && UniqueUpToCase(tenants, fold) && i in tenants
    ensures var n := RemovedBySlug(m, fold, tenants[i].slug);
      && Reflects(n, tenants - {i}, fold)
      && forall k | k in m.bySlug && k != fold(tenants[i].slug) :: k in n.bySlug
  {
    HeldByTenant(m, tenants, fold, i);
    var n := RemovedBySlug(m, fold, tenants[i].slug);
    forall k | k in n.bySlug ensures n.bySlug[k].id != i {
    }
  }

  lemma EmptyReflects(tenants: Tenants, fold: Fold)
    ensures Reflects(Maps(map[], map[]), tenants, fold)
  {
  }

  lemma {:induction false} LoadedReflects(tenants: Tenants, fold: Fold, ids: seq<Id>)
    requires UniqueUpToCase(tenants, fold) && forall i | 0 <= i < |ids| :: ids[i] in tenants
    ensures var m := Loaded(tenants, fold, ids);
      && Reflects(m, tenants, fold) && forall i | i in ids :: fold(tenants[i].slug) in m.bySlug
  {
    hide Added, UniqueUpToCase, Reflects;
    if ids == [] {
      EmptyReflects(tenants, fold);
    } else {
      var front, last := ids[..|ids| - 1], ids[|ids| - 1];
      LoadedReflects(tenants, fold, front);
      assert tenants[last := tenants[last]] == tenants;
      AddReflects(Loaded(tenants, fold, front), tenants, fold, last, tenants[last]);
      assert ids == front + [last];
    }
  }

  /** Two registries that reflect the same tenants, with none of the active ones missing, resolve every
      host and every slug alike: what else they hold is disabled. */
  lemma SameResolution(m: Maps, n: Maps, tenants: Tenants, fold: Fold)
    requires UniqueUpToCase(tenants, fold)
    requires Reflects(m, tenants, fold) && Complete(m, tenants, fold)
    requires Reflects(n, tenants, fold) && Complete(n, tenants, fold)
    ensures forall slug :: ResolveSlug(m, fold, slug) == ResolveSlug(n, fold, slug)
    ensures forall host :: ResolveHost(m, fold, host) == ResolveHost(n, fold, host)
  {
    forall slug ensures ResolveSlug(m, fold, slug) == ResolveSlug(n, fold, slug) {
      SlugFound(m, n, tenants, fold, fold(slug));
      SlugFound(n, m, tenants, fold, fold(slug));
    }
    forall host ensures ResolveHost(m, fold, host) == ResolveHost(n, fold, host) {
      HostFound(m, n, tenants, fold, fold(fold(BeforeColon(host))));
      HostFound(n, m, tenants, fold, fold(fold(BeforeColon(host))));
    }
  }

  lemma SlugFound(m: Maps, n: Maps, tenants: Tenants, fold: Fold, k: string)
    requires UniqueUpToCase(tenants, fold)
    requires Reflects(m, tenants, fold) && Reflects(n, tenants, fold) && Complete(n, tenants, fold)
    ensures k in m.bySlug && m.bySlug[k].enabled ==> k in n.bySlug && n.bySlug[k] == m.bySlug[k]
  {
    if k in m.bySlug && m.bySlug[k].enabled {
      HeldByTenant(n, tenants, fold, m.bySlug[k].id);
    }
  }

  lemma HostFound(m: Maps, n: Maps, tenants: Tenants, fold: Fold, k: string)
    requires UniqueUpToCase(tenants, fold)
    requires Reflects(m, tenants, fold) && Reflects(n, tenants, fold) && Complete(n, tenants, fold)
    ensures k in m.byHost && m.byHost[k].enabled ==> k in n.byHost && n.byHost[k] == m.byHost[k]
  {
    if k in m.byHost && m.byHost[k].enabled {
      var d := m.byHost[k];
      assert m.bySlug[fold(d.slug)] == d;
      SlugFound(m, n, tenants, fold, fold(d.slug));
      assert n.bySlug[fold(d.slug)] == d;
    }
  }

  // ------------------------------------------------------------------- runs

  /** The database and the registry of one process. */
  datatype World = World(tenants: Tenants, maps: Maps)

  predicate SlugTaken(tenants: Tenants, slug: string) {
    exists i | i in tenants :: tenants[i].slug == slug
  }

  /** An empty domain or host name is no domain, but the columns are unique all the same. */
  predicate ColumnsTaken(tenants: Tenants, t: Tenant) {
    exists i | i in tenants ::
      || (t.primaryDomain.Some? && tenants[i].primaryDomain == t.primaryDomain)
      || (t.subdomain.Some? && tenants[i].subdomain == t.subdomain)
  }

  datatype Event =
    | Create(id: Id, tenant: Tenant)
    | Update(slug: string, displayName: Option<string>, timezone: Option<string>)
    | SetActive(slug: string, active: bool)
    | Delete(slug: string, confirmation: string)

  ghost predicate IsRow(tenants: Tenants, slug: string, i: Id) {
    i in tenants && tenants[i].slug == slug
  }

  function Edited(t: Tenant, displayName: Option<string>, timezone: Option<string>): Tenant {
    t.(displayName := if displayName.Some? then displayName.value else t.displayName,
       timezone := if timezone.Some? then timezone.value else t.timezone)
  }

  function Put(w: World, fold: Fold, i: Id, t: Tenant): World {
    World(w.tenants[i := t], Added(w.maps, fold, DefinitionOf(i, t)))
  }

  /** One request against the service; a refused request changes nothing. */
  ghost predicate IsStep(w: World, fold: Fold, e: Event, v: World) {
    match e
    case Create(id, t) =>
      if SlugTaken(w.tenants, t.slug) || ColumnsTaken(w.tenants, t) then v == w
      else id !in w.tenants && t.status == Active && v == Put(w, fold, id, t)
    case Update(slug, displayName, timezone) =>
      if !SlugTaken(w.tenants, slug) then v == w
      else exists i :: IsRow(w.tenants, slug, i)
                       && v == if Edited(w.tenants[i], displayName, timezone) == w.tenants[i] then w
                               else Put(w, fold, i, Edited(w.tenants[i], displayName, timezone))
    case SetActive(slug, active) =>
      if !SlugTaken(w.tenants, slug) then v == w
      else exists i :: IsRow(w.tenants, slug, i)
                       && v == Put(w, fold, i, w.tenants[i].(status := if active then Active else Suspended))
    case Delete(slug, confirmation) =>
      if !SlugTaken(w.tenants, slug) then v == w
      else exists i :: IsRow(w.tenants, slug, i)
                       && v == if confirmation != slug || w.tenants[i].status == Active then w
                               else World(w.tenants - {i}, RemovedBySlug(w.maps, fold, slug))
  }

  /** A run through databases whose slugs and host names differ by more than case. */
  ghost predicate IsRun(worlds: seq<World>, events: seq<Event>, fold: Fold) {
    && |worlds| == |events| + 1
    && (forall i | 0 <= i < |worlds| :: UniqueUpToCase(worlds[i].tenants, fold))
    && forall i | 0 <= i < |events| :: IsStep(worlds[i], fold, events[i], worlds[i + 1])
  }

  ghost predicate Inv(w: World, fold: Fold) {
    Reflects(w.maps, w.tenants, fold) && Complete(w.maps, w.tenants, fold)
  }

  lemma PutInv(w: World, fold: Fold, i: Id, t: Tenant)
    requires Inv(w, fold) && UniqueUpToCase(w.tenants, fold) && UniqueUpToCase(w.tenants[i := t], fold)
    requires i in w.tenants ==> w.tenants[i].slug == t.slug && w.tenants[i].subdomain == t.subdomain
    ensures Inv(Put(w, fold, i, t), fold)
  {
    hide Reflects, UniqueUpToCase, Added;
    AddReflects(w.maps, w.tenants, fold, i, t);
  }

  lemma StepInv(w: World, fold: Fold, e: Event, v: World)
    requires Inv(w, fold) && UniqueUpToCase(w.tenants, fold) && UniqueUpToCase(v.tenants, fold) && IsStep(w, fold, e, v)
    ensures Inv(v, fold)
  {
    hide Reflects, UniqueUpToCase, Added, Inv, RemovedBySlug;
    if v != w {
      match e
      case Create(id, t) => PutInv(w, fold, id, t);
      case Update(slug, displayName, timezone) =>
        var i :| IsRow(w.tenants, slug, i)
                 && v == if Edited(w.tenants[i], displayName, timezone) == w.tenants[i] then w
                         else Put(w, fold, i, Edited(w.tenants[i], displayName, timezone));
        PutInv(w, fold, i, Edited(w.tenants[i], displayName, timezone));
      case SetActive(slug, active) =>
        var i :| IsRow(w.tenants, slug, i)
                 && v == Put(w, fold, i, w.tenants[i].(status := if active then Active else Suspended));
        PutInv(w, fold, i, w.tenants[i].(status := if active then Active else Suspended));
      case Delete(slug, confirmation) =>
        var i :| IsRow(w.tenants, slug, i)
                 && v == if confirmation != slug || w.tenants[i].status == Active then w
                         else World(w.tenants - {i}, RemovedBySlug(w.maps, fold, slug));
        DeleteInv(w, fold, i);
    }
  }

  lemma DeleteInv(w: World, fold: Fold, i: Id)
    requires Inv(w, fold) && UniqueUpToCase(w.tenants, fold) && i in w.tenants
    ensures Inv(World(w.tenants - {i}, RemovedBySlug(w.maps, fold, w.tenants[i].slug)), fold)
  {
    hide Reflects, RemovedBySlug;
    RemoveReflects(w.maps, w.tenants, fold, i);
  }

  lemma {:induction false} RunInv(worlds: seq<World>, events: seq<Event>, fold: Fold, n: nat)
    requires IsRun(worlds, events, fold) && Inv(worlds[0], fold) && n <= |events|
    ensures Inv(worlds[n], fold)
  {
    hide Inv, IsStep, UniqueUpToCase;
    if n > 0 {
      RunInv(worlds, events, fold, n - 1);
      StepInv(worlds[n - 1], fold, events[n - 1], worlds[n - 1 + 1]);
    }
  }

  /** After any run of the service since the registry was loaded, its two maps agree, and every host
      and slug resolves exactly as it would after a fresh load, in whatever order the rows come. */
  lemma RestartEquivalence(worlds: seq<World>, events: seq<Event>, fold: Fold, before: seq<Id>, after: seq<Id>)
    requires IsRun(worlds, events, fold)
    requires ListsActive(worlds[0].tenants, before) && worlds[0].maps == Loaded(worlds[0].tenants, fold, before)
    requires ListsActive(worlds[|events|].tenants, after)
    ensures var w := worlds[|events|];
      && Agree(w.maps, fold)
      && (forall slug :: ResolveSlug(w.maps, fold, slug) == ResolveSlug(Loaded(w.tenants, fold, after), fold, slug))
      && (forall host :: ResolveHost(w.maps, fold, host) == ResolveHost(Loaded(w.tenants, fold, after), fold, host))
  {
    hide UniqueUpToCase, ResolveSlug, ResolveHost, Loaded, Agree;
    var w := worlds[|events|];
    LoadedReflects(worlds[0].tenants, fold, before);
    RunInv(worlds, events, fold, |events|);
    LoadedReflects(w.tenants, fold, after);
    SameResolution(w.maps, Loaded(w.tenants, fold, after), w.tenants, fold);
  }

  // ------------------------------------------------------- what resolves, and to what

  /** The name asked for is the host up to its first colon. */
  lemma {:induction false} BeforeColonIs(host: string)
    ensures var name := BeforeColon(host);
      && name <= host && (forall k | 0 <= k < |name| :: name[k] != ':')
      && (|name| < |host| ==> host[|name|] == ':')
  {
    if host != "" && host[0] != ':' {
      BeforeColonIs(host[1..]);
      assert host == [host[0]] + host[1..];
    }
  }

  ghost predicate IsContext(c: Context, i: Id, t: Tenant, hostname: string) {
    && t.status == Active && c.hostname == hostname
    && c.definition == Definition(i, t.slug, match t.subdomain { case Some(host) => host case None => "" }, true,
                                  t.displayName, t.timezone)
  }

  /** A slug resolves to the active tenant of that slug, up to case, and to nothing if there is none. */
  lemma SlugResolvesIff(w: World, fold: Fold, slug: string, c: Context)
    requires Inv(w, fold) && UniqueUpToCase(w.tenants, fold)
    ensures ResolveSlug(w.maps, fold, slug) == Some(c) <==>
              exists i | i in w.tenants ::
                fold(w.tenants[i].slug) == fold(slug) && IsContext(c, i, w.tenants[i], c.definition.hostname)
  {
    if ResolveSlug(w.maps, fold, slug) == Some(c) {
      var d := w.maps.bySlug[fold(slug)];
      assert IsContext(c, d.id, w.tenants[d.id], c.definition.hostname);
    }
    if i :| i in w.tenants && fold(w.tenants[i].slug) == fold(slug) && IsContext(c, i, w.tenants[i], c.definition.hostname) {
      HeldByTenant(w.maps, w.tenants, fold, i);
    }
  }

  /** A host resolves to the active tenant that has its name as host name, up to case. */
  lemma HostResolvesIff(w: World, fold: Fold, host: string, c: Context)
    requires Inv(w, fold) && UniqueUpToCase(w.tenants, fold)
    ensures
      var name := fold(BeforeColon(host));
      ResolveHost(w.maps, fold, host) == Some(c) <==>
        exists i | i in w.tenants ::
          && w.tenants[i].subdomain.Some? && w.tenants[i].subdomain.value != "" && fold(w.tenants[i].subdomain.value) == fold(name)
          && IsContext(c, i, w.tenants[i], name)
  {
    var name := fold(BeforeColon(host));
    if ResolveHost(w.maps, fold, host) == Some(c) {
      var d := w.maps.byHost[fold(name)];
      assert w.maps.bySlug[fold(d.slug)] == d;
      assert IsContext(c, d.id, w.tenants[d.id], name);
    }
    if i :| i in w.tenants && w.tenants[i].subdomain.Some? && w.tenants[i].subdomain.value != ""
            && fold(w.tenants[i].subdomain.value) == fold(name) && IsContext(c, i, w.tenants[i], name) {
      HeldByTenant(w.maps, w.tenants, fold, i);
      assert w.maps.bySlug[fold(w.tenants[i].slug)] == DefinitionOf(i, w.tenants[i]);
    }
  }

  /** So it is after every run since the registry was loaded. */
  lemma RunResolves(worlds: seq<World>, events: seq<Event>, fold: Fold, before: seq<Id>, slug: string, host: string, c: Context)
    requires IsRun(worlds, events, fold)
    requires ListsActive(worlds[0].tenants, before) && worlds[0].maps == Loaded(worlds[0].tenants, fold, before)
    ensures
      var w, name := worlds[|events|], fold(BeforeColon(host));
      && (ResolveSlug(w.maps, fold, slug) == Some(c) <==>
            exists i | i in w.tenants ::
              fold(w.tenants[i].slug) == fold(slug) && IsContext(c, i, w.tenants[i], c.definition.hostname))
      && (ResolveHost(w.maps, fold, host) == Some(c) <==>
            exists i | i in w.tenants ::
              && w.tenants[i].subdomain.Some? && w.tenants[i].subdomain.value != "" && fold(w.tenants[i].subdomain.value) == fold(name)
              && IsContext(c, i, w.tenants[i], name))
  {
    hide UniqueUpToCase, ResolveSlug, ResolveHost, Loaded, Reflects, IsContext, IsStep;
    LoadedReflects(worlds[0].tenants, fold, before);
    RunInv(worlds, events, fold, |events|);
    SlugResolvesIff(worlds[|events|], fold, slug, c);
    HostResolvesIff(worlds[|events|], fold, host, c);
  }

  // -------------------------------------------- the condition on the database

  /** A run of activations and deactivations. */
  ghost predicate IsToggling(worlds: seq<World>, events: seq<Event>, fold: Fold) {
    && |worlds| == |events| + 1
    && forall k | 0 <= k < |events| :: events[k].SetActive? && IsStep(worlds[k], fold, events[k], worlds[k + 1])
  }

  ghost predicate ResolveAlike(m: Maps, n: Maps, fold: Fold) {
    && (forall slug :: ResolveSlug(m, fold, slug) == ResolveSlug(n, fold, slug))
    && (forall host :: ResolveHost(m, fold, host) == ResolveHost(n, fold, host))
  }

  /** Whatever is switched on and off after a load of this database, a restart changes no answer. */
  ghost predicate Survives(tenants: Tenants, fold: Fold) {
    forall worlds: seq<World>, events: seq<Event>, before: seq<Id>, after: seq<Id> |
      && IsToggling(worlds, events, fold) && worlds[0].tenants == tenants
      && ListsActive(tenants, before) && worlds[0].maps == Loaded(tenants, fold, before)
      && ListsActive(worlds[|events|].tenants, after)
      :: ResolveAlike(worlds[|events|].maps, Loaded(worlds[|events|].tenants, fold, after), fold)
  }

  /** Same tenants under the same names. */
  ghost predicate SameNames(a: Tenants, b: Tenants) {
    a.Keys == b.Keys && forall i | i in a :: a[i].slug == b[i].slug && a[i].subdomain == b[i].subdomain
  }

  lemma {:induction false} TogglingKeepsNames(worlds: seq<World>, events: seq<Event>, fold: Fold, n: nat)
    requires IsToggling(worlds, events, fold) && n <= |events|
    ensures SameNames(worlds[0].tenants, worlds[n].tenants)
  {
    hide IsStep;
    if n > 0 {
      TogglingKeepsNames(worlds, events, fold, n - 1);
      assert IsStep(worlds[n - 1], fold, events[n - 1], worlds[n - 1 + 1]);
      ToggleKeepsNames(worlds[n - 1], fold, events[n - 1], worlds[n]);
    }
  }

  lemma ToggleKeepsNames(w: World, fold: Fold, e: Event, v: World)
    requires e.SetActive? && IsStep(w, fold, e, v)
    ensures SameNames(w.tenants, v.tenants)
  {
    hide Added;
  }

  lemma UniqueByNames(a: Tenants, b: Tenants, fold: Fold)
    requires SameNames(a, b) && UniqueUpToCase(a, fold)
    ensures UniqueUpToCase(b, fold)
  {
    forall i, j | i in b && j in b && i != j
      ensures fold(b[i].slug) != fold(b[j].slug)
      ensures Hostname(b[i]) != "" && Hostname(b[j]) != "" ==> fold(Hostname(b[i])) != fold(Hostname(b[j]))
    {
      assert a[i].slug == b[i].slug && a[j].slug == b[j].slug;
      assert Hostname(a[i]) == Hostname(b[i]) && Hostname(a[j]) == Hostname(b[j]);
    }
  }

  lemma UniqueSurvives(tenants: Tenants, fold: Fold)
    requires UniqueUpToCase(tenants, fold)
    ensures Survives(tenants, fold)
  {
    hide UniqueUpToCase, IsStep, Loaded, ResolveAlike, SameNames;
    forall worlds: seq<World>, events: seq<Event>, before: seq<Id>, after: seq<Id> |
      && IsToggling(worlds, events, fold) && worlds[0].tenants == tenants
      && ListsActive(tenants, before) && worlds[0].maps == Loaded(tenants, fold, before)
      && ListsActive(worlds[|events|].tenants, after)
      ensures ResolveAlike(worlds[|events|].maps, Loaded(worlds[|events|].tenants, fold, after), fold)
    {
      forall k | 0 <= k < |worlds| ensures UniqueUpToCase(worlds[k].tenants, fold) {
        TogglingKeepsNames(worlds, events, fold, k);
        UniqueByNames(tenants, worlds[k].tenants, fold);
      }
      RestartEquivalence(worlds, events, fold, before, after);
      Alike(worlds[|events|].maps, Loaded(worlds[|events|].tenants, fold, after), fold);
    }
  }

  lemma Alike(m: Maps, n: Maps, fold: Fold)
    requires forall slug :: ResolveSlug(m, fold, slug) == ResolveSlug(n, fold, slug)
    requires forall host :: ResolveHost(m, fold, host) == ResolveHost(n, fold, host)
    ensures ResolveAlike(m, n, fold)
  {
  }

  lemma {:induction false} SomeListing(tenants: Tenants, left: set<Id>) returns (ids: seq<Id>)
    requires left <= tenants.Keys
    ensures forall k | 0 <= k < |ids| :: ids[k] in tenants && tenants[ids[k]].status == Active
    ensures forall i | i in left && tenants[i].status == Active :: i in ids
    decreases left
  {
    ids := [];
    if left != {} {
      var i :| i in left;
      ids := SomeListing(tenants, left - {i});
      if tenants[i].status == Active {
        ids := ids + [i];
      }
    }
  }

  function Toggled(w: World, fold: Fold, i: Id, status: Status): World
    requires i in w.tenants
  {
    Put(w, fold, i, w.tenants[i].(status := status))
  }

  lemma ToggleIsStep(w: World, fold: Fold, i: Id, active: bool)
    requires i in w.tenants
    ensures IsStep(w, fold, SetActive(w.tenants[i].slug, active), Toggled(w, fold, i, if active then Active else Suspended))
  {
    assert IsRow(w.tenants, w.tenants[i].slug, i);
  }

  /** The names of two tenants are the same up to case. */
  predicate Collide(a: Tenant, b: Tenant, fold: Fold) {
    || fold(a.slug) == fold(b.slug)
    || (Hostname(a) != "" && Hostname(b) != "" && fold(Hostname(a)) == fold(Hostname(b)))
  }

  /** Two tenants whose names collide: switch both on and the second off again. It now holds the
      name, disabled, and after a restart the first one answers to it. */
  lemma CollisionDoesNotSurvive(tenants: Tenants, fold: Fold, i: Id, j: Id)
    requires i in tenants && j in tenants && i != j && Collide(tenants[i], tenants[j], fold)
    requires fold(fold(BeforeColon(Hostname(tenants[i])))) == fold(Hostname(tenants[i]))
    ensures !Survives(tenants, fold)
  {
    hide Added, IsStep, Survives, Loaded, ResolveAlike;
    var before := SomeListing(tenants, tenants.Keys);
    var w0 := World(tenants, Loaded(tenants, fold, before));
    var w1 := Toggled(w0, fold, i, Active);
    var w2 := Toggled(w1, fold, j, Active);
    var w3 := Toggled(w2, fold, j, Suspended);
    ToggleIsStep(w0, fold, i, true);
    ToggleIsStep(w1, fold, j, true);
    ToggleIsStep(w2, fold, j, false);
    var worlds := [w0, w1, w2, w3];
    var events := [SetActive(tenants[i].slug, true), SetActive(w1.tenants[j].slug, true), SetActive(w2.tenants[j].slug, false)];
    assert IsToggling(worlds, events, fold);
    var others := SomeListing(w3.tenants, w3.tenants.Keys);
    var after := others + [i];
    assert ListsActive(w3.tenants, after);
    LastAnswers(w2.maps, fold, j, w3.tenants[j]);
    assert after[..|after| - 1] == others;
    LoadedLast(w3.tenants, fold, after);
    LastAnswers(Loaded(w3.tenants, fold, others), fold, i, w3.tenants[i]);
    Differ(w3.maps, Loaded(w3.tenants, fold, after), fold, i, w3.tenants[i], j, w3.tenants[j]);
    DoesNotSurvive(tenants, fold, worlds, events, before, after);
  }

  lemma LoadedLast(tenants: Tenants, fold: Fold, ids: seq<Id>)
    requires ids != [] && forall i | 0 <= i < |ids| :: ids[i] in tenants
    ensures var last := ids[|ids| - 1];
      Loaded(tenants, fold, ids) == Added(Loaded(tenants, fold, ids[..|ids| - 1]), fold, DefinitionOf(last, tenants[last]))
  {
  }

  /** The tenant added last is found under its names. */
  lemma LastAnswers(m: Maps, fold: Fold, i: Id, t: Tenant)
    ensures var n, d := Added(m, fold, DefinitionOf(i, t)), DefinitionOf(i, t);
      && fold(t.slug) in n.bySlug && n.bySlug[fold(t.slug)] == d
      && (Hostname(t) != "" ==> fold(Hostname(t)) in n.byHost && n.byHost[fold(Hostname(t))] == d)
  {
  }

  lemma Differ(m: Maps, n: Maps, fold: Fold, i: Id, a: Tenant, j: Id, b: Tenant)
    requires Collide(a, b, fold) && a.status == Active && b.status != Active
    requires fold(fold(BeforeColon(Hostname(a)))) == fold(Hostname(a))
    requires fold(b.slug) in m.bySlug && m.bySlug[fold(b.slug)] == DefinitionOf(j, b)
    requires Hostname(b) != "" ==> fold(Hostname(b)) in m.byHost && m.byHost[fold(Hostname(b))] == DefinitionOf(j, b)
    requires fold(a.slug) in n.bySlug && n.bySlug[fold(a.slug)] == DefinitionOf(i, a)
    requires Hostname(a) != "" ==> fold(Hostname(a)) in n.byHost && n.byHost[fold(Hostname(a))] == DefinitionOf(i, a)
    ensures !ResolveAlike(m, n, fold)
  {
    if fold(a.slug) == fold(b.slug) {
      assert ResolveSlug(m, fold, a.slug) != ResolveSlug(n, fold, a.slug);
    } else {
      assert ResolveHost(m, fold, Hostname(a)) != ResolveHost(n, fold, Hostname(a));
    }
  }

  lemma DoesNotSurvive(
    tenants: Tenants, fold: Fold, worlds: seq<World>, events: seq<Event>, before: seq<Id>, after: seq<Id>)
    requires IsToggling(worlds, events, fold) && worlds[0].tenants == tenants
    requires ListsActive(tenants, before) && worlds[0].maps == Loaded(tenants, fold, before)
    requires ListsActive(worlds[|events|].tenants, after)
    requires !ResolveAlike(worlds[|events|].maps, Loaded(worlds[|events|].tenants, fold, after), fold)
    ensures !Survives(tenants, fold)
  {
    hide IsStep, ResolveAlike, Loaded;
  }

  /** The exact condition on a database: its answers survive a restart, whatever was switched on and off
      since the last one, if and only if slugs and host names differ by more than case. (A host name
      that carries a port or is not stable under folding could not be asked for.) */
  lemma SurvivesIff(tenants: Tenants, fold: Fold)
    requires forall i | i in tenants :: fold(fold(BeforeColon(Hostname(tenants[i])))) == fold(Hostname(tenants[i]))
    ensures Survives(tenants, fold) <==> UniqueUpToCase(tenants, fold)
  {
    hide Survives;
    if UniqueUpToCase(tenants, fold) {
      UniqueSurvives(tenants, fold);
    } else {
      var i, j :| i in tenants && j in tenants && i != j && Collide(tenants[i], tenants[j], fold);
      CollisionDoesNotSurvive(tenants, fold, i, j);
    }
  }

  /** Two slugs that differ in case alone pass the service's own check, and then the answer depends on
      whether the process has restarted. */
  lemma CaseCollision(fold: Fold, first: Tenant, second: Tenant)
    requires first.slug != second.slug && fold(first.slug) == fold(second.slug)
    requires first.status == Active && second.status == Active && first.displayName != second.displayName
    requires first.subdomain.Some? && second.subdomain.Some? && first.subdomain != second.subdomain
    requires first.primaryDomain.None? && second.primaryDomain.None?
    ensures var tenants := map[0 := first];
      var w := World(tenants, Loaded(tenants, fold, [0]));
      var v := Put(w, fold, 1, second);
      && IsStep(w, fold, Create(1, second), v) && ListsActive(v.tenants, [1, 0])
      && ResolveSlug(v.maps, fold, first.slug) != ResolveSlug(Loaded(v.tenants, fold, [1, 0]), fold, first.slug)
  {
    var tenants := map[0 := first];
    var w := World(tenants, Loaded(tenants, fold, [0]));
    var v := Put(w, fold, 1, second);
    assert !SlugTaken(w.tenants, second.slug) && !ColumnsTaken(w.tenants, second);
    assert v.tenants[0] == first && v.tenants[1] == second;
    assert v.maps.bySlug[fold(first.slug)] == DefinitionOf(1, second);
    assert [1, 0][..1] == [1];
    assert Loaded(v.tenants, fold, [1, 0]).bySlug[fold(first.slug)] == DefinitionOf(0, first);
  }

  // ----------------------------------------------------------------- service

  datatype Outcome = Done | AlreadyExists | DomainExists | ConstraintViolated | NotFound | Unconfirmed | StillActive

  /** The registry has taken in the tenant as it is. */
  ghost predicate Registers(m: Maps, n: Maps, fold: Fold, i: Id, t: Tenant) {
    IsAdded(m, n, fold, Definition(i, t.slug, match t.subdomain { case Some(host) => host case None => "" },
                                   t.status == Active, t.displayName, t.timezone))
  }

  /** The service on its database, with the process's registry. */
  class TenantService {
    var tenants: Tenants
    const registry: Registry

    ghost function State(): World
      reads this, registry
    {
      World(tenants, registry.State())
    }

    constructor (tenants: Tenants, registry: Registry)
      ensures this.tenants == tenants && this.registry == registry
    {
      this.tenants, this.registry := tenants, registry;
    }

    /** `load` of the registry manager. */
    method Load(ids: seq<Id>)
      requires ListsActive(tenants, ids)
      modifies registry
      ensures State() == World(old(tenants), Loaded(old(tenants), registry.fold, ids))
    {
      registry.Clear();
      for i := 0 to |ids|
        invariant registry.State() == Loaded(tenants, registry.fold, ids[..i]) && tenants == old(tenants)
      {
        assert ids[..i + 1][..i] == ids[..i];
        registry.Add(DefinitionOf(ids[i], tenants[ids[i]]));
      }
      assert ids[..|ids|] == ids;
    }

    method GetBySlug(slug: string) returns (id: Option<Id>)
      ensures if id.None? then !SlugTaken(tenants, slug) else IsRow(tenants, slug, id.value)
    {
      id := None;
      var rest := tenants.Keys;
      while rest != {}
        invariant rest <= tenants.Keys && forall i | i in tenants.Keys - rest :: tenants[i].slug != slug
        decreases rest
      {
        var i :| i in rest;
        if tenants[i].slug == slug {
          return Some(i);
        }
        rest := rest - {i};
      }
    }

    method Create(id: Id, t: Tenant) returns (r: Outcome)
      requires id !in tenants && t.status == Active
      modifies this, registry
      ensures IsStep(old(State()), registry.fold, Event.Create(id, t), State())
      ensures r == AlreadyExists <==> exists i | i in old(tenants) :: old(tenants)[i].slug == t.slug
      ensures r == DomainExists <==>
                && r != AlreadyExists && t.primaryDomain.Some? && t.primaryDomain.value != ""
                && exists i | i in old(tenants) :: old(tenants)[i].primaryDomain == t.primaryDomain
      ensures r == ConstraintViolated <==>
                && r != AlreadyExists && r != DomainExists
                && exists i | i in old(tenants) ::
                     || (t.primaryDomain == Some("") && old(tenants)[i].primaryDomain == Some(""))
                     || (t.subdomain.Some? && old(tenants)[i].subdomain == t.subdomain)
      ensures r in {Done, AlreadyExists, DomainExists, ConstraintViolated}
      ensures r != Done ==> State() == old(State())
      ensures r == Done ==> tenants == old(tenants)[id := t] && Registers(old(registry.State()), registry.State(), registry.fold, id, t)
    {
      var existing := GetBySlug(t.slug);
      if existing.Some? {
        return AlreadyExists;
      }
      if t.primaryDomain.Some? && t.primaryDomain.value != ""
         && exists i | i in tenants :: tenants[i].primaryDomain == t.primaryDomain {
        return DomainExists;
      }
      if ColumnsTaken(tenants, t) {
        return ConstraintViolated;
      }
      tenants := tenants[id := t];
      registry.Add(DefinitionOf(id, t));
      r := Done;
    }

    method Update(slug: string, displayName: Option<string>, timezone: Option<string>) returns (r: Outcome)
      modifies this, registry
      ensures IsStep(old(State()), registry.fold, Event.Update(slug, displayName, timezone), State())
      ensures r == (if exists i | i in old(tenants) :: old(tenants)[i].slug == slug then Done else NotFound)
      ensures r == NotFound ==> State() == old(State())
      ensures r == Done ==>
                exists i | i in old(tenants) && old(tenants)[i].slug == slug ::
                  var was := old(tenants)[i];
                  var edited := was.(
                    displayName := match displayName { case Some(name) => name case None => was.displayName },
                    timezone := match timezone { case Some(zone) => zone case None => was.timezone });
                  && tenants == old(tenants)[i := edited]
                  && if edited == was then State() == old(State())
                     else Registers(old(registry.State()), registry.State(), registry.fold, i, edited)
    {
      var id := GetBySlug(slug);
      if id.None? {
        return NotFound;
      }
      ghost var was := State();
      var t := tenants[id.value];
      assert IsRow(was.tenants, slug, id.value);
      var changed := false;
      if displayName.Some? && displayName.value != t.displayName {
        changed, t := true, t.(displayName := displayName.value);
      }
      if timezone.Some? && timezone.value != t.timezone {
        changed, t := true, t.(timezone := timezone.value);
      }
      assert t == Edited(was.tenants[id.value], displayName, timezone);
      if !changed {
        return Done;
      }
      tenants := tenants[id.value := t];
      registry.Add(DefinitionOf(id.value, t));
      r := Done;
    }

    method SetActive(slug: string, active: bool) returns (r: Outcome)
      modifies this, registry
      ensures IsStep(old(State()), registry.fold, Event.SetActive(slug, active), State())
      ensures r == (if exists i | i in old(tenants) :: old(tenants)[i].slug == slug then Done else NotFound)
      ensures r == NotFound ==> State() == old(State())
      ensures r == Done ==>
                exists i | i in old(tenants) && old(tenants)[i].slug == slug ::
                  var switched := old(tenants)[i].(status := if active then Active else Suspended);
                  && tenants == old(tenants)[i := switched]
                  && Registers(old(registry.State()), registry.State(), registry.fold, i, switched)
    {
      var id := GetBySlug(slug);
      if id.None? {
        return NotFound;
      }
      ghost var was := State();
      assert IsRow(was.tenants, slug, id.value);
      tenants := tenants[id.value := tenants[id.value].(status := if active then Active else Suspended)];
      registry.Add(DefinitionOf(id.value, tenants[id.value]));
      r := Done;
    }

    method Delete(slug: string, confirmation: string) returns (r: Outcome)
      modifies this, registry
      ensures IsStep(old(State()), registry.fold, Event.Delete(slug, confirmation), State())
      ensures r != Done ==> State() == old(State())
      ensures r == NotFound <==> !exists i | i in old(tenants) :: old(tenants)[i].slug == slug
      ensures r == Unconfirmed <==> r != NotFound && confirmation != slug
      ensures r == StillActive ==>
                confirmation == slug && exists i | i in old(tenants) :: old(tenants)[i].slug == slug && old(tenants)[i].status == Active
      ensures r == Done ==>
                && confirmation == slug
                && exists i | i in old(tenants) && old(tenants)[i].slug == slug ::
                     && old(tenants)[i].status != Active && tenants == old(tenants) - {i}
                     && IsRemoved(old(registry.State()), registry.State(), registry.fold, slug)
      ensures r in {Done, NotFound, Unconfirmed, StillActive}
    {
      var id := GetBySlug(slug);
      if id.None? {
        return NotFound;
      }
      ghost var was := State();
      assert IsRow(was.tenants, slug, id.value);
      if confirmation != slug {
        return Unconfirmed;
      }
      if tenants[id.value].status == Active {
        return StillActive;
      }
      tenants := tenants - {id.value};
      registry.RemoveBySlug(slug);
      r := Done;
    }
  }
}
