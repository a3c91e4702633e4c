/** What a Travel may see and reach: the Server's catalog filter, service-class discovery over a
    catalog, and a Home's admission of a service. Credentials enter the filter by their scopes. */
module Catalog {
  import opened Basics
  import opened Credentials

  datatype Service = Service(id: string, alias: string, transport: Protocol, target: string)

  datatype HomeEntry = HomeEntry(
    home: string, alias: string, endpoint: Option<SignedEndpoint>, grant: Option<SignedGrant>, services: seq<Service>)

  // ----- scopes -----

  predicate AllowsService(scope: Scope, home: string, service: string, transport: Protocol) {
    match scope
    case Global => true
    case ServiceClass(_, _) => false
    case HomeScope(allowed) => allowed == home
    case ServiceScope(allowed, named, over) => allowed == home && named == service && over == transport
  }

  predicate AllowsBusiness(scope: Scope, home: string, service: string, transport: Protocol,
                           business: Option<BusinessService>) {
    if scope.ServiceClass? then
      && business.Some? && business.value.service == service && business.value.transport == transport
      && transport == scope.transport && business.value.application == scope.application
    else AllowsService(scope, home, service, transport)
  }

  /** The first approved description of a service. */
  function Approved(services: seq<BusinessService>, id: string): Option<BusinessService>
    decreases |services|
  {
    if services == [] then None
    else if services[0].service == id then Some(services[0])
    else Approved(services[1..], id)
  }

  lemma {:induction false} ApprovedIs(services: seq<BusinessService>, i: nat)
    requires DistinctServices(services) && i < |services|
    ensures Approved(services, services[i].service) == Some(services[i])
    decreases |services|
  {
    if i > 0 { ApprovedIs(services[1..], i - 1); }
  }

  lemma {:induction false} ApprovedNames(services: seq<BusinessService>, id: string)
    ensures Approved(services, id).Some? ==>
              Approved(services, id).value in services && Approved(services, id).value.service == id
    decreases |services|
  {
    if services != [] && services[0].service != id { ApprovedNames(services[1..], id); }
  }

  predicate DistinctIds(services: seq<Service>) {
    forall i, j | 0 <= i < j < |services| :: services[i].id != services[j].id
  }

  /** No service repeats and each is approved with its transport. */
  predicate CatalogServicesOk(g: Grant, services: seq<Service>) {
    && DistinctIds(services)
    && (forall i | 0 <= i < |services| :: Covered(g.services, services[i]))
  }

  predicate Covered(approved: seq<BusinessService>, s: Service) {
    exists k :: 0 <= k < |approved| && approved[k].service == s.id && approved[k].transport == s.transport
  }

  // ----- the Server's filter -----

  datatype Binding = Rejected | Generic | Business(services: seq<BusinessService>)

  predicate GrantFits(t: Trust, h: HomeEntry, now: nat) {
    && h.grant.Some? && h.endpoint.Some? && GrantCurrent(t, h.grant.value, h.endpoint.value, now)
    && h.grant.value.payload.home == h.home && CatalogServicesOk(h.grant.value.payload, h.services)
  }

  /** A signed restriction that does not hold rejects the Home; it never makes it generic. */
  function BindingOf(t: Option<Trust>, h: HomeEntry, now: nat): Binding {
    if h.grant.None? then Generic
    else if t.Some? && GrantFits(t.value, h, now) then Business(h.grant.value.payload.services)
    else Rejected
  }

  function Metadata(b: Binding, id: string): Option<BusinessService> {
    if b.Business? then Approved(b.services, id) else None
  }

  predicate Allowed(scopes: set<Scope>, home: string, b: Binding, s: Service) {
    exists scope :: scope in scopes && AllowsBusiness(scope, home, s.id, s.transport, Metadata(b, s.id))
  }

  function FilterServices(scopes: set<Scope>, home: string, b: Binding, services: seq<Service>): seq<Service>
    decreases |services|
  {
    if services == [] then []
    else
      var rest := FilterServices(scopes, home, b, services[1..]);
      if Allowed(scopes, home, b, services[0]) then [services[0]] + rest else rest
  }

  /** Some scope other than a service class reaches the Home. */
  predicate Plainly(scopes: set<Scope>, home: string) {
    exists scope :: scope in scopes && AllowsHome(scope, home) && !scope.ServiceClass?
  }

  predicate Reaches(scopes: set<Scope>, home: string) {
    exists scope :: scope in scopes && AllowsHome(scope, home)
  }

  function FilterHome(t: Option<Trust>, scopes: set<Scope>, h: HomeEntry, now: nat): Option<HomeEntry> {
    var b := BindingOf(t, h, now);
    if !Reaches(scopes, h.home) || b.Rejected? then None
    else
      var services := FilterServices(scopes, h.home, b, h.services);
      if services == [] && !Plainly(scopes, h.home) then None else Some(h.(services := services))
  }

  function Filter(t: Option<Trust>, scopes: set<Scope>, homes: seq<HomeEntry>, now: nat): seq<HomeEntry>
    decreases |homes|
  {
    if homes == [] then []
    else
      var first := FilterHome(t, scopes, homes[0], now);
      var rest := Filter(t, scopes, homes[1..], now);
      if first.Some? then [first.value] + rest else rest
  }

  // ----- facts about the filter -----

  lemma {:induction false} FilteredServices(scopes: set<Scope>, home: string, b: Binding, services: seq<Service>)
    ensures forall s :: s in FilterServices(scopes, home, b, services) <==> s in services && Allowed(scopes, home, b, s)
    decreases |services|
  {
    if services != [] {
      FilteredServices(scopes, home, b, services[1..]);
      assert services == [services[0]] + services[1..];
    }
  }

  lemma DistinctFront(s: Service, rest: seq<Service>)
    requires DistinctIds(rest) && forall i | 0 <= i < |rest| :: rest[i].id != s.id
    ensures DistinctIds([s] + rest)
  {
  }

  /** Keeping services in order keeps them distinct. */
  lemma {:induction false} FilteredDistinct(scopes: set<Scope>, home: string, b: Binding, services: seq<Service>)
    requires DistinctIds(services)
    ensures DistinctIds(FilterServices(scopes, home, b, services))
    decreases |services|
  {
    if services != [] {
      FilteredDistinct(scopes, home, b, services[1..]);
      FilteredServices(scopes, home, b, services[1..]);
      var rest := FilterServices(scopes, home, b, services[1..]);
      forall i | 0 <= i < |rest| ensures rest[i].id != services[0].id {
        assert rest[i] in services[1..];
        var m :| 0 <= m < |services[1..]| && services[1..][m] == rest[i];
        assert services[m + 1] == rest[i];
      }
      DistinctFront(services[0], rest);
    }
  }

  lemma {:induction false} FilterServicesTwice(scopes: set<Scope>, home: string, b: Binding, services: seq<Service>)
    ensures var kept := FilterServices(scopes, home, b, services);
            FilterServices(scopes, home, b, kept) == kept
    decreases |services|
  {
    if services != [] {
      FilterServicesTwice(scopes, home, b, services[1..]);
      var rest := FilterServices(scopes, home, b, services[1..]);
      assert ([services[0]] + rest)[1..] == rest;
    }
  }

  /** A Home keeps its binding when services are taken out of its entry. */
  lemma BindingStays(t: Option<Trust>, scopes: set<Scope>, h: HomeEntry, now: nat)
    requires !BindingOf(t, h, now).Rejected?
    ensures var b := BindingOf(t, h, now);
            BindingOf(t, h.(services := FilterServices(scopes, h.home, b, h.services)), now) == b
  {
    var b := BindingOf(t, h, now);
    if b.Business? {
      var kept := FilterServices(scopes, h.home, b, h.services);
      FilteredDistinct(scopes, h.home, b, h.services);
      FilteredServices(scopes, h.home, b, h.services);
      forall i | 0 <= i < |kept| ensures Covered(h.grant.value.payload.services, kept[i]) {
        assert kept[i] in h.services;
      }
    }
  }

  lemma FilterHomeTwice(t: Option<Trust>, scopes: set<Scope>, h: HomeEntry, now: nat)
    requires FilterHome(t, scopes, h, now).Some?
    ensures FilterHome(t, scopes, FilterHome(t, scopes, h, now).value, now) == FilterHome(t, scopes, h, now)
  {
    BindingStays(t, scopes, h, now);
    FilterServicesTwice(scopes, h.home, BindingOf(t, h, now), h.services);
  }

  /** Filtering a filtered catalog changes nothing. */
  lemma {:induction false} FilterIdempotent(t: Option<Trust>, scopes: set<Scope>, homes: seq<HomeEntry>, now: nat)
    ensures var kept := Filter(t, scopes, homes, now);
            Filter(t, scopes, kept, now) == kept
    decreases |homes|
  {
    if homes != [] {
      FilterIdempotent(t, scopes, homes[1..], now);
      var first := FilterHome(t, scopes, homes[0], now);
      if first.Some? {
        FilterHomeTwice(t, scopes, homes[0], now);
        var rest := Filter(t, scopes, homes[1..], now);
        assert ([first.value] + rest)[1..] == rest;
      }
    }
  }

  /** A scope that allows a service reaches its Home. */
  lemma ServiceReachesHome(scopes: set<Scope>, home: string, b: Binding, s: Service)
    requires Allowed(scopes, home, b, s)
    ensures Reaches(scopes, home)
  {
    var scope :| scope in scopes && AllowsBusiness(scope, home, s.id, s.transport, Metadata(b, s.id));
    assert AllowsHome(scope, home);
  }

  /** The Home is shown, with the service among those shown, or with none required. */
  predicate ShowsHome(t: Option<Trust>, scopes: set<Scope>, h: HomeEntry, now: nat) {
    FilterHome(t, scopes, h, now).Some?
  }

  predicate ShowsService(t: Option<Trust>, scopes: set<Scope>, h: HomeEntry, now: nat, s: Service) {
    ShowsHome(t, scopes, h, now) && s in FilterHome(t, scopes, h, now).value.services
  }

  /** A service is shown exactly when it is listed, its Home's restriction holds, and some scope
      allows it. */
  lemma ShownServiceIs(t: Option<Trust>, scopes: set<Scope>, h: HomeEntry, now: nat, s: Service)
    ensures ShowsService(t, scopes, h, now, s) <==>
            s in h.services && !BindingOf(t, h, now).Rejected? && Allowed(scopes, h.home, BindingOf(t, h, now), s)
  {
    var b := BindingOf(t, h, now);
    FilteredServices(scopes, h.home, b, h.services);
    if Allowed(scopes, h.home, b, s) { ServiceReachesHome(scopes, h.home, b, s); }
  }

  /** A Home is shown exactly when its restriction holds and either a service of it is shown or a
      scope other than a service class reaches it. */
  lemma ShownHomeIs(t: Option<Trust>, scopes: set<Scope>, h: HomeEntry, now: nat)
    ensures ShowsHome(t, scopes, h, now) <==>
            && !BindingOf(t, h, now).Rejected?
            && (Plainly(scopes, h.home) || exists s :: ShowsService(t, scopes, h, now, s))
  {
    var b := BindingOf(t, h, now);
    var kept := FilterServices(scopes, h.home, b, h.services);
    if ShowsHome(t, scopes, h, now) && kept != [] {
      assert ShowsService(t, scopes, h, now, kept[0]);
    }
  }

  /** One entry under the union of two credential sets: shown, with the services, of either. */
  lemma HomeUnion(t: Option<Trust>, a: set<Scope>, b: set<Scope>, h: HomeEntry, now: nat)
    ensures ShowsHome(t, a + b, h, now) <==> ShowsHome(t, a, h, now) || ShowsHome(t, b, h, now)
    ensures forall s ::
              ShowsService(t, a + b, h, now, s) <==> ShowsService(t, a, h, now, s) || ShowsService(t, b, h, now, s)
  {
    var binding := BindingOf(t, h, now);
    forall s
      ensures ShowsService(t, a + b, h, now, s) <==> ShowsService(t, a, h, now, s) || ShowsService(t, b, h, now, s)
    {
      ShownServiceIs(t, a + b, h, now, s);
      ShownServiceIs(t, a, h, now, s);
      ShownServiceIs(t, b, h, now, s);
      AllowedUnion(a, b, h.home, binding, s);
    }
    ShownHomeIs(t, a + b, h, now);
    ShownHomeIs(t, a, h, now);
    ShownHomeIs(t, b, h, now);
    PlainlyUnion(a, b, h.home);
  }

  lemma AllowedUnion(a: set<Scope>, b: set<Scope>, home: string, binding: Binding, s: Service)
    ensures Allowed(a + b, home, binding, s) <==> Allowed(a, home, binding, s) || Allowed(b, home, binding, s)
  {
  }

  lemma PlainlyUnion(a: set<Scope>, b: set<Scope>, home: string)
    ensures Plainly(a + b, home) <==> Plainly(a, home) || Plainly(b, home)
  {
  }

  // ----- the whole catalog -----

  /** A filtered catalog holds exactly the entries that are shown, each cut to its services. */
  lemma {:induction false} FilteredHomes(t: Option<Trust>, scopes: set<Scope>, homes: seq<HomeEntry>, now: nat,
                                         k: HomeEntry)
    ensures k in Filter(t, scopes, homes, now) <==> exists h :: h in homes && FilterHome(t, scopes, h, now) == Some(k)
    decreases |homes|
  {
    if homes != [] {
      FilteredHomes(t, scopes, homes[1..], now, k);
      assert homes == [homes[0]] + homes[1..];
    }
  }

  /** Filtering goes entry by entry and keeps the order. */
  lemma {:induction false} FilterConcat(t: Option<Trust>, scopes: set<Scope>, a: seq<HomeEntry>, b: seq<HomeEntry>,
                                        now: nat)
    ensures Filter(t, scopes, a + b, now) == Filter(t, scopes, a, now) + Filter(t, scopes, b, now)
    decreases |a|
  {
    if a == [] {
      assert a + b == b;
    } else {
      FilterConcat(t, scopes, a[1..], b, now);
      assert (a + b)[1..] == a[1..] + b;
    }
  }

  /** The catalog lists the Home. */
  predicate Shows(homes: seq<HomeEntry>, home: string) {
    exists k :: k in homes && k.home == home
  }

  /** The catalog lists the service under the Home. */
  predicate Offers(homes: seq<HomeEntry>, home: string, s: Service) {
    exists k :: k in homes && k.home == home && s in k.services
  }

  /** A filtered catalog lists a Home, or a service of it, exactly when some entry of it is shown. */
  lemma FilterShows(t: Option<Trust>, scopes: set<Scope>, homes: seq<HomeEntry>, now: nat, home: string, s: Service)
    ensures Shows(Filter(t, scopes, homes, now), home) <==>
            exists h :: h in homes && h.home == home && ShowsHome(t, scopes, h, now)
    ensures Offers(Filter(t, scopes, homes, now), home, s) <==>
            exists h :: h in homes && h.home == home && ShowsService(t, scopes, h, now, s)
  {
    var kept := Filter(t, scopes, homes, now);
    forall k ensures k in kept <==> exists h :: h in homes && FilterHome(t, scopes, h, now) == Some(k) {
      FilteredHomes(t, scopes, homes, now, k);
    }
    forall h | h in homes && ShowsHome(t, scopes, h, now)
      ensures FilterHome(t, scopes, h, now).value in kept && FilterHome(t, scopes, h, now).value.home == h.home
    {
      assert FilterHome(t, scopes, h, now) == Some(FilterHome(t, scopes, h, now).value);
    }
  }

  /** Under the union of two credential sets the catalog lists exactly the Homes and the services
      it lists under either. */
  lemma FilterUnion(t: Option<Trust>, a: set<Scope>, b: set<Scope>, homes: seq<HomeEntry>, now: nat, home: string,
                    s: Service)
    ensures Shows(Filter(t, a + b, homes, now), home) <==>
            Shows(Filter(t, a, homes, now), home) || Shows(Filter(t, b, homes, now), home)
    ensures Offers(Filter(t, a + b, homes, now), home, s) <==>
            Offers(Filter(t, a, homes, now), home, s) || Offers(Filter(t, b, homes, now), home, s)
  {
    FilterShows(t, a + b, homes, now, home, s);
    FilterShows(t, a, homes, now, home, s);
    FilterShows(t, b, homes, now, home, s);
    forall h | h in homes
      ensures ShowsHome(t, a + b, h, now) <==> ShowsHome(t, a, h, now) || ShowsHome(t, b, h, now)
      ensures ShowsService(t, a + b, h, now, s) <==> ShowsService(t, a, h, now, s) || ShowsService(t, b, h, now, s)
    {
      HomeUnion(t, a, b, h, now);
    }
  }

  /** More credentials never hide a Home or a service of the catalog. */
  lemma FilterMonotone(t: Option<Trust>, a: set<Scope>, b: set<Scope>, homes: seq<HomeEntry>, now: nat, home: string,
                       s: Service)
    requires a <= b
    ensures Shows(Filter(t, a, homes, now), home) ==> Shows(Filter(t, b, homes, now), home)
    ensures Offers(Filter(t, a, homes, now), home, s) ==> Offers(Filter(t, b, homes, now), home, s)
  {
    FilterUnion(t, a, b, homes, now, home, s);
    assert a + b == b;
  }

  // ----- what one scope shows -----

  /** What a scope is for: everything, the services of one Home, one service of one Home over one
      transport, or the services that a signed grant describes with one application and transport. */
  predicate InScope(scope: Scope, h: HomeEntry, s: Service) {
    match scope
    case Global => true
    case HomeScope(home) => h.home == home
    case ServiceScope(home, service, transport) => h.home == home && s.id == service && s.transport == transport
    case ServiceClass(application, transport) =>
      && h.grant.Some? && s.transport == transport
      && exists k :: 0 <= k < |h.grant.value.payload.services|
                     && Describes(h.grant.value.payload.services[k], s, application)
  }

  predicate Describes(b: BusinessService, s: Service, application: string) {
    b.service == s.id && b.transport == s.transport && b.application == application
  }

  lemma ScopeAllows(t: Option<Trust>, scope: Scope, h: HomeEntry, now: nat, s: Service)
    requires !BindingOf(t, h, now).Rejected?
    ensures Allowed({scope}, h.home, BindingOf(t, h, now), s) <==> InScope(scope, h, s)
  {
    var b := BindingOf(t, h, now);
    assert Allowed({scope}, h.home, b, s) <==> AllowsBusiness(scope, h.home, s.id, s.transport, Metadata(b, s.id)) by {
      assert scope in {scope};
    }
    if scope.ServiceClass? && b.Business? {
      ApprovedNames(b.services, s.id);
      forall k | 0 <= k < |b.services| && Describes(b.services[k], s, scope.application)
        ensures Approved(b.services, s.id) == Some(b.services[k])
      {
        ApprovedIs(b.services, k);
      }
    }
  }

  /** Credentials of one scope list exactly the services that scope is for, of the Homes whose signed
      restriction holds; those of a service scope list that service of that Home over that transport
      and no other. */
  lemma ScopeOffersExactly(t: Option<Trust>, scope: Scope, homes: seq<HomeEntry>, now: nat, home: string, s: Service)
    ensures Offers(Filter(t, {scope}, homes, now), home, s) <==>
              exists h :: h in homes && h.home == home && s in h.services && !BindingOf(t, h, now).Rejected?
                          && InScope(scope, h, s)
    ensures scope.ServiceScope? && Offers(Filter(t, {scope}, homes, now), home, s) ==>
              home == scope.home && s.id == scope.service && s.transport == scope.transport
  {
    FilterShows(t, {scope}, homes, now, home, s);
    forall h | h in homes
      ensures ShowsService(t, {scope}, h, now, s) <==>
                s in h.services && !BindingOf(t, h, now).Rejected? && InScope(scope, h, s)
    {
      ShownServiceIs(t, {scope}, h, now, s);
      if !BindingOf(t, h, now).Rejected? { ScopeAllows(t, scope, h, now, s); }
    }
  }

  /** Credentials of one scope show a Home exactly when its signed restriction holds and the scope
      reaches it: outright, or, for a service class, through a service it lists. */
  lemma ScopeShowsExactly(t: Option<Trust>, scope: Scope, homes: seq<HomeEntry>, now: nat, home: string)
    ensures Shows(Filter(t, {scope}, homes, now), home) <==>
              exists h :: h in homes && h.home == home && !BindingOf(t, h, now).Rejected? && ReachesEntry(scope, h)
  {
    var any := Service("", "", Tcp, "");
    FilterShows(t, {scope}, homes, now, home, any);
    forall h | h in homes
      ensures ShowsHome(t, {scope}, h, now) <==> !BindingOf(t, h, now).Rejected? && ReachesEntry(scope, h)
    {
      ShownHomeIs(t, {scope}, h, now);
      PlainlyOne(scope, h.home);
      forall s
        ensures ShowsService(t, {scope}, h, now, s) <==>
                  s in h.services && !BindingOf(t, h, now).Rejected? && InScope(scope, h, s)
      {
        ShownServiceIs(t, {scope}, h, now, s);
        if !BindingOf(t, h, now).Rejected? { ScopeAllows(t, scope, h, now, s); }
      }
    }
  }

  predicate ReachesEntry(scope: Scope, h: HomeEntry) {
    match scope
    case Global => true
    case HomeScope(home) => h.home == home
    case ServiceScope(home, _, _) => h.home == home
    case ServiceClass(_, _) => exists s :: s in h.services && InScope(scope, h, s)
  }

  lemma PlainlyOne(scope: Scope, home: string)
    ensures Plainly({scope}, home) <==> AllowsHome(scope, home) && !scope.ServiceClass?
  {
    assert scope in {scope};
  }
}
