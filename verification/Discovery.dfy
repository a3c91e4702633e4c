/** Service-class discovery over a catalog, and how it agrees with the Server's filter and with a
    Home's admission of the service. */
module Discovery {
  import opened Basics
  import opened Credentials
  import opened Catalog

  /** The class a Travel looks for; `tokensOk` covers its version and the form of its names. */
  datatype Class = Class(application: string, transport: Protocol, tokensOk: bool)

  function ClassScope(c: Class): Scope {
    ServiceClass(c.application, c.transport)
  }

  /** A target is shown under its Home's alias, and under its own too if the Home offers several. */
  datatype Target = Target(home: string, alias: string, serviceAlias: Option<string>, service: string,
                           approved: BusinessService)

  type Match = (Service, BusinessService)

  predicate Suits(c: Class, home: string, s: Service, approved: BusinessService) {
    approved.service == s.id && AllowsBusiness(ClassScope(c), home, s.id, s.transport, Some(approved))
  }

  /** The first approved description that makes the service a member of the class. */
  function FirstSuiting(c: Class, home: string, s: Service, approved: seq<BusinessService>): Option<BusinessService>
    decreases |approved|
  {
    if approved == [] then None
    else if Suits(c, home, s, approved[0]) then Some(approved[0])
    else FirstSuiting(c, home, s, approved[1..])
  }

  function Matching(c: Class, home: string, services: seq<Service>, approved: seq<BusinessService>): seq<Match>
    decreases |services|
  {
    if services == [] then []
    else
      var rest := Matching(c, home, services[1..], approved);
      match FirstSuiting(c, home, services[0], approved)
      case Some(a) => [(services[0], a)] + rest
      case None => rest
  }

  function TargetOf(h: HomeEntry, several: bool, m: Match): Target {
    Target(h.home, h.alias, if several then Some(m.0.alias) else None, m.0.id, m.1)
  }

  function TargetsOf(h: HomeEntry, several: bool, matching: seq<Match>): seq<Target>
    decreases |matching|
  {
    if matching == [] then [] else [TargetOf(h, several, matching[0])] + TargetsOf(h, several, matching[1..])
  }

  function HomeTargets(t: Trust, c: Class, h: HomeEntry, now: nat): seq<Target> {
    if !GrantFits(t, h, now) then []
    else
      var matching := Matching(c, h.home, h.services, h.grant.value.payload.services);
      TargetsOf(h, |matching| > 1, matching)
  }

  function AllTargets(t: Trust, c: Class, homes: seq<HomeEntry>, now: nat): seq<Target>
    decreases |homes|
  {
    if homes == [] then [] else HomeTargets(t, c, homes[0], now) + AllTargets(t, c, homes[1..], now)
  }

  predicate Discoverable(t: Trust, c: Class, now: nat) {
    c.tokensOk && t.validity.notBefore <= now < t.validity.notAfter
  }

  function Discover(t: Trust, c: Class, homes: seq<HomeEntry>, now: nat): Option<seq<Target>> {
    if Discoverable(t, c, now) then Some(AllTargets(t, c, homes, now)) else None
  }

  // ----- the loop -----

  lemma {:induction false} AllTargetsSnoc(t: Trust, c: Class, homes: seq<HomeEntry>, h: HomeEntry, now: nat)
    ensures AllTargets(t, c, homes + [h], now) == AllTargets(t, c, homes, now) + HomeTargets(t, c, h, now)
    decreases |homes|
  {
    if homes == [] {
      assert AllTargets(t, c, [h][1..], now) == [];
    } else {
      AllTargetsSnoc(t, c, homes[1..], h, now);
      assert (homes + [h])[1..] == homes[1..] + [h];
    }
  }

  lemma {:induction false} TargetsOfSnoc(h: HomeEntry, several: bool, matching: seq<Match>, m: Match)
    ensures TargetsOf(h, several, matching + [m]) == TargetsOf(h, several, matching) + [TargetOf(h, several, m)]
    decreases |matching|
  {
    if matching != [] {
      TargetsOfSnoc(h, several, matching[1..], m);
      assert (matching + [m])[1..] == matching[1..] + [m];
    }
  }

  method PushTargets(h: HomeEntry, matching: seq<Match>, before: seq<Target>) returns (targets: seq<Target>)
    ensures targets == before + TargetsOf(h, |matching| > 1, matching)
  {
    targets := before;
    var several := |matching| > 1;
    for j := 0 to |matching|
      invariant targets == before + TargetsOf(h, several, matching[..j])
    {
      assert matching[..j + 1] == matching[..j] + [matching[j]];
      TargetsOfSnoc(h, several, matching[..j], matching[j]);
      targets := targets + [TargetOf(h, several, matching[j])];
    }
    assert matching[..|matching|] == matching;
  }

  method Targets(t: Trust, c: Class, homes: seq<HomeEntry>, now: nat) returns (r: Option<seq<Target>>)
    ensures r == Discover(t, c, homes, now)
  {
    if !c.tokensOk || now < t.validity.notBefore || now >= t.validity.notAfter {
      return None;
    }
    var targets: seq<Target> := [];
    for k := 0 to |homes|
      invariant targets == AllTargets(t, c, homes[..k], now)
    {
      var h := homes[k];
      assert homes[..k + 1] == homes[..k] + [h];
      AllTargetsSnoc(t, c, homes[..k], h, now);
      if GrantFits(t, h, now) {
        targets := PushTargets(h, Matching(c, h.home, h.services, h.grant.value.payload.services), targets);
      }
    }
    assert homes[..|homes|] == homes;
    return Some(targets);
  }

  // ----- discovery does not see the filter -----

  /** With unique ids, the first suiting description is the one the id names, if it suits. */
  lemma {:induction false} SuitingIsApproved(c: Class, home: string, s: Service, approved: seq<BusinessService>)
    requires DistinctServices(approved)
    ensures FirstSuiting(c, home, s, approved) ==
            if AllowsBusiness(ClassScope(c), home, s.id, s.transport, Approved(approved, s.id))
            then Approved(approved, s.id) else None
    decreases |approved|
  {
    if approved != [] {
      SuitingIsApproved(c, home, s, approved[1..]);
      ApprovedNames(approved[1..], s.id);
    }
  }

  /** The filter keeps every service of the class, and what else it keeps does not match. */
  lemma {:induction false} MatchingFiltered(c: Class, scopes: set<Scope>, home: string, services: seq<Service>,
                                            approved: seq<BusinessService>)
    requires DistinctServices(approved) && ClassScope(c) in scopes
    ensures Matching(c, home, FilterServices(scopes, home, Business(approved), services), approved)
            == Matching(c, home, services, approved)
    decreases |services|
  {
    if services != [] {
      var s := services[0];
      var rest := FilterServices(scopes, home, Business(approved), services[1..]);
      MatchingFiltered(c, scopes, home, services[1..], approved);
      SuitingIsApproved(c, home, s, approved);
      assert ([s] + rest)[1..] == rest;
    }
  }

  lemma GrantFitsBinding(t: Trust, h: HomeEntry, now: nat)
    ensures GrantFits(t, h, now) <==> BindingOf(Some(t), h, now).Business?
    ensures GrantFits(t, h, now) ==>
              BindingOf(Some(t), h, now) == Business(h.grant.value.payload.services)
              && DistinctServices(h.grant.value.payload.services)
  {
  }

  lemma {:induction false} TargetsOfHome(h: HomeEntry, h': HomeEntry, several: bool, matching: seq<Match>)
    requires h'.home == h.home && h'.alias == h.alias
    ensures TargetsOf(h', several, matching) == TargetsOf(h, several, matching)
    decreases |matching|
  {
    if matching != [] { TargetsOfHome(h, h', several, matching[1..]); }
  }

  /** One Home's targets are the same before and after the filter; a Home the filter drops has none. */
  lemma HomeTargetsFiltered(t: Trust, c: Class, scopes: set<Scope>, h: HomeEntry, now: nat)
    requires ClassScope(c) in scopes
    ensures match FilterHome(Some(t), scopes, h, now)
            case Some(kept) => HomeTargets(t, c, kept, now) == HomeTargets(t, c, h, now)
            case None => HomeTargets(t, c, h, now) == []
  {
    GrantFitsBinding(t, h, now);
    assert AllowsHome(ClassScope(c), h.home);
    if GrantFits(t, h, now) {
      var approved := h.grant.value.payload.services;
      var kept := h.(services := FilterServices(scopes, h.home, Business(approved), h.services));
      MatchingFiltered(c, scopes, h.home, h.services, approved);
      BindingStays(Some(t), scopes, h, now);
      GrantFitsBinding(t, kept, now);
      TargetsOfHome(h, kept, |Matching(c, h.home, h.services, approved)| > 1,
                    Matching(c, h.home, h.services, approved));
    }
  }

  /** Discovery over the catalog the Server shows finds exactly the targets, in the same order and
      under the same names, that it finds over the whole catalog, whenever the credentials the
      Server filtered by include the class. */
  lemma {:induction false} DiscoveryIgnoresFilter(t: Trust, c: Class, scopes: set<Scope>, homes: seq<HomeEntry>,
                                                  now: nat)
    requires ClassScope(c) in scopes
    ensures AllTargets(t, c, Filter(Some(t), scopes, homes, now), now) == AllTargets(t, c, homes, now)
    ensures Discover(t, c, Filter(Some(t), scopes, homes, now), now) == Discover(t, c, homes, now)
    decreases |homes|
  {
    if homes != [] {
      DiscoveryIgnoresFilter(t, c, scopes, homes[1..], now);
      HomeTargetsFiltered(t, c, scopes, homes[0], now);
      var first := FilterHome(Some(t), scopes, homes[0], now);
      var rest := Filter(Some(t), scopes, homes[1..], now);
      if first.Some? { assert ([first.value] + rest)[1..] == rest; }
    }
  }

  // ----- Home admission -----

  /** A Home's own configuration. */
  datatype HomeConfig = HomeConfig(home: string, services: seq<Service>, business: seq<BusinessService>)

  function FindService(services: seq<Service>, id: string, transport: Protocol): Option<Service>
    decreases |services|
  {
    if services == [] then None
    else if services[0].id == id && services[0].transport == transport then Some(services[0])
    else FindService(services[1..], id, transport)
  }

  predicate Admits(config: HomeConfig, scope: Scope, id: string, transport: Protocol) {
    match FindService(config.services, id, transport)
    case None => false
    case Some(s) => AllowsBusiness(scope, config.home, s.id, s.transport, Approved(config.business, s.id))
  }

  lemma {:induction false} FindServiceIs(services: seq<Service>, id: string, transport: Protocol)
    ensures FindService(services, id, transport).Some? <==>
            exists i :: 0 <= i < |services| && services[i].id == id && services[i].transport == transport
    ensures FindService(services, id, transport).Some? ==>
              FindService(services, id, transport).value in services
              && FindService(services, id, transport).value.id == id
              && FindService(services, id, transport).value.transport == transport
    decreases |services|
  {
    if services != [] && !(services[0].id == id && services[0].transport == transport) {
      FindServiceIs(services[1..], id, transport);
      assert services == [services[0]] + services[1..];
      if exists i :: 0 <= i < |services| && services[i].id == id && services[i].transport == transport {
        var i :| 0 <= i < |services| && services[i].id == id && services[i].transport == transport;
        assert services[1..][i - 1] == services[i];
      }
    }
  }

  predicate Lists(targets: seq<Target>, home: string, id: string) {
    exists k :: 0 <= k < |targets| && targets[k].home == home && targets[k].service == id
  }

  lemma {:induction false} MatchingIs(c: Class, home: string, services: seq<Service>, approved: seq<BusinessService>,
                                      id: string)
    ensures (exists k ::
               0 <= k < |Matching(c, home, services, approved)|
               && Matching(c, home, services, approved)[k].0.id == id) <==>
            (exists i ::
               0 <= i < |services| && services[i].id == id && FirstSuiting(c, home, services[i], approved).Some?)
    decreases |services|
  {
    if services != [] {
      MatchingIs(c, home, services[1..], approved, id);
      var all := Matching(c, home, services, approved);
      var rest := Matching(c, home, services[1..], approved);
      var first := FirstSuiting(c, home, services[0], approved);
      if k :| 0 <= k < |rest| && rest[k].0.id == id {
        assert all[if first.Some? then k + 1 else k] == rest[k];
        var i :| 0 <= i < |services[1..]| && services[1..][i].id == id
                 && FirstSuiting(c, home, services[1..][i], approved).Some?;
        assert services[i + 1] == services[1..][i];
      } else if first.Some? && services[0].id == id {
        assert all[0].0 == services[0];
      } else {
        forall i | 0 <= i < |services| && services[i].id == id
          ensures FirstSuiting(c, home, services[i], approved).None?
        {
          if i > 0 { assert services[1..][i - 1] == services[i]; }
        }
        forall k | 0 <= k < |all| ensures all[k].0.id != id {
          if |all| > |rest| && k > 0 { assert all[k] == rest[k - 1]; }
        }
      }
    }
  }

  lemma {:induction false} TargetsOfIs(h: HomeEntry, several: bool, matching: seq<Match>)
    ensures |TargetsOf(h, several, matching)| == |matching|
    ensures forall k | 0 <= k < |matching| :: TargetsOf(h, several, matching)[k] == TargetOf(h, several, matching[k])
    decreases |matching|
  {
    if matching != [] { TargetsOfIs(h, several, matching[1..]); }
  }

  /** A Home's targets name a service exactly when the service is one of the class. */
  lemma HomeTargetsIs(t: Trust, c: Class, h: HomeEntry, now: nat, id: string)
    requires GrantFits(t, h, now)
    ensures Lists(HomeTargets(t, c, h, now), h.home, id) <==>
            exists i :: 0 <= i < |h.services| && h.services[i].id == id
                        && FirstSuiting(c, h.home, h.services[i], h.grant.value.payload.services).Some?
  {
    var approved := h.grant.value.payload.services;
    var matching := Matching(c, h.home, h.services, approved);
    TargetsOfIs(h, |matching| > 1, matching);
    MatchingIs(c, h.home, h.services, approved, id);
    var targets := HomeTargets(t, c, h, now);
    forall k | 0 <= k < |matching| ensures targets[k].home == h.home && targets[k].service == matching[k].0.id {
      assert targets[k] == TargetOf(h, |matching| > 1, matching[k]);
    }
    if Lists(targets, h.home, id) {
      var k :| 0 <= k < |targets| && targets[k].home == h.home && targets[k].service == id;
      assert matching[k].0.id == id;
    }
  }

  /** For a Home that serves what its catalog entry lists under the grant it was given, a service
      is discovered exactly when a credential of the class is admitted to it. */
  lemma AdmittedExactlyWhenDiscovered(t: Trust, c: Class, h: HomeEntry, config: HomeConfig, now: nat, id: string)
    requires GrantFits(t, h, now)
    requires config == HomeConfig(h.home, h.services, h.grant.value.payload.services)
    ensures Lists(HomeTargets(t, c, h, now), h.home, id) <==> Admits(config, ClassScope(c), id, c.transport)
  {
    var approved := h.grant.value.payload.services;
    HomeTargetsIs(t, c, h, now, id);
    FindServiceIs(h.services, id, c.transport);
    GrantFitsBinding(t, h, now);
    forall i | 0 <= i < |h.services| && h.services[i].id == id
      ensures FirstSuiting(c, h.home, h.services[i], approved).Some? <==>
              AllowsBusiness(ClassScope(c), h.home, id, h.services[i].transport, Approved(approved, id))
    {
      SuitingIsApproved(c, h.home, h.services[i], approved);
    }
    if Admits(config, ClassScope(c), id, c.transport) {
      var i :| 0 <= i < |h.services| && h.services[i].id == id && h.services[i].transport == c.transport;
      assert FirstSuiting(c, h.home, h.services[i], approved).Some?;
    }
  }

  lemma {:induction false} TargetComesFrom(t: Trust, c: Class, homes: seq<HomeEntry>, now: nat, k: nat) returns (i: nat)
    requires k < |AllTargets(t, c, homes, now)|
    ensures i < |homes| && AllTargets(t, c, homes, now)[k] in HomeTargets(t, c, homes[i], now)
    decreases |homes|
  {
    var first := HomeTargets(t, c, homes[0], now);
    if k < |first| {
      assert AllTargets(t, c, homes, now)[k] == first[k];
      i := 0;
    } else {
      assert AllTargets(t, c, homes, now)[k] == AllTargets(t, c, homes[1..], now)[k - |first|];
      var rest := TargetComesFrom(t, c, homes[1..], now, k - |first|);
      i := rest + 1;
    }
  }

  /** What a Home with this catalog entry and grant is configured to serve. */
  function Serving(h: HomeEntry): HomeConfig
    requires h.grant.Some?
  {
    HomeConfig(h.home, h.services, h.grant.value.payload.services)
  }

  /** The three agree: a target found through the Server's filter belongs to a Home of the whole
      catalog whose grant holds, and that Home admits the class to it. */
  lemma DiscoveredIsAdmitted(t: Trust, c: Class, scopes: set<Scope>, homes: seq<HomeEntry>, now: nat, k: nat)
    requires ClassScope(c) in scopes && k < |AllTargets(t, c, Filter(Some(t), scopes, homes, now), now)|
    ensures var target := AllTargets(t, c, Filter(Some(t), scopes, homes, now), now)[k];
            exists i :: 0 <= i < |homes| && homes[i].home == target.home && GrantFits(t, homes[i], now)
                        && Admits(Serving(homes[i]), ClassScope(c), target.service, c.transport)
  {
    DiscoveryIgnoresFilter(t, c, scopes, homes, now);
    var target := AllTargets(t, c, homes, now)[k];
    var i := TargetComesFrom(t, c, homes, now, k);
    var h := homes[i];
    var matching := Matching(c, h.home, h.services, h.grant.value.payload.services);
    TargetsOfIs(h, |matching| > 1, matching);
    assert Lists(HomeTargets(t, c, h, now), h.home, target.service);
    AdmittedExactlyWhenDiscovered(t, c, h, Serving(h), now, target.service);
  }

  predicate ListsAll(t: Trust, c: Class, homes: seq<HomeEntry>, now: nat, home: string, id: string) {
    exists i :: 0 <= i < |homes| && ListedAt(t, c, homes[i], now, home, id)
  }

  /** The entry is of this Home, its grant holds, and the Home so configured admits the class. */
  predicate ListedAt(t: Trust, c: Class, h: HomeEntry, now: nat, home: string, id: string) {
    h.home == home && GrantFits(t, h, now) && Admits(Serving(h), ClassScope(c), id, c.transport)
  }

  lemma ListsEither(a: seq<Target>, b: seq<Target>, home: string, id: string)
    ensures Lists(a + b, home, id) <==> Lists(a, home, id) || Lists(b, home, id)
  {
    var all := a + b;
    forall k | 0 <= k < |a| ensures all[k] == a[k] {
    }
    forall k | 0 <= k < |b| ensures all[|a| + k] == b[k] {
    }
  }

  lemma HomeDiscovers(t: Trust, c: Class, h: HomeEntry, now: nat, home: string, id: string)
    ensures Lists(HomeTargets(t, c, h, now), home, id) <==> ListedAt(t, c, h, now, home, id)
  {
    if GrantFits(t, h, now) {
      AdmittedExactlyWhenDiscovered(t, c, h, Serving(h), now, id);
      TargetsAreNamed(t, c, h, now);
    }
  }

  /** Discovery runs exactly with a well-formed class and a trust that is valid now, and lists exactly
      the services that a Home of the catalog, whose grant holds, admits the class to. */
  lemma {:induction false} DiscoversExactly(t: Trust, c: Class, homes: seq<HomeEntry>, now: nat, home: string,
                                            id: string)
    ensures Lists(AllTargets(t, c, homes, now), home, id) <==> ListsAll(t, c, homes, now, home, id)
    ensures var found := Discover(t, c, homes, now);
            if c.tokensOk && t.validity.notBefore <= now < t.validity.notAfter
            then found == Some(AllTargets(t, c, homes, now)) else found == None
    decreases |homes|
  {
    if homes != [] {
      var rest := homes[1..];
      DiscoversExactly(t, c, rest, now, home, id);
      HomeDiscovers(t, c, homes[0], now, home, id);
      ListsEither(HomeTargets(t, c, homes[0], now), AllTargets(t, c, rest, now), home, id);
      assert homes == [homes[0]] + rest;
      if ListsAll(t, c, rest, now, home, id) {
        var i :| 0 <= i < |rest| && ListedAt(t, c, rest[i], now, home, id);
        assert ListedAt(t, c, homes[i + 1], now, home, id);
      }
    }
  }

  /** A target carries its Home's id and alias, and the alias of its service exactly when the Home
      offers several. */
  predicate Named(h: HomeEntry, several: bool, target: Target) {
    && target.home == h.home && target.alias == h.alias && (target.serviceAlias.Some? <==> several)
    && exists s :: s in h.services && s.id == target.service && target.approved.service == s.id
                   && (several ==> target.serviceAlias == Some(s.alias))
  }

  lemma {:induction false} MatchesComeFrom(c: Class, home: string, services: seq<Service>,
                                           approved: seq<BusinessService>)
    ensures forall m | m in Matching(c, home, services, approved) :: m.0 in services && m.1.service == m.0.id
    decreases |services|
  {
    if services != [] {
      MatchesComeFrom(c, home, services[1..], approved);
      FirstSuits(c, home, services[0], approved);
      assert services == [services[0]] + services[1..];
    }
  }

  lemma {:induction false} FirstSuits(c: Class, home: string, s: Service, approved: seq<BusinessService>)
    ensures FirstSuiting(c, home, s, approved).Some? ==> FirstSuiting(c, home, s, approved).value.service == s.id
    decreases |approved|
  {
    if approved != [] { FirstSuits(c, home, s, approved[1..]); }
  }

  lemma TargetsAreNamed(t: Trust, c: Class, h: HomeEntry, now: nat)
    ensures var targets := HomeTargets(t, c, h, now);
            forall k | 0 <= k < |targets| :: Named(h, |targets| > 1, targets[k])
  {
    if GrantFits(t, h, now) {
      var approved := h.grant.value.payload.services;
      var matching := Matching(c, h.home, h.services, approved);
      TargetsOfIs(h, |matching| > 1, matching);
      MatchesComeFrom(c, h.home, h.services, approved);
      forall k | 0 <= k < |matching| ensures Named(h, |matching| > 1, TargetOf(h, |matching| > 1, matching[k])) {
        assert matching[k] in matching;
      }
    }
  }
}
