/** What each step of the direct-route protocol achieves, and a run in which work is granted, stored
    and opened and its route is paired. */
module RouteOpening {
  import opened Basics
  import opened RouteProtocol
  import Auth = Authorization
  import Effects = RouteEffects
  import Routes = RelayRoutes

  // ----- the Server's steps -----

  /** The Server grants exactly the asks it has room for and whose Travel identity has, in the view it
      decides by, a credential that is active and reaches the Home. The granted work then matches its
      Relay's announcement, and no other, for as long as it lives; other pending work is left alone. */
  lemma GrantedExactlyWhen(limits: Limits, w: World, w': World, a: Action)
    requires a.Grants? && Enabled(w, a) && w' == Apply(limits, w, a)
    ensures var ask := w.asks[a.index];
            if AuthorizedFor(a.view, ask.credential, ask.travel, ask.home, a.wall) && |w.pending| < limits.maxPending
            then GrantsWork(limits, w, w', a) else w' == w
  {
  }

  ghost predicate GrantsWork(limits: Limits, w: World, w': World, a: Action)
    requires a.Grants? && Enabled(w, a)
  {
    var ask := w.asks[a.index];
    && |w'.grants| == |w.grants| + 1 && w'.grants[..|w.grants|] == w.grants
    && w'.grants[|w.grants|].ask == ask && w'.grants[|w.grants|].work == a.work
    && w'.grants[|w.grants|].until - a.wall == w'.grants[|w.grants|].expires - a.now == limits.workTtl
    && ask.request in w'.pending
    && (forall ready: Ready, at: nat ::
          Matches(w'.pending[ask.request], ready, at) <==>
            ready.relay == ask.relay && ready.work == a.work && at < a.now + limits.workTtl)
    && (forall other | other != ask.request ::
          (other in w'.pending <==> other in w.pending)
          && (other in w.pending ==> w'.pending[other] == w.pending[other]))
  }

  /** An announcement makes the Server tell a Home exactly when the work pending under its request is
      its Relay's, is the announced work and has not expired, and the Home's queue takes it. The entry
      is spent as soon as it is announced by its Relay, in time or not; a foreign announcement spends
      nothing. */
  lemma OpensExactlyWhen(limits: Limits, w: World, w': World, a: Action)
    requires a.Opens? && Enabled(w, a) && w' == Apply(limits, w, a)
    ensures var ready := w.readies[a.ready];
            var pending := ready.request in w.pending;
            && w'.openings == (if pending && Matches(w.pending[ready.request], ready, a.now) && a.queued
                               then w.openings + [OpeningOf(w.pending[ready.request], a.now)] else w.openings)
            && w'.pending == (if pending && w.pending[ready.request].relay == ready.relay
                                 && w.pending[ready.request].work == ready.work
                              then w.pending - {ready.request} else w.pending)
  {
  }

  function OpeningOf(p: Pending, now: nat): Opening {
    Opening(p.home, p.work, p.relay, p.credential, now)
  }

  // ----- the Relay's step -----

  /** The Relay that asked still waits, for this credential and Home, and the grant has time left. */
  predicate Fits(side: RelaySide, g: WorkGrant, wall: nat) {
    && g.ask.request in side.waiting && wall < g.until
    && side.waiting[g.ask.request].credential == g.ask.credential && side.waiting[g.ask.request].home == g.ask.home
  }

  /** The stored route carries the grant's work and secret for the waiter's Travel; it lives as long as
      the grant has left or as long as routes may live, whichever ends first. */
  ghost predicate StoresRoute(limits: Limits, side: RelaySide, side': RelaySide, g: WorkGrant, a: Action)
    requires a.Stores? && g.ask.request in side.waiting
  {
    && a.id in side'.table.routes && side'.table.routes[a.id].travel.None? && side'.table.routes[a.id].home.None?
    && a.id in side'.origins && side'.origins[a.id] == Origin(a.grant, a.now, a.wall)
    && var t := side'.table.routes[a.id].ticket;
       && IssuedAs(g, g.ask.relay, t) && t.travel == side.waiting[g.ask.request].travel && t.secrets.route == a.secret
       && t.expires <= a.now + (g.until - a.wall) && t.expires <= a.now + limits.routeTtl
       && (t.expires == a.now + (g.until - a.wall) || t.expires == a.now + limits.routeTtl)
  }

  lemma RoutesAreStored(capacity: nat, table: Routes.Relay, id: Uuid)
    requires Routes.Inv(capacity, table) && id in table.routes
    ensures id in table.log.stored
  {
    assert Routes.RouteOk(table.log, id, table.routes[id]);
  }

  lemma SideInOrder(limits: Limits, names: set<string>, trace: seq<Action>, relay: string, side: RelaySide)
    requires relay in Run(limits, Initial(limits, names), trace).relays
    requires side == Run(limits, Initial(limits, names), trace).relays[relay]
    ensures Routes.Inv(limits.routePermits, side.table) && side.table.handlers == |side.waiting|
  {
    RunKeeps(limits, Initial(limits, names), trace);
    assert SideAt(limits, Run(limits, Initial(limits, names), trace), relay);
  }

  lemma StoresApplied(limits: Limits, w: World, w': World, a: Action)
    requires a.Stores? && Enabled(w, a) && w' == Apply(limits, w, a)
    ensures var g := w.grants[a.grant];
            && g.ask.relay in w.relays && g.ask.relay in w'.relays && a.id !in w.relays[g.ask.relay].table.log.stored
            && w'.relays[g.ask.relay]
               == RouteProtocol.Stored(limits, w.relays[g.ask.relay], g, a.grant, a.id, a.secret, a.wall, a.now)
  {
  }

  /** In every reachable state a grant that reaches its Relay is stored as a route exactly when it
      fits the waiter; either way the waiter is served and other routes are left alone. */
  lemma StoredExactlyWhen(limits: Limits, names: set<string>, trace: seq<Action>, w: World, w': World, a: Action,
                          side: RelaySide, side': RelaySide, g: WorkGrant)
    requires w == Run(limits, Initial(limits, names), trace) && a.Stores? && Enabled(w, a) && w' == Apply(limits, w, a)
    requires g == w.grants[a.grant] && side == w.relays[g.ask.relay]
    requires g.ask.relay in w'.relays && side' == w'.relays[g.ask.relay]
    ensures if Fits(side, g, a.wall) then StoresRoute(limits, side, side', g, a) else a.id !in side'.table.routes
    ensures side'.waiting == side.waiting - {g.ask.request}
    ensures side'.table.routes - {a.id} == side.table.routes
  {
    SideInOrder(limits, names, trace, g.ask.relay, side);
    StoresApplied(limits, w, w', a);
    StoresWhenFits(limits, side, side', g, a);
  }

  lemma StoresFitting(limits: Limits, side: RelaySide, side': RelaySide, g: WorkGrant, a: Action)
    requires a.Stores? && Fits(side, g, a.wall) && side.table.handlers > 0
    requires side' == RouteProtocol.Stored(limits, side, g, a.grant, a.id, a.secret, a.wall, a.now)
    ensures StoresRoute(limits, side, side', g, a)
    ensures side'.waiting == side.waiting - {g.ask.request}
    ensures side'.table.routes - {a.id} == side.table.routes - {a.id}
  {
    var t := TicketFor(limits, side.waiting[g.ask.request], g, a.secret, a.wall, a.now);
    assert side'.table == Routes.Inserted(side.table, a.id, t);
    assert side'.table.routes == side.table.routes[a.id := Routes.Route(t, None, None)];
  }

  lemma StoresNothing(limits: Limits, side: RelaySide, side': RelaySide, g: WorkGrant, a: Action)
    requires a.Stores? && !Fits(side, g, a.wall)
    requires side' == RouteProtocol.Stored(limits, side, g, a.grant, a.id, a.secret, a.wall, a.now)
    ensures side'.table.routes == side.table.routes
    ensures side'.waiting == side.waiting - {g.ask.request}
  {
    if g.ask.request in side.waiting {
      assert side'.table == Routes.Ended(side.table);
    }
  }

  lemma WaiterHoldsPermit(side: RelaySide, request: Uuid)
    requires side.table.handlers == |side.waiting| && request in side.waiting
    ensures side.table.handlers > 0
  {
  }

  lemma OthersAlone(before: Routes.Routes, after: Routes.Routes, id: Uuid)
    requires id !in before && after - {id} == before - {id}
    ensures after - {id} == before
  {
    assert before - {id} == before;
  }

  lemma StoresWhenFits(limits: Limits, side: RelaySide, side': RelaySide, g: WorkGrant, a: Action)
    requires a.Stores? && a.id !in side.table.log.stored
    requires Routes.Inv(limits.routePermits, side.table) && side.table.handlers == |side.waiting|
    requires side' == RouteProtocol.Stored(limits, side, g, a.grant, a.id, a.secret, a.wall, a.now)
    ensures if Fits(side, g, a.wall) then StoresRoute(limits, side, side', g, a) else a.id !in side'.table.routes
    ensures side'.waiting == side.waiting - {g.ask.request}
    ensures side'.table.routes - {a.id} == side.table.routes
  {
    if a.id in side.table.routes {
      RoutesAreStored(limits.routePermits, side.table, a.id);
    }
    if Fits(side, g, a.wall) {
      WaiterHoldsPermit(side, g.ask.request);
      StoresFitting(limits, side, side', g, a);
    } else {
      StoresNothing(limits, side, side', g, a);
    }
    OthersAlone(side.table.routes, side'.table.routes, a.id);
  }

  // ----- a run that opens and pairs a route -----

  const LIMITS: Limits := Limits(1, 60, 1, 30)
  const ASK: Ask := Ask("r", 1, "t", 5, "h")
  const VIEW: Auth.State := Effects.REVOKING.(revocations := [])
  const GRANT: WorkGrant := WorkGrant(ASK, 7, 2, 50, 130, VIEW, 20)
  const TICKET: Routes.Ticket := Routes.Ticket(5, "t", "h", 7, Routes.Secrets(3, 2), 1029)
  const OPENING: Opening := Opening("h", 7, "r", 5, 105)

  function TravelArrives(): Routes.Action {
    var preface := Routes.Preface(Routes.TravelSide, 9);
    Routes.Arrive(9, preface, Routes.Mac(preface, 3), 100, 1010, 23)
  }

  function HomeArrives(): Routes.Action {
    var preface := Routes.Preface(Routes.HomeSide, 7);
    Routes.Arrive(9, preface, Routes.Mac(preface, 2), 101, 1011, 23)
  }

  ghost predicate Arrives(w: World) {
    exists trace: seq<Action> :: Run(LIMITS, Initial(LIMITS, {"r"}), trace) == w
  }

  lemma {:induction false} RunAppend(limits: Limits, w: World, trace: seq<Action>, a: Action)
    requires Enabled(Run(limits, w, trace), a)
    ensures Run(limits, w, trace + [a]) == Apply(limits, Run(limits, w, trace), a)
    decreases |trace|
  {
    if trace == [] {
      assert (trace + [a])[1..] == [];
    } else {
      assert (trace + [a])[1..] == trace[1..] + [a];
      RunAppend(limits, if Enabled(w, trace[0]) then Apply(limits, w, trace[0]) else w, trace[1..], a);
    }
  }

  lemma Then(w: World, a: Action, w': World)
    requires Arrives(w) && Enabled(w, a) && Apply(LIMITS, w, a) == w'
    ensures Arrives(w')
  {
    var trace :| Run(LIMITS, Initial(LIMITS, {"r"}), trace) == w;
    RunAppend(LIMITS, Initial(LIMITS, {"r"}), trace, a);
  }

  /** Relay "r" with this table, once it has asked and the Server has granted. */
  function With(side: RelaySide, pending: map<Uuid, Pending>, taken: set<nat>, readies: seq<Ready>,
                openings: seq<Opening>): World {
    World([ASK], pending, [GRANT], taken, map["r" := side], readies, openings)
  }

  function Asking(): RelaySide {
    RelaySide(Routes.Begun(Routes.NewRelay(1)), map[1 := ASK], map[], map[])
  }

  function Holding(table: Routes.Relay): RelaySide {
    RelaySide(table, map[], map[9 := 1], map[9 := Origin(0, 1000, 21)])
  }

  /** The table from the time the route is stored. */
  function T1(): Routes.Relay { Routes.Inserted(Routes.Begun(Routes.NewRelay(1)), 9, TICKET) }
  function T2(): Routes.Relay { Routes.Apply(1, T1(), Routes.Retain(VIEW, 22)) }
  function T3(): Routes.Relay { T2().(published := Some(VIEW)) }
  function T4(): Routes.Relay { Routes.Apply(1, T3(), TravelArrives()) }
  function T5(): Routes.Relay { Routes.Apply(1, T4(), HomeArrives()) }

  function Opened1(table: Routes.Relay): World {
    With(Holding(table), map[], {0}, [Ready("r", 1, 7)], [OPENING])
  }

  lemma ViewGrants()
    ensures AuthorizedFor(VIEW, 5, "t", "h", 20) && Effects.Covers(VIEW, 5, 22) && Auth.IsActive(VIEW, 5, 23)
  {
    var listed := VIEW.credentials[0].payload;
    assert listed == Effects.LISTED;
    assert Sibling(listed, listed) && Auth.IsActive(VIEW, listed.id, 20);
    assert Effects.CoversAt(listed, 5, 22);
  }

  function Asked(): World { World([ASK], map[], [], {}, map["r" := Asking()], [], []) }

  lemma AskArrives()
    ensures Arrives(Asked())
  {
    var first := Initial(LIMITS, {"r"});
    assert Run(LIMITS, first, []) == first;
    assert first.relays == map["r" := NewSide(LIMITS)];
    Then(first, Asks(ASK), Asked());
  }

  const PENDING: map<Uuid, Pending> := map[1 := Pending("r", 7, 5, "h", 130, 0)]

  lemma Granting()
    ensures Arrives(With(Asking(), PENDING, {}, [], []))
  {
    AskArrives();
    ViewGrants();
    assert Granted(LIMITS, Asked(), ASK, 7, 2, VIEW, 20, 100) == With(Asking(), PENDING, {}, [], []);
    Then(Asked(), Grants(0, 7, 2, VIEW, 20, 100), With(Asking(), PENDING, {}, [], []));
  }

  lemma Opening1()
    ensures Arrives(Opened1(T1()))
  {
    Granting();
    var pending := PENDING;
    var granted := With(Asking(), pending, {}, [], []);
    var stored := With(Holding(T1()), pending, {0}, [], []);
    assert map[1 := ASK] - {1} == map[];
    Then(granted, Stores(0, 9, 3, 21, 1000), stored);
    var announced := With(Holding(T1()), pending, {0}, [Ready("r", 1, 7)], []);
    Then(stored, Announces("r", 9), announced);
    assert pending - {1} == map[];
    Then(announced, Opens(0, 105, true), Opened1(T1()));
  }

  const SEATED: Routes.Route := Routes.Route(TICKET, Some(100), None)

  lemma Sweeping()
    ensures T3().routes == map[9 := Routes.Route(TICKET, None, None)] && T3().log.admissions == []
    ensures T3().log.pairs == []
  {
    ViewGrants();
    Effects.SweptExactly(1, T1(), T2(), VIEW, 22);
    assert T1().routes == map[9 := Routes.Route(TICKET, None, None)];
  }

  lemma TravelEnters()
    ensures Routes.Enabled(T3(), TravelArrives())
    ensures T4().routes == map[9 := SEATED] && T4().published == Some(VIEW) && T4().log.pairs == []
    ensures |T4().log.admissions| == 1 && T4().log.admissions[0].socket == 100
  {
    Sweeping();
    ViewGrants();
    assert map[9 := Routes.Route(TICKET, None, None)][9 := SEATED] == map[9 := SEATED];
  }

  lemma HomeEnters()
    ensures Routes.Enabled(T4(), HomeArrives()) && T5().log.pairs == [Routes.Pair(9, 100, 101)]
  {
    TravelEnters();
    ViewGrants();
  }

  lemma RelayActing(table: Routes.Relay, step: Routes.Action)
    requires Arrives(Opened1(table)) && TableOnly(step) && Routes.Enabled(table, step)
    ensures Arrives(Opened1(Routes.Apply(1, table, step)))
  {
    assert map["r" := Holding(table)]["r" := Holding(Routes.Apply(1, table, step))]
        == map["r" := Holding(Routes.Apply(1, table, step))];
    Then(Opened1(table), RelayActs("r", step), Opened1(Routes.Apply(1, table, step)));
  }

  lemma SweptArrives()
    ensures Arrives(Opened1(T3()))
  {
    Opening1();
    RelayActing(T1(), Routes.Retain(VIEW, 22));
    RelayActing(T2(), Routes.Publish);
  }

  lemma PairedArrives(t4: Routes.Relay, t5: Routes.Relay)
    requires t4 == T4() && t5 == T5()
    ensures Arrives(Opened1(t5))
  {
    SweptArrives();
    TravelEnters();
    HomeEnters();
    RelayActing(T3(), TravelArrives());
    RelayActing(t4, HomeArrives());
  }

  /** The protocol reaches its end: in some run the Home is told to open the work and the Relay pairs
      the two sockets of the route. */
  lemma RouteCanBePaired()
    ensures exists w: World :: Arrives(w) && w.openings == [OPENING]
                               && "r" in w.relays && w.relays["r"].table.log.pairs == [Routes.Pair(9, 100, 101)]
  {
    var paired := T5();
    HomeEnters();
    PairedArrives(T4(), paired);
    assert Opened1(paired).relays["r"].table == paired;
  }
}
