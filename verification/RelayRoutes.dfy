/** A Relay's table of direct routes: storing a granted route, admitting one socket from each side,
    pairing them, and dropping routes that expire, lose their credential or cannot be announced. */
module RelayRoutes {
  import opened Basics
  import opened Credentials
  import Auth = Authorization
  import History = AuthorizationHistory

  datatype Side = TravelSide | HomeSide

  datatype Preface = Preface(side: Side, id: Uuid)

  /** A MAC stands for what it authenticates and the secret it was made with. */
  datatype Mac = Mac(preface: Preface, secret: nat)

  datatype Ticket = Ticket(credential: Uuid, travel: string, home: string, work: Uuid, secrets: Secrets, expires: nat)

  datatype Secrets = Secrets(route: nat, work: nat)

  datatype Route = Route(ticket: Ticket, travel: Option<nat>, home: Option<nat>)

  type Routes = map<Uuid, Route>

  /** `view` is the authorization the Relay had published when it let the socket in. */
  datatype Admission = Admission(route: Uuid, preface: Preface, mac: Mac, socket: nat, at: nat, wall: nat,
                                 view: Auth.State)

  datatype Pair = Pair(route: Uuid, travel: nat, home: nat)

  /** History: every route ever stored, every socket ever admitted, every pair ever joined. */
  datatype Log = Log(stored: map<Uuid, Ticket>, admissions: seq<Admission>, pairs: seq<Pair>)

  /** Route permits are free, held by a request being handled, or held by a stored route. `swept` is
      the snapshot the stored routes were last held against; it is published next. */
  datatype Relay = Relay(routes: Routes, free: nat, handlers: nat, swept: Option<Auth.State>,
                         published: Option<Auth.State>, log: Log)

  function NewRelay(capacity: nat): Relay {
    Relay(map[], capacity, 0, None, None, Log(map[], [], []))
  }

  // ----- admission -----

  predicate Resolves(routes: Routes, preface: Preface, id: Uuid) {
    id in routes && if preface.side.TravelSide? then id == preface.id else routes[id].ticket.work == preface.id
  }

  function ExpectedId(id: Uuid, t: Ticket, side: Side): Uuid {
    if side.TravelSide? then id else t.work
  }

  function ExpectedSecret(t: Ticket, side: Side): nat {
    if side.TravelSide? then t.secrets.route else t.secrets.work
  }

  function Seat(r: Route, side: Side): Option<nat> {
    if side.TravelSide? then r.travel else r.home
  }

  predicate Admissible(relay: Relay, id: Uuid, preface: Preface, mac: Mac, now: nat, wall: nat) {
    id in relay.routes &&
    var r := relay.routes[id];
    && now < r.ticket.expires
    && relay.published.Some? && Auth.IsActive(relay.published.value, r.ticket.credential, wall)
    && preface.id == ExpectedId(id, r.ticket, preface.side)
    && mac == Mac(preface, ExpectedSecret(r.ticket, preface.side))
    && Seat(r, preface.side).None?
  }

  function Seated(r: Route, side: Side, socket: nat): Route {
    if side.TravelSide? then r.(travel := Some(socket)) else r.(home := Some(socket))
  }

  function Admitted(relay: Relay, id: Uuid, preface: Preface, mac: Mac, socket: nat, now: nat, wall: nat): Relay
    requires Admissible(relay, id, preface, mac, now, wall)
  {
    var r := Seated(relay.routes[id], preface.side, socket);
    var admission := Admission(id, preface, mac, socket, now, wall, relay.published.value);
    var log := relay.log.(admissions := relay.log.admissions + [admission]);
    if r.travel.Some? && r.home.Some? then
      relay.(routes := relay.routes - {id}, free := relay.free + 1,
             log := log.(pairs := log.pairs + [Pair(id, r.travel.value, r.home.value)]))
    else relay.(routes := relay.routes[id := r], log := log)
  }

  function Admit(relay: Relay, id: Uuid, preface: Preface, mac: Mac, socket: nat, now: nat, wall: nat): Relay {
    if Admissible(relay, id, preface, mac, now, wall) then Admitted(relay, id, preface, mac, socket, now, wall)
    else relay
  }

  // ----- storing and dropping -----

  function Begun(relay: Relay): Relay {
    if relay.free == 0 then relay else relay.(free := relay.free - 1, handlers := relay.handlers + 1)
  }

  /** A request ends without storing a route, and its permit is returned. */
  function Ended(relay: Relay): Relay {
    if relay.handlers == 0 then relay else relay.(free := relay.free + 1, handlers := relay.handlers - 1)
  }

  function Inserted(relay: Relay, id: Uuid, t: Ticket): Relay {
    if relay.handlers == 0 then relay
    else relay.(routes := relay.routes[id := Route(t, None, None)], handlers := relay.handlers - 1,
                log := relay.log.(stored := relay.log.stored[id := t]))
  }

  function Withdrawn(relay: Relay, id: Uuid): Relay {
    if id in relay.routes then relay.(routes := relay.routes - {id}, free := relay.free + 1) else relay
  }

  lemma KeptCount(routes: Routes, gone: set<Uuid>)
    requires gone <= routes.Keys
    ensures |routes - gone| + |gone| == |routes|
  {
    assert (routes - gone).Keys == routes.Keys - gone;
    assert |routes.Keys - gone| == |routes.Keys| - |gone|;
    assert |(routes - gone).Keys| == |routes - gone| && |routes.Keys| == |routes|;
  }

  /** Drops the routes in `gone`, each returning its permit. */
  function Dropped(relay: Relay, gone: set<Uuid>): Relay {
    relay.(routes := relay.routes - gone, free := relay.free + |gone|)
  }

  function ExpiredRoutes(routes: Routes, now: nat): set<Uuid> {
    set id | id in routes && routes[id].ticket.expires <= now
  }

  function InactiveRoutes(routes: Routes, view: Auth.State, wall: nat): set<Uuid> {
    set id | id in routes && !Auth.IsActive(view, routes[id].ticket.credential, wall)
  }

  datatype Action =
    | Begin
    | End
    | Insert(id: Uuid, ticket: Ticket)
    | Withdraw(id: Uuid)
    | Expire(now: nat)
    | Retain(view: Auth.State, wall: nat)
    | Publish
    | Arrive(id: Uuid, preface: Preface, mac: Mac, socket: nat, now: nat, wall: nat)
    | Restart

  /** Identifiers are fresh: no route id and no work id is stored twice, and every connection is
      a socket of its own. */
  ghost predicate Enabled(relay: Relay, a: Action) {
    && (a.Insert? ==>
          && a.id !in relay.log.stored
          && (forall id | id in relay.log.stored :: relay.log.stored[id].work != a.ticket.work))
    && (a.Arrive? ==> forall k | 0 <= k < |relay.log.admissions| :: relay.log.admissions[k].socket != a.socket)
  }

  function Apply(capacity: nat, relay: Relay, a: Action): Relay {
    match a
    case Begin => Begun(relay)
    case End => Ended(relay)
    case Insert(id, ticket) => Inserted(relay, id, ticket)
    case Withdraw(id) => Withdrawn(relay, id)
    case Expire(now) => Dropped(relay, ExpiredRoutes(relay.routes, now))
    case Retain(view, wall) => Dropped(relay, InactiveRoutes(relay.routes, view, wall)).(swept := Some(view))
    case Publish => relay.(published := relay.swept)
    case Arrive(id, preface, mac, socket, now, wall) =>
      if Resolves(relay.routes, preface, id) then Admit(relay, id, preface, mac, socket, now, wall) else relay
    case Restart => NewRelay(capacity).(log := relay.log)
  }

  // ----- invariant -----

  /** The socket was let in on this side of this route, by the right identifier and secret, before
      expiry and while the credential was active in the published authorization. */
  ghost predicate AdmissionOk(id: Uuid, t: Ticket, side: Side, socket: nat, a: Admission) {
    && a.route == id && a.socket == socket && a.preface == Preface(side, ExpectedId(id, t, side))
    && a.mac == Mac(a.preface, ExpectedSecret(t, side)) && a.at < t.expires
    && Auth.IsActive(a.view, t.credential, a.wall)
  }

  ghost predicate LetIn(admissions: seq<Admission>, id: Uuid, t: Ticket, side: Side, socket: nat) {
    exists k :: 0 <= k < |admissions| && AdmissionOk(id, t, side, socket, admissions[k])
  }

  ghost predicate RouteOk(log: Log, id: Uuid, r: Route) {
    && id in log.stored && log.stored[id] == r.ticket
    && !(r.travel.Some? && r.home.Some?)
    && (r.travel.Some? ==> LetIn(log.admissions, id, r.ticket, TravelSide, r.travel.value))
    && (r.home.Some? ==> LetIn(log.admissions, id, r.ticket, HomeSide, r.home.value))
    && (forall k | 0 <= k < |log.pairs| :: log.pairs[k].route != id)
  }

  ghost predicate PairOk(log: Log, p: Pair) {
    && p.route in log.stored
    && LetIn(log.admissions, p.route, log.stored[p.route], TravelSide, p.travel)
    && LetIn(log.admissions, p.route, log.stored[p.route], HomeSide, p.home)
  }

  ghost predicate RoutesOk(log: Log, routes: Routes) {
    forall id | id in routes :: RouteOk(log, id, routes[id])
  }

  ghost predicate PairsOk(log: Log) {
    && (forall k | 0 <= k < |log.pairs| :: PairOk(log, log.pairs[k]))
    && (forall k, l | 0 <= k < l < |log.pairs| :: log.pairs[k].route != log.pairs[l].route)
  }

  ghost predicate DistinctWork(stored: map<Uuid, Ticket>) {
    forall a, b | a in stored && b in stored && a != b :: stored[a].work != stored[b].work
  }

  ghost predicate DistinctSockets(admissions: seq<Admission>) {
    forall k, l | 0 <= k < l < |admissions| :: admissions[k].socket != admissions[l].socket
  }

  ghost predicate Inv(capacity: nat, relay: Relay) {
    && DistinctSockets(relay.log.admissions) && RoutesOk(relay.log, relay.routes) && PairsOk(relay.log)
    && DistinctWork(relay.log.stored)
    && relay.free + relay.handlers + |relay.routes| == capacity
  }

  /** More history never takes a fact away. */
  ghost predicate Grows(a: Log, b: Log) {
    && a.admissions <= b.admissions && a.pairs <= b.pairs
    && forall id | id in a.stored :: id in b.stored && b.stored[id] == a.stored[id]
  }

  lemma LetInStays(a: seq<Admission>, b: seq<Admission>, id: Uuid, t: Ticket, side: Side, socket: nat)
    requires a <= b && LetIn(a, id, t, side, socket)
    ensures LetIn(b, id, t, side, socket)
  {
    var k :| 0 <= k < |a| && AdmissionOk(id, t, side, socket, a[k]);
    assert b[k] == a[k];
  }

  lemma RouteStays(a: Log, b: Log, id: Uuid, r: Route)
    requires Grows(a, b) && RouteOk(a, id, r)
    requires forall k | |a.pairs| <= k < |b.pairs| :: b.pairs[k].route != id
    ensures RouteOk(b, id, r)
  {
    if r.travel.Some? { LetInStays(a.admissions, b.admissions, id, r.ticket, TravelSide, r.travel.value); }
    if r.home.Some? { LetInStays(a.admissions, b.admissions, id, r.ticket, HomeSide, r.home.value); }
  }

  lemma PairStays(a: Log, b: Log, p: Pair)
    requires Grows(a, b) && PairOk(a, p)
    ensures PairOk(b, p)
  {
    LetInStays(a.admissions, b.admissions, p.route, a.stored[p.route], TravelSide, p.travel);
    LetInStays(a.admissions, b.admissions, p.route, a.stored[p.route], HomeSide, p.home);
  }

  lemma AdmittedIsLetIn(relay: Relay, id: Uuid, preface: Preface, mac: Mac, socket: nat, now: nat, wall: nat)
    requires Inv(relay.free + relay.handlers + |relay.routes|, relay) && Admissible(relay, id, preface, mac, now, wall)
    ensures var log := Admitted(relay, id, preface, mac, socket, now, wall).log;
            var r := Seated(relay.routes[id], preface.side, socket);
            && Grows(relay.log, log) && id in log.stored && log.stored[id] == r.ticket
            && (r.travel.Some? ==> LetIn(log.admissions, id, r.ticket, TravelSide, r.travel.value))
            && (r.home.Some? ==> LetIn(log.admissions, id, r.ticket, HomeSide, r.home.value))
  {
    var log := Admitted(relay, id, preface, mac, socket, now, wall).log;
    var was := relay.routes[id];
    assert RouteOk(relay.log, id, was);
    assert AdmissionOk(id, was.ticket, preface.side, socket, log.admissions[|relay.log.admissions|]);
    if was.travel.Some? {
      LetInStays(relay.log.admissions, log.admissions, id, was.ticket, TravelSide, was.travel.value);
    }
    if was.home.Some? { LetInStays(relay.log.admissions, log.admissions, id, was.ticket, HomeSide, was.home.value); }
  }

  lemma ArriveKeepsRoutes(relay: Relay, id: Uuid, preface: Preface, mac: Mac, socket: nat, now: nat, wall: nat)
    requires Inv(relay.free + relay.handlers + |relay.routes|, relay) && Admissible(relay, id, preface, mac, now, wall)
    ensures var relay' := Admitted(relay, id, preface, mac, socket, now, wall);
            RoutesOk(relay'.log, relay'.routes)
  {
    var relay' := Admitted(relay, id, preface, mac, socket, now, wall);
    AdmittedIsLetIn(relay, id, preface, mac, socket, now, wall);
    assert RouteOk(relay.log, id, relay.routes[id]);
    forall other | other in relay'.routes ensures RouteOk(relay'.log, other, relay'.routes[other]) {
      if other != id {
        assert RouteOk(relay.log, other, relay.routes[other]);
        RouteStays(relay.log, relay'.log, other, relay.routes[other]);
      }
    }
  }

  lemma ArriveKeepsPairs(relay: Relay, id: Uuid, preface: Preface, mac: Mac, socket: nat, now: nat, wall: nat)
    requires Inv(relay.free + relay.handlers + |relay.routes|, relay) && Admissible(relay, id, preface, mac, now, wall)
    ensures PairsOk(Admitted(relay, id, preface, mac, socket, now, wall).log)
  {
    var log := Admitted(relay, id, preface, mac, socket, now, wall).log;
    AdmittedIsLetIn(relay, id, preface, mac, socket, now, wall);
    assert RouteOk(relay.log, id, relay.routes[id]);
    forall k | 0 <= k < |log.pairs| ensures PairOk(log, log.pairs[k]) {
      if k < |relay.log.pairs| { PairStays(relay.log, log, relay.log.pairs[k]); }
    }
  }

  lemma ArriveKeeps(capacity: nat, relay: Relay, id: Uuid, preface: Preface, mac: Mac, socket: nat, now: nat, wall: nat)
    requires Inv(capacity, relay) && Admissible(relay, id, preface, mac, now, wall)
    requires forall k | 0 <= k < |relay.log.admissions| :: relay.log.admissions[k].socket != socket
    ensures Inv(capacity, Admitted(relay, id, preface, mac, socket, now, wall))
  {
    ArriveKeepsRoutes(relay, id, preface, mac, socket, now, wall);
    ArriveKeepsPairs(relay, id, preface, mac, socket, now, wall);
    KeptCount(relay.routes, {id});
  }

  lemma InsertKeeps(capacity: nat, relay: Relay, id: Uuid, t: Ticket)
    requires Inv(capacity, relay) && Enabled(relay, Insert(id, t))
    ensures Inv(capacity, Inserted(relay, id, t))
  {
    var relay' := Inserted(relay, id, t);
    if relay.handlers > 0 {
      assert id in relay.routes ==> RouteOk(relay.log, id, relay.routes[id]);
      forall k | 0 <= k < |relay'.log.pairs|
        ensures PairOk(relay'.log, relay'.log.pairs[k]) && relay'.log.pairs[k].route != id
      {
        assert PairOk(relay.log, relay.log.pairs[k]);
        PairStays(relay.log, relay'.log, relay.log.pairs[k]);
      }
      forall other | other in relay'.routes ensures RouteOk(relay'.log, other, relay'.routes[other]) {
        if other != id {
          assert RouteOk(relay.log, other, relay.routes[other]);
          RouteStays(relay.log, relay'.log, other, relay.routes[other]);
        }
      }
    }
  }

  lemma DropKeeps(capacity: nat, relay: Relay, gone: set<Uuid>)
    requires Inv(capacity, relay) && gone <= relay.routes.Keys
    ensures Inv(capacity, Dropped(relay, gone))
  {
    KeptCount(relay.routes, gone);
    forall id | id in relay.routes - gone ensures RouteOk(relay.log, id, (relay.routes - gone)[id]) {
      assert RouteOk(relay.log, id, relay.routes[id]);
    }
  }

  lemma RetainKeeps(capacity: nat, relay: Relay, relay': Relay, view: Auth.State, wall: nat)
    requires Inv(capacity, relay)
    requires relay' == Dropped(relay, InactiveRoutes(relay.routes, view, wall)).(swept := Some(view))
    ensures Inv(capacity, relay')
  {
    var dropped := Dropped(relay, InactiveRoutes(relay.routes, view, wall));
    DropKeeps(capacity, relay, InactiveRoutes(relay.routes, view, wall));
    QuietKeeps(capacity, dropped, relay');
  }

  lemma WithdrawKeeps(capacity: nat, relay: Relay, relay': Relay, id: Uuid)
    requires Inv(capacity, relay) && relay' == Withdrawn(relay, id)
    ensures Inv(capacity, relay')
  {
    if id in relay.routes {
      DropKeeps(capacity, relay, {id});
      assert Dropped(relay, {id}) == relay';
    }
  }

  /** Steps that leave routes and history alone. */
  lemma QuietKeeps(capacity: nat, relay: Relay, relay': Relay)
    requires Inv(capacity, relay) && relay'.routes == relay.routes && relay'.log == relay.log
    requires relay'.free + relay'.handlers == relay.free + relay.handlers
    ensures Inv(capacity, relay')
  {
  }

  lemma RestartKeeps(capacity: nat, relay: Relay, relay': Relay)
    requires Inv(capacity, relay) && relay' == NewRelay(capacity).(log := relay.log)
    ensures Inv(capacity, relay')
  {
  }

  lemma ArrivalKeeps(capacity: nat, relay: Relay, relay': Relay, a: Action)
    requires Inv(capacity, relay) && a.Arrive? && Enabled(relay, a) && relay' == Apply(capacity, relay, a)
    ensures Inv(capacity, relay')
  {
    if Admissible(relay, a.id, a.preface, a.mac, a.now, a.wall) {
      ArriveKeeps(capacity, relay, a.id, a.preface, a.mac, a.socket, a.now, a.wall);
    }
  }

  lemma StepKeeps(capacity: nat, relay: Relay, a: Action)
    requires Inv(capacity, relay) && Enabled(relay, a)
    ensures Inv(capacity, Apply(capacity, relay, a))
  {
    var relay' := Apply(capacity, relay, a);
    match a
    case Begin => QuietKeeps(capacity, relay, relay');
    case End => QuietKeeps(capacity, relay, relay');
    case Insert(id, t) => InsertKeeps(capacity, relay, id, t);
    case Withdraw(id) => WithdrawKeeps(capacity, relay, relay', id);
    case Expire(now) => DropKeeps(capacity, relay, ExpiredRoutes(relay.routes, now));
    case Retain(view, wall) => RetainKeeps(capacity, relay, relay', view, wall);
    case Publish => QuietKeeps(capacity, relay, relay');
    case Arrive(_, _, _, _, _, _) => ArrivalKeeps(capacity, relay, relay', a);
    case Restart => RestartKeeps(capacity, relay, relay');
  }

  ghost function Run(capacity: nat, relay: Relay, trace: seq<Action>): Relay
    decreases |trace|
  {
    if trace == [] then relay
    else Run(capacity, if Enabled(relay, trace[0]) then Apply(capacity, relay, trace[0]) else relay, trace[1..])
  }

  lemma {:induction false} RunKeeps(capacity: nat, relay: Relay, trace: seq<Action>)
    requires Inv(capacity, relay)
    ensures Inv(capacity, Run(capacity, relay, trace))
    decreases |trace|
  {
    if trace != [] {
      if Enabled(relay, trace[0]) { StepKeeps(capacity, relay, trace[0]); }
      RunKeeps(capacity, if Enabled(relay, trace[0]) then Apply(capacity, relay, trace[0]) else relay, trace[1..]);
    }
  }

  /** Over every run: no stored route holds both sockets; a route is paired at most once and is
      then no longer stored; each pair joins a Travel socket admitted by the route's id with a Home
      socket admitted by the same route's work id, each before expiry and with the credential
      active in the authorization then published; and no route permit is lost or made up. */
  lemma PairingSafety(capacity: nat, trace: seq<Action>)
    ensures var relay := Run(capacity, NewRelay(capacity), trace);
            && (forall id | id in relay.routes :: !(relay.routes[id].travel.Some? && relay.routes[id].home.Some?))
            && (forall k, l | 0 <= k < l < |relay.log.pairs| :: relay.log.pairs[k].route != relay.log.pairs[l].route)
            && (forall k | 0 <= k < |relay.log.pairs| ::
                  relay.log.pairs[k].route !in relay.routes && PairOk(relay.log, relay.log.pairs[k]))
            && relay.free + relay.handlers + |relay.routes| == capacity
  {
    RunKeeps(capacity, NewRelay(capacity), trace);
    var relay := Run(capacity, NewRelay(capacity), trace);
    forall id | id in relay.routes
      ensures !(relay.routes[id].travel.Some? && relay.routes[id].home.Some?)
      ensures forall k | 0 <= k < |relay.log.pairs| :: relay.log.pairs[k].route != id
    {
      assert RouteOk(relay.log, id, relay.routes[id]);
    }
  }

  lemma SameSocketSameSeat(log: Log, a: Uuid, b: Uuid, sideA: Side, sideB: Side, socket: nat)
    requires DistinctSockets(log.admissions) && a in log.stored && b in log.stored
    requires LetIn(log.admissions, a, log.stored[a], sideA, socket)
    requires LetIn(log.admissions, b, log.stored[b], sideB, socket)
    ensures a == b && sideA == sideB
  {
    var k :| 0 <= k < |log.admissions| && AdmissionOk(a, log.stored[a], sideA, socket, log.admissions[k]);
    var l :| 0 <= l < |log.admissions| && AdmissionOk(b, log.stored[b], sideB, socket, log.admissions[l]);
  }

  /** A socket belongs to one side of one pair only. */
  lemma SocketsUsedOnce(capacity: nat, trace: seq<Action>, k: nat, l: nat)
    requires k < |Run(capacity, NewRelay(capacity), trace).log.pairs|
    requires l < |Run(capacity, NewRelay(capacity), trace).log.pairs|
    ensures var pairs := Run(capacity, NewRelay(capacity), trace).log.pairs;
            && pairs[k].travel != pairs[l].home
            && (k != l ==> pairs[k].travel != pairs[l].travel && pairs[k].home != pairs[l].home)
  {
    RunKeeps(capacity, NewRelay(capacity), trace);
    var log := Run(capacity, NewRelay(capacity), trace).log;
    var p, q := log.pairs[k], log.pairs[l];
    assert PairOk(log, p) && PairOk(log, q) && (k != l ==> p.route != q.route);
    if p.travel == q.home { SameSocketSameSeat(log, p.route, q.route, TravelSide, HomeSide, p.travel); }
    if p.travel == q.travel { SameSocketSameSeat(log, p.route, q.route, TravelSide, TravelSide, p.travel); }
    if p.home == q.home { SameSocketSameSeat(log, p.route, q.route, HomeSide, HomeSide, p.home); }
  }

  /** The work id of a Home's preface names at most one stored route. */
  lemma ResolvesToOne(capacity: nat, trace: seq<Action>, preface: Preface, a: Uuid, b: Uuid)
    requires Resolves(Run(capacity, NewRelay(capacity), trace).routes, preface, a)
    requires Resolves(Run(capacity, NewRelay(capacity), trace).routes, preface, b)
    ensures a == b
  {
    RunKeeps(capacity, NewRelay(capacity), trace);
    var relay := Run(capacity, NewRelay(capacity), trace);
    assert RouteOk(relay.log, a, relay.routes[a]) && RouteOk(relay.log, b, relay.routes[b]);
  }

  // ----- the Relay as it mutates its table -----

  /** The snapshot passes verification and the rollback check of the cache. */
  predicate SnapshotFits(t: Trust, cache: History.Cache, view: Auth.State) {
    Auth.Verifies(t, view) && History.Accepts(cache, view)
  }

  predicate SnapshotTaken(t: Trust, cache: History.Cache, view: Auth.State, outcome: StoreOutcome) {
    SnapshotFits(t, cache, view) && (History.Remember(view) == cache || outcome.Stored?)
  }

  /** The cache file was rewritten, whether or not that was reported. */
  predicate SnapshotStored(t: Trust, cache: History.Cache, view: Auth.State, outcome: StoreOutcome) {
    SnapshotFits(t, cache, view) && History.Remember(view) != cache && !outcome.Kept?
  }

  function Unkept(routes: Routes, keep: Route -> bool): set<Uuid> {
    set id | id in routes && !keep(routes[id])
  }

  /** Dropping one more of the routes looked at. */
  lemma DroppedOneMore(routes: Routes, gone: set<Uuid>, id: Uuid)
    requires id in routes && id !in gone
    ensures id in routes - gone && (routes - gone)[id] == routes[id]
    ensures routes - (gone + {id}) == routes - gone - {id} && |gone + {id}| == |gone| + 1
  {
  }

  /** Looks at the routes in any order; of those looked at, the ones in `gone` are dropped. */
  method Retained(routes: Routes, keep: Route -> bool) returns (kept: Routes, dropped: nat)
    ensures kept == routes - Unkept(routes, keep) && dropped == |Unkept(routes, keep)|
  {
    var rest := routes.Keys;
    ghost var gone: set<Uuid> := {};
    kept, dropped := routes, 0;
    while rest != {}
      invariant rest <= routes.Keys && gone !! rest
      invariant forall id :: id in gone <==> id in routes && id !in rest && !keep(routes[id])
      invariant kept == routes - gone && dropped == |gone|
      decreases rest
    {
      var id :| id in rest;
      DroppedOneMore(routes, gone, id);
      rest := rest - {id};
      if !keep(kept[id]) {
        kept, dropped := kept - {id}, dropped + 1;
        gone := gone + {id};
      }
    }
    assert gone == Unkept(routes, keep);
  }

  class RouteTable {
    var cache: History.Cache
    var cacheFile: History.Cache
    var routes: Routes
    var free: nat
    var handlers: nat
    var published: Option<Auth.State>
    ghost var swept: Option<Auth.State>
    ghost var log: Log

    ghost function Model(): Relay
      reads this
    {
      Relay(routes, free, handlers, swept, published, log)
    }

    constructor (capacity: nat, stored: History.Cache)
      ensures Model() == NewRelay(capacity) && cache == cacheFile == stored
    {
      cache, cacheFile := stored, stored;
      routes, free, handlers, swept, published, log := map[], capacity, 0, None, None, Log(map[], [], []);
    }

    method TryBegin() returns (ok: bool)
      modifies this
      ensures Model() == Begun(old(Model())) && ok == (old(free) > 0)
    {
      ok := free > 0;
      if ok {
        free, handlers := free - 1, handlers + 1;
      }
    }

    method End()
      requires handlers > 0
      modifies this
      ensures Model() == Ended(old(Model()))
    {
      free, handlers := free + 1, handlers - 1;
    }

    method Insert(id: Uuid, ticket: Ticket)
      requires handlers > 0
      modifies this
      ensures Model() == Inserted(old(Model()), id, ticket)
      ensures routes == old(routes)[id := Route(ticket, None, None)] && handlers == old(handlers) - 1
    {
      routes := routes[id := Route(ticket, None, None)];
      handlers := handlers - 1;
      log := log.(stored := log.stored[id := ticket]);
    }

    method Withdraw(id: Uuid)
      modifies this
      ensures Model() == Withdrawn(old(Model()), id)
      ensures routes == old(routes) - {id}
    {
      if id in routes {
        routes, free := routes - {id}, free + 1;
      }
    }

    /** Keeps the routes that satisfy `keep`; each of the others returns its permit. */
    method RetainRoutes(keep: Route -> bool)
      modifies this`routes, this`free
      ensures Model() == Dropped(old(Model()), Unkept(old(routes), keep))
    {
      var kept, dropped := Retained(routes, keep);
      routes, free := kept, free + dropped;
    }

    method Cleanup(now: nat)
      modifies this
      ensures Model() == Dropped(old(Model()), ExpiredRoutes(old(routes), now))
      ensures forall id :: id in routes <==> id in old(routes) && now < old(routes)[id].ticket.expires
    {
      RetainRoutes((r: Route) => now < r.ticket.expires);
      assert Unkept(old(routes), (r: Route) => now < r.ticket.expires) == ExpiredRoutes(old(routes), now);
    }

    /** A snapshot is verified, held against the cache of what was accepted before, and remembered
        on disk; only then do the routes go whose credential it does not find active, and it is
        published. */
    method ApplySnapshot(t: Trust, view: Auth.State, wall: nat, outcome: StoreOutcome) returns (ok: bool)
      modifies this
      ensures ok == SnapshotTaken(t, old(cache), view, outcome)
      ensures ok ==>
                Model() == Dropped(old(Model()), InactiveRoutes(old(routes), view, wall))
                           .(swept := Some(view), published := Some(view))
      ensures ok ==>
                forall id :: id in routes <==>
                  id in old(routes) && Auth.IsActive(view, old(routes)[id].ticket.credential, wall)
      ensures !ok ==> Model() == old(Model())
      ensures cache == if ok then History.Remember(view) else old(cache)
      ensures cacheFile == if SnapshotStored(t, old(cache), view, outcome)
                           then History.Remember(view) else old(cacheFile)
    {
      ok := Auth.Verify(t, view);
      if !ok || !History.Accepts(cache, view) {
        return false;
      }
      var proposed := History.Remember(view);
      if proposed != cache {
        if !outcome.Kept? {
          cacheFile := proposed;
        }
        if !outcome.Stored? {
          return false;
        }
        cache := proposed;
      }
      RetainRoutes((r: Route) => Auth.IsActive(view, r.ticket.credential, wall));
      assert Unkept(old(routes), (r: Route) => Auth.IsActive(view, r.ticket.credential, wall))
          == InactiveRoutes(old(routes), view, wall);
      swept, published := Some(view), Some(view);
    }

    /** Finds the route a preface names, trying stored routes in any order. */
    method Resolve(preface: Preface) returns (found: Option<Uuid>)
      ensures found.Some? ==> Resolves(routes, preface, found.value)
      ensures found.None? ==> forall id :: !Resolves(routes, preface, id)
    {
      if preface.side.TravelSide? {
        return if preface.id in routes then Some(preface.id) else None;
      }
      var rest := routes.Keys;
      while rest != {}
        invariant rest <= routes.Keys
        invariant forall id | id !in rest :: !Resolves(routes, preface, id)
        decreases rest
      {
        var id :| id in rest;
        if routes[id].ticket.work == preface.id {
          return Some(id);
        }
        rest := rest - {id};
      }
      return None;
    }

    /** One data connection up to the pairing step. */
    method Arrive(preface: Preface, mac: Mac, socket: nat, now: nat, wall: nat) returns (pair: Option<Pair>)
      modifies this
      ensures (Model() == old(Model()) && pair.None? && forall id :: !Resolves(old(routes), preface, id)) ||
              (exists id :: Resolves(old(routes), preface, id)
                            && Model() == Admit(old(Model()), id, preface, mac, socket, now, wall)
                            && log.pairs == old(log).pairs + if pair.Some? then [pair.value] else [])
    {
      var found := Resolve(preface);
      if found.None? {
        return None;
      }
      var id := found.value;
      pair := AdmitTo(id, preface, mac, socket, now, wall);
    }

    method AdmitTo(id: Uuid, preface: Preface, mac: Mac, socket: nat, now: nat, wall: nat) returns (pair: Option<Pair>)
      requires id in routes
      modifies this
      ensures Model() == Admit(old(Model()), id, preface, mac, socket, now, wall)
      ensures log.pairs == old(log).pairs + if pair.Some? then [pair.value] else []
    {
      var route := routes[id];
      if route.ticket.expires <= now {
        return None;
      }
      if published.None? || !Auth.IsActive(published.value, route.ticket.credential, wall) {
        return None;
      }
      if preface.id != ExpectedId(id, route.ticket, preface.side) {
        return None;
      }
      if mac != Mac(preface, ExpectedSecret(route.ticket, preface.side)) {
        return None;
      }
      if Seat(route, preface.side).Some? {
        return None;
      }
      log := log.(admissions := log.admissions + [Admission(id, preface, mac, socket, now, wall, published.value)]);
      match preface.side {
        case TravelSide => route := route.(travel := Some(socket));
        case HomeSide => route := route.(home := Some(socket));
      }
      if route.travel.Some? && route.home.Some? {
        routes, free := routes - {id}, free + 1;
        pair := Some(Pair(id, route.travel.value, route.home.value));
        log := log.(pairs := log.pairs + [pair.value]);
      } else {
        routes := routes[id := route];
        pair := None;
      }
    }
  }
}
