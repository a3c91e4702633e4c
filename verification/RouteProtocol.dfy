/** The direct-route protocol between Relays and the Server: a Relay asks, the Server grants work
    and remembers it, the Relay stores a route and announces it, and the Server tells the Home to
    open the work. Messages may be lost, late or repeated; anything may time out or restart. */
module RouteProtocol {
  import opened Basics
  import opened Credentials
  import Auth = Authorization
  import Routes = RelayRoutes

  datatype Limits = Limits(routePermits: nat, routeTtl: nat, maxPending: nat, workTtl: nat)

  datatype Ask = Ask(relay: string, request: Uuid, travel: string, credential: Uuid, home: string)

  /** `view` and `wall` record the authorization and the time the Server decided by, `expires` until
      when, on its own clock, it will have the work opened. */
  datatype WorkGrant = WorkGrant(ask: Ask, work: Uuid, secret: nat, until: nat, expires: nat, view: Auth.State,
                                 wall: nat)

  /** `origin` records the grant this entry was made for. */
  datatype Pending = Pending(relay: string, work: Uuid, credential: Uuid, home: string, expires: nat, origin: nat)

  datatype Ready = Ready(relay: string, request: Uuid, work: Uuid)

  /** The instruction a Home receives; `at` records when the Server decided it. */
  datatype Opening = Opening(home: string, work: Uuid, relay: string, credential: Uuid, at: nat)

  /** The grant a route was stored for, and when that was on the Relay's clock and on the wall. */
  datatype Origin = Origin(grant: nat, at: nat, wall: nat)

  /** `origins` records where each stored route came from. */
  datatype RelaySide = RelaySide(
    table: Routes.Relay, waiting: map<Uuid, Ask>, announcing: map<Uuid, Uuid>, origins: map<Uuid, Origin>)

  /** `grants` and `openings` are every grant and every opening so far; `taken` the grants that have
      reached their Relay. */
  datatype World = World(
    asks: seq<Ask>, pending: map<Uuid, Pending>, grants: seq<WorkGrant>, taken: set<nat>,
    relays: map<string, RelaySide>, readies: seq<Ready>, openings: seq<Opening>)

  // ----- the Server -----

  predicate Sibling(a: Credential, b: Credential) {
    a.travel == b.travel && a.key == b.key
  }

  /** The Travel identity behind the credential has an active credential that reaches the Home. */
  predicate AuthorizedFor(s: Auth.State, credential: Uuid, travel: string, home: string, wall: nat) {
    exists i ::
      && 0 <= i < |s.credentials| && s.credentials[i].payload.id == credential
      && s.credentials[i].payload.travel == travel
      && exists j :: 0 <= j < |s.credentials| && Sibling(s.credentials[j].payload, s.credentials[i].payload)
                     && Auth.IsActive(s, s.credentials[j].payload.id, wall)
                     && AllowsHome(s.credentials[j].payload.scope, home)
  }

  function Granted(limits: Limits, w: World, ask: Ask, work: Uuid, secret: nat, view: Auth.State, wall: nat,
                   now: nat): World {
    if !AuthorizedFor(view, ask.credential, ask.travel, ask.home, wall) || |w.pending| >= limits.maxPending then w
    else
      w.(pending := w.pending[ask.request :=
           Pending(ask.relay, work, ask.credential, ask.home, now + limits.workTtl, |w.grants|)],
         grants := w.grants + [WorkGrant(ask, work, secret, wall + limits.workTtl, now + limits.workTtl, view, wall)])
  }

  datatype Taken = Unknown | Mismatch | Expired | Match(grant: Pending)

  function TakeMatching(pending: map<Uuid, Pending>, ready: Ready, now: nat): Taken {
    if ready.request !in pending then Unknown
    else
      var p := pending[ready.request];
      if p.relay != ready.relay || p.work != ready.work then Mismatch
      else if p.expires <= now then Expired
      else Match(p)
  }

  /** The announcement is of this work by its Relay, in time. */
  predicate Matches(p: Pending, ready: Ready, now: nat) {
    p.relay == ready.relay && p.work == ready.work && now < p.expires
  }

  /** A matching announcement retires the pending work; the Home is told if its queue takes it. */
  function Completed(w: World, ready: Ready, now: nat, queued: bool): World {
    match TakeMatching(w.pending, ready, now)
    case Unknown => w
    case Mismatch => w
    case Expired => w.(pending := w.pending - {ready.request})
    case Match(p) =>
      if queued then
        w.(pending := w.pending - {ready.request},
           openings := w.openings + [Opening(p.home, p.work, p.relay, p.credential, now)])
      else w.(pending := w.pending - {ready.request})
  }

  /** The Server's table of granted work that no Relay has announced yet. */
  class PendingGrants {
    var pending: map<Uuid, Pending>

    constructor ()
      ensures pending == map[]
    {
      pending := map[];
    }

    method Insert(limit: nat, request: Uuid, grant: Pending) returns (ok: bool)
      modifies this
      ensures ok == (|old(pending)| < limit)
      ensures pending == if ok then old(pending)[request := grant] else old(pending)
    {
      ok := |pending| < limit;
      if ok {
        pending := pending[request := grant];
      }
    }

    method Take(ready: Ready, now: nat) returns (taken: Taken)
      modifies this
      ensures taken == TakeMatching(old(pending), ready, now)
      ensures taken.Match? <==> ready.request in old(pending) && Matches(old(pending)[ready.request], ready, now)
      ensures taken.Match? ==> taken.grant == old(pending)[ready.request]
      ensures pending == if taken.Expired? || taken.Match? then old(pending) - {ready.request} else old(pending)
    {
      if ready.request !in pending {
        return Unknown;
      }
      var found := pending[ready.request];
      if found.relay != ready.relay || found.work != ready.work {
        return Mismatch;
      }
      pending := pending - {ready.request};
      return if found.expires <= now then Expired else Match(found);
    }
  }

  // ----- the Relay -----

  function TicketFor(limits: Limits, ask: Ask, g: WorkGrant, secret: nat, wall: nat, now: nat): Routes.Ticket
    requires wall < g.until
  {
    var remaining := g.until - wall;
    Routes.Ticket(ask.credential, ask.travel, ask.home, g.work, Routes.Secrets(secret, g.secret),
                  now + if remaining < limits.routeTtl then remaining else limits.routeTtl)
  }

  /** The waiter of a request takes the Server's answer and stores a route if it fits. */
  function Stored(limits: Limits, side: RelaySide, g: WorkGrant, origin: nat, id: Uuid, secret: nat, wall: nat,
                  now: nat): RelaySide {
    var request := g.ask.request;
    if request !in side.waiting then side
    else
      var ask := side.waiting[request];
      var waiting := side.waiting - {request};
      if g.ask.credential == ask.credential && g.ask.home == ask.home && wall < g.until && side.table.handlers > 0 then
        RelaySide(Routes.Inserted(side.table, id, TicketFor(limits, ask, g, secret, wall, now)), waiting,
                  side.announcing[id := request], side.origins[id := Origin(origin, now, wall)])
      else side.(table := Routes.Ended(side.table), waiting := waiting)
  }

  datatype Action =
    | Asks(ask: Ask)
    | GivesUp(relay: string, request: Uuid)
    | Grants(index: nat, work: Uuid, secret: nat, view: Auth.State, wall: nat, now: nat)
    | Stores(grant: nat, id: Uuid, secret: nat, wall: nat, now: nat)
    | Announces(relay: string, id: Uuid)
    | Opens(ready: nat, now: nat, queued: bool)
    | Retires(requests: set<Uuid>)
    | RelayActs(relay: string, step: Routes.Action)
    | RelayRestarts(relay: string)

  /** Steps of the route table that take no part in the protocol. */
  predicate TableOnly(step: Routes.Action) {
    step.Withdraw? || step.Expire? || step.Retain? || step.Publish? || step.Arrive?
  }

  /** A work id is fresh when granted and a route id when stored. */
  ghost predicate Enabled(w: World, a: Action) {
    match a
    case Asks(ask) =>
      ask.relay in w.relays && w.relays[ask.relay].table.free > 0 && ask.request !in w.relays[ask.relay].waiting
    case GivesUp(relay, request) => relay in w.relays && request in w.relays[relay].waiting
    case Grants(index, work, _, _, _, _) =>
      index < |w.asks| && forall g | 0 <= g < |w.grants| :: w.grants[g].work != work
    case Stores(grant, id, _, _, _) =>
      && grant < |w.grants| && grant !in w.taken && w.grants[grant].ask.relay in w.relays
      && id !in w.relays[w.grants[grant].ask.relay].table.log.stored
    case Announces(relay, id) =>
      relay in w.relays && id in w.relays[relay].announcing && id in w.relays[relay].table.log.stored
    case Opens(ready, _, _) => ready < |w.readies|
    case Retires(_) => true
    case RelayActs(relay, step) => relay in w.relays && TableOnly(step) && Routes.Enabled(w.relays[relay].table, step)
    case RelayRestarts(relay) => relay in w.relays
  }

  function Apply(limits: Limits, w: World, a: Action): World
    requires Enabled(w, a)
  {
    match a
    case Asks(ask) =>
      var side := w.relays[ask.relay];
      w.(asks := w.asks + [ask],
         relays := w.relays[ask.relay := side.(table := Routes.Begun(side.table),
                                               waiting := side.waiting[ask.request := ask])])
    case GivesUp(relay, request) =>
      var side := w.relays[relay];
      w.(relays := w.relays[relay := side.(table := Routes.Ended(side.table), waiting := side.waiting - {request})])
    case Grants(index, work, secret, view, wall, now) =>
      Granted(limits, w, w.asks[index], work, secret, view, wall, now)
    case Stores(grant, id, secret, wall, now) =>
      var g := w.grants[grant];
      w.(taken := w.taken + {grant},
         relays := w.relays[g.ask.relay := Stored(limits, w.relays[g.ask.relay], g, grant, id, secret, wall, now)])
    case Announces(relay, id) =>
      var side := w.relays[relay];
      w.(readies := w.readies + [Ready(relay, side.announcing[id], side.table.log.stored[id].work)])
    case Opens(ready, now, queued) => Completed(w, w.readies[ready], now, queued)
    case Retires(requests) => w.(pending := w.pending - requests)
    case RelayActs(relay, step) =>
      var side := w.relays[relay];
      w.(relays := w.relays[relay := side.(table := Routes.Apply(limits.routePermits, side.table, step))])
    case RelayRestarts(relay) =>
      var side := w.relays[relay];
      w.(relays := w.relays[relay := side.(table := Routes.Apply(limits.routePermits, side.table, Routes.Restart),
                                           waiting := map[], announcing := map[])])
  }

  ghost function Run(limits: Limits, w: World, trace: seq<Action>): World
    decreases |trace|
  {
    if trace == [] then w else Run(limits, if Enabled(w, trace[0]) then Apply(limits, w, trace[0]) else w, trace[1..])
  }

  function NewSide(limits: Limits): RelaySide {
    RelaySide(Routes.NewRelay(limits.routePermits), map[], map[], map[])
  }

  function Initial(limits: Limits, names: set<string>): World {
    World([], map[], [], {}, map name | name in names :: NewSide(limits), [], [])
  }

  // ----- invariant -----

  ghost predicate GrantsOk(grants: seq<WorkGrant>) {
    && (forall i, j | 0 <= i < j < |grants| :: grants[i].work != grants[j].work)
    && (forall i | 0 <= i < |grants| ::
          AuthorizedFor(grants[i].view, grants[i].ask.credential, grants[i].ask.travel, grants[i].ask.home,
                        grants[i].wall))
  }

  ghost predicate Opened(openings: seq<Opening>, work: Uuid) {
    exists i :: 0 <= i < |openings| && openings[i].work == work
  }

  /** Pending work is a grant's, under that grant's request, and no Home was told of it yet. */
  ghost predicate PendingOk(grants: seq<WorkGrant>, openings: seq<Opening>, request: Uuid, p: Pending) {
    && p.origin < |grants| && !Opened(openings, p.work)
    && grants[p.origin].work == p.work && grants[p.origin].ask.request == request
    && grants[p.origin].ask.relay == p.relay && grants[p.origin].expires == p.expires
    && grants[p.origin].ask.credential == p.credential && grants[p.origin].ask.home == p.home
  }

  /** A stored route is one grant's: its work, its Relay, its credential and its Home. */
  ghost predicate IssuedAs(g: WorkGrant, relay: string, t: Routes.Ticket) {
    g.ask.relay == relay && g.work == t.work && g.ask.credential == t.credential && g.ask.home == t.home
    && g.secret == t.secrets.work
  }

  /** The route lives no longer than what was left of the grant when it was stored. */
  predicate WithinGrant(g: WorkGrant, o: Origin, t: Routes.Ticket) {
    o.wall < g.until && t.expires <= o.at + (g.until - o.wall)
  }

  ghost predicate TicketFrom(w: World, relay: string, o: Origin, t: Routes.Ticket) {
    && o.grant < |w.grants| && o.grant in w.taken
    && IssuedAs(w.grants[o.grant], relay, t) && WithinGrant(w.grants[o.grant], o, t)
  }

  ghost predicate TicketOk(w: World, relay: string, origins: map<Uuid, Origin>, id: Uuid, t: Routes.Ticket) {
    id in origins && TicketFrom(w, relay, origins[id], t)
  }

  ghost predicate TicketsOk(w: World, relay: string, side: RelaySide) {
    forall id | id in side.table.log.stored :: TicketOk(w, relay, side.origins, id, side.table.log.stored[id])
  }

  ghost predicate SideOk(limits: Limits, w: World, relay: string, side: RelaySide) {
    Routes.Inv(limits.routePermits, side.table) && TicketsOk(w, relay, side) && side.table.handlers == |side.waiting|
  }

  /** The Relay has stored a route with this work id. */
  ghost predicate HasStored(w: World, relay: string, work: Uuid) {
    && relay in w.relays
    && exists id :: id in w.relays[relay].table.log.stored && w.relays[relay].table.log.stored[id].work == work
  }

  /** The opening names a route its Relay has stored, with the credential and Home the Server
      authorized for it. */
  ghost predicate OpeningOk(w: World, o: Opening) {
    && HasStored(w, o.relay, o.work)
    && exists g :: 0 <= g < |w.grants| && w.grants[g].work == o.work && w.grants[g].ask.relay == o.relay
                   && w.grants[g].ask.credential == o.credential && w.grants[g].ask.home == o.home
                   && o.at < w.grants[g].expires
  }

  ghost predicate PendingAt(w: World, q: Uuid) {
    q in w.pending ==> PendingOk(w.grants, w.openings, q, w.pending[q])
  }

  ghost predicate ServerOk(w: World) {
    && GrantsOk(w.grants) && (forall q :: PendingAt(w, q))
    && (forall i, j | 0 <= i < j < |w.openings| :: w.openings[i].work != w.openings[j].work)
  }

  ghost predicate ReadyAt(w: World, k: nat) {
    k < |w.readies| ==> HasStored(w, w.readies[k].relay, w.readies[k].work)
  }

  ghost predicate OpeningAt(w: World, k: nat) {
    k < |w.openings| ==> OpeningOk(w, w.openings[k])
  }

  ghost predicate MessagesOk(w: World) {
    (forall k: nat :: ReadyAt(w, k)) && (forall k: nat :: OpeningAt(w, k))
  }

  ghost predicate SideAt(limits: Limits, w: World, relay: string) {
    relay in w.relays ==> SideOk(limits, w, relay, w.relays[relay])
  }

  ghost predicate Inv(limits: Limits, w: World) {
    ServerOk(w) && MessagesOk(w) && forall relay :: SideAt(limits, w, relay)
  }

  /** Grants and stored routes are never taken back. */
  ghost predicate Later(w: World, w': World) {
    && w.grants <= w'.grants && w.taken <= w'.taken
    && (forall r | r in w.relays ::
          r in w'.relays && StoredLater(w.relays[r].table.log.stored, w'.relays[r].table.log.stored))
  }

  ghost predicate StoredLater(a: map<Uuid, Routes.Ticket>, b: map<Uuid, Routes.Ticket>) {
    forall id | id in a :: id in b && b[id] == a[id]
  }

  lemma HasStoredStays(w: World, w': World, relay: string, work: Uuid)
    requires Later(w, w') && HasStored(w, relay, work)
    ensures HasStored(w', relay, work)
  {
    var id :| id in w.relays[relay].table.log.stored && w.relays[relay].table.log.stored[id].work == work;
    assert w'.relays[relay].table.log.stored[id].work == work;
  }

  lemma OpeningStays(w: World, w': World, o: Opening)
    requires Later(w, w') && OpeningOk(w, o)
    ensures OpeningOk(w', o)
  {
    HasStoredStays(w, w', o.relay, o.work);
    var g :| 0 <= g < |w.grants| && w.grants[g].work == o.work && w.grants[g].ask.relay == o.relay
             && w.grants[g].ask.credential == o.credential && w.grants[g].ask.home == o.home
             && o.at < w.grants[g].expires;
    assert w'.grants[g] == w.grants[g];
  }

  lemma SideStays(limits: Limits, w: World, w': World, relay: string, side: RelaySide)
    requires w.grants <= w'.grants && w.taken <= w'.taken && SideOk(limits, w, relay, side)
    ensures SideOk(limits, w', relay, side)
  {
    forall id | id in side.table.log.stored ensures TicketOk(w', relay, side.origins, id, side.table.log.stored[id]) {
      assert TicketOk(w, relay, side.origins, id, side.table.log.stored[id]);
    }
  }

  lemma OneRelayLater(w: World, w': World, relay: string, side: RelaySide)
    requires w'.grants == w.grants && w.taken <= w'.taken && relay in w.relays && w'.relays == w.relays[relay := side]
    requires StoredLater(w.relays[relay].table.log.stored, side.table.log.stored)
    ensures Later(w, w')
  {
  }

  lemma SamePending(w: World, w': World)
    requires ServerOk(w) && w'.grants == w.grants && w'.pending == w.pending && w'.openings == w.openings
    ensures ServerOk(w')
  {
    forall q ensures PendingAt(w', q) {
      assert PendingAt(w, q);
    }
  }

  /** One Relay moves and nothing else but the asks, the announcements and what was taken. */
  lemma RelayMoves(limits: Limits, w: World, w': World, relay: string, side: RelaySide)
    requires Inv(limits, w) && Later(w, w') && relay in w.relays
    requires w'.grants == w.grants && w'.pending == w.pending && w'.openings == w.openings && w'.readies == w.readies
    requires w'.relays == w.relays[relay := side] && SideOk(limits, w', relay, side)
    ensures Inv(limits, w')
  {
    SamePending(w, w');
    forall k: nat ensures ReadyAt(w', k) {
      assert ReadyAt(w, k);
      if k < |w'.readies| { HasStoredStays(w, w', w'.readies[k].relay, w'.readies[k].work); }
    }
    forall k: nat ensures OpeningAt(w', k) {
      assert OpeningAt(w, k);
      if k < |w'.openings| { OpeningStays(w, w', w'.openings[k]); }
    }
    forall r ensures SideAt(limits, w', r) {
      assert SideAt(limits, w, r);
      if r in w.relays && r != relay { SideStays(limits, w, w', r, w.relays[r]); }
    }
  }

  /** The Server moves; the Relays stay as they are. */
  lemma ServerMoves(limits: Limits, w: World, w': World)
    requires Inv(limits, w) && w'.relays == w.relays && w'.taken == w.taken && w.grants <= w'.grants
    requires ServerOk(w') && MessagesOk(w')
    ensures Inv(limits, w')
  {
    forall r ensures SideAt(limits, w', r) {
      assert SideAt(limits, w, r);
      if r in w.relays { SideStays(limits, w, w', r, w.relays[r]); }
    }
  }

  lemma StoredKept(limits: Limits, side: RelaySide, step: Routes.Action)
    requires !step.Insert?
    ensures Routes.Apply(limits.routePermits, side.table, step).log.stored == side.table.log.stored
  {
  }

  /** A step of the table that stores nothing. */
  lemma TableKeeps(limits: Limits, w: World, relay: string, side: RelaySide, side': RelaySide, step: Routes.Action)
    requires SideOk(limits, w, relay, side) && !step.Insert? && Routes.Enabled(side.table, step)
    requires side'.table == Routes.Apply(limits.routePermits, side.table, step) && side'.origins == side.origins
    requires side'.table.handlers == |side'.waiting|
    ensures SideOk(limits, w, relay, side')
  {
    StoredKept(limits, side, step);
    Routes.StepKeeps(limits.routePermits, side.table, step);
  }

  /** The ticket of the grant being stored shares its work with no ticket stored before. */
  lemma StoresFresh(w: World, relay: string, side: RelaySide, grant: nat, id: Uuid, t: Routes.Ticket)
    requires TicketsOk(w, relay, side) && GrantsOk(w.grants) && grant < |w.grants| && grant !in w.taken
    requires id !in side.table.log.stored && t.work == w.grants[grant].work
    ensures Routes.Enabled(side.table, Routes.Insert(id, t))
  {
    forall other | other in side.table.log.stored ensures side.table.log.stored[other].work != t.work {
      assert TicketOk(w, relay, side.origins, other, side.table.log.stored[other]);
    }
  }

  lemma InsertedTickets(w: World, relay: string, side: RelaySide, id: Uuid, t: Routes.Ticket, origin: Origin)
    requires TicketsOk(w, relay, side)
    requires side.table.handlers > 0 && id !in side.table.log.stored && TicketFrom(w, relay, origin, t)
    ensures var stored := Routes.Inserted(side.table, id, t).log.stored;
            forall other | other in stored :: TicketOk(w, relay, side.origins[id := origin], other, stored[other])
  {
    var stored := Routes.Inserted(side.table, id, t).log.stored;
    forall other | other in stored ensures TicketOk(w, relay, side.origins[id := origin], other, stored[other]) {
      if other != id { assert TicketOk(w, relay, side.origins, other, side.table.log.stored[other]); }
    }
  }

  lemma InsertSideOk(limits: Limits, w: World, relay: string, side: RelaySide, side': RelaySide, id: Uuid,
                     t: Routes.Ticket, origin: Origin)
    requires SideOk(limits, w, relay, side) && Routes.Enabled(side.table, Routes.Insert(id, t))
    requires side.table.handlers > 0 && TicketFrom(w, relay, origin, t)
    requires side'.table == Routes.Inserted(side.table, id, t) && side'.origins == side.origins[id := origin]
    requires |side'.waiting| == |side.waiting| - 1
    ensures SideOk(limits, w, relay, side')
  {
    Routes.InsertKeeps(limits.routePermits, side.table, id, t);
    InsertedTickets(w, relay, side, id, t, origin);
  }

  lemma StoresSideOk(limits: Limits, w: World, g: WorkGrant, origin: nat, side: RelaySide, id: Uuid, secret: nat,
                     wall: nat, now: nat)
    requires SideOk(limits, w, g.ask.relay, side) && origin < |w.grants| && w.grants[origin] == g && origin in w.taken
    requires forall t: Routes.Ticket | t.work == g.work :: Routes.Enabled(side.table, Routes.Insert(id, t))
    ensures SideOk(limits, w, g.ask.relay, Stored(limits, side, g, origin, id, secret, wall, now))
  {
    var side' := Stored(limits, side, g, origin, id, secret, wall, now);
    if g.ask.request in side.waiting {
      var ask := side.waiting[g.ask.request];
      if g.ask.credential == ask.credential && g.ask.home == ask.home && wall < g.until && side.table.handlers > 0 {
        var t := TicketFor(limits, ask, g, secret, wall, now);
        assert Routes.Enabled(side.table, Routes.Insert(id, t));
        InsertSideOk(limits, w, g.ask.relay, side, side', id, t, Origin(origin, now, wall));
      } else {
        TableKeeps(limits, w, g.ask.relay, side, side', Routes.End);
      }
    }
  }

  lemma StoresLater(limits: Limits, g: WorkGrant, origin: nat, side: RelaySide, id: Uuid, secret: nat, wall: nat,
                    now: nat)
    requires id !in side.table.log.stored
    ensures StoredLater(side.table.log.stored, Stored(limits, side, g, origin, id, secret, wall, now).table.log.stored)
  {
  }

  /** The Relay's side after taking the grant is in order again. */
  lemma StoresSide(limits: Limits, w: World, w': World, grant: nat, side: RelaySide, id: Uuid, secret: nat, wall: nat,
                   now: nat)
    requires GrantsOk(w.grants) && grant < |w.grants| && grant !in w.taken && id !in side.table.log.stored
    requires SideOk(limits, w, w.grants[grant].ask.relay, side)
    requires w'.grants == w.grants && w'.taken == w.taken + {grant}
    ensures var g := w.grants[grant];
            var side' := Stored(limits, side, g, grant, id, secret, wall, now);
            SideOk(limits, w', g.ask.relay, side') && StoredLater(side.table.log.stored, side'.table.log.stored)
  {
    var g := w.grants[grant];
    SideStays(limits, w, w', g.ask.relay, side);
    forall t: Routes.Ticket | t.work == g.work ensures Routes.Enabled(side.table, Routes.Insert(id, t)) {
      StoresFresh(w, g.ask.relay, side, grant, id, t);
    }
    StoresSideOk(limits, w', g, grant, side, id, secret, wall, now);
    StoresLater(limits, g, grant, side, id, secret, wall, now);
  }

  lemma StoresKeeps(limits: Limits, w: World, w': World, grant: nat, id: Uuid, secret: nat, wall: nat, now: nat)
    requires Inv(limits, w) && grant < |w.grants| && grant !in w.taken && w.grants[grant].ask.relay in w.relays
    requires id !in w.relays[w.grants[grant].ask.relay].table.log.stored
    requires var g := w.grants[grant];
             w' == w.(taken := w.taken + {grant},
                      relays := w.relays[g.ask.relay := Stored(limits, w.relays[g.ask.relay], g, grant, id, secret,
                                                               wall, now)])
    ensures Inv(limits, w')
  {
    var relay := w.grants[grant].ask.relay;
    assert SideAt(limits, w, relay);
    StoresSide(limits, w, w', grant, w.relays[relay], id, secret, wall, now);
    OneRelayLater(w, w', relay, w'.relays[relay]);
    RelayMoves(limits, w, w', relay, w'.relays[relay]);
  }

  lemma RelayStepKeeps(limits: Limits, w: World, w': World, relay: string, side: RelaySide, step: Routes.Action)
    requires Inv(limits, w) && relay in w.relays && !step.Insert? && Routes.Enabled(w.relays[relay].table, step)
    requires w'.grants == w.grants && w'.pending == w.pending && w'.openings == w.openings
    requires w'.readies == w.readies && w'.taken == w.taken
    requires w'.relays == w.relays[relay := side] && side.origins == w.relays[relay].origins
    requires side.table == Routes.Apply(limits.routePermits, w.relays[relay].table, step)
    requires side.table.handlers == |side.waiting|
    ensures Inv(limits, w')
  {
    var before := w.relays[relay];
    assert SideAt(limits, w, relay);
    SideStays(limits, w, w', relay, before);
    TableKeeps(limits, w', relay, before, side, step);
    StoredKept(limits, before, step);
    OneRelayLater(w, w', relay, side);
    RelayMoves(limits, w, w', relay, side);
  }

  lemma MessagesStay(w: World, w': World)
    requires MessagesOk(w) && Later(w, w') && w'.readies == w.readies && w'.openings == w.openings
    ensures MessagesOk(w')
  {
    forall k: nat ensures ReadyAt(w', k) {
      assert ReadyAt(w, k);
      if k < |w'.readies| { HasStoredStays(w, w', w'.readies[k].relay, w'.readies[k].work); }
    }
    forall k: nat ensures OpeningAt(w', k) {
      assert OpeningAt(w, k);
      if k < |w'.openings| { OpeningStays(w, w', w'.openings[k]); }
    }
  }

  lemma ReadyAdded(w: World, ready: Ready)
    requires MessagesOk(w) && HasStored(w, ready.relay, ready.work)
    ensures MessagesOk(w.(readies := w.readies + [ready]))
  {
    var w' := w.(readies := w.readies + [ready]);
    forall k: nat ensures ReadyAt(w', k) {
      assert ReadyAt(w, k);
      if k < |w'.readies| { HasStoredStays(w, w', w'.readies[k].relay, w'.readies[k].work); }
    }
    forall k: nat ensures OpeningAt(w', k) {
      assert OpeningAt(w, k);
      if k < |w'.openings| { OpeningStays(w, w', w'.openings[k]); }
    }
  }

  lemma AnnouncesKeeps(limits: Limits, w: World, relay: string, id: Uuid)
    requires Inv(limits, w) && Enabled(w, Announces(relay, id))
    ensures Inv(limits, Apply(limits, w, Announces(relay, id)))
  {
    var side := w.relays[relay];
    ReadyAdded(w, Ready(relay, side.announcing[id], side.table.log.stored[id].work));
    var w' := Apply(limits, w, Announces(relay, id));
    SamePending(w, w');
    ServerMoves(limits, w, w');
  }

  /** Work that was never granted was never opened. */
  lemma NotYetOpened(w: World, work: Uuid)
    requires MessagesOk(w) && (forall g | 0 <= g < |w.grants| :: w.grants[g].work != work)
    ensures !Opened(w.openings, work)
  {
    forall k | 0 <= k < |w.openings| ensures w.openings[k].work != work {
      assert OpeningAt(w, k);
    }
  }

  lemma PendingStays(grants: seq<WorkGrant>, more: seq<WorkGrant>, openings: seq<Opening>, q: Uuid, p: Pending)
    requires grants <= more && PendingOk(grants, openings, q, p)
    ensures PendingOk(more, openings, q, p)
  {
  }

  lemma GrantAdded(grants: seq<WorkGrant>, g: WorkGrant)
    requires GrantsOk(grants) && (forall i | 0 <= i < |grants| :: grants[i].work != g.work)
    requires AuthorizedFor(g.view, g.ask.credential, g.ask.travel, g.ask.home, g.wall)
    ensures GrantsOk(grants + [g])
  {
  }

  lemma GrantsKeepsServer(limits: Limits, w: World, ask: Ask, work: Uuid, secret: nat, view: Auth.State, wall: nat,
                          now: nat)
    requires ServerOk(w) && (forall g | 0 <= g < |w.grants| :: w.grants[g].work != work) && !Opened(w.openings, work)
    ensures ServerOk(Granted(limits, w, ask, work, secret, view, wall, now))
  {
    var w' := Granted(limits, w, ask, work, secret, view, wall, now);
    if |w'.grants| > |w.grants| {
      GrantAdded(w.grants, WorkGrant(ask, work, secret, wall + limits.workTtl, now + limits.workTtl, view, wall));
    }
    forall q ensures PendingAt(w', q) {
      assert PendingAt(w, q);
      if q in w.pending && w'.pending[q] == w.pending[q] {
        PendingStays(w.grants, w'.grants, w.openings, q, w.pending[q]);
      }
    }
  }

  /** The Server moves without sending anything. */
  lemma ServerMovesQuietly(limits: Limits, w: World, w': World)
    requires Inv(limits, w) && w'.relays == w.relays && w'.taken == w.taken && w.grants <= w'.grants
    requires w'.readies == w.readies && w'.openings == w.openings && ServerOk(w')
    ensures Inv(limits, w')
  {
    MessagesStay(w, w');
    ServerMoves(limits, w, w');
  }

  lemma GrantedLater(limits: Limits, w: World, ask: Ask, work: Uuid, secret: nat, view: Auth.State, wall: nat, now: nat)
    ensures var w' := Granted(limits, w, ask, work, secret, view, wall, now);
            && w'.relays == w.relays && w'.taken == w.taken && w.grants <= w'.grants
            && w'.readies == w.readies && w'.openings == w.openings
  {
  }

  lemma GrantsKeeps(limits: Limits, w: World, index: nat, work: Uuid, secret: nat, view: Auth.State, wall: nat,
                    now: nat)
    requires Inv(limits, w) && Enabled(w, Grants(index, work, secret, view, wall, now))
    ensures Inv(limits, Apply(limits, w, Grants(index, work, secret, view, wall, now)))
  {
    NotYetOpened(w, work);
    GrantsKeepsServer(limits, w, w.asks[index], work, secret, view, wall, now);
    GrantedLater(limits, w, w.asks[index], work, secret, view, wall, now);
    ServerMovesQuietly(limits, w, Granted(limits, w, w.asks[index], work, secret, view, wall, now));
  }

  /** No other pending entry carries the work of the one that matches. */
  lemma OnePendingPerWork(w: World, request: Uuid, other: Uuid)
    requires ServerOk(w) && request in w.pending && other in w.pending && request != other
    ensures w.pending[request].work != w.pending[other].work
  {
    assert PendingAt(w, request);
    assert PendingAt(w, other);
  }

  lemma PendingStaysUnopened(grants: seq<WorkGrant>, openings: seq<Opening>, o: Opening, q: Uuid, p: Pending)
    requires PendingOk(grants, openings, q, p) && o.work != p.work
    ensures PendingOk(grants, openings + [o], q, p)
  {
  }

  lemma OpeningAdded(w: World, request: Uuid, o: Opening)
    requires ServerOk(w) && request in w.pending && w.pending[request].work == o.work
    ensures ServerOk(w.(pending := w.pending - {request}, openings := w.openings + [o]))
  {
    var w' := w.(pending := w.pending - {request}, openings := w.openings + [o]);
    assert PendingAt(w, request);
    forall q ensures PendingAt(w', q) {
      assert PendingAt(w, q);
      if q in w'.pending {
        OnePendingPerWork(w, request, q);
        PendingStaysUnopened(w.grants, w.openings, o, q, w.pending[q]);
      }
    }
  }

  lemma OpenedIsStored(w: World, ready: Ready, now: nat, o: Opening)
    requires ServerOk(w) && MessagesOk(w) && HasStored(w, ready.relay, ready.work)
    requires TakeMatching(w.pending, ready, now).Match?
    requires var p := w.pending[ready.request];
             o == Opening(p.home, p.work, p.relay, p.credential, now)
    ensures OpeningOk(w, o)
  {
    var p := w.pending[ready.request];
    assert PendingAt(w, ready.request);
    assert w.grants[p.origin].work == o.work;
  }

  lemma OpensKeepsMessages(w: World, w': World, o: Opening)
    requires MessagesOk(w) && Later(w, w') && w'.readies == w.readies && w'.openings == w.openings + [o]
    requires OpeningOk(w, o)
    ensures MessagesOk(w')
  {
    forall k: nat ensures ReadyAt(w', k) {
      assert ReadyAt(w, k);
      if k < |w'.readies| { HasStoredStays(w, w', w'.readies[k].relay, w'.readies[k].work); }
    }
    forall k: nat ensures OpeningAt(w', k) {
      assert OpeningAt(w, k);
      if k < |w'.openings| { OpeningStays(w, w', w'.openings[k]); }
    }
  }

  lemma MatchKeeps(limits: Limits, w: World, w': World, ready: Ready, now: nat, o: Opening)
    requires Inv(limits, w) && HasStored(w, ready.relay, ready.work) && TakeMatching(w.pending, ready, now).Match?
    requires var p := w.pending[ready.request];
             o == Opening(p.home, p.work, p.relay, p.credential, now)
    requires w' == w.(pending := w.pending - {ready.request}, openings := w.openings + [o])
    ensures Inv(limits, w')
  {
    OpenedIsStored(w, ready, now, o);
    OpeningAdded(w, ready.request, o);
    OpensKeepsMessages(w, w', o);
    ServerMoves(limits, w, w');
  }

  lemma CompletedKeeps(limits: Limits, w: World, w': World, ready: Ready, now: nat, queued: bool)
    requires Inv(limits, w) && HasStored(w, ready.relay, ready.work) && w' == Completed(w, ready, now, queued)
    ensures Inv(limits, w')
  {
    match TakeMatching(w.pending, ready, now)
    case Unknown =>
    case Mismatch =>
    case Expired => RetiresKeeps(limits, w, w', {ready.request});
    case Match(p) =>
      if queued { MatchKeeps(limits, w, w', ready, now, Opening(p.home, p.work, p.relay, p.credential, now)); }
      else { RetiresKeeps(limits, w, w', {ready.request}); }
  }

  lemma OpensKeeps(limits: Limits, w: World, k: nat, now: nat, queued: bool)
    requires Inv(limits, w) && k < |w.readies|
    ensures Inv(limits, Completed(w, w.readies[k], now, queued))
  {
    assert ReadyAt(w, k);
    CompletedKeeps(limits, w, Completed(w, w.readies[k], now, queued), w.readies[k], now, queued);
  }

  lemma RetiresServerOk(w: World, requests: set<Uuid>)
    requires ServerOk(w)
    ensures ServerOk(w.(pending := w.pending - requests))
  {
    var w' := w.(pending := w.pending - requests);
    forall q ensures PendingAt(w', q) {
      assert PendingAt(w, q);
    }
  }

  lemma RetiresKeeps(limits: Limits, w: World, w': World, requests: set<Uuid>)
    requires Inv(limits, w) && w' == w.(pending := w.pending - requests)
    ensures Inv(limits, w')
  {
    RetiresServerOk(w, requests);
    ServerMovesQuietly(limits, w, w');
  }

  lemma AsksKeeps(limits: Limits, w: World, ask: Ask)
    requires Inv(limits, w) && Enabled(w, Asks(ask))
    ensures Inv(limits, Apply(limits, w, Asks(ask)))
  {
    var w' := Apply(limits, w, Asks(ask));
    assert SideAt(limits, w, ask.relay);
    RelayStepKeeps(limits, w, w', ask.relay, w'.relays[ask.relay], Routes.Begin);
  }

  lemma GivesUpKeeps(limits: Limits, w: World, w': World, relay: string, request: Uuid)
    requires Inv(limits, w) && relay in w.relays && request in w.relays[relay].waiting
    requires var side := w.relays[relay];
             w' == w.(relays := w.relays[relay := side.(table := Routes.Ended(side.table),
                                                        waiting := side.waiting - {request})])
    ensures Inv(limits, w')
  {
    assert SideAt(limits, w, relay);
    RelayStepKeeps(limits, w, w', relay, w'.relays[relay], Routes.End);
  }

  lemma RelayActsKeeps(limits: Limits, w: World, w': World, relay: string, step: Routes.Action)
    requires Inv(limits, w) && relay in w.relays && TableOnly(step) && Routes.Enabled(w.relays[relay].table, step)
    requires w' == w.(relays := w.relays[relay := w.relays[relay].(
                                           table := Routes.Apply(limits.routePermits, w.relays[relay].table, step))])
    ensures Inv(limits, w')
  {
    assert SideAt(limits, w, relay);
    RelayStepKeeps(limits, w, w', relay, w'.relays[relay], step);
  }

  lemma RelayRestartsKeeps(limits: Limits, w: World, relay: string)
    requires Inv(limits, w) && Enabled(w, RelayRestarts(relay))
    ensures Inv(limits, Apply(limits, w, RelayRestarts(relay)))
  {
    var w' := Apply(limits, w, RelayRestarts(relay));
    assert SideAt(limits, w, relay);
    RelayStepKeeps(limits, w, w', relay, w'.relays[relay], Routes.Restart);
  }

  lemma StepKeeps(limits: Limits, w: World, a: Action)
    requires Inv(limits, w) && Enabled(w, a)
    ensures Inv(limits, Apply(limits, w, a))
  {
    match a
    case Asks(ask) => AsksKeeps(limits, w, ask);
    case GivesUp(relay, request) => GivesUpKeeps(limits, w, Apply(limits, w, a), relay, request);
    case Grants(index, work, secret, view, wall, now) => GrantsKeeps(limits, w, index, work, secret, view, wall, now);
    case Stores(grant, id, secret, wall, now) =>
      StoresKeeps(limits, w, Apply(limits, w, a), grant, id, secret, wall, now);
    case Announces(relay, id) => AnnouncesKeeps(limits, w, relay, id);
    case Opens(ready, now, queued) => OpensKeeps(limits, w, ready, now, queued);
    case Retires(requests) => RetiresKeeps(limits, w, Apply(limits, w, a), requests);
    case RelayActs(relay, step) => RelayActsKeeps(limits, w, Apply(limits, w, a), relay, step);
    case RelayRestarts(relay) => RelayRestartsKeeps(limits, w, relay);
  }

  lemma {:induction false} RunKeeps(limits: Limits, w: World, trace: seq<Action>)
    requires Inv(limits, w)
    ensures Inv(limits, Run(limits, w, trace))
    decreases |trace|
  {
    if trace != [] {
      if Enabled(w, trace[0]) { StepKeeps(limits, w, trace[0]); }
      RunKeeps(limits, if Enabled(w, trace[0]) then Apply(limits, w, trace[0]) else w, trace[1..]);
    }
  }

  /** The route the opening is about: stored by the Relay the Home is sent to, under the opening's
      work, credential and Home, from a grant the Server authorized. */
  ghost predicate OpensRoute(w: World, o: Opening, id: Uuid, g: nat) {
    && o.relay in w.relays && id in w.relays[o.relay].table.log.stored && g < |w.grants|
    && var t := w.relays[o.relay].table.log.stored[id];
       t.work == o.work && t.credential == o.credential && t.home == o.home && IssuedAs(w.grants[g], o.relay, t)
       && AuthorizedFor(w.grants[g].view, t.credential, w.grants[g].ask.travel, t.home, w.grants[g].wall)
       && o.at < w.grants[g].expires
  }

  ghost predicate HasRoute(w: World, o: Opening) {
    exists id: Uuid, g: nat :: OpensRoute(w, o, id, g)
  }

  lemma SameWorkSameGrant(grants: seq<WorkGrant>, i: nat, j: nat)
    requires GrantsOk(grants) && i < |grants| && j < |grants| && grants[i].work == grants[j].work
    ensures i == j
  {
  }

  /** The stored route and the grant behind an opening are about the same work, hence agree. */
  lemma OpeningHasRoute(w: World, o: Opening)
    requires GrantsOk(w.grants) && OpeningOk(w, o) && TicketsOk(w, o.relay, w.relays[o.relay])
    ensures HasRoute(w, o)
  {
    var side := w.relays[o.relay];
    var id :| id in side.table.log.stored && side.table.log.stored[id].work == o.work;
    assert TicketOk(w, o.relay, side.origins, id, side.table.log.stored[id]);
    var g: nat :| g < |w.grants| && w.grants[g].work == o.work && w.grants[g].ask.relay == o.relay
                  && w.grants[g].ask.credential == o.credential && w.grants[g].ask.home == o.home
                  && o.at < w.grants[g].expires;
    SameWorkSameGrant(w.grants, side.origins[id].grant, g);
    assert OpensRoute(w, o, id, g);
  }

  /** In every run a Home is told to open a work id at most once; that is decided before the
      Server's grant of the work expires; and by then the Relay it is sent to has stored a route with
      that work id for the credential and the Home of the opening, on a grant the Server
      authorized. */
  lemma OpeningSafety(limits: Limits, names: set<string>, trace: seq<Action>)
    ensures var w := Run(limits, Initial(limits, names), trace);
            && (forall i, j | 0 <= i < j < |w.openings| :: w.openings[i].work != w.openings[j].work)
            && (forall k | 0 <= k < |w.openings| :: HasRoute(w, w.openings[k]))
  {
    RunKeeps(limits, Initial(limits, names), trace);
    var w := Run(limits, Initial(limits, names), trace);
    forall k | 0 <= k < |w.openings| ensures HasRoute(w, w.openings[k]) {
      assert OpeningAt(w, k);
      assert SideAt(limits, w, w.openings[k].relay);
      OpeningHasRoute(w, w.openings[k]);
    }
  }

  /** A ticket that carries the work, the secret, the credential and the Home of a grant. */
  ghost predicate IsGranted(grants: seq<WorkGrant>, relay: string, t: Routes.Ticket) {
    exists g: nat :: g < |grants| && IssuedAs(grants[g], relay, t)
  }

  lemma TicketIsGranted(w: World, relay: string, side: RelaySide, id: Uuid)
    requires TicketsOk(w, relay, side) && id in side.table.log.stored
    ensures IsGranted(w.grants, relay, side.table.log.stored[id])
    ensures id in side.origins && TicketFrom(w, relay, side.origins[id], side.table.log.stored[id])
  {
    assert TicketOk(w, relay, side.origins, id, side.table.log.stored[id]);
  }

  /** Every route a Relay ever stored carries the work, the secret, the credential and the Home of
      one grant of the Server to that Relay, and from when it was stored it lives no longer than what
      was then left of that grant. */
  lemma StoredRoutesAreGranted(limits: Limits, names: set<string>, trace: seq<Action>, relay: string, id: Uuid)
    requires relay in Run(limits, Initial(limits, names), trace).relays
    requires id in Run(limits, Initial(limits, names), trace).relays[relay].table.log.stored
    ensures var w := Run(limits, Initial(limits, names), trace);
            var side := w.relays[relay];
            && IsGranted(w.grants, relay, side.table.log.stored[id])
            && id in side.origins && TicketFrom(w, relay, side.origins[id], side.table.log.stored[id])
  {
    RunKeeps(limits, Initial(limits, names), trace);
    var w := Run(limits, Initial(limits, names), trace);
    assert SideAt(limits, w, relay);
    TicketIsGranted(w, relay, w.relays[relay], id);
  }

  /** What holds of a Relay's table at rest. */
  ghost predicate TableSafe(capacity: nat, table: Routes.Relay) {
    && (forall id | id in table.routes :: !(table.routes[id].travel.Some? && table.routes[id].home.Some?))
    && (forall k, l | 0 <= k < l < |table.log.pairs| :: table.log.pairs[k].route != table.log.pairs[l].route)
    && (forall k | 0 <= k < |table.log.pairs| ::
          table.log.pairs[k].route !in table.routes && Routes.PairOk(table.log, table.log.pairs[k]))
    && table.free + table.handlers + |table.routes| == capacity
  }

  lemma TableIsSafe(capacity: nat, table: Routes.Relay)
    requires Routes.Inv(capacity, table)
    ensures TableSafe(capacity, table)
  {
    forall id | id in table.routes
      ensures !(table.routes[id].travel.Some? && table.routes[id].home.Some?)
      ensures forall k | 0 <= k < |table.log.pairs| :: table.log.pairs[k].route != id
    {
      assert Routes.RouteOk(table.log, id, table.routes[id]);
    }
  }

  /** At every Relay of the protocol no stored route holds both sockets, a route is paired at most
      once and by two proper admissions, and permits are conserved, without assuming that work ids
      are fresh there: the Server's grants provide that. And every pair is for the work, the
      credential and the Home of a grant to that Relay. */
  lemma PairsAreGranted(limits: Limits, names: set<string>, trace: seq<Action>, relay: string)
    requires relay in Run(limits, Initial(limits, names), trace).relays
    ensures var w := Run(limits, Initial(limits, names), trace);
            var log := w.relays[relay].table.log;
            && TableSafe(limits.routePermits, w.relays[relay].table)
            && (forall k | 0 <= k < |log.pairs| :: IsGranted(w.grants, relay, log.stored[log.pairs[k].route]))
  {
    RunKeeps(limits, Initial(limits, names), trace);
    var w := Run(limits, Initial(limits, names), trace);
    assert SideAt(limits, w, relay);
    TableIsSafe(limits.routePermits, w.relays[relay].table);
    PairsGranted(w, relay, w.relays[relay]);
  }

  lemma PairsGranted(w: World, relay: string, side: RelaySide)
    requires TicketsOk(w, relay, side) && Routes.PairsOk(side.table.log)
    ensures forall k | 0 <= k < |side.table.log.pairs| ::
              IsGranted(w.grants, relay, side.table.log.stored[side.table.log.pairs[k].route])
  {
    var log := side.table.log;
    forall k | 0 <= k < |log.pairs| ensures IsGranted(w.grants, relay, log.stored[log.pairs[k].route]) {
      assert Routes.PairOk(log, log.pairs[k]);
      TicketIsGranted(w, relay, side, log.pairs[k].route);
    }
  }
}
