/** What each step of a Relay's route table achieves: which routes a sweep leaves, which sockets are
    let in, which routes are paired, and when a stored route may lack a standing credential. */
module RouteEffects {
  import opened Basics
  import opened Credentials
  import opened RelayRoutes
  import Auth = Authorization

  // ----- sweeps -----

  /** The view lists a credential of this id that is within its validity, and no revocation of it. */
  predicate Covers(view: Auth.State, credential: Uuid, wall: nat) {
    && (exists k :: 0 <= k < |view.credentials| && CoversAt(view.credentials[k].payload, credential, wall))
    && (forall k | 0 <= k < |view.revocations| :: view.revocations[k].credential != credential)
  }

  predicate CoversAt(c: Credential, credential: Uuid, wall: nat) {
    c.id == credential && c.validity.notBefore <= wall && wall < c.validity.notAfter
  }

  lemma CoveredIsActive(view: Auth.State, credential: Uuid, wall: nat)
    ensures Auth.IsActive(view, credential, wall) <==> Covers(view, credential, wall)
  {
    if Auth.IsActive(view, credential, wall) {
      var k :| 0 <= k < |view.credentials| && view.credentials[k].payload.id == credential
               && ActiveAt(view.credentials[k].payload, wall);
      assert CoversAt(view.credentials[k].payload, credential, wall);
    }
  }

  /** Routes only went, each one that went returned its permit, and the others are as they were. */
  predicate OnlyDropped(relay: Relay, relay': Relay) {
    && relay'.routes.Keys <= relay.routes.Keys
    && (forall id | id in relay'.routes :: relay'.routes[id] == relay.routes[id])
    && relay'.free + |relay'.routes| == relay.free + |relay.routes|
    && relay'.handlers == relay.handlers && relay'.log == relay.log
  }

  /** A snapshot leaves exactly the routes whose credential it lists, within its validity and not
      revoked. */
  lemma SweptExactly(capacity: nat, relay: Relay, relay': Relay, view: Auth.State, wall: nat)
    requires relay' == Apply(capacity, relay, Retain(view, wall))
    ensures forall id :: id in relay'.routes <==>
              id in relay.routes && Covers(view, relay.routes[id].ticket.credential, wall)
    ensures OnlyDropped(relay, relay')
  {
    KeptCount(relay.routes, InactiveRoutes(relay.routes, view, wall));
    forall id ensures id in relay'.routes <==>
                        id in relay.routes && Covers(view, relay.routes[id].ticket.credential, wall) {
      if id in relay.routes { CoveredIsActive(view, relay.routes[id].ticket.credential, wall); }
    }
  }

  /** The cleanup leaves exactly the routes that have not expired. */
  lemma ExpiredExactly(capacity: nat, relay: Relay, relay': Relay, now: nat)
    requires relay' == Apply(capacity, relay, Expire(now))
    ensures forall id :: id in relay'.routes <==> id in relay.routes && now < relay.routes[id].ticket.expires
    ensures OnlyDropped(relay, relay') && relay'.swept == relay.swept && relay'.published == relay.published
  {
    KeptCount(relay.routes, ExpiredRoutes(relay.routes, now));
  }

  // ----- admission over runs -----

  ghost predicate WasAdmitted(admissions: seq<Admission>, id: Uuid, side: Side) {
    exists k :: 0 <= k < |admissions| && admissions[k].route == id && admissions[k].preface.side == side
  }

  ghost predicate WasPaired(pairs: seq<Pair>, id: Uuid) {
    exists k :: 0 <= k < |pairs| && pairs[k].route == id
  }

  ghost predicate SeatsExact(relay: Relay, id: Uuid) {
    id in relay.routes ==>
      && (relay.routes[id].travel.Some? <==> WasAdmitted(relay.log.admissions, id, TravelSide))
      && (relay.routes[id].home.Some? <==> WasAdmitted(relay.log.admissions, id, HomeSide))
      && !(relay.routes[id].travel.Some? && relay.routes[id].home.Some?)
  }

  ghost predicate PairedExact(log: Log, id: Uuid) {
    && (WasPaired(log.pairs, id) <==>
          WasAdmitted(log.admissions, id, TravelSide) && WasAdmitted(log.admissions, id, HomeSide))
    && (forall side :: WasAdmitted(log.admissions, id, side) ==> id in log.stored)
  }

  ghost predicate Exact(relay: Relay) {
    (forall id :: SeatsExact(relay, id)) && (forall id :: PairedExact(relay.log, id))
    && (forall id | id in relay.routes :: id in relay.log.stored)
  }

  lemma AdmittedMore(admissions: seq<Admission>, a: Admission, id: Uuid, side: Side)
    ensures WasAdmitted(admissions + [a], id, side) <==>
              WasAdmitted(admissions, id, side) || (a.route == id && a.preface.side == side)
  {
    var more := admissions + [a];
    assert more[|admissions|] == a;
    if WasAdmitted(admissions, id, side) {
      var k :| 0 <= k < |admissions| && admissions[k].route == id && admissions[k].preface.side == side;
      assert more[k] == admissions[k];
    }
  }

  lemma PairedMore(pairs: seq<Pair>, p: Pair, id: Uuid)
    ensures WasPaired(pairs + [p], id) <==> WasPaired(pairs, id) || p.route == id
  {
    var more := pairs + [p];
    assert more[|pairs|] == p;
    if WasPaired(pairs, id) {
      var k :| 0 <= k < |pairs| && pairs[k].route == id;
      assert more[k] == pairs[k];
    }
  }

  lemma ArriveKeepsExact(relay: Relay, relay': Relay, id: Uuid, preface: Preface, mac: Mac, socket: nat, now: nat,
                         wall: nat)
    requires Exact(relay) && Admissible(relay, id, preface, mac, now, wall)
    requires relay' == Admitted(relay, id, preface, mac, socket, now, wall)
    ensures Exact(relay')
  {
    var a := Admission(id, preface, mac, socket, now, wall, relay.published.value);
    assert SeatsExact(relay, id);
    forall other ensures SeatsExact(relay', other) && PairedExact(relay'.log, other) {
      assert SeatsExact(relay, other) && PairedExact(relay.log, other);
      AdmittedMore(relay.log.admissions, a, other, TravelSide);
      AdmittedMore(relay.log.admissions, a, other, HomeSide);
      if relay'.log.pairs != relay.log.pairs {
        PairedMore(relay.log.pairs, relay'.log.pairs[|relay.log.pairs|], other);
      }
    }
  }

  lemma InsertKeepsExact(relay: Relay, relay': Relay, id: Uuid, t: Ticket)
    requires Exact(relay) && id !in relay.log.stored && relay' == Inserted(relay, id, t)
    ensures Exact(relay')
  {
    assert PairedExact(relay.log, id);
    forall other ensures SeatsExact(relay', other) && PairedExact(relay'.log, other) {
      assert SeatsExact(relay, other) && PairedExact(relay.log, other);
    }
  }

  lemma DropKeepsExact(relay: Relay, relay': Relay)
    requires Exact(relay) && relay'.log == relay.log && relay'.routes.Keys <= relay.routes.Keys
    requires forall id | id in relay'.routes :: relay'.routes[id] == relay.routes[id]
    ensures Exact(relay')
  {
    forall id ensures SeatsExact(relay', id) && PairedExact(relay'.log, id) {
      assert SeatsExact(relay, id) && PairedExact(relay.log, id);
    }
  }

  lemma StepKeepsExact(capacity: nat, relay: Relay, relay': Relay, a: Action)
    requires Exact(relay) && Enabled(relay, a) && relay' == Apply(capacity, relay, a)
    ensures Exact(relay')
  {
    if a.Insert? {
      InsertKeepsExact(relay, relay', a.id, a.ticket);
    } else if a.Arrive? && Admissible(relay, a.id, a.preface, a.mac, a.now, a.wall)
              && Resolves(relay.routes, a.preface, a.id) {
      ArriveKeepsExact(relay, relay', a.id, a.preface, a.mac, a.socket, a.now, a.wall);
    } else {
      DropKeepsExact(relay, relay');
    }
  }

  lemma {:induction false} RunKeepsExact(capacity: nat, relay: Relay, trace: seq<Action>)
    requires Exact(relay)
    ensures Exact(Run(capacity, relay, trace))
    decreases |trace|
  {
    if trace != [] {
      var next := if Enabled(relay, trace[0]) then Apply(capacity, relay, trace[0]) else relay;
      if Enabled(relay, trace[0]) { StepKeepsExact(capacity, relay, next, trace[0]); }
      RunKeepsExact(capacity, next, trace[1..]);
    }
  }

  /** Over every run a route is paired exactly when a socket was let in on each side of it. */
  lemma PairedExactlyWhenBothAdmitted(capacity: nat, trace: seq<Action>, id: Uuid)
    ensures var log := Run(capacity, NewRelay(capacity), trace).log;
            WasPaired(log.pairs, id) <==>
              WasAdmitted(log.admissions, id, TravelSide) && WasAdmitted(log.admissions, id, HomeSide)
  {
    RunKeepsExact(capacity, NewRelay(capacity), trace);
    assert PairedExact(Run(capacity, NewRelay(capacity), trace).log, id);
  }

  /** What a connection must bring to be let in. */
  ghost predicate MayEnter(relay: Relay, id: Uuid, preface: Preface, mac: Mac, now: nat, wall: nat) {
    id in relay.routes &&
    var t := relay.routes[id].ticket;
    && now < t.expires
    && relay.published.Some? && Covers(relay.published.value, t.credential, wall)
    && !WasAdmitted(relay.log.admissions, id, preface.side)
    && match preface.side
       case TravelSide => preface.id == id && mac == Mac(preface, t.secrets.route)
       case HomeSide => preface.id == t.work && mac == Mac(preface, t.secrets.work)
  }

  /** A connection is let in exactly when it names a stored, unexpired route by the identifier of its
      side, proves the secret of that side, the route's credential is covered by the published
      authorization, and nobody was let in on that side before; otherwise nothing changes. */
  lemma AdmittedExactlyWhen(capacity: nat, trace: seq<Action>, relay: Relay, a: Action)
    requires relay == Run(capacity, NewRelay(capacity), trace) && a.Arrive?
    ensures var relay' := Apply(capacity, relay, a);
            if MayEnter(relay, a.id, a.preface, a.mac, a.now, a.wall) then
              relay'.log.admissions == relay.log.admissions
                + [Admission(a.id, a.preface, a.mac, a.socket, a.now, a.wall, relay.published.value)]
            else relay' == relay
  {
    RunKeepsExact(capacity, NewRelay(capacity), trace);
    assert SeatsExact(relay, a.id);
    if a.id in relay.routes && relay.published.Some? {
      CoveredIsActive(relay.published.value, relay.routes[a.id].ticket.credential, a.wall);
    }
  }

  // ----- routes and revoked credentials -----

  /** The view lists the credential and has no revocation of it. */
  predicate Stands(view: Auth.State, credential: Uuid) {
    Auth.HasCredential(view.credentials, credential) && !Auth.IsRevoked(view.revocations, credential)
  }

  predicate StandsIn(view: Option<Auth.State>, credential: Uuid) {
    view.Some? ==> Stands(view.value, credential)
  }

  /** Neither the published snapshot nor the one being applied lacks or revokes the credential. */
  predicate Standing(relay: Relay, credential: Uuid) {
    StandsIn(relay.published, credential) && StandsIn(relay.swept, credential)
  }

  ghost predicate Clean(relay: Relay) {
    forall id | id in relay.routes :: Standing(relay, relay.routes[id].ticket.credential)
  }

  /** A route is stored for a grant that a newer snapshot has overtaken. */
  predicate StoresLate(relay: Relay, a: Action) {
    a.Insert? && relay.handlers > 0 && !Standing(relay, a.ticket.credential)
  }

  lemma SweepIsClean(relay: Relay, relay': Relay, view: Auth.State, wall: nat)
    requires Clean(relay)
    requires relay' == Dropped(relay, InactiveRoutes(relay.routes, view, wall)).(swept := Some(view))
    ensures Clean(relay')
  {
    forall id | id in relay'.routes ensures Standing(relay', relay'.routes[id].ticket.credential) {
      assert id in relay.routes && Auth.IsActive(view, relay.routes[id].ticket.credential, wall);
    }
  }

  lemma CleanStep(capacity: nat, relay: Relay, relay': Relay, a: Action)
    requires Clean(relay) && Enabled(relay, a) && relay' == Apply(capacity, relay, a)
    requires forall id | id in relay.routes :: id in relay.log.stored
    ensures Clean(relay') <==> !StoresLate(relay, a)
  {
    if a.Retain? {
      SweepIsClean(relay, relay', a.view, a.wall);
    } else if a.Insert? {
      if relay.handlers > 0 {
        assert relay'.routes[a.id].ticket == a.ticket;
        forall id | id in relay.routes ensures relay'.routes[id] == relay.routes[id] {
        }
      }
    }
  }

  ghost predicate AlwaysClean(capacity: nat, relay: Relay, trace: seq<Action>)
    decreases |trace|
  {
    Clean(relay) &&
    (trace == [] ||
     AlwaysClean(capacity, if Enabled(relay, trace[0]) then Apply(capacity, relay, trace[0]) else relay, trace[1..]))
  }

  ghost predicate NeverStoresLate(capacity: nat, relay: Relay, trace: seq<Action>)
    decreases |trace|
  {
    trace == [] ||
    if Enabled(relay, trace[0])
    then !StoresLate(relay, trace[0]) && NeverStoresLate(capacity, Apply(capacity, relay, trace[0]), trace[1..])
    else NeverStoresLate(capacity, relay, trace[1..])
  }

  lemma {:induction false} CleanRuns(capacity: nat, relay: Relay, trace: seq<Action>)
    requires Clean(relay) && Exact(relay)
    ensures AlwaysClean(capacity, relay, trace) <==> NeverStoresLate(capacity, relay, trace)
    decreases |trace|
  {
    if trace != [] {
      if Enabled(relay, trace[0]) {
        var next := Apply(capacity, relay, trace[0]);
        CleanStep(capacity, relay, next, trace[0]);
        if Clean(next) {
          StepKeepsExact(capacity, relay, next, trace[0]);
          CleanRuns(capacity, next, trace[1..]);
        }
      } else {
        CleanRuns(capacity, relay, trace[1..]);
      }
    }
  }

  /** Throughout a run no stored route has a credential that the published snapshot, or the one being
      applied, revokes or does not list, exactly when no route is stored for a grant whose credential
      was already so when it arrived. */
  lemma NoRevokedRouteExactlyWhen(capacity: nat, trace: seq<Action>)
    ensures AlwaysClean(capacity, NewRelay(capacity), trace) <==>
              NeverStoresLate(capacity, NewRelay(capacity), trace)
  {
    CleanRuns(capacity, NewRelay(capacity), trace);
  }

  // ----- a run that stores a route late -----

  const LISTED: Credential :=
    Credential(5, Issuer("d", "a", 1), 1, "f", "t", "k", Global, Validity(0, 100), true)
  const REVOKING: Auth.State :=
    Auth.State(2, [], [Signed("a", LISTED, Signature(1, 1))], [Auth.Revocation(5, 10, "lost")], {}, map[])
  const GRANTED: Ticket := Ticket(5, "t", "h", 7, Secrets(1, 2), 60)

  lemma OneStep(capacity: nat, relay: Relay, a: Action, rest: seq<Action>)
    requires Enabled(relay, a)
    ensures Run(capacity, relay, [a] + rest) == Run(capacity, Apply(capacity, relay, a), rest)
  {
    assert ([a] + rest)[1..] == rest;
  }

  /** The grant was asked for before the snapshot came, and arrives after it. */
  lemma RevokedRouteCanBeStored()
    ensures exists trace: seq<Action> ::
              var relay := Run(1, NewRelay(1), trace);
              && 9 in relay.routes && relay.published.Some?
              && Auth.IsRevoked(relay.published.value.revocations, relay.routes[9].ticket.credential)
  {
    var trace := [Begin] + ([Retain(REVOKING, 20)] + ([Publish] + ([Insert(9, GRANTED)] + [])));
    var asked := Begun(NewRelay(1));
    var swept := Apply(1, asked, Retain(REVOKING, 20));
    var published := swept.(published := swept.swept);
    var stored := Inserted(published, 9, GRANTED);
    OneStep(1, NewRelay(1), Begin, trace[1..]);
    OneStep(1, asked, Retain(REVOKING, 20), [Publish] + ([Insert(9, GRANTED)] + []));
    OneStep(1, swept, Publish, [Insert(9, GRANTED)] + []);
    OneStep(1, published, Insert(9, GRANTED), []);
    assert Run(1, NewRelay(1), trace) == stored;
    assert REVOKING.revocations[0].credential == 5;
  }
}
