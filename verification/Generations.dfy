/** The Server's durable generation counter, and what it makes of the Relay directory over crashes,
    failed stores, restarts and deliveries in any order. */
module Generations {
  import opened Basics
  import opened Directory

  /** The counter in memory and in the file. */
  datatype Counter = Counter(next: nat, file: nat)

  datatype Allocation = Allocation(counter: Counter, generation: Option<nat>)

  function Allocate(c: Counter, outcome: StoreOutcome): Allocation {
    if c.next >= U64_MAX then Allocation(c, None)
    else match outcome
      case Stored => Allocation(Counter(c.next + 1, c.next + 1), Some(c.next))
      case Kept => Allocation(c, None)
      case ReplacedButFailed => Allocation(Counter(c.next, c.next + 1), None)
  }

  class ControlSigner {
    var next: nat
    var file: nat

    constructor (stored: nat)
      requires stored > 0
      ensures next == stored && file == stored
    {
      next, file := stored, stored;
    }

    method AllocateGeneration(outcome: StoreOutcome) returns (generation: Option<nat>)
      modifies this
      ensures Allocation(Counter(next, file), generation) == Allocate(old(Counter(next, file)), outcome)
      ensures generation == if old(next) < U64_MAX && outcome.Stored? then Some(old(next)) else None
      ensures generation.Some? ==> next == file == old(next) + 1
    {
      var drawn := next;
      if drawn >= U64_MAX {
        return None;
      }
      if outcome != Kept {
        file := drawn + 1;
      }
      if outcome != Stored {
        return None;
      }
      next := drawn + 1;
      return Some(drawn);
    }
  }

  // ----- the Server with its Relays -----

  datatype Process = Down | Up(next: nat, sessions: Sessions)

  /** `issued` and `built` record history: every generation handed out and every directory
      built, over all restarts. */
  datatype World = World(
    file: nat,
    server: Process,
    issued: seq<nat>,
    built: seq<RelayDirectory>,
    relays: map<string, RelayDirectory>)

  /** The addresses a Relay advertises, or its withdrawal. */
  datatype Advertisement = Withdrawn | Reachable(management: Address, data: Address)

  datatype Action =
    | Start(outcome: StoreOutcome)
    | Crash
    | Sign(outcome: StoreOutcome)
    | Replace(relay: string, session: Uuid, pin: string, ad: Advertisement, outcome: StoreOutcome,
              listing: seq<Endpoint>)
    | Update(relay: string, session: Uuid, pin: string, ad: Advertisement, outcome: StoreOutcome,
             listing: seq<Endpoint>)
    | Unregister(relay: string, session: Uuid, outcome: StoreOutcome, listing: seq<Endpoint>)
    | Deliver(relay: string, index: nat)
    | RelayStarts(relay: string)

  function Advertised(relay: string, pin: string, ad: Advertisement): Option<Endpoint> {
    match ad
    case Withdrawn => None
    case Reachable(management, data) => Some(Endpoint(relay, management, data, pin))
  }

  predicate AdOk(ad: Advertisement) {
    ad.Reachable? ==> AdvertisementOk(ad.management, ad.data)
  }

  /** Relays are configured under non-empty ids, a pin is a printed SHA-256, and the directory
      built is the listing of the registry. */
  ghost predicate Enabled(w: World, a: Action) {
    match a
    case Start(_) => w.server.Down?
    case Crash => true
    case Sign(_) => w.server.Up?
    case Replace(relay, session, pin, ad, _, listing) =>
      && w.server.Up? && relay != [] && PinOk(pin) && AdOk(ad)
      && Lists(Endpointed(w.server.sessions, relay, session, Advertised(relay, pin, ad)), listing)
    case Update(relay, session, pin, ad, _, listing) =>
      && w.server.Up? && relay != [] && PinOk(pin) && AdOk(ad) && Current(w.server.sessions, relay, session)
      && Lists(Endpointed(w.server.sessions, relay, session, Advertised(relay, pin, ad)), listing)
    case Unregister(relay, session, _, listing) =>
      && w.server.Up? && Current(w.server.sessions, relay, session)
      && Lists(w.server.sessions - {relay}, listing)
    case Deliver(relay, index) => relay in w.relays && index < |w.built|
    case RelayStarts(_) => true
  }

  /** A generation is drawn; with it, what needed it is done. */
  function Drawn(w: World, next: nat, before: Process, after: Sessions, outcome: StoreOutcome,
                 listing: Option<seq<Endpoint>>): World {
    var drawn := Allocate(Counter(next, w.file), outcome);
    match drawn.generation
    case None => w.(file := drawn.counter.file, server := before)
    case Some(generation) =>
      World(drawn.counter.file, Up(drawn.counter.next, after), w.issued + [generation],
            if listing.Some? then w.built + [RelayDirectory(generation, listing.value)] else w.built, w.relays)
  }

  function Apply(w: World, a: Action): World
    requires Enabled(w, a)
  {
    match a
    case Start(outcome) => if w.file == 0 then w else Drawn(w, w.file, Down, map[], outcome, Some([]))
    case Crash => w.(server := Down)
    case Sign(outcome) => Drawn(w, w.server.next, w.server, w.server.sessions, outcome, None)
    case Replace(relay, session, pin, ad, outcome, listing) =>
      Drawn(w, w.server.next, w.server, Endpointed(w.server.sessions, relay, session, Advertised(relay, pin, ad)),
            outcome, Some(listing))
    case Update(relay, session, pin, ad, outcome, listing) =>
      Drawn(w, w.server.next, w.server, Endpointed(w.server.sessions, relay, session, Advertised(relay, pin, ad)),
            outcome, Some(listing))
    case Unregister(relay, session, outcome, listing) =>
      Drawn(w, w.server.next, w.server, w.server.sessions - {relay}, outcome, Some(listing))
    case Deliver(relay, index) => w.(relays := w.relays[relay := Held(w.relays[relay], w.built[index])])
    case RelayStarts(relay) => w.(relays := w.relays[relay := RelayDirectory(0, [])])
  }

  ghost function Run(w: World, trace: seq<Action>): World
    decreases |trace|
  {
    if trace == [] then w else Run(if Enabled(w, trace[0]) then Apply(w, trace[0]) else w, trace[1..])
  }

  /** Every directory in the order it was built has a larger generation than those before. */
  ghost predicate Rising(built: seq<RelayDirectory>, bound: nat) {
    && (forall i, j | 0 <= i < j < |built| :: built[i].generation < built[j].generation)
    && (forall i | 0 <= i < |built| :: built[i].generation < bound)
  }

  ghost predicate Increasing(issued: seq<nat>, bound: nat) {
    && (forall i, j | 0 <= i < j < |issued| :: issued[i] < issued[j])
    && (forall i | 0 <= i < |issued| :: 0 < issued[i] < bound)
  }

  ghost predicate SessionsOk(sessions: Sessions) {
    && Keyed(sessions)
    && (forall k | k in sessions && sessions[k].endpoint.Some? :: EndpointOk(sessions[k].endpoint.value))
  }

  ghost predicate ServerOk(w: World) {
    w.server.Up? ==>
      0 < w.server.next <= w.file && Increasing(w.issued, w.server.next) && Rising(w.built, w.server.next)
      && SessionsOk(w.server.sessions)
  }

  ghost predicate RelaysOk(w: World) {
    forall r | r in w.relays :: w.relays[r] == RelayDirectory(0, []) || w.relays[r] in w.built
  }

  ghost predicate Inv(w: World) {
    && Increasing(w.issued, w.file) && Rising(w.built, w.file)
    && (forall i | 0 <= i < |w.built| :: ValidDirectory(w.built[i]))
    && ServerOk(w) && RelaysOk(w)
  }

  lemma ListingValid(sessions: Sessions, listing: seq<Endpoint>, generation: nat)
    requires SessionsOk(sessions) && Lists(sessions, listing) && generation > 0
    ensures ValidDirectory(RelayDirectory(generation, listing))
  {
  }

  lemma DrawKeeps(w: World, next: nat, before: Process, after: Sessions, outcome: StoreOutcome,
                  listing: Option<seq<Endpoint>>)
    requires Inv(w) && 0 < next <= w.file && Increasing(w.issued, next) && Rising(w.built, next)
    requires before == Down || (before == w.server && before.next == next)
    requires SessionsOk(after) && (listing.Some? ==> Lists(after, listing.value))
    ensures Inv(Drawn(w, next, before, after, outcome, listing))
  {
    var w' := Drawn(w, next, before, after, outcome, listing);
    if listing.Some? { ListingValid(after, listing.value, next); }
    assert RelaysOk(w');
  }

  lemma EndpointedOk(sessions: Sessions, relay: string, session: Uuid, pin: string, ad: Advertisement)
    requires SessionsOk(sessions) && relay != [] && PinOk(pin) && AdOk(ad)
    ensures SessionsOk(Endpointed(sessions, relay, session, Advertised(relay, pin, ad)))
  {
  }

  lemma StepKeeps(w: World, a: Action)
    requires Inv(w) && Enabled(w, a)
    ensures Inv(Apply(w, a))
  {
    match a
    case Start(outcome) =>
      if w.file != 0 { DrawKeeps(w, w.file, Down, map[], outcome, Some([])); }
    case Crash =>
    case Sign(outcome) => DrawKeeps(w, w.server.next, w.server, w.server.sessions, outcome, None);
    case Replace(relay, session, pin, ad, outcome, listing) =>
      EndpointedOk(w.server.sessions, relay, session, pin, ad);
      DrawKeeps(w, w.server.next, w.server, Endpointed(w.server.sessions, relay, session, Advertised(relay, pin, ad)),
                outcome, Some(listing));
    case Update(relay, session, pin, ad, outcome, listing) =>
      EndpointedOk(w.server.sessions, relay, session, pin, ad);
      DrawKeeps(w, w.server.next, w.server, Endpointed(w.server.sessions, relay, session, Advertised(relay, pin, ad)),
                outcome, Some(listing));
    case Unregister(relay, session, outcome, listing) =>
      DrawKeeps(w, w.server.next, w.server, w.server.sessions - {relay}, outcome, Some(listing));
    case Deliver(relay, index) =>
    case RelayStarts(relay) =>
  }

  lemma {:induction false} RunKeeps(w: World, trace: seq<Action>)
    requires Inv(w)
    ensures Inv(Run(w, trace))
    decreases |trace|
  {
    if trace != [] {
      if Enabled(w, trace[0]) { StepKeeps(w, trace[0]); }
      RunKeeps(if Enabled(w, trace[0]) then Apply(w, trace[0]) else w, trace[1..]);
    }
  }

  /** The world before the first start, with a counter file holding any value. */
  ghost function After(file: nat, trace: seq<Action>): World {
    Run(World(file, Down, [], [], map[]), trace)
  }

  /** Every generation ever allocated is positive and larger than all allocated before it. */
  lemma GenerationsIncrease(file: nat, trace: seq<Action>)
    ensures var issued := After(file, trace).issued;
            && (forall i | 0 <= i < |issued| :: 0 < issued[i])
            && (forall i, j | 0 <= i < j < |issued| :: issued[i] < issued[j])
  {
    RunKeeps(World(file, Down, [], [], map[]), trace);
  }

  /** The registry after the session of a Relay advertised itself or withdrew, and the listing of it. */
  ghost predicate Listed(before: Sessions, after: Sessions, relay: string, session: Uuid, pin: string,
                         ad: Advertisement, listing: seq<Endpoint>) {
    && after == before[relay := Entry(session, Advertised(relay, pin, ad))]
    && (ad.Reachable? ==> Endpoint(relay, ad.management, ad.data, pin) in listing)
    && (ad.Withdrawn? ==> forall i | 0 <= i < |listing| :: listing[i].id != relay)
  }

  lemma AdvertisedIsListed(before: Sessions, relay: string, session: Uuid, pin: string, ad: Advertisement,
                           listing: seq<Endpoint>)
    requires Lists(Endpointed(before, relay, session, Advertised(relay, pin, ad)), listing)
    ensures Listed(before, Endpointed(before, relay, session, Advertised(relay, pin, ad)), relay, session, pin, ad,
                   listing)
  {
    assert Endpointed(before, relay, session, Advertised(relay, pin, ad))[relay].endpoint == Advertised(relay, pin, ad);
  }

  /** While the Server runs, a generation is handed out exactly when the counter is not exhausted and
      was stored; it is larger than every earlier one. A directory built with it is the newest, and
      lists the Relay that advertised itself, or no longer lists the one that withdrew or left. */
  lemma DrawnExactlyWhen(file: nat, trace: seq<Action>, w: World, w': World, a: Action)
    requires w == After(file, trace) && w.server.Up? && Enabled(w, a) && w' == Apply(w, a)
    requires a.Sign? || a.Replace? || a.Update? || a.Unregister?
    ensures if w.server.next < U64_MAX && a.outcome.Stored? then
              && w'.issued == w.issued + [w.server.next] && w'.server.Up? && w'.server.next == w.server.next + 1
              && w'.file == w'.server.next
              && (forall i | 0 <= i < |w.issued| :: w.issued[i] < w.server.next)
              && (if a.Sign? then w'.built == w.built
                  else w'.built == w.built + [RelayDirectory(w.server.next, a.listing)])
              && (a.Replace? || a.Update? ==>
                    Listed(w.server.sessions, w'.server.sessions, a.relay, a.session, a.pin, a.ad, a.listing))
              && (a.Unregister? ==>
                    && w'.server.sessions == w.server.sessions - {a.relay}
                    && forall i | 0 <= i < |a.listing| :: a.listing[i].id != a.relay)
            else w'.issued == w.issued && w'.built == w.built && w'.server == w.server
  {
    RunKeeps(World(file, Down, [], [], map[]), trace);
    if a.Replace? || a.Update? {
      AdvertisedIsListed(w.server.sessions, a.relay, a.session, a.pin, a.ad, a.listing);
    }
  }

  /** The Server starts exactly when the counter file holds a usable generation and is advanced. */
  lemma StartsExactlyWhen(w: World, outcome: StoreOutcome)
    requires w.server.Down?
    ensures Apply(w, Start(outcome)).server.Up? <==> 0 < w.file < U64_MAX && outcome.Stored?
    ensures Apply(w, Start(outcome)).server.Up? ==>
              Apply(w, Start(outcome)).built == w.built + [RelayDirectory(w.file, [])]
  {
  }

  /** Two directories ever built with equal generation are equal. */
  lemma EqualGenerationsEqualDirectories(file: nat, trace: seq<Action>)
    ensures var built := After(file, trace).built;
            forall i, j | 0 <= i < |built| && 0 <= j < |built| && built[i].generation == built[j].generation ::
              built[i] == built[j]
  {
    RunKeeps(World(file, Down, [], [], map[]), trace);
  }

  /** Whatever directory reaches a Relay, in whatever order, passes the validator and never
      contradicts the directory the Relay holds. */
  lemma RelayNeverRejects(file: nat, trace: seq<Action>, relay: string, index: nat)
    requires Enabled(After(file, trace), Deliver(relay, index))
    ensures var w := After(file, trace);
            React(w.relays[relay], w.built[index]) in {Stale, Same, Replaced}
  {
    RunKeeps(World(file, Down, [], [], map[]), trace);
    var w := After(file, trace);
    assert ValidDirectory(w.built[index]);
  }

  predicate Restarts(trace: seq<Action>, relay: string) {
    RelayStarts(relay) in trace
  }

  /** While a Relay keeps running, the generation it holds never decreases. */
  lemma {:induction false} RelayNeverGoesBack(w: World, trace: seq<Action>, relay: string)
    requires relay in w.relays && !Restarts(trace, relay)
    ensures relay in Run(w, trace).relays
    ensures Run(w, trace).relays[relay].generation >= w.relays[relay].generation
    decreases |trace|
  {
    if trace != [] {
      assert trace[0] in trace;
      RelayNeverGoesBack(if Enabled(w, trace[0]) then Apply(w, trace[0]) else w, trace[1..], relay);
    }
  }

  function HeldAfter(current: RelayDirectory, arrivals: seq<RelayDirectory>): RelayDirectory
    decreases |arrivals|
  {
    if arrivals == [] then current else HeldAfter(Held(current, arrivals[0]), arrivals[1..])
  }

  /** However directories arrive, a Relay ends with the newest valid one it has seen. */
  lemma {:induction false} NewestWins(current: RelayDirectory, arrivals: seq<RelayDirectory>)
    ensures var last := HeldAfter(current, arrivals);
            && (last == current || (last in arrivals && ValidDirectory(last)))
            && last.generation >= current.generation
            && (forall i | 0 <= i < |arrivals| && ValidDirectory(arrivals[i]) ::
                  last.generation >= arrivals[i].generation)
    decreases |arrivals|
  {
    if arrivals != [] {
      NewestWins(Held(current, arrivals[0]), arrivals[1..]);
      assert arrivals == [arrivals[0]] + arrivals[1..];
    }
  }
}
