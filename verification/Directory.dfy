/** The Relay directory: the Server's registry that builds it and the Relay that applies it. */
module Directory {
  import opened Basics

  // ----- identifiers in the order the sort uses -----

  predicate Before(a: string, b: string) {
    b != [] && (a == [] || a[0] < b[0] || (a[0] == b[0] && Before(a[1..], b[1..])))
  }

  lemma {:induction false} BeforeIrreflexive(a: string)
    ensures !Before(a, a)
  {
    if a != [] { BeforeIrreflexive(a[1..]); }
  }

  lemma {:induction false} BeforeTransitive(a: string, b: string, c: string)
    requires Before(a, b) && Before(b, c)
    ensures Before(a, c)
  {
    if a != [] && a[0] == b[0] && b[0] == c[0] { BeforeTransitive(a[1..], b[1..], c[1..]); }
  }

  lemma {:induction false} BeforeConnected(a: string, b: string)
    ensures a == b || Before(a, b) || Before(b, a)
  {
    if a != [] && b != [] && a[0] == b[0] {
      BeforeConnected(a[1..], b[1..]);
      assert a == [a[0]] + a[1..] && b == [b[0]] + b[1..];
    }
  }

  // ----- endpoints -----

  datatype Reach = Unspecified | Loopback | Multicast | Direct

  /** The text of an address and what parsing it as a literal socket address gives. */
  datatype Address = Unparsable(text: string) | Socket(text: string, port: nat, reach: Reach)

  datatype Endpoint = Endpoint(id: string, management: Address, data: Address, pin: string)

  datatype RelayDirectory = RelayDirectory(generation: nat, relays: seq<Endpoint>)

  predicate Connectable(a: Address) {
    a.Socket? && a.port != 0 && a.reach.Direct?
  }

  predicate HexDigit(c: char) {
    '0' <= c <= '9' || 'a' <= c <= 'f' || 'A' <= c <= 'F'
  }

  predicate PinOk(pin: string) {
    |pin| == 64 && forall i | 0 <= i < |pin| :: HexDigit(pin[i])
  }

  predicate EndpointOk(e: Endpoint) {
    e.id != [] && PinOk(e.pin) && Connectable(e.management) && Connectable(e.data)
  }

  /** What the Server demands of the addresses a Relay advertises. */
  predicate AdvertisementOk(management: Address, data: Address) {
    && |management.text| <= 512 && Connectable(management)
    && |data.text| <= 512 && Connectable(data)
  }

  predicate Sorted(relays: seq<Endpoint>) {
    forall i, j | 0 <= i < j < |relays| :: Before(relays[i].id, relays[j].id)
  }

  /** What a Relay accepts: a positive generation, ids in strict order, and usable endpoints. */
  predicate ValidDirectory(d: RelayDirectory) {
    d.generation > 0 && Sorted(d.relays) && forall i | 0 <= i < |d.relays| :: EndpointOk(d.relays[i])
  }

  // ----- the Server's registry -----

  datatype Entry = Entry(session: Uuid, endpoint: Option<Endpoint>)

  type Sessions = map<string, Entry>

  /** Each endpoint carries the id it is registered under. */
  predicate Keyed(sessions: Sessions) {
    forall k | k in sessions && sessions[k].endpoint.Some? :: sessions[k].endpoint.value.id == k
  }

  /** `relays` is the complete listing of the registered endpoints, in order of their ids. */
  predicate Lists(sessions: Sessions, relays: seq<Endpoint>) {
    && Sorted(relays)
    && (forall k | k in sessions && sessions[k].endpoint.Some? :: sessions[k].endpoint.value in relays)
    && (forall i | 0 <= i < |relays| :: relays[i].id in sessions && sessions[relays[i].id].endpoint == Some(relays[i]))
  }

  lemma HeadOnce(relays: seq<Endpoint>, e: Endpoint)
    requires Sorted(relays) && relays != []
    ensures e in relays[1..] <==> e in relays && e != relays[0]
  {
    BeforeIrreflexive(relays[0].id);
    assert relays == [relays[0]] + relays[1..];
    assert forall i | 1 <= i < |relays| :: relays[i] != relays[0];
  }

  /** Two ordered listings of the same endpoints are the same listing. */
  lemma {:induction false} ListingUnique(a: seq<Endpoint>, b: seq<Endpoint>)
    requires Sorted(a) && Sorted(b)
    requires forall e :: e in a <==> e in b
    ensures a == b
  {
    assert b == [] || b[0] in b;
    if a != [] {
      assert a[0] in a;
      assert a[0] in b;
      assert b[0] in b;
      assert b[0] in a;
      var i :| 0 <= i < |b| && b[i] == a[0];
      var j :| 0 <= j < |a| && a[j] == b[0];
      if i > 0 && j > 0 {
        BeforeTransitive(a[0].id, b[0].id, a[0].id);
        BeforeIrreflexive(a[0].id);
      }
      assert a[0] == b[0];
      forall e ensures e in a[1..] <==> e in b[1..] {
        HeadOnce(a, e);
        HeadOnce(b, e);
      }
      ListingUnique(a[1..], b[1..]);
      assert a == [a[0]] + a[1..] && b == [b[0]] + b[1..];
    }
  }

  /** Places an endpoint in front of the first one that does not come before it. */
  method Insert(relays: seq<Endpoint>, e: Endpoint) returns (placed: seq<Endpoint>)
    requires Sorted(relays)
    requires forall i | 0 <= i < |relays| :: relays[i].id != e.id
    ensures Sorted(placed)
    ensures forall x :: x in placed <==> x == e || x in relays
  {
    var k := 0;
    while k < |relays| && Before(relays[k].id, e.id)
      invariant 0 <= k <= |relays|
      invariant forall i | 0 <= i < k :: Before(relays[i].id, e.id)
    {
      k := k + 1;
    }
    forall i | k <= i < |relays| ensures Before(e.id, relays[i].id) {
      BeforeConnected(relays[k].id, e.id);
      if k < i { BeforeTransitive(e.id, relays[k].id, relays[i].id); }
    }
    placed := relays[..k] + [e] + relays[k..];
    PlacedSorted(relays, k, e);
    assert relays == relays[..k] + relays[k..];
  }

  lemma PlacedSorted(relays: seq<Endpoint>, k: nat, e: Endpoint)
    requires Sorted(relays) && k <= |relays|
    requires forall i | 0 <= i < k :: Before(relays[i].id, e.id)
    requires forall i | k <= i < |relays| :: Before(e.id, relays[i].id)
    ensures Sorted(relays[..k] + [e] + relays[k..])
  {
    var placed := relays[..k] + [e] + relays[k..];
    forall i, j | 0 <= i < j < |placed| ensures Before(placed[i].id, placed[j].id) {
      assert placed[i] == if i < k then relays[i] else if i == k then e else relays[i - 1];
      assert placed[j] == if j < k then relays[j] else if j == k then e else relays[j - 1];
    }
  }

  /** Lists the registered endpoints, taking them in any order. */
  method ListEndpoints(sessions: Sessions) returns (relays: seq<Endpoint>)
    requires Keyed(sessions)
    ensures Lists(sessions, relays)
  {
    relays := [];
    var rest := sessions.Keys;
    while rest != {}
      invariant rest <= sessions.Keys
      invariant Sorted(relays)
      invariant forall k | k in sessions && k !in rest && sessions[k].endpoint.Some? ::
                  sessions[k].endpoint.value in relays
      invariant forall e | e in relays :: e.id in sessions && e.id !in rest && sessions[e.id].endpoint == Some(e)
      decreases rest
    {
      var k :| k in rest;
      rest := rest - {k};
      if sessions[k].endpoint.Some? {
        relays := Insert(relays, sessions[k].endpoint.value);
      }
    }
  }

  /** The listing depends on the registry alone. */
  lemma ListingDetermined(sessions: Sessions, a: seq<Endpoint>, b: seq<Endpoint>)
    requires Lists(sessions, a) && Lists(sessions, b)
    ensures a == b
  {
    ListingUnique(a, b);
  }

  predicate Current(sessions: Sessions, relay: string, session: Uuid) {
    relay in sessions && sessions[relay].session == session
  }

  function Endpointed(sessions: Sessions, relay: string, session: Uuid, endpoint: Option<Endpoint>): Sessions {
    sessions[relay := Entry(session, endpoint)]
  }

  class Registry {
    var generation: nat
    var sessions: Sessions

    ghost predicate Valid()
      reads this
    {
      Keyed(sessions)
    }

    constructor (initial: nat)
      ensures Valid() && sessions == map[] && generation == initial
    {
      generation, sessions := initial, map[];
    }

    method Listing() returns (d: RelayDirectory)
      requires Valid()
      ensures d.generation == generation && Lists(sessions, d.relays)
    {
      var relays := ListEndpoints(sessions);
      d := RelayDirectory(generation, relays);
    }

    method ReplaceSession(relay: string, session: Uuid, endpoint: Option<Endpoint>,
                          next: nat) returns (d: RelayDirectory)
      requires Valid() && (endpoint.Some? ==> endpoint.value.id == relay)
      modifies this
      ensures Valid() && generation == next
      ensures sessions == old(sessions)[relay := Entry(session, endpoint)]
      ensures d.generation == next && Lists(sessions, d.relays)
    {
      sessions := sessions[relay := Entry(session, endpoint)];
      generation := next;
      d := Listing();
    }

    method UpdateSession(relay: string, session: Uuid, endpoint: Option<Endpoint>,
                         next: nat) returns (d: Option<RelayDirectory>)
      requires Valid() && (endpoint.Some? ==> endpoint.value.id == relay)
      modifies this
      ensures Valid()
      ensures d.Some? == Current(old(sessions), relay, session)
      ensures d.Some? ==>
                && generation == next && sessions == old(sessions)[relay := Entry(session, endpoint)]
                && d.value.generation == next && Lists(sessions, d.value.relays)
      ensures d.None? ==> generation == old(generation) && sessions == old(sessions)
    {
      if relay !in sessions || sessions[relay].session != session {
        return None;
      }
      sessions := sessions[relay := sessions[relay].(endpoint := endpoint)];
      generation := next;
      var listing := Listing();
      d := Some(listing);
    }

    method UnregisterSession(relay: string, session: Uuid, next: nat) returns (d: Option<RelayDirectory>)
      requires Valid()
      modifies this
      ensures Valid()
      ensures d.Some? == Current(old(sessions), relay, session)
      ensures d.Some? ==>
                && generation == next && sessions == old(sessions) - {relay}
                && d.value.generation == next && Lists(sessions, d.value.relays)
      ensures d.None? ==> generation == old(generation) && sessions == old(sessions)
    {
      if relay !in sessions || sessions[relay].session != session {
        return None;
      }
      sessions := sessions - {relay};
      generation := next;
      var listing := Listing();
      d := Some(listing);
    }
  }

  // ----- the Relay -----

  datatype Reaction = Invalid | Stale | Same | Conflict | Replaced

  function React(current: RelayDirectory, d: RelayDirectory): Reaction {
    if !ValidDirectory(d) then Invalid
    else if d.generation < current.generation then Stale
    else if d.generation == current.generation then (if d == current then Same else Conflict)
    else Replaced
  }

  function Held(current: RelayDirectory, d: RelayDirectory): RelayDirectory {
    if React(current, d).Replaced? then d else current
  }

  /** Checks neighbours only; that is enough for the whole order. */
  method Validate(d: RelayDirectory) returns (ok: bool)
    ensures ok == ValidDirectory(d)
  {
    if d.generation == 0 {
      return false;
    }
    var k := 0;
    while k < |d.relays|
      invariant 0 <= k <= |d.relays|
      invariant Sorted(d.relays[..k])
      invariant forall i | 0 <= i < k :: EndpointOk(d.relays[i])
    {
      var e := d.relays[k];
      if k > 0 && !Before(d.relays[k - 1].id, e.id) {
        return false;
      }
      if e.id == [] || !PinOk(e.pin) || !Connectable(e.management) || !Connectable(e.data) {
        assert !EndpointOk(d.relays[k]);
        return false;
      }
      forall i | 0 <= i < k ensures Before(d.relays[i].id, e.id) {
        if i < k - 1 {
          assert Before(d.relays[..k][i].id, d.relays[..k][k - 1].id);
          BeforeTransitive(d.relays[i].id, d.relays[k - 1].id, e.id);
        }
      }
      k := k + 1;
    }
    assert d.relays[..k] == d.relays;
    return true;
  }

  class Relay {
    var current: RelayDirectory

    constructor ()
      ensures current == RelayDirectory(0, [])
    {
      current := RelayDirectory(0, []);
    }

    method ApplyDirectory(d: RelayDirectory) returns (reaction: Reaction)
      modifies this
      ensures reaction == React(old(current), d)
      ensures current == Held(old(current), d)
    {
      var valid := Validate(d);
      if !valid {
        return Invalid;
      }
      if d.generation < current.generation {
        return Stale;
      }
      if d.generation == current.generation {
        return if d == current then Same else Conflict;
      }
      current := d;
      return Replaced;
    }
  }
}
