/** The Server's Travel session leases (`TravelSessionRegistry`): one live session per Travel id. */
module TravelSessions {
  import opened Basics

  const LEASE_SECS: nat := 45

  datatype Session = Session(id: Uuid, leases: map<Uuid, nat>)

  type Sessions = map<string, Session>

  datatype Refusal = NilSession | AnotherSession | NoLogin

  datatype Verdict = Granted | Refused(reason: Refusal)

  function LiveLeases(leases: map<Uuid, nat>, now: nat): map<Uuid, nat> {
    map l | l in leases && leases[l] > now :: leases[l]
  }

  function Prune(sessions: Sessions, now: nat): Sessions {
    map t | t in sessions && LiveLeases(sessions[t].leases, now) != map[] ::
      Session(sessions[t].id, LiveLeases(sessions[t].leases, now))
  }

  function Decide(sessions: Sessions, travel: string, session: Uuid, lease: Option<Uuid>): Verdict {
    if session == NIL then Refused(NilSession)
    else if travel in sessions && sessions[travel].id != session then Refused(AnotherSession)
    else if travel !in sessions && lease.None? then Refused(NoLogin)
    else Granted
  }

  /** The registry after the decision, given what it looks like once expired leases are gone. */
  function Leased(live: Sessions, travel: string, session: Uuid, lease: Option<Uuid>, now: nat): Sessions {
    if Decide(live, travel, session, lease).Granted? && lease.Some? then
      var leases := if travel in live then live[travel].leases else map[];
      live[travel := Session(session, leases[lease.value := now + LEASE_SECS])]
    else live
  }

  function Authorized(sessions: Sessions, travel: string, session: Uuid, lease: Option<Uuid>, now: nat)
    : (Sessions, Verdict)
  {
    var live := Prune(sessions, now);
    (Leased(live, travel, session, lease, now), Decide(live, travel, session, lease))
  }

  predicate Holds(sessions: Sessions, travel: string, session: Uuid, lease: Uuid) {
    travel in sessions && sessions[travel].id == session && lease in sessions[travel].leases
  }

  function AfterRelease(sessions: Sessions, travel: string, session: Uuid, lease: Uuid): Sessions {
    if !Holds(sessions, travel, session, lease) then sessions
    else
      var leases := sessions[travel].leases - {lease};
      if leases == map[] then sessions - {travel} else sessions[travel := Session(session, leases)]
  }

  /** The registry as the Server mutates it. */
  class Registry {
    var sessions: Sessions

    constructor ()
      ensures sessions == map[]
    {
      sessions := map[];
    }

    method Authorize(travel: string, session: Uuid, lease: Option<Uuid>, now: nat) returns (verdict: Verdict)
      modifies this
      ensures (sessions, verdict) == Authorized(old(sessions), travel, session, lease, now)
    {
      sessions := Prune(sessions, now);
      if session == NIL {
        return Refused(NilSession);
      }
      if travel in sessions {
        if sessions[travel].id != session {
          return Refused(AnotherSession);
        }
        if lease.Some? {
          var active := sessions[travel];
          sessions := sessions[travel := Session(active.id, active.leases[lease.value := now + LEASE_SECS])];
        }
        return Granted;
      }
      if lease.None? {
        return Refused(NoLogin);
      }
      sessions := sessions[travel := Session(session, map[lease.value := now + LEASE_SECS])];
      return Granted;
    }

    method Release(travel: string, session: Uuid, lease: Uuid) returns (released: bool)
      modifies this
      ensures sessions == AfterRelease(old(sessions), travel, session, lease)
      ensures released == Holds(old(sessions), travel, session, lease)
    {
      if travel !in sessions || sessions[travel].id != session || lease !in sessions[travel].leases {
        return false;
      }
      var leases := sessions[travel].leases - {lease};
      sessions := if leases == map[] then sessions - {travel} else sessions[travel := Session(session, leases)];
      return true;
    }
  }

  // ----- every run with a monotone clock -----

  /** A lease that was granted, and whether its session has given it back. */
  datatype Grant = Grant(travel: string, session: Uuid, lease: Uuid, expires: nat, released: bool)

  /** The registry with the latest time it was asked at and every grant so far. */
  datatype World = World(sessions: Sessions, clock: nat, grants: seq<Grant>)

  datatype Action =
    | Authorize(travel: string, session: Uuid, lease: Option<Uuid>, elapsed: nat)
    | Release(travel: string, session: Uuid, given: Uuid)

  function MarkReleased(grants: seq<Grant>, travel: string, session: Uuid, lease: Uuid): (marked: seq<Grant>)
    ensures |marked| == |grants|
    ensures forall i | 0 <= i < |grants| ::
              marked[i] == if grants[i].travel == travel && grants[i].session == session && grants[i].lease == lease
                           then grants[i].(released := true) else grants[i]
  {
    seq(|grants|, i requires 0 <= i < |grants| =>
      if grants[i].travel == travel && grants[i].session == session && grants[i].lease == lease
      then grants[i].(released := true) else grants[i])
  }

  function Pruned(w: World, now: nat): World {
    World(Prune(w.sessions, now), now, w.grants)
  }

  function Answered(live: World, travel: string, session: Uuid, lease: Option<Uuid>): World {
    World(Leased(live.sessions, travel, session, lease, live.clock), live.clock,
          if Decide(live.sessions, travel, session, lease).Granted? && lease.Some?
          then live.grants + [Grant(travel, session, lease.value, live.clock + LEASE_SECS, false)] else live.grants)
  }

  function Apply(w: World, a: Action): World {
    match a
    case Authorize(travel, session, lease, elapsed) => Answered(Pruned(w, w.clock + elapsed), travel, session, lease)
    case Release(travel, session, lease) =>
      World(AfterRelease(w.sessions, travel, session, lease), w.clock,
            if Holds(w.sessions, travel, session, lease) then MarkReleased(w.grants, travel, session, lease)
            else w.grants)
  }

  function Run(w: World, trace: seq<Action>): World
    decreases |trace|
  {
    if trace == [] then w else Run(Apply(w, trace[0]), trace[1..])
  }

  /** A grant that is neither released nor expired is still in the registry. */
  ghost predicate Kept(sessions: Sessions, clock: nat, g: Grant) {
    g.released || g.expires <= clock ||
    (Holds(sessions, g.travel, g.session, g.lease) && g.expires <= sessions[g.travel].leases[g.lease])
  }

  /** A lease in the registry was granted to its session and has not been given back. */
  ghost predicate Backed(grants: seq<Grant>, travel: string, session: Uuid, lease: Uuid, expires: nat) {
    Grant(travel, session, lease, expires, false) in grants
  }

  /** A lease in the registry is backed, and none outlives the newest one that could be granted. */
  ghost predicate LeaseOk(w: World, travel: string, lease: Uuid) {
    travel in w.sessions && lease in w.sessions[travel].leases ==>
      && w.sessions[travel].leases[lease] <= w.clock + LEASE_SECS
      && Backed(w.grants, travel, w.sessions[travel].id, lease, w.sessions[travel].leases[lease])
  }

  ghost predicate GrantOk(w: World, g: Grant) {
    g in w.grants ==> Kept(w.sessions, w.clock, g)
  }

  ghost predicate Inv(w: World) {
    (forall travel, lease :: LeaseOk(w, travel, lease)) && (forall g :: GrantOk(w, g))
  }

  lemma PruneKeeps(sessions: Sessions, clock: nat, now: nat, g: Grant)
    requires Kept(sessions, clock, g) && clock <= now
    ensures Kept(Prune(sessions, now), now, g)
  {
    if !g.released && g.expires > now {
      assert g.lease in LiveLeases(sessions[g.travel].leases, now);
    }
  }

  lemma PrunedInv(w: World, now: nat)
    requires Inv(w) && w.clock <= now
    ensures Inv(Pruned(w, now))
  {
    var live := Pruned(w, now);
    forall g ensures GrantOk(live, g) {
      assert GrantOk(w, g);
      if g in w.grants { PruneKeeps(w.sessions, w.clock, now, g); }
    }
    forall t, l ensures LeaseOk(live, t, l) {
      assert LeaseOk(w, t, l);
    }
  }

  /** A lease is added or renewed for the session that holds the Travel id. */
  lemma LeaseAdded(w: World, w': World, travel: string, session: Uuid, lease: Uuid, expires: nat)
    requires Inv(w) && expires == w.clock + LEASE_SECS
    requires travel in w.sessions ==> w.sessions[travel].id == session
    requires var leases := if travel in w.sessions then w.sessions[travel].leases else map[];
             w' == World(w.sessions[travel := Session(session, leases[lease := expires])], w.clock,
                         w.grants + [Grant(travel, session, lease, expires, false)])
    ensures Inv(w')
  {
    forall g ensures GrantOk(w', g) {
      assert GrantOk(w, g);
      if g.travel == travel { assert LeaseOk(w, travel, g.lease) && LeaseOk(w, travel, lease); }
    }
    forall t, l ensures LeaseOk(w', t, l) {
      assert LeaseOk(w, t, l);
    }
  }

  lemma AnsweredKeeps(live: World, w': World, travel: string, session: Uuid, lease: Option<Uuid>)
    requires Inv(live) && w' == Answered(live, travel, session, lease)
    ensures Inv(w')
  {
    if Decide(live.sessions, travel, session, lease).Granted? && lease.Some? {
      LeaseAdded(live, w', travel, session, lease.value, live.clock + LEASE_SECS);
    }
  }

  lemma ReleaseKeepsGrant(w: World, travel: string, session: Uuid, lease: Uuid, g: Grant)
    requires Kept(w.sessions, w.clock, g) && Holds(w.sessions, travel, session, lease)
    requires !(g.travel == travel && g.session == session && g.lease == lease)
    ensures Kept(AfterRelease(w.sessions, travel, session, lease), w.clock, g)
  {
    if !g.released && w.clock < g.expires && g.travel == travel {
      assert g.lease in w.sessions[travel].leases - {lease};
    }
  }

  lemma ReleaseKeeps(w: World, w': World, travel: string, session: Uuid, lease: Uuid)
    requires Inv(w) && w' == Apply(w, Release(travel, session, lease))
    ensures Inv(w')
  {
    if Holds(w.sessions, travel, session, lease) {
      forall g ensures GrantOk(w', g) {
        if g in w'.grants && !g.released {
          var i :| 0 <= i < |w'.grants| && w'.grants[i] == g;
          assert w.grants[i] == g && GrantOk(w, g);
          ReleaseKeepsGrant(w, travel, session, lease, g);
        }
      }
      forall t, l ensures LeaseOk(w', t, l) {
        assert LeaseOk(w, t, l);
        if t in w'.sessions && l in w'.sessions[t].leases {
          var i :| 0 <= i < |w.grants| && w.grants[i] == Grant(t, w.sessions[t].id, l, w.sessions[t].leases[l], false);
          assert w'.grants[i] == w.grants[i];
        }
      }
    }
  }

  lemma StepKeeps(w: World, w': World, a: Action)
    requires Inv(w) && w' == Apply(w, a)
    ensures Inv(w')
  {
    match a
    case Authorize(travel, session, lease, elapsed) =>
      PrunedInv(w, w.clock + elapsed);
      AnsweredKeeps(Pruned(w, w.clock + elapsed), w', travel, session, lease);
    case Release(travel, session, lease) => ReleaseKeeps(w, w', travel, session, lease);
  }

  lemma {:induction false} RunKeeps(w: World, trace: seq<Action>)
    requires Inv(w)
    ensures Inv(Run(w, trace))
    decreases |trace|
  {
    if trace != [] {
      StepKeeps(w, Apply(w, trace[0]), trace[0]);
      RunKeeps(Apply(w, trace[0]), trace[1..]);
    }
  }

  /** The state a run from an empty registry leads to. */
  function After(trace: seq<Action>): World {
    Run(World(map[], 0, []), trace)
  }

  /** Whenever a session is authorized, every lease ever granted to another session of the same
      Travel id has been released or has expired. */
  lemma MutualExclusion(trace: seq<Action>, travel: string, session: Uuid, lease: Option<Uuid>, elapsed: nat)
    ensures var w := After(trace);
            var now := w.clock + elapsed;
            Authorized(w.sessions, travel, session, lease, now).1.Granted? ==>
              forall g | g in w.grants && g.travel == travel && g.session != session :: g.released || g.expires <= now
  {
    var w := After(trace);
    var now := w.clock + elapsed;
    RunKeeps(World(map[], 0, []), trace);
    PrunedInv(w, now);
    var live := Pruned(w, now);
    forall g | g in w.grants && g.travel == travel && !g.released && now < g.expires
      ensures travel in live.sessions && live.sessions[travel].id == g.session
    {
      assert GrantOk(live, g);
    }
  }

  /** A call without a lease succeeds exactly when its own session holds a lease that was granted
      and is neither released nor expired. */
  lemma LeaselessCallNeedsLiveLease(trace: seq<Action>, travel: string, session: Uuid, elapsed: nat)
    requires session != NIL
    ensures var w := After(trace);
            var now := w.clock + elapsed;
            Authorized(w.sessions, travel, session, None, now).1.Granted? <==>
              exists g :: g in w.grants && g.travel == travel && g.session == session && !g.released && now < g.expires
  {
    var w := After(trace);
    var now := w.clock + elapsed;
    RunKeeps(World(map[], 0, []), trace);
    PrunedInv(w, now);
    var live := Pruned(w, now);
    if travel in live.sessions && live.sessions[travel].id == session {
      var l :| l in live.sessions[travel].leases;
      assert LeaseOk(live, travel, l);
    }
    forall g | g in w.grants && g.travel == travel && g.session == session && !g.released && now < g.expires
      ensures travel in live.sessions && live.sessions[travel].id == session
    {
      assert GrantOk(live, g);
    }
  }

  /** No other session of the Travel id has a lease that was granted and is neither released nor
      expired. */
  ghost predicate NoOther(w: World, travel: string, session: Uuid, now: nat) {
    forall g | g in w.grants && g.travel == travel && g.session != session :: g.released || g.expires <= now
  }

  lemma OnlyBackedSessions(live: World, travel: string, session: Uuid)
    requires Inv(live) && NoOther(live, travel, session, live.clock)
    requires travel in live.sessions && live.sessions[travel].leases != map[]
    requires forall l | l in live.sessions[travel].leases :: live.clock < live.sessions[travel].leases[l]
    ensures live.sessions[travel].id == session
  {
    var l :| l in live.sessions[travel].leases;
    assert LeaseOk(live, travel, l);
  }

  lemma LiveSessionsHaveLeases(sessions: Sessions, travel: string, now: nat)
    requires travel in Prune(sessions, now)
    ensures var leases := Prune(sessions, now)[travel].leases;
            leases != map[] && forall l | l in leases :: now < leases[l]
  {
  }

  /** A call with a lease is granted exactly when its session is not nil and every lease ever granted
      to another session of its Travel id has been released or has expired. The lease then runs until
      45 seconds after the call. */
  lemma GrantedExactlyWhen(trace: seq<Action>, travel: string, session: Uuid, lease: Uuid, elapsed: nat)
    ensures var w := After(trace);
            var now := w.clock + elapsed;
            var w' := Apply(w, Authorize(travel, session, Some(lease), elapsed));
            && (Authorized(w.sessions, travel, session, Some(lease), now).1.Granted? <==>
                  session != NIL && NoOther(w, travel, session, now))
            && w'.clock == now
            && (Authorized(w.sessions, travel, session, Some(lease), now).1.Granted? ==>
                  && Holds(w'.sessions, travel, session, lease)
                  && w'.sessions[travel].leases[lease] == now + LEASE_SECS
                  && w'.grants == w.grants + [Grant(travel, session, lease, now + LEASE_SECS, false)])
  {
    var w := After(trace);
    var now := w.clock + elapsed;
    RunKeeps(World(map[], 0, []), trace);
    PrunedInv(w, now);
    MutualExclusion(trace, travel, session, Some(lease), elapsed);
    if NoOther(w, travel, session, now) && travel in Prune(w.sessions, now) {
      LiveSessionsHaveLeases(w.sessions, travel, now);
      OnlyBackedSessions(Pruned(w, now), travel, session);
    }
  }

  predicate GivesBack(a: Action, travel: string, session: Uuid, lease: Uuid) {
    a == Release(travel, session, lease)
  }

  /** A grant stays on record, unreleased, unless its own session gives the lease back. */
  lemma {:induction false} GrantStays(w: World, trace: seq<Action>, g: Grant)
    requires g in w.grants && !g.released
    requires forall a | a in trace :: !GivesBack(a, g.travel, g.session, g.lease)
    ensures g in Run(w, trace).grants
    decreases |trace|
  {
    if trace != [] {
      assert !GivesBack(trace[0], g.travel, g.session, g.lease);
      var next := Apply(w, trace[0]);
      var i :| 0 <= i < |w.grants| && w.grants[i] == g;
      assert next.grants[i] == g;
      GrantStays(next, trace[1..], g);
    }
  }

  /** Until 45 seconds after it was granted, a lease that its session does not give back is held,
      whatever is asked of the registry meanwhile. */
  lemma HeldUntilExpiry(trace: seq<Action>, travel: string, session: Uuid, lease: Uuid, elapsed: nat,
                        later: seq<Action>)
    requires session != NIL && NoOther(After(trace), travel, session, After(trace).clock + elapsed)
    requires forall a | a in later :: !GivesBack(a, travel, session, lease)
    ensures var expires := After(trace).clock + elapsed + LEASE_SECS;
            var w := Run(Apply(After(trace), Authorize(travel, session, Some(lease), elapsed)), later);
            w.clock < expires ==>
              Holds(w.sessions, travel, session, lease) && expires <= w.sessions[travel].leases[lease]
  {
    var login := Authorize(travel, session, Some(lease), elapsed);
    var expires := After(trace).clock + elapsed + LEASE_SECS;
    var g := Grant(travel, session, lease, expires, false);
    GrantedExactlyWhen(trace, travel, session, lease, elapsed);
    var granted := Apply(After(trace), login);
    assert granted.grants[|After(trace).grants|] == g;
    GrantStays(granted, later, g);
    RunKeeps(World(map[], 0, []), trace);
    StepKeeps(After(trace), granted, login);
    RunKeeps(granted, later);
    assert GrantOk(Run(granted, later), g);
  }
}
