/** Every run of imports, revocations, failed stores, crashes and restarts. */
module AuthorizationHistory {
  import opened Basics
  import opened Credentials
  import opened Authorization

  predicate GrantsKept(a: map<string, SignedGrant>, b: map<string, SignedGrant>) {
    forall home | home in a :: home in b && b[home] == a[home]
  }

  /** `b` is `a` or comes after it: everything is kept, and a change shows in the generation. */
  predicate Extends(a: State, b: State) {
    && a.generation <= b.generation
    && a.endpoints <= b.endpoints && a.credentials <= b.credentials && a.revocations <= b.revocations
    && a.used <= b.used && GrantsKept(a.grants, b.grants)
    && (a.generation == b.generation ==> a == b)
  }

  predicate DistinctFingerprints(credentials: seq<SignedCredential>) {
    forall i, j | 0 <= i < j < |credentials| :: credentials[i].payload.fingerprint != credentials[j].payload.fingerprint
  }

  ghost predicate Good(c: Config, s: State) {
    Loads(c, s) && DistinctFingerprints(s.credentials)
  }

  lemma ExtendsTransitive(a: State, b: State, d: State)
    requires Extends(a, b) && Extends(b, d)
    ensures Extends(a, d)
  {
  }

  // ----- each operation proposes a good successor -----

  ghost predicate Successor(c: Config, s: State, v: Verdict) {
    v.Proposed? ==> Good(c, v.next) && Extends(s, v.next) && v.next.generation == s.generation + 1
  }

  /** A grant stays bound to its endpoint when endpoints are added behind it. */
  lemma GrantsStay(t: Trust, s: State, next: State)
    requires GrantsOk(t, s) && s.endpoints <= next.endpoints && next.grants == s.grants
    ensures GrantsOk(t, next)
  {
    forall home ensures GrantHeld(t, next, home) {
      assert GrantHeld(t, s, home);
      if home in s.grants {
        var i :| 0 <= i < |s.endpoints| && GrantBound(t, s.grants[home], s.endpoints[i])
                 && s.grants[home].payload.home == home;
        assert next.endpoints[i] == s.endpoints[i];
      }
    }
  }

  lemma EndpointSucceeds(c: Config, s: State, signed: SignedEndpoint, now: nat)
    requires Good(c, s)
    ensures Successor(c, s, ImportEndpoint(c, s, signed, now))
  {
    if ImportEndpoint(c, s, signed, now).Proposed? {
      GrantsStay(c.trust, s, WithEndpoint(s, signed));
    }
  }

  lemma GrantAdded(t: Trust, s: State, endpoint: SignedEndpoint, grant: SignedGrant)
    requires GrantsOk(t, s) && GrantBound(t, grant, endpoint)
    ensures GrantsOk(t, WithEndpoint(s, endpoint).(grants := s.grants[grant.payload.home := grant]))
  {
    var next := WithEndpoint(s, endpoint);
    var granted := next.(grants := s.grants[grant.payload.home := grant]);
    GrantsStay(t, s, next);
    forall home ensures GrantHeld(t, granted, home) {
      assert GrantHeld(t, next, home);
      if home == grant.payload.home {
        assert granted.endpoints[|s.endpoints|] == endpoint;
      }
    }
  }

  lemma BusinessSucceeds(c: Config, s: State, endpoint: SignedEndpoint, grant: SignedGrant, now: nat)
    requires Good(c, s)
    ensures Successor(c, s, ImportBusiness(c, s, endpoint, grant, now))
  {
    if ImportBusiness(c, s, endpoint, grant, now).Proposed? {
      GrantAdded(c.trust, s, endpoint, grant);
    }
  }

  lemma RevocationSucceeds(c: Config, s: State, id: Uuid, reason: string, publisher: string, now: nat)
    requires Good(c, s)
    ensures Successor(c, s, Revoke(c, s, id, reason, publisher, now))
  {
    var v := Revoke(c, s, id, reason, publisher, now);
    if v.Proposed? {
      GrantsStay(c.trust, s, v.next);
    }
  }

  lemma CredentialSucceeds(c: Config, s: State, signed: SignedCredential, publisher: string)
    requires Good(c, s)
    ensures Successor(c, s, ImportCredential(c, s, signed, publisher))
  {
    var v := ImportCredential(c, s, signed, publisher);
    if v.Proposed? {
      GrantsStay(c.trust, s, v.next);
      assert UsedOk(v.next);
    }
  }

  // ----- exactly when an operation goes through -----

  lemma {:induction false} FoundIsListed(auths: seq<Authority>, credentials: seq<SignedCredential>, id: Uuid)
    requires FindCredential(auths, credentials, id).Some?
    ensures FindCredential(auths, credentials, id).value in credentials
    ensures FindCredential(auths, credentials, id).value.payload.id == id
    decreases |credentials|
  {
    if !(Trusted(auths, credentials[0]) && credentials[0].payload.id == id) {
      FoundIsListed(auths, credentials[1..], id);
    }
  }

  lemma {:induction false} FoundByItsId(auths: seq<Authority>, credentials: seq<SignedCredential>, i: nat)
    requires i < |credentials| && DistinctIds(credentials) && Trusted(auths, credentials[i])
    ensures FindCredential(auths, credentials, credentials[i].payload.id) == Some(credentials[i])
    decreases |credentials|
  {
    if i > 0 { FoundByItsId(auths, credentials[1..], i - 1); }
  }

  lemma MoreCredentials(credentials: seq<SignedCredential>, signed: SignedCredential,
                        revocations: seq<Authorization.Revocation>)
    requires RevocationsOk(credentials, revocations)
    ensures RevocationsOk(credentials + [signed], revocations)
  {
    forall i | 0 <= i < |revocations| ensures RevocationOk(credentials + [signed], revocations[i]) {
      assert RevocationOk(credentials, revocations[i]);
      var k :| 0 <= k < |credentials| && credentials[k].payload.id == revocations[i].credential;
      assert (credentials + [signed])[k] == credentials[k];
    }
  }

  function WithCredential(s: State, signed: SignedCredential): State {
    s.(generation := s.generation + 1, credentials := s.credentials + [signed],
       used := s.used + {signed.payload.fingerprint})
  }

  predicate HasPayload(credentials: seq<SignedCredential>, payload: Credential) {
    exists i :: 0 <= i < |credentials| && credentials[i].payload == payload
  }

  /** Signed by a known authority of the publishing Home. */
  predicate PublishedBy(auths: seq<Authority>, signed: SignedCredential, publisher: string) {
    Trusted(auths, signed) && FindAuthority(auths, signed.authority).value.home == publisher
  }

  /** A genuine credential of this deployment, new in id and in request, always verifies on top of a
      good state: what is left to fail is its publisher, the counter and the size limits. It is then
      added behind the others. It is answered as already done exactly when its payload is stored. */
  lemma CredentialAcceptedExactlyWhen(c: Config, s: State, signed: SignedCredential, publisher: string)
    requires Good(c, s)
    ensures var auths := Delegations(c.trust, s.endpoints);
            var v := ImportCredential(c, s, signed, publisher);
            && (v.Proposed? <==>
                  && PublishedBy(auths, signed, publisher) && signed.payload.issuer.deployment == c.trust.deployment
                  && !HasCredential(s.credentials, signed.payload.id) && signed.payload.fingerprint !in s.used
                  && s.generation < U64_MAX && SizeOk(c, WithCredential(s, signed)))
            && (v.Proposed? ==> v.next == WithCredential(s, signed))
            && (v.Unchanged? <==> PublishedBy(auths, signed, publisher) && HasPayload(s.credentials, signed.payload))
  {
    var auths := Delegations(c.trust, s.endpoints);
    var id := signed.payload.id;
    if HasCredential(s.credentials, id) {
      var i :| 0 <= i < |s.credentials| && s.credentials[i].payload.id == id;
      FoundByItsId(auths, s.credentials, i);
    } else {
      if FindCredential(auths, s.credentials, id).Some? { FoundIsListed(auths, s.credentials, id); }
      MoreCredentials(s.credentials, signed, s.revocations);
      var next := WithCredential(s, signed);
      assert next.credentials[|s.credentials|] == signed;
      if Trusted(auths, signed) && signed.payload.issuer.deployment == c.trust.deployment {
        assert CredentialsOk(c.trust, auths, next.credentials);
        assert DistinctIds(next.credentials);
      }
    }
  }

  /** No authority the endpoint delegates has the id of one already known. */
  predicate DelegatesNew(auths: seq<Authority>, delegated: seq<Authority>) {
    forall i, j | 0 <= i < |auths| && 0 <= j < |delegated| :: auths[i].id != delegated[j].id
  }

  lemma AuthoritiesJoin(auths: seq<Authority>, delegated: seq<Authority>)
    requires AuthoritiesOk(auths) && (delegated != [] ==> AuthoritiesOk(delegated))
    ensures AuthoritiesOk(auths + delegated) <==> DelegatesNew(auths, delegated)
  {
    var all := auths + delegated;
    if AuthoritiesOk(all) {
      forall i, j | 0 <= i < |auths| && 0 <= j < |delegated| ensures auths[i].id != delegated[j].id {
        assert all[i].id != all[|auths| + j].id;
      }
    }
  }

  lemma CredentialsStay(t: Trust, auths: seq<Authority>, delegated: seq<Authority>, credentials: seq<SignedCredential>)
    requires CredentialsOk(t, auths, credentials)
    ensures CredentialsOk(t, auths + delegated, credentials)
  {
    forall i | 0 <= i < |credentials| ensures Trusted(auths + delegated, credentials[i]) {
      FindAuthorityStable(auths, delegated, credentials[i].authority);
    }
  }

  /** A genuine endpoint on top of a good state fails verification only for a repeated authority. */
  lemma EndpointVerifies(c: Config, s: State, next: State, signed: SignedEndpoint)
    requires Good(c, s) && EndpointBound(c.trust, signed)
    requires next == WithEndpoint(s, signed).(grants := next.grants)
    ensures Verifies(c.trust, next) <==> DelegatesNew(Delegations(c.trust, s.endpoints), signed.payload.delegated)
  {
    var auths, delegated := Delegations(c.trust, s.endpoints), signed.payload.delegated;
    assert next.endpoints[..|s.endpoints|] == s.endpoints;
    assert Delegations(c.trust, next.endpoints) == auths + delegated;
    AuthoritiesJoin(auths, delegated);
    CredentialsStay(c.trust, auths, delegated, s.credentials);
    assert AllBound(c.trust, next.endpoints);
  }

  /** What an endpoint must be to be looked at: genuine and valid now, and the one its Home's grant
      binds if the Home has a grant. */
  predicate EndpointFits(c: Config, s: State, signed: SignedEndpoint, now: nat) {
    && EndpointCurrent(c.trust, signed, now)
    && (signed.payload.home in s.grants ==> GrantBound(c.trust, s.grants[signed.payload.home], signed))
  }

  /** The endpoint is the first one stored that is valid now for its Home. */
  predicate IsHeld(t: Trust, endpoints: seq<SignedEndpoint>, signed: SignedEndpoint, now: nat) {
    exists i :: 0 <= i < |endpoints| && endpoints[i] == signed && CurrentFor(t, signed, signed.payload.home, now)
                && NoneCurrent(t, endpoints[..i], signed.payload.home, now)
  }

  lemma {:induction false} HeldIsFound(t: Trust, endpoints: seq<SignedEndpoint>, signed: SignedEndpoint, now: nat)
    requires FindEndpoint(t, endpoints, signed.payload.home, now) == Some(signed)
    ensures IsHeld(t, endpoints, signed, now)
    decreases |endpoints|
  {
    var home := signed.payload.home;
    if CurrentFor(t, endpoints[0], home, now) {
      assert endpoints[0] == signed && NoneCurrent(t, endpoints[..0], home, now);
    } else {
      var rest := endpoints[1..];
      HeldIsFound(t, rest, signed, now);
      var i :| 0 <= i < |rest| && rest[i] == signed && CurrentFor(t, signed, home, now)
               && NoneCurrent(t, rest[..i], home, now);
      assert endpoints[..i + 1] == [endpoints[0]] + rest[..i];
      assert endpoints[i + 1] == signed;
    }
  }

  /** An endpoint is taken exactly when it fits, its Home has no endpoint valid now, the authorities it
      delegates are new, and counter and limits allow it; it is then added behind the others and
      nothing else changes. It is answered as already done exactly when it is the one its Home holds. */
  lemma EndpointAcceptedExactlyWhen(c: Config, s: State, signed: SignedEndpoint, now: nat)
    requires Good(c, s)
    ensures var v := ImportEndpoint(c, s, signed, now);
            && (v.Proposed? <==>
                  && EndpointFits(c, s, signed, now) && NoneCurrent(c.trust, s.endpoints, signed.payload.home, now)
                  && DelegatesNew(Delegations(c.trust, s.endpoints), signed.payload.delegated)
                  && s.generation < U64_MAX && SizeOk(c, WithEndpoint(s, signed)))
            && (v.Proposed? ==> v.next == s.(generation := s.generation + 1, endpoints := s.endpoints + [signed]))
            && (v.Unchanged? <==> EndpointFits(c, s, signed, now) && IsHeld(c.trust, s.endpoints, signed, now))
  {
    var home := signed.payload.home;
    FoundExactly(c.trust, s.endpoints, home, now);
    if EndpointFits(c, s, signed, now) {
      EndpointVerifies(c, s, WithEndpoint(s, signed), signed);
      if FindEndpoint(c.trust, s.endpoints, home, now) == Some(signed) {
        HeldIsFound(c.trust, s.endpoints, signed, now);
      }
    }
  }

  function WithBusiness(s: State, endpoint: SignedEndpoint, grant: SignedGrant): State {
    s.(generation := s.generation + 1, endpoints := s.endpoints + [endpoint],
       grants := s.grants[grant.payload.home := grant])
  }

  /** A business Home is taken exactly when endpoint and grant are genuine and valid now, the Home is
      new -- it has no grant, no endpoint valid now, and is not statically trusted -- the endpoint is
      not stored yet, and counter and limits allow it; both are then added together. It is answered as
      already done exactly when the Home holds this grant and the endpoint is stored. */
  lemma BusinessAcceptedExactlyWhen(c: Config, s: State, endpoint: SignedEndpoint, grant: SignedGrant, now: nat)
    requires Good(c, s)
    ensures var v := ImportBusiness(c, s, endpoint, grant, now);
            var home := grant.payload.home;
            && (v.Proposed? <==>
                  && GrantCurrent(c.trust, grant, endpoint, now)
                  && home !in s.grants && NoneCurrent(c.trust, s.endpoints, home, now) && home !in c.trust.homes
                  && endpoint !in s.endpoints
                  && s.generation < U64_MAX && SizeOk(c, WithBusiness(s, endpoint, grant)))
            && (v.Proposed? ==> v.next == WithBusiness(s, endpoint, grant))
            && (v.Unchanged? <==>
                  && GrantCurrent(c.trust, grant, endpoint, now)
                  && home in s.grants && s.grants[home] == grant && endpoint in s.endpoints)
  {
    FoundExactly(c.trust, s.endpoints, grant.payload.home, now);
    if GrantCurrent(c.trust, grant, endpoint, now) {
      EndpointVerifies(c, s, WithBusiness(s, endpoint, grant), endpoint);
    }
  }

  function WithRevocation(s: State, id: Uuid, reason: string, now: nat): State {
    s.(generation := s.generation + 1, revocations := s.revocations + [Authorization.Revocation(id, now, reason)])
  }

  /** A known credential is revoked by the Home of its authority, once, given a reason and a time; the
      revocation is added behind the others, and a second one is answered as already done. */
  lemma RevocationAcceptedExactlyWhen(c: Config, s: State, i: nat, reason: string, publisher: string, now: nat)
    requires Good(c, s) && i < |s.credentials|
    ensures var id := s.credentials[i].payload.id;
            var v := Revoke(c, s, id, reason, publisher, now);
            var may := PublishedBy(Delegations(c.trust, s.endpoints), s.credentials[i], publisher);
            && (v.Proposed? <==>
                  && may && !IsRevoked(s.revocations, id) && now != 0 && 1 <= |reason| <= 256
                  && s.generation < U64_MAX && SizeOk(c, WithRevocation(s, id, reason, now)))
            && (v.Proposed? ==> v.next == WithRevocation(s, id, reason, now))
            && (v.Unchanged? <==> may && IsRevoked(s.revocations, id))
  {
    var auths := Delegations(c.trust, s.endpoints);
    var id := s.credentials[i].payload.id;
    assert Trusted(auths, s.credentials[i]);
    FoundByItsId(auths, s.credentials, i);
    assert HasCredential(s.credentials, id);
    var next := WithRevocation(s, id, reason, now);
    assert next.revocations[|s.revocations|] == Authorization.Revocation(id, now, reason);
    if !IsRevoked(s.revocations, id) && now != 0 && 1 <= |reason| <= 256 {
      RevocationAdded(s.credentials, s.revocations, Authorization.Revocation(id, now, reason));
    }
  }

  lemma RevocationAdded(credentials: seq<SignedCredential>, revocations: seq<Authorization.Revocation>,
                        r: Authorization.Revocation)
    requires RevocationsOk(credentials, revocations) && RevocationOk(credentials, r)
    requires !IsRevoked(revocations, r.credential)
    ensures RevocationsOk(credentials, revocations + [r])
  {
  }

  /** Nobody revokes a credential the Server does not know. */
  lemma UnknownIsNotRevoked(c: Config, s: State, id: Uuid, reason: string, publisher: string, now: nat)
    requires !HasCredential(s.credentials, id)
    ensures Revoke(c, s, id, reason, publisher, now) == Refused
  {
    var auths := Delegations(c.trust, s.endpoints);
    if FindCredential(auths, s.credentials, id).Some? { FoundIsListed(auths, s.credentials, id); }
  }

  // ----- runs -----

  datatype Operation =
    | Endpoint(endpoint: SignedEndpoint, now: nat)
    | Business(endpoint: SignedEndpoint, grant: SignedGrant, now: nat)
    | Revocation(id: Uuid, reason: string, publisher: string, now: nat)
    | Credential(credential: SignedCredential, publisher: string)

  function Decide(c: Config, s: State, op: Operation): Verdict {
    match op
    case Endpoint(endpoint, now) => ImportEndpoint(c, s, endpoint, now)
    case Business(endpoint, grant, now) => ImportBusiness(c, s, endpoint, grant, now)
    case Revocation(id, reason, publisher, now) => Revoke(c, s, id, reason, publisher, now)
    case Credential(credential, publisher) => ImportCredential(c, s, credential, publisher)
  }

  lemma OperationSucceeds(c: Config, s: State, op: Operation)
    requires Good(c, s)
    ensures Successor(c, s, Decide(c, s, op))
  {
    match op
    case Endpoint(endpoint, now) => EndpointSucceeds(c, s, endpoint, now);
    case Business(endpoint, grant, now) => BusinessSucceeds(c, s, endpoint, grant, now);
    case Revocation(id, reason, publisher, now) => RevocationSucceeds(c, s, id, reason, publisher, now);
    case Credential(credential, publisher) => CredentialSucceeds(c, s, credential, publisher);
  }

  datatype Action = Perform(op: Operation, outcome: StoreOutcome) | Crash | Restart

  /** `seen` records every state the Server ever held in memory, hence could publish. */
  datatype World = World(file: State, memory: Option<State>, seen: seq<State>)

  function Adopted(w: World, st: Store, answer: Answer): World {
    World(st.file, Some(st.memory), if answer.Changed? then w.seen + [st.memory] else w.seen)
  }

  ghost function Apply(c: Config, w: World, a: Action): World {
    match a
    case Perform(op, outcome) =>
      if w.memory.None? then w
      else
        var (st, answer) := Settle(Store(w.memory.value, w.file), Decide(c, w.memory.value, op), outcome);
        Adopted(w, st, answer)
    case Crash => w.(memory := None)
    case Restart => if w.memory.None? && Loads(c, w.file) then World(w.file, Some(w.file), w.seen + [w.file]) else w
  }

  ghost function Run(c: Config, w: World, trace: seq<Action>): World
    decreases |trace|
  {
    if trace == [] then w else Run(c, Apply(c, w, trace[0]), trace[1..])
  }

  ghost predicate Chain(seen: seq<State>) {
    forall i, j | 0 <= i <= j < |seen| :: Extends(seen[i], seen[j])
  }

  ghost predicate AllGood(c: Config, seen: seq<State>) {
    forall i | 0 <= i < |seen| :: Good(c, seen[i])
  }

  /** `s` comes after everything seen. */
  ghost predicate Latest(seen: seq<State>, s: State) {
    forall i | 0 <= i < |seen| :: Extends(seen[i], s)
  }

  ghost predicate Inv(c: Config, w: World) {
    && Good(c, w.file) && Chain(w.seen) && AllGood(c, w.seen) && Latest(w.seen, w.file)
    && (w.memory.Some? ==> w.memory.value in w.seen && Latest(w.seen, w.memory.value))
  }

  lemma LatestMoves(seen: seq<State>, s: State, next: State)
    requires Latest(seen, s) && Extends(s, next)
    ensures Latest(seen, next)
  {
    forall i | 0 <= i < |seen| ensures Extends(seen[i], next) {
      ExtendsTransitive(seen[i], s, next);
    }
  }

  lemma ChainGrows(seen: seq<State>, s: State)
    requires Chain(seen) && Latest(seen, s)
    ensures Chain(seen + [s]) && Latest(seen + [s], s)
  {
  }

  lemma AdoptKeeps(c: Config, w: World, w': World, next: State)
    requires Inv(c, w) && w.memory.Some? && Good(c, next) && Extends(w.memory.value, next)
    requires w' == World(next, Some(next), w.seen + [next]) || w' == w.(file := next)
    ensures Inv(c, w')
  {
    LatestMoves(w.seen, w.memory.value, next);
    ChainGrows(w.seen, next);
  }

  /** What an operation leaves: a new state, a new file only, or nothing new. */
  lemma PerformLeaves(c: Config, w: World, op: Operation, outcome: StoreOutcome)
    ensures var w' := Apply(c, w, Perform(op, outcome));
            || w' == w
            || (w.memory.Some? && Decide(c, w.memory.value, op).Proposed? &&
                var next := Decide(c, w.memory.value, op).next;
                w' == World(next, Some(next), w.seen + [next]) || w' == w.(file := next))
  {
  }

  lemma PerformKeeps(c: Config, w: World, op: Operation, outcome: StoreOutcome)
    requires Inv(c, w)
    ensures Inv(c, Apply(c, w, Perform(op, outcome)))
  {
    var w' := Apply(c, w, Perform(op, outcome));
    PerformLeaves(c, w, op, outcome);
    if w' != w {
      OperationSucceeds(c, w.memory.value, op);
      AdoptKeeps(c, w, w', Decide(c, w.memory.value, op).next);
    }
  }

  lemma {:induction false} RunKeeps(c: Config, w: World, trace: seq<Action>)
    requires Inv(c, w)
    ensures Inv(c, Run(c, w, trace))
    decreases |trace|
  {
    if trace != [] {
      match trace[0] {
        case Perform(op, outcome) => PerformKeeps(c, w, op, outcome);
        case Crash =>
        case Restart => ChainGrows(w.seen, w.file);
      }
      RunKeeps(c, Apply(c, w, trace[0]), trace[1..]);
    }
  }

  ghost function After(c: Config, file: State, trace: seq<Action>): World {
    Run(c, World(file, None, []), trace)
  }

  /** Whatever was persisted, completely or by a store that reported failure, loads again. */
  lemma RestartNeverFails(c: Config, file: State, trace: seq<Action>)
    requires Good(c, file)
    ensures Loads(c, After(c, file, trace).file)
  {
    RunKeeps(c, World(file, None, []), trace);
  }

  /** Over every run, restarts included, each state held in memory keeps everything in the states
      before it, in order; no two credentials share an enrollment fingerprint; and two states of
      equal generation are the same state. */
  lemma HistoryOnlyGrows(c: Config, file: State, trace: seq<Action>, i: nat, j: nat)
    requires Good(c, file) && i <= j < |After(c, file, trace).seen|
    ensures var seen := After(c, file, trace).seen;
            && Extends(seen[i], seen[j]) && DistinctFingerprints(seen[j].credentials)
            && (seen[i].generation == seen[j].generation ==> seen[i] == seen[j])
  {
    RunKeeps(c, World(file, None, []), trace);
  }

  /** A proposed state is adopted exactly when it was stored; a store that reported failure after
      replacing the file leaves it there. The generation rises by one exactly when memory changes; a
      failed or repeated operation leaves memory as it was; and a store that failed cleanly leaves the
      file as it was too. */
  lemma GenerationMarksChange(c: Config, st: Store, op: Operation, outcome: StoreOutcome)
    ensures var v := Decide(c, st.memory, op);
            var (st', answer) := Settle(st, v, outcome);
            && (answer.Changed? <==> v.Proposed? && outcome == Stored)
            && (answer.AlreadyDone? <==> v.Unchanged?)
            && (answer.Changed? ==> st' == Store(v.next, v.next))
            && (v.Proposed? && outcome == ReplacedButFailed ==> st' == Store(st.memory, v.next))
            && (answer.Changed? <==> st'.memory != st.memory)
            && (st'.memory != st.memory <==> st'.memory.generation == st.memory.generation + 1)
            && (answer.Failed? && outcome == Kept ==> st' == st)
            && (answer.AlreadyDone? ==> st' == st)
  {
  }

  /** A credential once revoked is active in no later state, at no time. */
  lemma RevokedForGood(c: Config, file: State, trace: seq<Action>, i: nat, j: nat, id: Uuid, now: nat)
    requires Good(c, file) && i <= j < |After(c, file, trace).seen|
    requires IsRevoked(After(c, file, trace).seen[i].revocations, id)
    ensures IsRevoked(After(c, file, trace).seen[j].revocations, id)
    ensures !IsActive(After(c, file, trace).seen[j], id, now)
  {
    RunKeeps(c, World(file, None, []), trace);
    var seen := After(c, file, trace).seen;
    assert Extends(seen[i], seen[j]);
    var k :| 0 <= k < |seen[i].revocations| && seen[i].revocations[k].credential == id;
    assert seen[j].revocations[k] == seen[i].revocations[k];
  }

  // ----- what a Relay remembers of the snapshots it accepted -----

  /** The digest of a snapshot stands for its content. */
  datatype Digest = Digest(generation: nat, endpoints: seq<SignedEndpoint>, credentials: seq<SignedCredential>,
                           revocations: seq<Authorization.Revocation>)

  datatype Cache = Cache(generation: nat, digest: Option<Digest>, revoked: set<Uuid>)

  function DigestOf(s: State): Digest {
    Digest(s.generation, s.endpoints, s.credentials, s.revocations)
  }

  function RevokedIds(s: State): set<Uuid> {
    set i | 0 <= i < |s.revocations| :: s.revocations[i].credential
  }

  predicate Accepts(cache: Cache, s: State) {
    && cache.generation <= s.generation
    && !(cache.generation != 0 && s.generation == cache.generation && cache.digest.Some?
         && cache.digest.value != DigestOf(s))
    && cache.revoked <= RevokedIds(s)
  }

  function Remember(s: State): Cache {
    Cache(s.generation, Some(DigestOf(s)), RevokedIds(s))
  }

  lemma AcceptsLater(a: State, b: State)
    requires Extends(a, b)
    ensures Accepts(Remember(a), b)
  {
    forall id | id in RevokedIds(a) ensures id in RevokedIds(b) {
      var k :| 0 <= k < |a.revocations| && a.revocations[k].credential == id;
      assert b.revocations[k] == a.revocations[k];
    }
  }

  /** A Relay that accepted one state accepts another exactly when it is not older; the checks
      against changed content and lost revocations never fire on what the Server publishes. */
  lemma RelayAcceptsExactlyNewer(c: Config, file: State, trace: seq<Action>, i: nat, j: nat)
    requires Good(c, file) && i < |After(c, file, trace).seen| && j < |After(c, file, trace).seen|
    ensures var seen := After(c, file, trace).seen;
            Accepts(Remember(seen[i]), seen[j]) <==> seen[i].generation <= seen[j].generation
  {
    RunKeeps(c, World(file, None, []), trace);
    var seen := After(c, file, trace).seen;
    if i <= j {
      AcceptsLater(seen[i], seen[j]);
    } else {
      assert Extends(seen[j], seen[i]);
      if seen[i].generation == seen[j].generation { AcceptsLater(seen[j], seen[i]); }
    }
  }

  // ----- the control connection to a Relay -----

  /** What a session puts on the wire of the snapshots queued for it, after `last`. */
  function Written(last: nat, queue: seq<State>): seq<State>
    decreases |queue|
  {
    if queue == [] then []
    else if queue[0].generation < last then Written(last, queue[1..])
    else [queue[0]] + Written(queue[0].generation, queue[1..])
  }

  /** Of the snapshots queued, exactly those are written, in order, that no earlier one is newer than. */
  lemma {:induction false} WrittenNext(last: nat, queue: seq<State>, s: State)
    ensures var newest := last <= s.generation && forall q | q in queue :: q.generation <= s.generation;
            Written(last, queue + [s]) == Written(last, queue) + if newest then [s] else []
    decreases |queue|
  {
    if queue == [] {
      assert Written(s.generation, [s][1..]) == [];
    } else {
      assert (queue + [s])[1..] == queue[1..] + [s];
      assert queue == [queue[0]] + queue[1..];
      WrittenNext(if queue[0].generation < last then last else queue[0].generation, queue[1..], s);
    }
  }

  /** The Relay's end: each snapshot is accepted on top of the one before. */
  predicate AcceptsAll(cache: Cache, wire: seq<State>)
    decreases |wire|
  {
    wire == [] || (Accepts(cache, wire[0]) && AcceptsAll(Remember(wire[0]), wire[1..]))
  }

  class RelayWriter {
    var last: nat
    var wire: seq<State>

    constructor (first: State)
      ensures last == first.generation && wire == []
    {
      last, wire := first.generation, [];
    }

    method Write(queue: seq<State>)
      modifies this
      ensures wire == old(wire) + Written(old(last), queue)
    {
      for k := 0 to |queue|
        invariant wire + Written(last, queue[k..]) == old(wire) + Written(old(last), queue)
      {
        assert queue[k..][1..] == queue[k + 1..];
        if queue[k].generation >= last {
          wire := wire + [queue[k]];
          last := queue[k].generation;
        }
      }
    }
  }

  lemma {:induction false} WrittenIsAccepted(c: Config, file: State, trace: seq<Action>, i: nat, queue: seq<State>)
    requires Good(c, file) && i < |After(c, file, trace).seen|
    requires forall q | 0 <= q < |queue| :: queue[q] in After(c, file, trace).seen
    ensures var first := After(c, file, trace).seen[i];
            AcceptsAll(Remember(first), Written(first.generation, queue))
    decreases |queue|
  {
    if queue != [] {
      var seen := After(c, file, trace).seen;
      var j :| 0 <= j < |seen| && seen[j] == queue[0];
      RelayAcceptsExactlyNewer(c, file, trace, i, j);
      if queue[0].generation < seen[i].generation {
        WrittenIsAccepted(c, file, trace, i, queue[1..]);
      } else {
        WrittenIsAccepted(c, file, trace, j, queue[1..]);
        var wire := Written(seen[i].generation, queue);
        assert wire[1..] == Written(queue[0].generation, queue[1..]);
      }
    }
  }

  /** The empty state a deployment starts from loads. */
  lemma FreshStateLoads(c: Config)
    requires c.trust.deployment != [] && AuthoritiesOk(c.trust.authorities)
    requires c.size(State(1, [], [], [], {}, map[])) <= MAX_STATE_BYTES
    ensures Good(c, State(1, [], [], [], {}, map[]))
  {
  }
}
