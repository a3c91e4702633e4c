/** The Server's authorization state (`ServerAuthorization`): signed objects are imported and
    credentials revoked by proposing a whole new state, persisting it, and only then adopting it. */
module Authorization {
  import opened Basics
  import opened Credentials

  const MAX_ENDPOINTS: nat := 64
  const MAX_CREDENTIALS: nat := 2048
  const MAX_REVOCATIONS: nat := 2048
  const MAX_STATE_BYTES: nat := 900 * 1024

  datatype Revocation = Revocation(credential: Uuid, at: nat, reason: string)

  datatype State = State(
    generation: nat,
    endpoints: seq<SignedEndpoint>,
    credentials: seq<SignedCredential>,
    revocations: seq<Revocation>,
    used: set<string>,
    grants: map<string, SignedGrant>)

  /** `size` is the length of a state's encoding. */
  datatype Config = Config(trust: Trust, size: State -> nat)

  // ----- the checks -----

  /** The root's authorities followed by those the endpoints delegate. */
  function Delegations(t: Trust, endpoints: seq<SignedEndpoint>): seq<Authority>
    decreases |endpoints|
  {
    if endpoints == [] then t.authorities
    else Delegations(t, endpoints[..|endpoints| - 1]) + endpoints[|endpoints| - 1].payload.delegated
  }

  predicate AllBound(t: Trust, endpoints: seq<SignedEndpoint>) {
    forall i | 0 <= i < |endpoints| :: EndpointBound(t, endpoints[i])
  }

  predicate DelegationsOk(t: Trust, endpoints: seq<SignedEndpoint>) {
    AllBound(t, endpoints) && AuthoritiesOk(Delegations(t, endpoints))
  }

  predicate CredentialsOk(t: Trust, auths: seq<Authority>, credentials: seq<SignedCredential>) {
    forall i | 0 <= i < |credentials| ::
      Trusted(auths, credentials[i]) && credentials[i].payload.issuer.deployment == t.deployment
  }

  predicate DistinctIds(credentials: seq<SignedCredential>) {
    forall i, j | 0 <= i < j < |credentials| :: credentials[i].payload.id != credentials[j].payload.id
  }

  predicate HasCredential(credentials: seq<SignedCredential>, id: Uuid) {
    exists i :: 0 <= i < |credentials| && credentials[i].payload.id == id
  }

  predicate IsRevoked(revocations: seq<Revocation>, id: Uuid) {
    exists i :: 0 <= i < |revocations| && revocations[i].credential == id
  }

  predicate RevocationOk(credentials: seq<SignedCredential>, r: Revocation) {
    r.at != 0 && 1 <= |r.reason| <= 256 && HasCredential(credentials, r.credential)
  }

  predicate RevocationsOk(credentials: seq<SignedCredential>, revocations: seq<Revocation>) {
    && (forall i | 0 <= i < |revocations| :: RevocationOk(credentials, revocations[i]))
    && (forall i, j | 0 <= i < j < |revocations| :: revocations[i].credential != revocations[j].credential)
  }

  predicate Verifies(t: Trust, s: State) {
    && t.deployment != [] && s.generation != 0 && DelegationsOk(t, s.endpoints)
    && CredentialsOk(t, Delegations(t, s.endpoints), s.credentials) && DistinctIds(s.credentials)
    && RevocationsOk(s.credentials, s.revocations)
  }

  predicate SizeOk(c: Config, s: State) {
    && |s.endpoints| <= MAX_ENDPOINTS && |s.credentials| <= MAX_CREDENTIALS && |s.revocations| <= MAX_REVOCATIONS
    && c.size(s) <= MAX_STATE_BYTES
  }

  predicate UsedOk(s: State) {
    forall i | 0 <= i < |s.credentials| :: s.credentials[i].payload.fingerprint in s.used
  }

  predicate GrantHeld(t: Trust, s: State, home: string) {
    home in s.grants ==>
      exists i ::
        0 <= i < |s.endpoints| && GrantBound(t, s.grants[home], s.endpoints[i]) && s.grants[home].payload.home == home
  }

  ghost predicate GrantsOk(t: Trust, s: State) {
    forall home :: GrantHeld(t, s, home)
  }

  /** The state file is accepted at a restart. */
  ghost predicate Loads(c: Config, s: State) {
    GrantsOk(c.trust, s) && SizeOk(c, s) && Verifies(c.trust, s) && UsedOk(s)
  }

  predicate IsActive(s: State, id: Uuid, now: nat) {
    && (exists i :: 0 <= i < |s.credentials| && s.credentials[i].payload.id == id
                    && ActiveAt(s.credentials[i].payload, now))
    && !IsRevoked(s.revocations, id)
  }

  // ----- the operations: what each proposes -----

  datatype Verdict = Refused | Unchanged | Proposed(next: State)

  function Propose(c: Config, s: State, next: State): Verdict {
    if s.generation < U64_MAX && Verifies(c.trust, next) && SizeOk(c, next) then Proposed(next) else Refused
  }

  /** The first endpoint currently valid for a Home. */
  function FindEndpoint(t: Trust, endpoints: seq<SignedEndpoint>, home: string, now: nat): Option<SignedEndpoint>
    decreases |endpoints|
  {
    if endpoints == [] then None
    else if EndpointCurrent(t, endpoints[0], now) && endpoints[0].payload.home == home then Some(endpoints[0])
    else FindEndpoint(t, endpoints[1..], home, now)
  }

  predicate CurrentFor(t: Trust, signed: SignedEndpoint, home: string, now: nat) {
    EndpointCurrent(t, signed, now) && signed.payload.home == home
  }

  predicate NoneCurrent(t: Trust, endpoints: seq<SignedEndpoint>, home: string, now: nat) {
    forall i | 0 <= i < |endpoints| :: !CurrentFor(t, endpoints[i], home, now)
  }

  lemma {:induction false} FoundExactly(t: Trust, endpoints: seq<SignedEndpoint>, home: string, now: nat)
    ensures FindEndpoint(t, endpoints, home, now).None? <==> NoneCurrent(t, endpoints, home, now)
    ensures forall i | 0 <= i < |endpoints| && CurrentFor(t, endpoints[i], home, now)
                       && NoneCurrent(t, endpoints[..i], home, now) ::
              FindEndpoint(t, endpoints, home, now) == Some(endpoints[i])
    decreases |endpoints|
  {
    if endpoints != [] {
      var rest := endpoints[1..];
      FoundExactly(t, rest, home, now);
      if CurrentFor(t, endpoints[0], home, now) {
        assert !NoneCurrent(t, endpoints, home, now);
        forall i | 0 < i < |endpoints| ensures !NoneCurrent(t, endpoints[..i], home, now) {
          assert endpoints[..i][0] == endpoints[0];
        }
      } else {
        forall i | 0 < i < |endpoints| && CurrentFor(t, endpoints[i], home, now)
                   && NoneCurrent(t, endpoints[..i], home, now)
          ensures FindEndpoint(t, endpoints, home, now) == Some(endpoints[i])
        {
          assert rest[i - 1] == endpoints[i] && rest[..i - 1] == endpoints[..i][1..];
        }
        assert NoneCurrent(t, endpoints, home, now) <==> NoneCurrent(t, rest, home, now) by {
          assert endpoints == [endpoints[0]] + rest;
        }
      }
    }
  }

  function WithEndpoint(s: State, signed: SignedEndpoint): State {
    s.(generation := s.generation + 1, endpoints := s.endpoints + [signed])
  }

  function ImportEndpoint(c: Config, s: State, signed: SignedEndpoint, now: nat): Verdict {
    var home := signed.payload.home;
    if !EndpointCurrent(c.trust, signed, now) then Refused
    else if home in s.grants && !GrantBound(c.trust, s.grants[home], signed) then Refused
    else match FindEndpoint(c.trust, s.endpoints, home, now)
      case Some(existing) => if existing == signed then Unchanged else Refused
      case None => Propose(c, s, WithEndpoint(s, signed))
  }

  function ImportBusiness(c: Config, s: State, endpoint: SignedEndpoint, grant: SignedGrant, now: nat): Verdict {
    var home := grant.payload.home;
    if !GrantCurrent(c.trust, grant, endpoint, now) then Refused
    else if home in s.grants then
      if s.grants[home] == grant && endpoint in s.endpoints then Unchanged else Refused
    else if endpoint in s.endpoints || FindEndpoint(c.trust, s.endpoints, home, now).Some? then Refused
    else if home in c.trust.homes then Refused
    else Propose(c, s, WithEndpoint(s, endpoint).(grants := s.grants[home := grant]))
  }

  function FindCredential(auths: seq<Authority>, credentials: seq<SignedCredential>, id: Uuid): Option<SignedCredential>
    decreases |credentials|
  {
    if credentials == [] then None
    else if Trusted(auths, credentials[0]) && credentials[0].payload.id == id then Some(credentials[0])
    else FindCredential(auths, credentials[1..], id)
  }

  function Revoke(c: Config, s: State, id: Uuid, reason: string, publisher: string, now: nat): Verdict {
    var auths := Delegations(c.trust, s.endpoints);
    match FindCredential(auths, s.credentials, id)
    case None => Refused
    case Some(credential) =>
      var authority := FindAuthority(auths, credential.payload.issuer.authority);
      if authority.None? || authority.value.home != publisher then Refused
      else if IsRevoked(s.revocations, id) then Unchanged
      else Propose(c, s, s.(generation := s.generation + 1,
                            revocations := s.revocations + [Revocation(id, now, reason)]))
  }

  function ImportCredential(c: Config, s: State, signed: SignedCredential, publisher: string): Verdict {
    var auths := Delegations(c.trust, s.endpoints);
    var authority := FindAuthority(auths, signed.authority);
    if authority.None? || authority.value.home != publisher || !SignedBy(signed, authority.value) then Refused
    else match FindCredential(auths, s.credentials, signed.payload.id)
      case Some(existing) => if existing.payload == signed.payload then Unchanged else Refused
      case None =>
        if signed.payload.fingerprint in s.used then Refused
        else Propose(c, s, s.(generation := s.generation + 1, credentials := s.credentials + [signed],
                              used := s.used + {signed.payload.fingerprint}))
  }

  // ----- persisting -----

  datatype Answer = Failed | AlreadyDone | Changed

  datatype Store = Store(memory: State, file: State)

  function Settle(st: Store, v: Verdict, outcome: StoreOutcome): (Store, Answer) {
    match v
    case Refused => (st, Failed)
    case Unchanged => (st, AlreadyDone)
    case Proposed(next) =>
      match outcome
      case Stored => (Store(next, next), Changed)
      case Kept => (st, Failed)
      case ReplacedButFailed => (Store(st.memory, next), Failed)
  }

  // ----- the loops of the checks -----

  method CheckAuthorities(auths: seq<Authority>) returns (ok: bool)
    ensures ok == AuthoritiesOk(auths)
  {
    var ids: set<string> := {};
    for k := 0 to |auths|
      invariant forall id :: id in ids <==> exists i :: 0 <= i < k && auths[i].id == id
      invariant forall i | 0 <= i < k :: AuthorityOk(auths[i])
      invariant DistinctAuthorities(auths[..k])
    {
      if !AuthorityOk(auths[k]) || auths[k].id in ids {
        return false;
      }
      ids := ids + {auths[k].id};
    }
    assert auths[..|auths|] == auths;
    return auths != [];
  }

  method CollectAuthorities(t: Trust, endpoints: seq<SignedEndpoint>) returns (auths: Option<seq<Authority>>)
    ensures auths == if DelegationsOk(t, endpoints) then Some(Delegations(t, endpoints)) else None
  {
    var collected := t.authorities;
    for k := 0 to |endpoints|
      invariant collected == Delegations(t, endpoints[..k])
      invariant AllBound(t, endpoints[..k])
    {
      if !EndpointBound(t, endpoints[k]) {
        return None;
      }
      assert endpoints[..k + 1][..k] == endpoints[..k];
      collected := collected + endpoints[k].payload.delegated;
    }
    assert endpoints[..|endpoints|] == endpoints;
    var ok := CheckAuthorities(collected);
    return if ok then Some(collected) else None;
  }

  method VerifyCredentials(t: Trust, auths: seq<Authority>, credentials: seq<SignedCredential>)
    returns (ids: Option<set<Uuid>>)
    ensures ids.Some? == (CredentialsOk(t, auths, credentials) && DistinctIds(credentials))
    ensures ids.Some? ==> forall id :: id in ids.value <==> HasCredential(credentials, id)
  {
    var seen: set<Uuid> := {};
    for k := 0 to |credentials|
      invariant CredentialsOk(t, auths, credentials[..k]) && DistinctIds(credentials[..k])
      invariant forall id :: id in seen <==> exists i :: 0 <= i < k && credentials[i].payload.id == id
    {
      var signed := credentials[k];
      var authority := LookUpAuthority(auths, signed.authority);
      if authority.None? || !SignedBy(signed, authority.value) || signed.payload.issuer.deployment != t.deployment
         || signed.payload.id in seen {
        return None;
      }
      seen := seen + {signed.payload.id};
    }
    assert credentials[..|credentials|] == credentials;
    return Some(seen);
  }

  method VerifyRevocations(credentials: seq<SignedCredential>, ids: set<Uuid>,
                           revocations: seq<Revocation>) returns (ok: bool)
    requires forall id :: id in ids <==> HasCredential(credentials, id)
    ensures ok == RevocationsOk(credentials, revocations)
  {
    var revoked: set<Uuid> := {};
    for k := 0 to |revocations|
      invariant RevocationsOk(credentials, revocations[..k])
      invariant forall id :: id in revoked <==> exists i :: 0 <= i < k && revocations[i].credential == id
    {
      var r := revocations[k];
      if r.at == 0 || r.reason == [] || |r.reason| > 256 || r.credential !in ids || r.credential in revoked {
        assert !RevocationsOk(credentials, revocations) by {
          if r.credential !in revoked { assert !RevocationOk(credentials, revocations[k]); }
        }
        return false;
      }
      revoked := revoked + {r.credential};
    }
    assert revocations[..|revocations|] == revocations;
    return true;
  }

  method Verify(t: Trust, s: State) returns (ok: bool)
    ensures ok == Verifies(t, s)
  {
    if t.deployment == [] || s.generation == 0 {
      return false;
    }
    var auths := CollectAuthorities(t, s.endpoints);
    if auths.None? {
      return false;
    }
    var ids := VerifyCredentials(t, auths.value, s.credentials);
    if ids.None? {
      return false;
    }
    ok := VerifyRevocations(s.credentials, ids.value, s.revocations);
  }

  method LookUpCredential(auths: seq<Authority>, credentials: seq<SignedCredential>, id: Uuid)
    returns (found: Option<SignedCredential>)
    ensures found == FindCredential(auths, credentials, id)
  {
    for k := 0 to |credentials|
      invariant FindCredential(auths, credentials[k..], id) == FindCredential(auths, credentials, id)
    {
      var authority := LookUpAuthority(auths, credentials[k].authority);
      if authority.Some? && SignedBy(credentials[k], authority.value) && credentials[k].payload.id == id {
        return Some(credentials[k]);
      }
      assert credentials[k..][1..] == credentials[k + 1..];
    }
    return None;
  }

  method LookUpEndpoint(t: Trust, endpoints: seq<SignedEndpoint>, home: string, now: nat)
    returns (found: Option<SignedEndpoint>)
    ensures found == FindEndpoint(t, endpoints, home, now)
  {
    for k := 0 to |endpoints|
      invariant FindEndpoint(t, endpoints[k..], home, now) == FindEndpoint(t, endpoints, home, now)
    {
      if EndpointCurrent(t, endpoints[k], now) && endpoints[k].payload.home == home {
        return Some(endpoints[k]);
      }
      assert endpoints[k..][1..] == endpoints[k + 1..];
    }
    return None;
  }

  method VerifyGrants(t: Trust, s: State) returns (ok: bool)
    ensures ok == GrantsOk(t, s)
  {
    var rest := s.grants.Keys;
    while rest != {}
      invariant rest <= s.grants.Keys
      invariant forall home | home !in rest :: GrantHeld(t, s, home)
      decreases rest
    {
      var home :| home in rest;
      if !GrantHeld(t, s, home) {
        return false;
      }
      rest := rest - {home};
    }
    return true;
  }

  /** The checks a restart makes of the state file. */
  method CheckLoad(c: Config, s: State) returns (ok: bool)
    ensures ok == Loads(c, s)
  {
    ok := VerifyGrants(c.trust, s);
    if !ok || !SizeOk(c, s) {
      return false;
    }
    ok := Verify(c.trust, s);
    if !ok {
      return false;
    }
    for k := 0 to |s.credentials|
      invariant forall i | 0 <= i < k :: s.credentials[i].payload.fingerprint in s.used
    {
      if s.credentials[k].payload.fingerprint !in s.used {
        return false;
      }
    }
  }

  class ServerAuthorization {
    const config: Config
    var authorities: seq<Authority>
    var memory: State
    var file: State

    ghost predicate Valid()
      reads this
    {
      authorities == Delegations(config.trust, memory.endpoints)
    }

    constructor (config: Config, stored: State)
      requires Loads(config, stored)
      ensures Valid() && this.config == config && memory == stored && file == stored
    {
      this.config := config;
      memory, file := stored, stored;
      var auths := CollectAuthorities(config.trust, stored.endpoints);
      authorities := auths.value;
    }

    method Persist(next: State, outcome: StoreOutcome) returns (answer: Answer)
      requires Valid()
      modifies this
      ensures Valid()
      ensures (Store(memory, file), answer)
              == Settle(old(Store(memory, file)), Propose(config, old(memory), next), outcome)
    {
      if memory.generation >= U64_MAX {
        return Failed;
      }
      var verified := Verify(config.trust, next);
      if !verified || !SizeOk(config, next) {
        return Failed;
      }
      if outcome != Kept {
        file := next;
      }
      if outcome != Stored {
        return Failed;
      }
      memory := next;
      var auths := CollectAuthorities(config.trust, next.endpoints);
      authorities := auths.value;
      return Changed;
    }

    method ImportHomeEndpoint(signed: SignedEndpoint, now: nat, outcome: StoreOutcome) returns (answer: Answer)
      requires Valid()
      modifies this
      ensures Valid()
      ensures (Store(memory, file), answer)
           == Settle(old(Store(memory, file)), ImportEndpoint(config, old(memory), signed, now), outcome)
      ensures answer.Changed? ==> NoneCurrent(config.trust, old(memory).endpoints, signed.payload.home, now)
      ensures memory.endpoints == old(memory).endpoints + if answer.Changed? then [signed] else []
    {
      var home := signed.payload.home;
      if !EndpointCurrent(config.trust, signed, now) {
        return Failed;
      }
      if home in memory.grants && !GrantBound(config.trust, memory.grants[home], signed) {
        return Failed;
      }
      var existing := LookUpEndpoint(config.trust, memory.endpoints, home, now);
      FoundExactly(config.trust, memory.endpoints, home, now);
      if existing.Some? {
        return if existing.value == signed then AlreadyDone else Failed;
      }
      answer := Persist(WithEndpoint(memory, signed), outcome);
    }

    method ImportBusinessHome(endpoint: SignedEndpoint, grant: SignedGrant, now: nat, outcome: StoreOutcome)
      returns (answer: Answer)
      requires Valid()
      modifies this
      ensures Valid()
      ensures (Store(memory, file), answer)
           == Settle(old(Store(memory, file)), ImportBusiness(config, old(memory), endpoint, grant, now), outcome)
      ensures answer.Changed? ==> NoneCurrent(config.trust, old(memory).endpoints, grant.payload.home, now)
      ensures memory.endpoints == old(memory).endpoints + if answer.Changed? then [endpoint] else []
    {
      var home := grant.payload.home;
      if !GrantCurrent(config.trust, grant, endpoint, now) {
        return Failed;
      }
      if home in memory.grants {
        return if memory.grants[home] == grant && endpoint in memory.endpoints then AlreadyDone else Failed;
      }
      if endpoint in memory.endpoints {
        return Failed;
      }
      var existing := LookUpEndpoint(config.trust, memory.endpoints, home, now);
      FoundExactly(config.trust, memory.endpoints, home, now);
      if existing.Some? || home in config.trust.homes {
        return Failed;
      }
      answer := Persist(WithEndpoint(memory, endpoint).(grants := memory.grants[home := grant]), outcome);
    }

    method RevokeFromHome(id: Uuid, reason: string, publisher: string, now: nat, outcome: StoreOutcome)
      returns (answer: Answer)
      requires Valid()
      modifies this
      ensures Valid()
      ensures (Store(memory, file), answer)
           == Settle(old(Store(memory, file)), Revoke(config, old(memory), id, reason, publisher, now), outcome)
    {
      var credential := LookUpCredential(authorities, memory.credentials, id);
      if credential.None? {
        return Failed;
      }
      var authority := LookUpAuthority(authorities, credential.value.payload.issuer.authority);
      if authority.None? || authority.value.home != publisher {
        return Failed;
      }
      if exists i :: 0 <= i < |memory.revocations| && memory.revocations[i].credential == id {
        return AlreadyDone;
      }
      answer := Persist(memory.(generation := memory.generation + 1,
                                revocations := memory.revocations + [Revocation(id, now, reason)]), outcome);
    }

    method ImportTravelCredential(signed: SignedCredential, publisher: string,
                                  outcome: StoreOutcome) returns (answer: Answer)
      requires Valid()
      modifies this
      ensures Valid()
      ensures (Store(memory, file), answer)
           == Settle(old(Store(memory, file)), ImportCredential(config, old(memory), signed, publisher), outcome)
    {
      var authority := LookUpAuthority(authorities, signed.authority);
      if authority.None? || authority.value.home != publisher || !SignedBy(signed, authority.value) {
        return Failed;
      }
      var existing := LookUpCredential(authorities, memory.credentials, signed.payload.id);
      if existing.Some? {
        return if existing.value.payload == signed.payload then AlreadyDone else Failed;
      }
      if signed.payload.fingerprint in memory.used {
        return Failed;
      }
      answer := Persist(memory.(generation := memory.generation + 1, credentials := memory.credentials + [signed],
                                used := memory.used + {signed.payload.fingerprint}), outcome);
    }
  }
}
