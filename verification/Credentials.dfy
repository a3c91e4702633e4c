/** The signed objects of a deployment. A signature is the key it verifies under and a salt: two
    signatures over one payload may differ. A digest stands for the payload it was taken of. */
module Credentials {
  import opened Basics

  const MAX_CLOCK_SKEW_SECS: nat := 300

  datatype Protocol = Tcp | Udp

  datatype Scope =
    | Global
    | ServiceClass(application: string, transport: Protocol)
    | HomeScope(home: string)
    | ServiceScope(home: string, service: string, transport: Protocol)

  datatype BusinessService = BusinessService(service: string, transport: Protocol, application: string, tokensOk: bool)

  datatype Signature = Signature(key: nat, salt: nat)

  datatype Signed<P> = Signed(authority: string, payload: P, signature: Signature)

  // ----- Travel authorities and credentials -----

  datatype Authority = Authority(global: bool, id: string, epoch: nat, home: string, key: nat, keyOk: bool)

  datatype Validity = Validity(notBefore: nat, notAfter: nat)

  datatype Issuer = Issuer(deployment: string, authority: string, epoch: nat)

  datatype Credential = Credential(
    id: Uuid, issuer: Issuer, request: Uuid, fingerprint: string, travel: string, key: string,
    scope: Scope, validity: Validity, digestsOk: bool)

  type SignedCredential = Signed<Credential>

  predicate AuthorityOk(a: Authority) {
    a.id != [] && a.epoch != 0 && a.home != [] && a.keyOk
  }

  predicate DistinctAuthorities(auths: seq<Authority>) {
    forall i, j | 0 <= i < j < |auths| :: auths[i].id != auths[j].id
  }

  /** A usable authority list: not empty, well formed, and without repeated ids. */
  predicate AuthoritiesOk(auths: seq<Authority>) {
    auths != [] && (forall i | 0 <= i < |auths| :: AuthorityOk(auths[i])) && DistinctAuthorities(auths)
  }

  predicate ScopeOk(scope: Scope) {
    match scope
    case Global => true
    case ServiceClass(application, _) => application != []
    case HomeScope(home) => home != []
    case ServiceScope(home, service, _) => home != [] && service != []
  }

  function ScopeHome(scope: Scope): Option<string> {
    match scope
    case Global => None
    case ServiceClass(_, _) => None
    case HomeScope(home) => Some(home)
    case ServiceScope(home, _, _) => Some(home)
  }

  predicate AllowsHome(scope: Scope, home: string) {
    ScopeHome(scope).None? || ScopeHome(scope) == Some(home)
  }

  predicate CredentialOk(c: Credential) {
    && c.issuer.deployment != [] && c.id != NIL && c.issuer.authority != [] && c.issuer.epoch != 0
    && c.request != NIL && c.travel != [] && ScopeOk(c.scope) && c.digestsOk
    && c.validity.notBefore < c.validity.notAfter
  }

  /** A Home's own authority signs for that Home only. */
  predicate MaySign(a: Authority, scope: Scope) {
    a.global || ScopeHome(scope) == Some(a.home)
  }

  predicate SignedBy(s: SignedCredential, a: Authority) {
    && s.authority == a.id && s.signature.key == a.key && CredentialOk(s.payload)
    && s.payload.issuer.authority == s.authority && s.payload.issuer.epoch == a.epoch && MaySign(a, s.payload.scope)
  }

  predicate ActiveAt(c: Credential, now: nat) {
    c.validity.notBefore <= now < c.validity.notAfter
  }

  function FindAuthority(auths: seq<Authority>, id: string): Option<Authority>
    decreases |auths|
  {
    if auths == [] then None
    else if auths[0].id == id then Some(auths[0])
    else FindAuthority(auths[1..], id)
  }

  /** More authorities behind the known ones do not change which one a known id names. */
  lemma {:induction false} FindAuthorityStable(auths: seq<Authority>, more: seq<Authority>, id: string)
    requires FindAuthority(auths, id).Some?
    ensures FindAuthority(auths + more, id) == FindAuthority(auths, id)
    decreases |auths|
  {
    assert (auths + more)[1..] == auths[1..] + more;
    if auths[0].id != id { FindAuthorityStable(auths[1..], more, id); }
  }

  method LookUpAuthority(auths: seq<Authority>, id: string) returns (found: Option<Authority>)
    ensures found == FindAuthority(auths, id)
  {
    for k := 0 to |auths|
      invariant FindAuthority(auths[k..], id) == FindAuthority(auths, id)
    {
      if auths[k].id == id {
        return Some(auths[k]);
      }
      assert auths[k..][1..] == auths[k + 1..];
    }
    return None;
  }

  /** Verified against the authority it names among `auths`. */
  predicate Trusted(auths: seq<Authority>, s: SignedCredential) {
    var a := FindAuthority(auths, s.authority);
    a.Some? && SignedBy(s, a.value)
  }

  // ----- Home endpoints and business grants -----

  datatype Endpoint = Endpoint(
    home: string, issuer: Issuer, validity: Validity, delegated: seq<Authority>, bundle: bool, pinsOk: bool)

  type SignedEndpoint = Signed<Endpoint>

  datatype Grant = Grant(
    home: string, issuer: Issuer, validity: Validity, bound: Endpoint, services: seq<BusinessService>, tokensOk: bool)

  type SignedGrant = Signed<Grant>

  /** What the deployment root vouches for. */
  datatype Trust = Trust(
    deployment: string, validity: Validity, authorities: seq<Authority>,
    enrollers: map<(string, nat), nat>, homes: set<string>)

  predicate EndpointShapeOk(e: Endpoint) {
    && e.issuer.deployment != [] && e.issuer.authority != [] && e.issuer.epoch != 0 && e.home != [] && e.pinsOk
    && e.validity.notBefore < e.validity.notAfter && |e.delegated| <= 2
    && (e.delegated != [] ==> AuthoritiesOk(e.delegated) && e.bundle)
    && forall i | 0 <= i < |e.delegated| :: e.delegated[i].home == e.home
  }

  predicate EnrollerSigned(t: Trust, issuer: Issuer, signature: Signature) {
    (issuer.authority, issuer.epoch) in t.enrollers && t.enrollers[(issuer.authority, issuer.epoch)] == signature.key
  }

  /** Genuine, whether or not it is valid at the moment. */
  predicate EndpointBound(t: Trust, s: SignedEndpoint) {
    && EndpointShapeOk(s.payload) && s.payload.issuer.deployment == t.deployment
    && t.validity.notBefore <= s.payload.validity.notBefore && s.payload.validity.notAfter <= t.validity.notAfter
    && s.authority == s.payload.issuer.authority && EnrollerSigned(t, s.payload.issuer, s.signature)
  }

  function SkewedLater(now: nat): nat {
    if now + MAX_CLOCK_SKEW_SECS > U64_MAX then U64_MAX else now + MAX_CLOCK_SKEW_SECS
  }

  predicate ValidNow(v: Validity, now: nat) {
    v.notBefore <= SkewedLater(now) && now < v.notAfter
  }

  predicate EndpointCurrent(t: Trust, s: SignedEndpoint, now: nat) {
    EndpointBound(t, s) && ValidNow(s.payload.validity, now)
  }

  predicate DistinctServices(services: seq<BusinessService>) {
    forall i, j | 0 <= i < j < |services| :: services[i].service != services[j].service
  }

  predicate ServicesOk(services: seq<BusinessService>) {
    && 1 <= |services| <= 256 && DistinctServices(services)
    && forall i | 0 <= i < |services| :: services[i].tokensOk
  }

  predicate GrantBound(t: Trust, g: SignedGrant, e: SignedEndpoint) {
    && EndpointBound(t, e)
    && g.payload.tokensOk && ServicesOk(g.payload.services) && g.payload.issuer.epoch != 0
    && g.payload.validity.notBefore < g.payload.validity.notAfter
    && g.payload.issuer == e.payload.issuer && g.payload.home == e.payload.home
    && g.authority == g.payload.issuer.authority
    && g.payload.bound == e.payload && e.payload.delegated == [] && !e.payload.bundle
    && e.payload.validity.notBefore <= g.payload.validity.notBefore
    && g.payload.validity.notAfter <= e.payload.validity.notAfter
    && EnrollerSigned(t, g.payload.issuer, g.signature)
  }

  predicate GrantCurrent(t: Trust, g: SignedGrant, e: SignedEndpoint, now: nat) {
    EndpointCurrent(t, e, now) && GrantBound(t, g, e) && ValidNow(g.payload.validity, now)
  }
}
