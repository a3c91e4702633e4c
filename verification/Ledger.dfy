/** A Home's issuance ledger (`IssuanceLedger`): what it has issued, for retries to find again. */
module Ledger {
  import opened Basics
  import opened Credentials

  /** An enrollment request with the digest of its content; `envelope` is how it was presented. */
  datatype Request = Request(id: Uuid, fingerprint: string, envelope: nat)

  datatype Intent = Intent(authority: string, scope: Scope, validFor: nat)

  /** The response to a request: the approved request and the credential signed for it. */
  datatype Enrollment = Enrollment(credential: Uuid, authority: string, scope: Scope, request: Request,
                                   signed: SignedCredential)

  datatype Record = Record(request: Uuid, fingerprint: string, intent: Intent, enrollment: Enrollment,
                           published: Option<nat>)

  datatype Books = Books(memory: seq<Record>, file: seq<Record>)

  // ----- what a ledger file must satisfy to load -----

  predicate RecordOk(r: Record) {
    && r.request != NIL && |r.fingerprint| == 64 && r.intent.authority != [] && r.intent.validFor != 0
    && r.enrollment.credential != NIL && r.enrollment.request.id == r.request
    && r.enrollment.authority == r.intent.authority
    && r.enrollment.scope == r.intent.scope && r.enrollment.request.fingerprint == r.fingerprint
    && r.published != Some(0)
  }

  /** Two records share neither credential nor request. */
  predicate Apart(a: Record, b: Record) {
    a.enrollment.credential != b.enrollment.credential && a.fingerprint != b.fingerprint && a.request != b.request
  }

  predicate RecordsOk(records: seq<Record>) {
    && (forall i | 0 <= i < |records| :: RecordOk(records[i]))
    && (forall i, j | 0 <= i < j < |records| :: Apart(records[i], records[j]))
  }

  lemma MalformedRecord(records: seq<Record>, k: nat)
    requires k < |records| && !RecordOk(records[k])
    ensures !RecordsOk(records)
  {
  }

  lemma RepeatedRecord(records: seq<Record>, i: nat, k: nat)
    requires i < k < |records| && !Apart(records[i], records[k])
    ensures !RecordsOk(records)
  {
  }

  lemma AnotherRecord(records: seq<Record>, k: nat)
    requires k < |records| && RecordsOk(records[..k]) && RecordOk(records[k])
    requires forall i | 0 <= i < k :: Apart(records[i], records[k])
    ensures RecordsOk(records[..k + 1])
  {
  }

  function CredentialsOf(records: seq<Record>): set<Uuid> {
    set r | r in records :: r.enrollment.credential
  }

  function FingerprintsOf(records: seq<Record>): set<string> {
    set r | r in records :: r.fingerprint
  }

  function RequestsOf(records: seq<Record>): set<Uuid> {
    set r | r in records :: r.request
  }

  /** Index the first `k` records and the next one with them. */
  lemma IndexGrows(records: seq<Record>, k: nat)
    requires k < |records|
    ensures CredentialsOf(records[..k + 1]) == CredentialsOf(records[..k]) + {records[k].enrollment.credential}
    ensures FingerprintsOf(records[..k + 1]) == FingerprintsOf(records[..k]) + {records[k].fingerprint}
    ensures RequestsOf(records[..k + 1]) == RequestsOf(records[..k]) + {records[k].request}
  {
    assert records[..k + 1] == records[..k] + [records[k]];
  }

  /** A record that shares its credential, content or request with an earlier one fails the check. */
  lemma RejectedRecord(records: seq<Record>, k: nat)
    requires k < |records|
    requires var r := records[k];
             || r.enrollment.credential in CredentialsOf(records[..k])
             || r.fingerprint in FingerprintsOf(records[..k])
             || r.request in RequestsOf(records[..k])
    ensures !RecordsOk(records)
  {
    var r := records[k];
    var earlier :| earlier in records[..k] && !Apart(earlier, r);
    var i :| 0 <= i < k && records[i] == earlier;
    RepeatedRecord(records, i, k);
  }

  /** A record that shares nothing with the earlier ones passes it. */
  lemma AcceptedRecord(records: seq<Record>, k: nat)
    requires k < |records| && RecordsOk(records[..k]) && RecordOk(records[k])
    requires var r := records[k];
             && r.enrollment.credential !in CredentialsOf(records[..k])
             && r.fingerprint !in FingerprintsOf(records[..k])
             && r.request !in RequestsOf(records[..k])
    ensures RecordsOk(records[..k + 1])
  {
    forall i | 0 <= i < k ensures Apart(records[i], records[k]) {
      assert records[i] in records[..k];
    }
    AnotherRecord(records, k);
  }

  /** Each request id is kept with the content it was used for. */
  ghost predicate Contents(records: seq<Record>, requests: map<Uuid, string>) {
    requests.Keys == RequestsOf(records) && forall q | q in requests :: requests[q] in FingerprintsOf(records)
  }

  lemma ContentsGrow(records: seq<Record>, k: nat, requests: map<Uuid, string>)
    requires k < |records| && Contents(records[..k], requests)
    ensures Contents(records[..k + 1], requests[records[k].request := records[k].fingerprint])
  {
    IndexGrows(records, k);
  }

  /** The check at load. A request id may name one content only; since no content repeats, it
      cannot repeat at all. */
  method ValidateState(records: seq<Record>) returns (ok: bool)
    ensures ok == RecordsOk(records)
  {
    var credentials: set<Uuid> := {};
    var fingerprints: set<string> := {};
    var requests: map<Uuid, string> := map[];
    for k := 0 to |records|
      invariant RecordsOk(records[..k]) && Contents(records[..k], requests)
      invariant credentials == CredentialsOf(records[..k]) && fingerprints == FingerprintsOf(records[..k])
    {
      var r := records[k];
      if !RecordOk(r) {
        MalformedRecord(records, k);
        return false;
      }
      if r.enrollment.credential in credentials || r.fingerprint in fingerprints {
        RejectedRecord(records, k);
        return false;
      }
      if r.request in requests && requests[r.request] != r.fingerprint {
        RejectedRecord(records, k);
        return false;
      }
      IndexGrows(records, k);
      AcceptedRecord(records, k);
      ContentsGrow(records, k, requests);
      credentials := credentials + {r.enrollment.credential};
      fingerprints := fingerprints + {r.fingerprint};
      requests := requests[r.request := r.fingerprint];
    }
    assert records[..|records|] == records;
    return true;
  }

  // ----- operations -----

  datatype Found = Reused | Absent | At(record: Record)

  predicate RequestReused(records: seq<Record>, q: Request) {
    exists i :: 0 <= i < |records| && records[i].request == q.id && records[i].fingerprint != q.fingerprint
  }

  function FirstWith(records: seq<Record>, fingerprint: string): Option<Record>
    decreases |records|
  {
    if records == [] then None
    else if records[0].fingerprint == fingerprint then Some(records[0])
    else FirstWith(records[1..], fingerprint)
  }

  function Find(records: seq<Record>, q: Request): Found {
    if RequestReused(records, q) then Reused
    else match FirstWith(records, q.fingerprint)
      case None => Absent
      case Some(r) => At(r)
  }

  lemma {:induction false} FirstWithIs(records: seq<Record>, fingerprint: string)
    ensures match FirstWith(records, fingerprint)
            case None => forall i | 0 <= i < |records| :: records[i].fingerprint != fingerprint
            case Some(r) => r in records && r.fingerprint == fingerprint
    decreases |records|
  {
    if records != [] {
      FirstWithIs(records[1..], fingerprint);
      assert records == [records[0]] + records[1..];
    }
  }

  function Rewritten(b: Books, records: seq<Record>, outcome: StoreOutcome): Books {
    Books(records, if outcome.Kept? then b.file else records)
  }

  /** The record is in memory before the file is written, and stays there if the write fails. */
  function Inserted(b: Books, q: Request, r: Record, outcome: StoreOutcome): (Books, bool) {
    if !Find(b.memory, q).Absent? || !RecordOk(r) then (b, false)
    else (Rewritten(b, b.memory + [r], outcome), outcome.Stored?)
  }

  function Marked(records: seq<Record>, credential: Uuid, generation: nat): Option<seq<Record>>
    decreases |records|
  {
    if records == [] then None
    else if records[0].enrollment.credential == credential
    then Some([records[0].(published := Some(generation))] + records[1..])
    else match Marked(records[1..], credential, generation)
      case None => None
      case Some(rest) => Some([records[0]] + rest)
  }

  function MarkedPublished(b: Books, credential: Uuid, generation: nat, outcome: StoreOutcome): (Books, bool) {
    if generation == 0 then (b, false)
    else match Marked(b.memory, credential, generation)
      case None => (b, false)
      case Some(records) => (Rewritten(b, records, outcome), outcome.Stored?)
  }

  /** Marking changes one record's publication and nothing else. */
  lemma {:induction false} MarkedIs(records: seq<Record>, credential: Uuid, generation: nat)
    ensures match Marked(records, credential, generation)
            case None => forall i | 0 <= i < |records| :: records[i].enrollment.credential != credential
            case Some(marked) =>
              && |marked| == |records|
              && exists k :: 0 <= k < |records| && records[k].enrollment.credential == credential
                             && marked == records[k := records[k].(published := Some(generation))]
    decreases |records|
  {
    if records != [] && records[0].enrollment.credential != credential {
      MarkedIs(records[1..], credential, generation);
      var rest := Marked(records[1..], credential, generation);
      if rest.Some? {
        var k :| 0 <= k < |records[1..]| && records[1..][k].enrollment.credential == credential
                 && rest.value == records[1..][k := records[1..][k].(published := Some(generation))];
        assert [records[0]] + rest.value == records[k + 1 := records[k + 1].(published := Some(generation))];
      }
    } else if records != [] {
      assert [records[0].(published := Some(generation))] + records[1..]
             == records[0 := records[0].(published := Some(generation))];
    }
  }

  class IssuanceLedger {
    var records: seq<Record>
    var file: seq<Record>

    constructor (stored: seq<Record>)
      requires RecordsOk(stored)
      ensures records == stored && file == stored
    {
      records, file := stored, stored;
    }

    method FindRecord(q: Request) returns (found: Found)
      ensures found == Find(records, q)
    {
      for k := 0 to |records|
        invariant !RequestReused(records[..k], q)
      {
        if records[k].request == q.id && records[k].fingerprint != q.fingerprint {
          return Reused;
        }
      }
      assert records[..|records|] == records;
      for k := 0 to |records|
        invariant FirstWith(records[k..], q.fingerprint) == FirstWith(records, q.fingerprint)
      {
        if records[k].fingerprint == q.fingerprint {
          return At(records[k]);
        }
        assert records[k..][1..] == records[k + 1..];
      }
      return Absent;
    }

    method InsertPending(q: Request, r: Record, outcome: StoreOutcome) returns (ok: bool)
      modifies this
      ensures (Books(records, file), ok) == Inserted(old(Books(records, file)), q, r, outcome)
    {
      var found := FindRecord(q);
      if !found.Absent? || !RecordOk(r) {
        return false;
      }
      records := records + [r];
      if !outcome.Kept? {
        file := records;
      }
      return outcome.Stored?;
    }

    method MarkPublished(credential: Uuid, generation: nat, outcome: StoreOutcome) returns (ok: bool)
      modifies this
      ensures (Books(records, file), ok) == MarkedPublished(old(Books(records, file)), credential, generation, outcome)
    {
      if generation == 0 {
        return false;
      }
      for k := 0 to |records|
        invariant Unmarked(records, k, credential)
        invariant records == old(records) && file == old(file)
      {
        if records[k].enrollment.credential == credential {
          MarkedAt(records, k, credential, generation);
          records := records[k := records[k].(published := Some(generation))];
          if !outcome.Kept? {
            file := records;
          }
          return outcome.Stored?;
        }
      }
      MarkedIs(records, credential, generation);
      return false;
    }
  }

  /** None of the first `k` records carries the credential. */
  ghost predicate Unmarked(records: seq<Record>, k: int, credential: Uuid) {
    0 <= k <= |records| && forall i | 0 <= i < k :: records[i].enrollment.credential != credential
  }

  lemma {:induction false} MarkedAt(records: seq<Record>, k: nat, credential: Uuid, generation: nat)
    requires k < |records| && Unmarked(records, k, credential) && records[k].enrollment.credential == credential
    ensures Marked(records, credential, generation) == Some(records[k := records[k].(published := Some(generation))])
    decreases k
  {
    var marked := records[k].(published := Some(generation));
    if k == 0 {
      assert [marked] + records[1..] == records[0 := marked];
    } else {
      MarkedAt(records[1..], k - 1, credential, generation);
      assert [records[0]] + records[1..][k - 1 := marked] == records[k := marked];
    }
  }
}
