/** A request can be lost: the Server holds a credential for it that no ledger knows any more. From
    then on no Home can ever approve it. */
module IssuanceLoss {
  import opened Basics
  import opened Credentials
  import Auth = Authorization
  import History = AuthorizationHistory
  import opened Ledger
  import opened Issuance

  ghost predicate Unknown(records: seq<Record>, p: Credential) {
    forall i | 0 <= i < |records| :: records[i].enrollment.signed.payload != p
  }

  /** The Home has no record of the credential and is not about to publish it. */
  ghost predicate Forgotten(h: Home, p: Credential) {
    && Unknown(h.books.memory, p) && Unknown(h.books.file, p)
    && (h.phase.Publishing? ==> h.phase.signed.payload != p)
  }

  /** The Server holds a credential that a Home signed and every Home has forgotten. */
  ghost predicate Lost(s: System, p: Credential) {
    && Imported(s.server, p) && p.id in s.minted
    && (forall home | home in s.homes :: Forgotten(s.homes[home], p))
  }

  // ----- a lost request stays lost -----

  /** Two credentials the Server accepted for one request are one. */
  lemma OnlyThatOne(c: Auth.Config, s: System, p: Credential, q: Credential)
    requires Inv(c, s) && Imported(s.server, p) && Imported(s.server, q) && p != q
    ensures p.fingerprint != q.fingerprint
  {
    if p.fingerprint == q.fingerprint { ImportedOnce(c, s.server, p, q); }
  }

  lemma {:induction false} MarkedUnknown(records: seq<Record>, credential: Uuid, generation: nat, p: Credential)
    requires Unknown(records, p) && Marked(records, credential, generation).Some?
    ensures Unknown(Marked(records, credential, generation).value, p)
    decreases |records|
  {
    MarkedIs(records, credential, generation);
  }

  /** The ledger after an approval holds the old records and at most a newly signed one. */
  lemma InsertedUnknown(b: Books, q: Request, intent: Intent, minted: SignedCredential, outcome: StoreOutcome,
                        p: Credential)
    requires Unknown(b.memory, p) && Unknown(b.file, p) && minted.payload != p
    ensures var (b', ok) := Inserted(b, q, NewRecord(q, intent, minted), outcome);
            Unknown(b'.memory, p) && Unknown(b'.file, p)
  {
  }

  ghost predicate AllForgotten(homes: map<string, Home>, p: Credential) {
    forall home | home in homes :: Forgotten(homes[home], p)
  }

  /** Nothing about the request came back: no Home knows the credential, and no approval succeeded. */
  ghost predicate Harmless(s: System, s': System, p: Credential) {
    && AllForgotten(s'.homes, p) && s.successes <= s'.successes
    && (forall i | |s.successes| <= i < |s'.successes| :: s'.successes[i].fingerprint != p.fingerprint)
  }

  lemma OneHomeMoves(s: System, s': System, home: string, h: Home, p: Credential)
    requires AllForgotten(s.homes, p) && s'.homes == s.homes[home := h] && Forgotten(h, p)
    requires s'.successes == s.successes
    ensures Harmless(s, s', p)
  {
  }

  lemma OneSuccess(s: System, s': System, done: Success, p: Credential)
    requires AllForgotten(s'.homes, p) && s'.successes == s.successes + [done] && done.fingerprint != p.fingerprint
    ensures Harmless(s, s', p)
  {
  }

  /** A success on record is one for a credential the Server accepted, hence not for this request. */
  lemma ReuseIsHarmless(c: Auth.Config, s: System, s': System, home: string, r: Record, p: Credential)
    requires Inv(c, s) && Lost(s, p) && home in s.homes && r in s.homes[home].books.memory && r.published.Some?
    requires s' == s.(successes := s.successes + [Success(r.fingerprint, r.enrollment.signed)])
    ensures Harmless(s, s', p)
  {
    assert HomeTrue(s, s.homes[home]) && Forgotten(s.homes[home], p);
    assert RecordTrue(s, r);
    OnlyThatOne(c, s, p, r.enrollment.signed.payload);
    OneSuccess(s, s', Success(r.fingerprint, r.enrollment.signed), p);
  }

  lemma IssueIsHarmless(s: System, s': System, home: string, q: Request, intent: Intent, minted: SignedCredential,
                        outcome: StoreOutcome, p: Credential)
    requires Lost(s, p) && home in s.homes && Signs(minted, q, intent, s.minted)
    requires Find(s.homes[home].books.memory, q).Absent?
    requires s' == Approved(s, home, q, intent, minted, None, 0, outcome)
    ensures Harmless(s, s', p)
  {
    assert Forgotten(s.homes[home], p);
    InsertedUnknown(s.homes[home].books, q, intent, minted, outcome, p);
    OneHomeMoves(s, s', home, s'.homes[home], p);
  }

  lemma ApprovalIsHarmless(c: Auth.Config, s: System, s': System, a: Action, p: Credential)
    requires Inv(c, s) && Lost(s, p) && a.Approve? && a.home in s.homes
    requires Signs(a.minted, a.request, a.intent, s.minted)
    requires s' == Approved(s, a.home, a.request, a.intent, a.minted, a.view, a.now, a.outcome)
    ensures Harmless(s, s', p)
  {
    var h := s.homes[a.home];
    match Find(h.books.memory, a.request) {
      case Reused =>
      case At(r) =>
        assert HomeTrue(s, h) && Forgotten(h, p);
        FoundIsTrue(s, h.books.memory, a.request);
        if s' != s {
          if r.published.Some? {
            ReuseIsHarmless(c, s, s', a.home, r, p);
          } else {
            OneHomeMoves(s, s', a.home, s'.homes[a.home], p);
          }
        }
      case Absent => IssueIsHarmless(s, s', a.home, a.request, a.intent, a.minted, a.outcome, p);
    }
  }

  lemma AnswerForgets(h: Home, generation: nat, outcome: StoreOutcome, p: Credential)
    requires Forgotten(h, p) && h.phase.Publishing?
    ensures var (books, ok) := MarkedPublished(h.books, h.phase.credential, generation, outcome);
            Forgotten(Home(books, Idle), p)
  {
    if Marked(h.books.memory, h.phase.credential, generation).Some? {
      MarkedUnknown(h.books.memory, h.phase.credential, generation, p);
    }
  }

  lemma AnswerIsHarmless(c: Auth.Config, s: System, s': System, home: string, outcome: StoreOutcome, p: Credential)
    requires Inv(c, s) && Lost(s, p) && Enabled(s, ReplyArrives(home, outcome)) && s' == Answered(s, home, outcome)
    ensures Harmless(s, s', p)
  {
    var h := s.homes[home];
    assert HomeTrue(s, h) && Forgotten(h, p) && TokenTrue(s, h.phase.token);
    OnlyThatOne(c, s, p, h.phase.signed.payload);
    AnswerForgets(h, s.accepted[h.phase.token], outcome, p);
  }

  lemma IdleIsHarmless(s: System, s': System, home: string, books: Books, p: Credential)
    requires Lost(s, p) && home in s.homes && s' == s.(homes := s.homes[home := Home(books, Idle)])
    requires books == s.homes[home].books || books == Books(s.homes[home].books.file, s.homes[home].books.file)
    ensures Harmless(s, s', p)
  {
    assert Forgotten(s.homes[home], p);
    OneHomeMoves(s, s', home, Home(books, Idle), p);
  }

  lemma StepIsHarmless(c: Auth.Config, s: System, a: Action, p: Credential)
    requires Inv(c, s) && Lost(s, p) && Enabled(s, a)
    ensures Harmless(s, Apply(c, s, a), p)
  {
    var s' := Apply(c, s, a);
    match a
    case ServerActs(_) =>
    case ServerHandles(_, _) =>
    case Approve(_, _, _, _, _, _, _) => ApprovalIsHarmless(c, s, s', a, p);
    case ReplyArrives(home, outcome) => AnswerIsHarmless(c, s, s', home, outcome, p);
    case ApprovalFails(home) => IdleIsHarmless(s, s', home, s.homes[home].books, p);
    case HomeRestarts(home) =>
      IdleIsHarmless(s, s', home, Books(s.homes[home].books.file, s.homes[home].books.file), p);
  }

  /** Every step keeps what the Server has seen and what Homes have signed. */
  lemma StepsLater(c: Auth.Config, s: System, a: Action)
    requires Enabled(s, a)
    ensures Later(s, Apply(c, s, a))
  {
  }

  lemma LostMonotone(s: System, s': System, p: Credential)
    requires Lost(s, p) && Later(s, s') && AllForgotten(s'.homes, p)
    ensures Lost(s', p)
  {
    ImportedStays(s.server, s'.server, p);
  }

  /** From a state in which the Server holds a credential that all Homes have forgotten, no run ever
      approves the request again, at any Home and however often it is retried. */
  lemma {:induction false} LostForGood(c: Auth.Config, s: System, trace: seq<Action>, p: Credential)
    requires Inv(c, s) && Lost(s, p)
    ensures Lost(Run(c, s, trace), p) && Harmless(s, Run(c, s, trace), p)
    decreases |trace|
  {
    if trace != [] {
      if Enabled(s, trace[0]) {
        var s1 := Apply(c, s, trace[0]);
        StepKeeps(c, s, trace[0]);
        StepIsHarmless(c, s, trace[0], p);
        StepsLater(c, s, trace[0]);
        LostMonotone(s, s1, p);
        LostForGood(c, s1, trace[1..], p);
        HarmlessTwice(s, s1, Run(c, s1, trace[1..]), p);
      } else {
        LostForGood(c, s, trace[1..], p);
      }
    }
  }

  lemma HarmlessTwice(s: System, s1: System, s2: System, p: Credential)
    requires Harmless(s, s1, p) && Harmless(s1, s2, p)
    ensures Harmless(s, s2, p)
  {
    forall i | |s.successes| <= i < |s2.successes| ensures s2.successes[i].fingerprint != p.fingerprint {
      if i < |s1.successes| { assert s2.successes[i] == s1.successes[i]; }
    }
  }

  // ----- and only a lost one does -----

  ghost predicate Approves(c: Auth.Config, s: System, trace: seq<Action>, fingerprint: string) {
    var s' := Run(c, s, trace);
    exists i :: |s.successes| <= i < |s'.successes| && s'.successes[i].fingerprint == fingerprint
  }

  /** Some run from here approves the request. */
  ghost predicate Approvable(c: Auth.Config, s: System, fingerprint: string) {
    exists trace :: Approves(c, s, trace, fingerprint)
  }

  /** The Server takes the credential for genuine when this Home publishes it. */
  ghost predicate Genuine(c: Auth.Config, state: Auth.State, signed: SignedCredential, home: string) {
    var auths := Auth.Delegations(c.trust, state.endpoints);
    Trusted(auths, signed) && FindAuthority(auths, signed.authority).value.home == home
  }

  ghost predicate AllGenuine(c: Auth.Config, state: Auth.State, home: string, records: seq<Record>, p: Credential) {
    forall r | r in records && r.enrollment.signed.payload == p :: Genuine(c, state, r.enrollment.signed, home)
  }

  lemma StepFirst(c: Auth.Config, s: System, a: Action, fingerprint: string)
    requires Enabled(s, a) && Approvable(c, Apply(c, s, a), fingerprint)
    requires |s.successes| <= |Apply(c, s, a).successes|
    ensures Approvable(c, s, fingerprint)
  {
    var trace :| Approves(c, Apply(c, s, a), trace, fingerprint);
    assert ([a] + trace)[1..] == trace;
    assert Run(c, s, [a] + trace) == Run(c, Apply(c, s, a), trace);
    assert Approves(c, s, [a] + trace, fingerprint);
  }

  lemma ApprovedNow(c: Auth.Config, s: System, a: Action, fingerprint: string)
    requires Enabled(s, a) && |Apply(c, s, a).successes| == |s.successes| + 1
    requires Apply(c, s, a).successes[|s.successes|].fingerprint == fingerprint
    ensures Approvable(c, s, fingerprint)
  {
    assert [a][1..] == [];
    assert Run(c, s, [a]) == Apply(c, s, a);
    assert Approves(c, s, [a], fingerprint);
  }

  lemma {:induction false} UnusedId(ids: set<Uuid>) returns (id: Uuid)
    ensures id != NIL && forall used | used in ids :: used < id
    decreases ids
  {
    if ids == {} {
      id := 1;
    } else {
      var one :| one in ids;
      var rest := UnusedId(ids - {one});
      id := rest + one + 1;
      forall used | used in ids ensures used < id {
        assert used == one || used in ids - {one};
      }
    }
  }

  /** Some credential that could be signed for the request. */
  function Blank(id: Uuid, q: Request, intent: Intent): SignedCredential {
    Signed(intent.authority,
           Credential(id, Issuer([], [], 0), q.id, q.fingerprint, [], [], intent.scope, Validity(0, 0), false),
           Signature(0, 0))
  }

  /** The retry finds the record, whatever else is in the ledger. */
  lemma {:induction false} FirstWithFinds(records: seq<Record>, i: nat)
    requires i < |records| && RecordsOk(records)
    ensures FirstWith(records, records[i].fingerprint) == Some(records[i])
    decreases |records|
  {
    if i > 0 {
      assert Apart(records[0], records[i]);
      assert RecordsOk(records[1..]) by {
        forall a, b | 0 <= a < b < |records[1..]| ensures Apart(records[1..][a], records[1..][b]) {
          assert Apart(records[a + 1], records[b + 1]);
        }
      }
      FirstWithFinds(records[1..], i - 1);
    }
  }

  lemma RetryFinds(records: seq<Record>, r: Record)
    requires RecordsOk(records) && r in records
    ensures Find(records, r.enrollment.request) == At(r)
  {
    var i :| 0 <= i < |records| && records[i] == r;
    FirstWithFinds(records, i);
    forall k | 0 <= k < |records| ensures records[k].request == r.request ==> records[k].fingerprint == r.fingerprint {
      if k < i { assert Apart(records[k], records[i]); }
      if i < k { assert Apart(records[i], records[k]); }
    }
  }

  /** The Server runs on what its file holds, the Home is idle, and its ledger has the credential. */
  ghost predicate AtHand(c: Auth.Config, s: System, home: string, r: Record) {
    && Inv(c, s) && home in s.homes && s.homes[home].phase.Idle? && r in s.homes[home].books.memory
    && s.server.memory == Some(s.server.file) && Listed(s.server.file, r.enrollment.signed.payload)
    && Genuine(c, s.server.file, r.enrollment.signed, home)
  }

  /** The last step: the Home marks the accepted credential and returns it. */
  lemma ReplySucceeds(c: Auth.Config, s: System, home: string, r: Record)
    requires Inv(c, s) && home in s.homes && r in s.homes[home].books.memory
    requires s.homes[home].phase.Publishing? && s.homes[home].phase.token in s.accepted
    requires s.homes[home].phase.credential == r.enrollment.credential
    requires s.homes[home].phase.fingerprint == r.fingerprint
    ensures Approvable(c, s, r.fingerprint)
  {
    var h := s.homes[home];
    assert TokenTrue(s, h.phase.token);
    MarkedIs(h.books.memory, h.phase.credential, s.accepted[h.phase.token]);
    ApprovedNow(c, s, ReplyArrives(home, Stored), r.fingerprint);
  }

  /** The step before: the Server recognises the credential it holds. */
  lemma PublishSucceeds(c: Auth.Config, s: System, home: string, r: Record)
    requires Inv(c, s) && home in s.homes && r in s.homes[home].books.memory
    requires s.server.memory == Some(s.server.file) && Listed(s.server.file, r.enrollment.signed.payload)
    requires Genuine(c, s.server.file, r.enrollment.signed, home)
    requires var phase := s.homes[home].phase;
             && phase.Publishing? && phase.token < |s.messages|
             && s.messages[phase.token] == Message(home, r.enrollment.signed)
             && phase.credential == r.enrollment.credential && phase.fingerprint == r.fingerprint
    ensures Approvable(c, s, r.fingerprint)
  {
    var token := s.homes[home].phase.token;
    var payload := r.enrollment.signed.payload;
    RepeatsAreRecognised(c, s.server.file, payload, r.enrollment.signed, home);
    var a := ServerHandles(token, Stored);
    StepKeeps(c, s, a);
    ReplySucceeds(c, Apply(c, s, a), home, r);
    StepFirst(c, s, a, r.fingerprint);
  }

  /** The first step of the retry finds the record, and returns or publishes its credential. */
  lemma RetrySucceeds(c: Auth.Config, s: System, home: string, r: Record)
    requires AtHand(c, s, home, r)
    ensures Approvable(c, s, r.fingerprint)
  {
    var books := s.homes[home].books;
    assert HomeTrue(s, s.homes[home]);
    RetryFinds(books.memory, r);
    var id := UnusedId(s.minted.Keys);
    var q := r.enrollment.request;
    var a := Approve(home, q, r.intent, Blank(id, q, r.intent), None, 0, Stored);
    assert RecordTrue(s, r) && RecordOk(r);
    if r.published.Some? {
      ApprovedNow(c, s, a, r.fingerprint);
    } else {
      assert Apply(c, s, a) == Sends(s, home, books, r);
      StepKeeps(c, s, a);
      PublishSucceeds(c, Sends(s, home, books, r), home, r);
      StepFirst(c, s, a, r.fingerprint);
    }
  }

  /** The Server starts and runs on its file. */
  lemma ServerStartsUp(c: Auth.Config, s: System, home: string, r: Record)
    requires Inv(c, s) && home in s.homes && s.homes[home].phase.Idle? && r in s.homes[home].books.memory
    requires s.server.memory.None? && Listed(s.server.file, r.enrollment.signed.payload)
    requires Genuine(c, s.server.file, r.enrollment.signed, home)
    ensures Approvable(c, s, r.fingerprint)
  {
    var restart := ServerActs(History.Restart);
    StepKeeps(c, s, restart);
    RetrySucceeds(c, Apply(c, s, restart), home, r);
    StepFirst(c, s, restart, r.fingerprint);
  }

  /** The Server is restarted, so that it runs on its file. */
  lemma ServerReloads(c: Auth.Config, s: System, home: string, r: Record)
    requires Inv(c, s) && home in s.homes && s.homes[home].phase.Idle? && r in s.homes[home].books.memory
    requires Imported(s.server, r.enrollment.signed.payload) && Genuine(c, s.server.file, r.enrollment.signed, home)
    ensures Approvable(c, s, r.fingerprint)
  {
    var crash := ServerActs(History.Crash);
    ImportedLasts(c, s.server, r.enrollment.signed.payload);
    StepKeeps(c, s, crash);
    ServerStartsUp(c, Apply(c, s, crash), home, r);
    StepFirst(c, s, crash, r.fingerprint);
  }

  /** A Home that knows the credential, in memory or in its file, can still approve the request. */
  lemma KnownIsApprovable(c: Auth.Config, s: System, home: string, r: Record)
    requires Inv(c, s) && home in s.homes && (r in s.homes[home].books.memory || r in s.homes[home].books.file)
    requires Imported(s.server, r.enrollment.signed.payload) && Genuine(c, s.server.file, r.enrollment.signed, home)
    ensures Approvable(c, s, r.fingerprint)
  {
    assert HomeTrue(s, s.homes[home]);
    var a := if r in s.homes[home].books.memory then ApprovalFails(home) else HomeRestarts(home);
    StepKeeps(c, s, a);
    ServerReloads(c, Apply(c, s, a), home, r);
    StepFirst(c, s, a, r.fingerprint);
  }

  /** The Home's ledger, in memory or on file, has the credential. */
  ghost predicate Knows(h: Home, r: Record, p: Credential) {
    (r in h.books.memory || r in h.books.file) && r.enrollment.signed.payload == p
  }

  lemma KnownThere(h: Home, p: Credential)
    requires !Forgotten(h, p)
    requires h.phase.Publishing? ==>
               exists i :: 0 <= i < |h.books.memory| && h.books.memory[i].enrollment.signed == h.phase.signed
    ensures exists r :: Knows(h, r, p)
  {
    if !Unknown(h.books.memory, p) {
      var i :| 0 <= i < |h.books.memory| && h.books.memory[i].enrollment.signed.payload == p;
      assert Knows(h, h.books.memory[i], p);
    } else {
      var i :| 0 <= i < |h.books.file| && h.books.file[i].enrollment.signed.payload == p;
      assert Knows(h, h.books.file[i], p);
    }
  }

  lemma KnownSomewhere(c: Auth.Config, s: System, p: Credential)
    requires Inv(c, s) && Imported(s.server, p) && p.id in s.minted && !Lost(s, p)
    ensures exists home, r :: home in s.homes && Knows(s.homes[home], r, p)
  {
    var home :| home in s.homes && !Forgotten(s.homes[home], p);
    assert HomeTrue(s, s.homes[home]);
    KnownThere(s.homes[home], p);
  }

  /** Once the Server holds a credential that a Home signed for a request, the request can be
      approved again if and only if some Home still has that credential in its ledger. */
  lemma ApprovableExactlyWhenKnown(c: Auth.Config, s: System, p: Credential)
    requires Inv(c, s) && Imported(s.server, p) && p.id in s.minted
    requires forall home | home in s.homes ::
               && AllGenuine(c, s.server.file, home, s.homes[home].books.memory, p)
               && AllGenuine(c, s.server.file, home, s.homes[home].books.file, p)
    ensures Approvable(c, s, p.fingerprint) <==> !Lost(s, p)
  {
    if Lost(s, p) {
      forall trace ensures !Approves(c, s, trace, p.fingerprint) {
        LostForGood(c, s, trace, p);
      }
    } else {
      KnownSomewhere(c, s, p);
      var home, r :| home in s.homes && Knows(s.homes[home], r, p);
      KnownRecord(s, home, r);
      KnownIsApprovable(c, s, home, r);
    }
  }

  lemma KnownRecord(s: System, home: string, r: Record)
    requires home in s.homes && HomeTrue(s, s.homes[home])
    requires r in s.homes[home].books.memory || r in s.homes[home].books.file
    ensures RecordTrue(s, r)
  {
  }

  // ----- it happens -----

  const FP: string := "ffffffffffffffffffffffffffffffffffffffffffffffffffffffffffffffff"
  const ASKED: Request := Request(1, FP, 0)
  const WANTED: Intent := Intent("a", HomeScope("h"), 1)
  const ISSUED: Credential :=
    Credential(1, Issuer("d", "a", 1), 1, FP, "t", "k", HomeScope("h"), Validity(0, 9), true)
  const FIRST: SignedCredential := Signed("a", ISSUED, Signature(7, 0))
  const EMPTY: Auth.State := Auth.State(1, [], [], [], {}, map[])

  function Size(s: Auth.State): nat {
    |s.credentials|
  }

  function Deployment(): Auth.Config {
    Auth.Config(Trust("d", Validity(0, 9), [Authority(false, "a", 1, "h", 7, true)], map[], {}), Size)
  }

  function Holding(): Auth.State {
    History.WithCredential(EMPTY, FIRST)
  }

  lemma FirstIsAccepted()
    ensures History.Good(Deployment(), EMPTY)
    ensures Auth.ImportCredential(Deployment(), EMPTY, FIRST, "h") == Auth.Proposed(Holding())
  {
    var c := Deployment();
    assert AuthoritiesOk(c.trust.authorities);
    History.FreshStateLoads(c);
    assert FindAuthority(c.trust.authorities, "a") == Some(c.trust.authorities[0]);
    assert Auth.Delegations(c.trust, EMPTY.endpoints) == c.trust.authorities;
    History.CredentialAcceptedExactlyWhen(c, EMPTY, FIRST, "h");
  }

  /** The Home after the ledger write failed, after its retry went out, and after its restart. */
  const NOTED: Record := NewRecord(ASKED, WANTED, FIRST)

  function Stage(server: History.World, h: Home, messages: seq<Message>, accepted: map<nat, nat>): System {
    System(server, map["h" := h], messages, accepted, map[1 := FIRST], [])
  }

  const RUNNING: History.World := History.World(EMPTY, Some(EMPTY), [EMPTY])

  function AfterFailedWrite(): System {
    Stage(RUNNING, Home(Books([NOTED], []), Idle), [], map[])
  }

  function AfterRetry(): System {
    Stage(RUNNING, Home(Books([NOTED], []), Publishing(0, FP, FIRST, 1)), [Message("h", FIRST)], map[])
  }

  function AfterImport(): System {
    Stage(History.World(Holding(), Some(Holding()), [EMPTY, Holding()]),
          Home(Books([NOTED], []), Publishing(0, FP, FIRST, 1)),
          [Message("h", FIRST)], map[0 := 2])
  }

  function AfterHomeRestart(): System {
    Stage(AfterImport().server, Home(Books([], []), Idle), [Message("h", FIRST)], map[0 := 2])
  }

  ghost function Begin(): System {
    Initial(EMPTY, {"h"})
  }

  ghost predicate Goes(s: System, a: Action, s': System) {
    Enabled(s, a) && Apply(Deployment(), s, a) == s'
  }

  lemma ServerStarts()
    ensures Goes(Begin(), ServerActs(History.Restart), Begin().(server := RUNNING))
  {
    FirstIsAccepted();
    assert [] + [EMPTY] == [EMPTY];
  }

  lemma WriteFails()
    ensures Goes(Begin().(server := RUNNING), Approve("h", ASKED, WANTED, FIRST, None, 0, Kept), AfterFailedWrite())
  {
    var s := Begin().(server := RUNNING);
    assert |FP| == 64;
    assert RecordOk(NOTED);
    assert Find([], ASKED).Absent?;
    assert [] + [NOTED] == [NOTED];
    assert s.homes["h" := Home(Books([NOTED], []), Idle)] == AfterFailedWrite().homes;
    assert s.minted[1 := FIRST] == AfterFailedWrite().minted;
  }

  lemma RetryGoesOut()
    ensures Goes(AfterFailedWrite(), Approve("h", ASKED, WANTED, Blank(2, ASKED, WANTED), None, 0, Stored),
                 AfterRetry())
  {
    var s := AfterFailedWrite();
    assert FirstWith([NOTED], FP) == Some(NOTED);
    assert Find([NOTED], ASKED) == At(NOTED);
    assert [] + [Message("h", FIRST)] == [Message("h", FIRST)];
    assert s.homes["h" := AfterRetry().homes["h"]] == AfterRetry().homes;
  }

  lemma ServerImports()
    ensures Goes(AfterRetry(), ServerHandles(0, Stored), AfterImport())
  {
    FirstIsAccepted();
    assert [EMPTY] + [Holding()] == [EMPTY, Holding()];
  }

  lemma HomeForgets()
    ensures Goes(AfterImport(), HomeRestarts("h"), AfterHomeRestart())
  {
    assert AfterImport().homes["h" := Home(Books([], []), Idle)] == AfterHomeRestart().homes;
  }

  lemma {:induction false} RunAppend(c: Auth.Config, s: System, trace: seq<Action>, a: Action)
    requires Enabled(Run(c, s, trace), a)
    ensures Run(c, s, trace + [a]) == Apply(c, Run(c, s, trace), a)
    decreases |trace|
  {
    if trace == [] {
      assert trace + [a] == [a] && [a][1..] == [];
    } else {
      assert (trace + [a])[1..] == trace[1..] + [a];
      RunAppend(c, if Enabled(s, trace[0]) then Apply(c, s, trace[0]) else s, trace[1..], a);
    }
  }

  ghost predicate Arrives(s: System) {
    exists trace :: After(Deployment(), EMPTY, {"h"}, trace) == s
  }

  lemma Then(s: System, a: Action, s': System)
    requires Arrives(s) && Goes(s, a, s')
    ensures Arrives(s')
  {
    var trace :| After(Deployment(), EMPTY, {"h"}, trace) == s;
    RunAppend(Deployment(), Begin(), trace, a);
    assert After(Deployment(), EMPTY, {"h"}, trace + [a]) == s';
  }

  lemma Starts()
    ensures Arrives(Begin())
  {
    assert After(Deployment(), EMPTY, {"h"}, []) == Begin();
  }

  lemma LostThere()
    ensures Lost(AfterHomeRestart(), FIRST.payload)
  {
    assert Holding().credentials[0] == FIRST;
    assert Listed(AfterHomeRestart().server.seen[1], FIRST.payload);
  }

  /** One ledger write that fails with the old file in place, a retry, and a Home restart before the
      reply arrives: the request is lost, though the Server lost nothing and no message was lost. */
  lemma RequestCanBeLost()
    ensures exists s :: Arrives(s) && Lost(s, FIRST.payload) && !Approvable(Deployment(), s, FP)
  {
    Starts();
    ServerStarts();
    Then(Begin(), ServerActs(History.Restart), Begin().(server := RUNNING));
    WriteFails();
    Then(Begin().(server := RUNNING), Approve("h", ASKED, WANTED, FIRST, None, 0, Kept), AfterFailedWrite());
    RetryGoesOut();
    Then(AfterFailedWrite(), Approve("h", ASKED, WANTED, Blank(2, ASKED, WANTED), None, 0, Stored), AfterRetry());
    ServerImports();
    Then(AfterRetry(), ServerHandles(0, Stored), AfterImport());
    HomeForgets();
    Then(AfterImport(), HomeRestarts("h"), AfterHomeRestart());
    LostThere();
    NeverAgain(AfterHomeRestart());
  }

  lemma NeverAgain(s: System)
    requires Arrives(s) && Lost(s, FIRST.payload)
    ensures !Approvable(Deployment(), s, FP)
  {
    var trace :| After(Deployment(), EMPTY, {"h"}, trace) == s;
    FirstIsAccepted();
    AfterKeeps(Deployment(), EMPTY, {"h"}, trace);
    forall more ensures !Approves(Deployment(), s, more, FP) {
      LostForGood(Deployment(), s, more, FIRST.payload);
    }
  }
}
