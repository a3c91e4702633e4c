/** Homes approving enrollment requests against one Server: approvals and retries, publish
    messages and replies lost, late or repeated, ledger writes failing, Homes and Server crashing. */
module Issuance {
  import opened Basics
  import opened Credentials
  import Auth = Authorization
  import History = AuthorizationHistory
  import opened Ledger

  /** A Home handles one approval at a time: its ledger is locked until the approval ends. */
  datatype Phase = Idle | Publishing(token: nat, fingerprint: string, signed: SignedCredential, credential: Uuid)

  datatype Home = Home(books: Books, phase: Phase)

  /** A publish message, found by its token; it may be handled at any time, or never. */
  datatype Message = Message(home: string, signed: SignedCredential)

  datatype Success = Success(fingerprint: string, signed: SignedCredential)

  /** `accepted` holds the generation of each positive reply; `minted` every credential
      any Home has signed; `successes` every approval that returned a credential. */
  datatype System = System(
    server: History.World,
    homes: map<string, Home>,
    messages: seq<Message>,
    accepted: map<nat, nat>,
    minted: map<Uuid, SignedCredential>,
    successes: seq<Success>)

  datatype Action =
    | ServerActs(step: History.Action)
    | ServerHandles(token: nat, outcome: StoreOutcome)
    | Approve(home: string, request: Request, intent: Intent, minted: SignedCredential, view: Option<Auth.State>,
              now: nat, outcome: StoreOutcome)
    | ReplyArrives(home: string, outcome: StoreOutcome)
    | ApprovalFails(home: string)
    | HomeRestarts(home: string)

  /** What signing a request produces: a credential with an id never drawn before. */
  predicate Signs(minted: SignedCredential, q: Request, intent: Intent, drawn: map<Uuid, SignedCredential>) {
    && minted.payload.id != NIL && minted.payload.id !in drawn && minted.payload.request == q.id
    && minted.payload.fingerprint == q.fingerprint && minted.authority == intent.authority
    && minted.payload.scope == intent.scope
  }

  function NewRecord(q: Request, intent: Intent, minted: SignedCredential): Record {
    Record(q.id, q.fingerprint, intent, Enrollment(minted.payload.id, intent.authority, intent.scope, q, minted), None)
  }

  /** The Home knows the credential and knows it to be no longer active. */
  predicate KnownInactive(view: Option<Auth.State>, credential: Uuid, now: nat) {
    view.Some? && Auth.HasCredential(view.value.credentials, credential) && !Auth.IsActive(view.value, credential, now)
  }

  function Sends(s: System, home: string, books: Books, r: Record): System {
    var phase := Publishing(|s.messages|, r.fingerprint, r.enrollment.signed, r.enrollment.credential);
    s.(homes := s.homes[home := Home(books, phase)],
       messages := s.messages + [Message(home, r.enrollment.signed)])
  }

  function Approved(s: System, home: string, q: Request, intent: Intent, minted: SignedCredential,
                    view: Option<Auth.State>, now: nat, outcome: StoreOutcome): System
    requires home in s.homes
  {
    var books := s.homes[home].books;
    match Find(books.memory, q)
    case Reused => s
    case At(r) =>
      if r.intent != intent || r.enrollment.request != q || KnownInactive(view, r.enrollment.credential, now) then s
      else if r.published.Some? then s.(successes := s.successes + [Success(r.fingerprint, r.enrollment.signed)])
      else Sends(s, home, books, r)
    case Absent =>
      var r := NewRecord(q, intent, minted);
      var (books', ok) := Inserted(books, q, r, outcome);
      var drawn := s.(minted := s.minted[minted.payload.id := minted]);
      if ok then Sends(drawn, home, books', r) else drawn.(homes := s.homes[home := Home(books', Idle)])
  }

  function Handled(c: Auth.Config, s: System, token: nat, outcome: StoreOutcome): System
    requires token < |s.messages| && s.server.memory.Some?
  {
    var m := s.messages[token];
    var before := s.server.memory.value;
    var (st, answer) :=
      Auth.Settle(Auth.Store(before, s.server.file), Auth.ImportCredential(c, before, m.signed, m.home), outcome);
    s.(server := History.Adopted(s.server, st, answer),
       accepted := if answer.Failed? then s.accepted else s.accepted[token := st.memory.generation])
  }

  function Answered(s: System, home: string, outcome: StoreOutcome): System
    requires home in s.homes && s.homes[home].phase.Publishing? && s.homes[home].phase.token in s.accepted
  {
    var h := s.homes[home];
    var (books, ok) := MarkedPublished(h.books, h.phase.credential, s.accepted[h.phase.token], outcome);
    s.(homes := s.homes[home := Home(books, Idle)],
       successes := if ok then s.successes + [Success(h.phase.fingerprint, h.phase.signed)] else s.successes)
  }

  ghost predicate Enabled(s: System, a: Action) {
    match a
    case ServerActs(_) => true
    case ServerHandles(token, _) => token < |s.messages| && s.server.memory.Some?
    case Approve(home, request, intent, minted, _, _, _) =>
      home in s.homes && s.homes[home].phase.Idle? && Signs(minted, request, intent, s.minted)
    case ReplyArrives(home, _) =>
      home in s.homes && s.homes[home].phase.Publishing? && s.homes[home].phase.token in s.accepted
    case ApprovalFails(home) => home in s.homes
    case HomeRestarts(home) => home in s.homes && RecordsOk(s.homes[home].books.file)
  }

  ghost function Apply(c: Auth.Config, s: System, a: Action): System
    requires Enabled(s, a)
  {
    match a
    case ServerActs(step) => s.(server := History.Apply(c, s.server, step))
    case ServerHandles(token, outcome) => Handled(c, s, token, outcome)
    case Approve(home, request, intent, minted, view, now, outcome) =>
      Approved(s, home, request, intent, minted, view, now, outcome)
    case ReplyArrives(home, outcome) => Answered(s, home, outcome)
    case ApprovalFails(home) => s.(homes := s.homes[home := s.homes[home].(phase := Idle)])
    case HomeRestarts(home) =>
      var file := s.homes[home].books.file;
      s.(homes := s.homes[home := Home(Books(file, file), Idle)])
  }

  ghost function Run(c: Auth.Config, s: System, trace: seq<Action>): System
    decreases |trace|
  {
    if trace == [] then s else Run(c, if Enabled(s, trace[0]) then Apply(c, s, trace[0]) else s, trace[1..])
  }

  // ----- invariant -----

  predicate Listed(state: Auth.State, p: Credential) {
    exists i :: 0 <= i < |state.credentials| && state.credentials[i].payload == p
  }

  /** The Server has held the credential in memory at some time, hence holds it for good. */
  ghost predicate Imported(w: History.World, p: Credential) {
    exists k :: 0 <= k < |w.seen| && Listed(w.seen[k], p)
  }

  /** The one credential ever signed under its id. */
  ghost predicate Minted(s: System, signed: SignedCredential) {
    signed.payload.id in s.minted && s.minted[signed.payload.id] == signed
  }

  ghost predicate RecordTrue(s: System, r: Record) {
    && r.enrollment.signed.payload.fingerprint == r.fingerprint
    && Minted(s, r.enrollment.signed) && r.enrollment.credential == r.enrollment.signed.payload.id
    && (r.published.Some? ==> Imported(s.server, r.enrollment.signed.payload))
  }

  ghost predicate RecordsTrue(s: System, records: seq<Record>) {
    RecordsOk(records) && forall i | 0 <= i < |records| :: RecordTrue(s, records[i])
  }

  /** A pending publication is the message its token names, for a record of the ledger. */
  ghost predicate PhaseTrue(s: System, h: Home) {
    h.phase.Publishing? ==>
      && h.phase.token < |s.messages| && s.messages[h.phase.token].signed == h.phase.signed
      && h.phase.signed.payload.fingerprint == h.phase.fingerprint
      && exists i :: 0 <= i < |h.books.memory| && h.books.memory[i].enrollment.credential == h.phase.credential
                     && h.books.memory[i].enrollment.signed == h.phase.signed
  }

  ghost predicate HomeTrue(s: System, h: Home) {
    RecordsTrue(s, h.books.memory) && RecordsTrue(s, h.books.file) && PhaseTrue(s, h)
  }

  ghost predicate TokenTrue(s: System, token: nat) {
    token in s.accepted ==>
      token < |s.messages| && s.accepted[token] > 0 && Imported(s.server, s.messages[token].signed.payload)
  }

  ghost predicate SuccessTrue(s: System, done: Success) {
    done.signed.payload.fingerprint == done.fingerprint && Minted(s, done.signed)
    && Imported(s.server, done.signed.payload)
  }

  ghost predicate Inv(c: Auth.Config, s: System) {
    && History.Inv(c, s.server)
    && (forall home | home in s.homes :: HomeTrue(s, s.homes[home]))
    && (forall token :: TokenTrue(s, token))
    && (forall i | 0 <= i < |s.successes| :: SuccessTrue(s, s.successes[i]))
  }

  /** `s'` differs from `s` only by what keeps every recorded fact true. */
  ghost predicate Later(s: System, s': System) {
    s.server.seen <= s'.server.seen && s.messages <= s'.messages
    && forall id | id in s.minted :: id in s'.minted && s'.minted[id] == s.minted[id]
  }

  lemma ImportedStays(w: History.World, w': History.World, p: Credential)
    requires w.seen <= w'.seen && Imported(w, p)
    ensures Imported(w', p)
  {
    var k :| 0 <= k < |w.seen| && Listed(w.seen[k], p);
    assert w'.seen[k] == w.seen[k];
  }

  lemma RecordsStay(s: System, s': System, records: seq<Record>)
    requires Later(s, s') && RecordsTrue(s, records)
    ensures RecordsTrue(s', records)
  {
    forall i | 0 <= i < |records| ensures RecordTrue(s', records[i]) {
      assert RecordTrue(s, records[i]);
      if records[i].published.Some? {
        ImportedStays(s.server, s'.server, records[i].enrollment.signed.payload);
      }
    }
  }

  lemma HomeStays(s: System, s': System, h: Home)
    requires Later(s, s') && HomeTrue(s, h)
    ensures HomeTrue(s', h)
  {
    RecordsStay(s, s', h.books.memory);
    RecordsStay(s, s', h.books.file);
  }

  lemma TokenStays(s: System, s': System, token: nat)
    requires Later(s, s') && TokenTrue(s, token)
    requires token in s'.accepted ==> token in s.accepted && s'.accepted[token] == s.accepted[token]
    ensures TokenTrue(s', token)
  {
    if token in s.accepted {
      ImportedStays(s.server, s'.server, s.messages[token].signed.payload);
    }
  }

  lemma SuccessStays(s: System, s': System, done: Success)
    requires Later(s, s') && SuccessTrue(s, done)
    ensures SuccessTrue(s', done)
  {
    ImportedStays(s.server, s'.server, done.signed.payload);
  }

  /** One Home changes; the rest of the invariant carries over. */
  lemma HomeMoves(c: Auth.Config, s: System, s': System, home: string, h: Home)
    requires Inv(c, s) && Later(s, s') && s'.server == s.server && s'.accepted == s.accepted
    requires s'.homes == s.homes[home := h] && HomeTrue(s', h)
    requires s'.successes == s.successes ||
             (exists done :: s'.successes == s.successes + [done] && SuccessTrue(s', done))
    ensures Inv(c, s')
  {
    forall other | other in s'.homes ensures HomeTrue(s', s'.homes[other]) {
      if other != home { HomeStays(s, s', s.homes[other]); }
    }
    forall token ensures TokenTrue(s', token) {
      assert TokenTrue(s, token);
      TokenStays(s, s', token);
    }
    forall i | 0 <= i < |s'.successes| ensures SuccessTrue(s', s'.successes[i]) {
      if i < |s.successes| {
        assert s'.successes[i] == s.successes[i];
        SuccessStays(s, s', s.successes[i]);
      }
    }
  }

  /** The Server moves; every Home stays as it is. */
  lemma ServerMoves(c: Auth.Config, s: System, s': System)
    requires Inv(c, s) && Later(s, s') && History.Inv(c, s'.server)
    requires s'.homes == s.homes && s'.successes == s.successes && s'.messages == s.messages
    requires forall token ::
               token in s'.accepted && !(token in s.accepted && s'.accepted[token] == s.accepted[token]) ==>
                 TokenTrue(s', token)
    ensures Inv(c, s')
  {
    forall home | home in s'.homes ensures HomeTrue(s', s'.homes[home]) {
      HomeStays(s, s', s.homes[home]);
    }
    forall token ensures TokenTrue(s', token) {
      assert TokenTrue(s, token);
      if token in s'.accepted && token in s.accepted && s'.accepted[token] == s.accepted[token] {
        TokenStays(s, s', token);
      }
    }
    forall i | 0 <= i < |s'.successes| ensures SuccessTrue(s', s'.successes[i]) {
      SuccessStays(s, s', s.successes[i]);
    }
  }

  /** An import that does not fail leaves the credential in memory. */
  lemma AcceptedIsListed(c: Auth.Config, before: Auth.State, file: Auth.State, signed: SignedCredential, home: string,
                         outcome: StoreOutcome)
    ensures var (st, answer) := Auth.Settle(Auth.Store(before, file), Auth.ImportCredential(c, before, signed, home),
                                            outcome);
            !answer.Failed? ==> Listed(st.memory, signed.payload)
  {
    var auths := Auth.Delegations(c.trust, before.endpoints);
    var v := Auth.ImportCredential(c, before, signed, home);
    if v.Unchanged? {
      History.FoundIsListed(auths, before.credentials, signed.payload.id);
    } else if v.Proposed? {
      assert v.next.credentials[|before.credentials|] == signed;
    }
  }

  lemma HandledIs(c: Auth.Config, s: System, token: nat, outcome: StoreOutcome)
    requires token < |s.messages| && s.server.memory.Some?
    ensures var m := s.messages[token];
            var s' := Handled(c, s, token, outcome);
            && s'.server == History.Apply(c, s.server, History.Perform(History.Credential(m.signed, m.home), outcome))
            && s.server.seen <= s'.server.seen && s'.server.memory.Some?
            && (s'.accepted != s.accepted ==>
                  Listed(s'.server.memory.value, m.signed.payload)
                  && s'.accepted == s.accepted[token := s'.server.memory.value.generation])
  {
    AcceptedIsListed(c, s.server.memory.value, s.server.file, s.messages[token].signed, s.messages[token].home,
                     outcome);
  }

  /** What memory lists now has been imported, and its generation is positive. */
  lemma ListedIsImported(c: Auth.Config, w: History.World, p: Credential)
    requires History.Inv(c, w) && w.memory.Some? && Listed(w.memory.value, p)
    ensures Imported(w, p) && w.memory.value.generation > 0
  {
    var k :| 0 <= k < |w.seen| && w.seen[k] == w.memory.value;
    assert History.Good(c, w.seen[k]);
  }

  lemma HandledKeeps(c: Auth.Config, s: System, token: nat, outcome: StoreOutcome)
    requires Inv(c, s) && token < |s.messages| && s.server.memory.Some?
    ensures Inv(c, Handled(c, s, token, outcome))
  {
    var m := s.messages[token];
    var s' := Handled(c, s, token, outcome);
    HandledIs(c, s, token, outcome);
    History.PerformKeeps(c, s.server, History.Credential(m.signed, m.home), outcome);
    if s'.accepted != s.accepted {
      ListedIsImported(c, s'.server, m.signed.payload);
      assert TokenTrue(s', token);
    }
    ServerMoves(c, s, s');
  }

  lemma ActedKeeps(c: Auth.Config, s: System, step: History.Action)
    requires Inv(c, s)
    ensures Inv(c, s.(server := History.Apply(c, s.server, step)))
  {
    History.RunKeeps(c, s.server, [step]);
    assert History.Run(c, s.server, [step]) == History.Apply(c, s.server, step);
    ServerMoves(c, s, s.(server := History.Apply(c, s.server, step)));
  }

  /** A record found again is true, whatever is done with it. */
  lemma FoundIsTrue(s: System, records: seq<Record>, q: Request)
    requires RecordsTrue(s, records) && Find(records, q).At?
    ensures Find(records, q).record in records && RecordTrue(s, Find(records, q).record)
  {
    FirstWithIs(records, q.fingerprint);
  }

  /** The new record shares nothing with the old ones. */
  lemma NewRecordTrue(s: System, s': System, records: seq<Record>, q: Request, intent: Intent, minted: SignedCredential)
    requires RecordsTrue(s, records) && Find(records, q).Absent? && Signs(minted, q, intent, s.minted)
    requires RecordOk(NewRecord(q, intent, minted)) && Later(s, s') && Minted(s', minted)
    ensures RecordsTrue(s', records + [NewRecord(q, intent, minted)])
  {
    var r := NewRecord(q, intent, minted);
    FirstWithIs(records, q.fingerprint);
    RecordsStay(s, s', records);
    forall i | 0 <= i < |records| ensures Apart(records[i], r) {
      assert RecordTrue(s, records[i]);
    }
    assert RecordTrue(s', r);
  }

  lemma ReusedKeeps(c: Auth.Config, s: System, s': System, home: string, r: Record)
    requires Inv(c, s) && home in s.homes && r in s.homes[home].books.memory && r.published.Some?
    requires s' == s.(successes := s.successes + [Success(r.fingerprint, r.enrollment.signed)])
    ensures Inv(c, s')
  {
    var h := s.homes[home];
    assert HomeTrue(s, h);
    assert RecordTrue(s, r);
    HomeStays(s, s', h);
    assert s'.homes == s.homes[home := h];
    assert SuccessTrue(s', Success(r.fingerprint, r.enrollment.signed));
    HomeMoves(c, s, s', home, h);
  }

  /** A record of the ledger is sent to the Server. */
  lemma SendsKeeps(c: Auth.Config, s: System, s': System, home: string, books: Books, r: Record)
    requires Inv(c, s) && home in s.homes && RecordsTrue(s, books.memory) && RecordsTrue(s, books.file)
    requires r in books.memory
    requires s' == Sends(s, home, books, r)
    ensures Inv(c, s')
  {
    var h := s'.homes[home];
    RecordsStay(s, s', books.memory);
    RecordsStay(s, s', books.file);
    assert RecordTrue(s, r);
    assert PhaseTrue(s', h) by {
      var i :| 0 <= i < |books.memory| && books.memory[i] == r;
      assert h.books.memory[i].enrollment.signed == h.phase.signed;
    }
    HomeMoves(c, s, s', home, h);
  }

  /** Drawing a credential id changes nothing else. */
  lemma DrawnKeeps(c: Auth.Config, s: System, minted: SignedCredential, home: string)
    requires Inv(c, s) && home in s.homes && minted.payload.id !in s.minted
    ensures Inv(c, s.(minted := s.minted[minted.payload.id := minted]))
  {
    var s' := s.(minted := s.minted[minted.payload.id := minted]);
    HomeStays(s, s', s.homes[home]);
    assert s'.homes == s.homes[home := s.homes[home]];
    HomeMoves(c, s, s', home, s.homes[home]);
  }

  lemma InsertedKeeps(s: System, books: Books, q: Request, intent: Intent, minted: SignedCredential,
                      outcome: StoreOutcome)
    requires RecordsTrue(s, books.memory) && RecordsTrue(s, books.file)
    requires Find(books.memory, q).Absent? && Signs(minted, q, intent, s.minted)
    ensures var r := NewRecord(q, intent, minted);
            var drawn := s.(minted := s.minted[minted.payload.id := minted]);
            var (books', ok) := Inserted(books, q, r, outcome);
            RecordsTrue(drawn, books'.memory) && RecordsTrue(drawn, books'.file) && (ok ==> r in books'.memory)
  {
    var r := NewRecord(q, intent, minted);
    var drawn := s.(minted := s.minted[minted.payload.id := minted]);
    RecordsStay(s, drawn, books.memory);
    RecordsStay(s, drawn, books.file);
    if RecordOk(r) { NewRecordTrue(s, drawn, books.memory, q, intent, minted); }
  }

  lemma UnsentKeeps(c: Auth.Config, s: System, s': System, home: string, books: Books)
    requires Inv(c, s) && home in s.homes && RecordsTrue(s, books.memory) && RecordsTrue(s, books.file)
    requires s' == s.(homes := s.homes[home := Home(books, Idle)])
    ensures Inv(c, s')
  {
    RecordsStay(s, s', books.memory);
    RecordsStay(s, s', books.file);
    HomeMoves(c, s, s', home, Home(books, Idle));
  }

  lemma IssuedKeeps(c: Auth.Config, s: System, s': System, home: string, q: Request, intent: Intent,
                    minted: SignedCredential, outcome: StoreOutcome)
    requires Inv(c, s) && home in s.homes && Signs(minted, q, intent, s.minted)
    requires Find(s.homes[home].books.memory, q).Absent?
    requires var r := NewRecord(q, intent, minted);
             var (books', ok) := Inserted(s.homes[home].books, q, r, outcome);
             var drawn := s.(minted := s.minted[minted.payload.id := minted]);
             s' == if ok then Sends(drawn, home, books', r) else drawn.(homes := s.homes[home := Home(books', Idle)])
    ensures Inv(c, s')
  {
    var books := s.homes[home].books;
    var r := NewRecord(q, intent, minted);
    var drawn := s.(minted := s.minted[minted.payload.id := minted]);
    var (books', ok) := Inserted(books, q, r, outcome);
    assert HomeTrue(s, s.homes[home]);
    InsertedKeeps(s, books, q, intent, minted, outcome);
    DrawnKeeps(c, s, minted, home);
    if ok {
      SendsKeeps(c, drawn, s', home, books', r);
    } else {
      UnsentKeeps(c, drawn, s', home, books');
    }
  }

  lemma ApprovedKeeps(c: Auth.Config, s: System, s': System, home: string, q: Request, intent: Intent,
                      minted: SignedCredential, view: Option<Auth.State>, now: nat, outcome: StoreOutcome)
    requires Inv(c, s) && home in s.homes && Signs(minted, q, intent, s.minted)
    requires s' == Approved(s, home, q, intent, minted, view, now, outcome)
    ensures Inv(c, s')
  {
    var books := s.homes[home].books;
    assert HomeTrue(s, s.homes[home]);
    match Find(books.memory, q) {
      case Reused =>
      case At(r) =>
        FoundIsTrue(s, books.memory, q);
        if s' != s {
          if r.published.Some? { ReusedKeeps(c, s, s', home, r); } else { SendsKeeps(c, s, s', home, books, r); }
        }
      case Absent => IssuedKeeps(c, s, s', home, q, intent, minted, outcome);
    }
  }

  /** Marking the published record keeps the ledger true. */
  lemma MarkedTrue(s: System, records: seq<Record>, r: Record, generation: nat)
    requires RecordsTrue(s, records) && r in records && generation > 0
    requires Imported(s.server, r.enrollment.signed.payload)
    ensures Marked(records, r.enrollment.credential, generation).Some?
    ensures RecordsTrue(s, Marked(records, r.enrollment.credential, generation).value)
  {
    var k :| 0 <= k < |records| && records[k] == r;
    MarkedAt(records, k, r.enrollment.credential, generation);
    var marked := records[k].(published := Some(generation));
    assert RecordOk(marked) && RecordTrue(s, marked) by { assert RecordTrue(s, records[k]); }
    var updated := records[k := marked];
    forall i, j | 0 <= i < j < |updated| ensures Apart(updated[i], updated[j]) {
      assert Apart(records[i], records[j]);
    }
  }

  /** The ledger after marking the record whose publication was accepted. */
  lemma MarkedBooks(s: System, h: Home, generation: nat, outcome: StoreOutcome)
    requires HomeTrue(s, h) && h.phase.Publishing? && generation > 0 && Imported(s.server, h.phase.signed.payload)
    ensures var (books, ok) := MarkedPublished(h.books, h.phase.credential, generation, outcome);
            RecordsTrue(s, books.memory) && RecordsTrue(s, books.file)
    ensures Minted(s, h.phase.signed)
  {
    var i :| 0 <= i < |h.books.memory| && h.books.memory[i].enrollment.credential == h.phase.credential
             && h.books.memory[i].enrollment.signed == h.phase.signed;
    assert RecordTrue(s, h.books.memory[i]);
    MarkedTrue(s, h.books.memory, h.books.memory[i], generation);
  }

  lemma AnsweredKeeps(c: Auth.Config, s: System, s': System, home: string, outcome: StoreOutcome)
    requires Inv(c, s) && home in s.homes && s.homes[home].phase.Publishing? && s.homes[home].phase.token in s.accepted
    requires s' == Answered(s, home, outcome)
    ensures Inv(c, s')
  {
    var h := s.homes[home];
    assert HomeTrue(s, h);
    assert TokenTrue(s, h.phase.token);
    MarkedBooks(s, h, s.accepted[h.phase.token], outcome);
    RecordsStay(s, s', s'.homes[home].books.memory);
    RecordsStay(s, s', s'.homes[home].books.file);
    assert SuccessTrue(s', Success(h.phase.fingerprint, h.phase.signed));
    HomeMoves(c, s, s', home, s'.homes[home]);
  }

  lemma IdleKeeps(c: Auth.Config, s: System, home: string, books: Books)
    requires Inv(c, s) && home in s.homes
    requires books == s.homes[home].books || books == Books(s.homes[home].books.file, s.homes[home].books.file)
    ensures Inv(c, s.(homes := s.homes[home := Home(books, Idle)]))
  {
    var s' := s.(homes := s.homes[home := Home(books, Idle)]);
    assert HomeTrue(s, s.homes[home]);
    RecordsStay(s, s', books.memory);
    RecordsStay(s, s', books.file);
    HomeMoves(c, s, s', home, Home(books, Idle));
  }

  lemma StepKeeps(c: Auth.Config, s: System, a: Action)
    requires Inv(c, s) && Enabled(s, a)
    ensures Inv(c, Apply(c, s, a))
  {
    match a
    case ServerActs(step) => ActedKeeps(c, s, step);
    case ServerHandles(token, outcome) => HandledKeeps(c, s, token, outcome);
    case Approve(home, request, intent, minted, view, now, outcome) =>
      ApprovedKeeps(c, s, Apply(c, s, a), home, request, intent, minted, view, now, outcome);
    case ReplyArrives(home, outcome) => AnsweredKeeps(c, s, Apply(c, s, a), home, outcome);
    case ApprovalFails(home) => IdleKeeps(c, s, home, s.homes[home].books);
    case HomeRestarts(home) => IdleKeeps(c, s, home, Books(s.homes[home].books.file, s.homes[home].books.file));
  }

  lemma {:induction false} RunKeeps(c: Auth.Config, s: System, trace: seq<Action>)
    requires Inv(c, s)
    ensures Inv(c, Run(c, s, trace))
    decreases |trace|
  {
    if trace != [] {
      if Enabled(s, trace[0]) { StepKeeps(c, s, trace[0]); }
      RunKeeps(c, if Enabled(s, trace[0]) then Apply(c, s, trace[0]) else s, trace[1..]);
    }
  }

  /** The Homes with empty ledgers, and a Server that loads a good state. */
  ghost function Initial(file: Auth.State, names: set<string>): System {
    System(History.World(file, None, []), map name | name in names :: Home(Books([], []), Idle), [], map[], map[], [])
  }

  ghost function After(c: Auth.Config, file: Auth.State, names: set<string>, trace: seq<Action>): System {
    Run(c, Initial(file, names), trace)
  }

  lemma AfterKeeps(c: Auth.Config, file: Auth.State, names: set<string>, trace: seq<Action>)
    requires History.Good(c, file)
    ensures Inv(c, After(c, file, names, trace))
  {
    RunKeeps(c, Initial(file, names), trace);
  }

  /** In no state does the Server hold two credentials for one request fingerprint. */
  lemma ServerHoldsOneCredential(c: Auth.Config, file: Auth.State, names: set<string>, trace: seq<Action>, k: nat,
                                 i: nat, j: nat)
    requires History.Good(c, file)
    requires k < |After(c, file, names, trace).server.seen|
    requires i < |After(c, file, names, trace).server.seen[k].credentials|
    requires j < |After(c, file, names, trace).server.seen[k].credentials|
    ensures var credentials := After(c, file, names, trace).server.seen[k].credentials;
            credentials[i].payload.fingerprint == credentials[j].payload.fingerprint ==> i == j
  {
    AfterKeeps(c, file, names, trace);
    assert History.Good(c, After(c, file, names, trace).server.seen[k]);
  }

  lemma ListedLater(a: Auth.State, b: Auth.State, p: Credential)
    requires Listed(a, p) && History.Extends(a, b)
    ensures Listed(b, p)
  {
    var i :| 0 <= i < |a.credentials| && a.credentials[i].payload == p;
    assert b.credentials[i].payload == p;
  }

  lemma ListedOnce(a: Auth.State, p: Credential, q: Credential)
    requires History.DistinctFingerprints(a.credentials) && Listed(a, p) && Listed(a, q)
    requires p.fingerprint == q.fingerprint
    ensures p == q
  {
  }

  /** Two credentials the Server ever held for one request are the same credential. */
  lemma ImportedOnce(c: Auth.Config, w: History.World, p: Credential, q: Credential)
    requires History.Inv(c, w) && Imported(w, p) && Imported(w, q) && p.fingerprint == q.fingerprint
    ensures p == q
  {
    var k :| 0 <= k < |w.seen| && Listed(w.seen[k], p);
    var l :| 0 <= l < |w.seen| && Listed(w.seen[l], q);
    var last := if k <= l then l else k;
    ListedLater(w.seen[k], w.seen[last], p);
    ListedLater(w.seen[l], w.seen[last], q);
    assert History.Good(c, w.seen[last]);
    ListedOnce(w.seen[last], p, q);
  }

  /** Once the Server holds a credential for a request, publishing that credential again is
      answered as done, and publishing any other credential for the request is refused. */
  lemma RepeatsAreRecognised(c: Auth.Config, s: Auth.State, p: Credential, signed: SignedCredential, home: string)
    requires History.Good(c, s) && Listed(s, p) && signed.payload.fingerprint == p.fingerprint
    requires var auths := Auth.Delegations(c.trust, s.endpoints);
             Trusted(auths, signed) && FindAuthority(auths, signed.authority).value.home == home
    ensures Auth.ImportCredential(c, s, signed, home) == if signed.payload == p then Auth.Unchanged else Auth.Refused
  {
    var auths := Auth.Delegations(c.trust, s.endpoints);
    var i :| 0 <= i < |s.credentials| && s.credentials[i].payload == p;
    assert Trusted(auths, s.credentials[i]);
    if signed.payload == p {
      History.FoundByItsId(auths, s.credentials, i);
    } else {
      var found := Auth.FindCredential(auths, s.credentials, signed.payload.id);
      if found.Some? {
        History.FoundIsListed(auths, s.credentials, signed.payload.id);
        assert found.value.payload == signed.payload ==> Listed(s, signed.payload);
        if found.value.payload == signed.payload { ListedOnce(s, p, signed.payload); }
      }
    }
  }

  /** Any two successful approvals of a request, at any Homes and however often retried, return
      the same credential; and the Server holds it in its newest state. */
  lemma OneRequestOneCredential(c: Auth.Config, file: Auth.State, names: set<string>, trace: seq<Action>, i: nat,
                                j: nat)
    requires History.Good(c, file)
    requires i < |After(c, file, names, trace).successes| && j < |After(c, file, names, trace).successes|
    ensures var s := After(c, file, names, trace);
            && (s.successes[i].fingerprint == s.successes[j].fingerprint ==>
                  s.successes[i].signed == s.successes[j].signed)
            && Listed(s.server.file, s.successes[i].signed.payload)
            && (s.server.memory.Some? ==> Listed(s.server.memory.value, s.successes[i].signed.payload))
  {
    AfterKeeps(c, file, names, trace);
    var s := After(c, file, names, trace);
    assert SuccessTrue(s, s.successes[i]) && SuccessTrue(s, s.successes[j]);
    var p := s.successes[i].signed.payload;
    if s.successes[i].fingerprint == s.successes[j].fingerprint {
      ImportedOnce(c, s.server, p, s.successes[j].signed.payload);
    }
    ImportedLasts(c, s.server, p);
  }

  lemma ImportedLasts(c: Auth.Config, w: History.World, p: Credential)
    requires History.Inv(c, w) && Imported(w, p)
    ensures Listed(w.file, p) && (w.memory.Some? ==> Listed(w.memory.value, p))
  {
    var k :| 0 <= k < |w.seen| && Listed(w.seen[k], p);
    ListedLater(w.seen[k], w.file, p);
    if w.memory.Some? {
      ListedLater(w.seen[k], w.memory.value, p);
    }
  }

  /** Whatever a ledger write left behind loads again at the next start of its Home. */
  lemma LedgerAlwaysLoads(c: Auth.Config, file: Auth.State, names: set<string>, trace: seq<Action>, home: string)
    requires History.Good(c, file) && home in After(c, file, names, trace).homes
    ensures RecordsOk(After(c, file, names, trace).homes[home].books.file)
    ensures RecordsOk(After(c, file, names, trace).homes[home].books.memory)
  {
    AfterKeeps(c, file, names, trace);
    assert HomeTrue(After(c, file, names, trace), After(c, file, names, trace).homes[home]);
  }

  // ----- what an approval leads to -----

  lemma {:induction false} FirstOfItsContent(records: seq<Record>, i: nat)
    requires i < |records| && RecordsOk(records)
    ensures FirstWith(records, records[i].fingerprint) == Some(records[i])
    decreases |records|
  {
    if i > 0 {
      assert Apart(records[0], records[i]);
      FirstOfItsContent(records[1..], i - 1);
    }
  }

  /** The record is found for the request it was made for. */
  lemma OwnRecordIsFound(records: seq<Record>, i: nat, q: Request)
    requires i < |records| && RecordsOk(records) && records[i].fingerprint == q.fingerprint
    ensures Find(records, q) == At(records[i]) || Find(records, q) == Reused
    ensures records[i].request == q.id ==> Find(records, q) == At(records[i])
  {
    FirstOfItsContent(records, i);
    forall k | 0 <= k < |records| && k != i ensures records[k].request != records[i].request {
      assert Apart(records[i], records[k]) || Apart(records[k], records[i]);
    }
  }

  /** The view lists the credential, and either revokes it or lists it only outside its validity. */
  ghost predicate Lapsed(view: Auth.State, credential: Uuid, now: nat) {
    && (exists k :: 0 <= k < |view.credentials| && view.credentials[k].payload.id == credential)
    && ((exists k :: 0 <= k < |view.revocations| && view.revocations[k].credential == credential)
        || forall k | 0 <= k < |view.credentials| && view.credentials[k].payload.id == credential ::
             var v := view.credentials[k].payload.validity; now < v.notBefore || v.notAfter <= now)
  }

  lemma InactiveIsLapsed(view: Auth.State, credential: Uuid, now: nat)
    ensures KnownInactive(Some(view), credential, now) <==> Lapsed(view, credential, now)
  {
  }

  /** The retry is for the same intent and the same presentation, and the Home does not know the
      credential to be revoked or out of its validity. */
  ghost predicate RetryFits(r: Record, a: Action)
    requires a.Approve?
  {
    && r.intent == a.intent && r.enrollment.request == a.request
    && !(a.view.Some? && Lapsed(a.view.value, r.enrollment.credential, a.now))
  }

  lemma RetryWith(s: System, home: string, i: nat, a: Action)
    requires a.Approve? && a.home == home && home in s.homes && i < |s.homes[home].books.memory|
    requires RecordsOk(s.homes[home].books.memory)
    requires s.homes[home].books.memory[i].fingerprint == a.request.fingerprint
    ensures var r := s.homes[home].books.memory[i];
            Approved(s, home, a.request, a.intent, a.minted, a.view, a.now, a.outcome) ==
              if !RetryFits(r, a) then s
              else if r.published.Some?
              then s.(successes := s.successes + [Success(r.fingerprint, r.enrollment.signed)])
              else Sends(s, home, s.homes[home].books, r)
  {
    var records := s.homes[home].books.memory;
    OwnRecordIsFound(records, i, a.request);
    assert RecordOk(records[i]);
    if a.view.Some? { InactiveIsLapsed(a.view.value, records[i].enrollment.credential, a.now); }
  }

  /** In every reachable state, approving a request the Home has issued before changes nothing unless
      the retry fits: then a published credential is returned at once, and one not known to be
      published is sent to the Server again. A retry known to be for a revoked or lapsed credential
      never succeeds. */
  lemma RetriedExactly(c: Auth.Config, file: Auth.State, names: set<string>, trace: seq<Action>, s: System, a: Action,
                       i: nat)
    requires History.Good(c, file) && s == After(c, file, names, trace) && a.Approve? && Enabled(s, a)
    requires i < |s.homes[a.home].books.memory|
    requires s.homes[a.home].books.memory[i].fingerprint == a.request.fingerprint
    ensures var r := s.homes[a.home].books.memory[i];
            var s' := Apply(c, s, a);
            if !RetryFits(r, a) then s' == s
            else if r.published.Some? then
              s' == s.(successes := s.successes + [Success(a.request.fingerprint, r.enrollment.signed)])
            else
              && s'.messages == s.messages + [Message(a.home, r.enrollment.signed)] && s'.successes == s.successes
              && s'.homes[a.home].books == s.homes[a.home].books
              && s'.homes[a.home].phase.Publishing? && s'.homes[a.home].phase.token == |s.messages|
  {
    LedgerAlwaysLoads(c, file, names, trace, a.home);
    RetryWith(s, a.home, i, a);
  }

  /** A request the Home has not issued before is refused if its id was used for other content;
      otherwise its record is in the ledger, and it is published once the ledger is written. */
  lemma FirstApproval(c: Auth.Config, s: System, a: Action)
    requires a.Approve? && Enabled(s, a) && RecordOk(NewRecord(a.request, a.intent, a.minted))
    requires forall r | r in s.homes[a.home].books.memory :: r.fingerprint != a.request.fingerprint
    ensures var memory := s.homes[a.home].books.memory;
            var r := NewRecord(a.request, a.intent, a.minted);
            var s' := Apply(c, s, a);
            if exists k :: 0 <= k < |memory| && memory[k].request == a.request.id then s' == s
            else
              && s'.homes[a.home].books.memory == memory + [r] && s'.successes == s.successes
              && (!a.outcome.Kept? ==> s'.homes[a.home].books.file == memory + [r])
              && s'.messages == s.messages + (if a.outcome.Stored? then [Message(a.home, a.minted)] else [])
              && (s'.homes[a.home].phase.Publishing? <==> a.outcome.Stored?)
  {
    FirstWithIs(s.homes[a.home].books.memory, a.request.fingerprint);
    var memory := s.homes[a.home].books.memory;
    if exists k :: 0 <= k < |memory| && memory[k].request == a.request.id {
      var k :| 0 <= k < |memory| && memory[k].request == a.request.id;
      assert memory[k] in memory;
      assert RequestReused(memory, a.request);
    }
  }
}
