/** The upload direction: what Travel's active Carrier still carries towards Home. Home refuses
    data that does not come over the Carrier it has selected, so here nothing is lost silently:
    either the queue brings Home to Travel's send offset, or a Close is on its way to Travel. */
module FlowUpload {
  import opened Basics
  import opened Transfer
  import opened TransferLemmas
  import opened FlowSystem
  import opened FlowInvariant
  import opened FlowLinks
  import opened FlowSteps
  import opened FlowTheorems
  import H = HomeFlow
  import T = TravelFlow

  /** Neither direction is cut and no Close is queued for Travel. */
  predicate Clear(l: Link) {
    !l.upCut && !l.downCut && !Closes(l.down)
  }

  /** Home at `at` can take what is queued on Travel's active Carrier, up to Travel's send offset;
      on any other Carrier Travel has sent no data. */
  ghost predicate UploadOk(at: nat, t: T.Travel, c: Uuid, l: Link) {
    && (t.active == Some(c) && Clear(l) ==> QueueOk(at, l.up, t.x.snd.offset) && Reach(at, l.up) == t.x.snd.offset)
    && ((c in t.carriers || c in t.opens) && t.active != Some(c) ==> NoData(l.up))
  }

  /** Travel's bookkeeping: during a race the active Carrier is the one it began with, or it is gone. */
  ghost predicate RaceOk(t: T.Travel, links: set<Uuid>) {
    && (t.active.Some? ==> t.active.value in t.carriers)
    && t.opens !! t.carriers && t.carriers <= links && t.opens <= links
    && (t.race.Some? && t.active.Some? ==> t.active.value !in t.race.value.candidates)
    && (t.race.Some? && t.race.value.oldActive != t.active ==>
          && t.active.None? && t.race.value.oldActive.value in links
          && t.race.value.oldActive.value !in t.carriers && t.race.value.oldActive.value !in t.opens)
  }

  ghost predicate UploadAt(at: nat, t: T.Travel, links: map<Uuid, Link>, c: Uuid) {
    c in links ==> UploadOk(at, t, c, links[c])
  }

  ghost predicate Uploads(at: nat, t: T.Travel, links: map<Uuid, Link>) {
    forall c :: UploadAt(at, t, links, c)
  }

  ghost predicate UpInv(s: System) {
    s.travel.status.Running? ==> RaceOk(s.travel, s.links.Keys) && Uploads(s.home.x.rcv.offset, s.travel, s.links)
  }

  // ----- one Carrier -----

  lemma UploadAdvances(at: nat, further: nat, t: T.Travel, c: Uuid, l: Link, l': Link)
    requires UploadOk(at, t, c, l) && at <= further <= t.x.snd.offset
    requires l'.up == l.up && (Clear(l') ==> Clear(l))
    ensures UploadOk(further, t, c, l')
  {
    if t.active == Some(c) && Clear(l') { QueueAdvance(at, further, l.up, t.x.snd.offset); }
  }

  lemma UploadTaken(at: nat, after: nat, t: T.Travel, c: Uuid, l: Link, l': Link)
    requires UploadOk(at, t, c, l) && l.up != [] && l'.up == l.up[1..] && (Clear(l') ==> Clear(l))
    requires Clear(l') ==> after == AfterHead(at, l.up[0])
    ensures UploadOk(after, t, c, l')
  {
  }

  /** Travel's active Carrier and send offset stay, or the active Carrier is gone. */
  ghost predicate Stays(t: T.Travel, t': T.Travel) {
    && t'.x.snd.offset == t.x.snd.offset
    && (forall c :: c in t'.carriers || c in t'.opens ==> c in t.carriers || c in t.opens)
    && (t'.active == t.active ||
        (t'.active.None? && t.active.value !in t'.carriers && t.active.value !in t'.opens))
  }

  lemma UploadAnswered(at: nat, t: T.Travel, t': T.Travel, c: Uuid, l: Link, l': Link, frames: seq<Frame>)
    requires UploadOk(at, t, c, l) && Stays(t, t') && NoData(frames)
    requires (l'.up == l.up || l'.up == l.up + frames) && (Clear(l') ==> Clear(l))
    ensures UploadOk(at, t', c, l')
  {
    if t'.active == Some(c) && Clear(l') {
      QueueQuiet(Reach(at, l.up), frames, t.x.snd.offset);
      QueueAppend(at, l.up, frames, t.x.snd.offset);
    }
  }

  lemma UploadContinues(at: nat, t: T.Travel, t': T.Travel, c: Uuid, l: Link, l': Link, f: Frame)
    requires UploadOk(at, t, c, l) && t.active == t'.active == Some(c) && NoFin(l.up)
    requires t.x.snd.offset <= t'.x.snd.offset
    requires QueueOk(t.x.snd.offset, [f], t'.x.snd.offset) && Reach(t.x.snd.offset, [f]) == t'.x.snd.offset
    requires (Clear(l') ==> Clear(l) && l'.up == l.up + [f])
    ensures UploadOk(at, t', c, l')
  {
    if Clear(l') {
      QueueRaiseTop(at, l.up, t.x.snd.offset, t'.x.snd.offset);
      QueueAppend(at, l.up, [f], t'.x.snd.offset);
    }
  }

  /** The winner of a race is given the whole window. */
  lemma UploadResent(at: nat, t: T.Travel, t': T.Travel, c: Uuid, l: Link, l': Link)
    requires UploadOk(at, t, c, l) && c in t.carriers && WindowOk(t.x.snd) && t.x.snd.acked <= at <= t.x.snd.offset
    requires t'.active == Some(c) && t'.x == t.x
    requires Clear(l') ==> Clear(l) && l'.up == l.up + RetransmitFrames(t.flow, t.x.snd)
    ensures UploadOk(at, t', c, l')
  {
    if Clear(l') {
      if t.active != Some(c) { QueueQuiet(at, l.up, t.x.snd.offset); }
      RetransmitReaches(t.flow, t.x.snd, Reach(at, l.up));
      QueueAppend(at, l.up, RetransmitFrames(t.flow, t.x.snd), t.x.snd.offset);
    }
  }

  // ----- Home moves -----

  /** Home takes the head of a queue as a receiver does, or answers it with Close. */
  lemma HomeTakesOrCloses(h: H.Home, t: T.Travel, c: Uuid, f: Frame)
    requires EndsOk(h.x, t.x) && c in h.carriers && UpKind(f) && Honest(f, h.flow, t.x, h.x.snd.log)
    ensures var did := H.OnFrame(h, c, f);
            && ((did.to == c && Closes(did.frames)) || did.home.x.rcv.offset == AfterHead(h.x.rcv.offset, f))
            && h.x.rcv.offset <= did.home.x.rcv.offset
  {
    var did := H.OnFrame(h, c, f);
    if f.Data? {
      NotNextIsOld(t.x.snd, h.x.rcv, f.offset, f.bytes);
      DataOrClose(h, t, c, f);
      assert did == H.OnData(h, c, f.offset, f.bytes);
    }
  }

  /** Queueing for Travel leaves the other direction alone and clears nothing. */
  ghost predicate SameUpload(before: map<Uuid, Link>, after: map<Uuid, Link>) {
    && after.Keys == before.Keys
    && (forall c | c in after :: after[c].up == before[c].up && (Clear(after[c]) ==> Clear(before[c])))
  }

  lemma PushedDown(links: map<Uuid, Link>, c: Uuid, frames: seq<Frame>)
    ensures SameUpload(links, PushDown(links, c, frames))
    ensures c in links && Closes(frames) ==> !Clear(PushDown(links, c, frames)[c])
  {
    if c in links && frames != [] {
      assert forall f | f in links[c].down :: f in links[c].down + frames;
      assert forall f | f in frames :: f in links[c].down + frames;
    }
  }

  lemma HomeMovesUp(s: System, s': System)
    requires UpInv(s) && s'.travel == s.travel && SameUpload(s.links, s'.links)
    requires s.home.x.rcv.offset <= s'.home.x.rcv.offset <= s.travel.x.snd.offset
    ensures UpInv(s')
  {
    if s.travel.status.Running? {
      forall c | c in s'.links ensures UploadAt(s'.home.x.rcv.offset, s'.travel, s'.links, c) {
        assert UploadAt(s.home.x.rcv.offset, s.travel, s.links, c);
        UploadAdvances(s.home.x.rcv.offset, s'.home.x.rcv.offset, s.travel, c, s.links[c], s'.links[c]);
      }
    }
  }

  /** Home stands inside Travel's window. */
  ghost predicate InStep(s: System) {
    WindowOk(s.travel.x.snd) && s.travel.x.snd.acked <= s.home.x.rcv.offset <= s.travel.x.snd.offset
  }

  lemma EndsInStep(s: System)
    requires EndsOk(s.home.x, s.travel.x)
    ensures InStep(s)
  {
    AckedBelowReceived(s.travel.x.snd, s.home.x.rcv);
  }

  /** Home did something that takes no frame. */
  lemma HomeDidUp(s: System, s': System, did: H.Stepped)
    requires InStep(s) && UpInv(s) && did.home.x.rcv == s.home.x.rcv
    requires s'.home.x == did.home.x && s'.travel == s.travel && s'.links == PushDown(s.links, did.to, did.frames)
    ensures UpInv(s')
  {
    PushedDown(s.links, did.to, did.frames);
    HomeMovesUp(s, s');
  }

  lemma HomeReceivesUp(s: System, s': System, c: Uuid, did: H.Stepped)
    requires UpInv(s) && c in s.links && s.links[c].up != [] && s' == HomeDid(s, PopUp(s.links, c), did)
    requires (did.to == c && Closes(did.frames)) ||
             did.home.x.rcv.offset == AfterHead(s.home.x.rcv.offset, s.links[c].up[0])
    requires s.home.x.rcv.offset <= did.home.x.rcv.offset <= s.travel.x.snd.offset
    ensures UpInv(s')
  {
    PushedDown(PopUp(s.links, c), did.to, did.frames);
    TakenUp(s, s', c);
  }

  lemma TakenUp(s: System, s': System, c: Uuid)
    requires UpInv(s) && c in s.links && s.links[c].up != [] && s'.travel == s.travel
    requires SameUpload(PopUp(s.links, c), s'.links)
    requires s.home.x.rcv.offset <= s'.home.x.rcv.offset <= s.travel.x.snd.offset
    requires Clear(s'.links[c]) ==> s'.home.x.rcv.offset == AfterHead(s.home.x.rcv.offset, s.links[c].up[0])
    ensures UpInv(s')
  {
    if s.travel.status.Running? {
      var at, after := s.home.x.rcv.offset, s'.home.x.rcv.offset;
      forall d | d in s'.links ensures UploadAt(after, s'.travel, s'.links, d) {
        assert UploadAt(at, s.travel, s.links, d);
        if d == c {
          UploadTaken(at, after, s.travel, c, s.links[c], s'.links[c]);
        } else {
          UploadAdvances(at, after, s.travel, d, s.links[d], s'.links[d]);
        }
      }
    }
  }

  // ----- cuts -----

  lemma CutUp(s: System, s': System, c: Uuid, kept: nat)
    requires UpInv(s) && Enabled(s, UpIsCut(c, kept)) && s' == Apply(s, UpIsCut(c, kept))
    ensures UpInv(s')
  {
    if s.travel.status.Running? {
      assert NoData(s.links[c].up) ==> NoData(s.links[c].up[..kept]);
      forall d | d in s'.links ensures UploadAt(s'.home.x.rcv.offset, s'.travel, s'.links, d) {
        assert UploadAt(s.home.x.rcv.offset, s.travel, s.links, d);
      }
    }
  }

  lemma CutDown(s: System, s': System, c: Uuid, kept: nat)
    requires UpInv(s) && Enabled(s, DownIsCut(c, kept)) && s' == Apply(s, DownIsCut(c, kept))
    ensures UpInv(s')
  {
    if s.travel.status.Running? {
      forall d | d in s'.links ensures UploadAt(s'.home.x.rcv.offset, s'.travel, s'.links, d) {
        assert UploadAt(s.home.x.rcv.offset, s.travel, s.links, d);
      }
    }
  }

  // ----- Travel moves -----

  /** Travel queued at most an answer, on Carriers as they were. */
  lemma TravelMovesUp(s: System, s': System, links: map<Uuid, Link>, did: T.Stepped)
    requires UpInv(s) && s.travel.status.Running? && SameUpload(s.links, links) && s' == TravelDid(s, links, did)
    requires did.travel.status.Running? ==>
               Stays(s.travel, did.travel) && RaceOk(did.travel, s.links.Keys) && NoData(did.frames)
    ensures UpInv(s')
  {
    if did.travel.status.Running? {
      forall c | c in s'.links ensures UploadAt(s'.home.x.rcv.offset, s'.travel, s'.links, c) {
        assert UploadAt(s.home.x.rcv.offset, s.travel, s.links, c);
        UploadAnswered(s.home.x.rcv.offset, s.travel, did.travel, c, s.links[c], s'.links[c], did.frames);
      }
    }
  }

  lemma SameLinks(links: map<Uuid, Link>)
    ensures SameUpload(links, links)
  {
  }

  /** Taking a frame that is not Close off the other direction clears nothing. */
  lemma PoppedDown(links: map<Uuid, Link>, c: Uuid)
    requires c in links && links[c].down != [] && !links[c].down[0].Close?
    ensures SameUpload(links, PopDown(links, c))
  {
    var down := links[c].down;
    forall f | f in down && f.Close? ensures f in down[1..] {
      var i :| 0 <= i < |down| && down[i] == f;
      assert down[1..][i - 1] == f;
    }
  }

  lemma TravelAnswers(t: T.Travel, c: Uuid, f: Frame)
    requires !T.DecidesRace(t, f)
    ensures var did := T.OnFrame(t, c, f);
            && NoData(did.frames) && did.travel == t.(x := did.travel.x, status := did.travel.status)
            && did.travel.x.snd.offset == t.x.snd.offset
            && (f.Close? ==> did.travel.status.Failed?)
  {
  }

  lemma WonUp(at: nat, t: T.Travel, did: T.Stepped, winner: Uuid, c: Uuid, l: Link, l': Link)
    requires UploadOk(at, t, c, l) && WindowOk(t.x.snd) && t.x.snd.acked <= at <= t.x.snd.offset
    requires did == T.OnRaceWon(t, winner)
    requires c != winner ==> l'.up == l.up
    requires Clear(l') ==> Clear(l) && (c == winner ==> l'.up == l.up + did.frames)
    ensures UploadOk(at, did.travel, c, l')
  {
    if c == winner && winner in t.carriers { UploadResent(at, t, did.travel, c, l, l'); }
  }

  lemma RaceWonUp(s: System, s': System, links: map<Uuid, Link>, winner: Uuid)
    requires InStep(s) && UpInv(s) && s.travel.status.Running? && SameUpload(s.links, links)
    requires s' == TravelDid(s, links, T.OnRaceWon(s.travel, winner))
    ensures UpInv(s')
  {
    var at := s.home.x.rcv.offset;
    var did := T.OnRaceWon(s.travel, winner);
    forall c | c in s'.links ensures UploadAt(at, s'.travel, s'.links, c) {
      assert UploadAt(at, s.travel, s.links, c);
      if winner in links && did.to == winner { WonLink(links, s', winner, did); }
      WonUp(at, s.travel, did, winner, c, s.links[c], s'.links[c]);
    }
  }

  lemma WonLink(links: map<Uuid, Link>, s': System, c: Uuid, did: T.Stepped)
    requires c in links && did.to == c && s'.links == PushUp(links, c, did.frames)
    ensures s'.links[c].downCut == links[c].downCut && s'.links[c].down == links[c].down
    ensures s'.links[c].upCut == links[c].upCut
    ensures !links[c].upCut ==> s'.links[c].up == links[c].up + did.frames
  {
    assert links[c].up + [] == links[c].up;
  }

  lemma TravelReceivesUp(s: System, s': System, c: Uuid)
    requires InStep(s) && UpInv(s) && Enabled(s, TravelReceives(c)) && s' == Apply(s, TravelReceives(c))
    ensures UpInv(s')
  {
    var f := s.links[c].down[0];
    if T.DecidesRace(s.travel, f) {
      PoppedDown(s.links, c);
      RaceWonUp(s, s', PopDown(s.links, c), f.winner);
    } else {
      TravelAnswers(s.travel, c, f);
      if !f.Close? {
        PoppedDown(s.links, c);
        TravelMovesUp(s, s', PopDown(s.links, c), T.OnFrame(s.travel, c, f));
      }
    }
  }

  /** A Carrier just opened has nothing on it. */
  lemma OpensUp(s: System, s': System, c: Uuid)
    requires UpInv(s) && Enabled(s, TravelOpens(c)) && s' == Apply(s, TravelOpens(c))
    ensures UpInv(s')
  {
    forall d | d in s'.links ensures UploadAt(s'.home.x.rcv.offset, s'.travel, s'.links, d) {
      if d != c { assert UploadAt(s.home.x.rcv.offset, s.travel, s.links, d); }
    }
  }

  /** Before its stream has ended an honest Travel has no FIN in flight. */
  lemma NoFinYet(flow: Uuid, travel: Endpoint, home: Endpoint, q: seq<Frame>)
    requires UpOk(flow, travel, home, q) && !travel.snd.eof
    ensures NoFin(q)
  {
    forall i | 0 <= i < |q| ensures !q[i].Fin? {
      assert q[i] in q;
    }
  }

  lemma LocalUp(s: System, s': System, did: T.Stepped, f: Frame, c: Uuid)
    requires UpInv(s) && s.travel.status.Running? && c in s.links && s' == TravelDid(s, s.links, did)
    requires did.travel.active == s.travel.active && did.travel.carriers == s.travel.carriers
    requires did.travel.opens == s.travel.opens
    requires s.travel.active.Some? ==> did.to == s.travel.active.value && did.frames == [f]
    requires s.travel.active == Some(c) ==> NoFin(s.links[c].up)
    requires s.travel.x.snd.offset <= did.travel.x.snd.offset
    requires QueueOk(s.travel.x.snd.offset, [f], did.travel.x.snd.offset)
    requires Reach(s.travel.x.snd.offset, [f]) == did.travel.x.snd.offset
    requires s.travel.active.None? ==> did.frames == []
    ensures UploadOk(s.home.x.rcv.offset, did.travel, c, s'.links[c])
  {
    assert UploadAt(s.home.x.rcv.offset, s.travel, s.links, c);
    if s.travel.active == Some(c) {
      UploadContinues(s.home.x.rcv.offset, s.travel, did.travel, c, s.links[c], s'.links[c], f);
    }
  }

  /** What taking a local event does to Travel, when its active Carrier is one of its own. */
  lemma LocalSent(t: T.Travel, did: T.Stepped)
    requires t.x.local.queue != [] && did == T.OnLocal(t) && (t.active.Some? ==> t.active.value in t.carriers)
    requires t.x.local.queue[0].LocalData? ==> !OverLimit(t.x, t.x.local.queue[0].bytes)
    ensures did.travel == t.(x := TakeLocal(t.x))
    ensures if t.active.Some? then did.to == t.active.value && did.frames == [LocalFrame(t.flow, t.x)]
            else did.frames == []
  {
  }

  lemma NoFinAnywhere(s: System)
    requires s.travel.flow == s.home.flow && LinksOk(s) && !s.travel.x.snd.eof
    ensures forall c | c in s.links :: NoFin(s.links[c].up)
  {
    forall c | c in s.links ensures NoFin(s.links[c].up) {
      assert LinkOk(s.home, s.travel, s.links[c]);
      NoFinYet(s.home.flow, s.travel.x, s.home.x, s.links[c].up);
    }
  }

  lemma LocalUploads(s: System, s': System, did: T.Stepped, f: Frame)
    requires UpInv(s) && s.travel.status.Running? && s' == TravelDid(s, s.links, did)
    requires did.travel == s.travel.(x := did.travel.x)
    requires if s.travel.active.Some? then did.to == s.travel.active.value && did.frames == [f] else did.frames == []
    requires forall c | c in s.links :: NoFin(s.links[c].up)
    requires s.travel.x.snd.offset <= did.travel.x.snd.offset
    requires QueueOk(s.travel.x.snd.offset, [f], did.travel.x.snd.offset)
    requires Reach(s.travel.x.snd.offset, [f]) == did.travel.x.snd.offset
    ensures UpInv(s')
  {
    forall c | c in s'.links ensures UploadAt(s.home.x.rcv.offset, s'.travel, s'.links, c) {
      LocalUp(s, s', did, f, c);
    }
  }

  lemma TakesLocalUp(s: System, s': System)
    requires EndsOk(s.home.x, s.travel.x) && s.travel.flow == s.home.flow && LinksOk(s)
    requires UpInv(s) && Enabled(s, TravelTakesLocal) && s' == Apply(s, TravelTakesLocal)
    ensures UpInv(s')
  {
    LocalEnd(s.travel.x, s.home.x, s.travel.flow);
    TakeLocalDirection(s.travel.x, s.home.x.rcv);
    LocalSent(s.travel, T.OnLocal(s.travel));
    NoFinAnywhere(s);
    LocalUploads(s, s', T.OnLocal(s.travel), LocalFrame(s.travel.flow, s.travel.x));
  }

  // ----- all of them -----

  /** Home changed nothing that Travel can see. */
  lemma HomeQuietUp(s: System, s': System)
    requires UpInv(s) && s'.home.x.rcv == s.home.x.rcv && s'.travel == s.travel && s'.links == s.links
    ensures UpInv(s')
  {
  }

  lemma HomeStepUp(s: System, s': System, a: Action)
    requires InStep(s) && UpInv(s) && Enabled(s, a) && IsHomeStep(a) && !a.HomeReceives? && s' == Apply(s, a)
    ensures UpInv(s')
  {
    match a
    case HomeAttaches(c) => HomeDidUp(s, s', H.OnCarrier(s.home, c));
    case HomeSeesClose(c, now) => HomeDidUp(s, s', H.OnCarrierClosed(s.home, c, now));
    case HomeReads(_) => HomeQuietUp(s, s');
    case HomeTakesLocal => HomeDidUp(s, s', H.OnTarget(s.home));
    case UpIsCut(c, kept) => CutUp(s, s', c, kept);
    case DownIsCut(c, kept) => CutDown(s, s', c, kept);
  }

  lemma TravelRaceStepUp(s: System, s': System, a: Action)
    requires UpInv(s) && Enabled(s, a) && IsRaceStep(a) && s' == Apply(s, a)
    ensures UpInv(s')
  {
    SameLinks(s.links);
    match a
    case TravelStartsRace(race) => TravelMovesUp(s, s', s.links, T.StartRace(s.travel, race));
    case TravelOpens(c) => OpensUp(s, s', c);
    case TravelOpened(c) =>
      PoppedDown(s.links, c);
      TravelMovesUp(s, s', PopDown(s.links, c), T.OnOpened(s.travel, c, s.links[c].down[0].receiveOffset));
    case TravelLosesRace => TravelMovesUp(s, s', s.links, T.Quiet(T.OnRaceLost(s.travel)));
  }

  lemma TravelStepUp(s: System, s': System, a: Action)
    requires InStep(s) && UpInv(s) && Enabled(s, a) && s' == Apply(s, a)
    requires a.TravelReceives? || a.TravelSeesClose? || a.TravelReads?
    ensures UpInv(s')
  {
    SameLinks(s.links);
    match a
    case TravelReceives(c) => TravelReceivesUp(s, s', c);
    case TravelSeesClose(c) => TravelMovesUp(s, s', s.links, T.Quiet(T.OnCarrierClosed(s.travel, c)));
    case TravelReads(_) => TravelMovesUp(s, s', s.links, T.Quiet(s'.travel));
  }

  lemma StatusStepUp(s: System, s': System, a: Action)
    requires UpInv(s) && Enabled(s, a) && s' == Apply(s, a)
    requires a.HomeDetachExpires? || a.HomeIoFails? || a.TravelIoFails? || a.HomeFinishes? || a.TravelFinishes?
    ensures UpInv(s')
  {
    if !a.TravelIoFails? && !a.TravelFinishes? { HomeQuietUp(s, s'); }
  }

  /** What a frame of an honest Travel does to Home, in the terms of the upload. */
  lemma FrameTaken(s: System, c: Uuid)
    requires Inv(s) && Enabled(s, HomeReceives(c))
    ensures var did := H.OnFrame(s.home, c, s.links[c].up[0]);
            && ((did.to == c && Closes(did.frames)) ||
                did.home.x.rcv.offset == AfterHead(s.home.x.rcv.offset, s.links[c].up[0]))
            && s.home.x.rcv.offset <= did.home.x.rcv.offset <= s.travel.x.snd.offset
  {
    ComesFromAttached(s, c);
    HomeTakesOrCloses(s.home, s.travel, c, s.links[c].up[0]);
    StepKeeps(s, HomeReceives(c));
    EndsInStep(Apply(s, HomeReceives(c)));
  }

  /** Every action keeps the upload in order. */
  lemma UpStepKeeps(s: System, a: Action)
    requires Inv(s) && UpInv(s) && Enabled(s, a)
    ensures UpInv(Apply(s, a))
  {
    EndsInStep(s);
    if a.HomeReceives? {
      FrameTaken(s, a.carrier);
      HomeReceivesUp(s, Apply(s, a), a.carrier, H.OnFrame(s.home, a.carrier, s.links[a.carrier].up[0]));
    } else if IsHomeStep(a) {
      HomeStepUp(s, Apply(s, a), a);
    } else if IsRaceStep(a) {
      TravelRaceStepUp(s, Apply(s, a), a);
    } else if a.TravelTakesLocal? {
      TakesLocalUp(s, Apply(s, a));
    } else if IsTravelStep(a) {
      TravelStepUp(s, Apply(s, a), a);
    } else {
      StatusStepUp(s, Apply(s, a), a);
    }
  }

  lemma {:induction false} UpRunKeeps(s: System, trace: seq<Action>)
    requires Inv(s) && UpInv(s)
    ensures UpInv(Run(s, trace))
    decreases |trace|
  {
    if trace != [] {
      if Enabled(s, trace[0]) {
        StepKeeps(s, trace[0]);
        UpStepKeeps(s, trace[0]);
        UpRunKeeps(Apply(s, trace[0]), trace[1..]);
      } else {
        UpRunKeeps(s, trace[1..]);
      }
    }
  }

  lemma FreshUp(s: System)
    requires Fresh(s)
    ensures UpInv(s)
  {
  }

  lemma ReachableUp(s: System)
    requires Reachable(s)
    ensures UpInv(s)
  {
    var first: System, trace: seq<Action> :| Fresh(first) && s == Run(first, trace);
    FreshOk(first);
    FreshUp(first);
    UpRunKeeps(first, trace);
  }

  lemma UpCutFromLog(s: System, l: Link)
    requires LinkOk(s.home, s.travel, l)
    ensures CutFrom(s.travel.x.snd.log, l.up)
  {
    forall i | 0 <= i < |l.up| && l.up[i].Data? ensures Segment(l.up[i].offset, l.up[i].bytes) in s.travel.x.snd.log {
      assert l.up[i] in l.up;
    }
  }

  /** While Travel runs, its active Carrier is not cut and no Close is queued for it, everything
      Home is still missing is queued there in order: taking each Data frame whole or as a
      duplicate brings Home exactly to Travel's send offset. */
  lemma UploadLosesNothing(s: System, c: Uuid)
    requires Reachable(s) && s.travel.status.Running? && s.travel.active == Some(c) && c in s.links && Clear(s.links[c])
    ensures Consume(s.home.x.rcv.offset, s.links[c].up) == Some(s.travel.x.snd.offset)
  {
    ReachableOk(s);
    ReachableUp(s);
    var l := s.links[c];
    assert LinkOk(s.home, s.travel, l) && UploadAt(s.home.x.rcv.offset, s.travel, s.links, c);
    UpCutFromLog(s, l);
    ConsumeReaches(s.travel.x.snd.log, s.home.x.rcv.accepted, l.up, s.travel.x.snd.offset);
  }

  /** Hence once Home has taken what is queued there, it has written every byte Travel has sent. */
  lemma UploadDrained(s: System, c: Uuid)
    requires Reachable(s) && s.travel.status.Running? && s.travel.active == Some(c) && c in s.links && Clear(s.links[c])
    requires s.links[c].up == []
    ensures s.travel.x.snd.offset <= |s.travel.x.local.read|
    ensures s.home.x.rcv.written == s.travel.x.local.read[..s.travel.x.snd.offset]
  {
    UploadLosesNothing(s, c);
    ExactlyOnceInOrder(s);
  }

  /** On such a Carrier, when both ends have selected it, Home never answers Close to the next
      frame for a gap: it refuses nothing but a stale acknowledgement. */
  lemma AgreedCarrierRefusesOnlyStaleAcks(s: System, c: Uuid)
    requires Reachable(s) && s.travel.status.Running? && s.travel.active == Some(c) && s.home.active == Some(c)
    requires Enabled(s, HomeReceives(c)) && Clear(s.links[c])
    ensures var f := s.links[c].up[0];
            Closes(H.OnFrame(s.home, c, f).frames) <==> (f.Ack? || f.Duplicate?) && f.next < s.home.x.snd.acked
  {
    ReachableUp(s);
    HomeClosesExactlyWhen(s, c);
    assert UploadAt(s.home.x.rcv.offset, s.travel, s.links, c);
    var f := s.links[c].up[0];
    if f.Data? && f.offset < s.home.x.rcv.offset {
      ReachableOk(s);
      ComesFromAttached(s, c);
      NotNextIsOld(s.travel.x.snd, s.home.x.rcv, f.offset, f.bytes);
    }
  }

  /** Losing a race costs the flow nothing: it stays on the Carrier it has, if it has one, and only
      the candidates are given up. */
  lemma LostRaceKeepsActive(s: System)
    requires Reachable(s) && Enabled(s, TravelLosesRace)
    ensures var t, t' := s.travel, Apply(s, TravelLosesRace).travel;
            && t'.active == t.active && t'.race.None? && t'.opens == {} && t'.x == t.x
            && t'.carriers == if t.active.Some? then t.carriers - t.race.value.candidates else {}
  {
    ReachableUp(s);
  }
}
