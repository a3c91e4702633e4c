/** Every action keeps the invariant of a flow. */
module FlowSteps {
  import opened Basics
  import opened Transfer
  import opened TransferLemmas
  import opened FlowSystem
  import opened FlowInvariant
  import opened FlowLinks
  import H = HomeFlow
  import T = TravelFlow

  // ----- Home takes a frame -----

  /** Home answered a frame without selecting a Carrier. */
  ghost predicate Answered(s: System, did: H.Stepped) {
    && EndsOk(did.home.x, s.travel.x) && Grew(s.home.x, did.home.x)
    && did.home.x.snd.offset == s.home.x.snd.offset
    && did.home == s.home.(x := did.home.x)
    && DownOk(s.home.flow, did.home.x, s.travel.x, did.frames) && NoData(did.frames)
  }

  /** Home moved its endpoint and answered with one frame. */
  lemma AnsweredWith(s: System, did: H.Stepped, y: Endpoint, c: Uuid, f: Frame)
    requires EndsOk(y, s.travel.x) && Grew(s.home.x, y) && y.snd.offset == s.home.x.snd.offset
    requires DownKind(f) && !f.Data? && !f.Fin? && Honest(f, s.home.flow, y, s.travel.x.snd.log)
    requires did == H.SendTo(s.home.(x := y), c, [f])
    ensures Answered(s, did)
  {
    OneFrameDown(s.home.flow, y, s.travel.x, did.frames, f);
  }

  /** Home left its endpoint and answered with one frame. */
  lemma AnsweredOnly(s: System, did: H.Stepped, c: Uuid, f: Frame)
    requires EndsOk(s.home.x, s.travel.x)
    requires DownKind(f) && !f.Data? && !f.Fin? && Honest(f, s.home.flow, s.home.x, s.travel.x.snd.log)
    requires did == H.SendTo(s.home, c, [f])
    ensures Answered(s, did)
  {
    assert s.home == s.home.(x := s.home.x);
    AnsweredWith(s, did, s.home.x, c, f);
  }

  /** Home moved its endpoint and said nothing. */
  lemma AnsweredSilently(s: System, did: H.Stepped, y: Endpoint)
    requires EndsOk(y, s.travel.x) && Grew(s.home.x, y) && y.snd.offset == s.home.x.snd.offset
    requires did == H.Stepped(s.home.(x := y), 0, [])
    ensures Answered(s, did)
  {
  }

  lemma AcceptedEnd(x: Endpoint, peer: Endpoint, bytes: seq<Byte>)
    requires EndsOk(x, peer) && Segment(x.rcv.offset, bytes) in peer.snd.log
    ensures var y := x.(rcv := Accept(x.rcv, x.rcv.offset, bytes));
            EndsOk(y, peer) && Grew(x, y) && Boundary(peer.snd.log, y.rcv.accepted, y.rcv.offset)
  {
    AcceptKeeps(peer.snd, x.rcv, bytes);
  }

  lemma HomeAccepted(s: System, did: H.Stepped, c: Uuid, bytes: seq<Byte>)
    requires EndsOk(s.home.x, s.travel.x) && Segment(s.home.x.rcv.offset, bytes) in s.travel.x.snd.log
    requires s.home.active == Some(c) && did == H.OnData(s.home, c, s.home.x.rcv.offset, bytes)
    ensures Answered(s, did)
  {
    var y := s.home.x.(rcv := Accept(s.home.x.rcv, s.home.x.rcv.offset, bytes));
    AcceptedEnd(s.home.x, s.travel.x, bytes);
    AnsweredWith(s, did, y, c, Ack(s.home.flow, y.rcv.offset));
  }

  lemma HomeGotOld(s: System, did: H.Stepped, c: Uuid, offset: nat, bytes: seq<Byte>)
    requires EndsOk(s.home.x, s.travel.x) && did == H.OnData(s.home, c, offset, bytes)
    requires !(offset == s.home.x.rcv.offset && s.home.active == Some(c))
    ensures Answered(s, did)
  {
    AckedBelowReceived(s.travel.x.snd, s.home.x.rcv);
    if SatAdd(offset, |bytes|) <= s.home.x.rcv.offset {
      AnsweredOnly(s, did, c, Duplicate(s.home.flow, s.home.x.rcv.offset,
                                        if s.home.active.Some? then s.home.active.value else c));
    } else {
      AnsweredOnly(s, did, c, Close(s.home.flow, NonContiguous));
    }
  }

  lemma HomeGotData(s: System, did: H.Stepped, c: Uuid, offset: nat, bytes: seq<Byte>)
    requires EndsOk(s.home.x, s.travel.x) && Segment(offset, bytes) in s.travel.x.snd.log
    requires did == H.OnData(s.home, c, offset, bytes)
    ensures Answered(s, did)
  {
    if offset == s.home.x.rcv.offset && s.home.active == Some(c) {
      HomeAccepted(s, did, c, bytes);
    } else {
      HomeGotOld(s, did, c, offset, bytes);
    }
  }

  lemma AckedEnd(x: Endpoint, peer: Endpoint, next: nat)
    requires EndsOk(x, peer) && InWindow(x.snd, next) && Boundary(x.snd.log, peer.rcv.accepted, next)
    ensures !AckSplits(x.snd.unacked, next)
    ensures EndsOk(Acknowledged(x, next), peer) && Grew(x, Acknowledged(x, next))
    ensures Acknowledged(x, next).snd.offset == x.snd.offset
  {
    HonestAckKeeps(x.snd, peer.rcv, next);
    AcknowledgeCredit(x, next);
  }

  lemma HomeGotAck(s: System, did: H.Stepped, next: nat)
    requires EndsOk(s.home.x, s.travel.x) && InWindow(s.home.x.snd, next)
    requires Boundary(s.home.x.snd.log, s.travel.x.rcv.accepted, next) && did == H.OnAck(s.home, next)
    ensures Answered(s, did)
  {
    AckedEnd(s.home.x, s.travel.x, next);
    AnsweredSilently(s, did, Acknowledged(s.home.x, next));
  }

  lemma FinishedEnd(x: Endpoint, peer: Endpoint)
    requires EndsOk(x, peer) && peer.snd.eof && peer.snd.offset == x.rcv.offset
    ensures var y := x.(rcv := x.rcv.(eof := true));
            EndsOk(y, peer) && Grew(x, y)
  {
    if x.rcv.accepted < |peer.snd.log| {
      PosMonotone(peer.snd.log, x.rcv.accepted, |peer.snd.log|);
    }
  }

  lemma HomeGotFin(s: System, did: H.Stepped, c: Uuid, final: nat)
    requires EndsOk(s.home.x, s.travel.x) && s.travel.x.snd.eof && final == s.travel.x.snd.offset == s.home.x.rcv.offset
    requires did == H.OnFin(s.home, c, final)
    ensures Answered(s, did)
  {
    FinishedEnd(s.home.x, s.travel.x);
    AnsweredWith(s, did, s.home.x.(rcv := s.home.x.rcv.(eof := true)), c, FinAck(s.home.flow, final));
  }

  lemma HomeGotFinAck(s: System, did: H.Stepped)
    requires EndsOk(s.home.x, s.travel.x) && s.travel.x.rcv.eof && s.travel.x.rcv.offset == s.home.x.snd.offset
    requires did == H.OnFinAck(s.home)
    ensures Answered(s, did)
  {
    AnsweredSilently(s, did, s.home.x.(snd := s.home.x.snd.(finAcked := true)));
  }

  lemma HomeGotInvalid(s: System, did: H.Stepped, c: Uuid)
    requires EndsOk(s.home.x, s.travel.x) && did == H.SendTo(s.home, c, [Close(s.home.flow, InvalidFrame)])
    ensures Answered(s, did)
  {
    AnsweredOnly(s, did, c, Close(s.home.flow, InvalidFrame));
  }

  lemma LogFramesFit(x: Endpoint, peer: Endpoint, offset: nat, bytes: seq<Byte>)
    requires EndsOk(x, peer) && Segment(offset, bytes) in peer.snd.log
    ensures |bytes| <= MAX_DATA_PAYLOAD
  {
    NotNextIsOld(peer.snd, x.rcv, offset, bytes);
  }

  lemma HomeGotOther(s: System, did: H.Stepped, c: Uuid, f: Frame)
    requires EndsOk(s.home.x, s.travel.x) && UpKind(f) && Honest(f, s.home.flow, s.travel.x, s.home.x.snd.log)
    requires !f.Race? && did == H.OnFrame(s.home, c, f)
    ensures Answered(s, did)
  {
    match f
    case Data(_, offset, bytes) =>
      LogFramesFit(s.home.x, s.travel.x, offset, bytes);
      HomeGotData(s, did, c, offset, bytes);
    case Ack(_, next) =>
      if InWindow(s.home.x.snd, next) { HomeGotAck(s, did, next); } else { HomeGotInvalid(s, did, c); }
    case Duplicate(_, next, _) =>
      if InWindow(s.home.x.snd, next) { HomeGotAck(s, did, next); } else { HomeGotInvalid(s, did, c); }
    case Fin(_, final) =>
      if final == s.home.x.rcv.offset { HomeGotFin(s, did, c, final); } else { HomeGotInvalid(s, did, c); }
    case FinAck(_, final) =>
      if s.home.x.snd.eof && final == s.home.x.snd.offset { HomeGotFinAck(s, did); } else { HomeGotInvalid(s, did, c); }
  }

  /** The RACE of an honest Travel is never refused: its offset is acknowledged data. */
  lemma HomeGotRace(s: System, c: Uuid, f: Frame)
    requires EndsOk(s.home.x, s.travel.x) && f.Race? && Honest(f, s.home.flow, s.travel.x, s.home.x.snd.log)
    ensures H.OnFrame(s.home, c, f) == H.OnRace(s.home, c, f.race)
    ensures f.race in s.home.races.winners ==> Answered(s, H.OnFrame(s.home, c, f))
  {
    AckedBelowReceived(s.travel.x.snd, s.home.x.rcv);
  }

  lemma PlacesAfterHome(s: System, links: map<Uuid, Link>, did: H.Stepped)
    requires PlacesOk(s) && SameDown(s.links, links) && did.home.carriers == s.home.carriers
    requires did.frames != [] ==> did.to in s.home.carriers
    ensures PlacesOk(HomeDid(s, links, did))
  {
  }

  lemma AfterAnswer(s: System, links: map<Uuid, Link>, did: H.Stepped)
    requires Inv(s) && s.home.status.Running? && SameDown(s.links, links) && Answered(s, did)
    requires did.frames != [] ==> did.to in s.home.carriers
    ensures Inv(HomeDid(s, links, did))
  {
    HomeAnswered(s, links, did);
    PlacesAfterHome(s, links, did);
  }

  lemma AfterSelection(s: System, links: map<Uuid, Link>, c: Uuid, race: Uuid)
    requires Inv(s) && s.home.status.Running? && SameDown(s.links, links)
    requires c in links && c in s.home.carriers && race !in s.home.races.winners
    ensures Inv(HomeDid(s, links, H.OnRace(s.home, c, race)))
  {
    HomeSelected(s, links, c, race);
    PlacesAfterHome(s, links, H.OnRace(s.home, c, race));
    H.RememberKeeps(s.home.races, race, c);
  }

  /** Frames only reach Home from Carriers it has attached. */
  lemma ComesFromAttached(s: System, c: Uuid)
    requires Inv(s) && c in s.links && s.links[c].up != []
    ensures c in s.home.carriers
    ensures UpKind(s.links[c].up[0]) && Honest(s.links[c].up[0], s.home.flow, s.travel.x, s.home.x.snd.log)
  {
    assert PlaceOk(s.home, s.travel, s.arriving, c, s.links[c]);
    assert LinkOk(s.home, s.travel, s.links[c]);
    assert s.links[c].up[0] in s.links[c].up;
  }

  lemma HomeAnswersAttached(h: H.Home, c: Uuid, f: Frame)
    requires c in h.carriers
    ensures H.OnFrame(h, c, f).frames != [] ==> H.OnFrame(h, c, f).to in h.carriers
  {
  }

  /** Home's step on an honest frame is a selection or an answer. */
  lemma HomeGotFrame(s: System, c: Uuid, f: Frame)
    requires EndsOk(s.home.x, s.travel.x) && c in s.home.carriers
    requires UpKind(f) && Honest(f, s.home.flow, s.travel.x, s.home.x.snd.log)
    ensures var did := H.OnFrame(s.home, c, f);
            if f.Race? && f.race !in s.home.races.winners then did == H.OnRace(s.home, c, f.race)
            else Answered(s, did) && (did.frames != [] ==> did.to in s.home.carriers)
  {
    HomeAnswersAttached(s.home, c, f);
    if f.Race? {
      HomeGotRace(s, c, f);
    } else {
      HomeGotOther(s, H.OnFrame(s.home, c, f), c, f);
    }
  }

  lemma HomeReceivesKeeps(s: System, s': System, c: Uuid, f: Frame)
    requires Inv(s) && s.home.status.Running? && c in s.links && s.links[c].up != [] && f == s.links[c].up[0]
    requires s' == HomeDid(s, PopUp(s.links, c), H.OnFrame(s.home, c, f))
    ensures Inv(s')
  {
    var links := PopUp(s.links, c);
    PopUpSameDown(s.links, c);
    ComesFromAttached(s, c);
    HomeGotFrame(s, c, f);
    if f.Race? && f.race !in s.home.races.winners {
      AfterSelection(s, links, c, f.race);
    } else {
      AfterAnswer(s, links, H.OnFrame(s.home, c, f));
    }
  }

  // ----- other Home actions -----

  lemma HomeTakesLocalKeeps(s: System)
    requires Inv(s) && Enabled(s, HomeTakesLocal)
    ensures Inv(Apply(s, HomeTakesLocal))
  {
    TakeLocalDirection(s.home.x, s.travel.x.rcv);
    CreditSuffices(s.home.x);
    HomeTookLocal(s);
    H.EventsKeepAttachment(s.home, 0, OtherFrame, 0);
    PlacesAfterHome(s, s.links, H.OnTarget(s.home));
  }

  /** What a new Carrier is told is honest. */
  lemma AttachAnswer(s: System, c: Uuid)
    requires EndsOk(s.home.x, s.travel.x)
    ensures var did := H.OnCarrier(s.home, c);
            DownOk(s.home.flow, s.home.x, s.travel.x, did.frames) && NoData(did.frames)
  {
    AckedBelowReceived(s.travel.x.snd, s.home.x.rcv);
    OneFrameDown(s.home.flow, s.home.x, s.travel.x, H.OnCarrier(s.home, c).frames,
                 OpenOk(s.home.flow, c, s.home.x.rcv.offset, s.home.x.snd.acked));
  }

  lemma PlacesAfterAttach(s: System, s': System, c: Uuid)
    requires PlacesOk(s) && c in s.arriving
    requires s' == HomeDid(s, s.links, H.OnCarrier(s.home, c)).(arriving := s.arriving - {c})
    ensures PlacesOk(s')
  {
    forall d | d in s'.links ensures PlaceOk(s'.home, s'.travel, s'.arriving, d, s'.links[d]) {
      assert PlaceOk(s.home, s.travel, s.arriving, d, s.links[d]);
    }
  }

  lemma HomeAttachesKeeps(s: System, c: Uuid)
    requires Inv(s) && Enabled(s, HomeAttaches(c))
    ensures Inv(Apply(s, HomeAttaches(c)))
  {
    AttachAnswer(s, c);
    HomeAnswered(s, s.links, H.OnCarrier(s.home, c));
    PlacesAfterAttach(s, Apply(s, HomeAttaches(c)), c);
    H.EventsKeepAttachment(s.home, c, OtherFrame, 0);
  }

  lemma PlacesAfterClose(s: System, c: Uuid, now: nat)
    requires PlacesOk(s) && Enabled(s, HomeSeesClose(c, now))
    ensures PlacesOk(HomeDid(s, s.links, H.OnCarrierClosed(s.home, c, now)))
  {
    var s' := HomeDid(s, s.links, H.OnCarrierClosed(s.home, c, now));
    forall o | o in s'.links ensures PlaceOk(s'.home, s'.travel, s'.arriving, o, s'.links[o]) {
      assert PlaceOk(s.home, s.travel, s.arriving, o, s.links[o]);
    }
  }

  lemma HomeSeesCloseKeeps(s: System, s': System, c: Uuid, now: nat)
    requires Inv(s) && Enabled(s, HomeSeesClose(c, now))
    requires s' == HomeDid(s, s.links, H.OnCarrierClosed(s.home, c, now))
    ensures Inv(s')
  {
    HomeAnswered(s, s.links, H.OnCarrierClosed(s.home, c, now));
    PlacesAfterClose(s, c, now);
    H.EventsKeepAttachment(s.home, c, OtherFrame, now);
  }

  lemma HomeReadsKeeps(s: System, step: ReaderStep)
    requires Inv(s) && Enabled(s, HomeReads(step))
    ensures Inv(Apply(s, HomeReads(step)))
  {
    ReaderStepKeeps(s.home.x, step);
    var h' := Apply(s, HomeReads(step)).home;
    HomeAnswered(s, s.links, H.Stepped(h', 0, []));
  }

  // ----- Travel takes a frame -----

  /** Travel took a frame: it failed only for one of the reasons an honest Home can cause. */
  ghost predicate Took(s: System, f: Frame, did: T.Stepped) {
    && EndsOk(s.home.x, did.travel.x) && Grew(s.travel.x, did.travel.x)
    && did.travel.flow == s.travel.flow
    && did.travel.x.rcv.offset == AfterHead(s.travel.x.rcv.offset, f) <= s.home.x.snd.offset
    && UpOk(s.home.flow, did.travel.x, s.home.x, did.frames)
    && did.travel.carriers <= s.travel.carriers
    && (did.frames != [] ==> did.to in s.travel.carriers)
    && (did.travel.status == T.Running ||
        (did.travel.status == T.Failed(T.HomeClosed) && f.Close?) ||
        (did.travel.status == T.Failed(T.InvalidFrameReceived) && (f.Ack? || f.Duplicate?)
         && f.next < s.travel.x.snd.acked))
  }

  lemma OneFrameUp(flow: Uuid, travel: Endpoint, home: Endpoint, frames: seq<Frame>, f: Frame)
    requires frames == [f] || frames == []
    requires UpKind(f) && Honest(f, flow, travel, home.snd.log)
    ensures UpOk(flow, travel, home, frames)
  {
  }

  /** Travel moved its endpoint and answered with at most one frame. */
  lemma TookWith(s: System, f: Frame, did: T.Stepped, y: Endpoint, c: Uuid, g: Frame)
    requires EndsOk(s.home.x, y) && Grew(s.travel.x, y) && s.travel.status.Running?
    requires y.rcv.offset == AfterHead(s.travel.x.rcv.offset, f) <= s.home.x.snd.offset
    requires UpKind(g) && Honest(g, s.home.flow, y, s.home.x.snd.log)
    requires did == T.SendTo(s.travel.(x := y), c, [g])
    ensures Took(s, f, did)
  {
    OneFrameUp(s.home.flow, y, s.home.x, did.frames, g);
  }

  lemma TravelAccepted(s: System, did: T.Stepped, c: Uuid, f: Frame)
    requires EndsOk(s.home.x, s.travel.x) && s.travel.status.Running? && s.travel.flow == s.home.flow
    requires f.Data? && Segment(f.offset, f.bytes) in s.home.x.snd.log && f.offset == s.travel.x.rcv.offset
    requires did == T.OnData(s.travel, c, f.offset, f.bytes)
    ensures Took(s, f, did)
  {
    var y := s.travel.x.(rcv := Accept(s.travel.x.rcv, f.offset, f.bytes));
    AcceptKeeps(s.home.x.snd, s.travel.x.rcv, f.bytes);
    NotNextIsOld(s.home.x.snd, s.travel.x.rcv, f.offset, f.bytes);
    TookWith(s, f, did, y, c, Ack(s.travel.flow, y.rcv.offset));
  }

  lemma TravelGotOld(s: System, did: T.Stepped, c: Uuid, f: Frame)
    requires EndsOk(s.home.x, s.travel.x) && s.travel.status.Running? && s.travel.flow == s.home.flow
    requires f.Data? && Segment(f.offset, f.bytes) in s.home.x.snd.log && f.offset < s.travel.x.rcv.offset
    requires did == T.OnData(s.travel, c, f.offset, f.bytes)
    ensures Took(s, f, did)
  {
    AckedBelowReceived(s.home.x.snd, s.travel.x.rcv);
    NotNextIsOld(s.home.x.snd, s.travel.x.rcv, f.offset, f.bytes);
    assert s.travel == s.travel.(x := s.travel.x);
    TookWith(s, f, did, s.travel.x, c,
             Duplicate(s.travel.flow, s.travel.x.rcv.offset,
                       if s.travel.active.Some? then s.travel.active.value else c));
  }

  lemma TravelGotData(s: System, c: Uuid, f: Frame)
    requires EndsOk(s.home.x, s.travel.x) && s.travel.status.Running? && s.travel.flow == s.home.flow
    requires f.Data? && Segment(f.offset, f.bytes) in s.home.x.snd.log && f.offset <= s.travel.x.rcv.offset
    requires f.flow == s.home.flow
    ensures Took(s, f, T.OnFrame(s.travel, c, f))
  {
    NotNextIsOld(s.home.x.snd, s.travel.x.rcv, f.offset, f.bytes);
    if f.offset == s.travel.x.rcv.offset {
      TravelAccepted(s, T.OnFrame(s.travel, c, f), c, f);
    } else {
      TravelGotOld(s, T.OnFrame(s.travel, c, f), c, f);
    }
  }

  lemma TravelAcked(s: System, f: Frame, next: nat)
    requires EndsOk(s.home.x, s.travel.x) && s.travel.status.Running? && !f.Data?
    requires Boundary(s.travel.x.snd.log, s.home.x.rcv.accepted, next) && s.travel.x.snd.acked <= next
    ensures InWindow(s.travel.x.snd, next) && Took(s, f, T.OnAck(s.travel, next))
  {
    HonestAckKeeps(s.travel.x.snd, s.home.x.rcv, next);
    AcknowledgeCredit(s.travel.x, next);
    AckedBelowReceived(s.home.x.snd, s.travel.x.rcv);
  }

  lemma TravelGotAck(s: System, c: Uuid, f: Frame)
    requires EndsOk(s.home.x, s.travel.x) && s.travel.status.Running? && s.travel.flow == s.home.flow
    requires (f.Ack? || f.Duplicate?) && f.flow == s.home.flow
    requires Boundary(s.travel.x.snd.log, s.home.x.rcv.accepted, f.next) && s.travel.x.snd.acked <= f.next
    ensures Took(s, f, T.OnFrame(s.travel, c, f))
  {
    TravelAcked(s, f, f.next);
    AckFrame(s.travel, c, f);
  }

  lemma AckFrame(t: T.Travel, c: Uuid, f: Frame)
    requires (f.Ack? || f.Duplicate?) && f.flow == t.flow && InWindow(t.x.snd, f.next)
    ensures T.OnFrame(t, c, f) == T.OnAck(t, f.next)
  {
  }

  lemma TravelGotFin(s: System, c: Uuid, f: Frame)
    requires EndsOk(s.home.x, s.travel.x) && s.travel.status.Running? && s.travel.flow == s.home.flow
    requires f.Fin? && f.flow == s.home.flow
    requires s.home.x.snd.eof && f.final == s.home.x.snd.offset == s.travel.x.rcv.offset
    ensures Took(s, f, T.OnFrame(s.travel, c, f))
  {
    EndsSwap(s.home.x, s.travel.x);
    FinishedEnd(s.travel.x, s.home.x);
    var y := s.travel.x.(rcv := s.travel.x.rcv.(eof := true));
    EndsSwap(y, s.home.x);
    TookWith(s, f, T.OnFrame(s.travel, c, f), y, c, FinAck(s.travel.flow, f.final));
  }

  lemma TravelWonRace(s: System, f: Frame, winner: Uuid)
    requires EndsOk(s.home.x, s.travel.x) && s.travel.status.Running? && s.travel.flow == s.home.flow && !f.Data?
    ensures Took(s, f, T.OnRaceWon(s.travel, winner))
  {
    var did := T.OnRaceWon(s.travel, winner);
    AckedBelowReceived(s.home.x.snd, s.travel.x.rcv);
    forall g | g in did.frames ensures UpKind(g) && Honest(g, s.home.flow, did.travel.x, s.home.x.snd.log) {
      ResentHonest(s.home.flow, s.travel.x, s.home.x.snd.log, g);
    }
  }

  lemma TravelGotQuiet(s: System, c: Uuid, f: Frame)
    requires EndsOk(s.home.x, s.travel.x) && s.travel.status.Running? && s.travel.flow == s.home.flow
    requires DownKind(f) && Honest(f, s.home.flow, s.home.x, s.travel.x.snd.log)
    requires f.FinAck? || f.RaceAck? || f.RaceDuplicate? || f.Close?
             || ((f.Ack? || f.Duplicate?) && f.next < s.travel.x.snd.acked)
    ensures Took(s, f, T.OnFrame(s.travel, c, f))
  {
    AckedBelowReceived(s.home.x.snd, s.travel.x.rcv);
    if T.DecidesRace(s.travel, f) {
      TravelWonRace(s, f, f.winner);
    }
  }

  /** What Travel can find at the head of a Carrier's queue. */
  lemma HeadOfDown(h: H.Home, t: T.Travel, l: Link)
    requires LinkOk(h, t, l) && l.down != []
    ensures var f := l.down[0];
            && DownKind(f) && Honest(f, h.flow, h.x, t.x.snd.log)
            && (f.Data? ==> f.offset <= t.x.rcv.offset)
            && (f.Fin? ==> t.x.rcv.offset == h.x.snd.offset)
  {
    assert l.down[0] in l.down;
  }

  lemma TravelGotFrame(s: System, c: Uuid, f: Frame)
    requires EndsOk(s.home.x, s.travel.x) && s.travel.status.Running? && s.travel.flow == s.home.flow
    requires DownKind(f) && !f.OpenOk? && Honest(f, s.home.flow, s.home.x, s.travel.x.snd.log)
    requires f.Data? ==> f.offset <= s.travel.x.rcv.offset
    requires f.Fin? ==> s.travel.x.rcv.offset == s.home.x.snd.offset
    ensures Took(s, f, T.OnFrame(s.travel, c, f))
  {
    if f.Data? {
      TravelGotData(s, c, f);
    } else if (f.Ack? || f.Duplicate?) && s.travel.x.snd.acked <= f.next {
      TravelGotAck(s, c, f);
    } else if f.Fin? {
      TravelGotFin(s, c, f);
    } else {
      TravelGotQuiet(s, c, f);
    }
  }

  lemma PlacesAfterTravel(s: System, links: map<Uuid, Link>, did: T.Stepped)
    requires PlacesOk(s) && SameUp(s.links, links) && did.travel.carriers <= s.travel.carriers
    requires did.frames != [] ==> did.to in s.travel.carriers
    ensures PlacesOk(TravelDid(s, links, did))
  {
  }

  lemma StatusAfterTook(s: System, f: Frame, did: T.Stepped)
    requires StatusOk(s) && Took(s, f, did)
    ensures StatusOk(s.(travel := did.travel))
  {
  }

  lemma AfterTook(s: System, s': System, c: Uuid, did: T.Stepped)
    requires Inv(s) && s.travel.status.Running? && c in s.links && s.links[c].down != []
    requires Took(s, s.links[c].down[0], did) && s' == TravelDid(s, PopDown(s.links, c), did)
    ensures Inv(s')
  {
    TravelTook(s, c, did);
    PlacesAfterTravel(s, PopDown(s.links, c), did);
    StatusAfterTook(s, s.links[c].down[0], did);
  }

  lemma TravelReceivesKeeps(s: System, c: Uuid)
    requires Inv(s) && Enabled(s, TravelReceives(c))
    ensures Inv(Apply(s, TravelReceives(c)))
  {
    HeadOfDown(s.home, s.travel, s.links[c]);
    TravelGotFrame(s, c, s.links[c].down[0]);
    AfterTook(s, Apply(s, TravelReceives(c)), c, T.OnFrame(s.travel, c, s.links[c].down[0]));
  }

  // ----- other Travel actions -----

  /** Travel moved on its own: nothing was taken from a Carrier. */
  lemma AfterMove(s: System, s': System, did: T.Stepped)
    requires Inv(s) && StatusOk(s.(travel := did.travel)) && s' == TravelDid(s, s.links, did)
    requires did.travel.flow == s.travel.flow && EndsOk(s.home.x, did.travel.x) && Grew(s.travel.x, did.travel.x)
    requires did.travel.x.rcv == s.travel.x.rcv && did.travel.carriers <= s.travel.carriers
    requires UpOk(s.home.flow, did.travel.x, s.home.x, did.frames)
    requires did.frames != [] ==> did.to in s.travel.carriers
    ensures Inv(s')
  {
    AckedBelowReceived(s.home.x.snd, s.travel.x.rcv);
    TravelMoved(s, did);
    PlacesAfterTravel(s, s.links, did);
  }

  lemma TravelStartsRaceKeeps(s: System, race: Uuid)
    requires Inv(s) && Enabled(s, TravelStartsRace(race))
    ensures Inv(Apply(s, TravelStartsRace(race)))
  {
    var did := T.StartRace(s.travel, race);
    OneFrameUp(s.home.flow, s.travel.x, s.home.x, did.frames, Race(s.travel.flow, race, s.travel.x.snd.acked));
    AfterMove(s, Apply(s, TravelStartsRace(race)), did);
  }

  lemma RaceLostMove(t: T.Travel)
    requires t.race.Some?
    ensures var t' := T.OnRaceLost(t);
            t'.x == t.x && t'.flow == t.flow && t'.status == t.status && t'.carriers <= t.carriers
  {
  }

  lemma TravelLosesRaceKeeps(s: System)
    requires Inv(s) && Enabled(s, TravelLosesRace)
    ensures Inv(Apply(s, TravelLosesRace))
  {
    RaceLostMove(s.travel);
    AfterMove(s, Apply(s, TravelLosesRace), T.Quiet(T.OnRaceLost(s.travel)));
  }

  lemma TravelSeesCloseKeeps(s: System, c: Uuid)
    requires Inv(s) && Enabled(s, TravelSeesClose(c))
    ensures Inv(Apply(s, TravelSeesClose(c)))
  {
    AfterMove(s, Apply(s, TravelSeesClose(c)), T.Quiet(T.OnCarrierClosed(s.travel, c)));
  }

  lemma TravelReadsKeeps(s: System, step: ReaderStep)
    requires Inv(s) && Enabled(s, TravelReads(step))
    ensures Inv(Apply(s, TravelReads(step)))
  {
    ReaderStepKeeps(s.travel.x, step);
    AfterMove(s, Apply(s, TravelReads(step)), T.Quiet(Apply(s, TravelReads(step)).travel));
  }

  lemma LocalShape(t: T.Travel, did: T.Stepped)
    requires t.x.local.queue != [] && did == T.OnLocal(t)
    requires t.x.local.queue[0].LocalData? ==> !OverLimit(t.x, t.x.local.queue[0].bytes)
    ensures did.travel == t.(x := TakeLocal(t.x)) && (did.frames == [] || did.frames == [LocalFrame(t.flow, t.x)])
    ensures did.frames != [] ==> did.to in t.carriers
  {
  }

  lemma TravelTakesLocalKeeps(s: System)
    requires Inv(s) && Enabled(s, TravelTakesLocal)
    ensures Inv(Apply(s, TravelTakesLocal))
  {
    var did := T.OnLocal(s.travel);
    LocalEnd(s.travel.x, s.home.x, s.travel.flow);
    LocalShape(s.travel, did);
    OneFrameUp(s.home.flow, did.travel.x, s.home.x, did.frames, LocalFrame(s.travel.flow, s.travel.x));
    AfterMove(s, Apply(s, TravelTakesLocal), did);
  }

  lemma TravelOpensKeeps(s: System, c: Uuid)
    requires Inv(s) && Enabled(s, TravelOpens(c))
    ensures Inv(Apply(s, TravelOpens(c)))
  {
    var did := T.Quiet(T.Open(s.travel, c));
    AfterMove(s, TravelDid(s, s.links, did), did);
  }

  /** A candidate's answer is an honest acknowledgement; Travel refuses it exactly when a later
      one overtook it on another Carrier. */
  lemma TravelGotOpened(s: System, c: Uuid, f: Frame)
    requires EndsOk(s.home.x, s.travel.x) && s.travel.status.Running? && s.travel.race.Some?
    requires s.travel.flow == s.home.flow
    requires f.OpenOk? && Honest(f, s.home.flow, s.home.x, s.travel.x.snd.log)
    ensures var did := T.OnOpened(s.travel, c, f.receiveOffset);
            && EndsOk(s.home.x, did.travel.x) && Grew(s.travel.x, did.travel.x)
            && did.travel.flow == s.travel.flow && did.travel.x.rcv == s.travel.x.rcv
            && did.travel.carriers <= s.travel.carriers + {c} && (did.frames != [] ==> did.to == c)
            && UpOk(s.home.flow, did.travel.x, s.home.x, did.frames)
            && did.travel.status == if f.receiveOffset < s.travel.x.snd.acked
                                    then T.Failed(T.AckMovedBackwards) else T.Running
  {
    HonestAckBelowOffset(s.travel.x.snd, s.home.x.rcv, f.receiveOffset);
    if s.travel.x.snd.acked <= f.receiveOffset {
      HonestAckKeeps(s.travel.x.snd, s.home.x.rcv, f.receiveOffset);
      AcknowledgeCredit(s.travel.x, f.receiveOffset);
    }
  }

  lemma PlacesAfterOpened(s: System, c: Uuid, did: T.Stepped)
    requires PlacesOk(s) && c in s.links && s.links[c].down != []
    requires did.travel.carriers <= s.travel.carriers + {c} && (did.frames != [] ==> did.to == c)
    ensures PlacesOk(TravelDid(s, PopDown(s.links, c), did))
  {
    assert PlaceOk(s.home, s.travel, s.arriving, c, s.links[c]);
  }

  lemma AfterOpened(s: System, s': System, c: Uuid, did: T.Stepped)
    requires Inv(s) && s.travel.status.Running? && c in s.links && s.links[c].down != [] && !s.links[c].down[0].Data?
    requires s' == TravelDid(s, PopDown(s.links, c), did)
    requires EndsOk(s.home.x, did.travel.x) && Grew(s.travel.x, did.travel.x)
    requires did.travel.flow == s.travel.flow && did.travel.x.rcv == s.travel.x.rcv
    requires did.travel.carriers <= s.travel.carriers + {c} && (did.frames != [] ==> did.to == c)
    requires UpOk(s.home.flow, did.travel.x, s.home.x, did.frames)
    requires did.travel.status == T.Running || did.travel.status == T.Failed(T.AckMovedBackwards)
    ensures Inv(s')
  {
    AckedBelowReceived(s.home.x.snd, s.travel.x.rcv);
    TravelTook(s, c, did);
    PlacesAfterOpened(s, c, did);
  }

  lemma TravelOpenedKeeps(s: System, c: Uuid)
    requires Inv(s) && Enabled(s, TravelOpened(c))
    ensures Inv(Apply(s, TravelOpened(c)))
  {
    var f := s.links[c].down[0];
    HeadOfDown(s.home, s.travel, s.links[c]);
    TravelGotOpened(s, c, f);
    AfterOpened(s, Apply(s, TravelOpened(c)), c, T.OnOpened(s.travel, c, f.receiveOffset));
  }

  // ----- cuts -----

  lemma UpIsCutKeeps(s: System, c: Uuid, kept: nat)
    requires Inv(s) && Enabled(s, UpIsCut(c, kept))
    ensures Inv(Apply(s, UpIsCut(c, kept)))
  {
    assert LinkOk(s.home, s.travel, s.links[c]) && PlaceOk(s.home, s.travel, s.arriving, c, s.links[c]);
    assert forall f | f in s.links[c].up[..kept] :: f in s.links[c].up;
  }

  lemma DownIsCutKeeps(s: System, c: Uuid, kept: nat)
    requires Inv(s) && Enabled(s, DownIsCut(c, kept))
    ensures Inv(Apply(s, DownIsCut(c, kept)))
  {
    assert LinkOk(s.home, s.travel, s.links[c]) && PlaceOk(s.home, s.travel, s.arriving, c, s.links[c]);
    assert forall f | f in s.links[c].down[..kept] :: f in s.links[c].down;
    QueuePrefix(s.travel.x.rcv.offset, s.links[c].down, kept, s.home.x.snd.offset);
  }

  // ----- all of them -----

  lemma HomeStatusKeeps(s: System, s': System, status: H.HomeStatus)
    requires Inv(s) && s' == s.(home := s.home.(status := status)) && StatusOk(s')
    ensures Inv(s')
  {
    var did := H.Stepped(s.home.(status := status), 0, []);
    HomeAnswered(s, s.links, did);
    PlacesAfterHome(s, s.links, did);
  }

  lemma TravelStatusKeeps(s: System, s': System, status: T.TravelStatus)
    requires Inv(s) && s' == s.(travel := s.travel.(status := status)) && StatusOk(s')
    ensures Inv(s')
  {
    AfterMove(s, s', T.Quiet(s.travel.(status := status)));
  }

  lemma EndedStatusOk(s: System, s': System, a: Action)
    requires StatusOk(s) && Enabled(s, a) && s' == Apply(s, a)
    requires a.HomeDetachExpires? || a.HomeIoFails? || a.TravelIoFails? || a.HomeFinishes? || a.TravelFinishes?
    ensures StatusOk(s')
    ensures if a.TravelIoFails? || a.TravelFinishes? then s' == s.(travel := s.travel.(status := s'.travel.status))
            else s' == s.(home := s.home.(status := s'.home.status))
  {
  }

  lemma StatusStepKeeps(s: System, a: Action)
    requires Inv(s) && Enabled(s, a)
    requires a.HomeDetachExpires? || a.HomeIoFails? || a.TravelIoFails? || a.HomeFinishes? || a.TravelFinishes?
    ensures Inv(Apply(s, a))
  {
    var s' := Apply(s, a);
    EndedStatusOk(s, s', a);
    if a.TravelIoFails? || a.TravelFinishes? {
      TravelStatusKeeps(s, s', s'.travel.status);
    } else {
      HomeStatusKeeps(s, s', s'.home.status);
    }
  }

  predicate IsTravelStep(a: Action) {
    a.TravelStartsRace? || a.TravelOpens? || a.TravelOpened? || a.TravelLosesRace? || a.TravelReceives?
    || a.TravelSeesClose? || a.TravelReads? || a.TravelTakesLocal?
  }

  predicate IsRaceStep(a: Action) {
    a.TravelStartsRace? || a.TravelOpens? || a.TravelOpened? || a.TravelLosesRace?
  }

  lemma RaceStepKeeps(s: System, a: Action)
    requires Inv(s) && Enabled(s, a) && IsRaceStep(a)
    ensures Inv(Apply(s, a))
  {
    match a
    case TravelStartsRace(race) => TravelStartsRaceKeeps(s, race);
    case TravelOpens(c) => TravelOpensKeeps(s, c);
    case TravelOpened(c) => TravelOpenedKeeps(s, c);
    case TravelLosesRace => TravelLosesRaceKeeps(s);
  }

  lemma TravelStepKeeps(s: System, a: Action)
    requires Inv(s) && Enabled(s, a) && IsTravelStep(a) && !IsRaceStep(a)
    ensures Inv(Apply(s, a))
  {
    match a
    case TravelReceives(c) => TravelReceivesKeeps(s, c);
    case TravelSeesClose(c) => TravelSeesCloseKeeps(s, c);
    case TravelReads(step) => TravelReadsKeeps(s, step);
    case TravelTakesLocal => TravelTakesLocalKeeps(s);
  }

  predicate IsHomeStep(a: Action) {
    a.HomeAttaches? || a.HomeReceives? || a.HomeSeesClose? || a.HomeReads? || a.HomeTakesLocal? || IsCut(a)
  }

  predicate IsCut(a: Action) {
    a.UpIsCut? || a.DownIsCut?
  }

  lemma HomeStepKeeps(s: System, a: Action)
    requires Inv(s) && Enabled(s, a) && IsHomeStep(a) && !IsCut(a)
    ensures Inv(Apply(s, a))
  {
    match a
    case HomeAttaches(c) => HomeAttachesKeeps(s, c);
    case HomeReceives(c) => HomeReceivesKeeps(s, Apply(s, a), c, s.links[c].up[0]);
    case HomeSeesClose(c, now) => HomeSeesCloseKeeps(s, Apply(s, a), c, now);
    case HomeReads(step) => HomeReadsKeeps(s, step);
    case HomeTakesLocal => HomeTakesLocalKeeps(s);
  }

  lemma CutStepKeeps(s: System, a: Action)
    requires Inv(s) && Enabled(s, a) && IsCut(a)
    ensures Inv(Apply(s, a))
  {
    match a
    case UpIsCut(c, kept) => UpIsCutKeeps(s, c, kept);
    case DownIsCut(c, kept) => DownIsCutKeeps(s, c, kept);
  }

  lemma StepKeeps(s: System, a: Action)
    requires Inv(s) && Enabled(s, a)
    ensures Inv(Apply(s, a))
  {
    if IsCut(a) {
      CutStepKeeps(s, a);
    } else if IsHomeStep(a) {
      HomeStepKeeps(s, a);
    } else if IsRaceStep(a) {
      RaceStepKeeps(s, a);
    } else if IsTravelStep(a) {
      TravelStepKeeps(s, a);
    } else {
      StatusStepKeeps(s, a);
    }
  }

  lemma {:induction false} RunKeeps(s: System, trace: seq<Action>)
    requires Inv(s)
    ensures Inv(Run(s, trace))
    decreases |trace|
  {
    if trace != [] {
      if Enabled(s, trace[0]) {
        StepKeeps(s, trace[0]);
        RunKeeps(Apply(s, trace[0]), trace[1..]);
      } else {
        RunKeeps(s, trace[1..]);
      }
    }
  }

  lemma NewEnds(homeMax: nat, travelMax: nat)
    requires MAX_DATA_PAYLOAD <= homeMax && MAX_DATA_PAYLOAD <= travelMax
    ensures EndsOk(NewEndpoint(homeMax), NewEndpoint(travelMax))
  {
  }

  lemma NewRaces(flow: Uuid, detachTimeout: nat, max: nat, now: nat)
    ensures H.RaceMemoryOk(H.NewHome(flow, detachTimeout, max, now).races)
    ensures H.AttachmentOk(H.NewHome(flow, detachTimeout, max, now))
  {
  }

  lemma InitialOk(flow: Uuid, detachTimeout: nat, homeMax: nat, travelMax: nat, now: nat)
    requires MAX_DATA_PAYLOAD <= homeMax && MAX_DATA_PAYLOAD <= travelMax
    ensures Inv(Initial(flow, detachTimeout, homeMax, travelMax, now))
  {
    NewEnds(homeMax, travelMax);
    NewRaces(flow, detachTimeout, homeMax, now);
  }
}
