/** What each event achieves in a flow between honest ends, and what it takes to finish one. */
module FlowProgress {
  import opened Basics
  import opened Transfer
  import opened TransferLemmas
  import opened FlowSystem
  import opened FlowInvariant
  import opened FlowLinks
  import opened FlowSteps
  import opened FlowTheorems
  import H = HomeFlow
  import T = TravelFlow

  // ----- one frame -----

  predicate IsAck(f: Frame) {
    f.Ack? || f.Duplicate?
  }

  /** The receiver's next data, over the Carrier it listens to. */
  predicate IsNext(r: Receiver, f: Frame) {
    f.Data? && f.offset == r.offset
  }

  /** Both halves of an endpoint after a frame: acknowledgements move the window forward, the next
      data is written, and the two ends of stream are noted. `next` tells whether data is taken. */
  ghost predicate Effect(x: Endpoint, y: Endpoint, f: Frame, next: bool) {
    && y.snd.acked == (if IsAck(f) && x.snd.acked <= f.next then f.next else x.snd.acked)
    && y.snd.finAcked == (x.snd.finAcked || f.FinAck?)
    && y.rcv.eof == (x.rcv.eof || (f.Fin? && f.final == x.rcv.offset))
    && (if next then f.Data? && y.rcv.written == x.rcv.written + f.bytes && y.rcv.offset == x.rcv.offset + |f.bytes|
        else y.rcv.written == x.rcv.written && y.rcv.offset == x.rcv.offset)
    && y.snd.log == x.snd.log && y.snd.offset == x.snd.offset && y.snd.eof == x.snd.eof
    && y.local.read == x.local.read && y.local.queue == x.local.queue
  }

  predicate TakesRace(h: H.Home, f: Frame) {
    f.Race? && f.race !in h.races.winners
  }

  /** What Home owes for a frame. */
  ghost predicate Answers(h: H.Home, c: Uuid, f: Frame, frames: seq<Frame>) {
    && (f.Fin? && f.final == h.x.rcv.offset ==> frames == [FinAck(h.flow, f.final)])
    && (IsNext(h.x.rcv, f) && h.active == Some(c) ==> frames == [Ack(h.flow, f.offset + |f.bytes|)])
    && (f.Race? && f.race in h.races.winners ==> frames == [RaceDuplicate(h.flow, f.race, h.races.winners[f.race])])
    && (f.Data? && f.offset < h.x.rcv.offset ==>
          frames == [Duplicate(h.flow, h.x.rcv.offset, if h.active.Some? then h.active.value else c)])
    && (TakesRace(h, f) ==> frames == [RaceAck(h.flow, f.race, c)] + RetransmitFrames(h.flow, h.x.snd))
  }

  ghost predicate HomeEffect(h: H.Home, did: H.Stepped, c: Uuid, f: Frame) {
    && Effect(h.x, did.home.x, f, IsNext(h.x.rcv, f) && h.active == Some(c))
    && Answers(h, c, f, did.frames)
    && did.home.active == (if TakesRace(h, f) then Some(c) else h.active)
    && did.home.deadline == (if TakesRace(h, f) then None else h.deadline)
    && did.home.carriers == h.carriers && did.home.detachTimeout == h.detachTimeout
  }

  lemma HomeEffectOfData(h: H.Home, x: Endpoint, c: Uuid, f: Frame)
    requires EndsOk(h.x, x) && c in h.carriers && f.Data? && Honest(f, h.flow, x, h.x.snd.log)
    ensures HomeEffect(h, H.OnFrame(h, c, f), c, f)
  {
    NotNextIsOld(x.snd, h.x.rcv, f.offset, f.bytes);
    assert H.OnFrame(h, c, f) == H.OnData(h, c, f.offset, f.bytes);
  }

  lemma HomeEffectOfAck(h: H.Home, x: Endpoint, c: Uuid, f: Frame)
    requires EndsOk(h.x, x) && c in h.carriers && IsAck(f) && Honest(f, h.flow, x, h.x.snd.log)
    ensures HomeEffect(h, H.OnFrame(h, c, f), c, f)
  {
    HonestAckBelowOffset(h.x.snd, x.rcv, f.next);
    if h.x.snd.acked <= f.next {
      HonestAckKeeps(h.x.snd, x.rcv, f.next);
      assert H.OnFrame(h, c, f) == H.OnAck(h, f.next);
    }
  }

  lemma HomeEffectOfEnd(h: H.Home, x: Endpoint, c: Uuid, f: Frame)
    requires EndsOk(h.x, x) && c in h.carriers && (f.Fin? || f.FinAck?) && Honest(f, h.flow, x, h.x.snd.log)
    ensures HomeEffect(h, H.OnFrame(h, c, f), c, f)
    ensures f.FinAck? ==> h.x.snd.eof && f.final == h.x.snd.offset
  {
  }

  lemma HomeEffectOfRace(h: H.Home, x: Endpoint, c: Uuid, f: Frame)
    requires EndsOk(h.x, x) && c in h.carriers && f.Race? && Honest(f, h.flow, x, h.x.snd.log)
    ensures HomeEffect(h, H.OnFrame(h, c, f), c, f)
  {
    AckedBelowReceived(x.snd, h.x.rcv);
    assert H.OnFrame(h, c, f) == H.OnRace(h, c, f.race);
  }

  /** Whatever honest frame Home takes has its effect: an acknowledgement that is not stale moves
      the window, the next data on the selected Carrier is written and acknowledged, a FIN behind
      all data is noted and answered, every FIN-ACK is for Home's own end of stream and is noted,
      and a new race selects its Carrier and stops the detach deadline. */
  lemma HomeTakesFrame(s: System, c: Uuid)
    requires Inv(s) && Enabled(s, HomeReceives(c))
    ensures var f := s.links[c].up[0];
            && HomeEffect(s.home, H.OnFrame(s.home, c, f), c, f)
            && (f.FinAck? ==> s.home.x.snd.eof && f.final == s.home.x.snd.offset)
  {
    ComesFromAttached(s, c);
    var f := s.links[c].up[0];
    match f
    case Data(_, _, _) => HomeEffectOfData(s.home, s.travel.x, c, f);
    case Ack(_, _) => HomeEffectOfAck(s.home, s.travel.x, c, f);
    case Duplicate(_, _, _) => HomeEffectOfAck(s.home, s.travel.x, c, f);
    case Fin(_, _) => HomeEffectOfEnd(s.home, s.travel.x, c, f);
    case FinAck(_, _) => HomeEffectOfEnd(s.home, s.travel.x, c, f);
    case Race(_, _, _) => HomeEffectOfRace(s.home, s.travel.x, c, f);
  }

  /** Travel's side; it does not ask which Carrier data comes over. The answer to its race moves it
      to the winner, which is sent the whole window. */
  ghost predicate TravelEffect(t: T.Travel, did: T.Stepped, c: Uuid, f: Frame) {
    && Effect(t.x, did.travel.x, f, IsNext(t.x.rcv, f))
    && (f.Fin? && c in t.carriers ==> did.frames == [FinAck(t.flow, f.final)])
    && (IsNext(t.x.rcv, f) && c in t.carriers ==> did.frames == [Ack(t.flow, f.offset + |f.bytes|)])
    && (f.Data? && f.offset < t.x.rcv.offset && c in t.carriers ==>
          did.frames == [Duplicate(t.flow, t.x.rcv.offset, if t.active.Some? then t.active.value else c)])
    && (T.DecidesRace(t, f) && f.winner in t.carriers ==>
          did.travel.active == Some(f.winner) && did.to == f.winner && did.frames == RetransmitFrames(t.flow, t.x.snd))
    && (!T.DecidesRace(t, f) ==>
          did.travel.active == t.active && did.travel.race == t.race && did.travel.carriers == t.carriers)
  }

  lemma TravelEffectOfAck(t: T.Travel, h: Endpoint, c: Uuid, f: Frame)
    requires EndsOk(h, t.x) && IsAck(f) && Honest(f, t.flow, h, t.x.snd.log) && t.x.snd.acked <= f.next
    ensures TravelEffect(t, T.OnFrame(t, c, f), c, f)
  {
    HonestAckKeeps(t.x.snd, h.rcv, f.next);
    assert T.OnFrame(t, c, f) == T.OnAck(t, f.next);
  }

  lemma TravelEffectOfData(t: T.Travel, h: Endpoint, c: Uuid, f: Frame)
    requires EndsOk(h, t.x) && f.Data? && Honest(f, t.flow, h, t.x.snd.log) && f.offset <= t.x.rcv.offset
    ensures TravelEffect(t, T.OnFrame(t, c, f), c, f)
  {
    NotNextIsOld(h.snd, t.x.rcv, f.offset, f.bytes);
    assert T.OnFrame(t, c, f) == T.OnData(t, c, f.offset, f.bytes);
  }

  lemma TravelEffectOfEnd(t: T.Travel, h: Endpoint, c: Uuid, f: Frame)
    requires EndsOk(h, t.x) && (f.Fin? || f.FinAck?) && Honest(f, t.flow, h, t.x.snd.log)
    requires f.Fin? ==> f.final == t.x.rcv.offset
    ensures TravelEffect(t, T.OnFrame(t, c, f), c, f)
    ensures f.FinAck? ==> t.x.snd.eof && f.final == t.x.snd.offset
  {
    assert T.OnFrame(t, c, f) == if f.Fin? then T.OnFin(t, c, f.final) else T.OnFinAck(t);
  }

  lemma TravelEffectOfRace(t: T.Travel, c: Uuid, f: Frame)
    requires f.RaceAck? || f.RaceDuplicate?
    ensures TravelEffect(t, T.OnFrame(t, c, f), c, f)
  {
    if T.DecidesRace(t, f) {
      assert T.OnFrame(t, c, f) == T.OnRaceWon(t, f.winner);
    } else {
      assert T.OnFrame(t, c, f) == T.Quiet(t);
    }
  }

  /** The frames that end Travel's loop. */
  predicate EndsTravel(t: T.Travel, f: Frame) {
    f.Close? || (IsAck(f) && f.next < t.x.snd.acked)
  }

  lemma TravelEffectOfFrame(t: T.Travel, h: Endpoint, c: Uuid, f: Frame)
    requires EndsOk(h, t.x) && Honest(f, t.flow, h, t.x.snd.log) && DownKind(f)
    requires !f.OpenOk? && !EndsTravel(t, f)
    requires f.Data? ==> f.offset <= t.x.rcv.offset
    requires f.Fin? ==> f.final == t.x.rcv.offset
    ensures TravelEffect(t, T.OnFrame(t, c, f), c, f)
    ensures f.FinAck? ==> t.x.snd.eof && f.final == t.x.snd.offset
  {
    match f
    case Ack(_, _) => TravelEffectOfAck(t, h, c, f);
    case Duplicate(_, _, _) => TravelEffectOfAck(t, h, c, f);
    case Data(_, _, _) => TravelEffectOfData(t, h, c, f);
    case Fin(_, _) => TravelEffectOfEnd(t, h, c, f);
    case FinAck(_, _) => TravelEffectOfEnd(t, h, c, f);
    case RaceAck(_, _, _) => TravelEffectOfRace(t, c, f);
    case RaceDuplicate(_, _, _) => TravelEffectOfRace(t, c, f);
  }

  /** Whatever honest frame Travel takes and survives has its effect; a FIN that arrives is always
      behind all data, and a FIN-ACK always for Travel's own end of stream. */
  lemma TravelTakesFrame(s: System, c: Uuid)
    requires Inv(s) && Enabled(s, TravelReceives(c)) && !EndsTravel(s.travel, s.links[c].down[0])
    ensures var f := s.links[c].down[0];
            && TravelEffect(s.travel, T.OnFrame(s.travel, c, f), c, f)
            && (f.Fin? ==> f.final == s.travel.x.rcv.offset)
            && (f.FinAck? ==> s.travel.x.snd.eof && f.final == s.travel.x.snd.offset)
  {
    HeadOfDown(s.home, s.travel, s.links[c]);
    TravelEffectOfFrame(s.travel, s.home.x, c, s.links[c].down[0]);
  }

  /** A frame that ends Travel's loop leaves the rest of Travel alone. */
  lemma TravelEnded(t: T.Travel, c: Uuid, f: Frame)
    requires EndsTravel(t, f) && f.flow == t.flow
    ensures T.OnFrame(t, c, f).travel.x == t.x && T.OnFrame(t, c, f).travel.status.Failed?
  {
  }

  // ----- local events -----

  /** The end of the local stream is noted; data becomes the next segment. Either is sent on the
      active Carrier. */
  ghost predicate LocalTaken(x: Endpoint, y: Endpoint) {
    && x.local.queue != [] && y.local.queue == x.local.queue[1..]
    && y.rcv == x.rcv && y.snd.acked == x.snd.acked && y.snd.finAcked == x.snd.finAcked
    && match x.local.queue[0]
       case LocalData(bytes) =>
         && y.snd.log == x.snd.log + [Segment(x.snd.offset, bytes)] && y.snd.offset == x.snd.offset + |bytes|
         && y.snd.eof == x.snd.eof
       case LocalEof => y.snd.log == x.snd.log && y.snd.offset == x.snd.offset && y.snd.eof
  }

  lemma LocalIsTaken(x: Endpoint, peer: Endpoint)
    requires EndsOk(peer, x) && Fits(x)
    ensures LocalTaken(x, TakeLocal(x)) && (x.local.queue[0].LocalData? ==> !OverLimit(x, x.local.queue[0].bytes))
  {
    CreditSuffices(x);
  }

  lemma HomeLocalShape(h: H.Home, did: H.Stepped)
    requires h.x.local.queue != [] && did == H.OnTarget(h)
    requires h.x.local.queue[0].LocalData? ==> !OverLimit(h.x, h.x.local.queue[0].bytes)
    ensures did.home == h.(x := TakeLocal(h.x))
    ensures h.active.Some? && h.active.value in h.carriers ==>
              did.to == h.active.value && did.frames == [LocalFrame(h.flow, h.x)]
  {
  }

  lemma TravelLocalShape(t: T.Travel, did: T.Stepped)
    requires t.x.local.queue != [] && did == T.OnLocal(t)
    requires t.x.local.queue[0].LocalData? ==> !OverLimit(t.x, t.x.local.queue[0].bytes)
    ensures did.travel == t.(x := TakeLocal(t.x))
    ensures t.active.Some? && t.active.value in t.carriers ==>
              did.to == t.active.value && did.frames == [LocalFrame(t.flow, t.x)]
  {
  }

  /** Home takes what its reader queued, and sends it on its active Carrier. */
  lemma HomeLocalTakesEffect(s: System, did: H.Stepped)
    requires Inv(s) && Enabled(s, HomeTakesLocal) && did == H.OnTarget(s.home)
    ensures LocalTaken(s.home.x, did.home.x) && did.home == s.home.(x := did.home.x)
    ensures s.home.active.Some? ==>
              did.to == s.home.active.value && did.frames == [LocalFrame(s.home.flow, s.home.x)]
  {
    EndsSwap(s.home.x, s.travel.x);
    LocalIsTaken(s.home.x, s.travel.x);
    HomeLocalShape(s.home, did);
  }

  /** Travel takes what its reader queued, and sends it on its active Carrier while that is
      attached. */
  lemma TravelLocalTakesEffect(s: System, did: T.Stepped)
    requires Inv(s) && Enabled(s, TravelTakesLocal) && did == T.OnLocal(s.travel)
    ensures LocalTaken(s.travel.x, did.travel.x) && did.travel == s.travel.(x := did.travel.x)
    ensures s.travel.active.Some? && s.travel.active.value in s.travel.carriers ==>
              did.to == s.travel.active.value && did.frames == [LocalFrame(s.travel.flow, s.travel.x)]
  {
    LocalIsTaken(s.travel.x, s.home.x);
    TravelLocalShape(s.travel, did);
  }

  // ----- Carriers -----

  lemma ArrivingIsNew(s: System, c: Uuid)
    requires PlacesOk(s) && c in s.arriving
    ensures c in s.links && s.links[c].down == [] && c !in s.home.carriers
  {
    assert PlaceOk(s.home, s.travel, s.arriving, c, s.links[c]);
  }

  lemma AttachesNew(s: System, s': System, c: Uuid)
    requires Enabled(s, HomeAttaches(c)) && s' == Apply(s, HomeAttaches(c))
    requires c in s.links && s.links[c].down == [] && c !in s.home.carriers
    ensures s'.home == s.home.(carriers := s.home.carriers + {c}) && c in s'.links
    ensures !s.links[c].downCut ==>
              s'.links[c].down == [OpenOk(s.home.flow, c, s.home.x.rcv.offset, s.home.x.snd.acked)]
  {
    var frame := OpenOk(s.home.flow, c, s.home.x.rcv.offset, s.home.x.snd.acked);
    assert H.OnCarrier(s.home, c).frames == [frame] && [] + [frame] == [frame];
  }

  /** A new Carrier is attached at Home and told both of Home's offsets. */
  lemma HomeAttachesCarrier(s: System, s': System, c: Uuid)
    requires Inv(s) && Enabled(s, HomeAttaches(c)) && s' == Apply(s, HomeAttaches(c))
    ensures c !in s.home.carriers && s'.home == s.home.(carriers := s.home.carriers + {c})
    ensures c in s.links && c in s'.links
    ensures !s.links[c].downCut ==>
              s'.links[c].down == [OpenOk(s.home.flow, c, s.home.x.rcv.offset, s.home.x.snd.acked)]
  {
    ArrivingIsNew(s, c);
    AttachesNew(s, s', c);
  }

  /** A lost Carrier is detached at either end, and only losing the selected one leaves none selected. */
  lemma LostCarrierIsDetached(s: System, c: Uuid, now: nat)
    ensures Enabled(s, HomeSeesClose(c, now)) ==>
              var h' := Apply(s, HomeSeesClose(c, now)).home;
              && h'.carriers == s.home.carriers - {c} && h'.x == s.home.x
              && h'.active == (if s.home.active == Some(c) then None else s.home.active)
    ensures Enabled(s, TravelSeesClose(c)) ==>
              var t' := Apply(s, TravelSeesClose(c)).travel;
              && t'.carriers == s.travel.carriers - {c} && t'.x == s.travel.x
              && t'.active == (if s.travel.active == Some(c) then None else s.travel.active)
  {
  }

  /** A candidate whose OPEN answer is not stale takes part in Travel's race: it is attached, asks for
      the race over itself, and its answer counts as an acknowledgement. */
  lemma OpenedCandidateRaces(s: System, c: Uuid)
    requires Inv(s) && Enabled(s, TravelOpened(c)) && s.travel.x.snd.acked <= s.links[c].down[0].receiveOffset
    ensures var did := T.OnOpened(s.travel, c, s.links[c].down[0].receiveOffset);
            var race := s.travel.race.value;
            && did.travel.status.Running? && did.travel.carriers == s.travel.carriers + {c}
            && did.travel.race == Some(race.(candidates := race.candidates + {c}))
            && did.travel.x.snd.acked == s.links[c].down[0].receiveOffset
            && did.to == c && did.frames == [Race(s.travel.flow, race.id, s.links[c].down[0].receiveOffset)]
  {
    HeadOfDown(s.home, s.travel, s.links[c]);
    var next := s.links[c].down[0].receiveOffset;
    HonestAckBelowOffset(s.travel.x.snd, s.home.x.rcv, next);
    HonestAckKeeps(s.travel.x.snd, s.home.x.rcv, next);
  }

  // ----- over runs -----

  /** Home takes this frame next. */
  predicate HomeTakes(s: System, a: Action) {
    a.HomeReceives? && a.carrier in s.links && s.links[a.carrier].up != []
  }

  predicate TravelTakes(s: System, a: Action) {
    a.TravelReceives? && a.carrier in s.links && s.links[a.carrier].down != []
  }

  predicate HomeTakesFin(s: System, a: Action) {
    HomeTakes(s, a) && s.links[a.carrier].up[0].Fin? && s.links[a.carrier].up[0].final == s.home.x.rcv.offset
  }

  predicate HomeTakesFinAck(s: System, a: Action) {
    HomeTakes(s, a) && s.links[a.carrier].up[0].FinAck?
  }

  predicate HomeEnds(s: System, a: Action) {
    a.HomeTakesLocal? && s.home.x.local.queue != [] && s.home.x.local.queue[0].LocalEof?
  }

  predicate TravelTakesFin(s: System, a: Action) {
    TravelTakes(s, a) && s.links[a.carrier].down[0].Fin?
  }

  predicate TravelTakesFinAck(s: System, a: Action) {
    TravelTakes(s, a) && s.links[a.carrier].down[0].FinAck?
  }

  predicate TravelEnds(s: System, a: Action) {
    a.TravelTakesLocal? && s.travel.x.local.queue != [] && s.travel.x.local.queue[0].LocalEof?
  }

  // ----- what each action notes of the two ends of stream -----

  predicate Noted(x: Endpoint, y: Endpoint, fin: bool, finAck: bool, eof: bool) {
    y.rcv.eof == (x.rcv.eof || fin) && y.snd.finAcked == (x.snd.finAcked || finAck) && y.snd.eof == (x.snd.eof || eof)
  }

  lemma HomeNotesElse(s: System, s': System, a: Action)
    requires Enabled(s, a) && !a.HomeReceives? && !a.HomeTakesLocal? && s' == Apply(s, a)
    ensures s'.home.x.snd == s.home.x.snd && s'.home.x.rcv == s.home.x.rcv
  {
  }

  lemma HomeNotesFrame(s: System, h': H.Home, a: Action)
    requires Inv(s) && Enabled(s, a) && a.HomeReceives?
    requires h' == H.OnFrame(s.home, a.carrier, s.links[a.carrier].up[0]).home
    ensures Noted(s.home.x, h'.x, HomeTakesFin(s, a), HomeTakesFinAck(s, a), HomeEnds(s, a))
  {
    HomeTakesFrame(s, a.carrier);
  }

  lemma HomeNotesLocal(s: System, h': H.Home, a: Action)
    requires Inv(s) && Enabled(s, a) && a.HomeTakesLocal? && h' == H.OnTarget(s.home).home
    ensures Noted(s.home.x, h'.x, HomeTakesFin(s, a), HomeTakesFinAck(s, a), HomeEnds(s, a))
  {
    HomeLocalTakesEffect(s, H.OnTarget(s.home));
  }

  /** Home notes the end of the peer stream, the FIN-ACK and the end of its own stream exactly when
      it takes them, and forgets none of them. */
  lemma HomeNotes(s: System, s': System, a: Action)
    requires Inv(s) && Enabled(s, a) && s' == Apply(s, a)
    ensures Noted(s.home.x, s'.home.x, HomeTakesFin(s, a), HomeTakesFinAck(s, a), HomeEnds(s, a))
  {
    if a.HomeReceives? {
      HomeNotesFrame(s, s'.home, a);
    } else if a.HomeTakesLocal? {
      HomeNotesLocal(s, s'.home, a);
    } else {
      HomeNotesElse(s, s', a);
    }
  }

  lemma TravelNotesElse(s: System, s': System, a: Action)
    requires Enabled(s, a) && !a.TravelReceives? && !a.TravelTakesLocal? && s' == Apply(s, a)
    ensures Noted(s.travel.x, s'.travel.x, false, false, false)
  {
  }

  lemma TravelNotesFrame(s: System, t': T.Travel, a: Action)
    requires Inv(s) && Enabled(s, a) && a.TravelReceives?
    requires t' == T.OnFrame(s.travel, a.carrier, s.links[a.carrier].down[0]).travel
    ensures Noted(s.travel.x, t'.x, TravelTakesFin(s, a), TravelTakesFinAck(s, a), TravelEnds(s, a))
  {
    var f := s.links[a.carrier].down[0];
    if EndsTravel(s.travel, f) {
      HeadOfDown(s.home, s.travel, s.links[a.carrier]);
      TravelEnded(s.travel, a.carrier, f);
    } else {
      TravelTakesFrame(s, a.carrier);
    }
  }

  lemma TravelNotesLocal(s: System, t': T.Travel, a: Action)
    requires Inv(s) && Enabled(s, a) && a.TravelTakesLocal? && t' == T.OnLocal(s.travel).travel
    ensures Noted(s.travel.x, t'.x, TravelTakesFin(s, a), TravelTakesFinAck(s, a), TravelEnds(s, a))
  {
    TravelLocalTakesEffect(s, T.OnLocal(s.travel));
  }

  lemma TravelNotes(s: System, s': System, a: Action)
    requires Inv(s) && Enabled(s, a) && s' == Apply(s, a)
    ensures Noted(s.travel.x, s'.travel.x, TravelTakesFin(s, a), TravelTakesFinAck(s, a), TravelEnds(s, a))
  {
    if a.TravelReceives? {
      TravelNotesFrame(s, s'.travel, a);
    } else if a.TravelTakesLocal? {
      TravelNotesLocal(s, s'.travel, a);
    } else {
      TravelNotesElse(s, s', a);
    }
  }

  /** Which of the three have happened: the peer's FIN was taken, a FIN-ACK was taken, the end of
      the local stream was taken. */
  datatype Seen = Seen(fin: bool, finAck: bool, eof: bool) {
    function Or(other: Seen): Seen {
      Seen(fin || other.fin, finAck || other.finAck, eof || other.eof)
    }

    predicate All() {
      fin && finAck && eof
    }
  }

  function HomeSees(s: System, a: Action): Seen {
    Seen(HomeTakesFin(s, a), HomeTakesFinAck(s, a), HomeEnds(s, a))
  }

  function TravelSees(s: System, a: Action): Seen {
    Seen(TravelTakesFin(s, a), TravelTakesFinAck(s, a), TravelEnds(s, a))
  }

  /** What happened at Home along a run, after `before`. */
  function HomeHasSeen(s: System, trace: seq<Action>, before: Seen): Seen
    decreases |trace|
  {
    if trace == [] then before
    else if !Enabled(s, trace[0]) then HomeHasSeen(s, trace[1..], before)
    else HomeHasSeen(Apply(s, trace[0]), trace[1..], before.Or(HomeSees(s, trace[0])))
  }

  function TravelHasSeen(s: System, trace: seq<Action>, before: Seen): Seen
    decreases |trace|
  {
    if trace == [] then before
    else if !Enabled(s, trace[0]) then TravelHasSeen(s, trace[1..], before)
    else TravelHasSeen(Apply(s, trace[0]), trace[1..], before.Or(TravelSees(s, trace[0])))
  }

  predicate Notes(x: Endpoint, seen: Seen) {
    x.rcv.eof == seen.fin && x.snd.finAcked == seen.finAck && x.snd.eof == seen.eof
  }

  lemma HomeNotesStep(s: System, next: System, a: Action, before: Seen)
    requires Inv(s) && Enabled(s, a) && next == Apply(s, a) && Notes(s.home.x, before)
    ensures Notes(next.home.x, before.Or(HomeSees(s, a)))
  {
    HomeNotes(s, next, a);
  }

  lemma TravelNotesStep(s: System, next: System, a: Action, before: Seen)
    requires Inv(s) && Enabled(s, a) && next == Apply(s, a) && Notes(s.travel.x, before)
    ensures Notes(next.travel.x, before.Or(TravelSees(s, a)))
  {
    TravelNotes(s, next, a);
  }

  lemma {:induction false} HomeNoted(s: System, trace: seq<Action>, before: Seen)
    requires Inv(s) && Notes(s.home.x, before)
    ensures Notes(Run(s, trace).home.x, HomeHasSeen(s, trace, before))
    decreases |trace|
  {
    if trace != [] {
      if Enabled(s, trace[0]) {
        var next := Apply(s, trace[0]);
        StepKeeps(s, trace[0]);
        HomeNotesStep(s, next, trace[0], before);
        HomeNoted(next, trace[1..], before.Or(HomeSees(s, trace[0])));
      } else {
        HomeNoted(s, trace[1..], before);
      }
    }
  }

  lemma {:induction false} TravelNoted(s: System, trace: seq<Action>, before: Seen)
    requires Inv(s) && Notes(s.travel.x, before)
    ensures Notes(Run(s, trace).travel.x, TravelHasSeen(s, trace, before))
    decreases |trace|
  {
    if trace != [] {
      if Enabled(s, trace[0]) {
        var next := Apply(s, trace[0]);
        StepKeeps(s, trace[0]);
        TravelNotesStep(s, next, trace[0], before);
        TravelNoted(next, trace[1..], before.Or(TravelSees(s, trace[0])));
      } else {
        TravelNoted(s, trace[1..], before);
      }
    }
  }

  lemma EmptyWindow(s: Sender)
    requires WindowOk(s)
    ensures s.unacked == [] <==> s.acked == s.offset
  {
    if s.unacked != [] {
      PosStep(s.log, AckedCount(s));
      PosMonotone(s.log, AckedCount(s) + 1, |s.log|);
    }
  }

  // ----- finishing -----

  const NOTHING: Seen := Seen(false, false, false)

  lemma FreshBegins(first: System)
    requires Fresh(first)
    ensures Inv(first) && Notes(first.home.x, NOTHING) && Notes(first.travel.x, NOTHING)
  {
    FreshOk(first);
  }

  lemma CompleteWhen(x: Endpoint, seen: Seen)
    requires Notes(x, seen) && WindowOk(x.snd)
    ensures Complete(x) <==> seen.All() && x.snd.acked == x.snd.offset
  {
    EmptyWindow(x.snd);
  }

  lemma CompleteAfter(first: System, trace: seq<Action>, s: System, home: Seen, travel: Seen)
    requires Fresh(first) && s == Run(first, trace)
    requires home == HomeHasSeen(first, trace, NOTHING) && travel == TravelHasSeen(first, trace, NOTHING)
    ensures Complete(s.home.x) <==> home.All() && s.home.x.snd.acked == s.home.x.snd.offset
    ensures Complete(s.travel.x) <==> travel.All() && s.travel.x.snd.acked == s.travel.x.snd.offset
  {
    FreshBegins(first);
    RunKeeps(first, trace);
    HomeNoted(first, trace, NOTHING);
    TravelNoted(first, trace, NOTHING);
    CompleteWhen(s.home.x, home);
    CompleteWhen(s.travel.x, travel);
  }

  lemma FinishEnabled(s: System, drained: bool)
    ensures Enabled(s, HomeFinishes(drained)) <==> s.home.status.Running? && Complete(s.home.x)
    ensures Enabled(s, TravelFinishes(drained)) <==>
              s.travel.status.Running? && s.travel.race.None? && Complete(s.travel.x)
  {
  }

  /** Over every run, Home can finish exactly when it still runs, the end of Travel's stream and of
      its own were taken, a FIN-ACK was taken, and everything it sent is acknowledged. */
  lemma HomeFinishesExactlyWhen(first: System, trace: seq<Action>, s: System, drained: bool)
    requires Fresh(first) && s == Run(first, trace)
    ensures Enabled(s, HomeFinishes(drained)) <==>
              && s.home.status.Running?
              && HomeHasSeen(first, trace, NOTHING).All() && s.home.x.snd.acked == s.home.x.snd.offset
  {
    CompleteAfter(first, trace, s, HomeHasSeen(first, trace, NOTHING), TravelHasSeen(first, trace, NOTHING));
    FinishEnabled(s, drained);
  }

  /** The same for Travel, which also waits for its race to be over. */
  lemma TravelFinishesExactlyWhen(first: System, trace: seq<Action>, s: System, drained: bool)
    requires Fresh(first) && s == Run(first, trace)
    ensures Enabled(s, TravelFinishes(drained)) <==>
              && s.travel.status.Running? && s.travel.race.None?
              && TravelHasSeen(first, trace, NOTHING).All() && s.travel.x.snd.acked == s.travel.x.snd.offset
  {
    CompleteAfter(first, trace, s, HomeHasSeen(first, trace, NOTHING), TravelHasSeen(first, trace, NOTHING));
    FinishEnabled(s, drained);
  }

  // ----- the detach deadline -----

  predicate HomeLoses(s: System, a: Action) {
    a.HomeSeesClose? && s.home.active == Some(a.carrier)
  }

  predicate HomeSelects(s: System, a: Action) {
    HomeTakes(s, a) && TakesRace(s.home, s.links[a.carrier].up[0])
  }

  /** Since when Home has had no selected Carrier, if it has none. */
  function Detached(s: System, trace: seq<Action>, since: Option<nat>): Option<nat>
    decreases |trace|
  {
    if trace == [] then since
    else if !Enabled(s, trace[0]) then Detached(s, trace[1..], since)
    else Detached(Apply(s, trace[0]), trace[1..], SinceAfter(s, trace[0], since))
  }

  /** The deadline is `timeout` after the time Home lost its Carrier. */
  predicate DeadlineIs(deadline: Option<nat>, since: Option<nat>, timeout: nat) {
    deadline == if since.Some? then Some(since.value + timeout) else None
  }

  lemma DeadlineElse(s: System, s': System, a: Action)
    requires Enabled(s, a) && !a.HomeReceives? && !a.HomeTakesLocal? && s' == Apply(s, a)
    ensures s'.home.detachTimeout == s.home.detachTimeout
    ensures s'.home.deadline == if HomeLoses(s, a) then Some(a.now + s.home.detachTimeout) else s.home.deadline
  {
  }

  lemma DeadlineMoves(s: System, s': System, a: Action)
    requires Inv(s) && Enabled(s, a) && s' == Apply(s, a)
    ensures s'.home.detachTimeout == s.home.detachTimeout
    ensures s'.home.deadline ==
            if HomeLoses(s, a) then Some(a.now + s.home.detachTimeout)
            else if HomeSelects(s, a) then None
            else s.home.deadline
  {
    if a.HomeReceives? {
      HomeTakesFrame(s, a.carrier);
      assert s'.home == H.OnFrame(s.home, a.carrier, s.links[a.carrier].up[0]).home;
    } else if a.HomeTakesLocal? {
      HomeLocalTakesEffect(s, H.OnTarget(s.home));
      assert s'.home == H.OnTarget(s.home).home;
    } else {
      DeadlineElse(s, s', a);
    }
  }

  function SinceAfter(s: System, a: Action, since: Option<nat>): Option<nat> {
    if HomeLoses(s, a) then Some(a.now) else if HomeSelects(s, a) then None else since
  }

  lemma DeadlineStep(s: System, next: System, a: Action, since: Option<nat>)
    requires Inv(s) && Enabled(s, a) && next == Apply(s, a)
    requires DeadlineIs(s.home.deadline, since, s.home.detachTimeout)
    ensures next.home.detachTimeout == s.home.detachTimeout
    ensures DeadlineIs(next.home.deadline, SinceAfter(s, a, since), s.home.detachTimeout)
  {
    DeadlineMoves(s, next, a);
  }

  lemma {:induction false} DeadlineFollows(s: System, trace: seq<Action>, since: Option<nat>)
    requires Inv(s) && DeadlineIs(s.home.deadline, since, s.home.detachTimeout)
    ensures var home := Run(s, trace).home;
            home.detachTimeout == s.home.detachTimeout
            && DeadlineIs(home.deadline, Detached(s, trace, since), s.home.detachTimeout)
    decreases |trace|
  {
    if trace != [] {
      if Enabled(s, trace[0]) {
        var next := Apply(s, trace[0]);
        StepKeeps(s, trace[0]);
        DeadlineStep(s, next, trace[0], since);
        DeadlineFollows(next, trace[1..], SinceAfter(s, trace[0], since));
      } else {
        DeadlineFollows(s, trace[1..], since);
      }
    }
  }

  lemma DeadlineIsDue(s: System, since: Option<nat>, clock: nat)
    requires DeadlineIs(s.home.deadline, since, s.home.detachTimeout)
    ensures Enabled(s, HomeDetachExpires(clock)) <==>
              s.home.status.Running? && since.Some? && since.value + s.home.detachTimeout <= clock
  {
  }

  /** Home gives up a flow exactly when it has been without a selected Carrier, since its start or
      since the loss of the last one, for the detach timeout. */
  lemma ExpiresExactlyWhen(flow: Uuid, timeout: nat, homeMax: nat, travelMax: nat, begun: nat, first: System,
                           trace: seq<Action>, s: System, clock: nat)
    requires MAX_DATA_PAYLOAD <= homeMax && MAX_DATA_PAYLOAD <= travelMax
    requires first == Initial(flow, timeout, homeMax, travelMax, begun) && s == Run(first, trace)
    ensures var since := Detached(first, trace, Some(begun));
            Enabled(s, HomeDetachExpires(clock)) <==>
              s.home.status.Running? && since.Some? && since.value + timeout <= clock
  {
    InitialOk(flow, timeout, homeMax, travelMax, begun);
    DeadlineFollows(first, trace, Some(begun));
    DeadlineIsDue(s, Detached(first, trace, Some(begun)), clock);
  }
}
