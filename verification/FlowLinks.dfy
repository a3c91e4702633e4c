/** How the Carriers between two ends keep their part of the invariant while an end moves. */
module FlowLinks {
  import opened Basics
  import opened Transfer
  import opened TransferLemmas
  import opened FlowSystem
  import opened FlowInvariant
  import H = HomeFlow
  import T = TravelFlow

  lemma NoFinBeforeEof(flow: Uuid, h: Endpoint, t: Endpoint, q: seq<Frame>)
    requires DownOk(flow, h, t, q) && !h.snd.eof
    ensures NoFin(q)
  {
    forall i | 0 <= i < |q| ensures !q[i].Fin? {
      assert q[i] in q;
    }
  }

  lemma LinkHomeMoved(h: H.Home, h': H.Home, t: T.Travel, l: Link)
    requires LinkOk(h, t, l) && h'.flow == h.flow && Grew(h.x, h'.x)
    requires Tiled(h'.x.snd.log) && Tiled(t.x.snd.log)
    requires h.x.snd.offset <= h'.x.snd.offset && (h.x.snd.eof ==> h'.x.snd.offset == h.x.snd.offset)
    ensures LinkOk(h', t, l)
    ensures h.x.snd.offset == h'.x.snd.offset && Supplied(h, t, l) ==> Supplied(h', t, l)
  {
    UpStable(h.flow, t.x, t.x, h.x, h'.x, l.up);
    DownStable(h.flow, h.x, h'.x, t.x, t.x, l.down);
    if !h.x.snd.eof {
      NoFinBeforeEof(h.flow, h.x, t.x, l.down);
      QueueRaiseTop(t.x.rcv.offset, l.down, h.x.snd.offset, h'.x.snd.offset);
    }
  }

  lemma LinkTravelMoved(h: H.Home, t: T.Travel, t': T.Travel, l: Link)
    requires LinkOk(h, t, l) && Grew(t.x, t'.x)
    requires Tiled(h.x.snd.log) && Tiled(t'.x.snd.log)
    requires t.x.rcv.offset <= t'.x.rcv.offset <= h.x.snd.offset
    ensures LinkOk(h, t', l)
    ensures Supplied(h, t, l) ==> Supplied(h, t', l)
  {
    UpStable(h.flow, t.x, t'.x, h.x, h.x, l.up);
    DownStable(h.flow, h.x, h.x, t.x, t'.x, l.down);
    QueueAdvance(t.x.rcv.offset, t'.x.rcv.offset, l.down, h.x.snd.offset);
  }

  /** Frames that continue where a Carrier's queue ends may be queued on it. */
  lemma LinkDownAppended(h: H.Home, t: T.Travel, l: Link, frames: seq<Frame>)
    requires LinkOk(h, t, l) && DownOk(h.flow, h.x, t.x, frames)
    requires QueueOk(Reach(t.x.rcv.offset, l.down), frames, h.x.snd.offset)
    ensures LinkOk(h, t, l.(down := l.down + frames))
    ensures Reach(t.x.rcv.offset, l.down + frames) == Reach(Reach(t.x.rcv.offset, l.down), frames)
  {
    QueueAppend(t.x.rcv.offset, l.down, frames, h.x.snd.offset);
  }

  /** The receiver's offset after the head of its queue. */
  function AfterHead(at: nat, f: Frame): nat {
    if f.Data? then Max(at, f.offset + |f.bytes|) else at
  }

  // ----- Home moves -----

  /** `links` is what is left after Home took a frame, or all of them. */
  ghost predicate SameDown(before: map<Uuid, Link>, links: map<Uuid, Link>) {
    && links.Keys == before.Keys
    && (forall c | c in links ::
          && links[c].down == before[c].down && links[c].downCut == before[c].downCut
          && links[c].upCut == before[c].upCut
          && |links[c].up| <= |before[c].up|
          && (forall f | f in links[c].up :: f in before[c].up))
  }

  lemma PopUpSameDown(links: map<Uuid, Link>, c: Uuid)
    requires c in links && links[c].up != []
    ensures SameDown(links, PopUp(links, c))
  {
  }

  /** What holds of the links right after Home moved and before anything is queued. */
  lemma HomeMoved(s: System, links: map<Uuid, Link>, h': H.Home)
    requires LinksOk(s) && SameDown(s.links, links)
    requires h'.flow == s.home.flow && Grew(s.home.x, h'.x)
    requires Tiled(h'.x.snd.log) && Tiled(s.travel.x.snd.log)
    requires s.home.x.snd.offset <= h'.x.snd.offset
    requires s.home.x.snd.eof ==> h'.x.snd.offset == s.home.x.snd.offset
    ensures forall c | c in links :: LinkOk(h', s.travel, links[c])
    ensures h'.x.snd.offset == s.home.x.snd.offset ==>
              forall c | c in links && s.home.active == Some(c) :: Supplied(h', s.travel, links[c])
  {
    forall c | c in links
      ensures LinkOk(h', s.travel, links[c])
      ensures h'.x.snd.offset == s.home.x.snd.offset && s.home.active == Some(c) ==> Supplied(h', s.travel, links[c])
    {
      LinkHomeMoved(s.home, h', s.travel, s.links[c]);
    }
  }

  /** Home moved without data to send: it queued only answers, and did not select a Carrier. */
  lemma HomeAnswered(s: System, links: map<Uuid, Link>, did: H.Stepped)
    requires LinksOk(s) && SameDown(s.links, links)
    requires did.home.flow == s.home.flow && Grew(s.home.x, did.home.x)
    requires Tiled(did.home.x.snd.log) && Tiled(s.travel.x.snd.log)
    requires did.home.x.snd.offset == s.home.x.snd.offset
    requires did.home.active == s.home.active || did.home.active.None?
    requires DownOk(s.home.flow, did.home.x, s.travel.x, did.frames) && NoData(did.frames)
    ensures LinksOk(HomeDid(s, links, did))
  {
    HomeMoved(s, links, did.home);
    if did.to in links {
      var l := links[did.to];
      QueueQuiet(Reach(s.travel.x.rcv.offset, l.down), did.frames, did.home.x.snd.offset);
      LinkDownAppended(did.home, s.travel, l, did.frames);
    }
  }

  /** Home selected a Carrier: it queued the whole window on it. */
  lemma HomeSelected(s: System, links: map<Uuid, Link>, c: Uuid, race: Uuid)
    requires LinksOk(s) && SameDown(s.links, links) && EndsOk(s.home.x, s.travel.x)
    requires c in links && c in s.home.carriers && race !in s.home.races.winners
    ensures LinksOk(HomeDid(s, links, H.OnRace(s.home, c, race)))
  {
    var did := H.OnRace(s.home, c, race);
    HomeMoved(s, links, did.home);
    var l := links[c];
    var at := Reach(s.travel.x.rcv.offset, l.down);
    SelectionFrames(s, at, c, race);
    AckedBelowReceived(s.home.x.snd, s.travel.x.rcv);
    ReachBounds(s.travel.x.rcv.offset, l.down, s.home.x.snd.offset);
    LinkDownAppended(did.home, s.travel, l, did.frames);
  }

  lemma {:induction false} ReachBounds(at: nat, queue: seq<Frame>, top: nat)
    requires QueueOk(at, queue, top) && at <= top
    ensures at <= Reach(at, queue) <= top
    decreases |queue|
  {
    if queue != [] {
      ReachBounds(AfterHead(at, queue[0]), queue[1..], top);
    }
  }

  lemma SelectionFrames(s: System, at: nat, c: Uuid, race: Uuid)
    requires EndsOk(s.home.x, s.travel.x)
    ensures var frames := [RaceAck(s.home.flow, race, c)] + RetransmitFrames(s.home.flow, s.home.x.snd);
            && DownOk(s.home.flow, s.home.x, s.travel.x, frames)
            && (s.home.x.snd.acked <= at <= s.home.x.snd.offset ==>
                  QueueOk(at, frames, s.home.x.snd.offset) && Reach(at, frames) == s.home.x.snd.offset)
  {
    var resent := RetransmitFrames(s.home.flow, s.home.x.snd);
    var frames := [RaceAck(s.home.flow, race, c)] + resent;
    forall f | f in frames ensures DownKind(f) && Honest(f, s.home.flow, s.home.x, s.travel.x.snd.log) {
      if f in resent {
        ResentHonest(s.home.flow, s.home.x, s.travel.x.snd.log, f);
      }
    }
    if s.home.x.snd.acked <= at <= s.home.x.snd.offset {
      RetransmitReaches(s.home.flow, s.home.x.snd, at);
      assert frames[1..] == resent;
    }
  }

  lemma ResentHonest(flow: Uuid, x: Endpoint, peerLog: seq<Segment>, f: Frame)
    requires WindowOk(x.snd) && f in RetransmitFrames(flow, x.snd)
    ensures Honest(f, flow, x, peerLog) && (f.Data? || f.Fin?)
  {
    if f in DataFrames(flow, x.snd.unacked) { ResentInLog(flow, x.snd, f); }
  }

  lemma ResentInLog(flow: Uuid, s: Sender, f: Frame)
    requires |s.unacked| <= |s.log| && s.unacked == s.log[AckedCount(s)..] && f in DataFrames(flow, s.unacked)
    ensures f.Data? && f.flow == flow && Segment(f.offset, f.bytes) in s.log
  {
    var data := DataFrames(flow, s.unacked);
    var i :| 0 <= i < |data| && data[i] == f;
    assert s.unacked[i] == s.log[AckedCount(s) + i];
  }

  function LocalFrame(flow: Uuid, x: Endpoint): Frame
    requires x.local.queue != []
  {
    var event := x.local.queue[0];
    if event.LocalData? then Data(flow, x.snd.offset, event.bytes) else Fin(flow, x.snd.offset)
  }

  /** A local event leaves an endpoint whose new frame is honest and starts where the last ended. */
  lemma LocalEnd(x: Endpoint, peer: Endpoint, flow: Uuid)
    requires EndsOk(peer, x) && Fits(x)
    ensures var y := TakeLocal(x);
            && EndsOk(peer, y) && Grew(x, y) && (x.local.queue[0].LocalData? ==> !OverLimit(x, x.local.queue[0].bytes))
            && Honest(LocalFrame(flow, x), flow, y, peer.snd.log)
            && QueueOk(x.snd.offset, [LocalFrame(flow, x)], y.snd.offset)
            && Reach(x.snd.offset, [LocalFrame(flow, x)]) == y.snd.offset
  {
    TakeLocalDirection(x, peer.rcv);
    CreditSuffices(x);
    if x.local.queue[0].LocalData? {
      assert TakeLocal(x).snd.log[|x.snd.log|] == Segment(x.snd.offset, x.local.queue[0].bytes);
    }
    assert [LocalFrame(flow, x)][1..] == [];
  }

  lemma OneFrameDown(flow: Uuid, home: Endpoint, travel: Endpoint, frames: seq<Frame>, f: Frame)
    requires frames == [f] || frames == []
    requires DownKind(f) && Honest(f, flow, home, travel.snd.log)
    ensures DownOk(flow, home, travel, frames) && (!f.Data? && !f.Fin? ==> NoData(frames))
  {
  }

  lemma EndsSwap(a: Endpoint, b: Endpoint)
    ensures EndsOk(a, b) <==> EndsOk(b, a)
  {
  }

  /** The frame of a new local event continues the active Carrier's queue. */
  lemma LocalContinues(h: H.Home, t: T.Travel, l: Link, did: H.Stepped)
    requires EndsOk(h.x, t.x) && Fits(h.x) && h.active.Some? && h.active.value in h.carriers && did == H.OnTarget(h)
    requires LinkOk(did.home, t, l) && !l.downCut && Reach(t.x.rcv.offset, l.down) == h.x.snd.offset
    ensures var after := l.(down := l.down + did.frames);
            LinkOk(did.home, t, after) && Supplied(did.home, t, after)
  {
    EndsSwap(h.x, t.x);
    LocalEnd(h.x, t.x, h.flow);
    assert did.frames == [LocalFrame(h.flow, h.x)] && did.home == h.(x := TakeLocal(h.x));
    OneFrameDown(h.flow, did.home.x, t.x, did.frames, LocalFrame(h.flow, h.x));
    LinkDownAppended(did.home, t, l, did.frames);
  }

  /** Home took a local event: the new frame goes to the active Carrier. */
  lemma HomeTookLocal(s: System)
    requires LinksOk(s) && EndsOk(s.home.x, s.travel.x) && H.AttachmentOk(s.home) && Fits(s.home.x)
    requires s.home.carriers <= s.links.Keys
    ensures LinksOk(HomeDid(s, s.links, H.OnTarget(s.home)))
  {
    var did := H.OnTarget(s.home);
    assert Grew(s.home.x, did.home.x) && Tiled(did.home.x.snd.log) && !s.home.x.snd.eof
        && s.home.x.snd.offset <= did.home.x.snd.offset by {
      TakeLocalDirection(s.home.x, s.travel.x.rcv);
      CreditSuffices(s.home.x);
    }
    HomeMoved(s, s.links, did.home);
    if s.home.active.Some? {
      var c := s.home.active.value;
      if !s.links[c].downCut {
        assert Supplied(s.home, s.travel, s.links[c]);
        LocalContinues(s.home, s.travel, s.links[c], did);
      }
    }
  }

  // ----- Travel moves -----

  ghost predicate SameUp(before: map<Uuid, Link>, links: map<Uuid, Link>) {
    && links.Keys == before.Keys
    && (forall c | c in links ::
          && links[c].up == before[c].up && links[c].upCut == before[c].upCut && links[c].downCut == before[c].downCut
          && |links[c].down| <= |before[c].down|)
  }

  lemma TravelPushed(s: System, links: map<Uuid, Link>, did: T.Stepped)
    requires did.travel.flow == s.travel.flow == s.home.flow
    requires forall c | c in links :: LinkOk(s.home, did.travel, links[c])
    requires forall c | c in links && s.home.active == Some(c) :: Supplied(s.home, did.travel, links[c])
    requires UpOk(s.home.flow, did.travel.x, s.home.x, did.frames)
    ensures LinksOk(TravelDid(s, links, did))
  {
  }

  /** Travel moved without taking a frame. */
  lemma TravelMoved(s: System, did: T.Stepped)
    requires LinksOk(s) && did.travel.flow == s.travel.flow == s.home.flow && Grew(s.travel.x, did.travel.x)
    requires Tiled(s.home.x.snd.log) && Tiled(did.travel.x.snd.log)
    requires did.travel.x.rcv == s.travel.x.rcv && s.travel.x.rcv.offset <= s.home.x.snd.offset
    requires UpOk(s.home.flow, did.travel.x, s.home.x, did.frames)
    ensures LinksOk(TravelDid(s, s.links, did))
  {
    forall c | c in s.links
      ensures LinkOk(s.home, did.travel, s.links[c])
      ensures s.home.active == Some(c) ==> Supplied(s.home, did.travel, s.links[c])
    {
      LinkTravelMoved(s.home, s.travel, did.travel, s.links[c]);
    }
    TravelPushed(s, s.links, did);
  }

  /** Travel took the head of one Carrier's queue. */
  lemma TravelTook(s: System, c: Uuid, did: T.Stepped)
    requires LinksOk(s) && c in s.links && s.links[c].down != []
    requires did.travel.flow == s.travel.flow == s.home.flow && Grew(s.travel.x, did.travel.x)
    requires Tiled(s.home.x.snd.log) && Tiled(did.travel.x.snd.log)
    requires did.travel.x.rcv.offset == AfterHead(s.travel.x.rcv.offset, s.links[c].down[0]) <= s.home.x.snd.offset
    requires UpOk(s.home.flow, did.travel.x, s.home.x, did.frames)
    ensures LinksOk(TravelDid(s, PopDown(s.links, c), did))
  {
    var links := PopDown(s.links, c);
    forall d | d in links
      ensures LinkOk(s.home, did.travel, links[d])
      ensures s.home.active == Some(d) ==> Supplied(s.home, did.travel, links[d])
    {
      if d == c {
        TravelTookHere(s, s.links[c], did.travel);
      } else {
        LinkTravelMoved(s.home, s.travel, did.travel, s.links[d]);
      }
    }
    TravelPushed(s, links, did);
  }

  lemma TravelTookHere(s: System, l: Link, t': T.Travel)
    requires LinkOk(s.home, s.travel, l) && l.down != [] && Grew(s.travel.x, t'.x)
    requires Tiled(s.home.x.snd.log) && Tiled(t'.x.snd.log)
    requires t'.x.rcv.offset == AfterHead(s.travel.x.rcv.offset, l.down[0])
    ensures var rest := l.(down := l.down[1..]);
            LinkOk(s.home, t', rest) && (Supplied(s.home, s.travel, l) ==> Supplied(s.home, t', rest))
  {
    UpStable(s.home.flow, s.travel.x, t'.x, s.home.x, s.home.x, l.up);
    DownStable(s.home.flow, s.home.x, s.home.x, s.travel.x, t'.x, l.down);
    assert forall f | f in l.down[1..] :: f in l.down;
  }
}
