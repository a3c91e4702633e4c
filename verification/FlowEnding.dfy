/** The end of Home's stream is not lost: while it has not reached Travel, a FIN is on its way over
    the Carrier that Home has selected, or that Carrier is cut. */
module FlowEnding {
  import opened Basics
  import opened Transfer
  import opened FlowSystem
  import opened FlowInvariant
  import opened FlowSteps
  import opened FlowTheorems
  import opened FlowProgress
  import H = HomeFlow
  import T = TravelFlow

  predicate FinQueued(q: seq<Frame>) {
    exists i :: 0 <= i < |q| && q[i].Fin?
  }

  predicate FinAt(s: System, c: Uuid) {
    c in s.links && s.home.active == Some(c) ==>
      s.links[c].downCut || !s.home.x.snd.eof || s.travel.x.rcv.eof || FinQueued(s.links[c].down)
  }

  ghost predicate FinInv(s: System) {
    forall c :: FinAt(s, c)
  }

  /** The Carrier loses no FIN unless it is cut. */
  predicate KeepsFin(before: map<Uuid, Link>, after: map<Uuid, Link>, c: Uuid) {
    c in after ==>
      && c in before && (before[c].downCut ==> after[c].downCut)
      && (!after[c].downCut && FinQueued(before[c].down) ==> FinQueued(after[c].down))
  }

  lemma FinAppended(q: seq<Frame>, frames: seq<Frame>)
    ensures FinQueued(q + frames) <==> FinQueued(q) || FinQueued(frames)
  {
    if FinQueued(q) {
      var i :| 0 <= i < |q| && q[i].Fin?;
      assert (q + frames)[i] == q[i];
    }
    if FinQueued(frames) {
      var i :| 0 <= i < |frames| && frames[i].Fin?;
      assert (q + frames)[|q| + i] == frames[i];
    }
  }

  lemma FinBehindHead(q: seq<Frame>)
    requires q != [] && FinQueued(q) && !q[0].Fin?
    ensures FinQueued(q[1..])
  {
    var i :| 0 <= i < |q| && q[i].Fin?;
    assert q[1..][i - 1] == q[i];
  }

  lemma PushKeepsFin(links: map<Uuid, Link>, to: Uuid, frames: seq<Frame>, c: Uuid)
    ensures KeepsFin(links, PushDown(links, to, frames), c)
    ensures c == to && c in links && !links[c].downCut && FinQueued(frames) ==>
              FinQueued(PushDown(links, to, frames)[c].down)
  {
    if c in links { FinAppended(links[c].down, frames); }
  }

  /** Nothing happened that could lose the FIN. */
  lemma FinStays(s: System, s': System)
    requires FinInv(s)
    requires s'.home.active == s.home.active || s'.home.active.None?
    requires s'.home.active.Some? ==> KeepsFin(s.links, s'.links, s'.home.active.value)
    requires s'.home.x.snd.eof ==> s.home.x.snd.eof
    requires s.travel.x.rcv.eof ==> s'.travel.x.rcv.eof
    ensures FinInv(s')
  {
    forall c ensures FinAt(s', c) {
      assert FinAt(s, c);
    }
  }

  // ----- Home's steps -----

  lemma AnswersKeepFin(s: System, s': System, links: map<Uuid, Link>, did: H.Stepped)
    requires FinInv(s) && s' == HomeDid(s, links, did)
    requires did.home.active == s.home.active || did.home.active.None?
    requires did.home.active.Some? ==> KeepsFin(s.links, links, did.home.active.value)
    requires did.home.x.snd.eof ==> s.home.x.snd.eof
    ensures FinInv(s')
  {
    if did.home.active.Some? { PushKeepsFin(links, did.to, did.frames, did.home.active.value); }
    FinStays(s, s');
  }

  /** The Carrier Home selects is given the FIN with the rest of the window. */
  lemma SelectionQueuesFin(s': System, links: map<Uuid, Link>, did: H.Stepped, c: Uuid, frames: seq<Frame>)
    requires s'.home == did.home && s'.links == PushDown(links, did.to, did.frames)
    requires did.home.active == Some(c) && did.to == c
    requires did.frames == frames + RetransmitFrames(did.home.flow, did.home.x.snd)
    ensures FinInv(s')
  {
    forall o ensures FinAt(s', o) {
      if o == c && c in links && did.home.x.snd.eof {
        var resent := RetransmitFrames(did.home.flow, did.home.x.snd);
        assert resent[|resent| - 1].Fin?;
        FinAppended(frames, resent);
        PushKeepsFin(links, c, did.frames, c);
      }
    }
  }

  lemma TakesRaceTo(h: H.Home, c: Uuid, f: Frame)
    requires c in h.carriers && TakesRace(h, f) && f.flow == h.flow && f.next <= h.x.rcv.offset
    ensures var did := H.OnFrame(h, c, f);
            && did.to == c && did.home.flow == h.flow && did.home.x == h.x && did.home.active == Some(c)
            && did.frames == [RaceAck(h.flow, f.race, c)] + RetransmitFrames(h.flow, h.x.snd)
  {
  }

  lemma HomeReceivesKeepsFin(s: System, s': System, c: Uuid, did: H.Stepped)
    requires Inv(s) && FinInv(s) && Enabled(s, HomeReceives(c)) && did == H.OnFrame(s.home, c, s.links[c].up[0])
    requires s' == HomeDid(s, PopUp(s.links, c), did)
    ensures FinInv(s')
  {
    var f := s.links[c].up[0];
    HomeTakesFrame(s, c);
    if TakesRace(s.home, f) {
      ComesFromAttached(s, c);
      AckedBelowReceived(s.travel.x.snd, s.home.x.rcv);
      TakesRaceTo(s.home, c, f);
      SelectionQueuesFin(s', PopUp(s.links, c), did, c, [RaceAck(s.home.flow, f.race, c)]);
    } else {
      AnswersKeepFin(s, s', PopUp(s.links, c), did);
    }
  }

  lemma ActiveIsLinked(s: System)
    requires H.AttachmentOk(s.home) && PlacesOk(s) && s.home.active.Some?
    ensures s.home.active.value in s.home.carriers && s.home.active.value in s.links
  {
  }

  lemma HomeTakesLocalKeepsFin(s: System, s': System, did: H.Stepped)
    requires Inv(s) && FinInv(s) && Enabled(s, HomeTakesLocal) && did == H.OnTarget(s.home)
    requires s' == HomeDid(s, s.links, did)
    ensures FinInv(s')
  {
    HomeLocalTakesEffect(s, did);
    if s.home.x.local.queue[0].LocalData? {
      AnswersKeepFin(s, s', s.links, did);
    } else {
      forall c ensures FinAt(s', c) {
        if c in s'.links && s'.home.active == Some(c) {
          assert did.frames[0].Fin?;
          PushKeepsFin(s.links, did.to, did.frames, c);
        }
      }
    }
  }

  // ----- Travel's steps -----

  lemma PopKeepsFin(links: map<Uuid, Link>, popped: Uuid, to: Uuid, frames: seq<Frame>, c: Uuid)
    requires popped in links && links[popped].down != [] && !links[popped].down[0].Fin?
    ensures KeepsFin(links, PushUp(PopDown(links, popped), to, frames), c)
  {
    if c == popped && FinQueued(links[c].down) { FinBehindHead(links[c].down); }
  }

  lemma TravelReceivesKeepsFin(s: System, s': System, c: Uuid, did: T.Stepped)
    requires Inv(s) && FinInv(s) && Enabled(s, TravelReceives(c)) && did == T.OnFrame(s.travel, c, s.links[c].down[0])
    requires s' == TravelDid(s, PopDown(s.links, c), did)
    ensures FinInv(s')
  {
    var f := s.links[c].down[0];
    if EndsTravel(s.travel, f) {
      HeadOfDown(s.home, s.travel, s.links[c]);
      TravelEnded(s.travel, c, f);
    } else {
      TravelTakesFrame(s, c);
    }
    if f.Fin? {
      forall o ensures FinAt(s', o) {
        assert s'.travel.x.rcv.eof;
      }
    } else {
      if s.home.active.Some? { PopKeepsFin(s.links, c, did.to, did.frames, s.home.active.value); }
      FinStays(s, s');
    }
  }

  lemma TravelOpenedKeepsFin(s: System, s': System, c: Uuid)
    requires FinInv(s) && Enabled(s, TravelOpened(c)) && s' == Apply(s, TravelOpened(c))
    ensures FinInv(s')
  {
    var did := T.OnOpened(s.travel, c, s.links[c].down[0].receiveOffset);
    if s.home.active.Some? { PopKeepsFin(s.links, c, did.to, did.frames, s.home.active.value); }
    FinStays(s, s');
  }

  predicate TakesSomething(a: Action) {
    a.HomeReceives? || a.HomeTakesLocal? || a.TravelReceives? || a.TravelOpened?
  }

  /** Neither end takes a frame or a local event; at most new frames are queued, a Carrier is added,
      cut or closed. */
  lemma OtherSteps(s: System, s': System, a: Action)
    requires Enabled(s, a) && !TakesSomething(a) && s' == Apply(s, a)
    requires s.home.active.Some? ==> s.home.active.value in s.links
    ensures s'.home.active == s.home.active || s'.home.active.None?
    ensures s'.home.x.snd == s.home.x.snd && s'.travel.x.rcv == s.travel.x.rcv
    ensures s'.home.active.Some? ==> KeepsFin(s.links, s'.links, s'.home.active.value)
  {
    if s.home.active.Some? {
      var c := s.home.active.value;
      if a.HomeAttaches? {
        var did := H.OnCarrier(s.home, a.carrier);
        PushKeepsFin(s.links, did.to, did.frames, c);
      }
    }
  }

  lemma FinStepKeeps(s: System, s': System, a: Action)
    requires Inv(s) && FinInv(s) && Enabled(s, a) && s' == Apply(s, a)
    ensures FinInv(s')
  {
    if a.HomeReceives? {
      HomeReceivesKeepsFin(s, s', a.carrier, H.OnFrame(s.home, a.carrier, s.links[a.carrier].up[0]));
    } else if a.HomeTakesLocal? {
      HomeTakesLocalKeepsFin(s, s', H.OnTarget(s.home));
    } else if a.TravelReceives? {
      TravelReceivesKeepsFin(s, s', a.carrier, T.OnFrame(s.travel, a.carrier, s.links[a.carrier].down[0]));
    } else if a.TravelOpened? {
      TravelOpenedKeepsFin(s, s', a.carrier);
    } else {
      if s.home.active.Some? { ActiveIsLinked(s); }
      OtherSteps(s, s', a);
      FinStays(s, s');
    }
  }

  lemma {:induction false} FinRunKeeps(s: System, trace: seq<Action>)
    requires Inv(s) && FinInv(s)
    ensures FinInv(Run(s, trace))
    decreases |trace|
  {
    if trace != [] {
      if Enabled(s, trace[0]) {
        var next := Apply(s, trace[0]);
        StepKeeps(s, trace[0]);
        FinStepKeeps(s, next, trace[0]);
        FinRunKeeps(next, trace[1..]);
      } else {
        FinRunKeeps(s, trace[1..]);
      }
    }
  }

  lemma ReachableFin(s: System)
    requires Reachable(s)
    ensures FinInv(s)
  {
    var first: System, trace: seq<Action> :| Fresh(first) && s == Run(first, trace);
    FreshOk(first);
    assert FinInv(first);
    FinRunKeeps(first, trace);
  }

  /** On the Carrier that Home has selected, as long as it is not cut, the end of Home's stream is on
      its way until Travel has noted it. */
  lemma EndIsNotLost(s: System, c: Uuid)
    requires Reachable(s) && s.home.active == Some(c) && c in s.links && !s.links[c].downCut && s.home.x.snd.eof
    ensures s.travel.x.rcv.eof || FinQueued(s.links[c].down)
  {
    ReachableFin(s);
    assert FinAt(s, c);
  }

  /** Once Travel has taken everything queued there, it has Home's whole stream and knows it ended. */
  lemma DrainedEndIsDelivered(s: System, c: Uuid)
    requires Reachable(s) && s.home.active == Some(c) && c in s.links && !s.links[c].downCut && s.home.x.snd.eof
    requires s.links[c].down == []
    ensures s.travel.x.rcv.eof && s.travel.x.rcv.written == s.home.x.local.read
  {
    EndIsNotLost(s, c);
    ReachableOk(s);
    EndOfStream(s.home.x, s.travel.x.rcv);
  }
}
