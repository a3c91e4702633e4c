/** What every run of a flow guarantees, whatever Carriers are opened, raced, cut or lost. */
module FlowTheorems {
  import opened Basics
  import opened Transfer
  import opened TransferLemmas
  import opened FlowSystem
  import opened FlowInvariant
  import opened FlowLinks
  import opened FlowSteps
  import H = HomeFlow
  import T = TravelFlow

  /** A flow at its start, with the limits that configuration loading enforces. */
  ghost predicate Fresh(s: System) {
    exists flow: Uuid, detach: nat, homeMax: nat, travelMax: nat, now: nat ::
      && MAX_DATA_PAYLOAD <= homeMax && MAX_DATA_PAYLOAD <= travelMax
      && s == Initial(flow, detach, homeMax, travelMax, now)
  }

  /** Some run from a fresh flow ends in `s`. */
  ghost predicate Reachable(s: System) {
    exists first: System, trace: seq<Action> :: Fresh(first) && s == Run(first, trace)
  }

  lemma FreshOk(s: System)
    requires Fresh(s)
    ensures Inv(s)
  {
    var flow: Uuid, detach: nat, homeMax: nat, travelMax: nat, now: nat :|
      && MAX_DATA_PAYLOAD <= homeMax && MAX_DATA_PAYLOAD <= travelMax
      && s == Initial(flow, detach, homeMax, travelMax, now);
    InitialOk(flow, detach, homeMax, travelMax, now);
  }

  lemma ReachableOk(s: System)
    requires Reachable(s)
    ensures Inv(s)
  {
    var first: System, trace: seq<Action> :| Fresh(first) && s == Run(first, trace);
    FreshOk(first);
    RunKeeps(first, trace);
  }

  // ----- exactly-once, in-order delivery -----

  lemma PrefixDelivered(sender: Endpoint, r: Receiver)
    requires DirectionOk(sender.snd, r) && StreamKept(sender)
    ensures r.offset <= |sender.local.read| && r.written == sender.local.read[..r.offset]
  {
    FlatPrefix(sender.snd.log, r.accepted);
  }

  /** What was written at either end is exactly the prefix, of the length of its receive offset,
      of the stream read at the other end. */
  lemma ExactlyOnceInOrder(s: System)
    requires Reachable(s)
    ensures var home, travel := s.home.x, s.travel.x;
            && home.rcv.offset <= |travel.local.read|
            && home.rcv.written == travel.local.read[..home.rcv.offset]
            && travel.rcv.offset <= |home.local.read|
            && travel.rcv.written == home.local.read[..travel.rcv.offset]
  {
    ReachableOk(s);
    PrefixDelivered(s.travel.x, s.home.x.rcv);
    PrefixDelivered(s.home.x, s.travel.x.rcv);
  }

  // ----- a clean end -----

  lemma EndOfStream(sender: Endpoint, r: Receiver)
    requires DirectionOk(sender.snd, r) && LocalOk(sender) && r.eof
    ensures r.written == sender.local.read && sender.snd.eof
  {
    assert sender.snd.log[..r.accepted] == sender.snd.log;
  }

  /** An end that returns success, or gets as far as draining its Carriers, has delivered the whole
      peer stream, and its own stream has been delivered whole; both streams had ended. */
  lemma CleanEndIsComplete(s: System)
    requires Reachable(s) && (HomeThrough(s.home.status) || TravelThrough(s.travel.status))
    ensures var home, travel := s.home.x, s.travel.x;
            && home.snd.eof && travel.snd.eof
            && home.rcv.written == travel.local.read && travel.rcv.written == home.local.read
  {
    ReachableOk(s);
    EndOfStream(s.travel.x, s.home.x.rcv);
    EndOfStream(s.home.x, s.travel.x.rcv);
  }

  // ----- handover -----

  lemma DownCutFromLog(flow: Uuid, h: Endpoint, t: Endpoint, q: seq<Frame>)
    requires DownOk(flow, h, t, q)
    ensures CutFrom(h.snd.log, q)
  {
    forall i | 0 <= i < |q| && q[i].Data? ensures Segment(q[i].offset, q[i].bytes) in h.snd.log {
      assert q[i] in q;
    }
  }

  /** On the Carrier that Home has selected, as long as it is not cut, everything Travel is still
      missing is queued in order: Travel takes each Data frame whole or as a duplicate and ends
      exactly at Home's send offset. */
  lemma HandoverLosesNothing(s: System, c: Uuid)
    requires Reachable(s) && s.home.active == Some(c) && c in s.links && !s.links[c].downCut
    ensures Consume(s.travel.x.rcv.offset, s.links[c].down) == Some(s.home.x.snd.offset)
  {
    ReachableOk(s);
    var l := s.links[c];
    assert LinkOk(s.home, s.travel, l) && Supplied(s.home, s.travel, l);
    DownCutFromLog(s.home.flow, s.home.x, s.travel.x, l.down);
    ConsumeReaches(s.home.x.snd.log, s.travel.x.rcv.accepted, l.down, s.home.x.snd.offset);
  }

  /** Once Travel has taken everything queued on it, Travel has every byte Home has sent, whatever
      became of the Carriers before it. */
  lemma DrainedMeansDelivered(s: System, c: Uuid)
    requires Reachable(s) && s.home.active == Some(c) && c in s.links && !s.links[c].downCut && s.links[c].down == []
    ensures s.home.x.snd.offset <= |s.home.x.local.read|
    ensures s.travel.x.rcv.written == s.home.x.local.read[..s.home.x.snd.offset]
  {
    HandoverLosesNothing(s, c);
    ExactlyOnceInOrder(s);
  }

  /** What a selected Carrier is given serves a receiver at any segment boundary of the window. */
  lemma ResendServesAnyBoundary(flow: Uuid, s: Sender, r: nat)
    requires WindowOk(s) && AckedCount(s) <= r <= |s.log|
    ensures Consume(Pos(s.log, r), RetransmitFrames(flow, s)) == Some(s.offset)
  {
    PosMonotone(s.log, AckedCount(s), r);
    PosMonotone(s.log, r, |s.log|);
    RetransmitReaches(flow, s, Pos(s.log, r));
    var frames := RetransmitFrames(flow, s);
    forall i | 0 <= i < |frames| && frames[i].Data? ensures Segment(frames[i].offset, frames[i].bytes) in s.log {
      assert s.unacked[i] == s.log[AckedCount(s) + i];
    }
    ConsumeReaches(s.log, r, frames, s.offset);
  }

  // ----- windows and credit -----

  /** In every reachable state the unacknowledged segments tile the window exactly, credit is
      conserved, the reader can never ask for more than there is, and neither the
      unacknowledged-data limit nor a split ACK has ended either side. */
  lemma WindowAndCredit(s: System)
    requires Reachable(s)
    ensures WindowOk(s.home.x.snd) && WindowOk(s.travel.x.snd)
    ensures forall x | x in {s.home.x, s.travel.x} ::
              && CreditConserved(x.local, x.snd.unacked)
              && (x.local.reader.AwaitingCredit? ==> |x.local.reader.bytes| <= x.local.max)
              && (x.local.queue != [] && x.local.queue[0].LocalData? ==> !OverLimit(x, x.local.queue[0].bytes))
    ensures s.home.status != H.Failed(H.AckSplit) && s.home.status != H.Failed(H.LimitReached)
    ensures s.travel.status != T.Failed(T.AckSplit) && s.travel.status != T.Failed(T.LimitReached)
  {
    ReachableOk(s);
    CreditSuffices(s.home.x);
    CreditSuffices(s.travel.x);
  }

  // ----- races and attachment -----

  /** The race memory is bounded and exact, two selections for one race id are more than 32
      selections apart, and Home has an attached active Carrier or a running deadline. */
  lemma RacesAgree(s: System)
    requires Reachable(s)
    ensures var r := s.home.races;
            && |r.order| <= H.RACE_MEMORY && H.Distinct(r.order)
            && (forall race :: race in r.winners <==> race in r.order)
            && (forall i, j | 0 <= i < j < |r.selections| && r.selections[i] == r.selections[j] ::
                  j - i > H.RACE_MEMORY)
    ensures s.home.active.Some? <==> s.home.deadline.None?
    ensures s.home.active.Some? ==> s.home.active.value in s.home.carriers
  {
    ReachableOk(s);
  }

  // ----- what can end a flow -----

  /** Between honest ends, no frame ever ends Home's loop: only its detach deadline or its own
      I/O does. */
  lemma HomeOutlivesFrames(s: System, c: Uuid)
    requires Reachable(s) && Enabled(s, HomeReceives(c))
    ensures Apply(s, HomeReceives(c)).home.status.Running?
  {
    ReachableOk(s);
    ComesFromAttached(s, c);
    HomeGotFrame(s, c, s.links[c].up[0]);
  }

  /** Home answers an honest frame with Close exactly when it is a stale acknowledgement, a FIN
      whose data has not all arrived, or unreceived data that is not next on the active Carrier. */
  predicate HomeRefuses(h: H.Home, c: Uuid, f: Frame) {
    || ((f.Ack? || f.Duplicate?) && f.next < h.x.snd.acked)
    || (f.Fin? && f.final != h.x.rcv.offset)
    || (f.Data? && h.x.rcv.offset < f.offset + |f.bytes| && !(f.offset == h.x.rcv.offset && h.active == Some(c)))
  }

  lemma HomeClosesExactlyWhen(s: System, c: Uuid)
    requires Reachable(s) && Enabled(s, HomeReceives(c))
    ensures var f := s.links[c].up[0];
            Closes(H.OnFrame(s.home, c, f).frames) <==> HomeRefuses(s.home, c, f)
  {
    ReachableOk(s);
    ComesFromAttached(s, c);
    var f := s.links[c].up[0];
    HonestCloses(s.home, s.travel, c, f);
  }

  predicate Closes(frames: seq<Frame>) {
    exists g :: g in frames && g.Close?
  }

  lemma OneFrameCloses(f: Frame)
    ensures Closes([f]) <==> f.Close?
  {
    assert f in [f];
  }

  lemma DataOrClose(h: H.Home, t: T.Travel, c: Uuid, f: Frame)
    requires EndsOk(h.x, t.x) && c in h.carriers && f.Data? && Honest(f, h.flow, t.x, h.x.snd.log)
    ensures Closes(H.OnFrame(h, c, f).frames) <==> HomeRefuses(h, c, f)
  {
    NotNextIsOld(t.x.snd, h.x.rcv, f.offset, f.bytes);
    var frames := H.OnData(h, c, f.offset, f.bytes).frames;
    assert frames == [frames[0]];
    OneFrameCloses(frames[0]);
  }

  lemma RaceNeverCloses(h: H.Home, t: T.Travel, c: Uuid, f: Frame)
    requires EndsOk(h.x, t.x) && f.Race? && Honest(f, h.flow, t.x, h.x.snd.log)
    ensures !Closes(H.OnFrame(h, c, f).frames)
  {
    AckedBelowReceived(t.x.snd, h.x.rcv);
    forall g | g in H.OnRace(h, c, f.race).frames ensures !g.Close? {
      if g in RetransmitFrames(h.flow, h.x.snd) { ResentHonest(h.flow, h.x, t.x.snd.log, g); }
    }
  }

  lemma FinOrClose(h: H.Home, t: T.Travel, c: Uuid, f: Frame)
    requires EndsOk(h.x, t.x) && c in h.carriers && (f.Fin? || f.FinAck?) && Honest(f, h.flow, t.x, h.x.snd.log)
    ensures Closes(H.OnFrame(h, c, f).frames) <==> HomeRefuses(h, c, f)
  {
    if f.Fin? {
      OneFrameCloses(Close(h.flow, InvalidFrame));
      OneFrameCloses(FinAck(h.flow, f.final));
    }
  }

  lemma HonestCloses(h: H.Home, t: T.Travel, c: Uuid, f: Frame)
    requires EndsOk(h.x, t.x) && c in h.carriers && UpKind(f) && Honest(f, h.flow, t.x, h.x.snd.log)
    ensures Closes(H.OnFrame(h, c, f).frames) <==> HomeRefuses(h, c, f)
  {
    match f
    case Data(_, _, _) => DataOrClose(h, t, c, f);
    case Race(_, _, _) => RaceNeverCloses(h, t, c, f);
    case Ack(_, next) => AckOrClose(h, t, c, f, next);
    case Duplicate(_, next, _) => AckOrClose(h, t, c, f, next);
    case Fin(_, _) => FinOrClose(h, t, c, f);
    case FinAck(_, _) => FinOrClose(h, t, c, f);
  }

  lemma AckOrClose(h: H.Home, t: T.Travel, c: Uuid, f: Frame, next: nat)
    requires EndsOk(h.x, t.x) && c in h.carriers && (f.Ack? || f.Duplicate?) && f.flow == h.flow && f.next == next
    requires Boundary(h.x.snd.log, t.x.rcv.accepted, next)
    ensures Closes(H.OnFrame(h, c, f).frames) <==> next < h.x.snd.acked
  {
    HonestAckBelowOffset(h.x.snd, t.x.rcv, next);
    if next < h.x.snd.acked {
      assert H.OnFrame(h, c, f).frames[0] == Close(h.flow, InvalidFrame);
    } else {
      HonestAckKeeps(h.x.snd, t.x.rcv, next);
    }
  }

  /** A frame ends Travel's loop exactly when it is Home's Close or a stale acknowledgement; a
      gap, a split ACK, a wrong FIN or FIN-ACK never happen. */
  lemma TravelEndsExactlyWhen(s: System, c: Uuid)
    requires Reachable(s) && Enabled(s, TravelReceives(c))
    ensures var f := s.links[c].down[0];
            Apply(s, TravelReceives(c)).travel.status.Failed? <==>
              f.Close? || ((f.Ack? || f.Duplicate?) && f.next < s.travel.x.snd.acked)
  {
    ReachableOk(s);
    HeadOfDown(s.home, s.travel, s.links[c]);
    TravelGotFrame(s, c, s.links[c].down[0]);
    EndingFrame(s.travel, c, s.links[c].down[0]);
  }

  lemma EndingFrame(t: T.Travel, c: Uuid, f: Frame)
    requires f.Close? || f.Ack? || f.Duplicate? ==> f.flow == t.flow
    ensures f.Close? || ((f.Ack? || f.Duplicate?) && f.next < t.x.snd.acked) ==>
              T.OnFrame(t, c, f).travel.status.Failed?
  {
  }

  /** A candidate's OPEN answer ends Travel's loop exactly when Travel has meanwhile processed a
      later acknowledgement on another Carrier. */
  lemma OpenedEndsExactlyWhen(s: System, c: Uuid)
    requires Reachable(s) && Enabled(s, TravelOpened(c))
    ensures Apply(s, TravelOpened(c)).travel.status.Failed? <==>
              s.links[c].down[0].receiveOffset < s.travel.x.snd.acked
  {
    ReachableOk(s);
    HeadOfDown(s.home, s.travel, s.links[c]);
    TravelGotOpened(s, c, s.links[c].down[0]);
  }
}
