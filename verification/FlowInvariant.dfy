/** The invariant of a flow and its preservation, one lemma per way an end can move. */
module FlowInvariant {
  import opened Basics
  import opened Transfer
  import opened TransferLemmas
  import opened FlowSystem
  import H = HomeFlow
  import T = TravelFlow

  // ----- what the two ends know of each other -----

  /** One direction of the flow, from the sender of one end to the receiver of the other. */
  ghost predicate DirectionOk(s: Sender, r: Receiver) {
    && WindowOk(s)
    && AckedCount(s) <= r.accepted <= |s.log|
    && r.offset == Pos(s.log, r.accepted)
    && r.written == Flat(s.log[..r.accepted])
    && (r.eof ==> s.eof && r.accepted == |s.log|)
    && (s.finAcked ==> r.eof)
  }

  /** `n` is a segment boundary among the first `upto`. */
  ghost predicate Boundary(log: seq<Segment>, upto: nat, n: nat) {
    exists j: nat :: j <= upto && j <= |log| && Pos(log, j) == n
  }

  /** A frame in flight is true of the end that sent it, and stays so. */
  ghost predicate Honest(f: Frame, flow: Uuid, own: Endpoint, peerLog: seq<Segment>) {
    match f
    case Data(id, offset, bytes) => id == flow && Segment(offset, bytes) in own.snd.log
    case Fin(id, final) => id == flow && own.snd.eof && final == own.snd.offset
    case Ack(id, next) => id == flow && Boundary(peerLog, own.rcv.accepted, next)
    case Duplicate(id, next, _) => id == flow && Boundary(peerLog, own.rcv.accepted, next)
    case OpenOk(id, _, next, _) => id == flow && Boundary(peerLog, own.rcv.accepted, next)
    case FinAck(id, final) => id == flow && own.rcv.eof && final == own.rcv.offset
    case Race(id, _, next) => id == flow && next <= own.snd.acked
    case RaceAck(id, _, _) => id == flow
    case RaceDuplicate(id, _, _) => id == flow
    case Close(id, _) => id == flow
    case OtherFrame => false
  }

  predicate UpKind(f: Frame) {
    f.Race? || f.Data? || f.Ack? || f.Duplicate? || f.Fin? || f.FinAck?
  }

  predicate DownKind(f: Frame) {
    f.OpenOk? || f.RaceAck? || f.RaceDuplicate? || f.Data? || f.Ack? || f.Duplicate? || f.Fin? || f.FinAck? || f.Close?
  }

  ghost predicate UpOk(flow: Uuid, travel: Endpoint, home: Endpoint, q: seq<Frame>) {
    forall f | f in q :: UpKind(f) && Honest(f, flow, travel, home.snd.log)
  }

  ghost predicate DownOk(flow: Uuid, home: Endpoint, travel: Endpoint, q: seq<Frame>) {
    forall f | f in q :: DownKind(f) && Honest(f, flow, home, travel.snd.log)
  }

  // ----- the invariant -----

  ghost predicate EndsOk(home: Endpoint, travel: Endpoint) {
    && DirectionOk(home.snd, travel.rcv) && DirectionOk(travel.snd, home.rcv)
    && LocalOk(home) && LocalOk(travel)
  }

  ghost predicate LinkOk(h: H.Home, t: T.Travel, l: Link) {
    && UpOk(h.flow, t.x, h.x, l.up)
    && DownOk(h.flow, h.x, t.x, l.down)
    && QueueOk(t.x.rcv.offset, l.down, h.x.snd.offset)
  }

  /** The active Carrier still carries everything Travel has not received. */
  ghost predicate Supplied(h: H.Home, t: T.Travel, l: Link) {
    l.downCut || Reach(t.x.rcv.offset, l.down) == h.x.snd.offset
  }

  /** Where a Carrier stands between being opened and being closed. */
  ghost predicate PlaceOk(h: H.Home, t: T.Travel, arriving: set<Uuid>, c: Uuid, l: Link) {
    if c in arriving then l.up == [] && l.down == [] && c !in h.carriers && c !in t.carriers
    else c in h.carriers || (l.upCut && l.up == [])
  }

  ghost predicate LinksOk(s: System) {
    && (forall c | c in s.links :: LinkOk(s.home, s.travel, s.links[c]))
    && (forall c | c in s.links && s.home.active == Some(c) :: Supplied(s.home, s.travel, s.links[c]))
  }

  ghost predicate PlacesOk(s: System) {
    && (forall c | c in s.links :: PlaceOk(s.home, s.travel, s.arriving, c, s.links[c]))
    && s.arriving <= s.links.Keys && s.home.carriers <= s.links.Keys && s.travel.carriers <= s.links.Keys
  }

  /** The loop ended because both streams were through. */
  predicate HomeThrough(status: H.HomeStatus) {
    status.Finished? || status == H.Failed(H.DrainTimedOut)
  }

  predicate TravelThrough(status: T.TravelStatus) {
    status.Finished? || status == T.Failed(T.DrainTimedOut)
  }

  ghost predicate StatusOk(s: System) {
    && (s.home.status.Failed? ==>
          s.home.status.error.DetachExpired? || s.home.status.error.IoFailed? || s.home.status.error.DrainTimedOut?)
    && (s.travel.status.Failed? ==>
          s.travel.status.error.AckMovedBackwards? || s.travel.status.error.InvalidFrameReceived?
          || s.travel.status.error.HomeClosed? || s.travel.status.error.IoFailed?
          || s.travel.status.error.DrainTimedOut?)
    && (HomeThrough(s.home.status) ==> Complete(s.home.x))
    && (TravelThrough(s.travel.status) ==> Complete(s.travel.x))
  }

  ghost predicate Inv(s: System) {
    && s.travel.flow == s.home.flow
    && EndsOk(s.home.x, s.travel.x)
    && H.RaceMemoryOk(s.home.races) && H.AttachmentOk(s.home)
    && LinksOk(s) && PlacesOk(s) && StatusOk(s)
  }

  // ----- how one end may move -----

  /** Nothing an endpoint has said becomes untrue. */
  ghost predicate Grew(x: Endpoint, y: Endpoint) {
    && x.snd.log <= y.snd.log && x.snd.acked <= y.snd.acked
    && (x.snd.eof ==> y.snd.eof && y.snd.log == x.snd.log && y.snd.offset == x.snd.offset)
    && x.rcv.accepted <= y.rcv.accepted
    && (x.rcv.eof ==> y.rcv.eof && y.rcv.offset == x.rcv.offset)
  }

  lemma BoundaryStable(log: seq<Segment>, longer: seq<Segment>, upto: nat, more: nat, n: nat)
    requires Tiled(longer) && log <= longer && upto <= more && Boundary(log, upto, n)
    ensures Boundary(longer, more, n)
  {
    var j: nat :| j <= upto && j <= |log| && Pos(log, j) == n;
    PosPrefix(log, longer, j);
  }

  lemma HonestStable(f: Frame, flow: Uuid, x: Endpoint, y: Endpoint, log: seq<Segment>, longer: seq<Segment>)
    requires Honest(f, flow, x, log) && Grew(x, y) && Tiled(longer) && log <= longer
    ensures Honest(f, flow, y, longer)
  {
    if f.Ack? || f.Duplicate? {
      BoundaryStable(log, longer, x.rcv.accepted, y.rcv.accepted, f.next);
    } else if f.OpenOk? {
      BoundaryStable(log, longer, x.rcv.accepted, y.rcv.accepted, f.receiveOffset);
    }
  }

  lemma UpStable(flow: Uuid, t: Endpoint, t': Endpoint, h: Endpoint, h': Endpoint, q: seq<Frame>)
    requires UpOk(flow, t, h, q) && Grew(t, t') && Grew(h, h') && Tiled(h'.snd.log)
    ensures UpOk(flow, t', h', q)
  {
    forall f | f in q ensures UpKind(f) && Honest(f, flow, t', h'.snd.log) {
      HonestStable(f, flow, t, t', h.snd.log, h'.snd.log);
    }
  }

  lemma DownStable(flow: Uuid, h: Endpoint, h': Endpoint, t: Endpoint, t': Endpoint, q: seq<Frame>)
    requires DownOk(flow, h, t, q) && Grew(t, t') && Grew(h, h') && Tiled(t'.snd.log)
    ensures DownOk(flow, h', t', q)
  {
    forall f | f in q ensures DownKind(f) && Honest(f, flow, h', t'.snd.log) {
      HonestStable(f, flow, h, h', t.snd.log, t'.snd.log);
    }
  }

  /** A receiver takes the frame at its offset. */
  lemma AcceptKeeps(s: Sender, r: Receiver, bytes: seq<Byte>)
    requires DirectionOk(s, r) && Segment(r.offset, bytes) in s.log
    ensures DirectionOk(s, Accept(r, r.offset, bytes))
    ensures Boundary(s.log, Accept(r, r.offset, bytes).accepted, Accept(r, r.offset, bytes).offset)
    ensures !r.eof && r.offset < Accept(r, r.offset, bytes).offset <= s.offset
  {
    var k :| 0 <= k < |s.log| && s.log[k] == Segment(r.offset, bytes);
    FrameAgainstReceiver(s.log, k, r.accepted);
    FlatStep(s.log, k);
    PosStep(s.log, k);
    PosMonotone(s.log, k + 1, |s.log|);
  }

  /** A frame that is not the next one, but starts no later, lies entirely behind. */
  lemma NotNextIsOld(s: Sender, r: Receiver, offset: nat, bytes: seq<Byte>)
    requires DirectionOk(s, r) && Segment(offset, bytes) in s.log
    ensures |bytes| <= MAX_DATA_PAYLOAD && SatAdd(offset, |bytes|) == offset + |bytes|
    ensures offset < r.offset ==> offset + |bytes| <= r.offset
  {
    var k :| 0 <= k < |s.log| && s.log[k] == Segment(offset, bytes);
    FrameAgainstReceiver(s.log, k, r.accepted);
    PosStep(s.log, k);
  }

  /** An honest ACK inside the window is at a boundary: it never splits a segment. */
  lemma HonestAckKeeps(s: Sender, r: Receiver, next: nat)
    requires DirectionOk(s, r) && Boundary(s.log, r.accepted, next) && s.acked <= next
    ensures InWindow(s, next) && !AckSplits(s.unacked, next) && DirectionOk(AckedSender(s, next), r)
  {
    var j: nat :| j <= r.accepted && j <= |s.log| && Pos(s.log, j) == next;
    if j < AckedCount(s) {
      PosMonotone(s.log, j, AckedCount(s));
    }
    AcknowledgeKeeps(s, next, j);
  }

  lemma HonestAckBelowOffset(s: Sender, r: Receiver, next: nat)
    requires DirectionOk(s, r) && Boundary(s.log, r.accepted, next)
    ensures next <= r.offset <= s.offset
  {
    var j: nat :| j <= r.accepted && j <= |s.log| && Pos(s.log, j) == next;
    PosMonotone(s.log, j, r.accepted);
    PosMonotone(s.log, r.accepted, |s.log|);
  }

  lemma AckedBelowReceived(s: Sender, r: Receiver)
    requires DirectionOk(s, r)
    ensures s.acked <= r.offset <= s.offset
    ensures Boundary(s.log, r.accepted, r.offset)
  {
    PosMonotone(s.log, AckedCount(s), r.accepted);
    PosMonotone(s.log, r.accepted, |s.log|);
  }

  lemma TakeLocalDirection(x: Endpoint, r: Receiver)
    requires Fits(x) && DirectionOk(x.snd, r) && LocalOk(x)
    ensures DirectionOk(TakeLocal(x).snd, r) && LocalOk(TakeLocal(x))
    ensures Grew(x, TakeLocal(x)) && !x.snd.eof
    ensures x.snd.offset <= TakeLocal(x).snd.offset
  {
    TakeLocalKeeps(x);
    var y := TakeLocal(x).snd;
    assert x.snd.log <= y.log;
    PosPrefix(x.snd.log, y.log, r.accepted);
    assert y.log[..r.accepted] == x.snd.log[..r.accepted];
  }
}
