/** Facts about logs, windows and queues that hold whatever the peer does. */
module TransferLemmas {
  import opened Basics
  import opened Transfer

  lemma {:induction false} FlatConcat(a: seq<Segment>, b: seq<Segment>)
    ensures Flat(a + b) == Flat(a) + Flat(b)
  {
    if a == [] {
      assert a + b == b;
    } else {
      assert (a + b)[1..] == a[1..] + b;
      FlatConcat(a[1..], b);
    }
  }

  lemma PosStep(log: seq<Segment>, k: nat)
    requires Tiled(log) && k < |log|
    ensures Pos(log, k + 1) == Pos(log, k) + |log[k].bytes|
    ensures 0 < |log[k].bytes| <= MAX_DATA_PAYLOAD
  {
    assert LinkedAt(log, k);
  }

  lemma {:induction false} PosMonotone(log: seq<Segment>, i: nat, j: nat)
    requires Tiled(log) && i <= j <= |log|
    ensures Pos(log, i) <= Pos(log, j)
    ensures i < j ==> Pos(log, i) < Pos(log, j)
    decreases j
  {
    if i < j {
      PosStep(log, j - 1);
      PosMonotone(log, i, j - 1);
    }
  }

  /** Positions do not move when the log grows. */
  lemma PosPrefix(log: seq<Segment>, longer: seq<Segment>, k: nat)
    requires Tiled(longer) && log <= longer && k <= |log|
    ensures Pos(longer, k) == Pos(log, k)
  {
    if k == |log| && 0 < k {
      assert LinkedAt(longer, k - 1);
    }
  }

  lemma FlatStep(log: seq<Segment>, k: nat)
    requires k < |log|
    ensures Flat(log[..k + 1]) == Flat(log[..k]) + log[k].bytes
  {
    assert log[..k + 1] == log[..k] + [log[k]];
    FlatConcat(log[..k], [log[k]]);
    assert Flat([log[k]]) == log[k].bytes;
  }

  /** Offsets count the bytes before them. */
  lemma {:induction false} PosCounts(log: seq<Segment>, k: nat)
    requires Tiled(log) && k <= |log|
    ensures Pos(log, k) == |Flat(log[..k])|
  {
    if k > 0 {
      PosCounts(log, k - 1);
      PosStep(log, k - 1);
      FlatStep(log, k - 1);
    }
  }

  /** The written prefix in terms of offsets: the first Pos(log, k) bytes of the stream. */
  lemma FlatPrefix(log: seq<Segment>, k: nat)
    requires Tiled(log) && k <= |log|
    ensures Pos(log, k) <= |Flat(log)| == EndOf(log)
    ensures Flat(log[..k]) == Flat(log)[..Pos(log, k)]
  {
    assert log == log[..k] + log[k..] && log[..|log|] == log;
    FlatConcat(log[..k], log[k..]);
    PosCounts(log, k);
    PosCounts(log, |log|);
  }

  // ----- acknowledgement -----

  /** Where `DropAcked` stops on a tiled window. */
  lemma {:induction false} DropAckedStops(log: seq<Segment>, a: nat, next: nat) returns (b: nat)
    requires Tiled(log) && EndOf(log) <= U64_MAX && a <= |log|
    ensures a <= b <= |log| && DropAcked(log[a..], next) == log[b..]
    ensures b < |log| ==> Pos(log, b + 1) > next
    ensures a < b ==> Pos(log, b) <= next
    decreases |log| - a
  {
    var unacked := log[a..];
    if unacked == [] {
      b := a;
    } else {
      assert unacked[0] == log[a];
      PosStep(log, a);
      PosMonotone(log, a + 1, |log|);
      assert SegmentEnd(unacked[0]) == Pos(log, a + 1);
      if SegmentEnd(unacked[0]) > next {
        b := a;
      } else {
        assert unacked[1..] == log[a + 1..];
        b := DropAckedStops(log, a + 1, next);
      }
    }
  }

  /** An ACK inside the window is accepted exactly when it names a segment boundary, and then
      it leaves exactly the segments from that boundary on. */
  lemma AckExactlyOnBoundaries(log: seq<Segment>, a: nat, next: nat)
    requires Tiled(log) && EndOf(log) <= U64_MAX && a <= |log|
    requires Pos(log, a) <= next <= Pos(log, |log|)
    ensures !AckSplits(log[a..], next) <==> exists b: nat :: a <= b <= |log| && Pos(log, b) == next
    ensures forall b: nat | a <= b <= |log| && Pos(log, b) == next :: DropAcked(log[a..], next) == log[b..]
  {
    var stop := DropAckedStops(log, a, next);
    if !AckSplits(log[a..], next) {
      assert stop < |log| ==> log[stop..][0] == log[stop];
      assert Pos(log, stop) == next;
    }
    forall b: nat | a <= b <= |log| && Pos(log, b) == next
      ensures b == stop && !AckSplits(log[a..], next)
    {
      if b < stop {
        PosMonotone(log, b, stop);
        if a < stop { }
      } else if stop < b {
        PosMonotone(log, stop + 1, b);
      }
      assert stop < |log| ==> log[stop..][0] == log[stop];
    }
  }

  lemma {:induction false} BytesAfterCounts(unacked: seq<Segment>, bytes: nat, next: nat)
    requires bytes == |Flat(unacked)|
    ensures BytesAfter(unacked, bytes, next) == |Flat(DropAcked(unacked, next))|
  {
    if unacked != [] && SegmentEnd(unacked[0]) <= next {
      BytesAfterCounts(unacked[1..], SatSub(bytes, |unacked[0].bytes|), next);
    }
  }

  /** An accepted ACK keeps the window. */
  lemma AcknowledgeKeeps(s: Sender, next: nat, b: nat)
    requires WindowOk(s) && AckedCount(s) <= b <= |s.log| && next == Pos(s.log, b)
    ensures !AckSplits(s.unacked, next)
    ensures WindowOk(AckedSender(s, next)) && AckedCount(AckedSender(s, next)) == b
    ensures s.acked <= next <= s.offset
  {
    PosMonotone(s.log, AckedCount(s), b);
    PosMonotone(s.log, b, |s.log|);
    AckAtBoundary(s.log, AckedCount(s), next, b);
    BytesAfterCounts(s.unacked, s.unackedBytes, next);
    WindowAt(s, AckedSender(s, next), b);
  }

  lemma WindowAt(s: Sender, y: Sender, b: nat)
    requires WindowOk(s) && b <= |s.log|
    requires y.log == s.log && y.offset == s.offset
    requires y.unacked == s.log[b..] && y.acked == Pos(s.log, b) && y.unackedBytes == |Flat(y.unacked)|
    ensures WindowOk(y) && AckedCount(y) == b
  {
  }

  lemma AckAtBoundary(log: seq<Segment>, a: nat, next: nat, b: nat)
    requires Tiled(log) && EndOf(log) <= U64_MAX && a <= b <= |log| && next == Pos(log, b)
    ensures !AckSplits(log[a..], next) && DropAcked(log[a..], next) == log[b..]
  {
    PosMonotone(log, a, b);
    PosMonotone(log, b, |log|);
    AckExactlyOnBoundaries(log, a, next);
  }

  lemma {:induction false} ReleasedCounts(unacked: seq<Segment>, next: nat)
    ensures Released(unacked, next) + |Flat(DropAcked(unacked, next))| == |Flat(unacked)|
  {
    if unacked != [] && SegmentEnd(unacked[0]) <= next {
      ReleasedCounts(unacked[1..], next);
    }
  }

  /** Whatever the ACK says, exactly the credit of what it covers is given back. */
  lemma AcknowledgeCredit(x: Endpoint, next: nat)
    requires CreditConserved(x.local, x.snd.unacked)
    ensures CreditConserved(Acknowledged(x, next).local, Acknowledged(x, next).snd.unacked)
  {
    ReleasedCounts(x.snd.unacked, next);
  }

  // ----- local events -----

  lemma {:induction false} QueuedConcat(a: seq<LocalEvent>, b: seq<LocalEvent>)
    ensures Queued(a + b) == Queued(a) + Queued(b)
  {
    if a == [] {
      assert a + b == b;
    } else {
      assert (a + b)[1..] == a[1..] + b;
      QueuedConcat(a[1..], b);
    }
  }

  /** What every event keeps about the local side of an endpoint. */
  ghost predicate LocalOk(x: Endpoint) {
    && ReaderOk(x.local)
    && StreamKept(x)
    && CreditConserved(x.local, x.snd.unacked)
    && MAX_DATA_PAYLOAD <= x.local.max
    && (x.snd.eof ==> x.local.queue == [] && x.local.reader.Stopped?)
  }

  lemma {:induction false} PendingStep(q: seq<LocalEvent>, r: Reader, bytes: seq<Byte>)
    ensures Pending(q, AwaitingCredit(bytes)) == Pending(q, AwaitingQueue(bytes)) == Pending(q, Reading) + bytes
    ensures Pending(q + [LocalData(bytes)], Reading) == Pending(q, AwaitingQueue(bytes))
    ensures Pending(q + [LocalEof], Stopped) == Pending(q, Reading)
  {
    if q != [] {
      PendingStep(q[1..], r, bytes);
      assert (q + [LocalData(bytes)])[1..] == q[1..] + [LocalData(bytes)];
      assert (q + [LocalEof])[1..] == q[1..] + [LocalEof];
    }
  }

  lemma ReaderStepStream(x: Endpoint, step: ReaderStep)
    requires StreamKept(x) && ReaderCan(x.local, step)
    ensures StreamKept(x.(local := ReaderDoes(x.local, step)))
  {
    var bytes := if step.Read? then step.bytes
                 else if step.TakeCredit? || step.Enqueue? then x.local.reader.bytes else [];
    PendingStep(x.local.queue, x.local.reader, bytes);
  }

  lemma ReaderStepKeeps(x: Endpoint, step: ReaderStep)
    requires LocalOk(x) && ReaderCan(x.local, step)
    ensures LocalOk(x.(local := ReaderDoes(x.local, step)))
  {
    ReaderStepStream(x, step);
    QueuedConcat(x.local.queue, [LocalEof]);
    if step.Enqueue? {
      QueuedConcat(x.local.queue, [LocalData(x.local.reader.bytes)]);
    }
  }

  /** The reader's request never exceeds the whole credit, and is granted once nothing else
      holds credit; and the unacknowledged-data limit is never hit. */
  lemma CreditSuffices(x: Endpoint)
    requires LocalOk(x) && x.snd.unackedBytes == |Flat(x.snd.unacked)|
    ensures x.local.reader.AwaitingCredit? ==> |x.local.reader.bytes| <= x.local.max
    ensures x.local.reader.AwaitingCredit? && Queued(x.local.queue) == 0 && x.snd.unacked == [] ==>
              ReaderCan(x.local, TakeCredit)
    ensures x.local.queue != [] && x.local.queue[0].LocalData? ==> !OverLimit(x, x.local.queue[0].bytes)
  {
  }

  lemma TiledAppend(log: seq<Segment>, s: Segment)
    requires Tiled(log) && s.offset == EndOf(log) && PayloadOk(s.bytes)
    ensures Tiled(log + [s]) && EndOf(log + [s]) == EndOf(log) + |s.bytes|
    ensures forall k: nat | k <= |log| :: Pos(log + [s], k) == Pos(log, k)
  {
    forall k | 0 <= k < |log + [s]| ensures LinkedAt(log + [s], k) {
      if k < |log| {
        assert LinkedAt(log, k);
      }
    }
  }

  lemma CutKeeps(s: Sender, bytes: seq<Byte>)
    requires WindowOk(s) && PayloadOk(bytes) && s.offset + |bytes| <= U64_MAX
    ensures WindowOk(Cut(s, bytes)) && AckedCount(Cut(s, bytes)) == AckedCount(s)
    ensures |Flat(Cut(s, bytes).unacked)| == |Flat(s.unacked)| + |bytes|
  {
    var y := Cut(s, bytes);
    var segment := Segment(s.offset, bytes);
    TiledAppend(s.log, segment);
    FlatConcat(s.unacked, [segment]);
    assert Flat([segment]) == bytes;
    assert y.unacked == y.log[AckedCount(s)..];
  }

  lemma CutStream(x: Endpoint)
    requires x.local.queue != [] && x.local.queue[0].LocalData? && StreamKept(x)
    ensures StreamKept(TakeLocal(x))
  {
    var segment := Segment(x.snd.offset, x.local.queue[0].bytes);
    FlatConcat(x.snd.log, [segment]);
    assert Flat([segment]) == segment.bytes;
  }

  lemma TakeLocalKeeps(x: Endpoint)
    requires x.local.queue != [] && WindowOk(x.snd) && LocalOk(x)
    requires x.local.queue[0].LocalData? ==> x.snd.offset + |x.local.queue[0].bytes| <= U64_MAX
    ensures WindowOk(TakeLocal(x).snd) && AckedCount(TakeLocal(x).snd) == AckedCount(x.snd)
    ensures LocalOk(TakeLocal(x))
  {
    if x.local.queue[0].LocalData? {
      CutKeeps(x.snd, x.local.queue[0].bytes);
      CutStream(x);
    } else {
      WindowAt(x.snd, TakeLocal(x).snd, AckedCount(x.snd));
    }
  }

  // ----- queues of frames -----

  /** A queue a receiver at `at` can take in order without meeting a gap; `top` bounds every
      byte in it and is the only offset at which it may carry FIN. */
  ghost predicate QueueOk(at: nat, queue: seq<Frame>, top: nat)
    decreases |queue|
  {
    queue == [] ||
    match queue[0]
    case Data(_, offset, bytes) =>
      && offset <= at && offset + |bytes| <= top
      && QueueOk(Max(at, offset + |bytes|), queue[1..], top)
    case Fin(_, final) => final == top && at == top && QueueOk(at, queue[1..], top)
    case _ => QueueOk(at, queue[1..], top)
  }

  function Reach(at: nat, queue: seq<Frame>): nat
    decreases |queue|
  {
    if queue == [] then at
    else if queue[0].Data? then Reach(Max(at, queue[0].offset + |queue[0].bytes|), queue[1..])
    else Reach(at, queue[1..])
  }

  lemma {:induction false} QueueAppend(at: nat, a: seq<Frame>, b: seq<Frame>, top: nat)
    requires QueueOk(at, a, top) && QueueOk(Reach(at, a), b, top)
    ensures QueueOk(at, a + b, top) && Reach(at, a + b) == Reach(Reach(at, a), b)
    decreases |a|
  {
    if a == [] {
      assert a + b == b;
    } else {
      assert (a + b)[1..] == a[1..] + b && (a + b)[0] == a[0];
      if a[0].Data? {
        QueueAppend(Max(at, a[0].offset + |a[0].bytes|), a[1..], b, top);
      } else {
        QueueAppend(at, a[1..], b, top);
      }
    }
  }

  lemma {:induction false} QueuePrefix(at: nat, queue: seq<Frame>, k: nat, top: nat)
    requires QueueOk(at, queue, top) && k <= |queue|
    ensures QueueOk(at, queue[..k], top)
    decreases |queue|
  {
    if k > 0 {
      assert queue[..k][1..] == queue[1..][..k - 1];
      if queue[0].Data? {
        QueuePrefix(Max(at, queue[0].offset + |queue[0].bytes|), queue[1..], k - 1, top);
      } else {
        QueuePrefix(at, queue[1..], k - 1, top);
      }
    }
  }

  /** A receiver that got further on another Carrier still finds no gap. */
  lemma {:induction false} QueueAdvance(at: nat, further: nat, queue: seq<Frame>, top: nat)
    requires QueueOk(at, queue, top) && at <= further <= top
    ensures QueueOk(further, queue, top)
    ensures Reach(further, queue) == Max(further, Reach(at, queue)) <= Max(top, Reach(at, queue))
    decreases |queue|
  {
    if queue != [] {
      if queue[0].Data? {
        var end := queue[0].offset + |queue[0].bytes|;
        QueueAdvance(Max(at, end), Max(further, end), queue[1..], top);
        ReachGrows(Max(at, end), queue[1..]);
      } else {
        QueueAdvance(at, further, queue[1..], top);
      }
    }
  }

  lemma {:induction false} ReachGrows(at: nat, queue: seq<Frame>)
    ensures at <= Reach(at, queue)
    decreases |queue|
  {
    if queue != [] {
      ReachGrows(if queue[0].Data? then Max(at, queue[0].offset + |queue[0].bytes|) else at, queue[1..]);
    }
  }

  ghost predicate NoFin(queue: seq<Frame>) {
    forall i | 0 <= i < |queue| :: !queue[i].Fin?
  }

  lemma {:induction false} QueueRaiseTop(at: nat, queue: seq<Frame>, top: nat, higher: nat)
    requires QueueOk(at, queue, top) && NoFin(queue) && top <= higher
    ensures QueueOk(at, queue, higher)
    decreases |queue|
  {
    if queue != [] {
      assert NoFin(queue[1..]);
      QueueRaiseTop(if queue[0].Data? then Max(at, queue[0].offset + |queue[0].bytes|) else at,
                    queue[1..], top, higher);
    }
  }

  ghost predicate NoData(queue: seq<Frame>) {
    forall i | 0 <= i < |queue| :: !queue[i].Data? && !queue[i].Fin?
  }

  lemma {:induction false} QueueQuiet(at: nat, queue: seq<Frame>, top: nat)
    requires NoData(queue)
    ensures QueueOk(at, queue, top) && Reach(at, queue) == at
    decreases |queue|
  {
    if queue != [] {
      assert !queue[0].Data? && !queue[0].Fin?;
      assert NoData(queue[1..]);
      QueueQuiet(at, queue[1..], top);
    }
  }

  /** The window resent from any point a receiver may be at brings it to the end. */
  lemma {:induction false} ResendReaches(flow: Uuid, log: seq<Segment>, a: nat, at: nat)
    requires Tiled(log) && a <= |log| && Pos(log, a) <= at <= Pos(log, |log|)
    ensures QueueOk(at, DataFrames(flow, log[a..]), Pos(log, |log|))
    ensures Reach(at, DataFrames(flow, log[a..])) == Pos(log, |log|)
    decreases |log| - a
  {
    var frames := DataFrames(flow, log[a..]);
    if a < |log| {
      assert log[a..][0] == log[a] && log[a..][1..] == log[a + 1..];
      PosStep(log, a);
      PosMonotone(log, a + 1, |log|);
      assert frames[0] == Data(flow, log[a].offset, log[a].bytes);
      assert frames[1..] == DataFrames(flow, log[a + 1..]);
      ResendReaches(flow, log, a + 1, Max(at, Pos(log, a + 1)));
    }
  }

  lemma RetransmitReaches(flow: Uuid, s: Sender, at: nat)
    requires WindowOk(s) && s.acked <= at <= s.offset
    ensures QueueOk(at, RetransmitFrames(flow, s), s.offset)
    ensures Reach(at, RetransmitFrames(flow, s)) == s.offset
  {
    ResendReaches(flow, s.log, AckedCount(s), at);
    var fin := if s.eof then [Fin(flow, s.offset)] else [];
    assert s.eof ==> fin[1..] == [];
    QueueAppend(at, DataFrames(flow, s.unacked), fin, s.offset);
  }

  /** Frames whose payload is a segment of the log. */
  ghost predicate CutFrom(log: seq<Segment>, queue: seq<Frame>) {
    forall i | 0 <= i < |queue| && queue[i].Data? :: Segment(queue[i].offset, queue[i].bytes) in log
  }

  /** A receiver at a segment boundary takes a gap-free queue frame by frame, each accepted
      whole or answered as a duplicate, and ends where the queue reaches. */
  lemma {:induction false} ConsumeReaches(log: seq<Segment>, r: nat, queue: seq<Frame>, top: nat)
    requires Tiled(log) && EndOf(log) <= U64_MAX && r <= |log|
    requires QueueOk(Pos(log, r), queue, top) && CutFrom(log, queue)
    ensures Consume(Pos(log, r), queue) == Some(Reach(Pos(log, r), queue))
    decreases |queue|
  {
    if queue != [] {
      assert CutFrom(log, queue[1..]) by {
        forall i | 0 <= i < |queue[1..]| && queue[1..][i].Data?
          ensures Segment(queue[1..][i].offset, queue[1..][i].bytes) in log
        {
          assert queue[1..][i] == queue[i + 1];
        }
      }
      if queue[0].Data? {
        var k :| 0 <= k < |log| && log[k] == Segment(queue[0].offset, queue[0].bytes);
        FrameAgainstReceiver(log, k, r);
        if k == r {
          ConsumeReaches(log, r + 1, queue[1..], top);
        } else {
          ConsumeReaches(log, r, queue[1..], top);
        }
      } else {
        ConsumeReaches(log, r, queue[1..], top);
      }
    }
  }

  /** A segment that starts no later than a receiver's boundary is either the next one or lies
      entirely behind it. */
  lemma FrameAgainstReceiver(log: seq<Segment>, k: nat, r: nat)
    requires Tiled(log) && EndOf(log) <= U64_MAX && k < |log| && r <= |log|
    ensures SegmentEnd(log[k]) == Pos(log, k + 1) == log[k].offset + |log[k].bytes| <= U64_MAX
    ensures log[k].offset == Pos(log, r) <==> k == r
    ensures Pos(log, k + 1) <= Pos(log, r) <==> k < r
    ensures log[k].offset <= Pos(log, r) <==> k <= r
  {
    PosStep(log, k);
    PosMonotone(log, k + 1, |log|);
    if k < r {
      PosMonotone(log, k + 1, r);
    } else {
      PosMonotone(log, r, k);
    }
  }
}
