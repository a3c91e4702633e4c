/** The half of a TCP flow that both ends share: the send window with its byte credit,
    the receive position, and the frames that travel over a Carrier.

    Home keeps these values in the locals of its flow loop, Travel in `TransferState`. */
module Transfer {
  import opened Basics

  type Byte = bv8

  const MAX_DATA_PAYLOAD: nat := 65536

  datatype CloseReason = NonContiguous | InvalidFrame

  datatype Frame =
    | OpenOk(flow: Uuid, carrier: Uuid, receiveOffset: nat, sendOffset: nat)
    | Race(flow: Uuid, race: Uuid, next: nat)
    | RaceAck(flow: Uuid, race: Uuid, winner: Uuid)
    | RaceDuplicate(flow: Uuid, race: Uuid, winner: Uuid)
    | Data(flow: Uuid, offset: nat, bytes: seq<Byte>)
    | Ack(flow: Uuid, next: nat)
    | Duplicate(flow: Uuid, next: nat, winner: Uuid)
    | Fin(flow: Uuid, final: nat)
    | FinAck(flow: Uuid, final: nat)
    | Close(flow: Uuid, reason: CloseReason)
    | OtherFrame

  datatype Segment = Segment(offset: nat, bytes: seq<Byte>)

  datatype LocalEvent = LocalData(bytes: seq<Byte>) | LocalEof

  /** Where the task that reads the local socket stands. */
  datatype Reader =
    | Reading
    | AwaitingCredit(bytes: seq<Byte>)
    | AwaitingQueue(bytes: seq<Byte>)
    | Stopped

  /** The sending half. `log` records history: every segment ever cut. */
  datatype Sender = Sender(
    offset: nat,
    acked: nat,
    unacked: seq<Segment>,
    unackedBytes: nat,
    eof: bool,
    finAcked: bool,
    log: seq<Segment>)

  /** The receiving half. `written` and `accepted` record history: the bytes handed to the local
      socket and how many Data frames they came in. */
  datatype Receiver = Receiver(
    offset: nat,
    eof: bool,
    written: seq<Byte>,
    accepted: nat)

  /** The local reader, its queue of events, and the byte credit it draws on. `read` records
      history: the local stream so far. */
  datatype Local = Local(max: nat, free: nat, reader: Reader, queue: seq<LocalEvent>, read: seq<Byte>)

  /** One end of a flow. */
  datatype Endpoint = Endpoint(snd: Sender, rcv: Receiver, local: Local)

  function NewEndpoint(max: nat): Endpoint {
    Endpoint(Sender(0, 0, [], 0, false, false, []), Receiver(0, false, [], 0), Local(max, max, Reading, [], []))
  }

  function SatAdd(a: nat, b: nat): nat {
    if a + b <= U64_MAX then a + b else U64_MAX
  }

  function SatSub(a: nat, b: nat): nat {
    if b <= a then a - b else 0
  }

  function Max(a: nat, b: nat): nat {
    if a < b then b else a
  }

  // ----- what a sequence of segments means -----

  function Flat(segments: seq<Segment>): seq<Byte> {
    if segments == [] then [] else segments[0].bytes + Flat(segments[1..])
  }

  function EndOf(log: seq<Segment>): nat {
    if log == [] then 0 else log[|log| - 1].offset + |log[|log| - 1].bytes|
  }

  /** The stream offset at which segment `k` of a log starts. */
  function Pos(log: seq<Segment>, k: nat): nat
    requires k <= |log|
  {
    if k < |log| then log[k].offset else EndOf(log)
  }

  ghost predicate LinkedAt(log: seq<Segment>, k: nat)
    requires k < |log|
  {
    0 < |log[k].bytes| <= MAX_DATA_PAYLOAD && log[k].offset + |log[k].bytes| == Pos(log, k + 1)
  }

  /** The log starts at offset zero, and every segment is non-empty, fits a frame, and ends
      where its successor starts. */
  ghost predicate Tiled(log: seq<Segment>) {
    Pos(log, 0) == 0 && forall k | 0 <= k < |log| :: LinkedAt(log, k)
  }

  /** How many segments of the log have been acknowledged. */
  function AckedCount(s: Sender): nat {
    if |s.unacked| <= |s.log| then |s.log| - |s.unacked| else 0
  }

  /** The unacknowledged segments tile [acked, offset) and are counted exactly. */
  ghost predicate WindowOk(s: Sender) {
    && Tiled(s.log)
    && s.offset == EndOf(s.log) <= U64_MAX
    && |s.unacked| <= |s.log|
    && s.unacked == s.log[AckedCount(s)..]
    && s.acked == Pos(s.log, AckedCount(s))
    && s.unackedBytes == |Flat(s.unacked)|
  }

  // ----- byte credit -----

  function Held(r: Reader): nat {
    if r.AwaitingQueue? then |r.bytes| else 0
  }

  function Queued(q: seq<LocalEvent>): nat {
    if q == [] then 0 else (if q[0].LocalData? then |q[0].bytes| else 0) + Queued(q[1..])
  }

  /** The bytes read and not yet cut into a segment, oldest first. */
  function Pending(q: seq<LocalEvent>, r: Reader): seq<Byte> {
    if q != [] then (if q[0].LocalData? then q[0].bytes else []) + Pending(q[1..], r)
    else if r.AwaitingCredit? || r.AwaitingQueue? then r.bytes
    else []
  }

  /** The segments cut so far, followed by what is pending, are the local stream so far. */
  ghost predicate StreamKept(x: Endpoint) {
    x.local.read == Flat(x.snd.log) + Pending(x.local.queue, x.local.reader)
  }

  /** Every byte of credit is free, held by the reader, in a queued event, or in a segment. */
  ghost predicate CreditConserved(l: Local, unacked: seq<Segment>) {
    l.free + Held(l.reader) + Queued(l.queue) + |Flat(unacked)| == l.max
  }

  ghost predicate PayloadOk(bytes: seq<Byte>) {
    0 < |bytes| <= MAX_DATA_PAYLOAD
  }

  /** Payloads fit a frame; end of file is the last thing the reader reports. */
  ghost predicate ReaderOk(l: Local) {
    && (l.reader.AwaitingCredit? || l.reader.AwaitingQueue? ==> PayloadOk(l.reader.bytes))
    && (forall i | 0 <= i < |l.queue| :: l.queue[i].LocalData? ==> PayloadOk(l.queue[i].bytes))
    && (forall i | 0 <= i < |l.queue| :: l.queue[i].LocalEof? ==> i == |l.queue| - 1 && l.reader.Stopped?)
  }

  // ----- the local reader -----

  datatype ReaderStep = Read(bytes: seq<Byte>) | TakeCredit | Enqueue | ReadEof

  predicate ReaderCan(l: Local, step: ReaderStep) {
    match step
    case Read(bytes) => l.reader.Reading? && 0 < |bytes| <= MAX_DATA_PAYLOAD
    case TakeCredit => l.reader.AwaitingCredit? && |l.reader.bytes| <= l.free
    case Enqueue => l.reader.AwaitingQueue?
    case ReadEof => l.reader.Reading?
  }

  function ReaderDoes(l: Local, step: ReaderStep): Local
    requires ReaderCan(l, step)
  {
    match step
    case Read(bytes) => l.(reader := AwaitingCredit(bytes), read := l.read + bytes)
    case TakeCredit => l.(free := l.free - |l.reader.bytes|, reader := AwaitingQueue(l.reader.bytes))
    case Enqueue => l.(queue := l.queue + [LocalData(l.reader.bytes)], reader := Reading)
    case ReadEof => l.(queue := l.queue + [LocalEof], reader := Stopped)
  }

  // ----- the send window -----

  predicate OverLimit(x: Endpoint, bytes: seq<Byte>) {
    x.snd.unackedBytes + |bytes| > x.local.max
  }

  function Cut(s: Sender, bytes: seq<Byte>): Sender {
    var segment := Segment(s.offset, bytes);
    s.(offset := SatAdd(s.offset, |bytes|), unackedBytes := s.unackedBytes + |bytes|,
       unacked := s.unacked + [segment], log := s.log + [segment])
  }

  /** Takes the oldest local event into the window. */
  function TakeLocal(x: Endpoint): Endpoint
    requires x.local.queue != []
  {
    var event := x.local.queue[0];
    x.(local := x.local.(queue := x.local.queue[1..]),
       snd := if event.LocalData? then Cut(x.snd, event.bytes) else x.snd.(eof := true))
  }

  function SegmentEnd(s: Segment): nat {
    SatAdd(s.offset, |s.bytes|)
  }

  /** The segments left once every leading one that ends by `next` is gone. */
  function DropAcked(unacked: seq<Segment>, next: nat): seq<Segment> {
    if unacked == [] || SegmentEnd(unacked[0]) > next then unacked
    else DropAcked(unacked[1..], next)
  }

  function BytesAfter(unacked: seq<Segment>, bytes: nat, next: nat): nat {
    if unacked == [] || SegmentEnd(unacked[0]) > next then bytes
    else BytesAfter(unacked[1..], SatSub(bytes, |unacked[0].bytes|), next)
  }

  function AckSplits(unacked: seq<Segment>, next: nat): bool {
    var rest := DropAcked(unacked, next);
    rest != [] && rest[0].offset < next
  }

  function AckedSender(s: Sender, next: nat): Sender {
    s.(unacked := DropAcked(s.unacked, next),
       unackedBytes := BytesAfter(s.unacked, s.unackedBytes, next),
       acked := next)
  }

  /** The credit that the segments covered by an ACK give back. */
  function Released(unacked: seq<Segment>, next: nat): nat {
    if unacked == [] || SegmentEnd(unacked[0]) > next then 0
    else |unacked[0].bytes| + Released(unacked[1..], next)
  }

  /** The endpoint once an acknowledgement has popped the segments it covers. */
  function Popped(x: Endpoint, next: nat): Endpoint {
    x.(snd := x.snd.(unacked := DropAcked(x.snd.unacked, next),
                     unackedBytes := BytesAfter(x.snd.unacked, x.snd.unackedBytes, next)),
       local := x.local.(free := x.local.free + Released(x.snd.unacked, next)))
  }

  /** The endpoint after an acknowledgement that splits no segment. */
  function Acknowledged(x: Endpoint, next: nat): Endpoint {
    x.(snd := AckedSender(x.snd, next),
       local := x.local.(free := x.local.free + Released(x.snd.unacked, next)))
  }

  /** `acknowledge`: pops covered segments, then reports whether the ACK split the next one. */
  method Acknowledge(unacked: seq<Segment>, unackedBytes: nat, next: nat)
    returns (rest: seq<Segment>, left: nat, released: nat, split: bool)
    ensures rest == DropAcked(unacked, next)
    ensures released == Released(unacked, next)
    ensures left == BytesAfter(unacked, unackedBytes, next)
    ensures split == AckSplits(unacked, next)
  {
    rest, left, released := unacked, unackedBytes, 0;
    while rest != [] && SegmentEnd(rest[0]) <= next
      invariant DropAcked(rest, next) == DropAcked(unacked, next)
      invariant released + Released(rest, next) == Released(unacked, next)
      invariant BytesAfter(rest, left, next) == BytesAfter(unacked, unackedBytes, next)
    {
      left, released := SatSub(left, |rest[0].bytes|), released + |rest[0].bytes|;
      rest := rest[1..];
    }
    split := rest != [] && rest[0].offset < next;
  }

  /** Does an ACK or duplicate notice fall inside the window? */
  predicate InWindow(s: Sender, next: nat) {
    s.acked <= next <= s.offset
  }

  /** The condition under which either end's loop returns success. */
  predicate Complete(x: Endpoint) {
    x.rcv.eof && x.snd.eof && x.snd.finAcked && x.snd.unacked == []
  }

  // ----- retransmission -----

  function DataFrames(flow: Uuid, segments: seq<Segment>): (frames: seq<Frame>)
    ensures |frames| == |segments|
    ensures forall i | 0 <= i < |frames| :: frames[i] == Data(flow, segments[i].offset, segments[i].bytes)
  {
    if segments == [] then []
    else [Data(flow, segments[0].offset, segments[0].bytes)] + DataFrames(flow, segments[1..])
  }

  /** Everything a newly selected Carrier is given: the whole window, then FIN if the local
      stream has ended. */
  function RetransmitFrames(flow: Uuid, s: Sender): seq<Frame> {
    DataFrames(flow, s.unacked) + if s.eof then [Fin(flow, s.offset)] else []
  }

  method Retransmit(flow: Uuid, unacked: seq<Segment>, localEof: bool, sendOffset: nat)
    returns (frames: seq<Frame>)
    ensures frames == DataFrames(flow, unacked) + if localEof then [Fin(flow, sendOffset)] else []
  {
    frames := [];
    for i := 0 to |unacked|
      invariant frames == DataFrames(flow, unacked)[..i]
    {
      frames := frames + [Data(flow, unacked[i].offset, unacked[i].bytes)];
    }
    assert frames == DataFrames(flow, unacked);
    if localEof {
      frames := frames + [Fin(flow, sendOffset)];
    }
  }

  // ----- receiving -----

  function Accept(r: Receiver, offset: nat, bytes: seq<Byte>): Receiver {
    r.(written := r.written + bytes, offset := SatAdd(offset, |bytes|), accepted := r.accepted + 1)
  }

  /** What a receiver at `at` does with the Data frames of a queue taken in order: it accepts a
      frame that starts at its offset, answers one that ends by it as a duplicate, and has no
      answer (None) for any other. Other frames leave it where it is. */
  function Consume(at: nat, queue: seq<Frame>): Option<nat>
    decreases |queue|
  {
    if queue == [] then Some(at)
    else if !queue[0].Data? then Consume(at, queue[1..])
    else
      var end := SatAdd(queue[0].offset, |queue[0].bytes|);
      if queue[0].offset == at then Consume(end, queue[1..])
      else if end <= at then Consume(at, queue[1..])
      else None
  }
}
