/** Home's flow loop (`run_flow`): one handler per event it selects on. The functions say what
    each event does to the flow and which frames it queues; `Flow` is the loop's mutable state
    and every method of it is proved against the function of the same event. */
module HomeFlow {
  import opened Basics
  import opened Transfer

  const RACE_MEMORY: nat := 32

  datatype HomeError = AckSplit | TravelClosed | LimitReached | DetachExpired | DrainTimedOut | IoFailed

  datatype HomeStatus = Running | Finished | Failed(error: HomeError)

  /** Which Carrier won which race. `selections` records history: the race ids for which a
      RaceAck was decided, in order. */
  datatype Races = Races(winners: map<Uuid, Uuid>, order: seq<Uuid>, selections: seq<Uuid>)

  datatype Home = Home(
    flow: Uuid,
    detachTimeout: nat,
    x: Endpoint,
    carriers: set<Uuid>,
    active: Option<Uuid>,
    races: Races,
    deadline: Option<nat>,
    selectedOnce: bool,
    status: HomeStatus)

  /** A flow after an event, and the frames queued to one Carrier on the way. */
  datatype Stepped = Stepped(home: Home, to: Uuid, frames: seq<Frame>)

  function NewHome(flow: Uuid, detachTimeout: nat, max: nat, now: nat): Home {
    Home(flow, detachTimeout, NewEndpoint(max), {}, None, Races(map[], [], []),
         Some(now + detachTimeout), false, Running)
  }

  /** `send_to`: a frame for a Carrier that is not attached goes nowhere. */
  function SendTo(h: Home, c: Uuid, frames: seq<Frame>): Stepped {
    Stepped(h, c, if c in h.carriers then frames else [])
  }

  function Fail(h: Home, error: HomeError): Stepped {
    Stepped(h.(status := Failed(error)), 0, [])
  }

  function OnCarrier(h: Home, c: Uuid): Stepped {
    if c in h.carriers then Stepped(h, c, [])
    else Stepped(h.(carriers := h.carriers + {c}), c,
                 [OpenOk(h.flow, c, h.x.rcv.offset, h.x.snd.acked)])
  }

  function ForgetOldRaces(winners: map<Uuid, Uuid>, order: seq<Uuid>): (map<Uuid, Uuid>, seq<Uuid>)
    decreases |order|
  {
    if |order| <= RACE_MEMORY then (winners, order)
    else ForgetOldRaces(winners - {order[0]}, order[1..])
  }

  function Remember(r: Races, race: Uuid, c: Uuid): Races {
    var (winners, order) := ForgetOldRaces(r.winners[race := c], r.order + [race]);
    Races(winners, order, r.selections + [race])
  }

  function Select(h: Home, c: Uuid, race: Uuid): Home {
    h.(races := Remember(h.races, race, c), active := Some(c), selectedOnce := true, deadline := None)
  }

  function OnRace(h: Home, c: Uuid, race: Uuid): Stepped {
    if race in h.races.winners then
      SendTo(h, c, [RaceDuplicate(h.flow, race, h.races.winners[race])])
    else
      SendTo(Select(h, c, race), c, [RaceAck(h.flow, race, c)] + RetransmitFrames(h.flow, h.x.snd))
  }

  function OnData(h: Home, c: Uuid, offset: nat, bytes: seq<Byte>): Stepped {
    if offset == h.x.rcv.offset && h.active == Some(c) then
      var r := Accept(h.x.rcv, offset, bytes);
      SendTo(h.(x := h.x.(rcv := r)), c, [Ack(h.flow, r.offset)])
    else if SatAdd(offset, |bytes|) <= h.x.rcv.offset then
      SendTo(h, c, [Duplicate(h.flow, h.x.rcv.offset, if h.active.Some? then h.active.value else c)])
    else
      SendTo(h, c, [Close(h.flow, NonContiguous)])
  }

  function OnAck(h: Home, next: nat): Stepped {
    if AckSplits(h.x.snd.unacked, next) then Fail(h.(x := Popped(h.x, next)), AckSplit)
    else Stepped(h.(x := Acknowledged(h.x, next)), 0, [])
  }

  function OnFin(h: Home, c: Uuid, final: nat): Stepped {
    SendTo(h.(x := h.x.(rcv := h.x.rcv.(eof := true))), c, [FinAck(h.flow, final)])
  }

  function OnFinAck(h: Home): Stepped {
    Stepped(h.(x := h.x.(snd := h.x.snd.(finAcked := true))), 0, [])
  }

  function OnFrame(h: Home, c: Uuid, f: Frame): Stepped {
    var invalid := SendTo(h, c, [Close(h.flow, InvalidFrame)]);
    match f
    case Race(flow, race, next) =>
      if flow == h.flow && next <= h.x.rcv.offset then OnRace(h, c, race) else invalid
    case Data(flow, offset, bytes) =>
      if flow == h.flow && |bytes| <= MAX_DATA_PAYLOAD then OnData(h, c, offset, bytes) else invalid
    case Ack(flow, next) =>
      if flow == h.flow && InWindow(h.x.snd, next) then OnAck(h, next) else invalid
    case Duplicate(flow, next, _) =>
      if flow == h.flow && InWindow(h.x.snd, next) then OnAck(h, next) else invalid
    case Fin(flow, final) =>
      if flow == h.flow && final == h.x.rcv.offset then OnFin(h, c, final) else invalid
    case FinAck(flow, final) =>
      if flow == h.flow && h.x.snd.eof && final == h.x.snd.offset then OnFinAck(h) else invalid
    case Close(flow, _) =>
      if flow == h.flow then Fail(h, TravelClosed) else invalid
    case _ => invalid
  }

  function OnCarrierClosed(h: Home, c: Uuid, now: nat): Stepped {
    var detached := h.(carriers := h.carriers - {c});
    Stepped(if h.active == Some(c)
            then detached.(active := None, deadline := Some(now + h.detachTimeout))
            else detached, 0, [])
  }

  /** The oldest event of the target reader. */
  function OnTarget(h: Home): Stepped
    requires h.x.local.queue != []
  {
    var event := h.x.local.queue[0];
    if event.LocalData? && OverLimit(h.x, event.bytes) then Fail(h, LimitReached)
    else
      var after := h.(x := TakeLocal(h.x));
      var frame := if event.LocalData? then Data(h.flow, h.x.snd.offset, event.bytes)
                   else Fin(h.flow, h.x.snd.offset);
      if h.active.Some? then SendTo(after, h.active.value, [frame]) else Stepped(after, 0, [])
  }

  /** Both streams are through: success, unless the Carriers do not drain in time. */
  function OnComplete(h: Home, drained: bool): Home {
    h.(status := if drained then Finished else Failed(DrainTimedOut))
  }

  // ----- race memory and attachment, for any sequence of frames -----

  ghost predicate Distinct(s: seq<Uuid>) {
    forall i, j | 0 <= i < j < |s| :: s[i] != s[j]
  }

  /** The remembered races are exactly the last (at most 32) selections, without repeats. */
  ghost predicate RaceMemoryOk(r: Races) {
    && |r.order| <= RACE_MEMORY
    && |r.order| <= |r.selections|
    && (|r.order| < RACE_MEMORY ==> |r.order| == |r.selections|)
    && r.order == r.selections[|r.selections| - |r.order|..]
    && Distinct(r.order)
    && SameMembers(r.winners, r.order)
    && SelectionsApart(r.selections)
  }

  ghost predicate SameMembers(winners: map<Uuid, Uuid>, order: seq<Uuid>) {
    forall r :: r in winners <==> r in order
  }

  /** Two selections for one race id have at least 32 other selections between them. */
  ghost predicate SelectionsApart(s: seq<Uuid>) {
    forall i, j | 0 <= i < j < |s| && s[i] == s[j] :: j - i > RACE_MEMORY
  }

  /** Either an attached active Carrier, or a running detach deadline; never both or neither. */
  ghost predicate AttachmentOk(h: Home) {
    && (h.active.Some? <==> h.deadline.None?)
    && (h.active.Some? ==> h.active.value in h.carriers)
  }

  /** The memory after a selection, before old races are forgotten. */
  lemma ForgetOnce(winners: map<Uuid, Uuid>, order: seq<Uuid>)
    requires |order| <= RACE_MEMORY + 1
    ensures ForgetOldRaces(winners, order) ==
            if |order| <= RACE_MEMORY then (winners, order) else (winners - {order[0]}, order[1..])
  {
  }

  lemma ApartAppend(s: seq<Uuid>, recent: nat, race: Uuid)
    requires SelectionsApart(s) && recent <= |s| && race !in s[|s| - recent..]
    requires recent < RACE_MEMORY ==> recent == |s|
    ensures SelectionsApart(s + [race])
  {
    forall i | |s| - recent <= i < |s| ensures s[i] != race {
      assert s[i] == s[|s| - recent..][i - (|s| - recent)];
    }
  }

  lemma DropOldest(winners: map<Uuid, Uuid>, order: seq<Uuid>)
    requires SameMembers(winners, order) && Distinct(order) && order != []
    ensures SameMembers(winners - {order[0]}, order[1..]) && Distinct(order[1..])
  {
    assert order == [order[0]] + order[1..];
  }

  lemma RememberKeeps(r: Races, race: Uuid, c: Uuid)
    requires RaceMemoryOk(r) && race !in r.winners
    ensures RaceMemoryOk(Remember(r, race, c))
  {
    var order := r.order + [race];
    var winners := r.winners[race := c];
    ForgetOnce(winners, order);
    ApartAppend(r.selections, |r.order|, race);
    assert SameMembers(winners, order) && Distinct(order);
    DropOldest(winners, order);
    LastAppend(r.selections, |r.order|, race);
  }

  lemma LastAppend(s: seq<Uuid>, n: nat, race: Uuid)
    requires n <= |s|
    ensures var t := s + [race];
            s[|s| - n..] + [race] == t[|t| - (n + 1)..] && (s[|s| - n..] + [race])[1..] == t[|t| - n..]
  {
  }

  /** Every frame keeps the race memory bounded and exact, whoever sends it and whatever it is;
      no other event touches it. */
  lemma FramesKeepRaces(h: Home, c: Uuid, f: Frame)
    requires RaceMemoryOk(h.races)
    ensures RaceMemoryOk(OnFrame(h, c, f).home.races)
  {
    if f.Race? && f.race !in h.races.winners {
      RememberKeeps(h.races, f.race, c);
    }
  }

  /** Every event keeps the attachment rule, as long as frames arrive from attached Carriers. */
  lemma EventsKeepAttachment(h: Home, c: Uuid, f: Frame, now: nat)
    requires AttachmentOk(h)
    ensures AttachmentOk(OnCarrier(h, c).home) && AttachmentOk(OnCarrierClosed(h, c, now).home)
    ensures c in h.carriers ==> AttachmentOk(OnFrame(h, c, f).home)
    ensures h.x.local.queue != [] ==> AttachmentOk(OnTarget(h).home)
  {
  }

  lemma JoinFrames(before: seq<Frame>, f: Frame, after: seq<Frame>)
    ensures before + [f] + after == before + ([f] + after)
  {
  }

  // ----- the loop's state -----

  class Flow {
    const flow: Uuid
    const detachTimeout: nat
    var x: Endpoint
    var carriers: set<Uuid>
    var active: Option<Uuid>
    var raceWinners: map<Uuid, Uuid>
    var raceOrder: seq<Uuid>
    var selections: seq<Uuid>
    var detachedDeadline: Option<nat>
    var selectedOnce: bool
    var status: HomeStatus
    // The frames the current event queued, and to which Carrier.
    var outTo: Uuid
    var out: seq<Frame>

    function Model(): Home
      reads this
    {
      Home(flow, detachTimeout, x, carriers, active, Races(raceWinners, raceOrder, selections),
           detachedDeadline, selectedOnce, status)
    }

    function Outcome(): Stepped
      reads this
    {
      Stepped(Model(), outTo, out)
    }

    constructor (flow: Uuid, detachTimeout: nat, max: nat, now: nat)
      ensures Model() == NewHome(flow, detachTimeout, max, now) && out == []
    {
      this.flow, this.detachTimeout, x := flow, detachTimeout, NewEndpoint(max);
      carriers, active, raceWinners, raceOrder := {}, None, map[], [];
      detachedDeadline, selectedOnce, status := Some(now + detachTimeout), false, Running;
      selections, outTo, out := [], 0, [];
    }

    method Send(c: Uuid, frame: Frame)
      modifies this`out
      ensures out == old(out) + if c in carriers then [frame] else []
    {
      if c in carriers {
        out := out + [frame];
      }
    }

    method Attach(c: Uuid)
      modifies this`carriers, this`out, this`outTo
      ensures Outcome() == OnCarrier(old(Model()), c)
    {
      outTo, out := c, [];
      if c !in carriers {
        out := [OpenOk(flow, c, x.rcv.offset, x.snd.acked)];
        carriers := carriers + {c};
      }
    }

    /** Remembers the winner of a new race, and forgets the oldest races beyond the limit. */
    method RememberRace(race: Uuid, c: Uuid)
      modifies this`raceWinners, this`raceOrder, this`selections
      ensures Races(raceWinners, raceOrder, selections)
           == Remember(Races(old(raceWinners), old(raceOrder), old(selections)), race, c)
    {
      raceWinners := raceWinners[race := c];
      raceOrder := raceOrder + [race];
      while |raceOrder| > RACE_MEMORY
        invariant selections == old(selections)
        invariant ForgetOldRaces(raceWinners, raceOrder)
               == ForgetOldRaces(old(raceWinners)[race := c], old(raceOrder) + [race])
        decreases |raceOrder|
      {
        raceWinners := raceWinners - {raceOrder[0]};
        raceOrder := raceOrder[1..];
      }
      selections := selections + [race];
    }

    /** The frames for the winner of a new race: the RaceAck, then the whole window. */
    method SendSelection(c: Uuid, race: Uuid)
      modifies this`out
      ensures out == if c in carriers then old(out) + ([RaceAck(flow, race, c)] + RetransmitFrames(flow, x.snd))
                     else old(out)
    {
      var resent := Retransmit(flow, x.snd.unacked, x.snd.eof, x.snd.offset);
      assert resent == RetransmitFrames(flow, x.snd);
      Send(c, RaceAck(flow, race, c));
      if c in carriers {
        JoinFrames(old(out), RaceAck(flow, race, c), resent);
        out := out + resent;
      }
    }

    method HandleRace(c: Uuid, race: Uuid)
      modifies this`raceWinners, this`raceOrder, this`selections, this`active, this`selectedOnce
      modifies this`detachedDeadline, this`outTo, this`out
      ensures Outcome() == OnRace(old(Model()), c, race)
    {
      outTo, out := c, [];
      if race in raceWinners {
        Send(c, RaceDuplicate(flow, race, raceWinners[race]));
        return;
      }
      RememberRace(race, c);
      active, selectedOnce, detachedDeadline := Some(c), true, None;
      SendSelection(c, race);
    }

    method HandleData(c: Uuid, offset: nat, bytes: seq<Byte>)
      modifies this`x, this`outTo, this`out
      ensures Outcome() == OnData(old(Model()), c, offset, bytes)
    {
      outTo, out := c, [];
      var end := SatAdd(offset, |bytes|);
      if offset == x.rcv.offset && active == Some(c) {
        x := x.(rcv := Receiver(end, x.rcv.eof, x.rcv.written + bytes, x.rcv.accepted + 1));
        Send(c, Ack(flow, x.rcv.offset));
      } else if end <= x.rcv.offset {
        Send(c, Duplicate(flow, x.rcv.offset, if active.Some? then active.value else c));
      } else {
        Send(c, Close(flow, NonContiguous));
      }
    }

    method HandleAck(next: nat)
      modifies this`x, this`status, this`outTo, this`out
      ensures Outcome() == OnAck(old(Model()), next)
    {
      outTo, out := 0, [];
      var rest, left, released, split := Acknowledge(x.snd.unacked, x.snd.unackedBytes, next);
      x := x.(snd := x.snd.(unacked := rest, unackedBytes := left), local := x.local.(free := x.local.free + released));
      if split {
        status := Failed(AckSplit);
      } else {
        x := x.(snd := x.snd.(acked := next));
      }
    }

    method HandleFin(c: Uuid, final: nat)
      modifies this`x, this`outTo, this`out
      ensures Outcome() == OnFin(old(Model()), c, final)
    {
      outTo, out := c, [];
      if !x.rcv.eof {
        x := x.(rcv := x.rcv.(eof := true));
      }
      Send(c, FinAck(flow, final));
    }

    method Invalid(c: Uuid)
      modifies this`outTo, this`out
      ensures Outcome() == SendTo(old(Model()), c, [Close(flow, InvalidFrame)])
    {
      outTo, out := c, [];
      Send(c, Close(flow, InvalidFrame));
    }

    method HandleFrame(c: Uuid, f: Frame)
      modifies this
      ensures Outcome() == OnFrame(old(Model()), c, f)
    {
      match f
      case Race(id, race, next) =>
        if id == flow && next <= x.rcv.offset { HandleRace(c, race); } else { Invalid(c); }
      case Data(id, offset, bytes) =>
        if id == flow && |bytes| <= MAX_DATA_PAYLOAD { HandleData(c, offset, bytes); } else { Invalid(c); }
      case Ack(id, next) =>
        if id == flow && x.snd.acked <= next <= x.snd.offset { HandleAck(next); } else { Invalid(c); }
      case Duplicate(id, next, _) =>
        if id == flow && x.snd.acked <= next <= x.snd.offset { HandleAck(next); } else { Invalid(c); }
      case Fin(id, final) =>
        if id == flow && final == x.rcv.offset { HandleFin(c, final); } else { Invalid(c); }
      case FinAck(id, final) =>
        if id == flow && x.snd.eof && final == x.snd.offset {
          x := x.(snd := x.snd.(finAcked := true));
          outTo, out := 0, [];
        } else {
          Invalid(c);
        }
      case Close(id, _) =>
        if id == flow {
          status := Failed(TravelClosed);
          outTo, out := 0, [];
        } else {
          Invalid(c);
        }
      case OpenOk(_, _, _, _) => Invalid(c);
      case RaceAck(_, _, _) => Invalid(c);
      case RaceDuplicate(_, _, _) => Invalid(c);
      case OtherFrame => Invalid(c);
    }

    method CarrierClosed(c: Uuid, now: nat)
      modifies this`carriers, this`active, this`detachedDeadline, this`outTo, this`out
      ensures Outcome() == OnCarrierClosed(old(Model()), c, now)
    {
      outTo, out := 0, [];
      carriers := carriers - {c};
      if active == Some(c) {
        active := None;
        detachedDeadline := Some(now + detachTimeout);
      }
    }

    method TargetData(bytes: seq<Byte>)
      requires x.local.queue != [] && x.local.queue[0] == LocalData(bytes)
      modifies this`x, this`status, this`outTo, this`out
      ensures Outcome() == OnTarget(old(Model()))
    {
      outTo, out := 0, [];
      if x.snd.unackedBytes + |bytes| > x.local.max {
        status := Failed(LimitReached);
        return;
      }
      var s := x.snd;
      var segment := Segment(s.offset, bytes);
      s := s.(offset := SatAdd(s.offset, |segment.bytes|), unackedBytes := s.unackedBytes + |segment.bytes|);
      if active.Some? {
        outTo := active.value;
        Send(active.value, Data(flow, segment.offset, segment.bytes));
      }
      s := s.(unacked := s.unacked + [segment], log := s.log + [segment]);
      x := x.(local := x.local.(queue := x.local.queue[1..]), snd := s);
    }

    method TargetEof()
      requires x.local.queue != [] && x.local.queue[0] == LocalEof
      modifies this`x, this`outTo, this`out
      ensures Outcome() == OnTarget(old(Model()))
    {
      outTo, out := 0, [];
      x := x.(local := x.local.(queue := x.local.queue[1..]), snd := x.snd.(eof := true));
      if active.Some? {
        outTo := active.value;
        Send(active.value, Fin(flow, x.snd.offset));
      }
    }

    /** The test at the head of the loop. A complete flow then waits for its Carriers to drain what
        is queued on them; `drained` tells whether they did so in time. */
    method CheckComplete(drained: bool) returns (done: bool)
      modifies this`status
      ensures done == Complete(x)
      ensures Model() == if done then OnComplete(old(Model()), drained) else old(Model())
    {
      done := x.rcv.eof && x.snd.eof && x.snd.finAcked && x.snd.unacked == [];
      if done {
        status := if drained then Finished else Failed(DrainTimedOut);
      }
    }
  }
}
