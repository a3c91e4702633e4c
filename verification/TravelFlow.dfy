/** Travel's flow loop (`run_inner`, `perform_race`, `handle_event`): one function per event. */
module TravelFlow {
  import opened Basics
  import opened Transfer

  datatype TravelError =
    | AckSplit | AckUnsent | AckMovedBackwards | NonContiguousData | InvalidFrameReceived
    | HomeClosed | LimitReached | DrainTimedOut | IoFailed

  datatype TravelStatus = Running | Finished | Failed(error: TravelError)

  datatype RaceState = RaceState(id: Uuid, oldActive: Option<Uuid>, candidates: set<Uuid>)

  /** `opens` holds the Carriers whose OPEN is still unanswered. */
  datatype Travel = Travel(
    flow: Uuid,
    x: Endpoint,
    carriers: set<Uuid>,
    active: Option<Uuid>,
    race: Option<RaceState>,
    opens: set<Uuid>,
    status: TravelStatus)

  datatype Stepped = Stepped(travel: Travel, to: Uuid, frames: seq<Frame>)

  function NewTravel(flow: Uuid, max: nat): Travel {
    Travel(flow, NewEndpoint(max), {}, None, None, {}, Running)
  }

  function SendTo(t: Travel, c: Uuid, frames: seq<Frame>): Stepped {
    Stepped(t, c, if c in t.carriers then frames else [])
  }

  function Quiet(t: Travel): Stepped {
    Stepped(t, 0, [])
  }

  function Fail(t: Travel, error: TravelError): Stepped {
    Quiet(t.(status := Failed(error)))
  }

  // ----- races -----

  function StartRace(t: Travel, race: Uuid): Stepped {
    var racing := t.(race := Some(RaceState(race, t.active, {})));
    if t.active.Some? then SendTo(racing, t.active.value, [Race(t.flow, race, t.x.snd.acked)])
    else Quiet(racing)
  }

  function Open(t: Travel, c: Uuid): Travel {
    t.(opens := t.opens + {c})
  }

  /** A candidate's OPEN was answered: take Home's offset as an acknowledgement, then enter the
      candidate in the race. */
  function OnOpened(t: Travel, c: Uuid, homeReceiveOffset: nat): Stepped
    requires t.race.Some?
  {
    if homeReceiveOffset > t.x.snd.offset then Fail(t, AckUnsent)
    else if homeReceiveOffset < t.x.snd.acked then Fail(t, AckMovedBackwards)
    else if AckSplits(t.x.snd.unacked, homeReceiveOffset) then Fail(t.(x := Popped(t.x, homeReceiveOffset)), AckSplit)
    else
      var race := t.race.value;
      SendTo(t.(x := Acknowledged(t.x, homeReceiveOffset), carriers := t.carriers + {c},
                race := Some(race.(candidates := race.candidates + {c})), opens := t.opens - {c}),
             c, [Race(t.flow, race.id, homeReceiveOffset)])
  }

  function OnRaceWon(t: Travel, winner: Uuid): Stepped {
    var over := t.(race := None, opens := {});
    if winner in t.carriers then
      SendTo(over.(carriers := {winner}, active := Some(winner)), winner, RetransmitFrames(t.flow, t.x.snd))
    else
      Quiet(over.(carriers := {}, active := None))
  }

  function OnRaceLost(t: Travel): Travel
    requires t.race.Some?
  {
    var race := t.race.value;
    var rest := t.carriers - race.candidates;
    var over := t.(race := None, opens := {});
    if race.oldActive.Some? && race.oldActive.value in rest
    then over.(carriers := rest, active := race.oldActive)
    else over.(carriers := {}, active := None)
  }

  // ----- frames -----

  function OnData(t: Travel, c: Uuid, offset: nat, bytes: seq<Byte>): Stepped {
    if offset == t.x.rcv.offset then
      var r := Accept(t.x.rcv, offset, bytes);
      SendTo(t.(x := t.x.(rcv := r)), c, [Ack(t.flow, r.offset)])
    else if SatAdd(offset, |bytes|) <= t.x.rcv.offset then
      SendTo(t, c, [Duplicate(t.flow, t.x.rcv.offset, if t.active.Some? then t.active.value else c)])
    else
      Fail(t, NonContiguousData)
  }

  function OnAck(t: Travel, next: nat): Stepped {
    if AckSplits(t.x.snd.unacked, next) then Fail(t.(x := Popped(t.x, next)), AckSplit)
    else Quiet(t.(x := Acknowledged(t.x, next)))
  }

  function OnFin(t: Travel, c: Uuid, final: nat): Stepped {
    SendTo(t.(x := t.x.(rcv := t.x.rcv.(eof := true))), c, [FinAck(t.flow, final)])
  }

  function OnFinAck(t: Travel): Stepped {
    Quiet(t.(x := t.x.(snd := t.x.snd.(finAcked := true))))
  }

  /** Does this frame decide the race that is running? */
  predicate DecidesRace(t: Travel, f: Frame) {
    t.race.Some? && (f.RaceAck? || f.RaceDuplicate?) && f.flow == t.flow && f.race == t.race.value.id
  }

  function OnFrame(t: Travel, c: Uuid, f: Frame): Stepped {
    if DecidesRace(t, f) then OnRaceWon(t, f.winner)
    else
      var invalid := Fail(t, InvalidFrameReceived);
      match f
      case RaceAck(_, _, _) => Quiet(t)
      case RaceDuplicate(_, _, _) => Quiet(t)
      case Data(flow, offset, bytes) =>
        if flow == t.flow && |bytes| <= MAX_DATA_PAYLOAD then OnData(t, c, offset, bytes) else invalid
      case Ack(flow, next) =>
        if flow == t.flow && InWindow(t.x.snd, next) then OnAck(t, next) else invalid
      case Duplicate(flow, next, _) =>
        if flow == t.flow && InWindow(t.x.snd, next) then OnAck(t, next) else invalid
      case Fin(flow, final) =>
        if flow == t.flow && final == t.x.rcv.offset then OnFin(t, c, final) else invalid
      case FinAck(flow, final) =>
        if flow == t.flow && t.x.snd.eof && final == t.x.snd.offset then OnFinAck(t) else invalid
      case Close(flow, _) =>
        if flow == t.flow then Fail(t, HomeClosed) else invalid
      case _ => invalid
  }

  // ----- other events -----

  function OnCarrierClosed(t: Travel, c: Uuid): Travel {
    var race := if t.race.Some? then Some(t.race.value.(candidates := t.race.value.candidates - {c})) else None;
    t.(carriers := t.carriers - {c}, active := if t.active == Some(c) then None else t.active, race := race)
  }

  /** Both streams are through: success, unless the Carriers do not drain in time. */
  function OnComplete(t: Travel, drained: bool): Travel {
    t.(status := if drained then Finished else Failed(DrainTimedOut))
  }

  function OnLocal(t: Travel): Stepped
    requires t.x.local.queue != []
  {
    var event := t.x.local.queue[0];
    if event.LocalData? && OverLimit(t.x, event.bytes) then Fail(t, LimitReached)
    else
      var after := t.(x := TakeLocal(t.x));
      var frame := if event.LocalData? then Data(t.flow, t.x.snd.offset, event.bytes)
                   else Fin(t.flow, t.x.snd.offset);
      if t.active.Some? then SendTo(after, t.active.value, [frame]) else Quiet(after)
  }
}
