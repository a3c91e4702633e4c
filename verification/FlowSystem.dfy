/** One TCP flow end to end: Home, Travel, and the Carriers between them. A Carrier delivers
    frames in order in each direction; either direction may be cut at any moment, losing what is
    in flight, after which its reader sees the Carrier close. */
module FlowSystem {
  import opened Basics
  import opened Transfer
  import H = HomeFlow
  import T = TravelFlow

  datatype Link = Link(up: seq<Frame>, down: seq<Frame>, upCut: bool, downCut: bool)

  /** `arriving` holds the Carriers that Travel opened and Home has not taken up yet. */
  datatype System = System(home: H.Home, travel: T.Travel, links: map<Uuid, Link>, arriving: set<Uuid>)

  datatype Action =
    | TravelStartsRace(race: Uuid)
    | TravelOpens(carrier: Uuid)
    | HomeAttaches(carrier: Uuid)
    | TravelOpened(carrier: Uuid)
    | TravelLosesRace
    | HomeReceives(carrier: Uuid)
    | TravelReceives(carrier: Uuid)
    | UpIsCut(carrier: Uuid, kept: nat)
    | DownIsCut(carrier: Uuid, kept: nat)
    | HomeSeesClose(carrier: Uuid, now: nat)
    | TravelSeesClose(carrier: Uuid)
    | HomeReads(step: ReaderStep)
    | TravelReads(step: ReaderStep)
    | HomeTakesLocal
    | TravelTakesLocal
    | HomeDetachExpires(now: nat)
    | HomeIoFails
    | TravelIoFails
    | HomeFinishes(drained: bool)
    | TravelFinishes(drained: bool)

  function Initial(flow: Uuid, detachTimeout: nat, homeMax: nat, travelMax: nat, now: nat): System {
    System(H.NewHome(flow, detachTimeout, homeMax, now), T.NewTravel(flow, travelMax), map[], {})
  }

  function PushUp(links: map<Uuid, Link>, c: Uuid, frames: seq<Frame>): map<Uuid, Link> {
    if frames == [] || c !in links || links[c].upCut then links
    else links[c := links[c].(up := links[c].up + frames)]
  }

  function PushDown(links: map<Uuid, Link>, c: Uuid, frames: seq<Frame>): map<Uuid, Link> {
    if frames == [] || c !in links || links[c].downCut then links
    else links[c := links[c].(down := links[c].down + frames)]
  }

  /** Both streams stay shorter than 2^64 bytes. */
  predicate Fits(x: Endpoint) {
    x.local.queue != [] &&
    (x.local.queue[0].LocalData? ==> x.snd.offset + |x.local.queue[0].bytes| <= U64_MAX)
  }

  predicate Enabled(s: System, a: Action) {
    match a
    case TravelStartsRace(_) => s.travel.status.Running? && s.travel.race.None?
    case TravelOpens(c) => s.travel.status.Running? && s.travel.race.Some? && c !in s.links
    case HomeAttaches(c) => s.home.status.Running? && c in s.arriving
    case TravelOpened(c) =>
      && s.travel.status.Running? && s.travel.race.Some? && c in s.travel.opens
      && c in s.links && s.links[c].down != [] && s.links[c].down[0].OpenOk?
    case TravelLosesRace => s.travel.status.Running? && s.travel.race.Some?
    case HomeReceives(c) => s.home.status.Running? && c in s.links && s.links[c].up != []
    case TravelReceives(c) =>
      s.travel.status.Running? && c in s.links && s.links[c].down != [] && !s.links[c].down[0].OpenOk?
    case UpIsCut(c, kept) => c in s.links && kept <= |s.links[c].up|
    case DownIsCut(c, kept) => c in s.links && kept <= |s.links[c].down|
    case HomeSeesClose(c, _) =>
      s.home.status.Running? && c in s.home.carriers && c in s.links && s.links[c].upCut && s.links[c].up == []
    case TravelSeesClose(c) =>
      s.travel.status.Running? && c in s.links && s.links[c].downCut && s.links[c].down == []
    case HomeReads(step) => s.home.status.Running? && ReaderCan(s.home.x.local, step)
    case TravelReads(step) => s.travel.status.Running? && ReaderCan(s.travel.x.local, step)
    case HomeTakesLocal => s.home.status.Running? && Fits(s.home.x)
    case TravelTakesLocal => s.travel.status.Running? && Fits(s.travel.x)
    case HomeDetachExpires(now) =>
      s.home.status.Running? && s.home.deadline.Some? && s.home.deadline.value <= now
    case HomeIoFails => s.home.status.Running?
    case TravelIoFails => s.travel.status.Running?
    case HomeFinishes(_) => s.home.status.Running? && Complete(s.home.x)
    case TravelFinishes(_) => s.travel.status.Running? && s.travel.race.None? && Complete(s.travel.x)
  }

  function HomeDid(s: System, links: map<Uuid, Link>, did: H.Stepped): System {
    s.(home := did.home, links := PushDown(links, did.to, did.frames))
  }

  function TravelDid(s: System, links: map<Uuid, Link>, did: T.Stepped): System {
    s.(travel := did.travel, links := PushUp(links, did.to, did.frames))
  }

  function PopUp(links: map<Uuid, Link>, c: Uuid): map<Uuid, Link>
    requires c in links && links[c].up != []
  {
    links[c := links[c].(up := links[c].up[1..])]
  }

  function PopDown(links: map<Uuid, Link>, c: Uuid): map<Uuid, Link>
    requires c in links && links[c].down != []
  {
    links[c := links[c].(down := links[c].down[1..])]
  }

  function Apply(s: System, a: Action): System
    requires Enabled(s, a)
  {
    match a
    case TravelStartsRace(race) => TravelDid(s, s.links, T.StartRace(s.travel, race))
    case TravelOpens(c) =>
      s.(travel := T.Open(s.travel, c), links := s.links[c := Link([], [], false, false)],
         arriving := s.arriving + {c})
    case HomeAttaches(c) =>
      HomeDid(s, s.links, H.OnCarrier(s.home, c)).(arriving := s.arriving - {c})
    case TravelOpened(c) =>
      TravelDid(s, PopDown(s.links, c), T.OnOpened(s.travel, c, s.links[c].down[0].receiveOffset))
    case TravelLosesRace => s.(travel := T.OnRaceLost(s.travel))
    case HomeReceives(c) => HomeDid(s, PopUp(s.links, c), H.OnFrame(s.home, c, s.links[c].up[0]))
    case TravelReceives(c) => TravelDid(s, PopDown(s.links, c), T.OnFrame(s.travel, c, s.links[c].down[0]))
    case UpIsCut(c, kept) =>
      s.(links := s.links[c := s.links[c].(up := s.links[c].up[..kept], upCut := true)])
    case DownIsCut(c, kept) =>
      s.(links := s.links[c := s.links[c].(down := s.links[c].down[..kept], downCut := true)])
    case HomeSeesClose(c, now) => HomeDid(s, s.links, H.OnCarrierClosed(s.home, c, now))
    case TravelSeesClose(c) => s.(travel := T.OnCarrierClosed(s.travel, c))
    case HomeReads(step) =>
      s.(home := s.home.(x := s.home.x.(local := ReaderDoes(s.home.x.local, step))))
    case TravelReads(step) =>
      s.(travel := s.travel.(x := s.travel.x.(local := ReaderDoes(s.travel.x.local, step))))
    case HomeTakesLocal => HomeDid(s, s.links, H.OnTarget(s.home))
    case TravelTakesLocal => TravelDid(s, s.links, T.OnLocal(s.travel))
    case HomeDetachExpires(_) => s.(home := s.home.(status := H.Failed(H.DetachExpired)))
    case HomeIoFails => s.(home := s.home.(status := H.Failed(H.IoFailed)))
    case TravelIoFails => s.(travel := s.travel.(status := T.Failed(T.IoFailed)))
    case HomeFinishes(drained) => s.(home := H.OnComplete(s.home, drained))
    case TravelFinishes(drained) => s.(travel := T.OnComplete(s.travel, drained))
  }

  /** The state a sequence of actions leads to; actions that cannot happen are skipped, so every
      finite run is some trace. */
  function Run(s: System, trace: seq<Action>): System
    decreases |trace|
  {
    if trace == [] then s
    else Run(if Enabled(s, trace[0]) then Apply(s, trace[0]) else s, trace[1..])
  }
}
