/** Two runs in which nothing fails -- no Carrier is cut, no I/O error, no timeout -- and the
    flow still ends, because a candidate Carrier is overtaken by the active one or overtakes it. */
module FlowWitness {
  import opened Basics
  import opened Transfer
  import opened FlowSystem
  import H = HomeFlow
  import T = TravelFlow

  const LIMIT: nat := MAX_DATA_PAYLOAD

  /** The action is not a cut, a failure or a timeout. */
  predicate Undisturbed(a: Action) {
    !a.UpIsCut? && !a.DownIsCut? && !a.HomeIoFails? && !a.TravelIoFails? && !a.HomeDetachExpires? && !a.TravelLosesRace?
    && (a.HomeFinishes? || a.TravelFinishes? ==> a.drained)
  }

  predicate Goes(s: System, a: Action, s': System) {
    Undisturbed(a) && Enabled(s, a) && Apply(s, a) == s'
  }

  /** Some undisturbed trace leads from a fresh flow to `s`. */
  ghost predicate Arrives(s: System) {
    exists trace: seq<Action> ::
      (forall a | a in trace :: Undisturbed(a)) && Run(Initial(7, 5, LIMIT, LIMIT, 0), trace) == s
  }

  lemma {:induction false} RunAppend(s: System, trace: seq<Action>, a: Action)
    requires Enabled(Run(s, trace), a)
    ensures Run(s, trace + [a]) == Apply(Run(s, trace), a)
    decreases |trace|
  {
    if trace == [] {
      assert (trace + [a])[1..] == [];
    } else {
      assert (trace + [a])[1..] == trace[1..] + [a];
      RunAppend(if Enabled(s, trace[0]) then Apply(s, trace[0]) else s, trace[1..], a);
    }
  }

  lemma Then(s: System, a: Action, s': System)
    requires Arrives(s) && Goes(s, a, s')
    ensures Arrives(s')
  {
    var s0 := Initial(7, 5, LIMIT, LIMIT, 0);
    var trace: seq<Action> :| (forall b | b in trace :: Undisturbed(b)) && Run(s0, trace) == s;
    RunAppend(s0, trace, a);
    assert forall b | b in trace + [a] :: Undisturbed(b);
  }

  // ----- the states of both runs -----

  const X0: Endpoint := NewEndpoint(LIMIT)
  const BYTE: seq<Byte> := [42]
  const SEGMENT: Segment := Segment(0, BYTE)
  /** Travel after it read one byte, before and after Home acknowledged it. */
  const X1: Endpoint := Endpoint(Sender(1, 0, [SEGMENT], 1, false, false, [SEGMENT]), Receiver(0, false, [], 0),
                                 Local(LIMIT, LIMIT - 1, Reading, [], BYTE))
  const X2: Endpoint := Endpoint(Sender(1, 1, [], 0, false, false, [SEGMENT]), Receiver(0, false, [], 0),
                                 Local(LIMIT, LIMIT, Reading, [], BYTE))
  /** Home after it accepted the byte. */
  const Y1: Endpoint := X0.(rcv := Receiver(1, false, BYTE, 1))
  const RACE1: H.Races := H.Races(map[1 := 10], [1], [1])
  const RACE2: H.Races := H.Races(map[1 := 10, 2 := 11], [1, 2], [1, 2])

  function HomeAt(x: Endpoint, carriers: set<Uuid>, active: Uuid, races: H.Races): H.Home {
    H.Home(7, 5, x, carriers, Some(active), races, None, true, H.Running)
  }

  function Racing(x: Endpoint, carriers: set<Uuid>, candidates: set<Uuid>, opens: set<Uuid>): T.Travel {
    T.Travel(7, x, carriers, Some(10), Some(T.RaceState(2, Some(10), candidates)), opens, T.Running)
  }

  function Flowing(up: seq<Frame>, down: seq<Frame>): Link {
    Link(up, down, false, false)
  }

  /** Home and Travel agree on Carrier 10, and nothing is in flight. */
  function Selected(x: Endpoint, up: seq<Frame>): System {
    System(HomeAt(X0, {10}, 10, RACE1), T.Travel(7, x, {10}, Some(10), None, {}, T.Running),
           map[10 := Flowing(up, [])], {})
  }

  // ----- both runs first open and select Carrier 10 -----

  const HOME0: H.Home := H.NewHome(7, 5, LIMIT, 0)

  function FirstRace(carriers: set<Uuid>, opens: set<Uuid>): T.Travel {
    T.Travel(7, X0, carriers, None, Some(T.RaceState(1, None, carriers)), opens, T.Running)
  }

  function O1(): System { System(HOME0, FirstRace({}, {}), map[], {}) }
  function O2(): System { System(HOME0, FirstRace({}, {10}), map[10 := Flowing([], [])], {10}) }
  function O3(): System {
    System(HOME0.(carriers := {10}), FirstRace({}, {10}), map[10 := Flowing([], [OpenOk(7, 10, 0, 0)])], {})
  }
  function O4(): System {
    System(HOME0.(carriers := {10}), FirstRace({10}, {}), map[10 := Flowing([Race(7, 1, 0)], [])], {})
  }
  function O5(): System {
    System(HomeAt(X0, {10}, 10, RACE1), FirstRace({10}, {}), map[10 := Flowing([], [RaceAck(7, 1, 10)])], {})
  }

  /** A queue of one frame, pushed and popped. */
  lemma OneFrame(f: Frame)
    ensures [] + [f] == [f] && [f][1..] == []
  {
  }

  lemma Open1()
    ensures Goes(Initial(7, 5, LIMIT, LIMIT, 0), TravelStartsRace(1), O1())
  {
  }

  lemma Open2()
    ensures Goes(O1(), TravelOpens(10), O2())
  {
    assert O1().links[10 := Flowing([], [])] == O2().links;
  }

  lemma Open3()
    ensures Goes(O2(), HomeAttaches(10), O3())
  {
    OneFrame(OpenOk(7, 10, 0, 0));
    assert PushDown(O2().links, 10, [OpenOk(7, 10, 0, 0)]) == O3().links;
    assert {10} - {10} == {};
  }

  lemma Open4()
    ensures Goes(O3(), TravelOpened(10), O4())
  {
    OneFrame(OpenOk(7, 10, 0, 0));
    OneFrame(Race(7, 1, 0));
    assert PopDown(O3().links, 10) == map[10 := Flowing([], [])];
    assert PushUp(PopDown(O3().links, 10), 10, [Race(7, 1, 0)]) == O4().links;
    assert Acknowledged(X0, 0) == X0;
    assert {10} - {10} == {} && {} + {10} == {10};
  }

  lemma Open5()
    ensures Goes(O4(), HomeReceives(10), O5())
  {
    OneFrame(Race(7, 1, 0));
    OneFrame(RaceAck(7, 1, 10));
    assert PopUp(O4().links, 10) == map[10 := Flowing([], [])];
    assert [RaceAck(7, 1, 10)] + RetransmitFrames(7, X0.snd) == [RaceAck(7, 1, 10)];
    assert PushDown(PopUp(O4().links, 10), 10, [RaceAck(7, 1, 10)]) == O5().links;
    assert H.Remember(H.Races(map[], [], []), 1, 10) == RACE1;
  }

  lemma Open6()
    ensures Goes(O5(), TravelReceives(10), Selected(X0, []))
  {
    OneFrame(RaceAck(7, 1, 10));
    assert PopDown(O5().links, 10) == map[10 := Flowing([], [])];
    assert RetransmitFrames(7, X0.snd) == [];
  }

  lemma Begin()
    ensures Arrives(Initial(7, 5, LIMIT, LIMIT, 0))
  {
    assert Run(Initial(7, 5, LIMIT, LIMIT, 0), []) == Initial(7, 5, LIMIT, LIMIT, 0);
  }

  lemma SelectedArrives()
    ensures Arrives(Selected(X0, []))
  {
    Begin();
    Open1(); Then(Initial(7, 5, LIMIT, LIMIT, 0), TravelStartsRace(1), O1());
    Open2(); Then(O1(), TravelOpens(10), O2());
    Open3(); Then(O2(), HomeAttaches(10), O3());
    Open4(); Then(O3(), TravelOpened(10), O4());
    Open5(); Then(O4(), HomeReceives(10), O5());
    Open6(); Then(O5(), TravelReceives(10), Selected(X0, []));
  }

  // ----- run A: an ACK on the active Carrier overtakes a candidate's OPEN answer -----

  const READ: ReaderStep := Read(BYTE)
  const DATA: Frame := Data(7, 0, BYTE)
  const RACE: Frame := Race(7, 2, 0)

  function L1(): Local { Local(LIMIT, LIMIT, AwaitingCredit(BYTE), [], BYTE) }
  function L2(): Local { Local(LIMIT, LIMIT - 1, AwaitingQueue(BYTE), [], BYTE) }
  function L3(): Local { Local(LIMIT, LIMIT - 1, Reading, [LocalData(BYTE)], BYTE) }

  /** One byte is read, and cut into a segment. */
  lemma ReadingOne()
    ensures ReaderCan(X0.local, READ) && ReaderDoes(X0.local, READ) == L1()
    ensures ReaderCan(L1(), TakeCredit) && ReaderDoes(L1(), TakeCredit) == L2()
    ensures ReaderCan(L2(), Enqueue) && ReaderDoes(L2(), Enqueue) == L3()
    ensures TakeLocal(X0.(local := L3())) == X1
  {
    assert [] + BYTE == BYTE && [] + [LocalData(BYTE)] == [LocalData(BYTE)] && [LocalData(BYTE)][1..] == [];
    assert [] + [SEGMENT] == [SEGMENT];
  }

  /** Reading one byte disturbs nothing else. */
  lemma ReadingArrives(s: System)
    requires Arrives(s) && s.travel.status.Running? && s.travel.x == X0
    ensures Arrives(s.(travel := s.travel.(x := X0.(local := L3()))))
  {
    ReadingOne();
    var s1 := s.(travel := s.travel.(x := X0.(local := L1())));
    var s2 := s.(travel := s.travel.(x := X0.(local := L2())));
    var s3 := s.(travel := s.travel.(x := X0.(local := L3())));
    Then(s, TravelReads(READ), s1);
    Then(s1, TravelReads(TakeCredit), s2);
    Then(s2, TravelReads(Enqueue), s3);
  }

  function A0(): System { Selected(X0.(local := L3()), []) }

  lemma A1()
    ensures Goes(A0(), TravelTakesLocal, Selected(X1, [DATA]))
  {
    ReadingOne();
    OneFrame(DATA);
    assert PushUp(map[10 := Flowing([], [])], 10, [DATA]) == map[10 := Flowing([DATA], [])];
  }

  function A2(): System {
    System(HomeAt(X0, {10}, 10, RACE1), Racing(X1, {10}, {}, {}), map[10 := Flowing([DATA, RACE], [])], {})
  }
  function A3(): System {
    System(HomeAt(X0, {10}, 10, RACE1), Racing(X1, {10}, {}, {11}),
           map[10 := Flowing([DATA, RACE], []), 11 := Flowing([], [])], {11})
  }
  function A4(): System {
    System(HomeAt(X0, {10, 11}, 10, RACE1), Racing(X1, {10}, {}, {11}),
           map[10 := Flowing([DATA, RACE], []), 11 := Flowing([], [OpenOk(7, 11, 0, 0)])], {})
  }
  function A5(): System {
    System(HomeAt(Y1, {10, 11}, 10, RACE1), Racing(X1, {10}, {}, {11}),
           map[10 := Flowing([RACE], [Ack(7, 1)]), 11 := Flowing([], [OpenOk(7, 11, 0, 0)])], {})
  }
  function A6(): System {
    System(HomeAt(Y1, {10, 11}, 10, RACE1), Racing(X2, {10}, {}, {11}),
           map[10 := Flowing([RACE], []), 11 := Flowing([], [OpenOk(7, 11, 0, 0)])], {})
  }
  function A7(): System {
    System(HomeAt(Y1, {10, 11}, 10, RACE1), Racing(X2, {10}, {}, {11}).(status := T.Failed(T.AckMovedBackwards)),
           map[10 := Flowing([RACE], []), 11 := Flowing([], [])], {})
  }

  lemma A2Goes()
    ensures Goes(Selected(X1, [DATA]), TravelStartsRace(2), A2())
  {
    assert [DATA] + [RACE] == [DATA, RACE];
    assert PushUp(map[10 := Flowing([DATA], [])], 10, [RACE]) == A2().links;
  }

  lemma A3Goes()
    ensures Goes(A2(), TravelOpens(11), A3())
  {
    assert A2().links[11 := Flowing([], [])] == A3().links;
  }

  lemma A4Goes()
    ensures Goes(A3(), HomeAttaches(11), A4())
  {
    OneFrame(OpenOk(7, 11, 0, 0));
    assert PushDown(A3().links, 11, [OpenOk(7, 11, 0, 0)]) == A4().links;
    assert {11} - {11} == {} && {10} + {11} == {10, 11};
  }

  lemma A5Goes()
    ensures Goes(A4(), HomeReceives(10), A5())
  {
    OneFrame(Ack(7, 1));
    assert [DATA, RACE][1..] == [RACE] && [] + BYTE == BYTE;
    assert PushDown(PopUp(A4().links, 10), 10, [Ack(7, 1)]) == A5().links;
  }

  /** The acknowledgement of the one byte empties the window. */
  lemma AckedOne()
    ensures InWindow(X1.snd, 1) && !AckSplits(X1.snd.unacked, 1) && Acknowledged(X1, 1) == X2
  {
    assert DropAcked([SEGMENT], 1) == [] && BytesAfter([SEGMENT], 1, 1) == 0 && Released([SEGMENT], 1) == 1;
  }

  lemma A6Goes()
    ensures Goes(A5(), TravelReceives(10), A6())
  {
    OneFrame(Ack(7, 1));
    AckedOne();
    assert T.OnFrame(A5().travel, 10, Ack(7, 1)) == T.OnAck(A5().travel, 1);
    assert PopDown(A5().links, 10) == A6().links;
  }

  lemma A7Goes()
    ensures Goes(A6(), TravelOpened(11), A7())
  {
    OneFrame(OpenOk(7, 11, 0, 0));
    assert PopDown(A6().links, 11) == A7().links;
  }

  /** The flow's own uploads can end it during a reevaluation race: the acknowledgement of data
      sent on the active Carrier arrives before an older OPEN answer on a slower candidate. */
  lemma OvertakenCandidateEndsFlow()
    ensures exists s: System :: Arrives(s) && s.travel.status == T.Failed(T.AckMovedBackwards)
  {
    SelectedArrives();
    ReadingArrives(Selected(X0, []));
    A1(); Then(A0(), TravelTakesLocal, Selected(X1, [DATA]));
    A2Goes(); Then(Selected(X1, [DATA]), TravelStartsRace(2), A2());
    A3Goes(); Then(A2(), TravelOpens(11), A3());
    A4Goes(); Then(A3(), HomeAttaches(11), A4());
    A5Goes(); Then(A4(), HomeReceives(10), A5());
    A6Goes(); Then(A5(), TravelReceives(10), A6());
    A7Goes(); Then(A6(), TravelOpened(11), A7());
  }

  // ----- run B: data sent on the old Carrier reaches Home after it selected another one -----

  const BOTH: set<Uuid> := {10, 11}
  const LOST: Frame := RaceDuplicate(7, 2, 11)
  const CLOSE: Frame := Close(7, NonContiguous)
  const WON: Frame := RaceAck(7, 2, 11)

  function B1(): System {
    System(HomeAt(X0, {10}, 10, RACE1), Racing(X0, {10}, {}, {}), map[10 := Flowing([RACE], [])], {})
  }
  function B2(): System {
    System(HomeAt(X0, {10}, 10, RACE1), Racing(X0, {10}, {}, {11}),
           map[10 := Flowing([RACE], []), 11 := Flowing([], [])], {11})
  }
  function B3(): System {
    System(HomeAt(X0, BOTH, 10, RACE1), Racing(X0, {10}, {}, {11}),
           map[10 := Flowing([RACE], []), 11 := Flowing([], [OpenOk(7, 11, 0, 0)])], {})
  }
  function B4(): System {
    System(HomeAt(X0, BOTH, 10, RACE1), Racing(X0, BOTH, {11}, {}),
           map[10 := Flowing([RACE], []), 11 := Flowing([RACE], [])], {})
  }
  function B5(x: Endpoint, up: seq<Frame>): System {
    System(HomeAt(X0, BOTH, 11, RACE2), Racing(x, BOTH, {11}, {}),
           map[10 := Flowing(up, []), 11 := Flowing([], [WON])], {})
  }
  function B7(): System {
    System(HomeAt(X0, BOTH, 11, RACE2), Racing(X1, BOTH, {11}, {}),
           map[10 := Flowing([DATA], [LOST]), 11 := Flowing([], [WON])], {})
  }
  function B8(): System {
    System(HomeAt(X0, BOTH, 11, RACE2), Racing(X1, BOTH, {11}, {}),
           map[10 := Flowing([], [LOST, CLOSE]), 11 := Flowing([], [WON])], {})
  }
  function B9(status: T.TravelStatus, down: seq<Frame>): System {
    System(HomeAt(X0, BOTH, 11, RACE2), T.Travel(7, X1, {11}, Some(11), None, {}, status),
           map[10 := Flowing([], down), 11 := Flowing([DATA], [WON])], {})
  }

  lemma B1Goes()
    ensures Goes(Selected(X0, []), TravelStartsRace(2), B1())
  {
    OneFrame(RACE);
    assert PushUp(map[10 := Flowing([], [])], 10, [RACE]) == B1().links;
  }

  lemma B2Goes()
    ensures Goes(B1(), TravelOpens(11), B2())
  {
    assert B1().links[11 := Flowing([], [])] == B2().links;
  }

  lemma B3Goes()
    ensures Goes(B2(), HomeAttaches(11), B3())
  {
    OneFrame(OpenOk(7, 11, 0, 0));
    assert PushDown(B2().links, 11, [OpenOk(7, 11, 0, 0)]) == B3().links;
    assert {11} - {11} == {} && {10} + {11} == BOTH;
  }

  lemma B4Goes()
    ensures Goes(B3(), TravelOpened(11), B4())
  {
    OneFrame(OpenOk(7, 11, 0, 0));
    OneFrame(RACE);
    assert Acknowledged(X0, 0) == X0;
    assert {11} - {11} == {} && {} + {11} == {11} && {10} + {11} == BOTH;
    assert PushUp(PopDown(B3().links, 11), 11, [RACE]) == B4().links;
  }

  lemma B5Goes()
    ensures Goes(B4(), HomeReceives(11), B5(X0, [RACE]))
  {
    OneFrame(RACE);
    OneFrame(WON);
    assert [WON] + RetransmitFrames(7, X0.snd) == [WON];
    assert PushDown(PopUp(B4().links, 11), 11, [WON]) == B5(X0, [RACE]).links;
    assert RACE1.order + [2] == [1, 2] && RACE1.winners[2 := 11] == RACE2.winners;
    assert H.Remember(RACE1, 2, 11) == RACE2;
  }

  lemma B6Goes()
    ensures Goes(B5(X0.(local := L3()), [RACE]), TravelTakesLocal, B5(X1, [RACE, DATA]))
  {
    ReadingOne();
    var before := B5(X0.(local := L3()), [RACE]);
    assert T.OnLocal(before.travel) == T.Stepped(before.travel.(x := X1), 10, [DATA]);
    assert [RACE] + [DATA] == [RACE, DATA];
    assert PushUp(B5(X0, [RACE]).links, 10, [DATA]) == B5(X1, [RACE, DATA]).links;
  }

  lemma B7Goes()
    ensures Goes(B5(X1, [RACE, DATA]), HomeReceives(10), B7())
  {
    OneFrame(LOST);
    assert [RACE, DATA][1..] == [DATA];
    assert PushDown(PopUp(B5(X1, [RACE, DATA]).links, 10), 10, [LOST]) == B7().links;
  }

  lemma B8Goes()
    ensures Goes(B7(), HomeReceives(10), B8())
  {
    OneFrame(DATA);
    assert [LOST] + [CLOSE] == [LOST, CLOSE];
    assert PushDown(PopUp(B7().links, 10), 10, [CLOSE]) == B8().links;
  }

  lemma B9Goes()
    ensures Goes(B8(), TravelReceives(10), B9(T.Running, [CLOSE]))
  {
    OneFrame(DATA);
    assert [LOST, CLOSE][1..] == [CLOSE];
    assert DataFrames(7, [SEGMENT]) == [DATA];
    assert RetransmitFrames(7, X1.snd) == [DATA];
    assert PushUp(PopDown(B8().links, 10), 11, [DATA]) == B9(T.Running, [CLOSE]).links;
  }

  lemma B10Goes()
    ensures Goes(B9(T.Running, [CLOSE]), TravelReceives(10), B9(T.Failed(T.HomeClosed), []))
  {
    OneFrame(CLOSE);
    assert PopDown(B9(T.Running, [CLOSE]).links, 10) == B9(T.Running, []).links;
  }

  /** A handover can end the flow: data that Travel sent on the old Carrier before it heard that
      Home had selected the new one is answered with Close. */
  lemma HandoverCanEndFlow()
    ensures exists s: System :: Arrives(s) && s.travel.status == T.Failed(T.HomeClosed)
  {
    SelectedArrives();
    B1Goes(); Then(Selected(X0, []), TravelStartsRace(2), B1());
    B2Goes(); Then(B1(), TravelOpens(11), B2());
    B3Goes(); Then(B2(), HomeAttaches(11), B3());
    B4Goes(); Then(B3(), TravelOpened(11), B4());
    B5Goes(); Then(B4(), HomeReceives(11), B5(X0, [RACE]));
    ReadingArrives(B5(X0, [RACE]));
    B6Goes(); Then(B5(X0.(local := L3()), [RACE]), TravelTakesLocal, B5(X1, [RACE, DATA]));
    B7Goes(); Then(B5(X1, [RACE, DATA]), HomeReceives(10), B7());
    B8Goes(); Then(B7(), HomeReceives(10), B8());
    B9Goes(); Then(B8(), TravelReceives(10), B9(T.Running, [CLOSE]));
    B10Goes(); Then(B9(T.Running, [CLOSE]), TravelReceives(10), B9(T.Failed(T.HomeClosed), []));
  }
}
