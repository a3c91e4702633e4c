/** A run to a clean end: one byte is uploaded, both streams end, and both loops return success. */
module FlowFinish {
  import opened Basics
  import opened Transfer
  import opened FlowSystem
  import opened FlowWitness
  import H = HomeFlow
  import T = TravelFlow

  // ----- the states of the run; nothing but the ends and what is in flight ever changes -----

  function At(home: Endpoint, travel: Endpoint, up: seq<Frame>, down: seq<Frame>): System {
    System(HomeAt(home, {10}, 10, RACE1), T.Travel(7, travel, {10}, Some(10), None, {}, T.Running),
           map[10 := Flowing(up, down)], {})
  }

  /** The reader reported the end of its stream, and the loop took it. */
  function Stopping(x: Endpoint): Endpoint {
    x.(local := x.local.(reader := Stopped, queue := [LocalEof]))
  }

  function Ended(x: Endpoint): Endpoint {
    x.(local := x.local.(reader := Stopped, queue := []), snd := x.snd.(eof := true))
  }

  function Told(x: Endpoint): Endpoint {
    x.(rcv := x.rcv.(eof := true))
  }

  function Confirmed(x: Endpoint): Endpoint {
    x.(snd := x.snd.(finAcked := true))
  }

  const X3: Endpoint := Ended(X2)
  const Y2: Endpoint := Told(Y1)
  const Y3: Endpoint := Ended(Y2)
  const FIN_UP: Frame := Fin(7, 1)
  const FIN_DOWN: Frame := Fin(7, 0)
  const FIN_ACK_UP: Frame := FinAck(7, 0)
  const FIN_ACK_DOWN: Frame := FinAck(7, 1)

  /** Taking the only frame of a queue and answering it. */
  lemma Links(before: seq<Frame>, after: seq<Frame>, up: seq<Frame>, down: seq<Frame>)
    ensures map[10 := Flowing(before, down)][10 := Flowing(after, down)] == map[10 := Flowing(after, down)]
    ensures map[10 := Flowing(up, before)][10 := Flowing(up, after)] == map[10 := Flowing(up, after)]
  {
  }

  lemma C1()
    ensures Goes(At(X0, X1, [DATA], []), HomeReceives(10), At(Y1, X1, [], [Ack(7, 1)]))
  {
    OneFrame(DATA);
    OneFrame(Ack(7, 1));
    assert [] + BYTE == BYTE;
    Links([DATA], [], [], []);
    Links([], [Ack(7, 1)], [], []);
  }

  lemma C2()
    ensures Goes(At(Y1, X1, [], [Ack(7, 1)]), TravelReceives(10), At(Y1, X2, [], []))
  {
    OneFrame(Ack(7, 1));
    AckedOne();
    Links([Ack(7, 1)], [], [], []);
  }

  lemma C3()
    ensures Goes(At(Y1, X2, [], []), TravelReads(ReadEof), At(Y1, Stopping(X2), [], []))
  {
    assert [] + [LocalEof] == [LocalEof];
  }

  lemma C4()
    ensures Goes(At(Y1, Stopping(X2), [], []), TravelTakesLocal, At(Y1, X3, [FIN_UP], []))
  {
    OneFrame(FIN_UP);
    assert [LocalEof][1..] == [];
    assert TakeLocal(Stopping(X2)) == X3;
    Links([], [FIN_UP], [], []);
  }

  lemma C5()
    ensures Goes(At(Y1, X3, [FIN_UP], []), HomeReceives(10), At(Y2, X3, [], [FIN_ACK_DOWN]))
  {
    OneFrame(FIN_UP);
    OneFrame(FIN_ACK_DOWN);
    Links([FIN_UP], [], [], []);
    Links([], [FIN_ACK_DOWN], [], []);
  }

  lemma C6()
    ensures Goes(At(Y2, X3, [], [FIN_ACK_DOWN]), HomeReads(ReadEof), At(Stopping(Y2), X3, [], [FIN_ACK_DOWN]))
  {
    assert [] + [LocalEof] == [LocalEof];
  }

  lemma C7()
    ensures Goes(At(Stopping(Y2), X3, [], [FIN_ACK_DOWN]), HomeTakesLocal, At(Y3, X3, [], [FIN_ACK_DOWN, FIN_DOWN]))
  {
    assert [LocalEof][1..] == [] && [FIN_ACK_DOWN] + [FIN_DOWN] == [FIN_ACK_DOWN, FIN_DOWN];
    assert TakeLocal(Stopping(Y2)) == Y3;
    Links([FIN_ACK_DOWN], [FIN_ACK_DOWN, FIN_DOWN], [], []);
  }

  lemma C8()
    ensures Goes(At(Y3, X3, [], [FIN_ACK_DOWN, FIN_DOWN]), TravelReceives(10), At(Y3, Confirmed(X3), [], [FIN_DOWN]))
  {
    assert [FIN_ACK_DOWN, FIN_DOWN][1..] == [FIN_DOWN];
    Links([FIN_ACK_DOWN, FIN_DOWN], [FIN_DOWN], [], []);
  }

  lemma C9()
    ensures Goes(At(Y3, Confirmed(X3), [], [FIN_DOWN]), TravelReceives(10),
                 At(Y3, Told(Confirmed(X3)), [FIN_ACK_UP], []))
  {
    OneFrame(FIN_DOWN);
    OneFrame(FIN_ACK_UP);
    Links([FIN_DOWN], [], [], []);
    Links([], [FIN_ACK_UP], [], []);
  }

  lemma C10()
    ensures Goes(At(Y3, Told(Confirmed(X3)), [FIN_ACK_UP], []), HomeReceives(10),
                 At(Confirmed(Y3), Told(Confirmed(X3)), [], []))
  {
    OneFrame(FIN_ACK_UP);
    Links([FIN_ACK_UP], [], [], []);
  }

  /** The state before either loop returns. */
  function Through(): System {
    At(Confirmed(Y3), Told(Confirmed(X3)), [], [])
  }

  function HomeReturned(): System {
    Through().(home := Through().home.(status := H.Finished))
  }

  function BothReturned(): System {
    HomeReturned().(travel := Through().travel.(status := T.Finished))
  }

  lemma C11()
    ensures Goes(Through(), HomeFinishes(true), HomeReturned())
    ensures Goes(HomeReturned(), TravelFinishes(true), BothReturned())
  {
  }

  lemma DataUploaded()
    ensures Arrives(At(Y1, X2, [], []))
  {
    SelectedArrives();
    ReadingArrives(Selected(X0, []));
    A1(); Then(A0(), TravelTakesLocal, Selected(X1, [DATA]));
    C1(); Then(At(X0, X1, [DATA], []), HomeReceives(10), At(Y1, X1, [], [Ack(7, 1)]));
    C2(); Then(At(Y1, X1, [], [Ack(7, 1)]), TravelReceives(10), At(Y1, X2, [], []));
  }

  lemma UploadEnded()
    ensures Arrives(At(Y2, X3, [], [FIN_ACK_DOWN]))
  {
    DataUploaded();
    C3(); Then(At(Y1, X2, [], []), TravelReads(ReadEof), At(Y1, Stopping(X2), [], []));
    C4(); Then(At(Y1, Stopping(X2), [], []), TravelTakesLocal, At(Y1, X3, [FIN_UP], []));
    C5(); Then(At(Y1, X3, [FIN_UP], []), HomeReceives(10), At(Y2, X3, [], [FIN_ACK_DOWN]));
  }

  lemma DownloadEnded()
    ensures Arrives(Through())
  {
    UploadEnded();
    C6(); Then(At(Y2, X3, [], [FIN_ACK_DOWN]), HomeReads(ReadEof), At(Stopping(Y2), X3, [], [FIN_ACK_DOWN]));
    C7(); Then(At(Stopping(Y2), X3, [], [FIN_ACK_DOWN]), HomeTakesLocal, At(Y3, X3, [], [FIN_ACK_DOWN, FIN_DOWN]));
    C8(); Then(At(Y3, X3, [], [FIN_ACK_DOWN, FIN_DOWN]), TravelReceives(10), At(Y3, Confirmed(X3), [], [FIN_DOWN]));
    C9(); Then(At(Y3, Confirmed(X3), [], [FIN_DOWN]), TravelReceives(10),
               At(Y3, Told(Confirmed(X3)), [FIN_ACK_UP], []));
    C10(); Then(At(Y3, Told(Confirmed(X3)), [FIN_ACK_UP], []), HomeReceives(10), Through());
  }

  /** A flow can end cleanly: an undisturbed run delivers the uploaded byte and ends with success at
      both ends. */
  lemma FlowCanFinish()
    ensures exists s: System ::
              Arrives(s) && s.home.status.Finished? && s.travel.status.Finished?
              && s.home.x.rcv.written == s.travel.x.local.read == BYTE
  {
    DownloadEnded();
    C11();
    Then(Through(), HomeFinishes(true), HomeReturned());
    Then(HomeReturned(), TravelFinishes(true), BothReturned());
  }
}
