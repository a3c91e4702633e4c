/** Home's runtime-owned work (`Tasks`): admission, the shutdown signal, and the drain that
    `finish` performs. */
module Tasks {

  datatype Holder = Nobody | HeldBy(call: nat)

  /** A call of `finish`: waiting for the drain lock, joining children, waiting for blocking
      work, or returned. */
  datatype Finisher = AwaitingLock | Joining | AwaitingIdle | Returned

  /** `running` are the admitted tasks that have not ended; `children` those not yet joined. */
  datatype Pool = Pool(
    shutdown: bool,
    children: set<nat>,
    running: set<nat>,
    blocking: nat,
    drain: Holder,
    finishers: map<nat, Finisher>)

  function NewPool(): Pool {
    Pool(false, {}, {}, 0, Nobody, map[])
  }

  datatype Action =
    | Spawn(task: nat)
    | TaskEnds(task: nat)
    | Reap(task: nat)
    | Stop
    | FinishBegins(call: nat)
    | FinishLocks(call: nat)
    | FinishJoins(call: nat, task: nat)
    | FinishSeesNoChild(call: nat)
    | FinishSeesIdle(call: nat)
    | FinishCancelled(call: nat)
    | BlockingBegins
    | BlockingEnds

  predicate At(p: Pool, call: nat, phase: Finisher) {
    call in p.finishers && p.finishers[call] == phase
  }

  predicate Enabled(p: Pool, a: Action) {
    match a
    case Spawn(task) => task !in p.children && task !in p.running
    case TaskEnds(task) => task in p.running
    case Reap(task) => task in p.children && task !in p.running && !p.shutdown
    case Stop => true
    case FinishBegins(call) => call !in p.finishers
    case FinishLocks(call) => At(p, call, AwaitingLock) && p.drain.Nobody?
    case FinishJoins(call, task) => At(p, call, Joining) && task in p.children && task !in p.running
    case FinishSeesNoChild(call) => At(p, call, Joining) && p.children == {}
    case FinishSeesIdle(call) => At(p, call, AwaitingIdle) && p.blocking == 0
    case FinishCancelled(call) => call in p.finishers && !p.finishers[call].Returned?
    case BlockingBegins => true
    case BlockingEnds => p.blocking > 0
  }

  function Spawned(p: Pool, task: nat): Pool {
    if p.shutdown then p else p.(children := p.children + {task}, running := p.running + {task})
  }

  function Apply(p: Pool, a: Action): Pool
    requires Enabled(p, a)
  {
    match a
    case Spawn(task) => Spawned(p, task)
    case TaskEnds(task) => p.(running := p.running - {task})
    case Reap(task) => p.(children := p.children - {task})
    case Stop => p.(shutdown := true)
    case FinishBegins(call) => p.(shutdown := true, finishers := p.finishers[call := AwaitingLock])
    case FinishLocks(call) => p.(drain := HeldBy(call), finishers := p.finishers[call := Joining])
    case FinishJoins(_, task) => p.(children := p.children - {task})
    case FinishSeesNoChild(call) => p.(finishers := p.finishers[call := AwaitingIdle])
    case FinishSeesIdle(call) => p.(drain := Nobody, finishers := p.finishers[call := Returned])
    case FinishCancelled(call) =>
      p.(drain := if p.drain == HeldBy(call) then Nobody else p.drain, finishers := p.finishers - {call})
    case BlockingBegins => p.(blocking := p.blocking + 1)
    case BlockingEnds => p.(blocking := p.blocking - 1)
  }

  function Run(p: Pool, trace: seq<Action>): Pool
    decreases |trace|
  {
    if trace == [] then p
    else Run(if Enabled(p, trace[0]) then Apply(p, trace[0]) else p, trace[1..])
  }

  /** What a call of `finish` knows at each stage. */
  ghost predicate CallOk(p: Pool, call: nat) {
    call in p.finishers ==>
      && p.shutdown
      && (p.finishers[call].AwaitingIdle? || p.finishers[call].Returned? ==> p.children == {})
      && (p.finishers[call].Joining? || p.finishers[call].AwaitingIdle? ==> p.drain == HeldBy(call))
  }

  ghost predicate Inv(p: Pool) {
    p.running <= p.children && forall call :: CallOk(p, call)
  }

  lemma StepKeeps(p: Pool, a: Action)
    requires Inv(p) && Enabled(p, a)
    ensures Inv(Apply(p, a))
    ensures p.shutdown ==> Apply(p, a).shutdown && Apply(p, a).children <= p.children
  {
    forall call ensures CallOk(Apply(p, a), call) {
      assert CallOk(p, call);
      assert a.FinishSeesIdle? ==> CallOk(p, a.call);
    }
  }

  lemma {:induction false} RunKeeps(p: Pool, trace: seq<Action>)
    requires Inv(p)
    ensures Inv(Run(p, trace))
    ensures p.shutdown ==> Run(p, trace).shutdown && Run(p, trace).children <= p.children
    decreases |trace|
  {
    if trace != [] {
      if Enabled(p, trace[0]) {
        StepKeeps(p, trace[0]);
        RunKeeps(Apply(p, trace[0]), trace[1..]);
      } else {
        RunKeeps(p, trace[1..]);
      }
    }
  }

  /** Under every interleaving, and for as long as the pool lives on: once stop has been
      signalled no task is admitted any more, and once a `finish` has returned no admitted task
      is running, then or ever after. */
  lemma ShutdownDrains(before: seq<Action>, after: seq<Action>, call: nat)
    ensures var p := Run(NewPool(), before);
            var q := Run(p, after);
            && (p.shutdown ==> q.shutdown && q.children <= p.children)
            && (At(p, call, Returned) ==> q.shutdown && q.children == {} && q.running == {})
  {
    var p := Run(NewPool(), before);
    RunKeeps(NewPool(), before);
    RunKeeps(p, after);
    assert CallOk(p, call);
  }

  /** The step on which a `finish` returns sees no child and no blocking work. */
  lemma ReturnsWhenIdle(trace: seq<Action>, a: Action, call: nat)
    requires var p := Run(NewPool(), trace);
             Enabled(p, a) && !At(p, call, Returned) && At(Apply(p, a), call, Returned)
    ensures var p := Run(NewPool(), trace);
            p.blocking == 0 && p.children == {} && p.running == {} && p.drain == HeldBy(call)
  {
    RunKeeps(NewPool(), trace);
    assert CallOk(Run(NewPool(), trace), call);
  }

  /** Somewhere along the run shutdown was signalled, by a stop or by a call of `finish`. */
  predicate Signalled(p: Pool, trace: seq<Action>)
    decreases |trace|
  {
    trace != [] &&
    if Enabled(p, trace[0])
    then trace[0].Stop? || trace[0].FinishBegins? || Signalled(Apply(p, trace[0]), trace[1..])
    else Signalled(p, trace[1..])
  }

  lemma {:induction false} ShutdownExactlyWhenSignalled(p: Pool, trace: seq<Action>)
    ensures Run(p, trace).shutdown <==> p.shutdown || Signalled(p, trace)
    decreases |trace|
  {
    if trace != [] {
      ShutdownExactlyWhenSignalled(if Enabled(p, trace[0]) then Apply(p, trace[0]) else p, trace[1..]);
    }
  }

  /** A task is admitted exactly when shutdown has not been signalled; it then runs until it ends. */
  lemma AdmittedExactlyWhen(trace: seq<Action>, task: nat)
    requires Enabled(Run(NewPool(), trace), Spawn(task))
    ensures var p := Apply(Run(NewPool(), trace), Spawn(task));
            && (task in p.running <==> !Signalled(NewPool(), trace))
            && (task in p.children <==> !Signalled(NewPool(), trace))
  {
    ShutdownExactlyWhenSignalled(NewPool(), trace);
  }

  /** The call joins every child and returns. */
  lemma {:induction false} JoinsAll(p: Pool, call: nat, rest: set<nat>) returns (trace: seq<Action>)
    requires At(p, call, Joining) && p.children == rest && p.running == {} && p.blocking == 0
    ensures At(Run(p, trace), call, Returned)
    decreases |rest|
  {
    if rest == {} {
      var idle := Apply(p, FinishSeesNoChild(call));
      trace := [FinishSeesNoChild(call), FinishSeesIdle(call)];
      assert trace[1..] == [FinishSeesIdle(call)] && trace[1..][1..] == [];
      assert Run(idle, trace[1..]) == Apply(idle, FinishSeesIdle(call)) by {
        assert Enabled(idle, FinishSeesIdle(call));
        assert Run(Apply(idle, FinishSeesIdle(call)), []) == Apply(idle, FinishSeesIdle(call));
      }
    } else {
      var task :| task in rest;
      var next := Apply(p, FinishJoins(call, task));
      assert |rest - {task}| < |rest|;
      var joined := JoinsAll(next, call, rest - {task});
      trace := [FinishJoins(call, task)] + joined;
      assert trace[1..] == joined;
    }
  }

  /** Once every task and all blocking work has ended, a call of `finish` that gets the drain lock can
      go on and return. */
  lemma FinishCanReturn(p: Pool, call: nat)
    requires Enabled(p, FinishLocks(call)) && p.running == {} && p.blocking == 0
    ensures exists trace: seq<Action> :: At(Run(p, trace), call, Returned)
  {
    var locked := Apply(p, FinishLocks(call));
    var rest := JoinsAll(locked, call, p.children);
    var trace := [FinishLocks(call)] + rest;
    assert trace[1..] == rest;
    assert At(Run(p, trace), call, Returned);
  }
}
