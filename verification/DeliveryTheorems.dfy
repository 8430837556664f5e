/** What the delivery protocol promises, for every run from the initial state. */
module DeliveryTheorems {
  import opened SessionQueues
  import opened Wrappers
  import opened Delivery
  import opened DeliveryProofs

  // ---- requests ----

  /** Every request the pumps received is in as many places as it was received: no step drops
      one and no step answers one that stays elsewhere. */
  lemma RequestsConserved(steps: seq<Step>, id: nat)
    requires Runs(Initial, steps)
    ensures var st := After(Initial, steps); Places(st, id) == st.ledger.received[id]
  {
    ReachableInv(steps);
    assert Places(After(Initial, steps), id) == After(Initial, steps).ledger.received[id];
  }

  /** A request received once is answered at most once, and then it is nowhere else. */
  lemma AnsweredAtMostOnce(steps: seq<Step>, id: nat)
    requires Runs(Initial, steps)
    requires After(Initial, steps).ledger.received[id] <= 1
    ensures var st := After(Initial, steps);
            && st.ledger.answered[id] <= 1
            && (st.ledger.answered[id] == 1 ==>
                  PumpsHold(st.gens, id) == 0 && QueuesHold(st.queues, id) == 0 && st.ledger.dialogs[id] == 0)
  {
    RequestsConserved(steps, id);
  }

  /** Nothing is left in a pump that answers or routes no record. */
  predicate PumpEmpty(g: Generation) {
    !g.pump.Routing? && !g.pump.Refusing?
  }

  lemma {:induction false} EmptyPumpsHoldNothing(gens: seq<Generation>, id: nat)
    requires forall g | 0 <= g < |gens| :: PumpEmpty(gens[g])
    ensures PumpsHold(gens, id) == 0
  {
    if gens != [] {
      assert PumpEmpty(gens[0]);
      forall g | 0 <= g < |gens[1..]| ensures PumpEmpty(gens[1..][g]) {
        assert PumpEmpty(gens[g + 1]);
      }
      EmptyPumpsHoldNothing(gens[1..], id);
    }
  }

  lemma {:induction false} ExitedWorkersHoldNothing(queues: seq<Queue>, id: nat)
    requires forall i | 0 <= i < |queues| :: queues[i].worker.Exited? && queues[i].messages == []
    ensures QueuesHold(queues, id) == 0
  {
    if queues != [] {
      assert Requests([]) == [];
      assert queues[0].worker.Exited?;
      forall i | 0 <= i < |queues[1..]| ensures queues[1..][i].worker.Exited? && queues[1..][i].messages == [] {
        assert queues[i + 1].worker.Exited?;
      }
      ExitedWorkersHoldNothing(queues[1..], id);
    }
  }

  /** Once the workers have exited, the dialogs have ended and no pump is mid-record, every
      received request has been answered exactly as often as it was received. */
  lemma NoRequestLeft(steps: seq<Step>, id: nat)
    requires Runs(Initial, steps)
    requires var st := After(Initial, steps);
             && (forall i | 0 <= i < |st.queues| :: st.queues[i].worker.Exited?)
             && (forall g | 0 <= g < |st.gens| :: PumpEmpty(st.gens[g]))
             && st.ledger.dialogs[id] == 0
    ensures var st := After(Initial, steps); st.ledger.answered[id] == st.ledger.received[id]
  {
    RequestsConserved(steps, id);
    ReachableInv(steps);
    var st := After(Initial, steps);
    EmptyPumpsHoldNothing(st.gens, id);
    forall i | 0 <= i < |st.queues| ensures st.queues[i].messages == [] {
      assert QueueOk(st, i);
    }
    ExitedWorkersHoldNothing(st.queues, id);
  }

  // ---- workers and generations ----

  /** At most one worker runs for a session on a generation, across retired queues. */
  lemma SingleWorker(steps: seq<Step>, i: nat, j: nat)
    requires Runs(Initial, steps)
    requires var st := After(Initial, steps);
             && i < |st.queues| && j < |st.queues| && Key(st.queues[i]) == Key(st.queues[j])
             && !st.queues[i].worker.Exited? && !st.queues[j].worker.Exited?
    ensures i == j
  {
    ReachableInv(steps);
  }

  /** At most one generation is not dead. */
  lemma SingleGeneration(steps: seq<Step>, g: nat, h: nat)
    requires Runs(Initial, steps)
    requires var st := After(Initial, steps);
             g < |st.gens| && h < |st.gens| && !IsDead(st.gens[g]) && !IsDead(st.gens[h])
    ensures g == h
  {
    ReachableInv(steps);
    var st := After(Initial, steps);
    assert Spare(st, g) && Spare(st, h);
  }

  /** A worker runs only on the one live generation, so no session ever has two workers. */
  lemma SingleWorkerAcrossGenerations(steps: seq<Step>, i: nat, j: nat)
    requires Runs(Initial, steps)
    requires var st := After(Initial, steps);
             && i < |st.queues| && j < |st.queues| && st.queues[i].session == st.queues[j].session
             && !st.queues[i].worker.Exited? && !st.queues[j].worker.Exited?
    ensures i == j
  {
    ReachableInv(steps);
    var st := After(Initial, steps);
    assert QueueOk(st, i) && QueueOk(st, j);
    SingleGeneration(steps, st.queues[i].gen, st.queues[j].gen);
  }

  /** A replacement starts only when every worker of every earlier generation has exited. */
  lemma ReplacementWaits(steps: seq<Step>)
    requires Runs(Initial, steps)
    requires AgentCan(After(Initial, steps), Start)
    ensures var st := After(Initial, steps);
            && AllDead(st)
            && forall i | 0 <= i < |st.queues| :: st.queues[i].worker.Exited?
  {
    ReachableInv(steps);
    var st := After(Initial, steps);
    forall i | 0 <= i < |st.queues| ensures st.queues[i].worker.Exited? {
      assert QueueOk(st, i);
      assert IsDead(st.gens[st.queues[i].gen]);
    }
  }

  lemma StepAfterClose(st: State, step: Step)
    requires Inv(st) && st.agent.joined && Enabled(st, step)
    ensures Apply(st, step).agent.joined && |Apply(st, step).gens| == |st.gens|
  {
    if !step.AgentStep? {
      OthersLeaveAgent(st, step);
    }
  }

  /** After stopRuntime has returned, no generation is live and none is ever started again. */
  lemma {:induction false} NoneLiveAfterClose(st: State, more: seq<Step>)
    requires Inv(st) && st.agent.joined && Runs(st, more)
    ensures AllDead(After(st, more)) && |After(st, more).gens| == |st.gens|
    decreases |more|
  {
    if more != [] {
      StepAfterClose(st, more[0]);
      StepKeepsInv(st, more[0]);
      NoneLiveAfterClose(Apply(st, more[0]), more[1..]);
    }
  }

  // ---- processes ----

  lemma {:induction false} Extend(st: State, steps: seq<Step>, step: Step)
    requires Runs(st, steps) && Enabled(After(st, steps), step)
    ensures Runs(st, steps + [step]) && After(st, steps + [step]) == Apply(After(st, steps), step)
    decreases |steps|
  {
    if steps == [] {
      assert steps + [step] == [step];
      assert Runs(Apply(st, step), [step][1..]);
    } else {
      assert (steps + [step])[1..] == steps[1..] + [step];
      Extend(Apply(st, steps[0]), steps[1..], step);
    }
  }

  lemma {:induction false} EarlierAreDead(st: State, steps: seq<Step>, g: nat, h: nat)
    requires Inv(st) && Runs(st, steps) && g < h < |After(st, steps).gens|
    requires h < |st.gens| ==> IsDead(st.gens[g])
    ensures IsDead(After(st, steps).gens[g])
    decreases |steps|
  {
    if steps != [] {
      var st' := Apply(st, steps[0]);
      StepKeepsInv(st, steps[0]);
      if steps[0] == AgentStep(Start) {
        assert AllDead(st);
      } else if steps[0].AgentStep? {
        assert st'.gens == st.gens;
      } else {
        OthersLeaveAgent(st, steps[0]);
      }
      EarlierAreDead(st', steps[1..], g, h);
    }
  }

  /** A generation that has been replaced either was reaped or its shutdown wait expired. */
  lemma ProcessesOverlapOnlyAfterExpiry(steps: seq<Step>, g: nat, h: nat)
    requires Runs(Initial, steps) && g < h < |After(Initial, steps).gens|
    ensures var st := After(Initial, steps); st.gens[g].exited || st.gens[g].expired
  {
    InitialInv();
    EarlierAreDead(Initial, steps, g, h);
    ReachableInv(steps);
  }

  /** Neither the generation's process nor its shutdown wait ends in these steps. */
  predicate NothingMore(steps: seq<Step>, g: nat) {
    forall k | 0 <= k < |steps| :: steps[k] != PumpStep(g, ProcessExit) && steps[k] != PumpStep(g, ShutdownExpires)
  }

  lemma RouteKeepsProcess(st: State, h: nat, g: nat)
    requires PumpCan(st, h, Route) && g < |st.gens|
    ensures |RouteMessage(st, h).gens| == |st.gens|
    ensures RouteMessage(st, h).gens[g].exited == st.gens[g].exited && RouteMessage(st, h).gens[g].expired == st.gens[g].expired
  {
    var m, s := st.gens[h].pump.message, st.gens[h].pump.session;
    if s !in st.closed {
      var st1 := WithQueueFor(st, h, s);
      assert st1.gens == st.gens;
    }
  }

  lemma PumpKeepsProcess(st: State, h: nat, move: PumpMove, g: nat)
    requires PumpCan(st, h, move) && g < |st.gens| && (h == g ==> !move.ProcessExit? && !move.ShutdownExpires?)
    ensures |PumpDoes(st, h, move).gens| == |st.gens|
    ensures PumpDoes(st, h, move).gens[g].exited == st.gens[g].exited && PumpDoes(st, h, move).gens[g].expired == st.gens[g].expired
  {
    if move.Route? {
      RouteKeepsProcess(st, h, g);
    }
  }

  lemma WorkerKeepsGens(st: State, i: nat, move: WorkerMove)
    requires WorkerCan(st, i, move)
    ensures WorkerDoes(st, i, move).gens == st.gens
  {
  }

  lemma OtherKeepsGens(st: State, move: OtherMove)
    requires OtherCan(st, move)
    ensures OtherDoes(st, move).gens == st.gens
  {
  }

  lemma StepKeepsProcess(st: State, step: Step, g: nat)
    requires Enabled(st, step) && g < |st.gens|
    requires step != PumpStep(g, ProcessExit) && step != PumpStep(g, ShutdownExpires)
    ensures g < |Apply(st, step).gens|
    ensures Apply(st, step).gens[g].exited == st.gens[g].exited && Apply(st, step).gens[g].expired == st.gens[g].expired
  {
    match step
    case AgentStep(move) =>
    case PumpStep(h, move) => PumpKeepsProcess(st, h, move, g);
    case WorkerStep(i, move) => WorkerKeepsGens(st, i, move);
    case OtherStep(move) => OtherKeepsGens(st, move);
  }

  lemma {:induction false} ProcessKept(st: State, steps: seq<Step>, g: nat)
    requires Runs(st, steps) && g < |st.gens| && NothingMore(steps, g)
    ensures g < |After(st, steps).gens|
    ensures After(st, steps).gens[g].exited == st.gens[g].exited && After(st, steps).gens[g].expired == st.gens[g].expired
    decreases |steps|
  {
    if steps == [] {
    } else {
      assert steps[0] != PumpStep(g, ProcessExit) && steps[0] != PumpStep(g, ShutdownExpires);
      StepKeepsProcess(st, steps[0], g);
      assert forall k | 0 <= k < |steps[1..]| :: steps[1..][k] == steps[k + 1];
      ProcessKept(Apply(st, steps[0]), steps[1..], g);
    }
  }

  /** The agent's one generation is in its shutdown, and a request may start a replacement. */
  predicate ShuttingDown(st: State, g: nat) {
    && g < |st.gens| && st.agent.current == Some(g) && st.gens[g].pump.Stopping?
    && st.agent.launching.Free? && !st.agent.closed
  }

  /** A replacement beside the unreaped child. */
  predicate Overlaps(st: State, g: nat, before: nat) {
    before < |st.gens| && g < |st.gens| && !st.gens[g].exited
  }

  /** A shutdown whose child is reaped or whose wait has expired is followed by a replacement in
      three steps, beside the child if it was not reaped. */
  lemma ExpiredIsReplaced(st: State, g: nat)
    requires ShuttingDown(st, g) && (st.gens[g].expired || st.gens[g].exited)
    ensures var more := [PumpStep(g, MarkDead), AgentStep(Decide), AgentStep(Start)];
            && Runs(st, more) && NothingMore(more, g)
            && |After(st, more).gens| == |st.gens| + 1
            && (!st.gens[g].exited ==> Overlaps(After(st, more), g, |st.gens|))
  {
    Extend(st, [], PumpStep(g, MarkDead));
    assert [] + [PumpStep(g, MarkDead)] == [PumpStep(g, MarkDead)];
    Extend(st, [PumpStep(g, MarkDead)], AgentStep(Decide));
    assert [PumpStep(g, MarkDead)] + [AgentStep(Decide)] == [PumpStep(g, MarkDead), AgentStep(Decide)];
    Extend(st, [PumpStep(g, MarkDead), AgentStep(Decide)], AgentStep(Start));
    assert [PumpStep(g, MarkDead), AgentStep(Decide)] + [AgentStep(Start)] ==
           [PumpStep(g, MarkDead), AgentStep(Decide), AgentStep(Start)];
  }

  /** From the shutdown of any generation, and with nothing more from its process or its timer, a
      replacement starts beside the unreaped child in some continuation if and only if the
      shutdown wait has expired and the child has not been reaped. */
  lemma OverlapExactlyAfterExpiry(st: State, g: nat)
    requires Inv(st) && ShuttingDown(st, g)
    ensures (exists more :: Runs(st, more) && NothingMore(more, g) && Overlaps(After(st, more), g, |st.gens|))
            <==> st.gens[g].expired && !st.gens[g].exited
  {
    if st.gens[g].expired && !st.gens[g].exited {
      ExpiredIsReplaced(st, g);
    } else if more :| Runs(st, more) && NothingMore(more, g) && Overlaps(After(st, more), g, |st.gens|) {
      ProcessKept(st, more, g);
      EarlierAreDead(st, more, g, |st.gens|);
      RunKeepsInv(st, more);
    }
  }

  /** The run in which a replacement starts beside a child that was never reaped. */
  const OverlapRun: seq<Step> := [
    AgentStep(Decide), AgentStep(Start), AgentStep(Publish),
    PumpStep(0, StreamsEnd), PumpStep(0, CloseQueues), PumpStep(0, JoinWorkers),
    PumpStep(0, ShutdownExpires), PumpStep(0, MarkDead),
    AgentStep(Decide), AgentStep(Start)
  ]

  const OneLive: State :=
    Initial.(agent := Initial.agent.(current := Some(0)), gens := [Generation(Reading, 0, false, false)])

  lemma FirstLaunch()
    ensures Runs(Initial, OverlapRun[..3]) && After(Initial, OverlapRun[..3]) == OneLive
  {
    assert OverlapRun[..1] == [] + [AgentStep(Decide)];
    Extend(Initial, [], AgentStep(Decide));
    assert OverlapRun[..2] == OverlapRun[..1] + [AgentStep(Start)];
    Extend(Initial, OverlapRun[..1], AgentStep(Start));
    assert OverlapRun[..3] == OverlapRun[..2] + [AgentStep(Publish)];
    Extend(Initial, OverlapRun[..2], AgentStep(Publish));
  }

  const OneExpired: State := OneLive.(gens := [Generation(Stopping, 0, false, true)])

  lemma ShutdownRunsOut()
    ensures Runs(Initial, OverlapRun[..7]) && After(Initial, OverlapRun[..7]) == OneExpired
  {
    FirstLaunch();
    assert CloseAll(OneLive, 0) == [];
    assert OverlapRun[..4] == OverlapRun[..3] + [PumpStep(0, StreamsEnd)];
    Extend(Initial, OverlapRun[..3], PumpStep(0, StreamsEnd));
    assert OverlapRun[..5] == OverlapRun[..4] + [PumpStep(0, CloseQueues)];
    Extend(Initial, OverlapRun[..4], PumpStep(0, CloseQueues));
    assert After(Initial, OverlapRun[..5]) == OneLive.(gens := [Generation(Joining, 0, false, false)]);
    assert OverlapRun[..6] == OverlapRun[..5] + [PumpStep(0, JoinWorkers)];
    Extend(Initial, OverlapRun[..5], PumpStep(0, JoinWorkers));
    assert OverlapRun[..7] == OverlapRun[..6] + [PumpStep(0, ShutdownExpires)];
    Extend(Initial, OverlapRun[..6], PumpStep(0, ShutdownExpires));
  }

  /** A generation whose shutdown wait expired gives up its home lock unreaped, and its
      replacement starts beside it. */
  lemma ProcessesCanOverlap()
    ensures Runs(Initial, OverlapRun)
    ensures var st := After(Initial, OverlapRun);
            |st.gens| == 2 && !st.gens[0].exited && !st.gens[1].exited
  {
    ShutdownRunsOut();
    assert OverlapRun[..8] == OverlapRun[..7] + [PumpStep(0, MarkDead)];
    Extend(Initial, OverlapRun[..7], PumpStep(0, MarkDead));
    assert OverlapRun[..9] == OverlapRun[..8] + [AgentStep(Decide)];
    Extend(Initial, OverlapRun[..8], AgentStep(Decide));
    assert OverlapRun == OverlapRun[..9] + [AgentStep(Start)];
    Extend(Initial, OverlapRun[..9], AgentStep(Start));
  }

  // ---- channels ----

  /** `messages` and `done` are each closed at most once. */
  lemma ClosedAtMostOnce(steps: seq<Step>, i: nat)
    requires Runs(Initial, steps) && i < |After(Initial, steps).queues|
    ensures var q := After(Initial, steps).queues[i]; q.closes <= 1 && q.dones <= 1
  {
    ReachableInv(steps);
    assert QueueOk(After(Initial, steps), i);
  }

  /** One queue, before and after a step. */
  predicate QueueGoesOn(q: Queue, q': Queue) {
    && Key(q') == Key(q)
    && q.routed <= q'.routed && q.handled <= q'.handled
    && (q.stopped ==> q'.stopped)
    // what is routed is routed to an open, unfenced queue with room
    && (q'.routed != q.routed ==> !q.stopped && q.closes == 0 && |q.messages| < CAPACITY)
  }

  lemma OfferGoesOn(st: State, g: nat, i: nat, m: Message, j: nat)
    requires g < |st.gens| && st.gens[g].pump.Routing? && i < |st.queues| && j < |st.queues|
    requires Shape(st) && st.queues[i].gen == g
    ensures QueueGoesOn(st.queues[j], Offer(st, g, i, m).queues[j])
  {
    assert QueueOk(st, i);
  }

  lemma RouteGoesOn(st: State, g: nat, i: nat)
    requires Shape(st) && PumpCan(st, g, Route) && i < |st.queues|
    ensures i < |RouteMessage(st, g).queues| && QueueGoesOn(st.queues[i], RouteMessage(st, g).queues[i])
  {
    var m, s := st.gens[g].pump.message, st.gens[g].pump.session;
    if s !in st.closed {
      CreateKeepsShape(st, g, s);
      var st1 := WithQueueFor(st, g, s);
      assert st1.queues[i] == st.queues[i];
      OfferGoesOn(st1, g, st1.events[(g, s)], m, i);
    }
  }

  lemma PumpGoesOn(st: State, g: nat, move: PumpMove, i: nat)
    requires Shape(st) && PumpCan(st, g, move) && i < |st.queues|
    ensures i < |PumpDoes(st, g, move).queues| && QueueGoesOn(st.queues[i], PumpDoes(st, g, move).queues[i])
  {
    if move.Route? {
      RouteGoesOn(st, g, i);
    }
  }

  lemma WorkerGoesOn(st: State, j: nat, move: WorkerMove, i: nat)
    requires WorkerCan(st, j, move) && i < |st.queues|
    ensures i < |WorkerDoes(st, j, move).queues| && QueueGoesOn(st.queues[i], WorkerDoes(st, j, move).queues[i])
  {
  }

  /** A record is sent only to an open queue that nobody fenced, and a fence is for good. */
  lemma StepGoesOn(st: State, step: Step, i: nat)
    requires Shape(st) && Enabled(st, step) && i < |st.queues|
    ensures i < |Apply(st, step).queues| && QueueGoesOn(st.queues[i], Apply(st, step).queues[i])
  {
    match step
    case AgentStep(move) =>
    case PumpStep(g, move) => PumpGoesOn(st, g, move, i);
    case WorkerStep(j, move) => WorkerGoesOn(st, j, move, i);
    case OtherStep(move) =>
  }

  /** Nothing is ever enqueued after a queue was stopped. */
  lemma {:induction false} StoppedStays(st: State, more: seq<Step>, i: nat)
    requires Inv(st) && Runs(st, more) && i < |st.queues| && st.queues[i].stopped
    ensures i < |After(st, more).queues| && After(st, more).queues[i].stopped
    ensures After(st, more).queues[i].routed == st.queues[i].routed
    decreases |more|
  {
    if more != [] {
      StepGoesOn(st, more[0], i);
      StepKeepsInv(st, more[0]);
      StoppedStays(Apply(st, more[0]), more[1..], i);
    }
  }

  /** A worker handles a prefix of what was routed to its queue, in native order; until it
      drains, exactly the rest is still queued. */
  lemma HandledInOrder(steps: seq<Step>, i: nat)
    requires Runs(Initial, steps) && i < |After(Initial, steps).queues|
    ensures var q := After(Initial, steps).queues[i];
            && q.handled <= q.routed
            && NativeOrder(q.routed) && NativeOrder(q.handled)
            && (!q.Drained() ==> q.routed == q.handled + q.messages)
  {
    ReachableInv(steps);
    var q := After(Initial, steps).queues[i];
    assert QueueOk(After(Initial, steps), i);
    forall a, b | 0 <= a < b < |q.handled| ensures q.handled[a].at < q.handled[b].at {
      assert q.handled[a] == q.routed[a] && q.handled[b] == q.routed[b];
    }
  }

  /** How many steps a worker whose queue gets no more records can still take. */
  function StepsLeft(q: Queue): nat {
    match q.worker
    case Selecting => 3 + 3 * |q.messages|
    case Handling(_) => 5 + 3 * |q.messages|
    case Parked => 4 + 3 * |q.messages|
    case Leaving => 2 + |q.messages|
    case Answering(pending) => 1 + |pending|
    case Exited => 0
  }

  lemma {:induction false} FewerRequests(messages: seq<Message>)
    ensures |Requests(messages)| <= |messages|
  {
    if messages == [] {
    } else {
      FewerRequests(messages[1..]);
    }
  }

  /** Each step of a worker uses one of its steps up. */
  lemma WorkerWindsDown(st: State, i: nat, move: WorkerMove)
    requires WorkerCan(st, i, move)
    ensures i < |WorkerDoes(st, i, move).queues| && StepsLeft(WorkerDoes(st, i, move).queues[i]) < StepsLeft(st.queues[i])
  {
    FewerRequests(st.queues[i].messages);
  }

  lemma OthersLeaveQueue(st: State, step: Step, i: nat)
    requires Enabled(st, step) && i < |st.queues| && step.WorkerStep? && step.i != i
    ensures i < |Apply(st, step).queues| && Apply(st, step).queues[i] == st.queues[i]
  {
  }

  lemma RouteLeavesOthers(st: State, g: nat, i: nat)
    requires Shape(st) && PumpCan(st, g, Route) && i < |st.queues| && st.queues[i].gen != g
    ensures i < |RouteMessage(st, g).queues| && RouteMessage(st, g).queues[i] == st.queues[i]
  {
    var s := st.gens[g].pump.session;
    if s !in st.closed {
      CreateKeepsShape(st, g, s);
      var st1 := WithQueueFor(st, g, s);
      assert QueueOk(st1, st1.events[(g, s)]);
    }
  }

  lemma PumpAddsNone(st: State, g: nat, move: PumpMove, i: nat)
    requires Shape(st) && PumpCan(st, g, move) && i < |st.queues|
    requires st.queues[i].gen < |st.gens| && PastClose(st.gens[st.queues[i].gen].pump)
    ensures i < |PumpDoes(st, g, move).queues| && StepsLeft(PumpDoes(st, g, move).queues[i]) == StepsLeft(st.queues[i])
  {
    if move.Route? {
      assert g != st.queues[i].gen;
      RouteLeavesOthers(st, g, i);
    }
  }

  lemma OtherAddsNone(st: State, move: OtherMove, i: nat)
    requires OtherCan(st, move) && i < |st.queues|
    ensures i < |OtherDoes(st, move).queues| && StepsLeft(OtherDoes(st, move).queues[i]) == StepsLeft(st.queues[i])
  {
  }

  /** Once the pump has closed its queues a worker only winds down: its own steps each use one up
      and no step of anyone else adds one. */
  lemma JoinedWorkersWindDown(st: State, step: Step, i: nat)
    requires Inv(st) && Enabled(st, step) && i < |st.queues|
    requires st.queues[i].gen < |st.gens| && PastClose(st.gens[st.queues[i].gen].pump)
    ensures i < |Apply(st, step).queues|
    ensures if step.WorkerStep? && step.i == i then StepsLeft(Apply(st, step).queues[i]) < StepsLeft(st.queues[i])
            else StepsLeft(Apply(st, step).queues[i]) == StepsLeft(st.queues[i])
  {
    match step
    case AgentStep(move) =>
    case PumpStep(g, move) => PumpAddsNone(st, g, move, i);
    case WorkerStep(j, move) =>
      if i == j {
        WorkerWindsDown(st, i, move);
      } else {
        OthersLeaveQueue(st, step, i);
      }
    case OtherStep(move) => OtherAddsNone(st, move, i);
  }

  /** While the pump waits for its workers, one that is not parked behind its prompt can always
      move on: the join never waits for a record that will not come. */
  lemma JoinedWorkersMove(steps: seq<Step>, i: nat)
    requires Runs(Initial, steps)
    requires var st := After(Initial, steps);
             && i < |st.queues| && st.queues[i].gen < |st.gens|
             && st.gens[st.queues[i].gen].pump.Joining?
             && !st.queues[i].worker.Exited? && !st.queues[i].worker.Parked?
    ensures exists move :: WorkerCan(After(Initial, steps), i, move)
  {
    ReachableInv(steps);
    var st := After(Initial, steps);
    assert QueueOk(st, i);
    var q := st.queues[i];
    match q.worker
    case Selecting => assert WorkerCan(st, i, if q.messages == [] then Leave else TakeNext);
    case Handling(m) => assert WorkerCan(st, i, if m.Event? then HandleEvent(false) else RefuseRequest);
    case Leaving => assert WorkerCan(st, i, DrainQueue);
    case Answering(pending) => assert WorkerCan(st, i, if pending == [] then Exit else AnswerNext);
  }
}
