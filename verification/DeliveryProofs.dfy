/** Safety of the delivery protocol over all interleavings. */
module DeliveryProofs {
  import opened SessionQueues
  import opened Wrappers
  import opened Delivery

  // ---- the inductive invariant ----

  predicate EventsOk(st: State) {
    forall k | k in st.events ::
      st.events[k] < |st.queues| && Key(st.queues[st.events[k]]) == k
  }

  function Horizon(g: Generation): nat {
    if g.pump.Routing? then g.pump.message.at else g.read
  }

  predicate QueueOk(st: State, i: nat)
    requires i < |st.queues|
  {
    var q := st.queues[i];
    && q.gen < |st.gens|
    && Kept(q)
    // a worker that still runs is the registered one, unless its closed session forgot it
    && (!q.worker.Exited? ==> RegisteredIn(st, i) || (q.worker.Answering? && q.session in st.closed))
    // messages are closed only by a pump that left its loop
    && (q.closes > 0 ==> PastClose(st.gens[q.gen].pump))
    && (PastJoin(st.gens[q.gen].pump) ==> q.worker.Exited?)
    // and then closes them for every worker that may still read them
    && (PastClose(st.gens[q.gen].pump) ==> q.closes > 0 || q.Drained())
    // what was routed came before what the pump holds or will read
    && AllBefore(q.routed, Horizon(st.gens[q.gen]))
  }

  predicate PumpsOk(st: State) {
    forall g | 0 <= g < |st.gens| ::
      && (st.gens[g].pump.Routing? ==> st.gens[g].pump.message.at < st.gens[g].read)
      && (IsDead(st.gens[g]) ==> st.gens[g].exited || st.gens[g].expired)
  }

  predicate QueuesOk(st: State) {
    forall i | 0 <= i < |st.queues| :: QueueOk(st, i)
  }

  predicate Alone(st: State) {
    forall i, j | 0 <= i < |st.queues| && 0 <= j < |st.queues| && i != j && Key(st.queues[i]) == Key(st.queues[j]) ::
      st.queues[i].worker.Exited? || st.queues[j].worker.Exited?
  }

  predicate Shape(st: State) {
    EventsOk(st) && QueuesOk(st) && Alone(st) && PumpsOk(st)
  }

  /** A step that rewrites one queue in place. */
  predicate QueueMoves(st: State, i: nat, q: Queue)
    requires i < |st.queues| && st.queues[i].gen < |st.gens|
  {
    var was := st.queues[i];
    && Key(q) == Key(was)
    && q.closes == was.closes
    && Kept(q)
    && AllBefore(q.routed, Horizon(st.gens[was.gen]))
    && (was.worker.Exited? ==> q.worker.Exited?)
    && (q.worker.Answering? || was.worker.Answering? ==> q.worker.Answering? || q.worker.Exited?)
  }

  lemma QueueStepKeepsShape(st: State, i: nat, q: Queue)
    requires Shape(st) && i < |st.queues| && QueueOk(st, i) && QueueMoves(st, i, q)
    ensures Shape(SetQueue(st, i, q))
  {
    var st' := SetQueue(st, i, q);
    forall j | 0 <= j < |st'.queues| ensures QueueOk(st', j) {
      assert QueueOk(st, j);
      assert Key(st'.queues[j]) == Key(st.queues[j]);
    }
  }

  /** A step of one generation that only moves forward within the read loop, or past it. */
  predicate GenMoves(st: State, g: nat, x: Generation)
    requires g < |st.gens|
  {
    var was := st.gens[g];
    && (PastClose(was.pump) <==> PastClose(x.pump))
    && (PastJoin(x.pump) ==> AllExited(st, g))
    && Horizon(was) <= Horizon(x)
    && (x.pump.Routing? ==> x.pump.message.at < x.read)
    && (IsDead(x) ==> x.exited || x.expired)
  }

  lemma GenStepKeepsShape(st: State, g: nat, x: Generation)
    requires Shape(st) && g < |st.gens| && GenMoves(st, g, x)
    ensures Shape(SetGen(st, g, x))
  {
    var st' := SetGen(st, g, x);
    forall j | 0 <= j < |st'.queues| ensures QueueOk(st', j) {
      assert QueueOk(st, j);
    }
  }

  lemma PumpStepKeepsShape(st: State, g: nat, p: Pump)
    requires Shape(st) && g < |st.gens| && GenMoves(st, g, st.gens[g].(pump := p))
    ensures Shape(SetPump(st, g, p))
  {
    GenStepKeepsShape(st, g, st.gens[g].(pump := p));
  }

  lemma CreateKeepsShape(st: State, g: nat, s: nat)
    requires Shape(st) && g < |st.gens| && !PastClose(st.gens[g].pump) && s !in st.closed
    ensures Shape(WithQueueFor(st, g, s))
    ensures (g, s) in WithQueueFor(st, g, s).events
  {
    var st' := WithQueueFor(st, g, s);
    if (g, s) !in st.events {
      forall j | 0 <= j < |st'.queues| ensures QueueOk(st', j) {
        if j < |st.queues| {
          assert QueueOk(st, j);
          assert Key(st.queues[j]) == (g, s) ==> st.queues[j].worker.Exited?;
        }
      }
      forall j | 0 <= j < |st.queues| && Key(st.queues[j]) == (g, s) ensures st.queues[j].worker.Exited? {
        assert QueueOk(st, j);
      }
    }
  }

  lemma OfferKeepsShape(st: State, g: nat, i: nat, m: Message)
    requires Shape(st) && g < |st.gens| && st.gens[g].pump.Routing? && st.gens[g].pump.message == m
    requires i < |st.queues| && st.queues[i].gen == g
    ensures Shape(Offer(st, g, i, m))
  {
    var (outcome, q) := Offered(st.queues[i], m);
    assert QueueOk(st, i);
    if outcome.Queued? {
      SendKeeps(st.queues[i], m);
    }
    var next := Offer(st, g, i, m).gens[g].pump;
    PumpStepKeepsShape(st, g, next);
    assert QueueOk(SetPump(st, g, next), i);
    QueueStepKeepsShape(SetPump(st, g, next), i, q);
  }

  lemma RouteKeepsShape(st: State, g: nat)
    requires Shape(st) && PumpCan(st, g, Route)
    ensures Shape(RouteMessage(st, g))
  {
    var m, s := st.gens[g].pump.message, st.gens[g].pump.session;
    if s in st.closed {
      PumpStepKeepsShape(st, g, Refused(m, None));
    } else {
      CreateKeepsShape(st, g, s);
      OfferKeepsShape(WithQueueFor(st, g, s), g, WithQueueFor(st, g, s).events[(g, s)], m);
    }
  }

  lemma CloseKeepsQueue(st: State, g: nat, j: nat)
    requires Shape(st) && PumpCan(st, g, CloseQueues) && j < |st.queues|
    ensures QueueOk(SetPump(st.(queues := CloseAll(st, g)), g, Joining), j)
  {
    assert QueueOk(st, j);
    var q, q' := st.queues[j], CloseAll(st, g)[j];
    assert q' == q || (q' == CloseMessages(q) && q.gen == g && q.closes == 0);
    assert Kept(q');
  }

  lemma CloseKeepsShape(st: State, g: nat)
    requires Shape(st) && PumpCan(st, g, CloseQueues)
    ensures Shape(SetPump(st.(queues := CloseAll(st, g)), g, Joining))
  {
    var st' := SetPump(st.(queues := CloseAll(st, g)), g, Joining);
    forall j | 0 <= j < |st.queues|
      ensures Key(st'.queues[j]) == Key(st.queues[j]) && st'.queues[j].worker == st.queues[j].worker
    {
    }
    assert EventsOk(st');
    assert Alone(st');
    forall j | 0 <= j < |st'.queues| ensures QueueOk(st', j) {
      CloseKeepsQueue(st, g, j);
    }
  }

  /** Dropping a registration needs the queue's worker gone, or answering for a closed session. */
  lemma ForgetKeepsShape(st: State, k: (nat, nat))
    requires Shape(st) && k in st.events
    requires var w := st.queues[st.events[k]].worker; w.Exited? || (w.Answering? && k.1 in st.closed)
    ensures Shape(st.(events := st.events - {k}))
  {
    var st' := st.(events := st.events - {k});
    forall j | 0 <= j < |st'.queues| ensures QueueOk(st', j) {
      assert QueueOk(st, j);
    }
  }

  /** Shape reads generations, queues, registrations and closed sessions only. */
  lemma Frame(st: State, st': State)
    requires Shape(st)
    requires st'.queues == st.queues && st'.events == st.events && st.closed <= st'.closed
    requires st.gens <= st'.gens && PumpsOk(st')
    ensures Shape(st')
  {
    forall j | 0 <= j < |st'.queues| ensures QueueOk(st', j) {
      assert QueueOk(st, j);
    }
  }

  lemma WorkerKeepsShape(st: State, i: nat, w: Worker)
    requires Shape(st) && i < |st.queues| && QueueOk(st, i) && QueueMoves(st, i, st.queues[i].(worker := w))
    ensures Shape(SetWorker(st, i, w))
  {
    QueueStepKeepsShape(st, i, st.queues[i].(worker := w));
  }

  /** Apart from taking a record and draining, a worker changes its own state and the ledger. */
  lemma WorkerOnlyMoves(st: State, i: nat, move: WorkerMove)
    requires WorkerCan(st, i, move) && !move.TakeNext? && !move.DrainQueue?
    ensures var st' := WorkerDoes(st, i, move);
            && st' == SetWorker(st.(ledger := st'.ledger), i, st'.queues[i].worker)
            && !st.queues[i].worker.Exited?
            && (st.queues[i].worker.Answering? <==> st'.queues[i].worker.Answering? || st'.queues[i].worker.Exited?)
  {
  }

  lemma WorkerStepKeepsShape(st: State, i: nat, move: WorkerMove)
    requires Shape(st) && WorkerCan(st, i, move)
    ensures Shape(WorkerDoes(st, i, move))
  {
    var q := st.queues[i];
    assert QueueOk(st, i);
    if move.TakeNext? {
      TakeKeeps(q);
      QueueStepKeepsShape(st, i, Take(q));
    } else if move.DrainQueue? {
      QueueStepKeepsShape(st, i, Drain(q));
      if q.session in st.closed {
        ForgetKeepsShape(SetQueue(st, i, Drain(q)), Key(q));
      }
    } else {
      WorkerOnlyMoves(st, i, move);
      var st' := WorkerDoes(st, i, move);
      Frame(st, st.(ledger := st'.ledger));
      WorkerKeepsShape(st.(ledger := st'.ledger), i, st'.queues[i].worker);
    }
  }

  /** Apart from routing and closing queues, a pump changes its generation, starts containments
      and keeps the ledger. */
  lemma PumpOnlyMoves(st: State, g: nat, move: PumpMove)
    requires PumpsOk(st) && PumpCan(st, g, move) && !move.Route? && !move.CloseQueues?
    requires PastJoin(st.gens[g].pump) ==> AllExited(st, g)
    ensures var st' := PumpDoes(st, g, move);
            && st' == SetGen(st, g, st'.gens[g]).(retirers := st'.retirers, ledger := st'.ledger)
            && GenMoves(st, g, st'.gens[g])
  {
  }

  lemma PumpStepsKeepShape(st: State, g: nat, move: PumpMove)
    requires Shape(st) && PumpCan(st, g, move)
    ensures Shape(PumpDoes(st, g, move))
  {
    if move.Route? {
      RouteKeepsShape(st, g);
    } else if move.CloseQueues? {
      CloseKeepsShape(st, g);
    } else {
      forall i | 0 <= i < |st.queues| && st.queues[i].gen == g
        ensures PastJoin(st.gens[g].pump) ==> st.queues[i].worker.Exited?
      {
        assert QueueOk(st, i);
      }
      PumpOnlyMoves(st, g, move);
      var st' := PumpDoes(st, g, move);
      GenStepKeepsShape(st, g, st'.gens[g]);
      Frame(SetGen(st, g, st'.gens[g]), st');
    }
  }

  lemma OtherStepKeepsShape(st: State, move: OtherMove)
    requires Shape(st) && OtherCan(st, move)
    ensures Shape(OtherDoes(st, move))
  {
    match move
    case FenceQueue(g, s) =>
      var i := st.events[(g, s)];
      assert QueueOk(st, i);
      QueueStepKeepsShape(st, i, Fence(st.queues[i]));
    case RetireJoins(r) =>
      var key := (st.retirers[r].gen, st.retirers[r].session);
      var st' := OtherDoes(st, move);
      if key in st.events && st.events[key] == st.retirers[r].phase.queue {
        ForgetKeepsShape(st, key);
        Frame(st.(events := st.events - {key}), st');
      } else {
        Frame(st, st');
      }
    case _ => Frame(st, OtherDoes(st, move));
  }

  lemma StepKeepsShape(st: State, step: Step)
    requires Shape(st) && Enabled(st, step)
    ensures Shape(Apply(st, step))
  {
    match step
    case AgentStep(move) => Frame(st, AgentDoes(st, move));
    case PumpStep(g, move) => PumpStepsKeepShape(st, g, move);
    case WorkerStep(i, move) => WorkerStepKeepsShape(st, i, move);
    case OtherStep(move) => OtherStepKeepsShape(st, move);
  }

  // ---- generations ----

  predicate Spare(st: State, g: nat)
    requires g < |st.gens|
  {
    var a := st.agent;
    IsDead(st.gens[g]) || a.current == Some(g) || a.launching == Launched(g) || (a.swapped && a.victim == Some(g))
  }

  predicate AllDead(st: State) {
    forall g | 0 <= g < |st.gens| :: IsDead(st.gens[g])
  }

  predicate AgentOk(st: State) {
    var a := st.agent;
    && (forall g | 0 <= g < |st.gens| :: Spare(st, g))
    && (a.current.Some? ==> a.current.value < |st.gens|)
    && (a.victim.Some? ==> a.victim.value < |st.gens|)
    && (a.launching.Deciding? ==> AllDead(st))
    && (a.launching.Launched? ==>
          && a.launching.gen < |st.gens|
          && forall g | 0 <= g < |st.gens| && g != a.launching.gen :: IsDead(st.gens[g]))
    && (a.swapped ==> a.closed && a.launching.Free? && a.current.None?)
    && (a.joined ==> a.swapped && AllDead(st))
  }

  lemma AgentStepKeepsAgent(st: State, move: AgentMove)
    requires AgentOk(st) && AgentCan(st, move)
    ensures AgentOk(AgentDoes(st, move))
  {
    var st' := AgentDoes(st, move);
    forall g | 0 <= g < |st'.gens|
      ensures Spare(st', g)
      ensures st'.agent.launching.Deciding? || st'.agent.joined ==> IsDead(st'.gens[g])
    {
      if g < |st.gens| {
        assert Spare(st, g);
      }
    }
  }

  /** Outside the agent no step touches what the agent owns, revives a generation or adds one. */
  predicate LeavesAgent(st: State, st': State) {
    && st'.agent == st.agent
    && |st'.gens| == |st.gens|
    && forall g | 0 <= g < |st.gens| && IsDead(st.gens[g]) :: IsDead(st'.gens[g])
  }

  lemma OthersLeaveAgent(st: State, step: Step)
    requires Enabled(st, step) && !step.AgentStep?
    ensures LeavesAgent(st, Apply(st, step))
  {
    match step
    case PumpStep(g, move) =>
    case WorkerStep(i, move) =>
    case OtherStep(move) =>
  }

  lemma StepKeepsAgent(st: State, step: Step)
    requires AgentOk(st) && Enabled(st, step)
    ensures AgentOk(Apply(st, step))
  {
    if step.AgentStep? {
      AgentStepKeepsAgent(st, step.agent);
    } else {
      var st' := Apply(st, step);
      OthersLeaveAgent(st, step);
      forall g | 0 <= g < |st'.gens| ensures Spare(st', g) {
        assert Spare(st, g);
      }
    }
  }

  // ---- conservation of requests ----

  function PumpHolds(g: Generation, id: nat): nat {
    match g.pump
    case Routing(m, _) => Carries(m, id)
    case Refusing(held, _) => if held == id then 1 else 0
    case _ => 0
  }

  function PumpsHold(gens: seq<Generation>, id: nat): nat {
    if gens == [] then 0 else PumpHolds(gens[0], id) + PumpsHold(gens[1..], id)
  }

  function QueuesHold(queues: seq<Queue>, id: nat): nat {
    if queues == [] then 0 else Held(queues[0], id) + QueuesHold(queues[1..], id)
  }

  /** In how many places a request is: the pumps, the queues and their workers, the open
      dialogs, the answers written. */
  function Places(st: State, id: nat): nat {
    PumpsHold(st.gens, id) + QueuesHold(st.queues, id) + st.ledger.dialogs[id] + st.ledger.answered[id]
  }

  ghost predicate Conserved(st: State) {
    forall id: nat :: Places(st, id) == st.ledger.received[id]
  }

  lemma {:induction false} PumpsUpdate(gens: seq<Generation>, g: nat, x: Generation, id: nat)
    requires g < |gens|
    ensures PumpsHold(gens[g := x], id) == PumpsHold(gens, id) - PumpHolds(gens[g], id) + PumpHolds(x, id)
  {
    if g == 0 {
      assert gens[g := x][1..] == gens[1..];
    } else {
      assert gens[g := x][1..] == gens[1..][g - 1 := x];
      PumpsUpdate(gens[1..], g - 1, x, id);
    }
  }

  lemma {:induction false} PumpsAppend(gens: seq<Generation>, x: Generation, id: nat)
    ensures PumpsHold(gens + [x], id) == PumpsHold(gens, id) + PumpHolds(x, id)
  {
    if gens == [] {
      assert gens + [x] == [x];
      assert PumpsHold([x][1..], id) == 0;
    } else {
      assert (gens + [x])[1..] == gens[1..] + [x];
      PumpsAppend(gens[1..], x, id);
    }
  }

  lemma {:induction false} QueuesUpdate(queues: seq<Queue>, i: nat, x: Queue, id: nat)
    requires i < |queues|
    ensures QueuesHold(queues[i := x], id) == QueuesHold(queues, id) - Held(queues[i], id) + Held(x, id)
  {
    if i == 0 {
      assert queues[i := x][1..] == queues[1..];
    } else {
      assert queues[i := x][1..] == queues[1..][i - 1 := x];
      QueuesUpdate(queues[1..], i - 1, x, id);
    }
  }

  lemma {:induction false} QueuesAppend(queues: seq<Queue>, x: Queue, id: nat)
    ensures QueuesHold(queues + [x], id) == QueuesHold(queues, id) + Held(x, id)
  {
    if queues == [] {
      assert queues + [x] == [x];
      assert QueuesHold([x][1..], id) == 0;
    } else {
      assert (queues + [x])[1..] == queues[1..] + [x];
      QueuesAppend(queues[1..], x, id);
    }
  }

  lemma {:induction false} QueuesSame(a: seq<Queue>, b: seq<Queue>, id: nat)
    requires |a| == |b| && forall i | 0 <= i < |a| :: Held(a[i], id) == Held(b[i], id)
    ensures QueuesHold(a, id) == QueuesHold(b, id)
  {
    if a != [] {
      assert Held(a[0], id) == Held(b[0], id);
      forall i | 0 <= i < |a[1..]| ensures Held(a[1..][i], id) == Held(b[1..][i], id) {
        assert Held(a[i + 1], id) == Held(b[i + 1], id);
      }
      QueuesSame(a[1..], b[1..], id);
    }
  }

  lemma PumpPlaces(st: State, g: nat, p: Pump, id: nat)
    requires g < |st.gens|
    ensures Places(SetPump(st, g, p), id)
         == Places(st, id) - PumpHolds(st.gens[g], id) + PumpHolds(st.gens[g].(pump := p), id)
  {
    PumpsUpdate(st.gens, g, st.gens[g].(pump := p), id);
  }

  lemma QueuePlaces(st: State, i: nat, q: Queue, id: nat)
    requires i < |st.queues|
    ensures Places(SetQueue(st, i, q), id) == Places(st, id) - Held(st.queues[i], id) + Held(q, id)
  {
    QueuesUpdate(st.queues, i, q, id);
  }

  lemma OfferPlaces(st: State, g: nat, i: nat, m: Message, id: nat)
    requires g < |st.gens| && i < |st.queues| && st.gens[g].pump.Routing? && st.gens[g].pump.message == m
    ensures Places(Offer(st, g, i, m), id) == Places(st, id)
  {
    var (outcome, q) := Offered(st.queues[i], m);
    if outcome.Queued? {
      SendHolds(st.queues[i], m, id);
    }
    QueuePlaces(st, i, q, id);
    PumpPlaces(SetQueue(st, i, q), g, Offer(st, g, i, m).gens[g].pump, id);
  }

  lemma RoutePlaces(st: State, g: nat, id: nat)
    requires PumpCan(st, g, Route)
    ensures Places(RouteMessage(st, g), id) == Places(st, id)
  {
    var m, s := st.gens[g].pump.message, st.gens[g].pump.session;
    if s in st.closed {
      PumpPlaces(st, g, Refused(m, None), id);
    } else {
      var st1 := WithQueueFor(st, g, s);
      if (g, s) !in st.events {
        QueuesAppend(st.queues, Fresh(g, s), id);
        assert Requests([]) == [];
      }
      OfferPlaces(st1, g, st1.events[(g, s)], m, id);
    }
  }

  /** A step changes where a request is by exactly what it receives of it. */
  predicate Balances(st: State, st': State, id: nat) {
    Places(st', id) - st'.ledger.received[id] == Places(st, id) - st.ledger.received[id]
  }

  /** What one generation's pump gives up, the ledger takes. */
  lemma TurnBalances(st: State, g: nat, move: PumpMove, id: nat)
    requires PumpCan(st, g, move)
    requires !move.Route? && !move.CloseQueues? && !move.ProcessExit? && !move.ShutdownExpires?
    ensures var st' := PumpDoes(st, g, move);
            && st'.queues == st.queues && st'.ledger.dialogs == st.ledger.dialogs
            && PumpHolds(st'.gens[g], id) + st'.ledger.answered[id] - st'.ledger.received[id]
            == PumpHolds(st.gens[g], id) + st.ledger.answered[id] - st.ledger.received[id]
  {
  }

  lemma ClosePlaces(st: State, g: nat, id: nat)
    requires PumpCan(st, g, CloseQueues)
    ensures Balances(st, PumpDoes(st, g, CloseQueues), id)
  {
    var st1 := st.(queues := CloseAll(st, g));
    forall i | 0 <= i < |st.queues| ensures Held(st.queues[i], id) == Held(st1.queues[i], id) {
    }
    QueuesSame(st.queues, st1.queues, id);
    PumpPlaces(st1, g, Joining, id);
  }

  lemma RouteKeepsLedger(st: State, g: nat)
    requires PumpCan(st, g, Route)
    ensures RouteMessage(st, g).ledger == st.ledger
  {
  }

  lemma PumpBalances(st: State, g: nat, move: PumpMove, id: nat)
    requires PumpCan(st, g, move)
    ensures Balances(st, PumpDoes(st, g, move), id)
  {
    if move.Route? {
      RoutePlaces(st, g, id);
      RouteKeepsLedger(st, g);
    } else if move.CloseQueues? {
      ClosePlaces(st, g, id);
    } else if move.ProcessExit? || move.ShutdownExpires? {
      PumpsUpdate(st.gens, g, PumpDoes(st, g, move).gens[g], id);
    } else {
      var st' := PumpDoes(st, g, move);
      PumpsUpdate(st.gens, g, st'.gens[g], id);
      assert st'.gens == st.gens[g := st'.gens[g]];
      TurnBalances(st, g, move, id);
    }
  }

  /** What leaves a worker's hands reaches a dialog or an answer. */
  lemma HandBalances(st: State, i: nat, move: WorkerMove, id: nat)
    requires WorkerCan(st, i, move) && !move.TakeNext? && !move.DrainQueue?
    ensures var st' := WorkerDoes(st, i, move);
            && st'.gens == st.gens && st'.ledger.received == st.ledger.received
            && st'.queues == st.queues[i := st'.queues[i]]
            && Held(st'.queues[i], id) + st'.ledger.dialogs[id] + st'.ledger.answered[id]
            == Held(st.queues[i], id) + st.ledger.dialogs[id] + st.ledger.answered[id]
  {
  }

  lemma WorkerBalances(st: State, i: nat, move: WorkerMove, id: nat)
    requires WorkerCan(st, i, move)
    ensures Balances(st, WorkerDoes(st, i, move), id)
  {
    var q := st.queues[i];
    var st' := WorkerDoes(st, i, move);
    QueuesUpdate(st.queues, i, st'.queues[i], id);
    if move.TakeNext? {
      TakeHolds(q, id);
    } else if move.DrainQueue? {
      assert Requests([]) == [];
    } else {
      HandBalances(st, i, move, id);
    }
  }

  lemma OtherBalances(st: State, move: OtherMove, id: nat)
    requires OtherCan(st, move)
    ensures Balances(st, OtherDoes(st, move), id)
  {
    if move.FenceQueue? {
      var i := st.events[(move.g, move.s)];
      QueuePlaces(st, i, Fence(st.queues[i]), id);
    }
  }

  lemma StepBalances(st: State, step: Step, id: nat)
    requires Enabled(st, step)
    ensures Balances(st, Apply(st, step), id)
  {
    match step
    case AgentStep(move) =>
      if move.Start? {
        PumpsAppend(st.gens, Generation(Reading, 0, false, false), id);
      }
    case PumpStep(g, move) => PumpBalances(st, g, move, id);
    case WorkerStep(i, move) => WorkerBalances(st, i, move, id);
    case OtherStep(move) => OtherBalances(st, move, id);
  }

  // ---- every reachable state ----

  ghost predicate Inv(st: State) {
    Shape(st) && AgentOk(st) && Conserved(st)
  }

  lemma StepKeepsInv(st: State, step: Step)
    requires Inv(st) && Enabled(st, step)
    ensures Inv(Apply(st, step))
  {
    StepKeepsShape(st, step);
    StepKeepsAgent(st, step);
    forall id: nat ensures Places(Apply(st, step), id) == Apply(st, step).ledger.received[id] {
      StepBalances(st, step, id);
      assert Places(st, id) == st.ledger.received[id];
    }
  }

  lemma {:induction false} RunKeepsInv(st: State, steps: seq<Step>)
    requires Inv(st) && Runs(st, steps)
    ensures Inv(After(st, steps))
    decreases |steps|
  {
    if steps != [] {
      StepKeepsInv(st, steps[0]);
      RunKeepsInv(Apply(st, steps[0]), steps[1..]);
    }
  }

  lemma InitialInv()
    ensures Inv(Initial)
  {
    forall id: nat ensures Places(Initial, id) == Initial.ledger.received[id] {
    }
  }

  lemma ReachableInv(steps: seq<Step>)
    requires Runs(Initial, steps)
    ensures Inv(After(Initial, steps))
  {
    InitialInv();
    RunKeepsInv(Initial, steps);
  }
}
