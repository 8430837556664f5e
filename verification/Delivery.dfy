/** The delivery protocol of agent_runtime.go as a transition system.

    One step is one critical section under `runtime.mu`, `a.mu` or `runtimeMu`, or one
    channel operation; goroutines are program counters. Timers, process exits, the host and
    the app-server are nondeterministic steps. A session is its object, so a restored
    session is a new one. Which session a record's thread resolves to is left open. */
module Delivery {
  import opened SessionQueues
  import opened Wrappers

  /** The pump of one generation. `Routing` has resolved a record's session and not yet
      entered routeMessage; `Refusing` is about to answer a request no queue took; `Spawning`
      is about to start the containment an overflow asks for; `Ended` has left the read loop;
      `Joining` waits for the workers; `Stopping` is the shutdown in generationEnded; `Dead`
      has set the dead flag; `Finished` has closed `runtime.done`. */
  datatype Pump =
    | Reading
    | Routing(message: Message, session: nat)
    | Refusing(id: nat, overflowed: Option<nat>)
    | Spawning(session: nat)
    | Ended
    | Joining
    | Stopping
    | Dead
    | Finished

  /** `read` counts the records taken off the native streams; `exited` is the process having
      been reaped, `expired` the shutdown wait having timed out. */
  datatype Generation = Generation(pump: Pump, read: nat, exited: bool, expired: bool)

  /** One call of retireQueue, from a containment the runtime waits for or from a prompt. */
  datatype Phase = Arrived | Awaiting(queue: nat) | Retired
  datatype Retirer = Retirer(gen: nat, session: nat, phase: Phase)

  datatype Launch = Free | Deciding | Launched(gen: nat)

  /** Every request received from the app-server, and where the unqueued ones are. */
  datatype Ledger = Ledger(received: multiset<nat>, dialogs: multiset<nat>, answered: multiset<nat>)

  /** The agent's own fields. `swapped` is stopRuntime having taken `victim` off the agent;
      `joined` is stopRuntime having returned. */
  datatype Agent = Agent(
    current: Option<nat>,
    launching: Launch,
    closed: bool,
    swapped: bool,
    victim: Option<nat>,
    joined: bool)

  datatype State = State(
    agent: Agent,
    gens: seq<Generation>,
    queues: seq<Queue>,
    events: map<(nat, nat), nat>,
    retirers: seq<Retirer>,
    closed: set<nat>,
    ledger: Ledger)

  const Initial: State :=
    State(Agent(None, Free, false, false, None, false), [], [], map[], [], {}, Ledger(multiset{}, multiset{}, multiset{}))

  predicate IsDead(g: Generation) {
    g.pump.Dead? || g.pump.Finished?
  }

  predicate PastJoin(p: Pump) {
    p.Stopping? || p.Dead? || p.Finished?
  }

  predicate PastClose(p: Pump) {
    p.Joining? || PastJoin(p)
  }

  function Key(q: Queue): (nat, nat) {
    (q.gen, q.session)
  }

  // ---- steps ----

  /** ensureRuntime, startRuntime, Agent.Close and stopRuntime. */
  datatype AgentMove = Decide | Decline | Start | Publish | Abort | Close | Swap | JoinVictim

  /** The pump of one generation and its process. */
  datatype PumpMove =
    | Receive(m: Message, s: nat) | ReceiveUnowned(id: nat) | Route | Refuse | Spawn
    | StreamsEnd | CloseQueues | JoinWorkers | ProcessExit | ShutdownExpires | MarkDead | Finish

  /** The worker of one queue. */
  datatype WorkerMove =
    | TakeNext | Leave | HandleEvent(settled: bool) | Resume | Abandon
    | OpenDialog | RefuseRequest | DrainQueue | AnswerNext | Exit

  /** Dialogs, fencing prompts, containments and closing sessions. */
  datatype OtherMove =
    | DialogAnswers(id: nat) | FenceQueue(g: nat, s: nat)
    | RetireArrives(g: nat, s: nat) | RetireReads(r: nat) | RetireJoins(r: nat)
    | SessionCloses(s: nat)

  datatype Step =
    | AgentStep(agent: AgentMove)
    | PumpStep(g: nat, pump: PumpMove)
    | WorkerStep(i: nat, work: WorkerMove)
    | OtherStep(other: OtherMove)

  predicate PumpIs(st: State, g: nat, p: Pump) {
    g < |st.gens| && st.gens[g].pump == p
  }

  predicate WorkerIs(st: State, i: nat, w: Worker) {
    i < |st.queues| && st.queues[i].worker == w
  }

  predicate AgentCan(st: State, move: AgentMove) {
    var a := st.agent;
    match move
    case Decide => a.launching == Free && !a.closed
                   && (a.current.Some? ==> a.current.value < |st.gens| && IsDead(st.gens[a.current.value]))
    case Decline => a.launching == Deciding
    case Start => a.launching == Deciding
    case Publish => a.launching.Launched?
    case Abort => a.launching.Launched? && PumpIs(st, a.launching.gen, Finished)
    case Close => !a.closed
    case Swap => a.closed && !a.swapped && a.launching == Free
    case JoinVictim => a.swapped && !a.joined && (a.victim.Some? ==> PumpIs(st, a.victim.value, Finished))
  }

  predicate AllExited(st: State, g: nat) {
    forall i | 0 <= i < |st.queues| && st.queues[i].gen == g :: st.queues[i].worker.Exited?
  }

  predicate PumpCan(st: State, g: nat, move: PumpMove) {
    && g < |st.gens|
    && var p := st.gens[g].pump;
       match move
       case Receive(m, s) => p.Reading? && m.at == st.gens[g].read
       case ReceiveUnowned(id) => p.Reading?
       case Route => p.Routing? && ((g, p.session) in st.events ==> st.events[(g, p.session)] < |st.queues|)
       case Refuse => p.Refusing?
       case Spawn => p.Spawning?
       case StreamsEnd => p.Reading?
       case CloseQueues => p.Ended?
       case JoinWorkers => p.Joining? && AllExited(st, g)
       case ProcessExit => true
       case ShutdownExpires => p.Stopping?
       case MarkDead => p.Stopping? && (st.gens[g].exited || st.gens[g].expired)
       case Finish => p.Dead?
  }

  predicate WorkerCan(st: State, i: nat, move: WorkerMove) {
    && i < |st.queues|
    && var q := st.queues[i];
       var w := q.worker;
       match move
       case TakeNext => w.Selecting? && q.messages != []
       case Leave => w.Selecting?
                     && ((q.closes > 0 && q.messages == []) || q.dones > 0 || q.session in st.closed)
       case HandleEvent(settled) => w.Handling? && w.message.Event?
       case Resume => w.Parked?
       case Abandon => w.Parked? && (q.dones > 0 || (q.gen < |st.gens| && st.gens[q.gen].exited))
       case OpenDialog => w.Handling? && w.message.Request?
       case RefuseRequest => w.Handling? && w.message.Request?
       case DrainQueue => w.Leaving?
       case AnswerNext => w.Answering? && w.pending != []
       case Exit => w == Answering([])
  }

  predicate OtherCan(st: State, move: OtherMove) {
    match move
    case DialogAnswers(id) => id in st.ledger.dialogs
    case FenceQueue(g, s) => (g, s) in st.events && st.events[(g, s)] < |st.queues|
    case RetireArrives(g, s) => true
    case RetireReads(r) => r < |st.retirers| && st.retirers[r].phase == Arrived
    case RetireJoins(r) => r < |st.retirers| && st.retirers[r].phase.Awaiting?
                           && WorkerIs(st, st.retirers[r].phase.queue, Exited)
    case SessionCloses(s) => true
  }

  predicate Enabled(st: State, step: Step) {
    match step
    case AgentStep(move) => AgentCan(st, move)
    case PumpStep(g, move) => PumpCan(st, g, move)
    case WorkerStep(i, move) => WorkerCan(st, i, move)
    case OtherStep(move) => OtherCan(st, move)
  }

  function SetGen(st: State, g: nat, x: Generation): State
    requires g < |st.gens|
  {
    st.(gens := st.gens[g := x])
  }

  function SetPump(st: State, g: nat, p: Pump): State
    requires g < |st.gens|
  {
    SetGen(st, g, st.gens[g].(pump := p))
  }

  function ReadOne(st: State, g: nat): State
    requires g < |st.gens|
  {
    SetGen(st, g, st.gens[g].(read := st.gens[g].read + 1))
  }

  function SetQueue(st: State, i: nat, q: Queue): State
    requires i < |st.queues|
  {
    st.(queues := st.queues[i := q])
  }

  function SetWorker(st: State, i: nat, w: Worker): State
    requires i < |st.queues|
  {
    SetQueue(st, i, st.queues[i].(worker := w))
  }

  function SetPhase(st: State, r: nat, phase: Phase): State
    requires r < |st.retirers|
  {
    st.(retirers := st.retirers[r := st.retirers[r].(phase := phase)])
  }

  function Receipt(st: State, id: nat): State {
    st.(ledger := st.ledger.(received := st.ledger.received + multiset{id}))
  }

  function Open(st: State, id: nat): State {
    st.(ledger := st.ledger.(dialogs := st.ledger.dialogs + multiset{id}))
  }

  function Shut(st: State, id: nat): State {
    st.(ledger := st.ledger.(dialogs := st.ledger.dialogs - multiset{id}))
  }

  function Answer(st: State, id: nat): State {
    st.(ledger := st.ledger.(answered := st.ledger.answered + multiset{id}))
  }

  /** The queue routeMessage finds for a session, created with its worker when there is none. */
  function WithQueueFor(st: State, g: nat, s: nat): State {
    if (g, s) in st.events then st
    else st.(queues := st.queues + [Fresh(g, s)], events := st.events[(g, s) := |st.queues|])
  }

  function AfterRefusal(overflowed: Option<nat>): Pump {
    if overflowed.Some? then Spawning(overflowed.value) else Reading
  }

  /** A refused record: a request is answered unowned, an event is dropped. */
  function Refused(m: Message, overflowed: Option<nat>): Pump {
    match m
    case Request(_, id) => Refusing(id, overflowed)
    case Event(_) => AfterRefusal(overflowed)
  }

  /** Offering a record to its queue: what the queue refuses the pump answers or drops, and a
      queue it had to fence has its session contained. */
  function Offer(st: State, g: nat, i: nat, m: Message): State
    requires g < |st.gens| && i < |st.queues|
  {
    var (outcome, q) := Offered(st.queues[i], m);
    var next := match outcome
      case Queued => Reading
      case Dropped => Refused(m, None)
      case Overflowed => Refused(m, Some(q.session));
    SetPump(SetQueue(st, i, q), g, next)
  }

  /** routeMessage's critical section (agent_runtime.go:371-431). */
  function RouteMessage(st: State, g: nat): State
    requires PumpCan(st, g, Route)
  {
    var m, s := st.gens[g].pump.message, st.gens[g].pump.session;
    if s in st.closed then SetPump(st, g, Refused(m, None))
    else Offer(WithQueueFor(st, g, s), g, WithQueueFor(st, g, s).events[(g, s)], m)
  }

  predicate RegisteredIn(st: State, i: nat)
    requires i < |st.queues|
  {
    Key(st.queues[i]) in st.events && st.events[Key(st.queues[i])] == i
  }

  /** The pump's deferred close of every registered queue (agent_runtime.go:327-332). */
  function CloseAll(st: State, g: nat): seq<Queue> {
    seq(|st.queues|, i requires 0 <= i < |st.queues| =>
      if st.queues[i].gen == g && RegisteredIn(st, i) then CloseMessages(st.queues[i]) else st.queues[i])
  }

  function AgentDoes(st: State, move: AgentMove): State
    requires AgentCan(st, move)
  {
    var a := st.agent;
    match move
    case Decide => st.(agent := a.(launching := Deciding))
    case Decline => st.(agent := a.(launching := Free))
    case Start => st.(gens := st.gens + [Generation(Reading, 0, false, false)], agent := a.(launching := Launched(|st.gens|)))
    case Publish => st.(agent := a.(current := Some(a.launching.gen), launching := Free))
    case Abort => st.(agent := a.(launching := Free))
    case Close => st.(agent := a.(closed := true))
    case Swap => st.(agent := a.(victim := a.current, current := None, swapped := true))
    case JoinVictim => st.(agent := a.(joined := true))
  }

  function PumpDoes(st: State, g: nat, move: PumpMove): State
    requires PumpCan(st, g, move)
  {
    var p := st.gens[g].pump;
    match move
    case Receive(m, s) =>
      SetPump(ReadOne(if m.Request? then Receipt(st, m.id) else st, g), g, Routing(m, s))
    case ReceiveUnowned(id) => SetPump(ReadOne(Receipt(st, id), g), g, Refusing(id, None))
    case Route => RouteMessage(st, g)
    case Refuse => Answer(SetPump(st, g, AfterRefusal(p.overflowed)), p.id)
    case Spawn => SetPump(st.(retirers := st.retirers + [Retirer(g, p.session, Arrived)]), g, Reading)
    case StreamsEnd => SetPump(st, g, Ended)
    case CloseQueues => SetPump(st.(queues := CloseAll(st, g)), g, Joining)
    case JoinWorkers => SetPump(st, g, Stopping)
    case ProcessExit => SetGen(st, g, st.gens[g].(exited := true))
    case ShutdownExpires => SetGen(st, g, st.gens[g].(expired := true))
    case MarkDead => SetPump(st, g, Dead)
    case Finish => SetPump(st, g, Finished)
  }

  function WorkerDoes(st: State, i: nat, move: WorkerMove): State
    requires WorkerCan(st, i, move)
  {
    var q := st.queues[i];
    match move
    case TakeNext => SetQueue(st, i, Take(q))
    case Leave => SetWorker(st, i, Leaving)
    case HandleEvent(settled) => SetWorker(st, i, if settled then Parked else Selecting)
    case Resume => SetWorker(st, i, Selecting)
    case Abandon => SetWorker(st, i, Leaving)
    case OpenDialog => SetWorker(Open(st, q.worker.message.id), i, Selecting)
    case RefuseRequest => SetWorker(Answer(st, q.worker.message.id), i, Selecting)
    case DrainQueue => SetQueue(if q.session in st.closed then st.(events := st.events - {Key(q)}) else st, i, Drain(q))
    case AnswerNext => SetWorker(Answer(st, q.worker.pending[0]), i, Answering(q.worker.pending[1..]))
    case Exit => SetWorker(st, i, Exited)
  }

  function OtherDoes(st: State, move: OtherMove): State
    requires OtherCan(st, move)
  {
    match move
    case DialogAnswers(id) => Answer(Shut(st, id), id)
    case FenceQueue(g, s) => SetQueue(st, st.events[(g, s)], Fence(st.queues[st.events[(g, s)]]))
    case RetireArrives(g, s) => st.(retirers := st.retirers + [Retirer(g, s, Arrived)])
    case RetireReads(r) =>
      var key := (st.retirers[r].gen, st.retirers[r].session);
      SetPhase(st, r, if key in st.events then Awaiting(st.events[key]) else Retired)
    case RetireJoins(r) =>
      var key := (st.retirers[r].gen, st.retirers[r].session);
      var ours := key in st.events && st.events[key] == st.retirers[r].phase.queue;
      SetPhase(if ours then st.(events := st.events - {key}) else st, r, Retired)
    case SessionCloses(s) => st.(closed := st.closed + {s})
  }

  function Apply(st: State, step: Step): State
    requires Enabled(st, step)
  {
    match step
    case AgentStep(move) => AgentDoes(st, move)
    case PumpStep(g, move) => PumpDoes(st, g, move)
    case WorkerStep(i, move) => WorkerDoes(st, i, move)
    case OtherStep(move) => OtherDoes(st, move)
  }

  /** The run of a list of steps, each enabled where it is taken. */
  predicate Runs(st: State, steps: seq<Step>)
    decreases |steps|
  {
    steps == [] || (Enabled(st, steps[0]) && Runs(Apply(st, steps[0]), steps[1..]))
  }

  function After(st: State, steps: seq<Step>): State
    requires Runs(st, steps)
    decreases |steps|
  {
    if steps == [] then st else After(Apply(st, steps[0]), steps[1..])
  }
}
