/** How one session's prompts settle (session.go, session_prompt.go, session_lifecycle.go), as
    a transition system over the prompt, the workers of the session's queues, containments,
    the end of a generation, the host's cancel and close, and the dialogs.

    One step is one critical section under `s.mu`, `runtime.mu` or `lcMu`, or one channel
    operation. A cancelDialogs that follows a flag which already refuses new dialogs is part of
    that flag's step. What the host and the app-server do, and every timer, is left open. */
module Settlement {
  import opened Wrappers

  /** How a turn ended: turnRunning, turnSettled, turnTransportEnded, turnContained. */
  datatype End = Running | Settled | TransportEnded | Contained

  datatype Stop = EndTurn | StopCancelled | StopError

  datatype Kind = Work | Completed(stop: Stop) | Failing | Compaction | Other

  /** A native record, and the turn it names; 0 stands for naming none. */
  datatype Record = Record(kind: Kind, turn: nat)

  /** The run of one accepted prompt; `provider` says the failure it recorded first is one the
      provider reported, `records` is what the cycle took in. */
  datatype Cycle = Cycle(
    cancelled: bool,
    settling: bool,
    native: nat,
    failure: bool,
    provider: bool,
    stop: Option<Stop>,
    records: seq<Record>)

  /** One accepted prompt. `prior` is the last terminalized native turn when the turn was
      installed, `settledBy` the worker that settled it. */
  datatype Turn = Turn(
    gen: nat,
    prior: nat,
    cycle: Cycle,
    accepted: bool,
    ended: End,
    settledBy: Option<nat>,
    finished: bool)

  datatype Session = Session(
    current: Option<nat>,
    bound: Option<nat>,
    lost: bool,
    closing: bool,
    closed: bool,
    lastTerminal: nat,
    fenced: bool)

  /** `callbacks` is the wait group's count; `mapped` is `s.dialogs`, from request ids to
      entries; `open` holds the entries whose unregister has not finished. */
  datatype Calls = Calls(
    mapped: map<nat, nat>,
    open: set<nat>,
    told: set<nat>,
    interrupts: nat,
    callbacks: int,
    next: nat)

  /** handleEvent between its critical sections: `Holding` has read the session's turn,
      `Projecting` has read the cycle, `Parked` waits for the settled prompt to finish. */
  datatype WorkerAt =
    | Idle
    | Holding(turn: nat, record: Record)
    | Projecting(turn: nat, record: Record, foreign: bool, cancelled: bool)
    | Parked(turn: nat)
    | Exited

  /** `late` marks a worker whose queue was created during a turn that was already ended, lost
      or unbound. */
  datatype Worker = Worker(gen: nat, fenced: bool, late: bool, at: WorkerAt)

  /** session.contain. `Checking` is before its first critical section; `onlyRetires` is the
      branch that found the session bound elsewhere. */
  datatype ContainAt = Checking | Quieting | Retiring | Joining(worker: nat) | Unbinding | Settling | Done
  datatype Container = Container(gen: nat, pooled: bool, onlyRetires: bool, turn: Option<nat>, at: ContainAt)

  /** session.runtimeEnded. */
  datatype EndAt = EndChecking | EndQuieting | EndUnbinding | EndSettling | EndDone
  datatype Ender = Ender(gen: nat, turn: Option<nat>, at: EndAt)

  datatype Outcome = Success | Cancelled | Failed

  /** cycleVerdict: `failing` is a non-nil failure. */
  datatype Verdict = Verdict(outcome: Outcome, failing: bool)

  datatype Response = AnswerEndTurn | AnswerCancelled | AnswerError

  /** What settleTurn did: the commit's result, the claimed cancellation, the idle event the
      stream delivered, the answer. */
  datatype Settlement = Settlement(committed: bool, claimed: bool, idle: Option<Outcome>, idleFailed: bool, answer: Response)

  datatype Prompt =
    | NoPrompt
    | Bound(gen: nat)
    | Starting(turn: nat)
    | Waiting(turn: nat)
    | Cancelling(turn: nat)
    | Grace(turn: nat)
    | Stopping(turn: nat)
    | Containing(turn: nat, container: nat)
    | ForceSettling(turn: nat)
    | Admitting(turn: nat)
    | QuietingCalls(turn: nat)
    | Judging(turn: nat)
    | Deciding(turn: nat, cancelled: bool)
    | Committing(turn: nat, cancelled: bool, verdict: Verdict, repairs: bool)
    | Claiming(turn: nat, verdict: Verdict, committed: bool)
    | Publishing(turn: nat, verdict: Verdict, committed: bool, claimed: bool)
    | Removing(turn: nat, settlement: Option<Settlement>)
    | Finishing(turn: nat)

  /** `dying` holds the generations whose process exited, `ended` those whose runtimeEnded has
      begun. */
  datatype State = State(
    session: Session,
    turns: seq<Turn>,
    calls: Calls,
    workers: seq<Worker>,
    registered: map<nat, nat>,
    containers: seq<Container>,
    enders: seq<Ender>,
    ended: set<nat>,
    dying: set<nat>,
    prompt: Prompt)

  const Initial: State := State(
    Session(None, None, false, false, false, 0, true),
    [],
    Calls(map[], {}, {}, 0, 0, 0),
    [], map[], [], [], {}, {},
    NoPrompt)

  // ---- what no step takes back ----

  /** Steps never take back a cancel mark, a failure or an end. */
  predicate TurnGoesOn(t: Turn, t': Turn) {
    && t'.gen == t.gen && t'.prior == t.prior
    && (t.cycle.cancelled ==> t'.cycle.cancelled)
    && (t.cycle.settling ==> t'.cycle.settling)
    && (t.accepted ==> t'.accepted)
    && (t.cycle.failure ==> t'.cycle.failure && t'.cycle.provider == t.cycle.provider)
    && (t.finished ==> t'.finished)
    && (t.cycle.native != 0 ==> t'.cycle.native == t.cycle.native)
    && (!t.ended.Running? ==> t'.ended == t.ended && t'.settledBy == t.settledBy)
    && t.cycle.records <= t'.cycle.records
  }

  predicate TurnsGoOn(st: State, st': State) {
    |st.turns| <= |st'.turns| && forall t | 0 <= t < |st.turns| :: TurnGoesOn(st.turns[t], st'.turns[t])
  }

  // ---- the functions the steps share ----

  /** turn.settle: the first end wins. */
  function Settle(t: Turn, end: End, worker: Option<nat>): Turn {
    if t.ended.Running? then t.(ended := end, settledBy := worker) else t
  }

  /** recordFailure keeps the first failure; this one is not the provider's. */
  function Fail(t: Turn): Turn {
    t.(cycle := t.cycle.(failure := true, provider := t.cycle.failure && t.cycle.provider))
  }

  /** A failure the provider reported. */
  function FailByProvider(t: Turn): Turn {
    t.(cycle := t.cycle.(failure := true, provider := !t.cycle.failure || t.cycle.provider))
  }

  function Mark(t: Turn): Turn {
    t.(cycle := t.cycle.(cancelled := true))
  }

  /** The first native turn id a cycle learns is its own. */
  function Named(t: Turn, native: nat): Turn {
    if t.cycle.native == 0 then t.(cycle := t.cycle.(native := native)) else t
  }

  /** acceptTurn: the first acceptance publishes, and one the host refuses is a failure. */
  function Accepted(t: Turn, refused: bool): Turn {
    if t.accepted then t else (if refused then Fail(t) else t).(accepted := true)
  }

  function Admit(t: Turn): Turn {
    t.(cycle := t.cycle.(settling := true))
  }

  function TellAll(c: Calls): Calls {
    c.(told := c.told + c.mapped.Values)
  }

  predicate InFlight(st: State) {
    st.session.current.Some? && st.session.current.value < |st.turns|
  }

  /** registerDialog's refusal (session.go:546). */
  predicate RefusesDialog(st: State) {
    var s := st.session;
    s.closing || s.bound.None? || s.lost
    || (InFlight(st) && (st.turns[s.current.value].cycle.cancelled || st.turns[s.current.value].cycle.settling))
  }

  /** session.cancel's critical section and the dialogs it ends (session.go:479-524). */
  function CancelCurrent(st: State): State {
    if !InFlight(st) || st.turns[st.session.current.value].cycle.cancelled then st
    else
      var t := st.session.current.value;
      var interrupts := !st.turns[t].cycle.settling && st.session.bound.Some? && !st.session.closing && !st.session.lost;
      var calls := TellAll(st.calls);
      st.(turns := st.turns[t := Mark(st.turns[t])],
          calls := if interrupts then calls.(interrupts := calls.interrupts + 1, callbacks := calls.callbacks + 1) else calls)
  }

  /** The verdict of settleTurn's switch and of judgeCycle (session_prompt.go:301-351), after the
      cancel mark was read. */
  function Judge(t: Turn, cancelled: bool): Verdict {
    if cancelled then Verdict(Cancelled, false)
    else if t.ended.Contained? then Verdict(Failed, t.cycle.failure)
    else if t.ended.TransportEnded? then Verdict(Failed, true)
    else if t.cycle.failure then Verdict(Failed, true)
    else if t.cycle.stop == Some(StopError) then Verdict(Failed, true)
    else if t.cycle.stop == Some(StopCancelled) then Verdict(Cancelled, false)
    else Verdict(Success, false)
  }

  /** The verdict is a refusal the provider reported for a turn that ended natively: its thread
      may be repaired (session_prompt.go:353-359). */
  predicate Repairs(t: Turn, cancelled: bool) {
    t.ended.Settled? && !cancelled && (if t.cycle.failure then t.cycle.provider else t.cycle.stop == Some(StopError))
  }

  /** The answer settleTurn's last lines give (session_prompt.go:386-399). */
  function AnswerOf(v: Verdict): Response {
    if v.failing then AnswerError
    else match v.outcome
      case Cancelled => AnswerCancelled
      case Success => AnswerEndTurn
      case Failed => AnswerError
  }

  function FreshTurn(gen: nat, s: Session): Turn {
    Turn(gen, s.lastTerminal, Cycle(false, false, 0, false, false, None, []), false, Running, None, false)
  }

  function SetTurn(st: State, t: nat, x: Turn): State
    requires t < |st.turns|
  {
    st.(turns := st.turns[t := x])
  }

  function SetWorkerAt(st: State, w: nat, at: WorkerAt): State
    requires w < |st.workers|
  {
    st.(workers := st.workers[w := st.workers[w].(at := at)])
  }

  function SetContainer(st: State, c: nat, x: Container): State
    requires c < |st.containers|
  {
    st.(containers := st.containers[c := x])
  }

  function SetEnder(st: State, e: nat, x: Ender): State
    requires e < |st.enders|
  {
    st.(enders := st.enders[e := x])
  }

  /** A queue fenced with stopQueue or by an overflow. */
  function FenceWorker(st: State, w: nat): State
    requires w < |st.workers|
  {
    st.(workers := st.workers[w := st.workers[w].(fenced := true)])
  }

  /** Apart from the prompt nothing binds the session, installs a turn or removes one. */
  predicate OnlyUnbinds(s: Session, s': Session) {
    && s'.current == s.current && s'.lastTerminal == s.lastTerminal
    && (s'.bound == s.bound || s'.bound.None?)
    && (s.lost ==> s'.lost)
  }

  /** The binding goes if it still is the given generation's. */
  function LoseBinding(st: State, gen: nat): (r: State)
    ensures r == st || r == st.(session := st.session.(bound := None))
    ensures OnlyUnbinds(st.session, r.session)
  {
    if st.session.bound != Some(gen) then st else st.(session := st.session.(bound := None))
  }

  function FenceIdle(s: Session): Session {
    s.(fenced := s.fenced || !s.closing)
  }

  // ---- the prompt ----

  /** `Rebind` binds and opens the stream; `BindOnly` binds and is refused the stream, because
      the session is closing or the generation is dying. */
  datatype PromptMove =
    | UseBinding(gen: nat) | Rebind(gen: nat) | BindOnly(gen: nat) | GiveUp
    | Install | StartRefused | StartAnswered(native: nat, refused: bool)
    | SeeSettled | SeeCancelled | Cancel | GraceOut | Stop | JoinContainer | ForceSettle
    | BeginSettlement | CallsQuiet | ReadMark | JudgeTurn | RepairRebinds | RepairUnbinds
    | Commit(ok: bool) | Claim | Publish(ok: bool) | Remove | Finish

  /** The session is bound on no generation, or on one that is over. */
  predicate Unserved(st: State) {
    st.session.bound.None? || st.session.bound.value in st.ended
  }

  predicate PromptCan(st: State, move: PromptMove) {
    var p := st.prompt;
    match move
    case UseBinding(gen) => p.NoPrompt? && st.session.bound == Some(gen) && !st.session.lost && gen !in st.ended
    case Rebind(gen) => p.NoPrompt? && !st.session.closing && Unserved(st) && gen !in st.ended
    case BindOnly(gen) => p.NoPrompt? && Unserved(st) && gen !in st.ended
    case GiveUp => p.Bound?
    case Install => p.Bound?
    case StartRefused => p.Starting? && p.turn < |st.turns| && !st.turns[p.turn].accepted
    case StartAnswered(native, _) => p.Starting? && p.turn < |st.turns| && (native != 0 || st.turns[p.turn].accepted)
    case SeeSettled => (p.Waiting? || p.Grace?) && p.turn < |st.turns| && !st.turns[p.turn].ended.Running?
    case SeeCancelled => p.Waiting?
    case Cancel => p.Cancelling?
    case GraceOut => p.Grace?
    case Stop => p.Stopping? && p.turn < |st.turns|
                 && (var gen := st.turns[p.turn].gen; gen in st.registered ==> st.registered[gen] < |st.workers|)
    case JoinContainer => p.Containing? && p.container < |st.containers| && st.containers[p.container].at.Done?
    case ForceSettle => p.ForceSettling? && p.turn < |st.turns|
    case BeginSettlement => p.Admitting? && p.turn < |st.turns|
    case CallsQuiet => p.QuietingCalls? && st.calls.callbacks == 0
    case ReadMark => p.Judging? && p.turn < |st.turns|
    case JudgeTurn => p.Deciding? && p.turn < |st.turns|
    case RepairRebinds => p.Committing? && p.turn < |st.turns| && st.turns[p.turn].ended.Settled? && p.repairs
    case RepairUnbinds => p.Committing? && p.turn < |st.turns| && st.turns[p.turn].ended.Settled? && p.repairs
    case Commit(ok) => p.Committing?
    case Claim => p.Claiming? && p.turn < |st.turns|
    case Publish(ok) => p.Publishing?
    case Remove => p.Removing? && p.turn < |st.turns|
    case Finish => p.Finishing? && p.turn < |st.turns|
  }

  function PromptDoes(st: State, move: PromptMove): (r: State)
    requires PromptCan(st, move)
    ensures r.enders == st.enders && r.ended == st.ended && r.registered == st.registered
    ensures |r.workers| == |st.workers| && st.containers <= r.containers
    ensures forall d | |st.containers| <= d < |r.containers| :: r.containers[d].at.Checking?
  {
    var p := st.prompt;
    var s := st.session;
    match move
    case UseBinding(gen) => st.(prompt := Bound(gen))
    case Rebind(gen) => st.(session := s.(bound := Some(gen), lost := false, fenced := false), prompt := Bound(gen))
    case BindOnly(gen) => st.(session := s.(bound := Some(gen), lost := false))
    case GiveUp => st.(prompt := NoPrompt)
    case Install =>
      st.(turns := st.turns + [FreshTurn(p.gen, s)],
          session := s.(current := Some(|st.turns|)),
          prompt := Starting(|st.turns|))
    case StartRefused => st.(prompt := Removing(p.turn, None))
    case StartAnswered(native, refused) =>
      SetTurn(st, p.turn, Accepted(Named(st.turns[p.turn], native), refused)).(prompt := Waiting(p.turn))
    case SeeSettled => st.(prompt := Admitting(p.turn))
    case SeeCancelled => st.(prompt := Cancelling(p.turn))
    case Cancel => CancelCurrent(st).(prompt := Grace(p.turn))
    case GraceOut => st.(prompt := Stopping(p.turn))
    case Stop =>
      var gen := st.turns[p.turn].gen;
      var st1 := if gen in st.registered then FenceWorker(st, st.registered[gen]) else st;
      st1.(containers := st.containers + [Container(gen, false, false, None, Checking)],
           prompt := Containing(p.turn, |st.containers|))
    case JoinContainer => st.(prompt := ForceSettling(p.turn))
    case ForceSettle => SetTurn(st, p.turn, Settle(st.turns[p.turn], Contained, None)).(prompt := Admitting(p.turn))
    case BeginSettlement =>
      SetTurn(st, p.turn, Admit(st.turns[p.turn])).(calls := TellAll(st.calls), prompt := QuietingCalls(p.turn))
    case CallsQuiet => st.(prompt := Judging(p.turn))
    case ReadMark => st.(prompt := Deciding(p.turn, st.turns[p.turn].cycle.cancelled))
    case JudgeTurn =>
      var t := st.turns[p.turn];
      st.(prompt := Committing(p.turn, p.cancelled, Judge(t, p.cancelled), Repairs(t, p.cancelled)))
    case RepairRebinds => st.(session := s.(bound := Some(st.turns[p.turn].gen), lost := false))
    case RepairUnbinds =>
      var gen := st.turns[p.turn].gen;
      st.(session := if s.bound == Some(gen) then s.(bound := None, lost := true) else s)
    case Commit(ok) =>
      if ok then st.(prompt := Claiming(p.turn, p.verdict, true))
      else st.(session := s.(bound := None, fenced := true), prompt := Claiming(p.turn, Verdict(Failed, true), false))
    case Claim =>
      var claimed := st.turns[p.turn].cycle.cancelled;
      st.(prompt := Publishing(p.turn, if claimed && p.committed then Verdict(Cancelled, false) else p.verdict, p.committed, claimed))
    case Publish(ok) =>
      var idle := if ok && !s.fenced then Some(p.verdict.outcome) else None;
      var idleFailed := !ok && !s.fenced;
      var v := if idleFailed then p.verdict.(failing := true) else p.verdict;
      st.(prompt := Removing(p.turn, Some(Settlement(p.committed, p.claimed, idle, idleFailed, AnswerOf(v)))))
    case Remove =>
      var t := st.turns[p.turn];
      st.(session := s.(current := if s.current == Some(p.turn) then None else s.current,
                        lastTerminal := if t.cycle.native != 0 then t.cycle.native else s.lastTerminal,
                        fenced := s.fenced || s.lost || t.ended.TransportEnded?),
          prompt := Finishing(p.turn))
    case Finish => SetTurn(st, p.turn, st.turns[p.turn].(finished := true)).(prompt := NoPrompt)
  }

  // ---- workers ----

  datatype WorkerMove =
    | Read(record: Record) | Stamp(refused: bool) | Project(refused: bool) | Resume | Leave | Overflow

  predicate WorkerCan(st: State, w: nat, move: WorkerMove) {
    && w < |st.workers|
    && var at := st.workers[w].at;
       match move
       case Read(record) => at.Idle?
       case Stamp(_) => at.Holding? && at.turn < |st.turns|
       case Project(_) => at.Projecting? && at.turn < |st.turns|
       case Resume => at.Parked? && at.turn < |st.turns| && st.turns[at.turn].finished
       case Leave => (at.Idle? || at.Parked?)
                     && (st.workers[w].fenced || st.workers[w].gen in st.dying || (at.Idle? && st.session.closed))
       case Overflow => !st.workers[w].fenced && st.workers[w].gen in st.registered && st.registered[st.workers[w].gen] == w
                        && st.workers[w].gen !in st.ended
  }

  /** The turn a record is attributed to: none for an unbound session, an idle one, or a record
      of the turn this session last terminalized (session.go:306-336). */
  function Attributed(st: State, gen: nat, record: Record): Option<nat> {
    var s := st.session;
    if s.bound != Some(gen) then None
    else if record.turn != 0 && record.turn == s.lastTerminal then None
    else s.current
  }

  /** A record that says the thread works accepts the turn, and the first record that names a
      turn names the cycle's, unless it reports a compaction (session.go:338-340,
      session_updates.go:79-92). */
  function Stamped(t: Turn, record: Record, refused: bool): Turn {
    var named := if record.kind.Compaction? then t else Named(t, record.turn);
    if record.kind.Work? then Accepted(named, refused) else named
  }

  predicate Foreign(t: Turn, record: Record) {
    t.cycle.native != 0 && record.turn != 0 && record.turn != t.cycle.native
  }

  function Taken(t: Turn, record: Record): Turn {
    t.(cycle := t.cycle.(records := t.cycle.records + [record]))
  }

  /** What a record taken in says of the run. */
  function Accounted(t: Turn, kind: Kind, worker: nat, refused: bool): Turn {
    match kind
    case Completed(stop) => Settle(t.(cycle := t.cycle.(stop := Some(stop))), Settled, Some(worker))
    case Failing => FailByProvider(t)
    case _ => if refused then Fail(t) else t
  }

  /** The cycle after a record of it: a compaction only reports, a foreign record changes
      nothing, a cancelled cycle takes in only its end; an update the host refuses is a failure
      (session_updates.go:78-148). */
  function Projected(t: Turn, at: WorkerAt, worker: nat, refused: bool): Turn
    requires at.Projecting?
  {
    if at.record.kind.Compaction? then (if refused then Fail(t) else t)
    else if at.foreign then t
    else if at.cancelled then (if at.record.kind.Completed? then Settle(t, Settled, Some(worker)) else t)
    else Accounted(Taken(t, at.record), at.record.kind, worker, refused)
  }

  function WorkerDoes(st: State, w: nat, move: WorkerMove): (r: State)
    requires WorkerCan(st, w, move)
    ensures r.prompt == st.prompt && r.session == st.session && r.calls == st.calls
    ensures r.registered == st.registered && r.enders == st.enders && r.ended == st.ended
    ensures |r.turns| == |st.turns| && |r.workers| == |st.workers| && st.containers <= r.containers
    ensures forall d | |st.containers| <= d < |r.containers| :: r.containers[d].at.Checking?
  {
    var x := st.workers[w];
    match move
    case Read(record) =>
      var turn := Attributed(st, x.gen, record);
      if turn.Some? then SetWorkerAt(st, w, Holding(turn.value, record)) else st
    case Stamp(refused) =>
      var t := Stamped(st.turns[x.at.turn], x.at.record, refused);
      SetWorkerAt(SetTurn(st, x.at.turn, t), w, Projecting(x.at.turn, x.at.record, Foreign(t, x.at.record), t.cycle.cancelled))
    case Project(refused) =>
      var ends := !x.at.foreign && x.at.record.kind.Completed?;
      SetWorkerAt(SetTurn(st, x.at.turn, Projected(st.turns[x.at.turn], x.at, w, refused)), w, if ends then Parked(x.at.turn) else Idle)
    case Resume => SetWorkerAt(st, w, Idle)
    case Leave => SetWorkerAt(st, w, Exited)
    case Overflow =>
      FenceWorker(st, w).(containers := st.containers + [Container(x.gen, true, false, None, Checking)])
  }

  // ---- containments and generation ends ----

  datatype ContainMove = Check | Quiet | Retire | Join | LetGo | SettleContained

  predicate ContainCan(st: State, c: nat, move: ContainMove) {
    && c < |st.containers|
    && var at := st.containers[c].at;
       match move
       case Check => at.Checking?
       case Quiet => at.Quieting? && st.calls.callbacks == 0
       case Retire => at.Retiring?
       case Join => at.Joining? && at.worker < |st.workers| && st.workers[at.worker].at.Exited?
       case LetGo => at.Unbinding?
       case SettleContained => at.Settling? && st.containers[c].turn.Some? && st.containers[c].turn.value < |st.turns|
  }

  function AfterRetire(x: Container): ContainAt {
    if x.onlyRetires then Done else Unbinding
  }

  function ContainDoes(st: State, c: nat, move: ContainMove): (r: State)
    requires ContainCan(st, c, move)
    ensures r.prompt == st.prompt && r.workers == st.workers && r.enders == st.enders && r.ended == st.ended
    ensures OnlyUnbinds(st.session, r.session)
    ensures r.calls == st.calls || r.calls == TellAll(st.calls)
    ensures |r.turns| == |st.turns| && |r.containers| == |st.containers|
    ensures forall d | 0 <= d < |st.containers| && d != c :: r.containers[d] == st.containers[d]
  {
    var x := st.containers[c];
    var s := st.session;
    match move
    case Check =>
      if s.bound != Some(x.gen) then SetContainer(st, c, x.(onlyRetires := true, at := Retiring))
      else SetContainer(st, c, x.(turn := s.current, at := Quieting)).(session := s.(lost := true), calls := TellAll(st.calls))
    case Quiet =>
      var st1 := SetContainer(st, c, x.(at := Retiring));
      if x.turn.Some? && x.turn.value < |st.turns| then SetTurn(st1, x.turn.value, Fail(st.turns[x.turn.value])) else st1
    case Retire =>
      SetContainer(st, c, x.(at := if x.gen in st.registered then Joining(st.registered[x.gen]) else AfterRetire(x)))
    case Join =>
      var ours := x.gen in st.registered && st.registered[x.gen] == x.at.worker;
      SetContainer(st, c, x.(at := AfterRetire(x))).(registered := if ours then st.registered - {x.gen} else st.registered)
    case LetGo =>
      var st1 := LoseBinding(st, x.gen);
      if x.turn.Some? then SetContainer(st1, c, x.(at := Settling))
      else SetContainer(st1, c, x.(at := Done)).(session := FenceIdle(st1.session))
    case SettleContained =>
      SetTurn(SetContainer(st, c, x.(at := Done)), x.turn.value, Settle(st.turns[x.turn.value], Contained, None))
  }

  datatype EndMove = EndCheck | EndQuiet | EndLetGo | EndSettle

  predicate EndCan(st: State, e: nat, move: EndMove) {
    && e < |st.enders|
    && var at := st.enders[e].at;
       match move
       case EndCheck => at.EndChecking?
       case EndQuiet => at.EndQuieting? && st.calls.callbacks == 0
       case EndLetGo => at.EndUnbinding?
       case EndSettle => at.EndSettling? && st.enders[e].turn.Some? && st.enders[e].turn.value < |st.turns|
  }

  function EndDoes(st: State, e: nat, move: EndMove): (r: State)
    requires EndCan(st, e, move)
    ensures r.prompt == st.prompt && r.workers == st.workers && r.containers == st.containers
    ensures OnlyUnbinds(st.session, r.session)
    ensures r.registered == st.registered && r.ended == st.ended
    ensures r.calls == st.calls || r.calls == TellAll(st.calls)
    ensures |r.turns| == |st.turns| && |r.enders| == |st.enders|
    ensures forall d | 0 <= d < |st.enders| && d != e :: r.enders[d] == st.enders[d]
  {
    var x := st.enders[e];
    var s := st.session;
    match move
    case EndCheck =>
      if s.bound != Some(x.gen) then SetEnder(st, e, x.(at := EndDone))
      else SetEnder(st, e, x.(turn := s.current, at := EndQuieting)).(session := s.(lost := true), calls := TellAll(st.calls))
    case EndQuiet => SetEnder(st, e, x.(at := EndUnbinding))
    case EndLetGo =>
      var st1 := LoseBinding(st, x.gen);
      if x.turn.Some? then SetEnder(st1, e, x.(at := EndSettling))
      else SetEnder(st1, e, x.(at := EndDone)).(session := FenceIdle(st1.session))
    case EndSettle =>
      SetTurn(SetEnder(st, e, x.(at := EndDone)), x.turn.value, Settle(st.turns[x.turn.value], TransportEnded, None))
  }

  // ---- the pump, the host, the dialogs and close ----

  /** `ProcessExits` ends a generation's process and streams; `RequestAccepts` is handleRequest
      accepting the turn it had read, while its dialog is open; `StreamOpens` is the opening
      publication after an establishing request. */
  datatype OtherMove =
    | CreateQueue(gen: nat) | ProcessExits(gen: nat) | GenerationEnds(gen: nat)
    | HostCancels | InterruptEnds
    | OpenDialog(id: nat) | UnmapDialog(id: nat) | DialogEnds(entry: nat) | RequestAccepts(turn: nat, refused: bool)
    | StreamOpens | CloseMarks | CloseLetsGo

  predicate Contains(st: State, gen: nat) {
    exists c | 0 <= c < |st.containers| :: st.containers[c].pooled && st.containers[c].gen == gen && !st.containers[c].at.Done?
  }

  predicate OtherCan(st: State, move: OtherMove) {
    match move
    case CreateQueue(gen) => gen !in st.registered && gen !in st.ended && !st.session.closed
    case ProcessExits(gen) => true
    case GenerationEnds(gen) =>
      && gen !in st.ended && gen in st.dying
      && (forall w | 0 <= w < |st.workers| && st.workers[w].gen == gen :: st.workers[w].at.Exited?)
      && !Contains(st, gen)
    case HostCancels => true
    case InterruptEnds => st.calls.interrupts > 0
    case OpenDialog(id) => true
    case UnmapDialog(id) => id in st.calls.mapped
    case DialogEnds(entry) => entry in st.calls.open && entry !in st.calls.mapped.Values
    case RequestAccepts(turn, _) => turn < |st.turns| && st.calls.open != {}
    case StreamOpens => st.prompt.NoPrompt? && st.session.bound.Some? && !st.session.closing
    case CloseMarks => !st.session.closing
    case CloseLetsGo => st.session.closing && !st.session.closed
  }

  /** A queue created now would serve a turn of its generation that is already ended, lost or
      unbound. */
  predicate LateQueue(st: State, gen: nat) {
    InFlight(st)
    && st.turns[st.session.current.value].gen == gen
    && (!st.turns[st.session.current.value].ended.Running? || st.session.lost || st.session.bound != Some(gen))
  }

  function OtherDoes(st: State, move: OtherMove): (r: State)
    requires OtherCan(st, move)
    ensures r.prompt == st.prompt && r.containers == st.containers && |r.turns| == |st.turns|
    ensures st.workers <= r.workers && st.enders <= r.enders
    ensures OnlyUnbinds(st.session, r.session)
  {
    var s, calls := st.session, st.calls;
    match move
    case CreateQueue(gen) =>
      st.(workers := st.workers + [Worker(gen, false, LateQueue(st, gen), Idle)],
          registered := st.registered[gen := |st.workers|])
    case ProcessExits(gen) => st.(dying := st.dying + {gen})
    case GenerationEnds(gen) =>
      st.(ended := st.ended + {gen}, enders := st.enders + [Ender(gen, None, EndChecking)])
    case HostCancels => CancelCurrent(st)
    case InterruptEnds => st.(calls := calls.(interrupts := calls.interrupts - 1, callbacks := calls.callbacks - 1))
    case OpenDialog(id) =>
      if RefusesDialog(st) then st
      else st.(calls := calls.(mapped := calls.mapped[id := calls.next], open := calls.open + {calls.next},
                               callbacks := calls.callbacks + 1, next := calls.next + 1))
    case UnmapDialog(id) => st.(calls := calls.(mapped := calls.mapped - {id}))
    case DialogEnds(entry) => st.(calls := calls.(open := calls.open - {entry}, callbacks := calls.callbacks - 1))
    case RequestAccepts(turn, refused) => SetTurn(st, turn, Accepted(st.turns[turn], refused))
    case StreamOpens => st.(session := s.(fenced := false))
    case CloseMarks =>
      var st1 := if InFlight(st) then SetTurn(st, s.current.value, Mark(st.turns[s.current.value])) else st;
      st1.(session := s.(closing := true), calls := TellAll(calls))
    case CloseLetsGo => st.(session := s.(bound := None, fenced := true, closed := true))
  }

  datatype Step =
    | PromptStep(prompt: PromptMove)
    | WorkerStep(w: nat, work: WorkerMove)
    | ContainStep(c: nat, contain: ContainMove)
    | EndStep(e: nat, end: EndMove)
    | OtherStep(other: OtherMove)

  predicate Enabled(st: State, step: Step) {
    match step
    case PromptStep(move) => PromptCan(st, move)
    case WorkerStep(w, move) => WorkerCan(st, w, move)
    case ContainStep(c, move) => ContainCan(st, c, move)
    case EndStep(e, move) => EndCan(st, e, move)
    case OtherStep(move) => OtherCan(st, move)
  }

  function Apply(st: State, step: Step): State
    requires Enabled(st, step)
  {
    match step
    case PromptStep(move) => PromptDoes(st, move)
    case WorkerStep(w, move) => WorkerDoes(st, w, move)
    case ContainStep(c, move) => ContainDoes(st, c, move)
    case EndStep(e, move) => EndDoes(st, e, move)
    case OtherStep(move) => OtherDoes(st, move)
  }

  predicate Runs(st: State, steps: seq<Step>)
    decreases |steps|
  {
    steps == [] || (Enabled(st, steps[0]) && Runs(Apply(st, steps[0]), steps[1..]))
  }

  function After(st: State, steps: seq<Step>): State
    requires Runs(st, steps)
    decreases |steps|
  {
    if steps == [] then st else After(Apply(st, steps[0]), steps[1..])
  }
}
