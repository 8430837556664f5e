/** Which steps bind, lose, fence and close the session, tell its dialogs and start its interrupts. */
module SettlementSession {
  import opened Wrappers
  import opened Settlement
  import opened SettlementProofs
  import opened SettlementTheorems

  // ---- the binding ----

  /** The generation a step binds the session on: a prompt's rebind, or the repair of its thread. */
  function Binds(st: State, step: Step): Option<nat> {
    match step
    case PromptStep(Rebind(gen)) => Some(gen)
    case PromptStep(BindOnly(gen)) => Some(gen)
    case PromptStep(RepairRebinds) =>
      if st.prompt.Committing? && st.prompt.turn < |st.turns| then Some(st.turns[st.prompt.turn].gen) else None
    case _ => None
  }

  /** The generation whose binding a step drops, if the session still has it: a containment's, an
      ended generation's, or that of a repair that failed. */
  function LetsGo(st: State, step: Step): Option<nat> {
    match step
    case PromptStep(RepairUnbinds) =>
      if st.prompt.Committing? && st.prompt.turn < |st.turns| then Some(st.turns[st.prompt.turn].gen) else None
    case ContainStep(c, LetGo) => if c < |st.containers| then Some(st.containers[c].gen) else None
    case EndStep(e, EndLetGo) => if e < |st.enders| then Some(st.enders[e].gen) else None
    case _ => None
  }

  /** A commit that failed and a close drop whatever binding there is. */
  predicate Unbinds(step: Step) {
    step == PromptStep(Commit(false)) || step == OtherStep(CloseLetsGo)
  }

  /** The generation a step finds lost, if the session is bound on it. */
  function FindsLost(st: State, step: Step): Option<nat> {
    match step
    case PromptStep(RepairUnbinds) =>
      if st.prompt.Committing? && st.prompt.turn < |st.turns| then Some(st.turns[st.prompt.turn].gen) else None
    case ContainStep(c, Check) => if c < |st.containers| then Some(st.containers[c].gen) else None
    case EndStep(e, EndCheck) => if e < |st.enders| then Some(st.enders[e].gen) else None
    case _ => None
  }

  /** The binding and the loss mark after a step. */
  predicate BoundAfter(st: State, step: Step, s: Session) {
    var was := st.session;
    && s.bound == (if Binds(st, step).Some? then Binds(st, step)
                   else if Unbinds(step) || (LetsGo(st, step).Some? && LetsGo(st, step) == was.bound) then None
                   else was.bound)
    && s.lost == (if Binds(st, step).Some? then false
                  else was.lost || (FindsLost(st, step).Some? && FindsLost(st, step) == was.bound))
  }

  // ---- the stream, the close, the turn ----

  /** The step opens the stream: an establishing request's opening, or a prompt's rebind. */
  predicate Opens(step: Step) {
    step == OtherStep(StreamOpens) || (step.PromptStep? && step.prompt.Rebind?)
  }

  /** The step fences the stream: a commit that failed, a close, the removal of a turn whose
      generation was lost, and a containment or an end that found no turn, unless the session is
      closing. */
  predicate Fences(st: State, step: Step) {
    match step
    case PromptStep(Commit(ok)) => !ok
    case PromptStep(Remove) =>
      st.prompt.Removing? && st.prompt.turn < |st.turns|
      && (st.session.lost || st.turns[st.prompt.turn].ended == TransportEnded)
    case ContainStep(c, LetGo) => c < |st.containers| && st.containers[c].turn == None && !st.session.closing
    case EndStep(e, EndLetGo) => e < |st.enders| && st.enders[e].turn == None && !st.session.closing
    case OtherStep(CloseLetsGo) => true
    case _ => false
  }

  predicate StreamAfter(st: State, step: Step, s: Session) {
    && (s.fenced <==> !Opens(step) && (st.session.fenced || Fences(st, step)))
    && (s.closing <==> st.session.closing || step == OtherStep(CloseMarks))
    && (s.closed <==> st.session.closed || step == OtherStep(CloseLetsGo))
  }

  /** The turn in flight and the native turn last terminalized: installed and removed by the prompt. */
  predicate TurnAfter(st: State, step: Step, s: Session) {
    && s.current == (if step == PromptStep(Install) then Some(|st.turns|)
                     else if step == PromptStep(Remove) then None
                     else st.session.current)
    && s.lastTerminal == (if step == PromptStep(Remove) && st.prompt.Removing? && st.prompt.turn < |st.turns|
                             && st.turns[st.prompt.turn].cycle.native != 0
                          then st.turns[st.prompt.turn].cycle.native
                          else st.session.lastTerminal)
  }

  predicate SessionAfter(st: State, step: Step, s: Session) {
    BoundAfter(st, step, s) && StreamAfter(st, step, s) && TurnAfter(st, step, s)
  }

  lemma PromptBinds(st: State, move: PromptMove)
    requires PromptCan(st, move)
    ensures BoundAfter(st, PromptStep(move), PromptDoes(st, move).session)
  {
  }

  lemma PromptStreams(st: State, move: PromptMove)
    requires PromptCan(st, move)
    ensures StreamAfter(st, PromptStep(move), PromptDoes(st, move).session)
  {
  }

  lemma PromptTurns(st: State, move: PromptMove)
    requires Basic(st) && PromptCan(st, move)
    ensures TurnAfter(st, PromptStep(move), PromptDoes(st, move).session)
  {
  }

  lemma PromptWritesSession(st: State, move: PromptMove)
    requires Basic(st) && PromptCan(st, move)
    ensures SessionAfter(st, PromptStep(move), PromptDoes(st, move).session)
  {
    PromptBinds(st, move);
    PromptStreams(st, move);
    PromptTurns(st, move);
  }

  lemma ContainWritesSession(st: State, c: nat, move: ContainMove)
    requires ContainCan(st, c, move)
    ensures SessionAfter(st, ContainStep(c, move), ContainDoes(st, c, move).session)
  {
    if move.Check? {
    } else if move.LetGo? {
    } else {
      assert ContainDoes(st, c, move).session == st.session;
    }
  }

  lemma EndWritesSession(st: State, e: nat, move: EndMove)
    requires EndCan(st, e, move)
    ensures SessionAfter(st, EndStep(e, move), EndDoes(st, e, move).session)
  {
  }

  lemma OtherWritesSession(st: State, move: OtherMove)
    requires OtherCan(st, move)
    ensures SessionAfter(st, OtherStep(move), OtherDoes(st, move).session)
  {
  }

  /** In every reachable state every step leaves the session bound, lost, fenced, closing and with
      the turn that the step's own description says, and no other step touches any of it. */
  lemma StepWritesSession(steps: seq<Step>, step: Step)
    requires Runs(Initial, steps) && Enabled(After(Initial, steps), step)
    ensures SessionAfter(After(Initial, steps), step, Apply(After(Initial, steps), step).session)
  {
    ReachableInv(steps);
    var st := After(Initial, steps);
    match step
    case PromptStep(move) => PromptWritesSession(st, move);
    case WorkerStep(w, move) =>
    case ContainStep(c, move) => ContainWritesSession(st, c, move);
    case EndStep(e, move) => EndWritesSession(st, e, move);
    case OtherStep(move) => OtherWritesSession(st, move);
  }

  // ---- the dialogs and the interrupts ----

  /** The step ends the session's dialogs: a settlement begins, the running turn is cancelled for the
      first time, the session closes, or its generation is found lost. */
  predicate Tells(st: State, step: Step) {
    match step
    case PromptStep(BeginSettlement) => true
    case PromptStep(Cancel) => InFlight(st) && !st.turns[st.session.current.value].cycle.cancelled
    case OtherStep(HostCancels) => InFlight(st) && !st.turns[st.session.current.value].cycle.cancelled
    case OtherStep(CloseMarks) => true
    case ContainStep(c, Check) => c < |st.containers| && st.session.bound == Some(st.containers[c].gen)
    case EndStep(e, EndCheck) => e < |st.enders| && st.session.bound == Some(st.enders[e].gen)
    case _ => false
  }

  /** A first cancel of a running turn starts a native interrupt, unless the turn is settling or the
      session has nobody to tell. */
  predicate Interrupts(st: State, step: Step) {
    && (step == PromptStep(PromptMove.Cancel) || step == OtherStep(HostCancels))
    && InFlight(st) && !st.turns[st.session.current.value].cycle.cancelled
    && !st.turns[st.session.current.value].cycle.settling
    && st.session.bound.Some? && !st.session.closing && !st.session.lost
  }

  /** A dialog is registered while the session is bound on a live generation, nothing closes it, and
      the turn in flight, if there is one, is neither cancelled nor settling. */
  predicate Registers(st: State, step: Step) {
    && step.OtherStep? && step.other.OpenDialog?
    && !st.session.closing && st.session.bound.Some? && !st.session.lost
    && (InFlight(st) ==>
          !st.turns[st.session.current.value].cycle.cancelled && !st.turns[st.session.current.value].cycle.settling)
  }

  /** The dialogs after a step: who was told, which entry was registered, which id was unmapped. */
  predicate DialogsAfter(st: State, step: Step, c: Calls) {
    var was := st.calls;
    && c.told == (if Tells(st, step) then was.told + was.mapped.Values else was.told)
    && c.mapped == (if Registers(st, step) then was.mapped[step.other.id := was.next]
                    else if step.OtherStep? && step.other.UnmapDialog? then was.mapped - {step.other.id}
                    else was.mapped)
    && c.open == (if Registers(st, step) then was.open + {was.next}
                  else if step.OtherStep? && step.other.DialogEnds? then was.open - {step.other.entry}
                  else was.open)
    && c.next == was.next + (if Registers(st, step) then 1 else 0)
  }

  predicate InterruptsAfter(st: State, step: Step, c: Calls) {
    c.interrupts == st.calls.interrupts + (if Interrupts(st, step) then 1 else 0) - (if step == OtherStep(InterruptEnds) then 1 else 0)
  }

  lemma PromptWritesCalls(st: State, move: PromptMove)
    requires PromptCan(st, move)
    ensures DialogsAfter(st, PromptStep(move), PromptDoes(st, move).calls)
    ensures InterruptsAfter(st, PromptStep(move), PromptDoes(st, move).calls)
  {
    if move.Cancel? || move.BeginSettlement? {
    } else {
      assert PromptDoes(st, move).calls == st.calls;
    }
  }

  lemma OtherWritesCalls(st: State, move: OtherMove)
    requires OtherCan(st, move)
    ensures DialogsAfter(st, OtherStep(move), OtherDoes(st, move).calls)
    ensures InterruptsAfter(st, OtherStep(move), OtherDoes(st, move).calls)
  {
  }

  lemma ContainWritesCalls(st: State, c: nat, move: ContainMove)
    requires ContainCan(st, c, move)
    ensures DialogsAfter(st, ContainStep(c, move), ContainDoes(st, c, move).calls)
    ensures InterruptsAfter(st, ContainStep(c, move), ContainDoes(st, c, move).calls)
  {
  }

  lemma EndWritesCalls(st: State, e: nat, move: EndMove)
    requires EndCan(st, e, move)
    ensures DialogsAfter(st, EndStep(e, move), EndDoes(st, e, move).calls)
    ensures InterruptsAfter(st, EndStep(e, move), EndDoes(st, e, move).calls)
  {
  }

  /** Every step tells, registers and unmaps the dialogs its own description says, and starts and
      ends the interrupts it says; no other step touches any. */
  lemma StepWritesCalls(st: State, step: Step)
    requires Enabled(st, step)
    ensures DialogsAfter(st, step, Apply(st, step).calls) && InterruptsAfter(st, step, Apply(st, step).calls)
  {
    match step
    case PromptStep(move) => PromptWritesCalls(st, move);
    case WorkerStep(w, move) =>
    case ContainStep(c, move) => ContainWritesCalls(st, c, move);
    case EndStep(e, move) => EndWritesCalls(st, e, move);
    case OtherStep(move) => OtherWritesCalls(st, move);
  }
}
