/** The invariants of the settlement machine, each preserved by every step. */
module SettlementProofs {
  import opened Wrappers
  import opened Settlement

  // ---- which turn the prompt runs, and which turns the others know ----

  /** The prompt's turn, from its installation to its removal. */
  function PromptTurn(p: Prompt): Option<nat> {
    match p
    case NoPrompt => None
    case Bound(_) => None
    case Finishing(_) => None
    case Starting(t) => Some(t)
    case Waiting(t) => Some(t)
    case Cancelling(t) => Some(t)
    case Grace(t) => Some(t)
    case Stopping(t) => Some(t)
    case Containing(t, _) => Some(t)
    case ForceSettling(t) => Some(t)
    case Admitting(t) => Some(t)
    case QuietingCalls(t) => Some(t)
    case Judging(t) => Some(t)
    case Deciding(t, _) => Some(t)
    case Committing(t, _, _, _) => Some(t)
    case Claiming(t, _, _) => Some(t)
    case Publishing(t, _, _, _) => Some(t)
    case Removing(t, _) => Some(t)
  }

  predicate Knows(at: WorkerAt, turns: nat) {
    match at
    case Holding(t, _) => t < turns
    case Projecting(t, _, _, _) => t < turns
    case Parked(t) => t < turns
    case _ => true
  }

  predicate PromptOk(st: State) {
    var p := st.prompt;
    && st.session.current == PromptTurn(p)
    && (PromptTurn(p).Some? ==> PromptTurn(p).value + 1 == |st.turns|)
    && (p.Finishing? ==> p.turn + 1 == |st.turns|)
    && (p.Containing? ==>
          && p.container < |st.containers|
          && !st.containers[p.container].pooled
          && st.containers[p.container].gen == st.turns[p.turn].gen)
  }

  predicate WorkersOk(st: State) {
    && (forall w | 0 <= w < |st.workers| :: Knows(st.workers[w].at, |st.turns|))
    && (forall g | g in st.registered :: st.registered[g] < |st.workers| && st.workers[st.registered[g]].gen == g)
  }

  predicate ContainerOk(st: State, x: Container) {
    && (x.turn.Some? ==> x.turn.value < |st.turns|)
    && (x.at.Joining? ==> x.at.worker < |st.workers| && st.workers[x.at.worker].gen == x.gen)
    && (x.at.Settling? ==> x.turn.Some?)
    && (x.at.Checking? ==> !x.onlyRetires && x.turn.None?)
    && (x.onlyRetires ==> x.turn.None? && !x.at.Quieting? && !x.at.Unbinding? && !x.at.Settling?)
  }

  predicate ContainersOk(st: State) {
    forall c | 0 <= c < |st.containers| :: ContainerOk(st, st.containers[c])
  }

  predicate EndersOk(st: State) {
    forall e | 0 <= e < |st.enders| ::
      var x := st.enders[e];
      && x.gen in st.ended
      && (x.turn.Some? ==> x.turn.value < |st.turns|)
      && (x.at.EndSettling? ==> x.turn.Some?)
      && (x.at.EndChecking? ==> x.turn.None?)
  }

  predicate Basic(st: State) {
    PromptOk(st) && WorkersOk(st) && ContainersOk(st) && EndersOk(st)
  }

  lemma PromptKeepsOthers(st: State, move: PromptMove)
    requires Basic(st) && PromptCan(st, move)
    ensures var st' := PromptDoes(st, move); WorkersOk(st') && ContainersOk(st') && EndersOk(st')
  {
    var st' := PromptDoes(st, move);
    forall d | 0 <= d < |st'.containers| ensures ContainerOk(st', st'.containers[d]) {
      if d < |st.containers| {
        assert ContainerOk(st, st.containers[d]);
      }
    }
  }

  lemma PromptKeepsBasic(st: State, move: PromptMove)
    requires Basic(st) && PromptCan(st, move)
    ensures Basic(PromptDoes(st, move))
  {
    PromptKeepsOthers(st, move);
  }

  lemma WorkerKeepsBasic(st: State, w: nat, move: WorkerMove)
    requires Basic(st) && WorkerCan(st, w, move)
    ensures Basic(WorkerDoes(st, w, move))
  {
  }

  lemma ContainKeepsContainers(st: State, c: nat, move: ContainMove)
    requires Basic(st) && ContainCan(st, c, move)
    ensures ContainersOk(ContainDoes(st, c, move))
  {
    var st' := ContainDoes(st, c, move);
    assert ContainerOk(st, st.containers[c]);
    assert ContainerOk(st', st'.containers[c]);
    forall d | 0 <= d < |st'.containers| ensures ContainerOk(st', st'.containers[d]) {
      assert ContainerOk(st, st.containers[d]);
    }
  }

  lemma ContainKeepsBasic(st: State, c: nat, move: ContainMove)
    requires Basic(st) && ContainCan(st, c, move)
    ensures Basic(ContainDoes(st, c, move))
  {
    ContainKeepsContainers(st, c, move);
  }

  lemma EndKeepsBasic(st: State, e: nat, move: EndMove)
    requires Basic(st) && EndCan(st, e, move)
    ensures Basic(EndDoes(st, e, move))
  {
  }

  lemma OtherKeepsBasic(st: State, move: OtherMove)
    requires Basic(st) && OtherCan(st, move)
    ensures Basic(OtherDoes(st, move))
  {
  }

  lemma StepKeepsBasic(st: State, step: Step)
    requires Basic(st) && Enabled(st, step)
    ensures Basic(Apply(st, step))
  {
    match step
    case PromptStep(move) => PromptKeepsBasic(st, move);
    case WorkerStep(w, move) => WorkerKeepsBasic(st, w, move);
    case ContainStep(c, move) => ContainKeepsBasic(st, c, move);
    case EndStep(e, move) => EndKeepsBasic(st, e, move);
    case OtherStep(move) => OtherKeepsBasic(st, move);
  }

  // ---- what no step takes back ----

  /** The prompt's moves that write its turn. */
  predicate WritesTurn(move: PromptMove) {
    move.StartAnswered? || move.Cancel? || move.ForceSettle? || move.BeginSettlement? || move.Finish?
  }

  lemma PromptWritesOn(st: State, move: PromptMove, t: nat)
    requires PromptCan(st, move) && t < |st.turns| && WritesTurn(move)
    ensures TurnGoesOn(st.turns[t], PromptDoes(st, move).turns[t])
  {
  }

  lemma PromptLeavesTurns(st: State, move: PromptMove)
    requires PromptCan(st, move) && !WritesTurn(move)
    ensures st.turns <= PromptDoes(st, move).turns
  {
  }

  lemma PromptGoesOnAt(st: State, move: PromptMove, t: nat)
    requires PromptCan(st, move) && t < |st.turns|
    ensures TurnGoesOn(st.turns[t], PromptDoes(st, move).turns[t])
  {
    if WritesTurn(move) {
      PromptWritesOn(st, move, t);
    } else {
      PromptLeavesTurns(st, move);
    }
  }

  lemma PromptGoesOn(st: State, move: PromptMove)
    requires PromptCan(st, move)
    ensures TurnsGoOn(st, PromptDoes(st, move))
  {
    forall t | 0 <= t < |st.turns| ensures TurnGoesOn(st.turns[t], PromptDoes(st, move).turns[t]) {
      PromptGoesOnAt(st, move, t);
    }
  }

  lemma AccountedGoesOn(t: Turn, kind: Kind, worker: nat, refused: bool)
    ensures TurnGoesOn(t, Accounted(t, kind, worker, refused))
  {
  }

  lemma ProjectedGoesOn(t: Turn, at: WorkerAt, worker: nat, refused: bool)
    requires at.Projecting?
    ensures TurnGoesOn(t, Projected(t, at, worker, refused))
  {
    AccountedGoesOn(Taken(t, at.record), at.record.kind, worker, refused);
  }

  lemma WorkerGoesOnAt(st: State, w: nat, move: WorkerMove, t: nat)
    requires WorkerCan(st, w, move) && t < |st.turns|
    ensures TurnGoesOn(st.turns[t], WorkerDoes(st, w, move).turns[t])
  {
    var at := st.workers[w].at;
    if move.Stamp? {
      assert TurnGoesOn(st.turns[at.turn], Stamped(st.turns[at.turn], at.record, move.refused));
    } else if move.Project? {
      ProjectedGoesOn(st.turns[at.turn], at, w, move.refused);
    } else {
      assert WorkerDoes(st, w, move).turns == st.turns;
    }
  }

  lemma WorkerGoesOn(st: State, w: nat, move: WorkerMove)
    requires WorkerCan(st, w, move)
    ensures TurnsGoOn(st, WorkerDoes(st, w, move))
  {
    forall t | 0 <= t < |st.turns| ensures TurnGoesOn(st.turns[t], WorkerDoes(st, w, move).turns[t]) {
      WorkerGoesOnAt(st, w, move, t);
    }
  }

  lemma ContainGoesOnAt(st: State, c: nat, move: ContainMove, t: nat)
    requires ContainCan(st, c, move) && t < |st.turns|
    ensures TurnGoesOn(st.turns[t], ContainDoes(st, c, move).turns[t])
  {
  }

  lemma ContainGoesOn(st: State, c: nat, move: ContainMove)
    requires ContainCan(st, c, move)
    ensures TurnsGoOn(st, ContainDoes(st, c, move))
  {
    forall t | 0 <= t < |st.turns| ensures TurnGoesOn(st.turns[t], ContainDoes(st, c, move).turns[t]) {
      ContainGoesOnAt(st, c, move, t);
    }
  }

  lemma EndGoesOn(st: State, e: nat, move: EndMove)
    requires EndCan(st, e, move)
    ensures TurnsGoOn(st, EndDoes(st, e, move))
  {
  }

  lemma OtherGoesOnAt(st: State, move: OtherMove, t: nat)
    requires OtherCan(st, move) && t < |st.turns|
    ensures TurnGoesOn(st.turns[t], OtherDoes(st, move).turns[t])
  {
  }

  lemma OtherGoesOn(st: State, move: OtherMove)
    requires OtherCan(st, move)
    ensures TurnsGoOn(st, OtherDoes(st, move))
  {
    forall t | 0 <= t < |st.turns| ensures TurnGoesOn(st.turns[t], OtherDoes(st, move).turns[t]) {
      OtherGoesOnAt(st, move, t);
    }
  }

  lemma StepGoesOn(st: State, step: Step)
    requires Enabled(st, step)
    ensures TurnsGoOn(st, Apply(st, step))
  {
    match step
    case PromptStep(move) => PromptGoesOn(st, move);
    case WorkerStep(w, move) => WorkerGoesOn(st, w, move);
    case ContainStep(c, move) => ContainGoesOn(st, c, move);
    case EndStep(e, move) => EndGoesOn(st, e, move);
    case OtherStep(move) => OtherGoesOn(st, move);
  }

  // ---- dialogs and interrupts ----

  predicate AfterQuiet(p: Prompt) {
    p.Judging? || p.Deciding? || p.Committing? || p.Claiming? || p.Publishing? || (p.Removing? && p.settlement.Some?)
  }

  /** From beginSettlement to the turn's removal. */
  predicate InSettlement(p: Prompt) {
    p.QuietingCalls? || AfterQuiet(p)
  }

  predicate Counted(c: Calls) {
    && c.callbacks == |c.open| + c.interrupts
    && c.mapped.Values <= c.open
    && forall o | o in c.open :: o < c.next
  }

  predicate CallsOk(st: State) {
    && Counted(st.calls)
    && (InSettlement(st.prompt) ==> st.prompt.turn < |st.turns| && st.turns[st.prompt.turn].cycle.settling)
    && (AfterQuiet(st.prompt) ==> st.calls.callbacks == 0)
  }

  lemma PromptKeepsCalls(st: State, move: PromptMove)
    requires Basic(st) && CallsOk(st) && PromptCan(st, move)
    ensures CallsOk(PromptDoes(st, move))
  {
    var st' := PromptDoes(st, move);
    assert Counted(st'.calls);
    if InSettlement(st.prompt) {
      PromptGoesOnAt(st, move, st.prompt.turn);
    }
  }

  lemma OpenKeepsCounts(c: Calls, id: nat)
    requires Counted(c)
    ensures Counted(c.(mapped := c.mapped[id := c.next], open := c.open + {c.next}, callbacks := c.callbacks + 1, next := c.next + 1))
  {
    assert c.mapped[id := c.next].Values <= c.mapped.Values + {c.next};
    assert c.next !in c.open;
  }

  lemma UnmapKeepsCounts(c: Calls, id: nat)
    requires Counted(c)
    ensures Counted(c.(mapped := c.mapped - {id}))
  {
    assert (c.mapped - {id}).Values <= c.mapped.Values;
  }

  lemma OtherKeepsCounts(st: State, move: OtherMove)
    requires Counted(st.calls) && OtherCan(st, move)
    ensures Counted(OtherDoes(st, move).calls)
  {
    match move
    case OpenDialog(id) => OpenKeepsCounts(st.calls, id);
    case UnmapDialog(id) => UnmapKeepsCounts(st.calls, id);
    case _ =>
  }

  /** No dialog and no interrupt is registered for a settling turn. */
  lemma SettlingAdmitsNothing(st: State, move: OtherMove)
    requires Basic(st) && CallsOk(st) && InSettlement(st.prompt) && OtherCan(st, move)
    ensures OtherDoes(st, move).calls.callbacks <= st.calls.callbacks
  {
    assert st.session.current == Some(st.prompt.turn);
  }

  lemma OtherKeepsCalls(st: State, move: OtherMove)
    requires Basic(st) && CallsOk(st) && OtherCan(st, move)
    ensures CallsOk(OtherDoes(st, move))
  {
    OtherKeepsCounts(st, move);
    if InSettlement(st.prompt) {
      SettlingAdmitsNothing(st, move);
    }
  }

  lemma StepKeepsCalls(st: State, step: Step)
    requires Basic(st) && CallsOk(st) && Enabled(st, step)
    ensures CallsOk(Apply(st, step))
  {
    if step.PromptStep? {
      PromptKeepsCalls(st, step.prompt);
    } else if step.OtherStep? {
      OtherKeepsCalls(st, step.other);
    } else {
      StepGoesOn(st, step);
    }
  }

  // ---- ends, failures and verdicts ----

  predicate Forced(p: Prompt) {
    p.Grace? || p.Stopping? || p.Containing? || p.ForceSettling?
  }

  predicate Fine(v: Verdict) {
    v.outcome.Failed? <==> v.failing
  }

  /** The response and the idle event of one settlement agree, and a lost commit is an error. */
  predicate Agrees(s: Settlement) {
    && (!s.committed ==> s.answer == AnswerError)
    && (s.idleFailed ==> s.answer == AnswerError && s.idle.None?)
    && (s.claimed && s.committed && !s.idleFailed ==> s.answer == AnswerCancelled)
    && (s.idle == Some(Failed) ==> s.answer == AnswerError)
    && (s.idle == Some(Cancelled) ==> s.answer == AnswerCancelled)
    && (s.idle == Some(Success) ==> s.answer == AnswerEndTurn)
  }

  /** The mark a verdict is judged with is the turn's, and without it a contained turn failed. */
  predicate MarkOk(st: State) {
    var p := st.prompt;
    && (p.Deciding? || p.Committing? ==> p.turn < |st.turns| && (p.cancelled ==> st.turns[p.turn].cycle.cancelled))
    && (p.Deciding? && !p.cancelled && st.turns[p.turn].ended.Contained? ==> st.turns[p.turn].cycle.failure)
  }

  /** A prompt answers an ended turn, and forces the end of a cancelled one only. */
  predicate EndedOk(st: State) {
    var p := st.prompt;
    && (p.Admitting? || InSettlement(p) ==> p.turn < |st.turns| && !st.turns[p.turn].ended.Running?)
    && (Forced(p) ==> p.turn < |st.turns| && st.turns[p.turn].cycle.cancelled)
  }

  predicate StageOk(st: State) {
    EndedOk(st) && MarkOk(st)
  }

  predicate AnswerOk(p: Prompt) {
    && (p.Committing? ==> Fine(p.verdict))
    && (p.Claiming? ==> Fine(p.verdict) && (!p.committed ==> p.verdict == Verdict(Failed, true)))
    && (p.Publishing? ==>
          && Fine(p.verdict)
          && (!p.committed ==> p.verdict == Verdict(Failed, true))
          && (p.claimed && p.committed ==> p.verdict == Verdict(Cancelled, false)))
    && (p.Removing? && p.settlement.Some? ==> Agrees(p.settlement.value))
  }

  predicate VerdictOk(st: State) {
    StageOk(st) && AnswerOk(st.prompt)
  }

  /** A contained turn has a recorded failure unless it was cancelled. */
  predicate TurnsOk(st: State) {
    forall t | 0 <= t < |st.turns| ::
      st.turns[t].ended.Contained? ==> st.turns[t].cycle.failure || st.turns[t].cycle.cancelled
  }

  /** A containment records its failure before it joins the worker. */
  predicate Recorded(st: State, x: Container) {
    x.turn.Some? && x.turn.value < |st.turns| && !x.at.Checking? && !x.at.Quieting? ==> st.turns[x.turn.value].cycle.failure
  }

  predicate EndsOk(st: State) {
    VerdictOk(st) && TurnsOk(st) && forall c | 0 <= c < |st.containers| :: Recorded(st, st.containers[c])
  }

  lemma PromptKeepsMark(st: State, move: PromptMove)
    requires Basic(st) && EndedOk(st) && TurnsOk(st) && MarkOk(st) && PromptCan(st, move)
    ensures MarkOk(PromptDoes(st, move))
  {
  }

  lemma PromptKeepsStage(st: State, move: PromptMove)
    requires Basic(st) && EndedOk(st) && PromptCan(st, move)
    ensures EndedOk(PromptDoes(st, move))
  {
    if PromptTurn(st.prompt).Some? {
      PromptGoesOnAt(st, move, PromptTurn(st.prompt).value);
    }
  }

  lemma JudgeIsFine(t: Turn, cancelled: bool)
    requires t.ended.Contained? ==> t.cycle.failure || cancelled
    ensures Fine(Judge(t, cancelled))
  {
  }

  lemma PromptKeepsAnswer(st: State, move: PromptMove)
    requires AnswerOk(st.prompt) && StageOk(st) && PromptCan(st, move)
    ensures AnswerOk(PromptDoes(st, move).prompt)
  {
    if move.JudgeTurn? {
      JudgeIsFine(st.turns[st.prompt.turn], st.prompt.cancelled);
    }
  }

  lemma PromptKeepsVerdict(st: State, move: PromptMove)
    requires Basic(st) && VerdictOk(st) && TurnsOk(st) && PromptCan(st, move)
    ensures VerdictOk(PromptDoes(st, move))
  {
    PromptKeepsStage(st, move);
    PromptKeepsMark(st, move);
    PromptKeepsAnswer(st, move);
  }

  lemma PromptKeepsTurns(st: State, move: PromptMove)
    requires Basic(st) && VerdictOk(st) && TurnsOk(st) && PromptCan(st, move)
    ensures TurnsOk(PromptDoes(st, move))
  {
  }

  lemma WorkerKeepsTurns(st: State, w: nat, move: WorkerMove)
    requires TurnsOk(st) && WorkerCan(st, w, move)
    ensures TurnsOk(WorkerDoes(st, w, move))
  {
    WorkerGoesOn(st, w, move);
    forall t | 0 <= t < |st.turns| && st.turns[t].ended.Running?
      ensures !WorkerDoes(st, w, move).turns[t].ended.Contained?
    {
    }
  }

  lemma ContainKeepsTurns(st: State, c: nat, move: ContainMove)
    requires EndsOk(st) && Basic(st) && ContainCan(st, c, move)
    ensures TurnsOk(ContainDoes(st, c, move))
    ensures Recorded(ContainDoes(st, c, move), ContainDoes(st, c, move).containers[c])
  {
    assert Recorded(st, st.containers[c]) && ContainerOk(st, st.containers[c]);
  }

  /** A recorded failure is for good. */
  lemma RecordedStands(st: State, st': State, x: Container)
    requires TurnsGoOn(st, st') && Recorded(st, x)
    requires x.turn.Some? ==> x.turn.value < |st.turns|
    ensures Recorded(st', x)
  {
  }

  lemma OthersKeepVerdict(st: State, st': State)
    requires Basic(st) && VerdictOk(st) && TurnsGoOn(st, st') && st'.prompt == st.prompt
    ensures VerdictOk(st')
  {
  }

  lemma RestKeepRecorded(st: State, step: Step, d: nat)
    requires Basic(st) && EndsOk(st) && Enabled(st, step) && d < |Apply(st, step).containers|
    ensures Recorded(Apply(st, step), Apply(st, step).containers[d])
  {
    if step.ContainStep? && step.c == d {
      ContainKeepsTurns(st, d, step.contain);
    } else if d < |st.containers| {
      assert Apply(st, step).containers[d] == st.containers[d];
      assert ContainerOk(st, st.containers[d]) && Recorded(st, st.containers[d]);
      StepGoesOn(st, step);
      RecordedStands(st, Apply(st, step), st.containers[d]);
    }
  }

  lemma StepKeepsVerdict(st: State, step: Step)
    requires Basic(st) && VerdictOk(st) && TurnsOk(st) && Enabled(st, step)
    ensures VerdictOk(Apply(st, step))
  {
    if step.PromptStep? {
      PromptKeepsVerdict(st, step.prompt);
    } else {
      StepGoesOn(st, step);
      OthersKeepVerdict(st, Apply(st, step));
    }
  }

  lemma EndKeepsTurns(st: State, e: nat, move: EndMove)
    requires TurnsOk(st) && EndCan(st, e, move)
    ensures TurnsOk(EndDoes(st, e, move))
  {
  }

  lemma OtherKeepsTurns(st: State, move: OtherMove)
    requires TurnsOk(st) && OtherCan(st, move)
    ensures TurnsOk(OtherDoes(st, move))
  {
  }

  lemma StepKeepsTurns(st: State, step: Step)
    requires Basic(st) && EndsOk(st) && Enabled(st, step)
    ensures TurnsOk(Apply(st, step))
  {
    match step
    case PromptStep(move) => PromptKeepsTurns(st, move);
    case WorkerStep(w, move) => WorkerKeepsTurns(st, w, move);
    case ContainStep(c, move) => ContainKeepsTurns(st, c, move);
    case EndStep(e, move) => EndKeepsTurns(st, e, move);
    case OtherStep(move) => OtherKeepsTurns(st, move);
  }

  lemma StepKeepsEnds(st: State, step: Step)
    requires Basic(st) && EndsOk(st) && Enabled(st, step)
    ensures EndsOk(Apply(st, step))
  {
    var st' := Apply(st, step);
    forall d | 0 <= d < |st'.containers| ensures Recorded(st', st'.containers[d]) {
      RestKeepRecorded(st, step, d);
    }
    StepKeepsVerdict(st, step);
    StepKeepsTurns(st, step);
  }
}
