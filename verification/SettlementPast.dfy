/** What lies behind a prompt: earlier turns have finished, and a worker exits only once it was
    fenced, its process died, or its session closed. */
module SettlementPast {
  import opened Wrappers
  import opened Settlement
  import opened SettlementProofs

  predicate Behind(p: Prompt, t: nat) {
    PromptTurn(p) != Some(t) && !(p.Finishing? && p.turn == t)
  }

  predicate EarlierFinished(st: State) {
    forall t | 0 <= t < |st.turns| && Behind(st.prompt, t) :: st.turns[t].finished
  }

  predicate MayExit(st: State, x: Worker) {
    x.at.Exited? ==> x.fenced || x.gen in st.dying || st.session.closed
  }

  predicate ExitsOk(st: State) {
    forall w | 0 <= w < |st.workers| :: MayExit(st, st.workers[w])
  }

  predicate Past(st: State) {
    EarlierFinished(st) && ExitsOk(st)
  }

  lemma PromptKeepsFinished(st: State, move: PromptMove, t: nat)
    requires Basic(st) && EarlierFinished(st) && PromptCan(st, move)
    requires t < |PromptDoes(st, move).turns| && Behind(PromptDoes(st, move).prompt, t)
    ensures PromptDoes(st, move).turns[t].finished
  {
    if t < |st.turns| && Behind(st.prompt, t) {
      PromptGoesOnAt(st, move, t);
    }
  }

  lemma StepKeepsFinished(st: State, step: Step)
    requires Basic(st) && EarlierFinished(st) && Enabled(st, step)
    ensures EarlierFinished(Apply(st, step))
  {
    var st' := Apply(st, step);
    StepGoesOn(st, step);
    forall t | 0 <= t < |st'.turns| && Behind(st'.prompt, t) ensures st'.turns[t].finished {
      if step.PromptStep? {
        PromptKeepsFinished(st, step.prompt, t);
      }
    }
  }

  lemma PromptKeepsExits(st: State, move: PromptMove)
    requires ExitsOk(st) && PromptCan(st, move)
    ensures ExitsOk(PromptDoes(st, move))
  {
  }

  lemma WorkerKeepsExits(st: State, w: nat, move: WorkerMove)
    requires ExitsOk(st) && WorkerCan(st, w, move)
    ensures ExitsOk(WorkerDoes(st, w, move))
  {
  }

  lemma OtherKeepsExits(st: State, move: OtherMove)
    requires ExitsOk(st) && OtherCan(st, move)
    ensures ExitsOk(OtherDoes(st, move))
  {
  }

  lemma StepKeepsPast(st: State, step: Step)
    requires Basic(st) && Past(st) && Enabled(st, step)
    ensures Past(Apply(st, step))
  {
    StepKeepsFinished(st, step);
    match step
    case PromptStep(move) => PromptKeepsExits(st, move);
    case WorkerStep(w, move) => WorkerKeepsExits(st, w, move);
    case ContainStep(c, move) =>
    case EndStep(e, move) =>
    case OtherStep(move) => OtherKeepsExits(st, move);
  }
}
