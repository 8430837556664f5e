/** What a prompt answers, told from its turn's own fields at the moment the verdict is judged. */
module SettlementVerdict {
  import opened Wrappers
  import opened Settlement
  import opened SettlementProofs
  import opened SettlementTheorems

  /** The turn ended natively without a failure. */
  predicate EndedClean(t: Turn) {
    t.ended.Settled? && !t.cycle.failure
  }

  /** Neither the host nor the provider cut the turn short, and nothing failed. */
  predicate Succeeded(t: Turn, cancelled: bool) {
    !cancelled && EndedClean(t) && t.cycle.stop != Some(StopCancelled) && t.cycle.stop != Some(StopError)
  }

  predicate CutShort(t: Turn, cancelled: bool) {
    cancelled || (EndedClean(t) && t.cycle.stop == Some(StopCancelled))
  }

  /** The outcome the turn's fields call for. */
  predicate Calls(t: Turn, cancelled: bool, outcome: Outcome) {
    && (outcome.Success? <==> Succeeded(t, cancelled))
    && (outcome.Cancelled? <==> CutShort(t, cancelled))
    && (outcome.Failed? <==> !Succeeded(t, cancelled) && !CutShort(t, cancelled))
  }

  predicate Answered(t: Turn, cancelled: bool, response: Response) {
    && (response.AnswerEndTurn? <==> Succeeded(t, cancelled))
    && (response.AnswerCancelled? <==> CutShort(t, cancelled))
    && (response.AnswerError? <==> !Succeeded(t, cancelled) && !CutShort(t, cancelled))
  }

  /** The settlement of a turn: an error without a commit or when the idle event was lost, cancelled
      after a claim, and else what the turn's fields call for; a delivered idle event says the same. */
  predicate Settles(s: Settlement, x: Turn, cancelled: bool) {
    && (!s.committed || s.idleFailed ==> s.answer.AnswerError?)
    && (s.committed && !s.idleFailed && s.claimed ==> s.answer.AnswerCancelled?)
    && (s.committed && !s.idleFailed && !s.claimed ==> Answered(x, cancelled, s.answer))
    && (s.idle.Some? ==>
          && !s.idleFailed
          && (!s.committed ==> s.idle.value.Failed?)
          && (s.committed && s.claimed ==> s.idle.value.Cancelled?)
          && (s.committed && !s.claimed ==> Calls(x, cancelled, s.idle.value)))
  }

  /** What the prompt carries from the judgement to its answer, of a turn judged with a mark. */
  predicate CarriesVerdict(p: Prompt, t: nat, x: Turn, cancelled: bool) {
    match p
    case Committing(u, c, v, _) => u == t ==> c == cancelled && Calls(x, cancelled, v.outcome) && Fine(v)
    case Claiming(u, v, committed) =>
      u == t ==> if committed then Calls(x, cancelled, v.outcome) && Fine(v) else v == Verdict(Failed, true)
    case Publishing(u, v, committed, claimed) =>
      && (u == t && committed && !claimed ==> Calls(x, cancelled, v.outcome) && Fine(v))
      && (u == t && committed && claimed ==> v == Verdict(Cancelled, false))
      && (u == t && !committed ==> v == Verdict(Failed, true))
    case Removing(u, settlement) => u == t && settlement.Some? ==> Settles(settlement.value, x, cancelled)
    case _ => PromptTurn(p) != Some(t)
  }

  lemma JudgementCalls(st: State)
    requires Inv(st) && PromptCan(st, JudgeTurn)
    ensures CarriesVerdict(PromptDoes(st, JudgeTurn).prompt, st.prompt.turn, st.turns[st.prompt.turn], st.prompt.cancelled)
  {
    JudgeIsFine(st.turns[st.prompt.turn], st.prompt.cancelled);
  }

  lemma PromptCarries(st: State, move: PromptMove, t: nat, x: Turn, cancelled: bool)
    requires PromptCan(st, move) && t < |st.turns| && CarriesVerdict(st.prompt, t, x, cancelled)
    ensures CarriesVerdict(PromptDoes(st, move).prompt, t, x, cancelled)
  {
  }

  lemma {:induction false} RunCarries(st: State, more: seq<Step>, t: nat, x: Turn, cancelled: bool)
    requires Runs(st, more) && t < |st.turns| && CarriesVerdict(st.prompt, t, x, cancelled)
    ensures CarriesVerdict(After(st, more).prompt, t, x, cancelled)
    decreases |more|
  {
    if more == [] {
    } else {
      StepGoesOn(st, more[0]);
      if more[0].PromptStep? {
        PromptCarries(st, more[0].prompt, t, x, cancelled);
      }
      RunCarries(Apply(st, more[0]), more[1..], t, x, cancelled);
    }
  }

  /** From every reachable prompt that is about to be judged, whatever happens until its turn is
      removed: the answer is the end of the turn exactly when nothing was cancelled, cut short or
      failed; it is a cancellation exactly when the mark was set or the turn settled without a
      failure as cancelled; it is an error in every other case. A lost commit or idle event is an
      error, a cancel claimed later a cancellation. A delivered idle event names the same outcome. */
  lemma AnswerSaysHowItEnded(steps: seq<Step>, more: seq<Step>, settlement: Settlement)
    requires Runs(Initial, steps) && PromptCan(After(Initial, steps), JudgeTurn)
    requires Runs(PromptDoes(After(Initial, steps), JudgeTurn), more)
    requires After(PromptDoes(After(Initial, steps), JudgeTurn), more).prompt ==
               Removing(After(Initial, steps).prompt.turn, Some(settlement))
    ensures var st := After(Initial, steps);
            Settles(settlement, st.turns[st.prompt.turn], st.prompt.cancelled)
  {
    ReachableInv(steps);
    var st := After(Initial, steps);
    JudgementCalls(st);
    RunCarries(PromptDoes(st, JudgeTurn), more, st.prompt.turn, st.turns[st.prompt.turn], st.prompt.cancelled);
  }

  /** The mark is read as it stands when the settlement's wait is over. */
  lemma MarkIsRead(st: State)
    requires PromptCan(st, ReadMark)
    ensures PromptDoes(st, ReadMark) == st.(prompt := Deciding(st.prompt.turn, st.turns[st.prompt.turn].cycle.cancelled))
  {
  }
}
