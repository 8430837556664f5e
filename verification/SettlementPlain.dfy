/** The plain course of a prompt, from every state that can take it: it starts its turn, a worker
    takes the turn's end in, and the prompt answers it and is over. */
module SettlementPlain {
  import opened Wrappers
  import opened Settlement
  import opened SettlementProofs
  import opened SettlementTheorems
  import opened SettlementVerdict
  import opened SettlementLeads
  import opened SettlementMoves

  /** The answer a native stop calls for. */
  function AnswerTo(stop: Stop): Response {
    match stop
    case EndTurn => AnswerEndTurn
    case StopCancelled => AnswerCancelled
    case StopError => AnswerError
  }

  // ---- the start ----

  /** A prompt of a session bound on a live generation installs a turn of that generation, and its
      start is answered: the turn is accepted and named, and the prompt waits for it. */
  lemma PromptStarts(start: State, st: State, gen: nat, native: nat) returns (after: State)
    requires Leads(start, st) && st.prompt == NoPrompt && native != 0
    requires st.session.bound == Some(gen) && !st.session.lost && gen !in st.ended
    ensures Leads(start, after) && |after.turns| == |st.turns| + 1
    ensures after == st.(turns := st.turns + [after.turns[|st.turns|]], session := st.session.(current := Some(|st.turns|)),
                         prompt := Waiting(|st.turns|))
    ensures after.turns[|st.turns|] ==
              Turn(gen, st.session.lastTerminal, Cycle(false, false, native, false, false, None, []), true, Running, None, false)
  {
    Go(start, st, PromptStep(UseBinding(gen)));
    var st1 := Apply(st, PromptStep(UseBinding(gen)));
    Go(start, st1, PromptStep(Install));
    var st2 := Apply(st1, PromptStep(Install));
    Go(start, st2, PromptStep(StartAnswered(native, false)));
    after := Apply(st2, PromptStep(StartAnswered(native, false)));
  }

  /** A prompt that finds no turn to start gives up, and leaves the session as it is. */
  lemma BoundPromptGivesUp(start: State, st: State)
    requires Leads(start, st) && st.prompt.Bound?
    ensures Leads(start, st.(prompt := NoPrompt))
  {
    Go(start, st, PromptStep(PromptMove.GiveUp));
  }

  // ---- the end ----

  lemma EndIsStamped(t: Turn, stop: Stop)
    requires t.ended.Running? && !t.cycle.cancelled
    ensures Stamped(t, Record(Completed(stop), 0), false) == t
    ensures !Foreign(t, Record(Completed(stop), 0))
  {
  }

  lemma EndIsProjected(t: Turn, at: WorkerAt, stop: Stop, w: nat)
    requires t.ended.Running? && at.Projecting? && at.record == Record(Completed(stop), 0) && !at.foreign && !at.cancelled
    ensures var x := Projected(t, at, w, false);
            && x.ended == Settled && x.settledBy == Some(w) && x.cycle.stop == Some(stop)
            && x.cycle.failure == t.cycle.failure && x.cycle.cancelled == t.cycle.cancelled
            && x.cycle.records == t.cycle.records + [at.record]
  {
  }

  /** An idle worker of the binding's generation takes the turn's end in, settles the turn, and
      waits for its prompt. */
  lemma EndIsTaken(start: State, st: State, w: nat, t: nat, stop: Stop) returns (after: State)
    requires Inv(start) && Leads(start, st) && w < |st.workers| && PromptTurn(st.prompt) == Some(t)
    requires st.workers[w].at.Idle? && st.session.bound == Some(st.workers[w].gen)
    requires t < |st.turns| && st.turns[t].ended.Running? && !st.turns[t].cycle.cancelled
    ensures Leads(start, after) && |after.turns| == |st.turns|
    ensures after == st.(turns := st.turns[t := after.turns[t]], workers := st.workers[w := st.workers[w].(at := Parked(t))])
    ensures var x := after.turns[t];
            && x.ended == Settled && x.cycle.stop == Some(stop)
            && x.cycle.failure == st.turns[t].cycle.failure && !x.cycle.cancelled
  {
    var st1 := CanRead(start, st, w, t, Completed(stop));
    EndIsStamped(st.turns[t], stop);
    Go(start, st1, WorkerStep(w, Stamp(false)));
    var st2 := Apply(st1, WorkerStep(w, Stamp(false)));
    assert st2.turns == st.turns;
    EndIsProjected(st.turns[t], st2.workers[w].at, stop, w);
    Go(start, st2, WorkerStep(w, Project(false)));
    after := Apply(st2, WorkerStep(w, Project(false)));
  }

  // ---- the answer ----

  /** The prompt of an ended turn closes its admission and waits out the dialogs and interrupts. */
  lemma CallsGoQuiet(start: State, st: State, t: nat) returns (after: State)
    requires Inv(start) && Leads(start, st) && st.prompt == Waiting(t)
    requires t < |st.turns| && !st.turns[t].ended.Running?
    ensures Leads(start, after)
    ensures after == st.(turns := st.turns[t := Admit(st.turns[t])], calls := after.calls, prompt := Judging(t))
    ensures after.calls.callbacks == 0
  {
    Go(start, st, PromptStep(SeeSettled));
    var st1 := Apply(st, PromptStep(SeeSettled));
    Go(start, st1, PromptStep(BeginSettlement));
    var st2 := Apply(st1, PromptStep(BeginSettlement));
    LeadsKeepsInv(start, st2);
    var st3 := CallsCanEnd(start, st2);
    Go(start, st3, PromptStep(CallsQuiet));
    after := Apply(st3, PromptStep(CallsQuiet));
  }

  /** The mark is read and the turn judged. */
  lemma CallsAreJudged(start: State, st: State, t: nat) returns (after: State)
    requires Inv(start) && Leads(start, st) && st.prompt == Judging(t) && t < |st.turns|
    ensures Leads(start, after) && after.prompt.Committing? && after.prompt.turn == t && after == st.(prompt := after.prompt)
    ensures CarriesVerdict(after.prompt, t, st.turns[t], st.turns[t].cycle.cancelled)
  {
    Go(start, st, PromptStep(ReadMark));
    var st1 := Apply(st, PromptStep(ReadMark));
    LeadsKeepsInv(start, st1);
    JudgementCalls(st1);
    Go(start, st1, PromptStep(JudgeTurn));
    after := Apply(st1, PromptStep(JudgeTurn));
  }

  /** The prompt commits, claims the mark, and publishes its idle event. */
  lemma VerdictIsPublished(start: State, st: State, t: nat, x: Turn, mark: bool) returns (after: State)
    requires Leads(start, st) && st.prompt.Committing? && st.prompt.turn == t && t < |st.turns|
    requires CarriesVerdict(st.prompt, t, x, mark)
    ensures Leads(start, after) && after.prompt.Removing? && after.prompt.turn == t && after.prompt.settlement.Some?
    ensures CarriesVerdict(after.prompt, t, x, mark) && after == st.(prompt := after.prompt)
    ensures var s := after.prompt.settlement.value;
            s.committed && !s.idleFailed && s.claimed == st.turns[t].cycle.cancelled && (s.idle.Some? <==> !st.session.fenced)
  {
    PromptCarries(st, Commit(true), t, x, mark);
    Go(start, st, PromptStep(Commit(true)));
    var st1 := Apply(st, PromptStep(Commit(true)));
    PromptCarries(st1, Claim, t, x, mark);
    Go(start, st1, PromptStep(Claim));
    var st2 := Apply(st1, PromptStep(Claim));
    PromptCarries(st2, Publish(true), t, x, mark);
    Go(start, st2, PromptStep(Publish(true)));
    after := Apply(st2, PromptStep(Publish(true)));
  }

  lemma JudgedIsPublished(start: State, st: State, t: nat) returns (after: State, s: Settlement)
    requires Inv(start) && Leads(start, st) && st.prompt == Judging(t) && t < |st.turns|
    ensures Leads(start, after) && after == st.(prompt := Removing(t, Some(s)))
    ensures var mark := st.turns[t].cycle.cancelled;
            && Settles(s, st.turns[t], mark) && s.committed && !s.idleFailed && s.claimed == mark
            && (s.idle.Some? <==> !st.session.fenced)
  {
    var st1 := CallsAreJudged(start, st, t);
    after := VerdictIsPublished(start, st1, t, st.turns[t], st.turns[t].cycle.cancelled);
    s := after.prompt.settlement.value;
  }

  /** An answered prompt removes its turn, remembers its native turn, and is over. */
  lemma AnsweredIsOver(start: State, st: State, t: nat) returns (after: State)
    requires Inv(start) && Leads(start, st) && st.prompt.Removing? && st.prompt.turn == t && t < |st.turns|
    ensures Leads(start, after) && after.prompt == NoPrompt && |after.turns| == |st.turns|
    ensures after.session.current == None && after.turns[t].finished
    ensures after.session.lastTerminal ==
              if st.turns[t].cycle.native != 0 then st.turns[t].cycle.native else st.session.lastTerminal
    ensures after.session.fenced <==> st.session.fenced || st.session.lost || st.turns[t].ended == TransportEnded
  {
    LeadsKeepsInv(start, st);
    Go(start, st, PromptStep(Remove));
    var st1 := Apply(st, PromptStep(Remove));
    Go(start, st1, PromptStep(PromptMove.Finish));
    after := Apply(st1, PromptStep(PromptMove.Finish));
  }

  /** From every reachable state in which a prompt waits for an ended turn, and without any cancel,
      the prompt can answer it, with its commit and its idle event, and be over. */
  lemma EndedTurnIsAnswered(st: State, t: nat) returns (answered: State, s: Settlement, over: State)
    requires Inv(st) && st.prompt == Waiting(t) && t < |st.turns| && !st.turns[t].ended.Running?
    ensures Leads(st, answered) && answered.prompt == Removing(t, Some(s))
    ensures Settles(s, st.turns[t], st.turns[t].cycle.cancelled)
    ensures s.committed && !s.idleFailed && s.claimed == st.turns[t].cycle.cancelled && (s.idle.Some? <==> !st.session.fenced)
    ensures Leads(st, over) && over.prompt == NoPrompt && over.session.current == None
  {
    Stays(st);
    var st1 := CallsGoQuiet(st, st, t);
    answered, s := JudgedIsPublished(st, st1, t);
    over := AnsweredIsOver(st, answered, t);
  }

  /** From every reachable state in which a prompt waits for a running turn that was neither
      cancelled nor failed, and a worker of the binding's generation is idle, the turn's native end
      is taken in and answered as it says: `EndTurn` for an end, a cancellation for an interrupt, an
      error for an error; the idle event says the same unless the stream is fenced. */
  lemma NativeEndIsAnswered(st: State, w: nat, t: nat, stop: Stop) returns (answered: State, s: Settlement)
    requires Inv(st) && st.prompt == Waiting(t) && t < |st.turns|
    requires st.turns[t].ended.Running? && !st.turns[t].cycle.cancelled && !st.turns[t].cycle.failure
    requires w < |st.workers| && st.workers[w].at.Idle? && st.session.bound == Some(st.workers[w].gen)
    ensures Leads(st, answered) && answered.prompt == Removing(t, Some(s))
    ensures s.answer == AnswerTo(stop)
    ensures if st.session.fenced then s.idle == None
            else s.idle == Some(match stop case EndTurn => Success case StopCancelled => Cancelled case StopError => Failed)
  {
    Stays(st);
    var st1 := EndIsTaken(st, st, w, t, stop);
    var st2 := CallsGoQuiet(st, st1, t);
    answered, s := JudgedIsPublished(st, st2, t);
  }
}
