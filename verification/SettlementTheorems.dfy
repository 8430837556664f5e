/** What settlement promises, for every run from the initial state, and the runs in which it
    promises less than its comments say. */
module SettlementTheorems {
  import opened Wrappers
  import opened Settlement
  import opened SettlementProofs
  import opened SettlementPast
  import opened SettlementWriters
  import opened SettlementRecords

  predicate Inv(st: State) {
    Basic(st) && CallsOk(st) && EndsOk(st) && Writers(st) && RecordsOk(st) && Past(st)
  }

  lemma StepKeepsInv(st: State, step: Step)
    requires Inv(st) && Enabled(st, step)
    ensures Inv(Apply(st, step))
  {
    StepKeepsBasic(st, step);
    StepKeepsCalls(st, step);
    StepKeepsEnds(st, step);
    StepKeepsWriters(st, step);
    StepKeepsRecords(st, step);
    StepKeepsPast(st, step);
  }

  lemma {:induction false} RunKeepsInv(st: State, steps: seq<Step>)
    requires Inv(st) && Runs(st, steps)
    ensures Inv(After(st, steps))
    decreases |steps|
  {
    if steps == [] {
    } else {
      StepKeepsInv(st, steps[0]);
      RunKeepsInv(Apply(st, steps[0]), steps[1..]);
    }
  }

  lemma {:induction false} RunGoesOn(st: State, steps: seq<Step>)
    requires Runs(st, steps)
    ensures TurnsGoOn(st, After(st, steps))
    decreases |steps|
  {
    if steps == [] {
    } else {
      StepGoesOn(st, steps[0]);
      RunGoesOn(Apply(st, steps[0]), steps[1..]);
    }
  }

  lemma ReachableInv(steps: seq<Step>)
    requires Runs(Initial, steps)
    ensures Inv(After(Initial, steps))
  {
    RunKeepsInv(Initial, steps);
  }

  // ---- settlement ----

  /** A turn's end is fixed once, whatever else races to end it, and its cancel mark, its first
      failure and its native turn are never taken back. */
  lemma EndFixedOnce(steps: seq<Step>, more: seq<Step>, t: nat)
    requires Runs(Initial, steps) && Runs(After(Initial, steps), more) && t < |After(Initial, steps).turns|
    ensures var st, st' := After(Initial, steps), After(After(Initial, steps), more);
            t < |st'.turns| && TurnGoesOn(st.turns[t], st'.turns[t])
  {
    RunGoesOn(After(Initial, steps), more);
  }

  /** A prompt settles only a turn that has ended, and what it does then agrees: a lost commit
      answers an error, a cancel marked by the claim answers cancelled when commit and idle went
      out, and a delivered idle event names the outcome the response carries. */
  lemma ResponseAgrees(steps: seq<Step>)
    requires Runs(Initial, steps)
    requires var p := After(Initial, steps).prompt; p.Removing? && p.settlement.Some?
    ensures var st := After(Initial, steps);
            && Agrees(st.prompt.settlement.value)
            && st.prompt.turn < |st.turns| && !st.turns[st.prompt.turn].ended.Running?
  {
    ReachableInv(steps);
  }

  /** A failed outcome about to be published carries a failure: a turn is contained without one
      only when it was cancelled. */
  lemma FailureIsCarried(steps: seq<Step>)
    requires Runs(Initial, steps)
    requires var p := After(Initial, steps).prompt; p.Publishing? || p.Committing? || p.Claiming?
    ensures var p := After(Initial, steps).prompt; p.verdict.outcome.Failed? <==> p.verdict.failing
  {
    ReachableInv(steps);
  }

  /** Past the claim of a turn, its cancellation is claimed. */
  predicate ClaimedFor(p: Prompt, t: nat) {
    && (p.Publishing? && p.turn == t ==> p.claimed)
    && (p.Removing? && p.turn == t && p.settlement.Some? ==> p.settlement.value.claimed)
  }

  predicate MarkedUnclaimed(st: State, t: nat) {
    t < |st.turns| && st.turns[t].cycle.cancelled && ClaimedFor(st.prompt, t)
  }

  lemma PromptClaims(st: State, move: PromptMove, t: nat)
    requires MarkedUnclaimed(st, t) && PromptCan(st, move)
    ensures ClaimedFor(PromptDoes(st, move).prompt, t)
  {
  }

  lemma StepClaims(st: State, step: Step, t: nat)
    requires MarkedUnclaimed(st, t) && Enabled(st, step)
    ensures MarkedUnclaimed(Apply(st, step), t)
  {
    StepGoesOn(st, step);
    if step.PromptStep? {
      PromptClaims(st, step.prompt, t);
    } else {
      OthersOnlyUnbind(st, step);
    }
  }

  lemma {:induction false} RunClaims(st: State, more: seq<Step>, t: nat)
    requires MarkedUnclaimed(st, t) && Runs(st, more)
    ensures MarkedUnclaimed(After(st, more), t)
    decreases |more|
  {
    if more == [] {
    } else {
      StepClaims(st, more[0], t);
      RunClaims(Apply(st, more[0]), more[1..], t);
    }
  }

  /** A cancel marked on a turn at any time before its prompt claims the verdict is answered
      cancelled, if the commit succeeds and the idle event is not refused, whatever happens in
      between. */
  lemma CancelBeforeClaimIsAnswered(steps: seq<Step>, more: seq<Step>, t: nat)
    requires Runs(Initial, steps) && Runs(After(Initial, steps), more)
    requires var st := After(Initial, steps);
             && t < |st.turns| && st.turns[t].cycle.cancelled
             && !(st.prompt.Publishing? && st.prompt.turn == t) && !(st.prompt.Removing? && st.prompt.turn == t)
    requires var p := After(After(Initial, steps), more).prompt; p.Removing? && p.turn == t && p.settlement.Some?
    ensures var s := After(After(Initial, steps), more).prompt.settlement.value;
            s.claimed && (s.committed && !s.idleFailed ==> s.answer == AnswerCancelled)
  {
    ReachableInv(steps);
    RunKeepsInv(After(Initial, steps), more);
    RunClaims(After(Initial, steps), more, t);
  }

  // ---- callbacks ----

  lemma MappedHasValue(m: map<nat, nat>)
    ensures m == map[] || m.Values != {}
  {
    if k :| k in m {
      assert m[k] in m.Values;
    }
  }

  /** The wait group counts exactly the open dialogs and the running interrupts, and from the
      end of beginSettlement's wait to the turn's removal there are none. */
  lemma CallbacksCounted(steps: seq<Step>)
    requires Runs(Initial, steps)
    ensures var st := After(Initial, steps);
            && st.calls.callbacks == |st.calls.open| + st.calls.interrupts
            && (AfterQuiet(st.prompt) ==> st.calls.callbacks == 0 && st.calls.open == {} && st.calls.mapped == map[])
  {
    ReachableInv(steps);
    var c := After(Initial, steps).calls;
    if AfterQuiet(After(Initial, steps).prompt) {
      assert |c.open| == 0;
      MappedHasValue(c.mapped);
    }
  }

  predicate AdmitsNothing(c: Calls, c': Calls) {
    c'.open <= c.open && c'.interrupts <= c.interrupts
  }

  lemma OtherAdmitsNothing(st: State, move: OtherMove)
    requires Basic(st) && CallsOk(st) && InSettlement(st.prompt) && OtherCan(st, move)
    ensures AdmitsNothing(st.calls, OtherDoes(st, move).calls)
  {
    assert st.session.current == Some(st.prompt.turn);
  }

  lemma PromptAdmitsNothing(st: State, move: PromptMove)
    requires InSettlement(st.prompt) && PromptCan(st, move)
    ensures AdmitsNothing(st.calls, PromptDoes(st, move).calls)
  {
  }

  lemma StepAdmitsNothing(st: State, step: Step)
    requires Basic(st) && CallsOk(st) && InSettlement(st.prompt) && Enabled(st, step)
    ensures AdmitsNothing(st.calls, Apply(st, step).calls)
  {
    match step
    case PromptStep(move) => PromptAdmitsNothing(st, move);
    case WorkerStep(w, move) =>
    case ContainStep(c, move) =>
    case EndStep(e, move) =>
    case OtherStep(move) => OtherAdmitsNothing(st, move);
  }

  /** Once a turn is settling, nothing that happens before its removal registers a dialog or an
      interrupt. */
  lemma {:induction false} SettlementAdmitsNothing(st: State, more: seq<Step>)
    requires Inv(st) && Runs(st, more)
    requires forall k | 0 <= k <= |more| :: Runs(st, more[..k]) && InSettlement(After(st, more[..k]).prompt)
    ensures AdmitsNothing(st.calls, After(st, more).calls)
    decreases |more|
  {
    if more != [] {
      assert After(st, more[..0]) == st;
      StepAdmitsNothing(st, more[0]);
      StepKeepsInv(st, more[0]);
      forall k | 0 <= k <= |more[1..]|
        ensures Runs(Apply(st, more[0]), more[1..][..k]) && InSettlement(After(Apply(st, more[0]), more[1..][..k]).prompt)
      {
        assert more[..k + 1][1..] == more[1..][..k] && more[..k + 1][0] == more[0];
        assert Runs(st, more[..k + 1]);
      }
      SettlementAdmitsNothing(Apply(st, more[0]), more[1..]);
    }
  }

  // ---- records ----

  /** Every record in a turn's cycle names the turn's native turn or none, and none of them
      names the turn that was terminalized before it. */
  lemma RecordsAttributed(steps: seq<Step>, t: nat, k: nat)
    requires Runs(Initial, steps)
    requires t < |After(Initial, steps).turns| && k < |After(Initial, steps).turns[t].cycle.records|
    ensures var turn := After(Initial, steps).turns[t];
            Belongs(turn, turn.cycle.records[k])
  {
    ReachableInv(steps);
    assert CycleOk(After(Initial, steps).turns[t]);
  }

  lemma OwnRecordSettles(st: State, w: nat, move: WorkerMove, t: nat)
    requires Basic(st) && RecordsOk(st) && WorkerCan(st, w, move) && t < |st.turns|
    requires WorkerDoes(st, w, move).turns[t].ended != st.turns[t].ended
    ensures st.workers[w].at.Projecting? && st.workers[w].at.turn == t
    ensures st.workers[w].at.record.kind.Completed? && Belongs(st.turns[t], st.workers[w].at.record)
  {
    assert HeldOk(st.turns, st.workers[w].at);
  }

  lemma ProjectedNamesNone(t: Turn, at: WorkerAt, w: nat, refused: bool)
    requires at.Projecting?
    ensures Projected(t, at, w, refused).cycle.native == t.cycle.native
  {
  }

  lemma StampedNames(t: Turn, record: Record, refused: bool)
    ensures Stamped(t, record, refused).cycle.native ==
              if t.cycle.native == 0 && !record.kind.Compaction? then record.turn else t.cycle.native
  {
  }

  lemma OnlyStampsName(st: State, w: nat, move: WorkerMove, t: nat)
    requires WorkerCan(st, w, move) && t < |st.turns|
    ensures var at, native := st.workers[w].at, st.turns[t].cycle.native;
            WorkerDoes(st, w, move).turns[t].cycle.native ==
              if move.Stamp? && at.turn == t && native == 0 && !at.record.kind.Compaction? then at.record.turn else native
  {
    var at := st.workers[w].at;
    if move.Project? {
      ProjectedNamesNone(st.turns[at.turn], at, w, move.refused);
    } else if move.Stamp? {
      StampedNames(st.turns[at.turn], at.record, move.refused);
    }
  }

  lemma OwnRecordNames(st: State, w: nat, move: WorkerMove, t: nat)
    requires Basic(st) && RecordsOk(st) && WorkerCan(st, w, move) && t < |st.turns|
    requires WorkerDoes(st, w, move).turns[t].cycle.native != st.turns[t].cycle.native
    ensures st.turns[t].cycle.native == 0 && WorkerDoes(st, w, move).turns[t].cycle.native != st.turns[t].prior
  {
    OnlyStampsName(st, w, move, t);
    assert HeldOk(st.turns, st.workers[w].at);
  }

  /** A worker names or settles a turn only with a record of that turn: one that names the turn
      or none, and never the turn terminalized before it. */
  lemma OwnRecordsNameAndSettle(steps: seq<Step>, w: nat, move: WorkerMove, t: nat)
    requires Runs(Initial, steps) && WorkerCan(After(Initial, steps), w, move) && t < |After(Initial, steps).turns|
    ensures var st := After(Initial, steps);
            var st' := WorkerDoes(st, w, move);
            var turn, turn' := st.turns[t], st'.turns[t];
            && (turn'.cycle.native != turn.cycle.native ==> turn.cycle.native == 0 && turn'.cycle.native != turn.prior)
            && (turn'.ended != turn.ended ==>
                  && st.workers[w].at.Projecting? && st.workers[w].at.turn == t
                  && st.workers[w].at.record.kind.Completed? && Belongs(turn, st.workers[w].at.record))
  {
    ReachableInv(steps);
    var st := After(Initial, steps);
    var turn, turn' := st.turns[t], WorkerDoes(st, w, move).turns[t];
    if turn'.cycle.native != turn.cycle.native {
      OwnRecordNames(st, w, move, t);
    }
    if turn'.ended != turn.ended {
      OwnRecordSettles(st, w, move, t);
    }
  }

  /** The worker that settled a turn projects nothing more before the turn has finished. */
  lemma SettlerProjectsNoMore(steps: seq<Step>, t: nat)
    requires Runs(Initial, steps) && t < |After(Initial, steps).turns|
    requires var turn := After(Initial, steps).turns[t]; turn.settledBy.Some? && !turn.finished
    ensures var st := After(Initial, steps);
            var w := st.turns[t].settledBy.value;
            w < |st.workers| && (st.workers[w].at == Parked(t) || st.workers[w].at.Exited?)
  {
    ReachableInv(steps);
    assert ParkedAt(After(Initial, steps), t);
  }

  // ---- who writes a turn that is being answered ----

  predicate Writes(st: State, w: nat, t: nat)
    requires w < |st.workers|
  {
    var at := st.workers[w].at;
    (at.Holding? && at.turn == t) || (at.Projecting? && at.turn == t)
  }

  predicate Answering(p: Prompt) {
    p.Admitting? || InSettlement(p)
  }

  /** While a prompt is answered, only a late worker can still write its turn: one whose queue
      was created after the turn had ended or its containment begun. */
  lemma OnlyLateWriters(steps: seq<Step>, w: nat)
    requires Runs(Initial, steps)
    requires var st := After(Initial, steps);
             Answering(st.prompt) && w < |st.workers| && Writes(st, w, st.prompt.turn)
    ensures After(Initial, steps).workers[w].late
  {
    ReachableInv(steps);
    var st := After(Initial, steps);
    assert Alive(st, w, st.turns[st.prompt.turn].gen);
  }

  /** No queue of the session is created while its turn is ended, lost or unbound. */
  predicate NeverLate(st: State, steps: seq<Step>)
    requires Runs(st, steps)
    decreases |steps|
  {
    steps == [] ||
    (&& (steps[0].OtherStep? && steps[0].other.CreateQueue? ==> !LateQueue(st, steps[0].other.gen))
     && NeverLate(Apply(st, steps[0]), steps[1..]))
  }

  lemma {:induction false} NeverLateMarksNone(st: State, steps: seq<Step>)
    requires Inv(st) && Runs(st, steps) && NeverLate(st, steps)
    requires forall w | 0 <= w < |st.workers| :: !st.workers[w].late
    ensures forall w | 0 <= w < |After(st, steps).workers| :: !After(st, steps).workers[w].late
    decreases |steps|
  {
    if steps != [] {
      var st' := Apply(st, steps[0]);
      StepKeepsInv(st, steps[0]);
      OnlyQueuesAddWorkers(st, steps[0]);
      forall w | 0 <= w < |st'.workers| ensures !st'.workers[w].late {
        if w < |st.workers| {
          WorkersGoOn(st, steps[0], w);
        }
      }
      NeverLateMarksNone(st', steps[1..]);
    }
  }

  /** In a run that creates no such queue, nothing writes a turn while its prompt is answered. */
  lemma NothingWritesAnsweredTurn(steps: seq<Step>, w: nat)
    requires Runs(Initial, steps) && NeverLate(Initial, steps)
    requires w < |After(Initial, steps).workers| && Answering(After(Initial, steps).prompt)
    ensures !Writes(After(Initial, steps), w, After(Initial, steps).prompt.turn)
  {
    ReachableInv([]);
    NeverLateMarksNone(Initial, steps);
    if Writes(After(Initial, steps), w, After(Initial, steps).prompt.turn) {
      OnlyLateWriters(steps, w);
    }
  }

  // ---- everything that writes a turn that is being answered ----

  /** A containment that read the turn records its failure. */
  predicate RecordsFailure(st: State, step: Step, t: nat)
    requires Enabled(st, step)
  {
    step.ContainStep? && step.contain.Quiet? && st.containers[step.c].turn == Some(t)
  }

  /** The host's cancel, or the session's close, marks it. */
  predicate Marks(step: Step) {
    step.OtherStep? && (step.other.HostCancels? || step.other.CloseMarks?)
  }

  lemma WorkerWrites(st: State, w: nat, move: WorkerMove, t: nat)
    requires WorkerCan(st, w, move) && t < |st.turns| && !Writes(st, w, t)
    ensures WorkerDoes(st, w, move).turns[t] == st.turns[t]
  {
  }

  lemma ContainWrites(st: State, c: nat, move: ContainMove, t: nat)
    requires ContainCan(st, c, move) && t < |st.turns| && !st.turns[t].ended.Running?
    ensures ContainDoes(st, c, move).turns[t] ==
              if move.Quiet? && st.containers[c].turn == Some(t) then Fail(st.turns[t]) else st.turns[t]
  {
  }

  lemma EndWrites(st: State, e: nat, move: EndMove, t: nat)
    requires EndCan(st, e, move) && t < |st.turns| && !st.turns[t].ended.Running?
    ensures EndDoes(st, e, move).turns[t] == st.turns[t]
  {
  }

  lemma OtherWrites(st: State, move: OtherMove, t: nat)
    requires OtherCan(st, move) && t < |st.turns| && st.calls.open == {}
    ensures OtherDoes(st, move).turns[t] == st.turns[t]
            || ((move.HostCancels? || move.CloseMarks?) && OtherDoes(st, move).turns[t] == Mark(st.turns[t]))
  {
  }

  lemma PromptWrites(st: State, move: PromptMove)
    requires AfterQuiet(st.prompt) && PromptCan(st, move)
    ensures PromptDoes(st, move).turns == st.turns
  {
  }

  /** From the end of the wait for callbacks to the turn's removal only three things write the
      turn: a late worker's record, a containment's failure, and a cancel's mark. */
  lemma AnsweredTurnWriters(steps: seq<Step>, step: Step)
    requires Runs(Initial, steps) && Enabled(After(Initial, steps), step) && AfterQuiet(After(Initial, steps).prompt)
    ensures var st := After(Initial, steps);
            var st', t := Apply(st, step), st.prompt.turn;
            && t < |st.turns| && t < |st'.turns|
            && (|| st'.turns[t] == st.turns[t]
                || (step.WorkerStep? && Writes(st, step.w, t) && st.workers[step.w].late)
                || (RecordsFailure(st, step, t) && st'.turns[t] == Fail(st.turns[t]))
                || (Marks(step) && st'.turns[t] == Mark(st.turns[t])))
  {
    ReachableInv(steps);
    var st := After(Initial, steps);
    var t := st.prompt.turn;
    CallbacksCounted(steps);
    StepGoesOn(st, step);
    match step
    case PromptStep(move) => PromptWrites(st, move);
    case WorkerStep(w, move) =>
      if Writes(st, w, t) {
        OnlyLateWriters(steps, w);
      } else {
        WorkerWrites(st, w, move, t);
      }
    case ContainStep(c, move) => ContainWrites(st, c, move, t);
    case EndStep(e, move) => EndWrites(st, e, move, t);
    case OtherStep(move) => OtherWrites(st, move, t);
  }
}
