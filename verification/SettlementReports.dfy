/** What a turn's cycle says of the native records it took in, which steps say it, and what its
    prompt answers for them. */
module SettlementReports {
  import opened Wrappers
  import opened Settlement
  import opened SettlementProofs
  import opened SettlementTheorems
  import opened SettlementVerdict

  // ---- which steps write what ----

  /** A worker's step that takes a record of a turn at its given stage. */
  predicate Holds(st: State, w: nat, t: nat) {
    w < |st.workers| && st.workers[w].at.Holding? && st.workers[w].at.turn == t
  }

  predicate Projects(st: State, w: nat, t: nat) {
    w < |st.workers| && st.workers[w].at.Projecting? && st.workers[w].at.turn == t
  }

  /** The record in the worker's hand counts for the run: it is its turn's own, and the cycle was
      not cancelled when it was stamped. */
  predicate Counts(at: WorkerAt) {
    at.Projecting? && !at.foreign && !at.cancelled && !at.record.kind.Compaction?
  }

  /** The step records a failure of the turn: a failing record, an update or a publication the
      host refuses, or a containment. */
  predicate Fails(st: State, step: Step, t: nat)
    requires t < |st.turns|
  {
    match step
    case PromptStep(StartAnswered(_, refused)) => st.prompt.Starting? && st.prompt.turn == t && refused && !st.turns[t].accepted
    case WorkerStep(w, Stamp(refused)) =>
      Holds(st, w, t) && st.workers[w].at.record.kind.Work? && refused && !st.turns[t].accepted
    case WorkerStep(w, Project(refused)) =>
      && Projects(st, w, t)
      && var at := st.workers[w].at;
         || (at.record.kind.Compaction? && refused)
         || (Counts(at) && (at.record.kind.Failing? || (refused && !at.record.kind.Completed?)))
    case ContainStep(c, Quiet) => c < |st.containers| && st.containers[c].turn == Some(t)
    case OtherStep(RequestAccepts(u, refused)) => u == t && refused && !st.turns[t].accepted
    case _ => false
  }

  /** The failure the step records is one the provider reported. */
  predicate ReportsFailing(st: State, step: Step, t: nat) {
    && step.WorkerStep? && step.work.Project? && Projects(st, step.w, t)
    && Counts(st.workers[step.w].at) && st.workers[step.w].at.record.kind.Failing?
  }

  /** The step cancels the turn: the prompt's own cancel, the host's, or the session's close. */
  predicate Cancels(st: State, step: Step, t: nat) {
    && st.session.current == Some(t)
    && (step == PromptStep(PromptMove.Cancel) || step == OtherStep(HostCancels) || step == OtherStep(CloseMarks))
  }

  /** How the step ends a running turn. */
  function Ends(st: State, step: Step, t: nat): End
    requires t < |st.turns|
  {
    match step
    case PromptStep(ForceSettle) => if st.prompt.ForceSettling? && st.prompt.turn == t then Contained else Running
    case WorkerStep(w, Project(_)) =>
      if Projects(st, w, t) && !st.workers[w].at.foreign && st.workers[w].at.record.kind.Completed? then Settled else Running
    case ContainStep(c, SettleContained) =>
      if c < |st.containers| && st.containers[c].turn == Some(t) then Contained else Running
    case EndStep(e, EndSettle) =>
      if e < |st.enders| && st.enders[e].turn == Some(t) then TransportEnded else Running
    case _ => Running
  }

  /** The records the step adds to the cycle. */
  function Adds(st: State, step: Step, t: nat): seq<Record> {
    if step.WorkerStep? && step.work.Project? && Projects(st, step.w, t) && Counts(st.workers[step.w].at)
    then [st.workers[step.w].at.record]
    else []
  }

  /** A turn after a step, told field by field. */
  predicate Written(st: State, step: Step, t: nat, x: Turn)
    requires t < |st.turns|
  {
    var was := st.turns[t];
    && (x.cycle.failure <==> was.cycle.failure || Fails(st, step, t))
    && (x.cycle.failure && !was.cycle.failure ==> (x.cycle.provider <==> ReportsFailing(st, step, t)))
    && (x.cycle.cancelled <==> was.cycle.cancelled || Cancels(st, step, t))
    && x.ended == (if was.ended.Running? then Ends(st, step, t) else was.ended)
    && x.cycle.records == was.cycle.records + Adds(st, step, t)
  }

  lemma PromptWritten(st: State, move: PromptMove, t: nat)
    requires Basic(st) && PromptCan(st, move) && t < |st.turns|
    ensures Written(st, PromptStep(move), t, PromptDoes(st, move).turns[t])
  {
    if move.StartAnswered? {
    } else if move.Cancel? || move.ForceSettle? {
    } else if move.BeginSettlement? || move.Finish? || move.Install? {
    } else {
      assert PromptDoes(st, move).turns == st.turns;
    }
  }

  lemma StampWritten(t: Turn, record: Record, refused: bool)
    ensures var x := Stamped(t, record, refused);
            && (x.cycle.failure <==> t.cycle.failure || (record.kind.Work? && refused && !t.accepted))
            && (x.cycle.failure && !t.cycle.failure ==> !x.cycle.provider)
            && (x.accepted <==> t.accepted || record.kind.Work?)
            && x.cycle.native == (if t.cycle.native == 0 && !record.kind.Compaction? then record.turn else t.cycle.native)
            && x.cycle.cancelled == t.cycle.cancelled && x.ended == t.ended && x.cycle.records == t.cycle.records
  {
  }

  lemma AccountWritten(t: Turn, kind: Kind, w: nat, refused: bool)
    ensures var x := Accounted(t, kind, w, refused);
            && (x.cycle.failure <==> t.cycle.failure || kind.Failing? || (refused && !kind.Completed?))
            && (x.cycle.failure && !t.cycle.failure ==> (x.cycle.provider <==> kind.Failing?))
            && x.accepted == t.accepted && x.cycle.native == t.cycle.native && x.cycle.cancelled == t.cycle.cancelled
            && x.ended == (if t.ended.Running? && kind.Completed? then Settled else t.ended)
            && x.cycle.records == t.cycle.records
  {
  }

  lemma ProjectWritten(t: Turn, at: WorkerAt, w: nat, refused: bool)
    requires at.Projecting?
    ensures var x := Projected(t, at, w, refused);
            && (x.cycle.failure <==>
                  || t.cycle.failure || (at.record.kind.Compaction? && refused)
                  || (Counts(at) && (at.record.kind.Failing? || (refused && !at.record.kind.Completed?))))
            && (x.cycle.failure && !t.cycle.failure ==> (x.cycle.provider <==> Counts(at) && at.record.kind.Failing?))
            && x.accepted == t.accepted && x.cycle.native == t.cycle.native && x.cycle.cancelled == t.cycle.cancelled
            && x.ended == (if t.ended.Running? && !at.foreign && at.record.kind.Completed? then Settled else t.ended)
            && x.cycle.records == if Counts(at) then t.cycle.records + [at.record] else t.cycle.records
  {
    if Counts(at) {
      AccountWritten(Taken(t, at.record), at.record.kind, w, refused);
    }
  }

  lemma WorkerWritten(st: State, w: nat, move: WorkerMove, t: nat)
    requires WorkerCan(st, w, move) && t < |st.turns|
    ensures Written(st, WorkerStep(w, move), t, WorkerDoes(st, w, move).turns[t])
  {
    var at := st.workers[w].at;
    if move.Stamp? && at.turn == t {
      StampWritten(st.turns[t], at.record, move.refused);
    } else if move.Project? && at.turn == t {
      ProjectWritten(st.turns[t], at, w, move.refused);
    } else {
      assert WorkerDoes(st, w, move).turns[t] == st.turns[t];
    }
  }

  lemma ContainWritten(st: State, c: nat, move: ContainMove, t: nat)
    requires Basic(st) && ContainCan(st, c, move) && t < |st.turns|
    ensures Written(st, ContainStep(c, move), t, ContainDoes(st, c, move).turns[t])
  {
    assert ContainerOk(st, st.containers[c]);
  }

  lemma EndWritten(st: State, e: nat, move: EndMove, t: nat)
    requires EndCan(st, e, move) && t < |st.turns|
    ensures Written(st, EndStep(e, move), t, EndDoes(st, e, move).turns[t])
  {
  }

  lemma OtherWritten(st: State, move: OtherMove, t: nat)
    requires Basic(st) && OtherCan(st, move) && t < |st.turns|
    ensures Written(st, OtherStep(move), t, OtherDoes(st, move).turns[t])
  {
    if move.HostCancels? || move.CloseMarks? || move.RequestAccepts? {
    } else {
      assert OtherDoes(st, move).turns == st.turns;
    }
  }

  /** In every reachable state every step leaves a turn failed, cancelled, ended and with the
      records that the step's own description says, and nothing else does. */
  lemma StepWrites(steps: seq<Step>, step: Step, t: nat)
    requires Runs(Initial, steps) && Enabled(After(Initial, steps), step) && t < |After(Initial, steps).turns|
    ensures t < |Apply(After(Initial, steps), step).turns|
    ensures Written(After(Initial, steps), step, t, Apply(After(Initial, steps), step).turns[t])
  {
    ReachableInv(steps);
    var st := After(Initial, steps);
    StepGoesOn(st, step);
    match step
    case PromptStep(move) => PromptWritten(st, move, t);
    case WorkerStep(w, move) => WorkerWritten(st, w, move, t);
    case ContainStep(c, move) => ContainWritten(st, c, move, t);
    case EndStep(e, move) => EndWritten(st, e, move, t);
    case OtherStep(move) => OtherWritten(st, move, t);
  }

  // ---- which turn a record counts for ----

  /** An idle worker takes a record in for the session's turn exactly when the session is bound on the
      worker's generation and the record does not name the turn terminalized last; any other record
      is passed over. */
  lemma RecordIsAttributed(st: State, w: nat, record: Record)
    requires w < |st.workers| && st.workers[w].at == Idle
    ensures Enabled(st, WorkerStep(w, Read(record)))
    ensures Apply(st, WorkerStep(w, Read(record))) ==
              if && st.session.bound == Some(st.workers[w].gen) && st.session.current.Some?
                 && (record.turn == 0 || record.turn != st.session.lastTerminal)
              then st.(workers := st.workers[w := st.workers[w].(at := Holding(st.session.current.value, record))])
              else st
  {
  }

  /** The native turn a cycle knows after a record: its own, once it has one, else the one the record
      names, unless the record reports a compaction. */
  function NativeAfter(t: Turn, record: Record): nat {
    if t.cycle.native != 0 || record.kind.Compaction? then t.cycle.native else record.turn
  }

  /** The record is foreign exactly when it names another turn than the cycle's; the mark is read with
      it. A record that bears work accepts the turn. */
  lemma RecordIsStamped(st: State, w: nat, refused: bool)
    requires w < |st.workers| && st.workers[w].at.Holding? && st.workers[w].at.turn < |st.turns|
    ensures Enabled(st, WorkerStep(w, Stamp(refused)))
    ensures var t, record := st.workers[w].at.turn, st.workers[w].at.record;
            var st', native := Apply(st, WorkerStep(w, Stamp(refused))), NativeAfter(st.turns[t], record);
            && |st'.turns| == |st.turns| && st'.turns[t].cycle.native == native
            && (st'.turns[t].accepted <==> st.turns[t].accepted || record.kind.Work?)
            && w < |st'.workers|
            && st'.workers[w].at ==
                 Projecting(t, record, native != 0 && record.turn != 0 && record.turn != native, st.turns[t].cycle.cancelled)
  {
    StampWritten(st.turns[st.workers[w].at.turn], st.workers[w].at.record, refused);
  }

  /** A worker whose record ended its turn stays behind the prompt; it reads on once that has
      finished, and after any other record at once. */
  lemma RecordIsProjected(st: State, w: nat, refused: bool)
    requires w < |st.workers| && st.workers[w].at.Projecting? && st.workers[w].at.turn < |st.turns|
    ensures Enabled(st, WorkerStep(w, Project(refused)))
    ensures var at, st' := st.workers[w].at, Apply(st, WorkerStep(w, Project(refused)));
            && |st'.turns| == |st.turns| && st'.workers == st.workers[w := st.workers[w].(at := st'.workers[w].at)]
            && st'.workers[w].at == if !at.foreign && at.record.kind.Completed? then Parked(at.turn) else Idle
  {
  }

  /** A parked worker resumes exactly once its prompt has finished; a worker leaves when its queue is
      fenced or its process gone, and at its select when the session closed. */
  lemma ParkedResumes(st: State, w: nat)
    requires w < |st.workers|
    ensures var x := st.workers[w];
            && (Enabled(st, WorkerStep(w, Resume)) <==>
                  x.at.Parked? && x.at.turn < |st.turns| && st.turns[x.at.turn].finished)
            && (Enabled(st, WorkerStep(w, Leave)) <==>
                  (x.at.Idle? || x.at.Parked?) && (x.fenced || x.gen in st.dying || (x.at.Idle? && st.session.closed)))
            && (Enabled(st, WorkerStep(w, Resume)) ==>
                  Apply(st, WorkerStep(w, Resume)) == st.(workers := st.workers[w := x.(at := Idle)]))
            && (Enabled(st, WorkerStep(w, Leave)) ==>
                  Apply(st, WorkerStep(w, Leave)) == st.(workers := st.workers[w := x.(at := Exited)]))
  {
  }

  /** A registered queue that is not fenced overflows into a containment of its session. */
  lemma OverflowContains(st: State, w: nat)
    requires w < |st.workers|
    ensures var x := st.workers[w];
            && (Enabled(st, WorkerStep(w, Overflow)) <==>
                  !x.fenced && x.gen in st.registered && st.registered[x.gen] == w && x.gen !in st.ended)
            && (Enabled(st, WorkerStep(w, Overflow)) ==>
                  Apply(st, WorkerStep(w, Overflow)) ==
                    st.(workers := st.workers[w := x.(fenced := true)],
                        containers := st.containers + [Container(x.gen, true, false, None, Checking)]))
  {
  }

  // ---- what the records say ----

  predicate ReportsFailure(records: seq<Record>) {
    exists k | 0 <= k < |records| :: records[k].kind.Failing?
  }

  /** The stop of the last completion among the records. */
  function LastStop(records: seq<Record>): Option<Stop>
    decreases |records|
  {
    if records == [] then None
    else
      var last := records[|records| - 1];
      if last.kind.Completed? then Some(last.kind.stop) else LastStop(records[..|records| - 1])
  }

  /** A cycle fails by a failing record of its own, its stop is its last completion's, and a turn
      that settled without being cancelled took a completion in. */
  predicate Tells(t: Turn) {
    && (ReportsFailure(t.cycle.records) ==> t.cycle.failure)
    && (t.cycle.provider ==> ReportsFailure(t.cycle.records))
    && t.cycle.stop == LastStop(t.cycle.records)
    && (t.ended.Settled? ==> t.cycle.cancelled || t.cycle.stop.Some?)
  }

  predicate MarkSeen(turns: seq<Turn>, at: WorkerAt) {
    at.Projecting? && at.cancelled && at.turn < |turns| ==> turns[at.turn].cycle.cancelled
  }

  predicate Reports(st: State) {
    && (forall t | 0 <= t < |st.turns| :: Tells(st.turns[t]))
    && (forall w | 0 <= w < |st.workers| :: MarkSeen(st.turns, st.workers[w].at))
    && (st.prompt.Deciding? && !st.prompt.cancelled && st.prompt.turn < |st.turns| ==>
          st.turns[st.prompt.turn].ended.Settled? ==> st.turns[st.prompt.turn].cycle.stop.Some?)
  }

  /** The step took no record in: what the turn says of its records stands. */
  predicate TookNone(t: Turn, t': Turn) {
    && t'.cycle.records == t.cycle.records && t'.cycle.stop == t.cycle.stop
    && (t'.cycle.provider ==> t.cycle.provider)
    && (t.cycle.failure ==> t'.cycle.failure)
    && (t.cycle.cancelled ==> t'.cycle.cancelled)
    && (t'.ended.Settled? ==> t.ended.Settled?)
  }

  lemma PromptTookNone(st: State, move: PromptMove, t: nat)
    requires PromptCan(st, move) && t < |st.turns|
    ensures TookNone(st.turns[t], PromptDoes(st, move).turns[t])
  {
    if move.StartAnswered? {
    } else if move.Cancel? || move.ForceSettle? {
    } else if move.BeginSettlement? || move.Finish? || move.Install? {
    } else {
      assert PromptDoes(st, move).turns == st.turns;
    }
  }

  lemma ContainTookNone(st: State, c: nat, move: ContainMove, t: nat)
    requires ContainCan(st, c, move) && t < |st.turns|
    ensures TookNone(st.turns[t], ContainDoes(st, c, move).turns[t])
  {
  }

  lemma EndTookNone(st: State, e: nat, move: EndMove, t: nat)
    requires EndCan(st, e, move) && t < |st.turns|
    ensures TookNone(st.turns[t], EndDoes(st, e, move).turns[t])
  {
  }

  lemma OtherTookNone(st: State, move: OtherMove, t: nat)
    requires OtherCan(st, move) && t < |st.turns|
    ensures TookNone(st.turns[t], OtherDoes(st, move).turns[t])
  {
  }

  lemma OneMore(records: seq<Record>, record: Record)
    ensures ReportsFailure(records + [record]) <==> ReportsFailure(records) || record.kind.Failing?
    ensures LastStop(records + [record]) == if record.kind.Completed? then Some(record.kind.stop) else LastStop(records)
  {
    var more := records + [record];
    assert more[..|more| - 1] == records && more[|more| - 1] == record;
    if ReportsFailure(records) {
      var k :| 0 <= k < |records| && records[k].kind.Failing?;
      assert more[k].kind.Failing?;
    }
    if ReportsFailure(more) && !record.kind.Failing? {
      var k :| 0 <= k < |more| && more[k].kind.Failing?;
      assert records[k].kind.Failing?;
    }
  }

  lemma AccountTells(t: Turn, record: Record, w: nat, refused: bool)
    requires Tells(t)
    ensures Tells(Accounted(Taken(t, record), record.kind, w, refused))
    ensures t.cycle.stop.Some? ==> Accounted(Taken(t, record), record.kind, w, refused).cycle.stop.Some?
  {
    OneMore(t.cycle.records, record);
    assert Taken(t, record).cycle.records == t.cycle.records + [record];
    if record.kind.Completed? {
    } else if record.kind.Failing? {
    } else {
    }
  }

  lemma ProjectTells(t: Turn, at: WorkerAt, w: nat, refused: bool)
    requires at.Projecting? && Tells(t) && (at.cancelled ==> t.cycle.cancelled)
    ensures Tells(Projected(t, at, w, refused))
    ensures t.cycle.stop.Some? ==> Projected(t, at, w, refused).cycle.stop.Some?
  {
    if Counts(at) {
      AccountTells(t, at.record, w, refused);
    }
  }

  lemma StampTookNone(t: Turn, record: Record, refused: bool)
    ensures TookNone(t, Stamped(t, record, refused))
  {
  }

  lemma WorkerKeepsTells(st: State, w: nat, move: WorkerMove, t: nat)
    requires WorkerCan(st, w, move) && t < |st.turns| && Tells(st.turns[t]) && MarkSeen(st.turns, st.workers[w].at)
    ensures var x := WorkerDoes(st, w, move).turns[t];
            Tells(x) && (st.turns[t].cycle.stop.Some? ==> x.cycle.stop.Some?)
  {
    var at := st.workers[w].at;
    if move.Project? && at.turn == t {
      ProjectTells(st.turns[t], at, w, move.refused);
    } else if move.Stamp? && at.turn == t {
      StampTookNone(st.turns[t], at.record, move.refused);
    } else {
      assert WorkerDoes(st, w, move).turns[t] == st.turns[t];
    }
  }

  lemma StepKeepsTells(st: State, step: Step, t: nat)
    requires Enabled(st, step) && Reports(st) && t < |st.turns|
    ensures t < |Apply(st, step).turns| && Tells(Apply(st, step).turns[t])
    ensures st.turns[t].cycle.stop.Some? ==> Apply(st, step).turns[t].cycle.stop.Some?
  {
    StepGoesOn(st, step);
    assert Tells(st.turns[t]);
    match step
    case PromptStep(move) => PromptTookNone(st, move, t);
    case WorkerStep(w, move) =>
      assert MarkSeen(st.turns, st.workers[w].at);
      WorkerKeepsTells(st, w, move, t);
    case ContainStep(c, move) => ContainTookNone(st, c, move, t);
    case EndStep(e, move) => EndTookNone(st, e, move, t);
    case OtherStep(move) => OtherTookNone(st, move, t);
  }

  lemma NewTurnTells(st: State, step: Step, t: nat)
    requires Enabled(st, step) && |st.turns| <= t < |Apply(st, step).turns|
    ensures Tells(Apply(st, step).turns[t])
  {
  }

  lemma StampSees(st: State, w: nat, move: WorkerMove)
    requires WorkerCan(st, w, move) && MarkSeen(st.turns, st.workers[w].at)
    ensures MarkSeen(WorkerDoes(st, w, move).turns, WorkerDoes(st, w, move).workers[w].at)
  {
  }

  lemma StepKeepsMarkSeen(st: State, step: Step, w: nat)
    requires Basic(st) && Enabled(st, step) && Reports(st) && w < |Apply(st, step).workers|
    ensures MarkSeen(Apply(st, step).turns, Apply(st, step).workers[w].at)
  {
    StepGoesOn(st, step);
    var st' := Apply(st, step);
    if w < |st.workers| {
      assert MarkSeen(st.turns, st.workers[w].at) && Knows(st.workers[w].at, |st.turns|);
      if step.WorkerStep? && step.w == w {
        StampSees(st, w, step.work);
      } else {
        assert st'.workers[w].at == st.workers[w].at;
      }
    }
  }

  lemma StepKeepsReports(st: State, step: Step)
    requires Basic(st) && EndedOk(st) && Enabled(st, step) && Reports(st)
    ensures Reports(Apply(st, step))
  {
    StepGoesOn(st, step);
    var st' := Apply(st, step);
    forall t | 0 <= t < |st'.turns| ensures Tells(st'.turns[t]) {
      if t < |st.turns| {
        StepKeepsTells(st, step, t);
      } else {
        NewTurnTells(st, step, t);
      }
    }
    forall w | 0 <= w < |st'.workers| ensures MarkSeen(st'.turns, st'.workers[w].at) {
      StepKeepsMarkSeen(st, step, w);
    }
    if st'.prompt.Deciding? && st'.prompt.turn < |st'.turns| {
      assert st.prompt == st'.prompt || (step == PromptStep(ReadMark) && st'.turns == st.turns);
      if st.prompt == st'.prompt && st.prompt.turn < |st.turns| {
        StepKeepsTells(st, step, st.prompt.turn);
      }
    }
  }

  lemma {:induction false} RunReports(st: State, steps: seq<Step>)
    requires Inv(st) && Reports(st) && Runs(st, steps)
    ensures Reports(After(st, steps))
    decreases |steps|
  {
    if steps == [] {
    } else {
      StepKeepsReports(st, steps[0]);
      StepKeepsInv(st, steps[0]);
      RunReports(Apply(st, steps[0]), steps[1..]);
    }
  }

  lemma InitialReports()
    ensures Inv(Initial) && Reports(Initial)
  {
  }

  lemma ReachableReports(steps: seq<Step>)
    requires Runs(Initial, steps)
    ensures Reports(After(Initial, steps))
  {
    InitialReports();
    RunReports(Initial, steps);
  }

  /** In every reachable state a turn that took in a failing record has failed, a failure the
      provider reported came with such a record, the stop is that of the last completion taken in,
      and a turn that settled without a cancel took a completion in. */
  lemma CycleTellsItsRecords(steps: seq<Step>, t: nat)
    requires Runs(Initial, steps) && t < |After(Initial, steps).turns|
    ensures Tells(After(Initial, steps).turns[t])
  {
    ReachableReports(steps);
  }

  /** What the records of a turn call for: an error for a reported failure, and else what the last
      completion says. */
  predicate Follows(x: Turn, response: Response) {
    && (ReportsFailure(x.cycle.records) ==> response.AnswerError?)
    && (x.ended.Settled? && !x.cycle.failure ==>
          && LastStop(x.cycle.records).Some?
          && response == match LastStop(x.cycle.records).value
                         case EndTurn => AnswerEndTurn
                         case StopCancelled => AnswerCancelled
                         case StopError => AnswerError)
  }

  lemma SettlementFollows(x: Turn, s: Settlement)
    requires Tells(x) && (x.ended.Settled? ==> x.cycle.stop.Some?)
    requires Settles(s, x, false) && s.committed && !s.claimed && !s.idleFailed
    ensures Follows(x, s.answer)
  {
  }

  /** From every reachable prompt about to be judged whose turn settled unmarked, when the commit
      succeeds, no cancel is claimed and the idle event is not lost: a reported failure is answered
      with an error; and without any failure the answer is what the last completion among the
      turn's records says. */
  lemma AnswerFollowsTheRecords(steps: seq<Step>, more: seq<Step>, s: Settlement)
    requires Runs(Initial, steps) && PromptCan(After(Initial, steps), JudgeTurn)
    requires Runs(PromptDoes(After(Initial, steps), JudgeTurn), more)
    requires After(PromptDoes(After(Initial, steps), JudgeTurn), more).prompt ==
               Removing(After(Initial, steps).prompt.turn, Some(s))
    requires !After(Initial, steps).prompt.cancelled && s.committed && !s.claimed && !s.idleFailed
    ensures Follows(After(Initial, steps).turns[After(Initial, steps).prompt.turn], s.answer)
  {
    var st := After(Initial, steps);
    ReachableReports(steps);
    AnswerSaysHowItEnded(steps, more, s);
    assert Tells(st.turns[st.prompt.turn]);
    SettlementFollows(st.turns[st.prompt.turn], s);
  }
}
