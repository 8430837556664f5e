/** What the settlement machine does against its comments, from every state that meets a guard,
    and runs that reach such states. */
module SettlementRuns {
  import opened Wrappers
  import opened Settlement
  import opened SettlementProofs
  import opened SettlementLeads

  ghost predicate Reachable(st: State) {
    exists steps :: Runs(Initial, steps) && After(Initial, steps) == st
  }

  lemma Reach(st: State, step: Step)
    requires Reachable(st) && Enabled(st, step)
    ensures Reachable(Apply(st, step))
  {
    var steps :| Runs(Initial, steps) && After(Initial, steps) == st;
    Extend(Initial, steps, step);
  }

  lemma InitialReachable()
    ensures Reachable(Initial)
  {
    assert Runs(Initial, []) && After(Initial, []) == Initial;
  }

  // ---- a record written into a turn that is being answered ----

  const Quiet0 := Calls(map[], {}, {}, 0, 0, 0)
  const Idle0 := Session(None, Some(0), false, false, false, 0, false)
  const Busy0 := Session(Some(0), Some(0), false, false, false, 0, false)
  const Work7 := Record(Work, 7)
  const Started := Turn(0, 0, Cycle(false, false, 7, false, false, None, []), true, Running, None, false)
  const Failing7 := Fail(Started)

  lemma TellsNobody()
    ensures TellAll(Quiet0) == Quiet0
  {
    assert Quiet0.mapped.Values == {};
  }

  function Overflowed(session: Session, turn: Turn, at: WorkerAt, c: Container): State {
    State(session, [turn], Quiet0, [Worker(0, true, false, at)], map[0 := 0], [c], [], {}, {}, Waiting(0))
  }

  function BoundState(): State {
    State(Idle0, [], Quiet0, [], map[], [], [], {}, {}, Prompt.Bound(0))
  }

  function InstalledState(): State {
    State(Busy0, [FreshTurn(0, Idle0)], Quiet0, [], map[], [], [], {}, {}, Starting(0))
  }

  lemma ReachBound()
    ensures Reachable(BoundState())
  {
    InitialReachable();
    Reach(Initial, PromptStep(Rebind(0)));
    assert Apply(Initial, PromptStep(Rebind(0))) == BoundState();
  }

  lemma ReachInstalled()
    ensures Reachable(InstalledState())
  {
    ReachBound();
    Reach(BoundState(), PromptStep(Install));
    assert Apply(BoundState(), PromptStep(Install)) == InstalledState();
  }

  lemma ReachWaiting()
    ensures Reachable(State(Busy0, [Started], Quiet0, [], map[], [], [], {}, {}, Waiting(0)))
  {
    ReachInstalled();
    Reach(InstalledState(), PromptStep(StartAnswered(7, false)));
    assert Apply(InstalledState(), PromptStep(StartAnswered(7, false))) == State(Busy0, [Started], Quiet0, [], map[], [], [], {}, {}, Waiting(0));
  }

  function Serving(turn: Turn, at: WorkerAt, p: Prompt): State {
    State(Busy0, [turn], Quiet0, [Worker(0, false, false, at)], map[0 := 0], [], [], {}, {}, p)
  }

  lemma ReachServing()
    ensures Reachable(Serving(Started, WorkerAt.Idle, Waiting(0)))
  {
    ReachWaiting();
    var s0 := State(Busy0, [Started], Quiet0, [], map[], [], [], {}, {}, Waiting(0));
    Reach(s0, OtherStep(CreateQueue(0)));
    assert Apply(s0, OtherStep(CreateQueue(0))) == Serving(Started, WorkerAt.Idle, Waiting(0));
  }

  lemma ReachOverflow()
    ensures Reachable(Overflowed(Busy0, Started, WorkerAt.Idle, Container(0, true, false, None, Checking)))
  {
    ReachServing();
    Reach(Serving(Started, WorkerAt.Idle, Waiting(0)), WorkerStep(0, Overflow));
  }

  lemma ReachRetiring()
    ensures Reachable(Overflowed(Busy0.(lost := true), Failing7, WorkerAt.Idle, Container(0, true, false, Some(0), Retiring)))
  {
    ReachOverflow();
    TellsNobody();
    var lost := Busy0.(lost := true);
    var s0 := Overflowed(Busy0, Started, WorkerAt.Idle, Container(0, true, false, None, Checking));
    Reach(s0, ContainStep(0, Check));
    var s1 := Overflowed(lost, Started, WorkerAt.Idle, Container(0, true, false, Some(0), Quieting));
    assert Apply(s0, ContainStep(0, Check)) == s1;
    Reach(s1, ContainStep(0, Quiet));
    var s2 := Overflowed(lost, Failing7, WorkerAt.Idle, Container(0, true, false, Some(0), Retiring));
    assert Apply(s1, ContainStep(0, Quiet)) == s2;
  }

  lemma ReachJoined()
    ensures Reachable(Overflowed(Busy0.(lost := true), Failing7, Exited, Container(0, true, false, Some(0), Joining(0))))
  {
    ReachRetiring();
    var lost := Busy0.(lost := true);
    var s2 := Overflowed(lost, Failing7, WorkerAt.Idle, Container(0, true, false, Some(0), Retiring));
    Reach(s2, WorkerStep(0, Leave));
    var s3 := Overflowed(lost, Failing7, Exited, Container(0, true, false, Some(0), Retiring));
    assert Apply(s2, WorkerStep(0, Leave)) == s3;
    Reach(s3, ContainStep(0, Retire));
  }

  function Retired(): State {
    State(Busy0.(lost := true), [Failing7], Quiet0, [Worker(0, true, false, Exited)], map[],
          [Container(0, true, false, Some(0), Unbinding)], [], {}, {}, Waiting(0))
  }

  lemma ReachRetired()
    ensures Reachable(Retired())
  {
    ReachJoined();
    var s0 := Overflowed(Busy0.(lost := true), Failing7, Exited, Container(0, true, false, Some(0), Joining(0)));
    Reach(s0, ContainStep(0, Join));
    assert Apply(s0, ContainStep(0, Join)) == Retired();
  }

  /** A queue created while the session is unbound, in the repair of the turn being answered. */
  predicate UnboundQueue(st: State, w: nat) {
    && st.session.bound.None? && PromptCan(st, RepairRebinds) && w < |st.workers| && st.workers[w].at.Idle?
    && st.workers[w].gen == st.turns[st.prompt.turn].gen && st.session.current == Some(st.prompt.turn)
  }

  const Broken7 := Record(Completed(StopError), 7)
  const Refused7 := Turn(0, 0, Cycle(false, true, 7, false, false, Some(StopError), [Broken7]), true, Settled, Some(0), false)

  lemma ReachEnd()
    ensures Reachable(Serving(Started, Projecting(0, Broken7, false, false), Waiting(0)))
  {
    ReachServing();
    Reach(Serving(Started, WorkerAt.Idle, Waiting(0)), WorkerStep(0, Read(Broken7)));
    assert Apply(Serving(Started, WorkerAt.Idle, Waiting(0)), WorkerStep(0, Read(Broken7))) ==
           Serving(Started, Holding(0, Broken7), Waiting(0));
    Reach(Serving(Started, Holding(0, Broken7), Waiting(0)), WorkerStep(0, Stamp(false)));
  }

  const Ended7 := Refused7.(cycle := Refused7.cycle.(settling := false))

  lemma ReachParked()
    ensures Reachable(Serving(Ended7, WorkerAt.Parked(0), Admitting(0)))
  {
    ReachEnd();
    var s0 := Serving(Started, Projecting(0, Broken7, false, false), Waiting(0));
    assert Projected(Started, s0.workers[0].at, 0, false) == Ended7;
    Reach(s0, WorkerStep(0, Project(false)));
    assert Apply(s0, WorkerStep(0, Project(false))) == Serving(Ended7, WorkerAt.Parked(0), Waiting(0));
    Reach(Serving(Ended7, WorkerAt.Parked(0), Waiting(0)), PromptStep(SeeSettled));
  }

  lemma ReachQuieting()
    ensures Reachable(Serving(Refused7, WorkerAt.Parked(0), QuietingCalls(0)))
  {
    ReachParked();
    TellsNobody();
    Reach(Serving(Ended7, WorkerAt.Parked(0), Admitting(0)), PromptStep(BeginSettlement));
  }

  lemma ReachJudging()
    ensures Reachable(Serving(Refused7, WorkerAt.Parked(0), Judging(0)))
  {
    ReachQuieting();
    Reach(Serving(Refused7, WorkerAt.Parked(0), QuietingCalls(0)), PromptStep(CallsQuiet));
  }

  const Repairing0 := Committing(0, false, Verdict(Failed, true), true)

  lemma ReachRepairing()
    ensures Reachable(Serving(Refused7, WorkerAt.Parked(0), Repairing0))
  {
    ReachJudging();
    Reach(Serving(Refused7, WorkerAt.Parked(0), Judging(0)), PromptStep(ReadMark));
    assert Apply(Serving(Refused7, WorkerAt.Parked(0), Judging(0)), PromptStep(ReadMark)) ==
           Serving(Refused7, WorkerAt.Parked(0), Deciding(0, false));
    Reach(Serving(Refused7, WorkerAt.Parked(0), Deciding(0, false)), PromptStep(JudgeTurn));
  }

  /** The parked worker's queue overflows during the repair. */
  function Overflowing(lost: bool, turn: Turn, at: WorkerAt, registered: map<nat, nat>, x: Container): State {
    State(Busy0.(lost := lost), [turn], Quiet0, [Worker(0, true, false, at)], registered, [x], [], {}, {}, Repairing0)
  }

  lemma ReachOverflowing()
    ensures Reachable(Overflowing(true, Fail(Refused7), WorkerAt.Parked(0), map[0 := 0], Container(0, true, false, Some(0), Retiring)))
  {
    ReachRepairing();
    TellsNobody();
    Reach(Serving(Refused7, WorkerAt.Parked(0), Repairing0), WorkerStep(0, Overflow));
    var s0 := Overflowing(false, Refused7, WorkerAt.Parked(0), map[0 := 0], Container(0, true, false, None, Checking));
    assert Apply(Serving(Refused7, WorkerAt.Parked(0), Repairing0), WorkerStep(0, Overflow)) == s0;
    Reach(s0, ContainStep(0, Check));
    var s1 := Overflowing(true, Refused7, WorkerAt.Parked(0), map[0 := 0], Container(0, true, false, Some(0), Quieting));
    assert Apply(s0, ContainStep(0, Check)) == s1;
    Reach(s1, ContainStep(0, Quiet));
  }

  function Unbound7(workers: seq<Worker>, registered: map<nat, nat>): State {
    State(Busy0.(bound := None, lost := true), [Fail(Refused7)], Quiet0, workers, registered,
          [Container(0, true, false, Some(0), Settling)], [], {}, {}, Repairing0)
  }

  lemma ReachUnbinding()
    ensures Reachable(Overflowing(true, Fail(Refused7), Exited, map[], Container(0, true, false, Some(0), Unbinding)))
  {
    ReachOverflowing();
    var s0 := Overflowing(true, Fail(Refused7), WorkerAt.Parked(0), map[0 := 0], Container(0, true, false, Some(0), Retiring));
    Reach(s0, WorkerStep(0, Leave));
    var s1 := Overflowing(true, Fail(Refused7), Exited, map[0 := 0], Container(0, true, false, Some(0), Retiring));
    assert Apply(s0, WorkerStep(0, Leave)) == s1;
    Reach(s1, ContainStep(0, Retire));
    var s2 := Overflowing(true, Fail(Refused7), Exited, map[0 := 0], Container(0, true, false, Some(0), Joining(0)));
    assert Apply(s1, ContainStep(0, Retire)) == s2;
    Reach(s2, ContainStep(0, Join));
  }

  lemma ReachUnbound()
    ensures Reachable(Unbound7([Worker(0, true, false, Exited)], map[]))
  {
    ReachUnbinding();
    var s0 := Overflowing(true, Fail(Refused7), Exited, map[], Container(0, true, false, Some(0), Unbinding));
    Reach(s0, ContainStep(0, LetGo));
    assert Apply(s0, ContainStep(0, LetGo)) == Unbound7([Worker(0, true, false, Exited)], map[]);
  }

  function Requeued7(): State {
    Unbound7([Worker(0, true, false, Exited), Worker(0, false, true, WorkerAt.Idle)], map[0 := 1])
  }

  lemma UnboundMakesQueue()
    ensures var s0 := Unbound7([Worker(0, true, false, Exited)], map[]);
            Enabled(s0, OtherStep(CreateQueue(0))) && Apply(s0, OtherStep(CreateQueue(0))) == Requeued7()
    ensures UnboundQueue(Requeued7(), 1)
  {
    assert LateQueue(Unbound7([Worker(0, true, false, Exited)], map[]), 0);
  }

  /** Such a queue is reached: an overflow unbinds a session while the prompt repairs its thread,
      and the next record makes a new queue. */
  lemma UnboundQueueReachable()
    ensures Reachable(Requeued7()) && UnboundQueue(Requeued7(), 1)
  {
    ReachUnbound();
    UnboundMakesQueue();
    Reach(Unbound7([Worker(0, true, false, Exited)], map[]), OtherStep(CreateQueue(0)));
  }

  // ---- a turn accepted on the stream whose prompt answers without an idle event ----

  lemma WorkerAccepts(st: State, w: nat, move: WorkerMove, t: nat)
    requires WorkerCan(st, w, move) && t < |st.turns| && !st.turns[t].accepted
    ensures WorkerDoes(st, w, move).turns[t].accepted <==>
              move.Stamp? && st.workers[w].at.turn == t && st.workers[w].at.record.kind.Work?
  {
    if move.Project? {
      assert Projected(st.turns[st.workers[w].at.turn], st.workers[w].at, w, move.refused).accepted == st.turns[st.workers[w].at.turn].accepted;
    }
  }

  lemma PromptAccepts(st: State, move: PromptMove, t: nat)
    requires PromptCan(st, move) && t < |st.turns| && !st.turns[t].accepted
    ensures PromptDoes(st, move).turns[t].accepted <==> move.StartAnswered? && st.prompt.turn == t
  {
  }

  lemma ContainAcceptsNothing(st: State, c: nat, move: ContainMove, t: nat)
    requires ContainCan(st, c, move) && t < |st.turns| && !st.turns[t].accepted
    ensures !ContainDoes(st, c, move).turns[t].accepted
  {
  }

  lemma EndAcceptsNothing(st: State, e: nat, move: EndMove, t: nat)
    requires EndCan(st, e, move) && t < |st.turns| && !st.turns[t].accepted
    ensures !EndDoes(st, e, move).turns[t].accepted
  {
  }

  lemma OtherAccepts(st: State, move: OtherMove, t: nat)
    requires OtherCan(st, move) && t < |st.turns| && !st.turns[t].accepted
    ensures OtherDoes(st, move).turns[t].accepted <==> move.RequestAccepts? && move.turn == t
  {
  }

  /** What accepts a turn: the answer to its start, a record of it that says the thread works and
      that a worker has read, or a server request that has read the turn. */
  predicate Accepts(st: State, step: Step, t: nat)
    requires Enabled(st, step)
  {
    || (step.PromptStep? && step.prompt.StartAnswered? && st.prompt.turn == t)
    || (step.OtherStep? && step.other.RequestAccepts? && step.other.turn == t)
    || (step.WorkerStep? && step.work.Stamp? && st.workers[step.w].at.turn == t && st.workers[step.w].at.record.kind.Work?)
  }

  lemma AcceptedBy(st: State, step: Step, t: nat)
    requires Enabled(st, step) && t < |st.turns| && !st.turns[t].accepted
    ensures t < |Apply(st, step).turns| && (Apply(st, step).turns[t].accepted <==> Accepts(st, step, t))
  {
    match step
    case PromptStep(move) => PromptAccepts(st, move, t);
    case WorkerStep(w, move) => WorkerAccepts(st, w, move, t);
    case ContainStep(c, move) => ContainAcceptsNothing(st, c, move, t);
    case EndStep(e, move) => EndAcceptsNothing(st, e, move, t);
    case OtherStep(move) => OtherAccepts(st, move, t);
  }

  lemma {:induction false} NotStartedAgain(st: State, steps: seq<Step>, t: nat)
    requires Runs(st, steps) && t < |st.turns| && st.prompt != Starting(t)
    ensures t < |After(st, steps).turns| && After(st, steps).prompt != Starting(t)
    decreases |steps|
  {
    if steps == [] {
    } else {
      StepGoesOn(st, steps[0]);
      NotStartedAgain(Apply(st, steps[0]), steps[1..], t);
    }
  }

  /** However the run goes on after a refused start, a turn not accepted by then is accepted by a
      step exactly when the step stamps a record of it that bears work or is the acceptance of a
      server request. */
  lemma AcceptedAfterRefusal(st: State, more: seq<Step>, step: Step)
    requires PromptCan(st, StartRefused) && Runs(PromptDoes(st, StartRefused), more)
    requires Enabled(After(PromptDoes(st, StartRefused), more), step)
    ensures var now, t := After(PromptDoes(st, StartRefused), more), st.prompt.turn;
            && t < |now.turns| && t < |Apply(now, step).turns|
            && (!now.turns[t].accepted ==>
                  (Apply(now, step).turns[t].accepted <==> Accepts(now, step, t) && !step.PromptStep?))
  {
    var now, t := After(PromptDoes(st, StartRefused), more), st.prompt.turn;
    NotStartedAgain(PromptDoes(st, StartRefused), more, t);
    StepGoesOn(now, step);
    if !now.turns[t].accepted {
      AcceptedBy(now, step, t);
    }
  }

  lemma RefusalNeedsNoAcceptance(st: State, step: Step)
    requires Enabled(st, step) && !st.prompt.Removing?
    requires Apply(st, step).prompt.Removing? && Apply(st, step).prompt.settlement.None?
    ensures step == PromptStep(StartRefused) && !st.turns[st.prompt.turn].accepted
  {
  }

  function HeldState(at: WorkerAt, p: Prompt): State {
    State(Busy0, [FreshTurn(0, Idle0)], Quiet0, [Worker(0, false, false, at)], map[0 := 0], [], [], {}, {}, p)
  }

  lemma ReachHeld()
    ensures Reachable(HeldState(Holding(0, Work7), Starting(0)))
  {
    ReachInstalled();
    Reach(InstalledState(), OtherStep(CreateQueue(0)));
    assert Apply(InstalledState(), OtherStep(CreateQueue(0))) == HeldState(WorkerAt.Idle, Starting(0));
    Reach(HeldState(WorkerAt.Idle, Starting(0)), WorkerStep(0, Read(Work7)));
    assert Apply(HeldState(WorkerAt.Idle, Starting(0)), WorkerStep(0, Read(Work7))) == HeldState(Holding(0, Work7), Starting(0));
  }

  lemma ReachRefused()
    ensures Reachable(HeldState(Holding(0, Work7), Removing(0, None)))
  {
    ReachHeld();
    Reach(HeldState(Holding(0, Work7), Starting(0)), PromptStep(StartRefused));
  }

  lemma AcceptedWithoutIdle()
    ensures exists st: State :: Reachable(st) && st.prompt == Removing(0, None) && |st.turns| == 1 && st.turns[0].accepted
  {
    ReachRefused();
    var st := HeldState(Holding(0, Work7), Removing(0, None));
    Reach(st, WorkerStep(0, Stamp(false)));
    assert Apply(st, WorkerStep(0, Stamp(false))).turns[0].accepted;
  }
}
