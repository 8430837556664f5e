/** A running turn whose session is unbound: it can still end, without the prompt's context
    ending, exactly when a containment or a generation's end that read the turn is under way, or
    a worker holds the record of its end. */
module SettlementAbandoned {
  import opened Wrappers
  import opened Settlement
  import opened SettlementProofs
  import opened SettlementLeads
  import opened SettlementRuns
  import opened SettlementTheorems

  predicate CapturedBy(st: State, c: nat, t: nat) {
    c < |st.containers| && st.containers[c].turn == Some(t) && !st.containers[c].at.Done?
  }

  predicate EndedBy(st: State, e: nat, t: nat) {
    e < |st.enders| && st.enders[e].turn == Some(t) && !st.enders[e].at.EndDone?
  }

  /** The worker holds a record that will settle the turn: its end, and not a foreign one. */
  predicate HoldsEnd(st: State, w: nat, t: nat) {
    && w < |st.workers| && t < |st.turns|
    && match st.workers[w].at
       case Holding(u, record) => u == t && record.kind.Completed? && !Foreign(st.turns[t], record)
       case Projecting(u, record, foreign, _) => u == t && record.kind.Completed? && !foreign
       case _ => false
  }

  ghost predicate MayEnd(st: State, t: nat) {
    (exists c :: CapturedBy(st, c, t)) || (exists e :: EndedBy(st, e, t)) || (exists w :: HoldsEnd(st, w, t))
  }

  /** The prompt waits for a running turn of an unbound session. */
  predicate Unbound(st: State, t: nat) {
    && st.prompt == Waiting(t) && st.session.current == Some(t) && st.session.bound.None?
    && t < |st.turns| && st.turns[t].ended.Running?
  }

  /** Nobody who could end it is left. */
  ghost predicate Abandoned(st: State, t: nat) {
    Unbound(st, t) && !MayEnd(st, t)
  }

  // ---- an abandoned turn stays running ----

  lemma WorkerLeavesUnbound(st: State, w: nat, move: WorkerMove, t: nat)
    requires Abandoned(st, t) && WorkerCan(st, w, move)
    ensures Unbound(WorkerDoes(st, w, move), t)
    ensures WorkerDoes(st, w, move).turns[t].cycle.native == st.turns[t].cycle.native || st.turns[t].cycle.native == 0
  {
    assert !HoldsEnd(st, w, t);
    if move.Stamp? {
      assert Stamped(st.turns[st.workers[w].at.turn], st.workers[w].at.record, move.refused).ended == st.turns[st.workers[w].at.turn].ended;
    } else if move.Project? {
      assert st.workers[w].at.turn == t ==> Projected(st.turns[t], st.workers[w].at, w, move.refused).ended.Running?;
    }
  }

  lemma WorkerGivesNoEnd(st: State, w: nat, move: WorkerMove, t: nat, v: nat)
    requires Abandoned(st, t) && WorkerCan(st, w, move)
    ensures !HoldsEnd(WorkerDoes(st, w, move), v, t)
  {
    assert !HoldsEnd(st, v, t) && !HoldsEnd(st, w, t);
    WorkerLeavesUnbound(st, w, move, t);
  }

  lemma WorkerAddsNoCapture(st: State, w: nat, move: WorkerMove, c: nat)
    requires WorkerCan(st, w, move)
    ensures c < |st.containers| ==> c < |WorkerDoes(st, w, move).containers| && WorkerDoes(st, w, move).containers[c] == st.containers[c]
    ensures |st.containers| <= c < |WorkerDoes(st, w, move).containers| ==> WorkerDoes(st, w, move).containers[c].turn.None?
  {
  }

  lemma WorkerAbandons(st: State, w: nat, move: WorkerMove, t: nat)
    requires Abandoned(st, t) && WorkerCan(st, w, move)
    ensures Abandoned(WorkerDoes(st, w, move), t)
  {
    var st' := WorkerDoes(st, w, move);
    WorkerLeavesUnbound(st, w, move, t);
    forall v ensures !HoldsEnd(st', v, t) {
      WorkerGivesNoEnd(st, w, move, t, v);
    }
    forall c ensures !CapturedBy(st', c, t) {
      assert !CapturedBy(st, c, t);
      WorkerAddsNoCapture(st, w, move, c);
    }
    forall e ensures !EndedBy(st', e, t) {
      assert !EndedBy(st, e, t);
    }
  }

  lemma ContainLeavesUnbound(st: State, c: nat, move: ContainMove, t: nat)
    requires Abandoned(st, t) && ContainCan(st, c, move)
    ensures Unbound(ContainDoes(st, c, move), t)
    ensures ContainDoes(st, c, move).turns[t].cycle.native == st.turns[t].cycle.native
    ensures ContainDoes(st, c, move).containers[c].turn == st.containers[c].turn
    ensures st.containers[c].at.Done? ==> ContainDoes(st, c, move).containers[c].at.Done?
  {
    assert !CapturedBy(st, c, t);
  }

  lemma ContainAbandons(st: State, c: nat, move: ContainMove, t: nat)
    requires Abandoned(st, t) && ContainCan(st, c, move)
    ensures Abandoned(ContainDoes(st, c, move), t)
  {
    var st' := ContainDoes(st, c, move);
    ContainLeavesUnbound(st, c, move, t);
    assert !CapturedBy(st, c, t);
    forall d ensures !CapturedBy(st', d, t) {
      assert !CapturedBy(st, d, t);
    }
    forall w ensures !HoldsEnd(st', w, t) {
      assert !HoldsEnd(st, w, t);
    }
    forall e ensures !EndedBy(st', e, t) {
      assert !EndedBy(st, e, t);
    }
  }

  lemma EndLeavesUnbound(st: State, e: nat, move: EndMove, t: nat)
    requires Abandoned(st, t) && EndCan(st, e, move)
    ensures Unbound(EndDoes(st, e, move), t)
    ensures EndDoes(st, e, move).turns[t].cycle.native == st.turns[t].cycle.native
    ensures EndDoes(st, e, move).enders[e].turn == st.enders[e].turn
  {
    assert !EndedBy(st, e, t);
  }

  lemma EndAbandons(st: State, e: nat, move: EndMove, t: nat)
    requires Abandoned(st, t) && EndCan(st, e, move)
    ensures Abandoned(EndDoes(st, e, move), t)
  {
    var st' := EndDoes(st, e, move);
    EndLeavesUnbound(st, e, move, t);
    assert !EndedBy(st, e, t);
    forall d ensures !EndedBy(st', d, t) {
      assert !EndedBy(st, d, t);
    }
    forall w ensures !HoldsEnd(st', w, t) {
      assert !HoldsEnd(st, w, t);
    }
    forall c ensures !CapturedBy(st', c, t) {
      assert !CapturedBy(st, c, t);
    }
  }

  lemma OtherLeavesUnbound(st: State, move: OtherMove, t: nat)
    requires Unbound(st, t) && OtherCan(st, move)
    ensures Unbound(OtherDoes(st, move), t)
    ensures OtherDoes(st, move).turns[t].cycle.native == st.turns[t].cycle.native
  {
  }

  lemma OtherAddsNobody(st: State, move: OtherMove)
    requires OtherCan(st, move)
    ensures forall w | |st.workers| <= w < |OtherDoes(st, move).workers| :: OtherDoes(st, move).workers[w].at.Idle?
    ensures forall e | |st.enders| <= e < |OtherDoes(st, move).enders| :: OtherDoes(st, move).enders[e].turn.None?
  {
  }

  lemma OtherAbandons(st: State, move: OtherMove, t: nat)
    requires Abandoned(st, t) && OtherCan(st, move)
    ensures Abandoned(OtherDoes(st, move), t)
  {
    var st' := OtherDoes(st, move);
    OtherLeavesUnbound(st, move, t);
    OtherAddsNobody(st, move);
    forall w: nat ensures !HoldsEnd(st', w, t) {
      assert !HoldsEnd(st, w, t);
      assert w < |st.workers| ==> st'.workers[w] == st.workers[w];
    }
    forall e: nat ensures !EndedBy(st', e, t) {
      assert !EndedBy(st, e, t);
      assert e < |st.enders| ==> st'.enders[e] == st.enders[e];
    }
    forall c ensures !CapturedBy(st', c, t) {
      assert !CapturedBy(st, c, t);
    }
  }

  lemma AbandonedStands(st: State, step: Step, t: nat)
    requires Abandoned(st, t) && Enabled(st, step) && step != PromptStep(SeeCancelled)
    ensures Abandoned(Apply(st, step), t)
  {
    match step
    case PromptStep(move) =>
    case WorkerStep(w, move) => WorkerAbandons(st, w, move, t);
    case ContainStep(c, move) => ContainAbandons(st, c, move, t);
    case EndStep(e, move) => EndAbandons(st, e, move, t);
    case OtherStep(move) => OtherAbandons(st, move, t);
  }

  /** An abandoned turn stays running, and its prompt waiting, in every continuation in which the
      prompt's context does not end. */
  lemma {:induction false} AbandonedForGood(st: State, steps: seq<Step>, t: nat)
    requires Abandoned(st, t) && Runs(st, steps) && Uncancelled(steps)
    ensures Abandoned(After(st, steps), t)
    decreases |steps|
  {
    if steps == [] {
    } else {
      assert steps[0] != PromptStep(SeeCancelled);
      AbandonedStands(st, steps[0], t);
      assert forall k | 0 <= k < |steps[1..]| :: steps[1..][k] == steps[k + 1];
      AbandonedForGood(Apply(st, steps[0]), steps[1..], t);
    }
  }

  // ---- whoever read the turn can end it ----

  predicate Ended(st: State, t: nat) {
    t < |st.turns| && !st.turns[t].ended.Running?
  }

  lemma WorkerGoes(start: State, st: State, w: nat, move: WorkerMove) returns (after: State)
    requires Leads(start, st) && Basic(st) && w < |st.workers| && st.workers[w].gen in st.dying
    requires match st.workers[w].at
             case Holding(_, _) => move == Stamp(false)
             case Projecting(_, _, _, _) => move == Project(false)
             case Exited => false
             case _ => move == Leave
    ensures Leads(start, after) && Basic(after) && after.calls == st.calls && after.containers == st.containers
    ensures |after.turns| == |st.turns| && w < |after.workers|
    ensures after.workers[w].gen == st.workers[w].gen && after.dying == st.dying
    ensures match move
            case Stamp(_) => after.workers[w].at.Projecting?
            case Project(_) => after.workers[w].at.Idle? || after.workers[w].at.Parked?
            case _ => after.workers[w].at.Exited?
  {
    assert Knows(st.workers[w].at, |st.turns|);
    Go(start, st, WorkerStep(w, move));
    after := Apply(st, WorkerStep(w, move));
    StepKeepsBasic(st, WorkerStep(w, move));
  }

  /** A worker can always get to its exit, once its process is gone. */
  lemma WorkerCanExit(start: State, st: State, w: nat) returns (after: State)
    requires Leads(start, st) && Basic(st) && w < |st.workers|
    ensures Leads(start, after) && Basic(after) && after.calls == st.calls && after.containers == st.containers
    ensures |after.turns| == |st.turns| && w < |after.workers| && after.workers[w].at.Exited?
  {
    var gen := st.workers[w].gen;
    Go(start, st, OtherStep(ProcessExits(gen)));
    after := Apply(st, OtherStep(ProcessExits(gen)));
    StepKeepsBasic(st, OtherStep(ProcessExits(gen)));
    if after.workers[w].at.Holding? {
      after := WorkerGoes(start, after, w, Stamp(false));
    }
    if after.workers[w].at.Projecting? {
      after := WorkerGoes(start, after, w, Project(false));
    }
    if !after.workers[w].at.Exited? {
      after := WorkerGoes(start, after, w, Leave);
    }
  }

  function ToSettle(at: ContainAt): nat {
    match at
    case Checking => 6
    case Quieting => 5
    case Retiring => 4
    case Joining(_) => 3
    case Unbinding => 2
    case Settling => 1
    case Done => 0
  }

  lemma ContainGoes(start: State, st: State, c: nat, move: ContainMove) returns (after: State)
    requires Leads(start, st) && Basic(st) && Counted(st.calls) && ContainCan(st, c, move) && st.containers[c].turn.Some?
    ensures Leads(start, after) && Basic(after) && Counted(after.calls) && |after.turns| == |st.turns|
    ensures after == ContainDoes(st, c, move) && c < |after.containers| && after.containers[c].turn == st.containers[c].turn
    ensures ToSettle(after.containers[c].at) < ToSettle(st.containers[c].at)
    ensures after.containers[c].at.Done? ==> Ended(after, st.containers[c].turn.value)
  {
    assert ContainerOk(st, st.containers[c]);
    Go(start, st, ContainStep(c, move));
    after := Apply(st, ContainStep(c, move));
    StepKeepsBasic(st, ContainStep(c, move));
  }

  lemma {:induction false} ContainerCanEnd(start: State, st: State, c: nat, t: nat) returns (after: State)
    requires Leads(start, st) && Basic(st) && Counted(st.calls) && CapturedBy(st, c, t)
    ensures Leads(start, after) && Ended(after, t)
    decreases ToSettle(st.containers[c].at)
  {
    assert ContainerOk(st, st.containers[c]);
    var s := st;
    var move := match st.containers[c].at
      case Quieting => Quiet
      case Retiring => Retire
      case Joining(_) => Join
      case Unbinding => LetGo
      case _ => SettleContained;
    if st.containers[c].at.Quieting? {
      s := CallsCanEnd(start, st);
    } else if st.containers[c].at.Joining? {
      s := WorkerCanExit(start, st, st.containers[c].at.worker);
    }
    after := ContainGoes(start, s, c, move);
    if !after.containers[c].at.Done? {
      after := ContainerCanEnd(start, after, c, t);
    }
  }

  function ToEnd(at: EndAt): nat {
    match at
    case EndChecking => 4
    case EndQuieting => 3
    case EndUnbinding => 2
    case EndSettling => 1
    case EndDone => 0
  }

  lemma {:induction false} EnderCanEnd(start: State, st: State, e: nat, t: nat) returns (after: State)
    requires Leads(start, st) && Basic(st) && Counted(st.calls) && EndedBy(st, e, t)
    ensures Leads(start, after) && Ended(after, t)
    decreases ToEnd(st.enders[e].at)
  {
    var s := st;
    var move := match st.enders[e].at
      case EndQuieting => EndQuiet
      case EndUnbinding => EndLetGo
      case _ => EndSettle;
    if st.enders[e].at.EndQuieting? {
      s := CallsCanEnd(start, st);
    }
    Go(start, s, EndStep(e, move));
    after := Apply(s, EndStep(e, move));
    StepKeepsBasic(s, EndStep(e, move));
    if !after.enders[e].at.EndDone? {
      after := EnderCanEnd(start, after, e, t);
    }
  }

  lemma HolderCanEnd(start: State, st: State, w: nat, t: nat) returns (after: State)
    requires Leads(start, st) && HoldsEnd(st, w, t)
    ensures Leads(start, after) && Ended(after, t)
  {
    var s := st;
    if st.workers[w].at.Holding? {
      Go(start, st, WorkerStep(w, Stamp(false)));
      s := Apply(st, WorkerStep(w, Stamp(false)));
    }
    Go(start, s, WorkerStep(w, Project(false)));
    after := Apply(s, WorkerStep(w, Project(false)));
  }

  lemma MayEndCan(st: State, t: nat)
    requires Basic(st) && Counted(st.calls) && MayEnd(st, t)
    ensures exists after: State :: Leads(st, after) && Ended(after, t)
  {
    Stays(st);
    if c :| CapturedBy(st, c, t) {
      var after := ContainerCanEnd(st, st, c, t);
    } else if e :| EndedBy(st, e, t) {
      var after := EnderCanEnd(st, st, e, t);
    } else {
      var w :| HoldsEnd(st, w, t);
      var after := HolderCanEnd(st, st, w, t);
    }
  }

  lemma ReachableHasInv(st: State)
    requires Reachable(st)
    ensures Inv(st)
  {
    var steps :| Runs(Initial, steps) && After(Initial, steps) == st;
    ReachableInv(steps);
  }

  /** A running turn of an unbound session, whose prompt waits, can end without the prompt's
      context ending if and only if someone who read it is under way or a worker holds its end. */
  lemma UnboundTurnEnds(st: State, t: nat)
    requires Reachable(st) && Unbound(st, t)
    ensures (exists after: State :: Leads(st, after) && Ended(after, t)) <==> MayEnd(st, t)
  {
    ReachableHasInv(st);
    if MayEnd(st, t) {
      MayEndCan(st, t);
    } else if after: State :| Leads(st, after) && Ended(after, t) {
      var more :| Runs(st, more) && Uncancelled(more) && After(st, more) == after;
      AbandonedForGood(st, more, t);
    }
  }

  /** Dropping the binding under a waiting prompt abandons its turn exactly when, before the
      step, nobody who read it was under way and no worker held its end. */
  lemma LetGoAbandons(st: State, c: nat, t: nat)
    requires ContainCan(st, c, LetGo) && st.session.bound == Some(st.containers[c].gen)
    requires st.prompt == Waiting(t) && st.session.current == Some(t) && t < |st.turns| && st.turns[t].ended.Running?
    ensures Abandoned(ContainDoes(st, c, LetGo), t) <==> !MayEnd(st, t)
  {
    var st' := ContainDoes(st, c, LetGo);
    assert st'.turns == st.turns && st'.workers == st.workers && st'.enders == st.enders;
    forall d ensures CapturedBy(st', d, t) <==> CapturedBy(st, d, t) {
    }
    forall e ensures EndedBy(st', e, t) <==> EndedBy(st, e, t) {
    }
    forall w ensures HoldsEnd(st', w, t) <==> HoldsEnd(st, w, t) {
    }
  }

  // ---- the run into it ----

  function Stale(session: Session, turns: seq<Turn>, at: WorkerAt, container: ContainAt, p: Prompt): State {
    State(session, turns, Quiet0, [Worker(0, true, false, at)], map[0 := 0],
          [Container(0, true, false, None, container)], [], {}, {}, p)
  }

  function QueuedState(): State {
    State(Idle0, [], Quiet0, [Worker(0, false, false, WorkerAt.Idle)], map[0 := 0], [], [], {}, {}, Prompt.Bound(0))
  }

  lemma ReachQueued()
    ensures Reachable(QueuedState())
  {
    ReachBound();
    Reach(BoundState(), OtherStep(CreateQueue(0)));
    assert Apply(BoundState(), OtherStep(CreateQueue(0))) == QueuedState();
  }

  lemma ReachStaleStart()
    ensures Reachable(Stale(Idle0, [], WorkerAt.Idle, Checking, Prompt.Bound(0)))
  {
    ReachQueued();
    var s2 := QueuedState();
    var s3 := Stale(Idle0, [], WorkerAt.Idle, Checking, Prompt.Bound(0));
    Reach(s2, WorkerStep(0, Overflow));
    assert Apply(s2, WorkerStep(0, Overflow)) == s3;
  }

  lemma ReachStale()
    ensures Reachable(Stale(Busy0.(lost := true), [FreshTurn(0, Idle0)], WorkerAt.Idle, Quieting, Starting(0)))
  {
    ReachStaleStart();
    TellsNobody();
    var s3 := Stale(Idle0, [], WorkerAt.Idle, Checking, Prompt.Bound(0));
    var s4 := Stale(Idle0.(lost := true), [], WorkerAt.Idle, Quieting, Prompt.Bound(0));
    Reach(s3, ContainStep(0, Check));
    assert Apply(s3, ContainStep(0, Check)) == s4;
    Reach(s4, PromptStep(Install));
  }

  lemma ReachStaleWaiting()
    ensures Reachable(Stale(Busy0.(lost := true), [Started], WorkerAt.Idle, Retiring, Waiting(0)))
  {
    ReachStale();
    var lost := Busy0.(lost := true);
    var s0 := Stale(lost, [FreshTurn(0, Idle0)], WorkerAt.Idle, Quieting, Starting(0));
    Reach(s0, PromptStep(StartAnswered(7, false)));
    var s1 := Stale(lost, [Started], WorkerAt.Idle, Quieting, Waiting(0));
    assert Apply(s0, PromptStep(StartAnswered(7, false))) == s1;
    Reach(s1, ContainStep(0, Quiet));
  }

  /** The containment is about to let the binding of a turn go that it did not read. */
  predicate AboutToAbandon(st: State) {
    && ContainCan(st, 0, LetGo) && |st.containers| == 1 && st.containers[0].turn.None?
    && st.session.bound == Some(st.containers[0].gen) && st.session.current == Some(0) && st.prompt == Waiting(0)
    && st.turns == [Started] && st.enders == [] && |st.workers| == 1 && st.workers[0].at.Exited?
  }

  lemma ReachStaleJoining()
    ensures Reachable(Stale(Busy0.(lost := true), [Started], Exited, Joining(0), Waiting(0)))
  {
    ReachStaleWaiting();
    var lost := Busy0.(lost := true);
    var s0 := Stale(lost, [Started], WorkerAt.Idle, Retiring, Waiting(0));
    Reach(s0, WorkerStep(0, Leave));
    var s1 := Stale(lost, [Started], Exited, Retiring, Waiting(0));
    assert Apply(s0, WorkerStep(0, Leave)) == s1;
    Reach(s1, ContainStep(0, Retire));
  }

  lemma ReachStaleUnbinding()
    ensures exists st: State :: Reachable(st) && AboutToAbandon(st)
  {
    ReachStaleJoining();
    var s0 := Stale(Busy0.(lost := true), [Started], Exited, Joining(0), Waiting(0));
    Reach(s0, ContainStep(0, Join));
    assert AboutToAbandon(Apply(s0, ContainStep(0, Join)));
  }

  lemma NobodyLeft(st: State)
    requires AboutToAbandon(st)
    ensures !MayEnd(st, 0)
  {
  }

  /** A containment that began before the prompt installed its turn abandons it. */
  lemma TurnLeftRunning()
    ensures exists st: State :: Reachable(st) && Abandoned(st, 0)
  {
    ReachStaleUnbinding();
    var st: State :| Reachable(st) && AboutToAbandon(st);
    NobodyLeft(st);
    LetGoAbandons(st, 0, 0);
    Reach(st, ContainStep(0, LetGo));
  }
}
