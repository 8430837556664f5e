/** Containment waits for the session's worker, the worker for the prompt, the prompt for the
    containment: what ends that circle, and runs in which it cannot close. */
module SettlementWaits {
  import opened Settlement
  import opened SettlementProofs

  // ---- the circle ----

  /** The prompt waits for its containment, which joins a worker that is parked behind the prompt
      and that nobody fenced. */
  predicate Stuck(st: State) {
    && st.prompt.Containing? && st.prompt.container < |st.containers| && st.prompt.turn < |st.turns|
    && !st.turns[st.prompt.turn].finished
    && var at := st.containers[st.prompt.container].at;
       && at.Joining? && at.worker < |st.workers|
       && var x := st.workers[at.worker];
          x.at == Parked(st.prompt.turn) && !x.fenced && x.gen !in st.dying
  }

  /** What ends it: the app-server's process exits, or the queue overflows. */
  predicate Frees(st: State, step: Step)
    requires Stuck(st)
  {
    var w := st.containers[st.prompt.container].at.worker;
    step == OtherStep(ProcessExits(st.workers[w].gen)) || step == WorkerStep(w, Overflow)
  }

  lemma WorkerFinishesNone(st: State, w: nat, move: WorkerMove, t: nat)
    requires WorkerCan(st, w, move) && t < |st.turns|
    ensures WorkerDoes(st, w, move).turns[t].finished == st.turns[t].finished
  {
    if move.Project? {
      assert Projected(st.turns[st.workers[w].at.turn], st.workers[w].at, w, move.refused).finished == st.turns[st.workers[w].at.turn].finished;
    }
  }

  lemma StuckThroughWorkers(st: State, w: nat, move: WorkerMove)
    requires Stuck(st) && WorkerCan(st, w, move) && !Frees(st, WorkerStep(w, move))
    ensures Stuck(WorkerDoes(st, w, move))
  {
    WorkerFinishesNone(st, w, move, st.prompt.turn);
  }

  lemma ContainFinishesNone(st: State, c: nat, move: ContainMove, t: nat)
    requires ContainCan(st, c, move) && t < |st.turns|
    ensures ContainDoes(st, c, move).turns[t].finished == st.turns[t].finished
    ensures ContainDoes(st, c, move).dying == st.dying
  {
  }

  lemma StuckThroughContainers(st: State, c: nat, move: ContainMove)
    requires Stuck(st) && ContainCan(st, c, move)
    ensures Stuck(ContainDoes(st, c, move))
  {
    assert c != st.prompt.container;
    ContainFinishesNone(st, c, move, st.prompt.turn);
  }

  lemma StuckThroughEnds(st: State, e: nat, move: EndMove)
    requires Stuck(st) && EndCan(st, e, move)
    ensures Stuck(EndDoes(st, e, move))
  {
  }

  lemma StuckThroughOthers(st: State, move: OtherMove)
    requires Stuck(st) && OtherCan(st, move) && !Frees(st, OtherStep(move))
    ensures Stuck(OtherDoes(st, move))
  {
  }

  /** Nothing else ends it: no cancel, no close, no record, no other containment. */
  lemma StuckStands(st: State, step: Step)
    requires Stuck(st) && Enabled(st, step) && !Frees(st, step)
    ensures Stuck(Apply(st, step))
  {
    match step
    case PromptStep(move) =>
    case WorkerStep(w, move) => StuckThroughWorkers(st, w, move);
    case ContainStep(c, move) => StuckThroughContainers(st, c, move);
    case EndStep(e, move) => StuckThroughEnds(st, e, move);
    case OtherStep(move) => StuckThroughOthers(st, move);
  }

  predicate NeverFrees(st: State, steps: seq<Step>)
    requires Stuck(st) && Runs(st, steps)
    decreases |steps|
  {
    steps == [] ||
    (!Frees(st, steps[0])
     && (Stuck(Apply(st, steps[0])) ==> NeverFrees(Apply(st, steps[0]), steps[1..])))
  }

  /** The prompt does not answer, however the run goes on, until one of the two happens. */
  lemma {:induction false} StuckForGood(st: State, steps: seq<Step>)
    requires Stuck(st) && Runs(st, steps) && NeverFrees(st, steps)
    ensures Stuck(After(st, steps))
    decreases |steps|
  {
    if steps == [] {
    } else {
      StuckStands(st, steps[0]);
      StuckForGood(Apply(st, steps[0]), steps[1..]);
    }
  }

  // ---- when it cannot happen ----

  /** A containment that has not yet looked for the queue it will join. */
  predicate InWindow(x: Container) {
    x.at.Checking? || x.at.Quieting? || x.at.Retiring?
  }

  /** Whatever a containment joins, or would find now, is fenced. */
  predicate FencedAt(st: State, c: nat)
    requires c < |st.containers|
  {
    var x := st.containers[c];
    && (InWindow(x) && x.gen in st.registered ==>
          st.registered[x.gen] < |st.workers| && st.workers[st.registered[x.gen]].fenced)
    && (x.at.Joining? ==> x.at.worker < |st.workers| && st.workers[x.at.worker].fenced)
  }

  predicate Fences(st: State) {
    forall c | 0 <= c < |st.containers| :: FencedAt(st, c)
  }

  /** The step creates a queue for a session some containment is about to join. */
  predicate CreatesInWindow(st: State, step: Step) {
    && step.OtherStep? && step.other.CreateQueue?
    && exists c | 0 <= c < |st.containers| :: st.containers[c].gen == step.other.gen && InWindow(st.containers[c])
  }

  lemma PromptKeepsFence(st: State, move: PromptMove, c: nat)
    requires Basic(st) && Fences(st) && PromptCan(st, move) && c < |PromptDoes(st, move).containers|
    ensures FencedAt(PromptDoes(st, move), c)
  {
    if c < |st.containers| {
      assert FencedAt(st, c);
    }
  }

  lemma WorkerKeepsFence(st: State, w: nat, move: WorkerMove, c: nat)
    requires Basic(st) && Fences(st) && WorkerCan(st, w, move) && c < |WorkerDoes(st, w, move).containers|
    ensures FencedAt(WorkerDoes(st, w, move), c)
  {
    if c < |st.containers| {
      assert FencedAt(st, c);
    }
  }

  lemma ContainKeepsFence(st: State, d: nat, move: ContainMove, c: nat)
    requires Basic(st) && Fences(st) && ContainCan(st, d, move) && c < |st.containers|
    ensures FencedAt(ContainDoes(st, d, move), c)
  {
    assert FencedAt(st, c);
  }

  lemma OtherKeepsFence(st: State, move: OtherMove, c: nat)
    requires Basic(st) && Fences(st) && OtherCan(st, move) && !CreatesInWindow(st, OtherStep(move)) && c < |st.containers|
    ensures FencedAt(OtherDoes(st, move), c)
  {
    assert FencedAt(st, c);
  }

  lemma StepKeepsFences(st: State, step: Step)
    requires Basic(st) && Fences(st) && Enabled(st, step) && !CreatesInWindow(st, step)
    ensures Fences(Apply(st, step))
  {
    forall c | 0 <= c < |Apply(st, step).containers| ensures FencedAt(Apply(st, step), c) {
      match step
      case PromptStep(move) => PromptKeepsFence(st, move, c);
      case WorkerStep(w, move) => WorkerKeepsFence(st, w, move, c);
      case ContainStep(d, move) => ContainKeepsFence(st, d, move, c);
      case EndStep(e, move) => assert FencedAt(st, c);
      case OtherStep(move) => OtherKeepsFence(st, move, c);
    }
  }

  predicate NoneInWindow(st: State, steps: seq<Step>)
    requires Runs(st, steps)
    decreases |steps|
  {
    steps == [] || (!CreatesInWindow(st, steps[0]) && NoneInWindow(Apply(st, steps[0]), steps[1..]))
  }

  lemma {:induction false} RunKeepsFences(st: State, steps: seq<Step>)
    requires Basic(st) && Fences(st) && Runs(st, steps) && NoneInWindow(st, steps)
    ensures Basic(After(st, steps)) && Fences(After(st, steps))
    decreases |steps|
  {
    if steps == [] {
    } else {
      StepKeepsBasic(st, steps[0]);
      StepKeepsFences(st, steps[0]);
      RunKeepsFences(Apply(st, steps[0]), steps[1..]);
    }
  }

  /** How many steps a worker is from its exit, if it takes no further record. */
  function ToExit(at: WorkerAt): nat {
    match at
    case Exited => 0
    case Idle => 1
    case Parked(_) => 1
    case Projecting(_, _, _, _) => 2
    case Holding(_, _) => 3
  }

  predicate NearerBy(st: State, w: nat, move: WorkerMove)
    requires w < |st.workers|
  {
    WorkerCan(st, w, move) && ToExit(WorkerDoes(st, w, move).workers[w].at) < ToExit(st.workers[w].at)
  }

  predicate CanLeave(st: State, w: nat)
    requires w < |st.workers|
  {
    st.workers[w].at.Exited? || NearerBy(st, w, Leave) || NearerBy(st, w, Stamp(false)) || NearerBy(st, w, Project(false))
  }

  lemma FencedWorkerLeaves(st: State, w: nat)
    requires Basic(st) && w < |st.workers| && st.workers[w].fenced
    ensures CanLeave(st, w)
  {
    assert Knows(st.workers[w].at, |st.turns|);
  }

  lemma FencesFree(st: State, c: nat)
    requires Basic(st) && Fences(st) && c < |st.containers| && st.containers[c].at.Joining?
    ensures st.containers[c].at.worker < |st.workers| && CanLeave(st, st.containers[c].at.worker) && !Stuck(st)
  {
    assert FencedAt(st, c);
    if st.prompt.Containing? {
      assert FencedAt(st, st.prompt.container);
    }
    FencedWorkerLeaves(st, st.containers[c].at.worker);
  }

  /** In every run in which no queue is created for a session while a containment is about to
      join it, no containment waits for a worker that cannot leave: the worker has exited or has
      a step that brings it nearer to its exit, and the prompt never waits for itself. */
  lemma JoinedWorkerCanLeave(steps: seq<Step>, c: nat)
    requires Runs(Initial, steps) && NoneInWindow(Initial, steps)
    requires c < |After(Initial, steps).containers| && After(Initial, steps).containers[c].at.Joining?
    ensures var st := After(Initial, steps);
            var w := st.containers[c].at.worker;
            w < |st.workers| && CanLeave(st, w) && !Stuck(st)
  {
    RunKeepsFences(Initial, steps);
    FencesFree(After(Initial, steps), c);
  }
}
