/** Which workers may still write a turn whose prompt is being answered. */
module SettlementWriters {
  import opened Wrappers
  import opened Settlement
  import opened SettlementProofs

  predicate Alive(st: State, w: nat, gen: nat) {
    w < |st.workers| && st.workers[w].gen == gen && !st.workers[w].at.Exited?
  }

  /** A running worker is the registered one of its generation, and none outlives it. */
  predicate Solo(st: State) {
    forall w | 0 <= w < |st.workers| && !st.workers[w].at.Exited? ::
      var gen := st.workers[w].gen;
      gen in st.registered && st.registered[gen] == w && gen !in st.ended
  }

  /** While a prompt runs, the session is bound on the prompt's generation or unbound. */
  predicate BindingOk(st: State) {
    var s := st.session;
    && (InFlight(st) ==> s.bound.None? || s.bound == Some(st.turns[s.current.value].gen))
    && (st.prompt.Bound? ==> s.bound.None? || s.bound == Some(st.prompt.gen))
  }

  function TurnAt(at: WorkerAt): Option<nat> {
    match at
    case Holding(t, _) => Some(t)
    case Projecting(t, _, _, _) => Some(t)
    case Parked(t) => Some(t)
    case _ => None
  }

  predicate GensOk(st: State) {
    && (forall w | 0 <= w < |st.workers| ::
          var t := TurnAt(st.workers[w].at);
          t.Some? && t.value < |st.turns| ==> st.turns[t.value].gen == st.workers[w].gen)
    && (forall c | 0 <= c < |st.containers| ::
          var t := st.containers[c].turn;
          t.Some? && t.value < |st.turns| ==> st.turns[t.value].gen == st.containers[c].gen)
    && (forall e | 0 <= e < |st.enders| ::
          var t := st.enders[e].turn;
          t.Some? && t.value < |st.turns| ==> st.turns[t.value].gen == st.enders[e].gen)
  }

  /** The worker that settled a turn stays parked behind it until the prompt has finished. */
  predicate ParkedAt(st: State, t: nat)
    requires t < |st.turns|
  {
    st.turns[t].settledBy.Some? && !st.turns[t].finished ==>
      var w := st.turns[t].settledBy.value;
      w < |st.workers| && (st.workers[w].at == Parked(t) || st.workers[w].at.Exited?)
  }

  predicate ParkedOk(st: State) {
    && (forall t | 0 <= t < |st.turns| :: ParkedAt(st, t))
    && (InFlight(st) ==> !st.turns[st.session.current.value].finished)
    && (st.prompt.Finishing? && st.prompt.turn < |st.turns| ==> !st.turns[st.prompt.turn].finished)
  }

  /** Every running worker of the generation is late, but for at most one. */
  predicate SealedBut(st: State, gen: nat, but: Option<nat>) {
    forall w | 0 <= w < |st.workers| && Alive(st, w, gen) :: st.workers[w].late || Some(w) == but
  }

  predicate About(st: State, c: nat, t: nat)
    requires c < |st.containers|
  {
    st.containers[c].turn == Some(t) || (st.prompt.Containing? && st.prompt.turn == t && st.prompt.container == c)
  }

  /** What a containment of the current turn has established when it stands where it stands. */
  predicate Contained(st: State, c: nat)
    requires c < |st.containers|
  {
    InFlight(st) && About(st, c, st.session.current.value) && !st.containers[c].at.Checking? ==>
      var gen := st.turns[st.session.current.value].gen;
      var at := st.containers[c].at;
      && LateQueue(st, gen)
      && (at.Joining? ==> SealedBut(st, gen, Some(at.worker)))
      && (at.Unbinding? || at.Settling? || (at.Done? && st.prompt.Containing? && st.prompt.container == c) ==>
            SealedBut(st, gen, None))
  }

  function SettlerParked(st: State, t: nat): Option<nat>
    requires t < |st.turns|
  {
    var w := st.turns[t].settledBy;
    if w.Some? && w.value < |st.workers| && st.workers[w.value].at == Parked(t) then w else None
  }

  /** Once the current turn has ended, every running worker of its generation is late or is the
      one that settled it and waits. */
  predicate Judged(st: State) {
    InFlight(st) ==>
      var t := st.session.current.value;
      && (!st.turns[t].ended.Running? ==>
            SealedBut(st, st.turns[t].gen, SettlerParked(st, t)))
      && (st.prompt.ForceSettling? ==> LateQueue(st, st.turns[t].gen) && SealedBut(st, st.turns[t].gen, None))
  }

  predicate Writers(st: State) {
    && Solo(st) && BindingOk(st) && GensOk(st) && ParkedOk(st) && Judged(st)
    && forall c | 0 <= c < |st.containers| :: Contained(st, c)
  }

  // ---- the simple parts ----

  lemma PromptKeepsSolo(st: State, move: PromptMove)
    requires Basic(st) && Solo(st) && PromptCan(st, move)
    ensures Solo(PromptDoes(st, move))
  {
  }

  lemma WorkerKeepsSolo(st: State, w: nat, move: WorkerMove)
    requires Basic(st) && Solo(st) && WorkerCan(st, w, move)
    ensures Solo(WorkerDoes(st, w, move))
  {
  }

  lemma OtherKeepsSolo(st: State, move: OtherMove)
    requires Basic(st) && Solo(st) && OtherCan(st, move)
    ensures Solo(OtherDoes(st, move))
  {
  }

  lemma StepKeepsSolo(st: State, step: Step)
    requires Basic(st) && Solo(st) && Enabled(st, step)
    ensures Solo(Apply(st, step))
  {
    match step
    case PromptStep(move) => PromptKeepsSolo(st, move);
    case WorkerStep(w, move) => WorkerKeepsSolo(st, w, move);
    case ContainStep(c, move) =>
    case EndStep(e, move) =>
    case OtherStep(move) => OtherKeepsSolo(st, move);
  }

  lemma OthersOnlyUnbind(st: State, step: Step)
    requires Enabled(st, step) && !step.PromptStep?
    ensures OnlyUnbinds(st.session, Apply(st, step).session)
    ensures Apply(st, step).prompt == st.prompt && |Apply(st, step).turns| == |st.turns|
  {
  }

  lemma PromptKeepsBinding(st: State, move: PromptMove)
    requires Basic(st) && BindingOk(st) && PromptCan(st, move)
    ensures BindingOk(PromptDoes(st, move))
  {
  }

  lemma StepKeepsBinding(st: State, step: Step)
    requires Basic(st) && BindingOk(st) && Enabled(st, step)
    ensures BindingOk(Apply(st, step))
  {
    if step.PromptStep? {
      PromptKeepsBinding(st, step.prompt);
    } else {
      StepGoesOn(st, step);
      OthersOnlyUnbind(st, step);
    }
  }

  lemma ContainKeepsGens(st: State, c: nat, move: ContainMove)
    requires Basic(st) && BindingOk(st) && GensOk(st) && ContainCan(st, c, move)
    ensures GensOk(ContainDoes(st, c, move))
  {
    ContainGoesOn(st, c, move);
    var x' := ContainDoes(st, c, move).containers[c];
    assert x'.gen == st.containers[c].gen && (x'.turn == st.containers[c].turn || x'.turn == st.session.current);
  }

  lemma EndKeepsGens(st: State, e: nat, move: EndMove)
    requires Basic(st) && BindingOk(st) && GensOk(st) && EndCan(st, e, move)
    ensures GensOk(EndDoes(st, e, move))
  {
    var x' := EndDoes(st, e, move).enders[e];
    assert x'.gen == st.enders[e].gen && (x'.turn == st.enders[e].turn || x'.turn == st.session.current);
  }

  lemma OtherKeepsGens(st: State, move: OtherMove)
    requires Basic(st) && GensOk(st) && OtherCan(st, move)
    ensures GensOk(OtherDoes(st, move))
  {
  }

  /** A worker keeps its generation and its mark, and an exited one stays exited. */
  predicate WorkerGoesOnTo(x: Worker, x': Worker) {
    x'.gen == x.gen && x'.late == x.late && (x.at.Exited? ==> x'.at.Exited?)
  }

  lemma PromptWorkersGoOn(st: State, move: PromptMove, w: nat)
    requires PromptCan(st, move) && w < |st.workers|
    ensures WorkerGoesOnTo(st.workers[w], PromptDoes(st, move).workers[w])
  {
  }

  lemma PromptParks(st: State, move: PromptMove, w: nat)
    requires PromptCan(st, move) && w < |st.workers|
    ensures PromptDoes(st, move).workers[w].at == st.workers[w].at
  {
  }

  lemma PromptWorkerGen(st: State, move: PromptMove, w: nat)
    requires Basic(st) && GensOk(st) && PromptCan(st, move) && w < |st.workers|
    ensures var st' := PromptDoes(st, move);
            var t := TurnAt(st'.workers[w].at);
            t.Some? && t.value < |st'.turns| ==> st'.turns[t.value].gen == st'.workers[w].gen
  {
    PromptWorkersGoOn(st, move, w);
    PromptParks(st, move, w);
    var t := TurnAt(st.workers[w].at);
    if t.Some? {
      assert Knows(st.workers[w].at, |st.turns|);
      PromptGoesOnAt(st, move, t.value);
    }
  }

  lemma PromptContainerGen(st: State, move: PromptMove, c: nat)
    requires Basic(st) && GensOk(st) && PromptCan(st, move) && c < |PromptDoes(st, move).containers|
    ensures var st' := PromptDoes(st, move);
            var t := st'.containers[c].turn;
            t.Some? && t.value < |st'.turns| ==> st'.turns[t.value].gen == st'.containers[c].gen
  {
    if c < |st.containers| && st.containers[c].turn.Some? {
      assert ContainerOk(st, st.containers[c]);
      PromptGoesOnAt(st, move, st.containers[c].turn.value);
    }
  }

  lemma PromptKeepsGens(st: State, move: PromptMove)
    requires Basic(st) && GensOk(st) && PromptCan(st, move)
    ensures GensOk(PromptDoes(st, move))
  {
    var st' := PromptDoes(st, move);
    forall w | 0 <= w < |st'.workers|
      ensures var t := TurnAt(st'.workers[w].at);
              t.Some? && t.value < |st'.turns| ==> st'.turns[t.value].gen == st'.workers[w].gen
    {
      PromptWorkerGen(st, move, w);
    }
    forall c | 0 <= c < |st'.containers|
      ensures var t := st'.containers[c].turn;
              t.Some? && t.value < |st'.turns| ==> st'.turns[t.value].gen == st'.containers[c].gen
    {
      PromptContainerGen(st, move, c);
    }
    PromptGoesOn(st, move);
  }

  lemma WorkerKeepsGens(st: State, w: nat, move: WorkerMove)
    requires Basic(st) && BindingOk(st) && GensOk(st) && WorkerCan(st, w, move)
    ensures GensOk(WorkerDoes(st, w, move))
  {
    WorkerGoesOn(st, w, move);
  }

  lemma StepKeepsGens(st: State, step: Step)
    requires Basic(st) && BindingOk(st) && GensOk(st) && Enabled(st, step)
    ensures GensOk(Apply(st, step))
  {
    StepGoesOn(st, step);
    match step
    case PromptStep(move) => PromptKeepsGens(st, move);
    case WorkerStep(w, move) => WorkerKeepsGens(st, w, move);
    case ContainStep(c, move) => ContainKeepsGens(st, c, move);
    case EndStep(e, move) => EndKeepsGens(st, e, move);
    case OtherStep(move) => OtherKeepsGens(st, move);
  }

  // ---- a settled turn parks its worker ----

  lemma PromptParksAt(st: State, move: PromptMove, t: nat)
    requires Basic(st) && PromptCan(st, move) && t < |st.turns| && ParkedAt(st, t)
    ensures t < |PromptDoes(st, move).turns| && ParkedAt(PromptDoes(st, move), t)
  {
    PromptGoesOnAt(st, move, t);
    if st.turns[t].settledBy.Some? && st.turns[t].settledBy.value < |st.workers| {
      PromptParks(st, move, st.turns[t].settledBy.value);
    }
  }

  lemma PromptKeepsParked(st: State, move: PromptMove)
    requires Basic(st) && ParkedOk(st) && PromptCan(st, move)
    ensures ParkedOk(PromptDoes(st, move))
  {
    var st' := PromptDoes(st, move);
    forall t | 0 <= t < |st'.turns| ensures ParkedAt(st', t) {
      if t < |st.turns| {
        PromptParksAt(st, move, t);
      }
    }
  }

  lemma WorkerParksAt(st: State, w: nat, move: WorkerMove, t: nat)
    requires Basic(st) && WorkerCan(st, w, move) && t < |st.turns| && ParkedAt(st, t)
    ensures ParkedAt(WorkerDoes(st, w, move), t)
  {
    WorkerGoesOnAt(st, w, move, t);
  }

  lemma WorkerKeepsParked(st: State, w: nat, move: WorkerMove)
    requires Basic(st) && ParkedOk(st) && WorkerCan(st, w, move)
    ensures ParkedOk(WorkerDoes(st, w, move))
  {
    forall t | 0 <= t < |st.turns| ensures ParkedAt(WorkerDoes(st, w, move), t) {
      WorkerParksAt(st, w, move, t);
    }
    if InFlight(st) {
      WorkerGoesOnAt(st, w, move, st.session.current.value);
    }
  }

  lemma ContainParksAt(st: State, c: nat, move: ContainMove, t: nat)
    requires Basic(st) && ContainCan(st, c, move) && t < |st.turns| && ParkedAt(st, t)
    ensures ParkedAt(ContainDoes(st, c, move), t)
  {
    ContainGoesOnAt(st, c, move, t);
  }

  lemma ContainKeepsParked(st: State, c: nat, move: ContainMove)
    requires Basic(st) && ParkedOk(st) && ContainCan(st, c, move)
    ensures ParkedOk(ContainDoes(st, c, move))
  {
    forall t | 0 <= t < |st.turns| ensures ParkedAt(ContainDoes(st, c, move), t) {
      ContainParksAt(st, c, move, t);
    }
  }

  lemma EndParksAt(st: State, e: nat, move: EndMove, t: nat)
    requires EndCan(st, e, move) && t < |st.turns| && ParkedAt(st, t)
    ensures ParkedAt(EndDoes(st, e, move), t)
  {
  }

  lemma EndKeepsParked(st: State, e: nat, move: EndMove)
    requires Basic(st) && ParkedOk(st) && EndCan(st, e, move)
    ensures ParkedOk(EndDoes(st, e, move))
  {
    forall t | 0 <= t < |st.turns| ensures ParkedAt(EndDoes(st, e, move), t) {
      EndParksAt(st, e, move, t);
    }
  }

  lemma OtherParksAt(st: State, move: OtherMove, t: nat)
    requires OtherCan(st, move) && t < |st.turns| && ParkedAt(st, t)
    ensures ParkedAt(OtherDoes(st, move), t)
  {
  }

  lemma OtherKeepsParked(st: State, move: OtherMove)
    requires Basic(st) && ParkedOk(st) && OtherCan(st, move)
    ensures ParkedOk(OtherDoes(st, move))
  {
    forall t | 0 <= t < |st.turns| ensures ParkedAt(OtherDoes(st, move), t) {
      OtherParksAt(st, move, t);
    }
  }

  lemma StepKeepsParked(st: State, step: Step)
    requires Basic(st) && ParkedOk(st) && Enabled(st, step)
    ensures ParkedOk(Apply(st, step))
  {
    StepGoesOn(st, step);
    match step
    case PromptStep(move) => PromptKeepsParked(st, move);
    case WorkerStep(w, move) => WorkerKeepsParked(st, w, move);
    case ContainStep(c, move) => ContainKeepsParked(st, c, move);
    case EndStep(e, move) => EndKeepsParked(st, e, move);
    case OtherStep(move) => OtherKeepsParked(st, move);
  }

  // ---- seals ----

  lemma WorkersGoOn(st: State, step: Step, w: nat)
    requires Enabled(st, step) && w < |st.workers|
    ensures w < |Apply(st, step).workers| && WorkerGoesOnTo(st.workers[w], Apply(st, step).workers[w])
  {
    match step
    case PromptStep(move) => PromptWorkersGoOn(st, move, w);
    case WorkerStep(v, move) =>
    case ContainStep(c, move) =>
    case EndStep(e, move) =>
    case OtherStep(move) =>
  }

  lemma OnlyQueuesAddWorkers(st: State, step: Step)
    requires Enabled(st, step)
    ensures |Apply(st, step).workers| == |st.workers| || (step.OtherStep? && step.other.CreateQueue?)
  {
    if step.OtherStep? && !step.other.CreateQueue? {
      assert OtherDoes(st, step.other).workers == st.workers;
    }
  }

  lemma SealStands(st: State, step: Step, gen: nat, but: Option<nat>)
    requires SealedBut(st, gen, but) && Enabled(st, step)
    requires step == OtherStep(CreateQueue(gen)) ==> LateQueue(st, gen)
    ensures SealedBut(Apply(st, step), gen, but)
  {
    var st' := Apply(st, step);
    OnlyQueuesAddWorkers(st, step);
    forall w | 0 <= w < |st'.workers| && Alive(st', w, gen) ensures st'.workers[w].late || Some(w) == but {
      if w < |st.workers| {
        WorkersGoOn(st, step, w);
        assert Alive(st, w, gen);
      }
    }
  }

  lemma PromptLateStands(st: State, move: PromptMove, t: nat)
    requires Basic(st) && PromptCan(st, move) && st.session.current == Some(t) && t < |st.turns|
    requires PromptDoes(st, move).session.current == Some(t)
    requires LateQueue(st, st.turns[t].gen)
    ensures LateQueue(PromptDoes(st, move), st.turns[t].gen)
  {
    PromptGoesOnAt(st, move, t);
    var s, s' := st.session, PromptDoes(st, move).session;
    assert move.RepairRebinds? || (s.lost ==> s'.lost);
    assert move.RepairRebinds? || s'.bound == s.bound || s'.bound.None?;
  }

  /** What makes new queues late for a turn lasts as long as the turn is current. */
  lemma LateStands(st: State, step: Step, t: nat)
    requires Basic(st) && Enabled(st, step) && st.session.current == Some(t) && t < |st.turns|
    requires Apply(st, step).session.current == Some(t)
    requires LateQueue(st, st.turns[t].gen)
    ensures LateQueue(Apply(st, step), st.turns[t].gen)
  {
    StepGoesOn(st, step);
    if step.PromptStep? {
      PromptLateStands(st, step.prompt, t);
    } else {
      OthersOnlyUnbind(st, step);
    }
  }

  lemma AliveIsRegistered(st: State, gen: nat, w: nat)
    requires Solo(st) && Alive(st, w, gen)
    ensures gen in st.registered && st.registered[gen] == w && gen !in st.ended
  {
  }

  // ---- a containment seals its turn ----

  lemma CheckMakesLate(st: State, c: nat, t: nat)
    requires Basic(st) && GensOk(st) && ContainCan(st, c, Check)
    requires st.session.current == Some(t) && t < |st.turns| && st.containers[c].gen == st.turns[t].gen
    ensures LateQueue(ContainDoes(st, c, Check), st.turns[t].gen)
  {
  }

  lemma NoneRegisteredSeals(st: State, gen: nat)
    requires Solo(st)
    ensures SealedBut(st, gen, if gen in st.registered then Some(st.registered[gen]) else None)
  {
    forall w | 0 <= w < |st.workers| && Alive(st, w, gen)
      ensures gen in st.registered && st.registered[gen] == w
    {
      AliveIsRegistered(st, gen, w);
    }
  }

  lemma JoinedSeals(st: State, gen: nat, w: nat)
    requires SealedBut(st, gen, Some(w)) && w < |st.workers| && st.workers[w].at.Exited?
    ensures SealedBut(st, gen, None)
  {
    forall v | 0 <= v < |st.workers| && Alive(st, v, gen) ensures st.workers[v].late {
    }
  }

  lemma CheckSeals(st: State, c: nat)
    requires Basic(st) && Writers(st) && ContainCan(st, c, Check)
    ensures Contained(ContainDoes(st, c, Check), c)
  {
    var st' := ContainDoes(st, c, Check);
    if InFlight(st') && About(st', c, st.session.current.value) {
      ContainKeepsGens(st, c, Check);
      CheckMakesLate(st, c, st.session.current.value);
    }
  }

  /** Past its first step a containment of the current turn was one before, and queues were late. */
  lemma StillAbout(st: State, c: nat, move: ContainMove, t: nat)
    requires Basic(st) && Writers(st) && ContainCan(st, c, move) && !move.Check?
    requires st.session.current == Some(t) && t < |st.turns| && About(ContainDoes(st, c, move), c, t)
    ensures About(st, c, t) && st.containers[c].gen == st.turns[t].gen
    ensures ContainDoes(st, c, move).turns[t].gen == st.turns[t].gen
    ensures LateQueue(ContainDoes(st, c, move), st.turns[t].gen)
  {
    assert Contained(st, c) && ContainerOk(st, st.containers[c]);
    ContainGoesOnAt(st, c, move, t);
    LateStands(st, ContainStep(c, move), t);
  }

  lemma LaterSeals(st: State, c: nat, move: ContainMove)
    requires Basic(st) && Writers(st) && ContainCan(st, c, move) && !move.Check?
    ensures Contained(ContainDoes(st, c, move), c)
  {
    var st' := ContainDoes(st, c, move);
    if InFlight(st') && About(st', c, st.session.current.value) {
      var t := st.session.current.value;
      var gen := st.turns[t].gen;
      StillAbout(st, c, move, t);
      assert Contained(st, c) && st'.workers == st.workers;
      if move.Retire? {
        NoneRegisteredSeals(st, gen);
      } else if move.Join? {
        JoinedSeals(st, gen, st.containers[c].at.worker);
      }
    }
  }

  lemma ContainSeals(st: State, c: nat, move: ContainMove)
    requires Basic(st) && Writers(st) && ContainCan(st, c, move)
    ensures Contained(ContainDoes(st, c, move), c)
  {
    if move.Check? {
      CheckSeals(st, c);
    } else {
      LaterSeals(st, c, move);
    }
  }

  lemma SameTurnOfPrompt(st: State, move: PromptMove, c: nat)
    requires Basic(st) && PromptCan(st, move) && c < |st.containers| && !st.containers[c].at.Checking?
    requires var st' := PromptDoes(st, move); InFlight(st') && About(st', c, st'.session.current.value)
    ensures InFlight(st) && st.session.current == PromptDoes(st, move).session.current
    ensures About(st, c, st.session.current.value)
    ensures PromptDoes(st, move).prompt.Containing? && PromptDoes(st, move).prompt.container == c ==>
              st.prompt.Containing? && st.prompt.container == c
  {
    assert ContainerOk(st, st.containers[c]);
  }

  /** A containment that is about the current turn was so before the step. */
  lemma SameTurn(st: State, step: Step, c: nat)
    requires Basic(st) && Enabled(st, step) && c < |st.containers|
    requires Apply(st, step).containers[c] == st.containers[c] && !st.containers[c].at.Checking?
    requires InFlight(Apply(st, step)) && About(Apply(st, step), c, Apply(st, step).session.current.value)
    ensures InFlight(st) && st.session.current == Apply(st, step).session.current
    ensures About(st, c, st.session.current.value)
    ensures Apply(st, step).prompt.Containing? && Apply(st, step).prompt.container == c ==>
              st.prompt.Containing? && st.prompt.container == c
  {
    assert ContainerOk(st, st.containers[c]);
    if step.PromptStep? {
      SameTurnOfPrompt(st, step.prompt, c);
    } else {
      OthersOnlyUnbind(st, step);
    }
  }

  lemma OthersKeepContained(st: State, step: Step, c: nat)
    requires Basic(st) && Writers(st) && Enabled(st, step)
    requires !(step.ContainStep? && step.c == c) && c < |Apply(st, step).containers|
    ensures Contained(Apply(st, step), c)
  {
    var st' := Apply(st, step);
    StepKeepsBasic(st, step);
    StepGoesOn(st, step);
    if c < |st.containers| && InFlight(st') && About(st', c, st'.session.current.value) && !st'.containers[c].at.Checking? {
      assert st'.containers[c] == st.containers[c];
      var t := st'.session.current.value;
      SameTurn(st, step, c);
      assert Contained(st, c);
      LateStands(st, step, t);
      var gen := st.turns[t].gen;
      var at := st.containers[c].at;
      if at.Joining? {
        SealStands(st, step, gen, Some(at.worker));
      } else if SealedBut(st, gen, None) {
        SealStands(st, step, gen, None);
      }
    }
  }

  // ---- an ended turn is sealed ----

  lemma WorkerEndSeals(st: State, w: nat, move: WorkerMove, t: nat)
    requires Basic(st) && Solo(st) && GensOk(st) && WorkerCan(st, w, move)
    requires t < |st.turns| && st.turns[t].ended.Running? && !WorkerDoes(st, w, move).turns[t].ended.Running?
    ensures SealedBut(WorkerDoes(st, w, move), st.turns[t].gen, SettlerParked(WorkerDoes(st, w, move), t))
  {
    var st' := WorkerDoes(st, w, move);
    var gen := st.turns[t].gen;
    assert move.Project? && st.workers[w].gen == gen && SettlerParked(st', t) == Some(w);
    forall v | 0 <= v < |st'.workers| && Alive(st', v, gen) ensures v == w {
      WorkersGoOn(st, WorkerStep(w, move), v);
      AliveIsRegistered(st, gen, v);
      AliveIsRegistered(st, gen, w);
    }
  }

  lemma GenerationEndSeals(st: State, e: nat, move: EndMove, t: nat)
    requires Basic(st) && Solo(st) && GensOk(st) && EndCan(st, e, move)
    requires t < |st.turns| && st.turns[t].ended.Running? && !EndDoes(st, e, move).turns[t].ended.Running?
    ensures SealedBut(EndDoes(st, e, move), st.turns[t].gen, None)
  {
    var gen := st.turns[t].gen;
    assert st.enders[e].gen == gen && gen in st.ended;
    forall v | 0 <= v < |st.workers| && Alive(st, v, gen) ensures false {
      AliveIsRegistered(st, gen, v);
    }
  }

  lemma SealsWiden(st: State, gen: nat, but: Option<nat>)
    requires SealedBut(st, gen, None)
    ensures SealedBut(st, gen, but)
  {
    forall w | 0 <= w < |st.workers| && Alive(st, w, gen) ensures st.workers[w].late {
    }
  }

  /** Only a forced settlement of the prompt's ends a turn. */
  lemma PromptEnds(st: State, move: PromptMove, t: nat)
    requires PromptCan(st, move) && t < |st.turns|
    requires st.turns[t].ended.Running? && !PromptDoes(st, move).turns[t].ended.Running?
    ensures move.ForceSettle? && st.prompt.turn == t
  {
  }

  lemma PromptEndSeals(st: State, move: PromptMove, t: nat)
    requires Basic(st) && Writers(st) && PromptCan(st, move)
    requires st.session.current == Some(t) && t < |st.turns|
    requires st.turns[t].ended.Running? && !PromptDoes(st, move).turns[t].ended.Running?
    ensures SealedBut(PromptDoes(st, move), st.turns[t].gen, None)
  {
    PromptEnds(st, move, t);
    SealStands(st, PromptStep(move), st.turns[t].gen, None);
  }

  lemma ContainEndSeals(st: State, c: nat, move: ContainMove, t: nat)
    requires Basic(st) && Writers(st) && ContainCan(st, c, move)
    requires st.session.current == Some(t) && t < |st.turns|
    requires st.turns[t].ended.Running? && !ContainDoes(st, c, move).turns[t].ended.Running?
    ensures SealedBut(ContainDoes(st, c, move), st.turns[t].gen, None)
  {
    assert move.SettleContained? && st.containers[c].turn == Some(t);
    assert Contained(st, c);
  }

  lemma OtherEndsNone(st: State, move: OtherMove, t: nat)
    requires OtherCan(st, move) && t < |st.turns|
    ensures OtherDoes(st, move).turns[t].ended == st.turns[t].ended
  {
  }

  /** The turn ends in this step: by its one running worker, by a containment that sealed it, by
      the prompt after its own, or by a generation without workers. */
  lemma EndingSeals(st: State, step: Step, t: nat)
    requires Basic(st) && Writers(st) && Enabled(st, step)
    requires st.session.current == Some(t) && t < |st.turns| && st.turns[t].ended.Running?
    requires !Apply(st, step).turns[t].ended.Running?
    ensures SealedBut(Apply(st, step), st.turns[t].gen, SettlerParked(Apply(st, step), t))
  {
    var st' := Apply(st, step);
    var gen := st.turns[t].gen;
    match step
    case WorkerStep(w, move) => WorkerEndSeals(st, w, move, t);
    case PromptStep(move) =>
      PromptEndSeals(st, move, t);
      SealsWiden(st', gen, SettlerParked(st', t));
    case ContainStep(c, move) =>
      ContainEndSeals(st, c, move, t);
      SealsWiden(st', gen, SettlerParked(st', t));
    case EndStep(e, move) =>
      GenerationEndSeals(st, e, move, t);
      SealsWiden(st', gen, SettlerParked(st', t));
    case OtherStep(move) => OtherEndsNone(st, move, t);
  }

  /** A worker parked behind an unfinished turn can only leave. */
  lemma ParkedLeavesOnly(st: State, step: Step, w: nat, t: nat)
    requires Enabled(st, step) && w < |st.workers| && st.workers[w].at == Parked(t)
    requires t < |st.turns| && !st.turns[t].finished
    ensures w < |Apply(st, step).workers|
    ensures Apply(st, step).workers[w].at == Parked(t) || Apply(st, step).workers[w].at.Exited?
  {
    match step
    case PromptStep(move) => PromptParks(st, move, w);
    case WorkerStep(v, move) =>
    case ContainStep(c, move) =>
    case EndStep(e, move) =>
    case OtherStep(move) =>
  }

  /** A turn that had ended stays sealed: its parked worker does not come back before the
      prompt has finished. */
  lemma EndedStaysSealed(st: State, step: Step, t: nat)
    requires Basic(st) && Writers(st) && Enabled(st, step)
    requires st.session.current == Some(t) && t < |st.turns| && !st.turns[t].ended.Running?
    ensures SealedBut(Apply(st, step), st.turns[t].gen, SettlerParked(Apply(st, step), t))
  {
    var st' := Apply(st, step);
    var gen := st.turns[t].gen;
    StepGoesOn(st, step);
    SealStands(st, step, gen, SettlerParked(st, t));
    forall v | 0 <= v < |st'.workers| && Alive(st', v, gen)
      ensures st'.workers[v].late || Some(v) == SettlerParked(st', t)
    {
      if !st'.workers[v].late {
        WorkersGoOn(st, step, v);
        ParkedLeavesOnly(st, step, v, t);
      }
    }
  }

  lemma ForceSettlingSealed(st: State, step: Step)
    requires Basic(st) && Writers(st) && Enabled(st, step) && Apply(st, step).prompt.ForceSettling?
    ensures var st' := Apply(st, step);
            InFlight(st') ==>
              var gen := st'.turns[st'.session.current.value].gen;
              LateQueue(st', gen) && SealedBut(st', gen, None)
  {
    var st' := Apply(st, step);
    StepGoesOn(st, step);
    StepKeepsBasic(st, step);
    if InFlight(st') {
      var t := st'.session.current.value;
      if step.PromptStep? {
        assert step.prompt.JoinContainer?;
        assert Contained(st, st.prompt.container);
      } else {
        OthersOnlyUnbind(st, step);
      }
      LateStands(st, step, t);
      SealStands(st, step, st.turns[t].gen, None);
    }
  }

  lemma SameCurrent(st: State, step: Step)
    requires Basic(st) && Enabled(st, step) && InFlight(Apply(st, step))
    requires !Apply(st, step).turns[Apply(st, step).session.current.value].ended.Running?
    ensures st.session.current == Apply(st, step).session.current && InFlight(st)
  {
    if !step.PromptStep? {
      OthersOnlyUnbind(st, step);
    }
  }

  lemma StepKeepsJudged(st: State, step: Step)
    requires Basic(st) && Writers(st) && Enabled(st, step)
    ensures Judged(Apply(st, step))
  {
    var st' := Apply(st, step);
    StepGoesOn(st, step);
    if InFlight(st') {
      var t := st'.session.current.value;
      if !st'.turns[t].ended.Running? {
        SameCurrent(st, step);
        if st.turns[t].ended.Running? {
          EndingSeals(st, step, t);
        } else {
          EndedStaysSealed(st, step, t);
        }
      }
      if st'.prompt.ForceSettling? {
        ForceSettlingSealed(st, step);
      }
    }
  }

  lemma StepKeepsWriters(st: State, step: Step)
    requires Basic(st) && Writers(st) && Enabled(st, step)
    ensures Writers(Apply(st, step))
  {
    StepKeepsSolo(st, step);
    StepKeepsBinding(st, step);
    StepKeepsGens(st, step);
    StepKeepsParked(st, step);
    StepKeepsJudged(st, step);
    forall c | 0 <= c < |Apply(st, step).containers| ensures Contained(Apply(st, step), c) {
      if step.ContainStep? && step.c == c {
        ContainSeals(st, c, step.contain);
      } else {
        OthersKeepContained(st, step, c);
      }
    }
  }
}
