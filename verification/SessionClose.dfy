/** Closing one session (session.go:618-708): any number of callers, the establishment that may
    still be committing, and the turns and option changes. One step is one critical section or one
    use of the session's gate, which holds one token. Timeouts let the ladder go on at any time. */
module SessionClose {
  import opened Wrappers

  /** acquireGate admits one foreground operation: a turn or a change of an option. */
  datatype Gate = Free | OfEstablishment | OfForeground | OfClose

  datatype Committer = ByEstablishment | ByTurn | ByConfig | ByClose

  /** `joins` is joinEstablishment: the session had not been persisted when close began. */
  datatype Caller =
    | Called
    | Waiting
    | Settling(joins: bool)
    | Sampling(joins: bool)
    | Committing(joins: bool, persisted: bool)
    | Ending(joins: bool, ok: bool)
    | Leaving(joins: bool, ok: bool)
    | Returned(ok: bool)

  /** `commits` are the mirror commits that reached the store, `runner` the caller that runs the
      ladder, `sampled` what the ladder read of `persisted`. */
  datatype State = State(
    ephemeral: bool,
    persisted: bool,
    closing: bool,
    gate: Gate,
    callers: seq<Caller>,
    runner: Option<nat>,
    sampled: Option<bool>,
    result: Option<bool>,
    commits: seq<Committer>)

  function Initial(ephemeral: bool): State {
    State(ephemeral, false, false, OfEstablishment, [], None, None, None, [])
  }

  datatype Step =
    | EstablishmentCommits(ok: bool) | EstablishmentLeaves
    | ForegroundEnters | TurnCommits(ok: bool) | ConfigCommits(ok: bool) | ForegroundLeaves
    | CallClose | Enter(c: nat) | Join(c: nat) | Sample(c: nat) | Commit(c: nat, ok: bool)
    | Finish(c: nat) | Leave(c: nat) | Wake(c: nat)

  predicate Enabled(st: State, step: Step) {
    match step
    case EstablishmentCommits(_) => st.gate.OfEstablishment?
    case EstablishmentLeaves => st.gate.OfEstablishment?
    case ForegroundEnters => st.gate.Free? && !st.closing
    case TurnCommits(_) => st.gate.OfForeground?
    case ConfigCommits(_) => st.gate.OfForeground?
    case ForegroundLeaves => st.gate.OfForeground?
    case CallClose => true
    case Enter(c) => c < |st.callers| && st.callers[c].Called?
    case Join(c) => c < |st.callers| && st.callers[c].Settling? && (st.callers[c].joins ==> st.gate.Free?)
    case Sample(c) => c < |st.callers| && st.callers[c].Sampling?
    case Commit(c, _) => c < |st.callers| && st.callers[c].Committing?
    case Finish(c) => c < |st.callers| && st.callers[c].Ending?
    case Leave(c) => c < |st.callers| && st.callers[c].Leaving?
    case Wake(c) => c < |st.callers| && st.callers[c].Waiting? && st.result.Some?
  }

  function Set(st: State, c: nat, x: Caller): State
    requires c < |st.callers|
  {
    st.(callers := st.callers[c := x])
  }

  /** commitMirror: an ephemeral session is never written (session_store.go:83-113). */
  function Commits(st: State, committer: Committer, ok: bool): State {
    if ok && !st.ephemeral then st.(persisted := true, commits := st.commits + [committer]) else st
  }

  function Apply(st: State, step: Step): State
    requires Enabled(st, step)
  {
    match step
    case EstablishmentCommits(ok) => Commits(st, ByEstablishment, ok)
    case EstablishmentLeaves => st.(gate := Free)
    case ForegroundEnters => st.(gate := OfForeground)
    case TurnCommits(ok) => Commits(st, ByTurn, ok)
    case ConfigCommits(ok) => Commits(st, ByConfig, ok)
    case ForegroundLeaves => st.(gate := Free)
    case CallClose => st.(callers := st.callers + [Called])
    case Enter(c) =>
      if st.closing then Set(st, c, Waiting)
      else Set(st, c, Settling(!st.persisted)).(closing := true, runner := Some(c))
    case Join(c) =>
      var joins := st.callers[c].joins;
      Set(st, c, Sampling(joins)).(gate := if joins then OfClose else st.gate)
    case Sample(c) => Set(st, c, Committing(st.callers[c].joins, st.persisted)).(sampled := Some(st.persisted))
    case Commit(c, ok) =>
      var x := st.callers[c];
      if x.persisted then Set(Commits(st, ByClose, ok), c, Ending(x.joins, ok)) else Set(st, c, Ending(x.joins, true))
    case Finish(c) => Set(st, c, Leaving(st.callers[c].joins, st.callers[c].ok)).(result := Some(st.callers[c].ok))
    case Leave(c) =>
      var x := st.callers[c];
      Set(st, c, Returned(x.ok)).(gate := if x.joins then Free else st.gate)
    case Wake(c) => Set(st, c, Returned(st.result.value))
  }

  predicate Runs(st: State, steps: seq<Step>)
    decreases |steps|
  {
    steps == [] || (Enabled(st, steps[0]) && Runs(Apply(st, steps[0]), steps[1..]))
  }

  function After(st: State, steps: seq<Step>): State
    requires Runs(st, steps)
    decreases |steps|
  {
    if steps == [] then st else After(Apply(st, steps[0]), steps[1..])
  }

  // ---- the invariant ----

  predicate BeforeResult(x: Caller) {
    x.Settling? || x.Sampling? || x.Committing? || x.Ending?
  }

  predicate OnLadder(x: Caller) {
    BeforeResult(x) || x.Leaving?
  }

  /** The ladder has one runner, and nobody returns anything but its result. */
  predicate CallerOk(st: State, c: nat)
    requires c < |st.callers|
  {
    var x := st.callers[c];
    && (OnLadder(x) ==> st.runner == Some(c))
    && (BeforeResult(x) ==> st.result.None?)
    && (x.Leaving? || x.Returned? ==> st.result == Some(x.ok))
    && (x.Settling? || x.Sampling? ==> st.sampled.None?)
    && (x.Committing? ==> st.sampled == Some(x.persisted))
    && (OnLadder(x) ==> if x.joins then x.Settling? || st.gate.OfClose? else st.persisted)
  }

  predicate CallersOk(st: State) {
    && (st.runner.None? ==> !st.closing && st.sampled.None? && st.result.None?)
    && (st.runner.Some? ==> st.closing)
    && forall c | 0 <= c < |st.callers| :: CallerOk(st, c)
  }

  predicate StoreOk(st: State) {
    && (st.persisted <==> st.commits != [])
    && (st.commits != [] ==> st.commits[0] != ByClose)
    && (st.ephemeral ==> !st.persisted)
    && (st.sampled == Some(true) ==> st.persisted)
    && (st.sampled == Some(false) ==> !st.persisted && st.closing && (st.gate.OfClose? || st.gate.Free?))
  }

  predicate Inv(st: State) {
    CallersOk(st) && StoreOk(st)
  }

  function Actor(step: Step): Option<nat> {
    match step
    case Enter(c) => Some(c)
    case Join(c) => Some(c)
    case Sample(c) => Some(c)
    case Commit(c, _) => Some(c)
    case Finish(c) => Some(c)
    case Leave(c) => Some(c)
    case Wake(c) => Some(c)
    case _ => None
  }

  /** What a step does to the callers: at most the actor moves. */
  lemma OnlyActorMoves(st: State, step: Step, c: nat)
    requires Enabled(st, step) && c < |Apply(st, step).callers| && Actor(step) != Some(c)
    ensures if c < |st.callers| then Apply(st, step).callers[c] == st.callers[c] else Apply(st, step).callers[c].Called?
  {
  }

  lemma ActorKeeps(st: State, step: Step)
    requires CallersOk(st) && Enabled(st, step) && Actor(step).Some?
    ensures Actor(step).value < |Apply(st, step).callers| && CallerOk(Apply(st, step), Actor(step).value)
  {
    assert CallerOk(st, Actor(step).value);
  }

  lemma OthersKeep(st: State, step: Step, c: nat)
    requires CallersOk(st) && Enabled(st, step) && c < |st.callers| && Actor(step) != Some(c)
    ensures c < |Apply(st, step).callers| && CallerOk(Apply(st, step), c)
  {
    assert CallerOk(st, c);
    if Actor(step).Some? {
      assert CallerOk(st, Actor(step).value);
    }
  }

  lemma StepKeepsCallers(st: State, step: Step)
    requires CallersOk(st) && Enabled(st, step)
    ensures CallersOk(Apply(st, step))
  {
    var st' := Apply(st, step);
    forall c | 0 <= c < |st'.callers| ensures CallerOk(st', c) {
      if Actor(step) == Some(c) {
        ActorKeeps(st, step);
      } else if c < |st.callers| {
        OthersKeep(st, step, c);
      } else {
        OnlyActorMoves(st, step, c);
      }
    }
    if Actor(step).Some? {
      assert CallerOk(st, Actor(step).value);
    }
  }

  lemma StepKeepsStore(st: State, step: Step)
    requires CallersOk(st) && StoreOk(st) && Enabled(st, step)
    ensures StoreOk(Apply(st, step))
  {
    if Actor(step).Some? {
      assert CallerOk(st, Actor(step).value);
    }
  }

  lemma StepKeepsInv(st: State, step: Step)
    requires Inv(st) && Enabled(st, step)
    ensures Inv(Apply(st, step))
  {
    StepKeepsCallers(st, step);
    StepKeepsStore(st, step);
  }

  lemma {:induction false} RunKeepsInv(st: State, steps: seq<Step>)
    requires Inv(st) && Runs(st, steps)
    ensures Inv(After(st, steps))
    decreases |steps|
  {
    if steps == [] {
    } else {
      StepKeepsInv(st, steps[0]);
      RunKeepsInv(Apply(st, steps[0]), steps[1..]);
    }
  }

  // ---- what close promises ----

  /** The ladder runs once, by one caller, and whoever returns returns its result. */
  lemma LadderRunsOnce(ephemeral: bool, steps: seq<Step>, c: nat, d: nat)
    requires Runs(Initial(ephemeral), steps)
    requires c < |After(Initial(ephemeral), steps).callers| && d < |After(Initial(ephemeral), steps).callers|
    ensures var st := After(Initial(ephemeral), steps);
            && (OnLadder(st.callers[c]) && OnLadder(st.callers[d]) ==> c == d)
            && (st.callers[c].Returned? ==> st.result == Some(st.callers[c].ok))
            && (st.callers[c].Returned? && st.callers[d].Returned? ==> st.callers[c] == st.callers[d])
  {
    RunKeepsInv(Initial(ephemeral), steps);
    assert CallerOk(After(Initial(ephemeral), steps), c) && CallerOk(After(Initial(ephemeral), steps), d);
  }

  lemma {:induction false} RunKeepsKind(st: State, steps: seq<Step>)
    requires Runs(st, steps)
    ensures After(st, steps).ephemeral == st.ephemeral
    decreases |steps|
  {
    if steps == [] {
    } else {
      RunKeepsKind(Apply(st, steps[0]), steps[1..]);
    }
  }

  /** Close writes only a session that its establishment or a foreground operation committed
      before. */
  lemma NeverFirstWriter(ephemeral: bool, steps: seq<Step>)
    requires Runs(Initial(ephemeral), steps)
    ensures var st := After(Initial(ephemeral), steps);
            && (st.commits != [] ==> !st.commits[0].ByClose?)
            && (st.persisted <==> st.commits != [])
            && (ephemeral ==> st.commits == [])
  {
    RunKeepsInv(Initial(ephemeral), steps);
    RunKeepsKind(Initial(ephemeral), steps);
  }

  lemma SampledStays(st: State, step: Step)
    requires CallersOk(st) && Enabled(st, step) && st.sampled.Some?
    ensures Apply(st, step).sampled == st.sampled
  {
    if Actor(step).Some? {
      assert CallerOk(st, Actor(step).value);
    }
  }

  /** A session its close found uncommitted is never written afterwards, by anyone: close waited
      for the establishment's gate before it looked. */
  lemma {:induction false} UncommittedStaysUnwritten(st: State, more: seq<Step>)
    requires Inv(st) && Runs(st, more) && st.sampled == Some(false)
    ensures After(st, more).commits == []
    decreases |more|
  {
    if more == [] {
    } else {
      StepKeepsInv(st, more[0]);
      SampledStays(st, more[0]);
      UncommittedStaysUnwritten(Apply(st, more[0]), more[1..]);
    }
  }

  // ---- the gate ----

  /** Who may write when the gate stands so; the runner of the ladder needs it only while the
      session had not been persisted. */
  predicate MayWrite(gate: Gate, committer: Committer) {
    match committer
    case ByEstablishment => gate.OfEstablishment?
    case ByTurn => gate.OfForeground?
    case ByConfig => gate.OfForeground?
    case ByClose => true
  }

  /** The gate passes from one holder to the next only through being free, to a foreground operation
      only before close began; each holder gives it back itself; and the establishment, a turn or a
      change of an option writes only while it holds the gate. */
  lemma GateHoldsOne(st: State, step: Step)
    requires Inv(st) && Enabled(st, step)
    ensures var st' := Apply(st, step);
            && (st'.gate != st.gate ==>
                  match st.gate
                  case Free => !st'.gate.OfEstablishment? && (st'.gate.OfForeground? ==> !st.closing)
                  case OfEstablishment => st'.gate.Free? && step == EstablishmentLeaves
                  case OfForeground => st'.gate.Free? && step == ForegroundLeaves
                  case OfClose => st'.gate.Free? && step.Leave? && st.runner == Some(step.c))
            && (st'.commits != st.commits ==>
                  |st'.commits| == |st.commits| + 1 && st.commits == st'.commits[..|st.commits|]
                  && MayWrite(st.gate, st'.commits[|st.commits|]))
  {
    if Actor(step).Some? {
      assert CallerOk(st, Actor(step).value);
    }
  }

  lemma Pair(st: State, a: Step, b: Step)
    requires Enabled(st, a) && Enabled(Apply(st, a), b)
    ensures Runs(st, [a, b]) && After(st, [a, b]) == Apply(Apply(st, a), b)
  {
    var st1 := Apply(st, a);
    assert [b][1..] == [] && Runs(st1, [b]) && After(st1, [b]) == Apply(st1, b);
    assert [a, b][1..] == [b];
  }

  lemma Triple(st: State, a: Step, b: Step, c: Step)
    requires Enabled(st, a) && Enabled(Apply(st, a), b) && Enabled(Apply(Apply(st, a), b), c)
    ensures Runs(st, [a, b, c]) && After(st, [a, b, c]) == Apply(Apply(Apply(st, a), b), c)
  {
    Pair(Apply(st, a), b, c);
    assert [a, b, c][1..] == [b, c];
  }

  lemma {:induction false} RunOn(st: State, first: seq<Step>, more: seq<Step>)
    requires Runs(st, first) && Runs(After(st, first), more)
    ensures Runs(st, first + more) && After(st, first + more) == After(After(st, first), more)
    decreases |first|
  {
    if first == [] {
      assert first + more == more;
    } else {
      assert (first + more)[1..] == first[1..] + more;
      RunOn(Apply(st, first[0]), first[1..], more);
    }
  }

  function Ladder(c: nat, ok: bool): seq<Step> {
    [CallClose, Enter(c), Join(c)] + [Sample(c), Commit(c, ok)] + [Finish(c), Leave(c)]
  }

  lemma Enters(st: State, c: nat)
    requires c == |st.callers| && !st.closing && st.gate.Free?
    ensures Runs(st, [CallClose, Enter(c), Join(c)])
    ensures After(st, [CallClose, Enter(c), Join(c)]) ==
              st.(callers := st.callers + [Sampling(!st.persisted)], closing := true, runner := Some(c),
                  gate := if st.persisted then Free else OfClose)
  {
    Triple(st, CallClose, Enter(c), Join(c));
  }

  lemma Writes(st: State, c: nat, ok: bool)
    requires c < |st.callers| && st.callers[c].Sampling? && (st.ephemeral ==> !st.persisted)
    ensures Runs(st, [Sample(c), Commit(c, ok)])
    ensures After(st, [Sample(c), Commit(c, ok)]) ==
              st.(callers := st.callers[c := Ending(st.callers[c].joins, st.persisted ==> ok)],
                  sampled := Some(st.persisted),
                  commits := st.commits + (if st.persisted && ok then [ByClose] else []))
  {
    Pair(st, Sample(c), Commit(c, ok));
  }

  lemma Climbs(st: State, c: nat, ok: bool)
    requires c == |st.callers| && !st.closing && st.gate.Free? && (st.ephemeral ==> !st.persisted)
    ensures Runs(st, Ladder(c, ok))
    ensures var st' := After(st, Ladder(c, ok));
            && st'.callers == st.callers + [Returned(st.persisted ==> ok)] && st'.closing && st'.gate.Free?
            && st'.commits == st.commits + (if st.persisted && ok then [ByClose] else [])
  {
    var first, middle, last := [CallClose, Enter(c), Join(c)], [Sample(c), Commit(c, ok)], [Finish(c), Leave(c)];
    Enters(st, c);
    Writes(After(st, first), c, ok);
    var st5 := After(After(st, first), middle);
    Pair(st5, Finish(c), Leave(c));
    RunOn(st, first, middle);
    RunOn(st, first + middle, last);
  }

  /** A close that is the first and finds the gate free goes up the whole ladder by its own steps:
      it writes a session that had been written before, exactly once, and returns whether that
      went well; one that was never written it leaves alone. */
  lemma FirstCloseReturns(steps: seq<Step>, ephemeral: bool, ok: bool)
    requires Runs(Initial(ephemeral), steps)
    requires !After(Initial(ephemeral), steps).closing && After(Initial(ephemeral), steps).gate.Free?
    ensures var st := After(Initial(ephemeral), steps);
            var c := |st.callers|;
            && Runs(st, Ladder(c, ok))
            && var st' := After(st, Ladder(c, ok));
               && st'.callers == st.callers + [Returned(st.persisted ==> ok)] && st'.closing && st'.gate.Free?
               && st'.commits == st.commits + (if st.persisted && ok then [ByClose] else [])
  {
    RunKeepsInv(Initial(ephemeral), steps);
    var st := After(Initial(ephemeral), steps);
    Climbs(st, |st.callers|, ok);
  }

  /** A later close returns the first one's result, and an option or a turn can begin while nothing
      closes and nobody holds the gate. */
  lemma LaterCloseReturns(st: State)
    requires st.closing && st.result.Some?
    ensures var c, more := |st.callers|, [CallClose, Enter(|st.callers|), Wake(|st.callers|)];
            Runs(st, more) && After(st, more) == st.(callers := st.callers + [Returned(st.result.value)])
  {
    Triple(st, CallClose, Enter(|st.callers|), Wake(|st.callers|));
  }

  /** One foreground operation: it enters exactly while nothing closes and nobody holds the gate,
      commits, and leaves. */
  lemma ForegroundCommits(st: State, turn: bool, ok: bool)
    ensures Enabled(st, ForegroundEnters) <==> st.gate.Free? && !st.closing
    ensures st.gate.Free? && !st.closing ==>
              var more := [ForegroundEnters, if turn then TurnCommits(ok) else ConfigCommits(ok), ForegroundLeaves];
              && Runs(st, more)
              && After(st, more) ==
                   if ok && !st.ephemeral then st.(persisted := true, commits := st.commits + [if turn then ByTurn else ByConfig])
                   else st
  {
    if st.gate.Free? && !st.closing {
      Triple(st, ForegroundEnters, if turn then TurnCommits(ok) else ConfigCommits(ok), ForegroundLeaves);
    }
  }

  /** The establishment writes a session that is kept, and then gives the gate back. */
  lemma EstablishmentCommitsAndLeaves(st: State, ok: bool)
    requires st.gate.OfEstablishment?
    ensures var more := [EstablishmentCommits(ok), EstablishmentLeaves];
            && Runs(st, more)
            && After(st, more) ==
                 if ok && !st.ephemeral
                 then st.(persisted := true, commits := st.commits + [ByEstablishment], gate := Free)
                 else st.(gate := Free)
  {
    Pair(st, EstablishmentCommits(ok), EstablishmentLeaves);
  }
}
