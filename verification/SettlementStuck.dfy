/** Exactly when a prompt that contains its session can end up waiting for itself. */
module SettlementStuck {
  import opened Wrappers
  import opened Settlement
  import opened SettlementProofs
  import opened SettlementPast
  import opened SettlementTheorems
  import opened SettlementLeads
  import opened SettlementRuns
  import opened SettlementAbandoned
  import opened SettlementWaits
  import opened SettlementMoves

  // ---- the condition ----

  /** An unfenced worker that is parked behind the turn, holds its end, or can still read it. */
  predicate Usable(st: State, w: nat, t: nat) {
    && w < |st.workers| && !st.workers[w].fenced
    && (|| st.workers[w].at == Parked(t)
        || HoldsEnd(st, w, t)
        || (st.session.bound == Some(st.workers[w].gen) && !st.workers[w].at.Exited?))
  }

  /** A new queue can still be made before the containment looks for one. */
  ghost predicate Renews(st: State, c: nat, gen: nat) {
    && st.session.bound == Some(gen) && !st.session.closed && gen !in st.ended
    && (gen in st.registered ==> exists d: nat :: d != c && Clears(st, d, gen))
  }

  /** What the containment joins, or will find, is a queue it can wait for in vain. */
  ghost predicate CanStick(st: State, t: nat, c: nat)
    requires c < |st.containers|
  {
    var x := st.containers[c];
    && x.gen !in st.dying
    && (|| (x.at.Joining? && Usable(st, x.at.worker, t))
        || (InWindow(x) && ((x.gen in st.registered && Usable(st, st.registered[x.gen], t)) || Renews(st, c, x.gen))))
  }

  // ---- from the condition to the circle ----

  /** A usable worker can come to stand behind the turn. */
  lemma CanPark(start: State, st: State, w: nat, t: nat) returns (after: State)
    requires Inv(start) && Leads(start, st) && Usable(st, w, t) && PromptTurn(st.prompt) == Some(t)
    ensures Leads(start, after) && OnlyMoves(st, after, w) && after.workers[w].at == Parked(t)
  {
    after := st;
    if !HoldsEnd(st, w, t) && st.workers[w].at != Parked(t) {
      after := CanComeIdle(start, st, w, t);
      if after.workers[w].at.Idle? {
        after := CanRead(start, after, w, t, Completed(EndTurn));
        KnowsItsTurn(start, after, w);
        assert HoldsEnd(after, w, t);
      }
    }
    if after.workers[w].at != Parked(t) {
      KnowsItsTurn(start, after, w);
      after := HandCanEmpty(start, after, w);
    }
  }

  lemma CanRenew(start: State, st: State, c: nat, gen: nat, t: nat) returns (after: State)
    requires Inv(start) && Leads(start, st) && c < |st.containers| && PromptTurn(st.prompt) == Some(t)
    requires Renews(st, c, gen) && (gen in st.registered ==> !Usable(st, st.registered[gen], t))
    ensures Leads(start, after) && gen in after.registered && Usable(after, after.registered[gen], t)
    ensures after.prompt == st.prompt && after.dying == st.dying
    ensures c < |after.containers| && after.containers[c] == st.containers[c]
  {
    LeadsKeepsInv(start, st);
    after := st;
    if gen in st.registered {
      var d: nat :| d != c && Clears(st, d, gen);
      after := CanClear(start, st, d, gen, t);
    }
    after := CanCreate(start, after, gen);
  }

  lemma ParkedSticks(start: State, st: State, t: nat, c: nat, w: nat)
    requires Inv(start) && Leads(start, st) && st.prompt == Containing(t, c)
    requires c < |st.containers| && st.containers[c].at == Joining(w) && st.containers[c].gen !in st.dying
    requires w < |st.workers| && st.workers[w].at == Parked(t) && !st.workers[w].fenced
    ensures Stuck(st)
  {
    LeadsKeepsInv(start, st);
    assert ContainerOk(st, st.containers[c]);
  }

  lemma WindowSticks(start: State, st: State, t: nat, c: nat) returns (after: State)
    requires Inv(start) && Leads(start, st) && st.prompt == Containing(t, c) && c < |st.containers|
    requires var x := st.containers[c];
             InWindow(x) && x.gen !in st.dying && x.gen in st.registered && Usable(st, st.registered[x.gen], t)
    ensures Leads(start, after) && Stuck(after) && after.prompt == st.prompt
  {
    var w := st.registered[st.containers[c].gen];
    after := CanPark(start, st, w, t);
    after := CanJoin(start, after, c);
    ParkedSticks(start, after, t, c, w);
  }

  lemma CanStickCan(st: State, t: nat, c: nat) returns (after: State)
    requires Inv(st) && st.prompt == Containing(t, c) && c < |st.containers| && CanStick(st, t, c)
    ensures Leads(st, after) && Stuck(after) && after.prompt == st.prompt
  {
    var x := st.containers[c];
    Stays(st);
    if x.at.Joining? {
      after := CanPark(st, st, x.at.worker, t);
      ParkedSticks(st, after, t, c, x.at.worker);
    } else if x.gen in st.registered && Usable(st, st.registered[x.gen], t) {
      after := WindowSticks(st, st, t, c);
    } else {
      after := CanRenew(st, st, c, x.gen, t);
      after := WindowSticks(st, after, t, c);
    }
  }

  // ---- and without it there is no way ----

  lemma WorkerAddsNoHolder(st: State, v: nat, move: WorkerMove, w: nat, t: nat)
    requires Basic(st) && WorkerCan(st, v, move) && PromptTurn(st.prompt) == Some(t) && !Usable(st, w, t)
    requires w < |st.workers| && !st.workers[w].fenced
    ensures !HoldsEnd(WorkerDoes(st, v, move), w, t)
  {
    assert !HoldsEnd(st, w, t);
    assert Knows(st.workers[w].at, |st.turns|);
    WorkerGoesOnAt(st, v, move, t);
  }

  lemma WorkerStaysUseless(st: State, v: nat, move: WorkerMove, w: nat, t: nat)
    requires Basic(st) && WorkerCan(st, v, move) && PromptTurn(st.prompt) == Some(t) && !Usable(st, w, t)
    ensures !Usable(WorkerDoes(st, v, move), w, t)
  {
    if w < |st.workers| && !st.workers[w].fenced {
      WorkerAddsNoHolder(st, v, move, w, t);
      assert !HoldsEnd(st, w, t);
    }
  }

  lemma WorkerRenewsNone(st: State, v: nat, move: WorkerMove, t: nat, c: nat, gen: nat)
    requires Inv(st) && WorkerCan(st, v, move) && c < |st.containers| && gen !in st.dying
    requires gen in st.registered ==> !Usable(st, st.registered[gen], t)
    requires !Renews(st, c, gen)
    ensures !Renews(WorkerDoes(st, v, move), c, gen)
  {
    var st' := WorkerDoes(st, v, move);
    assert MayExit(st, st.workers[v]);
    if Renews(st', c, gen) {
      var d: nat :| d != c && Clears(st', d, gen);
      assert d < |st.containers| ==> Clears(st, d, gen);
    }
  }

  lemma WorkerAddsNoStick(st: State, v: nat, move: WorkerMove, t: nat, c: nat)
    requires Inv(st) && WorkerCan(st, v, move) && PromptTurn(st.prompt) == Some(t) && c < |st.containers|
    requires !CanStick(st, t, c)
    ensures !CanStick(WorkerDoes(st, v, move), t, c)
  {
    var x := st.containers[c];
    var st' := WorkerDoes(st, v, move);
    assert st'.containers[c] == x && st'.dying == st.dying;
    if x.at.Joining? && !Usable(st, x.at.worker, t) {
      WorkerStaysUseless(st, v, move, x.at.worker, t);
    }
    if InWindow(x) && x.gen !in st.dying {
      if x.gen in st.registered {
        WorkerStaysUseless(st, v, move, st.registered[x.gen], t);
      }
      WorkerRenewsNone(st, v, move, t, c, x.gen);
    }
  }

  lemma StaysUseless(st: State, st': State, w: nat, t: nat)
    requires !Usable(st, w, t) && w < |st.workers| && st.workers <= st'.workers && t < |st.turns| && t < |st'.turns|
    requires st'.session.bound == st.session.bound || st'.session.bound.None?
    requires TurnGoesOn(st.turns[t], st'.turns[t])
    ensures !Usable(st', w, t)
  {
    assert st'.workers[w] == st.workers[w];
    if !st.workers[w].fenced {
      assert !HoldsEnd(st, w, t);
    }
  }

  lemma ContainRenewsNone(st: State, d: nat, move: ContainMove, c: nat)
    requires Basic(st) && ContainCan(st, d, move) && c < |st.containers|
    requires InWindow(ContainDoes(st, d, move).containers[c]) && !Renews(st, c, st.containers[c].gen)
    ensures !Renews(ContainDoes(st, d, move), c, st.containers[c].gen)
  {
    var st' := ContainDoes(st, d, move);
    var gen := st.containers[c].gen;
    assert ContainerOk(st, st.containers[d]);
    if Renews(st', c, gen) {
      if gen in st.registered && gen !in st'.registered {
        assert Clears(st, d, gen);
      } else if gen in st.registered {
        var e: nat :| e != c && Clears(st', e, gen);
        assert Clears(st, e, gen);
      }
    }
  }

  lemma ContainLeavesUseless(st: State, d: nat, move: ContainMove, w: nat, t: nat)
    requires Basic(st) && ContainCan(st, d, move) && PromptTurn(st.prompt) == Some(t)
    requires w < |st.workers| && !Usable(st, w, t)
    ensures !Usable(ContainDoes(st, d, move), w, t)
  {
    ContainGoesOnAt(st, d, move, t);
    StaysUseless(st, ContainDoes(st, d, move), w, t);
  }

  lemma ContainAddsNoStick(st: State, d: nat, move: ContainMove, t: nat, c: nat)
    requires Inv(st) && ContainCan(st, d, move) && PromptTurn(st.prompt) == Some(t) && c < |st.containers|
    requires !CanStick(st, t, c)
    ensures !CanStick(ContainDoes(st, d, move), t, c)
  {
    var x, st' := st.containers[c], ContainDoes(st, d, move);
    ContainGoesIntoJoin(st, d, move, c);
    assert ContainerOk(st, x);
    if x.at.Joining? && !Usable(st, x.at.worker, t) {
      ContainLeavesUseless(st, d, move, x.at.worker, t);
    }
    if InWindow(x) && x.gen in st.registered && !Usable(st, st.registered[x.gen], t) {
      ContainLeavesUseless(st, d, move, st.registered[x.gen], t);
    }
    if InWindow(st'.containers[c]) && x.gen !in st.dying {
      ContainRenewsNone(st, d, move, c);
    }
  }

  lemma EndAddsNoStick(st: State, e: nat, move: EndMove, t: nat, c: nat)
    requires Inv(st) && EndCan(st, e, move) && PromptTurn(st.prompt) == Some(t) && c < |st.containers|
    requires !CanStick(st, t, c)
    ensures !CanStick(EndDoes(st, e, move), t, c)
  {
    var x, st' := st.containers[c], EndDoes(st, e, move);
    EndGoesOn(st, e, move);
    assert ContainerOk(st, x);
    if x.at.Joining? && !Usable(st, x.at.worker, t) {
      StaysUseless(st, st', x.at.worker, t);
    }
    if InWindow(x) && x.gen in st.registered && !Usable(st, st.registered[x.gen], t) {
      StaysUseless(st, st', st.registered[x.gen], t);
    }
    if Renews(st', c, x.gen) && x.gen in st.registered {
      var d: nat :| d != c && Clears(st', d, x.gen);
      assert Clears(st, d, x.gen);
    }
  }

  lemma OtherRenewsNone(st: State, move: OtherMove, c: nat, gen: nat)
    requires OtherCan(st, move) && move != CreateQueue(gen) && !Renews(st, c, gen)
    ensures !Renews(OtherDoes(st, move), c, gen)
  {
    var st' := OtherDoes(st, move);
    if Renews(st', c, gen) && gen in st.registered {
      var d: nat :| d != c && Clears(st', d, gen);
      assert Clears(st, d, gen);
    }
  }

  lemma OtherAddsNoStick(st: State, move: OtherMove, t: nat, c: nat)
    requires Inv(st) && OtherCan(st, move) && PromptTurn(st.prompt) == Some(t) && c < |st.containers|
    requires !CanStick(st, t, c)
    ensures !CanStick(OtherDoes(st, move), t, c)
  {
    var x, st' := st.containers[c], OtherDoes(st, move);
    OtherGoesOnAt(st, move, t);
    assert ContainerOk(st, x) && st'.containers[c] == x;
    if x.at.Joining? && !Usable(st, x.at.worker, t) {
      StaysUseless(st, st', x.at.worker, t);
    }
    if InWindow(x) && x.gen !in st'.dying {
      if x.gen in st.registered {
        StaysUseless(st, st', st.registered[x.gen], t);
      }
      if move != CreateQueue(x.gen) {
        OtherRenewsNone(st, move, c, x.gen);
      }
    }
  }

  /** The prompt is still at its containment, which cannot stick, or the containment is over. */
  ghost predicate Unstuck(st: State, t: nat, c: nat) {
    && c < |st.containers|
    && (if st.prompt == Containing(t, c) then !CanStick(st, t, c) else st.containers[c].at.Done?)
  }

  lemma DoneStays(st: State, step: Step, c: nat)
    requires Enabled(st, step) && c < |st.containers| && st.containers[c].at.Done?
    ensures c < |Apply(st, step).containers| && Apply(st, step).containers[c].at.Done?
    ensures forall t :: st.prompt != Containing(t, c) ==> Apply(st, step).prompt != Containing(t, c)
  {
  }

  lemma StepStaysUnstuck(st: State, step: Step, t: nat, c: nat)
    requires Inv(st) && Unstuck(st, t, c) && Enabled(st, step)
    ensures Unstuck(Apply(st, step), t, c)
  {
    if st.prompt != Containing(t, c) {
      DoneStays(st, step, c);
    } else {
      match step
      case PromptStep(move) => assert move == JoinContainer;
      case WorkerStep(w, move) => WorkerAddsNoStick(st, w, move, t, c);
      case ContainStep(d, move) => ContainAddsNoStick(st, d, move, t, c);
      case EndStep(e, move) => EndAddsNoStick(st, e, move, t, c);
      case OtherStep(move) => OtherAddsNoStick(st, move, t, c);
    }
  }

  lemma {:induction false} RunStaysUnstuck(st: State, steps: seq<Step>, t: nat, c: nat)
    requires Inv(st) && Unstuck(st, t, c) && Runs(st, steps)
    ensures Inv(After(st, steps)) && Unstuck(After(st, steps), t, c)
    decreases |steps|
  {
    if steps == [] {
    } else {
      StepKeepsInv(st, steps[0]);
      StepStaysUnstuck(st, steps[0], t, c);
      RunStaysUnstuck(Apply(st, steps[0]), steps[1..], t, c);
    }
  }

  lemma StuckCanStick(st: State, t: nat, c: nat)
    requires Inv(st) && Stuck(st) && st.prompt == Containing(t, c)
    ensures CanStick(st, t, c)
  {
    assert ContainerOk(st, st.containers[c]);
  }

  ghost predicate LeadsToStuck(st: State) {
    exists more :: Runs(st, more) && Stuck(After(st, more)) && After(st, more).prompt == st.prompt
  }

  /** From every reachable state of a prompt that contains its session, some continuation brings
      the prompt to wait for itself if and only if the condition holds. */
  lemma SticksExactly(st: State, t: nat, c: nat)
    requires Reachable(st) && st.prompt == Containing(t, c)
    ensures c < |st.containers|
    ensures LeadsToStuck(st) <==> CanStick(st, t, c)
  {
    ReachableHasInv(st);
    if CanStick(st, t, c) {
      var after := CanStickCan(st, t, c);
    } else if more :| Runs(st, more) && Stuck(After(st, more)) && After(st, more).prompt == st.prompt {
      RunStaysUnstuck(st, more, t, c);
      StuckCanStick(After(st, more), t, c);
    }
  }

  // ---- at the stop ----

  /** The stop leaves a way round its fence: the turn's generation has no queue to fence, or
      another containment is about to take the fenced one away. */
  predicate SlipsFence(st: State)
    requires PromptCan(st, Stop)
  {
    var gen := st.turns[st.prompt.turn].gen;
    && st.session.bound == Some(gen) && !st.session.closed && gen !in st.ended && gen !in st.dying
    && (gen in st.registered ==> exists d | 0 <= d < |st.containers| :: Clears(st, d, gen))
  }

  lemma StopFences(st: State)
    requires Inv(st) && PromptCan(st, Stop)
    ensures var st', t, gen := PromptDoes(st, Stop), st.prompt.turn, st.turns[st.prompt.turn].gen;
            && st'.prompt == Containing(t, |st.containers|)
            && st'.containers == st.containers + [Container(gen, false, false, None, Checking)]
            && (gen in st.registered ==> !Usable(st', st.registered[gen], t))
            && st'.session == st.session && st'.registered == st.registered && st'.ended == st.ended && st'.dying == st.dying
  {
  }

  /** When a prompt stops its session, it can come to wait for itself if and only if there is a
      way round the fence. */
  lemma StopSticksExactly(st: State)
    requires Reachable(st) && PromptCan(st, Stop)
    ensures LeadsToStuck(PromptDoes(st, Stop)) <==> SlipsFence(st)
  {
    ReachableHasInv(st);
    var st', t, c := PromptDoes(st, Stop), st.prompt.turn, |st.containers|;
    var gen := st.turns[t].gen;
    StopFences(st);
    Reach(st, PromptStep(Stop));
    SticksExactly(st', t, c);
    if SlipsFence(st) && gen in st.registered {
      var d :| 0 <= d < |st.containers| && Clears(st, d, gen);
      assert d != c && Clears(st', d, gen);
    }
    if Renews(st', c, gen) && gen in st.registered {
      var d: nat :| d != c && Clears(st', d, gen);
      assert Clears(st, d, gen);
    }
  }

  // ---- both ways round it are reached ----

  lemma ReachStop(st: State)
    requires Reachable(st) && st.prompt == Waiting(0) && |st.turns| == 1
    ensures Reachable(CancelCurrent(st).(prompt := Stopping(0)))
  {
    Reach(st, PromptStep(SeeCancelled));
    Reach(st.(prompt := Cancelling(0)), PromptStep(PromptMove.Cancel));
    assert Apply(st.(prompt := Cancelling(0)), PromptStep(PromptMove.Cancel)) == CancelCurrent(st).(prompt := Grace(0));
    Reach(CancelCurrent(st).(prompt := Grace(0)), PromptStep(GraceOut));
  }

  /** A prompt that is cancelled before its turn's first record has nothing to fence. */
  lemma PromptCanWaitForItself()
    ensures exists st: State :: Reachable(st) && PromptCan(st, Stop) && st.registered == map[] && LeadsToStuck(PromptDoes(st, Stop))
  {
    ReachWaiting();
    var s0 := State(Busy0, [Started], Quiet0, [], map[], [], [], {}, {}, Waiting(0));
    ReachStop(s0);
    StopSticksExactly(CancelCurrent(s0).(prompt := Stopping(0)));
  }

  /** A prompt that is cancelled while an overflow's containment joins the exited worker fences a
      queue that is on its way out. */
  lemma FencedQueueCanBeReplaced()
    ensures exists st: State :: Reachable(st) && PromptCan(st, Stop) && st.registered == map[0 := 0] && LeadsToStuck(PromptDoes(st, Stop))
  {
    ReachJoined();
    var s0 := Overflowed(Busy0.(lost := true), Failing7, Exited, Container(0, true, false, Some(0), Joining(0)));
    ReachStop(s0);
    var st := CancelCurrent(s0).(prompt := Stopping(0));
    assert Clears(st, 0, 0);
    StopSticksExactly(st);
  }
}
