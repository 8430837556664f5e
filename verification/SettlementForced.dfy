/** The other courses of a prompt, from every state that can take them: a cancel whose turn does not
    end, the containment and the end of its generation, the repair of its thread; and what the host
    and the process can do at any time. */
module SettlementForced {
  import opened Wrappers
  import opened Settlement
  import opened SettlementTheorems
  import opened SettlementLeads

  // ---- a cancel ----

  const Cancelling: seq<Step> := [PromptStep(SeeCancelled), PromptStep(PromptMove.Cancel)]
  const Forcing: seq<Step> := [PromptStep(GraceOut), PromptStep(PromptMove.Stop)]

  lemma Pair(st: State, a: Step, b: Step)
    requires Enabled(st, a) && Enabled(Apply(st, a), b)
    ensures Runs(st, [a, b]) && After(st, [a, b]) == Apply(Apply(st, a), b)
  {
    assert Runs(st, []) && After(st, []) == st;
    Extend(st, [], a);
    assert [] + [a] == [a];
    Extend(st, [a], b);
    assert [a] + [b] == [a, b];
  }

  /** A prompt whose context ends cancels its turn, and leaves all but its turns and dialogs alone. */
  lemma ContextEndCancels(st: State, t: nat)
    requires Inv(st) && st.prompt == Waiting(t)
    ensures t < |st.turns| && Runs(st, Cancelling)
    ensures var st' := After(st, Cancelling);
            && |st'.turns| == |st.turns| && st'.turns[t] == st.turns[t].(cycle := st.turns[t].cycle.(cancelled := true))
            && st' == st.(turns := st'.turns, calls := st'.calls, prompt := Prompt.Grace(t))
  {
    assert st.session.current == Some(t) && t + 1 == |st.turns|;
    Pair(st, PromptStep(SeeCancelled), PromptStep(PromptMove.Cancel));
  }

  /** A cancelled turn that outlives the grace has its queue fenced and its session contained. */
  lemma GraceOutContains(st: State, t: nat)
    requires Inv(st) && st.prompt == Prompt.Grace(t)
    ensures t < |st.turns| && Runs(st, Forcing)
    ensures var gen, st' := st.turns[t].gen, After(st, Forcing);
            && st'.prompt == Containing(t, |st.containers|)
            && st'.containers == st.containers + [Container(gen, false, false, None, Checking)]
            && st' == st.(workers := st'.workers, containers := st'.containers, prompt := st'.prompt)
            && |st'.workers| == |st.workers|
            && (forall w | 0 <= w < |st.workers| ::
                  st'.workers[w] == if gen in st.registered && st.registered[gen] == w then st.workers[w].(fenced := true)
                                    else st.workers[w])
  {
    var st1 := Apply(st, PromptStep(GraceOut));
    assert st1 == st.(prompt := Stopping(t)) && t < |st.turns|;
    Pair(st, PromptStep(GraceOut), PromptStep(PromptMove.Stop));
  }

  /** A turn that ends within the grace is answered like any other. */
  lemma GraceSeesTheEnd(st: State, t: nat)
    requires st.prompt == Prompt.Grace(t) && t < |st.turns| && !st.turns[t].ended.Running?
    ensures Enabled(st, PromptStep(SeeSettled)) && Apply(st, PromptStep(SeeSettled)) == st.(prompt := Admitting(t))
  {
  }

  /** Once its containment is done the prompt forces the end of a turn that still runs, and goes on
      to answer it. */
  lemma ContainedPromptGoesOn(st: State, t: nat, c: nat)
    requires st.prompt == Containing(t, c) && t < |st.turns| && c < |st.containers| && st.containers[c].at.Done?
    ensures var steps := [PromptStep(JoinContainer), PromptStep(ForceSettle)];
            && Runs(st, steps)
            && After(st, steps) ==
                 st.(prompt := Admitting(t),
                     turns := if st.turns[t].ended.Running?
                              then st.turns[t := st.turns[t].(ended := Contained, settledBy := None)] else st.turns)
  {
    Pair(st, PromptStep(JoinContainer), PromptStep(ForceSettle));
    if !st.turns[t].ended.Running? {
      assert st.turns[t := st.turns[t]] == st.turns;
    }
  }

  // ---- a containment and a generation's end ----

  /** A containment of the session's own generation, with no callback open, takes the running turn's
      failure, waits for the registered worker, and then drops the binding and ends the turn. */
  lemma ContainmentStages(st: State, c: nat)
    requires c < |st.containers|
    ensures var x, s := st.containers[c], st.session;
            && (x.at.Checking? ==>
                  && Enabled(st, ContainStep(c, Check))
                  && Apply(st, ContainStep(c, Check)).containers[c] ==
                       if s.bound == Some(x.gen) then x.(turn := s.current, at := Quieting) else x.(onlyRetires := true, at := Retiring))
            && (x.at.Quieting? && st.calls.callbacks == 0 ==>
                  && Enabled(st, ContainStep(c, Quiet))
                  && Apply(st, ContainStep(c, Quiet)).containers[c] == x.(at := Retiring))
            && (x.at.Retiring? ==>
                  && Enabled(st, ContainStep(c, Retire))
                  && Apply(st, ContainStep(c, Retire)).containers[c] ==
                       x.(at := if x.gen in st.registered then Joining(st.registered[x.gen])
                                else if x.onlyRetires then Done else Unbinding))
            && (x.at.Joining? && x.at.worker < |st.workers| && st.workers[x.at.worker].at == Exited ==>
                  && Enabled(st, ContainStep(c, Join))
                  && Apply(st, ContainStep(c, Join)).containers[c] == x.(at := if x.onlyRetires then Done else Unbinding)
                  && Apply(st, ContainStep(c, Join)).registered ==
                       if x.gen in st.registered && st.registered[x.gen] == x.at.worker then st.registered - {x.gen} else st.registered)
            && (x.at.Unbinding? ==>
                  && Enabled(st, ContainStep(c, LetGo))
                  && Apply(st, ContainStep(c, LetGo)).containers[c] == x.(at := if x.turn.Some? then ContainAt.Settling else Done))
            && (x.at.Settling? && x.turn.Some? && x.turn.value < |st.turns| ==>
                  && Enabled(st, ContainStep(c, SettleContained))
                  && Apply(st, ContainStep(c, SettleContained)).containers[c] == x.(at := Done))
  {
  }

  /** A generation whose process is gone ends once, and not before each of its workers has exited and
      each containment its pool waits for is done. */
  lemma GenerationCanEnd(st: State, gen: nat)
    ensures Enabled(st, OtherStep(GenerationEnds(gen))) <==>
              && gen in st.dying && gen !in st.ended
              && (forall w | 0 <= w < |st.workers| && st.workers[w].gen == gen :: st.workers[w].at == Exited)
              && (forall c | 0 <= c < |st.containers| && st.containers[c].pooled && st.containers[c].gen == gen ::
                    st.containers[c].at == Done)
    ensures Enabled(st, OtherStep(GenerationEnds(gen))) ==>
              Apply(st, OtherStep(GenerationEnds(gen))) ==
                st.(ended := st.ended + {gen}, enders := st.enders + [Ender(gen, None, EndChecking)])
  {
  }

  /** The end of the session's own generation finds it lost, waits for its callbacks, drops the
      binding, and ends the running turn. */
  lemma EndStages(st: State, e: nat)
    requires e < |st.enders|
    ensures var x, s := st.enders[e], st.session;
            && (x.at.EndChecking? ==>
                  && Enabled(st, EndStep(e, EndCheck))
                  && Apply(st, EndStep(e, EndCheck)).enders[e] ==
                       if s.bound == Some(x.gen) then x.(turn := s.current, at := EndQuieting) else x.(at := EndDone))
            && (x.at.EndQuieting? && st.calls.callbacks == 0 ==>
                  && Enabled(st, EndStep(e, EndQuiet)) && Apply(st, EndStep(e, EndQuiet)).enders[e] == x.(at := EndUnbinding))
            && (x.at.EndUnbinding? ==>
                  && Enabled(st, EndStep(e, EndLetGo))
                  && Apply(st, EndStep(e, EndLetGo)).enders[e] == x.(at := if x.turn.Some? then EndSettling else EndDone))
            && (x.at.EndSettling? && x.turn.Some? && x.turn.value < |st.turns| ==>
                  && Enabled(st, EndStep(e, EndSettle)) && Apply(st, EndStep(e, EndSettle)).enders[e] == x.(at := EndDone))
  {
  }

  // ---- a repair ----

  /** Before its commit a prompt whose refusal may be repaired can bind the session again or leave
      it unbound, and then commits. */
  lemma RepairRunsBeforeCommit(st: State, ok: bool)
    requires Inv(st) && st.prompt.Committing? && st.prompt.repairs && st.turns[st.prompt.turn].ended.Settled?
    ensures Enabled(st, PromptStep(RepairRebinds)) && Enabled(st, PromptStep(RepairUnbinds))
    ensures Enabled(Apply(st, PromptStep(RepairRebinds)), PromptStep(Commit(ok)))
    ensures Enabled(Apply(st, PromptStep(RepairUnbinds)), PromptStep(Commit(ok)))
  {
  }

  /** Which refusals may be repaired: the provider's, of a turn that ended natively unmarked. */
  lemma RepairsExactly(st: State)
    requires PromptCan(st, JudgeTurn)
    ensures var t, p := st.turns[st.prompt.turn], PromptDoes(st, JudgeTurn).prompt;
            && p.Committing? && p.turn == st.prompt.turn && p.cancelled == st.prompt.cancelled
            && (p.repairs <==>
                  && t.ended == Settled && !st.prompt.cancelled
                  && ((t.cycle.failure && t.cycle.provider) || (!t.cycle.failure && t.cycle.stop == Some(StopError))))
  {
  }

  // ---- a session that is not bound ----

  /** A prompt of a session on no generation, or on one that is over, binds it on a live one, and its
      stream opens unless the session is closing. */
  lemma UnservedPromptBinds(st: State, gen: nat)
    requires st.prompt == NoPrompt && gen !in st.ended && (st.session.bound.None? || st.session.bound.value in st.ended)
    ensures Enabled(st, PromptStep(BindOnly(gen))) && (Enabled(st, PromptStep(Rebind(gen))) <==> !st.session.closing)
    ensures Apply(st, PromptStep(BindOnly(gen))).session == st.session.(bound := Some(gen), lost := false)
    ensures Apply(st, PromptStep(BindOnly(gen))).prompt == NoPrompt
    ensures !st.session.closing ==>
              && Apply(st, PromptStep(Rebind(gen))).session == st.session.(bound := Some(gen), lost := false, fenced := false)
              && Apply(st, PromptStep(Rebind(gen))).prompt == Prompt.Bound(gen)
  {
  }

  // ---- the host, the process and the pump, at any time ----

  /** In every state the host may cancel, open a dialog and let a callback end, and a process may
      exit; a session that is not closing may be closed, and one that is lets its binding go; a
      generation that is not over makes a queue whenever the session has none. */
  lemma OthersCanAlways(st: State, gen: nat, id: nat)
    ensures Enabled(st, OtherStep(HostCancels)) && Enabled(st, OtherStep(OpenDialog(id))) && Enabled(st, OtherStep(ProcessExits(gen)))
    ensures gen in Apply(st, OtherStep(ProcessExits(gen))).dying
    ensures Enabled(st, OtherStep(InterruptEnds)) <==> st.calls.interrupts > 0
    ensures Enabled(st, OtherStep(UnmapDialog(id))) <==> id in st.calls.mapped
    ensures Enabled(st, OtherStep(DialogEnds(id))) <==> id in st.calls.open && id !in st.calls.mapped.Values
    ensures Enabled(st, OtherStep(CloseMarks)) <==> !st.session.closing
    ensures Enabled(st, OtherStep(CloseLetsGo)) <==> st.session.closing && !st.session.closed
    ensures Enabled(st, OtherStep(StreamOpens)) <==> st.prompt == NoPrompt && st.session.bound.Some? && !st.session.closing
    ensures Enabled(st, OtherStep(CreateQueue(gen))) <==> gen !in st.registered && gen !in st.ended && !st.session.closed
    ensures Enabled(st, OtherStep(CreateQueue(gen))) ==>
              var st' := Apply(st, OtherStep(CreateQueue(gen)));
              && |st'.workers| == |st.workers| + 1 && st'.workers[..|st.workers|] == st.workers
              && st'.registered == st.registered[gen := |st.workers|]
              && st'.workers[|st.workers|].gen == gen && !st'.workers[|st.workers|].fenced && st'.workers[|st.workers|].at == Idle
  {
  }

  /** A queue is late exactly when it is made for the generation of the turn in flight after that turn
      had ended, lost its generation or its binding; a worker stays what it was made. */
  lemma LateExactly(st: State, gen: nat, step: Step, w: nat)
    requires Enabled(st, step) && w < |Apply(st, step).workers|
    ensures step == OtherStep(CreateQueue(gen)) && w == |st.workers| ==>
              (Apply(st, step).workers[w].late <==>
                && st.session.current.Some? && st.session.current.value < |st.turns|
                && var t := st.turns[st.session.current.value];
                   t.gen == gen && (t.ended != Running || st.session.lost || st.session.bound != Some(gen)))
    ensures w < |st.workers| ==>
              Apply(st, step).workers[w].late == st.workers[w].late && Apply(st, step).workers[w].gen == st.workers[w].gen
    ensures w >= |st.workers| ==> w == |st.workers| && step.OtherStep? && step.other.CreateQueue?
  {
  }

  /** A server request accepts the turn it had read while its dialog is open. */
  lemma OpenRequestAccepts(st: State, t: nat)
    requires t < |st.turns| && st.calls.open != {}
    ensures Enabled(st, OtherStep(RequestAccepts(t, false)))
    ensures Apply(st, OtherStep(RequestAccepts(t, false))) == st.(turns := st.turns[t := st.turns[t].(accepted := true)])
  {
  }
}
