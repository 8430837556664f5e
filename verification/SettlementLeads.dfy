/** What a state can lead to while nobody ends the prompt's context. The context of a turn ends
    only with a host's cancel or the session's close, and the prompt sees it as `SeeCancelled`. */
module SettlementLeads {
  import opened Settlement
  import opened SettlementProofs

  lemma {:induction false} Extend(st: State, steps: seq<Step>, step: Step)
    requires Runs(st, steps) && Enabled(After(st, steps), step)
    ensures Runs(st, steps + [step]) && After(st, steps + [step]) == Apply(After(st, steps), step)
    decreases |steps|
  {
    if steps == [] {
      assert steps + [step] == [step];
      assert Runs(Apply(st, step), [step][1..]);
    } else {
      assert (steps + [step])[1..] == steps[1..] + [step];
      Extend(Apply(st, steps[0]), steps[1..], step);
    }
  }

  predicate Uncancelled(steps: seq<Step>) {
    forall k | 0 <= k < |steps| :: steps[k] != PromptStep(SeeCancelled)
  }

  ghost predicate Leads(st: State, st': State) {
    exists steps :: Runs(st, steps) && Uncancelled(steps) && After(st, steps) == st'
  }

  lemma Stays(st: State)
    ensures Leads(st, st)
  {
    assert Runs(st, []) && Uncancelled([]) && After(st, []) == st;
  }

  lemma Go(st: State, st': State, step: Step)
    requires Leads(st, st') && Enabled(st', step) && step != PromptStep(SeeCancelled)
    ensures Leads(st, Apply(st', step))
  {
    var steps :| Runs(st, steps) && Uncancelled(steps) && After(st, steps) == st';
    Extend(st, steps, step);
    assert Uncancelled(steps + [step]);
  }

  // ---- dialogs and interrupts can end ----

  function Pending(c: Calls): nat {
    |c.mapped.Keys| + |c.open| + c.interrupts
  }

  lemma NoneMapped(c: Calls, entry: nat)
    requires forall id :: id !in c.mapped
    ensures entry !in c.mapped.Values
  {
  }

  /** Whatever dialogs and interrupts are open can end, and nothing else has to move. */
  lemma {:induction false} CallsCanEnd(start: State, st: State) returns (after: State)
    requires Counted(st.calls) && Leads(start, st)
    ensures Leads(start, after) && after == st.(calls := after.calls) && after.calls.callbacks == 0 && Counted(after.calls)
    decreases Pending(st.calls)
  {
    var c := st.calls;
    if id :| id in c.mapped {
      var step := OtherStep(UnmapDialog(id));
      OtherKeepsCounts(st, UnmapDialog(id));
      Go(start, st, step);
      assert (c.mapped - {id}).Keys == c.mapped.Keys - {id};
      after := CallsCanEnd(start, Apply(st, step));
    } else if entry :| entry in c.open {
      var step := OtherStep(DialogEnds(entry));
      NoneMapped(c, entry);
      OtherKeepsCounts(st, DialogEnds(entry));
      Go(start, st, step);
      after := CallsCanEnd(start, Apply(st, step));
    } else if c.interrupts > 0 {
      var step := OtherStep(InterruptEnds);
      OtherKeepsCounts(st, InterruptEnds);
      Go(start, st, step);
      after := CallsCanEnd(start, Apply(st, step));
    } else {
      assert |c.open| == 0;
      after := st;
    }
  }
}
