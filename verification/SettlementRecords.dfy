/** Which turn a native record counts for. */
module SettlementRecords {
  import opened Settlement
  import opened SettlementProofs
  import opened SettlementWriters

  // ---- attribution ----

  /** A record in the cycle of a turn names that turn or none, and never the turn before. */
  predicate Belongs(t: Turn, record: Record) {
    record.turn == 0 || (record.turn == t.cycle.native && record.turn != t.prior)
  }

  predicate CycleOk(t: Turn) {
    forall k | 0 <= k < |t.cycle.records| :: Belongs(t, t.cycle.records[k])
  }

  predicate HeldOk(turns: seq<Turn>, at: WorkerAt) {
    match at
    case Holding(t, r) => t < |turns| ==> r.turn == 0 || r.turn != turns[t].prior
    case Projecting(t, r, foreign, _) => t < |turns| && !foreign && !r.kind.Compaction? ==> Belongs(turns[t], r)
    case _ => true
  }

  predicate RecordsOk(st: State) {
    && (forall t | 0 <= t < |st.turns| :: CycleOk(st.turns[t]))
    && (forall w | 0 <= w < |st.workers| :: HeldOk(st.turns, st.workers[w].at))
    && (InFlight(st) ==> st.session.lastTerminal == st.turns[st.session.current.value].prior)
  }

  lemma CycleStands(t: Turn, t': Turn)
    requires TurnGoesOn(t, t') && CycleOk(t) && t'.cycle.records == t.cycle.records
    ensures CycleOk(t')
  {
    forall k | 0 <= k < |t'.cycle.records| ensures Belongs(t', t'.cycle.records[k]) {
      assert Belongs(t, t.cycle.records[k]);
    }
  }

  lemma HeldStands(st: State, st': State, at: WorkerAt)
    requires TurnsGoOn(st, st') && HeldOk(st.turns, at) && Knows(at, |st.turns|)
    ensures HeldOk(st'.turns, at)
  {
  }

  lemma ProjectedBelongs(t: Turn, at: WorkerAt, worker: nat, refused: bool)
    requires at.Projecting? && CycleOk(t) && (!at.foreign && !at.record.kind.Compaction? ==> Belongs(t, at.record))
    ensures CycleOk(Projected(t, at, worker, refused))
  {
    var t' := Projected(t, at, worker, refused);
    assert t'.cycle.native == t.cycle.native && t'.prior == t.prior;
    forall k | 0 <= k < |t'.cycle.records| ensures Belongs(t', t'.cycle.records[k]) {
      if k < |t.cycle.records| {
        assert Belongs(t, t.cycle.records[k]);
      }
    }
  }

  lemma WorkerKeepsRecords(st: State, w: nat, move: WorkerMove)
    requires Basic(st) && RecordsOk(st) && WorkerCan(st, w, move)
    ensures RecordsOk(WorkerDoes(st, w, move))
  {
    var st' := WorkerDoes(st, w, move);
    var at := st.workers[w].at;
    WorkerGoesOn(st, w, move);
    assert HeldOk(st.turns, at);
    forall t | 0 <= t < |st'.turns| ensures CycleOk(st'.turns[t]) {
      assert CycleOk(st.turns[t]);
      if move.Project? && at.turn == t {
        ProjectedBelongs(st.turns[t], at, w, move.refused);
      } else {
        CycleStands(st.turns[t], st'.turns[t]);
      }
    }
    forall v | 0 <= v < |st'.workers| ensures HeldOk(st'.turns, st'.workers[v].at) {
      assert HeldOk(st.turns, st.workers[v].at) && Knows(st.workers[v].at, |st.turns|);
      HeldStands(st, st', st.workers[v].at);
    }
  }

  /** A step that adds no record to any cycle and moves no worker. */
  predicate LeavesRecords(st: State, st': State) {
    && (forall w | 0 <= w < |st'.workers| :: (w < |st.workers| && st'.workers[w].at == st.workers[w].at) || st'.workers[w].at.Idle?)
    && (forall t | 0 <= t < |st'.turns| ::
          if t < |st.turns| then st'.turns[t].cycle.records == st.turns[t].cycle.records
          else st'.turns[t].cycle.records == [] && st'.turns[t].prior == st'.session.lastTerminal)
    && (InFlight(st') && st'.session.current == st.session.current ==> st'.session.lastTerminal == st.session.lastTerminal)
    && (InFlight(st') && st'.session.current != st.session.current ==> st'.session.current.value >= |st.turns|)
  }

  lemma RestKeepRecords(st: State, st': State)
    requires Basic(st) && RecordsOk(st) && TurnsGoOn(st, st') && LeavesRecords(st, st')
    ensures RecordsOk(st')
  {
    forall t | 0 <= t < |st'.turns| ensures CycleOk(st'.turns[t]) {
      if t < |st.turns| {
        assert CycleOk(st.turns[t]);
        CycleStands(st.turns[t], st'.turns[t]);
      }
    }
    forall v | 0 <= v < |st'.workers| ensures HeldOk(st'.turns, st'.workers[v].at) {
      if v < |st.workers| && st'.workers[v].at == st.workers[v].at {
        assert HeldOk(st.turns, st.workers[v].at) && Knows(st.workers[v].at, |st.turns|);
        HeldStands(st, st', st.workers[v].at);
      }
    }
  }

  lemma PromptLeavesTurn(st: State, move: PromptMove, t: nat)
    requires PromptCan(st, move) && t < |PromptDoes(st, move).turns|
    ensures var st' := PromptDoes(st, move);
            if t < |st.turns| then st'.turns[t].cycle.records == st.turns[t].cycle.records
            else st'.turns[t].cycle.records == [] && st'.turns[t].prior == st'.session.lastTerminal
  {
  }

  lemma PromptLeavesRecords(st: State, move: PromptMove)
    requires Basic(st) && PromptCan(st, move)
    ensures LeavesRecords(st, PromptDoes(st, move))
  {
    var st' := PromptDoes(st, move);
    forall w | 0 <= w < |st'.workers| ensures st'.workers[w].at == st.workers[w].at {
      PromptParks(st, move, w);
    }
    forall t | 0 <= t < |st'.turns|
      ensures if t < |st.turns| then st'.turns[t].cycle.records == st.turns[t].cycle.records
              else st'.turns[t].cycle.records == [] && st'.turns[t].prior == st'.session.lastTerminal
    {
      PromptLeavesTurn(st, move, t);
    }
  }

  lemma ContainLeavesTurn(st: State, c: nat, move: ContainMove, t: nat)
    requires ContainCan(st, c, move) && t < |st.turns|
    ensures ContainDoes(st, c, move).turns[t].cycle.records == st.turns[t].cycle.records
  {
  }

  lemma ContainLeavesRecords(st: State, c: nat, move: ContainMove)
    requires ContainCan(st, c, move)
    ensures LeavesRecords(st, ContainDoes(st, c, move))
  {
    forall t | 0 <= t < |st.turns| ensures ContainDoes(st, c, move).turns[t].cycle.records == st.turns[t].cycle.records {
      ContainLeavesTurn(st, c, move, t);
    }
  }

  lemma EndLeavesTurn(st: State, e: nat, move: EndMove, t: nat)
    requires EndCan(st, e, move) && t < |st.turns|
    ensures EndDoes(st, e, move).turns[t].cycle.records == st.turns[t].cycle.records
  {
  }

  lemma EndLeavesRecords(st: State, e: nat, move: EndMove)
    requires EndCan(st, e, move)
    ensures LeavesRecords(st, EndDoes(st, e, move))
  {
    forall t | 0 <= t < |st.turns| ensures EndDoes(st, e, move).turns[t].cycle.records == st.turns[t].cycle.records {
      EndLeavesTurn(st, e, move, t);
    }
  }

  lemma OtherLeavesRecords(st: State, move: OtherMove)
    requires OtherCan(st, move)
    ensures LeavesRecords(st, OtherDoes(st, move))
  {
  }

  lemma StepKeepsRecords(st: State, step: Step)
    requires Basic(st) && RecordsOk(st) && Enabled(st, step)
    ensures RecordsOk(Apply(st, step))
  {
    StepGoesOn(st, step);
    match step
    case PromptStep(move) =>
      PromptLeavesRecords(st, move);
      RestKeepRecords(st, Apply(st, step));
    case WorkerStep(w, move) => WorkerKeepsRecords(st, w, move);
    case ContainStep(c, move) =>
      ContainLeavesRecords(st, c, move);
      RestKeepRecords(st, Apply(st, step));
    case EndStep(e, move) =>
      EndLeavesRecords(st, e, move);
      RestKeepRecords(st, Apply(st, step));
    case OtherStep(move) =>
      OtherLeavesRecords(st, move);
      RestKeepRecords(st, Apply(st, step));
  }
}
