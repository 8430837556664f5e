/** Exactly when the cycle of a turn whose prompt is being answered can still take a record in. */
module SettlementWrites {
  import opened Wrappers
  import opened Settlement
  import opened SettlementProofs
  import opened SettlementWriters
  import opened SettlementTheorems
  import opened SettlementLeads
  import opened SettlementRuns
  import opened SettlementAbandoned
  import opened SettlementMoves

  // ---- the condition ----

  /** The worker has a record in its hands that the turn's cycle will take in. */
  predicate TakesIn(st: State, w: nat, t: nat) {
    && w < |st.workers| && t < |st.turns|
    && match st.workers[w].at
       case Holding(u, record) =>
         u == t && !record.kind.Compaction? && !st.turns[t].cycle.cancelled && !Foreign(st.turns[t], record)
       case Projecting(u, record, foreign, cancelled) => u == t && !record.kind.Compaction? && !foreign && !cancelled
       case _ => false
  }

  /** The worker gets to a further record before the prompt has finished. */
  predicate ReadsOn(st: State, w: nat, t: nat) {
    && w < |st.workers| && !st.workers[w].at.Exited?
    && st.workers[w].at != Parked(t) && !HoldsEnd(st, w, t)
  }

  /** The generation can get a new queue: it has none, or its queue can overflow, or a containment
      is about to take it away. */
  predicate Requeues(st: State, gen: nat) {
    && !st.session.closed && gen !in st.ended
    && (gen in st.registered ==>
          || (st.registered[gen] < |st.workers| && !st.workers[st.registered[gen]].fenced)
          || exists d | 0 <= d < |st.containers| :: Clears(st, d, gen))
  }

  /** A worker of the generation can get to a further record. */
  predicate Serves(st: State, t: nat, gen: nat) {
    (gen in st.registered && ReadsOn(st, st.registered[gen], t)) || Requeues(st, gen)
  }

  /** A repair of the turn's thread may bind the session again before the prompt has answered. */
  predicate MayRepair(st: State, t: nat)
    requires t < |st.turns|
  {
    var p := st.prompt;
    match p
    case Deciding(_, cancelled) => Repairs(st.turns[t], cancelled)
    case Committing(_, _, _, repairs) => repairs && st.turns[t].ended.Settled?
    case _ => (p.Admitting? || p.QuietingCalls? || p.Judging?) && Repairs(st.turns[t], st.turns[t].cycle.cancelled)
  }

  predicate CanTake(st: State, t: nat) {
    && t < |st.turns|
    && (|| (exists w | 0 <= w < |st.workers| :: TakesIn(st, w, t))
        || (&& !st.turns[t].cycle.cancelled
            && (st.session.bound == Some(st.turns[t].gen) || MayRepair(st, t))
            && Serves(st, t, st.turns[t].gen)))
  }

  predicate Answers(p: Prompt, t: nat) {
    Answering(p) && p.turn == t
  }

  // ---- from the condition to a record ----

  /** One more record than before. */
  predicate Grew(st: State, st': State, t: nat) {
    t < |st.turns| && t < |st'.turns| && |st'.turns[t].cycle.records| > |st.turns[t].cycle.records|
  }

  lemma StampTakesIn(st: State, w: nat, t: nat)
    requires TakesIn(st, w, t) && st.workers[w].at.Holding?
    ensures var st' := Apply(st, WorkerStep(w, Stamp(false)));
            OnlyMoves(st, st', w) && TakesIn(st', w, t) && st'.workers[w].at.Projecting?
            && st'.turns[t].cycle.records == st.turns[t].cycle.records && st'.workers[w].at.record == st.workers[w].at.record
  {
    StampMoves(st, w);
  }

  lemma ProjectTakesIn(st: State, w: nat, t: nat)
    requires TakesIn(st, w, t) && st.workers[w].at.Projecting?
    ensures var st' := Apply(st, WorkerStep(w, Project(false)));
            t < |st'.turns| && st'.turns[t].cycle.records == st.turns[t].cycle.records + [st.workers[w].at.record]
    ensures Apply(st, WorkerStep(w, Project(false))).prompt == st.prompt
  {
  }

  /** A record in hand is taken in while the prompt stands where it is. */
  lemma TakesInCan(start: State, st: State, w: nat, t: nat) returns (after: State)
    requires Leads(start, st) && TakesIn(st, w, t)
    ensures Leads(start, after) && after.prompt == st.prompt && Grew(st, after, t)
    ensures after.turns[t].cycle.records == st.turns[t].cycle.records + [st.workers[w].at.record]
  {
    after := st;
    if st.workers[w].at.Holding? {
      StampTakesIn(st, w, t);
      Go(start, st, WorkerStep(w, Stamp(false)));
      after := Apply(st, WorkerStep(w, Stamp(false)));
    }
    ProjectTakesIn(after, w, t);
    Go(start, after, WorkerStep(w, Project(false)));
    after := Apply(after, WorkerStep(w, Project(false)));
  }

  lemma {:induction false} LeadsGoOn(start: State, st: State, t: nat)
    requires Leads(start, st) && t < |start.turns|
    ensures t < |st.turns| && TurnGoesOn(start.turns[t], st.turns[t])
  {
    var steps :| Runs(start, steps) && Uncancelled(steps) && After(start, steps) == st;
    RunGoesOn(start, steps);
  }

  /** A worker that reads on, on the generation the session is bound on, takes a record in. */
  lemma ReaderCan(start: State, st: State, w: nat, t: nat) returns (after: State)
    requires Inv(start) && Leads(start, st) && ReadsOn(st, w, t) && PromptTurn(st.prompt) == Some(t) && t < |start.turns|
    requires st.session.bound == Some(st.workers[w].gen) && t < |st.turns| && !st.turns[t].cycle.cancelled
    ensures Leads(start, after) && after.prompt == st.prompt && Grew(start, after, t)
  {
    after := CanComeIdle(start, st, w, t);
    after := CanRead(start, after, w, t, Other);
    LeadsGoOn(start, after, t);
    after := TakesInCan(start, after, w, t);
  }

  /** An unfenced queue overflows, and its containment is on the way to it. */
  lemma CanOverflow(start: State, st: State, gen: nat) returns (after: State)
    requires Leads(start, st) && gen in st.registered && st.registered[gen] < |st.workers| && gen !in st.ended
    requires var x := st.workers[st.registered[gen]]; x.gen == gen && !x.fenced
    ensures Leads(start, after) && SameMarks(st, after) && after.prompt == st.prompt && after.session == st.session
    ensures after.registered == st.registered && after.ended == st.ended && |after.workers| == |st.workers|
    ensures after.workers[st.registered[gen]].fenced && Clears(after, |st.containers|, gen)
  {
    var w := st.registered[gen];
    Go(start, st, WorkerStep(w, Overflow));
    after := Apply(st, WorkerStep(w, Overflow));
    assert after.containers[|st.containers|] == Container(gen, true, false, None, Checking);
  }

  lemma CanRequeue(start: State, st: State, gen: nat, t: nat) returns (after: State, w: nat)
    requires Inv(start) && Leads(start, st) && PromptTurn(st.prompt) == Some(t) && Requeues(st, gen)
    requires gen in st.registered ==> !ReadsOn(st, st.registered[gen], t)
    ensures Leads(start, after) && SameMarks(st, after) && after.prompt == st.prompt
    ensures after.session.bound == st.session.bound
    ensures w < |after.workers| && after.workers[w].gen == gen && after.workers[w].at.Idle?
  {
    LeadsKeepsInv(start, st);
    after := st;
    if gen in st.registered {
      var d := |st.containers|;
      if !st.workers[st.registered[gen]].fenced {
        after := CanOverflow(start, st, gen);
      } else {
        d :| 0 <= d < |st.containers| && Clears(st, d, gen);
      }
      after := CanClear(start, after, d, gen, t);
    }
    w := |after.workers|;
    after := CanCreate(start, after, gen);
  }

  lemma ServedCan(start: State, st: State, t: nat) returns (after: State)
    requires Inv(start) && Leads(start, st) && PromptTurn(st.prompt) == Some(t) && t < |st.turns| && t < |start.turns|
    requires st.session.bound == Some(st.turns[t].gen) && !st.turns[t].cycle.cancelled && Serves(st, t, st.turns[t].gen)
    ensures Leads(start, after) && after.prompt == st.prompt && Grew(start, after, t)
  {
    var gen := st.turns[t].gen;
    LeadsKeepsInv(start, st);
    if gen in st.registered && ReadsOn(st, st.registered[gen], t) {
      after := ReaderCan(start, st, st.registered[gen], t);
    } else {
      var w;
      after, w := CanRequeue(start, st, gen, t);
      after := ReaderCan(start, after, w, t);
    }
  }

  // ---- the repair ----

  /** How many steps the prompt is from its commit. */
  function ToCommit(p: Prompt): nat {
    match p
    case Admitting(_) => 4
    case QuietingCalls(_) => 3
    case Judging(_) => 2
    case Deciding(_, _) => 1
    case _ => 0
  }

  /** On its way to the repair the prompt leaves this alone. */
  predicate Prepares(st: State, st': State, t: nat)
    requires t < |st.turns|
  {
    && st'.workers == st.workers && st'.registered == st.registered && st'.containers == st.containers
    && st'.ended == st.ended && st'.session.closed == st.session.closed
    && t < |st'.turns| && st'.turns[t].gen == st.turns[t].gen
    && st'.turns[t].cycle.(settling := true) == st.turns[t].cycle.(settling := true)
  }

  lemma StageGoes(start: State, st: State, t: nat) returns (after: State)
    requires Leads(start, st) && Counted(st.calls) && Answers(st.prompt, t) && t < |st.turns| && MayRepair(st, t)
    requires !st.prompt.Committing?
    ensures Leads(start, after) && Answers(after.prompt, t) && ToCommit(after.prompt) < ToCommit(st.prompt)
    ensures Prepares(st, after, t) && MayRepair(after, t) && Counted(after.calls)
  {
    var s := st;
    if st.prompt.QuietingCalls? {
      s := CallsCanEnd(start, st);
    }
    var move := match st.prompt
      case Admitting(_) => BeginSettlement
      case QuietingCalls(_) => CallsQuiet
      case Judging(_) => ReadMark
      case _ => JudgeTurn;
    Go(start, s, PromptStep(move));
    after := Apply(s, PromptStep(move));
  }

  /** A repair that may come can come, and binds the session again. */
  lemma {:induction false} RepairCan(start: State, st: State, t: nat) returns (after: State)
    requires Leads(start, st) && Counted(st.calls) && Answers(st.prompt, t) && t < |st.turns| && MayRepair(st, t)
    ensures Leads(start, after) && Answers(after.prompt, t) && Prepares(st, after, t)
    ensures after.session.bound == Some(st.turns[t].gen)
    decreases ToCommit(st.prompt)
  {
    if st.prompt.Committing? {
      Go(start, st, PromptStep(RepairRebinds));
      after := Apply(st, PromptStep(RepairRebinds));
    } else {
      after := StageGoes(start, st, t);
      after := RepairCan(start, after, t);
    }
  }

  lemma PreparedServes(st: State, st': State, t: nat)
    requires t < |st.turns| && Prepares(st, st', t) && Serves(st, t, st.turns[t].gen)
    ensures Serves(st', t, st'.turns[t].gen)
  {
    var gen := st.turns[t].gen;
    if gen in st.registered && ReadsOn(st, st.registered[gen], t) {
      assert ReadsOn(st', st'.registered[gen], t);
    } else if d :| 0 <= d < |st.containers| && Clears(st, d, gen) {
      assert Clears(st', d, gen);
    }
  }

  lemma CanTakeCan(st: State, t: nat) returns (after: State)
    requires Inv(st) && Answers(st.prompt, t) && CanTake(st, t)
    ensures Leads(st, after) && Answers(after.prompt, t) && Grew(st, after, t)
  {
    Stays(st);
    if w :| 0 <= w < |st.workers| && TakesIn(st, w, t) {
      after := TakesInCan(st, st, w, t);
    } else if st.session.bound == Some(st.turns[t].gen) {
      after := ServedCan(st, st, t);
    } else {
      after := RepairCan(st, st, t);
      PreparedServes(st, after, t);
      after := ServedCan(st, after, t);
    }
  }

  // ---- and without it none is taken in ----

  /** What a step that gives the turn no record may do to it. */
  predicate Untouched(x: Turn, x': Turn) {
    && TurnGoesOn(x, x') && x'.cycle.records == x.cycle.records && x'.cycle.stop == x.cycle.stop
    && (!x.cycle.failure && x'.cycle.failure ==> !x'.cycle.provider)
  }

  lemma WorkerUntouches(st: State, v: nat, move: WorkerMove, t: nat)
    requires WorkerCan(st, v, move) && t < |st.turns| && !st.turns[t].ended.Running? && !TakesIn(st, v, t)
    ensures Untouched(st.turns[t], WorkerDoes(st, v, move).turns[t])
  {
    WorkerGoesOnAt(st, v, move, t);
  }

  lemma WorkerTakesNone(st: State, v: nat, move: WorkerMove, w: nat, t: nat)
    requires Inv(st) && Answers(st.prompt, t) && !CanTake(st, t) && WorkerCan(st, v, move) && w < |st.workers|
    ensures !TakesIn(WorkerDoes(st, v, move), w, t)
  {
    assert !TakesIn(st, w, t) && Knows(st.workers[w].at, |st.turns|);
    WorkerGoesOnAt(st, v, move, t);
    if w == v && move.Read? && st.session.bound == Some(st.workers[v].gen) {
      assert Alive(st, v, st.turns[t].gen) && ReadsOn(st, v, t);
    }
  }

  lemma WorkerReadsNoMore(st: State, v: nat, move: WorkerMove, w: nat, t: nat)
    requires Inv(st) && Answers(st.prompt, t) && !CanTake(st, t) && WorkerCan(st, v, move)
    requires !st.turns[t].cycle.cancelled && ReadsOn(WorkerDoes(st, v, move), w, t)
    ensures ReadsOn(st, w, t)
  {
    assert !TakesIn(st, w, t) && Knows(st.workers[w].at, |st.turns|);
    WorkerGoesOnAt(st, v, move, t);
  }

  lemma WorkerServesNoMore(st: State, v: nat, move: WorkerMove, t: nat, gen: nat)
    requires Inv(st) && Answers(st.prompt, t) && !CanTake(st, t) && WorkerCan(st, v, move)
    requires !st.turns[t].cycle.cancelled && Serves(WorkerDoes(st, v, move), t, gen)
    ensures Serves(st, t, gen)
  {
    var st' := WorkerDoes(st, v, move);
    if gen in st.registered && ReadsOn(st', st.registered[gen], t) {
      WorkerReadsNoMore(st, v, move, st.registered[gen], t);
    } else if gen in st.registered && st.workers[st.registered[gen]].fenced {
      var d: nat :| d < |st'.containers| && Clears(st', d, gen);
      assert d < |st.containers| && Clears(st, d, gen);
    }
  }

  /** No step but the prompt's makes a repair come that could not come before. */
  lemma MayRepairFades(st: State, st': State, t: nat)
    requires st'.prompt == st.prompt && t < |st.turns| && t < |st'.turns| && !st.turns[t].ended.Running?
    requires Untouched(st.turns[t], st'.turns[t]) && !st'.turns[t].cycle.cancelled && MayRepair(st', t)
    ensures MayRepair(st, t)
  {
  }

  lemma WorkerGivesNone(st: State, v: nat, move: WorkerMove, t: nat)
    requires Inv(st) && Answers(st.prompt, t) && t < |st.turns| && !CanTake(st, t) && WorkerCan(st, v, move)
    ensures Untouched(st.turns[t], WorkerDoes(st, v, move).turns[t]) && !CanTake(WorkerDoes(st, v, move), t)
  {
    var st' := WorkerDoes(st, v, move);
    WorkerUntouches(st, v, move, t);
    forall w | 0 <= w < |st'.workers| ensures !TakesIn(st', w, t) {
      WorkerTakesNone(st, v, move, w, t);
    }
    if CanTake(st', t) {
      WorkerServesNoMore(st, v, move, t, st.turns[t].gen);
      MayRepairFades(st, st', t);
    }
  }

  /** A step that leaves the workers and the turn's native id alone gives no worker a record. */
  lemma OthersTakeNone(st: State, st': State, t: nat)
    requires t < |st.turns| && t < |st'.turns| && TurnGoesOn(st.turns[t], st'.turns[t])
    requires forall w | 0 <= w < |st.workers| :: !TakesIn(st, w, t)
    requires forall w | 0 <= w < |st'.workers| ::
               if w < |st.workers| then st'.workers[w].at == st.workers[w].at else st'.workers[w].at.Idle?
    ensures forall w | 0 <= w < |st'.workers| :: !TakesIn(st', w, t)
  {
    forall w | 0 <= w < |st'.workers| ensures !TakesIn(st', w, t) {
      assert w < |st.workers| ==> !TakesIn(st, w, t);
    }
  }

  lemma ContainUntouches(st: State, d: nat, move: ContainMove, t: nat)
    requires ContainCan(st, d, move) && t < |st.turns| && !st.turns[t].ended.Running?
    ensures Untouched(st.turns[t], ContainDoes(st, d, move).turns[t])
    ensures ContainDoes(st, d, move).turns[t].cycle.native == st.turns[t].cycle.native
  {
    ContainGoesOnAt(st, d, move, t);
  }

  lemma ContainServesNoMore(st: State, d: nat, move: ContainMove, t: nat, gen: nat)
    requires Basic(st) && ContainCan(st, d, move) && t < |st.turns| && !st.turns[t].ended.Running?
    requires Serves(ContainDoes(st, d, move), t, gen)
    ensures Serves(st, t, gen)
  {
    var st' := ContainDoes(st, d, move);
    ContainUntouches(st, d, move, t);
    ContainGoesIntoJoin(st, d, move, d);
    if gen in st'.registered && ReadsOn(st', st'.registered[gen], t) {
      assert ReadsOn(st, st.registered[gen], t);
    } else if gen in st.registered && st.workers[st.registered[gen]].fenced {
      if gen !in st'.registered {
        assert Clears(st, d, gen);
      } else {
        var e: nat :| e < |st'.containers| && Clears(st', e, gen);
        ContainGoesIntoJoin(st, d, move, e);
        assert Clears(st, e, gen);
      }
    }
  }

  lemma ContainGivesNone(st: State, d: nat, move: ContainMove, t: nat)
    requires Inv(st) && Answers(st.prompt, t) && t < |st.turns| && !CanTake(st, t) && ContainCan(st, d, move)
    ensures Untouched(st.turns[t], ContainDoes(st, d, move).turns[t]) && !CanTake(ContainDoes(st, d, move), t)
  {
    var st' := ContainDoes(st, d, move);
    ContainUntouches(st, d, move, t);
    OthersTakeNone(st, st', t);
    if CanTake(st', t) {
      ContainServesNoMore(st, d, move, t, st.turns[t].gen);
      MayRepairFades(st, st', t);
    }
  }

  lemma EndUntouches(st: State, e: nat, move: EndMove, t: nat)
    requires EndCan(st, e, move) && t < |st.turns| && !st.turns[t].ended.Running?
    ensures EndDoes(st, e, move).turns[t] == st.turns[t]
  {
  }

  lemma SameServes(st: State, st': State, t: nat, gen: nat)
    requires t < |st.turns| && t < |st'.turns| && st'.turns[t].cycle.native == st.turns[t].cycle.native
    requires st.workers <= st'.workers && st'.containers == st.containers && st'.registered == st.registered
    requires (st.session.closed ==> st'.session.closed) && st.ended <= st'.ended
    requires gen in st.registered ==> st.registered[gen] < |st.workers|
    requires Serves(st', t, gen)
    ensures Serves(st, t, gen)
  {
    if gen in st.registered && ReadsOn(st', st.registered[gen], t) {
      assert ReadsOn(st, st.registered[gen], t);
    } else if gen in st.registered && st.workers[st.registered[gen]].fenced {
      var d: nat :| d < |st'.containers| && Clears(st', d, gen);
      assert Clears(st, d, gen);
    }
  }

  lemma EndGivesNone(st: State, e: nat, move: EndMove, t: nat)
    requires Inv(st) && Answers(st.prompt, t) && t < |st.turns| && !CanTake(st, t) && EndCan(st, e, move)
    ensures Untouched(st.turns[t], EndDoes(st, e, move).turns[t]) && !CanTake(EndDoes(st, e, move), t)
  {
    var st' := EndDoes(st, e, move);
    EndUntouches(st, e, move, t);
    OthersTakeNone(st, st', t);
    if CanTake(st', t) {
      SameServes(st, st', t, st.turns[t].gen);
      MayRepairFades(st, st', t);
    }
  }

  lemma OtherUntouches(st: State, move: OtherMove, t: nat)
    requires OtherCan(st, move) && t < |st.turns|
    ensures Untouched(st.turns[t], OtherDoes(st, move).turns[t])
    ensures OtherDoes(st, move).turns[t].cycle.native == st.turns[t].cycle.native
  {
    OtherGoesOnAt(st, move, t);
  }

  lemma OtherServesNoMore(st: State, move: OtherMove, t: nat, gen: nat)
    requires Basic(st) && OtherCan(st, move) && t < |st.turns| && Serves(OtherDoes(st, move), t, gen)
    ensures Serves(st, t, gen)
  {
    var st' := OtherDoes(st, move);
    OtherUntouches(st, move, t);
    if move.CreateQueue? && gen in st.registered {
      if ReadsOn(st', st'.registered[gen], t) {
        assert ReadsOn(st, st.registered[gen], t);
      } else if st.workers[st.registered[gen]].fenced {
        var d: nat :| d < |st'.containers| && Clears(st', d, gen);
        assert Clears(st, d, gen);
      }
    } else if !move.CreateQueue? {
      SameServes(st, st', t, gen);
    }
  }

  lemma OtherGivesNone(st: State, move: OtherMove, t: nat)
    requires Inv(st) && Answers(st.prompt, t) && t < |st.turns| && !CanTake(st, t) && OtherCan(st, move)
    ensures Untouched(st.turns[t], OtherDoes(st, move).turns[t]) && !CanTake(OtherDoes(st, move), t)
  {
    var st' := OtherDoes(st, move);
    OtherUntouches(st, move, t);
    OthersTakeNone(st, st', t);
    if CanTake(st', t) {
      OtherServesNoMore(st, move, t, st.turns[t].gen);
      MayRepairFades(st, st', t);
    }
  }

  lemma PromptLeavesPlaces(st: State, move: PromptMove, t: nat)
    requires Basic(st) && Answers(st.prompt, t) && t < |st.turns| && PromptCan(st, move)
    ensures var st' := PromptDoes(st, move);
            && st'.workers == st.workers && st'.containers == st.containers && st'.session.closed == st.session.closed
            && (st'.session.bound == st.session.bound || st'.session.bound.None? || move.RepairRebinds?)
            && (Answers(st'.prompt, t) || PromptTurn(st'.prompt) != Some(t))
  {
  }

  lemma BeginMoves(st: State, t: nat)
    requires PromptCan(st, BeginSettlement) && st.prompt.turn == t
    ensures PromptDoes(st, BeginSettlement).turns == st.turns[t := Admit(st.turns[t])]
  {
  }

  lemma RestMovesNone(st: State, move: PromptMove, t: nat)
    requires Answers(st.prompt, t) && PromptCan(st, move) && !move.BeginSettlement?
    ensures PromptDoes(st, move).turns == st.turns
  {
  }

  lemma PromptMoves(st: State, move: PromptMove, t: nat)
    requires Answers(st.prompt, t) && t < |st.turns| && PromptCan(st, move)
    ensures var st' := PromptDoes(st, move);
            && t < |st'.turns| && st'.turns[t].(cycle := st.turns[t].cycle) == st.turns[t]
            && st'.turns[t].cycle.(settling := true) == st.turns[t].cycle.(settling := true)
  {
    if move.BeginSettlement? {
      BeginMoves(st, t);
    } else {
      RestMovesNone(st, move, t);
    }
  }

  lemma PromptRepairsNoMore(st: State, move: PromptMove, t: nat)
    requires Basic(st) && StageOk(st) && Answers(st.prompt, t) && t < |st.turns| && PromptCan(st, move)
    requires !st.turns[t].cycle.cancelled && t < |PromptDoes(st, move).turns| && MayRepair(PromptDoes(st, move), t)
    ensures MayRepair(st, t)
  {
  }

  lemma PromptGivesNone(st: State, move: PromptMove, t: nat)
    requires Inv(st) && Answers(st.prompt, t) && t < |st.turns| && !CanTake(st, t) && PromptCan(st, move)
    ensures t < |PromptDoes(st, move).turns|
    ensures PromptDoes(st, move).turns[t].cycle.records == st.turns[t].cycle.records
    ensures !CanTake(PromptDoes(st, move), t)
    ensures Answers(PromptDoes(st, move).prompt, t) || PromptTurn(PromptDoes(st, move).prompt) != Some(t)
  {
    var st' := PromptDoes(st, move);
    PromptMoves(st, move, t);
    PromptLeavesPlaces(st, move, t);
    PromptGoesOnAt(st, move, t);
    OthersTakeNone(st, st', t);
    if CanTake(st', t) {
      SameServes(st, st', t, st.turns[t].gen);
      if MayRepair(st', t) {
        PromptRepairsNoMore(st, move, t);
      }
    }
  }

  /** The turn has no more records than before and can take none, or its prompt has answered. */
  predicate Closed(st: State, t: nat, records: nat) {
    && t < |st.turns|
    && (if Answers(st.prompt, t) then !CanTake(st, t) && |st.turns[t].cycle.records| <= records
        else PromptTurn(st.prompt) != Some(t))
  }

  lemma AnsweredStays(st: State, step: Step, t: nat)
    requires Enabled(st, step) && t < |st.turns| && PromptTurn(st.prompt) != Some(t)
    ensures t < |Apply(st, step).turns| && PromptTurn(Apply(st, step).prompt) != Some(t)
  {
  }

  lemma StepStaysClosed(st: State, step: Step, t: nat, records: nat)
    requires Inv(st) && Closed(st, t, records) && Enabled(st, step)
    ensures Closed(Apply(st, step), t, records)
  {
    if !Answers(st.prompt, t) {
      AnsweredStays(st, step, t);
    } else {
      match step
      case PromptStep(move) => PromptGivesNone(st, move, t);
      case WorkerStep(w, move) => WorkerGivesNone(st, w, move, t);
      case ContainStep(c, move) => ContainGivesNone(st, c, move, t);
      case EndStep(e, move) => EndGivesNone(st, e, move, t);
      case OtherStep(move) => OtherGivesNone(st, move, t);
    }
  }

  lemma {:induction false} RunStaysClosed(st: State, steps: seq<Step>, t: nat, records: nat)
    requires Inv(st) && Closed(st, t, records) && Runs(st, steps)
    ensures Closed(After(st, steps), t, records)
    decreases |steps|
  {
    if steps == [] {
    } else {
      StepKeepsInv(st, steps[0]);
      StepStaysClosed(st, steps[0], t, records);
      RunStaysClosed(Apply(st, steps[0]), steps[1..], t, records);
    }
  }

  ghost predicate LeadsToRecord(st: State, t: nat) {
    exists more :: Runs(st, more) && Answers(After(st, more).prompt, t) && Grew(st, After(st, more), t)
  }

  /** In every reachable state of a prompt that is being answered: its turn's cycle takes a record
      in, in some continuation and before the prompt has finished, if and only if a worker has one
      in its hands, or the turn is not cancelled, is bound or may be bound again by a repair, and
      its generation has a worker that reads on or can get one. */
  lemma AnsweredTurnTakes(st: State, t: nat)
    requires Reachable(st) && Answers(st.prompt, t)
    ensures LeadsToRecord(st, t) <==> CanTake(st, t)
  {
    ReachableHasInv(st);
    if CanTake(st, t) {
      var after := CanTakeCan(st, t);
    } else if more :| Runs(st, more) && Answers(After(st, more).prompt, t) && Grew(st, After(st, more), t) {
      RunStaysClosed(st, more, t, |st.turns[t].cycle.records|);
    }
  }

  // ---- instances ----

  /** Without the repair the record is taken in while the prompt stands where it is: so also
      between its settlement's wait and its verdict. */
  lemma BoundTurnTakes(st: State, t: nat)
    requires Inv(st) && Answers(st.prompt, t) && t < |st.turns| && !st.turns[t].cycle.cancelled
    requires st.session.bound == Some(st.turns[t].gen) && Serves(st, t, st.turns[t].gen)
    ensures exists after: State :: Leads(st, after) && after.prompt == st.prompt && Grew(st, after, t)
  {
    Stays(st);
    var after := ServedCan(st, st, t);
  }

  /** The ordinary way into it: a turn that ended natively is being judged, and its parked worker's
      queue, which nobody fenced, can overflow. */
  lemma OverflowReopens()
    ensures var st := Serving(Refused7, WorkerAt.Parked(0), Judging(0));
            Reachable(st) && !TakesIn(st, 0, 0) && !ReadsOn(st, 0, 0) && LeadsToRecord(st, 0)
  {
    ReachJudging();
    var st := Serving(Refused7, WorkerAt.Parked(0), Judging(0));
    assert st.session.bound == Some(st.turns[0].gen) && Requeues(st, 0);
    AnsweredTurnTakes(st, 0);
  }

  /** A containment has retired its turn's queue and not yet let the binding go, and a record of
      the turn is on its way. */
  predicate LateGuard(st: State, c: nat, record: Record) {
    && c < |st.containers| && st.prompt.Waiting? && st.prompt.turn < |st.turns|
    && var t, x := st.prompt.turn, st.containers[c];
       var turn := st.turns[t];
       && st.session.current == Some(t) && turn.ended.Running? && !turn.cycle.cancelled && turn.gen == x.gen
       && x.at.Unbinding? && x.turn == Some(t) && st.session.bound == Some(x.gen)
       && x.gen !in st.registered && x.gen !in st.ended && !st.session.closed
       && (record.kind.Work? || record.kind.Other?)
       && (record.turn == 0
           || (record.turn != st.session.lastTerminal && (turn.cycle.native == 0 || record.turn == turn.cycle.native)))
  }

  /** The record makes a new queue, whose worker reads it. */
  lemma LateRead(st: State, c: nat, record: Record) returns (after: State)
    requires LateGuard(st, c, record)
    ensures Leads(st, after)
    ensures after.turns == st.turns && after.containers == st.containers && after.calls == st.calls
    ensures after.prompt == st.prompt && after.session == st.session
    ensures |after.workers| == |st.workers| + 1 && after.workers[|st.workers|].at == Holding(st.prompt.turn, record)
  {
    var gen, w := st.containers[c].gen, |st.workers|;
    Stays(st);
    Go(st, st, OtherStep(CreateQueue(gen)));
    var s1 := Apply(st, OtherStep(CreateQueue(gen)));
    assert s1.workers[w].at.Idle? && s1.workers[w].gen == gen;
    Go(st, s1, WorkerStep(w, Read(record)));
    after := Apply(s1, WorkerStep(w, Read(record)));
  }

  /** The containment settles the turn. */
  lemma LateEnd(start: State, st: State, c: nat) returns (after: State)
    requires Leads(start, st) && c < |st.containers| && st.prompt.Waiting?
    requires st.prompt.turn < |st.turns| && st.turns[st.prompt.turn].ended.Running?
    requires st.containers[c].at.Unbinding? && st.containers[c].turn == Some(st.prompt.turn)
    ensures Leads(start, after) && after.prompt == Admitting(st.prompt.turn) && after.workers == st.workers
    ensures after.calls == st.calls && |after.turns| == |st.turns|
    ensures after.turns[st.prompt.turn].cycle == st.turns[st.prompt.turn].cycle
  {
    Go(start, st, ContainStep(c, LetGo));
    var s1 := Apply(st, ContainStep(c, LetGo));
    Go(start, s1, ContainStep(c, SettleContained));
    var s2 := Apply(s1, ContainStep(c, SettleContained));
    Go(start, s2, PromptStep(SeeSettled));
    after := Apply(s2, PromptStep(SeeSettled));
  }

  /** Then the prompt begins to answer. */
  lemma LateAnswer(start: State, st: State, c: nat) returns (after: State)
    requires Leads(start, st) && Counted(st.calls) && c < |st.containers| && st.prompt.Waiting?
    requires st.prompt.turn < |st.turns| && st.turns[st.prompt.turn].ended.Running?
    requires st.containers[c].at.Unbinding? && st.containers[c].turn == Some(st.prompt.turn)
    ensures Leads(start, after) && after.prompt == Judging(st.prompt.turn) && after.workers == st.workers
    ensures |after.turns| == |st.turns|
    ensures after.turns[st.prompt.turn].cycle == st.turns[st.prompt.turn].cycle.(settling := true)
  {
    var s1 := LateEnd(start, st, c);
    Go(start, s1, PromptStep(BeginSettlement));
    var s2 := Apply(s1, PromptStep(BeginSettlement));
    assert s2.turns[st.prompt.turn].cycle == s1.turns[st.prompt.turn].cycle.(settling := true);
    var s3 := CallsCanEnd(start, s2);
    Go(start, s3, PromptStep(CallsQuiet));
    after := Apply(s3, PromptStep(CallsQuiet));
  }

  /** In every such state the record can still be written into the turn while its prompt is
      judged: it reaches a new worker, which the containment has not joined. */
  lemma LateRecordIsWritten(st: State, c: nat, record: Record)
    requires Counted(st.calls) && LateGuard(st, c, record)
    ensures exists after: State ::
              && Leads(st, after) && after.prompt == Judging(st.prompt.turn) && st.prompt.turn < |after.turns|
              && after.turns[st.prompt.turn].cycle.records == st.turns[st.prompt.turn].cycle.records + [record]
  {
    var t, w := st.prompt.turn, |st.workers|;
    var s1 := LateRead(st, c, record);
    var s2 := LateAnswer(st, s1, c);
    var s3 := TakesInCan(st, s2, w, t);
  }

  /** Such a state is reached. */
  lemma LateRecordReachable()
    ensures Reachable(Retired()) && LateGuard(Retired(), 0, Work7)
  {
    ReachRetired();
  }

  /** A queue created while the session is unbound is no better once a repair has bound it again:
      its worker can read a record of the turn whose prompt is being answered. */
  lemma UnboundQueueCanWrite(st: State, w: nat, record: Record)
    requires UnboundQueue(st, w) && (record.turn == 0 || record.turn != st.session.lastTerminal)
    ensures exists after: State ::
              && Leads(st, after) && after.prompt == st.prompt && w < |after.workers|
              && after.workers[w].at == Holding(st.prompt.turn, record)
  {
    Stays(st);
    Go(st, st, PromptStep(RepairRebinds));
    var s1 := Apply(st, PromptStep(RepairRebinds));
    Go(st, s1, WorkerStep(w, Read(record)));
    assert Apply(s1, WorkerStep(w, Read(record))).workers[w].at == Holding(st.prompt.turn, record);
  }

  lemma UnboundQueueServes(st: State, w: nat)
    requires Solo(st) && UnboundQueue(st, w) && !st.turns[st.prompt.turn].cycle.cancelled
    ensures CanTake(st, st.prompt.turn)
  {
    var gen, t := st.turns[st.prompt.turn].gen, st.prompt.turn;
    assert gen in st.registered && st.registered[gen] == w;
    assert ReadsOn(st, w, t) && MayRepair(st, t);
  }

  /** And the turn's cycle takes one in, unless it is cancelled. */
  lemma UnboundQueueTakes(st: State, w: nat)
    requires Reachable(st) && UnboundQueue(st, w) && !st.turns[st.prompt.turn].cycle.cancelled
    ensures LeadsToRecord(st, st.prompt.turn)
  {
    ReachableHasInv(st);
    UnboundQueueServes(st, w);
    AnsweredTurnTakes(st, st.prompt.turn);
  }
}
