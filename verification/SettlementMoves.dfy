/** Ways on that a state of the settlement machine has, while the prompt stands where it is: a
    worker gets rid of the record in its hands, a containment gets to its join, a registered queue
    gets out of the way of a new one. */
module SettlementMoves {
  import opened Wrappers
  import opened Settlement
  import opened SettlementProofs
  import opened SettlementPast
  import opened SettlementTheorems
  import opened SettlementLeads
  import opened SettlementAbandoned
  import opened SettlementWaits

  lemma LeadsKeepsInv(start: State, st: State)
    requires Inv(start) && Leads(start, st)
    ensures Inv(st)
  {
    var steps :| Runs(start, steps) && Uncancelled(steps) && After(start, steps) == st;
    RunKeepsInv(start, steps);
  }

  lemma KnowsItsTurn(start: State, st: State, w: nat)
    requires Inv(start) && Leads(start, st) && w < |st.workers|
    ensures Knows(st.workers[w].at, |st.turns|)
  {
    LeadsKeepsInv(start, st);
  }

  /** The same turns, cancelled as before. */
  predicate SameMarks(st: State, st': State) {
    && |st'.turns| == |st.turns|
    && forall t | 0 <= t < |st.turns| :: st'.turns[t].cycle.cancelled == st.turns[t].cycle.cancelled
  }

  /** Only the worker's place and what its turn took in have changed. */
  predicate OnlyMoves(st: State, st': State, w: nat)
    requires w < |st.workers|
  {
    && SameMarks(st, st') && w < |st'.workers|
    && st' == st.(turns := st'.turns, workers := st.workers[w := st.workers[w].(at := st'.workers[w].at)])
  }

  lemma ProjectingMarksNone(t: Turn, at: WorkerAt, worker: nat, refused: bool)
    requires at.Projecting?
    ensures Projected(t, at, worker, refused).cycle.cancelled == t.cycle.cancelled
  {
  }

  lemma ProjectMoves(st: State, w: nat)
    requires w < |st.workers| && st.workers[w].at.Projecting? && st.workers[w].at.turn < |st.turns|
    ensures var t, st' := st.workers[w].at.turn, Apply(st, WorkerStep(w, Project(false)));
            && OnlyMoves(st, st', w)
            && st'.workers[w].at == if HoldsEnd(st, w, t) then Parked(t) else Idle
  {
    ProjectingMarksNone(st.turns[st.workers[w].at.turn], st.workers[w].at, w, false);
  }

  lemma StampMoves(st: State, w: nat)
    requires w < |st.workers| && st.workers[w].at.Holding? && st.workers[w].at.turn < |st.turns|
    ensures var t, st' := st.workers[w].at.turn, Apply(st, WorkerStep(w, Stamp(false)));
            && OnlyMoves(st, st', w) && st'.workers[w].at.Projecting? && st'.workers[w].at.turn == t
            && (HoldsEnd(st, w, t) <==> HoldsEnd(st', w, t))
  {
  }

  /** A worker with a record in hand stamps and projects it. */
  lemma HandCanEmpty(start: State, st: State, w: nat) returns (after: State)
    requires Leads(start, st) && w < |st.workers| && Knows(st.workers[w].at, |st.turns|)
    requires st.workers[w].at.Holding? || st.workers[w].at.Projecting?
    ensures Leads(start, after) && OnlyMoves(st, after, w)
    ensures after.workers[w].at.Idle? || after.workers[w].at == Parked(st.workers[w].at.turn)
    ensures HoldsEnd(st, w, st.workers[w].at.turn) <==> after.workers[w].at == Parked(st.workers[w].at.turn)
  {
    after := st;
    if st.workers[w].at.Holding? {
      StampMoves(st, w);
      Go(start, st, WorkerStep(w, Stamp(false)));
      after := Apply(st, WorkerStep(w, Stamp(false)));
    }
    ProjectMoves(after, w);
    Go(start, after, WorkerStep(w, Project(false)));
    after := Apply(after, WorkerStep(w, Project(false)));
  }

  lemma ParkedElsewhereResumes(start: State, st: State, w: nat, t: nat) returns (after: State)
    requires Inv(start) && Leads(start, st) && w < |st.workers| && PromptTurn(st.prompt) == Some(t)
    requires st.workers[w].at.Parked? && st.workers[w].at != Parked(t)
    ensures Leads(start, after) && OnlyMoves(st, after, w) && after.workers[w].at.Idle?
  {
    LeadsKeepsInv(start, st);
    assert Knows(st.workers[w].at, |st.turns|) && Behind(st.prompt, st.workers[w].at.turn);
    Go(start, st, WorkerStep(w, Resume));
    after := Apply(st, WorkerStep(w, Resume));
  }

  /** A running worker gets to its next record, unless it comes to stand behind the turn. */
  lemma CanComeIdle(start: State, st: State, w: nat, t: nat) returns (after: State)
    requires Inv(start) && Leads(start, st) && w < |st.workers| && !st.workers[w].at.Exited?
    requires PromptTurn(st.prompt) == Some(t)
    ensures Leads(start, after) && OnlyMoves(st, after, w)
    ensures after.workers[w].at.Idle? || (after.workers[w].at == Parked(t) && (st.workers[w].at == Parked(t) || HoldsEnd(st, w, t)))
  {
    after := st;
    if st.workers[w].at.Holding? || st.workers[w].at.Projecting? {
      KnowsItsTurn(start, st, w);
      after := HandCanEmpty(start, st, w);
    }
    if after.workers[w].at.Parked? && after.workers[w].at != Parked(t) {
      after := ParkedElsewhereResumes(start, after, w, t);
    }
  }

  /** An idle worker of the binding's generation reads a record that names no turn. */
  lemma CanRead(start: State, st: State, w: nat, t: nat, kind: Kind) returns (after: State)
    requires Inv(start) && Leads(start, st) && w < |st.workers| && PromptTurn(st.prompt) == Some(t)
    requires st.workers[w].at.Idle? && st.session.bound == Some(st.workers[w].gen)
    ensures Leads(start, after) && OnlyMoves(st, after, w) && after.turns == st.turns
    ensures after.workers[w].at == Holding(t, Record(kind, 0))
  {
    LeadsKeepsInv(start, st);
    Go(start, st, WorkerStep(w, Read(Record(kind, 0))));
    after := Apply(st, WorkerStep(w, Read(Record(kind, 0))));
  }

  /** Only the containment's place, the turns, the dialogs and the loss mark have changed. */
  predicate OnlyContains(st: State, st': State, c: nat)
    requires c < |st.containers|
  {
    && SameMarks(st, st') && |st'.containers| == |st.containers|
    && (forall d | 0 <= d < |st.containers| && d != c :: st'.containers[d] == st.containers[d])
    && st'.containers[c].gen == st.containers[c].gen
    && st' == st.(turns := st'.turns, containers := st'.containers, calls := st'.calls,
                  session := st.session.(lost := st'.session.lost))
  }

  lemma CanQuiet(start: State, st: State, c: nat) returns (after: State)
    requires Leads(start, st) && Counted(st.calls) && c < |st.containers| && st.containers[c].at.Quieting?
    ensures Leads(start, after) && OnlyContains(st, after, c) && after.containers[c].at.Retiring?
  {
    var s := CallsCanEnd(start, st);
    Go(start, s, ContainStep(c, Quiet));
    after := Apply(s, ContainStep(c, Quiet));
  }

  lemma CanCheck(start: State, st: State, c: nat) returns (after: State)
    requires Leads(start, st) && c < |st.containers| && st.containers[c].at.Checking?
    ensures Leads(start, after) && OnlyContains(st, after, c)
    ensures after.containers[c].at.Quieting? || after.containers[c].at.Retiring?
  {
    Go(start, st, ContainStep(c, Check));
    after := Apply(st, ContainStep(c, Check));
  }

  lemma CanRetire(start: State, st: State, c: nat) returns (after: State)
    requires Inv(start) && Leads(start, st) && c < |st.containers| && InWindow(st.containers[c])
    ensures Leads(start, after) && OnlyContains(st, after, c) && after.containers[c].at.Retiring?
  {
    after := st;
    if after.containers[c].at.Checking? {
      after := CanCheck(start, after, c);
    }
    if after.containers[c].at.Quieting? {
      LeadsKeepsInv(start, after);
      after := CanQuiet(start, after, c);
    }
  }

  /** A containment that has not looked for its queue gets to join the one that is registered. */
  lemma CanJoin(start: State, st: State, c: nat) returns (after: State)
    requires Inv(start) && Leads(start, st) && c < |st.containers| && InWindow(st.containers[c])
    requires st.containers[c].gen in st.registered
    ensures Leads(start, after) && OnlyContains(st, after, c)
    ensures after.containers[c].at == Joining(st.registered[st.containers[c].gen])
  {
    after := CanRetire(start, st, c);
    Go(start, after, ContainStep(c, Retire));
    after := Apply(after, ContainStep(c, Retire));
  }

  /** The containment takes, or is about to take, the registered queue of its generation away. */
  predicate Clears(st: State, d: nat, gen: nat) {
    && d < |st.containers| && st.containers[d].gen == gen
    && (InWindow(st.containers[d]) || (gen in st.registered && st.containers[d].at == Joining(st.registered[gen])))
  }

  /** Of what the containment may change, its way to the queue leaves this alone. */
  predicate Spares(st: State, st': State, d: nat) {
    && SameMarks(st, st')
    && st'.prompt == st.prompt && st'.ended == st.ended && st'.dying == st.dying
    && st'.session.bound == st.session.bound && st'.session.closed == st.session.closed
    && |st'.containers| == |st.containers|
    && forall c | 0 <= c < |st.containers| && c != d :: st'.containers[c] == st.containers[c]
  }

  /** A fenced worker can always get to its exit. */
  lemma FencedCanExit(start: State, st: State, w: nat, t: nat) returns (after: State)
    requires Inv(start) && Leads(start, st) && w < |st.workers| && PromptTurn(st.prompt) == Some(t)
    requires st.workers[w].fenced || st.workers[w].at.Exited?
    ensures Leads(start, after) && OnlyMoves(st, after, w) && after.workers[w].at.Exited?
  {
    after := st;
    if !st.workers[w].at.Exited? {
      after := CanComeIdle(start, st, w, t);
      Go(start, after, WorkerStep(w, Leave));
      after := Apply(after, WorkerStep(w, Leave));
    }
  }

  lemma CanDeregister(start: State, st: State, d: nat, w: nat) returns (after: State)
    requires Leads(start, st) && d < |st.containers| && st.containers[d].at == Joining(w)
    requires w < |st.workers| && st.workers[w].at.Exited?
    requires st.containers[d].gen in st.registered && st.registered[st.containers[d].gen] == w
    ensures Leads(start, after) && st.containers[d].gen !in after.registered && Spares(st, after, d)
  {
    Go(start, st, ContainStep(d, Join));
    after := Apply(st, ContainStep(d, Join));
  }

  lemma CanFinishJoin(start: State, st: State, d: nat, t: nat) returns (after: State)
    requires Inv(start) && Leads(start, st) && d < |st.containers| && PromptTurn(st.prompt) == Some(t)
    requires st.containers[d].gen in st.registered
    requires var w := st.registered[st.containers[d].gen];
             st.containers[d].at == Joining(w) && w < |st.workers| && (st.workers[w].fenced || st.workers[w].at.Exited?)
    ensures Leads(start, after) && st.containers[d].gen !in after.registered && Spares(st, after, d)
  {
    var w := st.registered[st.containers[d].gen];
    var s := FencedCanExit(start, st, w, t);
    assert Spares(st, s, d) && s.registered == st.registered;
    after := CanDeregister(start, s, d, w);
  }

  /** A containment that clears the way gets the registered queue out of it. */
  lemma CanClear(start: State, st: State, d: nat, gen: nat, t: nat) returns (after: State)
    requires Inv(start) && Leads(start, st) && Clears(st, d, gen) && PromptTurn(st.prompt) == Some(t)
    requires gen in st.registered && st.registered[gen] < |st.workers|
    requires st.workers[st.registered[gen]].fenced || st.workers[st.registered[gen]].at.Exited?
    ensures Leads(start, after) && gen !in after.registered && Spares(st, after, d)
  {
    var s := st;
    if InWindow(st.containers[d]) {
      s := CanJoin(start, st, d);
      assert Spares(st, s, d) && s.registered == st.registered && s.workers == st.workers;
    }
    after := CanFinishJoin(start, s, d, t);
  }

  /** Without a registered queue a record makes a new one. */
  lemma CanCreate(start: State, st: State, gen: nat) returns (after: State)
    requires Leads(start, st) && !st.session.closed && gen !in st.ended && gen !in st.registered
    ensures Leads(start, after) && after == st.(workers := after.workers, registered := st.registered[gen := |st.workers|])
    ensures |after.workers| == |st.workers| + 1
    ensures var x := after.workers[|st.workers|]; x.gen == gen && x.at.Idle? && !x.fenced
  {
    Go(start, st, OtherStep(CreateQueue(gen)));
    after := Apply(st, OtherStep(CreateQueue(gen)));
  }

  lemma ContainGoesIntoJoin(st: State, d: nat, move: ContainMove, c: nat)
    requires Basic(st) && ContainCan(st, d, move) && c < |st.containers|
    ensures var x, x' := st.containers[c], ContainDoes(st, d, move).containers[c];
            && x'.gen == x.gen
            && (InWindow(x') ==> InWindow(x))
            && (x'.at.Joining? ==> x' == x || (InWindow(x) && x.gen in st.registered && x'.at.worker == st.registered[x.gen]))
    ensures var st' := ContainDoes(st, d, move);
            st'.dying == st.dying && forall g | g in st'.registered :: g in st.registered && st'.registered[g] == st.registered[g]
  {
  }
}
