/** The store and codex's own rollout over any number of turns, repairs, crashes and restores
    (session_prompt.go:483-542, session_store.go:225-312). The mirror is what its callers rely
    on: a commit writes the whole owed history or leaves the store as it was, and hydration
    adopts the longer of two histories that agree where both have rows, else fails. */
module Restore {
  import opened Repair

  predicate Comparable(a: seq<string>, b: seq<string>) {
    a <= b || b <= a
  }

  /** `Idle` is a session no process runs; `Repaired` has repaired the native side of a dirty
      store; `Hydrating` is about to reconcile; `Running` serves turns. */
  datatype At = Idle | Repaired | Hydrating | Running

  /** `reset` says the mirror republishes the whole history at its next commit. */
  datatype State = State(store: seq<string>, native: seq<string>, reset: bool, at: At, disagreed: bool)

  const Initial := State([], [], false, Running, false)

  datatype Step =
    | Append(row: string)
    | Commit(ok: bool)
    | RepairTurn
    | Crash
    | Lose(rows: nat)
    | BeginRestore
    | Republish(ok: bool)
    | Hydrate(ok: bool)

  predicate AllDecode(c: Codec, rows: seq<string>) {
    forall k | 0 <= k < |rows| :: Decodes(c, rows[k])
  }

  /** `Lose` is a rollout that is gone or shorter when the session is restored elsewhere; a row
      that does not decode refuses the restore or the repair and changes nothing. */
  predicate Enabled(c: Codec, st: State, step: Step) {
    match step
    case Append(_) => st.at.Running?
    case Commit(_) => st.at.Running?
    case RepairTurn => st.at.Running? && AllDecode(c, st.native)
    case Crash => true
    case Lose(rows) => st.at.Idle? && rows <= |st.native|
    case BeginRestore => st.at.Idle? && AllDecode(c, st.store) && AllDecode(c, st.native)
    case Republish(_) => st.at.Repaired?
    case Hydrate(_) => st.at.Hydrating?
  }

  function Committed(st: State): State {
    st.(store := if st.reset || |st.native| < |st.store| then st.native else st.store + st.native[|st.store|..], reset := false)
  }

  function Apply(c: Codec, st: State, step: Step): State
    requires Enabled(c, st, step)
  {
    match step
    case Append(row) => st.(native := st.native + [row])
    case Commit(ok) => if ok then Committed(st) else st
    case RepairTurn =>
      if CountBroken(c, st.native) == 0 then st
      else st.(native := RepairRows(c, st.native), reset := true)
    case Crash => st.(at := Idle, reset := false)
    case Lose(rows) => st.(native := st.native[..rows])
    case BeginRestore =>
      if CountBroken(c, st.store) == 0 then st.(at := Hydrating)
      else st.(native := RepairRows(c, st.native), at := At.Repaired)
    case Republish(ok) => if ok then st.(store := RepairRows(c, st.store), at := Hydrating) else st.(at := Idle)
    case Hydrate(ok) =>
      if !Comparable(st.store, st.native) then st.(at := Idle, disagreed := true)
      else if |st.native| < |st.store| then
        if ok then st.(native := st.store, at := Running) else st.(at := Idle)
      else
        if ok then st.(store := st.native, at := Running) else st.(at := Idle)
  }

  predicate Runs(c: Codec, st: State, steps: seq<Step>)
    decreases |steps|
  {
    steps == [] || (Enabled(c, st, steps[0]) && Runs(c, Apply(c, st, steps[0]), steps[1..]))
  }

  function After(c: Codec, st: State, steps: seq<Step>): State
    requires Runs(c, st, steps)
    decreases |steps|
  {
    if steps == [] then st else After(c, Apply(c, st, steps[0]), steps[1..])
  }

  // ---- the invariant ----

  /** The two histories agree once repaired, and they agree as they are while the store holds no
      broken call: that is what repairing the native side first keeps. */
  predicate Inv(c: Codec, st: State) {
    && Comparable(RepairRows(c, st.store), RepairRows(c, st.native))
    && (Clean(c, st.store) ==> Comparable(st.store, st.native))
    && (st.at.Repaired? ==> Clean(c, st.native))
    && (st.at.Hydrating? ==> Clean(c, st.store))
    && (st.at.Running? ==>
          && RepairRows(c, st.store) <= RepairRows(c, st.native)
          && (Clean(c, st.store) ==> st.store <= st.native)
          && (!st.reset ==> st.store <= st.native))
    && !st.disagreed
  }

  lemma TruncatedIsComparable(a: seq<string>, b: seq<string>, n: nat)
    requires Comparable(a, b) && n <= |b|
    ensures Comparable(a, b[..n])
  {
    if a <= b && n <= |a| {
      assert b[..n] <= a;
    }
  }

  lemma CleanIsFixed(c: Codec, rows: seq<string>)
    requires Lawful(c) && Clean(c, rows)
    ensures RepairRows(c, rows) == rows
  {
    RepairedRows(c, rows);
  }

  lemma RunningKeepsInv(c: Codec, st: State, step: Step)
    requires Lawful(c) && Inv(c, st) && Enabled(c, st, step) && st.at.Running? && !step.Crash?
    ensures Inv(c, Apply(c, st, step))
  {
    var st' := Apply(c, st, step);
    match step
    case Append(row) => RepairKeepsPrefix(c, st.native, st'.native);
    case Commit(ok) =>
      if ok {
        assert st.store <= st.native ==> st.store + st.native[|st.store|..] == st.native;
        assert st'.store == st.native;
      }
    case RepairTurn =>
      CountIsChanged(c, st.native);
      RepairedRows(c, st.native);
      if Clean(c, st.store) {
        CleanIsFixed(c, st.store);
      }
  }

  lemma RestoringKeepsInv(c: Codec, st: State, step: Step)
    requires Lawful(c) && Inv(c, st) && Enabled(c, st, step) && !st.at.Running? && !step.Crash?
    ensures Inv(c, Apply(c, st, step))
  {
    var st' := Apply(c, st, step);
    match step
    case Lose(rows) =>
      assert RepairRows(c, st'.native) == RepairRows(c, st.native)[..rows];
      TruncatedIsComparable(RepairRows(c, st.store), RepairRows(c, st.native), rows);
      if Clean(c, st.store) {
        TruncatedIsComparable(st.store, st.native, rows);
      }
    case BeginRestore =>
      CountIsChanged(c, st.store);
      RepairedRows(c, st.native);
    case Republish(ok) =>
      RepairedRows(c, st.store);
      CleanIsFixed(c, st.native);
    case Hydrate(ok) =>
  }

  lemma StepKeepsInv(c: Codec, st: State, step: Step)
    requires Lawful(c) && Inv(c, st) && Enabled(c, st, step)
    ensures Inv(c, Apply(c, st, step))
  {
    if step.Crash? {
    } else if st.at.Running? {
      RunningKeepsInv(c, st, step);
    } else {
      RestoringKeepsInv(c, st, step);
    }
  }

  lemma {:induction false} RunKeepsInv(c: Codec, st: State, steps: seq<Step>)
    requires Lawful(c) && Inv(c, st) && Runs(c, st, steps)
    ensures Inv(c, After(c, st, steps))
    decreases |steps|
  {
    if steps == [] {
    } else {
      StepKeepsInv(c, st, steps[0]);
      RunKeepsInv(c, Apply(c, st, steps[0]), steps[1..]);
    }
  }

  // ---- what restoring promises ----

  /** Whatever turns, repairs, lost rollouts and crashes came before, at whichever point, a
      restore never finds the store and the rollout in disagreement. */
  lemma RestoreNeverDisagrees(c: Codec, steps: seq<Step>)
    requires Lawful(c) && Runs(c, Initial, steps)
    ensures var st := After(c, Initial, steps);
            !st.disagreed && (st.at.Hydrating? ==> Comparable(st.store, st.native))
  {
    RepairKeepsPrefix(c, [], []);
    RunKeepsInv(c, Initial, steps);
  }

  /** A run goes on with any step that is enabled where it stands. */
  lemma {:induction false} Extend(c: Codec, st: State, steps: seq<Step>, step: Step)
    requires Runs(c, st, steps) && Enabled(c, After(c, st, steps), step)
    ensures Runs(c, st, steps + [step]) && After(c, st, steps + [step]) == Apply(c, After(c, st, steps), step)
    decreases |steps|
  {
    if steps == [] {
      assert steps + [step] == [step] && [step][1..] == [];
      assert Runs(c, Apply(c, st, step), []);
    } else {
      assert (steps + [step])[1..] == steps[1..] + [step];
      Extend(c, Apply(c, st, steps[0]), steps[1..], step);
    }
  }

  lemma NoStepYet(c: Codec, st: State)
    ensures Runs(c, st, []) && After(c, st, []) == st
  {
  }

  /** A commit always leaves the store equal to the rollout. */
  lemma CommitMirrors(c: Codec, steps: seq<Step>)
    requires Lawful(c) && Runs(c, Initial, steps) && After(c, Initial, steps).at.Running?
    ensures Committed(After(c, Initial, steps)).store == After(c, Initial, steps).native
  {
    var st := After(c, Initial, steps);
    RepairKeepsPrefix(c, [], []);
    RunKeepsInv(c, Initial, steps);
    assert st.store <= st.native ==> st.store + st.native[|st.store|..] == st.native;
  }

  /** A running session appends a row and commits it: the store then is the rollout with the row,
      whatever repairs it owed. */
  lemma TurnIsMirrored(c: Codec, st: State, row: string)
    requires Lawful(c) && Inv(c, st) && st.at.Running?
    ensures Enabled(c, st, Append(row))
    ensures var st1 := Apply(c, st, Append(row));
            && Enabled(c, st1, Commit(true))
            && Apply(c, st1, Commit(true)) == State(st.native + [row], st.native + [row], false, Running, false)
  {
    RunningKeepsInv(c, st, Append(row));
    var rows := st.native + [row];
    assert st.store <= rows ==> st.store + rows[|st.store|..] == rows;
  }

  /** A repair during a turn rewrites every broken call of the rollout, and the next commit the
      store with it. */
  lemma TurnRepairIsMirrored(c: Codec, st: State)
    requires Lawful(c) && Inv(c, st) && st.at.Running?
    requires forall k | 0 <= k < |st.native| :: RowKind(c, st.native[k]).Some?
    ensures Enabled(c, st, RepairTurn)
    ensures var st1 := Apply(c, st, RepairTurn);
            && Enabled(c, st1, Commit(true))
            && Apply(c, st1, Commit(true)) == State(RepairRows(c, st.native), RepairRows(c, st.native), false, Running, false)
  {
    assert forall k | 0 <= k < |st.native| :: Decodes(c, st.native[k]);
    CountIsChanged(c, st.native);
    if CountBroken(c, st.native) == 0 {
      CleanIsFixed(c, st.native);
      assert st.store <= st.native ==> st.store + st.native[|st.store|..] == st.native;
    }
  }

  lemma CleanAfter(c: Codec, rows: seq<string>)
    requires Lawful(c)
    ensures Clean(c, RepairRows(c, rows))
  {
    RepairedRows(c, rows);
  }

  lemma HydrateAdopts(c: Codec, st: State)
    requires st.at.Hydrating? && Comparable(st.store, st.native) && Clean(c, st.store)
    ensures var st' := Apply(c, st, Hydrate(true));
            st'.at.Running? && st'.store == st'.native && (Clean(c, st'.native) <==> Clean(c, st.native))
  {
    if |st.native| < |st.store| {
      assert forall k | 0 <= k < |st.native| :: st.native[k] == st.store[k];
    }
  }

  /** A restore of a dirty store goes through, and leaves both sides equal and without a broken
      call. */
  lemma DirtyRestoreCleans(c: Codec, st: State)
    requires Lawful(c) && Inv(c, st) && st.at.Idle? && Enabled(c, st, BeginRestore) && !Clean(c, st.store)
    ensures var st1 := Apply(c, st, BeginRestore);
            st1.at.Repaired? &&
            var st2 := Apply(c, st1, Republish(true));
            st2.at.Hydrating? &&
            var st3 := Apply(c, st2, Hydrate(true));
            st3.at.Running? && st3.store == st3.native && Clean(c, st3.native)
  {
    CountIsChanged(c, st.store);
    CleanAfter(c, st.store);
    CleanAfter(c, st.native);
    var st1 := Apply(c, st, BeginRestore);
    assert st1 == st.(native := RepairRows(c, st.native), at := At.Repaired);
    var st2 := Apply(c, st1, Republish(true));
    HydrateAdopts(c, st2);
  }

  /** A restore of a clean store repairs nothing: it goes through, and what it leaves is clean
      exactly when the rollout was. */
  lemma CleanRestoreAdopts(c: Codec, st: State)
    requires Lawful(c) && Inv(c, st) && st.at.Idle? && Enabled(c, st, BeginRestore) && Clean(c, st.store)
    ensures var st1 := Apply(c, st, BeginRestore);
            st1.at.Hydrating? &&
            var st2 := Apply(c, st1, Hydrate(true));
            st2.at.Running? && st2.store == st2.native && (Clean(c, st2.native) <==> Clean(c, st.native))
  {
    CountIsChanged(c, st.store);
    HydrateAdopts(c, Apply(c, st, BeginRestore));
  }

  /** A restore can begin, and a repair during a turn, exactly when the session stands so and every
      row they look at decodes; a repair that finds nothing broken changes nothing. */
  lemma BeginsWhenRowsDecode(c: Codec, st: State)
    ensures Enabled(c, st, BeginRestore) <==>
              && st.at.Idle?
              && (forall k | 0 <= k < |st.store| :: RowKind(c, st.store[k]).Some?)
              && (forall k | 0 <= k < |st.native| :: RowKind(c, st.native[k]).Some?)
    ensures Enabled(c, st, RepairTurn) <==>
              st.at.Running? && forall k | 0 <= k < |st.native| :: RowKind(c, st.native[k]).Some?
  {
    forall k | 0 <= k < |st.store| && Decodes(c, st.store[k]) ensures RowKind(c, st.store[k]).Some? {
    }
  }

  /** What fails changes neither history: a commit leaves the session running, a republication or an
      adoption ends the restore. Histories that disagree end it too, and are kept apart. */
  lemma FailuresKeepBoth(c: Codec, st: State, ok: bool)
    ensures st.at == Running ==> Enabled(c, st, Commit(ok)) && Apply(c, st, Commit(false)) == st
    ensures st.at == At.Repaired ==>
              Enabled(c, st, Republish(ok)) && Apply(c, st, Republish(false)) == State(st.store, st.native, st.reset, Idle, st.disagreed)
    ensures st.at == Hydrating ==> Enabled(c, st, Hydrate(ok))
    ensures st.at == Hydrating && (st.store <= st.native || st.native <= st.store) ==>
              Apply(c, st, Hydrate(false)) == State(st.store, st.native, st.reset, Idle, st.disagreed)
    ensures st.at == Hydrating && !(st.store <= st.native) && !(st.native <= st.store) ==>
              Apply(c, st, Hydrate(ok)) == State(st.store, st.native, st.reset, Idle, true)
  {
  }

  /** A repair during a turn that finds no broken call changes nothing, so nothing is republished. */
  lemma NothingToRepair(c: Codec, st: State)
    requires Lawful(c) && Enabled(c, st, RepairTurn) && forall k | 0 <= k < |st.native| :: !Broken(c, st.native[k])
    ensures Apply(c, st, RepairTurn) == st
  {
    CountIsChanged(c, st.native);
    RepairedRows(c, st.native);
  }

  /** A crash may come at any time and keeps both histories; a rollout may be shorter when it is found
      again, and only then. */
  lemma CrashKeepsBoth(c: Codec, st: State, rows: nat)
    ensures Enabled(c, st, Crash) && Apply(c, st, Crash) == State(st.store, st.native, false, Idle, st.disagreed)
    ensures Enabled(c, st, Lose(rows)) <==> st.at == Idle && rows <= |st.native|
    ensures Enabled(c, st, Lose(rows)) ==> Apply(c, st, Lose(rows)) == st.(native := st.native[..rows])
  {
  }

  /** Repairing the store first would not do: a crash before the native side was repaired leaves
      a clean store that the rollout contradicts, and the next restore repairs nothing. */
  lemma StoreFirstWouldDisagree(c: Codec, row: string)
    requires Lawful(c) && Broken(c, row)
    ensures var crashed := State([RepairRow(c, row)], [row], false, Idle, false);
            && Comparable(RepairRows(c, crashed.store), RepairRows(c, crashed.native))
            && Enabled(c, crashed, BeginRestore)
            && var st := Apply(c, crashed, BeginRestore);
               st.at.Hydrating? && Apply(c, st, Hydrate(true)).disagreed
  {
    var crashed := State([RepairRow(c, row)], [row], false, Idle, false);
    RepairedRow(c, row);
    assert RepairRows(c, crashed.store) == [RepairRow(c, row)] == RepairRows(c, crashed.native);
    CountIsChanged(c, crashed.store);
  }
}
