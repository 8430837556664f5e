/** Whole requests on the session table, from every state that can take them: a new session, a
    restore, a delete and the agent's close, each by its own steps. */
module RegistryRequests {
  import opened Registry

  lemma {:induction false} RunOn(st: State, first: seq<Step>, more: seq<Step>)
    requires Runs(st, first) && Runs(After(st, first), more)
    ensures Runs(st, first + more) && After(st, first + more) == After(After(st, first), more)
    decreases |first|
  {
    if first == [] {
      assert first + more == more;
    } else {
      assert (first + more)[1..] == first[1..] + more;
      RunOn(Apply(st, first[0]), first[1..], more);
    }
  }

  lemma One(st: State, a: Step)
    requires Enabled(st, a)
    ensures Runs(st, [a]) && After(st, [a]) == Apply(st, a)
  {
    assert [a][1..] == [] && Runs(Apply(st, a), []);
    assert After(st, [a]) == After(Apply(st, a), []) == Apply(st, a);
  }

  lemma Pair(st: State, a: Step, b: Step)
    requires Enabled(st, a) && Enabled(Apply(st, a), b)
    ensures Runs(st, [a, b]) && After(st, [a, b]) == Apply(Apply(st, a), b)
  {
    One(Apply(st, a), b);
    assert [a, b][1..] == [b];
  }

  lemma Triple(st: State, a: Step, b: Step, c: Step)
    requires Enabled(st, a) && Enabled(Apply(st, a), b) && Enabled(Apply(Apply(st, a), b), c)
    ensures Runs(st, [a, b, c]) && After(st, [a, b, c]) == Apply(Apply(Apply(st, a), b), c)
  {
    Pair(Apply(st, a), b, c);
    assert [a, b, c][1..] == [b, c];
  }

  // ---- establishing ----

  function Building(r: nat, id: Id): seq<Step> {
    [RequestStep(r, Reserve), RequestStep(r, Build(id)), RequestStep(r, RequestMove.Install)]
  }

  function Handover(r: nat): seq<Step> {
    [RequestStep(r, HandOver), RequestStep(r, Establish(true))]
  }

  function Establishing(r: nat, id: Id): seq<Step> {
    Building(r, id) + Handover(r)
  }

  /** The agent takes one more session, under an id it neither has nor has deleted. */
  predicate HasRoom(st: State, id: Id) {
    && !st.agent.closed && |st.agent.sessions| + st.agent.starting < st.max
    && id !in st.agent.deleted && id !in st.agent.sessions
  }

  /** The state once the request has established a session under the id. */
  function Established(st: State, r: nat, id: Id): State
    requires r < |st.requests|
  {
    var x, a := st.requests[r], st.agent;
    st.(requests := st.requests[r := Request(x.ephemeral, Released, x.releases + 1, Over)],
        agent := a.(sessions := a.sessions[id := st.next], ephemeral := if x.ephemeral then a.ephemeral + {id} else a.ephemeral),
        next := st.next + 1)
  }

  lemma Builds(st: State, r: nat, id: Id)
    requires r < |st.requests| && st.requests[r].at == Asking && st.requests[r].slot == NotReserved && HasRoom(st, id)
    ensures Runs(st, Building(r, id))
    ensures var x, a := st.requests[r], st.agent;
            After(st, Building(r, id)) ==
              st.(requests := st.requests[r := Request(x.ephemeral, Held, x.releases, Handing(id, st.next))],
                  agent := a.(sessions := a.sessions[id := st.next], starting := a.starting + 1,
                              ephemeral := if x.ephemeral then a.ephemeral + {id} else a.ephemeral),
                  next := st.next + 1)
  {
    Triple(st, RequestStep(r, Reserve), RequestStep(r, Build(id)), RequestStep(r, RequestMove.Install));
  }

  lemma HandsOver(st: State, r: nat)
    requires r < |st.requests| && st.requests[r].at.Handing? && st.requests[r].slot == Held
    ensures Runs(st, Handover(r))
    ensures var x := st.requests[r];
            After(st, Handover(r)) ==
              st.(requests := st.requests[r := Request(x.ephemeral, Released, x.releases + 1, Over)],
                  agent := st.agent.(starting := st.agent.starting - 1))
  {
    Pair(st, RequestStep(r, HandOver), RequestStep(r, Establish(true)));
  }

  lemma HandedOver(st: State, st3: State, r: nat, id: Id)
    requires r < |st.requests| && r < |st3.requests|
    requires var x, a := st.requests[r], st.agent;
             st3 ==
               st.(requests := st.requests[r := Request(x.ephemeral, Held, x.releases, Handing(id, st.next))],
                   agent := a.(sessions := a.sessions[id := st.next], starting := a.starting + 1,
                               ephemeral := if x.ephemeral then a.ephemeral + {id} else a.ephemeral),
                   next := st.next + 1)
    ensures var x := st3.requests[r];
            st3.(requests := st3.requests[r := Request(x.ephemeral, Released, x.releases + 1, Over)],
                 agent := st3.agent.(starting := st3.agent.starting - 1)) == Established(st, r, id)
  {
  }

  /** A request that asks for a slot while there is room establishes its session: the id resolves
      to it, the slot is given back once, and nothing else changes. */
  lemma RequestEstablishes(st: State, r: nat, id: Id)
    requires r < |st.requests| && st.requests[r].at == Asking && st.requests[r].slot == NotReserved && HasRoom(st, id)
    ensures Runs(st, Establishing(r, id)) && After(st, Establishing(r, id)) == Established(st, r, id)
  {
    Builds(st, r, id);
    var st3 := After(st, Building(r, id));
    HandsOver(st3, r);
    RunOn(st, Building(r, id), Handover(r));
    HandedOver(st, st3, r, id);
  }

  /** A new session is installed whenever there is room. */
  lemma NewSessionIsInstalled(st: State, ephemeral: bool, id: Id)
    requires HasRoom(st, id)
    ensures var r := |st.requests|;
            var steps := [OtherStep(AskNew(ephemeral))] + Establishing(r, id);
            && Runs(st, steps)
            && After(st, steps) == Established(st.(requests := st.requests + [Request(ephemeral, NotReserved, 0, Asking)]), r, id)
  {
    var ask := OtherStep(AskNew(ephemeral));
    One(st, ask);
    RequestEstablishes(Apply(st, ask), |st.requests|, id);
    RunOn(st, [ask], Establishing(|st.requests|, id));
  }

  /** A request a closed or full agent refuses is over, and changes nothing. */
  lemma RefusedIsOver(st: State, ephemeral: bool)
    requires st.agent.closed || |st.agent.sessions| + st.agent.starting >= st.max
    ensures var steps := [OtherStep(AskNew(ephemeral)), RequestStep(|st.requests|, Reserve)];
            && Runs(st, steps)
            && After(st, steps) == st.(requests := st.requests + [Request(ephemeral, NotReserved, 0, Over)])
  {
    Pair(st, OtherStep(AskNew(ephemeral)), RequestStep(|st.requests|, Reserve));
  }

  // ---- restoring ----

  /** What a restore finds: a deleted id is refused, the live session of the same carrier is the
      answer, that of another one is closed first, and else a slot is asked for. */
  lemma RestoreLooks(st: State, id: Id, same: bool)
    ensures var steps := [OtherStep(AskRestore(id)), RequestStep(|st.requests|, Look(same))];
            && Runs(st, steps)
            && After(st, steps) ==
                 st.(requests := st.requests + [Request(false, NotReserved, 0,
                   if id in st.agent.deleted then Over
                   else if id !in st.agent.sessions then Asking
                   else if same then Over
                   else Replacing(id, st.agent.sessions[id]))])
  {
    Pair(st, OtherStep(AskRestore(id)), RequestStep(|st.requests|, Look(same)));
  }

  /** A live session is closed before another takes its place: its slot is free, and its id. A close
      that fails ends the request. */
  lemma ReplacedIsClosed(st: State, r: nat, ok: bool)
    requires r < |st.requests| && st.requests[r].at.Replacing? && st.requests[r].slot == NotReserved
    ensures var x := st.requests[r];
            var id, live := x.at.id, x.at.live;
            var ours := id in st.agent.sessions && st.agent.sessions[id] == live;
            && Runs(st, [RequestStep(r, Replace(ok))])
            && After(st, [RequestStep(r, Replace(ok))]) ==
                 st.(requests := st.requests[r := x.(at := if ok then Asking else Over)],
                     agent := st.agent.(sessions := if ours then st.agent.sessions - {id} else st.agent.sessions))
  {
    One(st, RequestStep(r, Replace(ok)));
  }

  /** A session that was installed and whose opening failed is taken out again. */
  lemma FailedIsUndone(st: State, r: nat)
    requires r < |st.requests| && st.requests[r].at.Opening? && st.requests[r].slot == Released
    ensures var x := st.requests[r];
            var id, session := x.at.id, x.at.session;
            var ours := id in st.agent.sessions && st.agent.sessions[id] == session;
            var steps := [RequestStep(r, Establish(false)), RequestStep(r, Undo)];
            && Runs(st, steps)
            && After(st, steps) ==
                 st.(requests := st.requests[r := x.(at := Over)],
                     agent := st.agent.(sessions := if ours then st.agent.sessions - {id} else st.agent.sessions))
  {
    Pair(st, RequestStep(r, Establish(false)), RequestStep(r, Undo));
  }

  /** A request that fails on its way, or was refused its install, gives its slot back and is over. */
  lemma FailureGivesBack(st: State, r: nat)
    requires r < |st.requests| && (st.requests[r].at.Asking? || st.requests[r].at.Building? || st.requests[r].at.Refused?)
    ensures var x := st.requests[r];
            && Runs(st, [RequestStep(r, Fail)])
            && After(st, [RequestStep(r, Fail)]) ==
                 if x.slot == Held
                 then st.(requests := st.requests[r := Request(x.ephemeral, Released, x.releases + 1, Over)],
                          agent := st.agent.(starting := st.agent.starting - 1))
                 else st.(requests := st.requests[r := x.(at := Over)])
  {
    One(st, RequestStep(r, Fail));
  }

  // ---- deleting ----

  /** A delete's own steps: an ephemeral session has no store to delete from, and only a live one
      is closed. */
  function Deleting(d: nat, ephemeral: bool, live: bool): seq<Step> {
    (if ephemeral then [] else [DeleteStep(d, StoreDelete(true))])
    + ([DeleteStep(d, Mark)] + (if live then [DeleteStep(d, DeleteMove.Finish)] else []))
  }

  lemma MarksAndCloses(st: State, d: nat)
    requires d < |st.deletes| && st.deletes[d].at == Marking
    ensures var id, a := st.deletes[d].id, st.agent;
            var steps := [DeleteStep(d, Mark)] + (if id in a.sessions then [DeleteStep(d, DeleteMove.Finish)] else []);
            && Runs(st, steps)
            && After(st, steps) ==
                 st.(deletes := st.deletes[d := Delete(id, Deleted)],
                     agent := a.(sessions := a.sessions - {id}, deleted := a.deleted + {id}, ephemeral := a.ephemeral - {id}))
  {
    var id, a := st.deletes[d].id, st.agent;
    if id in a.sessions {
      Pair(st, DeleteStep(d, Mark), DeleteStep(d, DeleteMove.Finish));
      assert [DeleteStep(d, Mark)] + [DeleteStep(d, DeleteMove.Finish)] == [DeleteStep(d, Mark), DeleteStep(d, DeleteMove.Finish)];
    } else {
      One(st, DeleteStep(d, Mark));
      assert [DeleteStep(d, Mark)] + [] == [DeleteStep(d, Mark)];
      assert a.sessions - {id} == a.sessions;
    }
  }

  /** A delete leaves the id deleted, without a session, and not among the ephemeral ones; an
      ephemeral session is not looked for in the store; nothing else changes. */
  lemma DeleteTakesOut(st: State, id: Id)
    ensures var d, a := |st.deletes|, st.agent;
            var steps := [OtherStep(AskDelete(id))] + Deleting(d, id in a.ephemeral, id in a.sessions);
            && Runs(st, steps)
            && After(st, steps) ==
                 st.(deletes := st.deletes + [Delete(id, Deleted)],
                     agent := a.(sessions := a.sessions - {id}, deleted := a.deleted + {id}, ephemeral := a.ephemeral - {id}))
    ensures Resolved(Tombstoned(st.agent, id), id).Err?
  {
    var d, a, ask := |st.deletes|, st.agent, OtherStep(AskDelete(id));
    One(st, ask);
    var st1 := Apply(st, ask);
    var st2 := st.(deletes := st.deletes + [Delete(id, Marking)]);
    var store := if id in a.ephemeral then [] else [DeleteStep(d, StoreDelete(true))];
    if id in a.ephemeral {
      assert st1 == st2;
    } else {
      One(st1, DeleteStep(d, StoreDelete(true)));
      assert st1.deletes[d := Delete(id, Marking)] == st2.deletes;
    }
    MarksAndCloses(st2, d);
    var rest := [DeleteStep(d, Mark)] + (if id in a.sessions then [DeleteStep(d, DeleteMove.Finish)] else []);
    RunOn(st1, store, rest);
    RunOn(st, [ask], Deleting(d, id in a.ephemeral, id in a.sessions));
    assert st2.deletes[d := Delete(id, Deleted)] == st.deletes + [Delete(id, Deleted)];
  }

  /** A delete whose store refuses it changes nothing. */
  lemma FailedDeleteChangesNothing(st: State, d: nat)
    requires d < |st.deletes| && st.deletes[d].at == Storing
    ensures var one := DeleteStep(d, StoreDelete(false));
            && Runs(st, [one])
            && After(st, [one]) == st.(deletes := st.deletes[d := Delete(st.deletes[d].id, GaveUp)])
  {
    One(st, DeleteStep(d, StoreDelete(false)));
  }

  // ---- closing ----

  /** A session's own close takes it out of the table, whenever it still is the id's. */
  lemma CloseTakesOut(st: State, id: Id, session: nat)
    ensures var one, a := OtherStep(CloseOne(id, session)), st.agent;
            && Runs(st, [one])
            && After(st, [one]) ==
                 st.(agent := a.(sessions := if id in a.sessions && a.sessions[id] == session then a.sessions - {id} else a.sessions))
  {
    One(st, OtherStep(CloseOne(id, session)));
  }

  /** The rest of a close takes every session out that is still to be closed, and ends. */
  lemma {:induction false} ClosesTheRest(st: State) returns (steps: seq<Step>)
    requires st.shutdown.ClosingAll?
    requires forall id | id in st.shutdown.todo :: id in st.agent.sessions && st.agent.sessions[id] == st.shutdown.todo[id]
    ensures Runs(st, steps)
    ensures After(st, steps) ==
              st.(shutdown := Shut, agent := st.agent.(sessions := st.agent.sessions - st.shutdown.todo.Keys))
    decreases |st.shutdown.todo|
  {
    var todo := st.shutdown.todo;
    if id :| id in todo {
      var one := OtherStep(CloseNext(id));
      One(st, one);
      assert (todo - {id}).Keys == todo.Keys - {id};
      var more := ClosesTheRest(Apply(st, one));
      RunOn(st, [one], more);
      steps := [one] + more;
      assert st.agent.sessions - {id} - (todo - {id}).Keys == st.agent.sessions - todo.Keys;
    } else {
      assert todo == map[];
      One(st, OtherStep(CloseEnds));
      steps := [OtherStep(CloseEnds)];
      assert st.agent.sessions - todo.Keys == st.agent.sessions;
    }
  }

  /** The agent's close closes every session of the table and ends with an empty one. */
  lemma CloseEmptiesTheTable(st: State) returns (steps: seq<Step>)
    requires st.shutdown == Open
    ensures Runs(st, steps)
    ensures After(st, steps) == st.(shutdown := Shut, agent := st.agent.(closed := true, sessions := map[]))
  {
    var one := OtherStep(CloseAll);
    One(st, one);
    var more := ClosesTheRest(Apply(st, one));
    RunOn(st, [one], more);
    steps := [one] + more;
    assert st.agent.sessions - st.agent.sessions.Keys == map[];
  }

  /** Requests, deletes and closes may come at any time; the agent's close runs once, and ends only
      when it has closed every session it found. */
  lemma OthersCanAlways(st: State, ephemeral: bool, id: Id, session: nat)
    ensures Enabled(st, OtherStep(AskNew(ephemeral))) && Enabled(st, OtherStep(AskRestore(id)))
    ensures Enabled(st, OtherStep(AskDelete(id))) && Enabled(st, OtherStep(CloseOne(id, session)))
    ensures Enabled(st, OtherStep(CloseAll)) <==> st.shutdown == Open
    ensures Enabled(st, OtherStep(CloseNext(id))) <==> st.shutdown.ClosingAll? && id in st.shutdown.todo
    ensures Enabled(st, OtherStep(CloseEnds)) <==> st.shutdown == ClosingAll(map[])
  {
  }
}
