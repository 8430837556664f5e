/** What the session table promises, for every run of any requests. */
module RegistryTheorems {
  import opened Wrappers
  import opened Registry

  // ---- counting slots ----

  predicate Holds(x: Request) {
    x.slot.Held?
  }

  /** Holds a slot for a session that is not installed. */
  predicate Pends(x: Request) {
    x.slot.Held? && !x.at.Handing?
  }

  function Count(requests: seq<Request>, p: Request -> bool): nat {
    if requests == [] then 0 else (if p(requests[0]) then 1 else 0) + Count(requests[1..], p)
  }

  lemma {:induction false} CountSet(requests: seq<Request>, p: Request -> bool, r: nat, x: Request)
    requires r < |requests|
    ensures Count(requests[r := x], p) == Count(requests, p) - (if p(requests[r]) then 1 else 0) + (if p(x) then 1 else 0)
  {
    if r == 0 {
      assert requests[r := x][1..] == requests[1..];
    } else {
      assert requests[r := x][1..] == requests[1..][r - 1 := x];
      CountSet(requests[1..], p, r - 1, x);
    }
  }

  lemma {:induction false} CountAdd(requests: seq<Request>, p: Request -> bool, x: Request)
    ensures Count(requests + [x], p) == Count(requests, p) + (if p(x) then 1 else 0)
  {
    if requests == [] {
      assert requests + [x] == [x];
    } else {
      assert (requests + [x])[1..] == requests[1..] + [x];
      CountAdd(requests[1..], p, x);
    }
  }

  lemma {:induction false} CountNone(requests: seq<Request>, p: Request -> bool)
    requires forall r | 0 <= r < |requests| :: !p(requests[r])
    ensures Count(requests, p) == 0
  {
    if requests == [] {
    } else {
      CountNone(requests[1..], p);
    }
  }

  /** Both counts after one request changed. */
  lemma CountsSet(requests: seq<Request>, r: nat, x: Request)
    requires r < |requests|
    ensures Count(requests[r := x], Holds) == Count(requests, Holds) - (if Holds(requests[r]) then 1 else 0) + (if Holds(x) then 1 else 0)
    ensures Count(requests[r := x], Pends) == Count(requests, Pends) - (if Pends(requests[r]) then 1 else 0) + (if Pends(x) then 1 else 0)
  {
    CountSet(requests, Holds, r, x);
    CountSet(requests, Pends, r, x);
  }

  // ---- the invariant ----

  predicate SlotsOk(st: State) {
    && st.agent.starting == Count(st.requests, Holds)
    && |st.agent.sessions| + Count(st.requests, Pends) <= st.max
  }

  predicate RequestOk(x: Request) {
    match x.slot
    case NotReserved => x.releases == 0 && (x.at.Looking? || x.at.Replacing? || x.at.Asking? || x.at.Over?)
    case Held => x.releases == 0 && (x.at.Building? || x.at.Installing? || x.at.Handing? || x.at.Refused?)
    case Released => x.releases == 1 && (x.at.Opening? || x.at.Undoing? || x.at.Over?)
  }

  predicate RequestsOk(st: State) {
    forall r | 0 <= r < |st.requests| :: RequestOk(st.requests[r])
  }

  predicate Within(m: map<Id, nat>, m': map<Id, nat>) {
    forall id | id in m :: id in m' && m'[id] == m[id]
  }

  predicate ShutdownOk(st: State) {
    match st.shutdown
    case Open => !st.agent.closed
    case ClosingAll(todo) => st.agent.closed && Within(st.agent.sessions, todo)
    case Shut => st.agent.closed && st.agent.sessions == map[]
  }

  /** After its tombstone a delete leaves nothing but the session it found under its id. */
  predicate DeleteOk(a: Agent, x: Delete) {
    && (x.at.Closing? || x.at.Deleted? ==> x.id in a.deleted)
    && (x.at.Closing? && x.id in a.sessions ==> a.sessions[x.id] == x.at.session)
    && (x.at.Deleted? ==> x.id !in a.sessions)
  }

  predicate DeletesOk(st: State) {
    forall d | 0 <= d < |st.deletes| :: DeleteOk(st.agent, st.deletes[d])
  }

  predicate Inv(st: State) {
    SlotsOk(st) && RequestsOk(st) && ShutdownOk(st) && DeletesOk(st)
  }

  // ---- what a step may do to the table ----

  /** Nothing new under a deleted id, nothing new at all once closed, no tombstone taken back. */
  predicate GoesOn(a: Agent, a': Agent) {
    && a.deleted <= a'.deleted
    && (a.closed ==> a'.closed && Within(a'.sessions, a.sessions))
    && forall id | id in a'.sessions && id in a.deleted :: id in a.sessions && a'.sessions[id] == a.sessions[id]
  }

  lemma RequestGoesOn(st: State, r: nat, move: RequestMove)
    requires RequestCan(st, r, move)
    ensures GoesOn(st.agent, RequestDoes(st, r, move).agent)
  {
  }

  lemma StepGoesOn(st: State, step: Step)
    requires Enabled(st, step)
    ensures GoesOn(st.agent, Apply(st, step).agent) && Apply(st, step).max == st.max
  {
    if step.RequestStep? {
      RequestGoesOn(st, step.r, step.request);
    }
  }

  lemma DeletesStand(a: Agent, a': Agent, x: Delete)
    requires GoesOn(a, a') && DeleteOk(a, x)
    ensures DeleteOk(a', x)
  {
  }

  lemma StepKeepsDeletes(st: State, step: Step)
    requires DeletesOk(st) && Enabled(st, step)
    ensures DeletesOk(Apply(st, step))
  {
    var st' := Apply(st, step);
    StepGoesOn(st, step);
    forall d | 0 <= d < |st'.deletes| ensures DeleteOk(st'.agent, st'.deletes[d]) {
      if d < |st.deletes| {
        assert DeleteOk(st.agent, st.deletes[d]);
        DeletesStand(st.agent, st'.agent, st.deletes[d]);
      }
    }
  }

  lemma StepKeepsShutdown(st: State, step: Step)
    requires ShutdownOk(st) && Enabled(st, step)
    ensures ShutdownOk(Apply(st, step))
  {
    StepGoesOn(st, step);
    assert Apply(st, step).agent.closed ==> st.agent.closed || step == OtherStep(CloseAll);
  }

  lemma RequestKeepsRequest(st: State, s: nat, move: RequestMove, r: nat)
    requires RequestCan(st, s, move) && r < |st.requests| && RequestOk(st.requests[s]) && RequestOk(st.requests[r])
    ensures |RequestDoes(st, s, move).requests| == |st.requests| && RequestOk(RequestDoes(st, s, move).requests[r])
  {
  }

  lemma StepKeepsRequests(st: State, step: Step)
    requires RequestsOk(st) && Enabled(st, step)
    ensures RequestsOk(Apply(st, step))
  {
    var st' := Apply(st, step);
    forall r | 0 <= r < |st'.requests| ensures RequestOk(st'.requests[r]) {
      if step.RequestStep? {
        assert RequestOk(st.requests[step.r]) && RequestOk(st.requests[r]);
        RequestKeepsRequest(st, step.r, step.request, r);
      } else if r < |st.requests| {
        assert RequestOk(st.requests[r]) && st'.requests[r] == st.requests[r];
      }
    }
  }

  lemma DetachedSize(a: Agent, id: Id, session: nat)
    ensures |Detached(a, id, session).sessions| <= |a.sessions|
  {
    assert (a.sessions - {id}).Keys == a.sessions.Keys - {id};
    assert |(a.sessions - {id}).Keys| <= |a.sessions.Keys|;
  }

  lemma {:induction false} CountPending(requests: seq<Request>)
    ensures Count(requests, Pends) <= Count(requests, Holds)
  {
    if requests == [] {
    } else {
      CountPending(requests[1..]);
    }
  }

  lemma RequestKeepsSlots(st: State, r: nat, move: RequestMove)
    requires SlotsOk(st) && RequestCan(st, r, move) && RequestOk(st.requests[r])
    ensures SlotsOk(RequestDoes(st, r, move))
  {
    var st', x := RequestDoes(st, r, move), st.requests[r];
    assert st'.requests == st.requests[r := st'.requests[r]];
    CountsSet(st.requests, r, st'.requests[r]);
    if move.Replace? {
      DetachedSize(st.agent, x.at.id, x.at.live);
    } else if move.Undo? {
      DetachedSize(st.agent, x.at.id, x.at.session);
    }
    CountPending(st.requests);
  }

  lemma Added(requests: seq<Request>, x: Request)
    requires x.slot.NotReserved?
    ensures Count(requests + [x], Holds) == Count(requests, Holds)
    ensures Count(requests + [x], Pends) == Count(requests, Pends)
  {
    CountAdd(requests, Holds, x);
    CountAdd(requests, Pends, x);
  }

  lemma StepKeepsSlots(st: State, step: Step)
    requires SlotsOk(st) && RequestsOk(st) && Enabled(st, step)
    ensures SlotsOk(Apply(st, step))
  {
    match step
    case RequestStep(r, move) => RequestKeepsSlots(st, r, move);
    case DeleteStep(d, move) =>
      if move.Finish? {
        DetachedSize(st.agent, st.deletes[d].id, st.deletes[d].at.session);
      }
    case OtherStep(move) =>
      match move {
        case AskNew(ephemeral) => Added(st.requests, Request(ephemeral, NotReserved, 0, Asking));
        case AskRestore(id) => Added(st.requests, Request(false, NotReserved, 0, Looking(id)));
        case CloseOne(id, session) => DetachedSize(st.agent, id, session);
        case CloseNext(id) => DetachedSize(st.agent, id, st.shutdown.todo[id]);
        case _ =>
      }
  }

  lemma StepKeepsInv(st: State, step: Step)
    requires Inv(st) && Enabled(st, step)
    ensures Inv(Apply(st, step))
  {
    StepKeepsSlots(st, step);
    StepKeepsRequests(st, step);
    StepKeepsShutdown(st, step);
    StepKeepsDeletes(st, step);
  }

  lemma {:induction false} RunKeepsInv(st: State, steps: seq<Step>)
    requires Inv(st) && Runs(st, steps)
    ensures Inv(After(st, steps))
    decreases |steps|
  {
    if steps == [] {
    } else {
      StepKeepsInv(st, steps[0]);
      RunKeepsInv(Apply(st, steps[0]), steps[1..]);
    }
  }

  lemma {:induction false} RunGoesOn(st: State, steps: seq<Step>)
    requires Runs(st, steps)
    ensures GoesOn(st.agent, After(st, steps).agent) && After(st, steps).max == st.max
    decreases |steps|
  {
    if steps == [] {
    } else {
      StepGoesOn(st, steps[0]);
      RunGoesOn(Apply(st, steps[0]), steps[1..]);
    }
  }

  lemma ReachableInv(max: nat, steps: seq<Step>)
    requires Runs(Initial(max), steps)
    ensures Inv(After(Initial(max), steps)) && After(Initial(max), steps).max == max
  {
    RunKeepsInv(Initial(max), steps);
    RunGoesOn(Initial(max), steps);
  }

  // ---- slots ----

  /** Installed sessions and reservations whose session is not installed yet never exceed the
      limit, and `starting` counts exactly the reservations not given back. */
  lemma SlotsNeverExceeded(max: nat, steps: seq<Step>)
    requires Runs(Initial(max), steps)
    ensures var st := After(Initial(max), steps);
            && |st.agent.sessions| + Count(st.requests, Pends) <= max
            && st.agent.starting == Count(st.requests, Holds)
  {
    ReachableInv(max, steps);
  }

  /** Every reservation is given back exactly once, on whichever path its request ends. */
  lemma ReleasedOnce(max: nat, steps: seq<Step>, r: nat)
    requires Runs(Initial(max), steps) && r < |After(Initial(max), steps).requests|
    ensures var x := After(Initial(max), steps).requests[r];
            && x.releases <= 1
            && (x.at.Over? ==> if x.slot.NotReserved? then x.releases == 0 else x.releases == 1)
            && (x.releases == 1 ==> x.at.Opening? || x.at.Undoing? || x.at.Over?)
  {
    ReachableInv(max, steps);
    assert RequestOk(After(Initial(max), steps).requests[r]);
  }

  /** Once no establishing request is under way, a slot is refused only for a full table. */
  lemma NoSlotLeaks(max: nat, steps: seq<Step>)
    requires Runs(Initial(max), steps)
    requires forall r | 0 <= r < |After(Initial(max), steps).requests| :: After(Initial(max), steps).requests[r].at.Over?
    ensures var a := After(Initial(max), steps).agent;
            && a.starting == 0
            && (ReserveRefusal(a, max) == Some(Backpressure) <==> !a.closed && |a.sessions| == max)
  {
    ReachableInv(max, steps);
    var st := After(Initial(max), steps);
    forall r | 0 <= r < |st.requests| ensures !Holds(st.requests[r]) {
      assert RequestOk(st.requests[r]);
    }
    CountNone(st.requests, Holds);
  }

  /** Installing and handing over move a slot from the reservation to the session: neither frees
      one nor takes a second, unless a detach came between. */
  lemma HandedOverWithoutGap(st: State, r: nat, move: RequestMove)
    requires RequestCan(st, r, move) && RequestOk(st.requests[r]) && (move.Install? || move.HandOver?)
    ensures var st' := RequestDoes(st, r, move);
            |st'.agent.sessions| + Count(st'.requests, Pends) == |st.agent.sessions| + Count(st.requests, Pends)
  {
    var st' := RequestDoes(st, r, move);
    assert st'.requests == st.requests[r := st'.requests[r]];
    CountsSet(st.requests, r, st'.requests[r]);
  }

  // ---- tombstones and close ----

  /** After the tombstone nothing is installed under the id, and it never resolves again. */
  lemma TombstoneWins(st: State, more: seq<Step>, id: Id)
    requires Runs(st, more) && id in st.agent.deleted
    ensures var a, a' := st.agent, After(st, more).agent;
            && id in a'.deleted && Resolved(a', id).Err?
            && (id in a'.sessions ==> id in a.sessions && a'.sessions[id] == a.sessions[id])
  {
    RunGoesOn(st, more);
  }

  /** Once a delete has detached its session, the id is out of the table for good. */
  lemma DeletedStaysGone(max: nat, steps: seq<Step>, more: seq<Step>, d: nat)
    requires Runs(Initial(max), steps) && Runs(After(Initial(max), steps), more)
    requires d < |After(Initial(max), steps).deletes| && After(Initial(max), steps).deletes[d].at.Deleted?
    ensures var id := After(Initial(max), steps).deletes[d].id;
            id !in After(After(Initial(max), steps), more).agent.sessions
  {
    ReachableInv(max, steps);
    assert DeleteOk(After(Initial(max), steps).agent, After(Initial(max), steps).deletes[d]);
    RunGoesOn(After(Initial(max), steps), more);
  }

  /** Close leaves the table empty, and it stays so. */
  lemma ClosedStaysEmpty(max: nat, steps: seq<Step>, more: seq<Step>, id: Id)
    requires Runs(Initial(max), steps) && Runs(After(Initial(max), steps), more)
    requires After(Initial(max), steps).shutdown.Shut?
    ensures var a := After(After(Initial(max), steps), more).agent;
            a.sessions == map[] && Resolved(a, id) == Err(AgentClosed) && ReserveRefusal(a, max) == Some(AgentClosed)
  {
    ReachableInv(max, steps);
    RunGoesOn(After(Initial(max), steps), more);
  }

  /** No step puts another session in the place of one that is there. */
  lemma NeverReplaced(st: State, step: Step, id: Id)
    requires Enabled(st, step) && id in st.agent.sessions && id in Apply(st, step).agent.sessions
    ensures Apply(st, step).agent.sessions[id] == st.agent.sessions[id]
  {
    if step.RequestStep? {
      assert step.request.Install? ==> InstallRefusal(st.agent, st.requests[step.r].at.id).Some? || st.requests[step.r].at.id != id;
    }
  }

  // ---- look-ups ----

  /** An id resolves exactly while the agent is open, a session is installed under it and it was
      not deleted, and then to that session. */
  lemma ResolvesExactly(a: Agent, id: Id)
    ensures Resolved(a, id).Ok? <==> !a.closed && id in a.sessions && id !in a.deleted
    ensures Resolved(a, id).Ok? ==> Resolved(a, id).value == a.sessions[id]
    ensures Resolved(a, id).Err? ==> Resolved(a, id).error == if a.closed then AgentClosed else UnknownSession
  {
  }

  /** The step takes this session off its id: a replacing restore, an undone request, a delete's
      end, a close of the session, or the agent's close going through its sessions. */
  predicate DetachesIt(st: State, step: Step, id: Id, session: nat)
    requires Enabled(st, step)
  {
    match step
    case RequestStep(r, move) =>
      || (move.Replace? && st.requests[r].at.id == id && st.requests[r].at.live == session)
      || (move.Undo? && st.requests[r].at.id == id && st.requests[r].at.session == session)
    case DeleteStep(d, move) => move.Finish? && st.deletes[d].id == id && st.deletes[d].at.session == session
    case OtherStep(move) =>
      || move == CloseOne(id, session)
      || (move == CloseNext(id) && st.shutdown.todo[id] == session)
  }

  /** The step neither deletes the id, nor detaches the session, nor closes the agent. */
  predicate LeavesIt(st: State, step: Step, id: Id, session: nat)
    requires Enabled(st, step)
  {
    && !DetachesIt(st, step, id, session)
    && !(step.DeleteStep? && step.delete.Mark? && st.deletes[step.d].id == id)
    && step != OtherStep(CloseAll)
  }

  predicate AllLeaveIt(st: State, steps: seq<Step>, id: Id, session: nat)
    requires Runs(st, steps)
    decreases |steps|
  {
    steps == []
    || (LeavesIt(st, steps[0], id, session) && AllLeaveIt(Apply(st, steps[0]), steps[1..], id, session))
  }

  lemma StepStillResolves(st: State, step: Step, id: Id, session: nat)
    requires Enabled(st, step) && Resolved(st.agent, id) == Ok(session) && LeavesIt(st, step, id, session)
    ensures Resolved(Apply(st, step).agent, id) == Ok(session)
  {
  }

  lemma {:induction false} StillResolves(st: State, steps: seq<Step>, id: Id, session: nat)
    requires Runs(st, steps) && Resolved(st.agent, id) == Ok(session) && AllLeaveIt(st, steps, id, session)
    ensures Resolved(After(st, steps).agent, id) == Ok(session)
    decreases |steps|
  {
    if steps == [] {
    } else {
      StepStillResolves(st, steps[0], id, session);
      StillResolves(Apply(st, steps[0]), steps[1..], id, session);
    }
  }

  /** An install is refused exactly by a closed agent, a deleted id, or an id that is taken; one
      that is not refused makes the id resolve to its session, in every continuation that neither
      deletes the id, nor detaches that session, nor closes the agent. */
  lemma InstalledResolves(st: State, r: nat, more: seq<Step>)
    requires RequestCan(st, r, RequestMove.Install)
    requires var id := st.requests[r].at.id; !st.agent.closed && id !in st.agent.deleted && id !in st.agent.sessions
    requires Runs(RequestDoes(st, r, RequestMove.Install), more)
    requires AllLeaveIt(RequestDoes(st, r, RequestMove.Install), more, st.requests[r].at.id, st.requests[r].at.session)
    ensures Resolved(After(RequestDoes(st, r, RequestMove.Install), more).agent, st.requests[r].at.id) ==
              Ok(st.requests[r].at.session)
  {
    ResolvesExactly(RequestDoes(st, r, RequestMove.Install).agent, st.requests[r].at.id);
    StillResolves(RequestDoes(st, r, RequestMove.Install), more, st.requests[r].at.id, st.requests[r].at.session);
  }
}
