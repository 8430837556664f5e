/** The agent's session table (agent_session.go, agent.go): the slots of establishing requests,
    the sessions they install, the tombstones of deleted ids, and the agent's close.

    `Agent` is what `a.mu` guards; each function below is one critical section. `AgentTable` is
    the object the source updates. The machine runs any number of new, load, resume, delete and
    close requests against it, one critical section a step. */
module Registry {
  import opened Wrappers

  type Id = nat

  /** `sessions` maps an id to the session object installed under it. */
  datatype Agent = Agent(
    closed: bool,
    sessions: map<Id, nat>,
    deleted: set<Id>,
    ephemeral: set<Id>,
    starting: int)

  datatype Refusal = AgentClosed | Backpressure | UnknownSession | InternalFailure

  /** Why reserveSlot refuses (agent_session.go:103-109). */
  function ReserveRefusal(a: Agent, max: nat): Option<Refusal> {
    if a.closed then Some(AgentClosed)
    else if |a.sessions| + a.starting >= max then Some(Backpressure)
    else None
  }

  /** Why install refuses (agent_session.go:122-129). */
  function InstallRefusal(a: Agent, id: Id): Option<Refusal> {
    if a.closed then Some(AgentClosed)
    else if id in a.deleted then Some(UnknownSession)
    else if id in a.sessions then Some(InternalFailure)
    else None
  }

  function Installed(a: Agent, id: Id, session: nat, ephemeral: bool): Agent {
    a.(sessions := a.sessions[id := session],
       ephemeral := if ephemeral then a.ephemeral + {id} else a.ephemeral)
  }

  /** detach: only while the id still resolves to this session. */
  function Detached(a: Agent, id: Id, session: nat): Agent {
    if id in a.sessions && a.sessions[id] == session then a.(sessions := a.sessions - {id}) else a
  }

  function Tombstoned(a: Agent, id: Id): Agent {
    a.(deleted := a.deleted + {id}, ephemeral := a.ephemeral - {id})
  }

  /** session: a deleted id is like one that never existed. */
  function Resolved(a: Agent, id: Id): Result<nat, Refusal> {
    if a.closed then Err(AgentClosed)
    else if id !in a.sessions || id in a.deleted then Err(UnknownSession)
    else Ok(a.sessions[id])
  }

  // ---- the object ----

  /** One reservation and its release, which runs once (sync.OnceFunc). */
  class Reservation {
    var released: bool

    constructor ()
      ensures !released
    {
      released := false;
    }
  }

  class AgentTable {
    const max: nat
    var closed: bool
    var sessions: map<Id, nat>
    var deleted: set<Id>
    var ephemeral: set<Id>
    var starting: int
    var running: bool

    ghost function Value(): Agent
      reads this
    {
      Agent(closed, sessions, deleted, ephemeral, starting)
    }

    constructor (max: nat)
      ensures Value() == Agent(false, map[], {}, {}, 0) && this.max == max && running
    {
      running := true;
      this.max := max;
      closed, sessions, deleted, ephemeral, starting := false, map[], {}, {}, 0;
    }

    method ReserveSlot() returns (r: Result<Reservation, Refusal>)
      modifies `starting
      ensures r.Err? <==> ReserveRefusal(old(Value()), max).Some?
      ensures r.Err? ==> Some(r.error) == ReserveRefusal(old(Value()), max) && Value() == old(Value())
      ensures r.Ok? ==> fresh(r.value) && !r.value.released && Value() == old(Value()).(starting := old(starting) + 1)
    {
      if closed {
        return Err(AgentClosed);
      }
      if |sessions| + starting >= max {
        return Err(Backpressure);
      }
      starting := starting + 1;
      var reservation := new Reservation();
      return Ok(reservation);
    }

    method Release(reservation: Reservation)
      modifies `starting, reservation
      ensures reservation.released
      ensures Value() == old(Value()).(starting := old(starting) - (if old(reservation.released) then 0 else 1))
    {
      if !reservation.released {
        reservation.released := true;
        starting := starting - 1;
      }
    }

    method Install(id: Id, session: nat, isEphemeral: bool) returns (refusal: Option<Refusal>)
      modifies `sessions, `ephemeral
      ensures refusal == InstallRefusal(old(Value()), id)
      ensures Value() == if refusal.Some? then old(Value()) else Installed(old(Value()), id, session, isEphemeral)
    {
      refusal := None;
      if closed {
        refusal := Some(AgentClosed);
      } else if id in deleted {
        refusal := Some(UnknownSession);
      } else if id in sessions {
        refusal := Some(InternalFailure);
      }
      if refusal.None? {
        sessions := sessions[id := session];
        if isEphemeral {
          ephemeral := ephemeral + {id};
        }
      }
    }

    method Detach(id: Id, session: nat)
      modifies `sessions
      ensures Value() == Detached(old(Value()), id, session)
    {
      var current := id in sessions && sessions[id] == session;
      if current {
        sessions := sessions - {id};
      }
    }

    /** The tombstone of a delete, with the session that still has to be closed. */
    method Tombstone(id: Id) returns (live: Option<nat>)
      modifies `deleted, `ephemeral
      ensures Value() == Tombstoned(old(Value()), id)
      ensures live == if id in old(sessions) then Some(old(sessions)[id]) else None
    {
      deleted := deleted + {id};
      ephemeral := ephemeral - {id};
      live := if id in sessions then Some(sessions[id]) else None;
    }

    method Resolve(id: Id) returns (r: Result<nat, Refusal>)
      ensures r == Resolved(Value(), id)
      ensures r.Ok? <==> !closed && id in sessions && id !in deleted
      ensures r.Ok? ==> r.value == sessions[id]
      ensures r.Err? ==> r.error == if closed then AgentClosed else UnknownSession
    {
      if closed {
        return Err(AgentClosed);
      }
      if id !in sessions || id in deleted {
        return Err(UnknownSession);
      }
      return Ok(sessions[id]);
    }

    /** Close: every session found is closed and detached, one by one, and then the app-server is
        stopped; a second call does nothing. `shut` lists the sessions in the order they were
        closed. */
    method Close() returns (shut: seq<nat>)
      modifies `closed, `sessions, `running
      ensures old(closed) ==> Value() == old(Value()) && shut == [] && running == old(running)
      ensures !old(closed) ==> Value() == old(Value()).(closed := true, sessions := map[]) && !running
      ensures !old(closed) ==> |shut| == |old(sessions)| && (set s | s in shut) == old(sessions).Values
    {
      shut := [];
      if closed {
        return;
      }
      closed := true;
      var todo := sessions;
      while |todo| > 0
        invariant todo == sessions && closed && running == old(running)
        invariant Value() == old(Value()).(closed := true, sessions := sessions)
        invariant forall id | id in todo :: id in old(sessions) && todo[id] == old(sessions)[id]
        invariant |shut| + |todo| == |old(sessions)|
        invariant forall s | s in shut :: s in old(sessions).Values
        invariant forall id | id in old(sessions) :: id in todo || old(sessions)[id] in shut
        decreases |todo|
      {
        var id :| id in todo;
        assert old(sessions)[id] in old(sessions).Values;
        shut := shut + [todo[id]];
        Detach(id, todo[id]);
        assert (todo - {id}).Keys == todo.Keys - {id};
        todo := todo - {id};
      }
      assert forall id | id in old(sessions) :: id !in todo;
      running := false;
    }
  }

  // ---- the machine ----

  datatype Slot = NotReserved | Held | Released

  /** An establishing request. `Looking` is a restore before its look-up, `Replacing` one that
      closes the live session first; `Installing` has built its session; `Handing` has installed
      it and still holds the slot; `Refused` was refused the install; `Undoing` failed later. */
  datatype RequestAt =
    | Looking(id: Id)
    | Replacing(id: Id, live: nat)
    | Asking
    | Building
    | Installing(id: Id, session: nat)
    | Handing(id: Id, session: nat)
    | Opening(id: Id, session: nat)
    | Refused
    | Undoing(id: Id, session: nat)
    | Over

  /** `releases` counts how often the request gave its slot back. */
  datatype Request = Request(ephemeral: bool, slot: Slot, releases: nat, at: RequestAt)

  datatype DeleteAt = Storing | Marking | Closing(session: nat) | Deleted | GaveUp
  datatype Delete = Delete(id: Id, at: DeleteAt)

  /** The agent's Close, and the sessions it still has to close. */
  datatype Shutdown = Open | ClosingAll(todo: map<Id, nat>) | Shut

  datatype State = State(
    max: nat,
    agent: Agent,
    requests: seq<Request>,
    deletes: seq<Delete>,
    shutdown: Shutdown,
    next: nat)

  function Initial(max: nat): State {
    State(max, Agent(false, map[], {}, {}, 0), [], [], Open, 0)
  }

  datatype RequestMove =
    | Look(same: bool) | Replace(ok: bool) | Reserve | Fail | Build(id: Id) | Install | HandOver | Establish(ok: bool) | Undo

  predicate RequestCan(st: State, r: nat, move: RequestMove) {
    && r < |st.requests|
    && var at := st.requests[r].at;
       match move
       case Look(_) => at.Looking?
       case Replace(_) => at.Replacing?
       case Reserve => at.Asking?
       case Fail => at.Looking? || at.Asking? || at.Building? || at.Refused?
       case Build(_) => at.Building?
       case Install => at.Installing?
       case HandOver => at.Handing?
       case Establish(_) => at.Opening?
       case Undo => at.Undoing?
  }

  function SetRequest(st: State, r: nat, x: Request): State
    requires r < |st.requests|
  {
    st.(requests := st.requests[r := x])
  }

  function MoveTo(st: State, r: nat, at: RequestAt): State
    requires r < |st.requests|
  {
    SetRequest(st, r, st.requests[r].(at := at))
  }

  /** The release reserveSlot returned: it gives the slot back once. */
  function Give(st: State, r: nat): State
    requires r < |st.requests|
  {
    var x := st.requests[r];
    if x.slot.Held?
    then SetRequest(st, r, x.(slot := Released, releases := x.releases + 1)).(agent := st.agent.(starting := st.agent.starting - 1))
    else st
  }

  /** Returning runs the deferred release. */
  function Return(st: State, r: nat): State
    requires r < |st.requests|
  {
    MoveTo(Give(st, r), r, Over)
  }

  function RequestDoes(st: State, r: nat, move: RequestMove): State
    requires RequestCan(st, r, move)
  {
    var x, a := st.requests[r], st.agent;
    match move
    case Look(same) =>
      if x.at.id in a.deleted then Return(st, r)
      else if x.at.id !in a.sessions then MoveTo(st, r, Asking)
      else if same then Return(st, r)
      else MoveTo(st, r, Replacing(x.at.id, a.sessions[x.at.id]))
    case Replace(ok) =>
      var st1 := st.(agent := Detached(a, x.at.id, x.at.live));
      if ok then MoveTo(st1, r, Asking) else Return(st1, r)
    case Reserve =>
      if ReserveRefusal(a, st.max).Some? then Return(st, r)
      else SetRequest(st, r, x.(slot := Held, at := Building)).(agent := a.(starting := a.starting + 1))
    case Fail => Return(st, r)
    case Build(id) => MoveTo(st, r, Installing(id, st.next)).(next := st.next + 1)
    case Install =>
      if InstallRefusal(a, x.at.id).Some? then MoveTo(st, r, Refused)
      else MoveTo(st, r, Handing(x.at.id, x.at.session)).(agent := Installed(a, x.at.id, x.at.session, x.ephemeral))
    case HandOver => MoveTo(Give(st, r), r, Opening(x.at.id, x.at.session))
    case Establish(ok) => if ok then Return(st, r) else MoveTo(st, r, Undoing(x.at.id, x.at.session))
    case Undo => Return(st.(agent := Detached(a, x.at.id, x.at.session)), r)
  }

  datatype DeleteMove = StoreDelete(ok: bool) | Mark | Finish

  predicate DeleteCan(st: State, d: nat, move: DeleteMove) {
    && d < |st.deletes|
    && var at := st.deletes[d].at;
       match move
       case StoreDelete(_) => at.Storing?
       case Mark => at.Marking?
       case Finish => at.Closing?
  }

  function DeleteDoes(st: State, d: nat, move: DeleteMove): State
    requires DeleteCan(st, d, move)
  {
    var x, a := st.deletes[d], st.agent;
    match move
    case StoreDelete(ok) => st.(deletes := st.deletes[d := x.(at := if ok then Marking else GaveUp)])
    case Mark =>
      var at := if x.id in a.sessions then Closing(a.sessions[x.id]) else Deleted;
      st.(deletes := st.deletes[d := x.(at := at)], agent := Tombstoned(a, x.id))
    case Finish =>
      st.(deletes := st.deletes[d := x.(at := Deleted)], agent := Detached(a, x.id, x.at.session))
  }

  /** `CloseOne` is a session/close, or a failed opening publication: any detach at any time. */
  datatype OtherMove =
    | AskNew(ephemeral: bool) | AskRestore(id: Id) | AskDelete(id: Id) | CloseOne(id: Id, session: nat)
    | CloseAll | CloseNext(id: Id) | CloseEnds

  predicate OtherCan(st: State, move: OtherMove) {
    match move
    case AskNew(_) => true
    case AskRestore(_) => true
    case AskDelete(_) => true
    case CloseOne(_, _) => true
    case CloseAll => st.shutdown.Open?
    case CloseNext(id) => st.shutdown.ClosingAll? && id in st.shutdown.todo
    case CloseEnds => st.shutdown.ClosingAll? && st.shutdown.todo == map[]
  }

  function OtherDoes(st: State, move: OtherMove): State
    requires OtherCan(st, move)
  {
    var a := st.agent;
    match move
    case AskNew(ephemeral) => st.(requests := st.requests + [Request(ephemeral, NotReserved, 0, Asking)])
    case AskRestore(id) => st.(requests := st.requests + [Request(false, NotReserved, 0, Looking(id))])
    case AskDelete(id) => st.(deletes := st.deletes + [Delete(id, if id in a.ephemeral then Marking else Storing)])
    case CloseOne(id, session) => st.(agent := Detached(a, id, session))
    case CloseAll => st.(agent := a.(closed := true), shutdown := ClosingAll(a.sessions))
    case CloseNext(id) =>
      st.(agent := Detached(a, id, st.shutdown.todo[id]), shutdown := ClosingAll(st.shutdown.todo - {id}))
    case CloseEnds => st.(shutdown := Shut)
  }

  datatype Step =
    | RequestStep(r: nat, request: RequestMove)
    | DeleteStep(d: nat, delete: DeleteMove)
    | OtherStep(other: OtherMove)

  predicate Enabled(st: State, step: Step) {
    match step
    case RequestStep(r, move) => RequestCan(st, r, move)
    case DeleteStep(d, move) => DeleteCan(st, d, move)
    case OtherStep(move) => OtherCan(st, move)
  }

  function Apply(st: State, step: Step): State
    requires Enabled(st, step)
  {
    match step
    case RequestStep(r, move) => RequestDoes(st, r, move)
    case DeleteStep(d, move) => DeleteDoes(st, d, move)
    case OtherStep(move) => OtherDoes(st, move)
  }

  predicate Runs(st: State, steps: seq<Step>)
    decreases |steps|
  {
    steps == [] || (Enabled(st, steps[0]) && Runs(Apply(st, steps[0]), steps[1..]))
  }

  function After(st: State, steps: seq<Step>): State
    requires Runs(st, steps)
    decreases |steps|
  {
    if steps == [] then st else After(Apply(st, steps[0]), steps[1..])
  }
}
