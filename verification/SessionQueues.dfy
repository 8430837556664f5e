/** One session's queue on one app-server generation (agent_runtime.go:58-112, 369-477).

    A queue is a bounded channel of records with two close signals: `messages` is closed by
    the pump when its streams end, `done` is closed by whoever fences the queue. Closing a Go
    channel twice, or sending on a closed one, panics, so both closes are counted and shown to
    happen at most once. `routed` and `handled` remember, in order, the records the pump sent
    and the records the worker took. */
module SessionQueues {

  /** A record, by its position in its generation's native stream. */
  datatype Message = Event(at: nat) | Request(at: nat, id: nat)

  /** Where the queue's one worker stands. `Parked` is handleEvent waiting for the settled
      prompt to finish; `Leaving` is a worker whose loop ended and whose deferred drain has not
      run; `Answering` answers the drained requests one by one. */
  datatype Worker =
    | Selecting
    | Handling(message: Message)
    | Parked
    | Leaving
    | Answering(pending: seq<nat>)
    | Exited

  datatype Queue = Queue(
    gen: nat,
    session: nat,
    messages: seq<Message>,
    closes: nat,
    dones: nat,
    stopped: bool,
    worker: Worker,
    routed: seq<Message>,
    handled: seq<Message>)
  {
    predicate Drained() {
      worker.Answering? || worker.Exited?
    }
  }

  const CAPACITY: nat := 256

  function Fresh(gen: nat, session: nat): Queue {
    Queue(gen, session, [], 0, 0, false, Selecting, [], [])
  }

  /** The requests among queued records, in queue order. */
  function Requests(messages: seq<Message>): seq<nat> {
    if messages == [] then []
    else (if messages[0].Request? then [messages[0].id] else []) + Requests(messages[1..])
  }

  function Occurrences(ids: seq<nat>, id: nat): nat {
    if ids == [] then 0 else (if ids[0] == id then 1 else 0) + Occurrences(ids[1..], id)
  }

  function Carries(m: Message, id: nat): nat {
    if m.Request? && m.id == id then 1 else 0
  }

  function InHand(worker: Worker, id: nat): nat {
    match worker
    case Handling(m) => Carries(m, id)
    case Answering(pending) => Occurrences(pending, id)
    case _ => 0
  }

  /** How often a request sits in this queue or in its worker's hands. */
  function Held(q: Queue, id: nat): nat {
    Occurrences(Requests(q.messages), id) + InHand(q.worker, id)
  }

  // ---- the critical sections, as functions on one queue ----

  function Fence(q: Queue): Queue {
    if q.stopped then q else q.(stopped := true, dones := q.dones + 1)
  }

  predicate Accepts(q: Queue) {
    !q.stopped && |q.messages| < CAPACITY
  }

  function Send(q: Queue, m: Message): Queue {
    q.(messages := q.messages + [m], routed := q.routed + [m])
  }

  datatype Outcome = Queued | Dropped | Overflowed

  /** What routeMessage does with a record and the session's queue: a stopped queue drops it,
      one with room takes it last, a full one is fenced. */
  function Offered(q: Queue, m: Message): (Outcome, Queue) {
    if q.stopped then (Dropped, q)
    else if Accepts(q) then (Queued, Send(q, m))
    else (Overflowed, Fence(q))
  }

  function CloseMessages(q: Queue): Queue {
    q.(closes := q.closes + 1)
  }

  function Take(q: Queue): Queue
    requires q.messages != []
  {
    q.(messages := q.messages[1..], worker := Handling(q.messages[0]), handled := q.handled + [q.messages[0]])
  }

  function Drain(q: Queue): Queue {
    q.(messages := [], stopped := true, worker := Answering(Requests(q.messages)))
  }

  // ---- what every queue keeps ----

  predicate NativeOrder(messages: seq<Message>) {
    forall a, b | 0 <= a < b < |messages| :: messages[a].at < messages[b].at
  }

  predicate AllBefore(messages: seq<Message>, at: nat) {
    forall a | 0 <= a < |messages| :: messages[a].at < at
  }

  predicate Kept(q: Queue) {
    && |q.messages| <= CAPACITY
    && q.dones <= 1
    && (q.dones == 1 ==> q.stopped)
    && q.closes <= 1
    && (q.Drained() ==> q.stopped && q.messages == [])
    && (!q.Drained() ==> q.routed == q.handled + q.messages)
    && q.handled <= q.routed
    && NativeOrder(q.routed)
  }

  lemma SendKeeps(q: Queue, m: Message)
    requires Kept(q) && Accepts(q) && AllBefore(q.routed, m.at)
    ensures Kept(Send(q, m))
  {
    assert q.handled + (q.messages + [m]) == (q.handled + q.messages) + [m];
  }

  lemma TakeKeeps(q: Queue)
    requires Kept(q) && q.worker.Selecting? && q.messages != []
    ensures Kept(Take(q))
  {
    assert [q.messages[0]] + q.messages[1..] == q.messages;
    assert (q.handled + [q.messages[0]]) + q.messages[1..] == q.handled + q.messages;
  }

  // ---- no critical section of a queue loses or copies a request ----

  lemma {:induction false} OccurrencesConcat(a: seq<nat>, b: seq<nat>, id: nat)
    ensures Occurrences(a + b, id) == Occurrences(a, id) + Occurrences(b, id)
  {
    if a == [] {
      assert a + b == b;
    } else {
      assert (a + b)[1..] == a[1..] + b;
      OccurrencesConcat(a[1..], b, id);
    }
  }

  lemma {:induction false} RequestsConcat(a: seq<Message>, b: seq<Message>)
    ensures Requests(a + b) == Requests(a) + Requests(b)
  {
    if a == [] {
      assert a + b == b;
    } else {
      assert (a + b)[0] == a[0] && (a + b)[1..] == a[1..] + b;
      RequestsConcat(a[1..], b);
      var first := if a[0].Request? then [a[0].id] else [];
      assert first + (Requests(a[1..]) + Requests(b)) == (first + Requests(a[1..])) + Requests(b);
    }
  }

  lemma SendHolds(q: Queue, m: Message, id: nat)
    ensures Held(Send(q, m), id) == Held(q, id) + Carries(m, id)
  {
    RequestsConcat(q.messages, [m]);
    OccurrencesConcat(Requests(q.messages), Requests([m]), id);
    assert Requests([m]) == if m.Request? then [m.id] else [];
    assert Requests([]) == [];
  }

  lemma TakeHolds(q: Queue, id: nat)
    requires q.worker.Selecting? && q.messages != []
    ensures Held(Take(q), id) == Held(q, id)
  {
    var first := if q.messages[0].Request? then [q.messages[0].id] else [];
    OccurrencesConcat(first, Requests(q.messages[1..]), id);
    assert Occurrences(first, id) == Carries(q.messages[0], id);
  }
}
