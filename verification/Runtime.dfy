/** The critical sections of agent_runtime.go on its own fields. Each object keeps the abstract
    queue of SessionQueues beside its fields, and each method states the step it takes there.
    Closing a closed channel and sending on a closed channel panic in Go, so both are
    preconditions that the callers below discharge. */
module Runtime {
  import opened SessionQueues
  import opened Wrappers

  class SessionQueue {
    var messages: seq<Message>
    var messagesClosed: bool
    var doneClosed: bool
    var stopped: bool
    ghost var model: Queue

    ghost predicate Valid()
      reads this
    {
      && Kept(model)
      && messages == model.messages
      && stopped == model.stopped
      && (messagesClosed <==> model.closes == 1)
      && (doneClosed <==> model.dones == 1)
      && !model.Drained()
    }

    constructor (gen: nat, session: nat)
      ensures Valid() && model == Fresh(gen, session)
    {
      messages, messagesClosed, doneClosed, stopped := [], false, false, false;
      model := Fresh(gen, session);
    }

    method CloseDone()
      requires Valid() && !doneClosed && !stopped
      modifies this
      ensures Valid() && model == Fence(old(model))
    {
      stopped := true;
      doneClosed := true;
      model := Fence(model);
    }

    method Enqueue(m: Message)
      requires Valid() && !messagesClosed && Accepts(model) && AllBefore(model.routed, m.at)
      modifies this
      ensures Valid() && model == Send(old(model), m)
    {
      SendKeeps(model, m);
      messages := messages + [m];
      model := Send(model, m);
    }

    method CloseMessages()
      requires Valid() && !messagesClosed
      modifies this
      ensures Valid() && model == SessionQueues.CloseMessages(old(model))
    {
      messagesClosed := true;
      model := SessionQueues.CloseMessages(model);
    }

    /** The worker's deferred drain (agent_runtime.go:435-457): the queue is stopped, every
        queued record is taken, and the requests among them are left to be answered. */
    method TakePending() returns (pending: seq<nat>)
      requires Valid()
      modifies this
      ensures messages == [] && stopped && messagesClosed == old(messagesClosed)
      ensures Kept(model) && model == Drain(old(model)) && model.worker == Answering(pending)
    {
      stopped := true;
      pending := [];
      ghost var all := messages;
      var queued := |messages|;
      for taken := 0 to queued
        invariant messages == all[taken..] && stopped
        invariant pending + Requests(messages) == Requests(all)
        invariant model == old(model) && messagesClosed == old(messagesClosed)
      {
        var next := messages[0];
        assert Requests(messages) == (if next.Request? then [next.id] else []) + Requests(messages[1..]);
        messages := messages[1..];
        if next.Request? {
          pending := pending + [next.id];
        }
      }
      assert Requests([]) == [];
      model := Drain(model);
    }
  }

  class Generation {
    const gen: nat
    var events: map<nat, SessionQueue>
    var pumping: bool

    ghost predicate Distinct()
      reads `events
    {
      forall s, t | s in events && t in events && s != t :: events[s] != events[t]
    }

    ghost predicate Owns(s: nat)
      requires s in events
      reads `events, `pumping, events[s]
    {
      var queue := events[s];
      queue.Valid() && queue.model.gen == gen && queue.model.session == s && (pumping ==> !queue.messagesClosed)
    }

    ghost predicate Valid()
      reads `events, `pumping, events.Values
    {
      Distinct() && forall s | s in events :: Owns(s)
    }

    constructor (gen: nat)
      ensures Valid() && pumping && events == map[] && this.gen == gen
    {
      this.gen := gen;
      events := map[];
      pumping := true;
    }

    /** stopQueue (agent_runtime.go:69-80). */
    method StopQueue(s: nat)
      requires Valid()
      modifies events.Values
      ensures Valid()
      ensures s in events ==> events[s].model == Fence(old(events[s].model))
      ensures forall t | t in events && t != s :: events[t].model == old(events[t].model)
    {
      if s in events {
        assert Owns(s);
        if !events[s].stopped {
          events[s].CloseDone();
          assert forall t | t in events && t != s :: events[t] != events[s] && old(Owns(t));
        }
      }
    }

    /** The queue routeMessage finds, created with its worker when there is none. */
    method QueueFor(s: nat) returns (queue: SessionQueue)
      requires Valid()
      modifies this`events
      ensures Valid()
      ensures old(s in events) ==> events == old(events)
      ensures old(s !in events) ==> events == old(events)[s := queue] && fresh(queue) && queue.model == Fresh(gen, s)
      ensures s in events && queue == events[s]
    {
      if s !in events {
        queue := new SessionQueue(gen, s);
        assert forall t | t in events :: old(Owns(t)) && events[t] != queue;
        events := events[s := queue];
        forall t | t in events ensures Owns(t) {
        }
      } else {
        queue := events[s];
      }
    }

    method Offer(s: nat, m: Message) returns (outcome: Outcome)
      requires Valid() && pumping && s in events && AllBefore(events[s].model.routed, m.at)
      modifies events[s]
      ensures Valid()
      ensures (outcome, events[s].model) == Offered(old(events[s].model), m)
      ensures outcome == if old(events[s].stopped) then Dropped else if |old(events[s].messages)| < 256 then Queued else Overflowed
      ensures events[s].messages == if outcome.Queued? then old(events[s].messages) + [m] else old(events[s].messages)
      ensures events[s].stopped == (old(events[s].stopped) || outcome.Overflowed?)
    {
      var queue := events[s];
      assert Owns(s);
      assert forall t | t in events && t != s :: events[t] != queue && old(Owns(t));
      if queue.stopped {
        outcome := Dropped;
      } else if |queue.messages| < CAPACITY {
        queue.Enqueue(m);
        outcome := Queued;
      } else {
        queue.CloseDone();
        outcome := Overflowed;
      }
    }

    /** routeMessage (agent_runtime.go:371-431): the request it answers itself, because no queue
        takes it, and whether it starts a containment. A closed session's record reaches no
        queue. */
    method RouteMessage(s: nat, sessionClosed: bool, m: Message)
        returns (outcome: Outcome, unowned: Option<nat>, contains: bool)
      requires Valid() && pumping
      requires s in events ==> AllBefore(events[s].model.routed, m.at)
      modifies this`events, events.Values
      ensures Valid() && pumping
      ensures unowned == if !outcome.Queued? && m.Request? then Some(m.id) else None
      ensures contains == outcome.Overflowed?
      ensures sessionClosed ==> outcome == Dropped && events == old(events)
      ensures !sessionClosed ==> events.Keys == old(events.Keys) + {s}
      ensures !sessionClosed ==>
                (outcome, events[s].model) == Offered(old(if s in events then events[s].model else Fresh(gen, s)), m)
      // a record of an open session is queued last, whatever it is, unless its queue was stopped or full
      ensures !sessionClosed ==>
                var was, stopped := old(if s in events then events[s].messages else []), old(s in events && events[s].stopped);
                && outcome == (if stopped then Dropped else if |was| < 256 then Queued else Overflowed)
                && events[s].messages == (if outcome.Queued? then was + [m] else was)
                && events[s].stopped == (stopped || outcome.Overflowed?)
      ensures forall t | t in old(events) && (t != s || sessionClosed) ::
                t in events && events[t] == old(events)[t] && events[t].model == old(events[t].model)
    {
      unowned, contains := None, false;
      if sessionClosed {
        outcome := Dropped;
      } else {
        var queue := QueueFor(s);
        assert forall t | t in events && t != s :: events[t] != queue;
        outcome := Offer(s, m);
        contains := outcome.Overflowed?;
      }
      if !outcome.Queued? && m.Request? {
        unowned := Some(m.id);
      }
    }

    /** The pump's end (agent_runtime.go:327-332): every registered queue is closed once. */
    method CloseAllMessages()
      requires Valid() && pumping
      modifies this`pumping, events.Values
      ensures Valid() && !pumping
      ensures Models() == ClosedBut(old(Models()), {})
    {
      LeaveLoop();
      CloseEach();
    }

    method LeaveLoop()
      requires Valid() && pumping
      modifies this`pumping
      ensures Valid() && !pumping && Models() == old(Models())
      ensures forall s | s in events :: !events[s].messagesClosed
    {
      assert forall s | s in events :: Owns(s);
      pumping := false;
      assert forall s | s in events :: Owns(s);
    }

    method CloseEach()
      requires Valid() && !pumping && forall s | s in events :: !events[s].messagesClosed
      modifies events.Values
      ensures Valid() && Models() == ClosedBut(old(Models()), {})
    {
      var queues := events;
      var left := queues.Keys;
      ghost var was := Models();
      assert ClosedBut(was, left) == was;
      while left != {}
        invariant left <= queues.Keys && events == queues && !pumping && Valid()
        invariant forall s | s in left :: !queues[s].messagesClosed
        invariant Models() == ClosedBut(was, left)
        decreases left
      {
        var s :| s in left;
        CloseOne(s, was, left);
        left := left - {s};
      }
    }

    static lemma ClosedOneMore(models: map<nat, Queue>, left: set<nat>, s: nat)
      requires s in left && s in models
      ensures ClosedBut(models, left - {s}) == ClosedBut(models, left)[s := CloseMessages(models[s])]
    {
    }

    ghost function Models(): map<nat, Queue>
      reads `events, events.Values
    {
      map s | s in events :: events[s].model
    }

    static function ClosedBut(models: map<nat, Queue>, left: set<nat>): map<nat, Queue> {
      map s | s in models :: if s in left then models[s] else CloseMessages(models[s])
    }

    method CloseOne(s: nat, ghost was: map<nat, Queue>, ghost left: set<nat>)
      requires Valid() && !pumping && s in left && left <= events.Keys
      requires !events[s].messagesClosed && Models() == ClosedBut(was, left)
      modifies events[s]
      ensures Valid() && Models() == ClosedBut(was, left - {s})
      ensures forall t | t in events && t != s :: events[t].messagesClosed == old(events[t].messagesClosed)
    {
      assert Models()[s] == was[s];
      ClosedOneMore(was, left, s);
      CloseAt(s);
    }

    method CloseAt(s: nat)
      requires Valid() && !pumping && s in events && !events[s].messagesClosed
      modifies events[s]
      ensures Valid() && Models() == old(Models())[s := CloseMessages(old(events[s].model))]
      ensures forall t | t in events && t != s :: events[t].messagesClosed == old(events[t].messagesClosed)
    {
      assert Owns(s);
      assert forall t | t in events && t != s :: events[t] != events[s] && Owns(t);
      events[s].CloseMessages();
    }

    /** The second half of retireQueue (agent_runtime.go:95-100): the joined queue is forgotten
        if it is still the session's. */
    method ForgetQueue(s: nat, queue: SessionQueue)
      requires Valid()
      modifies this`events
      ensures Valid()
      ensures events == if s in old(events) && old(events)[s] == queue then old(events) - {s} else old(events)
    {
      assert forall t | t in events :: old(Owns(t));
      if s in events && events[s] == queue {
        events := events - {s};
      }
    }
  }
}
