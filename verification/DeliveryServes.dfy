/** What a worker and a pump can always do by their own steps: the worker hands on everything its
    queue holds, or answers all of it once fenced, and the pump leaves every stage. */
module DeliveryServes {
  import opened SessionQueues
  import opened Wrappers
  import opened Delivery
  import opened DeliveryProofs

  // ---- a worker at work ----

  function Served(m: Message): WorkerMove {
    if m.Event? then HandleEvent(false) else OpenDialog
  }

  /** The worker's steps that hand the messages on, one by one. */
  function Serving(i: nat, messages: seq<Message>): seq<Step> {
    if messages == [] then [] else [WorkerStep(i, TakeNext), WorkerStep(i, Served(messages[0]))] + Serving(i, messages[1..])
  }

  lemma TwoMore(st: State, one: Step, two: Step, more: seq<Step>)
    requires Enabled(st, one) && Enabled(Apply(st, one), two) && Runs(Apply(Apply(st, one), two), more)
    ensures Runs(st, [one, two] + more) && After(st, [one, two] + more) == After(Apply(Apply(st, one), two), more)
  {
    var steps := [one, two] + more;
    assert steps[1..] == [two] + more;
    assert steps[1..][1..] == more;
  }

  /** The state once the worker has handed on all its queue holds. */
  function ServedAll(st: State, i: nat): State
    requires i < |st.queues|
  {
    var q := st.queues[i];
    st.(queues := st.queues[i := q.(messages := [], handled := q.handled + q.messages)],
        ledger := st.ledger.(dialogs := st.ledger.dialogs + multiset(Requests(q.messages))))
  }

  /** One message of the queue, taken and handed on. */
  function ServedOne(st: State, i: nat): State
    requires i < |st.queues| && st.queues[i].messages != []
  {
    var q := st.queues[i];
    var m := q.messages[0];
    st.(queues := st.queues[i := q.(messages := q.messages[1..], handled := q.handled + [m])],
        ledger := st.ledger.(dialogs := st.ledger.dialogs + (if m.Request? then multiset{m.id} else multiset{})))
  }

  lemma WorkerServesOne(st: State, i: nat)
    requires i < |st.queues| && st.queues[i].worker == Selecting && st.queues[i].messages != []
    ensures var one, two := WorkerStep(i, TakeNext), WorkerStep(i, Served(st.queues[i].messages[0]));
            Enabled(st, one) && Enabled(Apply(st, one), two) && Apply(Apply(st, one), two) == ServedOne(st, i)
  {
  }

  lemma RequestsOfOneMore(messages: seq<Message>)
    requires messages != []
    ensures multiset(Requests(messages)) ==
              (if messages[0].Request? then multiset{messages[0].id} else multiset{}) + multiset(Requests(messages[1..]))
  {
  }

  lemma Regroup(a: multiset<nat>, b: multiset<nat>, c: multiset<nat>)
    ensures (a + b) + c == a + (b + c)
  {
  }

  lemma OneAndTheRest(st: State, i: nat)
    requires i < |st.queues| && st.queues[i].messages != []
    ensures ServedAll(ServedOne(st, i), i) == ServedAll(st, i)
  {
    var q := st.queues[i];
    var q1 := ServedOne(st, i).queues[i];
    assert q1.handled + q1.messages == q.handled + q.messages by {
      assert [q.messages[0]] + q.messages[1..] == q.messages;
    }
    assert q1.(messages := [], handled := q1.handled + q1.messages) == q.(messages := [], handled := q.handled + q.messages);
    RequestsOfOneMore(q.messages);
    Regroup(st.ledger.dialogs, if q.messages[0].Request? then multiset{q.messages[0].id} else multiset{}, multiset(Requests(q1.messages)));
  }

  /** A worker at its select hands on all its queue holds, in order, by its own steps alone: each
      event is handled, each request gets its dialog, and nothing else changes. */
  lemma {:induction false} WorkerServesAll(st: State, i: nat)
    requires i < |st.queues| && st.queues[i].worker == Selecting
    ensures Runs(st, Serving(i, st.queues[i].messages))
    ensures After(st, Serving(i, st.queues[i].messages)) == ServedAll(st, i)
    decreases |st.queues[i].messages|
  {
    var q := st.queues[i];
    if q.messages == [] {
      assert q == q.(messages := [], handled := q.handled + q.messages);
    } else {
      WorkerServesOne(st, i);
      OneAndTheRest(st, i);
      WorkerServesAll(ServedOne(st, i), i);
      TwoMore(st, WorkerStep(i, TakeNext), WorkerStep(i, Served(q.messages[0])), Serving(i, q.messages[1..]));
    }
  }

  // ---- a fenced worker ----

  function Answering(i: nat, pending: seq<nat>): seq<Step> {
    if pending == [] then [WorkerStep(i, Exit)] else [WorkerStep(i, AnswerNext)] + Answering(i, pending[1..])
  }

  function AnsweredAll(st: State, i: nat, pending: seq<nat>): State
    requires i < |st.queues|
  {
    st.(queues := st.queues[i := st.queues[i].(worker := Exited)],
        ledger := st.ledger.(answered := st.ledger.answered + multiset(pending)))
  }

  lemma OneMoreStep(st: State, one: Step, more: seq<Step>)
    requires Enabled(st, one) && Runs(Apply(st, one), more)
    ensures Runs(st, [one] + more) && After(st, [one] + more) == After(Apply(st, one), more)
  {
    assert ([one] + more)[1..] == more;
  }

  lemma OneAnswerMore(st: State, i: nat, pending: seq<nat>)
    requires i < |st.queues| && st.queues[i].worker == Worker.Answering(pending) && pending != []
    ensures AnsweredAll(Apply(st, WorkerStep(i, AnswerNext)), i, pending[1..]) == AnsweredAll(st, i, pending)
  {
    assert [pending[0]] + pending[1..] == pending;
    assert multiset(pending) == multiset{pending[0]} + multiset(pending[1..]);
    Regroup(st.ledger.answered, multiset{pending[0]}, multiset(pending[1..]));
  }

  lemma {:induction false} WorkerAnswersAll(st: State, i: nat, pending: seq<nat>)
    requires i < |st.queues| && st.queues[i].worker == Worker.Answering(pending)
    ensures Runs(st, Answering(i, pending)) && After(st, Answering(i, pending)) == AnsweredAll(st, i, pending)
    decreases |pending|
  {
    if pending == [] {
      OneMoreStep(st, WorkerStep(i, Exit), []);
      assert [WorkerStep(i, Exit)] + [] == [WorkerStep(i, Exit)];
    } else {
      var one := WorkerStep(i, AnswerNext);
      WorkerAnswersAll(Apply(st, one), i, pending[1..]);
      OneMoreStep(st, one, Answering(i, pending[1..]));
      OneAnswerMore(st, i, pending);
    }
  }

  /** A worker at its select whose queue was fenced, or whose session closed, leaves, answers every
      request its queue still holds, and exits, by its own steps alone; the queue takes nothing any
      more, and a closed session's queue is forgotten. */
  lemma FencedWorkerAnswersAll(st: State, i: nat)
    requires i < |st.queues| && st.queues[i].worker == Selecting
    requires st.queues[i].dones > 0 || st.queues[i].session in st.closed
    ensures var q := st.queues[i];
            var steps := [WorkerStep(i, Leave), WorkerStep(i, DrainQueue)] + Answering(i, Requests(q.messages));
            && Runs(st, steps)
            && After(st, steps) ==
                 st.(queues := st.queues[i := q.(messages := [], stopped := true, worker := Exited)],
                     events := if q.session in st.closed then st.events - {(q.gen, q.session)} else st.events,
                     ledger := st.ledger.(answered := st.ledger.answered + multiset(Requests(q.messages))))
  {
    var q := st.queues[i];
    var one, two := WorkerStep(i, Leave), WorkerStep(i, DrainQueue);
    var st2 := Apply(Apply(st, one), two);
    assert st2 == st.(queues := st.queues[i := q.(messages := [], stopped := true, worker := Worker.Answering(Requests(q.messages)))],
                      events := if q.session in st.closed then st.events - {(q.gen, q.session)} else st.events);
    WorkerAnswersAll(st2, i, Requests(q.messages));
    TwoMore(st, one, two, Answering(i, Requests(q.messages)));
  }

  // ---- the pump ----

  /** The pump's way out of each stage. */
  function NextMove(p: Pump): PumpMove
    requires !p.Finished?
  {
    match p
    case Reading => StreamsEnd
    case Routing(_, _) => Route
    case Refusing(_, _) => Refuse
    case Spawning(_) => Spawn
    case Ended => CloseQueues
    case Joining => JoinWorkers
    case Stopping => MarkDead
    case Dead => PumpMove.Finish
  }

  /** In every reachable state a pump can take its stage's step, except that it waits for every
      worker of its generation to exit, and then for the process to be reaped or the wait to
      expire; and while it reads it takes any record that comes next. */
  lemma PumpMovesOn(steps: seq<Step>, g: nat)
    requires Runs(Initial, steps)
    requires g < |After(Initial, steps).gens| && !After(Initial, steps).gens[g].pump.Finished?
    ensures var st := After(Initial, steps);
            var x := st.gens[g];
            && (PumpCan(st, g, NextMove(x.pump)) <==>
                  && (x.pump.Joining? ==>
                        forall i | 0 <= i < |st.queues| && st.queues[i].gen == g :: st.queues[i].worker == Exited)
                  && (x.pump.Stopping? ==> x.exited || x.expired))
            && (forall m: Message, s: nat :: x.pump.Reading? && m.at == x.read ==> PumpCan(st, g, Receive(m, s)))
  {
    ReachableInv(steps);
  }

  /** The stages of a pump's end, one after the other; nothing else changes. */
  lemma PumpWindsDown(st: State, g: nat)
    requires g < |st.gens|
    ensures var x := st.gens[g];
            && (x.pump == Reading ==> Apply(st, PumpStep(g, StreamsEnd)) == st.(gens := st.gens[g := x.(pump := Ended)]))
            && (PumpCan(st, g, JoinWorkers) ==> Apply(st, PumpStep(g, JoinWorkers)) == st.(gens := st.gens[g := x.(pump := Stopping)]))
            && (PumpCan(st, g, MarkDead) ==> Apply(st, PumpStep(g, MarkDead)) == st.(gens := st.gens[g := x.(pump := Dead)]))
            && (x.pump == Dead ==>
                  Apply(st, PumpStep(g, PumpMove.Finish)) == st.(gens := st.gens[g := x.(pump := Finished)]))
  {
  }

  /** Once its streams ended the pump closes the messages of exactly the registered queues of its
      generation, each once more, and changes no other queue. */
  lemma ClosesTheRegistered(st: State, g: nat, i: nat)
    requires PumpCan(st, g, CloseQueues) && i < |st.queues|
    ensures var q, st' := st.queues[i], Apply(st, PumpStep(g, CloseQueues));
            && |st'.queues| == |st.queues| && st'.gens == st.gens[g := st.gens[g].(pump := Joining)]
            && st'.queues[i] ==
                 if q.gen == g && (q.gen, q.session) in st.events && st.events[(q.gen, q.session)] == i
                 then q.(closes := q.closes + 1) else q
  {
  }

  /** A request no queue took is answered once, the session of a queue that had to be fenced is
      contained, and after either the pump reads on. */
  lemma PumpReadsOn(st: State, g: nat)
    requires g < |st.gens| && (st.gens[g].pump.Refusing? || st.gens[g].pump.Spawning?)
    ensures var p := st.gens[g].pump;
            var contains := if p.Refusing? then p.overflowed else Some(p.session);
            var first := if p.Refusing? then [PumpStep(g, Refuse)] else [];
            var steps := first + if contains.Some? then [PumpStep(g, Spawn)] else [];
            && Runs(st, steps)
            && After(st, steps) ==
                 st.(gens := st.gens[g := st.gens[g].(pump := Reading)],
                     retirers := st.retirers + (if contains.Some? then [Retirer(g, contains.value, Arrived)] else []),
                     ledger := st.ledger.(answered := st.ledger.answered + (if p.Refusing? then multiset{p.id} else multiset{})))
  {
    var p := st.gens[g].pump;
    if p.Spawning? {
      OneMoreStep(st, PumpStep(g, Spawn), []);
      assert [] + [PumpStep(g, Spawn)] == [PumpStep(g, Spawn)] + [] == [PumpStep(g, Spawn)];
    } else if p.overflowed.Some? {
      TwoMore(st, PumpStep(g, Refuse), PumpStep(g, Spawn), []);
      assert [PumpStep(g, Refuse)] + [PumpStep(g, Spawn)] == [PumpStep(g, Refuse), PumpStep(g, Spawn)] + [];
    } else {
      OneMoreStep(st, PumpStep(g, Refuse), []);
      assert [PumpStep(g, Refuse)] + [] == [PumpStep(g, Refuse)];
    }
  }

  // ---- the agent ----

  /** The agent launches nothing and is open, and has no generation or a dead one. */
  predicate NeedsRuntime(st: State) {
    && st.agent.launching == Free && !st.agent.closed
    && (st.agent.current.Some? ==>
          && st.agent.current.value < |st.gens|
          && (st.gens[st.agent.current.value].pump == Dead || st.gens[st.agent.current.value].pump == Finished))
  }

  /** An agent that needs a generation starts one, which reads, and publishes it. */
  lemma AgentLaunches(st: State)
    requires NeedsRuntime(st)
    ensures var steps := [AgentStep(Decide), AgentStep(Start)] + [AgentStep(Publish)];
            && Runs(st, steps)
            && After(st, steps) ==
                 st.(gens := st.gens + [Generation(Reading, 0, false, false)], agent := st.agent.(current := Some(|st.gens|)))
  {
    var st2 := Apply(Apply(st, AgentStep(Decide)), AgentStep(Start));
    OneMoreStep(st2, AgentStep(Publish), []);
    assert [AgentStep(Publish)] + [] == [AgentStep(Publish)];
    TwoMore(st, AgentStep(Decide), AgentStep(Start), [AgentStep(Publish)]);
  }

  /** It starts none while it has one that is not dead, is launching, or has closed. */
  lemma LaunchesOnlyWhenNeeded(st: State)
    ensures Enabled(st, AgentStep(Decide)) <==> NeedsRuntime(st)
  {
  }

  /** A launch that is declined, or whose generation ended before it was published, is over. */
  lemma LaunchCanFail(st: State)
    ensures st.agent.launching.Deciding? ==>
              Enabled(st, AgentStep(Decline)) && Apply(st, AgentStep(Decline)) == st.(agent := st.agent.(launching := Free))
    ensures st.agent.launching.Launched? && st.agent.launching.gen < |st.gens| && st.gens[st.agent.launching.gen].pump == Finished ==>
              Enabled(st, AgentStep(Abort)) && Apply(st, AgentStep(Abort)) == st.(agent := st.agent.(launching := Free))
  {
  }

  /** The agent's close takes its generation off it and joins that generation's pump. */
  lemma AgentCloses(st: State)
    requires !st.agent.closed && !st.agent.swapped && !st.agent.joined && st.agent.launching == Free
    requires st.agent.current.Some? ==> st.agent.current.value < |st.gens| && st.gens[st.agent.current.value].pump == Finished
    ensures var steps := [AgentStep(Close), AgentStep(Swap)] + [AgentStep(JoinVictim)];
            && Runs(st, steps)
            && After(st, steps) ==
                 st.(agent := Agent(None, Free, true, true, st.agent.current, true))
  {
    var st2 := Apply(Apply(st, AgentStep(Close)), AgentStep(Swap));
    OneMoreStep(st2, AgentStep(JoinVictim), []);
    assert [AgentStep(JoinVictim)] + [] == [AgentStep(JoinVictim)];
    TwoMore(st, AgentStep(Close), AgentStep(Swap), [AgentStep(JoinVictim)]);
  }

  /** The join waits for the pump to finish. */
  lemma JoinWaitsForThePump(st: State)
    ensures Enabled(st, AgentStep(JoinVictim)) <==>
              && st.agent.swapped && !st.agent.joined
              && (st.agent.victim.Some? ==>
                    st.agent.victim.value < |st.gens| && st.gens[st.agent.victim.value].pump == Finished)
  {
  }

  // ---- retiring, fencing, dialogs, closing ----

  /** A retirement reads the registered queue, waits for its worker to exit, and forgets the queue
      while it is still the registered one; without a queue it is done at once. */
  lemma RetirementForgets(st: State, r: nat)
    requires r < |st.retirers|
    ensures var x := st.retirers[r];
            var key := (x.gen, x.session);
            && (x.phase == Arrived ==>
                  && Enabled(st, OtherStep(RetireReads(r)))
                  && Apply(st, OtherStep(RetireReads(r))) ==
                       st.(retirers := st.retirers[r := Retirer(x.gen, x.session,
                             if key in st.events then Awaiting(st.events[key]) else Retired)]))
            && (x.phase.Awaiting? ==>
                  && (Enabled(st, OtherStep(RetireJoins(r))) <==>
                        x.phase.queue < |st.queues| && st.queues[x.phase.queue].worker == Exited)
                  && (Enabled(st, OtherStep(RetireJoins(r))) ==>
                        Apply(st, OtherStep(RetireJoins(r))) ==
                          st.(retirers := st.retirers[r := Retirer(x.gen, x.session, Retired)],
                              events := if key in st.events && st.events[key] == x.phase.queue then st.events - {key} else st.events)))
  {
  }

  /** Whoever fences a session's queue stops it and closes its `done`, once; a retirement can begin
      and a session can close at any time; and a dialog answers its request. */
  lemma OthersCanAlways(st: State, g: nat, s: nat, id: nat)
    ensures Enabled(st, OtherStep(FenceQueue(g, s))) <==> (g, s) in st.events && st.events[(g, s)] < |st.queues|
    ensures Enabled(st, OtherStep(FenceQueue(g, s))) ==>
              var i := st.events[(g, s)];
              var q := st.queues[i];
              Apply(st, OtherStep(FenceQueue(g, s))) ==
                st.(queues := st.queues[i := if q.stopped then q else q.(stopped := true, dones := q.dones + 1)])
    ensures Enabled(st, OtherStep(RetireArrives(g, s)))
    ensures Apply(st, OtherStep(RetireArrives(g, s))) == st.(retirers := st.retirers + [Retirer(g, s, Arrived)])
    ensures Enabled(st, OtherStep(SessionCloses(s))) && Apply(st, OtherStep(SessionCloses(s))) == st.(closed := st.closed + {s})
    ensures Enabled(st, OtherStep(DialogAnswers(id))) <==> id in st.ledger.dialogs
    ensures id in st.ledger.dialogs ==>
              Apply(st, OtherStep(DialogAnswers(id))) ==
                st.(ledger := Ledger(st.ledger.received, st.ledger.dialogs - multiset{id}, st.ledger.answered + multiset{id}))
  {
  }

  /** A process may exit at any time, and the wait of a shutdown run out. */
  lemma ProcessCanExit(st: State, g: nat)
    requires g < |st.gens|
    ensures Enabled(st, PumpStep(g, ProcessExit))
    ensures Apply(st, PumpStep(g, ProcessExit)) == st.(gens := st.gens[g := st.gens[g].(exited := true)])
    ensures Enabled(st, PumpStep(g, ShutdownExpires)) <==> st.gens[g].pump == Stopping
    ensures st.gens[g].pump == Stopping ==>
              Apply(st, PumpStep(g, ShutdownExpires)) == st.(gens := st.gens[g := st.gens[g].(expired := true)])
  {
  }

  /** What else a worker may do: it parks behind a turn its record settled and resumes after it,
      or gives up when its queue is fenced or its process is gone; a request it cannot ask about is
      answered at once; and it leaves exactly when its queue or its session is done. */
  lemma WorkerChoices(st: State, i: nat)
    requires i < |st.queues|
    ensures var q := st.queues[i];
            && (q.worker.Handling? && q.worker.message.Event? ==>
                  && Enabled(st, WorkerStep(i, HandleEvent(true)))
                  && Apply(st, WorkerStep(i, HandleEvent(true))) == st.(queues := st.queues[i := q.(worker := Parked)]))
            && (q.worker.Handling? && q.worker.message.Request? ==>
                  && Enabled(st, WorkerStep(i, RefuseRequest))
                  && Apply(st, WorkerStep(i, RefuseRequest)) ==
                       st.(queues := st.queues[i := q.(worker := Selecting)],
                           ledger := st.ledger.(answered := st.ledger.answered + multiset{q.worker.message.id})))
            && (q.worker.Parked? ==>
                  && Enabled(st, WorkerStep(i, Resume))
                  && Apply(st, WorkerStep(i, Resume)) == st.(queues := st.queues[i := q.(worker := Selecting)])
                  && (Enabled(st, WorkerStep(i, Abandon)) <==> q.dones > 0 || (q.gen < |st.gens| && st.gens[q.gen].exited))
                  && (Enabled(st, WorkerStep(i, Abandon)) ==>
                        Apply(st, WorkerStep(i, Abandon)) == st.(queues := st.queues[i := q.(worker := Leaving)])))
            && (q.worker.Selecting? ==>
                  && (Enabled(st, WorkerStep(i, Leave)) <==>
                        (q.closes > 0 && q.messages == []) || q.dones > 0 || q.session in st.closed)
                  && (Enabled(st, WorkerStep(i, Leave)) ==>
                        Apply(st, WorkerStep(i, Leave)) == st.(queues := st.queues[i := q.(worker := Leaving)])))
  {
  }
}
