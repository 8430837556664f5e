/** What routing does with a record, told from the fields of the queue alone, and where every
    received record ends. */
module DeliveryRouting {
  import opened SessionQueues
  import opened Wrappers
  import opened Delivery
  import opened DeliveryProofs
  import opened DeliveryTheorems

  /** The session's registered queue, or the empty one that is made for it. */
  function QueueOf(st: State, g: nat, s: nat): Queue
    requires (g, s) in st.events ==> st.events[(g, s)] < |st.queues|
  {
    if (g, s) in st.events then st.queues[st.events[(g, s)]] else Queue(g, s, [], 0, 0, false, Selecting, [], [])
  }

  /** What the routing step finds: a closed session, a stopped queue, or a full one. */
  predicate MeetsClosed(st: State, g: nat)
    requires PumpCan(st, g, Route)
  {
    st.gens[g].pump.session in st.closed
  }

  predicate MeetsStopped(st: State, g: nat)
    requires PumpCan(st, g, Route)
  {
    QueueOf(st, g, st.gens[g].pump.session).stopped
  }

  predicate MeetsFull(st: State, g: nat)
    requires PumpCan(st, g, Route)
  {
    |QueueOf(st, g, st.gens[g].pump.session).messages| >= 256
  }

  /** Where the pump stands after a record nobody took: a request is its to answer. */
  predicate Returns(p: Pump, m: Message, contains: Option<nat>) {
    match m
    case Request(_, id) => p == Refusing(id, contains)
    case Event(_) => if contains.None? then p == Reading else p == Spawning(contains.value)
  }

  predicate OthersKept(st: State, st': State, key: (nat, nat)) {
    && (forall k | k in st.events && k != key :: k in st'.events && st'.events[k] == st.events[k])
    && (forall k | k in st'.events && k != key :: k in st.events)
    && (forall i | 0 <= i < |st.queues| && !(key in st.events && st.events[key] == i) ::
          i < |st'.queues| && st'.queues[i] == st.queues[i])
  }

  /** A record of an open session whose queue is unfenced and has room, or does not exist yet,
      stands last in it afterwards, be it an event or a request; the queue is unchanged beside it. */
  lemma RecordIsQueued(st: State, g: nat)
    requires EventsOk(st) && PumpCan(st, g, Route)
    requires !MeetsClosed(st, g) && !MeetsStopped(st, g) && !MeetsFull(st, g)
    ensures var m, s := st.gens[g].pump.message, st.gens[g].pump.session;
            var st', q := Apply(st, PumpStep(g, Route)), QueueOf(st, g, s);
            && g < |st'.gens| && st'.gens[g].pump == Reading && OthersKept(st, st', (g, s))
            && (g, s) in st'.events && st'.events[(g, s)] < |st'.queues|
            && QueueOf(st', g, s) == q.(messages := q.messages + [m], routed := q.routed + [m])
  {
  }

  /** A full queue takes nothing: it is fenced, and its session is contained. */
  lemma FullQueueIsFenced(st: State, g: nat)
    requires EventsOk(st) && PumpCan(st, g, Route)
    requires !MeetsClosed(st, g) && !MeetsStopped(st, g) && MeetsFull(st, g)
    ensures var m, s := st.gens[g].pump.message, st.gens[g].pump.session;
            var st', q := Apply(st, PumpStep(g, Route)), QueueOf(st, g, s);
            && g < |st'.gens| && Returns(st'.gens[g].pump, m, Some(q.session)) && OthersKept(st, st', (g, s))
            && st'.events == st.events && (g, s) in st'.events && st'.events[(g, s)] < |st'.queues|
            && QueueOf(st', g, s) == q.(stopped := true, dones := q.dones + 1)
  {
  }

  /** A stopped queue or a closed session takes nothing, and nothing changes. */
  lemma RecordIsDropped(st: State, g: nat)
    requires EventsOk(st) && PumpCan(st, g, Route) && (MeetsClosed(st, g) || MeetsStopped(st, g))
    ensures var st' := Apply(st, PumpStep(g, Route));
            && g < |st'.gens| && Returns(st'.gens[g].pump, st.gens[g].pump.message, None)
            && st'.events == st.events && st'.queues == st.queues
  {
  }

  // ---- over runs ----

  lemma RouteLeavesPump(st: State, h: nat, g: nat)
    requires PumpCan(st, h, Route) && g < |st.gens| && h != g
    ensures |RouteMessage(st, h).gens| == |st.gens| && RouteMessage(st, h).gens[g] == st.gens[g]
  {
    var s := st.gens[h].pump.session;
    if s !in st.closed {
      assert WithQueueFor(st, h, s).gens == st.gens;
    }
  }

  /** A received record stays with its pump until it is routed. */
  lemma RoutingStays(st: State, step: Step, g: nat)
    requires Enabled(st, step) && g < |st.gens| && st.gens[g].pump.Routing? && step != PumpStep(g, Route)
    ensures g < |Apply(st, step).gens| && Apply(st, step).gens[g].pump == st.gens[g].pump
  {
    match step
    case AgentStep(move) =>
    case PumpStep(h, move) =>
      if move.Route? {
        RouteKeepsProcess(st, h, g);
        RouteLeavesPump(st, h, g);
      }
    case WorkerStep(i, move) => WorkerKeepsGens(st, i, move);
    case OtherStep(move) => OtherKeepsGens(st, move);
  }

  lemma {:induction false} RoutedStays(st: State, more: seq<Step>, i: nat)
    requires Inv(st) && Runs(st, more) && i < |st.queues|
    ensures i < |After(st, more).queues| && Key(After(st, more).queues[i]) == Key(st.queues[i])
    ensures st.queues[i].routed <= After(st, more).queues[i].routed
    decreases |more|
  {
    if more == [] {
    } else {
      StepGoesOn(st, more[0], i);
      StepKeepsInv(st, more[0]);
      RoutedStays(Apply(st, more[0]), more[1..], i);
    }
  }

  /** At the routing step of the record the session was closed, or its queue stopped or full. */
  predicate RefusedOn(st: State, more: seq<Step>, g: nat)
    requires Runs(st, more)
    decreases |more|
  {
    more != []
    && (if more[0] == PumpStep(g, Route) then MeetsClosed(st, g) || MeetsStopped(st, g) || MeetsFull(st, g)
        else RefusedOn(Apply(st, more[0]), more[1..], g))
  }

  predicate RoutedIn(st: State, m: Message, key: (nat, nat)) {
    exists i | 0 <= i < |st.queues| :: Key(st.queues[i]) == key && m in st.queues[i].routed
  }

  lemma RoutedFrom(st: State, g: nat, more: seq<Step>)
    requires Inv(st) && PumpCan(st, g, Route) && Runs(Apply(st, PumpStep(g, Route)), more)
    requires !MeetsClosed(st, g) && !MeetsStopped(st, g) && !MeetsFull(st, g)
    ensures RoutedIn(After(Apply(st, PumpStep(g, Route)), more), st.gens[g].pump.message, (g, st.gens[g].pump.session))
  {
    var m, s := st.gens[g].pump.message, st.gens[g].pump.session;
    var st' := Apply(st, PumpStep(g, Route));
    RecordIsQueued(st, g);
    StepKeepsInv(st, PumpStep(g, Route));
    var i, q := st'.events[(g, s)], QueueOf(st, g, s);
    RoutedStays(st', more, i);
    assert st'.queues[i].routed[|q.routed|] == m;
    assert After(st', more).queues[i].routed[|q.routed|] == m;
  }

  /** Every received record is still in its pump's hands, or stands among the routed ones of a
      queue of its session, unless the step that routed it met a closed session or a stopped or
      full queue. */
  lemma {:induction false} ReceivedIsRouted(st: State, more: seq<Step>, g: nat)
    requires Inv(st) && Runs(st, more) && g < |st.gens| && st.gens[g].pump.Routing?
    ensures var m, s, st' := st.gens[g].pump.message, st.gens[g].pump.session, After(st, more);
            || (g < |st'.gens| && st'.gens[g].pump == Routing(m, s))
            || RoutedIn(st', m, (g, s))
            || RefusedOn(st, more, g)
    decreases |more|
  {
    if more == [] {
    } else {
      StepKeepsInv(st, more[0]);
      if more[0] == PumpStep(g, Route) {
        if !MeetsClosed(st, g) && !MeetsStopped(st, g) && !MeetsFull(st, g) {
          RoutedFrom(st, g, more[1..]);
        }
      } else {
        RoutingStays(st, more[0], g);
        ReceivedIsRouted(Apply(st, more[0]), more[1..], g);
      }
    }
  }

  /** A received record is in its pump's hands, with the session it was resolved to, and the next
      record has the next position. */
  lemma ReceivedIsHeld(st: State, g: nat, m: Message, s: nat)
    requires g < |st.gens| && st.gens[g].pump == Reading && m.at == st.gens[g].read
    ensures Enabled(st, PumpStep(g, Receive(m, s)))
    ensures var st' := Apply(st, PumpStep(g, Receive(m, s)));
            && g < |st'.gens| && st'.gens[g].pump == Routing(m, s) && st'.gens[g].read == st.gens[g].read + 1
            && st'.queues == st.queues && st'.events == st.events
  {
  }

  /** A request whose thread no session owns is the pump's to answer, and counts as received. */
  lemma UnownedIsRefused(st: State, g: nat, id: nat)
    requires g < |st.gens| && st.gens[g].pump == Reading
    ensures Enabled(st, PumpStep(g, ReceiveUnowned(id)))
    ensures Apply(st, PumpStep(g, ReceiveUnowned(id))) ==
              st.(gens := st.gens[g := st.gens[g].(pump := Refusing(id, None), read := st.gens[g].read + 1)],
                  ledger := st.ledger.(received := st.ledger.received + multiset{id}))
  {
  }
}
