/** What the client's correlation promises, for every run. */
module RpcTheorems {
  import opened Decimals
  import opened Wrappers
  import opened Rpc

  /** The frames of a stream that are for the consumer, in stream order. */
  function Consumed(frames: seq<Frame>): seq<Frame> {
    if frames == [] then []
    else
      var last := frames[|frames| - 1];
      Consumed(frames[..|frames| - 1]) + (if !IsResponse(last) && ForConsumer(last) then [last] else [])
  }

  // ---- the invariant ----

  predicate Registered(st: State, c: nat) {
    IdOf(c) in st.pending && st.pending[IdOf(c)] == c
  }

  predicate BeingAnswered(st: State, c: nat) {
    st.reader.at.Handing? && st.reader.at.call == c
  }

  /** A waiter gets one frame or is closed, never both; until then its call is still in the map
      or in the reader's hands. */
  predicate CallOk(st: State, c: nat)
    requires c < |st.calls|
  {
    var x := st.calls[c];
    && |x.waiter.got| <= 1
    && (forall k | 0 <= k < |x.waiter.got| :: x.waiter.got[k].id == IdOf(c) && IsResponse(x.waiter.got[k]))
    && (x.waiter.inbox.Some? ==> x.waiter.got == [x.waiter.inbox.value])
    && (x.at.Answered? ==> x.waiter.got == [x.at.frame])
    && (x.waiter.closed ==> x.waiter.got == [] && st.failed)
    && (x.at.Disconnected? ==> x.waiter.closed)
    && (Registered(st, c) || BeingAnswered(st, c) ==>
          x.waiter.got == [] && !x.waiter.closed && !x.at.Registering? && !x.at.Refused?)
    && (Registered(st, c) ==> !BeingAnswered(st, c) && !x.at.Left?)
    && (x.at.Registering? || x.at.Refused? ==> x.waiter == Waiter(None, [], false))
    && (x.at.Writing? || x.at.Awaiting? ==>
          Registered(st, c) || BeingAnswered(st, c) || x.waiter.inbox.Some? || x.waiter.closed)
  }

  predicate CallsOk(st: State) {
    forall c | 0 <= c < |st.calls| :: CallOk(st, c)
  }

  predicate PendingOk(st: State) {
    && (forall id | id in st.pending :: st.pending[id] < |st.calls| && id == IdOf(st.pending[id]))
    && (st.failed ==> st.pending == map[])
  }

  /** The order of what was delivered, whichever way the reader goes on. */
  predicate InOrder(r: Reader) {
    && (r.at.Offering? ==> r.delivered + [r.at.frame] == Consumed(r.read))
    && (r.at.Reading? || r.at.Handing? ==> r.delivered == Consumed(r.read))
    && r.delivered <= Consumed(r.read)
  }

  predicate ReaderOk(st: State) {
    var r := st.reader;
    && (r.at.Handing? ==> r.at.call < |st.calls| && r.at.frame.id == IdOf(r.at.call) && IsResponse(r.at.frame))
    && (st.failed <==> r.at.ClosingStreams? || r.at.Finished?)
    && InOrder(r)
  }

  predicate Inv(st: State) {
    CallsOk(st) && PendingOk(st) && ReaderOk(st)
  }

  // ---- preservation ----

  lemma ConsumedAdds(frames: seq<Frame>, f: Frame)
    ensures Consumed(frames + [f]) == Consumed(frames) + (if !IsResponse(f) && ForConsumer(f) then [f] else [])
  {
    assert (frames + [f])[..|frames|] == frames;
  }

  lemma CallKeepsCalls(st: State, c: nat, move: CallMove, d: nat)
    requires Inv(st) && CallCan(st, c, move) && d < |st.calls|
    ensures |CallDoes(st, c, move).calls| == |st.calls| && CallOk(CallDoes(st, c, move), d)
  {
    assert CallOk(st, c) && CallOk(st, d);
    if IdOf(c) == IdOf(d) {
      DecimalInjective(c + 1, d + 1);
    }
  }

  lemma CallKeepsInv(st: State, c: nat, move: CallMove)
    requires Inv(st) && CallCan(st, c, move)
    ensures Inv(CallDoes(st, c, move))
  {
    forall d | 0 <= d < |st.calls| ensures CallOk(CallDoes(st, c, move), d) {
      CallKeepsCalls(st, c, move, d);
    }
  }

  lemma FrameKeepsCalls(st: State, f: Frame, d: nat)
    requires Inv(st) && ReadCan(st, Read(f)) && d < |st.calls|
    ensures ReadDoes(st, Read(f)).calls == st.calls && CallOk(ReadDoes(st, Read(f)), d)
  {
    assert CallOk(st, d);
    if IsResponse(f) && f.id in st.pending {
      var c := st.pending[f.id];
      assert CallOk(st, c) && IdOf(c) == f.id;
      if IdOf(d) == f.id {
        DecimalInjective(c + 1, d + 1);
      }
    }
  }

  lemma HandKeepsCalls(st: State, d: nat)
    requires Inv(st) && ReadCan(st, Hand) && d < |st.calls|
    ensures |ReadDoes(st, Hand).calls| == |st.calls| && CallOk(ReadDoes(st, Hand), d)
  {
    assert CallOk(st, d) && CallOk(st, st.reader.at.call);
  }

  lemma ReadKeepsCalls(st: State, move: ReadMove, d: nat)
    requires Inv(st) && ReadCan(st, move) && d < |st.calls|
    ensures |ReadDoes(st, move).calls| == |st.calls| && CallOk(ReadDoes(st, move), d)
  {
    match move
    case Read(f) => FrameKeepsCalls(st, f, d);
    case Hand => HandKeepsCalls(st, d);
    case _ => assert CallOk(st, d);
  }

  lemma ReadKeepsOrder(st: State, move: ReadMove)
    requires InOrder(st.reader) && ReadCan(st, move)
    ensures InOrder(ReadDoes(st, move).reader)
  {
    if move.Read? {
      ConsumedAdds(st.reader.read, move.frame);
    }
  }

  lemma ReadKeepsReader(st: State, move: ReadMove)
    requires PendingOk(st) && ReaderOk(st) && ReadCan(st, move)
    ensures ReaderOk(ReadDoes(st, move))
  {
    ReadKeepsOrder(st, move);
  }

  lemma ReadKeepsInv(st: State, move: ReadMove)
    requires Inv(st) && ReadCan(st, move)
    ensures Inv(ReadDoes(st, move))
  {
    ReadKeepsReader(st, move);
    forall d | 0 <= d < |st.calls| ensures CallOk(ReadDoes(st, move), d) {
      ReadKeepsCalls(st, move, d);
    }
  }

  lemma NewCallKeepsInv(st: State)
    requires Inv(st)
    ensures Inv(Apply(st, NewCall))
  {
    var st' := Apply(st, NewCall);
    forall d | 0 <= d < |st'.calls| ensures CallOk(st', d) {
      if d < |st.calls| {
        assert CallOk(st, d);
      } else {
        assert !Registered(st, d);
      }
    }
  }

  lemma StepKeepsInv(st: State, step: Step)
    requires Inv(st) && Enabled(st, step)
    ensures Inv(Apply(st, step))
  {
    match step
    case NewCall => NewCallKeepsInv(st);
    case CallStep(c, move) => CallKeepsInv(st, c, move);
    case ReadStep(move) => ReadKeepsInv(st, move);
  }

  lemma {:induction false} RunKeepsInv(st: State, steps: seq<Step>)
    requires Inv(st) && Runs(st, steps)
    ensures Inv(After(st, steps))
    decreases |steps|
  {
    if steps == [] {
    } else {
      StepKeepsInv(st, steps[0]);
      RunKeepsInv(Apply(st, steps[0]), steps[1..]);
    }
  }

  lemma ReachableInv(steps: seq<Step>)
    requires Runs(Initial, steps)
    ensures Inv(After(Initial, steps))
  {
    RunKeepsInv(Initial, steps);
  }

  // ---- correlation ----

  /** A call's waiter gets at most one frame, which is a response carrying the call's own id, or
      it is closed, never both; and a call answers with that frame. */
  lemma OneFrameOrClosed(steps: seq<Step>, c: nat)
    requires Runs(Initial, steps) && c < |After(Initial, steps).calls|
    ensures var x := After(Initial, steps).calls[c];
            && |x.waiter.got| <= 1
            && (x.waiter.got != [] ==> x.waiter.got[0].id == IdOf(c) && IsResponse(x.waiter.got[0]) && !x.waiter.closed)
            && (x.at.Answered? ==> x.waiter.got == [x.at.frame])
            && (x.at.Disconnected? ==> x.waiter.closed)
  {
    ReachableInv(steps);
    assert CallOk(After(Initial, steps), c);
  }

  /** The reader never blocks on a waiter and never sends on a closed one. */
  lemma ReaderNeverBlocks(steps: seq<Step>)
    requires Runs(Initial, steps) && After(Initial, steps).reader.at.Handing?
    ensures var st := After(Initial, steps);
            var c := st.reader.at.call;
            c < |st.calls| && st.calls[c].waiter.inbox.None? && !st.calls[c].waiter.closed
  {
    ReachableInv(steps);
    assert CallOk(After(Initial, steps), After(Initial, steps).reader.at.call);
  }

  /** No two calls ever carry the same id. */
  lemma IdsNeverReused(c: nat, d: nat)
    requires IdOf(c) == IdOf(d)
    ensures c == d
  {
    DecimalInjective(c + 1, d + 1);
  }

  predicate RegistrationFails(st: State, c: nat)
    requires CallCan(st, c, Register)
  {
    CallDoes(st, c, Register) == st.(calls := st.calls[c := st.calls[c].(at := Refused)])
  }

  /** After finish the map is empty for good, and every registration is refused. */
  lemma {:induction false} FinishedStaysEmpty(st: State, more: seq<Step>)
    requires Inv(st) && Runs(st, more) && st.failed
    ensures After(st, more).pending == map[] && After(st, more).failed
    ensures forall c: nat | CallCan(After(st, more), c, Register) :: RegistrationFails(After(st, more), c)
    decreases |more|
  {
    if more == [] {
    } else {
      StepKeepsInv(st, more[0]);
      FinishedStaysEmpty(Apply(st, more[0]), more[1..]);
    }
  }

  /** Nobody is left waiting: after finish every call that awaits its answer has it or sees its
      waiter closed. */
  lemma NobodyHangs(steps: seq<Step>, c: nat)
    requires Runs(Initial, steps) && After(Initial, steps).failed
    requires c < |After(Initial, steps).calls| && After(Initial, steps).calls[c].at.Awaiting?
    ensures CallCan(After(Initial, steps), c, Receive)
  {
    ReachableInv(steps);
    assert CallOk(After(Initial, steps), c);
  }

  /** A response that is not awaited changes nothing but the stream position: one that comes
      before its call registered, after it withdrew, or a second time. */
  lemma UnawaitedIsDropped(steps: seq<Step>, f: Frame)
    requires Runs(Initial, steps) && After(Initial, steps).reader.at.Reading? && IsResponse(f)
    requires forall c | 0 <= c < |After(Initial, steps).calls| && IdOf(c) == f.id ::
               var x := After(Initial, steps).calls[c];
               x.at.Registering? || x.at.Refused? || x.at.Left? || x.waiter.got != []
    ensures var st := After(Initial, steps);
            ReadDoes(st, Read(f)) == st.(reader := st.reader.(read := st.reader.read + [f]))
  {
    ReachableInv(steps);
    var st := After(Initial, steps);
    forall c | 0 <= c < |st.calls| && IdOf(c) == f.id ensures !Registered(st, c) {
      assert CallOk(st, c);
    }
  }

  /** The consumer gets the requests and notifications in stream order, none twice and none
      skipped, whichever of the two channels each came on. */
  lemma StreamOrder(steps: seq<Step>)
    requires Runs(Initial, steps)
    ensures var r := After(Initial, steps).reader;
            && r.delivered <= Consumed(r.read)
            && (r.at.Reading? ==> r.delivered == Consumed(r.read))
  {
    ReachableInv(steps);
  }

  // ---- a call from its beginning to its end ----

  lemma Pair(st: State, a: Step, b: Step)
    requires Enabled(st, a) && Enabled(Apply(st, a), b)
    ensures Runs(st, [a, b]) && After(st, [a, b]) == Apply(Apply(st, a), b)
  {
    var st1 := Apply(st, a);
    assert [b][1..] == [] && Runs(st1, [b]);
    assert After(st1, [b]) == After(Apply(st1, b), []) == Apply(st1, b);
    assert [a, b][1..] == [b];
  }

  lemma Triple(st: State, a: Step, b: Step, c: Step)
    requires Enabled(st, a) && Enabled(Apply(st, a), b) && Enabled(Apply(Apply(st, a), b), c)
    ensures Runs(st, [a, b, c]) && After(st, [a, b, c]) == Apply(Apply(Apply(st, a), b), c)
  {
    Pair(Apply(st, a), b, c);
    assert [a, b, c][1..] == [b, c];
  }

  lemma {:induction false} RunOn(st: State, first: seq<Step>, more: seq<Step>)
    requires Runs(st, first) && Runs(After(st, first), more)
    ensures Runs(st, first + more) && After(st, first + more) == After(After(st, first), more)
    decreases |first|
  {
    if first == [] {
      assert first + more == more;
    } else {
      assert (first + more)[1..] == first[1..] + more;
      RunOn(Apply(st, first[0]), first[1..], more);
    }
  }

  /** The response the app-server owes a call. */
  function Reply(c: nat, body: nat): Frame {
    Frame(IdOf(c), "", body)
  }

  /** The call's own steps, and the reader's with the call's receipt. */
  function Conversation(c: nat, body: nat): seq<Step> {
    [NewCall, CallStep(c, Register), CallStep(c, Write(true))]
    + [ReadStep(Read(Reply(c, body))), ReadStep(Hand), CallStep(c, Receive)]
  }

  lemma DecimalIsText(n: nat)
    ensures Decimal(n) != ""
  {
  }

  lemma Converses(st: State, c: nat, body: nat)
    requires st.reader.at.Reading? && !st.failed && c == |st.calls| && IdOf(c) !in st.pending && IdOf(c) != ""
    ensures var f := Reply(c, body);
            && Runs(st, Conversation(c, body))
            && After(st, Conversation(c, body)) ==
                 st.(calls := st.calls + [Call(Answered(f), Waiter(None, [f], false))],
                     reader := st.reader.(read := st.reader.read + [f]))
  {
    var f := Reply(c, body);
    Triple(st, NewCall, CallStep(c, Register), CallStep(c, Write(true)));
    var st3 := Apply(Apply(Apply(st, NewCall), CallStep(c, Register)), CallStep(c, Write(true)));
    assert st3 == st.(calls := st.calls + [Call(Awaiting, Waiter(None, [], false))], pending := st.pending[IdOf(c) := c]);
    assert st3.pending - {f.id} == st.pending;
    var st4 := Apply(st3, ReadStep(Read(f)));
    assert st4 == st3.(pending := st.pending, reader := st.reader.(at := Handing(c, f), read := st.reader.read + [f]));
    var st5 := Apply(st4, ReadStep(Hand));
    assert [] + [f] == [f];
    assert st5.calls[c] == Call(Awaiting, Waiter(Some(f), [f], false));
    assert st5.calls == st.calls + [Call(Awaiting, Waiter(Some(f), [f], false))];
    assert st5 == st.(calls := st.calls + [Call(Awaiting, Waiter(Some(f), [f], false))],
                      reader := st.reader.(read := st.reader.read + [f]));
    Triple(st3, ReadStep(Read(f)), ReadStep(Hand), CallStep(c, Receive));
    RunOn(st, [NewCall, CallStep(c, Register), CallStep(c, Write(true))],
          [ReadStep(Read(f)), ReadStep(Hand), CallStep(c, Receive)]);
  }

  /** While the transport stands and the reader reads, a new call registers, writes, and is
      answered with the response that carries its id, whatever else is pending; nothing else changes. */
  lemma CallIsAnswered(steps: seq<Step>, body: nat)
    requires Runs(Initial, steps) && After(Initial, steps).reader.at.Reading?
    ensures var st := After(Initial, steps);
            var c, f := |st.calls|, Reply(|st.calls|, body);
            && Runs(st, Conversation(c, body))
            && After(st, Conversation(c, body)) ==
                 st.(calls := st.calls + [Call(Answered(f), Waiter(None, [f], false))],
                     reader := st.reader.(read := st.reader.read + [f]))
  {
    ReachableInv(steps);
    var st := After(Initial, steps);
    var c, f := |st.calls|, Reply(|st.calls|, body);
    DecimalIsText(c + 1);
    if IdOf(c) in st.pending {
      IdsNeverReused(c, st.pending[IdOf(c)]);
    }
    Converses(st, c, body);
  }

  /** A call that awaits gets the frame in its waiter, and sees the waiter closed only when there is
      none. */
  lemma CallReceives(st: State, c: nat)
    requires c < |st.calls| && st.calls[c].at.Awaiting?
    ensures var x := st.calls[c];
            && (CallCan(st, c, Receive) <==> x.waiter.inbox.Some? || x.waiter.closed)
            && (CallCan(st, c, Receive) ==>
                  CallDoes(st, c, Receive) ==
                    st.(calls := st.calls[c := if x.waiter.inbox.Some?
                                               then Call(Answered(x.waiter.inbox.value), x.waiter.(inbox := None))
                                               else x.(at := Disconnected)]))
  {
  }

  const Finishing: seq<Step> := [ReadStep(Stop), ReadStep(ReadMove.Fail), ReadStep(CloseStreams)]

  /** A reader whose stream ends fails the transport: the map is emptied, every call it held has its
      waiter closed and no other call is touched, and then the consumer's streams are closed. */
  lemma StreamEndFinishes(st: State)
    requires st.reader.at == Reading
    ensures Runs(st, Finishing)
    ensures var st' := After(st, Finishing);
            && st'.pending == map[] && st'.failed && |st'.calls| == |st.calls|
            && st'.reader == st.reader.(at := Finished, closed := true)
            && forall c | 0 <= c < |st.calls| ::
                 st'.calls[c] == if IdOf(c) in st.pending && st.pending[IdOf(c)] == c
                                 then st.calls[c].(waiter := st.calls[c].waiter.(closed := true)) else st.calls[c]
  {
    Triple(st, ReadStep(Stop), ReadStep(ReadMove.Fail), ReadStep(CloseStreams));
  }

  /** A call that awaits can give up and one whose write fails withdraws: its id is taken back, and
      nothing else changes. */
  lemma CallCanLeave(st: State, c: nat)
    requires c < |st.calls| && (st.calls[c].at.Awaiting? || st.calls[c].at.Writing?)
    ensures var more := [CallStep(c, if st.calls[c].at.Awaiting? then GiveUp else Write(false)), CallStep(c, Withdraw)];
            && Runs(st, more)
            && After(st, more) == st.(calls := st.calls[c := st.calls[c].(at := Left)], pending := st.pending - {IdOf(c)})
  {
    var one := CallStep(c, if st.calls[c].at.Awaiting? then GiveUp else Write(false));
    assert Apply(st, one) == st.(calls := st.calls[c := st.calls[c].(at := Withdrawing)]);
    var st1 := Apply(st, one);
    assert st1.calls[c := st1.calls[c].(at := Left)] == st.calls[c := st.calls[c].(at := Left)];
    Pair(st, one, CallStep(c, Withdraw));
  }

  // ---- by the two fields of a frame ----

  /** The frames that satisfy the test, in order. */
  function Picked(frames: seq<Frame>, test: Frame -> bool): seq<Frame> {
    if frames == [] then []
    else Picked(frames[..|frames| - 1], test) + (if test(frames[|frames| - 1]) then [frames[|frames| - 1]] else [])
  }

  const IsNamed := (f: Frame) => f.name != ""
  const HasId := (f: Frame) => f.id != ""
  const HasNoId := (f: Frame) => f.id == ""
  const IsRequest := (f: Frame) => f.name != "" && f.id != ""
  const IsNotification := (f: Frame) => f.name != "" && f.id == ""

  /** A frame with a method name, with an id or without, is the next thing the consumer is offered;
      it touches no call. */
  lemma NamedIsOffered(st: State, f: Frame)
    requires st.reader.at == Reading && f.name != ""
    ensures ReadCan(st, Read(f))
    ensures ReadDoes(st, Read(f)) == st.(reader := st.reader.(at := Offering(f), read := st.reader.read + [f]))
  {
  }

  /** A consumer that takes it has it last. */
  lemma OfferedIsDelivered(st: State, ok: bool)
    requires st.reader.at.Offering?
    ensures ReadCan(st, Take(ok))
    ensures ReadDoes(st, Take(ok)) ==
              if ok then st.(reader := st.reader.(at := Reading, delivered := st.reader.delivered + [st.reader.at.frame]))
              else st.(reader := st.reader.(at := Stopped))
  {
  }

  /** A frame with an id and no method name goes to the call that waits for the id, if one does,
      and to nobody else; one with neither goes nowhere. */
  lemma UnnamedIsAnswerOrNothing(st: State, f: Frame)
    requires st.reader.at == Reading && f.name == ""
    ensures ReadCan(st, Read(f))
    ensures var read := st.reader.(read := st.reader.read + [f]);
            ReadDoes(st, Read(f)) ==
              if f.id != "" && f.id in st.pending
              then st.(pending := st.pending - {f.id}, reader := read.(at := Handing(st.pending[f.id], f)))
              else st.(reader := read)
  {
  }

  /** The waiter gets the very frame. */
  lemma HandedFrameArrives(st: State)
    requires st.reader.at.Handing? && st.reader.at.call < |st.calls|
    ensures ReadCan(st, Hand)
    ensures var c, f := st.reader.at.call, st.reader.at.frame;
            var st' := ReadDoes(st, Hand);
            && st'.reader == st.reader.(at := Reading) && st'.pending == st.pending && |st'.calls| == |st.calls|
            && st'.calls[c].waiter.inbox == Some(f) && st'.calls[c].waiter.got == st.calls[c].waiter.got + [f]
            && st'.calls[c].at == st.calls[c].at
            && forall d | 0 <= d < |st.calls| && d != c :: st'.calls[d] == st.calls[d]
  {
  }

  lemma {:induction false} ConsumedIsNamed(frames: seq<Frame>)
    ensures Consumed(frames) == Picked(frames, IsNamed)
  {
    if frames == [] {
    } else {
      ConsumedIsNamed(frames[..|frames| - 1]);
    }
  }

  lemma PickedAdds(frames: seq<Frame>, f: Frame, test: Frame -> bool)
    ensures Picked(frames + [f], test) == Picked(frames, test) + (if test(f) then [f] else [])
  {
    assert (frames + [f])[..|frames|] == frames;
  }

  lemma {:induction false} PickedTwice(frames: seq<Frame>, first: Frame -> bool, second: Frame -> bool, both: Frame -> bool)
    requires forall f :: both(f) <==> first(f) && second(f)
    ensures Picked(Picked(frames, first), second) == Picked(frames, both)
  {
    if frames == [] {
    } else {
      var n := |frames| - 1;
      PickedTwice(frames[..n], first, second, both);
      PickedAdds(Picked(frames[..n], first), frames[n], second);
      assert Picked(frames[..n], first) + [] == Picked(frames[..n], first);
    }
  }

  /** In every run that is still reading, what the consumer has is exactly the frames read that
      carry a method name, and so the requests and the notifications are each complete and in
      order. */
  lemma NamedAreDelivered(steps: seq<Step>)
    requires Runs(Initial, steps) && After(Initial, steps).reader.at.Reading?
    ensures var r := After(Initial, steps).reader;
            && r.delivered == Picked(r.read, IsNamed)
            && Picked(r.delivered, HasId) == Picked(r.read, IsRequest)
            && Picked(r.delivered, HasNoId) == Picked(r.read, IsNotification)
  {
    StreamOrder(steps);
    var r := After(Initial, steps).reader;
    ConsumedIsNamed(r.read);
    PickedTwice(r.read, IsNamed, HasId, IsRequest);
    PickedTwice(r.read, IsNamed, HasNoId, IsNotification);
  }
}
