/** The JSON-RPC client's correlation (internal/codex/rpc.go): the pending map, the one-shot
    waiters, the read loop and its orderly finish, as a transition system over any number of
    concurrent calls. One step is one critical section under `pendingMu` or one channel
    operation. */
module Rpc {
  import opened Decimals
  import opened Wrappers

  /** A decoded frame. `id` is the raw JSON text of the id, empty when there is none. */
  datatype Frame = Frame(id: string, name: string, body: nat)

  predicate IsResponse(f: Frame) {
    f.id != "" && f.name == ""
  }

  /** Requests and notifications go to the consumer; a frame with neither id nor method is
      dropped (rpc.go:318-340). */
  predicate ForConsumer(f: Frame) {
    f.name != ""
  }

  /** The channel one call waits on; it holds one frame. `got` is every frame sent on it. */
  datatype Waiter = Waiter(inbox: Option<Frame>, got: seq<Frame>, closed: bool)

  datatype CallAt =
    | Registering
    | Writing
    | Awaiting
    | Withdrawing
    | Answered(frame: Frame)
    | Refused
    | Disconnected
    | Left

  /** Call number n carries the id `Decimal(n + 1)`: nextID.Add(1). */
  datatype Call = Call(at: CallAt, waiter: Waiter)

  /** `Handing` has taken a response's waiter out of the map, `Offering` waits for the consumer. */
  datatype ReaderAt = Reading | Handing(call: nat, frame: Frame) | Offering(frame: Frame) | Stopped | ClosingStreams | Finished

  /** `read` is every frame the loop took from the stream, `delivered` what the consumer got. */
  datatype Reader = Reader(at: ReaderAt, read: seq<Frame>, delivered: seq<Frame>, closed: bool)

  datatype State = State(pending: map<string, nat>, failed: bool, calls: seq<Call>, reader: Reader)

  const Initial: State := State(map[], false, [], Reader(Reading, [], [], false))

  function IdOf(call: nat): string {
    Decimal(call + 1)
  }

  // ---- the steps ----

  datatype CallMove = Register | Write(ok: bool) | Receive | GiveUp | Withdraw

  predicate CallCan(st: State, c: nat, move: CallMove) {
    && c < |st.calls|
    && var x := st.calls[c];
       match move
       case Register => x.at.Registering?
       case Write(_) => x.at.Writing?
       case Receive => x.at.Awaiting? && (x.waiter.inbox.Some? || x.waiter.closed)
       case GiveUp => x.at.Awaiting?
       case Withdraw => x.at.Withdrawing?
  }

  function CallDoes(st: State, c: nat, move: CallMove): State
    requires CallCan(st, c, move)
  {
    var x := st.calls[c];
    match move
    case Register =>
      if st.failed then st.(calls := st.calls[c := x.(at := Refused)])
      else st.(calls := st.calls[c := x.(at := Writing)], pending := st.pending[IdOf(c) := c])
    case Write(ok) => st.(calls := st.calls[c := x.(at := if ok then Awaiting else Withdrawing)])
    case Receive =>
      if x.waiter.inbox.Some?
      then st.(calls := st.calls[c := Call(Answered(x.waiter.inbox.value), x.waiter.(inbox := None))])
      else st.(calls := st.calls[c := x.(at := Disconnected)])
    case GiveUp => st.(calls := st.calls[c := x.(at := Withdrawing)])
    case Withdraw => st.(calls := st.calls[c := x.(at := Left)], pending := st.pending - {IdOf(c)})
  }

  /** `Take(false)` is the context ending before the consumer took the frame. */
  datatype ReadMove = Read(frame: Frame) | Hand | Take(ok: bool) | Stop | Fail | CloseStreams

  predicate ReadCan(st: State, move: ReadMove) {
    var at := st.reader.at;
    match move
    case Read(_) => at.Reading?
    case Hand => at.Handing? && at.call < |st.calls|
    case Take(_) => at.Offering?
    case Stop => at.Reading?
    case Fail => at.Stopped?
    case CloseStreams => at.ClosingStreams?
  }

  function CloseWaiter(call: Call): Call {
    call.(waiter := call.waiter.(closed := true))
  }

  /** finish closes every pending waiter and empties the map. */
  function ClosePending(calls: seq<Call>, pending: map<string, nat>): (r: seq<Call>)
    ensures |r| == |calls|
    ensures forall c | 0 <= c < |calls| ::
              r[c] == if IdOf(c) in pending && pending[IdOf(c)] == c then CloseWaiter(calls[c]) else calls[c]
  {
    seq(|calls|, c requires 0 <= c < |calls| =>
      if IdOf(c) in pending && pending[IdOf(c)] == c then CloseWaiter(calls[c]) else calls[c])
  }

  function ReadDoes(st: State, move: ReadMove): State
    requires ReadCan(st, move)
  {
    var r := st.reader;
    match move
    case Read(f) =>
      var r1 := r.(read := r.read + [f]);
      if IsResponse(f) then
        if f.id in st.pending
        then st.(pending := st.pending - {f.id}, reader := r1.(at := Handing(st.pending[f.id], f)))
        else st.(reader := r1)
      else if ForConsumer(f) then st.(reader := r1.(at := Offering(f)))
      else st.(reader := r1)
    case Hand =>
      var x := st.calls[r.at.call];
      var w := x.waiter.(inbox := Some(r.at.frame), got := x.waiter.got + [r.at.frame]);
      st.(calls := st.calls[r.at.call := x.(waiter := w)], reader := r.(at := Reading))
    case Take(ok) =>
      if ok then st.(reader := r.(at := Reading, delivered := r.delivered + [r.at.frame]))
      else st.(reader := r.(at := Stopped))
    case Stop => st.(reader := r.(at := Stopped))
    case Fail =>
      State(map[], true, ClosePending(st.calls, st.pending), r.(at := ClosingStreams))
    case CloseStreams => st.(reader := r.(at := Finished, closed := true))
  }

  datatype Step = NewCall | CallStep(c: nat, call: CallMove) | ReadStep(reading: ReadMove)

  predicate Enabled(st: State, step: Step) {
    match step
    case NewCall => true
    case CallStep(c, move) => CallCan(st, c, move)
    case ReadStep(move) => ReadCan(st, move)
  }

  function Apply(st: State, step: Step): State
    requires Enabled(st, step)
  {
    match step
    case NewCall => st.(calls := st.calls + [Call(Registering, Waiter(None, [], false))])
    case CallStep(c, move) => CallDoes(st, c, move)
    case ReadStep(move) => ReadDoes(st, move)
  }

  predicate Runs(st: State, steps: seq<Step>)
    decreases |steps|
  {
    steps == [] || (Enabled(st, steps[0]) && Runs(Apply(st, steps[0]), steps[1..]))
  }

  function After(st: State, steps: seq<Step>): State
    requires Runs(st, steps)
    decreases |steps|
  {
    if steps == [] then st else After(Apply(st, steps[0]), steps[1..])
  }
}
