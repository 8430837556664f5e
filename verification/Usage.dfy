/** Usage accounting (session_updates.go:209-366, internal/codex/rollout.go:164-197). A started
    thread reports each model request as its response completes; a resumed one is read from the
    thread's cumulative reports, against the baseline its rollout recorded. */
module Usage {
  import opened Wrappers

  datatype Usage = Usage(input: int, cachedRead: int, cacheWrite: int, output: int, reasoning: int, total: int)

  const Zero := Usage(0, 0, 0, 0, 0, 0)

  function Plus(a: Usage, b: Usage): Usage {
    Usage(a.input + b.input, a.cachedRead + b.cachedRead, a.cacheWrite + b.cacheWrite,
          a.output + b.output, a.reasoning + b.reasoning, a.total + b.total)
  }

  /** One thread report: the last request, the thread's cumulative usage, the window. */
  datatype Report = Report(last: Usage, total: Usage, window: int)

  const NoReport := Report(Zero, Zero, 0)

  /** wire.CallUsage; `input` is the uncached input, absent when it came out negative. */
  datatype Breakdown = Breakdown(responseID: string, input: Option<int>, cachedRead: int, cacheWrite: int, output: int)

  /** Known: some figure reports a token. */
  predicate Known(b: Breakdown) {
    (b.input.Some? && b.input.value > 0) || b.cachedRead > 0 || b.cacheWrite > 0 || b.output > 0
  }

  function CallUsage(u: Usage, responseID: string): Breakdown {
    var uncached := u.input - u.cachedRead - u.cacheWrite;
    Breakdown(responseID, if uncached >= 0 then Some(uncached) else None, u.cachedRead, u.cacheWrite, u.output)
  }

  datatype Update = Update(size: int, used: int, breakdown: Option<Breakdown>)

  /** The prompt response's sum; optional counts are absent while every request reported none. */
  datatype Sum = Sum(
    input: int,
    output: int,
    total: int,
    cachedRead: Option<int>,
    cacheWrite: Option<int>,
    reasoning: Option<int>)

  function AddCount(sum: Option<int>, count: int): Option<int> {
    if count <= 0 then sum else if sum.None? then Some(count) else Some(sum.value + count)
  }

  function AddUsage(sum: Option<Sum>, u: Usage): Sum {
    var s := if sum.None? then Sum(0, 0, 0, None, None, None) else sum.value;
    Sum(s.input + u.input, s.output + u.output, s.total + u.total,
        AddCount(s.cachedRead, u.cachedRead), AddCount(s.cacheWrite, u.cacheWrite), AddCount(s.reasoning, u.reasoning))
  }

  /** What the session and the running cycle keep; `updates` is what the host was sent. */
  datatype Meter = Meter(usage: Report, responses: bool, gateway: int, sum: Option<Sum>, updates: seq<Update>)

  function Window(m: Meter): int {
    if m.gateway != 0 then m.gateway else m.usage.window
  }

  function Recorded(m: Meter, u: Usage, responseID: string, live: bool): Meter {
    var call := CallUsage(u, responseID);
    if !Known(call) then m
    else
      var m1 := m.(sum := Some(AddUsage(m.sum, u)));
      if !live || u.total <= 0 then m1
      else m1.(updates := m.updates + [Update(Window(m), u.total, Some(call))])
  }

  function ResponseCompleted(m: Meter, u: Usage, responseID: string, live: bool): Meter {
    if !m.responses then m else Recorded(m, u, responseID, live)
  }

  function TokenUsage(m: Meter, report: Report, live: bool): Meter {
    var m1 := m.(usage := report);
    if report.total != m.usage.total then
      if m.responses then m1 else Recorded(m1, report.last, "", live)
    else if !live || report.last.total <= 0 || report.last == m.usage.last then m1
    else m1.(updates := m.updates + [Update(Window(m1), report.last.total, None)])
  }

  // ---- the rollout's baseline ----

  /** A rollout row: a token count with or without its info, or anything else. */
  datatype Row = TokenCount(info: Option<Report>) | OtherRow

  /** The usage the last row with one recorded, else `none`. */
  function LastOr(none: Report, rows: seq<Row>): Report
    decreases |rows|
  {
    if rows == [] then none
    else
      var last := rows[|rows| - 1];
      if last.TokenCount? && last.info.Some? then last.info.value else LastOr(none, rows[..|rows| - 1])
  }

  function LastTokenUsage(rows: seq<Row>): Report {
    LastOr(NoReport, rows)
  }

  // ---- the native history ----

  /** What happens on a thread. A request of the turn completes, and later the thread reports it;
      `Foreign` is the report of another turn's request, `Restate` repeats the last report,
      `Compact` replaces the last usage with an estimate of the compacted history, `Quiet` writes
      a row that reports no usage. */
  datatype Item =
    | Completed(usage: Usage, responseID: string)
    | Reported(usage: Usage, window: int)
    | Foreign(usage: Usage, window: int)
    | Restate
    | Compact(estimate: Usage, window: int)
    | Quiet(row: Row)

  /** The thread's report after an item. */
  function Native(r: Report, item: Item): Report {
    match item
    case Completed(_, _) => r
    case Reported(u, window) => Report(u, Plus(r.total, u), window)
    case Foreign(u, window) => Report(u, Plus(r.total, u), window)
    case Restate => r
    case Compact(estimate, window) => Report(estimate, r.total, window)
    case Quiet(_) => r
  }

  function NativeAfter(r: Report, items: seq<Item>): Report
    decreases |items|
  {
    if items == [] then r else NativeAfter(Native(r, items[0]), items[1..])
  }

  /** The row an item leaves in the thread's rollout. */
  function RowOf(r: Report, item: Item): Row {
    match item
    case Completed(_, _) => OtherRow
    case Quiet(row) => row
    case _ => TokenCount(Some(Native(r, item)))
  }

  function RowsOf(r: Report, items: seq<Item>): seq<Row>
    decreases |items|
  {
    if items == [] then [] else [RowOf(r, items[0])] + RowsOf(Native(r, items[0]), items[1..])
  }

  predicate QuietRows(items: seq<Item>) {
    forall k | 0 <= k < |items| && items[k].Quiet? :: items[k].row == OtherRow || items[k].row == TokenCount(None)
  }

  /** Each request that completes is reported once, before the next one completes
      (session_updates.go:299-303). */
  predicate Paired(pending: Option<Usage>, items: seq<Item>)
    decreases |items|
  {
    if items == [] then pending.None?
    else match items[0]
      case Completed(u, _) => pending.None? && Paired(Some(u), items[1..])
      case Reported(u, _) => pending == Some(u) && Paired(None, items[1..])
      case _ => Paired(pending, items[1..])
  }

  /** What one item makes the session do; `live` says whether the cycle is not cancelled then. */
  function Observed(m: Meter, r: Report, item: Item, live: bool): Meter {
    match item
    case Completed(u, id) => ResponseCompleted(m, u, id, live)
    case Reported(_, _) => TokenUsage(m, Native(r, item), live)
    case Foreign(_, _) => m.(usage := Native(r, item))
    case Restate => TokenUsage(m, r, live)
    case Compact(_, _) => TokenUsage(m, Native(r, item), live)
    case Quiet(_) => m
  }

  /** The session over a history; `live[k]` goes with item k. */
  function ObservedAll(m: Meter, r: Report, items: seq<Item>, live: seq<bool>): Meter
    requires |live| == |items|
    decreases |items|
  {
    if items == [] then m
    else ObservedAll(Observed(m, r, items[0], live[0]), Native(r, items[0]), items[1..], live[1..])
  }

  // ---- the object ----

  class UsageMeter {
    var usage: Report
    var responses: bool
    var gateway: int
    var sum: Option<Sum>
    var updates: seq<Update>

    ghost function Value(): Meter
      reads this
    {
      Meter(usage, responses, gateway, sum, updates)
    }

    constructor (responses: bool, gateway: int)
      ensures Value() == Meter(NoReport, responses, gateway, None, [])
    {
      this.responses, this.gateway := responses, gateway;
      usage, sum, updates := NoReport, None, [];
    }

    method ObserveUsage(report: Report) returns (previous: Report)
      modifies `usage
      ensures previous == old(usage) && Value() == old(Value()).(usage := report)
    {
      previous := usage;
      usage := report;
    }

    /** restoreUsage with LastTokenUsage's loop, from the last row back. */
    method RestoreUsage(rows: seq<Row>)
      modifies `usage
      ensures Value() == old(Value()).(usage := LastTokenUsage(rows))
    {
      var k := |rows|;
      assert rows[..k] == rows;
      usage := NoReport;
      while k > 0
        invariant 0 <= k <= |rows| && usage == NoReport
        invariant LastTokenUsage(rows) == LastTokenUsage(rows[..k])
      {
        assert rows[..k][..k - 1] == rows[..k - 1];
        if rows[k - 1].TokenCount? && rows[k - 1].info.Some? {
          usage := rows[k - 1].info.value;
          return;
        }
        k := k - 1;
      }
      assert rows[..0] == [];
    }

    method RecordRequest(u: Usage, responseID: string, live: bool)
      modifies `sum, `updates
      ensures Value() == Recorded(old(Value()), u, responseID, live)
    {
      var call := CallUsage(u, responseID);
      if !Known(call) {
        return;
      }
      sum := Some(AddUsage(sum, u));
      if !live || u.total <= 0 {
        return;
      }
      updates := updates + [Update(if gateway != 0 then gateway else usage.window, u.total, Some(call))];
    }

    method EmitResponseCompleted(u: Option<Usage>, responseID: string, live: bool)
      modifies `sum, `updates
      ensures Value() == if u.None? then old(Value()) else ResponseCompleted(old(Value()), u.value, responseID, live)
    {
      if u.None? || !responses {
        return;
      }
      RecordRequest(u.value, responseID, live);
    }

    method EmitTokenUsage(report: Report, live: bool)
      modifies this
      ensures Value() == TokenUsage(old(Value()), report, live)
    {
      var previous := ObserveUsage(report);
      if report.total != previous.total {
        if !responses {
          RecordRequest(report.last, "", live);
        }
        return;
      }
      if !live || report.last.total <= 0 || report.last == previous.last {
        return;
      }
      updates := updates + [Update(if gateway != 0 then gateway else usage.window, report.last.total, None)];
    }
  }
}
