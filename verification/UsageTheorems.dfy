/** The two reporting paths of Usage agree on every native history. */
module UsageTheorems {
  import opened Wrappers
  import opened Usage

  // ---- the baseline ----

  lemma {:induction false} LastOfCons(none: Report, row: Row, rows: seq<Row>)
    ensures LastOr(none, [row] + rows) == LastOr(if row.TokenCount? && row.info.Some? then row.info.value else none, rows)
    decreases |rows|
  {
    if rows == [] {
      assert [row] + rows == [row];
      assert [row][..0] == [];
    } else {
      var n := |rows| - 1;
      assert ([row] + rows)[..n + 1] == [row] + rows[..n];
      LastOfCons(none, row, rows[..n]);
    }
  }

  /** What a thread's rollout last recorded since a report, else that report, is what the thread
      last reported. */
  lemma {:induction false} RolloutRemembers(r: Report, items: seq<Item>)
    requires QuietRows(items)
    ensures LastOr(r, RowsOf(r, items)) == NativeAfter(r, items)
    decreases |items|
  {
    if items == [] {
    } else {
      var item, rest := items[0], items[1..];
      assert forall k | 0 <= k < |rest| :: rest[k] == items[k + 1];
      RolloutRemembers(Native(r, item), rest);
      LastOfCons(r, RowsOf(r, items)[0], RowsOf(Native(r, item), rest));
      assert item.Quiet? || item.Restate? ==> Native(r, item) == r;
    }
  }

  /** The baseline restored from a thread's whole rollout is the thread's own report. */
  lemma BaselineIsNative(items: seq<Item>)
    requires QuietRows(items)
    ensures LastTokenUsage(RowsOf(NoReport, items)) == NativeAfter(NoReport, items)
  {
    RolloutRemembers(NoReport, items);
  }

  // ---- each request once ----

  lemma AddingMoves(total: Usage, u: Usage)
    ensures Plus(total, u) == total <==> u == Zero
  {
  }

  lemma NothingIsUnknown(id: string)
    ensures !Known(CallUsage(Zero, id))
  {
  }

  predicate Counts(u: Usage) {
    Known(CallUsage(u, ""))
  }

  /** The requests of a history that report a token, as they complete. */
  function Completions(items: seq<Item>): seq<Usage> {
    if items == [] then []
    else
      (if items[0].Completed? && Counts(items[0].usage) then [items[0].usage] else []) + Completions(items[1..])
  }

  /** The same, as the thread reports them. */
  function Reports(items: seq<Item>): seq<Usage> {
    if items == [] then []
    else
      (if items[0].Reported? && Counts(items[0].usage) then [items[0].usage] else []) + Reports(items[1..])
  }

  function Owed(pending: Option<Usage>): seq<Usage> {
    if pending.Some? && Counts(pending.value) then [pending.value] else []
  }

  lemma {:induction false} EachIsReported(pending: Option<Usage>, items: seq<Item>)
    requires Paired(pending, items)
    ensures Reports(items) == Owed(pending) + Completions(items)
    decreases |items|
  {
    if items == [] {
    } else {
      var rest := items[1..];
      match items[0]
      case Completed(u, _) =>
        EachIsReported(Some(u), rest);
        assert Reports(items) == Reports(rest) && Completions(items) == Owed(Some(u)) + Completions(rest);
      case Reported(u, _) =>
        EachIsReported(None, rest);
        assert Reports(items) == Owed(Some(u)) + Reports(rest) && Completions(items) == Completions(rest);
      case _ =>
        EachIsReported(pending, rest);
        assert Reports(items) == Reports(rest) && Completions(items) == Completions(rest);
    }
  }

  function SumFrom(sum: Option<Sum>, usages: seq<Usage>): Option<Sum>
    decreases |usages|
  {
    if usages == [] then sum else SumFrom(Some(AddUsage(sum, usages[0])), usages[1..])
  }

  lemma ItemCounts(m: Meter, r: Report, item: Item, live: bool)
    requires m.usage == r
    ensures var m' := Observed(m, r, item, live);
            && m'.usage == Native(r, item) && m'.responses == m.responses && m'.gateway == m.gateway
            && m'.sum == if (if m.responses then item.Completed? else item.Reported?) && Counts(item.usage)
                         then Some(AddUsage(m.sum, item.usage)) else m.sum
  {
    if item.Reported? {
      AddingMoves(r.total, item.usage);
      NothingIsUnknown("");
    }
  }

  lemma {:induction false} PathCounts(m: Meter, r: Report, items: seq<Item>, live: seq<bool>)
    requires m.usage == r && |live| == |items|
    ensures ObservedAll(m, r, items, live).sum == SumFrom(m.sum, if m.responses then Completions(items) else Reports(items))
    decreases |items|
  {
    if items == [] {
    } else {
      ItemCounts(m, r, items[0], live[0]);
      PathCounts(Observed(m, r, items[0], live[0]), Native(r, items[0]), items[1..], live[1..]);
      var all := if m.responses then Completions(items) else Reports(items);
      var rest := if m.responses then Completions(items[1..]) else Reports(items[1..]);
      if (if m.responses then items[0].Completed? else items[0].Reported?) && Counts(items[0].usage) {
        assert all[1..] == rest;
      } else {
        assert all == rest;
      }
    }
  }

  /** On either path, and whenever the cycle was cancelled, the sum counts every known request
      of the turn once and nothing else. */
  lemma EachRequestOnce(m: Meter, r: Report, items: seq<Item>, live: seq<bool>)
    requires m.usage == r && |live| == |items| && Paired(None, items)
    ensures ObservedAll(m, r, items, live).sum == SumFrom(m.sum, Completions(items))
  {
    PathCounts(m, r, items, live);
    EachIsReported(None, items);
    assert Reports(items) == Completions(items);
  }

  // ---- the two paths ----

  /** An update without the response id, which only a response completion names, and without the
      window, which the paths may know at different times. */
  function Figures(u: Update): (int, Option<Breakdown>) {
    (u.used, if u.breakdown.Some? then Some(u.breakdown.value.(responseID := "")) else None)
  }

  function AllFigures(updates: seq<Update>): seq<(int, Option<Breakdown>)> {
    seq(|updates|, k requires 0 <= k < |updates| => Figures(updates[k]))
  }

  /** A request that is sent while the cycle is live, and its figures. */
  predicate Sends(u: Usage) {
    Counts(u) && u.total > 0
  }

  function FiguresOf(u: Usage): (int, Option<Breakdown>) {
    (u.total, Some(CallUsage(u, "")))
  }

  /** The figures an item sends on one path, if any. */
  function Sent(responses: bool, r: Report, item: Item, live: bool): seq<(int, Option<Breakdown>)> {
    match item
    case Completed(u, _) => if responses && live && Sends(u) then [FiguresOf(u)] else []
    case Reported(u, _) => if !responses && live && Sends(u) then [FiguresOf(u)] else []
    case Compact(estimate, _) => if live && estimate.total > 0 && estimate != r.last then [(estimate.total, None)] else []
    case _ => []
  }

  function SentAll(responses: bool, r: Report, items: seq<Item>, live: seq<bool>): seq<(int, Option<Breakdown>)>
    requires |live| == |items|
    decreases |items|
  {
    if items == [] then []
    else Sent(responses, r, items[0], live[0]) + SentAll(responses, Native(r, items[0]), items[1..], live[1..])
  }

  lemma FiguresAppend(updates: seq<Update>, u: Update)
    ensures AllFigures(updates + [u]) == AllFigures(updates) + [Figures(u)]
  {
  }

  lemma RecordedSends(m: Meter, u: Usage, id: string, live: bool)
    ensures AllFigures(Recorded(m, u, id, live).updates) ==
              AllFigures(m.updates) + (if live && Sends(u) then [FiguresOf(u)] else [])
  {
    FiguresAppend(m.updates, Update(Window(m), u.total, Some(CallUsage(u, id))));
  }

  lemma EstimateSends(m: Meter, r: Report, item: Item, live: bool)
    requires m.usage == r && item.Compact?
    ensures AllFigures(Observed(m, r, item, live).updates) == AllFigures(m.updates) + Sent(m.responses, r, item, live)
  {
    var m1 := m.(usage := Native(r, item));
    FiguresAppend(m.updates, Update(Window(m1), item.estimate.total, None));
  }

  lemma ReportSends(m: Meter, r: Report, item: Item, live: bool)
    requires m.usage == r && item.Reported?
    ensures AllFigures(Observed(m, r, item, live).updates) == AllFigures(m.updates) + Sent(m.responses, r, item, live)
  {
    AddingMoves(r.total, item.usage);
    NothingIsUnknown("");
    RecordedSends(m.(usage := Native(r, item)), item.usage, "", live);
  }

  lemma ItemSends(m: Meter, r: Report, item: Item, live: bool)
    requires m.usage == r
    ensures AllFigures(Observed(m, r, item, live).updates) == AllFigures(m.updates) + Sent(m.responses, r, item, live)
  {
    match item
    case Completed(u, id) => RecordedSends(m, u, id, live);
    case Reported(_, _) => ReportSends(m, r, item, live);
    case Compact(_, _) => EstimateSends(m, r, item, live);
    case _ =>
  }

  /** What a path sends over a history. */
  lemma {:induction false} PathSends(m: Meter, r: Report, items: seq<Item>, live: seq<bool>)
    requires m.usage == r && |live| == |items|
    ensures AllFigures(ObservedAll(m, r, items, live).updates) == AllFigures(m.updates) + SentAll(m.responses, r, items, live)
    decreases |items|
  {
    if items == [] {
    } else {
      ItemCounts(m, r, items[0], live[0]);
      ItemSends(m, r, items[0], live[0]);
      PathSends(Observed(m, r, items[0], live[0]), Native(r, items[0]), items[1..], live[1..]);
    }
  }

  /** The cycle is cancelled at one moment, or never: nothing is live after something was not. */
  predicate OneCancel(live: seq<bool>) {
    forall j, k | 0 <= j < k < |live| && live[k] :: live[j]
  }

  /** A sent request is reported before the cycle is cancelled and before an estimate is sent;
      `pending` says that one was sent and not yet reported. */
  predicate InStep(pending: bool, r: Report, items: seq<Item>, live: seq<bool>)
    requires |live| == |items|
    decreases |items|
  {
    items == [] ||
    (&& (pending && items[0].Reported? ==> live[0])
     && (pending && items[0].Compact? ==> Sent(true, r, items[0], live[0]) == [])
     && InStep(if items[0].Completed? then live[0] && Sends(items[0].usage) else pending && !items[0].Reported?,
               Native(r, items[0]), items[1..], live[1..]))
  }

  lemma LaterCancel(live: seq<bool>)
    requires live != [] && OneCancel(live)
    ensures OneCancel(live[1..])
  {
    assert forall k | 0 <= k < |live[1..]| :: live[1..][k] == live[k + 1];
  }

  lemma {:induction false} CancelledIsSilent(responses: bool, r: Report, items: seq<Item>, live: seq<bool>)
    requires |live| == |items| && OneCancel(live) && (live != [] ==> !live[0])
    ensures SentAll(responses, r, items, live) == []
    decreases |items|
  {
    if items == [] {
    } else {
      assert live[1..] != [] ==> !live[1..][0];
      LaterCancel(live);
      CancelledIsSilent(responses, Native(r, items[0]), items[1..], live[1..]);
    }
  }

  /** What the response path has sent ahead of the other: the pending request, unless it has no
      figures or the cycle was cancelled before it completed. */
  predicate IsAhead(ahead: seq<(int, Option<Breakdown>)>, pending: Option<Usage>, live: seq<bool>) {
    if pending.Some? && Sends(pending.value) && ahead != [] then ahead == [FiguresOf(pending.value)]
    else ahead == [] && (pending.Some? && Sends(pending.value) && live != [] ==> !live[0])
  }

  lemma EstimateCrosses(f: (int, Option<Breakdown>), c: (int, Option<Breakdown>), a: seq<(int, Option<Breakdown>)>,
      b: seq<(int, Option<Breakdown>)>)
    requires f != c
    ensures [c] + a != [f] + ([c] + b)
  {
    assert ([c] + a)[0] == c && ([f] + ([c] + b))[0] == f;
  }

  lemma Prepends(x: seq<(int, Option<Breakdown>)>, a: seq<(int, Option<Breakdown>)>, b: seq<(int, Option<Breakdown>)>)
    ensures x + a == x + b <==> a == b
  {
    if x + a == x + b {
      assert a == (x + a)[|x|..] && b == (x + b)[|x|..];
    }
  }

  predicate Alike(ahead: seq<(int, Option<Breakdown>)>, r: Report, items: seq<Item>, live: seq<bool>)
    requires |live| == |items|
  {
    SentAll(false, r, items, live) == ahead + SentAll(true, r, items, live)
  }

  lemma CompletionAlike(ahead: seq<(int, Option<Breakdown>)>, next: seq<(int, Option<Breakdown>)>, r: Report,
      items: seq<Item>, live: seq<bool>)
    requires |live| == |items| > 0 && items[0].Completed? && ahead == []
    requires next == Sent(true, r, items[0], live[0])
    ensures Alike(ahead, r, items, live) <==> Alike(next, r, items[1..], live[1..])
  {
    assert SentAll(false, r, items, live) == SentAll(false, r, items[1..], live[1..]);
    assert ahead + SentAll(true, r, items, live) == next + SentAll(true, r, items[1..], live[1..]);
  }

  lemma ReportAlike(ahead: seq<(int, Option<Breakdown>)>, r: Report, items: seq<Item>, live: seq<bool>)
    requires |live| == |items| > 0 && items[0].Reported? && OneCancel(live) && IsAhead(ahead, Some(items[0].usage), live)
    ensures Alike(ahead, r, items, live) <==>
              (ahead != [] ==> live[0]) && Alike([], Native(r, items[0]), items[1..], live[1..])
  {
    var next := Native(r, items[0]);
    var theirs, ours := SentAll(false, next, items[1..], live[1..]), SentAll(true, next, items[1..], live[1..]);
    assert [] + ours == ours && SentAll(true, r, items, live) == ours;
    if live[0] {
      assert Sent(false, r, items[0], live[0]) == ahead;
      Prepends(ahead, theirs, ours);
    } else {
      CancelledIsSilent(false, r, items, live);
      CancelledIsSilent(true, r, items, live);
      LaterCancel(live);
      assert live[1..] != [] ==> !live[1..][0];
      CancelledIsSilent(false, next, items[1..], live[1..]);
    }
  }

  lemma EstimateAlike(ahead: seq<(int, Option<Breakdown>)>, r: Report, items: seq<Item>, live: seq<bool>)
    requires |live| == |items| > 0 && items[0].Compact? && (ahead == [] || (|ahead| == 1 && ahead[0].1.Some?))
    ensures Alike(ahead, r, items, live) <==>
              (ahead != [] ==> Sent(true, r, items[0], live[0]) == []) && Alike(ahead, Native(r, items[0]), items[1..], live[1..])
  {
    var next := Native(r, items[0]);
    var theirs, ours := SentAll(false, next, items[1..], live[1..]), SentAll(true, next, items[1..], live[1..]);
    var c := Sent(true, r, items[0], live[0]);
    if c != [] && ahead != [] {
      EstimateCrosses(ahead[0], c[0], theirs, ours);
      assert c + theirs == [c[0]] + theirs && ahead + (c + ours) == [ahead[0]] + ([c[0]] + ours);
    } else {
      Prepends(c, theirs, ours);
      assert ahead + (c + ours) == c + (ahead + ours);
      Prepends(c, theirs, ahead + ours);
    }
  }

  /** Both paths send the same if and only if every request is reported before a cancel and before
      an estimate. */
  lemma {:induction false} SendAlike(ahead: seq<(int, Option<Breakdown>)>, pending: Option<Usage>, r: Report,
      items: seq<Item>, live: seq<bool>)
    requires |live| == |items| && Paired(pending, items) && OneCancel(live) && IsAhead(ahead, pending, live)
    ensures Alike(ahead, r, items, live) <==> InStep(ahead != [], r, items, live)
    decreases |items|
  {
    if items == [] {
    } else {
      LaterCancel(live);
      var item, next, rest, later := items[0], Native(r, items[0]), items[1..], live[1..];
      assert later != [] && !live[0] ==> !later[0];
      match item
      case Completed(u, _) =>
        CompletionAlike(ahead, Sent(true, r, item, live[0]), r, items, live);
        SendAlike(Sent(true, r, item, live[0]), Some(u), next, rest, later);
      case Reported(u, _) =>
        ReportAlike(ahead, r, items, live);
        SendAlike([], None, next, rest, later);
      case Compact(_, _) =>
        EstimateAlike(ahead, r, items, live);
        SendAlike(ahead, pending, next, rest, later);
      case _ =>
        assert SentAll(false, r, items, live) == SentAll(false, next, rest, later);
        assert SentAll(true, r, items, live) == SentAll(true, next, rest, later);
        SendAlike(ahead, pending, next, rest, later);
    }
  }

  /** The two paths, on one thread from a common baseline. */
  predicate Agree(a: Meter, b: Meter) {
    a.responses && !b.responses && a.usage == b.usage && a.gateway == b.gateway
    && a.sum == b.sum && AllFigures(a.updates) == AllFigures(b.updates)
  }

  /** From a common baseline and for every history, both paths end with the same sum; they send
      the same figures in the same order if and only if every request that is sent is reported
      before the cycle is cancelled and before an estimate of a compacted history is sent. */
  lemma PathsAgree(a: Meter, b: Meter, r: Report, items: seq<Item>, live: seq<bool>)
    requires Agree(a, b) && a.usage == r && |live| == |items| && Paired(None, items) && OneCancel(live)
    ensures var a', b' := ObservedAll(a, r, items, live), ObservedAll(b, r, items, live);
            && a'.sum == b'.sum
            && (AllFigures(a'.updates) == AllFigures(b'.updates) <==> InStep(false, r, items, live))
  {
    EachRequestOnce(a, r, items, live);
    EachRequestOnce(b, r, items, live);
    PathSends(a, r, items, live);
    PathSends(b, r, items, live);
    Prepends(AllFigures(a.updates), SentAll(true, r, items, live), SentAll(false, r, items, live));
    SendAlike([], None, r, items, live);
    assert [] + SentAll(true, r, items, live) == SentAll(true, r, items, live);
  }

  /** A resumed session, its baseline read from the rollout of everything before, and a session
      that watched each response of the same continuation. */
  lemma ResumedEqualsStarted(before: seq<Item>, items: seq<Item>, live: seq<bool>, gateway: int)
    requires QuietRows(before) && |live| == |items| && Paired(None, items) && OneCancel(live)
    ensures var r := NativeAfter(NoReport, before);
            var resumed := ObservedAll(Meter(LastTokenUsage(RowsOf(NoReport, before)), false, gateway, None, []), r, items, live);
            var started := ObservedAll(Meter(r, true, gateway, None, []), r, items, live);
            && started.sum == resumed.sum
            && (AllFigures(started.updates) == AllFigures(resumed.updates) <==> InStep(false, r, items, live))
  {
    BaselineIsNative(before);
    var r := NativeAfter(NoReport, before);
    PathsAgree(Meter(r, true, gateway, None, []), Meter(r, false, gateway, None, []), r, items, live);
  }

  // ---- the sum ----

  function Total(usages: seq<Usage>, field: Usage -> int): int {
    if usages == [] then 0 else field(usages[0]) + Total(usages[1..], field)
  }

  /** Only positive counts are reported. */
  function PositiveTotal(usages: seq<Usage>, field: Usage -> int): int {
    if usages == [] then 0 else (if field(usages[0]) > 0 then field(usages[0]) else 0) + PositiveTotal(usages[1..], field)
  }

  /** An optional count is absent exactly while nothing was reported. */
  function Count(before: Option<int>, more: int): Option<int> {
    var n := (if before.Some? then before.value else 0) + more;
    if n == 0 then None else Some(n)
  }

  predicate Positive(count: Option<int>) {
    count.Some? ==> count.value > 0
  }

  lemma {:induction false} PositivesNeverNegative(usages: seq<Usage>, field: Usage -> int)
    ensures PositiveTotal(usages, field) >= 0
  {
    if usages == [] {
    } else {
      PositivesNeverNegative(usages[1..], field);
    }
  }

  lemma CountsStep(before: Option<int>, count: int, rest: nat)
    requires Positive(before)
    ensures var next := AddCount(before, count);
            Positive(next) && Count(next, rest) == Count(before, (if count > 0 then count else 0) + rest)
  {
  }

  lemma CountsOn(before: Option<int>, usages: seq<Usage>, field: Usage -> int)
    requires Positive(before) && usages != []
    ensures var next := AddCount(before, field(usages[0]));
            Positive(next) && Count(next, PositiveTotal(usages[1..], field)) == Count(before, PositiveTotal(usages, field))
  {
    PositivesNeverNegative(usages[1..], field);
    CountsStep(before, field(usages[0]), PositiveTotal(usages[1..], field));
  }

  const Input := (u: Usage) => u.input
  const Output := (u: Usage) => u.output
  const Totals := (u: Usage) => u.total
  const CachedRead := (u: Usage) => u.cachedRead
  const CacheWrite := (u: Usage) => u.cacheWrite
  const Reasoning := (u: Usage) => u.reasoning

  /** The response's figures, all six: plain totals for input, output and total, and optional
      counts that are absent exactly while no request reported one. */
  lemma {:induction false} SumIsTotals(sum: Sum, usages: seq<Usage>)
    requires Positive(sum.cachedRead) && Positive(sum.cacheWrite) && Positive(sum.reasoning)
    ensures SumFrom(Some(sum), usages) ==
              Some(Sum(sum.input + Total(usages, Input),
                       sum.output + Total(usages, Output),
                       sum.total + Total(usages, Totals),
                       Count(sum.cachedRead, PositiveTotal(usages, CachedRead)),
                       Count(sum.cacheWrite, PositiveTotal(usages, CacheWrite)),
                       Count(sum.reasoning, PositiveTotal(usages, Reasoning))))
    decreases |usages|
  {
    if usages == [] {
    } else {
      CountsOn(sum.cachedRead, usages, CachedRead);
      CountsOn(sum.cacheWrite, usages, CacheWrite);
      CountsOn(sum.reasoning, usages, Reasoning);
      SumIsTotals(AddUsage(Some(sum), usages[0]), usages[1..]);
    }
  }

  /** The figures of requests, told from the requests alone: none for none. */
  function RequestTotals(usages: seq<Usage>): Option<Sum> {
    if usages == [] then None
    else Some(Sum(Total(usages, Input), Total(usages, Output), Total(usages, Totals),
                  Count(None, PositiveTotal(usages, CachedRead)), Count(None, PositiveTotal(usages, CacheWrite)),
                  Count(None, PositiveTotal(usages, Reasoning))))
  }

  /** A sum that starts from nothing is the totals of its requests. */
  lemma SumFromNothing(usages: seq<Usage>)
    ensures SumFrom(None, usages) == RequestTotals(usages)
  {
    if usages != [] {
      var zero := Sum(0, 0, 0, None, None, None);
      assert AddUsage(None, usages[0]) == AddUsage(Some(zero), usages[0]);
      assert SumFrom(None, usages) == SumFrom(Some(zero), usages);
      SumIsTotals(zero, usages);
    }
  }

  /** The response of a turn: on either path and whenever the cycle was cancelled, its sum is the
      totals of the requests that completed with a token. */
  lemma TurnSumIsTotals(m: Meter, r: Report, items: seq<Item>, live: seq<bool>)
    requires m.usage == r && m.sum.None? && |live| == |items| && Paired(None, items)
    ensures ObservedAll(m, r, items, live).sum == RequestTotals(Completions(items))
  {
    EachRequestOnce(m, r, items, live);
    SumFromNothing(Completions(items));
  }

  // ---- figures ----

  /** A request as the Responses API reports one. */
  predicate WellFormed(u: Usage) {
    && u.cachedRead >= 0 && u.cacheWrite >= 0 && u.output >= 0 && u.reasoning >= 0
    && u.input >= u.cachedRead + u.cacheWrite
    && u.total == u.input + u.output
  }

  /** A breakdown's figures are the request's own: the input that is left without what the cache
      gave and took, unless that is negative, and each other figure as codex reports it. A request
      is known when one of them is positive. */
  lemma BreakdownIsTheRequests(u: Usage, id: string)
    ensures var call := CallUsage(u, id);
            && call.responseID == id && call.cachedRead == u.cachedRead && call.cacheWrite == u.cacheWrite
            && call.output == u.output
            && (call.input.Some? <==> u.cachedRead + u.cacheWrite <= u.input)
            && (call.input.Some? ==> call.input.value + u.cachedRead + u.cacheWrite == u.input)
            && (Known(call) <==> u.input > u.cachedRead + u.cacheWrite || u.cachedRead > 0 || u.cacheWrite > 0 || u.output > 0)
  {
  }

  /** A well-formed request with a token is sent once while the cycle is live, and its breakdown
      adds up to the context it left occupied; one without sends nothing and counts nowhere. */
  lemma BreakdownAddsUp(m: Meter, u: Usage, id: string)
    requires WellFormed(u)
    ensures var m', call := Recorded(m, u, id, true), CallUsage(u, id);
            if u.total == 0 then m' == m
            else
              && m'.updates == m.updates + [Update(Window(m), u.total, Some(call))]
              && call.input.Some?
              && call.input.value + call.cachedRead + call.cacheWrite + call.output == u.total
  {
  }

  const Ten := Usage(7, 0, 0, 3, 0, 10)

  /** The two sessions after a history, from nothing. */
  function Started(items: seq<Item>, live: seq<bool>): Meter
    requires |live| == |items|
  {
    ObservedAll(Meter(NoReport, true, 0, None, []), NoReport, items, live)
  }

  function Resumed(items: seq<Item>, live: seq<bool>): Meter
    requires |live| == |items|
  {
    ObservedAll(Meter(NoReport, false, 0, None, []), NoReport, items, live)
  }

  lemma OutOfStepDiffers(items: seq<Item>, live: seq<bool>)
    requires |live| == |items| && Paired(None, items) && OneCancel(live) && !InStep(false, NoReport, items, live)
    ensures AllFigures(Started(items, live).updates) != AllFigures(Resumed(items, live).updates)
    ensures Started(items, live).sum == Resumed(items, live).sum
  {
    PathsAgree(Meter(NoReport, true, 0, None, []), Meter(NoReport, false, 0, None, []), NoReport, items, live);
  }

  /** One request, cancelled between its completion and its report: the response path sends it,
      the cumulative path does not, and both count it. */
  lemma CancelCanCutApart()
    ensures var items, live := [Completed(Ten, "r1"), Reported(Ten, 0)], [true, false];
            && AllFigures(Started(items, live).updates) != AllFigures(Resumed(items, live).updates)
            && Started(items, live).sum == Resumed(items, live).sum
  {
    var items, live := [Completed(Ten, "r1"), Reported(Ten, 0)], [true, false];
    assert items[1..] == [Reported(Ten, 0)] && live[1..] == [false] && [Reported(Ten, 0)][1..] == [];
    OutOfStepDiffers(items, live);
  }

  /** One request, with an estimate of a compacted history between its completion and its report:
      the paths send the two figures in different orders. */
  lemma EstimateCanCross()
    ensures var items := [Completed(Ten, "r1"), Compact(Ten, 0), Reported(Ten, 0)];
            var live := [true, true, true];
            && AllFigures(Started(items, live).updates) != AllFigures(Resumed(items, live).updates)
            && Started(items, live).sum == Resumed(items, live).sum
  {
    var items, live := [Completed(Ten, "r1"), Compact(Ten, 0), Reported(Ten, 0)], [true, true, true];
    assert items[1..] == [Compact(Ten, 0), Reported(Ten, 0)] && live[1..] == [true, true];
    assert items[1..][1..] == [Reported(Ten, 0)] && live[1..][1..] == [true] && items[1..][1..][1..] == [];
    assert Paired(Some(Ten), items[1..][1..]);
    assert !InStep(true, NoReport, items[1..], live[1..]);
    OutOfStepDiffers(items, live);
  }

  // ---- the window ----

  lemma CompletionUpdate(a: Meter, r: Report, u: Usage, id: string)
    requires a.responses && a.usage == r && WellFormed(u) && u.total > 0
    ensures Observed(a, r, Completed(u, id), true).updates ==
              a.updates + [Update(if a.gateway != 0 then a.gateway else r.window, u.total, Some(CallUsage(u, id)))]
  {
  }

  lemma ReportUpdate(b: Meter, r: Report, u: Usage, window: int)
    requires !b.responses && b.usage == r && WellFormed(u) && u.total > 0
    ensures Observed(b, r, Reported(u, window), true).updates ==
              b.updates + [Update(if b.gateway != 0 then b.gateway else window, u.total, Some(CallUsage(u, "")))]
  {
    AddingMoves(r.total, u);
  }

  /** The window beside a request's figures agrees on both paths exactly when the gateway states
      one, or codex had reported the same window before the completion as with the report. */
  lemma WindowsAgree(a: Meter, b: Meter, r: Report, before: Report, u: Usage, id: string, window: int)
    requires a.responses && !b.responses && a.gateway == b.gateway && a.usage == r && b.usage == before
    requires WellFormed(u) && u.total > 0
    ensures var a', b' := Observed(a, r, Completed(u, id), true), Observed(b, before, Reported(u, window), true);
            && |a'.updates| == |a.updates| + 1 && |b'.updates| == |b.updates| + 1
            && (a'.updates[|a.updates|].size == b'.updates[|b.updates|].size <==> a.gateway != 0 || r.window == window)
  {
    CompletionUpdate(a, r, u, id);
    ReportUpdate(b, before, u, window);
  }

  /** A new thread's first request, without a window from the gateway, is sent with no window on
      the one path and with codex's on the other. */
  lemma WindowsCanDiffer(u: Usage, id: string, window: int)
    requires WellFormed(u) && u.total > 0 && window != 0
    ensures var a, b := Meter(NoReport, true, 0, None, []), Meter(NoReport, false, 0, None, []);
            var sent := Observed(a, NoReport, Completed(u, id), true).updates;
            var other := Observed(b, NoReport, Reported(u, window), true).updates;
            |sent| == 1 && |other| == 1 && sent[0].size == 0 && other[0].size == window
  {
    CompletionUpdate(Meter(NoReport, true, 0, None, []), NoReport, u, id);
    ReportUpdate(Meter(NoReport, false, 0, None, []), NoReport, u, window);
  }

  /** The history of a turn whose requests complete and are reported one after the other. */
  function Plain(requests: seq<Usage>, window: int): seq<Item>
    decreases |requests|
  {
    if requests == [] then []
    else [Completed(requests[0], ""), Reported(requests[0], window)] + Plain(requests[1..], window)
  }

  lemma PlainParts(requests: seq<Usage>, window: int)
    requires requests != []
    ensures var items := Plain(requests, window);
            && |items| >= 2 && items[0] == Completed(requests[0], "") && items[1..][0] == Reported(requests[0], window)
            && items[1..][1..] == Plain(requests[1..], window)
  {
    var two, rest := [Completed(requests[0], ""), Reported(requests[0], window)], Plain(requests[1..], window);
    assert (two + rest)[1..] == two[1..] + rest && (two[1..] + rest)[1..] == rest;
  }

  lemma {:induction false} PlainIsPaired(requests: seq<Usage>, window: int)
    ensures Paired(None, Plain(requests, window))
    decreases |requests|
  {
    if requests == [] {
    } else {
      PlainParts(requests, window);
      PlainIsPaired(requests[1..], window);
    }
  }

  lemma {:induction false} PlainCompletes(requests: seq<Usage>, window: int)
    requires forall k | 0 <= k < |requests| :: requests[k].output > 0
    ensures Completions(Plain(requests, window)) == requests
    decreases |requests|
  {
    if requests == [] {
    } else {
      var items := Plain(requests, window);
      PlainParts(requests, window);
      PlainCompletes(requests[1..], window);
      assert Counts(requests[0]);
      assert Completions(items[1..]) == [] + Completions(items[1..][1..]);
      assert [requests[0]] + requests[1..] == requests;
    }
  }

  /** No item of such a history writes a row of its own. */
  lemma {:induction false} PlainIsQuiet(requests: seq<Usage>, window: int)
    ensures QuietRows(Plain(requests, window))
    decreases |requests|
  {
    if requests == [] {
    } else {
      var items, rest := Plain(requests, window), Plain(requests[1..], window);
      PlainIsQuiet(requests[1..], window);
      forall k | 0 <= k < |items| && items[k].Quiet? ensures items[k].row == OtherRow || items[k].row == TokenCount(None) {
        assert items[k] == rest[k - 2];
      }
    }
  }

  /** The ordinary turn: on either path its response sums up all its requests. */
  lemma PlainTurnIsSummed(m: Meter, requests: seq<Usage>, window: int, live: seq<bool>)
    requires m.sum.None? && |live| == |Plain(requests, window)|
    requires forall k | 0 <= k < |requests| :: requests[k].output > 0
    ensures ObservedAll(m, m.usage, Plain(requests, window), live).sum == RequestTotals(requests)
  {
    PlainIsPaired(requests, window);
    PlainCompletes(requests, window);
    TurnSumIsTotals(m, m.usage, Plain(requests, window), live);
  }
}
