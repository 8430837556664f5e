/** Pacing of streamed tool output (image_output.go:56-238). ACP replaces a tool call's whole
    content on every update, so each delivery resends all output so far. Times and durations
    are nanoseconds. */
module Pacing {
  const SECOND: int := 1_000_000_000
  const TOOL_OUTPUT_INTERVAL: int := 2 * SECOND
  const TOOL_OUTPUT_RATE: int := 65536
  const NO_ID := "codex-tool"

  /** toolState: `emitted` is the output's length at the last delivery, `at` its time. */
  datatype Tool = Tool(published: bool, output: string, emitted: nat, at: int)

  const NewTool := Tool(false, "", 0, 0)

  function Max(a: int, b: int): int {
    if a >= b then a else b
  }

  /** How long grown output waits for its delivery. */
  function Wait(length: nat): int {
    Max(TOOL_OUTPUT_INTERVAL, length * SECOND / TOOL_OUTPUT_RATE)
  }

  predicate Due(t: Tool, now: int) {
    if |t.output| >= 2 * t.emitted then true
    else if |t.output| == t.emitted then false
    else now - t.at >= Wait(|t.output|)
  }

  /** publishToolDelta on one tool. */
  function Delta(t: Tool, text: string, now: int): Tool {
    var grown := t.(output := t.output + text);
    if text == "" then t
    else if Due(grown, now) then grown.(emitted := |grown.output|, at := now)
    else grown
  }

  predicate Delivers(t: Tool, text: string, now: int) {
    text != "" && Due(t.(output := t.output + text), now)
  }

  // ---- the object ----

  /** One part of a tool call's content. */
  datatype Part = TextPart(text: string) | DiffPart(path: string, diff: string)

  /** What the host was sent; an update replaces the whole content. */
  datatype Sent = Start(id: string) | Update(id: string, content: seq<Part>)

  /** A file change's diffs, empty ones left out (image_output.go:241-259). */
  function Diffs(changes: seq<Part>): seq<Part> {
    if changes == [] then []
    else
      var last := changes[|changes| - 1];
      Diffs(changes[..|changes| - 1]) + (if last.DiffPart? && last.diff != "" then [last] else [])
  }

  function Content(output: string, changes: seq<Part>): seq<Part> {
    (if output == "" then [] else [TextPart(output)]) + Diffs(changes)
  }

  function Named(id: string): string {
    if id == "" then NO_ID else id
  }

  function ToolOf(tools: map<string, Tool>, id: string): Tool {
    if id in tools then tools[id] else NewTool
  }

  // ---- a tool's life ----

  /** What the cycle is told of a tool; `ok` is the host's answer to its announcement. */
  datatype ToolOp =
    | Pend(id: string, ok: bool)
    | Begin(rawID: string, ok: bool)
    | Grow(rawID: string, text: string, now: int)
    | End(rawID: string, content: string, changes: seq<Part>, ok: bool)

  function Subject(op: ToolOp): string {
    if op.Pend? then op.id else Named(op.rawID)
  }

  function Announced(t: Tool, ok: bool): Tool {
    if !t.published && ok then t.(published := true) else t
  }

  function Applied(tools: map<string, Tool>, op: ToolOp): map<string, Tool> {
    var id := Subject(op);
    var t := ToolOf(tools, id);
    match op
    case Pend(_, ok) => tools[id := Announced(t, ok)]
    case Begin(_, ok) => tools[id := Announced(t, ok)]
    case Grow(_, text, now) => if text == "" then tools else tools[id := Delta(t, text, now)]
    case End(_, _, _, _) => tools - {id}
  }

  /** What the host is sent. */
  function Says(tools: map<string, Tool>, op: ToolOp): seq<Sent> {
    var id := Subject(op);
    var t := ToolOf(tools, id);
    match op
    case Pend(_, _) => if t.published then [] else [Start(id)]
    case Begin(_, _) => [if t.published then Update(id, []) else Start(id)]
    case Grow(_, text, now) => if Delivers(t, text, now) then [Update(id, [TextPart(t.output + text)])] else []
    case End(_, content, changes, ok) =>
      (if t.published then [] else [Start(id)])
      + (if t.published || ok then [Update(id, Content(if t.output == "" then content else t.output, changes))] else [])
  }

  class CycleTools {
    var tools: map<string, Tool>
    var sent: seq<Sent>

    constructor ()
      ensures tools == map[] && sent == []
    {
      tools, sent := map[], [];
    }

    /** state.tool: the tool's state, created on first use. */
    method State(id: string) returns (t: Tool)
      modifies `tools
      ensures t == ToolOf(old(tools), id) && tools == old(tools)[id := t]
    {
      if id !in tools {
        tools := tools[id := NewTool];
      }
      t := tools[id];
    }

    /** Announces a tool that awaits approval; `ok` is the host's answer. */
    method PublishPendingTool(id: string, ok: bool)
      modifies this
      ensures var t := ToolOf(old(tools), id);
              && tools == old(tools)[id := if !t.published && ok then t.(published := true) else t]
              && sent == if t.published then old(sent) else old(sent) + [Start(id)]
      ensures tools == Applied(old(tools), Pend(id, ok)) && sent == old(sent) + Says(old(tools), Pend(id, ok))
    {
      var t := State(id);
      if t.published {
        return;
      }
      sent := sent + [Start(id)];
      if ok {
        tools := tools[id := t.(published := true)];
      }
    }

    method PublishToolStart(rawID: string, ok: bool)
      modifies this
      ensures var id := Named(rawID);
              var t := ToolOf(old(tools), id);
              && tools == old(tools)[id := if !t.published && ok then t.(published := true) else t]
              && sent == old(sent) + [if t.published then Update(id, []) else Start(id)]
      ensures tools == Applied(old(tools), Begin(rawID, ok)) && sent == old(sent) + Says(old(tools), Begin(rawID, ok))
    {
      var id := Named(rawID);
      var t := State(id);
      if t.published {
        sent := sent + [Update(id, [])];
        return;
      }
      sent := sent + [Start(id)];
      if ok {
        tools := tools[id := t.(published := true)];
      }
    }

    method PublishToolDelta(rawID: string, text: string, now: int)
      modifies this
      ensures var id := Named(rawID);
              var t := ToolOf(old(tools), id);
              && (text == "" ==> tools == old(tools))
              && (text != "" ==> tools == old(tools)[id := Delta(t, text, now)])
              && sent == if Delivers(t, text, now) then old(sent) + [Update(id, [TextPart(t.output + text)])] else old(sent)
      ensures tools == Applied(old(tools), Grow(rawID, text, now))
      ensures sent == old(sent) + Says(old(tools), Grow(rawID, text, now))
    {
      if text == "" {
        return;
      }
      var id := Named(rawID);
      var t := State(id);
      t := t.(output := t.output + text);
      tools := tools[id := t];
      if !Due(t, now) {
        return;
      }
      tools := tools[id := t.(emitted := |t.output|, at := now)];
      sent := sent + [Update(id, [TextPart(t.output)])];
    }

    method DiffContent(changes: seq<Part>) returns (content: seq<Part>)
      ensures content == Diffs(changes)
      ensures forall part | part in content :: part.DiffPart? && part.diff != "" && part in changes
    {
      content := [];
      for k := 0 to |changes|
        invariant content == Diffs(changes[..k])
        invariant forall part | part in content :: part.DiffPart? && part.diff != "" && part in changes
      {
        assert changes[..k + 1][..k] == changes[..k];
        if changes[k].DiffPart? && changes[k].diff != "" {
          content := content + [changes[k]];
        }
      }
      assert changes[..|changes|] == changes;
    }

    /** The terminal update: the complete output, or the event's own when none streamed, and the
        diffs of a file change. */
    method PublishToolTerminal(rawID: string, content: string, changes: seq<Part>, ok: bool)
      modifies this
      ensures var id := Named(rawID);
              var t := ToolOf(old(tools), id);
              var output := if t.output == "" then content else t.output;
              && tools == old(tools) - {id}
              && sent == old(sent) + (if t.published then [] else [Start(id)])
                         + (if t.published || ok then [Update(id, Content(output, changes))] else [])
      ensures tools == Applied(old(tools), End(rawID, content, changes, ok))
      ensures sent == old(sent) + Says(old(tools), End(rawID, content, changes, ok))
    {
      var id := Named(rawID);
      var t := State(id);
      tools := tools - {id};
      var output := if t.output == "" then content else t.output;
      var parts := if output == "" then [] else [TextPart(output)];
      var diffs := DiffContent(changes);
      if !t.published {
        sent := sent + [Start(id)];
        if !ok {
          return;
        }
      }
      sent := sent + [Update(id, parts + diffs)];
    }
  }

  // ---- what a run of deltas costs ----

  /** One delta and the time it came. */
  datatype Chunk = Chunk(text: string, now: int)

  /** Bytes sent by deliveries of doubled output and by timed ones, how many timed ones there
      were, the time of the first delivery, and every content sent. */
  datatype Account = Account(tool: Tool, first: int, doubling: nat, timed: nat, timedCount: nat, contents: seq<string>)

  const Opened := Account(NewTool, 0, 0, 0, 0, [])

  function Charge(a: Account, c: Chunk): Account {
    var length := |a.tool.output| + |c.text|;
    var a1 := a.(tool := Delta(a.tool, c.text, c.now));
    if !Delivers(a.tool, c.text, c.now) then a1
    else
      var a2 := a1.(contents := a.contents + [a.tool.output + c.text], first := if a.tool.emitted == 0 then c.now else a.first);
      if length >= 2 * a.tool.emitted
      then a2.(doubling := a.doubling + length)
      else a2.(timed := a.timed + length, timedCount := a.timedCount + 1)
  }

  function ChargeAll(chunks: seq<Chunk>): Account {
    if chunks == [] then Opened else Charge(ChargeAll(chunks[..|chunks| - 1]), chunks[|chunks| - 1])
  }

  function Text(chunks: seq<Chunk>): string {
    if chunks == [] then "" else Text(chunks[..|chunks| - 1]) + chunks[|chunks| - 1].text
  }

  predicate Monotone(chunks: seq<Chunk>) {
    forall i, j | 0 <= i < j < |chunks| :: chunks[i].now <= chunks[j].now
  }

  // ---- the bounds ----

  predicate Bounded(a: Account) {
    var t := a.tool;
    && t.emitted <= |t.output|
    && (t.output != "" ==> |t.output| < 2 * t.emitted)
    && a.doubling <= 2 * t.emitted
    && a.timed * SECOND <= TOOL_OUTPUT_RATE * (t.at - a.first + a.timedCount)
    && a.timedCount * TOOL_OUTPUT_INTERVAL <= t.at - a.first
    && (t.emitted == 0 ==> a.timedCount == 0 && a.timed == 0 && t.at == a.first)
  }

  /** A delivery that waited for its length carries no more than the rate allows. */
  lemma WaitPays(length: nat, elapsed: int)
    requires elapsed >= Wait(length)
    ensures length * SECOND <= TOOL_OUTPUT_RATE * (elapsed + 1) && elapsed >= TOOL_OUTPUT_INTERVAL
  {
    var q := length * SECOND / TOOL_OUTPUT_RATE;
    assert length * SECOND < TOOL_OUTPUT_RATE * (q + 1);
  }

  lemma ChargeKeeps(a: Account, c: Chunk)
    requires Bounded(a) && (a.tool.emitted > 0 ==> a.tool.at <= c.now)
    ensures Bounded(Charge(a, c)) && (Charge(a, c).tool.emitted > 0 ==> Charge(a, c).tool.at <= c.now)
  {
    var length := |a.tool.output| + |c.text|;
    if Delivers(a.tool, c.text, c.now) && length < 2 * a.tool.emitted {
      WaitPays(length, c.now - a.tool.at);
    }
  }

  lemma {:induction false} RunBounded(chunks: seq<Chunk>)
    requires Monotone(chunks)
    ensures var a := ChargeAll(chunks);
            Bounded(a) && (a.tool.emitted > 0 ==> chunks != [] && a.tool.at <= chunks[|chunks| - 1].now)
  {
    if chunks == [] {
    } else {
      var n := |chunks| - 1;
      RunBounded(chunks[..n]);
      assert n > 0 ==> chunks[..n][n - 1] == chunks[n - 1];
      ChargeKeeps(ChargeAll(chunks[..n]), chunks[n]);
    }
  }

  function Bytes(contents: seq<string>): nat {
    if contents == [] then 0 else Bytes(contents[..|contents| - 1]) + |contents[|contents| - 1]|
  }

  lemma {:induction false} OutputIsText(chunks: seq<Chunk>)
    ensures ChargeAll(chunks).tool.output == Text(chunks)
  {
    if chunks == [] {
    } else {
      OutputIsText(chunks[..|chunks| - 1]);
    }
  }

  lemma BytesAdd(contents: seq<string>, content: string)
    ensures Bytes(contents + [content]) == Bytes(contents) + |content|
  {
    assert (contents + [content])[..|contents|] == contents;
  }

  /** What one delta adds to the account. */
  lemma ChargeIsTrue(a: Account, c: Chunk)
    requires Bytes(a.contents) == a.doubling + a.timed
    requires if a.contents == [] then a.tool.emitted == 0 else |a.contents[|a.contents| - 1]| == a.tool.emitted
    requires forall k | 0 <= k < |a.contents| :: a.contents[k] <= a.tool.output
    ensures var a' := Charge(a, c);
            && Bytes(a'.contents) == a'.doubling + a'.timed
            && (if a'.contents == [] then a'.tool.emitted == 0 else |a'.contents[|a'.contents| - 1]| == a'.tool.emitted)
            && forall k | 0 <= k < |a'.contents| :: a'.contents[k] <= a'.tool.output
  {
    BytesAdd(a.contents, a.tool.output + c.text);
    var a' := Charge(a, c);
    assert a.tool.output <= a'.tool.output;
    forall k | 0 <= k < |a'.contents| ensures a'.contents[k] <= a'.tool.output {
      if k < |a.contents| {
        assert a'.contents[k] == a.contents[k] <= a.tool.output;
      }
    }
  }

  /** The account is of what was sent: every content is all the text up to its delta, the last
      one sent is `emitted` long, and the two sums add up to all bytes sent. */
  lemma {:induction false} AccountIsTrue(chunks: seq<Chunk>)
    ensures var a := ChargeAll(chunks);
            && a.tool.output == Text(chunks)
            && Bytes(a.contents) == a.doubling + a.timed
            && (forall k | 0 <= k < |a.contents| :: a.contents[k] <= a.tool.output)
            && (if a.contents == [] then a.tool.emitted == 0 else |a.contents[|a.contents| - 1]| == a.tool.emitted)
  {
    OutputIsText(chunks);
    if chunks == [] {
    } else {
      AccountIsTrue(chunks[..|chunks| - 1]);
      ChargeIsTrue(ChargeAll(chunks[..|chunks| - 1]), chunks[|chunks| - 1]);
    }
  }

  /** Over any deltas at monotone times: what was sent because output had doubled is at most
      twice what was last delivered, and with the terminal update at most three times the output;
      timed deliveries stay within the rate but for one nanosecond each, and are two seconds
      apart; and less output waits than was delivered. */
  lemma PacingBounds(chunks: seq<Chunk>)
    requires Monotone(chunks)
    ensures var a := ChargeAll(chunks);
            var waiting := |Text(chunks)| - a.tool.emitted;
            && a.doubling <= 2 * a.tool.emitted
            && a.doubling + |Text(chunks)| <= 3 * |Text(chunks)|
            && a.timed * SECOND <= TOOL_OUTPUT_RATE * (a.tool.at - a.first + a.timedCount)
            && a.timedCount * TOOL_OUTPUT_INTERVAL <= a.tool.at - a.first
            && (Text(chunks) != "" ==> 0 <= waiting < a.tool.emitted)
            && Bytes(a.contents) == a.doubling + a.timed
  {
    RunBounded(chunks);
    AccountIsTrue(chunks);
  }

  /** Output that has waited its time is not held back: a delta delivers exactly when the output
      doubled or the wait for its length is over. */
  lemma DeliversWhenDue(t: Tool, text: string, now: int)
    requires t.emitted <= |t.output|
    ensures Delivers(t, text, now) <==>
              text != "" && (|t.output| + |text| >= 2 * t.emitted
                             || (now - t.at >= TOOL_OUTPUT_INTERVAL
                                 && (|t.output| + |text|) * SECOND < TOOL_OUTPUT_RATE * (now - t.at + 1)))
  {
    var length := |t.output| + |text|;
    var q := length * SECOND / TOOL_OUTPUT_RATE;
    assert TOOL_OUTPUT_RATE * q <= length * SECOND < TOOL_OUTPUT_RATE * (q + 1);
    var e := now - t.at;
    if q <= e {
      assert TOOL_OUTPUT_RATE * (q + 1) <= TOOL_OUTPUT_RATE * (e + 1);
    } else {
      assert TOOL_OUTPUT_RATE * (e + 1) <= TOOL_OUTPUT_RATE * q;
    }
  }

  // ---- tools are told apart, announced once, and end complete ----

  /** Two tools share a state only under the same id, the empty id standing for "codex-tool". */
  lemma NamedApart(a: string, b: string)
    ensures Named(a) == Named(b) <==> a == b || (a == "" && b == "codex-tool") || (a == "codex-tool" && b == "")
    ensures Named(a) != "" && (a != "" ==> Named(a) == a)
  {
  }

  /** A delta adds its text and leaves the announcement alone; what is delivered is all output. */
  lemma DeltaKeepsTool(t: Tool, text: string, now: int)
    ensures var t' := Delta(t, text, now);
            && t'.published == t.published && t'.output == t.output + text
            && (if Delivers(t, text, now) then t'.emitted == |t'.output| && t'.at == now
                else t'.emitted == t.emitted && t'.at == t.at)
  {
  }

  /** Output that has not grown since it was delivered is not due. */
  lemma RestIsNotDue(t: Tool, now: int)
    requires |t.output| == t.emitted > 0
    ensures !Due(t, now)
  {
  }

  lemma DiffsAdd(changes: seq<Part>, change: Part)
    ensures Diffs(changes + [change]) == Diffs(changes) + (if change.DiffPart? && change.diff != "" then [change] else [])
  {
    assert (changes + [change])[..|changes|] == changes;
  }

  /** The diffs are the changes that have one, in their order. */
  lemma {:induction false} DiffsInOrder(a: seq<Part>, b: seq<Part>)
    ensures Diffs(a + b) == Diffs(a) + Diffs(b)
    decreases |b|
  {
    if b == [] {
      assert a + b == a;
    } else {
      var n := |b| - 1;
      DiffsInOrder(a, b[..n]);
      assert a + b == (a + b[..n]) + [b[n]];
      DiffsAdd(a + b[..n], b[n]);
    }
  }

  /** Each as often as it is there, and nothing else. */
  lemma {:induction false} DiffsAreTheChanges(changes: seq<Part>, part: Part)
    ensures multiset(Diffs(changes))[part] == if part.DiffPart? && part.diff != "" then multiset(changes)[part] else 0
  {
    if changes == [] {
    } else {
      var n := |changes| - 1;
      DiffsAreTheChanges(changes[..n], part);
      assert changes == changes[..n] + [changes[n]];
    }
  }

  /** A terminal content: the output first, unless there is none, then the diffs. */
  lemma ContentIsOutputThenDiffs(output: string, changes: seq<Part>)
    ensures var content := Content(output, changes);
            && (output == "" ==> content == Diffs(changes))
            && (output != "" ==> content != [] && content[0] == TextPart(output) && content[1..] == Diffs(changes))
  {
  }

  function AllApplied(ops: seq<ToolOp>): map<string, Tool> {
    if ops == [] then map[] else Applied(AllApplied(ops[..|ops| - 1]), ops[|ops| - 1])
  }

  /** What the host was sent since the tool's last end, or since the beginning. */
  function SaidSince(ops: seq<ToolOp>, id: string): seq<Sent> {
    if ops == [] then []
    else
      var last := ops[|ops| - 1];
      if last.End? && Subject(last) == id then []
      else SaidSince(ops[..|ops| - 1], id) + Says(AllApplied(ops[..|ops| - 1]), last)
  }

  function Starts(sent: seq<Sent>, id: string): nat {
    if sent == [] then 0 else Starts(sent[..|sent| - 1], id) + (if sent[|sent| - 1] == Start(id) then 1 else 0)
  }

  /** The host takes every announcement. */
  predicate Accepting(ops: seq<ToolOp>) {
    forall k | 0 <= k < |ops| && !ops[k].Grow? :: ops[k].ok
  }

  lemma {:induction false} StartsAdd(a: seq<Sent>, b: seq<Sent>, id: string)
    ensures Starts(a + b, id) == Starts(a, id) + Starts(b, id)
    decreases |b|
  {
    if b == [] {
      assert a + b == a;
    } else {
      var n := |b| - 1;
      assert (a + b)[..|a| + n] == a + b[..n];
      StartsAdd(a, b[..n], id);
    }
  }

  lemma StartsOfOne(sent: Sent, id: string)
    ensures Starts([sent], id) == if sent == Start(id) then 1 else 0
    ensures Starts([], id) == 0
  {
    assert [sent][..0] == [];
  }

  lemma SaysOneStart(tools: map<string, Tool>, op: ToolOp, id: string)
    requires !(op.End? && Subject(op) == id) && (op.Grow? || op.ok)
    ensures var was, now := ToolOf(tools, id).published, ToolOf(Applied(tools, op), id).published;
            && (was ==> now)
            && Starts(Says(tools, op), id) == if now && !was then 1 else 0
  {
    var said := Says(tools, op);
    match op
    case Pend(_, _) => StartsOfOne(Start(Subject(op)), id);
    case Begin(_, _) => StartsOfOne(said[0], id);
    case Grow(rawID, text, now) =>
      StartsOfOne(Update(Subject(op), [TextPart(ToolOf(tools, Subject(op)).output + text)]), id);
      DeltaKeepsTool(ToolOf(tools, Subject(op)), text, now);
    case End(_, _, _, _) =>
      StartsOfOne(said[|said| - 1], id);
      StartsOfOne(Start(Subject(op)), id);
      StartsAdd(said[..|said| - 1], [said[|said| - 1]], id);
      assert said == said[..|said| - 1] + [said[|said| - 1]];
      assert said[..|said| - 1] == [] || said[..|said| - 1] == [Start(Subject(op))];
  }

  /** A host that takes announcements gets one for each life of a tool: none before the tool is
      known to be published, and one from then until its end, whatever deltas, starts and other
      tools come between. */
  lemma {:induction false} AnnouncedOnce(ops: seq<ToolOp>, id: string)
    requires Accepting(ops)
    ensures Starts(SaidSince(ops, id), id) == if ToolOf(AllApplied(ops), id).published then 1 else 0
  {
    if ops == [] {
    } else {
      var n := |ops| - 1;
      var before, last := AllApplied(ops[..n]), ops[n];
      if !(last.End? && Subject(last) == id) {
        AnnouncedOnce(ops[..n], id);
        SaysOneStart(before, last, id);
        StartsAdd(SaidSince(ops[..n], id), Says(before, last), id);
      }
    }
  }

  /** An end is never without an announcement, and carries all the output there is. */
  lemma EndIsComplete(tools: map<string, Tool>, rawID: string, content: string, changes: seq<Part>)
    ensures var id := Named(rawID);
            var t := ToolOf(tools, id);
            var said := Says(tools, End(rawID, content, changes, true));
            && said != [] && said[|said| - 1] == Update(id, Content(if t.output == "" then content else t.output, changes))
            && (t.published || said == [Start(id), said[|said| - 1]])
            && id !in Applied(tools, End(rawID, content, changes, true))
  {
  }
}
