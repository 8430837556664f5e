/** Replay of a stored conversation (session_replay.go:34-271) and the encoding of its images
    (session_store.go:177-211). `Gate` is the image library's admission of bytes under a type. */
module Replay {
  import opened JsonTrees
  import opened Wrappers

  datatype RowType = EventMsg | ResponseItem | Compacted | OtherType

  datatype Row = Row(rowType: RowType, payload: map<string, Json>)

  /** A stored row: one that decodes, or one that does not. */
  datatype Stored = Good(row: Row) | Bad

  datatype Image = Image(id: string, kind: string, data: string, mime: string)

  datatype Gate = Gate(admits: (string, string) -> bool)

  datatype Update =
    | UserText(text: string)
    | AgentText(text: string)
    | ThoughtText(text: string)
    | ToolStart(id: string, title: string)
    | ToolOutput(id: string)
    | ImageFailed(id: string)
    | ImageContent(id: string, data: string)

  datatype Refusal = BadRow | BadImage

  /** replayEventKinds. */
  datatype Kinds = Kinds(user: bool, agent: bool, reasoning: bool)

  function PayloadType(row: Row): string {
    StringField(row.payload, "type")
  }

  function Observe(kinds: Kinds, row: Row): Kinds {
    var kind := PayloadType(row);
    if !row.rowType.EventMsg? then kinds
    else if kind == "user_message" then kinds.(user := true)
    else if kind == "agent_message" then kinds.(agent := true)
    else if kind == "agent_reasoning" || kind == "agent_reasoning_raw_content" then kinds.(reasoning := true)
    else kinds
  }

  function KindsOf(rows: seq<Stored>): Kinds {
    if rows == [] then Kinds(false, false, false)
    else
      var last := rows[|rows| - 1];
      if last.Bad? then KindsOf(rows[..|rows| - 1]) else Observe(KindsOf(rows[..|rows| - 1]), last.row)
  }

  function One(text: string, update: Update): seq<Update> {
    if text == "" then [] else [update]
  }

  function Event(payload: map<string, Json>): seq<Update> {
    var kind := StringField(payload, "type");
    var message := StringField(payload, "message");
    if kind == "user_message" then One(message, UserText(message))
    else if kind == "agent_message" then One(message, AgentText(message))
    else if kind == "agent_reasoning" || kind == "agent_reasoning_raw_content" then
      var text := Or(StringField(payload, "text"), message);
      One(text, ThoughtText(text))
    else []
  }

  function ContentText(items: seq<Json>): string {
    if items == [] then ""
    else
      ContentText(items[..|items| - 1]) +
      match items[|items| - 1]
      case Str(text) => text
      case Obj(fields) => Or(StringField(fields, "text"), StringField(fields, "summary_text"))
      case _ => ""
  }

  function ItemText(payload: map<string, Json>): string {
    var text := Or(StringField(payload, "text"), StringField(payload, "summary"));
    if text != "" then text
    else if "content" in payload && payload["content"].Arr? then ContentText(payload["content"].items)
    else ""
  }

  function ToolID(payload: map<string, Json>): string {
    Or(StringField(payload, "call_id"), StringField(payload, "id"))
  }

  function ImageID(payload: map<string, Json>): string {
    Or(StringField(payload, "id"), StringField(payload, "call_id"))
  }

  function ToolCall(payload: map<string, Json>, title: string): seq<Update> {
    [ToolStart(Or(ToolID(payload), title), title)]
  }

  function ImageRow(payload: map<string, Json>, gate: Gate): Result<seq<Update>, Refusal> {
    var id := Or(ImageID(payload), "image");
    var data := StringField(payload, "result");
    if data == "" then Ok([ToolStart(id, "Generate image"), ImageFailed(id)])
    else if !gate.admits(data, "") then Err(BadImage)
    else Ok([ToolStart(id, "Generate image"), ImageContent(id, data)])
  }

  /** A message or reasoning item, replayed only when no event of its voice exists. */
  function Speech(payload: map<string, Json>, kinds: Kinds): seq<Update> {
    var kind, role, text := StringField(payload, "type"), StringField(payload, "role"), ItemText(payload);
    if kind == "reasoning" then (if kinds.reasoning then [] else One(text, ThoughtText(text)))
    else if role == "user" && !kinds.user then One(text, UserText(text))
    else if role == "assistant" && !kinds.agent then One(text, AgentText(text))
    else []
  }

  function ToolItem(payload: map<string, Json>, gate: Gate): Result<seq<Update>, Refusal> {
    var kind := StringField(payload, "type");
    if kind == "function_call" || kind == "custom_tool_call" then Ok(ToolCall(payload, StringField(payload, "name")))
    else if kind == "function_call_output" || kind == "custom_tool_call_output" then
      Ok(if ToolID(payload) == "" then [] else [ToolOutput(ToolID(payload))])
    else if kind == "local_shell_call" then Ok(ToolCall(payload, "Run command"))
    else if kind == "web_search_call" then Ok(ToolCall(payload, "Web search"))
    else if kind == "image_generation_call" then ImageRow(payload, gate)
    else Ok([])
  }

  function Item(payload: map<string, Json>, kinds: Kinds, gate: Gate): Result<seq<Update>, Refusal> {
    var kind := StringField(payload, "type");
    if kind == "message" || kind == "reasoning" then Ok(Speech(payload, kinds)) else ToolItem(payload, gate)
  }

  function RowUpdates(row: Row, kinds: Kinds, gate: Gate): Result<seq<Update>, Refusal> {
    match row.rowType
    case EventMsg => Ok(Event(row.payload))
    case ResponseItem => Item(row.payload, kinds, gate)
    case Compacted => Ok(One(StringField(row.payload, "message"), ThoughtText(StringField(row.payload, "message"))))
    case OtherType => Ok([])
  }

  predicate Generates(row: Row) {
    row.rowType.ResponseItem? && PayloadType(row) == "image_generation_call"
  }

  /** A tool output of any row type: the loop looks at the payload alone. */
  predicate Outputs(row: Row) {
    PayloadType(row) == "function_call_output" || PayloadType(row) == "custom_tool_call_output"
  }

  function StoredImage(image: Image): seq<Update> {
    [ToolStart(image.id, if image.kind == "imageView" then "View image" else "Generate image"), ImageContent(image.id, image.data)]
  }

  /** What replay has sent, and which stored images it has delivered. */
  datatype Progress = Progress(updates: seq<Update>, emitted: set<string>)

  /** A row with its stored image filled in, as the loop replays it. */
  function Filled(row: Row, captured: map<string, Image>): Row {
    if Generates(row) && ImageID(row.payload) in captured
    then row.(payload := row.payload["result" := Str(captured[ImageID(row.payload)].data)])
    else row
  }

  /** One row of the delivery loop. */
  function Deliver(p: Progress, row: Row, captured: map<string, Image>, kinds: Kinds, gate: Gate): Result<Progress, Refusal> {
    var id := ImageID(row.payload);
    var emitted := if Generates(row) && id in captured then p.emitted + {id} else p.emitted;
    var updates := RowUpdates(Filled(row, captured), kinds, gate);
    if updates.Err? then Err(updates.error)
    else if id in captured && id !in emitted && Outputs(row)
    then Ok(Progress(p.updates + updates.value + StoredImage(captured[id]), emitted + {id}))
    else Ok(Progress(p.updates + updates.value, emitted))
  }

  function DeliverAll(rows: seq<Stored>, captured: map<string, Image>, kinds: Kinds, gate: Gate): Result<Progress, Refusal> {
    if rows == [] then Ok(Progress([], {}))
    else
      var p := DeliverAll(rows[..|rows| - 1], captured, kinds, gate);
      var last := rows[|rows| - 1];
      if p.Err? then p
      else if last.Bad? then Err(BadRow)
      else Deliver(p.value, last.row, captured, kinds, gate)
  }

  function Missing(images: seq<Image>, emitted: set<string>): seq<Update> {
    if images == [] then []
    else
      var last := images[|images| - 1];
      Missing(images[..|images| - 1], emitted) + (if last.id in emitted then [] else StoredImage(last))
  }

  /** The stored images a replay accepts. */
  predicate ImagesOk(images: seq<Image>, gate: Gate) {
    && (forall k | 0 <= k < |images| :: images[k].id != "" && gate.admits(images[k].data, images[k].mime))
    && (forall j, k | 0 <= j < k < |images| :: images[j].id != images[k].id)
  }

  function Captured(images: seq<Image>): map<string, Image> {
    if images == [] then map[] else Captured(images[..|images| - 1])[images[|images| - 1].id := images[|images| - 1]]
  }

  lemma {:induction false} CapturedHas(images: seq<Image>)
    ensures forall id :: id in Captured(images) <==> exists k | 0 <= k < |images| :: images[k].id == id
    ensures forall id | id in Captured(images) :: Captured(images)[id].id == id
  {
    if images == [] {
    } else {
      var n := |images| - 1;
      CapturedHas(images[..n]);
      forall id ensures id in Captured(images) <==> exists k | 0 <= k < |images| :: images[k].id == id {
        if id in Captured(images[..n]) {
          var k :| 0 <= k < n && images[..n][k].id == id;
          assert images[k].id == id;
        } else {
          forall k | 0 <= k < n ensures images[k].id != id {
            assert images[..n][k] == images[k];
          }
        }
      }
    }
  }

  function ReplayAll(rows: seq<Stored>, images: seq<Image>, gate: Gate): Result<seq<Update>, Refusal> {
    if exists k | 0 <= k < |rows| :: rows[k].Bad? then Err(BadRow)
    else if !ImagesOk(images, gate) then Err(BadImage)
    else
      var p := DeliverAll(rows, Captured(images), KindsOf(rows), gate);
      if p.Err? then Err(p.error) else Ok(p.value.updates + Missing(images, p.value.emitted))
  }

  // ---- a host that may refuse ----

  datatype End = Delivered | Refused(refusal: Refusal) | HostRefused

  /** What the rows before the first refused one deliver. */
  function Begun(rows: seq<Stored>, captured: map<string, Image>, kinds: Kinds, gate: Gate): seq<Update> {
    if rows == [] then []
    else
      var before := DeliverAll(rows[..|rows| - 1], captured, kinds, gate);
      var all := DeliverAll(rows, captured, kinds, gate);
      if before.Err? then Begun(rows[..|rows| - 1], captured, kinds, gate)
      else if all.Err? then before.value.updates
      else all.value.updates
  }

  function Tried(rows: seq<Stored>, images: seq<Image>, captured: map<string, Image>, kinds: Kinds, gate: Gate): (seq<Update>, End) {
    var p := DeliverAll(rows, captured, kinds, gate);
    if p.Err? then (Begun(rows, captured, kinds, gate), Refused(p.error))
    else (p.value.updates + Missing(images, p.value.emitted), Delivered)
  }

  /** What replay tries to send, and why it stops. */
  function Attempt(rows: seq<Stored>, images: seq<Image>, gate: Gate): (seq<Update>, End) {
    if exists k | 0 <= k < |rows| :: rows[k].Bad? then ([], Refused(BadRow))
    else if !ImagesOk(images, gate) then ([], Refused(BadImage))
    else Tried(rows, images, Captured(images), KindsOf(rows), gate)
  }

  /** What a host that takes `takes` updates has got when replay returns. */
  function Got(attempt: (seq<Update>, End), takes: nat): (seq<Update>, End) {
    if |attempt.0| > takes then (attempt.0[..takes], HostRefused) else attempt
  }

  /** A host that takes everything gets what ReplayAll says, and is refused what it refuses. */
  lemma AttemptIsReplay(rows: seq<Stored>, images: seq<Image>, gate: Gate)
    ensures var a, r := Attempt(rows, images, gate), ReplayAll(rows, images, gate);
            if r.Ok? then a == (r.value, Delivered) else a.1 == Refused(r.error)
  {
  }

  lemma {:induction false} DeliverFails(rows: seq<Stored>, captured: map<string, Image>, kinds: Kinds, gate: Gate, n: nat)
    requires n <= |rows| && DeliverAll(rows[..n], captured, kinds, gate).Err?
    ensures DeliverAll(rows, captured, kinds, gate) == DeliverAll(rows[..n], captured, kinds, gate)
    decreases |rows| - n
  {
    if n == |rows| {
      assert rows[..n] == rows;
    } else {
      assert rows[..n + 1][..n] == rows[..n];
      DeliverFails(rows, captured, kinds, gate, n + 1);
    }
  }

  lemma BegunOfAll(rows: seq<Stored>, captured: map<string, Image>, kinds: Kinds, gate: Gate)
    requires DeliverAll(rows, captured, kinds, gate).Ok?
    ensures Begun(rows, captured, kinds, gate) == DeliverAll(rows, captured, kinds, gate).value.updates
  {
  }

  lemma BegunNext(rows: seq<Stored>, captured: map<string, Image>, kinds: Kinds, gate: Gate)
    requires rows != []
    ensures Begun(rows[..|rows| - 1], captured, kinds, gate) <= Begun(rows, captured, kinds, gate)
  {
    var m := |rows| - 1;
    if DeliverAll(rows[..m], captured, kinds, gate).Ok? {
      BegunOfAll(rows[..m], captured, kinds, gate);
    }
  }

  lemma {:induction false} BegunPrefix(rows: seq<Stored>, captured: map<string, Image>, kinds: Kinds, gate: Gate, n: nat)
    requires n <= |rows|
    ensures Begun(rows[..n], captured, kinds, gate) <= Begun(rows, captured, kinds, gate)
    decreases |rows|
  {
    if n == |rows| {
      assert rows[..n] == rows;
    } else {
      assert rows[..|rows| - 1][..n] == rows[..n];
      BegunPrefix(rows[..|rows| - 1], captured, kinds, gate, n);
      BegunNext(rows, captured, kinds, gate);
    }
  }

  /** What is delivered early is a prefix of all that is tried. */
  lemma BegunGrows(rows: seq<Stored>, captured: map<string, Image>, kinds: Kinds, gate: Gate, n: nat)
    requires n <= |rows| && DeliverAll(rows[..n], captured, kinds, gate).Ok?
    ensures DeliverAll(rows[..n], captured, kinds, gate).value.updates <= Begun(rows, captured, kinds, gate)
    ensures DeliverAll(rows, captured, kinds, gate).Ok? ==>
              Begun(rows, captured, kinds, gate) == DeliverAll(rows, captured, kinds, gate).value.updates
  {
    BegunPrefix(rows, captured, kinds, gate, n);
    BegunOfAll(rows[..n], captured, kinds, gate);
    if DeliverAll(rows, captured, kinds, gate).Ok? {
      BegunOfAll(rows, captured, kinds, gate);
    }
  }

  // ---- the method ----

  /** Sends updates one by one up to the first the host refuses. */
  method Emit(before: seq<Update>, updates: seq<Update>, takes: nat) returns (sent: seq<Update>, ok: bool)
    requires |before| <= takes
    ensures ok <==> |before + updates| <= takes
    ensures sent == if ok then before + updates else (before + updates)[..takes]
  {
    sent := before;
    for k := 0 to |updates|
      invariant sent == before + updates[..k] && |sent| <= takes
    {
      if |sent| == takes {
        assert (before + updates)[..takes] == before + updates[..k];
        return sent, false;
      }
      sent := sent + [updates[k]];
    }
    assert updates[..|updates|] == updates;
    return sent, true;
  }

  lemma PrefixTaken(a: seq<Update>, b: seq<Update>, takes: nat)
    requires a <= b && takes < |a|
    ensures b[..takes] == a[..takes]
  {
  }

  lemma BegunComesFirst(rows: seq<Stored>, images: seq<Image>, captured: map<string, Image>, kinds: Kinds, gate: Gate, takes: nat)
    ensures var begun, tried := Begun(rows, captured, kinds, gate), Tried(rows, images, captured, kinds, gate);
            begun <= tried.0 && (|begun| > takes ==> Got(tried, takes) == (begun[..takes], HostRefused))
  {
    var begun, tried := Begun(rows, captured, kinds, gate), Tried(rows, images, captured, kinds, gate);
    assert rows[..0] == [];
    BegunGrows(rows, captured, kinds, gate, 0);
    if |begun| > takes {
      PrefixTaken(begun, tried.0, takes);
    }
  }

  lemma DeliverNext(rows: seq<Stored>, k: nat, captured: map<string, Image>, kinds: Kinds, gate: Gate)
    requires k < |rows| && rows[k].Good?
    ensures DeliverAll(rows[..k + 1], captured, kinds, gate) ==
              var p := DeliverAll(rows[..k], captured, kinds, gate);
              if p.Err? then p else Deliver(p.value, rows[k].row, captured, kinds, gate)
  {
    assert rows[..k + 1][..k] == rows[..k];
  }

  lemma DeliverAppends(p: Progress, row: Row, captured: map<string, Image>, kinds: Kinds, gate: Gate)
    requires Deliver(p, row, captured, kinds, gate).Ok?
    ensures p.updates <= Deliver(p, row, captured, kinds, gate).value.updates
  {
  }

  /** Once a row was refused, later rows add nothing to what is tried. */
  lemma {:induction false} BegunStays(rows: seq<Stored>, captured: map<string, Image>, kinds: Kinds, gate: Gate, n: nat)
    requires n <= |rows| && DeliverAll(rows[..n], captured, kinds, gate).Err?
    ensures Begun(rows, captured, kinds, gate) == Begun(rows[..n], captured, kinds, gate)
    decreases |rows|
  {
    if n == |rows| {
      assert rows[..n] == rows;
    } else {
      var before := rows[..|rows| - 1];
      assert before[..n] == rows[..n];
      DeliverFails(before, captured, kinds, gate, n);
      BegunStays(before, captured, kinds, gate, n);
    }
  }

  /** A row that is refused ends what is tried. */
  lemma BegunStops(rows: seq<Stored>, captured: map<string, Image>, kinds: Kinds, gate: Gate, k: nat)
    requires k < |rows| && DeliverAll(rows[..k], captured, kinds, gate).Ok? && DeliverAll(rows[..k + 1], captured, kinds, gate).Err?
    ensures Begun(rows, captured, kinds, gate) == DeliverAll(rows[..k], captured, kinds, gate).value.updates
    ensures DeliverAll(rows, captured, kinds, gate) == DeliverAll(rows[..k + 1], captured, kinds, gate)
  {
    assert rows[..k + 1][..k] == rows[..k];
    BegunStays(rows, captured, kinds, gate, k + 1);
    DeliverFails(rows, captured, kinds, gate, k + 1);
  }

  /** Sends what is new of all updates so far. */
  method EmitRest(before: seq<Update>, all: seq<Update>, takes: nat) returns (sent: seq<Update>, ok: bool)
    requires |before| <= takes && before <= all
    ensures ok <==> |all| <= takes
    ensures sent == if ok then all else all[..takes]
  {
    assert before + all[|before|..] == all;
    sent, ok := Emit(before, all[|before|..], takes);
  }

  /** One row of the loop: what it adds is sent, as far as the host takes it. */
  method DeliverRow(rows: seq<Stored>, k: nat, p: Progress, captured: map<string, Image>, kinds: Kinds, gate: Gate, takes: nat)
      returns (next: Result<Progress, Refusal>, sent: seq<Update>, ok: bool)
    requires k < |rows| && rows[k].Good? && DeliverAll(rows[..k], captured, kinds, gate) == Ok(p) && |p.updates| <= takes
    ensures next == DeliverAll(rows[..k + 1], captured, kinds, gate)
    ensures next.Ok? ==> (ok <==> |next.value.updates| <= takes)
    ensures next.Ok? ==> sent == if ok then next.value.updates else next.value.updates[..takes]
  {
    DeliverNext(rows, k, captured, kinds, gate);
    next := Deliver(p, rows[k].row, captured, kinds, gate);
    sent, ok := p.updates, false;
    if next.Ok? {
      DeliverAppends(p, rows[k].row, captured, kinds, gate);
      sent, ok := EmitRest(p.updates, next.value.updates, takes);
    }
  }

  lemma BegunCut(rows: seq<Stored>, captured: map<string, Image>, kinds: Kinds, gate: Gate, n: nat, takes: nat)
    requires n <= |rows| && DeliverAll(rows[..n], captured, kinds, gate).Ok?
    requires |DeliverAll(rows[..n], captured, kinds, gate).value.updates| > takes
    ensures var begun := Begun(rows, captured, kinds, gate);
            |begun| > takes && begun[..takes] == DeliverAll(rows[..n], captured, kinds, gate).value.updates[..takes]
  {
    BegunGrows(rows, captured, kinds, gate, n);
    PrefixTaken(DeliverAll(rows[..n], captured, kinds, gate).value.updates, Begun(rows, captured, kinds, gate), takes);
  }

  /** The delivery loop: all rows, up to a refused one or a refusal by the host. */
  method DeliverRows(rows: seq<Stored>, captured: map<string, Image>, kinds: Kinds, gate: Gate, takes: nat)
      returns (sent: seq<Update>, end: End, emitted: set<string>)
    requires forall k | 0 <= k < |rows| :: rows[k].Good?
    ensures var all := DeliverAll(rows, captured, kinds, gate);
            var begun := Begun(rows, captured, kinds, gate);
            match end
            case Delivered => all == Ok(Progress(sent, emitted)) && |sent| <= takes
            case Refused(refusal) => all == Err(refusal) && sent == begun && |begun| <= takes
            case HostRefused => |begun| > takes && sent == begun[..takes]
  {
    var p := Progress([], {});
    var k := 0;
    while k < |rows|
      invariant 0 <= k <= |rows| && |p.updates| <= takes
      invariant DeliverAll(rows[..k], captured, kinds, gate) == Ok(p)
    {
      var next, got, ok := DeliverRow(rows, k, p, captured, kinds, gate, takes);
      if next.Err? {
        BegunStops(rows, captured, kinds, gate, k);
        return p.updates, Refused(next.error), p.emitted;
      }
      if !ok {
        BegunCut(rows, captured, kinds, gate, k + 1, takes);
        return got, HostRefused, p.emitted;
      }
      p := next.value;
      k := k + 1;
    }
    assert rows[..k] == rows;
    return p.updates, Delivered, p.emitted;
  }

  method DeliverMissing(images: seq<Image>, emitted: set<string>) returns (updates: seq<Update>)
    ensures updates == Missing(images, emitted)
  {
    updates := [];
    var k := 0;
    while k < |images|
      invariant 0 <= k <= |images|
      invariant updates == Missing(images[..k], emitted)
    {
      assert images[..k + 1][..k] == images[..k];
      if images[k].id !in emitted {
        updates := updates + StoredImage(images[k]);
      }
      k := k + 1;
    }
    assert images[..k] == images;
  }

  method ReplayChecked(rows: seq<Stored>, images: seq<Image>, captured: map<string, Image>, kinds: Kinds, gate: Gate, takes: nat)
      returns (sent: seq<Update>, end: End)
    requires forall k | 0 <= k < |rows| :: rows[k].Good?
    ensures (sent, end) == Got(Tried(rows, images, captured, kinds, gate), takes)
  {
    var emitted: set<string>;
    sent, end, emitted := DeliverRows(rows, captured, kinds, gate, takes);
    if !end.Delivered? {
      BegunComesFirst(rows, images, captured, kinds, gate, takes);
      return;
    }
    var missing := DeliverMissing(images, emitted);
    var ok;
    sent, ok := Emit(sent, missing, takes);
    if !ok {
      end := HostRefused;
    }
  }

  method ObserveKinds(rows: seq<Stored>) returns (r: Option<Kinds>)
    ensures r == if exists k | 0 <= k < |rows| :: rows[k].Bad? then None else Some(KindsOf(rows))
  {
    var kinds := Kinds(false, false, false);
    var k := 0;
    while k < |rows|
      invariant 0 <= k <= |rows|
      invariant forall j | 0 <= j < k :: rows[j].Good?
      invariant kinds == KindsOf(rows[..k])
    {
      if rows[k].Bad? {
        return None;
      }
      assert rows[..k + 1][..k] == rows[..k];
      kinds := Observe(kinds, rows[k].row);
      k := k + 1;
    }
    assert rows[..k] == rows;
    return Some(kinds);
  }

  method Capture(images: seq<Image>, gate: Gate) returns (r: Option<map<string, Image>>)
    ensures r == if ImagesOk(images, gate) then Some(Captured(images)) else None
  {
    var captured := map[];
    var k := 0;
    while k < |images|
      invariant 0 <= k <= |images|
      invariant ImagesOk(images[..k], gate)
      invariant captured == Captured(images[..k])
    {
      CapturedHas(images[..k]);
      assert images[..k + 1][..k] == images[..k];
      if images[k].id == "" {
        return None;
      }
      if images[k].id in captured {
        var j :| 0 <= j < k && images[..k][j].id == images[k].id;
        assert images[j].id == images[k].id;
        return None;
      }
      if !gate.admits(images[k].data, images[k].mime) {
        return None;
      }
      captured := captured[images[k].id := images[k]];
      k := k + 1;
    }
    assert images[..k] == images;
    return Some(captured);
  }

  /** replay: nothing is delivered before every row and image was looked at, and an update the
      host refuses ends it. */
  method Replay(rows: seq<Stored>, images: seq<Image>, gate: Gate, takes: nat) returns (sent: seq<Update>, end: End)
    ensures (sent, end) == Got(Attempt(rows, images, gate), takes)
  {
    sent := [];
    var kinds := ObserveKinds(rows);
    if kinds.None? {
      return sent, Refused(BadRow);
    }
    var captured := Capture(images, gate);
    if captured.None? {
      return sent, Refused(BadImage);
    }
    sent, end := ReplayChecked(rows, images, captured.value, kinds.value, gate, takes);
  }
}
