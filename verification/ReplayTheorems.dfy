/** What replay delivers, for every stored conversation. */
module ReplayTheorems {
  import opened JsonTrees
  import opened Wrappers
  import opened Replay

  // ---- texts ----

  datatype Voice = User | Agent | Thought

  /** The text of an update in one voice. */
  function TextOf(voice: Voice, update: Update): Option<string> {
    match update
    case UserText(text) => if voice.User? then Some(text) else None
    case AgentText(text) => if voice.Agent? then Some(text) else None
    case ThoughtText(text) => if voice.Thought? then Some(text) else None
    case _ => None
  }

  function Texts(voice: Voice, updates: seq<Update>): seq<string> {
    if updates == [] then []
    else
      var text := TextOf(voice, updates[|updates| - 1]);
      Texts(voice, updates[..|updates| - 1]) + (if text.Some? then [text.value] else [])
  }

  /** Where a voice's texts may come from: event rows, response items, compaction rows. */
  datatype Source = FromEvents | FromItems

  function NonEmpty(text: string): seq<string> {
    if text == "" then [] else [text]
  }

  function EventVoice(kind: string): Option<Voice> {
    if kind == "user_message" then Some(User)
    else if kind == "agent_message" then Some(Agent)
    else if kind == "agent_reasoning" || kind == "agent_reasoning_raw_content" then Some(Thought)
    else None
  }

  function ItemVoice(payload: map<string, Json>): Option<Voice> {
    var kind, role := StringField(payload, "type"), StringField(payload, "role");
    if kind == "message" && role == "user" then Some(User)
    else if kind == "message" && role == "assistant" then Some(Agent)
    else if kind == "reasoning" then Some(Thought)
    else None
  }

  /** The text one row holds for a voice under a source; compactions add thoughts under both. */
  function RowText(voice: Voice, source: Source, row: Row): seq<string> {
    var payload := row.payload;
    match row.rowType
    case EventMsg =>
      if source.FromItems? || EventVoice(PayloadType(row)) != Some(voice) then []
      else NonEmpty(if voice.Thought? then Or(StringField(payload, "text"), StringField(payload, "message"))
                    else StringField(payload, "message"))
    case ResponseItem => if source.FromEvents? || ItemVoice(payload) != Some(voice) then [] else NonEmpty(ItemText(payload))
    case Compacted => if voice.Thought? then NonEmpty(StringField(payload, "message")) else []
    case OtherType => []
  }

  function SourceTexts(voice: Voice, source: Source, rows: seq<Stored>): seq<string> {
    if rows == [] then []
    else
      var last := rows[|rows| - 1];
      SourceTexts(voice, source, rows[..|rows| - 1]) + (if last.Bad? then [] else RowText(voice, source, last.row))
  }

  /** Some event row of the voice is there, with or without text. */
  predicate HasEvents(voice: Voice, rows: seq<Stored>) {
    exists k | 0 <= k < |rows| ::
      rows[k].Good? && rows[k].row.rowType.EventMsg? && EventVoice(PayloadType(rows[k].row)) == Some(voice)
  }

  function SourceOf(voice: Voice, kinds: Kinds): Source {
    if (match voice case User => kinds.user case Agent => kinds.agent case Thought => kinds.reasoning)
    then FromEvents else FromItems
  }

  lemma {:induction false} KindsSeeEvents(voice: Voice, rows: seq<Stored>)
    ensures SourceOf(voice, KindsOf(rows)).FromEvents? <==> HasEvents(voice, rows)
  {
    if rows == [] {
    } else {
      var n := |rows| - 1;
      KindsSeeEvents(voice, rows[..n]);
      assert HasEvents(voice, rows[..n]) ==> HasEvents(voice, rows) by {
        if HasEvents(voice, rows[..n]) {
          var k :| 0 <= k < n && rows[..n][k].Good? && rows[..n][k].row.rowType.EventMsg?
                   && EventVoice(PayloadType(rows[..n][k].row)) == Some(voice);
          assert rows[k] == rows[..n][k];
        }
      }
      forall k | 0 <= k < n ensures rows[..n][k] == rows[k] {
      }
    }
  }

  lemma {:induction false} TextsAdd(voice: Voice, a: seq<Update>, b: seq<Update>)
    ensures Texts(voice, a + b) == Texts(voice, a) + Texts(voice, b)
    decreases |b|
  {
    if b == [] {
      assert a + b == a;
    } else {
      var n := |b| - 1;
      assert (a + b)[..|a| + n] == a + b[..n];
      TextsAdd(voice, a, b[..n]);
    }
  }

  lemma TextsOfOne(voice: Voice, update: Update)
    ensures Texts(voice, [update]) == if TextOf(voice, update).Some? then [TextOf(voice, update).value] else []
  {
    assert [update][..0] == [];
  }

  lemma TextsOfTwo(voice: Voice, a: Update, b: Update)
    requires TextOf(voice, a).None? && TextOf(voice, b).None?
    ensures Texts(voice, [a, b]) == []
  {
    TextsOfOne(voice, a);
    assert [a, b][..1] == [a];
  }

  lemma EventTextsMatch(voice: Voice, row: Row, kinds: Kinds)
    requires row.rowType.EventMsg? && Observe(kinds, row) == kinds
    ensures Texts(voice, Event(row.payload)) == RowText(voice, SourceOf(voice, kinds), row)
  {
    if Event(row.payload) != [] {
      TextsOfOne(voice, Event(row.payload)[0]);
    }
  }

  lemma SpeechMatches(voice: Voice, row: Row, kinds: Kinds)
    requires row.rowType.ResponseItem? && (PayloadType(row) == "message" || PayloadType(row) == "reasoning")
    ensures Texts(voice, Speech(row.payload, kinds)) == RowText(voice, SourceOf(voice, kinds), row)
  {
    if Speech(row.payload, kinds) != [] {
      TextsOfOne(voice, Speech(row.payload, kinds)[0]);
    }
  }

  lemma ToolsAreSilent(voice: Voice, payload: map<string, Json>, gate: Gate)
    requires ToolItem(payload, gate).Ok?
    ensures Texts(voice, ToolItem(payload, gate).value) == []
  {
    var updates := ToolItem(payload, gate).value;
    if |updates| == 1 {
      TextsOfOne(voice, updates[0]);
    } else if |updates| == 2 {
      TextsOfTwo(voice, updates[0], updates[1]);
    }
  }

  lemma ItemTextsMatch(voice: Voice, row: Row, kinds: Kinds, gate: Gate)
    requires row.rowType.ResponseItem? && Item(row.payload, kinds, gate).Ok?
    ensures Texts(voice, Item(row.payload, kinds, gate).value) == RowText(voice, SourceOf(voice, kinds), row)
  {
    if PayloadType(row) == "message" || PayloadType(row) == "reasoning" {
      SpeechMatches(voice, row, kinds);
    } else {
      ToolsAreSilent(voice, row.payload, gate);
    }
  }

  lemma RowTextsMatch(voice: Voice, row: Row, kinds: Kinds, gate: Gate)
    requires Observe(kinds, row) == kinds && RowUpdates(row, kinds, gate).Ok?
    ensures Texts(voice, RowUpdates(row, kinds, gate).value) == RowText(voice, SourceOf(voice, kinds), row)
  {
    match row.rowType
    case EventMsg => EventTextsMatch(voice, row, kinds);
    case ResponseItem => ItemTextsMatch(voice, row, kinds, gate);
    case Compacted =>
      if RowUpdates(row, kinds, gate).value != [] {
        TextsOfOne(voice, RowUpdates(row, kinds, gate).value[0]);
      }
    case OtherType =>
  }

  /** A row's own text is not touched by filling in its stored image. */
  lemma FilledRowText(voice: Voice, source: Source, row: Row, data: string)
    requires Generates(row)
    ensures RowText(voice, source, row.(payload := row.payload["result" := Str(data)])) == RowText(voice, source, row)
  {
  }

  lemma FilledTexts(voice: Voice, row: Row, captured: map<string, Image>, kinds: Kinds, gate: Gate)
    requires Observe(kinds, row) == kinds && RowUpdates(Filled(row, captured), kinds, gate).Ok?
    ensures Texts(voice, RowUpdates(Filled(row, captured), kinds, gate).value) == RowText(voice, SourceOf(voice, kinds), row)
  {
    RowTextsMatch(voice, Filled(row, captured), kinds, gate);
    if Generates(row) && ImageID(row.payload) in captured {
      FilledRowText(voice, SourceOf(voice, kinds), row, captured[ImageID(row.payload)].data);
    }
  }

  lemma StoredHasNoText(voice: Voice, updates: seq<Update>, image: Image)
    ensures Texts(voice, updates + StoredImage(image)) == Texts(voice, updates)
  {
    TextsAdd(voice, updates, StoredImage(image));
    TextsOfTwo(voice, StoredImage(image)[0], StoredImage(image)[1]);
  }

  lemma DeliverTexts(voice: Voice, p: Progress, row: Row, captured: map<string, Image>, kinds: Kinds, gate: Gate)
    requires Observe(kinds, row) == kinds && Deliver(p, row, captured, kinds, gate).Ok?
    ensures Texts(voice, Deliver(p, row, captured, kinds, gate).value.updates) ==
              Texts(voice, p.updates) + RowText(voice, SourceOf(voice, kinds), row)
  {
    var id := ImageID(row.payload);
    FilledTexts(voice, row, captured, kinds, gate);
    var updates := RowUpdates(Filled(row, captured), kinds, gate).value;
    TextsAdd(voice, p.updates, updates);
    if id in captured {
      StoredHasNoText(voice, p.updates + updates, captured[id]);
    }
  }

  /** Every kind observed anywhere is already in the kinds of the whole conversation. */
  lemma {:induction false} KindsSaturate(rows: seq<Stored>, k: nat)
    requires k < |rows| && rows[k].Good?
    ensures Observe(KindsOf(rows), rows[k].row) == KindsOf(rows)
  {
    var n := |rows| - 1;
    if k < n {
      assert rows[..n][k] == rows[k];
      KindsSaturate(rows[..n], k);
    }
  }

  lemma {:induction false} DeliverAllTexts(voice: Voice, rows: seq<Stored>, captured: map<string, Image>, kinds: Kinds, gate: Gate)
    requires forall k | 0 <= k < |rows| && rows[k].Good? :: Observe(kinds, rows[k].row) == kinds
    requires DeliverAll(rows, captured, kinds, gate).Ok?
    ensures Texts(voice, DeliverAll(rows, captured, kinds, gate).value.updates) == SourceTexts(voice, SourceOf(voice, kinds), rows)
  {
    if rows == [] {
    } else {
      var n := |rows| - 1;
      assert forall k | 0 <= k < n :: rows[..n][k] == rows[k];
      DeliverAllTexts(voice, rows[..n], captured, kinds, gate);
      DeliverTexts(voice, DeliverAll(rows[..n], captured, kinds, gate).value, rows[n].row, captured, kinds, gate);
    }
  }

  lemma {:induction false} MissingHasNoText(voice: Voice, images: seq<Image>, emitted: set<string>)
    ensures Texts(voice, Missing(images, emitted)) == []
  {
    if images == [] {
    } else {
      var n := |images| - 1;
      MissingHasNoText(voice, images[..n], emitted);
      StoredHasNoText(voice, Missing(images[..n], emitted), images[n]);
      assert Missing(images[..n], emitted) + [] == Missing(images[..n], emitted);
    }
  }

  /** User, agent and reasoning text each come from one source, in row order and complete: the
      event rows when there is one of that voice, else the response items. */
  lemma OneSourceEach(voice: Voice, rows: seq<Stored>, images: seq<Image>, gate: Gate)
    requires ReplayAll(rows, images, gate).Ok?
    ensures Texts(voice, ReplayAll(rows, images, gate).value) ==
              SourceTexts(voice, if HasEvents(voice, rows) then FromEvents else FromItems, rows)
  {
    var kinds, captured := KindsOf(rows), Captured(images);
    forall k | 0 <= k < |rows| && rows[k].Good? ensures Observe(kinds, rows[k].row) == kinds {
      KindsSaturate(rows, k);
    }
    KindsSeeEvents(voice, rows);
    DeliverAllTexts(voice, rows, captured, kinds, gate);
    var p := DeliverAll(rows, captured, kinds, gate).value;
    TextsAdd(voice, p.updates, Missing(images, p.emitted));
    MissingHasNoText(voice, images, p.emitted);
  }
}
