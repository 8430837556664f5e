/** What each kind of row, and each stored image, is replayed as: ids, titles, texts and bytes, told
    from the row's own fields. */
module ReplayRows {
  import opened JsonTrees
  import opened Wrappers
  import opened Replay
  import opened ReplayImages

  // ---- fields ----

  /** The first of the named fields that is a non-empty text. */
  predicate FirstText(payload: map<string, Json>, a: string, b: string, text: string) {
    if a in payload && payload[a].Str? && |payload[a].text| > 0 then text == payload[a].text
    else if b in payload && payload[b].Str? then text == payload[b].text
    else text == ""
  }

  lemma FieldsInOrder(payload: map<string, Json>)
    ensures FirstText(payload, "call_id", "id", ToolID(payload))
    ensures FirstText(payload, "id", "call_id", ImageID(payload))
  {
  }

  // ---- texts of items ----

  /** The text of one part of a content list. */
  function PartText(part: Json): string {
    if part.Str? then part.text
    else if part.Obj? && "text" in part.fields && part.fields["text"].Str? && |part.fields["text"].text| > 0
    then part.fields["text"].text
    else if part.Obj? && "summary_text" in part.fields && part.fields["summary_text"].Str?
    then part.fields["summary_text"].text
    else ""
  }

  /** A content list reads as its parts' texts, one after the other. */
  lemma ContentReads(items: seq<Json>, part: Json)
    ensures ContentText([]) == "" && ContentText(items + [part]) == ContentText(items) + PartText(part)
  {
    assert (items + [part])[..|items|] == items;
  }

  /** An item's text: its own, else its summary, else its content list's. */
  lemma ItemReads(payload: map<string, Json>)
    ensures if FirstText(payload, "text", "summary", "") then
              ItemText(payload) == if "content" in payload && payload["content"].Arr? then ContentText(payload["content"].items) else ""
            else FirstText(payload, "text", "summary", ItemText(payload))
  {
  }

  // ---- tool rows ----

  const TOOL_ITEMS := {
    "function_call", "custom_tool_call", "local_shell_call", "web_search_call", "function_call_output",
    "custom_tool_call_output", "image_generation_call"
  }

  /** Calls are announced under their id, else their title; an output updates its call, unless it
      names none; and no other item is one. */
  lemma ToolRows(payload: map<string, Json>, gate: Gate)
    ensures var kind, id, name := StringField(payload, "type"), ToolID(payload), StringField(payload, "name");
            var r := ToolItem(payload, gate);
            && (kind == "function_call" || kind == "custom_tool_call" ==> r == Ok([ToolStart(if id == "" then name else id, name)]))
            && (kind == "local_shell_call" ==> r == Ok([ToolStart(if id == "" then "Run command" else id, "Run command")]))
            && (kind == "web_search_call" ==> r == Ok([ToolStart(if id == "" then "Web search" else id, "Web search")]))
            && (kind == "function_call_output" || kind == "custom_tool_call_output" ==>
                  r == Ok(if id == "" then [] else [ToolOutput(id)]))
            && (kind == "image_generation_call" ==> r == ImageRow(payload, gate))
            && (kind !in TOOL_ITEMS ==> r == Ok([]))
  {
  }

  /** A generation row is announced, and then fails without bytes, is refused with bytes the
      library does not admit, and else carries its bytes. */
  lemma GenerationRows(payload: map<string, Json>, gate: Gate)
    ensures var id, data := (if ImageID(payload) == "" then "image" else ImageID(payload)), StringField(payload, "result");
            && (data == "" ==> ImageRow(payload, gate) == Ok([ToolStart(id, "Generate image"), ImageFailed(id)]))
            && (data != "" && !gate.admits(data, "") ==> ImageRow(payload, gate) == Err(BadImage))
            && (data != "" && gate.admits(data, "") ==>
                  ImageRow(payload, gate) == Ok([ToolStart(id, "Generate image"), ImageContent(id, data)]))
  {
  }

  /** A message speaks only for a user or an assistant without events, reasoning only without
      reasoning events; a row speaks once, and only with a text. */
  lemma SpokenRows(payload: map<string, Json>, kinds: Kinds)
    ensures var kind, role, text := StringField(payload, "type"), StringField(payload, "role"), ItemText(payload);
            var r := Speech(payload, kinds);
            && (text == "" ==> r == [])
            && (kind == "reasoning" && text != "" ==> r == if kinds.reasoning then [] else [ThoughtText(text)])
            && (kind == "message" && role == "user" && text != "" ==> r == if kinds.user then [] else [UserText(text)])
            && (kind == "message" && role == "assistant" && text != "" ==> r == if kinds.agent then [] else [AgentText(text)])
            && (kind == "message" && role != "user" && role != "assistant" ==> r == [])
  {
  }

  /** Which rows carry an image's id for the delivery loop. */
  lemma RowsOfImages(row: Row)
    ensures Generates(row) <==> row.rowType == ResponseItem && StringField(row.payload, "type") == "image_generation_call"
    ensures Outputs(row) <==> StringField(row.payload, "type") in {"function_call_output", "custom_tool_call_output"}
  {
  }

  /** Only a generation row of a stored image is filled in, with that image's bytes. */
  lemma GenerationIsFilled(row: Row, captured: map<string, Image>)
    ensures var id := ImageID(row.payload);
            Filled(row, captured) ==
              if row.rowType == ResponseItem && StringField(row.payload, "type") == "image_generation_call" && id in captured
              then Row(row.rowType, row.payload["result" := Str(captured[id].data)])
              else row
  {
  }

  /** One row of the delivery loop sends its own updates and, for a tool output under the id of a
      stored image that was not sent yet, that image; the image counts as sent after either. */
  lemma RowIsDelivered(p: Progress, row: Row, captured: map<string, Image>, kinds: Kinds, gate: Gate)
    ensures var id, kind := ImageID(row.payload), StringField(row.payload, "type");
            var stored := id in captured;
            var generated := row.rowType == ResponseItem && kind == "image_generation_call";
            var output := kind == "function_call_output" || kind == "custom_tool_call_output";
            var updates := RowUpdates(Filled(row, captured), kinds, gate);
            && (updates.Err? ==> Deliver(p, row, captured, kinds, gate) == Err(updates.error))
            && (updates.Ok? ==>
                  Deliver(p, row, captured, kinds, gate) ==
                    Ok(Progress(
                      p.updates + updates.value + (if stored && output && id !in p.emitted then StoredImage(captured[id]) else []),
                      if stored && (generated || output) then p.emitted + {id} else p.emitted)))
  {
    var id := ImageID(row.payload);
    if id in p.emitted {
      assert p.emitted + {id} == p.emitted;
    }
    assert forall u: seq<Update> :: p.updates + u + [] == p.updates + u;
  }

  // ---- stored images ----

  /** A stored image is announced by what it is, and carries its own bytes. */
  lemma StoredImages(image: Image)
    ensures |StoredImage(image)| == 2
    ensures StoredImage(image)[0] == ToolStart(image.id, if image.kind == "imageView" then "View image" else "Generate image")
    ensures StoredImage(image)[1] == ImageContent(image.id, image.data)
  {
  }

  /** Captured images are looked up by their own id. */
  lemma {:induction false} CapturedIsStored(images: seq<Image>, k: nat)
    requires k < |images| && forall i, j | 0 <= i < j < |images| :: images[i].id != images[j].id
    ensures images[k].id in Captured(images) && Captured(images)[images[k].id] == images[k]
  {
    var n := |images| - 1;
    if k < n {
      assert images[..n][k] == images[k] && images[k].id != images[n].id;
      CapturedIsStored(images[..n], k);
    }
  }

  lemma MissingOne(image: Image, emitted: set<string>)
    ensures Missing([image], emitted) == if image.id in emitted then [] else StoredImage(image)
  {
    assert [image][..0] == [];
  }

  lemma MissingLast(images: seq<Image>, image: Image, emitted: set<string>)
    ensures Missing(images + [image], emitted) == Missing(images, emitted) + Missing([image], emitted)
  {
    var all := images + [image];
    assert all[..|all| - 1] == images && all[|all| - 1] == image;
    MissingOne(image, emitted);
  }

  lemma Regroup(a: seq<Update>, b: seq<Update>, c: seq<Update>)
    ensures (a + b) + c == a + (b + c)
  {
  }

  /** What no row delivered comes last, in stored order. */
  lemma {:induction false} MissingInOrder(a: seq<Image>, b: seq<Image>, emitted: set<string>)
    ensures Missing(a + b, emitted) == Missing(a, emitted) + Missing(b, emitted)
    decreases |b|
  {
    if b == [] {
      assert a + b == a && Missing(b, emitted) == [];
    } else {
      var rest, last := b[..|b| - 1], b[|b| - 1];
      assert rest + [last] == b && (a + rest) + [last] == a + b;
      MissingInOrder(a, rest, emitted);
      MissingLast(rest, last, emitted);
      MissingLast(a + rest, last, emitted);
      Regroup(Missing(a, emitted), Missing(rest, emitted), Missing([last], emitted));
    }
  }

  // ---- the bytes that are delivered ----

  /** Every image sent under the id of a stored one carries its bytes. */
  predicate CarriesStored(updates: seq<Update>, captured: map<string, Image>, id: string) {
    forall u | u in updates && u.ImageContent? && u.id == id :: id in captured && u.data == captured[id].data
  }

  lemma NoImageInOtherRows(row: Row, kinds: Kinds, gate: Gate)
    requires !Generates(row) && RowUpdates(row, kinds, gate).Ok?
    ensures forall u | u in RowUpdates(row, kinds, gate).value :: !u.ImageContent?
  {
  }

  lemma RowCarriesStored(row: Row, captured: map<string, Image>, kinds: Kinds, gate: Gate, id: string)
    requires id in captured && "" !in captured && !Anonymous(row, id) && RowUpdates(Filled(row, captured), kinds, gate).Ok?
    ensures CarriesStored(RowUpdates(Filled(row, captured), kinds, gate).value, captured, id)
  {
    var filled := Filled(row, captured);
    assert ImageID(filled.payload) == ImageID(row.payload) && PayloadType(filled) == PayloadType(row);
    if Generates(row) {
      GenerationRows(filled.payload, gate);
    } else {
      NoImageInOtherRows(row, kinds, gate);
    }
  }

  lemma {:induction false} RowsCarryStored(rows: seq<Row>, stored: seq<Stored>, captured: map<string, Image>, kinds: Kinds,
      gate: Gate, id: string)
    requires |rows| == |stored| && forall k | 0 <= k < |rows| :: stored[k] == Good(rows[k]) && !Anonymous(rows[k], id)
    requires id in captured && captured[id].id == id && "" !in captured && forall i | i in captured :: captured[i].id == i
    requires DeliverAll(stored, captured, kinds, gate).Ok?
    ensures CarriesStored(DeliverAll(stored, captured, kinds, gate).value.updates, captured, id)
  {
    if rows == [] {
    } else {
      var n := |rows| - 1;
      RowsCarryStored(rows[..n], stored[..n], captured, kinds, gate, id);
      RowCarriesStored(rows[n], captured, kinds, gate, id);
    }
  }

  lemma {:induction false} MissingCarriesStored(images: seq<Image>, captured: map<string, Image>, emitted: set<string>, id: string)
    requires forall k | 0 <= k < |images| && images[k].id == id :: id in captured && captured[id] == images[k]
    ensures CarriesStored(Missing(images, emitted), captured, id)
  {
    if images == [] {
    } else {
      var n := |images| - 1;
      assert forall k | 0 <= k < n :: images[..n][k] == images[k];
      MissingCarriesStored(images[..n], captured, emitted, id);
    }
  }

  lemma CarriesBoth(a: seq<Update>, b: seq<Update>, captured: map<string, Image>, id: string)
    requires CarriesStored(a, captured, id) && CarriesStored(b, captured, id)
    ensures CarriesStored(a + b, captured, id)
  {
  }

  /** Whatever is delivered under a stored image's id is that image's bytes, be it by a row or at
      the end, unless a generation row without an id was announced under the same name. */
  lemma StoredBytesDelivered(rows: seq<Row>, stored: seq<Stored>, images: seq<Image>, gate: Gate, k: nat)
    requires |rows| == |stored| && forall j | 0 <= j < |rows| :: stored[j] == Good(rows[j])
    requires k < |images| && forall j | 0 <= j < |rows| :: !Anonymous(rows[j], images[k].id)
    requires ReplayAll(stored, images, gate).Ok?
    ensures forall u | u in ReplayAll(stored, images, gate).value && u.ImageContent? && u.id == images[k].id :: u.data == images[k].data
  {
    var id, captured := images[k].id, Captured(images);
    CapturedHas(images);
    CapturedIsStored(images, k);
    forall j | 0 <= j < |images| ensures images[j].id == id ==> captured[id] == images[j] {
      CapturedIsStored(images, j);
    }
    var p := DeliverAll(stored, captured, KindsOf(stored), gate).value;
    RowsCarryStored(rows, stored, captured, KindsOf(stored), gate, id);
    MissingCarriesStored(images, captured, p.emitted, id);
    CarriesBoth(p.updates, Missing(images, p.emitted), captured, id);
  }
}
