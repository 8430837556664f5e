/** How often replay delivers a stored image, and the encoding the images are stored in. */
module ReplayImages {
  import opened JsonTrees
  import opened Replay

  /** How many image contents were sent under an id. */
  function Contents(id: string, updates: seq<Update>): nat {
    if updates == [] then 0
    else
      var last := updates[|updates| - 1];
      Contents(id, updates[..|updates| - 1]) + (if last.ImageContent? && last.id == id then 1 else 0)
  }

  lemma {:induction false} ContentsAdd(id: string, a: seq<Update>, b: seq<Update>)
    ensures Contents(id, a + b) == Contents(id, a) + Contents(id, b)
    decreases |b|
  {
    if b == [] {
      assert a + b == a;
    } else {
      var n := |b| - 1;
      assert (a + b)[..|a| + n] == a + b[..n];
      ContentsAdd(id, a, b[..n]);
    }
  }

  lemma ContentsOfOne(id: string, update: Update)
    ensures Contents(id, [update]) == if update.ImageContent? && update.id == id then 1 else 0
  {
    assert [update][..0] == [];
  }

  lemma ContentsOfTwo(id: string, a: Update, b: Update)
    ensures Contents(id, [a, b]) == Contents(id, [a]) + Contents(id, [b])
    ensures Contents(id, [a]) == if a.ImageContent? && a.id == id then 1 else 0
    ensures Contents(id, [b]) == if b.ImageContent? && b.id == id then 1 else 0
  {
    ContentsAdd(id, [a], [b]);
    ContentsOfOne(id, a);
    ContentsOfOne(id, b);
  }

  lemma ContentsOfStored(id: string, image: Image)
    ensures Contents(id, StoredImage(image)) == if image.id == id then 1 else 0
  {
    ContentsOfTwo(id, StoredImage(image)[0], StoredImage(image)[1]);
  }

  // ---- rows that deliver an image ----

  predicate GeneratesId(row: Row, id: string) {
    Generates(row) && ImageID(row.payload) == id
  }

  predicate OutputsId(row: Row, id: string) {
    Outputs(row) && ImageID(row.payload) == id
  }

  /** A generation row without an id, with its own bytes, is announced as "image". */
  predicate Anonymous(row: Row, id: string) {
    Generates(row) && ImageID(row.payload) == "" && id == "image" && StringField(row.payload, "result") != ""
  }

  function CountRows(rows: seq<Stored>, p: Row -> bool): nat {
    if rows == [] then 0
    else CountRows(rows[..|rows| - 1], p) + (if rows[|rows| - 1].Good? && p(rows[|rows| - 1].row) then 1 else 0)
  }

  function Generations(rows: seq<Stored>, id: string): nat {
    CountRows(rows, (row: Row) => GeneratesId(row, id))
  }

  function Anonymouses(rows: seq<Stored>, id: string): nat {
    CountRows(rows, (row: Row) => Anonymous(row, id))
  }

  /** A tool output with the id comes before any generation row with it. */
  predicate OutputFirst(rows: seq<Stored>, id: string) {
    exists k | 0 <= k < |rows| :: rows[k].Good? && OutputsId(rows[k].row, id) && Generations(rows[..k], id) == 0
  }

  lemma OutputFirstNext(rows: seq<Stored>, id: string)
    requires rows != []
    ensures var n := |rows| - 1;
            OutputFirst(rows, id) <==>
              OutputFirst(rows[..n], id) || (rows[n].Good? && OutputsId(rows[n].row, id) && Generations(rows[..n], id) == 0)
  {
    var n := |rows| - 1;
    forall k | 0 <= k < n ensures rows[..n][k] == rows[k] && rows[..n][..k] == rows[..k] {
    }
    if OutputFirst(rows[..n], id) {
      var k :| 0 <= k < n && rows[..n][k].Good? && OutputsId(rows[..n][k].row, id) && Generations(rows[..n][..k], id) == 0;
      assert rows[k].Good? && OutputsId(rows[k].row, id) && Generations(rows[..k], id) == 0;
    }
  }

  // ---- one row ----

  lemma SpeechHasNoImage(id: string, row: Row, kinds: Kinds, gate: Gate)
    requires !Generates(row) && RowUpdates(row, kinds, gate).Ok?
    ensures Contents(id, RowUpdates(row, kinds, gate).value) == 0
  {
    var updates := RowUpdates(row, kinds, gate).value;
    assert |updates| <= 1;
    if |updates| == 1 {
      ContentsOfOne(id, updates[0]);
      assert updates == [updates[0]];
    }
  }

  lemma ImageRowContents(id: string, payload: map<string, Json>, gate: Gate)
    requires ImageRow(payload, gate).Ok?
    ensures Contents(id, ImageRow(payload, gate).value) ==
              if StringField(payload, "result") != "" && Or(ImageID(payload), "image") == id then 1 else 0
  {
    var s := ImageRow(payload, gate).value;
    ContentsOfTwo(id, s[0], s[1]);
  }

  /** The library admits no empty bytes. */
  ghost predicate Sound(gate: Gate) {
    forall mime :: !gate.admits("", mime)
  }

  lemma RowContents(id: string, row: Row, captured: map<string, Image>, kinds: Kinds, gate: Gate)
    requires id in captured && "" !in captured && (forall i | i in captured :: captured[i].data != "")
    requires RowUpdates(Filled(row, captured), kinds, gate).Ok?
    ensures Contents(id, RowUpdates(Filled(row, captured), kinds, gate).value) ==
              if GeneratesId(row, id) || Anonymous(row, id) then 1 else 0
  {
    var row1 := Filled(row, captured);
    assert ImageID(row1.payload) == ImageID(row.payload) && PayloadType(row1) == PayloadType(row);
    if Generates(row) {
      ImageRowContents(id, row1.payload, gate);
    } else {
      SpeechHasNoImage(id, row, kinds, gate);
    }
  }

  /** One row of the loop, for a stored image: how much is sent under its id. */
  lemma DeliverContents(id: string, p: Progress, row: Row, captured: map<string, Image>, kinds: Kinds, gate: Gate)
    requires id in captured && "" !in captured
    requires forall i | i in captured :: captured[i].data != "" && captured[i].id == i
    requires Deliver(p, row, captured, kinds, gate).Ok?
    ensures var p' := Deliver(p, row, captured, kinds, gate).value;
            && (id in p'.emitted <==> id in p.emitted || GeneratesId(row, id) || OutputsId(row, id))
            && Contents(id, p'.updates) ==
                 Contents(id, p.updates)
                 + (if GeneratesId(row, id) || Anonymous(row, id) || (OutputsId(row, id) && id !in p.emitted) then 1 else 0)
  {
    var own := ImageID(row.payload);
    RowContents(id, row, captured, kinds, gate);
    var updates := RowUpdates(Filled(row, captured), kinds, gate).value;
    ContentsAdd(id, p.updates, updates);
    if own in captured {
      ContentsAdd(id, p.updates + updates, StoredImage(captured[own]));
      ContentsOfStored(id, captured[own]);
    }
  }

  lemma {:induction false} DeliverAllContents(id: string, rows: seq<Stored>, captured: map<string, Image>, kinds: Kinds, gate: Gate)
    requires id in captured && "" !in captured
    requires forall i | i in captured :: captured[i].data != "" && captured[i].id == i
    requires DeliverAll(rows, captured, kinds, gate).Ok?
    ensures var p := DeliverAll(rows, captured, kinds, gate).value;
            && (id in p.emitted <==> Generations(rows, id) > 0 || OutputFirst(rows, id))
            && Contents(id, p.updates) == Generations(rows, id) + Anonymouses(rows, id) + (if OutputFirst(rows, id) then 1 else 0)
  {
    if rows == [] {
    } else {
      var n := |rows| - 1;
      DeliverAllContents(id, rows[..n], captured, kinds, gate);
      DeliverContents(id, DeliverAll(rows[..n], captured, kinds, gate).value, rows[n].row, captured, kinds, gate);
      OutputFirstNext(rows, id);
    }
  }

  lemma {:induction false} MissingContents(id: string, images: seq<Image>, emitted: set<string>)
    requires forall j, k | 0 <= j < k < |images| :: images[j].id != images[k].id
    ensures Contents(id, Missing(images, emitted)) ==
              if id !in emitted && exists k | 0 <= k < |images| :: images[k].id == id then 1 else 0
  {
    if images == [] {
    } else {
      var n := |images| - 1;
      MissingContents(id, images[..n], emitted);
      ContentsAdd(id, Missing(images[..n], emitted), StoredImage(images[n]));
      ContentsOfStored(id, images[n]);
      assert Missing(images[..n], emitted) + [] == Missing(images[..n], emitted);
      assert (exists k | 0 <= k < |images| :: images[k].id == id) <==>
             (exists k | 0 <= k < n :: images[..n][k].id == id) || images[n].id == id by {
        forall k | 0 <= k < n ensures images[..n][k] == images[k] {
        }
        if k :| 0 <= k < n && images[..n][k].id == id {
          assert images[k].id == id;
        }
      }
    }
  }

  // ---- what replay promises ----

  lemma {:induction false} CapturedAdmitted(images: seq<Image>, gate: Gate)
    requires Sound(gate) && ImagesOk(images, gate)
    ensures forall id | id in Captured(images) :: Captured(images)[id].data != "" && id != ""
  {
    if images == [] {
    } else {
      var n := |images| - 1;
      assert forall k | 0 <= k < n :: images[..n][k] == images[k];
      CapturedAdmitted(images[..n], gate);
      assert gate.admits(images[n].data, images[n].mime);
    }
  }

  /** Every stored image is delivered, and exactly once if and only if no generation row carries
      its id, or one does and no tool output with the id comes before it (and no row without an
      id was announced under the same name). */
  lemma StoredImageDelivered(rows: seq<Stored>, images: seq<Image>, gate: Gate, k: nat)
    requires Sound(gate) && ReplayAll(rows, images, gate).Ok? && k < |images|
    ensures var id := images[k].id;
            var n := Contents(id, ReplayAll(rows, images, gate).value);
            && n >= 1
            && (n == 1 <==> Anonymouses(rows, id) == 0
                            && (Generations(rows, id) == 0 || (Generations(rows, id) == 1 && !OutputFirst(rows, id))))
  {
    var id, captured, kinds := images[k].id, Captured(images), KindsOf(rows);
    CapturedHas(images);
    CapturedAdmitted(images, gate);
    DeliverAllContents(id, rows, captured, kinds, gate);
    var p := DeliverAll(rows, captured, kinds, gate).value;
    ContentsAdd(id, p.updates, Missing(images, p.emitted));
    MissingContents(id, images, p.emitted);
  }

  const OutputRow := Row(ResponseItem, map["type" := Str("function_call_output"), "id" := Str("a")])
  const GenerationRow := Row(ResponseItem, map["type" := Str("image_generation_call"), "id" := Str("a")])
  const Picture := Image("a", "", "x", "")

  lemma OutputThenGeneration(captured: map<string, Image>, kinds: Kinds, gate: Gate)
    requires captured == map["a" := Picture] && gate.admits("x", "")
    ensures DeliverAll([Good(OutputRow), Good(GenerationRow)], captured, kinds, gate).Ok?
  {
    var rows := [Good(OutputRow), Good(GenerationRow)];
    assert rows[..1] == [Good(OutputRow)] && rows[..1][..0] == [];
    assert ImageID(OutputRow.payload) == "a" && ImageID(GenerationRow.payload) == "a";
    assert StringField(OutputRow.payload, "type") == "function_call_output";
    assert StringField(GenerationRow.payload, "type") == "image_generation_call";
    assert Generates(GenerationRow) && !Generates(OutputRow);
    var filled := Filled(GenerationRow, captured);
    assert StringField(filled.payload, "type") == "image_generation_call" && StringField(filled.payload, "result") == "x";
    assert RowUpdates(OutputRow, kinds, gate).Ok? && RowUpdates(filled, kinds, gate).Ok?;
    assert DeliverAll(rows[..1], captured, kinds, gate).Ok?;
  }

  lemma OutputIsFirst()
    ensures OutputFirst([Good(OutputRow), Good(GenerationRow)], "a")
    ensures Generations([Good(OutputRow), Good(GenerationRow)], "a") >= 1
  {
    var rows := [Good(OutputRow), Good(GenerationRow)];
    assert rows[..0] == [] && rows[0] == Good(OutputRow) && OutputsId(OutputRow, "a");
    assert Generations(rows[..0], "a") == 0;
    assert GeneratesId(GenerationRow, "a");
  }

  lemma PictureCaptured(gate: Gate)
    requires gate.admits("x", "")
    ensures ImagesOk([Picture], gate) && Captured([Picture]) == map["a" := Picture]
  {
    assert [Picture][..0] == [];
  }

  /** A tool output before a generation row with its id delivers the stored image twice. */
  lemma DeliveredTwice(gate: Gate)
    requires Sound(gate) && gate.admits("x", "")
    ensures var r := ReplayAll([Good(OutputRow), Good(GenerationRow)], [Picture], gate);
            r.Ok? && Contents("a", r.value) >= 2
  {
    var rows := [Good(OutputRow), Good(GenerationRow)];
    PictureCaptured(gate);
    OutputThenGeneration(Captured([Picture]), KindsOf(rows), gate);
    assert rows[0].Good? && rows[1].Good?;
    OutputIsFirst();
    StoredImageDelivered(rows, [Picture], gate, 0);
  }

  // ---- the encoding ----

  function Commas(items: seq<string>): string {
    if items == [] then ""
    else if |items| == 1 then items[0]
    else Commas(items[..|items| - 1]) + "," + items[|items| - 1]
  }

  /** The JSON array of encoded items. */
  function Encode(items: seq<string>): string {
    "[" + Commas(items) + "]"
  }

  /** appendImage on an encoded list, which starts out absent. */
  function AppendImage(encoded: string, item: string): string {
    if |encoded| < 2 || encoded == "[]" then "[" + item + "]"
    else encoded[..|encoded| - 1] + "," + item + "]"
  }

  lemma CommasNotEmpty(items: seq<string>)
    requires items != [] && items[|items| - 1] != ""
    ensures Commas(items) != ""
  {
  }

  /** Splicing an item in is encoding the list with the item, for every list. */
  lemma SpliceIsEncode(items: seq<string>, item: string)
    requires forall k | 0 <= k < |items| :: items[k] != ""
    ensures AppendImage(Encode(items), item) == Encode(items + [item])
  {
    if items == [] {
      assert items + [item] == [item];
    } else {
      CommasNotEmpty(items);
      assert (items + [item])[..|items|] == items;
      assert Encode(items)[..|Encode(items)| - 1] == "[" + Commas(items);
    }
  }

  function AppendAll(items: seq<string>): string {
    if items == [] then "" else AppendImage(AppendAll(items[..|items| - 1]), items[|items| - 1])
  }

  /** A session that keeps its images encoded holds what encoding all of them would give. */
  lemma {:induction false} IncrementalIsWhole(items: seq<string>)
    requires forall k | 0 <= k < |items| :: items[k] != ""
    ensures AppendAll(items) == if items == [] then "" else Encode(items)
  {
    if items == [] {
    } else {
      var n := |items| - 1;
      assert items == items[..n] + [items[n]];
      IncrementalIsWhole(items[..n]);
      if n > 0 {
        SpliceIsEncode(items[..n], items[n]);
      }
    }
  }
}
