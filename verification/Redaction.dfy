/** The copy of a native record that raw diagnostics carry (session_updates.go:416-449): image
    payloads are replaced by their size, at any depth. */
module Redaction {
  import opened Decimals
  import opened JsonTrees
  import opened Wrappers

  predicate IsImageItem(fields: map<string, Json>) {
    StringField(fields, "type") in {"imageGeneration", "imageView", "image_generation_call"}
  }

  /** An image item that holds a payload. */
  predicate HoldsImage(fields: map<string, Json>) {
    IsImageItem(fields) && StringField(fields, "result") != ""
  }

  function Size(result: string): Json {
    Number(Decimal(|result| / 4 * 3))
  }

  function Redact(v: Json): Json {
    match v
    case Obj(fields) =>
      var copied := map key | key in fields :: Redact(fields[key]);
      Obj(if HoldsImage(fields) then copied["result" := Str("")]["resultBytes" := Size(fields["result"].text)] else copied)
    case Arr(items) => Arr(seq(|items|, k requires 0 <= k < |items| => Redact(items[k])))
    case _ => v
  }

  // ---- places in a tree ----

  datatype Key = Field(name: string) | Index(k: nat)

  function Child(v: Json, key: Key): Option<Json> {
    match key
    case Field(name) => if v.Obj? && name in v.fields then Some(v.fields[name]) else None
    case Index(k) => if v.Arr? && k < |v.items| then Some(v.items[k]) else None
  }

  /** What stands at a path, if anything. */
  function At(v: Json, path: seq<Key>): Option<Json> {
    if path == [] then Some(v)
    else
      var child := Child(v, path[0]);
      if child.None? then None else At(child.value, path[1..])
  }

  /** The path leads into a redacted payload or its size. */
  predicate Hidden(v: Json, path: seq<Key>) {
    path != []
    && ((v.Obj? && HoldsImage(v.fields) && path[0] in {Field("result"), Field("resultBytes")})
        || (Child(v, path[0]).Some? && Hidden(Child(v, path[0]).value, path[1..])))
  }

  /** A path leads from an object into the field it names, from a list to the item it counts, and from
      anything else nowhere. */
  lemma PathsLead(v: Json, key: Key, rest: seq<Key>)
    ensures At(v, []) == Some(v)
    ensures At(v, [key] + rest) ==
              if v.Obj? && key.Field? && key.name in v.fields then At(v.fields[key.name], rest)
              else if v.Arr? && key.Index? && key.k < |v.items| then At(v.items[key.k], rest)
              else None
  {
    assert ([key] + rest)[1..] == rest;
  }

  /** On the path, at its k-th step, an image item with a payload is left through its payload or size. */
  predicate EntersPayload(v: Json, path: seq<Key>, k: nat)
    requires k < |path|
  {
    && At(v, path[..k]).Some? && At(v, path[..k]).value.Obj? && HoldsImage(At(v, path[..k]).value.fields)
    && (path[k] == Field("result") || path[k] == Field("resultBytes"))
  }

  /** Hidden are exactly the places in or under the payload, or the size, of an image item. */
  lemma {:induction false} HiddenIsUnderAnImage(v: Json, path: seq<Key>)
    ensures Hidden(v, path) <==> exists k | 0 <= k < |path| :: EntersPayload(v, path, k)
    decreases |path|
  {
    if path != [] {
      var child, rest := Child(v, path[0]), path[1..];
      assert At(v, path[..0]) == Some(v);
      forall k | 1 <= k < |path| ensures path[..k] != [] && path[..k][0] == path[0] && path[..k][1..] == rest[..k - 1] {
      }
      if child.Some? {
        HiddenIsUnderAnImage(child.value, rest);
        forall k | 1 <= k < |path| ensures EntersPayload(v, path, k) <==> EntersPayload(child.value, rest, k - 1) {
        }
        if Hidden(v, path) {
          if EntersPayload(v, path, 0) {
          } else {
            var k :| 0 <= k < |rest| && EntersPayload(child.value, rest, k);
            assert EntersPayload(v, path, k + 1);
          }
        }
        if k :| 0 <= k < |path| && EntersPayload(v, path, k) {
          assert k == 0 || EntersPayload(child.value, rest, k - 1);
        }
      } else {
        forall k | 1 <= k < |path| ensures At(v, path[..k]).None? {
        }
        if Hidden(v, path) {
          assert EntersPayload(v, path, 0);
        }
      }
    }
  }

  function RedactFound(v: Option<Json>): Option<Json> {
    if v.None? then None else Some(Redact(v.value))
  }

  // ---- what redaction promises ----

  lemma ChildRedacted(v: Json, key: Key)
    requires !(v.Obj? && HoldsImage(v.fields) && key in {Field("result"), Field("resultBytes")})
    ensures Child(Redact(v), key) == RedactFound(Child(v, key))
  {
  }

  /** Outside redacted payloads the copy has what the original has, and nothing else: every leaf
      is the same, and every tree below is the redacted one. */
  lemma {:induction false} ElsewhereEqual(v: Json, path: seq<Key>)
    requires !Hidden(v, path)
    ensures At(Redact(v), path) == RedactFound(At(v, path))
  {
    if path == [] {
    } else {
      ChildRedacted(v, path[0]);
      if Child(v, path[0]).Some? {
        ElsewhereEqual(Child(v, path[0]).value, path[1..]);
      }
    }
  }

  /** A leaf outside a redacted payload is kept. */
  lemma LeavesKept(v: Json, path: seq<Key>)
    requires !Hidden(v, path) && At(v, path).Some? && !At(v, path).value.Obj? && !At(v, path).value.Arr?
    ensures At(Redact(v), path) == At(v, path)
  {
    ElsewhereEqual(v, path);
  }

  /** Nowhere in the copy is there an image item with a payload. */
  lemma {:induction false} NoImageLeft(v: Json, path: seq<Key>)
    requires At(Redact(v), path).Some? && At(Redact(v), path).value.Obj?
    ensures !HoldsImage(At(Redact(v), path).value.fields)
  {
    if path == [] {
      assert v.Obj?;
    } else if !(v.Obj? && HoldsImage(v.fields) && path[0] in {Field("result"), Field("resultBytes")}) {
      ChildRedacted(v, path[0]);
      NoImageLeft(Child(v, path[0]).value, path[1..]);
    }
  }

  /** A redacted payload reads as the empty string beside the size of its bytes. */
  lemma SizeRecorded(v: Json, path: seq<Key>)
    requires !Hidden(v, path) && At(v, path).Some? && At(v, path).value.Obj? && HoldsImage(At(v, path).value.fields)
    ensures var copy := At(Redact(v), path);
            && copy.Some? && copy.value.Obj?
            && "result" in copy.value.fields && copy.value.fields["result"] == Str("")
            && "resultBytes" in copy.value.fields
            && copy.value.fields["resultBytes"] == Number(Decimal(|At(v, path).value.fields["result"].text| / 4 * 3))
  {
    ElsewhereEqual(v, path);
  }

  /** Redacting again changes nothing. */
  lemma {:induction false} RedactsOnce(v: Json)
    ensures Redact(Redact(v)) == Redact(v)
  {
    match v
    case Obj(fields) =>
      forall key | key in fields ensures Redact(Redact(fields[key])) == Redact(fields[key]) {
        RedactsOnce(fields[key]);
      }
      assert !HoldsImage(Redact(v).fields);
      assert Redact(Redact(v)).fields == Redact(v).fields;
    case Arr(items) =>
      forall k | 0 <= k < |items| ensures Redact(Redact(items[k])) == Redact(items[k]) {
        RedactsOnce(items[k]);
      }
    case _ =>
  }

  /** Which objects are redacted: those whose type is one of the three image items' and whose result
      is a non-empty text. Of such an object the copy keeps every other field's name, and it holds the
      empty result beside its size, three bytes for every four characters. */
  lemma ImagesAreRedacted(fields: map<string, Json>)
    ensures HoldsImage(fields) <==>
              && "type" in fields
              && (fields["type"] == Str("imageGeneration") || fields["type"] == Str("imageView")
                  || fields["type"] == Str("image_generation_call"))
              && "result" in fields && fields["result"].Str? && |fields["result"].text| > 0
    ensures var copy := Redact(Obj(fields));
            && copy.Obj?
            && copy.fields.Keys == fields.Keys + (if HoldsImage(fields) then {"resultBytes"} else {})
            && (HoldsImage(fields) ==>
                  && copy.fields["result"] == Str("")
                  && copy.fields["resultBytes"] == Number(Decimal(|fields["result"].text| / 4 * 3)))
  {
  }
}
