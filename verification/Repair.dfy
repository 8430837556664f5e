/** Repair of function calls whose arguments are not JSON (internal/codex/rollout.go:52-82,
    223-282). A rollout row is a line of text; the JSON library is a `Codec` between texts and
    trees, whose only assumed law is that an encoded tree decodes to itself. */
module Repair {
  import opened JsonTrees
  import opened Wrappers

  /** `valid` is json.Valid on a text. */
  datatype Codec = Codec(decode: string -> Option<Json>, encode: Json -> string, valid: string -> bool)

  const EMPTY_ARGUMENTS := "{}"

  ghost predicate Lawful(c: Codec) {
    (forall v :: c.decode(c.encode(v)) == Some(v)) && c.valid(EMPTY_ARGUMENTS)
  }

  /** DecodeRowKind: the row's type and its payload's. */
  datatype Kind = Kind(rowType: string, payloadType: string)

  /** A string field; None for one that is there and is no string. An absent or null field reads
      as the empty string. */
  function TypeField(fields: map<string, Json>): Option<string> {
    if "type" !in fields || fields["type"].Null? then Some("")
    else if fields["type"].Str? then Some(fields["type"].text)
    else None
  }

  function PayloadType(fields: map<string, Json>): Option<string> {
    if "payload" !in fields || fields["payload"].Null? then Some("")
    else if fields["payload"].Obj? then
      var payload := fields["payload"].fields;
      Some(if "type" in payload && payload["type"].Str? then payload["type"].text else "")
    else None
  }

  function RowKind(c: Codec, row: string): Option<Kind> {
    var v := c.decode(row);
    if v.None? || !v.value.Obj? then None
    else
      var rowType, payloadType := TypeField(v.value.fields), PayloadType(v.value.fields);
      if rowType.None? || rowType.value == "" || payloadType.None? then None
      else Some(Kind(rowType.value, payloadType.value))
  }

  predicate ValidArguments(c: Codec, payload: map<string, Json>) {
    "arguments" in payload && payload["arguments"].Str? && c.valid(payload["arguments"].text)
  }

  predicate IsCall(kind: Kind) {
    kind.rowType == "response_item" && kind.payloadType == "function_call"
  }

  function Payload(c: Codec, row: string): map<string, Json>
    requires RowKind(c, row).Some? && RowKind(c, row).value.payloadType != ""
  {
    c.decode(row).value.fields["payload"].fields
  }

  /** A function call whose arguments are absent, no string, or a string that is not JSON. */
  predicate Broken(c: Codec, row: string) {
    var kind := RowKind(c, row);
    kind.Some? && IsCall(kind.value) && !ValidArguments(c, Payload(c, row))
  }

  function WithArguments(fields: map<string, Json>): Json
    requires "payload" in fields && fields["payload"].Obj?
  {
    Obj(fields["payload" := Obj(fields["payload"].fields["arguments" := Str(EMPTY_ARGUMENTS)])])
  }

  function RepairRow(c: Codec, row: string): string {
    if Broken(c, row) then c.encode(WithArguments(c.decode(row).value.fields)) else row
  }

  predicate Decodes(c: Codec, row: string) {
    RowKind(c, row).Some?
  }

  function RepairRows(c: Codec, rows: seq<string>): seq<string> {
    seq(|rows|, k requires 0 <= k < |rows| => RepairRow(c, rows[k]))
  }

  function CountBroken(c: Codec, rows: seq<string>): nat {
    if rows == [] then 0 else CountBroken(c, rows[..|rows| - 1]) + (if Broken(c, rows[|rows| - 1]) then 1 else 0)
  }

  datatype Repaired = Repaired(rows: seq<string>, calls: nat)

  /** The row, and whether it was rewritten. */
  method RepairCallRow(c: Codec, row: string) returns (r: Option<(string, bool)>)
    ensures r.None? <==> !Decodes(c, row)
    ensures r.Some? ==> r.value == (RepairRow(c, row), Broken(c, row))
  {
    var kind := RowKind(c, row);
    if kind.None? {
      return None;
    }
    if !IsCall(kind.value) {
      return Some((row, false));
    }
    var decoded := c.decode(row).value.fields;
    var payload := decoded["payload"].fields;
    if ValidArguments(c, payload) {
      return Some((row, false));
    }
    payload := payload["arguments" := Str(EMPTY_ARGUMENTS)];
    decoded := decoded["payload" := Obj(payload)];
    return Some((c.encode(Obj(decoded)), true));
  }

  /** RepairCallArguments; an error names the first row that does not decode. */
  method RepairCallArguments(c: Codec, rows: seq<string>) returns (r: Result<Repaired, nat>)
    ensures r.Ok? <==> forall k | 0 <= k < |rows| :: Decodes(c, rows[k])
    ensures r.Ok? ==> r.value == Repaired(RepairRows(c, rows), CountBroken(c, rows))
    ensures r.Err? ==> r.error < |rows| && !Decodes(c, rows[r.error]) && forall k | 0 <= k < r.error :: Decodes(c, rows[k])
  {
    var repaired := 0;
    var out := new string[|rows|];
    var index := 0;
    while index < |rows|
      invariant 0 <= index <= |rows|
      invariant forall k | 0 <= k < index :: Decodes(c, rows[k]) && out[k] == RepairRow(c, rows[k])
      invariant repaired == CountBroken(c, rows[..index])
    {
      var fixed := RepairCallRow(c, rows[index]);
      if fixed.None? {
        return Err(index);
      }
      if fixed.value.1 {
        repaired := repaired + 1;
      }
      out[index] := fixed.value.0;
      assert rows[..index + 1][..index] == rows[..index];
      index := index + 1;
    }
    assert rows[..index] == rows;
    assert out[..] == RepairRows(c, rows);
    return Ok(Repaired(out[..], repaired));
  }

  // ---- what repair does ----

  /** A repaired row is the row with the call's arguments replaced and nothing else; it is no
      longer broken, and repairing it again leaves it alone. */
  lemma RepairedRow(c: Codec, row: string)
    requires Lawful(c)
    ensures var fixed := RepairRow(c, row);
            && !Broken(c, fixed)
            && RepairRow(c, fixed) == fixed
            && (Broken(c, row) <==> fixed != row)
            && RowKind(c, fixed) == RowKind(c, row)
            && (Broken(c, row) ==>
                  && c.decode(fixed) == Some(WithArguments(c.decode(row).value.fields))
                  && Payload(c, fixed) == Payload(c, row)["arguments" := Str(EMPTY_ARGUMENTS)])
  {
    if Broken(c, row) {
      var fields := c.decode(row).value.fields;
      var v := WithArguments(fields);
      assert c.decode(c.encode(v)) == Some(v);
      assert TypeField(v.fields) == TypeField(fields) && PayloadType(v.fields) == PayloadType(fields);
      assert ValidArguments(c, Payload(c, RepairRow(c, row)));
    }
  }

  predicate Clean(c: Codec, rows: seq<string>) {
    forall k | 0 <= k < |rows| :: !Broken(c, rows[k])
  }

  /** Repair is pointwise, leaves no broken call and every other row as it was, and a second
      repair changes nothing. */
  lemma RepairedRows(c: Codec, rows: seq<string>)
    requires Lawful(c)
    ensures var fixed := RepairRows(c, rows);
            && |fixed| == |rows|
            && Clean(c, fixed)
            && RepairRows(c, fixed) == fixed
            && (Clean(c, rows) <==> fixed == rows)
            && forall k | 0 <= k < |rows| :: fixed[k] != rows[k] <==> Broken(c, rows[k])
  {
    var fixed := RepairRows(c, rows);
    forall k | 0 <= k < |rows|
      ensures !Broken(c, fixed[k]) && RepairRow(c, fixed[k]) == fixed[k] && (fixed[k] != rows[k] <==> Broken(c, rows[k]))
    {
      RepairedRow(c, rows[k]);
    }
  }

  function Changed(before: seq<string>, after: seq<string>): nat
    requires |before| == |after|
  {
    if before == [] then 0
    else Changed(before[..|before| - 1], after[..|before| - 1]) + (if before[|before| - 1] != after[|before| - 1] then 1 else 0)
  }

  /** The count reported is the number of rows that changed. */
  lemma {:induction false} CountIsChanged(c: Codec, rows: seq<string>)
    requires Lawful(c)
    ensures CountBroken(c, rows) == Changed(rows, RepairRows(c, rows))
    ensures CountBroken(c, rows) == 0 <==> Clean(c, rows)
  {
    if rows == [] {
    } else {
      var n := |rows| - 1;
      CountIsChanged(c, rows[..n]);
      RepairedRow(c, rows[n]);
      assert RepairRows(c, rows)[..n] == RepairRows(c, rows[..n]);
      if Clean(c, rows[..n]) && !Broken(c, rows[n]) {
        forall k | 0 <= k < |rows| ensures !Broken(c, rows[k]) {
          assert k < n ==> rows[..n][k] == rows[k];
        }
      }
      if Clean(c, rows) {
        assert forall k | 0 <= k < n :: rows[..n][k] == rows[k];
      }
    }
  }

  /** Repair commutes with taking a prefix. */
  lemma RepairKeepsPrefix(c: Codec, a: seq<string>, b: seq<string>)
    requires a <= b
    ensures RepairRows(c, a) <= RepairRows(c, b)
  {
    assert forall k | 0 <= k < |a| :: a[k] == b[k];
  }

  /** A stored prefix stays a prefix when both sides are repaired, and when the native side had
      been repaired before. */
  lemma RepairedStaysPrefix(c: Codec, store: seq<string>, native: seq<string>)
    requires Lawful(c) && (store <= native || RepairRows(c, store) <= native)
    ensures RepairRows(c, store) <= RepairRows(c, native)
  {
    if store <= native {
      RepairKeepsPrefix(c, store, native);
    } else {
      RepairKeepsPrefix(c, RepairRows(c, store), native);
      RepairedRows(c, store);
    }
  }

  // ---- by the fields of the row ----

  /** The field is absent or null. */
  predicate Missing(fields: map<string, Json>, name: string) {
    name in fields ==> fields[name] == Null
  }

  /** A row decodes exactly when it is an object whose type is a non-empty text and whose payload,
      if there is one, is an object. */
  lemma RowsThatDecode(c: Codec, row: string)
    ensures Decodes(c, row) <==>
              && c.decode(row).Some? && c.decode(row).value.Obj?
              && var fields := c.decode(row).value.fields;
                 && "type" in fields && fields["type"].Str? && |fields["type"].text| > 0
                 && (Missing(fields, "payload") || fields["payload"].Obj?)
  {
  }

  /** A row is a broken call exactly when it is a response item that holds a function call whose
      arguments are not a text of valid JSON. */
  lemma BrokenCalls(c: Codec, row: string)
    ensures Broken(c, row) <==>
              && Decodes(c, row)
              && var fields := c.decode(row).value.fields;
                 && fields["type"] == Str("response_item")
                 && "payload" in fields && fields["payload"].Obj?
                 && var payload := fields["payload"].fields;
                    && "type" in payload && payload["type"] == Str("function_call")
                    && !("arguments" in payload && payload["arguments"].Str? && c.valid(payload["arguments"].text))
  {
    RowsThatDecode(c, row);
  }

  /** What repair writes for a broken call: the same row with "{}" as the call's arguments. */
  lemma RepairWrites(c: Codec, row: string)
    requires Broken(c, row)
    ensures var fields := c.decode(row).value.fields;
            && "payload" in fields && fields["payload"].Obj?
            && RepairRow(c, row) == c.encode(Obj(fields["payload" := Obj(fields["payload"].fields["arguments" := Str("{}")])]))
    ensures forall other | !Broken(c, other) :: RepairRow(c, other) == other
  {
    BrokenCalls(c, row);
  }
}
