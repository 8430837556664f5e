/** Session options (session_meta.go, agent_session.go:543-602, session_store.go:150-175): the
    `_meta.codex` namespace a host sends, and its printing and parsing. `Wire` is the libraries'
    judgement of a session environment: whether a request may name it, and whether a thread's
    environment can be built from it. */
module Options {
  import opened JsonTrees
  import opened Wrappers

  datatype Wire = Wire(
    validEnvironment: (Option<map<string, string>>, Option<seq<string>>) -> bool,
    builds: (Option<map<string, string>>, Option<seq<string>>) -> bool)

  /** A key of the options object; `Foreign` is any the adapter does not know. */
  datatype Key =
    | Model | Env | ExtraPathDirs | OutputSchema | Effort | ServiceTier | Personality | ApprovalPolicy | SandboxPolicy
    | Foreign(name: string)

  /** What stands under `options`. */
  datatype Carried = NoObject | Object(values: map<Key, Json>)

  /** What stands under the vendor's name: nothing readable, or its two keys and any others. */
  datatype Namespace = NotANamespace | Namespace(rawEvent: Option<Json>, options: Option<Carried>, others: set<string>)

  /** A request's `_meta`; `lifecycleKey` says it names the key the host library refuses. */
  datatype Meta = Meta(lifecycleKey: bool, vendor: Option<Namespace>)

  /** A nil map, slice or policy is None; an omitted text is empty. */
  datatype CodexOptions = CodexOptions(
    model: string,
    env: Option<map<string, string>>,
    extraPathDirs: Option<seq<string>>,
    outputSchema: Option<map<string, Json>>,
    effort: string,
    serviceTier: string,
    personality: string,
    approvalPolicy: Option<Json>,
    sandboxPolicy: Option<Json>)

  const NoOptions := CodexOptions("", None, None, None, "", "", "", None, None)

  datatype SessionMeta = SessionMeta(
    options: CodexOptions,
    rawEvents: bool,
    presentEnv: bool,
    presentExtraPathDirs: bool)

  const NoMeta := SessionMeta(NoOptions, false, false, false)

  datatype Refusal = LifecycleKey | Unsupported | BadEnvironment

  // ---- printing ----

  function Text(text: string): Option<Json> {
    if text == "" then None else Some(Str(text))
  }

  function EnvJson(env: map<string, string>): Json {
    Obj(map name | name in env :: Str(env[name]))
  }

  function DirsJson(dirs: seq<string>): Json {
    Arr(seq(|dirs|, k requires 0 <= k < |dirs| => Str(dirs[k])))
  }

  /** What a set of options prints under a key, if anything. */
  function Printed(o: CodexOptions, key: Key): Option<Json> {
    match key
    case Model => Text(o.model)
    case Env => if o.env.None? then None else Some(EnvJson(o.env.value))
    case ExtraPathDirs => if o.extraPathDirs.None? then None else Some(DirsJson(o.extraPathDirs.value))
    case OutputSchema => if o.outputSchema.None? then None else Some(Obj(o.outputSchema.value))
    case Effort => Text(o.effort)
    case ServiceTier => Text(o.serviceTier)
    case Personality => Text(o.personality)
    case ApprovalPolicy => o.approvalPolicy
    case SandboxPolicy => o.sandboxPolicy
    case Foreign(_) => None
  }

  predicate PrintsAt(o: CodexOptions, values: map<Key, Json>, key: Key) {
    Printed(o, key) == if key in values then Some(values[key]) else None
  }

  /** The object holds exactly what the options print. */
  ghost predicate Prints(o: CodexOptions, values: map<Key, Json>) {
    forall key :: PrintsAt(o, values, key)
  }

  predicate Early(key: Key) {
    key.Model? || key.Env? || key.ExtraPathDirs? || key.OutputSchema?
  }

  method PrintSettings(o: CodexOptions, before: map<Key, Json>) returns (values: map<Key, Json>)
    requires forall key :: if Early(key) then PrintsAt(o, before, key) else key !in before
    ensures forall key :: PrintsAt(o, values, key)
  {
    values := before;
    if o.effort != "" {
      values := values[Effort := Str(o.effort)];
    }
    if o.serviceTier != "" {
      values := values[ServiceTier := Str(o.serviceTier)];
    }
    if o.personality != "" {
      values := values[Personality := Str(o.personality)];
    }
    if o.approvalPolicy.Some? {
      values := values[ApprovalPolicy := o.approvalPolicy.value];
    }
    if o.sandboxPolicy.Some? {
      values := values[SandboxPolicy := o.sandboxPolicy.value];
    }
  }

  /** Meta: exactly the non-zero fields, and nothing beside them. */
  method PrintMeta(o: CodexOptions) returns (meta: Meta)
    ensures !meta.lifecycleKey
    ensures meta.vendor.Some? && meta.vendor.value.Namespace?
    ensures meta.vendor.value.rawEvent.None? && meta.vendor.value.others == {}
    ensures meta.vendor.value.options.Some? && meta.vendor.value.options.value.Object?
    ensures Prints(o, meta.vendor.value.options.value.values)
  {
    var values: map<Key, Json> := map[];
    if o.model != "" {
      values := values[Model := Str(o.model)];
    }
    if o.env.Some? {
      values := values[Env := EnvJson(o.env.value)];
    }
    if o.extraPathDirs.Some? {
      values := values[ExtraPathDirs := DirsJson(o.extraPathDirs.value)];
    }
    if o.outputSchema.Some? {
      values := values[OutputSchema := Obj(o.outputSchema.value)];
    }
    assert forall key :: if Early(key) then PrintsAt(o, values, key) else key !in values;
    values := PrintSettings(o, values);
    assert forall key :: PrintsAt(o, values, key);
    return Meta(false, Some(Namespace(None, Some(Object(values)), {})));
  }

  // ---- parsing ----

  predicate StringMap(v: Json) {
    v.Obj? && forall name | name in v.fields :: v.fields[name].Str?
  }

  predicate StringSlice(v: Json) {
    v.Arr? && forall k | 0 <= k < |v.items| :: v.items[k].Str?
  }

  function StringMapOf(v: Json): map<string, string>
    requires StringMap(v)
  {
    map name | name in v.fields :: v.fields[name].text
  }

  function StringSliceOf(v: Json): seq<string>
    requires StringSlice(v)
  {
    seq(|v.items|, k requires 0 <= k < |v.items| => v.items[k].text)
  }

  predicate NonEmptyObject(v: Json) {
    v.Obj? && v.fields != map[]
  }

  predicate NonEmptyText(v: Json) {
    v.Str? && v.text != ""
  }

  /** What a key's value must be; a policy is a non-empty string or object. */
  predicate Accepts(key: Key, v: Json) {
    match key
    case Model => NonEmptyText(v)
    case Effort => NonEmptyText(v)
    case ServiceTier => NonEmptyText(v)
    case Personality => NonEmptyText(v)
    case Env => StringMap(v)
    case ExtraPathDirs => StringSlice(v)
    case OutputSchema => NonEmptyObject(v)
    case ApprovalPolicy => NonEmptyText(v) || NonEmptyObject(v)
    case SandboxPolicy => NonEmptyText(v) || NonEmptyObject(v)
    case Foreign(_) => false
  }

  predicate AcceptsAll(values: map<Key, Json>) {
    forall key | key in values :: Accepts(key, values[key])
  }

  function TextOf(values: map<Key, Json>, key: Key): string {
    if key in values && values[key].Str? then values[key].text else ""
  }

  /** The options an accepted object names. */
  function OptionsOf(values: map<Key, Json>): CodexOptions
    requires AcceptsAll(values)
  {
    CodexOptions(
      TextOf(values, Model),
      if Env in values then Some(StringMapOf(values[Env])) else None,
      if ExtraPathDirs in values then Some(StringSliceOf(values[ExtraPathDirs])) else None,
      if OutputSchema in values then Some(values[OutputSchema].fields) else None,
      TextOf(values, Effort), TextOf(values, ServiceTier), TextOf(values, Personality),
      if ApprovalPolicy in values then Some(values[ApprovalPolicy]) else None,
      if SandboxPolicy in values then Some(values[SandboxPolicy]) else None)
  }

  /** One key of the parsing loop. */
  function With(o: CodexOptions, key: Key, v: Json): CodexOptions
    requires Accepts(key, v)
  {
    match key
    case Model => o.(model := v.text)
    case Effort => o.(effort := v.text)
    case ServiceTier => o.(serviceTier := v.text)
    case Personality => o.(personality := v.text)
    case Env => o.(env := Some(StringMapOf(v)))
    case ExtraPathDirs => o.(extraPathDirs := Some(StringSliceOf(v)))
    case OutputSchema => o.(outputSchema := Some(v.fields))
    case ApprovalPolicy => o.(approvalPolicy := Some(v))
    case SandboxPolicy => o.(sandboxPolicy := Some(v))
  }

  lemma WithIsOptionsOf(values: map<Key, Json>, key: Key, v: Json)
    requires AcceptsAll(values) && key !in values && Accepts(key, v)
    ensures AcceptsAll(values[key := v]) && OptionsOf(values[key := v]) == With(OptionsOf(values), key, v)
  {
  }

  function Parsed(w: Wire, values: map<Key, Json>): Result<CodexOptions, Refusal> {
    if !AcceptsAll(values) then Err(Unsupported)
    else if !w.validEnvironment(OptionsOf(values).env, OptionsOf(values).extraPathDirs) then Err(BadEnvironment)
    else Ok(OptionsOf(values))
  }

  /** The loop over the keys; their order does not matter. */
  method ReadOptions(values: map<Key, Json>) returns (r: Option<CodexOptions>)
    ensures r == if AcceptsAll(values) then Some(OptionsOf(values)) else None
  {
    var o := NoOptions;
    var rest := values;
    ghost var done: map<Key, Json> := map[];
    while |rest| > 0
      invariant done.Keys == values.Keys - rest.Keys && rest.Keys <= values.Keys
      invariant forall key | key in rest :: rest[key] == values[key]
      invariant forall key | key in done :: done[key] == values[key]
      invariant AcceptsAll(done) && o == OptionsOf(done)
      decreases |rest|
    {
      var key :| key in rest;
      if !Accepts(key, rest[key]) {
        return None;
      }
      WithIsOptionsOf(done, key, rest[key]);
      o := With(o, key, rest[key]);
      done := done[key := rest[key]];
      rest := rest - {key};
    }
    assert rest.Keys == {};
    assert done == values;
    return Some(o);
  }

  /** parseCodexOptions: the keys, then the environment they name. */
  method ParseCodexOptions(w: Wire, values: map<Key, Json>) returns (r: Result<CodexOptions, Refusal>)
    ensures r == Parsed(w, values)
  {
    var o := ReadOptions(values);
    if o.None? {
      return Err(Unsupported);
    }
    if !w.validEnvironment(o.value.env, o.value.extraPathDirs) {
      return Err(BadEnvironment);
    }
    return Ok(o.value);
  }

  /** `rawEvent`: an object whose one key is a boolean `enabled`. */
  predicate RawEventOk(v: Json) {
    v.Obj? && forall name | name in v.fields :: name == "enabled" && v.fields[name].Bool?
  }

  function RawEventOf(v: Json): bool
    requires RawEventOk(v)
  {
    "enabled" in v.fields && v.fields["enabled"].value
  }

  function ParsedMeta(w: Wire, meta: Meta): Result<SessionMeta, Refusal> {
    if meta.lifecycleKey then Err(LifecycleKey)
    else if meta.vendor.None? then Ok(NoMeta)
    else
      var vendor := meta.vendor.value;
      if vendor.NotANamespace? || vendor.others != {} then Err(Unsupported)
      else if vendor.rawEvent.Some? && !RawEventOk(vendor.rawEvent.value) then Err(Unsupported)
      else
        var parsed := NoMeta.(rawEvents := vendor.rawEvent.Some? && RawEventOf(vendor.rawEvent.value));
        if vendor.options.None? then Ok(parsed)
        else if vendor.options.value.NoObject? then Err(Unsupported)
        else
          var values := vendor.options.value.values;
          var options := Parsed(w, values);
          if options.Err? then Err(options.error)
          else Ok(parsed.(options := options.value, presentEnv := Env in values, presentExtraPathDirs := ExtraPathDirs in values))
  }

  method ParseSessionMeta(w: Wire, meta: Meta) returns (r: Result<SessionMeta, Refusal>)
    ensures r == ParsedMeta(w, meta)
  {
    if meta.lifecycleKey {
      return Err(LifecycleKey);
    }
    if meta.vendor.None? {
      return Ok(NoMeta);
    }
    var vendor := meta.vendor.value;
    if vendor.NotANamespace? {
      return Err(Unsupported);
    }
    if vendor.others != {} {
      return Err(Unsupported);
    }
    var parsed := NoMeta;
    if vendor.rawEvent.Some? {
      if !RawEventOk(vendor.rawEvent.value) {
        return Err(Unsupported);
      }
      parsed := parsed.(rawEvents := RawEventOf(vendor.rawEvent.value));
    }
    if vendor.options.None? {
      return Ok(parsed);
    }
    if vendor.options.value.NoObject? {
      return Err(Unsupported);
    }
    var values := vendor.options.value.values;
    var options := ParseCodexOptions(w, values);
    if options.Err? {
      return Err(options.error);
    }
    return Ok(parsed.(options := options.value, presentEnv := Env in values, presentExtraPathDirs := ExtraPathDirs in values));
  }

  // ---- the round trip ----

  /** Options a host may send: no empty schema, and policies that are non-empty. */
  predicate Sendable(w: Wire, o: CodexOptions) {
    && (o.outputSchema.Some? ==> o.outputSchema.value != map[])
    && (o.approvalPolicy.Some? ==> NonEmptyText(o.approvalPolicy.value) || NonEmptyObject(o.approvalPolicy.value))
    && (o.sandboxPolicy.Some? ==> NonEmptyText(o.sandboxPolicy.value) || NonEmptyObject(o.sandboxPolicy.value))
    && w.validEnvironment(o.env, o.extraPathDirs)
  }

  lemma EnvReads(env: map<string, string>)
    ensures StringMap(EnvJson(env)) && StringMapOf(EnvJson(env)) == env
  {
    assert EnvJson(env).fields.Keys == env.Keys;
  }

  lemma DirsRead(dirs: seq<string>)
    ensures StringSlice(DirsJson(dirs)) && StringSliceOf(DirsJson(dirs)) == dirs
  {
  }

  /** Each printed value is one the parser accepts, exactly for the schemas and policies a host
      may send. */
  lemma PrintedAccepted(o: CodexOptions, values: map<Key, Json>)
    requires Prints(o, values)
    ensures AcceptsAll(values) <==> Sendable(Wire((e, d) => true, (e, d) => true), o)
  {
    if o.env.Some? {
      EnvReads(o.env.value);
    }
    if o.extraPathDirs.Some? {
      DirsRead(o.extraPathDirs.value);
    }
    forall key | key in values ensures Printed(o, key) == Some(values[key]) {
      assert PrintsAt(o, values, key);
    }
    if AcceptsAll(values) {
      assert PrintsAt(o, values, OutputSchema);
      assert PrintsAt(o, values, ApprovalPolicy);
      assert PrintsAt(o, values, SandboxPolicy);
    }
  }

  lemma PrintedReadsBack(o: CodexOptions, values: map<Key, Json>)
    requires Prints(o, values) && AcceptsAll(values)
    ensures OptionsOf(values) == o
  {
    if o.env.Some? {
      EnvReads(o.env.value);
    }
    if o.extraPathDirs.Some? {
      DirsRead(o.extraPathDirs.value);
    }
    assert PrintsAt(o, values, Model);
    assert PrintsAt(o, values, Effort);
    assert PrintsAt(o, values, ServiceTier);
    assert PrintsAt(o, values, Personality);
    assert PrintsAt(o, values, Env);
    assert PrintsAt(o, values, ExtraPathDirs);
    assert PrintsAt(o, values, OutputSchema);
    assert PrintsAt(o, values, ApprovalPolicy);
    assert PrintsAt(o, values, SandboxPolicy);
  }

  /** Parsing printed options succeeds exactly for the options a host may send, and gives them
      back with the right presence flags. */
  lemma RoundTrip(w: Wire, o: CodexOptions, values: map<Key, Json>)
    requires Prints(o, values)
    ensures var r := ParsedMeta(w, Meta(false, Some(Namespace(None, Some(Object(values)), {}))));
            && (r.Ok? <==> Sendable(w, o))
            && (r.Ok? ==> r.value == SessionMeta(o, false, o.env.Some?, o.extraPathDirs.Some?))
  {
    PrintedAccepted(o, values);
    if AcceptsAll(values) {
      PrintedReadsBack(o, values);
    }
    assert PrintsAt(o, values, Env);
    assert PrintsAt(o, values, ExtraPathDirs);
  }

  // ---- what stands under each key ----

  predicate HoldsText(values: map<Key, Json>, key: Key, text: string) {
    if text == "" then key !in values else key in values && values[key] == Str(text)
  }

  predicate HoldsValue(values: map<Key, Json>, key: Key, v: Option<Json>) {
    if v.None? then key !in values else key in values && values[key] == v.value
  }

  /** A map is printed as an object of its texts, a list as an array of its texts. */
  predicate HoldsTexts(v: Json, env: map<string, string>) {
    v.Obj? && v.fields.Keys == env.Keys && forall name | name in env :: v.fields[name] == Str(env[name])
  }

  predicate HoldsList(v: Json, dirs: seq<string>) {
    v.Arr? && |v.items| == |dirs| && forall k | 0 <= k < |dirs| :: v.items[k] == Str(dirs[k])
  }

  /** The printed object: each option under its own key, the zero ones left out, no other key. */
  lemma PrintedStandsUnderItsKey(o: CodexOptions, values: map<Key, Json>)
    requires Prints(o, values)
    ensures HoldsText(values, Model, o.model) && HoldsText(values, Effort, o.effort)
    ensures HoldsText(values, ServiceTier, o.serviceTier) && HoldsText(values, Personality, o.personality)
    ensures HoldsValue(values, ApprovalPolicy, o.approvalPolicy) && HoldsValue(values, SandboxPolicy, o.sandboxPolicy)
    ensures (Env in values <==> o.env.Some?) && (o.env.Some? ==> HoldsTexts(values[Env], o.env.value))
    ensures (ExtraPathDirs in values <==> o.extraPathDirs.Some?)
    ensures o.extraPathDirs.Some? ==> HoldsList(values[ExtraPathDirs], o.extraPathDirs.value)
    ensures (OutputSchema in values <==> o.outputSchema.Some?)
    ensures o.outputSchema.Some? ==> values[OutputSchema] == Obj(o.outputSchema.value)
    ensures forall name :: Foreign(name) !in values
  {
    assert PrintsAt(o, values, Model) && PrintsAt(o, values, Effort) && PrintsAt(o, values, ServiceTier);
    assert PrintsAt(o, values, Personality) && PrintsAt(o, values, ApprovalPolicy) && PrintsAt(o, values, SandboxPolicy);
    assert PrintsAt(o, values, Env) && PrintsAt(o, values, ExtraPathDirs) && PrintsAt(o, values, OutputSchema);
    forall name ensures Foreign(name) !in values {
      assert PrintsAt(o, values, Foreign(name));
    }
  }

  /** What a value must be to be accepted under each key: a non-empty text, an object of texts, a
      list of texts, a non-empty object, or a policy; nothing under an unknown key. */
  lemma AcceptedForms(key: Key, v: Json)
    ensures key in {Model, Effort, ServiceTier, Personality} ==> (Accepts(key, v) <==> v.Str? && |v.text| > 0)
    ensures Accepts(Env, v) <==> v.Obj? && forall name | name in v.fields :: v.fields[name].Str?
    ensures Accepts(ExtraPathDirs, v) <==> v.Arr? && forall item | item in v.items :: item.Str?
    ensures Accepts(OutputSchema, v) <==> v.Obj? && |v.fields| > 0
    ensures key in {ApprovalPolicy, SandboxPolicy} ==>
              (Accepts(key, v) <==> (v.Str? && |v.text| > 0) || (v.Obj? && |v.fields| > 0))
    ensures key.Foreign? ==> !Accepts(key, v)
  {
    if v.Arr? && forall item | item in v.items :: item.Str? {
      forall k | 0 <= k < |v.items| ensures v.items[k].Str? {
        assert v.items[k] in v.items;
      }
    }
  }

  /** The options read from an accepted object: each from its own key, absent ones zero. */
  lemma ReadFromItsKey(values: map<Key, Json>)
    requires AcceptsAll(values)
    ensures var o := OptionsOf(values);
            && HoldsText(values, Model, o.model) && HoldsText(values, Effort, o.effort)
            && HoldsText(values, ServiceTier, o.serviceTier) && HoldsText(values, Personality, o.personality)
            && HoldsValue(values, ApprovalPolicy, o.approvalPolicy) && HoldsValue(values, SandboxPolicy, o.sandboxPolicy)
            && (Env in values <==> o.env.Some?) && (o.env.Some? ==> HoldsTexts(values[Env], o.env.value))
            && (ExtraPathDirs in values <==> o.extraPathDirs.Some?)
            && (o.extraPathDirs.Some? ==> HoldsList(values[ExtraPathDirs], o.extraPathDirs.value))
            && (OutputSchema in values <==> o.outputSchema.Some?)
            && (o.outputSchema.Some? ==> values[OutputSchema] == Obj(o.outputSchema.value))
  {
    assert forall key | key in values :: Accepts(key, values[key]);
  }

  /** Raw events are asked for by an object whose `enabled` is true; an empty object, or false, asks
      for none; any other value is refused. */
  lemma RawEventForms(v: Json)
    ensures RawEventOk(v) <==> v == Obj(map[]) || v == Obj(map["enabled" := Bool(true)]) || v == Obj(map["enabled" := Bool(false)])
    ensures RawEventOk(v) ==> (RawEventOf(v) <==> v == Obj(map["enabled" := Bool(true)]))
  {
    if RawEventOk(v) {
      if "enabled" in v.fields {
        assert v.fields.Keys == {"enabled"};
        assert v.fields == map["enabled" := v.fields["enabled"]];
      } else {
        assert v.fields.Keys == {};
        assert v.fields == map[];
      }
    }
  }

  /** What a request's meta is read as, and in which order it is refused: the lifecycle key, an
      unreadable or unknown part, the raw-event switch, the options and then their environment. */
  lemma MetaIsRead(w: Wire, meta: Meta)
    ensures meta.lifecycleKey ==> ParsedMeta(w, meta) == Err(LifecycleKey)
    ensures !meta.lifecycleKey && meta.vendor.None? ==> ParsedMeta(w, meta) == Ok(SessionMeta(NoOptions, false, false, false))
    ensures !meta.lifecycleKey && meta.vendor.Some? ==>
              var vendor := meta.vendor.value;
              var r := ParsedMeta(w, meta);
              if vendor.NotANamespace? || vendor.others != {} then r == Err(Unsupported)
              else if vendor.rawEvent.Some? && !RawEventOk(vendor.rawEvent.value) then r == Err(Unsupported)
              else if vendor.options == Some(NoObject) then r == Err(Unsupported)
              else if vendor.options.Some? && !AcceptsAll(vendor.options.value.values) then r == Err(Unsupported)
              else
                var o := if vendor.options.Some? then OptionsOf(vendor.options.value.values) else NoOptions;
                if vendor.options.Some? && !w.validEnvironment(o.env, o.extraPathDirs) then r == Err(BadEnvironment)
                else
                  && r.Ok? && r.value.options == o
                  && (r.value.rawEvents <==> vendor.rawEvent == Some(Obj(map["enabled" := Bool(true)])))
                  && (r.value.presentEnv <==> vendor.options.Some? && Env in vendor.options.value.values)
                  && (r.value.presentExtraPathDirs <==> vendor.options.Some? && ExtraPathDirs in vendor.options.value.values)
  {
    if meta.vendor.Some? && meta.vendor.value.Namespace? && meta.vendor.value.rawEvent.Some? {
      RawEventForms(meta.vendor.value.rawEvent.value);
    }
  }
}
