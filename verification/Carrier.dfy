/** What a restore inherits and when a live session already runs under what a request names
    (agent_session.go:543-602, session_store.go:54-81, 159-175). */
module Carrier {
  import opened JsonTrees
  import opened Wrappers
  import opened Options

  /** A session's stored configuration: where it runs, and its options. */
  datatype Record = Record(cwd: string, additionalDirectories: seq<string>, options: CodexOptions)

  /** A validated request; directories are None when the request leaves them out. */
  datatype Start = Start(cwd: string, additionalDirectories: Option<seq<string>>, meta: SessionMeta)

  function OrText(a: string, b: string): string {
    if a != "" then a else b
  }

  function OrValue<T>(a: Option<T>, b: Option<T>): Option<T> {
    if a.Some? then a else b
  }

  /** inheritCarrier: the record's value for every field the request left out. */
  function Inherit(meta: SessionMeta, stored: CodexOptions): CodexOptions {
    var o := meta.options;
    CodexOptions(
      OrText(o.model, stored.model),
      if meta.presentEnv then o.env else stored.env,
      if meta.presentExtraPathDirs then o.extraPathDirs else stored.extraPathDirs,
      OrValue(o.outputSchema, stored.outputSchema),
      OrText(o.effort, stored.effort),
      OrText(o.serviceTier, stored.serviceTier),
      OrText(o.personality, stored.personality),
      OrValue(o.approvalPolicy, stored.approvalPolicy),
      OrValue(o.sandboxPolicy, stored.sandboxPolicy))
  }

  /** Two sets of options print the same: what DeepEqual of their metas compares. */
  ghost predicate PrintAlike(a: CodexOptions, b: CodexOptions) {
    forall key :: Printed(a, key) == Printed(b, key)
  }

  /** sameCarrier, on the live session's record. */
  ghost predicate SameCarrier(live: Record, start: Start) {
    && live.cwd == start.cwd
    && (start.additionalDirectories.Some? ==> live.additionalDirectories == start.additionalDirectories.value)
    && PrintAlike(Inherit(NoMeta, live.options), Inherit(start.meta, live.options))
  }

  /** What a set of options is after it went through the store: empty maps and lists are not
      written, and read back as none (session_store.go:44-53). */
  function Stored(o: CodexOptions): CodexOptions {
    o.(env := if o.env == Some(map[]) then None else o.env,
       extraPathDirs := if o.extraPathDirs == Some([]) then None else o.extraPathDirs,
       outputSchema := if o.outputSchema == Some(map[]) then None else o.outputSchema)
  }

  /** bind: a session without a model takes the thread's, else the agent's default. */
  function Bound(r: Record, threadModel: string, defaultModel: string): Record {
    r.(options := r.options.(model := OrText(r.options.model, OrText(threadModel, defaultModel))))
  }

  /** The session a restore builds from a request and the stored record. */
  function Restored(start: Start, stored: Record): Record {
    Record(start.cwd,
           if start.additionalDirectories.Some? then start.additionalDirectories.value else stored.additionalDirectories,
           Inherit(start.meta, stored.options))
  }

  // ---- what a request names ----

  predicate NamesText(named: string, live: string) {
    named == "" || named == live
  }

  predicate NamesValue<T(==)>(named: Option<T>, live: Option<T>) {
    named.None? || named == live
  }

  /** Every field the request names is the live session's. */
  predicate NamesOnly(meta: SessionMeta, live: CodexOptions) {
    var o := meta.options;
    && NamesText(o.model, live.model) && NamesText(o.effort, live.effort)
    && NamesText(o.serviceTier, live.serviceTier) && NamesText(o.personality, live.personality)
    && (meta.presentEnv ==> o.env == live.env)
    && (meta.presentExtraPathDirs ==> o.extraPathDirs == live.extraPathDirs)
    && NamesValue(o.outputSchema, live.outputSchema)
    && NamesValue(o.approvalPolicy, live.approvalPolicy)
    && NamesValue(o.sandboxPolicy, live.sandboxPolicy)
  }

  lemma EnvPrintsOnce(a: map<string, string>, b: map<string, string>)
    requires EnvJson(a) == EnvJson(b)
    ensures a == b
  {
    EnvReads(a);
    EnvReads(b);
  }

  lemma DirsPrintOnce(a: seq<string>, b: seq<string>)
    requires DirsJson(a) == DirsJson(b)
    ensures a == b
  {
    DirsRead(a);
    DirsRead(b);
  }

  /** Different options print differently, so comparing prints compares options. */
  lemma PrintsDistinguish(a: CodexOptions, b: CodexOptions)
    ensures PrintAlike(a, b) <==> a == b
  {
    if PrintAlike(a, b) {
      assert Printed(a, Model) == Printed(b, Model) && Printed(a, Effort) == Printed(b, Effort);
      assert Printed(a, ServiceTier) == Printed(b, ServiceTier) && Printed(a, Personality) == Printed(b, Personality);
      assert Printed(a, ApprovalPolicy) == Printed(b, ApprovalPolicy) && Printed(a, SandboxPolicy) == Printed(b, SandboxPolicy);
      assert Printed(a, OutputSchema) == Printed(b, OutputSchema);
      assert Printed(a, Env) == Printed(b, Env) && Printed(a, ExtraPathDirs) == Printed(b, ExtraPathDirs);
      if a.env.Some? && b.env.Some? {
        EnvPrintsOnce(a.env.value, b.env.value);
      }
      if a.extraPathDirs.Some? && b.extraPathDirs.Some? {
        DirsPrintOnce(a.extraPathDirs.value, b.extraPathDirs.value);
      }
    }
  }

  // ---- what inheritance promises ----

  /** Inheriting from what was inherited changes nothing, for the same request and for one that
      names nothing. */
  lemma InheritTwice(meta: SessionMeta, stored: CodexOptions)
    ensures var once := Inherit(meta, stored);
            Inherit(meta, once) == once && Inherit(NoMeta, once) == once
  {
  }

  /** A request is judged the same carrier exactly when it names nothing the live session does
      not already run under. */
  lemma SameCarrierNames(live: Record, start: Start)
    ensures SameCarrier(live, start) <==>
              && live.cwd == start.cwd
              && NamesValue(start.additionalDirectories, Some(live.additionalDirectories))
              && NamesOnly(start.meta, live.options)
  {
    PrintsDistinguish(Inherit(NoMeta, live.options), Inherit(start.meta, live.options));
  }

  /** A restore: the thread's environment is built first, and a refusal leaves no session and
      writes no record (internal/codex/threadconfig.go:17-37). */
  function Restore(w: Wire, start: Start, stored: Record, threadModel: string, defaultModel: string): Option<Record> {
    var r := Restored(start, stored);
    if w.builds(r.options.env, r.options.extraPathDirs) then Some(Bound(r, threadModel, defaultModel)) else None
  }

  /** A session just restored for a request runs under what the request names, whatever the
      store held and whatever model the thread gave it. */
  lemma RestoredIsSameCarrier(w: Wire, start: Start, stored: Record, threadModel: string, defaultModel: string)
    requires Restore(w, start, stored, threadModel, defaultModel).Some?
    ensures SameCarrier(Restore(w, start, stored, threadModel, defaultModel).value, start)
  {
    SameCarrierNames(Restore(w, start, stored, threadModel, defaultModel).value, start);
  }

  /** What the store gives back does not change by being stored again. */
  lemma StoredOnce(o: CodexOptions)
    ensures Stored(Stored(o)) == Stored(o) && Inherit(NoMeta, Stored(o)) == Stored(o)
  {
  }

  /** The record a restore leaves passes the store's check exactly when its stored environment and
      path directories are acceptable together, and then reads back as its stored form. */
  lemma RestoredRecordReadsBack(w: Wire, start: Start, stored: Record, threadModel: string, defaultModel: string,
      values: map<Key, Json>)
    requires Sendable(w, stored.options) && Stored(stored.options) == stored.options && Sendable(w, start.meta.options)
    requires Restore(w, start, stored, threadModel, defaultModel).Some?
    requires Prints(Inherit(NoMeta, Stored(Restore(w, start, stored, threadModel, defaultModel).value.options)), values)
    ensures var r := ParsedMeta(w, Meta(false, Some(Namespace(None, Some(Object(values)), {}))));
            var left := Stored(Restore(w, start, stored, threadModel, defaultModel).value.options);
            && (r.Ok? <==> w.validEnvironment(left.env, left.extraPathDirs))
            && (r.Ok? ==> r.value.options == left)
  {
    StoredOnce(Restore(w, start, stored, threadModel, defaultModel).value.options);
    RoundTrip(w, Stored(Restore(w, start, stored, threadModel, defaultModel).value.options), values);
  }

  /** The library judges an environment and path directories each by itself. */
  ghost predicate JudgesApart(w: Wire) {
    forall env, dirs :: w.validEnvironment(env, dirs) <==> w.validEnvironment(env, None) && w.validEnvironment(None, dirs)
  }

  lemma SomeLibraryJudgesApart()
    ensures exists w :: JudgesApart(w)
  {
    assert JudgesApart(Wire((env, dirs) => true, (env, dirs) => true));
  }

  /** Then every record a restore leaves passes the check, whichever parts came from the request
      and whichever from the store. */
  lemma JudgedApartReadsBack(w: Wire, start: Start, stored: Record, threadModel: string, defaultModel: string,
      values: map<Key, Json>)
    requires JudgesApart(w)
    requires Sendable(w, stored.options) && Stored(stored.options) == stored.options && Sendable(w, start.meta.options)
    requires Restore(w, start, stored, threadModel, defaultModel).Some?
    requires Prints(Inherit(NoMeta, Stored(Restore(w, start, stored, threadModel, defaultModel).value.options)), values)
    ensures ParsedMeta(w, Meta(false, Some(Namespace(None, Some(Object(values)), {})))).Ok?
  {
    RestoredRecordReadsBack(w, start, stored, threadModel, defaultModel, values);
    var o := stored.options;
    assert w.validEnvironment(o.env, None) && w.validEnvironment(None, o.extraPathDirs) && w.validEnvironment(None, None);
    var m := start.meta.options;
    assert w.validEnvironment(m.env, None) && w.validEnvironment(None, m.extraPathDirs);
    var left := Stored(Restore(w, start, stored, threadModel, defaultModel).value.options);
    assert w.validEnvironment(left.env, None) && w.validEnvironment(None, left.extraPathDirs);
  }

  // ---- field by field ----

  /** A text is the request's when it names one, else the record's. */
  predicate TextFrom(named: string, stored: string, got: string) {
    (|named| > 0 ==> got == named) && (|named| == 0 ==> got == stored)
  }

  predicate ValueFrom<T(==)>(named: Option<T>, stored: Option<T>, got: Option<T>) {
    (named.Some? ==> got == named) && (named.None? ==> got == stored)
  }

  /** Each inherited field comes from the same field, of the request when the request names it and
      else of the record; an environment or directories count as named when their key is there. */
  lemma InheritedFields(meta: SessionMeta, stored: CodexOptions)
    ensures var o, named := Inherit(meta, stored), meta.options;
            && TextFrom(named.model, stored.model, o.model) && TextFrom(named.effort, stored.effort, o.effort)
            && TextFrom(named.serviceTier, stored.serviceTier, o.serviceTier)
            && TextFrom(named.personality, stored.personality, o.personality)
            && (meta.presentEnv ==> o.env == named.env) && (!meta.presentEnv ==> o.env == stored.env)
            && (meta.presentExtraPathDirs ==> o.extraPathDirs == named.extraPathDirs)
            && (!meta.presentExtraPathDirs ==> o.extraPathDirs == stored.extraPathDirs)
            && ValueFrom(named.outputSchema, stored.outputSchema, o.outputSchema)
            && ValueFrom(named.approvalPolicy, stored.approvalPolicy, o.approvalPolicy)
            && ValueFrom(named.sandboxPolicy, stored.sandboxPolicy, o.sandboxPolicy)
  {
  }

  /** A restored session runs in the request's directory, with the request's further directories
      when it gives any, else the record's. */
  lemma RestoredPlace(start: Start, stored: Record)
    ensures var r := Restored(start, stored);
            && r.cwd == start.cwd
            && (start.additionalDirectories.Some? ==> r.additionalDirectories == start.additionalDirectories.value)
            && (start.additionalDirectories.None? ==> r.additionalDirectories == stored.additionalDirectories)
            && r.options == Inherit(start.meta, stored.options)
  {
  }

  /** The store keeps every option but an empty environment, an empty list and an empty schema. */
  lemma StoredFields(o: CodexOptions)
    ensures var s := Stored(o);
            && s.model == o.model && s.effort == o.effort && s.serviceTier == o.serviceTier && s.personality == o.personality
            && s.approvalPolicy == o.approvalPolicy && s.sandboxPolicy == o.sandboxPolicy
            && (s.env.Some? <==> o.env.Some? && |o.env.value| > 0) && (s.env.Some? ==> s.env == o.env)
            && (s.extraPathDirs.Some? <==> o.extraPathDirs.Some? && |o.extraPathDirs.value| > 0)
            && (s.extraPathDirs.Some? ==> s.extraPathDirs == o.extraPathDirs)
            && (s.outputSchema.Some? <==> o.outputSchema.Some? && |o.outputSchema.value| > 0)
            && (s.outputSchema.Some? ==> s.outputSchema == o.outputSchema)
  {
  }

  /** Binding gives a session without a model the thread's, or else the agent's default, and
      changes nothing beside it. */
  lemma BoundModel(r: Record, threadModel: string, defaultModel: string)
    ensures var b := Bound(r, threadModel, defaultModel);
            && b.(options := r.options) == r && b.options.(model := r.options.model) == r.options
            && (|r.options.model| > 0 ==> b.options.model == r.options.model)
            && (|r.options.model| == 0 && |threadModel| > 0 ==> b.options.model == threadModel)
            && (|r.options.model| == 0 && |threadModel| == 0 ==> b.options.model == defaultModel)
  {
  }

  /** A restore leaves a record exactly when the thread's environment can be built. */
  lemma RestoreLeaves(w: Wire, start: Start, stored: Record, threadModel: string, defaultModel: string)
    ensures var r, o := Restore(w, start, stored, threadModel, defaultModel), Inherit(start.meta, stored.options);
            && (r.Some? <==> w.builds(o.env, o.extraPathDirs))
            && (r.Some? ==> r.value == Bound(Restored(start, stored), threadModel, defaultModel))
  {
  }
}
