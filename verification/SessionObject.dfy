/** The critical sections of session.go on the session's own fields. The object keeps the state of
    the Settlement machine beside its fields, and each method states the step it takes there. */
module SessionObject {
  import opened Wrappers
  import opened Settlement

  /** turn, with the cycle it embeds; `number` is its place among the machine's turns. */
  class TurnObject {
    ghost const number: nat
    var cancelled: bool
    var settling: bool
    var nativeTurnID: nat
    var failed: bool
    var accepted: bool
    var ended: End

    constructor (ghost number: nat)
      ensures this.number == number
      ensures !cancelled && !settling && nativeTurnID == 0 && !failed && !accepted && ended == Running
    {
      this.number := number;
      cancelled, settling, nativeTurnID, failed, accepted, ended := false, false, 0, false, false, Running;
    }

    ghost predicate Shows(t: Turn)
      reads this
    {
      && cancelled == t.cycle.cancelled && settling == t.cycle.settling
      && nativeTurnID == t.cycle.native && failed == t.cycle.failure
      && accepted == t.accepted && ended == t.ended
    }

    /** settle: the first end wins. */
    method Settle(end: End)
      modifies `ended
      ensures ended == if old(ended).Running? then end else old(ended)
    {
      if ended.Running? {
        ended := end;
      }
    }

    /** acceptTurn; `refused` is the host refusing the publication. */
    method Accept(refused: bool, ghost was: Turn)
      requires Shows(was)
      modifies this
      ensures Shows(Accepted(was, refused))
    {
      if accepted {
        return;
      }
      accepted := true;
      if refused {
        failed := true;
      }
    }

    /** handleEvent's acceptance for a record that bears work, and projectEvent's critical
        section, which a compaction does not reach. */
    method Take(record: Record, refused: bool, ghost was: Turn) returns (foreign: bool, isCancelled: bool)
      requires Shows(was)
      modifies this
      ensures Shows(Stamped(was, record, refused))
      ensures foreign == Foreign(Stamped(was, record, refused), record) && isCancelled == was.cycle.cancelled
    {
      if record.kind.Work? {
        Accept(refused, was);
      }
      if !record.kind.Compaction? && record.turn != 0 && nativeTurnID == 0 {
        nativeTurnID := record.turn;
      }
      foreign := nativeTurnID != 0 && record.turn != 0 && record.turn != nativeTurnID;
      isCancelled := cancelled;
    }

    /** The rest of projectEvent as far as the session keeps it: the failure a record carries, or
        the host's refusal of its update, and the settlement it reports. A cancelled cycle takes
        in only its end. */
    method Project(record: Record, foreign: bool, isCancelled: bool, refused: bool, ghost was: Turn, ghost w: nat)
        returns (settled: bool)
      requires Shows(was)
      modifies this
      ensures Shows(Projected(was, Projecting(number, record, foreign, isCancelled), w, refused))
      ensures settled == (!foreign && record.kind.Completed?)
    {
      if record.kind.Compaction? {
        if refused {
          failed := true;
        }
        return false;
      }
      if foreign {
        return false;
      }
      if !isCancelled && !record.kind.Completed? && (refused || record.kind.Failing?) {
        failed := true;
      }
      settled := record.kind.Completed?;
      if settled {
        Settle(Settled);
      }
    }
  }

  /** What an app-server says of a thread it started or resumed, and of a model it serves. */
  datatype Thread = Thread(path: string, model: string, reportsResponses: bool)
  datatype Model = Model(id: string, window: int)

  /** The window of the first model with the id, else none. */
  function WindowOf(models: seq<Model>, id: string): int {
    if models == [] then 0 else if models[0].id == id then models[0].window else WindowOf(models[1..], id)
  }

  method CatalogContextWindow(models: seq<Model>, id: string) returns (window: int)
    ensures window == WindowOf(models, id)
    ensures (forall k | 0 <= k < |models| :: models[k].id != id) ==> window == 0
  {
    for k := 0 to |models|
      invariant WindowOf(models, id) == WindowOf(models[k..], id)
      invariant forall j | 0 <= j < k :: models[j].id != id
    {
      if models[k].id == id {
        return models[k].window;
      }
      assert models[k..][1..] == models[k + 1..];
    }
    return 0;
  }

  class SessionObject {
    var turn: TurnObject?
    var runtime: Option<nat>
    var generationLost: bool
    var closing: bool
    var lastTerminalTurn: nat
    var dialogs: map<nat, nat>
    var told: set<nat>
    var callbacks: int
    var nextEntry: nat
    var boundOn: Option<nat>
    var rolloutPath: string
    var responseUsage: bool
    var modelName: string
    var contextWindow: int
    ghost var model: State

    ghost predicate Bound()
      reads this
    {
      && runtime == model.session.bound && generationLost == model.session.lost
      && closing == model.session.closing && lastTerminalTurn == model.session.lastTerminal
    }

    ghost predicate Counts()
      reads this
    {
      && dialogs == model.calls.mapped && told == model.calls.told
      && callbacks == model.calls.callbacks && nextEntry == model.calls.next
    }

    ghost predicate Valid()
      reads this, turn
    {
      && Bound() && Counts()
      && (turn == null <==> model.session.current.None?)
      && (turn != null ==>
            && model.session.current == Some(turn.number) && turn.number < |model.turns|
            && turn.Shows(model.turns[turn.number]))
    }

    constructor ()
      ensures Valid() && model == Initial
    {
      turn, runtime, generationLost, closing, lastTerminalTurn := null, None, false, false, 0;
      dialogs, told, callbacks, nextEntry := map[], {}, 0, 0;
      boundOn, rolloutPath, responseUsage, modelName, contextWindow := None, "", false, "", 0;
      model := Initial;
    }

    /** Tells every dialog the map holds. */
    method CancelDialogs()
      modifies `told
      ensures told == old(told) + dialogs.Values
    {
      var rest := dialogs;
      while |rest| > 0
        invariant forall id | id in rest :: id in dialogs && rest[id] == dialogs[id]
        invariant forall id | id in dialogs && id !in rest :: dialogs[id] in told
        invariant old(told) <= told <= old(told) + dialogs.Values
        decreases |rest|
      {
        var id :| id in rest;
        assert dialogs[id] in dialogs.Values;
        told := told + {rest[id]};
        rest := rest - {id};
      }
      assert rest == map[];
      forall entry | entry in dialogs.Values ensures entry in told {
        var id :| id in dialogs && dialogs[id] == entry;
      }
    }

    /** bind, for a prompt that rebinds the session; `opens` says its stream opens. The session
        takes the thread's path and reporting, keeps a model it has, and looks its window up. */
    method Bind(gen: nat, thread: Thread, models: seq<Model>, defaultModel: string, ghost opens: bool)
      requires Valid() && PromptCan(model, if opens then Rebind(gen) else BindOnly(gen))
      modifies this
      ensures Valid() && model == PromptDoes(old(model), if opens then Rebind(gen) else BindOnly(gen)) && turn == old(turn)
      ensures boundOn == Some(gen) && rolloutPath == thread.path && responseUsage == thread.reportsResponses
      ensures modelName == (if old(modelName) != "" then old(modelName) else if thread.model != "" then thread.model else defaultModel)
      ensures contextWindow == WindowOf(models, modelName)
    {
      runtime, boundOn, generationLost := Some(gen), Some(gen), false;
      model := PromptDoes(model, if opens then Rebind(gen) else BindOnly(gen));
      TakeThread(thread, models, defaultModel);
    }

    method TakeThread(thread: Thread, models: seq<Model>, defaultModel: string)
      modifies `rolloutPath, `responseUsage, `modelName, `contextWindow
      ensures rolloutPath == thread.path && responseUsage == thread.reportsResponses
      ensures modelName == (if old(modelName) != "" then old(modelName) else if thread.model != "" then thread.model else defaultModel)
      ensures contextWindow == WindowOf(models, modelName)
    {
      rolloutPath, responseUsage := thread.path, thread.reportsResponses;
      if modelName == "" {
        modelName := thread.model;
      }
      if modelName == "" {
        modelName := defaultModel;
      }
      contextWindow := CatalogContextWindow(models, modelName);
    }

    /** The prompt installs its turn. */
    method Install() returns (t: TurnObject)
      requires Valid() && PromptCan(model, PromptMove.Install) && turn == null
      modifies this
      ensures Valid() && model == PromptDoes(old(model), PromptMove.Install) && turn == t && fresh(t)
    {
      t := new TurnObject(|model.turns|);
      turn := t;
      model := PromptDoes(model, PromptMove.Install);
    }

    /** handleEvent's first critical section: the turn a record counts for, if any. */
    method Attribute(gen: nat, record: Record, ghost w: nat) returns (t: TurnObject?)
      requires Valid() && WorkerCan(model, w, Read(record)) && model.workers[w].gen == gen
      modifies `model
      ensures Valid() && model == WorkerDoes(old(model), w, Read(record))
      ensures t == null <==> Attributed(old(model), gen, record).None?
      ensures t != null ==> t == turn && model.workers[w].at == Holding(t.number, record)
    {
      ghost var before := model;
      t := turn;
      if runtime != Some(gen) || (record.turn != 0 && record.turn == lastTerminalTurn) {
        t := null;
      }
      model := WorkerDoes(before, w, Read(record));
    }

    /** The worker's turn may have been removed meanwhile; then it is not the session's. */
    ghost predicate Tracks(t: TurnObject)
      reads this, turn, t
    {
      t.number < |model.turns| && t.Shows(model.turns[t.number]) && (turn == t || turn == null || turn.number != t.number)
    }

    /** The record is taken by the turn it was attributed to. */
    method Stamp(t: TurnObject, record: Record, refused: bool, ghost w: nat) returns (foreign: bool, cancelled: bool)
      requires Valid() && Tracks(t)
      requires WorkerCan(model, w, WorkerMove.Stamp(refused)) && model.workers[w].at == Holding(t.number, record)
      modifies `model, t
      ensures Valid() && Tracks(t) && model == WorkerDoes(old(model), w, WorkerMove.Stamp(refused))
      ensures model.workers[w].at == Projecting(t.number, record, foreign, cancelled)
    {
      ghost var before := model;
      foreign, cancelled := t.Take(record, refused, before.turns[t.number]);
      model := WorkerDoes(before, w, WorkerMove.Stamp(refused));
    }

    /** The record is projected; a worker that settled its turn waits for the prompt. */
    method Project(t: TurnObject, record: Record, foreign: bool, cancelled: bool, refused: bool, ghost w: nat)
        returns (settled: bool)
      requires Valid() && Tracks(t) && WorkerCan(model, w, WorkerMove.Project(refused))
      requires model.workers[w].at == Projecting(t.number, record, foreign, cancelled)
      modifies `model, t
      ensures Valid() && Tracks(t) && model == WorkerDoes(old(model), w, WorkerMove.Project(refused))
      ensures settled <==> model.workers[w].at == Parked(t.number)
    {
      ghost var before := model;
      settled := t.Project(record, foreign, cancelled, refused, before.turns[t.number], w);
      model := WorkerDoes(before, w, WorkerMove.Project(refused));
    }

    /** cancel; `interrupts` says a native interrupt is started. */
    method Cancel() returns (interrupts: bool)
      requires Valid()
      modifies this, turn
      ensures Valid() && model == CancelCurrent(old(model)) && turn == old(turn)
      ensures interrupts <==> callbacks == old(callbacks) + 1
    {
      interrupts := false;
      ghost var before := model;
      if turn == null {
        return;
      }
      if turn.cancelled {
        return;
      }
      turn.cancelled := true;
      interrupts := !turn.settling && runtime.Some? && !closing && !generationLost;
      if interrupts {
        callbacks := callbacks + 1;
      }
      CancelDialogs();
      model := CancelCurrent(before);
    }

    /** beginSettlement, up to its wait. */
    method BeginSettlement(t: TurnObject)
      requires Valid() && turn == t && PromptCan(model, PromptMove.BeginSettlement) && model.prompt.turn == t.number
      modifies this, t
      ensures Valid() && model == PromptDoes(old(model), PromptMove.BeginSettlement) && turn == t
    {
      ghost var before := model;
      t.settling := true;
      CancelDialogs();
      model := PromptDoes(before, PromptMove.BeginSettlement);
    }

    /** claimCancellation: the verdict's last look at the mark. */
    method ClaimCancellation(t: TurnObject) returns (claimed: bool)
      requires Valid() && turn == t && PromptCan(model, Claim) && model.prompt.turn == t.number
      modifies `model
      ensures Valid() && model == PromptDoes(old(model), Claim)
      ensures model.prompt.Publishing? && claimed == model.prompt.claimed
    {
      claimed := t.cancelled;
      model := PromptDoes(model, Claim);
    }

    /** registerDialog: the new entry, unless the dialog is refused. */
    method RegisterDialog(id: nat) returns (entry: Option<nat>)
      requires Valid()
      modifies this
      ensures Valid() && model == OtherDoes(old(model), OpenDialog(id)) && turn == old(turn)
      ensures entry == if RefusesDialog(old(model)) then None else Some(old(nextEntry))
    {
      ghost var before := model;
      if closing || runtime.None? || generationLost || (turn != null && (turn.cancelled || turn.settling)) {
        return None;
      }
      callbacks := callbacks + 1;
      dialogs := dialogs[id := nextEntry];
      entry := Some(nextEntry);
      nextEntry := nextEntry + 1;
      model := OtherDoes(before, OpenDialog(id));
    }

    /** The unregister function of an entry registered under an id; a later dialog under the same
        id keeps its place in the map. */
    method Unregister(id: nat, entry: nat)
      requires Valid() && entry in model.calls.open
      requires forall other | other in dialogs && dialogs[other] == entry :: other == id
      modifies this
      ensures Valid() && turn == old(turn)
      ensures model.calls.open == old(model.calls.open) - {entry} && callbacks == old(callbacks) - 1
      ensures dialogs == if id in old(dialogs) && old(dialogs)[id] == entry then old(dialogs) - {id} else old(dialogs)
    {
      if id in dialogs && dialogs[id] == entry {
        dialogs := dialogs - {id};
        model := OtherDoes(model, UnmapDialog(id));
      }
      callbacks := callbacks - 1;
      model := OtherDoes(model, DialogEnds(entry));
    }

    /** runtimeEnded's first critical section, and its cancelDialogs: the turn it will settle. */
    method RuntimeEnds(gen: nat, ghost e: nat) returns (ours: bool, t: TurnObject?)
      requires Valid() && EndCan(model, e, EndCheck) && model.enders[e].gen == gen
      modifies this
      ensures Valid() && model == EndDoes(old(model), e, EndCheck) && turn == old(turn)
      ensures ours == (old(runtime) == Some(gen)) && (ours ==> t == turn)
    {
      ghost var before := model;
      t := null;
      ours := runtime == Some(gen);
      if ours {
        generationLost := true;
        t := turn;
        CancelDialogs();
      }
      model := EndDoes(before, e, EndCheck);
    }

    /** contain's first critical section, and its cancelDialogs. */
    method ContainBegins(gen: nat, ghost c: nat) returns (ours: bool, t: TurnObject?)
      requires Valid() && ContainCan(model, c, Check) && model.containers[c].gen == gen
      modifies this
      ensures Valid() && model == ContainDoes(old(model), c, Check) && turn == old(turn)
      ensures ours == (old(runtime) == Some(gen)) && (ours ==> t == turn)
    {
      ghost var before := model;
      t := null;
      ours := runtime == Some(gen);
      if ours {
        generationLost := true;
        t := turn;
        CancelDialogs();
      }
      model := ContainDoes(before, c, Check);
    }

    /** close's first critical section, and its cancelDialogs. */
    method MarkClosing()
      requires Valid() && !closing
      modifies this, turn
      ensures Valid() && model == OtherDoes(old(model), CloseMarks) && turn == old(turn)
    {
      ghost var before := model;
      closing := true;
      if turn != null {
        turn.cancelled := true;
      }
      CancelDialogs();
      model := OtherDoes(before, CloseMarks);
    }

    /** The prompt removes its turn and remembers the native turn it terminalized. */
    method Remove(t: TurnObject)
      requires Valid() && turn == t && PromptCan(model, PromptMove.Remove) && model.prompt.turn == t.number
      modifies this
      ensures Valid() && model == PromptDoes(old(model), PromptMove.Remove) && turn == null
    {
      turn := null;
      if t.nativeTurnID != 0 {
        lastTerminalTurn := t.nativeTurnID;
      }
      model := PromptDoes(model, PromptMove.Remove);
    }
  }
}
