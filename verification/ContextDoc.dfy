/** The commit gate: `build` and `_generation_gate` in server/brain/context_doc_builder.py. */
module ContextDoc {
  import opened Wrappers
  import opened IntentSession
  import ClockText

  datatype Slot =
    | PartySize | ReservationDate | ReservationTime | CustomerName | PhoneNumber | OrderItems | OtherKey(text: string)

  /** A slot or entity value: null, text, or something else with its truth value. */
  datatype Val = Null | Text(text: string) | Other(truthy: bool)

  type Slots = map<Slot, Val>

  datatype Tool = CreateReservation | ModifyReservationTool | CreateOrder | SendSms | TransferToHuman

  datatype Action = Say | Clarify | Commit | EndCall

  datatype WorkerOutput = WorkerOutput(success: bool, data: Slots)

  /** Worker outputs in dictionary order. */
  datatype ExecutionResult = ExecutionResult(
    required: seq<(string, WorkerOutput)>, requiredFailed: seq<string>, optional: seq<(string, WorkerOutput)>)

  const TOOLS: seq<Tool> := [CreateReservation, ModifyReservationTool, CreateOrder, SendSms, TransferToHuman]

  function RequiredSlots(t: Tool): seq<Slot> {
    match t
    case CreateReservation => [PartySize, ReservationDate, ReservationTime, CustomerName, PhoneNumber]
    case ModifyReservationTool => [PartySize, ReservationDate, ReservationTime, CustomerName, PhoneNumber]
    case CreateOrder => [OrderItems, CustomerName, PhoneNumber]
    case SendSms => [PhoneNumber]
    case TransferToHuman => []
  }

  /** The entities copied into the state before slots are checked. */
  const SYNCED: seq<Slot> := [ReservationTime, ReservationDate, PartySize, CustomerName, PhoneNumber]

  /** Present, not null, and not blank text. */
  predicate Filled(slots: Slots, s: Slot) {
    s in slots && match slots[s]
      case Null => false
      case Text(t) => ClockText.Strip(t) != ""
      case Other(_) => true
  }

  function Unfilled(slots: Slots, required: seq<Slot>): seq<Slot> {
    if required == [] then []
    else (if Filled(slots, required[0]) then [] else [required[0]]) + Unfilled(slots, required[1..])
  }

  function Without(required: seq<Slot>, s: Slot): seq<Slot> {
    if required == [] then [] else (if required[0] == s then [] else [required[0]]) + Without(required[1..], s)
  }

  // ----- What build computes -----

  function NonNull(data: Slots): Slots {
    map k | k in data && data[k] != Null :: data[k]
  }

  /** Later successful workers override earlier ones; nulls never do. */
  function Resolved(outputs: seq<(string, WorkerOutput)>): Slots {
    if outputs == [] then map[]
    else
      var o := outputs[|outputs| - 1].1;
      Resolved(outputs[..|outputs| - 1]) + if o.success then NonNull(o.data) else map[]
  }

  function Names(outputs: seq<(string, WorkerOutput)>): seq<string> {
    if outputs == [] then [] else Names(outputs[..|outputs| - 1]) + [outputs[|outputs| - 1].0]
  }

  function Failed(outputs: seq<(string, WorkerOutput)>): seq<(string, WorkerOutput)> {
    if outputs == [] then []
    else
      var last := outputs[|outputs| - 1];
      Failed(outputs[..|outputs| - 1]) + if last.1.success then [] else [last]
  }

  function Synced(slots: Slots, entities: Slots): Slots {
    SyncedOn(slots, entities, Elements(SYNCED))
  }

  function SyncedOn(slots: Slots, entities: Slots, keys: set<Slot>): Slots {
    slots + map k | k in keys && k in entities && !Filled(slots, k) :: entities[k]
  }

  function Elements(keys: seq<Slot>): set<Slot> {
    set k | k in keys
  }

  predicate IsReservation(k: IntentKind) {
    k == Reservation || k == ModifyReservation
  }

  predicate IsOrder(k: IntentKind) {
    k == Takeaway || k == Delivery
  }

  predicate HasReservationCore(slots: Slots) {
    Filled(slots, ReservationDate) && Filled(slots, ReservationTime) && Filled(slots, PartySize)
  }

  function MissingSlots(k: IntentKind, slots: Slots): seq<Slot> {
    if IsReservation(k) then Without(Unfilled(slots, RequiredSlots(CreateReservation)), PhoneNumber)
    else if IsOrder(k) || k == BulkOrder then Unfilled(slots, Without(RequiredSlots(CreateOrder), PhoneNumber))
    else if k == Unknown && HasReservationCore(slots) then Unfilled(slots, RequiredSlots(CreateReservation))
    else if k == Unknown && Filled(slots, OrderItems) then Unfilled(slots, RequiredSlots(CreateOrder))
    else []
  }

  function ToolFor(k: IntentKind, slots: Slots): Option<Tool> {
    if IsReservation(k) then Some(CreateReservation)
    else if IsOrder(k) then Some(CreateOrder)
    else if k == Unknown && HasReservationCore(slots) then Some(CreateReservation)
    else if k == Unknown && Filled(slots, OrderItems) then Some(CreateOrder)
    else None
  }

  predicate Closing(t: TurnType) {
    t == Finalize || t == Confirm
  }

  /** The outcome: what to do, with which tool, which slots to ask for, and what is missing. */
  datatype Decision = Decision(action: Action, tool: Option<Tool>, asks: seq<Slot>, missing: seq<Slot>)

  function Select(k: IntentKind, t: TurnType, slots: Slots, goodbye: bool): Decision {
    var missing := MissingSlots(k, slots);
    if Closing(t) && missing == [] then Decision(Commit, ToolFor(k, slots), [], missing)
    else if missing != [] then Decision(Clarify, None, [missing[0]], missing)
    else Decision(if goodbye then EndCall else Say, None, [], missing)
  }

  /** The slots whose absence blocks a commit or goodbye under an intent. */
  function GuardedSlots(k: IntentKind): seq<Slot> {
    if IsReservation(k) then RequiredSlots(CreateReservation)
    else if IsOrder(k) then RequiredSlots(CreateOrder)
    else []
  }

  function Guard(k: IntentKind, slots: Slots, d: Decision): Decision {
    var missing := Unfilled(slots, GuardedSlots(k));
    if (d.action == Commit || d.action == EndCall) && missing != []
    then d.(action := Clarify, asks := d.asks + [missing[0]])
    else d
  }

  /** The generation gate: nothing leaves it as a commit with a slot missing. Its last test, for missing
      slots of the tool itself, cannot fire after this one. */
  function Gate(d: Decision, schemaValid: bool): Decision {
    if !schemaValid then d.(action := Clarify)
    else if d.action == Commit && d.missing != [] then d.(action := Clarify, tool := None)
    else d
  }

  function Decide(k: IntentKind, t: TurnType, slots: Slots, goodbye: bool): Decision {
    Gate(Guard(k, slots, Select(k, t, slots, goodbye)), true)
  }

  function GoodbyeDetected(outputs: seq<(string, WorkerOutput)>): bool {
    if outputs == [] then false
    else if outputs[0].0 == "goodbye_detector" then outputs[0].1.success && SaysGoodbye(outputs[0].1.data)
    else GoodbyeDetected(outputs[1..])
  }

  predicate SaysGoodbye(data: Slots) {
    OtherKey("is_goodbye") in data && match data[OtherKey("is_goodbye")]
      case Null => false
      case Text(t) => t != ""
      case Other(b) => b
  }

  // ----- The builder -----

  /** The caller's snapshot of the conversation state; a dictionary that build may write to. */
  class StateSnapshot {
    var slots: Slots

    constructor ()
      ensures slots == map[]
    {
      slots := map[];
    }
  }

  class ContextDocument {
    const intent: IntentKind
    const turnType: TurnType
    var resolvedEntities: Slots
    var stateDelta: Slots
    var missingSlots: seq<Slot>
    var nextAction: Action
    var commitTool: Option<Tool>
    /** The slots named in "ask for" constraints. */
    var mustInclude: seq<Slot>
    var workersRun: seq<string>
    var workersTimedOut: seq<string>
    var workersFailed: seq<string>
    var schemaValid: bool
    var generationAllowed: bool

    function Outcome(): Decision
      reads this
    {
      Decision(nextAction, commitTool, mustInclude, missingSlots)
    }

    constructor (intent: IntentKind, turnType: TurnType)
      ensures this.intent == intent && this.turnType == turnType
      ensures Outcome() == Decision(Say, None, [], [])
      ensures resolvedEntities == map[] && stateDelta == map[] && schemaValid && generationAllowed
      ensures workersRun == [] && workersTimedOut == [] && workersFailed == []
    {
      this.intent, this.turnType := intent, turnType;
      resolvedEntities, stateDelta, missingSlots, mustInclude := map[], map[], [], [];
      nextAction, commitTool, schemaValid, generationAllowed := Say, None, true, true;
      workersRun, workersTimedOut, workersFailed := [], [], [];
    }
  }

  /** Builds the document. Returns it together with the state it was judged by, which is the caller's own
      dictionary unless that was missing or empty. */
  method Build(intent: IntentKind, turnType: TurnType, exec: ExecutionResult, currentState: StateSnapshot?)
    returns (ctx: ContextDocument, state: StateSnapshot)
    modifies currentState
    ensures fresh(ctx) && ctx.intent == intent && ctx.turnType == turnType
    ensures var initial := if currentState == null then map[] else old(currentState.slots);
            var entities := Resolved(exec.required + exec.optional);
            && ctx.resolvedEntities == entities && ctx.stateDelta == entities
            && state.slots == Synced(initial, entities)
            && ctx.Outcome() == Decide(intent, turnType, state.slots, GoodbyeDetected(exec.required))
            && (if initial == map[] then fresh(state) else state == currentState)
            && ctx.generationAllowed
    ensures ctx.workersRun == Names(exec.required) + Names(exec.optional)
    ensures ctx.workersFailed == Names(Failed(exec.required)) + exec.requiredFailed
    ensures ctx.workersTimedOut == exec.requiredFailed
    ensures currentState != null && old(currentState.slots) == map[] ==> currentState.slots == map[]
  {
    hide Synced, Decide, GoodbyeDetected, Resolved, Names, Failed, Filled, NonNull;
    ctx := new ContextDocument(intent, turnType);
    if currentState == null || currentState.slots == map[] {
      state := new StateSnapshot();
    } else {
      state := currentState;
    }
    CollectOutputs(ctx, exec);
    SyncSlots(ctx, state);
    ResolvedHasNoNulls(exec.required + exec.optional);
    Assess(ctx, state.slots, GoodbyeDetected(exec.required));
  }

  /** The second half of build: everything that is decided once the state is in sync. */
  method Assess(ctx: ContextDocument, slots: Slots, goodbye: bool)
    requires ctx.Outcome() == Decision(Say, None, [], [])
    modifies ctx`missingSlots, ctx`stateDelta, ctx`nextAction, ctx`commitTool, ctx`mustInclude, ctx`schemaValid
    modifies ctx`generationAllowed
    ensures ctx.Outcome() == Decide(ctx.intent, ctx.turnType, slots, goodbye)
    ensures ctx.stateDelta == NonNull(ctx.resolvedEntities) && ctx.generationAllowed
  {
    hide Select, Guard, Gate, MissingSlots, Filled, NonNull;
    FindMissing(ctx, slots);
    ctx.stateDelta := NonNull(ctx.resolvedEntities);
    SelectAction(ctx, slots, goodbye);
    GuardCommit(ctx, slots);
    ctx.schemaValid := true;
    ctx.generationAllowed := GenerationGate(ctx);
  }

  method CollectOutputs(ctx: ContextDocument, exec: ExecutionResult)
    requires ctx.resolvedEntities == map[]
    modifies ctx`resolvedEntities, ctx`workersRun, ctx`workersFailed, ctx`workersTimedOut
    ensures ctx.resolvedEntities == Resolved(exec.required + exec.optional)
    ensures ctx.workersRun == old(ctx.workersRun) + Names(exec.required) + Names(exec.optional)
    ensures ctx.workersFailed == old(ctx.workersFailed) + Names(Failed(exec.required)) + exec.requiredFailed
    ensures ctx.workersTimedOut == old(ctx.workersTimedOut) + exec.requiredFailed
  {
    CollectRequired(ctx, exec.required);
    CollectOptional(ctx, exec.required, exec.optional);
    ctx.workersFailed := ctx.workersFailed + exec.requiredFailed;
    ctx.workersTimedOut := ctx.workersTimedOut + exec.requiredFailed;
  }

  method CollectRequired(ctx: ContextDocument, outputs: seq<(string, WorkerOutput)>)
    requires ctx.resolvedEntities == map[]
    modifies ctx`resolvedEntities, ctx`workersRun, ctx`workersFailed
    ensures ctx.resolvedEntities == Resolved(outputs)
    ensures ctx.workersRun == old(ctx.workersRun) + Names(outputs)
    ensures ctx.workersFailed == old(ctx.workersFailed) + Names(Failed(outputs))
  {
    hide Resolved, Names, Failed, NonNull;
    ResolvedSteps([]);
    for i := 0 to |outputs|
      invariant ctx.resolvedEntities == Resolved(outputs[..i])
      invariant ctx.workersRun == old(ctx.workersRun) + Names(outputs[..i])
      invariant ctx.workersFailed == old(ctx.workersFailed) + Names(Failed(outputs[..i]))
    {
      assert outputs[..i + 1][..i] == outputs[..i];
      ResolvedSteps(outputs[..i + 1]);
      FailedSteps(outputs[..i + 1]);
      var (name, output) := outputs[i];
      ctx.workersRun := ctx.workersRun + [name];
      if !output.success {
        ctx.workersFailed := ctx.workersFailed + [name];
      } else {
        MergeWorkerOutput(ctx, output);
      }
    }
    assert outputs[..|outputs|] == outputs;
  }

  /** Failed optional workers are not reported. */
  method CollectOptional(ctx: ContextDocument, ghost earlier: seq<(string, WorkerOutput)>,
                         outputs: seq<(string, WorkerOutput)>)
    requires ctx.resolvedEntities == Resolved(earlier)
    modifies ctx`resolvedEntities, ctx`workersRun
    ensures ctx.resolvedEntities == Resolved(earlier + outputs)
    ensures ctx.workersRun == old(ctx.workersRun) + Names(outputs)
  {
    hide Resolved, Names, NonNull;
    ResolvedSteps([]);
    assert earlier + outputs[..0] == earlier;
    for i := 0 to |outputs|
      invariant ctx.resolvedEntities == Resolved(earlier + outputs[..i])
      invariant ctx.workersRun == old(ctx.workersRun) + Names(outputs[..i])
    {
      assert outputs[..i + 1][..i] == outputs[..i];
      assert (earlier + outputs[..i + 1])[..|earlier| + i] == earlier + outputs[..i];
      ResolvedSteps(earlier + outputs[..i + 1]);
      ResolvedSteps(outputs[..i + 1]);
      var (name, output) := outputs[i];
      ctx.workersRun := ctx.workersRun + [name];
      if output.success {
        MergeWorkerOutput(ctx, output);
      }
    }
    assert outputs[..|outputs|] == outputs;
  }

  lemma ResolvedSteps(outputs: seq<(string, WorkerOutput)>)
    ensures outputs == [] ==> Resolved(outputs) == map[] && Names(outputs) == [] && Failed(outputs) == []
    ensures outputs != [] ==>
              var (before, last) := (outputs[..|outputs| - 1], outputs[|outputs| - 1]);
              && Resolved(outputs) ==
                   (if last.1.success then Resolved(before) + NonNull(last.1.data) else Resolved(before))
              && Names(outputs) == Names(before) + [last.0]
  {
    hide NonNull, Failed;
    assert Failed([]) == [] && Names([]) == [] by {
      FailedSteps([]);
    }
    if outputs != [] {
      assert Resolved(outputs[..|outputs| - 1]) + map[] == Resolved(outputs[..|outputs| - 1]);
    }
  }

  lemma FailedSteps(outputs: seq<(string, WorkerOutput)>)
    ensures outputs == [] ==> Failed(outputs) == []
    ensures outputs != [] ==>
              var (before, last) := (outputs[..|outputs| - 1], outputs[|outputs| - 1]);
              Names(Failed(outputs)) ==
                if last.1.success then Names(Failed(before)) else Names(Failed(before)) + [last.0]
  {
    if outputs != [] {
      var before, last := outputs[..|outputs| - 1], outputs[|outputs| - 1];
      if last.1.success {
        assert Failed(outputs) == Failed(before);
      } else {
        assert Failed(outputs) == Failed(before) + [last];
        assert Failed(outputs)[..|Failed(outputs)| - 1] == Failed(before);
      }
    }
  }

  method MergeWorkerOutput(ctx: ContextDocument, output: WorkerOutput)
    modifies ctx`resolvedEntities
    ensures ctx.resolvedEntities == old(ctx.resolvedEntities) + NonNull(output.data)
  {
    ghost var before := ctx.resolvedEntities;
    var todo := output.data.Keys;
    while todo != {}
      invariant todo <= output.data.Keys
      invariant ctx.resolvedEntities ==
                before + map k | k in output.data.Keys - todo && output.data[k] != Null :: output.data[k]
    {
      var k :| k in todo;
      if output.data[k] != Null {
        ctx.resolvedEntities := ctx.resolvedEntities[k := output.data[k]];
      }
      todo := todo - {k};
    }
  }

  lemma {:induction false} ResolvedHasNoNulls(outputs: seq<(string, WorkerOutput)>)
    ensures NonNull(Resolved(outputs)) == Resolved(outputs)
  {
    if outputs != [] {
      ResolvedHasNoNulls(outputs[..|outputs| - 1]);
    }
  }

  /** Copies what workers found into slots that are not filled. */
  method SyncSlots(ctx: ContextDocument, state: StateSnapshot)
    modifies state
    ensures state.slots == Synced(old(state.slots), ctx.resolvedEntities)
  {
    hide Filled, SyncedOn;
    ghost var was := state.slots;
    NothingSynced(was, ctx.resolvedEntities);
    for i := 0 to |SYNCED|
      invariant state.slots == SyncedOn(was, ctx.resolvedEntities, Elements(SYNCED[..i]))
    {
      var key := SYNCED[i];
      SyncedKeysAreDistinct(i);
      SyncOne(was, ctx.resolvedEntities, Elements(SYNCED[..i]), key);
      if key in ctx.resolvedEntities && !Filled(state.slots, key) {
        state.slots := state.slots[key := ctx.resolvedEntities[key]];
      }
    }
    assert SYNCED[..|SYNCED|] == SYNCED;
  }

  lemma NothingSynced(slots: Slots, entities: Slots)
    ensures SyncedOn(slots, entities, Elements(SYNCED[..0])) == slots
  {
    assert Elements(SYNCED[..0]) == {};
  }

  lemma SyncOne(slots: Slots, entities: Slots, keys: set<Slot>, key: Slot)
    requires key !in keys
    ensures var before := SyncedOn(slots, entities, keys);
            SyncedOn(slots, entities, keys + {key})
            == if key in entities && !Filled(before, key) then before[key := entities[key]] else before
  {
    hide Filled;
    SameFilled(slots, SyncedOn(slots, entities, keys), key);
  }

  lemma SyncedKeysAreDistinct(i: nat)
    requires i < |SYNCED|
    ensures SYNCED[i] !in Elements(SYNCED[..i])
    ensures Elements(SYNCED[..i + 1]) == Elements(SYNCED[..i]) + {SYNCED[i]}
  {
    assert forall a, b :: 0 <= a < b < |SYNCED| ==> SYNCED[a] != SYNCED[b];
    assert SYNCED[..i + 1] == SYNCED[..i] + [SYNCED[i]];
  }

  lemma SameFilled(a: Slots, b: Slots, s: Slot)
    requires (s in a <==> s in b) && (s in a ==> a[s] == b[s])
    ensures Filled(a, s) <==> Filled(b, s)
  {
  }

  method FindMissing(ctx: ContextDocument, slots: Slots)
    requires ctx.missingSlots == []
    modifies ctx`missingSlots
    ensures ctx.missingSlots == MissingSlots(ctx.intent, slots)
  {
    if IsReservation(ctx.intent) {
      ctx.missingSlots := Unfilled(slots, RequiredSlots(CreateReservation));
      ctx.missingSlots := Without(ctx.missingSlots, PhoneNumber);
    } else if IsOrder(ctx.intent) || ctx.intent == BulkOrder {
      ctx.missingSlots := Unfilled(slots, Without(RequiredSlots(CreateOrder), PhoneNumber));
    } else if ctx.intent == Unknown {
      if HasReservationCore(slots) {
        ctx.missingSlots := Unfilled(slots, RequiredSlots(CreateReservation));
      } else if Filled(slots, OrderItems) {
        ctx.missingSlots := Unfilled(slots, RequiredSlots(CreateOrder));
      }
    }
  }

  method SelectAction(ctx: ContextDocument, slots: Slots, goodbye: bool)
    requires ctx.missingSlots == MissingSlots(ctx.intent, slots) && ctx.mustInclude == [] && ctx.commitTool.None?
    modifies ctx`nextAction, ctx`commitTool, ctx`mustInclude
    ensures ctx.Outcome() == Select(ctx.intent, ctx.turnType, slots, goodbye)
  {
    if Closing(ctx.turnType) && ctx.missingSlots == [] {
      ctx.nextAction := Commit;
      if IsReservation(ctx.intent) {
        ctx.commitTool := Some(CreateReservation);
      } else if IsOrder(ctx.intent) {
        ctx.commitTool := Some(CreateOrder);
      } else if ctx.intent == Unknown {
        if HasReservationCore(slots) {
          ctx.commitTool := Some(CreateReservation);
        } else if Filled(slots, OrderItems) {
          ctx.commitTool := Some(CreateOrder);
        }
      }
    } else if ctx.missingSlots != [] {
      ctx.nextAction := Clarify;
      ctx.mustInclude := ctx.mustInclude + [ctx.missingSlots[0]];
    } else if goodbye {
      ctx.nextAction := EndCall;
    } else {
      ctx.nextAction := Say;
    }
  }

  /** The guard loop runs over all tools but only looks at the intent. */
  method GuardCommit(ctx: ContextDocument, slots: Slots)
    modifies ctx`nextAction, ctx`mustInclude
    ensures ctx.Outcome() == Guard(ctx.intent, slots, old(ctx.Outcome()))
  {
    if ctx.nextAction == Commit || ctx.nextAction == EndCall {
      for i := 0 to |TOOLS|
        invariant ctx.Outcome() == old(ctx.Outcome())
        invariant i > 0 ==> Unfilled(slots, GuardedSlots(ctx.intent)) == []
      {
        if IsReservation(ctx.intent) {
          var missing := Unfilled(slots, RequiredSlots(CreateReservation));
          if missing != [] {
            ctx.nextAction := Clarify;
            ctx.mustInclude := ctx.mustInclude + [missing[0]];
            break;
          }
        } else if IsOrder(ctx.intent) {
          var missing := Unfilled(slots, RequiredSlots(CreateOrder));
          if missing != [] {
            ctx.nextAction := Clarify;
            ctx.mustInclude := ctx.mustInclude + [missing[0]];
            break;
          }
        }
      }
    }
  }

  /** Always lets the generator run, but may turn a commit into a clarification. */
  method GenerationGate(ctx: ContextDocument) returns (allowed: bool)
    modifies ctx`nextAction, ctx`commitTool
    ensures allowed && ctx.Outcome() == Gate(old(ctx.Outcome()), ctx.schemaValid)
  {
    if !ctx.schemaValid {
      ctx.nextAction := Clarify;
    }
    if ctx.nextAction == Commit && ctx.missingSlots != [] {
      ctx.nextAction := Clarify;
      ctx.commitTool := None;
    }
    if ctx.nextAction == Commit && ctx.commitTool.Some? {
      var required := RequiredSlots(ctx.commitTool.value);
      if exists s :: s in required && s in ctx.missingSlots {
        assert false;
      }
    }
    return true;
  }
}

/** Exactly when the gate opens, what it asks, and what it leaves alone. */
module ContextDocLaws {
  import opened Wrappers
  import opened IntentSession
  import opened ContextDoc
  import ClockText

  predicate AllFilled(slots: Slots, required: seq<Slot>) {
    forall s :: s in required ==> Filled(slots, s)
  }

  lemma {:induction false} UnfilledIsExact(slots: Slots, required: seq<Slot>)
    ensures forall s :: s in Unfilled(slots, required) <==> s in required && !Filled(slots, s)
    ensures Unfilled(slots, required) == [] <==> AllFilled(slots, required)
  {
    if required != [] {
      UnfilledIsExact(slots, required[1..]);
      assert required == [required[0]] + required[1..];
      if Unfilled(slots, required) == [] {
        assert Filled(slots, required[0]);
      } else {
        assert Unfilled(slots, required)[0] in Unfilled(slots, required);
      }
    }
  }

  lemma {:induction false} WithoutIsExact(required: seq<Slot>, gone: Slot)
    ensures forall s :: s in Without(required, gone) <==> s in required && s != gone
  {
    if required != [] {
      WithoutIsExact(required[1..], gone);
      assert required == [required[0]] + required[1..];
    }
  }

  /** What an intent needs before it can close, phone aside where the code sets it aside. */
  function NeededToClose(k: IntentKind, slots: Slots): set<Slot> {
    if IsReservation(k) then {PartySize, ReservationDate, ReservationTime, CustomerName}
    else if IsOrder(k) || k == BulkOrder then {OrderItems, CustomerName}
    else if k == Unknown && HasReservationCore(slots) then {CustomerName, PhoneNumber}
    else if k == Unknown && Filled(slots, OrderItems) then {CustomerName, PhoneNumber}
    else {}
  }

  predicate HasAll(slots: Slots, needed: set<Slot>) {
    forall s :: s in needed ==> Filled(slots, s)
  }

  lemma MissingIsExact(k: IntentKind, slots: Slots)
    ensures forall s :: s in MissingSlots(k, slots) <==> s in NeededToClose(k, slots) && !Filled(slots, s)
    ensures MissingSlots(k, slots) == [] <==> HasAll(slots, NeededToClose(k, slots))
  {
    hide Filled, Unfilled, Without;
    var order := RequiredSlots(CreateOrder);
    UnfilledIsExact(slots, RequiredSlots(CreateReservation));
    UnfilledIsExact(slots, order);
    UnfilledIsExact(slots, Without(order, PhoneNumber));
    WithoutIsExact(order, PhoneNumber);
    WithoutIsExact(Unfilled(slots, RequiredSlots(CreateReservation)), PhoneNumber);
    var missing := MissingSlots(k, slots);
    if missing != [] {
      assert missing[0] in missing;
    }
  }

  lemma GuardIsExact(k: IntentKind, slots: Slots)
    ensures forall s :: s in Unfilled(slots, GuardedSlots(k)) <==>
              && (s in NeededToClose(k, slots) || s == PhoneNumber) && (IsReservation(k) || IsOrder(k))
              && !Filled(slots, s)
    ensures Unfilled(slots, GuardedSlots(k)) == [] <==>
              (IsReservation(k) || IsOrder(k) ==> HasAll(slots, NeededToClose(k, slots)) && Filled(slots, PhoneNumber))
  {
    hide Filled, Unfilled;
    UnfilledIsExact(slots, GuardedSlots(k));
  }

  // ----- Main results -----

  /** The generation gate never alters a document that build hands it. */
  lemma GateAltersNothing(k: IntentKind, t: TurnType, slots: Slots, goodbye: bool)
    ensures Decide(k, t, slots, goodbye) == Guard(k, slots, Select(k, t, slots, goodbye))
  {
    hide MissingSlots, ToolFor, GuardedSlots;
  }

  /** A reservation is committed exactly on a closing turn with date, time, party, name and phone all
      filled, under a reservation intent or none. */
  predicate ReservationReady(k: IntentKind, t: TurnType, slots: Slots) {
    && Closing(t) && (IsReservation(k) || k == Unknown)
    && HasReservationCore(slots) && Filled(slots, CustomerName) && Filled(slots, PhoneNumber)
  }

  /** An order is committed exactly on a closing turn with items, name and phone all filled, under an order
      intent, or under none when the reservation core is not there. */
  predicate OrderReady(k: IntentKind, t: TurnType, slots: Slots) {
    && Closing(t) && (IsOrder(k) || (k == Unknown && !HasReservationCore(slots)))
    && Filled(slots, OrderItems) && Filled(slots, CustomerName) && Filled(slots, PhoneNumber)
  }

  lemma CommitsExactlyWhenReady(k: IntentKind, t: TurnType, slots: Slots, goodbye: bool)
    ensures var d := Decide(k, t, slots, goodbye);
            && (d.action == Commit && d.tool == Some(CreateReservation) <==> ReservationReady(k, t, slots))
            && (d.action == Commit && d.tool == Some(CreateOrder) <==> OrderReady(k, t, slots))
            && (d.tool.Some? ==> d.tool == Some(CreateReservation) || d.tool == Some(CreateOrder))
  {
    GateAltersNothing(k, t, slots, goodbye);
    MissingIsExact(k, slots);
    GuardIsExact(k, slots);
    hide Filled, MissingSlots, GuardedSlots, Unfilled, Gate, Decide;
  }

  /** So no tool is committed unless every slot on its own list is filled, the phone included. */
  lemma CommittedToolsHaveTheirSlots(k: IntentKind, t: TurnType, slots: Slots, goodbye: bool)
    ensures var d := Decide(k, t, slots, goodbye);
            d.action == Commit && d.tool.Some? ==>
              AllFilled(slots, RequiredSlots(d.tool.value)) && Filled(slots, PhoneNumber)
  {
    CommitsExactlyWhenReady(k, t, slots, goodbye);
    hide Filled, Decide;
  }

  /** A clarification asks for exactly one slot, one that is needed and not filled; nothing else asks. */
  lemma ClarificationsAskOnce(k: IntentKind, t: TurnType, slots: Slots, goodbye: bool)
    ensures var d := Decide(k, t, slots, goodbye);
            if d.action == Clarify then
              && |d.asks| == 1 && !Filled(slots, d.asks[0])
              && (d.asks[0] in NeededToClose(k, slots)
                  || (d.asks[0] == PhoneNumber && (IsReservation(k) || IsOrder(k))))
            else d.asks == []
  {
    GateAltersNothing(k, t, slots, goodbye);
    MissingIsExact(k, slots);
    GuardIsExact(k, slots);
    var missing, guarded := MissingSlots(k, slots), Unfilled(slots, GuardedSlots(k));
    if missing != [] {
      assert missing[0] in missing;
    }
    if guarded != [] {
      assert guarded[0] in guarded;
    }
    hide Filled, MissingSlots, GuardedSlots, Unfilled, Gate, Decide, NeededToClose;
  }

  /** The commit tool is meant to be set only on a commit. It is left set on a clarification exactly when
      a closing order or reservation lacks nothing but the phone. */
  lemma ToolOutlivesCommitIff(k: IntentKind, t: TurnType, slots: Slots, goodbye: bool)
    ensures var d := Decide(k, t, slots, goodbye);
            d.tool.Some? && d.action != Commit <==>
              && Closing(t) && (IsReservation(k) || IsOrder(k))
              && HasAll(slots, NeededToClose(k, slots)) && !Filled(slots, PhoneNumber)
  {
    GateAltersNothing(k, t, slots, goodbye);
    MissingIsExact(k, slots);
    GuardIsExact(k, slots);
    hide Filled, MissingSlots, GuardedSlots, Unfilled, Gate, Decide, NeededToClose;
  }

  /** One such document: everything but the phone is known, and the caller says yes. */
  lemma ToolOutlivesCommitExample()
    ensures var d := Decide(Takeaway, Confirm, map[OrderItems := Other(true), CustomerName := Text("Kim")], false);
            d.action == Clarify && d.tool == Some(CreateOrder) && d.asks == [PhoneNumber]
  {
    var slots: Slots := map[OrderItems := Other(true), CustomerName := Text("Kim")];
    assert ClockText.Strip("Kim") == "Kim" by {
      ClockText.StripPlain("Kim");
    }
    assert Filled(slots, OrderItems) && Filled(slots, CustomerName) && !Filled(slots, PhoneNumber);
    ToolOutlivesCommitIff(Takeaway, Confirm, slots, false);
    ClarificationsAskOnce(Takeaway, Confirm, slots, false);
    CommitsExactlyWhenReady(Takeaway, Confirm, slots, false);
    MissingIsExact(Takeaway, slots);
    GateAltersNothing(Takeaway, Confirm, slots, false);
    hide Filled;
  }

  /** A commit without any tool happens exactly on closing turns of the other intents, once nothing that
      the code looks at is missing. */
  lemma CommitsWithoutToolIff(k: IntentKind, t: TurnType, slots: Slots, goodbye: bool)
    ensures var d := Decide(k, t, slots, goodbye);
            d.action == Commit && d.tool.None? <==>
              && Closing(t) && !IsReservation(k) && !IsOrder(k)
              && (k == BulkOrder ==> Filled(slots, OrderItems) && Filled(slots, CustomerName))
              && (k == Unknown ==> !HasReservationCore(slots) && !Filled(slots, OrderItems))
  {
    GateAltersNothing(k, t, slots, goodbye);
    MissingIsExact(k, slots);
    GuardIsExact(k, slots);
    hide Filled, MissingSlots, GuardedSlots, Unfilled, Gate, Decide;
  }

  /** Synchronising fills gaps only: filled slots and slots outside the list keep their value, and every
      listed slot a worker found a proper value for is filled afterwards. */
  lemma SyncFillsGapsOnly(slots: Slots, entities: Slots, s: Slot)
    ensures Filled(slots, s) ==> Filled(Synced(slots, entities), s) && Synced(slots, entities)[s] == slots[s]
    ensures s !in SYNCED ==>
              && (s in Synced(slots, entities) <==> s in slots)
              && (s in slots ==> Synced(slots, entities)[s] == slots[s])
    ensures s in SYNCED && Filled(entities, s) ==> Filled(Synced(slots, entities), s)
  {
  }
}
