/** From extraction output to captured intents: the parsing and merging half of server/brain/slot_extractor.py. */
module IntentMerge {
  import opened Wrappers
  import opened CapturedIntents

  // ----- Extraction output -----

  /** A kind field: absent or empty, one of the known names, or some other text. */
  datatype KindText = NoText | Names(kind: IntentKind) | ForeignText

  /** One entry of the extraction: its non-null fields as text. `confidence` is `None` when absent or unknown. */
  datatype RawEntry =
    | NotADict
    | Entry(kind: KindText, legacyType: KindText, confidence: Option<Confidence>, fields: map<SlotName, string>)

  datatype RawList = Missing | NotAList | Entries(entries: seq<RawEntry>)

  /** The whole answer: its `intents` field, and itself read as a single entry. */
  datatype Extraction = Extraction(intents: RawList, own: RawEntry)

  /** The slot fields that parsing looks at. */
  const RECOGNISED: set<SlotName> := {
    Items, PartySize, PickupOffset, Date, Time, Occasion, SpecialRequests, PickupTime, Channel,
    OrderIdentifier, Modification, ComplaintType, Description, IssueType, ItemDescription, VisitDate,
    DietaryRestriction, EventDate }

  function EntriesOf(x: Extraction): seq<RawEntry> {
    if (x.intents.Missing? || x.intents == Entries([])) && x.own.Entry? && x.own.kind != NoText then [x.own]
    else if x.intents.Entries? then x.intents.entries
    else []
  }

  function KindOf(e: RawEntry): Option<IntentKind>
    requires e.Entry?
  {
    var text := if e.kind != NoText then e.kind else e.legacyType;
    if text.Names? then Some(text.kind) else None
  }

  function ParsedSlot(e: RawEntry, n: SlotName, turn: int): SlotValue
    requires e.Entry? && n in e.fields
  {
    SlotValue(Some(e.fields[n]), SlotFilled, if e.confidence.Some? then e.confidence.value else Medium, turn, false)
  }

  function ParsedSlots(e: RawEntry, turn: int): map<SlotName, SlotValue>
    requires e.Entry?
  {
    map n | n in RECOGNISED && n in e.fields :: ParsedSlot(e, n, turn)
  }

  function ParsedEntries(es: seq<RawEntry>, turn: int): seq<IntentValue> {
    if es == [] then []
    else
      var e := es[|es| - 1];
      ParsedEntries(es[..|es| - 1], turn) +
      if e.Entry? && KindOf(e).Some?
      then [IntentValue(KindOf(e).value, Captured, ParsedSlots(e, turn), turn, None)] else []
  }

  predicate DistinctRefs(cs: seq<CapturedIntent>) {
    forall i, j :: 0 <= i < j < |cs| ==> cs[i] != cs[j]
  }

  function Values(cs: seq<CapturedIntent>): (vs: seq<IntentValue>)
    reads cs
    ensures |vs| == |cs| && forall i :: 0 <= i < |cs| ==> vs[i] == cs[i].Value()
  {
    seq(|cs|, i requires 0 <= i < |cs| reads cs => cs[i].Value())
  }

  method ParseExtractionToIntents(x: Extraction, turn: int) returns (result: seq<CapturedIntent>)
    ensures DistinctRefs(result) && fresh(result)
    ensures Values(result) == ParsedEntries(EntriesOf(x), turn)
  {
    var raws: seq<RawEntry>;
    if (x.intents.Missing? || x.intents == Entries([])) && x.own.Entry? && x.own.kind != NoText {
      raws := [x.own];
    } else if x.intents.Entries? {
      raws := x.intents.entries;
    } else {
      return [];
    }
    result := [];
    for i := 0 to |raws|
      invariant DistinctRefs(result) && fresh(result)
      invariant Values(result) == ParsedEntries(raws[..i], turn)
    {
      assert raws[..i + 1][..i] == raws[..i];
      var raw := raws[i];
      if raw.NotADict? {
        continue;
      }
      var kind := KindOf(raw);
      if kind.None? {
        continue;
      }
      var slots := ParseSlots(raw, turn);
      var intent := new CapturedIntent(kind.value, slots, turn);
      result := result + [intent];
    }
    assert raws[..|raws|] == raws;
  }

  method ParseSlots(raw: RawEntry, turn: int) returns (slots: map<SlotName, SlotValue>)
    requires raw.Entry?
    ensures slots == ParsedSlots(raw, turn)
  {
    slots := map[];
    var todo := RECOGNISED;
    while todo != {}
      invariant todo <= RECOGNISED
      invariant slots == map n | n in RECOGNISED - todo && n in raw.fields :: ParsedSlot(raw, n, turn)
    {
      var name :| name in todo;
      if name in raw.fields {
        slots := slots[name := ParsedSlot(raw, name, turn)];
      }
      todo := todo - {name};
    }
  }

  // ----- Merging -----

  datatype StateValue = StateValue(intents: seq<IntentValue>, current: Option<nat>)

  predicate Frozen(s: IntentStatus) {
    s == Completed || s == Cancelled
  }

  function MergedSlot(cur: SlotValue, heard: SlotValue): SlotValue {
    if cur.status == SlotFilled then heard
    else if cur.status == SlotConfirmed && heard.value != cur.value then heard
    else cur
  }

  function MergedSlots(cur: map<SlotName, SlotValue>, heard: map<SlotName, SlotValue>): map<SlotName, SlotValue> {
    map n | n in cur.Keys + heard.Keys ::
      if n !in heard then cur[n] else if n !in cur then heard[n] else MergedSlot(cur[n], heard[n])
  }

  /** The position of the first intent of a kind, or the length if there is none. */
  function Find(intents: seq<IntentValue>, k: IntentKind): (i: nat)
    ensures i <= |intents|
    ensures i < |intents| ==> intents[i].kind == k
    ensures forall j :: 0 <= j < i ==> intents[j].kind != k
  {
    if intents == [] || intents[0].kind == k then 0 else 1 + Find(intents[1..], k)
  }

  function MergeOne(s: StateValue, heard: IntentValue): StateValue {
    var i := Find(s.intents, heard.kind);
    if i == |s.intents| then
      StateValue(s.intents + [heard], if s.current.None? then Some(i) else s.current)
    else if Frozen(s.intents[i].status) then s
    else s.(intents := s.intents[i := s.intents[i].(slots := MergedSlots(s.intents[i].slots, heard.slots))])
  }

  function MergeAll(s: StateValue, heard: seq<IntentValue>): StateValue {
    if heard == [] then s else MergeOne(MergeAll(s, heard[..|heard| - 1]), heard[|heard| - 1])
  }

  class ConversationState {
    var capturedIntents: seq<CapturedIntent>
    var currentIntentIdx: Option<nat>

    function Value(): StateValue
      reads this, capturedIntents
    {
      StateValue(Values(capturedIntents), currentIntentIdx)
    }

    constructor ()
      ensures Value() == StateValue([], None)
    {
      capturedIntents, currentIntentIdx := [], None;
    }
  }

  function FindRef(cs: seq<CapturedIntent>, k: IntentKind): (i: nat)
    ensures i <= |cs|
    ensures i < |cs| ==> cs[i].kind == k
    ensures forall j :: 0 <= j < i ==> cs[j].kind != k
  {
    if cs == [] || cs[0].kind == k then 0 else 1 + FindRef(cs[1..], k)
  }

  function Refs(cs: seq<CapturedIntent>): set<CapturedIntent> {
    set c | c in cs
  }

  // ----- Merging on the heap -----

  /** Intent objects and their contents, so that two lists may share objects. */
  datatype RefState = RefState(
    heap: map<CapturedIntent, IntentValue>, intents: seq<CapturedIntent>, current: Option<nat>)

  predicate Covers(s: RefState, cs: seq<CapturedIntent>) {
    (forall c :: c in s.intents ==> c in s.heap) && (forall c :: c in cs ==> c in s.heap)
  }

  ghost function Snapshot(objects: set<CapturedIntent>): map<CapturedIntent, IntentValue>
    reads objects
  {
    map c | c in objects :: c.Value()
  }

  /** One round of the merge loop, whichever objects are the same. */
  function MergeRef(s: RefState, heard: CapturedIntent): (t: RefState)
    requires Covers(s, [heard])
    ensures t.heap.Keys == s.heap.Keys && Covers(t, [heard])
  {
    assert heard in [heard];
    var i := FindRef(s.intents, heard.kind);
    if i == |s.intents| then
      RefState(s.heap, s.intents + [heard], if s.current.None? then Some(i) else s.current)
    else
      var e := s.intents[i];
      if Frozen(s.heap[e].status) then s
      else s.(heap := s.heap[e := s.heap[e].(slots := MergedSlots(s.heap[e].slots, s.heap[heard].slots))])
  }

  function MergeRefs(s: RefState, heard: seq<CapturedIntent>): (t: RefState)
    requires Covers(s, heard)
    ensures t.heap.Keys == s.heap.Keys && Covers(t, heard)
  {
    if heard == [] then s
    else
      var front, last := heard[..|heard| - 1], heard[|heard| - 1];
      var mid := MergeRefs(s, front);
      assert Covers(mid, [last]);
      MergeRef(mid, last)
  }

  /** The state as the merge sees it, over all objects it may touch. */
  ghost function RefsOf(state: ConversationState, objects: set<CapturedIntent>): RefState
    reads state, objects
  {
    RefState(Snapshot(objects), state.capturedIntents, state.currentIntentIdx)
  }

  /** Merges intents into the state. New kinds are stored as the very objects that were passed in, and objects
      that are stored already may be passed in again. */
  method MergeNewIntentsIntoState(state: ConversationState, newIntents: seq<CapturedIntent>)
    modifies state, Refs(state.capturedIntents), Refs(newIntents)
    ensures var all := old(Refs(state.capturedIntents)) + Refs(newIntents);
            && Covers(old(RefsOf(state, all)), newIntents)
            && RefsOf(state, all) == MergeRefs(old(RefsOf(state, all)), newIntents)
  {
    hide MergeRef, MergedSlots;
    ghost var all := Refs(state.capturedIntents) + Refs(newIntents);
    ghost var start := RefsOf(state, all);
    assert newIntents[..0] == [];
    for i := 0 to |newIntents|
      invariant Refs(state.capturedIntents) <= all
      invariant Covers(start, newIntents[..i])
      invariant RefsOf(state, all) == MergeRefs(start, newIntents[..i])
    {
      assert newIntents[..i + 1][..i] == newIntents[..i];
      assert newIntents[i] in Refs(newIntents);
      MergeNewIntent(state, newIntents[i], all);
    }
    assert newIntents[..|newIntents|] == newIntents;
  }

  /** One round of the merge loop. */
  method MergeNewIntent(state: ConversationState, heard: CapturedIntent, ghost all: set<CapturedIntent>)
    requires Refs(state.capturedIntents) <= all && heard in all
    modifies state, all
    ensures Covers(old(RefsOf(state, all)), [heard])
    ensures RefsOf(state, all) == MergeRef(old(RefsOf(state, all)), heard)
    ensures Refs(state.capturedIntents) <= all
  {
    hide MergedSlots;
    var cs := state.capturedIntents;
    var i := FindRef(cs, heard.kind);
    ghost var before := RefsOf(state, all);
    assert forall c :: c in cs ==> c in Refs(cs);
    if i == |cs| {
      state.capturedIntents := cs + [heard];
      if state.currentIntentIdx.None? {
        state.currentIntentIdx := Some(|state.capturedIntents| - 1);
      }
      return;
    }
    var existing := cs[i];
    if Frozen(existing.status) {
      return;
    }
    MergeSlotsInto(existing, heard.slots);
    assert Snapshot(all) == before.heap[existing := existing.Value()];
  }

  method MergeSlotsInto(existing: CapturedIntent, heard: map<SlotName, SlotValue>)
    modifies existing`slots
    ensures existing.slots == MergedSlots(old(existing.slots), heard)
  {
    ghost var cur := existing.slots;
    var todo := heard.Keys;
    while todo != {}
      invariant todo <= heard.Keys
      invariant existing.slots == MergedSlots(cur, map n | n in heard.Keys - todo :: heard[n])
    {
      var name :| name in todo;
      var slot := heard[name];
      if name !in existing.slots {
        existing.slots := existing.slots[name := slot];
      } else if existing.slots[name].status == SlotFilled {
        existing.slots := existing.slots[name := slot];
      } else if existing.slots[name].status == SlotConfirmed && slot.value != existing.slots[name].value {
        existing.slots := existing.slots[name := slot];
      }
      todo := todo - {name};
    }
    assert (map n | n in heard.Keys - {} :: heard[n]) == heard;
  }
}
