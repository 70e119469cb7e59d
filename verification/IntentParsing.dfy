/** What parsed intents hold, from the extraction alone, and what a state that merges them holds. */
module IntentParsing {
  import opened Wrappers
  import opened CapturedIntents
  import opened IntentMerge
  import opened IntentLaws
  import opened IntentAliasing

  /** The kind of an entry: its kind field, or the legacy one where that is missing or empty. */
  predicate IsOfKind(e: RawEntry, k: IntentKind) {
    e.Entry? && (e.kind == Names(k) || (e.kind == NoText && e.legacyType == Names(k)))
  }

  predicate IsRecognised(e: RawEntry) {
    exists k :: IsOfKind(e, k)
  }

  predicate IsListed(n: SlotName) {
    || n == Items || n == PartySize || n == PickupOffset || n == Date || n == Time || n == Occasion
    || n == SpecialRequests || n == PickupTime || n == Channel || n == OrderIdentifier || n == Modification
    || n == ComplaintType || n == Description || n == IssueType || n == ItemDescription || n == VisitDate
    || n == DietaryRestriction || n == EventDate
  }

  /** The entry's own text, heard in this turn, as sure as the entry says or else moderately. */
  predicate IsHeardFrom(v: SlotValue, e: RawEntry, n: SlotName, turn: int) {
    && e.Entry? && n in e.fields && v.value == Some(e.fields[n])
    && v.status == SlotFilled && v.sourceTurn == turn && !v.fromCallerId
    && match e.confidence
       case None => v.confidence == Medium
       case Some(c) => v.confidence == c
  }

  /** An intent that says what an entry says, and nothing more. */
  ghost predicate Holds(v: IntentValue, e: RawEntry, turn: int) {
    && IsOfKind(e, v.kind) && v.status == Captured && v.createdTurn == turn && v.toolResult == None
    && forall n :: HasItsSlot(v.slots, e, turn, n)
  }

  /** The slot is there exactly if it is listed and the entry has it, and then says what the entry says. */
  predicate HasItsSlot(slots: map<SlotName, SlotValue>, e: RawEntry, turn: int, n: SlotName)
    requires e.Entry?
  {
    && (n in slots <==> IsListed(n) && n in e.fields)
    && (n in slots ==> IsHeardFrom(slots[n], e, n, turn))
  }

  /** The positions of all recognised entries, in order. */
  predicate SelectsRecognised(ps: seq<nat>, es: seq<RawEntry>) {
    && (forall i, j :: 0 <= i < j < |ps| ==> ps[i] < ps[j])
    && (forall i :: 0 <= i < |ps| ==> ps[i] < |es|)
    && (forall p: nat :: p < |es| ==> (IsRecognised(es[p]) <==> p in ps))
  }

  ghost predicate HoldThose(vs: seq<IntentValue>, ps: seq<nat>, es: seq<RawEntry>, turn: int) {
    |vs| == |ps| && forall i :: 0 <= i < |ps| ==> ps[i] < |es| && Holds(vs[i], es[ps[i]], turn)
  }

  /** The entries looked at: the list, if there is one with something in it, or else the answer itself. */
  lemma EntriesAreTheList(x: Extraction)
    ensures x.intents.Entries? && x.intents.entries != [] ==> EntriesOf(x) == x.intents.entries
    ensures x.intents.NotAList? ==> EntriesOf(x) == []
    ensures x.intents.Missing? || x.intents == Entries([]) ==>
              EntriesOf(x) == if x.own.Entry? && x.own.kind != NoText then [x.own] else []
  {
  }

  lemma OneParsed(e: RawEntry, turn: int)
    ensures var vs := ParsedEntries([e], turn);
            if IsRecognised(e) then |vs| == 1 && Holds(vs[0], e, turn) else vs == []
  {
    hide ParsedSlots, HasItsSlot;
    assert [e][..0] == [];
    if e.Entry? && KindOf(e).Some? {
      assert IsOfKind(e, KindOf(e).value);
      SlotsSayTheText(e, turn);
    }
  }

  lemma SlotsSayTheText(e: RawEntry, turn: int)
    requires e.Entry?
    ensures forall n :: HasItsSlot(ParsedSlots(e, turn), e, turn, n)
  {
    forall n
      ensures HasItsSlot(ParsedSlots(e, turn), e, turn, n)
    {
      OneSlot(e, turn, n);
    }
  }

  lemma OneSlot(e: RawEntry, turn: int, n: SlotName)
    requires e.Entry?
    ensures HasItsSlot(ParsedSlots(e, turn), e, turn, n)
  {
  }

  lemma ParsedStep(front: seq<RawEntry>, e: RawEntry, turn: int)
    ensures ParsedEntries(front + [e], turn) == ParsedEntries(front, turn) + ParsedEntries([e], turn)
  {
    hide ParsedSlots, KindOf;
    assert (front + [e])[..|front|] == front && [e][..0] == [];
  }

  lemma SelectStep(ps: seq<nat>, front: seq<RawEntry>, e: RawEntry)
    requires SelectsRecognised(ps, front)
    ensures SelectsRecognised(if IsRecognised(e) then ps + [|front|] else ps, front + [e])
  {
    hide IsRecognised;
    var all, more := front + [e], if IsRecognised(e) then ps + [|front|] else ps;
    forall p: nat | p < |all|
      ensures IsRecognised(all[p]) <==> p in more
    {
      if p < |front| {
        assert all[p] == front[p];
      } else if IsRecognised(e) {
        assert more[|ps|] == p;
      }
    }
  }

  lemma HoldStep(vs: seq<IntentValue>, ps: seq<nat>, front: seq<RawEntry>, e: RawEntry, turn: int, v: IntentValue)
    requires HoldThose(vs, ps, front, turn)
    ensures HoldThose(vs, ps, front + [e], turn)
    ensures Holds(v, e, turn) ==> HoldThose(vs + [v], ps + [|front|], front + [e], turn)
  {
    hide Holds;
  }

  // ----- Main results -----

  /** Parsing yields one intent for each recognised entry, in order, that holds exactly what the entry says. */
  lemma {:induction false} ParsedIntentsHoldTheText(es: seq<RawEntry>, turn: int) returns (ps: seq<nat>)
    ensures SelectsRecognised(ps, es) && HoldThose(ParsedEntries(es, turn), ps, es, turn)
  {
    if es == [] {
      return [];
    }
    hide ParsedEntries, SelectsRecognised, HoldThose, Holds, IsRecognised;
    var front, e := es[..|es| - 1], es[|es| - 1];
    var before := ParsedIntentsHoldTheText(front, turn);
    var vs, last := ParsedEntries(front, turn), ParsedEntries([e], turn);
    assert es == front + [e];
    OneParsed(e, turn);
    ParsedStep(front, e, turn);
    SelectStep(before, front, e);
    if IsRecognised(e) {
      HoldStep(vs, before, front, e, turn, last[0]);
      assert last == [last[0]];
      return before + [|front|];
    } else {
      HoldStep(vs, before, front, e, turn, IntentValue(Faq, Captured, map[], turn, None));
      assert vs + [] == vs;
      return before;
    }
  }

  predicate Says(e: RawEntry, k: IntentKind, n: SlotName) {
    IsOfKind(e, k) && IsListed(n) && n in e.fields
  }

  lemma LastWordOfStep(front: seq<RawEntry>, e: RawEntry, turn: int, k: IntentKind, n: SlotName)
    ensures !Says(e, k, n) ==>
              LastWord(ParsedEntries(front + [e], turn), k, n) == LastWord(ParsedEntries(front, turn), k, n)
    ensures Says(e, k, n) ==>
              var w := LastWord(ParsedEntries(front + [e], turn), k, n);
              w.Some? && IsHeardFrom(w.value, e, n, turn)
  {
    hide ParsedEntries, Says, IsHeardFrom, LastWord, Holds;
    ParsedStep(front, e, turn);
    OneParsed(e, turn);
    var vs, last := ParsedEntries(front, turn), ParsedEntries([e], turn);
    if IsRecognised(e) {
      assert last == [last[0]];
      LastWordAppend(vs, last[0], k, n);
      HoldingIsSaying(last[0], e, turn, k, n);
    } else {
      assert vs + last == vs;
      OnlyRecognisedSay(e, k, n);
    }
  }

  lemma LastWordAppend(vs: seq<IntentValue>, v: IntentValue, k: IntentKind, n: SlotName)
    ensures LastWord(vs + [v], k, n) == if v.kind == k && n in v.slots then Some(v.slots[n]) else LastWord(vs, k, n)
  {
    hide LastWord;
    var all := vs + [v];
    LastWordStep(all, |vs|, k, n);
    assert all[..|vs|] == vs && all[..|vs| + 1] == all;
  }

  lemma HoldingIsSaying(v: IntentValue, e: RawEntry, turn: int, k: IntentKind, n: SlotName)
    requires Holds(v, e, turn)
    ensures Says(e, k, n) <==> v.kind == k && n in v.slots
    ensures n in v.slots ==> IsHeardFrom(v.slots[n], e, n, turn)
  {
    hide IsListed, IsOfKind, IsHeardFrom;
    OneKindOnly(e, v.kind, k);
    assert HasItsSlot(v.slots, e, turn, n);
  }

  lemma OneKindOnly(e: RawEntry, k: IntentKind, l: IntentKind)
    requires IsOfKind(e, k)
    ensures e.Entry? && (IsOfKind(e, l) <==> k == l)
  {
  }

  lemma OnlyRecognisedSay(e: RawEntry, k: IntentKind, n: SlotName)
    requires !IsRecognised(e)
    ensures !Says(e, k, n)
  {
  }

  lemma {:induction false} NobodySays(es: seq<RawEntry>, turn: int, k: IntentKind, n: SlotName)
    requires forall e :: e in es ==> !Says(e, k, n)
    ensures LastWord(ParsedEntries(es, turn), k, n) == None
  {
    hide LastWord, Says;
    if es != [] {
      var front := es[..|es| - 1];
      NobodySays(front, turn, k, n);
      assert es == front + [es[|es| - 1]];
      LastWordOfStep(front, es[|es| - 1], turn, k, n);
    } else {
      NoWords(k, n);
    }
  }

  lemma NoWords(k: IntentKind, n: SlotName)
    ensures LastWord([], k, n) == None
  {
  }

  lemma {:induction false} LastToSay(es: seq<RawEntry>, turn: int, k: IntentKind, n: SlotName, p: nat)
    requires p < |es| && Says(es[p], k, n) && forall q :: p < q < |es| ==> !Says(es[q], k, n)
    ensures var w := LastWord(ParsedEntries(es, turn), k, n); w.Some? && IsHeardFrom(w.value, es[p], n, turn)
  {
    hide LastWord, Says, IsHeardFrom;
    var front, e := es[..|es| - 1], es[|es| - 1];
    assert es == front + [e];
    LastWordOfStep(front, e, turn, k, n);
    if p < |front| {
      LastToSay(front, turn, k, n, p);
    }
  }

  /** After one extraction into a fresh state each slot holds the text of the last entry of its kind that says
      anything about it, and is absent if none does. */
  lemma {:induction false} FreshSlotsHoldTheLastText(x: Extraction, turn: int, k: IntentKind, n: SlotName)
    ensures var es, slot := EntriesOf(x), SlotAt(MergeAll(StateValue([], None), Heard(x, turn)), k, n);
            && (slot == None <==> forall e :: e in es ==> !Says(e, k, n))
            && forall p :: 0 <= p < |es| && Says(es[p], k, n) && (forall q :: p < q < |es| ==> !Says(es[q], k, n)) ==>
                 slot.Some? && IsHeardFrom(slot.value, es[p], n, turn)
  {
    hide MergeAll, SlotAt, LastWord, Says, IsHeardFrom, ParsedEntries, EntriesOf;
    var es := EntriesOf(x);
    ParsingMerelyHears(es, turn);
    NewKindsHoldTheLastWord(StateValue([], None), Heard(x, turn), k, n);
    if forall e :: e in es ==> !Says(e, k, n) {
      NobodySays(es, turn, k, n);
    } else {
      var p := LastOf(es, k, n);
      LastToSay(es, turn, k, n, p);
      assert es[p] in es;
      assert forall p' :: 0 <= p' < |es| && Says(es[p'], k, n) && (forall q :: p' < q < |es| ==> !Says(es[q], k, n)) ==>
          p' == p;
    }
  }

  lemma {:induction false} LastOf(es: seq<RawEntry>, k: IntentKind, n: SlotName) returns (p: nat)
    requires exists e :: e in es && Says(e, k, n)
    ensures p < |es| && Says(es[p], k, n) && forall q :: p < q < |es| ==> !Says(es[q], k, n)
  {
    hide Says;
    p := |es| - 1;
    while !Says(es[p], k, n)
      invariant p < |es| && forall q :: p < q < |es| ==> !Says(es[q], k, n)
      decreases p
    {
      if p == 0 {
        assert false;
      }
      p := p - 1;
    }
  }

  /** New intents behind the old ones are those first heard of their kind, as they were heard but for later words. */
  lemma {:induction false} NewIntentsAreHeard(s: StateValue, heard: seq<IntentValue>, i: nat)
    requires |s.intents| <= i < |MergeAll(s, heard).intents|
    ensures exists j :: 0 <= j < |heard| && IsFirstHeard(heard, j)
              && MergeAll(s, heard).intents[i] == heard[j].(slots := MergeAll(s, heard).intents[i].slots)
  {
    hide MergeOne, HasKind, MergeAll, IsFirstHeard;
    NothingHeard(s);
    var front, v := heard[..|heard| - 1], heard[|heard| - 1];
    var mid, t := MergeAll(s, front), MergeAll(s, heard);
    MergeAllStep(s, heard, |heard|);
    assert heard[..|heard|] == heard;
    MergeOneGrows(mid, v);
    if i < |mid.intents| {
      NewIntentsAreHeard(s, front, i);
      var j: nat :| j < |front| && IsFirstHeard(front, j) && mid.intents[i] == front[j].(slots := mid.intents[i].slots);
      FirstInFront(front, v, j);
      assert heard == front + [v] && heard[j] == front[j];
      assert t.intents[i] == heard[j].(slots := t.intents[i].slots);
    } else {
      FirstOfAll(s, heard);
      assert t.intents[i] == heard[|front|];
    }
  }

  lemma NothingHeard(s: StateValue)
    ensures MergeAll(s, []) == s
  {
  }

  lemma FirstInFront(front: seq<IntentValue>, v: IntentValue, j: nat)
    requires j < |front| && IsFirstHeard(front, j)
    ensures IsFirstHeard(front + [v], j)
  {
  }

  lemma FirstOfAll(s: StateValue, heard: seq<IntentValue>)
    requires heard != [] && !HasKind(MergeAll(s, heard[..|heard| - 1]).intents, heard[|heard| - 1].kind)
    ensures IsFirstHeard(heard, |heard| - 1)
  {
    hide MergeAll, HasKind;
    var front := heard[..|heard| - 1];
    forall j | 0 <= j < |front|
      ensures heard[j].kind != heard[|front|].kind
    {
      HeardKindsArePresent(s, front, j);
    }
  }

  /** One round adds the intent behind the others, or rewrites slots of one of them. */
  lemma MergeOneGrows(s: StateValue, v: IntentValue)
    ensures var t := MergeOne(s, v);
            && (!HasKind(s.intents, v.kind) ==> t.intents == s.intents + [v])
            && (HasKind(s.intents, v.kind) ==> |t.intents| == |s.intents|)
            && (forall i :: 0 <= i < |s.intents| ==> t.intents[i] == s.intents[i].(slots := t.intents[i].slots))
  {
    hide MergedSlots, Find;
    FindStops(s.intents, v.kind);
  }

  predicate IsFirstHeard(heard: seq<IntentValue>, j: nat)
    requires j < |heard|
  {
    forall i :: 0 <= i < j ==> heard[i].kind != heard[j].kind
  }

  lemma FindStops(vs: seq<IntentValue>, k: IntentKind)
    ensures Find(vs, k) == |vs| <==> !HasKind(vs, k)
  {
  }

  lemma {:induction false} HeardKindsArePresent(s: StateValue, heard: seq<IntentValue>, j: nat)
    requires j < |heard|
    ensures HasKind(MergeAll(s, heard).intents, heard[j].kind)
  {
    hide MergedSlots, Find;
    var front, v := heard[..|heard| - 1], heard[|heard| - 1];
    var mid, t := MergeAll(s, front), MergeAll(s, heard);
    FindStops(mid.intents, v.kind);
    if j < |front| {
      HeardKindsArePresent(s, front, j);
      var i :| 0 <= i < |mid.intents| && mid.intents[i].kind == heard[j].kind;
      assert t.intents[i].kind == heard[j].kind;
    } else if Find(mid.intents, v.kind) == |mid.intents| {
      assert t.intents[|mid.intents|].kind == v.kind;
    } else {
      var i :| 0 <= i < |mid.intents| && mid.intents[i].kind == v.kind;
      assert t.intents[i].kind == v.kind;
    }
  }
}
