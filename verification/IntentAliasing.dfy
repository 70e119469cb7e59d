/** What merging does to the objects themselves, which the state and the list of new intents may share. */
module IntentAliasing {
  import opened Wrappers
  import opened CapturedIntents
  import opened IntentMerge
  import opened IntentLaws

  /** Objects keep the kind they were made with. */
  predicate WellKinded(s: RefState) {
    forall c :: c in s.heap ==> s.heap[c].kind == c.kind
  }

  function HeardIn(s: RefState, cs: seq<CapturedIntent>): (vs: seq<IntentValue>)
    requires Covers(s, cs)
    ensures |vs| == |cs| && forall i :: 0 <= i < |cs| ==> cs[i] in s.heap && vs[i] == s.heap[cs[i]]
  {
    assert forall i :: 0 <= i < |cs| ==> cs[i] in cs;
    seq(|cs|, i requires 0 <= i < |cs| => s.heap[cs[i]])
  }

  function ValuesIn(s: RefState): StateValue
    requires Covers(s, s.intents)
  {
    StateValue(HeardIn(s, s.intents), s.current)
  }

  /** The contents of the live state are those of its snapshot. */
  lemma LiveValues(state: ConversationState, all: set<CapturedIntent>)
    requires Refs(state.capturedIntents) <= all
    ensures Covers(RefsOf(state, all), state.capturedIntents) && WellKinded(RefsOf(state, all))
    ensures ValuesIn(RefsOf(state, all)) == state.Value()
  {
    assert forall c :: c in state.capturedIntents ==> c in Refs(state.capturedIntents);
  }

  /** An object that is stored already is not preceded in the list by another of its kind. */
  predicate Tidy(s: RefState, cs: seq<CapturedIntent>) {
    && Covers(s, cs) && WellKinded(s) && DistinctRefs(s.intents) && DistinctRefs(cs)
    && forall i, j :: 0 <= i < j < |cs| && cs[j] in s.intents ==> cs[i].kind != cs[j].kind
  }

  lemma SameFind(s: RefState, k: IntentKind)
    requires Covers(s, s.intents) && WellKinded(s)
    ensures Find(ValuesIn(s).intents, k) == FindRef(s.intents, k)
  {
    FindIs(ValuesIn(s).intents, k, FindRef(s.intents, k));
  }

  /** One round on objects is one round on values. */
  lemma RefStep(s: RefState, c: CapturedIntent)
    requires Covers(s, [c]) && WellKinded(s) && DistinctRefs(s.intents)
    ensures c in s.heap && Covers(s, s.intents)
    ensures var t := MergeRef(s, c);
            && WellKinded(t) && DistinctRefs(t.intents)
            && s.intents <= t.intents && (forall d :: d in t.intents ==> d in s.intents || d == c)
            && (forall d :: d in s.heap && t.heap[d] != s.heap[d] ==> d in s.intents && d.kind == c.kind)
            && ValuesIn(t) == MergeOne(ValuesIn(s), s.heap[c])
  {
    hide MergedSlots, Find, FindRef;
    assert c in [c];
    SameFind(s, c.kind);
    var t, i := MergeRef(s, c), FindRef(s.intents, c.kind);
    if i < |s.intents| {
      assert s.intents[i] in s.intents;
      assert ValuesIn(t).intents == MergeOne(ValuesIn(s), s.heap[c]).intents;
    } else {
      FindRefStops(s.intents, c.kind);
      assert ValuesIn(t).intents == ValuesIn(s).intents + [s.heap[c]];
    }
  }

  lemma FindRefStops(cs: seq<CapturedIntent>, k: IntentKind)
    ensures FindRef(cs, k) == |cs| ==> forall c :: c in cs ==> c.kind != k
    ensures FindRef(cs, k) < |cs| ==> cs[FindRef(cs, k)].kind == k
  {
  }

  lemma OneMoreRound(s: RefState, cs: seq<CapturedIntent>, n: nat)
    requires Covers(s, cs) && 0 < n <= |cs|
    ensures Covers(s, cs[..n - 1]) && Covers(s, cs[..n]) && Covers(MergeRefs(s, cs[..n - 1]), [cs[n - 1]])
    ensures MergeRefs(s, cs[..n]) == MergeRef(MergeRefs(s, cs[..n - 1]), cs[n - 1])
  {
    hide MergeRef;
    assert cs[..n][..n - 1] == cs[..n - 1];
    assert cs[n - 1] in s.heap && cs[..n][n - 1] == cs[n - 1];
  }

  /** What the first `n` rounds keep: only listed objects were stored, and later ones were not written to. */
  predicate Progress(s: RefState, cs: seq<CapturedIntent>, n: nat, t: RefState)
    requires n <= |cs|
  {
    && s.heap.Keys == t.heap.Keys && Covers(t, cs) && WellKinded(t) && DistinctRefs(t.intents)
    && (forall d :: d in t.intents ==> d in s.intents || d in cs[..n])
    && (forall j :: n <= j < |cs| ==> cs[j] in s.heap && t.heap[cs[j]] == s.heap[cs[j]])
  }

  /** The first `n` rounds: on values they are the merge of the contents at the start. */
  lemma {:induction false} TidyPrefix(s: RefState, cs: seq<CapturedIntent>, n: nat)
    requires Tidy(s, cs) && n <= |cs|
    ensures Covers(s, cs[..n]) && Covers(s, s.intents) && Covers(s, cs)
    ensures var t := MergeRefs(s, cs[..n]);
            && Progress(s, cs, n, t) && Covers(t, t.intents)
            && ValuesIn(t) == MergeAll(ValuesIn(s), HeardIn(s, cs)[..n])
  {
    hide MergeRef, MergeOne, FindRef, Tidy, WellKinded, DistinctRefs;
    TidyMeans(s, cs);
    if n > 0 {
      hide MergeRefs, MergeAll, Progress;
      TidyPrefix(s, cs, n - 1);
      OneMoreRound(s, cs, n);
      ProgressStep(s, cs, n, MergeRefs(s, cs[..n - 1]));
      MergeAllStep(ValuesIn(s), HeardIn(s, cs), n);
    } else {
      assert cs[..0] == [] && HeardIn(s, cs)[..0] == [];
    }
  }

  lemma ProgressStep(s: RefState, cs: seq<CapturedIntent>, n: nat, mid: RefState)
    requires Tidy(s, cs) && 0 < n <= |cs| && Progress(s, cs, n - 1, mid) && Covers(mid, [cs[n - 1]])
    ensures var t := MergeRef(mid, cs[n - 1]);
            && Progress(s, cs, n, t) && Covers(mid, mid.intents) && Covers(t, t.intents)
            && ValuesIn(t) == MergeOne(ValuesIn(mid), HeardIn(s, cs)[n - 1])
  {
    hide MergeRef, MergeOne;
    RefStep(mid, cs[n - 1]);
    LaterUntouched(s, cs, mid, n);
    assert cs[n - 1] in cs[..n] && forall d :: d in cs[..n - 1] ==> d in cs[..n];
  }

  lemma TidyMeans(s: RefState, cs: seq<CapturedIntent>)
    requires Tidy(s, cs)
    ensures Covers(s, cs) && Covers(s, s.intents) && WellKinded(s) && DistinctRefs(s.intents)
  {
  }

  lemma MergeAllStep(s: StateValue, heard: seq<IntentValue>, n: nat)
    requires 0 < n <= |heard|
    ensures MergeAll(s, heard[..n]) == MergeOne(MergeAll(s, heard[..n - 1]), heard[n - 1])
  {
    assert heard[..n][..n - 1] == heard[..n - 1];
  }

  /** A round does not write to objects that come later in the list. */
  lemma LaterUntouched(s: RefState, cs: seq<CapturedIntent>, mid: RefState, n: nat)
    requires Tidy(s, cs) && 0 < n <= |cs| && mid.heap.Keys == s.heap.Keys && Covers(mid, [cs[n - 1]])
    requires WellKinded(mid) && DistinctRefs(mid.intents)
    requires forall d :: d in mid.intents ==> d in s.intents || d in cs[..n - 1]
    ensures forall j :: n <= j < |cs| ==> cs[j] in s.heap && MergeRef(mid, cs[n - 1]).heap[cs[j]] == mid.heap[cs[j]]
  {
    hide MergeRef;
    RefStep(mid, cs[n - 1]);
    forall j | n <= j < |cs|
      ensures cs[j] in s.heap && MergeRef(mid, cs[n - 1]).heap[cs[j]] == mid.heap[cs[j]]
    {
      assert cs[j] !in cs[..n - 1];
    }
  }

  /** Without an object of the state among the new ones, and on tidy lists, merging objects is merging values. */
  lemma MergingObjectsIsMergingValues(s: RefState, cs: seq<CapturedIntent>)
    requires Tidy(s, cs)
    ensures Covers(s, s.intents) && Covers(MergeRefs(s, cs), MergeRefs(s, cs).intents)
    ensures ValuesIn(MergeRefs(s, cs)) == MergeAll(ValuesIn(s), HeardIn(s, cs))
    ensures DistinctRefs(MergeRefs(s, cs).intents) && WellKinded(MergeRefs(s, cs))
  {
    TidyPrefix(s, cs, |cs|);
    assert Progress(s, cs, |cs|, MergeRefs(s, cs[..|cs|]));
    assert cs[..|cs|] == cs && HeardIn(s, cs)[..|cs|] == HeardIn(s, cs);
  }

  /** The method on freshly parsed intents: its contract, read as values. */
  lemma FreshIntentsMergeByValue(s: RefState, cs: seq<CapturedIntent>)
    requires Covers(s, cs) && WellKinded(s) && DistinctRefs(s.intents) && DistinctRefs(cs)
    requires Refs(cs) !! Refs(s.intents)
    ensures Tidy(s, cs)
    ensures ValuesIn(MergeRefs(s, cs)) == MergeAll(ValuesIn(s), HeardIn(s, cs))
  {
    assert forall j :: 0 <= j < |cs| ==> cs[j] in Refs(cs);
    assert forall c :: c in s.intents ==> c in Refs(s.intents);
    MergingObjectsIsMergingValues(s, cs);
  }

  // ----- Merging the very same list again -----

  predicate HoldsKind(cs: seq<CapturedIntent>, k: IntentKind) {
    exists c :: c in cs && c.kind == k
  }

  predicate KindsPresent(stored: seq<CapturedIntent>, cs: seq<CapturedIntent>, n: nat)
    requires n <= |cs|
  {
    forall j :: 0 <= j < n ==> HoldsKind(stored, cs[j].kind)
  }

  /** The new objects among the stored ones are the first of their kind in the list. */
  predicate FirstOfKind(stored: seq<CapturedIntent>, cs: seq<CapturedIntent>) {
    forall i, j :: 0 <= i < j < |cs| && cs[j] in stored ==> cs[i].kind != cs[j].kind
  }

  /** And of kinds that were not stored before. */
  predicate OfNewKinds(before: seq<CapturedIntent>, stored: seq<CapturedIntent>, cs: seq<CapturedIntent>) {
    forall j :: 0 <= j < |cs| && cs[j] in stored ==> !HoldsKind(before, cs[j].kind)
  }

  predicate OnlyStoredChange(s: RefState, t: RefState)
    requires s.heap.Keys == t.heap.Keys
  {
    forall d :: d in s.heap && t.heap[d] != s.heap[d] ==> d in t.intents
  }

  /** A round appends its object exactly if no object of its kind is stored. */
  lemma RoundAppends(s: RefState, c: CapturedIntent)
    requires Covers(s, [c])
    ensures var t := MergeRef(s, c);
            && t.intents == (if HoldsKind(s.intents, c.kind) then s.intents else s.intents + [c])
            && HoldsKind(t.intents, c.kind)
  {
    hide MergedSlots, FindRef;
    FindRefStops(s.intents, c.kind);
    var t, i := MergeRef(s, c), FindRef(s.intents, c.kind);
    if i < |s.intents| {
      assert s.intents[i] in t.intents;
    } else {
      assert c in t.intents;
    }
  }

  /** New objects are stored only as the first of their kind, and other objects are left alone. */
  lemma {:induction false} StoredFirst(s: RefState, cs: seq<CapturedIntent>, n: nat)
    requires Tidy(s, cs) && Refs(cs) !! Refs(s.intents) && n <= |cs|
    ensures Covers(s, cs[..n])
    ensures var t := MergeRefs(s, cs[..n]);
            && s.intents <= t.intents && KindsPresent(t.intents, cs, n)
            && FirstOfKind(t.intents, cs) && OfNewKinds(s.intents, t.intents, cs) && OnlyStoredChange(s, t)
  {
    hide Refs, MergeRefs, MergeRef, KindsPresent, FirstOfKind, OfNewKinds, OnlyStoredChange, DistinctRefs, HoldsKind;
    if n == 0 {
      NothingStoredYet(s, cs);
    } else {
      StoredFirst(s, cs, n - 1);
      TidyPrefix(s, cs, n - 1);
      OneMoreRound(s, cs, n);
      var mid := MergeRefs(s, cs[..n - 1]);
      RoundAppends(mid, cs[n - 1]);
      OnlyStoredStep(s, mid, cs[n - 1]);
      StoredStep(s.intents, mid.intents, MergeRef(mid, cs[n - 1]).intents, cs, n);
    }
  }

  lemma NothingStoredYet(s: RefState, cs: seq<CapturedIntent>)
    requires Covers(s, cs) && Refs(cs) !! Refs(s.intents)
    ensures cs[..0] == [] && Covers(s, []) && MergeRefs(s, []) == s
    ensures KindsPresent(s.intents, cs, 0) && FirstOfKind(s.intents, cs) && OfNewKinds(s.intents, s.intents, cs)
    ensures OnlyStoredChange(s, s)
  {
    assert forall j :: 0 <= j < |cs| ==> cs[j] in Refs(cs);
    assert forall c :: c in s.intents ==> c in Refs(s.intents);
  }

  lemma OnlyStoredStep(s: RefState, mid: RefState, c: CapturedIntent)
    requires Covers(mid, [c]) && WellKinded(mid) && DistinctRefs(mid.intents) && s.heap.Keys == mid.heap.Keys
    requires OnlyStoredChange(s, mid)
    ensures OnlyStoredChange(s, MergeRef(mid, c))
  {
    hide MergeRef;
    RefStep(mid, c);
  }

  lemma StoredStep(before: seq<CapturedIntent>, mid: seq<CapturedIntent>, after: seq<CapturedIntent>,
                   cs: seq<CapturedIntent>, n: nat)
    requires 0 < n <= |cs| && DistinctRefs(cs) && before <= mid
    requires KindsPresent(mid, cs, n - 1) && FirstOfKind(mid, cs) && OfNewKinds(before, mid, cs)
    requires after == (if HoldsKind(mid, cs[n - 1].kind) then mid else mid + [cs[n - 1]])
    requires HoldsKind(after, cs[n - 1].kind)
    ensures before <= after && KindsPresent(after, cs, n) && FirstOfKind(after, cs) && OfNewKinds(before, after, cs)
  {
    var c := cs[n - 1];
    forall j | 0 <= j < n
      ensures HoldsKind(after, cs[j].kind)
    {
      if j < n - 1 {
        assert HoldsKind(mid, cs[j].kind);
        var d :| d in mid && d.kind == cs[j].kind;
        assert d in after;
      }
    }
    forall i, j | 0 <= i < j < |cs| && cs[j] in after
      ensures cs[i].kind != cs[j].kind
    {
      if cs[j] !in mid {
        assert j == n - 1;
        assert HoldsKind(mid, cs[i].kind);
      }
    }
    assert forall d :: d in before ==> d in mid;
    assert HoldsKind(before, c.kind) ==> HoldsKind(mid, c.kind);
  }

  // ----- The same on values -----

  /** `again` is `heard`, except that the first entry of a new kind may have become what was stored for it. */
  ghost predicate Reheard(s: StateValue, heard: seq<IntentValue>, again: seq<IntentValue>) {
    && |again| == |heard|
    && forall j :: 0 <= j < |heard| ==>
         && again[j].kind == heard[j].kind && again[j].status == Captured
         && (again[j] == heard[j] || IsStored(s, heard, again, j))
  }

  ghost predicate IsStored(s: StateValue, heard: seq<IntentValue>, again: seq<IntentValue>, j: nat)
    requires j < |heard| == |again|
  {
    && !HasKind(s.intents, heard[j].kind)
    && (forall i :: 0 <= i < j ==> heard[i].kind != heard[j].kind)
    && (forall n :: SlotAt(MergeAll(s, heard), heard[j].kind, n) ==
                    if n in again[j].slots then Some(again[j].slots[n]) else None)
  }

  function LastWord(heard: seq<IntentValue>, k: IntentKind, n: SlotName): Option<SlotValue> {
    var ws := Mentions(heard, k, n);
    if ws == [] then None else Some(ws[|ws| - 1])
  }

  lemma LastWordStep(heard: seq<IntentValue>, p: nat, k: IntentKind, n: SlotName)
    requires p < |heard|
    ensures LastWord(heard[..p + 1], k, n) ==
            if heard[p].kind == k && n in heard[p].slots then Some(heard[p].slots[n]) else LastWord(heard[..p], k, n)
  {
    assert heard[..p + 1][..p] == heard[..p];
  }

  lemma {:induction false} NotMentioned(heard: seq<IntentValue>, k: IntentKind, n: SlotName)
    requires forall v :: v in heard ==> v.kind != k
    ensures LastWord(heard, k, n) == None
  {
    if heard != [] {
      NotMentioned(heard[..|heard| - 1], k, n);
    }
  }

  lemma StoredIsTheWord(s: StateValue, heard: seq<IntentValue>, again: seq<IntentValue>, j: nat, n: SlotName)
    requires Reheard(s, heard, again) && j < |heard| && again[j] != heard[j]
    ensures !HasKind(s.intents, heard[j].kind)
    ensures LastWord(again[..j + 1], heard[j].kind, n) == SlotAt(MergeAll(s, heard), heard[j].kind, n)
  {
    hide LastWord, MergeAll, SlotAt, HasKind;
    assert IsStored(s, heard, again, j);
    assert forall v :: v in again[..j] ==> v.kind != heard[j].kind;
    NotMentioned(again[..j], heard[j].kind, n);
    LastWordStep(again, j, heard[j].kind, n);
  }

  /** The last word of the second hearing is that of the first, or already what is stored. */
  lemma {:induction false} LastWordAgain(s: StateValue, heard: seq<IntentValue>, again: seq<IntentValue>, p: nat,
                                         k: IntentKind, n: SlotName)
    requires Reheard(s, heard, again) && p <= |heard|
    ensures LastWord(again[..p], k, n) == LastWord(heard[..p], k, n)
            || (!HasKind(s.intents, k) && LastWord(again[..p], k, n) == SlotAt(MergeAll(s, heard), k, n))
  {
    hide LastWord, MergeAll, SlotAt, HasKind, IsStored;
    if p > 0 {
      LastWordAgain(s, heard, again, p - 1, k, n);
      LastWordStep(heard, p - 1, k, n);
      LastWordStep(again, p - 1, k, n);
      if heard[p - 1].kind == k && again[p - 1] != heard[p - 1] {
        StoredIsTheWord(s, heard, again, p - 1, n);
      }
    } else {
      assert again[..0] == heard[..0];
    }
  }

  lemma {:induction false} NewKindsHoldTheLastWord(s: StateValue, heard: seq<IntentValue>, k: IntentKind, n: SlotName)
    requires MerelyHeard(heard) && !HasKind(s.intents, k)
    ensures SlotAt(MergeAll(s, heard), k, n) == LastWord(heard, k, n)
    ensures LastWord(heard, k, n).Some? ==> LastWord(heard, k, n).value.status == SlotFilled
  {
    MergeSettlesSlots(s, heard, k, n);
    MentionsAreFilled(heard, k, n);
    assert SlotAt(s, k, n) == None && !FrozenKind(s, k);
  }

  lemma ReheardIsMerelyHeard(s: StateValue, heard: seq<IntentValue>, again: seq<IntentValue>)
    requires MerelyHeard(heard) && Reheard(s, heard, again)
    ensures MerelyHeard(again)
  {
    hide MergeAll, SlotAt, LastWord, HasKind;
    forall v, n | v in again && n in v.slots
      ensures v.slots[n].status == SlotFilled
    {
      var j: nat :| j < |again| && again[j] == v;
      if again[j] == heard[j] {
        assert heard[j] in heard;
      } else {
        NewKindsHoldTheLastWord(s, heard, heard[j].kind, n);
      }
    }
  }

  /** A slot that holds a last word keeps it when the second hearing settles it again. */
  lemma SettledAgain(s: StateValue, heard: seq<IntentValue>, again: seq<IntentValue>, k: IntentKind, n: SlotName)
    requires MerelyHeard(heard) && Reheard(s, heard, again)
    ensures SlotAt(MergeAll(MergeAll(s, heard), again), k, n) == SlotAt(MergeAll(s, heard), k, n)
  {
    hide SlotAt, MergeAll, FrozenKind;
    ReheardIsMerelyHeard(s, heard, again);
    MergeSettlesSlots(s, heard, k, n);
    MergeSettlesSlots(MergeAll(s, heard), again, k, n);
    MentionsAreFilled(heard, k, n);
    if HasKind(s.intents, k) {
      MentionsAgain(s, heard, again, k, n);
      SettledTwice(SlotAt(s, k, n), Mentions(heard, k, n));
    } else {
      NewKindsHoldTheLastWord(s, heard, k, n);
      LastWordAgain(s, heard, again, |heard|, k, n);
      assert again[..|again|] == again && heard[..|heard|] == heard;
    }
  }

  lemma {:induction false} MentionsAgain(s: StateValue, heard: seq<IntentValue>, again: seq<IntentValue>, k: IntentKind,
                                         n: SlotName)
    requires Reheard(s, heard, again) && HasKind(s.intents, k)
    ensures Mentions(again, k, n) == Mentions(heard, k, n)
  {
    hide MergeAll, SlotAt, HasKind;
    SameMentions(again, heard, |heard|, k, n);
    assert again[..|again|] == again && heard[..|heard|] == heard;
  }

  lemma {:induction false} SameMentions(a: seq<IntentValue>, b: seq<IntentValue>, p: nat, k: IntentKind, n: SlotName)
    requires p <= |a| == |b|
    requires forall j :: 0 <= j < |a| ==> a[j].kind == b[j].kind && (a[j].kind == k ==> a[j] == b[j])
    ensures Mentions(a[..p], k, n) == Mentions(b[..p], k, n)
  {
    if p > 0 {
      SameMentions(a, b, p - 1, k, n);
      assert a[..p][..p - 1] == a[..p - 1] && b[..p][..p - 1] == b[..p - 1];
    } else {
      assert a[..p] == b[..p];
    }
  }

  lemma {:induction false} MergingAgainChangesNothing(s: StateValue, heard: seq<IntentValue>, again: seq<IntentValue>)
    requires MerelyHeard(heard) && DistinctKinds(s.intents) && Reheard(s, heard, again)
    ensures MergeAll(MergeAll(s, heard), again) == MergeAll(s, heard)
  {
    var once := MergeAll(s, heard);
    var twice := MergeAll(once, again);
    hide MergeAll, SlotAt;
    ReheardIsMerelyHeard(s, heard, again);
    MergeExtends(s, heard);
    MergeExtends(once, again);
    forall v | v in again
      ensures HasKind(once.intents, v.kind)
    {
      var j: nat :| j < |again| && again[j] == v;
      assert heard[j] in heard;
    }
    forall i | 0 <= i < |once.intents|
      ensures twice.intents[i] == once.intents[i]
    {
      forall n
        ensures SlotAt(twice, once.intents[i].kind, n) == SlotAt(once, once.intents[i].kind, n)
      {
        SettledAgain(s, heard, again, once.intents[i].kind, n);
      }
      SameSlots(once, twice, i);
    }
    assert twice.intents == once.intents;
  }

  // ----- Main result -----

  /** Merging the very same objects a second time changes nothing, although those of new kinds are by then part
      of the state and may have taken on later words of the list. */
  lemma {:induction false} RemergingChangesNothing(s: RefState, cs: seq<CapturedIntent>)
    requires Covers(s, cs) && WellKinded(s) && DistinctRefs(s.intents) && DistinctRefs(cs)
    requires Refs(cs) !! Refs(s.intents) && DistinctKinds(ValuesIn(s).intents) && MerelyHeard(HeardIn(s, cs))
    ensures var t := MergeRefs(s, cs);
            && Covers(t, t.intents) && Covers(MergeRefs(t, cs), MergeRefs(t, cs).intents)
            && ValuesIn(MergeRefs(t, cs)) == ValuesIn(t)
  {
    hide MergeRefs, MergeAll, Refs, DistinctRefs, MerelyHeard, DistinctKinds, WellKinded;
    var t := MergeRefs(s, cs);
    FreshIntentsMergeByValue(s, cs);
    MergingObjectsIsMergingValues(s, cs);
    StoredFirst(s, cs, |cs|);
    assert cs[..|cs|] == cs;
    assert Tidy(t, cs);
    MergingObjectsIsMergingValues(t, cs);
    ReheardObjects(s, cs);
    MergingAgainChangesNothing(ValuesIn(s), HeardIn(s, cs), HeardIn(t, cs));
  }

  lemma ReheardObjects(s: RefState, cs: seq<CapturedIntent>)
    requires Tidy(s, cs) && Refs(cs) !! Refs(s.intents)
    requires DistinctKinds(ValuesIn(s).intents) && MerelyHeard(HeardIn(s, cs))
    ensures Covers(MergeRefs(s, cs), cs)
    ensures Reheard(ValuesIn(s), HeardIn(s, cs), HeardIn(MergeRefs(s, cs), cs))
  {
    hide MergeRefs, MergeAll, Refs, SlotAt, DistinctRefs, IsStored, FirstOfKind, OfNewKinds, KindsPresent;
    var t, heard := MergeRefs(s, cs), HeardIn(s, cs);
    var again := HeardIn(t, cs);
    MergingObjectsIsMergingValues(s, cs);
    StoredFirst(s, cs, |cs|);
    assert cs[..|cs|] == cs;
    forall j | 0 <= j < |cs|
      ensures again[j].kind == heard[j].kind && again[j].status == Captured
      ensures again[j] == heard[j] || IsStored(ValuesIn(s), heard, again, j)
    {
      assert heard[j] in heard;
      if again[j] != heard[j] {
        StoredObject(s, cs, t, j);
      }
    }
  }

  /** A new object that was written to is stored, behind the old ones. */
  lemma StoredObject(s: RefState, cs: seq<CapturedIntent>, t: RefState, j: nat)
    requires Covers(s, cs) && Covers(t, cs) && Covers(s, s.intents) && WellKinded(s) && WellKinded(t) && j < |cs|
    requires s.intents <= t.intents && t.heap.Keys == s.heap.Keys
    requires FirstOfKind(t.intents, cs) && OfNewKinds(s.intents, t.intents, cs) && OnlyStoredChange(s, t)
    requires ValuesIn(t) == MergeAll(ValuesIn(s), HeardIn(s, cs))
    requires DistinctKinds(ValuesIn(s).intents) && MerelyHeard(HeardIn(s, cs))
    requires HeardIn(t, cs)[j] != HeardIn(s, cs)[j]
    ensures HeardIn(t, cs)[j].status == Captured
    ensures IsStored(ValuesIn(s), HeardIn(s, cs), HeardIn(t, cs), j)
  {
    hide MergeAll, SlotAt;
    var c := cs[j];
    assert c in t.intents;
    var p: nat :| p < |t.intents| && t.intents[p] == c;
    assert ValuesIn(t).intents[p] == t.heap[c];
    MergeExtends(ValuesIn(s), HeardIn(s, cs));
    StoredSlots(ValuesIn(t), p);
    assert !HoldsKind(s.intents, c.kind);
    assert forall i :: 0 <= i < |s.intents| ==> s.intents[i] in s.intents && t.intents[i] == s.intents[i];
  }

  lemma StoredSlots(s: StateValue, p: nat)
    requires DistinctKinds(s.intents) && p < |s.intents|
    ensures var v := s.intents[p];
            forall n :: SlotAt(s, v.kind, n) == if n in v.slots then Some(v.slots[n]) else None
  {
    FindDistinct(s.intents, p);
  }
}
