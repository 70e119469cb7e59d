/** What merging, status changes and whole calls can and cannot do to captured intents. */
module IntentLaws {
  import opened Wrappers
  import opened CapturedIntents
  import opened IntentMerge

  /** The shape of parsed intents: newly captured, with every slot merely heard. */
  predicate MerelyHeard(vs: seq<IntentValue>) {
    forall v :: v in vs ==> v.status == Captured && forall n :: n in v.slots ==> v.slots[n].status == SlotFilled
  }

  lemma {:induction false} ParsingMerelyHears(es: seq<RawEntry>, turn: int)
    ensures MerelyHeard(ParsedEntries(es, turn))
    ensures forall v :: v in ParsedEntries(es, turn) ==> v.slots.Keys <= RECOGNISED
  {
    if es != [] {
      ParsingMerelyHears(es[..|es| - 1], turn);
    }
  }

  // ----- Shape of a merge -----

  predicate HasKind(vs: seq<IntentValue>, k: IntentKind) {
    exists i :: 0 <= i < |vs| && vs[i].kind == k
  }

  /** `t` is `s` with slots possibly rewritten and new intents of new kinds behind it. */
  predicate Extends(s: StateValue, t: StateValue) {
    && |s.intents| <= |t.intents|
    && (forall i :: 0 <= i < |s.intents| ==> t.intents[i] == s.intents[i].(slots := t.intents[i].slots))
    && (forall i :: 0 <= i < |s.intents| && Frozen(s.intents[i].status) ==> t.intents[i] == s.intents[i])
    && (forall i :: |s.intents| <= i < |t.intents| ==> t.intents[i].status == Captured)
    && (DistinctKinds(s.intents) ==> DistinctKinds(t.intents))
    && t.current == if s.current.None? && |s.intents| < |t.intents| then Some(|s.intents|) else s.current
  }

  lemma MergeOneExtends(s: StateValue, v: IntentValue)
    requires v.status == Captured
    ensures Extends(s, MergeOne(s, v))
    ensures HasKind(MergeOne(s, v).intents, v.kind)
    ensures HasKind(s.intents, v.kind) ==> |MergeOne(s, v).intents| == |s.intents|
  {
    var t := MergeOne(s, v);
    assert t.intents[Find(s.intents, v.kind)].kind == v.kind;
  }

  lemma ExtendsIsTransitive(s: StateValue, t: StateValue, u: StateValue)
    requires Extends(s, t) && Extends(t, u)
    ensures Extends(s, u)
  {
  }

  lemma ExtendsKeepsKind(s: StateValue, t: StateValue, k: IntentKind)
    requires Extends(s, t) && HasKind(s.intents, k)
    ensures HasKind(t.intents, k)
  {
    var i :| 0 <= i < |s.intents| && s.intents[i].kind == k;
    assert t.intents[i].kind == k;
  }

  /** Merging keeps old intents in front with kind, status, turn and result untouched, leaves frozen ones
      alone, adds each missing kind once, keeps kinds distinct, and sets the current index once. */
  lemma {:induction false} MergeExtends(s: StateValue, heard: seq<IntentValue>)
    requires MerelyHeard(heard)
    ensures Extends(s, MergeAll(s, heard))
    ensures forall v :: v in heard ==> HasKind(MergeAll(s, heard).intents, v.kind)
    ensures (forall v :: v in heard ==> HasKind(s.intents, v.kind)) ==> |MergeAll(s, heard).intents| == |s.intents|
  {
    if heard != [] {
      hide MergeOne, Extends, HasKind;
      var front, v := heard[..|heard| - 1], heard[|heard| - 1];
      var mid := MergeAll(s, front);
      MergeExtends(s, front);
      MergeOneExtends(mid, v);
      ExtendsIsTransitive(s, mid, MergeOne(mid, v));
      forall w | w in heard
        ensures HasKind(MergeOne(mid, v).intents, w.kind)
      {
        if w in front {
          ExtendsKeepsKind(mid, MergeOne(mid, v), w.kind);
        }
      }
      if HasKind(s.intents, v.kind) {
        ExtendsKeepsKind(s, mid, v.kind);
      }
    } else {
      assert Extends(s, s);
    }
  }

  /** The current intent index always points into the list. */
  lemma CurrentStaysInRange(s: StateValue, heard: seq<IntentValue>)
    requires MerelyHeard(heard)
    requires s.current.Some? ==> s.current.value < |s.intents|
    ensures var t := MergeAll(s, heard);
            && (t.current.Some? ==> t.current.value < |t.intents|)
            && (s.current.Some? ==> t.current == s.current)
            && (s.intents == [] && s.current.None? && heard != [] ==> t.current == Some(0))
  {
    MergeExtends(s, heard);
    if heard != [] {
      assert HasKind(MergeAll(s, heard).intents, heard[0].kind);
    }
  }

  // ----- What a slot holds after a merge -----

  /** Everything one extraction says about a slot, in order. */
  function Mentions(heard: seq<IntentValue>, k: IntentKind, n: SlotName): seq<SlotValue> {
    if heard == [] then []
    else
      var v := heard[|heard| - 1];
      Mentions(heard[..|heard| - 1], k, n) + if v.kind == k && n in v.slots then [v.slots[n]] else []
  }

  /** The last word wins over a heard slot, and over a confirmed one as soon as any word contradicts it;
      missing and partial entries stay as they are. */
  function Settled(cur: Option<SlotValue>, words: seq<SlotValue>): Option<SlotValue> {
    if words == [] then cur
    else if cur.None? || cur.value.status == SlotFilled then Some(words[|words| - 1])
    else if cur.value.status == SlotConfirmed && Contradicted(cur.value, words) then Some(words[|words| - 1])
    else cur
  }

  predicate Contradicted(cur: SlotValue, words: seq<SlotValue>) {
    exists i :: 0 <= i < |words| && words[i].value != cur.value
  }

  function SlotAt(s: StateValue, k: IntentKind, n: SlotName): Option<SlotValue> {
    var i := Find(s.intents, k);
    if i < |s.intents| && n in s.intents[i].slots then Some(s.intents[i].slots[n]) else None
  }

  predicate FrozenKind(s: StateValue, k: IntentKind) {
    var i := Find(s.intents, k);
    i < |s.intents| && Frozen(s.intents[i].status)
  }

  lemma SettledStep(cur: Option<SlotValue>, words: seq<SlotValue>, w: SlotValue)
    requires w.status == SlotFilled && forall v :: v in words ==> v.status == SlotFilled
    ensures var before := Settled(cur, words);
            Settled(cur, words + [w]) == Some(if before.None? then w else MergedSlot(before.value, w))
  {
    var all := words + [w];
    assert all[|words|] == w;
    assert forall i :: 0 <= i < |words| ==> all[i] == words[i];
    if cur.Some? && Contradicted(cur.value, words) {
      var i :| 0 <= i < |words| && words[i].value != cur.value.value;
      assert all[i].value != cur.value.value;
    }
  }

  lemma MentionsAreFilled(heard: seq<IntentValue>, k: IntentKind, n: SlotName)
    requires MerelyHeard(heard)
    ensures forall w :: w in Mentions(heard, k, n) ==> w.status == SlotFilled
  {
  }

  lemma FindIs(vs: seq<IntentValue>, k: IntentKind, i: nat)
    requires i <= |vs| && (i < |vs| ==> vs[i].kind == k)
    requires forall j :: 0 <= j < i ==> vs[j].kind != k
    ensures Find(vs, k) == i
  {
  }

  lemma FindAfterMergeOne(s: StateValue, v: IntentValue, k: IntentKind)
    ensures var t := MergeOne(s, v);
            var i := Find(s.intents, k);
            Find(t.intents, k) == if i < |s.intents| || v.kind == k then i else |t.intents|
  {
    hide MergedSlots;
    var t := MergeOne(s, v);
    var i := Find(s.intents, k);
    FindIs(t.intents, k, if i < |s.intents| || v.kind == k then i else |t.intents|);
  }

  lemma MergeOneSlot(s: StateValue, v: IntentValue, k: IntentKind, n: SlotName)
    ensures var before, after := SlotAt(s, k, n), SlotAt(MergeOne(s, v), k, n);
            if FrozenKind(s, k) || v.kind != k || n !in v.slots then after == before
            else after == Some(if before.None? then v.slots[n] else MergedSlot(before.value, v.slots[n]))
    ensures v.status == Captured ==> (FrozenKind(MergeOne(s, v), k) <==> FrozenKind(s, k))
  {
    FindAfterMergeOne(s, v, k);
    hide Find, MergedSlot;
  }

  /** The sequential merge loop computes exactly the last-word rule, slot by slot. */
  lemma {:induction false} MergeSettlesSlots(s: StateValue, heard: seq<IntentValue>, k: IntentKind, n: SlotName)
    requires MerelyHeard(heard)
    ensures SlotAt(MergeAll(s, heard), k, n) ==
            if FrozenKind(s, k) then SlotAt(s, k, n) else Settled(SlotAt(s, k, n), Mentions(heard, k, n))
    ensures FrozenKind(MergeAll(s, heard), k) <==> FrozenKind(s, k)
  {
    if heard != [] {
      hide MergeOne, SlotAt, FrozenKind, MergedSlot, Settled;
      var front, v := heard[..|heard| - 1], heard[|heard| - 1];
      MergeSettlesSlots(s, front, k, n);
      MergeOneSlot(MergeAll(s, front), v, k, n);
      MentionsAreFilled(front, k, n);
      if v.kind == k && n in v.slots {
        assert v in heard && v.slots[n].status == SlotFilled;
        SettledStep(SlotAt(s, k, n), Mentions(front, k, n), v.slots[n]);
        assert Mentions(heard, k, n) == Mentions(front, k, n) + [v.slots[n]];
      } else {
        assert Mentions(heard, k, n) == Mentions(front, k, n);
      }
    }
  }

  /** A confirmed date is overwritten by another one that is heard, and is then merely heard. */
  lemma {:induction false} ConfirmedSlotIsOverwritten(createdTurn: int, turn: int)
    ensures var confirmed := SlotValue(Some("2026-01-15"), SlotConfirmed, High, createdTurn, false);
            var other := SlotValue(Some("2026-01-16"), SlotFilled, Medium, turn, false);
            var stored := IntentValue(Reservation, Confirmed, map[Date := confirmed], createdTurn, None);
            var heard := IntentValue(Reservation, Captured, map[Date := other], turn, None);
            var s := StateValue([stored], Some(0));
            && SlotAt(s, Reservation, Date) == Some(confirmed)
            && SlotAt(MergeAll(s, [heard]), Reservation, Date) == Some(other)
  {
    var confirmed := SlotValue(Some("2026-01-15"), SlotConfirmed, High, createdTurn, false);
    var other := SlotValue(Some("2026-01-16"), SlotFilled, Medium, turn, false);
    var stored := IntentValue(Reservation, Confirmed, map[Date := confirmed], createdTurn, None);
    var heard := [IntentValue(Reservation, Captured, map[Date := other], turn, None)];
    MergeSettlesSlots(StateValue([stored], Some(0)), heard, Reservation, Date);
    assert heard[..0] == [] && Mentions(heard, Reservation, Date) == [other];
    assert "2026-01-15"[9] != "2026-01-16"[9];
    assert Contradicted(confirmed, [other]);
  }

  lemma FindDistinct(vs: seq<IntentValue>, i: nat)
    requires DistinctKinds(vs) && i < |vs|
    ensures Find(vs, vs[i].kind) == i
  {
  }

  /** Merging the same extraction twice is merging it once, even if it repeats a kind. */
  lemma {:induction false} MergeIsIdempotent(s: StateValue, heard: seq<IntentValue>)
    requires MerelyHeard(heard) && DistinctKinds(s.intents)
    ensures MergeAll(MergeAll(s, heard), heard) == MergeAll(s, heard)
  {
    var once := MergeAll(s, heard);
    var twice := MergeAll(once, heard);
    hide MergeAll, SlotAt;
    MergeExtends(s, heard);
    MergeExtends(once, heard);
    forall i | 0 <= i < |once.intents|
      ensures twice.intents[i] == once.intents[i]
    {
      var k := once.intents[i].kind;
      forall n
        ensures SlotAt(twice, k, n) == SlotAt(once, k, n)
      {
        MergeSettlesSlots(s, heard, k, n);
        MergeSettlesSlots(once, heard, k, n);
        MentionsAreFilled(heard, k, n);
        SettledTwice(SlotAt(s, k, n), Mentions(heard, k, n));
      }
      SameSlots(once, twice, i);
    }
    assert twice.intents == once.intents;
  }

  lemma SettledTwice(cur: Option<SlotValue>, words: seq<SlotValue>)
    requires forall v :: v in words ==> v.status == SlotFilled
    ensures Settled(Settled(cur, words), words) == Settled(cur, words)
  {
  }

  lemma SameSlots(s: StateValue, t: StateValue, i: nat)
    requires DistinctKinds(s.intents) && DistinctKinds(t.intents) && i < |s.intents| && i < |t.intents|
    requires s.intents[i].kind == t.intents[i].kind
    requires forall n :: SlotAt(s, s.intents[i].kind, n) == SlotAt(t, s.intents[i].kind, n)
    ensures s.intents[i].slots == t.intents[i].slots
  {
    FindDistinct(s.intents, i);
    FindDistinct(t.intents, i);
    var k := s.intents[i].kind;
    forall n
      ensures n in s.intents[i].slots <==> n in t.intents[i].slots
      ensures n in s.intents[i].slots ==> s.intents[i].slots[n] == t.intents[i].slots[n]
    {
      assert SlotAt(s, k, n) == SlotAt(t, k, n);
    }
  }

  // ----- Extraction never confirms -----

  /** Every confirmed slot of `t` was the same confirmed slot of `s`. */
  predicate NothingNewlyConfirmed(s: StateValue, t: StateValue) {
    forall i, n :: 0 <= i < |t.intents| && n in t.intents[i].slots && t.intents[i].slots[n].status == SlotConfirmed ==>
      i < |s.intents| && n in s.intents[i].slots && s.intents[i].slots[n] == t.intents[i].slots[n]
  }

  lemma {:induction false} ExtractionNeverConfirms(s: StateValue, heard: seq<IntentValue>)
    requires MerelyHeard(heard)
    ensures NothingNewlyConfirmed(s, MergeAll(s, heard))
  {
    if heard != [] {
      ExtractionNeverConfirms(s, heard[..|heard| - 1]);
      MergeOneNeverConfirms(MergeAll(s, heard[..|heard| - 1]), heard[|heard| - 1]);
    }
  }

  lemma MergeOneNeverConfirms(s: StateValue, v: IntentValue)
    requires forall n :: n in v.slots ==> v.slots[n].status == SlotFilled
    ensures NothingNewlyConfirmed(s, MergeOne(s, v))
  {
  }

  /** After a merge an old intent is ready to commit exactly if it was ready before and, unless it is
      frozen, nothing heard contradicts a required slot; of the new ones only questions are. */
  lemma {:induction false} CommittableAfterMerge(s: StateValue, heard: seq<IntentValue>, i: nat)
    requires MerelyHeard(heard) && DistinctKinds(s.intents) && i < |MergeAll(s, heard).intents|
    ensures var after := MergeAll(s, heard).intents[i];
            if i >= |s.intents| then Committable(after) <==> after.kind == Faq
            else
              Committable(after) <==>
                && Committable(s.intents[i])
                && (Frozen(s.intents[i].status) ||
                    forall n :: n in RequiredSlots(after.kind) && n in s.intents[i].slots ==>
                      !Contradicted(s.intents[i].slots[n], Mentions(heard, after.kind, n)))
  {
    var t := MergeAll(s, heard);
    hide MergeAll;
    MergeExtends(s, heard);
    ExtractionNeverConfirms(s, heard);
    var k := t.intents[i].kind;
    if i >= |s.intents| {
      SomethingIsRequired(k);
    } else {
      FindDistinct(s.intents, i);
      FindDistinct(t.intents, i);
      forall n | n in RequiredSlots(k)
        ensures SlotAt(t, k, n) ==
                if FrozenKind(s, k) then SlotAt(s, k, n) else Settled(SlotAt(s, k, n), Mentions(heard, k, n))
        ensures forall w :: w in Mentions(heard, k, n) ==> w.status == SlotFilled
      {
        MergeSettlesSlots(s, heard, k, n);
        MentionsAreFilled(heard, k, n);
      }
    }
  }

  lemma SomethingIsRequired(k: IntentKind)
    ensures k != Faq ==> exists n :: n in RequiredSlots(k)
  {
    var n := match k
      case ModifyOrder | CancelOrder | OrderStatus | PaymentIssue => OrderIdentifier
      case ModifyReservation | CancelReservation => ReservationIdentifier
      case Complaint => ComplaintType
      case DietaryInquiry => DietaryRestriction
      case _ => Phone;
    assert k != Faq ==> n in RequiredSlots(k);
  }

  // ----- Whole calls -----

  /** An extraction is merged in, or someone asks for a status change. */
  datatype Event =
    | Extract(x: Extraction, turn: int)
    | Transition(index: nat, next: IntentStatus, result: Option<string>)

  function Heard(x: Extraction, turn: int): seq<IntentValue> {
    ParsedEntries(EntriesOf(x), turn)
  }

  function ApplyEvent(s: StateValue, e: Event): StateValue {
    match e
    case Extract(x, turn) => MergeAll(s, Heard(x, turn))
    case Transition(i, next, result) =>
      if i < |s.intents| && Transitioned(s.intents[i], next, result).Some?
      then s.(intents := s.intents[i := Transitioned(s.intents[i], next, result).value])
      else s
  }

  function RunEvents(s: StateValue, es: seq<Event>): StateValue {
    if es == [] then s else ApplyEvent(RunEvents(s, es[..|es| - 1]), es[|es| - 1])
  }

  lemma EventEffects(s: StateValue, e: Event)
    ensures var t := ApplyEvent(s, e);
            && |s.intents| <= |t.intents|
            && (DistinctKinds(s.intents) ==> DistinctKinds(t.intents))
            && (forall i :: 0 <= i < |s.intents| ==>
                  && t.intents[i].kind == s.intents[i].kind
                  && (t.intents[i].status == s.intents[i].status
                      || t.intents[i].status in AllowedTransitions(s.intents[i].status))
                  && (Frozen(s.intents[i].status) ==> t.intents[i] == s.intents[i]))
            && (forall i :: |s.intents| <= i < |t.intents| ==> t.intents[i].status == Captured)
            && (s.current.Some? ==> t.current == s.current)
            && NothingNewlyConfirmed(s, t)
  {
    if e.Extract? {
      ParsingMerelyHears(EntriesOf(e.x), e.turn);
      MergeExtends(s, Heard(e.x, e.turn));
      ExtractionNeverConfirms(s, Heard(e.x, e.turn));
    }
  }

  /** The statuses that merging leaves alone are exactly those that no status change leaves. */
  lemma FrozenAreFinal(status: IntentStatus)
    ensures Frozen(status) <==> status == Completed || status == Cancelled
    ensures Frozen(status) <==> AllowedTransitions(status) == {}
  {
    assert Confirmed in AllowedTransitions(Captured) && Completed in AllowedTransitions(Confirmed);
    assert Confirmed in AllowedTransitions(Failed);
  }

  /** COMPLETED and CANCELLED intents keep everything, for the rest of the call. */
  lemma {:induction false} FrozenForever(s: StateValue, es: seq<Event>, i: nat)
    requires i < |s.intents| && (s.intents[i].status == Completed || s.intents[i].status == Cancelled)
    ensures i < |RunEvents(s, es).intents| && RunEvents(s, es).intents[i] == s.intents[i]
  {
    if es != [] {
      hide ApplyEvent;
      FrozenForever(s, es[..|es| - 1], i);
      EventEffects(RunEvents(s, es[..|es| - 1]), es[|es| - 1]);
    }
  }

  /** Over a whole call, kinds stay distinct and no slot is confirmed by hearing or by status changes;
      so an intent other than a question is ready to commit only if it was ready at the start. */
  lemma {:induction false} CallsNeverBecomeCommittable(s: StateValue, es: seq<Event>)
    requires DistinctKinds(s.intents)
    ensures var t := RunEvents(s, es);
            && DistinctKinds(t.intents) && |s.intents| <= |t.intents|
            && (forall i :: 0 <= i < |s.intents| ==> t.intents[i].kind == s.intents[i].kind)
            && NothingNewlyConfirmed(s, t)
            && (forall i :: 0 <= i < |t.intents| && t.intents[i].kind != Faq && Committable(t.intents[i]) ==>
                  i < |s.intents| && Committable(s.intents[i]))
  {
    hide ApplyEvent, RequiredSlots;
    if es != [] {
      var mid := RunEvents(s, es[..|es| - 1]);
      CallsNeverBecomeCommittable(s, es[..|es| - 1]);
      EventEffects(mid, es[|es| - 1]);
    }
    var t := RunEvents(s, es);
    forall i | 0 <= i < |t.intents| && t.intents[i].kind != Faq && Committable(t.intents[i])
      ensures i < |s.intents| && Committable(s.intents[i])
    {
      SomethingIsRequired(t.intents[i].kind);
      var n :| n in RequiredSlots(t.intents[i].kind);
      assert t.intents[i].slots[n].status == SlotConfirmed;
    }
  }

  /** No intent is COMPLETED without having been CONFIRMED at an earlier point of the same call. */
  lemma {:induction false} CompletedWasConfirmed(es: seq<Event>, i: nat)
    requires i < |RunEvents(StateValue([], None), es).intents|
    requires RunEvents(StateValue([], None), es).intents[i].status == Completed
    ensures exists p :: 0 <= p < |es| && i < |RunEvents(StateValue([], None), es[..p]).intents| &&
              RunEvents(StateValue([], None), es[..p]).intents[i].status == Confirmed
  {
    hide ApplyEvent;
    if es == [] {
      assert false;
    }
    var start := StateValue([], None);
    var last := |es| - 1;
    var mid := RunEvents(start, es[..last]);
    EventEffects(mid, es[last]);
    assert i < |mid.intents|;
    if mid.intents[i].status == Completed {
      CompletedWasConfirmed(es[..last], i);
      var p :| 0 <= p < last && i < |RunEvents(start, es[..last][..p]).intents| &&
        RunEvents(start, es[..last][..p]).intents[i].status == Confirmed;
      assert es[..last][..p] == es[..p];
    } else {
      assert mid.intents[i].status == Confirmed;
    }
  }

  /** At any point of a call the urgency order of what was captured is strict. */
  lemma CapturedUrgencyIsStrict(es: seq<Event>)
    ensures StrictlyAscending(SortByPriority(RunEvents(StateValue([], None), es).intents))
  {
    CallsNeverBecomeCommittable(StateValue([], None), es);
    SortIsStrict(RunEvents(StateValue([], None), es).intents);
  }
}
