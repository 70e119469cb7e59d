/** What a context document decides, from the intent, the turn and the known slots alone. */
module ContextAnswers {
  import opened Wrappers
  import opened IntentSession
  import opened ContextDoc
  import opened ContextDocLaws
  import opened ClockText

  /** A slot that holds anything but null or blank text. */
  predicate Known(slots: Slots, s: Slot) {
    && s in slots
    && (slots[s].Other?
        || (slots[s].Text? && exists i :: 0 <= i < |slots[s].text| && !IsBlank(slots[s].text[i])))
  }

  lemma {:induction false} StripLeftLeaves(s: string)
    ensures StripLeft(s) == "" <==> forall i :: 0 <= i < |s| ==> IsBlank(s[i])
    ensures StripLeft(s) != "" ==> !IsBlank(StripLeft(s)[0])
  {
    if s != "" && IsBlank(s[0]) {
      StripLeftLeaves(s[1..]);
      assert forall i :: 1 <= i < |s| ==> s[i] == s[1..][i - 1];
    }
  }

  lemma {:induction false} StripRightKeeps(s: string)
    requires s != "" && !IsBlank(s[0])
    ensures StripRight(s) != ""
  {
    if IsBlank(s[|s| - 1]) {
      StripRightKeeps(s[..|s| - 1]);
    }
  }

  lemma NothingToStrip()
    ensures StripRight("") == ""
  {
  }

  lemma KnownIsFilled(slots: Slots, s: Slot)
    ensures Known(slots, s) <==> Filled(slots, s)
  {
    hide StripLeft, StripRight;
    if s in slots && slots[s].Text? {
      var t := slots[s].text;
      StripLeftLeaves(t);
      if StripLeft(t) != "" {
        StripRightKeeps(StripLeft(t));
      } else {
        NothingToStrip();
      }
    }
  }

  predicate BookingKnown(slots: Slots) {
    Known(slots, ReservationDate) && Known(slots, ReservationTime) && Known(slots, PartySize)
  }

  /** Nothing is missing that the turn could be held up for, the phone of a booking or an order aside. */
  predicate Complete(k: IntentKind, slots: Slots) {
    match k
    case Reservation | ModifyReservation => BookingKnown(slots) && Known(slots, CustomerName)
    case Takeaway | Delivery | BulkOrder => Known(slots, OrderItems) && Known(slots, CustomerName)
    case Unknown =>
      BookingKnown(slots) || Known(slots, OrderItems) ==> Known(slots, CustomerName) && Known(slots, PhoneNumber)
    case _ => true
  }

  predicate PhoneKnown(k: IntentKind, slots: Slots) {
    match k
    case Reservation | ModifyReservation | Takeaway | Delivery => Known(slots, PhoneNumber)
    case _ => true
  }

  predicate Closes(t: TurnType) {
    match t
    case Finalize => true
    case Confirm => true
    case _ => false
  }

  lemma CompleteIsNeeded(k: IntentKind, slots: Slots)
    ensures Complete(k, slots) <==> HasAll(slots, NeededToClose(k, slots))
    ensures PhoneKnown(k, slots) <==> (IsReservation(k) || IsOrder(k) ==> Filled(slots, PhoneNumber))
  {
    KnownIsFilled(slots, PartySize);
    KnownIsFilled(slots, ReservationDate);
    KnownIsFilled(slots, ReservationTime);
    KnownIsFilled(slots, CustomerName);
    KnownIsFilled(slots, PhoneNumber);
    KnownIsFilled(slots, OrderItems);
    hide Known, Filled;
  }

  // ----- Main results -----

  /** Which of the four actions is taken. A call ends exactly if goodbye was detected, nothing is missing, the phone
      of a booking or an order included, and the turn does not close; without goodbye it goes on under the same
      condition but for the phone. */
  lemma {:induction false} ActionsAreExact(k: IntentKind, t: TurnType, slots: Slots, goodbye: bool)
    ensures var action := Decide(k, t, slots, goodbye).action;
            && (action == EndCall <==> goodbye && Complete(k, slots) && PhoneKnown(k, slots) && !Closes(t))
            && (action == Say <==> !goodbye && Complete(k, slots) && !Closes(t))
            && (action == Commit <==> Closes(t) && Complete(k, slots) && PhoneKnown(k, slots))
            && (action == Clarify <==>
                  !Complete(k, slots) || ((goodbye || Closes(t)) && !PhoneKnown(k, slots)))
  {
    CompleteIsNeeded(k, slots);
    GateAltersNothing(k, t, slots, goodbye);
    MissingIsExact(k, slots);
    GuardIsExact(k, slots);
    hide Filled, MissingSlots, GuardedSlots, Unfilled, Gate, Decide, NeededToClose, Complete, PhoneKnown, Known;
  }

  /** What may be asked for, in the order of asking. */
  function AskingOrder(k: IntentKind, slots: Slots): seq<Slot> {
    match k
    case Reservation | ModifyReservation => [PartySize, ReservationDate, ReservationTime, CustomerName, PhoneNumber]
    case Takeaway | Delivery => [OrderItems, CustomerName, PhoneNumber]
    case BulkOrder => [OrderItems, CustomerName]
    case Unknown =>
      if BookingKnown(slots) then [PartySize, ReservationDate, ReservationTime, CustomerName, PhoneNumber]
      else [OrderItems, CustomerName, PhoneNumber]
    case _ => []
  }

  ghost predicate IsFirstUnknown(slots: Slots, s: Slot, order: seq<Slot>) {
    exists i :: 0 <= i < |order| && order[i] == s && !Known(slots, s)
      && forall j :: 0 <= j < i ==> Known(slots, order[j])
  }

  lemma {:induction false} FirstUnfilledIsFirstUnknown(slots: Slots, order: seq<Slot>)
    requires Unfilled(slots, order) != []
    ensures IsFirstUnknown(slots, Unfilled(slots, order)[0], order)
  {
    hide Known, Filled;
    KnownIsFilled(slots, order[0]);
    if Filled(slots, order[0]) {
      FirstUnfilledIsFirstUnknown(slots, order[1..]);
      var s := Unfilled(slots, order)[0];
      var i :| 0 <= i < |order| - 1 && order[1..][i] == s && !Known(slots, s)
        && forall j :: 0 <= j < i ==> Known(slots, order[1..][j]);
      assert forall j :: 1 <= j < i + 1 ==> order[j] == order[1..][j - 1];
      assert order[i + 1] == s;
    } else {
      assert order[0] == Unfilled(slots, order)[0];
    }
  }

  lemma {:induction false} WithoutLast(order: seq<Slot>, last: Slot)
    requires last !in order
    ensures Without(order, last) == order
  {
    if order != [] {
      WithoutLast(order[1..], last);
      assert order == [order[0]] + order[1..];
    }
  }

  lemma WithoutFirst(x: Slot, xs: seq<Slot>, s: Slot)
    ensures Without([x] + xs, s) == (if x == s then [] else [x]) + Without(xs, s)
  {
    assert ([x] + xs)[1..] == xs;
  }

  lemma {:induction false} WithoutUnfilledLast(slots: Slots, order: seq<Slot>, last: Slot)
    requires last !in order
    ensures Without(Unfilled(slots, order + [last]), last) == Unfilled(slots, order)
  {
    hide Filled;
    if order == [] {
      assert [] + [last] == [last];
      WithoutLast([], last);
    } else {
      hide Without;
      var rest := order[1..];
      WithoutUnfilledLast(slots, rest, last);
      assert (order + [last])[1..] == rest + [last] && (order + [last])[0] == order[0];
      assert Filled(slots, order[0]) ==> Unfilled(slots, order + [last]) == Unfilled(slots, rest + [last]);
      WithoutFirst(order[0], Unfilled(slots, rest + [last]), last);
    }
  }

  /** The list of missing slots has those of the asking order that are not known, in that order, but for the phone
      of a booking or an order. */
  lemma {:induction false} MissingFollowsTheOrder(k: IntentKind, slots: Slots)
    ensures var order := AskingOrder(k, slots);
            MissingSlots(k, slots) ==
              if k in {Reservation, ModifyReservation, Takeaway, Delivery}
              then Unfilled(slots, order[..|order| - 1])
              else if k == Unknown && !BookingKnown(slots) && !Known(slots, OrderItems) then []
              else Unfilled(slots, order)
  {
    hide Filled, Known, Unfilled, Without;
    KnownIsFilled(slots, PartySize);
    KnownIsFilled(slots, ReservationDate);
    KnownIsFilled(slots, ReservationTime);
    KnownIsFilled(slots, OrderItems);
    var order := AskingOrder(k, slots);
    if k in {Reservation, ModifyReservation} {
      assert order == order[..4] + [PhoneNumber];
      WithoutUnfilledLast(slots, order[..4], PhoneNumber);
    } else if k in {Takeaway, Delivery, BulkOrder} {
      OrderWithoutPhone();
      assert k != BulkOrder ==> order[..2] == [OrderItems, CustomerName];
    } else {
      UnfilledIsExact(slots, []);
    }
  }

  lemma OrderWithoutPhone()
    ensures Without(RequiredSlots(CreateOrder), PhoneNumber) == [OrderItems, CustomerName]
  {
    assert RequiredSlots(CreateOrder)[1..] == [CustomerName, PhoneNumber];
  }

  /** A clarification asks for the first slot of its asking order that is not known. */
  lemma {:induction false} ClarificationsAskInOrder(k: IntentKind, t: TurnType, slots: Slots, goodbye: bool)
    requires Decide(k, t, slots, goodbye).action == Clarify
    ensures var asks := Decide(k, t, slots, goodbye).asks;
            |asks| == 1 && IsFirstUnknown(slots, asks[0], AskingOrder(k, slots))
  {
    hide Filled, Known, Unfilled, MissingSlots, IsFirstUnknown, BookingKnown;
    var order := AskingOrder(k, slots);
    GateAltersNothing(k, t, slots, goodbye);
    MissingFollowsTheOrder(k, slots);
    if MissingSlots(k, slots) != [] {
      if k in {Reservation, ModifyReservation, Takeaway, Delivery} {
        FirstUnfilledIsFirstUnknown(slots, order[..|order| - 1]);
        LongerOrder(slots, MissingSlots(k, slots)[0], order, |order| - 1);
      } else {
        FirstUnfilledIsFirstUnknown(slots, order);
      }
    } else {
      UnfilledIsExact(slots, GuardedSlots(k));
      assert k in {Reservation, ModifyReservation, Takeaway, Delivery} && GuardedSlots(k) == order;
      FirstUnfilledIsFirstUnknown(slots, order);
    }
  }

  lemma LongerOrder(slots: Slots, s: Slot, order: seq<Slot>, n: nat)
    requires n <= |order| && IsFirstUnknown(slots, s, order[..n])
    ensures IsFirstUnknown(slots, s, order)
  {
    hide Known;
    var i :| 0 <= i < n && order[..n][i] == s && forall j :: 0 <= j < i ==> Known(slots, order[..n][j]);
    assert order[i] == s && forall j :: 0 <= j < i ==> order[j] == order[..n][j];
  }

  /** Goodbye is detected exactly if the first output of the detector succeeded and raised its flag. */
  lemma {:induction false} GoodbyeIsTheDetectors(outputs: seq<(string, WorkerOutput)>)
    ensures GoodbyeDetected(outputs) <==>
              exists i :: 0 <= i < |outputs| && IsDetector(outputs, i)
                && outputs[i].1.success && RaisesFlag(outputs[i].1.data)
  {
    if outputs != [] && outputs[0].0 != "goodbye_detector" {
      var rest := outputs[1..];
      GoodbyeIsTheDetectors(rest);
      forall i | 0 <= i < |rest|
        ensures IsDetector(outputs, i + 1) <==> IsDetector(rest, i)
      {
        assert rest[i] == outputs[i + 1] && forall j :: 0 <= j < i ==> rest[j] == outputs[j + 1];
      }
      if i :| 0 <= i < |rest| && IsDetector(rest, i) && rest[i].1.success && RaisesFlag(rest[i].1.data) {
        assert IsDetector(outputs, i + 1) && outputs[i + 1] == rest[i];
      }
      if i :| 0 <= i < |outputs| && IsDetector(outputs, i) && outputs[i].1.success && RaisesFlag(outputs[i].1.data) {
        assert i > 0 && IsDetector(rest, i - 1);
      }
    } else if outputs != [] {
      assert IsDetector(outputs, 0);
    }
  }

  predicate IsDetector(outputs: seq<(string, WorkerOutput)>, i: nat)
    requires i < |outputs|
  {
    outputs[i].0 == "goodbye_detector" && forall j :: 0 <= j < i ==> outputs[j].0 != "goodbye_detector"
  }

  predicate RaisesFlag(data: Slots) {
    var key := OtherKey("is_goodbye");
    key in data && ((data[key].Text? && data[key].text != "") || (data[key].Other? && data[key].truthy))
  }

  /** The map holds for a key what the last successful worker with a value for it found, if there is one. */
  ghost predicate HoldsTheLast(found: Slots, outputs: seq<(string, WorkerOutput)>, key: Slot) {
    && (key in found <==> exists i :: 0 <= i < |outputs| && Finds(outputs[i].1, key))
    && (forall i :: 0 <= i < |outputs| && IsLastToFind(outputs, i, key) && key in found ==>
          found[key] == outputs[i].1.data[key])
  }

  lemma FoundStep(found: Slots, more: Slots, front: seq<(string, WorkerOutput)>, o: (string, WorkerOutput), key: Slot)
    requires HoldsTheLast(found, front, key)
    requires key in more <==> Finds(o.1, key) || key in found
    requires key in more ==> more[key] == if Finds(o.1, key) then o.1.data[key] else found[key]
    ensures HoldsTheLast(more, front + [o], key)
  {
    var all := front + [o];
    assert all[|front|] == o && forall i :: 0 <= i < |front| ==> all[i] == front[i];
    if i :| 0 <= i < |front| && Finds(front[i].1, key) {
      assert Finds(all[i].1, key);
    }
    forall i | 0 <= i < |all| && IsLastToFind(all, i, key) && key in more
      ensures more[key] == all[i].1.data[key]
    {
      if i < |front| {
        assert IsLastToFind(front, i, key);
        assert !Finds(all[|front|].1, key);
      }
    }
  }

  /** For every key the last successful worker with a value for it wins. */
  lemma {:induction false} LastWorkerWins(outputs: seq<(string, WorkerOutput)>, key: Slot)
    ensures HoldsTheLast(Resolved(outputs), outputs, key)
  {
    hide HoldsTheLast, NonNull;
    if outputs == [] {
      NothingFound(key);
    } else {
      var front, o := outputs[..|outputs| - 1], outputs[|outputs| - 1];
      LastWorkerWins(front, key);
      NonNullIs(o.1.data, key);
      assert outputs == front + [o];
      FoundStep(Resolved(front), Resolved(outputs), front, o, key);
    }
  }

  lemma NothingFound(key: Slot)
    ensures HoldsTheLast(Resolved([]), [], key)
  {
  }

  predicate IsLastToFind(outputs: seq<(string, WorkerOutput)>, i: nat, key: Slot)
    requires i < |outputs|
  {
    Finds(outputs[i].1, key) && forall j :: i < j < |outputs| ==> !Finds(outputs[j].1, key)
  }

  predicate Finds(o: WorkerOutput, key: Slot) {
    o.success && key in o.data && !o.data[key].Null?
  }

  lemma NonNullIs(data: Slots, key: Slot)
    ensures key in NonNull(data) <==> key in data && !data[key].Null?
    ensures key in NonNull(data) ==> NonNull(data)[key] == data[key]
  {
  }

  /** The names of the workers run, in order, and of the failed ones among them. */
  lemma {:induction false} NamesAreThose(outputs: seq<(string, WorkerOutput)>)
    ensures |Names(outputs)| == |outputs| && forall i :: 0 <= i < |outputs| ==> Names(outputs)[i] == outputs[i].0
    ensures forall o :: o in Failed(outputs) <==> o in outputs && !o.1.success
  {
    if outputs != [] {
      NamesAreThose(outputs[..|outputs| - 1]);
    }
  }

  /** A slot that is synchronised takes exactly what was found. */
  lemma SyncedSlotsTakeWhatWasFound(slots: Slots, entities: Slots, s: Slot)
    ensures var taken := s in {ReservationTime, ReservationDate, PartySize, CustomerName, PhoneNumber}
                         && s in entities && !Known(slots, s);
            && (taken ==> s in Synced(slots, entities) && Synced(slots, entities)[s] == entities[s])
            && (!taken ==> (s in Synced(slots, entities) <==> s in slots))
            && (!taken && s in slots ==> Synced(slots, entities)[s] == slots[s])
  {
    hide Known, Filled;
    KnownIsFilled(slots, s);
  }

  /** The tools that a document never commits need no less than those it does: changing a booking takes all that making
      one takes, a message takes the phone, and a transfer takes nothing. */
  lemma OtherToolsNeed(s: Slot)
    ensures s in RequiredSlots(ModifyReservationTool) <==> s in RequiredSlots(CreateReservation)
    ensures s in RequiredSlots(SendSms) <==> s == PhoneNumber
    ensures s !in RequiredSlots(TransferToHuman)
  {
  }

  /** On any document, not only those that are built, the gate turns a commit with a slot missing into a question
      without a tool, an invalid document into a question, and leaves everything else as it is. */
  lemma GateIsExact(d: Decision, schemaValid: bool)
    ensures var g := Gate(d, schemaValid);
            && g.asks == d.asks && g.missing == d.missing
            && (!schemaValid ==> g.action == Clarify && g.tool == d.tool)
            && (schemaValid && d.action == Commit && d.missing != [] ==> g.action == Clarify && g.tool == None)
            && (schemaValid && (d.action != Commit || d.missing == []) ==> g == d)
  {
  }
}
