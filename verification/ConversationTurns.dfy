/** Where the words of a call come from: the turns of a conversation that the machine takes its data from, found in
    the transcript alone. */
module ConversationTurns {
  import opened Wrappers
  import opened Decimal
  import opened Texts
  import opened ConversationFsm
  import opened ConversationRuns
  import Clock = ClockText

  // ----- The decisive turns, read off the transcript -----

  /** An utterance that names one of the two intents and not the other. */
  predicate NamesAnIntent(u: Heard) {
    u.order != u.reservation
  }

  predicate NamesTheCaller(u: Heard) {
    u.nameWords != [] && |PickName(u.nameWords)| > 1
  }

  predicate NamesAPayment(u: Heard) {
    u.cash || u.card || u.online
  }

  predicate InOrder(us: seq<Heard>, turns: seq<nat>) {
    && (forall s :: 0 <= s < |turns| ==> turns[s] < |us|)
    && (forall s, r :: 0 <= s < r < |turns| ==> turns[s] < turns[r])
  }

  /** The caller wants an order, and asks for delivery in the very turn after giving the name. */
  predicate WantsDelivery(us: seq<Heard>, turns: seq<nat>)
    requires InOrder(us, turns)
  {
    |turns| > 2 && us[turns[0]].order && turns[2] + 1 < |us| && us[turns[2] + 1].delivery
  }

  /** Turn `i` gives what is due once the eight decisive turns up to now have been found: intent, phone, name; then
      address, items and payment, or date, time and party size; then a yes; then anything at all. */
  predicate Gives(us: seq<Heard>, turns: seq<nat>, i: nat)
    requires InOrder(us, turns) && i < |us|
  {
    var u := us[i];
    match |turns|
    case 0 => NamesAnIntent(u)
    case 1 => Truthy(u.phone)
    case 2 => NamesTheCaller(u)
    case 3 => if us[turns[0]].order then WantsDelivery(us, turns) ==> u.address.Some? else Truthy(u.date)
    case 4 => if us[turns[0]].order then u.items != [] else u.time.Some?
    case 5 => if us[turns[0]].order then NamesAPayment(u) else u.size.Some?
    case 6 => u.yes
    case 7 => true
    case _ => false
  }

  /** The decisive turns of a conversation. */
  function Turns(us: seq<Heard>): (turns: seq<nat>)
    ensures InOrder(us, turns)
  {
    if us == [] then []
    else
      var before := Turns(us[..|us| - 1]);
      if Gives(us, before, |us| - 1) then before + [|us| - 1] else before
  }

  // ----- The state they stand for -----

  function PhaseAt(order: bool, n: nat): Phase {
    if n == 0 then Greeting
    else if n < 3 || (n == 3 && order) then Info
    else if n < 6 then OrderOrReserve
    else if n == 6 then Readback
    else if n == 7 then Committed
    else PostCommit
  }

  function SlotsAt(us: seq<Heard>, turns: seq<nat>): SlotData
    requires InOrder(us, turns) && WellGiven(us, turns)
  {
    var n := |turns|;
    var order := n > 0 && us[turns[0]].order;
    var delivery := WantsDelivery(us, turns);
    SlotData(
      if n > 1 then us[turns[1]].phone else None,
      if n > 2 then Some(PickName(us[turns[2]].nameWords)) else None,
      if n > 3 && delivery then Some(us[turns[3]].address.value.street) else None,
      if n > 3 && delivery then Some(us[turns[3]].address.value.city) else None,
      if n > 3 && delivery then us[turns[3]].address.value.postcode else None,
      if n > 4 && order then us[turns[4]].items else [],
      if delivery then Some(Delivery) else None,
      if n > 5 && order then HeardPayment(us[turns[5]]) else None,
      if n > 3 && !order then us[turns[3]].date else None,
      if n > 4 && !order then Some(ClockText(us[turns[4]].time.value)) else None,
      if n > 5 && !order then Some(us[turns[5]].size.value) else None,
      if n == 0 then None else Some(if order then Order else Reservation),
      n > 6)
  }

  /** Each decisive turn gives what was due. */
  predicate WellGiven(us: seq<Heard>, turns: seq<nat>)
    requires InOrder(us, turns)
  {
    && |turns| <= 8
    && (|turns| > 0 ==> NamesAnIntent(us[turns[0]]))
    && (|turns| > 1 ==> Truthy(us[turns[1]].phone))
    && (|turns| > 2 ==> NamesTheCaller(us[turns[2]]))
    && (|turns| > 3 && us[turns[0]].order && WantsDelivery(us, turns) ==> us[turns[3]].address.Some?)
    && (|turns| > 3 && !us[turns[0]].order ==> Truthy(us[turns[3]].date))
    && (|turns| > 4 && us[turns[0]].order ==> us[turns[4]].items != [])
    && (|turns| > 4 && !us[turns[0]].order ==> us[turns[4]].time.Some?)
    && (|turns| > 5 && us[turns[0]].order ==> NamesAPayment(us[turns[5]]))
    && (|turns| > 5 && !us[turns[0]].order ==> us[turns[5]].size.Some?)
    && (|turns| > 6 ==> us[turns[6]].yes)
  }

  /** Later turns change neither what was wanted nor what was given; only the turn after the name matters. */
  lemma Longer(us: seq<Heard>, u: Heard, turns: seq<nat>)
    requires InOrder(us, turns)
    ensures InOrder(us + [u], turns)
    ensures WantsDelivery(us + [u], turns) <==>
              if |turns| > 2 && turns[2] + 1 == |us| then us[turns[0]].order && u.delivery else WantsDelivery(us, turns)
  {
  }

  /** What the machine answers when `n` decisive turns were found before, and this one is or is not another. */
  function HintAt(order: bool, delivery: bool, n: nat, given: bool, question: bool): Hint {
    match n
    case 0 => if given then ConfirmIntent else AskForIntent
    case 1 => if given then ConfirmPhone else AskForPhone
    case 2 => if !given then AskForName else if order then AskForOrderType else InfoComplete
    case 3 =>
      if order then (if !given then AskForAddress else if delivery then ConfirmAddress else InfoComplete)
      else if given then ConfirmDate else AskForDate
    case 4 =>
      if order then (if given then ConfirmItems else AskForOrderItems)
      else if given then ConfirmTime else AskForTime
    case 5 =>
      if order then (if given then ConfirmPayment else AskForPayment)
      else if given then ConfirmPartySize else AskForPartySize
    case 6 => if given then ConfirmedHint else AskForConfirmation
    case 7 => ToolExecuted
    case _ => if question then OfferFaq else Farewell
  }

  /** The machine's state is what the decisive turns say, slot by slot. */
  predicate Reads(us: seq<Heard>, turns: seq<nat>, st: State) {
    && InOrder(us, turns) && WellGiven(us, turns)
    && st == State(PhaseAt(|turns| > 0 && us[turns[0]].order, |turns|), SlotsAt(us, turns))
    && (|turns| == 3 && us[turns[0]].order && turns[2] + 1 < |us| ==> WantsDelivery(us, turns))
  }

  /** One turn keeps that, and is answered by what it gives. */
  predicate Follows(us: seq<Heard>, u: Heard, turns: seq<nat>, st: State)
    requires InOrder(us, turns)
  {
    var all, order := us + [u], |turns| > 0 && us[turns[0]].order;
    var r := Step(st.phase, st.slots, u);
    && InOrder(all, turns)
    && var given := Gives(all, turns, |us|);
       && Reads(all, if given then turns + [|us|] else turns, State(r.nextState, r.slots))
       && r.hint == HintAt(order, WantsDelivery(all, turns), |turns|, given, u.question)
       && (r.confirmationGate <==> |turns| == 6) && r.phase == st.phase
  }

  lemma ContactFollows(us: seq<Heard>, u: Heard, turns: seq<nat>, st: State)
    requires Reads(us, turns, st) && |turns| < 3
    ensures Follows(us, u, turns, st)
  {
    hide PickName;
    Longer(us, u, turns);
  }

  lemma AddressFollows(us: seq<Heard>, u: Heard, turns: seq<nat>, st: State)
    requires Reads(us, turns, st) && |turns| == 3 && us[turns[0]].order
    ensures Follows(us, u, turns, st)
  {
    hide PickName;
    Longer(us, u, turns);
  }

  lemma ItemsFollow(us: seq<Heard>, u: Heard, turns: seq<nat>, st: State)
    requires Reads(us, turns, st) && |turns| == 4 && us[turns[0]].order
    ensures Follows(us, u, turns, st)
  {
    hide PickName;
    Longer(us, u, turns);
  }

  lemma PaymentFollows(us: seq<Heard>, u: Heard, turns: seq<nat>, st: State)
    requires Reads(us, turns, st) && |turns| == 5 && us[turns[0]].order
    ensures Follows(us, u, turns, st)
  {
    hide PickName;
    Longer(us, u, turns);
  }

  lemma DateFollows(us: seq<Heard>, u: Heard, turns: seq<nat>, st: State)
    requires Reads(us, turns, st) && |turns| == 3 && !us[turns[0]].order
    ensures Follows(us, u, turns, st)
  {
    hide PickName;
    Longer(us, u, turns);
  }

  lemma ReserveFollows(us: seq<Heard>, u: Heard, turns: seq<nat>, st: State)
    requires Reads(us, turns, st) && 4 <= |turns| < 6 && !us[turns[0]].order
    ensures Follows(us, u, turns, st)
  {
    hide PickName;
    Longer(us, u, turns);
  }

  /** Once six turns are found, all that can be added is the confirmation. */
  lemma LaterSlots(us: seq<Heard>, u: Heard, turns: seq<nat>)
    requires InOrder(us, turns) && WellGiven(us, turns) && |turns| >= 6
    ensures var all := us + [u];
            && InOrder(all, turns) && WellGiven(all, turns) && SlotsAt(all, turns) == SlotsAt(us, turns)
            && (|turns| < 8 && (|turns| == 6 ==> u.yes) ==>
                  && InOrder(all, turns + [|us|]) && WellGiven(all, turns + [|us|])
                  && SlotsAt(all, turns + [|us|]) == SlotsAt(us, turns).(confirmed := true))
  {
    hide PickName, HeardPayment, Truthy, NamesTheCaller, NamesAnIntent, NamesAPayment, ClockText;
    Longer(us, u, turns);
  }

  lemma ReadbackFollows(us: seq<Heard>, u: Heard, turns: seq<nat>, st: State)
    requires Reads(us, turns, st) && |turns| == 6
    ensures Follows(us, u, turns, st)
  {
    hide PickName, ItemLines, TotalPrice, SlotsAt, WantsDelivery, OrderCall, ReservationCall;
    Longer(us, u, turns);
    LaterSlots(us, u, turns);
    ConfirmedAt(us, turns);
    ReadbackOrLater(us, u, turns, st);
  }

  lemma CommittedFollows(us: seq<Heard>, u: Heard, turns: seq<nat>, st: State)
    requires Reads(us, turns, st) && |turns| == 7
    ensures Follows(us, u, turns, st)
  {
    hide PickName, ItemLines, TotalPrice, SlotsAt, WantsDelivery, OrderCall, ReservationCall;
    Longer(us, u, turns);
    LaterSlots(us, u, turns);
    ConfirmedAt(us, turns);
    ReadbackOrLater(us, u, turns, st);
  }

  lemma PostCommitFollows(us: seq<Heard>, u: Heard, turns: seq<nat>, st: State)
    requires Reads(us, turns, st) && |turns| == 8
    ensures Follows(us, u, turns, st)
  {
    hide PickName, ItemLines, TotalPrice, SlotsAt, WantsDelivery, OrderCall, ReservationCall;
    Longer(us, u, turns);
    LaterSlots(us, u, turns);
    ConfirmedAt(us, turns);
    ReadbackOrLater(us, u, turns, st);
  }

  lemma ConfirmedAt(us: seq<Heard>, turns: seq<nat>)
    requires InOrder(us, turns) && WellGiven(us, turns)
    ensures SlotsAt(us, turns).confirmed <==> |turns| > 6
  {
  }

  lemma ReadbackOrLater(us: seq<Heard>, u: Heard, turns: seq<nat>, st: State)
    requires InOrder(us, turns) && |turns| >= 6 && st.phase == PhaseAt(us[turns[0]].order, |turns|)
    ensures st.phase == if |turns| == 6 then Readback else if |turns| == 7 then Committed else PostCommit
  {
  }

  lemma StepFollows(us: seq<Heard>, u: Heard, turns: seq<nat>, st: State)
    requires Reads(us, turns, st)
    ensures Follows(us, u, turns, st)
  {
    if |turns| < 3 {
      ContactFollows(us, u, turns, st);
    } else if |turns| == 6 {
      ReadbackFollows(us, u, turns, st);
    } else if |turns| == 7 {
      CommittedFollows(us, u, turns, st);
    } else if |turns| == 8 {
      PostCommitFollows(us, u, turns, st);
    } else if !us[turns[0]].order {
      if |turns| == 3 {
        DateFollows(us, u, turns, st);
      } else {
        ReserveFollows(us, u, turns, st);
      }
    } else if |turns| == 3 {
      AddressFollows(us, u, turns, st);
    } else if |turns| == 4 {
      ItemsFollow(us, u, turns, st);
    } else {
      PaymentFollows(us, u, turns, st);
    }
  }

  lemma TurnsStep(us: seq<Heard>, u: Heard)
    ensures InOrder(us + [u], Turns(us))
    ensures Turns(us + [u]) == if Gives(us + [u], Turns(us), |us|) then Turns(us) + [|us|] else Turns(us)
  {
    assert (us + [u])[..|us|] == us;
  }

  // ----- Main results -----

  /** The machine after any conversation, phase and all thirteen slots, is what its decisive turns say. */
  lemma {:induction false} StateIsWhatWasHeard(us: seq<Heard>)
    ensures WellGiven(us, Turns(us))
    ensures After(us).phase == PhaseAt(|Turns(us)| > 0 && us[Turns(us)[0]].order, |Turns(us)|)
    ensures After(us).slots == SlotsAt(us, Turns(us))
    ensures Reads(us, Turns(us), After(us))
  {
    if us != [] {
      hide Step, Gives, SlotsAt, PhaseAt, WantsDelivery, WellGiven;
      var front, u := us[..|us| - 1], us[|us| - 1];
      assert us == front + [u];
      StateIsWhatWasHeard(front);
      StepFollows(front, u, Turns(front), After(front));
      TurnsStep(front, u);
    }
  }

  /** Every answer of the machine follows from the turns found so far and from what this turn gives. */
  lemma {:induction false} AnswersFollowTheTurns(us: seq<Heard>, u: Heard)
    ensures var turns, all := Turns(us), us + [u];
            && InOrder(all, turns)
            && var r := LastResult(all);
               && r.hint == HintAt(|turns| > 0 && us[turns[0]].order, WantsDelivery(all, turns), |turns|,
                                   Gives(all, turns, |us|), u.question)
               && (r.confirmationGate <==> |turns| == 6) && r.phase == After(us).phase
               && r.nextState == After(all).phase && r.slots == After(all).slots
  {
    hide Step, Gives, SlotsAt, PhaseAt, WantsDelivery, WellGiven;
    StateIsWhatWasHeard(us);
    StepFollows(us, u, Turns(us), After(us));
    assert (us + [u])[..|us|] == us;
  }

  /** Turn number `s` is the first after the one before that gives what is due; or, beyond the last, none is. */
  predicate IsFirst(us: seq<Heard>, turns: seq<nat>, s: nat)
    requires InOrder(us, turns) && s <= |turns|
  {
    var from := if s == 0 then 0 else turns[s - 1] + 1;
    && InOrder(us, turns[..s])
    && (s < |turns| ==> Gives(us, turns[..s], turns[s]))
    && forall i :: from <= i < (if s < |turns| then turns[s] else |us|) ==> !Gives(us, turns[..s], i)
  }

  /** The decisive turns are the earliest possible, and while not all eight are found, nothing that is due was
      given since the last. */
  lemma {:induction false} TurnsAreTheFirst(us: seq<Heard>, s: nat)
    requires s <= |Turns(us)|
    ensures IsFirst(us, Turns(us), s)
  {
    if us != [] {
      hide Gives, Turns, IsFirst;
      var front, u := us[..|us| - 1], us[|us| - 1];
      assert us == front + [u];
      TurnsStep(front, u);
      if s <= |Turns(front)| {
        TurnsAreTheFirst(front, s);
        FirstStep(front, u, Turns(front), s);
      } else {
        NothingAfter(us, Turns(us));
      }
    }
  }

  lemma FirstStep(us: seq<Heard>, u: Heard, turns: seq<nat>, s: nat)
    requires InOrder(us, turns) && s <= |turns| && IsFirst(us, turns, s)
    ensures InOrder(us + [u], turns)
    ensures var more := if Gives(us + [u], turns, |us|) then turns + [|us|] else turns;
            InOrder(us + [u], more) && IsFirst(us + [u], more, s)
  {
    hide Gives;
    var all, from := us + [u], if s == 0 then 0 else turns[s - 1] + 1;
    var more := if Gives(all, turns, |us|) then turns + [|us|] else turns;
    assert more[..s] == turns[..s];
    assert s == |turns| ==> turns[..s] == turns;
    forall i | from <= i < |us|
      ensures InOrder(all, turns[..s]) && (Gives(all, turns[..s], i) <==> Gives(us, turns[..s], i))
    {
      GivesInFront(us, u, turns[..s], i);
    }
    if s < |turns| {
      GivesInFront(us, u, turns[..s], turns[s]);
    }
  }

  lemma NothingAfter(us: seq<Heard>, turns: seq<nat>)
    requires us != [] && InOrder(us, turns) && turns != [] && turns[|turns| - 1] == |us| - 1
    ensures IsFirst(us, turns, |turns|)
  {
    hide Gives;
    assert turns[..|turns|] == turns;
  }

  /** Whether a turn gives what is due does not depend on what is said later. */
  lemma GivesInFront(us: seq<Heard>, u: Heard, turns: seq<nat>, i: nat)
    requires InOrder(us, turns) && i < |us| && (forall s :: 0 <= s < |turns| ==> turns[s] < i)
    ensures InOrder(us + [u], turns) && (Gives(us + [u], turns, i) <==> Gives(us, turns, i))
  {
    hide PickName;
  }

  // ----- What a call says -----

  /** The first capitalised word, or the first word if none is. */
  predicate IsNameIn(name: string, words: seq<Word>) {
    exists i :: 0 <= i < |words| && name == words[i].text
      && (if words[i].capital then forall j :: 0 <= j < i ==> !words[j].capital
          else i == 0 && forall j :: 0 <= j < |words| ==> !words[j].capital)
  }

  /** Cash before card before online. */
  predicate IsPaymentIn(payment: Option<Payment>, u: Heard) {
    && (payment == Some(Cash) <==> u.cash)
    && (payment == Some(Card) <==> u.card && !u.cash)
    && (payment == Some(Online) <==> u.online && !u.card && !u.cash)
  }

  predicate IsLineOf(line: string, item: MenuItem) {
    |line| >= |item.name| + 2 && line[..|item.name|] == item.name && line[|item.name|..|item.name| + 2] == " x"
    && ReadInt(line[|item.name| + 2..]) == Some(item.quantity)
  }

  ghost predicate ListsItems(text: string, items: seq<MenuItem>) {
    exists lines: seq<string> ::
      |lines| == |items| && text == Join("; ", lines) && forall i :: 0 <= i < |items| ==> IsLineOf(lines[i], items[i])
  }

  /** A call made of what these eight turns said, field by field. */
  ghost predicate SaysWhatWasHeard(us: seq<Heard>, turns: seq<nat>, c: ToolCall) {
    && |turns| == 8 && InOrder(us, turns)
    && us[turns[0]].order != us[turns[0]].reservation && us[turns[6]].yes
    && c.phone == us[turns[1]].phone && c.name.Some? && IsNameIn(c.name.value, us[turns[2]].nameWords)
    && match c
       case CreateOrder(_, _, text, kind, payment, address, total) =>
         var wanted := us[turns[2] + 1].delivery;
         && us[turns[0]].order
         && kind == (if wanted then Delivery else Takeaway)
         && address == (if wanted && us[turns[3]].address.Some? then Some(us[turns[3]].address.value.street) else None)
         && ListsItems(text, us[turns[4]].items) && total == TotalPrice(us[turns[4]].items)
         && IsPaymentIn(payment, us[turns[5]])
       case CreateReservation(_, _, date, time, size) =>
         && us[turns[0]].reservation
         && date == us[turns[3]].date
         && us[turns[4]].time.Some? && time.Some? && Clock.ParseClock(time.value) == Some(us[turns[4]].time.value)
         && us[turns[5]].size.Some? && size == Some(us[turns[5]].size.value)
  }

  lemma {:induction false} PickedNameIsIn(words: seq<Word>)
    requires words != []
    ensures IsNameIn(PickName(words), words)
  {
    FirstCapitalIs(words);
  }

  lemma {:induction false} FirstCapitalIs(words: seq<Word>)
    ensures FirstCapital(words).None? ==> forall j :: 0 <= j < |words| ==> !words[j].capital
    ensures FirstCapital(words).Some? ==>
              exists i :: 0 <= i < |words| && words[i].capital && words[i].text == FirstCapital(words).value
                && forall j :: 0 <= j < i ==> !words[j].capital
  {
    if words != [] && !words[0].capital {
      FirstCapitalIs(words[1..]);
      if FirstCapital(words).Some? {
        var i :| 0 <= i < |words| - 1 && words[1..][i].capital && words[1..][i].text == FirstCapital(words).value
          && forall j :: 0 <= j < i ==> !words[1..][j].capital;
        assert words[i + 1] == words[1..][i];
        assert forall j :: 1 <= j < i + 1 ==> words[j] == words[1..][j - 1];
      } else {
        assert forall j :: 1 <= j < |words| ==> words[j] == words[1..][j - 1];
      }
    }
  }

  lemma LineOfItem(item: MenuItem)
    ensures IsLineOf(ItemLine(item), item)
  {
    hide ShowInt, ReadInt;
    ShowIntReadsBack(item.quantity);
    assert ItemLine(item)[..|item.name|] == item.name;
    assert ItemLine(item)[|item.name|..|item.name| + 2] == " x";
    assert ItemLine(item)[|item.name| + 2..] == ShowInt(item.quantity);
  }

  lemma {:induction false} LinesListItems(items: seq<MenuItem>) returns (lines: seq<string>)
    ensures |lines| == |items| && ItemLines(items) == Join("; ", lines)
    ensures forall i :: 0 <= i < |items| ==> IsLineOf(lines[i], items[i])
  {
    hide IsLineOf, ItemLine;
    if items == [] {
      lines := [];
    } else {
      LineOfItem(items[0]);
      var rest := LinesListItems(items[1..]);
      lines := [ItemLine(items[0])] + rest;
      assert lines[1..] == rest;
    }
  }

  lemma ItemsAreListed(items: seq<MenuItem>)
    ensures ListsItems(ItemLines(items), items)
  {
    hide IsLineOf, ItemLines;
    var lines := LinesListItems(items);
  }

  /** Every call says, field by field, what was heard in eight turns, each later than the one before; and a call is
      made as soon as there are eight such turns. */
  lemma {:induction false} CallsSayWhatWasHeard(us: seq<Heard>)
    ensures |Emitted(us)| == if |Turns(us)| == 8 then 1 else 0
    ensures forall k :: 0 <= k < |Emitted(us)| ==> SaysWhatWasHeard(us, Turns(us), Emitted(us)[k])
  {
    hide PickName, ItemLines, TotalPrice, Turns, Emitted, After, IsNameIn, IsPaymentIn, ListsItems, ClockText;
    StateIsWhatWasHeard(us);
    OneCallExactlyAfterCommit(us);
    if |Turns(us)| == 8 {
      CallFromTurns(us, Turns(us));
    }
  }

  lemma CallFromTurns(us: seq<Heard>, turns: seq<nat>)
    requires InOrder(us, turns) && WellGiven(us, turns) && |turns| == 8
    ensures SaysWhatWasHeard(us, turns, CallFor(SlotsAt(us, turns)))
  {
    hide PickName, ItemLines, TotalPrice, IsNameIn, ListsItems, Clock.ParseClock, Show02, IsLineOf;
    PickedNameIsIn(us[turns[2]].nameWords);
    assert turns[2] + 1 <= turns[3];
    if us[turns[0]].order {
      ItemsAreListed(us[turns[4]].items);
    } else {
      var (h, m) := us[turns[4]].time.value;
      Clock.FormatReadsBack(h, m);
    }
  }

  /** The total is additive over the items, each worth price times quantity, and nothing without a price. */
  lemma {:induction false} TotalPriceAdds(a: seq<MenuItem>, b: seq<MenuItem>)
    ensures TotalPrice(a + b) == TotalPrice(a) + TotalPrice(b)
    ensures |a| == 1 ==> TotalPrice(a) == if a[0].price.Some? then a[0].price.value * a[0].quantity as real else 0.0
  {
    if a == [] {
      assert a + b == b;
    } else {
      TotalPriceAdds(a[1..], b);
      assert (a + b)[1..] == a[1..] + b;
    }
  }

  /** So for the object and the conversation it has had. */
  lemma TrackedCallsSayWhatWasHeard(fsm: ConversationFSM, slots: ConversationSlots)
    requires fsm.Tracks(slots)
    ensures WellGiven(fsm.heard, Turns(fsm.heard))
    ensures slots.Data() == SlotsAt(fsm.heard, Turns(fsm.heard))
    ensures forall k :: 0 <= k < |fsm.emitted| ==> SaysWhatWasHeard(fsm.heard, Turns(fsm.heard), fsm.emitted[k])
  {
    hide SlotsAt, WellGiven, SaysWhatWasHeard;
    StateIsWhatWasHeard(fsm.heard);
    CallsSayWhatWasHeard(fsm.heard);
  }

  /** Steps that no fresh conversation takes, for a machine that is handed slots from elsewhere: a known intent passes
      GREETING; with all collected, or no intent, ORDER_OR_RESERVE reports an error and stays; without a confirmation
      COMMITTED reports an error, goes back to READBACK and calls nothing. None of them touches a slot. A party of
      nobody counts as not given. */
  lemma StepsOnForeignSlots(s: SlotData, u: Heard)
    ensures s.intent.Some? ==>
              var r := Step(Greeting, s, u);
              r.phase == Greeting && r.nextState == Info && r.hint == ContinueFlow && IsIdle(r, s)
    ensures s.intent == None
            || (s.intent == Some(Order) && s.items != [] && s.payment.Some?)
            || (s.intent == Some(Reservation) && Truthy(s.date) && Truthy(s.time)
                && s.partySize.Some? && s.partySize != Some(0)) ==>
              var r := Step(OrderOrReserve, s, u);
              r.phase == OrderOrReserve && r.nextState == OrderOrReserve && r.hint == FlowError && IsIdle(r, s)
    ensures !s.confirmed ==>
              var r := Step(Committed, s, u);
              r.phase == Committed && r.nextState == Readback && r.hint == ErrorNotConfirmed && IsIdle(r, s)
    ensures s.intent == Some(Reservation) && s.partySize == Some(0) ==>
              && Step(Committed, s, u).toolCalls == []
              && (Truthy(s.date) && Truthy(s.time) ==>
                    Step(OrderOrReserve, s, u).slots == if u.size.Some? then s.(partySize := Some(u.size.value)) else s)
  {
  }

  /** On any confirmed slots COMMITTED makes one call, that says what the slots say, if an order has items and payment
      or a reservation date, time and somebody to come; and none otherwise. */
  lemma CommitsOnForeignSlots(s: SlotData, u: Heard)
    requires s.confirmed
    ensures var r := Step(Committed, s, u);
            && r.nextState == PostCommit && r.hint == ToolExecuted && r.slots == s
            && |r.toolCalls| ==
                 (if (s.intent == Some(Order) && |s.items| > 0 && s.payment != None)
                     || (s.intent == Some(Reservation) && s.date != None && s.date != Some("")
                         && s.time != None && s.time != Some("") && s.partySize != None && s.partySize != Some(0))
                  then 1 else 0)
            && forall k :: 0 <= k < |r.toolCalls| ==> Carries(r.toolCalls[k], s)
  {
    hide ItemLines, TotalPrice;
  }

  /** An address that is known beforehand is not asked for: with it an order goes on from the name, and from there. */
  lemma KnownAddressesAreNotAsked(s: SlotData, u: Heard)
    requires s.phone.Some? && s.phone.value != "" && s.address.Some? && s.address.value != ""
    ensures s.name.Some? && s.name.value != "" ==>
              var r := Step(Info, s, u);
              && r.nextState == OrderOrReserve && r.hint == InfoComplete
              && r.slots == if u.delivery then s.(orderType := Some(Delivery)) else s
    ensures s.name == None && NamesTheCaller(u) ==>
              Step(Info, s, u).nextState == OrderOrReserve && Step(Info, s, u).hint == InfoComplete
  {
    hide PickName;
  }

  predicate IsIdle(r: StepResult, s: SlotData) {
    r.slots == s && r.toolCalls == [] && !r.confirmationGate
  }
}
