/** What an utterance is classified as, and what it does to a session, from the patterns that match it alone. */
module IntentClassification {
  import opened Wrappers
  import opened IntentSession
  import opened IntentSessionRuns

  // ----- The opening turn -----

  predicate IsOrderLike(u: Signals) {
    u.order || u.deliverySignal || u.customerInfo
  }

  predicate IsAddressed(u: Signals) {
    u.deliveryWord || u.addressPhrase
  }

  predicate BooksAtOnce(u: Signals) {
    u.reservation && (u.faq || !IsOrderLike(u))
  }

  predicate OrdersDelivery(u: Signals) {
    IsOrderLike(u) && IsAddressed(u) && !(u.faq && (u.reservation || u.order))
  }

  predicate OrdersTakeaway(u: Signals) {
    (u.order && u.faq && !u.reservation) || (IsOrderLike(u) && !IsAddressed(u) && !(u.faq && u.reservation))
  }

  /** On turn 0 a reservation with a question comes before an order, an order before a plain reservation, and either
      before a greeting; an order is a delivery if it is addressed, unless there is a question with it. */
  lemma {:induction false} OpeningsAreExact(u: Signals)
    requires !u.empty
    ensures var r := Classify(u, 0);
            && (r.intent == Reservation <==> BooksAtOnce(u))
            && (r.intent == Delivery <==> OrdersDelivery(u))
            && (r.intent == Takeaway <==> OrdersTakeaway(u))
            && (r.intent == GreetingIntent <==> !u.reservation && !IsOrderLike(u))
            && r.intent in {Reservation, Delivery, Takeaway, GreetingIntent}
            && r.turnType == (if r.intent == GreetingIntent then StartIntent else AddInformation)
            && r.confidence == (if r.intent == GreetingIntent then 1.0 else 0.85)
            && r.profile == (match r.intent
                             case Reservation => ReservationStart
                             case GreetingIntent => GreetingProfile
                             case _ => OrderStart)
  {
  }

  // ----- Later turns -----

  predicate Confirms(u: Signals) {
    !u.goodbye && u.short && u.confirm
  }

  predicate Denies(u: Signals) {
    !u.goodbye && u.short && u.deny && !u.confirm
  }

  predicate Corrects(u: Signals) {
    !u.goodbye && !(u.short && (u.confirm || u.deny)) && u.correction
  }

  predicate AnswersASlot(u: Signals) {
    !u.goodbye && !(u.short && (u.confirm || u.deny)) && !u.correction && (u.nameSlot || u.phoneSlot)
  }

  /** None of the above, and no goodbye: the domain patterns decide. */
  predicate Talks(u: Signals) {
    !u.goodbye && !(u.short && (u.confirm || u.deny)) && !u.correction && !u.nameSlot && !u.phoneSlot
  }

  predicate Books(u: Signals) {
    Talks(u) && u.reservation && !u.availability
  }

  predicate Asks(u: Signals) {
    Talks(u) && !(u.reservation && !u.availability) && (u.price || u.faq)
  }

  predicate Orders(u: Signals) {
    Talks(u) && !(u.reservation && !u.availability) && !u.price && !u.faq && u.order
  }

  predicate Escalates(u: Signals) {
    Talks(u) && !(u.reservation && !u.availability) && !u.price && !u.faq && !u.order && u.escalation
  }

  predicate Greets(u: Signals, turn: int) {
    && Talks(u) && !(u.reservation && !u.availability) && !u.price && !u.faq && !u.order && !u.escalation
    && u.greeting && turn <= 1
  }

  /** On every other turn the intent is exactly the first of these that the patterns give, and unknown otherwise. */
  lemma {:induction false} IntentsAreExact(u: Signals, turn: int)
    requires !u.empty && turn != 0
    ensures var k := Classify(u, turn).intent;
            && (k == Goodbye <==> u.goodbye)
            && (k == Reservation <==> Books(u))
            && (k == Faq <==> Asks(u))
            && (k == Takeaway <==> Orders(u))
            && (k == GroupCatering <==> Escalates(u) && u.group)
            && (k == PaymentIssue <==> Escalates(u) && !u.group && u.payment)
            && (k == LostAndFound <==> Escalates(u) && !u.group && !u.payment && u.lost)
            && (k == Complaint <==> Escalates(u) && !u.group && !u.payment && !u.lost)
            && (k == GreetingIntent <==> Greets(u, turn))
            && (k == Unknown <==>
                  !u.goodbye && !Books(u) && !Asks(u) && !Orders(u) && !Escalates(u) && !Greets(u, turn))
  {
  }

  /** The kind of turn, and how sure the classifier is of it. */
  lemma {:induction false} TurnTypesAreExact(u: Signals, turn: int)
    requires !u.empty && turn != 0
    ensures var r := Classify(u, turn);
            var known := Books(u) || Asks(u) || Orders(u) || Escalates(u) || Greets(u, turn);
            && (r.turnType == Confirm <==> Confirms(u))
            && (r.turnType == Deny <==> Denies(u))
            && (r.turnType == CorrectPrevious <==> Corrects(u))
            && (r.turnType == Finalize <==> u.goodbye || (known && u.finalize))
            && (r.turnType == AddInformation <==> AnswersASlot(u) || (known && !u.finalize && u.addition))
            && (r.turnType == StartIntent <==> known && !u.finalize && !u.addition)
            && (r.turnType == Unclear <==> Talks(u) && !known)
            && (u.goodbye || Confirms(u) || Denies(u) ==> r.confidence == 0.95)
            && (Corrects(u) || Greets(u, turn) ==> r.confidence == 0.90)
            && (AnswersASlot(u) || (Asks(u) && !u.price) ==> r.confidence == 0.80)
            && (Books(u) || Orders(u) || (Asks(u) && u.price) ==> r.confidence == 0.85)
            && (Escalates(u) ==> r.confidence == 0.82)
            && (r.turnType == Unclear ==> r.confidence == 0.4)
  {
  }

  /** The profile whose workers run. */
  lemma {:induction false} ProfilesAreExact(u: Signals, turn: int)
    requires !u.empty && turn != 0
    ensures var p := Classify(u, turn).profile;
            && (u.goodbye ==> p == GoodbyeProfile)
            && (Confirms(u) || Denies(u) ==> p == GreetingProfile)
            && (Corrects(u) ==> p == CorrectionProfile)
            && (AnswersASlot(u) || Books(u) ==> p == ReservationStart)
            && (Asks(u) ==> p == BusinessInfo)
            && (Orders(u) ==> p == OrderStart)
            && (Escalates(u) ==> p == Escalation)
            && (Talks(u) && !Books(u) && !Asks(u) && !Orders(u) && !Escalates(u) ==> p == GreetingProfile)
  {
  }

  /** Intents share a profile exactly if they are of one group: openings, small talk, information, farewell,
      bookings, new orders, changes to orders, and what goes to a person. */
  lemma {:induction false} ProfilesGroupTheIntents(a: IntentKind, b: IntentKind)
    ensures ProfileOf(a) == ProfileOf(b) <==> GroupOf(a) == GroupOf(b)
  {
  }

  function GroupOf(k: IntentKind): nat {
    match k
    case Unknown | GreetingIntent => 0
    case Smalltalk => 1
    case DietaryInquiry | Faq => 2
    case Goodbye => 3
    case CancelReservation | ModifyReservation | Reservation => 4
    case PreOrder | BulkOrder | Delivery | Takeaway => 5
    case OrderStatus | CancelOrder | ModifyOrder => 6
    case GroupCatering | LostAndFound | PaymentIssue | Complaint => 7
  }

  /** Nothing said is nothing known. */
  lemma SilenceIsUnclear(u: Signals, turn: int)
    requires u.empty
    ensures Classify(u, turn) == IntentResult(Unknown, Unclear, 0.5, None, 0.0, GreetingProfile)
  {
  }

  // ----- Sessions -----

  predicate IsTransaction(k: IntentKind) {
    k != GreetingIntent && k != Faq && k != Smalltalk && k != Unknown && k != DietaryInquiry
  }

  predicate Keeps(u: Signals) {
    Confirms(u) || Denies(u) || Corrects(u)
  }

  /** What the turn leaves in an open session, or in one that is being rerouted. */
  predicate Receives(t: Session, s: Session, u: Signals, turn: int) {
    && (u.goodbye ==> t.primary == Goodbye && t.profile == GoodbyeProfile)
    && (Keeps(u) ==> t.primary == s.primary && t.profile == s.profile)
    && (AnswersASlot(u) ==> t.primary == Unknown && t.profile == ReservationStart)
    && (Books(u) ==> t.primary == Reservation && t.profile == ReservationStart)
    && (Asks(u) ==> t.primary == Faq && t.profile == BusinessInfo)
    && (Orders(u) ==> t.primary == Takeaway && t.profile == OrderStart)
    && (Escalates(u) ==>
          && t.primary == (if u.group then GroupCatering else if u.payment then PaymentIssue
                           else if u.lost then LostAndFound else Complaint)
          && t.profile == Escalation)
    && (Greets(u, turn) ==> t.primary == GreetingIntent && t.profile == GreetingProfile)
    && (Talks(u) && !Books(u) && !Asks(u) && !Orders(u) && !Escalates(u) && !Greets(u, turn) ==>
          t.primary == Unknown && t.profile == GreetingProfile)
  }

  lemma ReceivedStep(s: Session, u: Signals, turn: int)
    requires !u.empty && turn != 0 && (!s.locked || u.reroute)
    requires s.primary == Unknown ==> !s.locked
    ensures Receives(Turn(s, u, turn), s, u, turn)
  {
    hide Classify, Books, Asks, Orders, Escalates, Greets, Keeps, AnswersASlot, Talks, SpansProfiles;
    IntentsAreExact(u, turn);
    ProfilesAreExact(u, turn);
    KeepingTurns(u, turn);
    ClassifierShape(u, turn);
    OneOfThem(u, turn);
  }

  lemma KeepingTurns(u: Signals, turn: int)
    requires !u.empty && turn != 0
    ensures KeepsIntent(Classify(u, turn).turnType) <==> Keeps(u)
    ensures Keeps(u) ==> Classify(u, turn).intent == Unknown
  {
  }

  /** The domain readings exclude each other and everything before them. */
  lemma OneOfThem(u: Signals, turn: int)
    ensures Books(u) || Asks(u) || Orders(u) || Escalates(u) || Greets(u, turn) ==> Talks(u)
    ensures AnswersASlot(u) ==> !Talks(u) && !u.goodbye
    ensures Talks(u) ==> !Keeps(u) && !u.goodbye
    ensures Keeps(u) ==> !AnswersASlot(u)
  {
  }

  lemma LockStep(s: Session, u: Signals, turn: int)
    requires !u.empty && (!s.locked || u.reroute)
    ensures var t := Turn(s, u, turn);
            && (t.locked <==>
                  turn >= 1 && (u.goodbye || Books(u) || Orders(u) || (Keeps(u) && IsTransaction(s.primary))))
            && (t.locked ==>
                  && t.lockedAtTurn == turn
                  && t.lockConfidence ==
                       if u.goodbye || Confirms(u) || Denies(u) then 0.95 else if Corrects(u) then 0.90 else 0.85)
  {
  }

  /** One turn is enough: an open session, or a locked one that is being rerouted, is locked after the turn, from
      turn 1 on, exactly when the caller confirms, denies or corrects under a transaction, or when a reservation, a
      takeaway order or a goodbye is heard; and it is locked on that. Escalations are too unsure to lock. */
  lemma {:induction false} LocksExactlyWhen(turns: seq<(Signals, int)>, u: Signals, turn: int)
    requires !u.empty && (!After(turns).locked || u.reroute)
    ensures var s, t := After(turns), After(turns + [(u, turn)]);
            && (t.locked <==>
                  turn >= 1 && (u.goodbye || Books(u) || Orders(u) || (Keeps(u) && IsTransaction(s.primary))))
            && (t.locked ==>
                  && t.lockedAtTurn == turn
                  && t.lockConfidence ==
                       if u.goodbye || Confirms(u) || Denies(u) then 0.95 else if Corrects(u) then 0.90 else 0.85)
            && (turn != 0 ==> Receives(t, s, u, turn))
  {
    hide After, Turn, Receives, Books, Orders, Keeps, IsTransaction, Confirms, Denies, Corrects;
    AfterOneMore(turns, u, turn);
    LockStep(After(turns), u, turn);
    if turn != 0 {
      LocksAreEarned(turns);
      ReceivedStep(After(turns), u, turn);
    }
  }

  /** An opening turn leaves its own intent and profile, open. */
  lemma {:induction false} OpeningsStayOpen(u: Signals)
    requires !u.empty
    ensures var t := After([(u, 0)]);
            && !t.locked
            && (BooksAtOnce(u) ==> t.primary == Reservation && t.profile == ReservationStart)
            && (OrdersDelivery(u) ==> t.primary == Delivery && t.profile == OrderStart)
            && (OrdersTakeaway(u) ==> t.primary == Takeaway && t.profile == OrderStart)
            && (!u.reservation && !IsOrderLike(u) ==> t.primary == GreetingIntent && t.profile == GreetingProfile)
  {
    assert [(u, 0)][..0] == [] && After([]) == FRESH_SESSION;
    assert After([(u, 0)]) == Turn(FRESH_SESSION, u, 0);
  }

  /** Every turn with words in it is noted, locked or not, and a silent one changes nothing. */
  lemma {:induction false} TurnsAreNoted(turns: seq<(Signals, int)>, u: Signals, turn: int)
    ensures var s, t := After(turns), After(turns + [(u, turn)]);
            && (u.empty ==> t == s)
            && (!u.empty ==> t.turnType == Classify(u, turn).turnType && t.result.Some?
                             && t.result.value.turnType == t.turnType
                             && t.result.value.confidence == Classify(u, turn).confidence)
            && (!u.empty && turn != 0 && Keeps(u) && s.primary != Unknown ==> t.result.value.intent == s.primary)
            && (!u.empty && turn != 0 && !Keeps(u) ==> t.result == Some(Classify(u, turn)))
  {
    hide After;
    AfterOneMore(turns, u, turn);
    NoteStep(After(turns), u, turn);
  }

  lemma NoteStep(s: Session, u: Signals, turn: int)
    ensures var t := Turn(s, u, turn);
            && (u.empty ==> t == s)
            && (!u.empty ==> t.turnType == Classify(u, turn).turnType && t.result.Some?
                             && t.result.value.turnType == t.turnType
                             && t.result.value.confidence == Classify(u, turn).confidence)
            && (!u.empty && turn != 0 && Keeps(u) && s.primary != Unknown ==> t.result.value.intent == s.primary)
            && (!u.empty && turn != 0 && !Keeps(u) ==> t.result == Some(Classify(u, turn)))
  {
    hide Classify;
    ClassifierShape(u, turn);
    if !u.empty && turn != 0 {
      KeepingTurns(u, turn);
    }
  }

  /** Two readings of one utterance span profiles exactly if one is about an order and the other about a booking; the
      classifier gives no second reading, so this never happens in a run. */
  lemma SpanningIsExact(s: Session)
    ensures SpansProfiles(s) <==>
              && s.result.Some? && s.result.value.secondary.Some?
              && {GroupOf(s.primary), GroupOf(s.result.value.secondary.value)} in {{4, 5}, {4, 6}}
              && s.primary != OrderStatus && s.result.value.secondary.value != OrderStatus
  {
    if s.result.Some? && s.result.value.secondary.Some? {
      var a, b := GroupOf(s.primary), GroupOf(s.result.value.secondary.value);
      assert {a, b} == {4, 5} <==> (a == 4 && b == 5) || (a == 5 && b == 4);
      assert {a, b} == {4, 6} <==> (a == 4 && b == 6) || (a == 6 && b == 4);
    }
  }
}
