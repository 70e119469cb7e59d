/** Intent classification and the lock/reroute session: server/brain/intent_classifier.py,
    server/brain/intent_session.py and server/brain/intent_session_manager.py. */
module IntentSession {
  import opened Wrappers

  datatype IntentKind =
    | Takeaway | Delivery | BulkOrder | Reservation | PreOrder
    | ModifyOrder | CancelOrder | OrderStatus | ModifyReservation | CancelReservation
    | Complaint | PaymentIssue | LostAndFound | DietaryInquiry | GroupCatering
    | Faq | Smalltalk | GreetingIntent | Goodbye | Unknown

  datatype TurnType =
    | StartIntent | AddInformation | ModifyInformation | CorrectPrevious | Confirm | Deny
    | AskQuestion | Finalize | Interrupt | Unclear

  datatype Profile =
    | GreetingProfile | SmalltalkProfile | BusinessInfo | GoodbyeProfile | ReservationStart
    | OrderStart | OrderModify | Escalation | CorrectionProfile

  datatype IntentResult = IntentResult(
    intent: IntentKind, turnType: TurnType, confidence: real,
    secondary: Option<IntentKind>, secondaryConfidence: real, profile: Profile)

  /** Which of the classifier's patterns match an utterance. */
  datatype Signals = Signals(
    empty: bool, short: bool,
    reservation: bool, order: bool, faq: bool, deliverySignal: bool, customerInfo: bool,
    deliveryWord: bool, addressPhrase: bool,
    goodbye: bool, confirm: bool, deny: bool, correction: bool, nameSlot: bool, phoneSlot: bool,
    availability: bool, price: bool, escalation: bool, group: bool, payment: bool, lost: bool,
    greeting: bool, finalize: bool, addition: bool, reroute: bool)

  function ProfileOf(k: IntentKind): Profile {
    match k
    case GreetingIntent | Unknown => GreetingProfile
    case Smalltalk => SmalltalkProfile
    case Faq | DietaryInquiry => BusinessInfo
    case Goodbye => GoodbyeProfile
    case Reservation | ModifyReservation | CancelReservation => ReservationStart
    case Takeaway | Delivery | BulkOrder | PreOrder => OrderStart
    case ModifyOrder | CancelOrder | OrderStatus => OrderModify
    case Complaint | PaymentIssue | LostAndFound | GroupCatering => Escalation
  }

  function Plain(intent: IntentKind, turnType: TurnType, confidence: real, profile: Profile): IntentResult {
    IntentResult(intent, turnType, confidence, None, 0.0, profile)
  }

  /** The classifier on the first turn of a call: orders and reservations before greetings. */
  function ClassifyOpening(u: Signals): IntentResult {
    if u.reservation && u.faq then Plain(Reservation, AddInformation, 0.85, ReservationStart)
    else if u.order && u.faq then Plain(Takeaway, AddInformation, 0.85, OrderStart)
    else if u.order || u.deliverySignal || u.customerInfo then
      Plain(if u.deliveryWord || u.addressPhrase then Delivery else Takeaway, AddInformation, 0.85, OrderStart)
    else if u.reservation then Plain(Reservation, AddInformation, 0.85, ReservationStart)
    else Plain(GreetingIntent, StartIntent, 1.0, GreetingProfile)
  }

  /** Intent and confidence from the domain patterns, in order of precedence. */
  function DomainIntent(u: Signals, turn: int): (IntentKind, real) {
    if u.reservation && !u.availability then (Reservation, 0.85)
    else if u.price then (Faq, 0.85)
    else if u.faq then (Faq, 0.80)
    else if u.order then (Takeaway, 0.85)
    else if u.escalation then
      (if u.group then GroupCatering
       else if u.payment then PaymentIssue
       else if u.lost then LostAndFound
       else Complaint,
       0.82)
    else if u.greeting && turn <= 1 then (GreetingIntent, 0.90)
    else (Unknown, 0.4)
  }

  function Classify(u: Signals, turn: int): IntentResult {
    if u.empty then Plain(Unknown, Unclear, 0.5, GreetingProfile)
    else if turn == 0 then ClassifyOpening(u)
    else if u.goodbye then Plain(Goodbye, Finalize, 0.95, GoodbyeProfile)
    else if u.short && u.confirm then Plain(Unknown, Confirm, 0.95, GreetingProfile)
    else if u.short && u.deny then Plain(Unknown, Deny, 0.95, GreetingProfile)
    else if u.correction then Plain(Unknown, CorrectPrevious, 0.90, CorrectionProfile)
    else if u.nameSlot || u.phoneSlot then Plain(Unknown, AddInformation, 0.80, ReservationStart)
    else
      var (intent, confidence) := DomainIntent(u, turn);
      var turnType :=
        if intent.Unknown? then Unclear
        else if u.finalize then Finalize
        else if u.addition then AddInformation
        else StartIntent;
      Plain(intent, turnType, confidence, ProfileOf(intent))
  }

  // ----- The session -----

  datatype RerouteEvent = RerouteEvent(turn: int, oldIntent: IntentKind, newIntent: IntentKind)

  datatype Session = Session(
    primary: IntentKind, profile: Profile,
    locked: bool, lockConfidence: real, lockedAtTurn: int,
    reroutes: seq<RerouteEvent>, turnType: TurnType, result: Option<IntentResult>)

  const FRESH_SESSION: Session := Session(Unknown, GreetingProfile, false, 0.0, -1, [], StartIntent, None)

  const INFO_ONLY: set<IntentKind> := {GreetingIntent, Faq, Smalltalk, Unknown, DietaryInquiry}
  const ORDER_INTENTS: set<IntentKind> := {Takeaway, Delivery, BulkOrder, PreOrder, ModifyOrder, CancelOrder}
  const RESERVATION_INTENTS: set<IntentKind> := {Reservation, ModifyReservation, CancelReservation}

  function Updated(s: Session, r: IntentResult, turn: int): Session {
    var seen := s.(result := Some(r), turnType := r.turnType);
    if s.locked then seen
    else
      var open := seen.(primary := r.intent, profile := r.profile);
      if r.confidence >= 0.85 && turn >= 1 && r.intent !in INFO_ONLY
      then open.(locked := true, lockConfidence := r.confidence, lockedAtTurn := turn)
      else open
  }

  function Rerouted(s: Session, r: IntentResult, turn: int): Session {
    Updated(s.(reroutes := s.reroutes + [RerouteEvent(turn, s.primary, r.intent)], locked := false), r, turn)
  }

  predicate SpansProfiles(s: Session) {
    && s.result.Some? && s.result.value.secondary.Some?
    && var other := s.result.value.secondary.value;
       (s.primary in ORDER_INTENTS && other in RESERVATION_INTENTS)
       || (s.primary in RESERVATION_INTENTS && other in ORDER_INTENTS)
  }

  predicate KeepsIntent(t: TurnType) {
    t == Confirm || t == Deny || t == CorrectPrevious
  }

  /** What the session is told: confirmations, denials and corrections inherit its own intent. */
  function Effective(s: Session, r: IntentResult): IntentResult {
    if KeepsIntent(r.turnType)
    then Plain(if s.primary != Unknown then s.primary else r.intent, r.turnType, r.confidence, s.profile)
    else r
  }

  function Turn(s: Session, u: Signals, turn: int): Session {
    if u.empty then s
    else
      var r := Effective(s, Classify(u, turn));
      if s.locked && u.reroute then Rerouted(s, r, turn)
      else if s.locked && r.secondaryConfidence >= 0.4 && r.secondary.Some? && SpansProfiles(s)
      then Rerouted(s, r, turn)
      else Updated(s, r, turn)
  }

  class SessionState {
    var primary: IntentKind
    var profile: Profile
    var locked: bool
    var lockConfidence: real
    var lockedAtTurn: int
    var reroutes: seq<RerouteEvent>
    var turnType: TurnType
    var result: Option<IntentResult>

    function Value(): Session
      reads this
    {
      Session(primary, profile, locked, lockConfidence, lockedAtTurn, reroutes, turnType, result)
    }

    constructor ()
      ensures Value() == FRESH_SESSION
    {
      primary, profile, locked, lockConfidence, lockedAtTurn := Unknown, GreetingProfile, false, 0.0, -1;
      reroutes, turnType, result := [], StartIntent, None;
    }

    method Update(r: IntentResult, turn: int)
      modifies this
      ensures Value() == Updated(old(Value()), r, turn)
    {
      result := Some(r);
      turnType := r.turnType;
      if locked {
        return;
      }
      primary := r.intent;
      profile := r.profile;
      if r.confidence >= 0.85 && turn >= 1 && r.intent !in INFO_ONLY {
        locked := true;
        lockConfidence := r.confidence;
        lockedAtTurn := turn;
      }
    }

    method ApplyReroute(r: IntentResult, turn: int)
      modifies this
      ensures Value() == Rerouted(old(Value()), r, turn)
    {
      reroutes := reroutes + [RerouteEvent(turn, primary, r.intent)];
      locked := false;
      Update(r, turn);
    }
  }

  class IntentSessionManager {
    const session: SessionState
    var lastRegexResult: Option<IntentResult>
    /** Every turn processed so far. */
    ghost var turns: seq<(Signals, int)>

    ghost predicate Tracks()
      reads this, session
    {
      session.Value() == After(turns)
    }

    constructor ()
      ensures session.Value() == FRESH_SESSION && turns == [] && Tracks() && fresh(session)
    {
      session := new SessionState();
      lastRegexResult, turns := None, [];
    }

    method ProcessTurn(u: Signals, turn: int)
      modifies this, session
      ensures session.Value() == Turn(old(session.Value()), u, turn)
      ensures turns == old(turns) + [(u, turn)]
      ensures old(Tracks()) ==> Tracks()
      ensures lastRegexResult == if u.empty then old(lastRegexResult) else Some(Classify(u, turn))
    {
      hide Classify, Updated;
      turns := turns + [(u, turn)];
      assert turns[..|turns| - 1] == old(turns);
      if u.empty {
        return;
      }
      var rerouteDetected := session.locked && u.reroute;
      var r := Classify(u, turn);
      lastRegexResult := Some(r);
      if KeepsIntent(r.turnType) {
        r := Plain(if session.primary != Unknown then session.primary else r.intent,
                   r.turnType, r.confidence, session.profile);
      }
      if rerouteDetected {
        session.ApplyReroute(r, turn);
      } else if session.locked && r.secondaryConfidence >= 0.4 && r.secondary.Some? && SpansProfiles(session.Value()) {
        session.ApplyReroute(r, turn);
      } else {
        session.Update(r, turn);
      }
    }
  }

  /** The session after a call's turns. */
  function After(turns: seq<(Signals, int)>): Session {
    if turns == [] then FRESH_SESSION
    else
      var (u, turn) := turns[|turns| - 1];
      Turn(After(turns[..|turns| - 1]), u, turn)
  }
}

/** What every call's session obeys. */
module IntentSessionRuns {
  import opened Wrappers
  import opened IntentSession

  predicate Inv(s: Session) {
    && (s.locked ==> s.primary !in INFO_ONLY && s.lockConfidence >= 0.85 && s.lockedAtTurn >= 1)
    && (s.primary != Unknown ==> s.profile == ProfileOf(s.primary))
    && (forall e :: e in s.reroutes ==> e.oldIntent !in INFO_ONLY)
  }

  /** A turn on which the caller's words unlock the session. */
  predicate IsReroute(s: Session, u: Signals) {
    s.locked && u.reroute && !u.empty
  }

  predicate SameLock(s: Session, t: Session) {
    && t.primary == s.primary && t.profile == s.profile
    && t.locked == s.locked && t.lockConfidence == s.lockConfidence && t.lockedAtTurn == s.lockedAtTurn
    && t.reroutes == s.reroutes
  }

  /** Only confirmations, denials, corrections and slot answers come without a table profile, and the
      classifier never reports a second intent. */
  lemma ClassifierShape(u: Signals, turn: int)
    ensures var r := Classify(u, turn);
            && r.secondary.None? && r.secondaryConfidence == 0.0
            && (r.intent != Unknown ==> r.profile == ProfileOf(r.intent))
            && (KeepsIntent(r.turnType) ==> r.intent == Unknown)
  {
  }

  /** One turn: the invariant is kept; the profile-spanning reroute never happens; a locked session keeps
      intent, profile and lock except on a reroute turn; a reroute turn logs what it changed. */
  lemma TurnEffects(s: Session, u: Signals, turn: int)
    requires Inv(s)
    ensures var t := Turn(s, u, turn);
            && Inv(t)
            && (s.locked && !IsReroute(s, u) ==> SameLock(s, t))
            && t.reroutes == s.reroutes + (if IsReroute(s, u) then [RerouteEvent(turn, s.primary, t.primary)] else [])
            && (KeepsIntent(Classify(u, turn).turnType) ==> t.primary == s.primary && t.profile == s.profile)
  {
    ClassifierShape(u, turn);
    hide Classify;
  }

  lemma {:induction false} Reachable(turns: seq<(Signals, int)>)
    ensures Inv(After(turns))
  {
    if turns != [] {
      hide Inv, Turn;
      var front := turns[..|turns| - 1];
      Reachable(front);
      TurnEffects(After(front), turns[|turns| - 1].0, turns[|turns| - 1].1);
    } else {
      assert Inv(FRESH_SESSION);
    }
  }

  // ----- Main results -----

  /** The turn and the confidence the lock remembers are those of this turn. */
  predicate LockedBy(s: Session, turn: (Signals, int)) {
    turn.1 == s.lockedAtTurn && !turn.0.empty && Classify(turn.0, turn.1).confidence == s.lockConfidence
  }

  /** A lock is always on a transaction, at least as confident as the threshold, and never on the first turn. */
  lemma {:induction false} LocksAreEarned(turns: seq<(Signals, int)>)
    ensures var s := After(turns);
            && (s.locked ==> s.primary !in INFO_ONLY && s.lockConfidence >= 0.85 && s.lockedAtTurn >= 1)
            && (s.locked ==> exists i :: 0 <= i < |turns| && LockedBy(s, turns[i]))
            && (s.primary != Unknown ==> s.profile == ProfileOf(s.primary))
  {
    Reachable(turns);
    if turns != [] && After(turns).locked {
      var front, last := turns[..|turns| - 1], |turns| - 1;
      var s := After(front);
      Reachable(front);
      ClassifierShape(turns[last].0, turns[last].1);
      hide Classify;
      LocksAreEarned(front);
      if s.locked && s.lockedAtTurn == After(turns).lockedAtTurn && s.lockConfidence == After(turns).lockConfidence {
        var i :| 0 <= i < |front| && LockedBy(s, front[i]);
        assert LockedBy(After(turns), turns[i]);
      } else {
        assert LockedBy(After(turns), turns[last]);
      }
    }
  }

  /** The input that locks early: one reservation request on turn 1, with nothing before it. */
  lemma {:induction false} OneReservationLocks(u: Signals)
    requires !u.empty && u.reservation && !u.availability
    requires !u.goodbye && !u.confirm && !u.deny && !u.correction && !u.nameSlot && !u.phoneSlot
    ensures After([(u, 1)]).locked && After([(u, 1)]).primary == Reservation && After([(u, 1)]).lockedAtTurn == 1
  {
    assert [(u, 1)][..0] == [] && After([]) == FRESH_SESSION;
    assert After([(u, 1)]) == Turn(FRESH_SESSION, u, 1);
  }

  /** A locked intent, its profile and its lock survive any stretch of turns without a reroute signal. */
  lemma {:induction false} LockIsStable(before: seq<(Signals, int)>, more: seq<(Signals, int)>)
    requires After(before).locked
    requires forall i :: 0 <= i < |more| ==> !more[i].0.reroute || more[i].0.empty
    ensures SameLock(After(before), After(before + more))
  {
    if more == [] {
      assert before + more == before;
    } else {
      hide Inv, Turn;
      var front := more[..|more| - 1];
      LockIsStable(before, front);
      Reachable(before + front);
      assert (before + more)[..|before + more| - 1] == before + front;
      TurnEffects(After(before + front), more[|more| - 1].0, more[|more| - 1].1);
    }
  }

  /** Confirmations, denials and corrections never change intent or profile, even on a reroute turn. */
  lemma {:induction false} ConfirmationsKeepTheIntent(turns: seq<(Signals, int)>, u: Signals, turn: int)
    requires KeepsIntent(Classify(u, turn).turnType)
    ensures After(turns + [(u, turn)]).primary == After(turns).primary
    ensures After(turns + [(u, turn)]).profile == After(turns).profile
  {
    hide Inv, Turn, Classify;
    Reachable(turns);
    assert (turns + [(u, turn)])[..|turns|] == turns;
    TurnEffects(After(turns), u, turn);
  }

  /** The reroutes of a call, read off its states: one for each turn that unlocked the session. */
  function Reroutes(turns: seq<(Signals, int)>): seq<RerouteEvent> {
    if turns == [] then []
    else
      var front, u := turns[..|turns| - 1], turns[|turns| - 1];
      Reroutes(front) +
      if IsReroute(After(front), u.0) then [RerouteEvent(u.1, After(front).primary, After(turns).primary)] else []
  }

  /** The logged history is exactly that list, and each entry started from a locked transaction. */
  lemma {:induction false} HistoryIsExact(turns: seq<(Signals, int)>)
    ensures After(turns).reroutes == Reroutes(turns)
    ensures forall e :: e in After(turns).reroutes ==> e.oldIntent !in INFO_ONLY
  {
    Reachable(turns);
    if turns != [] {
      hide Turn;
      var front := turns[..|turns| - 1];
      Reachable(front);
      HistoryIsExact(front);
      TurnEffects(After(front), turns[|turns| - 1].0, turns[|turns| - 1].1);
    }
  }

  /** A turn that only answers with a name or a phone number. */
  predicate IsSlotAnswer(u: Signals, turn: int) {
    && !u.empty && turn != 0 && !u.goodbye && !(u.short && (u.confirm || u.deny)) && !u.correction
    && (u.nameSlot || u.phoneSlot)
  }

  /** Such a turn is meant to leave the intent alone. It does so exactly if the session is locked and not
      being rerouted, or had no intent to lose. */
  lemma {:induction false} SlotAnswersKeepTheIntentIff(turns: seq<(Signals, int)>, u: Signals, turn: int)
    requires IsSlotAnswer(u, turn)
    ensures After(turns + [(u, turn)]).primary == After(turns).primary
            <==> (After(turns).locked && !u.reroute) || After(turns).primary == Unknown
  {
    hide After;
    Reachable(turns);
    SlotAnswerStep(After(turns), u, turn);
    AfterOneMore(turns, u, turn);
  }

  lemma AfterOneMore(turns: seq<(Signals, int)>, u: Signals, turn: int)
    ensures After(turns + [(u, turn)]) == Turn(After(turns), u, turn)
  {
    hide Turn;
    assert (turns + [(u, turn)])[..|turns|] == turns;
  }

  lemma SlotAnswerStep(s: Session, u: Signals, turn: int)
    requires Inv(s) && IsSlotAnswer(u, turn)
    ensures Turn(s, u, turn).primary == s.primary <==> (s.locked && !u.reroute) || s.primary == Unknown
  {
  }

  /** The losing input: a reservation heard on the opening turn is forgotten when the name follows. */
  lemma {:induction false} NameAfterOpeningForgetsTheReservation(u: Signals, v: Signals)
    requires !u.empty && u.reservation && !u.order && !u.faq && !u.deliverySignal && !u.customerInfo
    requires IsSlotAnswer(v, 1)
    ensures After([(u, 0)]).primary == Reservation && After([(u, 0), (v, 1)]).primary == Unknown
  {
    assert [(u, 0)][..0] == [] && [(u, 0), (v, 1)][..1] == [(u, 0)];
    assert After([(u, 0)]) == Turn(FRESH_SESSION, u, 0);
    assert After([(u, 0), (v, 1)]) == Turn(After([(u, 0)]), v, 1);
  }
}
