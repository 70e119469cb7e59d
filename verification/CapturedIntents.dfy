/** What the bot has heard: server/brain/captured_intents.py. */
module CapturedIntents {
  import opened Wrappers

  datatype IntentKind =
    | Takeaway | Delivery | BulkOrder | Reservation | PreOrder
    | ModifyOrder | CancelOrder | OrderStatus | ModifyReservation | CancelReservation
    | Complaint | PaymentIssue | LostAndFound | DietaryInquiry | GroupCatering | Faq

  datatype IntentStatus = Captured | Confirmed | Completed | Failed | Cancelled
  datatype SlotStatus = SlotMissing | SlotPartial | SlotFilled | SlotConfirmed
  datatype Confidence = Low | Medium | High

  /** The slot names that extraction or the required-slot table mention, and any other. */
  datatype SlotName =
    | Items | PartySize | PickupOffset | Date | Time | Occasion | SpecialRequests | PickupTime | Channel
    | OrderIdentifier | Modification | ComplaintType | Description | IssueType | ItemDescription | VisitDate
    | DietaryRestriction | EventDate
    | Phone | Name | Address | ReservationIdentifier | CallbackAvailability
    | OtherSlot(text: string)

  datatype SlotValue = SlotValue(
    value: Option<string>, status: SlotStatus, confidence: Confidence, sourceTurn: int, fromCallerId: bool)

  datatype IntentValue = IntentValue(
    kind: IntentKind, status: IntentStatus, slots: map<SlotName, SlotValue>, createdTurn: int,
    toolResult: Option<string>)

  /** Urgency: smaller is handled first. */
  function Priority(k: IntentKind): nat {
    match k
    case PaymentIssue => 0
    case OrderStatus => 1
    case Complaint => 2
    case LostAndFound => 3
    case Takeaway => 10
    case Delivery => 11
    case CancelOrder => 12
    case ModifyOrder => 13
    case PreOrder => 20
    case BulkOrder => 21
    case GroupCatering => 22
    case CancelReservation => 23
    case ModifyReservation => 24
    case Reservation => 25
    case DietaryInquiry => 30
    case Faq => 31
  }

  function RequiredSlots(k: IntentKind): set<SlotName> {
    match k
    case Takeaway => {Items, PickupTime, Phone, Name}
    case Delivery => {Items, Address, Phone, Name}
    case PreOrder => {Items, PickupTime, Phone, Name, Channel}
    case BulkOrder => {Items, PickupTime, Phone, Name, PartySize}
    case Reservation => {Date, Time, PartySize, Name, Phone}
    case ModifyOrder => {OrderIdentifier, Modification}
    case CancelOrder => {OrderIdentifier}
    case OrderStatus => {OrderIdentifier}
    case ModifyReservation => {ReservationIdentifier, Modification}
    case CancelReservation => {ReservationIdentifier}
    case Complaint => {ComplaintType, Description}
    case PaymentIssue => {IssueType, OrderIdentifier}
    case LostAndFound => {ItemDescription, VisitDate, Phone}
    case GroupCatering => {Phone, Name, CallbackAvailability, EventDate, PartySize}
    case DietaryInquiry => {DietaryRestriction}
    case Faq => {}
  }

  /** Every required slot is CONFIRMED; an absent slot counts as missing. */
  predicate Committable(v: IntentValue) {
    forall n :: n in RequiredSlots(v.kind) ==> n in v.slots && v.slots[n].status == SlotConfirmed
  }

  function AllowedTransitions(s: IntentStatus): set<IntentStatus> {
    match s
    case Captured => {Confirmed, Cancelled}
    case Confirmed => {Completed, IntentStatus.Failed, Cancelled}
    case Completed => {}
    case Failed => {Confirmed}
    case Cancelled => {}
  }

  /** The intent after a status change, or `None` where the change is refused. */
  function Transitioned(v: IntentValue, next: IntentStatus, result: Option<string>): Option<IntentValue> {
    if next !in AllowedTransitions(v.status) then None
    else Some(v.(status := next, toolResult := if result.Some? then result else v.toolResult))
  }

  class CapturedIntent {
    const kind: IntentKind
    const createdTurn: int
    var status: IntentStatus
    var slots: map<SlotName, SlotValue>
    var toolResult: Option<string>

    function Value(): IntentValue
      reads this
    {
      IntentValue(kind, status, slots, createdTurn, toolResult)
    }

    constructor (kind: IntentKind, slots: map<SlotName, SlotValue>, createdTurn: int)
      ensures Value() == IntentValue(kind, Captured, slots, createdTurn, None)
    {
      this.kind, this.createdTurn, this.slots := kind, createdTurn, slots;
      status, toolResult := Captured, None;
    }

    predicate IsCommittable()
      reads this
      ensures IsCommittable() <==> Committable(Value())
    {
      forall n :: n in RequiredSlots(kind) ==> n in slots && slots[n].status == SlotConfirmed
    }
  }

  /** The only writer of an intent's status; `false` stands for the raised InvalidTransitionError. */
  method TransitionIntent(intent: CapturedIntent, newStatus: IntentStatus, result: Option<string>) returns (ok: bool)
    modifies intent`status, intent`toolResult
    ensures var t := Transitioned(old(intent.Value()), newStatus, result);
            && ok == t.Some?
            && intent.Value() == if ok then t.value else old(intent.Value())
  {
    if newStatus !in AllowedTransitions(intent.status) {
      return false;
    }
    intent.status := newStatus;
    if result.Some? {
      intent.toolResult := result;
    }
    return true;
  }

  /** A status change is refused unless it is one of these six, and otherwise changes the status alone, and the
      result where one is given. */
  lemma OnlySixTransitions(v: IntentValue, next: IntentStatus, result: Option<string>)
    ensures Transitioned(v, next, result).Some? <==>
              (v.status, next) in {(Captured, Confirmed), (Captured, Cancelled), (Confirmed, Completed),
                                   (Confirmed, Failed), (Confirmed, Cancelled), (Failed, Confirmed)}
    ensures Transitioned(v, next, result).Some? ==>
              var w := Transitioned(v, next, result).value;
              && w.status == next && w.kind == v.kind && w.slots == v.slots && w.createdTurn == v.createdTurn
              && w.toolResult == match result { case None => v.toolResult case Some(r) => Some(r) }
  {
  }

  /** The table of required slots read the other way: for each slot, exactly the kinds that need it. */
  lemma RequiredSlotsFollowTheKind(k: IntentKind)
    ensures Name in RequiredSlots(k) <==> k in {Takeaway, Delivery, PreOrder, BulkOrder, Reservation, GroupCatering}
    ensures Phone in RequiredSlots(k) <==> Name in RequiredSlots(k) || k == LostAndFound
    ensures Items in RequiredSlots(k) <==> k in {Takeaway, Delivery, PreOrder, BulkOrder}
    ensures Address in RequiredSlots(k) <==> k == Delivery
    ensures PickupTime in RequiredSlots(k) <==> k in {Takeaway, PreOrder, BulkOrder}
    ensures Channel in RequiredSlots(k) <==> k == PreOrder
    ensures Date in RequiredSlots(k) <==> k == Reservation
    ensures Time in RequiredSlots(k) <==> k == Reservation
    ensures PartySize in RequiredSlots(k) <==> k in {BulkOrder, Reservation, GroupCatering}
  {
  }

  lemma RequiredDetailsFollowTheKind(k: IntentKind)
    ensures OrderIdentifier in RequiredSlots(k) <==> k in {ModifyOrder, CancelOrder, OrderStatus, PaymentIssue}
    ensures ReservationIdentifier in RequiredSlots(k) <==> k in {ModifyReservation, CancelReservation}
    ensures Modification in RequiredSlots(k) <==> k in {ModifyOrder, ModifyReservation}
    ensures ComplaintType in RequiredSlots(k) <==> k == Complaint
    ensures Description in RequiredSlots(k) <==> k == Complaint
    ensures IssueType in RequiredSlots(k) <==> k == PaymentIssue
    ensures ItemDescription in RequiredSlots(k) <==> k == LostAndFound
    ensures VisitDate in RequiredSlots(k) <==> k == LostAndFound
    ensures CallbackAvailability in RequiredSlots(k) <==> k == GroupCatering
    ensures EventDate in RequiredSlots(k) <==> k == GroupCatering
    ensures DietaryRestriction in RequiredSlots(k) <==> k == DietaryInquiry
  {
  }

  /** And no slot else is ever required. */
  lemma NothingElseIsRequired(k: IntentKind, n: SlotName)
    requires n in {PickupOffset, Occasion, SpecialRequests} || n.OtherSlot?
    ensures n !in RequiredSlots(k)
  {
  }

  /** All kinds, the most urgent first. */
  const BY_URGENCY: seq<IntentKind> := [
    PaymentIssue, OrderStatus, Complaint, LostAndFound, Takeaway, Delivery, CancelOrder, ModifyOrder, PreOrder,
    BulkOrder, GroupCatering, CancelReservation, ModifyReservation, Reservation, DietaryInquiry, Faq]

  lemma UrgencyOrder(i: nat, j: nat)
    requires i < |BY_URGENCY| && j < |BY_URGENCY|
    ensures Priority(BY_URGENCY[i]) < Priority(BY_URGENCY[j]) <==> i < j
    ensures forall k: IntentKind :: k in BY_URGENCY
  {
    forall k: IntentKind
      ensures k in BY_URGENCY
    {
      match k {
        case PaymentIssue => assert BY_URGENCY[0] == k;
        case OrderStatus => assert BY_URGENCY[1] == k;
        case Complaint => assert BY_URGENCY[2] == k;
        case LostAndFound => assert BY_URGENCY[3] == k;
        case Takeaway => assert BY_URGENCY[4] == k;
        case Delivery => assert BY_URGENCY[5] == k;
        case CancelOrder => assert BY_URGENCY[6] == k;
        case ModifyOrder => assert BY_URGENCY[7] == k;
        case PreOrder => assert BY_URGENCY[8] == k;
        case BulkOrder => assert BY_URGENCY[9] == k;
        case GroupCatering => assert BY_URGENCY[10] == k;
        case CancelReservation => assert BY_URGENCY[11] == k;
        case ModifyReservation => assert BY_URGENCY[12] == k;
        case Reservation => assert BY_URGENCY[13] == k;
        case DietaryInquiry => assert BY_URGENCY[14] == k;
        case Faq => assert BY_URGENCY[15] == k;
      }
    }
  }

  // ----- Sorting by urgency -----

  predicate DistinctKinds(xs: seq<IntentValue>) {
    forall i, j :: 0 <= i < j < |xs| ==> xs[i].kind != xs[j].kind
  }

  function Insert(x: IntentValue, xs: seq<IntentValue>): seq<IntentValue> {
    if xs == [] || Priority(x.kind) <= Priority(xs[0].kind) then [x] + xs
    else [xs[0]] + Insert(x, xs[1..])
  }

  /** The stable sort by priority. */
  function SortByPriority(xs: seq<IntentValue>): seq<IntentValue> {
    if xs == [] then [] else Insert(xs[0], SortByPriority(xs[1..]))
  }

  predicate Ascending(xs: seq<IntentValue>) {
    forall i, j :: 0 <= i < j < |xs| ==> Priority(xs[i].kind) <= Priority(xs[j].kind)
  }

  predicate StrictlyAscending(xs: seq<IntentValue>) {
    forall i, j :: 0 <= i < j < |xs| ==> Priority(xs[i].kind) < Priority(xs[j].kind)
  }

  /** The entries of one kind, in their order. */
  function OfKind(xs: seq<IntentValue>, k: IntentKind): seq<IntentValue> {
    if xs == [] then []
    else (if xs[0].kind == k then [xs[0]] else []) + OfKind(xs[1..], k)
  }

  lemma {:induction false} InsertKeepsAll(x: IntentValue, xs: seq<IntentValue>)
    ensures multiset(Insert(x, xs)) == multiset{x} + multiset(xs)
  {
    hide Priority;
    if xs != [] {
      assert xs == [xs[0]] + xs[1..];
      InsertKeepsAll(x, xs[1..]);
    }
  }

  lemma {:induction false} InsertSorts(x: IntentValue, xs: seq<IntentValue>)
    requires Ascending(xs)
    ensures Ascending(Insert(x, xs))
  {
    hide Priority, Insert;
    InsertUnfolds(x, xs);
    if xs == [] {
    } else if Priority(x.kind) <= Priority(xs[0].kind) {
      Prepend(x, xs);
    } else {
      var rest := Insert(x, xs[1..]);
      InsertSorts(x, xs[1..]);
      InsertKeepsAll(x, xs[1..]);
      forall y | y in rest
        ensures Priority(xs[0].kind) <= Priority(y.kind)
      {
        assert y in multiset(rest);
        assert y == x || y in xs[1..];
      }
      Prepend(xs[0], rest);
    }
  }

  lemma InsertUnfolds(x: IntentValue, xs: seq<IntentValue>)
    ensures Insert(x, xs) ==
            if xs == [] || Priority(x.kind) <= Priority(xs[0].kind) then [x] + xs
            else [xs[0]] + Insert(x, xs[1..])
  {
  }

  lemma Prepend(x: IntentValue, xs: seq<IntentValue>)
    requires Ascending(xs) && forall y :: y in xs ==> Priority(x.kind) <= Priority(y.kind)
    ensures Ascending([x] + xs)
  {
    hide Priority;
  }

  lemma OfKindUnfolds(x: IntentValue, xs: seq<IntentValue>, k: IntentKind)
    ensures OfKind([x] + xs, k) == (if x.kind == k then [x] else []) + OfKind(xs, k)
  {
    assert ([x] + xs)[1..] == xs;
  }

  lemma {:induction false} InsertIsStable(x: IntentValue, xs: seq<IntentValue>, k: IntentKind)
    ensures OfKind(Insert(x, xs), k) == OfKind([x] + xs, k)
  {
    hide Insert, OfKind, Priority;
    InsertUnfolds(x, xs);
    if xs != [] && Priority(x.kind) > Priority(xs[0].kind) {
      var y, rest := xs[0], xs[1..];
      assert xs == [y] + rest && x.kind != y.kind;
      InsertIsStable(x, rest, k);
      OfKindUnfolds(y, Insert(x, rest), k);
      OfKindUnfolds(x, rest, k);
      OfKindUnfolds(x, xs, k);
      OfKindUnfolds(y, rest, k);
    }
  }

  /** The result is ascending, holds the same intents, and keeps the order within a kind. */
  lemma {:induction false} SortSorts(xs: seq<IntentValue>)
    ensures Ascending(SortByPriority(xs))
    ensures multiset(SortByPriority(xs)) == multiset(xs)
    ensures forall k :: OfKind(SortByPriority(xs), k) == OfKind(xs, k)
  {
    if xs != [] {
      var rest := SortByPriority(xs[1..]);
      SortSorts(xs[1..]);
      InsertSorts(xs[0], rest);
      InsertKeepsAll(xs[0], rest);
      assert xs == [xs[0]] + xs[1..];
      forall k
        ensures OfKind(SortByPriority(xs), k) == OfKind(xs, k)
      {
        InsertIsStable(xs[0], rest, k);
        assert ([xs[0]] + rest)[1..] == rest;
      }
    }
  }

  lemma PrioritiesAreInjective(a: IntentKind, b: IntentKind)
    requires Priority(a) == Priority(b)
    ensures a == b
  {
  }

  lemma DistinctKindsArePositions(xs: seq<IntentValue>, v: IntentValue, w: IntentValue)
    requires DistinctKinds(xs) && v in xs && w in xs && v.kind == w.kind
    ensures v == w && multiset(xs)[v] == 1
  {
    var i :| 0 <= i < |xs| && xs[i] == v;
    assert xs == xs[..i] + [v] + xs[i + 1..];
    assert v !in xs[..i] && v !in xs[i + 1..];
  }

  lemma {:induction false} StrictOrderIsUnique(xs: seq<IntentValue>, ys: seq<IntentValue>)
    requires StrictlyAscending(xs) && StrictlyAscending(ys) && multiset(xs) == multiset(ys)
    ensures xs == ys
  {
    hide Priority, StrictlyAscending;
    assert |xs| == |multiset(xs)| == |multiset(ys)| == |ys|;
    if xs != [] {
      FirstIsLeast(xs, ys);
      FirstIsLeast(ys, xs);
      TailOf(xs);
      TailOf(ys);
      StrictOrderIsUnique(xs[1..], ys[1..]);
      assert [xs[0]] + xs[1..] == [ys[0]] + ys[1..];
    }
  }

  lemma TailOf(xs: seq<IntentValue>)
    requires xs != [] && StrictlyAscending(xs)
    ensures StrictlyAscending(xs[1..]) && xs == [xs[0]] + xs[1..] && multiset(xs[1..]) == multiset(xs) - multiset{xs[0]}
  {
    hide Priority;
    assert xs == [xs[0]] + xs[1..];
  }

  lemma FirstIsLeast(xs: seq<IntentValue>, ys: seq<IntentValue>)
    requires StrictlyAscending(xs) && multiset(xs) == multiset(ys) && |xs| == |ys| > 0
    ensures ys[0] == xs[0] || Priority(xs[0].kind) < Priority(ys[0].kind)
  {
    hide Priority;
    assert ys[0] in multiset(xs);
    assert ys[0] in xs;
  }

  lemma TwoPositions<T>(xs: seq<T>, i: nat, j: nat)
    requires i < j < |xs| && xs[i] == xs[j]
    ensures multiset(xs)[xs[i]] >= 2
  {
    assert xs == xs[..j] + [xs[j]] + xs[j + 1..];
    assert xs[i] in xs[..j];
  }

  lemma SortIsStrict(xs: seq<IntentValue>)
    requires DistinctKinds(xs)
    ensures StrictlyAscending(SortByPriority(xs))
  {
    hide Priority, SortByPriority;
    var ys := SortByPriority(xs);
    SortSorts(xs);
    forall i, j | 0 <= i < j < |ys|
      ensures Priority(ys[i].kind) < Priority(ys[j].kind)
    {
      if Priority(ys[i].kind) == Priority(ys[j].kind) {
        PrioritiesAreInjective(ys[i].kind, ys[j].kind);
        assert ys[i] in multiset(xs) && ys[j] in multiset(xs);
        DistinctKindsArePositions(xs, ys[i], ys[j]);
        TwoPositions(ys, i, j);
      }
    }
  }

  /** The urgency order of distinct kinds does not depend on the order in which they were captured. */
  lemma SortForgetsCaptureOrder(xs: seq<IntentValue>, ys: seq<IntentValue>)
    requires DistinctKinds(xs) && DistinctKinds(ys) && multiset(xs) == multiset(ys)
    ensures StrictlyAscending(SortByPriority(xs))
    ensures SortByPriority(xs) == SortByPriority(ys)
  {
    SortSorts(xs);
    SortSorts(ys);
    SortIsStrict(xs);
    SortIsStrict(ys);
    StrictOrderIsUnique(SortByPriority(xs), SortByPriority(ys));
  }
}
