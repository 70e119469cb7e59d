/** What holds of every conversation with the six-phase machine, however long. */
module ConversationRuns {
  import opened Wrappers
  import opened ConversationFsm

  predicate ContactKnown(s: SlotData) {
    Truthy(s.phone) && Truthy(s.name)
  }

  predicate NoReservationData(s: SlotData) {
    s.date.None? && s.time.None? && s.partySize.None?
  }

  predicate NoOrderData(s: SlotData) {
    s.items == [] && s.payment.None?
  }

  /** A delivery order names its street. */
  predicate DeliveryHasAddress(s: SlotData) {
    s.intent == Some(Order) && s.orderType == Some(Delivery) ==> Truthy(s.address)
  }

  /** Everything a tool call needs is there. */
  predicate Complete(s: SlotData) {
    && ContactKnown(s) && DeliveryHasAddress(s)
    && s.intent.Some?
    && (s.intent.value == Order ==> s.items != [] && s.payment.Some?)
    && (s.intent.value == Reservation ==>
          Truthy(s.date) && Truthy(s.time) && s.partySize.Some? && 1 <= s.partySize.value <= 12)
  }

  /** The inductive invariant of a fresh conversation. */
  predicate Inv(st: State) {
    var s := st.slots;
    && (s.confirmed <==> st.phase.Committed? || st.phase.PostCommit?)
    && (st.phase.Greeting? <==> s.intent.None?)
    && (st.phase.Greeting? ==> s == FRESH_SLOTS)
    && (st.phase.Info? ==>
          && NoOrderData(s) && NoReservationData(s) && s.address.None?
          && (Truthy(s.name) ==> Truthy(s.phone) && s.intent == Some(Order)))
    && (st.phase.OrderOrReserve? ==>
          && ContactKnown(s) && DeliveryHasAddress(s)
          && (s.intent == Some(Order) ==> s.payment.None? && NoReservationData(s))
          && (s.intent == Some(Reservation) ==>
                s.partySize.None? && (Truthy(s.time) ==> Truthy(s.date)) && NoOrderData(s)))
    && (st.phase.Readback? || st.phase.Committed? || st.phase.PostCommit? ==> Complete(s))
  }

  function Count(b: bool): nat {
    if b then 1 else 0
  }

  /** How far the conversation has come; eight is the end. */
  function Rank(st: State): nat {
    var s := st.slots;
    match st.phase
    case Greeting => 0
    case Info => 1 + Count(Truthy(s.phone)) + Count(Truthy(s.name))
    case OrderOrReserve =>
      if s.intent == Some(Order) then 4 + Count(s.items != []) else 3 + Count(Truthy(s.date)) + Count(Truthy(s.time))
    case Readback => 6
    case Committed => 7
    case PostCommit => 8
  }

  function Next(st: State, u: Heard): State {
    var r := Step(st.phase, st.slots, u);
    State(r.nextState, r.slots)
  }

  /** One step keeps the invariant, never loses ground, gains at most one rank,
      and calls a tool exactly when it leaves COMMITTED, without touching the slots. */
  predicate Advances(st: State, u: Heard) {
    var next := Next(st, u);
    && Inv(next)
    && Rank(st) <= Rank(next) <= Rank(st) + 1
    && (next.phase.PostCommit? <==> st.phase.Committed? || st.phase.PostCommit?)
    && (next.phase.PostCommit? ==> next.slots == st.slots)
    && Step(st.phase, st.slots, u).toolCalls == if st.phase.Committed? then [CallFor(st.slots)] else []
  }

  lemma InfoAdvances(st: State, u: Heard)
    requires Inv(st) && st.phase.Info?
    ensures Advances(st, u)
  {
  }

  lemma OrderAdvances(st: State, u: Heard)
    requires Inv(st) && st.phase.OrderOrReserve? && st.slots.intent == Some(Order)
    ensures Advances(st, u)
  {
  }

  lemma ReserveAdvances(st: State, u: Heard)
    requires Inv(st) && st.phase.OrderOrReserve? && st.slots.intent == Some(Reservation)
    ensures Advances(st, u)
  {
  }

  lemma StepAdvances(st: State, u: Heard)
    requires Inv(st)
    ensures Advances(st, u)
  {
    match st.phase {
      case Info => InfoAdvances(st, u);
      case OrderOrReserve =>
        if st.slots.intent == Some(Order) {
          OrderAdvances(st, u);
        } else {
          assert st.slots.intent.Some? && st.slots.intent.value.Reservation?;
          ReserveAdvances(st, u);
        }
      case _ =>
    }
  }

  /** The call a complete slot record stands for. */
  function CallFor(s: SlotData): ToolCall {
    if s.intent == Some(Order) then OrderCall(s) else ReservationCall(s)
  }

  lemma {:induction false} Reachable(us: seq<Heard>)
    ensures Inv(After(us))
    ensures Rank(After(us)) <= |us|
  {
    if us != [] {
      hide Step, Inv, Rank;
      var front := us[..|us| - 1];
      Reachable(front);
      StepAdvances(After(front), us[|us| - 1]);
    }
  }

  // ----- Main results -----

  /** The tool log of any conversation: one call, made from the slots as they now stand, once the
      machine has reached POST_COMMIT, and none before. So at most one call is ever made. */
  lemma {:induction false} OneCallExactlyAfterCommit(us: seq<Heard>)
    ensures Emitted(us) == if After(us).phase.PostCommit? then [CallFor(After(us).slots)] else []
  {
    hide Step, Inv, CallFor;
    if us != [] {
      var front, u := us[..|us| - 1], us[|us| - 1];
      OneCallExactlyAfterCommit(front);
      Reachable(front);
      StepAdvances(After(front), u);
    }
  }

  /** No conversation calls a tool before its eighth step. */
  lemma {:induction false} NoCallBeforeEighthStep(us: seq<Heard>)
    requires Emitted(us) != []
    ensures |us| >= 8
  {
    OneCallExactlyAfterCommit(us);
    Reachable(us);
  }

  /** Every call carries all its required fields. */
  predicate FullyFilled(c: ToolCall) {
    match c
    case CreateOrder(name, phone, lines, kind, payment, address, _) =>
      && Truthy(name) && Truthy(phone) && payment.Some?
      && (kind == Delivery <==> address.Some?) && (kind == Delivery ==> Truthy(address))
    case CreateReservation(name, phone, date, time, size) =>
      Truthy(name) && Truthy(phone) && Truthy(date) && Truthy(time) && size.Some? && 1 <= size.value <= 12
  }

  lemma {:induction false} CallsAreFullyFilled(us: seq<Heard>, k: nat)
    requires k < |Emitted(us)|
    ensures FullyFilled(Emitted(us)[k])
    ensures Emitted(us)[k].CreateOrder? ==>
              After(us).slots.items != [] && Emitted(us)[k].orderItems == ItemLines(After(us).slots.items)
  {
    OneCallExactlyAfterCommit(us);
    Reachable(us);
  }

  lemma AfterOneMore(us: seq<Heard>, u: Heard)
    ensures After(us + [u]) == Next(After(us), u)
    ensures LastResult(us + [u]) == Step(After(us).phase, After(us).slots, u)
    ensures Emitted(us + [u]) == Emitted(us) + LastResult(us + [u]).toolCalls
  {
    assert (us + [u])[..|us + [u]| - 1] == us;
  }

  /** The machine is past collecting and its slots are `s` but for the confirmation flag. */
  predicate FrozenAt(st: State, s: SlotData) {
    && (st.phase.Readback? || st.phase.Committed? || st.phase.PostCommit?)
    && st.slots.(confirmed := false) == s
  }

  lemma FrozenStep(st: State, u: Heard, s: SlotData)
    requires Inv(st) && FrozenAt(st, s)
    ensures FrozenAt(Next(st, u), s)
  {
  }

  lemma {:induction false} FrozenRun(us: seq<Heard>, vs: seq<Heard>, s: SlotData)
    requires FrozenAt(After(us), s)
    ensures FrozenAt(After(us + vs), s)
    decreases |vs|
  {
    hide Step;
    if vs == [] {
      assert us + vs == us;
    } else {
      Reachable(us);
      AfterOneMore(us, vs[0]);
      FrozenStep(After(us), vs[0], s);
      FrozenRun(us + [vs[0]], vs[1..], s);
      assert us + vs == us + [vs[0]] + vs[1..];
    }
  }

  /** The call says what the slots say, field by field. */
  predicate Carries(c: ToolCall, s: SlotData) {
    match c
    case CreateOrder(name, phone, lines, kind, payment, address, total) =>
      && s.intent == Some(Order)
      && name == s.name && phone == s.phone && payment == s.payment
      && lines == ItemLines(s.items) && total == TotalPrice(s.items)
      && (kind == Delivery <==> s.orderType == Some(Delivery))
      && (kind == Delivery ==> address == s.address)
    case CreateReservation(name, phone, date, time, size) =>
      && s.intent == Some(Reservation)
      && name == s.name && phone == s.phone && date == s.date && time == s.time && size == s.partySize
  }

  /** Entering READBACK freezes the slots: whatever is said later, only the confirmation flag changes,
      the machine never returns to collecting, and a call made later says what was read back. */
  lemma {:induction false} ReadbackFreezesTheCall(us: seq<Heard>, vs: seq<Heard>)
    requires After(us).phase.Readback?
    ensures FrozenAt(After(us + vs), After(us).slots)
    ensures forall k :: 0 <= k < |Emitted(us + vs)| ==> Carries(Emitted(us + vs)[k], After(us).slots)
  {
    Reachable(us);
    FrozenRun(us, vs, After(us).slots);
    OneCallExactlyAfterCommit(us + vs);
  }

  /** A call is made by the step right after a confirmed READBACK, and only by that one. */
  lemma {:induction false} CallsFollowConfirmation(us: seq<Heard>, u: Heard)
    ensures LastResult(us + [u]).toolCalls != [] <==> After(us).phase.Committed?
    ensures After(us).phase.Committed? ==>
              us != [] && LastResult(us).hint == ConfirmedHint && After(us[..|us| - 1]).phase.Readback?
  {
    AfterOneMore(us, u);
    Reachable(us);
    StepAdvances(After(us), u);
    if us != [] {
      Reachable(us[..|us| - 1]);
      StepAdvances(After(us[..|us| - 1]), us[|us| - 1]);
    }
  }

  /** POST_COMMIT is absorbing and changes nothing. */
  lemma {:induction false} PostCommitIsAbsorbing(us: seq<Heard>, vs: seq<Heard>)
    requires After(us).phase.PostCommit?
    ensures After(us + vs) == After(us)
  {
    if vs == [] {
      assert us + vs == us;
    } else {
      var front := vs[..|vs| - 1];
      PostCommitIsAbsorbing(us, front);
      assert us + vs == us + front + [vs[|vs| - 1]];
      AfterOneMore(us + front, vs[|vs| - 1]);
    }
  }

  /** The two defensive branches, an unconfirmed COMMITTED and the error hint, are never taken. */
  lemma {:induction false} DefensiveBranchesAreDead(us: seq<Heard>)
    requires us != []
    ensures LastResult(us).hint != ErrorNotConfirmed && LastResult(us).hint != FlowError
  {
    hide After;
    var st := After(us[..|us| - 1]);
    Reachable(us[..|us| - 1]);
    StepIsNotDefensive(st, us[|us| - 1]);
  }

  lemma StepIsNotDefensive(st: State, u: Heard)
    requires Inv(st)
    ensures Step(st.phase, st.slots, u).hint != ErrorNotConfirmed && Step(st.phase, st.slots, u).hint != FlowError
  {
  }

  // ----- No conversation gets stuck -----

  /** An utterance that answers whatever the machine may be asking. */
  predicate IsCooperative(u: Heard) {
    && u.order != u.reservation
    && Truthy(u.phone) && u.nameWords != [] && |PickName(u.nameWords)| > 1 && u.address.Some?
    && u.items != [] && HeardPayment(u).Some?
    && Truthy(u.date) && u.time.Some? && u.size.Some?
    && u.yes
  }

  function Repeat(u: Heard, n: nat): seq<Heard> {
    seq(n, i => u)
  }

  lemma CooperationAdvances(st: State, u: Heard)
    requires IsCooperative(u) && Inv(st) && Rank(st) < 8
    ensures Rank(Next(st, u)) == Rank(st) + 1
  {
  }

  lemma {:induction false} CooperationCommits(us: seq<Heard>, u: Heard)
    requires IsCooperative(u)
    ensures Rank(After(us)) <= 8
    ensures After(us + Repeat(u, 8 - Rank(After(us)))).phase.PostCommit?
    decreases 8 - Rank(After(us))
  {
    hide Step, IsCooperative, Inv, Rank, After;
    Reachable(us);
    RankAtMostEight(After(us));
    var missing := 8 - Rank(After(us));
    if missing == 0 {
      assert us + Repeat(u, 0) == us;
    } else {
      AfterOneMore(us, u);
      CooperationAdvances(After(us), u);
      CooperationCommits(us + [u], u);
      assert us + Repeat(u, missing) == us + [u] + Repeat(u, missing - 1);
    }
  }

  lemma RankAtMostEight(st: State)
    requires Inv(st)
    ensures Rank(st) <= 8 && (Rank(st) == 8 <==> st.phase.PostCommit?)
  {
  }

  /** From wherever a conversation stands, a caller who keeps cooperating needs exactly `8 - Rank`
      more turns to reach the commit, and nobody needs fewer. */
  lemma {:induction false} CommitDistance(us: seq<Heard>, u: Heard)
    requires IsCooperative(u)
    ensures Rank(After(us)) <= 8
    ensures Emitted(us + Repeat(u, 8 - Rank(After(us)))) != []
    ensures forall vs: seq<Heard> :: |vs| < 8 - Rank(After(us)) ==> Emitted(us + vs) == []
  {
    hide Step, After, Emitted, IsCooperative, Rank, Inv;
    CooperationCommits(us, u);
    OneCallExactlyAfterCommit(us + Repeat(u, 8 - Rank(After(us))));
    forall vs: seq<Heard> | |vs| < 8 - Rank(After(us))
      ensures Emitted(us + vs) == []
    {
      RankGrowsSlowly(us, vs);
      Reachable(us + vs);
      RankAtMostEight(After(us + vs));
      OneCallExactlyAfterCommit(us + vs);
    }
  }

  /** One utterance that answers everything at once. */
  function Eager(wantsOrder: bool): Heard {
    var name: Word := RawWord("Kim", true);
    var address: Address := RawAddress("Weg 1", "Bonn", None);
    Heard(wantsOrder, !wantsOrder, Some("+49228"), [name], false, Some(address), [MenuItem("Mandu", 1, None)],
          true, false, false, Some("2026-01-15"), Some((19, 30)), Some(2), true, false)
  }

  lemma EagerIsCooperative(wantsOrder: bool)
    ensures IsCooperative(Eager(wantsOrder))
  {
    var words := Eager(wantsOrder).nameWords;
    assert FirstCapital(words) == Some("Kim");
    assert PickName(words) == "Kim";
  }

  /** The eighth-step bound is attained, for orders and for reservations. */
  lemma EightStepsSuffice(wantsOrder: bool)
    ensures var us := Repeat(Eager(wantsOrder), 8);
            && |us| == 8 && |Emitted(us)| == 1
            && (Emitted(us)[0].CreateOrder? <==> wantsOrder)
  {
    hide Step, Emitted, IsCooperative, Inv;
    var us := Repeat(Eager(wantsOrder), 8);
    EagerIsCooperative(wantsOrder);
    assert [] + us == us;
    CommitDistance([], Eager(wantsOrder));
    OneCallExactlyAfterCommit(us);
    IntentIsKept(Eager(wantsOrder), 8);
  }

  lemma {:induction false} IntentIsKept(u: Heard, n: nat)
    requires u.order != u.reservation && n > 0
    ensures After(Repeat(u, n)).slots.intent == Some(if u.order then Order else Reservation)
  {
    hide Step, Inv;
    assert Repeat(u, n) == Repeat(u, n - 1) + [u];
    AfterOneMore(Repeat(u, n - 1), u);
    Reachable(Repeat(u, n - 1));
    if n == 1 {
      assert Repeat(u, 0) == [];
    } else {
      IntentIsKept(u, n - 1);
    }
    IntentStep(After(Repeat(u, n - 1)), u);
  }

  lemma IntentStep(st: State, u: Heard)
    requires Inv(st) && u.order != u.reservation
    ensures var before := st.slots.intent;
            Next(st, u).slots.intent == if before.Some? then before else Some(if u.order then Order else Reservation)
  {
  }

  lemma {:induction false} RankGrowsSlowly(us: seq<Heard>, vs: seq<Heard>)
    ensures Rank(After(us + vs)) <= Rank(After(us)) + |vs|
  {
    hide Step, Inv, Rank;
    if vs == [] {
      assert us + vs == us;
    } else {
      var front := vs[..|vs| - 1];
      RankGrowsSlowly(us, front);
      Reachable(us + front);
      assert us + vs == us + front + [vs[|vs| - 1]];
      AfterOneMore(us + front, vs[|vs| - 1]);
      StepAdvances(After(us + front), vs[|vs| - 1]);
    }
  }

  /** The object keeps the promises of the runs it tracks. */
  lemma TrackedMachine(fsm: ConversationFSM, slots: ConversationSlots)
    requires fsm.Tracks(slots)
    ensures fsm.emitted == if fsm.currentState.PostCommit? then [CallFor(slots.Data())] else []
    ensures fsm.emitted != [] ==> |fsm.heard| >= 8 && FullyFilled(fsm.emitted[0])
  {
    OneCallExactlyAfterCommit(fsm.heard);
    if fsm.emitted != [] {
      NoCallBeforeEighthStep(fsm.heard);
      CallsAreFullyFilled(fsm.heard, 0);
    }
  }
}
