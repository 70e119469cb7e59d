/** The six-phase conversation machine of server/brain/conversation_fsm.py.
    An utterance is represented by what the keyword lists, regexes and extractors find in it. */
module ConversationFsm {
  import opened Wrappers
  import opened Decimal

  datatype Phase = Greeting | Info | OrderOrReserve | Readback | Committed | PostCommit
  datatype Intent = Order | Reservation
  datatype OrderType = Takeaway | Delivery
  datatype Payment = Cash | Card | Online
  datatype MenuItem = MenuItem(name: string, quantity: int, price: Option<real>)

  /** The extractor returns no address at all when it finds no street. */
  datatype RawAddress = RawAddress(street: string, city: string, postcode: Option<string>)
  type Address = a: RawAddress | a.street != "" witness RawAddress("x", "", None)

  /** A word of the utterance, as blank-separated splitting yields it: never empty. */
  datatype RawWord = RawWord(text: string, capital: bool)
  type Word = w: RawWord | w.text != "" witness RawWord("x", false)

  /** What `\b([1-9]|1[0-2])\b` and `(\d{1,2})[:\.](\d{2})` can match. */
  type SpokenSize = n: int | 1 <= n <= 12 witness 1
  type SpokenNumber = n: int | 0 <= n < 100

  /** One utterance, seen through every recogniser the machine consults. */
  datatype Heard = Heard(
    order: bool, reservation: bool,
    phone: Option<string>, nameWords: seq<Word>,
    delivery: bool, address: Option<Address>,
    items: seq<MenuItem>, cash: bool, card: bool, online: bool,
    date: Option<string>, time: Option<(SpokenNumber, SpokenNumber)>, size: Option<SpokenSize>,
    yes: bool, question: bool)

  /** The contents of the slot record. */
  datatype SlotData = SlotData(
    phone: Option<string>, name: Option<string>,
    address: Option<string>, city: Option<string>, postcode: Option<string>,
    items: seq<MenuItem>, orderType: Option<OrderType>, payment: Option<Payment>,
    date: Option<string>, time: Option<string>, partySize: Option<int>,
    intent: Option<Intent>, confirmed: bool)

  const FRESH_SLOTS: SlotData :=
    SlotData(None, None, None, None, None, [], None, None, None, None, None, None, false)

  datatype ToolCall =
    | CreateOrder(name: Option<string>, phone: Option<string>, orderItems: string, orderType: OrderType,
                  payment: Option<Payment>, deliveryAddress: Option<string>, totalPrice: real)
    | CreateReservation(name: Option<string>, phone: Option<string>,
                        date: Option<string>, time: Option<string>, partySize: Option<int>)

  datatype Hint =
    | ContinueFlow | ConfirmIntent | AskForIntent
    | ConfirmPhone | AskForPhone | AskForOrderType | InfoComplete | AskForName | ConfirmAddress | AskForAddress
    | ConfirmItems | AskForOrderItems | ConfirmPayment | AskForPayment
    | ConfirmDate | AskForDate | ConfirmTime | AskForTime | ConfirmPartySize | AskForPartySize
    | FlowError
    | ConfirmedHint | AskForConfirmation | ErrorNotConfirmed | ToolExecuted | OfferFaq | Farewell

  datatype StepResult = StepResult(
    phase: Phase, hint: Hint, slots: SlotData, toolCalls: seq<ToolCall>, confirmationGate: bool, nextState: Phase)

  /** A Python truth test on the party size: neither missing nor zero. */
  predicate TruthyInt(o: Option<int>) {
    o.Some? && o.value != 0
  }

  /** The word taken for the caller's name: the first capitalised one, else the first. */
  function PickName(words: seq<Word>): string
    requires words != []
  {
    var c := FirstCapital(words);
    if c.Some? then c.value else words[0].text
  }

  function FirstCapital(words: seq<Word>): Option<string> {
    if words == [] then None
    else if words[0].capital then Some(words[0].text)
    else FirstCapital(words[1..])
  }

  function HeardPayment(u: Heard): Option<Payment> {
    if u.cash then Some(Cash) else if u.card then Some(Card) else if u.online then Some(Online) else None
  }

  function ClockText(t: (SpokenNumber, SpokenNumber)): (s: string)
    ensures s != ""
  {
    Show02(t.0) + ":" + Show02(t.1)
  }

  function ItemLine(it: MenuItem): string {
    it.name + " x" + ShowInt(it.quantity)
  }

  function ItemLines(items: seq<MenuItem>): string {
    if items == [] then ""
    else if |items| == 1 then ItemLine(items[0])
    else ItemLine(items[0]) + "; " + ItemLines(items[1..])
  }

  function TotalPrice(items: seq<MenuItem>): real {
    if items == [] then 0.0
    else (if items[0].price.Some? then items[0].price.value else 0.0) * items[0].quantity as real
         + TotalPrice(items[1..])
  }

  function OrderCall(s: SlotData): ToolCall {
    var kind := if s.orderType.Some? then s.orderType.value else Takeaway;
    CreateOrder(s.name, s.phone, ItemLines(s.items), kind, s.payment,
                if s.orderType == Some(Delivery) then s.address else None, TotalPrice(s.items))
  }

  function ReservationCall(s: SlotData): ToolCall {
    CreateReservation(s.name, s.phone, s.date, s.time, s.partySize)
  }

  // ----- What one step does, phase by phase -----

  function Quiet(phase: Phase, hint: Hint, slots: SlotData, next: Phase): StepResult {
    StepResult(phase, hint, slots, [], false, next)
  }

  function GreetingStep(s: SlotData, u: Heard): StepResult {
    if s.intent.Some? then Quiet(Greeting, ContinueFlow, s, Info)
    else if u.order != u.reservation then
      Quiet(Greeting, ConfirmIntent, s.(intent := Some(if u.order then Order else Reservation)), Info)
    else Quiet(Greeting, AskForIntent, s, Greeting)
  }

  function InfoStep(s: SlotData, u: Heard): StepResult {
    if !Truthy(s.phone) then
      if Truthy(u.phone) then Quiet(Info, ConfirmPhone, s.(phone := u.phone), Info)
      else Quiet(Info, AskForPhone, s, Info)
    else if !Truthy(s.name) then
      if u.nameWords != [] && |PickName(u.nameWords)| > 1 then
        var s1 := s.(name := Some(PickName(u.nameWords)));
        if s.intent == Some(Order) && !Truthy(s.address) then Quiet(Info, AskForOrderType, s1, Info)
        else Quiet(Info, InfoComplete, s1, OrderOrReserve)
      else Quiet(Info, AskForName, s, Info)
    else
      var s1 := if u.delivery then s.(orderType := Some(Delivery)) else s;
      if s1.intent == Some(Order) && s1.orderType == Some(Delivery) && !Truthy(s1.address) then
        if u.address.Some? then
          var a := u.address.value;
          Quiet(Info, ConfirmAddress,
                s1.(address := Some(a.street), city := Some(a.city), postcode := a.postcode), OrderOrReserve)
        else Quiet(Info, AskForAddress, s1, Info)
      else Quiet(Info, InfoComplete, s1, OrderOrReserve)
  }

  function OrderStep(s: SlotData, u: Heard): StepResult {
    if s.items == [] then
      if u.items != [] then Quiet(OrderOrReserve, ConfirmItems, s.(items := u.items), OrderOrReserve)
      else Quiet(OrderOrReserve, AskForOrderItems, s, OrderOrReserve)
    else if s.payment.None? then
      if HeardPayment(u).Some? then Quiet(OrderOrReserve, ConfirmPayment, s.(payment := HeardPayment(u)), Readback)
      else Quiet(OrderOrReserve, AskForPayment, s, OrderOrReserve)
    else Quiet(OrderOrReserve, FlowError, s, OrderOrReserve)
  }

  function ReserveStep(s: SlotData, u: Heard): StepResult {
    if !Truthy(s.date) then
      if Truthy(u.date) then Quiet(OrderOrReserve, ConfirmDate, s.(date := u.date), OrderOrReserve)
      else Quiet(OrderOrReserve, AskForDate, s, OrderOrReserve)
    else if !Truthy(s.time) then
      if u.time.Some? then Quiet(OrderOrReserve, ConfirmTime, s.(time := Some(ClockText(u.time.value))), OrderOrReserve)
      else Quiet(OrderOrReserve, AskForTime, s, OrderOrReserve)
    else if !TruthyInt(s.partySize) then
      if u.size.Some? then Quiet(OrderOrReserve, ConfirmPartySize, s.(partySize := Some(u.size.value)), Readback)
      else Quiet(OrderOrReserve, AskForPartySize, s, OrderOrReserve)
    else Quiet(OrderOrReserve, FlowError, s, OrderOrReserve)
  }

  function OrderOrReserveStep(s: SlotData, u: Heard): StepResult {
    match s.intent
    case Some(Order) => OrderStep(s, u)
    case Some(Reservation) => ReserveStep(s, u)
    case None => Quiet(OrderOrReserve, FlowError, s, OrderOrReserve)
  }

  function ReadbackStep(s: SlotData, u: Heard): StepResult {
    if u.yes then StepResult(Readback, ConfirmedHint, s.(confirmed := true), [], true, Committed)
    else StepResult(Readback, AskForConfirmation, s, [], true, Readback)
  }

  function CommittedStep(s: SlotData): StepResult {
    if !s.confirmed then Quiet(Committed, ErrorNotConfirmed, s, Readback)
    else
      var calls :=
        if s.intent == Some(Order) && s.items != [] && s.payment.Some? then [OrderCall(s)]
        else if s.intent == Some(Reservation) && Truthy(s.date) && Truthy(s.time) && TruthyInt(s.partySize)
        then [ReservationCall(s)]
        else [];
      StepResult(Committed, ToolExecuted, s, calls, false, PostCommit)
  }

  function PostCommitStep(s: SlotData, u: Heard): StepResult {
    Quiet(PostCommit, if u.question then OfferFaq else Farewell, s, PostCommit)
  }

  function Step(phase: Phase, s: SlotData, u: Heard): StepResult {
    match phase
    case Greeting => GreetingStep(s, u)
    case Info => InfoStep(s, u)
    case OrderOrReserve => OrderOrReserveStep(s, u)
    case Readback => ReadbackStep(s, u)
    case Committed => CommittedStep(s)
    case PostCommit => PostCommitStep(s, u)
  }

  // ----- Whole conversations -----

  datatype State = State(phase: Phase, slots: SlotData)

  /** The machine and its slots after a conversation that started fresh in GREETING. */
  function After(us: seq<Heard>): State {
    if us == [] then State(Greeting, FRESH_SLOTS)
    else
      var st := After(us[..|us| - 1]);
      var r := Step(st.phase, st.slots, us[|us| - 1]);
      State(r.nextState, r.slots)
  }

  /** What the last step of a conversation returned. */
  function LastResult(us: seq<Heard>): StepResult
    requires us != []
  {
    var st := After(us[..|us| - 1]);
    Step(st.phase, st.slots, us[|us| - 1])
  }

  /** Every tool call of a conversation, in order. */
  function Emitted(us: seq<Heard>): seq<ToolCall> {
    if us == [] then [] else Emitted(us[..|us| - 1]) + LastResult(us).toolCalls
  }

  // ----- The machine as an object -----

  class ConversationSlots {
    var phone: Option<string>
    var name: Option<string>
    var address: Option<string>
    var city: Option<string>
    var postcode: Option<string>
    var items: seq<MenuItem>
    var orderType: Option<OrderType>
    var payment: Option<Payment>
    var date: Option<string>
    var time: Option<string>
    var partySize: Option<int>
    var intent: Option<Intent>
    var confirmed: bool

    function Data(): SlotData
      reads this
    {
      SlotData(phone, name, address, city, postcode, items, orderType, payment,
               date, time, partySize, intent, confirmed)
    }

    constructor ()
      ensures Data() == FRESH_SLOTS
    {
      phone, name, address, city, postcode := None, None, None, None, None;
      items, orderType, payment := [], None, None;
      date, time, partySize, intent, confirmed := None, None, None, None, false;
    }
  }

  class ConversationFSM {
    var currentState: Phase
    /** The conversation so far and the tool calls it caused: the never-forgotten history. */
    ghost var heard: seq<Heard>
    ghost var emitted: seq<ToolCall>

    /** The object is where a fresh conversation over `heard` leads. */
    ghost predicate Tracks(slots: ConversationSlots)
      reads this, slots
    {
      && After(heard) == State(currentState, slots.Data())
      && Emitted(heard) == emitted
    }

    constructor ()
      ensures currentState == Greeting && heard == [] && emitted == []
    {
      currentState, heard, emitted := Greeting, [], [];
    }

    /** One turn. The result, the new phase and the new slots are those of the step function,
        and an object that tracked its history still does. */
    method TakeStep(slots: ConversationSlots, u: Heard) returns (r: StepResult)
      modifies this, slots
      ensures r == Step(old(currentState), old(slots.Data()), u)
      ensures currentState == r.nextState && slots.Data() == r.slots
      ensures heard == old(heard) + [u] && emitted == old(emitted) + r.toolCalls
      ensures old(Tracks(slots)) ==> Tracks(slots)
    {
      match currentState {
        case Greeting => r := PhaseGreeting(slots, u);
        case Info => r := PhaseInfo(slots, u);
        case OrderOrReserve => r := PhaseOrderOrReserve(slots, u);
        case Readback => r := PhaseReadback(slots, u);
        case Committed => r := PhaseCommitted(slots);
        case PostCommit => r := PhasePostCommit(slots, u);
      }
      currentState := r.nextState;
      heard, emitted := heard + [u], emitted + r.toolCalls;
      assert heard[..|heard| - 1] == old(heard);
    }

    method PhaseGreeting(slots: ConversationSlots, u: Heard) returns (r: StepResult)
      modifies slots
      ensures r == GreetingStep(old(slots.Data()), u) && slots.Data() == r.slots
    {
      if slots.intent.Some? {
        return Quiet(Greeting, ContinueFlow, slots.Data(), Info);
      }
      if u.order && !u.reservation {
        slots.intent := Some(Order);
        return Quiet(Greeting, ConfirmIntent, slots.Data(), Info);
      } else if u.reservation && !u.order {
        slots.intent := Some(Reservation);
        return Quiet(Greeting, ConfirmIntent, slots.Data(), Info);
      }
      return Quiet(Greeting, AskForIntent, slots.Data(), Greeting);
    }

    method PhaseInfo(slots: ConversationSlots, u: Heard) returns (r: StepResult)
      modifies slots
      ensures r == InfoStep(old(slots.Data()), u) && slots.Data() == r.slots
    {
      hide PickName, Truthy;
      if !Truthy(slots.phone) {
        if Truthy(u.phone) {
          slots.phone := u.phone;
          return Quiet(Info, ConfirmPhone, slots.Data(), Info);
        }
        return Quiet(Info, AskForPhone, slots.Data(), Info);
      }
      if !Truthy(slots.name) {
        if u.nameWords != [] {
          var name := PickName(u.nameWords);
          if |name| > 1 {
            slots.name := Some(name);
            if slots.intent == Some(Order) && !Truthy(slots.address) {
              return Quiet(Info, AskForOrderType, slots.Data(), Info);
            }
            return Quiet(Info, InfoComplete, slots.Data(), OrderOrReserve);
          }
        }
        return Quiet(Info, AskForName, slots.Data(), Info);
      }
      if u.delivery {
        slots.orderType := Some(Delivery);
      }
      if slots.intent == Some(Order) && slots.orderType == Some(Delivery) && !Truthy(slots.address) {
        if u.address.Some? {
          slots.address := Some(u.address.value.street);
          slots.city := Some(u.address.value.city);
          slots.postcode := u.address.value.postcode;
          return Quiet(Info, ConfirmAddress, slots.Data(), OrderOrReserve);
        }
        return Quiet(Info, AskForAddress, slots.Data(), Info);
      }
      return Quiet(Info, InfoComplete, slots.Data(), OrderOrReserve);
    }

    method PhaseOrderOrReserve(slots: ConversationSlots, u: Heard) returns (r: StepResult)
      modifies slots
      ensures r == OrderOrReserveStep(old(slots.Data()), u) && slots.Data() == r.slots
    {
      hide Truthy, TruthyInt, ClockText;
      if slots.intent == Some(Order) {
        if slots.items == [] {
          if u.items != [] {
            slots.items := u.items;
            return Quiet(OrderOrReserve, ConfirmItems, slots.Data(), OrderOrReserve);
          }
          return Quiet(OrderOrReserve, AskForOrderItems, slots.Data(), OrderOrReserve);
        }
        if slots.payment.None? {
          slots.payment := HeardPayment(u);
          if slots.payment.Some? {
            return Quiet(OrderOrReserve, ConfirmPayment, slots.Data(), Readback);
          }
          return Quiet(OrderOrReserve, AskForPayment, slots.Data(), OrderOrReserve);
        }
      } else if slots.intent == Some(Reservation) {
        if !Truthy(slots.date) {
          if Truthy(u.date) {
            slots.date := u.date;
            return Quiet(OrderOrReserve, ConfirmDate, slots.Data(), OrderOrReserve);
          }
          return Quiet(OrderOrReserve, AskForDate, slots.Data(), OrderOrReserve);
        }
        if !Truthy(slots.time) {
          if u.time.Some? {
            slots.time := Some(ClockText(u.time.value));
            return Quiet(OrderOrReserve, ConfirmTime, slots.Data(), OrderOrReserve);
          }
          return Quiet(OrderOrReserve, AskForTime, slots.Data(), OrderOrReserve);
        }
        if !TruthyInt(slots.partySize) {
          if u.size.Some? {
            slots.partySize := Some(u.size.value);
            return Quiet(OrderOrReserve, ConfirmPartySize, slots.Data(), Readback);
          }
          return Quiet(OrderOrReserve, AskForPartySize, slots.Data(), OrderOrReserve);
        }
      }
      return Quiet(OrderOrReserve, FlowError, slots.Data(), OrderOrReserve);
    }

    method PhaseReadback(slots: ConversationSlots, u: Heard) returns (r: StepResult)
      modifies slots
      ensures r == ReadbackStep(old(slots.Data()), u) && slots.Data() == r.slots
    {
      if u.yes {
        slots.confirmed := true;
        return StepResult(Readback, ConfirmedHint, slots.Data(), [], true, Committed);
      }
      return StepResult(Readback, AskForConfirmation, slots.Data(), [], true, Readback);
    }

    method PhaseCommitted(slots: ConversationSlots) returns (r: StepResult)
      ensures r == CommittedStep(slots.Data()) && r.slots == slots.Data()
    {
      if !slots.confirmed {
        return Quiet(Committed, ErrorNotConfirmed, slots.Data(), Readback);
      }
      var calls: seq<ToolCall> := [];
      if slots.intent == Some(Order) && slots.items != [] && slots.payment.Some? {
        calls := calls + [OrderCall(slots.Data())];
      } else if slots.intent == Some(Reservation) && Truthy(slots.date) && Truthy(slots.time)
                && TruthyInt(slots.partySize) {
        calls := calls + [ReservationCall(slots.Data())];
      }
      return StepResult(Committed, ToolExecuted, slots.Data(), calls, false, PostCommit);
    }

    method PhasePostCommit(slots: ConversationSlots, u: Heard) returns (r: StepResult)
      ensures r == PostCommitStep(slots.Data(), u) && r.slots == slots.Data()
    {
      if u.question {
        return Quiet(PostCommit, OfferFaq, slots.Data(), PostCommit);
      }
      return Quiet(PostCommit, Farewell, slots.Data(), PostCommit);
    }
  }
}
