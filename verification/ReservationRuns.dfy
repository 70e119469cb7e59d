/** Safety of the check-then-create protocol. */
module ReservationRuns {
  import opened Wrappers
  import opened ClockText
  import opened Calendar
  import opened Reservations
  import opened SeatLaws

  datatype Event = Checked(q: Request, tenant: Option<string>, env: Surroundings) | Booked(q: Request, id: string)

  /** A call that really stores a reservation. */
  predicate Creates(e: Event) {
    e.Booked? && MissingOf(e.q) == []
  }

  function SharedAfter(shared: Store, es: seq<Event>): Store {
    if es == [] then shared
    else
      var before, e := SharedAfter(shared, es[..|es| - 1]), es[|es| - 1];
      if Creates(e) then before[e.id := Stored(e.q)] else before
  }

  lemma SharedStep(shared: Store, es: seq<Event>, e: Event)
    ensures SharedAfter(shared, es + [e]) ==
            if Creates(e) then SharedAfter(shared, es)[e.id := Stored(e.q)] else SharedAfter(shared, es)
  {
    assert (es + [e])[..|es|] == es;
  }

  lemma NothingShared(shared: Store)
    ensures SharedAfter(shared, []) == shared
  {
  }

  /** The stores at the start. Only the shared one is ever written. */
  datatype World = World(shared: Store, tenants: map<string, Store>)

  const FRESH_DESK: World := World(map[], map[])

  function ViewAfter(w: World, es: seq<Event>, tenant: Option<string>): Store {
    Visible(SharedAfter(w.shared, es), w.tenants, tenant)
  }

  // ----- The protocol -----

  /** Which texts name the same slot: those the code compares equal, or those that name the same
      half-hour of the calendar. */
  datatype Reading = TextSlots | CalendarSlots

  function SlotOf(q: Request): Option<(string, string)> {
    if q.date.None? || q.time.None? || BucketTime(q.time.value, COUNT_GRID).None? then None
    else Some((q.date.value, BucketTime(q.time.value, COUNT_GRID).value))
  }

  function MomentOf(q: Request): Option<int> {
    if q.date.None? || q.time.None? then None else Moment(q.date.value, q.time.value)
  }

  predicate SameSlot(reading: Reading, a: Request, b: Request) {
    match reading
    case TextSlots => SlotOf(a).Some? && SlotOf(a) == SlotOf(b)
    case CalendarSlots => MomentOf(a).Some? && MomentOf(a) == MomentOf(b)
  }

  /** The creation at `k` follows a check at `j` for the same slot and party that answered "available",
      with no creation in between. Checks name no guest, and may leave out a party of two. */
  ghost predicate CoveredBy(reading: Reading, w: World, es: seq<Event>, j: nat, k: nat) {
    && j < k < |es| && es[j].Checked?
    && SameSlot(reading, es[j].q, es[k].q) && es[k].q.partySize == Some(OrDefault(es[j].q.partySize, 2))
    && (forall i :: j < i < k ==> !Creates(es[i]))
    && Answer(ViewAfter(w, es[..j], es[j].tenant), es[j].q, es[j].env).Available?
  }

  predicate IsUnused(id: string, shared: Store, tenants: map<string, Store>) {
    id !in shared && forall t :: t in tenants ==> id !in tenants[t]
  }

  /** Every creation is covered by a check, and draws an unused id. */
  ghost predicate Disciplined(reading: Reading, w: World, es: seq<Event>) {
    forall k: nat :: k < |es| && Creates(es[k]) ==>
      (exists j :: CoveredBy(reading, w, es, j, k)) && IsUnused(es[k].id, SharedAfter(w.shared, es[..k]), w.tenants)
  }

  /** The checks for this slot use the half-hour grid, at most this capacity, and the viewer's own store. */
  predicate ServedBy(w: World, es: seq<Event>, viewer: Option<string>, date: string, bucket: string, capacity: int) {
    forall k :: 0 <= k < |es| && es[k].Checked? && SlotOf(es[k].q) == Some((date, bucket)) ==>
      && es[k].env.grid == COUNT_GRID && es[k].env.capacity <= capacity
      && OwnStore(w.tenants, es[k].tenant) == OwnStore(w.tenants, viewer)
  }

  lemma {:induction false} ChecksChangeNothing(w: World, es: seq<Event>, j: nat, k: nat)
    requires j <= k <= |es|
    requires forall i :: j <= i < k ==> !Creates(es[i])
    ensures SharedAfter(w.shared, es[..k]) == SharedAfter(w.shared, es[..j])
  {
    if j < k {
      ChecksChangeNothing(w, es, j, k - 1);
      assert es[..k][..k - 1] == es[..k - 1];
    }
  }

  /** What an available answer says about the slot it looked at. */
  lemma AvailableMeans(view: Store, q: Request, env: Surroundings)
    requires Answer(view, q, env).Available?
    ensures q.date.Some? && q.time.Some? && BucketTime(q.time.value, env.grid).Some?
    ensures var booked := Seats(view, q.date.value, BucketTime(q.time.value, env.grid).value);
            OrDefault(q.partySize, 2) <= Max(0, env.capacity - booked)
  {
    hide BucketTime, Seats, HoursBlock, ParseDate, DayNumber;
  }

  /** What a full answer offers has room in the tenant's view: nothing unless the party fits. */
  lemma {:induction false} OffersHaveRoom(view: Store, candidates: seq<(string, string)>, env: Surroundings, party: int,
                                          i: nat)
    requires i < |Fitting(view, candidates, env, party)|
    ensures var a := Fitting(view, candidates, env, party)[i];
            && (a.date, a.time) in candidates && BucketTime(a.time, env.grid).Some?
            && (party > 0 ==>
                  Seats(view, a.date, BucketTime(a.time, env.grid).value) + party <= env.capacity)
  {
    hide BucketTime, Seats;
    var front := candidates[..|candidates| - 1];
    if i < |Fitting(view, front, env, party)| {
      OffersHaveRoom(view, front, env, party, i);
    } else {
      var (date, time) := candidates[|candidates| - 1];
      assert Fitting(view, candidates, env, party)[i] == Offer(view, date, time, env, party)[0];
      assert (date, time) in candidates;
    }
  }

  /** The check that covers a creation saw the very state the creation is made in. */
  lemma CoveringCheck(reading: Reading, w: World, es: seq<Event>, k: nat) returns (j: nat)
    requires Disciplined(reading, w, es) && k < |es| && Creates(es[k])
    ensures j < k && es[j].Checked? && IsUnused(es[k].id, SharedAfter(w.shared, es[..k]), w.tenants)
    ensures SameSlot(reading, es[j].q, es[k].q) && es[k].q.partySize == Some(OrDefault(es[j].q.partySize, 2))
    ensures Answer(ViewAfter(w, es[..k], es[j].tenant), es[j].q, es[j].env).Available?
  {
    hide Answer, Visible, MissingOf, Stored, SameSlot;
    j :| CoveredBy(reading, w, es, j, k);
    ChecksChangeNothing(w, es, j, k);
  }

  lemma CreationStaysWithin(w: World, es: seq<Event>, k: nat, viewer: Option<string>, capacity: int,
                            date: string, bucket: string)
    requires Disciplined(TextSlots, w, es) && k < |es| && Creates(es[k])
    requires ServedBy(w, es, viewer, date, bucket, capacity)
    requires Seats(ViewAfter(w, es[..k], viewer), date, bucket) <= capacity
    ensures Seats(ViewAfter(w, es[..k + 1], viewer), date, bucket) <= capacity
  {
    hide Answer, Seats, BucketTime, MissingOf, Stored, Disciplined, SharedAfter;
    var q, shared := es[k].q, SharedAfter(w.shared, es[..k]);
    var j := CoveringCheck(TextSlots, w, es, k);
    assert es[..k + 1] == es[..k] + [es[k]];
    SharedStep(w.shared, es[..k], es[k]);
    CreationIsConserved(shared, w.tenants, viewer, es[k].id, q, date, bucket);
    if SlotOf(q) == Some((date, bucket)) {
      AvailableMeans(ViewAfter(w, es[..k], viewer), es[j].q, es[j].env);
    }
  }

  // ----- Main results, in terms of the slots as texts -----

  /** In a disciplined run no slot ever exceeds the largest capacity that its own checks used, in the view
      of any tenant with their store, whatever the database reports. */
  lemma {:induction false} NoOverbooking(w: World, es: seq<Event>, viewer: Option<string>, capacity: int,
                                         date: string, bucket: string)
    requires Disciplined(TextSlots, w, es) && ServedBy(w, es, viewer, date, bucket, capacity)
    requires Seats(ViewAfter(w, [], viewer), date, bucket) <= capacity
    ensures Seats(ViewAfter(w, es, viewer), date, bucket) <= capacity
  {
    hide Disciplined, ServedBy, Seats, ViewAfter, Creates;
    for k := 0 to |es|
      invariant Seats(ViewAfter(w, es[..k], viewer), date, bucket) <= capacity
    {
      if Creates(es[k]) {
        CreationStaysWithin(w, es, k, viewer, capacity, date, bucket);
      } else {
        assert es[..k + 1] == es[..k] + [es[k]];
        OnlyCreationsShow(w, es[..k], es[k], viewer);
      }
    }
    assert es[..|es|] == es;
  }

  lemma OnlyCreationsShow(w: World, es: seq<Event>, e: Event, viewer: Option<string>)
    requires !Creates(e)
    ensures ViewAfter(w, es + [e], viewer) == ViewAfter(w, es, viewer)
  {
    SharedStep(w.shared, es, e);
  }

  predicate Configured(es: seq<Event>, grid: int, capacity: int) {
    forall k :: 0 <= k < |es| && es[k].Checked? ==> es[k].env.grid == grid && es[k].env.capacity == capacity
  }

  /** No slot of a fresh desk ever exceeds the capacity. */
  ghost predicate GridIsSafe(grid: int, capacity: int) {
    forall es, date, bucket ::
      Disciplined(TextSlots, FRESH_DESK, es) && Configured(es, grid, capacity) ==>
        Seats(SharedAfter(map[], es), date, bucket) <= capacity
  }

  lemma FreshView(es: seq<Event>, viewer: Option<string>)
    ensures ViewAfter(FRESH_DESK, es, viewer) == SharedAfter(map[], es)
  {
  }

  lemma {:induction false} HalfHourGridIsSafe(es: seq<Event>, capacity: int, date: string, bucket: string)
    requires Disciplined(TextSlots, FRESH_DESK, es) && Configured(es, COUNT_GRID, capacity) && capacity >= 0
    ensures Seats(SharedAfter(map[], es), date, bucket) <= capacity
  {
    hide Disciplined, Total, Visible, Creates;
    FreshView(es, None);
    FreshView([], None);
    NothingShared(map[]);
    NothingCounts(Taking(date, bucket));
    NoOverbooking(FRESH_DESK, es, None, capacity, date, bucket);
  }

  // ----- Runs that fill a slot -----

  /** `n` rounds of checking and booking for one, under ids of growing length. */
  function Rounds(q: Request, env: Surroundings, n: nat): seq<Event> {
    if n == 0 then [] else Rounds(q, env, n - 1) + [Checked(q, None, env), Booked(q, LongId(n))]
  }

  function LongId(n: nat): string {
    seq(n, i => 'A')
  }

  function ForOne(date: string, time: string): Request {
    Request(Some(date), Some(time), Some(1), Some("Kim"))
  }

  lemma ForOneIsComplete(date: string, time: string)
    requires date != "" && time != ""
    ensures MissingOf(ForOne(date, time)) == [] && Stored(ForOne(date, time)) == Reservation(date, time, 1, true)
  {
  }

  lemma OneRound(front: seq<Event>, q: Request, env: Surroundings, id: string, f: Reservation -> int)
    requires MissingOf(q) == [] && id !in SharedAfter(map[], front)
    ensures var more := front + [Checked(q, None, env), Booked(q, id)];
            && SharedAfter(map[], more) == SharedAfter(map[], front)[id := Stored(q)]
            && Total(SharedAfter(map[], more), f) == Total(SharedAfter(map[], front), f) + f(Stored(q))
  {
    hide Total, MissingOf, Stored, SharedAfter;
    var check, book := Checked(q, None, env), Booked(q, id);
    assert front + [check, book] == front + [check] + [book];
    SharedStep(map[], front, check);
    SharedStep(map[], front + [check], book);
    UpdateShiftsTotals(SharedAfter(map[], front), id, Stored(q), f);
  }

  lemma OneMore(n: int, x: int)
    ensures (n - 1) * x + x == n * x
  {
  }

  /** Rounds add their reservation `n` times to any total. */
  lemma {:induction false} RoundsTotal(q: Request, env: Surroundings, n: nat, f: Reservation -> int)
    requires MissingOf(q) == []
    ensures var store := SharedAfter(map[], Rounds(q, env, n));
            && Total(store, f) == n * f(Stored(q))
            && forall id :: id in store ==> |id| <= n && store[id] == Stored(q)
  {
    hide Total, Stored, MissingOf, SharedAfter;
    if n == 0 {
      NothingCounts(f);
      NothingShared(map[]);
    } else {
      RoundsTotal(q, env, n - 1, f);
      OneRound(Rounds(q, env, n - 1), q, env, LongId(n), f);
      OneMore(n, f(Stored(q)));
    }
  }

  lemma {:induction false} RoundsAreAlike(q: Request, env: Surroundings, n: nat)
    ensures forall e :: e in Rounds(q, env, n) ==> e.q == q && (e.Checked? ==> e.env == env)
  {
    if n > 0 {
      RoundsAreAlike(q, env, n - 1);
    }
  }

  /** A covered creation may always be appended. */
  lemma DisciplineGrows(reading: Reading, w: World, es: seq<Event>, q: Request, env: Surroundings, id: string)
    requires Disciplined(reading, w, es) && IsUnused(id, SharedAfter(w.shared, es), w.tenants)
    requires Answer(ViewAfter(w, es, None), q, env).Available?
    requires SameSlot(reading, q, q) && q.partySize == Some(OrDefault(q.partySize, 2))
    ensures Disciplined(reading, w, es + [Checked(q, None, env), Booked(q, id)])
  {
    hide Answer, Visible, SharedAfter, MissingOf, Stored, SameSlot, IsUnused;
    var more := es + [Checked(q, None, env), Booked(q, id)];
    assert more[..|es|] == es;
    forall k: nat | k < |more| && Creates(more[k])
      ensures exists j :: CoveredBy(reading, w, more, j, k)
      ensures IsUnused(more[k].id, SharedAfter(w.shared, more[..k]), w.tenants)
    {
      if k < |es| {
        assert more[..k] == es[..k] && more[k] == es[k];
        var j: nat :| CoveredBy(reading, w, es, j, k);
        assert more[..j] == es[..j];
        assert CoveredBy(reading, w, more, j, k);
      } else {
        assert CoveredBy(reading, w, more, |es|, k);
        assert more[..k] == more[..|es|] + [Checked(q, None, env)];
        SharedStep(w.shared, es, Checked(q, None, env));
      }
    }
  }

  lemma NothingToDiscipline(reading: Reading, w: World)
    ensures Disciplined(reading, w, [])
  {
  }

  /** Surroundings in which only seats decide. */
  function OpenDoors(grid: int, capacity: int): Surroundings {
    Surroundings(12, YearMonthDay(1, 1, 1), NoHours, grid, capacity, None, [])
  }

  lemma OnlySeatsDecide(view: Store, date: string, time: string, grid: int, capacity: int)
    requires ParseDate(date).Some? && BucketTime(time, grid).Some?
    requires Seats(view, date, BucketTime(time, grid).value) < capacity && capacity >= 1
    ensures Answer(view, ForOne(date, time), OpenDoors(grid, capacity)).Available?
    ensures date != "" && time != ""
  {
    hide Seats, DayNumber, BucketTime, FormatClock;
    TextIsThere(date, time, grid);
    NoDayBeforeTheFirst(ParseDate(date).value);
  }

  lemma TextIsThere(date: string, time: string, grid: int)
    requires ParseDate(date).Some? && BucketTime(time, grid).Some?
    ensures date != "" && time != ""
  {
  }

  lemma NoDayBeforeTheFirst(d: Day)
    ensures DayNumber(YearMonthDay(1, 1, 1)) <= DayNumber(d)
  {
    if d.year > 1 {
      EarlierYear(YearMonthDay(1, 1, 1), d);
    } else if d.month > 1 {
      EarlierMonth(YearMonthDay(1, 1, 1), d);
    }
  }

  /** Rounds are disciplined as long as the slot that is looked at has room: for ever if it is not the one
      that is counted, and up to the capacity if it is. */
  lemma {:induction false} RoundsAreDisciplined(reading: Reading, date: string, time: string, grid: int, capacity: int,
                                                n: nat)
    requires ParseDate(date).Some? && BucketTime(time, grid).Some? && BucketTime(time, COUNT_GRID).Some?
    requires capacity >= 1 && (BucketTime(time, grid) == BucketTime(time, COUNT_GRID) ==> n <= capacity)
    ensures Disciplined(reading, FRESH_DESK, Rounds(ForOne(date, time), OpenDoors(grid, capacity), n))
    ensures Configured(Rounds(ForOne(date, time), OpenDoors(grid, capacity), n), grid, capacity)
    ensures date != "" && time != ""
  {
    hide Disciplined, Total, Answer, BucketTime, SharedAfter, ParseDate, MissingOf;
    var q, env, seen := ForOne(date, time), OpenDoors(grid, capacity), BucketTime(time, grid).value;
    TextIsThere(date, time, grid);
    ForOneIsComplete(date, time);
    if n == 0 {
      NothingToDiscipline(reading, FRESH_DESK);
    } else {
      var front := Rounds(q, env, n - 1);
      RoundsAreDisciplined(reading, date, time, grid, capacity, n - 1);
      RoundsTotal(q, env, n - 1, Taking(date, seen));
      RoundsAreAlike(q, env, n);
      FreshView(front, None);
      OnlySeatsDecide(SharedAfter(map[], front), date, time, grid, capacity);
      NamesASlot(reading, date, time);
      DisciplineGrows(reading, FRESH_DESK, front, q, env, LongId(n));
    }
  }

  lemma NamesASlot(reading: Reading, date: string, time: string)
    requires ParseDate(date).Some? && BucketTime(time, COUNT_GRID).Some?
    ensures SameSlot(reading, ForOne(date, time), ForOne(date, time))
  {
  }

  /** Checks need no name, no party where it is two, and not the same minute: such a check covers a booking
      for two at any time of its half-hour. */
  lemma {:induction false} PlainCheckCovers(date: string, checked: string, booked: string, capacity: int, id: string)
    requires ParseDate(date).Some? && BucketTime(checked, COUNT_GRID).Some? && capacity >= 2
    requires BucketTime(booked, COUNT_GRID) == BucketTime(checked, COUNT_GRID)
    ensures var check := Request(Some(date), Some(checked), None, None);
            var booking := Request(Some(date), Some(booked), Some(2), Some("Kim"));
            var es := [Checked(check, None, OpenDoors(COUNT_GRID, capacity)), Booked(booking, id)];
            Disciplined(TextSlots, FRESH_DESK, es) && Creates(es[1])
  {
    hide ParseDate, BucketTime, DayNumber, Total, Visible;
    var check, env := Request(Some(date), Some(checked), None, None), OpenDoors(COUNT_GRID, capacity);
    var es := [Checked(check, None, env), Booked(Request(Some(date), Some(booked), Some(2), Some("Kim")), id)];
    TextIsThere(date, checked, COUNT_GRID);
    TextIsThere(date, booked, COUNT_GRID);
    NoDayBeforeTheFirst(ParseDate(date).value);
    assert es[..0] == [] && es[..1] == [] + [es[0]];
    SharedStep(map[], [], es[0]);
    FreshView([], None);
    NothingCounts(Taking(date, BucketTime(checked, COUNT_GRID).value));
    assert CoveredBy(TextSlots, FRESH_DESK, es, 0, 1);
  }

  // ----- Safe grids -----

  /** A minute whose slot on the given grid is not its half-hour slot. */
  function StrayMinute(grid: int): nat {
    if grid <= 0 then 1 else if grid < COUNT_GRID then grid else COUNT_GRID
  }

  function StrayTime(grid: int): string {
    FormatClock(19, StrayMinute(grid))
  }

  /** The slot it is counted in. */
  function StraySlot(grid: int): string {
    FormatClock(19, Rounded(StrayMinute(grid), COUNT_GRID))
  }

  const SOME_DAY: Day := YearMonthDay(2026, 1, 15)

  lemma StraySlots(grid: int)
    requires grid != COUNT_GRID
    ensures var time := StrayTime(grid);
            && BucketTime(time, grid).Some? && BucketTime(time, COUNT_GRID) == Some(StraySlot(grid))
            && BucketTime(time, grid) != BucketTime(time, COUNT_GRID)
    ensures IsCanonical(ShowDate(SOME_DAY), StrayTime(grid))
  {
    hide FormatClock, ParseClock, ParseDate, ShowDate;
    var m := StrayMinute(grid);
    FormatReadsBack(19, m);
    DatesReadBack(SOME_DAY);
    if BucketTime(FormatClock(19, m), grid) == BucketTime(FormatClock(19, m), COUNT_GRID) {
      FormatIsInjective(19, Rounded(m, grid), 19, Rounded(m, COUNT_GRID));
      if 0 < grid < COUNT_GRID {
        ExactDivision(1, grid);
      }
      assert false;
    }
  }

  /** On any other grid the check looks at a slot that is never counted, and the slot that is counted
      can be filled without end. */
  lemma {:induction false} OtherGridsOverbook(reading: Reading, grid: int, capacity: int, n: nat)
    requires grid != COUNT_GRID && capacity >= 1
    ensures var es := Rounds(ForOne(ShowDate(SOME_DAY), StrayTime(grid)), OpenDoors(grid, capacity), n);
            && Disciplined(reading, FRESH_DESK, es) && Configured(es, grid, capacity)
            && Seats(SharedAfter(map[], es), ShowDate(SOME_DAY), StraySlot(grid)) == n
  {
    hide Disciplined, Configured, Total, SharedAfter, ShowDate, StrayTime, StraySlot, BucketTime, ParseDate, MissingOf;
    var date, time := ShowDate(SOME_DAY), StrayTime(grid);
    StraySlots(grid);
    RoundsAreDisciplined(reading, date, time, grid, capacity, n);
    ForOneIsComplete(date, time);
    RoundsTotal(ForOne(date, time), OpenDoors(grid, capacity), n, Taking(date, StraySlot(grid)));
  }

  /** As the code reads slots, the protocol is safe exactly on the half-hour grid. */
  lemma {:induction false} SafeExactlyOnTheHalfHourGrid(grid: int, capacity: int)
    requires capacity >= 1
    ensures GridIsSafe(grid, capacity) <==> grid == COUNT_GRID
  {
    hide Disciplined, Configured, Seats, SharedAfter, ShowDate, BucketTime, StrayTime, StraySlot;
    if grid == COUNT_GRID {
      forall es, date, bucket | Disciplined(TextSlots, FRESH_DESK, es) && Configured(es, grid, capacity)
        ensures Seats(SharedAfter(map[], es), date, bucket) <= capacity
      {
        HalfHourGridIsSafe(es, capacity, date, bucket);
      }
    } else {
      StraySlots(grid);
      OtherGridsOverbook(TextSlots, grid, capacity, capacity + 1);
    }
  }

  /** A limit of the guarantee: tenants with stores of their own can overbook each other. */
  lemma {:induction false} DifferentStoresOverbook(date: string, time: string, capacity: int)
    requires ParseDate(date).Some? && BucketTime(time, COUNT_GRID).Some? && capacity >= 1
    ensures var w := World(map[], map["B" := map["X" := Reservation(date, time, capacity, true)]]);
            var es := Rounds(ForOne(date, time), OpenDoors(COUNT_GRID, capacity), 1);
            && Disciplined(TextSlots, w, es) && Configured(es, COUNT_GRID, capacity)
            && Seats(ViewAfter(w, [], Some("B")), date, BucketTime(time, COUNT_GRID).value) == capacity
            && Seats(ViewAfter(w, es, Some("B")), date, BucketTime(time, COUNT_GRID).value) == capacity + 1
  {
    hide Disciplined, Total, Answer, BucketTime, ParseDate, MissingOf, SharedAfter;
    var other: Store := map["X" := Reservation(date, time, capacity, true)];
    var w := World(map[], map["B" := other]);
    var q, env, bucket := ForOne(date, time), OpenDoors(COUNT_GRID, capacity), BucketTime(time, COUNT_GRID).value;
    var check, book := Checked(q, None, env), Booked(q, LongId(1));
    TextIsThere(date, time, COUNT_GRID);
    ForOneIsComplete(date, time);
    NothingShared(map[]);
    NothingCounts(Taking(date, bucket));
    assert Visible(map[], w.tenants, None) == map[];
    OnlySeatsDecide(map[], date, time, COUNT_GRID, capacity);
    NamesASlot(TextSlots, date, time);
    NothingToDiscipline(TextSlots, w);
    assert LongId(1)[0] == 'A' && "X"[0] == 'X';
    DisciplineGrows(TextSlots, w, [], q, env, LongId(1));
    assert Rounds(q, env, 0) == [] && [] + [check, book] == [check, book] && [check, book] == [check] + [book];
    assert [] + [check] == [check];
    SharedStep(map[], [], check);
    SharedStep(map[], [check], book);
    UpdateShiftsTotals(map[], "X", other["X"], Taking(date, bucket));
    assert map[]["X" := other["X"]] == other;
    assert Visible(map[], w.tenants, Some("B")) == other;
    CreationIsConserved(map[], w.tenants, Some("B"), LongId(1), q, date, bucket);
  }
}
