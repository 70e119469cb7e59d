/** The same protocol in terms of the calendar: which texts may be let in. */
module CalendarRuns {
  import opened Wrappers
  import opened Decimal
  import opened ClockText
  import opened Calendar
  import opened Reservations
  import opened SeatLaws
  import opened ReservationRuns

  /** A date text with a time text. */
  type Texts = (string, string)

  function MomentOfTexts(t: Texts): Option<int> {
    Moment(t.0, t.1)
  }

  function AtMoment(moment: int): Reservation -> int {
    (r: Reservation) => if r.confirmed && Moment(r.date, r.time) == Some(moment) then r.partySize else 0
  }

  /** The seats taken in a half-hour of the calendar, however it is written. */
  ghost function CalendarSeats(store: Store, moment: int): int {
    Total(store, AtMoment(moment))
  }

  /** Every request of a run uses only these texts. */
  predicate Admits(ok: Texts -> bool, es: seq<Event>) {
    forall k :: 0 <= k < |es| && es[k].q.date.Some? && es[k].q.time.Some? ==>
      ok((es[k].q.date.value, es[k].q.time.value))
  }

  /** No half-hour of the calendar on a fresh desk ever exceeds the capacity. */
  ghost predicate CalendarIsSafe(ok: Texts -> bool, grid: int, capacity: int) {
    forall es, moment ::
      Disciplined(CalendarSlots, FRESH_DESK, es) && Configured(es, grid, capacity) && Admits(ok, es) ==>
        CalendarSeats(SharedAfter(map[], es), moment) <= capacity
  }

  /** Whenever two admitted texts name the same half-hour, the code compares them equal. */
  ghost predicate Unambiguous(ok: Texts -> bool) {
    forall a, b :: ok(a) && ok(b) && MomentOfTexts(a).Some? && MomentOfTexts(a) == MomentOfTexts(b) ==> SameKey(a, b)
  }

  predicate SameKey(a: Texts, b: Texts) {
    a.0 == b.0 && BucketTime(a.1, COUNT_GRID) == BucketTime(b.1, COUNT_GRID)
  }

  lemma {:induction false} StoredAreAdmitted(ok: Texts -> bool, es: seq<Event>, id: string)
    requires Admits(ok, es) && id in SharedAfter(map[], es)
    ensures ok((SharedAfter(map[], es)[id].date, SharedAfter(map[], es)[id].time))
  {
    if es != [] {
      var front, e := es[..|es| - 1], es[|es| - 1];
      if !Creates(e) || id != e.id {
        StoredAreAdmitted(ok, front, id);
      }
    }
  }

  /** Over unambiguous texts a run that is disciplined by the calendar is disciplined as the code reads it. */
  lemma CalendarDisciplineSuffices(ok: Texts -> bool, es: seq<Event>)
    requires Unambiguous(ok) && Admits(ok, es) && Disciplined(CalendarSlots, FRESH_DESK, es)
    ensures Disciplined(TextSlots, FRESH_DESK, es)
  {
    hide Answer, BucketTime, SharedAfter, Visible, IsUnused, MissingOf, Moment;
    forall k: nat | k < |es| && Creates(es[k])
      ensures exists j :: CoveredBy(TextSlots, FRESH_DESK, es, j, k)
    {
      var j: nat :| CoveredBy(CalendarSlots, FRESH_DESK, es, j, k);
      SameMomentSameSlot(ok, es, j, k);
      assert CoveredBy(TextSlots, FRESH_DESK, es, j, k);
    }
  }

  lemma SameMomentSameSlot(ok: Texts -> bool, es: seq<Event>, j: nat, k: nat)
    requires Unambiguous(ok) && Admits(ok, es) && j < |es| && k < |es| && SameSlot(CalendarSlots, es[j].q, es[k].q)
    ensures SameSlot(TextSlots, es[j].q, es[k].q)
  {
    hide ParseClock, FormatClock, ParseDate, DayNumber;
    var a, b := es[j].q, es[k].q;
    assert ok((a.date.value, a.time.value)) && ok((b.date.value, b.time.value));
    assert SameKey((a.date.value, a.time.value), (b.date.value, b.time.value));
  }

  /** Over unambiguous texts a half-hour is one text slot. */
  lemma MomentIsOneSlot(ok: Texts -> bool, es: seq<Event>, moment: int, date: string, time: string)
    requires Unambiguous(ok) && Admits(ok, es) && ok((date, time)) && Moment(date, time) == Some(moment)
    ensures BucketTime(time, COUNT_GRID).Some?
    ensures CalendarSeats(SharedAfter(map[], es), moment)
            == Seats(SharedAfter(map[], es), date, BucketTime(time, COUNT_GRID).value)
  {
    hide ParseClock, FormatClock, ParseDate, DayNumber, SharedAfter, Total;
    var store, bucket := SharedAfter(map[], es), BucketTime(time, COUNT_GRID).value;
    forall id | id in store
      ensures AtMoment(moment)(store[id]) == Taking(date, bucket)(store[id])
    {
      var r := store[id];
      StoredAreAdmitted(ok, es, id);
      if Moment(r.date, r.time) == Some(moment) {
        assert MomentOfTexts((r.date, r.time)) == MomentOfTexts((date, time));
        assert SameKey((r.date, r.time), (date, time));
      } else if r.date == date && BucketTime(r.time, COUNT_GRID) == Some(bucket) {
        SlotsNameMoments(date, r.time, time);
        assert false;
      }
    }
    SameTotals(store, AtMoment(moment), Taking(date, bucket));
  }

  lemma UnambiguousTextsAreSafe(ok: Texts -> bool, es: seq<Event>, capacity: int, moment: int)
    requires Unambiguous(ok) && capacity >= 0
    requires Disciplined(CalendarSlots, FRESH_DESK, es) && Configured(es, COUNT_GRID, capacity) && Admits(ok, es)
    ensures CalendarSeats(SharedAfter(map[], es), moment) <= capacity
  {
    hide Disciplined, Configured, Unambiguous, Admits, Total, Moment, SharedAfter, BucketTime;
    var store := SharedAfter(map[], es);
    if id :| id in store && Moment(store[id].date, store[id].time) == Some(moment) {
      StoredAreAdmitted(ok, es, id);
      MomentIsOneSlot(ok, es, moment, store[id].date, store[id].time);
      CalendarDisciplineSuffices(ok, es);
      HalfHourGridIsSafe(es, capacity, store[id].date, BucketTime(store[id].time, COUNT_GRID).value);
    } else {
      SameTotals(store, AtMoment(moment), Nothing());
      NothingTotals(store);
    }
  }

  function Nothing(): Reservation -> int {
    r => 0
  }

  lemma {:induction false} NothingTotals(store: Store)
    ensures Total(store, Nothing()) == 0
    decreases |store|
  {
    hide Total;
    if store == map[] {
      NothingCounts(Nothing());
    } else {
      var id :| id in store;
      var less := store - {id};
      SmallerWithout(store, id);
      NothingTotals(less);
      UpdateShiftsTotals(less, id, store[id], Nothing());
      assert less[id := store[id]] == store;
    }
  }

  /** The run that uses an ambiguity: fill the half-hour under one text, then book it once more under another. */
  function Overbooking(a: Texts, b: Texts, capacity: nat): seq<Event> {
    Rounds(ForOne(a.0, a.1), OpenDoors(COUNT_GRID, capacity), capacity)
    + [Checked(ForOne(b.0, b.1), None, OpenDoors(COUNT_GRID, capacity)), Booked(ForOne(b.0, b.1), LongId(capacity + 1))]
  }

  lemma MomentsAreRead(t: Texts)
    requires MomentOfTexts(t).Some?
    ensures ParseDate(t.0).Some? && BucketTime(t.1, COUNT_GRID).Some? && t.0 != "" && t.1 != ""
  {
  }

  lemma {:induction false} AmbiguousTextsOverbook(a: Texts, b: Texts, capacity: nat)
    requires MomentOfTexts(a).Some? && MomentOfTexts(a) == MomentOfTexts(b) && !SameKey(a, b) && capacity >= 1
    ensures var es := Overbooking(a, b, capacity);
            && Disciplined(CalendarSlots, FRESH_DESK, es) && Configured(es, COUNT_GRID, capacity)
            && (forall k :: 0 <= k < |es| ==> es[k].q == ForOne(a.0, a.1) || es[k].q == ForOne(b.0, b.1))
            && CalendarSeats(SharedAfter(map[], es), MomentOfTexts(a).value) == capacity + 1
  {
    hide Disciplined, Total, Answer, BucketTime, ParseDate, ParseClock, MissingOf, SharedAfter, DayNumber, Visible;
    var q, p, env := ForOne(a.0, a.1), ForOne(b.0, b.1), OpenDoors(COUNT_GRID, capacity);
    var moment := MomentOfTexts(a).value;
    MomentsAreRead(a);
    MomentsAreRead(b);
    var front, bucket := Rounds(q, env, capacity), BucketTime(b.1, COUNT_GRID).value;
    var store := SharedAfter(map[], front);
    ForOneIsComplete(a.0, a.1);
    ForOneIsComplete(b.0, b.1);
    RoundsAreDisciplined(CalendarSlots, a.0, a.1, COUNT_GRID, capacity, capacity);
    RoundsTotal(q, env, capacity, Taking(b.0, bucket));
    RoundsTotal(q, env, capacity, AtMoment(moment));
    RoundsAreAlike(q, env, capacity);
    assert Taking(b.0, bucket)(Stored(q)) == 0 && AtMoment(moment)(Stored(q)) == 1;
    OnlySeatsDecide(store, b.0, b.1, COUNT_GRID, capacity);
    NamesASlot(CalendarSlots, b.0, b.1);
    FreshView(front, None);
    DisciplineGrows(CalendarSlots, FRESH_DESK, front, p, env, LongId(capacity + 1));
    OneRound(front, p, env, LongId(capacity + 1), AtMoment(moment));
  }

  // ----- Main results -----

  /** On the half-hour grid no table is given away twice exactly if the admitted texts are unambiguous. */
  lemma {:induction false} SafeExactlyForUnambiguousTexts(ok: Texts -> bool, capacity: int)
    requires capacity >= 1
    ensures CalendarIsSafe(ok, COUNT_GRID, capacity) <==> Unambiguous(ok)
  {
    hide Disciplined, Configured, CalendarSeats, SharedAfter, SameKey, Moment;
    if Unambiguous(ok) {
      forall es, moment
        | Disciplined(CalendarSlots, FRESH_DESK, es) && Configured(es, COUNT_GRID, capacity) && Admits(ok, es)
        ensures CalendarSeats(SharedAfter(map[], es), moment) <= capacity
      {
        UnambiguousTextsAreSafe(ok, es, capacity, moment);
      }
    } else {
      var a, b :| ok(a) && ok(b) && MomentOfTexts(a).Some? && MomentOfTexts(a) == MomentOfTexts(b) && !SameKey(a, b);
      AmbiguousTextsOverbook(a, b, capacity);
      assert Admits(ok, Overbooking(a, b, capacity));
    }
  }

  function Canonical(): Texts -> bool {
    (t: Texts) => IsCanonical(t.0, t.1)
  }

  lemma CanonicalTextsAreUnambiguous()
    ensures Unambiguous(Canonical())
  {
    hide IsCanonical, Moment, BucketTime;
    forall a, b |
      Canonical()(a) && Canonical()(b) && MomentOfTexts(a).Some? && MomentOfTexts(a) == MomentOfTexts(b)
      ensures SameKey(a, b)
    {
      CanonicalTextsAgree(a.0, a.1, b.0, b.1);
    }
  }

  /** With padded dates and proper times of day, the calendar is safe exactly on the half-hour grid. */
  lemma {:induction false} CanonicalTextsAreSafeIff(grid: int, capacity: int)
    requires capacity >= 1
    ensures CalendarIsSafe(Canonical(), grid, capacity) <==> grid == COUNT_GRID
  {
    hide Disciplined, Configured, CalendarSeats, SharedAfter, Unambiguous, Admits, Canonical;
    if grid == COUNT_GRID {
      CanonicalTextsAreUnambiguous();
      SafeExactlyForUnambiguousTexts(Canonical(), capacity);
    } else {
      var es, moment := StrayRunOverbooks(grid, capacity);
      assert CalendarSeats(SharedAfter(map[], es), moment) > capacity;
    }
  }

  lemma StrayRunOverbooks(grid: int, capacity: int) returns (es: seq<Event>, moment: int)
    requires grid != COUNT_GRID && capacity >= 1
    ensures Disciplined(CalendarSlots, FRESH_DESK, es) && Configured(es, grid, capacity) && Admits(Canonical(), es)
    ensures CalendarSeats(SharedAfter(map[], es), moment) == capacity + 1
  {
    hide Disciplined, Configured, Seats, CalendarSeats, SharedAfter, Unambiguous, Admits, Canonical, Moment, ShowDate,
      StrayTime, StraySlot, BucketTime, IsCanonical;
    var date, time := ShowDate(SOME_DAY), StrayTime(grid);
    es := Rounds(ForOne(date, time), OpenDoors(grid, capacity), capacity + 1);
    CanonicalTextsAreUnambiguous();
    StraySlots(grid);
    StrayRunIsCanonical(grid, capacity, capacity + 1);
    moment := Moment(date, time).value;
    OtherGridsOverbook(CalendarSlots, grid, capacity, capacity + 1);
    MomentIsOneSlot(Canonical(), es, moment, date, time);
  }

  lemma StrayRunIsCanonical(grid: int, capacity: int, n: nat)
    requires grid != COUNT_GRID && capacity >= 1
    ensures var date, time := ShowDate(SOME_DAY), StrayTime(grid);
            && Canonical()((date, time)) && Moment(date, time).Some?
            && Admits(Canonical(), Rounds(ForOne(date, time), OpenDoors(grid, capacity), n))
  {
    hide ShowDate, StrayTime, ParseClock, ParseDate, BucketTime, MissingOf;
    var date, time := ShowDate(SOME_DAY), StrayTime(grid);
    StraySlots(grid);
    TextIsThere(date, time, grid);
    ForOneIsComplete(date, time);
    RoundsAreAlike(ForOne(date, time), OpenDoors(grid, capacity), n);
  }

  // ----- Failing inputs -----

  /** Minutes past the hour: "19:90" is half past eight, in another slot than "20:30". */
  lemma {:induction false} OverrunningMinutesOverbook(ok: Texts -> bool, capacity: int)
    requires capacity >= 1 && ok(("2026-01-15", "19:90")) && ok(("2026-01-15", "20:30"))
    ensures !CalendarIsSafe(ok, COUNT_GRID, capacity)
  {
    hide ParseClock, ParseDate, DayNumber, CalendarIsSafe;
    assert "19:90" == FormatClock(19, 90) && "20:30" == FormatClock(20, 30);
    FormatReadsBack(19, 90);
    FormatReadsBack(20, 30);
    PaddedDates();
    assert MomentOfTexts(("2026-01-15", "19:90")) == MomentOfTexts(("2026-01-15", "20:30"));
    assert !SameKey(("2026-01-15", "19:90"), ("2026-01-15", "20:30")) by {
      if FormatClock(19, 90) == FormatClock(20, 30) {
        FormatIsInjective(19, 90, 20, 30);
      }
    }
    SafeExactlyForUnambiguousTexts(ok, capacity);
  }

  /** A date without its zero: both are read, and they are counted apart. */
  lemma {:induction false} UnpaddedDatesOverbook(ok: Texts -> bool, capacity: int)
    requires capacity >= 1 && ok(("2026-1-15", "19:00")) && ok(("2026-01-15", "19:00"))
    ensures !CalendarIsSafe(ok, COUNT_GRID, capacity)
  {
    hide ParseClock, ParseDate, DayNumber, CalendarIsSafe;
    assert "19:00" == FormatClock(19, 0);
    FormatReadsBack(19, 0);
    PaddedDates();
    UnpaddedDate();
    assert MomentOfTexts(("2026-1-15", "19:00")) == MomentOfTexts(("2026-01-15", "19:00"));
    assert "2026-1-15"[5] != "2026-01-15"[5];
    assert !SameKey(("2026-1-15", "19:00"), ("2026-01-15", "19:00"));
    SafeExactlyForUnambiguousTexts(ok, capacity);
  }

  /** Hours past midnight: "24:10" belongs to the next day. */
  lemma {:induction false} OverrunningHoursOverbook(ok: Texts -> bool, capacity: int)
    requires capacity >= 1 && ok(("2026-01-15", "24:10")) && ok(("2026-01-16", "00:10"))
    ensures !CalendarIsSafe(ok, COUNT_GRID, capacity)
  {
    hide ParseClock, ParseDate, CalendarIsSafe, YearStart;
    assert "24:10" == FormatClock(24, 10) && "00:10" == FormatClock(0, 10);
    FormatReadsBack(24, 10);
    FormatReadsBack(0, 10);
    PaddedDates();
    assert MomentOfTexts(("2026-01-15", "24:10")) == MomentOfTexts(("2026-01-16", "00:10"));
    assert "2026-01-15"[9] != "2026-01-16"[9];
    assert !SameKey(("2026-01-15", "24:10"), ("2026-01-16", "00:10"));
    SafeExactlyForUnambiguousTexts(ok, capacity);
  }

  lemma Numerals()
    ensures ShowPadded(2026, 4) == "2026" && Show02(1) == "01" && Show02(15) == "15" && Show02(16) == "16"
  {
    assert DigitChar(0) == '0' && DigitChar(1) == '1' && DigitChar(2) == '2';
    assert DigitChar(5) == '5' && DigitChar(6) == '6';
    assert ShowPadded(2, 1) == "2" && ShowPadded(20, 2) == "20" && ShowPadded(202, 3) == "202";
    assert ShowNat(1) == "1";
    assert ShowNat(15) == ShowNat(1) + [DigitChar(5)] == "15";
    assert ShowNat(16) == ShowNat(1) + [DigitChar(6)] == "16";
  }

  lemma PaddedDates()
    ensures ParseDate("2026-01-15") == Some(SOME_DAY)
    ensures ParseDate("2026-01-16") == Some(YearMonthDay(2026, 1, 16))
  {
    hide ParseDate, ShowPadded, Show02;
    DatesReadBack(SOME_DAY);
    DatesReadBack(YearMonthDay(2026, 1, 16));
    Numerals();
    assert ShowDate(SOME_DAY) == "2026-01-15" && ShowDate(YearMonthDay(2026, 1, 16)) == "2026-01-16";
  }

  lemma UnpaddedDate()
    ensures ParseDate("2026-1-15") == Some(SOME_DAY)
  {
    hide ShowPadded, Show02, SplitFirst, DigitsValue;
    var s := "2026-1-15";
    Numerals();
    assert s[..4] == "2026" && s[5..] == "1" + ['-'] + "15";
    PaddedReadsBack(2026, 4);
    SplitAtFirst("1", "15", '-');
    TwoDigits(15);
    OneIsOne();
  }

  lemma OneIsOne()
    ensures DigitsValue("1") == 1
  {
    assert "1"[..0] == "";
  }
}
