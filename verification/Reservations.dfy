/** Seat counting and the check-then-create reservation protocol of tools/executor.py (in-memory stores). */
module Reservations {
  import opened Sums
  import opened Wrappers
  import opened ClockText
  import opened Calendar

  datatype Reservation = Reservation(date: string, time: string, partySize: int, confirmed: bool)

  type Store = map<string, Reservation>

  /** Counting always uses half-hour slots. */
  const COUNT_GRID: int := 30

  // ----- Counting, as a sum over ids -----

  /** What one reservation takes from a slot. */
  function SeatsTaken(r: Reservation, date: string, bucket: string): int {
    if r.confirmed && r.date == date && BucketTime(r.time, COUNT_GRID) == Some(bucket) then r.partySize else 0
  }

  function Taking(date: string, bucket: string): Reservation -> int {
    r => SeatsTaken(r, date, bucket)
  }

  function OfId(store: Store, f: Reservation -> int): string -> int {
    id => if id in store then f(store[id]) else 0
  }

  /** The sum of a measure over a store. */
  ghost function Total(store: Store, f: Reservation -> int): int {
    SumOver(store.Keys, OfId(store, f))
  }

  /** The seats a store takes from a slot. A slot is a pair of texts, as the code compares them. */
  ghost function Seats(store: Store, date: string, bucket: string): int {
    Total(store, Taking(date, bucket))
  }

  function OwnStore(tenants: map<string, Store>, tenant: Option<string>): Store {
    if Truthy(tenant) && tenant.value in tenants then tenants[tenant.value] else map[]
  }

  /** What a tenant sees: every id once, its own store first. */
  function Visible(shared: Store, tenants: map<string, Store>, tenant: Option<string>): Store {
    shared + OwnStore(tenants, tenant)
  }

  // ----- The operations -----

  /** The opening hours of the requested day: none known, closed, or the spans found, in minutes. */
  datatype Hours = NoHours | ClosedDay | Spans(spans: seq<(int, int)>)

  /** What a check reads besides the stores: the clock, the tenant's settings, the database count, and the
      dates and times two steps of the grid around the request, if that can be computed. */
  datatype Surroundings = Surroundings(
    hour: int, today: Day, hours: Hours, grid: int, capacity: int, database: Option<nat>,
    candidates: seq<(string, string)>)

  datatype Request = Request(date: Option<string>, time: Option<string>, partySize: Option<int>, name: Option<string>)

  datatype Alternative = Alternative(date: string, time: string, remaining: int)

  datatype Availability =
    | WaitTime(minutes: int) | BadRequest | Refused
    | Available(remaining: int) | Full(remaining: int, alternatives: seq<Alternative>)

  datatype Creation = MissingFields(fields: seq<string>) | Created(id: string)

  /** Python's `x or default` on an optional number. */
  function OrDefault(n: Option<int>, default: int): int {
    if n.Some? && n.value != 0 then n.value else default
  }

  function Max(a: int, b: int): int {
    if a < b then b else a
  }

  predicate IsOpen(spans: seq<(int, int)>, minutes: int) {
    exists i :: 0 <= i < |spans| && spans[i].0 <= minutes <= spans[i].1
  }

  /** The opening-hours gate: a refusal, an error, or nothing. */
  function HoursBlock(hours: Hours, time: string): (block: Option<Availability>)
    ensures block.Some? ==> block.value == Refused || block.value == BadRequest
  {
    match hours
    case NoHours => None
    case ClosedDay => Some(Refused)
    case Spans(spans) =>
      if spans == [] then None
      else if TimeToMinutes(time).None? then Some(BadRequest)
      else if IsOpen(spans, TimeToMinutes(time).value) then None
      else Some(Refused)
  }

  /** The candidates that have room, in order. The database is not asked about them. */
  ghost function Fitting(view: Store, candidates: seq<(string, string)>, env: Surroundings, party: int)
    : seq<Alternative>
  {
    if candidates == [] then []
    else
      var (date, time) := candidates[|candidates| - 1];
      Fitting(view, candidates[..|candidates| - 1], env, party) + Offer(view, date, time, env, party)
  }

  ghost function Offer(view: Store, date: string, time: string, env: Surroundings, party: int): seq<Alternative> {
    var bucket := BucketTime(time, env.grid);
    if bucket.None? then []
    else
      var remaining := Max(0, env.capacity - Seats(view, date, bucket.value));
      if remaining >= party then [Alternative(date, time, remaining)] else []
  }

  function FirstTwo<T>(xs: seq<T>): seq<T> {
    if |xs| <= 2 then xs else xs[..2]
  }

  /** The answer of a check over what the tenant sees. */
  ghost function Answer(view: Store, q: Request, env: Surroundings): Availability {
    var party := OrDefault(q.partySize, 2);
    if !Truthy(q.date) || !Truthy(q.time) then WaitTime(if env.hour < 18 then 15 else 25)
    else
      var day := ParseDate(q.date.value);
      if day.None? then BadRequest
      else if DayNumber(day.value) < DayNumber(env.today) || party > 50 then Refused
      else if HoursBlock(env.hours, q.time.value).Some? then HoursBlock(env.hours, q.time.value).value
      else
        var bucket := BucketTime(q.time.value, env.grid);
        if bucket.None? then BadRequest
        else
          var stored := if env.database.Some? then env.database.value else 0;
          var remaining := Max(0, env.capacity - Max(stored, Seats(view, q.date.value, bucket.value)));
          if party <= remaining then Available(remaining)
          else Full(remaining, FirstTwo(Fitting(view, env.candidates, env, party)))
  }

  function MissingOf(q: Request): seq<string> {
    (if Truthy(q.date) then [] else ["date"]) + (if Truthy(q.time) then [] else ["time"])
    + (if q.partySize.Some? && q.partySize.value != 0 then [] else ["party_size"])
    + (if Truthy(q.name) then [] else ["name"])
  }

  function Stored(q: Request): Reservation
    requires MissingOf(q) == []
  {
    assert Truthy(q.date) && Truthy(q.time) && q.partySize.Some?;
    Reservation(q.date.value, q.time.value, q.partySize.value, true)
  }

  /** The module's stores. */
  class ReservationDesk {
    var reservationStore: Store
    var tenantStore: map<string, Store>

    constructor ()
      ensures reservationStore == map[] && tenantStore == map[]
    {
      reservationStore, tenantStore := map[], map[];
    }

    /** Sums over the tenant's store and then the shared one, skipping ids already seen. */
    method CountSeatsInSlot(date: string, bucket: string, tenant: Option<string>) returns (total: int)
      ensures total == Seats(Visible(reservationStore, tenantStore, tenant), date, bucket)
    {
      var sources: seq<Store> := [];
      if Truthy(tenant) && tenant.value in tenantStore {
        sources := [tenantStore[tenant.value]];
      }
      sources := sources + [reservationStore];
      ghost var view := Visible(reservationStore, tenantStore, tenant);
      assert OwnStore(tenantStore, tenant) == map[] ==> view == reservationStore;
      var seen: set<string>;
      seen, total := {}, 0;
      for s := 0 to |sources|
        invariant seen == if s == 0 then {} else if s == |sources| then view.Keys else sources[0].Keys
        invariant total == SumOver(seen, OfId(view, Taking(date, bucket)))
      {
        seen, total := CountStore(sources[s], date, bucket, seen, total, view);
      }
    }

    /** The inner loop: one source, with the ids seen so far and the total over them. */
    static method CountStore(source: Store, date: string, bucket: string, seenBefore: set<string>,
                             totalBefore: int, ghost view: Store)
      returns (seen: set<string>, total: int)
      requires forall id :: id in source && id !in seenBefore ==> id in view && view[id] == source[id]
      requires totalBefore == SumOver(seenBefore, OfId(view, Taking(date, bucket)))
      ensures seen == seenBefore + source.Keys
      ensures total == SumOver(seen, OfId(view, Taking(date, bucket)))
    {
      hide BucketTime;
      seen, total := seenBefore, totalBefore;
      var todo := source.Keys;
      while todo != {}
        invariant todo <= source.Keys
        invariant seen == seenBefore + (source.Keys - todo)
        invariant total == SumOver(seen, OfId(view, Taking(date, bucket)))
      {
        var id :| id in todo;
        todo := todo - {id};
        if id in seen {
          continue;
        }
        assert seen + {id} - {id} == seen;
        seen := seen + {id};
        SumRemove(seen, id, OfId(view, Taking(date, bucket)));
        var r := source[id];
        if !r.confirmed {
          continue;
        }
        if r.date != date {
          continue;
        }
        if BucketTime(r.time, COUNT_GRID) != Some(bucket) {
          continue;
        }
        total := total + r.partySize;
      }
    }

    method CheckAvailability(q: Request, tenant: Option<string>, env: Surroundings) returns (a: Availability)
      ensures a == Answer(Visible(reservationStore, tenantStore, tenant), q, env)
    {
      hide Visible, Seats, ParseDate, TimeToMinutes, BucketTime, HoursBlock, DayNumber;
      var party := OrDefault(q.partySize, 2);
      if !Truthy(q.date) || !Truthy(q.time) {
        return WaitTime(if env.hour < 18 then 15 else 25);
      }
      var day := ParseDate(q.date.value);
      if day.None? {
        return BadRequest;
      }
      if DayNumber(day.value) < DayNumber(env.today) {
        return Refused;
      }
      if party > 50 {
        return Refused;
      }
      var block := OpeningHoursGate(env.hours, q.time.value);
      if block.Some? {
        return block.value;
      }
      var bucket := BucketTime(q.time.value, env.grid);
      if bucket.None? {
        return BadRequest;
      }
      var inMemory := CountSeatsInSlot(q.date.value, bucket.value, tenant);
      var booked := Max(if env.database.Some? then env.database.value else 0, inMemory);
      var remaining := Max(0, env.capacity - booked);
      if party <= remaining {
        return Available(remaining);
      }
      var alternatives := FindAlternatives(tenant, env, party);
      return Full(remaining, alternatives);
    }

    /** Offers at most two candidates. */
    method FindAlternatives(tenant: Option<string>, env: Surroundings, party: int) returns (found: seq<Alternative>)
      ensures found == FirstTwo(Fitting(Visible(reservationStore, tenantStore, tenant), env.candidates, env, party))
    {
      hide Visible, Offer;
      ghost var view := Visible(reservationStore, tenantStore, tenant);
      found := [];
      for i := 0 to |env.candidates|
        invariant found == Fitting(view, env.candidates[..i], env, party) && |found| < 2
      {
        assert env.candidates[..i + 1][..i] == env.candidates[..i];
        var offer := TryCandidate(env.candidates[i].0, env.candidates[i].1, tenant, env, party);
        found := found + offer;
        if |found| >= 2 {
          FittingGrows(view, env.candidates, i + 1, env, party);
          return;
        }
      }
      assert env.candidates[..|env.candidates|] == env.candidates;
    }

    /** One round of the search. */
    method TryCandidate(date: string, time: string, tenant: Option<string>, env: Surroundings, party: int)
      returns (offer: seq<Alternative>)
      ensures offer == Offer(Visible(reservationStore, tenantStore, tenant), date, time, env, party) && |offer| <= 1
    {
      hide Visible, Seats, BucketTime;
      var bucket := BucketTime(time, env.grid);
      if bucket.None? {
        return [];
      }
      var booked := CountSeatsInSlot(date, bucket.value, tenant);
      var remaining := Max(0, env.capacity - booked);
      return if remaining >= party then [Alternative(date, time, remaining)] else [];
    }

    static method OpeningHoursGate(hours: Hours, time: string) returns (block: Option<Availability>)
      ensures block == HoursBlock(hours, time)
    {
      hide TimeToMinutes;
      match hours {
        case NoHours => return None;
        case ClosedDay => return Some(Refused);
        case Spans(spans) =>
          if spans == [] {
            return None;
          }
          var minutes := TimeToMinutes(time);
          if minutes.None? {
            return Some(BadRequest);
          }
          for i := 0 to |spans|
            invariant forall k :: 0 <= k < i ==> !(spans[k].0 <= minutes.value <= spans[k].1)
          {
            if spans[i].0 <= minutes.value <= spans[i].1 {
              return None;
            }
          }
          return Some(Refused);
      }
    }

    /** `id` is the random identifier drawn for the reservation. */
    method CreateReservation(q: Request, id: string) returns (c: Creation)
      modifies this`reservationStore
      ensures MissingOf(q) != [] ==> c == MissingFields(MissingOf(q)) && reservationStore == old(reservationStore)
      ensures MissingOf(q) == [] ==> c == Created(id) && reservationStore == old(reservationStore)[id := Stored(q)]
    {
      var missing := MissingOf(q);
      if missing != [] {
        return MissingFields(missing);
      }
      reservationStore := reservationStore[id := Stored(q)];
      return Created(id);
    }
  }

  lemma {:induction false} FittingGrows(view: Store, candidates: seq<(string, string)>, n: nat, env: Surroundings,
                                        party: int)
    requires n <= |candidates|
    ensures Fitting(view, candidates[..n], env, party) <= Fitting(view, candidates, env, party)
  {
    hide Offer;
    if n < |candidates| {
      var front := candidates[..|candidates| - 1];
      FittingGrows(view, front, n, env, party);
      assert front[..n] == candidates[..n];
    } else {
      assert candidates[..n] == candidates;
    }
  }
}
