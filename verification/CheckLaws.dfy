/** What an answer to an availability check means, case by case, from its inputs. */
module CheckLaws {
  import opened Sums
  import opened Wrappers
  import opened ClockText
  import opened Calendar
  import opened Reservations
  import opened SeatLaws
  import opened ReservationRuns

  // ----- Which seats count -----

  predicate IsIn(r: Reservation, date: string, bucket: string) {
    r.confirmed && r.date == date && BucketTime(r.time, 30) == Some(bucket)
  }

  /** The seats of a slot are the parties of its confirmed reservations, and nothing else. */
  lemma {:induction false} SeatsOfTheSlot(store: Store, date: string, bucket: string)
    ensures Seats(store, date, bucket)
            == SumOver(IdsIn(store, date, bucket), Parties(store))
  {
    var chosen := IdsIn(store, date, bucket);
    SumOfPart(store.Keys, chosen, OfId(store, Taking(date, bucket)), Parties(store));
  }

  function IdsIn(store: Store, date: string, bucket: string): set<string> {
    set id | id in store && IsIn(store[id], date, bucket)
  }

  function Parties(store: Store): string -> int {
    id => if id in store then store[id].partySize else 0
  }

  lemma {:induction false} SumOfPart(keys: set<string>, chosen: set<string>, f: string -> int, g: string -> int)
    requires chosen <= keys
    requires forall k :: k in keys ==> f(k) == if k in chosen then g(k) else 0
    ensures SumOver(keys, f) == SumOver(chosen, g)
  {
    if keys != {} {
      var k :| k in keys;
      SumRemove(keys, k, f);
      if k in chosen {
        SumRemove(chosen, k, g);
        SumOfPart(keys - {k}, chosen - {k}, f, g);
      } else {
        SumOfPart(keys - {k}, chosen, f, g);
      }
    } else {
      assert chosen == {};
    }
  }

  /** A tenant sees its own entries and, behind them, the shared ones. */
  lemma OwnEntriesComeFirst(shared: Store, tenants: map<string, Store>, tenant: Option<string>, id: string)
    ensures var view := Visible(shared, tenants, tenant);
            var own := if Truthy(tenant) && tenant.value in tenants then tenants[tenant.value] else map[];
            && (id in view <==> id in own || id in shared)
            && (id in own ==> view[id] == own[id])
            && (id in shared && id !in own ==> view[id] == shared[id])
  {
  }

  // ----- The gates -----

  /** The opening hours let a time pass if none are known, or if it lies in one of the spans of the day. */
  predicate HoursAllow(hours: Hours, time: string) {
    match hours
    case NoHours => true
    case ClosedDay => false
    case Spans(spans) =>
      spans == []
      || (TimeToMinutes(time).Some?
          && exists span :: span in spans && span.0 <= TimeToMinutes(time).value && TimeToMinutes(time).value <= span.1)
  }

  predicate HoursUnreadable(hours: Hours, time: string) {
    hours.Spans? && hours.spans != [] && TimeToMinutes(time).None?
  }

  lemma HoursGateIsExact(hours: Hours, time: string)
    ensures HoursBlock(hours, time) == None <==> HoursAllow(hours, time)
    ensures HoursBlock(hours, time) == Some(BadRequest) <==> HoursUnreadable(hours, time)
    ensures HoursBlock(hours, time) == Some(Refused) <==> !HoursAllow(hours, time) && !HoursUnreadable(hours, time)
  {
    hide TimeToMinutes;
    if hours.Spans? && TimeToMinutes(time).Some? {
      var minutes := TimeToMinutes(time).value;
      if span :| span in hours.spans && span.0 <= minutes <= span.1 {
        var i :| 0 <= i < |hours.spans| && hours.spans[i] == span;
        assert hours.spans[i].0 <= minutes <= hours.spans[i].1;
      }
    }
  }

  predicate IsDated(q: Request) {
    q.date.Some? && q.date.value != "" && q.time.Some? && q.time.value != ""
  }

  /** The party that is meant: two if none is given. */
  function PartyOf(q: Request): int {
    match q.partySize
    case None => 2
    case Some(n) => if n == 0 then 2 else n
  }

  predicate IsPast(q: Request, env: Surroundings)
    requires IsDated(q) && ParseDate(q.date.value).Some?
  {
    DayNumber(ParseDate(q.date.value).value) < DayNumber(env.today)
  }

  /** Every gate before the seats is passed. */
  predicate PassesGates(q: Request, env: Surroundings) {
    && IsDated(q) && ParseDate(q.date.value).Some? && !IsPast(q, env) && PartyOf(q) <= 50
    && HoursAllow(env.hours, q.time.value) && BucketTime(q.time.value, env.grid).Some?
  }

  /** Without date and time the answer is a waiting time: a quarter of an hour before six, longer after. */
  lemma UndatedChecks(view: Store, q: Request, env: Surroundings)
    ensures Answer(view, q, env).WaitTime? <==> !IsDated(q)
    ensures !IsDated(q) ==> Answer(view, q, env) == WaitTime(if env.hour >= 18 then 25 else 15)
  {
    hide HoursBlock, ParseDate, BucketTime, Seats, DayNumber;
  }

  /** A dated check is refused, or turned down as unreadable, exactly as follows; else the seats decide. */
  lemma GatedChecks(view: Store, q: Request, env: Surroundings)
    requires IsDated(q)
    ensures var a, date, time := Answer(view, q, env), ParseDate(q.date.value), q.time.value;
            && (a == BadRequest <==>
                  date.None?
                  || (!IsPast(q, env) && PartyOf(q) <= 50
                      && (HoursUnreadable(env.hours, time)
                          || (HoursAllow(env.hours, time) && BucketTime(time, env.grid).None?))))
            && (a == Refused <==>
                  date.Some?
                  && (IsPast(q, env) || PartyOf(q) > 50
                      || (!HoursAllow(env.hours, time) && !HoursUnreadable(env.hours, time))))
            && (a.Available? || a.Full? <==> PassesGates(q, env))
  {
    HoursGateIsExact(env.hours, q.time.value);
    hide HoursBlock, HoursAllow, ParseDate, BucketTime, Seats, DayNumber, Fitting;
  }

  // ----- The seats -----

  /** The stored count of a check: none if the database does not answer. */
  function StoredCount(env: Surroundings): nat {
    match env.database
    case None => 0
    case Some(n) => n
  }

  lemma SeatsDecide(view: Store, q: Request, env: Surroundings)
    requires PassesGates(q, env)
    ensures var memory := Seats(view, q.date.value, BucketTime(q.time.value, env.grid).value);
            var remaining := Max(0, env.capacity - Max(StoredCount(env), memory));
            Answer(view, q, env) ==
              if PartyOf(q) <= remaining then Available(remaining)
              else Full(remaining, FirstTwo(Fitting(view, env.candidates, env, PartyOf(q))))
  {
    hide HoursBlock, HoursAllow, ParseDate, BucketTime, Seats, DayNumber, Fitting, FirstTwo;
    HoursGateIsExact(env.hours, q.time.value);
  }

  /** A party fits exactly if memory and database each have room for it. What is reported to remain is what the
      fuller of the two leaves, and the other answer is "full", with the same figure. */
  lemma {:induction false} AvailableExactlyIfBothHaveRoom(view: Store, q: Request, env: Surroundings)
    requires PassesGates(q, env)
    ensures var memory := Seats(view, q.date.value, BucketTime(q.time.value, env.grid).value);
            var stored, party, a := StoredCount(env), PartyOf(q), Answer(view, q, env);
            && (a.Available? <==> party <= 0 || (memory + party <= env.capacity && stored + party <= env.capacity))
            && (a.Available? || a.Full?)
            && a.remaining >= 0
            && (a.remaining > 0 ==> memory + a.remaining <= env.capacity && stored + a.remaining <= env.capacity)
            && (memory <= env.capacity && stored <= env.capacity ==>
                  memory + a.remaining == env.capacity || stored + a.remaining == env.capacity)
            && (memory > env.capacity || stored > env.capacity ==> a.remaining == 0)
  {
    hide Answer, PassesGates, BucketTime, Seats, Fitting, FirstTwo;
    SeatsDecide(view, q, env);
  }

  // ----- Alternatives -----

  ghost predicate IsRoomy(view: Store, candidate: (string, string), env: Surroundings, party: int) {
    var bucket := BucketTime(candidate.1, env.grid);
    bucket.Some? && (party <= 0 || Seats(view, candidate.0, bucket.value) + party <= env.capacity)
  }

  /** The offer of a candidate: its date and time, and what is left there, never below zero. */
  ghost predicate IsOfferOf(a: Alternative, view: Store, candidate: (string, string), env: Surroundings) {
    var bucket := BucketTime(candidate.1, env.grid);
    && a.date == candidate.0 && a.time == candidate.1 && bucket.Some?
    && var taken := Seats(view, a.date, bucket.value);
       a.remaining == if taken >= env.capacity then 0 else env.capacity - taken
  }

  lemma OneOffer(view: Store, candidate: (string, string), env: Surroundings, party: int)
    ensures var offer := Offer(view, candidate.0, candidate.1, env, party);
            if IsRoomy(view, candidate, env, party) then |offer| == 1 && IsOfferOf(offer[0], view, candidate, env)
            else offer == []
  {
    hide BucketTime, Seats;
  }

  /** The positions are those of all candidates with room, in order. */
  ghost predicate Selects(ps: seq<nat>, view: Store, candidates: seq<(string, string)>, env: Surroundings, party: int) {
    && (forall i, j :: 0 <= i < j < |ps| ==> ps[i] < ps[j])
    && (forall i :: 0 <= i < |ps| ==> ps[i] < |candidates| && IsRoomy(view, candidates[ps[i]], env, party))
    && (forall p: nat :: p < |candidates| && IsRoomy(view, candidates[p], env, party) ==> p in ps)
  }

  ghost predicate OffersThose(fitting: seq<Alternative>, ps: seq<nat>, view: Store, candidates: seq<(string, string)>,
                              env: Surroundings) {
    && |fitting| == |ps|
    && forall i :: 0 <= i < |ps| ==> ps[i] < |candidates| && IsOfferOf(fitting[i], view, candidates[ps[i]], env)
  }

  lemma SelectStep(ps: seq<nat>, view: Store, front: seq<(string, string)>, c: (string, string), env: Surroundings,
                   party: int)
    requires Selects(ps, view, front, env, party)
    ensures Selects(if IsRoomy(view, c, env, party) then ps + [|front|] else ps, view, front + [c], env, party)
  {
    hide IsRoomy;
    var all := front + [c];
    var more := if IsRoomy(view, c, env, party) then ps + [|front|] else ps;
    forall p: nat | p < |all| && IsRoomy(view, all[p], env, party)
      ensures p in more
    {
      if p < |front| {
        assert all[p] == front[p] && p in ps;
      } else {
        assert more[|ps|] == p;
      }
    }
  }

  lemma OfferStep(fitting: seq<Alternative>, ps: seq<nat>, view: Store, front: seq<(string, string)>,
                  c: (string, string), env: Surroundings, a: Alternative)
    requires OffersThose(fitting, ps, view, front, env)
    ensures OffersThose(fitting, ps, view, front + [c], env)
    ensures IsOfferOf(a, view, c, env) ==> OffersThose(fitting + [a], ps + [|front|], view, front + [c], env)
  {
    hide IsOfferOf;
  }

  lemma NothingOffered(view: Store, env: Surroundings, party: int)
    ensures Fitting(view, [], env, party) == []
    ensures Selects([], view, [], env, party) && OffersThose([], [], view, [], env)
  {
    hide IsRoomy, IsOfferOf, Offer;
  }

  lemma FittingStep(view: Store, front: seq<(string, string)>, c: (string, string), env: Surroundings, party: int)
    ensures Fitting(view, front + [c], env, party)
            == Fitting(view, front, env, party) + Offer(view, c.0, c.1, env, party)
  {
    hide Offer;
    assert (front + [c])[..|front|] == front;
  }

  /** The candidates that fit are all those with room, in order, each with what is left there. */
  lemma {:induction false} FittingIsExact(view: Store, candidates: seq<(string, string)>, env: Surroundings, party: int)
    returns (ps: seq<nat>)
    ensures Selects(ps, view, candidates, env, party)
    ensures OffersThose(Fitting(view, candidates, env, party), ps, view, candidates, env)
  {
    hide IsRoomy, IsOfferOf, Offer, Selects, OffersThose, Fitting;
    if candidates == [] {
      NothingOffered(view, env, party);
      return [];
    }
    var front, c := candidates[..|candidates| - 1], candidates[|candidates| - 1];
    var before := FittingIsExact(view, front, env, party);
    var fitting, offer := Fitting(view, front, env, party), Offer(view, c.0, c.1, env, party);
    assert candidates == front + [c];
    FittingStep(view, front, c, env, party);
    OneOffer(view, c, env, party);
    SelectStep(before, view, front, c, env, party);
    if IsRoomy(view, c, env, party) {
      OfferStep(fitting, before, view, front, c, env, offer[0]);
      assert offer == [offer[0]];
      return before + [|front|];
    } else {
      OfferStep(fitting, before, view, front, c, env, Alternative("", "", 0));
      assert fitting + [] == fitting;
      return before;
    }
  }

  /** A full answer offers the first two of them. */
  lemma {:induction false} FullAnswersOfferTheFirstTwo(view: Store, q: Request, env: Surroundings)
    requires PassesGates(q, env) && Answer(view, q, env).Full?
    ensures var fitting, offers := Fitting(view, env.candidates, env, PartyOf(q)), Answer(view, q, env).alternatives;
            && offers <= fitting && |offers| <= 2 && (|offers| < 2 ==> offers == fitting)
  {
    hide Answer, PassesGates, BucketTime, Seats, Fitting;
    SeatsDecide(view, q, env);
  }

  // ----- Creations -----

  /** A creation is refused exactly if something is missing, and names what that is. */
  lemma MissingFieldsAreNamed(q: Request)
    ensures "date" in MissingOf(q) <==> q.date == None || q.date == Some("")
    ensures "time" in MissingOf(q) <==> q.time == None || q.time == Some("")
    ensures "party_size" in MissingOf(q) <==> q.partySize == None || q.partySize == Some(0)
    ensures "name" in MissingOf(q) <==> q.name == None || q.name == Some("")
    ensures |MissingOf(q)| <= 4 && forall f :: f in MissingOf(q) ==> f in {"date", "time", "party_size", "name"}
    ensures MissingOf(q) == [] ==> var r := Stored(q);
              r.date == q.date.value && r.time == q.time.value && r.partySize == q.partySize.value && r.confirmed
  {
    assert "date"[0] != "time"[0] && "date"[0] != "party_size"[0] && "date"[0] != "name"[0];
    assert "time"[0] != "party_size"[0] && "time"[0] != "name"[0] && "party_size"[0] != "name"[0];
  }

  /** No covered creation on the half-hour grid lifts memory, or the database count that its check read, over the
      capacity of that check. */
  lemma {:induction false} CoveredCreationsRespectTheDatabase(w: World, es: seq<Event>, j: nat, k: nat)
    requires CoveredBy(TextSlots, w, es, j, k) && Creates(es[k])
    requires IsUnused(es[k].id, SharedAfter(w.shared, es[..k]), w.tenants)
    requires es[j].env.grid == COUNT_GRID && es[k].q.partySize.value > 0
    ensures var (date, bucket) := SlotOf(es[k].q).value;
            var env := es[j].env;
            && Seats(ViewAfter(w, es[..k + 1], es[j].tenant), date, bucket) <= env.capacity
            && StoredCount(env) + es[k].q.partySize.value <= env.capacity
  {
    hide Answer, Seats, BucketTime, MissingOf, Stored, SharedAfter, PassesGates, StoredCount;
    var check, env, shared := es[j].q, es[j].env, SharedAfter(w.shared, es[..k]);
    ChecksChangeNothing(w, es, j, k);
    AvailablePassesGates(ViewAfter(w, es[..j], es[j].tenant), check, env);
    AvailableExactlyIfBothHaveRoom(ViewAfter(w, es[..j], es[j].tenant), check, env);
    assert es[..k + 1] == es[..k] + [es[k]];
    SharedStep(w.shared, es[..k], es[k]);
    var (date, bucket) := SlotOf(es[k].q).value;
    CreationIsConserved(shared, w.tenants, es[j].tenant, es[k].id, es[k].q, date, bucket);
  }

  lemma AvailablePassesGates(view: Store, q: Request, env: Surroundings)
    requires Answer(view, q, env).Available?
    ensures PassesGates(q, env) && q.date.Some? && q.time.Some? && BucketTime(q.time.value, env.grid).Some?
    ensures PartyOf(q) == OrDefault(q.partySize, 2)
  {
    hide HoursBlock, HoursAllow, ParseDate, BucketTime, Seats, DayNumber, Fitting;
    UndatedChecks(view, q, env);
    GatedChecks(view, q, env);
  }
}
