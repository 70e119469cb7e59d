/** Conservation of seats. */
module SeatLaws {
  import opened Sums
  import opened Wrappers
  import opened ClockText
  import opened Reservations

  /** Writing one id changes any total by what the id counts now minus what it counted before. */
  lemma UpdateShiftsTotals(store: Store, id: string, r: Reservation, f: Reservation -> int)
    ensures Total(store[id := r], f) == Total(store, f) - OfId(store, f)(id) + f(r)
  {
    var after := store[id := r];
    var others := store.Keys - {id};
    assert after.Keys - {id} == others;
    SumRemove(after.Keys, id, OfId(after, f));
    SumSame(others, OfId(store, f), OfId(after, f));
    if id in store {
      SumRemove(store.Keys, id, OfId(store, f));
    } else {
      assert store.Keys == others;
    }
  }

  lemma NothingCounts(f: Reservation -> int)
    ensures Total(map[], f) == 0
  {
    var none: Store := map[];
    assert none.Keys == {};
  }

  /** Where two measures agree on everything stored, so do their totals. */
  lemma SameTotals(store: Store, f: Reservation -> int, g: Reservation -> int)
    requires forall id :: id in store ==> f(store[id]) == g(store[id])
    ensures Total(store, f) == Total(store, g)
  {
    SumSame(store.Keys, OfId(store, f), OfId(store, g));
  }

  /** A reservation under a fresh id adds its own measure to any total, in every tenant's view. */
  lemma CreationAdds(shared: Store, tenants: map<string, Store>, tenant: Option<string>, id: string, r: Reservation,
                     f: Reservation -> int)
    requires id !in Visible(shared, tenants, tenant)
    ensures Total(Visible(shared[id := r], tenants, tenant), f) == Total(Visible(shared, tenants, tenant), f) + f(r)
  {
    var view := Visible(shared, tenants, tenant);
    assert Visible(shared[id := r], tenants, tenant) == view[id := r];
    UpdateShiftsTotals(view, id, r, f);
  }

  /** So it raises exactly its own date and half-hour slot, by its party, and no other. */
  lemma CreationIsConserved(shared: Store, tenants: map<string, Store>, tenant: Option<string>,
                            id: string, q: Request, date: string, bucket: string)
    requires MissingOf(q) == []
    requires id !in Visible(shared, tenants, tenant)
    ensures Seats(Visible(shared[id := Stored(q)], tenants, tenant), date, bucket)
            == Seats(Visible(shared, tenants, tenant), date, bucket)
               + if q.date == Some(date) && BucketTime(q.time.value, COUNT_GRID) == Some(bucket)
                 then q.partySize.value else 0
  {
    hide Visible, Total;
    CreationAdds(shared, tenants, tenant, id, Stored(q), Taking(date, bucket));
  }

  /** An id present in both stores is counted once, with the tenant's entry. */
  lemma {:induction false} EachIdCountsOnce(shared: Store, own: Store, date: string, bucket: string)
    ensures Seats(shared + own, date, bucket)
            == Seats(own, date, bucket) + Seats(shared - own.Keys, date, bucket)
    decreases |own|
  {
    hide Total, Taking;
    var f := Taking(date, bucket);
    if own == map[] {
      NothingCounts(f);
      assert shared + own == shared && shared - own.Keys == shared;
    } else {
      var id :| id in own;
      var less, rest := own - {id}, shared - {id};
      TakeOut(shared, own, id);
      EachIdCountsOnce(rest, less, date, bucket);
      UpdateShiftsTotals(less, id, own[id], f);
      UpdateShiftsTotals(rest + less, id, own[id], f);
    }
  }

  lemma TakeOut(shared: Store, own: Store, id: string)
    requires id in own
    ensures var less, rest := own - {id}, shared - {id};
            && |less| < |own| && id !in less && id !in rest + less
            && less[id := own[id]] == own && (rest + less)[id := own[id]] == shared + own
            && rest - less.Keys == shared - own.Keys
  {
    SmallerWithout(own, id);
    assert (own - {id})[id := own[id]] == own;
    assert shared - {id} - (own - {id}).Keys == shared - own.Keys;
    PutBack(shared, own, id);
  }

  lemma SmallerWithout(own: Store, id: string)
    requires id in own
    ensures |own - {id}| < |own|
  {
    var less := own - {id};
    assert less.Keys == own.Keys - {id};
    assert |less| == |less.Keys| && |own| == |own.Keys|;
  }

  lemma PutBack(shared: Store, own: Store, id: string)
    requires id in own
    ensures ((shared - {id}) + (own - {id}))[id := own[id]] == shared + own
  {
    var back := ((shared - {id}) + (own - {id}))[id := own[id]];
    assert back.Keys == (shared + own).Keys;
    forall k | k in back
      ensures back[k] == (shared + own)[k]
    {
      assert k != id ==> (k in own <==> k in own - {id}) && (k in shared <==> k in shared - {id});
    }
  }
}
