/** The call-metrics snapshot: de-duplication and aggregation in server/monitoring.py. */
module Monitoring {
  import opened Wrappers
  import opened OrderStatistics

  /** One finished call; an empty `sid` stands for a missing one. Latencies are those that can be read. */
  datatype Row = Row(
    sid: string, ts: real, fulfilled: bool,
    intent: Option<string>, endReason: Option<string>, source: Option<string>, brain: Option<string>,
    tenant: Option<string>, duration: real, latencies: seq<real>, tools: seq<string>)

  // ----- De-duplication -----

  /** The call ids in order of first appearance: the insertion order of the dictionary. */
  function Sids(rows: seq<Row>): seq<string> {
    if rows == [] then []
    else
      var before, r := Sids(rows[..|rows| - 1]), rows[|rows| - 1];
      if r.sid == "" || r.sid in before then before else before + [r.sid]
  }

  /** The row kept for a call: a later one replaces it only if it is strictly newer. */
  function Best(rows: seq<Row>, sid: string): Option<Row> {
    if rows == [] then None
    else
      var before, r := Best(rows[..|rows| - 1], sid), rows[|rows| - 1];
      if r.sid == sid && sid != "" && (before.None? || r.ts > before.value.ts) then Some(r) else before
  }

  lemma {:induction false} BestExists(rows: seq<Row>, sid: string)
    ensures Best(rows, sid).Some? <==> sid in Sids(rows)
    ensures Best(rows, sid).Some? ==> Best(rows, sid).value.sid == sid
  {
    if rows != [] {
      BestExists(rows[..|rows| - 1], sid);
    }
  }

  function Pick(rows: seq<Row>, sid: string): Row
    requires sid in Sids(rows)
  {
    BestExists(rows, sid);
    Best(rows, sid).value
  }

  function Deduped(rows: seq<Row>): (d: seq<Row>)
    ensures |d| == |Sids(rows)|
  {
    seq(|Sids(rows)|, i requires 0 <= i < |Sids(rows)| => Pick(rows, Sids(rows)[i]))
  }

  method DedupeRowsByCallSid(rows: seq<Row>) returns (result: seq<Row>)
    ensures result == Deduped(rows)
  {
    var best: map<string, Row> := map[];
    var order: seq<string> := [];
    for i := 0 to |rows|
      invariant order == Sids(rows[..i])
      invariant forall sid :: sid in best <==> sid in order
      invariant forall sid :: sid in best ==> Best(rows[..i], sid) == Some(best[sid])
    {
      assert rows[..i + 1][..i] == rows[..i];
      var row := rows[i];
      BestExists(rows[..i], row.sid);
      if row.sid == "" {
        continue;
      }
      if row.sid !in best {
        order := order + [row.sid];
        best := best[row.sid := row];
      } else if row.ts > best[row.sid].ts {
        best := best[row.sid := row];
      }
    }
    assert rows[..|rows|] == rows;
    result := [];
    for i := 0 to |order|
      invariant result == Deduped(rows)[..i]
    {
      result := result + [best[order[i]]];
    }
  }

  // ----- Aggregation -----

  datatype Snapshot = Snapshot(
    total: nat, fulfilled: nat, successRate: real,
    p50: Option<real>, p95: Option<real>, averageDuration: Option<real>, tools: map<string, nat>,
    intents: map<string, nat>, endReasons: map<string, nat>, sources: map<string, nat>, brains: map<string, nat>,
    tenants: map<string, nat>)

  datatype Field = IntentField | EndReasonField | SourceField | BrainField | TenantField

  /** Python's `value or default`. */
  function OrElse(value: Option<string>, default: string): string {
    if Truthy(value) then value.value else default
  }

  function Label(r: Row, f: Field): string {
    match f
    case IntentField => OrElse(r.intent, "unknown")
    case EndReasonField => OrElse(r.endReason, "")
    case SourceField => OrElse(r.source, "unknown")
    case BrainField => OrElse(r.brain, "unknown")
    case TenantField => OrElse(r.tenant, "_none")
  }

  function Bump(m: map<string, nat>, k: string): map<string, nat> {
    m[k := (if k in m then m[k] else 0) + 1]
  }

  function Histogram(rows: seq<Row>, f: Field): map<string, nat> {
    if rows == [] then map[] else Bump(Histogram(rows[..|rows| - 1], f), Label(rows[|rows| - 1], f))
  }

  function CountFulfilled(rows: seq<Row>): nat {
    if rows == [] then 0 else CountFulfilled(rows[..|rows| - 1]) + if rows[|rows| - 1].fulfilled then 1 else 0
  }

  function BumpAll(m: map<string, nat>, ks: seq<string>): map<string, nat> {
    if ks == [] then m else Bump(BumpAll(m, ks[..|ks| - 1]), ks[|ks| - 1])
  }

  function ToolHistogram(rows: seq<Row>): map<string, nat> {
    if rows == [] then map[] else BumpAll(ToolHistogram(rows[..|rows| - 1]), rows[|rows| - 1].tools)
  }

  function AllLatencies(rows: seq<Row>): seq<real> {
    if rows == [] then [] else AllLatencies(rows[..|rows| - 1]) + rows[|rows| - 1].latencies
  }

  /** Calls without a positive duration are passed over. */
  function AllDurations(rows: seq<Row>): seq<real> {
    if rows == [] then []
    else
      var d := rows[|rows| - 1].duration;
      AllDurations(rows[..|rows| - 1]) + if d > 0.0 then [d] else []
  }

  function Sum(xs: seq<real>): real {
    if xs == [] then 0.0 else Sum(xs[..|xs| - 1]) + xs[|xs| - 1]
  }

  function P50Index(n: nat): nat {
    n / 2
  }

  function P95Index(n: nat): (i: nat)
    ensures n > 0 ==> i < n
  {
    (n as real * 0.95).Floor
  }

  /** The sample at a rank; none without samples, nor, as the code tests its truth, if it is zero. */
  function SampleAt(samples: seq<real>, i: nat): Option<real>
    requires samples != [] ==> i < |samples|
  {
    if samples == [] || Sorted(samples)[i] == 0.0 then None else Some(Sorted(samples)[i])
  }

  /** The snapshot of some rows, with exact instead of rounded figures. */
  function Aggregated(rows: seq<Row>): Snapshot {
    var latencies, durations := AllLatencies(rows), AllDurations(rows);
    Snapshot(
      |rows|, CountFulfilled(rows),
      if rows == [] then 0.0 else CountFulfilled(rows) as real / |rows| as real * 100.0,
      SampleAt(latencies, P50Index(|latencies|)), SampleAt(latencies, P95Index(|latencies|)),
      if durations == [] then None else Some(Sum(durations) / |durations| as real),
      ToolHistogram(rows),
      Histogram(rows, IntentField), Histogram(rows, EndReasonField), Histogram(rows, SourceField),
      Histogram(rows, BrainField), Histogram(rows, TenantField))
  }

  method AggregateFromRows(rows: seq<Row>) returns (s: Snapshot)
    ensures s == Aggregated(rows)
  {
    hide Histogram, ToolHistogram, CountFulfilled, AllLatencies, AllDurations, Sum, Sorted;
    if rows == [] {
      NoRows();
      return Snapshot(0, 0, 0.0, None, None, None, map[], map[], map[], map[], map[], map[]);
    }
    var fulfilled, latencies, durations := CollectTimes(rows);
    var successRate := fulfilled as real / |rows| as real * 100.0;
    var p50 := SampleAt(latencies, P50Index(|latencies|));
    var p95 := SampleAt(latencies, P95Index(|latencies|));
    var averageDuration := if durations == [] then None else Some(Sum(durations) / |durations| as real);
    var intents, endReasons, sources, brains, tenants, tools := CollectLabels(rows);
    return Snapshot(|rows|, fulfilled, successRate, p50, p95, averageDuration, tools,
                    intents, endReasons, sources, brains, tenants);
  }

  lemma NoRows()
    ensures Aggregated([]) == Snapshot(0, 0, 0.0, None, None, None, map[], map[], map[], map[], map[], map[])
  {
  }

  /** The first loop, with the count of fulfilled calls. */
  method CollectTimes(rows: seq<Row>) returns (fulfilled: nat, latencies: seq<real>, durations: seq<real>)
    ensures fulfilled == CountFulfilled(rows)
    ensures latencies == AllLatencies(rows) && durations == AllDurations(rows)
  {
    fulfilled, latencies, durations := 0, [], [];
    for i := 0 to |rows|
      invariant fulfilled == CountFulfilled(rows[..i])
      invariant latencies == AllLatencies(rows[..i]) && durations == AllDurations(rows[..i])
    {
      assert rows[..i + 1][..i] == rows[..i];
      var r := rows[i];
      if r.fulfilled {
        fulfilled := fulfilled + 1;
      }
      latencies := latencies + r.latencies;
      if r.duration > 0.0 {
        durations := durations + [r.duration];
      }
    }
    assert rows[..|rows|] == rows;
  }

  /** The second loop. */
  method CollectLabels(rows: seq<Row>)
    returns (intents: map<string, nat>, endReasons: map<string, nat>, sources: map<string, nat>,
             brains: map<string, nat>, tenants: map<string, nat>, tools: map<string, nat>)
    ensures intents == Histogram(rows, IntentField) && endReasons == Histogram(rows, EndReasonField)
    ensures sources == Histogram(rows, SourceField) && brains == Histogram(rows, BrainField)
    ensures tenants == Histogram(rows, TenantField) && tools == ToolHistogram(rows)
  {
    intents, endReasons, sources, brains, tenants, tools := map[], map[], map[], map[], map[], map[];
    hide Bump, Label, BumpAll;
    for i := 0 to |rows|
      invariant intents == Histogram(rows[..i], IntentField) && endReasons == Histogram(rows[..i], EndReasonField)
      invariant sources == Histogram(rows[..i], SourceField) && brains == Histogram(rows[..i], BrainField)
      invariant tenants == Histogram(rows[..i], TenantField) && tools == ToolHistogram(rows[..i])
    {
      assert rows[..i + 1][..i] == rows[..i];
      var r := rows[i];
      intents := Bump(intents, Label(r, IntentField));
      endReasons := Bump(endReasons, Label(r, EndReasonField));
      sources := Bump(sources, Label(r, SourceField));
      brains := Bump(brains, Label(r, BrainField));
      tenants := Bump(tenants, Label(r, TenantField));
      tools := CountTools(tools, r.tools);
    }
    assert rows[..|rows|] == rows;
  }

  method CountTools(counts: map<string, nat>, tools: seq<string>) returns (more: map<string, nat>)
    ensures more == BumpAll(counts, tools)
  {
    more := counts;
    for i := 0 to |tools|
      invariant more == BumpAll(counts, tools[..i])
    {
      assert tools[..i + 1][..i] == tools[..i];
      more := Bump(more, tools[i]);
    }
    assert tools[..|tools|] == tools;
  }

  /** The merged snapshot over the in-process buffer and the stored list. */
  method SnapshotOf(memory: seq<Row>, stored: seq<Row>) returns (s: Snapshot)
    ensures s == Aggregated(Deduped(memory + stored))
  {
    var merged := DedupeRowsByCallSid(memory + stored);
    s := AggregateFromRows(merged);
  }
}

/** Every call counts once. */
module MonitoringLaws {
  import opened Wrappers
  import opened Sums
  import opened OrderStatistics
  import opened Monitoring

  /** Row `i` is its call's earliest among the newest rows. */
  predicate IsChampion(rows: seq<Row>, i: nat) {
    && i < |rows| && rows[i].sid != ""
    && (forall j :: 0 <= j < |rows| && rows[j].sid == rows[i].sid ==> rows[j].ts <= rows[i].ts)
    && (forall j :: 0 <= j < i && rows[j].sid == rows[i].sid ==> rows[j].ts < rows[i].ts)
  }

  ghost predicate ChampionRow(rows: seq<Row>, r: Row) {
    exists i: nat :: IsChampion(rows, i) && rows[i] == r
  }

  lemma ChampionStep(front: seq<Row>, r: Row, i: nat)
    requires IsChampion(front, i)
    ensures r.sid != front[i].sid || r.ts <= front[i].ts ==> IsChampion(front + [r], i)
    ensures r.sid == front[i].sid && r.ts > front[i].ts ==> IsChampion(front + [r], |front|)
  {
  }

  lemma {:induction false} BestIsChampion(rows: seq<Row>, sid: string)
    ensures Best(rows, sid).Some? ==> ChampionRow(rows, Best(rows, sid).value)
    ensures Best(rows, sid).None? ==> sid == "" || forall i :: 0 <= i < |rows| ==> rows[i].sid != sid
    ensures Best(rows, sid).Some? ==> sid != "" && Best(rows, sid).value.sid == sid
  {
    if rows != [] {
      hide IsChampion;
      var front, r := rows[..|rows| - 1], rows[|rows| - 1];
      assert rows == front + [r];
      BestIsChampion(front, sid);
      if Best(front, sid).Some? {
        var i: nat :| IsChampion(front, i) && front[i] == Best(front, sid).value;
        ChampionStep(front, r, i);
      } else if Best(rows, sid).Some? {
        FirstIsChampion(front, r);
      }
    }
  }

  lemma FirstIsChampion(front: seq<Row>, r: Row)
    requires r.sid != "" && forall i :: 0 <= i < |front| ==> front[i].sid != r.sid
    ensures IsChampion(front + [r], |front|)
  {
  }

  lemma ChampionIsNewest(rows: seq<Row>, best: Row, r: Row)
    requires ChampionRow(rows, best) && r in rows && r.sid == best.sid
    ensures r.ts <= best.ts
  {
  }

  predicate Distinct(xs: seq<string>) {
    forall i, j :: 0 <= i < j < |xs| ==> xs[i] != xs[j]
  }

  lemma {:induction false} SidsAreDistinct(rows: seq<Row>)
    ensures Distinct(Sids(rows)) && "" !in Sids(rows)
    ensures forall sid :: sid in Sids(rows) <==> sid != "" && exists i :: 0 <= i < |rows| && rows[i].sid == sid
  {
    if rows != [] {
      var front, last := rows[..|rows| - 1], |rows| - 1;
      SidsAreDistinct(front);
      forall sid
        ensures sid in Sids(rows) <==> sid != "" && exists i :: 0 <= i < |rows| && rows[i].sid == sid
      {
        if i :| 0 <= i < |rows| && rows[i].sid == sid {
          if i < last {
            assert front[i].sid == sid;
          }
        }
        if i :| 0 <= i < |front| && front[i].sid == sid {
          assert rows[i].sid == sid;
        }
      }
    }
  }

  /** De-duplication keeps exactly one row per call, the earliest of its newest rows. */
  lemma {:induction false} OneChampionPerCall(rows: seq<Row>)
    ensures var d := Deduped(rows);
            && (forall i, j :: 0 <= i < j < |d| ==> d[i].sid != d[j].sid)
            && (forall i :: 0 <= i < |d| ==> ChampionRow(rows, d[i]))
            && (forall k :: 0 <= k < |rows| && rows[k].sid != "" ==>
                  exists i :: 0 <= i < |d| && d[i].sid == rows[k].sid)
  {
    hide ChampionRow;
    var d, sids := Deduped(rows), Sids(rows);
    SidsAreDistinct(rows);
    forall i | 0 <= i < |d|
      ensures d[i].sid == sids[i] && ChampionRow(rows, d[i])
    {
      BestExists(rows, sids[i]);
      BestIsChampion(rows, sids[i]);
    }
    forall k | 0 <= k < |rows| && rows[k].sid != ""
      ensures exists i :: 0 <= i < |d| && d[i].sid == rows[k].sid
    {
      assert rows[k].sid in sids;
      var i :| 0 <= i < |sids| && sids[i] == rows[k].sid;
      assert d[i].sid == rows[k].sid;
    }
  }

  /** Two lists with the same calls in the same order and the same kept rows de-duplicate alike. */
  lemma SameDeduped(a: seq<Row>, b: seq<Row>)
    requires Sids(a) == Sids(b)
    requires forall sid :: sid in Sids(a) ==> Best(a, sid) == Best(b, sid)
    ensures Deduped(a) == Deduped(b)
  {
    hide Sids, Best;
    forall i | 0 <= i < |Sids(a)|
      ensures Deduped(a)[i] == Deduped(b)[i]
    {
      assert Sids(a)[i] in Sids(a);
    }
  }

  /** A row that is already there changes nothing when it is appended again. */
  lemma {:induction false} ReappendingChangesNothing(rows: seq<Row>, r: Row)
    requires r in rows
    ensures Deduped(rows + [r]) == Deduped(rows)
  {
    hide ChampionRow, Deduped;
    var more := rows + [r];
    assert more[..|rows|] == rows;
    SidsAreDistinct(rows);
    assert Sids(more) == Sids(rows);
    forall sid | sid in Sids(rows)
      ensures Best(more, sid) == Best(rows, sid)
    {
      BestExists(rows, sid);
      BestIsChampion(rows, sid);
      if r.sid == sid {
        ChampionIsNewest(rows, Best(rows, sid).value, r);
      }
    }
    SameDeduped(more, rows);
  }

  /** Merging a stored list whose rows are all in memory adds nothing. */
  lemma {:induction false} OverlapChangesNothing(memory: seq<Row>, stored: seq<Row>)
    requires forall r :: r in stored ==> r in memory
    ensures Deduped(memory + stored) == Deduped(memory)
  {
    if stored == [] {
      assert memory + stored == memory;
    } else {
      var front := stored[..|stored| - 1];
      OverlapChangesNothing(memory, front);
      assert memory + stored == memory + front + [stored[|stored| - 1]];
      ReappendingChangesNothing(memory + front, stored[|stored| - 1]);
    }
  }

  /** De-duplicating twice is de-duplicating once. */
  lemma {:induction false} DedupeIsIdempotent(rows: seq<Row>)
    ensures Deduped(Deduped(rows)) == Deduped(rows)
  {
    var d := Deduped(rows);
    OneChampionPerCall(rows);
    assert forall i :: 0 <= i < |d| ==> ChampionRow(rows, d[i]);
    AllDistinctIsKept(d);
  }

  lemma {:induction false} AllDistinctIsKept(d: seq<Row>)
    requires forall i, j :: 0 <= i < j < |d| ==> d[i].sid != d[j].sid
    requires forall i :: 0 <= i < |d| ==> d[i].sid != ""
    ensures |Sids(d)| == |d| && (forall i :: 0 <= i < |d| ==> Sids(d)[i] == d[i].sid && Best(d, d[i].sid) == Some(d[i]))
    ensures Deduped(d) == d
  {
    if d != [] {
      var front, last := d[..|d| - 1], |d| - 1;
      AllDistinctIsKept(front);
      BestExists(front, d[last].sid);
      assert d[last].sid !in Sids(front);
    }
  }

  function SetOf(xs: seq<string>): set<string> {
    set x | x in xs
  }

  lemma {:induction false} DistinctCount(xs: seq<string>)
    requires Distinct(xs)
    ensures |SetOf(xs)| == |xs|
  {
    if xs != [] {
      var front := xs[..|xs| - 1];
      DistinctCount(front);
      assert SetOf(xs) == SetOf(front) + {xs[|xs| - 1]};
    }
  }

  /** The total is the number of distinct calls, whichever source comes first. */
  lemma {:induction false} TotalCountsCalls(memory: seq<Row>, stored: seq<Row>)
    ensures |Deduped(memory + stored)| == |set r | r in memory + stored && r.sid != "" :: r.sid|
    ensures |Deduped(memory + stored)| == |Deduped(stored + memory)|
  {
    DistinctSids(memory + stored);
    DistinctSids(stored + memory);
    assert (set r | r in memory + stored && r.sid != "" :: r.sid)
        == (set r | r in stored + memory && r.sid != "" :: r.sid);
  }

  lemma DistinctSids(rows: seq<Row>)
    ensures |Deduped(rows)| == |set r | r in rows && r.sid != "" :: r.sid|
  {
    SidsAreDistinct(rows);
    DistinctCount(Sids(rows));
    assert SetOf(Sids(rows)) == set r | r in rows && r.sid != "" :: r.sid;
  }

  // ----- Histograms -----

  function CountLabel(rows: seq<Row>, f: Field, k: string): nat {
    if rows == [] then 0
    else CountLabel(rows[..|rows| - 1], f, k) + if Label(rows[|rows| - 1], f) == k then 1 else 0
  }

  function Entry(m: map<string, nat>): string -> int {
    k => if k in m then m[k] else 0
  }

  /** Each bar is the number of rows with that label, and the bars add up to the number of rows. */
  lemma {:induction false} HistogramsAddUp(rows: seq<Row>, f: Field)
    ensures forall k :: Entry(Histogram(rows, f))(k) == CountLabel(rows, f, k)
    ensures SumOver(Histogram(rows, f).Keys, Entry(Histogram(rows, f))) == |rows|
  {
    if rows != [] {
      hide Label;
      var front := rows[..|rows| - 1];
      var m, k := Histogram(front, f), Label(rows[|rows| - 1], f);
      HistogramsAddUp(front, f);
      BumpAddsOne(m, k);
    }
  }

  lemma BumpAddsOne(m: map<string, nat>, k: string)
    ensures SumOver(Bump(m, k).Keys, Entry(Bump(m, k))) == SumOver(m.Keys, Entry(m)) + 1
  {
    var b := Bump(m, k);
    var others := m.Keys - {k};
    assert b.Keys - {k} == others;
    SumRemove(b.Keys, k, Entry(b));
    SumSame(others, Entry(b), Entry(m));
    if k in m {
      SumRemove(m.Keys, k, Entry(m));
    } else {
      assert m.Keys == others;
    }
  }

  /** In the merged snapshot every histogram sums to the total number of calls. */
  lemma {:induction false} SnapshotHistogramsSumToTotal(memory: seq<Row>, stored: seq<Row>, f: Field)
    ensures var h := Histogram(Deduped(memory + stored), f);
            SumOver(h.Keys, Entry(h)) == |set r | r in memory + stored && r.sid != "" :: r.sid|
  {
    HistogramsAddUp(Deduped(memory + stored), f);
    TotalCountsCalls(memory, stored);
  }

  function ToolCalls(rows: seq<Row>): nat {
    if rows == [] then 0 else ToolCalls(rows[..|rows| - 1]) + |rows[|rows| - 1].tools|
  }

  /** The tool bars add up to the number of tool calls. */
  lemma {:induction false} ToolBarsAddUp(rows: seq<Row>)
    ensures SumOver(ToolHistogram(rows).Keys, Entry(ToolHistogram(rows))) == ToolCalls(rows)
  {
    if rows != [] {
      hide BumpAll, SumOver;
      ToolBarsAddUp(rows[..|rows| - 1]);
      BumpAllAddsEach(ToolHistogram(rows[..|rows| - 1]), rows[|rows| - 1].tools);
    } else {
      assert ToolHistogram(rows).Keys == {};
    }
  }

  lemma {:induction false} BumpAllAddsEach(m: map<string, nat>, ks: seq<string>)
    ensures SumOver(BumpAll(m, ks).Keys, Entry(BumpAll(m, ks))) == SumOver(m.Keys, Entry(m)) + |ks|
  {
    hide Bump, SumOver;
    if ks != [] {
      BumpAllAddsEach(m, ks[..|ks| - 1]);
      BumpAddsOne(BumpAll(m, ks[..|ks| - 1]), ks[|ks| - 1]);
    }
  }

  /** `p` is the sample of a rank: more samples than the rank, and no fewer, are at most that large; a zero is not
      reported, as if there were none. */
  ghost predicate ReportsRank(p: Option<real>, samples: seq<real>, rank: nat) {
    match p
    case None => samples == [] || forall w: real :: CountAtMost(samples, w) > rank <==> 0.0 <= w
    case Some(v) => samples != [] && v != 0.0 && forall w: real :: CountAtMost(samples, w) > rank <==> v <= w
  }

  /** The reported percentiles are the pooled samples of the middle rank and of that nineteen twentieths up; so the
      median never exceeds the other. */
  lemma {:induction false} PercentilesAreRanks(rows: seq<Row>)
    ensures var s, ls := Aggregated(rows), AllLatencies(rows);
            && ReportsRank(s.p50, ls, |ls| / 2) && ReportsRank(s.p95, ls, 19 * |ls| / 20)
            && (s.p50.Some? && s.p95.Some? ==> s.p50.value <= s.p95.value)
  {
    hide Histogram, ToolHistogram, CountFulfilled, AllLatencies, AllDurations, Sum, Sorted, CountAtMost;
    var ls := AllLatencies(rows);
    var m, t := |ls| / 2, 19 * |ls| / 20;
    UpperRank(|ls|);
    SortSorts(ls, 0.0);
    if ls != [] {
      forall w: real
        ensures CountAtMost(ls, w) > m <==> Sorted(ls)[m] <= w
        ensures CountAtMost(ls, w) > t <==> Sorted(ls)[t] <= w
      {
        SortSorts(ls, w);
        RankByCounting(Sorted(ls), m, w);
        RankByCounting(Sorted(ls), t, w);
      }
    }
  }

  lemma UpperRank(n: nat)
    ensures P95Index(n) == 19 * n / 20
    ensures n > 0 ==> n / 2 <= 19 * n / 20 < n
  {
    var x := n as real * 0.95;
    assert x == (19 * n) as real / 20.0;
    var q := 19 * n / 20;
    assert q as real <= x < q as real + 1.0;
  }
}
