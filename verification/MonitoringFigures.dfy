/** What the figures of a snapshot count, row by row. */
module MonitoringFigures {
  import opened Wrappers
  import opened Monitoring
  import opened MonitoringLaws

  // ----- Fulfilled calls -----

  function FulfilledRows(rows: seq<Row>): set<nat> {
    set i: nat | i < |rows| && rows[i].fulfilled
  }

  lemma {:induction false} FulfilledAreCounted(rows: seq<Row>)
    ensures CountFulfilled(rows) == |FulfilledRows(rows)|
  {
    if rows != [] {
      var front, last := rows[..|rows| - 1], |rows| - 1;
      FulfilledAreCounted(front);
      assert forall i: nat :: i < last ==> front[i] == rows[i];
      assert FulfilledRows(rows) == FulfilledRows(front) + if rows[last].fulfilled then {last as nat} else {};
    } else {
      assert FulfilledRows(rows) == {};
    }
  }

  /** The number of fulfilled calls, and their share in percent: all of them is a hundred, none is nothing. */
  lemma {:induction false} SuccessIsTheShareOfFulfilled(rows: seq<Row>)
    ensures var s := Aggregated(rows);
            && s.total == |rows| && s.fulfilled == |FulfilledRows(rows)| && s.fulfilled <= s.total
            && s.successRate * s.total as real == 100.0 * s.fulfilled as real
            && 0.0 <= s.successRate <= 100.0
            && (rows == [] ==> s.successRate == 0.0)
            && (s.successRate == 100.0 <==> rows != [] && forall i :: 0 <= i < |rows| ==> rows[i].fulfilled)
            && (s.successRate == 0.0 <==> forall i :: 0 <= i < |rows| ==> !rows[i].fulfilled)
  {
    hide ToolHistogram, Histogram, AllLatencies, AllDurations, SampleAt, Sum;
    FulfilledAreCounted(rows);
    AtMostAll(rows);
    if rows != [] {
      Percentage(CountFulfilled(rows), |rows|);
    }
  }

  lemma Percentage(part: nat, whole: nat)
    requires 0 < whole && part <= whole
    ensures var p := part as real / whole as real * 100.0;
            && p * whole as real == 100.0 * part as real && 0.0 <= p <= 100.0
            && (p == 100.0 <==> part == whole) && (p == 0.0 <==> part == 0)
  {
    var q, w := part as real / whole as real, whole as real;
    assert q * w == part as real;
    assert q < 0.0 ==> q * w < 0.0;
    assert q > 1.0 ==> (q - 1.0) * w > 0.0;
    assert q * 100.0 * w == 100.0 * (q * w);
    if q * 100.0 == 100.0 {
      assert q == 1.0;
    }
    if part == whole {
      assert (q - 1.0) * w == 0.0;
    }
  }

  lemma {:induction false} AtMostAll(rows: seq<Row>)
    ensures CountFulfilled(rows) <= |rows|
    ensures CountFulfilled(rows) == |rows| <==> forall i :: 0 <= i < |rows| ==> rows[i].fulfilled
    ensures CountFulfilled(rows) == 0 <==> forall i :: 0 <= i < |rows| ==> !rows[i].fulfilled
  {
    if rows != [] {
      var front, last := rows[..|rows| - 1], rows[|rows| - 1];
      AtMostAll(front);
      assert forall i :: 0 <= i < |front| ==> rows[i] == front[i];
    }
  }

  // ----- Durations and latencies -----

  /** The durations that count are the positive ones, each in its place. */
  lemma {:induction false} DurationsAreThePositiveOnes(rows: seq<Row>, more: seq<Row>)
    ensures AllDurations(rows + more) == AllDurations(rows) + AllDurations(more)
    ensures |rows| == 1 ==> AllDurations(rows) == if rows[0].duration > 0.0 then [rows[0].duration] else []
    ensures AllDurations(rows) == [] <==> forall i :: 0 <= i < |rows| ==> rows[i].duration <= 0.0
  {
    DurationsSplit(rows, more);
    SomeDuration(rows);
    if |rows| == 1 {
      assert rows[..0] == [];
    }
  }

  lemma {:induction false} DurationsSplit(rows: seq<Row>, more: seq<Row>)
    ensures AllDurations(rows + more) == AllDurations(rows) + AllDurations(more)
  {
    if more == [] {
      assert rows + more == rows;
    } else {
      DurationsSplit(rows, more[..|more| - 1]);
      assert (rows + more)[..|rows + more| - 1] == rows + more[..|more| - 1];
    }
  }

  lemma {:induction false} SomeDuration(rows: seq<Row>)
    ensures AllDurations(rows) == [] <==> forall i :: 0 <= i < |rows| ==> rows[i].duration <= 0.0
  {
    if rows != [] {
      var front := rows[..|rows| - 1];
      SomeDuration(front);
      assert forall i :: 0 <= i < |front| ==> rows[i] == front[i];
    }
  }

  /** Likewise the latencies of all rows are pooled. */
  lemma {:induction false} LatenciesArePooled(rows: seq<Row>, more: seq<Row>)
    ensures AllLatencies(rows + more) == AllLatencies(rows) + AllLatencies(more)
    ensures |rows| == 1 ==> AllLatencies(rows) == rows[0].latencies
  {
    if |rows| == 1 {
      assert rows[..0] == [];
    }
    if more == [] {
      assert rows + more == rows;
    } else {
      LatenciesArePooled(rows, more[..|more| - 1]);
      assert (rows + more)[..|rows + more| - 1] == rows + more[..|more| - 1];
    }
  }

  lemma {:induction false} SumAdds(xs: seq<real>, ys: seq<real>)
    ensures Sum(xs + ys) == Sum(xs) + Sum(ys)
    ensures |xs| == 1 ==> Sum(xs) == xs[0]
  {
    if |xs| == 1 {
      assert xs[..0] == [];
    }
    if ys == [] {
      assert xs + ys == xs;
    } else {
      SumAdds(xs, ys[..|ys| - 1]);
      assert (xs + ys)[..|xs + ys| - 1] == xs + ys[..|ys| - 1];
    }
  }

  /** The average of the positive durations, if there are any: as often as there are, it makes up their sum. */
  lemma {:induction false} AverageIsOfPositiveDurations(rows: seq<Row>)
    ensures var s, ds := Aggregated(rows), AllDurations(rows);
            && (s.averageDuration == None <==> forall i :: 0 <= i < |rows| ==> rows[i].duration <= 0.0)
            && (s.averageDuration.Some? ==> s.averageDuration.value * |ds| as real == Sum(ds))
  {
    hide ToolHistogram, Histogram, AllLatencies, AllDurations, SampleAt, Sum, CountFulfilled;
    SomeDuration(rows);
  }

  // ----- Histograms -----

  /** What a row counts under: its own text, or what stands for none. */
  lemma LabelsAreTheFields(r: Row)
    ensures Label(r, IntentField) == if r.intent == None || r.intent == Some("") then "unknown" else r.intent.value
    ensures Label(r, EndReasonField) == if r.endReason == None then "" else r.endReason.value
    ensures Label(r, SourceField) == if r.source == None || r.source == Some("") then "unknown" else r.source.value
    ensures Label(r, BrainField) == if r.brain == None || r.brain == Some("") then "unknown" else r.brain.value
    ensures Label(r, TenantField) == if r.tenant == None || r.tenant == Some("") then "_none" else r.tenant.value
  {
  }

  function RowsLabelled(rows: seq<Row>, f: Field, k: string): set<nat> {
    Marked(Marks(rows, f, k))
  }

  function Marks(rows: seq<Row>, f: Field, k: string): (marks: seq<bool>)
    ensures |marks| == |rows| && forall i :: 0 <= i < |rows| ==> (marks[i] <==> Label(rows[i], f) == k)
  {
    seq(|rows|, i requires 0 <= i < |rows| => Label(rows[i], f) == k)
  }

  function Marked(marks: seq<bool>): set<nat> {
    set i: nat | i < |marks| && marks[i]
  }

  lemma MarkedStep(marks: seq<bool>, mark: bool)
    ensures |Marked(marks + [mark])| == |Marked(marks)| + if mark then 1 else 0
  {
    assert Marked(marks + [mark]) == Marked(marks) + if mark then {|marks|} else {};
  }

  lemma RowsLabelledStep(front: seq<Row>, r: Row, f: Field, k: string)
    ensures |RowsLabelled(front + [r], f, k)| == |RowsLabelled(front, f, k)| + if Label(r, f) == k then 1 else 0
  {
    hide Label, Marked;
    MarkedStep(Marks(front, f, k), Label(r, f) == k);
    assert Marks(front + [r], f, k) == Marks(front, f, k) + [Label(r, f) == k];
  }

  lemma {:induction false} LabelsAreCounted(rows: seq<Row>, f: Field, k: string)
    ensures CountLabel(rows, f, k) == |RowsLabelled(rows, f, k)|
  {
    if rows != [] {
      hide Label, RowsLabelled;
      var front, r := rows[..|rows| - 1], rows[|rows| - 1];
      LabelsAreCounted(front, f, k);
      RowsLabelledStep(front, r, f, k);
      assert rows == front + [r];
    } else {
      assert RowsLabelled(rows, f, k) == {};
    }
  }

  /** Every bar of the five histograms by call is the number of rows with that label. */
  lemma {:induction false} BarsCountRows(rows: seq<Row>, k: string)
    ensures var s := Aggregated(rows);
            && Entry(s.intents)(k) == |RowsLabelled(rows, IntentField, k)|
            && Entry(s.endReasons)(k) == |RowsLabelled(rows, EndReasonField, k)|
            && Entry(s.sources)(k) == |RowsLabelled(rows, SourceField, k)|
            && Entry(s.brains)(k) == |RowsLabelled(rows, BrainField, k)|
            && Entry(s.tenants)(k) == |RowsLabelled(rows, TenantField, k)|
  {
    hide ToolHistogram, Histogram, AllLatencies, AllDurations, SampleAt, Sum, CountFulfilled, Label, RowsLabelled;
    BarCountsRows(rows, IntentField, k);
    BarCountsRows(rows, EndReasonField, k);
    BarCountsRows(rows, SourceField, k);
    BarCountsRows(rows, BrainField, k);
    BarCountsRows(rows, TenantField, k);
  }

  lemma BarCountsRows(rows: seq<Row>, f: Field, k: string)
    ensures Entry(Histogram(rows, f))(k) == |RowsLabelled(rows, f, k)|
  {
    hide Histogram, CountLabel, RowsLabelled;
    HistogramsAddUp(rows, f);
    LabelsAreCounted(rows, f, k);
  }

  /** How often a tool was called, over all rows. */
  function Calls(tools: seq<string>, tool: string): nat {
    multiset(tools)[tool]
  }

  function CallsIn(rows: seq<Row>, tool: string): nat {
    if rows == [] then 0 else Calls(rows[0].tools, tool) + CallsIn(rows[1..], tool)
  }

  lemma {:induction false} CallsInAppend(rows: seq<Row>, r: Row, tool: string)
    ensures CallsIn(rows + [r], tool) == CallsIn(rows, tool) + Calls(r.tools, tool)
  {
    if rows == [] {
      assert [] + [r] == [r];
    } else {
      CallsInAppend(rows[1..], r, tool);
      assert (rows + [r])[1..] == rows[1..] + [r];
    }
  }

  lemma {:induction false} BumpsCount(m: map<string, nat>, tools: seq<string>, tool: string)
    ensures Entry(BumpAll(m, tools))(tool) == Entry(m)(tool) + Calls(tools, tool)
  {
    if tools != [] {
      BumpsCount(m, tools[..|tools| - 1], tool);
      assert tools == tools[..|tools| - 1] + [tools[|tools| - 1]];
    }
  }

  lemma {:induction false} ToolBarsCountCalls(rows: seq<Row>, tool: string)
    ensures Entry(ToolHistogram(rows))(tool) == CallsIn(rows, tool)
  {
    if rows != [] {
      hide BumpAll, CallsIn, Calls;
      var front, r := rows[..|rows| - 1], rows[|rows| - 1];
      ToolBarsCountCalls(front, tool);
      BumpsCount(ToolHistogram(front), r.tools, tool);
      CallsInAppend(front, r, tool);
      assert rows == front + [r];
    }
  }

  // ----- Order -----

  predicate IsFirstRowOf(rows: seq<Row>, i: nat, sid: string) {
    i < |rows| && rows[i].sid == sid && forall j :: 0 <= j < i ==> rows[j].sid != sid
  }

  /** Kept rows stand in the order in which their calls first appeared. */
  lemma {:induction false} OrderOfAppearanceIsKept(rows: seq<Row>, a: nat, b: nat) returns (i: nat, j: nat)
    requires a < b < |Deduped(rows)|
    ensures IsFirstRowOf(rows, i, Deduped(rows)[a].sid) && IsFirstRowOf(rows, j, Deduped(rows)[b].sid) && i < j
  {
    hide Deduped, Pick, Best;
    KeptRowsHaveTheirSid(rows, a);
    KeptRowsHaveTheirSid(rows, b);
    i, j := SidsInOrder(rows, a, b);
  }

  lemma KeptRowsHaveTheirSid(rows: seq<Row>, a: nat)
    requires a < |Deduped(rows)|
    ensures Deduped(rows)[a].sid == Sids(rows)[a]
  {
    BestExists(rows, Sids(rows)[a]);
  }

  lemma {:induction false} FirstRowOfSid(rows: seq<Row>, a: nat) returns (i: nat)
    requires a < |Sids(rows)|
    ensures IsFirstRowOf(rows, i, Sids(rows)[a])
  {
    var front, last := rows[..|rows| - 1], |rows| - 1;
    if a < |Sids(front)| {
      i := FirstRowOfSid(front, a);
      assert forall j :: 0 <= j <= i ==> rows[j] == front[j];
    } else {
      i := last;
      SidsAreDistinct(front);
      assert forall j :: 0 <= j < last ==> rows[j] == front[j];
    }
  }

  lemma {:induction false} SidsInOrder(rows: seq<Row>, a: nat, b: nat) returns (i: nat, j: nat)
    requires a < b < |Sids(rows)|
    ensures IsFirstRowOf(rows, i, Sids(rows)[a]) && IsFirstRowOf(rows, j, Sids(rows)[b]) && i < j
  {
    var front, last := rows[..|rows| - 1], |rows| - 1;
    if b < |Sids(front)| {
      i, j := SidsInOrder(front, a, b);
      assert forall k :: 0 <= k <= j ==> rows[k] == front[k];
    } else {
      i := FirstRowOfSid(front, a);
      j := FirstRowOfSid(rows, b);
      assert forall k :: 0 <= k <= i ==> rows[k] == front[k];
      SidsAreDistinct(front);
      assert forall k :: 0 <= k < last ==> rows[k].sid == front[k].sid && rows[k].sid != Sids(rows)[b];
    }
  }
}
