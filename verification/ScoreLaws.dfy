/** What the scores are worth: breakpoints, ranks, and the price of each fault. */
module ScoreLaws {
  import opened Wrappers
  import opened OrderStatistics
  import opened CallAuditor
  import opened CallAuditorLaws

  // ----- Latency -----

  /** `y` lies at `x` on the line through (a, p) and (b, q). */
  predicate OnLine(x: real, y: real, a: real, p: real, b: real, q: real) {
    (y - p) * (b - a) == (q - p) * (x - a)
  }

  /** The median score is full up to 15 s, falls to half at 30 s, and to nothing at 55 s, in straight lines. */
  lemma MedianBreakpoints(x: real)
    ensures x <= 15000.0 ==> MedianScore(x) == 100.0
    ensures 15000.0 <= x <= 30000.0 ==> OnLine(x, MedianScore(x), 15000.0, 100.0, 30000.0, 50.0)
    ensures 30000.0 <= x <= 55000.0 ==> OnLine(x, MedianScore(x), 30000.0, 50.0, 55000.0, 0.0)
    ensures x >= 55000.0 ==> MedianScore(x) == 0.0
  {
  }

  /** The tail score is full up to 22.5 s, falls to 40 at 45 s, and to nothing at 90 s. */
  lemma TailBreakpoints(x: real)
    ensures x <= 22500.0 ==> TailScore(x) == 100.0
    ensures 22500.0 <= x <= 45000.0 ==> OnLine(x, TailScore(x), 22500.0, 100.0, 45000.0, 40.0)
    ensures 45000.0 <= x <= 90000.0 ==> OnLine(x, TailScore(x), 45000.0, 40.0, 90000.0, 0.0)
    ensures x >= 90000.0 ==> TailScore(x) == 0.0
  {
  }

  /** Above the budget both fall strictly, until nothing is left. */
  lemma ScoresFallStrictly(a: real, b: real)
    requires a < b
    ensures b > 15000.0 && a < 55000.0 ==> MedianScore(b) < MedianScore(a)
    ensures b > 22500.0 && a < 90000.0 ==> TailScore(b) < TailScore(a)
  {
  }

  /** The score weighs two samples, three to two: that of the middle rank, and that of the rank nine tenths up. A
      sample has a rank if more samples than the rank, and no fewer, are at most that large. */
  lemma {:induction false} LatencyWeighsTwoRanks(ls: seq<real>) returns (p50: real, p90: real)
    requires ls != []
    ensures p50 in ls && p90 in ls
    ensures forall w: real :: CountAtMost(ls, w) > |ls| / 2 <==> p50 <= w
    ensures forall w: real :: CountAtMost(ls, w) > 9 * |ls| / 10 <==> p90 <= w
    ensures LatencyScore(ls) * 5.0 == MedianScore(p50) * 3.0 + TailScore(p90) * 2.0
  {
    hide MedianScore, TailScore, Sorted, CountAtMost;
    var s := Sorted(ls);
    var m, t := |ls| / 2, 9 * |ls| / 10;
    TailRank(|ls|);
    p50, p90 := s[m], s[t];
    SortSorts(ls, 0.0);
    assert s[m] in s && s[t] in s;
    PiecesAreAntitone(p50, p50);
    PiecesAreAntitone(p90, p90);
    forall w: real
      ensures CountAtMost(ls, w) > m <==> p50 <= w
      ensures CountAtMost(ls, w) > t <==> p90 <= w
    {
      SortSorts(ls, w);
      RankByCounting(s, m, w);
      RankByCounting(s, t, w);
    }
  }

  lemma TailRank(n: nat)
    ensures TailIndex(n) == 9 * n / 10
    ensures n > 0 ==> 9 * n / 10 < n
  {
    var x := n as real * 0.90;
    assert x == (9 * n) as real / 10.0;
    var q := 9 * n / 10;
    assert q as real <= x < q as real + 1.0;
  }

  /** A delay counts at a line of the assistant right after another line, both stamped, less than half a minute and
      more than nothing apart. */
  predicate CountsAt(lines: seq<Line>, i: nat)
    requires i < |lines|
  {
    && i >= 1 && lines[i].assistant
    && IsStamp(lines[i].stamp) && IsStamp(lines[i - 1].stamp)
    && lines[i - 1].stamp.value < lines[i].stamp.value
    && lines[i].stamp.value < lines[i - 1].stamp.value + 30.0
  }

  predicate IsStamp(stamp: Option<real>) {
    match stamp
    case None => false
    case Some(t) => t < 0.0 || t > 0.0
  }

  /** Milliseconds between a line and the one before. */
  predicate IsGapAt(d: real, lines: seq<Line>, i: nat)
    requires i < |lines|
  {
    && i >= 1 && lines[i].stamp.Some? && lines[i - 1].stamp.Some?
    && d == 1000.0 * (lines[i].stamp.value - lines[i - 1].stamp.value)
  }

  /** `ds` are the delays of the first `n` lines, found at `ps`: all that count, in order. */
  predicate Collects(ds: seq<real>, ps: seq<nat>, lines: seq<Line>, n: nat)
    requires n <= |lines|
  {
    && |ds| == |ps|
    && (forall i, j :: 0 <= i < j < |ps| ==> ps[i] < ps[j])
    && (forall p: nat :: p < n ==> (p in ps <==> CountsAt(lines, p)))
    && (forall i :: 0 <= i < |ps| ==> ps[i] < n && IsGapAt(ds[i], lines, ps[i]))
  }

  lemma CollectStep(ds: seq<real>, ps: seq<nat>, lines: seq<Line>, n: nat, d: real)
    requires n < |lines| && Collects(ds, ps, lines, n)
    ensures !CountsAt(lines, n) ==> Collects(ds, ps, lines, n + 1)
    ensures CountsAt(lines, n) && IsGapAt(d, lines, n) ==> Collects(ds + [d], ps + [n], lines, n + 1)
  {
    hide CountsAt, IsGapAt;
    var more := ps + [n];
    assert more[|ps|] == n && forall p: nat :: p < n ==> (p in more <==> p in ps);
  }

  /** The collected latencies are those delays, in milliseconds, all of them and in order. */
  lemma {:induction false} LatenciesAreTheGaps(lines: seq<Line>, n: nat) returns (ps: seq<nat>)
    requires n <= |lines|
    ensures Collects(DelaysUpTo(lines, n), ps, lines, n)
  {
    hide CountsAt, DelayAt, IsGapAt;
    if n == 0 {
      return [];
    }
    hide Collects;
    var before := LatenciesAreTheGaps(lines, n - 1);
    OneDelay(lines, n - 1);
    var ds, delay := DelaysUpTo(lines, n - 1), DelayAt(lines, n - 1);
    CollectStep(ds, before, lines, n - 1, if delay.Some? then delay.value else 0.0);
    assert ds + [] == ds;
    return if CountsAt(lines, n - 1) then before + [n - 1] else before;
  }

  lemma OneDelay(lines: seq<Line>, i: nat)
    requires i < |lines|
    ensures DelayAt(lines, i).Some? <==> CountsAt(lines, i)
    ensures CountsAt(lines, i) ==> IsGapAt(DelayAt(lines, i).value, lines, i)
  {
  }

  // ----- The price of a fault -----

  /** A score with something taken off, but never below zero. */
  function Less(score: real, price: real): real {
    if score <= price then 0.0 else score - price
  }

  predicate Faultless(f: Findings) {
    && f.english == f.informal == f.forbidden == f.empty == f.verbose == f.tooShort == f.tooLong == f.repetitions == 0
    && f.deadEnds == f.deflections == 0 && !f.allEnglish
    && (f.turns < 4 || f.questions > 0) && (f.saidBye ==> f.botEnded)
    && !f.poorVocabulary && !f.repeatedStarter && !f.manyPrices && !f.offMenuOrder
    && !f.noGreeting && !f.noDisclosure && f.endCall && (f.turns == 0 || f.turns >= 3)
  }

  /** Without faults six of the dimensions are full. */
  lemma FaultlessCallsAreFull(f: Findings)
    requires Faultless(f)
    ensures LanguageScore(f) == InstructionScore(f) == FlowScore(f) == ResponseScore(f) == 100.0
    ensures HallucinationScore(f) == CompletenessScore(f) == 100.0
  {
  }

  /** What one more of each counted fault costs. */
  lemma LanguageFaultsCost(f: Findings)
    requires !f.allEnglish
    ensures LanguageScore(f.(english := f.english + 1)) == Less(LanguageScore(f), 30.0)
    ensures LanguageScore(f.(informal := f.informal + 1)) == Less(LanguageScore(f), 20.0)
    ensures LanguageScore(f.(forbidden := f.forbidden + 1)) == Less(LanguageScore(f), 25.0)
    ensures LanguageScore(f.(empty := f.empty + 1)) == Less(LanguageScore(f), 10.0)
  {
  }

  /** Repetitions cost extra where they become a loop. */
  lemma InstructionFaultsCost(f: Findings)
    ensures InstructionScore(f.(verbose := f.verbose + 1)) == Less(InstructionScore(f), 8.0)
    ensures InstructionScore(f.(tooShort := f.tooShort + 1)) == Less(InstructionScore(f), 10.0)
    ensures InstructionScore(f.(tooLong := f.tooLong + 1)) == Less(InstructionScore(f), 12.0)
    ensures InstructionScore(f.(repetitions := f.repetitions + 1))
            == Less(InstructionScore(f), if f.repetitions == 3 then 45.0 else 15.0)
  {
  }

  lemma OtherFaultsCost(f: Findings)
    ensures FlowScore(f.(repetitions := f.repetitions + 1)) == Less(FlowScore(f), 10.0)
    ensures FlowScore(f.(deadEnds := f.deadEnds + 1)) == Less(FlowScore(f), 8.0)
    ensures ResponseScore(f.(deflections := f.deflections + 1)) == Less(ResponseScore(f), 15.0)
    ensures ResponseScore(f.(empty := f.empty + 1)) == Less(ResponseScore(f), 20.0)
    ensures ResponseScore(f.(tooShort := f.tooShort + 1)) == Less(ResponseScore(f), 8.0)
    ensures !f.offMenuOrder ==>
              HallucinationScore(f.(forbidden := f.forbidden + 1)) == Less(HallucinationScore(f), 25.0)
  {
  }

  /** What each fault that is there or not costs. */
  lemma DetectedFaultsCost(f: Findings)
    ensures f.turns >= 4 ==> FlowScore(f.(questions := 0)) == Less(FlowScore(f.(questions := 1)), 15.0)
    ensures FlowScore(f.(saidBye := true, botEnded := false))
            == Less(FlowScore(f.(saidBye := true, botEnded := true)), 10.0)
    ensures !f.offMenuOrder ==>
              HallucinationScore(f.(manyPrices := true)) == Less(HallucinationScore(f.(manyPrices := false)), 15.0)
    ensures f.allEnglish ==> LanguageScore(f) == 0.0
    ensures f.offMenuOrder ==> HallucinationScore(f) == 0.0
  {
  }

  lemma PoorWordsCost(f: Findings)
    ensures f.turns >= 5 ==>
              ResponseScore(f.(poorVocabulary := true)) == Less(ResponseScore(f.(poorVocabulary := false)), 20.0)
    ensures ResponseScore(f.(repeatedStarter := true)) == Less(ResponseScore(f.(repeatedStarter := false)), 15.0)
  {
  }

  lemma IncompleteCallsCost(f: Findings)
    ensures CompletenessScore(f.(noGreeting := true)) == Less(CompletenessScore(f.(noGreeting := false)), 15.0)
    ensures CompletenessScore(f.(noDisclosure := true)) == Less(CompletenessScore(f.(noDisclosure := false)), 10.0)
    ensures CompletenessScore(f.(endCall := false)) == Less(CompletenessScore(f.(endCall := true)), 20.0)
  {
  }

  lemma ShortCallsCost(f: Findings)
    ensures CompletenessScore(f.(turns := 1)) == CompletenessScore(f.(turns := 2))
    ensures CompletenessScore(f.(turns := 1)) == Less(CompletenessScore(f.(turns := 3)), 20.0)
    ensures CompletenessScore(f.(turns := 0)) == CompletenessScore(f.(turns := 3))
  {
  }

  /** The task score: half for nothing, more for tools, most for an action and a proper end; less for short calls. */
  lemma TaskScores(f: Findings)
    ensures f.turns >= 4 && f.actionTool && f.endCall ==> TaskScore(f) == 90.0
    ensures f.turns >= 4 && f.actionTool && !f.endCall ==> TaskScore(f) == 80.0
    ensures f.turns >= 4 && !f.actionTool && f.toolCalls > 0 ==> TaskScore(f) == 65.0
    ensures f.turns >= 4 && !f.actionTool && f.toolCalls == 0 ==> TaskScore(f) == 50.0
    ensures f.turns < 4 ==> TaskScore(f) == TaskScore(f.(turns := 4)) - 20.0
  {
  }

  /** What a point in each dimension is worth in the composite. */
  lemma CompositeIsWeighted(f: Findings, i: Industry)
    ensures var medical := i == Medical;
            Composite(f, WeightsFor(i)) * 100.0 ==
              (if medical then 30.0 else 35.0) * TaskScore(f) + 15.0 * LanguageScore(f) + 10.0 * InstructionScore(f)
              + 10.0 * LatencyScore(f.latencies) + (if medical then 5.0 else 10.0) * FlowScore(f)
              + 7.0 * ResponseScore(f) + (if medical then 23.0 else 10.0) * HallucinationScore(f)
              + (if medical then 0.0 else 3.0) * CompletenessScore(f)
  {
    hide TaskScore, LanguageScore, InstructionScore, LatencyScore, FlowScore, ResponseScore, HallucinationScore,
      CompletenessScore;
  }
}
