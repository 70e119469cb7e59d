/** Scoring of a finished call: server/call_auditor_live.py, over exact reals. */
module CallAuditor {
  import opened Wrappers
  import opened OrderStatistics

  // ----- English runs -----

  predicate EnglishRunAt(words: seq<string>, known: set<string>, i: nat) {
    i + 3 <= |words| && words[i] in known && words[i + 1] in known && words[i + 2] in known
  }

  /** A text counts as English if it opens with a strong word or has three known words in a row. */
  method HasEnglish(words: seq<string>, common: set<string>, strong: set<string>) returns (english: bool)
    ensures english <==>
              (words != [] && words[0] in strong) || exists i :: 0 <= i && EnglishRunAt(words, common + strong, i)
  {
    if words != [] && words[0] in strong {
      return true;
    }
    var known := common + strong;
    var run := 0;
    for k := 0 to |words|
      invariant 0 <= run <= 2 && run <= k
      invariant forall j :: k - run <= j < k ==> words[j] in known
      invariant run < k ==> run == 2 || words[k - run - 1] !in known
      invariant run == 2 && k > 2 ==> words[k - 3] !in known
      invariant forall i :: 0 <= i && i + 3 <= k ==> !EnglishRunAt(words, known, i)
    {
      if words[k] in known {
        run := run + 1;
        if run >= 3 {
          assert EnglishRunAt(words, known, k - 2);
          return true;
        }
      } else {
        run := 0;
      }
    }
    return false;
  }

  // ----- Latencies -----

  /** One transcript line: who spoke, and its time stamp if there is one. */
  datatype Line = Line(assistant: bool, stamp: Option<real>)

  predicate Stamped(l: Line) {
    l.stamp.Some? && l.stamp.value != 0.0
  }

  /** The delay of an assistant line after the line before it, where both are stamped and it is plausible. */
  function DelayAt(lines: seq<Line>, i: nat): Option<real>
    requires i < |lines|
  {
    if i > 0 && lines[i].assistant && Stamped(lines[i - 1]) && Stamped(lines[i]) then
      var delta := (lines[i].stamp.value - lines[i - 1].stamp.value) * 1000.0;
      if 0.0 < delta < 30000.0 then Some(delta) else None
    else None
  }

  function DelaysUpTo(lines: seq<Line>, n: nat): seq<real>
    requires n <= |lines|
  {
    if n == 0 then []
    else DelaysUpTo(lines, n - 1) + if DelayAt(lines, n - 1).Some? then [DelayAt(lines, n - 1).value] else []
  }

  method CollectLatencies(lines: seq<Line>) returns (latencies: seq<real>)
    ensures latencies == DelaysUpTo(lines, |lines|)
    ensures Plausible(latencies)
  {
    latencies := [];
    for i := 0 to |lines|
      invariant latencies == DelaysUpTo(lines, i) && Plausible(latencies)
    {
      if i > 0 && lines[i].assistant && Stamped(lines[i - 1]) && Stamped(lines[i]) {
        var delta := (lines[i].stamp.value - lines[i - 1].stamp.value) * 1000.0;
        if 0.0 < delta < 30000.0 {
          latencies := latencies + [delta];
        }
      }
    }
  }

  predicate Plausible(ls: seq<real>) {
    forall i :: 0 <= i < |ls| ==> 0.0 < ls[i] < 30000.0
  }

  const BUDGET: real := 15000.0

  function MedianScore(p50: real): real {
    if p50 <= BUDGET then 100.0
    else if p50 <= BUDGET * 2.0 then 100.0 - (p50 - BUDGET) / BUDGET * 50.0
    else NonNegative(50.0 - (p50 - BUDGET * 2.0) / BUDGET * 30.0)
  }

  function TailScore(p90: real): real {
    var budget := BUDGET * 1.5;
    if p90 <= budget then 100.0
    else if p90 <= budget * 2.0 then 100.0 - (p90 - budget) / budget * 60.0
    else NonNegative(40.0 - (p90 - budget * 2.0) / budget * 20.0)
  }

  function NonNegative(x: real): real {
    if x < 0.0 then 0.0 else x
  }

  function Clamp(x: real): real {
    NonNegative(if x > 100.0 then 100.0 else x)
  }

  function MedianIndex(n: nat): nat {
    n / 2
  }

  function TailIndex(n: nat): (i: nat)
    ensures n > 0 ==> i < n
  {
    (n as real * 0.90).Floor
  }

  function LatencyScore(ls: seq<real>): real {
    if ls == [] then 0.0
    else
      var s := Sorted(ls);
      Clamp(MedianScore(s[MedianIndex(|ls|)]) * 0.6 + TailScore(s[TailIndex(|ls|)]) * 0.4)
  }

  // ----- The dimensions -----

  /** What the scorer counts and detects in a call. */
  datatype Findings = Findings(
    turns: nat, toolCalls: nat, actionTool: bool, endCall: bool,
    english: nat, informal: nat, forbidden: nat, empty: nat, allEnglish: bool,
    verbose: nat, tooShort: nat, tooLong: nat, repetitions: nat,
    deadEnds: nat, questions: nat, saidBye: bool, botEnded: bool,
    deflections: nat, poorVocabulary: bool, repeatedStarter: bool,
    manyPrices: bool, offMenuOrder: bool,
    noGreeting: bool, noDisclosure: bool,
    latencies: seq<real>)

  function Penalty(n: nat, each: real): real {
    n as real * each
  }

  function When(b: bool, amount: real): real {
    if b then amount else 0.0
  }

  function TaskScore(f: Findings): real {
    var base :=
      if f.actionTool then (if f.endCall then 90.0 else 80.0)
      else if f.toolCalls > 0 then 65.0
      else 50.0;
    if f.turns < 4 then NonNegative(base - 20.0) else base
  }

  function LanguageScore(f: Findings): real {
    if f.allEnglish then 0.0
    else NonNegative(100.0 - Penalty(f.english, 30.0) - Penalty(f.informal, 20.0) - Penalty(f.forbidden, 25.0)
                     - Penalty(f.empty, 10.0))
  }

  function InstructionScore(f: Findings): real {
    NonNegative(100.0 - Penalty(f.verbose, 8.0) - Penalty(f.tooShort, 10.0) - Penalty(f.tooLong, 12.0)
                - Penalty(f.repetitions, 15.0) - When(f.repetitions >= 4, 30.0))
  }

  function FlowScore(f: Findings): real {
    NonNegative(100.0 - Penalty(f.repetitions, 10.0) - Penalty(f.deadEnds, 8.0)
                - When(f.turns >= 4 && f.questions == 0, 15.0) - When(f.saidBye && !f.botEnded, 10.0))
  }

  function ResponseScore(f: Findings): real {
    NonNegative(100.0 - Penalty(f.deflections, 15.0) - Penalty(f.empty, 20.0) - Penalty(f.tooShort, 8.0)
                - When(f.turns >= 5 && f.poorVocabulary, 20.0) - When(f.repeatedStarter, 15.0))
  }

  function HallucinationScore(f: Findings): real {
    if f.offMenuOrder then 0.0
    else NonNegative(100.0 - Penalty(f.forbidden, 25.0) - When(f.manyPrices, 15.0))
  }

  function CompletenessScore(f: Findings): real {
    NonNegative(100.0 - When(f.noGreeting, 15.0) - When(f.noDisclosure, 10.0) - When(!f.endCall, 20.0)
                - When(0 < f.turns < 3, 20.0))
  }

  datatype Industry = Restaurant | Medical | OtherIndustry

  datatype Weights = Weights(
    task: real, language: real, instruction: real, latency: real,
    flow: real, response: real, hallucination: real, completeness: real)

  function WeightsFor(i: Industry): Weights {
    if i.Medical? then Weights(0.30, 0.15, 0.10, 0.10, 0.05, 0.07, 0.23, 0.00)
    else Weights(0.35, 0.15, 0.10, 0.10, 0.10, 0.07, 0.10, 0.03)
  }

  /** One dimension's contribution. */
  function Part(score: real, weight: real): real {
    score * weight
  }

  function Composite(f: Findings, w: Weights): real {
    Part(TaskScore(f), w.task) + Part(LanguageScore(f), w.language) + Part(InstructionScore(f), w.instruction)
    + Part(LatencyScore(f.latencies), w.latency) + Part(FlowScore(f), w.flow) + Part(ResponseScore(f), w.response)
    + Part(HallucinationScore(f), w.hallucination) + Part(CompletenessScore(f), w.completeness)
  }
}

/** Bounds and monotonicity of the scores. */
module CallAuditorLaws {
  import opened OrderStatistics
  import opened CallAuditor

  // ----- Latency -----

  lemma PiecesAreAntitone(a: real, b: real)
    requires a <= b
    ensures MedianScore(b) <= MedianScore(a) <= 100.0
    ensures TailScore(b) <= TailScore(a) <= 100.0
    ensures 0.0 <= MedianScore(b) && 0.0 <= TailScore(b)
  {
  }

  /** Raising any latencies never raises the latency score. */
  lemma LatencyScoreIsAntitone(xs: seq<real>, ys: seq<real>)
    requires PointwiseAtMost(xs, ys)
    ensures LatencyScore(ys) <= LatencyScore(xs)
  {
    if xs != [] {
      hide MedianScore, TailScore;
      var m, t := MedianIndex(|xs|), TailIndex(|xs|);
      OrderStatisticsAreMonotone(xs, ys, m);
      OrderStatisticsAreMonotone(xs, ys, t);
      PiecesAreAntitone(Sorted(xs)[m], Sorted(ys)[m]);
      PiecesAreAntitone(Sorted(xs)[t], Sorted(ys)[t]);
    }
  }

  /** With the samples the scorer collects, the score is above 62 as soon as there is one, and 0 otherwise. */
  lemma LatencyScoreRange(lines: seq<Line>)
    ensures var ls := DelaysUpTo(lines, |lines|);
            if ls == [] then LatencyScore(ls) == 0.0 else 62.0 < LatencyScore(ls) <= 100.0
  {
    var ls := DelaysUpTo(lines, |lines|);
    DelaysArePlausible(lines, |lines|);
    if ls != [] {
      SortSorts(ls, 0.0);
      var m, t := MedianIndex(|ls|), TailIndex(|ls|);
      assert Sorted(ls)[m] in Sorted(ls) && Sorted(ls)[t] in Sorted(ls);
      PlausiblePieces(Sorted(ls)[m]);
      PlausiblePieces(Sorted(ls)[t]);
      hide MedianScore, TailScore;
    }
  }

  lemma PlausiblePieces(x: real)
    requires x < 30000.0
    ensures 50.0 < MedianScore(x) <= 100.0 && 80.0 < TailScore(x) <= 100.0
  {
  }

  lemma {:induction false} DelaysArePlausible(lines: seq<Line>, n: nat)
    requires n <= |lines|
    ensures Plausible(DelaysUpTo(lines, n))
  {
    if n > 0 {
      DelaysArePlausible(lines, n - 1);
    }
  }

  // ----- The composite -----

  predicate InRange(x: real) {
    0.0 <= x <= 100.0
  }

  lemma DimensionsInRange(f: Findings)
    ensures InRange(TaskScore(f)) && InRange(LanguageScore(f)) && InRange(InstructionScore(f))
    ensures InRange(LatencyScore(f.latencies)) && InRange(FlowScore(f)) && InRange(ResponseScore(f))
    ensures InRange(HallucinationScore(f)) && InRange(CompletenessScore(f))
  {
    hide MedianScore, TailScore;
  }

  lemma Share(x: real, w: real)
    requires InRange(x) && 0.0 <= w
    ensures 0.0 <= Part(x, w) <= 100.0 * w
  {
    assert 100.0 * w - x * w == (100.0 - x) * w;
  }

  lemma WeightsAreShares(i: Industry)
    ensures var w := WeightsFor(i);
            && w.task + w.language + w.instruction + w.latency + w.flow + w.response + w.hallucination
               + w.completeness == 1.0
            && w.task >= 0.0 && w.language >= 0.0 && w.instruction >= 0.0 && w.latency >= 0.0
            && w.flow >= 0.0 && w.response >= 0.0 && w.hallucination >= 0.0 && w.completeness >= 0.0
  {
  }

  /** For every industry the composite of any call lies between 0 and 100. */
  lemma CompositeInRange(f: Findings, i: Industry)
    ensures InRange(Composite(f, WeightsFor(i)))
  {
    hide TaskScore, LanguageScore, InstructionScore, LatencyScore, FlowScore, ResponseScore, HallucinationScore,
      CompletenessScore, WeightsFor, Part;
    var w := WeightsFor(i);
    DimensionsInRange(f);
    WeightsAreShares(i);
    Share(TaskScore(f), w.task);
    Share(LanguageScore(f), w.language);
    Share(InstructionScore(f), w.instruction);
    Share(LatencyScore(f.latencies), w.latency);
    Share(FlowScore(f), w.flow);
    Share(ResponseScore(f), w.response);
    Share(HallucinationScore(f), w.hallucination);
    Share(CompletenessScore(f), w.completeness);
  }

  /** `g` is the same call with more faults: no defect less, no merit more, no delay shorter. */
  predicate NoBetter(f: Findings, g: Findings) {
    && g.turns == f.turns && g.toolCalls <= f.toolCalls && (g.actionTool ==> f.actionTool) && (g.endCall ==> f.endCall)
    && f.english <= g.english && f.informal <= g.informal && f.forbidden <= g.forbidden && f.empty <= g.empty
    && (f.allEnglish ==> g.allEnglish)
    && f.verbose <= g.verbose && f.tooShort <= g.tooShort && f.tooLong <= g.tooLong && f.repetitions <= g.repetitions
    && f.deadEnds <= g.deadEnds && g.questions <= f.questions
    && (f.saidBye ==> g.saidBye) && (g.botEnded ==> f.botEnded)
    && f.deflections <= g.deflections
    && (f.poorVocabulary ==> g.poorVocabulary) && (f.repeatedStarter ==> g.repeatedStarter)
    && (f.manyPrices ==> g.manyPrices) && (f.offMenuOrder ==> g.offMenuOrder)
    && (f.noGreeting ==> g.noGreeting) && (f.noDisclosure ==> g.noDisclosure)
    && PointwiseAtMost(f.latencies, g.latencies)
  }

  lemma FirstDimensionsAreAntitone(f: Findings, g: Findings)
    requires NoBetter(f, g)
    ensures TaskScore(g) <= TaskScore(f) && LanguageScore(g) <= LanguageScore(f)
    ensures InstructionScore(g) <= InstructionScore(f) && LatencyScore(g.latencies) <= LatencyScore(f.latencies)
  {
    hide LatencyScore;
    LatencyScoreIsAntitone(f.latencies, g.latencies);
  }

  lemma OtherDimensionsAreAntitone(f: Findings, g: Findings)
    requires NoBetter(f, g)
    ensures FlowScore(g) <= FlowScore(f) && ResponseScore(g) <= ResponseScore(f)
    ensures HallucinationScore(g) <= HallucinationScore(f) && CompletenessScore(g) <= CompletenessScore(f)
  {
    hide PointwiseAtMost;
  }

  lemma ShareGrows(x: real, y: real, w: real)
    requires x <= y && w >= 0.0
    ensures Part(x, w) <= Part(y, w)
  {
  }

  /** More faults never raise the composite, whatever the industry. */
  lemma CompositeIsAntitone(f: Findings, g: Findings, i: Industry)
    requires NoBetter(f, g)
    ensures Composite(g, WeightsFor(i)) <= Composite(f, WeightsFor(i))
  {
    hide TaskScore, LanguageScore, InstructionScore, LatencyScore, FlowScore, ResponseScore, HallucinationScore,
      CompletenessScore, WeightsFor, Part, NoBetter;
    var w := WeightsFor(i);
    FirstDimensionsAreAntitone(f, g);
    OtherDimensionsAreAntitone(f, g);
    WeightsAreShares(i);
    ShareGrows(TaskScore(g), TaskScore(f), w.task);
    ShareGrows(LanguageScore(g), LanguageScore(f), w.language);
    ShareGrows(InstructionScore(g), InstructionScore(f), w.instruction);
    ShareGrows(LatencyScore(g.latencies), LatencyScore(f.latencies), w.latency);
    ShareGrows(FlowScore(g), FlowScore(f), w.flow);
    ShareGrows(ResponseScore(g), ResponseScore(f), w.response);
    ShareGrows(HallucinationScore(g), HallucinationScore(f), w.hallucination);
    ShareGrows(CompletenessScore(g), CompletenessScore(f), w.completeness);
  }
}
