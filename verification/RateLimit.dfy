/** Per-caller sliding-window limiting: server/brain/rate_limit.py.
    Every call carries the clock reading it makes, in seconds. */
module RateLimit {

  const WINDOW: real := 3600.0
  const LIMIT: nat := 3

  /** One call into the module. `file` is what the override file lists at that moment: a load reads it, and
      so does a check if nothing has been loaded yet. */
  datatype Op =
    | Load(file: set<string>)
    | Check(phone: string, now: real, file: set<string>)
    | Count(phone: string, now: real)
    | Override(phone: string)

  /** The answer of `Check`, the answer of `Count`, or nothing. */
  datatype Answer = Allowed(yes: bool) | InWindow(n: nat) | Done

  datatype Limiter = Limiter(history: map<string, seq<real>>, overrides: set<string>, loaded: bool)

  /** The module as imported. */
  const INITIAL: Limiter := Limiter(map[], {}, false)

  function HistoryOf(history: map<string, seq<real>>, phone: string): seq<real> {
    if phone in history then history[phone] else []
  }

  /** The deque once the entries before `cutoff` have been popped from its front. */
  function Trim(h: seq<real>, cutoff: real): seq<real> {
    if h != [] && h[0] < cutoff then Trim(h[1..], cutoff) else h
  }

  function StepOp(s: Limiter, op: Op): (Limiter, Answer) {
    match op
    case Load(file) => (s.(overrides := file, loaded := true), Done)
    case Override(phone) => (s.(overrides := s.overrides + {phone}), Done)
    case Count(phone, now) =>
      var h := Trim(HistoryOf(s.history, phone), now - WINDOW);
      (s.(history := s.history[phone := h]), InWindow(|h|))
    case Check(phone, now, file) =>
      var s1 := if s.loaded then s else s.(overrides := file, loaded := true);
      if phone == "" || phone in s1.overrides then (s1, Allowed(true))
      else
        var h := Trim(HistoryOf(s1.history, phone), now - WINDOW);
        if |h| >= LIMIT then (s1.(history := s1.history[phone := h]), Allowed(false))
        else (s1.(history := s1.history[phone := h + [now]]), Allowed(true))
  }

  /** The module after a run of calls. */
  function Run(ops: seq<Op>): Limiter {
    if ops == [] then INITIAL else StepOp(Run(ops[..|ops| - 1]), ops[|ops| - 1]).0
  }

  /** The answer to `op` after `ops`. */
  function AnswerTo(ops: seq<Op>, op: Op): Answer {
    StepOp(Run(ops), op).1
  }

  /** The module's globals. */
  class RateLimiter {
    var callHistory: map<string, seq<real>>
    var overridePhones: set<string>
    var overridesLoaded: bool
    /** Every call so far: the never-trimmed history. */
    ghost var calls: seq<Op>

    function State(): Limiter
      reads this
    {
      Limiter(callHistory, overridePhones, overridesLoaded)
    }

    /** The globals are where the calls so far lead. */
    ghost predicate Tracks()
      reads this
    {
      State() == Run(calls)
    }

    constructor ()
      ensures State() == INITIAL && calls == [] && Tracks()
    {
      callHistory, overridePhones, overridesLoaded, calls := map[], {}, false, [];
    }

    method LoadOverrides(file: set<string>)
      modifies this
      ensures State() == StepOp(old(State()), Load(file)).0
      ensures calls == old(calls) + [Load(file)]
      ensures old(Tracks()) ==> Tracks()
    {
      ReadFile(file);
      calls := calls + [Load(file)];
      RunStep(old(calls), Load(file));
    }

    /** Reads the override file, dropping whatever was in the set before. */
    method ReadFile(file: set<string>)
      modifies this`overridePhones, this`overridesLoaded
      ensures overridePhones == file && overridesLoaded
    {
      overridePhones := {};
      var todo := file;
      while todo != {}
        invariant overridePhones == file - todo && todo <= file
      {
        var line :| line in todo;
        overridePhones, todo := overridePhones + {line}, todo - {line};
      }
      overridesLoaded := true;
    }

    method TrimHistory(phone: string, now: real)
      modifies this`callHistory
      ensures callHistory == old(callHistory)[phone := Trim(HistoryOf(old(callHistory), phone), now - WINDOW)]
    {
      callHistory := callHistory[phone := HistoryOf(callHistory, phone)];
      while callHistory[phone] != [] && callHistory[phone][0] < now - WINDOW
        invariant phone in callHistory && callHistory == old(callHistory)[phone := callHistory[phone]]
        invariant Trim(callHistory[phone], now - WINDOW) == Trim(HistoryOf(old(callHistory), phone), now - WINDOW)
        decreases if phone in callHistory then |callHistory[phone]| else 0
      {
        callHistory := callHistory[phone := callHistory[phone][1..]];
      }
    }

    method CheckRateLimit(phone: string, now: real, file: set<string>) returns (allowed: bool)
      modifies this
      ensures (State(), Allowed(allowed)) == StepOp(old(State()), Check(phone, now, file))
      ensures calls == old(calls) + [Check(phone, now, file)]
      ensures old(Tracks()) ==> Tracks() && Allowed(allowed) == AnswerTo(old(calls), Check(phone, now, file))
    {
      calls := calls + [Check(phone, now, file)];
      RunStep(old(calls), Check(phone, now, file));
      if !overridesLoaded {
        ReadFile(file);
      }
      if phone == "" {
        return true;
      }
      if phone in overridePhones {
        return true;
      }
      TrimHistory(phone, now);
      if |callHistory[phone]| >= LIMIT {
        return false;
      }
      ghost var trimmed := callHistory;
      callHistory := callHistory[phone := callHistory[phone] + [now]];
      assert callHistory == old(callHistory)[phone := trimmed[phone] + [now]];
      return true;
    }

    method GetWindowCount(phone: string, now: real) returns (n: nat)
      modifies this
      ensures (State(), InWindow(n)) == StepOp(old(State()), Count(phone, now))
      ensures calls == old(calls) + [Count(phone, now)]
      ensures old(Tracks()) ==> Tracks() && InWindow(n) == AnswerTo(old(calls), Count(phone, now))
    {
      calls := calls + [Count(phone, now)];
      RunStep(old(calls), Count(phone, now));
      TrimHistory(phone, now);
      n := |callHistory[phone]|;
    }

    method AddOverride(phone: string)
      modifies this
      ensures State() == StepOp(old(State()), Override(phone)).0
      ensures calls == old(calls) + [Override(phone)]
      ensures old(Tracks()) ==> Tracks()
    {
      overridePhones := overridePhones + {phone};
      calls := calls + [Override(phone)];
      RunStep(old(calls), Override(phone));
    }
  }

  lemma RunStep(front: seq<Op>, op: Op)
    ensures Run(front + [op]) == StepOp(Run(front), op).0
  {
    assert (front + [op])[..|front|] == front;
  }
}

/** What the limiter guarantees over whole runs. */
module RateLimitRuns {
  import opened RateLimit

  /** Whether a check that finds `file` is let through after `ops` without being counted. */
  predicate Bypasses(ops: seq<Op>, phone: string, file: set<string>) {
    phone == "" || phone in if Run(ops).loaded then Run(ops).overrides else file
  }

  /** The complete, never-trimmed log: the times of all counted calls of one phone that were let through. */
  function Log(ops: seq<Op>, phone: string): seq<real> {
    if ops == [] then []
    else
      var front, op := ops[..|ops| - 1], ops[|ops| - 1];
      Log(front, phone) +
      if IsOwnCheck(op, phone) && !Bypasses(front, phone, op.file) && AnswerTo(front, op) == Allowed(true)
      then [op.now] else []
  }

  predicate IsOwnCheck(op: Op, phone: string) {
    op.Check? && op.phone == phone
  }

  /** The calls that read the clock. */
  predicate Timed(op: Op) {
    op.Check? || op.Count?
  }

  predicate ClockNeverGoesBack(ops: seq<Op>) {
    forall i, j :: 0 <= i < j < |ops| && Timed(ops[i]) && Timed(ops[j]) ==> ops[i].now <= ops[j].now
  }

  /** How many of the times lie in the closed interval. */
  function CountIn(ts: seq<real>, lo: real, hi: real): nat {
    if ts == [] then 0 else CountIn(ts[..|ts| - 1], lo, hi) + if lo <= ts[|ts| - 1] <= hi then 1 else 0
  }

  predicate Sorted(ts: seq<real>) {
    forall i, j :: 0 <= i < j < |ts| ==> ts[i] <= ts[j]
  }

  /** The deque is the log without a prefix that is too old for every later question. */
  predicate Refines(deque: seq<real>, log: seq<real>, latest: real) {
    && |deque| <= |log|
    && deque == log[|log| - |deque|..]
    && (forall i :: 0 <= i < |log| - |deque| ==> log[i] < latest - WINDOW)
    && (forall i :: 0 <= i < |log| ==> log[i] <= latest)
    && Sorted(log)
  }

  lemma {:induction false} TrimIsSuffix(h: seq<real>, cutoff: real)
    ensures |Trim(h, cutoff)| <= |h|
    ensures Trim(h, cutoff) == h[|h| - |Trim(h, cutoff)|..]
    ensures forall i :: 0 <= i < |h| - |Trim(h, cutoff)| ==> h[i] < cutoff
    ensures Trim(h, cutoff) != [] ==> Trim(h, cutoff)[0] >= cutoff
  {
    if h != [] && h[0] < cutoff {
      TrimIsSuffix(h[1..], cutoff);
      forall i | 0 <= i < |h| - |Trim(h, cutoff)|
        ensures h[i] < cutoff
      {
        if i > 0 {
          assert h[i] == h[1..][i - 1];
        }
      }
    }
  }

  lemma {:induction false} CountInSuffix(log: seq<real>, k: nat, lo: real, hi: real)
    requires Sorted(log) && k <= |log|
    requires forall i :: 0 <= i < k ==> log[i] < lo
    requires forall i :: k <= i < |log| ==> lo <= log[i] <= hi
    ensures CountIn(log, lo, hi) == |log| - k
  {
    if log != [] {
      var front := log[..|log| - 1];
      CountInSuffix(front, if k == |log| then k - 1 else k, lo, hi);
    }
  }

  /** Trimming a refining deque at a later time leaves exactly the calls of the window. */
  lemma TrimCountsTheWindow(deque: seq<real>, log: seq<real>, latest: real, now: real)
    requires Refines(deque, log, latest) && latest <= now
    ensures Refines(Trim(deque, now - WINDOW), log, now)
    ensures |Trim(deque, now - WINDOW)| == CountIn(log, now - WINDOW, now)
  {
    var t := Trim(deque, now - WINDOW);
    TrimIsSuffix(deque, now - WINDOW);
    var k := |log| - |t|;
    assert t == log[k..];
    forall i | 0 <= i < k
      ensures log[i] < now - WINDOW
    {
      if i >= |log| - |deque| {
        assert log[i] == deque[i - (|log| - |deque|)];
      }
    }
    forall i | k <= i < |log|
      ensures now - WINDOW <= log[i] <= now
    {
      assert log[k] == t[0];
    }
    CountInSuffix(log, k, now - WINDOW, now);
  }

  predicate NotBefore(ops: seq<Op>, now: real) {
    forall i :: 0 <= i < |ops| && Timed(ops[i]) ==> ops[i].now <= now
  }

  lemma RefinesLater(deque: seq<real>, log: seq<real>, latest: real, now: real)
    requires Refines(deque, log, latest) && latest <= now
    ensures Refines(deque, log, now)
  {
  }

  lemma StepDeque(s: Limiter, op: Op, phone: string)
    ensures var h, after := HistoryOf(s.history, phone), HistoryOf(StepOp(s, op).0.history, phone);
            if !Timed(op) || op.phone != phone then after == h
            else if op.Count? then after == Trim(h, op.now - WINDOW)
            else if phone == "" || phone in (if s.loaded then s.overrides else op.file) then after == h
            else
              var t := Trim(h, op.now - WINDOW);
              var ok := |t| < LIMIT;
              after == (if ok then t + [op.now] else t) && StepOp(s, op).1 == Allowed(ok)
  {
  }

  lemma AppendRefines(deque: seq<real>, log: seq<real>, now: real)
    requires Refines(deque, log, now)
    ensures Refines(deque + [now], log + [now], now)
  {
  }

  lemma LogStep(front: seq<Op>, op: Op, phone: string)
    ensures Run(front + [op]) == StepOp(Run(front), op).0
    ensures var h := HistoryOf(Run(front).history, phone);
            Log(front + [op], phone) == Log(front, phone) +
              if IsOwnCheck(op, phone) && !Bypasses(front, phone, op.file) && |Trim(h, op.now - WINDOW)| < LIMIT
              then [op.now] else []
  {
    hide Trim;
    assert (front + [op])[..|front|] == front;
    StepDeque(Run(front), op, phone);
  }

  lemma StepRefines(front: seq<Op>, op: Op, phone: string)
    requires Timed(op) && Refines(HistoryOf(Run(front).history, phone), Log(front, phone), op.now)
    ensures Refines(HistoryOf(Run(front + [op]).history, phone), Log(front + [op], phone), op.now)
  {
    hide StepOp, Refines, Trim, Run, Log;
    var h, log := HistoryOf(Run(front).history, phone), Log(front, phone);
    StepDeque(Run(front), op, phone);
    LogStep(front, op, phone);
    TrimCountsTheWindow(h, log, op.now, op.now);
    AppendRefines(Trim(h, op.now - WINDOW), log, op.now);
    assert log + [] == log;
  }

  /** Under a clock that never goes back, every deque refines its phone's full log. */
  lemma {:induction false} DequeRefinesLog(ops: seq<Op>, phone: string, now: real)
    requires ClockNeverGoesBack(ops) && NotBefore(ops, now)
    ensures Refines(HistoryOf(Run(ops).history, phone), Log(ops, phone), now)
  {
    if ops == [] {
      assert Refines([], [], now);
    } else {
      hide Refines, Trim, Run, Log, StepOp;
      var front, op := ops[..|ops| - 1], ops[|ops| - 1];
      assert ops == front + [op];
      if Timed(op) {
        DequeRefinesLog(front, phone, op.now);
        StepRefines(front, op, phone);
        RefinesLater(HistoryOf(Run(ops).history, phone), Log(ops, phone), op.now, now);
      } else {
        DequeRefinesLog(front, phone, now);
        LogStep(front, op, phone);
        StepDeque(Run(front), op, phone);
        assert Log(front, phone) + [] == Log(front, phone);
      }
    }
  }

  // ----- Main results -----

  lemma AnswersOf(s: Limiter, phone: string, now: real, file: set<string>)
    ensures var n := |Trim(HistoryOf(s.history, phone), now - WINDOW)|;
            && StepOp(s, Count(phone, now)).1 == InWindow(n)
            && StepOp(s, Check(phone, now, file)).1 ==
                 Allowed(phone == "" || phone in (if s.loaded then s.overrides else file) || n < LIMIT)
  {
    hide Trim;
  }

  /** A counted phone is turned away exactly when LIMIT of its accepted calls lie in the closed window
      that ends now; and the window count is the number of those calls. */
  lemma {:induction false} AnswersFollowTheFullLog(ops: seq<Op>, phone: string, now: real, file: set<string>)
    requires ClockNeverGoesBack(ops) && NotBefore(ops, now)
    ensures !Bypasses(ops, phone, file) ==>
              AnswerTo(ops, Check(phone, now, file)) == Allowed(CountIn(Log(ops, phone), now - WINDOW, now) < LIMIT)
    ensures Bypasses(ops, phone, file) ==> AnswerTo(ops, Check(phone, now, file)) == Allowed(true)
    ensures AnswerTo(ops, Count(phone, now)) == InWindow(CountIn(Log(ops, phone), now - WINDOW, now))
  {
    hide StepOp, Run, Log, Trim, Refines, CountIn, HistoryOf, ClockNeverGoesBack, NotBefore;
    DequeRefinesLog(ops, phone, now);
    TrimCountsTheWindow(HistoryOf(Run(ops).history, phone), Log(ops, phone), now, now);
    AnswersOf(Run(ops), phone, now, file);
  }

  lemma {:induction false} CountInNarrower(ts: seq<real>, lo: real, hi: real, lo': real, hi': real)
    requires forall i :: 0 <= i < |ts| && lo <= ts[i] <= hi ==> lo' <= ts[i] <= hi'
    ensures CountIn(ts, lo, hi) <= CountIn(ts, lo', hi')
  {
    if ts != [] {
      CountInNarrower(ts[..|ts| - 1], lo, hi, lo', hi');
    }
  }

  /** What one more operation adds to the log. */
  lemma LogGrows(front: seq<Op>, op: Op, phone: string)
    requires ClockNeverGoesBack(front) && (Timed(op) ==> NotBefore(front, op.now))
    ensures Log(front + [op], phone) == Log(front, phone) +
              if IsOwnCheck(op, phone) && !Bypasses(front, phone, op.file) &&
                 CountIn(Log(front, phone), op.now - WINDOW, op.now) < LIMIT
              then [op.now] else []
  {
    hide Refines, Trim, Run, Log, StepOp;
    LogStep(front, op, phone);
    if Timed(op) {
      DequeRefinesLog(front, phone, op.now);
      TrimCountsTheWindow(HistoryOf(Run(front).history, phone), Log(front, phone), op.now, op.now);
    }
  }

  /** No closed window of length WINDOW, wherever it starts, ever holds more than LIMIT accepted calls. */
  lemma {:induction false} NoWindowOverflows(ops: seq<Op>, phone: string, start: real)
    requires ClockNeverGoesBack(ops)
    ensures CountIn(Log(ops, phone), start, start + WINDOW) <= LIMIT
  {
    if ops != [] {
      hide Refines, Log, Bypasses;
      var front, op := ops[..|ops| - 1], ops[|ops| - 1];
      assert ops == front + [op];
      var log := Log(front, phone);
      NoWindowOverflows(front, phone, start);
      LogGrows(front, op, phone);
      assert log + [] == log;
      if Log(ops, phone) != log && start <= op.now <= start + WINDOW {
        DequeRefinesLog(front, phone, op.now);
        BoundedBy(HistoryOf(Run(front).history, phone), log, op.now);
        CountInNarrower(log, start, start + WINDOW, op.now - WINDOW, op.now);
      }
      assert op.Check? ==> (log + [op.now])[..|log|] == log;
    } else {
      assert Log([], phone) == [];
    }
  }

  lemma BoundedBy(deque: seq<real>, log: seq<real>, latest: real)
    requires Refines(deque, log, latest)
    ensures forall i :: 0 <= i < |log| ==> log[i] <= latest
  {
  }

  /** The limiter object keeps these promises for all the calls it has tracked. */
  lemma TrackedLimiter(limiter: RateLimiter, phone: string, now: real, start: real)
    requires limiter.Tracks() && ClockNeverGoesBack(limiter.calls) && NotBefore(limiter.calls, now)
    ensures Refines(HistoryOf(limiter.callHistory, phone), Log(limiter.calls, phone), now)
    ensures CountIn(Log(limiter.calls, phone), start, start + WINDOW) <= LIMIT
  {
    DequeRefinesLog(limiter.calls, phone, now);
    NoWindowOverflows(limiter.calls, phone, start);
  }

  // ----- Overrides -----

  /** The call at `j` reads the override file: an explicit load, or a check before anything was loaded. */
  predicate LoadsAt(ops: seq<Op>, j: nat) {
    && j < |ops|
    && (ops[j].Load? || (ops[j].Check? && forall i :: 0 <= i < j ==> !ops[i].Load? && !ops[i].Check?))
  }

  predicate IsLastLoad(ops: seq<Op>, j: nat) {
    LoadsAt(ops, j) && forall i: nat :: j < i < |ops| ==> !LoadsAt(ops, i)
  }

  /** The phone is in the file that was read last, or was added after that. */
  ghost predicate Listed(ops: seq<Op>, phone: string) {
    exists j: nat :: IsLastLoad(ops, j) && (phone in ops[j].file || AddedAfter(ops, phone, j))
  }

  predicate AddedAfter(ops: seq<Op>, phone: string, j: nat) {
    exists i :: j < i < |ops| && ops[i] == Override(phone)
  }

  lemma LoadsInFront(front: seq<Op>, op: Op)
    ensures forall j: nat :: j < |front| ==> (LoadsAt(front + [op], j) <==> LoadsAt(front, j))
    ensures LoadsAt(front + [op], |front|) <==>
              op.Load? || (op.Check? && forall i: nat :: i < |front| ==> !LoadsAt(front, i))
  {
    var ops := front + [op];
    forall j: nat | j < |front|
      ensures LoadsAt(ops, j) <==> LoadsAt(front, j)
    {
      assert forall i :: 0 <= i <= j ==> ops[i] == front[i];
    }
    FirstLoad(front);
    assert forall i :: 0 <= i < |front| ==> ops[i] == front[i];
  }

  /** Wherever something loads or checks, something at or before it reads the file. */
  lemma {:induction false} FirstLoad(ops: seq<Op>)
    ensures (exists i :: 0 <= i < |ops| && (ops[i].Load? || ops[i].Check?)) ==> exists j: nat :: LoadsAt(ops, j)
  {
    if i :| 0 <= i < |ops| && (ops[i].Load? || ops[i].Check?) {
      if LoadsAt(ops, i) {
      } else {
        var k :| 0 <= k < i && (ops[k].Load? || ops[k].Check?);
        FirstLoad(ops[..i]);
        assert ops[..i][k] == ops[k];
        var j: nat :| LoadsAt(ops[..i], j);
        assert forall m :: 0 <= m <= j ==> ops[..i][m] == ops[m];
        assert LoadsAt(ops, j);
      }
    }
  }

  lemma {:induction false} OverrideState(ops: seq<Op>, phone: string)
    ensures Run(ops).loaded <==> exists j: nat :: LoadsAt(ops, j)
    ensures Run(ops).loaded ==> (phone in Run(ops).overrides <==> Listed(ops, phone))
  {
    if ops == [] {
      assert forall j: nat :: !LoadsAt(ops, j);
    } else {
      hide LoadsAt, Trim;
      var front, op := ops[..|ops| - 1], ops[|ops| - 1];
      assert ops == front + [op];
      OverrideState(front, phone);
      LoadsInFront(front, op);
      OutOfRange(ops);
      OutOfRange(front);
      if LoadsAt(ops, |front|) {
        assert IsLastLoad(ops, |front|);
        ListedFrom(ops, phone, |front|);
      } else if j: nat :| IsLastLoad(front, j) {
        assert LoadsAt(ops, j) && IsLastLoad(ops, j);
        ListedFrom(ops, phone, j);
        ListedFrom(front, phone, j);
        AddedStep(front, op, phone, j);
      } else {
        NoLastLoad(front);
      }
    }
  }

  lemma OutOfRange(ops: seq<Op>)
    ensures forall j: nat :: LoadsAt(ops, j) ==> j < |ops|
  {
  }

  lemma ListedFrom(ops: seq<Op>, phone: string, j: nat)
    requires IsLastLoad(ops, j)
    ensures LoadsAt(ops, j) && j < |ops| && (ops[j].Load? || ops[j].Check?)
    ensures Listed(ops, phone) <==> phone in ops[j].file || AddedAfter(ops, phone, j)
  {
    hide AddedAfter;
    assert forall k: nat :: IsLastLoad(ops, k) ==> k == j;
  }

  lemma AddedStep(front: seq<Op>, op: Op, phone: string, j: nat)
    requires j < |front|
    ensures (front + [op])[j] == front[j]
    ensures AddedAfter(front + [op], phone, j) <==> AddedAfter(front, phone, j) || op == Override(phone)
  {
    var ops := front + [op];
    if AddedAfter(front, phone, j) {
      var i :| j < i < |front| && front[i] == Override(phone);
      assert ops[i] == Override(phone);
    }
    if op == Override(phone) {
      assert ops[|front|] == Override(phone);
    }
    if AddedAfter(ops, phone, j) && op != Override(phone) {
      var i :| j < i < |ops| && ops[i] == Override(phone);
      assert front[i] == Override(phone);
    }
  }

  lemma {:induction false} NoLastLoad(ops: seq<Op>)
    requires forall j: nat :: !IsLastLoad(ops, j)
    ensures forall j: nat :: !LoadsAt(ops, j)
  {
    forall j: nat
      ensures !LoadsAt(ops, j)
    {
      LaterLoad(ops, j);
    }
  }

  lemma {:induction false} LaterLoad(ops: seq<Op>, j: nat)
    requires forall i: nat :: !IsLastLoad(ops, i)
    ensures !LoadsAt(ops, j)
    decreases |ops| - j
  {
    hide LoadsAt;
    if LoadsAt(ops, j) {
      assert !IsLastLoad(ops, j);
      var i: nat :| j < i < |ops| && LoadsAt(ops, i);
      LaterLoad(ops, i);
    }
  }

  /** A check is let through uncounted exactly if its phone is empty, is in the file that was read last, or
      was added after that reading. The check itself is part of the run: it reads the file if nothing has. */
  lemma {:induction false} OverrideTakesEffectIff(ops: seq<Op>, phone: string, now: real, file: set<string>)
    ensures Bypasses(ops, phone, file) <==> phone == "" || Listed(ops + [Check(phone, now, file)], phone)
  {
    hide LoadsAt;
    var check := Check(phone, now, file);
    RunStep(ops, check);
    OverrideState(ops + [check], phone);
    OverrideState(ops, phone);
  }

  lemma ThreeAtZero(lo: real)
    requires lo <= 0.0
    ensures CountIn([], lo, 0.0) == 0 && CountIn([0.0], lo, 0.0) == 1
    ensures CountIn([0.0, 0.0], lo, 0.0) == 2 && CountIn([0.0, 0.0, 0.0], lo, 0.0) == 3
  {
    assert [0.0][..0] == [] && [0.0, 0.0][..1] == [0.0] && [0.0, 0.0, 0.0][..2] == [0.0, 0.0];
  }

  /** A check at time zero that finds an empty override file. */
  function Ring(phone: string): Op {
    Check(phone, 0.0, {})
  }

  lemma RingChangesNothing(front: seq<Op>, phone: string)
    requires !Bypasses(front, phone, {})
    ensures !Bypasses(front + [Ring(phone)], phone, {})
  {
    RunStep(front, Ring(phone));
  }

  /** Three checks at time zero, by a phone that does not bypass and has no log yet: the next is rejected. */
  lemma ThreeRings(front: seq<Op>, phone: string)
    requires ClockNeverGoesBack(front) && NotBefore(front, 0.0)
    requires Log(front, phone) == [] && !Bypasses(front, phone, {})
    ensures var ops := front + [Ring(phone), Ring(phone), Ring(phone)];
            && Log(ops, phone) == [0.0, 0.0, 0.0] && !Bypasses(ops, phone, {})
            && ClockNeverGoesBack(ops) && AnswerTo(ops, Ring(phone)) == Allowed(false)
  {
    hide Log, Bypasses, CountIn, AnswerTo;
    var c := Ring(phone);
    var f1, f2, f3 := front + [c], front + [c, c], front + [c, c, c];
    assert f2 == f1 + [c] && f3 == f2 + [c];
    RingChangesNothing(front, phone);
    RingChangesNothing(f1, phone);
    RingChangesNothing(f2, phone);
    ThreeAtZero(0.0 - WINDOW);
    LogGrows(front, c, phone);
    assert Log(f1, phone) == [0.0];
    LogGrows(f1, c, phone);
    assert Log(f2, phone) == [0.0, 0.0];
    LogGrows(f2, c, phone);
    AnswersFollowTheFullLog(f3, phone, 0.0, {});
  }

  /** Loads and additions alone let no call through. */
  lemma {:induction false} NothingRung(ops: seq<Op>, phone: string)
    requires forall i :: 0 <= i < |ops| ==> ops[i].Load? || ops[i].Override?
    ensures Log(ops, phone) == []
  {
    if ops != [] {
      NothingRung(ops[..|ops| - 1], phone);
    }
  }

  /** A failing input: on a module that was never loaded, an override added first is dropped by the first
      check, and the fourth call is rejected. */
  lemma {:induction false} EarlyOverrideIsLost(phone: string)
    requires phone != ""
    ensures AnswerTo([Override(phone), Ring(phone), Ring(phone), Ring(phone)], Ring(phone)) == Allowed(false)
  {
    hide AnswerTo;
    var added := [Override(phone)];
    NothingRung(added, phone);
    RunStep([], Override(phone));
    assert [] + added == added;
    ThreeRings(added, phone);
    assert added + [Ring(phone), Ring(phone), Ring(phone)] == [Override(phone), Ring(phone), Ring(phone), Ring(phone)];
  }

  /** Another: on a running server an override holds, and a reload of the file drops it. */
  lemma {:induction false} ReloadDropsAnAddition(phone: string, other: string)
    requires phone != ""
    ensures Bypasses([Load({}), Ring(other), Override(phone)], phone, {})
    ensures AnswerTo([Load({}), Override(phone), Load({}), Ring(phone), Ring(phone), Ring(phone)], Ring(phone))
            == Allowed(false)
  {
    hide AnswerTo;
    assert LoadsAt([Load({}), Ring(other)], 0);
    AdditionsHoldUntilALoad([Load({}), Ring(other)], phone, [], {});
    assert [Load({}), Ring(other)] + [Override(phone)] + [] == [Load({}), Ring(other), Override(phone)];
    var reloaded := [Load({}), Override(phone), Load({})];
    NothingRung(reloaded, phone);
    RunStep([Load({}), Override(phone)], Load({}));
    assert [Load({}), Override(phone)] + [Load({})] == reloaded;
    ThreeRings(reloaded, phone);
    assert reloaded + [Ring(phone), Ring(phone), Ring(phone)]
        == [Load({}), Override(phone), Load({}), Ring(phone), Ring(phone), Ring(phone)];
  }

  /** Once a file has been read, as a server does on startup, an addition holds through any calls but a load. */
  lemma {:induction false} AdditionsHoldUntilALoad(ops: seq<Op>, phone: string, more: seq<Op>, file: set<string>)
    requires exists j: nat :: LoadsAt(ops, j)
    requires forall i :: 0 <= i < |more| ==> !more[i].Load?
    ensures Bypasses(ops + [Override(phone)] + more, phone, file)
    ensures Run(ops + [Override(phone)] + more).loaded && phone in Run(ops + [Override(phone)] + more).overrides
  {
    var added := ops + [Override(phone)];
    if more == [] {
      assert added + more == added;
      OverrideState(ops, phone);
      RunStep(ops, Override(phone));
    } else {
      hide Trim, LoadsAt;
      var front, op := more[..|more| - 1], more[|more| - 1];
      AdditionsHoldUntilALoad(ops, phone, front, file);
      assert added + more == added + front + [op];
      RunStep(added + front, op);
    }
  }

  // ----- Independence -----

  /** The run as far as one phone is concerned: its own checks and additions, and every reading of the file.
      A check by someone else that reads the file leaves just that reading. */
  function OwnOps(ops: seq<Op>, phone: string): seq<Op> {
    if ops == [] then []
    else
      var front, op := ops[..|ops| - 1], ops[|ops| - 1];
      OwnOps(front, phone) + OwnPart(op, Run(front).loaded, phone)
  }

  function OwnPart(op: Op, loaded: bool, phone: string): (part: seq<Op>)
    ensures |part| <= 1
  {
    if op.Load? || IsOwnCheck(op, phone) || op == Override(phone) then [op]
    else if op.Check? && !loaded then [Load(op.file)]
    else []
  }

  lemma {:induction false} OwnOpsKeepTheClock(ops: seq<Op>, phone: string, now: real)
    requires ClockNeverGoesBack(ops) && NotBefore(ops, now)
    ensures ClockNeverGoesBack(OwnOps(ops, phone)) && NotBefore(OwnOps(ops, phone), now)
  {
    hide Run;
    if ops != [] {
      var front, op := ops[..|ops| - 1], ops[|ops| - 1];
      OwnOpsKeepTheClock(front, phone, if Timed(op) then op.now else now);
    }
  }

  lemma OverridesStep(s: Limiter, op: Op, phone: string)
    ensures var t := StepOp(s, op).0;
            && (t.loaded <==> s.loaded || op.Load? || op.Check?)
            && (phone in t.overrides <==>
                  if op.Load? || (op.Check? && !s.loaded) then phone in op.file
                  else phone in s.overrides || op == Override(phone))
  {
    hide Trim;
  }

  predicate SameOverrides(s: Limiter, t: Limiter, phone: string) {
    s.loaded == t.loaded && (phone in s.overrides <==> phone in t.overrides)
  }

  lemma PartKeepsOverrides(s: Limiter, t: Limiter, op: Op, phone: string)
    requires SameOverrides(s, t, phone)
    ensures var part := OwnPart(op, s.loaded, phone);
            SameOverrides(StepOp(s, op).0, if part == [] then t else StepOp(t, part[0]).0, phone)
  {
    hide StepOp;
    var part := OwnPart(op, s.loaded, phone);
    OverridesStep(s, op, phone);
    if part != [] {
      OverridesStep(t, part[0], phone);
    }
  }

  lemma {:induction false} OwnOpsKeepOverrides(ops: seq<Op>, phone: string)
    ensures SameOverrides(Run(ops), Run(OwnOps(ops, phone)), phone)
  {
    if ops != [] {
      hide StepOp, SameOverrides, OwnPart;
      var front, op := ops[..|ops| - 1], ops[|ops| - 1];
      var own, part := OwnOps(front, phone), OwnPart(op, Run(front).loaded, phone);
      OwnOpsKeepOverrides(front, phone);
      PartKeepsOverrides(Run(front), Run(own), op, phone);
      if part == [] {
        assert own + part == own;
      } else {
        assert part == [part[0]];
        RunStep(own, part[0]);
      }
    }
  }

  lemma ClockInFront(ops: seq<Op>, now: real)
    requires ClockNeverGoesBack(ops) && NotBefore(ops, now) && ops != []
    ensures var front, op := ops[..|ops| - 1], ops[|ops| - 1];
            && ClockNeverGoesBack(front) && NotBefore(front, if Timed(op) then op.now else now)
            && (Timed(op) ==> op.now <= now)
  {
  }

  lemma {:induction false} OwnOpsKeepTheLog(ops: seq<Op>, phone: string, now: real)
    requires ClockNeverGoesBack(ops) && NotBefore(ops, now)
    ensures Log(OwnOps(ops, phone), phone) == Log(ops, phone)
  {
    if ops != [] {
      hide Log, Run, CountIn, ClockNeverGoesBack, AnswerTo;
      var front, op := ops[..|ops| - 1], ops[|ops| - 1];
      ClockInFront(ops, now);
      assert ops == front + [op];
      var own, log, latest := OwnOps(front, phone), Log(front, phone), if Timed(op) then op.now else now;
      OwnOpsKeepTheLog(front, phone, latest);
      OwnOpsKeepTheClock(front, phone, latest);
      OwnOpsKeepOverrides(front, phone);
      LogGrows(front, op, phone);
      LogGrows(own, op, phone);
      if op.Check? {
        LogGrows(own, Load(op.file), phone);
      }
      assert own + [] == own && log + [] == log;
    } else {
      assert OwnOps(ops, phone) == ops;
    }
  }

  /** Window counts, and other phones' checks and additions, never change an answer; all that matters of
      them is that somebody's check may read the file. */
  lemma {:induction false} OthersNeverMatter(ops: seq<Op>, phone: string, now: real, file: set<string>)
    requires ClockNeverGoesBack(ops) && NotBefore(ops, now)
    ensures AnswerTo(ops, Check(phone, now, file)) == AnswerTo(OwnOps(ops, phone), Check(phone, now, file))
    ensures AnswerTo(ops, Count(phone, now)) == AnswerTo(OwnOps(ops, phone), Count(phone, now))
  {
    hide AnswerTo, Log, Run;
    OwnOpsKeepTheLog(ops, phone, now);
    OwnOpsKeepTheClock(ops, phone, now);
    OwnOpsKeepOverrides(ops, phone);
    AnswersFollowTheFullLog(ops, phone, now, file);
    AnswersFollowTheFullLog(OwnOps(ops, phone), phone, now, file);
  }

  /** That reading does matter: whether another phone called earlier decides if an addition holds. */
  lemma {:induction false} OthersMatterForOverrides(phone: string, other: string)
    requires phone != "" && other != phone
    ensures Bypasses([Ring(other), Override(phone), Ring(phone)], phone, {})
    ensures !Bypasses([Override(phone), Ring(phone)], phone, {})
  {
    assert LoadsAt([Ring(other)], 0);
    AdditionsHoldUntilALoad([Ring(other)], phone, [Ring(phone)], {});
    assert [Ring(other)] + [Override(phone)] + [Ring(phone)] == [Ring(other), Override(phone), Ring(phone)];
    RunStep([], Override(phone));
    assert [] + [Override(phone)] == [Override(phone)];
    RingChangesNothing([Override(phone)], phone);
    assert [Override(phone)] + [Ring(phone)] == [Override(phone), Ring(phone)];
  }

  /** The clock assumption is needed: after a jump back a trimmed deque forgets calls of the window. */
  lemma {:induction false} ClockJumpsBreakTheLimit(phone: string)
    requires phone != ""
    ensures var c := Ring(phone);
            var ops := [c, c, c, Count(phone, 4000.0)];
            && AnswerTo(ops, c) == Allowed(true)
            && CountIn(Log(ops, phone), -WINDOW, 0.0) == LIMIT
  {
    hide Log, CountIn, Run, StepOp, Refines;
    var c, late := Ring(phone), Count(phone, 4000.0);
    var three, ops := [c, c, c], [c, c, c, late];
    NothingLogged(phone);
    ThreeRings([], phone);
    assert [] + three == three && ops == three + [late];
    var h := HistoryOf(Run(three).history, phone);
    DequeRefinesLog(three, phone, 4000.0);
    TrimCountsTheWindow(h, [0.0, 0.0, 0.0], 4000.0, 4000.0);
    ThreeAtZero(0.0 - WINDOW);
    LogStep(three, late, phone);
    assert Log(three, phone) + [] == [0.0, 0.0, 0.0];
    StepDeque(Run(three), late, phone);
    OverridesStep(Run(three), late, phone);
    StepDeque(Run(ops), c, phone);
  }

  lemma NothingLogged(phone: string)
    ensures Log([], phone) == []
    ensures phone != "" ==> !Bypasses([], phone, {})
    ensures CountIn([0.0, 0.0, 0.0], 400.0, 4000.0) == 0
  {
    assert Run([]) == INITIAL;
    assert [0.0][..0] == [] && [0.0, 0.0][..1] == [0.0] && [0.0, 0.0, 0.0][..2] == [0.0, 0.0];
  }
}
