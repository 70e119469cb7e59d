/** Fillers and backchannels that avoid repeating themselves: `get_filler` and `get_backchannel` in
    server/brain/audio_assets.py. Both run the same code over their own pool. */
module PhraseRotation {
  import opened Wrappers

  type Pcm = seq<bv8>

  const FILLER_WINDOW: nat := 5
  const BACKCHANNEL_WINDOW: nat := 2

  function Last(history: seq<string>, n: nat): seq<string> {
    if |history| <= n then history else history[|history| - n..]
  }

  function Elements(phrases: seq<string>): set<string> {
    set p | p in phrases
  }

  /** What random.choice draws from: the cached phrases not played lately, or all if there are none. */
  function Choices(cached: set<string>, history: seq<string>, window: nat): set<string> {
    var available := cached - Elements(Last(history, window));
    if available == {} then cached else available
  }

  /** The history keeps two entries more than the window looks at. */
  function Remember(history: seq<string>, phrase: string, window: nat): seq<string> {
    var longer := history + [phrase];
    if |longer| > window + 2 then longer[1..] else longer
  }

  // ----- Whole runs -----

  /** A phrase becomes available, or one is played. */
  datatype Event = Baked(phrase: string) | Played(phrase: string)

  datatype State = State(cached: set<string>, history: seq<string>)

  function After(cached: set<string>, events: seq<Event>, window: nat): State {
    if events == [] then State(cached, [])
    else
      var s, e := After(cached, events[..|events| - 1], window), events[|events| - 1];
      match e
      case Baked(p) => s.(cached := s.cached + {p})
      case Played(p) => s.(history := Remember(s.history, p, window))
  }

  /** Every phrase played was among the choices at that moment. */
  predicate Legal(cached: set<string>, events: seq<Event>, window: nat) {
    events == [] ||
    var s, e := After(cached, events[..|events| - 1], window), events[|events| - 1];
    && Legal(cached, events[..|events| - 1], window)
    && (e.Played? ==> e.phrase in Choices(s.cached, s.history, window))
  }

  function Log(events: seq<Event>): seq<string> {
    if events == [] then []
    else
      var e := events[|events| - 1];
      Log(events[..|events| - 1]) + if e.Played? then [e.phrase] else []
  }

  lemma EventStep(cached: set<string>, events: seq<Event>, e: Event, window: nat)
    ensures Log(events + [e]) == Log(events) + if e.Played? then [e.phrase] else []
    ensures var s := After(cached, events, window);
            && After(cached, events + [e], window) ==
                 (match e
                  case Baked(p) => s.(cached := s.cached + {p})
                  case Played(p) => s.(history := Remember(s.history, p, window)))
            && (Legal(cached, events + [e], window) <==>
                  Legal(cached, events, window) && (e.Played? ==> e.phrase in Choices(s.cached, s.history, window)))
  {
    assert (events + [e])[..|events|] == events;
  }

  // ----- The pool as an object -----

  class PhrasePool {
    const enabled: bool
    const window: nat
    var cache: map<string, Pcm>
    var history: seq<string>
    /** Everything that ever happened to the pool; nothing is popped from it. */
    ghost var events: seq<Event>

    /** The events are a legal run from an empty pool, and the object is where they lead. */
    ghost predicate Valid()
      reads this
    {
      && Legal({}, events, window) && After({}, events, window) == State(cache.Keys, history)
      && forall p :: p in cache ==> cache[p] != []
    }

    constructor (enabled: bool, window: nat)
      ensures Valid() && cache == map[] && events == [] && this.enabled == enabled && this.window == window
    {
      this.enabled, this.window := enabled, window;
      cache, history, events := map[], [], [];
    }

    /** Stores one synthesised phrase; a failed or empty synthesis stores nothing. */
    method Prebake(phrase: string, pcm: Option<Pcm>)
      requires Valid()
      modifies this`cache, this`events
      ensures Valid()
      ensures cache == if pcm.Some? && pcm.value != [] then old(cache)[phrase := pcm.value] else old(cache)
      ensures events == old(events) + if pcm.Some? && pcm.value != [] then [Baked(phrase)] else []
    {
      if pcm.Some? && pcm.value != [] {
        EventStep({}, events, Baked(phrase), window);
        cache := cache[phrase := pcm.value];
        events := events + [Baked(phrase)];
      }
    }

    /** Plays a phrase that the whole log allows, although only the trimmed history is consulted. */
    method Get() returns (pcm: Option<Pcm>)
      requires Valid()
      modifies this`history, this`events
      ensures Valid()
      ensures pcm.Some? <==> enabled && cache != map[]
      ensures pcm.None? ==> events == old(events)
      ensures pcm.Some? ==>
                exists phrase :: phrase in Choices(cache.Keys, Log(old(events)), window)
                  && events == old(events) + [Played(phrase)] && pcm.value == cache[phrase] && pcm.value != []
    {
      hide Legal, After, Log;
      if !enabled || cache == map[] {
        return None;
      }
      var available := set p | p in cache && p !in Last(history, window);
      assert available == cache.Keys - Elements(Last(history, window));
      if available == {} {
        available := cache.Keys;
        assert exists p :: p in cache;
      }
      HistoryIsTheSuffix({}, events, window);
      TrimmedHistorySuffices(cache.Keys, Log(events), window);
      var phrase :| phrase in available;
      EventStep({}, events, Played(phrase), window);
      history := history + [phrase];
      if |history| > window + 2 {
        history := history[1..];
      }
      events := events + [Played(phrase)];
      return Some(cache[phrase]);
    }
  }

  /** The popped history and the full log offer the same choices. */
  lemma TrimmedHistorySuffices(cached: set<string>, log: seq<string>, window: nat)
    ensures Last(Last(log, window + 2), window) == Last(log, window)
    ensures Choices(cached, Last(log, window + 2), window) == Choices(cached, log, window)
  {
    assert Last(Last(log, window + 2), window) == Last(log, window);
  }

  lemma RememberKeepsTheSuffix(log: seq<string>, window: nat, longer: seq<string>)
    requires |longer| == |log| + 1 && longer[..|log|] == log
    ensures Remember(Last(log, window + 2), longer[|log|], window) == Last(longer, window + 2)
  {
    assert longer == log + [longer[|log|]];
  }

  /** Over every run the popped history is the end of the log. */
  lemma {:induction false} HistoryIsTheSuffix(cached: set<string>, events: seq<Event>, window: nat)
    ensures After(cached, events, window).history == Last(Log(events), window + 2)
  {
    if events != [] {
      var before, e := events[..|events| - 1], events[|events| - 1];
      HistoryIsTheSuffix(cached, before, window);
      if e.Played? {
        RememberKeepsTheSuffix(Log(before), window, Log(events));
      }
    }
  }
}

/** What callers hear over whole runs. */
module PhraseRotationRuns {
  import opened PhraseRotation

  lemma {:induction false} FewElements(phrases: seq<string>)
    ensures |Elements(phrases)| <= |phrases|
  {
    if phrases != [] {
      FewElements(phrases[1..]);
      assert Elements(phrases) == {phrases[0]} + Elements(phrases[1..]);
    } else {
      assert Elements(phrases) == {};
    }
  }

  lemma SmallerSetLeavesSome(big: set<string>, small: set<string>)
    requires |big| > |small|
    ensures big - small != {}
  {
    if big <= small {
      Subset(big, small);
    } else {
      var x :| x in big && x !in small;
      assert x in big - small;
    }
  }

  lemma {:induction false} Subset(a: set<string>, b: set<string>)
    requires a <= b
    ensures |a| <= |b|
  {
    if a != {} {
      var x :| x in a;
      Subset(a - {x}, b - {x});
    }
  }

  /** With more phrases than the window looks at, the choice is always a phrase not in the window. */
  lemma LargePoolsNeverRepeat(cached: set<string>, log: seq<string>, window: nat)
    requires |cached| > window
    ensures Choices(cached, log, window) == cached - Elements(Last(log, window))
  {
    FewElements(Last(log, window));
    SmallerSetLeavesSome(cached, Elements(Last(log, window)));
  }

  lemma {:induction false} CacheGrows(cached: set<string>, events: seq<Event>, n: nat, window: nat)
    requires n <= |events|
    ensures After(cached, events[..n], window).cached <= After(cached, events, window).cached
    ensures |Log(events[..n])| <= |Log(events)| && Log(events)[..|Log(events[..n])|] == Log(events[..n])
  {
    if n == |events| {
      assert events[..n] == events;
    } else {
      var before := events[..|events| - 1];
      assert before[..n] == events[..n];
      CacheGrows(cached, before, n, window);
    }
  }

  // ----- Main results -----

  /** Once more than `window` phrases are cached, every phrase played from then on differs from the
      `window` phrases before it, whatever the random choices: any window + 1 in a row are distinct. */
  lemma {:induction false} NoRepeatWithinTheWindow(cached: set<string>, events: seq<Event>, n: nat, window: nat,
                                                   i: nat, j: nat)
    requires Legal(cached, events, window)
    requires n <= |events| && |After(cached, events[..n], window).cached| > window
    requires |Log(events[..n])| <= j && i < j <= i + window && j < |Log(events)|
    ensures Log(events)[i] != Log(events)[j]
  {
    if events[..n] != events {
      var before, e := events[..|events| - 1], events[|events| - 1];
      assert before[..n] == events[..n];
      if j < |Log(before)| {
        NoRepeatWithinTheWindow(cached, before, n, window, i, j);
      } else {
        var s := After(cached, before, window);
        CacheGrows(cached, before, n, window);
        Subset(After(cached, before[..n], window).cached, s.cached);
        HistoryIsTheSuffix(cached, before, window);
        TrimmedHistorySuffices(s.cached, Log(before), window);
        LargePoolsNeverRepeat(s.cached, Log(before), window);
        RecentIsRecent(Log(before), window, i);
      }
    }
  }

  /** So the pool object never repeats itself within the window, once it has cached more than that. */
  lemma TrackedPool(pool: PhrasePool, n: nat, i: nat, j: nat)
    requires pool.Valid() && n <= |pool.events| && |After({}, pool.events[..n], pool.window).cached| > pool.window
    requires |Log(pool.events[..n])| <= j && i < j <= i + pool.window && j < |Log(pool.events)|
    ensures Log(pool.events)[i] != Log(pool.events)[j]
  {
    NoRepeatWithinTheWindow({}, pool.events, n, pool.window, i, j);
  }

  lemma RecentIsRecent(log: seq<string>, window: nat, i: nat)
    requires i < |log| <= i + window
    ensures log[i] in Elements(Last(log, window))
  {
    var recent := Last(log, window);
    assert recent[i - (|log| - |recent|)] == log[i];
  }

  /** Exactly the cached phrases may come next that were not among the last `window`; if all cached ones were, all
      of them may. */
  lemma RepeatsOnlyWhenExhausted(cached: set<string>, log: seq<string>, window: nat, p: string)
    ensures p in Choices(cached, log, window) <==>
              p in cached && (!IsRecent(log, window, p) || forall q :: q in cached ==> IsRecent(log, window, q))
  {
    var recent := Last(log, window);
    forall q
      ensures q in Elements(recent) <==> IsRecent(log, window, q)
    {
      if q in recent {
        var i: nat :| i < |recent| && recent[i] == q;
        assert log[|log| - |recent| + i] == q;
      }
      if IsRecent(log, window, q) {
        var i :| |log| - window <= i < |log| && 0 <= i && log[i] == q;
        assert recent[i - (|log| - |recent|)] == q;
      }
    }
    if x :| x in cached && !IsRecent(log, window, x) {
      assert x in cached - Elements(recent);
    } else {
      assert cached - Elements(recent) == {};
    }
  }

  /** Played among the last `window`. */
  predicate IsRecent(log: seq<string>, window: nat, p: string) {
    exists i :: |log| - window <= i < |log| && 0 <= i && log[i] == p
  }

  predicate Distinct(phrases: seq<string>) {
    forall i: nat, j: nat :: i < j < |phrases| ==> phrases[i] != phrases[j]
  }

  lemma {:induction false} DistinctElements(phrases: seq<string>)
    requires Distinct(phrases)
    ensures |Elements(phrases)| == |phrases|
  {
    if phrases != [] {
      var rest := phrases[1..];
      assert Distinct(rest) by {
        forall i: nat, j: nat | i < j < |rest| ensures rest[i] != rest[j] {
          assert rest[i] == phrases[i + 1] && rest[j] == phrases[j + 1];
        }
      }
      DistinctElements(rest);
      assert Elements(phrases) == {phrases[0]} + Elements(rest);
    } else {
      assert Elements(phrases) == {};
    }
  }

  lemma {:induction false} PlayedPhrasesAreCached(cached: set<string>, events: seq<Event>, window: nat)
    requires Legal(cached, events, window)
    ensures Elements(Log(events)) <= After(cached, events, window).cached
  {
    if events != [] {
      PlayedPhrasesAreCached(cached, events[..|events| - 1], window);
    }
  }

  /** So with a pool of any size the last window + 1 phrases of a run are distinct exactly when the pool
      is larger than the window: a smaller one repeats itself, by counting. */
  lemma DistinctExactlyWhenThePoolIsLarger(cached: set<string>, events: seq<Event>, n: nat, window: nat)
    requires Legal(cached, events, window) && n <= |events|
    requires After(cached, events[..n], window).cached == After(cached, events, window).cached
    requires |Log(events)| == |Log(events[..n])| + window + 1
    ensures Distinct(Last(Log(events), window + 1)) <==> |After(cached, events, window).cached| > window
  {
    hide Legal, After, Log;
    var log, pool := Log(events), After(cached, events, window).cached;
    var tail := Last(log, window + 1);
    var start: nat := |log| - window - 1;
    if |pool| > window {
      forall i: nat, j: nat | i < j < |tail| ensures tail[i] != tail[j] {
        NoRepeatWithinTheWindow(cached, events, n, window, start + i, start + j);
      }
    } else if Distinct(tail) {
      PlayedPhrasesAreCached(cached, events, window);
      DistinctElements(tail);
      Subset(Elements(tail), pool);
    }
  }

  function Plays(phrases: seq<string>): seq<Event> {
    seq(|phrases|, i requires 0 <= i < |phrases| => Played(phrases[i]))
  }

  lemma PrefixIsDistinct(phrases: seq<string>)
    requires phrases != [] && Distinct(phrases)
    ensures Distinct(phrases[..|phrases| - 1]) && Elements(phrases[..|phrases| - 1]) <= Elements(phrases)
  {
    var before := phrases[..|phrases| - 1];
    forall i: nat, j: nat | i < j < |before| ensures before[i] != before[j] {
      assert before[i] == phrases[i] && before[j] == phrases[j];
    }
  }

  lemma NewPhraseIsAChoice(cached: set<string>, phrases: seq<string>, window: nat)
    requires phrases != [] && Distinct(phrases) && Elements(phrases) <= cached
    ensures phrases[|phrases| - 1] in Choices(cached, phrases[..|phrases| - 1], window)
  {
    var before, p := phrases[..|phrases| - 1], phrases[|phrases| - 1];
    assert p in Elements(phrases);
    var recent := Last(before, window);
    forall k | 0 <= k < |recent| ensures recent[k] != p {
      assert recent[k] == phrases[|before| - |recent| + k];
    }
    assert p in cached - Elements(recent);
  }

  /** Playing distinct cached phrases one after the other is always possible. */
  lemma {:induction false} DistinctPlaysAreLegal(cached: set<string>, phrases: seq<string>, window: nat)
    requires Distinct(phrases) && Elements(phrases) <= cached
    ensures Legal(cached, Plays(phrases), window) && Log(Plays(phrases)) == phrases
    ensures After(cached, Plays(phrases), window).cached == cached
  {
    hide Choices, Remember, Elements, Last;
    if phrases != [] {
      var before, p := phrases[..|phrases| - 1], phrases[|phrases| - 1];
      var events := Plays(phrases);
      assert events[..|events| - 1] == Plays(before) && events[|events| - 1] == Played(p);
      PrefixIsDistinct(phrases);
      DistinctPlaysAreLegal(cached, before, window);
      HistoryIsTheSuffix(cached, Plays(before), window);
      TrimmedHistorySuffices(cached, before, window);
      NewPhraseIsAChoice(cached, phrases, window);
      assert phrases == before + [p];
    } else {
      assert Plays(phrases) == [];
    }
  }

  lemma {:induction false} Enumerate(cached: set<string>) returns (phrases: seq<string>)
    ensures Distinct(phrases) && Elements(phrases) == cached && |phrases| == |cached|
  {
    if cached == {} {
      phrases := [];
      assert Elements(phrases) == {};
    } else {
      var p :| p in cached;
      var rest := Enumerate(cached - {p});
      phrases := rest + [p];
      assert Elements(phrases) == Elements(rest) + {p};
      assert forall i: nat :: i < |rest| ==> rest[i] in Elements(rest);
    }
  }

  /** A pool no larger than the window can even play the same phrase twice in a row. */
  lemma SmallPoolsMayStutter(cached: set<string>, window: nat) returns (events: seq<Event>)
    requires 0 < |cached| <= window
    ensures Legal(cached, events, window) && |Log(events)| >= 2
    ensures Log(events)[|Log(events)| - 1] == Log(events)[|Log(events)| - 2]
  {
    var phrases := Enumerate(cached);
    DistinctPlaysAreLegal(cached, phrases, window);
    var before, p := Plays(phrases), phrases[|phrases| - 1];
    events := before + [Played(p)];
    assert events[..|events| - 1] == before;
    HistoryIsTheSuffix(cached, before, window);
    TrimmedHistorySuffices(cached, phrases, window);
    assert Last(phrases, window) == phrases;
    assert p in cached by {
      assert p in Elements(phrases);
    }
  }
}
