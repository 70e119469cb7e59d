/** The silence timer of server/main.py: one reprompt, then one hangup, cancelled by speech. */
module SilenceReprompt {
  import opened Wrappers

  const REPROMPT_AFTER: real := 12.0
  const HANGUP_AFTER: real := 8.0

  /** What reaches the processor: frames, its cleanup, and the event loop resuming one of the tasks
      the processor has ever started. `t` is the loop's clock. */
  datatype Event =
    | BotStopped(t: real)
    | CallerActive(t: real)
    | EndFrame(t: real)
    | OtherFrame(t: real)
    | Cleanup(t: real)
    | Resume(task: nat, t: real)

  datatype Emission = Reprompt | Hangup

  /** Where a timer task stands. A sleeping task may be resumed at any time from `due` on. */
  datatype Task = Sleeping(due: real) | Warned(due: real) | Finished | Cancelled

  datatype State = State(tasks: seq<Task>, timer: Option<nat>, reprompted: bool)

  predicate Live(task: Task) {
    task.Sleeping? || task.Warned?
  }

  function CancelTimer(s: State): State {
    if s.timer.Some? && s.timer.value < |s.tasks| && Live(s.tasks[s.timer.value])
    then s.(tasks := s.tasks[s.timer.value := Cancelled], timer := None)
    else s.(timer := None)
  }

  function StepEvent(s: State, e: Event): (State, Option<Emission>) {
    match e
    case BotStopped(t) =>
      var c := CancelTimer(s);
      (State(c.tasks + [Sleeping(t + REPROMPT_AFTER)], Some(|c.tasks|), false), None)
    case CallerActive(t) => (CancelTimer(s).(reprompted := false), None)
    case EndFrame(t) => (CancelTimer(s), None)
    case Cleanup(t) => (CancelTimer(s), None)
    case OtherFrame(t) => (s, None)
    case Resume(i, t) =>
      if i < |s.tasks| && s.tasks[i].Sleeping? && s.tasks[i].due <= t then
        (s.(tasks := s.tasks[i := Warned(t + HANGUP_AFTER)], reprompted := true), Some(Reprompt))
      else if i < |s.tasks| && s.tasks[i].Warned? && s.tasks[i].due <= t then
        (s.(tasks := s.tasks[i := Finished]), Some(Hangup))
      else (s, None)
  }

  class SilenceTimer {
    /** All tasks ever started; the event loop may resume any of them. */
    var tasks: seq<Task>
    var timerTask: Option<nat>
    var reprompted: bool

    function Value(): State
      reads this
    {
      State(tasks, timerTask, reprompted)
    }

    constructor ()
      ensures Value() == State([], None, false)
    {
      tasks, timerTask, reprompted := [], None, false;
    }

    method CancelTimerTask()
      modifies this
      ensures Value() == CancelTimer(old(Value()))
    {
      if timerTask.Some? && timerTask.value < |tasks| && Live(tasks[timerTask.value]) {
        tasks := tasks[timerTask.value := Cancelled];
      }
      timerTask := None;
    }

    method ProcessFrame(e: Event)
      requires !e.Resume?
      modifies this
      ensures (Value(), None) == StepEvent(old(Value()), e)
    {
      match e {
        case BotStopped(t) =>
          reprompted := false;
          CancelTimerTask();
          tasks := tasks + [Sleeping(t + REPROMPT_AFTER)];
          timerTask := Some(|tasks| - 1);
        case CallerActive(t) =>
          reprompted := false;
          CancelTimerTask();
        case EndFrame(t) =>
          CancelTimerTask();
        case Cleanup(t) =>
          CancelTimerTask();
        case OtherFrame(t) =>
      }
    }

    /** One resumption of the coroutine behind a task. */
    method ResumeTask(i: nat, t: real) returns (pushed: Option<Emission>)
      modifies this
      ensures (Value(), pushed) == StepEvent(old(Value()), Resume(i, t))
    {
      if i < |tasks| && tasks[i].Sleeping? && tasks[i].due <= t {
        reprompted := true;
        tasks := tasks[i := Warned(t + HANGUP_AFTER)];
        return Some(Reprompt);
      }
      if i < |tasks| && tasks[i].Warned? && tasks[i].due <= t {
        tasks := tasks[i := Finished];
        return Some(Hangup);
      }
      return None;
    }
  }
}

/** What every schedule of frames and resumptions can lead to. */
module SilenceRuns {
  import opened Wrappers
  import opened SilenceReprompt

  function After(es: seq<Event>): State {
    if es == [] then State([], None, false) else StepEvent(After(es[..|es| - 1]), es[|es| - 1]).0
  }

  /** What the event at `k` makes the processor push on its own account. */
  function EmissionAt(es: seq<Event>, k: nat): Option<Emission>
    requires k < |es|
  {
    StepEvent(After(es[..k]), es[k]).1
  }

  /** Frames that stop or restart the clock. */
  predicate Resets(e: Event) {
    e.BotStopped? || e.CallerActive? || e.EndFrame? || e.Cleanup?
  }

  function Bots(es: seq<Event>): nat {
    if es == [] then 0 else Bots(es[..|es| - 1]) + if es[|es| - 1].BotStopped? then 1 else 0
  }

  /** The state of silence as a reader of the history sees it: positions in the history, no tasks. */
  datatype Silence =
    | Idle
    | Waiting(since: nat)
    | Reprompted(since: nat, at: nat)
    | HungUp(since: nat, at: nat, end: nat)

  predicate Within(w: Silence, n: nat) {
    && (!w.Idle? ==> w.since < n)
    && (w.Reprompted? || w.HungUp? ==> w.since < w.at < n)
    && (w.HungUp? ==> w.at < w.end < n)
  }

  function NextSilence(w: Silence, front: seq<Event>, e: Event): (w': Silence)
    requires Within(w, |front|)
    ensures Within(w', |front| + 1)
  {
    var last := |front|;
    match e
    case BotStopped(_) => Waiting(last)
    case CallerActive(_) => Idle
    case EndFrame(_) => Idle
    case Cleanup(_) => Idle
    case OtherFrame(_) => w
    case Resume(i, t) =>
      if i + 1 != Bots(front) then w
      else if w.Waiting? && front[w.since].t + REPROMPT_AFTER <= t then Reprompted(w.since, last)
      else if w.Reprompted? && front[w.at].t + HANGUP_AFTER <= t then HungUp(w.since, w.at, last)
      else w
  }

  function SilenceOf(es: seq<Event>): (w: Silence)
    ensures Within(w, |es|)
  {
    if es == [] then Idle else NextSilence(SilenceOf(es[..|es| - 1]), es[..|es| - 1], es[|es| - 1])
  }

  /** All tasks but the newest are dead, and the newest is what the history says. */
  predicate Refines(s: State, es: seq<Event>, w: Silence)
    requires Within(w, |es|)
  {
    var n := |s.tasks|;
    && n == Bots(es)
    && (forall i :: 0 <= i < n - 1 ==> !Live(s.tasks[i]))
    && (s.timer.Some? ==> s.timer.value == n - 1)
    && match w
       case Idle => s.timer.None? && (n > 0 ==> !Live(s.tasks[n - 1]))
       case Waiting(j) => n > 0 && s.timer.Some? && s.tasks[n - 1] == Sleeping(es[j].t + REPROMPT_AFTER)
       case Reprompted(_, r) => n > 0 && s.timer.Some? && s.tasks[n - 1] == Warned(es[r].t + HANGUP_AFTER)
       case HungUp(_, _, _) => n > 0 && s.timer.Some? && s.tasks[n - 1] == Finished
  }

  /** The emission that a change of the silence state stands for. */
  function Spoken(w: Silence, w': Silence): Option<Emission> {
    if w.Waiting? && w'.Reprompted? then Some(Reprompt)
    else if w.Reprompted? && w'.HungUp? then Some(Hangup)
    else None
  }

  lemma FrameRefines(s: State, front: seq<Event>, w: Silence, e: Event)
    requires Within(w, |front|) && Refines(s, front, w) && !e.Resume?
    ensures Refines(StepEvent(s, e).0, front + [e], NextSilence(w, front, e))
    ensures StepEvent(s, e).1 == None
  {
    assert (front + [e])[..|front|] == front;
  }

  lemma ResumeRefines(s: State, front: seq<Event>, w: Silence, i: nat, t: real)
    requires Within(w, |front|) && Refines(s, front, w)
    ensures Refines(StepEvent(s, Resume(i, t)).0, front + [Resume(i, t)], NextSilence(w, front, Resume(i, t)))
    ensures StepEvent(s, Resume(i, t)).1 == Spoken(w, NextSilence(w, front, Resume(i, t)))
  {
    assert (front + [Resume(i, t)])[..|front|] == front;
  }

  lemma {:induction false} TasksRefineHistory(es: seq<Event>)
    ensures Refines(After(es), es, SilenceOf(es))
    ensures es != [] ==> EmissionAt(es, |es| - 1) == Spoken(SilenceOf(es[..|es| - 1]), SilenceOf(es))
  {
    if es != [] {
      hide StepEvent, Refines, NextSilence, After, EmissionAt, Spoken;
      var front, e := es[..|es| - 1], es[|es| - 1];
      assert es == front + [e];
      AfterAll(es);
      TasksRefineHistory(front);
      if e.Resume? {
        ResumeRefines(After(front), front, SilenceOf(front), e.task, e.t);
      } else {
        FrameRefines(After(front), front, SilenceOf(front), e);
        FramesDoNotSpeak(SilenceOf(front), front, e);
      }
    } else {
      assert Bots(es) == 0;
    }
  }

  lemma FramesDoNotSpeak(w: Silence, front: seq<Event>, e: Event)
    requires Within(w, |front|) && !e.Resume?
    ensures Spoken(w, NextSilence(w, front, e)) == None
  {
  }

  lemma EmissionInPrefix(es: seq<Event>, n: nat, k: nat)
    requires k < n <= |es|
    ensures EmissionAt(es[..n], k) == EmissionAt(es, k)
  {
    assert es[..n][..k] == es[..k];
  }

  /** What the history contains whenever it speaks of silence. */
  predicate Witnessed(es: seq<Event>, w: Silence)
    requires Within(w, |es|)
  {
    && (!w.Idle? ==> es[w.since].BotStopped? && forall i :: w.since < i < |es| ==> !Resets(es[i]))
    && (w.Reprompted? || w.HungUp? ==>
          EmissionAt(es, w.at) == Some(Reprompt) && es[w.since].t + REPROMPT_AFTER <= es[w.at].t)
    && (w.HungUp? ==> EmissionAt(es, w.end) == Some(Hangup) && es[w.at].t + HANGUP_AFTER <= es[w.end].t)
    && (forall k :: 0 <= k < |es| && !w.Idle? && w.since < k ==>
          EmissionAt(es, k).None? || ((w.Reprompted? || w.HungUp?) && k == w.at) || (w.HungUp? && k == w.end))
  }

  lemma WitnessedStep(es: seq<Event>, w: Silence)
    requires es != [] && Within(w, |es| - 1) && Witnessed(es[..|es| - 1], w)
    requires forall k :: 0 <= k < |es| - 1 ==> EmissionAt(es[..|es| - 1], k) == EmissionAt(es, k)
    requires EmissionAt(es, |es| - 1) == Spoken(w, NextSilence(w, es[..|es| - 1], es[|es| - 1]))
    ensures Witnessed(es, NextSilence(w, es[..|es| - 1], es[|es| - 1]))
  {
    hide EmissionAt, Bots;
  }

  lemma {:induction false} SilenceIsWitnessed(es: seq<Event>)
    ensures Witnessed(es, SilenceOf(es))
  {
    if es != [] {
      hide EmissionAt, Witnessed, NextSilence;
      var last := |es| - 1;
      SilenceIsWitnessed(es[..last]);
      TasksRefineHistory(es);
      forall k | 0 <= k < last
        ensures EmissionAt(es[..last], k) == EmissionAt(es, k)
      {
        EmissionInPrefix(es, last, k);
      }
      WitnessedStep(es, SilenceOf(es[..last]));
    }
  }

  // ----- Main results -----

  /** There is never more than one live timer, and it is the one the processor can cancel. */
  lemma {:induction false} AtMostOneLiveTimer(es: seq<Event>)
    ensures forall i :: 0 <= i < |After(es).tasks| && Live(After(es).tasks[i]) ==> After(es).timer == Some(i)
  {
    TasksRefineHistory(es);
  }

  /** A reprompt comes at least 12 s after the latest time the bot stopped, with no caller, bot or end
      activity and no other emission in between. */
  lemma {:induction false} RepromptMeansSilence(es: seq<Event>, k: nat)
    requires k < |es| && EmissionAt(es, k) == Some(Reprompt)
    ensures exists j :: 0 <= j < k && es[j].BotStopped? && es[j].t + 12.0 <= es[k].t
              && (forall i :: j < i <= k ==> !Resets(es[i])) && (forall i :: j < i < k ==> EmissionAt(es, i).None?)
  {
    hide EmissionAt, SilenceOf;
    var now := es[..k + 1];
    assert now[..k] == es[..k];
    EmissionInPrefix(es, k + 1, k);
    TasksRefineHistory(now);
    SilenceIsWitnessed(now);
    var j := SilenceOf(now).since;
    forall i | 0 <= i < k
      ensures EmissionAt(now, i) == EmissionAt(es, i)
    {
      EmissionInPrefix(es, k + 1, i);
    }
    assert es[j] == now[j] && es[k] == now[k];
    assert forall i :: j < i <= k ==> es[i] == now[i];
  }

  /** A hangup comes at least 8 s after the processor's own reprompt and so at least 20 s after the bot
      last stopped, with nobody having been active since. */
  lemma {:induction false} HangupMeansLongSilence(es: seq<Event>, k: nat)
    requires k < |es| && EmissionAt(es, k) == Some(Hangup)
    ensures exists j, r :: 0 <= j < r < k && es[j].BotStopped? && EmissionAt(es, r) == Some(Reprompt)
              && es[r].t + 8.0 <= es[k].t && es[j].t + 20.0 <= es[k].t
              && (forall i :: j < i <= k ==> !Resets(es[i]))
  {
    hide EmissionAt, SilenceOf;
    var now := es[..k + 1];
    assert now[..k] == es[..k];
    EmissionInPrefix(es, k + 1, k);
    TasksRefineHistory(now);
    SilenceIsWitnessed(now);
    var w := SilenceOf(now);
    EmissionInPrefix(es, k + 1, w.at);
    assert es[w.since] == now[w.since] && es[w.at] == now[w.at] && es[k] == now[k];
    assert forall i :: w.since < i <= k ==> es[i] == now[i];
  }

  /** Two reprompts, or two hangups, are separated by a fresh BotStopped: each one causes at most one of either. */
  lemma {:induction false} OncePerBotStop(es: seq<Event>, k: nat, l: nat)
    requires k < l < |es| && EmissionAt(es, k).Some? && EmissionAt(es, k) == EmissionAt(es, l)
    ensures exists j :: k < j < l && es[j].BotStopped?
  {
    hide EmissionAt, SilenceOf;
    var now := es[..l + 1];
    assert now[..l] == es[..l];
    EmissionInPrefix(es, l + 1, l);
    EmissionInPrefix(es, l + 1, k);
    TasksRefineHistory(now);
    SilenceIsWitnessed(now);
    var j := SilenceOf(now).since;
    assert es[j] == now[j] && es[k] == now[k];
    if j <= k {
      if j == k {
        OnlyResumptionsEmit(es, k);
      }
      assert false;
    }
  }

  lemma OnlyResumptionsEmit(es: seq<Event>, k: nat)
    requires k < |es| && EmissionAt(es, k).Some?
    ensures es[k].Resume?
  {
  }

  /** When a resumption speaks: exactly the newest task's, exactly when it is due, and in this order. */
  lemma {:induction false} ResumptionSpeaksIff(es: seq<Event>, i: nat, t: real)
    ensures var w := SilenceOf(es);
            var said := StepEvent(After(es), Resume(i, t)).1;
            && (said == Some(Reprompt) <==> i + 1 == Bots(es) && w.Waiting? && es[w.since].t + 12.0 <= t)
            && (said == Some(Hangup) <==> i + 1 == Bots(es) && w.Reprompted? && es[w.at].t + 8.0 <= t)
  {
    TasksRefineHistory(es);
  }

  /** The processor's own flag: it is up exactly while a reprompt has been made that neither a bot stop nor the caller
      has answered. The end of the call and the cleanup leave it as it is. */
  lemma {:induction false} FlagMeansUnansweredReprompt(es: seq<Event>)
    ensures After(es).reprompted <==> exists k :: 0 <= k < |es| && IsUnanswered(es, k)
  {
    if es != [] {
      hide StepEvent, IsUnanswered, After, EmissionAt;
      var front, e := es[..|es| - 1], es[|es| - 1];
      FlagMeansUnansweredReprompt(front);
      FlagStep(After(front), e);
      AfterAll(es);
      forall k | 0 <= k < |front|
        ensures IsUnanswered(es, k) <==> IsUnanswered(front, k) && !e.BotStopped? && !e.CallerActive?
      {
        UnansweredInFront(es, k);
      }
      LastIsUnanswered(es);
    }
  }

  lemma AfterAll(es: seq<Event>)
    requires es != []
    ensures var (s, said) := StepEvent(After(es[..|es| - 1]), es[|es| - 1]);
            After(es) == s && EmissionAt(es, |es| - 1) == said
  {
  }

  lemma UnansweredInFront(es: seq<Event>, k: nat)
    requires k < |es| - 1
    ensures var front, e := es[..|es| - 1], es[|es| - 1];
            IsUnanswered(es, k) <==> IsUnanswered(front, k) && !e.BotStopped? && !e.CallerActive?
  {
    hide EmissionAt;
    EmissionInPrefix(es, |es| - 1, k);
    assert forall i :: k < i < |es| - 1 ==> es[i] == es[..|es| - 1][i];
  }

  lemma LastIsUnanswered(es: seq<Event>)
    requires es != []
    ensures IsUnanswered(es, |es| - 1) <==> EmissionAt(es, |es| - 1) == Some(Reprompt)
  {
  }

  /** Tasks that are over stay as they ended, and resetting frames cancel the timer's task if it is still alive. */
  lemma {:induction false} EndedTasksStay(s: State, e: Event, i: nat)
    requires i < |s.tasks|
    ensures i < |StepEvent(s, e).0.tasks|
    ensures s.tasks[i] == Finished || s.tasks[i] == Cancelled ==> StepEvent(s, e).0.tasks[i] == s.tasks[i]
    ensures Resets(e) && s.timer == Some(i) && (s.tasks[i].Sleeping? || s.tasks[i].Warned?) ==>
              StepEvent(s, e).0.tasks[i] == Cancelled
    ensures Resets(e) && s.timer != Some(i) ==> StepEvent(s, e).0.tasks[i] == s.tasks[i]
  {
  }

  predicate IsUnanswered(es: seq<Event>, k: nat)
    requires k < |es|
  {
    EmissionAt(es, k) == Some(Reprompt) && forall i :: k < i < |es| ==> !es[i].BotStopped? && !es[i].CallerActive?
  }

  lemma FlagStep(s: State, e: Event)
    ensures var (t, said) := StepEvent(s, e);
            t.reprompted <==> said == Some(Reprompt) || (s.reprompted && !e.BotStopped? && !e.CallerActive?)
  {
  }
}
