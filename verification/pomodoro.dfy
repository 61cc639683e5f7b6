/**
 * The Pomodoro countdown widget (src/components/PomodoroTimer.tsx).
 *
 * The widget's state is a five-field record.  Each event handler is given here
 * twice: as a pure step function on `TimerState` (the specification, about
 * which the lemmas below are proved) and as a method of the class `Timer`,
 * which updates the five fields in place and is proved to agree with its step
 * function.  Browser timers and sound playback are not part of the model: one
 * call of `Timer.Tick` is one firing of the one-second interval.
 *
 * Leaving a focus period first queues `sessions + 1` and then calls
 * `resetTimer`, whose break length is chosen from the session count captured
 * when the callback was created, i.e. the count BEFORE the increment.  The
 * model keeps that behaviour: `ResetStep` takes the captured count as an
 * explicit parameter and `AdvanceStep` passes it the old count.
 */
module PomodoroTimer {

  /** Phase lengths in seconds, and the long-break cycle. */
  const WorkTime: nat := 25 * 60
  const ShortBreak: nat := 5 * 60
  const LongBreak: nat := 15 * 60
  const SessionsBeforeLongBreak: nat := 4

  datatype TimerState = TimerState(
    minutes: nat,
    seconds: nat,
    isRunning: bool,
    isBreak: bool,
    sessions: nat)

  /** Seconds left on the clock. */
  function Remaining(s: TimerState): nat {
    s.minutes * 60 + s.seconds
  }

  /** Every write of the clock splits a total with `/ 60` and `% 60`. */
  predicate Valid(s: TimerState) {
    s.seconds < 60
  }

  /**
   * Full length of a phase: focus, or a break whose kind is decided by a
   * session count.  `resetTimer` calls it with the count it captured;
   * the progress ring calls it with the current count.
   */
  function PhaseLength(isBreak: bool, sessions: nat): (len: nat)
    ensures len > 0 && len % 60 == 0
    ensures len == WorkTime <==> !isBreak
    ensures isBreak ==> (len == LongBreak <==> sessions % SessionsBeforeLongBreak == 0)
    ensures isBreak ==> (len == ShortBreak <==> sessions % SessionsBeforeLongBreak != 0)
  {
    if !isBreak then WorkTime
    else if sessions % SessionsBeforeLongBreak == 0 then LongBreak
    else ShortBreak
  }

  /** The state the widget mounts with. */
  function Initial(): (s: TimerState)
    ensures Valid(s) && s.minutes == 25 && s.seconds == 0
    ensures Remaining(s) == WorkTime
    ensures !s.isRunning && !s.isBreak && s.sessions == 0
  {
    TimerState(WorkTime / 60, WorkTime % 60, false, false, 0)
  }

  /**
   * `resetTimer(isBreak)` with the session count its closure captured:
   * pauses, enters the requested phase with that phase's full length and
   * leaves the session count alone.
   */
  function ResetStep(s: TimerState, isBreak: bool, capturedSessions: nat): (r: TimerState)
    ensures Valid(r)
    ensures Remaining(r) == PhaseLength(isBreak, capturedSessions)
    ensures !isBreak ==> r.minutes == 25 && r.seconds == 0
    ensures r.isBreak == isBreak && !r.isRunning && r.sessions == s.sessions
  {
    var time := PhaseLength(isBreak, capturedSessions);
    s.(minutes := time / 60, seconds := time % 60, isRunning := false, isBreak := isBreak)
  }

  /** `toggleTimer`: start or pause, nothing else. */
  function ToggleStep(s: TimerState): (r: TimerState)
    ensures r.isRunning != s.isRunning
    ensures r.(isRunning := s.isRunning) == s
  {
    s.(isRunning := !s.isRunning)
  }

  /**
   * The phase transition shared by `skipTimer` and the tick at 00:00:
   * from focus, count one more session and enter a break whose length is
   * chosen from the count before the increment; from a break, go back to a
   * full focus period.  Either way the timer ends up paused.
   */
  function AdvanceStep(s: TimerState): (r: TimerState)
    ensures Valid(r) && !r.isRunning && r.isBreak == !s.isBreak
    ensures !s.isBreak ==>
      r.sessions == s.sessions + 1 && Remaining(r) == PhaseLength(true, s.sessions)
    ensures s.isBreak ==> r.sessions == s.sessions && r.minutes == 25 && r.seconds == 0
  {
    var nextIsBreak := !s.isBreak;
    var counted := if nextIsBreak then s.(sessions := s.sessions + 1) else s;
    ResetStep(counted, nextIsBreak, s.sessions)
  }

  /**
   * One firing of the one-second interval.  The interval exists only while
   * the timer runs; a tick with time left takes exactly one second off and
   * changes nothing else; a tick at 00:00 takes nothing off and performs the
   * phase transition instead.
   */
  function TickStep(s: TimerState): (r: TimerState)
    ensures !s.isRunning ==> r == s
    ensures s.isRunning ==> Valid(r)
    ensures s.isRunning && Remaining(s) > 0 ==>
      Remaining(r) == Remaining(s) - 1 &&
      r.isRunning && r.isBreak == s.isBreak && r.sessions == s.sessions
    ensures s.isRunning && Remaining(s) == 0 ==> r == AdvanceStep(s)
  {
    if !s.isRunning then s
    else
      var total := s.minutes * 60 + s.seconds - 1;
      if total < 0 then AdvanceStep(s)
      else s.(minutes := total / 60, seconds := total % 60)
  }

  /** `n` consecutive ticks. */
  function TickSteps(s: TimerState, n: nat): TimerState
    decreases n
  {
    if n == 0 then s else TickSteps(TickStep(s), n - 1)
  }

  /** The mode caption under the clock, read from the current session count. */
  function ModeLabel(s: TimerState): (caption: string)
    ensures caption == "Focus Time" <==> PhaseLength(s.isBreak, s.sessions) == WorkTime
    ensures caption == "Long Break" <==> PhaseLength(s.isBreak, s.sessions) == LongBreak
    ensures caption == "Short Break" <==> PhaseLength(s.isBreak, s.sessions) == ShortBreak
  {
    if s.isBreak then
      if s.sessions % SessionsBeforeLongBreak == 0 then "Long Break" else "Short Break"
    else "Focus Time"
  }

  /** The "Focus Time" statistic, in whole minutes. */
  function FocusMinutes(s: TimerState): (m: nat)
    ensures m == 25 * s.sessions
    ensures m * 60 == s.sessions * WorkTime
  {
    (s.sessions * WorkTime) / 60
  }

  /**
   * Seconds elapsed in the current phase as the progress ring computes them
   * (the ring shows this over the phase length, as a percentage), the phase
   * length being read from the current session count.
   */
  function Elapsed(s: TimerState): (e: int)
    ensures e <= PhaseLength(s.isBreak, s.sessions)
    ensures e >= 0 <==> Remaining(s) <= PhaseLength(s.isBreak, s.sessions)
    ensures e == 0 <==> Remaining(s) == PhaseLength(s.isBreak, s.sessions)
  {
    PhaseLength(s.isBreak, s.sessions) - Remaining(s)
  }

  /** Every step keeps the clock well formed. */
  lemma StepsPreserveValid(s: TimerState, b: bool, captured: nat)
    requires Valid(s)
    ensures Valid(ResetStep(s, b, captured)) && Valid(ToggleStep(s))
    ensures Valid(AdvanceStep(s)) && Valid(TickStep(s))
  {
  }

  /** Toggling twice restores the state. */
  lemma ToggleTwice(s: TimerState)
    ensures ToggleStep(ToggleStep(s)) == s
  {
  }

  /** While time is left, a running tick moves the progress ring on by one second. */
  lemma TickAdvancesElapsed(s: TimerState)
    requires s.isRunning && Remaining(s) > 0
    ensures Elapsed(TickStep(s)) == Elapsed(s) + 1
  {
  }

  /** The Reset button (`resetTimer(timerState.isBreak)`) restarts the current phase. */
  lemma ResetButtonRestartsPhase(s: TimerState)
    ensures var r := ResetStep(s, s.isBreak, s.sessions);
      Elapsed(r) == 0 && r.isBreak == s.isBreak && r.sessions == s.sessions && !r.isRunning
  {
  }

  /** A running timer with `k` or more seconds left counts down exactly `k` seconds in `k` ticks. */
  lemma {:induction false} CountDown(s: TimerState, k: nat)
    requires s.isRunning && k <= Remaining(s)
    ensures var t := TickSteps(s, k);
      Remaining(t) == Remaining(s) - k && t.isRunning &&
      t.isBreak == s.isBreak && t.sessions == s.sessions
    decreases k
  {
    if k > 0 {
      CountDown(TickStep(s), k - 1);
    }
  }

  /** The phase transition depends only on the phase and the session count. */
  lemma AdvanceIgnoresClock(s: TimerState, t: TimerState)
    requires s.isBreak == t.isBreak && s.sessions == t.sessions
    ensures AdvanceStep(s) == AdvanceStep(t)
  {
  }

  /**
   * A running timer reaches 00:00 after as many ticks as it has seconds
   * left, still running; the next tick performs the same transition as
   * skipping from the start.
   */
  lemma {:induction false} FullPeriod(s: TimerState)
    requires s.isRunning
    ensures var z := TickSteps(s, Remaining(s)); Remaining(z) == 0 && z.isRunning
    ensures TickSteps(s, Remaining(s) + 1) == AdvanceStep(s)
  {
    var n := Remaining(s);
    CountDown(s, n);
    var z := TickSteps(s, n);
    TickStepsSplit(s, n);
    AdvanceIgnoresClock(z, s);
  }

  /** `n + 1` ticks are `n` ticks followed by one. */
  lemma {:induction false} TickStepsSplit(s: TimerState, n: nat)
    ensures TickSteps(s, n + 1) == TickStep(TickSteps(s, n))
    decreases n
  {
    if n > 0 {
      TickStepsSplit(TickStep(s), n - 1);
    }
  }

  /**
   * The first focus period started from the initial state: 1501 ticks
   * (1500 down to 00:00, one more for the transition) lead to a paused
   * break with one session counted and fifteen minutes on the clock.
   */
  lemma FirstFocusPeriod()
    ensures TickSteps(ToggleStep(Initial()), 1501) == TimerState(15, 0, false, true, 1)
  {
    var s := ToggleStep(Initial());
    FullPeriod(s);
  }

  /**
   * As written, the break entered from focus lasts as long as its own label
   * and progress ring say exactly when the count before the increment is
   * 1 or 2 modulo 4; otherwise clock and label disagree.
   */
  lemma AdvanceLengthMatchesLabelIff(s: TimerState)
    requires !s.isBreak
    ensures var r := AdvanceStep(s);
      (Elapsed(r) == 0) <==> (s.sessions % 4 == 1 || s.sessions % 4 == 2)
  {
  }

  /**
   * The discrepancy on the first break: after one focus session the clock
   * shows 15:00 while the caption says "Short Break" and the progress ring
   * stands at minus 600 seconds of a 300-second phase.
   */
  lemma FirstBreakMislabelled()
    ensures var r := AdvanceStep(Initial());
      r.sessions == 1 && Remaining(r) == LongBreak &&
      ModeLabel(r) == "Short Break" && Elapsed(r) == -600
  {
  }

  /**
   * The evidently intended transition: the break length is chosen from the
   * incremented count, as the caption, the progress ring and the widget's
   * own tips ("after 4 sessions, take a longer 15-minute break") read it.
   */
  function IntendedAdvanceStep(s: TimerState): (r: TimerState)
    ensures Valid(r) && !r.isRunning && r.isBreak == !s.isBreak
    ensures Elapsed(r) == 0
    ensures !s.isBreak ==>
      r.sessions == s.sessions + 1 &&
      (Remaining(r) == LongBreak <==> r.sessions % SessionsBeforeLongBreak == 0)
    ensures s.isBreak ==> r.sessions == s.sessions && Remaining(r) == WorkTime
  {
    var nextIsBreak := !s.isBreak;
    var counted := if nextIsBreak then s.(sessions := s.sessions + 1) else s;
    ResetStep(counted, nextIsBreak, counted.sessions)
  }

  /** Under the intended transition the first break is a short one. */
  lemma IntendedFirstBreakIsShort()
    ensures var r := IntendedAdvanceStep(Initial());
      Remaining(r) == ShortBreak && ModeLabel(r) == "Short Break"
  {
  }

  /** The widget's state, updated in place by its event handlers. */
  class Timer {
    var minutes: nat
    var seconds: nat
    var isRunning: bool
    var isBreak: bool
    var sessions: nat

    /** The five fields as a record. */
    function State(): TimerState
      reads this
    {
      TimerState(minutes, seconds, isRunning, isBreak, sessions)
    }

    ghost predicate Valid()
      reads this
    {
      seconds < 60
    }

    constructor ()
      ensures Valid() && State() == Initial()
    {
      minutes := WorkTime / 60;
      seconds := WorkTime % 60;
      isRunning := false;
      isBreak := false;
      sessions := 0;
    }

    /** `resetTimer(isBreak)`; `capturedSessions` is the count its closure saw. */
    method ResetTimer(isBreak: bool, capturedSessions: nat)
      modifies this
      ensures Valid()
      ensures State() == ResetStep(old(State()), isBreak, capturedSessions)
      ensures this.isBreak == isBreak && !isRunning && sessions == old(sessions)
      ensures Remaining(State()) == PhaseLength(isBreak, capturedSessions)
    {
      var time := PhaseLength(isBreak, capturedSessions);
      minutes := time / 60;
      seconds := time % 60;
      isRunning := false;
      this.isBreak := isBreak;
    }

    /** The Reset button: `resetTimer(timerState.isBreak)` with the current count. */
    method Reset()
      modifies this
      ensures Valid()
      ensures State() == ResetStep(old(State()), old(isBreak), old(sessions))
      ensures isBreak == old(isBreak) && sessions == old(sessions) && !isRunning
      ensures Elapsed(State()) == 0
    {
      ResetTimer(isBreak, sessions);
    }

    /** `toggleTimer`. */
    method ToggleTimer()
      requires Valid()
      modifies this
      ensures Valid()
      ensures State() == ToggleStep(old(State()))
      ensures isRunning == !old(isRunning)
      ensures minutes == old(minutes) && seconds == old(seconds)
      ensures isBreak == old(isBreak) && sessions == old(sessions)
    {
      isRunning := !isRunning;
    }

    /** Queue `sessions + 1` when leaving focus, then reset with the count captured before it. */
    method LeavePhase()
      modifies this
      ensures Valid()
      ensures State() == AdvanceStep(old(State()))
    {
      var nextIsBreak := !isBreak;
      var captured := sessions;
      if nextIsBreak {
        sessions := sessions + 1;
      }
      ResetTimer(nextIsBreak, captured);
    }

    /** `skipTimer`. */
    method SkipTimer()
      modifies this
      ensures Valid()
      ensures State() == AdvanceStep(old(State()))
      ensures !old(isBreak) ==> isBreak && sessions == old(sessions) + 1
      ensures old(isBreak) ==>
        !isBreak && sessions == old(sessions) && minutes == 25 && seconds == 0
      ensures !isRunning
    {
      LeavePhase();
    }

    /** One firing of the one-second interval (it is only set while the timer runs). */
    method Tick()
      requires Valid()
      modifies this
      ensures Valid()
      ensures State() == TickStep(old(State()))
      ensures !old(isRunning) ==> State() == old(State())
      ensures old(isRunning) && old(Remaining(State())) > 0 ==>
        Remaining(State()) == old(Remaining(State())) - 1 &&
        isRunning && isBreak == old(isBreak) && sessions == old(sessions)
      ensures old(isRunning) && old(Remaining(State())) == 0 ==>
        State() == AdvanceStep(old(State())) && !isRunning
    {
      if !isRunning {
        return;
      }
      var totalSeconds := minutes * 60 + seconds - 1;
      if totalSeconds < 0 {
        LeavePhase();
      } else {
        minutes := totalSeconds / 60;
        seconds := totalSeconds % 60;
      }
    }
  }

  /** Skipping a focus period and then its break returns to a paused 25:00 with one more session. */
  method SkipRoundTrip(t: Timer)
    requires t.Valid() && !t.isBreak
    modifies t
    ensures t.State() == TimerState(25, 0, false, false, old(t.sessions) + 1)
  {
    t.SkipTimer();
    t.SkipTimer();
  }
}
