/**
 * The pomodoro timer of the front end: work phases alternate with breaks,
 * every fourth completed work phase being followed by a long break; a
 * one-second tick counts the remaining time down while the timer runs.
 * Durations come from the settings as minutes and seconds per phase.
 */
module Pomodoro {

  datatype Phase = Work | ShortBreak | LongBreak

  datatype Durations = Durations(
    workMinutes: int, workSeconds: int,
    shortBreakMinutes: int, shortBreakSeconds: int,
    longBreakMinutes: int, longBreakSeconds: int)

  predicate NonNegative(d: Durations) {
    && d.workMinutes >= 0 && d.workSeconds >= 0
    && d.shortBreakMinutes >= 0 && d.shortBreakSeconds >= 0
    && d.longBreakMinutes >= 0 && d.longBreakSeconds >= 0
  }

  /** `getPhaseTotalTime`: the configured length of a phase in seconds. */
  function PhaseTotal(d: Durations, p: Phase): (total: int)
    ensures NonNegative(d) ==> total >= 0
  {
    match p
    case Work => d.workMinutes * 60 + d.workSeconds
    case ShortBreak => d.shortBreakMinutes * 60 + d.shortBreakSeconds
    case LongBreak => d.longBreakMinutes * 60 + d.longBreakSeconds
  }

  /** The provider's state variables. */
  datatype Timer = Timer(
    phase: Phase,
    remaining: int,
    isActive: bool,
    hasBeenActive: bool,
    workIteration: nat,
    loaded: bool)

  /** The state before the first effect has run. */
  const Initial: Timer := Timer(Work, 0, false, false, 0, false)

  /** `setPhaseWithDuration`: enter a phase with its full length remaining. */
  function EnterPhase(t: Timer, d: Durations, p: Phase): (r: Timer)
    ensures r.phase == p && r.remaining == PhaseTotal(d, p)
    ensures r.(phase := t.phase, remaining := t.remaining) == t
  {
    t.(phase := p, remaining := PhaseTotal(d, p))
  }

  /**
   * `scheduleNext`: the end of a work phase counts one more work phase and
   * leads to a long break when that count is a multiple of 4, to a short
   * break otherwise; the end of a break leads back to work.
   */
  function ScheduleNext(t: Timer, d: Durations): (r: Timer)
    ensures r.remaining == PhaseTotal(d, r.phase)
    ensures t.phase == Work ==>
      && r.workIteration == t.workIteration + 1
      && (r.phase == LongBreak <==> r.workIteration % 4 == 0)
      && (r.phase == ShortBreak <==> r.workIteration % 4 != 0)
    ensures t.phase != Work ==> r.phase == Work && r.workIteration == t.workIteration
    ensures r.isActive == t.isActive && r.hasBeenActive == t.hasBeenActive && r.loaded == t.loaded
  {
    if t.phase == Work then
      var next := t.workIteration + 1;
      EnterPhase(t.(workIteration := next), d, if next % 4 == 0 then LongBreak else ShortBreak)
    else
      EnterPhase(t, d, Work)
  }

  /**
   * One second of the running timer: the remaining time goes down by one
   * while positive; at zero or below the timer stops and the next phase
   * begins. No tick happens while the timer is stopped.
   */
  function AfterTick(t: Timer, d: Durations): (r: Timer)
    ensures !t.isActive ==> r == t
    ensures t.isActive && t.remaining > 0 ==> r == t.(remaining := t.remaining - 1)
    ensures t.isActive && t.remaining <= 0 ==> !r.isActive && r == ScheduleNext(t.(isActive := false), d)
  {
    if !t.isActive then t
    else if t.remaining <= 0 then ScheduleNext(t.(isActive := false), d)
    else t.(remaining := t.remaining - 1)
  }

  /** `startPomodoroTimer`: running, and marked as activated at least once; nothing else changes. */
  function AfterStart(t: Timer): (r: Timer)
    ensures r.isActive && r.hasBeenActive
    ensures r.(isActive := t.isActive, hasBeenActive := t.hasBeenActive) == t
  {
    t.(isActive := true, hasBeenActive := true)
  }

  /** `stopPomodoroTimer`: stopped; nothing else changes. */
  function AfterStop(t: Timer): (r: Timer)
    ensures !r.isActive && r.(isActive := t.isActive) == t
  {
    t.(isActive := false)
  }

  /**
   * `skipPhase`, whether or not the timer runs: stop, then move on exactly as
   * a completed phase does. Work is followed by a break, long exactly when the
   * raised work count is a multiple of 4; a break is followed by work; the new
   * phase starts at its full length.
   */
  function AfterSkip(t: Timer, d: Durations): (r: Timer)
    ensures !r.isActive && r.remaining == PhaseTotal(d, r.phase)
    ensures t.phase == Work ==>
      && r.phase != Work
      && r.workIteration == t.workIteration + 1
      && (r.phase == LongBreak <==> r.workIteration % 4 == 0)
    ensures t.phase != Work ==> r.phase == Work && r.workIteration == t.workIteration
    ensures r.hasBeenActive == t.hasBeenActive && r.loaded == t.loaded
  {
    ScheduleNext(t.(isActive := false), d)
  }

  /** `resetPomodoroTimer`: stop and start work afresh; the work count is kept. */
  function AfterReset(t: Timer, d: Durations): (r: Timer)
    ensures !r.isActive && r.phase == Work && r.remaining == PhaseTotal(d, Work)
    ensures r.workIteration == t.workIteration && r.hasBeenActive == t.hasBeenActive && r.loaded == t.loaded
  {
    EnterPhase(t.(isActive := false), d, Work)
  }

  /** The effect run on mount and whenever a duration setting changes. */
  function DurationsChanged(t: Timer, d: Durations): (r: Timer)
    ensures !r.isActive && r.loaded && r.phase == t.phase && r.remaining == PhaseTotal(d, t.phase)
    ensures r.workIteration == t.workIteration && r.hasBeenActive == t.hasBeenActive
  {
    t.(isActive := false, remaining := PhaseTotal(d, t.phase), loaded := true)
  }

  /** `n` ticks of the interval timer. */
  function Ticks(t: Timer, d: Durations, n: nat): Timer {
    if n == 0 then t else AfterTick(Ticks(t, d, n - 1), d)
  }

  /** While the remaining time lasts, `n` ticks take exactly `n` seconds off it. */
  lemma {:induction false} CountdownTicks(t: Timer, d: Durations, n: nat)
    requires t.isActive && n <= t.remaining
    ensures Ticks(t, d, n) == t.(remaining := t.remaining - n)
  {
    if n > 0 {
      CountdownTicks(t, d, n - 1);
    }
  }

  /** The tick after the countdown reaches zero ends the phase exactly as skipping it would. */
  lemma CountdownCompletes(t: Timer, d: Durations)
    requires t.isActive && t.remaining >= 0
    ensures Ticks(t, d, t.remaining + 1) == AfterSkip(t, d)
  {
    CountdownTicks(t, d, t.remaining);
  }

  /** From a work phase at a multiple of four, the next eight phases are S W S W S W L W. */
  lemma {:induction false} FourWorkPhasesCycle(t: Timer, d: Durations)
    requires t.phase == Work && t.workIteration % 4 == 0
    ensures var t1 := ScheduleNext(t, d); var t2 := ScheduleNext(t1, d);
      var t3 := ScheduleNext(t2, d); var t4 := ScheduleNext(t3, d);
      var t5 := ScheduleNext(t4, d); var t6 := ScheduleNext(t5, d);
      var t7 := ScheduleNext(t6, d); var t8 := ScheduleNext(t7, d);
      && [t1.phase, t2.phase, t3.phase, t4.phase, t5.phase, t6.phase, t7.phase, t8.phase]
         == [ShortBreak, Work, ShortBreak, Work, ShortBreak, Work, LongBreak, Work]
      && t8.workIteration == t.workIteration + 4
  {
    var i := t.workIteration;
    assert (i + 1) % 4 == 1 && (i + 2) % 4 == 2 && (i + 3) % 4 == 3 && (i + 4) % 4 == 0;
  }

  datatype Event =
    | StartPressed
    | StopPressed
    | SkipPressed
    | ResetPressed
    | Second
    | SettingsChanged(durations: Durations)

  /** The timer and the durations in force after one event. */
  function Step(t: Timer, d: Durations, e: Event): (Timer, Durations) {
    match e
    case StartPressed => (AfterStart(t), d)
    case StopPressed => (AfterStop(t), d)
    case SkipPressed => (AfterSkip(t, d), d)
    case ResetPressed => (AfterReset(t, d), d)
    case Second => (AfterTick(t, d), d)
    case SettingsChanged(d') => (DurationsChanged(t, d'), d')
  }

  function Run(t: Timer, d: Durations, events: seq<Event>): (Timer, Durations)
    decreases |events|
  {
    if events == [] then (t, d)
    else
      var (t', d') := Step(t, d, events[0]);
      Run(t', d', events[1..])
  }

  /** The remaining time lies between zero and the length of the current phase. */
  predicate InRange(t: Timer, d: Durations) {
    0 <= t.remaining <= PhaseTotal(d, t.phase)
  }

  predicate SettingsNonNegative(events: seq<Event>) {
    forall i :: 0 <= i < |events| && events[i].SettingsChanged? ==> NonNegative(events[i].durations)
  }

  lemma StepInvariants(t: Timer, d: Durations, e: Event)
    requires NonNegative(d) && InRange(t, d)
    requires e.SettingsChanged? ==> NonNegative(e.durations)
    ensures var (t', d') := Step(t, d, e);
      && NonNegative(d') && InRange(t', d')
      && (t.hasBeenActive ==> t'.hasBeenActive)
      && t.workIteration <= t'.workIteration
  {
  }

  /**
   * Under non-negative durations, every sequence of events keeps the
   * remaining time within the current phase, never clears `hasBeenActive`
   * once set, and never lowers the work count.
   */
  lemma {:induction false} RunInvariants(t: Timer, d: Durations, events: seq<Event>)
    requires NonNegative(d) && InRange(t, d) && SettingsNonNegative(events)
    decreases |events|
    ensures var (t', d') := Run(t, d, events);
      && NonNegative(d') && InRange(t', d')
      && (t.hasBeenActive ==> t'.hasBeenActive)
      && t.workIteration <= t'.workIteration
  {
    if events != [] {
      StepInvariants(t, d, events[0]);
      var (t1, d1) := Step(t, d, events[0]);
      assert SettingsNonNegative(events[1..]) by {
        forall i | 0 <= i < |events[1..]| && events[1..][i].SettingsChanged?
          ensures NonNegative(events[1..][i].durations)
        {
          assert events[1..][i] == events[i + 1];
        }
      }
      RunInvariants(t1, d1, events[1..]);
    }
  }

  /**
   * `getProgress`: the fraction of the phase already elapsed. It is 0 for a
   * zero-length phase, 0 at the start of a phase, 1 when no time remains, and
   * in [0, 1] while the remaining time is within the phase.
   */
  function Progress(t: Timer, d: Durations): (p: real)
    ensures PhaseTotal(d, t.phase) == 0 ==> p == 0.0
    ensures PhaseTotal(d, t.phase) != 0 ==>
      p * PhaseTotal(d, t.phase) as real == (PhaseTotal(d, t.phase) - t.remaining) as real
    ensures 0 < PhaseTotal(d, t.phase) == t.remaining ==> p == 0.0
    ensures t.remaining == 0 < PhaseTotal(d, t.phase) ==> p == 1.0
    ensures InRange(t, d) ==> 0.0 <= p <= 1.0
  {
    var total := PhaseTotal(d, t.phase);
    if total == 0 then 0.0
    else
      var p := (total - t.remaining) as real / total as real;
      assert InRange(t, d) ==> 0.0 <= p <= 1.0 by {
        if InRange(t, d) {
          ProperFraction(total - t.remaining, total);
        }
      }
      p
  }

  /**
   * A second of countdown keeps the phase and, for a phase of non-negative
   * length, never lowers the progress shown.
   */
  lemma TickRaisesProgress(t: Timer, d: Durations)
    requires t.isActive && t.remaining > 0
    ensures AfterTick(t, d).phase == t.phase
    ensures PhaseTotal(d, t.phase) >= 0 ==> Progress(AfterTick(t, d), d) >= Progress(t, d)
  {
    var total := PhaseTotal(d, t.phase);
    if total > 0 {
      var p := Progress(t, d);
      var q := Progress(AfterTick(t, d), d);
      assert (q - p) * total as real == 1.0;
    }
  }

  lemma ProperFraction(a: int, b: int)
    requires 0 <= a <= b && b > 0
    ensures 0.0 <= a as real / b as real <= 1.0
  {
    assert a as real / b as real * b as real == a as real;
  }

  /** `Math.floor(remaining / 60)`: the whole minutes at or below the remaining time. */
  function Minutes(remaining: int): (m: int)
    ensures 60 * m <= remaining < 60 * m + 60
  {
    remaining / 60
  }

  /**
   * JavaScript's `remaining % 60`, which takes the sign of `remaining`: it
   * differs from `remaining` by a multiple of 60 and lies strictly between
   * -60 and 60, on the side of zero `remaining` is on.
   */
  function Seconds(remaining: int): (s: int)
    ensures (remaining - s) % 60 == 0
    ensures remaining >= 0 ==> 0 <= s < 60
    ensures remaining < 0 ==> -60 < s <= 0
  {
    if remaining >= 0 then remaining % 60 else -((-remaining) % 60)
  }

  /** For a non-negative remaining time the display splits it exactly into minutes and seconds. */
  lemma DisplaySplit(remaining: int)
    requires remaining >= 0
    ensures Minutes(remaining) * 60 + Seconds(remaining) == remaining
    ensures 0 <= Seconds(remaining) < 60 && Minutes(remaining) >= 0
  {
  }

  /** At the start of a phase the display shows the configured minutes and seconds. */
  lemma DisplayAtPhaseStart(d: Durations, p: Phase)
    requires NonNegative(d)
    requires d.workSeconds < 60 && d.shortBreakSeconds < 60 && d.longBreakSeconds < 60
    ensures var total := PhaseTotal(d, p);
      match p
      case Work => Minutes(total) == d.workMinutes && Seconds(total) == d.workSeconds
      case ShortBreak => Minutes(total) == d.shortBreakMinutes && Seconds(total) == d.shortBreakSeconds
      case LongBreak => Minutes(total) == d.longBreakMinutes && Seconds(total) == d.longBreakSeconds
  {
  }

  /** The `PomodoroProvider`'s state, changed in place by its handlers and its interval timer. */
  class PomodoroTimer {
    var phase: Phase
    var remaining: int
    var isActive: bool
    var hasBeenActive: bool
    var workIteration: nat
    var loaded: bool
    /** The durations currently read from the settings. */
    var durations: Durations

    function State(): Timer
      reads this
    {
      Timer(phase, remaining, isActive, hasBeenActive, workIteration, loaded)
    }

    constructor (d: Durations)
      ensures State() == Initial && durations == d
    {
      phase, remaining, isActive, hasBeenActive, workIteration, loaded := Work, 0, false, false, 0, false;
      durations := d;
    }

    method SetPhaseWithDuration(p: Phase)
      modifies this
      ensures State() == EnterPhase(old(State()), durations, p) && durations == old(durations)
    {
      phase := p;
      remaining := PhaseTotal(durations, p);
    }

    method ScheduleNextPhase()
      modifies this
      ensures State() == ScheduleNext(old(State()), durations) && durations == old(durations)
    {
      if phase == Work {
        var next := workIteration + 1;
        workIteration := next;
        if next % 4 == 0 {
          SetPhaseWithDuration(LongBreak);
        } else {
          SetPhaseWithDuration(ShortBreak);
        }
      } else {
        SetPhaseWithDuration(Work);
      }
    }

    /** One firing of the one-second interval, which exists only while the timer is active. */
    method Tick()
      modifies this
      ensures State() == AfterTick(old(State()), durations) && durations == old(durations)
    {
      if isActive {
        if remaining <= 0 {
          isActive := false;
          ScheduleNextPhase();
        } else {
          remaining := remaining - 1;
        }
      }
    }

    method Start()
      modifies this
      ensures State() == AfterStart(old(State())) && durations == old(durations)
    {
      isActive := true;
      if !hasBeenActive {
        hasBeenActive := true;
      }
    }

    method Stop()
      modifies this
      ensures State() == AfterStop(old(State())) && durations == old(durations)
    {
      isActive := false;
    }

    method Skip()
      modifies this
      ensures State() == AfterSkip(old(State()), durations) && durations == old(durations)
    {
      isActive := false;
      ScheduleNextPhase();
    }

    method Reset()
      modifies this
      ensures State() == AfterReset(old(State()), durations) && durations == old(durations)
    {
      isActive := false;
      SetPhaseWithDuration(Work);
    }

    /** The duration effect, run on mount and after every change of the settings. */
    method OnDurationsChanged(d: Durations)
      modifies this
      ensures State() == DurationsChanged(old(State()), d) && durations == d
    {
      durations := d;
      isActive := false;
      remaining := PhaseTotal(durations, phase);
      loaded := true;
    }

    /**
     * `getProgress`: the elapsed fraction of the current phase (progress
     * times the phase length is the elapsed time), 0 for a zero-length phase,
     * and in [0, 1] while the remaining time is within the phase.
     */
    function GetProgress(): (p: real)
      reads this
      ensures PhaseTotal(durations, phase) == 0 ==> p == 0.0
      ensures PhaseTotal(durations, phase) != 0 ==>
        p * PhaseTotal(durations, phase) as real == (PhaseTotal(durations, phase) - remaining) as real
      ensures InRange(State(), durations) ==> 0.0 <= p <= 1.0
    {
      Progress(State(), durations)
    }
  }
}
