/**
 * The focus timer of the Timer page: a countdown against an absolute deadline,
 * a Focus/Break phase flag and a session counter.
 *
 * `TimerState` and the functions `Toggled`, `Ticked`, `AfterReset` and
 * `AfterPreset` are the value-level specification; the class `Timer` holds the
 * page's state fields and its methods are proved to follow those functions.
 * Clock readings are integer milliseconds passed in by the caller.
 */
module FocusTimer {
  import opened Wrappers
  import Text

  const FocusLength: int := 25
  const BreakLength: int := 5
  /** The durations of the preset buttons: Pomodoro, Short Break, Long Break, Deep Focus. */
  const PresetDurations: seq<int> := [25, 5, 15, 45]

  /**
   * The component state: the displayed `minutes`/`seconds`, whether the
   * countdown runs, the phase, the session number, the length of the current
   * phase, and the deadline held in `endTimeRef` (milliseconds).
   */
  datatype TimerState = TimerState(
    minutes: int,
    seconds: int,
    isActive: bool,
    isBreak: bool,
    session: int,
    totalMinutes: int,
    endTime: Option<int>)

  /** The state the page mounts with: Focus, 25:00, paused, session 1. */
  function Initial(): TimerState {
    TimerState(25, 0, false, false, 1, 25, None)
  }

  /** The remaining time the display shows, in whole seconds. */
  function Display(s: TimerState): int {
    s.minutes * 60 + s.seconds
  }

  /** What every reachable state satisfies. */
  ghost predicate Inv(s: TimerState) {
    && s.minutes >= 0
    && 0 <= s.seconds < 60
    && (s.isActive <==> s.endTime.Some?)
    && s.session >= 1
    && s.totalMinutes in PresetDurations
  }

  /** The interval callback is registered: the timer runs toward a deadline. */
  predicate Running(s: TimerState) {
    s.isActive && s.endTime.Some?
  }

  /**
   * `toggleTimer` followed by the effect it triggers. Starting keeps an existing
   * (truthy) deadline and otherwise sets it from the displayed remainder;
   * pausing clears the deadline and leaves the display as last written.
   */
  function Toggled(s: TimerState, now: int): TimerState {
    if !s.isActive then
      var deadline :=
        if s.endTime.None? || s.endTime.value == 0 then Some(now + s.minutes * 60000 + s.seconds * 1000)
        else s.endTime;
      s.(isActive := true, endTime := deadline)
    else
      s.(isActive := false, endTime := None)
  }

  /** The display for a positive distance to the deadline: whole minutes and the seconds left over. */
  function TickDisplay(distance: int): (ms: (int, int))
    requires distance > 0
    ensures ms.0 >= 0 && 0 <= ms.1 < 60
    ensures ms.0 * 60 + ms.1 == distance / 1000
  {
    var q, r := distance / 60000, distance % 60000;
    assert distance == q * 60000 + r;
    assert distance / 1000 == q * 60 + r / 1000 by {
      assert q * 60000 + r == (q * 60) * 1000 + r;
    }
    (q, r / 1000)
  }

  /**
   * One run of the interval callback at clock reading `now`. On completion the
   * writes of the source happen in order, so the final `minutes := 0` overrides
   * the 5 or 25 written just before it.
   */
  function Ticked(s: TimerState, now: int): TimerState
    requires Running(s)
  {
    var distance := s.endTime.value - now;
    if distance <= 0 then
      var stopped := s.(isActive := false, endTime := None);
      var flipped :=
        if !s.isBreak then stopped.(session := s.session + 1, isBreak := true, minutes := BreakLength, totalMinutes := BreakLength)
        else stopped.(isBreak := false, minutes := FocusLength, totalMinutes := FocusLength);
      flipped.(seconds := 0, minutes := 0)
    else
      var ms := TickDisplay(distance);
      s.(minutes := ms.0, seconds := ms.1)
  }

  /** `resetTimer`. */
  function AfterReset(s: TimerState): TimerState {
    s.(isActive := false, minutes := s.totalMinutes, seconds := 0, endTime := None)
  }

  /** `setPreset(duration)`. */
  function AfterPreset(s: TimerState, duration: int): TimerState {
    s.(isActive := false, minutes := duration, seconds := 0, totalMinutes := duration, endTime := None)
  }

  /** `formatTime`: both numbers padded to two digits, joined by a colon. */
  function FormatTime(mins: nat, secs: nat): (r: string)
    ensures mins < 100 && secs < 60 ==>
      && |r| == 5 && r[2] == ':'
      && r[0] == Text.DigitChar(mins / 10) && r[1] == Text.DigitChar(mins % 10)
      && r[3] == Text.DigitChar(secs / 10) && r[4] == Text.DigitChar(secs % 10)
  {
    Text.PadTwoDigits(mins);
    Text.PadTwoDigits(secs);
    Text.PadTwo(mins) + ":" + Text.PadTwo(secs)
  }

  /** The four session dots: dot `i` is lit while `i < session`; the dots fill up and do not wrap. */
  function SessionDots(session: int): (dots: seq<bool>)
    ensures |dots| == 4
    ensures forall i :: 0 <= i < 4 ==> dots[i] == (i < session)
  {
    [0 < session, 1 < session, 2 < session, 3 < session]
  }

  /** The "Sessions" figure of the side panel: the number of completed Focus phases. */
  function SessionsCompleted(s: TimerState): int {
    s.session - 1
  }

  /** The progress ring's value, as a percentage of the current phase's length. */
  function Progress(s: TimerState): real
    requires s.totalMinutes > 0
  {
    ((s.totalMinutes * 60 - Display(s)) as real / (s.totalMinutes * 60) as real) * 100.0
  }

  // ---- Properties of the specification ----

  lemma InitialInv()
    ensures Inv(Initial())
  {
  }

  /** Every operation keeps the invariant. */
  lemma OperationsKeepInv(s: TimerState, now: int, duration: int)
    requires Inv(s)
    ensures Inv(Toggled(s, now))
    ensures Running(s) ==> Inv(Ticked(s, now))
    ensures Inv(AfterReset(s))
    ensures duration in PresetDurations ==> Inv(AfterPreset(s, duration))
  {
  }

  /**
   * Starting a paused timer sets the deadline exactly the displayed remainder
   * ahead of the clock; starting never changes the display.
   */
  lemma StartSetsDeadline(s: TimerState, now: int)
    requires Inv(s) && !s.isActive
    ensures Running(Toggled(s, now))
    ensures Toggled(s, now).endTime.value == now + Display(s) * 1000
    ensures Display(Toggled(s, now)) == Display(s)
  {
  }

  /** Pausing clears the deadline and freezes the last displayed value, without recomputing it. */
  lemma PauseFreezesDisplay(s: TimerState, now: int)
    requires Running(s)
    ensures !Toggled(s, now).isActive && Toggled(s, now).endTime.None?
    ensures Toggled(s, now).minutes == s.minutes && Toggled(s, now).seconds == s.seconds
  {
  }

  /** A tick before the deadline shows the whole seconds left until it. */
  lemma TickShowsRemaining(s: TimerState, now: int)
    requires Running(s) && s.endTime.value - now > 0
    ensures Running(Ticked(s, now))
    ensures Display(Ticked(s, now)) == (s.endTime.value - now) / 1000
    ensures 0 <= Ticked(s, now).seconds < 60
  {
  }

  /**
   * The display depends only on the clock, not on how many ticks were delivered:
   * a tick at `t2` after a tick at `t1` leaves the state a single tick at `t2`
   * would have left.
   */
  lemma TicksSelfCorrect(s: TimerState, t1: int, t2: int)
    requires Running(s) && Running(Ticked(s, t1))
    ensures Ticked(Ticked(s, t1), t2) == Ticked(s, t2)
  {
  }

  /** With a non-decreasing clock, successive ticks never raise the display. */
  lemma TicksCountDown(s: TimerState, t1: int, t2: int)
    requires Running(s) && Running(Ticked(s, t1)) && t1 <= t2
    ensures Display(Ticked(Ticked(s, t1), t2)) <= Display(Ticked(s, t1))
  {
    var e := s.endTime.value;
    if e - t2 > 0 {
      assert (e - t2) / 1000 <= (e - t1) / 1000;
    }
  }

  /** The first tick after a start, at a clock reading no earlier than the start, shows no more than was displayed. */
  lemma FirstTickCountsDown(s: TimerState, t0: int, t1: int)
    requires Inv(s) && !s.isActive && t0 <= t1
    ensures Display(Ticked(Toggled(s, t0), t1)) <= Display(s)
  {
    var d := Display(s) * 1000 - (t1 - t0);
    if d > 0 {
      assert d / 1000 <= (Display(s) * 1000) / 1000;
    }
  }

  /**
   * Completing a Focus phase: stopped, deadline cleared, Break phase of 5 minutes,
   * next session, and the display reads 00:00.
   */
  lemma FocusCompletion(s: TimerState, now: int)
    requires Running(s) && !s.isBreak && s.endTime.value - now <= 0
    ensures Ticked(s, now) == s.(isActive := false, endTime := None, isBreak := true,
                                 session := s.session + 1, totalMinutes := 5, minutes := 0, seconds := 0)
  {
  }

  /** Completing a Break phase: Focus phase of 25 minutes, session unchanged, display 00:00. */
  lemma BreakCompletion(s: TimerState, now: int)
    requires Running(s) && s.isBreak && s.endTime.value - now <= 0
    ensures Ticked(s, now) == s.(isActive := false, endTime := None, isBreak := false,
                                 totalMinutes := 25, minutes := 0, seconds := 0)
  {
  }

  /**
   * Because completion leaves 00:00 on the display, starting again completes the
   * next phase on the very first tick: the phase flips back without any waiting.
   */
  lemma RestartCompletesAtOnce(s: TimerState, t: int, t1: int, t2: int)
    requires Inv(s) && Running(s) && s.endTime.value - t <= 0 && t1 <= t2
    ensures var done := Ticked(s, t);
            var again := Ticked(Toggled(done, t1), t2);
            Display(done) == 0 && !again.isActive && again.isBreak == s.isBreak && Display(again) == 0
  {
  }

  /** `resetTimer` loads the full length of the current phase and keeps phase and session. */
  lemma ResetLoadsPhaseLength(s: TimerState)
    ensures var r := AfterReset(s);
            !r.isActive && r.endTime.None? && Display(r) == s.totalMinutes * 60
            && r.isBreak == s.isBreak && r.session == s.session && r.totalMinutes == s.totalMinutes
  {
  }

  /** `setPreset` does what `resetTimer` does with the new length, in either phase. */
  lemma PresetOverrides(s: TimerState, duration: int)
    ensures AfterPreset(s, duration) == AfterReset(s.(totalMinutes := duration))
  {
  }

  /**
   * The progress ring: 0 when the display shows the whole phase, 100 at 00:00,
   * and within [0, 100] whenever the display does not exceed the phase length.
   */
  lemma ProgressBounds(s: TimerState)
    requires s.totalMinutes > 0 && 0 <= Display(s) <= s.totalMinutes * 60
    ensures 0.0 <= Progress(s) <= 100.0
    ensures Display(s) == s.totalMinutes * 60 ==> Progress(s) == 0.0
    ensures Display(s) == 0 ==> Progress(s) == 100.0
  {
    var total := (s.totalMinutes * 60) as real;
    var elapsed := (s.totalMinutes * 60 - Display(s)) as real;
    assert 0.0 <= elapsed <= total;
    assert elapsed / total <= 1.0;
  }

  /**
   * What holds of a state reached with clock readings up to `clock`: the
   * display never shows more than the phase length, and a deadline lies at most
   * one phase length past the clock.
   */
  ghost predicate Bounded(s: TimerState, clock: int) {
    && Inv(s)
    && Display(s) <= s.totalMinutes * 60
    && (s.endTime.Some? ==> s.endTime.value <= clock + s.totalMinutes * 60000)
  }

  /** The mounted state is bounded at any clock reading from 0 on. */
  lemma InitialBounded(clock: int)
    requires clock >= 0
    ensures Bounded(Initial(), clock)
  {
  }

  /** Every operation, at a clock reading no earlier than the last, keeps the bound. */
  lemma OperationsKeepBounded(s: TimerState, clock: int, now: int, duration: int)
    requires Bounded(s, clock) && clock <= now
    ensures Bounded(Toggled(s, now), now)
    ensures Running(s) ==> Bounded(Ticked(s, now), now)
    ensures Bounded(AfterReset(s), now)
    ensures duration in PresetDurations ==> Bounded(AfterPreset(s, duration), now)
  {
    if Running(s) {
      var distance := s.endTime.value - now;
      if distance > 0 {
        var t := s.totalMinutes * 60;
        assert distance <= t * 1000;
        assert distance / 1000 <= (t * 1000) / 1000;
      }
    }
  }

  /** In every bounded state, hence every state the page reaches with a clock that does not run backwards, the ring stays within [0, 100]. */
  lemma ReachedProgressBounds(s: TimerState, clock: int)
    requires Bounded(s, clock)
    ensures s.totalMinutes > 0 && 0.0 <= Progress(s) <= 100.0
  {
    ProgressBounds(s);
  }

  /**
   * The completion the page evidently intends: the phase length written at
   * lines 48 and 52 stays on the display.
   */
  function TickedIntended(s: TimerState, now: int): TimerState
    requires Running(s)
  {
    var distance := s.endTime.value - now;
    if distance <= 0 then
      var stopped := s.(isActive := false, endTime := None, seconds := 0);
      if !s.isBreak then stopped.(session := s.session + 1, isBreak := true, minutes := BreakLength, totalMinutes := BreakLength)
      else stopped.(isBreak := false, minutes := FocusLength, totalMinutes := FocusLength)
    else
      var ms := TickDisplay(distance);
      s.(minutes := ms.0, seconds := ms.1)
  }

  /**
   * With the intended completion, the next phase starts from its full length:
   * after a restart, the timer keeps running until that length has elapsed.
   */
  lemma IntendedRestartRunsFullPhase(s: TimerState, t: int, t1: int, t2: int)
    requires Inv(s) && Running(s) && s.endTime.value - t <= 0 && t1 <= t2
    ensures var done := TickedIntended(s, t);
            Display(done) == done.totalMinutes * 60
            && (t2 < t1 + done.totalMinutes * 60000 ==> TickedIntended(Toggled(done, t1), t2).isActive)
  {
  }

  /** The state of the Timer page. */
  class Timer {
    var minutes: int
    var seconds: int
    var isActive: bool
    var isBreak: bool
    var session: int
    var totalMinutes: int
    var endTime: Option<int>

    /** The fields as a specification value. */
    function State(): TimerState
      reads this
    {
      TimerState(minutes, seconds, isActive, isBreak, session, totalMinutes, endTime)
    }

    ghost predicate Valid()
      reads this
    {
      Inv(State())
    }

    constructor ()
      ensures State() == Initial() && Valid()
    {
      minutes, seconds := 25, 0;
      isActive, isBreak := false, false;
      session, totalMinutes := 1, 25;
      endTime := None;
    }

    /** The play/pause button at clock reading `now`. */
    method Toggle(now: int)
      requires Valid()
      modifies this
      ensures Valid()
      ensures State() == Toggled(old(State()), now)
    {
      isActive := !isActive;
      if isActive {
        if endTime == None || endTime == Some(0) {
          endTime := Some(now + minutes * 60000 + seconds * 1000);
        }
      } else {
        endTime := None;
      }
    }

    /** The interval callback, fired by the host while the timer runs. */
    method Tick(now: int)
      requires Valid() && Running(State())
      modifies this
      ensures Valid()
      ensures State() == Ticked(old(State()), now)
    {
      var distance := endTime.value - now;
      if distance <= 0 {
        isActive := false;
        endTime := None;
        if !isBreak {
          session := session + 1;
          isBreak := true;
          minutes := BreakLength;
          totalMinutes := BreakLength;
        } else {
          isBreak := false;
          minutes := FocusLength;
          totalMinutes := FocusLength;
        }
        seconds := 0;
        minutes := 0;
      } else {
        var ms := TickDisplay(distance);
        minutes := ms.0;
        seconds := ms.1;
      }
    }

    /** The reset button. */
    method Reset()
      requires Valid()
      modifies this
      ensures Valid()
      ensures State() == AfterReset(old(State()))
    {
      isActive := false;
      minutes := totalMinutes;
      seconds := 0;
      endTime := None;
    }

    /** A preset button. */
    method SetPreset(duration: int)
      requires Valid() && duration in PresetDurations
      modifies this
      ensures Valid()
      ensures State() == AfterPreset(old(State()), duration)
    {
      isActive := false;
      minutes := duration;
      seconds := 0;
      totalMinutes := duration;
      endTime := None;
    }
  }

  /** A use of the class: a Focus phase runs out, and the restarted Break ends on its first tick. */
  method CompletionThenRestart()
  {
    var t := new Timer();
    t.Toggle(1000);
    assert t.endTime == Some(1000 + 25 * 60000);
    t.Tick(2000);
    assert t.minutes == 24 && t.seconds == 59;
    t.Tick(1000 + 25 * 60000);
    assert t.isBreak && t.session == 2 && t.totalMinutes == 5 && t.minutes == 0 && t.seconds == 0;
    t.Toggle(2000000);
    t.Tick(2001000);
    assert !t.isBreak && !t.isActive && t.session == 2 && t.totalMinutes == 25;
    assert FormatTime(t.minutes, t.seconds) == "00:00";
  }
}
