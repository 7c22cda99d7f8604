/** The Pomodoro record and its commands, as values.
    A `Snapshot` is the content of the shared `PomodoroState` record at one
    instant. `New` builds the start-up record, `GetSetting` reads it, and each
    other command is a function from the record before it to the record after
    it. The class in module TimerStore holds the same seven
    fields and updates them in place; its methods are proved against these
    functions.
 */
module Timer {

  /** Largest value of the source's `u32`. */
  const U32_MAX: int := 0xFFFF_FFFF

  /** The source's unsigned 32-bit integer. */
  type U32 = x: int | 0 <= x <= 0xFFFF_FFFF

  /** Minutes are converted to seconds and back with this factor. */
  const SECONDS_PER_MINUTE: int := 60

  /** Number of completed work sessions that earns a long break. */
  const SESSIONS_PER_LONG_BREAK: int := 4

  datatype Option<T> = None | Some(value: T)

  /** Whether the countdown advances. */
  datatype TimerState = Running | Paused | Stopped

  /** The current phase. */
  datatype SessionType = Work | ShortBreak | LongBreak

  /** What the `tick` event carries to the frontend. */
  datatype TickPayload = TickPayload(remaining: U32, sessionType: SessionType)

  /** The minute-granularity view of the three configured durations. */
  datatype SettingsPayload = SettingsPayload(
    workDuration: U32,
    shortBreakDuration: U32,
    longBreakDuration: U32)

  /** The seven fields of the shared record; durations are in seconds. */
  datatype Snapshot = Snapshot(
    state: TimerState,
    sessionType: SessionType,
    remaining: U32,
    workSessionsCompleted: U32,
    workDuration: U32,
    shortBreakDuration: U32,
    longBreakDuration: U32)

  /** The configured length, in seconds, of the given phase. */
  function Duration(s: Snapshot, phase: SessionType): (d: U32)
  {
    match phase
    case Work => s.workDuration
    case ShortBreak => s.shortBreakDuration
    case LongBreak => s.longBreakDuration
  }

  /** The counter of completed work sessions stays below the long-break threshold. */
  predicate CounterInRange(s: Snapshot)
  {
    s.workSessionsCompleted < SESSIONS_PER_LONG_BREAK
  }

  /** `remaining` does not exceed the configured length of the current phase. */
  predicate WithinPhase(s: Snapshot)
  {
    s.remaining <= Duration(s, s.sessionType)
  }

  /** The three configured durations of `a` and `b` agree. */
  predicate SameDurations(a: Snapshot, b: Snapshot)
  {
    a.workDuration == b.workDuration &&
    a.shortBreakDuration == b.shortBreakDuration &&
    a.longBreakDuration == b.longBreakDuration
  }

  /** The payload describing `s` to the frontend. */
  function Payload(s: Snapshot): (p: TickPayload)
    ensures p.remaining == s.remaining && p.sessionType == s.sessionType
  {
    TickPayload(s.remaining, s.sessionType)
  }

  /** The record the application starts with: stopped at the beginning of a
      25-minute work phase, with 5- and 15-minute breaks. */
  function New(): (r: Snapshot)
    ensures r.state == Stopped && r.sessionType == Work
    ensures r.workSessionsCompleted == 0
    ensures r.workDuration == 1500 && r.shortBreakDuration == 300 && r.longBreakDuration == 900
    ensures r.remaining == r.workDuration
    ensures CounterInRange(r) && WithinPhase(r)
  {
    Snapshot(Stopped, Work, 25 * 60, 0, 25 * 60, 5 * 60, 15 * 60)
  }

  /** `start_timer`: the countdown runs; nothing else changes. */
  function Start(s: Snapshot): (r: Snapshot)
    ensures r.state == Running
    ensures r.(state := s.state) == s
  {
    s.(state := Running)
  }

  /** `stop_timer`: the countdown is frozen; nothing else changes. */
  function Stop(s: Snapshot): (r: Snapshot)
    ensures r.state == Stopped
    ensures r.(state := s.state) == s
  {
    s.(state := Stopped)
  }

  /** `pause_timer`: the countdown is frozen; nothing else changes. */
  function Pause(s: Snapshot): (r: Snapshot)
    ensures r.state == Paused
    ensures r.(state := s.state) == s
  {
    s.(state := Paused)
  }

  /** `reset_timer`: stop, and refill `remaining` with the configured length of
      the phase the timer is in (the phase itself is kept). */
  function Reset(s: Snapshot): (r: Snapshot)
    ensures r.state == Stopped
    ensures r.remaining == Duration(s, s.sessionType)
    ensures r.(state := s.state, remaining := s.remaining) == s
    ensures WithinPhase(r)
    ensures CounterInRange(s) ==> CounterInRange(r)
  {
    var stopped := s.(state := Stopped);
    match stopped.sessionType
    case Work => stopped.(remaining := stopped.workDuration, sessionType := Work)
    case ShortBreak => stopped.(remaining := stopped.shortBreakDuration, sessionType := ShortBreak)
    case LongBreak => stopped.(remaining := stopped.longBreakDuration, sessionType := LongBreak)
  }

  /** `get_setting`: each stored duration in whole minutes, rounded down. */
  function GetSetting(s: Snapshot): (r: SettingsPayload)
    ensures r.workDuration * SECONDS_PER_MINUTE <= s.workDuration
              < (r.workDuration + 1) * SECONDS_PER_MINUTE
    ensures r.shortBreakDuration * SECONDS_PER_MINUTE <= s.shortBreakDuration
              < (r.shortBreakDuration + 1) * SECONDS_PER_MINUTE
    ensures r.longBreakDuration * SECONDS_PER_MINUTE <= s.longBreakDuration
              < (r.longBreakDuration + 1) * SECONDS_PER_MINUTE
  {
    SettingsPayload(
      s.workDuration / SECONDS_PER_MINUTE,
      s.shortBreakDuration / SECONDS_PER_MINUTE,
      s.longBreakDuration / SECONDS_PER_MINUTE)
  }

  /** Every minute value of `p`, converted to seconds, fits in a `u32`. */
  predicate Representable(p: SettingsPayload)
  {
    p.workDuration * SECONDS_PER_MINUTE <= U32_MAX &&
    p.shortBreakDuration * SECONDS_PER_MINUTE <= U32_MAX &&
    p.longBreakDuration * SECONDS_PER_MINUTE <= U32_MAX
  }

  /** `update_setting`: store the three minute values as seconds. The state,
      phase, counter and `remaining` are left alone, so `remaining` is not
      clamped to the new length of the current phase. */
  function UpdateSetting(s: Snapshot, p: SettingsPayload): (r: Snapshot)
    requires Representable(p)
    ensures r.workDuration == p.workDuration * SECONDS_PER_MINUTE
    ensures r.shortBreakDuration == p.shortBreakDuration * SECONDS_PER_MINUTE
    ensures r.longBreakDuration == p.longBreakDuration * SECONDS_PER_MINUTE
    ensures r.state == s.state && r.sessionType == s.sessionType
    ensures r.remaining == s.remaining && r.workSessionsCompleted == s.workSessionsCompleted
  {
    s.(workDuration := p.workDuration * SECONDS_PER_MINUTE,
       shortBreakDuration := p.shortBreakDuration * SECONDS_PER_MINUTE,
       longBreakDuration := p.longBreakDuration * SECONDS_PER_MINUTE)
  }

  /** Start, stop, pause and reset are idempotent. */
  lemma CommandsIdempotent(s: Snapshot)
    ensures Start(Start(s)) == Start(s)
    ensures Stop(Stop(s)) == Stop(s)
    ensures Pause(Pause(s)) == Pause(s)
    ensures Reset(Reset(s)) == Reset(s)
  {
  }

  /** Seconds to minutes and back: reading the settings after writing them
      gives back exactly the minutes written. */
  lemma SettingsRoundTrip(s: Snapshot, p: SettingsPayload)
    requires Representable(p)
    ensures GetSetting(UpdateSetting(s, p)) == p
  {
  }

  /** Writing back the minutes just read leaves the record unchanged exactly when
      every stored duration is a whole number of minutes. */
  lemma SettingsRoundTripFromSeconds(s: Snapshot)
    ensures Representable(GetSetting(s))
    ensures UpdateSetting(s, GetSetting(s)) == s <==>
      (s.workDuration % SECONDS_PER_MINUTE == 0 &&
       s.shortBreakDuration % SECONDS_PER_MINUTE == 0 &&
       s.longBreakDuration % SECONDS_PER_MINUTE == 0)
  {
  }

  /** Changing the settings can leave `remaining` above the new length of the
      current phase: shortening work to 10 minutes right after start-up keeps
      1500 seconds on the clock. */
  lemma UpdateSettingMayLeavePhase()
    ensures WithinPhase(New())
    ensures !WithinPhase(UpdateSetting(New(), SettingsPayload(10, 5, 15)))
  {
  }
}
