/** The single shared `PomodoroState` record and the operations that update it
    in place: the six commands the frontend invokes and the body of one
    scheduler wake-up. Each operation runs while holding the record's lock, so
    each is one sequential step here; every method is proved against the
    function of the same operation in modules Timer and Scheduler.
 */
module TimerStore {
  import opened Timer
  import Scheduler

  class PomodoroState {
    var state: TimerState
    var sessionType: SessionType
    var remaining: U32
    var workSessionsCompleted: U32
    var workDuration: U32
    var shortBreakDuration: U32
    var longBreakDuration: U32

    /** The current content of the record, as a value. */
    function View(): (v: Snapshot)
      reads this
    {
      Snapshot(state, sessionType, remaining, workSessionsCompleted,
               workDuration, shortBreakDuration, longBreakDuration)
    }

    /** The object invariant: the counter of completed work sessions stays
        below the long-break threshold, so incrementing it never overflows. */
    predicate Valid()
      reads this
    {
      CounterInRange(View())
    }

    /** `PomodoroState::new`. */
    constructor ()
      ensures Valid() && View() == New()
    {
      state := Stopped;
      sessionType := Work;
      remaining := 25 * 60;
      workSessionsCompleted := 0;
      workDuration := 25 * 60;
      shortBreakDuration := 5 * 60;
      longBreakDuration := 15 * 60;
    }

    /** `start_timer`. */
    method StartTimer()
      requires Valid()
      modifies this
      ensures Valid()
      ensures state == Running
      ensures View() == Start(old(View()))
    {
      state := Running;
    }

    /** `stop_timer`. */
    method StopTimer()
      requires Valid()
      modifies this
      ensures Valid()
      ensures state == Stopped
      ensures View() == Stop(old(View()))
    {
      state := Stopped;
    }

    /** `pause_timer`. */
    method PauseTimer()
      requires Valid()
      modifies this
      ensures Valid()
      ensures state == Paused
      ensures View() == Pause(old(View()))
    {
      state := Paused;
    }

    /** `reset_timer`: returns the payload it emits, which describes the record
        after the reset. */
    method ResetTimer() returns (payload: TickPayload)
      requires Valid()
      modifies this
      ensures Valid()
      ensures View() == Reset(old(View()))
      ensures payload == Payload(View())
    {
      state := Stopped;
      match sessionType {
        case Work =>
          remaining := workDuration;
          sessionType := Work;
        case ShortBreak =>
          remaining := shortBreakDuration;
          sessionType := ShortBreak;
        case LongBreak =>
          remaining := longBreakDuration;
          sessionType := LongBreak;
      }
      payload := TickPayload(remaining, sessionType);
    }

    /** `get_setting`: reads the durations in minutes and changes nothing. */
    method GetSetting() returns (settings: SettingsPayload)
      ensures settings == Timer.GetSetting(View())
    {
      settings := SettingsPayload(
        workDuration / SECONDS_PER_MINUTE,
        shortBreakDuration / SECONDS_PER_MINUTE,
        longBreakDuration / SECONDS_PER_MINUTE);
    }

    /** `update_setting`: the minute values must fit in `u32` once converted. */
    method UpdateSetting(settings: SettingsPayload)
      requires Valid() && Representable(settings)
      modifies this
      ensures Valid()
      ensures View() == Timer.UpdateSetting(old(View()), settings)
    {
      workDuration := settings.workDuration * SECONDS_PER_MINUTE;
      shortBreakDuration := settings.shortBreakDuration * SECONDS_PER_MINUTE;
      longBreakDuration := settings.longBreakDuration * SECONDS_PER_MINUTE;
    }

    /** One wake-up of the background scheduler, while it holds the lock.
        Returns the payload to emit once the lock is released, the phase that
        ended (if any), and the title and body of the notification for it. */
    method Tick() returns (payload: Option<TickPayload>, endedSession: Option<SessionType>,
                           title: Option<string>, body: Option<string>)
      requires Valid()
      modifies this
      ensures Valid()
      ensures Scheduler.Tick(old(View())) == Scheduler.TickOutcome(View(), payload, endedSession)
      ensures title == if endedSession.Some? then Some(Scheduler.NotificationTitle(endedSession.value))
                       else None
      ensures body == if endedSession.Some? then Some(Scheduler.NOTIFICATION_BODY) else None
    {
      payload, endedSession, title, body := None, None, None, None;
      if state == Running {
        if remaining > 0 {
          remaining := remaining - 1;
          payload := Some(TickPayload(remaining, sessionType));
        } else {
          state := Stopped;
          var ended := sessionType;
          match ended {
            case Work =>
              workSessionsCompleted := workSessionsCompleted + 1;
              if workSessionsCompleted >= SESSIONS_PER_LONG_BREAK {
                sessionType := LongBreak;
                remaining := longBreakDuration;
                workSessionsCompleted := 0;
              } else {
                sessionType := ShortBreak;
                remaining := shortBreakDuration;
              }
            case ShortBreak | LongBreak =>
              sessionType := Work;
              remaining := workDuration;
          }
          title := Some(Scheduler.NotificationTitle(ended));
          body := Some(Scheduler.NOTIFICATION_BODY);
          endedSession := Some(ended);
          payload := Some(TickPayload(remaining, sessionType));
        }
      }
    }
  }
}
