# Pomodoro timer state machine

A Dafny model of the timer engine of a Pomodoro desktop application. The
model covers the shared `PomodoroState` record, the six commands the frontend
invokes on it, and what the background scheduler does on each one-second
wake-up. The record holds a run state (Running, Paused, Stopped), a phase
(Work, ShortBreak, LongBreak), the seconds left in the phase, the number of
work sessions completed since the last long break, and the three configured
phase lengths in seconds.

Files:

- `timer.dfy`, module `Timer`: the types and the record as a value
  (`Snapshot`). `New` builds the start-up record and `GetSetting` reads it.
  The other commands (`Start`, `Stop`, `Pause`, `Reset` and `UpdateSetting`)
  map the record before them to the record after them. The module also proves
  idempotence and the minutes/seconds round trip.
- `scheduler.dfy`, module `Scheduler`: one scheduler wake-up as the function
  `Tick`. It gives the new record, the payload to emit and the phase that
  ended. The module also has the notification title, iterated ticks (`Ticks`),
  whole phases (`CompletePhase`, `Phases`) and interleavings of commands with
  ticks (`Run`). The lemmas cover the countdown, the transition rule, freezing
  while paused or stopped, the default work session and the long break after
  the fourth work session.
- `store.dfy`, module `TimerStore`: the class `PomodoroState`, which has the
  seven fields and updates them in place. It has one method per command and
  the method `Tick` for the scheduler's locked section. Each method is proved
  equal to the matching function, through `View()`. The predicate `Valid()`
  (counter below 4) is the class invariant: the constructor establishes it and
  every updating method requires and keeps it. The methods' own contracts use
  `old`, so the properties are proved about those functions.

The source's `u32` is the subset type `U32`. Overflow is handled explicitly in
two places:

- `update_setting` multiplies by 60. `UpdateSetting` therefore requires
  `Representable(p)`.
- The tick increments the counter. `Tick` therefore requires the counter to be
  below `U32_MAX`. `CounterInRange` (counter below 4) holds from `New()` on and
  is kept by every command and every tick, so the increment never overflows.

Timing and bounds that follow from the code:

- **A phase of `d` seconds takes `d + 1` ticks after a start.** The `d`-th
  tick brings `remaining` to 0 and the timer keeps running; the next tick
  performs the transition (`FirstWorkSession`, `PhaseRunsToTransition`).
- **A running timer with `remaining == 0` can be observed for one tick
  period**, by any command issued in that second (first ensures of
  `FirstWorkSession`).
- **`update_setting` can leave `remaining` above the new length of the current
  phase** (`UpdateSettingMayLeavePhase`). Every history without a settings
  change keeps `remaining` within the current phase's length
  (`WithinPhaseWithoutSettingChanges`).
- **`update_setting` accepts 0 minutes, so durations may be 0.** The model
  does not assume positive durations.

## Model

| member | source | states |
|---|---|---|
| Timer.New | src-tauri/src/timer/mod.rs:39-50 | start-up record is Stopped, Work, counter 0, durations 1500/300/900 s, `remaining` equal to the work duration; counter in range and `remaining` within the phase |
| Timer.Start | src-tauri/src/timer/mod.rs:63-71 | state becomes Running; every other field is unchanged |
| Timer.Stop | src-tauri/src/timer/mod.rs:73-78 | state becomes Stopped; every other field is unchanged |
| Timer.Pause | src-tauri/src/timer/mod.rs:80-85 | state becomes Paused; every other field is unchanged |
| Timer.Reset | src-tauri/src/timer/mod.rs:88-104 | state becomes Stopped; `remaining` becomes the configured length of the current phase; phase, counter and durations unchanged; afterwards `remaining` is within the phase |
| Timer.GetSetting | src-tauri/src/timer/mod.rs:117-123 | each returned minute value is the stored seconds rounded down to whole minutes (m*60 <= d < (m+1)*60) |
| Timer.UpdateSetting | src-tauri/src/timer/mod.rs:127-134 | durations become minutes times 60; state, phase, `remaining` and counter untouched (no clamping) |
| Timer.CommandsIdempotent | src-tauri/src/timer/mod.rs:63-104 | start, stop, pause and reset applied twice equal applied once |
| Timer.SettingsRoundTrip | src-tauri/src/timer/mod.rs:117-134 | reading the settings after writing minutes `p` gives back exactly `p` when each `p*60` fits in `u32` |
| Timer.SettingsRoundTripFromSeconds | src-tauri/src/timer/mod.rs:117-134 | writing back the minutes just read restores the record if and only if every stored duration is a whole number of minutes |
| Timer.UpdateSettingMayLeavePhase | src-tauri/src/timer/mod.rs:127-134 | after shortening work to 10 minutes at start-up, `remaining` (1500) exceeds the new work length |
| Scheduler.NotificationTitle | src-tauri/src/lib.rs:90-94 | every title announces that a phase has ended (it ends in "结束！"); `TitleNamesEndedPhase` proves that different ended phases get different titles |
| Scheduler.NextPhase | src-tauri/src/lib.rs:71-87 | the phase always changes; it becomes Work exactly when a break ended; after Work it becomes LongBreak exactly when the incremented counter reaches 4; LongBreak clears the counter, ShortBreak has it incremented, Work keeps it; the new phase starts with its full length; state and durations untouched |
| Scheduler.Tick | src-tauri/src/lib.rs:47-108 | not running: nothing changes, nothing emitted; running with time left: `remaining` drops by one, all else unchanged; running at 0: Stopped, phase changes, `remaining` is the new phase's full length, ended phase reported; payload always the new `remaining` and phase; durations never change; counter range and phase bound preserved |
| Scheduler.WorkPhaseEnds | src-tauri/src/lib.rs:72-81 | the end of a work phase gives LongBreak if and only if the counter was 3, then with the long-break length and counter 0; otherwise ShortBreak with its length and the counter incremented |
| Scheduler.BreakPhaseEnds | src-tauri/src/lib.rs:83-86 | the end of either break gives Work with the work length and the counter unchanged |
| Scheduler.TitleNamesEndedPhase | src-tauri/src/lib.rs:68-107 | the reported phase is the one that ended, distinct phases have distinct titles, and the payload carries the new phase, not the ended one |
| Scheduler.Ticks | src-tauri/src/lib.rs:42-119 | over any number of ticks the counter stays below 4, durations never change and `remaining` stays within the phase |
| Scheduler.Countdown | src-tauri/src/lib.rs:52-60 | `n` ticks of a running timer with at least `n` seconds left subtract exactly `n` and change nothing else |
| Scheduler.FrozenUnlessRunning | src-tauri/src/lib.rs:50-109 | any number of ticks leave a timer that is not running exactly as it was |
| Scheduler.PauseAndStopFreeze | src-tauri/src/lib.rs:50-109 | after a pause or a stop, any number of ticks change nothing, so `remaining` and the phase stay frozen |
| Scheduler.CompletePhase | src-tauri/src/lib.rs:52-87 | running a started phase to its end keeps the counter in range |
| Scheduler.PhaseRunsToTransition | src-tauri/src/lib.rs:52-87 | after a start, `remaining` ticks reach 0 while Running, the next tick is the transition, and it leaves the timer Stopped |
| Scheduler.FirstWorkSession | src-tauri/src/lib.rs:52-81 | from start-up and a start, 1500 ticks leave Work running at 0, and one more lands in ShortBreak, Stopped, 300 s, counter 1 |
| Scheduler.FourthWorkSessionEarnsLongBreak | src-tauri/src/lib.rs:72-86 | the first three work phases end in short breaks (counters 1, 2, 3), and the fourth ends in a long break of 900 s with counter 0 |
| Scheduler.Run | src-tauri/src/lib.rs:41-119 | any interleaving of commands and ticks keeps the counter below 4, so the increment never overflows |
| Scheduler.WithinPhaseWithoutSettingChanges | src-tauri/src/lib.rs:73-86 | with no settings change, every history keeps `remaining` within the current phase's length and the durations unchanged |
| TimerStore.PomodoroState.constructor | src-tauri/src/timer/mod.rs:39-50 | the fields are those of `New()`, and the class invariant `Valid()` holds |
| TimerStore.PomodoroState.StartTimer | src-tauri/src/timer/mod.rs:63-71 | state is Running and the record is `Start` of the old record |
| TimerStore.PomodoroState.StopTimer | src-tauri/src/timer/mod.rs:73-78 | state is Stopped and the record is `Stop` of the old record |
| TimerStore.PomodoroState.PauseTimer | src-tauri/src/timer/mod.rs:80-85 | state is Paused and the record is `Pause` of the old record |
| TimerStore.PomodoroState.ResetTimer | src-tauri/src/timer/mod.rs:88-113 | the record is `Reset` of the old record and the returned payload is the new `remaining` and phase |
| TimerStore.PomodoroState.GetSetting | src-tauri/src/timer/mod.rs:117-123 | returns `GetSetting` of the record and changes nothing |
| TimerStore.PomodoroState.UpdateSetting | src-tauri/src/timer/mod.rs:127-134 | the record is `UpdateSetting` of the old record |
| TimerStore.PomodoroState.Tick | src-tauri/src/lib.rs:45-108 | keeps `Valid()`; the new record, the payload and the ended phase are exactly `Scheduler.Tick` of the old record; at a phase end the title is the ended phase's notification title and the body is the fixed `NOTIFICATION_BODY` |

## Left out

- The background thread, its infinite loop and the one-second sleep are left
  out. One tick is one atomic step; `Ticks` and `Run` stand for sequences of
  steps.
- The `Arc<Mutex<…>>`, `lock().unwrap()` and lock poisoning are left out.
  Every command and tick runs as one whole step on the record.
- `app_handle.emit` and the notification builder's `show()` are foreign calls.
  They are modelled only as the values `Tick` returns: the payload, the ended
  phase, the title, and the body, which is the constant `NOTIFICATION_BODY`. Their failures (`unwrap` on
  the result) are not modelled.
- The Tauri builder, plugins, command registration and the mobile entry point
  are framework wiring and are left out. So are `println!` logging and the
  serde derives.
- UpdateSetting: requires each minute value times 60 to fit in `u32`. For
  larger values the source panics (debug build) or wraps around (release
  build). That overflow path is not modelled.
- Tick: `Scheduler.Tick` requires the counter to be below `U32_MAX`, because
  the source's increment would overflow there. The class method requires
  `Valid()` (counter below 4) instead. Both hold from the initial record on
  (`Run`, `CounterInRange`).
