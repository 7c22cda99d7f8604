/** One wake-up of the background scheduler, as a function on the record, and
    what follows from repeating it: the countdown, the phase transition rule,
    the invariants every tick keeps, and whole command histories.
 */
module Scheduler {
  import opened Timer

  /** The record after one tick, the payload to emit (if any) and the phase
      that just ended (if the tick was a phase boundary). */
  datatype TickOutcome = TickOutcome(
    after: Snapshot,
    payload: Option<TickPayload>,
    ended: Option<SessionType>)

  /** Title of the desktop notification fired when `ended` finishes. */
  function NotificationTitle(ended: SessionType): (t: string)
    ensures |t| > 3 && t[|t| - 3..] == "结束！"
  {
    match ended
    case Work => "工作结束！"
    case ShortBreak => "短休息结束！"
    case LongBreak => "长休息结束！"
  }

  /** Body of every phase-end notification. */
  const NOTIFICATION_BODY: string := "可以开始下一阶段了。"

  /** The phase transition rule, applied to a record whose phase has just run
      out: a work phase increments the counter and earns a long break on the
      fourth completion (which clears the counter), a short one otherwise; either
      break returns to work. The new phase starts with its full length. */
  function NextPhase(s: Snapshot): (r: Snapshot)
    requires s.workSessionsCompleted < U32_MAX
    ensures r.sessionType != s.sessionType
    ensures r.sessionType == Work <==> s.sessionType != Work
    ensures s.sessionType == Work ==>
      (r.sessionType == LongBreak <==> s.workSessionsCompleted + 1 >= SESSIONS_PER_LONG_BREAK)
    ensures r.sessionType == LongBreak ==> r.workSessionsCompleted == 0
    ensures r.sessionType == ShortBreak ==> r.workSessionsCompleted == s.workSessionsCompleted + 1
    ensures r.sessionType == Work ==> r.workSessionsCompleted == s.workSessionsCompleted
    ensures r.remaining == Duration(r, r.sessionType)
    ensures r.state == s.state && SameDurations(r, s)
  {
    match s.sessionType
    case Work =>
      var completed := s.workSessionsCompleted + 1;
      if completed >= SESSIONS_PER_LONG_BREAK then
        s.(sessionType := LongBreak, remaining := s.longBreakDuration, workSessionsCompleted := 0)
      else
        s.(sessionType := ShortBreak, remaining := s.shortBreakDuration, workSessionsCompleted := completed)
    case ShortBreak | LongBreak =>
      s.(sessionType := Work, remaining := s.workDuration)
  }

  /** One tick. A timer that is not running is left alone and nothing is
      emitted. A running timer with time left counts down one second and emits
      the new `remaining`. A running timer at zero stops, moves to the next phase
      and emits that phase's full length. The counter increment may not
      overflow. */
  function Tick(s: Snapshot): (r: TickOutcome)
    requires s.workSessionsCompleted < U32_MAX
    ensures s.state != Running ==> r == TickOutcome(s, None, None)
    ensures s.state == Running && s.remaining > 0 ==>
      r.after.remaining == s.remaining - 1 && r.after.(remaining := s.remaining) == s &&
      r.ended == None
    ensures s.state == Running && s.remaining == 0 ==>
      r.after.state == Stopped && r.ended == Some(s.sessionType) &&
      r.after.sessionType != s.sessionType &&
      r.after.remaining == Duration(r.after, r.after.sessionType)
    ensures s.state == Running ==> r.payload == Some(Payload(r.after))
    ensures SameDurations(r.after, s)
    ensures CounterInRange(s) ==> CounterInRange(r.after)
    ensures WithinPhase(s) ==> WithinPhase(r.after)
  {
    if s.state != Running then
      TickOutcome(s, None, None)
    else if s.remaining > 0 then
      var counted := s.(remaining := s.remaining - 1);
      TickOutcome(counted, Some(TickPayload(counted.remaining, counted.sessionType)), None)
    else
      var next := NextPhase(s.(state := Stopped));
      TickOutcome(next, Some(TickPayload(next.remaining, next.sessionType)), Some(s.sessionType))
  }

  /** The end of a work phase: the fourth completion goes to a long break and
      clears the counter, any earlier one goes to a short break and counts it. */
  lemma WorkPhaseEnds(s: Snapshot)
    requires s.state == Running && s.remaining == 0 && s.sessionType == Work
    requires CounterInRange(s)
    ensures Tick(s).after.sessionType == LongBreak <==> s.workSessionsCompleted == 3
    ensures Tick(s).after.sessionType == LongBreak ==>
      Tick(s).after.remaining == s.longBreakDuration && Tick(s).after.workSessionsCompleted == 0
    ensures Tick(s).after.sessionType != LongBreak ==>
      Tick(s).after.sessionType == ShortBreak &&
      Tick(s).after.remaining == s.shortBreakDuration &&
      Tick(s).after.workSessionsCompleted == s.workSessionsCompleted + 1
  {
  }

  /** The end of either break: back to a full work phase, counter untouched. */
  lemma BreakPhaseEnds(s: Snapshot)
    requires s.state == Running && s.remaining == 0 && s.sessionType != Work
    requires s.workSessionsCompleted < U32_MAX
    ensures Tick(s).after.sessionType == Work
    ensures Tick(s).after.remaining == s.workDuration
    ensures Tick(s).after.workSessionsCompleted == s.workSessionsCompleted
  {
  }

  /** The notification names the phase that ended, and different phases get
      different titles, while the payload describes the phase that begins. */
  lemma TitleNamesEndedPhase(s: Snapshot)
    requires s.state == Running && s.remaining == 0
    requires s.workSessionsCompleted < U32_MAX
    ensures Tick(s).ended == Some(s.sessionType)
    ensures forall a: SessionType, b: SessionType ::
      NotificationTitle(a) == NotificationTitle(b) ==> a == b
    ensures Tick(s).payload.value.sessionType == Tick(s).after.sessionType != s.sessionType
  {
  }

  /** The record after `n` consecutive ticks. */
  function Ticks(s: Snapshot, n: nat): (r: Snapshot)
    requires CounterInRange(s)
    ensures CounterInRange(r) && SameDurations(r, s)
    ensures WithinPhase(s) ==> WithinPhase(r)
  {
    if n == 0 then s else Tick(Ticks(s, n - 1)).after
  }

  /** While time is left, each tick takes exactly one second off and changes
      nothing else. */
  lemma {:induction false} Countdown(s: Snapshot, n: nat)
    requires s.state == Running && CounterInRange(s)
    requires n <= s.remaining
    ensures Ticks(s, n) == s.(remaining := s.remaining - n)
  {
    if n > 0 {
      Countdown(s, n - 1);
    }
  }

  /** A timer that is not running stays exactly as it is, however many ticks pass. */
  lemma {:induction false} FrozenUnlessRunning(s: Snapshot, n: nat)
    requires s.state != Running && CounterInRange(s)
    ensures Ticks(s, n) == s
  {
    if n > 0 {
      FrozenUnlessRunning(s, n - 1);
    }
  }

  /** After a pause or a stop, ticks leave `remaining` and the phase frozen. */
  lemma PauseAndStopFreeze(s: Snapshot, n: nat)
    requires CounterInRange(s)
    ensures Ticks(Pause(s), n) == Pause(s)
    ensures Ticks(Stop(s), n) == Stop(s)
  {
    FrozenUnlessRunning(Pause(s), n);
    FrozenUnlessRunning(Stop(s), n);
  }

  /** Start the timer and let it tick until the phase is over: `remaining`
      ticks to count down to zero and one more for the transition. */
  function CompletePhase(s: Snapshot): (r: Snapshot)
    requires CounterInRange(s)
    ensures CounterInRange(r)
  {
    Ticks(Start(s), s.remaining + 1)
  }

  /** A started phase reaches zero while still running, and the next tick is the
      phase transition, which stops the timer. */
  lemma {:induction false} PhaseRunsToTransition(s: Snapshot)
    requires CounterInRange(s)
    ensures Ticks(Start(s), s.remaining) == s.(state := Running, remaining := 0)
    ensures CompletePhase(s) == Tick(s.(state := Running, remaining := 0)).after
    ensures CompletePhase(s).state == Stopped
  {
    Countdown(Start(s), s.remaining);
  }

  /** From start-up, 1500 ticks after a start leave work running at zero; the
      1501st tick moves to a full short break with one session counted. */
  lemma FirstWorkSession()
    ensures Ticks(Start(New()), 1500) == New().(state := Running, remaining := 0)
    ensures CompletePhase(New()) == New().(
      state := Stopped, sessionType := ShortBreak, remaining := 300, workSessionsCompleted := 1)
  {
    PhaseRunsToTransition(New());
  }

  /** `CompletePhase` applied `k` times, restarting the timer each time. */
  function Phases(s: Snapshot, k: nat): (r: Snapshot)
    requires CounterInRange(s)
    ensures CounterInRange(r)
  {
    if k == 0 then s else CompletePhase(Phases(s, k - 1))
  }

  /** Starting each phase as soon as the previous one ends, the first three work
      sessions are followed by short breaks and the fourth by a long break,
      which clears the counter. */
  lemma {:induction false} FourthWorkSessionEarnsLongBreak()
    ensures Phases(New(), 1).sessionType == ShortBreak && Phases(New(), 1).workSessionsCompleted == 1
    ensures Phases(New(), 3).sessionType == ShortBreak && Phases(New(), 3).workSessionsCompleted == 2
    ensures Phases(New(), 5).sessionType == ShortBreak && Phases(New(), 5).workSessionsCompleted == 3
    ensures Phases(New(), 7) == New().(sessionType := LongBreak, remaining := 900)
  {
    var s0 := New();
    var work := s0;
    var short := s0.(sessionType := ShortBreak, remaining := 300);
    PhaseStep(s0, 1, work, short.(workSessionsCompleted := 1));
    PhaseStep(s0, 2, short.(workSessionsCompleted := 1), work.(workSessionsCompleted := 1));
    PhaseStep(s0, 3, work.(workSessionsCompleted := 1), short.(workSessionsCompleted := 2));
    PhaseStep(s0, 4, short.(workSessionsCompleted := 2), work.(workSessionsCompleted := 2));
    PhaseStep(s0, 5, work.(workSessionsCompleted := 2), short.(workSessionsCompleted := 3));
    PhaseStep(s0, 6, short.(workSessionsCompleted := 3), work.(workSessionsCompleted := 3));
    PhaseStep(s0, 7, work.(workSessionsCompleted := 3), s0.(sessionType := LongBreak, remaining := 900));
  }

  /** One step of `Phases`: if `k - 1` phases lead to `before`, and the transition
      of `before` is `after`, then `k` phases lead to `after`. */
  lemma PhaseStep(s: Snapshot, k: nat, before: Snapshot, after: Snapshot)
    requires CounterInRange(s) && k > 0 && CounterInRange(before)
    requires Phases(s, k - 1) == before
    requires Tick(before.(state := Running, remaining := 0)).after == after
    ensures Phases(s, k) == after
  {
    PhaseRunsToTransition(before);
  }

  /** An external command or a scheduler tick. */
  datatype Command =
    | StartTimer
    | StopTimer
    | PauseTimer
    | ResetTimer
    | ChangeSettings(settings: SettingsPayload)
    | SchedulerTick

  /** Every settings change in `cmds` fits in `u32` seconds. */
  predicate AllRepresentable(cmds: seq<Command>)
  {
    forall i :: 0 <= i < |cmds| && cmds[i].ChangeSettings? ==> Representable(cmds[i].settings)
  }

  /** The effect of one command on the record. */
  function Apply(s: Snapshot, c: Command): (r: Snapshot)
    requires CounterInRange(s)
    requires c.ChangeSettings? ==> Representable(c.settings)
    ensures CounterInRange(r)
    ensures !c.ChangeSettings? ==> SameDurations(r, s)
  {
    match c
    case StartTimer => Start(s)
    case StopTimer => Stop(s)
    case PauseTimer => Pause(s)
    case ResetTimer => Reset(s)
    case ChangeSettings(p) => UpdateSetting(s, p)
    case SchedulerTick => Tick(s).after
  }

  /** The record after the commands of `cmds`, in order. */
  function Run(s: Snapshot, cmds: seq<Command>): (r: Snapshot)
    requires CounterInRange(s) && AllRepresentable(cmds)
    ensures CounterInRange(r)
    decreases |cmds|
  {
    if cmds == [] then s
    else
      var prefix := cmds[..|cmds| - 1];
      assert AllRepresentable(prefix) by {
        forall i | 0 <= i < |prefix| && prefix[i].ChangeSettings?
          ensures Representable(prefix[i].settings)
        {
          assert prefix[i] == cmds[i];
        }
      }
      Apply(Run(s, prefix), cmds[|cmds| - 1])
  }

  /** Without settings changes, no command history ever leaves `remaining` above
      the length of the current phase, and the durations never change. */
  lemma {:induction false} WithinPhaseWithoutSettingChanges(s: Snapshot, cmds: seq<Command>)
    requires CounterInRange(s) && WithinPhase(s)
    requires forall i :: 0 <= i < |cmds| ==> !cmds[i].ChangeSettings?
    ensures AllRepresentable(cmds)
    ensures WithinPhase(Run(s, cmds)) && SameDurations(Run(s, cmds), s)
    decreases |cmds|
  {
    if cmds != [] {
      var prefix := cmds[..|cmds| - 1];
      assert forall i :: 0 <= i < |prefix| ==> prefix[i] == cmds[i];
      WithinPhaseWithoutSettingChanges(s, prefix);
    }
  }
}
