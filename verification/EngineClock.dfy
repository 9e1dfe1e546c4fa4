/** The match clock over whole runs: no time is made or lost but what a late
    tick drops at a boundary, and a pause freezes it unless an interval has
    leaked. */
module EngineClock {
  import opened Field
  import opened EngineState
  import opened EngineSafety
  import opened EngineMark

  // ── How long a match is ───────────────────────────────────────────

  ghost predicate WellTimed(c: Config) {
    && 0.0 <= c.autoDuration && 0.0 <= c.pauseDuration && 0.0 <= c.endgameDuration < c.teleopDuration
    && (c.autoWinner.AskReferee? ==> c.pauseDuration > 0.0)
  }

  lemma EveryConfigWellTimed(request: Request)
    ensures WellTimed(ConfigFor(request)) && WellTimed(OFFICIAL)
  {
  }

  predicate RunsAuto(c: Config) { !c.skipAuto && c.autoDuration > 0.0 }

  /** Nominal time from the start of the countdown to the end of `phase`. */
  function Granted(c: Config, phase: Phase): real {
    match phase
    case Countdown => COUNTDOWN_SECONDS
    case Auto => COUNTDOWN_SECONDS + c.autoDuration
    case AutoPause => COUNTDOWN_SECONDS + c.autoDuration + c.pauseDuration
    case _ => COUNTDOWN_SECONDS + (if RunsAuto(c) then c.autoDuration + c.pauseDuration else 0.0) + c.teleopDuration
  }

  /** Boundaries passed by the time `phase` begins. */
  function Passed(c: Config, phase: Phase): nat {
    match phase
    case Countdown => 0
    case Auto => 1
    case AutoPause => 2
    case _ => if !RunsAuto(c) then 1 else if c.pauseDuration > 0.0 then 3 else 2
  }

  /** The phase a paused match is in is the one it was paused in. */
  function Effective(e: Engine): Phase {
    if e.phase.Paused? && e.prePause.Some? then e.prePause.value else e.phase
  }

  // ── The invariant ─────────────────────────────────────────────────

  ghost predicate Configured(e: Engine) {
    && WellTimed(e.pending) && (e.config.Some? ==> WellTimed(e.config.value))
    && (Active(e.phase) ==> e.config.Some?)
    && (e.phase.Paused? ==> e.prePause.Some? && Running(e.prePause.value) && !e.clock.ticking)
  }

  /** Time played and time left are what the phases granted, plus what the
      boundaries dropped. */
  ghost predicate Conserved(c: Config, phase: Phase, k: Clock) { k.total + k.remaining == Granted(c, phase) + k.dropped }

  /** Each boundary drops at least nothing and less than one tick. */
  ghost predicate DropBounded(k: Clock) {
    && 0.0 <= k.longest && 0.0 <= k.dropped
    && (k.expiries == 0 ==> k.dropped == 0.0)
    && (k.expiries > 0 ==> k.dropped < k.expiries as real * k.longest)
  }

  ghost predicate OnTime(c: Config, phase: Phase, k: Clock) {
    && DropBounded(k) && k.expiries == Passed(c, phase) && k.remaining > 0.0
    && (phase.Auto? || phase.AutoPause? ==> RunsAuto(c)) && (phase.AutoPause? ==> c.pauseDuration > 0.0)
    && (phase.Teleop? ==> k.remaining > c.endgameDuration)
  }

  ghost predicate InTime(e: Engine) {
    && Configured(e)
    && (Active(e.phase) ==> Conserved(e.config.value, Effective(e), e.clock) && 0.0 <= e.clock.longest)
    && (Active(e.phase) && (Effective(e).Auto? || Effective(e).AutoPause?) ==> RunsAuto(e.config.value))
    && (Active(e.phase) && e.clock.leaked == 0 ==> OnTime(e.config.value, Effective(e), e.clock))
  }

  /** `now` is the time of the last step. */
  ghost predicate Clocked(e: Engine, now: int) { InTime(e) && e.clock.lastTick <= now }

  // ── Steps that do not move the clock ──────────────────────────────

  ghost predicate SameTime(e: Engine, e': Engine) {
    e'.phase == e.phase && e'.prePause == e.prePause && e'.config == e.config && e'.pending == e.pending && e'.clock == e.clock
  }

  /** The match is over before its time. */
  ghost predicate Over(e: Engine, e': Engine) {
    && e'.phase.PostMatch? && e'.config == e.config && e'.pending == e.pending
    && e'.clock == e.clock.(remaining := e'.clock.remaining, ticking := e'.clock.ticking)
  }

  ghost predicate SameOrOver(e: Engine, e': Engine) { SameTime(e, e') || (Active(e.phase) && Over(e, e')) }

  lemma SameOrOverClocked(e: Engine, e': Engine, now: int, later: int)
    requires Clocked(e, now) && now <= later && SameOrOver(e, e')
    ensures Clocked(e', later)
    ensures e'.clock.leaked == e.clock.leaked
  {
  }

  lemma BroadcastSame(env: Env, e: Engine)
    ensures SameTime(e, Broadcast(env, e)) && SameTime(e, e)
  {
  }

  lemma Told(env: Env, e: Engine, e': Engine)
    requires SameOrOver(e, e')
    ensures SameOrOver(e, Broadcast(env, e')) && SameOrOver(e, e)
  {
  }

  lemma SlotsSame(env: Env, e: Engine, s: Station, a: Alliance)
    ensures SameOrOver(e, Join(env, e, s, a))
    ensures SameOrOver(e, SwapAlliance(env, e, s))
    ensures SameOrOver(e, Kick(env, e, s))
  {
    hide Broadcast, SameOrOver, Full;
    PutTold(env, e, s, e.st[s].(joined := true, alliance := Some(a)));
    PutTold(env, e, s, e.st[s].(alliance := Some(a)));
    PutTold(env, e, s, Left(e.st[s]));
    if e.st[s].alliance.Some? {
      PutTold(env, e, s, e.st[s].(alliance := Some(Other(e.st[s].alliance.value))));
    }
  }

  lemma PutTold(env: Env, e: Engine, s: Station, c: Control)
    ensures SameOrOver(e, Broadcast(env, Put(e, s, c))) && SameOrOver(e, e)
  {
  }

  lemma ReconcileSame(env: Env, e: Engine, changed: set<Station>)
    ensures SameOrOver(e, Reconcile(env, e, changed))
  {
  }

  lemma PressSame(env: Env, e: Engine, s: Station)
    ensures SameOrOver(e, StationEStop(env, e, s))
    ensures SameOrOver(e, StationAStop(env, e, s))
    ensures SameOrOver(e, ClearAStop(env, e, s))
  {
    hide Broadcast, CanAStop, SameOrOver;
    PutTold(env, e, s, e.st[s].(eStop := true, enabled := false));
    PutTold(env, e, s, e.st[s].(aStop := true, enabled := false));
    PutTold(env, e, s, e.st[s].(aStop := false));
  }

  lemma LiftSame(env: Env, e: Engine, s: Station)
    ensures SameOrOver(e, ClearFieldEStop(env, e))
    ensures SameOrOver(e, ClearEStop(env, e, s))
    ensures SameOrOver(e, ClearAllEStops(env, e))
  {
    hide Broadcast, SameOrOver, Lifting;
    LiftingTold(env, e, e.(latch := false));
    LiftingTold(env, e, Put(e, s, e.st[s].(eStop := false)));
    LiftingTold(env, e, e.(latch := false, st := map x: Station | x in e.st :: e.st[x].(eStop := false)));
  }

  lemma LiftingTold(env: Env, e: Engine, e': Engine)
    requires SameTime(e, e')
    ensures SameOrOver(e, Broadcast(env, Lifting(e, e'))) && SameOrOver(e, e)
  {
  }

  lemma FieldSame(env: Env, e: Engine)
    ensures SameOrOver(e, FieldEStop(env, e))
  {
  }

  lemma CourseSame(env: Env, e: Engine)
    ensures SameOrOver(e, StopMatch(env, e))
    ensures SameOrOver(e, ResumeMatch(env, e))
    ensures SameOrOver(e, Broadcast(env, e))
  {
  }

  // ── Steps that may end the run ────────────────────────────────────

  lemma ThenSame(e: Engine, mid: Engine, e': Engine)
    requires SameTime(e, mid) && SameOrOver(mid, e')
    ensures SameOrOver(e, e')
  {
  }

  lemma EveryoneFinishedSame(env: Env, e: Engine)
    requires Running(e.phase)
    ensures SameOrOver(e, EndRunIfEveryoneFinished(env, e))
  {
  }

  lemma DepartedSame(e: Engine, s: Station)
    ensures SameTime(e, Departed(e, s))
  {
  }

  lemma LeaveSame(env: Env, e: Engine, s: Station)
    ensures SameOrOver(e, Leave(env, e, s))
  {
    hide Broadcast, EndRunIfEveryoneFinished, AnyJoined, Departed, SameOrOver, EndNow;
    DepartedTold(env, e, s);
    if Running(e.phase) {
      DepartedSame(e, s);
      EveryoneFinishedSame(env, Departed(e, s));
      ThenSame(e, Departed(e, s), EndRunIfEveryoneFinished(env, Departed(e, s)));
    }
  }

  lemma DepartedTold(env: Env, e: Engine, s: Station)
    ensures SameOrOver(e, Broadcast(env, Departed(e, s))) && SameOrOver(e, e)
    ensures Active(e.phase) ==> SameOrOver(e, Broadcast(env, EndNow(Departed(e, s))))
  {
  }

  lemma FinishSame(env: Env, e: Engine, a: Alliance, elapsed: real, cause: Disabler)
    requires Running(e.phase)
    ensures SameOrOver(e, RecordFinish(env, e, a, elapsed, cause))
  {
  }

  lemma ChallengeSame(env: Env, e: Engine, a: Alliance)
    ensures SameOrOver(e, ChallengeFinish(env, e, a))
  {
    hide RecordFinish, Takes;
    if CanFinish(e, a) {
      FinishSame(env, e, a, RunElapsed(e), ByAdmin);
    }
  }

  lemma LegDoneSame(e: Engine, a: Alliance)
    ensures SameTime(e, LegDone(e, a))
  {
  }

  lemma EnableStationSame(env: Env, e: Engine, s: Station, mode: Mode)
    ensures SameTime(e, EnableStation(env, e, s, mode))
  {
  }

  lemma RelaySame(env: Env, e: Engine, a: Alliance)
    ensures SameOrOver(e, RelayAdvance(env, e, a))
  {
    hide RecordFinish, Takes, LegDone, EnableStation, Broadcast, Runner, RunElapsed, Finished;
    if FmsHandoff(e.config) && CanFinish(e, a) {
      LegDoneSame(e, a);
      var home := LegDone(e, a);
      FinishSame(env, home, a, RunElapsed(e), ByRelay);
      ThenSame(e, home, RecordFinish(env, home, a, RunElapsed(e), ByRelay));
      if Runner(home, a).Some? {
        EnableStationSame(env, home, Runner(home, a).value, TeleOpMode);
        Told(env, e, EnableStation(env, home, Runner(home, a).value, TeleOpMode));
      }
    }
  }

  lemma HandoffSame(env: Env, e: Engine, s: Station)
    ensures SameOrOver(e, HandoffFromDisable(env, e, s))
  {
    hide RelayAdvance, Runner;
    if e.st[s].alliance.Some? {
      RelaySame(env, e, e.st[s].alliance.value);
    }
  }

  lemma DownHandoffSame(env: Env, e: Engine, s: Station, cause: Disabler)
    ensures SameOrOver(e, Broadcast(env, HeldDown(e, s, cause)))
    ensures SameOrOver(e, HandoffFromDisable(env, Broadcast(env, HeldDown(e, s, cause)), s))
  {
    hide Broadcast, HandoffFromDisable;
    var down := Broadcast(env, HeldDown(e, s, cause));
    BroadcastSame(env, HeldDown(e, s, cause));
    HandoffSame(env, down, s);
    ThenSame(e, down, HandoffFromDisable(env, down, s));
  }

  lemma DisableSame(env: Env, e: Engine, s: Station, self: bool)
    ensures SameOrOver(e, Disable(env, e, s, self))
  {
    hide Broadcast, HandoffFromDisable, HeldDown, SameOrOver;
    DownHandoffSame(env, e, s, if self then BySelf else ByAdmin);
  }

  lemma UndisableSame(env: Env, e: Engine, s: Station, byAdmin: bool)
    ensures SameTime(e, Undisable(env, e, s, byAdmin))
  {
  }

  lemma HeartbeatSame(env: Env, e: Engine, s: Station, enabled: bool)
    ensures SameTime(e, NoteHeartbeat(env, e, s, enabled))
  {
    hide Broadcast, Undisable, Attached;
    var h := if enabled then e.heard.(enabledSeen := e.heard.enabledSeen + {s}) else e.heard;
    var e' := e.(heard := h.(heartbeat := h.heartbeat[s := env.now]));
    BroadcastSame(env, e');
    UndisableSame(env, e', s, false);
    BroadcastSame(env, Undisable(env, e', s, false));
  }

  lemma StatusSame(env: Env, e: Engine, s: Station, status: Status)
    ensures SameOrOver(e, DsStatus(env, e, s, status))
  {
    hide NoteHeartbeat, HonourStatus;
    HeartbeatSame(env, e, s, status.enabled);
    HonourSame(env, NoteHeartbeat(env, e, s, status.enabled), s, status);
    ThenSame(e, NoteHeartbeat(env, e, s, status.enabled), DsStatus(env, e, s, status));
  }

  lemma HonourSame(env: Env, e: Engine, s: Station, status: Status)
    ensures SameOrOver(e, HonourStatus(env, e, s, status))
  {
    hide Broadcast, HandoffFromDisable, HeldDown, DriverDisabled, ReportsAStop, ReportsEStop, Put, SameOrOver;
    DownHandoffSame(env, e, s, ByDs);
    PutTold(env, e, s, e.st[s].(eStop := true, enabled := false));
    PutTold(env, e, s, e.st[s].(aStop := true, enabled := false));
  }

  lemma ControlSame(env: Env, e: Engine, s: Station, enabled: Option<bool>)
    ensures SameOrOver(e, NoteControl(env, e, s, enabled))
  {
    hide Broadcast;
    var e' := e.(heard := e.heard.(control := e.heard.control[s := DsControl(env.now, enabled)]));
    BroadcastSame(env, e');
    BroadcastSame(env, e'.(stops := e'.stops.(waits := e'.stops.waits + {s})));
  }

  // ── Steps that set the clock ──────────────────────────────────────

  lemma ResetClocked(env: Env, e: Engine, now: int)
    requires Clocked(e, now) && now <= env.now
    ensures Clocked(CreateMatch(env, e), env.now) && CreateMatch(env, e).clock.leaked == e.clock.leaked
    ensures Clocked(CancelMatch(env, e), env.now) && CancelMatch(env, e).clock.leaked == e.clock.leaked
    ensures Clocked(ClearMatch(env, e), env.now) && ClearMatch(env, e).clock.leaked == e.clock.leaked
  {
    hide Broadcast, Conserved, OnTime;
    BroadcastSame(env, SetUp(e));
    BroadcastSame(env, e.(st := Unjoined(e.st), phase := Idle));
    BroadcastSame(env, Cleared(e));
  }

  lemma ConfigClocked(env: Env, e: Engine, request: Request, now: int)
    requires Clocked(e, now) && now <= env.now
    ensures Clocked(UpdateConfig(env, e, request), env.now) && UpdateConfig(env, e, request).clock.leaked == e.clock.leaked
  {
  }

  lemma StartClocked(env: Env, e: Engine, gates: bool, now: int)
    requires Clocked(e, now) && now <= env.now
    ensures Clocked(StartMatch(env, e, gates), env.now)
    ensures StartMatch(env, e, gates).clock.leaked == e.clock.leaked + if Starts(e, gates) && e.clock.ticking then 1 else 0
  {
  }

  lemma NotActiveStarts(e: Engine, gates: bool)
    ensures Starts(e, gates) ==> e.phase.Created?
  {
  }

  lemma AbortClocked(env: Env, e: Engine, now: int)
    requires Clocked(e, now) && now <= env.now
    ensures Clocked(AbortCountdown(env, e), env.now) && AbortCountdown(env, e).clock.leaked == e.clock.leaked
  {
  }

  /** Stopping and starting the tick leaves the time as it was. */
  ghost predicate SameHands(k: Clock, k': Clock) {
    k' == k.(lastTick := k'.lastTick, ticking := k'.ticking)
  }

  lemma HandsKeep(c: Config, phase: Phase, k: Clock, k': Clock)
    requires SameHands(k, k')
    ensures Conserved(c, phase, k') == Conserved(c, phase, k) && OnTime(c, phase, k') == OnTime(c, phase, k)
  {
  }

  lemma PauseClocked(env: Env, e: Engine, now: int)
    requires Clocked(e, now) && now <= env.now
    ensures Clocked(PauseMatch(env, e), env.now) && PauseMatch(env, e).clock.leaked == e.clock.leaked
  {
    hide Broadcast, Conserved, OnTime;
    if Running(e.phase) {
      HandsKeep(e.config.value, e.phase, e.clock, StopTick(e.clock));
    }
    BroadcastSame(env, e.(resuming := false));
    BroadcastSame(env, OnHold(e));
  }

  lemma ResumeClocked(env: Env, e: Engine, now: int)
    requires Clocked(e, now) && now <= env.now
    ensures Clocked(CompleteResume(env, e), env.now) && CompleteResume(env, e).clock.leaked == e.clock.leaked
  {
    hide Broadcast, EnableParticipating, Conserved, OnTime;
    if e.phase.Paused? {
      var phase := e.prePause.value;
      var mode := if phase.Auto? then AutoMode else TeleOpMode;
      var back := e.(resuming := false, phase := phase, prePause := None);
      ParticipatingRest(env, back, mode);
      var live := EnableParticipating(env, back, mode);
      HandsKeep(e.config.value, phase, e.clock, StartTick(e.clock, env.now));
      BroadcastSame(env, live.(clock := StartTick(live.clock, env.now)));
    }
  }

  predicate WinnerRestarts(e: Engine) { e.phase.AutoPause? && e.config.Some? && e.config.value.autoWinner.AskReferee? }

  lemma WinnerClocked(env: Env, e: Engine, a: Alliance, now: int)
    requires Clocked(e, now) && now <= env.now
    ensures Clocked(SetWinner(env, e, a), env.now)
    ensures SetWinner(env, e, a).clock.leaked == e.clock.leaked + if WinnerRestarts(e) && e.clock.ticking then 1 else 0
  {
    hide Broadcast;
    var e' := e.(winner := Some(a));
    BroadcastSame(env, e');
    BroadcastSame(env, e'.(clock := StartTick(e.clock, env.now)));
  }

  // ── The tick ──────────────────────────────────────────────────────

  /** The clock `d` seconds later. */
  ghost predicate Later(k: Clock, k': Clock, d: real) {
    && 0.0 <= d && k'.remaining == k.remaining - d && k'.total == k.total + d
    && k'.dropped == k.dropped && k'.expiries == k.expiries && k'.leaked == k.leaked && k'.ticking == k.ticking
    && k.longest <= k'.longest && d <= k'.longest
  }

  /** A boundary drops the overshoot of one tick. */
  lemma BoundaryBounded(k: Clock, k': Clock, d: real, duration: real)
    requires DropBounded(k) && k.remaining > 0.0 && Later(k, k', d) && k'.remaining <= 0.0
    ensures DropBounded(Expired(k', duration)) && Expired(k', duration).expiries == k.expiries + 1
  {
  }

  /** The state of the clock just after the tick has moved it on, before the
      phases are looked at. */
  ghost predicate Due(e: Engine, k: Clock, d: real) {
    && Configured(e) && Active(e.phase) && Conserved(e.config.value, Effective(e), e.clock)
    && Later(k, e.clock, d) && (e.phase.Paused? ==> e.clock.leaked > 0)
    && (Effective(e).Auto? || Effective(e).AutoPause? ==> RunsAuto(e.config.value))
    && (e.clock.leaked == 0 ==> OnTime(e.config.value, Effective(e), k))
  }

  lemma StillRunning(e: Engine, k: Clock, d: real)
    requires Due(e, k, d) && e.clock.remaining > 0.0
    ensures InTime(if e.phase.Teleop? && e.clock.remaining <= e.config.value.endgameDuration then e.(phase := Endgame) else e)
  {
  }

  lemma IntoTeleop(env: Env, e: Engine, k: Clock, d: real)
    requires Due(e, k, d) && e.clock.remaining <= 0.0
    requires e.phase.AutoPause? || (e.phase.Countdown? && !RunsAuto(e.config.value))
             || (e.phase.Auto? && e.config.value.pauseDuration == 0.0)
    ensures InTime(EnterTeleop(env, e))
    ensures EnterTeleop(env, e).clock.lastTick == e.clock.lastTick && EnterTeleop(env, e).clock.leaked == e.clock.leaked
  {
  }

  lemma IntoAuto(env: Env, e: Engine, k: Clock, d: real, startedAt: Option<real>)
    requires Due(e, k, d) && e.clock.remaining <= 0.0 && e.phase.Countdown? && RunsAuto(e.config.value)
    ensures var live := e.(runStartedAt := startedAt, phase := Auto, clock := Expired(e.clock, e.config.value.autoDuration));
            var e' := EnableParticipating(env, live, AutoMode);
            InTime(e') && e'.clock.lastTick == e.clock.lastTick && e'.clock.leaked == e.clock.leaked
  {
  }

  lemma IntoPause(e: Engine, k: Clock, d: real, ticking: bool)
    requires Due(e, k, d) && e.clock.remaining <= 0.0 && e.phase.Auto? && e.config.value.pauseDuration > 0.0
    ensures var e' := e.(phase := AutoPause, st := DisabledAll(e.st),
                         clock := Expired(e.clock, e.config.value.pauseDuration).(ticking := ticking));
            InTime(e')
  {
  }

  lemma ExpiredClocked(env: Env, e: Engine, k: Clock, d: real, pick: Alliance)
    requires Due(e, k, d) && e.clock.remaining <= 0.0
    ensures var e' := PhaseExpired(env, e, pick);
            InTime(e') && e'.clock.lastTick == e.clock.lastTick && e'.clock.leaked == e.clock.leaked
  {
    hide EnterTeleop, EnableParticipating, Conserved, OnTime, AutoWinner;
    var c := e.config.value;
    match e.phase
    case Countdown =>
      var started := e.(runStartedAt := Some(e.clock.total));
      SameDue(e, started, k, d);
      if !RunsAuto(c) {
        IntoTeleop(env, started, k, d);
      } else {
        IntoAuto(env, e, k, d, Some(e.clock.total));
      }
    case Auto =>
      if c.pauseDuration > 0.0 {
        IntoPause(e, k, d, e.clock.ticking);
        IntoPause(e, k, d, false);
      } else {
        var won := e.(winner := AutoWinner(c, e.winner, pick));
        SameDue(e, won, k, d);
        IntoTeleop(env, won, k, d);
      }
    case AutoPause =>
      var won := e.(winner := AutoWinner(c, e.winner, pick));
      SameDue(e, won, k, d);
      IntoTeleop(env, won, k, d);
    case _ =>
  }

  lemma SameDue(e: Engine, e': Engine, k: Clock, d: real)
    requires Due(e, k, d) && SameTime(e, e')
    ensures Due(e', k, d)
  {
  }

  lemma ReleasedInTime(env: Env, e: Engine)
    requires InTime(e) && e.phase.PostMatch?
    ensures var e' := Broadcast(env, Released(e));
            InTime(e') && e'.clock.lastTick == e.clock.lastTick && e'.clock.leaked == e.clock.leaked
  {
  }

  lemma TransitionClocked(env: Env, e: Engine, k: Clock, d: real, pick: Alliance)
    requires Configured(e)
    requires if Active(e.phase) then Due(e, k, d) else InTime(e)
    ensures var e' := Transition(env, e, pick);
            InTime(e') && e'.clock.lastTick == e.clock.lastTick && e'.clock.leaked == e.clock.leaked
  {
    hide Broadcast, PhaseExpired, InTime, Due, Conserved, OnTime;
    if e.config.Some? {
      if e.phase.PostMatch? {
        ReleasedInTime(env, e);
      } else if Active(e.phase) {
        if e.clock.remaining > 0.0 {
          StillRunning(e, k, d);
        } else {
          ExpiredClocked(env, e, k, d, pick);
        }
      } else {
        NothingToExpire(env, e, pick);
      }
    }
  }

  lemma NothingToExpire(env: Env, e: Engine, pick: Alliance)
    requires e.config.Some? && !Active(e.phase) && !e.phase.PostMatch?
    ensures PhaseExpired(env, e, pick) == e
  {
  }

  lemma LateIsDue(e: Engine, now: int, late: Engine)
    requires InTime(e) && Active(e.phase) && e.clock.lastTick <= now && late == Advanced(e, now)
    requires e.clock.ticking || e.clock.leaked > 0
    ensures Due(late, e.clock, Elapsed(e, now))
    ensures late.phase == e.phase && late.clock.leaked == e.clock.leaked && late.clock.lastTick == now
  {
  }

  lemma LateIdle(e: Engine, now: int, late: Engine)
    requires InTime(e) && !Active(e.phase) && late == Advanced(e, now)
    ensures InTime(late) && late.phase == e.phase && late.clock.leaked == e.clock.leaked && late.clock.lastTick == now
  {
  }

  lemma DueConfigured(e: Engine, k: Clock, d: real)
    requires Due(e, k, d)
    ensures Configured(e) && Active(e.phase)
  {
  }

  lemma TickClocked(env: Env, e: Engine, pick: Alliance, now: int)
    requires Clocked(e, now) && now <= env.now && Possible(e, TickTimer(pick))
    ensures Clocked(Tick(env, e, pick), env.now) && Tick(env, e, pick).clock.leaked == e.clock.leaked
  {
    hide Broadcast, Transition, Advanced, Elapsed, InTime, Due;
    var late := Advanced(e, env.now);
    var d := Elapsed(e, env.now);
    if Active(e.phase) {
      LateIsDue(e, env.now, late);
      DueConfigured(late, e.clock, d);
    } else {
      LateIdle(e, env.now, late);
      InTimeConfigured(late);
    }
    TransitionClocked(env, late, e.clock, d, pick);
    BroadcastInTime(env, Transition(env, late, pick));
  }

  lemma InTimeConfigured(e: Engine)
    requires InTime(e)
    ensures Configured(e)
  {
  }

  lemma BroadcastInTime(env: Env, e: Engine)
    requires InTime(e)
    ensures InTime(Broadcast(env, e)) && Broadcast(env, e).clock == e.clock
  {
  }

  // ── Every step, every run ─────────────────────────────────────────

  /** The steps that lose hold of a live interval. */
  predicate Leaks(e: Engine, op: Op) {
    match op
    case DoStart(gates) => Starts(e, gates) && e.clock.ticking
    case DoWinner(_) => WinnerRestarts(e) && e.clock.ticking
    case _ => false
  }

  lemma UnmovedStep(env: Env, e: Engine, op: Op)
    requires !op.DoCreate? && !op.DoCancel? && !op.DoClear? && !op.DoConfig? && !op.DoStart? && !op.DoAbort? && !op.DoPause?
    requires !op.ResumeTimer? && !op.DoWinner? && !op.TickTimer?
    ensures SameOrOver(e, Next(env, e, op))
  {
    hide SameOrOver, SameTime, Join, SwapAlliance, Kick, Reconcile, Leave, StopMatch, ResumeMatch, FieldEStop, ClearFieldEStop, StationEStop,
      StationAStop, ClearAStop, ClearEStop, ClearAllEStops, Disable, Undisable, ChallengeFinish, RelayAdvance, DsStatus, NoteControl,
      Broadcast;
    match op
    case DoJoin(s, a) => SlotsSame(env, e, s, a);
    case DoSwap(s) => SlotsSame(env, e, s, Red);
    case DoKick(s) => SlotsSame(env, e, s, Red);
    case DoReconcile(changed) => ReconcileSame(env, e, changed);
    case DoLeave(s) => LeaveSame(env, e, s);
    case DoStop => CourseSame(env, e);
    case DoResume => CourseSame(env, e);
    case OtherBroadcast => CourseSame(env, e);
    case DoFieldEStop => FieldSame(env, e);
    case DoClearField => LiftSame(env, e, Slot1);
    case DoClearEStop(s) => LiftSame(env, e, s);
    case DoClearAll => LiftSame(env, e, Slot1);
    case DoEStop(s) => PressSame(env, e, s);
    case DoAStop(s) => PressSame(env, e, s);
    case DoClearAStop(s) => PressSame(env, e, s);
    case DoDisable(s, self) => DisableSame(env, e, s, self);
    case DoUndisable(s, byAdmin) => UndisableOver(env, e, s, byAdmin);
    case DoFinish(a) => ChallengeSame(env, e, a);
    case DoRelay(a) => RelaySame(env, e, a);
    case StatusFrom(s, status) => StatusSame(env, e, s, status);
    case ControlSeen(s, enabled) => ControlSame(env, e, s, enabled);
  }

  lemma UndisableOver(env: Env, e: Engine, s: Station, byAdmin: bool)
    ensures SameOrOver(e, Undisable(env, e, s, byAdmin))
  {
  }

  /** Every step keeps the clock's account, and only two kinds of step leak an
      interval. */
  lemma NextClocked(env: Env, e: Engine, op: Op, now: int)
    requires Clocked(e, now) && now <= env.now && Possible(e, op)
    ensures Clocked(Next(env, e, op), env.now)
    ensures Next(env, e, op).clock.leaked == e.clock.leaked + if Leaks(e, op) then 1 else 0
  {
    hide Clocked, SameOrOver, CreateMatch, CancelMatch, ClearMatch, UpdateConfig, StartMatch, AbortCountdown, PauseMatch,
      CompleteResume, SetWinner, Tick, WinnerRestarts, Starts;
    match op
    case DoCreate => ResetClocked(env, e, now);
    case DoCancel => ResetClocked(env, e, now);
    case DoClear => ResetClocked(env, e, now);
    case DoConfig(request) => ConfigClocked(env, e, request, now);
    case DoStart(gates) => StartClocked(env, e, gates, now);
    case DoAbort => AbortClocked(env, e, now);
    case DoPause => PauseClocked(env, e, now);
    case ResumeTimer => ResumeClocked(env, e, now);
    case DoWinner(a) => WinnerClocked(env, e, a, now);
    case TickTimer(pick) => TickClocked(env, e, pick, now);
    case _ => UnmovedClocked(env, e, op, now);
  }

  lemma UnmovedClocked(env: Env, e: Engine, op: Op, now: int)
    requires Clocked(e, now) && now <= env.now
    requires !op.DoCreate? && !op.DoCancel? && !op.DoClear? && !op.DoConfig? && !op.DoStart? && !op.DoAbort? && !op.DoPause?
    requires !op.ResumeTimer? && !op.DoWinner? && !op.TickTimer?
    ensures Clocked(Next(env, e, op), env.now) && Next(env, e, op).clock.leaked == e.clock.leaked
  {
    hide Clocked, SameOrOver, Next;
    UnmovedStep(env, e, op);
    SameOrOverClocked(e, Next(env, e, op), now, env.now);
  }

  /** Time does not run backwards from step to step. */
  predicate Ordered(steps: seq<Step>, from: int) {
    (forall i: nat | i < |steps| :: from <= steps[i].env.now)
    && forall i: nat, j: nat | i < j < |steps| :: steps[i].env.now <= steps[j].env.now
  }

  function LastNow(steps: seq<Step>, from: int): int { if steps == [] then from else steps[|steps| - 1].env.now }

  /** A new engine's account is in order. */
  lemma FreshClocked(e: Engine, now: int)
    requires Fresh(e) && e.clock.lastTick <= now
    ensures Clocked(e, now)
  {
    EveryConfigWellTimed(OfficialMatch(false, ByScores));
  }

  /** Conservation over every run, leaks and pauses included: while a match is
      on, time played and time left add up to what was granted and dropped. */
  lemma {:induction false} RunClocked(e: Engine, steps: seq<Step>, from: int)
    requires Clocked(e, from) && Runs(e, steps) && Ordered(steps, from)
    ensures Clocked(Run(e, steps), LastNow(steps, from))
    ensures e.clock.leaked <= Run(e, steps).clock.leaked
    ensures var r := Run(e, steps);
            && (Active(r.phase) ==> r.config.Some?)
            && (Active(r.phase) ==> r.clock.total + r.clock.remaining == Granted(r.config.value, Effective(r)) + r.clock.dropped)
  {
    hide Next, Possible, Leaks;
    if steps != [] {
      var last := steps[|steps| - 1];
      var before := steps[..|steps| - 1];
      assert LastNow(before, from) <= last.env.now;
      RunClocked(e, before, from);
      NextClocked(last.env, Run(e, before), last.op, LastNow(before, from));
    }
  }

  // ── The threshold of the endgame ──────────────────────────────────

  ghost predicate AboveEndgame(e: Engine) {
    e.phase.Teleop? ==> e.config.Some? && e.clock.remaining > e.config.value.endgameDuration
  }

  lemma TeleopBegins(env: Env, e: Engine)
    requires e.config.Some? && WellTimed(e.config.value)
    ensures AboveEndgame(EnterTeleop(env, e))
  {
    hide EnableParticipating, Participating, AStopsReleased;
    ParticipatingRest(env, e.(phase := Teleop, clock := Expired(e.clock, e.config.value.teleopDuration)), TeleOpMode);
  }

  lemma AboveOnExpiry(env: Env, e: Engine, pick: Alliance)
    requires e.config.Some? && WellTimed(e.config.value)
    ensures AboveEndgame(PhaseExpired(env, e, pick))
  {
    hide EnableParticipating, EnterTeleop, AutoWinner, DisabledAll;
    var c := e.config.value;
    ParticipatingRest(env, e.(runStartedAt := Some(e.clock.total), phase := Auto, clock := Expired(e.clock, c.autoDuration)), AutoMode);
    TeleopBegins(env, e.(runStartedAt := Some(e.clock.total)));
    TeleopBegins(env, e.(winner := AutoWinner(c, e.winner, pick)));
  }

  /** After every tick, in whatever state and with whatever leaks, a match in
      teleop has more than the endgame left. */
  lemma TickKeepsTeleop(env: Env, e: Engine, pick: Alliance)
    requires Configured(e)
    ensures AboveEndgame(Tick(env, e, pick))
  {
    hide Broadcast, PhaseExpired;
    var late := Advanced(e, env.now);
    BroadcastSame(env, Transition(env, late, pick));
    BroadcastSame(env, Released(late));
    if late.config.Some? {
      AboveOnExpiry(env, late, pick);
    }
  }

  /** So it has in every run, at every moment if no interval has leaked, and
      after each tick if one has. */
  lemma RunAboveEndgame(e: Engine, steps: seq<Step>, from: int)
    requires Clocked(e, from) && Runs(e, steps) && Ordered(steps, from)
    ensures Run(e, steps).clock.leaked == 0 ==> AboveEndgame(Run(e, steps))
    ensures steps != [] && steps[|steps| - 1].op.TickTimer? ==> AboveEndgame(Run(e, steps))
  {
    hide Next, Possible, Tick;
    RunClocked(e, steps, from);
    if steps != [] && steps[|steps| - 1].op.TickTimer? {
      var last, before := steps[|steps| - 1], steps[..|steps| - 1];
      RunClocked(e, before, from);
      InTimeConfigured(Run(e, before));
      NextIsTick(last.env, Run(e, before), last.op);
      TickKeepsTeleop(last.env, Run(e, before), last.op.pick);
    }
  }

  lemma NextIsTick(env: Env, e: Engine, op: Op)
    requires op.TickTimer?
    ensures Next(env, e, op) == Tick(env, e, op.pick)
  {
  }

  lemma PausedTick(env: Env, e: Engine, pick: Alliance)
    requires e.phase.Paused? && e.clock.remaining - Elapsed(e, env.now) > 0.0
    ensures var e' := Tick(env, e, pick);
      e'.phase == e.phase && e'.prePause == e.prePause && e'.clock.remaining == e.clock.remaining - Elapsed(e, env.now)
  {
    hide Broadcast, PhaseExpired;
    BroadcastSame(env, Advanced(e, env.now));
  }

  lemma BackInTeleop(env: Env, e: Engine)
    requires e.phase.Paused? && e.prePause == Some(Teleop)
    ensures CompleteResume(env, e).phase.Teleop? && CompleteResume(env, e).clock.remaining == e.clock.remaining
  {
    hide EnableParticipating, Broadcast;
    var back := e.(resuming := false, phase := Teleop, prePause := None);
    ParticipatingRest(env, back, TeleOpMode);
    var live := EnableParticipating(env, back, TeleOpMode);
    BroadcastSame(env, live.(clock := StartTick(live.clock, env.now)));
  }

  /** A tick of a leaked interval takes its time from a paused match, and the
      resume gives the rest back to teleop, however little that is. */
  lemma LeakedTickDrains(env: Env, e: Engine, pick: Alliance)
    requires e.phase.Paused? && e.prePause == Some(Teleop) && e.clock.remaining - Elapsed(e, env.now) > 0.0
    ensures var back := CompleteResume(env, Tick(env, e, pick));
      back.phase.Teleop? && back.clock.remaining == e.clock.remaining - Elapsed(e, env.now)
  {
    hide Tick, CompleteResume;
    PausedTick(env, e, pick);
    BackInTeleop(env, Tick(env, e, pick));
  }

  // ── A match the timer ends ────────────────────────────────────────

  /** The whole match, from the countdown to the buzzer. */
  function Nominal(c: Config): real { Granted(c, Teleop) }

  /** The phases that expire on the way: two without an autonomous period,
      else three or four. */
  function Expiries(c: Config): nat { Passed(c, Teleop) + 1 }

  ghost predicate EndsNominally(c: Config, k: Clock) {
    && k.expiries == Expiries(c) && k.total == Nominal(c) + k.dropped
    && Nominal(c) <= k.total < Nominal(c) + Expiries(c) as real * k.longest
  }

  lemma BuzzerOnTime(e: Engine, k: Clock, d: real)
    requires Due(e, k, d) && e.clock.leaked == 0 && (e.phase.Teleop? || e.phase.Endgame?) && e.clock.remaining <= 0.0
    ensures EndsNominally(e.config.value, EndByTimer(e).clock)
  {
  }

  /** Only the buzzer ends a match in a tick. */
  lemma OnlyBuzzerEnds(env: Env, e: Engine, pick: Alliance)
    requires Active(e.phase) && Transition(env, e, pick).phase.PostMatch?
    ensures e.config.Some? && (e.phase.Teleop? || e.phase.Endgame?) && e.clock.remaining <= 0.0
    ensures Transition(env, e, pick) == EndByTimer(e)
  {
    hide EnableParticipating, Broadcast, AutoWinner, DisabledAll;
    if e.config.Some? && e.clock.remaining <= 0.0 && !e.phase.Teleop? && !e.phase.Endgame? {
      NotTheEnd(env, e, pick);
    }
  }

  lemma NotTheEnd(env: Env, e: Engine, pick: Alliance)
    requires e.config.Some? && Active(e.phase) && !e.phase.Teleop? && !e.phase.Endgame?
    ensures !PhaseExpired(env, e, pick).phase.PostMatch?
  {
    hide EnableParticipating, AutoWinner, DisabledAll;
    var c := e.config.value;
    ParticipatingRest(env, e.(runStartedAt := Some(e.clock.total), phase := Auto, clock := Expired(e.clock, c.autoDuration)), AutoMode);
    TeleopEntered(env, e.(runStartedAt := Some(e.clock.total)));
    TeleopEntered(env, e.(winner := AutoWinner(c, e.winner, pick)));
  }

  lemma TeleopEntered(env: Env, e: Engine)
    requires e.config.Some?
    ensures EnterTeleop(env, e).phase.Teleop?
  {
  }

  lemma TickShows(env: Env, e: Engine, pick: Alliance)
    ensures var t := Transition(env, Advanced(e, env.now), pick);
            Tick(env, e, pick).phase == t.phase && Tick(env, e, pick).clock == t.clock
  {
  }

  lemma TimerTick(env: Env, e: Engine, pick: Alliance, now: int)
    requires Clocked(e, now) && now <= env.now && e.clock.ticking && e.clock.leaked == 0 && Active(e.phase)
    requires Tick(env, e, pick).phase.PostMatch?
    ensures e.config.Some? && EndsNominally(e.config.value, Tick(env, e, pick).clock)
  {
    hide Tick, Transition, Advanced, Elapsed, EndByTimer, EndsNominally, Due, InTime, Active;
    var late := Advanced(e, env.now);
    LateIsDue(e, env.now, late);
    TickShows(env, e, pick);
    LateConfig(e, env.now);
    OnlyBuzzerEnds(env, late, pick);
    BuzzerOnTime(late, e.clock, Elapsed(e, env.now));
  }

  /** Whatever pauses a run holds, a match its timer ends has lasted its
      nominal time, and not a tick more per boundary, unless an interval
      leaked. */
  lemma TimerEndsOnTime(e: Engine, steps: seq<Step>, from: int, r: Engine, env: Env, pick: Alliance)
    requires Clocked(e, from) && Runs(e, steps) && Ordered(steps, from) && LastNow(steps, from) <= env.now
    requires r == Run(e, steps) && r.clock.ticking && r.clock.leaked == 0
    requires Active(r.phase) && Tick(env, r, pick).phase.PostMatch?
    ensures r.config.Some? && EndsNominally(r.config.value, Tick(env, r, pick).clock)
  {
    hide Tick, EndsNominally, Clocked, Runs, Ordered, Active, Next, Run;
    RunClocked(e, steps, from);
    TimerTick(env, r, pick, LastNow(steps, from));
  }

  lemma LateConfig(e: Engine, now: int)
    ensures Advanced(e, now).config == e.config && Advanced(e, now).phase == e.phase && Advanced(e, now).clock.leaked == e.clock.leaked
  {
  }

  // ── A pause freezes the clock, unless an interval has leaked ──────

  lemma PausedTicksIffLeaked(e: Engine, now: int, pick: Alliance)
    requires Clocked(e, now) && e.phase.Paused?
    ensures Possible(e, TickTimer(pick)) <==> e.clock.leaked > 0
  {
  }

  lemma ResumeLeaves(env: Env, e: Engine, now: int)
    requires Clocked(e, now) && e.phase.Paused?
    ensures !CompleteResume(env, e).phase.Paused?
  {
  }

  lemma HeldClock(env: Env, e: Engine, op: Op, now: int)
    requires Clocked(e, now) && e.phase.Paused? && !op.TickTimer? && Next(env, e, op).phase.Paused?
    ensures Next(env, e, op).clock == e.clock
  {
    hide Broadcast, Clocked, SameTime, Starts, Join, SwapAlliance, Kick, Reconcile, Leave, StopMatch, ResumeMatch, FieldEStop,
      ClearFieldEStop, StationEStop, StationAStop, ClearAStop, ClearEStop, ClearAllEStops, Disable, Undisable, ChallengeFinish,
      RelayAdvance, DsStatus, NoteControl, CompleteResume, Tick, EnableParticipating;
    if op.ResumeTimer? {
      ResumeLeaves(env, e, now);
    } else if op.DoStart? {
      NotActiveStarts(e, op.gates);
    } else if op.DoPause? {
      BroadcastSame(env, e.(resuming := false));
      SameClock(e.(resuming := false), Broadcast(env, e.(resuming := false)));
    } else if op.DoWinner? {
      BroadcastSame(env, e.(winner := Some(op.a)));
      SameClock(e.(winner := Some(op.a)), Broadcast(env, e.(winner := Some(op.a))));
    } else if !op.DoCreate? && !op.DoCancel? && !op.DoClear? && !op.DoConfig? && !op.DoAbort? {
      UnmovedPaused(env, e, op);
    }
  }

  lemma SameClock(e: Engine, e': Engine)
    requires SameTime(e, e')
    ensures e'.clock == e.clock
  {
  }

  lemma UnmovedPaused(env: Env, e: Engine, op: Op)
    requires !op.DoCreate? && !op.DoCancel? && !op.DoClear? && !op.DoConfig? && !op.DoStart? && !op.DoAbort? && !op.DoPause?
    requires !op.ResumeTimer? && !op.DoWinner? && !op.TickTimer? && Next(env, e, op).phase.Paused?
    ensures Next(env, e, op).clock == e.clock
  {
    hide Next;
    UnmovedStep(env, e, op);
  }

  /** For as long as a match stays paused, whatever else happens on the field,
      its clock shows what it showed, if no interval has leaked. */
  lemma {:induction false} PauseFreezes(e: Engine, steps: seq<Step>, from: int)
    requires Clocked(e, from) && Runs(e, steps) && Ordered(steps, from) && e.clock.leaked == 0
    requires forall i: nat | i <= |steps| :: Run(e, steps[..i]).phase.Paused?
    ensures Run(e, steps).clock == e.clock
  {
    hide Next, Possible, Clocked;
    if steps != [] {
      var last := steps[|steps| - 1];
      var before := steps[..|steps| - 1];
      forall i: nat | i <= |before| ensures Run(e, before[..i]).phase.Paused? {
        assert before[..i] == steps[..i];
      }
      PauseFreezes(e, before, from);
      RunClocked(e, before, from);
      assert steps[..|before|] == before && steps[..|steps|] == steps;
      if last.op.TickTimer? {
        PausedTicksIffLeaked(Run(e, before), LastNow(before, from), last.op.pick);
      } else {
        HeldClock(last.env, Run(e, before), last.op, LastNow(before, from));
      }
    }
  }

  lemma CreatedDuringCount(env: Env, e: Engine)
    requires e.phase.PostMatch? && e.clock.ticking && !e.latch
    ensures var made := CreateMatch(env, e);
            && made.phase.Created? && made.clock == e.clock && !made.latch && made.winner.None?
            && WinnerKnown(made.pending, made.winner) && forall t: Station :: !made.st[t].joined
  {
  }

  lemma NobodyOn(e: Engine, a: Alliance, slots: seq<Station>)
    requires forall t: Station :: !e.st[t].joined
    ensures JoinedOf(e, a, slots) == []
  {
  }

  lemma FirstJoin(env: Env, e: Engine, s: Station, a: Alliance)
    requires e.phase.Created? && forall t: Station :: !e.st[t].joined
    ensures var e' := Join(env, e, s, a);
            && e'.phase.Created? && e'.clock == e.clock && e'.latch == e.latch && e'.winner == e.winner && e'.pending == e.pending
            && AnyJoined(e')
  {
    hide Broadcast;
    NobodyOn(e, a, STATIONS);
    var joined := Put(e, s, e.st[s].(joined := true, alliance := Some(a)));
    BroadcastKeeps(env, joined);
    assert Broadcast(env, joined).st[s].joined;
  }

  lemma StartLeaks(env: Env, e: Engine)
    requires Starts(e, true) && e.clock.ticking
    ensures StartMatch(env, e, true).clock.leaked == e.clock.leaked + 1
  {
  }

  /** A new match set up while the last one is still counting takes over its
      live interval, and starting it leaks that one. */
  lemma CreateDuringCountLeaks(env: Env, e: Engine, s: Station, a: Alliance)
    requires e.phase.PostMatch? && e.clock.ticking && !e.latch
    ensures StartMatch(env, Join(env, CreateMatch(env, e), s, a), true).clock.leaked == e.clock.leaked + 1
  {
    hide CreateMatch, Join, StartMatch, WinnerKnown, AnyJoined;
    CreatedDuringCount(env, e);
    FirstJoin(env, CreateMatch(env, e), s, a);
    StartLeaks(env, Join(env, CreateMatch(env, e), s, a));
  }

  /** Naming the winner twice, while the match waits for it, leaks too. */
  lemma SecondWinnerLeaks(env: Env, e: Engine, a: Alliance, b: Alliance)
    requires WinnerRestarts(e)
    ensures SetWinner(env, SetWinner(env, e, a), b).clock.leaked == e.clock.leaked + if e.clock.ticking then 2 else 1
  {
  }
}
