/** The robots as a match runs: who goes live at each phase, what the clock
    does at each tick, and how legs and runs end. */
module EngineLive {
  import opened Field
  import opened EngineState
  import opened EngineSafety
  import opened EngineMark
  import opened EngineEffects

  // ── Going live ────────────────────────────────────────────────────

  /** The robots of an alliance take turns, and the field hands off. */
  predicate TakesTurns(config: Option<Config>) {
    config.Some? && config.value.challenge.Some?
    && config.value.challenge.value.timing.Relay? && !config.value.challenge.value.handoff.Manual?
  }

  /** `s` is next in the running order of alliance `a`, which is not home yet. */
  predicate LegOf(e: Engine, s: Station, a: Alliance) {
    && e.tally[a].finishedAt.None? && |e.tally[a].splits| < |e.order[a]| && e.order[a][|e.tally[a].splits|] == s
  }

  predicate InRace(e: Engine, s: Station) {
    e.st[s].joined && !(e.st[s].alliance.Some? && e.tally[e.st[s].alliance.value].finishedAt.Some?)
  }

  /** It is not `s` that runs now. */
  predicate OutOfTurn(e: Engine, s: Station) { TakesTurns(e.config) && !LegOf(e, s, Red) && !LegOf(e, s, Blue) }

  /** Everything a robot needs to be enabled when `phase` begins. */
  predicate GoesUp(env: Env, e: Engine, s: Station, phase: Phase) {
    && InRace(e, s) && !OutOfTurn(e, s) && s !in env.forbidden
    && !e.latch && !e.st[s].eStop && (phase.Auto? ==> !e.st[s].aStop) && e.st[s].disabledBy != Some(ByEStop)
  }

  /** The control of `s` once `phase` has begun. */
  predicate LiveAt(env: Env, e: Engine, s: Station, phase: Phase, c: Control) {
    && c.joined == e.st[s].joined && c.alliance == e.st[s].alliance && c.eStop == e.st[s].eStop
    && c.aStop == (e.st[s].aStop && phase.Auto?)
    && (c.enabled <==> GoesUp(env, e, s, phase))
    && (c.enabled ==> c.mode == (if phase.Auto? then AutoMode else TeleOpMode) && c.disabledBy.None?)
    && (!c.enabled ==> c.mode == e.st[s].mode
                       && c.disabledBy == if InRace(e, s) && OutOfTurn(e, s) then Some(ByRelay) else e.st[s].disabledBy)
  }

  /** From `e` every robot that can go live has, in the phase of `e'`, and no other. */
  ghost predicate WentLive(env: Env, e: Engine, e': Engine) { forall s: Station :: LiveAt(env, e, s, e'.phase, e'.st[s]) }

  lemma TurnIs(e: Engine, r: Engine, s: Station)
    requires r.tally == e.tally && r.order == e.order && r.config == e.config
    ensures AwaitsLeg(r, s) <==> OutOfTurn(e, s)
  {
  }

  lemma RaceIs(e: Engine, s: Station)
    ensures InRace(e, s) <==> e.st[s].joined && !Finished(e, e.st[s].alliance)
  {
  }

  /** The robot was as the enable rule has it. */
  predicate WasRight(e: Engine, s: Station) {
    e.st[s].enabled ==> InRace(e, s) && !e.latch && !e.st[s].eStop && !e.st[s].aStop && e.st[s].disabledBy.None?
  }

  lemma EnabledAt(env: Env, e: Engine, r: Engine, s: Station, mode: Mode, phase: Phase)
    requires r.st[s] == e.st[s].(aStop := e.st[s].aStop && phase.Auto?) && r.latch == e.latch
    requires mode == (if phase.Auto? then AutoMode else TeleOpMode)
    requires e.st[s].joined && InRace(e, s) && !OutOfTurn(e, s) && WasRight(e, s)
    ensures LiveAt(env, e, s, phase, Enabled(env, r, s, mode))
  {
    hide OutOfTurn, InRace;
  }

  lemma StaysDownAt(env: Env, e: Engine, r: Engine, s: Station, mode: Mode, phase: Phase)
    requires r.st[s] == e.st[s].(aStop := e.st[s].aStop && phase.Auto?)
    requires !(InRace(e, s) && !OutOfTurn(e, s)) && WasRight(e, s)
    ensures LiveAt(env, e, s, phase, if InRace(e, s) then r.st[s].(enabled := false, disabledBy := Some(ByRelay)) else r.st[s])
  {
    hide OutOfTurn;
  }

  lemma ParticipatesAt(env: Env, e: Engine, r: Engine, s: Station, mode: Mode, phase: Phase)
    requires r.st[s] == e.st[s].(aStop := e.st[s].aStop && phase.Auto?)
    requires r.latch == e.latch && r.tally == e.tally && r.order == e.order && r.config == e.config
    requires mode == (if phase.Auto? then AutoMode else TeleOpMode) && WasRight(e, s)
    ensures LiveAt(env, e, s, phase, Participating(env, r, s, mode))
  {
    hide AwaitsLeg, OutOfTurn, Finished, InRace, LiveAt, Enabled, WasRight;
    TurnIs(e, r, s);
    RaceIs(r, s);
    RaceIs(e, s);
    SameRace(e, r, s);
    if InRace(e, s) && !OutOfTurn(e, s) {
      EnabledAt(env, e, r, s, mode, phase);
    } else {
      StaysDownAt(env, e, r, s, mode, phase);
    }
  }

  lemma SameRace(e: Engine, r: Engine, s: Station)
    requires r.tally == e.tally && r.st[s].joined == e.st[s].joined && r.st[s].alliance == e.st[s].alliance
    ensures InRace(r, s) <==> InRace(e, s)
  {
  }

  /** Going live into `live.phase`, from the robots as they were in `e`. */
  lemma LiveIs(env: Env, e: Engine, live: Engine, mode: Mode)
    requires Safe(e) && live.st == e.st && live.latch == e.latch && live.tally == e.tally && live.order == e.order && live.config == e.config
    requires mode == (if live.phase.Auto? then AutoMode else TeleOpMode)
    ensures WentLive(env, e, EnableParticipating(env, live, mode))
  {
    hide EnableParticipating, Participating, LiveAt, LegsKept, AStopsReleased, PhasesOk;
    ParticipatingRest(env, live, mode);
    forall s: Station ensures LiveAt(env, e, s, live.phase, EnableParticipating(env, live, mode).st[s]) {
      ParticipatingAt(env, live, s, mode);
      ReleasedAt(e, live, s, mode);
      ParticipatesAt(env, e, AStopsReleased(live, mode), s, mode, live.phase);
    }
  }

  lemma ReleasedAt(e: Engine, live: Engine, s: Station, mode: Mode)
    requires live.st == e.st
    requires mode == (if live.phase.Auto? then AutoMode else TeleOpMode)
    ensures var r := AStopsReleased(live, mode);
      && r.st[s] == e.st[s].(aStop := e.st[s].aStop && live.phase.Auto?)
      && r.latch == live.latch && r.tally == live.tally && r.order == live.order && r.config == live.config
  {
  }

  /** The count of a resume is over: the match goes on where it was held, with
      the time it had left, and every robot that can goes live. */
  lemma ResumeGoesOn(env: Env, e: Engine)
    requires Safe(e) && e.phase.Paused?
    ensures var e' := Next(env, e, ResumeTimer);
      && Some(e'.phase) == e.prePause && e'.prePause.None? && !e'.resuming && WentLive(env, e, e')
      && e'.clock.remaining == e.clock.remaining && e'.clock.total == e.clock.total
      && e'.clock.ticking && e'.clock.lastTick == env.now
      && e' == e.(phase := e'.phase, prePause := None, resuming := false, clock := e'.clock, st := e'.st, heard := e'.heard, stops := e'.stops)
  {
    hide Broadcast, EnableParticipating, LiveAt;
    var mode := if e.prePause.value.Auto? then AutoMode else TeleOpMode;
    var live := e.(resuming := false, phase := e.prePause.value, prePause := None);
    LiveIs(env, e, live, mode);
    ParticipatingRest(env, live, mode);
    var went := EnableParticipating(env, live, mode);
    BroadcastKeeps(env, went.(clock := StartTick(went.clock, env.now)));
  }

  // ── The tick ──────────────────────────────────────────────────────

  /** The seconds since the last tick. */
  function Since(env: Env, e: Engine): real { (env.now - e.clock.lastTick) as real / 1000.0 }

  function TimeLeft(env: Env, e: Engine): real { e.clock.remaining - Since(env, e) }

  /** The clock counts what went by, whatever the phase. */
  predicate Counted(env: Env, e: Engine, e': Engine) {
    e'.clock.total == e.clock.total + Since(env, e) && e'.clock.lastTick == env.now && e'.clock.leaked == e.clock.leaked
  }

  /** Nothing but the phase, the robots and the clock differ, besides what is
      heard of the robots and recorded of the stops. */
  predicate OnlyCourse(e: Engine, e': Engine) {
    e' == e.(phase := e'.phase, st := e'.st, clock := e'.clock, heard := e'.heard, stops := e'.stops,
             winner := e'.winner, runStartedAt := e'.runStartedAt)
  }

  lemma TickIs(env: Env, e: Engine, pick: Alliance)
    ensures var e' := Next(env, e, TickTimer(pick)); e' == Transition(env, Advanced(e, env.now), pick).(stops := e'.stops)
  {
    hide Broadcast, Transition, Advanced;
    TickNext(env, e, pick);
    BroadcastKeeps(env, Transition(env, Advanced(e, env.now), pick));
  }

  lemma TickNext(env: Env, e: Engine, pick: Alliance)
    ensures Next(env, e, TickTimer(pick)) == Tick(env, e, pick)
  {
    hide Tick, Broadcast;
  }

  /** Before a phase is over: only the endgame begins, out of teleop, when no
      more than its time is left. */
  lemma TickBefore(env: Env, e: Engine, pick: Alliance)
    requires e.config.Some? && TimeLeft(env, e) > 0.0
    ensures var e' := Next(env, e, TickTimer(pick));
      && e'.phase == (if e.phase.Teleop? && TimeLeft(env, e) <= e.config.value.endgameDuration then Endgame else e.phase)
      && e'.clock.remaining == TimeLeft(env, e) && e'.clock.ticking == e.clock.ticking && Counted(env, e, e')
      && e' == e.(phase := e'.phase, clock := e'.clock, stops := e'.stops)
  {
    hide Next, PhaseExpired;
    TickIs(env, e, pick);
  }

  /** The counting period after a match is over: everybody is let go. */
  lemma TickLetsGo(env: Env, e: Engine, pick: Alliance)
    requires e.config.Some? && TimeLeft(env, e) <= 0.0 && e.phase.PostMatch?
    ensures var e' := Next(env, e, TickTimer(pick));
      && e'.phase.PostMatch? && (forall s: Station :: e'.st[s] == e.st[s].(joined := false, alliance := None))
      && e'.clock.remaining == 0.0 && !e'.clock.ticking && Counted(env, e, e')
      && e' == e.(st := e'.st, clock := e'.clock, stops := e'.stops)
  {
    hide Next, PhaseExpired, Broadcast;
    TickIs(env, e, pick);
    BroadcastKeeps(env, Released(Advanced(e, env.now)));
  }

  lemma ExpiresIs(env: Env, e: Engine, pick: Alliance)
    requires e.config.Some? && TimeLeft(env, e) <= 0.0 && !e.phase.PostMatch?
    ensures var e' := Next(env, e, TickTimer(pick)); e' == PhaseExpired(env, Advanced(e, env.now), pick).(stops := e'.stops)
  {
    hide Next, PhaseExpired, Broadcast;
    TickIs(env, e, pick);
  }

  /** The end of teleop, or of the endgame, is the end of the match. */
  lemma TickEnds(env: Env, e: Engine, pick: Alliance)
    requires e.config.Some? && TimeLeft(env, e) <= 0.0 && (e.phase.Teleop? || e.phase.Endgame?)
    ensures var e' := Next(env, e, TickTimer(pick));
      && e'.phase.PostMatch? && AllDowned(e, e')
      && e'.clock.remaining == 3.0 && e'.clock.ticking == e.clock.ticking && Counted(env, e, e')
      && e' == e.(phase := PostMatch, st := e'.st, clock := e'.clock, stops := e'.stops)
  {
    hide Next, EnableParticipating, EnterTeleop;
    ExpiresIs(env, e, pick);
  }

  /** `e'` is `e` a tick later, live in the phase that now begins. */
  ghost predicate WentInto(env: Env, e: Engine, e': Engine, phase: Phase, duration: real) {
    && e'.phase == phase && WentLive(env, e, e')
    && e'.clock.remaining == duration && e'.clock.ticking == e.clock.ticking && Counted(env, e, e') && OnlyCourse(e, e')
  }

  lemma GoesInto(env: Env, e: Engine, phase: Phase, duration: real, winner: Option<Alliance>, startedAt: Option<real>)
    requires Safe(e)
    ensures var adv := Advanced(e, env.now);
      var live := adv.(phase := phase, clock := Expired(adv.clock, duration), winner := winner, runStartedAt := startedAt);
      var e' := EnableParticipating(env, live, if phase.Auto? then AutoMode else TeleOpMode);
      && WentInto(env, e, e', phase, duration)
      && e'.winner == winner && e'.runStartedAt == startedAt && e'.clock.total == adv.clock.total
  {
    hide EnableParticipating, LiveAt, Safe;
    var adv, mode := Advanced(e, env.now), if phase.Auto? then AutoMode else TeleOpMode;
    var live := adv.(phase := phase, clock := Expired(adv.clock, duration), winner := winner, runStartedAt := startedAt);
    LiveIs(env, e, live, mode);
    ParticipatingRest(env, live, mode);
  }

  lemma ToldInto(env: Env, e: Engine, live: Engine, e': Engine, phase: Phase, duration: real)
    requires WentInto(env, e, live, phase, duration) && e' == live.(stops := e'.stops)
    ensures WentInto(env, e, e', phase, duration)
  {
    hide LiveAt;
  }

  /** The end of the countdown: autonomous begins, unless the match has none;
      its race is timed from this moment. */
  lemma TickStarts(env: Env, e: Engine, pick: Alliance)
    requires Safe(e) && e.config.Some? && TimeLeft(env, e) <= 0.0 && e.phase.Countdown?
    ensures var e' := Next(env, e, TickTimer(pick)); var c := e.config.value;
      && (if c.skipAuto || c.autoDuration <= 0.0 then WentInto(env, e, e', Teleop, c.teleopDuration)
          else WentInto(env, e, e', Auto, c.autoDuration))
      && e'.runStartedAt == Some(e'.clock.total) && e'.winner == e.winner
  {
    hide Next, EnableParticipating, WentInto, Safe, EndByTimer, AutoWinner;
    var c, adv, e' := e.config.value, Advanced(e, env.now), Next(env, e, TickTimer(pick));
    var live := PhaseExpired(env, adv, pick);
    ExpiresIs(env, e, pick);
    if c.skipAuto || c.autoDuration <= 0.0 {
      GoesInto(env, e, Teleop, c.teleopDuration, e.winner, Some(adv.clock.total));
      ToldInto(env, e, live, e', Teleop, c.teleopDuration);
    } else {
      GoesInto(env, e, Auto, c.autoDuration, e.winner, Some(adv.clock.total));
      ToldInto(env, e, live, e', Auto, c.autoDuration);
    }
  }

  /** Whom the autonomous period makes its winner: the side the config names,
      the one the referee named, or the one the scores pick. */
  predicate WinsAuto(c: Config, before: Option<Alliance>, pick: Alliance, after: Option<Alliance>) {
    && (c.autoWinner.RedWins? ==> after == Some(Red)) && (c.autoWinner.BlueWins? ==> after == Some(Blue))
    && (c.autoWinner.AskReferee? ==> after == before) && (c.autoWinner.ByScores? ==> after == Some(pick))
  }

  /** `e'` is the break after the autonomous period of `e`. */
  ghost predicate BreakFrom(env: Env, e: Engine, e': Engine)
    requires e.config.Some?
  {
    && e'.phase.AutoPause? && AllDowned(e, e') && e'.clock.remaining == e.config.value.pauseDuration
    && e'.clock.ticking == (e.clock.ticking && !(e.config.value.autoWinner.AskReferee? && e.winner.None?))
    && Counted(env, e, e') && e' == e.(phase := AutoPause, st := e'.st, clock := e'.clock, stops := e'.stops)
  }

  lemma BreaksFrom(env: Env, e: Engine, e': Engine)
    requires e.config.Some?
    requires var adv := Advanced(e, env.now); var c := e.config.value;
      var held := adv.(phase := AutoPause, st := DisabledAll(e.st), clock := Expired(adv.clock, c.pauseDuration));
      e' == (if c.autoWinner.AskReferee? && e.winner.None? then held.(clock := StopTick(held.clock)) else held).(stops := e'.stops)
    ensures BreakFrom(env, e, e')
  {
  }

  /** The end of autonomous: a break with every robot down, that waits for the
      referee if no winner is named yet; or teleop at once if there is none. */
  lemma TickEndsAuto(env: Env, e: Engine, pick: Alliance)
    requires Safe(e) && e.config.Some? && TimeLeft(env, e) <= 0.0 && e.phase.Auto?
    ensures var e' := Next(env, e, TickTimer(pick)); var c := e.config.value;
      if c.pauseDuration > 0.0 || c.autoWinner.AskReferee?
      then BreakFrom(env, e, e') else WentInto(env, e, e', Teleop, c.teleopDuration) && WinsAuto(c, e.winner, pick, e'.winner) && e'.runStartedAt == e.runStartedAt
  {
    hide Next, EnableParticipating, WentInto, Safe, EndByTimer, BreakFrom, DisabledAll, Expired, StopTick;
    var c, e' := e.config.value, Next(env, e, TickTimer(pick));
    ExpiresIs(env, e, pick);
    if c.pauseDuration > 0.0 || c.autoWinner.AskReferee? {
      BreaksFrom(env, e, e');
    } else {
      GoesInto(env, e, Teleop, c.teleopDuration, AutoWinner(c, e.winner, pick), e.runStartedAt);
      ToldInto(env, e, PhaseExpired(env, Advanced(e, env.now), pick), e', Teleop, c.teleopDuration);
    }
  }

  /** The end of the break after autonomous. */
  lemma TickEndsBreak(env: Env, e: Engine, pick: Alliance)
    requires Safe(e) && e.config.Some? && TimeLeft(env, e) <= 0.0 && e.phase.AutoPause?
    ensures var e' := Next(env, e, TickTimer(pick)); var c := e.config.value;
      WentInto(env, e, e', Teleop, c.teleopDuration) && WinsAuto(c, e.winner, pick, e'.winner) && e'.runStartedAt == e.runStartedAt
  {
    hide Next, EnableParticipating, WentInto, Safe, EndByTimer;
    var c, e' := e.config.value, Next(env, e, TickTimer(pick));
    ExpiresIs(env, e, pick);
    GoesInto(env, e, Teleop, c.teleopDuration, AutoWinner(c, e.winner, pick), e.runStartedAt);
    ToldInto(env, e, PhaseExpired(env, Advanced(e, env.now), pick), e', Teleop, c.teleopDuration);
  }

  /** A tick of a leaked interval at any other time only counts. */
  lemma TickElsewhere(env: Env, e: Engine, pick: Alliance)
    requires e.config.None? || (TimeLeft(env, e) <= 0.0 && (e.phase.Idle? || e.phase.Created? || e.phase.Paused?))
    ensures var e' := Next(env, e, TickTimer(pick));
      && e'.clock.remaining == TimeLeft(env, e) && e'.clock.ticking == e.clock.ticking && Counted(env, e, e')
      && e' == e.(clock := e'.clock, stops := e'.stops)
  {
    hide Next, EnableParticipating, EnterTeleop, Broadcast;
    TickIs(env, e, pick);
  }
}
