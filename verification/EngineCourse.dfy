/** What the steps of the match engine add up to over whole runs: how long a
    field E-Stop holds, and what times a challenge run records. */
module EngineCourse {
  import opened Field
  import opened EngineState
  import opened EngineSafety
  import opened EngineMark
  import opened EngineClock
  import EngineStops
  import opened EngineEffects
  import opened EngineLive
  import opened EngineRace

  // ── The field E-Stop ──────────────────────────────────────────────

  predicate ClearsField(op: Op) { op.DoClearField? || op.DoClearAll? }

  lemma LatchKept(env: Env, e: Engine, op: Op)
    requires e.latch && !ClearsField(op)
    ensures Next(env, e, op).latch
  {
    hide Next, Broadcast, CameBack, AllDowned;
    if op.DoCreate? {
      CreateSetsUp(env, e);
    } else if op.DoClear? {
      ClearPutsAway(env, e);
    } else if op.DoClearEStop? {
      EStopCleared(env, e, op.s);
    } else if Plain(op) {
      PlainKept(env, e, op, Slot1);
    } else {
      StepStands(env, e, op, Slot1);
    }
  }

  /** Once pressed, the field E-Stop holds in every run until the host clears
      it: up to then no match is on and no robot is enabled, whatever else is
      pressed, reported or ticks. */
  lemma {:induction false} FieldEStopHolds(env: Env, e: Engine, steps: seq<Step>)
    requires Safe(e) && Runs(Next(env, e, DoFieldEStop), steps)
    requires forall i: nat | i < |steps| :: !ClearsField(steps[i].op)
    ensures var r := Run(Next(env, e, DoFieldEStop), steps);
      r.latch && !Active(r.phase) && forall s: Station :: !r.st[s].enabled && EStopped(r, s)
  {
    hide Next, Safe, AllDowned;
    var stopped := Next(env, e, DoFieldEStop);
    FieldEStopStops(env, e);
    NextSafe(env, e, DoFieldEStop);
    LatchHolds(stopped, steps);
    RunSafe(stopped, steps);
    LatchedIsDown(Run(stopped, steps));
  }

  lemma {:induction false} LatchHolds(e: Engine, steps: seq<Step>)
    requires e.latch && forall i: nat | i < |steps| :: !ClearsField(steps[i].op)
    ensures Run(e, steps).latch
  {
    hide Next, ClearsField;
    if steps != [] {
      LatchHolds(e, steps[..|steps| - 1]);
      LatchKept(steps[|steps| - 1].env, Run(e, steps[..|steps| - 1]), steps[|steps| - 1].op);
    }
  }

  lemma LatchedIsDown(e: Engine)
    requires Safe(e) && e.latch
    ensures !Active(e.phase) && forall s: Station :: !e.st[s].enabled && EStopped(e, s)
  {
  }

  // ── The wait on a Driver Station ──────────────────────────────────

  /** The last control packet seen of the station, if any, commands `enabled`. */
  predicate LastSeen(e: Engine, s: Station, enabled: bool) {
    s in e.heard.control && e.heard.control[s].enabled == Some(enabled)
  }

  /** The Driver Station has stopped its robot since `since`: it was seen to
      command Disabled since then, give or take a quarter of a second; or it is
      attached and was not last seen to command Enabled; or for two seconds
      nothing has been seen of it. */
  predicate HasStopped(e: Engine, s: Station, since: int, now: int) {
    || (LastSeen(e, s, false) && e.heard.control[s].at >= since - 250)
    || (!LastSeen(e, s, true) && s in e.heard.heartbeat && now - e.heard.heartbeat[s] < 5_000)
    || (now - since >= 2_000 && now - e.stops.silenceFrom >= 2_000
        && now - (if s in e.heard.control then e.heard.control[s].at else 0) >= 2_000)
  }

  lemma HasStoppedIff(e: Engine, s: Station, since: int, now: int)
    ensures DsStopped(e, s, since, now) <==> HasStopped(e, s, since, now)
  {
  }

  /** Every broadcast: the e-stops out of a match are those recorded, from the
      time they began, and exactly those wait that have waited so far, or are
      new and of a team, and whose Driver Station has not stopped. */
  lemma BroadcastReviews(env: Env, e: Engine, s: Station)
    ensures var e' := Next(env, e, OtherBroadcast);
      && e' == e.(stops := e'.stops) && e'.stops.silenceFrom == e.stops.silenceFrom
      && (s in e'.stops.since <==> !e.st[s].joined && (e.latch || e.st[s].eStop))
      && (s in e'.stops.since ==> e'.stops.since[s] == if s in e.stops.since then e.stops.since[s] else env.now)
      && (s in e'.stops.waits <==> s in e'.stops.since && (s in e.stops.waits || (s !in e.stops.since && s in env.teamed))
                                   && !HasStopped(e, s, e'.stops.since[s], env.now))
  {
    hide Next, Broadcast, DsStopped, HasStopped;
    BroadcastNext(env, e);
    BroadcastKeeps(env, e);
    EngineStops.BroadcastAt(env, e, s);
    if OutStopped(e, s) { HasStoppedIff(e, s, Broadcast(env, e).stops.since[s], env.now); }
  }

  /** A restart takes up what was saved of the stops, and holds the silence of
      the Driver Stations against nobody for ten seconds. */
  lemma RestartTakesUp(env: Env, e: Engine, saved: SavedStops)
    ensures var e' := TrackStops(env, e, Some(saved));
      && e'.latch == saved.field
      && (forall s: Station :: e'.st[s] == e.st[s].(eStop := e.st[s].eStop || (s in saved.stations && saved.stations[s])))
      && e'.stops.silenceFrom == (if saved.field || saved.stations != map[] then env.now + 8_000 else e.stops.silenceFrom)
      && e' == e.(latch := e'.latch, st := e'.st, stops := e'.stops)
  {
    hide Broadcast;
    var restored := Restored(e, saved, env.now);
    BroadcastKeeps(env, restored);
    EngineStops.BroadcastAt(env, restored, Slot1);
  }

  lemma BroadcastNext(env: Env, e: Engine)
    ensures Next(env, e, OtherBroadcast) == Broadcast(env, e)
  {
    hide Broadcast;
  }

  // ── The times of a challenge run ──────────────────────────────────

  /** The race is on, or held. */
  predicate InRun(phase: Phase) { Running(phase) || phase.AutoPause? || phase.Paused? }

  ghost predicate Ascending(times: seq<real>) { forall i: nat, j: nat | i < j < |times| :: times[i] <= times[j] }

  ghost predicate NoneLater(times: seq<real>, t: real) { forall i: nat | i < |times| :: times[i] <= t }

  /** The times of the legs ascend, and an alliance is home no sooner than its
      last leg ended. */
  ghost predicate TimesOk(t: Tally) { Ascending(t.splits) && (t.finishedAt.Some? ==> NoneLater(t.splits, t.finishedAt.value)) }

  /** The run began some time ago, and no time recorded is still to come. */
  ghost predicate RaceOn(e: Engine) {
    && e.runStartedAt.Some? && e.runStartedAt.value <= e.clock.total
    && forall a: Alliance :: NoneLater(e.tally[a].splits, e.clock.total - e.runStartedAt.value)
  }

  ghost predicate RaceOk(e: Engine) {
    && (InRun(e.phase) ==> RaceOn(e))
    && (e.phase.Countdown? ==> forall a: Alliance :: e.tally[a].splits == [])
    && forall a: Alliance :: TimesOk(e.tally[a])
  }

  /** A step that records no time, and begins no race. */
  ghost predicate SameRace(e: Engine, e': Engine) {
    && e'.tally == e.tally && e'.runStartedAt == e.runStartedAt && e'.clock.total == e.clock.total
    && (InRun(e'.phase) ==> InRun(e.phase)) && (e'.phase.Countdown? ==> e.phase.Countdown?)
  }

  lemma SameRaceOk(e: Engine, e': Engine)
    requires RaceOk(e) && SameRace(e, e')
    ensures RaceOk(e')
  {
  }

  predicate SetsUp(op: Op) {
    op.DoCancel? || op.DoClear? || op.DoConfig? || op.DoReconcile? || op.DoJoin? || op.DoSwap? || op.DoKick?
    || op.DoClearAStop? || op.DoAbort? || op.DoResume? || op.OtherBroadcast? || op.ControlSeen?
  }

  predicate Stops(op: Op) {
    op.DoStop? || op.DoPause? || op.DoWinner? || op.DoFieldEStop? || op.DoEStop? || op.DoAStop?
    || op.DoLeave? || op.DoClearField? || op.DoClearEStop? || op.DoClearAll? || op.DoUndisable?
  }

  lemma BecomesSame(e: Engine, e': Engine, s: Station, c: Control)
    requires e' == e || Becomes(e, e', s, c)
    ensures SameRace(e, e')
  {
  }

  lemma SetsUpSame(env: Env, e: Engine, op: Op)
    requires SetsUp(op)
    ensures SameRace(e, Next(env, e, op))
  {
    hide Next, Broadcast, Becomes, OnSide;
    match op
    case DoCancel => CancelLetsGo(env, e);
    case DoClear => ClearPutsAway(env, e);
    case DoConfig(request) => ConfigIs(env, e, request);
    case DoReconcile(changed) => ReconcileLetsGo(env, e, changed);
    case DoJoin(s, a) =>
      JoinJoins(env, e, s, a);
      BecomesSame(e, Next(env, e, op), s, e.st[s].(joined := true, alliance := Some(a)));
    case DoSwap(s) => SwapSame(env, e, s);
    case DoKick(s) =>
      KickLetsGo(env, e, s);
      BecomesSame(e, Next(env, e, op), s, Out(e.st[s]));
    case DoClearAStop(s) =>
      AStopCleared(env, e, s);
      BecomesSame(e, Next(env, e, op), s, e.st[s].(aStop := false));
    case DoAbort => AbortReturns(env, e);
    case DoResume => ResumeCounts(env, e);
    case OtherBroadcast => BroadcastNoted(env, e);
    case ControlSeen(s, enabled) => ControlNoted(env, e, s, enabled);
  }

  lemma BroadcastNoted(env: Env, e: Engine)
    ensures var e' := Next(env, e, OtherBroadcast); e' == e.(stops := e'.stops)
  {
    hide Broadcast;
    BroadcastKeeps(env, e);
  }

  lemma SwapSame(env: Env, e: Engine, s: Station)
    ensures SameRace(e, Next(env, e, DoSwap(s)))
  {
    hide Next, OnSide, Becomes;
    if e.st[s].alliance.Some? {
      var a := e.st[s].alliance.value;
      SwapChangesSide(env, e, s, a, Other(a));
      BecomesSame(e, Next(env, e, DoSwap(s)), s, e.st[s].(alliance := Some(Other(a))));
    } else {
      SwapNobody(env, e, s);
    }
  }

  lemma SwapNobody(env: Env, e: Engine, s: Station)
    requires e.st[s].alliance.None?
    ensures Next(env, e, DoSwap(s)) == e
  {
    hide Broadcast, Full;
  }

  lemma StopsSame(env: Env, e: Engine, op: Op)
    requires Stops(op)
    ensures SameRace(e, Next(env, e, op))
  {
    hide Next, Broadcast, Becomes, CameBack, MayComeBack, AllDowned, TakesTurns, EStopped;
    match op
    case DoStop => StopEnds(env, e);
    case DoPause => PauseHolds(env, e);
    case DoWinner(a) => WinnerNamed(env, e, a);
    case DoFieldEStop => FieldEStopStops(env, e);
    case DoEStop(s) =>
      EStopStops(env, e, s);
      BecomesSame(e, Next(env, e, op), s, e.st[s].(eStop := true, enabled := false));
    case DoAStop(s) =>
      AStopStops(env, e, s);
      BecomesSame(e, Next(env, e, op), s, e.st[s].(aStop := true, enabled := false));
    case DoLeave(s) => LeaveSame(env, e, s);
    case DoClearField => FieldEStopCleared(env, e);
    case DoClearEStop(s) =>
      EStopCleared(env, e, s);
      BecomesSame(e, Next(env, e, op), s, CameBack(e, e.st[s].(eStop := false), e.st[s].eStop && !e.latch));
    case DoClearAll => AllEStopsCleared(env, e);
    case DoUndisable(s, byAdmin) => EnableBrings(env, e, s, byAdmin);
  }

  lemma EndedSame(e: Engine, e': Engine)
    requires EndsAtOnce(e, e') || EndsIfAllHome(e, e')
    ensures SameRace(e, e')
  {
    hide AllHome, AllDowned;
  }

  lemma WithoutSame(e: Engine, s: Station, e': Engine)
    requires SameRace(WithoutStation(e, s), e')
    ensures SameRace(e, e')
  {
  }

  lemma LeaveSame(env: Env, e: Engine, s: Station)
    ensures SameRace(e, Next(env, e, DoLeave(s)))
  {
    hide Next, Becomes, SameRace, EndsAtOnce, EndsIfAllHome, WithoutStation, CountUp;
    LeaveLeaves(env, e, s);
    var e' := Next(env, e, DoLeave(s));
    if EndsAtOnce(WithoutStation(e, s), e') || EndsIfAllHome(WithoutStation(e, s), e') {
      EndedSame(WithoutStation(e, s), e');
      WithoutSame(e, s, e');
    } else {
      BecomesSame(e, e', s, WithoutStation(e, s).st[s]);
    }
  }

  /** A step that records the time of the run for `a`: of a leg, of a finish,
      or of both. */
  ghost predicate Records(e: Engine, e': Engine, a: Alliance) {
    && Running(e.phase) && !IsHome(e, a) && e'.tally[Other(a)] == e.tally[Other(a)]
    && (e'.tally[a].splits == e.tally[a].splits || e'.tally[a].splits == e.tally[a].splits + [Raced(e)])
    && (e'.tally[a].finishedAt.None? || e'.tally[a].finishedAt == Some(Raced(e)))
    && e'.runStartedAt == e.runStartedAt && e'.clock.total == e.clock.total && (e'.phase == e.phase || e'.phase.PostMatch?)
  }

  lemma TimesGrow(t: Tally, t': Tally, now: real)
    requires TimesOk(t) && t.finishedAt.None? && NoneLater(t.splits, now)
    requires t'.splits == t.splits || t'.splits == t.splits + [now]
    requires t'.finishedAt.None? || t'.finishedAt == Some(now)
    ensures TimesOk(t') && NoneLater(t'.splits, now)
  {
  }

  lemma RecordsOk(e: Engine, e': Engine, a: Alliance)
    requires RaceOk(e) && Records(e, e', a)
    ensures RaceOk(e')
  {
    hide TimesOk, NoneLater;
    TimesGrow(e.tally[a], e'.tally[a], Raced(e));
    forall b: Alliance ensures TimesOk(e'.tally[b]) && NoneLater(e'.tally[b].splits, Raced(e)) {
      if b != a { assert b == Other(a); }
    }
  }

  ghost predicate RecordsOrSame(e: Engine, e': Engine) { SameRace(e, e') || exists a: Alliance :: Records(e, e', a) }

  lemma RecordsOrSameOk(e: Engine, e': Engine)
    requires RaceOk(e) && RecordsOrSame(e, e')
    ensures RaceOk(e')
  {
    hide RaceOk, SameRace, Records;
    if SameRace(e, e') {
      SameRaceOk(e, e');
    } else {
      var a: Alliance :| Records(e, e', a);
      RecordsOk(e, e', a);
    }
  }

  lemma FinishSame(env: Env, e: Engine, a: Alliance)
    ensures RecordsOrSame(e, Next(env, e, DoFinish(a)))
  {
    hide Next, AllHome, AllDowned;
    FinishRecords(env, e, a);
    var e' := Next(env, e, DoFinish(a));
    if OnItsWay(e, a) && !TakesTurns(e.config) {
      HomeRecords(e, e', a, Raced(e), ByAdmin);
      assert Records(e, e', a);
    } else {
      assert SameRace(e, e');
    }
  }

  lemma HomeRecords(e: Engine, e': Engine, a: Alliance, t: real, cause: Disabler)
    requires ComesHome(e, e', a, t, cause)
    ensures e'.tally[a] == e.tally[a].(finishedAt := Some(t)) && e'.tally[Other(a)] == e.tally[Other(a)]
    ensures e'.runStartedAt == e.runStartedAt && e'.clock.total == e.clock.total && (e'.phase == e.phase || e'.phase.PostMatch?)
  {
    hide AllHome, AllDowned;
  }

  lemma LegDoneTimes(e: Engine, a: Alliance)
    ensures var e1 := LegDone(e, a);
      && e1.tally[a] == e.tally[a].(splits := e.tally[a].splits + [Raced(e)]) && e1.tally[Other(a)] == e.tally[Other(a)]
      && e1.runStartedAt == e.runStartedAt && e1.clock == e.clock && e1.phase == e.phase
  {
  }

  lemma RelayRecords(env: Env, e: Engine, a: Alliance)
    ensures RecordsOrSame(e, RelayAdvance(env, e, a))
  {
    hide LegDone, RecordFinish, ComesHome, EnableStation, Broadcast, Runner, CanFinish, OnItsWay;
    OnItsWayIff(e, a);
    if OnItsWay(e, a) && FmsHandoff(e.config) {
      LegDoneTimes(e, a);
      var e1, e' := LegDone(e, a), RelayAdvance(env, e, a);
      FinishIs(env, e1, a, RunElapsed(e), ByRelay);
      HomeRecords(e1, RecordFinish(env, e1, a, RunElapsed(e), ByRelay), a, RunElapsed(e), ByRelay);
      if Runner(e1, a).Some? { EnabledTimes(env, e1, Runner(e1, a).value); }
      OnItsWayRuns(e, a);
      assert Records(e, e', a);
    } else {
      assert SameRace(e, e);
    }
  }

  lemma OnItsWayRuns(e: Engine, a: Alliance)
    requires OnItsWay(e, a)
    ensures Running(e.phase) && !IsHome(e, a)
  {
  }

  lemma EnabledTimes(env: Env, e: Engine, s: Station)
    ensures var e' := Broadcast(env, EnableStation(env, e, s, TeleOpMode));
            e'.tally == e.tally && e'.runStartedAt == e.runStartedAt && e'.clock == e.clock && e'.phase == e.phase
  {
    hide Broadcast;
    BroadcastKeeps(env, EnableStation(env, e, s, TeleOpMode));
  }

  lemma HandoffRecords(env: Env, e: Engine, s: Station)
    ensures RecordsOrSame(e, HandoffFromDisable(env, e, s))
  {
    hide RelayAdvance, Runner;
    assert SameRace(e, e);
    if e.st[s].alliance.Some? { RelayRecords(env, e, e.st[s].alliance.value); }
  }

  /** Records are the same of a state that differs in its robots only. */
  lemma RecordsFrom(e: Engine, d: Engine, e': Engine)
    requires SameRace(e, d) && d.phase == e.phase && RecordsOrSame(d, e')
    ensures RecordsOrSame(e, e')
  {
    if !SameRace(d, e') {
      var a: Alliance :| Records(d, e', a);
      assert Records(e, e', a);
    }
  }

  lemma DownRecords(env: Env, e: Engine, s: Station, cause: Disabler)
    ensures SameRace(e, Broadcast(env, HeldDown(e, s, cause)))
    ensures RecordsOrSame(e, HandoffFromDisable(env, Broadcast(env, HeldDown(e, s, cause)), s))
  {
    hide Broadcast, HandoffFromDisable, RecordsOrSame;
    var down := Broadcast(env, HeldDown(e, s, cause));
    BroadcastKeeps(env, HeldDown(e, s, cause));
    HandoffRecords(env, down, s);
    RecordsFrom(e, down, HandoffFromDisable(env, down, s));
  }

  lemma DisableRecords(env: Env, e: Engine, s: Station, self: bool)
    ensures RecordsOrSame(e, Next(env, e, DoDisable(s, self)))
  {
    hide Next, Broadcast, HandoffFromDisable, SameRace, Records;
    DisableNext(env, e, s, self);
    DownRecords(env, e, s, if self then BySelf else ByAdmin);
  }

  lemma SeenSame(env: Env, e: Engine, e1: Engine, s: Station, enabled: bool)
    requires Seen(env, e, e1, s, enabled)
    ensures SameRace(e, e1) && e1.phase == e.phase
  {
  }

  lemma StatusRecords(env: Env, e: Engine, s: Station, status: Status)
    ensures RecordsOrSame(e, Next(env, e, StatusFrom(s, status)))
  {
    hide Next, NoteHeartbeat, HonourStatus, Seen, RecordsOrSame, SameRace;
    StatusNext(env, e, s, status);
    var e1 := NoteHeartbeat(env, e, s, status.enabled);
    SeenIs(env, e, s, status.enabled);
    SeenSame(env, e, e1, s, status.enabled);
    HonouredRecords(env, e1, s, status);
    RecordsFrom(e, e1, HonourStatus(env, e1, s, status));
  }

  lemma HonouredRecords(env: Env, e: Engine, s: Station, status: Status)
    ensures RecordsOrSame(e, HonourStatus(env, e, s, status))
  {
    hide Broadcast, HandoffFromDisable, Put, HeldDown, DriverDisabled, ReportsEStop, ReportsAStop, Becomes, SameRace, Records;
    DownRecords(env, e, s, ByDs);
    PutIs(env, e, s, e.st[s].(eStop := true, enabled := false));
    PutIs(env, e, s, e.st[s].(aStop := true, enabled := false));
    BecomesSame(e, Broadcast(env, Put(e, s, e.st[s].(eStop := true, enabled := false))), s, e.st[s].(eStop := true, enabled := false));
    BecomesSame(e, Broadcast(env, Put(e, s, e.st[s].(aStop := true, enabled := false))), s, e.st[s].(aStop := true, enabled := false));
    BecomesSame(e, e, s, e.st[s]);
  }

  /** A tick that lets time go by, and begins no race. */
  ghost predicate RaceLater(e: Engine, e': Engine) {
    && e'.tally == e.tally && e'.runStartedAt == e.runStartedAt && e'.clock.total >= e.clock.total
    && (InRun(e'.phase) ==> InRun(e.phase)) && (e'.phase.Countdown? ==> e.phase.Countdown?)
  }

  lemma RaceLaterOk(e: Engine, e': Engine)
    requires RaceOk(e) && RaceLater(e, e')
    ensures RaceOk(e')
  {
  }

  lemma TickRaces(env: Env, e: Engine, pick: Alliance)
    requires Safe(e) && RaceOk(e) && e.clock.lastTick <= env.now
    ensures RaceOk(Next(env, e, TickTimer(pick)))
  {
    hide Next, Safe, RaceOk, WentLive, AllDowned, WinsAuto;
    var e' := Next(env, e, TickTimer(pick));
    if e.config.None? {
      TickElsewhere(env, e, pick);
    } else if TimeLeft(env, e) > 0.0 {
      TickBefore(env, e, pick);
    } else {
      match e.phase
      case PostMatch => TickLetsGo(env, e, pick);
      case Teleop => TickEnds(env, e, pick);
      case Endgame => TickEnds(env, e, pick);
      case Auto => TickEndsAuto(env, e, pick);
      case AutoPause => TickEndsBreak(env, e, pick);
      case Countdown =>
        TickStarts(env, e, pick);
        RaceBegins(e, e');
      case _ => TickElsewhere(env, e, pick);
    }
    if !(e.config.Some? && TimeLeft(env, e) <= 0.0 && e.phase.Countdown?) { RaceLaterOk(e, e'); }
  }

  lemma RaceBegins(e: Engine, e': Engine)
    requires RaceOk(e) && e.phase.Countdown? && e'.tally == e.tally && e'.runStartedAt == Some(e'.clock.total) && InRun(e'.phase)
    ensures RaceOk(e')
  {
  }

  lemma NothingRecorded(e: Engine)
    requires forall a: Alliance :: e.tally[a] == Tally(None, [])
    requires !InRun(e.phase)
    ensures RaceOk(e)
  {
  }

  lemma BeginRaces(env: Env, e: Engine, op: Op)
    requires Safe(e) && RaceOk(e) && Possible(e, op) && (op.DoCreate? || op.DoStart? || op.ResumeTimer?)
    ensures RaceOk(Next(env, e, op))
  {
    hide Next, RaceOk, WentLive, LegsOf, LinedUp, WinnerAtStart, WinnerMissing, LegsKept, EnabledOnlyIf, JoinedToAlliance;
    var e' := Next(env, e, op);
    match op
    case DoCreate =>
      CreateSetsUp(env, e);
      if e' != e { NothingRecorded(e'); }
    case DoStart(gates) =>
      StartStarts(env, e, gates);
      if e' != e { NothingRecorded(e'); }
    case ResumeTimer =>
      ResumeGoesOn(env, e);
      SameRaceOk(e, e');
  }

  lemma StepRaces(env: Env, e: Engine, op: Op)
    requires Safe(e) && RaceOk(e) && Possible(e, op) && e.clock.lastTick <= env.now
    ensures RaceOk(Next(env, e, op))
  {
    hide Next, Possible, Safe, RaceOk, RecordsOrSame, SameRace;
    match op
    case TickTimer(pick) => TickRaces(env, e, pick);
    case DoCreate => BeginRaces(env, e, op);
    case DoStart(_) => BeginRaces(env, e, op);
    case ResumeTimer => BeginRaces(env, e, op);
    case DoFinish(a) =>
      FinishSame(env, e, a);
      RecordsOrSameOk(e, Next(env, e, op));
    case DoRelay(a) =>
      RelayNext(env, e, a);
      RelayRecords(env, e, a);
      RecordsOrSameOk(e, Next(env, e, op));
    case StatusFrom(s, status) =>
      StatusRecords(env, e, s, status);
      RecordsOrSameOk(e, Next(env, e, op));
    case DoDisable(s, self) =>
      DisableRecords(env, e, s, self);
      RecordsOrSameOk(e, Next(env, e, op));
    case _ =>
      if SetsUp(op) { SetsUpSame(env, e, op); } else { StopsSame(env, e, op); }
      SameRaceOk(e, Next(env, e, op));
  }

  /** In every run from a new engine, with a clock that does not go back: while
      a race is on its beginning is known, no time recorded is later than now,
      the times of the legs ascend, and nobody is home before its last leg. */
  lemma {:induction false} RunRaces(e: Engine, steps: seq<Step>, from: int)
    requires Fresh(e) && e.clock.lastTick <= from && Runs(e, steps) && Ordered(steps, from)
    ensures RaceOk(Run(e, steps))
  {
    hide Next, Possible, Safe, RaceOk, Clocked;
    if steps == [] {
      assert RaceOk(e) by { NothingRecorded(e); }
    } else {
      var before, last := steps[..|steps| - 1], steps[|steps| - 1];
      RunRaces(e, before, from);
      FreshSafe(e);
      RunSafe(e, before);
      FreshClocked(e, from);
      RunClocked(e, before, from);
      TickedBefore(Run(e, before), LastNow(before, from));
      StepRaces(last.env, Run(e, before), last.op);
    }
  }

  lemma TickedBefore(e: Engine, now: int)
    requires Clocked(e, now)
    ensures e.clock.lastTick <= now
  {
  }
}
